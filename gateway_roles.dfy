/** apps/bff/src/middleware/roles.ts, as an instance of the role-gate model. */
module GatewayRoles {
  import opened Js
  import opened Koa
  import RoleGates

  /** `requireRole(roles)`: the gate over this file's copy. */
  method RequireRole(ctx: Context, a: RoleGates.RoleArg) returns (callsNext: bool)
    modifies ctx
    ensures callsNext <==> RoleGates.RolePasses(RoleGates.RoleList(a), RoleGates.HeldRoles(old(ctx.state)))
    ensures callsNext ==> ctx.View() == old(ctx.View())
    ensures !callsNext ==> ctx.View() == old(ctx.View()).(status := 403, body := Some(Envelope(403, "权限不足")))
  {
    callsNext := RoleGates.RequireRole(ctx, a);
  }

  method RequireAdmin(ctx: Context) returns (callsNext: bool)
    modifies ctx
    ensures callsNext <==> RoleGates.AdminPasses(old(ctx.state))
    ensures callsNext ==> ctx.View() == old(ctx.View())
    ensures !callsNext ==> ctx.View() == old(ctx.View()).(status := 403, body := Some(Envelope(403, "需要管理员权限")))
  {
    callsNext := RoleGates.RequireAdmin(ctx);
  }
}
