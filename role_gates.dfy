/**
 * The gateway's role gates, written identically in apps/bff/src/middleware/roles.ts
 * and packages/middlewares/src/roles.ts. They read the roles and user the
 * bearer-token gate left in `ctx.state`.
 */
module RoleGates {
  import opened Js
  import opened Koa

  /** `requireRole`'s argument: one role or a list. */
  datatype RoleArg = One(role: string) | Many(roles: seq<string>)

  const RoleForbidden := "权限不足"
  const AdminRequired := "需要管理员权限"

  /** `Array.isArray(roles) ? roles : [roles]`. */
  function RoleList(a: RoleArg): (list: seq<string>)
    ensures a.One? ==> list == [a.role]
    ensures a.Many? ==> list == a.roles
  {
    match a
    case One(r) => [r]
    case Many(rs) => rs
  }

  /** `state.roles || []`, read as a list. */
  function HeldRoles(st: map<string, Json>): seq<Json> {
    var r := Prop(st, "roles");
    if r.Some? && r.value.JArr? then r.value.items else []
  }

  /** `!userRoles.length || !list.some(r => userRoles.includes(r))`, negated. */
  predicate RolePasses(list: seq<string>, held: seq<Json>) {
    |held| != 0 && SharesRole(list, held)
  }

  /** The length test is redundant: an empty list shares nothing. */
  lemma RolePassesIffShares(list: seq<string>, held: seq<Json>)
    ensures RolePasses(list, held) <==> SharesRole(list, held)
  {
    if SharesRole(list, held) {
      var i :| 0 <= i < |list| && JStr(list[i]) in held;
      assert |held| != 0;
    }
  }

  /** The `admin` role, or a user whose username is `admin`. */
  predicate AdminPasses(st: map<string, Json>) {
    JStr("admin") in HeldRoles(st)
    || (TruthyOpt(Prop(st, "user")) && Field(Prop(st, "user").value, "username") == Some(JStr("admin")))
  }

  /** What a gate leaves: untouched and calling `next()`, or a 403 with `message`. */
  function GateOutcome(v: Snapshot, passes: bool, message: string): (o: Outcome)
    ensures o.callsNext <==> passes
    ensures passes ==> o.view == v
    ensures !passes ==> o.view == v.(status := 403, body := Some(Envelope(403, message))) && Rejected(o.view, 403)
  {
    if passes then Outcome(v, true) else Outcome(v.(status := 403, body := Some(Envelope(403, message))), false)
  }

  method RequireRole(ctx: Context, a: RoleArg) returns (callsNext: bool)
    modifies ctx
    ensures Outcome(ctx.View(), callsNext) ==
      GateOutcome(old(ctx.View()), RolePasses(RoleList(a), HeldRoles(old(ctx.state))), RoleForbidden)
  {
    var list := if a.Many? then a.roles else [a.role];
    var userRoles := HeldRoles(ctx.state);
    var i := 0;
    var some := false;
    while i < |list| && !some
      invariant 0 <= i <= |list|
      invariant some <==> exists j :: 0 <= j < i && JStr(list[j]) in userRoles
    {
      some := JStr(list[i]) in userRoles;
      i := i + 1;
    }
    assert some <==> SharesRole(list, userRoles);
    if |userRoles| == 0 || !some {
      ctx.status := 403;
      ctx.body := Some(Envelope(403, RoleForbidden));
      return false;
    }
    callsNext := true;
  }

  method RequireAdmin(ctx: Context) returns (callsNext: bool)
    modifies ctx
    ensures Outcome(ctx.View(), callsNext) == GateOutcome(old(ctx.View()), AdminPasses(old(ctx.state)), AdminRequired)
  {
    var roles := HeldRoles(ctx.state);
    var user := Prop(ctx.state, "user");
    var isAdminRole := JStr("admin") in roles;
    var isAdminUser := TruthyOpt(user) && Field(user.value, "username") == Some(JStr("admin"));
    if !isAdminRole && !isAdminUser {
      ctx.status := 403;
      ctx.body := Some(Envelope(403, AdminRequired));
      return false;
    }
    callsNext := true;
  }

  /** A single role behaves as the one-element list. */
  lemma SingleRoleIsList(r: string, held: seq<Json>)
    ensures RolePasses(RoleList(One(r)), held) <==> JStr(r) in held
  {
    if JStr(r) in held {
      assert JStr(RoleList(One(r))[0]) in held;
    }
  }

  /** Whoever passes `requireRole('admin')` passes `requireAdmin`; the converse fails for a user named admin. */
  lemma AdminRoleSuffices(st: map<string, Json>)
    requires RolePasses(["admin"], HeldRoles(st))
    ensures AdminPasses(st)
  {
  }

  lemma AdminByNameOnly()
    ensures var st := map["user" := JObj([("username", JStr("admin"))])];
      AdminPasses(st) && !RolePasses(["admin"], HeldRoles(st))
  {
  }
}
