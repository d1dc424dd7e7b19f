/**
 * The backend's authentication and authorisation middlewares,
 * apps/backend/src/middlewares/auth.ts. The database is a value: users by
 * primary key, the roles joined to each user's UserRole rows, and the
 * permission codes joined to each role's RolePermission rows.
 */
module BackendAuth {
  import opened Js
  import opened Koa
  import JwtGate
  import RoleGates
  import BaseService

  datatype RoleRow = RoleRow(id: int, name: string, code: string)

  /** A user row: its key, its `status` column and the row as the code sees it. */
  datatype UserRow = UserRow(id: int, status: int, record: Json)

  /**
   * `userRoles[u]` is the joined `Role` of each UserRole row of user `u`
   * (None when the join found nothing); `rolePermissions[r]` the joined
   * `Permission.code` of each RolePermission row of role `r`.
   */
  datatype Db = Db(
    users: map<int, UserRow>,
    userRoles: map<int, seq<Option<RoleRow>>>,
    rolePermissions: map<int, seq<Option<string>>>)

  datatype AuthOptions = AuthOptions(required: bool, roles: seq<string>, permissions: seq<string>, excludePaths: seq<string>)

  const DefaultAuthOptions := AuthOptions(true, [], [], [])

  const MissingToken := "未提供认证令牌"
  const MalformedToken := "认证令牌格式错误"
  const InvalidToken := "认证令牌无效或已过期"
  const UnknownUser := "用户不存在"
  const DisabledUser := "用户已被禁用"
  const Forbidden := "权限不足"
  const Failed := "认证处理失败"

  /**
   * `User.findByPk(decoded.userId)` when the key passes: the row the user table holds
   * under the key Postgres reads from `userId`.
   */
  function FindUser(db: Db, key: Option<Json>): (u: Option<UserRow>)
    ensures u.Some? ==> BaseService.PkOf(key) == BaseService.ByKey(u.value.id)
    ensures u.Some? ==> u.value.id in db.users && db.users[u.value.id] == u.value
    ensures u.None? && BaseService.PkOf(key).ByKey? ==>
      var k := BaseService.PkOf(key).key; k !in db.users || db.users[k].id != k
  {
    if BaseService.KeyOf(key).Some? && BaseService.KeyOf(key).value in db.users then
      var u := db.users[BaseService.KeyOf(key).value];
      if u.id == BaseService.KeyOf(key).value then Some(u) else None
    else None
  }

  /** `userRoles.map(ur => ur.Role?.code).filter(Boolean)`. */
  function RoleCodes(rows: seq<Option<RoleRow>>): (codes: seq<string>)
    ensures forall c :: c in codes <==> c != "" && Some(c) in RoleCodeColumn(rows)
    ensures |codes| <= |rows|
  {
    if rows == [] then []
    else
      var rest := RoleCodes(rows[1..]);
      assert RoleCodeColumn(rows) == [if rows[0].Some? then Some(rows[0].value.code) else None] + RoleCodeColumn(rows[1..]);
      if rows[0].Some? && rows[0].value.code != "" then [rows[0].value.code] + rest else rest
  }

  /** `ur.Role?.code` of each row. */
  function RoleCodeColumn(rows: seq<Option<RoleRow>>): seq<Option<string>> {
    seq(|rows|, i requires 0 <= i < |rows| => if rows[i].Some? then Some(rows[i].value.code) else None)
  }

  /** `userRoles.map(ur => ur.Role?.id).filter(Boolean)`. */
  function RoleIds(rows: seq<Option<RoleRow>>): (ids: seq<int>)
    ensures forall r :: r in ids <==> r != 0 && exists i :: 0 <= i < |rows| && rows[i].Some? && rows[i].value.id == r
    ensures ids == [] <==> forall i :: 0 <= i < |rows| && rows[i].Some? ==> rows[i].value.id == 0
  {
    if rows == [] then []
    else
      var rest := RoleIds(rows[1..]);
      assert forall i :: 1 <= i < |rows| ==> rows[i] == rows[1..][i - 1];
      if rows[0].Some? && rows[0].value.id != 0 then [rows[0].value.id] + rest else rest
  }

  /** The user's UserRole rows; a user without any has none. */
  function RolesOfUser(db: Db, uid: int): seq<Option<RoleRow>> {
    if uid in db.userRoles then db.userRoles[uid] else []
  }

  /** `Permission?.code` of the RolePermission rows whose role is among `ids`, falsy codes dropped. */
  function PermissionCodes(db: Db, ids: seq<int>): (codes: seq<string>)
    ensures forall p :: p in codes <==> p != "" && exists i :: 0 <= i < |ids| && ids[i] in db.rolePermissions && Some(p) in db.rolePermissions[ids[i]]
  {
    if ids == [] then []
    else
      var here := if ids[0] in db.rolePermissions then Truthful(db.rolePermissions[ids[0]]) else [];
      var rest := PermissionCodes(db, ids[1..]);
      assert forall i :: 1 <= i < |ids| ==> ids[i] == ids[1..][i - 1];
      here + rest
  }

  /** `.filter(Boolean)` on a column of optional strings. */
  function Truthful(col: seq<Option<string>>): (r: seq<string>)
    ensures forall p :: p in r <==> p != "" && Some(p) in col
  {
    if col == [] then []
    else
      var rest := Truthful(col[1..]);
      assert col == [col[0]] + col[1..];
      if col[0].Some? && col[0].value != "" then [col[0].value] + rest else rest
  }

  /** `ctx.roles`: the role codes, as the JSON list the guards read. */
  function CodeList(codes: seq<string>): (r: Json)
    ensures r.JArr? && |r.items| == |codes|
    ensures forall c :: JStr(c) in r.items <==> c in codes
  {
    var items := seq(|codes|, i requires 0 <= i < |codes| => JStr(codes[i]));
    assert forall c :: c in codes ==> exists i :: 0 <= i < |codes| && codes[i] == c && items[i] == JStr(c);
    JArr(items)
  }

  function Reject(v: Snapshot, code: int, message: string): (w: Snapshot)
    ensures Rejected(w, code) && w.request == v.request && w.state == v.state && w.ext == v.ext
  {
    v.(status := code, body := Some(Envelope(code, message)))
  }

  /** What a successful check records: `ctx.userId`, `state.userId`, `ctx.user`, `ctx.roles`. */
  function Admit(v: Snapshot, u: UserRow, codes: seq<string>): Snapshot {
    v.(ext := v.ext["userId" := Int(u.id)]["user" := u.record]["roles" := CodeList(codes)],
       state := v.state["userId" := Int(u.id)])
  }

  /** `process.env.JWT_SECRET || 'default-secret'`. */
  function Secret(secret: string): string {
    if secret != "" then secret else "default-secret"
  }

  /** The checks after the token has been verified, in the order the code makes them. */
  function Authorise(v: Snapshot, o: AuthOptions, db: Db, decoded: Json): (g: JwtGate.Gate)
    ensures BaseService.PkOf(Field(decoded, "userId")).Refused? ==> g == JwtGate.Stop(Reject(v, 500, Failed))
    ensures !BaseService.PkOf(Field(decoded, "userId")).Refused? && FindUser(db, Field(decoded, "userId")).None? ==>
      g == JwtGate.Stop(Reject(v, 401, UnknownUser))
    ensures FindUser(db, Field(decoded, "userId")).Some? && FindUser(db, Field(decoded, "userId")).value.status == 0 ==>
      g == JwtGate.Stop(Reject(v, 403, DisabledUser))
    ensures g.Pass? ==>
      var u := FindUser(db, Field(decoded, "userId"));
      var rows := RolesOfUser(db, u.value.id);
      u.Some? && u.value.status != 0 &&
      (o.roles != [] ==> Intersects(o.roles, RoleCodes(rows))) &&
      (o.permissions != [] && RoleIds(rows) != [] ==> Intersects(o.permissions, PermissionCodes(db, RoleIds(rows)))) &&
      g.view == Admit(v, u.value, RoleCodes(rows))
    ensures g.Stop? ==> g.view.status in {401, 403, 500} && Rejected(g.view, g.view.status)
    ensures g.Stop? ==> g.view.request == v.request && g.view.state == v.state && g.view.ext == v.ext
  {
    var user := FindUser(db, Field(decoded, "userId"));
    if BaseService.PkOf(Field(decoded, "userId")).Refused? then JwtGate.Stop(Reject(v, 500, Failed))
    else if user.None? then JwtGate.Stop(Reject(v, 401, UnknownUser))
    else if user.value.status == 0 then JwtGate.Stop(Reject(v, 403, DisabledUser))
    else
      var rows := RolesOfUser(db, user.value.id);
      var codes := RoleCodes(rows);
      var ids := RoleIds(rows);
      if o.roles != [] && !Intersects(o.roles, codes) then JwtGate.Stop(Reject(v, 403, Forbidden))
      else if o.permissions != [] && ids != [] && !Intersects(o.permissions, PermissionCodes(db, ids))
      then JwtGate.Stop(Reject(v, 403, Forbidden))
      else JwtGate.Pass(Admit(v, user.value, codes))
  }

  /** The whole cascade before `next()`; `verify` is `jwt.verify`, None when it throws. */
  function Decide(v: Snapshot, o: AuthOptions, secret: string, verify: (string, string) -> Option<Json>, db: Db): (g: JwtGate.Gate)
    ensures v.request.path in o.excludePaths ==> g == JwtGate.Pass(v)
    ensures v.request.path !in o.excludePaths && Header(v.request, "authorization") == "" ==>
      g == (if o.required then JwtGate.Stop(Reject(v, 401, MissingToken)) else JwtGate.Pass(v))
    ensures v.request.path !in o.excludePaths && Header(v.request, "authorization") != "" ==>
      var t := JwtGate.BearerToken(Header(v.request, "authorization"));
      (t.None? ==> g == JwtGate.Stop(Reject(v, 401, MalformedToken))) &&
      (t.Some? && verify(t.value, Secret(secret)).None? ==> g == JwtGate.Stop(Reject(v, 401, InvalidToken))) &&
      (t.Some? && verify(t.value, Secret(secret)).Some? ==> g == Authorise(v, o, db, verify(t.value, Secret(secret)).value))
  {
    if v.request.path in o.excludePaths then JwtGate.Pass(v)
    else
      var h := Header(v.request, "authorization");
      if h == "" then
        if o.required then JwtGate.Stop(Reject(v, 401, MissingToken)) else JwtGate.Pass(v)
      else
        var t := JwtGate.BearerToken(h);
        if t.None? then JwtGate.Stop(Reject(v, 401, MalformedToken))
        else
          var decoded := verify(t.value, Secret(secret));
          if decoded.None? then JwtGate.Stop(Reject(v, 401, InvalidToken))
          else Authorise(v, o, db, decoded.value)
  }

  /** Every `next()` sits inside the try: a downstream exception becomes 500. */
  function Finish(d: Downstream): (w: Snapshot)
    ensures d.thrown.Some? ==> w == Reject(d.view, 500, Failed)
    ensures d.thrown.None? ==> w == d.view
  {
    if d.thrown.Some? then Reject(d.view, 500, Failed) else d.view
  }

  /** `jwtAuth(options)`; it never lets an exception out. */
  method JwtAuth(ctx: Context, o: AuthOptions, secret: string, verify: (string, string) -> Option<Json>, db: Db,
                 next: Snapshot -> Downstream)
    modifies ctx
    ensures var g := Decide(old(ctx.View()), o, secret, verify, db);
      ctx.View() == if g.Stop? then g.view else Finish(next(g.view))
  {
    var pass := true;
    if !(ctx.request.path in o.excludePaths) {
      pass := Check(ctx, o, secret, verify, db);
    }
    if !pass {
      return;
    }
    var d := next(ctx.View());
    ctx.Load(d.view);
    if d.thrown.Some? {
      ctx.status := 500;
      ctx.body := Some(Envelope(500, Failed));
    }
  }

  /** The header-reading part of the cascade, up to the call of `next()`. */
  method Check(ctx: Context, o: AuthOptions, secret: string, verify: (string, string) -> Option<Json>, db: Db) returns (pass: bool)
    requires ctx.request.path !in o.excludePaths
    modifies ctx
    ensures var g := Decide(old(ctx.View()), o, secret, verify, db);
      pass == g.Pass? && ctx.View() == g.view
  {
    var authHeader := Header(ctx.request, "authorization");
    if authHeader == "" {
      if o.required {
        ctx.status := 401;
        ctx.body := Some(Envelope(401, MissingToken));
        return false;
      }
      return true;
    }
    var parts := Split(authHeader, ' ');
    if |parts| != 2 || parts[0] != "Bearer" {
      ctx.status := 401;
      ctx.body := Some(Envelope(401, MalformedToken));
      return false;
    }
    var decoded := verify(parts[1], Secret(secret));
    if decoded.None? {
      ctx.status := 401;
      ctx.body := Some(Envelope(401, InvalidToken));
      return false;
    }
    pass := CheckUser(ctx, o, db, decoded.value);
  }

  /** The database part of the cascade. */
  method CheckUser(ctx: Context, o: AuthOptions, db: Db, decoded: Json) returns (pass: bool)
    modifies ctx
    ensures var g := Authorise(old(ctx.View()), o, db, decoded);
      pass == g.Pass? && ctx.View() == g.view
  {
    if BaseService.PkOf(Field(decoded, "userId")).Refused? {
      Refuse(ctx, 500, Failed);
      return false;
    }
    var user := FindUser(db, Field(decoded, "userId"));
    if user.None? {
      Refuse(ctx, 401, UnknownUser);
      return false;
    }
    if user.value.status == 0 {
      Refuse(ctx, 403, DisabledUser);
      return false;
    }
    var rows := RolesOfUser(db, user.value.id);
    var codes := RoleCodes(rows);
    var ids := RoleIds(rows);
    if |o.roles| > 0 && !Intersects(o.roles, codes) {
      Refuse(ctx, 403, Forbidden);
      return false;
    }
    if |o.permissions| > 0 && |ids| > 0 {
      var permissionCodes := PermissionCodes(db, ids);
      if !Intersects(o.permissions, permissionCodes) {
        Refuse(ctx, 403, Forbidden);
        return false;
      }
    }
    RecordUser(ctx, user.value, codes);
    pass := true;
  }

  /** `ctx.status = code; ctx.body = { code, message }`. */
  method Refuse(ctx: Context, code: int, message: string)
    modifies ctx
    ensures ctx.View() == Reject(old(ctx.View()), code, message)
  {
    ctx.status := code;
    ctx.body := Some(Envelope(code, message));
  }

  /** Records the admitted user on the context and in its state. */
  method RecordUser(ctx: Context, u: UserRow, codes: seq<string>)
    modifies ctx
    ensures ctx.View() == Admit(old(ctx.View()), u, codes)
  {
    ctx.ext := ctx.ext["userId" := Int(u.id)];
    ctx.state := ctx.state["userId" := Int(u.id)];
    ctx.ext := ctx.ext["user" := u.record];
    ctx.ext := ctx.ext["roles" := CodeList(codes)];
  }

  /** A user none of whose roles has an id is never asked for permissions. */
  lemma RolelessSkipsPermissions(v: Snapshot, o: AuthOptions, db: Db, decoded: Json)
    requires var u := FindUser(db, Field(decoded, "userId"));
      u.Some? && RoleIds(RolesOfUser(db, u.value.id)) == []
    ensures Authorise(v, o, db, decoded) == Authorise(v, o.(permissions := []), db, decoded)
  {
  }

  /** With permissions configured, a user holding a role with a permission code required passes that check. */
  lemma PermissionGranted(v: Snapshot, o: AuthOptions, db: Db, decoded: Json, i: int, p: string)
    requires var u := FindUser(db, Field(decoded, "userId"));
      u.Some? && u.value.status != 0 && o.roles == [] &&
      var rows := RolesOfUser(db, u.value.id);
      0 <= i < |rows| && rows[i].Some? && rows[i].value.id != 0 &&
      rows[i].value.id in db.rolePermissions && Some(p) in db.rolePermissions[rows[i].value.id] &&
      p != "" && p in o.permissions
    ensures Authorise(v, o, db, decoded).Pass?
  {
    var u := FindUser(db, Field(decoded, "userId"));
    var rows := RolesOfUser(db, u.value.id);
    var ids := RoleIds(rows);
    var r := rows[i].value.id;
    assert r in ids;
    var j :| 0 <= j < |ids| && ids[j] == r;
    assert p in PermissionCodes(db, ids);
  }

  // ------------------------------------------------------------- role guards

  const RoleRequired := "需要角色: "
  const AdminRequired := "需要管理员权限"
  const TeacherRequired := "需要教师权限"
  const StudentRequired := "需要学生权限"
  const NotLoggedIn := "未登录"
  const SelfOnly := "只能访问自己的资源"

  /** `ctx.roles`, when it is set; a value that is not a list counts as unset. */
  function CtxRoles(v: Snapshot): Option<seq<Json>> {
    var r := Prop(v.ext, "roles");
    if r.Some? && r.value.JArr? then Some(r.value.items) else None
  }

  /** `ctx.roles` is set and holds one of `accepted`. */
  predicate Holds(v: Snapshot, accepted: seq<string>) {
    CtxRoles(v).Some? && SharesRole(accepted, CtxRoles(v).value)
  }

  /** `requireRole(roles)`: 403 without roles, 403 naming the roles without a match, else `next()`. */
  function RoleDecision(v: Snapshot, a: RoleGates.RoleArg): (o: Outcome)
    ensures CtxRoles(v).None? || CtxRoles(v).value == [] ==> o == Outcome(Reject(v, 403, Forbidden), false)
    ensures CtxRoles(v).Some? && CtxRoles(v).value != [] ==>
      o == if SharesRole(RoleGates.RoleList(a), CtxRoles(v).value) then Outcome(v, true)
           else Outcome(Reject(v, 403, RoleRequired + Join(RoleGates.RoleList(a), ", ")), false)
  {
    var held := CtxRoles(v);
    var list := RoleGates.RoleList(a);
    if held.None? || |held.value| == 0 then Outcome(Reject(v, 403, Forbidden), false)
    else if !SharesRole(list, held.value) then Outcome(Reject(v, 403, RoleRequired + Join(list, ", ")), false)
    else Outcome(v, true)
  }

  /** The guard passes exactly when the roles are set and share one with the list. */
  lemma RoleDecisionIff(v: Snapshot, a: RoleGates.RoleArg)
    ensures RoleDecision(v, a).callsNext <==> Holds(v, RoleGates.RoleList(a))
    ensures !RoleDecision(v, a).callsNext ==> Rejected(RoleDecision(v, a).view, 403)
  {
    if Holds(v, RoleGates.RoleList(a)) {
      var list := RoleGates.RoleList(a);
      var i :| 0 <= i < |list| && JStr(list[i]) in CtxRoles(v).value;
    }
  }

  method RequireRole(ctx: Context, a: RoleGates.RoleArg) returns (callsNext: bool)
    modifies ctx
    ensures Outcome(ctx.View(), callsNext) == RoleDecision(old(ctx.View()), a)
  {
    var roleArray := if a.Many? then a.roles else [a.role];
    var held := CtxRoles(ctx.View());
    if held.None? || |held.value| == 0 {
      ctx.status := 403;
      ctx.body := Some(Envelope(403, Forbidden));
      return false;
    }
    if !SharesRole(roleArray, held.value) {
      ctx.status := 403;
      ctx.body := Some(Envelope(403, RoleRequired + Join(roleArray, ", ")));
      return false;
    }
    callsNext := true;
  }

  /** A fixed-role guard: `next()` when `ctx.roles` holds one of `accepted`, else 403 with `message`. */
  method RequireAny(ctx: Context, accepted: seq<string>, message: string) returns (callsNext: bool)
    modifies ctx
    ensures callsNext <==> Holds(old(ctx.View()), accepted)
    ensures ctx.View() == if callsNext then old(ctx.View()) else Reject(old(ctx.View()), 403, message)
  {
    var held := CtxRoles(ctx.View());
    if held.None? || !SharesRole(accepted, held.value) {
      ctx.status := 403;
      ctx.body := Some(Envelope(403, message));
      return false;
    }
    callsNext := true;
  }

  /** `requireAdmin`. */
  method RequireAdmin(ctx: Context) returns (callsNext: bool)
    modifies ctx
    ensures callsNext <==> CtxRoles(old(ctx.View())).Some? && JStr("admin") in CtxRoles(old(ctx.View())).value
    ensures ctx.View() == if callsNext then old(ctx.View()) else Reject(old(ctx.View()), 403, AdminRequired)
  {
    callsNext := RequireAny(ctx, ["admin"], AdminRequired);
    AcceptedPair(old(ctx.View()), "admin", "admin");
  }

  /** `requireTeacher`: a teacher or an admin. */
  method RequireTeacher(ctx: Context) returns (callsNext: bool)
    modifies ctx
    ensures callsNext <==> (CtxRoles(old(ctx.View())).Some? &&
      (JStr("teacher") in CtxRoles(old(ctx.View())).value || JStr("admin") in CtxRoles(old(ctx.View())).value))
    ensures ctx.View() == if callsNext then old(ctx.View()) else Reject(old(ctx.View()), 403, TeacherRequired)
  {
    callsNext := RequireAny(ctx, ["teacher", "admin"], TeacherRequired);
    AcceptedPair(old(ctx.View()), "teacher", "admin");
  }

  /** `requireStudent`: a student or an admin. */
  method RequireStudent(ctx: Context) returns (callsNext: bool)
    modifies ctx
    ensures callsNext <==> (CtxRoles(old(ctx.View())).Some? &&
      (JStr("student") in CtxRoles(old(ctx.View())).value || JStr("admin") in CtxRoles(old(ctx.View())).value))
    ensures ctx.View() == if callsNext then old(ctx.View()) else Reject(old(ctx.View()), 403, StudentRequired)
  {
    callsNext := RequireAny(ctx, ["student", "admin"], StudentRequired);
    AcceptedPair(old(ctx.View()), "student", "admin");
  }

  /** Holding one of two roles is holding either. */
  lemma AcceptedPair(v: Snapshot, a: string, b: string)
    ensures Holds(v, [a, b]) <==> CtxRoles(v).Some? && (JStr(a) in CtxRoles(v).value || JStr(b) in CtxRoles(v).value)
    ensures Holds(v, [a]) <==> CtxRoles(v).Some? && JStr(a) in CtxRoles(v).value
  {
    if CtxRoles(v).Some? && JStr(b) in CtxRoles(v).value {
      assert [a, b][1] == b;
    }
    if CtxRoles(v).Some? && JStr(a) in CtxRoles(v).value {
      assert [a, b][0] == a && [a][0] == a;
    }
  }

  /** `currentUserId === targetId`, with `parseInt` giving NaN (None) for no digits. */
  predicate IsSelf(current: Json, target: Option<int>) {
    target.Some? && current == Int(target.value)
  }

  /** `requireSelfOrAdmin(paramName)`. */
  function SelfDecision(v: Snapshot, paramName: string): (o: Outcome)
    ensures !TruthyOpt(Prop(v.ext, "userId")) ==> o == Outcome(Reject(v, 401, NotLoggedIn), false)
    ensures TruthyOpt(Prop(v.ext, "userId")) ==>
      (o.callsNext <==> IsSelf(v.ext["userId"], ParseIntValue(Prop(v.request.params, paramName))) || Holds(v, ["admin"]))
    ensures TruthyOpt(Prop(v.ext, "userId")) ==>
      o.view == if o.callsNext then v else Reject(v, 403, SelfOnly)
  {
    if !TruthyOpt(Prop(v.ext, "userId")) then Outcome(Reject(v, 401, NotLoggedIn), false)
    else
      var isSelf := IsSelf(v.ext["userId"], ParseIntValue(Prop(v.request.params, paramName)));
      var isAdmin := CtxRoles(v).Some? && JStr("admin") in CtxRoles(v).value;
      assert isAdmin <==> Holds(v, ["admin"]) by { AcceptedPair(v, "admin", "admin"); }
      if !isSelf && !isAdmin then Outcome(Reject(v, 403, SelfOnly), false) else Outcome(v, true)
  }

  method RequireSelfOrAdmin(ctx: Context, paramName: string) returns (callsNext: bool)
    modifies ctx
    ensures Outcome(ctx.View(), callsNext) == SelfDecision(old(ctx.View()), paramName)
  {
    var targetId := ParseIntValue(Prop(ctx.request.params, paramName));
    var currentUserId := Prop(ctx.ext, "userId");
    if !TruthyOpt(currentUserId) {
      ctx.status := 401;
      ctx.body := Some(Envelope(401, NotLoggedIn));
      return false;
    }
    var isAdmin := CtxRoles(ctx.View()).Some? && JStr("admin") in CtxRoles(ctx.View()).value;
    var isSelf := IsSelf(currentUserId.value, targetId);
    if !isSelf && !isAdmin {
      ctx.status := 403;
      ctx.body := Some(Envelope(403, SelfOnly));
      return false;
    }
    callsNext := true;
  }

  /** The caller reaches their own record through its decimal id. */
  lemma OwnIdPasses(v: Snapshot, paramName: string, id: int)
    requires id != 0 && Prop(v.ext, "userId") == Some(Int(id))
    requires Prop(v.request.params, paramName) == Some(JStr(IntText(id)))
    ensures SelfDecision(v, paramName).callsNext
  {
    var s := IntText(id);
    ParseIntText(id);
    assert ToJsStringOpt(Some(JStr(s))) == s;
    assert ParseIntValue(Prop(v.request.params, paramName)) == Some(id);
    assert TruthyOpt(Prop(v.ext, "userId")) by { assert id as real != 0.0; }
    assert IsSelf(v.ext["userId"], Some(id));
  }

  /** An id parameter without digits matches nobody: only an admin gets through. */
  lemma NonNumericIdNeedsAdmin(v: Snapshot, paramName: string)
    requires TruthyOpt(Prop(v.ext, "userId"))
    requires ParseIntValue(Prop(v.request.params, paramName)).None?
    ensures SelfDecision(v, paramName).callsNext <==> Holds(v, ["admin"])
  {
  }
}
