/**
 * The user service, apps/backend/src/services/UserService.ts: registration
 * with duplicate checks, login with a signed token, role assignment by
 * replacing the user's role links, and bulk creation. Password hashing,
 * password comparison and token signing are parameters; the user table's
 * `unique` columns (username, student id) are enforced as the database
 * does, by refusing the insert.
 */
module UserService {
  import opened Js
  import opened BaseService

  const Active := 1
  const Inactive := 0

  /** `CreateUserInput`, once the controller has checked its fields. */
  datatype UserInput = UserInput(
    username: string, password: string, realName: string, studentId: string,
    enrollmentYear: int, major: string, status: int)

  /** A row of the user table. */
  datatype User = User(
    id: int, username: string, passwordHash: string, realName: string, studentId: string,
    enrollmentYear: int, major: string, status: int)

  /** `userData.status || Status.Active`: 0 (Inactive) is falsy and becomes Active too. */
  function StatusOrActive(status: int): (s: int)
    ensures s != 0
    ensures status != 0 ==> s == status
  {
    if status != 0 then status else Active
  }

  /** The row `create` stores for one input. */
  function Row(id: int, input: UserInput, hash: string -> string): (u: User)
    ensures u.id == id && u.username == input.username && u.studentId == input.studentId
    ensures u.passwordHash == hash(input.password) && u.status == StatusOrActive(input.status)
  {
    User(id, input.username, hash(input.password), input.realName, input.studentId,
      input.enrollmentYear, input.major, StatusOrActive(input.status))
  }

  /** The camel-case user object the service returns: every column but the password. */
  function Public(u: User): (j: Json)
    ensures j.JObj? && Keys(j.members) == ["id", "username", "realName", "studentId", "enrollmentYear", "major", "status"]
  {
    JObj([("id", Int(u.id)), ("username", JStr(u.username)), ("realName", JStr(u.realName)),
      ("studentId", JStr(u.studentId)), ("enrollmentYear", Int(u.enrollmentYear)), ("major", JStr(u.major)),
      ("status", Int(u.status))])
  }

  /** No returned user object has a password member. */
  lemma PublicHidesPassword(u: User)
    ensures "password" !in Keys(Public(u).members) && Field(Public(u), "password").None?
  {
    assert forall k :: k in Keys(Public(u).members) ==> k[0] != 'p';
  }

  // ------------------------------------------------------------ lookups

  /** `findOne({where: {username}})`: the first row with that username. */
  function ByUsername(users: seq<User>, name: string): (o: Option<User>)
    ensures o.None? <==> forall i :: 0 <= i < |users| ==> users[i].username != name
    ensures o.Some? ==> o.value in users && o.value.username == name
  {
    if users == [] then None
    else if users[0].username == name then Some(users[0])
    else ByUsername(users[1..], name)
  }

  /** `findOne({where: {student_id}})`: the first row with that student id. */
  function ByStudentId(users: seq<User>, sid: string): (o: Option<User>)
    ensures o.None? <==> forall i :: 0 <= i < |users| ==> users[i].studentId != sid
    ensures o.Some? ==> o.value in users && o.value.studentId == sid
  {
    if users == [] then None
    else if users[0].studentId == sid then Some(users[0])
    else ByStudentId(users[1..], sid)
  }

  /** `findByPk(id)`. */
  function ById(users: seq<User>, id: int): (o: Option<User>)
    ensures o.None? <==> forall i :: 0 <= i < |users| ==> users[i].id != id
    ensures o.Some? ==> o.value in users && o.value.id == id
  {
    if users == [] then None
    else if users[0].id == id then Some(users[0])
    else ById(users[1..], id)
  }

  /** The table's unique columns: no two rows share an id, a username or a student id. */
  predicate Unique(users: seq<User>) {
    forall i, j :: 0 <= i < j < |users| ==>
      users[i].id != users[j].id && users[i].username != users[j].username && users[i].studentId != users[j].studentId
  }

  // ------------------------------------------------------------ register

  /** `register(userData)`: the answer, given the table before the call. */
  function RegisterReply(users: seq<User>, nextId: int, input: UserInput, hash: string -> string): (r: Api)
    ensures ByUsername(users, input.username).Some? ==> r == Api(409, "用户名已存在", None)
    ensures ByUsername(users, input.username).None? && ByStudentId(users, input.studentId).Some? ==>
      r == Api(409, "学号已存在", None)
    ensures r.code == 201 <==> ByUsername(users, input.username).None? && ByStudentId(users, input.studentId).None?
    ensures r.code == 201 ==> r.message == "用户注册成功" && r.data == Some(Public(Row(nextId, input, hash)))
  {
    if ByUsername(users, input.username).Some? then Api(409, "用户名已存在", None)
    else if ByStudentId(users, input.studentId).Some? then Api(409, "学号已存在", None)
    else Api(201, "用户注册成功", Some(Public(Row(nextId, input, hash))))
  }

  /** A registration that passes both duplicate checks keeps the unique columns unique. */
  lemma RegisterKeepsUnique(users: seq<User>, nextId: int, input: UserInput, hash: string -> string)
    requires Unique(users) && forall i :: 0 <= i < |users| ==> users[i].id < nextId
    requires RegisterReply(users, nextId, input, hash).code == 201
    ensures Unique(users + [Row(nextId, input, hash)])
  {
  }

  /** A registration asking for status 0 (Inactive) is stored as Active. */
  lemma InactiveRegistrationIsActive(id: int, input: UserInput, hash: string -> string)
    requires input.status == Inactive
    ensures Row(id, input, hash).status == Active
  {
  }

  // ------------------------------------------------------------ login

  /** `userRoles.map(ur => ur.Role?.code).filter(Boolean)`: the truthy codes of the user's linked roles. */
  function RoleCodes(links: seq<Link>, user: int, roles: map<int, Json>): (codes: seq<Json>)
    ensures forall i :: 0 <= i < |codes| ==> Truthy(codes[i])
    ensures forall l :: l in links && l.owner == user && l.target in roles && TruthyOpt(Field(roles[l.target], "code")) ==>
      Field(roles[l.target], "code").value in codes
    ensures forall c :: c in codes ==>
      exists l :: l in links && l.owner == user && l.target in roles && Field(roles[l.target], "code") == Some(c)
  {
    if links == [] then []
    else
      var l := links[0];
      var code := if l.target in roles then Field(roles[l.target], "code") else None;
      var rest := RoleCodes(links[1..], user, roles);
      assert forall m :: m in links[1..] ==> m in links;
      (if l.owner == user && TruthyOpt(code) then [code.value] else []) + rest
  }

  /** The token payload `{userId, username, roles}`. */
  function Claims(u: User, codes: seq<Json>): Json {
    JObj([("userId", Int(u.id)), ("username", JStr(u.username)), ("roles", JArr(codes))])
  }

  /**
   * `login({username, password})`; `matches(password, hash)` is
   * `bcrypt.compare` and `sign(claims)` is `jwt.sign` with the configured
   * secret and lifetime.
   */
  function LoginReply(users: seq<User>, links: seq<Link>, roles: map<int, Json>, username: string, password: string,
                      matches: (string, string) -> bool, sign: Json -> string): (r: Api)
    ensures ByUsername(users, username).None? ==> r == Api(401, "用户名或密码错误", None)
    ensures ByUsername(users, username).Some? && ByUsername(users, username).value.status == Inactive ==>
      r == Api(403, "账户已被禁用", None)
    ensures r.code == 200 <==>
      ByUsername(users, username).Some? && ByUsername(users, username).value.status != Inactive &&
      matches(password, ByUsername(users, username).value.passwordHash)
    ensures r.code != 200 ==> r.data.None? && (r.code == 401 || r.code == 403)
    ensures r.code == 200 ==>
      var u := ByUsername(users, username).value;
      var codes := RoleCodes(links, u.id, roles);
      r.data == Some(JObj([("token", JStr(sign(Claims(u, codes)))), ("user", Public(u)), ("roles", JArr(codes))]))
  {
    var found := ByUsername(users, username);
    if found.None? then Api(401, "用户名或密码错误", None)
    else if found.value.status == Inactive then Api(403, "账户已被禁用", None)
    else if !matches(password, found.value.passwordHash) then Api(401, "用户名或密码错误", None)
    else
      var codes := RoleCodes(links, found.value.id, roles);
      Api(200, "登录成功", Some(JObj([("token", JStr(sign(Claims(found.value, codes)))), ("user", Public(found.value)),
        ("roles", JArr(codes))])))
  }

  /** An unknown user and a wrong password get the same answer, so the response does not reveal which. */
  lemma LoginDoesNotRevealUsernames(users: seq<User>, links: seq<Link>, roles: map<int, Json>, username: string,
                                    password: string, matches: (string, string) -> bool, sign: Json -> string)
    requires ByUsername(users, username).Some? && ByUsername(users, username).value.status != Inactive
    requires !matches(password, ByUsername(users, username).value.passwordHash)
    ensures LoginReply(users, links, roles, username, password, matches, sign) ==
      LoginReply([], links, roles, username, password, matches, sign)
  {
  }

  /** A disabled account is refused before its password is looked at. */
  lemma DisabledBeforePassword(users: seq<User>, links: seq<Link>, roles: map<int, Json>, username: string,
                               password: string, sign: Json -> string)
    requires ByUsername(users, username).Some? && ByUsername(users, username).value.status == Inactive
    ensures LoginReply(users, links, roles, username, password, (p, h) => true, sign).code == 403
    ensures LoginReply(users, links, roles, username, password, (p, h) => false, sign).code == 403
  {
  }

  // ------------------------------------------------------------ roles

  /** The link table after `assignRoles(userId, roleIds)`. */
  function AssignedLinks(users: seq<User>, links: seq<Link>, user: int, roleIds: seq<int>, fault: Fault): seq<Link> {
    if fault.BeforeWrite? || ById(users, user).None? then links else Replaced(links, user, roleIds, fault)
  }

  /** `assignRoles(userId, roleIds)`'s answer. */
  function AssignReply(users: seq<User>, user: int, roleIds: seq<int>, fault: Fault): (r: Api)
    ensures fault.BeforeWrite? ==> r == HandleError(fault.e, "角色分配失败")
    ensures !fault.BeforeWrite? && ById(users, user).None? ==> r == Api(404, "用户不存在", None)
    ensures r.code == 200 <==> !fault.BeforeWrite? && ById(users, user).Some? && !(fault.AtInsert? && |roleIds| > 0)
    ensures r.code == 200 ==> r == Api(200, "角色分配成功", Some(JBool(true)))
  {
    if fault.BeforeWrite? then HandleError(fault.e, "角色分配失败")
    else if ById(users, user).None? then Api(404, "用户不存在", None)
    else if fault.AtInsert? && |roleIds| > 0 then HandleError(fault.e, "角色分配失败")
    else Api(200, "角色分配成功", Some(JBool(true)))
  }

  /** After a successful assignment the user's roles are exactly `roleIds`, and other users' links are untouched. */
  lemma AssignReplacesRoles(users: seq<User>, links: seq<Link>, user: int, roleIds: seq<int>, fault: Fault)
    requires AssignReply(users, user, roleIds, fault).code == 200
    ensures TargetsOf(AssignedLinks(users, links, user, roleIds, fault), user) == roleIds
    ensures forall l: Link :: l.owner != user ==> (l in AssignedLinks(users, links, user, roleIds, fault) <==> l in links)
  {
    ReplacedTargets(links, user, roleIds);
    assert Replaced(links, user, roleIds, fault) == Replaced(links, user, roleIds, NoFault);
  }

  /** A failed insert after the delete leaves the user with no roles: the replace is not atomic. */
  lemma FailedInsertDropsRoles(users: seq<User>, links: seq<Link>, user: int, roleIds: seq<int>, e: DbError)
    requires ById(users, user).Some? && |roleIds| > 0
    ensures TargetsOf(AssignedLinks(users, links, user, roleIds, AtInsert(e)), user) == []
    ensures AssignReply(users, user, roleIds, AtInsert(e)).code != 200
  {
    FailedInsertEmpties(links, user, roleIds, e);
  }

  /** `getUserRoles(userId)`: the role rows linked to the user (`Roles || []`). */
  function UserRolesReply(users: seq<User>, links: seq<Link>, roles: map<int, Json>, user: int): (r: Api)
    ensures r.code == 404 <==> ById(users, user).None?
    ensures r.code == 200 ==> r.data == Some(JArr(LinkedRoles(TargetsOf(links, user), roles)))
  {
    if ById(users, user).None? then Api(404, "用户不存在", None)
    else Api(200, "获取用户角色成功", Some(JArr(LinkedRoles(TargetsOf(links, user), roles))))
  }

  /** The role rows for the given ids; a link to a missing role contributes nothing. */
  function LinkedRoles(ids: seq<int>, roles: map<int, Json>): (rs: seq<Json>)
    ensures |rs| <= |ids|
  {
    if ids == [] then []
    else (if ids[0] in roles then [roles[ids[0]]] else []) + LinkedRoles(ids[1..], roles)
  }

  /** `findByStudentId(studentId)`. */
  function StudentReply(users: seq<User>, sid: string): (r: Api)
    ensures r.code == 404 <==> ByStudentId(users, sid).None?
    ensures r.code == 200 ==> r.data == Some(Public(ByStudentId(users, sid).value))
  {
    var found := ByStudentId(users, sid);
    if found.None? then Api(404, "用户不存在", None) else Api(200, "查询成功", Some(Public(found.value)))
  }

  // ------------------------------------------------------------ bulkCreate

  /** The rows a bulk insert stores, with consecutive ids from `firstId`. */
  function Rows(firstId: int, inputs: seq<UserInput>, hash: string -> string): (rows: seq<User>)
    ensures |rows| == |inputs|
    ensures forall i :: 0 <= i < |rows| ==> rows[i] == Row(firstId + i, inputs[i], hash)
    decreases |inputs|
  {
    if inputs == [] then [] else [Row(firstId, inputs[0], hash)] + Rows(firstId + 1, inputs[1..], hash)
  }

  /** `users.map(user => ({id, username, ...}))`. */
  function PublicAll(rows: seq<User>): (js: seq<Json>)
    ensures |js| == |rows|
  {
    if rows == [] then [] else [Public(rows[0])] + PublicAll(rows[1..])
  }

  lemma {:induction false} PublicAllAt(rows: seq<User>, i: int)
    requires 0 <= i < |rows|
    ensures PublicAll(rows)[i] == Public(rows[i])
  {
    if i > 0 {
      PublicAllAt(rows[1..], i - 1);
    }
  }

  /** `bulkCreate(usersData)`: one insert statement, refused whole when a unique column would repeat. */
  function BulkReply(users: seq<User>, nextId: int, inputs: seq<UserInput>, hash: string -> string, fault: Option<DbError>): (r: Api)
    ensures fault.Some? ==> r == HandleError(fault.value, "批量创建用户失败")
    ensures fault.None? && !Unique(users + Rows(nextId, inputs, hash)) ==> r == Api(409, "数据已存在", None)
    ensures r.code == 201 <==> fault.None? && Unique(users + Rows(nextId, inputs, hash))
    ensures r.code == 201 ==> r.data == Some(JArr(PublicAll(Rows(nextId, inputs, hash))))
  {
    var rows := Rows(nextId, inputs, hash);
    if fault.Some? then HandleError(fault.value, "批量创建用户失败")
    else if !Unique(users + rows) then HandleError(DbError(UniqueConstraint, []), "批量创建用户失败")
    else Api(201, "批量创建用户成功", Some(JArr(PublicAll(rows))))
  }

  /** Each created user is reported once, in order, with its status defaulted to Active. */
  lemma BulkEntries(users: seq<User>, nextId: int, inputs: seq<UserInput>, hash: string -> string, i: int)
    requires BulkReply(users, nextId, inputs, hash, None).code == 201 && 0 <= i < |inputs|
    ensures var items := BulkReply(users, nextId, inputs, hash, None).data.value.items;
      |items| == |inputs| && items[i] == Public(Row(nextId + i, inputs[i], hash)) &&
      Row(nextId + i, inputs[i], hash).status != 0
  {
    PublicAllAt(Rows(nextId, inputs, hash), i);
  }

  // ------------------------------------------------------------ the service

  /** The service over its tables: users, user–role links and roles. */
  class UserStore {
    var users: seq<User>
    var nextId: int
    var links: seq<Link>
    var roles: map<int, Json>

    /** The unique columns hold and every id was assigned before `nextId`. */
    predicate Valid()
      reads this
    {
      Unique(users) && forall i :: 0 <= i < |users| ==> users[i].id < nextId
    }

    constructor (roles: map<int, Json>)
      ensures Valid() && users == [] && links == [] && this.roles == roles && nextId == 1
    {
      users := [];
      nextId := 1;
      links := [];
      this.roles := roles;
    }

    /** `register(userData)`: a new row only when both duplicate checks pass. */
    method Register(input: UserInput, hash: string -> string, fault: Option<DbError>) returns (r: Api)
      requires Valid()
      modifies this
      ensures Valid() && links == old(links) && roles == old(roles)
      ensures fault.Some? ==> r == HandleError(fault.value, "用户注册失败") && users == old(users)
      ensures fault.None? ==> r == RegisterReply(old(users), old(nextId), input, hash)
      ensures fault.None? && r.code == 201 ==> users == old(users) + [Row(old(nextId), input, hash)] && nextId == old(nextId) + 1
      ensures r.code != 201 ==> users == old(users) && nextId == old(nextId)
    {
      if fault.Some? {
        return HandleError(fault.value, "用户注册失败");
      }
      r := RegisterReply(users, nextId, input, hash);
      if r.code == 201 {
        RegisterKeepsUnique(users, nextId, input, hash);
        users := users + [Row(nextId, input, hash)];
        nextId := nextId + 1;
      }
    }

    /** `login(loginData)`: reads the tables only. */
    method Login(username: string, password: string, matches: (string, string) -> bool, sign: Json -> string,
                 fault: Option<DbError>) returns (r: Api)
      ensures r == if fault.Some? then HandleError(fault.value, "登录失败")
        else LoginReply(users, links, roles, username, password, matches, sign)
    {
      if fault.Some? {
        return HandleError(fault.value, "登录失败");
      }
      r := LoginReply(users, links, roles, username, password, matches, sign);
    }

    /** `assignRoles(userId, roleIds)`: delete the user's links, then insert the new ones. */
    method AssignRoles(user: int, roleIds: seq<int>, fault: Fault) returns (r: Api)
      modifies this
      ensures users == old(users) && nextId == old(nextId) && roles == old(roles)
      ensures r == AssignReply(old(users), user, roleIds, fault)
      ensures links == AssignedLinks(old(users), old(links), user, roleIds, fault)
    {
      r := AssignReply(users, user, roleIds, fault);
      if fault.BeforeWrite? || ById(users, user).None? {
        return;
      }
      links := Unlinked(links, user);
      if |roleIds| > 0 && !fault.AtInsert? {
        links := links + LinksFor(user, roleIds);
      }
      assert links == Replaced(old(links), user, roleIds, fault);
    }

    /** `bulkCreate(usersData)`. */
    method BulkCreate(inputs: seq<UserInput>, hash: string -> string, fault: Option<DbError>) returns (r: Api)
      requires Valid()
      modifies this
      ensures Valid() && links == old(links) && roles == old(roles)
      ensures r == BulkReply(old(users), old(nextId), inputs, hash, fault)
      ensures r.code == 201 ==> users == old(users) + Rows(old(nextId), inputs, hash) && nextId == old(nextId) + |inputs|
      ensures r.code != 201 ==> users == old(users) && nextId == old(nextId)
    {
      r := BulkReply(users, nextId, inputs, hash, fault);
      if r.code == 201 {
        var rows := Rows(nextId, inputs, hash);
        users := users + rows;
        nextId := nextId + |inputs|;
      }
    }
  }
}
