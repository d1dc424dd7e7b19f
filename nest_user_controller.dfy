/**
 * The integrated backend's user controller,
 * apps/backend-integrated/src/modules/user/user.controller.ts. Its handlers
 * return the service's `{code, message, data}` envelope, or one of their
 * own when a guard refuses the request; the id and pagination pipes have
 * already turned path and query parameters into integers.
 *
 * Service calls are parameters. A handler that reads a property of an
 * absent value throws (`Raises`), which the exception filter answers.
 */
module NestUserController {
  import opened Js
  import Koa
  import opened BaseService
  import BaseController
  import UserController

  /** A handler's result: an envelope, or an exception. */
  datatype Result = Gave(api: Api) | Raises

  /** `login`: refused with 500 when no user service was injected. */
  function Login(serviceInjected: bool, body: Json, service: Json -> Api): (a: Api)
    ensures !serviceInjected ==> a == Api(500, "UserService not initialized", None)
    ensures serviceInjected ==> a == service(body)
  {
    if !serviceInjected then Api(500, "UserService not initialized", None) else service(body)
  }

  /** `getCurrentUser`: the guard's `req.user` must carry a truthy `userId`. */
  function GetCurrentUser(user: Option<Json>, service: Json -> Api): (a: Api)
    ensures !TruthyOpt(OptField(user, "userId")) ==> a == Api(401, "未登录或登录已过期", None)
    ensures TruthyOpt(OptField(user, "userId")) ==> a == service(OptField(user, "userId").value)
  {
    var userId := OptField(user, "userId");
    if !TruthyOpt(userId) then Api(401, "未登录或登录已过期", None) else service(userId.value)
  }

  /** Both backends refuse the same users, with the same 401 and message. */
  lemma CurrentUserRefusalAgrees(user: Option<Json>, service: Json -> Api, koaService: Json -> BaseController.Outcome)
    ensures var a := GetCurrentUser(user, service);
      var r := UserController.GetCurrentUser(user, koaService);
      !TruthyOpt(OptField(user, "userId")) ==>
        a.code == r.status == 401 && Field(r.body, "message") == Some(JStr(a.message))
  {
  }

  /** `getUserByStudentId`: an empty student id is refused. */
  function GetUserByStudentId(studentId: string, service: string -> Api): (a: Api)
    ensures studentId == "" ==> a == Api(400, "学号不能为空", None)
    ensures studentId != "" ==> a == service(studentId)
  {
    if studentId == "" then Api(400, "学号不能为空", None) else service(studentId)
  }

  // ------------------------------------------------------------ getUsers

  /**
   * The `where` object of `getUsers`: major when truthy, enrollment year and
   * status whenever defined, both through `Number` (`toNumber`).
   */
  function NestUsersWhere(query: map<string, Json>, toNumber: Json -> Num): (w: UserController.UserFilter)
    ensures w.major == if TruthyOpt(Koa.Prop(query, "major")) then Koa.Prop(query, "major") else None
    ensures w.enrollmentYear ==
      if Koa.Prop(query, "enrollmentYear").Some? then Some(JNum(toNumber(Koa.Prop(query, "enrollmentYear").value))) else None
    ensures w.status ==
      if Koa.Prop(query, "status").Some? then Some(JNum(toNumber(Koa.Prop(query, "status").value))) else None
  {
    var major := Koa.Prop(query, "major");
    var year := Koa.Prop(query, "enrollmentYear");
    var status := Koa.Prop(query, "status");
    UserController.UserFilter(if TruthyOpt(major) then major else None,
      if year.Some? then Some(JNum(toNumber(year.value))) else None,
      if status.Some? then Some(JNum(toNumber(status.value))) else None)
  }

  /** `const where = {}` followed by the conditional assignments. */
  method BuildNestUsersWhere(query: map<string, Json>, toNumber: Json -> Num) returns (w: UserController.UserFilter)
    ensures w == NestUsersWhere(query, toNumber)
  {
    w := UserController.UserFilter(None, None, None);
    var major := Koa.Prop(query, "major");
    var year := Koa.Prop(query, "enrollmentYear");
    var status := Koa.Prop(query, "status");
    if TruthyOpt(major) {
      w := w.(major := major);
    }
    if year.Some? {
      w := w.(enrollmentYear := Some(JNum(toNumber(year.value))));
    }
    if status.Some? {
      w := w.(status := Some(JNum(toNumber(status.value))));
    }
  }

  /** `getUsers`: the pipe's page and size, and the filter. */
  function GetUsers(page: int, size: int, query: map<string, Json>, toNumber: Json -> Num,
                    service: (int, int, UserController.UserFilter) -> Api): (a: Api)
    ensures a == service(page, size, NestUsersWhere(query, toNumber))
  {
    service(page, size, NestUsersWhere(query, toNumber))
  }

  /**
   * The two backends filter differently: an empty `enrollmentYear=` is
   * dropped by the Koa handler (a truthiness test) and kept here as
   * `Number('')`, which is 0 (a presence test).
   */
  lemma EmptyYearKeptHere(toNumber: Json -> Num)
    requires toNumber(JStr("")) == Fin(0.0)
    ensures NestUsersWhere(map["enrollmentYear" := JStr("")], toNumber).enrollmentYear == Some(Int(0))
    ensures UserController.UsersWhere(map["enrollmentYear" := JStr("")]).enrollmentYear == None
  {
    var q := map["enrollmentYear" := JStr("")];
    assert Koa.Prop(q, "enrollmentYear") == Some(JStr(""));
  }

  // ------------------------------------------------------------ bulkCreateUsers

  /**
   * `bulkCreateUsers`: a non-empty array of at most 100 users, then the
   * first user missing a field is reported; a null user throws. The loop is
   * the one `UserController.CheckUsers` runs.
   */
  function BulkCreateUsers(body: Option<Json>, service: seq<Json> -> Api): (r: Result)
    ensures !UserController.NonEmptyArray(body) ==> r == Gave(Api(400, "用户数据必须是数组且不能为空", None))
    ensures UserController.NonEmptyArray(body) && |body.value.items| > 100 ==> r == Gave(Api(400, "一次最多创建100个用户", None))
    ensures UserController.NonEmptyArray(body) && |body.value.items| <= 100 ==>
      var s := UserController.ScanFrom(UserController.UserFields, body.value.items, 0);
      (s.NullUser? ==> r == Raises) &&
      (s.Incomplete? ==> r == Gave(Api(400, "第" + NatText(s.index + 1) + "个用户缺少必填字段: " + Join(s.missing, ", "), None))) &&
      (s.AllComplete? ==> r == Gave(service(body.value.items)))
  {
    if !UserController.NonEmptyArray(body) then Gave(Api(400, "用户数据必须是数组且不能为空", None))
    else if |body.value.items| > 100 then Gave(Api(400, "一次最多创建100个用户", None))
    else
      match UserController.ScanFrom(UserController.UserFields, body.value.items, 0)
      case NullUser(_) => Raises
      case Incomplete(i, m) => Gave(Api(400, "第" + NatText(i + 1) + "个用户缺少必填字段: " + Join(m, ", "), None))
      case AllComplete => Gave(service(body.value.items))
  }

  /** The batches the handler itself refuses: not a non-empty array, over 100 users, or a user missing a field. */
  predicate BulkRefused(body: Option<Json>) {
    !UserController.NonEmptyArray(body) || |body.value.items| > 100 ||
    UserController.ScanFrom(UserController.UserFields, body.value.items, 0).Incomplete?
  }

  /** Both backends refuse the same batches with the same code and message. */
  lemma BulkRefusalsAgree(body: Option<Json>, service: seq<Json> -> Api, call: seq<Json> -> BaseController.Outcome)
    requires BulkRefused(body)
    ensures BulkCreateUsers(body, service).Gave?
    ensures BulkCreateUsers(body, service).api == Api(400, BulkCreateUsers(body, service).api.message, None)
    ensures UserController.BulkCreateUsers(body, call)
      == BaseController.Respond(400, BulkCreateUsers(body, service).api.message, None)
  {
  }

  // ------------------------------------------------------------ assignRoles

  /** `assignRoles`: `roleIds` must be an array of at most 10 (an empty one is accepted). */
  function AssignRoles(id: int, body: Option<Json>, service: (int, seq<Json>) -> Api): (r: Result)
    ensures Nullish(body) ==> r == Raises
    ensures !Nullish(body) ==>
      var roleIds := Field(body.value, "roleIds");
      (!(roleIds.Some? && roleIds.value.JArr?) ==> r == Gave(Api(400, "角色ID必须是数组", None))) &&
      (roleIds.Some? && roleIds.value.JArr? && |roleIds.value.items| > 10 ==> r == Gave(Api(400, "用户最多分配10个角色", None))) &&
      (roleIds.Some? && roleIds.value.JArr? && |roleIds.value.items| <= 10 ==> r == Gave(service(id, roleIds.value.items)))
  {
    if Nullish(body) then Raises
    else
      var roleIds := Field(body.value, "roleIds");
      if !(roleIds.Some? && roleIds.value.JArr?) then Gave(Api(400, "角色ID必须是数组", None))
      else if |roleIds.value.items| > 10 then Gave(Api(400, "用户最多分配10个角色", None))
      else Gave(service(id, roleIds.value.items))
  }

  /** `Array.isArray(roleIds) && roleIds.length <= 10`. */
  predicate RolesAccepted(body: Json) {
    var roleIds := Field(body, "roleIds");
    roleIds.Some? && roleIds.value.JArr? && |roleIds.value.items| <= 10
  }

  /** Both backends hand the service exactly the same role lists, and refuse the others with the same message. */
  lemma RoleListsAgree(id: int, koaId: Option<Json>, body: Json, service: (int, seq<Json>) -> Api, call: (int, seq<Json>) -> BaseController.Outcome)
    requires ParseIntValue(koaId) == Some(id) && !body.JNull?
    ensures RolesAccepted(body) ==>
      AssignRoles(id, Some(body), service) == Gave(service(id, Field(body, "roleIds").value.items)) &&
      UserController.AssignRoles(koaId, Some(body), call)
        == BaseController.Finish(call(id, Field(body, "roleIds").value.items), "分配角色失败")
    ensures !RolesAccepted(body) ==>
      AssignRoles(id, Some(body), service).Gave? && AssignRoles(id, Some(body), service).api.code == 400 &&
      UserController.AssignRoles(koaId, Some(body), call)
        == BaseController.Respond(400, AssignRoles(id, Some(body), service).api.message, None)
  {
  }
}
