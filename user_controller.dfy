/**
 * The backend's user controller, apps/backend/src/controllers/UserController.ts:
 * the request checks each handler makes before it calls the user service,
 * and the response it writes.
 *
 * A handler is a function from what it reads off the request to the
 * response it writes with `BaseController.Send`. The service call is a
 * parameter: it is given exactly the arguments the handler passes, and it
 * either returns an envelope or throws (`BaseController.Outcome`).
 */
module UserController {
  import opened Js
  import Koa
  import opened BaseService
  import opened BaseController

  /** The fields `register` and `bulkCreateUsers` require of a user. */
  const UserFields: seq<string> := ["username", "password", "realName", "studentId", "enrollmentYear", "major"]

  /** The fields `updateUser` may change. */
  const Updatable: seq<string> := ["realName", "email", "phone", "major", "status"]

  /** `register`: the six fields must be truthy before the service is called. */
  function Register(body: Option<Json>, service: Json -> Outcome): (r: Reply)
    ensures Nullish(body) ==> r == ServerError("用户注册失败", None)
    ensures !Nullish(body) && RequiredCheck(UserFields, body.value).Some? ==> r == RequiredCheck(UserFields, body.value).value
    ensures !Nullish(body) && RequiredCheck(UserFields, body.value).None? ==> r == Finish(service(body.value), "用户注册失败")
  {
    var check := RequiredIn(UserFields, body, "用户注册失败");
    if check.Some? then check.value else Finish(service(body.value), "用户注册失败")
  }

  /** A registration with any of the six fields zero, empty or absent gets a 400 without reaching the service. */
  lemma RegisterNeedsEveryField(body: Json, field: string, service: Json -> Outcome)
    requires !body.JNull? && field in UserFields && !TruthyOpt(Field(body, field))
    ensures Register(Some(body), service).status == 400
    ensures field in Missing(UserFields, body)
  {
    MissingRefused(UserFields, body, field);
  }

  /** `login`: username and password must be truthy. */
  function Login(body: Option<Json>, service: Json -> Outcome): (r: Reply)
    ensures Nullish(body) ==> r == ServerError("用户登录失败", None)
    ensures !Nullish(body) && RequiredCheck(["username", "password"], body.value).Some? ==>
      r == RequiredCheck(["username", "password"], body.value).value
    ensures !Nullish(body) && RequiredCheck(["username", "password"], body.value).None? ==>
      r == Finish(service(body.value), "用户登录失败")
  {
    var check := RequiredIn(["username", "password"], body, "用户登录失败");
    if check.Some? then check.value else Finish(service(body.value), "用户登录失败")
  }

  /** `getCurrentUser`: `ctx.state.user?.userId` must be truthy, else 401. */
  function GetCurrentUser(user: Option<Json>, service: Json -> Outcome): (r: Reply)
    ensures !TruthyOpt(OptField(user, "userId")) ==> r == Unauthorized("未登录或登录已过期")
    ensures TruthyOpt(OptField(user, "userId")) ==> r == Finish(service(OptField(user, "userId").value), "获取用户信息失败")
  {
    var userId := OptField(user, "userId");
    if !TruthyOpt(userId) then Unauthorized("未登录或登录已过期") else Finish(service(userId.value), "获取用户信息失败")
  }

  /** The 400 for a non-numeric `:id`. */
  function BadUserId(): Reply {
    Respond(400, "用户ID必须是数字", None)
  }

  /** `getUserById`. */
  function GetUserById(id: Option<Json>, service: int -> Outcome): (r: Reply)
    ensures ParseIntValue(id).None? ==> r == BadUserId()
    ensures ParseIntValue(id).Some? ==> r == Finish(service(ParseIntValue(id).value), "获取用户信息失败")
  {
    var n := ParseIntValue(id);
    if n.None? then BadUserId() else Finish(service(n.value), "获取用户信息失败")
  }

  /** A `:id` that does not start with digits is refused before the service is asked. */
  lemma LetterIdRefused(service: int -> Outcome)
    ensures GetUserById(Some(JStr("abc")), service) == BadUserId()
  {
    LettersAreNaN();
  }

  /** `getUserByStudentId`: the student id must be truthy. */
  function GetUserByStudentId(studentId: Option<Json>, service: Json -> Outcome): (r: Reply)
    ensures !TruthyOpt(studentId) ==> r == Respond(400, "学号不能为空", None)
    ensures TruthyOpt(studentId) ==> r == Finish(service(studentId.value), "获取用户信息失败")
  {
    if !TruthyOpt(studentId) then Respond(400, "学号不能为空", None) else Finish(service(studentId.value), "获取用户信息失败")
  }

  // ------------------------------------------------------------ updateUser

  /** The keys of an array or a string: '0', '1', ... */
  function Indices(n: nat): (ks: seq<string>)
    ensures |ks| == n
  {
    if n == 0 then [] else Indices(n - 1) + [NatText(n - 1)]
  }

  /** `Object.keys(v)`; None where it throws (undefined or null). */
  function ObjectKeys(v: Option<Json>): (ks: Option<seq<string>>)
    ensures ks.None? <==> Nullish(v)
    ensures v.Some? && v.value.JObj? ==> ks == Some(Keys(v.value.members))
  {
    if Nullish(v) then None
    else match v.value
      case JObj(ms) => Some(Keys(ms))
      case JArr(items) => Some(Indices(|items|))
      case JStr(s) => Some(Indices(|s|))
      case _ => Some([])
  }

  /** `updateFields.filter(field => !allowedFields.includes(field))`, in key order. */
  function Disallowed(keys: seq<string>): (bad: seq<string>)
    ensures |bad| <= |keys|
    ensures forall k :: k in bad <==> k in keys && k !in Updatable
  {
    if keys == [] then [] else (if keys[0] in Updatable then [] else [keys[0]]) + Disallowed(keys[1..])
  }

  /** Keeping the disallowed keys keeps their order: a filter of a concatenation is the concatenation of the filters. */
  lemma {:induction false} DisallowedAppend(a: seq<string>, b: seq<string>)
    ensures Disallowed(a + b) == Disallowed(a) + Disallowed(b)
  {
    if a == [] {
      assert a + b == b;
    } else {
      assert (a + b)[0] == a[0] && (a + b)[1..] == a[1..] + b;
      DisallowedAppend(a[1..], b);
    }
  }

  /** Keys that are all updatable leave nothing to refuse. */
  lemma {:induction false} NothingDisallowed(keys: seq<string>)
    requires forall i :: 0 <= i < |keys| ==> keys[i] in Updatable
    ensures Disallowed(keys) == []
  {
    if keys != [] {
      NothingDisallowed(keys[1..]);
    }
  }

  /** `updateUser`: a numeric id, then nothing outside the five updatable fields. */
  function UpdateUser(id: Option<Json>, body: Option<Json>, service: (int, Json) -> Outcome): (r: Reply)
    ensures ParseIntValue(id).None? ==> r == BadUserId()
    ensures ParseIntValue(id).Some? && Nullish(body) ==> r == ServerError("更新用户信息失败", None)
    ensures ParseIntValue(id).Some? && !Nullish(body) ==>
      var bad := Disallowed(ObjectKeys(body).value);
      (|bad| > 0 ==> r == Respond(400, "不允许更新的字段: " + Join(bad, ", "), None)) &&
      (bad == [] ==> r == Finish(service(ParseIntValue(id).value, body.value), "更新用户信息失败"))
  {
    var n := ParseIntValue(id);
    if n.None? then BadUserId()
    else
      var keys := ObjectKeys(body);
      if keys.None? then ServerError("更新用户信息失败", None)
      else
        var bad := Disallowed(keys.value);
        if |bad| > 0 then Respond(400, "不允许更新的字段: " + Join(bad, ", "), None)
        else Finish(service(n.value, body.value), "更新用户信息失败")
  }

  /** An update naming only allowed fields reaches the service with the body unchanged. */
  lemma AllowedUpdatePasses(userId: Option<Json>, id: int, ms: seq<(string, Json)>, service: (int, Json) -> Outcome)
    requires ParseIntValue(userId) == Some(id)
    requires forall i :: 0 <= i < |ms| ==> ms[i].0 in Updatable
    ensures UpdateUser(userId, Some(JObj(ms)), service) == Finish(service(id, JObj(ms)), "更新用户信息失败")
  {
    NothingDisallowed(Keys(ms));
  }

  // ------------------------------------------------------------ getUsers

  /** `parseInt(x)` as the number stored in the filter: NaN when nothing parses. */
  function ParsedNumber(p: Option<int>): (j: Json)
    ensures p.Some? ==> j == Int(p.value)
    ensures p.None? ==> j == JNum(NaN)
  {
    if p.Some? then Int(p.value) else JNum(NaN)
  }

  /** The `where` object `getUsers` builds; an absent property is None. */
  datatype UserFilter = UserFilter(major: Option<Json>, enrollmentYear: Option<Json>, status: Option<Json>)

  /** Major and enrollment year when truthy, status whenever present; the numbers through `parseInt`. */
  function UsersWhere(query: map<string, Json>): (w: UserFilter)
    ensures w.major == if TruthyOpt(Koa.Prop(query, "major")) then Koa.Prop(query, "major") else None
    ensures w.enrollmentYear ==
      if TruthyOpt(Koa.Prop(query, "enrollmentYear")) then Some(ParsedNumber(ParseIntValue(Koa.Prop(query, "enrollmentYear")))) else None
    ensures w.status ==
      if Koa.Prop(query, "status").Some? then Some(ParsedNumber(ParseIntValue(Koa.Prop(query, "status")))) else None
  {
    var major := Koa.Prop(query, "major");
    var year := Koa.Prop(query, "enrollmentYear");
    var status := Koa.Prop(query, "status");
    UserFilter(if TruthyOpt(major) then major else None,
      if TruthyOpt(year) then Some(ParsedNumber(ParseIntValue(year))) else None,
      if status.Some? then Some(ParsedNumber(ParseIntValue(status))) else None)
  }

  /** `const where = {}` followed by the conditional assignments. */
  method BuildUsersWhere(query: map<string, Json>) returns (w: UserFilter)
    ensures w == UsersWhere(query)
  {
    w := UserFilter(None, None, None);
    var major := Koa.Prop(query, "major");
    var year := Koa.Prop(query, "enrollmentYear");
    var status := Koa.Prop(query, "status");
    if TruthyOpt(major) {
      w := w.(major := major);
    }
    if TruthyOpt(year) {
      w := w.(enrollmentYear := Some(ParsedNumber(ParseIntValue(year))));
    }
    if status.Some? {
      w := w.(status := Some(ParsedNumber(ParseIntValue(status))));
    }
  }

  /**
   * `getUsers`: the pagination check's 400 is overwritten by the handler's
   * catch, so a bad page or size answers 500.
   */
  function GetUsers(query: map<string, Json>, service: (int, int, UserFilter) -> Outcome): (r: Reply)
    ensures Pagination(query).BadPaging? ==> r == ServerError("获取用户列表失败", None)
    ensures Pagination(query).Paged? ==>
      r == Finish(service(Pagination(query).page, Pagination(query).size, UsersWhere(query)), "获取用户列表失败")
  {
    var p := Pagination(query);
    if p.BadPaging? then ServerError("获取用户列表失败", None)
    else Finish(service(p.page, p.size, UsersWhere(query)), "获取用户列表失败")
  }

  /** An empty `status=` is kept in the filter as NaN (it is only tested for presence) while an empty `enrollmentYear=` is dropped (it is tested for truthiness). */
  lemma EmptyFilters()
    ensures UsersWhere(map["status" := JStr(""), "enrollmentYear" := JStr("")]).status == Some(JNum(NaN))
    ensures UsersWhere(map["status" := JStr(""), "enrollmentYear" := JStr("")]).enrollmentYear == None
  {
    var q := map["status" := JStr(""), "enrollmentYear" := JStr("")];
    assert Koa.Prop(q, "status") == Some(JStr("")) && Koa.Prop(q, "enrollmentYear") == Some(JStr(""));
    assert ToJsStringOpt(Some(JStr(""))) == "";
    assert TrimStart("") == "";
    assert DigitRun("", 10) == 0;
  }

  // ------------------------------------------------------------ bulkCreateUsers

  /** The outcome of checking the users one by one. */
  datatype Scan = AllComplete | Incomplete(index: nat, missing: seq<string>) | NullUser(index: nat)

  /** A user the loop accepts: not null, and no required field missing. */
  predicate Complete(required: seq<string>, u: Json) {
    !u.JNull? && Missing(required, u) == []
  }

  /** The first user from `i` on that is null (reading its fields throws) or misses one of `required`. */
  function ScanFrom(required: seq<string>, users: seq<Json>, i: nat): (s: Scan)
    requires i <= |users|
    decreases |users| - i
    ensures s.AllComplete? <==> forall j :: i <= j < |users| ==> Complete(required, users[j])
    ensures s.Incomplete? ==>
      i <= s.index < |users| && !users[s.index].JNull? && s.missing == Missing(required, users[s.index]) && s.missing != []
    ensures s.NullUser? ==> i <= s.index < |users| && users[s.index].JNull?
    ensures !s.AllComplete? ==> forall j :: i <= j < s.index ==> Complete(required, users[j])
  {
    if i == |users| then AllComplete
    else if users[i].JNull? then NullUser(i)
    else if Missing(required, users[i]) != [] then Incomplete(i, Missing(required, users[i]))
    else ScanFrom(required, users, i + 1)
  }

  /** The `for` loop of `bulkCreateUsers`: stops at the first user it cannot accept. */
  method CheckUsers(users: seq<Json>) returns (s: Scan)
    ensures s == ScanFrom(UserFields, users, 0)
  {
    var i := 0;
    while i < |users|
      invariant 0 <= i <= |users|
      invariant ScanFrom(UserFields, users, i) == ScanFrom(UserFields, users, 0)
    {
      if users[i].JNull? {
        return NullUser(i);
      }
      var missing := Missing(UserFields, users[i]);
      if |missing| > 0 {
        return Incomplete(i, missing);
      }
      i := i + 1;
    }
    return AllComplete;
  }

  /** The 400 naming the first incomplete user, counting from 1. */
  function IncompleteReply(i: nat, missing: seq<string>): Reply {
    Respond(400, "第" + NatText(i + 1) + "个用户缺少必填字段: " + Join(missing, ", "), None)
  }

  /** The reply once the batch size is accepted: the first user the loop stops at, or the service's answer. */
  function ScanReply(s: Scan, call: Outcome): Reply {
    match s
    case Incomplete(i, m) => IncompleteReply(i, m)
    case NullUser(_) => ServerError("批量创建用户失败", None)
    case AllComplete => Finish(call, "批量创建用户失败")
  }

  /** `Array.isArray(usersData) && usersData.length > 0`. */
  predicate NonEmptyArray(body: Option<Json>) {
    body.Some? && body.value.JArr? && |body.value.items| > 0
  }

  /** `bulkCreateUsers`: a non-empty array of at most 100 users, each with the six fields. */
  function BulkCreateUsers(body: Option<Json>, service: seq<Json> -> Outcome): (r: Reply)
    ensures !NonEmptyArray(body) ==> r == Respond(400, "用户数据必须是数组且不能为空", None)
    ensures NonEmptyArray(body) && |body.value.items| > 100 ==> r == Respond(400, "一次最多创建100个用户", None)
    ensures NonEmptyArray(body) && |body.value.items| <= 100 ==>
      r == ScanReply(ScanFrom(UserFields, body.value.items, 0), service(body.value.items))
  {
    if !NonEmptyArray(body) then Respond(400, "用户数据必须是数组且不能为空", None)
    else if |body.value.items| > 100 then Respond(400, "一次最多创建100个用户", None)
    else ScanReply(ScanFrom(UserFields, body.value.items, 0), service(body.value.items))
  }

  /** A batch of 1 to 100 users, none null and each with all six fields truthy, reaches the service unchanged. */
  lemma BulkReachesService(users: seq<Json>, service: seq<Json> -> Outcome)
    requires 0 < |users| <= 100
    requires forall j :: 0 <= j < |users| ==> !users[j].JNull? && forall p :: p in UserFields ==> TruthyOpt(Field(users[j], p))
    ensures BulkCreateUsers(Some(JArr(users)), service) == Finish(service(users), "批量创建用户失败")
  {
    forall j | 0 <= j < |users|
      ensures Complete(UserFields, users[j])
    {
      NoneMissing(UserFields, users[j]);
    }
  }

  /** A user with a required field falsy stops the batch before the service is called: a 400, or a 500 for a null user before it. */
  lemma BulkIncompleteRefused(users: seq<Json>, j: int, p: string, service: seq<Json> -> Outcome)
    requires 0 < |users| <= 100 && 0 <= j < |users| && !users[j].JNull?
    requires p in UserFields && !TruthyOpt(Field(users[j], p))
    ensures BulkCreateUsers(Some(JArr(users)), service).status == 400 || BulkCreateUsers(Some(JArr(users)), service).status == 500
  {
    MissingRefused(UserFields, users[j], p);
    assert !Complete(UserFields, users[j]);
    var s := ScanFrom(UserFields, users, 0);
    assert !s.AllComplete?;
    assert BulkCreateUsers(Some(JArr(users)), service) == ScanReply(s, service(users));
  }

  // ------------------------------------------------------------ assignRoles

  /** `assignRoles`: a numeric id, then `roleIds` an array of at most 10 (an empty one is accepted). */
  function AssignRoles(id: Option<Json>, body: Option<Json>, service: (int, seq<Json>) -> Outcome): (r: Reply)
    ensures ParseIntValue(id).None? ==> r == BadUserId()
    ensures ParseIntValue(id).Some? && Nullish(body) ==> r == ServerError("分配角色失败", None)
    ensures ParseIntValue(id).Some? && !Nullish(body) ==>
      var roleIds := Field(body.value, "roleIds");
      (!(roleIds.Some? && roleIds.value.JArr?) ==> r == Respond(400, "角色ID必须是数组", None)) &&
      (roleIds.Some? && roleIds.value.JArr? && |roleIds.value.items| > 10 ==> r == Respond(400, "用户最多分配10个角色", None)) &&
      (roleIds.Some? && roleIds.value.JArr? && |roleIds.value.items| <= 10 ==>
        r == Finish(service(ParseIntValue(id).value, roleIds.value.items), "分配角色失败"))
  {
    var n := ParseIntValue(id);
    if n.None? then BadUserId()
    else if Nullish(body) then ServerError("分配角色失败", None)
    else
      var roleIds := Field(body.value, "roleIds");
      if !(roleIds.Some? && roleIds.value.JArr?) then Respond(400, "角色ID必须是数组", None)
      else if |roleIds.value.items| > 10 then Respond(400, "用户最多分配10个角色", None)
      else Finish(service(n.value, roleIds.value.items), "分配角色失败")
  }

  /** An empty role list reaches the service. */
  lemma EmptyRolesAccepted(userId: Option<Json>, id: int, service: (int, seq<Json>) -> Outcome)
    requires ParseIntValue(userId) == Some(id)
    ensures AssignRoles(userId, Some(JObj([("roleIds", JArr([]))])), service) == Finish(service(id, []), "分配角色失败")
  {
  }
}
