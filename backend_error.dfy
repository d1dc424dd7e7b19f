/**
 * The backend's error handler and 404 fallback, apps/backend/src/middlewares/error.ts.
 */
module BackendError {
  import opened Js
  import opened Koa

  /** An `errorMappings` entry. */
  datatype Mapping = Mapping(code: int, message: string)

  datatype ErrorOptions = ErrorOptions(showDetailsInDev: bool, logErrors: bool, errorMappings: map<string, Mapping>)

  const DefaultOptions := ErrorOptions(true, true, map[])

  const InternalError := "服务器内部错误"
  const NotFoundMessage := "接口不存在"

  /** The error body as it is built: its code and its members in order. */
  datatype Reply = Reply(code: int, members: seq<(string, Json)>)

  predicate NameIs(e: Json, name: string) { Field(e, "name") == Some(JStr(name)) }

  /** `if (!ctx.status || ctx.status < 400) ctx.status = 500`. */
  function BaseStatus(status: int): (s: int)
    ensures s >= 400
    ensures status >= 400 ==> s == status
  {
    if status == 0 || status < 400 then 500 else status
  }

  /** `[k, v]` when the value is defined: JSON leaves undefined members out. */
  function Member(k: string, o: Option<Json>): seq<(string, Json)> {
    if o.Some? then [(k, o.value)] else []
  }

  function Plain(code: int, message: string): Reply {
    Reply(code, [("code", Int(code)), ("message", JStr(message))])
  }

  /** The built-in name table; `status` is the already defaulted status. */
  function BuiltIn(e: Json, status: int): (r: Reply)
    ensures NameIs(e, "ValidationError") ==> r.code == 400
    ensures NameIs(e, "UnauthorizedError") ==> r.code == 401
    ensures NameIs(e, "ForbiddenError") ==> r.code == 403
    ensures NameIs(e, "NotFoundError") ==> r.code == 404
    ensures NameIs(e, "ConflictError") ==> r.code == 409
    ensures (forall n :: n in {"ValidationError", "UnauthorizedError", "ForbiddenError", "NotFoundError", "ConflictError"} ==> !NameIs(e, n)) ==>
      r == if Field(e, "code") == Some(JStr("ECONNREFUSED")) then Plain(503, "数据库连接失败") else Plain(status, InternalError)
  {
    if NameIs(e, "ValidationError") then
      var errors := if TruthyOpt(Field(e, "errors")) then Field(e, "errors") else Field(e, "message");
      Reply(400, [("code", Int(400)), ("message", JStr("参数验证失败"))] + Member("errors", errors))
    else if NameIs(e, "UnauthorizedError") then Plain(401, "未授权访问")
    else if NameIs(e, "ForbiddenError") then Plain(403, "权限不足")
    else if NameIs(e, "NotFoundError") then Plain(404, "资源不存在")
    else if NameIs(e, "ConflictError") then Plain(409, "资源冲突")
    else if Field(e, "code") == Some(JStr("ECONNREFUSED")) then Plain(503, "数据库连接失败")
    else Plain(status, InternalError)
  }

  /** `errorMappings[error.name]`, looked up under `String(error.name)`. */
  function MappingFor(e: Json, o: ErrorOptions): Option<Mapping> {
    var key := ToJsStringOpt(Field(e, "name"));
    if key in o.errorMappings then Some(o.errorMappings[key]) else None
  }

  /** The reply the catch block builds from the status found on `ctx`. */
  function ErrorReply(status: int, e: Json, o: ErrorOptions, nodeEnv: Option<string>): (r: Reply)
    ensures Field(JObj(r.members), "code") == Some(Int(r.code))
    ensures MappingFor(e, o).Some? ==> r.code == MappingFor(e, o).value.code
    ensures MappingFor(e, o).None? ==> r.code == BuiltIn(e, BaseStatus(status)).code
    ensures Field(JObj(r.members), "stack").Some? || Field(JObj(r.members), "details").Some? ==>
      o.showDetailsInDev && nodeEnv == Some("development")
  {
    var r0 := BuiltIn(e, BaseStatus(status));
    var m := MappingFor(e, o);
    var r := if m.Some? then Plain(m.value.code, m.value.message) else r0;
    var details := o.showDetailsInDev && nodeEnv == Some("development");
    var extra := if details then Member("stack", Field(e, "stack")) + Member("details", Field(e, "message")) else [];
    CodeFirst(r, extra);
    NoDetails(r, extra, details);
    Reply(r.code, r.members + extra)
  }

  /** The whole catch block: what `ctx.status` and `ctx.body` become. */
  function Handled(v: Snapshot, e: Json, o: ErrorOptions, nodeEnv: Option<string>): (w: Snapshot)
    ensures w == v.(status := w.status, body := w.body)
    ensures Rejected(w, w.status)
    ensures MappingFor(e, o).Some? ==> w.status == MappingFor(e, o).value.code
    ensures MappingFor(e, o).None? ==> w.status == BuiltIn(e, BaseStatus(v.status)).code
    ensures Field(w.body.value, "stack").Some? || Field(w.body.value, "details").Some? ==>
      o.showDetailsInDev && nodeEnv == Some("development")
  {
    var r := ErrorReply(v.status, e, o, nodeEnv);
    v.(status := r.code, body := Some(JObj(r.members)))
  }

  /** Every reply leads with its own code. */
  lemma CodeFirst(r: Reply, extra: seq<(string, Json)>)
    requires r.members != [] && r.members[0] == ("code", Int(r.code))
    ensures Field(JObj(r.members + extra), "code") == Some(Int(r.code))
  {
  }

  /** Without details the reply has no stack and no details: its own members hold neither. */
  lemma NoDetails(r: Reply, extra: seq<(string, Json)>, details: bool)
    requires !details ==> extra == []
    requires forall i :: 0 <= i < |r.members| ==> r.members[i].0 in {"code", "message", "errors"}
    ensures Field(JObj(r.members + extra), "stack").Some? || Field(JObj(r.members + extra), "details").Some? ==> details
  {
    if !details {
      assert r.members + extra == r.members;
      NotAmong(r.members, "stack");
      NotAmong(r.members, "details");
    }
  }

  lemma {:induction false} NotAmong(ms: seq<(string, Json)>, k: string)
    requires forall i :: 0 <= i < |ms| ==> ms[i].0 in {"code", "message", "errors"}
    requires k !in {"code", "message", "errors"}
    ensures Lookup(ms, k).None?
  {
    if ms != [] {
      NotAmong(ms[1..], k);
    }
  }

  /** The if/else chain over the error's name, from the defaulted `status`. */
  method Classify(error: Json, status: int) returns (r: Reply)
    ensures r == BuiltIn(error, status)
  {
    r := Plain(status, InternalError);
    if NameIs(error, "ValidationError") {
      var errors := if TruthyOpt(Field(error, "errors")) then Field(error, "errors") else Field(error, "message");
      r := Reply(400, [("code", Int(400)), ("message", JStr("参数验证失败"))] + Member("errors", errors));
    } else if NameIs(error, "UnauthorizedError") {
      r := Plain(401, "未授权访问");
    } else if NameIs(error, "ForbiddenError") {
      r := Plain(403, "权限不足");
    } else if NameIs(error, "NotFoundError") {
      r := Plain(404, "资源不存在");
    } else if NameIs(error, "ConflictError") {
      r := Plain(409, "资源冲突");
    } else if Field(error, "code") == Some(JStr("ECONNREFUSED")) {
      r := Plain(503, "数据库连接失败");
    }
  }

  /** `errorHandler(options)`; it catches what the chain throws and never throws itself. */
  method ErrorHandler(ctx: Context, o: ErrorOptions, nodeEnv: Option<string>, next: Snapshot -> Downstream)
    returns (logged: bool)
    modifies ctx
    ensures var d := next(old(ctx.View()));
      (d.thrown.None? ==> ctx.View() == d.view && !logged) &&
      (d.thrown.Some? ==> ctx.View() == Handled(d.view, d.thrown.value, o, nodeEnv) && logged == o.logErrors)
  {
    var d := next(ctx.View());
    ctx.Load(d.view);
    logged := false;
    if d.thrown.None? {
      return;
    }
    logged := o.logErrors;
    HandleError(ctx, d.thrown.value, o, nodeEnv);
  }

  /** The catch block: the status is set, then replaced with the reply's code, and the body written. */
  method HandleError(ctx: Context, error: Json, o: ErrorOptions, nodeEnv: Option<string>)
    modifies ctx
    ensures ctx.View() == Handled(old(ctx.View()), error, o, nodeEnv)
  {
    var r := BuildReply(ctx.status, error, o, nodeEnv);
    ctx.status, ctx.body := r.code, Some(JObj(r.members));
  }

  /** Status defaulting, the built-in table, the custom mapping, then the development details. */
  method BuildReply(status0: int, error: Json, o: ErrorOptions, nodeEnv: Option<string>) returns (r: Reply)
    ensures r == ErrorReply(status0, error, o, nodeEnv)
  {
    var status := status0;
    if status == 0 || status < 400 {
      status := 500;
    }
    var errorResponse := Classify(error, status);
    var m := MappingFor(error, o);
    if m.Some? {
      errorResponse := Plain(m.value.code, m.value.message);
    }
    var members := errorResponse.members;
    if o.showDetailsInDev && nodeEnv == Some("development") {
      members := members + (Member("stack", Field(error, "stack")) + Member("details", Field(error, "message")));
    } else {
      assert members + [] == members;
    }
    r := Reply(errorResponse.code, members);
  }

  /** A custom mapping beats the built-in table, even for a built-in name. */
  lemma MappingOverrides(v: Snapshot, e: Json, o: ErrorOptions, nodeEnv: Option<string>, m: Mapping)
    requires NameIs(e, "NotFoundError") && o.errorMappings == map["NotFoundError" := m]
    ensures Handled(v, e, o, nodeEnv).status == m.code
  {
  }

  /**
   * An unnamed error thrown before any status was set keeps Koa's default
   * 404: the status is only raised to 500 when it is below 400.
   */
  lemma UnsetStatusKeeps404(v: Snapshot, e: Json, o: ErrorOptions, nodeEnv: Option<string>)
    requires v.status == 404 && Field(e, "name").None? && Field(e, "code").None?
    requires "undefined" !in o.errorMappings
    ensures Handled(v, e, o, nodeEnv).status == 404
  {
  }

  /** `notFoundHandler` after `next()`: a 404, or a 200 without a body, becomes the 404 envelope. */
  function NotFound(v: Snapshot): (w: Snapshot)
    ensures (v.status == 404 || (!TruthyOpt(v.body) && v.status == 200)) ==>
      Rejected(w, 404) && Field(w.body.value, "path") == Some(JStr(v.request.path)) &&
      Field(w.body.value, "method") == Some(JStr(v.request.verb)) && w == v.(status := 404, body := w.body)
    ensures !(v.status == 404 || (!TruthyOpt(v.body) && v.status == 200)) ==> w == v
  {
    if v.status == 404 || (!TruthyOpt(v.body) && v.status == 200) then
      var ms := NotFoundMembers(v.request.path, v.request.verb);
      v.(status := 404, body := Some(JObj(ms)))
    else v
  }

  function NotFoundMembers(path: string, verb: string): (ms: seq<(string, Json)>)
    ensures Field(JObj(ms), "code") == Some(Int(404))
    ensures Field(JObj(ms), "path") == Some(JStr(path))
    ensures Field(JObj(ms), "method") == Some(JStr(verb))
  {
    NotFoundPath(path, verb);
    NotFoundMethod(path, verb);
    NotFoundList(path, verb)
  }

  /** The 404 envelope's members in the order the handler writes them. */
  function NotFoundList(path: string, verb: string): seq<(string, Json)> {
    [("code", Int(404)), ("message", JStr(NotFoundMessage)), ("path", JStr(path)), ("method", JStr(verb))]
  }

  lemma NotFoundPath(path: string, verb: string)
    ensures Lookup(NotFoundList(path, verb), "path") == Some(JStr(path))
  {
    var ms := NotFoundList(path, verb);
    assert "path"[0] != "code"[0] && "path"[0] != "message"[0];
    assert Lookup(ms[2..], "path") == Some(JStr(path));
    assert ms[2..] == ms[1..][1..];
  }

  lemma NotFoundMethod(path: string, verb: string)
    ensures Lookup(NotFoundList(path, verb), "method") == Some(JStr(verb))
  {
    var ms := NotFoundList(path, verb);
    assert "method"[0] != "code"[0] && "method"[2] != "message"[2] && "method"[0] != "path"[0];
    assert Lookup(ms[3..], "method") == Some(JStr(verb));
    assert ms[3..] == ms[2..][1..] && ms[2..] == ms[1..][1..];
    assert Lookup(ms[2..], "method") == Some(JStr(verb));
  }

  /** `notFoundHandler`; an exception from the chain passes through. */
  method NotFoundHandler(ctx: Context, next: Snapshot -> Downstream) returns (thrown: Option<Json>)
    modifies ctx
    ensures var d := next(old(ctx.View()));
      thrown == d.thrown && ctx.View() == if d.thrown.Some? then d.view else NotFound(d.view)
  {
    var d := next(ctx.View());
    ctx.Load(d.view);
    thrown := d.thrown;
    if thrown.Some? {
      return;
    }
    if ctx.status == 404 || (!TruthyOpt(ctx.body) && ctx.status == 200) {
      ctx.status := 404;
      ctx.body := NotFound(d.view).body;
    }
  }
}
