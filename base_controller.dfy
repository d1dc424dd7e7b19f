/**
 * The backend's controller base, apps/backend/src/controllers/BaseController.ts:
 * the response helpers that write `{code, message, data}` and the matching
 * status, the required-parameter and pagination checks, and the mapping of
 * a service envelope onto a response.
 */
module BaseController {
  import opened Js
  import Koa
  import opened BaseService

  /** `{code, message, data}`; an undefined `data` does not appear in the JSON text. */
  function Body(code: int, message: string, data: Option<Json>): (j: Json)
    ensures j.JObj?
    ensures Field(j, "code") == Some(Int(code))
    ensures Field(j, "message") == Some(JStr(message))
    ensures Field(j, "data") == data
  {
    assert "code"[0] != "message"[0] && "code"[0] != "data"[0] && "message"[0] != "data"[0];
    var head := [("code", Int(code)), ("message", JStr(message))];
    var ms := if data.Some? then head + [("data", data.value)] else head;
    assert Lookup(ms[1..], "message") == Some(JStr(message));
    assert data.Some? ==> Lookup(ms[2..], "data") == data;
    JObj(ms)
  }

  /** A response: the status and the body written to `ctx`. */
  datatype Reply = Reply(status: int, body: Json)

  /**
   * `success(ctx, data, message, code)` and `error(ctx, message, code, data)`:
   * both write the same envelope and set the status to its code.
   */
  function Respond(code: int, message: string, data: Option<Json>): (r: Reply)
    ensures r.status == code && Field(r.body, "code") == Some(Int(code))
    ensures Field(r.body, "message") == Some(JStr(message)) && Field(r.body, "data") == data
  {
    Reply(code, Body(code, message, data))
  }

  /** `notFound(ctx, message)`. */
  function NotFound(message: string): (r: Reply)
    ensures r.status == 404 && Field(r.body, "code") == Some(Int(404)) && Field(r.body, "data").None?
  {
    Respond(404, message, None)
  }

  /** `unauthorized(ctx, message)`. */
  function Unauthorized(message: string): (r: Reply)
    ensures r.status == 401 && Field(r.body, "code") == Some(Int(401)) && Field(r.body, "data").None?
  {
    Respond(401, message, None)
  }

  /** `forbidden(ctx, message)`. */
  function Forbidden(message: string): (r: Reply)
    ensures r.status == 403 && Field(r.body, "code") == Some(Int(403)) && Field(r.body, "data").None?
  {
    Respond(403, message, None)
  }

  /** `serverError(ctx, message, data)`. */
  function ServerError(message: string, data: Option<Json>): (r: Reply)
    ensures r.status == 500 && Field(r.body, "code") == Some(Int(500)) && Field(r.body, "data") == data
  {
    Respond(500, message, data)
  }

  /** Writing a response: `ctx.body` first, then `ctx.status`; nothing else changes. */
  method Send(ctx: Koa.Context, r: Reply)
    modifies ctx
    ensures ctx.View() == old(ctx.View()).(status := r.status, body := Some(r.body))
  {
    ctx.body := Some(r.body);
    ctx.status := r.status;
  }

  /** Every helper's body carries the code it sets as the status. */
  lemma HelpersAgree(message: string, data: Option<Json>, code: int)
    ensures Field(Respond(code, message, data).body, "code") == Some(Int(Respond(code, message, data).status))
    ensures Field(NotFound(message).body, "code") == Some(Int(NotFound(message).status))
    ensures Field(Unauthorized(message).body, "code") == Some(Int(Unauthorized(message).status))
    ensures Field(Forbidden(message).body, "code") == Some(Int(Forbidden(message).status))
    ensures Field(ServerError(message, data).body, "code") == Some(Int(ServerError(message, data).status))
  {
  }

  // ------------------------------------------------------------ handleServiceResponse

  /** `handleServiceResponse(ctx, response)`: the response the envelope is turned into. */
  function Handled(api: Api): (r: Reply)
    ensures Field(r.body, "code") == Some(Int(r.status))
    ensures Field(r.body, "message") == Some(JStr(api.message))
    ensures (200 <= api.code < 300 || 400 <= api.code < 500) ==> r.status == api.code
    ensures !(200 <= api.code < 300 || 400 <= api.code < 500) ==> r.status == 500
    ensures Field(r.body, "data") == if api.code in {401, 403, 404} then None else api.data
  {
    if 200 <= api.code < 300 then Respond(api.code, api.message, api.data)
    else if api.code == 404 then NotFound(api.message)
    else if api.code == 401 then Unauthorized(api.message)
    else if api.code == 403 then Forbidden(api.message)
    else if api.code == 409 then Respond(409, api.message, api.data)
    else if 400 <= api.code < 500 then Respond(api.code, api.message, api.data)
    else ServerError(api.message, api.data)
  }

  /** A 3xx or 1xx envelope is reported as a server error, keeping its message and data. */
  lemma RedirectBecomesServerError(message: string, data: Option<Json>)
    ensures Handled(Api(302, message, data)) == ServerError(message, data)
    ensures Handled(Api(100, message, data)).status == 500
  {
  }

  /** What a controller's call into a service produced: an envelope, or a thrown error. */
  datatype Outcome = Returned(api: Api) | Threw

  /** The usual handler tail: the envelope is handled, a thrown error becomes a 500 with the handler's message. */
  function Finish(o: Outcome, failure: string): (r: Reply)
    ensures o.Returned? ==> r == Handled(o.api)
    ensures o.Threw? ==> r.status == 500 && Field(r.body, "message") == Some(JStr(failure)) && Field(r.body, "data").None?
  {
    if o.Returned? then Handled(o.api) else ServerError(failure, None)
  }

  // ------------------------------------------------------------ validateRequiredParams

  /** `requiredParams.filter(param => !body[param])`, in the given order. */
  function Missing(required: seq<string>, body: Json): (m: seq<string>)
    ensures |m| <= |required|
    ensures forall p :: p in m <==> p in required && !TruthyOpt(Field(body, p))
  {
    if required == [] then []
    else (if TruthyOpt(Field(body, required[0])) then [] else [required[0]]) + Missing(required[1..], body)
  }

  /** The 400 written when parameters are missing. */
  function MissingReply(m: seq<string>): Reply {
    Respond(400, "缺少必填参数: " + Join(m, ", "), None)
  }

  /** `validateRequiredParams`: None when every parameter is truthy, else the 400 written. */
  function RequiredCheck(required: seq<string>, body: Json): (r: Option<Reply>)
    ensures r.None? <==> forall p :: p in required ==> TruthyOpt(Field(body, p))
    ensures r.Some? ==> r.value.status == 400 && r.value == MissingReply(Missing(required, body))
  {
    var m := Missing(required, body);
    if |m| > 0 then
      assert m[0] in m;
      Some(MissingReply(m))
    else
      assert forall p :: p in required ==> TruthyOpt(Field(body, p)) by {
        forall p | p in required ensures TruthyOpt(Field(body, p)) {
          assert p !in m;
        }
      }
      None
  }

  /**
   * `validateRequiredParams` inside a handler's `try`: reading a property of
   * an undefined or null body throws, and the handler answers 500 with its
   * own message.
   */
  function RequiredIn(required: seq<string>, body: Option<Json>, failure: string): (r: Option<Reply>)
    ensures Nullish(body) && |required| > 0 ==> r == Some(ServerError(failure, None))
    ensures !Nullish(body) ==> r == RequiredCheck(required, body.value)
    ensures required == [] ==> r.None?
  {
    if required == [] then None
    else if Nullish(body) then Some(ServerError(failure, None))
    else RequiredCheck(required, body.value)
  }

  /**
   * The create handlers: the required fields must be truthy, then the
   * service's envelope is handled.
   */
  function Validated(required: seq<string>, failure: string, body: Option<Json>, service: Json -> Outcome): (r: Reply)
    requires |required| > 0
    ensures Nullish(body) ==> r == ServerError(failure, None)
    ensures !Nullish(body) && RequiredCheck(required, body.value).Some? ==> r == RequiredCheck(required, body.value).value
    ensures !Nullish(body) && RequiredCheck(required, body.value).None? ==> r == Finish(service(body.value), failure)
  {
    var check := RequiredIn(required, body, failure);
    if check.Some? then check.value else Finish(service(body.value), failure)
  }

  /** `validateRequiredParams(ctx, requiredParams, body)`: false after writing the 400. */
  method ValidateRequiredParams(ctx: Koa.Context, required: seq<string>, body: Json) returns (ok: bool)
    modifies ctx
    ensures ok <==> RequiredCheck(required, body).None?
    ensures ok ==> ctx.View() == old(ctx.View())
    ensures !ok ==> ctx.View() == old(ctx.View()).(status := 400, body := Some(RequiredCheck(required, body).value.body))
  {
    var m := Missing(required, body);
    if |m| > 0 {
      Send(ctx, MissingReply(m));
      return false;
    }
    return true;
  }

  /** A required parameter that is falsy is reported missing, and the check fails. */
  lemma MissingRefused(required: seq<string>, body: Json, p: string)
    requires p in required && !TruthyOpt(Field(body, p))
    ensures p in Missing(required, body) && RequiredCheck(required, body).Some?
  {
  }

  /** When every required parameter is truthy, none is reported missing. */
  lemma {:induction false} NoneMissing(required: seq<string>, body: Json)
    requires forall p :: p in required ==> TruthyOpt(Field(body, p))
    ensures Missing(required, body) == []
  {
    if required != [] {
      assert required[0] in required;
      NoneMissing(required[1..], body);
    }
  }

  /** Zero, false and the empty string count as missing. */
  lemma FalsyIsMissing(p: string)
    ensures Missing([p], JObj([(p, Int(0))])) == [p]
    ensures Missing([p], JObj([(p, JBool(false))])) == [p]
    ensures Missing([p], JObj([(p, JStr(""))])) == [p]
    ensures Missing([p], JObj([])) == [p]
  {
  }

  // ------------------------------------------------------------ validatePagination

  /** `parseInt(x) || fallback`: NaN and 0 both give the fallback. */
  function IntOr(p: Option<int>, fallback: int): (n: int)
    ensures n == fallback || (p.Some? && n == p.value && n != 0)
  {
    if p.Some? && p.value != 0 then p.value else fallback
  }

  /** `q ? parseInt(q as string) : undefined`: a falsy parameter is left undefined, a non-numeric one becomes NaN. */
  function OptionalInt(q: Option<Json>): (r: Option<Json>)
    ensures !TruthyOpt(q) ==> r.None?
    ensures TruthyOpt(q) && ParseIntValue(q).Some? ==> r == Some(Int(ParseIntValue(q).value))
    ensures TruthyOpt(q) && ParseIntValue(q).None? ==> r == Some(JNum(NaN))
  {
    if !TruthyOpt(q) then None
    else if ParseIntValue(q).Some? then Some(Int(ParseIntValue(q).value))
    else Some(JNum(NaN))
  }

  /**
   * `classId && isNaN(classId)` on `classId = q ? parseInt(q) : undefined`,
   * as the handlers with an optional class id write it. NaN is falsy, so
   * this never holds (ClassIdGuardNeverFires).
   */
  predicate BadClassIdAsWritten(classId: Option<Json>) {
    TruthyOpt(classId) && classId.value == JNum(NaN)
  }

  /** The test the message '班级ID必须是数字' calls for: a supplied class id that did not parse. */
  predicate BadClassId(classId: Option<Json>) {
    classId == Some(JNum(NaN))
  }

  /** The guard as written rejects nothing, so a non-numeric class id reaches the service as NaN. */
  lemma ClassIdGuardNeverFires(q: Option<Json>)
    ensures !BadClassIdAsWritten(OptionalInt(q))
    ensures TruthyOpt(q) && ParseIntValue(q).None? ==> OptionalInt(q) == Some(JNum(NaN))
  {
  }

  /** With the corrected guard the service sees no class id, or a parsed integer, and never NaN. */
  lemma ClassIdParsed(q: Option<Json>)
    requires !BadClassId(OptionalInt(q))
    ensures OptionalInt(q).None? || (ParseIntValue(q).Some? && OptionalInt(q) == Some(Int(ParseIntValue(q).value)))
  {
  }

  /** `status === Status.Active || status === Status.Inactive`: the numbers 1 and 0 only. */
  predicate StatusAllowed(status: Option<Json>) {
    status == Some(Int(0)) || status == Some(Int(1))
  }

  /** What `validatePagination` yields: the page and size, or the 400 it writes before throwing. */
  datatype Paging = Paged(page: int, size: int) | BadPaging(reply: Reply)

  /** `validatePagination(ctx, query)`. */
  function Pagination(query: map<string, Json>): (r: Paging)
    ensures var page := IntOr(ParseIntValue(Koa.Prop(query, "page")), 1);
      var size := IntOr(ParseIntValue(Koa.Prop(query, "size")), 10);
      (r.Paged? <==> page >= 1 && 1 <= size <= 100) &&
      (r.Paged? ==> r == Paged(page, size)) &&
      (r.BadPaging? ==> r.reply.status == 400 && Field(r.reply.body, "code") == Some(Int(400)))
    ensures r.BadPaging? && IntOr(ParseIntValue(Koa.Prop(query, "page")), 1) < 1 ==>
      Field(r.reply.body, "message") == Some(JStr("页码必须大于0"))
  {
    var page := IntOr(ParseIntValue(Koa.Prop(query, "page")), 1);
    var size := IntOr(ParseIntValue(Koa.Prop(query, "size")), 10);
    if page < 1 then BadPaging(Respond(400, "页码必须大于0", None))
    else if size < 1 || size > 100 then BadPaging(Respond(400, "每页数量必须在1-100之间", None))
    else Paged(page, size)
  }

  // ------------------------------------------------------------ handler shapes

  /** `parseInt(id)` refused when NaN, then the service: the shape of the handlers taking one path id. */
  function ById(id: Option<Json>, badId: string, failure: string, service: int -> Outcome): (r: Reply)
    ensures ParseIntValue(id).None? ==> r == Respond(400, badId, None)
    ensures ParseIntValue(id).Some? ==> r == Finish(service(ParseIntValue(id).value), failure)
  {
    var n := ParseIntValue(id);
    if n.None? then Respond(400, badId, None) else Finish(service(n.value), failure)
  }

  /**
   * `parseInt(id)`, then `validatePagination` (whose 400 is overwritten by
   * the catch's 500), then the service: the shape of the paged list handlers.
   */
  function PagedById(id: Option<Json>, badId: string, query: map<string, Json>, failure: string,
                     service: (int, int, int) -> Outcome): (r: Reply)
    ensures ParseIntValue(id).None? ==> r == Respond(400, badId, None)
    ensures ParseIntValue(id).Some? && Pagination(query).BadPaging? ==> r == ServerError(failure, None)
    ensures ParseIntValue(id).Some? && Pagination(query).Paged? ==>
      r == Finish(service(ParseIntValue(id).value, Pagination(query).page, Pagination(query).size), failure)
  {
    var n := ParseIntValue(id);
    if n.None? then Respond(400, badId, None)
    else
      var p := Pagination(query);
      if p.BadPaging? then ServerError(failure, None)
      else Finish(service(n.value, p.page, p.size), failure)
  }

  /** `parseInt(undefined)` is NaN. */
  lemma UndefinedIsNaN()
    ensures ParseIntValue(None) == None
  {
    assert ToJsStringOpt(None) == "undefined";
    assert TrimStart("undefined") == "undefined";
    assert DigitValue('u', 10) < 0;
    assert DigitRun("undefined", 10) == 0;
  }

  /** `parseInt('abc')` is NaN. */
  lemma LettersAreNaN()
    ensures ParseIntValue(Some(JStr("abc"))).None?
  {
    var s := "abc";
    assert ToJsStringOpt(Some(JStr(s))) == s;
    assert !IsWhiteSpace(s[0]) && s[0] != '-' && s[0] != '+' && s[0] != '0';
    assert TrimStart(s) == s;
    assert DigitValue(s[0], 10) < 0;
    assert DigitRun(s, 10) == 0;
  }

  /** `parseInt('0')` is 0. */
  lemma ZeroIsZero()
    ensures ParseIntValue(Some(JStr("0"))) == Some(0)
  {
    ParseIntText(0);
    assert IntText(0) == "0";
  }

  /** An absent page and size give the defaults. */
  lemma PaginationDefaults()
    ensures Pagination(map[]) == Paged(1, 10)
  {
    UndefinedIsNaN();
    assert Koa.Prop(map[], "page") == None && Koa.Prop(map[], "size") == None;
    assert IntOr(ParseIntValue(None), 1) == 1 && IntOr(ParseIntValue(None), 10) == 10;
  }

  /** A page or size of '0' is falsy after parsing and falls back to the defaults. */
  lemma ZeroPagingDefaults()
    ensures Pagination(map["page" := JStr("0"), "size" := JStr("0")]) == Paged(1, 10)
  {
    ZeroIsZero();
    var q := map["page" := JStr("0"), "size" := JStr("0")];
    assert Koa.Prop(q, "page") == Some(JStr("0")) && Koa.Prop(q, "size") == Some(JStr("0"));
    assert IntOr(ParseIntValue(Some(JStr("0"))), 1) == 1 && IntOr(ParseIntValue(Some(JStr("0"))), 10) == 10;
  }
}
