/**
 * The integrated backend's global exception filter,
 * apps/backend-integrated/src/common/filters/http-exception.filter.ts:
 * whatever escapes a controller becomes one `{code, message}` response.
 */
module NestExceptionFilter {
  import opened Js

  /** What reaches the filter: a Nest `HttpException`, or any other thrown value (None is undefined). */
  datatype Exception =
    | HttpError(status: int, response: Json)
    | Other(value: Option<Json>)

  /** The response the filter writes. */
  datatype Written = Written(status: int, body: Json)

  const DefaultMessage := "服务器内部错误"
  const ValidationMessage := "参数验证失败"

  /** `(exception as any)?.name === 'ValidationError'`. */
  predicate IsValidationError(e: Exception) {
    e.Other? && e.value.Some? && Field(e.value.value, "name") == Some(JStr("ValidationError"))
  }

  /**
   * The message an `HttpException` carries: its string response, or the
   * truthy `message` of an object response, else the default.
   */
  function HttpMessage(res: Json): Json {
    if res.JStr? then res
    else if TruthyOpt(Field(res, "message")) then Field(res, "message").value
    else JStr(DefaultMessage)
  }

  /**
   * The whole filter. None when the filter itself throws: `typeof null` is
   * 'object', so reading `.message` of a null response raises a TypeError.
   */
  function Caught(e: Exception): (r: Option<Written>)
    ensures r.None? <==> e.HttpError? && e.response.JNull?
    ensures r.Some? ==>
      r.value.body.JObj? && |r.value.body.members| == 2 &&
      r.value.body.members[0] == ("code", Int(r.value.status)) && r.value.body.members[1].0 == "message"
    ensures r.Some? && e.HttpError? ==> r.value.status == e.status && Field(r.value.body, "message") == Some(HttpMessage(e.response))
    ensures IsValidationError(e) ==> r == Some(Written(400, JObj([("code", Int(400)), ("message", JStr(ValidationMessage))])))
    ensures e.Other? && !IsValidationError(e) ==> r == Some(Written(500, JObj([("code", Int(500)), ("message", JStr(DefaultMessage))])))
  {
    match e
    case HttpError(status, res) =>
      if res.JNull? then None
      else Some(Written(status, Reply(status, HttpMessage(res))))
    case Other(_) =>
      if IsValidationError(e) then Some(Written(400, Reply(400, JStr(ValidationMessage))))
      else Some(Written(500, Reply(500, JStr(DefaultMessage))))
  }

  /** `{code, message}`. */
  function Reply(code: int, message: Json): (j: Json)
    ensures j.JObj? && j.members == [("code", Int(code)), ("message", message)]
    ensures Field(j, "message") == Some(message)
  {
    assert "code"[0] != "message"[0];
    var ms := [("code", Int(code)), ("message", message)];
    assert Lookup(ms[1..], "message") == Some(message);
    JObj(ms)
  }

  /** The request's trace id: `x-trace-id`, then `X-Trace-Id`, then `x-traceid`. */
  function TraceIdOf(headers: map<string, string>): (t: Option<string>)
    ensures "x-trace-id" in headers ==> t == Some(headers["x-trace-id"])
    ensures "x-trace-id" !in headers && "X-Trace-Id" in headers ==> t == Some(headers["X-Trace-Id"])
    ensures "x-trace-id" !in headers && "X-Trace-Id" !in headers ==>
      t == if "x-traceid" in headers then Some(headers["x-traceid"]) else None
  {
    if "x-trace-id" in headers then Some(headers["x-trace-id"])
    else if "X-Trace-Id" in headers then Some(headers["X-Trace-Id"])
    else if "x-traceid" in headers then Some(headers["x-traceid"])
    else None
  }

  /**
   * `HttpExceptionFilter.catch`: `status`, `code` and `message` start at
   * the internal-error defaults and are overwritten branch by branch; the
   * trace id for the log line is looked up once the message is settled.
   * `headers` is always an object here; a request without one, on which the
   * unguarded `user-agent` read of the log line would throw, is not modelled.
   */
  method Catch(e: Exception, headers: map<string, string>) returns (r: Option<Written>, traceId: Option<string>)
    ensures r == Caught(e)
    ensures r.Some? ==> traceId == TraceIdOf(headers)
  {
    var status := 500;
    var code := status;
    var message := JStr(DefaultMessage);
    traceId := None;
    if e.HttpError? {
      status := e.status;
      code := status;
      var res := e.response;
      if res.JStr? {
        message := res;
      } else if res.JNull? {
        r := None;
        return;
      } else if TruthyOpt(Field(res, "message")) {
        message := Field(res, "message").value;
      }
    } else if IsValidationError(e) {
      status := 400;
      code := status;
      message := JStr(ValidationMessage);
    }
    traceId := TraceIdOf(headers);
    r := Some(Written(status, Reply(code, message)));
  }

  /** The body's code always equals the HTTP status. */
  lemma CodeIsStatus(e: Exception)
    requires Caught(e).Some?
    ensures Field(Caught(e).value.body, "code") == Some(Int(Caught(e).value.status))
  {
    var w := Caught(e).value;
    assert w.body.members[0] == ("code", Int(w.status));
  }

  /** A Nest validation pipe's object response keeps its (possibly non-string) message. */
  lemma ObjectMessagePassesThrough(status: int, messages: seq<Json>)
    ensures var res := JObj([("message", JArr(messages))]);
      Caught(HttpError(status, res)) == Some(Written(status, JObj([("code", Int(status)), ("message", JArr(messages))])))
  {
  }
}
