/**
 * The gateway's fallback proxy (apps/bff/src/middleware/legacyProxy.ts):
 * after the gateway's own routes have run, an unanswered `/api/` request is
 * forwarded once to the legacy backend and the backend's answer becomes the
 * response.
 */
module LegacyProxy {
  import opened Js
  import opened Koa

  /** `BE_BACKEND_URL` as the middleware sees it after `new URL(...)`. */
  datatype BaseUrl =
    | NotConfigured
    | Unparsable
    | Parsed(origin: string, pathname: string)

  /** The one request sent upstream; `body` is what `JSON.stringify` serialises. */
  datatype Outbound = Outbound(verb: string, url: string, headers: map<string, string>, body: Option<Json>)

  /** What the upstream answers: its status and its text, None when reading the text failed. */
  datatype Reply = Reply(status: int, raw: Option<string>)

  const ForwardedNames: set<string> := {"Authorization", "X-Trace-Id", "Accept", "Content-Type", "Cookie"}

  /** The request is already answered: a body is set, or a status other than 404. */
  predicate Answered(v: Snapshot) {
    v.body.Some? || (v.status != 0 && v.status != 404)
  }

  /** The proxy acts: nothing answered the request and its path is under `/api/`. */
  predicate Activates(v: Snapshot) {
    !Answered(v) && StartsWith(v.request.path, "/api/")
  }

  /** The trace id to forward: a truthy `ctx.state.traceId`, else the inbound header. */
  function TraceId(v: Snapshot): string {
    var st := Prop(v.state, "traceId");
    if TruthyOpt(st) then ToJsString(st.value) else Header(v.request, "x-trace-id")
  }

  /** The forwarded header set, written one allow-listed header at a time. */
  function ForwardHeaders(v: Snapshot): (h: map<string, string>)
    ensures h.Keys <= ForwardedNames
    ensures forall k :: k in h ==> h[k] != ""
  {
    var r := v.request;
    var h0: map<string, string> := map[];
    var h1 := if Header(r, "authorization") != "" then h0["Authorization" := Header(r, "authorization")] else h0;
    var h2 := if TraceId(v) != "" then h1["X-Trace-Id" := TraceId(v)] else h1;
    var h3 := if Header(r, "accept") != "" then h2["Accept" := Header(r, "accept")] else h2;
    var h4 := if Header(r, "content-type") != "" then h3["Content-Type" := Header(r, "content-type")] else h3;
    if Header(r, "cookie") != "" then h4["Cookie" := Header(r, "cookie")] else h4
  }

  /** `Authorization` is forwarded exactly when the request carries one, unchanged. */
  lemma ForwardsAuthorization(v: Snapshot)
    ensures var h := ForwardHeaders(v);
      ("Authorization" in h <==> Header(v.request, "authorization") != "") &&
      ("Authorization" in h ==> h["Authorization"] == Header(v.request, "authorization"))
  {
    ForwardedNamesDistinct();
  }

  /** `X-Trace-Id` is forwarded exactly when a trace id is known, and it is that id. */
  lemma ForwardsTraceId(v: Snapshot)
    ensures var h := ForwardHeaders(v);
      ("X-Trace-Id" in h <==> TraceId(v) != "") && ("X-Trace-Id" in h ==> h["X-Trace-Id"] == TraceId(v))
  {
    ForwardedNamesDistinct();
  }

  /** `Accept`, `Content-Type` and `Cookie` are forwarded exactly when present and non-empty. */
  lemma ForwardsOthers(v: Snapshot)
    ensures var h := ForwardHeaders(v);
      ("Accept" in h <==> Header(v.request, "accept") != "") &&
      ("Content-Type" in h <==> Header(v.request, "content-type") != "") &&
      ("Cookie" in h <==> Header(v.request, "cookie") != "")
  {
    ForwardedNamesDistinct();
  }

  lemma ForwardedNamesDistinct()
    ensures "Authorization" != "X-Trace-Id" && "Authorization" != "Accept" && "Authorization" != "Content-Type" && "Authorization" != "Cookie"
    ensures "X-Trace-Id" != "Accept" && "X-Trace-Id" != "Content-Type" && "X-Trace-Id" != "Cookie"
    ensures "Accept" != "Content-Type" && "Accept" != "Cookie" && "Content-Type" != "Cookie"
  {
    assert "Authorization"[0] != "X-Trace-Id"[0] && "Authorization"[1] != "Accept"[1];
    assert "Authorization"[0] != "Content-Type"[0] && "Authorization"[0] != "Cookie"[0];
    assert "X-Trace-Id"[0] != "Accept"[0] && "X-Trace-Id"[0] != "Content-Type"[0] && "X-Trace-Id"[0] != "Cookie"[0];
    assert "Accept"[0] != "Content-Type"[0] && "Accept"[0] != "Cookie"[0] && "Content-Type"[2] != "Cookie"[2];
  }


  /** `pathname.replace(/\/$/, '')`: at most one trailing slash goes. */
  function StripTrailingSlash(p: string): (r: string)
    ensures r == p || (p == r + "/")
    ensures EndsWith(p, "/") ==> p == r + "/"
  {
    if p != [] && p[|p| - 1] == '/' then p[..|p| - 1] else p
  }

  /** The request path with a leading `/api` removed when the base already ends in `/api`. */
  function NormalizedPath(basePath: string, requestPath: string): string {
    if EndsWith(basePath, "/api") && StartsWith(requestPath, "/api") then
      (if requestPath[4..] == "" then "/" else requestPath[4..])
    else requestPath
  }

  function UrlPath(pathname: string, requestPath: string): string {
    var basePath := StripTrailingSlash(pathname);
    (if basePath != "" && basePath != "/" then basePath else "") + NormalizedPath(basePath, requestPath)
  }

  /** The query string is appended after `?` unchanged, and only when non-empty. */
  function ForwardUrl(origin: string, pathname: string, requestPath: string, querystring: string): (u: string)
    ensures querystring == "" ==> u == origin + UrlPath(pathname, requestPath)
    ensures querystring != "" ==> u == origin + UrlPath(pathname, requestPath) + "?" + querystring
  {
    var p := UrlPath(pathname, requestPath);
    origin + (if querystring != "" then p + "?" + querystring else p)
  }

  /** A body goes upstream only for a method other than GET or DELETE, and only when truthy. */
  predicate SendsBody(verb: string, body: Option<Json>) {
    verb != "GET" && verb != "DELETE" && TruthyOpt(body)
  }

  /** The request the proxy issues for an activated context. */
  function OutboundFor(v: Snapshot, origin: string, pathname: string): (o: Outbound)
    ensures o.headers.Keys <= ForwardedNames
    ensures o.body.Some? <==> SendsBody(ToUpper(v.request.verb), v.request.body)
    ensures o.body.Some? ==> o.body == v.request.body && "Content-Type" in o.headers
    ensures o.body.Some? && Header(v.request, "content-type") == "" ==> o.headers["Content-Type"] == "application/json"
    ensures forall k :: k in o.headers && k != "Content-Type" ==> k in ForwardHeaders(v) && o.headers[k] == ForwardHeaders(v)[k]
  {
    var verb := ToUpper(v.request.verb);
    var h := ForwardHeaders(v);
    var url := ForwardUrl(origin, pathname, v.request.path, v.request.querystring);
    if SendsBody(verb, v.request.body) then
      var h' := if "Content-Type" !in h then h["Content-Type" := "application/json"] else h;
      Outbound(verb, url, h', v.request.body)
    else Outbound(verb, url, h, None)
  }

  const WithoutJson := "Upstream response without JSON"

  /**
   * The body written from the upstream answer. `parse` is `JSON.parse`,
   * None when it throws. The source parses the same text a second time on
   * the non-truthy path; the model keeps both calls.
   */
  function Reconcile(status: int, raw: Option<string>, parse: string -> Option<Json>): Json {
    var json := if raw.Some? then parse(raw.value) else None;
    if TruthyOpt(json) then json.value
    else if raw.Some? && raw.value != "" then
      (var parsed := parse(raw.value); if parsed.Some? then parsed.value else Envelope(status, raw.value))
    else Envelope(status, WithoutJson)
  }

  /** Truthy parsed JSON becomes the body unchanged. */
  lemma ReconcileJson(status: int, text: string, parse: string -> Option<Json>)
    requires parse(text).Some? && Truthy(parse(text).value)
    ensures Reconcile(status, Some(text), parse) == parse(text).value
  {
  }

  /** Non-empty text that is not JSON becomes `{code: status, message: text}`. */
  lemma ReconcileText(status: int, text: string, parse: string -> Option<Json>)
    requires text != "" && parse(text).None?
    ensures Reconcile(status, Some(text), parse) == Envelope(status, text)
  {
  }

  /** Empty or unreadable text becomes `{code: status, message: 'Upstream response without JSON'}`. */
  lemma ReconcileNoText(status: int, raw: Option<string>, parse: string -> Option<Json>)
    requires raw.None? || raw.value == ""
    requires raw.Some? ==> parse(raw.value).None?
    ensures Reconcile(status, raw, parse) == Envelope(status, WithoutJson)
  {
  }

  /**
   * The second parse cannot rescue anything: the body is the parsed value
   * whenever the text parses, falsy values (`0`, `null`, `""`) included,
   * and the text envelope exactly when it does not.
   */
  lemma ReconcileSingleParse(status: int, text: string, parse: string -> Option<Json>)
    requires text != ""
    ensures Reconcile(status, Some(text), parse) ==
      if parse(text).Some? then parse(text).value else Envelope(status, text)
  {
  }

  /** With the base ending in `/api` and the request under `/api/`, the prefix appears once. */
  lemma ApiNotDoubled(origin: string, pathname: string, requestPath: string)
    requires EndsWith(StripTrailingSlash(pathname), "/api")
    requires StartsWith(requestPath, "/api/")
    ensures UrlPath(pathname, requestPath) == StripTrailingSlash(pathname) + requestPath[4..]
  {
    var basePath := StripTrailingSlash(pathname);
    assert basePath != "" && basePath != "/" by {
      assert |basePath| >= 4 && basePath[|basePath| - 4..] == "/api";
      assert basePath[|basePath| - 1] == 'i';
    }
    assert requestPath[4..] != "" by { assert requestPath[4] == '/'; }
  }

  /** A root or empty base path adds nothing: the request path is forwarded as is. */
  lemma RootBaseKeepsPath(pathname: string, requestPath: string)
    requires pathname == "" || pathname == "/"
    ensures UrlPath(pathname, requestPath) == requestPath
  {
  }

  /**
   * The proxy after `next()` has run downstream. It returns the requests it
   * sent and what it threw; `upstream` answers a request.
   */
  method Proxy(ctx: Context, base: BaseUrl, upstream: Outbound -> Reply, parse: string -> Option<Json>)
    returns (sent: seq<Outbound>, thrown: Option<Json>)
    modifies ctx
    ensures !Activates(old(ctx.View())) ==> ctx.View() == old(ctx.View()) && sent == [] && thrown.None?
    ensures Activates(old(ctx.View())) && base.NotConfigured? ==>
      ctx.View() == old(ctx.View()) && sent == [] &&
      thrown == Some(ErrorValue("InternalServerError", "BE_BACKEND_URL is not configured", [("status", Int(500))]))
    ensures Activates(old(ctx.View())) && base.Unparsable? ==>
      ctx.View() == old(ctx.View()) && sent == [] && thrown == Some(ErrorValue("TypeError", "Invalid URL", []))
    ensures Activates(old(ctx.View())) && base.Parsed? ==>
      var o := OutboundFor(old(ctx.View()), base.origin, base.pathname);
      var reply := upstream(o);
      sent == [o] && thrown.None? &&
      ctx.View() == old(ctx.View()).(status := reply.status, body := Some(Reconcile(reply.status, reply.raw, parse)))
  {
    sent, thrown := [], None;
    if ctx.body.Some? || (ctx.status != 0 && ctx.status != 404) {
      return;
    }
    var requestPath := ctx.request.path;
    if !StartsWith(requestPath, "/api/") {
      return;
    }
    if base.NotConfigured? {
      thrown := Some(ErrorValue("InternalServerError", "BE_BACKEND_URL is not configured", [("status", Int(500))]));
      return;
    }
    var forwardHeaders := CollectHeaders(ctx);
    if base.Unparsable? {
      thrown := Some(ErrorValue("TypeError", "Invalid URL", []));
      return;
    }
    var forwardUrl := ForwardUrl(base.origin, base.pathname, requestPath, ctx.request.querystring);
    var body := ctx.request.body;
    var verb := ToUpper(ctx.request.verb);
    var init := Outbound(verb, forwardUrl, forwardHeaders, None);
    if verb != "GET" && verb != "DELETE" && TruthyOpt(body) {
      if "Content-Type" !in forwardHeaders {
        forwardHeaders := forwardHeaders["Content-Type" := "application/json"];
      }
      init := init.(headers := forwardHeaders, body := body);
    }
    assert init == OutboundFor(old(ctx.View()), base.origin, base.pathname);
    sent := [init];
    var res := upstream(init);
    WriteReply(ctx, res, parse);
  }

  /** The header allow-list, written one header at a time. */
  method CollectHeaders(ctx: Context) returns (forwardHeaders: map<string, string>)
    ensures forwardHeaders == ForwardHeaders(ctx.View())
  {
    forwardHeaders := map[];
    var authorization := Header(ctx.request, "authorization");
    var traceId := TraceId(ctx.View());
    var contentType := Header(ctx.request, "content-type");
    var accept := Header(ctx.request, "accept");
    var cookie := Header(ctx.request, "cookie");
    if authorization != "" { forwardHeaders := forwardHeaders["Authorization" := authorization]; }
    if traceId != "" { forwardHeaders := forwardHeaders["X-Trace-Id" := traceId]; }
    if accept != "" { forwardHeaders := forwardHeaders["Accept" := accept]; }
    if contentType != "" { forwardHeaders := forwardHeaders["Content-Type" := contentType]; }
    if cookie != "" { forwardHeaders := forwardHeaders["Cookie" := cookie]; }
  }

  /** Mirrors the upstream status and writes the reconciled body. */
  method WriteReply(ctx: Context, res: Reply, parse: string -> Option<Json>)
    modifies ctx
    ensures ctx.View() == old(ctx.View()).(status := res.status, body := Some(Reconcile(res.status, res.raw, parse)))
  {
    var status := res.status;
    var raw := res.raw;
    var json: Option<Json> := None;
    var text := raw;
    if raw.Some? {
      json := parse(raw.value);
    }
    ctx.status := status;
    if TruthyOpt(json) {
      ctx.body := json;
    } else if text.Some? && text.value != "" {
      var parsed := parse(text.value);
      if parsed.Some? {
        ctx.body := parsed;
      } else {
        ctx.body := Some(Envelope(status, text.value));
      }
    } else {
      ctx.body := Some(Envelope(status, WithoutJson));
    }
  }
}
