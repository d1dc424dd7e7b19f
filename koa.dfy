/**
 * The request context every Koa middleware of the gateway and the backend
 * reads and writes: the incoming request, the response status, body and
 * headers, `ctx.state`, and the custom properties the backend hangs on
 * `ctx` itself (`ctx.userId`, `ctx.user`, `ctx.roles`).
 */
module Koa {
  import opened Js

  /**
   * The incoming request. Header names are stored lower-case, as Node
   * delivers them; `query` and `params` hold JSON values because the
   * validators write parsed numbers back into them.
   */
  datatype Request = Request(
    verb: string,
    path: string,
    url: string,
    querystring: string,
    headers: map<string, string>,
    ip: string,
    body: Option<Json>,
    query: map<string, Json>,
    params: map<string, Json>,
    files: Option<Json>,
    multipart: bool)

  /** `ctx.get(name)` for a lower-case name: the header value, or '' when absent. */
  function Header(r: Request, name: string): string {
    if name in r.headers then r.headers[name] else ""
  }

  /** A property of a plain map-backed object, undefined when absent. */
  function Prop(m: map<string, Json>, k: string): Option<Json> {
    if k in m then Some(m[k]) else None
  }

  /** Everything a middleware can observe or change, as one value. */
  datatype Snapshot = Snapshot(
    request: Request,
    status: int,
    body: Option<Json>,
    headers: map<string, string>,
    state: map<string, Json>,
    ext: map<string, Json>)

  /** What a middleware leaves behind: the context and whether it called `next()`. */
  datatype Outcome = Outcome(view: Snapshot, callsNext: bool)

  /**
   * What the rest of the chain leaves behind when `next()` is awaited: the
   * context it hands back and the exception it throws, if any.
   */
  datatype Downstream = Downstream(view: Snapshot, thrown: Option<Json>)

  class Context {
    var request: Request
    /** Koa's response status; 404 until something sets it. */
    var status: int
    /** `ctx.body`; None is undefined. */
    var body: Option<Json>
    /** Response headers set with `ctx.set`. */
    var headers: map<string, string>
    var state: map<string, Json>
    /** Custom properties assigned on `ctx` itself. */
    var ext: map<string, Json>

    constructor (r: Request)
      ensures View() == Snapshot(r, 404, None, map[], map[], map[])
    {
      request := r;
      status := 404;
      body := None;
      headers := map[];
      state := map[];
      ext := map[];
    }

    function View(): Snapshot
      reads this
    {
      Snapshot(request, status, body, headers, state, ext)
    }

    /** The downstream chain runs on this context and leaves it as `v`. */
    method Load(v: Snapshot)
      modifies this
      ensures View() == v
    {
      request, status, body, headers, state, ext := v.request, v.status, v.body, v.headers, v.state, v.ext;
    }
  }

  /** `o.k = value`, where assigning undefined leaves nothing readable under `k`. */
  function SetProp(m: map<string, Json>, k: string, value: Option<Json>): (r: map<string, Json>)
    ensures Prop(r, k) == value
    ensures forall k' :: k' != k ==> Prop(r, k') == Prop(m, k')
  {
    if value.Some? then m[k := value.value] else m - {k}
  }

  /** The URL after its search part is set to `search`: the path, then `?` and the text when it is not empty. */
  function UrlWithSearch(path: string, search: string): (u: string)
    ensures search == "" ==> u == path
    ensures search != "" ==> u == path + "?" + search
  {
    if search == "" then path else path + "?" + search
  }

  /**
   * `ctx.query = obj`. The object is serialised (`stringify` stands for
   * `qs.stringify`) into the query string. When that text already is the
   * query string Koa changes nothing, and `ctx.query` keeps answering its
   * cached object, which is `obj`. Otherwise the URL takes the new text and
   * later reads of `ctx.query` parse it (`parse` stands for `qs.parse`).
   */
  function QueryAssigned(r: Request, obj: map<string, Json>, stringify: map<string, Json> -> string,
                         parse: string -> map<string, Json>): (r': Request)
    ensures r'.querystring == stringify(obj)
    ensures r'.query == if stringify(obj) == r.querystring then obj else parse(stringify(obj))
    ensures r'.url == if stringify(obj) == r.querystring then r.url else UrlWithSearch(r.path, stringify(obj))
    ensures r' == r.(querystring := r'.querystring, url := r'.url, query := r'.query)
  {
    var text := stringify(obj);
    if text == r.querystring then r.(query := obj)
    else r.(querystring := text, url := UrlWithSearch(r.path, text), query := parse(text))
  }

  /** The `{code, message}` body every error path of the system writes. */
  function Envelope(code: int, message: string): (j: Json)
    ensures j.JObj? && DistinctKeys(j.members)
    ensures Field(j, "code") == Some(Int(code))
    ensures Field(j, "message") == Some(JStr(message))
  {
    var ms := [("code", Int(code)), ("message", JStr(message))];
    assert "code"[0] != "message"[0];
    assert Lookup(ms[1..], "message") == Some(JStr(message));
    JObj(ms)
  }

  /** `{code, message, ...extra}` with extra keys after the two fixed ones. */
  function EnvelopeWith(code: int, message: string, extra: seq<(string, Json)>): (j: Json)
    ensures Field(j, "code") == Some(Int(code))
  {
    JObj([("code", Int(code)), ("message", JStr(message))] + extra)
  }

  /** The response is a rejection with this status, carried both in the status and the body. */
  predicate Rejected(v: Snapshot, code: int) {
    v.status == code && v.body.Some? && Field(v.body.value, "code") == Some(Int(code))
  }

  /** A thrown JavaScript error: an object with a name, a message and optional properties. */
  function ErrorValue(name: string, message: string, extra: seq<(string, Json)>): Json {
    JObj([("name", JStr(name)), ("message", JStr(message))] + extra)
  }
}
