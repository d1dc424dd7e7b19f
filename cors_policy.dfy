/**
 * Origin resolution and header emission shared by packages/middlewares/src/cors.ts
 * and apps/backend/src/middlewares/cors.ts (the CORS protocol, section 3.2
 * of the WHATWG Fetch standard). A disallowed origin is not refused: only
 * the Allow-Origin header is withheld.
 */
module CorsPolicy {
  import opened Js
  import opened Koa

  /** The `origin` option: a string, a list, or a function of the context. */
  datatype OriginRule = Fixed(origin: string) | AnyOf(origins: seq<string>) | Computed(f: Snapshot -> string)

  datatype CorsSettings = CorsSettings(
    origin: OriginRule,
    allowMethods: seq<string>,
    allowHeaders: seq<string>,
    exposeHeaders: seq<string>,
    credentials: bool,
    maxAge: int)

  /** `CorsOptions`: every field may be left out. */
  datatype CorsOptions = CorsOptions(
    origin: Option<OriginRule>,
    allowMethods: Option<seq<string>>,
    allowHeaders: Option<seq<string>>,
    exposeHeaders: Option<seq<string>>,
    credentials: Option<bool>,
    maxAge: Option<int>)

  const NoCorsOptions := CorsOptions(None, None, None, None, None, None)

  /** The destructuring with defaults: each given option wins over its default. */
  function MergeCors(o: CorsOptions, d: CorsSettings): (s: CorsSettings)
    ensures o.origin.Some? ==> s.origin == o.origin.value
    ensures o.origin.None? ==> s.origin == d.origin
    ensures s.allowMethods == (if o.allowMethods.Some? then o.allowMethods.value else d.allowMethods)
    ensures s.allowHeaders == (if o.allowHeaders.Some? then o.allowHeaders.value else d.allowHeaders)
    ensures s.exposeHeaders == (if o.exposeHeaders.Some? then o.exposeHeaders.value else d.exposeHeaders)
    ensures s.credentials == (if o.credentials.Some? then o.credentials.value else d.credentials)
    ensures s.maxAge == (if o.maxAge.Some? then o.maxAge.value else d.maxAge)
  {
    CorsSettings(
      if o.origin.Some? then o.origin.value else d.origin,
      if o.allowMethods.Some? then o.allowMethods.value else d.allowMethods,
      if o.allowHeaders.Some? then o.allowHeaders.value else d.allowHeaders,
      if o.exposeHeaders.Some? then o.exposeHeaders.value else d.exposeHeaders,
      if o.credentials.Some? then o.credentials.value else d.credentials,
      if o.maxAge.Some? then o.maxAge.value else d.maxAge)
  }

  /** The Allow-Origin value, or None when the origin is not allowed. */
  function AllowOrigin(rule: OriginRule, v: Snapshot): (o: Option<string>)
    ensures rule.Fixed? ==> (o.Some? <==> rule.origin == "*" || rule.origin == Header(v.request, "origin"))
    ensures rule.Fixed? && o.Some? ==> o.value == rule.origin
    ensures rule.AnyOf? ==> (o.Some? <==> Header(v.request, "origin") in rule.origins)
    ensures rule.AnyOf? && o.Some? ==> o.value == Header(v.request, "origin")
    ensures rule.Computed? ==> o == Some(rule.f(v))
  {
    var reqOrigin := Header(v.request, "origin");
    match rule
    case Fixed(s) => if s == "*" || s == reqOrigin then Some(s) else None
    case AnyOf(l) => if reqOrigin in l then Some(reqOrigin) else None
    case Computed(f) => Some(f(v))
  }

  const AllowOriginName := "Access-Control-Allow-Origin"
  const CredentialsName := "Access-Control-Allow-Credentials"
  const MethodsName := "Access-Control-Allow-Methods"
  const HeadersName := "Access-Control-Allow-Headers"
  const ExposeName := "Access-Control-Expose-Headers"
  const MaxAgeName := "Access-Control-Max-Age"

  /** The CORS headers the middleware writes for this request. */
  function Emitted(v: Snapshot, s: CorsSettings): (h: map<string, string>)
    ensures AllowOriginName in h <==> AllowOrigin(s.origin, v).Some?
    ensures AllowOriginName in h ==> h[AllowOriginName] == AllowOrigin(s.origin, v).value
    ensures CredentialsName in h <==> s.credentials
    ensures CredentialsName in h ==> h[CredentialsName] == "true"
    ensures MethodsName in h <==> s.allowMethods != []
    ensures MethodsName in h ==> h[MethodsName] == Join(s.allowMethods, ", ")
    ensures HeadersName in h <==> s.allowHeaders != []
    ensures HeadersName in h ==> h[HeadersName] == Join(s.allowHeaders, ", ")
    ensures ExposeName in h <==> s.exposeHeaders != []
    ensures ExposeName in h ==> h[ExposeName] == Join(s.exposeHeaders, ", ")
    ensures MaxAgeName in h <==> s.maxAge != 0
    ensures MaxAgeName in h ==> h[MaxAgeName] == IntText(s.maxAge)
    ensures h.Keys <= {AllowOriginName, CredentialsName, MethodsName, HeadersName, ExposeName, MaxAgeName}
  {
    NamesDistinct();
    Written(map[], v, s)
  }

  /** The six conditional `ctx.set` calls, in order, on the headers `m`. */
  function Written(m: map<string, string>, v: Snapshot, s: CorsSettings): map<string, string> {
    var o := AllowOrigin(s.origin, v);
    var h1 := SetIf(m, o.Some?, AllowOriginName, if o.Some? then o.value else "");
    var h2 := SetIf(h1, s.credentials, CredentialsName, "true");
    var h3 := SetIf(h2, s.allowMethods != [], MethodsName, Join(s.allowMethods, ", "));
    var h4 := SetIf(h3, s.allowHeaders != [], HeadersName, Join(s.allowHeaders, ", "));
    var h5 := SetIf(h4, s.exposeHeaders != [], ExposeName, Join(s.exposeHeaders, ", "));
    SetIf(h5, s.maxAge != 0, MaxAgeName, IntText(s.maxAge))
  }

  /** Writing onto existing headers is the same as overlaying the CORS headers on them. */
  lemma WrittenOverlays(m: map<string, string>, v: Snapshot, s: CorsSettings)
    ensures Written(m, v, s) == m + Emitted(v, s)
  {
    var o := AllowOrigin(s.origin, v);
    var e: map<string, string> := map[];
    assert m == m + e;
    SetIfOverlay(m, e, o.Some?, AllowOriginName, if o.Some? then o.value else "");
    e := SetIf(e, o.Some?, AllowOriginName, if o.Some? then o.value else "");
    SetIfOverlay(m, e, s.credentials, CredentialsName, "true");
    e := SetIf(e, s.credentials, CredentialsName, "true");
    SetIfOverlay(m, e, s.allowMethods != [], MethodsName, Join(s.allowMethods, ", "));
    e := SetIf(e, s.allowMethods != [], MethodsName, Join(s.allowMethods, ", "));
    SetIfOverlay(m, e, s.allowHeaders != [], HeadersName, Join(s.allowHeaders, ", "));
    e := SetIf(e, s.allowHeaders != [], HeadersName, Join(s.allowHeaders, ", "));
    SetIfOverlay(m, e, s.exposeHeaders != [], ExposeName, Join(s.exposeHeaders, ", "));
    e := SetIf(e, s.exposeHeaders != [], ExposeName, Join(s.exposeHeaders, ", "));
    SetIfOverlay(m, e, s.maxAge != 0, MaxAgeName, IntText(s.maxAge));
  }

  lemma SetIfOverlay(m: map<string, string>, e: map<string, string>, c: bool, k: string, value: string)
    ensures SetIf(m + e, c, k, value) == m + SetIf(e, c, k, value)
  {
  }

  /** The six names are pairwise different. */
  lemma NamesDistinct()
    ensures AllowOriginName != CredentialsName && AllowOriginName != MethodsName && AllowOriginName != HeadersName
    ensures AllowOriginName != ExposeName && AllowOriginName != MaxAgeName
    ensures CredentialsName != MethodsName && CredentialsName != HeadersName && CredentialsName != ExposeName
    ensures CredentialsName != MaxAgeName && MethodsName != HeadersName && MethodsName != ExposeName
    ensures MethodsName != MaxAgeName && HeadersName != ExposeName && HeadersName != MaxAgeName
    ensures ExposeName != MaxAgeName
  {
    assert AllowOriginName[21] == 'O' && CredentialsName[21] == 'C' && MethodsName[21] == 'M' && HeadersName[21] == 'H';
    assert ExposeName[15] == 'E' && MaxAgeName[15] == 'M' && AllowOriginName[15] == 'A';
    assert CredentialsName[15] == 'A' && MethodsName[15] == 'A' && HeadersName[15] == 'A';
  }

  /** `if (c) ctx.set(k, value)`. */
  function SetIf(m: map<string, string>, c: bool, k: string, value: string): map<string, string> {
    if c then m[k := value] else m
  }

  /** `cors(options)`: the headers, then 204 for a preflight or `next()` otherwise. */
  method Cors(ctx: Context, s: CorsSettings) returns (callsNext: bool)
    modifies ctx
    ensures callsNext <==> old(ctx.request.verb) != "OPTIONS"
    ensures ctx.View() == old(ctx.View()).(
      headers := old(ctx.headers) + Emitted(old(ctx.View()), s),
      status := if callsNext then old(ctx.status) else 204)
  {
    ghost var v0 := ctx.View();
    var o := AllowOrigin(s.origin, ctx.View());
    var h := ctx.headers;
    h := SetIf(h, o.Some?, AllowOriginName, if o.Some? then o.value else "");
    h := SetIf(h, s.credentials, CredentialsName, "true");
    h := SetIf(h, s.allowMethods != [], MethodsName, Join(s.allowMethods, ", "));
    h := SetIf(h, s.allowHeaders != [], HeadersName, Join(s.allowHeaders, ", "));
    h := SetIf(h, s.exposeHeaders != [], ExposeName, Join(s.exposeHeaders, ", "));
    h := SetIf(h, s.maxAge != 0, MaxAgeName, IntText(s.maxAge));
    assert h == Written(v0.headers, v0, s);
    WrittenOverlays(v0.headers, v0, s);
    ctx.headers := h;
    if ctx.request.verb == "OPTIONS" {
      ctx.status := 204;
      return false;
    }
    callsNext := true;
  }

  /** A list rule echoes only listed origins; anything else gets no Allow-Origin at all. */
  lemma ListEchoesOnlyMembers(v: Snapshot, s: CorsSettings)
    requires s.origin.AnyOf?
    ensures AllowOriginName in Emitted(v, s) <==> Header(v.request, "origin") in s.origin.origins
    ensures AllowOriginName in Emitted(v, s) ==> Emitted(v, s)[AllowOriginName] in s.origin.origins
  {
  }

  /** The wildcard string allows every origin, with or without an Origin header. */
  lemma WildcardAllowsAll(v: Snapshot, s: CorsSettings)
    requires s.origin == Fixed("*")
    ensures AllowOriginName in Emitted(v, s) && Emitted(v, s)[AllowOriginName] == "*"
  {
  }
}
