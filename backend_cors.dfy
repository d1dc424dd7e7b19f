/** The backend's CORS middleware and its preset, apps/backend/src/middlewares/cors.ts. */
module BackendCors {
  import opened Js
  import opened Koa
  import opened CorsPolicy

  /** Any origin, five methods, no credentials, nothing exposed, a day's preflight cache. */
  const Defaults := CorsSettings(
    Fixed("*"),
    ["GET", "POST", "PUT", "DELETE", "OPTIONS"],
    ["Content-Type", "Authorization", "X-Requested-With"],
    [],
    false,
    86400)

  /** `cors(options)`: the settings after the defaults are filled in. */
  function Configure(o: CorsOptions): (s: CorsSettings)
    ensures o == NoCorsOptions ==> s == Defaults
    ensures o.credentials.None? ==> !s.credentials
    ensures o.exposeHeaders.None? ==> s.exposeHeaders == []
  {
    MergeCors(o, Defaults)
  }

  /** The middleware `cors(options)` returns. */
  method Cors(ctx: Context, o: CorsOptions) returns (callsNext: bool)
    modifies ctx
    ensures callsNext <==> old(ctx.request.verb) != "OPTIONS"
    ensures ctx.View() == old(ctx.View()).(
      headers := old(ctx.headers) + Emitted(old(ctx.View()), Configure(o)),
      status := if callsNext then old(ctx.status) else 204)
  {
    callsNext := CorsPolicy.Cors(ctx, Configure(o));
  }

  const AllowedOrigins := ["http://localhost:3000", "http://localhost:3001", "http://localhost:5173", "http://localhost:5174"]

  /**
   * The preset's origin function; `nodeEnv` is `process.env.NODE_ENV`.
   * Development echoes any origin (or `*` without one); elsewhere a listed
   * origin is echoed and any other gets the first listed one.
   */
  function DefaultOrigin(nodeEnv: Option<string>, v: Snapshot): (o: string)
    ensures nodeEnv == Some("development") ==> o == (if Header(v.request, "origin") != "" then Header(v.request, "origin") else "*")
    ensures nodeEnv != Some("development") ==> o in AllowedOrigins
    ensures nodeEnv != Some("development") ==> (o == Header(v.request, "origin") <==> Header(v.request, "origin") in AllowedOrigins)
  {
    var origin := Header(v.request, "origin");
    if nodeEnv == Some("development") then
      if origin != "" then origin else "*"
    else if origin in AllowedOrigins then origin else AllowedOrigins[0]
  }

  /** `defaultCors`: the preset settings. */
  function DefaultCors(nodeEnv: Option<string>): (s: CorsSettings)
    ensures s.credentials && s.maxAge == 86400
    ensures "PATCH" in s.allowMethods && "OPTIONS" in s.allowMethods
    ensures forall v :: AllowOrigin(s.origin, v) == Some(DefaultOrigin(nodeEnv, v))
  {
    Configure(CorsOptions(
      Some(Computed(v => DefaultOrigin(nodeEnv, v))),
      Some(["GET", "POST", "PUT", "DELETE", "OPTIONS", "PATCH"]),
      Some(["Content-Type", "Authorization", "X-Requested-With", "X-CSRF-Token", "Accept", "Accept-Language", "Content-Language"]),
      Some(["X-Total-Count", "X-Page", "X-Page-Size"]),
      Some(true),
      Some(86400)))
  }

  /**
   * Outside development the preset never refuses: an unlisted origin gets
   * the first listed origin as its Allow-Origin, which the browser then rejects.
   */
  lemma UnlistedOriginGetsFirst(nodeEnv: Option<string>, v: Snapshot)
    requires nodeEnv != Some("development")
    requires Header(v.request, "origin") !in AllowedOrigins
    ensures var h := Emitted(v, DefaultCors(nodeEnv));
      AllowOriginName in h && h[AllowOriginName] == "http://localhost:3000"
  {
  }

  /**
   * A credentialed wildcard is sent only in development to a request
   * without an Origin header (or with the literal origin `*`).
   */
  lemma PresetWildcardOnlyInDevelopment(nodeEnv: Option<string>, v: Snapshot)
    requires (Header(v.request, "origin") != "" && Header(v.request, "origin") != "*") || nodeEnv != Some("development")
    ensures var h := Emitted(v, DefaultCors(nodeEnv));
      AllowOriginName in h && h[AllowOriginName] != "*"
  {
    var s := DefaultCors(nodeEnv);
    var o := DefaultOrigin(nodeEnv, v);
    assert AllowOrigin(s.origin, v) == Some(o);
    assert o != "*" by {
      if nodeEnv != Some("development") {
        assert o in AllowedOrigins;
        assert |"*"| == 1 && forall i :: 0 <= i < |AllowedOrigins| ==> |AllowedOrigins[i]| == 21;
      }
    }
  }
}
