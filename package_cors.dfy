/** The gateway's CORS middleware, packages/middlewares/src/cors.ts. */
module PackageCors {
  import opened Js
  import opened Koa
  import opened CorsPolicy

  /** Any origin, six methods, credentials on, a day's preflight cache. */
  const Defaults := CorsSettings(
    Fixed("*"),
    ["GET", "HEAD", "PUT", "POST", "DELETE", "PATCH"],
    ["Content-Type", "Authorization", "X-Trace-Id"],
    ["Content-Length", "Date", "X-Request-Id"],
    true,
    86400)

  /** `cors(options)`: the settings after the defaults are filled in. */
  function Configure(o: CorsOptions): (s: CorsSettings)
    ensures o == NoCorsOptions ==> s == Defaults
    ensures o.origin.Some? ==> s.origin == o.origin.value
    ensures o.origin.None? ==> s.origin == Fixed("*")
  {
    MergeCors(o, Defaults)
  }

  /** The middleware `cors(options)` returns. */
  method Cors(ctx: Context, o: CorsOptions) returns (callsNext: bool)
    modifies ctx
    ensures callsNext <==> old(ctx.request.verb) != "OPTIONS"
    ensures ctx.View() == old(ctx.View()).(
      headers := old(ctx.headers) + Emitted(old(ctx.View()), Configure(o)),
      status := if callsNext then old(ctx.status) else 204)
  {
    callsNext := CorsPolicy.Cors(ctx, Configure(o));
  }

  /** With the defaults every response carries the wildcard origin and the credentials flag. */
  lemma DefaultsAllowAnyWithCredentials(v: Snapshot)
    ensures var h := Emitted(v, Configure(NoCorsOptions));
      AllowOriginName in h && h[AllowOriginName] == "*" &&
      CredentialsName in h && h[CredentialsName] == "true" &&
      MaxAgeName in h
  {
  }
}
