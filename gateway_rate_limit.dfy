/** The gateway's limiter, apps/bff/src/middleware/rateLimit.ts, as an instance of the fixed-window model. */
module GatewayRateLimit {
  import opened Js
  import opened Koa
  import opened FixedWindow

  /** 60 s windows of 100 requests per client address; `/health` is never limited. */
  const Defaults := Settings(60000, 100, IpKey, ["/health"], "Too Many Requests")

  /** `rateLimit(options)`: the settings after the defaults are filled in. */
  function Configure(o: Options): (s: Settings)
    ensures o == NoOptions ==>
      s.windowMs == 60000 && s.max == 100 && s.excludePaths == ["/health"] &&
      s.message == "Too Many Requests" && forall v :: s.keyGenerator(v) == v.request.ip
    ensures o.max.Some? ==> s.max == o.max.value
  {
    Merge(o, Defaults)
  }

  /** The middleware `rateLimit(options)` returns, over this file's store. */
  method RateLimit(ctx: Context, store: RateStore, o: Options, now: int, iso: int -> string) returns (callsNext: bool)
    modifies ctx, store
    ensures var s := Configure(o);
      Excluded(s.excludePaths, old(ctx.request.path)) ==>
        callsNext && ctx.View() == old(ctx.View()) && store.records == old(store.records)
    ensures var s := Configure(o);
      !Excluded(s.excludePaths, old(ctx.request.path)) ==>
        var key := s.keyGenerator(old(ctx.View()));
        store.records == After(old(store.records), key, now, s.windowMs, s.max) &&
        Outcome(ctx.View(), callsNext) == Respond(old(ctx.View()), Current(old(store.records), key, now, s.windowMs), s, now, iso)
  {
    callsNext := Limit(ctx, store, Configure(o), now, iso);
  }

  /** With the defaults, a health check passes untouched however often it comes. */
  lemma HealthBypasses(path: string)
    requires StartsWith(path, "/health")
    ensures Excluded(Configure(NoOptions).excludePaths, path)
  {
    assert Configure(NoOptions).excludePaths[0] == "/health";
  }
}
