/** The shared-package limiter, packages/middlewares/src/rateLimit.ts, as an instance of the fixed-window model. */
module PackageRateLimit {
  import opened Js
  import opened Koa
  import opened FixedWindow
  import GatewayRateLimit

  const Defaults := Settings(60000, 100, IpKey, ["/health"], "Too Many Requests")

  /** `rateLimit(options)`: the settings after the defaults are filled in. */
  function Configure(o: Options): (s: Settings)
    ensures o.windowMs.None? ==> s.windowMs == 60000
    ensures o.max.None? ==> s.max == 100
    ensures o.excludePaths.None? ==> s.excludePaths == ["/health"]
    ensures o.keyGenerator.None? ==> forall v :: s.keyGenerator(v) == v.request.ip
  {
    Merge(o, Defaults)
  }

  /** The middleware `rateLimit(options)` returns, over this package's store. */
  method RateLimit(ctx: Context, store: RateStore, o: Options, now: int, iso: int -> string) returns (callsNext: bool)
    modifies ctx, store
    ensures var s := Configure(o);
      Excluded(s.excludePaths, old(ctx.request.path)) ==>
        callsNext && ctx.View() == old(ctx.View()) && store.records == old(store.records)
    ensures var s := Configure(o);
      !Excluded(s.excludePaths, old(ctx.request.path)) ==>
        var key := s.keyGenerator(old(ctx.View()));
        store.records == After(old(store.records), key, now, s.windowMs, s.max) &&
        Outcome(ctx.View(), callsNext) == Respond(old(ctx.View()), Current(old(store.records), key, now, s.windowMs), s, now, iso)
  {
    callsNext := Limit(ctx, store, Configure(o), now, iso);
  }

  /** For every choice of options this copy limits exactly as the gateway's does. */
  lemma SameAsGateway(o: Options)
    ensures Alike(Configure(o), GatewayRateLimit.Configure(o))
  {
  }
}
