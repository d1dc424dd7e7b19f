/**
 * The backend's limiter family, apps/backend/src/middleware/rateLimit.ts:
 * the fixed-window limiter with its own defaults, two key generators and
 * two presets.
 */
module BackendRateLimit {
  import opened Js
  import opened Koa
  import opened FixedWindow
  import GatewayRateLimit

  const DefaultMessage := "请求过于频繁，请稍后再试"

  /** 60 s windows of 100 requests per address; `/health` and `/metrics` are never limited. */
  const Defaults := Settings(60 * 1000, 100, IpKey, ["/health", "/metrics"], DefaultMessage)

  function Configure(o: Options): (s: Settings)
    ensures o.windowMs.None? ==> s.windowMs == 60000
    ensures o.max.None? ==> s.max == 100
    ensures o.excludePaths.None? ==> s.excludePaths == ["/health", "/metrics"]
    ensures o.message.None? ==> s.message == DefaultMessage
  {
    Merge(o, Defaults)
  }

  /** The middleware `rateLimit(options)` returns, over `rateLimitStore`. */
  method RateLimit(ctx: Context, store: RateStore, o: Options, now: int, iso: int -> string) returns (callsNext: bool)
    modifies ctx, store
    ensures var s := Configure(o);
      Excluded(s.excludePaths, old(ctx.request.path)) ==>
        callsNext && ctx.View() == old(ctx.View()) && store.records == old(store.records)
    ensures var s := Configure(o);
      !Excluded(s.excludePaths, old(ctx.request.path)) ==>
        var key := s.keyGenerator(old(ctx.View()));
        store.records == After(old(store.records), key, now, s.windowMs, s.max) &&
        Outcome(ctx.View(), callsNext) == Respond(old(ctx.View()), Current(old(store.records), key, now, s.windowMs), s, now, iso)
  {
    callsNext := Limit(ctx, store, Configure(o), now, iso);
  }

  /** `user:<id>` for a signed-in caller, else `ip:<address>`. */
  function UserKey(v: Snapshot): (k: string)
    ensures TruthyOpt(Prop(v.ext, "userId")) ==> k == "user:" + ToJsString(v.ext["userId"])
    ensures !TruthyOpt(Prop(v.ext, "userId")) ==> k == "ip:" + v.request.ip
  {
    var id := Prop(v.ext, "userId");
    if TruthyOpt(id) then "user:" + ToJsString(id.value) else "ip:" + v.request.ip
  }

  /** `api:<address>:<method>:<path>`. */
  function ApiKey(v: Snapshot): string {
    "api:" + v.request.ip + ":" + v.request.verb + ":" + v.request.path
  }

  /** `userRateLimit`: the caller's options, then the user key on top of them. */
  function UserRateLimit(o: Options): (s: Settings)
    ensures forall v :: s.keyGenerator(v) == UserKey(v)
  {
    Configure(o.(keyGenerator := Some(UserKey)))
  }

  function ApiRateLimit(o: Options): (s: Settings)
    ensures forall v :: s.keyGenerator(v) == ApiKey(v)
  {
    Configure(o.(keyGenerator := Some(ApiKey)))
  }

  /** The preset written before the caller's options, which therefore win. */
  function Preset(windowMs: int, max: int, message: string, o: Options): Options {
    Options(
      if o.windowMs.Some? then o.windowMs else Some(windowMs),
      if o.max.Some? then o.max else Some(max),
      o.keyGenerator,
      o.excludePaths,
      if o.message.Some? then o.message else Some(message))
  }

  /** `strictRateLimit`: 5-minute windows of 10 requests unless the caller says otherwise. */
  function StrictRateLimit(o: Options): (s: Settings)
    ensures s.windowMs == (if o.windowMs.Some? then o.windowMs.value else 300000)
    ensures s.max == (if o.max.Some? then o.max.value else 10)
    ensures s.message == (if o.message.Some? then o.message.value else "操作过于频繁，请5分钟后再试")
    ensures s.excludePaths == Configure(o).excludePaths
  {
    Configure(Preset(5 * 60 * 1000, 10, "操作过于频繁，请5分钟后再试", o))
  }

  /** `relaxedRateLimit`: 1-minute windows of 1000 requests unless the caller says otherwise. */
  function RelaxedRateLimit(o: Options): (s: Settings)
    ensures s.windowMs == (if o.windowMs.Some? then o.windowMs.value else 60000)
    ensures s.max == (if o.max.Some? then o.max.value else 1000)
    ensures s.message == (if o.message.Some? then o.message.value else DefaultMessage)
  {
    Configure(Preset(60 * 1000, 1000, DefaultMessage, o))
  }

  /** A caller-supplied key generator cannot displace the user key. */
  lemma UserKeyWins(o: Options, g: Snapshot -> string, v: Snapshot)
    ensures UserRateLimit(o.(keyGenerator := Some(g))).keyGenerator(v) == UserKey(v)
  {
  }

  /** Signed-in callers are limited per user, anonymous ones per address, so the two never share a counter. */
  lemma UserAndAddressKeysDiffer(a: Snapshot, b: Snapshot)
    requires TruthyOpt(Prop(a.ext, "userId")) && !TruthyOpt(Prop(b.ext, "userId"))
    ensures UserKey(a) != UserKey(b)
  {
    assert UserKey(a)[0] == 'u' && UserKey(b)[0] == 'i';
  }

  /** Unlike the gateway's copy, these defaults also exempt `/metrics`. */
  lemma MetricsExempt()
    ensures Excluded(Configure(NoOptions).excludePaths, "/metrics")
    ensures !Excluded(GatewayRateLimit.Configure(NoOptions).excludePaths, "/metrics")
  {
    assert Configure(NoOptions).excludePaths[1] == "/metrics";
    assert StartsWith("/metrics", "/metrics");
    var g := GatewayRateLimit.Configure(NoOptions).excludePaths;
    assert g == ["/health"];
    assert !StartsWith("/metrics", "/health") by {
      assert "/metrics"[1] != "/health"[1];
    }
  }
}
