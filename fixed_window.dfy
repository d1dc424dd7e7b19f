/**
 * The fixed-window rate limiter shared, almost word for word, by
 * apps/bff/src/middleware/rateLimit.ts, packages/middlewares/src/rateLimit.ts
 * and apps/backend/src/middleware/rateLimit.ts. Each key owns a record
 * `{count, resetTime}` in a module-level map; a request past `max` within
 * the window is answered with status 429 (section 4 of RFC 6585).
 */
module FixedWindow {
  import opened Js
  import opened Koa

  datatype Record = Record(count: int, resetTime: int)

  /** The limiter's settings once the caller's options and the defaults are merged. */
  datatype Settings = Settings(
    windowMs: int,
    max: int,
    keyGenerator: Snapshot -> string,
    excludePaths: seq<string>,
    message: string)

  /** The options a caller passes; None is a property left out (so its default applies). */
  datatype Options = Options(
    windowMs: Option<int>,
    max: Option<int>,
    keyGenerator: Option<Snapshot -> string>,
    excludePaths: Option<seq<string>>,
    message: Option<string>)

  const NoOptions := Options(None, None, None, None, None)

  /** The destructuring with defaults: each given option wins over its default. */
  function Merge(o: Options, d: Settings): (s: Settings)
    ensures s.windowMs == (if o.windowMs.Some? then o.windowMs.value else d.windowMs)
    ensures s.max == (if o.max.Some? then o.max.value else d.max)
    ensures s.excludePaths == (if o.excludePaths.Some? then o.excludePaths.value else d.excludePaths)
    ensures s.message == (if o.message.Some? then o.message.value else d.message)
    ensures forall v :: s.keyGenerator(v) == (if o.keyGenerator.Some? then o.keyGenerator.value(v) else d.keyGenerator(v))
  {
    Settings(
      if o.windowMs.Some? then o.windowMs.value else d.windowMs,
      if o.max.Some? then o.max.value else d.max,
      if o.keyGenerator.Some? then o.keyGenerator.value else d.keyGenerator,
      if o.excludePaths.Some? then o.excludePaths.value else d.excludePaths,
      if o.message.Some? then o.message.value else d.message)
  }

  /** The default key: the client address `ctx.ip`. */
  function IpKey(v: Snapshot): string { v.request.ip }

  /** Two settings that limit every request alike. */
  ghost predicate Alike(a: Settings, b: Settings) {
    a.windowMs == b.windowMs && a.max == b.max && a.excludePaths == b.excludePaths
    && a.message == b.message && forall v :: a.keyGenerator(v) == b.keyGenerator(v)
  }

  /** The module-level `store` map; every limiter built from one file shares it. */
  class RateStore {
    var records: map<string, Record>

    constructor ()
      ensures records == map[]
    {
      records := map[];
    }
  }

  /** `excludePaths.some(p => ctx.path.startsWith(p))`. */
  predicate Excluded(excludePaths: seq<string>, path: string) {
    exists i :: 0 <= i < |excludePaths| && StartsWith(path, excludePaths[i])
  }

  /** The record in force: the stored one, or a fresh window when none is stored or it has expired. */
  function Current(store: map<string, Record>, key: string, now: int, windowMs: int): (rec: Record)
    ensures key in store && now <= store[key].resetTime ==> rec == store[key]
    ensures key !in store || now > store[key].resetTime ==> rec == Record(0, now + windowMs)
  {
    if key !in store || now > store[key].resetTime then Record(0, now + windowMs) else store[key]
  }

  /** `Math.ceil((resetTime - now) / 1000)` on integer milliseconds. */
  function RetryAfter(resetTime: int, now: int): (r: int)
    ensures (r - 1) * 1000 < resetTime - now <= r * 1000
  {
    -((now - resetTime) / 1000)
  }

  /** The store after one non-excluded request for `key`. */
  function After(store: map<string, Record>, key: string, now: int, windowMs: int, max: int): (s: map<string, Record>)
    ensures s.Keys == store.Keys + {key}
    ensures forall k :: k in store && k != key ==> s[k] == store[k]
    ensures Current(store, key, now, windowMs).count >= max ==> s[key] == Current(store, key, now, windowMs)
    ensures Current(store, key, now, windowMs).count < max ==>
      s[key] == Current(store, key, now, windowMs).(count := Current(store, key, now, windowMs).count + 1)
  {
    var rec := Current(store, key, now, windowMs);
    store[key := if rec.count >= max then rec else rec.(count := rec.count + 1)]
  }

  /** The 429 body: `{code: 429, message, retryAfter}`. */
  function TooMany(message: string, retryAfter: int): (j: Json)
    ensures Field(j, "code") == Some(Int(429))
  {
    JObj([("code", Int(429)), ("message", JStr(message)), ("retryAfter", Int(retryAfter))])
  }

  /**
   * What the middleware does to the response for the record in force:
   * reject without `next()`, or set the three headers and call `next()`.
   * `iso` is `new Date(t).toISOString()`.
   */
  function Respond(v: Snapshot, rec: Record, s: Settings, now: int, iso: int -> string): (o: Outcome)
    ensures rec.count >= s.max <==> !o.callsNext
    ensures !o.callsNext ==> Rejected(o.view, 429) && o.view.headers == v.headers
    ensures o.callsNext ==>
      (o.view.status == v.status && o.view.body == v.body &&
       o.view.headers.Keys == v.headers.Keys + {"X-RateLimit-Limit", "X-RateLimit-Remaining", "X-RateLimit-Reset"} &&
       o.view.headers["X-RateLimit-Limit"] == IntText(s.max) &&
       o.view.headers["X-RateLimit-Remaining"] == IntText(s.max - (rec.count + 1)) &&
       o.view.headers["X-RateLimit-Reset"] == iso(rec.resetTime) &&
       s.max - (rec.count + 1) >= 0)
    ensures o.view.request == v.request && o.view.state == v.state && o.view.ext == v.ext
  {
    if rec.count >= s.max then
      Outcome(v.(status := 429, body := Some(TooMany(s.message, RetryAfter(rec.resetTime, now)))), false)
    else
      var count := rec.count + 1;
      Outcome(v.(headers := v.headers["X-RateLimit-Limit" := IntText(s.max)]
                                      ["X-RateLimit-Remaining" := IntText(s.max - count)]
                                      ["X-RateLimit-Reset" := iso(rec.resetTime)]), true)
  }

  /**
   * One request through the limiter with settings `s` at time `now`:
   * it reads and rewrites the store, then answers or calls `next()`.
   */
  method Limit(ctx: Context, store: RateStore, s: Settings, now: int, iso: int -> string) returns (callsNext: bool)
    modifies ctx, store
    ensures Excluded(s.excludePaths, old(ctx.request.path)) ==>
      callsNext && ctx.View() == old(ctx.View()) && store.records == old(store.records)
    ensures !Excluded(s.excludePaths, old(ctx.request.path)) ==>
      var key := s.keyGenerator(old(ctx.View()));
      var rec := Current(old(store.records), key, now, s.windowMs);
      store.records == After(old(store.records), key, now, s.windowMs, s.max) &&
      Outcome(ctx.View(), callsNext) == Respond(old(ctx.View()), rec, s, now, iso)
  {
    var excluded := IsExcluded(s.excludePaths, ctx.request.path);
    if excluded {
      return true;
    }
    var key := s.keyGenerator(ctx.View());
    var rec := Count(store, key, now, s.windowMs, s.max);
    callsNext := Answer(ctx, rec, s, now, iso);
  }

  /**
   * The store half of one request: a missing or expired record is replaced
   * by a fresh window, and the count goes up unless it has reached `max`.
   * Returns the record in force before the increment.
   */
  method Count(store: RateStore, key: string, now: int, windowMs: int, max: int) returns (rec: Record)
    modifies store
    ensures rec == Current(old(store.records), key, now, windowMs)
    ensures store.records == After(old(store.records), key, now, windowMs, max)
  {
    if key !in store.records || now > store.records[key].resetTime {
      rec := Record(0, now + windowMs);
      store.records := store.records[key := rec];
    } else {
      rec := store.records[key];
      assert store.records == store.records[key := rec];
    }
    if rec.count < max {
      store.records := store.records[key := rec.(count := rec.count + 1)];
    }
  }

  /** The response half: the 429 rejection, or the three headers and `next()`. */
  method Answer(ctx: Context, rec: Record, s: Settings, now: int, iso: int -> string) returns (callsNext: bool)
    modifies ctx
    ensures Outcome(ctx.View(), callsNext) == Respond(old(ctx.View()), rec, s, now, iso)
  {
    ghost var v := ctx.View();
    if rec.count >= s.max {
      var body := TooMany(s.message, RetryAfter(rec.resetTime, now));
      ctx.status, ctx.body := 429, Some(body);
      assert ctx.View() == v.(status := 429, body := Some(body));
      return false;
    }
    var h := ctx.headers["X-RateLimit-Limit" := IntText(s.max)]
                        ["X-RateLimit-Remaining" := IntText(s.max - (rec.count + 1))]
                        ["X-RateLimit-Reset" := iso(rec.resetTime)];
    ctx.headers := h;
    assert ctx.View() == v.(headers := h);
    callsNext := true;
  }

  /** The loop over `excludePaths`, stopping at the first prefix of `path`. */
  method IsExcluded(excludePaths: seq<string>, path: string) returns (b: bool)
    ensures b == Excluded(excludePaths, path)
  {
    var i := 0;
    while i < |excludePaths|
      invariant 0 <= i <= |excludePaths|
      invariant forall j :: 0 <= j < i ==> !StartsWith(path, excludePaths[j])
    {
      if StartsWith(path, excludePaths[i]) {
        return true;
      }
      i := i + 1;
    }
    return false;
  }

  // ------------------------------------------------------------ invariants

  /** Every stored count lies in `0..max`. */
  predicate Bounded(store: map<string, Record>, max: int) {
    forall k :: k in store ==> 0 <= store[k].count <= max
  }

  /** With `max >= 0` a request keeps every count in `0..max`, so Remaining never goes negative. */
  lemma AfterBounded(store: map<string, Record>, key: string, now: int, windowMs: int, max: int)
    requires max >= 0
    requires Bounded(store, max)
    ensures Bounded(After(store, key, now, windowMs, max), max)
  {
    var s := After(store, key, now, windowMs, max);
    forall k | k in s ensures 0 <= s[k].count <= max {
      if k != key {
        assert s[k] == store[k];
      }
    }
  }

  /** Every window ends no later than `windowMs` after the clock reading `t`. */
  predicate WindowsWithin(store: map<string, Record>, t: int, windowMs: int) {
    forall k :: k in store ==> store[k].resetTime <= t + windowMs
  }

  /** A non-decreasing clock keeps every window within `windowMs` of the latest request. */
  lemma AfterWithin(store: map<string, Record>, key: string, t: int, now: int, windowMs: int, max: int)
    requires t <= now
    requires WindowsWithin(store, t, windowMs)
    ensures WindowsWithin(After(store, key, now, windowMs, max), now, windowMs)
  {
    var s := After(store, key, now, windowMs, max);
    forall k | k in s ensures s[k].resetTime <= now + windowMs {
      if k != key {
        assert s[k] == store[k];
      }
    }
  }

  /**
   * Under that invariant a rejection's `retryAfter` lies between 0 and
   * `ceil(windowMs / 1000)`.
   */
  lemma RetryAfterBound(store: map<string, Record>, key: string, t: int, now: int, windowMs: int)
    requires t <= now && windowMs >= 0
    requires WindowsWithin(store, t, windowMs)
    ensures var rec := Current(store, key, now, windowMs);
      0 <= RetryAfter(rec.resetTime, now) <= RetryAfter(now + windowMs, now)
  {
    var rec := Current(store, key, now, windowMs);
    var r := RetryAfter(rec.resetTime, now);
    var w := RetryAfter(now + windowMs, now);
    assert rec.resetTime <= now + windowMs;
    assert now <= rec.resetTime;
    assert (r - 1) * 1000 < rec.resetTime - now <= windowMs <= w * 1000;
  }

  // ------------------------------------------------------------ one window

  /** How many of the requests at times `nows` for one key the limiter admits. */
  function Admitted(store: map<string, Record>, key: string, nows: seq<int>, windowMs: int, max: int): nat
    decreases |nows|
  {
    if nows == [] then 0
    else
      var rec := Current(store, key, nows[0], windowMs);
      (if rec.count < max then 1 else 0) + Admitted(After(store, key, nows[0], windowMs, max), key, nows[1..], windowMs, max)
  }

  function Min(a: int, b: int): int { if a <= b then a else b }

  /**
   * Within one window a key that has used `c` of its `max` requests is
   * admitted exactly `min(n, max - c)` more times out of `n`.
   */
  lemma {:induction false} AdmittedInWindow(store: map<string, Record>, key: string, nows: seq<int>, windowMs: int, max: int)
    requires key in store && 0 <= store[key].count <= max
    requires forall i :: 0 <= i < |nows| ==> nows[i] <= store[key].resetTime
    ensures Admitted(store, key, nows, windowMs, max) == Min(|nows|, max - store[key].count)
    decreases |nows|
  {
    if nows != [] {
      var s := After(store, key, nows[0], windowMs, max);
      assert s[key].resetTime == store[key].resetTime;
      assert forall i :: 0 <= i < |nows[1..]| ==> nows[1..][i] <= s[key].resetTime by {
        forall i | 0 <= i < |nows[1..]| ensures nows[1..][i] <= s[key].resetTime {
          assert nows[1..][i] == nows[i + 1];
        }
      }
      AdmittedInWindow(s, key, nows[1..], windowMs, max);
    }
  }

  /** A fresh key is admitted at most `max` times in the window its first request opens. */
  lemma FreshKeyAdmitsAtMostMax(store: map<string, Record>, key: string, nows: seq<int>, windowMs: int, max: int)
    requires key !in store && max >= 1 && windowMs >= 0
    requires |nows| >= 1
    requires forall i :: 0 <= i < |nows| ==> nows[0] <= nows[i] <= nows[0] + windowMs
    ensures Admitted(store, key, nows, windowMs, max) == Min(|nows|, max)
  {
    var s := After(store, key, nows[0], windowMs, max);
    assert s[key] == Record(1, nows[0] + windowMs);
    assert forall i :: 0 <= i < |nows[1..]| ==> nows[1..][i] <= s[key].resetTime by {
      forall i | 0 <= i < |nows[1..]| ensures nows[1..][i] <= s[key].resetTime {
        assert nows[1..][i] == nows[i + 1];
      }
    }
    AdmittedInWindow(s, key, nows[1..], windowMs, max);
  }

  /**
   * Keys are not scoped to a limiter: two limiters over one store with the
   * same key generator draw on one counter, so a request admitted under a
   * large `max` counts against a smaller one.
   */
  lemma SharedCounter(store: map<string, Record>, key: string, now: int, windowMs: int, bigMax: int, smallMax: int)
    requires windowMs >= 0 && Current(store, key, now, windowMs).count < bigMax
    ensures var s := After(store, key, now, windowMs, bigMax);
      Current(s, key, now, windowMs).count == Current(store, key, now, windowMs).count + 1 &&
      (Current(s, key, now, windowMs).count >= smallMax ==> After(s, key, now, windowMs, smallMax) == s)
  {
    var s := After(store, key, now, windowMs, bigMax);
    assert now <= s[key].resetTime;
  }
}
