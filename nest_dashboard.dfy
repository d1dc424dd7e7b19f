/**
 * The query clamps of the integrated backend's dashboard controller,
 * apps/backend-integrated/src/modules/dashboard/dashboard.controller.ts:
 * the `days` and `limit` query strings become a number in a fixed range
 * before the service is asked.
 */
module NestDashboard {
  import opened Js

  /** `Number.isFinite(n) && n > 0 && n <= max`. */
  predicate InRange(n: Num, max: real) {
    n.Fin? && 0.0 < n.r <= max
  }

  /**
   * `q ? Number(q) : dflt`, then kept when in range and replaced by `dflt`
   * otherwise. `toNumber` is JavaScript's `Number` on strings. A repeated
   * parameter (`?days=1&days=2`) arrives as an array, whose `Number` is NaN
   * and so falls back to `dflt`; it is not represented by `q`.
   */
  function Clamp(q: Option<string>, toNumber: string -> Num, max: real, dflt: real): (r: Num)
    requires 0.0 < dflt <= max
    ensures InRange(r, max)
    ensures q.Some? && q.value != "" && InRange(toNumber(q.value), max) ==> r == toNumber(q.value)
    ensures !(q.Some? && q.value != "" && InRange(toNumber(q.value), max)) ==> r == Fin(dflt)
  {
    var n := if q.Some? && q.value != "" then toNumber(q.value) else Fin(dflt);
    if InRange(n, max) then n else Fin(dflt)
  }

  /** `getUserGrowth`: the number of days handed to the service. */
  function SafeDays(daysQuery: Option<string>, toNumber: string -> Num): (d: Num)
    ensures InRange(d, 180.0)
    ensures daysQuery.None? || daysQuery == Some("") ==> d == Fin(30.0)
  {
    Clamp(daysQuery, toNumber, 180.0, 30.0)
  }

  /** `getRecentActivities`: the number of activities handed to the service. */
  function SafeLimit(limitQuery: Option<string>, toNumber: string -> Num): (l: Num)
    ensures InRange(l, 100.0)
    ensures limitQuery.None? || limitQuery == Some("") ==> l == Fin(10.0)
  {
    Clamp(limitQuery, toNumber, 100.0, 10.0)
  }

  /**
   * Clamping is idempotent: feeding the text of a clamped value back in
   * returns it, provided `Number` reads that text back as the value.
   */
  lemma ClampIdempotent(q: Option<string>, toNumber: string -> Num, max: real, dflt: real, text: string)
    requires 0.0 < dflt <= max
    requires text != "" && toNumber(text) == Clamp(q, toNumber, max, dflt)
    ensures Clamp(Some(text), toNumber, max, dflt) == Clamp(q, toNumber, max, dflt)
  {
  }

  /** A value outside the range, or not a finite number at all, falls back to the default. */
  lemma OutOfRangeFallsBack(q: string, toNumber: string -> Num)
    requires q != "" && (toNumber(q).NaN? || toNumber(q).PosInf? || toNumber(q) == Fin(0.0) || toNumber(q) == Fin(181.0))
    ensures SafeDays(Some(q), toNumber) == Fin(30.0)
  {
  }
}
