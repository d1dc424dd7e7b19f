/**
 * The gateway's trace-id stage, apps/bff/src/middleware/trace.ts: every
 * request carries one id, taken from `X-Trace-Id` or freshly made, in
 * `ctx.state.traceId` and in the response header.
 */
module Trace {
  import opened Js
  import opened Koa

  predicate IsHexDigit(c: char) { '0' <= c <= '9' || 'a' <= c <= 'f' }

  /** `n.toString(16)`. */
  function HexText(n: nat): (s: string)
    ensures |s| >= 1
    ensures forall i :: 0 <= i < |s| ==> IsHexDigit(s[i])
  {
    if n < 16 then ["0123456789abcdef"[n]] else HexText(n / 16) + ["0123456789abcdef"[n % 16]]
  }

  /**
   * `genTraceId()`: the clock in hex, a dash, and up to eight hex digits of
   * `Math.random()`; `randomDigits` is what follows `0.` in its hex text.
   */
  function GenTraceId(now: nat, randomDigits: string): (id: string)
    requires forall i :: 0 <= i < |randomDigits| ==> IsHexDigit(randomDigits[i])
    ensures var parts := Split(id, '-');
      |parts| == 2 && parts[0] == HexText(now) && |parts[1]| <= 8 &&
      parts[1] <= randomDigits && forall i :: 0 <= i < |parts[1]| ==> IsHexDigit(parts[1][i])
  {
    var r := randomDigits[..if |randomDigits| < 8 then |randomDigits| else 8];
    var id := HexText(now) + "-" + r;
    assert '-' !in HexText(now) by {
      forall i | 0 <= i < |HexText(now)| ensures HexText(now)[i] != '-' {
        assert IsHexDigit(HexText(now)[i]);
      }
    }
    assert '-' !in r by {
      forall i | 0 <= i < |r| ensures r[i] != '-' {
        assert IsHexDigit(randomDigits[i]);
      }
    }
    assert id == HexText(now) + ['-'] + r;
    SplitAtFirst(HexText(now), r, '-');
    SplitNoSeparator(r, '-');
    id
  }

  /** The id for this request: the inbound header when non-empty, else `generated`. */
  function ChosenId(v: Snapshot, generated: string): string {
    var incoming := Header(v.request, "x-trace-id");
    if incoming != "" then incoming else generated
  }

  /** `traceMiddleware()`; `now` and `randomDigits` stand for the clock and the random source. */
  method TraceMiddleware(ctx: Context, now: nat, randomDigits: string) returns (callsNext: bool)
    requires forall i :: 0 <= i < |randomDigits| ==> IsHexDigit(randomDigits[i])
    modifies ctx
    ensures callsNext
    ensures var id := ChosenId(old(ctx.View()), GenTraceId(now, randomDigits));
      ctx.View() == old(ctx.View()).(state := old(ctx.state)["traceId" := JStr(id)],
                                     headers := old(ctx.headers)["X-Trace-Id" := id])
  {
    var incoming := Header(ctx.request, "x-trace-id");
    var traceId := if incoming != "" then incoming else GenTraceId(now, randomDigits);
    ctx.state := ctx.state["traceId" := JStr(traceId)];
    ctx.headers := ctx.headers["X-Trace-Id" := traceId];
    callsNext := true;
  }

  /** A non-empty inbound id is reused verbatim; the state and the header always agree. */
  lemma ReusesInbound(v: Snapshot, generated: string)
    requires Header(v.request, "x-trace-id") != ""
    ensures ChosenId(v, generated) == v.request.headers["x-trace-id"]
  {
  }

  /** Without one, the id is a fresh one and never empty. */
  lemma GeneratesOtherwise(v: Snapshot, now: nat, randomDigits: string)
    requires forall i :: 0 <= i < |randomDigits| ==> IsHexDigit(randomDigits[i])
    requires Header(v.request, "x-trace-id") == ""
    ensures ChosenId(v, GenTraceId(now, randomDigits)) == GenTraceId(now, randomDigits) != ""
  {
  }
}
