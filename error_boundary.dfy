/**
 * The gateway's outermost error boundary, written identically in
 * apps/bff/src/middleware/error.ts and packages/middlewares/src/error.ts:
 * any exception from the chain becomes a `{code, message}` answer.
 */
module ErrorBoundary {
  import opened Js
  import opened Koa

  datatype ErrorOptions = ErrorOptions(showDetailsInDev: bool, logErrors: bool)

  const DefaultOptions := ErrorOptions(true, true)

  /** `e?.status`, when it is truthy. */
  function ThrownStatus(e: Json): (s: Option<Json>)
    ensures s.Some? ==> Field(e, "status") == s && Truthy(s.value)
    ensures s.None? ==> !TruthyOpt(Field(e, "status"))
  {
    var s := Field(e, "status");
    if TruthyOpt(s) then s else None
  }

  /** The value `e?.status || (ctx.status && ctx.status >= 400 ? ctx.status : 500)` assigns. */
  function AssignedStatus(e: Json, current: int): (s: Json)
    ensures ThrownStatus(e).Some? ==> s == ThrownStatus(e).value
    ensures ThrownStatus(e).None? && current >= 400 ==> s == Int(current)
    ensures ThrownStatus(e).None? && current < 400 ==> s == Int(500)
  {
    if ThrownStatus(e).Some? then ThrownStatus(e).value
    else if current != 0 && current >= 400 then Int(current) else Int(500)
  }

  /** Koa's `ctx.status = s` accepts an integer from 100 to 999 and throws on anything else. */
  function StatusSet(s: Json): (c: Option<int>)
    ensures c.Some? ==> 100 <= c.value <= 999 && s == Int(c.value)
    ensures c.None? <==> !(s.JNum? && s.n.Fin? && IsIntegral(s.n.r) && 100 <= s.n.r.Floor <= 999)
  {
    if s.JNum? && s.n.Fin? && IsIntegral(s.n.r) && 100 <= s.n.r.Floor <= 999 then Some(s.n.r.Floor) else None
  }

  /** The status the catch block sets, or None when Koa refuses the value and the assignment throws. */
  function FinalStatus(e: Json, current: int): (s: Option<int>)
    ensures ThrownStatus(e).Some? ==> s == StatusSet(ThrownStatus(e).value)
    ensures ThrownStatus(e).None? && 400 <= current <= 999 ==> s == Some(current)
    ensures ThrownStatus(e).None? && current < 400 ==> s == Some(500)
  {
    StatusSet(AssignedStatus(e, current))
  }

  /** A thrown status that is an integer in Koa's range is the final status; any other truthy one makes the catch throw. */
  lemma ThrownStatusWins(e: Json, current: int)
    requires ThrownStatus(e).Some?
    ensures var t := ThrownStatus(e).value;
      FinalStatus(e, current).Some? <==> t.JNum? && t.n.Fin? && IsIntegral(t.n.r) && 100 <= t.n.r.Floor <= 999
    ensures FinalStatus(e, current).Some? ==> ThrownStatus(e) == Some(Int(FinalStatus(e, current).value))
  {
  }

  /** `{code, message: e?.message || 'Internal Error'}`, plus `stack` when details are shown. */
  function ErrorBody(e: Json, status: int, details: bool): (b: Json)
    ensures Field(b, "code") == Some(Int(status))
    ensures TruthyOpt(Field(e, "message")) ==> Field(b, "message") == Field(e, "message")
    ensures !TruthyOpt(Field(e, "message")) ==> Field(b, "message") == Some(JStr("Internal Error"))
    ensures Field(b, "stack").Some? ==> details
  {
    var m := Field(e, "message");
    var stack := Field(e, "stack");
    var ms := [("code", Int(status)), ("message", if TruthyOpt(m) then m.value else JStr("Internal Error"))];
    assert "code"[0] != "message"[0] && "stack"[0] != "code"[0] && "stack"[0] != "message"[0];
    assert Lookup(ms[1..], "message") == Some(ms[1].1);
    var extra := if details && stack.Some? then [("stack", stack.value)] else [];
    LookupAppend(ms, extra, "code");
    LookupAppend(ms, extra, "message");
    LookupAppend(ms, extra, "stack");
    JObj(ms + extra)
  }

  /** The stderr line: `error:<method> <path> <message>`. */
  function LogLine(v: Snapshot, e: Json): string {
    "error:" + v.request.verb + " " + v.request.path + " " + ToJsStringOpt(Field(e, "message"))
  }

  /** What the catch block does: answers on the context, or throws out of it from the status assignment. */
  datatype Handled = Answered(view: Snapshot) | Escaped(view: Snapshot)

  /** The context once the catch block has run on what the chain threw. */
  function Caught(v: Snapshot, e: Json, details: bool): (h: Handled)
    ensures FinalStatus(e, v.status).Some? ==>
      h.Answered? && Rejected(h.view, FinalStatus(e, v.status).value) && h.view == v.(status := h.view.status, body := h.view.body)
    ensures FinalStatus(e, v.status).None? ==> h == Escaped(v)
  {
    var status := FinalStatus(e, v.status);
    if status.None? then Escaped(v)
    else Answered(v.(status := status.value, body := Some(ErrorBody(e, status.value, details))))
  }

  /**
   * The middleware; `next` is the chain it wraps and `nodeEnv` is
   * `NODE_ENV`. `logged` is what it writes to stderr; `escaped` is the
   * error Koa's status setter throws when the thrown status is not one it
   * accepts, which leaves the middleware.
   */
  method Error(ctx: Context, o: ErrorOptions, nodeEnv: string, next: Snapshot -> Downstream)
    returns (logged: seq<string>, escaped: bool)
    modifies ctx
    ensures var d := next(old(ctx.View()));
      (d.thrown.None? ==> ctx.View() == d.view && logged == [] && !escaped) &&
      (d.thrown.Some? ==>
        Caught(d.view, d.thrown.value, o.showDetailsInDev && nodeEnv == "development") ==
          (if escaped then Escaped(ctx.View()) else Answered(ctx.View())) &&
        logged == (if o.logErrors then [LogLine(d.view, d.thrown.value)] else []))
  {
    logged, escaped := [], false;
    var d := next(ctx.View());
    ctx.Load(d.view);
    if d.thrown.None? {
      return;
    }
    var e := d.thrown.value;
    if o.logErrors {
      logged := [LogLine(ctx.View(), e)];
    }
    var status := StatusSet(AssignedStatus(e, ctx.status));
    if status.None? {
      escaped := true;
      return;
    }
    ctx.status := status.value;
    var details := o.showDetailsInDev && nodeEnv == "development";
    ctx.body := Some(ErrorBody(e, ctx.status, details));
  }

  /** Whenever the catch block answers, the body code matches the final status. */
  lemma CodeMatchesStatus(v: Snapshot, e: Json, details: bool)
    ensures var h := Caught(v, e, details);
      h.Answered? ==> h.view.body.Some? && Field(h.view.body.value, "code") == Some(Int(h.view.status))
  {
  }

  /** A status already set to an error survives an exception without its own status. */
  lemma ExistingErrorStatusKept(v: Snapshot, e: Json, details: bool)
    requires 400 <= v.status <= 999 && ThrownStatus(e).None?
    ensures Caught(v, e, details).Answered? && Caught(v, e, details).view.status == v.status
  {
  }

  /** An error without a truthy status is always answered: the catch block throws only on a status of its own. */
  lemma StatuslessAnswered(v: Snapshot, e: Json, details: bool)
    requires 100 <= v.status <= 999 && ThrownStatus(e).None?
    ensures Caught(v, e, details).Answered?
  {
  }

  /** Outside development the stack never leaks. */
  lemma NoStackOutsideDevelopment(v: Snapshot, e: Json)
    ensures var h := Caught(v, e, false);
      h.Answered? ==> h.view.body.Some? && Field(h.view.body.value, "stack").None?
  {
  }
}
