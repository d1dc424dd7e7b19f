/**
 * The gateway's response-shape check (apps/bff/src/middleware/responseValidation.ts):
 * after the downstream handler has answered, a successful body, or the
 * `data` of an envelope, is replaced by what the schema makes of it.
 */
module ResponseValidation {
  import opened Js
  import opened Koa

  /** The response is left alone: no body, or an error status. */
  predicate Skips(v: Snapshot) {
    v.body.None? || (v.status != 0 && v.status >= 400)
  }

  /** `body && typeof body === 'object' && 'data' in body`. */
  predicate IsEnvelope(b: Json) {
    b.JObj? && Lookup(b.members, "data").Some?
  }

  /** What the check does to a body; None when `schema.parse` throws. */
  function Checked(b: Json, parse: Json -> Option<Json>): (r: Option<Json>)
    ensures IsEnvelope(b) ==> (r.Some? <==> parse(Field(b, "data").value).Some?)
    ensures IsEnvelope(b) && r.Some? ==>
      r.value.JObj? && Field(r.value, "data") == parse(Field(b, "data").value) &&
      Keys(r.value.members) == Keys(b.members) &&
      (forall k :: k != "data" ==> Field(r.value, k) == Field(b, k))
    ensures !IsEnvelope(b) ==> r == parse(b)
  {
    if IsEnvelope(b) then
      var parsed := parse(Field(b, "data").value);
      if parsed.Some? then PutKeyOrder(b.members, "data", parsed.value); Some(JObj(Put(b.members, "data", parsed.value))) else None
    else parse(b)
  }

  /**
   * The middleware once `next()` has returned; `parse` is
   * `schema.parse`, None when it throws. The exception escapes as `thrown`.
   */
  method ValidateBffResponse(ctx: Context, parse: Json -> Option<Json>, zodError: Json) returns (thrown: Option<Json>)
    modifies ctx
    ensures Skips(old(ctx.View())) ==> ctx.View() == old(ctx.View()) && thrown.None?
    ensures !Skips(old(ctx.View())) ==>
      var r := Checked(old(ctx.body).value, parse);
      (r.Some? ==> ctx.View() == old(ctx.View()).(body := r) && thrown.None?) &&
      (r.None? ==> ctx.View() == old(ctx.View()) && thrown == Some(zodError))
  {
    thrown := None;
    if ctx.body.None? {
      return;
    }
    if ctx.status != 0 && ctx.status >= 400 {
      return;
    }
    var body := ctx.body.value;
    if body.JObj? && Lookup(body.members, "data").Some? {
      var parsed := parse(Lookup(body.members, "data").value);
      if parsed.None? {
        thrown := Some(zodError);
        return;
      }
      ctx.body := Some(JObj(Put(body.members, "data", parsed.value)));
      return;
    }
    var whole := parse(body);
    if whole.None? {
      thrown := Some(zodError);
      return;
    }
    ctx.body := whole;
  }

  /** A successful envelope keeps its code and message while its data is validated. */
  lemma EnvelopeKeepsCodeAndMessage(code: int, message: string, data: Json, parse: Json -> Option<Json>)
    requires parse(data).Some?
    ensures var b := JObj([("code", Int(code)), ("message", JStr(message)), ("data", data)]);
      var r := Checked(b, parse);
      r.Some? && Field(r.value, "code") == Some(Int(code)) &&
      Field(r.value, "message") == Some(JStr(message)) && Field(r.value, "data") == parse(data)
  {
    var ms := [("code", Int(code)), ("message", JStr(message)), ("data", data)];
    assert "data"[0] != "code"[0] && "data"[0] != "message"[0];
    assert "code"[0] != "message"[0];
    assert ms[1..][1..][0] == ("data", data);
    assert Lookup(ms[1..][1..], "data") == Some(data);
    assert Lookup(ms, "data") == Some(data);
    assert Lookup(ms[1..], "message") == Some(JStr(message));
  }

  /** A schema that accepts and returns its input makes the check the identity. */
  lemma IdentitySchemaChangesNothing(b: Json, parse: Json -> Option<Json>)
    requires forall x :: parse(x) == Some(x)
    requires DistinctKeys(if b.JObj? then b.members else [])
    ensures Checked(b, parse) == Some(b)
  {
    if IsEnvelope(b) {
      PutExisting(b.members, "data", Field(b, "data").value);
    }
  }

  /** Writing back the value a unique key already holds leaves the object as it was. */
  lemma {:induction false} PutExisting(ms: seq<(string, Json)>, k: string, v: Json)
    requires Lookup(ms, k) == Some(v)
    requires DistinctKeys(ms)
    ensures Put(ms, k, v) == ms
  {
    if ms[0].0 == k {
      assert ms[0] == (k, v);
      assert [(k, v)] + ms[1..] == ms;
    } else {
      PutExisting(ms[1..], k, v);
      assert [ms[0]] + ms[1..] == ms;
    }
  }
}
