/**
 * The backend's request logger, apps/backend/src/middlewares/logger.ts:
 * the redaction of sensitive fields (`sanitizeData`) and the excluded-path
 * bypass. Log lines are returned instead of written; durations, which
 * need a clock, are left out of them.
 */
module BackendLogger {
  import opened Js
  import opened Koa

  const RedactedText := "[REDACTED]"

  datatype LoggerOptions = LoggerOptions(logBody: bool, logResponse: bool, excludePaths: seq<string>, sensitiveFields: seq<string>)

  const DefaultOptions := LoggerOptions(false, false, ["/health", "/metrics"], ["password", "token", "authorization"])

  /** `{...data}` for an object or an array: arrays become objects keyed by index. */
  function Spread(d: Json): (ms: seq<(string, Json)>)
    requires IsObjectValue(d)
    ensures d.JObj? ==> ms == d.members
    ensures d.JArr? ==> |ms| == |d.items| && forall i :: 0 <= i < |ms| ==> ms[i].1 == d.items[i]
    ensures forall i :: 0 <= i < |ms| ==> ms[i].1 < d
  {
    if d.JObj? then d.members else Indexed(d.items, 0)
  }

  /** The elements from `from` on, keyed by their index. */
  function Indexed(items: seq<Json>, from: nat): (ms: seq<(string, Json)>)
    ensures |ms| == |items|
    ensures forall i :: 0 <= i < |ms| ==> ms[i].1 == items[i]
    decreases |items|
  {
    if items == [] then [] else [(IndexKey(from), items[0])] + Indexed(items[1..], from + 1)
  }

  function IndexKey(i: nat): string { NatText(i) }

  /** The array's keys are "0", "1", … */
  lemma {:induction false} IndexedKeys(items: seq<Json>, from: nat)
    ensures forall i :: 0 <= i < |items| ==> Indexed(items, from)[i].0 == IndexKey(from + i)
    decreases |items|
  {
    if items != [] {
      IndexedKeys(items[1..], from + 1);
    }
  }

  /** The first loop: each sensitive field with a truthy value is overwritten, in field order. */
  function Redact(ms: seq<(string, Json)>, fields: seq<string>): (r: seq<(string, Json)>)
    ensures |r| == |ms|
    ensures forall i :: 0 <= i < |r| ==> r[i].0 == ms[i].0 && (r[i].1 == ms[i].1 || r[i].1 == JStr(RedactedText))
    decreases |fields|
  {
    if fields == [] then ms
    else
      var next := if TruthyOpt(Lookup(ms, fields[0])) then Put(ms, fields[0], JStr(RedactedText)) else ms;
      assert |next| == |ms| && forall i :: 0 <= i < |next| ==> next[i].0 == ms[i].0 && (next[i].1 == ms[i].1 || next[i].1 == JStr(RedactedText)) by {
        if TruthyOpt(Lookup(ms, fields[0])) { PutInPlace(ms, fields[0], JStr(RedactedText)); }
      }
      Redact(next, fields[1..])
  }

  /** Overwriting an existing key changes that entry and no other. */
  lemma PutInPlace(ms: seq<(string, Json)>, k: string, v: Json)
    requires Lookup(ms, k).Some?
    ensures var r := Put(ms, k, v);
      |r| == |ms| && forall i :: 0 <= i < |r| ==> r[i].0 == ms[i].0 && (r[i].1 == ms[i].1 || r[i].1 == v)
  {
    assert Put(ms, k, v) == Assigned(ms, k, v);
    AssignedInPlace(ms, k, v);
  }

  lemma {:induction false} AssignedInPlace(ms: seq<(string, Json)>, k: string, v: Json)
    requires Lookup(ms, k).Some?
    ensures var r := Assigned(ms, k, v);
      |r| == |ms| && forall i :: 0 <= i < |r| ==> r[i].0 == ms[i].0 && (r[i].1 == ms[i].1 || r[i].1 == v)
  {
    var r := Assigned(ms, k, v);
    if ms[0].0 == k {
      assert r == [(k, v)] + ms[1..];
      assert forall i :: 1 <= i < |r| ==> r[i] == ms[i];
    } else {
      assert Lookup(ms[1..], k) == Lookup(ms, k);
      AssignedInPlace(ms[1..], k, v);
      var rest := Assigned(ms[1..], k, v);
      assert r == [ms[0]] + rest;
      forall i | 1 <= i < |r|
        ensures r[i].0 == ms[i].0 && (r[i].1 == ms[i].1 || r[i].1 == v)
      {
        assert r[i] == rest[i - 1] && ms[i] == ms[1..][i - 1];
      }
    }
  }

  /** `sanitizeData(data, sensitiveFields)`. */
  function Sanitize(d: Json, fields: seq<string>): (r: Json)
    ensures !Truthy(d) || !IsObjectValue(d) ==> r == d
    ensures IsObjectValue(d) ==> r.JObj?
    decreases d, 1
  {
    if !Truthy(d) || !IsObjectValue(d) then d
    else
      var red := Redact(Spread(d), fields);
      JObj(Walk(d, red, fields))
  }

  /**
   * The second loop, from entry `i` on: every entry whose value is an
   * object is replaced by its sanitised copy.
   */
  function Walk(d: Json, red: seq<(string, Json)>, fields: seq<string>): (w: seq<(string, Json)>)
    requires forall j :: 0 <= j < |red| && IsObjectValue(red[j].1) ==> red[j].1 < d
    ensures |w| == |red|
    ensures forall j :: 0 <= j < |red| ==> w[j] == (red[j].0, if IsObjectValue(red[j].1) then Sanitize(red[j].1, fields) else red[j].1)
    decreases d, 0, |red|
  {
    if red == [] then []
    else
      var v := red[0].1;
      var rest := Walk(d, red[1..], fields);
      var w := [(red[0].0, if IsObjectValue(v) then Sanitize(v, fields) else v)] + rest;
      assert forall j :: 1 <= j < |red| ==> w[j] == rest[j - 1] && red[j] == red[1..][j - 1];
      w
  }

  /** `sanitizeData`: a shallow copy, the redaction loop, then the recursion loop over the copy. */
  method SanitizeData(data: Json, fields: seq<string>) returns (r: Json)
    ensures r == Sanitize(data, fields)
    decreases data, 1
  {
    if !Truthy(data) || !IsObjectValue(data) {
      return data;
    }
    var sanitized := RedactFields(Spread(data), fields);
    sanitized := SanitizeChildren(data, sanitized, fields);
    r := JObj(sanitized);
  }

  /** The first loop of `sanitizeData`: overwrite each truthy sensitive field. */
  method RedactFields(ms: seq<(string, Json)>, fields: seq<string>) returns (r: seq<(string, Json)>)
    ensures r == Redact(ms, fields)
  {
    r := ms;
    var k := 0;
    while k < |fields|
      invariant 0 <= k <= |fields|
      invariant Redact(r, fields[k..]) == Redact(ms, fields)
    {
      assert fields[k..][1..] == fields[k + 1..];
      if TruthyOpt(Lookup(r, fields[k])) {
        r := Put(r, fields[k], JStr(RedactedText));
      }
      k := k + 1;
    }
    assert fields[|fields|..] == [];
  }

  /** The second loop of `sanitizeData`: every object-valued entry is sanitised in turn. */
  method SanitizeChildren(d: Json, red: seq<(string, Json)>, fields: seq<string>) returns (r: seq<(string, Json)>)
    requires forall j :: 0 <= j < |red| && IsObjectValue(red[j].1) ==> red[j].1 < d
    ensures r == Walk(d, red, fields)
    decreases d, 0
  {
    ghost var w := Walk(d, red, fields);
    r := red;
    var i := 0;
    while i < |r|
      invariant 0 <= i <= |r| == |red|
      invariant forall j :: 0 <= j < i ==> r[j] == w[j]
      invariant forall j :: i <= j < |red| ==> r[j] == red[j]
    {
      var v := r[i].1;
      if IsObjectValue(v) {
        var inner := SanitizeData(v, fields);
        r := r[i := (r[i].0, inner)];
      }
      i := i + 1;
    }
  }

  /** With distinct keys, the redaction loop acts entry by entry. */
  lemma {:induction false} RedactEntries(ms: seq<(string, Json)>, fields: seq<string>)
    requires DistinctKeys(ms)
    ensures var r := Redact(ms, fields);
      forall i :: 0 <= i < |ms| ==>
        r[i] == (ms[i].0, if ms[i].0 in fields && Truthy(ms[i].1) then JStr(RedactedText) else ms[i].1)
    decreases |fields|
  {
    if fields != [] {
      var f := fields[0];
      RedactStep(ms, f);
      var next := if TruthyOpt(Lookup(ms, f)) then Put(ms, f, JStr(RedactedText)) else ms;
      RedactEntries(next, fields[1..]);
      var r := Redact(ms, fields);
      assert r == Redact(next, fields[1..]);
      forall i | 0 <= i < |ms|
        ensures r[i] == (ms[i].0, if ms[i].0 in fields && Truthy(ms[i].1) then JStr(RedactedText) else ms[i].1)
      {
        assert ms[i].0 in fields <==> ms[i].0 == f || ms[i].0 in fields[1..];
      }
    }
  }

  /** One pass of the redaction loop over a list with distinct keys. */
  lemma RedactStep(ms: seq<(string, Json)>, f: string)
    requires DistinctKeys(ms)
    ensures var next := if TruthyOpt(Lookup(ms, f)) then Put(ms, f, JStr(RedactedText)) else ms;
      |next| == |ms| && DistinctKeys(next) &&
      forall i :: 0 <= i < |ms| ==> next[i] == (ms[i].0, if ms[i].0 == f && Truthy(ms[i].1) then JStr(RedactedText) else ms[i].1)
  {
    if TruthyOpt(Lookup(ms, f)) {
      PutEntries(ms, f, JStr(RedactedText));
      PutDistinct(ms, f, JStr(RedactedText));
      forall i | 0 <= i < |ms| && ms[i].0 == f
        ensures Truthy(ms[i].1)
      {
        UniqueLookup(ms, i);
      }
    } else {
      forall i | 0 <= i < |ms| && ms[i].0 == f
        ensures !Truthy(ms[i].1)
      {
        UniqueLookup(ms, i);
      }
    }
  }

  /** Overwriting an existing, unique key changes its entry only. */
  lemma {:induction false} PutEntries(ms: seq<(string, Json)>, k: string, v: Json)
    requires DistinctKeys(ms) && Lookup(ms, k).Some?
    ensures var r := Put(ms, k, v);
      |r| == |ms| && forall i :: 0 <= i < |ms| ==> r[i] == (ms[i].0, if ms[i].0 == k then v else ms[i].1)
  {
    if ms[0].0 == k {
      var r := [(k, v)] + ms[1..];
      assert Put(ms, k, v) == r;
      forall i | 0 <= i < |ms|
        ensures r[i] == (ms[i].0, if ms[i].0 == k then v else ms[i].1)
      {
        if i > 0 {
          assert ms[0].0 != ms[i].0;
          assert r[i] == ms[i];
        }
      }
    } else {
      var tail := ms[1..];
      assert DistinctKeys(tail) by {
        forall i, j | 0 <= i < j < |tail| ensures tail[i].0 != tail[j].0 {
          assert tail[i] == ms[i + 1] && tail[j] == ms[j + 1];
        }
      }
      assert Lookup(tail, k) == Lookup(ms, k);
      PutEntries(tail, k, v);
      var rest := Put(tail, k, v);
      var r := [ms[0]] + rest;
      assert Put(ms, k, v) == r;
      forall i | 0 <= i < |ms|
        ensures r[i] == (ms[i].0, if ms[i].0 == k then v else ms[i].1)
      {
        if i > 0 {
          assert r[i] == rest[i - 1] && tail[i - 1] == ms[i];
        }
      }
    }
  }

  /** Every object, at every depth, has distinct keys: true of any JavaScript object. */
  predicate WellKeyed(j: Json)
    decreases j
  {
    match j
    case JObj(ms) => DistinctKeys(ms) && forall i :: 0 <= i < |ms| ==> WellKeyed(ms[i].1)
    case JArr(items) => forall i :: 0 <= i < |items| ==> WellKeyed(items[i])
    case _ => true
  }

  /** No sensitive field holds a truthy value other than the marker, at any depth. */
  predicate Clean(j: Json, fields: seq<string>)
    decreases j
  {
    match j
    case JObj(ms) => forall i :: 0 <= i < |ms| ==>
      (ms[i].0 in fields && Truthy(ms[i].1) ==> ms[i].1 == JStr(RedactedText)) && Clean(ms[i].1, fields)
    case JArr(items) => forall i :: 0 <= i < |items| ==> Clean(items[i], fields)
    case _ => true
  }

  /** Index keys are distinct: `NatText` is injective. */
  lemma IndexKeysDistinct(n: nat)
    ensures forall i, j :: 0 <= i < j < n ==> NatText(i) != NatText(j)
  {
    forall i, j | 0 <= i < j < n
      ensures NatText(i) != NatText(j)
    {
      ParseUnsignedText(i);
      ParseUnsignedText(j);
    }
  }

  /** What one entry of an object or array becomes, once its keys are known to be distinct. */
  function SanitizedEntry(e: (string, Json), fields: seq<string>): (string, Json) {
    (e.0, if e.0 in fields && Truthy(e.1) then JStr(RedactedText)
          else if IsObjectValue(e.1) then Sanitize(e.1, fields) else e.1)
  }

  /** A spread array has the distinct keys "0", "1", …; a spread object keeps its own. */
  lemma SpreadDistinct(d: Json)
    requires IsObjectValue(d) && (d.JObj? ==> DistinctKeys(d.members))
    ensures DistinctKeys(Spread(d))
  {
    if d.JArr? {
      var sp := Spread(d);
      IndexedKeys(d.items, 0);
      IndexKeysDistinct(|d.items|);
      forall i, j | 0 <= i < j < |sp| ensures sp[i].0 != sp[j].0 {
        assert sp[i].0 == NatText(i) && sp[j].0 == NatText(j);
      }
    }
  }

  /** With distinct keys, `sanitizeData` acts entry by entry, redaction before recursion. */
  lemma SanitizedEntries(d: Json, fields: seq<string>)
    requires IsObjectValue(d) && DistinctKeys(Spread(d))
    ensures var sp := Spread(d); var r := Sanitize(d, fields);
      r.JObj? && |r.members| == |sp| &&
      forall i :: 0 <= i < |sp| ==> r.members[i] == SanitizedEntry(sp[i], fields)
  {
    var sp := Spread(d);
    RedactEntries(sp, fields);
    var red := Redact(sp, fields);
    var w := Walk(d, red, fields);
    assert Sanitize(d, fields) == JObj(w);
    forall i | 0 <= i < |sp|
      ensures w[i] == SanitizedEntry(sp[i], fields)
    {
      var e := sp[i];
      assert red[i] == (e.0, if e.0 in fields && Truthy(e.1) then JStr(RedactedText) else e.1);
      assert w[i - 0].0 == red[i].0;
      if e.0 in fields && Truthy(e.1) {
        assert w[i].1 == JStr(RedactedText);
      } else if IsObjectValue(e.1) {
        assert w[i].1 == Sanitize(e.1, fields);
      } else {
        assert w[i].1 == e.1;
      }
    }
  }

  /** Redaction reaches every depth: a well-keyed value comes back clean. */
  lemma {:induction false} SanitizeClean(d: Json, fields: seq<string>)
    requires WellKeyed(d)
    ensures Clean(Sanitize(d, fields), fields)
    decreases d
  {
    if IsObjectValue(d) {
      SpreadDistinct(d);
      SanitizedEntries(d, fields);
      var sp := Spread(d);
      var ms := Sanitize(d, fields).members;
      forall i | 0 <= i < |ms|
        ensures (ms[i].0 in fields && Truthy(ms[i].1) ==> ms[i].1 == JStr(RedactedText)) && Clean(ms[i].1, fields)
      {
        var c := sp[i].1;
        assert ms[i] == SanitizedEntry(sp[i], fields);
        if !(sp[i].0 in fields && Truthy(c)) && IsObjectValue(c) {
          assert WellKeyed(c) by { if d.JArr? { assert c == d.items[i]; } else { assert c == d.members[i].1; } }
          SanitizeClean(c, fields);
        }
      }
    } else {
      NonObjectClean(d, fields);
    }
  }

  /** A value `sanitizeData` returns unchanged has no sensitive entries to worry about only when it is not an object. */
  lemma NonObjectClean(d: Json, fields: seq<string>)
    requires !IsObjectValue(d)
    ensures Clean(d, fields)
  {
  }

  /** A truthy sensitive field of an object becomes the marker; a falsy one stays. */
  lemma TopLevelRedaction(d: Json, fields: seq<string>, k: string)
    requires d.JObj? && DistinctKeys(d.members) && k in fields && Lookup(d.members, k).Some?
    ensures var v := Lookup(d.members, k).value;
      Field(Sanitize(d, fields), k) == Some(if Truthy(v) then JStr(RedactedText) else v)
  {
    var ms := d.members;
    SanitizedEntries(d, fields);
    var w := Sanitize(d, fields).members;
    var i :| 0 <= i < |ms| && ms[i] == (k, Lookup(ms, k).value);
    var v := ms[i].1;
    assert w[i] == SanitizedEntry(ms[i], fields);
    assert !Truthy(v) ==> !IsObjectValue(v);
    assert w[i] == (k, if Truthy(v) then JStr(RedactedText) else v);
    KeysKept(ms, w, fields);
    UniqueLookup(w, i);
  }

  /** In a list with distinct keys, each entry is what its key looks up. */
  lemma {:induction false} UniqueLookup(ms: seq<(string, Json)>, i: int)
    requires DistinctKeys(ms) && 0 <= i < |ms|
    ensures Lookup(ms, ms[i].0) == Some(ms[i].1)
  {
    if i > 0 {
      UniqueLookup(ms[1..], i - 1);
    }
  }

  /** A nested object under a non-sensitive key is sanitised in place. */
  lemma NestedSanitised(d: Json, fields: seq<string>, k: string)
    requires d.JObj? && DistinctKeys(d.members) && k !in fields
    requires Lookup(d.members, k).Some? && IsObjectValue(Lookup(d.members, k).value)
    ensures Field(Sanitize(d, fields), k) == Some(Sanitize(Lookup(d.members, k).value, fields))
  {
    var ms := d.members;
    SanitizedEntries(d, fields);
    var w := Sanitize(d, fields).members;
    var i :| 0 <= i < |ms| && ms[i] == (k, Lookup(ms, k).value);
    assert w[i] == SanitizedEntry(ms[i], fields);
    KeysKept(ms, w, fields);
    UniqueLookup(w, i);
  }

  /** Entry-wise sanitising keeps the keys, and so their distinctness. */
  lemma KeysKept(ms: seq<(string, Json)>, w: seq<(string, Json)>, fields: seq<string>)
    requires DistinctKeys(ms) && |w| == |ms|
    requires forall i :: 0 <= i < |ms| ==> w[i] == SanitizedEntry(ms[i], fields)
    ensures DistinctKeys(w)
  {
    forall i, j | 0 <= i < j < |w| ensures w[i].0 != w[j].0 {
      assert w[i].0 == ms[i].0 && w[j].0 == ms[j].0;
    }
  }

  /** An array comes back as an object keyed "0", "1", … */
  lemma ArrayBecomesObject(items: seq<Json>, fields: seq<string>)
    ensures var r := Sanitize(JArr(items), fields);
      r.JObj? && |r.members| == |items| && forall i :: 0 <= i < |items| ==> r.members[i].0 == NatText(i)
  {
    var d := JArr(items);
    SpreadDistinct(d);
    SanitizedEntries(d, fields);
    IndexedKeys(items, 0);
    var r := Sanitize(d, fields);
    forall i | 0 <= i < |items|
      ensures r.members[i].0 == NatText(i)
    {
      assert r.members[i] == SanitizedEntry(Spread(d)[i], fields);
      assert Spread(d)[i].0 == IndexKey(0 + i);
    }
  }

  // ------------------------------------------------------------- middleware

  /** `sanitizeData(ctx.headers)`: the headers are strings, so only redaction applies. */
  function RedactHeaders(h: map<string, string>, fields: seq<string>): (r: map<string, string>)
    ensures r.Keys == h.Keys
    ensures forall k :: k in r ==> r[k] == if k in fields && h[k] != "" then RedactedText else h[k]
  {
    map k | k in h :: if k in fields && h[k] != "" then RedactedText else h[k]
  }

  datatype LogLine =
    | Started(verb: string, url: string, userAgent: string, ip: string, userId: Option<Json>, body: Option<Json>, headers: map<string, string>)
    | Completed(verb: string, url: string, status: int, userId: Option<Json>, body: Option<Json>)
    | Failed(verb: string, url: string, status: int, userId: Option<Json>, error: Option<Json>)

  /** `excludePaths.some(p => url.startsWith(p))`. */
  predicate Excluded(paths: seq<string>, url: string) {
    exists i :: 0 <= i < |paths| && StartsWith(url, paths[i])
  }

  /** Reading `error.message` of a thrown `null` inside the catch block. */
  const NullMessageError := ErrorValue("TypeError", "Cannot read properties of null (reading 'message')", [])

  /**
   * `logger(options)`: a start line before the chain, then a completion
   * line or, when the chain throws, a failure line, after which the value
   * is thrown again. A thrown `null` never reaches the failure line: the
   * read of its `message` throws a TypeError in its place.
   */
  method Logger(ctx: Context, o: LoggerOptions, next: Snapshot -> Downstream) returns (lines: seq<LogLine>, thrown: Option<Json>)
    modifies ctx
    ensures var d := next(old(ctx.View()));
      ctx.View() == d.view &&
      thrown == if d.thrown == Some(JNull) && !Excluded(o.excludePaths, old(ctx.request.url)) then Some(NullMessageError) else d.thrown
    ensures Excluded(o.excludePaths, old(ctx.request.url)) <==> lines == []
    ensures lines != [] ==>
      var v := old(ctx.View());
      lines[0] == Started(v.request.verb, v.request.url, Header(v.request, "user-agent"), v.request.ip, Prop(v.ext, "userId"),
        if o.logBody && TruthyOpt(v.request.body) then Some(Sanitize(v.request.body.value, o.sensitiveFields)) else None,
        RedactHeaders(v.request.headers, o.sensitiveFields))
    ensures lines != [] ==>
      var v := old(ctx.View());
      var d := next(v);
      (d.thrown.None? ==> lines == [lines[0], Completed(v.request.verb, v.request.url, d.view.status, Prop(d.view.ext, "userId"),
         if o.logResponse && TruthyOpt(d.view.body) then Some(Sanitize(d.view.body.value, o.sensitiveFields)) else None)]) &&
      (d.thrown == Some(JNull) ==> lines == [lines[0]]) &&
      (d.thrown.Some? && d.thrown != Some(JNull) ==>
         lines == [lines[0], Failed(v.request.verb, v.request.url, if d.view.status != 0 then d.view.status else 500,
                                    Prop(d.view.ext, "userId"), Field(d.thrown.value, "message"))])
  {
    var verb := ctx.request.verb;
    var url := ctx.request.url;
    var isExcluded := false;
    var p := 0;
    while p < |o.excludePaths| && !isExcluded
      invariant 0 <= p <= |o.excludePaths|
      invariant isExcluded <==> exists i :: 0 <= i < p && StartsWith(url, o.excludePaths[i])
    {
      isExcluded := StartsWith(url, o.excludePaths[p]);
      p := p + 1;
    }
    if isExcluded {
      var d := next(ctx.View());
      ctx.Load(d.view);
      return [], d.thrown;
    }
    var body: Option<Json> := None;
    if o.logBody && TruthyOpt(ctx.request.body) {
      var b := SanitizeData(ctx.request.body.value, o.sensitiveFields);
      body := Some(b);
    }
    var requestLog := Started(verb, url, Header(ctx.request, "user-agent"), ctx.request.ip, Prop(ctx.ext, "userId"), body,
                              RedactHeaders(ctx.request.headers, o.sensitiveFields));
    var d := next(ctx.View());
    ctx.Load(d.view);
    thrown := d.thrown;
    if thrown.None? {
      var responseBody: Option<Json> := None;
      if o.logResponse && TruthyOpt(ctx.body) {
        var b := SanitizeData(ctx.body.value, o.sensitiveFields);
        responseBody := Some(b);
      }
      lines := [requestLog, Completed(verb, url, ctx.status, Prop(ctx.ext, "userId"), responseBody)];
    } else if thrown.value.JNull? {
      lines := [requestLog];
      thrown := Some(NullMessageError);
    } else {
      lines := [requestLog, Failed(verb, url, if ctx.status != 0 then ctx.status else 500, Prop(ctx.ext, "userId"),
                                   Field(thrown.value, "message"))];
    }
  }

  /** With the defaults, health checks and metrics are never logged. */
  lemma HealthNotLogged(url: string)
    requires StartsWith(url, "/health") || StartsWith(url, "/metrics")
    ensures Excluded(DefaultOptions.excludePaths, url)
  {
    if StartsWith(url, "/health") {
      assert StartsWith(url, DefaultOptions.excludePaths[0]);
    } else {
      assert StartsWith(url, DefaultOptions.excludePaths[1]);
    }
  }

  // ------------------------------------------------------------- accessLogger

  /** The console level `accessLogger` picks from the final status. */
  datatype Level = Info | Warn | Error

  /** Server errors go to `console.error`, client errors to `console.warn`, the rest to `console.log`. */
  function AccessLevel(status: int): (l: Level)
    ensures l == Error <==> status >= 500
    ensures l == Warn <==> 400 <= status < 500
    ensures l == Info <==> status < 400
  {
    if status >= 500 then Error else if status >= 400 then Warn else Info
  }

  datatype AccessLine = AccessLine(level: Level, verb: string, url: string, status: int, ip: string, userAgent: string, userId: Option<Json>)

  /** `accessLogger` skips the health check itself and anything under `/metrics`. */
  predicate AccessSkipped(url: string) {
    url == "/health" || StartsWith(url, "/metrics")
  }

  /**
   * `accessLogger`: one line after the chain has answered; it has no
   * try block, so a thrown exception leaves nothing logged.
   */
  method AccessLogger(ctx: Context, next: Snapshot -> Downstream) returns (line: Option<AccessLine>, thrown: Option<Json>)
    modifies ctx
    ensures var d := next(old(ctx.View()));
      ctx.View() == d.view && thrown == d.thrown
    ensures line.Some? <==> !AccessSkipped(old(ctx.request.url)) && thrown.None?
    ensures line.Some? ==>
      line.value.status == ctx.status && line.value.level == AccessLevel(ctx.status) &&
      line.value.url == old(ctx.request.url) && line.value.verb == old(ctx.request.verb)
  {
    var verb := ctx.request.verb;
    var url := ctx.request.url;
    var d := next(ctx.View());
    ctx.Load(d.view);
    thrown := d.thrown;
    if url == "/health" || StartsWith(url, "/metrics") || thrown.Some? {
      return None, thrown;
    }
    var level := Info;
    if ctx.status >= 500 {
      level := Error;
    } else if ctx.status >= 400 {
      level := Warn;
    }
    line := Some(AccessLine(level, verb, url, ctx.status, ctx.request.ip, Header(ctx.request, "user-agent"), Prop(ctx.ext, "userId")));
  }

  /**
   * The two loggers skip different paths: a health sub-path is skipped by
   * `logger` (a prefix test) but logged by `accessLogger` (an exact test).
   */
  lemma HealthSubpathDiffers()
    ensures Excluded(DefaultOptions.excludePaths, "/health/db")
    ensures !AccessSkipped("/health/db")
  {
    assert "/health/db"[..7] == "/health";
    HealthNotLogged("/health/db");
    assert "/health/db"[..8] != "/metrics" by { assert "/health/db"[1] != "/metrics"[1]; }
  }
}
