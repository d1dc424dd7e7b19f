/**
 * JavaScript values as the gateway and the backend see them: numbers with
 * their non-finite cases, JSON-shaped values, truthiness, `String(x)`,
 * `parseInt`, and the few string operations the request code relies on.
 */
module Js {

  datatype Option<T> = None | Some(value: T)

  /** A JavaScript number: finite, or NaN, or one of the two infinities. */
  datatype Num = Fin(r: real) | NaN | PosInf | NegInf

  /**
   * A JavaScript value of JSON shape. Objects keep their members in
   * insertion order, each key at most once (see DistinctKeys).
   */
  datatype Json =
    | JNull
    | JBool(b: bool)
    | JNum(n: Num)
    | JStr(s: string)
    | JArr(items: seq<Json>)
    | JObj(members: seq<(string, Json)>)

  function Int(i: int): Json { JNum(Fin(i as real)) }

  predicate IsFinite(n: Num) { n.Fin? }

  predicate IsIntegral(r: real) { r.Floor as real == r }

  /** `Number.isInteger`. */
  predicate IsInteger(n: Num) { n.Fin? && IsIntegral(n.r) }

  /** JavaScript's ToBoolean on a number. */
  predicate NumTruthy(n: Num) {
    match n
    case Fin(r) => r != 0.0
    case NaN => false
    case _ => true
  }

  /** JavaScript's ToBoolean: null, false, 0, NaN and '' are falsy. */
  predicate Truthy(v: Json) {
    match v
    case JNull => false
    case JBool(b) => b
    case JNum(n) => NumTruthy(n)
    case JStr(s) => s != ""
    case _ => true
  }

  /** ToBoolean of a possibly undefined value. */
  predicate TruthyOpt(o: Option<Json>) { o.Some? && Truthy(o.value) }

  /** `typeof v === 'object' && v !== null` (arrays are objects too). */
  predicate IsObjectValue(v: Json) { v.JArr? || v.JObj? }

  /** `x === undefined || x === null`: the cases `??` and `?.` replace. */
  predicate Nullish(o: Option<Json>) { o.None? || o.value.JNull? }

  // ---------------------------------------------------------------- objects

  predicate DistinctKeys(ms: seq<(string, Json)>) {
    forall i, j :: 0 <= i < j < |ms| ==> ms[i].0 != ms[j].0
  }

  function Keys(ms: seq<(string, Json)>): (ks: seq<string>)
    ensures |ks| == |ms|
    ensures forall i :: 0 <= i < |ms| ==> ks[i] == ms[i].0
  {
    if ms == [] then [] else [ms[0].0] + Keys(ms[1..])
  }

  /** The value stored under `k`, or None (undefined) when `k` is absent. */
  function Lookup(ms: seq<(string, Json)>, k: string): (r: Option<Json>)
    ensures r.None? <==> (forall i :: 0 <= i < |ms| ==> ms[i].0 != k)
    ensures r.Some? ==> exists i :: 0 <= i < |ms| && ms[i] == (k, r.value)
  {
    if ms == [] then None
    else if ms[0].0 == k then Some(ms[0].1)
    else Lookup(ms[1..], k)
  }

  /** A lookup in a concatenation finds the first part's entry before the second's. */
  lemma {:induction false} LookupAppend(a: seq<(string, Json)>, b: seq<(string, Json)>, k: string)
    ensures Lookup(a + b, k) == if Lookup(a, k).Some? then Lookup(a, k) else Lookup(b, k)
  {
    if a != [] {
      assert (a + b)[1..] == a[1..] + b;
      LookupAppend(a[1..], b, k);
    } else {
      assert a + b == b;
    }
  }

  /**
   * `o[k] = v` on a plain object: an existing key keeps its position and
   * takes the new value, a new key is appended.
   */
  function Put(ms: seq<(string, Json)>, k: string, v: Json): (r: seq<(string, Json)>)
    ensures Lookup(r, k) == Some(v)
    ensures forall k' :: k' != k ==> Lookup(r, k') == Lookup(ms, k')
  {
    PutFinds(ms, k, v);
    PutKeepsOthers(ms, k, v);
    Assigned(ms, k, v)
  }

  /** `o[k] = v` keeps the key order, appending `k` when it is new. */
  lemma PutKeyOrder(ms: seq<(string, Json)>, k: string, v: Json)
    ensures Lookup(ms, k).Some? ==> Keys(Put(ms, k, v)) == Keys(ms)
    ensures Lookup(ms, k).None? ==> Keys(Put(ms, k, v)) == Keys(ms) + [k]
  {
    PutKeys(ms, k, v);
  }

  /** Assigning a key that is present replaces its first entry in place. */
  lemma {:induction false} PutInPlace(ms: seq<(string, Json)>, j: int, k: string, v: Json)
    requires 0 <= j < |ms| && ms[j].0 == k && forall i :: 0 <= i < j ==> ms[i].0 != k
    ensures Put(ms, k, v) == ms[j := (k, v)]
  {
    if j > 0 {
      PutInPlace(ms[1..], j - 1, k, v);
      assert ms[j := (k, v)] == [ms[0]] + ms[1..][j - 1 := (k, v)];
    }
  }

  /** The list `o[k] = v` leaves, entry by entry. */
  function Assigned(ms: seq<(string, Json)>, k: string, v: Json): seq<(string, Json)> {
    if ms == [] then [(k, v)]
    else if ms[0].0 == k then [(k, v)] + ms[1..]
    else [ms[0]] + Assigned(ms[1..], k, v)
  }

  lemma {:induction false} PutFinds(ms: seq<(string, Json)>, k: string, v: Json)
    ensures Lookup(Assigned(ms, k, v), k) == Some(v)
  {
    if ms != [] && ms[0].0 != k {
      PutFinds(ms[1..], k, v);
      assert Assigned(ms, k, v)[1..] == Assigned(ms[1..], k, v);
    }
  }

  lemma {:induction false} PutKeepsOthers(ms: seq<(string, Json)>, k: string, v: Json)
    ensures forall k' :: k' != k ==> Lookup(Assigned(ms, k, v), k') == Lookup(ms, k')
  {
    var r := Assigned(ms, k, v);
    if ms == [] {
    } else if ms[0].0 == k {
      assert r[1..] == ms[1..];
    } else {
      PutKeepsOthers(ms[1..], k, v);
      assert r[1..] == Assigned(ms[1..], k, v);
    }
  }

  lemma {:induction false} PutKeys(ms: seq<(string, Json)>, k: string, v: Json)
    ensures Lookup(ms, k).Some? ==> Keys(Assigned(ms, k, v)) == Keys(ms)
    ensures Lookup(ms, k).None? ==> Keys(Assigned(ms, k, v)) == Keys(ms) + [k]
  {
    var r := Assigned(ms, k, v);
    if ms == [] {
    } else if ms[0].0 == k {
      assert r[1..] == ms[1..];
      assert Keys(r) == [k] + Keys(ms[1..]);
    } else {
      PutKeys(ms[1..], k, v);
      assert r[1..] == Assigned(ms[1..], k, v);
      assert Keys(r) == [ms[0].0] + Keys(r[1..]);
      assert Keys(ms) == [ms[0].0] + Keys(ms[1..]);
    }
  }

  /** Writing a key keeps the keys distinct. */
  lemma PutDistinct(ms: seq<(string, Json)>, k: string, v: Json)
    requires DistinctKeys(ms)
    ensures DistinctKeys(Put(ms, k, v))
  {
    var r := Put(ms, k, v);
    PutKeyOrder(ms, k, v);
    var found := Lookup(ms, k).Some?;
    forall i, j | 0 <= i < j < |r|
      ensures r[i].0 != r[j].0
    {
      PutKeyAt(ms, k, v, i);
      PutKeyAt(ms, k, v, j);
      if !found && j == |ms| {
        assert ms[i].0 != k;
      }
    }
  }

  /** Entry `i` of `Put(ms, k, v)` has the key entry `i` of `ms` had, or `k` when appended. */
  lemma PutKeyAt(ms: seq<(string, Json)>, k: string, v: Json, i: int)
    requires 0 <= i < |Put(ms, k, v)|
    ensures i < |ms| ==> Put(ms, k, v)[i].0 == ms[i].0
    ensures i == |ms| ==> Lookup(ms, k).None? && Put(ms, k, v)[i].0 == k
  {
    var r := Put(ms, k, v);
    PutKeyOrder(ms, k, v);
    assert Keys(r)[i] == r[i].0;
    if Lookup(ms, k).Some? {
      assert Keys(ms)[i] == ms[i].0;
    } else if i < |ms| {
      assert (Keys(ms) + [k])[i] == Keys(ms)[i] == ms[i].0;
    } else {
      assert (Keys(ms) + [k])[i] == k;
    }
  }

  /** Property read `v.k` on a value that is not null or undefined. */
  function Field(v: Json, k: string): Option<Json> {
    if v.JObj? then Lookup(v.members, k) else None
  }

  /** Optional chaining `v?.k`. */
  function OptField(o: Option<Json>, k: string): Option<Json> {
    if o.Some? then Field(o.value, k) else None
  }

  /** `x ?? d`. */
  function Coalesce(o: Option<Json>, d: Json): Json {
    if Nullish(o) then d else o.value
  }

  /** `a || b` on values that may be undefined: the first when truthy, otherwise the second. */
  function OrElse(a: Option<Json>, b: Option<Json>): (r: Option<Json>)
    ensures TruthyOpt(a) ==> r == a
    ensures !TruthyOpt(a) ==> r == b
    ensures TruthyOpt(r) <==> TruthyOpt(a) || TruthyOpt(b)
  {
    if TruthyOpt(a) then a else b
  }

  // ---------------------------------------------------------------- numbers

  function DigitChar(d: nat): char
    requires d < 10
  {
    "0123456789"[d]
  }

  /** Decimal digits of a natural number. */
  function NatText(n: nat): (s: string)
    ensures |s| >= 1
    ensures forall i :: 0 <= i < |s| ==> '0' <= s[i] <= '9'
    decreases n
  {
    if n < 10 then [DigitChar(n)] else NatText(n / 10) + [DigitChar(n % 10)]
  }

  /** Decimal text of an integer, with a leading '-' when negative. */
  function IntText(i: int): (s: string)
    ensures |s| >= 1
  {
    if i < 0 then "-" + NatText(-i) else NatText(i)
  }

  /**
   * `String(n)`. Integral values and the non-finite ones are rendered as
   * JavaScript renders them; a non-integral value gets a stand-in text
   * that, like JavaScript's, is never empty.
   */
  function NumText(n: Num): (s: string)
    ensures s != ""
  {
    match n
    case NaN => "NaN"
    case PosInf => "Infinity"
    case NegInf => "-Infinity"
    case Fin(r) => if IsIntegral(r) then IntText(r.Floor) else IntText(r.Floor) + ".~"
  }

  /** `String(v)` (also what a template literal inserts for `${v}`). */
  function ToJsString(v: Json): string {
    match v
    case JNull => "null"
    case JBool(b) => if b then "true" else "false"
    case JNum(n) => NumText(n)
    case JStr(s) => s
    case JArr(items) => JoinItems(items)
    case JObj(_) => "[object Object]"
  }

  /** `items.join(',')`, where null elements contribute ''. */
  function JoinItems(items: seq<Json>): string
    decreases items
  {
    if items == [] then ""
    else
      var head := if items[0].JNull? then "" else ToJsString(items[0]);
      if |items| == 1 then head else head + "," + JoinItems(items[1..])
  }

  /** String(undefined) is 'undefined'. */
  function ToJsStringOpt(o: Option<Json>): string {
    if o.None? then "undefined" else ToJsString(o.value)
  }

  /**
   * The white-space characters parseInt skips: ECMAScript's WhiteSpace
   * (the Unicode space separators included) and its line terminators.
   */
  predicate IsWhiteSpace(c: char) {
    c == ' ' || c == '\t' || c == '\n' || c == '\r' || c == '\U{000B}' || c == '\U{000C}'
    || c == '\U{00A0}' || c == '\U{FEFF}' || c == '\U{2028}' || c == '\U{2029}'
    || c == '\U{1680}' || ('\U{2000}' <= c <= '\U{200A}') || c == '\U{202F}' || c == '\U{205F}' || c == '\U{3000}'
  }

  function TrimStart(s: string): (r: string)
    ensures |r| <= |s| && r == s[|s| - |r|..]
    ensures r == "" || !IsWhiteSpace(r[0])
  {
    if s != [] && IsWhiteSpace(s[0]) then TrimStart(s[1..]) else s
  }

  /** The value of `c` as a digit in base `radix`, or -1. */
  function DigitValue(c: char, radix: nat): int {
    var d :=
      if '0' <= c <= '9' then c as int - '0' as int
      else if 'a' <= c <= 'z' then c as int - 'a' as int + 10
      else if 'A' <= c <= 'Z' then c as int - 'A' as int + 10
      else -1;
    if 0 <= d < radix then d else -1
  }

  /** Length of the longest prefix of `s` made of digits of `radix`. */
  function DigitRun(s: string, radix: nat): (n: nat)
    ensures n <= |s|
    ensures forall i :: 0 <= i < n ==> DigitValue(s[i], radix) >= 0
    ensures n < |s| ==> DigitValue(s[n], radix) < 0
  {
    if s != [] && DigitValue(s[0], radix) >= 0 then 1 + DigitRun(s[1..], radix) else 0
  }

  /** Value of a run of digits, most significant first. */
  function DigitsValue(s: string, radix: nat): int
    requires forall i :: 0 <= i < |s| ==> DigitValue(s[i], radix) >= 0
  {
    if s == [] then 0 else DigitsValue(s[..|s| - 1], radix) * radix + DigitValue(s[|s| - 1], radix)
  }

  /**
   * `parseInt(s)` with no radix: leading white space and one sign are
   * skipped, `0x`/`0X` selects base 16, and the longest digit prefix is
   * read. None stands for NaN (no digit at all).
   */
  function ParseInt(s: string): Option<int> {
    var t := TrimStart(s);
    if t != [] && t[0] == '-' then
      (var u := ParseUnsigned(t[1..]); if u.Some? then Some(-u.value) else None)
    else if t != [] && t[0] == '+' then ParseUnsigned(t[1..])
    else ParseUnsigned(t)
  }

  /** The digits after the sign: `0x`/`0X` selects base 16, otherwise base 10. */
  function ParseUnsigned(u: string): Option<int> {
    var hex := |u| >= 2 && u[0] == '0' && (u[1] == 'x' || u[1] == 'X');
    var radix := if hex then 16 else 10;
    var w := if hex then u[2..] else u;
    var n := DigitRun(w, radix);
    if n == 0 then None else Some(DigitsValue(w[..n], radix))
  }

  lemma {:induction false} DigitsOfNatText(n: nat)
    ensures forall i :: 0 <= i < |NatText(n)| ==> DigitValue(NatText(n)[i], 10) >= 0
    ensures DigitsValue(NatText(n), 10) == n
    decreases n
  {
    if n >= 10 {
      DigitsOfNatText(n / 10);
      var s := NatText(n);
      assert s[..|s| - 1] == NatText(n / 10);
    }
  }

  /** parseInt reads back what String() writes for an integer. */
  lemma ParseIntText(i: int)
    ensures ParseInt(IntText(i)) == Some(i)
  {
    var n: nat := if i < 0 then -i else i;
    ParseUnsignedText(n);
    if i < 0 {
      ParseNegative(NatText(n));
    } else {
      ParsePlain(NatText(n));
    }
  }

  lemma ParsePlain(d: string)
    requires d != [] && '0' <= d[0] <= '9'
    ensures ParseInt(d) == ParseUnsigned(d)
  {
    assert TrimStart(d) == d;
  }

  lemma ParseNegative(d: string)
    requires d != [] && '0' <= d[0] <= '9'
    ensures var u := ParseUnsigned(d); ParseInt("-" + d) == if u.Some? then Some(-u.value) else None
  {
    var s := "-" + d;
    assert TrimStart(s) == s;
    assert s[1..] == d;
  }

  lemma ParseUnsignedText(n: nat)
    ensures ParseUnsigned(NatText(n)) == Some(n)
  {
    var d := NatText(n);
    DigitsOfNatText(n);
    DigitRunAll(d, 10);
    assert d[..|d|] == d;
    assert !(|d| >= 2 && d[0] == '0' && (d[1] == 'x' || d[1] == 'X'));
  }

  lemma {:induction false} DigitRunAll(s: string, radix: nat)
    requires forall i :: 0 <= i < |s| ==> DigitValue(s[i], radix) >= 0
    ensures DigitRun(s, radix) == |s|
  {
    if s != [] { DigitRunAll(s[1..], radix); }
  }

  /** `parseInt(x)` on an arbitrary value: the value goes through String() first. */
  function ParseIntValue(o: Option<Json>): Option<int> {
    ParseInt(ToJsStringOpt(o))
  }

  /**
   * `Math.ceil(a / b)` for integers, with JavaScript's results for b == 0
   * (±Infinity, or NaN for 0/0).
   */
  function CeilDiv(a: int, b: int): (n: Num)
    ensures b != 0 ==> n.Fin? && IsIntegral(n.r)
    ensures b > 0 && a >= 0 ==> n.Fin? && n.r >= 0.0
  {
    if b > 0 then Fin((-((-a) / b)) as real)
    else if b < 0 then Fin((-(a / (-b))) as real)
    else if a > 0 then PosInf
    else if a < 0 then NegInf
    else NaN
  }

  lemma CeilDivBounds(a: int, b: int)
    requires b > 0
    ensures CeilDiv(a, b).Fin?
    ensures var c := CeilDiv(a, b).r.Floor; (c - 1) * b < a <= c * b
  {
    var q := (-a) / b;
    var m := (-a) % b;
    assert -a == q * b + m && 0 <= m < b;
  }

  // ---------------------------------------------------------------- strings

  predicate StartsWith(s: string, p: string) { |p| <= |s| && s[..|p|] == p }

  predicate EndsWith(s: string, p: string) { |p| <= |s| && s[|s| - |p|..] == p }

  /** `s.split(c)` for a one-character separator. */
  function Split(s: string, c: char): (parts: seq<string>)
    ensures |parts| >= 1
    ensures forall i :: 0 <= i < |parts| ==> c !in parts[i]
  {
    if s == [] then [""]
    else if s[0] == c then [""] + Split(s[1..], c)
    else
      var rest := Split(s[1..], c);
      [[s[0]] + rest[0]] + rest[1..]
  }

  lemma {:induction false} SplitNoSeparator(s: string, c: char)
    requires c !in s
    ensures Split(s, c) == [s]
  {
    if s != [] {
      SplitNoSeparator(s[1..], c);
      assert [s[0]] + s[1..] == s;
    }
  }

  lemma {:induction false} SplitAtFirst(a: string, b: string, c: char)
    requires c !in a
    ensures Split(a + [c] + b, c) == [a] + Split(b, c)
  {
    if a == [] {
      assert a + [c] + b == [c] + b;
    } else {
      assert (a + [c] + b)[1..] == a[1..] + [c] + b;
      SplitAtFirst(a[1..], b, c);
      assert [a[0]] + a[1..] == a;
    }
  }

  /** Joining the parts with the separator gives back the string. */
  lemma {:induction false} SplitJoin(s: string, c: char)
    ensures Join(Split(s, c), [c]) == s
  {
    if s != [] {
      SplitJoin(s[1..], c);
      var rest := Split(s[1..], c);
      if s[0] != c {
        if |rest| == 1 {
          assert [s[0]] + s[1..] == s;
        } else {
          assert [[s[0]] + rest[0]] + rest[1..] == [[s[0]] + rest[0]] + rest[1..];
          var parts := [[s[0]] + rest[0]] + rest[1..];
          assert parts[1..] == rest[1..];
          assert Join(parts, [c]) == [s[0]] + rest[0] + [c] + Join(rest[1..], [c]);
          assert Join(rest, [c]) == rest[0] + [c] + Join(rest[1..], [c]);
          assert [s[0]] + s[1..] == s;
        }
      } else {
        assert [c] + s[1..] == s;
        assert ([""] + rest)[1..] == rest;
      }
    }
  }

  /** `xs.join(sep)`. */
  function Join(xs: seq<string>, sep: string): string {
    if xs == [] then ""
    else if |xs| == 1 then xs[0]
    else xs[0] + sep + Join(xs[1..], sep)
  }

  /** ASCII upper-casing (request methods are ASCII). */
  function ToUpper(s: string): (r: string)
    ensures |r| == |s|
    ensures forall i :: 0 <= i < |s| ==> r[i] == (if 'a' <= s[i] <= 'z' then (s[i] as int - 32) as char else s[i])
  {
    if s == [] then [] else
      [if 'a' <= s[0] <= 'z' then (s[0] as int - 32) as char else s[0]] + ToUpper(s[1..])
  }

  /** `list.includes(x)` on a string list. */
  predicate Includes(xs: seq<string>, x: string) { x in xs }

  /** `required.some(r => held.includes(r))` for a list of JSON values `held`. */
  predicate SharesRole(required: seq<string>, held: seq<Json>) {
    exists i :: 0 <= i < |required| && JStr(required[i]) in held
  }

  /** `a.some(r => b.includes(r))`. */
  predicate Intersects(a: seq<string>, b: seq<string>) {
    exists r :: r in a && r in b
  }

  // ---------------------------------------------------------------- dates

  /** A JavaScript date: a millisecond count, or an Invalid Date (whose time value is NaN). */
  datatype Time = At(ms: int) | InvalidDate

  /** `a < b` on dates: false as soon as either is an Invalid Date. */
  predicate Earlier(a: Time, b: Time) {
    a.At? && b.At? && a.ms < b.ms
  }

  /** `a <= b` on dates: false as soon as either is an Invalid Date. */
  predicate NoLater(a: Time, b: Time) {
    a.At? && b.At? && a.ms <= b.ms
  }

  /** A date in a response: its millisecond count; an Invalid Date is null. */
  function TimeJson(t: Time): Json {
    if t.At? then Int(t.ms) else JNull
  }
}
