/**
 * The gateway's snake-to-camel key converter, apps/bff/src/utils/case.ts.
 * Object members are kept in key-enumeration order; assigning a key that is
 * already present replaces its value in place, as JavaScript objects do.
 */
module CamelCase {
  import opened Js

  predicate IsLower(c: char) { 'a' <= c <= 'z' }

  function Upper(c: char): char
    requires IsLower(c)
  {
    (c as int - 32) as char
  }

  /** `k.replace(/_([a-z])/g, (_, c) => c.toUpperCase())`, scanning left to right. */
  function CamelKey(k: string): (r: string)
    ensures |r| <= |k|
    ensures !HasSnake(r)
    ensures r != [] && IsLower(r[0]) ==> k != [] && k[0] == r[0]
  {
    if |k| >= 2 && k[0] == '_' && IsLower(k[1]) then
      var rest := CamelKey(k[2..]);
      var r := [Upper(k[1])] + rest;
      assert forall i :: 1 <= i < |r| ==> r[i] == rest[i - 1];
      r
    else if k == [] then []
    else
      var rest := CamelKey(k[1..]);
      var r := [k[0]] + rest;
      assert forall i :: 1 <= i < |r| ==> r[i] == rest[i - 1];
      r
  }

  /** Some `_` is followed by a lower-case letter. */
  predicate HasSnake(s: string) {
    exists i :: 0 <= i < |s| - 1 && s[i] == '_' && IsLower(s[i + 1])
  }

  /** A key without such a pair is left alone. */
  lemma {:induction false} CamelKeyFixed(k: string)
    requires !HasSnake(k)
    ensures CamelKey(k) == k
  {
    if k != [] {
      assert !HasSnake(k[1..]) by {
        forall i | 0 <= i < |k[1..]| - 1 && k[1..][i] == '_' ensures !IsLower(k[1..][i + 1]) {
          assert k[1..][i] == k[i + 1] && k[1..][i + 1] == k[i + 2];
        }
      }
      CamelKeyFixed(k[1..]);
      assert [k[0]] + k[1..] == k;
    }
  }

  /** `toCamel(input)`. */
  function ToCamel(j: Json): (r: Json)
    ensures j.JArr? ==> r.JArr? && |r.items| == |j.items|
    ensures !j.JArr? && !j.JObj? ==> r == j
    decreases j, 1, 0
  {
    match j
    case JArr(items) => JArr(CamelItems(items))
    case JObj(ms) => JObj(CamelMembers(j, 0, []))
    case _ => j
  }

  /** `input.map(toCamel)`. */
  function CamelItems(items: seq<Json>): (r: seq<Json>)
    ensures |r| == |items|
    ensures forall i :: 0 <= i < |items| ==> r[i] == ToCamel(items[i])
    decreases items, 0, 0
  {
    if items == [] then [] else [ToCamel(items[0])] + CamelItems(items[1..])
  }

  /**
   * The `for` loop over `Object.keys(obj)` from the `i`-th key on,
   * continuing from the object `out` built so far.
   */
  function CamelMembers(obj: Json, i: nat, out: seq<(string, Json)>): (r: seq<(string, Json)>)
    requires obj.JObj? && i <= |obj.members|
    ensures DistinctKeys(out) ==> DistinctKeys(r)
    decreases obj, 0, |obj.members| - i
  {
    if i == |obj.members| then out
    else
      var m := obj.members[i];
      var next := Put(out, CamelKey(m.0), ToCamel(m.1));
      assert DistinctKeys(out) ==> DistinctKeys(next) by {
        if DistinctKeys(out) { PutDistinct(out, CamelKey(m.0), ToCamel(m.1)); }
      }
      CamelMembers(obj, i + 1, next)
  }

  /** `toCamel`, with the object's members filled by a loop. */
  method ToCamelMethod(input: Json) returns (r: Json)
    ensures r == ToCamel(input)
    decreases input
  {
    match input {
      case JArr(items) =>
        var out: seq<Json> := [];
        var i := 0;
        while i < |items|
          invariant 0 <= i <= |items|
          invariant out == CamelItems(items[..i])
        {
          var c := ToCamelMethod(items[i]);
          assert items[..i + 1] == items[..i] + [items[i]];
          CamelItemsAppend(items[..i], items[i]);
          out := out + [c];
          i := i + 1;
        }
        assert items[..i] == items;
        r := JArr(out);
      case JObj(ms) =>
        var out: seq<(string, Json)> := [];
        var i := 0;
        while i < |ms|
          invariant 0 <= i <= |ms|
          invariant CamelMembers(input, i, out) == CamelMembers(input, 0, [])
        {
          var v := ToCamelMethod(ms[i].1);
          out := Put(out, CamelKey(ms[i].0), v);
          i := i + 1;
        }
        r := JObj(out);
      case _ =>
        r := input;
    }
  }

  lemma {:induction false} CamelItemsAppend(items: seq<Json>, x: Json)
    ensures CamelItems(items + [x]) == CamelItems(items) + [ToCamel(x)]
  {
    if items != [] {
      assert (items + [x])[1..] == items[1..] + [x];
      CamelItemsAppend(items[1..], x);
    } else {
      assert items + [x] == [x];
    }
  }

  // ------------------------------------------------------------ properties

  /** Already camel-cased: no key anywhere has a `_x` pair, and objects have distinct keys. */
  predicate Camelised(j: Json) {
    match j
    case JArr(items) => forall i :: 0 <= i < |items| ==> Camelised(items[i])
    case JObj(ms) => DistinctKeys(ms) && forall i :: 0 <= i < |ms| ==> !HasSnake(ms[i].0) && Camelised(ms[i].1)
    case _ => true
  }

  /** Every output is camel-cased. */
  lemma {:induction false} ToCamelCamelised(j: Json)
    ensures Camelised(ToCamel(j))
    decreases j, 1, 0
  {
    match j {
      case JArr(items) =>
        forall i | 0 <= i < |items| ensures Camelised(CamelItems(items)[i]) {
          ToCamelCamelised(items[i]);
        }
      case JObj(ms) =>
        MembersCamelised(j, 0, []);
      case _ =>
    }
  }

  lemma {:induction false} MembersCamelised(obj: Json, i: nat, out: seq<(string, Json)>)
    requires obj.JObj? && i <= |obj.members|
    requires DistinctKeys(out)
    requires forall n :: 0 <= n < |out| ==> !HasSnake(out[n].0) && Camelised(out[n].1)
    ensures Camelised(JObj(CamelMembers(obj, i, out)))
    decreases obj, 0, |obj.members| - i
  {
    if i < |obj.members| {
      var m := obj.members[i];
      ToCamelCamelised(m.1);
      var k := CamelKey(m.0);
      PutEntries(out, k, ToCamel(m.1));
      PutDistinct(out, k, ToCamel(m.1));
      MembersCamelised(obj, i + 1, Put(out, k, ToCamel(m.1)));
    }
  }

  /** Every entry of `Put(out, k, v)` is an entry of `out` or `(k, v)`. */
  lemma {:induction false} PutEntries(out: seq<(string, Json)>, k: string, v: Json)
    ensures forall i :: 0 <= i < |Put(out, k, v)| ==> Put(out, k, v)[i] in out || Put(out, k, v)[i] == (k, v)
  {
    if out != [] && out[0].0 != k {
      PutEntries(out[1..], k, v);
      forall i | 0 <= i < |Put(out, k, v)| ensures Put(out, k, v)[i] in out || Put(out, k, v)[i] == (k, v) {
        if i > 0 {
          assert Put(out, k, v)[i] == Put(out[1..], k, v)[i - 1];
        }
      }
    }
  }

  /** Setting a key not yet present appends it. */
  lemma PutFresh(out: seq<(string, Json)>, k: string, v: Json)
    requires forall i :: 0 <= i < |out| ==> out[i].0 != k
    ensures Put(out, k, v) == out + [(k, v)]
  {
    AssignedFresh(out, k, v);
  }

  lemma {:induction false} AssignedFresh(out: seq<(string, Json)>, k: string, v: Json)
    requires forall i :: 0 <= i < |out| ==> out[i].0 != k
    ensures Assigned(out, k, v) == out + [(k, v)]
  {
    if out != [] {
      assert out[0].0 != k;
      assert forall i :: 0 <= i < |out[1..]| ==> out[1..][i] == out[i + 1];
      AssignedFresh(out[1..], k, v);
      assert [out[0]] + (out[1..] + [(k, v)]) == out + [(k, v)];
    }
  }

  /** A camel-cased value is its own conversion. */
  lemma {:induction false} CamelisedFixed(j: Json)
    requires Camelised(j)
    ensures ToCamel(j) == j
    decreases j, 1, 0
  {
    match j {
      case JArr(items) =>
        forall i | 0 <= i < |items| ensures CamelItems(items)[i] == items[i] {
          CamelisedFixed(items[i]);
        }
      case JObj(ms) =>
        MembersFixed(j, 0, []);
        assert ms[..0] == [] && ms[..|ms|] == ms;
      case _ =>
    }
  }

  lemma {:induction false} MembersFixed(obj: Json, i: nat, out: seq<(string, Json)>)
    requires obj.JObj? && Camelised(obj) && i <= |obj.members|
    requires out == obj.members[..i]
    ensures CamelMembers(obj, i, out) == obj.members
    decreases obj, 0, |obj.members| - i, 1
  {
    var ms := obj.members;
    if i == |ms| {
      assert ms[..i] == ms;
    } else {
      MemberFixed(obj, i, out);
      PrefixStep(ms, i);
      MembersFixed(obj, i + 1, out + [ms[i]]);
    }
  }

  lemma PrefixStep(ms: seq<(string, Json)>, i: nat)
    requires i < |ms|
    ensures ms[..i] + [ms[i]] == ms[..i + 1]
  {
  }

  /** One step of the member loop on a camel-cased object appends the member unchanged. */
  lemma MemberFixed(obj: Json, i: nat, out: seq<(string, Json)>)
    requires obj.JObj? && Camelised(obj) && i < |obj.members|
    requires out == obj.members[..i]
    ensures CamelMembers(obj, i, out) == CamelMembers(obj, i + 1, out + [obj.members[i]])
    decreases obj, 0, |obj.members| - i, 0
  {
    var ms := obj.members;
    var m := ms[i];
    assert !HasSnake(m.0) && Camelised(m.1);
    CamelKeyFixed(m.0);
    CamelisedFixed(m.1);
    forall n | 0 <= n < |out| ensures out[n].0 != m.0 {
      assert out[n] == ms[n];
    }
    PutFresh(out, m.0, m.1);
  }

  /** Converting twice is converting once. */
  lemma Idempotent(j: Json)
    ensures ToCamel(ToCamel(j)) == ToCamel(j)
  {
    ToCamelCamelised(j);
    CamelisedFixed(ToCamel(j));
  }

  /** Two keys that camelise alike collide: the later value wins, at the earlier key's position. */
  lemma LaterKeyWins()
    ensures ToCamel(JObj([("user_id", JNum(Fin(1.0))), ("userId", JNum(Fin(2.0))), ("x", JNull)]))
         == JObj([("userId", JNum(Fin(2.0))), ("x", JNull)])
  {
    var one, two := JNum(Fin(1.0)), JNum(Fin(2.0));
    var j := JObj([("user_id", one), ("userId", two), ("x", JNull)]);
    CollisionSteps(j, one, two);
  }

  lemma CollisionSteps(j: Json, one: Json, two: Json)
    requires one == JNum(Fin(1.0)) && two == JNum(Fin(2.0))
    requires j == JObj([("user_id", one), ("userId", two), ("x", JNull)])
    ensures CamelMembers(j, 0, []) == [("userId", two), ("x", JNull)]
  {
    UserIdKey();
    assert CamelKey("userId") == "userId" by {
      assert !HasSnake("userId");
      CamelKeyFixed("userId");
    }
    assert CamelKey("x") == "x";
    assert ToCamel(one) == one && ToCamel(two) == two && ToCamel(JNull) == JNull;
    CollisionPuts(one, two);
    assert j.members[0] == ("user_id", one) && j.members[1] == ("userId", two) && j.members[2] == ("x", JNull);
    var s1 := [("userId", one)];
    var s2 := [("userId", two)];
    var s3 := [("userId", two), ("x", JNull)];
    assert CamelMembers(j, 3, s3) == s3;
    assert CamelMembers(j, 2, s2) == CamelMembers(j, 3, s3);
    assert CamelMembers(j, 1, s1) == CamelMembers(j, 2, s2);
    assert CamelMembers(j, 0, []) == CamelMembers(j, 1, s1);
  }

  lemma CollisionPuts(one: Json, two: Json)
    ensures Put([], "userId", one) == [("userId", one)]
    ensures Put([("userId", one)], "userId", two) == [("userId", two)]
    ensures Put([("userId", two)], "x", JNull) == [("userId", two), ("x", JNull)]
  {
    assert [("userId", one)][1..] == [];
    assert "userId"[0] != "x"[0];
    PutKeyOrder([("userId", two)], "x", JNull);
    assert Put([("userId", two)], "x", JNull) == [("userId", two)] + Put([], "x", JNull);
  }

  /** The converted keys of the members, in order. */
  function CamelKeys(ms: seq<(string, Json)>): (ks: seq<string>)
    ensures |ks| == |ms| && forall i :: 0 <= i < |ms| ==> ks[i] == CamelKey(ms[i].0)
  {
    if ms == [] then [] else [CamelKey(ms[0].0)] + CamelKeys(ms[1..])
  }

  /** Each key once, in the order of its first occurrence. */
  function FirstOccurrences(ks: seq<string>): (r: seq<string>)
    ensures forall k :: k in r <==> k in ks
    ensures forall a, b :: 0 <= a < b < |r| ==> r[a] != r[b]
  {
    if ks == [] then []
    else
      var init := FirstOccurrences(ks[..|ks| - 1]);
      assert ks == ks[..|ks| - 1] + [ks[|ks| - 1]];
      if ks[|ks| - 1] in ks[..|ks| - 1] then init else init + [ks[|ks| - 1]]
  }

  /** What the last member whose key converts to `k` converts to. */
  function LastWith(ms: seq<(string, Json)>, k: string): (r: Option<Json>)
    ensures r.None? <==> k !in CamelKeys(ms)
  {
    if ms == [] then None
    else
      var last := ms[|ms| - 1];
      var init := ms[..|ms| - 1];
      assert CamelKeys(ms) == CamelKeys(init) + [CamelKey(last.0)];
      if CamelKey(last.0) == k then Some(ToCamel(last.1)) else LastWith(init, k)
  }

  /** `LastWith` is the conversion of the member at the last position whose key converts to `k`. */
  lemma {:induction false} LastWithIsLast(ms: seq<(string, Json)>, k: string, i: int)
    requires 0 <= i < |ms| && CamelKey(ms[i].0) == k
    requires forall j :: i < j < |ms| ==> CamelKey(ms[j].0) != k
    ensures LastWith(ms, k) == Some(ToCamel(ms[i].1))
  {
    if i < |ms| - 1 {
      var init := ms[..|ms| - 1];
      assert CamelKey(ms[|ms| - 1].0) != k;
      assert init[i] == ms[i];
      LastWithIsLast(init, k, i);
    }
  }

  /**
   * Converting an object: its keys are the converted keys, each once, where it
   * first occurs; a key shared by several members holds what the last of them
   * converts to.
   */
  lemma CollidingKeys(ms: seq<(string, Json)>)
    ensures ToCamel(JObj(ms)).JObj?
    ensures Keys(ToCamel(JObj(ms)).members) == FirstOccurrences(CamelKeys(ms))
    ensures forall k :: Field(ToCamel(JObj(ms)), k) == LastWith(ms, k)
  {
    var obj := JObj(ms);
    assert ms[..0] == [];
    MembersKeys(obj, 0, []);
    MembersValues(obj, 0, []);
  }

  lemma {:induction false} MembersKeys(obj: Json, i: nat, out: seq<(string, Json)>)
    requires obj.JObj? && i <= |obj.members|
    requires Keys(out) == FirstOccurrences(CamelKeys(obj.members[..i]))
    ensures Keys(CamelMembers(obj, i, out)) == FirstOccurrences(CamelKeys(obj.members))
    decreases |obj.members| - i
  {
    var ms := obj.members;
    if i == |ms| {
      assert ms[..i] == ms;
    } else {
      var k, v := CamelKey(ms[i].0), ToCamel(ms[i].1);
      PutKeyOrder(out, k, v);
      CamelKeysSnoc(ms, i);
      FirstOccurrencesSnoc(CamelKeys(ms[..i]), k);
      LookupKeys(out, k);
      MembersKeys(obj, i + 1, Put(out, k, v));
    }
  }

  lemma CamelKeysSnoc(ms: seq<(string, Json)>, i: nat)
    requires i < |ms|
    ensures CamelKeys(ms[..i + 1]) == CamelKeys(ms[..i]) + [CamelKey(ms[i].0)]
  {
    var before := CamelKeys(ms[..i]);
    var after := CamelKeys(ms[..i + 1]);
    assert |after| == |before| + 1;
    forall n | 0 <= n < |after| ensures after[n] == (before + [CamelKey(ms[i].0)])[n] {
    }
  }

  lemma FirstOccurrencesSnoc(ks: seq<string>, k: string)
    ensures FirstOccurrences(ks + [k]) == if k in ks then FirstOccurrences(ks) else FirstOccurrences(ks) + [k]
  {
    assert (ks + [k])[..|ks + [k]| - 1] == ks;
  }

  lemma LookupKeys(ms: seq<(string, Json)>, k: string)
    ensures Lookup(ms, k).Some? <==> k in Keys(ms)
  {
    if Lookup(ms, k).None? {
      assert forall n :: 0 <= n < |ms| ==> Keys(ms)[n] != k;
    }
  }

  lemma {:induction false} MembersValues(obj: Json, i: nat, out: seq<(string, Json)>)
    requires obj.JObj? && i <= |obj.members|
    requires forall k :: Lookup(out, k) == LastWith(obj.members[..i], k)
    ensures forall k :: Lookup(CamelMembers(obj, i, out), k) == LastWith(obj.members, k)
    decreases |obj.members| - i
  {
    var ms := obj.members;
    if i == |ms| {
      assert ms[..i] == ms;
    } else {
      var k0, v := CamelKey(ms[i].0), ToCamel(ms[i].1);
      var next := Put(out, k0, v);
      var pre := ms[..i + 1];
      assert pre[..|pre| - 1] == ms[..i] && pre[|pre| - 1] == ms[i];
      forall k ensures Lookup(next, k) == LastWith(pre, k) {
        if k == k0 {
          assert LastWith(pre, k) == Some(v);
        } else {
          assert Lookup(next, k) == Lookup(out, k) && LastWith(pre, k) == LastWith(ms[..i], k);
        }
      }
      MembersValues(obj, i + 1, next);
    }
  }

  lemma SnakeIdKey()
    ensures CamelKey("_id") == "Id"
  {
    assert CamelKey("d") == "d";
    assert "_id"[2..] == "d";
  }

  lemma UserIdKey()
    ensures CamelKey("user_id") == "userId"
  {
    RIdKey();
    assert "er_id"[1..] == "r_id";
    assert CamelKey("er_id") == "erId";
    assert "ser_id"[1..] == "er_id";
    assert CamelKey("ser_id") == "serId";
    assert "user_id"[1..] == "ser_id";
  }

  lemma RIdKey()
    ensures CamelKey("r_id") == "rId"
  {
    SnakeIdKey();
    assert "r_id"[1..] == "_id";
  }


  /** Underscores before anything but a lower-case letter stay. */
  lemma OtherUnderscoresStay()
    ensures CamelKey("a_1") == "a_1" && CamelKey("_a") == "A" && CamelKey("a__b") == "a_B"
  {
  }
}
