/**
 * The query-condition translator of apps/backend/src/types/query.ts:
 * `convertToSequelizeWhere` turns a tree of base and composite conditions
 * into a Sequelize `where` object.
 */
module QueryWhere {
  import opened Js

  /**
   * A `QueryCondition`. A base condition names a field, an operator (the
   * `QueryOperator` string, or any other string) and a value; a composite
   * one has optional `and` and `or` child lists.
   */
  datatype Condition =
    | Base(field: string, operator: string, value: Json)
    | Composite(and: Children, or: Children)

  /** An optional child list (an array is truthy even when empty). */
  datatype Children = Absent | Present(items: seq<Condition>)

  /** The Sequelize operator symbols the translator emits. */
  datatype SeqOp = Ne | Gt | Gte | Lt | Lte | In | NotIn | Like | NotLike | Is | Not | Between | NotBetween

  /** What a field is tested with: a plain value (equality) or `{[Op.x]: operand}`. */
  datatype Test = Equals(v: Json) | Apply(op: SeqOp, operand: Json)

  /**
   * A Sequelize `where` object: `{[field]: test}`, or the object holding
   * `[Op.and]` and/or `[Op.or]` lists (`{}` when it holds neither).
   */
  datatype Where =
    | OnField(field: string, test: Test)
    | Group(and: Clauses, or: Clauses)

  /** An `[Op.and]` or `[Op.or]` entry, when the object holds one. */
  datatype Clauses = NoClauses | Clauses(items: seq<Where>)

  /** The operator strings that map onto a Sequelize operator applied to the value. */
  function DirectOp(operator: string): Option<SeqOp> {
    if operator == "ne" then Some(Ne)
    else if operator == "gt" then Some(Gt)
    else if operator == "gte" then Some(Gte)
    else if operator == "lt" then Some(Lt)
    else if operator == "lte" then Some(Lte)
    else if operator == "in" then Some(In)
    else if operator == "notIn" then Some(NotIn)
    else if operator == "between" then Some(Between)
    else if operator == "notBetween" then Some(NotBetween)
    else None
  }

  /** The test a base condition's switch returns. */
  function TestFor(operator: string, value: Json): Test {
    var text := ToJsString(value);
    if operator == "eq" then Equals(value)
    else if DirectOp(operator).Some? then Apply(DirectOp(operator).value, value)
    else if operator == "like" then Apply(Like, JStr("%" + text + "%"))
    else if operator == "notLike" then Apply(NotLike, JStr("%" + text + "%"))
    else if operator == "startsWith" then Apply(Like, JStr(text + "%"))
    else if operator == "endsWith" then Apply(Like, JStr("%" + text))
    else if operator == "isNull" then Apply(Is, JNull)
    else if operator == "isNotNull" then Apply(Not, JNull)
    else Equals(value)
  }

  /** `convertToSequelizeWhere(condition)`. */
  function Convert(c: Condition): (w: Where)
    ensures c.Base? <==> w.OnField?
    ensures c.Base? ==> w.field == c.field && w.test == TestFor(c.operator, c.value)
    ensures c.Composite? ==> (w.and.Clauses? <==> c.and.Present?) && (w.or.Clauses? <==> c.or.Present?)
    ensures c.Composite? && c.and.Present? ==> |w.and.items| == |c.and.items|
    ensures c.Composite? && c.or.Present? ==> |w.or.items| == |c.or.items|
    decreases c, 1
  {
    match c
    case Base(field, operator, value) => OnField(field, TestFor(operator, value))
    case Composite(and, or) =>
      var a := if and.Present? then Clauses(ConvertAll(and.items, c)) else NoClauses;
      var o := if or.Present? then Clauses(ConvertAll(or.items, c)) else NoClauses;
      Group(a, o)
  }

  /** `children.map(convertToSequelizeWhere)`: element by element, in order. */
  function ConvertAll(cs: seq<Condition>, parent: Condition): (ws: seq<Where>)
    requires forall i :: 0 <= i < |cs| ==> cs[i] < parent
    ensures |ws| == |cs|
    ensures forall i :: 0 <= i < |cs| ==> ws[i] == Convert(cs[i])
    decreases parent, 0, |cs|
  {
    if cs == [] then [] else [Convert(cs[0])] + ConvertAll(cs[1..], parent)
  }

  // ------------------------------------------------------------ properties

  /** The fields a condition tests, leaves left to right. */
  function Fields(c: Condition): seq<string>
    decreases c, 1
  {
    match c
    case Base(field, _, _) => [field]
    case Composite(and, or) =>
      (if and.Present? then FieldsAll(and.items, c) else []) + (if or.Present? then FieldsAll(or.items, c) else [])
  }

  function FieldsAll(cs: seq<Condition>, parent: Condition): seq<string>
    requires forall i :: 0 <= i < |cs| ==> cs[i] < parent
    decreases parent, 0, |cs|
  {
    if cs == [] then [] else Fields(cs[0]) + FieldsAll(cs[1..], parent)
  }

  /** The fields a `where` object tests, leaves left to right. */
  function WhereFields(w: Where): seq<string>
    decreases w, 1
  {
    match w
    case OnField(field, _) => [field]
    case Group(and, or) =>
      (if and.Clauses? then WhereFieldsAll(and.items, w) else []) + (if or.Clauses? then WhereFieldsAll(or.items, w) else [])
  }

  function WhereFieldsAll(ws: seq<Where>, parent: Where): seq<string>
    requires forall i :: 0 <= i < |ws| ==> ws[i] < parent
    decreases parent, 0, |ws|
  {
    if ws == [] then [] else WhereFields(ws[0]) + WhereFieldsAll(ws[1..], parent)
  }

  /** The translation tests the same fields, in the same order, as the condition tree. */
  lemma {:induction false} FieldsPreserved(c: Condition)
    ensures WhereFields(Convert(c)) == Fields(c)
    decreases c, 1
  {
    match c {
      case Base(_, _, _) =>
      case Composite(and, or) =>
        var w := Convert(c);
            if and.Present? {
          FieldsAllPreserved(and.items, c, w);
        }
        if or.Present? {
          FieldsAllPreserved(or.items, c, w);
        }
    }
  }

  lemma {:induction false} FieldsAllPreserved(cs: seq<Condition>, parent: Condition, wparent: Where)
    requires forall i :: 0 <= i < |cs| ==> cs[i] < parent
    requires forall i :: 0 <= i < |cs| ==> Convert(cs[i]) < wparent
    ensures WhereFieldsAll(ConvertAll(cs, parent), wparent) == FieldsAll(cs, parent)
    decreases parent, 0, |cs|
  {
    if cs != [] {
      FieldsPreserved(cs[0]);
      var ws := ConvertAll(cs, parent);
      assert ws[1..] == ConvertAll(cs[1..], parent);
      FieldsAllPreserved(cs[1..], parent, wparent);
    }
  }

  /** Equality and any unrecognised operator both become `{field: value}`. */
  lemma EqualAndUnknownArePlain(field: string, operator: string, value: Json)
    requires operator == "eq" || operator !in {"ne", "gt", "gte", "lt", "lte", "in", "notIn", "like", "notLike",
      "startsWith", "endsWith", "isNull", "isNotNull", "between", "notBetween"}
    ensures Convert(Base(field, operator, value)) == OnField(field, Equals(value))
  {
  }

  /** The pattern operators wrap the value's text in `%` on the matching sides. */
  lemma PatternsWrap(field: string, s: string)
    ensures Convert(Base(field, "like", JStr(s))) == OnField(field, Apply(Like, JStr("%" + s + "%")))
    ensures Convert(Base(field, "notLike", JStr(s))) == OnField(field, Apply(NotLike, JStr("%" + s + "%")))
    ensures Convert(Base(field, "startsWith", JStr(s))) == OnField(field, Apply(Like, JStr(s + "%")))
    ensures Convert(Base(field, "endsWith", JStr(s))) == OnField(field, Apply(Like, JStr("%" + s)))
  {
  }

  /** The null tests ignore the value entirely. */
  lemma NullTestsIgnoreValue(field: string, v1: Json, v2: Json)
    ensures Convert(Base(field, "isNull", v1)) == Convert(Base(field, "isNull", v2)) == OnField(field, Apply(Is, JNull))
    ensures Convert(Base(field, "isNotNull", v1)) == Convert(Base(field, "isNotNull", v2)) == OnField(field, Apply(Not, JNull))
  {
  }

  /** A composite with neither list is `{}`; an empty `and` list is still emitted, since arrays are truthy. */
  lemma EmptyComposites()
    ensures Convert(Composite(Absent, Absent)) == Group(NoClauses, NoClauses)
    ensures Convert(Composite(Present([]), Absent)) == Group(Clauses([]), NoClauses)
  {
  }
}
