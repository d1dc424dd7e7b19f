/**
 * The backend's service base, apps/backend/src/services/BaseService.ts:
 * every service method resolves to an `ApiResponse` envelope, database
 * failures are mapped to envelopes by `handleError`, and the generic CRUD
 * operations work on the service's own table.
 */
module BaseService {
  import opened Js

  /** `ApiResponse`: the envelope every service method resolves to; None is an absent `data`. */
  datatype Api = Api(code: int, message: string, data: Option<Json>)

  /** A Sequelize error: its `name` and the `message` of each item of its `errors` list. */
  datatype DbError = DbError(name: string, itemMessages: seq<string>)

  const UniqueConstraint := "SequelizeUniqueConstraintError"
  const ValidationFailure := "SequelizeValidationError"

  /** `handleError(error, message)`: what a caught database error becomes. */
  function HandleError(e: DbError, message: string): (r: Api)
    ensures r.data.None? && (r.code == 400 || r.code == 409 || r.code == 500)
    ensures r.code == 409 <==> e.name == UniqueConstraint
    ensures r.code == 400 <==> e.name == ValidationFailure
    ensures r.code == 400 ==> r.message != ""
    ensures r.code == 500 ==> r.message == message
  {
    if e.name == UniqueConstraint then Api(409, "数据已存在", None)
    else if e.name == ValidationFailure then
      Api(400, if |e.itemMessages| > 0 && e.itemMessages[0] != "" then e.itemMessages[0] else "数据验证失败", None)
    else Api(500, message, None)
  }

  /** A validation error reports its first item's message, or the default one when that is missing or empty. */
  lemma ValidationMessage(items: seq<string>, message: string)
    ensures HandleError(DbError(ValidationFailure, items), message).message ==
      if items != [] && items[0] != "" then items[0] else "数据验证失败"
  {
  }

  // ------------------------------------------------------------ pagination

  /** `(page - 1) * size`: the rows skipped before the requested page. */
  function Offset(page: int, size: int): (o: int)
    ensures page >= 1 && size >= 0 ==> o >= 0
  {
    (page - 1) * size
  }

  /** What a query against a table gives back: `findAndCountAll`'s count and rows, or a thrown error. */
  datatype Query = Found(count: int, rows: seq<Json>) | QueryFails(e: DbError)

  /** The `PaginationResponse` for one page. */
  function PageData(rows: seq<Json>, count: int, page: int, size: int): (j: Json)
    ensures j.JObj? && |j.members| == 5
    ensures Keys(j.members) == ["data", "total", "page", "size", "totalPages"]
    ensures j.members[4].1 == JNum(CeilDiv(count, size))
  {
    JObj([("data", JArr(rows)), ("total", Int(count)), ("page", Int(page)), ("size", Int(size)),
      ("totalPages", JNum(CeilDiv(count, size)))])
  }

  /** `findAllWithPagination(params, where)`, given what the page query with that limit and offset returns. */
  function PageReply(db: (int, int) -> Query, page: int, size: int): (r: Api)
    ensures db(size, Offset(page, size)).Found? ==>
      r.code == 200 &&
      r.data == Some(PageData(db(size, Offset(page, size)).rows, db(size, Offset(page, size)).count, page, size))
    ensures db(size, Offset(page, size)).QueryFails? ==> r == HandleError(db(size, Offset(page, size)).e, "查询失败")
  {
    match db(size, Offset(page, size))
    case Found(count, rows) => Api(200, "查询成功", Some(PageData(rows, count, page, size)))
    case QueryFails(e) => HandleError(e, "查询失败")
  }

  /** `limit` rows from `offset` onwards (`findAndCountAll`'s page); a negative offset is read as 0. */
  function Window(rows: seq<Json>, offset: int, limit: int): (w: seq<Json>)
    ensures |w| <= |rows| && (limit >= 0 ==> |w| <= limit)
    ensures 0 <= offset <= |rows| && 0 <= limit ==> |w| == if offset + limit <= |rows| then limit else |rows| - offset
    ensures offset >= |rows| ==> w == []
    ensures 0 <= offset <= |rows| ==> offset + |w| <= |rows|
    ensures 0 <= offset <= |rows| ==> forall i :: 0 <= i < |w| ==> w[i] == rows[offset + i]
  {
    var lo := if offset < 0 then 0 else if offset > |rows| then |rows| else offset;
    var hi := if limit < 0 then lo else if lo + limit > |rows| then |rows| else lo + limit;
    rows[lo..hi]
  }

  /** An optional numeric filter counts only when it is truthy: undefined, NaN and 0 select everything. */
  predicate ClassGiven(classId: Option<int>) {
    classId.Some? && classId.value != 0
  }

  /** `totalPages` pages of `size` rows hold the `count` rows, and one page fewer would not. */
  lemma PagesCoverCount(count: nat, size: int)
    requires size > 0
    ensures CeilDiv(count, size).Fin?
    ensures var t := CeilDiv(count, size).r.Floor; t >= 0 && (t - 1) * size < count <= t * size
    ensures count == 0 ==> CeilDiv(count, size) == Fin(0.0)
  {
    CeilDivBounds(count, size);
  }

  /** Consecutive pages start `size` rows apart, the first at row 0. */
  lemma PagesAreContiguous(page: int, size: int)
    ensures Offset(1, size) == 0
    ensures Offset(page + 1, size) == Offset(page, size) + size
  {
  }

  // ------------------------------------------------------------ link tables

  /** A row of an association table (user–role, course–teacher): the owning id and the linked id. */
  datatype Link = Link(owner: int, target: int)

  /** The links left after `destroy({where: {<owner column>: owner}})`. */
  function Unlinked(links: seq<Link>, owner: int): (rest: seq<Link>)
    ensures forall l :: l in rest <==> l in links && l.owner != owner
  {
    if links == [] then []
    else (if links[0].owner == owner then [] else [links[0]]) + Unlinked(links[1..], owner)
  }

  /** `ids.map(id => ({<owner column>: owner, <target column>: id}))`. */
  function LinksFor(owner: int, targets: seq<int>): (ls: seq<Link>)
    ensures |ls| == |targets|
    ensures forall i :: 0 <= i < |ls| ==> ls[i] == Link(owner, targets[i])
  {
    if targets == [] then [] else [Link(owner, targets[0])] + LinksFor(owner, targets[1..])
  }

  /** The ids linked to `owner`, in link order. */
  function TargetsOf(links: seq<Link>, owner: int): seq<int> {
    if links == [] then []
    else (if links[0].owner == owner then [links[0].target] else []) + TargetsOf(links[1..], owner)
  }

  /** The owners linked to `target`, in link order. */
  function OwnersOf(links: seq<Link>, target: int): (os: seq<int>)
    ensures forall o :: o in os <==> Link(o, target) in links
  {
    if links == [] then []
    else (if links[0].target == target then [links[0].owner] else []) + OwnersOf(links[1..], target)
  }

  lemma {:induction false} TargetsOfAppend(a: seq<Link>, b: seq<Link>, owner: int)
    ensures TargetsOf(a + b, owner) == TargetsOf(a, owner) + TargetsOf(b, owner)
  {
    if a != [] {
      assert (a + b)[1..] == a[1..] + b;
      TargetsOfAppend(a[1..], b, owner);
    } else {
      assert a + b == b;
    }
  }

  lemma {:induction false} TargetsOfUnlinked(links: seq<Link>, owner: int)
    ensures TargetsOf(Unlinked(links, owner), owner) == []
  {
    if links != [] {
      TargetsOfUnlinked(links[1..], owner);
      var head := if links[0].owner == owner then [] else [links[0]];
      TargetsOfAppend(head, Unlinked(links[1..], owner), owner);
    }
  }

  lemma {:induction false} TargetsOfLinksFor(owner: int, targets: seq<int>)
    ensures TargetsOf(LinksFor(owner, targets), owner) == targets
  {
    if targets != [] {
      TargetsOfLinksFor(owner, targets[1..]);
      assert LinksFor(owner, targets)[1..] == LinksFor(owner, targets[1..]);
    }
  }

  /** How a replace of link rows can fail: before anything is written, or at the insert after the delete. */
  datatype Fault = NoFault | BeforeWrite(e: DbError) | AtInsert(e: DbError)

  /**
   * Replacing an owner's links, once the checks have passed: the delete,
   * then (for a non-empty list) the insert, which may fail on its own.
   */
  function Replaced(links: seq<Link>, owner: int, targets: seq<int>, fault: Fault): seq<Link> {
    if fault.AtInsert? && |targets| > 0 then Unlinked(links, owner) else Unlinked(links, owner) + LinksFor(owner, targets)
  }

  /** A replace that reaches the end leaves exactly the new links for the owner and keeps every other owner's. */
  lemma ReplacedTargets(links: seq<Link>, owner: int, targets: seq<int>)
    ensures TargetsOf(Replaced(links, owner, targets, NoFault), owner) == targets
    ensures forall l: Link :: l.owner != owner ==> (l in Replaced(links, owner, targets, NoFault) <==> l in links)
  {
    TargetsOfAppend(Unlinked(links, owner), LinksFor(owner, targets), owner);
    TargetsOfUnlinked(links, owner);
    TargetsOfLinksFor(owner, targets);
  }

  /** The replace is not atomic: an insert that fails after the delete leaves the owner with no links. */
  lemma FailedInsertEmpties(links: seq<Link>, owner: int, targets: seq<int>, e: DbError)
    requires |targets| > 0
    ensures TargetsOf(Replaced(links, owner, targets, AtInsert(e)), owner) == []
    ensures forall l: Link :: l.owner != owner ==> (l in Replaced(links, owner, targets, AtInsert(e)) <==> l in links)
  {
    TargetsOfUnlinked(links, owner);
  }

  // ------------------------------------------------------------ the table

  /** A column value taken from a request body; an undefined property is stored as null. */
  function Column(body: Json, key: string): Json {
    Coalesce(Field(body, key), JNull)
  }

  /**
   * A column value taken from a request body for a column declared with a default:
   * Sequelize applies the default when the property is undefined, and stores any
   * value the body gives, null included.
   */
  function ColumnOr(body: Json, key: string, default: Json): (v: Json)
    ensures Field(body, key).None? ==> v == default
    ensures Field(body, key).Some? ==> v == Field(body, key).value
  {
    if Field(body, key).Some? then Field(body, key).value else default
  }

  // ------------------------------------------------------------ primary keys

  /** The range of Postgres' 32-bit `integer`, the type of every id column. */
  const Int4Min := -0x8000_0000
  const Int4Max := 0x7FFF_FFFF

  /** The white space Postgres' integer input skips around the digits. */
  predicate PgSpace(c: char) {
    c == ' ' || c == '\t' || c == '\n' || c == '\r' || c == '\U{000B}' || c == '\U{000C}'
  }

  function PgTrimStart(s: string): (r: string)
    ensures |r| <= |s| && r == s[|s| - |r|..]
    ensures r == "" || !PgSpace(r[0])
  {
    if s != [] && PgSpace(s[0]) then PgTrimStart(s[1..]) else s
  }

  function PgTrimEnd(s: string): (r: string)
    ensures |r| <= |s| && r == s[..|r|]
    ensures r == "" || !PgSpace(r[|r| - 1])
  {
    if s != [] && PgSpace(s[|s| - 1]) then PgTrimEnd(s[..|s| - 1]) else s
  }

  predicate AllDecimal(d: string) {
    forall i :: 0 <= i < |d| ==> '0' <= d[i] <= '9'
  }

  /**
   * What Postgres reads from a text compared with an `integer` column: optional
   * white space around one optional sign and at least one decimal digit, within
   * 32 bits. None when the text is rejected (the query then fails).
   */
  function PgInteger(s: string): (n: Option<int>)
    ensures n.Some? ==> Int4Min <= n.value <= Int4Max
  {
    PgSigned(PgTrimEnd(PgTrimStart(s)))
  }

  /** The signed digit run a trimmed text must be. */
  function PgSigned(t: string): (n: Option<int>)
    ensures n.Some? ==> Int4Min <= n.value <= Int4Max
  {
    var d := if t != [] && (t[0] == '-' || t[0] == '+') then t[1..] else t;
    if d == [] || !AllDecimal(d) then None
    else
      var v := if t[0] == '-' then -DigitsValue(d, 10) else DigitsValue(d, 10);
      if Int4Min <= v <= Int4Max then Some(v) else None
  }

  /** A text that starts and ends with something other than white space is not trimmed. */
  lemma PgTrimmed(s: string)
    requires s != [] && !PgSpace(s[0]) && !PgSpace(s[|s| - 1])
    ensures PgInteger(s) == PgSigned(s)
  {
    assert PgTrimStart(s) == s;
    assert PgTrimEnd(s) == s;
  }

  lemma PgSignedPlain(d: string)
    requires d != [] && AllDecimal(d) && 0 <= DigitsValue(d, 10) <= Int4Max
    ensures PgSigned(d) == Some(DigitsValue(d, 10))
  {
    assert d[0] != '-' && d[0] != '+';
  }

  lemma PgSignedNegative(d: string)
    requires d != [] && AllDecimal(d) && 0 <= DigitsValue(d, 10) <= -Int4Min
    ensures PgSigned("-" + d) == Some(-DigitsValue(d, 10))
  {
    var m := "-" + d;
    assert m[0] == '-' && m[1..] == d;
  }

  /** Postgres reads a sign-free digit run as its value, and with a leading '-' as its negation. */
  lemma PgIntegerDigits(d: string)
    requires d != [] && AllDecimal(d) && 0 <= DigitsValue(d, 10) <= -Int4Min
    ensures DigitsValue(d, 10) <= Int4Max ==> PgInteger(d) == Some(DigitsValue(d, 10))
    ensures PgInteger("-" + d) == Some(-DigitsValue(d, 10))
  {
    if DigitsValue(d, 10) <= Int4Max {
      PgIntegerPlain(d);
    }
    PgIntegerNegated(d);
  }

  lemma PgIntegerPlain(d: string)
    requires d != [] && AllDecimal(d) && 0 <= DigitsValue(d, 10) <= Int4Max
    ensures PgInteger(d) == Some(DigitsValue(d, 10))
  {
    assert !PgSpace(d[0]) && !PgSpace(d[|d| - 1]);
    PgTrimmed(d);
    PgSignedPlain(d);
  }

  lemma PgIntegerNegated(d: string)
    requires d != [] && AllDecimal(d) && 0 <= DigitsValue(d, 10) <= -Int4Min
    ensures PgInteger("-" + d) == Some(-DigitsValue(d, 10))
  {
    var m := "-" + d;
    assert m[|m| - 1] == d[|d| - 1];
    assert !PgSpace(m[0]) && !PgSpace(m[|m| - 1]);
    PgTrimmed(m);
    PgSignedNegative(d);
  }

  /** Postgres reads back the decimal text of any 32-bit integer. */
  lemma PgIntegerText(i: int)
    requires Int4Min <= i <= Int4Max
    ensures PgInteger(IntText(i)) == Some(i)
  {
    var n: nat := if i < 0 then -i else i;
    DigitsOfNatText(n);
    if i < 0 {
      assert IntText(i) == "-" + NatText(n);
    }
    PgIntegerDigits(NatText(n));
  }

  /** What Sequelize and Postgres do with the value a row is looked up by. */
  datatype KeyLookup = ByKey(key: int) | NoRow | Refused(e: DbError)

  /** `findByPk` refuses a boolean, an array or an object before any query. */
  const ArgumentRejected := DbError("Error", [])
  /** Postgres refuses a text it cannot read as an integer, and the identifiers `NaN` and `Infinity`. */
  const QueryRejected := DbError("SequelizeDatabaseError", [])

  /**
   * `findByPk(value)` on an integer key: null and undefined find nothing without a
   * query; a number is compared as it is, so only an integral one can match; a
   * string is read by Postgres; anything else is refused.
   */
  function PkOf(v: Option<Json>): (l: KeyLookup)
    ensures l.Refused? ==> l.e.name != UniqueConstraint && l.e.name != ValidationFailure
  {
    if v.None? then NoRow
    else match v.value
      case JNull => NoRow
      case JNum(n) => if !n.Fin? then Refused(QueryRejected) else if IsIntegral(n.r) then ByKey(n.r.Floor) else NoRow
      case JStr(s) => if PgInteger(s).Some? then ByKey(PgInteger(s).value) else Refused(QueryRejected)
      case _ => Refused(ArgumentRejected)
  }

  /** The key a lookup matches, if any: an integral number, or a string Postgres reads as one. */
  function KeyOf(v: Option<Json>): (k: Option<int>)
    ensures k.Some? <==> PkOf(v).ByKey?
  {
    if PkOf(v).ByKey? then Some(PkOf(v).key) else None
  }

  /** A lookup matches a key only for that integral number or for a text Postgres reads as it. */
  lemma KeyOfMatches(v: Option<Json>)
    ensures KeyOf(v).Some? ==> v == Some(Int(KeyOf(v).value)) || (v.Some? && v.value.JStr? && PgInteger(v.value.s) == KeyOf(v))
  {
  }

  /** A key sent as its decimal text finds the same row as the number itself. */
  lemma KeyTextAgrees(i: int)
    requires Int4Min <= i <= Int4Max
    ensures PkOf(Some(JStr(IntText(i)))) == PkOf(Some(Int(i))) == ByKey(i)
  {
    PgIntegerText(i);
    TextKey(IntText(i), i);
    NumberKey(i);
  }

  /** A text Postgres reads as `i` looks up key `i`. */
  lemma TextKey(t: string, i: int)
    requires PgInteger(t) == Some(i)
    ensures PkOf(Some(JStr(t))) == ByKey(i)
  {
  }

  /** An integer looks up itself. */
  lemma NumberKey(i: int)
    ensures PkOf(Some(Int(i))) == ByKey(i)
  {
    assert (i as real).Floor == i;
  }

  /** Only null and undefined, a non-integral number, an integer text or an integral number pass without an error. */
  lemma RefusedKeys(v: Json)
    ensures PkOf(Some(v)).Refused? <==>
      v.JBool? || v.JArr? || v.JObj? || (v.JNum? && !v.n.Fin?) || (v.JStr? && PgInteger(v.s).None?)
  {
  }

  /** The members of an object value; anything else contributes none. */
  function Members(j: Json): seq<(string, Json)> {
    if j.JObj? then j.members else []
  }

  /** The row after `model.update(data)`: each property of `data` overwrites the row's. */
  function Patched(row: seq<(string, Json)>, data: seq<(string, Json)>): seq<(string, Json)> {
    if data == [] then row else Put(Patched(row, data[1..]), data[0].0, data[0].1)
  }

  /** A patched row holds the patch's value for each key it names and the old value for every other key. */
  lemma {:induction false} PatchedLookup(row: seq<(string, Json)>, data: seq<(string, Json)>, k: string)
    ensures Lookup(Patched(row, data), k) == if Lookup(data, k).Some? then Lookup(data, k) else Lookup(row, k)
  {
    if data != [] {
      PatchedLookup(row, data[1..], k);
    }
  }

  /** The stored row for a new record: the data with the id the database assigned. */
  function Inserted(id: int, data: Json): (row: Json)
    ensures Field(row, "id") == Some(Int(id))
  {
    JObj(Put(Members(data), "id", Int(id)))
  }

  /** `findById`'s answer. */
  function FindReply(rows: map<int, Json>, id: int): (r: Api)
    ensures r.code == 404 <==> id !in rows
    ensures id in rows ==> r == Api(200, "查询成功", Some(rows[id]))
  {
    if id in rows then Api(200, "查询成功", Some(rows[id])) else Api(404, "记录不存在", None)
  }

  /** The table after `update(id, data)` succeeds: only row `id` changes. */
  function AfterUpdate(rows: map<int, Json>, id: int, data: Json): (rows': map<int, Json>)
    ensures rows'.Keys == rows.Keys
    ensures forall other :: other in rows && other != id ==> rows'[other] == rows[other]
  {
    if id in rows then rows[id := JObj(Patched(Members(rows[id]), Members(data)))] else rows
  }

  /** `update`'s answer: 404 when no row matched, else the updated row. */
  function UpdateReply(rows: map<int, Json>, id: int, data: Json, success: string): (r: Api)
    ensures r.code == 404 <==> id !in rows
    ensures id in rows ==> r == Api(200, success, Some(AfterUpdate(rows, id, data)[id]))
  {
    if id in rows then Api(200, success, Some(AfterUpdate(rows, id, data)[id])) else Api(404, "记录不存在", None)
  }

  /** `update(id, data)` as a whole: a caught database error, or the answer on the current table. */
  function UpdateResult(rows: map<int, Json>, id: int, data: Json, fault: Option<DbError>): (r: Api)
    ensures fault.Some? ==> r.code != 200 && r.code != 404 && r == HandleError(fault.value, "更新失败")
    ensures fault.None? ==> r == UpdateReply(rows, id, data, "更新成功")
  {
    if fault.Some? then HandleError(fault.value, "更新失败") else UpdateReply(rows, id, data, "更新成功")
  }

  /** The table after `update(id, data)`: unchanged when the statement fails. */
  function UpdatedRows(rows: map<int, Json>, id: int, data: Json, fault: Option<DbError>): map<int, Json> {
    if fault.Some? then rows else AfterUpdate(rows, id, data)
  }

  /** Reading back an updated row finds the patched values. */
  lemma UpdateThenFind(rows: map<int, Json>, id: int, data: Json, k: string)
    requires id in rows
    ensures var found := FindReply(AfterUpdate(rows, id, data), id);
      found.code == 200 && found.data.Some? &&
      Field(found.data.value, k) == if Field(data, k).Some? then Field(data, k) else Field(rows[id], k)
  {
    PatchedLookup(Members(rows[id]), Members(data), k);
  }

  /** A deleted row is not found afterwards; the others still are. */
  lemma DeleteThenFind(rows: map<int, Json>, id: int, other: int)
    ensures FindReply(rows - {id}, id).code == 404
    ensures other != id ==> FindReply(rows - {other}, id) == FindReply(rows, id)
  {
  }

  /** `updateXStatus(id, status)` as written: only a 404 from `update` passes through; anything else is reported as success. */
  function StatusUpdateAsWritten(rows: map<int, Json>, id: int, status: Json, fault: Option<DbError>, success: string): Api {
    var result := UpdateResult(rows, id, JObj([("status", status)]), fault);
    if result.code == 404 then result else Api(200, success, result.data)
  }

  /** A failed update statement changes nothing, yet the caller is told the status was updated. */
  lemma FailedUpdateReportedAsSuccess(rows: map<int, Json>, id: int, status: Json, e: DbError, success: string)
    ensures StatusUpdateAsWritten(rows, id, status, Some(e), success) == Api(200, success, None)
    ensures UpdatedRows(rows, id, JObj([("status", status)]), Some(e)) == rows
  {
  }

  /** `updateXStatus(id, status)` with the update's failures passed through, as its success path assumes. */
  function StatusUpdate(rows: map<int, Json>, id: int, status: Json, fault: Option<DbError>, success: string): (r: Api)
    ensures r.code == 200 <==> fault.None? && id in rows
    ensures fault.Some? ==> r == HandleError(fault.value, "更新失败")
    ensures fault.None? && id !in rows ==> r == Api(404, "记录不存在", None)
  {
    var result := UpdateResult(rows, id, JObj([("status", status)]), fault);
    if result.code != 200 then result else Api(200, success, result.data)
  }

  /** A reported success carries the updated row, which holds the new status; no other row changes. */
  lemma StatusUpdateWritten(rows: map<int, Json>, id: int, status: Json, success: string)
    requires id in rows
    ensures var r := StatusUpdate(rows, id, status, None, success);
      var rows' := UpdatedRows(rows, id, JObj([("status", status)]), None);
      r == Api(200, success, Some(rows'[id])) && Field(rows'[id], "status") == Some(status) &&
      forall other :: other in rows && other != id ==> rows'[other] == rows[other]
  {
    PatchedLookup(Members(rows[id]), [("status", status)], "status");
  }

  /**
   * The generic operations of BaseService on the service's own table:
   * `rows` maps each id to its stored record, and `nextId` is the id the
   * database assigns to the next insert.
   */
  class Table {
    var rows: map<int, Json>
    var nextId: int

    /** Every stored id was assigned before `nextId`. */
    predicate Valid()
      reads this
    {
      nextId >= 1 && forall id :: id in rows ==> 0 < id < nextId
    }

    constructor ()
      ensures Valid() && rows == map[] && nextId == 1
    {
      rows := map[];
      nextId := 1;
    }

    /** `create(data)`: 201 with the stored record, or the mapped error with nothing stored. */
    method Create(data: Json, fault: Option<DbError>) returns (r: Api)
      requires Valid()
      modifies this
      ensures Valid()
      ensures fault.Some? ==> r == HandleError(fault.value, "创建失败") && rows == old(rows) && nextId == old(nextId)
      ensures fault.None? ==>
        old(nextId) !in old(rows) && rows == old(rows)[old(nextId) := Inserted(old(nextId), data)] &&
        nextId == old(nextId) + 1 && r == Api(201, "创建成功", Some(rows[old(nextId)]))
    {
      if fault.Some? {
        return HandleError(fault.value, "创建失败");
      }
      var row := Inserted(nextId, data);
      rows := rows[nextId := row];
      nextId := nextId + 1;
      r := Api(201, "创建成功", Some(row));
    }

    /** `findById(id)`. */
    method FindById(id: int, fault: Option<DbError>) returns (r: Api)
      ensures r == if fault.Some? then HandleError(fault.value, "查询失败") else FindReply(rows, id)
    {
      if fault.Some? {
        return HandleError(fault.value, "查询失败");
      }
      if id !in rows {
        return Api(404, "记录不存在", None);
      }
      r := Api(200, "查询成功", Some(rows[id]));
    }

    /** `update(id, data)`: the row is patched in place when it exists. */
    method Update(id: int, data: Json, fault: Option<DbError>) returns (r: Api)
      requires Valid()
      modifies this
      ensures Valid()
      ensures nextId == old(nextId)
      ensures r == UpdateResult(old(rows), id, data, fault) && rows == UpdatedRows(old(rows), id, data, fault)
    {
      if fault.Some? {
        return HandleError(fault.value, "更新失败");
      }
      if id !in rows {
        return Api(404, "记录不存在", None);
      }
      rows := rows[id := JObj(Patched(Members(rows[id]), Members(data)))];
      r := Api(200, "更新成功", Some(rows[id]));
    }

    /** `delete(id)`: 404 when nothing matched, else the row is gone and the answer is `true`. */
    method Delete(id: int, fault: Option<DbError>) returns (r: Api)
      requires Valid()
      modifies this
      ensures Valid()
      ensures nextId == old(nextId)
      ensures fault.Some? ==> r == HandleError(fault.value, "删除失败") && rows == old(rows)
      ensures fault.None? && id !in old(rows) ==> r == Api(404, "记录不存在", None) && rows == old(rows)
      ensures fault.None? && id in old(rows) ==> r == Api(200, "删除成功", Some(JBool(true))) && rows == old(rows) - {id}
    {
      if fault.Some? {
        return HandleError(fault.value, "删除失败");
      }
      if id !in rows {
        return Api(404, "记录不存在", None);
      }
      rows := rows - {id};
      r := Api(200, "删除成功", Some(JBool(true)));
    }
  }

  /** `findAll(where)`: 200 with the matching rows, in the query's order. */
  function FindAllReply(q: Query): (r: Api)
    ensures q.Found? ==> r == Api(200, "查询成功", Some(JArr(q.rows)))
    ensures q.QueryFails? ==> r == HandleError(q.e, "查询失败")
  {
    if q.Found? then Api(200, "查询成功", Some(JArr(q.rows))) else HandleError(q.e, "查询失败")
  }
}
