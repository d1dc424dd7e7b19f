/**
 * The backend's request validators, apps/backend/src/middleware/validation.ts:
 * required body fields, pagination query parameters and a numeric id
 * route parameter. Every failure throws a `ValidationError` before `next()`.
 */
module Validation {
  import opened Js
  import opened Koa

  const ValidationMessage := "参数验证失败"

  /** `new ValidationError(errors)`: name, message, the per-field errors and status code 400. */
  function ValidationErrorValue(errors: seq<(string, Json)>): (e: Json)
    ensures Field(e, "name") == Some(JStr("ValidationError"))
    ensures Field(e, "statusCode") == Some(Int(400))
    ensures Field(e, "errors") == Some(JObj(errors))
  {
    var e := ErrorValue("ValidationError", ValidationMessage, [("errors", JObj(errors)), ("statusCode", Int(400))]);
    ErrorShape(errors);
    e
  }

  lemma ErrorShape(errors: seq<(string, Json)>)
    ensures var ms := ErrorValue("ValidationError", ValidationMessage, [("errors", JObj(errors)), ("statusCode", Int(400))]).members;
      Lookup(ms, "name") == Some(JStr("ValidationError")) &&
      Lookup(ms, "statusCode") == Some(Int(400)) && Lookup(ms, "errors") == Some(JObj(errors))
  {
    var ms := ErrorValue("ValidationError", ValidationMessage, [("errors", JObj(errors)), ("statusCode", Int(400))]).members;
    assert "statusCode"[0] != "name"[0] && "statusCode"[0] != "message"[0] && "statusCode"[0] != "errors"[0];
    assert "errors"[0] != "name"[0] && "errors"[0] != "message"[0];
    assert ms[2..] == [("errors", JObj(errors)), ("statusCode", Int(400))];
    assert Lookup(ms[2..][1..], "statusCode") == Some(Int(400));
    assert Lookup(ms[2..], "errors") == Some(JObj(errors));
    assert ms[2..] == ms[1..][1..];
  }

  // ------------------------------------------------------------ validateRequired

  /** `ctx.request.body || {}`. */
  function BodyOrEmpty(body: Option<Json>): Json {
    if TruthyOpt(body) then body.value else JObj([])
  }

  /** `body[field]` is undefined, null or the empty string; 0 and false are present. */
  predicate Missing(body: Json, field: string) {
    var v := Field(body, field);
    v.None? || v.value.JNull? || v.value == JStr("")
  }

  /** The required fields that are missing, in declaration order. */
  function MissingFields(body: Json, fields: seq<string>): (r: seq<string>)
    ensures forall f :: f in r <==> f in fields && Missing(body, f)
    ensures |r| <= |fields|
  {
    if fields == [] then []
    else
      var init := fields[..|fields| - 1];
      var last := fields[|fields| - 1];
      assert fields == init + [last];
      MissingFields(body, init) + (if Missing(body, last) then [last] else [])
  }

  /** The message for one missing field. */
  function MissingText(field: string): string {
    field + " 不能为空"
  }

  /** `missingFields.forEach(field => errors[field] = ...)`: one entry per missing field. */
  function MissingErrors(missing: seq<string>): (errors: seq<(string, Json)>)
    ensures forall f :: f in missing ==> Lookup(errors, f) == Some(JStr(MissingText(f)))
    ensures forall f :: f !in missing ==> Lookup(errors, f).None?
  {
    if missing == [] then []
    else
      var init := missing[..|missing| - 1];
      var last := missing[|missing| - 1];
      assert missing == init + [last];
      Put(MissingErrors(init), last, JStr(MissingText(last)))
  }

  /** The `for` loop collecting the missing fields. */
  method CollectMissing(body: Json, fields: seq<string>) returns (missing: seq<string>)
    ensures missing == MissingFields(body, fields)
  {
    missing := [];
    var k := 0;
    while k < |fields|
      invariant 0 <= k <= |fields|
      invariant missing == MissingFields(body, fields[..k])
    {
      assert fields[..k + 1][..k] == fields[..k];
      if Missing(body, fields[k]) {
        missing := missing + [fields[k]];
      }
      k := k + 1;
    }
    assert fields[..k] == fields;
  }

  /**
   * `validateRequired(requiredFields)`: the middleware throws a
   * ValidationError naming every missing field, or lets `next()` run. It
   * changes nothing on the context.
   */
  method ValidateRequired(r: Request, requiredFields: seq<string>) returns (callsNext: bool, thrown: Option<Json>)
    ensures callsNext <==> thrown.None?
    ensures callsNext <==> forall f :: f in requiredFields ==> !Missing(BodyOrEmpty(r.body), f)
    ensures thrown.Some? ==> thrown == Some(ValidationErrorValue(MissingErrors(MissingFields(BodyOrEmpty(r.body), requiredFields))))
  {
    var body := BodyOrEmpty(r.body);
    var missing := CollectMissing(body, requiredFields);
    NoneMissing(body, requiredFields);
    if |missing| > 0 {
      var errors := BuildErrors(missing);
      callsNext, thrown := false, Some(ValidationErrorValue(errors));
      return;
    }
    callsNext, thrown := true, None;
  }

  /** The `forEach` writing one message per missing field. */
  method BuildErrors(missing: seq<string>) returns (errors: seq<(string, Json)>)
    ensures errors == MissingErrors(missing)
  {
    errors := [];
    var k := 0;
    while k < |missing|
      invariant 0 <= k <= |missing|
      invariant errors == MissingErrors(missing[..k])
    {
      assert missing[..k + 1][..k] == missing[..k];
      errors := Put(errors, missing[k], JStr(MissingText(missing[k])));
      k := k + 1;
    }
    assert missing[..k] == missing;
  }

  /** Nothing is reported exactly when every required field is present. */
  lemma NoneMissing(body: Json, fields: seq<string>)
    ensures MissingFields(body, fields) == [] <==> forall f :: f in fields ==> !Missing(body, f)
  {
    var m := MissingFields(body, fields);
    if m != [] {
      assert m[0] in m;
    }
  }

  /** Zero and false are values, not missing ones. */
  lemma ZeroAndFalsePresent(field: string)
    ensures !Missing(JObj([(field, Int(0))]), field)
    ensures !Missing(JObj([(field, JBool(false))]), field)
    ensures Missing(JObj([(field, JStr(""))]), field) && Missing(JObj([(field, JNull)]), field)
  {
  }

  // ------------------------------------------------------------ validatePagination

  const PageMessage := "page 必须是大于0的数字"
  const SizeMessage := "size 必须是1-100之间的数字"

  /** The query object and the collected errors after one parameter's check. */
  datatype Checked = Checked(query: map<string, Json>, errors: seq<(string, Json)>)

  /** `parseInt(query.page)` is a number of at least 1. */
  predicate PageOk(v: Json) {
    var n := ParseIntValue(Some(v)); n.Some? && n.value >= 1
  }

  /** `parseInt(query.size)` is a number from 1 to 100. */
  predicate SizeOk(v: Json) {
    var n := ParseIntValue(Some(v)); n.Some? && 1 <= n.value <= 100
  }

  /** The page check: absent gives 1, a good value is written back parsed, a bad one is an error. */
  function CheckPage(q: map<string, Json>): (c: Checked)
    ensures "page" !in q ==> c == Checked(q["page" := Int(1)], [])
    ensures "page" in q && PageOk(q["page"]) ==> c == Checked(q["page" := Int(ParseIntValue(Some(q["page"])).value)], [])
    ensures "page" in q && !PageOk(q["page"]) ==> c == Checked(q, [("page", JStr(PageMessage))])
  {
    if "page" in q then
      var page := ParseIntValue(Some(q["page"]));
      if page.None? || page.value < 1 then Checked(q, [("page", JStr(PageMessage))])
      else Checked(q["page" := Int(page.value)], [])
    else Checked(q["page" := Int(1)], [])
  }

  /** The size check, on the query and errors the page check left. */
  function CheckSize(c: Checked): (d: Checked)
    ensures "size" !in c.query ==> d == Checked(c.query["size" := Int(10)], c.errors)
    ensures "size" in c.query && SizeOk(c.query["size"]) ==>
      d == Checked(c.query["size" := Int(ParseIntValue(Some(c.query["size"])).value)], c.errors)
    ensures "size" in c.query && !SizeOk(c.query["size"]) ==> d == Checked(c.query, c.errors + [("size", JStr(SizeMessage))])
  {
    var q := c.query;
    if "size" in q then
      var size := ParseIntValue(Some(q["size"]));
      if size.None? || size.value < 1 || size.value > 100 then Checked(q, c.errors + [("size", JStr(SizeMessage))])
      else Checked(q["size" := Int(size.value)], c.errors)
    else Checked(q["size" := Int(10)], c.errors)
  }

  function Pagination(q: map<string, Json>): Checked {
    CheckSize(CheckPage(q))
  }

  /**
   * `validatePagination()`. The query object is the one `ctx.query`
   * caches, so the values written back stay written even when a later
   * check fails and the middleware throws. When nothing fails the object
   * is assigned back to `ctx.query`, which serialises it into the query
   * string (`stringify` and `parse` stand for the `qs` functions Koa uses).
   */
  method ValidatePagination(ctx: Context, stringify: map<string, Json> -> string, parse: string -> map<string, Json>)
    returns (callsNext: bool, thrown: Option<Json>)
    modifies ctx
    ensures var c := Pagination(old(ctx.request.query));
      (callsNext <==> c.errors == []) && (callsNext <==> thrown.None?) &&
      (thrown.Some? ==>
        thrown == Some(ValidationErrorValue(c.errors)) && ctx.View() == old(ctx.View()).(request := old(ctx.request).(query := c.query))) &&
      (thrown.None? ==>
        ctx.View() == old(ctx.View()).(request := QueryAssigned(old(ctx.request).(query := c.query), c.query, stringify, parse)))
  {
    var query, errors := PageStep(ctx.request.query);
    query, errors := SizeStep(query, errors);
    ctx.request := ctx.request.(query := query);
    if |errors| > 0 {
      callsNext, thrown := false, Some(ValidationErrorValue(errors));
      return;
    }
    ctx.request := QueryAssigned(ctx.request, query, stringify, parse);
    callsNext, thrown := true, None;
  }

  /** The `page` branch of the middleware. */
  method PageStep(q: map<string, Json>) returns (query: map<string, Json>, errors: seq<(string, Json)>)
    ensures Checked(query, errors) == CheckPage(q)
  {
    query, errors := q, [];
    if "page" in q {
      var page := ParseIntValue(Some(q["page"]));
      if page.None? || page.value < 1 {
        errors := [("page", JStr(PageMessage))];
      } else {
        query := q["page" := Int(page.value)];
      }
    } else {
      query := q["page" := Int(1)];
    }
  }

  /** The `size` branch of the middleware. */
  method SizeStep(q: map<string, Json>, e: seq<(string, Json)>) returns (query: map<string, Json>, errors: seq<(string, Json)>)
    ensures Checked(query, errors) == CheckSize(Checked(q, e))
  {
    query, errors := q, e;
    if "size" in query {
      var size := ParseIntValue(Some(query["size"]));
      if size.None? || size.value < 1 || size.value > 100 {
        errors := errors + [("size", JStr(SizeMessage))];
      } else {
        query := query["size" := Int(size.value)];
      }
    } else {
      query := query["size" := Int(10)];
    }
  }

  /** The checks succeed exactly when both parameters are absent or valid; then both hold integers. */
  lemma PaginationAccepts(q: map<string, Json>)
    ensures Pagination(q).errors == [] <==> ("page" in q ==> PageOk(q["page"])) && ("size" in q ==> SizeOk(q["size"]))
    ensures Pagination(q).errors == [] ==>
      var r := Pagination(q).query;
      "page" in r && "size" in r && r["page"].JNum? && r["size"].JNum? &&
      IsInteger(r["page"].n) && r["page"].n.r >= 1.0 && IsInteger(r["size"].n) && 1.0 <= r["size"].n.r <= 100.0
  {
    var c := CheckPage(q);
    assert "size" in c.query <==> "size" in q;
    if "size" in q {
      assert c.query["size"] == q["size"];
    }
  }

  /** Both errors are collected before the single throw. */
  lemma BothErrorsCollected(q: map<string, Json>)
    requires "page" in q && !PageOk(q["page"]) && "size" in q && !SizeOk(q["size"])
    ensures Pagination(q).errors == [("page", JStr(PageMessage)), ("size", JStr(SizeMessage))]
  {
  }

  /** With neither parameter the defaults page 1 and size 10 are written. */
  lemma PaginationDefaults(q: map<string, Json>)
    requires "page" !in q && "size" !in q
    ensures Pagination(q) == Checked(q["page" := Int(1)]["size" := Int(10)], [])
  {
  }

  // ------------------------------------------------------------ validateIdParam

  function AbsentText(paramName: string): string { paramName + " 参数不能为空" }
  function NotPositiveText(paramName: string): string { paramName + " 必须是大于0的数字" }

  /** What `validateIdParam(paramName)` does to the route parameters, or the error it throws. */
  function IdParam(params: map<string, Json>, paramName: string): (r: Result)
    ensures r.Thrown? <==> Nullish(Prop(params, paramName)) || !IdOk(params[paramName])
    ensures r.Passed? ==> r.params == params[paramName := Int(ParseIntValue(Some(params[paramName])).value)]
    ensures r.Passed? ==> ParseIntValue(Some(params[paramName])).value > 0
  {
    if Nullish(Prop(params, paramName)) then Thrown(ValidationErrorValue([(paramName, JStr(AbsentText(paramName)))]))
    else
      var parsed := ParseIntValue(Some(params[paramName]));
      if parsed.None? || parsed.value <= 0 then Thrown(ValidationErrorValue([(paramName, JStr(NotPositiveText(paramName)))]))
      else Passed(params[paramName := Int(parsed.value)])
  }

  /** `parseInt(id)` is a number above 0. */
  predicate IdOk(v: Json) {
    var n := ParseIntValue(Some(v)); n.Some? && n.value > 0
  }

  datatype Result = Passed(params: map<string, Json>) | Thrown(error: Json)

  /** `validateIdParam(paramName)`: the parsed id is stored back before `next()`. */
  method ValidateIdParam(ctx: Context, paramName: string) returns (callsNext: bool, thrown: Option<Json>)
    modifies ctx
    ensures var r := IdParam(old(ctx.request.params), paramName);
      (callsNext <==> r.Passed?) && (callsNext <==> thrown.None?) &&
      (r.Passed? ==> ctx.View() == old(ctx.View()).(request := old(ctx.request).(params := r.params))) &&
      (r.Thrown? ==> ctx.View() == old(ctx.View()) && thrown == Some(r.error))
  {
    var id := Prop(ctx.request.params, paramName);
    if id.None? || id.value.JNull? {
      callsNext, thrown := false, Some(ValidationErrorValue([(paramName, JStr(AbsentText(paramName)))]));
      return;
    }
    var parsedId := ParseIntValue(id);
    if parsedId.None? || parsedId.value <= 0 {
      callsNext, thrown := false, Some(ValidationErrorValue([(paramName, JStr(NotPositiveText(paramName)))]));
      return;
    }
    ctx.request := ctx.request.(params := ctx.request.params[paramName := Int(parsedId.value)]);
    callsNext, thrown := true, None;
  }

  /** A decimal id is accepted, and the number stored back is the id itself. */
  lemma DecimalIdAccepted(params: map<string, Json>, paramName: string, id: nat)
    requires id > 0 && Prop(params, paramName) == Some(JStr(IntText(id)))
    ensures IdParam(params, paramName) == Passed(params[paramName := Int(id)])
  {
    var t := IntText(id);
    ParseIntText(id);
    assert ToJsStringOpt(Some(JStr(t))) == t;
    assert ParseIntValue(Some(JStr(t))) == Some(id as int);
  }
}
