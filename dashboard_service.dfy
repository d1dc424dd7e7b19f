/**
 * The admin-overview aggregator (apps/bff/src/services/admin/dashboard.service.ts):
 * four upstream calls are normalised into one result of the schema's shape,
 * with failures collected into `meta.error`.
 */
module DashboardService {
  import opened Js
  import opened Koa
  import opened DashboardSchema

  /** The outcome of one upstream call: the parsed JSON payload, or the thrown error. */
  datatype Fetch = Got(payload: Json) | Failed(error: Json)

  /** What the aggregator's promise settles to. */
  datatype Answer = Resolved(overview: Overview) | RejectedWith(error: Json)

  const StatsLabel := "dashboard.stats"
  const GrowthLabel := "dashboard.userGrowth"
  const DistributionLabel := "dashboard.courseDistribution"
  const ActivitiesLabel := "dashboard.recentActivities"
  const Separator := " | "

  /** `payload && payload.data !== undefined ? payload.data : payload`. */
  function UnwrapData(p: Option<Json>): (r: Option<Json>)
    ensures TruthyOpt(p) && Field(p.value, "data").Some? ==> r == Field(p.value, "data")
    ensures !(TruthyOpt(p) && Field(p.value, "data").Some?) ==> r == p
  {
    if TruthyOpt(p) && Field(p.value, "data").Some? then Field(p.value, "data") else p
  }

  /** `typeof v === 'number' && Number.isFinite(v) ? v : 0`. */
  function ToNum(v: Option<Json>): (n: Num)
    ensures n.Fin?
    ensures n != Fin(0.0) ==> v == Some(JNum(n))
  {
    if v.Some? && v.value.JNum? && v.value.n.Fin? then v.value.n else Fin(0.0)
  }

  /** `typeof o.total === 'number'`, giving that number (finite or not). */
  function NumberTotal(o: Option<Json>): Option<Num> {
    var t := OptField(o, "total");
    if t.Some? && t.value.JNum? then Some(t.value.n) else None
  }

  /**
   * `pickTotal`: top-level `total`, then the unwrapped data's `total`, then
   * the `total` of the first truthy of `pagination`, `page`, `meta`; else 0.
   */
  function PickTotal(p: Option<Json>): Num {
    if !TruthyOpt(p) then Fin(0.0)
    else if NumberTotal(p).Some? then NumberTotal(p).value
    else
      var data := UnwrapData(p);
      if TruthyOpt(data) && NumberTotal(data).Some? then NumberTotal(data).value
      else
        var pageObj := OrElse(OptField(p, "pagination"), OrElse(OptField(p, "page"), OptField(p, "meta")));
        if TruthyOpt(pageObj) && NumberTotal(pageObj).Some? then NumberTotal(pageObj).value
        else Fin(0.0)
  }

  /** `e?.message || 'Upstream error'`. */
  function Reason(e: Json): string {
    var m := Field(e, "message");
    if TruthyOpt(m) then ToJsString(m.value) else "Upstream error"
  }

  /** What one `safeJson` call returns, with the errors it pushes. */
  datatype Settled = Settled(payload: Option<Json>, pushed: seq<string>)

  /** `safeJson`: the payload on success; on failure undefined and one labelled error. */
  function SafeJson(f: Fetch, tag: string): (r: Settled)
    ensures f.Got? ==> r == Settled(Some(f.payload), [])
    ensures f.Failed? ==> r.payload.None? && r.pushed == [tag + ":" + Reason(f.error)]
  {
    match f
    case Got(p) => Settled(Some(p), [])
    case Failed(e) => Settled(None, [tag + ":" + Reason(e)])
  }

  /** `String(x ?? '')`. */
  function Text(o: Option<Json>): string {
    ToJsString(Coalesce(o, JStr("")))
  }

  /** `Array.isArray(unwrapData(p)) ? unwrapData(p) : []`. */
  function ListOf(p: Option<Json>): (items: seq<Json>)
    ensures UnwrapData(p).Some? && UnwrapData(p).value.JArr? ==> items == UnwrapData(p).value.items
    ensures !(UnwrapData(p).Some? && UnwrapData(p).value.JArr?) ==> items == []
  {
    var d := UnwrapData(p);
    if d.Some? && d.value.JArr? then d.value.items else []
  }

  function GrowthPointOf(p: Json): GrowthPoint {
    GrowthPoint(Text(Field(p, "date")), ToNum(Field(p, "count")))
  }

  function DistributionItemOf(i: Json): DistributionItem {
    DistributionItem(Text(Field(i, "name")), ToNum(Field(i, "value")))
  }

  function ActivityOf(a: Json): Activity {
    var u := Field(a, "user");
    Activity(
      ToNum(Field(a, "id")),
      Text(Field(a, "type")),
      Text(Field(a, "title")),
      Text(Field(a, "description")),
      Text(Field(a, "timestamp")),
      if TruthyOpt(u) && IsObjectValue(u.value)
      then Some(ActivityUser(ToNum(Field(u.value, "id")), Text(Field(u.value, "realName"))))
      else None)
  }

  /** `.filter(a => a.id && a.title && a.timestamp)`. */
  predicate KeepActivity(a: Activity) {
    NumTruthy(a.id) && a.title != "" && a.timestamp != ""
  }

  /** Map then filter, preserving order. */
  function Growth(items: seq<Json>): (r: seq<GrowthPoint>)
    ensures |r| <= |items|
    ensures forall i :: 0 <= i < |r| ==> r[i].date != "" && r[i].count.Fin?
  {
    if items == [] then []
    else
      var g := GrowthPointOf(items[0]);
      (if g.date != "" then [g] else []) + Growth(items[1..])
  }

  function Distribution(items: seq<Json>): (r: seq<DistributionItem>)
    ensures |r| <= |items|
    ensures forall i :: 0 <= i < |r| ==> r[i].name != "" && r[i].value.Fin?
  {
    if items == [] then []
    else
      var d := DistributionItemOf(items[0]);
      (if d.name != "" then [d] else []) + Distribution(items[1..])
  }

  function Activities(items: seq<Json>): (r: seq<Activity>)
    ensures |r| <= |items|
    ensures forall i :: 0 <= i < |r| ==> KeepActivity(r[i]) && r[i].id.Fin?
  {
    if items == [] then []
    else
      var a := ActivityOf(items[0]);
      (if KeepActivity(a) then [a] else []) + Activities(items[1..])
  }

  /** The four primary calls, in the order of their labels. */
  datatype Upstream = Upstream(stats: Fetch, growth: Fetch, distribution: Fetch, activities: Fetch)

  function Failures(u: Upstream): (errors: seq<string>)
    ensures |errors| <= 4
    ensures errors == [] <==> u.stats.Got? && u.growth.Got? && u.distribution.Got? && u.activities.Got?
  {
    SafeJson(u.stats, StatsLabel).pushed + SafeJson(u.growth, GrowthLabel).pushed
    + SafeJson(u.distribution, DistributionLabel).pushed + SafeJson(u.activities, ActivitiesLabel).pushed
  }

  /** The count the fallback request yields, or `current` when that request fails. */
  function FallbackCount(f: Fetch, current: Num): Num {
    if f.Got? then PickTotal(Some(f.payload)) else current
  }

  function StatsOf(data: Option<Json>): Stats {
    var d := if TruthyOpt(data) then data.value else JObj([]);
    Stats(ToNum(Field(d, "userCount")), ToNum(Field(d, "courseCount")),
          ToNum(Field(d, "attendanceRate")), ToNum(Field(d, "homeworkSubmissionRate")),
          ToNum(Field(d, "notificationCount")))
  }

  function Defaults(): Stats { Stats(Fin(0.0), Fin(0.0), Fin(0.0), Fin(0.0), Fin(0.0)) }

  /**
   * The aggregator. `urlConfigured` says whether `BACKEND_INTEGRATED_URL` is
   * set (the client is built from it before the try block); `users` and
   * `courses` are the fallback calls; `escape` is an exception escaping the
   * try block.
   */
  function Aggregate(urlConfigured: bool, u: Upstream, users: Fetch, courses: Fetch, escape: Option<Json>): Answer {
    if !urlConfigured then
      RejectedWith(ErrorTypeError)
    else if escape.Some? then
      Resolved(Overview(Defaults(), [], [], [], Some(Reason(escape.value))))
    else
      var errors := Failures(u);
      Resolved(Overview(
        StatsFor(u.stats, users, courses),
        Growth(ListOf(SafeJson(u.growth, GrowthLabel).payload)),
        Distribution(ListOf(SafeJson(u.distribution, DistributionLabel).payload)),
        Activities(ListOf(SafeJson(u.activities, ActivitiesLabel).payload)),
        if errors != [] then Some(Join(errors, Separator)) else None))
  }

  /** The stats block: the upstream stats, with both counts taken from the fallback calls when that payload is falsy. */
  function StatsFor(f: Fetch, users: Fetch, courses: Fetch): Stats {
    var statsPayload := SafeJson(f, StatsLabel).payload;
    var base := StatsOf(UnwrapData(statsPayload));
    if TruthyOpt(statsPayload) then base
    else base.(userCount := FallbackCount(users, base.userCount),
               courseCount := FallbackCount(courses, base.courseCount))
  }

  /** The headers handed to the upstream client: the trace id and the caller's Authorization, each only when non-empty. */
  function ForwardedHeaders(traceId: string, authHeader: string): (h: map<string, string>)
    ensures "X-Trace-Id" in h <==> traceId != ""
    ensures "Authorization" in h <==> authHeader != ""
    ensures "X-Trace-Id" in h ==> h["X-Trace-Id"] == traceId
    ensures "Authorization" in h ==> h["Authorization"] == authHeader
    ensures forall k :: k in h ==> k == "X-Trace-Id" || k == "Authorization"
  {
    var h := if traceId != "" then map["X-Trace-Id" := traceId] else map[];
    if authHeader != "" then h["Authorization" := authHeader] else h
  }

  /** The error the upstream client throws for a non-2xx status. */
  function UpstreamError(statusCode: int): Json {
    ErrorValue("Error", "Upstream Error", [("code", Int(statusCode))])
  }

  /** A non-2xx upstream reply is recorded under its tag as `Upstream Error`. */
  lemma UpstreamErrorReason(statusCode: int, tag: string)
    ensures SafeJson(Failed(UpstreamError(statusCode)), tag).pushed == [tag + ":Upstream Error"]
  {
    var e := UpstreamError(statusCode);
    assert "name"[0] != "message"[0];
    assert e.members[1..][0] == ("message", JStr("Upstream Error"));
    assert Lookup(e.members[1..], "message") == Some(JStr("Upstream Error"));
    assert Field(e, "message") == Some(JStr("Upstream Error"));
    assert tag + ":" + "Upstream Error" == tag + ":Upstream Error";
  }

  /** A thrown value without a truthy message is recorded as `Upstream error`. */
  lemma MessagelessReason(e: Json)
    requires !TruthyOpt(Field(e, "message"))
    ensures Reason(e) == "Upstream error"
  {
  }

  /** `opts.baseURL.replace(...)` on an undefined base URL. */
  const ErrorTypeError := ErrorValue("TypeError", "Cannot read properties of undefined (reading 'replace')", [])

  const FallbackUsersUrl := "/api/users?page=1&size=1"
  const FallbackCoursesUrl := "/api/courses?page=1&size=1"

  /**
   * The aggregator as written: errors are pushed one by one and the two
   * counts are reassigned by the fallback. `requested` lists the upstream
   * paths asked for, in order.
   */
  method AggregateAdminOverview(days: int, limit: int, urlConfigured: bool, u: Upstream,
                                users: Fetch, courses: Fetch, escape: Option<Json>)
    returns (r: Answer, requested: seq<string>)
    ensures r == Aggregate(urlConfigured, u, users, courses, escape)
    ensures urlConfigured && escape.None? ==>
      (|requested| == 4 || |requested| == 6) &&
      requested[..4] == PrimaryUrls(days, limit) &&
      (|requested| == 6 <==> !TruthyOpt(SafeJson(u.stats, StatsLabel).payload)) &&
      (|requested| == 6 ==> requested[4..] == [FallbackUsersUrl, FallbackCoursesUrl])
    ensures !urlConfigured || escape.Some? ==> requested == []
  {
    requested := [];
    if !urlConfigured {
      r := RejectedWith(ErrorTypeError);
      return;
    }
    if escape.Some? {
      r := Resolved(Overview(Defaults(), [], [], [], Some(Reason(escape.value))));
      return;
    }
    var errors: seq<string> := [];
    requested := PrimaryUrls(days, limit);
    var statsPayload, e1 := SafeJsonStep(u.stats, StatsLabel);
    errors := errors + e1;
    var growthPayload, e2 := SafeJsonStep(u.growth, GrowthLabel);
    errors := errors + e2;
    var distPayload, e3 := SafeJsonStep(u.distribution, DistributionLabel);
    errors := errors + e3;
    var actPayload, e4 := SafeJsonStep(u.activities, ActivitiesLabel);
    errors := errors + e4;
    assert errors == Failures(u);
    var stats, asked := StatsStep(u.stats, statsPayload, users, courses);
    requested := requested + asked;
    var meta := if |errors| > 0 then Some(Join(errors, Separator)) else None;
    r := Resolved(Overview(
      stats,
      Growth(ListOf(growthPayload)),
      Distribution(ListOf(distPayload)),
      Activities(ListOf(actPayload)),
      meta));
  }

  /** The stats block, with the two fallback calls when the stats payload is falsy. */
  method StatsStep(f: Fetch, statsPayload: Option<Json>, users: Fetch, courses: Fetch) returns (stats: Stats, asked: seq<string>)
    requires statsPayload == SafeJson(f, StatsLabel).payload
    ensures stats == StatsFor(f, users, courses)
    ensures asked == if TruthyOpt(statsPayload) then [] else [FallbackUsersUrl, FallbackCoursesUrl]
  {
    asked := [];
    var statsData := UnwrapData(statsPayload);
    stats := StatsOf(statsData);
    var userCount := stats.userCount;
    var courseCount := stats.courseCount;
    if !TruthyOpt(statsPayload) {
      asked := asked + [FallbackUsersUrl];
      if users.Got? {
        userCount := PickTotal(Some(users.payload));
      }
      asked := asked + [FallbackCoursesUrl];
      if courses.Got? {
        courseCount := PickTotal(Some(courses.payload));
      }
    }
    stats := stats.(userCount := userCount, courseCount := courseCount);
  }

  /** One `safeJson` call, returning the payload and the errors it pushes. */
  method SafeJsonStep(f: Fetch, tag: string) returns (payload: Option<Json>, pushed: seq<string>)
    ensures Settled(payload, pushed) == SafeJson(f, tag)
  {
    payload, pushed := None, [];
    if f.Got? {
      payload := Some(f.payload);
    } else {
      pushed := [tag + ":" + Reason(f.error)];
    }
  }

  function PrimaryUrls(days: int, limit: int): seq<string> {
    ["/api/dashboard/stats",
     "/api/dashboard/user-growth?days=" + IntText(days),
     "/api/dashboard/course-distribution",
     "/api/dashboard/recent-activities?limit=" + IntText(limit)]
  }

  // ------------------------------------------------------------ properties

  /** `toNum` returns its argument exactly when that is a finite number, and 0 otherwise. */
  lemma ToNumIff(v: Option<Json>)
    ensures (v.Some? && v.value.JNum? && v.value.n.Fin?) ==> ToNum(v) == v.value.n
    ensures !(v.Some? && v.value.JNum? && v.value.n.Fin?) ==> ToNum(v) == Fin(0.0)
  {
  }

  /** `meta` is present exactly when a labelled call failed, and then joins the failures. */
  lemma MetaIffFailure(u: Upstream, users: Fetch, courses: Fetch)
    ensures var r := Aggregate(true, u, users, courses, None);
      r.Resolved? &&
      (r.overview.meta.Some? <==> (u.stats.Failed? || u.growth.Failed? || u.distribution.Failed? || u.activities.Failed?)) &&
      (r.overview.meta.Some? ==> r.overview.meta.value == Join(Failures(u), Separator))
  {
  }

  /** The fallback calls matter only when the stats payload is falsy, and their failures add no error. */
  lemma FallbackOnlyWithoutStats(u: Upstream, users: Fetch, courses: Fetch, users': Fetch, courses': Fetch)
    requires TruthyOpt(SafeJson(u.stats, StatsLabel).payload)
    ensures Aggregate(true, u, users, courses, None) == Aggregate(true, u, users', courses', None)
  {
  }

  lemma FallbackFailuresSwallowed(u: Upstream, e1: Json, e2: Json)
    requires u.stats.Failed?
    ensures var r := Aggregate(true, u, Failed(e1), Failed(e2), None);
      r.Resolved? && r.overview.stats.userCount == Fin(0.0) && r.overview.stats.courseCount == Fin(0.0)
      && r.overview.meta == Some(Join(Failures(u), Separator))
  {
    assert StatsOf(UnwrapData(None)) == Defaults();
  }

  /** Any exception escaping the try block gives the defaults with its reason as `meta.error`. */
  lemma EscapeGivesDefaults(u: Upstream, users: Fetch, courses: Fetch, e: Json)
    ensures Aggregate(true, u, users, courses, Some(e)) ==
      Resolved(Overview(Defaults(), [], [], [], Some(Reason(e))))
  {
  }

  /** With the upstream URL unset the promise rejects: the client is built outside the try block. */
  lemma UnsetUrlRejects(u: Upstream, users: Fetch, courses: Fetch, escape: Option<Json>)
    ensures Aggregate(false, u, users, courses, escape).RejectedWith?
  {
  }

  /** A non-array payload gives an empty list. */
  lemma NonArrayIsEmpty(p: Json)
    requires !UnwrapData(Some(p)).value.JArr?
    ensures Growth(ListOf(Some(p))) == [] && Distribution(ListOf(Some(p))) == [] && Activities(ListOf(Some(p))) == []
  {
  }

  /** A growth point survives exactly when its date text is non-empty; survivors keep their order. */
  lemma {:induction false} GrowthFilter(items: seq<Json>, k: nat)
    requires k < |items|
    requires forall i :: 0 <= i < |items| ==> GrowthPointOf(items[i]).date != ""
    ensures |Growth(items)| == |items| && Growth(items)[k] == GrowthPointOf(items[k])
  {
    if k > 0 {
      GrowthFilter(items[1..], k - 1);
    } else if |items| > 1 {
      GrowthFilter(items[1..], 0);
    } else {
      assert Growth(items[1..]) == [];
    }
  }

  /** Every growth point of date-less input is dropped. */
  lemma {:induction false} GrowthDropsUndated(items: seq<Json>)
    requires forall i :: 0 <= i < |items| ==> GrowthPointOf(items[i]).date == ""
    ensures Growth(items) == []
  {
    if items != [] {
      GrowthDropsUndated(items[1..]);
    }
  }

  // ------------------------------------------------------------ conformance

  /** Every number anywhere in the value is a non-negative integer. */
  predicate CountsOnly(j: Json) {
    match j
    case JNum(n) => NonNegativeInt(n)
    case JArr(items) => forall i :: 0 <= i < |items| ==> CountsOnly(items[i])
    case JObj(ms) => forall i :: 0 <= i < |ms| ==> CountsOnly(ms[i].1)
    case _ => true
  }

  lemma FieldCountsOnly(j: Json, k: string)
    requires CountsOnly(j)
    ensures Field(j, k).Some? ==> CountsOnly(Field(j, k).value)
  {
    if j.JObj? && Field(j, k).Some? {
      var i :| 0 <= i < |j.members| && j.members[i] == (k, Field(j, k).value);
    }
  }

  lemma ToNumCount(j: Json, k: string)
    requires CountsOnly(j)
    ensures NonNegativeInt(ToNum(Field(j, k)))
  {
    FieldCountsOnly(j, k);
  }

  lemma UnwrapCountsOnly(p: Option<Json>)
    requires p.Some? ==> CountsOnly(p.value)
    ensures UnwrapData(p).Some? ==> CountsOnly(UnwrapData(p).value)
  {
    if TruthyOpt(p) { FieldCountsOnly(p.value, "data"); }
  }

  lemma NumberTotalCount(o: Option<Json>)
    requires o.Some? ==> CountsOnly(o.value)
    ensures NumberTotal(o).Some? ==> NonNegativeInt(NumberTotal(o).value)
  {
    if o.Some? { FieldCountsOnly(o.value, "total"); }
  }

  lemma PickTotalCount(p: Json)
    requires CountsOnly(p)
    ensures NonNegativeInt(PickTotal(Some(p)))
  {
    NumberTotalCount(Some(p));
    UnwrapCountsOnly(Some(p));
    NumberTotalCount(UnwrapData(Some(p)));
    FieldCountsOnly(p, "pagination");
    FieldCountsOnly(p, "page");
    FieldCountsOnly(p, "meta");
    var pageObj := OrElse(OptField(Some(p), "pagination"), OrElse(OptField(Some(p), "page"), OptField(Some(p), "meta")));
    NumberTotalCount(pageObj);
  }

  /** Activity users, when present as objects, carry a positive integer id. */
  predicate UsersIdentified(items: seq<Json>) {
    forall i :: 0 <= i < |items| ==>
      var u := Field(items[i], "user");
      TruthyOpt(u) && IsObjectValue(u.value) ==> PositiveInt(ToNum(Field(u.value, "id")))
  }

  lemma {:induction false} GrowthValid(items: seq<Json>)
    requires forall i :: 0 <= i < |items| ==> CountsOnly(items[i])
    ensures forall i :: 0 <= i < |Growth(items)| ==> ValidGrowthPoint(Growth(items)[i])
  {
    if items != [] {
      ToNumCount(items[0], "count");
      GrowthValid(items[1..]);
    }
  }

  lemma {:induction false} DistributionValid(items: seq<Json>)
    requires forall i :: 0 <= i < |items| ==> CountsOnly(items[i])
    ensures forall i :: 0 <= i < |Distribution(items)| ==> ValidDistributionItem(Distribution(items)[i])
  {
    if items != [] {
      ToNumCount(items[0], "value");
      DistributionValid(items[1..]);
    }
  }

  lemma {:induction false} ActivitiesValid(items: seq<Json>)
    requires forall i :: 0 <= i < |items| ==> CountsOnly(items[i])
    requires UsersIdentified(items)
    ensures forall i :: 0 <= i < |Activities(items)| ==> ValidActivity(Activities(items)[i])
  {
    if items != [] {
      ToNumCount(items[0], "id");
      assert UsersIdentified(items[1..]) by {
        forall i | 0 <= i < |items[1..]| ensures
          var u := Field(items[1..][i], "user");
          TruthyOpt(u) && IsObjectValue(u.value) ==> PositiveInt(ToNum(Field(u.value, "id")))
        {
          assert items[1..][i] == items[i + 1];
        }
      }
      ActivitiesValid(items[1..]);
    }
  }

  lemma ListCountsOnly(f: Fetch, tag: string)
    requires f.Got? ==> CountsOnly(f.payload)
    ensures forall i :: 0 <= i < |ListOf(SafeJson(f, tag).payload)| ==> CountsOnly(ListOf(SafeJson(f, tag).payload)[i])
  {
    UnwrapCountsOnly(SafeJson(f, tag).payload);
  }

  predicate Sane(f: Fetch) { f.Got? ==> CountsOnly(f.payload) }

  /**
   * The result satisfies the schema when every upstream number is a
   * non-negative integer and every embedded activity user has a positive id.
   */
  lemma Conformance(u: Upstream, users: Fetch, courses: Fetch, escape: Option<Json>)
    requires Sane(u.stats) && Sane(u.growth) && Sane(u.distribution) && Sane(u.activities)
    requires Sane(users) && Sane(courses)
    requires UsersIdentified(ListOf(SafeJson(u.activities, ActivitiesLabel).payload))
    ensures Aggregate(true, u, users, courses, escape).Resolved?
    ensures ValidOverview(Aggregate(true, u, users, courses, escape).overview)
  {
    if escape.None? {
      StatsConform(u.stats, users, courses);
      ListCountsOnly(u.growth, GrowthLabel);
      ListCountsOnly(u.distribution, DistributionLabel);
      ListCountsOnly(u.activities, ActivitiesLabel);
      GrowthValid(ListOf(SafeJson(u.growth, GrowthLabel).payload));
      DistributionValid(ListOf(SafeJson(u.distribution, DistributionLabel).payload));
      ActivitiesValid(ListOf(SafeJson(u.activities, ActivitiesLabel).payload));
    }
  }

  /** Non-negative integer counts upstream give schema-valid stats. */
  lemma StatsConform(f: Fetch, users: Fetch, courses: Fetch)
    requires Sane(f) && Sane(users) && Sane(courses)
    ensures ValidStats(StatsFor(f, users, courses))
  {
    var statsPayload := SafeJson(f, StatsLabel).payload;
    UnwrapCountsOnly(statsPayload);
    var data := UnwrapData(statsPayload);
    var d := if TruthyOpt(data) then data.value else JObj([]);
    ToNumCount(d, "userCount");
    ToNumCount(d, "courseCount");
    ToNumCount(d, "notificationCount");
    if users.Got? { PickTotalCount(users.payload); }
    if courses.Got? { PickTotalCount(courses.payload); }
  }

  /** toNum lets a negative count through, so the result can break the schema. */
  lemma NegativeCountBreaksSchema(u: Upstream, users: Fetch, courses: Fetch)
    requires u.stats == Got(JObj([("userCount", JNum(Fin(-1.0)))]))
    ensures Aggregate(true, u, users, courses, None).Resolved?
    ensures !ValidOverview(Aggregate(true, u, users, courses, None).overview)
  {
    var p := JObj([("userCount", JNum(Fin(-1.0)))]);
    assert "data"[0] != "userCount"[0];
    assert Field(p, "data") == None;
    assert UnwrapData(Some(p)) == Some(p);
    assert Field(p, "userCount") == Some(JNum(Fin(-1.0)));
    assert StatsFor(u.stats, users, courses).userCount == Fin(-1.0);
  }

  /**
   * An activity whose user is an object without an id keeps id 0: the
   * filter keeps it on its own id, title and timestamp, and the schema's
   * positive-id rule then rejects it.
   */
  lemma IdlessUserBreaksSchema(a: Json)
    requires Field(a, "user") == Some(JObj([]))
    ensures !ValidActivity(ActivityOf(a))
    ensures KeepActivity(ActivityOf(a)) <==>
      NumTruthy(ToNum(Field(a, "id"))) && Text(Field(a, "title")) != "" && Text(Field(a, "timestamp")) != ""
  {
  }
}
