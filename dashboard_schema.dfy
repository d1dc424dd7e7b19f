/**
 * The admin-overview result shape (apps/bff/src/schemas/admin/dashboard.schema.ts)
 * and the zod constraints on it, as predicates over the result type.
 */
module DashboardSchema {
  import opened Js

  datatype Stats = Stats(
    userCount: Num,
    courseCount: Num,
    attendanceRate: Num,
    homeworkSubmissionRate: Num,
    notificationCount: Num)

  datatype GrowthPoint = GrowthPoint(date: string, count: Num)

  datatype DistributionItem = DistributionItem(name: string, value: Num)

  datatype ActivityUser = ActivityUser(id: Num, realName: string)

  datatype Activity = Activity(
    id: Num,
    kind: string,
    title: string,
    description: string,
    timestamp: string,
    user: Option<ActivityUser>)

  /** `meta` is either absent or `{error}`. */
  datatype Overview = Overview(
    stats: Stats,
    userGrowth: seq<GrowthPoint>,
    courseDistribution: seq<DistributionItem>,
    recentActivities: seq<Activity>,
    meta: Option<string>)

  /** `z.number()`: any number except NaN. */
  predicate ZNumber(n: Num) { !n.NaN? }

  /** `z.number().int().nonnegative()`. */
  predicate NonNegativeInt(n: Num) { n.Fin? && IsIntegral(n.r) && n.r >= 0.0 }

  /** `z.number().int().positive()`. */
  predicate PositiveInt(n: Num) { n.Fin? && IsIntegral(n.r) && n.r > 0.0 }

  predicate ValidStats(s: Stats) {
    NonNegativeInt(s.userCount) && NonNegativeInt(s.courseCount)
    && ZNumber(s.attendanceRate) && ZNumber(s.homeworkSubmissionRate)
    && NonNegativeInt(s.notificationCount)
  }

  predicate ValidGrowthPoint(p: GrowthPoint) { NonNegativeInt(p.count) }

  predicate ValidDistributionItem(i: DistributionItem) { NonNegativeInt(i.value) }

  predicate ValidActivityUser(u: ActivityUser) { PositiveInt(u.id) }

  /** The embedded user is optional; when present it must be valid. */
  predicate ValidActivity(a: Activity) {
    PositiveInt(a.id) && (a.user.Some? ==> ValidActivityUser(a.user.value))
  }

  predicate ValidOverview(o: Overview) {
    ValidStats(o.stats)
    && (forall i :: 0 <= i < |o.userGrowth| ==> ValidGrowthPoint(o.userGrowth[i]))
    && (forall i :: 0 <= i < |o.courseDistribution| ==> ValidDistributionItem(o.courseDistribution[i]))
    && (forall i :: 0 <= i < |o.recentActivities| ==> ValidActivity(o.recentActivities[i]))
  }

  /** A positive integer is a non-negative one; the reverse fails only at 0. */
  lemma PositiveIsNonNegative(n: Num)
    ensures PositiveInt(n) <==> NonNegativeInt(n) && n != Fin(0.0)
  {
  }

  /** The all-zero, all-empty result satisfies the schema, with or without meta. */
  lemma DefaultsValid(meta: Option<string>)
    ensures ValidOverview(Overview(Stats(Fin(0.0), Fin(0.0), Fin(0.0), Fin(0.0), Fin(0.0)), [], [], [], meta))
  {
  }
}
