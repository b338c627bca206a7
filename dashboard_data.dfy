/**
 * Snapshot assembly for one cache slice (`getDashboardCacheData`): the
 * seventeen metric queries issued for a timeframe and an optional platform,
 * and the dashboard record built from their answers.
 *
 * The metric activities are one function parameter `fetch`, which answers a
 * metric family and its parameters; their answers stay abstract.
 */
module DashboardData {
  import opened Wrappers
  import opened DashboardTimeframes
  import opened CubeMetrics

  /** The metric activities the snapshot is built from. */
  datatype Fetcher =
    | GetNewMembers
    | GetActiveMembers
    | GetNewOrganizations
    | GetActiveOrganizations
    | GetActivities

  /**
   * The argument object of a metric activity. An omitted `granularity` is
   * `None`, an omitted `rawResult` is `false`, omitted `dimensions` are `[]`.
   */
  datatype MetricParams = MetricParams(
    tenantId: string,
    segmentIds: seq<string>,
    startDate: DayBound,
    endDate: DayBound,
    granularity: Option<Granularity>,
    platform: Option<string>,
    rawResult: bool,
    dimensions: seq<string>)

  /** The metric activities: the answer to one query. */
  type MetricFetch = (Fetcher, MetricParams) -> MetricResult

  datatype MetricSnapshot = MetricSnapshot(
    total: MetricResult,
    previousPeriodTotal: MetricResult,
    timeseries: MetricResult)

  datatype ActivitySnapshot = ActivitySnapshot(
    total: MetricResult,
    previousPeriodTotal: MetricResult,
    timeseries: MetricResult,
    bySentimentMood: MetricResult,
    byTypeAndPlatform: MetricResult)

  /** The value cached for one slice. */
  datatype DashboardData = DashboardData(
    newMembers: MetricSnapshot,
    activeMembers: MetricSnapshot,
    newOrganizations: MetricSnapshot,
    activeOrganizations: MetricSnapshot,
    activity: ActivitySnapshot)

  const SentimentMoodDimensions: seq<string> := ["Activities.sentimentMood"]
  const TypeAndPlatformDimensions: seq<string> := ["Activities.type", "Activities.platform"]

  /** The kinds of query a slice issues. */
  datatype QueryKind =
    | Total            // aggregated over the current period
    | PreviousTotal    // aggregated over the previous period
    | DailySeries      // raw rows per day over the previous period
    | Breakdown(dimensions: seq<string>)  // raw rows over the current period, by `dimensions`

  /** The argument object of a query of kind `kind` for one slice. */
  function Params(
    kind: QueryKind, tenantId: string, segmentIds: seq<string>, w: TimeframeWindow, platform: Option<string>)
    : (p: MetricParams)
    ensures SameScope(p, tenantId, segmentIds, platform)
    ensures kind == Total ==> CurrentTotalQuery(p, w)
    ensures kind == PreviousTotal ==> PreviousTotalQuery(p, w)
    ensures kind == DailySeries ==> PreviousDailyQuery(p, w)
    ensures kind.Breakdown? ==> CurrentBreakdownQuery(p, w, kind.dimensions)
  {
    match kind
    case Total =>
      MetricParams(tenantId, segmentIds, w.startDate, w.endDate, None, platform, false, [])
    case PreviousTotal =>
      MetricParams(tenantId, segmentIds, w.previousPeriodStartDate, w.previousPeriodEndDate,
                   None, platform, false, [])
    case DailySeries =>
      MetricParams(tenantId, segmentIds, w.previousPeriodStartDate, w.previousPeriodEndDate,
                   Some(DayGranularity), platform, true, [])
    case Breakdown(dimensions) =>
      MetricParams(tenantId, segmentIds, w.startDate, w.endDate, None, platform, true, dimensions)
  }

  /** Which activity answers which kind of query, in the order the queries are issued. */
  const PlanOrder: seq<(Fetcher, QueryKind)> := [
    (GetNewMembers, Total), (GetNewMembers, PreviousTotal), (GetNewMembers, DailySeries),
    (GetActiveMembers, Total), (GetActiveMembers, PreviousTotal), (GetActiveMembers, DailySeries),
    (GetNewOrganizations, Total), (GetNewOrganizations, PreviousTotal), (GetNewOrganizations, DailySeries),
    (GetActiveOrganizations, Total), (GetActiveOrganizations, PreviousTotal), (GetActiveOrganizations, DailySeries),
    (GetActivities, Total), (GetActivities, PreviousTotal), (GetActivities, DailySeries),
    (GetActivities, Breakdown(SentimentMoodDimensions)), (GetActivities, Breakdown(TypeAndPlatformDimensions))]

  /** The seventeen queries of one slice, in the order they are issued. */
  function QueryPlan(
    tenantId: string, segmentIds: seq<string>, w: TimeframeWindow, platform: Option<string>)
    : (plan: seq<(Fetcher, MetricParams)>)
    ensures |plan| == 17
  {
    seq(|PlanOrder|, i requires 0 <= i < |PlanOrder| =>
      (PlanOrder[i].0, Params(PlanOrder[i].1, tenantId, segmentIds, w, platform)))
  }

  /** The answers a record holds, in field order. */
  function Answers(d: DashboardData): (answers: seq<MetricResult>)
    ensures |answers| == 17
  {
    [ d.newMembers.total, d.newMembers.previousPeriodTotal, d.newMembers.timeseries,
      d.activeMembers.total, d.activeMembers.previousPeriodTotal, d.activeMembers.timeseries,
      d.newOrganizations.total, d.newOrganizations.previousPeriodTotal, d.newOrganizations.timeseries,
      d.activeOrganizations.total, d.activeOrganizations.previousPeriodTotal, d.activeOrganizations.timeseries,
      d.activity.total, d.activity.previousPeriodTotal, d.activity.timeseries,
      d.activity.bySentimentMood, d.activity.byTypeAndPlatform ]
  }

  /** A query over the whole current period: no granularity, aggregated. */
  predicate CurrentTotalQuery(p: MetricParams, w: TimeframeWindow) {
    p.startDate == w.startDate && p.endDate == w.endDate
    && p.granularity.None? && !p.rawResult && p.dimensions == []
  }

  /** A query over the whole previous period: no granularity, aggregated. */
  predicate PreviousTotalQuery(p: MetricParams, w: TimeframeWindow) {
    p.startDate == w.previousPeriodStartDate && p.endDate == w.previousPeriodEndDate
    && p.granularity.None? && !p.rawResult && p.dimensions == []
  }

  /** A daily series of raw rows over the previous period. */
  predicate PreviousDailyQuery(p: MetricParams, w: TimeframeWindow) {
    p.startDate == w.previousPeriodStartDate && p.endDate == w.previousPeriodEndDate
    && p.granularity == Some(DayGranularity) && p.rawResult && p.dimensions == []
  }

  /** Raw rows over the current period, broken down by `dimensions`. */
  predicate CurrentBreakdownQuery(p: MetricParams, w: TimeframeWindow, dimensions: seq<string>) {
    p.startDate == w.startDate && p.endDate == w.endDate
    && p.granularity.None? && p.rawResult && p.dimensions == dimensions
  }

  /** The scope every query of a slice shares. */
  predicate SameScope(p: MetricParams, tenantId: string, segmentIds: seq<string>, platform: Option<string>) {
    p.tenantId == tenantId && p.segmentIds == segmentIds && p.platform == platform
  }

  /**
   * Every query of a slice carries the slice's tenant, segment ids and
   * platform; the queries go to the member, organization and activity
   * families three at a time, and the last five all go to activities.
   */
  lemma QueryPlanFamilies(
    tenantId: string, segmentIds: seq<string>, w: TimeframeWindow, platform: Option<string>)
    ensures
      var plan := QueryPlan(tenantId, segmentIds, w, platform);
      && (forall i :: 0 <= i < 17 ==> SameScope(plan[i].1, tenantId, segmentIds, platform))
      && plan[0].0 == plan[1].0 == plan[2].0 == GetNewMembers
      && plan[3].0 == plan[4].0 == plan[5].0 == GetActiveMembers
      && plan[6].0 == plan[7].0 == plan[8].0 == GetNewOrganizations
      && plan[9].0 == plan[10].0 == plan[11].0 == GetActiveOrganizations
      && (forall i :: 12 <= i < 17 ==> plan[i].0 == GetActivities)
  {
  }

  /**
   * Each family's total, previous total and series use the current window,
   * the previous window and a daily raw series over the previous window;
   * the two activity breakdowns use the current window.
   */
  lemma QueryPlanWindows(
    tenantId: string, segmentIds: seq<string>, w: TimeframeWindow, platform: Option<string>)
    ensures
      var plan := QueryPlan(tenantId, segmentIds, w, platform);
      && (forall k :: 0 <= k < 5 ==>
            && CurrentTotalQuery(plan[3 * k].1, w)
            && PreviousTotalQuery(plan[3 * k + 1].1, w)
            && PreviousDailyQuery(plan[3 * k + 2].1, w))
      && CurrentBreakdownQuery(plan[15].1, w, SentimentMoodDimensions)
      && CurrentBreakdownQuery(plan[16].1, w, TypeAndPlatformDimensions)
  {
  }

  /** A family's snapshot: the answers to its total, previous-total and daily-series queries. */
  function FamilySnapshot(
    fetch: MetricFetch, family: Fetcher,
    tenantId: string, segmentIds: seq<string>, w: TimeframeWindow, platform: Option<string>)
    : MetricSnapshot
  {
    MetricSnapshot(
      fetch(family, Params(Total, tenantId, segmentIds, w, platform)),
      fetch(family, Params(PreviousTotal, tenantId, segmentIds, w, platform)),
      fetch(family, Params(DailySeries, tenantId, segmentIds, w, platform)))
  }

  /**
   * The dashboard record of one slice: the answers to the slice's queries.
   * Fails, as `buildTimeframe` does, for a timeframe outside the enumeration.
   */
  function DashboardCacheData(
    fetch: MetricFetch, tenantId: string, segmentIds: seq<string>,
    timeframe: DashboardTimeframe, today: int, platform: Option<string>)
    : (r: Result<DashboardData>)
    ensures r.Ok? <==> Supported(timeframe)
    ensures r.Err? ==> r == Err(UnsupportedMessage(timeframe))
  {
    match BuildTimeframe(timeframe, today)
    case Err(message) => Err(message)
    case Ok(w) =>
      var activity := FamilySnapshot(fetch, GetActivities, tenantId, segmentIds, w, platform);
      Ok(DashboardData(
        FamilySnapshot(fetch, GetNewMembers, tenantId, segmentIds, w, platform),
        FamilySnapshot(fetch, GetActiveMembers, tenantId, segmentIds, w, platform),
        FamilySnapshot(fetch, GetNewOrganizations, tenantId, segmentIds, w, platform),
        FamilySnapshot(fetch, GetActiveOrganizations, tenantId, segmentIds, w, platform),
        ActivitySnapshot(
          activity.total, activity.previousPeriodTotal, activity.timeseries,
          fetch(GetActivities, Params(Breakdown(SentimentMoodDimensions), tenantId, segmentIds, w, platform)),
          fetch(GetActivities, Params(Breakdown(TypeAndPlatformDimensions), tenantId, segmentIds, w, platform)))))
  }

  /**
   * Where each field of a slice's record comes from: each family's total is
   * answered over the current window, its previous total over the previous
   * window, its series daily (raw rows) over the previous window, and the
   * activity breakdowns by sentiment mood and by type and platform over the
   * current window; every query carries the slice's tenant, segment ids and
   * platform.
   */
  lemma {:induction false} DashboardCacheDataSources(
    fetch: MetricFetch, tenantId: string, segmentIds: seq<string>,
    timeframe: DashboardTimeframe, today: int, platform: Option<string>)
    requires Supported(timeframe)
    ensures
      var w := BuildTimeframe(timeframe, today).value;
      var d := DashboardCacheData(fetch, tenantId, segmentIds, timeframe, today, platform).value;
      && d.newMembers == FamilySnapshot(fetch, GetNewMembers, tenantId, segmentIds, w, platform)
      && d.activeMembers == FamilySnapshot(fetch, GetActiveMembers, tenantId, segmentIds, w, platform)
      && d.newOrganizations == FamilySnapshot(fetch, GetNewOrganizations, tenantId, segmentIds, w, platform)
      && d.activeOrganizations == FamilySnapshot(fetch, GetActiveOrganizations, tenantId, segmentIds, w, platform)
      && MetricSnapshot(d.activity.total, d.activity.previousPeriodTotal, d.activity.timeseries)
           == FamilySnapshot(fetch, GetActivities, tenantId, segmentIds, w, platform)
      && d.activity.bySentimentMood
           == fetch(GetActivities, Params(Breakdown(SentimentMoodDimensions), tenantId, segmentIds, w, platform))
      && d.activity.byTypeAndPlatform
           == fetch(GetActivities, Params(Breakdown(TypeAndPlatformDimensions), tenantId, segmentIds, w, platform))
  {
  }

  /** The record holds the answer to the i-th query issued in its i-th field. */
  lemma DashboardCacheDataFollowsPlan(
    fetch: MetricFetch, tenantId: string, segmentIds: seq<string>,
    timeframe: DashboardTimeframe, today: int, platform: Option<string>)
    requires Supported(timeframe)
    ensures
      var plan := QueryPlan(tenantId, segmentIds, BuildTimeframe(timeframe, today).value, platform);
      var answers := Answers(DashboardCacheData(fetch, tenantId, segmentIds, timeframe, today, platform).value);
      forall i :: 0 <= i < 17 ==> answers[i] == fetch(plan[i].0, plan[i].1)
  {
  }
}
