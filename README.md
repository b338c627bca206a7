# Dashboard cache refresh

A model of the dashboard cache refresh workflow of the cache worker, together with
the two Cube.js member metrics it relies on.

- `DashboardTimeframes` (`timeframes.dfy`): `buildTimeframe`. It turns a dashboard timeframe
  (`LAST_7_DAYS`, `LAST_14_DAYS`, `LAST_30_DAYS`) into a current window and the previous window
  of the same length. Any other value is an error. The wall clock is an integer day number
  `today`, and a boundary is a day tagged as start-of-day or end-of-day.
- `CubeMetrics` (`cube_metrics.dfy`): `activeMembers` and `newMembers`.
  - Each builds the filter list: three exclusions, then an optional platform filter, then an
    optional segment filter.
  - Each builds the member-count query and hands it to `load`. `load` is a function parameter.
  - Each then either returns the rows or reads the first row's count with JavaScript's
    `parseInt`. A missing count counts as 0.
  - `moment`'s `YYYY-MM-DD` formatting and `parseInt` are written out.
- `DashboardData` (`dashboard_data.dfy`): `getDashboardCacheData`. These are the seventeen metric
  queries of one slice (a timeframe and an optional platform) and the dashboard record built from
  their answers. The metric activities are a function parameter `fetch`.
- `RefreshDashboardCache` (`refresh.dfy`): `refreshDashboardCache` and
  `refreshDashboardCacheForAllTimeranges`.
  - The run's argument object is the class `RefreshArgs`.
  - The cache store is the class `DashboardCacheWorker`. It holds a cache map keyed by
    (tenant, segment, timeframe, view) and the sequence of calls made on the store: cache writes
    and marker updates.
  - The workflow's read-only activities are the fields of the datatype `Activities`. The two
    writing activities, `saveToCache` and `updateMemberMergeSuggestionsLastGeneratedAt`, are the
    methods `SaveToCache` and `UpdateMemberMergeSuggestionsLastGeneratedAt` of
    `DashboardCacheWorker`.
  - The methods are proved against value-level functions. `PlannedViews` chooses the views a run
    refreshes: cold start, new activity, or nothing new. `RunEvents` gives the calls a run makes,
    and `ApplyEvents` gives the cache they leave. The lemmas about a run are stated about those
    functions.

Three behaviours of the code worth noting:
- The marker update (`updateMemberMergeSuggestionsLastGeneratedAt`) is made on every path,
  including the path that finds no new activity.
- The loops run view by view, and each view runs through every timeframe.
- Every timeseries query covers the previous period only, not the span from the previous period
  to the current one.

## Model

| member | source | states |
|---|---|---|
| DashboardTimeframes.BuildTimeframe | services/apps/cache_worker/src/workflows/refreshDashboardCache.ts:323-367 | A result exists exactly for the three enumerated timeframes, and any other value fails with "Unsupported timerange <value>!". For period N, the current window is start of today-(N-1) to end of today, and the previous window is start of today-(2N-1) to end of today-N. |
| DashboardTimeframes.PeriodDays | services/apps/cache_worker/src/workflows/refreshDashboardCache.ts:323-364 | The period of a supported timeframe is 7, 14 or 30 days. |
| DashboardTimeframes.WindowsAreAdjacent | services/apps/cache_worker/src/workflows/refreshDashboardCache.ts:323-364 | Both windows are N days long and the current one ends today. The previous one ends the day before the current one starts. Together they cover exactly the last 2N days, and no day lies in both. |
| CubeMetrics.ParseInt | services/libs/cubejs/src/metrics/activeMembers.ts:77 | `parseInt(s, 10)` is NaN exactly when no digit follows the leading white space and sign. Otherwise the result's sign follows the sign character. |
| CubeMetrics.ParseZeroPadded | services/libs/cubejs/src/metrics/activeMembers.ts:63 | A zero-padded decimal parses back to its value whatever non-digit text follows it. |
| CubeMetrics.FormatDate | services/libs/cubejs/src/metrics/activeMembers.ts:63 | `format('YYYY-MM-DD')` of a date with a four-digit year is ten characters long, with dashes at positions 4 and 7. |
| CubeMetrics.FormatDateRoundTrip | services/libs/cubejs/src/metrics/activeMembers.ts:63 | Year, month and day of a formatted date each parse back to the field they came from. |
| CubeMetrics.BuildQuery | services/libs/cubejs/src/metrics/activeMembers.ts:24-69 | The filters are the three `false` exclusions in order (team member, bot, organization), then the platform filter exactly when the platform is truthy, then the segment filter last exactly when the segment is truthy. The query counts members over the given time dimension, between the two dates as `YYYY-MM-DD`, at the given granularity, ordered by join date ascending. |
| CubeMetrics.FiltersForIsUnique | services/libs/cubejs/src/metrics/activeMembers.ts:24-56 | Only one filter list meets that description, so the description is the list. |
| CubeMetrics.DefaultFilterSendsExclusionsOnly | services/libs/cubejs/src/metrics/activeMembers.ts:21-56 | With the default filter `{}`, exactly the three exclusions are sent. |
| CubeMetrics.SelectResult | services/libs/cubejs/src/metrics/activeMembers.ts:71-77 | The result is the loaded rows, unchanged, exactly when `rawResult` is set or a granularity is given. Otherwise: an empty result is the failed first-row access; a missing count is 0; a present count is its `parseInt`, or NaN. |
| CubeMetrics.CountRoundTrip | services/libs/cubejs/src/metrics/activeMembers.ts:75-77 | A count the service reports in decimal comes back as exactly that number. |
| CubeMetrics.ActiveMembers | services/libs/cubejs/src/metrics/activeMembers.ts:16-78 | The query sent to `load` counts members over the activity date with the filters above, and the result is the selection from what `load` returned. |
| CubeMetrics.NewMembers | services/libs/cubejs/src/metrics/newMembers.ts:15-76 | The same as `ActiveMembers`, except that the time dimension is the join date. |
| CubeMetrics.MetricsDifferOnlyInTimeDimension | services/libs/cubejs/src/metrics/newMembers.ts:57-68 | For the same arguments, the two metrics' queries are equal except for the time dimension (join date instead of activity date), and they are different. |
| DashboardData.Params | services/apps/cache_worker/src/workflows/refreshDashboardCache.ts:117-290 | Every query argument object carries the slice's tenant, segment ids and platform. A total is aggregated over the current window, a previous total over the previous window, a series is raw daily rows over the previous window, and a breakdown is raw rows over the current window with its dimensions. |
| DashboardData.QueryPlan | services/apps/cache_worker/src/workflows/refreshDashboardCache.ts:117-290 | A slice issues seventeen queries. Their contents are stated by `QueryPlanFamilies` and `QueryPlanWindows`, and their link to the record by `DashboardCacheDataFollowsPlan`. |
| DashboardData.QueryPlanFamilies | services/apps/cache_worker/src/workflows/refreshDashboardCache.ts:117-290 | All seventeen queries share the slice's scope. They go to new members, active members, new organizations and active organizations three at a time, in that order, and the last five go to activities. |
| DashboardData.QueryPlanWindows | services/apps/cache_worker/src/workflows/refreshDashboardCache.ts:117-290 | For each of the five families: the total is aggregated over the current window, the previous total over the previous window, and the timeseries is raw daily rows over the previous window. The sentiment-mood and type-and-platform breakdowns are raw rows over the current window with their dimensions. |
| DashboardData.Answers | services/apps/cache_worker/src/workflows/refreshDashboardCache.ts:292-320 | The record has seventeen answer fields, listed in field order. That the i-th field holds the answer to the i-th query is stated by `DashboardCacheDataFollowsPlan`. |
| DashboardData.DashboardCacheData | services/apps/cache_worker/src/workflows/refreshDashboardCache.ts:107-321 | A record is produced exactly for a supported timeframe, and any other value fails with the `buildTimeframe` message. |
| DashboardData.DashboardCacheDataSources | services/apps/cache_worker/src/workflows/refreshDashboardCache.ts:117-320 | Each family snapshot of the record is the answers to its current-total, previous-total and previous-daily queries. The two activity breakdowns are the answers to their current-window raw queries. All of them are scoped to the slice. |
| DashboardData.DashboardCacheDataFollowsPlan | services/apps/cache_worker/src/workflows/refreshDashboardCache.ts:117-320 | The i-th field of the record is the answer to the i-th query issued. |
| RefreshDashboardCache.ViewsFor | services/apps/cache_worker/src/workflows/refreshDashboardCache.ts:37-49 | The views refreshed for a platform list are `all` first, then one view per platform in list order. |
| RefreshDashboardCache.RefreshSaves | services/apps/cache_worker/src/workflows/refreshDashboardCache.ts:39-73 | Refreshing the views makes three writes per view. Their contents and order are stated by `RefreshSavesAt` and `RefreshSavesInOrder`. |
| RefreshDashboardCache.RefreshSavesAt | services/apps/cache_worker/src/workflows/refreshDashboardCache.ts:86-105 | Write 3i+j is for view i and the j-th timeframe, so views are the outer loop and timeframes the inner one. |
| RefreshDashboardCache.RefreshSavesInOrder | services/apps/cache_worker/src/workflows/refreshDashboardCache.ts:86-105 | The writes for the views are exactly one per view and timeframe, in that order. |
| RefreshDashboardCache.SaveAt | services/apps/cache_worker/src/workflows/refreshDashboardCache.ts:86-105 | Every write is for one of the refreshed views and a supported timeframe. |
| RefreshDashboardCache.SavesKeyedBySegment | services/apps/cache_worker/src/workflows/refreshDashboardCache.ts:86-105 | Every write is keyed by the tenant, the segment id, a supported timeframe and a refreshed view. The data it stores is computed from the leaf segment ids and the view's platform. |
| RefreshDashboardCache.RefreshSavesAppend | services/apps/cache_worker/src/workflows/refreshDashboardCache.ts:42-48 | Refreshing one more view appends exactly that view's writes. |
| RefreshDashboardCache.ColdStartRefreshesEverything | services/apps/cache_worker/src/workflows/refreshDashboardCache.ts:37-49 | Without a last-refreshed time, a run writes `all` and then every active platform, in the returned order, for every timeframe. That is 3·(1+platforms) writes and then the marker update. |
| RefreshDashboardCache.IncrementalRefreshesOnlyChangedPlatforms | services/apps/cache_worker/src/workflows/refreshDashboardCache.ts:50-73 | With new activity on some platforms, a run writes `all` and then exactly those platforms, in order. A platform without new activity gets no write, and its entries keep what they held. |
| RefreshDashboardCache.NothingNewWritesNothing | services/apps/cache_worker/src/workflows/refreshDashboardCache.ts:57-80 | When the new-activity list is missing or empty, the only call is the marker update, and the cache is unchanged. |
| RefreshDashboardCache.MarkerUpdatedOnceAtEnd | services/apps/cache_worker/src/workflows/refreshDashboardCache.ts:37-80 | Every run makes exactly one marker update, for its own segment, after all its writes, on every path. |
| RefreshDashboardCache.ApplyEventsAppend | services/apps/cache_worker/src/workflows/refreshDashboardCache.ts:103 | Applying two sequences of calls one after the other is applying their concatenation. |
| RefreshDashboardCache.ApplyEventsLookup | services/apps/cache_worker/src/workflows/refreshDashboardCache.ts:103 | After a sequence of calls, an entry holds what the last write to its key stored. If nothing wrote to it, it holds what it held before. |
| RefreshDashboardCache.UnwrittenKeyUnchanged | services/apps/cache_worker/src/workflows/refreshDashboardCache.ts:103 | An entry that no call writes to keeps its presence and its value. |
| RefreshDashboardCache.NeverSavedHasNoLastValue | services/apps/cache_worker/src/workflows/refreshDashboardCache.ts:103 | A key with no write has no last written value. |
| RefreshDashboardCache.MarkerLeavesCache | services/apps/cache_worker/src/workflows/refreshDashboardCache.ts:80 | The marker update does not change the cache (assumed semantics, see "Left out"). |
| RefreshDashboardCache.ApplyEventsIdempotent | services/apps/cache_worker/src/workflows/refreshDashboardCache.ts:103 | With writes as whole overwrites (the store's assumed semantics, see "Left out"), making the same calls twice leaves the cache as making them once does. |
| RefreshDashboardCache.RerunLeavesCacheUnchanged | services/apps/cache_worker/src/workflows/refreshDashboardCache.ts:21-105 | Running the workflow twice with the same activity answers leaves the cache as one run does. |
| RefreshDashboardCache.RefreshArgs.constructor | services/apps/cache_worker/src/workflows/refreshDashboardCache.ts:21-23 | The argument object holds the tenant, the optional segment and the leaf segment ids it was given. |
| RefreshDashboardCache.DashboardCacheWorker.constructor | services/apps/cache_worker/src/workflows/refreshDashboardCache.ts:103 | A fresh store has an empty cache and no calls. |
| RefreshDashboardCache.DashboardCacheWorker.SaveToCache | services/apps/cache_worker/src/workflows/refreshDashboardCache.ts:103 | A write replaces the entry under its key and is recorded (assumed semantics, see "Left out"). |
| RefreshDashboardCache.DashboardCacheWorker.UpdateMemberMergeSuggestionsLastGeneratedAt | services/apps/cache_worker/src/workflows/refreshDashboardCache.ts:80 | The marker update is recorded and the cache is untouched. |
| RefreshDashboardCache.DashboardCacheWorker.RefreshDashboardCacheForAllTimeranges | services/apps/cache_worker/src/workflows/refreshDashboardCache.ts:86-105 | The calls made are the view's three writes, in timeframe order, and the cache is the old cache with them applied. |
| RefreshDashboardCache.DashboardCacheWorker.RefreshViews | services/apps/cache_worker/src/workflows/refreshDashboardCache.ts:39-48 | The calls made are the writes for `all` and then for each platform in turn, and the cache is the old cache with them applied. |
| RefreshDashboardCache.DashboardCacheWorker.RefreshSegment | services/apps/cache_worker/src/workflows/refreshDashboardCache.ts:33-80 | The calls made are exactly the planned run (`RunEvents`): the writes for the planned views, then the marker update. The cache is the old cache with them applied. |
| RefreshDashboardCache.DashboardCacheWorker.RefreshDashboardCache | services/apps/cache_worker/src/workflows/refreshDashboardCache.ts:21-84 | A truthy segment id and its leaf segment ids are kept. Otherwise both are replaced by the default segment. The calls made and the cache left are those of the planned run for the resolved segment. |

## Left out

- The durable-execution plumbing: the activity proxy, its timeout and retries. Each read-only
  activity is a function in `Activities` or `fetch`, the two writing activities are methods of
  `DashboardCacheWorker`, and a failing activity is not modelled.
- SaveToCache / UpdateMemberMergeSuggestionsLastGeneratedAt: the bodies of `saveToCache` and
  `updateMemberMergeSuggestionsLastGeneratedAt` are not part of this model. Their effects are
  assumed. A write replaces the whole entry under (tenant, segment, timeframe, platform or `all`),
  and the marker update leaves the cache alone. `ApplyEvents`, `MarkerLeavesCache`,
  `ApplyEventsIdempotent`, `RerunLeavesCacheUnchanged`, `NothingNewWritesNothing` (its cache
  clause) and `IncrementalRefreshesOnlyChangedPlatforms` (its clause that a quiet platform's
  entries keep their values) rest on these assumptions.
- `console.log` output.
- The wall clock, ISO timestamp strings and time zones. `today` is one day number per run, and a
  boundary is a day tagged as start-of-day or end-of-day.
- What the metric activities do with their arguments, and the internals of `cjs.load`. Their
  answers and the result rows stay abstract.
- The values and declaration order of the `DashboardTimeframe` enumeration are not part of this
  model. The order is taken to be 7, 14, then 30 days. `Unrecognised` stands only for values
  outside the enumeration: a raw string equal to one of the three members' values is not
  identified with that member, although the source's `===` tests would accept it.
- `CubeGranularity` values are not part of this model. A granularity is present or absent, and an
  empty-string granularity (falsy in JavaScript) is not distinguished from a present one.
- ParseInt: the white space skipped is the ASCII set, no-break space, the line and paragraph
  separators and the byte-order mark. The other Unicode space separators that JavaScript also
  skips (U+1680, U+2000 to U+200A, U+202F, U+205F, U+3000) are not modelled. The result is an
  exact integer: JavaScript returns a double, so it rounds digit runs beyond 2^53 and gives -0
  for "-0"; neither is modelled, because member counts stay far below 2^53.
- FormatDate: the ten-character shape is stated only for years below 10000, where `YYYY` is four
  digits. Negative years are not modelled.
- The state the workflow reads but does not own (last-refreshed times, active platforms, new
  activity) is not updated by the model. The marker update is recorded as a call, and its effect
  on later runs is not modelled.
- Cancellation in the middle of a run and concurrent runs are not modelled. A run is one sequence
  of calls.
