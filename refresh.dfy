/**
 * The dashboard cache refresh workflow (`refreshDashboardCache` and
 * `refreshDashboardCacheForAllTimeranges`).
 *
 * A run resolves the segment, decides which views to refresh (cold start:
 * `all` and every active platform; incremental: `all` and the platforms with
 * new activity; nothing new: none), writes one cache entry per view and
 * timeframe, view by view, and finally updates the segment's marker.
 *
 * The workflow's activities are the fields of `Activities`; the cache store
 * and the calls made on it are the state of `DashboardCacheWorker`.
 */
module RefreshDashboardCache {
  import opened Wrappers
  import opened DashboardTimeframes
  import opened CubeMetrics
  import opened DashboardData

  /** A cached view: unfiltered (`all`) or restricted to one platform. */
  datatype View = All | Platform(name: string)

  /** The platform argument a view passes down: `undefined` for `all`. */
  function ViewFilter(v: View): Option<string> {
    match v
    case All => None
    case Platform(p) => Some(p)
  }

  /** The address of a cache entry. */
  datatype CacheKey = CacheKey(tenantId: string, segmentId: string, timeframe: DashboardTimeframe, view: View)

  datatype Timestamp = Timestamp(millis: int)

  /** A call the run makes on the store: a cache write, or the closing marker update. */
  datatype Event =
    | CacheSaved(key: CacheKey, data: DashboardData)
    | LastGeneratedAtUpdated(segmentId: string)

  /**
   * The workflow's read-only activities. `today` stands for the clock every
   * timeframe is computed from.
   */
  datatype Activities = Activities(
    getDefaultSegment: string -> string,
    getDashboardCacheLastRefreshedAt: string -> Option<Timestamp>,
    getActivePlatforms: seq<string> -> seq<string>,
    findNewActivityPlatforms: (Timestamp, seq<string>) -> Option<seq<string>>,
    fetch: MetricFetch,
    today: int)

  type Cache = map<CacheKey, DashboardData>

  // ---------------------------------------------------------------------------
  // What a run does, as values

  /** The views refreshed for `platforms`: `all` first, then one view per platform, in order. */
  function ViewsFor(platforms: seq<string>): (views: seq<View>)
    ensures |views| == |platforms| + 1 && views[0] == All
    ensures forall i :: 0 <= i < |platforms| ==> views[i + 1] == Platform(platforms[i])
  {
    [All] + seq(|platforms|, i requires 0 <= i < |platforms| => Platform(platforms[i]))
  }

  lemma ViewsForAppend(platforms: seq<string>, platform: string)
    ensures ViewsFor(platforms + [platform]) == ViewsFor(platforms) + [Platform(platform)]
  {
  }

  /** The views a run refreshes, in order. */
  function PlannedViews(env: Activities, segmentId: string, leafSegmentIds: seq<string>): seq<View> {
    match env.getDashboardCacheLastRefreshedAt(segmentId)
    case None => ViewsFor(env.getActivePlatforms(leafSegmentIds))
    case Some(at) =>
      var platforms := env.findNewActivityPlatforms(at, leafSegmentIds);
      if platforms.Some? && |platforms.value| > 0 then ViewsFor(platforms.value) else []
  }

  /** The three ways a run chooses its views. */
  lemma PlannedViewsCases(env: Activities, segmentId: string, leafSegmentIds: seq<string>)
    ensures env.getDashboardCacheLastRefreshedAt(segmentId).None? ==>
      PlannedViews(env, segmentId, leafSegmentIds) == ViewsFor(env.getActivePlatforms(leafSegmentIds))
    ensures env.getDashboardCacheLastRefreshedAt(segmentId).Some? ==>
      var platforms := env.findNewActivityPlatforms(env.getDashboardCacheLastRefreshedAt(segmentId).value, leafSegmentIds);
      PlannedViews(env, segmentId, leafSegmentIds)
        == if platforms.Some? && |platforms.value| > 0 then ViewsFor(platforms.value) else []
  {
  }

  /**
   * The write of one view and timeframe: keyed by the segment id, computed
   * from the leaf segment ids.
   */
  function Save(
    env: Activities, tenantId: string, segmentId: string, leafSegmentIds: seq<string>,
    view: View, timeframe: DashboardTimeframe)
    : Event
    requires Supported(timeframe)
  {
    CacheSaved(
      CacheKey(tenantId, segmentId, timeframe, view),
      DashboardCacheData(env.fetch, tenantId, leafSegmentIds, timeframe, env.today, ViewFilter(view)).value)
  }

  /** The writes of one view, one per timeframe in enumeration order. */
  function ViewSaves(
    env: Activities, tenantId: string, segmentId: string, leafSegmentIds: seq<string>, view: View)
    : (saves: seq<Event>)
    ensures |saves| == 3
  {
    seq(|Timeframes|, j requires 0 <= j < |Timeframes| =>
      Save(env, tenantId, segmentId, leafSegmentIds, view, Timeframes[j]))
  }

  /** The writes of several views, view after view. */
  function RefreshSaves(
    env: Activities, tenantId: string, segmentId: string, leafSegmentIds: seq<string>, views: seq<View>)
    : (saves: seq<Event>)
    ensures |saves| == 3 * |views|
  {
    if views == [] then []
    else ViewSaves(env, tenantId, segmentId, leafSegmentIds, views[0])
         + RefreshSaves(env, tenantId, segmentId, leafSegmentIds, views[1..])
  }

  /** Every call a run makes on the store, in order, once its segment is resolved. */
  function RunEvents(env: Activities, tenantId: string, segmentId: string, leafSegmentIds: seq<string>): seq<Event> {
    RefreshSaves(env, tenantId, segmentId, leafSegmentIds, PlannedViews(env, segmentId, leafSegmentIds))
    + [LastGeneratedAtUpdated(segmentId)]
  }

  /** A write replaces the entry under its key; the marker update leaves the cache alone. */
  function ApplyEvent(cache: Cache, e: Event): Cache {
    match e
    case CacheSaved(key, data) => cache[key := data]
    case LastGeneratedAtUpdated(_) => cache
  }

  function ApplyEvents(cache: Cache, events: seq<Event>): Cache {
    if events == [] then cache
    else ApplyEvent(ApplyEvents(cache, events[..|events| - 1]), events[|events| - 1])
  }

  /** The value the last write to `key` among `events` stored, if any. */
  function LastSaved(events: seq<Event>, key: CacheKey): Option<DashboardData> {
    if events == [] then None
    else
      var e := events[|events| - 1];
      if e.CacheSaved? && e.key == key then Some(e.data) else LastSaved(events[..|events| - 1], key)
  }

  /**
   * `saves` are the writes of `views`, view-outer and timeframe-inner: the
   * write at 3*i + j is the one for view i and timeframe j.
   */
  predicate WritesInOrder(
    saves: seq<Event>, env: Activities, tenantId: string, segmentId: string,
    leafSegmentIds: seq<string>, views: seq<View>)
  {
    && |saves| == 3 * |views|
    && forall i, j :: 0 <= i < |views| && 0 <= j < 3 ==>
         saves[3 * i + j] == Save(env, tenantId, segmentId, leafSegmentIds, views[i], Timeframes[j])
  }

  // ---------------------------------------------------------------------------
  // Lemmas about the writes

  /** The write at 3*i + j of a refresh is the one for view i and timeframe j. */
  lemma {:induction false} RefreshSavesAt(
    env: Activities, tenantId: string, segmentId: string, leafSegmentIds: seq<string>, views: seq<View>,
    i: nat, j: nat)
    requires i < |views| && j < 3
    ensures RefreshSaves(env, tenantId, segmentId, leafSegmentIds, views)[3 * i + j]
         == Save(env, tenantId, segmentId, leafSegmentIds, views[i], Timeframes[j])
  {
    var head := ViewSaves(env, tenantId, segmentId, leafSegmentIds, views[0]);
    var tail := RefreshSaves(env, tenantId, segmentId, leafSegmentIds, views[1..]);
    assert RefreshSaves(env, tenantId, segmentId, leafSegmentIds, views) == head + tail;
    if i == 0 {
      assert (head + tail)[j] == head[j];
    } else {
      assert (head + tail)[3 * i + j] == tail[3 * (i - 1) + j];
      RefreshSavesAt(env, tenantId, segmentId, leafSegmentIds, views[1..], i - 1, j);
      assert views[1..][i - 1] == views[i];
    }
  }

  /** The writes of the views are exactly three per view, in view-then-timeframe order. */
  lemma RefreshSavesInOrder(
    env: Activities, tenantId: string, segmentId: string, leafSegmentIds: seq<string>, views: seq<View>)
    ensures WritesInOrder(RefreshSaves(env, tenantId, segmentId, leafSegmentIds, views),
                          env, tenantId, segmentId, leafSegmentIds, views)
  {
    forall i, j | 0 <= i < |views| && 0 <= j < 3
      ensures RefreshSaves(env, tenantId, segmentId, leafSegmentIds, views)[3 * i + j]
           == Save(env, tenantId, segmentId, leafSegmentIds, views[i], Timeframes[j])
    {
      RefreshSavesAt(env, tenantId, segmentId, leafSegmentIds, views, i, j);
    }
  }

  /** Refreshing one more view appends that view's writes. */
  lemma {:induction false} RefreshSavesAppend(
    env: Activities, tenantId: string, segmentId: string, leafSegmentIds: seq<string>,
    views: seq<View>, view: View)
    ensures RefreshSaves(env, tenantId, segmentId, leafSegmentIds, views + [view])
         == RefreshSaves(env, tenantId, segmentId, leafSegmentIds, views)
            + ViewSaves(env, tenantId, segmentId, leafSegmentIds, view)
  {
    if views == [] {
      assert [view][1..] == [];
    } else {
      assert (views + [view])[1..] == views[1..] + [view];
      RefreshSavesAppend(env, tenantId, segmentId, leafSegmentIds, views[1..], view);
    }
  }

  /** The write at position `n` of a refresh is the one for some view among `views` and some timeframe. */
  lemma SaveAt(
    env: Activities, tenantId: string, segmentId: string, leafSegmentIds: seq<string>, views: seq<View>, n: nat)
    returns (view: View, timeframe: DashboardTimeframe)
    requires n < |RefreshSaves(env, tenantId, segmentId, leafSegmentIds, views)|
    ensures view in views && Supported(timeframe)
    ensures RefreshSaves(env, tenantId, segmentId, leafSegmentIds, views)[n]
         == Save(env, tenantId, segmentId, leafSegmentIds, view, timeframe)
  {
    var i, j := n / 3, n % 3;
    assert n == 3 * i + j && i < |views|;
    RefreshSavesAt(env, tenantId, segmentId, leafSegmentIds, views, i, j);
    view, timeframe := views[i], Timeframes[j];
  }

  /** Every write of a refresh is keyed by the segment id and computed from the leaf segment ids. */
  lemma {:induction false} SavesKeyedBySegment(
    env: Activities, tenantId: string, segmentId: string, leafSegmentIds: seq<string>, views: seq<View>)
    ensures forall e :: e in RefreshSaves(env, tenantId, segmentId, leafSegmentIds, views) ==>
      && e.CacheSaved?
      && e.key.tenantId == tenantId && e.key.segmentId == segmentId
      && e.key.view in views && Supported(e.key.timeframe)
      && e.data == DashboardCacheData(env.fetch, tenantId, leafSegmentIds, e.key.timeframe,
                                      env.today, ViewFilter(e.key.view)).value
  {
    var saves := RefreshSaves(env, tenantId, segmentId, leafSegmentIds, views);
    forall e | e in saves
      ensures e.CacheSaved? && e.key.tenantId == tenantId && e.key.segmentId == segmentId
      ensures e.key.view in views && Supported(e.key.timeframe)
      ensures e.data == DashboardCacheData(env.fetch, tenantId, leafSegmentIds, e.key.timeframe,
                                           env.today, ViewFilter(e.key.view)).value
    {
      var n :| 0 <= n < |saves| && saves[n] == e;
      var view, timeframe := SaveAt(env, tenantId, segmentId, leafSegmentIds, views, n);
    }
  }

  // ---------------------------------------------------------------------------
  // Lemmas about the cache

  /**
   * A worker that holds the calls `events0 + a` and the cache `cache0`
   * updated by `a`, and then receives the writes `b`, holds the calls and
   * the cache of `a + b`.
   */
  lemma ExtendRun(
    cache0: Cache, events0: seq<Event>, cache1: Cache, events1: seq<Event>, cache2: Cache, events2: seq<Event>,
    a: seq<Event>, b: seq<Event>)
    requires events1 == events0 + a && cache1 == ApplyEvents(cache0, a)
    requires events2 == events1 + b && cache2 == ApplyEvents(cache1, b)
    ensures events2 == events0 + (a + b)
    ensures cache2 == ApplyEvents(cache0, a + b)
  {
    ApplyEventsAppend(cache0, a, b);
  }

  /** The loop step of `RefreshViews`: refreshing platform `i` extends the views to `platforms[..i + 1]`. */
  lemma ExtendPlatforms(
    env: Activities, tenantId: string, segmentId: string, leafSegmentIds: seq<string>,
    platforms: seq<string>, i: nat,
    cache0: Cache, events0: seq<Event>, cache1: Cache, events1: seq<Event>, cache2: Cache, events2: seq<Event>)
    requires i < |platforms|
    requires events1 == events0 + RefreshSaves(env, tenantId, segmentId, leafSegmentIds, ViewsFor(platforms[..i]))
    requires cache1 == ApplyEvents(cache0, RefreshSaves(env, tenantId, segmentId, leafSegmentIds, ViewsFor(platforms[..i])))
    requires events2 == events1 + ViewSaves(env, tenantId, segmentId, leafSegmentIds, Platform(platforms[i]))
    requires cache2 == ApplyEvents(cache1, ViewSaves(env, tenantId, segmentId, leafSegmentIds, Platform(platforms[i])))
    ensures events2 == events0 + RefreshSaves(env, tenantId, segmentId, leafSegmentIds, ViewsFor(platforms[..i + 1]))
    ensures cache2 == ApplyEvents(cache0, RefreshSaves(env, tenantId, segmentId, leafSegmentIds, ViewsFor(platforms[..i + 1])))
  {
    RefreshSavesAppend(env, tenantId, segmentId, leafSegmentIds, ViewsFor(platforms[..i]), Platform(platforms[i]));
    ExtendRun(cache0, events0, cache1, events1, cache2, events2,
              RefreshSaves(env, tenantId, segmentId, leafSegmentIds, ViewsFor(platforms[..i])),
              ViewSaves(env, tenantId, segmentId, leafSegmentIds, Platform(platforms[i])));
    assert platforms[..i + 1] == platforms[..i] + [platforms[i]];
    ViewsForAppend(platforms[..i], platforms[i]);
  }

  /** The marker update at the end of a run does not touch the cache. */
  lemma MarkerLeavesCache(cache: Cache, saves: seq<Event>, segmentId: string)
    ensures ApplyEvents(cache, saves + [LastGeneratedAtUpdated(segmentId)]) == ApplyEvents(cache, saves)
  {
    assert (saves + [LastGeneratedAtUpdated(segmentId)])[..|saves|] == saves;
  }

  /** Applying two runs of events is applying their concatenation. */
  lemma {:induction false} ApplyEventsAppend(cache: Cache, a: seq<Event>, b: seq<Event>)
    ensures ApplyEvents(cache, a + b) == ApplyEvents(ApplyEvents(cache, a), b)
  {
    if b == [] {
      assert a + b == a;
    } else {
      assert (a + b)[..|a + b| - 1] == a + b[..|b| - 1];
      ApplyEventsAppend(cache, a, b[..|b| - 1]);
    }
  }

  /**
   * After a sequence of calls, an entry holds what the last write to its key
   * stored, or, when nothing wrote to it, what it held before.
   */
  lemma {:induction false} ApplyEventsLookup(cache: Cache, events: seq<Event>, key: CacheKey)
    ensures LastSaved(events, key).Some? ==>
      key in ApplyEvents(cache, events) && ApplyEvents(cache, events)[key] == LastSaved(events, key).value
    ensures LastSaved(events, key).None? ==>
      (key in ApplyEvents(cache, events) <==> key in cache)
      && (key in cache ==> ApplyEvents(cache, events)[key] == cache[key])
  {
    if events != [] {
      ApplyEventsLookup(cache, events[..|events| - 1], key);
    }
  }

  /** An entry no call writes to is left as it was. */
  lemma {:induction false} UnwrittenKeyUnchanged(cache: Cache, events: seq<Event>, key: CacheKey)
    requires forall e :: e in events && e.CacheSaved? ==> e.key != key
    ensures key in ApplyEvents(cache, events) <==> key in cache
    ensures key in cache ==> ApplyEvents(cache, events)[key] == cache[key]
  {
    NeverSavedHasNoLastValue(events, key);
    ApplyEventsLookup(cache, events, key);
  }

  lemma {:induction false} NeverSavedHasNoLastValue(events: seq<Event>, key: CacheKey)
    requires forall e :: e in events && e.CacheSaved? ==> e.key != key
    ensures LastSaved(events, key).None?
  {
    if events != [] {
      assert events[|events| - 1] in events;
      forall e | e in events[..|events| - 1] ensures e in events { }
      NeverSavedHasNoLastValue(events[..|events| - 1], key);
    }
  }

  /** Writes are whole overwrites, so making the same calls twice leaves what making them once does. */
  lemma {:induction false} ApplyEventsIdempotent(cache: Cache, events: seq<Event>)
    ensures ApplyEvents(ApplyEvents(cache, events), events) == ApplyEvents(cache, events)
  {
    var once := ApplyEvents(cache, events);
    var twice := ApplyEvents(once, events);
    forall key | true
      ensures (key in twice <==> key in once) && (key in once ==> twice[key] == once[key])
    {
      ApplyEventsLookup(cache, events, key);
      ApplyEventsLookup(once, events, key);
    }
    assert twice.Keys == once.Keys;
  }

  // ---------------------------------------------------------------------------
  // Lemmas about a run

  /** Cold start: `all`, then every active platform in the order returned, each for every timeframe. */
  lemma {:induction false} ColdStartRefreshesEverything(
    env: Activities, tenantId: string, segmentId: string, leafSegmentIds: seq<string>)
    requires env.getDashboardCacheLastRefreshedAt(segmentId).None?
    ensures
      var views := ViewsFor(env.getActivePlatforms(leafSegmentIds));
      var run := RunEvents(env, tenantId, segmentId, leafSegmentIds);
      && |run| == 3 * (1 + |env.getActivePlatforms(leafSegmentIds)|) + 1
      && WritesInOrder(run[..|run| - 1], env, tenantId, segmentId, leafSegmentIds, views)
      && run[|run| - 1] == LastGeneratedAtUpdated(segmentId)
  {
    var views := ViewsFor(env.getActivePlatforms(leafSegmentIds));
    var saves := RefreshSaves(env, tenantId, segmentId, leafSegmentIds, views);
    RefreshSavesInOrder(env, tenantId, segmentId, leafSegmentIds, views);
    var run := RunEvents(env, tenantId, segmentId, leafSegmentIds);
    assert run[..|run| - 1] == saves;
  }

  /**
   * Incremental run with new activity: `all`, then exactly the platforms with
   * new activity; a platform without new activity gets no write and keeps
   * its cache entries.
   */
  lemma {:induction false} IncrementalRefreshesOnlyChangedPlatforms(
    env: Activities, tenantId: string, segmentId: string, leafSegmentIds: seq<string>,
    cache: Cache, quiet: string, timeframe: DashboardTimeframe)
    requires env.getDashboardCacheLastRefreshedAt(segmentId).Some?
    requires
      var changed := env.findNewActivityPlatforms(env.getDashboardCacheLastRefreshedAt(segmentId).value, leafSegmentIds);
      changed.Some? && |changed.value| > 0 && quiet !in changed.value
    ensures
      var changed := env.findNewActivityPlatforms(env.getDashboardCacheLastRefreshedAt(segmentId).value, leafSegmentIds).value;
      var run := RunEvents(env, tenantId, segmentId, leafSegmentIds);
      var key := CacheKey(tenantId, segmentId, timeframe, Platform(quiet));
      && WritesInOrder(run[..|run| - 1], env, tenantId, segmentId, leafSegmentIds, ViewsFor(changed))
      && (forall e :: e in run && e.CacheSaved? ==> e.key.view != Platform(quiet))
      && (key in ApplyEvents(cache, run) <==> key in cache)
      && (key in cache ==> ApplyEvents(cache, run)[key] == cache[key])
  {
    var changed := env.findNewActivityPlatforms(env.getDashboardCacheLastRefreshedAt(segmentId).value, leafSegmentIds).value;
    var views := ViewsFor(changed);
    var saves := RefreshSaves(env, tenantId, segmentId, leafSegmentIds, views);
    var run := RunEvents(env, tenantId, segmentId, leafSegmentIds);
    RefreshSavesInOrder(env, tenantId, segmentId, leafSegmentIds, views);
    SavesKeyedBySegment(env, tenantId, segmentId, leafSegmentIds, views);
    assert run == saves + [LastGeneratedAtUpdated(segmentId)];
    assert run[..|run| - 1] == saves;
    assert Platform(quiet) !in views;
    forall e | e in run && e.CacheSaved? ensures e.key.view != Platform(quiet) {
      assert e in saves;
    }
    UnwrittenKeyUnchanged(cache, run, CacheKey(tenantId, segmentId, timeframe, Platform(quiet)));
  }

  /**
   * Incremental run with no new activity (none reported, or an empty list):
   * no cache write at all, only the closing marker update.
   */
  lemma {:induction false} NothingNewWritesNothing(
    env: Activities, tenantId: string, segmentId: string, leafSegmentIds: seq<string>, cache: Cache)
    requires env.getDashboardCacheLastRefreshedAt(segmentId).Some?
    requires
      var changed := env.findNewActivityPlatforms(env.getDashboardCacheLastRefreshedAt(segmentId).value, leafSegmentIds);
      changed.None? || changed.value == []
    ensures RunEvents(env, tenantId, segmentId, leafSegmentIds) == [LastGeneratedAtUpdated(segmentId)]
    ensures ApplyEvents(cache, RunEvents(env, tenantId, segmentId, leafSegmentIds)) == cache
  {
    assert ApplyEvents(cache, [LastGeneratedAtUpdated(segmentId)])
        == ApplyEvent(ApplyEvents(cache, []), LastGeneratedAtUpdated(segmentId));
  }

  /** Every run ends with exactly one marker update, for its own segment, after all its writes. */
  lemma {:induction false} MarkerUpdatedOnceAtEnd(
    env: Activities, tenantId: string, segmentId: string, leafSegmentIds: seq<string>)
    ensures
      var run := RunEvents(env, tenantId, segmentId, leafSegmentIds);
      && run != [] && run[|run| - 1] == LastGeneratedAtUpdated(segmentId)
      && forall i :: 0 <= i < |run| - 1 ==> run[i].CacheSaved?
  {
    var views := PlannedViews(env, segmentId, leafSegmentIds);
    var saves := RefreshSaves(env, tenantId, segmentId, leafSegmentIds, views);
    SavesKeyedBySegment(env, tenantId, segmentId, leafSegmentIds, views);
    var run := RunEvents(env, tenantId, segmentId, leafSegmentIds);
    forall i | 0 <= i < |run| - 1 ensures run[i].CacheSaved? {
      assert run[i] == saves[i] && saves[i] in saves;
    }
  }

  /** Repeating a run with unchanged activities leaves the cache as one run leaves it. */
  lemma {:induction false} RerunLeavesCacheUnchanged(
    env: Activities, tenantId: string, segmentId: string, leafSegmentIds: seq<string>, cache: Cache)
    ensures
      var run := RunEvents(env, tenantId, segmentId, leafSegmentIds);
      ApplyEvents(cache, run + run) == ApplyEvents(cache, run)
  {
    var run := RunEvents(env, tenantId, segmentId, leafSegmentIds);
    ApplyEventsAppend(cache, run, run);
    ApplyEventsIdempotent(cache, run);
  }

  // ---------------------------------------------------------------------------
  // The workflow

  /** The workflow's argument object; a run may fill in its segment. */
  class RefreshArgs {
    const tenantId: string
    var segmentId: Option<string>
    var leafSegmentIds: seq<string>

    constructor (tenantId: string, segmentId: Option<string>, leafSegmentIds: seq<string>)
      ensures this.tenantId == tenantId && this.segmentId == segmentId && this.leafSegmentIds == leafSegmentIds
    {
      this.tenantId := tenantId;
      this.segmentId := segmentId;
      this.leafSegmentIds := leafSegmentIds;
    }
  }

  /** The dashboard cache store and the calls made on it. */
  class DashboardCacheWorker {
    var cache: Cache
    var events: seq<Event>

    constructor ()
      ensures cache == map[] && events == []
    {
      cache := map[];
      events := [];
    }

    /** `saveToCache`: replace the entry under `key`. */
    method SaveToCache(key: CacheKey, data: DashboardData)
      modifies this
      ensures events == old(events) + [CacheSaved(key, data)]
      ensures cache == old(cache)[key := data]
    {
      events := events + [CacheSaved(key, data)];
      cache := cache[key := data];
    }

    /** `updateMemberMergeSuggestionsLastGeneratedAt`: record the update; the cache is untouched. */
    method UpdateMemberMergeSuggestionsLastGeneratedAt(segmentId: string)
      modifies this
      ensures events == old(events) + [LastGeneratedAtUpdated(segmentId)]
      ensures cache == old(cache)
    {
      events := events + [LastGeneratedAtUpdated(segmentId)];
    }

    /** Compute and write the view's data for every timeframe, in enumeration order. */
    method RefreshDashboardCacheForAllTimeranges(
      env: Activities, tenantId: string, segmentId: string, leafSegmentIds: seq<string>, view: View)
      modifies this
      ensures events == old(events) + ViewSaves(env, tenantId, segmentId, leafSegmentIds, view)
      ensures cache == ApplyEvents(old(cache), ViewSaves(env, tenantId, segmentId, leafSegmentIds, view))
    {
      ghost var saves := ViewSaves(env, tenantId, segmentId, leafSegmentIds, view);
      for i := 0 to |Timeframes|
        invariant events == old(events) + saves[..i]
        invariant cache == ApplyEvents(old(cache), saves[..i])
      {
        var timeframe := Timeframes[i];
        var data := DashboardCacheData(env.fetch, tenantId, leafSegmentIds, timeframe, env.today, ViewFilter(view));
        SaveToCache(CacheKey(tenantId, segmentId, timeframe, view), data.value);
        assert saves[..i + 1] == saves[..i] + [saves[i]];
        assert saves[..i + 1][..i] == saves[..i];
      }
      assert saves[..|Timeframes|] == saves;
    }

    /** Refresh `all`, then each platform in turn. */
    method RefreshViews(
      env: Activities, tenantId: string, segmentId: string, leafSegmentIds: seq<string>, platforms: seq<string>)
      modifies this
      ensures events == old(events) + RefreshSaves(env, tenantId, segmentId, leafSegmentIds, ViewsFor(platforms))
      ensures cache == ApplyEvents(old(cache), RefreshSaves(env, tenantId, segmentId, leafSegmentIds, ViewsFor(platforms)))
    {
      ghost var cache0, events0 := cache, events;
      RefreshDashboardCacheForAllTimeranges(env, tenantId, segmentId, leafSegmentIds, All);
      RefreshSavesAppend(env, tenantId, segmentId, leafSegmentIds, [], All);
      ExtendRun(cache0, events0, cache0, events0, cache, events,
                [], ViewSaves(env, tenantId, segmentId, leafSegmentIds, All));
      assert [] + [All] == ViewsFor(platforms[..0]);
      for i := 0 to |platforms|
        invariant events == events0 + RefreshSaves(env, tenantId, segmentId, leafSegmentIds, ViewsFor(platforms[..i]))
        invariant cache == ApplyEvents(cache0, RefreshSaves(env, tenantId, segmentId, leafSegmentIds, ViewsFor(platforms[..i])))
      {
        ghost var cache1, events1 := cache, events;
        RefreshDashboardCacheForAllTimeranges(env, tenantId, segmentId, leafSegmentIds, Platform(platforms[i]));
        ExtendPlatforms(env, tenantId, segmentId, leafSegmentIds, platforms, i,
                        cache0, events0, cache1, events1, cache, events);
      }
      assert platforms[..|platforms|] == platforms;
    }

    /** Refresh the planned views of a resolved segment, then update the marker. */
    method RefreshSegment(env: Activities, tenantId: string, segmentId: string, leafSegmentIds: seq<string>)
      modifies this
      ensures events == old(events) + RunEvents(env, tenantId, segmentId, leafSegmentIds)
      ensures cache == ApplyEvents(old(cache), RunEvents(env, tenantId, segmentId, leafSegmentIds))
    {
      var lastRefreshedAt := env.getDashboardCacheLastRefreshedAt(segmentId);
      var activePlatforms := env.getActivePlatforms(leafSegmentIds);
      ghost var saves := RefreshSaves(env, tenantId, segmentId, leafSegmentIds,
                                      PlannedViews(env, segmentId, leafSegmentIds));
      PlannedViewsCases(env, segmentId, leafSegmentIds);
      if lastRefreshedAt.None? {
        RefreshViews(env, tenantId, segmentId, leafSegmentIds, activePlatforms);
      } else {
        var platforms := env.findNewActivityPlatforms(lastRefreshedAt.value, leafSegmentIds);
        if platforms.Some? && |platforms.value| > 0 {
          RefreshViews(env, tenantId, segmentId, leafSegmentIds, platforms.value);
        } else {
          assert saves == [];
        }
      }
      UpdateMemberMergeSuggestionsLastGeneratedAt(segmentId);
      MarkerLeavesCache(old(cache), saves, segmentId);
    }

    /**
     * `refreshDashboardCache`: resolve the segment when none was given,
     * refresh the planned views, then update the marker on every path.
     */
    method RefreshDashboardCache(env: Activities, args: RefreshArgs)
      modifies this, args
      ensures Truthy(old(args.segmentId)) ==>
        args.segmentId == old(args.segmentId) && args.leafSegmentIds == old(args.leafSegmentIds)
      ensures !Truthy(old(args.segmentId)) ==>
        && args.segmentId == Some(env.getDefaultSegment(args.tenantId))
        && args.leafSegmentIds == [env.getDefaultSegment(args.tenantId)]
      ensures args.segmentId.Some?
      ensures events == old(events) + RunEvents(env, args.tenantId, args.segmentId.value, args.leafSegmentIds)
      ensures cache == ApplyEvents(old(cache), RunEvents(env, args.tenantId, args.segmentId.value, args.leafSegmentIds))
    {
      if !Truthy(args.segmentId) {
        var defaultSegment := env.getDefaultSegment(args.tenantId);
        args.segmentId := Some(defaultSegment);
        args.leafSegmentIds := [defaultSegment];
      }
      RefreshSegment(env, args.tenantId, args.segmentId.value, args.leafSegmentIds);
    }
  }
}
