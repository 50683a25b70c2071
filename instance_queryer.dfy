/**
 * The caching façade through which one reconciliation tick reads the event log.
 *
 * One instance lives for one tick over an unchanging store. It keeps five dictionaries:
 * the newest materialization record found per asset, a per-asset cursor floor above
 * which no materialization exists, the latest planned record per asset (present ones
 * only), the planned-asset set per run, and the in-progress flag per run. Every answer
 * equals the direct query on the store; `backendQueries` records the queries that
 * actually reached the store, so the contracts can say when a call is served from a cache.
 */
module InstanceQueryer {
  import opened Wrappers
  import opened AssetKeys
  import opened EventStore

  datatype BackendQuery =
    | MaterializationQuery(key: AssetKey, afterCursor: Option<int>)
    | PlannedMaterializationQuery(key: AssetKey)
    | RunPlannedAssetsQuery(runId: RunId)
    | RunStatusQuery(runId: RunId)

  /** The floor after a miss with cursor `c`: the smaller of `c` and the floor already stored. */
  function LoweredFloor(floors: map<AssetKey, int>, key: AssetKey, c: int): map<AssetKey, int> {
    floors[key := if key in floors && floors[key] < c then floors[key] else c]
  }

  /** The lowered floor is the minimum of `c` and the old floor, and no other asset's floor moves. */
  lemma LoweredFloorIsMin(floors: map<AssetKey, int>, key: AssetKey, c: int)
    ensures var r := LoweredFloor(floors, key, c);
      && r.Keys == floors.Keys + {key}
      && r[key] <= c && (key in floors ==> r[key] <= floors[key])
      && (r[key] == c || (key in floors && r[key] == floors[key]))
      && forall k :: k in floors && k != key ==> r[k] == floors[k]
  {
  }

  /** A cached record is the newest record of its asset, that is, the answer for no cursor. */
  ghost predicate LatestRecordCacheSound(st: Store, cache: map<AssetKey, MaterializationRecord>) {
    forall k :: k in cache ==> LatestMaterialization(st, k, None) == Some(cache[k])
  }

  /** No materialization of the asset lies after its cached floor. */
  ghost predicate FloorCacheSound(st: Store, floors: map<AssetKey, int>) {
    forall k :: k in floors ==> LatestMaterialization(st, k, Some(floors[k])).None?
  }

  ghost predicate PlannedCacheSound(st: Store, cache: map<AssetKey, PlannedRecord>) {
    forall k :: k in cache ==> LatestPlanned(st, k) == Some(cache[k])
  }

  ghost predicate RunPlannedCacheSound(st: Store, cache: map<RunId, set<AssetKey>>) {
    forall r :: r in cache ==> cache[r] == PlannedAssetsOf(st, r)
  }

  ghost predicate InProgressCacheSound(st: Store, cache: map<RunId, bool>) {
    forall r :: r in cache ==> cache[r] == RunInProgress(st, r)
  }

  /** Caching the record a query after some cursor found keeps the positive cache sound. */
  lemma RecordCacheInsert(st: Store, cache: map<AssetKey, MaterializationRecord>, key: AssetKey,
                          c: Option<int>, rec: MaterializationRecord)
    requires ValidStore(st)
    requires LatestRecordCacheSound(st, cache)
    requires LatestMaterialization(st, key, c) == Some(rec)
    ensures LatestRecordCacheSound(st, cache[key := rec])
  {
    FoundRecordAnswersEveryCursor(st, key, c, None);
  }

  /** Lowering an asset's floor to a cursor after which the store holds nothing keeps the floors sound. */
  lemma FloorCacheLower(st: Store, floors: map<AssetKey, int>, key: AssetKey, c: int)
    requires FloorCacheSound(st, floors)
    requires LatestMaterialization(st, key, Some(c)).None?
    ensures FloorCacheSound(st, LoweredFloor(floors, key, c))
  {
  }

  /** The five caches and the query log at one moment of the tick. */
  datatype CacheState = CacheState(
    records: map<AssetKey, MaterializationRecord>,
    floors: map<AssetKey, int>,
    planned: map<AssetKey, PlannedRecord>,
    runPlanned: map<RunId, set<AssetKey>>,
    inProgress: map<RunId, bool>,
    queries: seq<BackendQuery>)

  /**
   * `after` extends `before`: no cache entry is dropped or changed, except that an asset's
   * floor may only go down, and the query log only grows.
   */
  ghost predicate Extends(before: CacheState, after: CacheState) {
    && (forall k :: k in before.records ==> k in after.records && after.records[k] == before.records[k])
    && (forall k :: k in before.floors ==> k in after.floors && after.floors[k] <= before.floors[k])
    && (forall k :: k in before.planned ==> k in after.planned && after.planned[k] == before.planned[k])
    && (forall r :: r in before.runPlanned ==> r in after.runPlanned && after.runPlanned[r] == before.runPlanned[r])
    && (forall r :: r in before.inProgress ==> r in after.inProgress && after.inProgress[r] == before.inProgress[r])
    && before.queries <= after.queries
  }

  lemma ExtendsTransitive(s1: CacheState, s2: CacheState, s3: CacheState)
    requires Extends(s1, s2) && Extends(s2, s3)
    ensures Extends(s1, s3)
  {
  }

  /**
   * A query that settles what it asks about: a materialization query that found a record,
   * a planned-record query that found one, and every per-run query.
   */
  predicate Settles(st: Store, q: BackendQuery) {
    match q
    case MaterializationQuery(k, c) => LatestMaterialization(st, k, c).Some?
    case PlannedMaterializationQuery(k) => LatestPlanned(st, k).Some?
    case RunPlannedAssetsQuery(_) => true
    case RunStatusQuery(_) => true
  }

  /** The cache that serves `q`'s asset or run holds an entry for it. */
  predicate Cached(q: BackendQuery, s: CacheState) {
    match q
    case MaterializationQuery(k, _) => k in s.records
    case PlannedMaterializationQuery(k) => k in s.planned
    case RunPlannedAssetsQuery(r) => r in s.runPlanned
    case RunStatusQuery(r) => r in s.inProgress
  }

  /** `q2` asks the store about the same asset or run, for the same kind of fact, as `q1`. */
  predicate SameTarget(q1: BackendQuery, q2: BackendQuery) {
    match q1
    case MaterializationQuery(k, _) => q2.MaterializationQuery? && q2.key == k
    case _ => q2 == q1
  }

  /**
   * Once a query has settled an asset or run, it stays cached and the store is never asked
   * about it again: per tick, each run's planned assets and status are fetched at most once,
   * and neither an asset's planned record nor its materialization records are queried again
   * after one was found.
   */
  ghost predicate LogSettled(st: Store, s: CacheState) {
    && (forall i :: 0 <= i < |s.queries| && Settles(st, s.queries[i]) ==> Cached(s.queries[i], s))
    && (forall i, j :: 0 <= i < j < |s.queries| && Settles(st, s.queries[i]) ==> !SameTarget(s.queries[i], s.queries[j]))
  }

  /** Dropping no cached key keeps the log settled. */
  lemma LogSettledKeysGrow(st: Store, s: CacheState, s': CacheState)
    requires LogSettled(st, s)
    requires s'.queries == s.queries
    requires s.records.Keys <= s'.records.Keys && s.planned.Keys <= s'.planned.Keys
    requires s.runPlanned.Keys <= s'.runPlanned.Keys && s.inProgress.Keys <= s'.inProgress.Keys
    ensures LogSettled(st, s')
  {
    forall i | 0 <= i < |s'.queries| && Settles(st, s'.queries[i]) ensures Cached(s'.queries[i], s') {
      assert Cached(s.queries[i], s);
    }
  }

  /**
   * Asking the store about an asset or run whose cache holds no entry, and caching the
   * answer when it settles, keeps the log settled.
   */
  lemma LogSettledAppend(st: Store, s: CacheState, s': CacheState, q: BackendQuery)
    requires LogSettled(st, s)
    requires !Cached(q, s)
    requires s'.queries == s.queries + [q]
    requires s.records.Keys <= s'.records.Keys && s.planned.Keys <= s'.planned.Keys
    requires s.runPlanned.Keys <= s'.runPlanned.Keys && s.inProgress.Keys <= s'.inProgress.Keys
    requires Settles(st, q) ==> Cached(q, s')
    ensures LogSettled(st, s')
  {
    var n := |s.queries|;
    forall i | 0 <= i < |s'.queries| && Settles(st, s'.queries[i]) ensures Cached(s'.queries[i], s') {
      if i < n {
        assert s'.queries[i] == s.queries[i];
        assert Cached(s.queries[i], s);
      }
    }
    forall i, j | 0 <= i < j < |s'.queries| && Settles(st, s'.queries[i])
      ensures !SameTarget(s'.queries[i], s'.queries[j])
    {
      assert s'.queries[i] == s.queries[i];
      if j == n {
        assert Cached(s.queries[i], s);
        assert s'.queries[j] == q;
      } else {
        assert s'.queries[j] == s.queries[j];
      }
    }
  }

  /** Every cache entry agrees with the direct query on the store, and the query log is settled. */
  ghost predicate StateSound(st: Store, s: CacheState) {
    && LatestRecordCacheSound(st, s.records)
    && FloorCacheSound(st, s.floors)
    && PlannedCacheSound(st, s.planned)
    && RunPlannedCacheSound(st, s.runPlanned)
    && InProgressCacheSound(st, s.inProgress)
    && LogSettled(st, s)
  }

  /**
   * The state after a cache miss for `key` after cursor `c`: the store is asked once, a found
   * record is cached, and a miss with a cursor lowers the asset's floor.
   */
  ghost function AfterMiss(st: Store, s: CacheState, key: AssetKey, c: Option<int>): CacheState {
    var r := LatestMaterialization(st, key, c);
    s.(records := if r.Some? then s.records[key := r.value] else s.records,
       floors := if r.None? && c.Some? then LoweredFloor(s.floors, key, c.value) else s.floors,
       queries := s.queries + [MaterializationQuery(key, c)])
  }

  /** A cache miss keeps every cache sound, keeps the log settled, and only extends the state. */
  lemma MissKeepsSound(st: Store, s: CacheState, key: AssetKey, c: Option<int>)
    requires ValidStore(st) && StateSound(st, s)
    requires key !in s.records
    ensures StateSound(st, AfterMiss(st, s, key, c))
    ensures Extends(s, AfterMiss(st, s, key, c))
  {
    var r := LatestMaterialization(st, key, c);
    var s' := AfterMiss(st, s, key, c);
    if r.Some? {
      RecordCacheInsert(st, s.records, key, c, r.value);
    } else if c.Some? {
      FloorCacheLower(st, s.floors, key, c.value);
    }
    MissExtends(st, s, key, c);
    LogSettledAppend(st, s, s', MaterializationQuery(key, c));
  }

  /** A cache miss drops no entry: a found record goes to an uncached key, and a floor only goes down. */
  lemma MissExtends(st: Store, s: CacheState, key: AssetKey, c: Option<int>)
    requires key !in s.records
    ensures Extends(s, AfterMiss(st, s, key, c))
  {
  }

  class CachingInstanceQueryer {
    const store: Store
    var latestMaterializationRecordCache: map<AssetKey, MaterializationRecord>
    var noMaterializationsAfterCursorCache: map<AssetKey, int>
    var latestPlannedMaterializationCache: map<AssetKey, PlannedRecord>
    var runPlannedMaterializationsCache: map<RunId, set<AssetKey>>
    var isRunInProgressCache: map<RunId, bool>
    ghost var backendQueries: seq<BackendQuery>

    /** The store's ids increase and the state of the caches is sound. */
    ghost predicate Valid()
      reads this
    {
      ValidStore(store) && StateSound(store, Snapshot())
    }

    ghost function Snapshot(): CacheState
      reads this
    {
      CacheState(latestMaterializationRecordCache, noMaterializationsAfterCursorCache, latestPlannedMaterializationCache,
                 runPlannedMaterializationsCache, isRunInProgressCache, backendQueries)
    }

    constructor (store: Store)
      requires ValidStore(store)
      ensures Valid() && this.store == store
      ensures latestMaterializationRecordCache == map[] && noMaterializationsAfterCursorCache == map[]
      ensures latestPlannedMaterializationCache == map[] && runPlannedMaterializationsCache == map[]
      ensures isRunInProgressCache == map[] && backendQueries == []
    {
      this.store := store;
      latestMaterializationRecordCache := map[];
      noMaterializationsAfterCursorCache := map[];
      latestPlannedMaterializationCache := map[];
      runPlannedMaterializationsCache := map[];
      isRunInProgressCache := map[];
      backendQueries := [];
    }

    /**
     * The newest record of `assetKey` after `afterCursor`. A cached record answers any cursor
     * below its storage id; a floor answers None for any cursor at or above it; otherwise the
     * store is asked, a found record is cached and a miss lowers the floor.
     */
    method GetLatestMaterializationRecord(assetKey: AssetKey, afterCursor: Option<int>)
      returns (r: Option<MaterializationRecord>)
      requires Valid()
      modifies this
      ensures Valid()
      ensures Extends(old(Snapshot()), Snapshot())
      ensures r == LatestMaterialization(store, assetKey, afterCursor)
      ensures latestPlannedMaterializationCache == old(latestPlannedMaterializationCache)
      ensures runPlannedMaterializationsCache == old(runPlannedMaterializationsCache)
      ensures isRunInProgressCache == old(isRunInProgressCache)
      ensures assetKey in old(latestMaterializationRecordCache) ==>
        && r == (if IsAfter(old(latestMaterializationRecordCache)[assetKey], afterCursor)
                 then Some(old(latestMaterializationRecordCache)[assetKey]) else None)
        && latestMaterializationRecordCache == old(latestMaterializationRecordCache)
        && noMaterializationsAfterCursorCache == old(noMaterializationsAfterCursorCache)
        && backendQueries == old(backendQueries)
      ensures assetKey !in old(latestMaterializationRecordCache) && assetKey in old(noMaterializationsAfterCursorCache)
              && afterCursor.Some? && afterCursor.value >= old(noMaterializationsAfterCursorCache)[assetKey] ==>
        && r.None?
        && latestMaterializationRecordCache == old(latestMaterializationRecordCache)
        && noMaterializationsAfterCursorCache == old(noMaterializationsAfterCursorCache)
        && backendQueries == old(backendQueries)
      ensures assetKey !in old(latestMaterializationRecordCache)
              && !(assetKey in old(noMaterializationsAfterCursorCache) && afterCursor.Some?
                   && afterCursor.value >= old(noMaterializationsAfterCursorCache)[assetKey]) ==>
        && backendQueries == old(backendQueries) + [MaterializationQuery(assetKey, afterCursor)]
        && latestMaterializationRecordCache ==
             (if r.Some? then old(latestMaterializationRecordCache)[assetKey := r.value]
              else old(latestMaterializationRecordCache))
        && noMaterializationsAfterCursorCache ==
             (if r.None? && afterCursor.Some?
              then LoweredFloor(old(noMaterializationsAfterCursorCache), assetKey, afterCursor.value)
              else old(noMaterializationsAfterCursorCache))
    {
      if assetKey in latestMaterializationRecordCache {
        var cachedRecord := latestMaterializationRecordCache[assetKey];
        FoundRecordAnswersEveryCursor(store, assetKey, None, afterCursor);
        if afterCursor.None? || afterCursor.value < cachedRecord.storageId {
          return Some(cachedRecord);
        } else {
          return None;
        }
      } else if assetKey in noMaterializationsAfterCursorCache {
        if afterCursor.Some? && afterCursor.value >= noMaterializationsAfterCursorCache[assetKey] {
          NothingAfterFloor(store, assetKey, noMaterializationsAfterCursorCache[assetKey], afterCursor.value);
          return None;
        }
      }
      r := QueryMaterializationRecord(assetKey, afterCursor);
    }

    /** A cache miss: ask the store, then cache a found record or lower the floor on a miss. */
    method QueryMaterializationRecord(assetKey: AssetKey, afterCursor: Option<int>)
      returns (r: Option<MaterializationRecord>)
      requires Valid()
      requires assetKey !in latestMaterializationRecordCache
      modifies this
      ensures Valid()
      ensures Extends(old(Snapshot()), Snapshot())
      ensures r == LatestMaterialization(store, assetKey, afterCursor)
      ensures latestPlannedMaterializationCache == old(latestPlannedMaterializationCache)
      ensures runPlannedMaterializationsCache == old(runPlannedMaterializationsCache)
      ensures isRunInProgressCache == old(isRunInProgressCache)
      ensures backendQueries == old(backendQueries) + [MaterializationQuery(assetKey, afterCursor)]
      ensures latestMaterializationRecordCache ==
        (if r.Some? then old(latestMaterializationRecordCache)[assetKey := r.value]
         else old(latestMaterializationRecordCache))
      ensures noMaterializationsAfterCursorCache ==
        (if r.None? && afterCursor.Some?
         then LoweredFloor(old(noMaterializationsAfterCursorCache), assetKey, afterCursor.value)
         else old(noMaterializationsAfterCursorCache))
    {
      ghost var before := Snapshot();
      MissKeepsSound(store, before, assetKey, afterCursor);
      r := LatestMaterialization(store, assetKey, afterCursor);
      if r.Some? {
        latestMaterializationRecordCache := latestMaterializationRecordCache[assetKey := r.value];
      } else if afterCursor.Some? {
        noMaterializationsAfterCursorCache :=
          LoweredFloor(noMaterializationsAfterCursorCache, assetKey, afterCursor.value);
      }
      backendQueries := backendQueries + [MaterializationQuery(assetKey, afterCursor)];
      assert Snapshot() == AfterMiss(store, before, assetKey, afterCursor);
    }

    /** The latest planned record of `assetKey`; only a found record is cached, so a miss asks the store again next time. */
    method GetLatestPlannedMaterializationRecord(assetKey: AssetKey) returns (r: Option<PlannedRecord>)
      requires Valid()
      modifies this
      ensures Valid()
      ensures Extends(old(Snapshot()), Snapshot())
      ensures r == LatestPlanned(store, assetKey)
      ensures latestMaterializationRecordCache == old(latestMaterializationRecordCache)
      ensures noMaterializationsAfterCursorCache == old(noMaterializationsAfterCursorCache)
      ensures runPlannedMaterializationsCache == old(runPlannedMaterializationsCache)
      ensures isRunInProgressCache == old(isRunInProgressCache)
      ensures assetKey in old(latestPlannedMaterializationCache) ==>
        latestPlannedMaterializationCache == old(latestPlannedMaterializationCache) && backendQueries == old(backendQueries)
      ensures assetKey !in old(latestPlannedMaterializationCache) ==>
        && backendQueries == old(backendQueries) + [PlannedMaterializationQuery(assetKey)]
        && latestPlannedMaterializationCache ==
             (if r.Some? then old(latestPlannedMaterializationCache)[assetKey := r.value]
              else old(latestPlannedMaterializationCache))
    {
      if assetKey in latestPlannedMaterializationCache {
        return Some(latestPlannedMaterializationCache[assetKey]);
      }
      ghost var before := Snapshot();
      r := LatestPlanned(store, assetKey);
      backendQueries := backendQueries + [PlannedMaterializationQuery(assetKey)];
      if r.Some? {
        latestPlannedMaterializationCache := latestPlannedMaterializationCache[assetKey := r.value];
      }
      LogSettledAppend(store, before, Snapshot(), PlannedMaterializationQuery(assetKey));
    }

    /** Whether run `runId` planned to materialize `assetKey`; the run's planned set is fetched once and then reused. */
    method RunPlannedToMaterializeAsset(assetKey: AssetKey, runId: RunId) returns (b: bool)
      requires Valid()
      modifies this
      ensures Valid()
      ensures Extends(old(Snapshot()), Snapshot())
      ensures b == (assetKey in PlannedAssetsOf(store, runId))
      ensures latestMaterializationRecordCache == old(latestMaterializationRecordCache)
      ensures noMaterializationsAfterCursorCache == old(noMaterializationsAfterCursorCache)
      ensures latestPlannedMaterializationCache == old(latestPlannedMaterializationCache)
      ensures isRunInProgressCache == old(isRunInProgressCache)
      ensures runPlannedMaterializationsCache == old(runPlannedMaterializationsCache)[runId := PlannedAssetsOf(store, runId)]
      ensures backendQueries ==
        if runId in old(runPlannedMaterializationsCache) then old(backendQueries)
        else old(backendQueries) + [RunPlannedAssetsQuery(runId)]
    {
      if runId !in runPlannedMaterializationsCache {
        ghost var before := Snapshot();
        backendQueries := backendQueries + [RunPlannedAssetsQuery(runId)];
        runPlannedMaterializationsCache := runPlannedMaterializationsCache[runId := PlannedAssetsOf(store, runId)];
        LogSettledAppend(store, before, Snapshot(), RunPlannedAssetsQuery(runId));
      }
      b := assetKey in runPlannedMaterializationsCache[runId];
    }

    /** Whether run `runId` is in progress; the answer is fetched once per run and then reused. */
    method IsRunInProgress(runId: RunId) returns (b: bool)
      requires Valid()
      modifies this
      ensures Valid()
      ensures Extends(old(Snapshot()), Snapshot())
      ensures b == RunInProgress(store, runId)
      ensures latestMaterializationRecordCache == old(latestMaterializationRecordCache)
      ensures noMaterializationsAfterCursorCache == old(noMaterializationsAfterCursorCache)
      ensures latestPlannedMaterializationCache == old(latestPlannedMaterializationCache)
      ensures runPlannedMaterializationsCache == old(runPlannedMaterializationsCache)
      ensures isRunInProgressCache == old(isRunInProgressCache)[runId := b]
      ensures backendQueries ==
        if runId in old(isRunInProgressCache) then old(backendQueries)
        else old(backendQueries) + [RunStatusQuery(runId)]
    {
      if runId !in isRunInProgressCache {
        ghost var before := Snapshot();
        backendQueries := backendQueries + [RunStatusQuery(runId)];
        isRunInProgressCache := isRunInProgressCache[runId := RunInProgress(store, runId)];
        LogSettledAppend(store, before, Snapshot(), RunStatusQuery(runId));
      }
      b := isRunInProgressCache[runId];
    }
  }
}
