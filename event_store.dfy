/**
 * The event log as the reconciliation sensor reads it, frozen for one tick.
 *
 * Per asset: its materialization records in append order (storage ids strictly
 * increase, as the log assigns them by incrementing a counter) and its latest
 * planned-materialization record. Per run: the assets it planned to materialize and
 * whether it is in progress. The four direct queries below are what the caching
 * queryer must agree with.
 */
module EventStore {
  import opened Wrappers
  import opened AssetKeys

  type RunId = string

  datatype MaterializationRecord = MaterializationRecord(storageId: int, runId: RunId)

  datatype PlannedRecord = PlannedRecord(storageId: int, runId: RunId)

  datatype Store = Store(
    materializations: map<AssetKey, seq<MaterializationRecord>>,
    latestPlanned: map<AssetKey, PlannedRecord>,
    plannedAssets: map<RunId, set<AssetKey>>,
    inProgressRuns: set<RunId>)

  predicate StrictlyIncreasing(recs: seq<MaterializationRecord>) {
    forall i, j :: 0 <= i < j < |recs| ==> recs[i].storageId < recs[j].storageId
  }

  /** Storage ids increase strictly within every asset's record sequence. */
  predicate ValidStore(st: Store) {
    forall k :: k in st.materializations ==> StrictlyIncreasing(st.materializations[k])
  }

  function Records(st: Store, key: AssetKey): seq<MaterializationRecord> {
    if key in st.materializations then st.materializations[key] else []
  }

  /** The filter `storage_id > after_cursor`, where no cursor means no filter. */
  predicate IsAfter(r: MaterializationRecord, afterCursor: Option<int>) {
    afterCursor.None? || afterCursor.value < r.storageId
  }

  /**
   * The record with the highest storage id among those after the cursor, or None:
   * the descending, limit-one query the log answers.
   */
  function LatestAfter(recs: seq<MaterializationRecord>, afterCursor: Option<int>): (r: Option<MaterializationRecord>)
    ensures r.Some? ==> r.value in recs && IsAfter(r.value, afterCursor)
    ensures r.Some? ==> forall x :: x in recs && IsAfter(x, afterCursor) ==> x.storageId <= r.value.storageId
    ensures r.None? ==> forall x :: x in recs ==> !IsAfter(x, afterCursor)
  {
    if recs == [] then None
    else
      var best := LatestAfter(recs[1..], afterCursor);
      if !IsAfter(recs[0], afterCursor) then best
      else if best.None? || best.value.storageId < recs[0].storageId then Some(recs[0])
      else best
  }

  /**
   * Direct form of `get_latest_materialization_record`: the asset's newest record after the
   * cursor, or None when every record of the asset is at or before it.
   */
  function LatestMaterialization(st: Store, key: AssetKey, afterCursor: Option<int>): (r: Option<MaterializationRecord>)
    ensures r.Some? ==> r.value in Records(st, key) && IsAfter(r.value, afterCursor)
    ensures r.Some? ==> forall x :: x in Records(st, key) && IsAfter(x, afterCursor) ==> x.storageId <= r.value.storageId
    ensures r.None? <==> forall x :: x in Records(st, key) ==> !IsAfter(x, afterCursor)
  {
    LatestAfter(Records(st, key), afterCursor)
  }

  /** Direct form of `get_latest_planned_materialization_record`: None for an asset no run has planned. */
  function LatestPlanned(st: Store, key: AssetKey): (r: Option<PlannedRecord>)
    ensures r.None? <==> key !in st.latestPlanned
    ensures r.Some? ==> r.value == st.latestPlanned[key]
  {
    if key in st.latestPlanned then Some(st.latestPlanned[key]) else None
  }

  /** Direct form of the per-run planned-asset query; an unknown run planned nothing. */
  function PlannedAssetsOf(st: Store, runId: RunId): (r: set<AssetKey>)
    ensures runId !in st.plannedAssets ==> r == {}
    ensures runId in st.plannedAssets ==> r == st.plannedAssets[runId]
  {
    if runId in st.plannedAssets then st.plannedAssets[runId] else {}
  }

  /** Direct form of the in-progress run query: a run the store does not list as in progress is not. */
  predicate RunInProgress(st: Store, runId: RunId): (b: bool)
    ensures b <==> runId in st.inProgressRuns
  {
    runId in st.inProgressRuns
  }

  /**
   * With distinct storage ids, the query answer is pinned down by its contract: a record
   * after the cursor that is at least as new as every other record after the cursor.
   */
  lemma LatestAfterDetermined(recs: seq<MaterializationRecord>, afterCursor: Option<int>, x: MaterializationRecord)
    requires StrictlyIncreasing(recs)
    requires x in recs && IsAfter(x, afterCursor)
    requires forall y :: y in recs && IsAfter(y, afterCursor) ==> y.storageId <= x.storageId
    ensures LatestAfter(recs, afterCursor) == Some(x)
  {
    var r := LatestAfter(recs, afterCursor);
    assert r.Some?;
    var i :| 0 <= i < |recs| && recs[i] == x;
    var j :| 0 <= j < |recs| && recs[j] == r.value;
    assert recs[i].storageId == recs[j].storageId;
    assert i == j;
  }

  /**
   * Once a query after some cursor has found record `x`, `x` is the newest record of the
   * asset, so the answer for any other cursor is `x` when that cursor is below `x`'s
   * storage id (or absent) and nothing otherwise. This is what makes the positive cache sound.
   */
  lemma {:induction false} FoundRecordAnswersEveryCursor(st: Store, key: AssetKey, c0: Option<int>, after: Option<int>)
    requires ValidStore(st)
    requires LatestMaterialization(st, key, c0).Some?
    ensures var x := LatestMaterialization(st, key, c0).value;
      LatestMaterialization(st, key, after) == if IsAfter(x, after) then Some(x) else None
  {
    var recs := Records(st, key);
    var x := LatestMaterialization(st, key, c0).value;
    assert StrictlyIncreasing(recs);
    assert forall y :: y in recs ==> y.storageId <= x.storageId by {
      forall y | y in recs ensures y.storageId <= x.storageId {
        if x.storageId < y.storageId {
          assert IsAfter(y, c0);
        }
      }
    }
    if IsAfter(x, after) {
      LatestAfterDetermined(recs, after, x);
    }
  }

  /**
   * A query after cursor `c` that finds nothing answers nothing for every cursor at or above `c`,
   * and for the smaller of two such cursors. This is what makes the negative cache and its `min` update sound.
   */
  lemma NothingAfterFloor(st: Store, key: AssetKey, floor: int, after: int)
    requires LatestMaterialization(st, key, Some(floor)).None?
    requires after >= floor
    ensures LatestMaterialization(st, key, Some(after)).None?
  {
    var r := LatestMaterialization(st, key, Some(after));
    if r.Some? {
      assert IsAfter(r.value, Some(floor));
    }
  }
}
