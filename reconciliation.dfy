/**
 * One tick of the asset reconciliation sensor, written as the loops it runs.
 *
 * `GetParentUpdates` visits the parents of one asset through the caching queryer;
 * `Reconcile` walks the monitored assets in a parents-first order, deciding each one and
 * collecting its new cursor value; `SensorTick` merges those values into the stored cursor.
 * Each is proved against the value-level definitions of ReconcileSpec.
 */
module AssetReconciliation {
  import opened Wrappers
  import opened IntSets
  import opened AssetKeys
  import opened EventStore
  import opened InstanceQueryer
  import opened AssetGraph
  import opened ReconcileSpec

  /** A request for one run; `assetSelection` is the set of assets the run materializes. */
  datatype RunRequest = RunRequest(runKey: Option<string>, assetSelection: set<AssetKey>,
                                   tags: Option<map<string, string>>)

  /** What `reconcile` returns: the run requests and the newly consumed storage id per asset key string. */
  datatype ReconcileOutput = ReconcileOutput(runRequests: seq<RunRequest>, newlyConsumed: map<string, int>)

  /** What the sensor hands back for one tick: the run requests and the cursor it stores. */
  datatype TickOutput = TickOutput(runRequests: seq<RunRequest>, cursor: map<string, int>)

  /** The assets the requests ask for: none, or those of the single request. */
  function Requested(reqs: seq<RunRequest>): set<AssetKey> {
    if reqs == [] then {} else reqs[0].assetSelection
  }

  /** The requests `reconcile` builds from the chosen set: one request when the set is non-empty. */
  predicate WellFormedRequests(reqs: seq<RunRequest>, should: set<AssetKey>, runTags: Option<map<string, string>>) {
    && (should == {} ==> reqs == [])
    && (should != {} ==> reqs == [RunRequest(None, should, runTags)])
  }

  /** Without a short-circuit, the statuses collected one parent at a time are the map of ParentUpdates. */
  lemma ParentUpdatesPointwise(st: Store, current: AssetKey, parents: set<AssetKey>, cursor: Option<int>,
                               willMaterialize: set<AssetKey>, waitForInProgressRuns: bool,
                               updates: map<AssetKey, ParentStatus>)
    requires !InProgressShortCircuit(st, parents, willMaterialize, waitForInProgressRuns)
    requires updates.Keys == parents
    requires forall p :: p in updates ==> updates[p] == ParentStatusOf(st, current, p, cursor, willMaterialize)
    ensures updates == ParentUpdates(st, current, parents, cursor, willMaterialize, waitForInProgressRuns)
  {
  }

  /** One parent materialized by a run in progress sets every parent's status to not updated. */
  lemma ShortCircuitUpdates(st: Store, current: AssetKey, parents: set<AssetKey>, cursor: Option<int>,
                            willMaterialize: set<AssetKey>, waitForInProgressRuns: bool, p: AssetKey)
    requires waitForInProgressRuns && p in parents && p !in willMaterialize && MaterializationInFlight(st, p)
    ensures ParentUpdates(st, current, parents, cursor, willMaterialize, waitForInProgressRuns)
         == map q | q in parents :: ParentStatus(false, None)
  {
  }

  /**
   * The status of every parent of `currentAsset`, read through `queryer`. A parent this tick
   * will materialize counts as updated; when waiting for runs in progress, a parent whose
   * latest planned materialization belongs to a run in progress marks every parent not
   * updated and ends the visit; otherwise the parent's newest record after `cursor` decides.
   */
  method GetParentUpdates(currentAsset: AssetKey, parentAssets: set<AssetKey>, cursor: Option<int>,
                          willMaterializeSet: set<AssetKey>, waitForInProgressRuns: bool,
                          queryer: CachingInstanceQueryer)
    returns (updates: map<AssetKey, ParentStatus>)
    requires queryer.Valid()
    modifies queryer
    ensures queryer.Valid()
    ensures Extends(old(queryer.Snapshot()), queryer.Snapshot())
    ensures updates == ParentUpdates(queryer.store, currentAsset, parentAssets, cursor, willMaterializeSet,
                                     waitForInProgressRuns)
  {
    ghost var start := queryer.Snapshot();
    updates := map[];
    var remaining := parentAssets;
    while remaining != {}
      invariant queryer.Valid()
      invariant Extends(start, queryer.Snapshot())
      invariant remaining <= parentAssets
      invariant updates.Keys == parentAssets - remaining
      invariant forall p :: p in updates ==>
        updates[p] == ParentStatusOf(queryer.store, currentAsset, p, cursor, willMaterializeSet)
      invariant waitForInProgressRuns ==>
        forall p :: p in parentAssets - remaining && p !in willMaterializeSet ==>
          !MaterializationInFlight(queryer.store, p)
      decreases remaining
    {
      var p :| p in remaining;
      ghost var before := queryer.Snapshot();
      var inFlight, status := VisitParent(currentAsset, p, cursor, willMaterializeSet, waitForInProgressRuns, queryer);
      ExtendsTransitive(start, before, queryer.Snapshot());
      if inFlight {
        ShortCircuitUpdates(queryer.store, currentAsset, parentAssets, cursor, willMaterializeSet,
                            waitForInProgressRuns, p);
        updates := map pp | pp in parentAssets :: ParentStatus(false, None);
        return;
      }
      updates := updates[p := status];
      remaining := remaining - {p};
    }
    ParentUpdatesPointwise(queryer.store, currentAsset, parentAssets, cursor, willMaterializeSet,
                           waitForInProgressRuns, updates);
  }

  /**
   * The body of the parent loop for one parent `p`: either `p` is being materialized by a
   * run in progress (which ends the visit, when waiting for such runs), or its status.
   */
  method VisitParent(currentAsset: AssetKey, p: AssetKey, cursor: Option<int>, willMaterializeSet: set<AssetKey>,
                     waitForInProgressRuns: bool, queryer: CachingInstanceQueryer)
    returns (inFlight: bool, status: ParentStatus)
    requires queryer.Valid()
    modifies queryer
    ensures queryer.Valid()
    ensures Extends(old(queryer.Snapshot()), queryer.Snapshot())
    ensures p in willMaterializeSet ==> queryer.Snapshot() == old(queryer.Snapshot())
    ensures inFlight == (waitForInProgressRuns && p !in willMaterializeSet && MaterializationInFlight(queryer.store, p))
    ensures !inFlight ==> status == ParentStatusOf(queryer.store, currentAsset, p, cursor, willMaterializeSet)
  {
    if p in willMaterializeSet {
      return false, ParentStatus(true, None);
    }
    ghost var start := queryer.Snapshot();
    if waitForInProgressRuns {
      inFlight := MaterializedByRunInProgress(p, queryer);
      if inFlight {
        return true, ParentStatus(false, None);
      }
    }
    ghost var mid := queryer.Snapshot();
    status := RecordStatus(currentAsset, p, cursor, queryer);
    ExtendsTransitive(start, mid, queryer.Snapshot());
    inFlight := false;
  }

  /** Whether the latest planned materialization of `p` belongs to a run still in progress. */
  method MaterializedByRunInProgress(p: AssetKey, queryer: CachingInstanceQueryer) returns (inFlight: bool)
    requires queryer.Valid()
    modifies queryer
    ensures queryer.Valid()
    ensures Extends(old(queryer.Snapshot()), queryer.Snapshot())
    ensures inFlight == MaterializationInFlight(queryer.store, p)
  {
    ghost var start := queryer.Snapshot();
    var planned := queryer.GetLatestPlannedMaterializationRecord(p);
    inFlight := false;
    if planned.Some? {
      ghost var mid := queryer.Snapshot();
      inFlight := queryer.IsRunInProgress(planned.value.runId);
      ExtendsTransitive(start, mid, queryer.Snapshot());
    }
  }

  /**
   * The status of a parent `p` that this tick does not materialize: its newest record after
   * `cursor`, counted as updated unless that record's run also planned `currentAsset`.
   */
  method RecordStatus(currentAsset: AssetKey, p: AssetKey, cursor: Option<int>, queryer: CachingInstanceQueryer)
    returns (status: ParentStatus)
    requires queryer.Valid()
    modifies queryer
    ensures queryer.Valid()
    ensures Extends(old(queryer.Snapshot()), queryer.Snapshot())
    ensures status == ParentStatusOf(queryer.store, currentAsset, p, cursor, {})
  {
    ghost var start := queryer.Snapshot();
    var rec := queryer.GetLatestMaterializationRecord(p, cursor);
    if rec.Some? {
      ghost var mid := queryer.Snapshot();
      var plannedBySameRun := queryer.RunPlannedToMaterializeAsset(currentAsset, rec.value.runId);
      ExtendsTransitive(start, mid, queryer.Snapshot());
      status := ParentStatus(!plannedBySameRun, Some(rec.value.storageId));
    } else {
      status := ParentStatus(false, None);
    }
  }

  /**
   * One reconciliation pass. Every monitored asset is decided once, parents first, against
   * the assets already chosen; a chosen asset's cursor advances to the largest truthy
   * candidate. A cycle among the monitored assets is an error. The chosen set is the unique
   * decision set of the tick (DecisionSetUnique), so it does not depend on the walk order.
   */
  method Reconcile(st: Store, g: DependencyGraph, selectionResolved: set<AssetKey>, waitForInProgressRuns: bool,
                   waitForAllUpstream: bool, latestConsumed: map<string, int>, runTags: Option<map<string, string>>)
    returns (r: Result<ReconcileOutput, CycleError>)
    requires ValidStore(st)
    ensures r.Err? <==> !Acyclic(UpstreamMapping(selectionResolved, g))
    ensures r.Ok? ==>
      var upstream := UpstreamMapping(selectionResolved, g);
      var should := Requested(r.value.runRequests);
      && WellFormedRequests(r.value.runRequests, should, runTags)
      && IsDecisionSet(st, upstream, latestConsumed, waitForAllUpstream, waitForInProgressRuns, should)
      && IsCursorAdvance(st, upstream, latestConsumed, waitForInProgressRuns, should, r.value.newlyConsumed)
  {
    var upstream := GetUpstreamMapping(selectionResolved, g);
    var sorted := TopologicalOrder(upstream);
    if sorted.Err? {
      return Err(sorted.error);
    }
    var order := sorted.value;
    var shouldMaterialize, newlyConsumed := DecideInOrder(st, upstream, order, latestConsumed, waitForAllUpstream,
                                                          waitForInProgressRuns);
    WalkDecides(st, upstream, latestConsumed, waitForAllUpstream, waitForInProgressRuns, order);
    var runRequests := if |shouldMaterialize| > 0 then [RunRequest(None, shouldMaterialize, runTags)] else [];
    return Ok(ReconcileOutput(runRequests, newlyConsumed));
  }

  /** The reconciliation loop: decide the assets of `order` one by one through one fresh queryer. */
  method DecideInOrder(st: Store, upstream: UpstreamMap, order: seq<AssetKey>, latestConsumed: map<string, int>,
                       waitForAllUpstream: bool, waitForInProgressRuns: bool)
    returns (shouldMaterialize: set<AssetKey>, newlyConsumed: map<string, int>)
    requires ValidStore(st)
    requires forall j :: 0 <= j < |order| ==> order[j] in upstream
    ensures Decision(shouldMaterialize, newlyConsumed)
         == Walk(st, upstream, latestConsumed, waitForAllUpstream, waitForInProgressRuns, order)
  {
    var queryer := new CachingInstanceQueryer(st);
    shouldMaterialize, newlyConsumed := {}, map[];
    for i := 0 to |order|
      invariant queryer.Valid() && queryer.store == st
      invariant Walk(st, upstream, latestConsumed, waitForAllUpstream, waitForInProgressRuns, order[..i])
             == Decision(shouldMaterialize, newlyConsumed)
    {
      WalkAppend(st, upstream, latestConsumed, waitForAllUpstream, waitForInProgressRuns, order, i);
      shouldMaterialize, newlyConsumed := ReconcileAsset(upstream, order[i], latestConsumed, waitForAllUpstream,
                                                         waitForInProgressRuns, shouldMaterialize, newlyConsumed,
                                                         queryer);
    }
    assert order[..|order|] == order;
  }

  /**
   * The body of the reconciliation loop for one asset `current`: read its parents' statuses
   * against its stored cursor and the assets chosen so far; if the rule holds, choose it and
   * record its largest candidate, when it has one.
   */
  method ReconcileAsset(upstream: UpstreamMap, current: AssetKey, latestConsumed: map<string, int>,
                        waitForAllUpstream: bool, waitForInProgressRuns: bool,
                        shouldMaterialize: set<AssetKey>, newlyConsumed: map<string, int>,
                        queryer: CachingInstanceQueryer)
    returns (should': set<AssetKey>, newly': map<string, int>)
    requires queryer.Valid()
    requires current in upstream
    modifies queryer
    ensures queryer.Valid()
    ensures Extends(old(queryer.Snapshot()), queryer.Snapshot())
    ensures Decision(should', newly')
         == Decide(queryer.store, upstream, latestConsumed, waitForAllUpstream, waitForInProgressRuns,
                   Decision(shouldMaterialize, newlyConsumed), current)
  {
    var currentCursor := CursorOf(latestConsumed, current);
    var parentUpdates := GetParentUpdates(current, upstream[current], currentCursor, shouldMaterialize,
                                          waitForInProgressRuns, queryer);
    should', newly' := shouldMaterialize, newlyConsumed;
    if ShouldMaterialize(parentUpdates, waitForAllUpstream) {
      should' := shouldMaterialize + {current};
      var candidates := CursorCandidates(parentUpdates, currentCursor);
      if candidates != {} {
        newly' := newlyConsumed[KeyString(current) := MaxOf(candidates)];
      }
    }
  }

  /** The walk over one more asset is one more decision step. */
  lemma WalkAppend(st: Store, upstream: UpstreamMap, consumed: map<string, int>, waitForAllUpstream: bool,
                   waitForInProgressRuns: bool, order: seq<AssetKey>, i: nat)
    requires forall j :: 0 <= j < |order| ==> order[j] in upstream
    requires i < |order|
    ensures Walk(st, upstream, consumed, waitForAllUpstream, waitForInProgressRuns, order[..i + 1])
         == Decide(st, upstream, consumed, waitForAllUpstream, waitForInProgressRuns,
                   Walk(st, upstream, consumed, waitForAllUpstream, waitForInProgressRuns, order[..i]), order[i])
  {
    assert order[..i + 1][..i] == order[..i];
  }

  /** Merging the newly consumed ids into the stored cursor raises no stored value and drops no key. */
  lemma MergedCursorMonotone(st: Store, upstream: UpstreamMap, previous: map<string, int>,
                             waitForInProgressRuns: bool, should: set<AssetKey>, newly: map<string, int>)
    requires IsCursorAdvance(st, upstream, previous, waitForInProgressRuns, should, newly)
    ensures forall k :: k in previous ==> k in previous + newly && (previous + newly)[k] >= previous[k]
  {
    CursorAdvanceNotBelow(st, upstream, previous, waitForInProgressRuns, should, newly);
  }

  /**
   * One sensor evaluation: an absent stored cursor reads as empty, `reconcile` runs, and the
   * newly consumed ids overwrite the stored ones key by key.
   */
  method SensorTick(st: Store, g: DependencyGraph, selectionResolved: set<AssetKey>, waitForAllUpstream: bool,
                    waitForInProgressRuns: bool, storedCursor: Option<map<string, int>>,
                    runTags: Option<map<string, string>>)
    returns (r: Result<TickOutput, CycleError>)
    requires ValidStore(st)
    ensures r.Err? <==> !Acyclic(UpstreamMapping(selectionResolved, g))
    ensures r.Ok? ==>
      var upstream := UpstreamMapping(selectionResolved, g);
      var previous := if storedCursor.Some? then storedCursor.value else map[];
      var should := Requested(r.value.runRequests);
      && WellFormedRequests(r.value.runRequests, should, runTags)
      && IsDecisionSet(st, upstream, previous, waitForAllUpstream, waitForInProgressRuns, should)
      && (exists newly :: IsCursorAdvance(st, upstream, previous, waitForInProgressRuns, should, newly)
                          && r.value.cursor == previous + newly)
      && (forall k :: k in previous ==> k in r.value.cursor && r.value.cursor[k] >= previous[k])
  {
    var previous := if storedCursor.Some? then storedCursor.value else map[];
    var out := Reconcile(st, g, selectionResolved, waitForInProgressRuns, waitForAllUpstream, previous, runTags);
    if out.Err? {
      return Err(out.error);
    }
    var upstream := UpstreamMapping(selectionResolved, g);
    MergedCursorMonotone(st, upstream, previous, waitForInProgressRuns, Requested(out.value.runRequests),
                         out.value.newlyConsumed);
    return Ok(TickOutput(out.value.runRequests, previous + out.value.newlyConsumed));
  }
}
