# Asset reconciliation sensor and freshness policies, modelled in Dafny

This project models two parts of Dagster. The first is the **asset reconciliation sensor**. The second is the **`minutes_late` computation of the two freshness policies**.

## The reconciliation sensor

On each tick the sensor does the following:

- It resolves the monitored assets and maps each one to its one-hop parents.
- It walks the monitored assets parents first.
- For each asset, it classifies every parent as updated or not. Along the way it collects the parent's storage id as a cursor candidate.
- It selects the asset under the `all` rule (wait for all upstream) or the `any` rule. A parent the tick has already selected counts as updated.
- It advances the asset's consumed-storage-id cursor to the largest truthy candidate.
- It emits at most one run request for the selected set.
- It merges the newly consumed ids into the stored cursor, key by key.

All event-log reads go through a per-tick `CachingInstanceQueryer`. It has five dictionaries:

- a positive record cache;
- a negative "nothing after this cursor" floor, lowered with `min`;
- a positive-only planned-record cache;
- a per-run planned-asset cache;
- a per-run in-progress cache.

## Modules

| file | module | contents |
|---|---|---|
| `wrappers.dfy` | `Wrappers` | `Option`, `Result` |
| `int_sets.dfy` | `IntSets` | `MaxOf` over a finite set of integers (Python's `max`) |
| `asset_key.dfy` | `AssetKeys` | `AssetKey` and the reversible string form used as the cursor's key |
| `event_store.dfy` | `EventStore` | the event log, frozen for one tick, and its four direct queries |
| `instance_queryer.dfy` | `InstanceQueryer` | the class `CachingInstanceQueryer`: five cache fields, a ghost log of the queries that reached the store, and `Valid()`: every cache entry agrees with the direct query, and an asset whose newest record or latest planned record has been found, or a run whose planned assets or status have been fetched, is never asked about again |
| `asset_graph.dfy` | `AssetGraph` | the upstream mapping, and a parents-first order that exists exactly when the monitored assets have no cycle |
| `reconcile_spec.dfy` | `ReconcileSpec` | the value-level definition of a tick, described below |
| `reconciliation.dfy` | `AssetReconciliation` | the loops of `_get_parent_updates` and `reconcile`, each proved against `ReconcileSpec`, and the sensor's tick, whose cursor merge is a map union |
| `reconcile_example.dfy` | `ReconcileExample` | the worked example of the sensor's documentation: its first two ticks, the tick after only a and b materialize again, the same tick with a materialization of a in progress, and the tick after that run completes |
| `repeat_example.dfy` | `RepeatTickExample` | two ticks on the same event log, the second of which requests a run again |
| `freshness_policy.dfy` | `FreshnessPolicies` | the two `minutes_late` loops, proved against max-fold definitions over the set of upstream times |

`ReconcileSpec` gives the value-level definition of a tick:

- per-parent status;
- the in-progress short-circuit;
- the decision rule;
- the walk;
- the *decision set*, which is a set closed under the decision rule;
- the *cursor advance*.

The central results are:

- `WalkDecides`: walking any parents-first order yields a decision set and its cursor advance.
- `DecisionSetUnique`: on an acyclic map there is only one decision set.

Together these show that a tick's outcome does not depend on the order in which the walk, or Python's set and dict iteration, visits the assets. Every loop over a Python set or dict picks its next element with `:|`, so each loop contract is proved for every visiting order.

### Behaviour of the code worth noting

- A monitored asset's parents are its one-hop upstream keys among *all* defined and source assets, minus the asset itself. They are not restricted to the monitored selection (`UpstreamMapping`).
- `get_latest_planned_materialization_record` caches only found records. A miss queries the store again on the next call (`GetLatestPlannedMaterializationRecord`).
- Cursor candidates are filtered by Python truthiness, so a storage id of 0 and a previous cursor of 0 are dropped (`Truthy`, `CursorCandidates`).
- A tick that sees no new record can still request a run. A parent selected earlier in the same tick counts as updated but offers no cursor candidate (lines 96-99). That parent contributes nothing to the child's new cursor value, which is the largest of the child's own truthy stored cursor and its other parents' candidates. When the child has no truthy stored cursor and its other parents offer no candidate, it gets no cursor entry at all; an asset that is not selected gets none either (`UnchosenKeepsCursor`). For such a selected child with no entry, any record of that parent still lies after the child's cursor on the next tick, so the parent counts as updated for the child again (unless the record's run also planned the child), and the child can be requested again although the log is unchanged. `RepeatTickExample.UnchangedLogRequestsAgain` shows this for source x, monitored p with parent x, and monitored q with parent p.
- The comment at lines 127-130 says the cursor is updated for a parent's record so that the record is not counted again on the next tick. The only cursor write is at lines 253-261, and it happens only when the child is selected. An unselected child's cursor keeps its old value, so a parent record that lay after it still does on the next tick.

## Model

| member | source | states |
|---|---|---|
| AssetKeys.KeyStringRoundTrip | python_modules/dagster/dagster/_core/definitions/asset_reconciliation_sensor.py:235-236 | the string form under which an asset's cursor entry is stored decodes back to the asset key |
| AssetKeys.KeyStringInjective | python_modules/dagster/dagster/_core/definitions/asset_reconciliation_sensor.py:259-261 | distinct assets never share a cursor entry |
| AssetKeys.DecodeKey | python_modules/dagster/dagster/_core/definitions/asset_reconciliation_sensor.py:235-236 | a string that decodes to a key is exactly that key's cursor string |
| IntSets.MaxOf | python_modules/dagster/dagster/_core/definitions/asset_reconciliation_sensor.py:259-261 | the result is an element of the non-empty candidate set and bounds every element |
| IntSets.MaxOfInsert | python_modules/dagster/dagster/_core/definitions/freshness_policy.py:81-83 | one step of a running `max`: the maximum moves to the new element exactly when it is larger |
| EventStore.LatestAfter | python_modules/dagster/dagster/_core/definitions/asset_reconciliation_sensor.py:313-321 | the descending, limit-one query after a cursor returns a record after the cursor that is at least as new as every other such record, or None exactly when no record lies after the cursor |
| EventStore.LatestAfterDetermined | python_modules/dagster/dagster/_core/definitions/asset_reconciliation_sensor.py:313-321 | with strictly increasing storage ids, that query answer is the only record meeting its contract |
| EventStore.FoundRecordAnswersEveryCursor | python_modules/dagster/dagster/_core/definitions/asset_reconciliation_sensor.py:300-305 | a record found after any cursor is the asset's newest record, so it answers any other cursor by the comparison `after_cursor < storage_id` |
| EventStore.NothingAfterFloor | python_modules/dagster/dagster/_core/definitions/asset_reconciliation_sensor.py:306-311 | no record after cursor `c` means no record after any cursor `>= c` |
| EventStore.LatestMaterialization | python_modules/dagster/dagster/_core/definitions/asset_reconciliation_sensor.py:313-321 | the descending, limit-one query after a cursor: a result is a record of the asset after the cursor and no other such record is newer; None exactly when no record lies after the cursor |
| EventStore.LatestPlanned | python_modules/dagster/dagster/_core/definitions/asset_reconciliation_sensor.py:343-350 | the newest planned-materialization record of the asset, None exactly when the asset has none |
| EventStore.PlannedAssetsOf | python_modules/dagster/dagster/_core/definitions/asset_reconciliation_sensor.py:364-370 | the assets a run planned to materialize; empty for a run with no planned records |
| EventStore.RunInProgress | python_modules/dagster/dagster/_core/definitions/asset_reconciliation_sensor.py:376-380 | true exactly when the run has an in-progress status |
| InstanceQueryer.CachingInstanceQueryer.constructor | python_modules/dagster/dagster/_core/definitions/asset_reconciliation_sensor.py:283-292 | all five caches start empty, nothing has been queried, and the cache invariant (with the settled log) holds |
| InstanceQueryer.CachingInstanceQueryer.GetLatestMaterializationRecord | python_modules/dagster/dagster/_core/definitions/asset_reconciliation_sensor.py:294-332 | the answer always equals the direct query. On a positive hit it returns the cached record iff the cursor is absent or below its storage id, with no store query and no cache change. On a negative hit with cursor `>= floor` it returns None with no store query. Otherwise it queries the store once, caches a found record or lowers the floor to `min(cursor, floor)` on a miss with a cursor, and leaves the other three caches unchanged |
| InstanceQueryer.CachingInstanceQueryer.QueryMaterializationRecord | python_modules/dagster/dagster/_core/definitions/asset_reconciliation_sensor.py:313-332 | the miss path: exactly one store query; the positive cache gains a found record, the floor is lowered on a miss with a cursor, no other entry changes, and the invariant is kept |
| InstanceQueryer.RecordCacheInsert | python_modules/dagster/dagster/_core/definitions/asset_reconciliation_sensor.py:323-325 | caching a record found after any cursor keeps the positive cache sound |
| InstanceQueryer.FloorCacheLower | python_modules/dagster/dagster/_core/definitions/asset_reconciliation_sensor.py:327-331 | the `min` update of the floor keeps the negative cache sound |
| InstanceQueryer.LoweredFloorIsMin | python_modules/dagster/dagster/_core/definitions/asset_reconciliation_sensor.py:327-331 | the floor update stores `min(cursor, old floor)` for the asset, adds the asset if new, and leaves every other asset's floor alone |
| InstanceQueryer.MissKeepsSound | python_modules/dagster/dagster/_core/definitions/asset_reconciliation_sensor.py:313-332 | after a cache miss (one store query, a found record cached, the floor lowered on a miss with a cursor) every cache is still sound, the log is still settled, and no entry was dropped |
| InstanceQueryer.LogSettledAppend | python_modules/dagster/dagster/_core/definitions/asset_reconciliation_sensor.py:300-382 | a store query about an asset or run with no cache entry, whose answer is cached when it settles, keeps the rule that a settled asset or run is never asked about again |
| InstanceQueryer.ExtendsTransitive | python_modules/dagster/dagster/_core/definitions/asset_reconciliation_sensor.py:294-382 | caches that only grow, floors that only go down and a log that only grows compose across calls |
| InstanceQueryer.CachingInstanceQueryer.GetLatestPlannedMaterializationRecord | python_modules/dagster/dagster/_core/definitions/asset_reconciliation_sensor.py:334-358 | the answer equals the latest planned record. A hit queries nothing. A miss queries the store once and caches only a found record. The other caches are unchanged |
| InstanceQueryer.CachingInstanceQueryer.RunPlannedToMaterializeAsset | python_modules/dagster/dagster/_core/definitions/asset_reconciliation_sensor.py:360-372 | the answer is membership of the asset in the run's planned set. The set is fetched from the store only when the run is not yet cached. Only that run's entry changes |
| InstanceQueryer.CachingInstanceQueryer.IsRunInProgress | python_modules/dagster/dagster/_core/definitions/asset_reconciliation_sensor.py:374-382 | the answer equals the run's in-progress status. It is fetched from the store only when not yet cached, and only that run's entry changes |
| AssetGraph.UpstreamMapping | python_modules/dagster/dagster/_core/definitions/asset_reconciliation_sensor.py:25-39 | every resolved monitored key has an entry; no key is its own parent; every other key is a parent exactly when the graph lists it as a direct dependency |
| AssetGraph.GetUpstreamMapping | python_modules/dagster/dagster/_core/definitions/asset_reconciliation_sensor.py:31-39 | the dictionary filled one resolved key at a time, in any order, equals `UpstreamMapping` |
| AssetGraph.UpstreamDepthOne | python_modules/dagster/dagster/_core/definitions/asset_reconciliation_sensor.py:34-36 | the depth-one upstream selection of a key contains the key itself, which is why it is removed |
| AssetGraph.TopologicalOrder | python_modules/dagster/dagster/_core/definitions/asset_reconciliation_sensor.py:223-228 | on success, the order holds each monitored key exactly once, and every monitored parent comes before its child. It fails exactly when no such order exists (a cycle) |
| AssetGraph.NoOrderWhenStuck | python_modules/dagster/dagster/_core/definitions/asset_reconciliation_sensor.py:224 | when every remaining asset still waits on a remaining parent, no parents-first order exists |
| AssetGraph.AppendReady | python_modules/dagster/dagster/_core/definitions/asset_reconciliation_sensor.py:224 | appending an asset with no waiting monitored parent keeps the order parents first |
| ReconcileSpec.InFlightParentBlocks | python_modules/dagster/dagster/_core/definitions/asset_reconciliation_sensor.py:104-120 | when some parent not already selected is being materialized by a run in progress, the asset is selected under neither rule, and only its own truthy cursor remains as a candidate |
| ReconcileSpec.ParentStatusOf | python_modules/dagster/dagster/_core/definitions/asset_reconciliation_sensor.py:95-140 | a parent this tick will materialize is `(True, None)`; any candidate lies after the asset's cursor; an updated parent is selected or has a candidate; a parent that is neither selected nor offers a candidate has no record after the cursor |
| ReconcileSpec.ParentUpdates | python_modules/dagster/dagster/_core/definitions/asset_reconciliation_sensor.py:42-142 | the map has an entry for every parent and no other key; on the in-progress short-circuit every entry is `(False, None)`; when not waiting for runs in progress, every selected parent counts as updated |
| ReconcileSpec.ShouldMaterialize | python_modules/dagster/dagster/_core/definitions/asset_reconciliation_sensor.py:248-251 | with no parents the asset is selected iff the `all` rule applies; with parents all updated it is selected under either rule; with none updated it is selected under neither |
| ReconcileSpec.Truthy | python_modules/dagster/dagster/_core/definitions/asset_reconciliation_sensor.py:255-257 | an absent storage id and 0 are false; any other id is true |
| ReconcileSpec.CursorCandidates | python_modules/dagster/dagster/_core/definitions/asset_reconciliation_sensor.py:255-257 | 0 is never a candidate; the asset's own truthy cursor and every parent's truthy candidate are candidates |
| ReconcileSpec.Walk | python_modules/dagster/dagster/_core/definitions/asset_reconciliation_sensor.py:234-252 | the walk selects only assets of its order, and writes only non-zero entries, each belonging to a selected asset |
| ReconcileSpec.IsDecisionSet | python_modules/dagster/dagster/_core/definitions/asset_reconciliation_sensor.py:234-252 | a decision set holds only monitored assets; with nothing monitored the only decision set is empty |
| ReconcileSpec.IsCursorAdvance | python_modules/dagster/dagster/_core/definitions/asset_reconciliation_sensor.py:253-261 | an advance writes no zero value |
| ReconcileSpec.UnchosenKeepsCursor | python_modules/dagster/dagster/_core/definitions/asset_reconciliation_sensor.py:249-261 | an asset the tick does not select gets no new entry, so its stored cursor value survives the merge |
| ReconcileSpec.ParentUpdatesLocal | python_modules/dagster/dagster/_core/definitions/asset_reconciliation_sensor.py:95-140 | parent statuses depend on the already-selected set only through which of the asset's parents it contains |
| ReconcileSpec.CandidatesNotBelowCursor | python_modules/dagster/dagster/_core/definitions/asset_reconciliation_sensor.py:255-257 | every cursor candidate is at least the asset's previous cursor |
| ReconcileSpec.NoParentsDecision | python_modules/dagster/dagster/_core/definitions/asset_reconciliation_sensor.py:248-251 | an asset without parents is selected iff the `all` rule applies |
| ReconcileSpec.Decide | python_modules/dagster/dagster/_core/definitions/asset_reconciliation_sensor.py:248-252 | one step of the walk adds at most the current asset to the selected set |
| ReconcileSpec.WalkGrows | python_modules/dagster/dagster/_core/definitions/asset_reconciliation_sensor.py:220-252 | `should_materialize` only grows along the walk |
| ReconcileSpec.WalkDecides | python_modules/dagster/dagster/_core/definitions/asset_reconciliation_sensor.py:234-261 | the walk over any parents-first order selects a decision set: each monitored asset is selected exactly when the rule holds against the selected set. It writes the cursor advance: an entry exactly for each selected asset with a candidate, holding the largest candidate |
| ReconcileSpec.CursorAdvanceFromEntries | python_modules/dagster/dagster/_core/definitions/asset_reconciliation_sensor.py:253-261 | the cursor advance holds when every monitored asset's entry is right and every entry belongs to a selected asset |
| ReconcileSpec.DecisionSetUnique | python_modules/dagster/dagster/_core/definitions/asset_reconciliation_sensor.py:223-252 | on an acyclic upstream map two decision sets are equal, so the selected set does not depend on the walk order |
| ReconcileSpec.AgreeAtIndex | python_modules/dagster/dagster/_core/definitions/asset_reconciliation_sensor.py:234-252 | two decision sets that agree on an asset's earlier parents agree on that asset |
| ReconcileSpec.AgreeUpTo | python_modules/dagster/dagster/_core/definitions/asset_reconciliation_sensor.py:234-252 | two decision sets agree on every prefix of a parents-first order |
| ReconcileSpec.CursorAdvanceNotBelow | python_modules/dagster/dagster/_core/definitions/asset_reconciliation_sensor.py:253-261 | a newly consumed id is never below the asset's previous cursor value |
| ReconcileSpec.QuietTickSelectsNothing | python_modules/dagster/dagster/_core/definitions/asset_reconciliation_sensor.py:234-271 | when no parent has a record after its child's cursor, the tick selects nothing and writes no cursor entry. This needs the `all` rule not to be applied to a parentless asset |
| AssetReconciliation.VisitParent | python_modules/dagster/dagster/_core/definitions/asset_reconciliation_sensor.py:95-140 | for one parent: it reports the short-circuit exactly when waiting for runs in progress and the parent is not already selected and its latest planned record's run is in progress; otherwise it returns the parent's status (`(True, None)` if selected, `(False, None)` with no record after the cursor, else `(not planned by that run, storage id)`). The queryer's caches only grow, its floors only go down, its log only grows, and an asset or run already settled is never asked about again; a parent already selected causes no query at all |
| AssetReconciliation.GetParentUpdates | python_modules/dagster/dagster/_core/definitions/asset_reconciliation_sensor.py:42-142 | the map built by visiting the parents in any order, with the early return, equals `ParentUpdates`: every parent `(False, None)` on the short-circuit, else each parent's own status. The queryer's invariant is kept, its caches only grow, its floors only go down, its log only grows, and an asset or run already settled is never asked about again |
| AssetReconciliation.ReconcileAsset | python_modules/dagster/dagster/_core/definitions/asset_reconciliation_sensor.py:235-261 | one iteration of the reconciliation loop is one `Decide` step on the selected set and the new cursor, read against the asset's stored cursor entry; the queryer's caches and log only grow |
| AssetReconciliation.ShortCircuitUpdates | python_modules/dagster/dagster/_core/definitions/asset_reconciliation_sensor.py:104-120 | one unselected parent with its latest planned run in progress sets every parent's status to `(False, None)` |
| AssetReconciliation.MaterializedByRunInProgress | python_modules/dagster/dagster/_core/definitions/asset_reconciliation_sensor.py:104-120 | the planned-record and run-status lookups report exactly whether the parent's latest planned run is in progress; the queryer's caches and log only grow |
| AssetReconciliation.RecordStatus | python_modules/dagster/dagster/_core/definitions/asset_reconciliation_sensor.py:122-140 | the record lookup and the run-plan check give the parent's status for an unselected parent; the queryer's caches and log only grow |
| AssetReconciliation.DecideInOrder | python_modules/dagster/dagster/_core/definitions/asset_reconciliation_sensor.py:229-252 | deciding the assets of an order one by one through one fresh queryer gives the walk over that order |
| AssetReconciliation.WalkAppend | python_modules/dagster/dagster/_core/definitions/asset_reconciliation_sensor.py:234 | the walk over one more asset is one more decision step |
| AssetReconciliation.Reconcile | python_modules/dagster/dagster/_core/definitions/asset_reconciliation_sensor.py:201-271 | fails exactly on a cycle. Otherwise: no request when nothing is selected, else exactly one `RunRequest(None, selected set, run_tags)`; the requested set is the decision set; the newly consumed map is its cursor advance |
| AssetReconciliation.MergedCursorMonotone | python_modules/dagster/dagster/_core/definitions/asset_reconciliation_sensor.py:180-186 | merging the newly consumed ids into the stored cursor drops no key and lowers no value |
| AssetReconciliation.SensorTick | python_modules/dagster/dagster/_core/definitions/asset_reconciliation_sensor.py:166-189 | an absent stored cursor reads as empty. The tick fails exactly on a cycle; otherwise its requests are well formed for the decision set, and the stored cursor becomes the old one overwritten by the cursor advance, keeping every key and never lowering a value |
| FreshnessPolicies.MinimumLateness | python_modules/dagster/dagster/_core/definitions/freshness_policy.py:67-84 | None exactly when some upstream time is missing; otherwise a non-negative value that is at least `minimum_time - t` for every upstream `t < minimum_time`, and is either 0 or one of those gaps |
| FreshnessPolicies.GapFoldStep | python_modules/dagster/dagster/_core/definitions/freshness_policy.py:80-83 | one loop step of `minutes_late = max(minutes_late, minimum_time - t)` keeps the running value equal to the maximum gap seen so far (or 0) |
| FreshnessPolicies.StaleGapsShape | python_modules/dagster/dagster/_core/definitions/freshness_policy.py:80-83 | every gap charged is positive, and every upstream time before the minimum time is charged its distance to it |
| FreshnessPolicies.AllFreshMeansOnTime | python_modules/dagster/dagster/_core/definitions/freshness_policy.py:80-84 | when every upstream time is at least `evaluation - window` (in particular for no upstreams), the lateness is 0 |
| FreshnessPolicies.MinimumMinutesLate | python_modules/dagster/dagster/_core/definitions/freshness_policy.py:67-84 | the loop, with its early `return None` and in any visiting order, returns `MinimumLateness` of the set of upstream values |
| FreshnessPolicies.FirstDueIndex | python_modules/dagster/dagster/_core/definitions/freshness_policy.py:115-120 | the backward walk stops at a tick with `tick + window <= evaluation`, and every tick it skipped had `tick + window > evaluation` |
| FreshnessPolicies.LatestRequiredTickIsNewestDue | python_modules/dagster/dagster/_core/definitions/freshness_policy.py:113-120 | on a newest-first schedule of prior ticks, the stopping tick is at or before the evaluation time and is the newest tick whose deadline has passed |
| FreshnessPolicies.CronLateness | python_modules/dagster/dagster/_core/definitions/freshness_policy.py:122-137 | None exactly when some upstream time is missing; otherwise never negative |
| FreshnessPolicies.CronLatenessClosedForm | python_modules/dagster/dagster/_core/definitions/freshness_policy.py:122-137 | once the tick is due, the lateness is `evaluation - (tick + window)` if some upstream time is older than the tick, else 0 |
| FreshnessPolicies.DelayFoldStep | python_modules/dagster/dagster/_core/definitions/freshness_policy.py:129-135 | one loop step of the cron variant keeps the running value equal to the maximum delay charged so far (or 0) |
| FreshnessPolicies.StaleDelaysShape | python_modules/dagster/dagster/_core/definitions/freshness_policy.py:129-135 | the delays charged are empty or the one value `evaluation - (tick + window)`, and non-empty exactly when some upstream time is older than the tick |
| FreshnessPolicies.CronMinutesLate | python_modules/dagster/dagster/_core/definitions/freshness_policy.py:106-137 | the tick walk followed by the upstream loop, in any visiting order, returns `CronLateness` at the stopping tick over the set of upstream values |
| FreshnessPolicies.MinutesLate | python_modules/dagster/dagster/_core/definitions/freshness_policy.py:23-29 | dispatch on the policy: None exactly when an upstream time is missing, never negative, and equal to the chosen policy's lateness |
| ReconcileExample.ExampleUpstream | python_modules/dagster/dagster/_core/definitions/asset_reconciliation_sensor.py:424-443 | the monitored d, e and f get parents {a, b}, {b, c} and {d, e} |
| ReconcileExample.ExampleAcyclic | python_modules/dagster/dagster/_core/definitions/asset_reconciliation_sensor.py:428-432 | d, e, f is a parents-first order, so the example has no cycle |
| ReconcileExample.FirstTickChoosesAll | python_modules/dagster/dagster/_core/definitions/asset_reconciliation_sensor.py:446-448 | once a, b and c are materialized, {d, e, f} is the only decision set |
| ReconcileExample.FirstTickCursorAdvance | python_modules/dagster/dagster/_core/definitions/asset_reconciliation_sensor.py:158-163 | that tick writes d's entry as b's storage id and e's as c's; f gets no entry |
| ReconcileExample.SecondTickChoosesNothing | python_modules/dagster/dagster/_core/definitions/asset_reconciliation_sensor.py:449 | when none of a, b and c has materialized again, the empty set is the only decision set, so no run is launched |
| ReconcileExample.ThirdTickChoosesD | python_modules/dagster/dagster/_core/definitions/asset_reconciliation_sensor.py:450-451 | when only a and b have materialized again since the first tick, {d} is the only decision set |
| ReconcileExample.InFlightTickHoldsBackD | python_modules/dagster/dagster/_core/definitions/asset_reconciliation_sensor.py:458-459 | after a and b have materialized again, a run in progress that plans a keeps d out of every decision set; without waiting for runs in progress, d would be in every one |
| ReconcileExample.CompletedRunReleasesD | python_modules/dagster/dagster/_core/definitions/asset_reconciliation_sensor.py:458-459 | once that run has completed and materialized a, d is in every decision set of the next tick |
| RepeatTickExample.FirstTickChoosesBoth | python_modules/dagster/dagster/_core/definitions/asset_reconciliation_sensor.py:234-252 | with x and p materialized and an empty cursor, {p, q} is the only decision set |
| RepeatTickExample.FirstTickCursor | python_modules/dagster/dagster/_core/definitions/asset_reconciliation_sensor.py:253-261 | that tick writes p's entry only; q, selected because p was, gets no entry |
| RepeatTickExample.SecondTickChoosesQ | python_modules/dagster/dagster/_core/definitions/asset_reconciliation_sensor.py:234-252 | on the same log with the cursor the first tick wrote, {q} is the only decision set |
| RepeatTickExample.SecondTickCursor | python_modules/dagster/dagster/_core/definitions/asset_reconciliation_sensor.py:253-261 | the second tick writes q's entry as p's storage id |
| RepeatTickExample.UnchangedLogRequestsAgain | python_modules/dagster/dagster/_core/definitions/asset_reconciliation_sensor.py:127-130 | despite the comment's intent, a tick on an unchanged log after the first tick's cursor merge still selects q |

## Left out

- JSON serialization of the cursor (`_serialize_cursor_dict`, `_deserialize_cursor_dict`): the cursor is a `map<string, int>` throughout.
- `str(AssetKey)`: it is modelled as an escaped, provably reversible encoding (`KeyString`), not as Python's exact `repr` text. Only injectivity matters to the cursor.
- `AssetSelection.resolve` and `upstream(depth=1)`: the resolved selection and the dependency graph are inputs.
- `toposort.toposort`: it is replaced by `TopologicalOrder`, which removes ready assets one at a time rather than in layers, and returns `Err` where the library raises `CircularDependencyError`. `DecisionSetUnique` shows the outcome does not depend on which parents-first order is walked.
- The event log and run storage (`DagsterInstance.get_event_records`, `get_records_for_run`, `get_runs`, and the in-memory event log storage): they are an immutable `Store`. That storage ids strictly increase per asset is the `ValidStore` precondition, which reflects the log's incrementing storage id.
- Event-log records are reduced to `(storage_id, run_id)`. Planned records are stored as the latest per asset.
- `SensorDefinition` construction, `build_asset_reconciliation_sensor`'s argument checks, `@experimental`, and the context attributes `_repository_def` and `_cursor_has_been_updated`: these are framework wrapping.
- `RunRequest.asset_selection`: it is the set of selected assets, not a Python list in set-iteration order.
- `backendQueries`: it is a ghost log that exists only to state when a call is served from a cache. The source has no such field.
- `pendulum` durations and `datetime` arithmetic: times and windows are whole minutes (`int`), so the float `total_seconds() / 60` division is not modelled.
- `croniter` and parsing of the cron string: the schedule is a supplied newest-first sequence of prior ticks, and `cronSchedule` is carried but unused.
- CronMinutesLate: it requires that some supplied tick is due (`SomeTickDue`). The source relies on croniter's unbounded iterator to end the `while` loop.
- CursorCandidates: its contract says which values are candidates, not that no other value is one; the body is the union of exactly those values, and the exact set is used through `CandidatesFor` in `IsCursorAdvance`.
- QuietTickSelectsNothing: it assumes the `all` rule is never applied to a parentless monitored asset. The source selects such an asset on every tick, so it is not a quiet tick.
- The tests of the Fivetran connector and of the GraphQL compute logs: they exercise no reconciliation logic.
