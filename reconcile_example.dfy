/**
 * The worked example of the sensor's documentation, under the `all` rule while waiting
 * for runs in progress: sources a, b and c; d depends on a and b, e on b and c, f on d and e;
 * the sensor monitors d, e and f.
 */
module ReconcileExample {
  import opened Wrappers
  import opened IntSets
  import opened AssetKeys
  import opened EventStore
  import opened AssetGraph
  import opened ReconcileSpec

  const A := AssetKey(["a"])
  const B := AssetKey(["b"])
  const C := AssetKey(["c"])
  const D := AssetKey(["d"])
  const E := AssetKey(["e"])
  const F := AssetKey(["f"])

  const Graph := DependencyGraph(map[D := {A, B}, E := {B, C}, F := {D, E}])
  const Monitored := {D, E, F}
  const Upstream: UpstreamMap := map[D := {A, B}, E := {B, C}, F := {D, E}]

  /** a, b and c have each been materialized once, by runs with no recorded plan. */
  const FirstTickStore := Store(
    map[A := [MaterializationRecord(1, "ra")], B := [MaterializationRecord(2, "rb")],
        C := [MaterializationRecord(3, "rc")]],
    map[], map[], {})

  /** The cursor written by the first tick. */
  const FirstTickCursor := map[KeyString(D) := 2, KeyString(E) := 3]

  /** Then the requested run has materialized d, e and f, and nothing else happened. */
  const SecondTickStore := Store(
    map[A := [MaterializationRecord(1, "ra")], B := [MaterializationRecord(2, "rb")],
        C := [MaterializationRecord(3, "rc")], D := [MaterializationRecord(4, "run1")],
        E := [MaterializationRecord(5, "run1")], F := [MaterializationRecord(6, "run1")]],
    map[D := PlannedRecord(4, "run1"), E := PlannedRecord(5, "run1"), F := PlannedRecord(6, "run1")],
    map["run1" := {D, E, F}], {})

  /** After the second tick, a and b are materialized again, by runs with no recorded plan. */
  const ThirdTickStore := Store(
    map[A := [MaterializationRecord(1, "ra"), MaterializationRecord(7, "ra2")],
        B := [MaterializationRecord(2, "rb"), MaterializationRecord(8, "rb2")],
        C := [MaterializationRecord(3, "rc")], D := [MaterializationRecord(4, "run1")],
        E := [MaterializationRecord(5, "run1")], F := [MaterializationRecord(6, "run1")]],
    map[D := PlannedRecord(4, "run1"), E := PlannedRecord(5, "run1"), F := PlannedRecord(6, "run1")],
    map["run1" := {D, E, F}], {})

  /**
   * Instead of the third tick: a and b are materialized again, as in `ThirdTickStore`, and
   * then a run that plans to materialize a again is in progress.
   */
  const InFlightStore := Store(
    map[A := [MaterializationRecord(1, "ra"), MaterializationRecord(7, "ra2")],
        B := [MaterializationRecord(2, "rb"), MaterializationRecord(8, "rb2")],
        C := [MaterializationRecord(3, "rc")], D := [MaterializationRecord(4, "run1")],
        E := [MaterializationRecord(5, "run1")], F := [MaterializationRecord(6, "run1")]],
    map[A := PlannedRecord(9, "run2"), D := PlannedRecord(4, "run1"), E := PlannedRecord(5, "run1"),
        F := PlannedRecord(6, "run1")],
    map["run1" := {D, E, F}, "run2" := {A}], {"run2"})

  /** Then that run has completed and materialized a. */
  const CompletedStore := Store(
    map[A := [MaterializationRecord(1, "ra"), MaterializationRecord(7, "ra2"), MaterializationRecord(10, "run2")],
        B := [MaterializationRecord(2, "rb"), MaterializationRecord(8, "rb2")],
        C := [MaterializationRecord(3, "rc")], D := [MaterializationRecord(4, "run1")],
        E := [MaterializationRecord(5, "run1")], F := [MaterializationRecord(6, "run1")]],
    map[A := PlannedRecord(9, "run2"), D := PlannedRecord(4, "run1"), E := PlannedRecord(5, "run1"),
        F := PlannedRecord(6, "run1")],
    map["run1" := {D, E, F}, "run2" := {A}], {})

  /** The upstream map of the example is the one above. */
  lemma ExampleUpstream()
    ensures UpstreamMapping(Monitored, Graph) == Upstream
  {
    DistinctKeys();
    assert UpstreamMapping(Monitored, Graph).Keys == Upstream.Keys;
  }

  /** d, e, f is a walk order of the example, so the monitored assets form no cycle. */
  lemma ExampleAcyclic()
    ensures IsTopologicalOrder([D, E, F], Upstream)
    ensures Acyclic(Upstream)
  {
    DistinctKeys();
    var order := [D, E, F];
    assert order[..2] == [D, E];
    forall i, p | 0 <= i < |order| && p in Upstream[order[i]] && p in Upstream
      ensures p in order[..i]
    {
      if i == 2 {
        assert p == D || p == E;
      }
    }
    assert ParentsFirst(order, Upstream);
  }

  lemma DistinctKeys()
    ensures A != B && A != C && B != C && A != D && A != E && A != F && B != D && B != E && B != F
    ensures C != D && C != E && C != F && D != E && D != F && E != F
  {
    assert A.path[0][0] == 'a' && B.path[0][0] == 'b' && C.path[0][0] == 'c';
    assert D.path[0][0] == 'd' && E.path[0][0] == 'e' && F.path[0][0] == 'f';
  }

  lemma DistinctKeyStrings()
    ensures KeyString(F) != KeyString(D) && KeyString(F) != KeyString(E) && KeyString(D) != KeyString(E)
  {
    DistinctKeys();
    KeyStringInjective(F, D);
    KeyStringInjective(F, E);
    KeyStringInjective(D, E);
  }

  lemma SingleRecordLatest(recs: seq<MaterializationRecord>, r: MaterializationRecord, cursor: Option<int>)
    requires recs == [r]
    ensures LatestAfter(recs, cursor) == if IsAfter(r, cursor) then Some(r) else None
  {
    assert recs[1..] == [];
  }

  lemma FirstTickLatest()
    ensures LatestMaterialization(FirstTickStore, A, None) == Some(MaterializationRecord(1, "ra"))
    ensures LatestMaterialization(FirstTickStore, B, None) == Some(MaterializationRecord(2, "rb"))
    ensures LatestMaterialization(FirstTickStore, C, None) == Some(MaterializationRecord(3, "rc"))
    ensures forall p :: LatestPlanned(FirstTickStore, p) == None
    ensures forall r :: PlannedAssetsOf(FirstTickStore, r) == {}
  {
    DistinctKeys();
    SingleRecordLatest(Records(FirstTickStore, A), MaterializationRecord(1, "ra"), None);
    SingleRecordLatest(Records(FirstTickStore, B), MaterializationRecord(2, "rb"), None);
    SingleRecordLatest(Records(FirstTickStore, C), MaterializationRecord(3, "rc"), None);
  }

  /** In the first tick, against the set {d, e, f}: the status of each monitored asset's parents. */
  lemma FirstTickStatuses()
    ensures var st := FirstTickStore; var s := {D, E, F};
      && ParentStatusOf(st, D, A, None, s) == ParentStatus(true, Some(1))
      && ParentStatusOf(st, D, B, None, s) == ParentStatus(true, Some(2))
      && ParentStatusOf(st, E, B, None, s) == ParentStatus(true, Some(2))
      && ParentStatusOf(st, E, C, None, s) == ParentStatus(true, Some(3))
      && ParentStatusOf(st, F, D, None, s) == ParentStatus(true, None)
      && ParentStatusOf(st, F, E, None, s) == ParentStatus(true, None)
      && forall parents :: !InProgressShortCircuit(st, parents, s, true)
  {
    DistinctKeys();
    FirstTickLatest();
  }

  /** With no short-circuit and two parents, the statuses are the two parents' own. */
  lemma TwoParentUpdates(st: Store, current: AssetKey, p: AssetKey, q: AssetKey, cursor: Option<int>,
                         s: set<AssetKey>, waitForInProgressRuns: bool)
    requires p != q && !InProgressShortCircuit(st, {p, q}, s, waitForInProgressRuns)
    ensures ParentUpdates(st, current, {p, q}, cursor, s, waitForInProgressRuns)
         == map[p := ParentStatusOf(st, current, p, cursor, s), q := ParentStatusOf(st, current, q, cursor, s)]
  {
  }

  lemma TwoCandidates(p: AssetKey, q: AssetKey, x: ParentStatus, y: ParentStatus)
    requires p != q
    ensures CursorCandidates(map[p := x, q := y], None)
         == (if Truthy(x.cursorCandidate) then {x.cursorCandidate.value} else {})
          + (if Truthy(y.cursorCandidate) then {y.cursorCandidate.value} else {})
  {
    var u := map[p := x, q := y];
    var fromParents := set k | k in u && Truthy(u[k].cursorCandidate) :: u[k].cursorCandidate.value;
    var expected := (if Truthy(x.cursorCandidate) then {x.cursorCandidate.value} else {})
                  + (if Truthy(y.cursorCandidate) then {y.cursorCandidate.value} else {});
    forall c | c in fromParents ensures c in expected {
      var k :| k in u && Truthy(u[k].cursorCandidate) && u[k].cursorCandidate.value == c;
      assert k == p || k == q;
    }
    assert u[p] == x && u[q] == y;
    assert CursorCandidates(u, None) == fromParents;
  }

  lemma FirstTickUpdatesD()
    ensures UpdatesFor(FirstTickStore, Upstream, map[], true, D, {D, E, F})
         == map[A := ParentStatus(true, Some(1)), B := ParentStatus(true, Some(2))]
    ensures CursorOf(map[], D) == None
  {
    DistinctKeys();
    FirstTickStatuses();
    TwoParentUpdates(FirstTickStore, D, A, B, None, {D, E, F}, true);
  }

  lemma FirstTickDecidesD()
    ensures DecidedByRule(FirstTickStore, Upstream, map[], true, true, {D, E, F}, D)
    ensures CandidatesFor(FirstTickStore, Upstream, map[], true, D, {D, E, F}) == {1, 2}
  {
    DistinctKeys();
    FirstTickUpdatesD();
    TwoCandidates(A, B, ParentStatus(true, Some(1)), ParentStatus(true, Some(2)));
  }

  lemma FirstTickUpdatesE()
    ensures UpdatesFor(FirstTickStore, Upstream, map[], true, E, {D, E, F})
         == map[B := ParentStatus(true, Some(2)), C := ParentStatus(true, Some(3))]
    ensures CursorOf(map[], E) == None
  {
    DistinctKeys();
    FirstTickStatuses();
    TwoParentUpdates(FirstTickStore, E, B, C, None, {D, E, F}, true);
  }

  lemma FirstTickDecidesE()
    ensures DecidedByRule(FirstTickStore, Upstream, map[], true, true, {D, E, F}, E)
    ensures CandidatesFor(FirstTickStore, Upstream, map[], true, E, {D, E, F}) == {2, 3}
  {
    DistinctKeys();
    FirstTickUpdatesE();
    TwoCandidates(B, C, ParentStatus(true, Some(2)), ParentStatus(true, Some(3)));
  }

  lemma FirstTickDecidesF()
    ensures DecidedByRule(FirstTickStore, Upstream, map[], true, true, {D, E, F}, F)
    ensures CandidatesFor(FirstTickStore, Upstream, map[], true, F, {D, E, F}) == {}
  {
    DistinctKeys();
    FirstTickStatuses();
    TwoParentUpdates(FirstTickStore, F, D, E, None, {D, E, F}, true);
    TwoCandidates(D, E, ParentStatus(true, None), ParentStatus(true, None));
  }

  /**
   * First tick: d and e see all their parents updated, and f sees both its parents chosen,
   * so one run materializes d, e and f.
   */
  lemma FirstTickChoosesAll()
    ensures forall s :: IsDecisionSet(FirstTickStore, Upstream, map[], true, true, s) <==> s == {D, E, F}
  {
    FirstTickAllIsDecisionSet();
    ExampleAcyclic();
    forall s | IsDecisionSet(FirstTickStore, Upstream, map[], true, true, s) ensures s == {D, E, F} {
      DecisionSetUnique(FirstTickStore, Upstream, map[], true, true, s, {D, E, F});
    }
  }

  lemma FirstTickAllIsDecisionSet()
    ensures IsDecisionSet(FirstTickStore, Upstream, map[], true, true, {D, E, F})
  {
    FirstTickDecidesD();
    FirstTickDecidesE();
    FirstTickDecidesF();
    UpstreamKeys();
    DecisionSetOfThree(FirstTickStore, Upstream, map[], true, true, {D, E, F}, D, E, F);
  }

  /** A set over a three-asset upstream map is a decision set when the rule holds at each asset. */
  lemma DecisionSetOfThree(st: Store, upstream: UpstreamMap, consumed: map<string, int>, waitForAllUpstream: bool,
                           waitForInProgressRuns: bool, should: set<AssetKey>, x: AssetKey, y: AssetKey, z: AssetKey)
    requires upstream.Keys == {x, y, z} && should <= upstream.Keys
    requires DecidedByRule(st, upstream, consumed, waitForAllUpstream, waitForInProgressRuns, should, x)
    requires DecidedByRule(st, upstream, consumed, waitForAllUpstream, waitForInProgressRuns, should, y)
    requires DecidedByRule(st, upstream, consumed, waitForAllUpstream, waitForInProgressRuns, should, z)
    ensures IsDecisionSet(st, upstream, consumed, waitForAllUpstream, waitForInProgressRuns, should)
  {
  }

  lemma UpstreamKeys()
    ensures Upstream.Keys == {D, E, F}
  {
  }

  /**
   * The first tick's cursor: d's entry moves to b's record and e's to c's; f gets no entry,
   * since its only candidates are parents chosen in the same tick.
   */
  lemma FirstTickCursorAdvance()
    ensures IsCursorAdvance(FirstTickStore, Upstream, map[], true, {D, E, F}, FirstTickCursor)
  {
    FirstTickEntryD();
    FirstTickEntryE();
    FirstTickEntryF();
    FirstTickCursorKeys();
    UpstreamKeys();
    CursorAdvanceOfThree(FirstTickStore, Upstream, map[], true, {D, E, F}, FirstTickCursor, D, E, F);
  }

  /** A cursor over a three-asset upstream map is the cursor advance when each asset's entry is right. */
  lemma CursorAdvanceOfThree(st: Store, upstream: UpstreamMap, consumed: map<string, int>,
                             waitForInProgressRuns: bool, should: set<AssetKey>, newly: map<string, int>,
                             x: AssetKey, y: AssetKey, z: AssetKey)
    requires upstream.Keys == {x, y, z}
    requires CursorEntryRight(st, upstream, consumed, waitForInProgressRuns, should, newly, x)
    requires CursorEntryRight(st, upstream, consumed, waitForInProgressRuns, should, newly, y)
    requires CursorEntryRight(st, upstream, consumed, waitForInProgressRuns, should, newly, z)
    requires forall k :: k in newly ==> exists a :: a in should && a in upstream && KeyString(a) == k
    ensures IsCursorAdvance(st, upstream, consumed, waitForInProgressRuns, should, newly)
  {
    CursorAdvanceFromEntries(st, upstream, consumed, waitForInProgressRuns, should, newly);
  }

  lemma FirstTickCursorKeys()
    ensures forall k :: k in FirstTickCursor ==> exists a :: a in {D, E, F} && a in Upstream && KeyString(a) == k
  {
    forall k | k in FirstTickCursor ensures exists a :: a in {D, E, F} && a in Upstream && KeyString(a) == k {
      if k == KeyString(D) {
        assert D in Upstream;
      } else {
        assert E in Upstream;
      }
    }
  }

  lemma FirstTickEntryD()
    ensures CursorEntryRight(FirstTickStore, Upstream, map[], true, {D, E, F}, FirstTickCursor, D)
  {
    DistinctKeyStrings();
    FirstTickDecidesD();
    MaxOfPair(1, 2);
  }

  lemma FirstTickEntryE()
    ensures CursorEntryRight(FirstTickStore, Upstream, map[], true, {D, E, F}, FirstTickCursor, E)
  {
    DistinctKeyStrings();
    FirstTickDecidesE();
    MaxOfPair(2, 3);
  }

  lemma FirstTickEntryF()
    ensures CursorEntryRight(FirstTickStore, Upstream, map[], true, {D, E, F}, FirstTickCursor, F)
  {
    DistinctKeyStrings();
    FirstTickDecidesF();
  }

  lemma MaxOfPair(x: int, y: int)
    requires x < y
    ensures MaxOf({x, y}) == y
  {
    assert y in {x, y};
  }

  lemma SecondTickNothingInFlight()
    ensures forall p :: !MaterializationInFlight(SecondTickStore, p)
  {
  }

  lemma SecondTickQueriesD()
    ensures LatestMaterialization(SecondTickStore, A, Some(2)).None?
    ensures LatestMaterialization(SecondTickStore, B, Some(2)).None?
  {
    DistinctKeys();
    SingleRecordLatest(Records(SecondTickStore, A), MaterializationRecord(1, "ra"), Some(2));
    SingleRecordLatest(Records(SecondTickStore, B), MaterializationRecord(2, "rb"), Some(2));
  }

  lemma SecondTickQueriesE()
    ensures LatestMaterialization(SecondTickStore, B, Some(3)).None?
    ensures LatestMaterialization(SecondTickStore, C, Some(3)).None?
  {
    DistinctKeys();
    SingleRecordLatest(Records(SecondTickStore, B), MaterializationRecord(2, "rb"), Some(3));
    SingleRecordLatest(Records(SecondTickStore, C), MaterializationRecord(3, "rc"), Some(3));
  }

  lemma SecondTickQueriesF()
    ensures LatestMaterialization(SecondTickStore, D, None) == Some(MaterializationRecord(4, "run1"))
    ensures LatestMaterialization(SecondTickStore, E, None) == Some(MaterializationRecord(5, "run1"))
    ensures PlannedAssetsOf(SecondTickStore, "run1") == {D, E, F}
  {
    DistinctKeys();
    SingleRecordLatest(Records(SecondTickStore, D), MaterializationRecord(4, "run1"), None);
    SingleRecordLatest(Records(SecondTickStore, E), MaterializationRecord(5, "run1"), None);
  }

  lemma SecondTickCursors()
    ensures CursorOf(FirstTickCursor, D) == Some(2)
    ensures CursorOf(FirstTickCursor, E) == Some(3)
    ensures CursorOf(FirstTickCursor, F) == None
  {
    DistinctKeyStrings();
  }

  lemma SecondTickDecidesD()
    ensures DecidedByRule(SecondTickStore, Upstream, FirstTickCursor, true, true, {}, D)
  {
    DistinctKeys();
    SecondTickNothingInFlight();
    SecondTickQueriesD();
    SecondTickCursors();
    TwoParentUpdates(SecondTickStore, D, A, B, Some(2), {}, true);
  }

  lemma SecondTickDecidesE()
    ensures DecidedByRule(SecondTickStore, Upstream, FirstTickCursor, true, true, {}, E)
  {
    DistinctKeys();
    SecondTickNothingInFlight();
    SecondTickQueriesE();
    SecondTickCursors();
    TwoParentUpdates(SecondTickStore, E, B, C, Some(3), {}, true);
  }

  lemma SecondTickDecidesF()
    ensures DecidedByRule(SecondTickStore, Upstream, FirstTickCursor, true, true, {}, F)
  {
    DistinctKeys();
    SecondTickNothingInFlight();
    SecondTickQueriesF();
    SecondTickCursors();
    TwoParentUpdates(SecondTickStore, F, D, E, None, {}, true);
  }

  /**
   * Second tick: no source changed, so d and e see nothing after their cursors; f's
   * parents were materialized by the run that also planned f, so they do not count as
   * updated. No run is launched and no cursor entry is written.
   */
  lemma SecondTickChoosesNothing()
    ensures forall s :: IsDecisionSet(SecondTickStore, Upstream, FirstTickCursor, true, true, s) <==> s == {}
  {
    SecondTickEmptyIsDecisionSet();
    ExampleAcyclic();
    forall s | IsDecisionSet(SecondTickStore, Upstream, FirstTickCursor, true, true, s) ensures s == {} {
      DecisionSetUnique(SecondTickStore, Upstream, FirstTickCursor, true, true, s, {});
    }
  }

  lemma SecondTickEmptyIsDecisionSet()
    ensures IsDecisionSet(SecondTickStore, Upstream, FirstTickCursor, true, true, {})
  {
    SecondTickDecidesD();
    SecondTickDecidesE();
    SecondTickDecidesF();
    UpstreamKeys();
    DecisionSetOfThree(SecondTickStore, Upstream, FirstTickCursor, true, true, {}, D, E, F);
  }

  /** With nothing chosen, the second tick writes no cursor entry. */
  lemma SecondTickWritesNoCursor()
    ensures IsCursorAdvance(SecondTickStore, Upstream, FirstTickCursor, true, {}, map[])
  {
  }

  lemma TwoRecordLatest(recs: seq<MaterializationRecord>, r1: MaterializationRecord, r2: MaterializationRecord,
                        cursor: Option<int>)
    requires recs == [r1, r2] && r1.storageId < r2.storageId
    ensures LatestAfter(recs, cursor) == if IsAfter(r2, cursor) then Some(r2) else if IsAfter(r1, cursor) then Some(r1) else None
  {
    assert recs[1..] == [r2];
    SingleRecordLatest(recs[1..], r2, cursor);
  }

  lemma ThirdTickNothingInFlight()
    ensures forall p :: !MaterializationInFlight(ThirdTickStore, p)
  {
  }

  lemma ThirdTickQueriesD()
    ensures LatestMaterialization(ThirdTickStore, A, Some(2)) == Some(MaterializationRecord(7, "ra2"))
    ensures LatestMaterialization(ThirdTickStore, B, Some(2)) == Some(MaterializationRecord(8, "rb2"))
  {
    DistinctKeys();
    TwoRecordLatest(Records(ThirdTickStore, A), MaterializationRecord(1, "ra"), MaterializationRecord(7, "ra2"), Some(2));
    TwoRecordLatest(Records(ThirdTickStore, B), MaterializationRecord(2, "rb"), MaterializationRecord(8, "rb2"), Some(2));
  }

  lemma ThirdTickQueriesE()
    ensures LatestMaterialization(ThirdTickStore, B, Some(3)) == Some(MaterializationRecord(8, "rb2"))
    ensures LatestMaterialization(ThirdTickStore, C, Some(3)).None?
  {
    DistinctKeys();
    TwoRecordLatest(Records(ThirdTickStore, B), MaterializationRecord(2, "rb"), MaterializationRecord(8, "rb2"), Some(3));
    SingleRecordLatest(Records(ThirdTickStore, C), MaterializationRecord(3, "rc"), Some(3));
  }

  lemma ThirdTickQueriesF()
    ensures LatestMaterialization(ThirdTickStore, E, None) == Some(MaterializationRecord(5, "run1"))
    ensures PlannedAssetsOf(ThirdTickStore, "run1") == {D, E, F}
  {
    DistinctKeys();
    SingleRecordLatest(Records(ThirdTickStore, E), MaterializationRecord(5, "run1"), None);
  }

  lemma ThirdTickStatusesD()
    ensures ParentStatusOf(ThirdTickStore, D, A, Some(2), {D}) == ParentStatus(true, Some(7))
    ensures ParentStatusOf(ThirdTickStore, D, B, Some(2), {D}) == ParentStatus(true, Some(8))
  {
    ThirdTickStatusDA();
    ThirdTickStatusDB();
  }

  lemma ThirdTickStatusDA()
    ensures ParentStatusOf(ThirdTickStore, D, A, Some(2), {D}) == ParentStatus(true, Some(7))
  {
    DistinctKeys();
    ThirdTickQueriesD();
    assert PlannedAssetsOf(ThirdTickStore, "ra2") == {};
  }

  lemma ThirdTickStatusDB()
    ensures ParentStatusOf(ThirdTickStore, D, B, Some(2), {D}) == ParentStatus(true, Some(8))
  {
    DistinctKeys();
    ThirdTickQueriesD();
    assert PlannedAssetsOf(ThirdTickStore, "rb2") == {};
  }

  /** Third tick, d: both a and b have records after d's cursor 2, by runs that did not plan d, so d is chosen. */
  lemma ThirdTickDecidesD()
    ensures DecidedByRule(ThirdTickStore, Upstream, FirstTickCursor, true, true, {D}, D)
  {
    ThirdTickUpdatesD();
    assert D in {D};
  }

  lemma ThirdTickUpdatesD()
    ensures UpdatesFor(ThirdTickStore, Upstream, FirstTickCursor, true, D, {D})
         == map[A := ParentStatus(true, Some(7)), B := ParentStatus(true, Some(8))]
  {
    DistinctKeys();
    ThirdTickNothingInFlight();
    SecondTickCursors();
    ThirdTickStatusesD();
    TwoParentUpdates(ThirdTickStore, D, A, B, Some(2), {D}, true);
  }

  /** Third tick, e: c has nothing after e's cursor 3, so under the `all` rule e is not chosen. */
  lemma ThirdTickDecidesE()
    ensures DecidedByRule(ThirdTickStore, Upstream, FirstTickCursor, true, true, {D}, E)
  {
    ThirdTickUpdatesE();
    DistinctKeys();
    assert E !in {D};
  }

  lemma ThirdTickUpdatesE()
    ensures UpdatesFor(ThirdTickStore, Upstream, FirstTickCursor, true, E, {D})[C] == ParentStatus(false, None)
  {
    DistinctKeys();
    ThirdTickNothingInFlight();
    SecondTickCursors();
    ThirdTickStatusE();
    TwoParentUpdates(ThirdTickStore, E, B, C, Some(3), {D}, true);
  }

  lemma ThirdTickStatusE()
    ensures ParentStatusOf(ThirdTickStore, E, C, Some(3), {D}) == ParentStatus(false, None)
  {
    DistinctKeys();
    ThirdTickQueriesE();
  }

  /** Third tick, f: e is not chosen and its record came from the run that also planned f. */
  lemma ThirdTickDecidesF()
    ensures DecidedByRule(ThirdTickStore, Upstream, FirstTickCursor, true, true, {D}, F)
  {
    DistinctKeys();
    ThirdTickNothingInFlight();
    ThirdTickQueriesF();
    SecondTickCursors();
    assert ParentStatusOf(ThirdTickStore, F, E, None, {D}) == ParentStatus(false, Some(5));
    TwoParentUpdates(ThirdTickStore, F, D, E, None, {D}, true);
  }

  /** Just a and b materialized again: the tick chooses d alone. */
  lemma ThirdTickChoosesD()
    ensures forall s :: IsDecisionSet(ThirdTickStore, Upstream, FirstTickCursor, true, true, s) <==> s == {D}
  {
    ThirdTickDecidesD();
    ThirdTickDecidesE();
    ThirdTickDecidesF();
    UpstreamKeys();
    DecisionSetOfThree(ThirdTickStore, Upstream, FirstTickCursor, true, true, {D}, D, E, F);
    ExampleAcyclic();
    forall s | IsDecisionSet(ThirdTickStore, Upstream, FirstTickCursor, true, true, s) ensures s == {D} {
      DecisionSetUnique(ThirdTickStore, Upstream, FirstTickCursor, true, true, s, {D});
    }
  }

  /**
   * A parent the set does not hold, with some record after the cursor and no record from a
   * run that planned the asset, counts as updated.
   */
  lemma FreshParentUpdated(st: Store, current: AssetKey, p: AssetKey, cursor: Option<int>, s: set<AssetKey>,
                           rec: MaterializationRecord)
    requires p !in s
    requires rec in Records(st, p) && IsAfter(rec, cursor)
    requires forall x :: x in Records(st, p) ==> current !in PlannedAssetsOf(st, x.runId)
    ensures ParentStatusOf(st, current, p, cursor, s).updated
  {
    assert LatestMaterialization(st, p, cursor).Some?;
  }

  /** When both of d's parents count as updated and nothing holds d back, the rule chooses d. */
  lemma UpdatedParentsChooseD(st: Store, waitForInProgressRuns: bool, s: set<AssetKey>)
    requires DecidedByRule(st, Upstream, FirstTickCursor, true, waitForInProgressRuns, s, D)
    requires !InProgressShortCircuit(st, {A, B}, s, waitForInProgressRuns)
    requires ParentStatusOf(st, D, A, Some(2), s).updated && ParentStatusOf(st, D, B, Some(2), s).updated
    ensures D in s
  {
    DistinctKeys();
    SecondTickCursors();
    var u := UpdatesFor(st, Upstream, FirstTickCursor, waitForInProgressRuns, D, s);
    TwoParentUpdates(st, D, A, B, Some(2), s, waitForInProgressRuns);
    assert u == map[A := ParentStatusOf(st, D, A, Some(2), s), B := ParentStatusOf(st, D, B, Some(2), s)];
    assert ShouldMaterialize(u, true);
  }

  lemma InFlightFacts()
    ensures MaterializationInFlight(InFlightStore, A)
    ensures MaterializationRecord(7, "ra2") in Records(InFlightStore, A)
    ensures MaterializationRecord(8, "rb2") in Records(InFlightStore, B)
    ensures forall x :: x in Records(InFlightStore, A) ==> D !in PlannedAssetsOf(InFlightStore, x.runId)
    ensures forall x :: x in Records(InFlightStore, B) ==> D !in PlannedAssetsOf(InFlightStore, x.runId)
  {
    DistinctKeys();
  }

  lemma CompletedFacts()
    ensures !MaterializationInFlight(CompletedStore, A) && !MaterializationInFlight(CompletedStore, B)
    ensures MaterializationRecord(10, "run2") in Records(CompletedStore, A)
    ensures MaterializationRecord(8, "rb2") in Records(CompletedStore, B)
    ensures forall x :: x in Records(CompletedStore, A) ==> D !in PlannedAssetsOf(CompletedStore, x.runId)
    ensures forall x :: x in Records(CompletedStore, B) ==> D !in PlannedAssetsOf(CompletedStore, x.runId)
  {
    DistinctKeys();
  }

  /** Waiting for runs in progress, the run materializing a holds d back. */
  lemma InFlightGatedSkipsD(s: set<AssetKey>)
    requires IsDecisionSet(InFlightStore, Upstream, FirstTickCursor, true, true, s)
    ensures D !in s
  {
    DistinctKeys();
    InFlightFacts();
    assert DecidedByRule(InFlightStore, Upstream, FirstTickCursor, true, true, s, D);
    assert A !in s;
    InFlightParentBlocks(InFlightStore, D, {A, B}, CursorOf(FirstTickCursor, D), s, true, true);
  }

  /** Not waiting for runs in progress, the new records of a and b choose d. */
  lemma InFlightUngatedChoosesD(s: set<AssetKey>)
    requires IsDecisionSet(InFlightStore, Upstream, FirstTickCursor, true, false, s)
    ensures D in s
  {
    DistinctKeys();
    InFlightFacts();
    assert DecidedByRule(InFlightStore, Upstream, FirstTickCursor, true, false, s, D);
    assert A !in s && B !in s;
    FreshParentUpdated(InFlightStore, D, A, Some(2), s, MaterializationRecord(7, "ra2"));
    FreshParentUpdated(InFlightStore, D, B, Some(2), s, MaterializationRecord(8, "rb2"));
    UpdatedParentsChooseD(InFlightStore, false, s);
  }

  /** Once the run has completed, a's record from it and b's new record choose d. */
  lemma CompletedChoosesD(s: set<AssetKey>)
    requires IsDecisionSet(CompletedStore, Upstream, FirstTickCursor, true, true, s)
    ensures D in s
  {
    DistinctKeys();
    CompletedFacts();
    assert DecidedByRule(CompletedStore, Upstream, FirstTickCursor, true, true, s, D);
    assert A !in s && B !in s;
    FreshParentUpdated(CompletedStore, D, A, Some(2), s, MaterializationRecord(10, "run2"));
    FreshParentUpdated(CompletedStore, D, B, Some(2), s, MaterializationRecord(8, "rb2"));
    UpdatedParentsChooseD(CompletedStore, true, s);
  }

  /**
   * With a materialization of a in progress, no decision set of the tick contains d,
   * although a and b have new records: without waiting for runs in progress, d is chosen.
   */
  lemma InFlightTickHoldsBackD()
    ensures forall s :: IsDecisionSet(InFlightStore, Upstream, FirstTickCursor, true, true, s) ==> D !in s
    ensures forall s :: IsDecisionSet(InFlightStore, Upstream, FirstTickCursor, true, false, s) ==> D in s
  {
    forall s | IsDecisionSet(InFlightStore, Upstream, FirstTickCursor, true, true, s) ensures D !in s {
      InFlightGatedSkipsD(s);
    }
    forall s | IsDecisionSet(InFlightStore, Upstream, FirstTickCursor, true, false, s) ensures D in s {
      InFlightUngatedChoosesD(s);
    }
  }

  /** Once the run in progress has completed and materialized a, every decision set of the tick contains d. */
  lemma CompletedRunReleasesD()
    ensures forall s :: IsDecisionSet(CompletedStore, Upstream, FirstTickCursor, true, true, s) ==> D in s
  {
    forall s | IsDecisionSet(CompletedStore, Upstream, FirstTickCursor, true, true, s) ensures D in s {
      CompletedChoosesD(s);
    }
  }
}
