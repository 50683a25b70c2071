/**
 * Two ticks over the same event log, under the `all` rule while waiting for runs in
 * progress: x is an unmonitored source, p (monitored) depends on x, and q (monitored)
 * depends on p. Both x and p have been materialized once, by runs with no recorded plan.
 *
 * The first tick chooses p and q, and writes p's entry only: q takes p's status from the
 * will-materialize set, which offers no candidate. So the second tick, on the same log,
 * finds p's record after q's (absent) cursor and requests q again.
 */
module RepeatTickExample {
  import opened Wrappers
  import opened IntSets
  import opened AssetKeys
  import opened EventStore
  import opened AssetGraph
  import opened ReconcileSpec

  const X := AssetKey(["x"])
  const P := AssetKey(["p"])
  const Q := AssetKey(["q"])

  const Upstream: UpstreamMap := map[P := {X}, Q := {P}]

  /** x and p have each been materialized once; no run planned anything, and none is in progress. */
  const TickStore := Store(map[X := [MaterializationRecord(1, "rx")], P := [MaterializationRecord(2, "rp")]],
                           map[], map[], {})

  /** The cursor written by the first tick. */
  const FirstCursor := map[KeyString(P) := 1]

  /** The cursor entries the second tick adds. */
  const SecondAdvance := map[KeyString(Q) := 2]

  lemma DistinctKeys()
    ensures X != P && X != Q && P != Q
    ensures KeyString(P) != KeyString(Q)
  {
    assert X.path[0][0] == 'x' && P.path[0][0] == 'p' && Q.path[0][0] == 'q';
    KeyStringInjective(P, Q);
  }

  /** p, q is a walk order, so the monitored assets form no cycle. */
  lemma RepeatAcyclic()
    ensures Acyclic(Upstream)
  {
    DistinctKeys();
    var order := [P, Q];
    forall i, a | 0 <= i < |order| && a in Upstream[order[i]] && a in Upstream
      ensures a in order[..i]
    {
      if i == 1 {
        assert order[..1] == [P];
      }
    }
    assert ParentsFirst(order, Upstream);
    assert IsTopologicalOrder(order, Upstream);
  }

  lemma StoreAnswers()
    ensures LatestMaterialization(TickStore, X, None) == Some(MaterializationRecord(1, "rx"))
    ensures LatestMaterialization(TickStore, X, Some(1)).None?
    ensures LatestMaterialization(TickStore, P, None) == Some(MaterializationRecord(2, "rp"))
    ensures forall a :: !MaterializationInFlight(TickStore, a)
    ensures forall r :: PlannedAssetsOf(TickStore, r) == {}
  {
    DistinctKeys();
    var recsX := Records(TickStore, X);
    var recsP := Records(TickStore, P);
    assert recsX == [MaterializationRecord(1, "rx")] && recsX[1..] == [];
    assert recsP == [MaterializationRecord(2, "rp")] && recsP[1..] == [];
  }

  lemma OneParentUpdates(st: Store, current: AssetKey, p: AssetKey, cursor: Option<int>, s: set<AssetKey>)
    requires !MaterializationInFlight(st, p)
    ensures ParentUpdates(st, current, {p}, cursor, s, true) == map[p := ParentStatusOf(st, current, p, cursor, s)]
  {
  }

  lemma OneCandidate(p: AssetKey, x: ParentStatus)
    ensures CursorCandidates(map[p := x], None) == if Truthy(x.cursorCandidate) then {x.cursorCandidate.value} else {}
  {
    var u := map[p := x];
    var fromParent := set k | k in u && Truthy(u[k].cursorCandidate) :: u[k].cursorCandidate.value;
    var expected := if Truthy(x.cursorCandidate) then {x.cursorCandidate.value} else {};
    forall c | c in fromParent ensures c in expected {
      var k :| k in u && Truthy(u[k].cursorCandidate) && u[k].cursorCandidate.value == c;
      assert k == p;
    }
    assert u[p] == x;
    assert CursorCandidates(u, None) == fromParent;
  }

  lemma FirstCursors()
    ensures CursorOf(map[], P) == None && CursorOf(map[], Q) == None
    ensures CursorOf(FirstCursor, P) == Some(1) && CursorOf(FirstCursor, Q) == None
  {
    DistinctKeys();
  }

  /** First tick, p: x's record is new and no run planned p, so p is chosen with candidate 1. */
  lemma FirstTickDecidesP()
    ensures DecidedByRule(TickStore, Upstream, map[], true, true, {P, Q}, P)
    ensures CandidatesFor(TickStore, Upstream, map[], true, P, {P, Q}) == {1}
  {
    DistinctKeys();
    StoreAnswers();
    FirstCursors();
    OneParentUpdates(TickStore, P, X, None, {P, Q});
    OneCandidate(X, ParentStatus(true, Some(1)));
  }

  /** First tick, q: its parent p is chosen in the same tick, which counts as updated but offers no candidate. */
  lemma FirstTickDecidesQ()
    ensures DecidedByRule(TickStore, Upstream, map[], true, true, {P, Q}, Q)
    ensures CandidatesFor(TickStore, Upstream, map[], true, Q, {P, Q}) == {}
  {
    DistinctKeys();
    StoreAnswers();
    FirstCursors();
    OneParentUpdates(TickStore, Q, P, None, {P, Q});
    OneCandidate(P, ParentStatus(true, None));
  }

  /** Second tick, p: nothing of x lies after p's cursor 1, so p is not chosen. */
  lemma SecondTickDecidesP()
    ensures DecidedByRule(TickStore, Upstream, FirstCursor, true, true, {Q}, P)
  {
    DistinctKeys();
    StoreAnswers();
    FirstCursors();
    OneParentUpdates(TickStore, P, X, Some(1), {Q});
  }

  /** Second tick, q: p's record 2 lies after q's absent cursor, so q is chosen with candidate 2. */
  lemma SecondTickDecidesQ()
    ensures DecidedByRule(TickStore, Upstream, FirstCursor, true, true, {Q}, Q)
    ensures CandidatesFor(TickStore, Upstream, FirstCursor, true, Q, {Q}) == {2}
  {
    DistinctKeys();
    StoreAnswers();
    FirstCursors();
    OneParentUpdates(TickStore, Q, P, None, {Q});
    OneCandidate(P, ParentStatus(true, Some(2)));
  }

  /** A set over a two-asset upstream map is a decision set when the rule holds at each asset. */
  lemma DecisionSetOfTwo(st: Store, upstream: UpstreamMap, consumed: map<string, int>, waitForAllUpstream: bool,
                         waitForInProgressRuns: bool, should: set<AssetKey>, x: AssetKey, y: AssetKey)
    requires upstream.Keys == {x, y} && should <= upstream.Keys
    requires DecidedByRule(st, upstream, consumed, waitForAllUpstream, waitForInProgressRuns, should, x)
    requires DecidedByRule(st, upstream, consumed, waitForAllUpstream, waitForInProgressRuns, should, y)
    ensures IsDecisionSet(st, upstream, consumed, waitForAllUpstream, waitForInProgressRuns, should)
  {
  }

  /** A cursor over a two-asset upstream map is the cursor advance when each asset's entry is right. */
  lemma CursorAdvanceOfTwo(st: Store, upstream: UpstreamMap, consumed: map<string, int>,
                           waitForInProgressRuns: bool, should: set<AssetKey>, newly: map<string, int>,
                           x: AssetKey, y: AssetKey)
    requires upstream.Keys == {x, y}
    requires CursorEntryRight(st, upstream, consumed, waitForInProgressRuns, should, newly, x)
    requires CursorEntryRight(st, upstream, consumed, waitForInProgressRuns, should, newly, y)
    requires forall k :: k in newly ==> exists a :: a in should && a in upstream && KeyString(a) == k
    ensures IsCursorAdvance(st, upstream, consumed, waitForInProgressRuns, should, newly)
  {
    CursorAdvanceFromEntries(st, upstream, consumed, waitForInProgressRuns, should, newly);
  }

  /** The first tick, from an empty cursor, chooses exactly p and q. */
  lemma FirstTickChoosesBoth()
    ensures forall s :: IsDecisionSet(TickStore, Upstream, map[], true, true, s) <==> s == {P, Q}
  {
    FirstTickDecidesP();
    FirstTickDecidesQ();
    DecisionSetOfTwo(TickStore, Upstream, map[], true, true, {P, Q}, P, Q);
    RepeatAcyclic();
    forall s | IsDecisionSet(TickStore, Upstream, map[], true, true, s) ensures s == {P, Q} {
      DecisionSetUnique(TickStore, Upstream, map[], true, true, s, {P, Q});
    }
  }

  /** The first tick writes p's entry 1 and none for q, although q is requested. */
  lemma FirstTickCursor()
    ensures IsCursorAdvance(TickStore, Upstream, map[], true, {P, Q}, FirstCursor)
  {
    DistinctKeys();
    FirstTickDecidesP();
    FirstTickDecidesQ();
    assert MaxOf({1}) == 1;
    assert CursorEntryRight(TickStore, Upstream, map[], true, {P, Q}, FirstCursor, P);
    assert CursorEntryRight(TickStore, Upstream, map[], true, {P, Q}, FirstCursor, Q);
    assert forall k :: k in FirstCursor ==> k == KeyString(P);
    assert P in {P, Q} && P in Upstream;
    CursorAdvanceOfTwo(TickStore, Upstream, map[], true, {P, Q}, FirstCursor, P, Q);
  }

  /** The second tick, on the same log with the first tick's cursor, chooses exactly q. */
  lemma SecondTickChoosesQ()
    ensures forall s :: IsDecisionSet(TickStore, Upstream, FirstCursor, true, true, s) <==> s == {Q}
  {
    SecondTickDecidesP();
    SecondTickDecidesQ();
    DecisionSetOfTwo(TickStore, Upstream, FirstCursor, true, true, {Q}, P, Q);
    RepeatAcyclic();
    forall s | IsDecisionSet(TickStore, Upstream, FirstCursor, true, true, s) ensures s == {Q} {
      DecisionSetUnique(TickStore, Upstream, FirstCursor, true, true, s, {Q});
    }
  }

  /** The second tick writes q's entry 2, after which p's record no longer counts for q. */
  lemma SecondTickCursor()
    ensures IsCursorAdvance(TickStore, Upstream, FirstCursor, true, {Q}, SecondAdvance)
  {
    DistinctKeys();
    SecondTickDecidesP();
    SecondTickDecidesQ();
    FirstCursors();
    assert MaxOf({2}) == 2;
    assert CursorEntryRight(TickStore, Upstream, FirstCursor, true, {Q}, SecondAdvance, P);
    assert CursorEntryRight(TickStore, Upstream, FirstCursor, true, {Q}, SecondAdvance, Q);
    assert forall k :: k in SecondAdvance ==> k == KeyString(Q);
    assert Q in {Q} && Q in Upstream;
    CursorAdvanceOfTwo(TickStore, Upstream, FirstCursor, true, {Q}, SecondAdvance, P, Q);
  }

  /**
   * A tick that sees no new record still requests a run: the first tick, from an empty
   * cursor, requests q and advances the cursor to `FirstCursor`; the second tick, on the same
   * log with that advance merged in, requests q again.
   */
  lemma UnchangedLogRequestsAgain()
    ensures forall s :: IsDecisionSet(TickStore, Upstream, map[], true, true, s) ==> Q in s
    ensures IsCursorAdvance(TickStore, Upstream, map[], true, {P, Q}, FirstCursor)
    ensures forall s :: IsDecisionSet(TickStore, Upstream, map[] + FirstCursor, true, true, s) ==> Q in s
  {
    FirstTickChoosesBoth();
    FirstTickCursor();
    SecondTickChoosesQ();
    MergeIntoEmpty(FirstCursor);
  }

  lemma MergeIntoEmpty(m: map<string, int>)
    ensures map[] + m == m
  {
  }
}
