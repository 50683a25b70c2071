/**
 * What one reconciliation tick decides, stated without loops or caches.
 *
 * Per parent of the asset under consideration: updated or not, and a storage id the
 * asset's cursor may advance to. Per asset: selected under the `all` or `any` rule.
 * Over the walk: the set of assets to materialize and their new cursor values. The
 * lemmas characterise the walk's outcome as the unique set that is closed under the
 * decision rule, so it does not depend on which parents-first order was walked.
 */
module ReconcileSpec {
  import opened Wrappers
  import opened IntSets
  import opened AssetKeys
  import opened EventStore
  import opened AssetGraph

  /** Whether a parent counts as updated, and the storage id it offers as a cursor candidate. */
  datatype ParentStatus = ParentStatus(updated: bool, cursorCandidate: Option<int>)

  /** The assets chosen so far and the cursor values written so far. */
  datatype Decision = Decision(shouldMaterialize: set<AssetKey>, newlyConsumed: map<string, int>)

  /** The parent's latest planned materialization belongs to a run that is still in progress. */
  predicate MaterializationInFlight(st: Store, p: AssetKey) {
    LatestPlanned(st, p).Some? && RunInProgress(st, LatestPlanned(st, p).value.runId)
  }

  /**
   * The status of one parent when no short-circuit happens: a parent this tick will
   * materialize is updated with no candidate; otherwise its newest record after the
   * asset's cursor decides: none means not updated, and a record offers its storage id
   * and counts as updated unless its run also planned to materialize the asset itself.
   */
  function ParentStatusOf(st: Store, current: AssetKey, p: AssetKey, cursor: Option<int>,
                          willMaterialize: set<AssetKey>): (r: ParentStatus)
    ensures p in willMaterialize ==> r == ParentStatus(true, None)
    ensures r.cursorCandidate.Some? ==> cursor.None? || r.cursorCandidate.value > cursor.value
    ensures r.updated ==> p in willMaterialize || r.cursorCandidate.Some?
    ensures p !in willMaterialize && r.cursorCandidate.None? ==> forall rec :: rec in Records(st, p) ==> !IsAfter(rec, cursor)
  {
    if p in willMaterialize then ParentStatus(true, None)
    else match LatestMaterialization(st, p, cursor)
      case None => ParentStatus(false, None)
      case Some(rec) => ParentStatus(current !in PlannedAssetsOf(st, rec.runId), Some(rec.storageId))
  }

  /** Some parent that this tick will not materialize is being materialized by a run in progress. */
  predicate InProgressShortCircuit(st: Store, parents: set<AssetKey>, willMaterialize: set<AssetKey>,
                                   waitForInProgressRuns: bool)
  {
    waitForInProgressRuns && exists p :: p in parents && p !in willMaterialize && MaterializationInFlight(st, p)
  }

  /** The map `_get_parent_updates` returns, whatever order it visits the parents in. */
  function ParentUpdates(st: Store, current: AssetKey, parents: set<AssetKey>, cursor: Option<int>,
                         willMaterialize: set<AssetKey>, waitForInProgressRuns: bool): (r: map<AssetKey, ParentStatus>)
    ensures r.Keys == parents
    ensures InProgressShortCircuit(st, parents, willMaterialize, waitForInProgressRuns) ==>
      forall p :: p in r ==> !r[p].updated && r[p].cursorCandidate.None?
    ensures !waitForInProgressRuns ==> forall p :: p in willMaterialize && p in parents ==> r[p].updated
  {
    if InProgressShortCircuit(st, parents, willMaterialize, waitForInProgressRuns)
    then map p | p in parents :: ParentStatus(false, None)
    else map p | p in parents :: ParentStatusOf(st, current, p, cursor, willMaterialize)
  }

  /** The `all` rule (wait for all upstream) or the `any` rule over the parents' updated flags. */
  predicate ShouldMaterialize(updates: map<AssetKey, ParentStatus>, waitForAllUpstream: bool): (b: bool)
    ensures updates == map[] ==> (b <==> waitForAllUpstream)
    ensures updates != map[] && (forall p :: p in updates ==> updates[p].updated) ==> b
    ensures (forall p :: p in updates ==> !updates[p].updated) && updates != map[] ==> !b
  {
    if waitForAllUpstream then forall p :: p in updates ==> updates[p].updated
    else exists p :: p in updates && updates[p].updated
  }

  /** Python truthiness of an optional storage id: absent and zero are both false. */
  predicate Truthy(c: Option<int>): (b: bool)
    ensures c.None? || c == Some(0) ==> !b
    ensures c.Some? && c.value != 0 ==> b
  {
    c.Some? && c.value != 0
  }

  /** The truthy cursor candidates of the parents, plus the asset's own cursor when truthy. */
  function CursorCandidates(updates: map<AssetKey, ParentStatus>, currentCursor: Option<int>): (r: set<int>)
    ensures 0 !in r
    ensures Truthy(currentCursor) ==> currentCursor.value in r
    ensures forall p :: p in updates && Truthy(updates[p].cursorCandidate) ==> updates[p].cursorCandidate.value in r
  {
    (set p | p in updates && Truthy(updates[p].cursorCandidate) :: updates[p].cursorCandidate.value)
    + (if Truthy(currentCursor) then {currentCursor.value} else {})
  }

  /** The asset's entry in the persisted cursor, if any. */
  function CursorOf(consumed: map<string, int>, a: AssetKey): Option<int> {
    if KeyString(a) in consumed then Some(consumed[KeyString(a)]) else None
  }

  function UpdatesFor(st: Store, upstream: UpstreamMap, consumed: map<string, int>, waitForInProgressRuns: bool,
                      a: AssetKey, willMaterialize: set<AssetKey>): map<AssetKey, ParentStatus>
    requires a in upstream
  {
    ParentUpdates(st, a, upstream[a], CursorOf(consumed, a), willMaterialize, waitForInProgressRuns)
  }

  function CandidatesFor(st: Store, upstream: UpstreamMap, consumed: map<string, int>, waitForInProgressRuns: bool,
                         a: AssetKey, willMaterialize: set<AssetKey>): set<int>
    requires a in upstream
  {
    CursorCandidates(UpdatesFor(st, upstream, consumed, waitForInProgressRuns, a, willMaterialize), CursorOf(consumed, a))
  }

  /** One step of the walk: decide asset `a` against the assets chosen so far. */
  function Decide(st: Store, upstream: UpstreamMap, consumed: map<string, int>, waitForAllUpstream: bool,
                  waitForInProgressRuns: bool, d: Decision, a: AssetKey): (r: Decision)
    requires a in upstream
    ensures r.shouldMaterialize == d.shouldMaterialize || r.shouldMaterialize == d.shouldMaterialize + {a}
    ensures forall k :: k in r.newlyConsumed ==>
      (k in d.newlyConsumed && r.newlyConsumed[k] == d.newlyConsumed[k]) || (k == KeyString(a) && a in r.shouldMaterialize
                                                                             && r.newlyConsumed[k] != 0)
  {
    var updates := UpdatesFor(st, upstream, consumed, waitForInProgressRuns, a, d.shouldMaterialize);
    if ShouldMaterialize(updates, waitForAllUpstream) then
      var candidates := CursorCandidates(updates, CursorOf(consumed, a));
      Decision(d.shouldMaterialize + {a},
               if candidates != {} then d.newlyConsumed[KeyString(a) := MaxOf(candidates)] else d.newlyConsumed)
    else d
  }

  /** The walk of `reconcile` over `order`: decide each asset in turn against the set chosen so far. */
  ghost function Walk(st: Store, upstream: UpstreamMap, consumed: map<string, int>, waitForAllUpstream: bool,
                      waitForInProgressRuns: bool, order: seq<AssetKey>): (r: Decision)
    requires forall i :: 0 <= i < |order| ==> order[i] in upstream
    ensures forall a :: a in r.shouldMaterialize ==> a in order
    ensures forall k :: k in r.newlyConsumed ==>
      r.newlyConsumed[k] != 0 && exists a :: a in r.shouldMaterialize && KeyString(a) == k
    decreases |order|
  {
    if order == [] then Decision({}, map[])
    else
      Decide(st, upstream, consumed, waitForAllUpstream, waitForInProgressRuns,
             Walk(st, upstream, consumed, waitForAllUpstream, waitForInProgressRuns, order[..|order| - 1]),
             order[|order| - 1])
  }

  /**
   * A set of monitored assets closed under the decision rule: an asset is in it exactly
   * when its parents' statuses, computed against the set itself, satisfy the rule.
   */
  ghost predicate IsDecisionSet(st: Store, upstream: UpstreamMap, consumed: map<string, int>, waitForAllUpstream: bool,
                                waitForInProgressRuns: bool, should: set<AssetKey>): (b: bool)
    ensures b ==> should <= upstream.Keys
    ensures upstream == map[] ==> (b <==> should == {})
  {
    && (forall a :: a in should ==> a in upstream)
    && (forall a {:trigger DecidedByRule(st, upstream, consumed, waitForAllUpstream, waitForInProgressRuns, should, a)} ::
          a in upstream ==> DecidedByRule(st, upstream, consumed, waitForAllUpstream, waitForInProgressRuns, should, a))
  }

  /** Asset `a` is in `should` exactly when its parents' statuses against `should` satisfy the rule. */
  ghost predicate DecidedByRule(st: Store, upstream: UpstreamMap, consumed: map<string, int>, waitForAllUpstream: bool,
                                waitForInProgressRuns: bool, should: set<AssetKey>, a: AssetKey)
    requires a in upstream
  {
    a in should <==> ShouldMaterialize(UpdatesFor(st, upstream, consumed, waitForInProgressRuns, a, should),
                                       waitForAllUpstream)
  }

  /**
   * The newly consumed storage ids: exactly the selected assets with a candidate get an
   * entry, keyed by their string form, holding the largest candidate.
   */
  ghost predicate IsCursorAdvance(st: Store, upstream: UpstreamMap, consumed: map<string, int>,
                                  waitForInProgressRuns: bool, should: set<AssetKey>, newly: map<string, int>): (b: bool)
    ensures b ==> forall k :: k in newly ==> newly[k] != 0
  {
    && (forall a :: a in upstream ==>
          (KeyString(a) in newly <==>
             a in should && CandidatesFor(st, upstream, consumed, waitForInProgressRuns, a, should) != {}))
    && (forall a :: a in upstream && KeyString(a) in newly ==>
          CandidatesFor(st, upstream, consumed, waitForInProgressRuns, a, should) != {} &&
          newly[KeyString(a)] == MaxOf(CandidatesFor(st, upstream, consumed, waitForInProgressRuns, a, should)))
    && (forall k :: k in newly ==> exists a :: a in should && a in upstream && KeyString(a) == k)
  }

  /** The parents' statuses depend on the will-materialize set only through which parents it holds. */
  lemma ParentUpdatesLocal(st: Store, current: AssetKey, parents: set<AssetKey>, cursor: Option<int>,
                           s1: set<AssetKey>, s2: set<AssetKey>, waitForInProgressRuns: bool)
    requires forall p :: p in parents ==> (p in s1 <==> p in s2)
    ensures ParentUpdates(st, current, parents, cursor, s1, waitForInProgressRuns)
         == ParentUpdates(st, current, parents, cursor, s2, waitForInProgressRuns)
  {
    assert InProgressShortCircuit(st, parents, s1, waitForInProgressRuns)
       == InProgressShortCircuit(st, parents, s2, waitForInProgressRuns);
    assert forall p :: p in parents ==>
      ParentStatusOf(st, current, p, cursor, s1) == ParentStatusOf(st, current, p, cursor, s2);
  }

  /**
   * Every cursor candidate is at least the asset's current cursor: a parent's candidate is
   * the storage id of a record found after that cursor, and the cursor itself is the other candidate.
   */
  lemma CandidatesNotBelowCursor(st: Store, current: AssetKey, parents: set<AssetKey>, cursor: Option<int>,
                                 willMaterialize: set<AssetKey>, waitForInProgressRuns: bool)
    ensures forall c :: c in CursorCandidates(ParentUpdates(st, current, parents, cursor, willMaterialize,
                                                            waitForInProgressRuns), cursor) ==>
      cursor.None? || c >= cursor.value
  {
    var u := ParentUpdates(st, current, parents, cursor, willMaterialize, waitForInProgressRuns);
    forall c | c in CursorCandidates(u, cursor) && cursor.Some?
      ensures c >= cursor.value
    {
      if !(Truthy(cursor) && c == cursor.value) {
        var p :| p in u && Truthy(u[p].cursorCandidate) && u[p].cursorCandidate.value == c;
        assert !InProgressShortCircuit(st, parents, willMaterialize, waitForInProgressRuns);
        assert u[p] == ParentStatusOf(st, current, p, cursor, willMaterialize);
        var rec := LatestMaterialization(st, p, cursor);
        assert rec.Some? && IsAfter(rec.value, cursor);
      }
    }
  }

  /**
   * A parent being materialized by a run in progress holds the asset back under either
   * rule, and leaves the asset's own cursor as its only possible cursor candidate.
   */
  lemma InFlightParentBlocks(st: Store, current: AssetKey, parents: set<AssetKey>, cursor: Option<int>,
                             willMaterialize: set<AssetKey>, waitForInProgressRuns: bool, waitForAllUpstream: bool)
    requires InProgressShortCircuit(st, parents, willMaterialize, waitForInProgressRuns)
    ensures var u := ParentUpdates(st, current, parents, cursor, willMaterialize, waitForInProgressRuns);
      && !ShouldMaterialize(u, waitForAllUpstream)
      && CursorCandidates(u, cursor) == (if Truthy(cursor) then {cursor.value} else {})
  {
    var u := ParentUpdates(st, current, parents, cursor, willMaterialize, waitForInProgressRuns);
    var p :| p in parents && p !in willMaterialize && MaterializationInFlight(st, p);
    assert p in u && !u[p].updated;
    assert forall q :: q in u ==> u[q] == ParentStatus(false, None);
  }

  /** An asset without parents is chosen under the `all` rule and never under the `any` rule. */
  lemma NoParentsDecision(st: Store, upstream: UpstreamMap, consumed: map<string, int>, waitForAllUpstream: bool,
                          waitForInProgressRuns: bool, should: set<AssetKey>, a: AssetKey)
    requires IsDecisionSet(st, upstream, consumed, waitForAllUpstream, waitForInProgressRuns, should)
    requires a in upstream && upstream[a] == {}
    ensures a in should <==> waitForAllUpstream
  {
    var u := UpdatesFor(st, upstream, consumed, waitForInProgressRuns, a, should);
    assert forall p :: p !in u;
    assert DecidedByRule(st, upstream, consumed, waitForAllUpstream, waitForInProgressRuns, should, a);
  }

  /** The elements of a walk order, as a set. */
  ghost function Elems(order: seq<AssetKey>): set<AssetKey> {
    set x | x in order
  }

  /** Every asset in `done` is decided by the rule, against `should` itself. */
  ghost predicate SelectionFacts(st: Store, upstream: UpstreamMap, consumed: map<string, int>, waitForAllUpstream: bool,
                                 waitForInProgressRuns: bool, done: set<AssetKey>, should: set<AssetKey>)
    requires done <= upstream.Keys
  {
    && should <= done
    && (forall a :: a in done ==>
          (a in should <==>
             ShouldMaterialize(UpdatesFor(st, upstream, consumed, waitForInProgressRuns, a, should), waitForAllUpstream)))
  }

  /** Every asset in `done` has the cursor entry the rule prescribes, and no other entry exists. */
  ghost predicate CursorFacts(st: Store, upstream: UpstreamMap, consumed: map<string, int>, waitForInProgressRuns: bool,
                              done: set<AssetKey>, should: set<AssetKey>, newly: map<string, int>)
    requires done <= upstream.Keys
  {
    && (forall a {:trigger CursorEntryRight(st, upstream, consumed, waitForInProgressRuns, should, newly, a)} ::
          a in done ==> CursorEntryRight(st, upstream, consumed, waitForInProgressRuns, should, newly, a))
    && (forall k :: k in newly ==> exists a :: a in should && a in upstream && KeyString(a) == k)
  }

  /** Asset `a` has a cursor entry exactly when it is chosen with a candidate, and the entry is the largest one. */
  ghost predicate CursorEntryRight(st: Store, upstream: UpstreamMap, consumed: map<string, int>,
                                   waitForInProgressRuns: bool, should: set<AssetKey>, newly: map<string, int>,
                                   a: AssetKey)
    requires a in upstream
  {
    var cands := CandidatesFor(st, upstream, consumed, waitForInProgressRuns, a, should);
    && (KeyString(a) in newly <==> a in should && cands != {})
    && (KeyString(a) in newly ==> cands != {} && newly[KeyString(a)] == MaxOf(cands))
  }

  /**
   * Deciding the last asset `a` of a parents-first order does not change what the earlier
   * assets see: `a` is not a parent of any of them, nor of itself.
   */
  lemma LastIsNobodysEarlierParent(order: seq<AssetKey>, upstream: UpstreamMap)
    requires ParentsFirst(order, upstream) && order != []
    ensures var a := order[|order| - 1];
      forall b :: b in order ==> a !in upstream[b]
  {
    var n := |order| - 1;
    var a := order[n];
    forall b | b in order ensures a !in upstream[b] {
      var i :| 0 <= i < |order| && order[i] == b;
      assert forall j :: 0 <= j < i ==> order[j] != a;
      assert a !in order[..i];
    }
  }

  lemma ParentsFirstPrefix(order: seq<AssetKey>, upstream: UpstreamMap)
    requires ParentsFirst(order, upstream) && order != []
    ensures ParentsFirst(order[..|order| - 1], upstream)
    ensures Elems(order) == Elems(order[..|order| - 1]) + {order[|order| - 1]}
    ensures order[|order| - 1] !in Elems(order[..|order| - 1])
  {
    var pre := order[..|order| - 1];
    forall i | 0 <= i < |pre| ensures pre[..i] == order[..i] {
    }
    assert order == pre + [order[|order| - 1]];
  }

  /** After deciding `a`, which is no one's parent among `done + {a}`, the earlier statuses are unchanged. */
  lemma StepKeepsUpdates(st: Store, upstream: UpstreamMap, consumed: map<string, int>, waitForAllUpstream: bool,
                         waitForInProgressRuns: bool, done: set<AssetKey>, a: AssetKey, d0: Decision)
    requires done <= upstream.Keys && a in upstream
    requires a !in d0.shouldMaterialize
    requires forall b :: b in done + {a} ==> a !in upstream[b]
    ensures var d := Decide(st, upstream, consumed, waitForAllUpstream, waitForInProgressRuns, d0, a);
      forall b :: b in done + {a} ==>
        UpdatesFor(st, upstream, consumed, waitForInProgressRuns, b, d.shouldMaterialize)
        == UpdatesFor(st, upstream, consumed, waitForInProgressRuns, b, d0.shouldMaterialize)
  {
    var d := Decide(st, upstream, consumed, waitForAllUpstream, waitForInProgressRuns, d0, a);
    forall b | b in done + {a}
      ensures UpdatesFor(st, upstream, consumed, waitForInProgressRuns, b, d.shouldMaterialize)
           == UpdatesFor(st, upstream, consumed, waitForInProgressRuns, b, d0.shouldMaterialize)
    {
      ParentUpdatesLocal(st, b, upstream[b], CursorOf(consumed, b), d.shouldMaterialize, d0.shouldMaterialize,
                         waitForInProgressRuns);
    }
  }

  lemma SelectionStep(st: Store, upstream: UpstreamMap, consumed: map<string, int>, waitForAllUpstream: bool,
                      waitForInProgressRuns: bool, done: set<AssetKey>, a: AssetKey, d0: Decision)
    requires done <= upstream.Keys && a in upstream && a !in done
    requires SelectionFacts(st, upstream, consumed, waitForAllUpstream, waitForInProgressRuns, done, d0.shouldMaterialize)
    requires var d := Decide(st, upstream, consumed, waitForAllUpstream, waitForInProgressRuns, d0, a);
      forall b :: b in done + {a} ==>
        UpdatesFor(st, upstream, consumed, waitForInProgressRuns, b, d.shouldMaterialize)
        == UpdatesFor(st, upstream, consumed, waitForInProgressRuns, b, d0.shouldMaterialize)
    ensures SelectionFacts(st, upstream, consumed, waitForAllUpstream, waitForInProgressRuns, done + {a},
                           Decide(st, upstream, consumed, waitForAllUpstream, waitForInProgressRuns, d0, a).shouldMaterialize)
  {
  }

  lemma CursorStep(st: Store, upstream: UpstreamMap, consumed: map<string, int>, waitForAllUpstream: bool,
                   waitForInProgressRuns: bool, done: set<AssetKey>, a: AssetKey, d0: Decision)
    requires done <= upstream.Keys && a in upstream && a !in done
    requires d0.shouldMaterialize <= done
    requires CursorFacts(st, upstream, consumed, waitForInProgressRuns, done, d0.shouldMaterialize, d0.newlyConsumed)
    requires var d := Decide(st, upstream, consumed, waitForAllUpstream, waitForInProgressRuns, d0, a);
      forall b :: b in done + {a} ==>
        UpdatesFor(st, upstream, consumed, waitForInProgressRuns, b, d.shouldMaterialize)
        == UpdatesFor(st, upstream, consumed, waitForInProgressRuns, b, d0.shouldMaterialize)
    ensures var d := Decide(st, upstream, consumed, waitForAllUpstream, waitForInProgressRuns, d0, a);
      CursorFacts(st, upstream, consumed, waitForInProgressRuns, done + {a}, d.shouldMaterialize, d.newlyConsumed)
  {
    var d := Decide(st, upstream, consumed, waitForAllUpstream, waitForInProgressRuns, d0, a);
    NoEntryBeforeDecided(st, upstream, consumed, waitForInProgressRuns, done, d0.shouldMaterialize, d0.newlyConsumed, a);
    var u := UpdatesFor(st, upstream, consumed, waitForInProgressRuns, a, d0.shouldMaterialize);
    var cands := CursorCandidates(u, CursorOf(consumed, a));
    assert CandidatesFor(st, upstream, consumed, waitForInProgressRuns, a, d.shouldMaterialize) == cands;
    forall b | b in done
      ensures CursorEntryRight(st, upstream, consumed, waitForInProgressRuns, d.shouldMaterialize, d.newlyConsumed, b)
    {
      KeyStringInjective(a, b);
      assert CursorEntryRight(st, upstream, consumed, waitForInProgressRuns, d0.shouldMaterialize, d0.newlyConsumed, b);
      assert CandidatesFor(st, upstream, consumed, waitForInProgressRuns, b, d.shouldMaterialize)
          == CandidatesFor(st, upstream, consumed, waitForInProgressRuns, b, d0.shouldMaterialize);
      assert (KeyString(b) in d.newlyConsumed) == (KeyString(b) in d0.newlyConsumed);
    }
    assert CursorEntryRight(st, upstream, consumed, waitForInProgressRuns, d.shouldMaterialize, d.newlyConsumed, a);
    forall k | k in d.newlyConsumed
      ensures exists b :: b in d.shouldMaterialize && b in upstream && KeyString(b) == k
    {
      if k == KeyString(a) {
        assert a in d.shouldMaterialize;
      } else {
        assert k in d0.newlyConsumed;
      }
    }
  }

  /** An asset not yet decided has no cursor entry: every entry belongs to a chosen asset. */
  lemma NoEntryBeforeDecided(st: Store, upstream: UpstreamMap, consumed: map<string, int>, waitForInProgressRuns: bool,
                             done: set<AssetKey>, should: set<AssetKey>, newly: map<string, int>, a: AssetKey)
    requires done <= upstream.Keys && should <= done && a !in done
    requires CursorFacts(st, upstream, consumed, waitForInProgressRuns, done, should, newly)
    ensures KeyString(a) !in newly
  {
    forall b | b in should ensures KeyString(b) != KeyString(a) {
      KeyStringInjective(a, b);
    }
  }

  lemma {:induction false} WalkFacts(st: Store, upstream: UpstreamMap, consumed: map<string, int>,
                                     waitForAllUpstream: bool, waitForInProgressRuns: bool, order: seq<AssetKey>)
    requires ParentsFirst(order, upstream)
    ensures Elems(order) <= upstream.Keys
    ensures var d := Walk(st, upstream, consumed, waitForAllUpstream, waitForInProgressRuns, order);
      && SelectionFacts(st, upstream, consumed, waitForAllUpstream, waitForInProgressRuns, Elems(order), d.shouldMaterialize)
      && CursorFacts(st, upstream, consumed, waitForInProgressRuns, Elems(order), d.shouldMaterialize, d.newlyConsumed)
    decreases |order|
  {
    if order == [] {
      assert Elems(order) == {};
    } else {
      var pre := order[..|order| - 1];
      var a := order[|order| - 1];
      ParentsFirstPrefix(order, upstream);
      WalkFacts(st, upstream, consumed, waitForAllUpstream, waitForInProgressRuns, pre);
      LastIsNobodysEarlierParent(order, upstream);
      var d0 := Walk(st, upstream, consumed, waitForAllUpstream, waitForInProgressRuns, pre);
      StepKeepsUpdates(st, upstream, consumed, waitForAllUpstream, waitForInProgressRuns, Elems(pre), a, d0);
      SelectionStep(st, upstream, consumed, waitForAllUpstream, waitForInProgressRuns, Elems(pre), a, d0);
      CursorStep(st, upstream, consumed, waitForAllUpstream, waitForInProgressRuns, Elems(pre), a, d0);
    }
  }

  /** The cursor advance, checked asset by asset. */
  lemma CursorAdvanceFromEntries(st: Store, upstream: UpstreamMap, consumed: map<string, int>,
                                 waitForInProgressRuns: bool, should: set<AssetKey>, newly: map<string, int>)
    requires forall a {:trigger CursorEntryRight(st, upstream, consumed, waitForInProgressRuns, should, newly, a)} ::
      a in upstream ==> CursorEntryRight(st, upstream, consumed, waitForInProgressRuns, should, newly, a)
    requires forall k :: k in newly ==> exists a :: a in should && a in upstream && KeyString(a) == k
    ensures IsCursorAdvance(st, upstream, consumed, waitForInProgressRuns, should, newly)
  {
    forall a | a in upstream
      ensures CursorEntryRight(st, upstream, consumed, waitForInProgressRuns, should, newly, a)
    {
    }
  }

  /** The chosen set only grows along the walk: a longer prefix chooses everything a shorter one did. */
  lemma {:induction false} WalkGrows(st: Store, upstream: UpstreamMap, consumed: map<string, int>,
                                     waitForAllUpstream: bool, waitForInProgressRuns: bool, order: seq<AssetKey>, i: nat)
    requires forall j :: 0 <= j < |order| ==> order[j] in upstream
    requires i <= |order|
    ensures Walk(st, upstream, consumed, waitForAllUpstream, waitForInProgressRuns, order[..i]).shouldMaterialize
         <= Walk(st, upstream, consumed, waitForAllUpstream, waitForInProgressRuns, order).shouldMaterialize
    decreases |order|
  {
    if i < |order| {
      var pre := order[..|order| - 1];
      assert pre[..i] == order[..i];
      WalkGrows(st, upstream, consumed, waitForAllUpstream, waitForInProgressRuns, pre, i);
    } else {
      assert order[..i] == order;
    }
  }

  /** Over a full parents-first order the walk yields a decision set and its cursor advance. */
  lemma WalkDecides(st: Store, upstream: UpstreamMap, consumed: map<string, int>, waitForAllUpstream: bool,
                    waitForInProgressRuns: bool, order: seq<AssetKey>)
    requires IsTopologicalOrder(order, upstream)
    ensures var d := Walk(st, upstream, consumed, waitForAllUpstream, waitForInProgressRuns, order);
      && IsDecisionSet(st, upstream, consumed, waitForAllUpstream, waitForInProgressRuns, d.shouldMaterialize)
      && IsCursorAdvance(st, upstream, consumed, waitForInProgressRuns, d.shouldMaterialize, d.newlyConsumed)
  {
    WalkFacts(st, upstream, consumed, waitForAllUpstream, waitForInProgressRuns, order);
    assert Elems(order) == upstream.Keys;
    var d := Walk(st, upstream, consumed, waitForAllUpstream, waitForInProgressRuns, order);
    forall a | a in upstream
      ensures DecidedByRule(st, upstream, consumed, waitForAllUpstream, waitForInProgressRuns, d.shouldMaterialize, a)
      ensures CursorEntryRight(st, upstream, consumed, waitForInProgressRuns, d.shouldMaterialize, d.newlyConsumed, a)
    {
    }
  }

  /** Two decision sets that agree on the parents of the `k`-th asset of a walk order agree on that asset. */
  lemma AgreeAtIndex(st: Store, upstream: UpstreamMap, consumed: map<string, int>, waitForAllUpstream: bool,
                     waitForInProgressRuns: bool, order: seq<AssetKey>, k: nat, s1: set<AssetKey>, s2: set<AssetKey>)
    requires ParentsFirst(order, upstream) && k < |order|
    requires IsDecisionSet(st, upstream, consumed, waitForAllUpstream, waitForInProgressRuns, s1)
    requires IsDecisionSet(st, upstream, consumed, waitForAllUpstream, waitForInProgressRuns, s2)
    requires forall j :: 0 <= j < k ==> (order[j] in s1 <==> order[j] in s2)
    ensures order[k] in s1 <==> order[k] in s2
  {
    var a := order[k];
    forall p | p in upstream[a] ensures p in s1 <==> p in s2 {
      if p in upstream {
        assert p in order[..k];
      }
    }
    ParentUpdatesLocal(st, a, upstream[a], CursorOf(consumed, a), s1, s2, waitForInProgressRuns);
    assert DecidedByRule(st, upstream, consumed, waitForAllUpstream, waitForInProgressRuns, s1, a);
    assert DecidedByRule(st, upstream, consumed, waitForAllUpstream, waitForInProgressRuns, s2, a);
  }

  /**
   * On an acyclic upstream map there is only one decision set, so the assets a tick
   * materializes do not depend on the order in which the walk visits them.
   */
  lemma DecisionSetUnique(st: Store, upstream: UpstreamMap, consumed: map<string, int>, waitForAllUpstream: bool,
                          waitForInProgressRuns: bool, s1: set<AssetKey>, s2: set<AssetKey>)
    requires Acyclic(upstream)
    requires IsDecisionSet(st, upstream, consumed, waitForAllUpstream, waitForInProgressRuns, s1)
    requires IsDecisionSet(st, upstream, consumed, waitForAllUpstream, waitForInProgressRuns, s2)
    ensures s1 == s2
  {
    var order :| IsTopologicalOrder(order, upstream);
    AgreeUpTo(st, upstream, consumed, waitForAllUpstream, waitForInProgressRuns, order, |order|, s1, s2);
    forall a | a in s1 + s2 ensures a in s1 <==> a in s2 {
      assert a in order;
    }
  }

  lemma {:induction false} AgreeUpTo(st: Store, upstream: UpstreamMap, consumed: map<string, int>,
                                     waitForAllUpstream: bool, waitForInProgressRuns: bool, order: seq<AssetKey>,
                                     k: nat, s1: set<AssetKey>, s2: set<AssetKey>)
    requires ParentsFirst(order, upstream) && k <= |order|
    requires IsDecisionSet(st, upstream, consumed, waitForAllUpstream, waitForInProgressRuns, s1)
    requires IsDecisionSet(st, upstream, consumed, waitForAllUpstream, waitForInProgressRuns, s2)
    ensures forall j :: 0 <= j < k ==> (order[j] in s1 <==> order[j] in s2)
  {
    if k > 0 {
      AgreeUpTo(st, upstream, consumed, waitForAllUpstream, waitForInProgressRuns, order, k - 1, s1, s2);
      AgreeAtIndex(st, upstream, consumed, waitForAllUpstream, waitForInProgressRuns, order, k - 1, s1, s2);
      forall j | 0 <= j < k ensures order[j] in s1 <==> order[j] in s2 {
        if j < k - 1 {
        }
      }
    }
  }

  /** The cursor advance writes nothing below an asset's previous cursor value. */
  lemma CursorAdvanceNotBelow(st: Store, upstream: UpstreamMap, consumed: map<string, int>,
                              waitForInProgressRuns: bool, should: set<AssetKey>, newly: map<string, int>)
    requires IsCursorAdvance(st, upstream, consumed, waitForInProgressRuns, should, newly)
    ensures forall k :: k in consumed && k in newly ==> newly[k] >= consumed[k]
  {
    forall k | k in consumed && k in newly ensures newly[k] >= consumed[k] {
      var a :| a in should && a in upstream && KeyString(a) == k;
      var cands := CandidatesFor(st, upstream, consumed, waitForInProgressRuns, a, should);
      CandidatesNotBelowCursor(st, a, upstream[a], CursorOf(consumed, a), should, waitForInProgressRuns);
      assert MaxOf(cands) in cands;
    }
  }

  /** An asset the tick does not choose gets no new entry, so its stored cursor value survives the merge. */
  lemma UnchosenKeepsCursor(st: Store, upstream: UpstreamMap, consumed: map<string, int>,
                            waitForInProgressRuns: bool, should: set<AssetKey>, newly: map<string, int>, a: AssetKey)
    requires IsCursorAdvance(st, upstream, consumed, waitForInProgressRuns, should, newly)
    requires a in upstream && a !in should
    ensures KeyString(a) !in newly
    ensures CursorOf(consumed + newly, a) == CursorOf(consumed, a)
  {
  }

  /**
   * A tick in which no parent of any monitored asset has a record after that asset's
   * cursor selects nothing and writes no cursor, provided the `all` rule is not applied to
   * an asset without parents (which the rule always selects).
   */
  lemma QuietTickSelectsNothing(st: Store, upstream: UpstreamMap, consumed: map<string, int>, waitForAllUpstream: bool,
                                waitForInProgressRuns: bool, should: set<AssetKey>, newly: map<string, int>)
    requires Acyclic(upstream)
    requires forall a, p :: a in upstream && p in upstream[a] ==> LatestMaterialization(st, p, CursorOf(consumed, a)).None?
    requires waitForAllUpstream ==> forall a :: a in upstream ==> upstream[a] != {}
    requires IsDecisionSet(st, upstream, consumed, waitForAllUpstream, waitForInProgressRuns, should)
    requires IsCursorAdvance(st, upstream, consumed, waitForInProgressRuns, should, newly)
    ensures should == {} && newly == map[]
  {
    forall a | a in upstream
      ensures !ShouldMaterialize(UpdatesFor(st, upstream, consumed, waitForInProgressRuns, a, {}), waitForAllUpstream)
    {
      var u := UpdatesFor(st, upstream, consumed, waitForInProgressRuns, a, {});
      assert forall p :: p in u ==> !u[p].updated;
      if waitForAllUpstream {
        var p :| p in upstream[a];
        assert p in u;
      }
    }
    assert IsDecisionSet(st, upstream, consumed, waitForAllUpstream, waitForInProgressRuns, {});
    DecisionSetUnique(st, upstream, consumed, waitForAllUpstream, waitForInProgressRuns, should, {});
    assert forall k :: k !in newly;
  }
}
