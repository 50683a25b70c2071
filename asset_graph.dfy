/**
 * The asset graph as the reconciliation sensor uses it: each monitored asset's one-hop
 * parents, and an order of the monitored assets in which parents come first.
 */
module AssetGraph {
  import opened Wrappers
  import opened AssetKeys

  /**
   * The direct dependencies of every defined and source asset, as the repository's asset
   * graph resolves them. Resolving `upstream(depth=1)` of one key yields the key itself and these.
   */
  datatype DependencyGraph = DependencyGraph(parents: map<AssetKey, set<AssetKey>>)

  /** Each monitored asset mapped to its parents. */
  type UpstreamMap = map<AssetKey, set<AssetKey>>

  datatype CycleError = CircularDependency

  /** The depth-one upstream selection of `a`, resolved against all defined and source assets. */
  function UpstreamDepthOne(g: DependencyGraph, a: AssetKey): (r: set<AssetKey>)
    ensures a in r
  {
    {a} + (if a in g.parents then g.parents[a] else {})
  }

  /**
   * The upstream map: every resolved monitored key gets an entry, holding its one-hop
   * parents among all assets (not only monitored ones) without the key itself.
   */
  function UpstreamMapping(selectionResolved: set<AssetKey>, g: DependencyGraph): (upstream: UpstreamMap)
    ensures upstream.Keys == selectionResolved
    ensures forall a :: a in upstream ==> a !in upstream[a]
    ensures forall a, p :: a in upstream && p != a ==>
      (p in upstream[a] <==> a in g.parents && p in g.parents[a])
  {
    map a | a in selectionResolved :: UpstreamDepthOne(g, a) - {a}
  }

  lemma UpstreamMappingPointwise(upstream: UpstreamMap, selectionResolved: set<AssetKey>, g: DependencyGraph)
    requires forall a :: a in upstream <==> a in selectionResolved
    requires forall a :: a in upstream ==> upstream[a] == UpstreamDepthOne(g, a) - {a}
    ensures upstream == UpstreamMapping(selectionResolved, g)
  {
  }

  /** Fills the upstream map one resolved key at a time, in whatever order the selection yields them. */
  method GetUpstreamMapping(selectionResolved: set<AssetKey>, g: DependencyGraph) returns (upstream: UpstreamMap)
    ensures upstream == UpstreamMapping(selectionResolved, g)
  {
    upstream := map[];
    var todo := selectionResolved;
    while todo != {}
      invariant todo <= selectionResolved
      invariant forall a :: a in upstream <==> a in selectionResolved && a !in todo
      invariant forall a :: a in upstream ==> upstream[a] == UpstreamDepthOne(g, a) - {a}
      decreases |todo|
    {
      var a :| a in todo;
      var aParents := UpstreamDepthOne(g, a);
      upstream := upstream[a := aParents - {a}];
      todo := todo - {a};
    }
    UpstreamMappingPointwise(upstream, selectionResolved, g);
  }

  ghost predicate NoDuplicates(order: seq<AssetKey>) {
    forall i, j :: 0 <= i < j < |order| ==> order[i] != order[j]
  }

  /** A sequence of distinct monitored assets in which every monitored parent of an asset comes before it. */
  ghost predicate ParentsFirst(order: seq<AssetKey>, upstream: UpstreamMap) {
    && NoDuplicates(order)
    && (forall i :: 0 <= i < |order| ==> order[i] in upstream)
    && (forall i, p :: 0 <= i < |order| && p in upstream[order[i]] && p in upstream ==> p in order[..i])
  }

  /** A walk order: exactly the monitored assets, each once, parents first. */
  ghost predicate IsTopologicalOrder(order: seq<AssetKey>, upstream: UpstreamMap) {
    ParentsFirst(order, upstream) && forall a :: a in upstream ==> a in order
  }

  ghost predicate Acyclic(upstream: UpstreamMap) {
    exists order :: IsTopologicalOrder(order, upstream)
  }

  /** The position of the first element of `order` that lies in `s`. */
  ghost function FirstIndexIn(order: seq<AssetKey>, s: set<AssetKey>): (i: nat)
    requires exists k :: 0 <= k < |order| && order[k] in s
    ensures i < |order| && order[i] in s
    ensures forall j :: 0 <= j < i ==> order[j] !in s
  {
    if order[0] in s then 0
    else
      assert exists k :: 0 <= k < |order[1..]| && order[1..][k] in s by {
        var k :| 0 <= k < |order| && order[k] in s;
        assert order[1..][k - 1] == order[k];
      }
      1 + FirstIndexIn(order[1..], s)
  }

  /**
   * If every remaining asset still has a remaining parent, no topological order exists:
   * the first remaining asset of such an order would have its parent before it.
   */
  lemma NoOrderWhenStuck(upstream: UpstreamMap, remaining: set<AssetKey>, order: seq<AssetKey>)
    requires remaining <= upstream.Keys && remaining != {}
    requires forall a :: a in remaining ==> upstream[a] * remaining != {}
    ensures !IsTopologicalOrder(order, upstream)
  {
    if (forall i :: 0 <= i < |order| ==> order[i] in upstream) && (forall a :: a in upstream ==> a in order) {
      var a0 :| a0 in remaining;
      assert a0 in order;
      var i := FirstIndexIn(order, remaining);
      var p :| p in upstream[order[i]] * remaining;
      assert p !in order[..i];
    }
  }

  /** Appending an asset none of whose monitored parents is still waiting keeps parents first. */
  lemma AppendReady(order: seq<AssetKey>, upstream: UpstreamMap, remaining: set<AssetKey>, a: AssetKey)
    requires ParentsFirst(order, upstream)
    requires remaining <= upstream.Keys
    requires forall b :: b in upstream ==> (b in order <==> b !in remaining)
    requires a in remaining && upstream[a] * remaining == {}
    ensures ParentsFirst(order + [a], upstream)
  {
    var o := order + [a];
    assert o[..|order|] == order;
    forall i, p | 0 <= i < |o| && p in upstream[o[i]] && p in upstream
      ensures p in o[..i]
    {
      if i < |order| {
        assert o[..i] == order[..i];
      } else {
        assert o[i] == a && o[..i] == order;
        assert p !in upstream[a] * remaining;
        assert p !in remaining;
      }
    }
  }

  /**
   * Orders the monitored assets parents first by repeatedly taking an asset none of whose
   * monitored parents is still waiting; fails when the upstream map has a cycle.
   */
  method TopologicalOrder(upstream: UpstreamMap) returns (r: Result<seq<AssetKey>, CycleError>)
    ensures r.Ok? ==> IsTopologicalOrder(r.value, upstream)
    ensures r.Err? <==> !Acyclic(upstream)
  {
    var order: seq<AssetKey> := [];
    var remaining := upstream.Keys;
    while remaining != {}
      invariant ParentsFirst(order, upstream)
      invariant remaining <= upstream.Keys
      invariant forall a :: a in upstream ==> (a in order <==> a !in remaining)
      decreases |remaining|
    {
      var ready := set a | a in remaining && upstream[a] * remaining == {};
      if ready == {} {
        forall a | a in remaining ensures upstream[a] * remaining != {} {
          assert a !in ready;
        }
        forall o | true ensures !IsTopologicalOrder(o, upstream) {
          NoOrderWhenStuck(upstream, remaining, o);
        }
        return Err(CircularDependency);
      }
      var a :| a in ready;
      AppendReady(order, upstream, remaining, a);
      order := order + [a];
      remaining := remaining - {a};
    }
    assert IsTopologicalOrder(order, upstream);
    return Ok(order);
  }
}
