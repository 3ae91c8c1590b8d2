/**
 Kahn layering of a dependency graph, and what it decides.

 A graph is a list of dependency sets: `g[i]` holds the nodes that node `i` waits for.
 */
module Graphs {
  import opened Basics

  type Graph = seq<set<nat>>

  ghost predicate WellFormed(g: Graph) {
    forall i :: 0 <= i < |g| ==> g[i] <= Below(|g|)
  }

  predicate Increasing(s: seq<nat>) {
    forall a, b :: 0 <= a < b < |s| ==> s[a] < s[b]
  }

  predicate IsReady(g: Graph, done: set<nat>, x: nat) {
    x < |g| && x !in done && g[x] <= done
  }

  /** The nodes from `i` on, in declaration order, that are not done and wait for done nodes only. */
  function ReadyFrom(g: Graph, done: set<nat>, i: nat): (ready: seq<nat>)
    requires i <= |g|
    ensures forall x: nat {:trigger IsReady(g, done, x)} :: x in ready <==> i <= x && IsReady(g, done, x)
    ensures Increasing(ready) && forall b :: 0 <= b < |ready| ==> i <= ready[b]
    decreases |g| - i
  {
    if i == |g| then []
    else
      var rest := ReadyFrom(g, done, i + 1);
      assert forall x: nat :: x in [i] + rest <==> x == i || x in rest;
      if IsReady(g, done, i) then [i] + rest else rest
  }

  function Ready(g: Graph, done: set<nat>): (ready: seq<nat>)
    ensures forall x: nat {:trigger IsReady(g, done, x)} :: x in ready <==> IsReady(g, done, x)
    ensures Increasing(ready)
  {
    ReadyFrom(g, done, 0)
  }

  function Elements(s: seq<nat>): (r: set<nat>) {
    set x | x in s
  }

  /** The batches still to come when the nodes of `done` have been placed; None when it gets stuck. */
  function Kahn(g: Graph, done: set<nat>): (r: Option<seq<seq<nat>>>)
    decreases Below(|g|) - done
  {
    if Below(|g|) <= done then Some([])
    else
      var ready := Ready(g, done);
      if ready == [] then None
      else
        assert ready[0] in ready && IsReady(g, done, ready[0]) && ready[0] in Below(|g|) - done;
        match Kahn(g, done + Elements(ready))
        case None => None
        case Some(rest) => Some([ready] + rest)
  }

  /** The nodes placed in the first `k` layers. */
  function Placed(layers: seq<seq<nat>>, k: nat): (s: set<nat>)
    requires k <= |layers|
  {
    if k == 0 then {} else Placed(layers, k - 1) + Elements(layers[k - 1])
  }

  lemma {:induction false} PlacedMonotone(layers: seq<seq<nat>>, j: nat, k: nat)
    requires j <= k <= |layers|
    ensures Placed(layers, j) <= Placed(layers, k)
    decreases k - j
  {
    if j < k {
      PlacedMonotone(layers, j, k - 1);
    }
  }

  lemma {:induction false} PlacedWhere(layers: seq<seq<nat>>, k: nat, x: nat) returns (m: nat)
    requires k <= |layers| && x in Placed(layers, k)
    ensures m < k && x in layers[m]
  {
    if x in layers[k - 1] {
      m := k - 1;
    } else {
      m := PlacedWhere(layers, k - 1, x);
    }
  }

  /** Every one of `n` nodes sits in exactly one layer, and each layer lists its nodes in order. */
  ghost predicate IsPartition(layers: seq<seq<nat>>, n: nat) {
    && Placed(layers, |layers|) == Below(n)
    && forall k: nat {:trigger LayerAdds(layers, k)} :: k < |layers| ==> LayerAdds(layers, k)
  }

  /** Layer `k` is a nonempty ascending list of nodes that no earlier layer holds. */
  ghost predicate LayerAdds(layers: seq<seq<nat>>, k: nat)
    requires k < |layers|
  {
    layers[k] != [] && Increasing(layers[k]) && Elements(layers[k]) !! Placed(layers, k)
  }

  /**
   Node `x` sits in layer `k` exactly as its dependencies dictate: all of them in earlier layers and,
   unless `k` is the first layer, one of them in the layer just before.
   */
  ghost predicate AtLevel(g: Graph, layers: seq<seq<nat>>, k: nat, x: nat)
    requires k < |layers|
  {
    && x < |g|
    && g[x] <= Placed(layers, k)
    && (k > 0 ==> exists d: nat :: d in g[x] && d in layers[k - 1])
  }

  ghost predicate IsLayering(g: Graph, layers: seq<seq<nat>>) {
    && IsPartition(layers, |g|)
    && forall k: nat, x: nat {:trigger AtLevel(g, layers, k, x)} ::
         k < |layers| && x in layers[k] ==> AtLevel(g, layers, k, x)
  }

  /** Each layer is exactly what was ready when the layers before it were done. */
  ghost predicate Greedy(g: Graph, done: set<nat>, layers: seq<seq<nat>>) {
    && (forall k: nat {:trigger GreedyAt(g, done, layers, k)} :: k < |layers| ==> GreedyAt(g, done, layers, k))
    && Below(|g|) <= done + Placed(layers, |layers|)
  }

  ghost predicate GreedyAt(g: Graph, done: set<nat>, layers: seq<seq<nat>>, k: nat)
    requires k < |layers|
  {
    layers[k] == Ready(g, done + Placed(layers, k)) && layers[k] != []
  }

  lemma {:induction false} PlacedShift(first: seq<nat>, rest: seq<seq<nat>>, k: nat)
    requires k <= |rest|
    ensures Placed([first] + rest, k + 1) == Elements(first) + Placed(rest, k)
  {
    var all := [first] + rest;
    if k == 0 {
      assert Placed(all, 1) == Placed(all, 0) + Elements(all[0]);
    } else {
      PlacedShift(first, rest, k - 1);
      assert all[k] == rest[k - 1];
    }
  }

  lemma {:induction false} KahnIsGreedy(g: Graph, done: set<nat>)
    requires Kahn(g, done).Some?
    ensures Greedy(g, done, Kahn(g, done).value)
    decreases Below(|g|) - done
  {
    if !(Below(|g|) <= done) {
      var ready := Ready(g, done);
      assert ready[0] in ready && IsReady(g, done, ready[0]) && ready[0] in Below(|g|) - done;
      var next := done + Elements(ready);
      KahnIsGreedy(g, next);
      var rest := Kahn(g, next).value;
      GreedyCons(g, done, ready, rest);
    }
  }

  lemma GreedyConsAt(g: Graph, done: set<nat>, first: seq<nat>, rest: seq<seq<nat>>, k: nat)
    requires k <= |rest|
    ensures done + Placed([first] + rest, k + 1) == done + Elements(first) + Placed(rest, k)
  {
    PlacedShift(first, rest, k);
  }

  lemma GreedyCons(g: Graph, done: set<nat>, first: seq<nat>, rest: seq<seq<nat>>)
    requires first == Ready(g, done) && first != []
    requires Greedy(g, done + Elements(first), rest)
    ensures Greedy(g, done, [first] + rest)
  {
    var all := [first] + rest;
    forall k: nat | k < |all|
      ensures GreedyAt(g, done, all, k)
    {
      if k == 0 {
        assert done + Placed(all, 0) == done;
      } else {
        GreedyConsAt(g, done, first, rest, k - 1);
        assert GreedyAt(g, done + Elements(first), rest, k - 1);
      }
    }
    GreedyConsAt(g, done, first, rest, |rest|);
  }

  /** Success of Kahn's algorithm gives a layering. */
  lemma KahnLayers(g: Graph)
    requires Kahn(g, {}).Some?
    ensures IsLayering(g, Kahn(g, {}).value)
  {
    KahnIsGreedy(g, {});
    var layers := Kahn(g, {}).value;
    forall k: nat | k < |layers|
      ensures layers[k] == Ready(g, Placed(layers, k)) && layers[k] != []
    {
      assert GreedyAt(g, {}, layers, k);
      assert {} + Placed(layers, k) == Placed(layers, k);
    }
    forall k: nat, x: nat | k < |layers| && x in layers[k]
      ensures AtLevel(g, layers, k, x)
    {
      assert layers[k] == Ready(g, Placed(layers, k));
      assert IsReady(g, Placed(layers, k), x);
      if k > 0 {
        // x was not ready one round earlier, so something it waits for came in that round
        assert layers[k - 1] == Ready(g, Placed(layers, k - 1));
        assert !IsReady(g, Placed(layers, k - 1), x);
        assert x !in Placed(layers, k - 1);
        var d: nat :| d in g[x] && d !in Placed(layers, k - 1);
        assert d in Placed(layers, k);
        assert d in layers[k - 1];
      }
    }
    forall k: nat | k < |layers|
      ensures LayerAdds(layers, k)
    {
      assert forall x: nat :: x in layers[k] ==> IsReady(g, Placed(layers, k), x);
    }
    forall x: nat | x in Placed(layers, |layers|)
      ensures x < |g|
    {
      var m := PlacedWhere(layers, |layers|, x);
      assert AtLevel(g, layers, m, x);
    }
    assert Placed(layers, |layers|) == Below(|g|) by {
      assert {} + Placed(layers, |layers|) == Placed(layers, |layers|);
    }
  }

  // ---------- cycles ----------

  /** Each node of `w` waits for the next one. */
  ghost predicate IsWalk(g: Graph, w: seq<nat>) {
    && (forall k :: 0 <= k < |w| ==> w[k] < |g|)
    && (forall j, k :: 0 <= j < |w| && k == j + 1 && k < |w| ==> w[k] in g[w[j]])
  }

  /** Some node waits, directly or through others, for itself. */
  ghost predicate HasCycle(g: Graph) {
    exists w: seq<nat> :: IsWalk(g, w) && |w| >= 2 && w[0] == w[|w| - 1]
  }

  /** `rank` grows along dependencies. */
  ghost predicate Ranks(g: Graph, rank: seq<nat>) {
    && |rank| == |g|
    && forall i: nat, d: nat :: i < |g| && d in g[i] ==> Precedes(rank, d, i)
  }

  predicate Precedes(rank: seq<nat>, d: nat, i: nat) {
    d < |rank| && i < |rank| && rank[d] < rank[i]
  }

  lemma {:induction false} RankDropsAlongWalk(g: Graph, rank: seq<nat>, w: seq<nat>)
    requires Ranks(g, rank) && IsWalk(g, w) && |w| >= 2
    ensures rank[w[|w| - 1]] < rank[w[0]]
  {
    assert w[1] in g[w[0]];
    if |w| > 2 {
      RankDropsAlongWalk(g, rank, w[1..]);
    }
  }

  lemma RankedHasNoCycle(g: Graph, rank: seq<nat>)
    requires Ranks(g, rank)
    ensures !HasCycle(g)
  {
    if HasCycle(g) {
      var w: seq<nat> :| IsWalk(g, w) && |w| >= 2 && w[0] == w[|w| - 1];
      RankDropsAlongWalk(g, rank, w);
    }
  }

  /** Every node of `stuck` waits for another node of `stuck`. */
  ghost predicate Deadlocked(g: Graph, stuck: set<nat>) {
    && stuck <= Below(|g|)
    && forall x: nat :: x in stuck ==> x < |g| && !(g[x] !! stuck)
  }

  /** A walk of any length exists among deadlocked nodes. */
  lemma {:induction false} WalkInside(g: Graph, stuck: set<nat>, start: nat, len: nat) returns (w: seq<nat>)
    requires start in stuck && Deadlocked(g, stuck)
    ensures |w| == len + 1 && w[0] == start
    ensures IsWalk(g, w)
    decreases len
  {
    if len == 0 {
      w := [start];
    } else {
      var d: nat :| d in g[start] && d in stuck;
      var tail := WalkInside(g, stuck, d, len - 1);
      w := [start] + tail;
      assert forall k :: 0 < k < |w| ==> w[k] == tail[k - 1];
    }
  }

  /** If every remaining node waits for a remaining node, there is a cycle. */
  lemma StuckMeansCycle(g: Graph, done: set<nat>)
    requires WellFormed(g)
    requires !(Below(|g|) <= done) && Ready(g, done) == []
    ensures HasCycle(g)
  {
    var stuck := Below(|g|) - done;
    var start: nat :| start in Below(|g|) && start !in done;
    forall x: nat | x in stuck
      ensures !(g[x] !! stuck)
    {
      assert x !in Ready(g, done);
      assert !IsReady(g, done, x);
      var d: nat :| d in g[x] && d !in done;
      assert d in stuck;
    }
    var w := WalkInside(g, stuck, start, |g|);
    LongWalkLoops(g, w);
  }

  /** A walk longer than the number of nodes comes back to a node. */
  lemma LongWalkLoops(g: Graph, w: seq<nat>)
    requires IsWalk(g, w) && |w| > |g|
    ensures HasCycle(g)
  {
    if forall i, j :: 0 <= i < j < |w| ==> w[i] != w[j] {
      Pigeonhole(w, |g|);
    } else {
      var i, j :| 0 <= i < j < |w| && w[i] == w[j];
      var loop := w[i..j + 1];
      assert forall k :: 0 <= k < |loop| ==> loop[k] == w[i + k];
      assert IsWalk(g, loop);
    }
  }

  lemma {:induction false} AcyclicKahnSucceeds(g: Graph, done: set<nat>)
    requires WellFormed(g) && !HasCycle(g)
    ensures Kahn(g, done).Some?
    decreases Below(|g|) - done
  {
    if !(Below(|g|) <= done) {
      var ready := Ready(g, done);
      if ready == [] {
        StuckMeansCycle(g, done);
      } else {
        assert ready[0] in ready && IsReady(g, done, ready[0]) && ready[0] in Below(|g|) - done;
        AcyclicKahnSucceeds(g, done + Elements(ready));
      }
    }
  }

  /** The layer that holds `x`. */
  ghost function LevelOf(layers: seq<seq<nat>>, k: nat, x: nat): (level: nat)
    requires k <= |layers| && x in Placed(layers, k)
    ensures level < k && x in layers[level]
  {
    if x in Placed(layers, k - 1) then LevelOf(layers, k - 1, x) else k - 1
  }

  /** A node placed before layer `k` has its level below `k`. */
  lemma LevelBelow(layers: seq<seq<nat>>, n: nat, k: nat, x: nat)
    requires IsPartition(layers, n) && k <= |layers| && x in Placed(layers, k)
    ensures x < n && LevelOf(layers, |layers|, x) < k
  {
    PlacedMonotone(layers, k, |layers|);
    assert x in Below(n);
    var level := LevelOf(layers, |layers|, x);
    assert LayerAdds(layers, level) && x in Elements(layers[level]);
    if k <= level {
      PlacedMonotone(layers, k, level);
    }
  }

  lemma LayeringRanks(g: Graph, layers: seq<seq<nat>>) returns (rank: seq<nat>)
    requires IsLayering(g, layers)
    ensures Ranks(g, rank)
  {
    rank := seq(|g|, i requires 0 <= i < |g| => assert i in Below(|g|); LevelOf(layers, |layers|, i));
    assert forall i :: 0 <= i < |g| ==> i in Below(|g|) && rank[i] == LevelOf(layers, |layers|, i);
    forall i: nat, d: nat | i < |g| && d in g[i]
      ensures Precedes(rank, d, i)
    {
      var k := rank[i];
      assert i in Below(|g|) && i in layers[k];
      assert AtLevel(g, layers, k, i);
      LevelBelow(layers, |g|, rank[i], d);
    }
  }

  /** Kahn's algorithm succeeds exactly on acyclic graphs. */
  lemma KahnDecidesAcyclicity(g: Graph)
    requires WellFormed(g)
    ensures Kahn(g, {}).Some? <==> !HasCycle(g)
  {
    if Kahn(g, {}).Some? {
      KahnLayers(g);
      var rank := LayeringRanks(g, Kahn(g, {}).value);
      RankedHasNoCycle(g, rank);
    } else if !HasCycle(g) {
      AcyclicKahnSucceeds(g, {});
    }
  }

  lemma AcyclicHasRank(g: Graph) returns (rank: seq<nat>)
    requires WellFormed(g) && !HasCycle(g)
    ensures Ranks(g, rank)
  {
    AcyclicKahnSucceeds(g, {});
    KahnLayers(g);
    rank := LayeringRanks(g, Kahn(g, {}).value);
  }

  // ---------- the layering is determined by the graph ----------

  lemma NotReadyEarlier(g: Graph, layers: seq<seq<nat>>, k: nat, m: nat, x: nat)
    requires IsLayering(g, layers) && k < m < |layers| && x in layers[m]
    ensures !IsReady(g, Placed(layers, k), x)
  {
    assert AtLevel(g, layers, m, x);
    var d: nat :| d in g[x] && d in layers[m - 1];
    assert LayerAdds(layers, m - 1) && d in Elements(layers[m - 1]);
    PlacedMonotone(layers, k, m - 1);
  }

  lemma ReadyIsInLayer(g: Graph, layers: seq<seq<nat>>, k: nat, x: nat)
    requires IsLayering(g, layers) && k < |layers| && IsReady(g, Placed(layers, k), x)
    ensures x in layers[k]
  {
    assert x in Below(|g|);
    var m := LevelOf(layers, |layers|, x);
    if m < k {
      PlacedMonotone(layers, m + 1, k);
    } else if m > k {
      NotReadyEarlier(g, layers, k, m, x);
    }
  }

  lemma LayerIsReady(g: Graph, layers: seq<seq<nat>>, k: nat)
    requires IsLayering(g, layers) && k < |layers|
    ensures layers[k] == Ready(g, Placed(layers, k))
  {
    var before := Placed(layers, k);
    forall x: nat
      ensures x in layers[k] <==> IsReady(g, before, x)
    {
      if x in layers[k] {
        assert AtLevel(g, layers, k, x);
        assert LayerAdds(layers, k) && x in Elements(layers[k]);
      } else if IsReady(g, before, x) {
        ReadyIsInLayer(g, layers, k, x);
      }
    }
    assert LayerAdds(layers, k);
    SortedUnique(layers[k], Ready(g, before));
  }

  lemma TailMembers(a: seq<nat>)
    requires Increasing(a) && a != []
    ensures forall x: nat :: x in a[1..] <==> x in a && x != a[0]
  {
    assert a == [a[0]] + a[1..];
    assert forall i :: 0 <= i < |a| - 1 ==> a[1..][i] == a[i + 1];
  }

  lemma {:induction false} SortedUnique(a: seq<nat>, b: seq<nat>)
    requires Increasing(a) && Increasing(b)
    requires forall x: nat :: x in a <==> x in b
    ensures a == b
  {
    assert b != [] ==> b[0] in b && b[0] in a;
    if a != [] {
      assert a[0] in a && a[0] in b;
      assert a[0] == b[0];
      TailMembers(a);
      TailMembers(b);
      SortedUnique(a[1..], b[1..]);
    }
  }

  lemma {:induction false} LayeringPrefixUnique(g: Graph, a: seq<seq<nat>>, b: seq<seq<nat>>, k: nat)
    requires IsLayering(g, a) && IsLayering(g, b)
    requires k <= |a| && k <= |b|
    ensures Placed(a, k) == Placed(b, k)
    ensures forall j :: 0 <= j < k ==> a[j] == b[j]
  {
    if k > 0 {
      LayeringPrefixUnique(g, a, b, k - 1);
      LayerIsReady(g, a, k - 1);
      LayerIsReady(g, b, k - 1);
    }
  }

  lemma NoLayerAfterAll(layers: seq<seq<nat>>, n: nat, k: nat)
    requires IsPartition(layers, n) && k <= |layers| && Below(n) <= Placed(layers, k)
    ensures k == |layers|
  {
    if k < |layers| {
      assert LayerAdds(layers, k);
      assert layers[k][0] in Elements(layers[k]);
      PlacedMonotone(layers, k + 1, |layers|);
    }
  }

  lemma LayeringUnique(g: Graph, a: seq<seq<nat>>, b: seq<seq<nat>>)
    requires IsLayering(g, a) && IsLayering(g, b)
    ensures a == b
  {
    var k := if |a| < |b| then |a| else |b|;
    LayeringPrefixUnique(g, a, b, k);
    NoLayerAfterAll(a, |g|, k);
    NoLayerAfterAll(b, |g|, k);
  }
}
