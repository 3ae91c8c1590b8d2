/**
 The plan of a task: steps with optional dependency lists, their batches, and batch completion
 (app/graph/nodes.py, the plan helpers and the critic's marking loop).

 Steps are referred to by their position in the plan, as the original keeps references to them.
 */
module PlanDag {
  import opened Basics
  import opened Graphs

  datatype StepStatus = Pending | Done

  /** `deps == None` means the key is absent: the step waits for the one before it. */
  datatype PlanStep = PlanStep(
    id: string, description: string, status: StepStatus, result: string, deps: Option<seq<string>>)

  type Plan = seq<PlanStep>

  // ---------- reading the planner's reply ----------

  /** An item of the reply; an empty id stands for a missing one, descriptions are stripped. */
  datatype RawStep =
    | Object(id: string, description: string, deps: Option<seq<string>>)
    | Text(description: string)

  function Digit(d: nat): (c: char)
    requires d < 10
    ensures '0' <= c <= '9' && c as int - '0' as int == d
  {
    ('0' as int + d) as char
  }

  function Decimal(n: nat): (s: string) {
    if n < 10 then [Digit(n)] else Decimal(n / 10) + [Digit(n % 10)]
  }

  /** The id given to a step by its number: s1, s2, ... */
  function StepId(n: nat): (id: string) {
    "s" + Decimal(n)
  }

  function StepFrom(item: RawStep, position: nat): (step: PlanStep) {
    match item
    case Object(id, description, deps) =>
      PlanStep(if id == "" then StepId(position) else id, description, Pending, "", deps)
    case Text(description) =>
      PlanStep(StepId(position), description, Pending, "", None)
  }

  function ParseFrom(raw: seq<RawStep>, steps: Plan): (r: Plan)
    decreases |raw|
  {
    if raw == [] then steps
    else if raw[0].description == "" then ParseFrom(raw[1..], steps)
    else ParseFrom(raw[1..], steps + [StepFrom(raw[0], |steps| + 1)])
  }

  ghost predicate AllPending(plan: Plan) {
    forall i :: 0 <= i < |plan| ==> plan[i].status.Pending?
  }

  lemma {:induction false} ParseKeepsPending(raw: seq<RawStep>, steps: Plan)
    requires AllPending(steps)
    ensures AllPending(ParseFrom(raw, steps)) && |steps| <= |ParseFrom(raw, steps)| <= |steps| + |raw|
    decreases |raw|
  {
    if raw != [] {
      if raw[0].description == "" {
        ParseKeepsPending(raw[1..], steps);
      } else {
        ParseKeepsPending(raw[1..], steps + [StepFrom(raw[0], |steps| + 1)]);
      }
    }
  }

  /** The positions of the first `n` items that have a description. */
  function Described(raw: seq<RawStep>, n: nat): (kept: seq<nat>)
    requires n <= |raw|
    ensures forall x: nat {:trigger x in kept} :: x in kept <==> x < n && raw[x].description != ""
    ensures Increasing(kept) && forall i :: 0 <= i < |kept| ==> kept[i] < n
  {
    if n == 0 then []
    else
      var kept := Described(raw, n - 1);
      assert forall x: nat :: x in kept + [n - 1] <==> x in kept || x == n - 1;
      if raw[n - 1].description != "" then kept + [n - 1] else kept
  }

  /** The step says what the item says; an id that is not given is made from the step's position. */
  predicate Renders(step: PlanStep, item: RawStep, position: nat) {
    && step.description == item.description && step.status.Pending? && step.result == ""
    && step.deps == (if item.Object? then item.deps else None)
    && step.id == (if item.Object? && item.id != "" then item.id else StepId(position))
  }

  /** One step for every item with a description, in order, and no other. */
  method ParsePlanSteps(raw: seq<RawStep>) returns (steps: Plan)
    ensures steps == ParseFrom(raw, [])
    ensures |steps| == |Described(raw, |raw|)|
    ensures forall i :: 0 <= i < |steps| ==> Renders(steps[i], raw[Described(raw, |raw|)[i]], i + 1)
  {
    steps := [];
    for i := 0 to |raw|
      invariant ParseFrom(raw, []) == ParseFrom(raw[i..], steps)
      invariant |steps| == |Described(raw, i)|
      invariant forall j :: 0 <= j < |steps| ==> Renders(steps[j], raw[Described(raw, i)[j]], j + 1)
    {
      if raw[i].description != "" {
        steps := steps + [StepFrom(raw[i], |steps| + 1)];
      }
      assert raw[i..][1..] == raw[i + 1..];
    }
  }

  // ---------- dependencies ----------

  predicate UniqueIds(plan: Plan) {
    forall i, j :: 0 <= i < j < |plan| ==> plan[i].id != plan[j].id
  }

  predicate Names(plan: Plan, id: string) {
    exists j :: 0 <= j < |plan| && plan[j].id == id
  }

  predicate RefsExist(plan: Plan) {
    forall i :: 0 <= i < |plan| && plan[i].deps.Some? ==>
      forall r {:trigger Names(plan, r)} :: r in plan[i].deps.value ==> Names(plan, r)
  }

  /** The positions that a list of references points to. */
  function Targets(plan: Plan, refs: seq<string>): (s: set<nat>) {
    set j: nat | j < |plan| && plan[j].id in refs
  }

  /** The positions step `i` waits for. */
  function DepsAt(plan: Plan, i: nat): (s: set<nat>)
    requires i < |plan|
    ensures s <= Below(|plan|)
  {
    match plan[i].deps
    case None => if i == 0 then {} else {i - 1}
    case Some(refs) => Targets(plan, refs)
  }

  function DepGraph(plan: Plan): (g: Graph)
    ensures |g| == |plan| && forall i :: 0 <= i < |g| ==> g[i] == DepsAt(plan, i)
  {
    seq(|plan|, i requires 0 <= i < |plan| => DepsAt(plan, i))
  }

  function PlanLayers(plan: Plan): (r: Option<seq<seq<nat>>>) {
    if UniqueIds(plan) && RefsExist(plan) then Kahn(DepGraph(plan), {}) else None
  }

  /**
   A plan has layers exactly when its ids are unique, its references exist and no step waits for itself;
   they are then the one layering of its dependency graph.
   */
  lemma PlanLayersCharacterised(plan: Plan)
    ensures PlanLayers(plan).Some? <==> UniqueIds(plan) && RefsExist(plan) && !HasCycle(DepGraph(plan))
    ensures PlanLayers(plan).Some? ==> IsLayering(DepGraph(plan), PlanLayers(plan).value)
    ensures forall layers :: PlanLayers(plan).Some? && IsLayering(DepGraph(plan), layers) ==>
              layers == PlanLayers(plan).value
  {
    var g := DepGraph(plan);
    KahnDecidesAcyclicity(g);
    if PlanLayers(plan).Some? {
      KahnLayers(g);
      forall layers | IsLayering(g, layers)
        ensures layers == PlanLayers(plan).value
      {
        LayeringUnique(g, layers, PlanLayers(plan).value);
      }
    }
  }

  lemma SelfDependencyIsCycle(plan: Plan, i: nat)
    requires i < |plan| && i in DepsAt(plan, i)
    ensures HasCycle(DepGraph(plan))
  {
    var w := [i, i];
    assert IsWalk(DepGraph(plan), w) && |w| >= 2 && w[0] == w[|w| - 1];
  }

  /** The id table of the first `i` steps: every id once, mapped to its position. */
  ghost predicate IdTable(plan: Plan, i: nat, ids: map<string, nat>)
    requires i <= |plan|
  {
    && (forall id :: id in ids ==> ids[id] < i && plan[ids[id]].id == id)
    && (forall j :: 0 <= j < i ==> plan[j].id in ids && ids[plan[j].id] == j)
  }

  method IndexIds(plan: Plan) returns (r: Option<map<string, nat>>)
    ensures r.Some? <==> UniqueIds(plan)
    ensures r.Some? ==> IdTable(plan, |plan|, r.value)
  {
    var ids: map<string, nat> := map[];
    for i := 0 to |plan|
      invariant IdTable(plan, i, ids)
    {
      if plan[i].id in ids {
        assert plan[ids[plan[i].id]].id == plan[i].id;
        return None;
      }
      ids := ids[plan[i].id := i];
    }
    r := Some(ids);
  }

  /** The positions named by one step's references; None when a reference dangles. */
  method ResolveRefs(plan: Plan, ids: map<string, nat>, refs: seq<string>) returns (r: Option<set<nat>>)
    requires IdTable(plan, |plan|, ids)
    ensures r.Some? <==> forall x :: x in refs ==> Names(plan, x)
    ensures r.Some? ==> r.value == Targets(plan, refs)
  {
    var deps := {};
    for k := 0 to |refs|
      invariant deps == Targets(plan, refs[..k])
      invariant forall x :: x in refs[..k] ==> Names(plan, x)
    {
      assert refs[..k + 1] == refs[..k] + [refs[k]];
      if refs[k] !in ids {
        assert refs[k] in refs && !Names(plan, refs[k]);
        return None;
      }
      assert plan[ids[refs[k]]].id == refs[k];
      deps := deps + {ids[refs[k]]};
    }
    assert refs[..|refs|] == refs;
    r := Some(deps);
  }

  /** Dependency sets by position; None for a dangling reference or a step that names itself. */
  method ResolveDeps(plan: Plan, ids: map<string, nat>) returns (r: Option<Graph>)
    requires IdTable(plan, |plan|, ids)
    ensures r.Some? <==> RefsExist(plan) && forall i :: 0 <= i < |plan| && plan[i].deps.Some? ==> i !in DepsAt(plan, i)
    ensures r.Some? ==> r.value == DepGraph(plan)
  {
    var g: Graph := [];
    for i := 0 to |plan|
      invariant |g| == i
      invariant forall j :: 0 <= j < i ==> g[j] == DepsAt(plan, j)
      invariant forall j :: 0 <= j < i && plan[j].deps.Some? ==>
                  j !in DepsAt(plan, j) && forall x :: x in plan[j].deps.value ==> Names(plan, x)
    {
      match plan[i].deps
      case Some(refs) =>
        var deps := ResolveRefs(plan, ids, refs);
        if deps.None? || i in deps.value { return None; }
        g := g + [deps.value];
      case None =>
        g := g + [if i > 0 then {i - 1} else {}];
    }
    r := Some(g);
  }

  lemma FullWhenCounted(done: set<nat>, n: nat)
    requires done <= Below(n)
    ensures |done| <= n && (|done| == n ==> done == Below(n))
  {
    BelowSize(n);
    assert Below(n) == done + (Below(n) - done);
  }

  function Prepend(layers: seq<seq<nat>>, r: Option<seq<seq<nat>>>): (all: Option<seq<seq<nat>>>) {
    match r
    case None => None
    case Some(rest) => Some(layers + rest)
  }

  /** One round of the loop below: what it finds, and that it makes progress. */
  lemma KahnRound(g: Graph, done: set<nat>, layers: seq<seq<nat>>)
    requires done <= Below(|g|) && |done| < |g|
    ensures var ready := Ready(g, done);
            if ready == [] then Kahn(g, done).None?
            else var next := done + Elements(ready);
                 && next <= Below(|g|) && |done| < |next| <= |g|
                 && Prepend(layers, Kahn(g, done)) == Prepend(layers + [ready], Kahn(g, next))
  {
    BelowSize(|g|);
    var ready := Ready(g, done);
    var all := Below(|g|);
    assert all <= done ==> done == all;
    if ready != [] {
      var next := done + Elements(ready);
      assert ready[0] in ready && IsReady(g, done, ready[0]);
      GrowsStrictly(done, ready[0], Elements(ready));
      forall x | x in next
        ensures x in Below(|g|)
      {
        if x in ready { assert IsReady(g, done, x); }
      }
      FullWhenCounted(next, |g|);
      var rest := Kahn(g, next);
      if rest.Some? {
        assert layers + ([ready] + rest.value) == layers + [ready] + rest.value;
      }
    }
  }

  /** The loop of `_plan_layers`: collect a batch, mark it done, until every step is placed. */
  method LayerGraph(g: Graph) returns (r: Option<seq<seq<nat>>>)
    ensures r == Kahn(g, {})
  {
    hide Kahn;
    var done: set<nat>, layers := {}, [];
    PrependNothing(Kahn(g, {}));
    while |done| < |g|
      invariant done <= Below(|g|) && |done| <= |g|
      invariant Kahn(g, {}) == Prepend(layers, Kahn(g, done))
      decreases |g| - |done|
    {
      KahnRound(g, done, layers);
      var ready := Ready(g, done);
      if ready == [] { return None; }
      layers := layers + [ready];
      done := done + Elements(ready);
    }
    KahnEnds(g, done);
    assert layers + [] == layers;
    r := Some(layers);
  }

  lemma PrependNothing(r: Option<seq<seq<nat>>>)
    ensures Prepend([], r) == r
  {
    if r.Some? { assert [] + r.value == r.value; }
  }

  lemma KahnEnds(g: Graph, done: set<nat>)
    requires done <= Below(|g|) && |done| >= |g|
    ensures Kahn(g, done) == Some([])
  {
    FullWhenCounted(done, |g|);
  }

  lemma GrowsStrictly(done: set<nat>, x: nat, more: set<nat>)
    requires x in more && x !in done
    ensures |done| < |done + more|
  {
    assert done + more == done + (more - done) && x in more - done;
    assert |done + more| == |done| + |more - done|;
  }

  method ComputePlanLayers(plan: Plan) returns (r: Option<seq<seq<nat>>>)
    ensures r == PlanLayers(plan)
    ensures r.Some? <==> UniqueIds(plan) && RefsExist(plan) && !HasCycle(DepGraph(plan))
    ensures r.Some? ==> IsLayering(DepGraph(plan), r.value)
  {
    PlanLayersCharacterised(plan);
    var ids := IndexIds(plan);
    if ids.None? { return None; }
    var g := ResolveDeps(plan, ids.value);
    if g.None? {
      if RefsExist(plan) {
        var i :| 0 <= i < |plan| && i in DepsAt(plan, i);
        SelfDependencyIsCycle(plan, i);
      }
      return None;
    }
    r := LayerGraph(g.value);
  }

  // ---------- the fallback ladder ----------

  function Linearize(plan: Plan): (lin: Plan)
    ensures |lin| == |plan|
  {
    seq(|plan|, i requires 0 <= i < |plan| => plan[i].(deps := None))
  }

  /** One step per batch. */
  function Sequential(n: nat): (layers: seq<seq<nat>>) {
    seq(n, i => [i])
  }

  function SafeLayers(plan: Plan): (layers: seq<seq<nat>>) {
    match PlanLayers(plan)
    case Some(layers) => layers
    case None =>
      match PlanLayers(Linearize(plan))
      case Some(layers) => layers
      case None => Sequential(|plan|)
  }

  lemma {:induction false} SequentialPlaced(n: nat, k: nat)
    requires k <= n
    ensures Placed(Sequential(n), k) == Below(k)
  {
    if k > 0 {
      SequentialPlaced(n, k - 1);
      assert Elements([k - 1]) == {k - 1};
    }
  }

  lemma SequentialIsPartition(n: nat)
    ensures IsPartition(Sequential(n), n)
  {
    var layers := Sequential(n);
    SequentialPlaced(n, n);
    forall k: nat | k < n
      ensures LayerAdds(layers, k)
    {
      SequentialPlaced(n, k);
    }
  }

  /** A chain is layered one step at a time. */
  lemma ChainLayers(plan: Plan)
    requires forall i :: 0 <= i < |plan| ==> plan[i].deps.None?
    requires UniqueIds(plan)
    ensures PlanLayers(plan) == Some(Sequential(|plan|))
  {
    var g, n := DepGraph(plan), |plan|;
    var rank := seq(n, i => i);
    forall i: nat, d: nat | i < |g| && d in g[i]
      ensures Precedes(rank, d, i)
    {
      assert g[i] == DepsAt(plan, i);
    }
    RankedHasNoCycle(g, rank);
    PlanLayersCharacterised(plan);
    var layers := Sequential(n);
    SequentialIsPartition(n);
    forall k: nat, x: nat | k < |layers| && x in layers[k]
      ensures AtLevel(g, layers, k, x)
    {
      SequentialPlaced(n, k);
      assert x == k && g[x] == DepsAt(plan, x);
      if k > 0 {
        assert k - 1 in g[x] && k - 1 in layers[k - 1];
      }
    }
    assert IsLayering(g, layers);
  }

  /** Both fallbacks run the steps one by one, in declaration order. */
  lemma FallbackIsSequential(plan: Plan)
    requires PlanLayers(plan).None?
    ensures SafeLayers(plan) == Sequential(|plan|)
  {
    if PlanLayers(Linearize(plan)).Some? {
      ChainLayers(Linearize(plan));
    }
  }

  /** Whatever the plan looks like, its batches hold every step exactly once. */
  lemma SafeLayersPartition(plan: Plan)
    ensures IsPartition(SafeLayers(plan), |plan|)
  {
    if PlanLayers(plan).Some? {
      PlanLayersCharacterised(plan);
    } else {
      FallbackIsSequential(plan);
      SequentialIsPartition(|plan|);
    }
  }

  /** What step `x` has to wait for under the batches in use. */
  ghost function Prerequisites(plan: Plan, x: nat): (s: set<nat>)
    requires x < |plan|
  {
    if PlanLayers(plan).Some? then DepsAt(plan, x) else Below(x)
  }

  /** Prerequisites always sit in earlier batches. */
  lemma PrerequisitesComeFirst(plan: Plan, k: nat, x: nat)
    requires k < |SafeLayers(plan)| && x in SafeLayers(plan)[k] && x < |plan|
    ensures Prerequisites(plan, x) <= Placed(SafeLayers(plan), k)
  {
    PlanLayersCharacterised(plan);
    if PlanLayers(plan).Some? {
      assert AtLevel(DepGraph(plan), SafeLayers(plan), k, x);
    } else {
      FallbackIsSequential(plan);
      SequentialPlaced(|plan|, k);
    }
  }

  // ---------- progress ----------

  /** Same ids and dependencies: statuses and results may differ. */
  ghost predicate SameShape(a: Plan, b: Plan) {
    && |a| == |b|
    && forall i :: 0 <= i < |a| ==> a[i].id == b[i].id && a[i].deps == b[i].deps
  }

  lemma SameShapeSameGraph(a: Plan, b: Plan)
    requires SameShape(a, b)
    ensures UniqueIds(a) == UniqueIds(b) && RefsExist(a) == RefsExist(b) && DepGraph(a) == DepGraph(b)
  {
    forall id
      ensures Names(a, id) == Names(b, id)
    {
      if Names(a, id) {
        var j :| 0 <= j < |a| && a[j].id == id;
        assert b[j].id == id;
      }
      if Names(b, id) {
        var j :| 0 <= j < |b| && b[j].id == id;
        assert a[j].id == id;
      }
    }
    forall i: nat | i < |a|
      ensures DepsAt(a, i) == DepsAt(b, i)
    {
      if a[i].deps.Some? {
        assert Targets(a, a[i].deps.value) == Targets(b, b[i].deps.value);
      }
    }
    assert RefsExist(a) ==> RefsExist(b) by {
      if RefsExist(a) {
        forall i | 0 <= i < |b| && b[i].deps.Some?
          ensures forall r :: r in b[i].deps.value ==> Names(b, r)
        {
          assert a[i].deps == b[i].deps;
        }
      }
    }
    assert RefsExist(b) ==> RefsExist(a) by {
      if RefsExist(b) {
        forall i | 0 <= i < |a| && a[i].deps.Some?
          ensures forall r :: r in a[i].deps.value ==> Names(a, r)
        {
          assert a[i].deps == b[i].deps;
        }
      }
    }
    assert UniqueIds(a) ==> UniqueIds(b);
    assert UniqueIds(b) ==> UniqueIds(a);
  }

  lemma SameShapeSameLayers(a: Plan, b: Plan)
    requires SameShape(a, b)
    ensures PlanLayers(a) == PlanLayers(b) && SafeLayers(a) == SafeLayers(b)
  {
    SameShapeSameGraph(a, b);
    SameShapeSameGraph(Linearize(a), Linearize(b));
  }

  function Finish(step: PlanStep, summary: string): (r: PlanStep) {
    if step.status.Pending? then step.(status := Done, result := summary) else step
  }

  /** The plan after every pending step of a batch has been marked done. */
  function MarkBatch(plan: Plan, batch: seq<nat>, summary: string): (r: Plan)
    ensures |r| == |plan|
  {
    seq(|plan|, i requires 0 <= i < |plan| => if i in batch then Finish(plan[i], summary) else plan[i])
  }

  /** The critic's loop over the current batch, on its own copy of the plan. */
  method CompleteBatch(plan: Plan, batch: seq<nat>, summary: string) returns (r: Plan, announced: seq<nat>)
    requires forall x :: x in batch ==> x < |plan|
    requires Increasing(batch)
    ensures r == MarkBatch(plan, batch, summary)
    ensures forall x :: 0 <= x < |plan| ==>
              r[x] == if x in batch && plan[x].status.Pending?
                      then PlanStep(plan[x].id, plan[x].description, Done, summary, plan[x].deps) else plan[x]
    ensures forall x: nat :: x in announced <==> x in batch && plan[x].status.Pending?
    ensures Increasing(announced)
  {
    r, announced := plan, [];
    for k := 0 to |batch|
      invariant r == MarkBatch(plan, batch[..k], summary)
      invariant forall x: nat :: x in announced <==> x in batch[..k] && x < |plan| && plan[x].status.Pending?
      invariant Increasing(announced)
    {
      var x := batch[k];
      assert batch[..k + 1] == batch[..k] + [x];
      assert x in batch && x !in batch[..k];
      assert r[x] == plan[x];
      if r[x].status.Pending? {
        r := r[x := r[x].(status := Done, result := summary)];
        assert forall a :: 0 <= a < |announced| ==> announced[a] in announced && announced[a] < x;
        announced := announced + [x];
      }
      assert r == MarkBatch(plan, batch[..k + 1], summary);
    }
    assert batch[..|batch|] == batch;
  }

  ghost predicate AllDone(plan: Plan, s: set<nat>) {
    forall x: nat :: x in s ==> x < |plan| && plan[x].status.Done?
  }

  /** The first batch that still has a pending step; the number of batches when none has. */
  function FirstOpen(plan: Plan, layers: seq<seq<nat>>, from: nat): (k: nat)
    requires from <= |layers|
    decreases |layers| - from
  {
    if from == |layers| || HasPending(plan, layers[from]) then from
    else FirstOpen(plan, layers, from + 1)
  }

  predicate HasPending(plan: Plan, batch: seq<nat>) {
    exists x: nat :: x in batch && x < |plan| && plan[x].status.Pending?
  }

  lemma PartitionBounds(layers: seq<seq<nat>>, n: nat)
    requires IsPartition(layers, n)
    ensures forall i, x: nat :: 0 <= i < |layers| && x in layers[i] ==> x < n
  {
    forall i, x: nat | 0 <= i < |layers| && x in layers[i]
      ensures x < n
    {
      PlacedMonotone(layers, i + 1, |layers|);
      assert x in Elements(layers[i]);
      assert x in Placed(layers, i + 1);
      assert x in Below(n);
    }
  }

  lemma {:induction false} FirstOpenSound(plan: Plan, layers: seq<seq<nat>>, from: nat)
    requires from <= |layers|
    requires forall i, x: nat :: 0 <= i < |layers| && x in layers[i] ==> x < |plan|
    requires AllDone(plan, Placed(layers, from))
    ensures var k := FirstOpen(plan, layers, from); from <= k <= |layers| && AllDone(plan, Placed(layers, k))
    decreases |layers| - from
  {
    if from < |layers| && !HasPending(plan, layers[from]) {
      forall x: nat | x in Placed(layers, from + 1)
        ensures x < |plan| && plan[x].status.Done?
      {
        if x !in Placed(layers, from) {
          assert x in layers[from];
        }
      }
      FirstOpenSound(plan, layers, from + 1);
    }
  }

  /** Position of the batch to run next, as the planner computes it. */
  function StartBatch(plan: Plan): (k: nat) {
    FirstOpen(plan, SafeLayers(plan), 0)
  }

  lemma StartBatchSound(plan: Plan)
    ensures StartBatch(plan) <= |SafeLayers(plan)|
    ensures AllDone(plan, Placed(SafeLayers(plan), StartBatch(plan)))
  {
    SafeLayersPartition(plan);
    PartitionBounds(SafeLayers(plan), |plan|);
    FirstOpenSound(plan, SafeLayers(plan), 0);
  }

  lemma {:induction false} FirstOpenHasPending(plan: Plan, layers: seq<seq<nat>>, from: nat)
    requires from <= |layers|
    ensures var k := FirstOpen(plan, layers, from);
            && from <= k <= |layers| && (k < |layers| ==> HasPending(plan, layers[k]))
            && forall i :: from <= i < k ==> !HasPending(plan, layers[i])
    decreases |layers| - from
  {
    if from < |layers| && !HasPending(plan, layers[from]) { FirstOpenHasPending(plan, layers, from + 1); }
  }

  /** The planner starts at the first batch with a pending step, and past the last batch exactly when none is left. */
  lemma StartBatchExactly(plan: Plan)
    ensures var k, layers := StartBatch(plan), SafeLayers(plan);
            && k <= |layers| && (k < |layers| ==> HasPending(plan, layers[k]))
            && (forall i :: 0 <= i < k ==> !HasPending(plan, layers[i]))
            && (k == |layers| <==> forall x :: 0 <= x < |plan| ==> plan[x].status.Done?)
  {
    var k, layers := StartBatch(plan), SafeLayers(plan);
    FirstOpenHasPending(plan, layers, 0);
    StartBatchSound(plan);
    if k == |layers| {
      FinishedMeansAllDone(plan, k);
    } else {
      var x: nat :| x in layers[k] && x < |plan| && plan[x].status.Pending?;
    }
  }

  /** Completing batch `k` completes every batch up to and including it. */
  lemma MarkBatchAdvances(plan: Plan, k: nat, summary: string)
    requires k < |SafeLayers(plan)|
    requires AllDone(plan, Placed(SafeLayers(plan), k))
    ensures var after := MarkBatch(plan, SafeLayers(plan)[k], summary);
            && SameShape(plan, after)
            && SafeLayers(after) == SafeLayers(plan) && PlanLayers(after) == PlanLayers(plan)
            && AllDone(after, Placed(SafeLayers(after), k + 1))
  {
    var after := MarkBatch(plan, SafeLayers(plan)[k], summary);
    SameShapeSameLayers(plan, after);
    SafeLayersPartition(plan);
    PartitionBounds(SafeLayers(plan), |plan|);
    forall x: nat | x in Placed(SafeLayers(after), k + 1)
      ensures x < |after| && after[x].status.Done?
    {
      if x !in Placed(SafeLayers(after), k) {
        assert x in SafeLayers(plan)[k];
      }
    }
  }

  /** When the batch counter has run past the last batch, every step is done. */
  lemma FinishedMeansAllDone(plan: Plan, k: nat)
    requires k == |SafeLayers(plan)|
    requires AllDone(plan, Placed(SafeLayers(plan), k))
    ensures forall i :: 0 <= i < |plan| ==> plan[i].status.Done?
  {
    SafeLayersPartition(plan);
    assert forall i: nat :: i < |plan| ==> i in Below(|plan|);
  }
}
