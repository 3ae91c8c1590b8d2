/**
 Replanning: finished steps are kept, the new steps are renumbered behind them
 (app/graph/nodes.py, `planner_node`).
 */
module Replanning {
  import opened Basics
  import opened Graphs
  import opened PlanDag

  // ---------- step numbers ----------

  predicate IsDigit(c: char) {
    '0' <= c <= '9'
  }

  predicate AllDigits(s: string) {
    forall i :: 0 <= i < |s| ==> IsDigit(s[i])
  }

  function ParseDecimal(s: string): (n: nat)
    requires AllDigits(s)
  {
    if s == [] then 0
    else 10 * ParseDecimal(s[..|s| - 1]) + (s[|s| - 1] as int - '0' as int)
  }

  /** The number of an id of the form s<digits>. */
  function StepNumber(id: string): (n: Option<nat>) {
    if |id| >= 2 && id[0] == 's' && AllDigits(id[1..]) then Some(ParseDecimal(id[1..])) else None
  }

  lemma {:induction false} DecimalRoundTrip(n: nat)
    ensures Decimal(n) != [] && AllDigits(Decimal(n)) && ParseDecimal(Decimal(n)) == n
  {
    var s := Decimal(n);
    if n < 10 {
      assert s[..0] == [];
    } else {
      DecimalRoundTrip(n / 10);
      assert s[..|s| - 1] == Decimal(n / 10);
    }
  }

  /** Generated ids carry their number, so different numbers give different ids. */
  lemma StepIdRoundTrip(n: nat)
    ensures StepNumber(StepId(n)) == Some(n)
  {
    DecimalRoundTrip(n);
    assert StepId(n)[1..] == Decimal(n);
  }

  /** The largest step number among the first `n` steps. */
  function HighestBelow(plan: Plan, n: nat): (base: nat)
    requires n <= |plan|
  {
    if n == 0 then 0
    else match StepNumber(plan[n - 1].id)
      case None => HighestBelow(plan, n - 1)
      case Some(number) => Max(HighestBelow(plan, n - 1), number)
  }

  /** The largest step number in use. */
  function HighestNumber(plan: Plan): (base: nat) {
    HighestBelow(plan, |plan|)
  }

  lemma {:induction false} HighestBelowBounds(plan: Plan, n: nat, i: nat)
    requires i < n <= |plan| && StepNumber(plan[i].id).Some?
    ensures StepNumber(plan[i].id).value <= HighestBelow(plan, n)
  {
    if i < n - 1 { HighestBelowBounds(plan, n - 1, i); }
  }

  /** The largest number is some step's, or zero when no step is numbered. */
  lemma {:induction false} HighestIsAttained(plan: Plan, n: nat)
    requires n <= |plan|
    ensures HighestBelow(plan, n) == 0 ||
            exists i :: 0 <= i < n && StepNumber(plan[i].id) == Some(HighestBelow(plan, n))
    decreases n
  {
    if n > 0 { HighestIsAttained(plan, n - 1); }
  }

  // ---------- the finished steps ----------

  function DoneFrom(plan: Plan, i: nat): (positions: seq<nat>)
    requires i <= |plan|
    ensures forall x: nat {:trigger x in positions} :: x in positions <==> i <= x < |plan| && plan[x].status.Done?
    ensures Increasing(positions)
    decreases |plan| - i
  {
    if i == |plan| then []
    else
      var rest := DoneFrom(plan, i + 1);
      assert forall x: nat :: x in [i] + rest <==> x == i || x in rest;
      assert forall b :: 0 <= b < |rest| ==> rest[b] in rest;
      assert forall b :: 0 <= b < |rest| ==> i < rest[b];
      if plan[i].status.Done? then [i] + rest else rest
  }

  /** The positions of the finished steps, in plan order. */
  function DonePositions(plan: Plan): (positions: seq<nat>)
    ensures forall x: nat {:trigger x in positions} :: x in positions <==> x < |plan| && plan[x].status.Done?
    ensures Increasing(positions)
    ensures forall k :: 0 <= k < |positions| ==> positions[k] < |plan| && plan[positions[k]].status.Done?
  {
    var positions := DoneFrom(plan, 0);
    assert forall k :: 0 <= k < |positions| ==> positions[k] in positions;
    positions
  }

  function DoneSteps(plan: Plan): (done: Plan)
    ensures |done| == |DonePositions(plan)|
    ensures forall k :: 0 <= k < |done| ==> done[k] == plan[DonePositions(plan)[k]] && done[k].status.Done?
  {
    var positions := DonePositions(plan);
    seq(|positions|, k requires 0 <= k < |positions| => plan[positions[k]])
  }

  // ---------- renaming ----------

  /** The last of the first `n` new steps that carries `id`. */
  function LastCarrier(steps: Plan, id: string, n: nat): (r: Option<nat>)
    requires n <= |steps|
    ensures r.Some? ==> r.value < n && steps[r.value].id == id
  {
    if n == 0 then None
    else if steps[n - 1].id == id then Some(n - 1)
    else LastCarrier(steps, id, n - 1)
  }

  lemma {:induction false} NoCarrier(steps: Plan, id: string, n: nat, i: nat)
    requires i < n <= |steps| && LastCarrier(steps, id, n).None?
    ensures steps[i].id != id
  {
    if i < n - 1 { NoCarrier(steps, id, n - 1, i); }
  }

  /** The rename table, applied: unknown ids stay as they are. */
  function Renamed(steps: Plan, base: nat, id: string): (r: string) {
    match LastCarrier(steps, id, |steps|)
    case Some(i) => StepId(base + 1 + i)
    case None => id
  }

  function RenamedRefs(steps: Plan, base: nat, lastDone: string, refs: seq<string>): (r: seq<string>) {
    if refs == [] then (if lastDone == "" then [] else [lastDone])
    else seq(|refs|, k requires 0 <= k < |refs| => Renamed(steps, base, refs[k]))
  }

  function RenamedStep(steps: Plan, base: nat, lastDone: string, step: PlanStep): (r: PlanStep) {
    step.(id := Renamed(steps, base, step.id),
          deps := match step.deps
                  case None => None
                  case Some(refs) => Some(RenamedRefs(steps, base, lastDone, refs)))
  }

  function LastId(plan: Plan): (id: string) {
    if plan == [] then "" else plan[|plan| - 1].id
  }

  /** The first `n` new steps, renamed. */
  function RenamedSteps(steps: Plan, base: nat, lastDone: string, n: nat): (r: Plan)
    requires n <= |steps|
    ensures |r| == n
  {
    if n == 0 then []
    else RenamedSteps(steps, base, lastDone, n - 1) + [RenamedStep(steps, base, lastDone, steps[n - 1])]
  }

  lemma {:induction false} RenamedAt(steps: Plan, base: nat, lastDone: string, n: nat, i: nat)
    requires i < n <= |steps|
    ensures RenamedSteps(steps, base, lastDone, n)[i] == RenamedStep(steps, base, lastDone, steps[i])
  {
    if i < n - 1 {
      RenamedAt(steps, base, lastDone, n - 1, i);
    }
  }

  /** The plan after a replan. */
  function Merge(plan: Plan, steps: Plan): (merged: Plan)
    ensures |merged| == |DoneSteps(plan)| + |steps|
  {
    DoneSteps(plan) + RenamedSteps(steps, HighestNumber(plan), LastId(DoneSteps(plan)), |steps|)
  }

  lemma MergedNew(plan: Plan, steps: Plan, i: nat)
    requires i < |steps|
    ensures Merge(plan, steps)[|DoneSteps(plan)| + i] ==
            RenamedStep(steps, HighestNumber(plan), LastId(DoneSteps(plan)), steps[i])
  {
    RenamedAt(steps, HighestNumber(plan), LastId(DoneSteps(plan)), |steps|, i);
  }

  /** The planner's rewriting loop over the new steps. */
  method RewriteSteps(plan: Plan, steps: Plan) returns (merged: Plan)
    ensures merged == Merge(plan, steps)
  {
    var base, lastDone := HighestNumber(plan), LastId(DoneSteps(plan));
    var rewritten: Plan := [];
    for i := 0 to |steps|
      invariant rewritten == RenamedSteps(steps, base, lastDone, i)
    {
      var s := steps[i];
      s := s.(id := Renamed(steps, base, s.id));
      if s.deps.Some? {
        var refs: seq<string> := [];
        for k := 0 to |s.deps.value|
          invariant |refs| == k
          invariant forall j :: 0 <= j < k ==> refs[j] == Renamed(steps, base, s.deps.value[j])
        {
          refs := refs + [Renamed(steps, base, s.deps.value[k])];
        }
        if refs == [] && lastDone != "" {
          refs := [lastDone];
        }
        assert refs == RenamedRefs(steps, base, lastDone, s.deps.value);
        s := s.(deps := Some(refs));
      }
      assert s == RenamedStep(steps, base, lastDone, steps[i]);
      rewritten := rewritten + [s];
    }
    merged := DoneSteps(plan) + rewritten;
  }

  // ---------- what a replan preserves ----------

  /** No finished step waits for an unfinished one. */
  ghost predicate DoneClosed(plan: Plan) {
    forall i: nat {:trigger DepsAt(plan, i)} :: i < |plan| && plan[i].status.Done? ==> AllDone(plan, DepsAt(plan, i))
  }

  /** New steps with distinct ids, references to new or finished steps, and no cycle among themselves. */
  ghost predicate Acceptable(plan: Plan, steps: Plan) {
    && UniqueIds(steps)
    && (forall i :: 0 <= i < |steps| && steps[i].deps.Some? ==>
          forall r :: r in steps[i].deps.value ==> Names(steps, r) || Names(DoneSteps(plan), r))
    && !HasCycle(DepGraph(steps))
  }

  lemma UniqueCarrier(steps: Plan, i: nat)
    requires UniqueIds(steps) && i < |steps|
    ensures LastCarrier(steps, steps[i].id, |steps|) == Some(i)
  {
    if LastCarrier(steps, steps[i].id, |steps|).None? { NoCarrier(steps, steps[i].id, |steps|, i); }
  }

  /** Every finished id is numbered at most `base`, so it is none of the new ids. */
  lemma DoneIdsDifferFromNew(plan: Plan, k: nat, i: nat)
    requires k < |DoneSteps(plan)|
    ensures DoneSteps(plan)[k].id != StepId(HighestNumber(plan) + 1 + i)
  {
    StepIdRoundTrip(HighestNumber(plan) + 1 + i);
    var x := DonePositions(plan)[k];
    if StepNumber(plan[x].id).Some? { HighestBelowBounds(plan, |plan|, x); }
  }

  /** New steps are numbered on from the highest number in use, and keep what they say. */
  lemma NewStepsNumberedOn(plan: Plan, steps: Plan, i: nat)
    requires UniqueIds(steps) && i < |steps|
    ensures var step := Merge(plan, steps)[NewAt(plan, i)];
            && StepNumber(step.id) == Some(HighestNumber(plan) + 1 + i)
            && step.description == steps[i].description && step.status == steps[i].status
            && step.result == steps[i].result && (step.deps.Some? <==> steps[i].deps.Some?)
  {
    MergedNew(plan, steps, i);
    UniqueCarrier(steps, i);
    StepIdRoundTrip(HighestNumber(plan) + 1 + i);
  }

  /** Where the new step `i` ends up. */
  function NewAt(plan: Plan, i: nat): (p: nat) {
    |DoneSteps(plan)| + i
  }

  lemma MergedNewId(plan: Plan, steps: Plan, i: nat)
    requires UniqueIds(steps) && i < |steps|
    ensures Merge(plan, steps)[NewAt(plan, i)].id == StepId(HighestNumber(plan) + 1 + i)
  {
    MergedNew(plan, steps, i);
    UniqueCarrier(steps, i);
  }

  lemma MergedIdsDiffer(plan: Plan, steps: Plan, a: nat, b: nat)
    requires UniqueIds(DoneSteps(plan)) && UniqueIds(steps) && a < b < |Merge(plan, steps)|
    ensures Merge(plan, steps)[a].id != Merge(plan, steps)[b].id
  {
    var d, base := |DoneSteps(plan)|, HighestNumber(plan);
    if b < d {
      assert Merge(plan, steps)[a] == DoneSteps(plan)[a] && Merge(plan, steps)[b] == DoneSteps(plan)[b];
    } else {
      MergedNewId(plan, steps, b - d);
      if a < d {
        DoneIdsDifferFromNew(plan, a, b - d);
      } else {
        MergedNewId(plan, steps, a - d);
        StepIdRoundTrip(base + 1 + (a - d));
        StepIdRoundTrip(base + 1 + (b - d));
      }
    }
  }

  lemma DoneUnique(plan: Plan)
    requires UniqueIds(plan)
    ensures UniqueIds(DoneSteps(plan))
  {
    var positions := DonePositions(plan);
    forall a, b | 0 <= a < b < |DoneSteps(plan)|
      ensures DoneSteps(plan)[a].id != DoneSteps(plan)[b].id
    {
      assert positions[a] < positions[b];
    }
  }

  lemma MergedUnique(plan: Plan, steps: Plan)
    requires UniqueIds(DoneSteps(plan)) && UniqueIds(steps)
    ensures UniqueIds(Merge(plan, steps))
  {
    forall a, b | 0 <= a < b < |Merge(plan, steps)|
      ensures Merge(plan, steps)[a].id != Merge(plan, steps)[b].id
    {
      MergedIdsDiffer(plan, steps, a, b);
    }
  }

  lemma DoneIndex(plan: Plan, x: nat) returns (k: nat)
    requires x < |plan| && plan[x].status.Done?
    ensures k < |DoneSteps(plan)| && DonePositions(plan)[k] == x && DoneSteps(plan)[k] == plan[x]
  {
    assert x in DonePositions(plan);
    k :| 0 <= k < |DonePositions(plan)| && DonePositions(plan)[k] == x;
  }

  /** The reference of a finished step names a finished step. */
  lemma DoneRefIsDone(plan: Plan, k: nat, r: string) returns (l: nat)
    requires UniqueIds(plan) && RefsExist(plan) && DoneClosed(plan)
    requires k < |DoneSteps(plan)| && DoneSteps(plan)[k].deps.Some? && r in DoneSteps(plan)[k].deps.value
    ensures l < |DoneSteps(plan)| && DoneSteps(plan)[l].id == r
    ensures DonePositions(plan)[l] in DepsAt(plan, DonePositions(plan)[k])
  {
    var x := DonePositions(plan)[k];
    assert Names(plan, r);
    var j: nat :| j < |plan| && plan[j].id == r;
    assert j in DepsAt(plan, x);
    l := DoneIndex(plan, j);
  }

  /** A reference of the finished step `k` happens to be the id that the new step `i` will get. */
  predicate Captured(plan: Plan, k: nat, i: nat)
    requires k < |DoneSteps(plan)|
  {
    DoneSteps(plan)[k].deps.Some? && StepId(HighestNumber(plan) + 1 + i) in DoneSteps(plan)[k].deps.value
  }

  ghost predicate NoneCaptured(plan: Plan, steps: Plan) {
    forall k: nat, i: nat :: k < |DoneSteps(plan)| && i < |steps| ==> !Captured(plan, k, i)
  }

  /** References that exist are numbered at most as high as the plan. */
  lemma ExistingRefsNotCaptured(plan: Plan, steps: Plan)
    requires RefsExist(plan)
    ensures NoneCaptured(plan, steps)
  {
    forall k: nat, i: nat | k < |DoneSteps(plan)| && i < |steps|
      ensures !Captured(plan, k, i)
    {
      FreshIdNotNamed(plan, i);
      assert DoneSteps(plan)[k] == plan[DonePositions(plan)[k]];
    }
  }

  lemma FreshIdNotNamed(plan: Plan, i: nat)
    ensures !Names(plan, StepId(HighestNumber(plan) + 1 + i))
  {
    var id := StepId(HighestNumber(plan) + 1 + i);
    StepIdRoundTrip(HighestNumber(plan) + 1 + i);
    if Names(plan, id) {
      var j: nat :| j < |plan| && plan[j].id == id;
      HighestBelowBounds(plan, |plan|, j);
    }
  }

  /** In the merged plan a finished step waits for what it waits for among the finished steps alone. */
  lemma DonePartKept(plan: Plan, steps: Plan, k: nat)
    requires NoneCaptured(plan, steps) && UniqueIds(steps) && k < |DoneSteps(plan)|
    ensures DepsAt(Merge(plan, steps), k) == DepsAt(DoneSteps(plan), k)
  {
    var merged, done, d := Merge(plan, steps), DoneSteps(plan), |DoneSteps(plan)|;
    assert merged[k] == done[k];
    if done[k].deps.Some? {
      var refs := done[k].deps.value;
      forall p: nat
        ensures p < |merged| && merged[p].id in refs <==> p < d && done[p].id in refs
      {
        if p < d {
          assert merged[p] == done[p];
        } else if p < |merged| {
          MergedNewId(plan, steps, p - d);
          assert !Captured(plan, k, p - d);
        }
      }
      assert Targets(merged, refs) == Targets(done, refs);
    }
  }

  lemma DoneEdgeKept(plan: Plan, k: nat, l: nat)
    requires DoneClosed(plan) && k < |DoneSteps(plan)| && l < |DoneSteps(plan)|
    ensures l in DepsAt(DoneSteps(plan), k) <==> DonePositions(plan)[l] in DepsAt(plan, DonePositions(plan)[k])
  {
    var positions := DonePositions(plan);
    if plan[positions[k]].deps.None? {
      ChainEdgeKept(plan, k);
      assert k > 0 && l < k - 1 ==> positions[l] < positions[k - 1];
      assert k > 0 && k - 1 < l ==> positions[k - 1] < positions[l];
    }
  }

  /** Dependencies among finished steps stay what they were. */
  lemma DoneEdgesKept(plan: Plan, steps: Plan, k: nat)
    requires RefsExist(plan) && DoneClosed(plan) && UniqueIds(steps)
    requires k < |DoneSteps(plan)|
    ensures DepsAt(Merge(plan, steps), k) <= Below(|DoneSteps(plan)|)
    ensures forall l: nat :: l < |DoneSteps(plan)| ==>
              (l in DepsAt(Merge(plan, steps), k) <==> DonePositions(plan)[l] in DepsAt(plan, DonePositions(plan)[k]))
  {
    ExistingRefsNotCaptured(plan, steps);
    DonePartKept(plan, steps, k);
    forall l: nat | l < |DoneSteps(plan)| { DoneEdgeKept(plan, k, l); }
  }

  lemma IncreasingAt(s: seq<nat>, a: nat, b: nat)
    requires Increasing(s) && a < b < |s|
    ensures s[a] < s[b]
  {
  }

  lemma SamePlace(s: seq<nat>, l: nat, k: nat)
    requires Increasing(s) && l < |s| && k < |s| && s[k] == s[l] + 1
    ensures k == l + 1
  {
    if k < l {
      IncreasingAt(s, k, l);
    } else if l + 1 < k {
      IncreasingAt(s, l, l + 1);
    }
  }

  /** A finished step that follows its predecessor in the plan follows it among the finished steps too. */
  lemma ChainEdgeKept(plan: Plan, k: nat)
    requires DoneClosed(plan) && k < |DoneSteps(plan)| && DoneSteps(plan)[k].deps.None?
    ensures k == 0 <==> DonePositions(plan)[k] == 0
    ensures k > 0 ==> DonePositions(plan)[k - 1] == DonePositions(plan)[k] - 1
  {
    var positions := DonePositions(plan);
    var x := positions[k];
    assert k > 0 ==> positions[0] < x && positions[k - 1] < x;
    if x > 0 {
      assert x - 1 in DepsAt(plan, x);
      var l := DoneIndex(plan, x - 1);
      SamePlace(positions, l, k);
    }
  }

  lemma CarrierIs(steps: Plan, r: string, j: nat)
    requires UniqueIds(steps) && j < |steps|
    ensures LastCarrier(steps, r, |steps|) == Some(j) <==> r == steps[j].id
  {
    UniqueCarrier(steps, j);
  }

  lemma SameNumberSameId(a: nat, b: nat)
    ensures StepId(a) == StepId(b) <==> a == b
  {
    StepIdRoundTrip(a);
    StepIdRoundTrip(b);
  }

  /** The renamed reference `r` points to the new step `j` exactly when `r` named it. */
  lemma RenamedRefTarget(plan: Plan, steps: Plan, r: string, j: nat)
    requires UniqueIds(steps) && j < |steps|
    requires Names(steps, r) || Names(DoneSteps(plan), r)
    ensures Renamed(steps, HighestNumber(plan), r) == StepId(HighestNumber(plan) + 1 + j) <==> r == steps[j].id
  {
    hide UniqueIds, StepId, StepNumber, HighestNumber;
    CarrierIs(steps, r, j);
    match LastCarrier(steps, r, |steps|)
    case Some(i) => SameNumberSameId(HighestNumber(plan) + 1 + i, HighestNumber(plan) + 1 + j);
    case None =>
      NotNamedIsDone(plan, steps, r);
      var k :| 0 <= k < |DoneSteps(plan)| && DoneSteps(plan)[k].id == r;
      DoneIdsDifferFromNew(plan, k, j);
  }

  lemma NotNamedIsDone(plan: Plan, steps: Plan, r: string)
    requires LastCarrier(steps, r, |steps|).None? && (Names(steps, r) || Names(DoneSteps(plan), r))
    ensures Names(DoneSteps(plan), r)
  {
    if Names(steps, r) {
      var i: nat :| i < |steps| && steps[i].id == r;
      NoCarrier(steps, r, |steps|, i);
    }
  }

  lemma RenamedRefsTarget(plan: Plan, steps: Plan, refs: seq<string>, j: nat)
    requires UniqueIds(steps) && j < |steps| && refs != []
    requires forall r :: r in refs ==> Names(steps, r) || Names(DoneSteps(plan), r)
    ensures StepId(HighestNumber(plan) + 1 + j) in
              RenamedRefs(steps, HighestNumber(plan), LastId(DoneSteps(plan)), refs) <==>
            steps[j].id in refs
  {
    var base := HighestNumber(plan);
    var renamed := RenamedRefs(steps, base, LastId(DoneSteps(plan)), refs);
    forall k | 0 <= k < |refs|
      ensures renamed[k] == StepId(base + 1 + j) <==> refs[k] == steps[j].id
    {
      assert refs[k] in refs;
      RenamedRefTarget(plan, steps, refs[k], j);
    }
    SameHits(renamed, StepId(base + 1 + j), refs, steps[j].id);
  }

  lemma NewRefKept(plan: Plan, steps: Plan, i: nat, j: nat)
    requires Acceptable(plan, steps) && i < |steps| && j < |steps| && steps[i].deps.Some?
    ensures StepId(HighestNumber(plan) + 1 + j) in
              RenamedRefs(steps, HighestNumber(plan), LastId(DoneSteps(plan)), steps[i].deps.value) <==>
            steps[j].id in steps[i].deps.value
  {
    if steps[i].deps.value != [] {
      RenamedRefsTarget(plan, steps, steps[i].deps.value, j);
    } else if DoneSteps(plan) != [] {
      DoneIdsDifferFromNew(plan, |DoneSteps(plan)| - 1, j);
    }
  }

  lemma SameHits(a: seq<string>, x: string, b: seq<string>, y: string)
    requires |a| == |b| && forall k :: 0 <= k < |a| ==> (a[k] == x <==> b[k] == y)
    ensures x in a <==> y in b
  {
    if x in a {
      var k :| 0 <= k < |a| && a[k] == x;
      assert b[k] == y;
    }
  }

  lemma DepsByName(plan: Plan, p: nat, refs: seq<string>, q: nat)
    requires p < |plan| && q < |plan| && plan[p].deps == Some(refs)
    ensures q in DepsAt(plan, p) <==> plan[q].id in refs
  {
  }

  /** Dependencies among new steps stay what they were. */
  lemma NewEdgeKept(plan: Plan, steps: Plan, i: nat, j: nat)
    requires Acceptable(plan, steps) && i < |steps| && j < |steps|
    ensures NewAt(plan, j) in DepsAt(Merge(plan, steps), NewAt(plan, i)) <==> j in DepsAt(steps, i)
  {
    var base, last := HighestNumber(plan), LastId(DoneSteps(plan));
    MergedNew(plan, steps, i);
    if steps[i].deps.Some? {
      var refs := steps[i].deps.value;
      NewRefKept(plan, steps, i, j);
      MergedNewId(plan, steps, j);
      DepsByName(Merge(plan, steps), NewAt(plan, i), RenamedRefs(steps, base, last, refs), NewAt(plan, j));
      DepsByName(steps, i, refs, j);
    }
  }

  /** Only the last finished step carries its id. */
  lemma LastIdIsUnique(plan: Plan, steps: Plan, p: nat)
    requires UniqueIds(DoneSteps(plan)) && UniqueIds(steps) && DoneSteps(plan) != [] && p < |Merge(plan, steps)|
    ensures Merge(plan, steps)[p].id == LastId(DoneSteps(plan)) <==> p == |DoneSteps(plan)| - 1
  {
    var merged, d := Merge(plan, steps), |DoneSteps(plan)|;
    assert merged[d - 1] == DoneSteps(plan)[d - 1];
    if p < d - 1 {
      MergedIdsDiffer(plan, steps, p, d - 1);
    } else if p > d - 1 {
      MergedIdsDiffer(plan, steps, d - 1, p);
    }
  }

  /** A new step that declares no dependency is hung behind the last finished step. */
  lemma RootsHangBehindDone(plan: Plan, steps: Plan, i: nat)
    requires UniqueIds(DoneSteps(plan)) && UniqueIds(steps) && i < |steps| && steps[i].deps == Some([])
    requires LastId(DoneSteps(plan)) != ""
    ensures DepsAt(Merge(plan, steps), NewAt(plan, i)) == {|DoneSteps(plan)| - 1}
  {
    hide UniqueIds;
    var merged, d := Merge(plan, steps), |DoneSteps(plan)|;
    MergedNew(plan, steps, i);
    forall p: nat | p < |merged|
      ensures p in DepsAt(merged, NewAt(plan, i)) <==> p == d - 1
    {
      DepsByName(merged, NewAt(plan, i), [LastId(DoneSteps(plan))], p);
      LastIdIsUnique(plan, steps, p);
    }
    assert DepsAt(merged, NewAt(plan, i)) <= Below(|merged|);
  }

  /** The finished step `k` that a new step waits for, as its dependencies were declared. */
  predicate WaitsForDone(plan: Plan, steps: Plan, i: nat, k: nat)
    requires i < |steps| && k < |DoneSteps(plan)|
  {
    var id := DoneSteps(plan)[k].id;
    match steps[i].deps
    case None => i == 0 && k == |DoneSteps(plan)| - 1
    case Some(refs) =>
      if refs == [] then id != "" && id == LastId(DoneSteps(plan)) else id in refs && !Names(steps, id)
  }

  lemma RenamedToDone(plan: Plan, steps: Plan, r: string, k: nat)
    requires k < |DoneSteps(plan)|
    ensures Renamed(steps, HighestNumber(plan), r) == DoneSteps(plan)[k].id <==>
            r == DoneSteps(plan)[k].id && !Names(steps, r)
  {
    match LastCarrier(steps, r, |steps|)
    case Some(i) => DoneIdsDifferFromNew(plan, k, i);
    case None =>
      if Names(steps, r) {
        var i: nat :| i < |steps| && steps[i].id == r;
        NoCarrier(steps, r, |steps|, i);
      }
  }

  /** A new step waits for a finished one exactly when it named it and no new step carries the same id. */
  lemma NewToDoneEdge(plan: Plan, steps: Plan, i: nat, k: nat)
    requires i < |steps| && k < |DoneSteps(plan)|
    ensures k in DepsAt(Merge(plan, steps), NewAt(plan, i)) <==> WaitsForDone(plan, steps, i, k)
  {
    var merged, id := Merge(plan, steps), DoneSteps(plan)[k].id;
    var base, last := HighestNumber(plan), LastId(DoneSteps(plan));
    MergedNew(plan, steps, i);
    assert merged[k] == DoneSteps(plan)[k];
    if steps[i].deps.Some? {
      var refs := steps[i].deps.value;
      var renamed := RenamedRefs(steps, base, last, refs);
      DepsByName(merged, NewAt(plan, i), renamed, k);
      if refs != [] {
        forall j | 0 <= j < |refs|
          ensures renamed[j] == id <==> refs[j] == id && !Names(steps, id)
        {
          RenamedToDone(plan, steps, refs[j], k);
        }
        if !Names(steps, id) { SameHits(renamed, id, refs, id); }
      }
    }
  }

  // ---------- when the merged plan is legal ----------

  lemma DoneNameStays(plan: Plan, steps: Plan, r: string)
    requires Names(DoneSteps(plan), r)
    ensures Names(Merge(plan, steps), r)
  {
    var l :| 0 <= l < |DoneSteps(plan)| && DoneSteps(plan)[l].id == r;
    assert Merge(plan, steps)[l] == DoneSteps(plan)[l];
  }

  lemma MergedRefExists(plan: Plan, steps: Plan, p: nat, r: string)
    requires RefsExist(DoneSteps(plan)) && Acceptable(plan, steps)
    requires p < |Merge(plan, steps)| && Merge(plan, steps)[p].deps.Some? && r in Merge(plan, steps)[p].deps.value
    ensures Names(Merge(plan, steps), r)
  {
    var d := |DoneSteps(plan)|;
    if p < d {
      assert Merge(plan, steps)[p] == DoneSteps(plan)[p];
      DoneRefNamed(plan, p, r);
      DoneNameStays(plan, steps, r);
    } else {
      hide RefsExist, UniqueIds, Names, Merge;
      MergedNew(plan, steps, p - d);
      NewRefExists(plan, steps, steps[p - d].deps.value, r);
    }
  }

  lemma DoneRefNamed(plan: Plan, k: nat, r: string)
    requires RefsExist(DoneSteps(plan)) && k < |DoneSteps(plan)|
    requires DoneSteps(plan)[k].deps.Some? && r in DoneSteps(plan)[k].deps.value
    ensures Names(DoneSteps(plan), r)
  {
  }

  lemma MergedRefsExist(plan: Plan, steps: Plan)
    requires RefsExist(DoneSteps(plan)) && Acceptable(plan, steps)
    ensures RefsExist(Merge(plan, steps))
  {
    var merged := Merge(plan, steps);
    forall p: nat, r | p < |merged| && merged[p].deps.Some? && r in merged[p].deps.value
      ensures Names(merged, r)
    {
      MergedRefExists(plan, steps, p, r);
    }
  }

  lemma RenamedRefExists(plan: Plan, steps: Plan, r: string)
    requires UniqueIds(steps) && (Names(steps, r) || Names(DoneSteps(plan), r))
    ensures Names(Merge(plan, steps), Renamed(steps, HighestNumber(plan), r))
  {
    var merged := Merge(plan, steps);
    match LastCarrier(steps, r, |steps|)
    case Some(j) =>
      MergedNewId(plan, steps, j);
      assert merged[NewAt(plan, j)].id == Renamed(steps, HighestNumber(plan), r);
    case None =>
      if Names(steps, r) {
        var i: nat :| i < |steps| && steps[i].id == r;
        NoCarrier(steps, r, |steps|, i);
      } else {
        var l :| 0 <= l < |DoneSteps(plan)| && DoneSteps(plan)[l].id == r;
        assert merged[l].id == r;
      }
  }

  lemma NewRefExists(plan: Plan, steps: Plan, refs: seq<string>, r: string)
    requires UniqueIds(steps)
    requires forall x :: x in refs ==> Names(steps, x) || Names(DoneSteps(plan), x)
    requires r in RenamedRefs(steps, HighestNumber(plan), LastId(DoneSteps(plan)), refs)
    ensures Names(Merge(plan, steps), r)
  {
    if refs == [] {
      var d := |DoneSteps(plan)|;
      assert Merge(plan, steps)[d - 1].id == r;
    } else {
      var k :| 0 <= k < |refs| && r == Renamed(steps, HighestNumber(plan), refs[k]);
      assert refs[k] in refs;
      RenamedRefExists(plan, steps, refs[k]);
    }
  }

  function Above(xs: seq<nat>): (bound: nat)
    ensures forall i :: 0 <= i < |xs| ==> xs[i] < bound
  {
    if xs == [] then 0 else Max(Above(xs[..|xs| - 1]), xs[|xs| - 1] + 1)
  }

  /** Ranks of the finished steps, with the ranks of the new steps stacked above them. */
  function MergedRank(doneRank: seq<nat>, newRank: seq<nat>, p: nat): (rank: nat)
    requires p < |doneRank| + |newRank|
  {
    if p < |doneRank| then doneRank[p] else Above(doneRank) + newRank[p - |doneRank|]
  }

  lemma MergedEdgeRanked(plan: Plan, steps: Plan, doneRank: seq<nat>, newRank: seq<nat>, p: nat, q: nat)
    requires NoneCaptured(plan, steps) && Acceptable(plan, steps)
    requires Ranks(DepGraph(DoneSteps(plan)), doneRank) && Ranks(DepGraph(steps), newRank)
    requires p < |Merge(plan, steps)| && q in DepsAt(Merge(plan, steps), p)
    ensures q < |Merge(plan, steps)| && MergedRank(doneRank, newRank, q) < MergedRank(doneRank, newRank, p)
  {
    hide UniqueIds, NoneCaptured, Acceptable, Merge, DepsAt, Ranks;
    var d := |DoneSteps(plan)|;
    RankSizes(plan, steps, doneRank, newRank);
    assert q in Below(|Merge(plan, steps)|);
    if p < d {
      DoneEdgeRanked(plan, steps, doneRank, p, q);
    } else if q >= d {
      NewEdgeRanked(plan, steps, newRank, p - d, q - d);
    }
  }

  lemma RankSizes(plan: Plan, steps: Plan, doneRank: seq<nat>, newRank: seq<nat>)
    requires Ranks(DepGraph(DoneSteps(plan)), doneRank) && Ranks(DepGraph(steps), newRank) && Acceptable(plan, steps)
    ensures |doneRank| == |DoneSteps(plan)| && |newRank| == |steps| && UniqueIds(steps)
  {
  }

  lemma DoneEdgeRanked(plan: Plan, steps: Plan, doneRank: seq<nat>, k: nat, q: nat)
    requires NoneCaptured(plan, steps) && UniqueIds(steps) && Ranks(DepGraph(DoneSteps(plan)), doneRank)
    requires k < |DoneSteps(plan)| && q in DepsAt(Merge(plan, steps), k)
    ensures Precedes(doneRank, q, k)
  {
    DonePartKept(plan, steps, k);
    assert q in DepGraph(DoneSteps(plan))[k];
  }

  lemma NewEdgeRanked(plan: Plan, steps: Plan, newRank: seq<nat>, i: nat, j: nat)
    requires Acceptable(plan, steps) && Ranks(DepGraph(steps), newRank)
    requires i < |steps| && j < |steps| && NewAt(plan, j) in DepsAt(Merge(plan, steps), NewAt(plan, i))
    ensures Precedes(newRank, j, i)
  {
    NewEdgeKept(plan, steps, i, j);
    assert j in DepGraph(steps)[i];
  }

  lemma MergedAcyclic(plan: Plan, steps: Plan)
    requires NoneCaptured(plan, steps) && Acceptable(plan, steps) && !HasCycle(DepGraph(DoneSteps(plan)))
    ensures !HasCycle(DepGraph(Merge(plan, steps)))
  {
    var doneRank := AcyclicHasRank(DepGraph(DoneSteps(plan)));
    var newRank := AcyclicHasRank(DepGraph(steps));
    var g := DepGraph(Merge(plan, steps));
    var rank: seq<nat> := seq(|g|, p requires 0 <= p < |g| => MergedRank(doneRank, newRank, p));
    forall p: nat, q: nat | p < |g| && q in g[p]
      ensures Precedes(rank, q, p)
    {
      MergedEdgeRanked(plan, steps, doneRank, newRank, p, q);
    }
    RankedHasNoCycle(g, rank);
  }

  /** Cycles and dangling references among the finished steps stay in the merged plan. */
  lemma DonePartOfLegal(plan: Plan, steps: Plan)
    requires NoneCaptured(plan, steps) && UniqueIds(steps) && PlanLayers(Merge(plan, steps)).Some?
    ensures PlanLayers(DoneSteps(plan)).Some?
  {
    hide UniqueIds, RefsExist;
    PlanLayersCharacterised(Merge(plan, steps));
    PlanLayersCharacterised(DoneSteps(plan));
    DoneIdsStay(plan, steps);
    DoneRefsStay(plan, steps);
    DoneCycleStays(plan, steps);
  }

  lemma DoneIdsStay(plan: Plan, steps: Plan)
    requires UniqueIds(Merge(plan, steps))
    ensures UniqueIds(DoneSteps(plan))
  {
    assert forall k :: 0 <= k < |DoneSteps(plan)| ==> Merge(plan, steps)[k] == DoneSteps(plan)[k];
  }

  lemma DoneRefsStay(plan: Plan, steps: Plan)
    requires NoneCaptured(plan, steps) && UniqueIds(steps) && RefsExist(Merge(plan, steps))
    ensures RefsExist(DoneSteps(plan))
  {
    forall k: nat, r | k < |DoneSteps(plan)| && DoneSteps(plan)[k].deps.Some? && r in DoneSteps(plan)[k].deps.value
      ensures Names(DoneSteps(plan), r)
    {
      DoneRefStays(plan, steps, k, r);
    }
  }

  lemma DoneRefIsNotNew(plan: Plan, steps: Plan, k: nat, r: string, i: nat)
    requires NoneCaptured(plan, steps) && UniqueIds(steps) && i < |steps|
    requires k < |DoneSteps(plan)| && DoneSteps(plan)[k].deps.Some? && r in DoneSteps(plan)[k].deps.value
    ensures Merge(plan, steps)[NewAt(plan, i)].id != r
  {
    MergedNewId(plan, steps, i);
    assert !Captured(plan, k, i);
  }

  lemma DoneRefStays(plan: Plan, steps: Plan, k: nat, r: string)
    requires NoneCaptured(plan, steps) && UniqueIds(steps) && RefsExist(Merge(plan, steps))
    requires k < |DoneSteps(plan)| && DoneSteps(plan)[k].deps.Some? && r in DoneSteps(plan)[k].deps.value
    ensures Names(DoneSteps(plan), r)
  {
    var merged, done := Merge(plan, steps), DoneSteps(plan);
    assert merged[k] == done[k] && Names(merged, r);
    var p: nat :| p < |merged| && merged[p].id == r;
    if p >= |done| {
      DoneRefIsNotNew(plan, steps, k, r, p - |done|);
    } else {
      assert merged[p] == done[p];
    }
  }

  lemma DoneCycleStays(plan: Plan, steps: Plan)
    requires NoneCaptured(plan, steps) && UniqueIds(steps)
    ensures HasCycle(DepGraph(DoneSteps(plan))) ==> HasCycle(DepGraph(Merge(plan, steps)))
  {
    var small, large := DepGraph(DoneSteps(plan)), DepGraph(Merge(plan, steps));
    if HasCycle(small) {
      var w :| IsWalk(small, w) && |w| >= 2 && w[0] == w[|w| - 1];
      forall k: nat | k < |small|
        ensures large[k] == small[k]
      {
        DonePartKept(plan, steps, k);
      }
      assert IsWalk(large, w);
    }
  }

  /** Legal finished steps refer to each other only. */
  lemma LegalDoneNotCaptured(plan: Plan, steps: Plan)
    requires RefsExist(DoneSteps(plan))
    ensures NoneCaptured(plan, steps)
  {
    forall k: nat, i: nat | k < |DoneSteps(plan)| && i < |steps|
      ensures !Captured(plan, k, i)
    {
      var id := StepId(HighestNumber(plan) + 1 + i);
      if Names(DoneSteps(plan), id) {
        var l: nat :| l < |DoneSteps(plan)| && DoneSteps(plan)[l].id == id;
        DoneIdsDifferFromNew(plan, l, i);
      }
    }
  }

  /**
   Whatever the old plan was: if its finished steps alone are a legal plan, acceptable new steps are run as
   declared.
   */
  lemma LegalDoneSuffices(plan: Plan, steps: Plan)
    requires Acceptable(plan, steps) && PlanLayers(DoneSteps(plan)).Some?
    ensures PlanLayers(Merge(plan, steps)).Some?
  {
    PlanLayersCharacterised(DoneSteps(plan));
    PlanLayersCharacterised(Merge(plan, steps));
    LegalDoneNotCaptured(plan, steps);
    MergedUnique(plan, steps);
    MergedRefsExist(plan, steps);
    MergedAcyclic(plan, steps);
  }

  /**
   The condition is exact as long as no dangling reference of a finished step is the id that a new step is about to
   get; a plan whose references exist, legal or not, has no such reference.
   */
  lemma MergedLegalExactlyWhen(plan: Plan, steps: Plan)
    requires Acceptable(plan, steps) && (RefsExist(plan) || NoneCaptured(plan, steps))
    ensures PlanLayers(Merge(plan, steps)).Some? <==> PlanLayers(DoneSteps(plan)).Some?
  {
    if RefsExist(plan) { ExistingRefsNotCaptured(plan, steps); }
    if PlanLayers(Merge(plan, steps)).Some? {
      DonePartOfLegal(plan, steps);
    } else if PlanLayers(DoneSteps(plan)).Some? {
      LegalDoneSuffices(plan, steps);
    }
  }

  /** A finished step that refers to nothing, a finished step without dependencies, and an unfinished one. */
  function CapturingPlan(): (plan: Plan) {
    [PlanStep(StepId(1), "a", Done, "", Some([StepId(4)])), PlanStep(StepId(2), "b", Done, "", Some([])),
     PlanStep(StepId(3), "c", Pending, "", Some([]))]
  }

  function CapturedStep(): (steps: Plan) {
    [PlanStep(StepId(1), "d", Pending, "", Some([]))]
  }

  /** What they are merged into: the new step gets number four and hangs behind the second step. */
  function RepairedPlan(): (plan: Plan) {
    [PlanStep(StepId(1), "a", Done, "", Some([StepId(4)])), PlanStep(StepId(2), "b", Done, "", Some([])),
     PlanStep(StepId(4), "d", Pending, "", Some([StepId(2)]))]
  }

  lemma FourIdsDiffer()
    ensures StepId(1) != StepId(2) && StepId(1) != StepId(4) && StepId(2) != StepId(4)
  {
    StepIdRoundTrip(1);
    StepIdRoundTrip(2);
    StepIdRoundTrip(4);
  }

  lemma CapturingNumbers()
    ensures HighestNumber(CapturingPlan()) == 3
  {
    var plan := CapturingPlan();
    StepIdRoundTrip(1);
    StepIdRoundTrip(2);
    StepIdRoundTrip(3);
    assert HighestBelow(plan, 1) == 1;
    assert HighestBelow(plan, 2) == 2;
  }

  lemma CapturingDone()
    ensures DonePositions(CapturingPlan()) == [0, 1] && DoneSteps(CapturingPlan()) == CapturingPlan()[..2]
  {
    var plan := CapturingPlan();
    assert DoneFrom(plan, 3) == [];
    assert DoneFrom(plan, 2) == [];
    assert DoneFrom(plan, 1) == [1];
  }

  lemma CapturingMerged()
    ensures Merge(CapturingPlan(), CapturedStep()) == RepairedPlan()
  {
    var plan, steps := CapturingPlan(), CapturedStep();
    CapturingNumbers();
    CapturingDone();
    MergedNew(plan, steps, 0);
    UniqueCarrier(steps, 0);
    var merged := Merge(plan, steps);
    assert merged[0] == DoneSteps(plan)[0] && merged[1] == DoneSteps(plan)[1];
  }

  lemma CapturedAcceptable()
    ensures Acceptable(CapturingPlan(), CapturedStep())
  {
    assert DepsAt(CapturedStep(), 0) == {};
    RankedHasNoCycle(DepGraph(CapturedStep()), [0]);
  }

  lemma CapturingDoneIllegal()
    ensures PlanLayers(DoneSteps(CapturingPlan())).None? && Captured(CapturingPlan(), 0, 0)
  {
    CapturingNumbers();
    CapturingDone();
    FourIdsDiffer();
    var done := DoneSteps(CapturingPlan());
    assert done[0].id != StepId(4) && done[1].id != StepId(4);
    assert !Names(done, StepId(4));
    assert StepId(4) in done[0].deps.value;
  }

  lemma RepairedLegal()
    ensures PlanLayers(RepairedPlan()).Some?
  {
    var merged := RepairedPlan();
    FourIdsDiffer();
    assert merged[2].id == StepId(4) && merged[1].id == StepId(2);
    assert Names(merged, StepId(4)) && Names(merged, StepId(2));
    RepairedRanked();
    PlanLayersCharacterised(merged);
  }

  /** The second step first, then the new one, then the one that refers to it. */
  lemma RepairedRanked()
    ensures !HasCycle(DepGraph(RepairedPlan()))
  {
    var merged := RepairedPlan();
    FourIdsDiffer();
    var rank: seq<nat> := [2, 0, 1];
    assert DepsAt(merged, 0) == {2} && DepsAt(merged, 1) == {} && DepsAt(merged, 2) == {1};
    RankedHasNoCycle(DepGraph(merged), rank);
  }

  /** With a captured reference the merged plan can be legal although the finished steps alone are not. */
  lemma CapturedReferenceIsRepaired()
    ensures var plan, steps := CapturingPlan(), CapturedStep();
            && Acceptable(plan, steps) && !NoneCaptured(plan, steps)
            && PlanLayers(DoneSteps(plan)).None? && PlanLayers(Merge(plan, steps)).Some?
  {
    hide PlanLayers, Acceptable, Captured, DoneSteps, Merge, RepairedPlan;
    CapturedAcceptable();
    CapturingDone();
    CapturingDoneIllegal();
    CapturingMerged();
    RepairedLegal();
    assert |CapturedStep()| == 1;
  }

  /** Dropping the unfinished steps of a legal plan with closed finished steps leaves a legal plan. */
  lemma DonePartLegal(plan: Plan)
    requires PlanLayers(plan).Some? && DoneClosed(plan)
    ensures PlanLayers(DoneSteps(plan)).Some? && DoneClosed(DoneSteps(plan))
  {
    var done, positions := DoneSteps(plan), DonePositions(plan);
    PlanLayersCharacterised(plan);
    PlanLayersCharacterised(done);
    DoneUnique(plan);
    forall k: nat, r | k < |done| && done[k].deps.Some? && r in done[k].deps.value
      ensures Names(done, r)
    {
      var l := DoneRefIsDone(plan, k, r);
    }
    var oldRank := AcyclicHasRank(DepGraph(plan));
    var rank: seq<nat> := seq(|done|, k requires 0 <= k < |done| => oldRank[positions[k]]);
    forall k: nat, l: nat | k < |done| && l in DepGraph(done)[k]
      ensures Precedes(rank, l, k)
    {
      assert l in Below(|done|);
      DoneEdgeKept(plan, k, l);
      assert positions[l] in DepGraph(plan)[positions[k]];
      assert Precedes(oldRank, positions[l], positions[k]);
    }
    RankedHasNoCycle(DepGraph(done), rank);
    DoneOnlyClosed(done);
  }

  lemma DoneOnlyClosed(done: Plan)
    requires forall k :: 0 <= k < |done| ==> done[k].status.Done?
    ensures DoneClosed(done)
  {
    forall p: nat | p < |done|
      ensures AllDone(done, DepsAt(done, p))
    {
      assert forall q: nat :: q in DepsAt(done, p) ==> q in Below(|done|);
    }
  }

  /**
   Replanning preserves meaning: from a legal plan whose finished steps wait for finished steps only, and
   acceptable new steps, the merged plan has distinct ids, keeps the finished steps unchanged, in order and
   in front, keeps every dependency among finished steps, among new steps and from new to finished steps,
   and is accepted without fallback.
   */
  lemma ReplanPreserves(plan: Plan, steps: Plan)
    requires PlanLayers(plan).Some? && DoneClosed(plan) && Acceptable(plan, steps)
    ensures UniqueIds(Merge(plan, steps))
    ensures Merge(plan, steps)[..|DoneSteps(plan)|] == DoneSteps(plan)
    ensures |Merge(plan, steps)| == |DoneSteps(plan)| + |steps| && forall i: nat :: i < |steps| ==>
              Merge(plan, steps)[NewAt(plan, i)].description == steps[i].description &&
              Merge(plan, steps)[NewAt(plan, i)].status == steps[i].status
    ensures forall k: nat, l: nat :: k < |DoneSteps(plan)| && l < |DoneSteps(plan)| ==>
              (l in DepsAt(Merge(plan, steps), k) <==> DonePositions(plan)[l] in DepsAt(plan, DonePositions(plan)[k]))
    ensures forall i: nat, j: nat :: i < |steps| && j < |steps| ==>
              (NewAt(plan, j) in DepsAt(Merge(plan, steps), NewAt(plan, i)) <==> j in DepsAt(steps, i))
    ensures forall i: nat, k: nat :: i < |steps| && k < |DoneSteps(plan)| ==>
              (k in DepsAt(Merge(plan, steps), NewAt(plan, i)) <==> WaitsForDone(plan, steps, i, k))
    ensures PlanLayers(Merge(plan, steps)).Some?
    ensures SafeLayers(Merge(plan, steps)) == PlanLayers(Merge(plan, steps)).value
  {
    PlanLayersCharacterised(plan);
    DonePartLegal(plan);
    MergedLegalExactlyWhen(plan, steps);
    PlanLayersCharacterised(Merge(plan, steps));
    forall k: nat | k < |DoneSteps(plan)| { DoneEdgesKept(plan, steps, k); }
    forall i: nat, j: nat | i < |steps| && j < |steps| { NewEdgeKept(plan, steps, i, j); }
    forall i: nat | i < |steps| { NewStepsNumberedOn(plan, steps, i); }
    forall i: nat, k: nat | i < |steps| && k < |DoneSteps(plan)| { NewToDoneEdge(plan, steps, i, k); }
  }

  /** The finished steps of the merged plan again wait for finished steps only. */
  lemma MergeKeepsClosure(plan: Plan, steps: Plan)
    requires RefsExist(plan) && UniqueIds(steps) && AllPending(steps)
    ensures DoneClosed(Merge(plan, steps))
  {
    var merged, d := Merge(plan, steps), |DoneSteps(plan)|;
    ExistingRefsNotCaptured(plan, steps);
    forall p: nat | p < |merged| && merged[p].status.Done?
      ensures AllDone(merged, DepsAt(merged, p))
    {
      if d <= p { MergedNew(plan, steps, p - d); }
      DonePartKept(plan, steps, p);
      assert forall q: nat :: q in DepsAt(merged, p) ==> q in Below(d);
    }
  }

  /**
   The closure premise matters: a finished step that names an unfinished one loses that dependency,
   and the merged plan is then rejected.
   */
  lemma OpenDoneSetIsRejected(plan: Plan, steps: Plan, x: nat, y: nat)
    requires UniqueIds(plan) && UniqueIds(steps) && x < |plan| && y < |plan|
    requires plan[x].status.Done? && plan[y].status.Pending? && plan[x].deps.Some? && plan[y].id in plan[x].deps.value
    ensures PlanLayers(Merge(plan, steps)).None?
  {
    var merged, d, base := Merge(plan, steps), |DoneSteps(plan)|, HighestNumber(plan);
    var k := DoneIndex(plan, x);
    assert merged[k] == plan[x];
    forall p | 0 <= p < |merged|
      ensures merged[p].id != plan[y].id
    {
      if p < d {
        assert merged[p] == plan[DonePositions(plan)[p]];
      } else {
        MergedNewId(plan, steps, p - d);
        StepIdRoundTrip(base + 1 + (p - d));
        if StepNumber(plan[y].id).Some? { HighestBelowBounds(plan, |plan|, y); }
      }
    }
    assert !Names(merged, plan[y].id);
  }
}
