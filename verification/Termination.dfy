/**
 How long a run can take: a bound on node executions, the exact worst case, and the step limit that the
 engine sets for the graph (app/graph/engine.py `_build`, `_config`).
 */
module Termination {
  import opened Basics
  import opened PlanDag
  import opened Messages
  import opened ToolRound
  import opened Agent
  import opened AgentRuns

  // ---------- the bound ----------

  function RemainingSteps(s: State): (n: nat) {
    Max(0, s.maxSteps - s.stepsUsed)
  }

  /** An upper bound on the node executions still to come. */
  function Remaining(node: Node, s: State): (n: nat) {
    match node
    case End => 0
    case FinisherNode => 1
    case ReactNode => 5 * RemainingSteps(s) + 2
    case PlannerNode => 5 * RemainingSteps(s) + 3
    case CompressorNode => 5 * RemainingSteps(s) + 3
    case CriticNode => 5 * RemainingSteps(s) + 4
    case ToolNode => 5 * RemainingSteps(s) + 5
    case GateNode => 5 * RemainingSteps(s) + 6
  }

  lemma ReactProgress(cfg: Config, s: State, env: Env)
    ensures var r := ReactStep(cfg, s, env); Remaining(RouteAfterStep(r), r) < Remaining(ReactNode, s)
  {
  }

  lemma NodeProgress(cfg: Config, initial: Mode, node: Node, s: State, env: Env)
    requires CountersOk(cfg, initial, s) && node != End
    ensures var r := NodeState(cfg, node, s, env); Remaining(Route(node, r), r) < Remaining(node, s)
  {
    match node
    case PlannerNode =>
      CountersPlanned(cfg, initial, s, NewPlan(s, env), env.planTokens);
      StepsKeptByPlanner(cfg, s, NewPlan(s, env), env.planTokens);
    case ReactNode => ReactProgress(cfg, s, env);
    case ToolNode => RoundKeepsCounters(cfg, s, env);
    case CriticNode =>
      CountersCritic(cfg, initial, s);
      StepsKeptByCritic(cfg, s);
    case _ => PassiveNodesKeepCounters(s, env);
  }

  lemma StepsKeptByPlanner(cfg: Config, s: State, plan: Plan, tokens: nat)
    ensures Planned(cfg, s, plan, tokens).stepsUsed == s.stepsUsed
  {
  }

  lemma StepsKeptByCritic(cfg: Config, s: State)
    ensures Critic(cfg, s).stepsUsed == s.stepsUsed
  {
    if s.status == Running { CriticCases(cfg, s); }
  }

  lemma {:induction false} RunProgress(cfg: Config, initial: Mode, c: Conf, envs: seq<Env>)
    requires CountersOk(cfg, initial, c.s)
    ensures var r := Run(cfg, c, envs); r.node == End || Remaining(r.node, r.s) + |envs| <= Remaining(c.node, c.s)
    decreases |envs|
  {
    if envs != [] {
      var init := envs[..|envs| - 1];
      RunProgress(cfg, initial, c, init);
      CountersRun(cfg, initial, c, init);
      var before := Run(cfg, c, init);
      if before.node != End { NodeProgress(cfg, initial, before.node, before.s, envs[|envs| - 1]); }
    }
  }

  /** Node executions that always suffice. */
  function WorstCase(mode: Mode, maxSteps: int): (n: nat) {
    5 * Max(0, maxSteps) + (if mode == PlanExecute then 3 else 2)
  }

  /**
   Whatever the model, the tools and the user do, an uninterrupted run has ended, with a final status, after
   5 * max_steps + 3 node executions (one fewer without initial planning).
   */
  lemma EveryRunEnds(cfg: Config, goal: string, mode: Mode, maxTokens: int, maxSteps: int, approval: bool,
                     envs: seq<Env>)
    requires |envs| >= WorstCase(mode, maxSteps)
    ensures var r := Run(cfg, Agent.Start(InitState(goal, mode, maxTokens, maxSteps, approval)), envs);
            r.node == End && r.s.status != Running
  {
    var start := Agent.Start(InitState(goal, mode, maxTokens, maxSteps, approval));
    RunProgress(cfg, mode, start, envs);
    StartControl(goal, mode, maxTokens, maxSteps, approval);
    ControlRun(cfg, start, envs);
    var r := Run(cfg, start, envs);
    assert Remaining(r.node, r.s) >= 1 || r.node == End;
  }

  // ---------- the worst case happens ----------

  /** A reply with one tool call; the call succeeds; nothing costs tokens; the plan has `n` steps. */
  function BusyEnv(n: nat): (env: Env) {
    Env(false, seq(n, _ => Text("step")), 0, Reply("", [BUSY_CALL], 0), true,
        [Executed(Success("tool", "{}", BUSY_RESULT), [])], [], false, "", 0, "done", 0)
  }

  function BusyEnvs(n: nat, count: nat): (envs: seq<Env>) {
    seq(count, _ => BusyEnv(n))
  }

  ghost predicate IsChain(plan: Plan) {
    forall i :: 0 <= i < |plan| ==> plan[i].deps.None?
  }

  /** Running, nothing spent, and in plan mode `batch` of the chain's `n` steps done. */
  ghost predicate Busy(s: State, steps: nat, batch: nat, n: nat) {
    && s.status == Running && !s.needsFinal && s.stepsUsed == steps && s.tokensUsed == 0 && s.maxTokens > 0
    && (s.mode == PlanExecute ==> |s.plan| == n && s.currentStep == batch && IsChain(s.plan))
  }

  const BUSY_RESULT := ToolResult("done", "", 0)
  const BUSY_CALL := Call("call_1", "tool", "{}", "")

  /** Stage `r` of round `k`. */
  ghost predicate BusyStage(c: Conf, k: nat, r: nat, n: nat) {
    match r
    case 0 => c.node == ReactNode && Busy(c.s, k, k, n)
    case 1 => c.node == GateNode && Busy(c.s, k + 1, k, n) && c.s.pending == [BUSY_CALL]
    case 2 => c.node == ToolNode && Busy(c.s, k + 1, k, n) && c.s.pending == [BUSY_CALL]
    case 3 => c.node == CriticNode && Busy(c.s, k + 1, k, n) && c.s.observations == [Success("tool", "{}", BUSY_RESULT)]
    case _ => c.node == CompressorNode && Busy(c.s, k + 1, k + 1, n)
  }

  lemma ChainBatches(plan: Plan)
    requires IsChain(plan)
    ensures SafeLayers(plan) == Sequential(|plan|)
  {
    if PlanLayers(plan).Some? {
      ChainLayers(plan);
    } else {
      FallbackIsSequential(plan);
    }
  }

  lemma BusyDecision(cfg: Config, s: State, k: nat, n: nat)
    requires Busy(s, k, k, n) && k < s.maxSteps && k < n
    ensures var r := ReactStep(cfg, s, BusyEnv(n));
            RouteAfterStep(r) == GateNode && Busy(r, k + 1, k, n) && r.pending == [BUSY_CALL] && SameTask(s, r)
            && r.mode == s.mode
  {
    if s.mode == PlanExecute { ChainBatches(s.plan); }
  }

  lemma BusyTools(cfg: Config, s: State, k: nat, n: nat)
    requires Busy(s, k + 1, k, n) && s.pending == [BUSY_CALL]
    ensures var r := ToolExecutor(cfg, s, BusyEnv(n));
            Busy(r, k + 1, k, n) && r.observations == [Success("tool", "{}", BUSY_RESULT)] && SameTask(s, r)
            && r.mode == s.mode
  {
    var env := BusyEnv(n);
    PlanKeptByTools(cfg, s, env);
    RoundKeepsCounters(cfg, s, env);
    RoundTokens(cfg.keyLimits, s.pending, env.outcomes, env.schedule, Totals(s.tokensUsed, 0, s.keyOutputs));
    assert RoundCharge(env.outcomes, 1) == RoundCharge(env.outcomes, 0);
  }

  lemma BusyCritic(cfg: Config, s: State, k: nat, n: nat)
    requires Busy(s, k + 1, k, n) && s.observations == [Success("tool", "{}", BUSY_RESULT)]
    ensures var r := Critic(cfg, s);
            Busy(r, k + 1, k + 1, n) && RouteAfterCritic(r) == CompressorNode && SameTask(s, r) && r.mode == s.mode
  {
    assert s.observations[1..] == [];
    assert FailedOf(s.observations) == [];
    assert Critic(cfg, s) == Advance(s);
  }

  /** From stage to stage: five nodes per round. */
  lemma BusyNext(cfg: Config, c: Conf, k: nat, r: nat, n: nat)
    requires r < 5 && BusyStage(c, k, r, n) && k < c.s.maxSteps && k < n
    ensures var c' := Next(cfg, c, BusyEnv(n));
            (if r < 4 then BusyStage(c', k, r + 1, n) else BusyStage(c', k + 1, 0, n))
            && SameTask(c.s, c'.s) && c'.s.mode == c.s.mode
  {
    match r
    case 0 => BusyDecision(cfg, c.s, k, n);
    case 1 =>
    case 2 => BusyTools(cfg, c.s, k, n);
    case 3 => BusyCritic(cfg, c.s, k, n);
    case _ =>
  }

  lemma {:induction false} ParseChain(raw: seq<RawStep>, steps: Plan)
    requires forall i :: 0 <= i < |raw| ==> raw[i] == Text("step")
    requires IsChain(steps) && AllPending(steps)
    ensures var r := ParseFrom(raw, steps); IsChain(r) && AllPending(r) && |r| == |steps| + |raw|
    decreases |raw|
  {
    if raw != [] {
      ParseChain(raw[1..], steps + [StepFrom(raw[0], |steps| + 1)]);
    }
  }

  lemma ChainStartsAtFirst(plan: Plan)
    requires IsChain(plan) && AllPending(plan) && plan != []
    ensures StartBatch(plan) == 0
  {
    ChainBatches(plan);
    assert SafeLayers(plan)[0] == [0];
    assert 0 in SafeLayers(plan)[0] && plan[0].status.Pending?;
    assert HasPending(plan, SafeLayers(plan)[0]);
  }

  lemma BusyPlanning(cfg: Config, s: State, n: nat)
    requires s.mode == PlanExecute && s.status == Running && !s.needsFinal && s.stepsUsed == 0 && s.tokensUsed == 0
    requires s.maxTokens > 0 && s.lastError == "" && n > 0
    ensures var r := Planner(cfg, s, BusyEnv(n)); Busy(r, 0, 0, n) && SameTask(s, r) && r.mode == s.mode
  {
    var raw := BusyEnv(n).planItems;
    ParseChain(raw, []);
    var plan := ParseFrom(raw, []);
    assert NewPlan(s, BusyEnv(n)) == plan;
    ChainStartsAtFirst(plan);
  }

  function Lead(mode: Mode): (n: nat) {
    if mode == PlanExecute then 1 else 0
  }

  /** The configuration after `count` nodes of the busy run. */
  function BusyConf(cfg: Config, c: Conf, n: nat, count: nat): (r: Conf) {
    if count == 0 then c else Next(cfg, BusyConf(cfg, c, n, count - 1), BusyEnv(n))
  }

  lemma {:induction false} BusyConfIsRun(cfg: Config, c: Conf, n: nat, count: nat)
    ensures Run(cfg, c, BusyEnvs(n, count)) == BusyConf(cfg, c, n, count)
  {
    if count == 0 {
      assert BusyEnvs(n, 0) == [];
    } else {
      BusyConfIsRun(cfg, c, n, count - 1);
      assert BusyEnvs(n, count)[..count - 1] == BusyEnvs(n, count - 1);
    }
  }

  /** A fresh task with room for tokens and fewer steps than the plan will have. */
  ghost predicate FreshTask(c: Conf, n: nat) {
    && c.s.maxTokens > 0 && c.s.maxSteps < n && n > 0
    && c == Agent.Start(InitState(c.s.goal, c.s.mode, c.s.maxTokens, c.s.maxSteps, c.s.requireApproval))
  }

  lemma BusyStart(cfg: Config, c: Conf, n: nat)
    requires FreshTask(c, n)
    ensures Reached(cfg, c, n, Lead(c.s.mode), 0, 0)
  {
    if c.s.mode == PlanExecute { BusyPlanning(cfg, c.s, n); }
  }

  /** After `count` nodes of the busy run, round `k` is at stage `r`. */
  ghost predicate Reached(cfg: Config, c: Conf, n: nat, count: nat, k: nat, r: nat) {
    BusyStage(BusyConf(cfg, c, n, count), k, r, n) && SameTask(c.s, BusyConf(cfg, c, n, count).s)
  }

  lemma {:induction false} BusyRun(cfg: Config, c: Conf, n: nat, count: nat, k: nat, r: nat)
    requires Reached(cfg, c, n, Lead(c.s.mode), 0, 0)
    requires c.s.maxSteps < n && k <= Max(0, c.s.maxSteps) && r < 5 && (r == 0 || k < c.s.maxSteps)
    requires count == Lead(c.s.mode) + 5 * k + r
    ensures Reached(cfg, c, n, count, k, r)
    decreases count
  {
    hide Next;
    if r > 0 {
      BusyRun(cfg, c, n, count - 1, k, r - 1);
      BusyStep(cfg, c, n, count - 1, k, r - 1);
    } else if k > 0 {
      BusyRun(cfg, c, n, count - 1, k - 1, 4);
      BusyStep(cfg, c, n, count - 1, k - 1, 4);
    }
  }

  lemma BusyStep(cfg: Config, c: Conf, n: nat, count: nat, k: nat, r: nat)
    requires r < 5 && k < c.s.maxSteps && k < n
    requires Reached(cfg, c, n, count, k, r)
    ensures if r < 4 then Reached(cfg, c, n, count + 1, k, r + 1) else Reached(cfg, c, n, count + 1, k + 1, 0)
  {
    BusyNext(cfg, BusyConf(cfg, c, n, count), k, r, n);
  }

  /** The busy run is still under way one node before the bound. */
  lemma BusyUntilTheBound(cfg: Config, c: Conf, n: nat, count: nat)
    requires FreshTask(c, n) && count < WorstCase(c.s.mode, c.s.maxSteps)
    ensures Run(cfg, c, BusyEnvs(n, count)).node != End
  {
    BusyConfIsRun(cfg, c, n, count);
    BusyConfUnderWay(cfg, c, n, count);
  }

  lemma BusyConfUnderWay(cfg: Config, c: Conf, n: nat, count: nat)
    requires FreshTask(c, n) && count < WorstCase(c.s.mode, c.s.maxSteps)
    ensures BusyConf(cfg, c, n, count).node != End
  {
    hide Next;
    var m: nat, lead := Max(0, c.s.maxSteps), Lead(c.s.mode);
    BusyStart(cfg, c, n);
    if lead <= count <= lead + 5 * m {
      BusyRun(cfg, c, n, count, (count - lead) / 5, (count - lead) % 5);
    } else if count > lead {
      BusyRun(cfg, c, n, count - 1, m, 0);
      OutOfSteps(cfg, BusyConf(cfg, c, n, count - 1), BusyEnv(n));
    }
  }

  lemma OutOfSteps(cfg: Config, c: Conf, env: Env)
    requires c.node == ReactNode && c.s.stepsUsed >= c.s.maxSteps
    ensures Next(cfg, c, env).node == FinisherNode
  {
  }

  // ---------- the engine's limit ----------

  /** The limit on graph steps that the engine derives from the task's step budget. */
  function RecursionLimit(maxSteps: int, defaultMaxSteps: int): (n: nat)
    ensures n >= 28
  {
    var steps := if maxSteps <= 0 then Max(defaultMaxSteps, 1) else maxSteps;
    steps * 4 + 24
  }

  /** Largest step budget for which the limit is never the reason for stopping. */
  function SafeSteps(mode: Mode): (n: nat) {
    if mode == PlanExecute then 21 else 22
  }

  /**
   The limit lets every run finish exactly for step budgets up to 21 (22 without initial planning): beyond,
   some run needs more node executions than the limit allows, although its step budget is respected. (The count
   starts anew when an approval resumes the graph, so this is about tasks that need none.)
   */
  lemma LimitSufficesExactlyWhen(cfg: Config, goal: string, mode: Mode, maxTokens: int, maxSteps: int,
                                 defaultMaxSteps: int)
    requires maxTokens > 0
    ensures (forall envs: seq<Env> :: |envs| == RecursionLimit(maxSteps, defaultMaxSteps) ==>
               Run(cfg, Agent.Start(InitState(goal, mode, maxTokens, maxSteps, false)), envs).node == End)
            <==> maxSteps <= SafeSteps(mode)
  {
    var limit := RecursionLimit(maxSteps, defaultMaxSteps);
    var start := Agent.Start(InitState(goal, mode, maxTokens, maxSteps, false));
    if maxSteps <= SafeSteps(mode) {
      forall envs: seq<Env> | |envs| == limit
        ensures Run(cfg, start, envs).node == End
      {
        EveryRunEnds(cfg, goal, mode, maxTokens, maxSteps, false, envs);
      }
    } else {
      BusyUntilTheBound(cfg, start, maxSteps + 1, limit);
      assert |BusyEnvs(maxSteps + 1, limit)| == limit;
    }
  }
}
