/**
 A run in which a plan that had to be run one step at a time is replanned: two steps that wait for each other, the first
 of which is finished when the second fails (app/graph/nodes.py `_safe_layers`, `planner_node`, `critic_node`).
 */
module FallbackReplan {
  import opened Basics
  import opened Graphs
  import opened PlanDag
  import opened Replanning
  import opened Messages
  import opened ToolRound
  import opened Agent
  import opened AgentRuns

  const CALL := Call("call_1", "tool", "{}", "")
  const GOOD := Success("tool", "{}", ToolResult("done", "", 0))
  const BAD := Failure("tool", "{}", "bad", Validation, Some(InvalidArgs))

  function OutcomeEnv(obs: Observation): (env: Env) {
    Env(false, [Object("s1", "a", Some(["s2"])), Object("s2", "b", Some(["s1"]))], 0, Reply("", [CALL], 0), true,
        [Executed(obs, [])], [], false, "", 0, "done", 0)
  }

  /** Two steps that name each other; the second is not finished. */
  ghost predicate Crossed(plan: Plan, first: StepStatus) {
    && |plan| == 2 && plan[0].id == "s1" && plan[1].id == "s2"
    && plan[0].deps == Some(["s2"]) && plan[1].deps == Some(["s1"])
    && plan[0].status == first && plan[1].status == Pending
  }

  lemma CrossedFallsBack(plan: Plan, first: StepStatus)
    requires Crossed(plan, first)
    ensures PlanLayers(plan).None? && SafeLayers(plan) == Sequential(2)
  {
    var g := DepGraph(plan);
    assert "s2" in ["s2"] && "s1" in ["s1"];
    assert 1 in DepsAt(plan, 0) && 0 in DepsAt(plan, 1);
    var w: seq<nat> := [0, 1, 0];
    assert IsWalk(g, w) && w[0] == w[|w| - 1];
    PlanLayersCharacterised(plan);
    FallbackIsSequential(plan);
  }

  ghost predicate Under(s: State, steps: nat, batch: nat, first: StepStatus) {
    && s.status == Running && !s.needsFinal && s.mode == PlanExecute && s.defectStreak == 0
    && s.stepsUsed == s.iterations == steps && s.maxSteps >= 3 && s.tokensUsed == 0 && s.maxTokens > 0
    && s.currentStep == batch && Crossed(s.plan, first)
  }

  lemma CrossedPlanning(cfg: Config, s: State)
    requires s == InitState(s.goal, PlanExecute, s.maxTokens, s.maxSteps, s.requireApproval)
    requires s.maxTokens > 0 && s.maxSteps >= 3
    ensures Under(Planner(cfg, s, OutcomeEnv(GOOD)), 0, 0, Pending)
  {
    var raw := OutcomeEnv(GOOD).planItems;
    var one := [StepFrom(raw[0], 1)];
    assert raw[1..][1..] == [];
    assert ParseFrom(raw, []) == ParseFrom(raw[1..], one) by { assert [] + one == one; }
    var plan := one + [StepFrom(raw[1], 2)];
    assert ParseFrom(raw[1..], one) == plan;
    CrossedFallsBack(plan, Pending);
    assert SafeLayers(plan)[0] == [0];
    assert 0 in SafeLayers(plan)[0] && HasPending(plan, SafeLayers(plan)[0]);
    assert StartBatch(plan) == 0;
  }

  lemma CrossedDecision(cfg: Config, s: State, k: nat, first: StepStatus, obs: Observation)
    requires Under(s, k, k, first) && k < 2
    ensures var r := ReactStep(cfg, s, OutcomeEnv(obs));
            RouteAfterStep(r) == GateNode && Under(r, k + 1, k, first) && r.pending == [CALL]
  {
    CrossedFallsBack(s.plan, first);
    assert !PlanFinished(s);
  }

  lemma CrossedTools(cfg: Config, s: State, k: nat, first: StepStatus, obs: Observation)
    requires Under(s, k + 1, k, first) && s.pending == [CALL] && (obs == GOOD || obs == BAD)
    ensures var r := ToolExecutor(cfg, s, OutcomeEnv(obs)); Under(r, k + 1, k, first) && r.observations == [obs]
  {
    var env := OutcomeEnv(obs);
    RoundTokens(cfg.keyLimits, s.pending, env.outcomes, env.schedule, Totals(s.tokensUsed, 0, s.keyOutputs));
    assert RoundCharge(env.outcomes, 1) == RoundCharge(env.outcomes, 0);
  }

  lemma CrossedSuccess(cfg: Config, s: State)
    requires Under(s, 1, 0, Pending) && s.observations == [GOOD]
    ensures var r := Critic(cfg, s); Under(r, 1, 1, Done) && RouteAfterCritic(r) == CompressorNode
  {
    assert s.observations[1..] == [];
    assert FailedOf(s.observations) == [];
    CrossedFallsBack(s.plan, Pending);
    assert SafeLayers(s.plan)[0] == [0];
  }

  lemma CrossedFailure(cfg: Config, s: State)
    requires Under(s, 2, 1, Done) && s.observations == [BAD] && !(0 < cfg.downgradeAfterReplans <= 1)
    ensures var r := Critic(cfg, s); RouteAfterCritic(r) == PlannerNode && IsReplan(r) && Crossed(r.plan, Done)
  {
    assert BAD in s.observations;
    assert s.observations[1..] == [];
    CriticRoutesByCodes(cfg, s);
    assert FailedWith(s.observations, DEFECT_CODES);
    assert FailedOf(s.observations) == [BAD];
    assert Take("bad", 200) == "bad";
    assert ErrorsOf([BAD]) == "bad";
    VerdictByCodes(s.observations);
    CriticCases(cfg, s);
  }

  /** One round from a decision to the verdict on its tools. */
  lemma CrossedRound(cfg: Config, c: Conf, k: nat, first: StepStatus, obs: Observation) returns (r: Conf)
    requires c.node == ReactNode && Under(c.s, k, k, first) && k < 2 && (obs == GOOD || obs == BAD)
    ensures r.node == CriticNode && Under(r.s, k + 1, k, first) && r.s.observations == [obs]
    ensures c.fellBack ==> r.fellBack
    ensures Follows(cfg, c, r, OutcomeEnv(obs))
  {
    var env := OutcomeEnv(obs);
    CrossedDecision(cfg, c.s, k, first, obs);
    var gate := Next(cfg, c, env);
    var tools := Next(cfg, gate, env);
    CrossedTools(cfg, tools.s, k, first, obs);
    r := Next(cfg, tools, env);
  }

  /** Three nodes further. */
  predicate Follows(cfg: Config, c: Conf, r: Conf, env: Env) {
    r == Next(cfg, Next(cfg, Next(cfg, c, env), env), env)
  }

  lemma Planning(cfg: Config, c: Conf) returns (r: Conf)
    requires c.node == PlannerNode && c.s.maxTokens > 0 && c.s.maxSteps >= 3
    requires c.s == InitState(c.s.goal, PlanExecute, c.s.maxTokens, c.s.maxSteps, c.s.requireApproval)
    ensures r == Next(cfg, c, OutcomeEnv(GOOD)) && r.node == ReactNode && Under(r.s, 0, 0, Pending) && r.fellBack
  {
    CrossedPlanning(cfg, c.s);
    r := Next(cfg, c, OutcomeEnv(GOOD));
    CrossedFallsBack(r.s.plan, Pending);
  }

  lemma AfterSuccess(cfg: Config, c: Conf) returns (r: Conf)
    requires c.node == CriticNode && Under(c.s, 1, 0, Pending) && c.s.observations == [GOOD] && c.fellBack
    ensures r == Next(cfg, Next(cfg, c, OutcomeEnv(GOOD)), OutcomeEnv(GOOD))
    ensures r.node == ReactNode && Under(r.s, 1, 1, Done) && r.fellBack
  {
    CrossedSuccess(cfg, c.s);
    r := Next(cfg, Next(cfg, c, OutcomeEnv(GOOD)), OutcomeEnv(GOOD));
  }

  lemma AfterFailure(cfg: Config, c: Conf) returns (r: Conf)
    requires c.node == CriticNode && Under(c.s, 2, 1, Done) && c.s.observations == [BAD] && c.fellBack
    requires !(0 < cfg.downgradeAfterReplans <= 1)
    ensures r == Next(cfg, c, OutcomeEnv(BAD)) && r.node == PlannerNode
    ensures IsReplan(r.s) && Crossed(r.s.plan, Done) && r.fellBack
  {
    CrossedFailure(cfg, c.s);
    r := Next(cfg, c, OutcomeEnv(BAD));
  }

  lemma ReachableNext(cfg: Config, c: Conf, env: Env)
    requires Reachable(cfg, c)
    ensures Reachable(cfg, Next(cfg, c, env))
  {
    var goal, mode, maxTokens, maxSteps, approval, envs: seq<Env> :|
      c == Run(cfg, Agent.Start(InitState(goal, mode, maxTokens, maxSteps, approval)), envs);
    var more := envs + [env];
    assert more[..|more| - 1] == envs;
    assert Next(cfg, c, env) == Run(cfg, Agent.Start(InitState(goal, mode, maxTokens, maxSteps, approval)), more);
  }

  lemma ReachableFollows(cfg: Config, c: Conf, r: Conf, env: Env)
    requires Reachable(cfg, c) && Follows(cfg, c, r, env)
    ensures Reachable(cfg, r)
  {
    hide Next, Reachable;
    ReachableNext(cfg, c, env);
    ReachableNext(cfg, Next(cfg, c, env), env);
    ReachableNext(cfg, Next(cfg, Next(cfg, c, env), env), env);
  }

  lemma StartReachable(cfg: Config, goal: string, mode: Mode, maxTokens: int, maxSteps: int, approval: bool)
    ensures Reachable(cfg, Agent.Start(InitState(goal, mode, maxTokens, maxSteps, approval)))
  {
    var start := Agent.Start(InitState(goal, mode, maxTokens, maxSteps, approval));
    assert start == Run(cfg, Agent.Start(InitState(goal, mode, maxTokens, maxSteps, approval)), []);
  }

  /** A finished step that names an unfinished one makes every replan illegal, whatever the planner answers. */
  lemma CrossedReplanRejected(s: State, env: Env)
    requires IsReplan(s) && Crossed(s.plan, Done)
    ensures PlanLayers(NewPlan(s, env)).None?
  {
    if UniqueIds(NewSteps(s, env)) {
      OpenDoneSetIsRejected(s.plan, NewSteps(s, env), 0, 1);
    } else if UniqueIds(NewPlan(s, env)) {
      MergedLegalMeansUnique(s.plan, NewSteps(s, env));
    }
  }

  /**
   So the failing input is reached: after two rounds the planner is asked again, and the plan it is given falls back
   once more, whatever the new steps are.
   */
  lemma FallbackCanRepeat(cfg: Config, goal: string, maxTokens: int, maxSteps: int, approval: bool) returns (c: Conf)
    requires maxTokens > 0 && maxSteps >= 3 && !(0 < cfg.downgradeAfterReplans <= 1)
    ensures Reachable(cfg, c) && c.node == PlannerNode && IsReplan(c.s) && c.fellBack
    ensures forall env: Env :: PlanLayers(NewPlan(c.s, env)).None?
  {
    hide Next, Reachable, Under, Follows;
    var good, bad := OutcomeEnv(GOOD), OutcomeEnv(BAD);
    var start := Agent.Start(InitState(goal, PlanExecute, maxTokens, maxSteps, approval));
    StartReachable(cfg, goal, PlanExecute, maxTokens, maxSteps, approval);
    var first := Planning(cfg, start);
    ReachableNext(cfg, start, good);
    var verdict := CrossedRound(cfg, first, 0, Pending, GOOD);
    ReachableFollows(cfg, first, verdict, good);
    var second := AfterSuccess(cfg, verdict);
    ReachableNext(cfg, verdict, good);
    ReachableNext(cfg, Next(cfg, verdict, good), good);
    var failing := CrossedRound(cfg, second, 1, Done, BAD);
    ReachableFollows(cfg, second, failing, bad);
    c := AfterFailure(cfg, failing);
    ReachableNext(cfg, failing, bad);
    forall env: Env
      ensures PlanLayers(NewPlan(c.s, env)).None?
    {
      CrossedReplanRejected(c.s, env);
    }
  }
}
