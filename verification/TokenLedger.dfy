/**
 Tokens over whole runs: everything spent is charged to the task, and the budget is overrun at most once
 (app/graph/nodes.py: the updates of `tokens_used`; app/core/budget.py).
 */
module TokenLedger {
  import opened Basics
  import opened PlanDag
  import opened Messages
  import opened ToolRound
  import opened Agent
  import opened AgentRuns

  function EffectTokens(e: Effect): (n: nat) {
    if e.ToolRun? then 0 else e.tokens
  }

  /** Tokens of a repair call or of a sub-task whose coroutine raised before they were added. */
  function EffectLoss(e: Effect): (n: nat) {
    if (e.RepairCall? || e.Delegated?) && !e.charged then e.tokens else 0
  }

  /** Everything spent on behalf of the task: model calls and delegated sub-tasks. */
  function Spent(log: Log): (n: nat) {
    if log == [] then 0 else Spent(log[..|log| - 1]) + EffectTokens(log[|log| - 1])
  }

  function Lost(log: Log): (n: nat) {
    if log == [] then 0 else Lost(log[..|log| - 1]) + EffectLoss(log[|log| - 1])
  }

  lemma {:induction false} SpentAppend(a: Log, b: Log)
    ensures Spent(a + b) == Spent(a) + Spent(b) && Lost(a + b) == Lost(a) + Lost(b)
    decreases |b|
  {
    if b == [] {
      assert a + b == a;
    } else {
      SpentAppend(a, b[..|b| - 1]);
      assert (a + b)[..|a + b| - 1] == a + b[..|b| - 1];
    }
  }

  lemma SpentOne(log: Log, e: Effect)
    ensures Spent(log + [e]) == Spent(log) + EffectTokens(e) && Lost(log + [e]) == Lost(log) + EffectLoss(e)
  {
    assert (log + [e])[..|log|] == log;
  }

  lemma {:induction false} RepairEffectsCost(repairs: seq<nat>, charged: bool)
    ensures Spent(RepairEffects(repairs, charged)) == Sum(repairs)
    ensures Lost(RepairEffects(repairs, charged)) == if charged then 0 else Sum(repairs)
  {
    var log := RepairEffects(repairs, charged);
    if repairs != [] {
      var first, rest := [repairs[0]], repairs[1..];
      RepairEffectsCost(rest, charged);
      assert log == [RepairCall(repairs[0], charged)] + RepairEffects(rest, charged);
      SpentAppend([RepairCall(repairs[0], charged)], RepairEffects(rest, charged));
      SpentOne([], RepairCall(repairs[0], charged));
      assert [] + [RepairCall(repairs[0], charged)] == [RepairCall(repairs[0], charged)];
    }
  }

  lemma CallEffectsCost(o: CallOutcome)
    ensures Spent(CallEffects(o)) == RepairCharge(o) + BudgetCharge(o) + Lost(CallEffects(o))
    ensures Lost(CallEffects(o)) == CallLoss(o)
  {
    var charged := o.Aborted? ==> o.charged;
    RepairEffectsCost(Repairs(o), charged);
    SpentOne(RepairEffects(Repairs(o), charged), Delegated(DelegatedTokens(o), !o.Aborted?));
  }

  lemma {:induction false} RoundEffectsCost(outcomes: seq<CallOutcome>, n: nat)
    ensures Spent(RoundEffects(outcomes, n)) == RoundCharge(outcomes, n) + Lost(RoundEffects(outcomes, n))
  {
    if n > 0 {
      RoundEffectsCost(outcomes, n - 1);
      CallEffectsCost(OutcomeAt(outcomes, n - 1));
      SpentAppend(RoundEffects(outcomes, n - 1), CallEffects(OutcomeAt(outcomes, n - 1)));
    }
  }

  // ---------- conservation ----------

  predicate Balanced(c: Conf) {
    Spent(c.log) == c.s.tokensUsed + Lost(c.log)
  }

  lemma SpentSingle(e: Effect)
    ensures Spent([e]) == EffectTokens(e) && Lost([e]) == EffectLoss(e)
  {
    assert [e][..0] == [];
  }

  lemma BalancedTools(cfg: Config, s: State, env: Env)
    requires RunsTools(s, env)
    ensures var effects := NodeEffects(cfg, ToolNode, s, env);
            s.tokensUsed + Spent(effects) == ToolExecutor(cfg, s, env).tokensUsed + Lost(effects)
  {
    var run := ToolRun(s.iterations, s.pending);
    SpentSingle(run);
    SpentAppend([run], RoundEffects(env.outcomes, |s.pending|));
    RoundEffectsCost(env.outcomes, |s.pending|);
    RoundTokens(cfg.keyLimits, s.pending, env.outcomes, env.schedule, Totals(s.tokensUsed, 0, s.keyOutputs));
  }

  lemma CriticKeepsTokens(cfg: Config, s: State)
    ensures Critic(cfg, s).tokensUsed == s.tokensUsed && Critic(cfg, s).downgraded == s.downgraded
  {
    if s.status == Running { CriticCases(cfg, s); }
  }

  lemma PlannedTokens(cfg: Config, s: State, plan: Plan, tokens: nat)
    ensures Planned(cfg, s, plan, tokens).tokensUsed == s.tokensUsed + tokens
  {
  }

  lemma ReactTokens(cfg: Config, s: State, env: Env)
    ensures ReactStep(cfg, s, env).tokensUsed == s.tokensUsed + if AsksModel(cfg, s, env) then env.reply.tokens else 0
  {
  }

  /** Each node charges what it spends, up to what raised coroutines lose. */
  lemma NodeBalanced(cfg: Config, node: Node, s: State, env: Env)
    ensures var effects := NodeEffects(cfg, node, s, env);
            s.tokensUsed + Spent(effects) == NodeState(cfg, node, s, env).tokensUsed + Lost(effects)
  {
    match node
    case PlannerNode =>
      SpentSingle(PlanCall(env.planTokens));
      PlannedTokens(cfg, s, NewPlan(s, env), env.planTokens);
    case ReactNode =>
      SpentSingle(DecisionCall(Assembled(s), s.tokensUsed, env.reply.tokens));
      ReactTokens(cfg, s, env);
    case ToolNode => if RunsTools(s, env) { BalancedTools(cfg, s, env); }
    case CriticNode => CriticKeepsTokens(cfg, s);
    case CompressorNode => SpentSingle(SummaryCall(env.summaryTokens));
    case FinisherNode => SpentSingle(FinalCall(env.finalTokens));
    case _ =>
  }

  lemma BalancedNext(cfg: Config, c: Conf, env: Env)
    requires Balanced(c)
    ensures Balanced(Next(cfg, c, env))
  {
    NodeBalanced(cfg, c.node, c.s, env);
    SpentAppend(c.log, NodeEffects(cfg, c.node, c.s, env));
  }

  lemma {:induction false} BalancedRun(cfg: Config, c: Conf, envs: seq<Env>)
    requires Balanced(c)
    ensures Balanced(Run(cfg, c, envs))
    decreases |envs|
  {
    if envs != [] {
      BalancedRun(cfg, c, envs[..|envs| - 1]);
      BalancedNext(cfg, Run(cfg, c, envs[..|envs| - 1]), envs[|envs| - 1]);
    }
  }

  /** No coroutine raised with repair calls that were not yet added or after a sub-task had spent tokens. */
  predicate NothingLost(envs: seq<Env>) {
    forall i, j :: 0 <= i < |envs| && 0 <= j < |envs[i].outcomes| ==> CallLoss(envs[i].outcomes[j]) == 0
  }

  lemma NoLossAt(outcomes: seq<CallOutcome>, i: nat)
    requires forall j :: 0 <= j < |outcomes| ==> CallLoss(outcomes[j]) == 0
    ensures CallLoss(OutcomeAt(outcomes, i)) == 0
  {
  }

  lemma {:induction false} RoundLosesNothing(outcomes: seq<CallOutcome>, n: nat)
    requires forall j :: 0 <= j < |outcomes| ==> CallLoss(outcomes[j]) == 0
    ensures Lost(RoundEffects(outcomes, n)) == 0
  {
    if n > 0 {
      hide CallEffects, Lost, Spent, CallLoss;
      RoundLosesNothing(outcomes, n - 1);
      NoLossAt(outcomes, n - 1);
      CallEffectsCost(OutcomeAt(outcomes, n - 1));
      SpentAppend(RoundEffects(outcomes, n - 1), CallEffects(OutcomeAt(outcomes, n - 1)));
    }
  }

  lemma NodeLosesNothing(cfg: Config, node: Node, s: State, env: Env)
    requires NothingLost([env])
    ensures Lost(NodeEffects(cfg, node, s, env)) == 0
  {
    match node
    case PlannerNode => SpentSingle(PlanCall(env.planTokens));
    case ReactNode => SpentSingle(DecisionCall(Assembled(s), s.tokensUsed, env.reply.tokens));
    case ToolNode =>
      assert [env][0] == env;
      SpentSingle(ToolRun(s.iterations, s.pending));
      SpentAppend([ToolRun(s.iterations, s.pending)], RoundEffects(env.outcomes, |s.pending|));
      RoundLosesNothing(env.outcomes, |s.pending|);
    case CompressorNode => SpentSingle(SummaryCall(env.summaryTokens));
    case FinisherNode => SpentSingle(FinalCall(env.finalTokens));
    case _ =>
  }

  lemma {:induction false} LosesNothingRun(cfg: Config, c: Conf, envs: seq<Env>)
    requires Lost(c.log) == 0 && NothingLost(envs)
    ensures Lost(Run(cfg, c, envs).log) == 0
    decreases |envs|
  {
    if envs != [] {
      var init, last := envs[..|envs| - 1], envs[|envs| - 1];
      assert forall i :: 0 <= i < |init| ==> init[i] == envs[i];
      LosesNothingRun(cfg, c, init);
      assert [last][0] == envs[|envs| - 1];
      var before := Run(cfg, c, init);
      NodeLosesNothing(cfg, before.node, before.s, last);
      SpentAppend(before.log, NodeEffects(cfg, before.node, before.s, last));
    }
  }

  /**
   Conservation: in every run, for every interleaving of parallel calls, the tokens charged to the task are
   exactly the tokens spent on planning, decisions, repairs, summaries and the final answer plus those of
   delegated sub-tasks, minus what was lost with coroutines that raised: repair calls not yet added, and the
   sub-task's tokens. Nothing is lost when no coroutine raises at such a point.
   */
  lemma TokensConserved(cfg: Config, goal: string, mode: Mode, maxTokens: int, maxSteps: int, approval: bool,
                        envs: seq<Env>)
    ensures var c := Run(cfg, Agent.Start(InitState(goal, mode, maxTokens, maxSteps, approval)), envs);
            c.s.tokensUsed + Lost(c.log) == Spent(c.log)
    ensures NothingLost(envs) ==>
            var c := Run(cfg, Agent.Start(InitState(goal, mode, maxTokens, maxSteps, approval)), envs);
            c.s.tokensUsed == Spent(c.log)
  {
    var start := Agent.Start(InitState(goal, mode, maxTokens, maxSteps, approval));
    BalancedRun(cfg, start, envs);
    if NothingLost(envs) { LosesNothingRun(cfg, start, envs); }
  }

  /** One decision that asks for one call, whose coroutine raises when a sub-task has already spent `n` tokens. */
  function RaisingEnv(n: nat): (env: Env) {
    var call := Call("call_1", "tool", "{}", "");
    Env(false, [], 0, Reply("", [call], 0), true, [Aborted([], true, n)], [], false, "", 0, "", 0)
  }

  /** So any number of tokens can be spent without being charged. */
  lemma AnyAmountCanBeLost(cfg: Config, goal: string, maxTokens: int, maxSteps: int, approval: bool, n: nat)
    requires maxTokens > 0 && maxSteps > 0
    ensures var env := RaisingEnv(n);
            var c := Run(cfg, Agent.Start(InitState(goal, React, maxTokens, maxSteps, approval)), [env, env, env]);
            Lost(c.log) == n && c.s.tokensUsed + n == Spent(c.log)
  {
    var env := RaisingEnv(n);
    var start := Agent.Start(InitState(goal, React, maxTokens, maxSteps, approval));
    var c2 := Run(cfg, start, [env, env]);
    AsksForOneCall(cfg, start, env);
    assert [env, env, env][..2] == [env, env];
    assert Run(cfg, start, [env, env, env]) == Next(cfg, c2, env);
    RaisingRound(cfg, c2, env, n);
    TokensConserved(cfg, goal, React, maxTokens, maxSteps, approval, [env, env, env]);
  }

  lemma AsksForOneCall(cfg: Config, c: Conf, env: Env)
    requires c.node == ReactNode && c.s.status == Running && !c.s.needsFinal && c.s.mode == React && c.log == []
    requires c.s.stepsUsed < c.s.maxSteps && c.s.tokensUsed < c.s.maxTokens
    requires !env.canceled && env.approve && |env.reply.calls| == 1
    ensures var r := Run(cfg, c, [env, env]); r.node == ToolNode && |r.s.pending| == 1 && Lost(r.log) == 0
  {
    assert [env, env][..1] == [env] && [env][..0] == [];
    assert Run(cfg, c, [env]) == Next(cfg, c, env);
    SpentSingle(DecisionCall(Assembled(c.s), c.s.tokensUsed, env.reply.tokens));
  }

  lemma RaisingRound(cfg: Config, c: Conf, env: Env, n: nat)
    requires c.node == ToolNode && |c.s.pending| == 1 && Lost(c.log) == 0
    requires !env.canceled && env.outcomes == [Aborted([], true, n)]
    ensures Lost(Next(cfg, c, env).log) == n
  {
    hide NodeState, NodeEffects;
    RaisingEffects(cfg, c.s, env, n);
    SpentAppend(c.log, NodeEffects(cfg, ToolNode, c.s, env));
  }

  lemma RaisingEffects(cfg: Config, s: State, env: Env, n: nat)
    requires |s.pending| == 1 && !env.canceled && env.outcomes == [Aborted([], true, n)]
    ensures Lost(NodeEffects(cfg, ToolNode, s, env)) == n
  {
    var run := ToolRun(s.iterations, s.pending);
    var round := RoundEffects(env.outcomes, 1);
    SpentSingle(run);
    RoundLoss(env.outcomes, n);
    SpentAppend([run], round);
  }

  lemma RoundLoss(outcomes: seq<CallOutcome>, n: nat)
    requires outcomes == [Aborted([], true, n)]
    ensures Lost(RoundEffects(outcomes, 1)) == n
  {
    CallEffectsCost(outcomes[0]);
    assert RoundEffects(outcomes, 1) == [] + CallEffects(outcomes[0]) == CallEffects(outcomes[0]);
  }

  // ---------- the budget is overrun once at most ----------

  function OverBudget(e: Effect, maxTokens: int): (n: nat) {
    if e.DecisionCall? && e.tokensBefore >= maxTokens then 1 else 0
  }

  /** Decision calls made although the token budget was already used up. */
  function OverBudgetCalls(log: Log, maxTokens: int): (n: nat) {
    if log == [] then 0 else OverBudgetCalls(log[..|log| - 1], maxTokens) + OverBudget(log[|log| - 1], maxTokens)
  }

  lemma {:induction false} OverBudgetAppend(a: Log, b: Log, maxTokens: int)
    ensures OverBudgetCalls(a + b, maxTokens) == OverBudgetCalls(a, maxTokens) + OverBudgetCalls(b, maxTokens)
    decreases |b|
  {
    if b == [] {
      assert a + b == a;
    } else {
      OverBudgetAppend(a, b[..|b| - 1], maxTokens);
      assert (a + b)[..|a + b| - 1] == a + b[..|b| - 1];
    }
  }

  lemma {:induction false} OverBudgetQuiet(log: Log, maxTokens: int)
    requires forall i :: 0 <= i < |log| ==> !log[i].DecisionCall?
    ensures OverBudgetCalls(log, maxTokens) == 0
    decreases |log|
  {
    if log != [] {
      OverBudgetQuiet(log[..|log| - 1], maxTokens);
    }
  }

  predicate BudgetInv(c: Conf) {
    OverBudgetCalls(c.log, c.s.maxTokens) <= if c.s.downgraded then 1 else 0
  }

  /** Only the decision step overruns, and only when it downgrades. */
  lemma NodeOverruns(cfg: Config, node: Node, s: State, env: Env)
    ensures var r, n := NodeState(cfg, node, s, env), OverBudgetCalls(NodeEffects(cfg, node, s, env), s.maxTokens);
            (s.downgraded ==> r.downgraded && n == 0) && (!s.downgraded ==> n <= if r.downgraded then 1 else 0)
  {
    match node
    case ReactNode => assert NodeEffects(cfg, node, s, env) != [] ==> NodeEffects(cfg, node, s, env)[..0] == [];
    case ToolNode =>
      RoundEffectsQuiet(env.outcomes, |s.pending|);
      OverBudgetQuiet(NodeEffects(cfg, node, s, env), s.maxTokens);
    case CriticNode =>
      CriticKeepsTokens(cfg, s);
    case _ => OverBudgetQuiet(NodeEffects(cfg, node, s, env), s.maxTokens);
  }

  lemma BudgetNext(cfg: Config, initial: Mode, c: Conf, env: Env)
    requires BudgetInv(c) && CountersOk(cfg, initial, c.s)
    ensures BudgetInv(Next(cfg, c, env))
  {
    NodeOverruns(cfg, c.node, c.s, env);
    OverBudgetAppend(c.log, NodeEffects(cfg, c.node, c.s, env), c.s.maxTokens);
    CountersNext(cfg, initial, c, env);
  }

  lemma {:induction false} BudgetRun(cfg: Config, initial: Mode, c: Conf, envs: seq<Env>)
    requires BudgetInv(c) && CountersOk(cfg, initial, c.s)
    ensures BudgetInv(Run(cfg, c, envs))
    decreases |envs|
  {
    if envs != [] {
      BudgetRun(cfg, initial, c, envs[..|envs| - 1]);
      CountersRun(cfg, initial, c, envs[..|envs| - 1]);
      BudgetNext(cfg, initial, Run(cfg, c, envs[..|envs| - 1]), envs[|envs| - 1]);
    }
  }

  /** In every run the model is asked for at most one decision after the token budget is used up. */
  lemma OverrunOnceAtMost(cfg: Config, goal: string, mode: Mode, maxTokens: int, maxSteps: int, approval: bool,
                          envs: seq<Env>)
    ensures var c := Run(cfg, Agent.Start(InitState(goal, mode, maxTokens, maxSteps, approval)), envs);
            OverBudgetCalls(c.log, maxTokens) <= 1
  {
    var start := Agent.Start(InitState(goal, mode, maxTokens, maxSteps, approval));
    BudgetRun(cfg, mode, start, envs);
    CountersRun(cfg, mode, start, envs);
  }
}
