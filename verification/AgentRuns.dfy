/**
 What holds in every configuration of every run of the agent: control flow and pairing of messages, silence
 after the end, mode switches and counters, progress and legality of the plan, rounds run again, and verdicts.
 */
module AgentRuns {
  import opened Basics
  import opened Graphs
  import opened PlanDag
  import opened Replanning
  import opened Messages
  import opened ToolRound
  import opened Agent

  // ---------- control flow and messages ----------

  /** The last message asks for exactly the pending calls, after a well-paired history. */
  predicate AwaitsAnswers(ms: seq<Message>, pending: seq<Call>) {
    && ms != [] && pending != []
    && ms[|ms| - 1].Assistant? && ms[|ms| - 1].calls == pending
    && WellPaired(ms[..|ms| - 1])
  }

  predicate ControlAt(node: Node, s: State) {
    match node
    case PlannerNode => s.status == Running && !s.needsFinal && WellPaired(s.messages)
    case ReactNode => s.status == Running && !s.needsFinal && WellPaired(s.messages)
    case GateNode => s.status == Running && !s.needsFinal && AwaitsAnswers(s.messages, s.pending)
    case ToolNode => s.status == Running && !s.needsFinal && AwaitsAnswers(s.messages, s.pending)
    case CriticNode =>
      || s.status == Canceled
      || (s.status == Running && !s.needsFinal && s.observations != [] && WellPaired(s.messages))
    case CompressorNode => s.status == Running && !s.needsFinal && WellPaired(s.messages)
    case FinisherNode => s.status != Succeeded && (s.status == Running ==> s.needsFinal)
    case End => s.status != Running
  }

  predicate ControlInv(c: Conf) {
    ControlAt(c.node, c.s)
  }

  lemma ControlAfterPlanner(cfg: Config, s: State, plan: Plan, tokens: nat)
    requires ControlAt(PlannerNode, s)
    ensures ControlAt(ReactNode, Planned(cfg, s, plan, tokens))
  {
  }

  lemma ControlAfterReact(cfg: Config, s: State, env: Env)
    requires ControlAt(ReactNode, s)
    ensures ControlAt(RouteAfterStep(ReactStep(cfg, s, env)), ReactStep(cfg, s, env))
  {
    var request := Assistant(env.reply.text, env.reply.calls);
    assert (s.messages + [request])[..|s.messages|] == s.messages;
  }

  lemma ControlAfterGate(s: State, approve: bool)
    requires ControlAt(GateNode, s)
    ensures ControlAt(RouteAfterGate(Gate(s, approve)), Gate(s, approve))
  {
  }

  lemma ControlAfterTools(cfg: Config, s: State, env: Env)
    requires ControlAt(ToolNode, s)
    ensures ControlAt(CriticNode, ToolExecutor(cfg, s, env))
  {
    if RunsTools(s, env) {
      var n := |s.messages| - 1;
      PairedRound(s.messages[..n], s.messages[n], AnswersOf(s.pending, Observations(s.pending, env.outcomes)));
      assert s.messages == s.messages[..n] + [s.messages[n]];
    }
  }

  /** The critic's verdicts, one by one. */
  lemma CriticCases(cfg: Config, s: State)
    requires s.status == Running
    ensures var r, failed := Critic(cfg, s), FailedOf(s.observations);
            || (failed == [] && r == Advance(s))
            || (failed != [] &&
                (var kind := Classify(failed);
                 var noted := s.(errorKind := kind, lastError := ErrorsOf(failed));
                 || (r == noted && kind != PlanDefect)
                 || (r == noted.(status := Failed, needsFinal := true) && kind != PlanDefect)
                 || (kind == PlanDefect && r == OnDefect(cfg, noted))))
  {
  }

  lemma ControlAfterCritic(cfg: Config, s: State)
    requires ControlAt(CriticNode, s)
    ensures ControlAt(RouteAfterCritic(Critic(cfg, s)), Critic(cfg, s))
  {
    if s.status == Running { CriticCases(cfg, s); }
  }

  lemma ControlAfterCompressor(s: State, env: Env)
    requires ControlAt(CompressorNode, s)
    ensures ControlAt(ReactNode, Compressor(s, env))
  {
    if Compresses(s, env) { CompressionKeepsPairing(s.messages, env.summary); }
  }

  lemma ControlAfterFinisher(s: State, env: Env)
    ensures ControlAt(End, Finisher(s, env))
  {
  }

  lemma ControlNext(cfg: Config, c: Conf, env: Env)
    requires ControlInv(c)
    ensures ControlInv(Next(cfg, c, env))
  {
    match c.node
    case PlannerNode => ControlAfterPlanner(cfg, c.s, NewPlan(c.s, env), env.planTokens);
    case ReactNode => ControlAfterReact(cfg, c.s, env);
    case GateNode => ControlAfterGate(c.s, env.approve);
    case ToolNode => ControlAfterTools(cfg, c.s, env);
    case CriticNode => ControlAfterCritic(cfg, c.s);
    case CompressorNode => ControlAfterCompressor(c.s, env);
    case FinisherNode => ControlAfterFinisher(c.s, env);
    case End =>
  }

  lemma {:induction false} ControlRun(cfg: Config, c: Conf, envs: seq<Env>)
    requires ControlInv(c)
    ensures ControlInv(Run(cfg, c, envs))
    decreases |envs|
  {
    if envs != [] {
      ControlRun(cfg, c, envs[..|envs| - 1]);
      ControlNext(cfg, Run(cfg, c, envs[..|envs| - 1]), envs[|envs| - 1]);
    }
  }

  lemma StartControl(goal: string, mode: Mode, maxTokens: int, maxSteps: int, approval: bool)
    ensures ControlInv(Agent.Start(InitState(goal, mode, maxTokens, maxSteps, approval)))
  {
  }

  /** Every message list that a decision call sent is well paired. */
  ghost predicate SentPaired(log: Log) {
    forall i :: 0 <= i < |log| && log[i].DecisionCall? ==> WellPaired(log[i].sent)
  }

  lemma AssembledPaired(s: State)
    requires WellPaired(s.messages)
    ensures WellPaired(Assembled(s))
  {
    var prompts := [System("react"), User(s.goal)];
    SingleGroup([System("react")]);
    SingleGroup([User(s.goal)]);
    PairedAppend([System("react")], [User(s.goal)]);
    assert prompts == [System("react")] + [User(s.goal)];
    PairedAppend(prompts, s.messages);
  }

  lemma {:induction false} RoundEffectsQuiet(outcomes: seq<CallOutcome>, n: nat)
    ensures forall i :: 0 <= i < |RoundEffects(outcomes, n)| ==>
              RoundEffects(outcomes, n)[i].RepairCall? || RoundEffects(outcomes, n)[i].Delegated?
  {
    if n > 0 {
      RoundEffectsQuiet(outcomes, n - 1);
    }
  }

  lemma EffectsPaired(cfg: Config, node: Node, s: State, env: Env)
    requires ControlAt(node, s)
    ensures SentPaired(NodeEffects(cfg, node, s, env))
  {
    match node
    case ReactNode => AssembledPaired(s);
    case ToolNode => RoundEffectsQuiet(env.outcomes, |s.pending|);
    case _ =>
  }

  lemma SentNext(cfg: Config, c: Conf, env: Env)
    requires ControlInv(c) && SentPaired(c.log)
    ensures SentPaired(Next(cfg, c, env).log)
  {
    EffectsPaired(cfg, c.node, c.s, env);
  }

  lemma {:induction false} SentRun(cfg: Config, c: Conf, envs: seq<Env>)
    requires ControlInv(c) && SentPaired(c.log)
    ensures SentPaired(Run(cfg, c, envs).log)
    decreases |envs|
  {
    if envs != [] {
      ControlRun(cfg, c, envs[..|envs| - 1]);
      SentRun(cfg, c, envs[..|envs| - 1]);
      SentNext(cfg, Run(cfg, c, envs[..|envs| - 1]), envs[|envs| - 1]);
    }
  }

  /**
   In every run, whatever the model, the tools and the user do, in whatever order parallel calls finish or
   raise and however often the history is compressed, the model only ever receives well-paired lists.
   */
  lemma EveryRequestIsWellPaired(cfg: Config, goal: string, mode: Mode, maxTokens: int, maxSteps: int, approval: bool,
                                 envs: seq<Env>)
    ensures SentPaired(Run(cfg, Agent.Start(InitState(goal, mode, maxTokens, maxSteps, approval)), envs).log)
  {
    StartControl(goal, mode, maxTokens, maxSteps, approval);
    SentRun(cfg, Agent.Start(InitState(goal, mode, maxTokens, maxSteps, approval)), envs);
  }

  // ---------- silence after the end ----------

  lemma QuietNode(cfg: Config, node: Node, s: State, env: Env)
    requires ControlAt(node, s) && s.status != Running
    ensures NodeEffects(cfg, node, s, env) == []
    ensures NodeState(cfg, node, s, env).status == s.status && NodeState(cfg, node, s, env).plan == s.plan
  {
  }

  /** Once the status has left running, no model call and no tool call follows, and the status is final. */
  lemma {:induction false} QuietAfterEnd(cfg: Config, c: Conf, envs: seq<Env>)
    requires ControlInv(c) && c.s.status != Running
    ensures var r := Run(cfg, c, envs); r.log == c.log && r.s.status == c.s.status && r.s.plan == c.s.plan
    decreases |envs|
  {
    if envs != [] {
      QuietAfterEnd(cfg, c, envs[..|envs| - 1]);
      ControlRun(cfg, c, envs[..|envs| - 1]);
      var last := Run(cfg, c, envs[..|envs| - 1]);
      QuietNode(cfg, last.node, last.s, envs[|envs| - 1]);
    }
  }

  // ---------- counters and modes ----------

  predicate CountersOk(cfg: Config, initial: Mode, s: State) {
    && s.iterations == s.stepsUsed
    && s.stepsUsed <= Max(0, s.maxSteps)
    && s.modeSwitches <= Max(0, cfg.maxModeSwitches)
    && (s.mode == initial <==> s.modeSwitches % 2 == 0)
  }

  /** What no node ever touches. */
  predicate SameTask(a: State, b: State) {
    a.goal == b.goal && a.maxSteps == b.maxSteps && a.maxTokens == b.maxTokens && a.requireApproval == b.requireApproval
  }

  /** Neither mode nor counters differ. */
  predicate SameCounters(a: State, b: State) {
    && SameTask(a, b)
    && a.mode == b.mode && a.modeSwitches == b.modeSwitches
    && a.iterations == b.iterations && a.stepsUsed == b.stepsUsed
  }

  lemma CountersPlanned(cfg: Config, initial: Mode, s: State, plan: Plan, tokens: nat)
    requires CountersOk(cfg, initial, s)
    ensures CountersOk(cfg, initial, Planned(cfg, s, plan, tokens)) && SameTask(s, Planned(cfg, s, plan, tokens))
  {
  }

  lemma CountersReact(cfg: Config, initial: Mode, s: State, env: Env)
    requires CountersOk(cfg, initial, s)
    ensures CountersOk(cfg, initial, ReactStep(cfg, s, env)) && SameTask(s, ReactStep(cfg, s, env))
  {
    if AsksModel(cfg, s, env) {
      CountersDecided(cfg, initial, s, env.reply, s.downgraded || CheckBudget(s, cfg.hasCheapModel).Downgrade?);
    }
  }

  lemma CountersDecided(cfg: Config, initial: Mode, s: State, reply: Reply, downgraded: bool)
    requires CountersOk(cfg, initial, s) && s.stepsUsed < s.maxSteps
    ensures CountersOk(cfg, initial, Decided(s, reply, downgraded)) && SameTask(s, Decided(s, reply, downgraded))
  {
  }

  lemma CountersDefect(cfg: Config, initial: Mode, s: State)
    requires CountersOk(cfg, initial, s)
    ensures CountersOk(cfg, initial, OnDefect(cfg, s)) && SameTask(s, OnDefect(cfg, s))
  {
  }

  lemma CountersCritic(cfg: Config, initial: Mode, s: State)
    requires CountersOk(cfg, initial, s)
    ensures CountersOk(cfg, initial, Critic(cfg, s)) && SameTask(s, Critic(cfg, s))
  {
    if s.status == Running {
      CriticCases(cfg, s);
      var failed := FailedOf(s.observations);
      if failed != [] {
        CountersDefect(cfg, initial, s.(errorKind := Classify(failed), lastError := ErrorsOf(failed)));
      }
    }
  }

  lemma RoundKeepsCounters(cfg: Config, s: State, env: Env)
    ensures SameCounters(s, ToolExecutor(cfg, s, env))
  {
  }

  lemma PassiveNodesKeepCounters(s: State, env: Env)
    ensures SameCounters(s, Gate(s, env.approve))
    ensures SameCounters(s, Compressor(s, env)) && SameCounters(s, Finisher(s, env))
  {
  }

  lemma CountersNext(cfg: Config, initial: Mode, c: Conf, env: Env)
    requires CountersOk(cfg, initial, c.s)
    ensures CountersOk(cfg, initial, Next(cfg, c, env).s) && SameTask(c.s, Next(cfg, c, env).s)
  {
    match c.node
    case PlannerNode => CountersPlanned(cfg, initial, c.s, NewPlan(c.s, env), env.planTokens);
    case ReactNode => CountersReact(cfg, initial, c.s, env);
    case CriticNode => CountersCritic(cfg, initial, c.s);
    case ToolNode => RoundKeepsCounters(cfg, c.s, env);
    case _ => PassiveNodesKeepCounters(c.s, env);
  }

  lemma {:induction false} CountersRun(cfg: Config, initial: Mode, c: Conf, envs: seq<Env>)
    requires CountersOk(cfg, initial, c.s)
    ensures CountersOk(cfg, initial, Run(cfg, c, envs).s) && SameTask(c.s, Run(cfg, c, envs).s)
    decreases |envs|
  {
    if envs != [] {
      CountersRun(cfg, initial, c, envs[..|envs| - 1]);
      CountersNext(cfg, initial, Run(cfg, c, envs[..|envs| - 1]), envs[|envs| - 1]);
    }
  }

  /**
   In every configuration of every run the number of mode switches respects its limit, its parity tells
   whether the mode is the initial one, and decision steps are counted alike in both counters.
   */
  lemma ModesAndCounters(cfg: Config, goal: string, mode: Mode, maxTokens: int, maxSteps: int, approval: bool,
                         envs: seq<Env>)
    ensures var s := Run(cfg, Agent.Start(InitState(goal, mode, maxTokens, maxSteps, approval)), envs).s;
            && s.modeSwitches <= Max(0, cfg.maxModeSwitches)
            && (s.mode == mode <==> s.modeSwitches % 2 == 0)
            && s.iterations == s.stepsUsed <= Max(0, maxSteps)
  {
    CountersRun(cfg, mode, Agent.Start(InitState(goal, mode, maxTokens, maxSteps, approval)), envs);
  }

  // ---------- plan progress ----------

  /** Every batch before the current one is done. */
  ghost predicate BatchesDone(s: State) {
    s.currentStep <= |SafeLayers(s.plan)| && AllDone(s.plan, Placed(SafeLayers(s.plan), s.currentStep))
  }

  /** Between a decision that asked for tools and the verdict on them. */
  predicate InRound(n: Node) {
    n == GateNode || n == ToolNode || n == CriticNode
  }

  ghost predicate PlanInv(c: Conf) {
    c.s.mode == PlanExecute ==>
      && BatchesDone(c.s)
      && (c.s.status == Running && c.node != PlannerNode ==> c.s.plan != [])
      && (c.s.status == Running && InRound(c.node) ==> c.s.currentStep < |SafeLayers(c.s.plan)|)
  }

  lemma AdvanceKeepsProgress(s: State)
    requires s.plan != [] && s.mode == PlanExecute && s.observations != []
    requires BatchesDone(s) && s.currentStep < |SafeLayers(s.plan)|
    ensures Advance(s).plan != [] && BatchesDone(Advance(s))
  {
    MarkBatchAdvances(s.plan, s.currentStep, SummariesOf(s.observations));
  }

  lemma PlanAfterPlanner(cfg: Config, s: State, plan: Plan, tokens: nat)
    requires plan != []
    ensures Planned(cfg, s, plan, tokens).plan != [] && BatchesDone(Planned(cfg, s, plan, tokens))
  {
    StartBatchSound(plan);
  }

  lemma PlanAfterCritic(cfg: Config, s: State)
    requires s.status == Running && s.mode == PlanExecute && s.observations != [] && s.plan != []
    requires BatchesDone(s) && s.currentStep < |SafeLayers(s.plan)|
    ensures var r := Critic(cfg, s); r.mode == PlanExecute ==> r.plan != [] && BatchesDone(r)
  {
    CriticKeepsOrAdvances(cfg, s);
    hide Critic, Advance;
    if FailedOf(s.observations) == [] { AdvanceKeepsProgress(s); }
  }

  lemma CriticKeepsOrAdvances(cfg: Config, s: State)
    requires s.status == Running
    ensures var r := Critic(cfg, s);
            if FailedOf(s.observations) == [] then r == Advance(s) else r.mode == PlanExecute ==> SamePlan(s, r)
  {
    CriticCases(cfg, s);
  }

  /** Neither mode, plan nor position in it differ. */
  predicate SamePlan(a: State, b: State) {
    a.mode == b.mode && a.plan == b.plan && a.currentStep == b.currentStep
  }

  lemma PlanKeptByReact(cfg: Config, s: State, env: Env)
    ensures SamePlan(s, ReactStep(cfg, s, env))
    ensures RouteAfterStep(ReactStep(cfg, s, env)) == GateNode ==> !PlanFinished(s)
  {
  }

  lemma PlanKeptByOthers(cfg: Config, s: State, env: Env)
    ensures SamePlan(s, Gate(s, env.approve)) && SamePlan(s, Compressor(s, env)) && SamePlan(s, Finisher(s, env))
  {
  }

  lemma PlanKeptByTools(cfg: Config, s: State, env: Env)
    ensures SamePlan(s, ToolExecutor(cfg, s, env))
  {
  }

  lemma PlanNext(cfg: Config, c: Conf, env: Env)
    requires ControlInv(c) && PlanInv(c)
    ensures PlanInv(Next(cfg, c, env))
  {
    match c.node
    case PlannerNode => PlanAfterPlanner(cfg, c.s, NewPlan(c.s, env), env.planTokens);
    case ReactNode => PlanKeptByReact(cfg, c.s, env);
    case ToolNode => PlanKeptByTools(cfg, c.s, env);
    case CriticNode =>
      hide Critic;
      PlanAfterVerdict(cfg, c.s);
    case _ => PlanKeptByOthers(cfg, c.s, env);
  }

  lemma PlanAfterVerdict(cfg: Config, s: State)
    requires ControlAt(CriticNode, s) && PlanInv(Conf(CriticNode, s, [], false))
    ensures var r := Critic(cfg, s);
            r.mode == PlanExecute ==> BatchesDone(r) && (r.status == Running ==> r.plan != [])
  {
    if s.status == Running {
      if s.mode == PlanExecute { PlanAfterCritic(cfg, s); } else { CriticKeepsReact(cfg, s); }
    }
  }

  lemma CriticKeepsReact(cfg: Config, s: State)
    requires s.mode == React
    ensures Critic(cfg, s).mode == React
  {
  }

  lemma {:induction false} PlanRun(cfg: Config, c: Conf, envs: seq<Env>)
    requires ControlInv(c) && PlanInv(c)
    ensures PlanInv(Run(cfg, c, envs))
    decreases |envs|
  {
    if envs != [] {
      ControlRun(cfg, c, envs[..|envs| - 1]);
      PlanRun(cfg, c, envs[..|envs| - 1]);
      PlanNext(cfg, Run(cfg, c, envs[..|envs| - 1]), envs[|envs| - 1]);
    }
  }

  /** A configuration reached from a fresh task. */
  ghost predicate Reachable(cfg: Config, c: Conf) {
    exists goal, mode, maxTokens, maxSteps, approval, envs: seq<Env> ::
      c == Run(cfg, Agent.Start(InitState(goal, mode, maxTokens, maxSteps, approval)), envs)
  }

  lemma ReachableInv(cfg: Config, c: Conf)
    requires Reachable(cfg, c)
    ensures ControlInv(c) && PlanInv(c)
  {
    var goal, mode, maxTokens, maxSteps, approval, envs: seq<Env> :|
      c == Run(cfg, Agent.Start(InitState(goal, mode, maxTokens, maxSteps, approval)), envs);
    StartControl(goal, mode, maxTokens, maxSteps, approval);
    ControlRun(cfg, Agent.Start(InitState(goal, mode, maxTokens, maxSteps, approval)), envs);
    PlanRun(cfg, Agent.Start(InitState(goal, mode, maxTokens, maxSteps, approval)), envs);
  }

  /** In plan mode all batches before the current one are done, in every reachable configuration. */
  lemma EarlierBatchesDone(cfg: Config, c: Conf)
    requires Reachable(cfg, c) && c.s.mode == PlanExecute
    ensures BatchesDone(c.s)
  {
    ReachableInv(cfg, c);
  }

  lemma CriticCompletesBatch(cfg: Config, s: State, x: nat)
    requires s.status == Running && (s.mode == PlanExecute ==> BatchesDone(s))
    requires Critic(cfg, s).mode == s.mode
    requires x < |s.plan| && s.plan[x].status.Pending?
    requires x < |Critic(cfg, s).plan| && Critic(cfg, s).plan[x].status.Done?
    ensures AllDone(s.plan, Prerequisites(s.plan, x))
  {
    CriticKeepsMode(cfg, s);
    var layers := SafeLayers(s.plan);
    hide Critic, PlanDag.SafeLayers;
    assert s.currentStep < |layers| && x in layers[s.currentStep];
    PrerequisitesComeFirst(s.plan, s.currentStep, x);
  }

  /** Unless it changes the mode, the critic keeps the plan or marks the current batch of a plan under way. */
  lemma CriticKeepsMode(cfg: Config, s: State)
    requires s.status == Running && Critic(cfg, s).mode == s.mode
    ensures var r, layers := Critic(cfg, s).plan, SafeLayers(s.plan);
            || r == s.plan
            || (s.mode == PlanExecute && s.currentStep < |layers| &&
                r == MarkBatch(s.plan, layers[s.currentStep], SummariesOf(s.observations)))
  {
    CriticCases(cfg, s);
  }

  /**
   The critic's verdict: a step turns done only after everything it has to wait for is done (its
   dependencies, or all earlier steps when the plan is run one step at a time).
   */
  lemma StepsWaitForPrerequisites(cfg: Config, c: Conf, x: nat)
    requires Reachable(cfg, c) && c.node == CriticNode && c.s.status == Running
    requires Critic(cfg, c.s).mode == c.s.mode
    requires x < |c.s.plan| && c.s.plan[x].status.Pending?
    requires x < |Critic(cfg, c.s).plan| && Critic(cfg, c.s).plan[x].status.Done?
    ensures AllDone(c.s.plan, Prerequisites(c.s.plan, x))
  {
    ReachableInv(cfg, c);
    CriticCompletesBatch(cfg, c.s, x);
  }

  /** When the critic gives up on the plan, exactly the finished steps are kept. */
  lemma DowngradeKeepsFinishedSteps(cfg: Config, s: State)
    requires s.status == Running && Critic(cfg, s).mode != s.mode
    ensures Critic(cfg, s).plan == DoneSteps(s.plan) && Critic(cfg, s).mode == React
  {
    CriticCases(cfg, s);
  }

  /** Only the critic turns steps done: every other node keeps exactly the steps that were done before. */
  lemma OnlyCriticCompletes(cfg: Config, c: Conf, env: Env, step: PlanStep)
    requires c.node != CriticNode && step in Next(cfg, c, env).s.plan && step.status.Done?
    ensures step in c.s.plan
  {
    match c.node
    case PlannerNode => PlannerAddsPending(c.s, env, step);
    case ReactNode => PlanKeptByReact(cfg, c.s, env);
    case ToolNode => PlanKeptByTools(cfg, c.s, env);
    case _ => PlanKeptByOthers(cfg, c.s, env);
  }

  lemma PlannerAddsPending(s: State, env: Env, step: PlanStep)
    requires step in NewPlan(s, env) && step.status.Done?
    ensures step in s.plan
  {
    ParseKeepsPending(env.planItems, []);
    var steps := NewSteps(s, env);
    assert AllPending(steps);
    if IsReplan(s) {
      MergedDoneIsOld(s.plan, steps, step);
    }
  }

  lemma MergedDoneIsOld(plan: Plan, steps: Plan, step: PlanStep)
    requires AllPending(steps) && step in Merge(plan, steps) && step.status.Done?
    ensures step in plan
  {
    var p :| 0 <= p < |Merge(plan, steps)| && Merge(plan, steps)[p] == step;
    var d := |DoneSteps(plan)|;
    if p < d {
      assert step == DoneSteps(plan)[p] == plan[DonePositions(plan)[p]];
    } else {
      MergedNew(plan, steps, p - d);
    }
  }

  /** The decision step leaves for the summary without asking the model only when every step is done. */
  lemma PlanFinishedMeansAllDone(cfg: Config, c: Conf, env: Env)
    requires Reachable(cfg, c) && c.node == ReactNode && c.s.mode == PlanExecute
    requires var r := Next(cfg, c, env); r.node == FinisherNode && r.s.status == Running
    requires NodeEffects(cfg, c.node, c.s, env) == []
    ensures forall i :: 0 <= i < |c.s.plan| ==> c.s.plan[i].status.Done?
  {
    ReachableInv(cfg, c);
    assert PlanFinished(c.s);
    FinishedMeansAllDone(c.s.plan, c.s.currentStep);
  }

  // ---------- a round run again ----------

  /** The outside world of a round that is run again after its results were stored. */
  function Again(env: Env): (r: Env) {
    env.(outcomes := RerunAll(env.outcomes))
  }

  /**
   Running the tools node again after a crash that lost its result but not the journal: the same key outputs, and
   the charge lower by exactly the repair calls that are not made again; the same messages and observations
   if and only if no call had failed with an error code.
   */
  lemma RerunNode(cfg: Config, s: State, env: Env)
    requires RunsTools(s, env)
    ensures var first, again := ToolExecutor(cfg, s, env), ToolExecutor(cfg, s, Again(env));
            && again.keyOutputs == first.keyOutputs
            && again.tokensUsed + ExecutedRepairs(env.outcomes, |s.pending|) == first.tokensUsed
            && (again.observations == first.observations <==>
                  forall i: nat :: i < |s.pending| ==> KeptWhole(OutcomeAt(env.outcomes, i)))
            && (again.observations == first.observations ==>
                  again == first.(tokensUsed := again.tokensUsed, selfhealTotal := again.selfhealTotal))
  {
    var start, sections := Totals(s.tokensUsed, 0, s.keyOutputs), Interleaving(env.schedule, |s.pending|);
    RerunKeyOutputs(cfg.keyLimits, s.pending, env.outcomes, start, sections);
    RerunCharge(env.outcomes, |s.pending|);
    RoundTokens(cfg.keyLimits, s.pending, env.outcomes, env.schedule, start);
    RoundTokens(cfg.keyLimits, s.pending, RerunAll(env.outcomes), env.schedule, start);
    RerunObservations(s.pending, env.outcomes);
  }

  // ---------- verdicts ----------

  lemma {:induction false} FailedMembers(observations: seq<Observation>, o: Observation)
    ensures o in FailedOf(observations) <==> o in observations && o.Failure?
  {
    if observations != [] {
      FailedMembers(observations[1..], o);
      assert o in observations <==> o == observations[0] || o in observations[1..];
    }
  }

  /** Some call of the round failed with one of these codes. */
  ghost predicate FailedWith(observations: seq<Observation>, codes: set<ErrorCode>) {
    exists o :: o in observations && o.Failure? && o.code.Some? && o.code.value in codes
  }

  ghost predicate SomeCode(observations: seq<Observation>) {
    exists o :: o in observations && o.Failure? && o.code.Some?
  }

  const DEFECT_CODES := {InvalidArgs, NotFound}
  const FATAL_CODES := {Permission, Auth}

  lemma VerdictByCodes(observations: seq<Observation>)
    requires SomeCode(observations)
    ensures FailedOf(observations) != []
    ensures Classify(FailedOf(observations)) ==
            if FailedWith(observations, DEFECT_CODES) then PlanDefect
            else if FailedWith(observations, FATAL_CODES) then Fatal else Retryable
  {
    var failed := FailedOf(observations);
    forall o
      ensures o in failed <==> o in observations && o.Failure?
    {
      FailedMembers(observations, o);
    }
    var codes := set o | o in failed && o.code.Some? :: o.code.value;
    forall code: ErrorCode
      ensures code in codes <==> FailedWith(observations, {code})
    {
    }
    assert FailedWith(observations, DEFECT_CODES) <==>
           FailedWith(observations, {InvalidArgs}) || FailedWith(observations, {NotFound});
    assert FailedWith(observations, FATAL_CODES) <==>
           FailedWith(observations, {Permission}) || FailedWith(observations, {Auth});
    var coded :| coded in observations && coded.Failure? && coded.code.Some?;
    assert coded.code.value in codes;
  }

  /**
   Where a round with coded failures leads, whatever the order of its calls and the texts of the errors: unusable
   arguments or tools back to the planner until the plan is given up, otherwise forbidden actions to the end, otherwise
   to the next decision as long as steps are left.
   */
  lemma CriticRoutesByCodes(cfg: Config, s: State)
    requires s.status == Running && SomeCode(s.observations)
    ensures var r := Critic(cfg, s);
            var next := RouteAfterCritic(r);
            var givenUp := s.mode == PlanExecute && 0 < cfg.downgradeAfterReplans <= s.defectStreak + 1;
            if FailedWith(s.observations, DEFECT_CODES) then
              if !givenUp then next == PlannerNode && r.plan == s.plan
              else if s.modeSwitches < cfg.maxModeSwitches then
                next == CompressorNode && r.mode == React && r.plan == DoneSteps(s.plan)
              else next == FinisherNode && r.status == Failed
            else if FailedWith(s.observations, FATAL_CODES) || s.iterations >= s.maxSteps then
              next == FinisherNode && r.status == Failed
            else next == CompressorNode && r.status == Running && r.plan == s.plan && r.currentStep == s.currentStep
  {
    VerdictByCodes(s.observations);
    hide FailedWith, Classify, FailedOf;
  }

  // ---------- legal plans stay legal ----------

  /** As long as no stored plan fell back: the plan is legal and finished steps wait for finished steps only. */
  ghost predicate LegalInv(c: Conf) {
    !c.fellBack ==> Sound(c.s.plan)
  }

  lemma MarkKeepsClosure(plan: Plan, k: nat, summary: string)
    requires PlanLayers(plan).Some? && DoneClosed(plan) && k < |SafeLayers(plan)|
    requires AllDone(plan, Placed(SafeLayers(plan), k))
    ensures var after := MarkBatch(plan, SafeLayers(plan)[k], summary);
            PlanLayers(after).Some? && DoneClosed(after)
  {
    var after := MarkBatch(plan, SafeLayers(plan)[k], summary);
    MarkBatchAdvances(plan, k, summary);
    SameShapeSameGraph(plan, after);
    forall i: nat | i < |after| && after[i].status.Done?
      ensures AllDone(after, DepsAt(after, i))
    {
      assert DepGraph(after)[i] == DepGraph(plan)[i];
      if plan[i].status.Pending? {
        PrerequisitesComeFirst(plan, k, i);
      } else {
        assert AllDone(plan, DepsAt(plan, i));
      }
    }
  }

  lemma FreshPlanClosed(plan: Plan)
    requires AllPending(plan)
    ensures DoneClosed(plan)
  {
  }

  lemma NewPlanClosed(s: State, env: Env)
    requires PlanLayers(s.plan).Some? && DoneClosed(s.plan) && PlanLayers(NewPlan(s, env)).Some?
    ensures DoneClosed(NewPlan(s, env))
  {
    ParseKeepsPending(env.planItems, []);
    var steps := NewSteps(s, env);
    assert AllPending(steps);
    if IsReplan(s) {
      PlanLayersCharacterised(s.plan);
      PlanLayersCharacterised(NewPlan(s, env));
      MergedLegalMeansUnique(s.plan, steps);
      MergeKeepsClosure(s.plan, steps);
    } else {
      FreshPlanClosed(steps);
    }
  }

  /** Duplicate ids among new steps survive the renaming, so a legal merged plan had none. */
  lemma MergedLegalMeansUnique(plan: Plan, steps: Plan)
    requires UniqueIds(Merge(plan, steps))
    ensures UniqueIds(steps)
  {
    forall i, j | 0 <= i < j < |steps|
      ensures steps[i].id != steps[j].id
    {
      MergedNew(plan, steps, i);
      MergedNew(plan, steps, j);
      var d := |DoneSteps(plan)|;
      assert Merge(plan, steps)[d + i].id != Merge(plan, steps)[d + j].id;
    }
  }

  ghost predicate Sound(plan: Plan) {
    PlanLayers(plan).Some? && DoneClosed(plan)
  }

  lemma LegalAfterCritic(cfg: Config, s: State)
    requires s.status == Running && Sound(s.plan) && (s.mode == PlanExecute ==> BatchesDone(s))
    ensures Sound(Critic(cfg, s).plan)
  {
    CriticPlans(cfg, s);
    hide Critic, PlanDag.PlanLayers, PlanDag.SafeLayers, Replanning.DoneClosed;
    DonePartLegal(s.plan);
    if s.mode == PlanExecute && s.currentStep < |SafeLayers(s.plan)| {
      MarkKeepsClosure(s.plan, s.currentStep, SummariesOf(s.observations));
    }
  }

  /** The critic keeps the plan, marks the current batch of a plan under way, or keeps the finished steps. */
  lemma CriticPlans(cfg: Config, s: State)
    requires s.status == Running
    ensures var r, layers := Critic(cfg, s).plan, SafeLayers(s.plan);
            || r == s.plan || r == DoneSteps(s.plan)
            || (s.mode == PlanExecute && s.currentStep < |layers| &&
                r == MarkBatch(s.plan, layers[s.currentStep], SummariesOf(s.observations)))
  {
    CriticCases(cfg, s);
  }

  lemma LegalNext(cfg: Config, c: Conf, env: Env)
    requires ControlInv(c) && PlanInv(c) && LegalInv(c)
    ensures LegalInv(Next(cfg, c, env))
  {
    if !Next(cfg, c, env).fellBack {
      match c.node
      case PlannerNode => NewPlanClosed(c.s, env);
      case ReactNode => PlanKeptByReact(cfg, c.s, env);
      case ToolNode => PlanKeptByTools(cfg, c.s, env);
      case CriticNode => if c.s.status == Running { LegalAfterCritic(cfg, c.s); }
      case _ => PlanKeptByOthers(cfg, c.s, env);
    }
  }

  lemma {:induction false} LegalRun(cfg: Config, c: Conf, envs: seq<Env>)
    requires ControlInv(c) && PlanInv(c) && LegalInv(c)
    ensures LegalInv(Run(cfg, c, envs))
    decreases |envs|
  {
    if envs != [] {
      ControlRun(cfg, c, envs[..|envs| - 1]);
      PlanRun(cfg, c, envs[..|envs| - 1]);
      LegalRun(cfg, c, envs[..|envs| - 1]);
      LegalNext(cfg, Run(cfg, c, envs[..|envs| - 1]), envs[|envs| - 1]);
    }
  }

  lemma ReachableLegal(cfg: Config, c: Conf)
    requires Reachable(cfg, c)
    ensures LegalInv(c)
  {
    var goal, mode, maxTokens, maxSteps, approval, envs: seq<Env> :|
      c == Run(cfg, Agent.Start(InitState(goal, mode, maxTokens, maxSteps, approval)), envs);
    var start := Agent.Start(InitState(goal, mode, maxTokens, maxSteps, approval));
    StartControl(goal, mode, maxTokens, maxSteps, approval);
    RankedHasNoCycle(DepGraph(start.s.plan), []);
    PlanLayersCharacterised(start.s.plan);
    FreshPlanClosed(start.s.plan);
    LegalRun(cfg, start, envs);
  }

  /**
   In every run without fallback so far, a replan with acceptable new steps is again run as declared: the
   merged plan keeps the finished steps in front and needs no fallback.
   */
  lemma ReplansStayLegal(cfg: Config, c: Conf, env: Env)
    requires Reachable(cfg, c) && c.node == PlannerNode && !c.fellBack && IsReplan(c.s)
    requires Acceptable(c.s.plan, NewSteps(c.s, env))
    ensures var r := Next(cfg, c, env);
            && !r.fellBack
            && DoneSteps(c.s.plan) <= r.s.plan
            && SafeLayers(r.s.plan) == PlanLayers(r.s.plan).value
  {
    ReachableLegal(cfg, c);
    ReplanPreserves(c.s.plan, NewSteps(c.s, env));
  }
}
