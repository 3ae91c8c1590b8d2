/**
 How runs end: the causes that stop a task, the final status and the final answer of every run, and the choices of
 single nodes that decide about them (app/graph/nodes.py; app/core/budget.py).
 */
module RunOutcomes {
  import opened Basics
  import opened PlanDag
  import opened Replanning
  import opened Messages
  import opened ToolRound
  import opened Agent
  import opened AgentRuns
  import opened Termination

  // ---------- the verdict on a round ----------

  ghost predicate Fails(observations: seq<Observation>) {
    exists o :: o in observations && o.Failure?
  }

  /** Some failure of the round mentions the marker within the first 200 characters of its error. */
  ghost predicate Mentions(observations: seq<Observation>, marker: string) {
    exists o :: o in observations && o.Failure? && Contains(Take(o.error, 200), marker)
  }

  ghost predicate SoundsTransient(observations: seq<Observation>) {
    exists o :: o in observations && o.Failure? && LooksTransient(Take(o.error, 200))
  }

  ghost predicate FailsValidation(observations: seq<Observation>) {
    exists o :: o in observations && o.Failure? && o.errorType == Validation
  }

  /** What becomes of a failed round: codes decide, and only without any the single texts do. */
  ghost function Verdict(observations: seq<Observation>): (kind: ErrorKind) {
    if SomeCode(observations) then
      if FailedWith(observations, DEFECT_CODES) then PlanDefect
      else if FailedWith(observations, FATAL_CODES) then Fatal else Retryable
    else if Mentions(observations, "未知工具") || FailsValidation(observations) then PlanDefect
    else if SoundsTransient(observations) then Retryable
    else if Mentions(observations, "越界") || Mentions(observations, "Permission") || Mentions(observations, "禁止") ||
            Mentions(observations, "路径") then Fatal
    else Retryable
  }

  lemma {:induction false} ContainsJoined(parts: seq<string>, marker: string)
    requires marker != "" && ';' !in marker && marker[0] != ' '
    ensures Contains(Join(parts), marker) <==> exists i :: 0 <= i < |parts| && Contains(parts[i], marker)
  {
    if |parts| > 1 {
      var rest := parts[1..];
      ContainsJoined(rest, marker);
      ContainsAcross(parts[0], Join(rest), marker);
      forall i | 0 <= i < |parts| && Contains(parts[i], marker)
        ensures Contains(parts[0], marker) || Contains(Join(rest), marker)
      {
        if i > 0 { assert parts[i] == rest[i - 1]; }
      }
    }
  }

  lemma LoweredConcat(a: string, b: string)
    ensures Lowered(a + b) == Lowered(a) + Lowered(b)
  {
  }

  function LoweredAll(parts: seq<string>): (r: seq<string>)
    ensures |r| == |parts| && forall i :: 0 <= i < |parts| ==> r[i] == Lowered(parts[i])
  {
    seq(|parts|, i requires 0 <= i < |parts| => Lowered(parts[i]))
  }

  lemma {:induction false} LoweredJoin(parts: seq<string>)
    ensures Lowered(Join(parts)) == Join(LoweredAll(parts))
  {
    if |parts| > 1 {
      var rest := parts[1..];
      LoweredJoin(rest);
      LoweredConcat(parts[0] + "; ", Join(rest));
      LoweredConcat(parts[0], "; ");
      assert Lowered("; ") == "; ";
      assert LoweredAll(parts)[1..] == LoweredAll(rest);
    } else if |parts| == 1 {
      assert LoweredAll(parts)[0] == Lowered(parts[0]);
    } else {
      assert Lowered("") == "";
    }
  }

  lemma TransientJoined(parts: seq<string>)
    ensures LooksTransient(Join(parts)) <==> exists i :: 0 <= i < |parts| && LooksTransient(parts[i])
  {
    hide MarkedTransient, Join, Lowered, LoweredAll;
    var lowered := LoweredAll(parts);
    LoweredJoin(parts);
    MarkedJoined(lowered);
    if i :| 0 <= i < |parts| && LooksTransient(parts[i]) { assert MarkedTransient(lowered[i]); }
    if i :| 0 <= i < |parts| && MarkedTransient(lowered[i]) { assert LooksTransient(parts[i]); }
  }

  lemma MarkedJoined(lowered: seq<string>)
    ensures MarkedTransient(Join(lowered)) <==> exists i :: 0 <= i < |lowered| && MarkedTransient(lowered[i])
  {
    hide Contains, Join;
    ContainsJoined(lowered, "timeout");
    ContainsJoined(lowered, "超时");
    ContainsJoined(lowered, "connection");
    ContainsJoined(lowered, "网络");
    ContainsJoined(lowered, "temporarily");
  }

  /** The beginnings of the errors, as the verdict reads them. */
  function Beginnings(failed: seq<Observation>): (parts: seq<string>)
    requires forall o :: o in failed ==> o.Failure?
    ensures |parts| == |failed|
  {
    seq(|failed|, i requires 0 <= i < |failed| => assert failed[i] in failed; Take(failed[i].error, 200))
  }

  lemma MentionedInErrors(observations: seq<Observation>, marker: string)
    requires marker != "" && ';' !in marker && marker[0] != ' '
    ensures Contains(ErrorsOf(FailedOf(observations)), marker) <==> Mentions(observations, marker)
  {
    var failed := FailedOf(observations);
    forall o { FailedMembers(observations, o); }
    var parts := Beginnings(failed);
    assert ErrorsOf(failed) == Join(parts);
    ContainsJoined(parts, marker);
    if Mentions(observations, marker) {
      var o :| o in observations && o.Failure? && Contains(Take(o.error, 200), marker);
      var i :| 0 <= i < |failed| && failed[i] == o;
      assert Contains(parts[i], marker);
    }
    if i :| 0 <= i < |parts| && Contains(parts[i], marker) {
      assert failed[i] in failed;
    }
  }

  lemma TransientInErrors(observations: seq<Observation>)
    ensures LooksTransient(ErrorsOf(FailedOf(observations))) <==> SoundsTransient(observations)
  {
    var failed := FailedOf(observations);
    forall o { FailedMembers(observations, o); }
    var parts := Beginnings(failed);
    assert ErrorsOf(failed) == Join(parts);
    TransientJoined(parts);
    if SoundsTransient(observations) {
      var o :| o in observations && o.Failure? && LooksTransient(Take(o.error, 200));
      var i :| 0 <= i < |failed| && failed[i] == o;
      assert LooksTransient(parts[i]);
    }
    if i :| 0 <= i < |parts| && LooksTransient(parts[i]) {
      assert failed[i] in failed;
    }
  }

  lemma {:induction false} NoneFailed(observations: seq<Observation>)
    requires !Fails(observations)
    ensures FailedOf(observations) == []
  {
    if observations != [] {
      assert observations[0] in observations;
      NoneFailed(observations[1..]);
    }
  }

  /** The classification of a failed round is this verdict, whatever the order of its calls. */
  lemma ClassifyIsVerdict(observations: seq<Observation>)
    requires Fails(observations)
    ensures FailedOf(observations) != [] && Classify(FailedOf(observations)) == Verdict(observations)
  {
    var failed := FailedOf(observations);
    forall o { FailedMembers(observations, o); }
    if SomeCode(observations) {
      VerdictByCodes(observations);
    } else {
      hide LooksTransient, Contains, Mentions, SoundsTransient;
      assert (set o | o in failed && o.code.Some? :: o.code.value) == {};
      MentionedInErrors(observations, "未知工具");
      MentionedInErrors(observations, "越界");
      MentionedInErrors(observations, "Permission");
      MentionedInErrors(observations, "禁止");
      MentionedInErrors(observations, "路径");
      TransientInErrors(observations);
      assert FailsValidation(observations) <==> exists o :: o in failed && o.errorType == Validation;
    }
  }

  // ---------- what stops a task ----------

  /** Steps or tokens are used up, and there is no cheaper model left to go on with. */
  predicate OutOfBudget(cfg: Config, s: State) {
    s.stepsUsed >= s.maxSteps || (s.tokensUsed >= s.maxTokens && (s.downgraded || !cfg.hasCheapModel))
  }

  /** The round failed for good: fatally, without steps to try again, or without a mode to change to. */
  ghost predicate GivesUp(cfg: Config, s: State) {
    Fails(s.observations) &&
    match Verdict(s.observations)
    case Fatal => true
    case Retryable => s.iterations >= s.maxSteps
    case PlanDefect =>
      && s.mode == PlanExecute && 0 < cfg.downgradeAfterReplans <= s.defectStreak + 1
      && s.modeSwitches >= cfg.maxModeSwitches
    case NoError => false
  }

  /** The status with which executing the node at hand stops a running task, if it does. */
  ghost function Stop(cfg: Config, c: Conf, env: Env): (status: Option<Status>) {
    if c.s.status != Running then None
    else match c.node
      case ReactNode =>
        if env.canceled then Some(Canceled) else if OutOfBudget(cfg, c.s) then Some(BudgetExceeded) else None
      case GateNode => if c.s.requireApproval && !env.approve then Some(Canceled) else None
      case ToolNode => if env.canceled then Some(Canceled) else None
      case CriticNode => if GivesUp(cfg, c.s) then Some(Failed) else None
      case _ => None
  }

  lemma ReactStatus(cfg: Config, s: State, env: Env)
    requires s.status == Running
    ensures ReactStep(cfg, s, env).status ==
            if env.canceled then Canceled else if OutOfBudget(cfg, s) then BudgetExceeded else Running
  {
  }

  lemma CriticStatus(cfg: Config, s: State)
    requires s.status == Running
    ensures Critic(cfg, s).status == if GivesUp(cfg, s) then Failed else Running
  {
    if Fails(s.observations) { ClassifyIsVerdict(s.observations); } else { NoneFailed(s.observations); }
    hide Verdict, Classify, FailedOf, Fails;
  }

  /** The status after each node of a running task. */
  lemma StatusNext(cfg: Config, c: Conf, env: Env)
    requires ControlInv(c) && c.s.status == Running
    ensures Next(cfg, c, env).s.status ==
            if Stop(cfg, c, env).Some? then Stop(cfg, c, env).value
            else if c.node == FinisherNode then Succeeded else Running
  {
    match c.node
    case ReactNode => ReactStatus(cfg, c.s, env);
    case CriticNode => CriticStatus(cfg, c.s);
    case _ =>
  }

  /** The first stop of a run. */
  ghost function Cause(cfg: Config, c: Conf, envs: seq<Env>): (status: Option<Status>)
    decreases |envs|
  {
    if envs == [] then None
    else
      var init, last := envs[..|envs| - 1], envs[|envs| - 1];
      var before := Cause(cfg, c, init);
      if before.Some? then before else Stop(cfg, Run(cfg, c, init), last)
  }

  lemma {:induction false} StatusRun(cfg: Config, c: Conf, envs: seq<Env>)
    requires ControlInv(c) && c.s.status == Running
    ensures var r, cause := Run(cfg, c, envs), Cause(cfg, c, envs);
            r.s.status == if cause.Some? then cause.value else if r.node == End then Succeeded else Running
    ensures Cause(cfg, c, envs).Some? ==> Cause(cfg, c, envs).value != Running && Cause(cfg, c, envs).value != Succeeded
    decreases |envs|
  {
    if envs != [] {
      var init, last := envs[..|envs| - 1], envs[|envs| - 1];
      StatusRun(cfg, c, init);
      ControlRun(cfg, c, init);
      var before := Run(cfg, c, init);
      if before.s.status == Running {
        StatusNext(cfg, before, last);
      } else {
        QuietNode(cfg, before.node, before.s, last);
      }
      EndsAtFinisher(cfg, before, last);
    }
  }

  lemma EndsAtFinisher(cfg: Config, c: Conf, env: Env)
    ensures Next(cfg, c, env).node == End <==> c.node == FinisherNode || c.node == End
  {
  }

  /**
   How every run ends: once it has ended, with the status of the first cause that stopped it (a cancellation seen, a
   rejection, a budget used up, a round given up), and as a success exactly when there was none.
   */
  lemma RunsEndAsCaused(cfg: Config, goal: string, mode: Mode, maxTokens: int, maxSteps: int, approval: bool,
                        envs: seq<Env>)
    requires |envs| >= WorstCase(mode, maxSteps)
    ensures var start := Agent.Start(InitState(goal, mode, maxTokens, maxSteps, approval));
            var r, cause := Run(cfg, start, envs), Cause(cfg, start, envs);
            && r.node == End
            && r.s.status == (if cause.Some? then cause.value else Succeeded)
            && (r.s.status == Succeeded <==> cause.None?)
  {
    StartControl(goal, mode, maxTokens, maxSteps, approval);
    EveryRunEnds(cfg, goal, mode, maxTokens, maxSteps, approval, envs);
    StatusRun(cfg, Agent.Start(InitState(goal, mode, maxTokens, maxSteps, approval)), envs);
  }

  /** The causes of a run are the stops at its steps; the first one is the only one. */
  lemma CauseIsAStop(cfg: Config, c: Conf, envs: seq<Env>, status: Status)
    requires ControlInv(c) && c.s.status == Running
    ensures Cause(cfg, c, envs) == Some(status) <==>
            exists i: nat :: i < |envs| && StopsAt(cfg, c, envs, i) == Some(status)
  {
    hide Cause, StopsAt;
    if Cause(cfg, c, envs) == Some(status) { var i := CauseHasStop(cfg, c, envs, status); }
    if i: nat :| i < |envs| && StopsAt(cfg, c, envs, i) == Some(status) { StopIsCause(cfg, c, envs, i); }
  }

  lemma {:induction false} CauseHasStop(cfg: Config, c: Conf, envs: seq<Env>, status: Status) returns (i: nat)
    requires Cause(cfg, c, envs) == Some(status)
    ensures i < |envs| && StopsAt(cfg, c, envs, i) == Some(status)
    decreases |envs|
  {
    hide Stop, Run;
    var n := |envs| - 1;
    if Cause(cfg, c, envs[..n]).Some? {
      i := CauseHasStop(cfg, c, envs[..n], status);
      StopsAtPrefix(cfg, c, envs, i);
    } else {
      i := n;
    }
  }

  lemma {:induction false} StopIsCause(cfg: Config, c: Conf, envs: seq<Env>, i: nat)
    requires ControlInv(c) && c.s.status == Running && i < |envs| && StopsAt(cfg, c, envs, i).Some?
    ensures Cause(cfg, c, envs) == StopsAt(cfg, c, envs, i)
    decreases |envs|
  {
    hide Stop, Run, ControlInv;
    var n := |envs| - 1;
    if i < n {
      StopsAtPrefix(cfg, c, envs, i);
      StopIsCause(cfg, c, envs[..n], i);
    } else {
      StatusRun(cfg, c, envs[..n]);
      StopsOnlyRunning(cfg, Run(cfg, c, envs[..n]), envs[n]);
    }
  }

  lemma StopsAtPrefix(cfg: Config, c: Conf, envs: seq<Env>, i: nat)
    requires i < |envs| - 1
    ensures StopsAt(cfg, c, envs[..|envs| - 1], i) == StopsAt(cfg, c, envs, i)
  {
    assert envs[..|envs| - 1][..i] == envs[..i];
  }

  lemma StopsOnlyRunning(cfg: Config, c: Conf, env: Env)
    ensures Stop(cfg, c, env).Some? ==> c.s.status == Running
  {
  }

  ghost function StopsAt(cfg: Config, c: Conf, envs: seq<Env>, i: nat): (status: Option<Status>)
    requires i < |envs|
  {
    Stop(cfg, Run(cfg, c, envs[..i]), envs[i])
  }

  // ---------- the final answer ----------

  /** What the user is shown: the task's own words if it has some, otherwise a summary asked of the model. */
  lemma FinalAnswer(cfg: Config, c: Conf, env: Env)
    requires ControlInv(c) && c.node == FinisherNode
    ensures var r := Next(cfg, c, env);
            match c.s.status
            case Running =>
              if c.s.mode == React && c.s.finalAnswer != ""
              then r.s.finalAnswer == c.s.finalAnswer && r.log == c.log
              else r.s.finalAnswer == env.finalText && r.log == c.log + [FinalCall(env.finalTokens)]
            case Canceled =>
              r.log == c.log && r.s.finalAnswer != "" &&
              (c.s.finalAnswer != "" ==> r.s.finalAnswer == c.s.finalAnswer)
            case _ => r.log == c.log && r.s.finalAnswer == c.s.lastError
  {
  }

  /** A reply without tool calls ends a task in react mode, and is its answer, without a further call of the model. */
  lemma DirectAnswer(cfg: Config, c: Conf, env: Env, last: Env)
    requires c.node == ReactNode && ControlInv(c) && c.s.mode == React && !env.canceled && !OutOfBudget(cfg, c.s)
    requires env.reply.calls == [] && env.reply.text != ""
    ensures var r := Next(cfg, Next(cfg, c, env), last);
            && r.node == End && r.s.status == Succeeded && r.s.finalAnswer == env.reply.text
            && r.s.tokensUsed == c.s.tokensUsed + env.reply.tokens
  {
    var s := ReactStep(cfg, c.s, env);
    assert s == Decided(c.s, env.reply, s.downgraded);
  }

  // ---------- decisions ----------

  /** The model is asked for a decision unless the task is cancelled, out of budget or through with its plan. */
  lemma AskedExactlyWhen(cfg: Config, c: Conf, env: Env)
    requires c.node == ReactNode && ControlInv(c)
    ensures var asked := !env.canceled && !OutOfBudget(cfg, c.s) &&
                         !(c.s.mode == PlanExecute && c.s.plan != [] && c.s.currentStep >= |SafeLayers(c.s.plan)|);
            var r := Next(cfg, c, env);
            && (asked ==> r.log == c.log + [DecisionCall(Assembled(c.s), c.s.tokensUsed, env.reply.tokens)] &&
                          r.s.stepsUsed == c.s.stepsUsed + 1 &&
                          (r.node == GateNode <==> env.reply.calls != []) && r.s.pending == env.reply.calls)
            && (!asked ==> r.log == c.log && r.node == FinisherNode && r.s.stepsUsed == c.s.stepsUsed)
  {
  }

  /** The request carries the goal and the whole stored history. */
  lemma RequestCarriesHistory(s: State)
    ensures var sent := Assembled(s);
            && |sent| == 2 + |s.messages| && sent[0].System? && sent[1] == User(s.goal) && sent[2..] == s.messages
  {
  }

  /** The cheaper model is turned to when the tokens are used up and steps are left, and then kept. */
  lemma DowngradesExactlyWhen(cfg: Config, s: State, env: Env)
    requires !env.canceled && !OutOfBudget(cfg, s)
    requires !(s.mode == PlanExecute && s.plan != [] && s.currentStep >= |SafeLayers(s.plan)|)
    ensures ReactStep(cfg, s, env).downgraded <==> s.downgraded || s.tokensUsed >= s.maxTokens
  {
  }

  // ---------- planning, verdicts and compression ----------

  /** A replan in react mode switches to plan mode while switches are left; no other planning changes the mode. */
  lemma PlanningSwitchesExactlyWhen(cfg: Config, s: State, env: Env)
    ensures var r := Planner(cfg, s, env);
            && (s.mode == React && s.lastError != "" && s.modeSwitches < cfg.maxModeSwitches ==>
                  r.mode == PlanExecute && r.modeSwitches == s.modeSwitches + 1)
            && (!(s.mode == React && s.lastError != "" && s.modeSwitches < cfg.maxModeSwitches) ==>
                  r.mode == s.mode && r.modeSwitches == s.modeSwitches)
            && r.lastError == "" && r.errorKind == NoError
            && (s.lastError == "" ==> AllPending(r.plan))
  {
    ParseKeepsPending(env.planItems, []);
  }

  /** Failed plans are counted until a round succeeds or the plan is given up. */
  lemma DefectsAreCounted(cfg: Config, s: State)
    requires s.status == Running
    ensures var r := Critic(cfg, s);
            && (!Fails(s.observations) ==>
                  && r.defectStreak == 0 && r.currentStep == s.currentStep + 1
                  && r.lastError == "" && r.errorKind == NoError)
            && (Fails(s.observations) && Verdict(s.observations) == PlanDefect &&
                r.mode == s.mode && r.status == Running ==>
                  r.defectStreak == s.defectStreak + 1)
            && (r.mode != s.mode ==> r.defectStreak == 0 && r.currentStep == 0)
            && (Fails(s.observations) && Verdict(s.observations) != PlanDefect ==> r.defectStreak == s.defectStreak)
  {
    if Fails(s.observations) { ClassifyIsVerdict(s.observations); } else { NoneFailed(s.observations); }
    hide Verdict, Classify, FailedOf, Fails;
  }

  /** The stored plan: the one answered, merged with finished steps in a replan; or the goal as one step. */
  lemma PlanningStoresThePlan(cfg: Config, s: State, env: Env)
    ensures var answer := ParseFrom(env.planItems, []);
            var steps := if answer != [] then answer else [PlanStep("s1", s.goal, Pending, "", None)];
            Planner(cfg, s, env).plan == if s.lastError == "" then steps else Merge(s.plan, steps)
  {
    hide ParseFrom, Merge, StartBatch;
    StoresNewPlan(cfg, s, env);
  }

  lemma StoresNewPlan(cfg: Config, s: State, env: Env)
    ensures Planner(cfg, s, env).plan == NewPlan(s, env)
  {
    hide NewPlan, StartBatch;
  }

  /** Work goes on with the first batch of the new plan that holds a pending step. */
  lemma PlanningStartsAtOpenBatch(cfg: Config, s: State, env: Env)
    ensures var r := Planner(cfg, s, env);
            var layers := SafeLayers(r.plan);
            && r.currentStep <= |layers|
            && (r.currentStep < |layers| ==> HasPending(r.plan, layers[r.currentStep]))
            && (forall i :: 0 <= i < r.currentStep ==> !HasPending(r.plan, layers[i]))
  {
    StartBatchExactly(NewPlan(s, env));
    hide NewPlan, StartBatch, SafeLayers, HasPending;
  }

  /** What a round of tools leaves behind: every call's own result, told to the model, in call order. */
  lemma ToolsReport(cfg: Config, s: State, env: Env)
    requires RunsTools(s, env)
    ensures var r, n := ToolExecutor(cfg, s, env), |s.messages|;
            && |r.observations| == |s.pending| && |r.messages| == n + |s.pending| && r.messages[..n] == s.messages
            && (forall i: nat :: i < |s.pending| ==>
                  && Reports(s.pending[i], OutcomeAt(env.outcomes, i), r.observations[i])
                  && Tells(s.pending[i], r.observations[i], r.messages[n + i]))
            && r.selfhealTotal == s.selfhealTotal + RoundRepairs(env.outcomes, |s.pending|)
            && r.keyOutputs == Prune(Unpruned(cfg.keyLimits, s.pending, env.outcomes, env.schedule,
                                              Totals(s.tokensUsed, 0, s.keyOutputs)))
  {
    ToolsState(cfg, s, env);
    AnswersTell(s.pending, env.outcomes);
    hide ToolExecutor, Observations, AnswersOf, Reports, Tells, Prune, Unpruned;
  }

  lemma ToolsState(cfg: Config, s: State, env: Env)
    requires RunsTools(s, env)
    ensures var r, observations := ToolExecutor(cfg, s, env), Observations(s.pending, env.outcomes);
            && r.observations == observations && r.messages == s.messages + AnswersOf(s.pending, observations)
            && r.selfhealTotal == s.selfhealTotal + RoundRepairs(env.outcomes, |s.pending|)
            && r.keyOutputs == Prune(Unpruned(cfg.keyLimits, s.pending, env.outcomes, env.schedule,
                                              Totals(s.tokensUsed, 0, s.keyOutputs)))
  {
    RoundTokens(cfg.keyLimits, s.pending, env.outcomes, env.schedule, Totals(s.tokensUsed, 0, s.keyOutputs));
    hide RunSections, Observations, AnswersOf, Prune;
  }

  /** The result noted for a step begins with the summaries of its round's calls. */
  lemma ResultsNoteSummaries(a: Observation, b: Observation)
    requires a.Success? && b.Success?
    ensures SummariesOf([a]) == Take(a.result.summary, 200)
    ensures SummariesOf([a, b]) == Take(Take(a.result.summary, 200) + "; " + Take(b.result.summary, 200), 400)
  {
    var first, second := Take(a.result.summary, 200), Take(b.result.summary, 200);
    assert SummaryParts([a]) == [first];
    assert SummaryParts([a, b]) == [first, second];
    assert [first, second][1..] == [second] && Join([second]) == second;
    assert Join([first, second]) == first + "; " + second;
  }

  /** A history that is too long and reaches beyond the window is replaced by prompts, summary and window. */
  lemma LongHistoriesAreCompressed(cfg: Config, c: Conf, env: Env)
    requires c.node == CompressorNode && env.compress && WindowStart(Select(c.s.messages, false)) > 0
    ensures var r, history := Next(cfg, c, env), Select(c.s.messages, false);
            && r.s.messages == Select(c.s.messages, true) + [User(env.summary)] + history[WindowStart(history)..]
            && r.s.tokensUsed == c.s.tokensUsed + env.summaryTokens
  {
  }
}
