/**
 Human approval over a task's whole life, with suspensions, crashes, resumes and decisions on their way
 (app/graph/nodes.py `approval_gate_node`; app/graph/engine.py `_execute`, `resume_task`;
 app/api/routes_tasks.py `resume_task`, `approve_task`, `reject_task`).

 The state is checkpointed after every node. A process that dies inside a node loses that node's result but
 not what the node did outside; the node is run again after a resume. A decision is accepted while the task
 hangs and takes effect later; it does not name the round it was made for.
 */
module Approval {
  import opened Basics
  import opened Messages
  import opened Agent
  import opened AgentRuns
  import opened Termination

  /** A round of tool calls: its number and the exact calls. */
  type Round = (nat, seq<Call>)

  /** An accepted decision: the round the human saw, and how many decisions had taken effect by then. */
  datatype Decision = Decision(round: Round, approve: bool, stamp: nat)

  /** A decision that took effect: the round that hung at that moment, and how many had taken effect before. */
  datatype Verdict = Verdict(hung: Round, decision: Decision, position: nat)

  /**
   The checkpoint, whether a process is working on it, whether it hangs at the gate, and history: decisions
   accepted, decisions that took effect, rounds whose tools were started.
   */
  datatype Session = Session(
    conf: Conf, active: bool, suspended: bool, sent: seq<Decision>, verdicts: seq<Verdict>, started: seq<Round>)

  datatype Event =
    | Work(env: Env)             // the active process executes the next node and stores the checkpoint
    | DieInside(env: Env)        // it dies while executing the next node
    | Resume                     // a resume without a decision
    | Ask(approve: bool)         // a decision is requested
    | Deliver(i: nat, env: Env)  // an accepted decision arrives, perhaps not for the first time

  function RoundOf(s: State): (r: Round) {
    (s.iterations, s.pending)
  }

  predicate StopsAtGate(c: Conf) {
    c.node == GateNode && c.s.requireApproval
  }

  /** Tools started by executing the node at hand. */
  function StartedBy(c: Conf, env: Env): (r: seq<Round>) {
    if c.node == ToolNode && RunsTools(c.s, env) then [RoundOf(c.s)] else []
  }

  function Step(cfg: Config, x: Session, e: Event): (r: Session) {
    match e
    case Work(env) =>
      if !x.active then x
      else if StopsAtGate(x.conf) then x.(active := false, suspended := true)
      else x.(conf := Next(cfg, x.conf, env), active := x.conf.node != FinisherNode,
              started := x.started + StartedBy(x.conf, env))
    case DieInside(env) =>
      if !x.active then x
      else x.(active := false,
              started := if StopsAtGate(x.conf) then x.started else x.started + StartedBy(x.conf, env))
    case Resume =>
      if x.active || x.suspended || x.conf.node == End then x else x.(active := true)
    case Ask(approve) =>
      if x.suspended then x.(sent := x.sent + [Decision(RoundOf(x.conf.s), approve, |x.verdicts|)]) else x
    case Deliver(i, env) =>
      if !x.suspended || i >= |x.sent| then x
      else x.(conf := Next(cfg, x.conf, env.(approve := x.sent[i].approve)), active := true, suspended := false,
              verdicts := x.verdicts + [Verdict(RoundOf(x.conf.s), x.sent[i], |x.verdicts|)])
  }

  function Life(cfg: Config, x: Session, events: seq<Event>): (r: Session)
    decreases |events|
  {
    if events == [] then x else Step(cfg, Life(cfg, x, events[..|events| - 1]), events[|events| - 1])
  }

  function Begin(c: Conf): (x: Session) {
    Session(c, true, false, [], [], [])
  }

  // ---------- what every session keeps ----------

  /** The round was opened by an approval. */
  ghost predicate Opened(verdicts: seq<Verdict>, round: Round) {
    exists g :: g in verdicts && g.hung == round && g.decision.approve
  }

  ghost predicate SessionInv(cfg: Config, initial: Mode, x: Session) {
    && ControlInv(x.conf) && CountersOk(cfg, initial, x.conf.s)
    && (x.suspended ==> StopsAtGate(x.conf) && !x.active)
    && (x.conf.s.requireApproval && x.conf.node == ToolNode ==>
          x.verdicts != [] && x.verdicts[|x.verdicts| - 1].hung == RoundOf(x.conf.s) &&
          x.verdicts[|x.verdicts| - 1].decision.approve)
    && (x.conf.s.requireApproval ==> forall i :: 0 <= i < |x.started| ==> Opened(x.verdicts, x.started[i]))
  }

  /** The gate is the only way to the tools. */
  lemma OnlyGateLeadsToTools(cfg: Config, c: Conf, env: Env)
    requires Next(cfg, c, env).node == ToolNode
    ensures c.node == GateNode && (c.s.requireApproval ==> env.approve)
    ensures RoundOf(Next(cfg, c, env).s) == RoundOf(c.s)
  {
  }

  lemma OpenedStays(verdicts: seq<Verdict>, g: Verdict, round: Round)
    requires Opened(verdicts, round)
    ensures Opened(verdicts + [g], round)
  {
    var h :| h in verdicts && h.hung == round && h.decision.approve;
    assert h in verdicts + [g];
  }

  lemma WorkKeepsInv(cfg: Config, initial: Mode, x: Session, env: Env)
    requires SessionInv(cfg, initial, x) && x.active && !StopsAtGate(x.conf)
    ensures SessionInv(cfg, initial, Step(cfg, x, Work(env)))
    ensures Step(cfg, x, Work(env)).conf.s.requireApproval == x.conf.s.requireApproval
  {
    ControlNext(cfg, x.conf, env);
    CountersNext(cfg, initial, x.conf, env);
    if Next(cfg, x.conf, env).node == ToolNode { OnlyGateLeadsToTools(cfg, x.conf, env); }
    StartedIsOpened(cfg, initial, x);
  }

  lemma StartedIsOpened(cfg: Config, initial: Mode, x: Session)
    requires SessionInv(cfg, initial, x)
    ensures x.conf.s.requireApproval && x.conf.node == ToolNode ==> Opened(x.verdicts, RoundOf(x.conf.s))
  {
    if x.conf.s.requireApproval && x.conf.node == ToolNode {
      assert x.verdicts[|x.verdicts| - 1] in x.verdicts;
    }
  }

  lemma DeliverKeepsInv(cfg: Config, initial: Mode, x: Session, i: nat, env: Env)
    requires SessionInv(cfg, initial, x) && x.suspended && i < |x.sent|
    ensures SessionInv(cfg, initial, Step(cfg, x, Deliver(i, env)))
    ensures Step(cfg, x, Deliver(i, env)).conf.s.requireApproval == x.conf.s.requireApproval
  {
    var decided := env.(approve := x.sent[i].approve);
    ControlNext(cfg, x.conf, decided);
    CountersNext(cfg, initial, x.conf, decided);
    if Next(cfg, x.conf, decided).node == ToolNode { OnlyGateLeadsToTools(cfg, x.conf, decided); }
    var g := Verdict(RoundOf(x.conf.s), x.sent[i], |x.verdicts|);
    forall j | 0 <= j < |x.started| && x.conf.s.requireApproval
      ensures Opened(x.verdicts + [g], x.started[j])
    {
      OpenedStays(x.verdicts, g, x.started[j]);
    }
  }

  lemma DyingKeepsInv(cfg: Config, initial: Mode, x: Session, env: Env)
    requires SessionInv(cfg, initial, x)
    ensures SessionInv(cfg, initial, Step(cfg, x, DieInside(env)))
  {
    hide Next, ControlInv, CountersOk;
    StartedIsOpened(cfg, initial, x);
  }

  lemma SessionNext(cfg: Config, initial: Mode, x: Session, e: Event)
    requires SessionInv(cfg, initial, x)
    ensures SessionInv(cfg, initial, Step(cfg, x, e))
    ensures Step(cfg, x, e).conf.s.requireApproval == x.conf.s.requireApproval
  {
    hide Next, ControlInv, CountersOk;
    match e
    case Work(env) => if x.active && !StopsAtGate(x.conf) { WorkKeepsInv(cfg, initial, x, env); }
    case DieInside(env) => DyingKeepsInv(cfg, initial, x, env);
    case Deliver(i, env) => if x.suspended && i < |x.sent| { DeliverKeepsInv(cfg, initial, x, i, env); }
    case _ =>
  }

  lemma {:induction false} LifeInv(cfg: Config, initial: Mode, x: Session, events: seq<Event>)
    requires SessionInv(cfg, initial, x)
    ensures SessionInv(cfg, initial, Life(cfg, x, events))
    ensures Life(cfg, x, events).conf.s.requireApproval == x.conf.s.requireApproval
    decreases |events|
  {
    if events != [] {
      LifeInv(cfg, initial, x, events[..|events| - 1]);
      SessionNext(cfg, initial, Life(cfg, x, events[..|events| - 1]), events[|events| - 1]);
    }
  }

  function Fresh(goal: string, mode: Mode, maxTokens: int, maxSteps: int, approval: bool): (x: Session) {
    Begin(Agent.Start(InitState(goal, mode, maxTokens, maxSteps, approval)))
  }

  /**
   With approval required, through any sequence of work, crashes, resumes and decisions: whenever control is
   at the tools, the last decision to take effect was an approval, and this very round with these very calls
   was hanging then; and every round whose tools were ever started had been opened so.
   */
  lemma ToolsOnlyAfterApproval(cfg: Config, goal: string, mode: Mode, maxTokens: int, maxSteps: int, events: seq<Event>)
    ensures var x := Life(cfg, Fresh(goal, mode, maxTokens, maxSteps, true), events);
            && (x.conf.node == ToolNode ==>
                  x.verdicts != [] && x.verdicts[|x.verdicts| - 1].hung == RoundOf(x.conf.s) &&
                  x.verdicts[|x.verdicts| - 1].decision.approve)
            && forall i :: 0 <= i < |x.started| ==> Opened(x.verdicts, x.started[i])
  {
    StartControl(goal, mode, maxTokens, maxSteps, true);
    LifeInv(cfg, mode, Fresh(goal, mode, maxTokens, maxSteps, true), events);
  }

  // ---------- which round a decision opens ----------

  /** While no decision has taken effect since, the round the human saw still hangs; afterwards it is past. */
  ghost predicate InTime(x: Session, d: Decision) {
    && d.stamp <= |x.verdicts|
    && (d.stamp == |x.verdicts| ==> x.suspended && d.round == RoundOf(x.conf.s))
    && (d.stamp < |x.verdicts| ==>
          d.round.0 <= x.conf.s.iterations && (x.conf.node == GateNode ==> d.round.0 < x.conf.s.iterations))
  }

  ghost predicate DecisionsInv(x: Session) {
    && (forall i :: 0 <= i < |x.sent| ==> InTime(x, x.sent[i]))
    && (forall g :: g in x.verdicts ==> (g.decision.round == g.hung <==> g.decision.stamp == g.position))
  }

  /** Rounds are numbered upwards, and the gate is reached with a new one only. */
  lemma RoundsAdvance(cfg: Config, c: Conf, env: Env)
    ensures var r := Next(cfg, c, env);
            r.s.iterations >= c.s.iterations && (r.node == GateNode ==> r.s.iterations > c.s.iterations)
  {
    match c.node
    case ToolNode => RoundKeepsCounters(cfg, c.s, env);
    case CriticNode => if c.s.status == Running { CriticCases(cfg, c.s); }
    case ReactNode => ReactRounds(cfg, c.s, env);
    case PlannerNode => PlannerRounds(cfg, c.s, NewPlan(c.s, env), env.planTokens);
    case _ => PassiveNodesKeepCounters(c.s, env);
  }

  lemma ReactRounds(cfg: Config, s: State, env: Env)
    ensures var r := ReactStep(cfg, s, env);
            r.iterations >= s.iterations && (RouteAfterStep(r) == GateNode ==> r.iterations > s.iterations)
  {
  }

  lemma PlannerRounds(cfg: Config, s: State, plan: PlanDag.Plan, tokens: nat)
    ensures Planned(cfg, s, plan, tokens).iterations == s.iterations
  {
  }

  lemma InTimeNext(cfg: Config, initial: Mode, x: Session, e: Event, d: Decision)
    requires SessionInv(cfg, initial, x) && InTime(x, d)
    ensures InTime(Step(cfg, x, e), d)
  {
    match e
    case Work(env) => RoundsAdvance(cfg, x.conf, env);
    case Deliver(i, env) =>
      if x.suspended && i < |x.sent| { GateKeepsRound(cfg, x.conf, env.(approve := x.sent[i].approve)); }
    case _ =>
  }

  lemma GateKeepsRound(cfg: Config, c: Conf, env: Env)
    requires c.node == GateNode
    ensures Next(cfg, c, env).s.iterations == c.s.iterations && Next(cfg, c, env).node != GateNode
  {
  }

  lemma DecisionsNext(cfg: Config, initial: Mode, x: Session, e: Event)
    requires SessionInv(cfg, initial, x) && DecisionsInv(x)
    ensures DecisionsInv(Step(cfg, x, e))
  {
    var x' := Step(cfg, x, e);
    forall i | 0 <= i < |x'.sent|
      ensures InTime(x', x'.sent[i])
    {
      if i < |x.sent| { InTimeNext(cfg, initial, x, e, x.sent[i]); }
    }
    forall g | g in x'.verdicts
      ensures g.decision.round == g.hung <==> g.decision.stamp == g.position
    {
      if g !in x.verdicts {
        assert InTime(x, x.sent[e.i]);
      }
    }
  }

  lemma {:induction false} DecisionsRun(cfg: Config, initial: Mode, x: Session, events: seq<Event>)
    requires SessionInv(cfg, initial, x) && DecisionsInv(x)
    ensures DecisionsInv(Life(cfg, x, events))
    decreases |events|
  {
    if events != [] {
      LifeInv(cfg, initial, x, events[..|events| - 1]);
      DecisionsRun(cfg, initial, x, events[..|events| - 1]);
      DecisionsNext(cfg, initial, Life(cfg, x, events[..|events| - 1]), events[|events| - 1]);
    }
  }

  /**
   A decision opens, or rejects, the round it was made for if and only if no other decision took effect between its
   acceptance and its own effect.
   */
  lemma DecisionHitsItsRoundExactlyWhen(cfg: Config, goal: string, mode: Mode, maxTokens: int, maxSteps: int,
                                        approval: bool, events: seq<Event>, g: Verdict)
    requires g in Life(cfg, Fresh(goal, mode, maxTokens, maxSteps, approval), events).verdicts
    ensures g.decision.round == g.hung <==> g.decision.stamp == g.position
  {
    StartControl(goal, mode, maxTokens, maxSteps, approval);
    DecisionsRun(cfg, mode, Fresh(goal, mode, maxTokens, maxSteps, approval), events);
  }

  // ---------- rejection ----------

  lemma QuietStep(cfg: Config, initial: Mode, x: Session, e: Event)
    requires SessionInv(cfg, initial, x) && x.conf.s.status == Canceled
    ensures Step(cfg, x, e).started == x.started && Step(cfg, x, e).conf.s.status == Canceled
  {
    match e
    case Work(env) => QuietNode(cfg, x.conf.node, x.conf.s, env);
    case Deliver(i, env) =>
      if i < |x.sent| { QuietNode(cfg, x.conf.node, x.conf.s, env.(approve := x.sent[i].approve)); }
    case _ =>
  }

  lemma {:induction false} QuietLife(cfg: Config, initial: Mode, x: Session, events: seq<Event>)
    requires SessionInv(cfg, initial, x) && x.conf.s.status == Canceled
    ensures var r := Life(cfg, x, events); r.started == x.started && r.conf.s.status == Canceled
    decreases |events|
  {
    if events != [] {
      QuietLife(cfg, initial, x, events[..|events| - 1]);
      LifeInv(cfg, initial, x, events[..|events| - 1]);
      QuietStep(cfg, initial, Life(cfg, x, events[..|events| - 1]), events[|events| - 1]);
    }
  }

  /** A rejection that takes effect cancels the task, and no tool is started ever after. */
  lemma RejectionIsFinal(cfg: Config, initial: Mode, x: Session, i: nat, env: Env, events: seq<Event>)
    requires SessionInv(cfg, initial, x) && x.suspended && i < |x.sent| && !x.sent[i].approve
    ensures var rejected := Step(cfg, x, Deliver(i, env));
            && rejected.conf.s.status == Canceled && rejected.conf.s.pending == [] && rejected.conf.node == FinisherNode
            && Life(cfg, rejected, events).started == x.started
            && Life(cfg, rejected, events).conf.s.status == Canceled
  {
    SessionNext(cfg, initial, x, Deliver(i, env));
    RejectedState(cfg, x.conf, env.(approve := false));
    QuietLife(cfg, initial, Step(cfg, x, Deliver(i, env)), events);
  }

  lemma RejectedState(cfg: Config, c: Conf, env: Env)
    requires StopsAtGate(c) && !env.approve
    ensures var r := Next(cfg, c, env); r.s.status == Canceled && r.s.pending == [] && r.node == FinisherNode
  {
  }

  // ---------- no decision, no progress ----------

  /** A task that hangs at the gate, or has just arrived there, starts no tool until a decision takes effect. */
  lemma {:induction false} GateHolds(cfg: Config, x: Session, events: seq<Event>)
    requires StopsAtGate(x.conf)
    requires forall i :: 0 <= i < |events| ==> !events[i].Deliver?
    ensures var r := Life(cfg, x, events); r.conf == x.conf && r.started == x.started && r.verdicts == x.verdicts
    decreases |events|
  {
    if events != [] {
      GateHolds(cfg, x, events[..|events| - 1]);
    }
  }

  // ---------- a decision that comes late ----------

  const BUSY := BusyEnv(2)

  /** Two decisions for the same round: the first opens it, the second arrives when the next round hangs. */
  function LateApproval(): (events: seq<Event>) {
    [Work(BUSY), Work(BUSY), Ask(true), Ask(true), Deliver(0, BUSY)] +
    [Work(BUSY), Work(BUSY), Work(BUSY), Work(BUSY), Work(BUSY), Deliver(1, BUSY)]
  }

  lemma BusyWork(cfg: Config, x: Session, k: nat, r: nat)
    requires x.active && r < 5 && BusyStage(x.conf, k, r, 2) && k < 2 && k < x.conf.s.maxSteps && !StopsAtGate(x.conf)
    ensures var x' := Step(cfg, x, Work(BUSY));
            && (if r < 4 then BusyStage(x'.conf, k, r + 1, 2) else BusyStage(x'.conf, k + 1, 0, 2))
            && x'.active && x'.sent == x.sent && x'.verdicts == x.verdicts && SameTask(x.conf.s, x'.conf.s)
  {
    BusyNext(cfg, x.conf, k, r, 2);
  }

  /** The gate suspends; two requests are accepted for the round; the first to arrive opens it. */
  lemma AskedTwice(cfg: Config, x: Session)
    requires x.active && BusyStage(x.conf, 0, 1, 2) && x.conf.s.requireApproval && x.conf.s.maxSteps > 0
    requires x.sent == [] && x.verdicts == []
    ensures var r := Step(cfg, Step(cfg, Step(cfg, Step(cfg, x, Work(BUSY)), Ask(true)), Ask(true)), Deliver(0, BUSY));
            var d := Decision(RoundOf(x.conf.s), true, 0);
            && r.active && BusyStage(r.conf, 0, 2, 2) && SameTask(x.conf.s, r.conf.s)
            && r.sent == [d, d] && r.verdicts == [Verdict(RoundOf(x.conf.s), d, 0)]
  {
    BusyNext(cfg, x.conf, 0, 1, 2);
    assert BUSY.(approve := true) == BUSY;
  }

  /** At the next round the gate suspends again, and the second request opens it. */
  lemma SecondArrives(cfg: Config, x: Session, d: Decision)
    requires x.active && BusyStage(x.conf, 1, 1, 2) && x.conf.s.requireApproval && x.conf.s.maxSteps > 1
    requires x.sent == [d, d] && d.approve && |x.verdicts| == 1
    ensures var r := Step(cfg, Step(cfg, x, Work(BUSY)), Deliver(1, BUSY));
            && r.conf.node == ToolNode && r.verdicts == x.verdicts + [Verdict(RoundOf(x.conf.s), d, 1)]
  {
    BusyNext(cfg, x.conf, 1, 1, 2);
    assert BUSY.(approve := true) == BUSY;
  }

  /** The session after the first five events of the late approval, in the middle of the first round. */
  lemma FirstOpened(cfg: Config, x: Session)
    requires x.active && BusyStage(x.conf, 0, 0, 2) && x.conf.s.requireApproval && x.conf.s.maxSteps > 1
    requires x.sent == [] && x.verdicts == []
    ensures var r := Life(cfg, x, [Work(BUSY), Work(BUSY), Ask(true), Ask(true), Deliver(0, BUSY)]);
            && r.active && BusyStage(r.conf, 0, 2, 2) && r.conf.s.requireApproval && r.conf.s.maxSteps > 1
            && |r.verdicts| == 1 && exists d :: r.sent == [d, d] && d.approve && d.stamp == 0
  {
    hide Step;
    var w, a := Work(BUSY), Ask(true);
    BusyWork(cfg, x, 0, 0);
    AskedTwice(cfg, Step(cfg, x, w));
    LifeSnoc(cfg, x, [], w);
    assert [] + [w] == [w];
    LifeSnoc(cfg, x, [w], w);
    LifeSnoc(cfg, x, [w] + [w], a);
    LifeSnoc(cfg, x, [w] + [w] + [a], a);
    LifeSnoc(cfg, x, [w] + [w] + [a] + [a], Deliver(0, BUSY));
    assert [w, w, a, a, Deliver(0, BUSY)] == [w] + [w] + [a] + [a] + [Deliver(0, BUSY)];
  }

  lemma NextRoundHangs(cfg: Config, x: Session)
    requires x.active && BusyStage(x.conf, 0, 2, 2) && x.conf.s.requireApproval && x.conf.s.maxSteps > 1
    ensures var w := Work(BUSY);
            var r := Step(cfg, Step(cfg, Step(cfg, Step(cfg, x, w), w), w), w);
            && r.active && BusyStage(r.conf, 1, 1, 2) && r.conf.s.requireApproval && r.conf.s.maxSteps > 1
            && r.sent == x.sent && r.verdicts == x.verdicts
  {
    hide Step;
    var w := Work(BUSY);
    var x1 := Step(cfg, x, w);
    BusyWork(cfg, x, 0, 2);
    var x2 := Step(cfg, x1, w);
    BusyWork(cfg, x1, 0, 3);
    var x3 := Step(cfg, x2, w);
    BusyWork(cfg, x2, 0, 4);
    BusyWork(cfg, x3, 1, 0);
  }

  /** So the tools of a round can be started by an approval that was given for the round before. */
  lemma LateApprovalOpensNextRound(cfg: Config, goal: string, maxTokens: int, maxSteps: int)
    requires maxTokens > 0 && maxSteps > 1
    ensures var x := Life(cfg, Fresh(goal, React, maxTokens, maxSteps, true), LateApproval());
            && x.conf.node == ToolNode && |x.verdicts| == 2 && x.verdicts[1].decision.approve
            && x.verdicts[1].decision.round != x.verdicts[1].hung
  {
    hide Step;
    var x := Fresh(goal, React, maxTokens, maxSteps, true);
    var w, last := Work(BUSY), Deliver(1, BUSY);
    var e := [w, w, Ask(true), Ask(true), Deliver(0, BUSY)];
    FirstOpened(cfg, x);
    var mid := Life(cfg, x, e);
    var d :| mid.sent == [d, d] && d.approve && d.stamp == 0;
    NextRoundHangs(cfg, mid);
    SecondArrives(cfg, Step(cfg, Step(cfg, Step(cfg, Step(cfg, mid, w), w), w), w), d);
    LifeSnoc(cfg, x, e, w);
    LifeSnoc(cfg, x, e + [w], w);
    LifeSnoc(cfg, x, e + [w] + [w], w);
    LifeSnoc(cfg, x, e + [w] + [w] + [w], w);
    LifeSnoc(cfg, x, e + [w] + [w] + [w] + [w], w);
    LifeSnoc(cfg, x, e + [w] + [w] + [w] + [w] + [w], last);
    assert LateApproval() == e + [w] + [w] + [w] + [w] + [w] + [last];
    var r := Life(cfg, x, LateApproval());
    assert r.verdicts[1] in r.verdicts;
    DecisionHitsItsRoundExactlyWhen(cfg, goal, React, maxTokens, maxSteps, true, LateApproval(), r.verdicts[1]);
  }

  lemma LifeSnoc(cfg: Config, x: Session, events: seq<Event>, e: Event)
    ensures Life(cfg, x, events + [e]) == Step(cfg, Life(cfg, x, events), e)
  {
    assert (events + [e])[..|events|] == events;
  }
}
