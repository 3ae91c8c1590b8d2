/**
 The agent's state machine: seven nodes, the routes between them and whole runs
 (app/graph/nodes.py, wired in app/graph/engine.py `_build`; app/core/budget.py).

 Everything that comes from outside a node (model replies, tool outcomes, cancel flags, human decisions,
 the interleaving of parallel calls) is an arbitrary `Env` given to that node's execution.
 */
module Agent {
  import opened Basics
  import opened PlanDag
  import opened Replanning
  import opened Messages
  import opened ToolRound

  datatype Mode = React | PlanExecute
  datatype Status = Running | Succeeded | Failed | Canceled | BudgetExceeded
  datatype ErrorKind = NoError | Retryable | PlanDefect | Fatal

  datatype State = State(
    goal: string, mode: Mode, messages: seq<Message>, plan: Plan, currentStep: nat,
    defectStreak: nat, modeSwitches: nat, keyOutputs: KeyOutputs,
    iterations: nat, stepsUsed: nat, tokensUsed: nat, maxSteps: int, maxTokens: int, downgraded: bool,
    status: Status, lastError: string, errorKind: ErrorKind,
    pending: seq<Call>, observations: seq<Observation>, needsFinal: bool, finalAnswer: string,
    selfhealTotal: nat, requireApproval: bool)

  function InitState(goal: string, mode: Mode, maxTokens: int, maxSteps: int, requireApproval: bool): (s: State) {
    State(goal, mode, [], [], 0, 0, 0, [], 0, 0, 0, maxSteps, maxTokens, false, Running, "", NoError,
          [], [], false, "", 0, requireApproval)
  }

  /** The settings that the nodes consult. */
  datatype Config = Config(
    hasCheapModel: bool, downgradeAfterReplans: int, maxModeSwitches: int, keyLimits: string -> Option<nat>)

  datatype Reply = Reply(text: string, calls: seq<Call>, tokens: nat)

  datatype Env = Env(
    canceled: bool,
    planItems: seq<RawStep>, planTokens: nat,
    reply: Reply,
    approve: bool,
    outcomes: seq<CallOutcome>, schedule: seq<Section>,
    compress: bool, summary: string, summaryTokens: nat,
    finalText: string, finalTokens: nat)

  /** What a node did to the outside world; kept as the history of a run. */
  datatype Effect =
    | PlanCall(tokens: nat)
    | DecisionCall(sent: seq<Message>, tokensBefore: nat, tokens: nat)
    | ToolRun(round: nat, calls: seq<Call>)
    | RepairCall(tokens: nat, charged: bool)
    | Delegated(tokens: nat, charged: bool)
    | SummaryCall(tokens: nat)
    | FinalCall(tokens: nat)

  type Log = seq<Effect>

  // ---------- budget (app/core/budget.py) ----------

  datatype BudgetDecision = WithinBudget | Downgrade | Exceeded

  function CheckBudget(s: State, hasCheapModel: bool): (d: BudgetDecision)
    ensures d.WithinBudget? ==> s.stepsUsed < s.maxSteps && s.tokensUsed < s.maxTokens
    ensures d.Downgrade? ==> s.stepsUsed < s.maxSteps && s.tokensUsed >= s.maxTokens && hasCheapModel && !s.downgraded
    ensures s.stepsUsed >= s.maxSteps ==> d.Exceeded?
  {
    if s.stepsUsed >= s.maxSteps then Exceeded
    else if s.tokensUsed >= s.maxTokens then (if hasCheapModel && !s.downgraded then Downgrade else Exceeded)
    else WithinBudget
  }

  // ---------- planner ----------

  function NewSteps(s: State, env: Env): (steps: Plan)
    ensures steps != []
  {
    var steps := ParseFrom(env.planItems, []);
    if steps == [] then [PlanStep("s1", s.goal, Pending, "", None)] else steps
  }

  predicate IsReplan(s: State) {
    s.lastError != ""
  }

  function NewPlan(s: State, env: Env): (plan: Plan)
    ensures plan != []
  {
    if IsReplan(s) then Merge(s.plan, NewSteps(s, env)) else NewSteps(s, env)
  }

  predicate Upgrades(cfg: Config, s: State) {
    IsReplan(s) && s.mode == React && s.modeSwitches < cfg.maxModeSwitches
  }

  /** The state with a new plan in place. */
  function Planned(cfg: Config, s: State, plan: Plan, tokens: nat): (r: State) {
    var planned := s.(plan := plan, currentStep := StartBatch(plan), tokensUsed := s.tokensUsed + tokens,
                      lastError := "", errorKind := NoError);
    if Upgrades(cfg, s) then planned.(mode := PlanExecute, modeSwitches := s.modeSwitches + 1) else planned
  }

  function Planner(cfg: Config, s: State, env: Env): (r: State) {
    Planned(cfg, s, NewPlan(s, env), env.planTokens)
  }

  // ---------- decision step ----------

  /** The list sent to the model: fresh prompts in front of the stored history. */
  function Assembled(s: State): (ms: seq<Message>) {
    [System("react"), User(s.goal)] + s.messages
  }

  predicate PlanFinished(s: State) {
    s.mode == PlanExecute && s.plan != [] && s.currentStep >= |SafeLayers(s.plan)|
  }

  function Decided(s: State, reply: Reply, downgraded: bool): (r: State) {
    var next := s.(messages := s.messages + [Assistant(reply.text, reply.calls)], pending := reply.calls,
                   tokensUsed := s.tokensUsed + reply.tokens, stepsUsed := s.stepsUsed + 1,
                   iterations := s.iterations + 1, errorKind := NoError, downgraded := downgraded);
    if reply.calls != [] then next else next.(needsFinal := true, finalAnswer := reply.text)
  }

  /** Does the decision step ask the model? */
  predicate AsksModel(cfg: Config, s: State, env: Env) {
    !env.canceled && !CheckBudget(s, cfg.hasCheapModel).Exceeded? && !PlanFinished(s)
  }

  function ReactStep(cfg: Config, s: State, env: Env): (r: State) {
    if env.canceled then s.(status := Canceled, needsFinal := true, finalAnswer := "canceled")
    else
      var decision := CheckBudget(s, cfg.hasCheapModel);
      if decision.Exceeded? then
        s.(status := BudgetExceeded, needsFinal := true, lastError := "budget", errorKind := NoError)
      else if PlanFinished(s) then s.(needsFinal := true)
      else Decided(s, env.reply, s.downgraded || decision.Downgrade?)
  }

  // ---------- approval gate ----------

  function Gate(s: State, approve: bool): (r: State) {
    if !s.requireApproval then s
    else if approve then s
    else s.(status := Canceled, lastError := "rejected", pending := [], finalAnswer := "rejected")
  }

  // ---------- tool executor ----------

  /** Are the pending calls carried out? */
  predicate RunsTools(s: State, env: Env) {
    s.pending != [] && !env.canceled
  }

  function RoundTotals(cfg: Config, s: State, env: Env): (t: Totals) {
    RunSections(cfg.keyLimits, s.pending, env.outcomes, Totals(s.tokensUsed, 0, s.keyOutputs),
                Interleaving(env.schedule, |s.pending|))
  }

  /** The state after a round with the given totals and observations. */
  function RoundDone(s: State, totals: Totals, observations: seq<Observation>): (r: State)
    requires |observations| == |s.pending|
  {
    s.(messages := s.messages + AnswersOf(s.pending, observations), pending := [], observations := observations,
       keyOutputs := Prune(totals.keyOutputs), selfhealTotal := s.selfhealTotal + totals.selfheals,
       tokensUsed := totals.tokens)
  }

  function ToolExecutor(cfg: Config, s: State, env: Env): (r: State) {
    if s.pending == [] then s.(observations := [])
    else if env.canceled then
      s.(status := Canceled, needsFinal := true, finalAnswer := "canceled", pending := [], observations := [])
    else RoundDone(s, RoundTotals(cfg, s, env), Observations(s.pending, env.outcomes))
  }

  function RepairEffects(repairs: seq<nat>, charged: bool): (log: Log) {
    seq(|repairs|, i requires 0 <= i < |repairs| => RepairCall(repairs[i], charged))
  }

  function CallEffects(o: CallOutcome): (log: Log) {
    RepairEffects(Repairs(o), o.Aborted? ==> o.charged) + [Delegated(DelegatedTokens(o), !o.Aborted?)]
  }

  /** The model calls and delegated work of the first `n` calls of a round. */
  function RoundEffects(outcomes: seq<CallOutcome>, n: nat): (log: Log) {
    if n == 0 then [] else RoundEffects(outcomes, n - 1) + CallEffects(OutcomeAt(outcomes, n - 1))
  }

  // ---------- critic ----------

  function FailedOf(observations: seq<Observation>): (r: seq<Observation>)
    ensures forall o :: o in r ==> o.Failure?
  {
    if observations == [] then []
    else if observations[0].Failure? then [observations[0]] + FailedOf(observations[1..])
    else FailedOf(observations[1..])
  }

  function Join(parts: seq<string>): (r: string) {
    if parts == [] then "" else if |parts| == 1 then parts[0] else parts[0] + "; " + Join(parts[1..])
  }

  function ErrorsOf(failed: seq<Observation>): (r: string)
    requires forall o :: o in failed ==> o.Failure?
  {
    Join(seq(|failed|, i requires 0 <= i < |failed| => assert failed[i] in failed; Take(failed[i].error, 200)))
  }

  function SummaryParts(observations: seq<Observation>): (parts: seq<string>)
    ensures |parts| == |observations|
  {
    seq(|observations|, i requires 0 <= i < |observations| =>
      if observations[i].Success? then Take(observations[i].result.summary, 200) else "")
  }

  /** Used for rounds in which every call succeeded. */
  function SummariesOf(observations: seq<Observation>): (r: string) {
    Take(Join(SummaryParts(observations)), 400)
  }

  /** Codes decide first; the text only when no failure carries a code. */
  function Classify(failed: seq<Observation>): (kind: ErrorKind)
    requires forall o :: o in failed ==> o.Failure?
  {
    var codes := set o | o in failed && o.code.Some? :: o.code.value;
    var errors := ErrorsOf(failed);
    if InvalidArgs in codes || NotFound in codes then PlanDefect
    else if Permission in codes || Auth in codes then Fatal
    else if codes != {} then Retryable
    else if Contains(errors, "未知工具") then PlanDefect
    else if exists o :: o in failed && o.errorType == Validation then PlanDefect
    else if LooksTransient(errors) then Retryable
    else if Contains(errors, "越界") || Contains(errors, "Permission") then Fatal
    else if Contains(errors, "禁止") || Contains(errors, "路径") then Fatal
    else Retryable
  }

  /** A round without failures: in plan mode the current batch is done; the batch counter moves on. */
  function Advance(s: State): (r: State) {
    var layers := SafeLayers(s.plan);
    var plan := if s.plan != [] && s.mode == PlanExecute && s.observations != [] && s.currentStep < |layers|
                then MarkBatch(s.plan, layers[s.currentStep], SummariesOf(s.observations)) else s.plan;
    s.(errorKind := NoError, lastError := "", plan := plan, currentStep := s.currentStep + 1, defectStreak := 0)
  }

  function OnDefect(cfg: Config, s: State): (r: State) {
    var streak := s.defectStreak + 1;
    if s.mode == PlanExecute && 0 < cfg.downgradeAfterReplans <= streak then
      if s.modeSwitches + 1 > cfg.maxModeSwitches then s.(status := Failed, needsFinal := true)
      else s.(mode := React, plan := DoneSteps(s.plan), currentStep := 0, defectStreak := 0,
              modeSwitches := s.modeSwitches + 1, errorKind := Retryable)
    else s.(defectStreak := streak)
  }

  function Critic(cfg: Config, s: State): (r: State) {
    if s.status != Running then s
    else
      var failed := FailedOf(s.observations);
      if failed == [] then Advance(s)
      else
        var kind := Classify(failed);
        var noted := s.(errorKind := kind, lastError := ErrorsOf(failed));
        match kind
        case Fatal => noted.(status := Failed, needsFinal := true)
        case Retryable => if s.iterations >= s.maxSteps then noted.(status := Failed, needsFinal := true) else noted
        case PlanDefect => OnDefect(cfg, noted)
        case NoError => noted
  }

  // ---------- compressor and finisher ----------

  predicate Compresses(s: State, env: Env) {
    env.compress && Compressed(s.messages, env.summary).Some?
  }

  function Compressor(s: State, env: Env): (r: State) {
    if Compresses(s, env)
    then s.(messages := Compressed(s.messages, env.summary).value, tokensUsed := s.tokensUsed + env.summaryTokens)
    else s
  }

  /** Does the finisher ask the model for a summary? */
  predicate Summarises(s: State) {
    (s.status == Running || s.status == Succeeded) &&
    !(s.needsFinal && s.finalAnswer != "" && s.mode != PlanExecute)
  }

  function Finisher(s: State, env: Env): (r: State) {
    match s.status
    case Canceled => s.(finalAnswer := if s.finalAnswer != "" then s.finalAnswer else "canceled")
    case Failed => s.(finalAnswer := s.lastError)
    case BudgetExceeded => s.(finalAnswer := s.lastError)
    case _ =>
      if Summarises(s)
      then s.(finalAnswer := env.finalText, status := Succeeded, tokensUsed := s.tokensUsed + env.finalTokens)
      else s.(status := Succeeded)
  }

  // ---------- wiring ----------

  datatype Node = PlannerNode | ReactNode | GateNode | ToolNode | CriticNode | CompressorNode | FinisherNode | End

  /** `fellBack` remembers whether a stored plan ever had to be run one step at a time. */
  datatype Conf = Conf(node: Node, s: State, log: Log, fellBack: bool)

  function RouteEntry(s: State): (n: Node) {
    if s.mode == PlanExecute then PlannerNode else ReactNode
  }

  function RouteAfterStep(s: State): (n: Node) {
    if s.status != Running || s.needsFinal then FinisherNode else GateNode
  }

  function RouteAfterGate(s: State): (n: Node) {
    if s.status != Running then FinisherNode else ToolNode
  }

  function RouteAfterCritic(s: State): (n: Node) {
    if s.status != Running then FinisherNode
    else if s.errorKind == PlanDefect then PlannerNode
    else CompressorNode
  }

  function Start(s: State): (c: Conf) {
    Conf(RouteEntry(s), s, [], false)
  }

  /** The state after executing a node. */
  function NodeState(cfg: Config, node: Node, s: State, env: Env): (r: State) {
    match node
    case PlannerNode => Planner(cfg, s, env)
    case ReactNode => ReactStep(cfg, s, env)
    case GateNode => Gate(s, env.approve)
    case ToolNode => ToolExecutor(cfg, s, env)
    case CriticNode => Critic(cfg, s)
    case CompressorNode => Compressor(s, env)
    case FinisherNode => Finisher(s, env)
    case End => s
  }

  /** What executing a node does to the outside world. */
  function NodeEffects(cfg: Config, node: Node, s: State, env: Env): (log: Log) {
    match node
    case PlannerNode => [PlanCall(env.planTokens)]
    case ReactNode =>
      if AsksModel(cfg, s, env) then [DecisionCall(Assembled(s), s.tokensUsed, env.reply.tokens)] else []
    case ToolNode =>
      if RunsTools(s, env)
      then [ToolRun(s.iterations, s.pending)] + RoundEffects(env.outcomes, |s.pending|) else []
    case CompressorNode => if Compresses(s, env) then [SummaryCall(env.summaryTokens)] else []
    case FinisherNode => if Summarises(s) then [FinalCall(env.finalTokens)] else []
    case _ => []
  }

  /** The edges of the graph. */
  function Route(node: Node, s: State): (n: Node) {
    match node
    case PlannerNode => ReactNode
    case ReactNode => RouteAfterStep(s)
    case GateNode => RouteAfterGate(s)
    case ToolNode => CriticNode
    case CriticNode => RouteAfterCritic(s)
    case CompressorNode => ReactNode
    case FinisherNode => End
    case End => End
  }

  /** One node execution and the route taken after it. */
  function Next(cfg: Config, c: Conf, env: Env): (r: Conf) {
    var s := NodeState(cfg, c.node, c.s, env);
    Conf(Route(c.node, s), s, c.log + NodeEffects(cfg, c.node, c.s, env),
         c.fellBack || (c.node == PlannerNode && PlanLayers(s.plan).None?))
  }

  /** The configuration after executing one node per element of `envs` (none once the run has ended). */
  function Run(cfg: Config, c: Conf, envs: seq<Env>): (r: Conf)
    decreases |envs|
  {
    if envs == [] then c else Next(cfg, Run(cfg, c, envs[..|envs| - 1]), envs[|envs| - 1])
  }
}
