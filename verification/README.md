# Verified model of the agent execution kernel

The repository runs tasks for users with a language model: a planner splits the goal into steps, a graph of seven nodes
alternates between asking the model and running tools, and a handful of small concurrent protocols keep several
workers, restarts and humans from stepping on each other. This project models that kernel and those protocols in
Dafny and proves what they promise, for every input, every run and every interleaving.

| module | what it models |
|---|---|
| `Graphs`, `PlanDag` | dependency graphs, batches of a plan, the fallback ladder, progress of the critic |
| `Replanning`, `FallbackReplan` | merging finished steps with a new plan; a run in which that fails |
| `Messages` | chat histories, pairing of tool calls with their answers, compression |
| `ToolCalls` | one tool call: validation, repair of arguments by the model, retries with back-off |
| `Journal` | the table that keeps tool calls from being executed twice, with any number of workers and crashes |
| `ToolRound` | one round of parallel tool calls, its totals, its replay |
| `Agent` | the seven nodes, their routes and a run as a fold over arbitrary inputs |
| `AgentRuns`, `TokenLedger`, `Termination`, `RunOutcomes`, `Approval` | what holds in all runs, and how they end |
| `Quotas`, `RateLimiting`, `RateWindows` | admission of submissions and requests |
| `MigrationLease`, `TaskQueue`, `EventNumbering` | coordination between processes, executions and engine lifetimes |

How to read it. In `Agent` one `Env` carries everything the outside world may do during one node: the plan and replies
of the model, the outcome of every tool call and the order in which parallel calls finish, the cancel flag, the
human decision. `Next` executes one node, `Run` folds it over a list of `Env`s, and the log in a configuration records
every model and tool call. The protocols have the same shape: a total `Next` over small atomic steps (database round
trips, clock readings, crashes) in which impossible events change nothing, so that a list of events is an
interleaving and a statement about all lists is one about all interleavings. Code that the source writes as loops or
as objects that change is written as methods and classes here and proved against the functions that the theorems
are about.

Where the code does not do what its documentation says, the model follows the code:

- The step limit of the graph is meant never to cut a task short; it can, from 22 steps (23 without initial planning)
  on, which includes the default of 24 (`Termination.LimitSufficesExactlyWhen`).
- A completed journal row is documented as never overwritten. Completion reads the row and writes it in a second
  round trip, and only the columns that differ from the placeholder it read. A row keeps its contents in every
  continuation exactly when the database detects lost updates or no completion that still takes the row for a placeholder
  would change it (`Journal.CompletedRowsStayExactlyWhen`). Otherwise a second success replaces the outcome, and a
  second failure leaves a row that mixes the first result with the second error (`Journal.TakeoverCanOverwrite`).
- Daily quotas are documented as never over-issuing. A submission inserted before midnight and judged after it escapes
  the count: the excess over a limit is at most the number of such submissions (`Quotas.QuotasHoldUpToCrossers`), and
  one of them is enough to exceed any limit (`Quotas.OneCrosserExceedsAnyLimit`).
- A coroutine that raises after a sub-task has spent tokens loses them; one that raises before its repair calls are
  added loses those (`TokenLedger.TokensConserved`, `TokenLedger.AnyAmountCanBeLost`).
- A reader who follows a task's events by their numbers can miss one: exactly when an event with a smaller number was
  still in flight when the reader looked (`EventNumbering.WatermarkHidesNothingExactlyWhen`).
- The shared request limiter keeps its limits exactly as long as no window is overtaken by the first hit of a later
  one (`RateWindows.LimitsHoldUnlessOvertaken`).
- A failure replayed from the journal has lost its error code (`ToolRound.ReplayShowsTheSame`).
- Replanning assumes that finished steps wait for finished steps only. That is an invariant as long as no stored plan
  fell back to one step at a time (`AgentRuns.ReachableLegal`). Whatever the old plan was, acceptable new steps are run as
  declared if the finished steps alone are a legal plan (`Replanning.LegalDoneSuffices`), and only then unless a
  dangling reference of a finished step happens to be the id that a new step gets (`Replanning.MergedLegalExactlyWhen`,
  `Replanning.CapturedReferenceIsRepaired`). A run reaches a state in which every replan falls back
  (`FallbackReplan.FallbackCanRepeat`).
- An approval does not name the round it is given for. It opens that round exactly when no other decision took effect in
  between (`Approval.DecisionHitsItsRoundExactlyWhen`); a second approval that arrives late opens the next round
  (`Approval.LateApprovalOpensNextRound`).
- Cancelling a task whose execution waits for a slot reports success and is then forgotten
  (`TaskQueue.CancelHoldsExactlyOnceBegun`).
- Shutdown waits for a live execution exactly when it was spawned before shutdown collected the running ones
  (`TaskQueue.ShutdownDrainsExactly`); a later resume of a task without a live execution escapes it
  (`TaskQueue.LateResumeEscapes`).

## Model

| member | source | states |
|---|---|---|
| Graphs.KahnLayers | app/graph/nodes.py:192-202 | when the layering loop finishes, its layers hold every step exactly once, in declaration order, and each step sits at layer 0 or one above its highest dependency |
| Graphs.StuckMeansCycle | app/graph/nodes.py:192-202 | a round that finds nothing ready although steps are left proves a dependency cycle |
| Graphs.KahnDecidesAcyclicity | app/graph/nodes.py:192-202 | layers are produced if and only if the dependency graph has no cycle |
| Graphs.LayeringUnique | app/graph/nodes.py:192-202 | no second layering with these properties exists |
| PlanDag.ParsePlanSteps | app/graph/nodes.py:128-159 | normalising the planner's output yields one pending step for each item with a description, in order, with the given id and dependencies or the id of its position |
| PlanDag.ParseKeepsPending | app/graph/nodes.py:128-159 | normalising never loses a step already collected and never adds more than one per item |
| PlanDag.IndexIds | app/graph/nodes.py:169-175 | the id table exists exactly when ids are unique, and is then the inverse of the steps' ids |
| PlanDag.ResolveRefs | app/graph/nodes.py:182-186 | references resolve exactly when every one names a step, and then to those steps |
| PlanDag.ResolveDeps | app/graph/nodes.py:176-191 | dependency sets exist exactly when no reference dangles and no step names itself; steps without the key wait for their predecessor |
| PlanDag.LayerGraph | app/graph/nodes.py:192-202 | the loop that grows the set of placed steps computes the specified layering and gives up exactly when that has none |
| PlanDag.ComputePlanLayers | app/graph/nodes.py:162-202 | the whole of `_plan_layers`: layers if and only if ids are unique, references exist and there is no cycle |
| PlanDag.PlanLayersCharacterised | app/graph/nodes.py:162-202 | the same equivalence for the specification, with uniqueness of the result |
| PlanDag.ChainLayers | app/graph/nodes.py:205-227 | a plan without dependency keys is run one step per batch |
| PlanDag.FallbackIsSequential | app/graph/nodes.py:210-227 | both fallbacks are the same: one step per batch in declaration order |
| PlanDag.SafeLayersPartition | app/graph/nodes.py:210-227 | for any plan whatsoever the batches hold every step exactly once |
| PlanDag.PrerequisitesComeFirst | app/graph/nodes.py:210-227 | what a step waits for (its dependencies, or all earlier steps under fallback) lies in earlier batches |
| PlanDag.SameShapeSameLayers | app/graph/nodes.py:880-910 | statuses and results do not influence the batches, so recomputing them during a run is harmless |
| PlanDag.CompleteBatch | app/graph/nodes.py:880-910 | the critic's loop marks exactly the pending steps of the batch done with the round's summary, changes nothing else, and announces each of them once, in order |
| PlanDag.MarkBatchAdvances | app/graph/nodes.py:880-910 | completing the current batch keeps the batches and leaves every batch up to it done |
| PlanDag.StartBatchSound | app/graph/nodes.py:382-384 | before the batch the planner starts at, everything is done |
| PlanDag.StartBatchExactly | app/graph/nodes.py:382-384 | the planner starts at the first batch that holds a pending step, and past the last batch if and only if every step is done |
| PlanDag.FinishedMeansAllDone | app/graph/nodes.py:470-472 | when the batch counter has passed the last batch every step is done |
| Replanning.StepIdRoundTrip | app/graph/nodes.py:360-366 | a generated step id is recognised again with its number |
| Replanning.RewriteSteps | app/graph/nodes.py:355-376 | the loop that renumbers new steps and rewrites their references yields the specified merged plan |
| Replanning.MergedUnique | app/graph/nodes.py:355-376 | ids of finished and renumbered steps never collide |
| Replanning.HighestIsAttained | app/graph/nodes.py:360-364 | the number that renumbering goes on from is in use, or zero when no step is numbered |
| Replanning.NewStepsNumberedOn | app/graph/nodes.py:365-376 | new steps are numbered on from it and keep their description, status and result |
| Replanning.DoneEdgesKept | app/graph/nodes.py:355-376 | finished steps keep exactly their dependencies |
| Replanning.NewEdgeKept | app/graph/nodes.py:366-376 | new steps depend on each other exactly as the planner declared |
| Replanning.RootsHangBehindDone | app/graph/nodes.py:367-376 | a new step declared without dependencies waits for the last finished step |
| Replanning.ReplanPreserves | app/graph/nodes.py:355-376 | from a legal plan with closed finished steps and acceptable new steps: distinct ids, finished steps unchanged in front, all edges among finished, among new and from new to finished steps kept, accepted without fallback |
| Replanning.MergeKeepsClosure | app/graph/nodes.py:355-376 | after merging, finished steps again wait for finished steps only |
| Replanning.DonePartLegal | app/graph/nodes.py:930-965 | the finished part that a downgrade keeps is itself a legal plan |
| Replanning.NewToDoneEdge | app/graph/nodes.py:366-376 | a new step waits for a finished one exactly when it named it and no new step carries the same id, or when it hangs behind the last finished step |
| Replanning.LegalDoneSuffices | app/graph/nodes.py:355-376 | whatever the old plan was, acceptable new steps are run as declared if the finished steps alone are a legal plan |
| Replanning.MergedLegalExactlyWhen | app/graph/nodes.py:355-376 | and only then, unless a dangling reference of a finished step is the id that a new step is about to get |
| Replanning.CapturedReferenceIsRepaired | app/graph/nodes.py:360-376 | the input with such a reference: the finished steps alone are illegal, the merged plan is legal |
| Replanning.OpenDoneSetIsRejected | app/graph/nodes.py:355-376 | a finished step that names an unfinished one makes every merged plan illegal |
| FallbackReplan.FallbackCanRepeat | app/graph/nodes.py:210-227 | a run of two steps that wait for each other reaches a replan that falls back whatever the planner answers |
| Messages.SplitWindow | app/core/compressor.py:55-76 | the loop that moves leading tool messages out of the window splits the history at the specified place |
| Messages.CompressMessages | app/core/compressor.py:34-76 | a well-paired list stays well paired, and the list is handed back untouched exactly when nothing is to be summarised |
| Messages.CompressionKeepsPairing | app/core/compressor.py:55-76 | compression orphans no tool message and leaves no tool call unanswered |
| Messages.CompressionKeepsWindow | app/core/compressor.py:55-76 | all system prompts and a suffix of at most the window survive; the window is shortened by tool messages only |
| Messages.PairedRound | app/graph/nodes.py:587-619 | appending an assistant message and the answers to its calls in call order keeps a list well paired |
| ToolCalls.RetryDelayHint | app/core/retry.py:41-50 | a server's waiting hint is used only when it is not negative |
| ToolCalls.BackoffDelay | app/core/retry.py:53-61 | a back-off delay never exceeds its cap |
| ToolCalls.BackoffMonotone | app/core/retry.py:53-61 | delays never shrink from one attempt to the next |
| ToolCalls.BackoffDoubles | app/core/retry.py:53-61 | the first delay is the base and every further one twice the one before, up to the cap |
| ToolCalls.HintIsFollowed | app/graph/nodes.py:808-814 | a server's hint is followed up to the cap, whatever the attempt |
| ToolCalls.NoHintBacksOff | app/graph/nodes.py:808-814 | without a usable hint the back-off delay is used |
| ToolCalls.TransienceDecidedBy | app/core/retry.py:30-38 | an explicit flag decides alone, then a known code alone, and the text only without both |
| ToolCalls.Execute | app/tools/registry.py:135-159 | a handler is reached exactly with a known tool and valid arguments, and then its reply is the outcome |
| ToolCalls.CancellableSleep | app/graph/nodes.py:260-274 | the full delay is slept unless the task is cancelled, and the flag is looked at at least every half second |
| ToolCalls.RetryTransient | app/graph/nodes.py:772-846 | only transient failures of repeatable tools are repeated, within the attempt and time limits; giving up and the time waited are exactly accounted for |
| ToolCalls.SelfHeal | app/graph/nodes.py:695-727 | repair calls are bounded and paid for, the first usable repair is the one executed |
| ToolCalls.AfterRunError | app/graph/nodes.py:728-770 | after a runtime failure the observation reports the last reply and its code, and a failure is reported only when it is not worth repeating, all attempts were made or somebody cancelled |
| ToolCalls.ExecuteCall | app/graph/nodes.py:665-770 | side effects of one call are bounded and a validation failure never reached the handler; undisturbed, transient failures within the limit followed by a success end in that success |
| Journal.KeyOfInjective | app/graph/nodes.py:80-98 | only the same call of the same round of the same task has the same key |
| Journal.OtherRoundsAreNotReplayed | app/graph/nodes.py:80-98 | whatever other calls and rounds have completed, the first attempt at a call of a round wins its claim and executes |
| Journal.WaitingAttemptCanFinish | app/graph/nodes.py:543-568 | whoever waits for a dead claimant can take over, execute and complete the row |
| Journal.WaitingAttemptSeesCompletion | app/graph/nodes.py:650-663 | whoever polls a completed row hands out its result |
| Journal.DecodeEncode | app/storage/repository.py:646-653 | storing and reading back a result loses nothing but a failure's error code |
| Journal.ToolJournal.TryClaim | app/storage/repository.py:590-620 | the claim is won exactly when no row exists; otherwise a finished result or nothing is handed back |
| Journal.ToolJournal.Get | app/storage/repository.py:575-588 | only a completed row is handed out, never a placeholder |
| Journal.ToolJournal.Complete | app/storage/repository.py:622-664 | uninterrupted, a completion fills a placeholder or a missing row and leaves a finished row alone |
| Journal.ClaimsAndExecutionsBounded | app/graph/nodes.py:528-568 | over all interleavings: one claim per key wins at most, and executions are at most one plus the take-overs |
| Journal.CompletedRowsStayExactlyWhen | app/storage/repository.py:622-664 | a completed row keeps its columns, or what a replay hands out, in every continuation if and only if the database detects lost updates or no completion that took it for a placeholder would change it |
| Journal.UntakenRowsAreProtected | app/storage/repository.py:622-664 | that condition holds whenever nobody took the call over |
| Journal.TakeoverCanOverwrite | app/storage/repository.py:641-655 | the interleaving in which it fails: a second success replaces the outcome, a second failure leaves the first result with the second error |
| Journal.LateAttemptsReplay | app/graph/nodes.py:534-568 | an attempt that starts after completion never executes, and hands out the stored outcome if the row is protected, take-overs included |
| Journal.LateAttemptsShowExactlyWhen | app/graph/nodes.py:534-568 | it hands out the stored outcome in every continuation if and only if the row is protected |
| Journal.ReplaysAreCommittedResults | app/graph/nodes.py:650-663 | whatever is replayed is an outcome that some execution committed, never a placeholder |
| ToolRound.PruneKeepsLongestTail | app/graph/nodes.py:69-77 | pruning keeps the longest run of newest facts that fits both limits |
| ToolRound.PruneKeyOutputs | app/graph/nodes.py:69-77 | the cut-then-pop loop computes that tail |
| ToolRound.EstimateLaws | app/core/llm.py:38-47 | the token estimate grows with the text, counts a wide character as one token and four others as one |
| ToolRound.SectionFactSays | app/tools/registry.py:161-168 | a settled call adds a fact exactly when it is a successful call of a key tool: the summary, or else the body, cut at the tool's limit, under the tool's name and the call's id |
| ToolRound.RoundFacts | app/graph/nodes.py:570-577 | a key holds the fact that was settled last or what it held before, and keys keep their places |
| ToolRound.LastFactSays | app/graph/nodes.py:570-577 | that fact is the one of the last section to add any under the key |
| ToolRound.EveryFactIsHeld | app/graph/nodes.py:570-577 | after a round, in any order of completion, the key of every successful call of a key tool holds a call's snapshot |
| ToolRound.RunRound | app/graph/nodes.py:510-648 | a round's totals are those of its sections in completion order; before pruning every key holds the fact settled last or what it held; results and messages are in call order |
| ToolRound.Collect | app/graph/nodes.py:583-619 | every call gets its own result, or the report that its coroutine raised, and one message that names it and tells just that |
| ToolRound.RoundTokens | app/graph/nodes.py:561-581 | the tokens charged and repair calls counted by a round do not depend on how its coroutines interleave |
| ToolRound.ReplayShowsTheSame | app/storage/repository.py:771-780 | a replay shows the same message, fact and charge if and only if the call succeeded or failed without an error code |
| ToolRound.RerunRefinesExecution | app/graph/nodes.py:528-582 | after a crash, with or without a take-over, a rerun of the same call of the same round with a committed success executes nothing and shows what the execution showed |
| AgentRuns.EveryRequestIsWellPaired | app/graph/nodes.py:405-507 | every message list sent for a decision in any run is well paired |
| AgentRuns.QuietAfterEnd | app/graph/nodes.py:1027-1051 | once the status has left running, no model or tool call follows and the status is final |
| AgentRuns.ModesAndCounters | app/graph/nodes.py:347-402 | in every run mode switches respect their limit, their parity tells the mode, and steps are counted consistently |
| AgentRuns.EarlierBatchesDone | app/graph/nodes.py:880-910 | in every reachable state in plan mode every batch before the current one is done |
| AgentRuns.StepsWaitForPrerequisites | app/graph/nodes.py:880-910 | in every run a step becomes done only after everything it waits for is done |
| AgentRuns.DowngradeKeepsFinishedSteps | app/graph/nodes.py:930-965 | giving up on a plan keeps exactly its finished steps |
| AgentRuns.OnlyCriticCompletes | app/graph/engine.py:130-154 | no other node turns a step done |
| AgentRuns.PlanFinishedMeansAllDone | app/graph/nodes.py:470-472 | the exit without a decision call is taken only when every step is done |
| AgentRuns.RerunNode | app/graph/nodes.py:510-648 | running the tools node again from the journal gives the same key outputs and a charge lower by exactly the repair calls, and the same messages and observations if and only if no call had failed with an error code |
| AgentRuns.VerdictByCodes | app/graph/nodes.py:968-991 | with at least one coded failure the verdict depends on the codes alone: argument and unknown-tool codes outrank permission codes, which outrank all others |
| AgentRuns.CriticRoutesByCodes | app/graph/nodes.py:912-965 | where a round with coded failures leads: back to the planner, to react mode with the finished steps, to the end or to the next decision, and what happens to the plan |
| AgentRuns.ReachableLegal | app/graph/nodes.py:355-386 | as long as no stored plan fell back, the plan is legal and its finished steps are closed, in every reachable state |
| AgentRuns.ReplansStayLegal | app/graph/nodes.py:355-386 | in such runs a replan with acceptable steps is again run as declared |
| TokenLedger.TokensConserved | app/graph/nodes.py:561-581 | tokens charged equal tokens spent minus what raised coroutines lose (repairs not yet added, tokens of sub-tasks), and equal them when nothing is lost |
| TokenLedger.AnyAmountCanBeLost | app/graph/nodes.py:561-581 | a run in which any given number of tokens of a sub-task is spent and never charged |
| TokenLedger.OverrunOnceAtMost | app/core/budget.py:18-32 | at most one decision is asked for after the token budget is used up |
| Termination.EveryRunEnds | app/graph/engine.py:130-154 | every uninterrupted run has ended with a final status after 5 max_steps + 3 nodes, or 5 max_steps + 2 without initial planning |
| RunOutcomes.RunsEndAsCaused | app/graph/nodes.py:1027-1080 | every run ends with the status of the first cause that stopped it (cancellation seen, rejection, budget used up, round given up), and as a success if and only if there was none |
| RunOutcomes.CauseIsAStop | app/graph/nodes.py:456-475 | the cause of a run is the only step at which a running task is stopped |
| RunOutcomes.StatusNext | app/graph/nodes.py:872-965 | the status after every node: a stop where there is cause, done after the finisher, otherwise running |
| RunOutcomes.ClassifyIsVerdict | app/graph/nodes.py:968-991 | the verdict on a failed round for codes and texts alike, independent of the order of its calls and of how their errors are joined |
| RunOutcomes.FinalAnswer | app/graph/nodes.py:1027-1080 | what the user is shown for each status, and that only a success without own words asks the model |
| RunOutcomes.DirectAnswer | app/graph/nodes.py:489-507 | a reply without tool calls ends a task in react mode and is its answer |
| RunOutcomes.AskedExactlyWhen | app/graph/nodes.py:456-507 | the model is asked for a decision unless the task is cancelled, out of budget or through with its plan |
| RunOutcomes.RequestCarriesHistory | app/graph/nodes.py:405-445 | the request carries the goal and the whole stored history |
| RunOutcomes.DowngradesExactlyWhen | app/core/budget.py:18-32 | the cheaper model is turned to exactly when tokens are used up, and then kept |
| RunOutcomes.PlanningSwitchesExactlyWhen | app/graph/nodes.py:347-402 | a replan in react mode switches to plan mode while switches are left; no other planning changes the mode |
| RunOutcomes.PlanningStoresThePlan | app/graph/nodes.py:340-380 | the stored plan is the answer, merged with finished steps in a replan, or the goal as one step |
| RunOutcomes.PlanningStartsAtOpenBatch | app/graph/nodes.py:382-395 | work goes on with the first batch that holds a pending step |
| RunOutcomes.DefectsAreCounted | app/graph/nodes.py:930-965 | failed plans are counted until a round succeeds or the plan is given up |
| RunOutcomes.ToolsReport | app/graph/nodes.py:605-648 | a round leaves every call's own result, told to the model in call order, the counted repairs and the pruned facts |
| RunOutcomes.ResultsNoteSummaries | app/graph/nodes.py:890-892 | a step's result is made of the summaries of its round |
| RunOutcomes.LongHistoriesAreCompressed | app/graph/nodes.py:994-1024 | a long history is replaced by prompts, summary and window, and the summary is charged |
| Termination.BusyUntilTheBound | app/graph/engine.py:130-154 | that bound is attained |
| Termination.LimitSufficesExactlyWhen | app/graph/engine.py:275-289 | the engine's limit lets every run finish if and only if max_steps is at most 21 (22 without initial planning) |
| Approval.ToolsOnlyAfterApproval | app/graph/nodes.py:1091-1128 | through crashes, resumes and decisions, control is at the tools only for a round that hung, with these exact calls, when an approval took effect, and only such rounds were ever started |
| Approval.RejectionIsFinal | app/graph/nodes.py:1104-1122 | a rejection cancels the task and no tool is started afterwards |
| Approval.GateHolds | app/graph/engine.py:371-404 | from its arrival at the gate a task stays there and starts no tool until a decision takes effect, whatever works, dies or resumes |
| Approval.DecisionHitsItsRoundExactlyWhen | app/api/routes_tasks.py:376-411 | a decision opens or rejects the round it was made for if and only if no other decision took effect in between |
| Approval.LateApprovalOpensNextRound | app/api/routes_tasks.py:382-395 | a second approval of a round that arrives late opens the next one |
| Quotas.Submissions.CreateTask | app/api/routes_tasks.py:124-144 | alone, a submission is accepted exactly when there was room before it, and a refused one leaves the table as it was |
| Quotas.QuotasNeverOverIssue | app/api/routes_tasks.py:82-111 | for every interleaving, tasks accepted on the day of their creation never exceed the limits of tenant and platform |
| Quotas.QuotasHoldUpToCrossers | app/storage/repository.py:386-398 | for every run and day, accepted tasks created that day exceed no limit by more than the number of them judged on a later day |
| Quotas.OneCrosserExceedsAnyLimit | app/api/routes_tasks.py:92-111 | for any limits, a run that fills the day and has one submission cross midnight ends with one task too many |
| RateLimiting.SlidingWindowLimiter.Allow | app/api/ratelimit.py:62-74 | admitted exactly when fewer than limit admissions lie in the window, pruning or not; after the told wait there is room again, and not more than a second earlier |
| RateLimiting.SlidingWindowLimiter.PopExpired | app/api/ratelimit.py:65-68 | popping expired heads leaves as many hits as there are admissions in the window |
| RateLimiting.SlidingWindowLimiter.Prune | app/api/ratelimit.py:76-79 | forgetting stale keys changes no count that a later request could make |
| RateLimiting.EveryWindowHoldsAtMostLimit | app/api/ratelimit.py:62-74 | with one limit per key no window, wherever it is placed, contains more admissions than the limit |
| RateLimiting.RetryFreesOneSlot | app/api/ratelimit.py:69-70 | after the told wait the oldest counted hit has expired |
| RateWindows.DbWindowLimiter.Hit | app/storage/repository.py:418-447 | one hit counts up its window, drops the key's earlier windows when first, and returns the position it is told |
| RateWindows.DbWindowLimiter.Allow | app/api/ratelimit.py:97-111 | admitted exactly when the told position is within the limit or the database fails; the told wait leads into a later window, at most a second after its beginning |
| RateWindows.ExactUnlessOvertaken | app/storage/repository.py:418-447 | all callers are told their true position if and only if no window is overtaken by the first hit of a later one |
| RateWindows.NeverRefusesEarly | app/storage/repository.py:418-447 | in any order of arrival no caller is told more than its position |
| RateWindows.InOrderIsExact | app/storage/repository.py:418-447 | hits that arrive in window order are counted exactly |
| RateWindows.ExactAdmitsFirstLimit | app/api/ratelimit.py:97-111 | all workers together admit the first limit requests of a window and no other |
| RateWindows.AtMostTwiceTheLimit | app/api/ratelimit.py:97-111 | any interval of one window's length sees at most twice the limit |
| RateWindows.LimitsHoldUnlessOvertaken | app/api/ratelimit.py:97-111 | no window admits more than its limit, for any limit, if and only if no window is overtaken by the first hit of a later one |
| RateWindows.LateHitIsAdmittedAgain | app/storage/repository.py:441-446 | the shortest input on which it does: a late hit of an overtaken window is admitted again |
| MigrationLease.LeaseTable.Insert | app/storage/repository.py:90-96 | whoever is told that it took the lease is its only fresh holder, and a refused insert costs nobody a lease |
| MigrationLease.LeaseTable.DeleteStale | app/storage/repository.py:97-103 | eviction never costs a fresh holder its lease |
| MigrationLease.LeaseTable.Release | app/storage/repository.py:113-122 | after a release no row of the releasing process is left, and no other fresh holder has lost its lease |
| MigrationLease.FreshHolderOwnsRow | app/storage/repository.py:65-122 | over all interleavings a holder whose lease is not stale owns the row |
| MigrationLease.FreshHolderIsUnique | app/storage/repository.py:77-122 | two holders with leases that are not stale never coexist |
| MigrationLease.LateReleaseKeepsSuccessor | app/storage/repository.py:113-122 | the late release of an evicted holder leaves its successor's lease alone |
| MigrationLease.NewcomerAcquiresExactlyWhen | app/storage/repository.py:77-111 | an undisturbed newcomer gets the lease if and only if it is free or stale |
| MigrationLease.LongMigrationOverlaps | app/storage/repository.py:65-67 | a migration that outlives its lease can overlap with its successor's |
| TaskQueue.OneLiveExecutionPerTask | app/worker/local_queue.py:113-132 | for every interleaving a task has at most one live execution and it is the registered one |
| TaskQueue.CancelHoldsExactlyOnceBegun | app/worker/local_queue.py:140-152 | a cancel is certain to be heard if and only if the execution has begun |
| TaskQueue.CancelSticks | app/graph/engine.py:266-273 | the cancel of an execution that has begun stays visible until it is done, whatever else happens |
| TaskQueue.ShutdownDrainsExactly | app/worker/local_queue.py:48-77 | whatever follows, a live execution is waited for if and only if it was spawned before shutdown looked |
| TaskQueue.SpawnsExactlyWhen | app/worker/local_queue.py:113-138 | an execution is spawned exactly by a resume, or by the open queue, for a task without a live one |
| TaskQueue.SpawnsTheRightTask | app/worker/local_queue.py:134-138 | it is an execution of the task asked for, or of the one that has waited longest |
| TaskQueue.LateResumeEscapes | app/worker/local_queue.py:93-103 | after shutdown has looked, exactly the resumes of tasks without a live execution spawn, and what they spawn is not waited for |
| TaskQueue.LocalTaskQueue.SpawnExecution | app/worker/local_queue.py:113-132 | a task is started exactly when none of its executions is alive |
| TaskQueue.LocalTaskQueue.DoneCallback | app/worker/local_queue.py:128-132 | a callback clears its own registration and no other |
| TaskQueue.LocalTaskQueue.CancelTask | app/worker/local_queue.py:105-111 | every task with a live execution is reached; a positive answer means one not yet retired |
| TaskQueue.LocalTaskQueue.BeginShutdown | app/worker/local_queue.py:48-69 | the list shutdown waits for contains every live execution |
| EventNumbering.NumbersFollowEmission | app/graph/engine.py:157-190 | across lifetimes and commit orders a task's numbers follow the order of emission, without duplicates |
| EventNumbering.NoCommitIsRefused | app/storage/repository.py:457-470 | with successful seeding the unique constraint never refuses an event |
| EventNumbering.LaterLifetimesNumberAbove | app/storage/repository.py:477-490 | after a crash every event stored later is numbered above all its task had stored |
| EventNumbering.WatermarkHidesNothingExactlyWhen | app/storage/repository.py:471-476 | a reader who asks for events above a stored number misses none of the task, in any continuation, if and only if no event with a smaller number is in flight |
| EventNumbering.CommitsMayOvertake | app/graph/engine.py:173-190 | the input on which that fails: of two events in flight the second is stored first |
| EventNumbering.UnseededEventsRefusedExactlyWhen | app/graph/engine.py:157-176 | an engine whose seeding failed gives its n-th event of a task number n, and an event is refused exactly when its number was stored before the engine started |
| EventNumbering.Numbering.Seed | app/graph/engine.py:157-171 | after seeding the counter is at least every stored number of the task, and no counter ever goes back |
| EventNumbering.Numbering.Emit | app/graph/engine.py:173-176 | an event is numbered above its counter, and after successful seeding above every number its task ever had |

## Left out

- Language-model clients, search and weather providers, sandboxes, the tool server protocol: their results are arbitrary inputs.
- Graph library and checkpoint storage: a node is one atomic persisted step; how the library itself counts its entry step is not modelled.
- Prompts, loose JSON parsing, whitespace trimming and non-ASCII digits in step ids: plan items arrive already split into id, description and dependencies.
- The texts of final answers and errors are shortened to fixed words; error texts that trigger a replan are taken to be non-empty.
- JSON Schema validation: an arbitrary predicate on the arguments of each tool.
- Fingerprints, identifiers and lease owners: taken to be injective and unique; the JSON stored in the journal is taken to read back as written.
- Approval.ToolsOnlyAfterApproval: a decision that arrives while the task does not hang is taken to be lost; what the graph library does with it is not modelled.
- An error text equal to the note in a journal placeholder, which an update would not write.
- Deletion of a task's journal rows while it runs, and the older `record_tool_execution` entry point.
- The decision whether a history is long enough to be compressed, and the summary itself, are inputs; so is the outcome of the daily token quota.
- Retry-After seconds of the quota answers, and the token quota's sum over reservations.
- RateLimiting.SlidingWindowLimiter.Allow: one window length per limiter and a clock that never goes back, as every caller in the repository uses it.
- RateWindows.DbWindowLimiter.Allow: a failing database is taken to have counted nothing.
- MigrationLease.FreshHolderOwnsRow: all processes read one clock; skew between machines shortens the protected time.
- Lease polling: the waiting deadline and the pause between rounds appear only as a process that vanishes.
- TaskQueue.OneLiveExecutionPerTask: the number of semaphore slots and the table of inbound trace ids are not modelled.
- EventNumbering.NumbersFollowEmission: one live engine per task, and a dead engine's uncommitted events do not appear later.
- Termination.LimitSufficesExactlyWhen: for tasks that need no approval, because each resume starts a new count.
- Task rows and their status, streaming to clients, metrics, spans, log redaction, authentication: they report on the kernel or guard its entrance and take no part in its protocols; the status of a row in particular can be overwritten by a cancel request at any time.
- The distributed queue: its workers appear as the concurrent attempts, submissions and decisions above, not as its own broker protocol.
