/**
 One tool call: validation, argument self-healing and retries of transient failures
 (app/graph/nodes.py `_execute_call`, `_retry_transient`, `_repair_args`, `_cancellable_sleep`;
 app/tools/registry.py `execute`; app/core/retry.py).

 The outside world is a script: `handler(n)` is what the tool's handler does when it is invoked for the
 n-th time, `repair(n)` is the model's n-th attempt at fixing the arguments, `canceled(n)` is the n-th
 look at the task's cancel flag. Statements hold for every script.
 */
module ToolCalls {
  import opened Basics
  import opened Messages

  // ---------- errors and delays (app/core/errors.py, app/core/retry.py) ----------

  datatype ToolError = ToolError(
    text: string, code: Option<ErrorCode>, retryable: Option<bool>, retryAfter: Option<real>)

  predicate RetryableByCode(code: ErrorCode) {
    code in {Timeout, Network, RateLimited, Upstream5xx}
  }

  /** An explicit flag wins, then a known code, then the text. */
  predicate IsTransient(e: ToolError) {
    match e.retryable
    case Some(flag) => flag
    case None =>
      if e.code.Some? && e.code.value != Unknown then RetryableByCode(e.code.value) else LooksTransient(e.text)
  }

  function RetryDelayHint(e: ToolError): (hint: Option<real>)
    ensures hint.Some? ==> hint.value >= 0.0
  {
    if e.retryAfter.Some? && e.retryAfter.value >= 0.0 then e.retryAfter else None
  }

  function RealMin(a: real, b: real): (m: real) { if a <= b then a else b }
  function RealMax(a: real, b: real): (m: real) { if a <= b then b else a }

  function Pow2(n: nat): (p: nat)
    ensures p >= 1
  {
    if n == 0 then 1 else 2 * Pow2(n - 1)
  }

  /** Delay before the given retry, doubling from the base and capped. */
  function BackoffDelay(attempt: int, base: real, cap: real): (delay: real)
    requires attempt >= 1
    ensures delay <= cap
  {
    RealMin(base * Pow2(attempt - 1) as real, cap)
  }

  datatype Settings = Settings(
    maxSelfhealRetries: int, retryMaxAttempts: int, retryBaseDelay: real, retryMaxDelay: real)

  function RetryDelay(cfg: Settings, e: ToolError, attempt: int): (delay: real)
    requires attempt >= 1
    ensures delay <= cfg.retryMaxDelay
  {
    match RetryDelayHint(e)
    case Some(hint) => RealMin(hint, cfg.retryMaxDelay)
    case None => BackoffDelay(attempt, cfg.retryBaseDelay, cfg.retryMaxDelay)
  }

  /** Without a hint, delays never shrink from one retry to the next. */
  lemma BackoffMonotone(attempt: int, base: real, cap: real)
    requires attempt >= 1 && base >= 0.0
    ensures BackoffDelay(attempt, base, cap) <= BackoffDelay(attempt + 1, base, cap)
  {
    var p := Pow2(attempt - 1);
    assert Pow2(attempt) == 2 * p;
    assert base * (2 * p) as real == base * p as real + base * p as real;
    assert base * p as real >= 0.0;
  }

  /** The first delay is the base and every further one twice the one before, both up to the cap. */
  lemma BackoffDoubles(attempt: int, base: real, cap: real)
    requires attempt >= 1 && base >= 0.0 && cap >= 0.0
    ensures BackoffDelay(1, base, cap) == RealMin(base, cap)
    ensures BackoffDelay(attempt + 1, base, cap) == RealMin(2.0 * BackoffDelay(attempt, base, cap), cap)
  {
    var p := Pow2(attempt - 1);
    assert Pow2(attempt) == 2 * p;
    assert base * (2 * p) as real == 2.0 * (base * p as real);
    assert base * p as real >= 0.0;
  }

  /** A server's hint that is not negative is followed up to the cap, whatever the attempt. */
  lemma HintIsFollowed(cfg: Settings, e: ToolError, attempt: int)
    requires attempt >= 1 && e.retryAfter.Some? && e.retryAfter.value >= 0.0
    ensures RetryDelay(cfg, e, attempt) <= e.retryAfter.value
    ensures e.retryAfter.value <= cfg.retryMaxDelay ==> RetryDelay(cfg, e, attempt) == e.retryAfter.value
    ensures e.retryAfter.value > cfg.retryMaxDelay ==> RetryDelay(cfg, e, attempt) == cfg.retryMaxDelay
  {
  }

  /** Without a usable hint the delay is the back-off delay. */
  lemma NoHintBacksOff(cfg: Settings, e: ToolError, attempt: int)
    requires attempt >= 1 && (e.retryAfter.None? || e.retryAfter.value < 0.0)
    ensures RetryDelay(cfg, e, attempt) == BackoffDelay(attempt, cfg.retryBaseDelay, cfg.retryMaxDelay)
  {
  }

  /** An explicit flag decides alone; without one a known code decides alone, whatever the text; the text is last. */
  lemma TransienceDecidedBy(e: ToolError, f: ToolError)
    ensures e.retryable == f.retryable && e.retryable.Some? ==> IsTransient(e) == IsTransient(f) == e.retryable.value
    ensures e.retryable.None? && f.retryable.None? && e.code == f.code && e.code.Some? && e.code.value != Unknown ==>
              (IsTransient(e) <==> IsTransient(f))
    ensures e.retryable.None? && e.code in {Some(Timeout), Some(Network), Some(RateLimited), Some(Upstream5xx)} ==>
              IsTransient(e)
    ensures e.retryable.None? &&
            e.code in {Some(Upstream4xx), Some(Auth), Some(Permission), Some(NotFound), Some(InvalidArgs)} ==>
              !IsTransient(e)
    ensures e.retryable.None? && (e.code.None? || e.code == Some(Unknown)) ==>
              (IsTransient(e) <==> LooksTransient(e.text))
  {
  }

  // ---------- the registry ----------

  datatype ToolSpec = ToolSpec(valid: string -> bool, retryTransient: bool)

  /** What one invocation of a handler does; `Escapes` is an exception that the registry does not fold. */
  datatype HandlerReply = Returns(result: ToolResult) | Fails(error: ToolError) | Escapes

  datatype Outcome = Good(result: ToolResult) | Invalid | RunError(error: ToolError) | Escaped

  const UNKNOWN_TOOL := ToolError("未知工具", Some(NotFound), None, None)

  predicate ReachesHandler(spec: Option<ToolSpec>, args: string) {
    spec.Some? && spec.value.valid(args)
  }

  /** `registry.execute`: the handler's reply matters only when the arguments pass validation. */
  function Execute(spec: Option<ToolSpec>, args: string, reply: HandlerReply): (o: Outcome)
    ensures o.Good? || o.Escaped? ==> ReachesHandler(spec, args)
    ensures o.Invalid? <==> spec.Some? && !ReachesHandler(spec, args)
    ensures spec.None? ==> o.RunError? && o.error.code == Some(NotFound)
    ensures ReachesHandler(spec, args) ==>
              && (o.Good? <==> reply.Returns?) && (o.Good? ==> o.result == reply.result)
              && (o.RunError? <==> reply.Fails?) && (o.RunError? ==> o.error == reply.error)
  {
    if spec.None? then RunError(UNKNOWN_TOOL)
    else if !spec.value.valid(args) then Invalid
    else match reply
      case Returns(result) => Good(result)
      case Fails(e) => RunError(e)
      case Escapes => Escaped
  }

  // ---------- sleeping ----------

  const SLICE := 0.5

  /** Sleeps in slices and looks at the cancel flag before each of them. */
  method CancellableSleep(delay: real, canceled: nat -> bool, from: nat)
    returns (interrupted: bool, slept: real, looks: nat)
    ensures 0.0 <= slept <= RealMax(0.0, delay)
    ensures !interrupted ==> slept == RealMax(0.0, delay)
    ensures slept <= SLICE * looks as real
    ensures interrupted ==> looks > 0 && canceled(from + looks - 1)
    ensures forall n :: from <= n < from + looks && !(interrupted && n == from + looks - 1) ==> !canceled(n)
  {
    var remaining := RealMax(0.0, delay);
    slept, looks := 0.0, 0;
    while remaining > 0.0
      invariant 0.0 <= slept && 0.0 <= remaining && slept + remaining == RealMax(0.0, delay)
      invariant slept <= SLICE * looks as real
      invariant forall n :: from <= n < from + looks ==> !canceled(n)
      decreases if remaining > 0.0 then (2.0 * remaining).Floor + 1 else 0
    {
      var flag := canceled(from + looks);
      looks := looks + 1;
      if flag { return true, slept, looks; }
      var step := RealMin(SLICE, remaining);
      slept, remaining := slept + step, remaining - step;
    }
    interrupted := false;
  }

  // ---------- retrying ----------

  /** `n` times the longest delay. */
  function Repeated(n: nat, cap: real): (t: real) {
    if n == 0 then 0.0 else Repeated(n - 1, cap) + cap
  }

  lemma {:induction false} RepeatedGrows(m: nat, n: nat, cap: real)
    requires m <= n && cap >= 0.0
    ensures Repeated(m, cap) <= Repeated(n, cap)
    decreases n
  {
    if m < n { RepeatedGrows(m, n - 1, cap); }
  }

  lemma {:induction false} RepeatedIsProduct(n: nat, cap: real)
    ensures Repeated(n, cap) == n as real * cap
  {
    if n > 0 {
      RepeatedIsProduct(n - 1, cap);
      assert n as real * cap == (n - 1) as real * cap + cap;
    }
  }

  datatype RetryEnd = Recovered(result: ToolResult) | GaveUp(last: ToolError) | Stopped(last: ToolError)
                    | Misused | RetryEscaped

  /** May a failure of this tool be repeated as it is? */
  predicate MayRetry(spec: Option<ToolSpec>, e: ToolError) {
    IsTransient(e) && spec.Some? && spec.value.retryTransient
  }

  /** The first `n` of the handler's replies from `start` on are failures worth repeating. */
  ghost predicate AllTransient(handler: nat -> HandlerReply, start: nat, n: nat) {
    forall k :: start <= k < start + n ==> handler(k).Fails? && IsTransient(handler(k).error)
  }

  /** The failure that is current after `calls` repetitions. */
  ghost function LastError(handler: nat -> HandlerReply, start: nat, calls: nat, first: ToolError): (e: ToolError)
    requires calls > 0 ==> handler(start + calls - 1).Fails?
  {
    if calls == 0 then first else handler(start + calls - 1).error
  }

  /** The failure before repetition `n`, as far as there is one. */
  ghost function ErrorBefore(handler: nat -> HandlerReply, start: nat, n: nat, first: ToolError): (e: ToolError) {
    if n == 0 || !handler(start + n - 1).Fails? then first else handler(start + n - 1).error
  }

  /** The seconds to wait before the first `n` repetitions together. */
  ghost function Waits(cfg: Settings, handler: nat -> HandlerReply, start: nat, first: ToolError, n: nat): (t: real) {
    if n == 0 then 0.0
    else Waits(cfg, handler, start, first, n - 1) +
         RealMax(0.0, RetryDelay(cfg, ErrorBefore(handler, start, n - 1, first), n))
  }

  lemma WaitsNone(cfg: Settings, handler: nat -> HandlerReply, start: nat, first: ToolError)
    ensures Waits(cfg, handler, start, first, 0) == 0.0
  {
  }

  lemma WaitsNext(cfg: Settings, handler: nat -> HandlerReply, start: nat, first: ToolError, n: nat, last: ToolError)
    requires last == ErrorBefore(handler, start, n, first)
    ensures Waits(cfg, handler, start, first, n + 1) ==
            Waits(cfg, handler, start, first, n) + RealMax(0.0, RetryDelay(cfg, last, n + 1))
  {
  }

  ghost predicate Undisturbed(canceled: nat -> bool) {
    forall n :: !canceled(n)
  }

  /** `_retry_transient`: repeats the same call, and nothing but a transient failure of a repeatable tool. */
  method RetryTransient(cfg: Settings, spec: Option<ToolSpec>, args: string, first: ToolError,
                        handler: nat -> HandlerReply, start: nat, canceled: nat -> bool)
    returns (r: RetryEnd, calls: nat, slept: real)
    ensures calls <= Max(0, cfg.retryMaxAttempts)
    ensures 0.0 <= slept <= Repeated(Max(0, cfg.retryMaxAttempts), RealMax(0.0, cfg.retryMaxDelay))
    ensures calls > 0 ==> MayRetry(spec, first) && ReachesHandler(spec, args)
    ensures !MayRetry(spec, first) || canceled(0) ==> calls == 0 && slept == 0.0
    ensures !MayRetry(spec, first) ==> r == GaveUp(first)
    ensures calls > 0 ==> AllTransient(handler, start, calls - 1)
    ensures r.Recovered? ==> calls > 0 && handler(start + calls - 1) == Returns(r.result)
    ensures r.GaveUp? || r.Stopped? ==>
              (calls > 0 ==> handler(start + calls - 1).Fails?) && r.last == LastError(handler, start, calls, first)
    ensures r.GaveUp? ==> !MayRetry(spec, r.last) || calls == Max(0, cfg.retryMaxAttempts)
    ensures r.Stopped? ==> !Undisturbed(canceled)
    ensures Undisturbed(canceled) && !r.Misused? ==> slept == Waits(cfg, handler, start, first, calls)
    ensures r.Misused? ==> !ReachesHandler(spec, args)
    ensures r.RetryEscaped? ==> calls > 0 && handler(start + calls - 1).Escapes?
  {
    hide IsTransient, RetryDelay, Waits;
    WaitsNone(cfg, handler, start, first);
    calls, slept := 0, 0.0;
    var cap := RealMax(0.0, cfg.retryMaxDelay);
    var budget := Max(0, cfg.retryMaxAttempts);
    RepeatedGrows(0, budget, cap);
    if !MayRetry(spec, first) { return GaveUp(first), calls, slept; }
    var last, look := first, 0;
    var attempt := 1;
    while attempt <= cfg.retryMaxAttempts
      invariant 1 <= attempt <= budget + 1 && calls == attempt - 1
      invariant MayRetry(spec, first) && (calls > 0 ==> ReachesHandler(spec, args))
      invariant calls > 0 ==> handler(start + calls - 1).Fails? && AllTransient(handler, start, calls - 1)
      invariant calls > 0 ==> !canceled(0)
      invariant last == LastError(handler, start, calls, first)
      invariant 0.0 <= slept <= Repeated(calls, cap)
      invariant calls == 0 ==> look == 0
      invariant Undisturbed(canceled) ==> slept == Waits(cfg, handler, start, first, calls)
      decreases budget + 1 - attempt
    {
      RepeatedGrows(calls, attempt, cap);
      RepeatedGrows(attempt, budget, cap);
      if !IsTransient(last) { return GaveUp(last), calls, slept; }
      var flag := canceled(look);
      look := look + 1;
      if flag { return Stopped(last), calls, slept; }
      var delay := RetryDelay(cfg, last, attempt);
      WaitsNext(cfg, handler, start, first, calls, last);
      var interrupted, time, looks := CancellableSleep(delay, canceled, look);
      look, slept := look + looks, slept + time;
      if interrupted { return Stopped(last), calls, slept; }
      match Execute(spec, args, handler(start + calls))
      case Good(result) =>
        calls := calls + 1;
        return Recovered(result), calls, slept;
      case Invalid =>
        return Misused, calls, slept;
      case Escaped =>
        calls := calls + 1;
        return RetryEscaped, calls, slept;
      case RunError(e) =>
        last := e;
        calls := calls + 1;
      attempt := attempt + 1;
    }
    RepeatedGrows(calls, budget, cap);
    r := GaveUp(last);
  }

  // ---------- self-healing ----------

  /** The model's attempt at repairing arguments: a parsed object if it gave one, or an exception. */
  datatype RepairReply = Reply(args: Option<string>, tokens: nat) | ReplyRaises

  /** The repaired arguments, if they are an object and pass validation. */
  function Repaired(spec: ToolSpec, reply: RepairReply): (args: Option<string>)
    ensures args.Some? ==> spec.valid(args.value)
  {
    if reply.Reply? && reply.args.Some? && spec.valid(reply.args.value) then reply.args else None
  }

  /** Tokens of the first `n` repair calls. */
  function RepairTokens(repair: nat -> RepairReply, n: nat): (t: nat) {
    if n == 0 then 0
    else RepairTokens(repair, n - 1) + (if repair(n - 1).Reply? then repair(n - 1).tokens else 0)
  }

  lemma NoRepairTokens(repair: nat -> RepairReply)
    ensures RepairTokens(repair, 0) == 0
  {
  }

  datatype HealEnd = Healed(result: ToolResult) | HealRunError(error: ToolError) | Exhausted | HealRaised

  /** No repair attempt before the n-th gave usable arguments. */
  ghost predicate NoRepairBefore(spec: ToolSpec, repair: nat -> RepairReply, n: nat) {
    forall k :: 0 <= k < n ==> repair(k).Reply? && Repaired(spec, repair(k)).None?
  }

  method SelfHeal(cfg: Settings, spec: Option<ToolSpec>, args: string,
                  handler: nat -> HandlerReply, repair: nat -> RepairReply)
    returns (r: HealEnd, fixed: string, attempts: nat, tokens: nat)
    ensures attempts <= Max(0, cfg.maxSelfhealRetries)
    ensures !r.HealRaised? ==> tokens == RepairTokens(repair, attempts)
    ensures attempts > 0 && spec.Some? ==> NoRepairBefore(spec.value, repair, attempts - 1)
    ensures r.Healed? || r.HealRunError? ==>
              && attempts > 0 && spec.Some?
              && Repaired(spec.value, repair(attempts - 1)) == Some(fixed)
              && Execute(spec, fixed, handler(0)) == (if r.Healed? then Good(r.result) else RunError(r.error))
    ensures r.Exhausted? ==> fixed == args && attempts == Max(0, cfg.maxSelfhealRetries)
    ensures r.Exhausted? && attempts > 0 ==> spec.Some? && NoRepairBefore(spec.value, repair, attempts)
    ensures r.HealRaised? ==>
              attempts > 0 && (spec.None? || repair(attempts - 1).ReplyRaises? ||
                               (Repaired(spec.value, repair(attempts - 1)).Some? && handler(0).Escapes?))
  {
    attempts, tokens, fixed := 0, 0, args;
    while attempts < cfg.maxSelfhealRetries
      invariant attempts <= Max(0, cfg.maxSelfhealRetries) && fixed == args
      invariant tokens == RepairTokens(repair, attempts)
      invariant attempts > 0 ==> spec.Some? && NoRepairBefore(spec.value, repair, attempts)
      decreases cfg.maxSelfhealRetries - attempts
    {
      var reply := repair(attempts);
      attempts := attempts + 1;
      // looking up an unknown tool raises inside the repair step
      if spec.None? || reply.ReplyRaises? { return HealRaised, fixed, attempts, tokens; }
      tokens := tokens + reply.tokens;
      var candidate := Repaired(spec.value, reply);
      if candidate.Some? {
        fixed := candidate.value;
        // validated twice, so the handler is reached
        match Execute(spec, fixed, handler(0))
        case Good(result) => return Healed(result), fixed, attempts, tokens;
        case RunError(e) => return HealRunError(e), fixed, attempts, tokens;
        case Escaped => return HealRaised, fixed, attempts, tokens;
      }
    }
    r := Exhausted;
  }

  // ---------- the call ----------

  datatype CallEnd = Returned(obs: Observation, attempts: nat) | Raised

  predicate FirstTryValid(spec: Option<ToolSpec>, call: Call) {
    call.parseError == "" && ReachesHandler(spec, call.args)
  }

  /** The observation that reports a failure after the retries ended with `e`. */
  function RuntimeFailure(name: string, args: string, e: ToolError): (o: Observation) {
    Failure(name, args, e.text, Runtime, e.code)
  }

  function CanceledText(e: ToolError): (t: string) { e.text + " (task canceled, not retried)" }

  method AfterRunError(cfg: Settings, spec: Option<ToolSpec>, name: string, args: string, e: ToolError, attempts: nat,
                       handler: nat -> HandlerReply, reached: nat, canceled: nat -> bool)
    returns (r: CallEnd, calls: nat, slept: real)
    requires reached > 0 ==> handler(reached - 1) == Fails(e)
    requires reached == 0 ==> !IsTransient(e)
    ensures reached <= calls <= reached + Max(0, cfg.retryMaxAttempts)
    ensures calls > reached ==> MayRetry(spec, e) && AllTransient(handler, reached, calls - reached - 1)
    ensures 0.0 <= slept <= Repeated(Max(0, cfg.retryMaxAttempts), RealMax(0.0, cfg.retryMaxDelay))
    ensures r.Returned? ==> r.attempts == attempts && r.obs.tool == name && r.obs.args == args
    ensures r.Returned? && r.obs.Success? ==> calls > 0 && handler(calls - 1) == Returns(r.obs.result)
    ensures r.Returned? && r.obs.Failure? ==> r.obs.errorType == Runtime
    ensures r.Returned? && r.obs.Failure? && ReachesHandler(spec, args) && calls > 0 ==>
              handler(calls - 1).Fails? && r.obs.code == handler(calls - 1).error.code
    ensures r.Returned? && r.obs.Failure? && reached == 0 ==> calls == 0 && r.obs.code == e.code
    ensures Undisturbed(canceled) && ReachesHandler(spec, args) ==>
              slept == Waits(cfg, handler, reached, e, calls - reached)
    ensures r.Returned? && r.obs.Failure? && ReachesHandler(spec, args) && calls > 0 ==>
              || !MayRetry(spec, handler(calls - 1).error) || calls == reached + Max(0, cfg.retryMaxAttempts)
              || !Undisturbed(canceled)
    ensures r.Raised? ==> calls > 0 && handler(calls - 1).Escapes?
  {
    var end, more, time := RetryTransient(cfg, spec, args, e, handler, reached, canceled);
    calls, slept := reached + more, time;
    match end
    case Recovered(result) => r := Returned(Success(name, args, result), attempts);
    case GaveUp(last) => r := Returned(RuntimeFailure(name, args, last), attempts);
    case Stopped(last) => r := Returned(Failure(name, args, CanceledText(last), Runtime, last.code), attempts);
    case Misused => r := Returned(Failure(name, args, "invalid while retrying", Runtime, Some(InvalidArgs)), attempts);
    case RetryEscaped => r := Raised;
  }

  /** The handler fails `k` times in a way worth repeating, `k` within the limit, and then returns a result. */
  ghost predicate RecoversAt(cfg: Settings, spec: Option<ToolSpec>, handler: nat -> HandlerReply, k: nat) {
    && k <= Max(0, cfg.retryMaxAttempts) && handler(k).Returns?
    && forall j :: 0 <= j < k ==> handler(j).Fails? && MayRetry(spec, handler(j).error)
  }

  /**
   `_execute_call`. `calls` counts handler invocations, `repairs` repair calls to the model, `slept` the
   seconds spent in back-off.
   */
  method ExecuteCall(cfg: Settings, spec: Option<ToolSpec>, call: Call,
                     handler: nat -> HandlerReply, repair: nat -> RepairReply, canceled: nat -> bool)
    returns (r: CallEnd, calls: nat, repairs: nat, tokens: nat, slept: real)
    // side effects are bounded
    ensures calls <= 1 + Max(0, cfg.retryMaxAttempts)
    ensures spec.None? ==> calls == 0
    ensures spec.Some? && !spec.value.retryTransient ==> calls <= 1
    ensures repairs <= Max(0, cfg.maxSelfhealRetries)
    ensures 0.0 <= slept <= Max(0, cfg.retryMaxAttempts) as real * RealMax(0.0, cfg.retryMaxDelay)
    // only failures worth repeating are ever repeated
    ensures calls > 0 ==> AllTransient(handler, 0, calls - 1)
    // a success is the handler's last reply, a validation failure never reached the handler
    ensures r.Returned? && r.obs.Success? ==> calls > 0 && handler(calls - 1) == Returns(r.obs.result)
    ensures r.Returned? && r.obs.Failure? && r.obs.errorType == Validation ==>
              calls == 0 && r.obs.code == Some(InvalidArgs) && repairs == Max(0, cfg.maxSelfhealRetries)
    ensures r.Returned? && r.obs.Failure? && r.obs.errorType == Runtime ==>
              if calls > 0 then handler(calls - 1).Fails? && r.obs.code == handler(calls - 1).error.code
              else spec.None? && r.obs.code == Some(NotFound)
    // giving up is right: the failure is not worth repeating, or all attempts were made, or somebody cancelled
    ensures r.Returned? && r.obs.Failure? && calls > 0 ==>
              || !MayRetry(spec, handler(calls - 1).error) || calls == 1 + Max(0, cfg.retryMaxAttempts)
              || !Undisturbed(canceled)
    // so a success that comes within the limit is what the call returns
    ensures FirstTryValid(spec, call) && Undisturbed(canceled) ==>
              forall k: nat :: RecoversAt(cfg, spec, handler, k) ==>
                r == Returned(Success(call.name, call.args, handler(k).result), 0) && calls == k + 1
    // undisturbed, the time slept is that of the delays before the repetitions
    ensures FirstTryValid(spec, call) && Undisturbed(canceled) && handler(0).Fails? ==>
              calls >= 1 && slept == Waits(cfg, handler, 1, handler(0).error, calls - 1)
    // repairs happen only for arguments that failed validation, and are accounted for
    ensures FirstTryValid(spec, call) || (spec.None? && call.parseError == "") ==> repairs == 0
    ensures r.Returned? ==> r.attempts == repairs && tokens == RepairTokens(repair, repairs)
    ensures r.Returned? ==> r.obs.tool == call.name && (repairs == 0 ==> r.obs.args == call.args)
    // an exception leaves the call only for a reason the call cannot handle
    ensures r.Raised? ==>
              || (calls > 0 && handler(calls - 1).Escapes?)
              || (repairs > 0 && (spec.None? || repair(repairs - 1).ReplyRaises?))
  {
    assert !IsTransient(UNKNOWN_TOOL);
    hide IsTransient, Waits, RepairTokens;
    assert RepairTokens(repair, 0) == 0 by { NoRepairTokens(repair); }
    calls, repairs, tokens, slept := 0, 0, 0, 0.0;
    WaitsNone(cfg, handler, 1, if handler(0).Fails? then handler(0).error else UNKNOWN_TOOL);
    RepeatedGrows(0, Max(0, cfg.retryMaxAttempts), RealMax(0.0, cfg.retryMaxDelay));
    RepeatedIsProduct(Max(0, cfg.retryMaxAttempts), RealMax(0.0, cfg.retryMaxDelay));
    var outcome := if call.parseError != "" then Invalid else Execute(spec, call.args, handler(0));
    match outcome
    case Good(result) =>
      calls := 1;
      r := Returned(Success(call.name, call.args, result), 0);
    case Escaped =>
      calls := 1;
      r := Raised;
    case RunError(e) =>
      var reached := if spec.None? then 0 else 1;
      r, calls, slept := AfterRunError(cfg, spec, call.name, call.args, e, 0, handler, reached, canceled);
    case Invalid =>
      var heal, fixed, attempts, used := SelfHeal(cfg, spec, call.args, handler, repair);
      repairs, tokens := attempts, used;
      match heal
      case Healed(result) =>
        calls := 1;
        r := Returned(Success(call.name, fixed, result), attempts);
      case HealRunError(e) =>
        r, calls, slept := AfterRunError(cfg, spec, call.name, fixed, e, attempts, handler, 1, canceled);
      case Exhausted =>
        r := Returned(Failure(call.name, fixed, "invalid arguments", Validation, Some(InvalidArgs)), attempts);
      case HealRaised =>
        calls := if spec.Some? && Repaired(spec.value, repair(attempts - 1)).Some? && handler(0).Escapes? then 1 else 0;
        r := Raised;
  }
}
