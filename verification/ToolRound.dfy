/**
 One round of tool calls: what each finished call adds to the shared totals, the messages of the round, the
 bounded list of key outputs, and replay after a crash
 (app/graph/nodes.py `tool_executor_node`, `run_one`, `_prune_key_outputs`; app/tools/registry.py
 `extract_key_output`).
 */
module ToolRound {
  import opened Basics
  import opened Messages
  import Journal

  // ---------- key outputs ----------

  /** Entries in insertion order. */
  type KeyOutputs = seq<(string, string)>

  function Take(s: string, n: nat): (r: string) {
    if |s| <= n then s else s[..n]
  }

  /** The snapshot kept of a key tool's result; `limit` is None for tools that are not key tools. */
  function KeyOutput(limit: Option<nat>, result: ToolResult): (r: Option<string>) {
    match limit
    case None => None
    case Some(n) =>
      var text := if result.summary != "" then result.summary else Take(result.body, n);
      if Take(text, n) == "" then None else Some(Take(text, n))
  }

  /** Assignment to a dictionary entry: an existing entry keeps its place. */
  function SetEntry(items: KeyOutputs, key: string, value: string): (r: KeyOutputs) {
    if items == [] then [(key, value)]
    else if items[0].0 == key then [(key, value)] + items[1..]
    else [items[0]] + SetEntry(items[1..], key, value)
  }

  /** The value of a key, and the keys in their order. */
  function Find(items: KeyOutputs, key: string): (r: Option<string>) {
    if items == [] then None else if items[0].0 == key then Some(items[0].1) else Find(items[1..], key)
  }

  function KeysOf(items: KeyOutputs): (keys: seq<string>)
    ensures |keys| == |items|
  {
    seq(|items|, i requires 0 <= i < |items| => items[i].0)
  }

  lemma {:induction false} SetEntryFinds(items: KeyOutputs, key: string, value: string, other: string)
    ensures Find(SetEntry(items, key, value), other) == if other == key then Some(value) else Find(items, other)
  {
    if items == [] {
      assert [(key, value)][1..] == [];
    } else if items[0].0 == key {
      assert ([(key, value)] + items[1..])[1..] == items[1..];
    } else {
      SetEntryFinds(items[1..], key, value, other);
      assert ([items[0]] + SetEntry(items[1..], key, value))[1..] == SetEntry(items[1..], key, value);
    }
  }

  /** An assignment keeps every key in its place, and puts a new key behind the others. */
  lemma {:induction false} SetEntryKeys(items: KeyOutputs, key: string, value: string)
    ensures KeysOf(SetEntry(items, key, value)) == if key in KeysOf(items) then KeysOf(items) else KeysOf(items) + [key]
  {
    if items != [] {
      SetEntryKeys(items[1..], key, value);
      assert KeysOf(items) == [items[0].0] + KeysOf(items[1..]);
      if items[0].0 != key {
        var after := SetEntry(items[1..], key, value);
        assert KeysOf([items[0]] + after) == [items[0].0] + KeysOf(after);
      }
    }
  }

  const KEY_OUTPUTS_MAX_ITEMS := 30
  const KEY_OUTPUTS_TOKEN_BUDGET := 1500

  function CountCjk(s: string): (n: nat)
    ensures n <= |s|
  {
    if s == [] then 0 else (if '\U{4e00}' <= s[0] <= '\U{9fff}' then 1 else 0) + CountCjk(s[1..])
  }

  function EstimateTokens(text: string): (n: nat) {
    if text == "" then 0 else CountCjk(text) + (|text| - CountCjk(text)) / 4 + 1
  }

  lemma {:induction false} CountCjkAppend(a: string, b: string)
    ensures CountCjk(a + b) == CountCjk(a) + CountCjk(b)
  {
    if a == "" {
      assert a + b == b;
    } else {
      CountCjkAppend(a[1..], b);
      assert (a + b)[1..] == a[1..] + b;
    }
  }

  /** The estimate counts a wide character as one token and four others as one, and grows with the text. */
  lemma EstimateLaws(a: string, b: string)
    ensures EstimateTokens("") == 0 && (a != "" ==> EstimateTokens(a) >= 1)
    ensures EstimateTokens(a) <= EstimateTokens(a + b)
    ensures a != "" && CountCjk(a) == |a| ==> EstimateTokens(a) == |a| + 1
    ensures a != "" && CountCjk(a) == 0 ==> 4 * (EstimateTokens(a) - 1) <= |a| < 4 * EstimateTokens(a)
  {
    CountCjkAppend(a, b);
  }

  function EntryCost(entry: (string, string)): (n: nat) {
    EstimateTokens(entry.0 + ": " + entry.1)
  }

  function Cost(items: KeyOutputs): (n: nat) {
    if items == [] then 0 else EntryCost(items[0]) + Cost(items[1..])
  }

  predicate WithinLimits(items: KeyOutputs) {
    |items| <= KEY_OUTPUTS_MAX_ITEMS && Cost(items) <= KEY_OUTPUTS_TOKEN_BUDGET
  }

  /** Drops the oldest entries until both limits hold. */
  function Prune(items: KeyOutputs): (r: KeyOutputs) {
    if WithinLimits(items) then items
    else
      assert items != [];
      Prune(items[1..])
  }

  /** Pruning keeps the longest tail of recent entries that fits. */
  lemma {:induction false} PruneKeepsLongestTail(items: KeyOutputs)
    ensures WithinLimits(Prune(items))
    ensures |Prune(items)| <= |items| && Prune(items) == items[|items| - |Prune(items)|..]
    ensures forall i :: 0 <= i < |items| - |Prune(items)| ==> !WithinLimits(items[i..])
    decreases |items|
  {
    if WithinLimits(items) {
      assert items[0..] == items;
    } else {
      var rest := items[1..];
      PruneKeepsLongestTail(rest);
      forall i | 0 <= i < |items| - |Prune(items)|
        ensures !WithinLimits(items[i..])
      {
        if i == 0 { assert items[0..] == items; } else { assert items[i..] == rest[i - 1..]; }
      }
    }
  }

  lemma {:induction false} PruneSkips(items: KeyOutputs, k: nat)
    requires k <= |items| && forall i :: 0 <= i < k ==> !WithinLimits(items[i..])
    ensures Prune(items) == Prune(items[k..])
    decreases k
  {
    if k > 0 {
      assert items[0..] == items;
      assert forall i :: 0 <= i < k - 1 ==> items[1..][i..] == items[i + 1..];
      PruneSkips(items[1..], k - 1);
      assert items[1..][k - 1..] == items[k..];
    } else {
      assert items[0..] == items;
    }
  }

  /** `_prune_key_outputs`: cut to the newest entries, then pop from the front while the total is too high. */
  method PruneKeyOutputs(all: KeyOutputs) returns (items: KeyOutputs)
    ensures items == Prune(all)
  {
    items := all;
    if |items| > KEY_OUTPUTS_MAX_ITEMS {
      ghost var k := |all| - KEY_OUTPUTS_MAX_ITEMS;
      assert forall i :: 0 <= i < k ==> |all[i..]| > KEY_OUTPUTS_MAX_ITEMS;
      PruneSkips(all, k);
      items := items[|items| - KEY_OUTPUTS_MAX_ITEMS..];
    }
    var total := SumCosts(items);
    while items != [] && total > KEY_OUTPUTS_TOKEN_BUDGET
      invariant |items| <= KEY_OUTPUTS_MAX_ITEMS && total == Cost(items)
      invariant Prune(items) == Prune(all)
      decreases |items|
    {
      total := total - EntryCost(items[0]);
      items := items[1..];
    }
  }

  method SumCosts(items: KeyOutputs) returns (total: nat)
    ensures total == Cost(items)
  {
    total := 0;
    for i := 0 to |items|
      invariant total + Cost(items[i..]) == Cost(items)
    {
      total := total + EntryCost(items[i]);
      assert items[i..][1..] == items[i + 1..];
    }
  }

  // ---------- what a call contributes ----------

  /**
   How the coroutine of one call ended: it executed the call (with repair calls to the model), replayed a
   stored result, or raised. A coroutine that raises loses its repair tokens, unless they had been added
   before (`charged`: the journal failed while storing the result), and always the tokens of a sub-task that
   the call had delegated to.
   */
  datatype CallOutcome =
    | Executed(obs: Observation, repairs: seq<nat>)
    | Replayed(obs: Observation)
    | Aborted(repairs: seq<nat>, charged: bool, delegated: nat)

  function Repairs(o: CallOutcome): (r: seq<nat>) {
    if o.Replayed? then [] else o.repairs
  }

  /** Tokens that the coroutine adds for its repair calls. */
  function RepairCharge(o: CallOutcome): (n: nat) {
    match o
    case Executed(_, repairs) => Sum(repairs)
    case Replayed(_) => 0
    case Aborted(repairs, charged, _) => if charged then Sum(repairs) else 0
  }

  function SelfHealCount(o: CallOutcome): (n: nat) {
    match o
    case Executed(_, repairs) => |repairs|
    case Replayed(_) => 0
    case Aborted(repairs, charged, _) => if charged then |repairs| else 0
  }

  /** Tokens of a delegated sub-task, rolled up into the parent. */
  function BudgetCharge(o: CallOutcome): (n: nat) {
    if !o.Aborted? && o.obs.Success? then o.obs.result.budget else 0
  }

  /** Tokens that a sub-task spent, whether they are rolled up or not. */
  function DelegatedTokens(o: CallOutcome): (n: nat) {
    if o.Aborted? then o.delegated else BudgetCharge(o)
  }

  /** Tokens that were spent on the call and are never charged. */
  function CallLoss(o: CallOutcome): (n: nat) {
    if o.Aborted? then (if o.charged then 0 else Sum(o.repairs)) + o.delegated else 0
  }

  function KeyEntry(limits: string -> Option<nat>, call: Call, obs: Observation): (r: Option<(string, string)>) {
    if obs.Failure? then None
    else match KeyOutput(limits(obs.tool), obs.result)
      case None => None
      case Some(text) => Some((obs.tool + "(" + call.id + ")", text))
  }

  function ObservationOf(call: Call, o: CallOutcome): (obs: Observation) {
    match o
    case Executed(obs, _) => obs
    case Replayed(obs) => obs
    case Aborted(_, _, _) => Failure(call.name, call.args, "执行协程内部异常", Runtime, None)
  }

  /** The tool message of a call; a delegated budget does not reach the model. */
  function AnswerTo(call: Call, obs: Observation): (m: Message) {
    match obs
    case Success(_, _, result) => Tool(call.id, call.name, ResultPayload(result.(budget := 0)))
    case Failure(_, _, error, _, code) => Tool(call.id, call.name, ErrorPayload(error, code))
  }

  // ---------- the round ----------

  /** The two uninterrupted sections of a coroutine that touch the shared totals. */
  datatype Section = Charge(i: nat) | Settle(i: nat)

  function Canonical(n: nat): (s: seq<Section>)
    ensures |s| == 2 * n
  {
    if n == 0 then [] else Canonical(n - 1) + [Charge(n - 1), Settle(n - 1)]
  }

  lemma SameSize(a: seq<Section>, b: seq<Section>)
    ensures multiset(a) == multiset(b) ==> |a| == |b|
  {
    assert |multiset(a)| == |a| && |multiset(b)| == |b|;
  }

  /** Any interleaving of the sections; a list that is not one stands for the plain order. */
  function Interleaving(schedule: seq<Section>, n: nat): (s: seq<Section>)
    ensures multiset(s) == multiset(Canonical(n)) && |s| == 2 * n
  {
    SameSize(schedule, Canonical(n));
    if multiset(schedule) == multiset(Canonical(n)) then schedule else Canonical(n)
  }

  function OutcomeAt(outcomes: seq<CallOutcome>, i: nat): (o: CallOutcome) {
    if i < |outcomes| then outcomes[i] else Aborted([], false, 0)
  }

  datatype Totals = Totals(tokens: nat, selfheals: nat, keyOutputs: KeyOutputs)

  function SectionTokens(outcomes: seq<CallOutcome>, s: Section): (n: nat) {
    match s
    case Charge(i) => RepairCharge(OutcomeAt(outcomes, i))
    case Settle(i) => BudgetCharge(OutcomeAt(outcomes, i))
  }

  /** What is added up: tokens, or repair calls. */
  datatype Tally = TokenTally | RepairTally

  function SectionAmount(tally: Tally, outcomes: seq<CallOutcome>, s: Section): (n: nat) {
    if tally.TokenTally? then SectionTokens(outcomes, s)
    else if s.Charge? then SelfHealCount(OutcomeAt(outcomes, s.i)) else 0
  }

  function RunSection(limits: string -> Option<nat>, calls: seq<Call>, outcomes: seq<CallOutcome>, t: Totals,
                      s: Section): (r: Totals)
    ensures r.tokens == t.tokens + SectionTokens(outcomes, s)
  {
    match s
    case Charge(i) =>
      var o := OutcomeAt(outcomes, i);
      t.(tokens := t.tokens + RepairCharge(o), selfheals := t.selfheals + SelfHealCount(o))
    case Settle(i) =>
      var fact := SectionFact(limits, calls, outcomes, s);
      t.(tokens := t.tokens + BudgetCharge(OutcomeAt(outcomes, i)),
         keyOutputs := if fact.None? then t.keyOutputs else SetEntry(t.keyOutputs, fact.value.0, fact.value.1))
  }

  /** The fact that a section puts into the list. */
  function SectionFact(limits: string -> Option<nat>, calls: seq<Call>, outcomes: seq<CallOutcome>, s: Section)
    : (r: Option<(string, string)>)
  {
    if s.Settle? && s.i < |calls| && !OutcomeAt(outcomes, s.i).Aborted?
    then KeyEntry(limits, calls[s.i], OutcomeAt(outcomes, s.i).obs) else None
  }

  function RunSections(limits: string -> Option<nat>, calls: seq<Call>, outcomes: seq<CallOutcome>, t: Totals,
                       sections: seq<Section>): (r: Totals)
    decreases |sections|
  {
    if sections == [] then t
    else RunSection(limits, calls, outcomes, RunSections(limits, calls, outcomes, t, sections[..|sections| - 1]),
                    sections[|sections| - 1])
  }

  /** The snapshot of a result: its summary, or else its body, cut at the tool's limit; an empty one is none. */
  predicate IsSnapshot(limit: nat, result: ToolResult, text: string) {
    var source := if result.summary != "" then result.summary else result.body;
    text <= source && |text| == (if |source| < limit then |source| else limit) && text != ""
  }

  /** The section settles a successful call of a key tool, and this is the fact that is to be kept. */
  predicate AddsFact(limits: string -> Option<nat>, calls: seq<Call>, outcomes: seq<CallOutcome>, s: Section,
                     key: string, text: string)
  {
    && s.Settle? && s.i < |calls| && !OutcomeAt(outcomes, s.i).Aborted?
    && var obs := OutcomeAt(outcomes, s.i).obs;
       && obs.Success? && limits(obs.tool).Some?
       && key == obs.tool + "(" + calls[s.i].id + ")" && IsSnapshot(limits(obs.tool).value, obs.result, text)
  }

  lemma TakeIsPrefix(source: string, n: nat, text: string)
    ensures text == Take(source, n) <==> text <= source && |text| == if |source| < n then |source| else n
    ensures Take(Take(source, n), n) == Take(source, n)
  {
    if text <= source { assert text == source[..|text|]; }
  }

  lemma SnapshotIsCut(limit: nat, result: ToolResult, text: string)
    ensures KeyOutput(Some(limit), result) == Some(text) <==> IsSnapshot(limit, result, text)
  {
    var source := if result.summary != "" then result.summary else result.body;
    TakeIsPrefix(source, limit, text);
  }

  /** The list gets the snapshot of every successful call of a key tool, under the tool's name and the call's id. */
  lemma SectionFactSays(limits: string -> Option<nat>, calls: seq<Call>, outcomes: seq<CallOutcome>, s: Section,
                        key: string, text: string)
    ensures SectionFact(limits, calls, outcomes, s) == Some((key, text)) <==>
            AddsFact(limits, calls, outcomes, s, key, text)
  {
    if s.Settle? && s.i < |calls| && !OutcomeAt(outcomes, s.i).Aborted? {
      var obs := OutcomeAt(outcomes, s.i).obs;
      if obs.Success? && limits(obs.tool).Some? { SnapshotIsCut(limits(obs.tool).value, obs.result, text); }
    }
  }

  /** The fact under this key that the last of the first `n` sections to have one added. */
  function LastFact(limits: string -> Option<nat>, calls: seq<Call>, outcomes: seq<CallOutcome>, sections: seq<Section>,
                    key: string): (r: Option<string>)
    decreases |sections|
  {
    if sections == [] then None
    else
      var fact := SectionFact(limits, calls, outcomes, sections[|sections| - 1]);
      if fact.Some? && fact.value.0 == key then Some(fact.value.1)
      else LastFact(limits, calls, outcomes, sections[..|sections| - 1], key)
  }

  /** The `m`-th section adds this fact under the key, and no later one adds any. */
  ghost predicate AddedLast(limits: string -> Option<nat>, calls: seq<Call>, outcomes: seq<CallOutcome>,
                            sections: seq<Section>, m: nat, key: string, text: string)
  {
    && m < |sections| && AddsFact(limits, calls, outcomes, sections[m], key, text)
    && forall j :: m < j < |sections| ==> !AddsSome(limits, calls, outcomes, sections[j], key)
  }

  /** Every section that adds a fact under the key is followed by the one whose fact is the last. */
  lemma {:induction false} LastFactSays(limits: string -> Option<nat>, calls: seq<Call>, outcomes: seq<CallOutcome>,
                                        sections: seq<Section>, key: string)
    ensures var last := LastFact(limits, calls, outcomes, sections, key);
            && (last.Some? ==> exists m: nat :: AddedLast(limits, calls, outcomes, sections, m, key, last.value))
            && (last.None? ==> forall j :: 0 <= j < |sections| ==> !AddsSome(limits, calls, outcomes, sections[j], key))
    decreases |sections|
  {
    if sections != [] {
      hide AddsFact, SectionFact;
      var n := |sections| - 1;
      LastFactSays(limits, calls, outcomes, sections[..n], key);
      AddsSomeSays(limits, calls, outcomes, sections[n], key);
      var fact := SectionFact(limits, calls, outcomes, sections[n]);
      var last := LastFact(limits, calls, outcomes, sections, key);
      if fact.Some? && fact.value.0 == key {
        assert AddedLast(limits, calls, outcomes, sections, n, key, last.value);
      } else if last.Some? {
        var m: nat :| AddedLast(limits, calls, outcomes, sections[..n], m, key, last.value);
        assert AddedLast(limits, calls, outcomes, sections, m, key, last.value);
      }
    }
  }

  lemma AddsSomeSays(limits: string -> Option<nat>, calls: seq<Call>, outcomes: seq<CallOutcome>, s: Section,
                     key: string)
    ensures var fact := SectionFact(limits, calls, outcomes, s);
            && (AddsSome(limits, calls, outcomes, s, key) <==> fact.Some? && fact.value.0 == key)
            && (fact.Some? && fact.value.0 == key ==> AddsFact(limits, calls, outcomes, s, key, fact.value.1))
  {
    forall text {
      SectionFactSays(limits, calls, outcomes, s, key, text);
    }
  }

  ghost predicate AddsSome(limits: string -> Option<nat>, calls: seq<Call>, outcomes: seq<CallOutcome>, s: Section,
                           key: string)
  {
    exists text :: AddsFact(limits, calls, outcomes, s, key, text)
  }

  /** All sections: a key holds the fact added last, or what it held before; keys keep their places. */
  lemma {:induction false} RoundFacts(limits: string -> Option<nat>, calls: seq<Call>, outcomes: seq<CallOutcome>,
                                      t: Totals, sections: seq<Section>, key: string)
    ensures var items, last := RunSections(limits, calls, outcomes, t, sections).keyOutputs,
                               LastFact(limits, calls, outcomes, sections, key);
            && Find(items, key) == (if last.Some? then last else Find(t.keyOutputs, key))
            && KeysOf(t.keyOutputs) <= KeysOf(items)
    decreases |sections|
  {
    if sections != [] {
      var init, s := sections[..|sections| - 1], sections[|sections| - 1];
      RoundFacts(limits, calls, outcomes, t, init, key);
      var before := RunSections(limits, calls, outcomes, t, init).keyOutputs;
      var fact := SectionFact(limits, calls, outcomes, s);
      if fact.Some? {
        SetEntryFinds(before, fact.value.0, fact.value.1, key);
        SetEntryKeys(before, fact.value.0, fact.value.1);
      }
    }
  }

  /** No fact is forgotten: after the round, the key of every successful call of a key tool holds a call's snapshot. */
  lemma EveryFactIsHeld(limits: string -> Option<nat>, calls: seq<Call>, outcomes: seq<CallOutcome>,
                        schedule: seq<Section>, start: Totals, i: nat, key: string, text: string)
    requires i < |calls| && AddsFact(limits, calls, outcomes, Settle(i), key, text)
    ensures var held := Find(Unpruned(limits, calls, outcomes, schedule, start), key);
            held.Some? && exists j: nat :: j < |calls| && AddsFact(limits, calls, outcomes, Settle(j), key, held.value)
  {
    hide AddsFact, LastFact, Find, Interleaving, Canonical;
    assert AddsFact(limits, calls, outcomes, Settle(i), key, text);
    var sections := Interleaving(schedule, |calls|);
    RoundFacts(limits, calls, outcomes, start, sections, key);
    LastFactSays(limits, calls, outcomes, sections, key);
    SettlesAll(|calls|, i);
    assert Settle(i) in multiset(sections);
    var p :| 0 <= p < |sections| && sections[p] == Settle(i);
    assert AddsSome(limits, calls, outcomes, sections[p], key);
    var last := LastFact(limits, calls, outcomes, sections, key);
    var m: nat :| AddedLast(limits, calls, outcomes, sections, m, key, last.value);
    OnlySettlesAdd(limits, calls, outcomes, sections[m], key, last.value);
    assert sections[m] == Settle(sections[m].i);
  }

  lemma OnlySettlesAdd(limits: string -> Option<nat>, calls: seq<Call>, outcomes: seq<CallOutcome>, s: Section,
                       key: string, text: string)
    requires AddsFact(limits, calls, outcomes, s, key, text)
    ensures s.Settle? && s.i < |calls|
  {
  }

  lemma {:induction false} SettlesAll(n: nat, i: nat)
    requires i < n
    ensures Settle(i) in Canonical(n)
  {
    if i < n - 1 { SettlesAll(n - 1, i); }
  }

  function Observations(calls: seq<Call>, outcomes: seq<CallOutcome>): (r: seq<Observation>)
    ensures |r| == |calls|
  {
    seq(|calls|, i requires 0 <= i < |calls| => ObservationOf(calls[i], OutcomeAt(outcomes, i)))
  }

  function AnswersOf(calls: seq<Call>, observations: seq<Observation>): (r: seq<Message>)
    requires |calls| == |observations|
    ensures |r| == |calls| && Answered(calls, r, 0)
  {
    seq(|calls|, i requires 0 <= i < |calls| => AnswerTo(calls[i], observations[i]))
  }

  /** The facts at the end of a round, before the list is pruned. */
  function Unpruned(limits: string -> Option<nat>, calls: seq<Call>, outcomes: seq<CallOutcome>, schedule: seq<Section>,
                    start: Totals): (items: KeyOutputs)
  {
    RunSections(limits, calls, outcomes, start, Interleaving(schedule, |calls|)).keyOutputs
  }

  /** The body of `tool_executor_node`: totals in completion order, results and messages in call order. */
  method RunRound(limits: string -> Option<nat>, calls: seq<Call>, outcomes: seq<CallOutcome>, schedule: seq<Section>,
                  start: Totals)
    returns (totals: Totals, observations: seq<Observation>, answers: seq<Message>)
    ensures var t := RunSections(limits, calls, outcomes, start, Interleaving(schedule, |calls|));
            totals == t.(keyOutputs := Prune(t.keyOutputs))
    // before pruning, a key holds the fact that was settled last, or what it held
    ensures forall key ::
              var last := LastFact(limits, calls, outcomes, Interleaving(schedule, |calls|), key);
              Find(Unpruned(limits, calls, outcomes, schedule, start), key) ==
              if last.Some? then last else Find(start.keyOutputs, key)
    ensures KeysOf(start.keyOutputs) <= KeysOf(Unpruned(limits, calls, outcomes, schedule, start))
    ensures totals.keyOutputs == Prune(Unpruned(limits, calls, outcomes, schedule, start))
    ensures observations == Observations(calls, outcomes)
    ensures answers == AnswersOf(calls, observations)
  {
    hide LastFact, Find, KeysOf;
    forall key { RoundFacts(limits, calls, outcomes, start, Interleaving(schedule, |calls|), key); }
    RoundFacts(limits, calls, outcomes, start, Interleaving(schedule, |calls|), "");
    totals := Accumulate(limits, calls, outcomes, Interleaving(schedule, |calls|), start);
    observations, answers := Collect(calls, outcomes);
    var pruned := PruneKeyOutputs(totals.keyOutputs);
    totals := totals.(keyOutputs := pruned);
  }

  method Accumulate(limits: string -> Option<nat>, calls: seq<Call>, outcomes: seq<CallOutcome>, sections: seq<Section>,
                    start: Totals) returns (totals: Totals)
    ensures totals == RunSections(limits, calls, outcomes, start, sections)
  {
    totals := start;
    for k := 0 to |sections|
      invariant totals == RunSections(limits, calls, outcomes, start, sections[..k])
    {
      totals := RunSection(limits, calls, outcomes, totals, sections[k]);
      assert sections[..k + 1][..k] == sections[..k];
    }
    assert sections[..|sections|] == sections;
  }

  predicate Reports(call: Call, o: CallOutcome, obs: Observation) {
    if o.Aborted? then obs.Failure? && obs.tool == call.name && obs.errorType == Runtime && obs.code.None?
    else obs == o.obs
  }

  /** The message names its call and holds the result without the delegated budget, or the error with its code. */
  predicate Tells(call: Call, obs: Observation, m: Message) {
    && m.Tool? && m.callId == call.id && m.name == call.name
    && if obs.Success? then
         && m.payload.ResultPayload? && m.payload.result.summary == obs.result.summary
         && m.payload.result.body == obs.result.body && m.payload.result.budget == 0
       else m.payload == ErrorPayload(obs.error, obs.code)
  }

  lemma AnswersTell(calls: seq<Call>, outcomes: seq<CallOutcome>)
    ensures var observations := Observations(calls, outcomes);
            forall i: nat :: i < |calls| ==>
              && Reports(calls[i], OutcomeAt(outcomes, i), observations[i])
              && Tells(calls[i], observations[i], AnswersOf(calls, observations)[i])
  {
  }

  /** Results and tool messages, one of each per call and in call order. */
  method Collect(calls: seq<Call>, outcomes: seq<CallOutcome>)
    returns (observations: seq<Observation>, answers: seq<Message>)
    ensures observations == Observations(calls, outcomes)
    ensures answers == AnswersOf(calls, observations)
    // a call's result is its own, or the report that its coroutine raised; its message tells the model just that
    ensures forall i :: 0 <= i < |calls| ==> Reports(calls[i], OutcomeAt(outcomes, i), observations[i])
    ensures forall i :: 0 <= i < |calls| ==> Tells(calls[i], observations[i], answers[i])
  {
    observations, answers := [], [];
    for i := 0 to |calls|
      invariant |observations| == i && |answers| == i
      invariant forall j :: 0 <= j < i ==> observations[j] == ObservationOf(calls[j], OutcomeAt(outcomes, j))
      invariant forall j :: 0 <= j < i ==> answers[j] == AnswerTo(calls[j], observations[j])
    {
      var obs := ObservationOf(calls[i], OutcomeAt(outcomes, i));
      observations := observations + [obs];
      answers := answers + [AnswerTo(calls[i], obs)];
    }
  }

  // ---------- the order of completion does not change what is charged ----------

  function SectionSum(tally: Tally, outcomes: seq<CallOutcome>, sections: seq<Section>): (n: nat) {
    if sections == [] then 0
    else
      var n := |sections| - 1;
      SectionSum(tally, outcomes, sections[..n]) + SectionAmount(tally, outcomes, sections[n])
  }

  lemma {:induction false} SectionSumAppend(tally: Tally, outcomes: seq<CallOutcome>, a: seq<Section>, b: seq<Section>)
    ensures SectionSum(tally, outcomes, a + b) == SectionSum(tally, outcomes, a) + SectionSum(tally, outcomes, b)
    decreases |b|
  {
    if b == [] {
      assert a + b == a;
    } else {
      SectionSumAppend(tally, outcomes, a, b[..|b| - 1]);
      assert (a + b)[..|a + b| - 1] == a + b[..|b| - 1];
    }
  }

  /** Removing one occurrence of the last element of `a` from both lists leaves permutations. */
  lemma RemoveLast(a: seq<Section>, b: seq<Section>) returns (left: seq<Section>, right: seq<Section>)
    requires a != [] && multiset(a) == multiset(b)
    ensures b == left + [a[|a| - 1]] + right
    ensures multiset(a[..|a| - 1]) == multiset(left + right)
  {
    var x, init := a[|a| - 1], a[..|a| - 1];
    assert a == init + [x];
    assert x in multiset(b);
    var i :| 0 <= i < |b| && b[i] == x;
    left, right := b[..i], b[i + 1..];
    assert b == left + [x] + right;
    assert multiset(init) == multiset(a) - multiset{x};
    assert multiset(left + right) == multiset(b) - multiset{x};
  }

  lemma {:induction false} SectionSumPermuted(tally: Tally, outcomes: seq<CallOutcome>, a: seq<Section>,
                                              b: seq<Section>)
    requires multiset(a) == multiset(b)
    ensures SectionSum(tally, outcomes, a) == SectionSum(tally, outcomes, b)
    decreases |a|
  {
    if a == [] {
      assert |multiset(b)| == 0;
    } else {
      var left, right := RemoveLast(a, b);
      var x := a[|a| - 1];
      SectionSumPermuted(tally, outcomes, a[..|a| - 1], left + right);
      SectionSumAppend(tally, outcomes, left, right);
      SectionSumAppend(tally, outcomes, left, [x]);
      SectionSumAppend(tally, outcomes, left + [x], right);
      assert [x][..0] == [];
    }
  }

  lemma {:induction false} RunSectionsTokens(limits: string -> Option<nat>, calls: seq<Call>,
                                             outcomes: seq<CallOutcome>, t: Totals, sections: seq<Section>)
    ensures RunSections(limits, calls, outcomes, t, sections).tokens ==
            t.tokens + SectionSum(TokenTally, outcomes, sections)
    ensures RunSections(limits, calls, outcomes, t, sections).selfheals ==
            t.selfheals + SectionSum(RepairTally, outcomes, sections)
    decreases |sections|
  {
    if sections != [] {
      RunSectionsTokens(limits, calls, outcomes, t, sections[..|sections| - 1]);
    }
  }

  /** What the first `n` calls cost: charged repairs and delegated budgets. */
  function RoundCharge(outcomes: seq<CallOutcome>, n: nat): (c: nat) {
    if n == 0 then 0
    else
      var o := OutcomeAt(outcomes, n - 1);
      RoundCharge(outcomes, n - 1) + RepairCharge(o) + BudgetCharge(o)
  }

  /** Repair calls of the first `n` calls, except those of coroutines that raised before adding them. */
  function RoundRepairs(outcomes: seq<CallOutcome>, n: nat): (c: nat) {
    if n == 0 then 0 else RoundRepairs(outcomes, n - 1) + SelfHealCount(OutcomeAt(outcomes, n - 1))
  }

  lemma {:induction false} CanonicalSum(tally: Tally, outcomes: seq<CallOutcome>, n: nat)
    ensures SectionSum(tally, outcomes, Canonical(n)) ==
            if tally.TokenTally? then RoundCharge(outcomes, n) else RoundRepairs(outcomes, n)
  {
    if n > 0 {
      CanonicalSum(tally, outcomes, n - 1);
      var charge, settle := [Charge(n - 1)], [Settle(n - 1)];
      SectionSumAppend(tally, outcomes, Canonical(n - 1), charge + settle);
      SectionSumAppend(tally, outcomes, charge, settle);
      assert charge + settle == [Charge(n - 1), Settle(n - 1)];
      assert charge[..0] == [] && settle[..0] == [];
    }
  }

  /** However the coroutines interleave, the round charges the same tokens and counts the same repair calls. */
  lemma RoundTokens(limits: string -> Option<nat>, calls: seq<Call>, outcomes: seq<CallOutcome>,
                    schedule: seq<Section>, t: Totals)
    ensures RunSections(limits, calls, outcomes, t, Interleaving(schedule, |calls|)).tokens ==
            t.tokens + RoundCharge(outcomes, |calls|)
    ensures RunSections(limits, calls, outcomes, t, Interleaving(schedule, |calls|)).selfheals ==
            t.selfheals + RoundRepairs(outcomes, |calls|)
  {
    var sections := Interleaving(schedule, |calls|);
    RunSectionsTokens(limits, calls, outcomes, t, sections);
    SectionSumPermuted(TokenTally, outcomes, sections, Canonical(|calls|));
    SectionSumPermuted(RepairTally, outcomes, sections, Canonical(|calls|));
    CanonicalSum(TokenTally, outcomes, |calls|);
    CanonicalSum(RepairTally, outcomes, |calls|);
  }

  // ---------- replay ----------

  /** Everything the rest of the system sees of a finished call. */
  datatype Visible = Visible(message: Message, keyEntry: Option<(string, string)>, budget: nat)

  function SeenOf(limits: string -> Option<nat>, call: Call, obs: Observation): (v: Visible) {
    Visible(AnswerTo(call, obs), KeyEntry(limits, call, obs), BudgetCharge(Replayed(obs)))
  }

  /** A replay shows exactly what the execution showed, unless the execution failed with an error code. */
  lemma ReplayShowsTheSame(limits: string -> Option<nat>, call: Call, obs: Observation)
    ensures SeenOf(limits, call, Journal.Decode(Journal.Encode(obs))) == SeenOf(limits, call, obs) <==>
            obs.Success? || obs.code.None?
  {
    Journal.DecodeEncode(obs);
  }

  /**
   Replay refines execution: once a successful result of a call has been committed, an attempt that starts
   later (the rerun after a crash) never executes the call, and if it finishes it shows the same message, key
   output and charge as the execution did, take-overs included. The premise is the exact one under which
   a committed row keeps handing out the same outcome.
   */
  lemma RerunRefinesExecution(strict: bool, before: seq<Journal.Event>, after: seq<Journal.Event>,
                              limits: string -> Option<nat>, task: string, round: nat, call: Call, obs: Observation)
    requires obs.Success?
    requires var k := Journal.KeyOf(task, round, call);
             Journal.Lookup(Journal.Run(strict, Journal.EMPTY, before).rows, k) ==
             Some(Journal.Completed(Journal.Encode(obs)))
    ensures var k, w := Journal.KeyOf(task, round, call), Journal.Run(strict, Journal.EMPTY, before);
            var later, a := Journal.Run(strict, w, [Journal.Start(k)] + after), w.next;
            && !Journal.BusyWith(later, a, k)
            && (Journal.Protected(strict, Journal.HandedOver, w, k) && a in later.attempts &&
                later.attempts[a].phase.Finished? ==>
                  later.attempts[a].phase.replayed &&
                  SeenOf(limits, call, later.attempts[a].phase.obs) == SeenOf(limits, call, obs))
  {
    var k := Journal.KeyOf(task, round, call);
    Journal.LateAttemptsReplay(strict, before, after, k);
    Journal.DecodeEncode(obs);
  }

  // ---------- a whole round run again ----------

  /** The outcome of a call when the round is run again after its results were stored. */
  function RerunOf(o: CallOutcome): (r: CallOutcome) {
    if o.Executed? then Replayed(Journal.Decode(Journal.Encode(o.obs))) else o
  }

  function RerunAll(outcomes: seq<CallOutcome>): (r: seq<CallOutcome>)
    ensures |r| == |outcomes|
  {
    seq(|outcomes|, i requires 0 <= i < |outcomes| => RerunOf(outcomes[i]))
  }

  /** Does the journal keep everything of this outcome? */
  predicate KeptWhole(o: CallOutcome) {
    o.Executed? ==> o.obs.Success? || o.obs.code.None?
  }

  /** Repair tokens of the executed calls among the first `n`. */
  function ExecutedRepairs(outcomes: seq<CallOutcome>, n: nat): (t: nat) {
    if n == 0 then 0
    else ExecutedRepairs(outcomes, n - 1) +
         if OutcomeAt(outcomes, n - 1).Executed? then Sum(OutcomeAt(outcomes, n - 1).repairs) else 0
  }

  lemma RerunAt(outcomes: seq<CallOutcome>, i: nat)
    ensures OutcomeAt(RerunAll(outcomes), i) == RerunOf(OutcomeAt(outcomes, i))
  {
  }

  lemma {:induction false} RerunKeyOutputs(limits: string -> Option<nat>, calls: seq<Call>, outcomes: seq<CallOutcome>,
                                           t: Totals, sections: seq<Section>)
    ensures RunSections(limits, calls, RerunAll(outcomes), t, sections).keyOutputs ==
            RunSections(limits, calls, outcomes, t, sections).keyOutputs
    decreases |sections|
  {
    if sections != [] {
      var last := sections[|sections| - 1];
      RerunKeyOutputs(limits, calls, outcomes, t, sections[..|sections| - 1]);
      RerunAt(outcomes, last.i);
      var o := OutcomeAt(outcomes, last.i);
      if o.Executed? { Journal.DecodeEncode(o.obs); }
    }
  }

  lemma {:induction false} RerunCharge(outcomes: seq<CallOutcome>, n: nat)
    ensures RoundCharge(outcomes, n) == RoundCharge(RerunAll(outcomes), n) + ExecutedRepairs(outcomes, n)
  {
    if n > 0 {
      RerunCharge(outcomes, n - 1);
      RerunAt(outcomes, n - 1);
    }
  }

  lemma RerunObservations(calls: seq<Call>, outcomes: seq<CallOutcome>)
    ensures Observations(calls, RerunAll(outcomes)) == Observations(calls, outcomes) <==>
            forall i: nat :: i < |calls| ==> KeptWhole(OutcomeAt(outcomes, i))
  {
    var again, first := Observations(calls, RerunAll(outcomes)), Observations(calls, outcomes);
    forall i: nat | i < |calls|
      ensures again[i] == first[i] <==> KeptWhole(OutcomeAt(outcomes, i))
    {
      RerunAt(outcomes, i);
      var o := OutcomeAt(outcomes, i);
      if o.Executed? { Journal.DecodeEncode(o.obs); }
    }
  }
}
