/**
 The tool-execution journal and the protocol that run_one follows on it
 (app/storage/repository.py `get_tool_execution`, `try_claim_tool_execution`, `complete_tool_execution`;
 app/graph/nodes.py `run_one`, `_await_claim_result`).
 */
module Journal {
  import opened Basics
  import opened Messages

  /** Task, call id, round, tool, arguments and parse error; stands for the digest used as key. */
  datatype Key = Key(task: string, callId: string, round: nat, tool: string, args: string, parseError: string)

  function KeyOf(task: string, round: nat, call: Call): (k: Key) {
    Key(task, call.id, round, call.name, call.args, call.parseError)
  }

  /** Only the same call of the same round of the same task has the same key. */
  lemma KeyOfInjective(task: string, round: nat, call: Call, task': string, round': nat, call': Call)
    ensures KeyOf(task, round, call) == KeyOf(task', round', call') <==>
            task == task' && round == round' && call == call'
  {
  }

  /** The columns of a finished row. The error code is not among them. */
  datatype Record = Record(ok: bool, tool: string, args: string, result: Option<ToolResult>,
                           error: string, errorType: Option<ErrorType>)

  datatype Row = InFlight | Completed(record: Record)

  type Rows = map<Key, Row>

  function Encode(obs: Observation): (r: Record) {
    match obs
    case Success(tool, args, result) => Record(true, tool, args, Some(result), "", None)
    case Failure(tool, args, error, errorType, _) => Record(false, tool, args, None, error, Some(errorType))
  }

  /** A row read back as an observation. */
  function Decode(r: Record): (obs: Observation) {
    if r.ok && r.result.Some? then Success(r.tool, r.args, r.result.value)
    else Failure(r.tool, r.args, r.error, if r.errorType.Some? then r.errorType.value else Runtime, None)
  }

  /** What comes back from the journal is what went in, except for the error code of a failure. */
  lemma DecodeEncode(obs: Observation)
    ensures Decode(Encode(obs)) == obs <==> obs.Success? || obs.code.None?
    ensures obs.Failure? ==> Decode(Encode(obs)) == obs.(code := None)
  {
  }

  // ---------- the table ----------

  function Lookup(rows: Rows, k: Key): (r: Option<Row>) {
    if k in rows then Some(rows[k]) else None
  }

  /** The columns of a row; a placeholder carries the call's tool and arguments and a note in place of an error. */
  function Columns(k: Key, row: Row): (r: Record) {
    match row
    case InFlight => Record(false, k.tool, k.args, None, "in flight", None)
    case Completed(record) => record
  }

  /**
   The row after a completion that had read a placeholder: only columns whose new value differs from the
   placeholder's are part of the update, the others keep whatever the row holds by then.
   */
  function Overwritten(k: Key, row: Row, update: Record): (r: Record) {
    var now := Columns(k, row);
    Record(update.ok || now.ok,
           if update.tool != k.tool then update.tool else now.tool,
           if update.args != k.args then update.args else now.args,
           if update.result.Some? then update.result else now.result,
           update.error, update.errorType)
  }

  /** A placeholder is filled with exactly the result. */
  lemma PlaceholderFilled(k: Key, obs: Observation)
    ensures Overwritten(k, InFlight, Encode(obs)) == Encode(obs)
  {
  }

  /** What a completion that has read `seen` makes of the table at the time of writing. */
  function WriteBack(rows: Rows, k: Key, seen: Option<Row>, record: Record): (r: Rows) {
    match seen
    case None => if k in rows then rows else rows[k := Completed(record)]  // unique constraint: first writer wins
    case Some(InFlight) => rows[k := Completed(if k in rows then Overwritten(k, rows[k], record) else record)]
    case Some(Completed(_)) => rows
  }

  class ToolJournal {
    var rows: Rows

    constructor ()
      ensures rows == map[]
    {
      rows := map[];
    }

    /** Inserts a placeholder; the unique constraint decides. */
    method TryClaim(k: Key) returns (claimed: bool, existing: Option<Record>)
      modifies this
      ensures claimed <==> k !in old(rows)
      ensures claimed ==> rows == old(rows)[k := InFlight] && existing.None?
      ensures !claimed ==> rows == old(rows)
      ensures existing.Some? <==> k in old(rows) && old(rows)[k].Completed?
      ensures existing.Some? ==> old(rows)[k] == Completed(existing.value)
    {
      if k !in rows {
        rows := rows[k := InFlight];
        return true, None;
      }
      match rows[k]
      case InFlight => return false, None;
      case Completed(record) => return false, Some(record);
    }

    /** A placeholder is not a result. */
    method Get(k: Key) returns (r: Option<Record>)
      ensures r.Some? <==> k in rows && rows[k].Completed?
      ensures r.Some? ==> rows[k] == Completed(r.value)
    {
      if k in rows && rows[k].Completed? { return Some(rows[k].record); }
      r := None;
    }

    /** Uninterrupted, a completion fills a placeholder or a missing row and leaves a finished row alone. */
    method Complete(k: Key, obs: Observation)
      modifies this
      ensures rows == WriteBack(old(rows), k, Lookup(old(rows), k), Encode(obs))
      ensures k in old(rows) && old(rows)[k].Completed? ==> rows == old(rows)
      ensures !(k in old(rows) && old(rows)[k].Completed?) ==> rows == old(rows)[k := Completed(Encode(obs))]
    {
      var row := Lookup(rows, k);
      PlaceholderFilled(k, obs);
      if row == None {
        rows := rows[k := Completed(Encode(obs))];
      } else if row.value.InFlight? {
        rows := rows[k := Completed(Encode(obs))];
      }
    }
  }

  // ---------- the protocol ----------

  /**
   Where one attempt at a call stands. Claiming and completing are two database round trips each
   (insert, then read; read, then write), so other workers can act in between.
   */
  datatype Phase =
    | Arrived
    | Conflicted
    | Waiting
    | Executing
    | Completing(obs: Observation)
    | Writing(obs: Observation, seen: Option<Row>)
    | Finished(obs: Observation, replayed: bool)
    | Raised

  datatype Attempt = Attempt(key: Key, phase: Phase)

  /**
   The journal, the attempts of all workers by number, and history: claims won, takeovers and executions
   begun per key, and every result ever committed. Numbers of attempts are never reused, so `next` is above
   all of them.
   */
  datatype World = World(rows: Rows, attempts: map<nat, Attempt>, next: nat,
                         won: map<Key, nat>, takeovers: map<Key, nat>, begun: map<Key, nat>,
                         committed: set<(Key, Record)>)

  function Count(m: map<Key, nat>, k: Key): (n: nat) {
    if k in m then m[k] else 0
  }

  function Bump(m: map<Key, nat>, k: Key): (r: map<Key, nat>)
    ensures Count(r, k) == Count(m, k) + 1
    ensures forall j :: j != k ==> Count(r, j) == Count(m, j)
  {
    m[k := Count(m, k) + 1]
  }

  const EMPTY := World(map[], map[], 0, map[], map[], map[], {})

  datatype Event =
    | Start(key: Key)
    | Insert(a: nat)
    | ReadConflict(a: nat)
    | Poll(a: nat)
    | TakeOver(a: nat)
    | Ran(a: nat, obs: Observation)
    | ReadRow(a: nat)
    | Write(a: nat)
    | Crash(a: nat)

  function Move(w: World, a: nat, phase: Phase): (r: World)
    requires a in w.attempts
  {
    w.(attempts := w.attempts[a := w.attempts[a].(phase := phase)])
  }

  /** A strict database refuses an update of a row that has changed since the update's transaction read it. */
  predicate UpdateRefused(strict: bool, rows: Rows, k: Key, seen: Option<Row>) {
    strict && seen == Some(InFlight) && Lookup(rows, k) != seen
  }

  /** Does the write put its result into the table? */
  predicate Commits(rows: Rows, k: Key, seen: Option<Row>) {
    seen == Some(InFlight) || (seen == None && k !in rows)
  }

  /**
   One step of one attempt, or its death. Events that are not possible in `w` change nothing, so every list
   of events is an interleaving and every interleaving is a list of events.
   */
  function Next(strict: bool, w: World, e: Event): (r: World) {
    match e
    case Start(k) => w.(attempts := w.attempts[w.next := Attempt(k, Arrived)], next := w.next + 1)
    case Crash(a) => w.(attempts := w.attempts - {a})
    case _ => if e.a in w.attempts then Act(strict, w, e, w.attempts[e.a].key, w.attempts[e.a].phase) else w
  }

  /** The step that event `e` stands for, taken by an attempt at `k` in the given phase. */
  function Act(strict: bool, w: World, e: Event, k: Key, phase: Phase): (r: World)
    requires !e.Start? && e.a in w.attempts
  {
    var ready := k in w.rows && w.rows[k].Completed?;
    if e.Insert? && phase.Arrived? then
      if k in w.rows then Move(w, e.a, Conflicted)
      else Move(w, e.a, Executing).(rows := w.rows[k := InFlight], won := Bump(w.won, k), begun := Bump(w.begun, k))
    else if e.ReadConflict? && phase.Conflicted? then
      Move(w, e.a, if ready then Finished(Decode(w.rows[k].record), true) else Waiting)
    else if e.Poll? && phase.Waiting? then
      if ready then Move(w, e.a, Finished(Decode(w.rows[k].record), true)) else w
    else if e.TakeOver? && phase.Waiting? then
      Move(w, e.a, Executing).(takeovers := Bump(w.takeovers, k), begun := Bump(w.begun, k))
    else if e.Ran? && phase.Executing? then Move(w, e.a, Completing(e.obs))
    else if e.ReadRow? && phase.Completing? then Move(w, e.a, Writing(phase.obs, Lookup(w.rows, k)))
    else if e.Write? && phase.Writing? then
      if UpdateRefused(strict, w.rows, k, phase.seen) then Move(w, e.a, Raised)
      else
        Move(w, e.a, Finished(phase.obs, false))
          .(rows := WriteBack(w.rows, k, phase.seen, Encode(phase.obs)),
            committed := if Commits(w.rows, k, phase.seen) then w.committed + {(k, Encode(phase.obs))} else w.committed)
    else w
  }

  function Run(strict: bool, w: World, events: seq<Event>): (r: World)
    decreases |events|
  {
    if events == [] then w else Run(strict, Next(strict, w, events[0]), events[1..])
  }

  predicate IsCompleted(w: World, k: Key) {
    k in w.rows && w.rows[k].Completed?
  }

  /** Between winning or taking over a call and having reported its result. */
  predicate BusyPhase(phase: Phase) {
    phase.Executing? || phase.Completing? || phase.Writing?
  }

  predicate BusyWith(w: World, a: nat, k: Key) {
    a in w.attempts && w.attempts[a].key == k && BusyPhase(w.attempts[a].phase)
  }

  /** At most one claim on `k` wins, exactly when its row appears; executions are claims and takeovers. */
  predicate CountsFit(w: World, k: Key) {
    && Count(w.won, k) == (if k in w.rows then 1 else 0)
    && Count(w.begun, k) == Count(w.won, k) + Count(w.takeovers, k)
  }

  /** Whoever got past the insert left or met a row. */
  predicate AttemptFits(w: World, a: nat)
    requires a in w.attempts
  {
    && a < w.next
    && (!w.attempts[a].phase.Arrived? ==> w.attempts[a].key in w.rows)
    && (w.attempts[a].phase.Writing? ==> w.attempts[a].phase.seen.Some?)
  }

  /** What every reachable world satisfies. */
  ghost predicate Inv(w: World) {
    && (forall k :: CountsFit(w, k))
    && (forall a :: a in w.attempts ==> AttemptFits(w, a))
    && (forall k :: IsCompleted(w, k) ==> WellFormed(w.rows[k].record))
  }

  /** A row is marked as a success exactly when it holds a result; otherwise it holds the kind of its error. */
  predicate WellFormed(r: Record) {
    (r.ok <==> r.result.Some?) && (!r.ok ==> r.errorType.Some?)
  }

  /** As long as nobody took `k` over, one attempt at most is busy with it, and none once it is completed. */
  ghost predicate Solo(w: World, k: Key) {
    Count(w.takeovers, k) == 0 ==>
      && (forall a, b :: BusyWith(w, a, k) && BusyWith(w, b, k) ==> a == b)
      && (IsCompleted(w, k) ==> forall a :: !BusyWith(w, a, k))
  }

  lemma RowsStay(strict: bool, w: World, e: Event, k: Key)
    requires k in w.rows
    ensures k in Next(strict, w, e).rows
  {
  }

  lemma CountsNext(strict: bool, w: World, e: Event, k: Key)
    requires CountsFit(w, k) && (!e.Start? && e.a in w.attempts ==> AttemptFits(w, e.a))
    ensures CountsFit(Next(strict, w, e), k) && Count(w.takeovers, k) <= Count(Next(strict, w, e).takeovers, k)
  {
    if !e.Start? && !e.Crash? && e.a in w.attempts {
      if w.attempts[e.a].key != k { OtherKeysKept(strict, w, e, k); }
    }
  }

  /** A step of an attempt touches the row and the counters of its own key only. */
  lemma OtherKeysKept(strict: bool, w: World, e: Event, k: Key)
    requires !e.Start? && !e.Crash? && e.a in w.attempts && w.attempts[e.a].key != k
    ensures var w' := Next(strict, w, e);
            && (k in w'.rows <==> k in w.rows) && Count(w'.won, k) == Count(w.won, k)
            && Count(w'.begun, k) == Count(w.begun, k) && Count(w'.takeovers, k) == Count(w.takeovers, k)
  {
    OtherRowsKept(strict, w, e, k);
    OtherCountsKept(strict, w, e, k);
  }

  lemma OtherRowsKept(strict: bool, w: World, e: Event, k: Key)
    requires !e.Start? && !e.Crash? && e.a in w.attempts && w.attempts[e.a].key != k
    ensures k in Next(strict, w, e).rows <==> k in w.rows
  {
    ActRows(strict, w, e, w.attempts[e.a].key, w.attempts[e.a].phase);
  }

  /** A step of an attempt writes no row but the one of its key. */
  lemma ActRows(strict: bool, w: World, e: Event, k: Key, phase: Phase)
    requires !e.Start? && e.a in w.attempts
    ensures var rows := Act(strict, w, e, k, phase).rows;
            rows == w.rows || (k in rows && rows == w.rows[k := rows[k]])
  {
    hide Bump, Count, Overwritten;
  }

  lemma OtherCountsKept(strict: bool, w: World, e: Event, k: Key)
    requires !e.Start? && !e.Crash? && e.a in w.attempts && w.attempts[e.a].key != k
    ensures Count(Next(strict, w, e).won, k) == Count(w.won, k)
    ensures Count(Next(strict, w, e).begun, k) == Count(w.begun, k)
    ensures Count(Next(strict, w, e).takeovers, k) == Count(w.takeovers, k)
  {
    StepCounts(strict, w, e);
  }

  /** Each counter stays as it is or goes up by one for the attempt's key. */
  lemma StepCounts(strict: bool, w: World, e: Event)
    requires !e.Start? && !e.Crash? && e.a in w.attempts
    ensures var w', k := Next(strict, w, e), w.attempts[e.a].key;
            && (w'.won == w.won || w'.won == Bump(w.won, k))
            && (w'.begun == w.begun || w'.begun == Bump(w.begun, k))
            && (w'.takeovers == w.takeovers || w'.takeovers == Bump(w.takeovers, k))
  {
    hide Bump, Count;
    ActCounts(strict, w, e, w.attempts[e.a].key, w.attempts[e.a].phase);
  }

  lemma ActCounts(strict: bool, w: World, e: Event, k: Key, phase: Phase)
    requires !e.Start? && e.a in w.attempts
    ensures var w' := Act(strict, w, e, k, phase);
            && (w'.won == w.won || w'.won == Bump(w.won, k))
            && (w'.begun == w.begun || w'.begun == Bump(w.begun, k))
            && (w'.takeovers == w.takeovers || w'.takeovers == Bump(w.takeovers, k))
  {
    hide Bump, Count, WriteBack, UpdateRefused, Commits;
  }

  /** An event concerns one attempt; the others stay as they are. */
  lemma OthersKept(strict: bool, w: World, e: Event, a: nat)
    requires if e.Start? then a != w.next else e.a != a
    ensures a in Next(strict, w, e).attempts <==> a in w.attempts
    ensures a in w.attempts ==> Next(strict, w, e).attempts[a] == w.attempts[a]
  {
    if !e.Start? && !e.Crash? && e.a in w.attempts {
      ActMoves(strict, w, e, w.attempts[e.a].key, w.attempts[e.a].phase);
      hide Act;
    }
  }

  /** A step moves its own attempt only, and keeps its key. */
  lemma ActMoves(strict: bool, w: World, e: Event, k: Key, phase: Phase)
    requires !e.Start? && e.a in w.attempts
    ensures var attempts := Act(strict, w, e, k, phase).attempts;
            && e.a in attempts && attempts[e.a].key == w.attempts[e.a].key
            && attempts == w.attempts[e.a := attempts[e.a]]
  {
    hide Bump, Count, WriteBack, UpdateRefused, Commits, Encode, Decode;
  }

  lemma NewAttempt(strict: bool, w: World, e: Event, a: nat)
    requires a in Next(strict, w, e).attempts && a !in w.attempts
    ensures e.Start? && a < Next(strict, w, e).next && Next(strict, w, e).attempts[a].phase.Arrived?
  {
    if !e.Start? && e.a != a { OthersKept(strict, w, e, a); }
  }

  lemma NumbersGrow(strict: bool, w: World, e: Event)
    ensures w.next <= Next(strict, w, e).next
  {
  }

  lemma AttemptNext(strict: bool, w: World, e: Event, a: nat)
    requires a in w.attempts ==> AttemptFits(w, a)
    requires a in Next(strict, w, e).attempts
    ensures AttemptFits(Next(strict, w, e), a)
  {
    if a !in w.attempts {
      hide Next;
      NewAttempt(strict, w, e, a);
    } else if e.Start? || e.a != a {
      hide Next;
      OthersKept(strict, w, e, a);
      NumbersGrow(strict, w, e);
      if w.attempts[a].key in w.rows { RowsStay(strict, w, e, w.attempts[a].key); }
    } else {
      OwnStepFits(strict, w, e);
    }
  }

  lemma OwnStepFits(strict: bool, w: World, e: Event)
    requires !e.Start? && !e.Crash? && e.a in w.attempts && AttemptFits(w, e.a)
    ensures e.a in Next(strict, w, e).attempts && AttemptFits(Next(strict, w, e), e.a)
  {
    if w.attempts[e.a].key in w.rows { RowsStay(strict, w, e, w.attempts[e.a].key); }
  }

  lemma InvNext(strict: bool, w: World, e: Event)
    requires Inv(w)
    ensures Inv(Next(strict, w, e))
  {
    forall k
      ensures CountsFit(Next(strict, w, e), k)
    {
      CountsNext(strict, w, e, k);
    }
    forall a | a in Next(strict, w, e).attempts
      ensures AttemptFits(Next(strict, w, e), a)
    {
      if a in w.attempts { assert AttemptFits(w, a); }
      AttemptNext(strict, w, e, a);
    }
    forall k | IsCompleted(Next(strict, w, e), k)
      ensures WellFormed(Next(strict, w, e).rows[k].record)
    {
      WellFormedNext(strict, w, e, k);
    }
  }

  /**
   What a step makes of a completed row: nothing, unless it is the write of a completion that had read a
   placeholder.
   */
  lemma RowNext(strict: bool, w: World, e: Event, k: Key)
    requires IsCompleted(Next(strict, w, e), k)
    requires !e.Start? && e.a in w.attempts ==> AttemptFits(w, e.a)
    ensures || (IsCompleted(w, k) && Next(strict, w, e).rows[k] == w.rows[k])
            || (e.Write? && UpdatesFrom(w, e.a, k) && !UpdateRefused(strict, w.rows, k, w.attempts[e.a].phase.seen) &&
                Next(strict, w, e).rows[k] == Completed(Overwritten(k, w.rows[k], Encode(w.attempts[e.a].phase.obs))) &&
                (k, Encode(w.attempts[e.a].phase.obs)) in Next(strict, w, e).committed)
  {
  }

  /** The attempt is about to write a result of `k` over what it took for a placeholder. */
  predicate UpdatesFrom(w: World, a: nat, k: Key) {
    && a in w.attempts && w.attempts[a].key == k && k in w.rows
    && w.attempts[a].phase.Writing? && w.attempts[a].phase.seen == Some(InFlight)
  }

  lemma WellFormedNext(strict: bool, w: World, e: Event, k: Key)
    requires Inv(w) && IsCompleted(Next(strict, w, e), k)
    ensures WellFormed(Next(strict, w, e).rows[k].record)
  {
    RowNext(strict, w, e, k);
    if IsCompleted(w, k) { assert WellFormed(w.rows[k].record); }
  }

  /** Only a won claim or a takeover makes an attempt busy. */
  lemma BusyNext(strict: bool, w: World, e: Event, a: nat, k: Key)
    requires BusyWith(Next(strict, w, e), a, k)
    ensures || BusyWith(w, a, k)
            || (k !in w.rows && e == Insert(a))
            || Count(Next(strict, w, e).takeovers, k) > Count(w.takeovers, k)
  {
    if !e.Start? && e.a in w.attempts && !e.Crash? {
      if e.a == a { BusyOwnStep(strict, w, e); } else { OthersKept(strict, w, e, a); }
    }
  }

  lemma BusyOwnStep(strict: bool, w: World, e: Event)
    requires !e.Start? && !e.Crash? && e.a in w.attempts
    ensures var w', k := Next(strict, w, e), w.attempts[e.a].key;
            && e.a in w'.attempts && w'.attempts[e.a].key == k
            && (BusyWith(w', e.a, k) && !BusyWith(w, e.a, k) ==>
                  (e.Insert? && k !in w.rows) || Count(w'.takeovers, k) > Count(w.takeovers, k))
  {
    var k, phase := w.attempts[e.a].key, w.attempts[e.a].phase;
    ActMoves(strict, w, e, k, phase);
    ActBusy(strict, w, e, k, phase);
    hide Act;
  }

  lemma ActBusy(strict: bool, w: World, e: Event, k: Key, phase: Phase)
    requires !e.Start? && e.a in w.attempts && w.attempts[e.a] == Attempt(k, phase)
    ensures var w' := Act(strict, w, e, k, phase);
            e.a in w'.attempts && (BusyPhase(w'.attempts[e.a].phase) && !BusyPhase(phase) ==>
              (e.Insert? && k !in w.rows) || w'.takeovers == Bump(w.takeovers, k))
  {
    hide Bump, Count, WriteBack, UpdateRefused, Commits, Encode, Decode;
  }

  lemma BusyNeedsRow(w: World, a: nat, k: Key)
    requires Inv(w) && BusyWith(w, a, k)
    ensures k in w.rows
  {
    assert AttemptFits(w, a);
  }

  /** Only a busy attempt completes a row, and it is not busy afterwards. */
  lemma CompletionNext(strict: bool, w: World, e: Event, k: Key)
    requires !IsCompleted(w, k) && IsCompleted(Next(strict, w, e), k)
    ensures e.Write? && BusyWith(w, e.a, k) && !BusyWith(Next(strict, w, e), e.a, k)
  {
  }

  lemma SoloNext(strict: bool, w: World, e: Event, k: Key)
    requires Inv(w) && Solo(w, k)
    ensures Solo(Next(strict, w, e), k)
  {
    var w' := Next(strict, w, e);
    CountsNext(strict, w, e, k);
    if Count(w'.takeovers, k) == 0 {
      forall a, b | BusyWith(w', a, k) && BusyWith(w', b, k)
        ensures a == b
      {
        BusyNext(strict, w, e, a, k);
        BusyNext(strict, w, e, b, k);
        if BusyWith(w, a, k) { BusyNeedsRow(w, a, k); }
        if BusyWith(w, b, k) { BusyNeedsRow(w, b, k); }
      }
      if IsCompleted(w', k) {
        forall a
          ensures !BusyWith(w', a, k)
        {
          if BusyWith(w', a, k) {
            BusyNext(strict, w, e, a, k);
            if !IsCompleted(w, k) { CompletionNext(strict, w, e, k); }
          }
        }
      }
    }
  }

  lemma {:induction false} RunKeepsInv(strict: bool, w: World, events: seq<Event>, k: Key)
    requires Inv(w) && Solo(w, k)
    ensures Inv(Run(strict, w, events)) && Solo(Run(strict, w, events), k)
    decreases |events|
  {
    if events != [] {
      InvNext(strict, w, events[0]);
      SoloNext(strict, w, events[0], k);
      RunKeepsInv(strict, Next(strict, w, events[0]), events[1..], k);
    }
  }

  /** For every key, over every interleaving: one claim wins at most, and executions are 1 + takeovers at most. */
  lemma ClaimsAndExecutionsBounded(strict: bool, events: seq<Event>, k: Key)
    ensures var w := Run(strict, EMPTY, events);
            && Count(w.won, k) <= 1
            && (Count(w.won, k) == 1 <==> k in w.rows)
            && Count(w.begun, k) <= 1 + Count(w.takeovers, k)
  {
    RunKeepsInv(strict, EMPTY, events, k);
    assert CountsFit(Run(strict, EMPTY, events), k);
  }

  // ---------- completed rows ----------

  /** What of a row is looked at: every column, or only what a replay hands out. */
  datatype Aspect = WholeRow | HandedOver

  predicate Agree(v: Aspect, r: Record, s: Record) {
    if v.WholeRow? then r == s else Decode(r) == Decode(s)
  }

  /** Would this completion, if it took the row for a placeholder, leave what is looked at as it is? */
  predicate Harmless(v: Aspect, k: Key, stored: Record, update: Record) {
    Agree(v, Overwritten(k, Completed(stored), update), stored)
  }

  /** Nobody is about to write a different result over the completed row in the belief that it is a placeholder. */
  ghost predicate NoStaleWriter(v: Aspect, w: World, k: Key)
    requires IsCompleted(w, k)
  {
    forall a :: UpdatesFrom(w, a, k) ==> Harmless(v, k, w.rows[k].record, Encode(w.attempts[a].phase.obs))
  }

  lemma HarmlessTransfers(v: Aspect, k: Key, r: Record, s: Record, update: Record)
    requires WellFormed(r) && WellFormed(s) && WellFormed(update) && Agree(v, r, s) && Harmless(v, k, r, update)
    ensures Harmless(v, k, s, update)
  {
  }

  lemma CompletedStays(strict: bool, w: World, e: Event, k: Key)
    requires IsCompleted(w, k)
    ensures IsCompleted(Next(strict, w, e), k)
  {
  }

  /** A completion that reads a completed row does not take it for a placeholder. */
  lemma StaleWritersRemain(strict: bool, w: World, e: Event, k: Key, a: nat)
    requires IsCompleted(w, k) && UpdatesFrom(Next(strict, w, e), a, k)
    ensures UpdatesFrom(w, a, k) && Next(strict, w, e).attempts[a] == w.attempts[a]
  {
    if e.Start? { assert a != w.next; }
    if (e.Start? && a != w.next) || (!e.Start? && e.a != a) { OthersKept(strict, w, e, a); }
  }

  lemma StableNext(strict: bool, v: Aspect, w: World, e: Event, k: Key)
    requires Inv(w) && IsCompleted(w, k) && (strict || NoStaleWriter(v, w, k))
    ensures var w' := Next(strict, w, e);
            && IsCompleted(w', k) && Agree(v, w'.rows[k].record, w.rows[k].record)
            && (strict || NoStaleWriter(v, w', k))
  {
    var w' := Next(strict, w, e);
    CompletedStays(strict, w, e, k);
    if !e.Start? && e.a in w.attempts { assert AttemptFits(w, e.a); }
    RowNext(strict, w, e, k);
    WellFormedNext(strict, w, e, k);
    forall a | !strict && UpdatesFrom(w', a, k)
      ensures Harmless(v, k, w'.rows[k].record, Encode(w'.attempts[a].phase.obs))
    {
      StaleWritersRemain(strict, w, e, k, a);
      HarmlessTransfers(v, k, w.rows[k].record, w'.rows[k].record, Encode(w.attempts[a].phase.obs));
    }
  }

  lemma {:induction false} StableRun(strict: bool, v: Aspect, w: World, events: seq<Event>, k: Key)
    requires Inv(w) && IsCompleted(w, k) && (strict || NoStaleWriter(v, w, k))
    ensures KeptAfter(strict, v, w, k, events)
    decreases |events|
  {
    if events != [] {
      StableNext(strict, v, w, events[0], k);
      InvNext(strict, w, events[0]);
      StableRun(strict, v, Next(strict, w, events[0]), events[1..], k);
    }
  }

  /** After these events the row of `k` is still completed and looks the same. */
  predicate KeptAfter(strict: bool, v: Aspect, w: World, k: Key, events: seq<Event>)
    requires IsCompleted(w, k)
  {
    var later := Run(strict, w, events);
    IsCompleted(later, k) && Agree(v, later.rows[k].record, w.rows[k].record)
  }

  /** The database protects completed rows, or there is nobody to protect them from. */
  ghost predicate Protected(strict: bool, v: Aspect, w: World, k: Key)
    requires IsCompleted(w, k)
  {
    strict || NoStaleWriter(v, w, k)
  }

  /**
   The exact condition for a completed row to keep its contents, or what a replay hands out, in every continuation:
   the database detects lost updates, or no completion that still takes the row for a placeholder would change it.
   */
  lemma CompletedRowsStayExactlyWhen(strict: bool, v: Aspect, before: seq<Event>, k: Key)
    requires IsCompleted(Run(strict, EMPTY, before), k)
    ensures var w := Run(strict, EMPTY, before);
            (forall after: seq<Event> :: KeptAfter(strict, v, w, k, after)) <==> Protected(strict, v, w, k)
  {
    RunKeepsInv(strict, EMPTY, before, k);
    var w := Run(strict, EMPTY, before);
    if Protected(strict, v, w, k) {
      forall after: seq<Event> ensures KeptAfter(strict, v, w, k, after) { StableRun(strict, v, w, after, k); }
    } else {
      var a :| UpdatesFrom(w, a, k) && !Harmless(v, k, w.rows[k].record, Encode(w.attempts[a].phase.obs));
      assert [Write(a)][1..] == [];
      assert Run(strict, w, [Write(a)]) == Next(strict, w, Write(a));
      assert !KeptAfter(strict, v, w, k, [Write(a)]);
    }
  }

  /** Without a take-over so far, nobody is left to overwrite a completed row. */
  lemma UntakenRowsAreProtected(strict: bool, v: Aspect, before: seq<Event>, k: Key)
    requires IsCompleted(Run(strict, EMPTY, before), k) && Count(Run(strict, EMPTY, before).takeovers, k) == 0
    ensures Protected(strict, v, Run(strict, EMPTY, before), k)
  {
    RunKeepsInv(strict, EMPTY, before, k);
    var w := Run(strict, EMPTY, before);
    assert forall a :: UpdatesFrom(w, a, k) ==> BusyWith(w, a, k);
  }

  lemma {:induction false} RunAppend(strict: bool, w: World, a: seq<Event>, b: seq<Event>)
    ensures Run(strict, w, a + b) == Run(strict, Run(strict, w, a), b)
    decreases |a|
  {
    if a == [] {
      assert a + b == b;
    } else {
      RunAppend(strict, Next(strict, w, a[0]), a[1..], b);
      assert (a + b)[1..] == a[1..] + b;
    }
  }

  /** Two completions read the placeholder before either writes: on a database that is not strict both take effect. */
  function TakeoverRace(k: Key, first: Observation, second: Observation): (events: seq<Event>) {
    [Start(k), Insert(0), Start(k), Insert(1)] + [ReadConflict(1), TakeOver(1)] +
    [Ran(0, first), Ran(1, second)] + ([ReadRow(0), ReadRow(1)] + [Write(0)])
  }

  /**
   The input on which the condition fails. A second success replaces the outcome; a second failure after a success
   leaves a row that is marked as a success, holds the first result and the second error.
   */
  lemma TakeoverCanOverwrite(k: Key, first: Observation, second: Observation)
    ensures var w := Run(false, EMPTY, TakeoverRace(k, first, second));
            var mixed := Overwritten(k, Completed(Encode(first)), Encode(second));
            && w.rows == map[k := Completed(Encode(first))]
            && Next(false, w, Write(1)).rows == map[k := Completed(mixed)]
            && (second.Success? ==> mixed.ok && mixed.result == Some(second.result))
            && (first.Success? && second.Failure? ==>
                  mixed.ok && mixed.result == Some(first.result) && mixed.error == second.error)
            && Count(w.takeovers, k) == 1
  {
    var rows := map[k := InFlight];
    RaceClaim(k);
    RaceTake(k);
    RaceWork(k, first, second);
    RaceCommit(k, first, second);
    RunFour([Start(k), Insert(0), Start(k), Insert(1)], [ReadConflict(1), TakeOver(1)],
            [Ran(0, first), Ran(1, second)], [ReadRow(0), ReadRow(1)] + [Write(0)],
            RaceWorld(rows, Attempt(k, Executing), Attempt(k, Conflicted), k, false),
            RaceWorld(rows, Attempt(k, Executing), Attempt(k, Executing), k, true),
            RaceWorld(rows, Attempt(k, Completing(first)), Attempt(k, Completing(second)), k, true));
  }

  lemma RunFour(a: seq<Event>, b: seq<Event>, c: seq<Event>, d: seq<Event>, w1: World, w2: World, w3: World)
    requires Run(false, EMPTY, a) == w1 && Run(false, w1, b) == w2 && Run(false, w2, c) == w3
    ensures Run(false, EMPTY, a + b + c + d) == Run(false, w3, d)
  {
    RunAppend(false, EMPTY, a, b);
    RunAppend(false, EMPTY, a + b, c);
    RunAppend(false, EMPTY, a + b + c, d);
  }

  /** The world of two attempts at `k`, the first of which won the claim. */
  function RaceWorld(rows: Rows, zero: Attempt, one: Attempt, k: Key, taken: bool): (w: World) {
    World(rows, map[0 := zero, 1 := one], 2, map[k := 1],
          if taken then map[k := 1] else map[], map[k := if taken then 2 else 1], {})
  }

  lemma RaceClaim(k: Key)
    ensures Run(false, EMPTY, [Start(k), Insert(0), Start(k), Insert(1)]) ==
            RaceWorld(map[k := InFlight], Attempt(k, Executing), Attempt(k, Conflicted), k, false)
  {
    var s1 := Next(false, EMPTY, Start(k));
    assert s1.attempts == map[0 := Attempt(k, Arrived)];
    var s2 := Next(false, s1, Insert(0));
    assert s2.attempts == map[0 := Attempt(k, Executing)] && s2.won == map[k := 1] && s2.begun == map[k := 1];
    var s3 := Next(false, s2, Start(k));
    var s4 := Next(false, s3, Insert(1));
    assert s4.attempts == map[0 := Attempt(k, Executing), 1 := Attempt(k, Conflicted)];
    RunTwo(EMPTY, Start(k), Insert(0), [Start(k), Insert(1)]);
    RunTwo(s2, Start(k), Insert(1), []);
    assert [Start(k), Insert(0), Start(k), Insert(1)] == [Start(k), Insert(0)] + [Start(k), Insert(1)];
    assert [Start(k), Insert(1)] == [Start(k), Insert(1)] + [];
  }

  lemma RaceTake(k: Key)
    ensures Run(false, RaceWorld(map[k := InFlight], Attempt(k, Executing), Attempt(k, Conflicted), k, false),
                [ReadConflict(1), TakeOver(1)]) ==
            RaceWorld(map[k := InFlight], Attempt(k, Executing), Attempt(k, Executing), k, true)
  {
    var w := RaceWorld(map[k := InFlight], Attempt(k, Executing), Attempt(k, Conflicted), k, false);
    var s1 := Next(false, w, ReadConflict(1));
    assert s1 == RaceWorld(map[k := InFlight], Attempt(k, Executing), Attempt(k, Waiting), k, false);
    RunTwo(w, ReadConflict(1), TakeOver(1), []);
  }

  lemma RaceWork(k: Key, first: Observation, second: Observation)
    ensures Run(false, RaceWorld(map[k := InFlight], Attempt(k, Executing), Attempt(k, Executing), k, true),
                [Ran(0, first), Ran(1, second)]) ==
            RaceWorld(map[k := InFlight], Attempt(k, Completing(first)), Attempt(k, Completing(second)), k, true)
  {
    var w := RaceWorld(map[k := InFlight], Attempt(k, Executing), Attempt(k, Executing), k, true);
    assert Next(false, w, Ran(0, first)) ==
           RaceWorld(map[k := InFlight], Attempt(k, Completing(first)), Attempt(k, Executing), k, true);
    assert Next(false, RaceWorld(map[k := InFlight], Attempt(k, Completing(first)), Attempt(k, Executing), k, true),
                Ran(1, second)) ==
           RaceWorld(map[k := InFlight], Attempt(k, Completing(first)), Attempt(k, Completing(second)), k, true);
    RunTwo(w, Ran(0, first), Ran(1, second), []);
    assert [Ran(0, first), Ran(1, second)] == [Ran(0, first), Ran(1, second)] + [];
  }

  lemma RaceCommit(k: Key, first: Observation, second: Observation)
    ensures var w := Run(false, RaceWorld(map[k := InFlight], Attempt(k, Completing(first)),
                                          Attempt(k, Completing(second)), k, true),
                         [ReadRow(0), ReadRow(1)] + [Write(0)]);
            var mixed := Overwritten(k, Completed(Encode(first)), Encode(second));
            && w.rows == map[k := Completed(Encode(first))]
            && Next(false, w, Write(1)).rows == map[k := Completed(mixed)]
            && Count(w.takeovers, k) == 1
  {
    hide Next;
    var seen, rows := Some(InFlight), map[k := InFlight];
    var w := RaceWorld(rows, Attempt(k, Completing(first)), Attempt(k, Completing(second)), k, true);
    var s2 := RaceWorld(rows, Attempt(k, Writing(first, seen)), Attempt(k, Writing(second, seen)), k, true);
    RaceReads(k, first, second);
    RunTwo(w, ReadRow(0), ReadRow(1), [Write(0)]);
    RaceWrites(k, first, second);
    assert Run(false, s2, [Write(0)]) == Next(false, s2, Write(0)) by { assert [Write(0)][1..] == []; }
  }

  lemma RaceReads(k: Key, first: Observation, second: Observation)
    ensures var rows, seen := map[k := InFlight], Some(InFlight);
            var w := RaceWorld(rows, Attempt(k, Completing(first)), Attempt(k, Completing(second)), k, true);
            Next(false, Next(false, w, ReadRow(0)), ReadRow(1)) ==
            RaceWorld(rows, Attempt(k, Writing(first, seen)), Attempt(k, Writing(second, seen)), k, true)
  {
    hide Next;
    var rows := map[k := InFlight];
    var w := RaceWorld(rows, Attempt(k, Completing(first)), Attempt(k, Completing(second)), k, true);
    RaceRead(w, 0, k, first);
    RaceRead(Next(false, w, ReadRow(0)), 1, k, second);
  }

  lemma RaceRead(w: World, a: nat, k: Key, obs: Observation)
    requires a in w.attempts && w.attempts[a] == Attempt(k, Completing(obs)) && w.rows == map[k := InFlight]
    ensures Next(false, w, ReadRow(a)) == w.(attempts := w.attempts[a := Attempt(k, Writing(obs, Some(InFlight)))])
  {
  }

  lemma RaceWrites(k: Key, first: Observation, second: Observation)
    ensures var seen := Some(InFlight);
            var w := Next(false, RaceWorld(map[k := InFlight], Attempt(k, Writing(first, seen)),
                                           Attempt(k, Writing(second, seen)), k, true), Write(0));
            var mixed := Overwritten(k, Completed(Encode(first)), Encode(second));
            && w.rows == map[k := Completed(Encode(first))]
            && Next(false, w, Write(1)).rows == map[k := Completed(mixed)]
            && Count(w.takeovers, k) == 1
  {
    var seen := Some(InFlight);
    var zero, one := Attempt(k, Writing(first, seen)), Attempt(k, Writing(second, seen));
    var w := RaceWorld(map[k := InFlight], zero, one, k, true);
    PlaceholderFilled(k, first);
    RaceWrite(w, 0, k, first, map[k := InFlight]);
    RaceWrite(Next(false, w, Write(0)), 1, k, second, map[k := Completed(Encode(first))]);
  }

  lemma RaceWrite(w: World, a: nat, k: Key, obs: Observation, rows: Rows)
    requires a in w.attempts && w.attempts[a] == Attempt(k, Writing(obs, Some(InFlight)))
    requires w.rows == rows && rows.Keys == {k}
    ensures var w' := Next(false, w, Write(a));
            && w'.rows == map[k := Completed(Overwritten(k, rows[k], Encode(obs)))] && w'.takeovers == w.takeovers
            && w'.attempts == w.attempts[a := Attempt(k, Finished(obs, false))]
  {
    var row := Completed(Overwritten(k, rows[k], Encode(obs)));
    assert rows[k := row] == map[k := row];
  }

  lemma RunTwo(w: World, a: Event, b: Event, rest: seq<Event>)
    ensures Run(false, w, [a, b] + rest) == Run(false, Next(false, Next(false, w, a), b), rest)
  {
    var all := [a, b] + rest;
    assert all[1..] == [b] + rest && ([b] + rest)[1..] == rest;
  }

  // ---------- replaying ----------

  /** An attempt that met the completed row of its key: it reads it, or has handed it out. */
  ghost predicate OnlyReplays(w: World, a: nat) {
    a in w.attempts ==>
      || w.attempts[a].phase.Arrived? || w.attempts[a].phase.Conflicted?
      || (w.attempts[a].phase.Finished? && w.attempts[a].phase.replayed)
  }

  /** The finished replay handed out exactly `record`. */
  ghost predicate ReplaysAs(w: World, a: nat, record: Record) {
    OnlyReplays(w, a) &&
    (a in w.attempts && w.attempts[a].phase.Finished? ==> w.attempts[a].phase.obs == Decode(record))
  }

  lemma ReplayStep(strict: bool, w: World, e: Event, k: Key, a: nat)
    requires IsCompleted(w, k) && a < w.next
    requires OnlyReplays(w, a) && (a in w.attempts ==> w.attempts[a].key == k)
    ensures a < Next(strict, w, e).next && OnlyReplays(Next(strict, w, e), a)
    ensures a in Next(strict, w, e).attempts ==> Next(strict, w, e).attempts[a].key == k
    ensures ReplaysAs(w, a, w.rows[k].record) ==> ReplaysAs(Next(strict, w, e), a, w.rows[k].record)
  {
    if a in w.attempts && (e.Start? || e.a != a) {
      OthersKept(strict, w, e, a);
    } else if a in w.attempts && !e.Crash? {
      ReplayOwnStep(strict, w, e, k);
    }
  }

  lemma ReplayOwnStep(strict: bool, w: World, e: Event, k: Key)
    requires !e.Start? && !e.Crash? && e.a in w.attempts && w.attempts[e.a].key == k
    requires IsCompleted(w, k) && OnlyReplays(w, e.a)
    ensures var w', p := Next(strict, w, e), w.attempts[e.a].phase;
            w'.next == w.next && e.a in w'.attempts && w'.attempts[e.a].key == k &&
            (w'.attempts[e.a].phase == p || w'.attempts[e.a].phase == Conflicted ||
             w'.attempts[e.a].phase == Finished(Decode(w.rows[k].record), true))
  {
  }

  lemma {:induction false} ReplayRun(strict: bool, w: World, events: seq<Event>, k: Key, a: nat, record: Record)
    requires Inv(w) && IsCompleted(w, k) && a < w.next
    requires OnlyReplays(w, a) && (a in w.attempts ==> w.attempts[a].key == k)
    ensures OnlyReplays(Run(strict, w, events), a)
    ensures Protected(strict, HandedOver, w, k) && Decode(w.rows[k].record) == Decode(record) ==>
              ReplaysAs(w, a, record) ==> ReplaysAs(Run(strict, w, events), a, record)
    decreases |events|
  {
    if events != [] {
      var w' := Next(strict, w, events[0]);
      ReplayStep(strict, w, events[0], k, a);
      CompletedStays(strict, w, events[0], k);
      InvNext(strict, w, events[0]);
      if Protected(strict, HandedOver, w, k) { StableNext(strict, HandedOver, w, events[0], k); }
      ReplayRun(strict, w', events[1..], k, a, record);
    }
  }

  /**
   An attempt that starts after its key was completed never executes, whatever happens afterwards; and if the row
   is protected it hands out the stored outcome, in every continuation.
   */
  lemma LateAttemptsReplay(strict: bool, before: seq<Event>, after: seq<Event>, k: Key)
    requires IsCompleted(Run(strict, EMPTY, before), k)
    ensures var w := Run(strict, EMPTY, before);
            var later := Run(strict, w, [Start(k)] + after);
            && OnlyReplays(later, w.next)
            && (Protected(strict, HandedOver, w, k) ==> ReplaysAs(later, w.next, w.rows[k].record))
  {
    RunKeepsInv(strict, EMPTY, before, k);
    var w := Run(strict, EMPTY, before);
    var started := Next(strict, w, Start(k));
    InvNext(strict, w, Start(k));
    CompletedStays(strict, w, Start(k), k);
    if Protected(strict, HandedOver, w, k) { StableNext(strict, HandedOver, w, Start(k), k); }
    ReplayRun(strict, started, after, k, w.next, w.rows[k].record);
    assert ([Start(k)] + after)[1..] == after;
  }

  /** The late attempt hands out nothing but `record`, as far as these events go. */
  ghost predicate HandsOut(strict: bool, w: World, k: Key, record: Record, after: seq<Event>) {
    ReplaysAs(Run(strict, w, [Start(k)] + after), w.next, record)
  }

  /**
   The condition is exact: a late attempt hands out the stored outcome in every continuation if and only if the row
   is protected.
   */
  lemma LateAttemptsShowExactlyWhen(strict: bool, before: seq<Event>, k: Key)
    requires IsCompleted(Run(strict, EMPTY, before), k)
    ensures var w := Run(strict, EMPTY, before);
            (forall after: seq<Event> :: HandsOut(strict, w, k, w.rows[k].record, after)) <==>
            Protected(strict, HandedOver, w, k)
  {
    var w := Run(strict, EMPTY, before);
    if Protected(strict, HandedOver, w, k) {
      forall after: seq<Event>
        ensures HandsOut(strict, w, k, w.rows[k].record, after)
      {
        LateAttemptsReplay(strict, before, after, k);
      }
    } else {
      var a :| UpdatesFrom(w, a, k) && !Harmless(HandedOver, k, w.rows[k].record, Encode(w.attempts[a].phase.obs));
      RunKeepsInv(strict, EMPTY, before, k);
      assert AttemptFits(w, a);
      StaleWriteIsShown(w, k, a);
    }
  }

  /** The stale completion writes, and then the late attempt looks. */
  lemma StaleWriteIsShown(w: World, k: Key, a: nat)
    requires IsCompleted(w, k) && UpdatesFrom(w, a, k) && a < w.next
    requires !Harmless(HandedOver, k, w.rows[k].record, Encode(w.attempts[a].phase.obs))
    ensures !HandsOut(false, w, k, w.rows[k].record, [Write(a), Insert(w.next), ReadConflict(w.next)])
  {
    hide Next;
    var b := w.next;
    var w1 := Next(false, w, Start(k));
    var w2 := Next(false, w1, Write(a));
    var w3 := Next(false, w2, Insert(b));
    var w4 := Next(false, w3, ReadConflict(b));
    StaleWriteStep(w, k, a);
    LateLook(w2, k, b);
    RunTwo(w, Start(k), Write(a), [Insert(b), ReadConflict(b)]);
    RunTwo(w2, Insert(b), ReadConflict(b), []);
    assert [Start(k)] + [Write(a), Insert(b), ReadConflict(b)] == [Start(k), Write(a)] + [Insert(b), ReadConflict(b)];
    assert [Insert(b), ReadConflict(b)] == [Insert(b), ReadConflict(b)] + [];
  }

  lemma StaleWriteStep(w: World, k: Key, a: nat)
    requires IsCompleted(w, k) && UpdatesFrom(w, a, k) && a < w.next
    ensures var w2 := Next(false, Next(false, w, Start(k)), Write(a));
            && w.next in w2.attempts && w2.attempts[w.next] == Attempt(k, Arrived) && k in w2.rows
            && w2.rows[k] == Completed(Overwritten(k, w.rows[k], Encode(w.attempts[a].phase.obs)))
  {
  }

  lemma LateLook(w: World, k: Key, b: nat)
    requires b in w.attempts && w.attempts[b] == Attempt(k, Arrived) && IsCompleted(w, k)
    ensures var w' := Next(false, Next(false, w, Insert(b)), ReadConflict(b));
            b in w'.attempts && w'.attempts[b] == Attempt(k, Finished(Decode(w.rows[k].record), true))
  {
  }

  // ---------- placeholders ----------

  /** Both report the same result, or the same error of the same kind. */
  predicate SameOutcome(a: Observation, b: Observation) {
    if a.Success? then b.Success? && a.result == b.result
    else b.Failure? && a.error == b.error && a.errorType == b.errorType
  }

  /** Completed rows hold committed outcomes, and replays hand out committed outcomes. */
  ghost predicate Genuine(w: World) {
    && (forall k :: IsCompleted(w, k) ==> HandedOut(w, k, Decode(w.rows[k].record)))
    && (forall a :: a in w.attempts && w.attempts[a].phase.Finished? && w.attempts[a].phase.replayed ==>
          HandedOut(w, w.attempts[a].key, w.attempts[a].phase.obs))
    && (forall k, r :: (k, r) in w.committed ==> Count(w.begun, k) >= 1)
  }

  ghost predicate HandedOut(w: World, k: Key, obs: Observation) {
    exists r :: (k, r) in w.committed && SameOutcome(obs, Decode(r))
  }

  lemma HandedOutStays(strict: bool, w: World, e: Event, k: Key, obs: Observation)
    requires HandedOut(w, k, obs)
    ensures HandedOut(Next(strict, w, e), k, obs)
  {
    var r :| (k, r) in w.committed && SameOutcome(obs, Decode(r));
    assert (k, r) in Next(strict, w, e).committed;
  }

  /** An attempt turns into a replay by reading the completed row of its key. */
  lemma ReplayReadsCompletedRow(strict: bool, w: World, e: Event)
    requires !e.Start? && !e.Crash? && e.a in w.attempts && !w.attempts[e.a].phase.Finished?
    requires e.a in Next(strict, w, e).attempts
    requires var p := Next(strict, w, e).attempts[e.a].phase; p.Finished? && p.replayed
    ensures IsCompleted(w, w.attempts[e.a].key)
    ensures Next(strict, w, e).attempts[e.a] ==
            Attempt(w.attempts[e.a].key, Finished(Decode(w.rows[w.attempts[e.a].key].record), true))
    ensures Next(strict, w, e).committed == w.committed
  {
  }

  lemma FinishedStays(strict: bool, w: World, e: Event, a: nat)
    requires a in w.attempts && w.attempts[a].phase.Finished? && a < w.next && a in Next(strict, w, e).attempts
    ensures Next(strict, w, e).attempts[a] == w.attempts[a]
  {
  }

  lemma ReplayGenuine(strict: bool, w: World, e: Event, a: nat)
    requires Genuine(w) && Inv(w)
    requires a in Next(strict, w, e).attempts
    requires var p := Next(strict, w, e).attempts[a].phase; p.Finished? && p.replayed
    ensures HandedOut(Next(strict, w, e), Next(strict, w, e).attempts[a].key, Next(strict, w, e).attempts[a].phase.obs)
  {
    assert a in w.attempts;
    assert AttemptFits(w, a);
    if w.attempts[a].phase.Finished? {
      FinishedStays(strict, w, e, a);
      HandedOutStays(strict, w, e, w.attempts[a].key, w.attempts[a].phase.obs);
    } else {
      if e.Start? || e.a != a { OthersKept(strict, w, e, a); }
      ReplayReadsCompletedRow(strict, w, e);
      var k := w.attempts[a].key;
      HandedOutStays(strict, w, e, k, Decode(w.rows[k].record));
    }
  }

  /** Whatever columns an update leaves alone, the outcome is that of the row before or that of the update. */
  lemma OverwrittenOutcome(k: Key, row: Row, obs: Observation)
    requires row.Completed? ==> WellFormed(row.record)
    ensures var after := Decode(Overwritten(k, row, Encode(obs)));
            SameOutcome(after, Decode(Encode(obs))) || (row.Completed? && SameOutcome(after, Decode(row.record)))
  {
  }

  lemma RowGenuine(strict: bool, w: World, e: Event, k: Key)
    requires Genuine(w) && Inv(w) && IsCompleted(Next(strict, w, e), k)
    ensures HandedOut(Next(strict, w, e), k, Decode(Next(strict, w, e).rows[k].record))
  {
    if !e.Start? && e.a in w.attempts { assert AttemptFits(w, e.a); }
    RowNext(strict, w, e, k);
    if IsCompleted(w, k) {
      assert WellFormed(w.rows[k].record);
      HandedOutStays(strict, w, e, k, Decode(w.rows[k].record));
    }
    if e.Write? && UpdatesFrom(w, e.a, k) { OverwrittenOutcome(k, w.rows[k], w.attempts[e.a].phase.obs); }
  }

  lemma BegunGrows(strict: bool, w: World, e: Event, k: Key)
    ensures Count(w.begun, k) <= Count(Next(strict, w, e).begun, k)
  {
  }

  /** A result is committed by an attempt past the insert, so the row of its key exists. */
  lemma CommitNeedsRow(strict: bool, w: World, e: Event, k: Key, r: Record)
    requires (k, r) in Next(strict, w, e).committed && (k, r) !in w.committed
    ensures !e.Start? && !e.Crash? && e.a in w.attempts && w.attempts[e.a].key == k && w.attempts[e.a].phase.Writing?
  {
  }

  lemma CommittedNeedsExecution(strict: bool, w: World, e: Event, k: Key, r: Record)
    requires (k, r) in w.committed ==> Count(w.begun, k) >= 1
    requires !e.Start? && e.a in w.attempts ==> AttemptFits(w, e.a)
    requires CountsFit(Next(strict, w, e), k) && (k, r) in Next(strict, w, e).committed
    ensures Count(Next(strict, w, e).begun, k) >= 1
  {
    if (k, r) in w.committed {
      BegunGrows(strict, w, e, k);
    } else {
      CommitNeedsRow(strict, w, e, k, r);
      RowsStay(strict, w, e, k);
    }
  }

  lemma {:induction false} RunGenuine(strict: bool, w: World, events: seq<Event>)
    requires Inv(w) && Genuine(w)
    ensures Genuine(Run(strict, w, events))
    decreases |events|
  {
    if events != [] {
      var w' := Next(strict, w, events[0]);
      forall k | IsCompleted(w', k)
        ensures HandedOut(w', k, Decode(w'.rows[k].record))
      {
        RowGenuine(strict, w, events[0], k);
      }
      forall a | a in w'.attempts && w'.attempts[a].phase.Finished? && w'.attempts[a].phase.replayed
        ensures HandedOut(w', w'.attempts[a].key, w'.attempts[a].phase.obs)
      {
        ReplayGenuine(strict, w, events[0], a);
      }
      InvNext(strict, w, events[0]);
      forall k, r | (k, r) in w'.committed
        ensures Count(w'.begun, k) >= 1
      {
        assert CountsFit(w', k);
        CommittedNeedsExecution(strict, w, events[0], k, r);
      }
      RunGenuine(strict, w', events[1..]);
    }
  }

  /**
   A placeholder is never handed out: every replay, in every interleaving, shows the outcome that some execution
   committed.
   */
  lemma ReplaysAreCommittedResults(strict: bool, events: seq<Event>, a: nat)
    requires a in Run(strict, EMPTY, events).attempts
    requires var p := Run(strict, EMPTY, events).attempts[a].phase; p.Finished? && p.replayed
    ensures var w := Run(strict, EMPTY, events);
            HandedOut(w, w.attempts[a].key, w.attempts[a].phase.obs) && Count(w.begun, w.attempts[a].key) >= 1
  {
    RunGenuine(strict, EMPTY, events);
    var w := Run(strict, EMPTY, events);
    var r :| (w.attempts[a].key, r) in w.committed && SameOutcome(w.attempts[a].phase.obs, Decode(r));
  }

  // ---------- calls do not share results ----------

  /** These events start no attempt at this call of this round. */
  ghost predicate StartsOthersOnly(events: seq<Event>, task: string, round: nat, call: Call) {
    forall i :: 0 <= i < |events| && events[i].Start? ==> OfAnotherCall(events[i].key, task, round, call)
  }

  /** The key of some other call, or of the same call in another round. */
  ghost predicate OfAnotherCall(k: Key, task: string, round: nat, call: Call) {
    exists task', round': nat, call' ::
      k == KeyOf(task', round', call') && !(task' == task && round' == round && call' == call)
  }

  /** No attempt at `k` and no row of it. */
  ghost predicate Untouched(w: World, k: Key) {
    k !in w.rows && forall a :: a in w.attempts ==> w.attempts[a].key != k
  }

  lemma UntouchedNext(strict: bool, w: World, e: Event, k: Key)
    requires Untouched(w, k) && (e.Start? ==> e.key != k)
    ensures Untouched(Next(strict, w, e), k)
  {
    if !e.Start? && !e.Crash? && e.a in w.attempts {
      OtherRowsKept(strict, w, e, k);
      ActMoves(strict, w, e, w.attempts[e.a].key, w.attempts[e.a].phase);
      hide Act;
    }
  }

  lemma {:induction false} UntouchedRun(strict: bool, w: World, events: seq<Event>, k: Key)
    requires Untouched(w, k) && forall i :: 0 <= i < |events| && events[i].Start? ==> events[i].key != k
    ensures Untouched(Run(strict, w, events), k)
    decreases |events|
  {
    if events != [] {
      UntouchedNext(strict, w, events[0], k);
      UntouchedRun(strict, Next(strict, w, events[0]), events[1..], k);
    }
  }

  /**
   Whatever attempts at other calls, or at the same call in other rounds, have done and completed: the first attempt
   at a call of a round is not a replay of theirs. Its claim is won and it executes.
   */
  lemma OtherRoundsAreNotReplayed(strict: bool, before: seq<Event>, task: string, round: nat, call: Call)
    requires StartsOthersOnly(before, task, round, call)
    ensures var w, k := Run(strict, EMPTY, before), KeyOf(task, round, call);
            var r := Next(strict, Next(strict, w, Start(k)), Insert(w.next));
            Untouched(w, k) && w.next in r.attempts && r.attempts[w.next] == Attempt(k, Executing)
  {
    var k := KeyOf(task, round, call);
    forall i | 0 <= i < |before| && before[i].Start?
      ensures before[i].key != k
    {
      assert OfAnotherCall(before[i].key, task, round, call);
      var task', round': nat, call' :|
        before[i].key == KeyOf(task', round', call') && !(task' == task && round' == round && call' == call);
      KeyOfInjective(task, round, call, task', round', call');
    }
    UntouchedRun(strict, EMPTY, before, k);
  }

  // ---------- claims of the dead ----------

  /** Whoever waits for a claimant that died can take the call over, execute it and complete its row. */
  lemma WaitingAttemptCanFinish(strict: bool, w: World, a: nat, k: Key, obs: Observation)
    requires a in w.attempts && w.attempts[a] == Attempt(k, Waiting) && k in w.rows && w.rows[k] == InFlight
    ensures var ran := Next(strict, Next(strict, w, TakeOver(a)), Ran(a, obs));
            var r := Next(strict, Next(strict, ran, ReadRow(a)), Write(a));
            && k in r.rows && r.rows[k] == Completed(Encode(obs))
            && a in r.attempts && r.attempts[a] == Attempt(k, Finished(obs, false))
            && Count(r.takeovers, k) == Count(w.takeovers, k) + 1
  {
    var w1 := Next(strict, w, TakeOver(a));
    var w2 := Next(strict, w1, Ran(a, obs));
    assert w2.attempts[a] == Attempt(k, Completing(obs)) && w2.rows == w.rows;
    var w3 := Next(strict, w2, ReadRow(a));
    assert w3.attempts[a] == Attempt(k, Writing(obs, Some(InFlight))) && w3.rows == w.rows;
    PlaceholderFilled(k, obs);
  }

  /** Whoever waits and finds the row completed hands out its result. */
  lemma WaitingAttemptSeesCompletion(strict: bool, w: World, a: nat, k: Key)
    requires a in w.attempts && w.attempts[a] == Attempt(k, Waiting) && IsCompleted(w, k)
    ensures Next(strict, w, Poll(a)).attempts == w.attempts[a := Attempt(k, Finished(Decode(w.rows[k].record), true))]
  {
  }
}
