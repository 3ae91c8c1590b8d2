/**
 Sequence numbers of a task's events across engine lifetimes
 (app/graph/engine.py `_seed_seq`, `emit`; app/storage/repository.py `append_event`, `get_max_event_seq`).
 */
module EventNumbering {
  import opened Basics

  /** `emitted` is the position of the event among all emissions ever made. */
  datatype Entry = Entry(task: string, number: nat, emitted: nat)

  /**
   The events table, the events numbered but not yet committed, the engine's counters, the tasks the engine has
   seeded, and the number of emissions so far.
   */
  datatype World = World(
    stored: set<Entry>,
    inFlight: set<Entry>,
    seqs: map<string, nat>,
    seeded: set<string>,
    emissions: nat)

  const EMPTY := World({}, {}, map[], {}, 0)

  datatype Event =
    | Seed(task: string)
    | Emit(task: string)
    | Commit(entry: Entry)
    | Lose(entry: Entry)
    | Crash

  function Counter(seqs: map<string, nat>, task: string): (n: nat) {
    if task in seqs then seqs[task] else 0
  }

  predicate IsMax(stored: set<Entry>, task: string, n: nat) {
    && (exists e :: e in stored && e.task == task && e.number == n)
    && (forall e :: e in stored && e.task == task ==> e.number <= n)
  }

  /** The largest number stored for a task, zero without any. */
  ghost function MaxStored(stored: set<Entry>, task: string): (n: nat)
    ensures if exists e :: e in stored && e.task == task then IsMax(stored, task, n) else n == 0
  {
    if exists e :: e in stored && e.task == task then
      MaxExists(stored, task);
      var n: nat :| IsMax(stored, task, n);
      n
    else 0
  }

  lemma {:induction false} MaxExists(stored: set<Entry>, task: string)
    requires exists e :: e in stored && e.task == task
    ensures exists n: nat :: IsMax(stored, task, n)
    decreases stored
  {
    var e :| e in stored && e.task == task;
    var rest := stored - {e};
    if exists o :: o in rest && o.task == task {
      MaxExists(rest, task);
      var n: nat :| IsMax(rest, task, n);
      MaxOfTwo(stored, task, e, n);
    } else {
      assert IsMax(stored, task, e.number);
    }
  }

  lemma MaxOfTwo(stored: set<Entry>, task: string, e: Entry, n: nat)
    requires e in stored && e.task == task && IsMax(stored - {e}, task, n)
    ensures IsMax(stored, task, Max(n, e.number))
  {
    forall o | o in stored && o.task == task
      ensures o.number <= Max(n, e.number)
    {
      if o != e { assert o in stored - {e}; }
    }
  }

  predicate Taken(stored: set<Entry>, entry: Entry) {
    exists e :: e in stored && e.task == entry.task && e.number == entry.number
  }

  /** The unique constraint on (task, seq) refuses a second event with the same number. */
  ghost function Next(w: World, e: Event): (r: World) {
    match e
    case Seed(task) =>
      w.(seqs := w.seqs[task := Max(MaxStored(w.stored, task), Counter(w.seqs, task))], seeded := w.seeded + {task})
    case Emit(task) =>
      var n := Counter(w.seqs, task) + 1;
      w.(seqs := w.seqs[task := n], inFlight := w.inFlight + {Entry(task, n, w.emissions)},
         emissions := w.emissions + 1)
    case Commit(entry) =>
      if entry in w.inFlight then
        w.(inFlight := w.inFlight - {entry}, stored := if Taken(w.stored, entry) then w.stored else w.stored + {entry})
      else w
    case Lose(entry) => w.(inFlight := w.inFlight - {entry})
    case Crash => w.(inFlight := {}, seqs := map[], seeded := {})
  }

  ghost function Run(w: World, events: seq<Event>): (r: World)
    decreases |events|
  {
    if events == [] then w else Next(Run(w, events[..|events| - 1]), events[|events| - 1])
  }

  /** Every engine seeds a task's counter before it emits an event of the task. */
  ghost predicate SeedsFirst(w: World, events: seq<Event>) {
    forall i :: 0 <= i < |events| && events[i].Emit? ==> events[i].task in Run(w, events[..i]).seeded
  }

  lemma SeedsFirstPrefix(w: World, events: seq<Event>, n: nat)
    requires n <= |events| && SeedsFirst(w, events)
    ensures SeedsFirst(w, events[..n])
  {
    forall i | 0 <= i < n && events[..n][i].Emit?
      ensures events[..n][i].task in Run(w, events[..n][..i]).seeded
    {
      assert events[..n][..i] == events[..i];
      assert events[i].Emit?;
    }
  }

  // ---------- numbers follow the order of emission ----------

  predicate Known(w: World, e: Entry) {
    e in w.stored || e in w.inFlight
  }

  ghost predicate Placed(w: World, e: Entry) {
    Known(w, e) ==>
      && e.emitted < w.emissions
      && (e.task in w.seeded ==> e.number <= Counter(w.seqs, e.task))
      && (e in w.inFlight ==> e.task in w.seeded)
  }

  ghost predicate InOrder(w: World, a: Entry, b: Entry) {
    Known(w, a) && Known(w, b) && a.task == b.task && a.emitted < b.emitted ==> a.number < b.number
  }

  ghost predicate Sound(w: World) {
    && w.inFlight !! w.stored
    && (forall e :: Placed(w, e))
    && (forall a, b :: InOrder(w, a, b))
    && (forall a, b :: Known(w, a) && Known(w, b) && a.emitted == b.emitted ==> a == b)
  }

  lemma PlacedNext(w: World, e: Event, x: Entry)
    requires Sound(w) && (e.Emit? ==> e.task in w.seeded)
    ensures Placed(Next(w, e), x)
  {
    assert Placed(w, x);
  }

  lemma FlightApart(w: World, e: Event)
    requires Sound(w)
    ensures Next(w, e).inFlight !! Next(w, e).stored
  {
    if e.Emit? {
      var n := Entry(e.task, Counter(w.seqs, e.task) + 1, w.emissions);
      assert Placed(w, n);
    }
  }

  lemma InOrderNext(w: World, e: Event, a: Entry, b: Entry)
    requires Sound(w) && (e.Emit? ==> e.task in w.seeded)
    ensures InOrder(Next(w, e), a, b)
    ensures Known(Next(w, e), a) && Known(Next(w, e), b) && a.emitted == b.emitted ==> a == b
  {
    assert InOrder(w, a, b) && Placed(w, a) && Placed(w, b);
  }

  lemma SoundNext(w: World, e: Event)
    requires Sound(w) && (e.Emit? ==> e.task in w.seeded)
    ensures Sound(Next(w, e))
  {
    var w' := Next(w, e);
    FlightApart(w, e);
    forall x ensures Placed(w', x) { PlacedNext(w, e, x); }
    forall a, b ensures InOrder(w', a, b) { InOrderNext(w, e, a, b); }
    forall a, b | Known(w', a) && Known(w', b) && a.emitted == b.emitted
      ensures a == b
    {
      InOrderNext(w, e, a, b);
    }
  }

  lemma {:induction false} SoundRun(events: seq<Event>)
    requires SeedsFirst(EMPTY, events)
    ensures Sound(Run(EMPTY, events))
    decreases |events|
  {
    if events != [] {
      SeedsFirstPrefix(EMPTY, events, |events| - 1);
      SoundRun(events[..|events| - 1]);
      SoundNext(Run(EMPTY, events[..|events| - 1]), events[|events| - 1]);
    }
  }

  /**
   Across all lifetimes, and in whatever order events are committed, a task's numbers follow the order of
   emission.
   */
  lemma NumbersFollowEmission(events: seq<Event>, a: Entry, b: Entry)
    requires SeedsFirst(EMPTY, events)
    requires a in Run(EMPTY, events).stored && b in Run(EMPTY, events).stored && a.task == b.task
    ensures a.number < b.number <==> a.emitted < b.emitted
    ensures a.number == b.number ==> a == b
  {
    SoundRun(events);
    var w := Run(EMPTY, events);
    assert InOrder(w, a, b) && InOrder(w, b, a);
    assert Known(w, a) && Known(w, b);
  }

  /** So the unique constraint never refuses an event. */
  lemma NoCommitIsRefused(events: seq<Event>, entry: Entry)
    requires SeedsFirst(EMPTY, events) && entry in Run(EMPTY, events).inFlight
    ensures !Taken(Run(EMPTY, events).stored, entry)
  {
    SoundRun(events);
    var w := Run(EMPTY, events);
    if Taken(w.stored, entry) {
      var e :| e in w.stored && e.task == entry.task && e.number == entry.number;
      assert InOrder(w, e, entry) && InOrder(w, entry, e);
      assert Known(w, e) && Known(w, entry);
    }
  }

  // ---------- later lifetimes ----------

  /** Whatever is new in the table later was in flight before or is emitted later. */
  lemma {:induction false} NewerThan(w: World, events: seq<Event>, e: Entry)
    ensures var w' := Run(w, events);
            && w.stored <= w'.stored && w.emissions <= w'.emissions
            && (Known(w', e) && e !in w.stored ==> e in w.inFlight || e.emitted >= w.emissions)
    decreases |events|
  {
    if events != [] { NewerThan(w, events[..|events| - 1], e); }
  }

  lemma {:induction false} RunConcat(w: World, a: seq<Event>, b: seq<Event>)
    ensures Run(w, a + b) == Run(Run(w, a), b)
    decreases |b|
  {
    if b == [] {
      assert a + b == a;
    } else {
      RunConcat(w, a, b[..|b| - 1]);
      assert (a + b)[..|a + b| - 1] == a + b[..|b| - 1];
    }
  }

  /** After a crash, every event stored later is numbered above everything its task had stored before. */
  lemma LaterLifetimesNumberAbove(before: seq<Event>, after: seq<Event>, earlier: Entry, later: Entry)
    requires SeedsFirst(EMPTY, before + [Crash] + after)
    requires earlier in Run(EMPTY, before + [Crash]).stored
    requires later in Run(EMPTY, before + [Crash] + after).stored && later !in Run(EMPTY, before + [Crash]).stored
    requires earlier.task == later.task
    ensures earlier.number < later.number
  {
    var events := before + [Crash] + after;
    var w := Run(EMPTY, before + [Crash]);
    assert (before + [Crash])[..|before|] == before;
    assert w == Next(Run(EMPTY, before), Crash);
    RunConcat(EMPTY, before + [Crash], after);
    NewerThan(w, after, later);
    assert events[..|before| + 1] == before + [Crash];
    SeedsFirstPrefix(EMPTY, events, |before| + 1);
    SoundRun(before + [Crash]);
    assert Placed(w, earlier);
    NewerThan(w, after, earlier);
    NumbersFollowEmission(events, earlier, later);
  }

  // ---------- what a reader's watermark hides ----------

  /**
   Every event of the task that is stored from now on is numbered above `mark`, so a reader who asks for more
   sees it.
   */
  ghost predicate NothingHidden(before: seq<Event>, after: seq<Event>, mark: Entry) {
    SeedsFirst(EMPTY, before + after) ==>
      forall e :: e in Run(EMPTY, before + after).stored && e !in Run(EMPTY, before).stored && e.task == mark.task ==>
        e.number > mark.number
  }

  /** No event of the task with a smaller number is still on its way into the table. */
  ghost predicate AllSmallerSettled(w: World, mark: Entry) {
    forall f :: f in w.inFlight && f.task == mark.task ==> f.number > mark.number
  }

  lemma SettledHidesNothing(before: seq<Event>, after: seq<Event>, mark: Entry)
    requires mark in Run(EMPTY, before).stored && AllSmallerSettled(Run(EMPTY, before), mark)
    ensures NothingHidden(before, after, mark)
  {
    var w := Run(EMPTY, before);
    if SeedsFirst(EMPTY, before + after) {
      assert (before + after)[..|before|] == before;
      SeedsFirstPrefix(EMPTY, before + after, |before|);
      SoundRun(before);
      RunConcat(EMPTY, before, after);
      NewerThan(w, after, mark);
      assert Placed(w, mark);
      forall e | e in Run(EMPTY, before + after).stored && e !in w.stored && e.task == mark.task
        ensures e.number > mark.number
      {
        NewerThan(w, after, e);
        NumbersFollowEmission(before + after, mark, e);
      }
    }
  }

  lemma UnsettledHides(before: seq<Event>, mark: Entry, f: Entry)
    requires SeedsFirst(EMPTY, before)
    requires f in Run(EMPTY, before).inFlight && f.task == mark.task && f.number <= mark.number
    ensures !NothingHidden(before, [Commit(f)], mark)
  {
    var events := before + [Commit(f)];
    assert forall i :: 0 <= i <= |before| ==> events[..i] == before[..i];
    assert before[..|before|] == before;
    SoundRun(before);
    NoCommitIsRefused(before, f);
    assert f in Run(EMPTY, events).stored && f !in Run(EMPTY, before).stored;
    assert SeedsFirst(EMPTY, events);
  }

  /**
   A reader who remembers the number of a stored event misses no later event of the task, in any continuation, if and
   only if no event with a smaller number is in flight at that moment.
   */
  lemma WatermarkHidesNothingExactlyWhen(before: seq<Event>, mark: Entry)
    requires SeedsFirst(EMPTY, before) && mark in Run(EMPTY, before).stored
    ensures (forall after: seq<Event> :: NothingHidden(before, after, mark)) <==>
            AllSmallerSettled(Run(EMPTY, before), mark)
  {
    if AllSmallerSettled(Run(EMPTY, before), mark) {
      forall after: seq<Event> ensures NothingHidden(before, after, mark) { SettledHidesNothing(before, after, mark); }
    } else {
      var f :| f in Run(EMPTY, before).inFlight && f.task == mark.task && f.number <= mark.number;
      UnsettledHides(before, mark, f);
    }
  }

  /** The input on which it fails: two events in flight, and the second is committed first. */
  lemma CommitsMayOvertake(task: string)
    ensures var first, second := Entry(task, 1, 0), Entry(task, 2, 1);
            var events := [Seed(task), Emit(task), Emit(task), Commit(second)];
            && SeedsFirst(EMPTY, events)
            && Run(EMPTY, events).stored == {second}
            && Next(Run(EMPTY, events), Commit(first)).stored == {first, second}
  {
    var first, second := Entry(task, 1, 0), Entry(task, 2, 1);
    var events := [Seed(task), Emit(task), Emit(task), Commit(second)];
    var w1 := World({}, {}, map[task := 0], {task}, 0);
    var w2 := World({}, {first}, map[task := 1], {task}, 1);
    var w3 := World({}, {first, second}, map[task := 2], {task}, 2);
    assert events[..1][..0] == events[..0] == [];
    assert events[..2][..1] == events[..1] && events[..3][..2] == events[..2] && events[..3] == events[..4][..3];
    assert events[..4] == events;
    assert Next(EMPTY, Seed(task)) == w1;
    assert Run(EMPTY, events[..1]) == w1;
    assert Next(w1, Emit(task)) == w2;
    assert Run(EMPTY, events[..2]) == w2;
    assert Next(w2, Emit(task)) == w3;
    assert Run(EMPTY, events[..3]) == w3;
  }

  // ---------- engines whose seeding failed ----------

  /** How many events of the task were emitted. */
  function EmitsOf(events: seq<Event>, task: string): (n: nat) {
    if events == [] then 0
    else EmitsOf(events[..|events| - 1], task) + if events[|events| - 1] == Emit(task) then 1 else 0
  }

  /** A lifetime, after its beginning, in which the task is never seeded. */
  ghost predicate NeverSeeds(events: seq<Event>, task: string) {
    forall i :: 0 <= i < |events| ==> !events[i].Crash? && events[i] != Seed(task)
  }

  ghost predicate PastOnly(w: World) {
    forall e :: Known(w, e) ==> e.emitted < w.emissions
  }

  lemma {:induction false} RunPastOnly(w: World, events: seq<Event>)
    requires PastOnly(w)
    ensures PastOnly(Run(w, events))
    decreases |events|
  {
    if events != [] { RunPastOnly(w, events[..|events| - 1]); }
  }

  /** The task's events of this lifetime bear the numbers up to the counter, each at most once. */
  ghost predicate NumberedAnew(past: set<Entry>, x: World, task: string) {
    && past <= x.stored && x.inFlight !! x.stored && PastOnly(x)
    && (forall e :: IsNew(past, x, task, e) ==> e.number <= Counter(x.seqs, task))
    && (forall e, f :: IsNew(past, x, task, e) && IsNew(past, x, task, f) && e.number == f.number ==> e == f)
  }

  predicate IsNew(past: set<Entry>, x: World, task: string, e: Entry) {
    Known(x, e) && e !in past && e.task == task
  }

  lemma NumberedAnewNext(past: set<Entry>, x: World, task: string, e: Event)
    requires NumberedAnew(past, x, task) && !e.Crash? && e != Seed(task)
    ensures NumberedAnew(past, Next(x, e), task)
  {
    var x' := Next(x, e);
    if e.Emit? {
      var added := Entry(e.task, Counter(x.seqs, e.task) + 1, x.emissions);
      assert !Known(x, added);
    }
    assert forall y :: Known(x', y) ==> Known(x, y) || (e.Emit? && y.emitted == x.emissions);
  }

  lemma {:induction false} UnseededRun(w: World, events: seq<Event>, task: string)
    requires PastOnly(w) && NeverSeeds(events, task)
    ensures var x := Run(Next(w, Crash), events);
            NumberedAnew(w.stored, x, task) && Counter(x.seqs, task) == EmitsOf(events, task)
    decreases |events|
  {
    if events != [] {
      var init := events[..|events| - 1];
      UnseededRun(w, init, task);
      NumberedAnewNext(w.stored, Run(Next(w, Crash), init), task, events[|events| - 1]);
    }
  }

  /**
   An engine that starts without seeding a task numbers its events from one: the n-th event it emits gets number n,
   and an event in flight is refused exactly when its number was stored before the engine started, whatever else
   is emitted and committed in the meantime.
   */
  lemma UnseededEventsRefusedExactlyWhen(before: seq<Event>, events: seq<Event>, task: string, entry: Entry)
    requires NeverSeeds(events, task)
    ensures var w := Run(EMPTY, before);
            var x := Run(Next(w, Crash), events);
            && Entry(task, EmitsOf(events, task) + 1, x.emissions) in Next(x, Emit(task)).inFlight
            && (entry in x.inFlight && entry.task == task ==> (Taken(x.stored, entry) <==> Taken(w.stored, entry)))
  {
    var w := Run(EMPTY, before);
    RunPastOnly(EMPTY, before);
    UnseededRun(w, events, task);
    var x := Run(Next(w, Crash), events);
    if entry in x.inFlight && entry.task == task { TakenBefore(w.stored, x, task, entry); }
  }

  lemma TakenBefore(past: set<Entry>, x: World, task: string, entry: Entry)
    requires NumberedAnew(past, x, task) && entry in x.inFlight && entry.task == task
    ensures Taken(x.stored, entry) <==> Taken(past, entry)
  {
    if Taken(x.stored, entry) {
      var e :| e in x.stored && e.task == entry.task && e.number == entry.number;
      assert e in past || IsNew(past, x, task, e);
      assert IsNew(past, x, task, entry);
    }
    if Taken(past, entry) {
      var e :| e in past && e.task == entry.task && e.number == entry.number;
      assert e in x.stored;
    }
  }

  // ---------- the engine's counters ----------

  /** The counters in memory, with the events of the task around them as ghost state. */
  class Numbering {
    var seqs: map<string, nat>
    ghost var world: World

    ghost predicate Valid()
      reads this
    {
      forall task :: Counter(seqs, task) == Counter(world.seqs, task)
    }

    constructor ()
      ensures Valid() && world == EMPTY
    {
      seqs, world := map[], EMPTY;
    }

    /** `stored` is the largest stored number, or nothing when reading it failed. A counter never goes back. */
    method Seed(task: string, stored: Option<nat>)
      requires Valid() && (stored.Some? ==> stored.value == MaxStored(world.stored, task))
      modifies this
      ensures Valid() && world == if stored.Some? then Next(old(world), Event.Seed(task)) else old(world)
      ensures old(Sound(world)) ==> Sound(world)
      ensures forall e :: stored.Some? && e in world.stored && e.task == task ==> e.number <= Counter(seqs, task)
      ensures forall other :: Counter(seqs, other) >= Counter(old(seqs), other)
    {
      if stored.Some? {
        ghost var before, counted := world, seqs;
        assert Counter(seqs, task) == Counter(world.seqs, task);
        if Sound(world) { SoundNext(world, Event.Seed(task)); }
        if stored.value > Counter(seqs, task) { seqs := seqs[task := stored.value]; }
        world := Next(world, Event.Seed(task));
        forall other ensures Counter(seqs, other) == Counter(world.seqs, other) {
          assert Counter(counted, other) == Counter(before.seqs, other);
        }
      }
    }

    /**
     An event gets a number above every number the counter has seen; if the task was seeded, above every number
     its events ever had.
     */
    method Emit(task: string) returns (n: nat)
      requires Valid()
      modifies this
      ensures Valid() && world == Next(old(world), Event.Emit(task))
      ensures n > Counter(old(seqs), task) && Entry(task, n, old(world).emissions) in world.inFlight
      ensures old(Sound(world)) && task in old(world).seeded ==>
                Sound(world) && forall e :: Known(old(world), e) && e.task == task ==> e.number < n
    {
      ghost var before, counted := world, seqs;
      assert Counter(seqs, task) == Counter(world.seqs, task);
      if Sound(world) && task in world.seeded { SoundNext(world, Event.Emit(task)); }
      seqs := seqs[task := Counter(seqs, task) + 1];
      n := seqs[task];
      world := Next(world, Event.Emit(task));
      forall other ensures Counter(seqs, other) == Counter(world.seqs, other) {
        assert Counter(counted, other) == Counter(before.seqs, other);
      }
      forall e | Sound(before) && task in before.seeded && Known(before, e) && e.task == task
        ensures e.number < n
      {
        assert Placed(before, e);
      }
    }
  }
}
