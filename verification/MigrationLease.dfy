/**
 The lease that keeps two processes from migrating the database at once
 (app/storage/repository.py `_acquire_migration_lease`, `_release_migration_lease`).
 */
module MigrationLease {
  import opened Basics

  const LEASE_STALE_S := 120.0

  /** The table's only row: who took the lease, and the time that owner read before inserting. */
  datatype Lease = Lease(owner: nat, acquiredAt: real)

  type Row = Option<Lease>

  // ---------- the three statements ----------

  function Inserted(row: Row, owner: nat, time: real): (r: Row) {
    if row == None then Some(Lease(owner, time)) else row
  }

  function WithoutStale(row: Row, cutoff: real): (r: Row) {
    if row.Some? && row.value.acquiredAt < cutoff then None else row
  }

  function Released(row: Row, owner: nat): (r: Row) {
    if row.Some? && row.value.owner == owner then None else row
  }

  // ---------- any number of processes ----------

  /** Where a process is. The clock is read before the statement that uses the reading is committed. */
  datatype Phase =
    | Polling
    | Inserting(time: real)
    | Refused
    | Evicting(cutoff: real)
    | Holding(since: real)
    | Gone

  datatype World = World(now: real, row: Row, processes: map<nat, Phase>)

  /**
   `Fail` is a round that raises and is tried again, `Vanish` a process that is killed, times out or fails to
   release; `heard` tells whether the insert's answer came back.
   */
  datatype Event =
    | Tick(seconds: real)
    | Start(p: nat)
    | ReadInsertTime(p: nat)
    | Insert(p: nat, heard: bool)
    | ReadCutoff(p: nat)
    | DeleteStale(p: nat)
    | Fail(p: nat)
    | Release(p: nat)
    | Vanish(p: nat)

  function To(w: World, p: nat, phase: Phase): (r: World) {
    w.(processes := w.processes[p := phase])
  }

  function Next(w: World, e: Event): (r: World) {
    match e
    case Tick(seconds) => if seconds >= 0.0 then w.(now := w.now + seconds) else w
    case Start(p) => if p !in w.processes then To(w, p, Polling) else w
    case ReadInsertTime(p) =>
      if p in w.processes && w.processes[p].Polling? then To(w, p, Inserting(w.now)) else w
    case Insert(p, heard) =>
      if p in w.processes && w.processes[p].Inserting? then
        var time := w.processes[p].time;
        To(w, p, if !heard then Polling else if w.row == None then Holding(time) else Refused)
          .(row := Inserted(w.row, p, time))
      else w
    case ReadCutoff(p) =>
      if p in w.processes && w.processes[p].Refused? then To(w, p, Evicting(w.now - LEASE_STALE_S)) else w
    case DeleteStale(p) =>
      if p in w.processes && w.processes[p].Evicting? then
        To(w, p, Polling).(row := WithoutStale(w.row, w.processes[p].cutoff))
      else w
    case Fail(p) =>
      if p in w.processes && (w.processes[p].Inserting? || w.processes[p].Refused? || w.processes[p].Evicting?) then
        To(w, p, Polling)
      else w
    case Release(p) =>
      if p in w.processes && w.processes[p].Holding? then To(w, p, Gone).(row := Released(w.row, p)) else w
    case Vanish(p) => if p in w.processes then To(w, p, Gone) else w
  }

  function Run(w: World, events: seq<Event>): (r: World)
    decreases |events|
  {
    if events == [] then w else Next(Run(w, events[..|events| - 1]), events[|events| - 1])
  }

  /** The holder acquired the lease at most `LEASE_STALE_S` seconds ago. */
  predicate HoldsFresh(w: World, p: nat) {
    p in w.processes && w.processes[p].Holding? && w.now <= w.processes[p].since + LEASE_STALE_S
  }

  ghost predicate Sound(w: World, p: nat) {
    p in w.processes ==>
      match w.processes[p]
      case Inserting(time) => time <= w.now
      case Evicting(cutoff) => cutoff <= w.now - LEASE_STALE_S
      case Holding(since) => w.now <= since + LEASE_STALE_S ==> w.row == Some(Lease(p, since))
      case _ => true
  }

  lemma SoundNext(w: World, e: Event, p: nat)
    requires forall q :: Sound(w, q)
    ensures Sound(Next(w, e), p)
  {
    assert Sound(w, p);
    if e.DeleteStale? && e.p in w.processes && w.processes[e.p].Evicting? { assert Sound(w, e.p); }
  }

  lemma {:induction false} SoundRun(start: real, events: seq<Event>)
    ensures forall p :: Sound(Run(World(start, None, map[]), events), p)
    decreases |events|
  {
    if events != [] {
      SoundRun(start, events[..|events| - 1]);
      var w := Run(World(start, None, map[]), events[..|events| - 1]);
      var w' := Next(w, events[|events| - 1]);
      forall p
        ensures Sound(w', p)
      {
        SoundNext(w, events[|events| - 1], p);
      }
    }
  }

  /** Whoever holds a lease that is not yet stale owns the row, whatever the others do. */
  lemma FreshHolderOwnsRow(start: real, events: seq<Event>, p: nat)
    requires HoldsFresh(Run(World(start, None, map[]), events), p)
    ensures var w := Run(World(start, None, map[]), events); w.row == Some(Lease(p, w.processes[p].since))
  {
    SoundRun(start, events);
    assert Sound(Run(World(start, None, map[]), events), p);
  }

  /** Two fresh holders never coexist. */
  lemma FreshHolderIsUnique(start: real, events: seq<Event>, p: nat, q: nat)
    requires HoldsFresh(Run(World(start, None, map[]), events), p)
    requires HoldsFresh(Run(World(start, None, map[]), events), q)
    ensures p == q
  {
    FreshHolderOwnsRow(start, events, p);
    FreshHolderOwnsRow(start, events, q);
  }

  /** A holder that was evicted and releases late leaves its successor's lease alone. */
  lemma LateReleaseKeepsSuccessor(start: real, events: seq<Event>, evicted: nat, successor: nat)
    requires evicted != successor && HoldsFresh(Run(World(start, None, map[]), events), successor)
    ensures var w := Run(World(start, None, map[]), events);
            Next(w, Release(evicted)).row == w.row && HoldsFresh(Next(w, Release(evicted)), successor)
  {
    FreshHolderOwnsRow(start, events, successor);
  }

  // ---------- the table ----------

  /** The stored row, with the processes around it as ghost state. */
  class LeaseTable {
    var row: Row
    ghost var world: World

    ghost predicate Valid()
      reads this
    {
      row == world.row && forall p :: Sound(world, p)
    }

    constructor (now: real)
      ensures Valid() && world == World(now, None, map[])
    {
      row, world := None, World(now, None, map[]);
    }

    /** INSERT ... ON CONFLICT DO NOTHING: whoever is told that the lease was taken is its only fresh holder. */
    method Insert(p: nat, time: real) returns (taken: bool)
      requires Valid() && p in world.processes && world.processes[p] == Inserting(time)
      modifies this
      ensures Valid() && world == Next(old(world), Event.Insert(p, true))
      ensures taken <==> world.processes[p] == Holding(time)
      ensures taken ==> forall q :: HoldsFresh(world, q) ==> q == p
      ensures !taken ==> forall q :: HoldsFresh(old(world), q) ==> HoldsFresh(world, q)
    {
      ghost var before := world;
      forall q ensures Sound(Next(before, Event.Insert(p, true)), q) { SoundNext(before, Event.Insert(p, true), q); }
      taken := row == None;
      if taken { row := Some(Lease(p, time)); }
      world := Next(world, Event.Insert(p, true));
      forall q | q != p
        ensures taken ==> !HoldsFresh(world, q)
        ensures !taken ==> (HoldsFresh(before, q) <==> HoldsFresh(world, q))
      {
        assert Sound(before, q);
      }
    }

    /** Eviction frees the row of a stale lease and never costs a fresh holder its lease. */
    method DeleteStale(p: nat, cutoff: real)
      requires Valid() && p in world.processes && world.processes[p] == Evicting(cutoff)
      modifies this
      ensures Valid() && world == Next(old(world), Event.DeleteStale(p))
      ensures forall q :: HoldsFresh(old(world), q) ==> HoldsFresh(world, q) && row == old(row)
    {
      ghost var before := world;
      forall q ensures Sound(Next(before, Event.DeleteStale(p)), q) { SoundNext(before, Event.DeleteStale(p), q); }
      if row.Some? && row.value.acquiredAt < cutoff { row := None; }
      world := Next(world, Event.DeleteStale(p));
      assert Sound(before, p);
      forall q | HoldsFresh(before, q)
        ensures HoldsFresh(world, q) && row == before.row
      {
        assert Sound(before, q);
      }
    }

    /** Releasing never costs another fresh holder its lease, and leaves no row of the releasing process. */
    method Release(p: nat)
      requires Valid() && p in world.processes && world.processes[p].Holding?
      modifies this
      ensures Valid() && world == Next(old(world), Event.Release(p))
      ensures row.Some? ==> row.value.owner != p
      ensures forall q :: q != p && HoldsFresh(old(world), q) ==> HoldsFresh(world, q) && row == old(row)
    {
      ghost var before := world;
      forall q ensures Sound(Next(before, Event.Release(p)), q) { SoundNext(before, Event.Release(p), q); }
      if row.Some? && row.value.owner == p { row := None; }
      world := Next(world, Event.Release(p));
      forall q | q != p && HoldsFresh(before, q)
        ensures HoldsFresh(world, q) && row == before.row
      {
        assert Sound(before, q);
      }
    }
  }

  // ---------- take-over ----------

  /** The first attempt of a new process; then the rest of a round that was refused and the next attempt. */
  function FirstAttempt(p: nat): (events: seq<Event>) {
    [Start(p), ReadInsertTime(p), Insert(p, true)]
  }

  function SecondAttempt(p: nat): (events: seq<Event>) {
    [ReadCutoff(p), DeleteStale(p), ReadInsertTime(p), Insert(p, true)]
  }

  lemma {:induction false} RunSnoc(w: World, events: seq<Event>, e: Event)
    ensures Run(w, events + [e]) == Next(Run(w, events), e)
  {
    assert (events + [e])[..|events|] == events;
  }

  lemma FirstRound(w: World, p: nat)
    requires p !in w.processes
    ensures Run(w, FirstAttempt(p)) ==
            To(w, p, if w.row == None then Holding(w.now) else Refused).(row := Inserted(w.row, p, w.now))
  {
    RunSnoc(w, [], Start(p));
    assert [] + [Start(p)] == [Start(p)];
    RunSnoc(w, [Start(p)], ReadInsertTime(p));
    RunSnoc(w, [Start(p)] + [ReadInsertTime(p)], Insert(p, true));
    assert [Start(p), ReadInsertTime(p), Insert(p, true)] == [Start(p)] + [ReadInsertTime(p)] + [Insert(p, true)];
    assert w.processes[p := Polling][p := Inserting(w.now)] == w.processes[p := Inserting(w.now)];
  }

  lemma SecondRound(w: World, p: nat)
    requires p in w.processes && (w.processes[p].Refused? || w.processes[p].Holding?)
    ensures var w' := Run(w, SecondAttempt(p));
            p in w'.processes &&
            (w'.processes[p].Holding? <==>
               w.processes[p].Holding? || WithoutStale(w.row, w.now - LEASE_STALE_S) == None)
  {
    var a, b, c, d := ReadCutoff(p), DeleteStale(p), ReadInsertTime(p), Insert(p, true);
    RunSnoc(w, [], a);
    assert [] + [a] == [a];
    RunSnoc(w, [a], b);
    RunSnoc(w, [a] + [b], c);
    RunSnoc(w, [a] + [b] + [c], d);
    assert [a, b, c, d] == [a] + [b] + [c] + [d];
  }

  /**
   An undisturbed newcomer gets the lease exactly when it is free or stale: a dead holder blocks nobody for ever.
   */
  lemma NewcomerAcquiresExactlyWhen(w: World, p: nat)
    requires p !in w.processes
    ensures var w' := Run(Run(w, FirstAttempt(p)), SecondAttempt(p));
            p in w'.processes &&
            (w'.processes[p].Holding? <==> w.row == None || w.row.value.acquiredAt + LEASE_STALE_S < w.now)
  {
    FirstRound(w, p);
    SecondRound(Run(w, FirstAttempt(p)), p);
  }

  /** The bound is sharp: a migration that outlives its lease can overlap with its successor's. */
  lemma LongMigrationOverlaps(start: real)
    ensures var held := Run(World(start, None, map[]), FirstAttempt(0));
            var w := Run(Run(Next(held, Tick(121.0)), FirstAttempt(1)), SecondAttempt(1));
            0 in w.processes && w.processes[0].Holding? && 1 in w.processes && w.processes[1].Holding?
  {
    FirstRound(World(start, None, map[]), 0);
    var w := Next(Run(World(start, None, map[]), FirstAttempt(0)), Tick(121.0));
    NewcomerAcquiresExactlyWhen(w, 1);
    OthersKeepHolding(w, 1, 0, FirstAttempt(1));
    OthersKeepHolding(Run(w, FirstAttempt(1)), 1, 0, SecondAttempt(1));
  }

  lemma {:induction false} OthersKeepHolding(w: World, p: nat, q: nat, events: seq<Event>)
    requires p != q && q in w.processes && w.processes[q].Holding?
    requires forall i :: 0 <= i < |events| ==> !events[i].Tick? && events[i].p == p
    ensures var w' := Run(w, events); q in w'.processes && w'.processes[q].Holding?
    decreases |events|
  {
    if events != [] { OthersKeepHolding(w, p, q, events[..|events| - 1]); }
  }
}
