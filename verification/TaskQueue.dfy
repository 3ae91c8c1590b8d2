/**
 The in-process queue's table of running executions, cancellation and shutdown
 (app/worker/local_queue.py; the cancel flags of app/graph/engine.py).
 */
module TaskQueue {
  import opened Basics

  /**
   An execution waits for a semaphore slot, runs, is done, and is retired when the event loop has called its
   done callback.
   */
  datatype Phase = Waiting | Started | Done | Retired

  datatype Execution = Execution(id: string, phase: Phase)

  /** Executions are known by their position in `executions`; `draining` is the list `stop` waits for. */
  datatype World = World(
    queue: seq<string>,
    running: map<string, nat>,
    executions: seq<Execution>,
    canceled: set<string>,
    closing: bool,
    draining: set<nat>)

  const EMPTY := World([], map[], [], {}, false, {})

  datatype Event =
    | Submit(id: string)
    | Consume
    | Resume(id: string)
    | Begin(h: nat)
    | Finish(h: nat)
    | Callback(h: nat)
    | Cancel(id: string)
    | Stop

  predicate Live(w: World, h: nat) {
    h < |w.executions| && (w.executions[h].phase == Waiting || w.executions[h].phase == Started)
  }

  function Entering(w: World, h: nat, phase: Phase): (r: World)
    requires h < |w.executions|
  {
    w.(executions := w.executions[h := w.executions[h].(phase := phase)])
  }

  function Spawn(w: World, id: string): (r: World) {
    if id in w.running && Live(w, w.running[id]) then w
    else w.(running := w.running[id := |w.executions|], executions := w.executions + [Execution(id, Waiting)])
  }

  /** Events that do not apply change nothing. */
  function Next(w: World, e: Event): (r: World) {
    match e
    case Submit(id) => w.(queue := w.queue + [id])
    case Consume =>
      if w.closing || w.queue == [] then w else Spawn(w.(queue := w.queue[1..]), w.queue[0])
    case Resume(id) => Spawn(w, id)
    case Begin(h) =>
      if Live(w, h) && w.executions[h].phase == Waiting then
        Entering(w, h, Started).(canceled := w.canceled - {w.executions[h].id})
      else w
    case Finish(h) => if Live(w, h) then Entering(w, h, Done) else w
    case Callback(h) =>
      if h < |w.executions| && w.executions[h].phase == Done then
        var id := w.executions[h].id;
        var registered := id in w.running && w.running[id] == h;
        Entering(w, h, Retired).(running := if registered then w.running - {id} else w.running)
      else w
    case Cancel(id) => if id in w.running then w.(canceled := w.canceled + {id}) else w
    case Stop => w.(closing := true, draining := w.running.Values)
  }

  function Run(w: World, events: seq<Event>): (r: World)
    decreases |events|
  {
    if events == [] then w else Next(Run(w, events[..|events| - 1]), events[|events| - 1])
  }

  // ---------- the handle table ----------

  /** The registered handle of a task is an execution of that task that has not been retired. */
  ghost predicate Registered(w: World, id: string) {
    id in w.running ==>
      && w.running[id] < |w.executions|
      && w.executions[w.running[id]].id == id
      && w.executions[w.running[id]].phase != Retired
  }

  ghost predicate Reachable(w: World, h: nat) {
    Live(w, h) ==> w.executions[h].id in w.running && w.running[w.executions[h].id] == h
  }

  ghost predicate Consistent(w: World) {
    (forall id :: Registered(w, id)) && (forall h: nat :: Reachable(w, h))
  }

  lemma ConsistentSpawn(w: World, id: string)
    requires Consistent(w)
    ensures Consistent(Spawn(w, id))
  {
    var w' := Spawn(w, id);
    forall other ensures Registered(w', other) { assert Registered(w, other); }
    forall h: nat ensures Reachable(w', h) {
      assert Reachable(w, h);
    }
  }

  lemma ConsistentNext(w: World, e: Event)
    requires Consistent(w)
    ensures Consistent(Next(w, e))
  {
    var w' := Next(w, e);
    if e.Resume? {
      ConsistentSpawn(w, e.id);
    } else if e.Consume? && !w.closing && w.queue != [] {
      var popped := w.(queue := w.queue[1..]);
      forall id ensures Registered(popped, id) { assert Registered(w, id); }
      forall h: nat ensures Reachable(popped, h) { assert Reachable(w, h); }
      ConsistentSpawn(popped, w.queue[0]);
    } else {
      forall id ensures Registered(w', id) { assert Registered(w, id); }
      forall h: nat ensures Reachable(w', h) { assert Reachable(w, h); }
    }
  }

  lemma {:induction false} ConsistentRun(w: World, events: seq<Event>)
    requires Consistent(w)
    ensures Consistent(Run(w, events))
    decreases |events|
  {
    if events != [] {
      ConsistentRun(w, events[..|events| - 1]);
      ConsistentNext(Run(w, events[..|events| - 1]), events[|events| - 1]);
    }
  }

  /**
   However spawns, ends and late callbacks interleave, a task has at most one live execution and it is the
   registered one.
   */
  lemma OneLiveExecutionPerTask(events: seq<Event>, h: nat, k: nat)
    requires Live(Run(EMPTY, events), h)
    ensures var w := Run(EMPTY, events);
            && w.executions[h].id in w.running && w.running[w.executions[h].id] == h
            && (Live(w, k) && w.executions[k].id == w.executions[h].id ==> k == h)
  {
    ConsistentRun(EMPTY, events);
    var w := Run(EMPTY, events);
    assert Reachable(w, h) && Reachable(w, k);
  }

  // ---------- cancellation ----------

  lemma ExecutionsGrow(w: World, e: Event, h: nat)
    requires h < |w.executions|
    ensures h < |Next(w, e).executions| && Next(w, e).executions[h].id == w.executions[h].id
    ensures Live(Next(w, e), h) ==> Live(w, h)
    ensures Next(w, e).executions[h].phase == Started ==>
              w.executions[h].phase == Started || w.executions[h].phase == Waiting
  {
  }

  /** Once an execution has begun, a cancel stays visible to it until it is done. */
  lemma {:induction false} CancelSticks(w: World, h: nat, events: seq<Event>)
    requires Consistent(w) && h < |w.executions| && w.executions[h].phase == Started
    ensures var w' := Run(Next(w, Cancel(w.executions[h].id)), events);
            && Consistent(w') && h < |w'.executions| && w'.executions[h].id == w.executions[h].id
            && w'.executions[h].phase != Waiting
            && (w'.executions[h].phase == Started ==> w.executions[h].id in w'.canceled)
    decreases |events|
  {
    var id := w.executions[h].id;
    var first := Next(w, Cancel(id));
    assert Reachable(w, h);
    ConsistentNext(w, Cancel(id));
    if events != [] {
      CancelSticks(w, h, events[..|events| - 1]);
      var before := Run(first, events[..|events| - 1]);
      var e := events[|events| - 1];
      ConsistentNext(before, e);
      ExecutionsGrow(before, e, h);
      assert Reachable(before, h);
      if e.Begin? { assert Reachable(before, e.h); }
    }
  }

  /** The cancel request of a live execution is heard at every node boundary it still reaches. */
  ghost predicate CancelHolds(w: World, h: nat)
    requires h < |w.executions|
  {
    forall events: seq<Event> :: HeardAfter(w, h, events)
  }

  ghost predicate HeardAfter(w: World, h: nat, events: seq<Event>)
    requires h < |w.executions|
  {
    var w' := Run(Next(w, Cancel(w.executions[h].id)), events);
    h < |w'.executions| && w'.executions[h].phase == Started ==> w.executions[h].id in w'.canceled
  }

  /**
   A cancel made while an execution is still waiting for its slot is accepted and then forgotten, because beginning
   clears the flag: the cancel of a live execution is certain to be heard exactly when the execution has begun.
   */
  lemma CancelHoldsExactlyOnceBegun(events: seq<Event>, h: nat)
    requires Live(Run(EMPTY, events), h)
    ensures var w := Run(EMPTY, events);
            && w.executions[h].id in Next(w, Cancel(w.executions[h].id)).canceled
            && (CancelHolds(w, h) <==> w.executions[h].phase == Started)
  {
    ConsistentRun(EMPTY, events);
    var w := Run(EMPTY, events);
    assert Reachable(w, h);
    if w.executions[h].phase == Started {
      forall more: seq<Event>
        ensures HeardAfter(w, h, more)
      {
        CancelSticks(w, h, more);
      }
    } else {
      var first := Next(w, Cancel(w.executions[h].id));
      assert [Begin(h)][..0] == [];
      assert Run(first, []) == first;
      assert Run(first, [Begin(h)]) == Next(first, Begin(h));
      assert !HeardAfter(w, h, [Begin(h)]);
    }
  }

  // ---------- shutdown ----------

  /** An execution of before the shutdown that is alive now was alive then, and so it was registered. */
  lemma {:induction false} StillLive(w: World, events: seq<Event>, h: nat)
    requires h < |w.executions|
    ensures var w' := Run(Next(w, Stop), events);
            h < |w'.executions| && (Live(w', h) ==> Live(w, h))
    decreases |events|
  {
    if events != [] {
      StillLive(w, events[..|events| - 1], h);
      ExecutionsGrow(Run(Next(w, Stop), events[..|events| - 1]), events[|events| - 1], h);
    }
  }

  /** The list is taken once. */
  lemma {:induction false} DrainingKept(w: World, events: seq<Event>)
    requires forall i :: 0 <= i < |events| ==> !events[i].Stop?
    ensures var w' := Run(w, events); w'.draining == w.draining && |w'.executions| >= |w.executions|
    decreases |events|
  {
    if events != [] { DrainingKept(w, events[..|events| - 1]); }
  }

  /** It holds registered executions only, and all of those that are alive. */
  lemma DrainedAreOld(w: World, events: seq<Event>, h: nat)
    requires Consistent(w)
    requires forall i :: 0 <= i < |events| ==> !events[i].Stop?
    ensures var w' := Run(Next(w, Stop), events);
            && |w'.executions| >= |w.executions|
            && (h in w'.draining ==> h < |w.executions|)
            && (Live(w', h) && h < |w.executions| ==> h in w'.draining)
  {
    DrainingKept(Next(w, Stop), events);
    assert Reachable(w, h);
    if h in w.running.Values {
      var id :| id in w.running && w.running[id] == h;
      assert Registered(w, id);
    }
    if h < |w.executions| { StillLive(w, events, h); }
  }

  /**
   However the run goes on after shutdown has collected the running executions: a live execution is waited for
   if and only if it had been spawned by then.
   */
  lemma ShutdownDrainsExactly(before: seq<Event>, after: seq<Event>, h: nat)
    requires forall i :: 0 <= i < |after| ==> !after[i].Stop?
    requires Live(Run(Next(Run(EMPTY, before), Stop), after), h)
    ensures var w := Run(EMPTY, before);
            h in Run(Next(w, Stop), after).draining <==> h < |w.executions|
  {
    ConsistentRun(EMPTY, before);
    DrainedAreOld(Run(EMPTY, before), after, h);
  }

  /**
   Which events spawn: a resume of a task without a live execution, closing or not; and taking from the queue
   while open.
   */
  lemma SpawnsExactlyWhen(events: seq<Event>, e: Event)
    ensures var w := Run(EMPTY, events);
            |Next(w, e).executions| > |w.executions| <==>
            || (e.Resume? && !HasLive(w, e.id))
            || (e.Consume? && !w.closing && w.queue != [] && !HasLive(w, w.queue[0]))
  {
    ConsistentRun(EMPTY, events);
    var w := Run(EMPTY, events);
    if e.Resume? { RegisteredLive(w, e.id); }
    if e.Consume? && w.queue != [] { RegisteredLive(w, w.queue[0]); }
  }

  /** What is spawned is an execution of the task asked for, or of the one that has waited longest in the queue. */
  lemma SpawnsTheRightTask(w: World, e: Event)
    requires |Next(w, e).executions| > |w.executions|
    ensures var w' := Next(w, e);
            && w'.executions[..|w.executions|] == w.executions && |w'.executions| == |w.executions| + 1
            && w'.executions[|w.executions|].phase == Waiting
            && (e.Resume? ==> w'.executions[|w.executions|].id == e.id && w'.queue == w.queue)
            && (e.Consume? ==> w.queue == [w'.executions[|w.executions|].id] + w'.queue)
  {
  }

  /** Submissions wait in order; each turn takes the first of them. */
  lemma QueueIsFifo(w: World, e: Event)
    ensures Next(w, e).queue == if e.Submit? then w.queue + [e.id]
                                else if e.Consume? && !w.closing && w.queue != [] then w.queue[1..] else w.queue
  {
  }

  ghost predicate HasLive(w: World, id: string) {
    exists h: nat :: Live(w, h) && w.executions[h].id == id
  }

  lemma RegisteredLive(w: World, id: string)
    requires Consistent(w)
    ensures HasLive(w, id) <==> id in w.running && Live(w, w.running[id])
  {
    assert Registered(w, id);
    if HasLive(w, id) {
      var h: nat :| Live(w, h) && w.executions[h].id == id;
      assert Reachable(w, h);
    }
  }

  lemma {:induction false} ClosedStays(w: World, events: seq<Event>)
    requires w.closing
    ensures Run(w, events).closing
    decreases |events|
  {
    if events != [] { ClosedStays(w, events[..|events| - 1]); }
  }

  /** After shutdown has begun only a resume spawns; the execution it starts is alive and not waited for. */
  lemma LateResumeEscapes(before: seq<Event>, after: seq<Event>, e: Event)
    requires forall i :: 0 <= i < |after| ==> !after[i].Stop?
    ensures var w := Run(Next(Run(EMPTY, before), Stop), after);
            && (|Next(w, e).executions| > |w.executions| <==> e.Resume? && !HasLive(w, e.id))
            && (e.Resume? && !HasLive(w, e.id) ==>
                  Live(Next(w, e), |w.executions|) && |w.executions| !in Next(w, e).draining)
  {
    var stopped := Next(Run(EMPTY, before), Stop);
    var w := Run(stopped, after);
    ConsistentRun(EMPTY, before);
    ConsistentNext(Run(EMPTY, before), Stop);
    ConsistentRun(stopped, after);
    ClosedStays(stopped, after);
    if e.Resume? { RegisteredLive(w, e.id); }
    DrainedAreOld(Run(EMPTY, before), after, |w.executions|);
  }

  // ---------- the queue object ----------

  class LocalTaskQueue {
    var queue: seq<string>
    var running: map<string, nat>
    var executions: seq<Execution>
    var canceled: set<string>
    var closing: bool
    var draining: set<nat>

    ghost function View(): (w: World) reads this {
      World(queue, running, executions, canceled, closing, draining)
    }

    constructor ()
      ensures View() == EMPTY
    {
      queue, running, executions, canceled, closing, draining := [], map[], [], {}, false, {};
    }

    /** A second submission of a task that is running is refused and changes nothing. */
    method SpawnExecution(id: string) returns (spawned: bool)
      requires Consistent(View())
      modifies this
      ensures Consistent(View()) && View() == Next(old(View()), Resume(id))
      ensures spawned <==> forall h: nat :: Live(old(View()), h) ==> old(View()).executions[h].id != id
    {
      ghost var w := View();
      ConsistentNext(w, Resume(id));
      assert Registered(w, id);
      if id in running && (executions[running[id]].phase == Waiting || executions[running[id]].phase == Started) {
        assert Live(w, w.running[id]);
        return false;
      }
      forall h: nat | Live(w, h)
        ensures w.executions[h].id != id
      {
        assert Reachable(w, h);
      }
      running := running[id := |executions|];
      executions := executions + [Execution(id, Waiting)];
      return true;
    }

    /** The callback clears its own registration only, never that of a newer execution of the task. */
    method DoneCallback(h: nat)
      requires Consistent(View()) && h < |executions| && executions[h].phase == Done
      modifies this
      ensures Consistent(View()) && View() == Next(old(View()), Callback(h))
      ensures forall id :: id in running <==> id in old(running) && old(running)[id] != h
    {
      ghost var w := View();
      ConsistentNext(w, Callback(h));
      forall id | id in running && running[id] == h
        ensures id == executions[h].id
      {
        assert Registered(w, id);
      }
      var id := executions[h].id;
      executions := executions[h := executions[h].(phase := Retired)];
      if id in running && running[id] == h { running := running - {id}; }
    }

    /** True for every task with a live execution; for any other only while a finished one awaits its callback. */
    method CancelTask(id: string) returns (accepted: bool)
      requires Consistent(View())
      modifies this`canceled
      ensures Consistent(View()) && View() == Next(old(View()), Cancel(id))
      ensures (exists h: nat :: Live(View(), h) && executions[h].id == id) ==> accepted
      ensures accepted ==> id in canceled &&
                           exists h: nat :: h < |executions| && executions[h].id == id && executions[h].phase != Retired
    {
      ghost var w := View();
      ConsistentNext(w, Cancel(id));
      accepted := id in running;
      if accepted { canceled := canceled + {id}; }
      assert Registered(w, id);
      forall h: nat | Live(View(), h) && executions[h].id == id
        ensures accepted
      {
        assert Reachable(w, h);
      }
    }

    /** `stop` up to the point where it waits: every live execution is waited for, the rest are finished ones. */
    method BeginShutdown()
      requires Consistent(View())
      modifies this
      ensures Consistent(View()) && View() == Next(old(View()), Stop)
      ensures forall h: nat :: Live(View(), h) ==> h in draining
    {
      ConsistentNext(View(), Stop);
      closing := true;
      draining := running.Values;
      forall h: nat | Live(View(), h)
        ensures h in draining
      {
        assert Reachable(View(), h);
      }
    }
  }
}
