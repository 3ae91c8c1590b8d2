/**
 The sliding-window request limiter kept in memory (app/api/ratelimit.py `SlidingWindowLimiter`).
 */
module RateLimiting {
  import opened Basics

  /** How many of the times lie after `cutoff`. */
  function CountAfter(times: seq<real>, cutoff: real): (n: nat) {
    if times == [] then 0 else (if times[0] > cutoff then 1 else 0) + CountAfter(times[1..], cutoff)
  }

  ghost predicate Ordered(times: seq<real>) {
    forall i, j :: 0 <= i < j < |times| ==> times[i] <= times[j]
  }

  lemma {:induction false} CountAfterAppend(a: seq<real>, b: seq<real>, cutoff: real)
    ensures CountAfter(a + b, cutoff) == CountAfter(a, cutoff) + CountAfter(b, cutoff)
  {
    if a == [] {
      assert a + b == b;
    } else {
      CountAfterAppend(a[1..], b, cutoff);
      assert (a + b)[1..] == a[1..] + b;
    }
  }

  lemma CountAfterSnoc(times: seq<real>, t: real, cutoff: real)
    ensures CountAfter(times + [t], cutoff) == CountAfter(times, cutoff) + if t > cutoff then 1 else 0
  {
    CountAfterAppend(times, [t], cutoff);
    assert [t][1..] == [];
  }

  lemma {:induction false} CountAfterAll(times: seq<real>, cutoff: real)
    requires forall i :: 0 <= i < |times| ==> times[i] > cutoff
    ensures CountAfter(times, cutoff) == |times|
  {
    if times != [] { CountAfterAll(times[1..], cutoff); }
  }

  lemma {:induction false} CountAfterNone(times: seq<real>, cutoff: real)
    requires forall i :: 0 <= i < |times| ==> times[i] <= cutoff
    ensures CountAfter(times, cutoff) == 0
  {
    if times != [] { CountAfterNone(times[1..], cutoff); }
  }

  lemma {:induction false} CountAfterMonotone(times: seq<real>, early: real, late: real)
    requires early <= late
    ensures CountAfter(times, late) <= CountAfter(times, early) <= |times|
  {
    if times != [] { CountAfterMonotone(times[1..], early, late); }
  }

  /** From `horizon` on, the two lists cannot be told apart by counting. */
  ghost predicate SameRecent(a: seq<real>, b: seq<real>, horizon: real) {
    forall cutoff: real :: cutoff >= horizon ==> CountAfter(a, cutoff) == CountAfter(b, cutoff)
  }

  /** What is left of an ordered list when its head is popped while it lies at or before `cutoff`. */
  function DropUpTo(times: seq<real>, cutoff: real): (r: seq<real>) {
    if times != [] && times[0] <= cutoff then DropUpTo(times[1..], cutoff) else times
  }

  lemma {:induction false} DropUpToSameRecent(times: seq<real>, cutoff: real)
    ensures SameRecent(DropUpTo(times, cutoff), times, cutoff)
  {
    if times != [] && times[0] <= cutoff { DropUpToSameRecent(times[1..], cutoff); }
  }

  ghost predicate Within(times: seq<real>, low: real, high: real) {
    forall i :: 0 <= i < |times| ==> low < times[i] <= high
  }

  lemma {:induction false} DropUpToOrdered(times: seq<real>, cutoff: real, now: real)
    requires Ordered(times) && forall i :: 0 <= i < |times| ==> times[i] <= now
    ensures Ordered(DropUpTo(times, cutoff)) && Within(DropUpTo(times, cutoff), cutoff, now)
  {
    if times != [] && times[0] <= cutoff {
      DropUpToOrdered(times[1..], cutoff, now);
    }
  }

  lemma SnocSameRecent(a: seq<real>, b: seq<real>, t: real, horizon: real)
    requires SameRecent(a, b, horizon)
    ensures SameRecent(a + [t], b + [t], horizon)
  {
    forall cutoff: real | cutoff >= horizon
      ensures CountAfter(a + [t], cutoff) == CountAfter(b + [t], cutoff)
    {
      CountAfterSnoc(a, t, cutoff);
      CountAfterSnoc(b, t, cutoff);
    }
  }

  // ---------- what the log of admissions looks like ----------

  /** Every admission found fewer than `limit` earlier ones in the window ending with it. */
  ghost predicate Spaced(log: seq<real>, limit: int, window: real) {
    forall i :: 0 <= i < |log| ==> CountAfter(log[..i], log[i] - window) < limit
  }

  lemma SpacedSnoc(log: seq<real>, t: real, limit: int, window: real)
    requires Spaced(log, limit, window) && CountAfter(log, t - window) < limit
    ensures Spaced(log + [t], limit, window)
  {
    forall i | 0 <= i < |log + [t]|
      ensures CountAfter((log + [t])[..i], (log + [t])[i] - window) < limit
    {
      assert (log + [t])[..i] == log[..i];
      assert log[..|log|] == log;
    }
  }

  /** Admissions after `low` and up to `high`. */
  function CountBetween(log: seq<real>, low: real, high: real): (n: nat) {
    if log == [] then 0
    else CountBetween(log[..|log| - 1], low, high) + if low < log[|log| - 1] <= high then 1 else 0
  }

  lemma {:induction false} BetweenBelowAfter(log: seq<real>, low: real, high: real)
    ensures CountBetween(log, low, high) <= CountAfter(log, low)
  {
    if log != [] {
      BetweenBelowAfter(log[..|log| - 1], low, high);
      CountAfterSnoc(log[..|log| - 1], log[|log| - 1], low);
      assert log == log[..|log| - 1] + [log[|log| - 1]];
    }
  }

  /** So no window, wherever it is placed, ever contains more than `limit` admissions. */
  lemma {:induction false} EveryWindowHoldsAtMostLimit(log: seq<real>, limit: int, window: real, t: real)
    requires Spaced(log, limit, window) && limit >= 0
    ensures CountBetween(log, t - window, t) <= limit
    decreases |log|
  {
    if log != [] {
      var init, last := log[..|log| - 1], log[|log| - 1];
      if t - window < last <= t {
        BetweenBelowAfter(init, t - window, t);
        CountAfterMonotone(init, last - window, t - window);
      } else {
        assert Spaced(init, limit, window) by {
          forall i | 0 <= i < |init|
            ensures CountAfter(init[..i], init[i] - window) < limit
          {
            assert init[..i] == log[..i];
          }
        }
        EveryWindowHoldsAtMostLimit(init, limit, window, t);
      }
    }
  }

  ghost predicate NotAfter(log: seq<real>, now: real) {
    log == [] || log[|log| - 1] <= now
  }

  lemma SpacedRecently(log: seq<real>, limit: int, window: real, now: real)
    requires Spaced(log, limit, window) && NotAfter(log, now) && limit >= 0
    ensures CountAfter(log, now - window) <= limit
  {
    if log != [] {
      var init, last := log[..|log| - 1], log[|log| - 1];
      CountAfterMonotone(init, last - window, now - window);
      CountAfterSnoc(init, last, now - window);
      assert log == init + [last];
    }
  }

  // ---------- the limiter ----------

  const MAX_KEYS := 8192

  function RetryAfter(window: real, now: real, oldest: real): (seconds: int) {
    Max(1, (window - (now - oldest)).Floor + 1)
  }

  /** Waiting as told lets the oldest counted hit leave the window. */
  lemma RetryFreesOneSlot(window: real, now: real, queue: seq<real>)
    requires queue != []
    ensures var later := now + RetryAfter(window, now, queue[0]) as real;
            later > now && queue[0] <= later - window && CountAfter(queue, later - window) < |queue|
  {
    var later := now + RetryAfter(window, now, queue[0]) as real;
    CountAfterMonotone(queue[1..], later - window, later - window);
  }

  /** One limiter with one window length; `admitted` is the ghost record of every counted admission. */
  class SlidingWindowLimiter {
    const window: real
    var hits: map<string, seq<real>>
    ghost var admitted: map<string, seq<real>>
    ghost var clock: real

    ghost function Log(key: string): (times: seq<real>)
      reads this
    {
      if key in admitted then admitted[key] else []
    }

    function Queue(key: string): (times: seq<real>)
      reads this
    {
      if key in hits then hits[key] else []
    }

    ghost predicate ValidKey(key: string)
      reads this
    {
      && Ordered(Queue(key)) && (forall i :: 0 <= i < |Queue(key)| ==> Queue(key)[i] <= clock)
      && SameRecent(Queue(key), Log(key), clock - window)
      && NotAfter(Log(key), clock)
    }

    ghost predicate Valid()
      reads this
    {
      window > 0.0 && forall key :: ValidKey(key)
    }

    constructor (w: real, now: real)
      requires w > 0.0
      ensures Valid() && window == w && clock == now && forall key :: Log(key) == []
    {
      window := w;
      hits, admitted, clock := map[], map[], now;
    }

    /** Keys without a recent hit are forgotten; the admissions any later call counts stay the same. */
    method Prune(now: real)
      requires Valid() && clock == now
      modifies this`hits
      ensures Valid()
      ensures forall key :: Log(key) == old(Log(key))
      ensures hits.Keys <= old(hits).Keys && forall key :: key in hits ==> hits[key] == old(hits)[key]
      ensures forall key :: SameRecent(Queue(key), old(Queue(key)), now - window)
    {
      var stale := set key | key in hits && (hits[key] == [] || hits[key][|hits[key]| - 1] <= now - window);
      ghost var before := hits;
      assert forall key :: ValidKey(key);
      hits := hits - stale;
      forall key
        ensures ValidKey(key)
        ensures SameRecent(Queue(key), old(Queue(key)), now - window)
      {
        assert old(ValidKey(key));
        if key in stale { StaleCountsNothing(before[key], now - window); }
      }
    }

    /** The key's queue without its expired head: as long as the number of admissions in the window. */
    method PopExpired(key: string, now: real) returns (queue: seq<real>)
      requires Valid() && clock <= now
      ensures Ordered(queue) && Within(queue, now - window, now) && NotAfter(Log(key), now)
      ensures SameRecent(queue, Log(key), now - window) && |queue| == CountAfter(Log(key), now - window)
    {
      queue := Queue(key);
      var cutoff := now - window;
      assert ValidKey(key);
      while queue != [] && queue[0] <= cutoff
        invariant DropUpTo(queue, cutoff) == DropUpTo(Queue(key), cutoff)
        decreases |queue|
      {
        queue := queue[1..];
      }
      Popped(Queue(key), Log(key), cutoff, now, clock - window);
    }

    /**
     `allow`: a request is admitted exactly when fewer than `limit` admissions of its key lie in the window,
     pruning or not. A refused caller is told a wait after which a hit has expired, and none does more
     than a second earlier; with one limit per key, a request made then finds a free place unless another request
      has taken it.
     */
    method Allow(key: string, limit: int, now: real) returns (ok: bool, retryAfter: int)
      requires Valid() && clock <= now
      modifies this
      ensures Valid() && clock == (if limit <= 0 then old(clock) else now)
      ensures ok <==> limit <= 0 || CountAfter(old(Log(key)), now - window) < limit
      ensures Log(key) == if ok && limit > 0 then old(Log(key)) + [now] else old(Log(key))
      ensures forall other :: other != key ==> Log(other) == old(Log(other))
      ensures limit > 0 && old(Spaced(Log(key), limit, window)) ==> Spaced(Log(key), limit, window)
      ensures ok ==> retryAfter == 0
      ensures !ok ==> retryAfter >= 1 &&
                      CountAfter(Log(key), now + retryAfter as real - window) < CountAfter(Log(key), now - window)
      ensures !ok ==> forall c: real :: now - window <= c < now - window + retryAfter as real - 1.0 ==>
                CountAfter(Log(key), c) == CountAfter(Log(key), now - window)
      ensures !ok && Spaced(Log(key), limit, window) ==> CountAfter(Log(key), now + retryAfter as real - window) < limit
    {
      hide CountAfter, SameRecent, Spaced, RetryAfter;
      if limit <= 0 { return true, 0; }
      var queue := PopExpired(key, now);
      ghost var log := Log(key);
      Bounded(queue, now - window, now);
      if |queue| >= limit {
        retryAfter := RetryAfter(window, now, queue[0]);
        Refusal(queue, log, limit, window, now);
        Requeue(key, queue, log, now);
        return false, retryAfter;
      }
      Admission(queue, log, limit, window, now);
      Requeue(key, queue + [now], log + [now], now);
      if |hits| > MAX_KEYS { Prune(now); }
      return true, 0;
    }

    /** Stores a key's new queue; the other keys stay valid as time passes. */
    method Requeue(key: string, queue: seq<real>, ghost log: seq<real>, now: real)
      requires Valid() && clock <= now
      requires Ordered(queue) && (forall i :: 0 <= i < |queue| ==> queue[i] <= now)
      requires SameRecent(queue, log, now - window)
      requires NotAfter(log, now)
      modifies this
      ensures Valid() && clock == now
      ensures hits == old(hits)[key := queue] && Log(key) == log
      ensures forall other :: other != key ==> Log(other) == old(Log(other))
    {
      hits, admitted, clock := hits[key := queue], admitted[key := log], now;
      forall other
        ensures ValidKey(other)
      {
        assert old(ValidKey(other));
      }
    }
  }

  lemma Bounded(queue: seq<real>, low: real, now: real)
    requires Within(queue, low, now)
    ensures forall i :: 0 <= i < |queue| ==> queue[i] <= now
  {
  }

  lemma Refusal(queue: seq<real>, log: seq<real>, limit: int, window: real, now: real)
    requires queue != [] && |queue| == CountAfter(log, now - window) && SameRecent(queue, log, now - window)
    requires NotAfter(log, now) && limit > 0 && Ordered(queue) && Within(queue, now - window, now)
    ensures var wait := RetryAfter(window, now, queue[0]);
            && wait >= 1 && CountAfter(log, now + wait as real - window) < CountAfter(log, now - window)
            && (Spaced(log, limit, window) ==> CountAfter(log, now + wait as real - window) < limit)
            && forall c: real :: now - window <= c < now - window + wait as real - 1.0 ==>
                 CountAfter(log, c) == CountAfter(log, now - window)
  {
    RetryFreesOneSlot(window, now, queue);
    var wait := RetryAfter(window, now, queue[0]);
    forall c: real | now - window <= c < now - window + wait as real - 1.0
      ensures CountAfter(queue, c) == |queue|
    {
      assert c < queue[0];
      CountAfterAll(queue, c);
    }
    if Spaced(log, limit, window) { SpacedRecently(log, limit, window, now); }
  }

  lemma Admission(queue: seq<real>, log: seq<real>, limit: int, window: real, now: real)
    requires Ordered(queue) && Within(queue, now - window, now) && SameRecent(queue, log, now - window)
    requires CountAfter(log, now - window) < limit
    ensures Ordered(queue + [now]) && SameRecent(queue + [now], log + [now], now - window)
    ensures Spaced(log, limit, window) ==> Spaced(log + [now], limit, window)
  {
    SnocSameRecent(queue, log, now, now - window);
    if Spaced(log, limit, window) { SpacedSnoc(log, now, limit, window); }
  }

  lemma StaleCountsNothing(times: seq<real>, cutoff: real)
    requires Ordered(times) && (times == [] || times[|times| - 1] <= cutoff)
    ensures SameRecent([], times, cutoff)
  {
    forall c: real | c >= cutoff
      ensures CountAfter(times, c) == 0
    {
      CountAfterNone(times, c);
    }
  }

  lemma Popped(queue: seq<real>, log: seq<real>, cutoff: real, now: real, horizon: real)
    requires Ordered(queue) && forall i :: 0 <= i < |queue| ==> queue[i] <= now
    requires SameRecent(queue, log, horizon) && horizon <= cutoff
    ensures var rest := DropUpTo(queue, cutoff);
            && Ordered(rest) && Within(rest, cutoff, now) && SameRecent(rest, log, cutoff)
            && |rest| == CountAfter(log, cutoff)
  {
    DropUpToOrdered(queue, cutoff, now);
    DropUpToSameRecent(queue, cutoff);
    CountAfterAll(DropUpTo(queue, cutoff), cutoff);
  }
}
