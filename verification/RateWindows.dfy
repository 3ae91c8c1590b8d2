/**
 The fixed-window request limiter whose counters live in the database and are shared by all workers
 (app/api/ratelimit.py `DbWindowLimiter`; app/storage/repository.py `rate_limit_hit`).
 */
module RateWindows {
  import opened Basics

  /** A counter is named by the caller's key and the number of the window the request fell into. */
  datatype Slot = Slot(key: string, index: int)

  type Table = map<Slot, nat>

  function Stored(rows: Table, s: Slot): (n: nat) {
    if s in rows then rows[s] else 0
  }

  /** One hit is one transaction: count up, and on a window's first hit drop the key's earlier windows. */
  function Record(rows: Table, s: Slot): (r: Table) {
    var counted := rows[s := Stored(rows, s) + 1];
    if Stored(rows, s) > 0 then counted
    else map o | o in counted && !(o.key == s.key && o.index < s.index) :: counted[o]
  }

  /** The table after the first `n` hits, in the order in which they reached the database. */
  function After(hits: seq<Slot>, n: nat): (rows: Table)
    requires n <= |hits|
  {
    if n == 0 then map[] else Record(After(hits, n - 1), hits[n - 1])
  }

  /** What the caller of hit `i` is told. */
  function Answer(hits: seq<Slot>, i: nat): (n: nat)
    requires i < |hits|
  {
    Stored(After(hits, i), hits[i]) + 1
  }

  /** How many of the first `n` hits fell into window `s`. */
  function Earlier(hits: seq<Slot>, n: nat, s: Slot): (count: nat)
    requires n <= |hits|
  {
    if n == 0 then 0 else Earlier(hits, n - 1, s) + if hits[n - 1] == s then 1 else 0
  }

  /** Every caller is told its own position in its window. */
  ghost predicate Exact(hits: seq<Slot>) {
    forall i: nat :: i < |hits| ==> ExactAt(hits, i)
  }

  ghost predicate ExactAt(hits: seq<Slot>, i: nat)
    requires i < |hits|
  {
    Answer(hits, i) == Earlier(hits, i, hits[i]) + 1
  }

  /** Between two hits of one window, the first hit of a later window of the same key came in. */
  ghost predicate Overtakes(hits: seq<Slot>, i: nat, j: nat, m: nat) {
    && i < j < m < |hits| && hits[i] == hits[m]
    && hits[j].key == hits[m].key && hits[j].index > hits[m].index
    && Earlier(hits, j, hits[j]) == 0
  }

  ghost predicate Overtaken(hits: seq<Slot>) {
    exists i: nat, j: nat, m: nat :: Overtakes(hits, i, j, m)
  }

  lemma {:induction false} EarlierWitness(hits: seq<Slot>, n: nat, s: Slot) returns (i: nat)
    requires n <= |hits| && Earlier(hits, n, s) > 0
    ensures i < n && hits[i] == s
  {
    if hits[n - 1] == s { i := n - 1; } else { i := EarlierWitness(hits, n - 1, s); }
  }

  lemma {:induction false} EarlierGrows(hits: seq<Slot>, a: nat, b: nat, s: Slot)
    requires a <= b <= |hits|
    ensures Earlier(hits, a, s) <= Earlier(hits, b, s)
    ensures (exists i :: a <= i < b && hits[i] == s) ==> Earlier(hits, a, s) < Earlier(hits, b, s)
    decreases b
  {
    if a < b { EarlierGrows(hits, a, b - 1, s); }
  }

  /** A counter is raised only by its own hits. */
  lemma {:induction false} StoredGrowsByHits(hits: seq<Slot>, a: nat, b: nat, s: Slot)
    requires a <= b <= |hits|
    ensures Stored(After(hits, b), s) + Earlier(hits, a, s) <= Stored(After(hits, a), s) + Earlier(hits, b, s)
    decreases b
  {
    if a < b { StoredGrowsByHits(hits, a, b - 1, s); }
  }

  /** No caller is told more than its position: the limiter never refuses early. */
  lemma NeverRefusesEarly(hits: seq<Slot>, i: nat)
    requires i < |hits|
    ensures Answer(hits, i) <= Earlier(hits, i, hits[i]) + 1
  {
    StoredGrowsByHits(hits, 0, i, hits[i]);
  }

  lemma {:induction false} StoredUntilOvertaken(hits: seq<Slot>, n: nat, m: nat)
    requires n <= m < |hits| && !Overtaken(hits)
    ensures Stored(After(hits, n), hits[m]) == Earlier(hits, n, hits[m])
    decreases n
  {
    if n > 0 {
      var s, g := hits[m], hits[n - 1];
      StoredUntilOvertaken(hits, n - 1, m);
      StoredUntilOvertaken(hits, n - 1, n - 1);
      if Earlier(hits, n - 1, s) > 0 {
        var i := EarlierWitness(hits, n - 1, s);
        assert !Overtakes(hits, i, n - 1, m);
      }
    }
  }

  lemma OvertakingLosesCounts(hits: seq<Slot>, i: nat, j: nat, m: nat)
    requires Overtakes(hits, i, j, m)
    ensures Answer(hits, m) < Earlier(hits, m, hits[m]) + 1
  {
    var s := hits[m];
    StoredGrowsByHits(hits, 0, j, hits[j]);
    assert Stored(After(hits, j), hits[j]) == 0;
    assert After(hits, j + 1) == Record(After(hits, j), hits[j]);
    assert Stored(After(hits, j + 1), s) == 0;
    StoredGrowsByHits(hits, j + 1, m, s);
    EarlierGrows(hits, 0, j + 1, s);
  }

  /** Exactly the overtaken runs hand out wrong positions. */
  lemma ExactUnlessOvertaken(hits: seq<Slot>)
    ensures Exact(hits) <==> !Overtaken(hits)
  {
    if Overtaken(hits) {
      var i: nat, j: nat, m: nat :| Overtakes(hits, i, j, m);
      OvertakingLosesCounts(hits, i, j, m);
      assert !ExactAt(hits, m);
    } else {
      forall i: nat | i < |hits|
        ensures ExactAt(hits, i)
      {
        StoredUntilOvertaken(hits, i, i);
      }
    }
  }

  /** Hits that reach the database in window order are never overtaken. */
  lemma InOrderIsExact(hits: seq<Slot>)
    requires forall i, j :: 0 <= i < j < |hits| && hits[i].key == hits[j].key ==> hits[i].index <= hits[j].index
    ensures Exact(hits)
  {
    ExactUnlessOvertaken(hits);
  }

  // ---------- how many requests are admitted ----------

  /** Admitted hits of window `s` among the first `n`. */
  function Admitted(hits: seq<Slot>, n: nat, s: Slot, limit: nat): (count: nat)
    requires n <= |hits|
  {
    if n == 0 then 0
    else Admitted(hits, n - 1, s, limit) + if hits[n - 1] == s && Answer(hits, n - 1) <= limit then 1 else 0
  }

  /** An exact run admits the first `limit` requests of every window and no other. */
  lemma {:induction false} ExactAdmitsFirstLimit(hits: seq<Slot>, n: nat, s: Slot, limit: nat)
    requires n <= |hits| && Exact(hits)
    ensures Admitted(hits, n, s, limit) == if Earlier(hits, n, s) < limit then Earlier(hits, n, s) else limit
  {
    if n > 0 {
      ExactAdmitsFirstLimit(hits, n - 1, s, limit);
      assert ExactAt(hits, n - 1);
    }
  }

  lemma {:induction false} AdmittedAtLeast(hits: seq<Slot>, n: nat, s: Slot, limit: nat)
    requires n <= |hits|
    ensures Admitted(hits, n, s, limit) >= if Earlier(hits, n, s) < limit then Earlier(hits, n, s) else limit
  {
    if n > 0 {
      AdmittedAtLeast(hits, n - 1, s, limit);
      NeverRefusesEarly(hits, n - 1);
    }
  }

  lemma {:induction false} AdmittedGrows(hits: seq<Slot>, a: nat, b: nat, s: Slot, limit: nat)
    requires a <= b <= |hits|
    ensures Admitted(hits, a, s, limit) <= Admitted(hits, b, s, limit)
    decreases b
  {
    if a < b { AdmittedGrows(hits, a, b - 1, s, limit); }
  }

  /** Every window admits at most the limit, whatever the limit is. */
  ghost predicate NeverOverAdmits(hits: seq<Slot>) {
    forall s, limit: nat :: Admitted(hits, |hits|, s, limit) <= limit
  }

  /** An overtaken window admits one request too many under the limit that its earlier requests had used up. */
  lemma OvertakenOverAdmits(hits: seq<Slot>, i: nat, j: nat, m: nat)
    requires Overtakes(hits, i, j, m)
    ensures var limit := Earlier(hits, m, hits[m]); Admitted(hits, |hits|, hits[m], limit) > limit
  {
    var s, limit := hits[m], Earlier(hits, m, hits[m]);
    OvertakingLosesCounts(hits, i, j, m);
    AdmittedAtLeast(hits, m, s, limit);
    assert Admitted(hits, m + 1, s, limit) == Admitted(hits, m, s, limit) + 1;
    AdmittedGrows(hits, m + 1, |hits|, s, limit);
  }

  /** The limits hold, for every window and every limit, exactly when no window is overtaken. */
  lemma LimitsHoldUnlessOvertaken(hits: seq<Slot>)
    ensures NeverOverAdmits(hits) <==> !Overtaken(hits)
  {
    if Overtaken(hits) {
      var i: nat, j: nat, m: nat :| Overtakes(hits, i, j, m);
      OvertakenOverAdmits(hits, i, j, m);
    } else {
      ExactUnlessOvertaken(hits);
      forall s, limit: nat
        ensures Admitted(hits, |hits|, s, limit) <= limit
      {
        ExactAdmitsFirstLimit(hits, |hits|, s, limit);
      }
    }
  }

  /** The shortest input: two windows of a key, and a late hit of the first is admitted a second time. */
  lemma LateHitIsAdmittedAgain(key: string)
    ensures var late := [Slot(key, 0), Slot(key, 1), Slot(key, 0)];
            Overtaken(late) && Admitted(late, 3, Slot(key, 0), 1) == 2
  {
    var late, s := [Slot(key, 0), Slot(key, 1), Slot(key, 0)], Slot(key, 0);
    assert Earlier(late, 0, s) == 0 && Earlier(late, 0, late[1]) == 0;
    assert Earlier(late, 1, s) == 1 && Earlier(late, 1, late[1]) == 0;
    assert Earlier(late, 2, s) == 1;
    assert Overtakes(late, 0, 1, 2);
    OvertakingLosesCounts(late, 0, 1, 2);
    NeverRefusesEarly(late, 0);
    assert Admitted(late, 0, s, 1) == 0;
    assert Admitted(late, 1, s, 1) == 1;
    assert Admitted(late, 2, s, 1) == 1;
  }

  // ---------- wall-clock windows ----------

  datatype Request = Request(key: string, time: real)

  /** The aligned window a time falls into. */
  function WindowIndex(time: real, window: real): (index: int)
    requires window > 0.0
  {
    (time / window).Floor
  }

  lemma ScaleUp(a: real, b: real, window: real)
    requires window > 0.0
    ensures a <= b ==> a * window <= b * window
    ensures a < b ==> a * window < b * window
  {
    assert (b - a) * window == b * window - a * window;
  }

  lemma Quotient(x: real, q: real, window: real)
    requires window > 0.0 && x == q * window
    ensures x / window == q
  {
    var d := x / window;
    assert d * window == x;
    ScaleUp(d, q, window);
    ScaleUp(q, d, window);
  }

  /** Later times fall into later windows, one window length into exactly the next one. */
  lemma WindowOrder(early: real, late: real, window: real)
    requires window > 0.0
    ensures early <= late ==> WindowIndex(early, window) <= WindowIndex(late, window)
    ensures WindowIndex(early + window, window) == WindowIndex(early, window) + 1
  {
    if early <= late && late / window < early / window { ScaleUp(late / window, early / window, window); }
    Quotient(early + window, early / window + 1.0, window);
  }

  function Slots(requests: seq<Request>, window: real): (hits: seq<Slot>)
    requires window > 0.0
    ensures |hits| == |requests|
  {
    seq(|requests|, i requires 0 <= i < |requests| => Slot(requests[i].key, WindowIndex(requests[i].time, window)))
  }

  /** Admitted requests of a key among the first `n` made between `from` and `from + window`. */
  function AdmittedBetween(requests: seq<Request>, n: nat, key: string, from: real, window: real, limit: nat)
    : (count: nat)
    requires n <= |requests| && window > 0.0
  {
    if n == 0 then 0
    else AdmittedBetween(requests, n - 1, key, from, window, limit) +
         if requests[n - 1].key == key && from <= requests[n - 1].time <= from + window &&
            Answer(Slots(requests, window), n - 1) <= limit
         then 1 else 0
  }

  lemma TwoWindowsCover(from: real, time: real, window: real)
    requires window > 0.0 && from <= time <= from + window
    ensures WindowIndex(from, window) <= WindowIndex(time, window) <= WindowIndex(from, window) + 1
  {
    WindowOrder(from, time, window);
    WindowOrder(time, from + window, window);
  }

  lemma {:induction false} IntervalSpansTwoWindows(requests: seq<Request>, n: nat, key: string, from: real,
                                                   window: real, limit: nat)
    requires n <= |requests| && window > 0.0
    ensures var hits, k := Slots(requests, window), WindowIndex(from, window);
            AdmittedBetween(requests, n, key, from, window, limit) <=
            Admitted(hits, n, Slot(key, k), limit) + Admitted(hits, n, Slot(key, k + 1), limit)
  {
    if n > 0 {
      IntervalSpansTwoWindows(requests, n - 1, key, from, window, limit);
      var time := requests[n - 1].time;
      if from <= time <= from + window { TwoWindowsCover(from, time, window); }
    }
  }

  /** All workers together admit at most twice the limit in any interval of one window's length. */
  lemma AtMostTwiceTheLimit(requests: seq<Request>, key: string, from: real, window: real, limit: nat)
    requires window > 0.0 && !Overtaken(Slots(requests, window))
    ensures AdmittedBetween(requests, |requests|, key, from, window, limit) <= 2 * limit
  {
    var hits, k := Slots(requests, window), WindowIndex(from, window);
    ExactUnlessOvertaken(hits);
    IntervalSpansTwoWindows(requests, |requests|, key, from, window, limit);
    ExactAdmitsFirstLimit(hits, |hits|, Slot(key, k), limit);
    ExactAdmitsFirstLimit(hits, |hits|, Slot(key, k + 1), limit);
  }

  // ---------- the limiter ----------

  class DbWindowLimiter {
    const window: real
    var rows: Table
    ghost var hits: seq<Slot>

    ghost predicate Valid() reads this {
      window > 0.0 && rows == After(hits, |hits|)
    }

    constructor (w: real)
      requires w > 0.0
      ensures Valid() && window == w && hits == []
    {
      window, rows, hits := w, map[], [];
    }

    /** `rate_limit_hit`. */
    method Hit(s: Slot) returns (n: nat)
      requires Valid()
      modifies this
      ensures Valid() && hits == old(hits) + [s] && n == Answer(hits, |hits| - 1)
      ensures forall i :: 0 <= i < |old(hits)| ==> Answer(hits, i) == Answer(old(hits), i)
    {
      n := Stored(rows, s) + 1;
      rows := rows[s := n];
      if n == 1 {
        rows := map o | o in rows && !(o.key == s.key && o.index < s.index) :: rows[o];
      }
      hits := hits + [s];
      forall i: nat | i <= |old(hits)|
        ensures After(hits, i) == After(old(hits), i)
      {
        PrefixDecides(old(hits), s, i);
      }
    }

    /**
     `allow`: with the database available the answer is the hit's position against the limit; a refused caller
     who waits as told comes back in a later window, at most a second after its beginning. A failing
      database admits and counts nothing.
     */
    method Allow(key: string, limit: int, now: real, failing: bool) returns (ok: bool, retryAfter: int)
      requires Valid()
      modifies this
      ensures Valid()
      ensures hits == if limit <= 0 || failing then old(hits) else old(hits) + [Slot(key, WindowIndex(now, window))]
      ensures ok <==> limit <= 0 || failing || Answer(hits, |hits| - 1) <= limit
      ensures ok ==> retryAfter == 0
      ensures !ok ==> retryAfter >= 1 && WindowIndex(now + retryAfter as real, window) > WindowIndex(now, window)
      ensures !ok ==> forall t: real :: now <= t < now + retryAfter as real - 1.0 ==>
                WindowIndex(t, window) == WindowIndex(now, window)
    {
      if limit <= 0 || failing { return true, 0; }
      var k := WindowIndex(now, window);
      var n := Hit(Slot(key, k));
      if n <= limit { return true, 0; }
      retryAfter := RetryAfter(k, window, now);
      RetryReachesNextWindow(now, window);
      forall t: real | now <= t < now + retryAfter as real - 1.0
        ensures WindowIndex(t, window) == WindowIndex(now, window)
      {
        RetryIsNoLonger(now, window, t);
      }
      return false, retryAfter;
    }
  }

  function RetryAfter(index: int, window: real, now: real): (seconds: int) {
    Max(1, (index as real * window + window - now).Floor + 1)
  }

  lemma RetryReachesNextWindow(now: real, window: real)
    requires window > 0.0
    ensures var k := WindowIndex(now, window);
            WindowIndex(now + RetryAfter(k, window, now) as real, window) > k
  {
    var k := WindowIndex(now, window);
    var later := now + RetryAfter(k, window, now) as real;
    var next := (k + 1) as real * window;
    assert next == k as real * window + window;
    WindowOrder(next, later, window);
    Quotient(next, (k + 1) as real, window);
  }

  lemma RetryIsNoLonger(now: real, window: real, t: real)
    requires window > 0.0 && now <= t < now + RetryAfter(WindowIndex(now, window), window, now) as real - 1.0
    ensures WindowIndex(t, window) == WindowIndex(now, window)
  {
    var k := WindowIndex(now, window);
    WindowOrder(now, t, window);
    var next := (k + 1) as real * window;
    assert next == k as real * window + window;
    assert t < next;
    var q := t / window;
    assert q * window == t;
    if q >= (k + 1) as real { ScaleUp((k + 1) as real, q, window); }
  }

  lemma {:induction false} PrefixDecides(hits: seq<Slot>, s: Slot, i: nat)
    requires i <= |hits|
    ensures After(hits + [s], i) == After(hits, i)
  {
    if i > 0 { PrefixDecides(hits, s, i - 1); }
  }
}
