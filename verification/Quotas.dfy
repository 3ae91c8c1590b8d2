/**
 Daily submission quotas: insert first, count afterwards, roll back when over the limit
 (app/api/routes_tasks.py `create_task`, `_enforce_daily_quotas`; app/storage/repository.py
 `count_tasks_since`, `delete_task`).
 */
module Quotas {
  import opened Basics

  datatype Row = Row(tenant: string, day: nat)

  /** A limit of zero or less switches the check off. */
  datatype Limits = Limits(perTenant: int, overall: int)

  /** How far a submission has come; `since` is the day it is judged against. */
  datatype Phase =
    | Inserted
    | Judged(since: nat)
    | WithinTenant(since: nat)
    | WithinOverall(since: nat)
    | Accepted(since: nat)
    | Refused
    | Settled

  type Rows = map<nat, Row>

  /** The task table, the submissions in progress or accepted, the next id and the current day. */
  datatype World = World(rows: Rows, phases: map<nat, Phase>, next: nat, today: nat)

  const EMPTY := World(map[], map[], 0, 0)

  function TenantRows(rows: Rows, tenant: string, since: nat): (s: set<nat>) {
    set i | i in rows && rows[i].tenant == tenant && rows[i].day >= since
  }

  function AllRows(rows: Rows, since: nat): (s: set<nat>) {
    set i | i in rows && rows[i].day >= since
  }

  // ---------- the endpoint, run on its own ----------

  /** The tenant's token quota is judged elsewhere; `tokensOk` is its verdict. */
  class Submissions {
    var rows: Rows
    var next: nat

    ghost predicate Valid() reads this {
      forall i :: i in rows ==> i < next
    }

    constructor ()
      ensures Valid() && rows == map[] && next == 0
    {
      rows, next := map[], 0;
    }

    /** `create_task`, uninterrupted: over a limit the table is left as it was. */
    method CreateTask(limits: Limits, tenant: string, today: nat, tokensOk: bool) returns (accepted: bool)
      requires Valid()
      modifies this
      ensures Valid()
      ensures accepted <==>
                && (limits.perTenant > 0 ==> |TenantRows(old(rows), tenant, today)| < limits.perTenant)
                && (limits.overall > 0 ==> |AllRows(old(rows), today)| < limits.overall)
                && tokensOk
      ensures rows == if accepted then old(rows)[old(next) := Row(tenant, today)] else old(rows)
    {
      var id := next;
      var before := rows;
      rows, next := rows[id := Row(tenant, today)], next + 1;
      OwnRowCounts(before, id, tenant, today);
      var tenantCount := |TenantRows(rows, tenant, today)|;
      var overallCount := |AllRows(rows, today)|;
      accepted := true;
      if limits.perTenant > 0 && tenantCount > limits.perTenant {
        accepted := false;
      } else if limits.overall > 0 && overallCount > limits.overall {
        accepted := false;
      } else if !tokensOk {
        accepted := false;
      }
      if !accepted {
        rows := rows - {id};
        assert rows == before;
      }
    }
  }

  lemma OwnRowCounts(rows: Rows, id: nat, tenant: string, day: nat)
    requires id !in rows
    ensures |TenantRows(rows[id := Row(tenant, day)], tenant, day)| == |TenantRows(rows, tenant, day)| + 1
    ensures |AllRows(rows[id := Row(tenant, day)], day)| == |AllRows(rows, day)| + 1
  {
    hide TenantRows, AllRows;
    OwnRowAdded(rows, id, tenant, day);
    OneMore(TenantRows(rows, tenant, day), id);
    OneMore(AllRows(rows, day), id);
  }

  lemma OwnRowAdded(rows: Rows, id: nat, tenant: string, day: nat)
    requires id !in rows
    ensures id !in TenantRows(rows, tenant, day) && id !in AllRows(rows, day)
    ensures TenantRows(rows[id := Row(tenant, day)], tenant, day) == TenantRows(rows, tenant, day) + {id}
    ensures AllRows(rows[id := Row(tenant, day)], day) == AllRows(rows, day) + {id}
  {
  }

  // ---------- concurrent submissions ----------

  datatype Event =
    | Insert(tenant: string)
    | ReadClock(i: nat)
    | CountTenant(i: nat)
    | CountOverall(i: nat)
    | JudgeTokens(i: nat, ok: bool)
    | RollBack(i: nat)
    | Delete(i: nat)
    | Abandon(i: nat)
    | Midnight

  function To(w: World, i: nat, p: Phase): (r: World) {
    w.(phases := w.phases[i := p])
  }

  predicate TenantOk(limits: Limits, w: World, tenant: string, since: nat) {
    limits.perTenant <= 0 || |TenantRows(w.rows, tenant, since)| <= limits.perTenant
  }

  predicate OverallOk(limits: Limits, w: World, since: nat) {
    limits.overall <= 0 || |AllRows(w.rows, since)| <= limits.overall
  }

  /** One database round trip of one submission. Events that do not apply change nothing. */
  function Next(limits: Limits, w: World, e: Event): (r: World) {
    match e
    case Insert(tenant) =>
      w.(rows := w.rows[w.next := Row(tenant, w.today)], phases := w.phases[w.next := Inserted], next := w.next + 1)
    case Midnight => w.(today := w.today + 1)
    case Delete(i) =>
      if i in w.phases && w.phases[i].Accepted? then To(w, i, Settled).(rows := w.rows - {i}) else w
    case Abandon(i) =>
      if i in w.phases && !w.phases[i].Accepted? then To(w, i, Settled) else w
    case RollBack(i) =>
      if i in w.phases && w.phases[i].Refused? then To(w, i, Settled).(rows := w.rows - {i}) else w
    case ReadClock(i) =>
      if i in w.phases && w.phases[i].Inserted? then To(w, i, Judged(w.today)) else w
    case CountTenant(i) =>
      if i in w.phases && w.phases[i].Judged? && i in w.rows then
        var since := w.phases[i].since;
        To(w, i, if TenantOk(limits, w, w.rows[i].tenant, since) then WithinTenant(since) else Refused)
      else w
    case CountOverall(i) =>
      if i in w.phases && w.phases[i].WithinTenant? then
        To(w, i, if OverallOk(limits, w, w.phases[i].since) then WithinOverall(w.phases[i].since) else Refused)
      else w
    case JudgeTokens(i, ok) =>
      if i in w.phases && w.phases[i].WithinOverall? then
        To(w, i, if ok then Accepted(w.phases[i].since) else Refused)
      else w
  }

  function Run(limits: Limits, w: World, events: seq<Event>): (r: World)
    decreases |events|
  {
    if events == [] then w else Next(limits, Run(limits, w, events[..|events| - 1]), events[|events| - 1])
  }

  predicate PassedTenant(w: World, i: nat, since: nat) {
    PassedOverall(w, i, since) || (i in w.phases && w.phases[i] == WithinTenant(since))
  }

  predicate PassedOverall(w: World, i: nat, since: nat) {
    i in w.phases && (w.phases[i] == WithinOverall(since) || w.phases[i] == Accepted(since))
  }

  /** Rows of a tenant and a day that passed the tenant check on that day. */
  function TenantPassed(w: World, tenant: string, day: nat): (s: set<nat>) {
    set i | i in w.rows && w.rows[i] == Row(tenant, day) && PassedTenant(w, i, day)
  }

  function OverallPassed(w: World, day: nat): (s: set<nat>) {
    set i | i in w.rows && w.rows[i].day == day && PassedOverall(w, i, day)
  }

  predicate Fits(limits: Limits, w: World, tenant: string, day: nat) {
    && (limits.perTenant > 0 ==> |TenantPassed(w, tenant, day)| <= limits.perTenant)
    && (limits.overall > 0 ==> |OverallPassed(w, day)| <= limits.overall)
  }

  /** Ids are handed out once. */
  ghost predicate IdsBelow(w: World) {
    forall i :: i in w.rows || i in w.phases ==> i < w.next
  }

  lemma SubsetSize(a: set<nat>, b: set<nat>)
    requires a <= b
    ensures |a| <= |b|
  {
    assert b == a + (b - a);
  }

  /** Everything that has passed was there to be counted when the last one passed. */
  lemma TenantFitsNext(limits: Limits, w: World, e: Event, tenant: string, day: nat)
    requires IdsBelow(w) && limits.perTenant > 0 && |TenantPassed(w, tenant, day)| <= limits.perTenant
    ensures |TenantPassed(Next(limits, w, e), tenant, day)| <= limits.perTenant
  {
    var w' := Next(limits, w, e);
    if e.CountTenant? && TenantPassed(w', tenant, day) != TenantPassed(w, tenant, day) {
      SubsetSize(TenantPassed(w', tenant, day), TenantRows(w.rows, tenant, day));
    } else {
      SubsetSize(TenantPassed(w', tenant, day), TenantPassed(w, tenant, day));
    }
  }

  lemma OverallFitsNext(limits: Limits, w: World, e: Event, day: nat)
    requires IdsBelow(w) && limits.overall > 0 && |OverallPassed(w, day)| <= limits.overall
    ensures |OverallPassed(Next(limits, w, e), day)| <= limits.overall
  {
    var w' := Next(limits, w, e);
    if e.CountOverall? && OverallPassed(w', day) != OverallPassed(w, day) {
      SubsetSize(OverallPassed(w', day), AllRows(w.rows, day));
    } else {
      SubsetSize(OverallPassed(w', day), OverallPassed(w, day));
    }
  }

  lemma FitsNext(limits: Limits, w: World, e: Event, tenant: string, day: nat)
    requires Fits(limits, w, tenant, day) && IdsBelow(w)
    ensures Fits(limits, Next(limits, w, e), tenant, day)
  {
    hide Next, TenantPassed, OverallPassed, IdsBelow;
    if limits.perTenant > 0 { TenantFitsNext(limits, w, e, tenant, day); }
    if limits.overall > 0 { OverallFitsNext(limits, w, e, day); }
  }

  lemma IdsNext(limits: Limits, w: World, e: Event)
    requires IdsBelow(w)
    ensures IdsBelow(Next(limits, w, e))
  {
  }

  lemma {:induction false} FitsRun(limits: Limits, events: seq<Event>, tenant: string, day: nat)
    ensures Fits(limits, Run(limits, EMPTY, events), tenant, day)
    ensures IdsBelow(Run(limits, EMPTY, events))
    decreases |events|
  {
    if events == [] {
      assert TenantPassed(EMPTY, tenant, day) == {} && OverallPassed(EMPTY, day) == {};
    } else {
      FitsRun(limits, events[..|events| - 1], tenant, day);
      FitsNext(limits, Run(limits, EMPTY, events[..|events| - 1]), events[|events| - 1], tenant, day);
      IdsNext(limits, Run(limits, EMPTY, events[..|events| - 1]), events[|events| - 1]);
    }
  }

  /** The accepted, undeleted tasks that were created and judged on the same day. */
  function AcceptedOn(w: World, day: nat): (s: set<nat>) {
    set i | i in w.rows && i in w.phases && w.rows[i].day == day && w.phases[i] == Accepted(day)
  }

  function AcceptedFor(w: World, tenant: string, day: nat): (s: set<nat>) {
    set i | i in AcceptedOn(w, day) && w.rows[i].tenant == tenant
  }

  /**
   However submissions interleave, on no day are more tasks accepted than the tenant's limit for any tenant,
   nor more than the overall limit, counting the tasks that are judged on the day they are created.
   */
  lemma QuotasNeverOverIssue(limits: Limits, events: seq<Event>, tenant: string, day: nat)
    ensures var w := Run(limits, EMPTY, events);
            && (limits.perTenant > 0 ==> |AcceptedFor(w, tenant, day)| <= limits.perTenant)
            && (limits.overall > 0 ==> |AcceptedOn(w, day)| <= limits.overall)
  {
    FitsRun(limits, events, tenant, day);
    var w := Run(limits, EMPTY, events);
    forall i | i in AcceptedFor(w, tenant, day)
      ensures i in TenantPassed(w, tenant, day)
    {
      assert w.rows[i] == Row(w.rows[i].tenant, w.rows[i].day);
    }
    SubsetSize(AcceptedFor(w, tenant, day), TenantPassed(w, tenant, day));
    SubsetSize(AcceptedOn(w, day), OverallPassed(w, day));
  }

  // ---------- tasks judged on another day than the one they were created on ----------

  /** The accepted tasks created on a day that are still in the table, whenever they were judged. */
  function CreatedOn(w: World, day: nat): (s: set<nat>) {
    set i | i in w.rows && i in w.phases && w.rows[i].day == day && w.phases[i].Accepted?
  }

  function CreatedFor(w: World, tenant: string, day: nat): (s: set<nat>) {
    set i | i in CreatedOn(w, day) && w.rows[i].tenant == tenant
  }

  /** Those of them that were judged on a later day. */
  function Crossers(w: World, day: nat): (s: set<nat>) {
    set i | i in CreatedOn(w, day) && w.phases[i].since > day
  }

  function CrossersFor(w: World, tenant: string, day: nat): (s: set<nat>) {
    set i | i in Crossers(w, day) && w.rows[i].tenant == tenant
  }

  /** The day a submission is judged against, once it has read the clock. */
  function Since(p: Phase): (day: Option<nat>) {
    if p.Judged? || p.WithinTenant? || p.WithinOverall? || p.Accepted? then Some(p.since) else None
  }

  /** Nothing is created in the future or judged before it is created. */
  ghost predicate Timely(w: World, i: nat) {
    && (i in w.rows ==> w.rows[i].day <= w.today)
    && (i in w.rows && i in w.phases && Since(w.phases[i]).Some? ==> Since(w.phases[i]).value >= w.rows[i].day)
  }

  lemma TimelyNext(limits: Limits, w: World, e: Event, i: nat)
    requires Timely(w, i) && IdsBelow(w)
    ensures Timely(Next(limits, w, e), i)
  {
  }

  lemma {:induction false} TimelyRun(limits: Limits, events: seq<Event>, i: nat)
    ensures Timely(Run(limits, EMPTY, events), i)
    decreases |events|
  {
    if events != [] {
      TimelyRun(limits, events[..|events| - 1], i);
      FitsRun(limits, events[..|events| - 1], "", 0);
      TimelyNext(limits, Run(limits, EMPTY, events[..|events| - 1]), events[|events| - 1], i);
    }
  }

  lemma UnionSize(a: set<nat>, b: set<nat>)
    ensures |a + b| <= |a| + |b|
  {
    assert a + b == a + (b - a);
    SubsetSize(b - a, b);
  }

  /**
   For every interleaving and every day: the accepted tasks created that day exceed no limit by more than the number
   of them that were judged on a later day.
   */
  lemma QuotasHoldUpToCrossers(limits: Limits, events: seq<Event>, tenant: string, day: nat)
    ensures var w := Run(limits, EMPTY, events);
            && (limits.perTenant > 0 ==>
                  |CreatedFor(w, tenant, day)| <= limits.perTenant + |CrossersFor(w, tenant, day)|)
            && (limits.overall > 0 ==> |CreatedOn(w, day)| <= limits.overall + |Crossers(w, day)|)
  {
    QuotasNeverOverIssue(limits, events, tenant, day);
    var w := Run(limits, EMPTY, events);
    forall i | i in CreatedOn(w, day)
      ensures i in AcceptedOn(w, day) || i in Crossers(w, day)
    {
      TimelyRun(limits, events, i);
    }
    assert CreatedOn(w, day) == AcceptedOn(w, day) + Crossers(w, day);
    assert CreatedFor(w, tenant, day) == AcceptedFor(w, tenant, day) + CrossersFor(w, tenant, day);
    UnionSize(AcceptedOn(w, day), Crossers(w, day));
    UnionSize(AcceptedFor(w, tenant, day), CrossersFor(w, tenant, day));
  }

  // ---------- one such task is enough to exceed any limit ----------

  lemma RunSnoc(limits: Limits, w: World, events: seq<Event>, e: Event)
    ensures Run(limits, w, events + [e]) == Next(limits, Run(limits, w, events), e)
  {
    assert (events + [e])[..|events|] == events;
  }

  /** A submission that has been inserted and finds room passes its checks. */
  lemma Passes(limits: Limits, events: seq<Event>, w: World, i: nat) returns (more: seq<Event>)
    requires Run(limits, EMPTY, events) == w && i in w.rows && i in w.phases && w.phases[i].Inserted?
    requires TenantOk(limits, w, w.rows[i].tenant, w.today) && OverallOk(limits, w, w.today)
    ensures Run(limits, EMPTY, more) == To(w, i, Accepted(w.today))
  {
    hide Next;
    var a, b, c, d := ReadClock(i), CountTenant(i), CountOverall(i), JudgeTokens(i, true);
    RunSnoc(limits, EMPTY, events, a);
    RunSnoc(limits, EMPTY, events + [a], b);
    RunSnoc(limits, EMPTY, events + [a] + [b], c);
    RunSnoc(limits, EMPTY, events + [a] + [b] + [c], d);
    more := events + [a] + [b] + [c] + [d];
    PassesStepwise(limits, w, i);
  }

  lemma PassesStepwise(limits: Limits, w: World, i: nat)
    requires i in w.rows && i in w.phases && w.phases[i].Inserted?
    requires TenantOk(limits, w, w.rows[i].tenant, w.today) && OverallOk(limits, w, w.today)
    ensures Next(limits, Next(limits, Next(limits, Next(limits, w, ReadClock(i)), CountTenant(i)), CountOverall(i)),
                 JudgeTokens(i, true)) == To(w, i, Accepted(w.today))
  {
    var w1 := To(w, i, Judged(w.today));
    var w2 := To(w1, i, WithinTenant(w.today));
    var w3 := To(w2, i, WithinOverall(w.today));
    assert Next(limits, w1, CountTenant(i)) == w2;
    assert Next(limits, w2, CountOverall(i)) == w3;
    assert To(w3, i, Accepted(w.today)) == To(w, i, Accepted(w.today));
  }

  function DayRows(n: nat, t: string): (rows: Rows) {
    map i | i in Below(n) :: Row(t, 0)
  }

  /** `n` tasks of one tenant created and accepted on the first day. */
  function FullDay(n: nat, t: string): (w: World) {
    World(DayRows(n, t), map i | i in Below(n) :: Accepted(0), n, 0)
  }

  /** A full day and one more submission that has been inserted. */
  function Arriving(n: nat, t: string): (w: World) {
    World(DayRows(n + 1, t), FullDay(n, t).phases[n := Inserted], n + 1, 0)
  }

  lemma InsertedDay(limits: Limits, n: nat, t: string)
    ensures Next(limits, FullDay(n, t), Insert(t)) == Arriving(n, t)
  {
    assert DayRows(n, t)[n := Row(t, 0)] == DayRows(n + 1, t);
  }

  lemma AcceptedDay(n: nat, t: string)
    ensures n in Arriving(n, t).rows && Arriving(n, t).rows[n] == Row(t, 0)
    ensures To(Arriving(n, t), n, Accepted(0)) == FullDay(n + 1, t)
    ensures Arriving(n, t).phases[n := Accepted(1)] == FullDay(n, t).phases[n := Accepted(1)]
  {
    assert FullDay(n, t).phases[n := Inserted][n := Accepted(0)] == FullDay(n + 1, t).phases;
  }

  lemma DayCounts(n: nat, t: string)
    ensures |TenantRows(DayRows(n, t), t, 0)| == n && |AllRows(DayRows(n, t), 0)| == n
    ensures TenantRows(DayRows(n, t), t, 1) == {} && AllRows(DayRows(n, t), 1) == {}
  {
    BelowSize(n);
    assert TenantRows(DayRows(n, t), t, 0) == Below(n) == AllRows(DayRows(n, t), 0);
  }

  /** No positive limit is below `n`. */
  predicate Allows(limits: Limits, n: nat) {
    (limits.perTenant > 0 ==> n <= limits.perTenant) && (limits.overall > 0 ==> n <= limits.overall)
  }

  lemma {:induction false} FillDay(limits: Limits, n: nat, t: string) returns (events: seq<Event>)
    requires Allows(limits, n)
    ensures Run(limits, EMPTY, events) == FullDay(n, t)
  {
    if n == 0 {
      events := [];
    } else {
      hide Next, Run, DayRows, FullDay;
      var before := FillDay(limits, n - 1, t);
      RunSnoc(limits, EMPTY, before, Insert(t));
      InsertedDay(limits, n - 1, t);
      DayCounts(n, t);
      AcceptedDay(n - 1, t);
      events := Passes(limits, before + [Insert(t)], Arriving(n - 1, t), n - 1);
    }
  }

  /**
   Whatever the limits, if any is in force: a run that fills the day up to the tightest one and has one submission
   cross midnight between its insertion and its judgement ends with one task too many.
   */
  lemma OneCrosserExceedsAnyLimit(limits: Limits, n: nat, t: string) returns (events: seq<Event>)
    requires Allows(limits, n)
    ensures var w := Run(limits, EMPTY, events);
            |CreatedFor(w, t, 0)| == |CreatedOn(w, 0)| == n + 1 && |CrossersFor(w, t, 0)| == |Crossers(w, 0)| == 1
  {
    hide Run, DayRows, FullDay;
    var before := FillDay(limits, n, t);
    RunSnoc(limits, EMPTY, before, Insert(t));
    RunSnoc(limits, EMPTY, before + [Insert(t)], Midnight);
    InsertedDay(limits, n, t);
    AcceptedDay(n, t);
    var w := Arriving(n, t).(today := 1);
    DayCounts(n + 1, t);
    events := Passes(limits, before + [Insert(t)] + [Midnight], w, n);
    CrosserCounts(n, t, To(w, n, Accepted(1)));
  }

  lemma CrosserCounts(n: nat, t: string, w: World)
    requires w == World(DayRows(n + 1, t), FullDay(n, t).phases[n := Accepted(1)], n + 1, 1)
    ensures |CreatedFor(w, t, 0)| == |CreatedOn(w, 0)| == n + 1 && |CrossersFor(w, t, 0)| == |Crossers(w, 0)| == 1
  {
    BelowSize(n + 1);
    assert CreatedOn(w, 0) == Below(n + 1) == CreatedFor(w, t, 0);
    assert Crossers(w, 0) == {n} == CrossersFor(w, t, 0);
  }
}
