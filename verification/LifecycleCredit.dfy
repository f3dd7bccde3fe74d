/**
 What startup recovery may say of an attempt (src/service.ts, lines 1032-1230).
 In every run whose writers have the newest attempt (`Fresh`), recovery never
 credits an attempt that has started with an earlier attempt's result, and every
 attempt but the newest has left its result. A stale seat breaks the first claim,
 and a seat that dies between an attempt's record and its first event shows why
 the claim is about attempts that have started: both runs are built at the end.
 LifecycleExact.dfy says exactly what breaks it over all runs.
 */
module LifecycleCredit {
  import opened Contracts
  import opened Outcomes
  import opened Lifecycle
  import opened LifecycleSafety

  predicate StartAt(d: Disk, i: int) {
    0 <= i < |d.events| && d.events[i].Starting?
  }

  function LastSnapshot(d: Disk): nat {
    if d.snapshot.Some? then d.snapshot.value.last else 0
  }

  /** `o` tells of an attempt no earlier than any that has started. */
  ghost predicate Credits(d: Disk, o: Credited) {
    forall i {:trigger StartAt(d, i)} :: StartAt(d, i) ==> d.events[i].attempt <= o.about
  }

  /**
   Of a disk no abandonment was asked of: every attempt but the newest is covered
   by the snapshot, and the snapshot tells of no attempt earlier than one it covers.
   */
  ghost predicate Covered(d: Disk) {
    && (forall i {:trigger StartAt(d, i)} :: StartAt(d, i) && d.events[i].attempt + 1 < d.attempts ==> i < LastSnapshot(d))
    && (d.snapshot.Some? ==> IsRunResult(d.snapshot.value.outcome.result))
    && (forall i {:trigger StartAt(d, i)} :: StartAt(d, i) && i < LastSnapshot(d) ==>
        d.events[i].attempt <= d.snapshot.value.outcome.about)
    && (d.attempts >= 2 ==> d.snapshot.Some?)
  }

  ghost predicate Good(d: Disk) {
    && (!d.recorded ==> d == Disk(false, 0, [], None))
    && (forall i {:trigger StartAt(d, i)} :: StartAt(d, i) ==> d.events[i].attempt < d.attempts)
    && LastSnapshot(d) <= |d.events|
    && (Over(d.events) ==> Asked(d.events) && !Pending(d.events))
    && (Asked(d.events) || Covered(d))
  }

  predicate Within(d: Disk, p: Attempt) {
    d.recorded && (p < d.attempts || (d.attempts == 0 && p == 0))
  }

  /** A seat that remembers the newest attempt knows a result that the disk bears out. */
  ghost predicate MemoryOk(d: Disk, m: Memory) {
    && Within(d, m.plan)
    && (m.outcome.Some? ==> m.outcome.value.result.status == m.status)
    && (m.outcome.Some? && m.plan + 1 == d.attempts && !Asked(d.events) ==>
          && d.snapshot.Some? && Credits(d, m.outcome.value)
          && forall i {:trigger StartAt(d, i)} :: StartAt(d, i) && d.events[i].attempt == m.plan ==> i < LastSnapshot(d))
  }

  // ----- one write -----

  ghost predicate GoodWrite(d: Disk, w: Write) {
    match w
    case CreateRun => true
    case CreateAttempt(p) =>
      && d.recorded && p == d.attempts
      && (Asked(d.events) || p == 0 ||
          (d.snapshot.Some? && forall i {:trigger StartAt(d, i)} :: StartAt(d, i) ==> i < LastSnapshot(d)))
    case Append(e) =>
      && d.recorded
      && (e.Starting? ==> e.attempt + 1 == d.attempts)
      && (e.RunAbandoned? ==> Asked(d.events))
      && (e.RunAbandoning? ==> !Over(d.events))
    case PutSnapshot(o) => d.recorded && (Asked(d.events) || (IsRunResult(o.result) && Credits(d, o)))
  }

  /** What an appended event leaves alone. */
  lemma AppendKeeps(d: Disk, e: Event)
    ensures var t := Wrote(d, Append(e));
            && (Asked(d.events) || e.RunAbandoning? <==> Asked(t.events))
            && (Over(d.events) || e.RunAbandoned? <==> Over(t.events))
            && (Pending(t.events) <==> e.RunAbandoning? || (Pending(d.events) && !e.RunAbandoned?))
            && (forall i {:trigger StartAt(t, i)} :: 0 <= i < |d.events| ==>
                (StartAt(t, i) <==> StartAt(d, i)) && t.events[i] == d.events[i])
            && (forall i {:trigger StartAt(t, i)} :: StartAt(t, i) ==> i < |d.events| || (i == |d.events| && e.Starting?))
  {
    LastAfter(d.events, e, false);
    LastAfter(d.events, e, true);
  }

  lemma AppendIsGood(d: Disk, e: Event)
    requires Good(d) && GoodWrite(d, Append(e))
    ensures Good(Wrote(d, Append(e)))
  {
    AppendKeeps(d, e);
    var t := Wrote(d, Append(e));
    forall i | StartAt(t, i) ensures t.events[i].attempt < t.attempts {
      if i < |d.events| { assert StartAt(d, i); }
    }
    if !Asked(t.events) {
      forall i | StartAt(t, i)
        ensures t.events[i].attempt + 1 < t.attempts ==> i < LastSnapshot(t)
        ensures i < LastSnapshot(t) ==> t.events[i].attempt <= t.snapshot.value.outcome.about
      {
        if i < |d.events| { assert StartAt(d, i); }
      }
    }
  }

  lemma OtherIsGood(d: Disk, w: Write)
    requires Good(d) && GoodWrite(d, w) && !w.Append?
    ensures Good(Wrote(d, w))
  {
    var t := Wrote(d, w);
    assert forall i {:trigger StartAt(t, i)} :: StartAt(t, i) <==> StartAt(d, i);
  }

  /** The write that records attempt `p` or starts it. */
  predicate Names(w: Write, p: Attempt) {
    (w.CreateAttempt? && w.attempt == p) || (w.Append? && w.event.Starting? && w.event.attempt == p)
  }

  lemma AppendKeepsMemory(d: Disk, e: Event, m: Memory)
    requires MemoryOk(d, m) && GoodWrite(d, Append(e))
    requires e.Starting? ==> e.attempt != m.plan
    ensures MemoryOk(Wrote(d, Append(e)), m)
  {
    AppendKeeps(d, e);
    var t := Wrote(d, Append(e));
    if m.outcome.Some? && m.plan + 1 == t.attempts && !Asked(t.events) {
      forall i | StartAt(t, i)
        ensures t.events[i].attempt <= m.outcome.value.about
        ensures t.events[i].attempt == m.plan ==> i < LastSnapshot(t)
      {
        assert i < |d.events|;
        assert StartAt(d, i);
      }
    }
  }

  lemma OtherKeepsMemory(d: Disk, w: Write, m: Memory)
    requires Good(d) && MemoryOk(d, m) && GoodWrite(d, w) && !w.Append? && !Names(w, m.plan)
    ensures MemoryOk(Wrote(d, w), m)
  {
    var t := Wrote(d, w);
    assert forall i {:trigger StartAt(t, i)} :: StartAt(t, i) <==> StartAt(d, i);
    if m.outcome.Some? && m.plan + 1 == t.attempts && !Asked(t.events) {
      forall i | StartAt(t, i) ensures t.events[i].attempt <= m.outcome.value.about {
        assert StartAt(d, i);
      }
    }
  }

  lemma WriteIsGood(d: Disk, w: Write)
    requires Good(d) && GoodWrite(d, w)
    ensures Good(Wrote(d, w))
  {
    if w.Append? { AppendIsGood(d, w.event); } else { OtherIsGood(d, w); }
  }

  lemma WriteKeepsMemory(d: Disk, w: Write, m: Memory)
    requires Good(d) && MemoryOk(d, m) && GoodWrite(d, w)
    requires !Names(w, m.plan)
    ensures MemoryOk(Wrote(d, w), m)
  {
    if w.Append? { AppendKeepsMemory(d, w.event, m); } else { OtherKeepsMemory(d, w, m); }
  }

  // ----- one plan -----

  ghost predicate GoodWrites(d: Disk, writes: seq<Write>) {
    forall n {:trigger After(d, writes, n)} :: 0 <= n < |writes| ==> GoodWrite(After(d, writes, n), writes[n])
  }

  /** A quiet event: it starts nothing. */
  predicate Quiet(w: Write) {
    w.Append? && !w.event.Starting?
  }

  ghost predicate OnlyQuietSince(d: Disk, t: Disk) {
    && t.recorded == d.recorded && t.attempts == d.attempts && t.snapshot == d.snapshot
    && d.events <= t.events
    && (forall i {:trigger StartAt(t, i)} :: StartAt(t, i) ==> StartAt(d, i) && t.events[i] == d.events[i])
    && (Asked(d.events) ==> Asked(t.events))
  }

  lemma {:induction false} QuietAll(d: Disk, writes: seq<Write>, n: nat)
    requires n <= |writes| && forall i :: 0 <= i < n ==> Quiet(writes[i])
    ensures OnlyQuietSince(d, After(d, writes, n))
  {
    if n > 0 {
      QuietAll(d, writes, n - 1);
      var t := After(d, writes, n - 1);
      AppendKeeps(t, writes[n - 1].event);
      var u := After(d, writes, n);
      forall i | StartAt(u, i) ensures StartAt(d, i) && u.events[i] == d.events[i] {
        assert StartAt(t, i);
      }
    }
  }

  /** Some quiet events and then one snapshot: the shape of every operation that is not an attempt. */
  ghost predicate QuietThenPut(d: Disk, plan: Plan) {
    && |plan.writes| > 0
    && (forall i :: 0 <= i < |plan.writes| - 1 ==> Quiet(plan.writes[i]))
    && plan.writes[|plan.writes| - 1].PutSnapshot?
    && plan.after.outcome == Some(plan.writes[|plan.writes| - 1].outcome)
    && plan.after.status == plan.after.outcome.value.result.status
    && (Asked(d.events) || (IsRunResult(plan.after.outcome.value.result) && Credits(d, plan.after.outcome.value)))
    && (forall n :: 0 <= n < |plan.writes| && plan.writes[n].Append? && plan.writes[n].event.RunAbandoned? ==>
          Asked(After(d, plan.writes, n).events))
    && (|plan.writes| > 0 && plan.writes[0] == Append(RunAbandoning) ==> !Over(d.events))
    && (forall n :: 0 < n < |plan.writes| ==> plan.writes[n] != Append(RunAbandoning))
  }

  lemma QuietPlan(d: Disk, plan: Plan)
    requires Good(d) && d.recorded && QuietThenPut(d, plan) && Within(d, plan.after.plan)
    ensures GoodWrites(d, plan.writes)
    ensures MemoryOk(After(d, plan.writes, |plan.writes|), plan.after)
  {
    forall n | 0 <= n < |plan.writes| ensures GoodWrite(After(d, plan.writes, n), plan.writes[n]) {
      QuietWrite(d, plan, n);
    }
    QuietMemory(d, plan);
  }

  lemma QuietWrite(d: Disk, plan: Plan, n: nat)
    requires Good(d) && d.recorded && QuietThenPut(d, plan) && n < |plan.writes|
    ensures GoodWrite(After(d, plan.writes, n), plan.writes[n])
  {
    QuietAll(d, plan.writes, n);
    assert After(d, plan.writes, 0) == d;
    var t := After(d, plan.writes, n);
    if plan.writes[n].PutSnapshot? && !Asked(t.events) {
      forall i | StartAt(t, i) ensures t.events[i].attempt <= plan.after.outcome.value.about {
        assert StartAt(d, i);
      }
    }
  }

  lemma QuietMemory(d: Disk, plan: Plan)
    requires Good(d) && d.recorded && QuietThenPut(d, plan) && Within(d, plan.after.plan)
    ensures MemoryOk(After(d, plan.writes, |plan.writes|), plan.after)
  {
    var last := |plan.writes| - 1;
    QuietAll(d, plan.writes, last);
    var t, u := After(d, plan.writes, last), After(d, plan.writes, |plan.writes|);
    assert u == Wrote(t, plan.writes[last]);
    if !Asked(d.events) {
      forall i | StartAt(u, i) ensures u.events[i].attempt <= plan.after.outcome.value.about {
        assert StartAt(t, i) && StartAt(d, i);
      }
    }
  }

  lemma RecoverIsGood(d: Disk, shares: bool, p: Attempt)
    requires Good(d) && Within(d, p)
    ensures var plan := RecoverPlan(d, shares, p);
            GoodWrites(d, plan.writes) && MemoryOk(After(d, plan.writes, |plan.writes|), plan.after)
  {
    var plan := RecoverPlan(d, shares, p);
    if plan.writes != [] {
      if !Asked(d.events) { NothingLater(d, p); }
      QuietPlan(d, plan);
    } else if !Asked(d.events) {
      PriorCredits(d, p);
    }
  }

  /** Without a covering snapshot, the attempt to recover is the newest one. */
  lemma NothingLater(d: Disk, p: Attempt)
    requires Good(d) && Within(d, p) && !Asked(d.events) && Prior(d, p).None?
    ensures forall i {:trigger StartAt(d, i)} :: StartAt(d, i) ==> d.events[i].attempt <= p
  {
    if p + 1 < d.attempts {
      forall i | 0 <= i < |d.events| && d.events[i].Starting? && d.events[i].attempt == p ensures i < LastSnapshot(d) {
        assert StartAt(d, i);
      }
      assert Covers(d, p);
    }
  }

  /** A covering snapshot tells of `p` or a later attempt, if `p` has started. */
  lemma PriorCredits(d: Disk, p: Attempt)
    requires Good(d) && Within(d, p) && !Asked(d.events) && Prior(d, p).Some?
    ensures forall i {:trigger StartAt(d, i)} :: StartAt(d, i) && d.events[i].attempt <= p ==>
              i < LastSnapshot(d) && d.events[i].attempt <= Prior(d, p).value.about
  {
    forall i | StartAt(d, i) && d.events[i].attempt <= p
      ensures i < LastSnapshot(d) && d.events[i].attempt <= Prior(d, p).value.about
    {
      if d.events[i].attempt == p { assert Covers(d, p); }
    }
  }

  lemma AttemptIsGood(d: Disk, m: Option<Memory>, r: Request, result: RunResult)
    requires Good(d) && Starts(r) && AttemptResult(result)
    requires if r.Launch? then !d.recorded
             else m.Some? && MemoryOk(d, m.value) && m.value.outcome.Some? && m.value.plan + 1 == d.attempts && !Asked(d.events)
    ensures var plan := AttemptPlan(d.attempts, r, result);
            GoodWrites(d, plan.writes) && MemoryOk(After(d, plan.writes, |plan.writes|), plan.after)
  {
    var p, o := d.attempts, Credited(result, d.attempts);
    var w := AttemptPlan(p, r, result).writes;
    var first := if r.Continue? || r.Launch? then 1 else 0;
    var d1 := After(d, w, first);
    BeforeRecord(d, m, r, result, first);
    WriteIsGood(d1, CreateAttempt(p));
    var d2 := Wrote(d1, CreateAttempt(p));
    assert After(d, w, first + 1) == d2;
    AppendIsGood(d2, Starting(p, r));
    var d3 := Wrote(d2, Append(Starting(p, r)));
    assert After(d, w, first + 2) == d3;
    AppendIsGood(d3, w[first + 2].event);
    var d4 := Wrote(d3, w[first + 2]);
    assert After(d, w, first + 3) == d4;
    assert d4.attempts == p + 1;
    forall n | 0 <= n < |w| ensures GoodWrite(After(d, w, n), w[n]) {
      assert n == 0 || n == first || n == first + 1 || n == first + 2 || n == first + 3;
    }
    AttemptMemory(d4, p, o);
    assert After(d, w, first + 4) == Wrote(d4, PutSnapshot(o));
  }

  lemma AttemptMemory(d: Disk, p: Attempt, o: Credited)
    requires Good(d) && d.recorded && d.attempts == p + 1 && o.about == p
    ensures MemoryOk(Wrote(d, PutSnapshot(o)), Remember(p, o))
  {
    var t := Wrote(d, PutSnapshot(o));
    forall i | StartAt(t, i) ensures t.events[i].attempt <= p {
      assert StartAt(d, i);
    }
  }

  /** The write in front of the record leaves it possible to create. */
  lemma BeforeRecord(d: Disk, m: Option<Memory>, r: Request, result: RunResult, first: nat)
    requires Good(d) && Starts(r) && AttemptResult(result) && first == (if r.Continue? || r.Launch? then 1 else 0)
    requires if r.Launch? then !d.recorded
             else m.Some? && MemoryOk(d, m.value) && m.value.outcome.Some? && m.value.plan + 1 == d.attempts && !Asked(d.events)
    ensures var w := AttemptPlan(d.attempts, r, result).writes;
            && Good(After(d, w, first)) && GoodWrite(After(d, w, first), CreateAttempt(d.attempts))
            && (first == 1 ==> GoodWrite(d, w[0])) && After(d, w, first).attempts == d.attempts && After(d, w, 0) == d
  {
    var w := AttemptPlan(d.attempts, r, result).writes;
    assert After(d, w, 0) == d;
    if first == 1 {
      assert After(d, w, 1) == Wrote(d, w[0]);
      WriteIsGood(d, w[0]);
    }
    var t := After(d, w, first);
    if r.Continue? { AppendKeeps(d, w[0].event); }
    if !r.Launch? {
      forall i | StartAt(t, i) ensures i < LastSnapshot(t) {
        assert StartAt(d, i);
      }
    }
  }

  /** What a writer has when it begins, in a fresh run. */
  ghost predicate FreshJob(d: Disk, m: Option<Memory>, r: Request) {
    if r.Recover? then Within(d, r.latest)
    else if r.Launch? then !d.recorded
    else m.Some? && MemoryOk(d, m.value) && m.value.plan + 1 == d.attempts
  }

  lemma PlansAreGood(d: Disk, shares: bool, m: Option<Memory>, r: Request, a: Answers)
    requires Good(d) && Guarded(m, r) && FreshJob(d, m, r) && PlanOf(d, shares, m, r, a).Some?
    ensures var plan := PlanOf(d, shares, m, r, a).value;
            GoodWrites(d, plan.writes) && MemoryOk(After(d, plan.writes, |plan.writes|), plan.after)
  {
    if r.Recover? {
      RecoverIsGood(d, shares, r.latest);
    } else if Starts(r) {
      if Asked(d.events) && !r.Launch? { AskedDecides(d); }
      AttemptIsGood(d, m, r, a.result);
    } else if r.Release? && m.value.outcome.None? {
      AppendKeeps(d, RunReleased);
      AppendIsGood(d, RunReleased);
      AppendKeepsMemory(d, RunReleased, m.value);
      var w := [Append(RunReleased)];
      assert After(d, w, 0) == d && After(d, w, 1) == Wrote(d, w[0]);
      forall n | 0 <= n < |w| ensures GoodWrite(After(d, w, n), w[n]) { assert n == 0; }
    } else {
      CleanupIsQuiet(d, shares, m.value, r, a);
      QuietPlan(d, PlanOf(d, shares, m, r, a).value);
    }
  }

  lemma CleanupIsQuiet(d: Disk, shares: bool, m: Memory, r: Request, a: Answers)
    requires Good(d) && Guarded(Some(m), r) && FreshJob(d, Some(m), r) && PlanOf(d, shares, Some(m), r, a).Some?
    requires r.Release? || r.Reconcile? || r.Abandon?
    requires m.outcome.Some? || !r.Release?
    ensures QuietThenPut(d, PlanOf(d, shares, Some(m), r, a).value)
  {
    if !Asked(d.events) && m.outcome.None? {
      forall i | StartAt(d, i) ensures d.events[i].attempt <= m.plan {}
    }
    if r.Release? { ReleaseIsQuiet(d, shares, m, a); }
    else if r.Reconcile? { ReconcileIsQuiet(d, shares, m, a); }
    else { AbandonIsQuiet(d, shares, m, a); }
  }

  lemma ReleaseIsQuiet(d: Disk, shares: bool, m: Memory, a: Answers)
    requires m.outcome.Some? && (Asked(d.events) || Credits(d, m.outcome.value))
    requires ReleasePlan(d, shares, m, a.freed).Some?
    ensures QuietThenPut(d, ReleasePlan(d, shares, m, a.freed).value)
  {
    assert forall o: Credited :: o.about == m.outcome.value.about && Credits(d, m.outcome.value) ==> Credits(d, o);
  }

  lemma ReconcileIsQuiet(d: Disk, shares: bool, m: Memory, a: Answers)
    requires Asked(d.events) || Credits(d,
        Credited(ReconciledResult(d, shares, m, a), if m.outcome.Some? then m.outcome.value.about else m.plan))
    requires ReconcilePlan(d, shares, m, a).Some?
    ensures QuietThenPut(d, ReconcilePlan(d, shares, m, a).value)
  {
    var w := ReconcilePlan(d, shares, m, a).value.writes;
    assert After(d, w, 0) == d;
  }

  lemma AbandonIsQuiet(d: Disk, shares: bool, m: Memory, a: Answers)
    requires m.outcome.Some? && Durable(d) == Some(Interrupted) && Clean(m.outcome.value.result.sandbox)
    requires Asked(d.events) || Credits(d, m.outcome.value)
    ensures QuietThenPut(d, AbandonPlan(shares, m, a.freed))
  {
    var w := AbandonPlan(shares, m, a.freed).writes;
    assert After(d, w, 0) == d && After(d, w, 1) == Wrote(d, w[0]);
    AppendKeeps(d, w[0].event);
    assert forall o: Credited :: o.about == m.outcome.value.about && Credits(d, m.outcome.value) ==> Credits(d, o);
  }

  // ----- whole runs -----

  /** Only an attempt's own writes name an attempt, the next one. */
  lemma PlanNames(d: Disk, shares: bool, m: Option<Memory>, r: Request, a: Answers, n: nat, p: Attempt)
    requires Guarded(m, r) && Good(d) && FreshJob(d, m, r) && PlanOf(d, shares, m, r, a).Some?
    requires n < |PlanOf(d, shares, m, r, a).value.writes|
    ensures Names(PlanOf(d, shares, m, r, a).value.writes[n], p) ==> Starts(r) && p == d.attempts
  {}

  ghost predicate FreshSeat(s: State, id: SeatId)
    requires id in s.seats
  {
    var seat := s.seats[id];
    && (seat.memory.Some? ==> MemoryOk(s.disk, seat.memory.value))
    && (Waits(s, id) && seat.job.value.request.Recover? ==> Within(s.disk, seat.job.value.request.latest))
    && (Works(s, id) ==>
          && Good(seat.job.value.start) && FreshJob(seat.job.value.start, seat.memory, seat.job.value.request)
          && (Starts(seat.job.value.request) ==> AllBefore(s, seat.job.value.start.attempts)))
  }

  /** No seat remembers attempt `p` or a later one. */
  ghost predicate AllBefore(s: State, p: Attempt) {
    forall id :: id in s.seats && s.seats[id].memory.Some? ==> s.seats[id].memory.value.plan < p
  }

  ghost predicate FreshInv(s: State) {
    Inv(s) && Good(s.disk) && forall id :: id in s.seats ==> FreshSeat(s, id)
  }

  lemma FreshDo(s: State, id: SeatId)
    requires FreshInv(s) && Enabled(s, Do(id))
    ensures FreshInv(Apply(s, Do(id)))
  {
    DoStep(s, id);
    var t := Apply(s, Do(id));
    NextIsGood(s, id);
    WriteIsGood(s.disk, Writes(s, id)[s.seats[id].job.value.done]);
    forall other | other in t.seats ensures FreshSeat(t, other) { FreshDoSeat(s, id, other); }
  }

  /** The next write of a fresh job keeps the disk good and names no attempt a seat remembers. */
  lemma NextIsGood(s: State, id: SeatId)
    requires FreshInv(s) && Enabled(s, Do(id))
    ensures var w := Writes(s, id)[s.seats[id].job.value.done];
            GoodWrite(s.disk, w) && forall other :: other in s.seats && s.seats[other].memory.Some? ==>
                                      !Names(w, s.seats[other].memory.value.plan)
  {
    assert JobOk(s, id) && FreshSeat(s, id);
    var job := s.seats[id].job.value;
    PlansAreGood(job.start, s.shares, s.seats[id].memory, job.request, job.answers);
    assert GoodWrite(After(job.start, Writes(s, id), job.done), Writes(s, id)[job.done]);
    forall other | other in s.seats && s.seats[other].memory.Some?
      ensures !Names(Writes(s, id)[job.done], s.seats[other].memory.value.plan)
    {
      PlanNames(job.start, s.shares, s.seats[id].memory, job.request, job.answers, job.done, s.seats[other].memory.value.plan);
    }
  }

  lemma FreshDoSeat(s: State, id: SeatId, other: SeatId)
    requires FreshInv(s) && Enabled(s, Do(id)) && other in s.seats
    ensures FreshSeat(Apply(s, Do(id)), other)
  {
    var t := Apply(s, Do(id));
    var w := Writes(s, id)[s.seats[id].job.value.done];
    NextIsGood(s, id);
    assert FreshSeat(s, other);
    if s.seats[other].memory.Some? { WriteKeepsMemory(s.disk, w, s.seats[other].memory.value); }
    if Works(s, other) && Starts(s.seats[other].job.value.request) {
      SameMemories(s, t, s.seats[other].job.value.start.attempts);
    }
  }

  lemma SameMemories(s: State, t: State, p: Attempt)
    requires AllBefore(s, p)
    requires forall id :: id in t.seats && t.seats[id].memory.Some? ==> id in s.seats && t.seats[id].memory == s.seats[id].memory
    ensures AllBefore(t, p)
  {}

  lemma OneWriter(s: State, id: SeatId, other: SeatId)
    requires Inv(s) && Works(s, id) && Works(s, other)
    ensures id == other
  {
    assert JobOk(s, id) && JobOk(s, other);
  }

  /** A job that ends leaves a memory that fits the disk. */
  lemma EndMemory(s: State, a: Action)
    requires FreshInv(s) && Enabled(s, a) && (a.Finish? || a.Throw?)
    ensures var m := Apply(s, a).seats[a.seat].memory;
            m.Some? ==> MemoryOk(s.disk, m.value)
  {
    var id := a.seat;
    var job := s.seats[id].job.value;
    assert JobOk(s, id) && FreshSeat(s, id);
    if a.Throw? {
      if Fallback(s, id, a.launched).Some? { ThrowMemory(s, id, a.launched); }
    } else {
      PlansAreGood(job.start, s.shares, s.seats[id].memory, job.request, job.answers);
    }
  }

  lemma FreshEnd(s: State, a: Action)
    requires FreshInv(s) && Enabled(s, a) && (a.Finish? || a.Throw?)
    ensures FreshInv(Apply(s, a))
  {
    StepKeepsInv(s, a);
    EndMemory(s, a);
    var t := Apply(s, a);
    forall other | other in t.seats ensures FreshSeat(t, other) {
      assert FreshSeat(s, other);
      if Works(s, other) { OneWriter(s, a.seat, other); }
    }
  }

  lemma ThrowMemory(s: State, id: SeatId, launched: bool)
    requires FreshInv(s) && Enabled(s, Throw(id, launched)) && Fallback(s, id, launched).Some?
    ensures MemoryOk(s.disk, Fallback(s, id, launched).value)
  {
    var job := s.seats[id].job.value;
    assert JobOk(s, id) && FreshSeat(s, id);
    if launched {
      LaunchedWithin(job.start, s.shares, s.seats[id].memory, job.request, job.answers, job.done);
    } else if job.request.Abandon? && job.done > 0 {
      AskedKeepsMemory(job.start, Writes(s, id), job.done, Fallback(s, id, launched).value);
    }
  }

  /** Once an abandonment is asked for, a memory only has to be of a recorded attempt. */
  lemma AskedKeepsMemory(d: Disk, writes: seq<Write>, n: nat, m: Memory)
    requires 0 < n <= |writes| && writes[0] == Append(RunAbandoning) && Within(d, m.plan)
    requires m.outcome.Some? ==> m.outcome.value.result.status == m.status
    ensures MemoryOk(After(d, writes, n), m)
  {
    AskedFromFirst(d, writes, n);
    QuietWithin(d, writes, n, m.plan);
  }

  lemma {:induction false} QuietWithin(d: Disk, writes: seq<Write>, n: nat, p: Attempt)
    requires n <= |writes| && Within(d, p)
    ensures Within(After(d, writes, n), p) && After(d, writes, n).attempts >= d.attempts
  {
    if n > 0 { QuietWithin(d, writes, n - 1, p); }
  }

  lemma {:induction false} AskedFromFirst(d: Disk, writes: seq<Write>, n: nat)
    requires 0 < n <= |writes| && writes[0] == Append(RunAbandoning)
    ensures Asked(After(d, writes, n).events)
  {
    if n > 1 { AskedFromFirst(d, writes, n - 1); } else { assert After(d, writes, 0) == d; }
    var t := After(d, writes, n - 1);
    if writes[n - 1].Append? { AppendKeeps(t, writes[n - 1].event); }
  }

  /** Once its record is written, an attempt's own seat remembers a recorded attempt. */
  lemma LaunchedWithin(d: Disk, shares: bool, m: Option<Memory>, r: Request, a: Answers, n: nat)
    requires Good(d) && FreshJob(d, m, r) && Starts(r) && PlanOf(d, shares, m, r, a).Some?
    requires |PlanOf(d, shares, m, r, a).value.writes| - 3 <= n <= |PlanOf(d, shares, m, r, a).value.writes|
    ensures var plan := PlanOf(d, shares, m, r, a).value;
            Within(After(d, plan.writes, n), plan.after.plan)
  {
    RecordedOnceLaunched(d, PlanOf(d, shares, m, r, a).value.writes, n);
  }

  lemma RecordedOnceLaunched(d: Disk, writes: seq<Write>, n: nat)
    requires |writes| >= 4 && |writes| - 3 <= n <= |writes| && writes[|writes| - 4].CreateAttempt? && |writes| <= 5
    requires |writes| == 5 ==> writes[0] == CreateRun || writes[0].Append?
    requires d.recorded || writes[0] == CreateRun
    ensures After(d, writes, n).recorded && writes[|writes| - 4].attempt < After(d, writes, n).attempts
  {
    var at := |writes| - 4;
    assert After(d, writes, 0) == d;
    assert at == 1 ==> After(d, writes, 1) == Wrote(d, writes[0]);
    var t := After(d, writes, at + 1);
    assert t == Wrote(After(d, writes, at), writes[at]);
    StaysRecorded(d, writes, at + 1, n);
  }

  lemma {:induction false} StaysRecorded(d: Disk, writes: seq<Write>, i: nat, n: nat)
    requires i <= n <= |writes| && After(d, writes, i).recorded
    ensures After(d, writes, n).recorded && After(d, writes, i).attempts <= After(d, writes, n).attempts
  {
    if i < n { StaysRecorded(d, writes, i, n - 1); }
  }

  /** Every other step leaves disk and memories alone. */
  lemma MemoriesStay(s: State, a: Action)
    requires Enabled(s, a) && !a.Do? && !a.Finish? && !a.Throw?
    ensures var t := Apply(s, a);
            && t.disk == s.disk
            && forall id :: id in t.seats && t.seats[id].memory.Some? ==> id in s.seats && t.seats[id].memory == s.seats[id].memory
  {}

  lemma SameSeat(s: State, t: State, id: SeatId)
    requires id in s.seats && id in t.seats && t.seats[id] == s.seats[id] && t.disk == s.disk && FreshSeat(s, id)
    requires forall k :: k in t.seats && t.seats[k].memory.Some? ==> k in s.seats && t.seats[k].memory == s.seats[k].memory
    ensures FreshSeat(t, id)
  {
    if Works(s, id) && Starts(s.seats[id].job.value.request) { SameMemories(s, t, s.seats[id].job.value.start.attempts); }
  }

  lemma FreshBystander(s: State, a: Action, other: SeatId)
    requires FreshInv(s) && Enabled(s, a) && !a.Do? && !a.Finish? && !a.Throw?
    requires other in s.seats && other in Apply(s, a).seats && !(a.Begin? && a.seat == other)
    ensures FreshSeat(Apply(s, a), other)
  {
    assert FreshSeat(s, other);
    if a.seat != other {
      MemoriesStay(s, a);
      SameSeat(s, Apply(s, a), other);
    }
  }

  lemma FreshBegin(s: State, a: Action)
    requires FreshInv(s) && Enabled(s, a) && Fresh(s, a) && a.Begin?
    ensures FreshSeat(Apply(s, a), a.seat)
  {
    BeginIsFresh(s, a);
    MemoriesStay(s, a);
    assert FreshSeat(s, a.seat);
    if Starts(s.seats[a.seat].job.value.request) { SameMemories(s, Apply(s, a), s.disk.attempts); }
  }

  lemma FreshQuietStep(s: State, a: Action, other: SeatId)
    requires FreshInv(s) && Enabled(s, a) && Fresh(s, a) && !a.Do? && !a.Finish? && !a.Throw?
    requires other in Apply(s, a).seats
    ensures FreshSeat(Apply(s, a), other)
  {
    if a.Begin? && a.seat == other { FreshBegin(s, a); }
    else if other in s.seats { FreshBystander(s, a, other); }
  }

  lemma BeginIsFresh(s: State, a: Action)
    requires FreshInv(s) && Enabled(s, a) && Fresh(s, a) && a.Begin?
    ensures var r := s.seats[a.seat].job.value.request;
            FreshJob(s.disk, s.seats[a.seat].memory, r) && (Starts(r) ==> AllBefore(s, s.disk.attempts))
  {
    var r := s.seats[a.seat].job.value.request;
    assert FreshSeat(s, a.seat) && JobOk(s, a.seat);
    forall id | Starts(r) && id in s.seats && s.seats[id].memory.Some? ensures s.seats[id].memory.value.plan < s.disk.attempts {
      assert FreshSeat(s, id);
    }
  }

  lemma FreshStep(s: State, a: Action)
    requires FreshInv(s) && Enabled(s, a) && Fresh(s, a)
    ensures FreshInv(Apply(s, a))
  {
    if a.Do? {
      FreshDo(s, a.seat);
    } else if a.Finish? || a.Throw? {
      FreshEnd(s, a);
    } else {
      StepKeepsInv(s, a);
      forall other | other in Apply(s, a).seats ensures FreshSeat(Apply(s, a), other) { FreshQuietStep(s, a, other); }
    }
  }

  lemma {:induction false} FreshRunKeepsInv(states: seq<State>, actions: seq<Action>, i: nat)
    requires IsFreshRun(states, actions) && Init(states[0]) && i < |states|
    ensures FreshInv(states[i])
  {
    if i > 0 {
      FreshRunKeepsInv(states, actions, i - 1);
      FreshStep(states[i - 1], actions[i - 1]);
    }
  }

  /**
   A seat that recovers the run says of an attempt that has started that
   attempt's own result or a later one's, or that the run is blocked or abandoned.
   */
  lemma RecoveryNeverCreditsEarlier(states: seq<State>, actions: seq<Action>, i: nat, k: nat)
    requires IsFreshRun(states, actions) && Init(states[0]) && i < |actions|
    requires actions[i].Finish? && states[i].seats[actions[i].seat].job.value.request.Recover?
    requires k < |states[i].disk.events| && states[i].disk.events[k].Starting?
    ensures var m := states[i + 1].seats[actions[i].seat].memory.value;
            && m.outcome.Some? && m.status == m.outcome.value.result.status
            && (states[i].disk.events[k].attempt == m.plan ==>
                  m.status.CleanupBlocked? || m.status.Abandoned? || m.plan <= m.outcome.value.about)
  {
    var s, id := states[i], actions[i].seat;
    FreshRunKeepsInv(states, actions, i);
    assert JobOk(s, id) && FreshSeat(s, id);
    var job := s.seats[id].job.value;
    var p := job.request.latest;
    var plan := RecoverPlan(job.start, s.shares, p);
    if plan.writes == [] {
      assert s.disk == job.start && StartAt(s.disk, k);
      if !Asked(s.disk.events) { PriorCredits(s.disk, p); }
    }
  }

  /** Until an abandonment is asked for, every attempt but the newest has left its result in the snapshot. */
  lemma OlderResultsKept(states: seq<State>, actions: seq<Action>, i: nat)
    requires IsFreshRun(states, actions) && Init(states[0]) && i < |states|
    ensures Asked(states[i].disk.events) || Covered(states[i].disk)
  {
    FreshRunKeepsInv(states, actions, i);
  }

  // ----- a stale seat breaks it -----

  lemma Extend(states: seq<State>, actions: seq<Action>, a: Action) returns (moreStates: seq<State>, moreActions: seq<Action>)
    requires IsRun(states, actions) && Enabled(states[|states| - 1], a)
    ensures IsRun(moreStates, moreActions) && moreStates[0] == states[0]
    ensures |moreStates| > 0 && moreStates[|moreStates| - 1] == Apply(states[|states| - 1], a)
  {
    moreStates, moreActions := states + [Apply(states[|states| - 1], a)], actions + [a];
  }

  /** The seat waiting for the lease gets it and carries its operation out, with nobody in the way. */
  lemma Perform(states: seq<State>, actions: seq<Action>, id: SeatId, a: Answers)
      returns (moreStates: seq<State>, moreActions: seq<Action>)
    requires IsRun(states, actions)
    requires var s := states[|states| - 1];
             && Waits(s, id) && s.holder == None
             && PlanOf(s.disk, s.shares, s.seats[id].memory, s.seats[id].job.value.request, a).Some?
    ensures IsRun(moreStates, moreActions) && moreStates[0] == states[0] && |moreStates| > 0
    ensures var s := states[|states| - 1];
            var r := s.seats[id].job.value.request;
            var plan := PlanOf(s.disk, s.shares, s.seats[id].memory, r, a).value;
            moreStates[|moreStates| - 1] ==
              State(s.shares, After(s.disk, plan.writes, |plan.writes|),
                    if plan.after.status.CleanupBlocked? && Starts(r) then Some(id) else None,
                    s.seats[id := Seat(Some(plan.after), None)])
  {
    var s := states[|states| - 1];
    moreStates, moreActions := Extend(states, actions, Begin(id, a));
    var plan := JobPlan(s.shares, moreStates[|moreStates| - 1].seats[id]).value;
    moreStates, moreActions := DoAll(moreStates, moreActions, id, |plan.writes|);
    moreStates, moreActions := Extend(moreStates, moreActions, Finish(id));
  }

  lemma SameKey(m: map<SeatId, Seat>, id: SeatId, x: Seat, y: Seat)
    ensures m[id := x][id := y] == m[id := y]
  {}

  lemma {:induction false} DoAll(states: seq<State>, actions: seq<Action>, id: SeatId, n: nat)
      returns (moreStates: seq<State>, moreActions: seq<Action>)
    requires IsRun(states, actions) && OnPlan(states[|states| - 1], id)
    requires var s := states[|states| - 1];
             s.seats[id].job.value.done == 0 && n <= |Writes(s, id)| && s.disk == s.seats[id].job.value.start
    ensures IsRun(moreStates, moreActions) && moreStates[0] == states[0] && |moreStates| > 0
    ensures var s := states[|states| - 1];
            moreStates[|moreStates| - 1] ==
              s.(disk := After(s.disk, Writes(s, id), n),
                 seats := s.seats[id := s.seats[id].(job := Some(s.seats[id].job.value.(done := n)))])
  {
    var s := states[|states| - 1];
    if n == 0 {
      moreStates, moreActions := states, actions;
      assert s.seats[id := s.seats[id].(job := Some(s.seats[id].job.value.(done := 0)))] == s.seats;
    } else {
      moreStates, moreActions := DoAll(states, actions, id, n - 1);
      assert Writes(moreStates[|moreStates| - 1], id) == Writes(s, id);
      SameKey(s.seats, id, moreStates[|moreStates| - 1].seats[id], s.seats[id].(job := Some(s.seats[id].job.value.(done := n))));
      moreStates, moreActions := Extend(moreStates, moreActions, Do(id));
    }
  }

  /** An attempt that failed and may be retried by hand. */
  function FailedResult(): RunResult {
    RunResult(Failed, Some(Failure(Tool, ToolOrigin, Manual, None)), Proved, NotNeeded, false)
  }

  function Failing(): Answers {
    Answers(FailedResult(), Proved, Proved, NoSession, true)
  }

  function FirstDisk(): Disk {
    Disk(true, 1, [Starting(0, Launch), Ended(0, false)], Some(Snapshot(2, Credited(FailedResult(), 0))))
  }

  function SecondDisk(): Disk {
    Disk(true, 2, FirstDisk().events + [Starting(1, Retry), Ended(1, false)], Some(Snapshot(4, Credited(FailedResult(), 1))))
  }

  function RemembersFirst(): Memory { Memory(0, Failed, Some(Credited(FailedResult(), 0))) }

  lemma FirstAttempt() returns (states: seq<State>, actions: seq<Action>)
    ensures IsRun(states, actions) && Init(states[0])
    ensures states[|states| - 1] == State(true, FirstDisk(), None, map[0 := Seat(Some(RemembersFirst()), None)])
  {
    states, actions := [State(true, Disk(false, 0, [], None), None, map[])], [];
    states, actions := Extend(states, actions, Join(0));
    states, actions := Extend(states, actions, Ask(0, Launch));
    var d := Disk(false, 0, [], None);
    var w := AttemptPlan(0, Launch, FailedResult()).writes;
    assert After(d, w, 5) == FirstDisk() by { FiveWrites(d, w); }
    states, actions := Perform(states, actions, 0, Failing());
  }

  lemma FiveWrites(d: Disk, w: seq<Write>)
    requires |w| == 5
    ensures After(d, w, 5) == Wrote(Wrote(Wrote(Wrote(Wrote(d, w[0]), w[1]), w[2]), w[3]), w[4])
  {
    assert After(d, w, 1) == Wrote(d, w[0]);
    assert After(d, w, 2) == Wrote(After(d, w, 1), w[1]);
    assert After(d, w, 3) == Wrote(After(d, w, 2), w[2]);
    assert After(d, w, 4) == Wrote(After(d, w, 3), w[3]);
  }

  lemma FourWrites(d: Disk, w: seq<Write>)
    requires |w| == 4
    ensures After(d, w, 4) == Wrote(Wrote(Wrote(Wrote(d, w[0]), w[1]), w[2]), w[3])
  {
    assert After(d, w, 1) == Wrote(d, w[0]);
    assert After(d, w, 2) == Wrote(After(d, w, 1), w[1]);
    assert After(d, w, 3) == Wrote(After(d, w, 2), w[2]);
  }

  /** Seat 1 recovers the run as it is after the first attempt. */
  lemma SecondSeat() returns (states: seq<State>, actions: seq<Action>)
    ensures IsRun(states, actions) && Init(states[0])
    ensures states[|states| - 1] == State(true, FirstDisk(), None,
              map[0 := Seat(Some(RemembersFirst()), None), 1 := Seat(Some(RemembersFirst()), None)])
  {
    states, actions := FirstAttempt();
    states, actions := Extend(states, actions, Boot(1));
    NoMarks(FirstDisk());
    assert Prior(FirstDisk(), 0) == Some(Credited(FailedResult(), 0));
    states, actions := Perform(states, actions, 1, Failing());
  }

  /** Seat 1 retries the run; seat 0 still remembers the first attempt. */
  lemma SecondAttempt() returns (states: seq<State>, actions: seq<Action>)
    ensures IsRun(states, actions) && Init(states[0])
    ensures states[|states| - 1] == State(true, SecondDisk(), None,
              map[0 := Seat(Some(RemembersFirst()), None),
                  1 := Seat(Some(Memory(1, Failed, Some(Credited(FailedResult(), 1)))), None)])
  {
    states, actions := SecondSeat();
    NoMarks(FirstDisk());
    states, actions := Extend(states, actions, Ask(1, Retry));
    FourWrites(FirstDisk(), AttemptPlan(1, Retry, FailedResult()).writes);
    assert After(FirstDisk(), AttemptPlan(1, Retry, FailedResult()).writes, 4) == SecondDisk();
    states, actions := Perform(states, actions, 1, Failing());
  }

  /** Seat 1 has written the retry's attempt record and nothing else of it. */
  lemma RecordOnly() returns (states: seq<State>, actions: seq<Action>)
    ensures IsRun(states, actions) && Init(states[0])
    ensures var s := states[|states| - 1];
            s.shares && s.disk == FirstDisk().(attempts := 2) && s.holder == Some(1) && s.seats.Keys == {0, 1}
  {
    states, actions := SecondSeat();
    NoMarks(FirstDisk());
    states, actions := Extend(states, actions, Ask(1, Retry));
    states, actions := Extend(states, actions, Begin(1, Failing()));
    states, actions := Extend(states, actions, Do(1));
  }

  /**
   Why the claim speaks of attempts that have started: a seat that dies between
   the attempt record and `attempt-starting` leaves a run that recovers with the
   new plan and the old result.
   */
  lemma DiesBeforeStarting() returns (states: seq<State>, actions: seq<Action>)
    ensures IsRun(states, actions) && Init(states[0])
    ensures var s := states[|states| - 1];
            && 2 in s.seats && s.seats[2].memory == Some(Memory(1, Failed, Some(Credited(FailedResult(), 0))))
            && s.disk == FirstDisk().(attempts := 2)
  {
    states, actions := RecordOnly();
    var died := FirstDisk().(attempts := 2);
    states, actions := Extend(states, actions, Crash(1));
    states, actions := Extend(states, actions, Boot(2));
    NoMarks(died);
    assert Prior(died, 1) == Some(Credited(FailedResult(), 0));
    states, actions := Perform(states, actions, 2, Failing());
  }

  lemma NoMarks(d: Disk)
    requires forall i :: 0 <= i < |d.events| ==> !d.events[i].RunAbandoning? && !d.events[i].RunAbandoned?
    ensures !Pending(d.events) && !Over(d.events) && !Asked(d.events)
  {
    AskedIs(d.events, false, |d.events|);
    AskedIs(d.events, true, |d.events|);
  }

  /** What seat 0's release leaves: the first attempt's result behind the second attempt. */
  function StaleDisk(): Disk {
    Disk(true, 2, SecondDisk().events + [RunReleased], Some(Snapshot(5, Credited(FailedResult(), 0))))
  }

  /**
   Without `Fresh` the claim fails: seat 0 releases the workspace with the result
   it remembers, and a seat that then recovers the run reports the first
   attempt's result for the second attempt, which has its own.
   */
  lemma StaleReleaseMiscredits() returns (states: seq<State>, actions: seq<Action>)
    ensures IsRun(states, actions) && Init(states[0])
    ensures var s := states[|states| - 1];
            && 2 in s.seats && s.seats[2].memory == Some(Memory(1, Failed, Some(Credited(FailedResult(), 0))))
            && s.disk == StaleDisk() && s.disk.events[2] == Starting(1, Retry)
  {
    states, actions := SecondAttempt();
    states, actions := Extend(states, actions, Ask(0, Release));
    NoMarks(SecondDisk());
    var plan := ReleasePlan(SecondDisk(), true, RemembersFirst(), true).value;
    assert plan.writes == [Append(RunReleased), PutSnapshot(Credited(FailedResult(), 0))];
    assert After(SecondDisk(), plan.writes, 1) == Wrote(SecondDisk(), plan.writes[0]);
    assert After(SecondDisk(), plan.writes, 2) == StaleDisk();
    states, actions := Perform(states, actions, 0, Failing());
    states, actions := Extend(states, actions, Boot(2));
    NoMarks(StaleDisk());
    assert Prior(StaleDisk(), 1) == Some(Credited(FailedResult(), 0));
    states, actions := Perform(states, actions, 2, Failing());
  }
}
