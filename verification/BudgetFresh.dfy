/**
 The books of BudgetRuns.dfy in runs whose writers have the newest attempt and
 whose launches find no run: no attempt leaves two results, and none is charged
 another's result that has its own.
 */
module BudgetFresh {
  import opened Budget
  import opened BudgetRuns
  import opened Contracts
  import opened Outcomes
  import L = Lifecycle
  import LifecycleCredit
  import LifecycleExact
  import LifecycleSafety

  /** Every writer has the newest attempt, and every launch finds no run on disk. */
  ghost predicate IsFreshRun(states: seq<State>, actions: seq<Action>) {
    && IsRun(states, actions)
    && forall i :: 0 <= i < |actions| && actions[i].Act? ==> L.Fresh(states[i].life, actions[i].act)
  }

  predicate HasResult(results: seq<Terminal>, p: nat) {
    exists k :: 0 <= k < |results| && results[k].attempt == p
  }

  /** The seat's job is an attempt whose record is written and whose terminal event is not. */
  predicate RunsIn(s: L.State, id: L.SeatId) {
    && L.OnPlan(s, id) && L.Starts(s.seats[id].job.value.request)
    && s.seats[id].job.value.done + 3 >= |L.Writes(s, id)| > s.seats[id].job.value.done + 1
  }

  function PlanIn(s: L.State, id: L.SeatId): nat
    requires L.OnPlan(s, id)
  {
    L.JobPlan(s.shares, s.seats[id]).value.after.plan
  }

  ghost predicate StartFresh(s: State, id: L.SeatId)
    requires id in s.life.seats
  {
    RunsIn(s.life, id) ==> !HasResult(s.books.results, PlanIn(s.life, id)) && PlanIn(s.life, id) + 1 == |s.books.plans|
  }

  /** Each attempt has at most one result, and one that has started. */
  ghost predicate OneEach(s: State) {
    && (forall j, k :: 0 <= j < k < |s.books.results| ==> s.books.results[j].attempt != s.books.results[k].attempt)
    && forall k :: 0 <= k < |s.books.results| ==> LifecycleExact.StartedBy(s.life.disk, s.books.results[k].attempt)
  }

  /** An attempt charged some result was charged its own, if it has one. */
  ghost predicate OwnCharged(b: Books) {
    forall p :: 0 <= p < |b.charges| ==> OwnCharge(b, p)
  }

  predicate OwnCharge(b: Books, p: nat)
    requires p < |b.charges|
  {
    HasResult(b.results, p) && b.charges[p].tally.source.Journaled? ==> Settled(b, p)
  }

  ghost predicate FreshBooks(s: State) {
    && Inv(s) && LifecycleCredit.FreshInv(s.life) && OneEach(s) && OwnCharged(s.books)
    && forall id :: id in s.life.seats ==> StartFresh(s, id)
  }

  // ----- one write -----

  lemma {:induction false} AttemptsAfter(d: L.Disk, w: seq<L.Write>, n: nat)
    requires 4 <= |w| <= 5 && n <= |w| && w[|w| - 4] == L.CreateAttempt(d.attempts)
    requires forall i :: 0 <= i < |w| && i != |w| - 4 ==> !w[i].CreateAttempt?
    ensures L.After(d, w, n).attempts == if n > |w| - 4 then d.attempts + 1 else d.attempts
  {
    if n > 0 { AttemptsAfter(d, w, n - 1); }
  }

  lemma StartShape(d: L.Disk, shares: bool, m: Option<L.Memory>, r: L.Request, a: L.Answers)
    requires L.Guarded(m, r) && L.Starts(r) && L.PlanOf(d, shares, m, r, a).Some?
    requires LifecycleCredit.FreshJob(d, m, r) && LifecycleCredit.Good(d)
    ensures var plan := L.PlanOf(d, shares, m, r, a).value;
            var w, p := plan.writes, plan.after.plan;
            && p == d.attempts && 4 <= |w| <= 5 && w[|w| - 4] == L.CreateAttempt(p)
            && (forall i :: 0 <= i < |w| && i != |w| - 4 ==> !w[i].CreateAttempt?)
            && w[|w| - 3] == L.Append(L.Starting(p, r)) && w[|w| - 2].Append? && w[|w| - 2].event.Ended?
            && w[|w| - 2].event.attempt == p && w[|w| - 1].PutSnapshot?
  {}

  /** A start names the attempt after those that were there when it began, and has recorded it or not. */
  lemma StartAt(s: State, id: L.SeatId)
    requires FreshBooks(s) && L.OnPlan(s.life, id) && L.Starts(s.life.seats[id].job.value.request)
    ensures var w, done := L.Writes(s.life, id), s.life.seats[id].job.value.done;
            && 4 <= |w| <= 5 && PlanIn(s.life, id) == s.life.seats[id].job.value.start.attempts
            && |s.books.plans| == PlanIn(s.life, id) + (if done + 3 >= |w| then 1 else 0)
  {
    assert LifecycleSafety.JobOk(s.life, id) && LifecycleCredit.FreshSeat(s.life, id);
    var seat := s.life.seats[id];
    var job := seat.job.value;
    StartShape(job.start, s.life.shares, seat.memory, job.request, job.answers);
    AttemptsAfter(job.start, L.Writes(s.life, id), job.done);
  }

  lemma StartedStill(d: L.Disk, w: L.Write, p: nat)
    requires LifecycleExact.StartedBy(d, p)
    ensures LifecycleExact.StartedBy(L.Wrote(d, w), p)
  {
    var i :| LifecycleCredit.StartAt(d, i) && d.events[i].attempt == p;
    assert LifecycleCredit.StartAt(L.Wrote(d, w), i) && L.Wrote(d, w).events[i].attempt == p;
  }

  /** The terminal event of an attempt comes behind its start. */
  lemma EndedStarted(s: State, id: L.SeatId, e: L.Event)
    requires FreshBooks(s) && L.Enabled(s.life, L.Do(id)) && NextWrite(s.life, id) == L.Append(e) && e.Ended?
    ensures RunsIn(s.life, id) && PlanIn(s.life, id) == e.attempt
    ensures LifecycleExact.StartedBy(L.Wrote(s.life.disk, NextWrite(s.life, id)), e.attempt)
  {
    assert LifecycleSafety.JobOk(s.life, id) && LifecycleCredit.FreshSeat(s.life, id);
    EndedNames(s.life, id, e);
    var seat := s.life.seats[id];
    var job := seat.job.value;
    StartShape(job.start, s.life.shares, seat.memory, job.request, job.answers);
    JustStarted(job.start, L.Writes(s.life, id), job.done, e.attempt);
    StartedStill(s.life.disk, NextWrite(s.life, id), e.attempt);
  }

  lemma JustStarted(d: L.Disk, w: seq<L.Write>, n: nat, p: nat)
    requires 0 < n <= |w| && w[n - 1].Append? && w[n - 1].event.Starting? && w[n - 1].event.attempt == p
    ensures LifecycleExact.StartedBy(L.After(d, w, n), p)
  {
    var before, after := L.After(d, w, n - 1), L.After(d, w, n);
    assert LifecycleCredit.StartAt(after, |before.events|) && after.events[|before.events|].attempt == p;
  }

  lemma DoOneEach(s: State, id: L.SeatId, n: Numbers)
    requires FreshBooks(s) && Enabled(s, Act(L.Do(id), n))
    ensures OneEach(Apply(s, Act(L.Do(id), n)))
  {
    var t, w, seat := Apply(s, Act(L.Do(id), n)), NextWrite(s.life, id), s.life.seats[id];
    EntryGrows(s.books, id, seat.memory, seat.job.value.request, seat.job.value.start, w, n);
    if w.Append? && w.event.Ended? {
      EndedStarted(s, id, w.event);
      assert StartFresh(s, id);
    }
    forall k | 0 <= k < |t.books.results| ensures LifecycleExact.StartedBy(t.life.disk, t.books.results[k].attempt) {
      if k < |s.books.results| { StartedStill(s.life.disk, w, s.books.results[k].attempt); }
    }
  }

  /** Other attempts' results make no difference to whether a charge is an attempt's own. */
  lemma OwnStill(b: Books, c: Books, p: nat)
    requires p < |b.charges| && Grown(b, c) && OwnCharge(b, p) && ChargeOk(b, p)
    requires c.results == b.results || (|c.results| == |b.results| + 1 && c.results[|b.results|].attempt != p)
    ensures OwnCharge(c, p)
  {
    if HasResult(c.results, p) {
      var k :| 0 <= k < |c.results| && c.results[k].attempt == p;
      assert k < |b.results| && b.results[k].attempt == p;
    }
  }

  /** A seat with the newest attempt that started knows of no earlier one. */
  lemma KnowsNewest(s: State, id: L.SeatId, p: nat)
    requires FreshBooks(s) && L.Enabled(s.life, L.Do(id)) && NextWrite(s.life, id) == L.CreateAttempt(p)
    requires !s.life.seats[id].job.value.request.Launch?
    ensures var m := s.life.seats[id].memory;
            && m.Some? && m.value.outcome.Some? && m.value.plan + 1 == p == |s.books.plans|
            && (LifecycleExact.StartedBy(s.life.disk, m.value.plan) ==> m.value.outcome.value.about >= m.value.plan)
  {
    assert LifecycleSafety.JobOk(s.life, id) && LifecycleCredit.FreshSeat(s.life, id);
    var seat := s.life.seats[id];
    var job, w, m := seat.job.value, L.Writes(s.life, id), seat.memory;
    RecordNames(s.life, id, p);
    StartShape(job.start, s.life.shares, m, job.request, job.answers);
    StartAt(s, id);
    Unasked(job.start, s.life.shares, m, job.request, job.answers);
    if LifecycleExact.StartedBy(s.life.disk, m.value.plan) {
      StartedBefore(job.start, w, job.done, m.value.plan);
      var i :| LifecycleCredit.StartAt(job.start, i) && job.start.events[i].attempt == m.value.plan;
    }
  }

  /** No attempt but a launch starts once an abandonment is asked for. */
  lemma Unasked(d: L.Disk, shares: bool, m: Option<L.Memory>, r: L.Request, a: L.Answers)
    requires L.Guarded(m, r) && L.Starts(r) && !r.Launch? && L.PlanOf(d, shares, m, r, a).Some?
    ensures !L.Asked(d.events)
  {
    if L.Asked(d.events) { LifecycleSafety.AskedDecides(d); }
  }

  /** Before its own start, an attempt has started nothing. */
  lemma {:induction false} StartedBefore(d: L.Disk, w: seq<L.Write>, n: nat, p: nat)
    requires n <= |w| && LifecycleExact.StartedBy(L.After(d, w, n), p)
    requires forall i :: 0 <= i < n ==> !(w[i].Append? && w[i].event.Starting?)
    ensures LifecycleExact.StartedBy(d, p)
  {
    if n > 0 {
      var t, u := L.After(d, w, n - 1), L.After(d, w, n);
      var i :| LifecycleCredit.StartAt(u, i) && u.events[i].attempt == p;
      assert LifecycleCredit.StartAt(t, i) && t.events[i].attempt == p;
      StartedBefore(d, w, n - 1, p);
    }
  }

  lemma DoOwnCharged(s: State, id: L.SeatId, n: Numbers)
    requires FreshBooks(s) && Enabled(s, Act(L.Do(id), n))
    ensures OwnCharged(Book(s, L.Do(id), n))
  {
    var b, c, w, seat := s.books, Book(s, L.Do(id), n), NextWrite(s.life, id), s.life.seats[id];
    EntryGrows(b, id, seat.memory, seat.job.value.request, seat.job.value.start, w, n);
    if w.Append? && w.event.Ended? {
      EndedStarted(s, id, w.event);
      assert StartFresh(s, id);
    }
    forall p | 0 <= p < |b.charges| ensures OwnCharge(c, p) {
      assert OwnCharge(b, p) && ChargeOk(b, p);
      OwnStill(b, c, p);
    }
    if |c.charges| > |b.charges| { NewCharge(s, id, n); }
  }

  lemma NewCharge(s: State, id: L.SeatId, n: Numbers)
    requires FreshBooks(s) && Enabled(s, Act(L.Do(id), n)) && |Book(s, L.Do(id), n).charges| > |s.books.charges|
    ensures var c := Book(s, L.Do(id), n);
            |c.charges| == |s.books.charges| + 1 && OwnCharge(c, |s.books.charges|)
  {
    var b, c, w := s.books, Book(s, L.Do(id), n), NextWrite(s.life, id);
    assert w.CreateAttempt? && !s.life.seats[id].job.value.request.Launch?;
    RecordedOk(s, id, w.attempt, n);
    KnowsNewest(s, id, w.attempt);
    assert SeatFits(s, id);
    var p := |b.charges|;
    assert ChargeOk(c, p);
    if HasResult(c.results, p) && c.charges[p].tally.source.Journaled? {
      var k :| 0 <= k < |c.results| && c.results[k].attempt == p;
      assert LifecycleExact.StartedBy(s.life.disk, p);
      assert c.results[c.charges[p].tally.source.k].attempt == p;
    }
  }

  lemma DoStart(s: State, id: L.SeatId, n: Numbers)
    requires FreshBooks(s) && Enabled(s, Act(L.Do(id), n))
    ensures StartFresh(Apply(s, Act(L.Do(id), n)), id)
  {
    var t, w, seat := Apply(s, Act(L.Do(id), n)), NextWrite(s.life, id), s.life.seats[id];
    EntryGrows(s.books, id, seat.memory, seat.job.value.request, seat.job.value.start, w, n);
    SamePlan(s.life, id);
    if RunsIn(t.life, id) {
      StartAt(s, id);
      assert StartFresh(s, id);
      PlanEnds(seat.job.value.start, s.life.shares, seat.memory, seat.job.value.request, seat.job.value.answers, seat.job.value.done);
      CreateAt(s, id);
    }
  }

  lemma CreateAt(s: State, id: L.SeatId)
    requires FreshBooks(s) && L.Enabled(s.life, L.Do(id)) && L.Starts(s.life.seats[id].job.value.request)
    ensures s.life.seats[id].job.value.done + 4 == |L.Writes(s.life, id)| <==> NextWrite(s.life, id).CreateAttempt?
    ensures NextWrite(s.life, id).CreateAttempt? ==> NextWrite(s.life, id).attempt == |s.books.plans| == PlanIn(s.life, id)
  {
    assert LifecycleSafety.JobOk(s.life, id) && LifecycleCredit.FreshSeat(s.life, id);
    var seat := s.life.seats[id];
    StartShape(seat.job.value.start, s.life.shares, seat.memory, seat.job.value.request, seat.job.value.answers);
    StartAt(s, id);
  }

  lemma FreshDoKeeps(s: State, id: L.SeatId, n: Numbers)
    requires FreshBooks(s) && Enabled(s, Act(L.Do(id), n))
    ensures FreshBooks(Apply(s, Act(L.Do(id), n)))
  {
    var t := Apply(s, Act(L.Do(id), n));
    DoKeeps(s, id, n);
    LifecycleCredit.FreshDo(s.life, id);
    DoOneEach(s, id, n);
    DoOwnCharged(s, id, n);
    forall other | other in t.life.seats ensures StartFresh(t, other) {
      if other == id { DoStart(s, id, n); }
      else if RunsIn(t.life, other) { LifecycleCredit.OneWriter(s.life, id, other); }
    }
  }

  // ----- the other steps -----

  lemma QuietFresh(s: State, a: L.Action, n: Numbers)
    requires FreshBooks(s) && Enabled(s, Act(a, n)) && L.Fresh(s.life, a) && !a.Do?
    ensures FreshBooks(Apply(s, Act(a, n)))
  {
    var t := Apply(s, Act(a, n));
    QuietKeeps(s, a, n);
    QuietBooks(s, a, n);
    LifecycleCredit.FreshStep(s.life, a);
    forall p | 0 <= p < |t.books.charges| ensures OwnCharge(t.books, p) {
      assert OwnCharge(s.books, p) && ChargeOk(s.books, p);
      OwnStill(s.books, t.books, p);
    }
    forall other | other in t.life.seats ensures StartFresh(t, other) { QuietStart(s, a, n, other); }
  }

  lemma QuietStart(s: State, a: L.Action, n: Numbers, other: L.SeatId)
    requires FreshBooks(s) && Enabled(s, Act(a, n)) && !a.Do? && other in Apply(s, Act(a, n)).life.seats
    ensures StartFresh(Apply(s, Act(a, n)), other)
  {
    var t := Apply(s, Act(a, n));
    QuietBooks(s, a, n);
    if RunsIn(t.life, other) {
      RanBefore(s.life, a, other);
      assert StartFresh(s, other);
    }
  }

  /** An attempt past its record was that before, too. */
  lemma RanBefore(s: L.State, a: L.Action, other: L.SeatId)
    requires L.Enabled(s, a) && !a.Do? && RunsIn(L.Apply(s, a), other)
    ensures other in s.seats && L.Apply(s, a).seats[other] == s.seats[other] && RunsIn(s, other)
  {
    var t := L.Apply(s, a);
    if a.Begin? && a.seat == other {
      var seat := t.seats[other];
      AttemptWrites(seat.job.value.start, t.shares, seat.memory, seat.job.value.request, seat.job.value.answers);
    }
  }

  lemma TickFresh(s: State, id: L.SeatId, used: Used)
    requires FreshBooks(s) && Enabled(s, Tick(id, used))
    ensures FreshBooks(Apply(s, Tick(id, used)))
  {
    var t := Apply(s, Tick(id, used));
    TickKeeps(s, id, used);
    forall p | 0 <= p < |t.books.charges| ensures OwnCharge(t.books, p) {
      assert OwnCharge(s.books, p) && ChargeOk(s.books, p);
      OwnStill(s.books, t.books, p);
    }
    forall other | other in t.life.seats ensures StartFresh(t, other) { assert StartFresh(s, other); }
  }

  lemma FreshBooksStep(s: State, x: Action)
    requires FreshBooks(s) && Enabled(s, x) && (x.Act? ==> L.Fresh(s.life, x.act))
    ensures FreshBooks(Apply(s, x))
  {
    match x
    case Tick(id, used) => TickFresh(s, id, used);
    case Act(a, n) => if a.Do? { FreshDoKeeps(s, a.seat, n); } else { QuietFresh(s, a, n); }
  }

  lemma {:induction false} RunKeepsFresh(states: seq<State>, actions: seq<Action>, i: nat)
    requires IsFreshRun(states, actions) && Init(states[0]) && i < |states|
    ensures FreshBooks(states[i])
  {
    if i > 0 {
      RunKeepsFresh(states, actions, i - 1);
      FreshBooksStep(states[i - 1], actions[i - 1]);
    }
  }

  // ----- what a fresh run leaves unsettled -----

  /**
   In a fresh run an attempt that led to another is settled exactly when it left a
   result and was charged a result: it is not when its seat died or failed before
   that result was known, or before it had any.
   */
  lemma SettledExactly(states: seq<State>, actions: seq<Action>, i: nat, p: nat)
    requires IsFreshRun(states, actions) && Init(states[0]) && i < |states| && p < |states[i].books.charges|
    ensures var b := states[i].books;
            Settled(b, p) <==> HasResult(b.results, p) && b.charges[p].tally.source.Journaled?
  {
    RunKeepsFresh(states, actions, i);
    assert OwnCharge(states[i].books, p);
  }
}
