/** When the books of BudgetRuns.dfy balance: no result is lost before its seat knows it. */
module BudgetSaved {
  import opened Budget
  import opened BudgetFresh
  import opened BudgetRuns
  import opened Contracts
  import opened Outcomes
  import L = Lifecycle
  import LifecycleCredit
  import LifecycleExact
  import LifecycleSafety

  // ----- runs that lose no result -----

  /** A death between terminal event and snapshot, or an error before the seat remembers the result. */
  predicate Loses(s: L.State, a: L.Action) {
    || (a.Crash? && Unsaved(s, a.seat))
    || (a.Throw? && a.launched && EndedIn(s, a.seat))
  }

  predicate Unsaved(s: L.State, id: L.SeatId) {
    EndedIn(s, id) && s.seats[id].job.value.done + 1 == |L.Writes(s, id)|
  }

  ghost predicate LosesNothing(states: seq<State>, actions: seq<Action>)
    requires |states| == |actions| + 1
  {
    forall i :: 0 <= i < |actions| && actions[i].Act? ==> !Loses(states[i].life, actions[i].act)
  }

  /** The newest attempt, if it has a result and nobody asked to abandon the run. */
  predicate Finished(s: State) {
    s.books.plans != [] && HasResult(s.books.results, |s.books.plans| - 1) && !L.Asked(s.life.disk.events)
  }

  /** Its result is about to be saved, or saved behind its start. */
  ghost predicate SavedOk(s: State) {
    Finished(s) ==>
      || (exists id :: id in s.life.seats && Unsaved(s.life, id))
      || (s.books.saved.source.Journaled? && s.life.disk.snapshot.Some? && L.Covers(s.life.disk, |s.books.plans| - 1))
  }

  /** Whoever remembers the newest attempt remembers a result of a terminal event. */
  ghost predicate KnownOk(s: State, id: L.SeatId)
    requires id in s.life.seats
  {
    var m := s.life.seats[id].memory;
    Finished(s) && m.Some? && m.value.plan + 1 == |s.books.plans| ==> m.value.outcome.Some? && Known(s.books, id).source.Journaled?
  }

  ghost predicate AllSettled(b: Books) {
    forall p :: 0 <= p < |b.charges| ==> SettledIfEnded(b, p)
  }

  predicate SettledIfEnded(b: Books, p: nat)
    requires p < |b.charges|
  {
    HasResult(b.results, p) ==> Settled(b, p)
  }

  ghost predicate SavedBooks(s: State) {
    && FreshBooks(s) && SavedOk(s) && AllSettled(s.books)
    && forall id :: id in s.life.seats ==> KnownOk(s, id)
  }

  /** Once an abandonment is asked for it stays so. */
  lemma AskedStill(d: L.Disk, w: L.Write)
    requires L.Asked(d.events)
    ensures L.Asked(L.Wrote(d, w).events)
  {
    if w.Append? { LifecycleCredit.AppendKeeps(d, w.event); }
  }

  lemma OnlyUnsaved(s: L.State, id: L.SeatId)
    requires LifecycleSafety.Inv(s) && L.Works(s, id)
    ensures forall other :: other in s.seats && Unsaved(s, other) ==> other == id
  {
    forall other | other in s.seats && Unsaved(s, other) ensures other == id { LifecycleCredit.OneWriter(s, id, other); }
  }

  /** A recovery writes a snapshot only if the newest attempt is not finished. */
  lemma RecoversUnfinished(s: State, id: L.SeatId)
    requires SavedBooks(s) && L.Enabled(s.life, L.Do(id)) && s.life.seats[id].job.value.request.Recover?
    requires NextWrite(s.life, id).PutSnapshot?
    ensures !Finished(s)
  {
    assert LifecycleSafety.JobOk(s.life, id) && LifecycleCredit.FreshSeat(s.life, id);
    var job := s.life.seats[id].job.value;
    OnlyUnsaved(s.life, id);
    RecoverShape(job.start, s.life.shares, job.request.latest, job.done);
    LifecycleCredit.QuietAll(job.start, L.Writes(s.life, id), job.done);
    if Finished(s) {
      CoversBefore(job.start, s.life.disk, |s.books.plans| - 1);
      CoversOlder(job.start, job.request.latest);
      assert false;
    }
  }

  lemma RecoverShape(d: L.Disk, shares: bool, p: nat, n: nat)
    requires n < |L.RecoverPlan(d, shares, p).writes| && L.RecoverPlan(d, shares, p).writes[n].PutSnapshot?
    ensures forall i :: 0 <= i < n ==> LifecycleCredit.Quiet(L.RecoverPlan(d, shares, p).writes[i])
    ensures L.Asked(d.events) || (L.Over(d.events) && !L.Asked(d.events)) || L.Prior(d, p).None?
  {}

  /** Quiet events neither cover nor uncover a start. */
  lemma CoversBefore(d: L.Disk, t: L.Disk, p: nat)
    requires LifecycleCredit.OnlyQuietSince(d, t) && L.Covers(t, p)
    ensures L.Covers(d, p)
  {
    forall i | 0 <= i < |d.events| && d.events[i].Starting? && d.events[i].attempt == p
      ensures i < LifecycleCredit.LastSnapshot(d)
    {
      assert t.events[i] == d.events[i];
    }
  }

  /** While nobody asked to abandon the run, the snapshot covers every attempt but the newest. */
  lemma CoversOlder(d: L.Disk, p: nat)
    requires LifecycleCredit.Good(d) && !L.Asked(d.events) && d.attempts > 0
    ensures p + 1 < d.attempts ==> L.Covers(d, p) && d.snapshot.Some?
    ensures d.snapshot.Some? ==> IsRunResult(d.snapshot.value.outcome.result)
    ensures !L.Pending(d.events) && !L.Over(d.events)
  {
    if p + 1 < d.attempts {
      forall i | 0 <= i < |d.events| && d.events[i].Starting? && d.events[i].attempt == p
        ensures i < LifecycleCredit.LastSnapshot(d)
      {
        assert LifecycleCredit.StartAt(d, i);
      }
    }
  }

  /** Nothing but a terminal event finishes an attempt. */
  lemma FinishedBefore(s: State, id: L.SeatId, n: Numbers)
    requires FreshBooks(s) && Enabled(s, Act(L.Do(id), n)) && Finished(Apply(s, Act(L.Do(id), n)))
    requires var w := NextWrite(s.life, id); !(w.Append? && w.event.Ended?)
    ensures var t := Apply(s, Act(L.Do(id), n));
            && Finished(s) && t.books.plans == s.books.plans && t.books.results == s.books.results
            && !NextWrite(s.life, id).CreateAttempt?
            && !(NextWrite(s.life, id).Append? && NextWrite(s.life, id).event.Starting?)
  {
    var t, w, seat := Apply(s, Act(L.Do(id), n)), NextWrite(s.life, id), s.life.seats[id];
    EntryGrows(s.books, id, seat.memory, seat.job.value.request, seat.job.value.start, w, n);
    if L.Asked(s.life.disk.events) { AskedStill(s.life.disk, w); }
    assert StartFresh(s, id);
    if w.CreateAttempt? {
      NoneOfNext(s.books);
      RecordNames(s.life, id, w.attempt);
      CreateAt(s, id);
    } else if w.Append? && w.event.Starting? {
      EndedNames(s.life, id, w.event);
      StartAt(s, id);
    }
  }

  lemma NoneOfNext(b: Books)
    requires EntriesOk(b)
    ensures !HasResult(b.results, |b.plans|)
  {}

  lemma DoSaved(s: State, id: L.SeatId, n: Numbers)
    requires SavedBooks(s) && Enabled(s, Act(L.Do(id), n))
    ensures SavedOk(Apply(s, Act(L.Do(id), n)))
  {
    var t, w, seat := Apply(s, Act(L.Do(id), n)), NextWrite(s.life, id), s.life.seats[id];
    EntryGrows(s.books, id, seat.memory, seat.job.value.request, seat.job.value.start, w, n);
    if w.Append? && w.event.Ended? {
      EndsUnsaved(s.life, id);
    } else if Finished(t) {
      FinishedBefore(s, id, n);
      if w.PutSnapshot? { PutSaved(s, id, n); }
      else if w.Append? { KeptSaved(s, id, n); }
      else { NotFinishedYet(s, id); }
    }
  }

  lemma EndsUnsaved(s: L.State, id: L.SeatId)
    requires L.Enabled(s, L.Do(id)) && NextWrite(s, id).Append? && NextWrite(s, id).event.Ended?
    ensures id in L.Apply(s, L.Do(id)).seats && Unsaved(L.Apply(s, L.Do(id)), id)
  {
    EndedNames(s, id, NextWrite(s, id).event);
    SamePlan(s, id);
  }

  lemma RunFirst(d: L.Disk, shares: bool, m: Option<L.Memory>, r: L.Request, a: L.Answers, n: nat)
    requires L.PlanOf(d, shares, m, r, a).Some? && n < |L.PlanOf(d, shares, m, r, a).value.writes|
    requires L.PlanOf(d, shares, m, r, a).value.writes[n].CreateRun?
    ensures var plan := L.PlanOf(d, shares, m, r, a).value;
            r.Launch? && n == 0 && |plan.writes| == 5 && plan.after.plan == 0
  {}

  /** The run's record comes before any attempt's. */
  lemma NotFinishedYet(s: State, id: L.SeatId)
    requires FreshBooks(s) && L.Enabled(s.life, L.Do(id)) && NextWrite(s.life, id).CreateRun?
    ensures s.books.plans == []
  {
    var seat := s.life.seats[id];
    RunFirst(seat.job.value.start, s.life.shares, seat.memory, seat.job.value.request, seat.job.value.answers, seat.job.value.done);
    StartAt(s, id);
  }

  lemma KeptSaved(s: State, id: L.SeatId, n: Numbers)
    requires SavedBooks(s) && Enabled(s, Act(L.Do(id), n)) && Finished(s) && NextWrite(s.life, id).Append?
    requires !NextWrite(s.life, id).event.Ended? && !NextWrite(s.life, id).event.Starting?
    ensures SavedOk(Apply(s, Act(L.Do(id), n)))
  {
    var t, w, seat := Apply(s, Act(L.Do(id), n)), NextWrite(s.life, id), s.life.seats[id];
    EntryGrows(s.books, id, seat.memory, seat.job.value.request, seat.job.value.start, w, n);
    NobodyUnsaved(s.life, id);
    CoversStill(s.life.disk, w, |s.books.plans| - 1);
    assert t.life.disk.snapshot == s.life.disk.snapshot;
  }

  /** A seat about to append is not about to save a result, and neither is another. */
  lemma NobodyUnsaved(s: L.State, id: L.SeatId)
    requires LifecycleSafety.Inv(s) && L.Enabled(s, L.Do(id)) && NextWrite(s, id).Append?
    ensures forall o :: o in s.seats ==> !Unsaved(s, o)
  {
    var seat := s.seats[id];
    OnlyUnsaved(s, id);
    if Unsaved(s, id) { LastIsPut(seat.job.value.start, s.shares, seat.memory, seat.job.value.request, seat.job.value.answers); }
  }

  lemma LastIsPut(d: L.Disk, shares: bool, m: Option<L.Memory>, r: L.Request, a: L.Answers)
    requires L.PlanOf(d, shares, m, r, a).Some? && L.Starts(r)
    ensures var w := L.PlanOf(d, shares, m, r, a).value.writes; |w| > 0 && w[|w| - 1].PutSnapshot?
  {}

  lemma CoversStill(d: L.Disk, w: L.Write, p: nat)
    requires L.Covers(d, p) && w.Append? && !w.event.Starting?
    ensures L.Covers(L.Wrote(d, w), p)
  {}

  /** The snapshot written has the numbers of a terminal event. */
  lemma PutSaved(s: State, id: L.SeatId, n: Numbers)
    requires SavedBooks(s) && Enabled(s, Act(L.Do(id), n)) && Finished(s) && NextWrite(s.life, id).PutSnapshot?
    ensures SavedOk(Apply(s, Act(L.Do(id), n)))
  {
    var t, w, seat := Apply(s, Act(L.Do(id), n)), NextWrite(s.life, id), s.life.seats[id];
    var r := seat.job.value.request;
    assert L.Covers(t.life.disk, |s.books.plans| - 1);
    if r.Recover? {
      RecoversUnfinished(s, id);
    } else if L.Starts(r) {
      assert SeatFits(s, id);
      PutIsLast(s.life, id);
    } else {
      AtNewest(s, id);
      assert KnownOk(s, id);
    }
  }

  lemma PutIsLast(s: L.State, id: L.SeatId)
    requires L.Enabled(s, L.Do(id)) && L.Starts(s.seats[id].job.value.request) && NextWrite(s, id).PutSnapshot?
    ensures EndedIn(s, id)
  {}

  /** In a fresh run, an operation that is neither a start nor a recovery is of a seat with the newest attempt. */
  lemma AtNewest(s: State, id: L.SeatId)
    requires FreshBooks(s) && L.OnPlan(s.life, id)
    requires !L.Starts(s.life.seats[id].job.value.request) && !s.life.seats[id].job.value.request.Recover?
    ensures var m := s.life.seats[id].memory; m.Some? && m.value.plan + 1 == |s.books.plans|
  {
    assert LifecycleSafety.JobOk(s.life, id) && LifecycleCredit.FreshSeat(s.life, id);
    var seat := s.life.seats[id];
    var job := seat.job.value;
    NoRecords(job.start, s.life.shares, seat.memory, job.request, job.answers);
    SameAttempts(job.start, L.Writes(s.life, id), job.done);
  }

  lemma NoRecords(d: L.Disk, shares: bool, m: Option<L.Memory>, r: L.Request, a: L.Answers)
    requires L.PlanOf(d, shares, m, r, a).Some? && !L.Starts(r)
    ensures var w := L.PlanOf(d, shares, m, r, a).value.writes;
            forall i :: 0 <= i < |w| ==> !w[i].CreateAttempt?
  {}

  lemma {:induction false} SameAttempts(d: L.Disk, w: seq<L.Write>, n: nat)
    requires n <= |w| && forall i :: 0 <= i < |w| ==> !w[i].CreateAttempt?
    ensures L.After(d, w, n).attempts == d.attempts
  {
    if n > 0 { SameAttempts(d, w, n - 1); }
  }

  /** While an attempt runs, nobody remembers it. */
  lemma NobodyKnows(s: State, id: L.SeatId, other: L.SeatId)
    requires FreshBooks(s) && RunsIn(s.life, id) && other in s.life.seats && s.life.seats[other].memory.Some?
    ensures s.life.seats[other].memory.value.plan + 1 < |s.books.plans|
  {
    StartAt(s, id);
    assert LifecycleCredit.FreshSeat(s.life, id);
  }

  lemma KnownStill(s: State, t: State, other: L.SeatId)
    requires other in s.life.seats && KnownOk(s, other) && other in t.life.seats
    requires t.life.seats[other].memory == s.life.seats[other].memory && Known(t.books, other) == Known(s.books, other)
    requires var m := s.life.seats[other].memory;
             Finished(t) && m.Some? && m.value.plan + 1 == |t.books.plans| ==> Finished(s) && |t.books.plans| == |s.books.plans|
    ensures KnownOk(t, other)
  {}

  lemma DoKnown(s: State, id: L.SeatId, n: Numbers, other: L.SeatId)
    requires SavedBooks(s) && Enabled(s, Act(L.Do(id), n)) && other in s.life.seats
    ensures KnownOk(Apply(s, Act(L.Do(id), n)), other)
  {
    var t, w, seat := Apply(s, Act(L.Do(id), n)), NextWrite(s.life, id), s.life.seats[id];
    EntryGrows(s.books, id, seat.memory, seat.job.value.request, seat.job.value.start, w, n);
    if Finished(t) {
      if w.Append? && w.event.Ended? {
        EndedStarted(s, id, w.event);
        if s.life.seats[other].memory.Some? { NobodyKnows(s, id, other); }
      } else {
        FinishedBefore(s, id, n);
      }
    }
    assert KnownOk(s, other);
    KnownStill(s, t, other);
  }

  lemma DoSettled(s: State, id: L.SeatId, n: Numbers)
    requires SavedBooks(s) && Enabled(s, Act(L.Do(id), n))
    ensures AllSettled(Book(s, L.Do(id), n))
  {
    var b, c, w, seat := s.books, Book(s, L.Do(id), n), NextWrite(s.life, id), s.life.seats[id];
    EntryGrows(b, id, seat.memory, seat.job.value.request, seat.job.value.start, w, n);
    if w.Append? && w.event.Ended? {
      EndedStarted(s, id, w.event);
      assert StartFresh(s, id);
    }
    forall p | 0 <= p < |b.charges| ensures SettledIfEnded(c, p) {
      assert SettledIfEnded(b, p) && ChargeOk(b, p);
      SettledStill(b, c, p);
    }
    if |c.charges| > |b.charges| { NewSettled(s, id, n); }
  }

  lemma SettledStill(b: Books, c: Books, p: nat)
    requires p < |b.charges| && Grown(b, c) && SettledIfEnded(b, p) && ChargeOk(b, p)
    requires c.results == b.results || (|c.results| == |b.results| + 1 && c.results[|b.results|].attempt != p)
    ensures SettledIfEnded(c, p)
  {
    if HasResult(c.results, p) {
      var k :| 0 <= k < |c.results| && c.results[k].attempt == p;
      assert k < |b.results| && b.results[k].attempt == p;
    }
  }

  lemma NewSettled(s: State, id: L.SeatId, n: Numbers)
    requires SavedBooks(s) && Enabled(s, Act(L.Do(id), n)) && |Book(s, L.Do(id), n).charges| > |s.books.charges|
    ensures var c := Book(s, L.Do(id), n);
            |c.charges| == |s.books.charges| + 1 && SettledIfEnded(c, |s.books.charges|)
  {
    var b, c, seat := s.books, Book(s, L.Do(id), n), s.life.seats[id];
    NewCharge(s, id, n);
    ChargesKnown(s, id, n);
    if HasResult(c.results, |b.charges|) { StarterKnows(s, id, NextWrite(s.life, id).attempt); }
  }

  lemma ChargesKnown(s: State, id: L.SeatId, n: Numbers)
    requires Inv(s) && Enabled(s, Act(L.Do(id), n)) && |Book(s, L.Do(id), n).charges| > |s.books.charges|
    ensures NextWrite(s.life, id).CreateAttempt? && !s.life.seats[id].job.value.request.Launch?
    ensures var b, c := s.books, Book(s, L.Do(id), n);
            && c.results == b.results && c.charges[|b.charges|].tally == Known(b, id)
            && |b.plans| == |b.charges| + 1
  {
    var w := NextWrite(s.life, id);
    assert w.CreateAttempt?;
    RecordedOk(s, id, w.attempt, n);
  }

  /** Who starts an attempt remembers the result of the one before, if it has one. */
  lemma StarterKnows(s: State, id: L.SeatId, p: nat)
    requires SavedBooks(s) && L.Enabled(s.life, L.Do(id)) && NextWrite(s.life, id) == L.CreateAttempt(p)
    requires !s.life.seats[id].job.value.request.Launch? && s.books.plans != [] && HasResult(s.books.results, |s.books.plans| - 1)
    ensures Known(s.books, id).source.Journaled?
  {
    KnowsNewest(s, id, p);
    var seat := s.life.seats[id];
    assert LifecycleSafety.JobOk(s.life, id) && KnownOk(s, id);
    Unasked(seat.job.value.start, s.life.shares, seat.memory, seat.job.value.request, seat.job.value.answers);
    LifecycleExact.AskedAtStart(s.life, id);
    RecordNames(s.life, id, p);
  }

  lemma SavedDoKeeps(s: State, id: L.SeatId, n: Numbers)
    requires SavedBooks(s) && Enabled(s, Act(L.Do(id), n))
    ensures SavedBooks(Apply(s, Act(L.Do(id), n)))
  {
    FreshDoKeeps(s, id, n);
    DoSaved(s, id, n);
    DoSettled(s, id, n);
    forall other | other in Apply(s, Act(L.Do(id), n)).life.seats ensures KnownOk(Apply(s, Act(L.Do(id), n)), other) {
      DoKnown(s, id, n, other);
    }
  }

  // ----- the other steps of such a run -----

  lemma QuietSaved(s: State, a: L.Action, n: Numbers)
    requires SavedBooks(s) && Enabled(s, Act(a, n)) && !a.Do? && !Loses(s.life, a)
    ensures SavedOk(Apply(s, Act(a, n)))
  {
    var t := Apply(s, Act(a, n));
    QuietBooks(s, a, n);
    if o :| o in s.life.seats && Unsaved(s.life, o) {
      UnsavedStill(s.life, a, o);
      assert Unsaved(t.life, o);
    }
  }

  lemma UnsavedStill(s: L.State, a: L.Action, o: L.SeatId)
    requires L.Enabled(s, a) && !a.Do? && !Loses(s, a) && o in s.seats && Unsaved(s, o)
    ensures o in L.Apply(s, a).seats && Unsaved(L.Apply(s, a), o)
  {
    assert a.seat == o ==> !a.Finish? && !a.Throw? && !a.Crash?;
    assert L.Apply(s, a).seats[o] == s.seats[o];
  }

  /** Who finishes an operation remembers the newest attempt's result if it has one. */
  lemma FinishKnown(s: State, id: L.SeatId, n: Numbers)
    requires SavedBooks(s) && Enabled(s, Act(L.Finish(id), n))
    ensures KnownOk(Apply(s, Act(L.Finish(id), n)), id)
  {
    var t, seat := Apply(s, Act(L.Finish(id), n)), s.life.seats[id];
    var m := L.JobPlan(s.life.shares, seat).value.after;
    assert Finished(t) == Finished(s) && t.life.seats[id].memory == Some(m);
    if Finished(s) && m.plan + 1 == |s.books.plans| { FinishTells(s, id); }
  }

  lemma FinishTells(s: State, id: L.SeatId)
    requires SavedBooks(s) && L.Enabled(s.life, L.Finish(id)) && Finished(s)
    requires L.JobPlan(s.life.shares, s.life.seats[id]).value.after.plan + 1 == |s.books.plans|
    ensures var seat := s.life.seats[id];
            && L.JobPlan(s.life.shares, seat).value.after.outcome.Some?
            && DoneTally(s.books, id, seat.memory, seat.job.value.request, seat.job.value.start).source.Journaled?
  {
    var seat := s.life.seats[id];
    var r := seat.job.value.request;
    if r.Recover? {
      RecoverTells(s, id);
    } else if L.Starts(r) {
      StartTells(s, id);
    } else {
      KeptMemory(seat.job.value.start, s.life.shares, seat.memory, r, seat.job.value.answers);
      assert KnownOk(s, id);
    }
  }

  lemma StartTells(s: State, id: L.SeatId)
    requires Inv(s) && L.Enabled(s.life, L.Finish(id)) && L.Starts(s.life.seats[id].job.value.request)
    ensures L.JobPlan(s.life.shares, s.life.seats[id]).value.after.outcome.Some? && LastResult(s.books).source.Journaled?
  {
    assert SeatFits(s, id);
  }

  lemma RecoverTells(s: State, id: L.SeatId)
    requires SavedBooks(s) && L.Enabled(s.life, L.Finish(id)) && Finished(s) && s.life.seats[id].job.value.request.Recover?
    ensures var seat := s.life.seats[id];
            && L.JobPlan(s.life.shares, seat).value.after.outcome.Some?
            && DoneTally(s.books, id, seat.memory, seat.job.value.request, seat.job.value.start).source.Journaled?
  {
    OnlyUnsaved(s.life, id);
    LifecycleExact.AskedAtStart(s.life, id);
    NotOverUnasked(s, id);
  }

  /** A verdict needs a mark. */
  lemma NotOverUnasked(s: State, id: L.SeatId)
    requires FreshBooks(s) && L.OnPlan(s.life, id)
    ensures var events := s.life.seats[id].job.value.start.events; L.Over(events) ==> L.Asked(events)
  {
    assert LifecycleSafety.JobOk(s.life, id) && LifecycleCredit.FreshSeat(s.life, id);
  }

  lemma KeptMemory(d: L.Disk, shares: bool, m: Option<L.Memory>, r: L.Request, a: L.Answers)
    requires L.Guarded(m, r) && L.PlanOf(d, shares, m, r, a).Some? && !L.Starts(r) && !r.Recover?
    ensures var after := L.PlanOf(d, shares, m, r, a).value.after;
            m.Some? && after.plan == m.value.plan && (m.value.outcome.Some? ==> after.outcome.Some?)
  {}

  lemma ThrowKnown(s: State, id: L.SeatId, launched: bool, n: Numbers)
    requires SavedBooks(s) && Enabled(s, Act(L.Throw(id, launched), n)) && !Loses(s.life, L.Throw(id, launched))
    ensures KnownOk(Apply(s, Act(L.Throw(id, launched), n)), id)
  {
    var t, seat := Apply(s, Act(L.Throw(id, launched), n)), s.life.seats[id];
    assert LifecycleSafety.JobOk(s.life, id) && KnownOk(s, id);
    if launched {
      assert StartFresh(s, id);
      StartAt(s, id);
    } else if seat.job.value.request.Abandon? {
      KeptMemory(seat.job.value.start, s.life.shares, seat.memory, seat.job.value.request, seat.job.value.answers);
    }
  }

  lemma QuietKnown(s: State, a: L.Action, n: Numbers, other: L.SeatId)
    requires SavedBooks(s) && Enabled(s, Act(a, n)) && !a.Do? && !Loses(s.life, a) && other in Apply(s, Act(a, n)).life.seats
    ensures KnownOk(Apply(s, Act(a, n)), other)
  {
    if a.Finish? && a.seat == other { FinishKnown(s, other, n); }
    else if a.Throw? && a.seat == other { ThrowKnown(s, other, a.launched, n); }
    else { OtherKnown(s, a, n, other); }
  }

  lemma OtherKnown(s: State, a: L.Action, n: Numbers, other: L.SeatId)
    requires SavedBooks(s) && Enabled(s, Act(a, n)) && !a.Do? && other in Apply(s, Act(a, n)).life.seats
    requires a.seat == other ==> !a.Finish? && !a.Throw?
    ensures KnownOk(Apply(s, Act(a, n)), other)
  {
    var t := Apply(s, Act(a, n));
    QuietBooks(s, a, n);
    MemoryAsWas(s, a, n, other);
    if other in s.life.seats {
      assert KnownOk(s, other);
      KnownStill(s, t, other);
    }
  }

  lemma MemoryAsWas(s: State, a: L.Action, n: Numbers, other: L.SeatId)
    requires Enabled(s, Act(a, n)) && !a.Do? && other in Apply(s, Act(a, n)).life.seats
    requires a.seat == other ==> !a.Finish? && !a.Throw?
    ensures var t := Apply(s, Act(a, n));
            && (other in s.life.seats ==>
                  t.life.seats[other].memory == s.life.seats[other].memory && Known(t.books, other) == Known(s.books, other))
            && (other !in s.life.seats ==> t.life.seats[other].memory.None?)
  {}

  lemma SavedStep(s: State, x: Action)
    requires SavedBooks(s) && Enabled(s, x) && (x.Act? ==> L.Fresh(s.life, x.act) && !Loses(s.life, x.act))
    ensures SavedBooks(Apply(s, x))
  {
    FreshBooksStep(s, x);
    var t := Apply(s, x);
    match x
    case Tick(id, used) =>
      forall p | 0 <= p < |t.books.charges| ensures SettledIfEnded(t.books, p) {
        assert SettledIfEnded(s.books, p);
      }
      forall other | other in t.life.seats ensures KnownOk(t, other) { assert KnownOk(s, other); }
    case Act(a, n) =>
      if a.Do? {
        SavedDoKeeps(s, a.seat, n);
      } else {
        QuietBooks(s, a, n);
        QuietSaved(s, a, n);
        forall p | 0 <= p < |t.books.charges| ensures SettledIfEnded(t.books, p) {
          assert SettledIfEnded(s.books, p);
        }
        forall other | other in t.life.seats ensures KnownOk(t, other) { QuietKnown(s, a, n, other); }
      }
  }

  lemma {:induction false} RunKeepsSaved(states: seq<State>, actions: seq<Action>, i: nat)
    requires IsFreshRun(states, actions) && Init(states[0]) && i < |states| && LosesNothing(states, actions)
    ensures SavedBooks(states[i])
  {
    if i > 0 {
      RunKeepsSaved(states, actions, i - 1);
      SavedStep(states[i - 1], actions[i - 1]);
    }
  }

  // ----- what such runs charge -----

  /** Unsettled attempts recorded nothing when every attempt with a result is settled. */
  lemma {:induction false} NothingUnsettled(b: Books, n: nat)
    requires AllSettled(b) && n <= |b.charges|
    ensures UnsettledRecorded(b, n) == NOTHING_USED
  {
    if n > 0 {
      NothingUnsettled(b, n - 1);
      assert SettledIfEnded(b, n - 1);
      if !Settled(b, n - 1) {
        NothingOf(b.results, n - 1, |b.results|);
        PlusNothing(UnsettledRecorded(b, n - 1), RecordedOf(b.results, n - 1, |b.results|));
      }
    }
  }

  lemma {:induction false} ChargedNoLess(b: Books, n: nat)
    requires EntriesOk(b) && n <= |b.charges|
    ensures UnsettledCharged(b, n).cost >= 0.0
  {
    if n > 0 {
      ChargedNoLess(b, n - 1);
      assert ChargeOk(b, n - 1);
    }
  }

  lemma {:induction false} NothingOf(results: seq<Terminal>, p: nat, n: nat)
    requires n <= |results| && !HasResult(results, p)
    ensures RecordedOf(results, p, n) == NOTHING_USED
  {
    if n > 0 { NothingOf(results, p, n - 1); }
  }

  /**
   A fresh run that loses no result between its terminal event and its seat's
   memory of it charges every attempt that left a result exactly that, and what
   remains is within the root less the recorded use.
   */
  lemma SavedKeepsWithinRoot(states: seq<State>, actions: seq<Action>, i: nat)
    requires IsFreshRun(states, actions) && Init(states[0]) && i < |states| && LosesNothing(states, actions)
    ensures var b := states[i].books;
            && AllSettled(b)
            && (b.plans != [] ==> |b.plans| == |b.charges| + 1 && WithinRoot(b))
  {
    RunKeepsSaved(states, actions, i);
    var b := states[i].books;
    if b.plans != [] {
      NothingUnsettled(b, |b.charges|);
      ChargedNoLess(b, |b.charges|);
      WithinRootExactly(b);
    }
  }

  // ----- without a death or an error -----

  ghost predicate NoneFails(actions: seq<Action>) {
    forall i :: 0 <= i < |actions| && actions[i].Act? ==> !actions[i].act.Crash? && !actions[i].act.Throw?
  }

  ghost predicate EveryEnds(s: State) {
    forall p :: 0 <= p < |s.books.plans| ==> HasResult(s.books.results, p) || AtWork(s, p)
  }

  ghost predicate AtWork(s: State, p: nat) {
    exists id :: id in s.life.seats && RunsIn(s.life, id) && PlanIn(s.life, id) == p
  }

  ghost predicate FullySettled(b: Books) {
    forall p :: 0 <= p < |b.charges| ==> Settled(b, p)
  }

  lemma EndsDo(s: State, id: L.SeatId, n: Numbers)
    requires SavedBooks(s) && EveryEnds(s) && Enabled(s, Act(L.Do(id), n))
    ensures EveryEnds(Apply(s, Act(L.Do(id), n)))
  {
    var t, w, seat := Apply(s, Act(L.Do(id), n)), NextWrite(s.life, id), s.life.seats[id];
    EntryGrows(s.books, id, seat.memory, seat.job.value.request, seat.job.value.start, w, n);
    forall p | 0 <= p < |t.books.plans| ensures HasResult(t.books.results, p) || AtWork(t, p) {
      if p >= |s.books.plans| {
        NowAtWork(s, id, n);
      } else if HasResult(s.books.results, p) {
        var k :| 0 <= k < |s.books.results| && s.books.results[k].attempt == p;
        assert t.books.results[k].attempt == p;
      } else {
        WorksOn(s, id, n, p);
      }
    }
  }

  /** The attempt just recorded is at work. */
  lemma NowAtWork(s: State, id: L.SeatId, n: Numbers)
    requires FreshBooks(s) && Enabled(s, Act(L.Do(id), n)) && |Book(s, L.Do(id), n).plans| > |s.books.plans|
    ensures var t := Apply(s, Act(L.Do(id), n));
            RunsIn(t.life, id) && PlanIn(t.life, id) == |s.books.plans| && |t.books.plans| == |s.books.plans| + 1
  {
    var t, w, seat := Apply(s, Act(L.Do(id), n)), NextWrite(s.life, id), s.life.seats[id];
    EntryGrows(s.books, id, seat.memory, seat.job.value.request, seat.job.value.start, w, n);
    RecordNames(s.life, id, w.attempt);
    CreateAt(s, id);
    SamePlan(s.life, id);
  }

  /** An attempt at work goes on, or ends with a result. */
  lemma WorksOn(s: State, id: L.SeatId, n: Numbers, p: nat)
    requires FreshBooks(s) && Enabled(s, Act(L.Do(id), n)) && AtWork(s, p)
    ensures var t := Apply(s, Act(L.Do(id), n)); HasResult(t.books.results, p) || AtWork(t, p)
  {
    var o :| o in s.life.seats && RunsIn(s.life, o) && PlanIn(s.life, o) == p;
    LifecycleCredit.OneWriter(s.life, id, o);
    if NextWrite(s.life, id).Append? && NextWrite(s.life, id).event.Ended? {
      EndsWith(s, id, n);
    } else {
      RunsPast(s.life, id);
    }
  }

  lemma EndsWith(s: State, id: L.SeatId, n: Numbers)
    requires Enabled(s, Act(L.Do(id), n)) && NextWrite(s.life, id).Append? && NextWrite(s.life, id).event.Ended?
    ensures HasResult(Book(s, L.Do(id), n).results, PlanIn(s.life, id))
  {
    EndedNames(s.life, id, NextWrite(s.life, id).event);
    var results := Book(s, L.Do(id), n).results;
    assert results[|s.books.results|].attempt == PlanIn(s.life, id);
  }

  lemma RunsPast(s: L.State, id: L.SeatId)
    requires L.Enabled(s, L.Do(id)) && RunsIn(s, id) && !(NextWrite(s, id).Append? && NextWrite(s, id).event.Ended?)
    ensures var t := L.Apply(s, L.Do(id)); id in t.seats && RunsIn(t, id) && PlanIn(t, id) == PlanIn(s, id)
  {
    var seat := s.seats[id];
    SamePlan(s, id);
    PlanEnds(seat.job.value.start, s.shares, seat.memory, seat.job.value.request, seat.job.value.answers, seat.job.value.done);
  }

  lemma RunsOn(s: L.State, a: L.Action, o: L.SeatId)
    requires L.Enabled(s, a) && !a.Do? && !a.Crash? && !a.Throw? && RunsIn(s, o)
    ensures var t := L.Apply(s, a); o in t.seats && RunsIn(t, o) && PlanIn(t, o) == PlanIn(s, o)
  {
    assert a.seat == o ==> !a.Finish? && !a.Begin? && !a.Ask? && !a.GiveUp? && !a.Join? && !a.Boot?;
    assert L.Apply(s, a).seats[o] == s.seats[o];
  }

  lemma EndsQuiet(s: State, a: L.Action, n: Numbers)
    requires SavedBooks(s) && EveryEnds(s) && Enabled(s, Act(a, n)) && !a.Do? && !a.Crash? && !a.Throw?
    ensures EveryEnds(Apply(s, Act(a, n)))
  {
    QuietBooks(s, a, n);
    AllRunOn(s, Apply(s, Act(a, n)), a);
  }

  lemma AllRunOn(s: State, t: State, a: L.Action)
    requires EveryEnds(s) && L.Enabled(s.life, a) && !a.Do? && !a.Crash? && !a.Throw? && t.life == L.Apply(s.life, a)
    requires t.books.plans == s.books.plans && t.books.results == s.books.results
    ensures EveryEnds(t)
  {
    forall p | 0 <= p < |t.books.plans| ensures HasResult(t.books.results, p) || AtWork(t, p) {
      if !HasResult(s.books.results, p) {
        var o :| o in s.life.seats && RunsIn(s.life, o) && PlanIn(s.life, o) == p;
        RunsOn(s.life, a, o);
      }
    }
  }

  /** A plan is derived only from an attempt that ended. */
  lemma FullyDo(s: State, id: L.SeatId, n: Numbers)
    requires SavedBooks(s) && EveryEnds(s) && FullySettled(s.books) && Enabled(s, Act(L.Do(id), n))
    ensures FullySettled(Book(s, L.Do(id), n))
  {
    var b, c, w, seat := s.books, Book(s, L.Do(id), n), NextWrite(s.life, id), s.life.seats[id];
    EntryGrows(b, id, seat.memory, seat.job.value.request, seat.job.value.start, w, n);
    DoSettled(s, id, n);
    forall p | 0 <= p < |c.charges| ensures Settled(c, p) {
      assert SettledIfEnded(c, p);
      if p < |b.charges| {
        assert Settled(b, p);
        assert c.results[b.charges[p].tally.source.k].attempt == p;
      } else {
        NewCharge(s, id, n);
        LastEnded(s, id);
      }
    }
  }

  lemma LastEnded(s: State, id: L.SeatId)
    requires SavedBooks(s) && EveryEnds(s) && L.Enabled(s.life, L.Do(id)) && NextWrite(s.life, id).CreateAttempt?
    requires s.books.plans != []
    ensures HasResult(s.books.results, |s.books.plans| - 1)
  {
    var p := |s.books.plans| - 1;
    RecordNames(s.life, id, NextWrite(s.life, id).attempt);
    CreateAt(s, id);
    forall o | o in s.life.seats && RunsIn(s.life, o) ensures o == id { LifecycleCredit.OneWriter(s.life, id, o); }
  }

  lemma FullyStep(s: State, x: Action)
    requires SavedBooks(s) && EveryEnds(s) && FullySettled(s.books) && Enabled(s, x)
    requires x.Act? ==> !x.act.Crash? && !x.act.Throw?
    ensures EveryEnds(Apply(s, x)) && FullySettled(Apply(s, x).books)
  {
    match x
    case Tick(id, used) =>
      var t := Apply(s, x);
      forall p | 0 <= p < |t.books.plans| ensures HasResult(t.books.results, p) || AtWork(t, p) {
        if !HasResult(s.books.results, p) { assert AtWork(s, p); }
      }
      assert forall p :: 0 <= p < |t.books.charges| ==> Settled(t.books, p) == Settled(s.books, p);
    case Act(a, n) =>
      if a.Do? {
        EndsDo(s, a.seat, n);
        FullyDo(s, a.seat, n);
      } else {
        EndsQuiet(s, a, n);
        QuietBooks(s, a, n);
        assert forall p :: 0 <= p < |s.books.charges| ==> Settled(Apply(s, x).books, p) == Settled(s.books, p);
      }
  }

  lemma NoneFailsNoneLost(states: seq<State>, actions: seq<Action>)
    requires |states| == |actions| + 1 && NoneFails(actions)
    ensures LosesNothing(states, actions)
  {}

  /** A fresh run without a death or an error charges every attempt that led to another exactly the one result it left. */
  lemma {:induction false} NoDeathSettlesAll(states: seq<State>, actions: seq<Action>, i: nat)
    requires IsFreshRun(states, actions) && Init(states[0]) && i < |states| && NoneFails(actions)
    ensures FullySettled(states[i].books) && EveryEnds(states[i])
  {
    if i > 0 {
      NoDeathSettlesAll(states, actions, i - 1);
      NoneFailsNoneLost(states, actions);
      RunKeepsSaved(states, actions, i - 1);
      FullyStep(states[i - 1], actions[i - 1]);
    }
  }

  /** And then an attempt at work steers by the root's limits. */
  lemma SteersByRoot(states: seq<State>, actions: seq<Action>, i: nat, id: L.SeatId)
    requires IsFreshRun(states, actions) && Init(states[0]) && i < |states| && NoneFails(actions)
    requires RunsIn(states[i].life, id)
    ensures var b, p := states[i].books, PlanIn(states[i].life, id);
            p < |b.plans| && Steering(b, p) == (b.plans[0].runtimeMs, b.plans[0].tokens, b.plans[0].cost)
  {
    NoDeathSettlesAll(states, actions, i);
    RunKeepsFresh(states, actions, i);
    assert StartFresh(states[i], id);
    FullySteers(states[i].books);
  }

  lemma FullySteers(b: Books)
    requires PlansOk(b) && EntriesOk(b) && b.plans != [] && FullySettled(b) && !HasResult(b.results, |b.charges|)
    ensures Steering(b, |b.charges|) == (b.plans[0].runtimeMs, b.plans[0].tokens, b.plans[0].cost)
  {
    var n := |b.charges|;
    NoneUnsettled(b, n);
    Balance(b, n);
    SplitTotal(b.results, n, |b.results|);
    NothingFrom(b.results, n, |b.results|);
    PlusNothing(RecordedBelow(b.results, n, |b.results|), RecordedFrom(b.results, n, |b.results|));
    PlusNothing(RecordedBelow(b.results, n, |b.results|), UnsettledCharged(b, n));
    PlusNothing(Charged(StepsOf(b.charges), n), UnsettledRecorded(b, n));
    SteeringLimitsAreRootExactly(b.plans, StepsOf(b.charges), n, Uses(b.results));
  }

  lemma {:induction false} NoneUnsettled(b: Books, n: nat)
    requires FullySettled(b) && n <= |b.charges|
    ensures UnsettledRecorded(b, n) == NOTHING_USED && UnsettledCharged(b, n) == NOTHING_USED
  {
    if n > 0 { NoneUnsettled(b, n - 1); }
  }

  lemma {:induction false} NothingFrom(results: seq<Terminal>, p: nat, n: nat)
    requires n <= |results| && !HasResult(results, p) && forall k :: 0 <= k < |results| ==> results[k].attempt <= p
    ensures RecordedFrom(results, p, n) == NOTHING_USED
  {
    if n > 0 { NothingFrom(results, p, n - 1); }
  }
}
