/**
 The summary's offers in reachable states: in every run of Lifecycle.dfy a
 result that asks for a backoff has its `attempt-failed` event on the journal, so
 retry is offered exactly when the method's own checks pass.
 */
module LifecycleActions {
  import opened Contracts
  import opened Outcomes
  import opened Lifecycle
  import opened LifecycleSafety
  import A = Actions

  predicate BacksOff(o: Credited) {
    o.result.failure.Some? && o.result.failure.value.retry.Backoff?
  }

  ghost predicate HasFailed(events: seq<Event>) {
    exists i :: 0 <= i < |events| && events[i].Ended? && !events[i].completed
  }

  /** A result that asks for a backoff has its failure on the journal. */
  ghost predicate Evidenced(d: Disk, o: Option<Credited>) {
    o.Some? && BacksOff(o.value) ==> HasFailed(d.events)
  }

  ghost predicate SnapshotEvidenced(d: Disk) {
    d.snapshot.Some? ==> Evidenced(d, Some(d.snapshot.value.outcome))
  }

  function OutcomeOf(m: Option<Memory>): Option<Credited> {
    if m.Some? then m.value.outcome else None
  }

  lemma StillFailed(events: seq<Event>, more: seq<Event>)
    requires events <= more && HasFailed(events)
    ensures HasFailed(more)
  {
    var i :| 0 <= i < |events| && events[i].Ended? && !events[i].completed;
    assert more[i] == events[i];
  }

  lemma WriteEvidenced(d: Disk, w: Write, o: Option<Credited>)
    requires SnapshotEvidenced(d) && (w.PutSnapshot? ==> Evidenced(d, Some(w.outcome))) && Evidenced(d, o)
    ensures SnapshotEvidenced(Wrote(d, w)) && Evidenced(Wrote(d, w), o)
  {
    if HasFailed(d.events) { StillFailed(d.events, Wrote(d, w).events); }
  }

  ghost predicate PutsEvidenced(d: Disk, writes: seq<Write>) {
    forall n {:trigger After(d, writes, n)} :: 0 <= n < |writes| && writes[n].PutSnapshot? ==>
      Evidenced(After(d, writes, n), Some(writes[n].outcome))
  }

  lemma {:induction false} EventsKept(d: Disk, writes: seq<Write>, n: nat)
    requires n <= |writes|
    ensures d.events <= After(d, writes, n).events
  {
    if n > 0 { EventsKept(d, writes, n - 1); }
  }

  lemma AttemptEvidenced(d: Disk, p: Attempt, r: Request, result: RunResult)
    requires AttemptResult(result)
    ensures var plan := AttemptPlan(p, r, result);
            PutsEvidenced(d, plan.writes) && Evidenced(After(d, plan.writes, |plan.writes|), plan.after.outcome)
  {
    var w := AttemptPlan(p, r, result).writes;
    var last := |w| - 1;
    var t := After(d, w, last);
    assert t == Wrote(After(d, w, last - 1), w[last - 1]);
    if !result.status.Completed? {
      assert t.events[|t.events| - 1] == Ended(p, false);
      assert HasFailed(t.events);
      assert After(d, w, |w|) == Wrote(t, w[last]);
    }
  }

  /** What such a plan puts or leaves backs off only if what it found did. */
  lemma OtherOutcomes(d: Disk, shares: bool, m: Option<Memory>, r: Request, a: Answers)
    requires Sound(d.events) && SnapshotEvidenced(d) && Evidenced(d, OutcomeOf(m)) && !Starts(r)
    requires PlanOf(d, shares, m, r, a).Some?
    ensures var plan := PlanOf(d, shares, m, r, a).value;
            && Evidenced(d, plan.after.outcome)
            && forall n :: 0 <= n < |plan.writes| && plan.writes[n].PutSnapshot? ==> Evidenced(d, Some(plan.writes[n].outcome))
  {}

  /** A plan that is not an attempt's keeps what it found: no new backoff appears. */
  lemma OtherEvidenced(d: Disk, shares: bool, m: Option<Memory>, r: Request, a: Answers)
    requires Sound(d.events) && SnapshotEvidenced(d) && Evidenced(d, OutcomeOf(m)) && !Starts(r)
    requires PlanOf(d, shares, m, r, a).Some?
    ensures var plan := PlanOf(d, shares, m, r, a).value;
            && PutsEvidenced(d, plan.writes) && Evidenced(After(d, plan.writes, |plan.writes|), plan.after.outcome)
  {
    var plan := PlanOf(d, shares, m, r, a).value;
    OtherOutcomes(d, shares, m, r, a);
    forall n | 0 <= n < |plan.writes| && plan.writes[n].PutSnapshot?
      ensures Evidenced(After(d, plan.writes, n), Some(plan.writes[n].outcome))
    {
      EventsKept(d, plan.writes, n);
      if HasFailed(d.events) { StillFailed(d.events, After(d, plan.writes, n).events); }
    }
    EventsKept(d, plan.writes, |plan.writes|);
    if HasFailed(d.events) { StillFailed(d.events, After(d, plan.writes, |plan.writes|).events); }
  }

  lemma PlanEvidenced(d: Disk, shares: bool, m: Option<Memory>, r: Request, a: Answers)
    requires Sound(d.events) && SnapshotEvidenced(d) && Evidenced(d, OutcomeOf(m))
    requires PlanOf(d, shares, m, r, a).Some?
    ensures var plan := PlanOf(d, shares, m, r, a).value;
            PutsEvidenced(d, plan.writes) && Evidenced(After(d, plan.writes, |plan.writes|), plan.after.outcome)
  {
    if !Starts(r) { OtherEvidenced(d, shares, m, r, a); }
    else { AttemptEvidenced(d, if r.Launch? then 0 else m.value.plan + 1, r, a.result); }
  }

  // ----- whole runs -----

  ghost predicate SeatEvidenced(s: State, id: SeatId)
    requires id in s.seats
  {
    var seat := s.seats[id];
    && Evidenced(s.disk, OutcomeOf(seat.memory))
    && (Works(s, id) ==> SnapshotEvidenced(seat.job.value.start) && Evidenced(seat.job.value.start, OutcomeOf(seat.memory)))
  }

  ghost predicate EvidenceInv(s: State) {
    Inv(s) && SnapshotEvidenced(s.disk) && forall id :: id in s.seats ==> SeatEvidenced(s, id)
  }

  lemma EvidenceDo(s: State, id: SeatId)
    requires EvidenceInv(s) && Enabled(s, Do(id))
    ensures EvidenceInv(Apply(s, Do(id)))
  {
    DoStep(s, id);
    var t := Apply(s, Do(id));
    var job := s.seats[id].job.value;
    assert JobOk(s, id) && SeatEvidenced(s, id);
    PlanEvidenced(job.start, s.shares, s.seats[id].memory, job.request, job.answers);
    assert After(job.start, Writes(s, id), job.done) == s.disk;
    forall other | other in t.seats ensures SeatEvidenced(t, other) {
      assert SeatEvidenced(s, other);
      WriteEvidenced(s.disk, Writes(s, id)[job.done], OutcomeOf(s.seats[other].memory));
    }
    WriteEvidenced(s.disk, Writes(s, id)[job.done], None);
  }

  lemma EvidenceStep(s: State, a: Action)
    requires EvidenceInv(s) && Enabled(s, a)
    ensures EvidenceInv(Apply(s, a))
  {
    if a.Do? {
      EvidenceDo(s, a.seat);
    } else {
      StepKeepsInv(s, a);
      var t := Apply(s, a);
      if a.Finish? {
        assert JobOk(s, a.seat) && SeatEvidenced(s, a.seat);
        var job := s.seats[a.seat].job.value;
        PlanEvidenced(job.start, s.shares, s.seats[a.seat].memory, job.request, job.answers);
      }
      forall other | other in t.seats ensures SeatEvidenced(t, other) {
        if other in s.seats { assert SeatEvidenced(s, other); }
      }
    }
  }

  lemma {:induction false} RunKeepsEvidence(states: seq<State>, actions: seq<Action>, i: nat)
    requires IsRun(states, actions) && Init(states[0]) && i < |states|
    ensures EvidenceInv(states[i])
  {
    if i > 0 {
      RunKeepsEvidence(states, actions, i - 1);
      EvidenceStep(states[i - 1], actions[i - 1]);
    }
  }

  /** The facts a seat reads of its run: its memory, the newest record and the last failure event. */
  ghost predicate Reads(s: State, id: SeatId, f: A.Facts)
    requires id in s.seats
  {
    && s.seats[id].memory.Some?
    && var m := s.seats[id].memory.value;
       && f.status == m.status && f.plan == m.plan
       && (f.execution.Some? <==> m.outcome.Some?) && (f.execution.Some? ==> f.execution.value.result == m.outcome.value.result)
       && f.latest == (if s.disk.attempts == 0 then None else Some(s.disk.attempts - 1))
       && (f.failedAt.Some? <==> HasFailed(s.disk.events))
  }

  /**
   In every reachable state, for a seat whose plan is the newest attempt, retry and
   resume are offered exactly when the methods get as far as a derived plan.
   */
  lemma OffersAgreeWithGuards(states: seq<State>, actions: seq<Action>, i: nat, id: SeatId, f: A.Facts)
    requires IsRun(states, actions) && Init(states[0]) && i < |states| && id in states[i].seats
    requires Reads(states[i], id, f) && f.latest == Some(f.plan)
    ensures A.RetryAction in A.Offered(f) <==> A.Retry(f).Ok?
    ensures A.ResumeAction in A.Offered(f) <==> A.Resume(f).Ok?
  {
    RunKeepsEvidence(states, actions, i);
    assert SeatEvidenced(states[i], id);
    assert A.Evidence(f);
    A.RetryOfferedExactly(f);
    A.ResumeOfferedExactly(f);
  }
}
