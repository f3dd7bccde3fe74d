/**
 What every run of Lifecycle.dfy keeps, whatever the seats do and wherever they
 die: an abandonment on the journal cannot be undone, and a run is abandoned only
 with proof of its cleanup.
 */
module LifecycleSafety {
  import opened Contracts
  import opened Outcomes
  import opened Lifecycle

  // ----- the journal's word -----

  lemma {:induction false} LastOfPrefix(events: seq<Event>, e: Event, ended: bool, n: nat)
    requires n <= |events|
    ensures Last(events + [e], ended, n) == Last(events, ended, n)
  {
    if n > 0 { LastOfPrefix(events, e, ended, n - 1); }
  }

  /** What one more event changes. */
  lemma LastAfter(events: seq<Event>, e: Event, ended: bool)
    ensures Last(events + [e], ended, |events| + 1) == if Marks(e, ended) then |events| else Last(events, ended, |events|)
  {
    LastOfPrefix(events, e, ended, |events|);
  }

  lemma {:induction false} AskedIs(events: seq<Event>, ended: bool, n: nat)
    requires n <= |events|
    ensures Last(events, ended, n) >= 0 <==> exists i :: 0 <= i < n && Marks(events[i], ended)
  {
    if n > 0 { AskedIs(events, ended, n - 1); }
  }

  /** Once asked for, an abandonment is pending or over. */
  lemma AskedDecides(d: Disk)
    requires Asked(d.events)
    ensures Durable(d) == Some(CleanupBlocked) || Durable(d) == Some(Abandoned)
    ensures Over(d.events) || Pending(d.events)
  {}

  // ----- one plan -----

  ghost predicate Verdict(o: Credited) {
    IsRunResult(o.result) && o.result.status.Abandoned?
  }

  /** Every recorded abandonment has proof of its cleanup; only a launch starts an attempt behind the request. */
  ghost predicate Sound(events: seq<Event>) {
    && (forall i :: 0 <= i < |events| && events[i].RunAbandoned? ==> Verdict(events[i].verdict))
    && (forall i, j :: 0 <= i < j < |events| && events[i].RunAbandoning? && events[j].Starting? ==> events[j].why.Launch?)
  }

  ghost predicate SoundWrite(w: Write, asked: bool) {
    && (w.Append? && w.event.RunAbandoned? ==> Verdict(w.event.verdict))
    && (w.Append? && w.event.Starting? && !w.event.why.Launch? ==> !asked)
    && (asked || w != Append(RunAbandoning))
  }

  lemma SoundAfter(d: Disk, w: Write, asked: bool)
    requires Sound(d.events) && SoundWrite(w, asked) && (Asked(d.events) ==> asked)
    ensures Sound(Wrote(d, w).events) && (Asked(Wrote(d, w).events) ==> asked)
    ensures d.events <= Wrote(d, w).events
  {
    if w.Append? {
      LastAfter(d.events, w.event, false);
      AskedIs(d.events, false, |d.events|);
    }
  }

  lemma {:induction false} SoundAll(d: Disk, writes: seq<Write>, asked: bool, n: nat)
    requires Sound(d.events) && (Asked(d.events) ==> asked) && n <= |writes|
    requires forall i :: 0 <= i < |writes| ==> SoundWrite(writes[i], asked)
    ensures Sound(After(d, writes, n).events) && (Asked(After(d, writes, n).events) ==> asked)
  {
    if n > 0 {
      SoundAll(d, writes, asked, n - 1);
      SoundAfter(After(d, writes, n - 1), writes[n - 1], asked);
    }
  }

  /** No operation writes an unproved abandonment, and none but a launch starts an attempt once one is asked for. */
  lemma PlanIsSound(d: Disk, shares: bool, m: Option<Memory>, r: Request, a: Answers) returns (asked: bool)
    requires Guarded(m, r) && PlanOf(d, shares, m, r, a).Some?
    ensures asked == (Asked(d.events) || r.Abandon?)
    ensures var writes := PlanOf(d, shares, m, r, a).value.writes;
            forall i :: 0 <= i < |writes| ==> SoundWrite(writes[i], asked)
  {
    asked := Asked(d.events) || r.Abandon?;
    if Asked(d.events) && !r.Recover? && !r.Launch? { AskedDecides(d); }
  }

  // ----- whole runs -----

  /** A job that writes holds the lease, and the disk is what its plan has written so far. */
  ghost predicate JobOk(s: State, id: SeatId)
    requires id in s.seats && s.seats[id].job.Some?
  {
    var seat := s.seats[id];
    && Guarded(seat.memory, seat.job.value.request)
    && (seat.job.value.Writing? ==>
          && s.holder == Some(id) && OnPlan(s, id) && Sound(seat.job.value.start.events)
          && s.disk == After(seat.job.value.start, Writes(s, id), seat.job.value.done))
  }

  ghost predicate Inv(s: State) {
    && Sound(s.disk.events)
    && forall id :: id in s.seats && s.seats[id].job.Some? ==> JobOk(s, id)
  }

  lemma DoStep(s: State, id: SeatId)
    requires Inv(s) && Enabled(s, Do(id))
    ensures Inv(Apply(s, Do(id)))
  {
    var t := Apply(s, Do(id));
    var job := s.seats[id].job.value;
    assert JobOk(s, id);
    var asked := PlanIsSound(job.start, s.shares, s.seats[id].memory, job.request, job.answers);
    SoundAll(job.start, Writes(s, id), asked, job.done + 1);
    assert Writes(t, id) == Writes(s, id);
    forall other | other in t.seats && t.seats[other].job.Some? ensures JobOk(t, other) {
      if other != id { assert JobOk(s, other); }
    }
  }

  lemma StepKeepsInv(s: State, a: Action)
    requires Inv(s) && Enabled(s, a)
    ensures Inv(Apply(s, a))
  {
    if a.Do? {
      DoStep(s, a.seat);
    } else {
      var t := Apply(s, a);
      forall other | other in t.seats && t.seats[other].job.Some? ensures JobOk(t, other) {
        if other in s.seats && s.seats[other].job.Some? { assert JobOk(s, other); }
      }
    }
  }

  lemma {:induction false} RunKeepsInv(states: seq<State>, actions: seq<Action>, i: nat)
    requires IsRun(states, actions) && Init(states[0]) && i < |states|
    ensures Inv(states[i])
  {
    if i > 0 {
      RunKeepsInv(states, actions, i - 1);
      StepKeepsInv(states[i - 1], actions[i - 1]);
    }
  }

  lemma {:induction false} JournalOnlyGrows(states: seq<State>, actions: seq<Action>, i: nat, j: nat)
    requires IsRun(states, actions) && i <= j < |states|
    ensures states[i].disk.events <= states[j].disk.events
    decreases j - i
  {
    if i < j {
      JournalOnlyGrows(states, actions, i, j - 1);
      StepGrows(states[j - 1], actions[j - 1]);
    }
  }

  lemma StepGrows(s: State, a: Action)
    requires Enabled(s, a)
    ensures s.disk.events <= Apply(s, a).disk.events
  {}

  /** Once an abandonment is journaled the run is cleanup-blocked or abandoned for good, and abandoned once it is. */
  lemma AbandonmentIsIrrevocable(states: seq<State>, actions: seq<Action>, i: nat, j: nat)
    requires IsRun(states, actions) && i <= j < |states| && Asked(states[i].disk.events)
    ensures Durable(states[j].disk) == Some(CleanupBlocked) || Durable(states[j].disk) == Some(Abandoned)
    ensures Durable(states[i].disk) == Some(Abandoned) ==> Durable(states[j].disk) == Some(Abandoned)
  {
    JournalOnlyGrows(states, actions, i, j);
    var before, after := states[i].disk.events, states[j].disk.events;
    AskedIs(before, false, |before|);
    AskedIs(after, false, |after|);
    AskedIs(before, true, |before|);
    AskedIs(after, true, |after|);
    AskedDecides(states[j].disk);
    AskedDecides(states[i].disk);
  }

  /** A run is abandoned only with both cleanups proved or not needed. */
  lemma AbandonedWithProof(states: seq<State>, actions: seq<Action>, i: nat, k: nat)
    requires IsRun(states, actions) && Init(states[0]) && i < |states|
    requires k < |states[i].disk.events| && states[i].disk.events[k].RunAbandoned?
    ensures var r := states[i].disk.events[k].verdict.result;
            IsRunResult(r) && r.status.Abandoned? && CleanupProved(r.sandbox, r.workspace)
  {
    RunKeepsInv(states, actions, i);
  }
}
