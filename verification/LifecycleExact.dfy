/** Recovery, memory and abandonment over every run of Lifecycle.dfy, stale seats and repeated launches included. */
module LifecycleExact {
  // Exactly when recovery credits an attempt with an earlier one's result, when a
  // seat's memory leaves the disk, and when an attempt starts behind an abandonment.

  import opened Contracts
  import opened Outcomes
  import opened Lifecycle
  import opened LifecycleSafety
  import opened LifecycleCredit

  // ----- what every disk and every seat keep -----

  ghost predicate DiskOk(d: Disk) {
    && (!d.recorded ==> d == Disk(false, 0, [], None))
    && LastSnapshot(d) <= |d.events|
    && (Over(d.events) ==> Asked(d.events) && !Pending(d.events))
  }

  ghost predicate OkWrite(d: Disk, w: Write) {
    match w
    case CreateRun => true
    case CreateAttempt(_) => d.recorded
    case Append(e) => d.recorded && (e.RunAbandoned? ==> Asked(d.events)) && (e.RunAbandoning? ==> !Over(d.events))
    case PutSnapshot(_) => d.recorded
  }

  lemma WriteIsOk(d: Disk, w: Write)
    requires DiskOk(d) && OkWrite(d, w)
    ensures DiskOk(Wrote(d, w)) && (d.recorded ==> Wrote(d, w).recorded)
  {
    if w.Append? { AppendKeeps(d, w.event); }
  }

  /** The plan's writes that could be out of place. */
  ghost predicate InPlace(d: Disk, writes: seq<Write>) {
    && (d.recorded || (writes != [] && writes[0] == CreateRun))
    && (forall n :: 0 < n < |writes| ==> writes[n] != Append(RunAbandoning))
    && (writes != [] && writes[0] == Append(RunAbandoning) ==> !Over(d.events))
    && (forall n :: 0 <= n < |writes| && writes[n].Append? && writes[n].event.RunAbandoned? ==>
          Asked(d.events) || (n > 0 && writes[0] == Append(RunAbandoning)))
  }

  lemma {:induction false} StepsOk(d: Disk, writes: seq<Write>, n: nat)
    requires DiskOk(d) && InPlace(d, writes) && n <= |writes|
    ensures DiskOk(After(d, writes, n)) && (d.recorded || n > 0 ==> After(d, writes, n).recorded)
    ensures Asked(d.events) || (n > 0 && writes[0] == Append(RunAbandoning)) ==> Asked(After(d, writes, n).events)
  {
    if n > 0 {
      StepsOk(d, writes, n - 1);
      var t := After(d, writes, n - 1);
      WriteIsOk(t, writes[n - 1]);
      if writes[n - 1].Append? { AppendKeeps(t, writes[n - 1].event); }
    }
  }

  lemma PlanInPlace(d: Disk, shares: bool, m: Option<Memory>, r: Request, a: Answers)
    requires Guarded(m, r) && (r.Launch? || d.recorded) && PlanOf(d, shares, m, r, a).Some?
    ensures InPlace(d, PlanOf(d, shares, m, r, a).value.writes)
  {
    if r.Recover? { assert InPlace(d, RecoverPlan(d, shares, r.latest).writes); }
    else if Starts(r) { AttemptInPlace(d, if r.Launch? then 0 else m.value.plan + 1, r, a.result); }
    else { CleanupInPlace(d, shares, m.value, r, a); }
  }

  lemma AttemptInPlace(d: Disk, p: Attempt, r: Request, result: RunResult)
    requires r.Launch? || d.recorded
    ensures InPlace(d, AttemptPlan(p, r, result).writes)
  {}

  lemma CleanupInPlace(d: Disk, shares: bool, m: Memory, r: Request, a: Answers)
    requires Guarded(Some(m), r) && d.recorded && (r.Release? || r.Reconcile? || r.Abandon?)
    requires PlanOf(d, shares, Some(m), r, a).Some?
    ensures InPlace(d, PlanOf(d, shares, Some(m), r, a).value.writes)
  {}

  ghost predicate MemorySays(m: Memory) {
    m.outcome.Some? ==> m.outcome.value.result.status == m.status
  }

  ghost predicate SeatOk(s: State, id: SeatId)
    requires id in s.seats
  {
    var seat := s.seats[id];
    && (seat.memory.Some? ==> s.disk.recorded && MemorySays(seat.memory.value))
    && (Waits(s, id) && seat.job.value.request.Recover? ==> s.disk.recorded)
    && (Works(s, id) ==> DiskOk(seat.job.value.start) && (seat.job.value.request.Launch? || seat.job.value.start.recorded))
  }

  ghost predicate AllInv(s: State) {
    Inv(s) && DiskOk(s.disk) && forall id :: id in s.seats ==> SeatOk(s, id)
  }

  /** The disk of a job at work is `n` writes into its plan. */
  lemma JobStep(s: State, id: SeatId, n: nat)
    requires AllInv(s) && OnPlan(s, id) && n <= |Writes(s, id)|
    ensures var d := After(s.seats[id].job.value.start, Writes(s, id), n);
            DiskOk(d) && (n > 0 ==> d.recorded)
  {
    assert JobOk(s, id) && SeatOk(s, id);
    var job := s.seats[id].job.value;
    PlanInPlace(job.start, s.shares, s.seats[id].memory, job.request, job.answers);
    StepsOk(job.start, Writes(s, id), n);
  }

  lemma AllDo(s: State, id: SeatId)
    requires AllInv(s) && Enabled(s, Do(id))
    ensures AllInv(Apply(s, Do(id)))
  {
    DoStep(s, id);
    assert JobOk(s, id);
    JobStep(s, id, s.seats[id].job.value.done + 1);
    var t := Apply(s, Do(id));
    forall other | other in t.seats ensures SeatOk(t, other) { assert SeatOk(s, other); }
  }

  lemma PlanSays(d: Disk, shares: bool, m: Option<Memory>, r: Request, a: Answers)
    requires Sound(d.events) && Guarded(m, r) && PlanOf(d, shares, m, r, a).Some? && (m.Some? ==> MemorySays(m.value))
    ensures MemorySays(PlanOf(d, shares, m, r, a).value.after)
  {}

  lemma EndSays(s: State, a: Action)
    requires AllInv(s) && Enabled(s, a) && (a.Finish? || a.Throw?)
    ensures var m := Apply(s, a).seats[a.seat].memory;
            m.Some? ==> s.disk.recorded && MemorySays(m.value)
  {
    var job := s.seats[a.seat].job.value;
    assert JobOk(s, a.seat) && SeatOk(s, a.seat);
    PlanSays(job.start, s.shares, s.seats[a.seat].memory, job.request, job.answers);
    JobStep(s, a.seat, job.done);
  }

  lemma AllEnd(s: State, a: Action)
    requires AllInv(s) && Enabled(s, a) && (a.Finish? || a.Throw?)
    ensures AllInv(Apply(s, a))
  {
    StepKeepsInv(s, a);
    EndSays(s, a);
    var t := Apply(s, a);
    forall other | other in t.seats ensures SeatOk(t, other) { assert SeatOk(s, other); }
  }

  lemma SameSeatOk(s: State, t: State, id: SeatId)
    requires id in s.seats && id in t.seats && t.seats[id] == s.seats[id] && t.disk == s.disk && SeatOk(s, id)
    ensures SeatOk(t, id)
  {}

  lemma QuietSeatOk(s: State, a: Action, id: SeatId)
    requires AllInv(s) && Enabled(s, a) && !a.Do? && !a.Finish? && !a.Throw? && id in Apply(s, a).seats
    ensures SeatOk(Apply(s, a), id)
  {
    if id in s.seats { assert SeatOk(s, id); }
    if a.seat != id { SameSeatOk(s, Apply(s, a), id); }
    else if a.Begin? { assert JobOk(s, id); }
  }

  lemma AllStep(s: State, a: Action)
    requires AllInv(s) && Enabled(s, a)
    ensures AllInv(Apply(s, a))
  {
    if a.Do? {
      AllDo(s, a.seat);
    } else if a.Finish? || a.Throw? {
      AllEnd(s, a);
    } else {
      StepKeepsInv(s, a);
      forall other | other in Apply(s, a).seats ensures SeatOk(Apply(s, a), other) { QuietSeatOk(s, a, other); }
    }
  }

  lemma {:induction false} RunKeepsAll(states: seq<State>, actions: seq<Action>, i: nat)
    requires IsRun(states, actions) && Init(states[0]) && i < |states|
    ensures AllInv(states[i])
  {
    if i > 0 {
      RunKeepsAll(states, actions, i - 1);
      AllStep(states[i - 1], actions[i - 1]);
    }
  }

  /** No snapshot counts past the journal, whoever wrote it. */
  lemma SnapshotNeverAhead(states: seq<State>, actions: seq<Action>, i: nat)
    requires IsRun(states, actions) && Init(states[0]) && i < |states|
    ensures LastSnapshot(states[i].disk) <= |states[i].disk.events|
  {
    RunKeepsAll(states, actions, i);
  }

  // ----- what a seat remembers and what the disk says -----

  /** What `assertDurableStatus` would say had the run ended with `status`, given the journal's word on abandonment. */
  function Says(d: Disk, status: RunStatus): RunStatus {
    if Over(d.events) then Abandoned else if Pending(d.events) then CleanupBlocked else status
  }

  predicate Unmarked(w: Write) {
    w.Append? ==> !w.event.RunAbandoning? && !w.event.RunAbandoned?
  }

  /** Writes without a word on abandonment, the last of them the snapshot. */
  lemma {:induction false} UnmarkedSays(d: Disk, writes: seq<Write>, n: nat)
    requires n <= |writes| && forall k :: 0 <= k < n ==> Unmarked(writes[k])
    ensures var t := After(d, writes, n);
            Pending(t.events) == Pending(d.events) && Over(t.events) == Over(d.events)
  {
    if n > 0 {
      UnmarkedSays(d, writes, n - 1);
      var t := After(d, writes, n - 1);
      if writes[n - 1].Append? { AppendKeeps(t, writes[n - 1].event); }
    }
  }

  lemma UnmarkedEnd(d: Disk, writes: seq<Write>)
    requires writes != [] && forall k :: 0 <= k < |writes| ==> Unmarked(writes[k])
    requires var w := writes[|writes| - 1]; w.PutSnapshot? && IsRunResult(w.outcome.result)
    ensures Durable(After(d, writes, |writes|)) == Some(Says(d, writes[|writes| - 1].outcome.result.status))
  {
    UnmarkedSays(d, writes, |writes|);
  }

  /** Once the plan is carried out the disk has the status the seat remembers. */
  ghost predicate Agrees(d: Disk, plan: Plan) {
    Durable(After(d, plan.writes, |plan.writes|)) == Some(plan.after.status)
  }

  lemma RecoverAgrees(d: Disk, shares: bool, p: Attempt)
    requires DiskOk(d) && Sound(d.events)
    ensures RecoverPlan(d, shares, p).after.outcome.Some? && Agrees(d, RecoverPlan(d, shares, p))
  {
    var plan := RecoverPlan(d, shares, p);
    UnmarkedSays(d, plan.writes, |plan.writes|);
  }

  lemma AttemptAgrees(d: Disk, p: Attempt, r: Request, result: RunResult)
    requires AttemptResult(result)
    ensures var plan := AttemptPlan(p, r, result);
            Durable(After(d, plan.writes, |plan.writes|)) == Some(Says(d, plan.after.status))
  {
    UnmarkedEnd(d, AttemptPlan(p, r, result).writes);
  }

  lemma AbandonAgrees(d: Disk, shares: bool, m: Memory, freed: bool)
    requires m.outcome.Some? && Durable(d) == Some(Interrupted)
    ensures Agrees(d, AbandonPlan(shares, m, freed))
  {
    var w := AbandonPlan(shares, m, freed).writes;
    assert After(d, w, 0) == d;
    var d1, d2 := After(d, w, 1), After(d, w, 2);
    assert d1 == Wrote(d, w[0]);
    AppendKeeps(d, w[0].event);
    assert d2 == Wrote(d1, w[1]);
    if freed {
      AppendKeeps(d1, w[1].event);
      assert After(d, w, 3) == Wrote(d2, w[2]);
    }
  }

  lemma ReconcileAgrees(d: Disk, shares: bool, m: Memory, a: Answers)
    requires ReconcilePlan(d, shares, m, a).Some? && Durable(d) == Some(CleanupBlocked)
    ensures Agrees(d, ReconcilePlan(d, shares, m, a).value)
  {
    var plan := ReconcilePlan(d, shares, m, a).value;
    var w := plan.writes;
    if w[0].event.RunAbandoned? {
      assert After(d, w, 0) == d && After(d, w, 1) == Wrote(d, w[0]) && After(d, w, 2) == Wrote(After(d, w, 1), w[1]);
      AppendKeeps(d, w[0].event);
    } else {
      UnmarkedEnd(d, w);
    }
  }

  lemma ReleaseAgrees(d: Disk, shares: bool, m: Memory, freed: bool)
    requires ReleasePlan(d, shares, m, freed).Some? && Durable(d) == Some(m.status) && MemorySays(m) && m.outcome.Some?
    ensures Agrees(d, ReleasePlan(d, shares, m, freed).value)
  {
    UnmarkedEnd(d, ReleasePlan(d, shares, m, freed).value.writes);
  }

  /** A launch on a run whose abandonment is journaled. */
  predicate Overruled(d: Disk, r: Request, status: RunStatus) {
    r.Launch? && (Over(d.events) || (Pending(d.events) && !status.CleanupBlocked?))
  }

  lemma PlanAgrees(d: Disk, shares: bool, m: Option<Memory>, r: Request, a: Answers)
    requires DiskOk(d) && Sound(d.events) && Guarded(m, r) && (m.Some? ==> MemorySays(m.value))
    requires PlanOf(d, shares, m, r, a).Some? && PlanOf(d, shares, m, r, a).value.after.outcome.Some?
    ensures var plan := PlanOf(d, shares, m, r, a).value;
            Agrees(d, plan) <==> !Overruled(d, r, plan.after.status)
  {
    if r.Recover? { RecoverAgrees(d, shares, r.latest); }
    else if r.Launch? { LaunchAgrees(d, shares, m, r, a); }
    else if Starts(r) { StartAgrees(d, shares, m, r, a); }
    else { CleanupAgrees(d, shares, m.value, r, a); }
  }

  lemma LaunchAgrees(d: Disk, shares: bool, m: Option<Memory>, r: Request, a: Answers)
    requires r.Launch? && PlanOf(d, shares, m, r, a).Some?
    ensures var plan := PlanOf(d, shares, m, r, a).value;
            Agrees(d, plan) <==> !Overruled(d, r, plan.after.status)
  {
    AttemptAgrees(d, 0, r, a.result);
  }

  lemma StartAgrees(d: Disk, shares: bool, m: Option<Memory>, r: Request, a: Answers)
    requires Guarded(m, r) && Starts(r) && !r.Launch? && PlanOf(d, shares, m, r, a).Some?
    ensures Agrees(d, PlanOf(d, shares, m, r, a).value)
  {
    AttemptAgrees(d, m.value.plan + 1, r, a.result);
  }

  lemma CleanupAgrees(d: Disk, shares: bool, m: Memory, r: Request, a: Answers)
    requires Guarded(Some(m), r) && MemorySays(m) && (r.Release? || r.Reconcile? || r.Abandon?)
    requires PlanOf(d, shares, Some(m), r, a).Some? && PlanOf(d, shares, Some(m), r, a).value.after.outcome.Some?
    ensures Agrees(d, PlanOf(d, shares, Some(m), r, a).value)
  {
    if r.Release? { ReleaseAgrees(d, shares, m, a.freed); }
    else if r.Reconcile? { ReconcileAgrees(d, shares, m, a); }
    else { AbandonAgrees(d, shares, m, a.freed); }
  }

  /**
   After any operation that leaves the seat a result, its status is the one
   `assertDurableStatus` would accept, except after a launch on a run whose
   abandonment was journaled before it.
   */
  lemma MemoryMatchesDiskExactly(states: seq<State>, actions: seq<Action>, i: nat)
    requires IsRun(states, actions) && Init(states[0]) && i < |actions| && actions[i].Finish?
    ensures var m := states[i + 1].seats[actions[i].seat].memory.value;
            var job := states[i].seats[actions[i].seat].job.value;
            m.outcome.Some? ==>
              (Durable(states[i + 1].disk) == Some(m.status) <==> !Overruled(job.start, job.request, m.status))
  {
    var s, id := states[i], actions[i].seat;
    RunKeepsAll(states, actions, i);
    assert JobOk(s, id) && SeatOk(s, id);
    var job := s.seats[id].job.value;
    var m := states[i + 1].seats[id].memory.value;
    if m.outcome.Some? { PlanAgrees(job.start, s.shares, s.seats[id].memory, job.request, job.answers); }
  }

  // ----- what recovery says of an attempt -----

  ghost predicate StartedBy(d: Disk, p: Attempt) {
    exists i {:trigger StartAt(d, i)} :: StartAt(d, i) && d.events[i].attempt == p
  }

  /** A result that is taken at its word: neither blocked nor abandoned. */
  predicate Settles(r: RunResult) {
    IsRunResult(r) && !r.status.CleanupBlocked? && !r.status.Abandoned?
  }

  /** The memory reports for its attempt, which has started, the result of an earlier one. */
  ghost predicate CreditsEarlier(d: Disk, m: Memory) {
    m.outcome.Some? && StartedBy(d, m.plan) && Settles(m.outcome.value.result) && m.outcome.value.about < m.plan
  }

  /** The snapshot of a run that nobody abandons covers a started `p` and settles it with an earlier attempt's result. */
  ghost predicate Misleads(d: Disk, p: Attempt) {
    && !Pending(d.events) && !Over(d.events) && StartedBy(d, p) && Covers(d, p)
    && d.snapshot.Some? && Settles(d.snapshot.value.outcome.result) && d.snapshot.value.outcome.about < p
  }

  /** Recovery credits an earlier attempt exactly when the snapshot it finds misleads. */
  lemma RecoveryFollowsSnapshot(d: Disk, shares: bool, p: Attempt)
    requires Sound(d.events)
    ensures CreditsEarlier(d, RecoverPlan(d, shares, p).after) <==> Misleads(d, p)
  {}

  lemma {:induction false} SameStarts(d: Disk, writes: seq<Write>, n: nat, p: Attempt)
    requires n <= |writes| && forall k :: 0 <= k < n ==> Quiet(writes[k]) || writes[k].PutSnapshot?
    ensures StartedBy(After(d, writes, n), p) <==> StartedBy(d, p)
  {
    if n > 0 {
      SameStarts(d, writes, n - 1, p);
      var t, u := After(d, writes, n - 1), After(d, writes, n);
      assert forall i {:trigger StartAt(u, i)} :: StartAt(u, i) ==> StartAt(t, i) && u.events[i] == t.events[i];
      assert forall i {:trigger StartAt(t, i)} :: StartAt(t, i) ==> StartAt(u, i) && u.events[i] == t.events[i];
    }
  }

  /**
   After a release or a reconcile by a seat with some result, recovering attempt
   `p` credits an earlier one exactly when `p` has started, the result the seat
   wrote tells of an earlier attempt, and no abandonment or cleanup overrules it.
   */
  lemma CleanupMisleadsExactly(d: Disk, shares: bool, m: Memory, r: Request, a: Answers, p: Attempt)
    requires DiskOk(d) && Sound(d.events) && (r.Release? || r.Reconcile?) && m.outcome.Some?
    requires PlanOf(d, shares, Some(m), r, a).Some? && Guarded(Some(m), r)
    ensures var plan := PlanOf(d, shares, Some(m), r, a).value;
            var t := After(d, plan.writes, |plan.writes|);
            CreditsEarlier(t, RecoverPlan(t, shares, p).after) <==>
              !Asked(d.events) && m.outcome.value.about < p && StartedBy(d, p) && Settles(plan.after.outcome.value.result)
  {
    var plan := PlanOf(d, shares, Some(m), r, a).value;
    var asked := PlanIsSound(d, shares, Some(m), r, a);
    SoundAll(d, plan.writes, asked, 2);
    QuietThenMisleads(d, plan.writes, plan.after.outcome.value, p);
    RecoveryFollowsSnapshot(After(d, plan.writes, 2), shares, p);
    if Settles(plan.after.outcome.value.result) && Asked(d.events) { AskedDecides(d); }
  }

  /** A snapshot behind a quiet event covers every start there is. */
  lemma QuietThenMisleads(d: Disk, w: seq<Write>, o: Credited, p: Attempt)
    requires |w| == 2 && Quiet(w[0]) && w[1] == PutSnapshot(o) && w[0].event != RunAbandoning
    ensures Misleads(After(d, w, 2), p) <==>
              && !(Pending(d.events) && !w[0].event.RunAbandoned?) && !Over(d.events) && !w[0].event.RunAbandoned?
              && StartedBy(d, p) && Settles(o.result) && o.about < p
  {
    assert After(d, w, 0) == d && After(d, w, 1) == Wrote(d, w[0]);
    AppendKeeps(d, w[0].event);
    SameStarts(d, w, 2, p);
    assert Covers(After(d, w, 2), p);
  }

  // ----- which write left the snapshot -----

  /** Whose result the job's snapshot is. */
  function Tells(seat: Seat): Attempt
    requires seat.job.Some?
  {
    var r, m := seat.job.value.request, seat.memory;
    if r.Recover? then r.latest
    else if r.Launch? || m.None? then 0
    else if Starts(r) then m.value.plan + 1
    else if m.value.outcome.Some? then m.value.outcome.value.about
    else m.value.plan
  }

  predicate Puts(s: State, a: Action) {
    a.Do? && Enabled(s, a) && Writes(s, a.seat)[s.seats[a.seat].job.value.done].PutSnapshot?
  }

  function PutOutcome(s: State, a: Action): Credited
    requires Puts(s, a)
  {
    Writes(s, a.seat)[s.seats[a.seat].job.value.done].outcome
  }

  /** Step `k` put the snapshot that is there at state `i`. */
  ghost predicate LastPut(states: seq<State>, actions: seq<Action>, k: nat, i: nat)
    requires IsRun(states, actions) && i < |states|
  {
    && k < i && Puts(states[k], actions[k])
    && states[i].disk.snapshot == Some(Snapshot(|states[k].disk.events|, PutOutcome(states[k], actions[k])))
    && forall n :: k < n < i ==> !Puts(states[n], actions[n])
  }

  lemma SnapshotStays(s: State, a: Action)
    requires Enabled(s, a)
    ensures Puts(s, a) ==> Apply(s, a).disk.snapshot == Some(Snapshot(|s.disk.events|, PutOutcome(s, a)))
    ensures !Puts(s, a) ==> Apply(s, a).disk.snapshot == s.disk.snapshot
  {}

  lemma {:induction false} FindPut(states: seq<State>, actions: seq<Action>, i: nat) returns (k: nat)
    requires IsRun(states, actions) && Init(states[0]) && i < |states| && states[i].disk.snapshot.Some?
    ensures LastPut(states, actions, k, i)
  {
    SnapshotStays(states[i - 1], actions[i - 1]);
    if Puts(states[i - 1], actions[i - 1]) { k := i - 1; } else { k := FindPut(states, actions, i - 1); }
  }

  /** A settled snapshot is no recovery's and no abandonment's, and tells of what its job tells of. */
  lemma PutTells(d: Disk, shares: bool, m: Option<Memory>, r: Request, a: Answers, n: nat)
    requires Guarded(m, r) && PlanOf(d, shares, m, r, a).Some? && n < |PlanOf(d, shares, m, r, a).value.writes|
    requires PlanOf(d, shares, m, r, a).value.writes[n].PutSnapshot?
    ensures var o := PlanOf(d, shares, m, r, a).value.writes[n].outcome;
            Settles(o.result) ==> !r.Recover? && !r.Abandon? && o.about == Tells(Seat(m, Some(Writing(r, d, a, n, false))))
  {}

  /** The operation at step `k` leaves a settled result of an attempt before `p`, behind every start of `p` there has been by `i`. */
  ghost predicate StalePut(states: seq<State>, actions: seq<Action>, k: nat, i: nat, p: Attempt)
    requires IsRun(states, actions) && i < |states|
  {
    && LastPut(states, actions, k, i) && Settles(PutOutcome(states[k], actions[k]).result)
    && Tells(states[k].seats[actions[k].seat]) < p
    && (forall n {:trigger StartAt(states[i].disk, n)} :: StartAt(states[i].disk, n) && states[i].disk.events[n].attempt == p ==>
          n < |states[k].disk.events|)
  }

  /**
   In every run, a recovery of `p` credits an earlier attempt exactly when `p` has
   started, nobody asked to abandon the run, and the last operation that wrote a
   snapshot told of an attempt before `p` and wrote it behind all starts of `p`.
   */
  lemma RecoveryCreditsEarlierExactly(states: seq<State>, actions: seq<Action>, i: nat)
    requires IsRun(states, actions) && Init(states[0]) && i < |actions|
    requires actions[i].Finish? && states[i].seats[actions[i].seat].job.value.request.Recover?
    ensures var m := states[i + 1].seats[actions[i].seat].memory.value;
            m.plan == states[i].seats[actions[i].seat].job.value.request.latest &&
            (CreditsEarlier(states[i].disk, m) <==>
               StartedBy(states[i].disk, m.plan) && !Asked(states[i].disk.events)
               && exists k :: StalePut(states, actions, k, i, m.plan))
  {
    var s, id := states[i], actions[i].seat;
    RunKeepsAll(states, actions, i);
    assert JobOk(s, id) && SeatOk(s, id);
    var job := s.seats[id].job.value;
    var p := job.request.latest;
    RecoveredDisk(job.start, s.shares, p, s.disk, |RecoverPlan(job.start, s.shares, p).writes|);
    if Misleads(s.disk, p) {
      var k := FindPut(states, actions, i);
      PutStale(states, actions, k, i, p);
    }
    if exists k :: StalePut(states, actions, k, i, p) {
      var k: nat :| StalePut(states, actions, k, i, p);
      PutStale(states, actions, k, i, p);
    }
  }

  /** Recovery says of the disk it leaves what it says of the disk it found. */
  lemma RecoveredDisk(d: Disk, shares: bool, p: Attempt, t: Disk, n: nat)
    requires Sound(d.events) && n == |RecoverPlan(d, shares, p).writes| && t == After(d, RecoverPlan(d, shares, p).writes, n)
    ensures CreditsEarlier(t, RecoverPlan(d, shares, p).after) <==> Misleads(t, p)
  {
    var w := RecoverPlan(d, shares, p).writes;
    RecoveryFollowsSnapshot(d, shares, p);
    if w == [] { assert t == d; }
  }

  lemma PutStale(states: seq<State>, actions: seq<Action>, k: nat, i: nat, p: Attempt)
    requires IsRun(states, actions) && Init(states[0]) && i < |states| && LastPut(states, actions, k, i)
    ensures StalePut(states, actions, k, i, p) <==>
              && Settles(states[i].disk.snapshot.value.outcome.result)
              && states[i].disk.snapshot.value.outcome.about < p && Covers(states[i].disk, p)
  {
    var s, id := states[k], actions[k].seat;
    RunKeepsAll(states, actions, k);
    assert JobOk(s, id);
    var job := s.seats[id].job.value;
    PutTells(job.start, s.shares, s.seats[id].memory, job.request, job.answers, job.done);
    CoversIs(states[i].disk, p);
  }

  lemma CoversIs(d: Disk, p: Attempt)
    ensures Covers(d, p) <==>
      (forall n {:trigger StartAt(d, n)} :: StartAt(d, n) && d.events[n].attempt == p ==> n < LastSnapshot(d))
  {
    if forall n {:trigger StartAt(d, n)} :: StartAt(d, n) && d.events[n].attempt == p ==> n < LastSnapshot(d) {
      forall n | 0 <= n < |d.events| && d.events[n].Starting? && d.events[n].attempt == p ensures n < LastSnapshot(d) {
        assert StartAt(d, n);
      }
    }
  }

  // ----- what starts behind an abandonment -----

  ghost predicate StartedBehind(events: seq<Event>) {
    exists k, l :: 0 <= k < l < |events| && events[k].RunAbandoning? && events[l].Starting?
  }

  /** The write starts an attempt for a launch that found the run and its abandonment on disk. */
  predicate LaunchesBehind(s: State, a: Action) {
    && a.Do? && Enabled(s, a)
    && var job := s.seats[a.seat].job.value;
       && job.request.Launch? && job.start.recorded && Asked(job.start.events)
       && var w := Writes(s, a.seat)[job.done]; w.Append? && w.event.Starting?
  }

  lemma BehindAfter(events: seq<Event>, e: Event)
    ensures StartedBehind(events + [e]) <==> StartedBehind(events) || (e.Starting? && Last(events, false, |events|) >= 0)
  {
    AskedIs(events, false, |events|);
    var more := events + [e];
    if StartedBehind(events) {
      var k, l :| 0 <= k < l < |events| && events[k].RunAbandoning? && events[l].Starting?;
      assert more[k].RunAbandoning? && more[l].Starting?;
    }
    if e.Starting? && Last(events, false, |events|) >= 0 {
      var k :| 0 <= k < |events| && Marks(events[k], false);
      assert more[k].RunAbandoning? && more[|events|].Starting?;
    }
  }

  /** What a job's disk asks was asked when it began, but for an abandonment of its own. */
  lemma AskedAtStart(s: State, id: SeatId)
    requires AllInv(s) && OnPlan(s, id)
    ensures var job := s.seats[id].job.value;
            && (Asked(job.start.events) ==> job.start.recorded && Asked(s.disk.events))
            && (Asked(s.disk.events) ==> Asked(job.start.events) || job.request.Abandon?)
  {
    assert JobOk(s, id) && SeatOk(s, id);
    var job := s.seats[id].job.value;
    var asked := PlanIsSound(job.start, s.shares, s.seats[id].memory, job.request, job.answers);
    SoundAll(job.start, Writes(s, id), asked, job.done);
    StepsGrow(job.start, Writes(s, id), job.done);
    AskedIs(job.start.events, false, |job.start.events|);
    AskedIs(s.disk.events, false, |s.disk.events|);
  }

  lemma StartsUnasked(d: Disk, shares: bool, m: Option<Memory>, r: Request, a: Answers, n: nat)
    requires Guarded(m, r) && PlanOf(d, shares, m, r, a).Some? && n < |PlanOf(d, shares, m, r, a).value.writes|
    requires var w := PlanOf(d, shares, m, r, a).value.writes[n]; w.Append? && w.event.Starting?
    ensures Starts(r) && (!r.Launch? ==> !Asked(d.events))
  {
    if Asked(d.events) { AskedDecides(d); }
  }

  /** A start is written behind the request only by such a launch. */
  lemma StartIsLaunch(s: State, id: SeatId)
    requires AllInv(s) && Enabled(s, Do(id))
    requires var w := Writes(s, id)[s.seats[id].job.value.done]; w.Append? && w.event.Starting?
    ensures Asked(s.disk.events) <==> LaunchesBehind(s, Do(id))
  {
    assert JobOk(s, id);
    var job := s.seats[id].job.value;
    StartsUnasked(job.start, s.shares, s.seats[id].memory, job.request, job.answers, job.done);
    AskedAtStart(s, id);
  }

  lemma {:induction false} StepsGrow(d: Disk, writes: seq<Write>, n: nat)
    requires n <= |writes|
    ensures d.events <= After(d, writes, n).events
  {
    if n > 0 { StepsGrow(d, writes, n - 1); }
  }

  lemma BehindStep(s: State, a: Action)
    requires AllInv(s) && Enabled(s, a)
    ensures StartedBehind(Apply(s, a).disk.events) <==> StartedBehind(s.disk.events) || LaunchesBehind(s, a)
  {
    if a.Do? {
      var w := Writes(s, a.seat)[s.seats[a.seat].job.value.done];
      if w.Append? {
        BehindAfter(s.disk.events, w.event);
        if w.event.Starting? { StartIsLaunch(s, a.seat); }
      }
    }
  }

  lemma {:induction false} OnceFired(kept: seq<bool>, fired: seq<bool>, i: nat)
    requires |kept| == |fired| + 1 && i < |kept| && !kept[0] && forall k :: 0 <= k < |fired| ==> kept[k + 1] == (kept[k] || fired[k])
    ensures kept[i] <==> exists j :: 0 <= j < i && fired[j]
  {
    if i > 0 { OnceFired(kept, fired, i - 1); }
  }

  /** An attempt has started behind a journaled abandonment exactly when a launch that found the abandoned run on disk started it. */
  lemma StartsBehindExactly(states: seq<State>, actions: seq<Action>, i: nat)
    requires IsRun(states, actions) && Init(states[0]) && i < |states|
    ensures StartedBehind(states[i].disk.events) <==> exists j :: 0 <= j < i && LaunchesBehind(states[j], actions[j])
  {
    var kept := seq(|states|, k requires 0 <= k < |states| => StartedBehind(states[k].disk.events));
    var fired := seq(|actions|, k requires 0 <= k < |actions| => LaunchesBehind(states[k], actions[k]));
    forall k | 0 <= k < |actions| ensures kept[k + 1] == (kept[k] || fired[k]) { BehindAt(states, actions, k); }
    OnceFired(kept, fired, i);
    assert forall j :: 0 <= j < i ==> fired[j] == LaunchesBehind(states[j], actions[j]);
  }

  lemma BehindAt(states: seq<State>, actions: seq<Action>, k: nat)
    requires IsRun(states, actions) && Init(states[0]) && k < |actions|
    ensures StartedBehind(states[k + 1].disk.events) <==> StartedBehind(states[k].disk.events) || LaunchesBehind(states[k], actions[k])
  {
    RunKeepsAll(states, actions, k);
    BehindStep(states[k], actions[k]);
  }

  ghost predicate LaunchesAreFirst(states: seq<State>, actions: seq<Action>)
    requires IsRun(states, actions)
  {
    forall j :: 0 <= j < |actions| && actions[j].Begin? && states[j].seats[actions[j].seat].job.value.request.Launch? ==>
      !states[j].disk.recorded
  }

  predicate FirstLaunch(s: State, id: SeatId) {
    Works(s, id) && s.seats[id].job.value.request.Launch? ==> !s.seats[id].job.value.start.recorded
  }

  lemma {:induction false} AllFirst(states: seq<State>, actions: seq<Action>, i: nat, id: SeatId)
    requires IsRun(states, actions) && Init(states[0]) && i < |states| && LaunchesAreFirst(states, actions)
    ensures FirstLaunch(states[i], id)
  {
    if i > 0 { AllFirst(states, actions, i - 1, id); }
  }

  /** If every launch finds no run on disk, nothing starts behind an abandonment, not even from a seat that has not heard of it. */
  lemma NothingStartsAfterAbandonment(states: seq<State>, actions: seq<Action>, i: nat)
    requires IsRun(states, actions) && Init(states[0]) && i < |states| && LaunchesAreFirst(states, actions)
    ensures !StartedBehind(states[i].disk.events)
  {
    StartsBehindExactly(states, actions, i);
    forall j | 0 <= j < i ensures !LaunchesBehind(states[j], actions[j]) {
      AllFirst(states, actions, j, actions[j].seat);
    }
  }

  function InterruptedResult(): RunResult {
    RunResult(Interrupted, Some(Failure(SeatInterruption, ServiceOrigin, Contracts.Resume, None)), Proved, NotNeeded, false)
  }

  function ShutDown(): Answers { Answers(InterruptedResult(), Proved, Proved, ValidSession, true) }

  /**
   Such a run: seat 0 launches, is shut down and abandons the run; seat 1, which
   has not heard of it, then launches the same request.
   */
  lemma LaunchBehindAbandonment() returns (states: seq<State>, actions: seq<Action>)
    ensures IsRun(states, actions) && Init(states[0])
    ensures var events := states[|states| - 1].disk.events;
            StartedBehind(events) && Over(events)
  {
    var empty := Disk(false, 0, [], None);
    states, actions := [State(true, empty, None, map[])], [];
    states, actions := Extend(states, actions, Join(0));
    states, actions := Extend(states, actions, Join(1));
    states, actions := Extend(states, actions, Ask(0, Launch));
    states, actions := Perform(states, actions, 0, ShutDown());
    var d := states[|states| - 1].disk;
    AttemptAgrees(empty, 0, Launch, InterruptedResult());
    states, actions := Extend(states, actions, Ask(0, Request.Abandon));
    states, actions := Perform(states, actions, 0, ShutDown());
    AbandonAsks(d, true, Remember(0, Credited(InterruptedResult(), 0)));
    var gone := states[|states| - 1].disk;
    states, actions := Extend(states, actions, Ask(1, Launch));
    states, actions := Perform(states, actions, 1, ShutDown());
    StartsNow(gone, AttemptPlan(0, Launch, InterruptedResult()).writes);
  }

  lemma AbandonAsks(d: Disk, shares: bool, m: Memory)
    requires m.outcome.Some?
    ensures var w := AbandonPlan(shares, m, true).writes;
            var t := After(d, w, |w|);
            Asked(t.events) && Over(t.events)
  {
    var w := AbandonPlan(shares, m, true).writes;
    assert After(d, w, 0) == d;
    assert After(d, w, 1) == Wrote(d, w[0]);
    assert After(d, w, 2) == Wrote(After(d, w, 1), w[1]);
    AppendKeeps(d, w[0].event);
    AppendKeeps(After(d, w, 1), w[1].event);
    assert After(d, w, 3) == Wrote(After(d, w, 2), w[2]);
  }

  lemma StartsNow(d: Disk, w: seq<Write>)
    requires Asked(d.events) && Over(d.events) && |w| == 5 && w[0] == CreateRun && w[1].CreateAttempt? && w[4].PutSnapshot?
    requires w[2].Append? && w[2].event.Starting? && w[3].Append? && w[3].event.Ended?
    ensures StartedBehind(After(d, w, 5).events) && Over(After(d, w, 5).events)
  {
    FiveWrites(d, w);
    BehindAfter(d.events, w[2].event);
    BehindAfter(d.events + [w[2].event], w[3].event);
    LastAfter(d.events, w[2].event, true);
    LastAfter(d.events + [w[2].event], w[3].event, true);
  }
}
