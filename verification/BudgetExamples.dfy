/**
 Runs in which an attempt is charged something other than the one result it left.
 A seat dies between terminal event and snapshot, and recovery reckons the attempt
 from its last usage checkpoint. A stale seat releases the workspace and puts an
 earlier attempt's result into the snapshot. A launch is repeated, and the attempt
 starts again. A seat dies before the attempt whose record it wrote has started. The
 second and third of these need neither a death nor an error. Seats carry out one
 operation after another here; root and uses are any that the root affords.
 */
module BudgetExamples {
  import opened Budget
  import opened BudgetRuns
  import BudgetSaved
  import opened Contracts
  import opened Outcomes
  import L = Lifecycle
  import C = LifecycleCredit
  import E = LifecycleExact

  // ----- operations carried out with nobody in the way -----

  lemma Extend(states: seq<State>, actions: seq<Action>, x: Action) returns (moreStates: seq<State>, moreActions: seq<Action>)
    requires IsRun(states, actions) && Enabled(states[|states| - 1], x)
    ensures IsRun(moreStates, moreActions) && moreStates[0] == states[0]
    ensures BudgetSaved.NoneFails(actions) && (x.Act? ==> !x.act.Crash? && !x.act.Throw?) ==> BudgetSaved.NoneFails(moreActions)
    ensures |moreStates| > 0 && moreStates[|moreStates| - 1] == Apply(states[|states| - 1], x)
  {
    moreStates, moreActions := states + [Apply(states[|states| - 1], x)], actions + [x];
    RunMore(states, actions, x);
    if BudgetSaved.NoneFails(actions) && (x.Act? ==> !x.act.Crash? && !x.act.Throw?) { NoneMore(actions, x); }
  }

  lemma RunMore(states: seq<State>, actions: seq<Action>, x: Action)
    requires IsRun(states, actions) && Enabled(states[|states| - 1], x)
    ensures IsRun(states + [Apply(states[|states| - 1], x)], actions + [x])
  {
    var s, a := states + [Apply(states[|states| - 1], x)], actions + [x];
    forall i | 0 <= i < |a| ensures Enabled(s[i], a[i]) && s[i + 1] == Apply(s[i], a[i]) {
      assert i < |actions| ==> s[i] == states[i] && a[i] == actions[i] && s[i + 1] == states[i + 1];
    }
  }

  lemma NoneMore(actions: seq<Action>, x: Action)
    requires BudgetSaved.NoneFails(actions) && (x.Act? ==> !x.act.Crash? && !x.act.Throw?)
    ensures BudgetSaved.NoneFails(actions + [x])
  {}

  lemma Asks(states: seq<State>, actions: seq<Action>, id: L.SeatId, r: L.Request, x: Numbers)
      returns (moreStates: seq<State>, moreActions: seq<Action>)
    requires IsRun(states, actions) && Enabled(states[|states| - 1], Act(L.Ask(id, r), x))
    ensures IsRun(moreStates, moreActions) && moreStates[0] == states[0] && |moreStates| > 0
    ensures BudgetSaved.NoneFails(actions) ==> BudgetSaved.NoneFails(moreActions)
    ensures var s := states[|states| - 1];
            moreStates[|moreStates| - 1] ==
              s.(life := s.life.(seats := s.life.seats[id := s.life.seats[id].(job := Some(L.Waiting(r)))]))
  {
    moreStates, moreActions := Extend(states, actions, Act(L.Ask(id, r), x));
  }

  lemma Boots(states: seq<State>, actions: seq<Action>, id: L.SeatId, x: Numbers)
      returns (moreStates: seq<State>, moreActions: seq<Action>)
    requires IsRun(states, actions)
    requires var s := states[|states| - 1]; id !in s.life.seats && s.life.disk.recorded && s.life.disk.attempts > 0
    ensures IsRun(moreStates, moreActions) && moreStates[0] == states[0] && |moreStates| > 0
    ensures BudgetSaved.NoneFails(actions) ==> BudgetSaved.NoneFails(moreActions)
    ensures var s := states[|states| - 1];
            moreStates[|moreStates| - 1] ==
              s.(life := s.life.(seats := s.life.seats[id := L.Seat(None, Some(L.Waiting(L.Recover(s.life.disk.attempts - 1))))]))
  {
    moreStates, moreActions := Extend(states, actions, Act(L.Boot(id), x));
  }

  lemma Dies(states: seq<State>, actions: seq<Action>, id: L.SeatId, x: Numbers)
      returns (moreStates: seq<State>, moreActions: seq<Action>)
    requires IsRun(states, actions) && id in states[|states| - 1].life.seats && states[|states| - 1].life.holder == Some(id)
    ensures IsRun(moreStates, moreActions) && moreStates[0] == states[0] && |moreStates| > 0
    ensures var s := states[|states| - 1];
            moreStates[|moreStates| - 1] ==
              State(s.life.(seats := s.life.seats - {id}, holder := None), s.books.(known := s.books.known - {id}))
  {
    moreStates, moreActions := Extend(states, actions, Act(L.Crash(id), x));
  }

  /** The books after the first `n` writes, if all of them may be entered. */
  function Entered(b: Books, id: L.SeatId, m: Option<L.Memory>, r: L.Request, d: L.Disk,
                   w: seq<L.Write>, x: Numbers, n: nat): Option<Books>
    requires n <= |w|
  {
    if n == 0 then Some(b)
    else
      var before := Entered(b, id, m, r, d, w, x, n - 1);
      if before.None? || !EntryOk(before.value, id, m, r, w[n - 1], x) then None
      else Some(Entry(before.value, id, m, r, d, w[n - 1], x))
  }

  /** A seat that begins to write with nobody in the way. */
  predicate Begun(s: State, id: L.SeatId) {
    && L.OnPlan(s.life, id)
    && s.life.seats[id].job.value.done == 0 && s.life.disk == s.life.seats[id].job.value.start
  }

  predicate MayWrite(s: State, id: L.SeatId, x: Numbers, n: nat) {
    && Begun(s, id) && n <= |L.Writes(s.life, id)|
    && var seat := s.life.seats[id];
       Entered(s.books, id, seat.memory, seat.job.value.request, s.life.disk, L.Writes(s.life, id), x, n).Some?
  }

  /** The state after its first `n` writes. */
  function Partway(s: State, id: L.SeatId, x: Numbers, n: nat): State
    requires MayWrite(s, id, x, n)
  {
    var seat := s.life.seats[id];
    State(s.life.(disk := L.After(s.life.disk, L.Writes(s.life, id), n),
                  seats := s.life.seats[id := seat.(job := Some(seat.job.value.(done := n)))]),
          Entered(s.books, id, seat.memory, seat.job.value.request, s.life.disk, L.Writes(s.life, id), x, n).value)
  }

  lemma NextEnabled(s: State, id: L.SeatId, x: Numbers, n: nat)
    requires n > 0 && MayWrite(s, id, x, n)
    ensures MayWrite(s, id, x, n - 1) && Enabled(Partway(s, id, x, n - 1), Act(L.Do(id), x))
  {
    assert L.Writes(Partway(s, id, x, n - 1).life, id) == L.Writes(s.life, id);
  }

  lemma NextWritten(s: State, id: L.SeatId, x: Numbers, n: nat)
    requires n > 0 && MayWrite(s, id, x, n) && MayWrite(s, id, x, n - 1) && Enabled(Partway(s, id, x, n - 1), Act(L.Do(id), x))
    ensures Apply(Partway(s, id, x, n - 1), Act(L.Do(id), x)) == Partway(s, id, x, n)
  {
    var t, seat := Partway(s, id, x, n - 1), s.life.seats[id];
    assert L.Writes(t.life, id) == L.Writes(s.life, id);
    C.SameKey(s.life.seats, id, t.life.seats[id], seat.(job := Some(seat.job.value.(done := n))));
  }

  lemma NothingWritten(s: State, id: L.SeatId, x: Numbers)
    requires MayWrite(s, id, x, 0)
    ensures Partway(s, id, x, 0) == s
  {
    var seat := s.life.seats[id];
    assert s.life.seats[id := seat.(job := Some(seat.job.value.(done := 0)))] == s.life.seats;
  }

  lemma {:induction false} DoAll(states: seq<State>, actions: seq<Action>, id: L.SeatId, x: Numbers, n: nat)
      returns (moreStates: seq<State>, moreActions: seq<Action>)
    requires IsRun(states, actions) && MayWrite(states[|states| - 1], id, x, n)
    ensures IsRun(moreStates, moreActions) && moreStates[0] == states[0] && |moreStates| > 0
    ensures BudgetSaved.NoneFails(actions) ==> BudgetSaved.NoneFails(moreActions)
    ensures moreStates[|moreStates| - 1] == Partway(states[|states| - 1], id, x, n)
  {
    var s := states[|states| - 1];
    if n == 0 {
      moreStates, moreActions := states, actions;
      NothingWritten(s, id, x);
    } else {
      NextEnabled(s, id, x, n);
      moreStates, moreActions := DoAll(states, actions, id, x, n - 1);
      moreStates, moreActions := DoNext(moreStates, moreActions, s, id, x, n);
    }
  }

  lemma DoNext(states: seq<State>, actions: seq<Action>, s: State, id: L.SeatId, x: Numbers, n: nat)
      returns (moreStates: seq<State>, moreActions: seq<Action>)
    requires IsRun(states, actions) && n > 0 && MayWrite(s, id, x, n) && MayWrite(s, id, x, n - 1)
    requires states[|states| - 1] == Partway(s, id, x, n - 1)
    ensures IsRun(moreStates, moreActions) && moreStates[0] == states[0] && |moreStates| > 0
    ensures BudgetSaved.NoneFails(actions) ==> BudgetSaved.NoneFails(moreActions)
    ensures moreStates[|moreStates| - 1] == Partway(s, id, x, n)
  {
    NextEnabled(s, id, x, n);
    NextWritten(s, id, x, n);
    moreStates, moreActions := Extend(states, actions, Act(L.Do(id), x));
  }

  predicate Ready(s: State, id: L.SeatId, a: L.Answers) {
    && L.Waits(s.life, id) && s.life.holder == None
    && L.PlanOf(s.life.disk, s.life.shares, s.life.seats[id].memory, s.life.seats[id].job.value.request, a).Some?
  }

  function PlanFor(s: State, id: L.SeatId, a: L.Answers): L.Plan
    requires Ready(s, id, a)
  {
    L.PlanOf(s.life.disk, s.life.shares, s.life.seats[id].memory, s.life.seats[id].job.value.request, a).value
  }

  function Through(s: State, id: L.SeatId, a: L.Answers, x: Numbers, n: nat): Option<Books>
    requires Ready(s, id, a) && n <= |PlanFor(s, id, a).writes|
  {
    Entered(s.books, id, s.life.seats[id].memory, s.life.seats[id].job.value.request, s.life.disk, PlanFor(s, id, a).writes, x, n)
  }

  /** The seat waiting for the lease gets it and writes the first `n` of what it has to. */
  lemma Write(states: seq<State>, actions: seq<Action>, id: L.SeatId, a: L.Answers, x: Numbers, n: nat)
      returns (moreStates: seq<State>, moreActions: seq<Action>)
    requires IsRun(states, actions) && Ready(states[|states| - 1], id, a)
    requires var s := states[|states| - 1]; n <= |PlanFor(s, id, a).writes| && Through(s, id, a, x, n).Some?
    ensures IsRun(moreStates, moreActions) && moreStates[0] == states[0] && |moreStates| > 0
    ensures BudgetSaved.NoneFails(actions) ==> BudgetSaved.NoneFails(moreActions)
    ensures var s := states[|states| - 1];
            var seat := s.life.seats[id];
            moreStates[|moreStates| - 1] ==
              State(L.State(s.life.shares, L.After(s.life.disk, PlanFor(s, id, a).writes, n), Some(id),
                            s.life.seats[id := seat.(job := Some(L.Writing(seat.job.value.request, s.life.disk, a, n, false)))]),
                    Through(s, id, a, x, n).value)
  {
    var s := states[|states| - 1];
    var seat := s.life.seats[id];
    moreStates, moreActions := Extend(states, actions, Act(L.Begin(id, a), x));
    var t := moreStates[|moreStates| - 1];
    assert L.Writes(t.life, id) == PlanFor(s, id, a).writes;
    moreStates, moreActions := DoAll(moreStates, moreActions, id, x, n);
    C.SameKey(s.life.seats, id, t.life.seats[id], moreStates[|moreStates| - 1].life.seats[id]);
  }

  /** And the whole operation. */
  lemma Perform(states: seq<State>, actions: seq<Action>, id: L.SeatId, a: L.Answers, x: Numbers)
      returns (moreStates: seq<State>, moreActions: seq<Action>)
    requires IsRun(states, actions) && Ready(states[|states| - 1], id, a)
    requires var s := states[|states| - 1]; Through(s, id, a, x, |PlanFor(s, id, a).writes|).Some?
    ensures IsRun(moreStates, moreActions) && moreStates[0] == states[0] && |moreStates| > 0
    ensures BudgetSaved.NoneFails(actions) ==> BudgetSaved.NoneFails(moreActions)
    ensures var s := states[|states| - 1];
            var seat, plan := s.life.seats[id], PlanFor(s, id, a);
            var b := Through(s, id, a, x, |plan.writes|).value;
            moreStates[|moreStates| - 1] ==
              State(L.State(s.life.shares, L.After(s.life.disk, plan.writes, |plan.writes|),
                            if plan.after.status.CleanupBlocked? && L.Starts(seat.job.value.request) then Some(id) else None,
                            s.life.seats[id := L.Seat(Some(plan.after), None)]),
                    b.(known := b.known[id := DoneTally(b, id, seat.memory, seat.job.value.request, s.life.disk)]))
  {
    var s := states[|states| - 1];
    var plan := PlanFor(s, id, a);
    moreStates, moreActions := Write(states, actions, id, a, x, |plan.writes|);
    var t := moreStates[|moreStates| - 1];
    C.SameKey(s.life.seats, id, t.life.seats[id], L.Seat(Some(plan.after), None));
    moreStates, moreActions := Extend(moreStates, moreActions, Act(L.Finish(id), x));
  }

  function Marked(d: L.Disk, e: L.Event, o: L.Credited): L.Disk {
    d.(events := d.events + [e], snapshot := Some(L.Snapshot(|d.events| + 1, o)))
  }

  function MarkedBooks(s: State, id: L.SeatId): Books
    requires L.Waits(s.life, id)
  {
    var m, r := s.life.seats[id].memory, s.life.seats[id].job.value.request;
    var b := s.books.(saved := PutTally(s.books, id, m, r, s.life.disk));
    b.(known := b.known[id := DoneTally(b, id, m, r, s.life.disk)])
  }

  /** An operation that appends one event and writes the snapshot. */
  lemma Mark(states: seq<State>, actions: seq<Action>, id: L.SeatId, a: L.Answers, x: Numbers, e: L.Event, o: L.Credited)
      returns (moreStates: seq<State>, moreActions: seq<Action>)
    requires IsRun(states, actions) && Ready(states[|states| - 1], id, a)
    requires var s := states[|states| - 1];
             && PlanFor(s, id, a).writes == [L.Append(e), L.PutSnapshot(o)]
             && (e.StartupReconciled? || e.RunReconciled? || e.RunReleased?)
             && !L.Starts(s.life.seats[id].job.value.request)
    ensures IsRun(moreStates, moreActions) && moreStates[0] == states[0] && |moreStates| > 0
    ensures BudgetSaved.NoneFails(actions) ==> BudgetSaved.NoneFails(moreActions)
    ensures var s := states[|states| - 1];
            moreStates[|moreStates| - 1] ==
              State(L.State(s.life.shares, Marked(s.life.disk, e, o), None,
                            s.life.seats[id := L.Seat(Some(PlanFor(s, id, a).after), None)]),
                    MarkedBooks(s, id))
  {
    var s := states[|states| - 1];
    var m, r := s.life.seats[id].memory, s.life.seats[id].job.value.request;
    MarkEntered(s.books, id, m, r, s.life.disk, x, e, o);
    moreStates, moreActions := Perform(states, actions, id, a, x);
  }

  lemma MarkEntered(b: Books, id: L.SeatId, m: Option<L.Memory>, r: L.Request, d: L.Disk, x: Numbers, e: L.Event, o: L.Credited)
    requires e.StartupReconciled? || e.RunReconciled? || e.RunReleased?
    ensures var w := [L.Append(e), L.PutSnapshot(o)];
            && Entered(b, id, m, r, d, w, x, 2) == Some(b.(saved := PutTally(b, id, m, r, d)))
            && L.After(d, w, 2) == Marked(d, e, o)
  {
    var w := [L.Append(e), L.PutSnapshot(o)];
    assert Entered(b, id, m, r, d, w, x, 1) == Some(b);
    assert L.After(d, w, 1) == L.Wrote(d, w[0]);
  }

  /** What an attempt that runs to its end enters. */
  lemma AttemptEntered(b: Books, id: L.SeatId, m: Option<L.Memory>, r: L.Request, d: L.Disk, p: nat, result: RunResult, x: Numbers)
    requires (r.Launch? || r.Retry?) && MayRecord(b, m, r, Known(b, id), x.root, p) && x.used.cost >= 0.0
    ensures var w := L.AttemptPlan(p, r, result).writes;
            Entered(b, id, m, r, d, w, x, |w|) ==
            Some(RecordPlan(b, m, r, Known(b, id), x.root, p).(meter := NOTHING_USED, results := b.results + [Terminal(p, x.used)],
                                                               saved := Tally(x.used, Journaled(|b.results|))))
  {
    var w, at := L.AttemptPlan(p, r, result).writes, if r.Launch? then 1 else 0;
    var c := RecordPlan(b, m, r, Known(b, id), x.root, p);
    assert w[at] == L.CreateAttempt(p) && w[at + 1] == L.Append(L.Starting(p, r));
    assert w[at + 2].Append? && w[at + 2].event.Ended? && w[at + 2].event.attempt == p && w[at + 3].PutSnapshot?;
    assert Entered(b, id, m, r, d, w, x, 0) == Some(b);
    assert Entered(b, id, m, r, d, w, x, at) == Some(b);
    assert Entered(b, id, m, r, d, w, x, at + 1) == Some(c);
    assert Entered(b, id, m, r, d, w, x, at + 2) == Some(c.(meter := NOTHING_USED));
    var e := c.(meter := NOTHING_USED, results := b.results + [Terminal(p, x.used)]);
    assert Entered(b, id, m, r, d, w, x, at + 3) == Some(e);
  }

  // ----- what a retry leaves -----

  /** The root affords the use, and one more attempt. */
  predicate Affords(l: Limits, used: Used) {
    && l.runtimeMs - used.runtimeMs >= 1000 && (l.tokens.Some? ==> l.tokens.value - used.tokens >= 1)
    && l.cost - used.cost > 0.0
  }

  function Less(l: Limits, used: Used): Limits {
    l.(runtimeMs := l.runtimeMs - used.runtimeMs, attemptTimeoutMs := Min(l.attemptTimeoutMs, l.runtimeMs - used.runtimeMs),
       tokens := if l.tokens.Some? then Some(l.tokens.value - used.tokens) else None, cost := l.cost - used.cost,
       retries := l.retries - 1)
  }

  lemma RetryAfford(l: Limits, used: Used)
    requires Affords(l, used) && l.retries >= 1
    ensures Derive(l, C.FailedResult().failure, used, ByRetry) == Ok(Less(l, used))
  {}

  // ----- operations, one at a time -----

  const NEW_SEAT := L.Seat(None, None)

  function Failed(p: nat): L.Credited { L.Credited(C.FailedResult(), p) }

  /** The disk an attempt that fails leaves. */
  function Attempted(d: L.Disk, p: nat, r: L.Request): L.Disk {
    L.Disk(true, if p < d.attempts then d.attempts else p + 1, d.events + [L.Starting(p, r), L.Ended(p, false)],
           Some(L.Snapshot(|d.events| + 2, Failed(p))))
  }

  function Ended(b: Books, id: L.SeatId, p: nat, used: Used): Books {
    b.(meter := NOTHING_USED, results := b.results + [Terminal(p, used)], saved := Tally(used, Journaled(|b.results|)),
       known := b.known[id := Tally(used, Journaled(|b.results|))])
  }

  lemma AttemptWritten(d: L.Disk, p: nat, r: L.Request)
    requires r.Launch? || (r.Retry? && d.recorded)
    ensures var w := L.AttemptPlan(p, r, C.FailedResult()).writes; L.After(d, w, |w|) == Attempted(d, p, r)
  {
    var w := L.AttemptPlan(p, r, C.FailedResult()).writes;
    if r.Launch? {
      C.FiveWrites(d, w);
      FourMake(L.Wrote(d, w[0]), p, r);
    } else {
      C.FourWrites(d, w);
      FourMake(d, p, r);
    }
  }

  lemma FourMake(d: L.Disk, p: nat, r: L.Request)
    requires d.recorded
    ensures L.Wrote(L.Wrote(L.Wrote(L.Wrote(d, L.CreateAttempt(p)), L.Append(L.Starting(p, r))), L.Append(L.Ended(p, false))),
                    L.PutSnapshot(Failed(p))) == Attempted(d, p, r)
  {
    assert d.events + [L.Starting(p, r)] + [L.Ended(p, false)] == d.events + [L.Starting(p, r), L.Ended(p, false)];
  }

  /** A seat launches or retries the run, and the attempt fails. */
  lemma Attempt(states: seq<State>, actions: seq<Action>, id: L.SeatId, p: nat, x: Numbers)
      returns (moreStates: seq<State>, moreActions: seq<Action>)
    requires IsRun(states, actions) && x.used.cost >= 0.0
    requires var s := states[|states| - 1]; MayAttempt(s, id, p, x)
    ensures IsRun(moreStates, moreActions) && moreStates[0] == states[0] && |moreStates| > 0
    ensures BudgetSaved.NoneFails(actions) ==> BudgetSaved.NoneFails(moreActions)
    ensures var s := states[|states| - 1];
            var m := s.life.seats[id].memory;
            moreStates[|moreStates| - 1] ==
              State(s.life.(disk := Attempted(s.life.disk, p, AskedFor(m)),
                            seats := s.life.seats[id := L.Seat(Some(L.Remember(p, Failed(p))), None)]),
                    Ended(RecordPlan(s.books, m, AskedFor(m), Known(s.books, id), x.root, p), id, p, x.used))
  {
    var s := states[|states| - 1];
    var m := s.life.seats[id].memory;
    var r := AskedFor(m);
    moreStates, moreActions := Asks(states, actions, id, r, x);
    moreStates, moreActions := Fails(moreStates, moreActions, id, p, x);
    C.SameKey(s.life.seats, id, L.Seat(m, Some(L.Waiting(r))), L.Seat(Some(L.Remember(p, Failed(p))), None));
  }

  /** A seat that waits to launch or retry the run does so. */
  lemma Fails(states: seq<State>, actions: seq<Action>, id: L.SeatId, p: nat, x: Numbers)
      returns (moreStates: seq<State>, moreActions: seq<Action>)
    requires IsRun(states, actions) && x.used.cost >= 0.0
    requires var s := states[|states| - 1];
             && WillAttempt(s, id, p)
             && MayRecord(s.books, s.life.seats[id].memory, s.life.seats[id].job.value.request, Known(s.books, id), x.root, p)
    ensures IsRun(moreStates, moreActions) && moreStates[0] == states[0] && |moreStates| > 0
    ensures BudgetSaved.NoneFails(actions) ==> BudgetSaved.NoneFails(moreActions)
    ensures var s := states[|states| - 1];
            var m, r := s.life.seats[id].memory, s.life.seats[id].job.value.request;
            moreStates[|moreStates| - 1] ==
              State(s.life.(disk := Attempted(s.life.disk, p, r),
                            seats := s.life.seats[id := L.Seat(Some(L.Remember(p, Failed(p))), None)]),
                    Ended(RecordPlan(s.books, m, r, Known(s.books, id), x.root, p), id, p, x.used))
  {
    var s := states[|states| - 1];
    var m, r := s.life.seats[id].memory, s.life.seats[id].job.value.request;
    assert PlanFor(s, id, C.Failing()) == L.AttemptPlan(p, r, C.FailedResult());
    AttemptEntered(s.books, id, m, r, s.life.disk, p, C.FailedResult(), x);
    AttemptWritten(s.life.disk, p, r);
    moreStates, moreActions := Perform(states, actions, id, C.Failing(), x);
  }

  predicate WillAttempt(s: State, id: L.SeatId, p: nat) {
    && Ready(s, id, C.Failing())
    && PlanFor(s, id, C.Failing()) == L.AttemptPlan(p, s.life.seats[id].job.value.request, C.FailedResult())
    && (s.life.seats[id].job.value.request.Launch? || (s.life.seats[id].job.value.request.Retry? && s.life.disk.recorded))
  }

  function AskedFor(m: Option<L.Memory>): L.Request { if m.None? then L.Launch else L.Retry }

  predicate MayAttempt(s: State, id: L.SeatId, p: nat, x: Numbers) {
    && L.Idle(s.life, id) && s.life.holder == None
    && MayRecord(s.books, s.life.seats[id].memory, AskedFor(s.life.seats[id].memory), Known(s.books, id), x.root, p)
    && (if s.life.seats[id].memory.None? then p == 0 else MayRetry(s.life, id, p))
  }

  predicate MayRetry(s: L.State, id: L.SeatId, p: nat)
    requires id in s.seats
  {
    && s.seats[id].memory.Some? && p == s.seats[id].memory.value.plan + 1 == s.disk.attempts && s.disk.recorded
    && s.seats[id].memory.value.status == RunStatus.Failed && L.Durable(s.disk) == Some(RunStatus.Failed)
    && s.seats[id].memory.value.outcome.Some? && s.seats[id].memory.value.outcome.value.result == C.FailedResult()
  }

  /** A new seat recovers the run with the result in the snapshot. */
  lemma Recovers(states: seq<State>, actions: seq<Action>, id: L.SeatId, q: nat, x: Numbers)
      returns (moreStates: seq<State>, moreActions: seq<Action>)
    requires IsRun(states, actions)
    requires var s := states[|states| - 1];
             && id !in s.life.seats && s.life.holder == None && s.life.disk.recorded && s.life.disk.attempts > 0
             && !L.Pending(s.life.disk.events) && !L.Over(s.life.disk.events)
             && L.Prior(s.life.disk, s.life.disk.attempts - 1) == Some(Failed(q))
    ensures IsRun(moreStates, moreActions) && moreStates[0] == states[0] && |moreStates| > 0
    ensures BudgetSaved.NoneFails(actions) ==> BudgetSaved.NoneFails(moreActions)
    ensures var s := states[|states| - 1];
            moreStates[|moreStates| - 1] ==
              State(s.life.(seats := s.life.seats[id := L.Seat(Some(L.Remember(s.life.disk.attempts - 1, Failed(q))), None)]),
                    s.books.(known := s.books.known[id := s.books.saved]))
  {
    var s := states[|states| - 1];
    moreStates, moreActions := Boots(states, actions, id, x);
    var t := moreStates[|moreStates| - 1];
    moreStates, moreActions := Perform(moreStates, moreActions, id, C.Failing(), x);
    C.SameKey(s.life.seats, id, t.life.seats[id], L.Seat(Some(L.Remember(s.life.disk.attempts - 1, Failed(q))), None));
  }

  /** A seat may ask for a retry or resume and write the next attempt's record. */
  predicate MayRecordNext(s: State, id: L.SeatId, r: L.Request, p: nat, x: Numbers) {
    && L.Idle(s.life, id) && s.life.holder == None && (r.Retry? || r.Resume?) && L.Guarded(s.life.seats[id].memory, r)
    && p == s.life.seats[id].memory.value.plan + 1 == s.life.disk.attempts
    && L.Durable(s.life.disk) == Some(s.life.seats[id].memory.value.status)
    && MayRecord(s.books, s.life.seats[id].memory, r, Known(s.books, id), x.root, p)
  }

  lemma Records(states: seq<State>, actions: seq<Action>, id: L.SeatId, r: L.Request, p: nat, x: Numbers)
      returns (moreStates: seq<State>, moreActions: seq<Action>)
    requires IsRun(states, actions) && MayRecordNext(states[|states| - 1], id, r, p, x)
    ensures IsRun(moreStates, moreActions) && moreStates[0] == states[0] && |moreStates| > 0
    ensures BudgetSaved.NoneFails(actions) ==> BudgetSaved.NoneFails(moreActions)
    ensures var s, t := states[|states| - 1], moreStates[|moreStates| - 1];
            && t.books == RecordPlan(s.books, s.life.seats[id].memory, r, Known(s.books, id), x.root, p)
            && t.life.shares == s.life.shares && t.life.disk == s.life.disk.(attempts := p + 1) && t.life.holder == Some(id)
            && id in t.life.seats && t.life.seats.Keys == s.life.seats.Keys
  {
    var s := states[|states| - 1];
    var m := s.life.seats[id].memory;
    moreStates, moreActions := Asks(states, actions, id, r, x);
    RecordEntered(s.books, id, m, r, s.life.disk, p, x);
    moreStates, moreActions := Write(moreStates, moreActions, id, C.Failing(), x, 1);
    var w := L.AttemptPlan(p, r, C.FailedResult()).writes;
    assert L.After(s.life.disk, w, 1) == L.Wrote(s.life.disk, w[0]);
  }

  lemma RecordEntered(b: Books, id: L.SeatId, m: Option<L.Memory>, r: L.Request, d: L.Disk, p: nat, x: Numbers)
    requires (r.Retry? || r.Resume?) && MayRecord(b, m, r, Known(b, id), x.root, p)
    ensures var w := L.AttemptPlan(p, r, C.FailedResult()).writes;
            Entered(b, id, m, r, d, w, x, 1) == Some(RecordPlan(b, m, r, Known(b, id), x.root, p))
  {
    var w := L.AttemptPlan(p, r, C.FailedResult()).writes;
    assert Entered(b, id, m, r, d, w, x, 0) == Some(b);
  }

  // ----- the first attempt -----

  function Empty(): State {
    State(L.State(true, L.Disk(false, 0, [], None), None, map[]), Books([], [], [], map[], NOTHING_USED, UNKNOWN, UNKNOWN, map[]))
  }

  /** Seats 0 and 1 have not heard of the run. */
  lemma Joined(x: Numbers) returns (states: seq<State>, actions: seq<Action>)
    ensures IsRun(states, actions) && Init(states[0]) && BudgetSaved.NoneFails(actions)
    ensures states[|states| - 1] == Empty().(life := Empty().life.(seats := map[0 := NEW_SEAT, 1 := NEW_SEAT]))
  {
    states, actions := [Empty()], [];
    states, actions := Extend(states, actions, Act(L.Join(0), x));
    states, actions := Extend(states, actions, Act(L.Join(1), x));
  }

  function FirstBooks(root: Limits, first: Used): Books {
    Ended(Empty().books.(plans := [root]), 0, 0, first)
  }

  function Remembers(p: nat, q: nat): L.Seat { L.Seat(Some(L.Remember(p, Failed(q))), None) }

  function FirstDisk(): L.Disk { Attempted(L.Disk(false, 0, [], None), 0, L.Launch) }

  /** Seat 0 launches the run. */
  lemma Launched(root: Limits, first: Used) returns (states: seq<State>, actions: seq<Action>)
    requires Valid(root) && first.cost >= 0.0
    ensures IsRun(states, actions) && Init(states[0]) && BudgetSaved.NoneFails(actions)
    ensures states[|states| - 1] ==
              State(L.State(true, FirstDisk(), None, map[0 := Remembers(0, 0), 1 := NEW_SEAT]), FirstBooks(root, first))
  {
    states, actions := Joined(Numbers(first, root));
    states, actions := Attempt(states, actions, 0, 0, Numbers(first, root));
  }

  lemma FirstFailed(d: L.Disk)
    requires d == FirstDisk() || d == FirstDisk().(attempts := 2)
    ensures !L.Pending(d.events) && !L.Over(d.events) && L.Durable(d) == Some(RunStatus.Failed)
    ensures L.Prior(d, d.attempts - 1) == Some(Failed(0))
  {
    C.NoMarks(d);
  }

  /** Seat 2 has recovered the run. */
  lemma Recovered(root: Limits, first: Used) returns (states: seq<State>, actions: seq<Action>)
    requires Valid(root) && first.cost >= 0.0
    ensures IsRun(states, actions) && Init(states[0]) && BudgetSaved.NoneFails(actions)
    ensures states[|states| - 1] ==
              State(L.State(true, FirstDisk(), None, map[0 := Remembers(0, 0), 1 := NEW_SEAT, 2 := Remembers(0, 0)]),
                    FirstBooks(root, first).(known := map[0 := Tally(first, Journaled(0)), 2 := Tally(first, Journaled(0))]))
  {
    states, actions := Launched(root, first);
    FirstFailed(FirstDisk());
    states, actions := Recovers(states, actions, 2, 0, Numbers(first, root));
  }

  // ----- a repeated launch -----

  function ByFailure(used: Used, k: nat): Charge { Charge(Tally(used, Journaled(k)), C.FailedResult().failure, ByRetry) }

  /** Seat 1 launches the same request, and the attempt starts again. */
  lemma LaunchedAgain(root: Limits, first: Used, again: Used) returns (states: seq<State>, actions: seq<Action>)
    requires Valid(root) && first.cost >= 0.0 && again.cost >= 0.0
    ensures IsRun(states, actions) && Init(states[0]) && BudgetSaved.NoneFails(actions)
    ensures states[|states| - 1] ==
              State(L.State(true, AgainDisk(), None, map[0 := Remembers(0, 0), 1 := Remembers(0, 0)]),
                    Ended(FirstBooks(root, first), 1, 0, again))
  {
    states, actions := Launched(root, first);
    states, actions := Attempt(states, actions, 1, 0, Numbers(again, root));
  }

  function AgainDisk(): L.Disk { Attempted(FirstDisk(), 0, L.Launch) }

  lemma AgainFailed()
    ensures L.Durable(AgainDisk()) == Some(RunStatus.Failed)
  {
    C.NoMarks(AgainDisk());
  }

  /** The retry that follows charges what the attempt used the second time alone. */
  lemma StartedTwice(root: Limits, first: Used, again: Used) returns (states: seq<State>, actions: seq<Action>)
    requires Valid(root) && root.retries >= 1 && first.cost >= 0.0 && again.cost >= 0.0 && Affords(root, again)
    ensures IsRun(states, actions) && Init(states[0]) && BudgetSaved.NoneFails(actions)
    ensures var b := states[|states| - 1].books;
            && b.plans == [root, Less(root, again)] && b.charges == [ByFailure(again, 1)]
            && b.results == [Terminal(0, first), Terminal(0, again)]
            && (WithinRoot(b) <==> NoMore(root, first, NOTHING_USED))
  {
    states, actions := LaunchedAgain(root, first, again);
    AgainFailed();
    RetryAfford(root, again);
    states, actions := Records(states, actions, 1, L.Retry, 1, Numbers(again, root));
    AgainWithin(states[|states| - 1].books, root, first, again);
  }

  lemma AgainWithin(b: Books, root: Limits, first: Used, again: Used)
    requires b.plans == [root, Less(root, again)] && |b.charges| == 1
    requires b.results == [Terminal(0, first), Terminal(0, again)]
    ensures WithinRoot(b) <==> NoMore(root, first, NOTHING_USED)
  {
    TwoRecorded(b.results, 1);
  }

  lemma TwoRecorded(results: seq<Terminal>, p: nat)
    requires |results| == 2 && results[0].attempt < p && results[1].attempt < p
    ensures RecordedBelow(results, p, 2) == Plus(results[0].used, results[1].used)
  {
    NothingFirst(results[0].used, RecordedBelow(results, p, 0));
    assert RecordedBelow(results, p, 1) == results[0].used;
  }

  // ----- a stale release -----

  /** What seat 0's release leaves on disk: the first attempt's result behind the second. */
  function ReleasedDisk(): L.Disk { Marked(Attempted(FirstDisk(), 1, L.Retry), L.RunReleased, Failed(0)) }

  lemma ReleasesFirst()
    ensures L.PlanOf(Attempted(FirstDisk(), 1, L.Retry), true, Some(L.Remember(0, Failed(0))), L.Release, C.Failing()) ==
            Some(L.Plan([L.Append(L.RunReleased), L.PutSnapshot(Failed(0))], L.Remember(0, Failed(0))))
  {
    C.NoMarks(Attempted(FirstDisk(), 1, L.Retry));
  }

  /** Seat 0 still remembers the first attempt when it releases the workspace. */
  lemma Releases(states: seq<State>, actions: seq<Action>, x: Numbers) returns (moreStates: seq<State>, moreActions: seq<Action>)
    requires IsRun(states, actions)
    requires var s := states[|states| - 1];
             && s.life.disk == Attempted(FirstDisk(), 1, L.Retry) && s.life.holder == None && s.life.shares
             && 0 in s.life.seats && s.life.seats[0] == Remembers(0, 0)
    ensures IsRun(moreStates, moreActions) && moreStates[0] == states[0] && |moreStates| > 0
    ensures BudgetSaved.NoneFails(actions) ==> BudgetSaved.NoneFails(moreActions)
    ensures var s := states[|states| - 1];
            moreStates[|moreStates| - 1] ==
              State(s.life.(disk := ReleasedDisk()),
                    s.books.(saved := Known(s.books, 0), known := s.books.known[0 := Known(s.books, 0)]))
  {
    var s := states[|states| - 1];
    ReleasesFirst();
    moreStates, moreActions := Asks(states, actions, 0, L.Release, x);
    var t := moreStates[|moreStates| - 1];
    moreStates, moreActions := Mark(moreStates, moreActions, 0, C.Failing(), x, L.RunReleased, Failed(0));
    C.SameKey(s.life.seats, 0, t.life.seats[0], Remembers(0, 0));
    assert s.life.seats[0 := Remembers(0, 0)] == s.life.seats;
  }

  /** Seat 2 has retried the run, and seat 0 has released its workspace. */
  lemma Released(root: Limits, first: Used, second: Used) returns (states: seq<State>, actions: seq<Action>)
    requires Valid(root) && root.retries >= 2 && first.cost >= 0.0 && second.cost >= 0.0 && Affords(root, first)
    ensures IsRun(states, actions) && Init(states[0]) && BudgetSaved.NoneFails(actions)
    ensures var s := states[|states| - 1];
            && s.life == L.State(true, ReleasedDisk(), None, map[0 := Remembers(0, 0), 1 := NEW_SEAT, 2 := Remembers(1, 1)])
            && s.books.plans == [root, Less(root, first)] && s.books.charges == [ByFailure(first, 0)]
            && s.books.results == [Terminal(0, first), Terminal(1, second)] && s.books.saved == Tally(first, Journaled(0))
  {
    var x := Numbers(second, root);
    states, actions := Recovered(root, first);
    RetryAfford(root, first);
    FirstFailed(FirstDisk());
    states, actions := Attempt(states, actions, 2, 1, x);
    states, actions := Releases(states, actions, x);
  }

  /** Seat 3 recovers the second attempt with the first one's result, and the retry charges that again. */
  lemma StaleCharge(root: Limits, first: Used, second: Used) returns (states: seq<State>, actions: seq<Action>)
    requires Valid(root) && root.retries >= 2 && first.cost >= 0.0 && second.cost >= 0.0 && Affords(root, Plus(first, first))
    ensures IsRun(states, actions) && Init(states[0]) && BudgetSaved.NoneFails(actions)
    ensures var b := states[|states| - 1].books;
            && b.plans == [root, Less(root, first), Less(Less(root, first), first)]
            && b.charges == [ByFailure(first, 0), ByFailure(first, 0)]
            && b.results == [Terminal(0, first), Terminal(1, second)]
            && (WithinRoot(b) <==> NoMore(root, second, first))
  {
    var x := Numbers(second, root);
    states, actions := Released(root, first, second);
    RetryAfford(Less(root, first), first);
    ReleasedRecovers();
    states, actions := Recovers(states, actions, 3, 0, x);
    states, actions := Records(states, actions, 3, L.Retry, 2, x);
    TwiceWithin(states[|states| - 1].books, root, first, second);
  }

  lemma ReleasedRecovers()
    ensures var d := ReleasedDisk();
            && L.Prior(d, 1) == Some(Failed(0)) && !L.Pending(d.events) && !L.Over(d.events)
            && L.Durable(d) == Some(RunStatus.Failed)
  {
    C.NoMarks(ReleasedDisk());
  }

  lemma TwiceWithin(b: Books, root: Limits, first: Used, second: Used)
    requires b.plans == [root, Less(root, first), Less(Less(root, first), first)] && |b.charges| == 2
    requires b.results == [Terminal(0, first), Terminal(1, second)]
    ensures WithinRoot(b) <==> NoMore(root, second, first)
  {
    TwoRecorded(b.results, 2);
  }

  // ----- an attempt that never starts -----

  /** Seat 2 dies with the retry's record written and its first event not. */
  lemma NeverStarted(root: Limits, first: Used) returns (states: seq<State>, actions: seq<Action>)
    requires Valid(root) && root.retries >= 1 && first.cost >= 0.0 && Affords(root, first)
    ensures IsRun(states, actions) && Init(states[0])
    ensures var s := states[|states| - 1];
            && s.life.shares && s.life.disk == FirstDisk().(attempts := 2) && s.life.holder == None && s.life.seats.Keys == {0, 1}
            && s.books.plans == [root, Less(root, first)] && s.books.charges == [ByFailure(first, 0)]
            && s.books.results == [Terminal(0, first)] && s.books.saved == Tally(first, Journaled(0))
  {
    var x := Numbers(first, root);
    states, actions := Recovered(root, first);
    RetryAfford(root, first);
    FirstFailed(FirstDisk());
    states, actions := Records(states, actions, 2, L.Retry, 1, x);
    states, actions := Dies(states, actions, 2, x);
  }

  /** Seat 3 recovers the new plan with the first attempt's result, and the next retry charges that again. */
  lemma ChargedTwice(root: Limits, first: Used) returns (states: seq<State>, actions: seq<Action>)
    requires Valid(root) && root.retries >= 2 && first.cost >= 0.0 && Affords(root, Plus(first, first))
    ensures IsRun(states, actions) && Init(states[0])
    ensures var b := states[|states| - 1].books;
            && b.plans == [root, Less(root, first), Less(Less(root, first), first)]
            && b.charges == [ByFailure(first, 0), ByFailure(first, 0)] && b.results == [Terminal(0, first)]
  {
    var x := Numbers(first, root);
    states, actions := NeverStarted(root, first);
    RetryAfford(Less(root, first), first);
    FirstFailed(FirstDisk().(attempts := 2));
    states, actions := Recovers(states, actions, 3, 0, x);
    states, actions := Records(states, actions, 3, L.Retry, 2, x);
  }

  // ----- a death between terminal event and snapshot -----

  function OneEnded(): seq<L.Event> { [L.Starting(0, L.Launch), L.Ended(0, false)] }

  /** The first attempt has written its terminal event when seat 0 dies. */
  lemma Unsaved(root: Limits, first: Used) returns (states: seq<State>, actions: seq<Action>)
    requires Valid(root) && first.cost >= 0.0
    ensures IsRun(states, actions) && Init(states[0])
    ensures states[|states| - 1] == OneUnsaved(root, first)
  {
    var x := Numbers(first, root);
    states, actions := WaitsToLaunch(x);
    EndedEntered(Empty().books, 0, L.Disk(false, 0, [], None), x);
    EndedWritten();
    states, actions := Write(states, actions, 0, C.Failing(), x, 4);
    states, actions := Dies(states, actions, 0, x);
  }

  lemma WaitsToLaunch(x: Numbers) returns (states: seq<State>, actions: seq<Action>)
    ensures IsRun(states, actions) && Init(states[0])
    ensures states[|states| - 1] ==
              Empty().(life := Empty().life.(seats := map[0 := L.Seat(None, Some(L.Waiting(L.Launch))), 1 := NEW_SEAT]))
  {
    states, actions := Joined(x);
    states, actions := Asks(states, actions, 0, L.Launch, x);
  }

  function OneUnsaved(root: Limits, first: Used): State {
    State(L.State(true, L.Disk(true, 1, OneEnded(), None), None, map[1 := NEW_SEAT]),
          Empty().books.(plans := [root], results := [Terminal(0, first)]))
  }

  lemma EndedWritten()
    ensures L.After(L.Disk(false, 0, [], None), L.AttemptPlan(0, L.Launch, C.FailedResult()).writes, 4) ==
            L.Disk(true, 1, OneEnded(), None)
  {
    C.FiveWrites(L.Disk(false, 0, [], None), L.AttemptPlan(0, L.Launch, C.FailedResult()).writes);
  }

  lemma EndedEntered(b: Books, id: L.SeatId, d: L.Disk, x: Numbers)
    requires MayRecord(b, None, L.Launch, Known(b, id), x.root, 0) && x.used.cost >= 0.0
    ensures var w := L.AttemptPlan(0, L.Launch, C.FailedResult()).writes;
            Entered(b, id, None, L.Launch, d, w, x, 4) ==
            Some(RecordPlan(b, None, L.Launch, Known(b, id), x.root, 0).(meter := NOTHING_USED,
                                                                        results := b.results + [Terminal(0, x.used)]))
  {
    var w := L.AttemptPlan(0, L.Launch, C.FailedResult()).writes;
    var c := RecordPlan(b, None, L.Launch, Known(b, id), x.root, 0);
    assert Entered(b, id, None, L.Launch, d, w, x, 1) == Some(b);
    assert Entered(b, id, None, L.Launch, d, w, x, 2) == Some(c);
    assert Entered(b, id, None, L.Launch, d, w, x, 3) == Some(c.(meter := NOTHING_USED));
  }

  function NeverProved(): L.Credited { L.Unproved(true, 0, None, L.NEVER_PROVED) }

  function BlockedDisk(): L.Disk { Marked(L.Disk(true, 1, OneEnded(), None), L.StartupReconciled, NeverProved()) }

  const RECKONED := Tally(NOTHING_USED, Reckoned(0))

  /** A run whose first attempt recovery has reckoned, with its result on disk and in memory. */
  function Reckons(root: Limits, first: Used, d: L.Disk, o: L.Credited): State {
    State(L.State(true, d, None, map[1 := NEW_SEAT, 2 := L.Seat(Some(L.Remember(0, o)), None)]),
          Empty().books.(plans := [root], results := [Terminal(0, first)], saved := RECKONED, known := map[2 := RECKONED]))
  }

  lemma RecoversBlocked()
    ensures var d := L.Disk(true, 1, OneEnded(), None);
            && L.RecoverPlan(d, true, 0) ==
               L.Plan([L.Append(L.StartupReconciled), L.PutSnapshot(NeverProved())], L.Remember(0, NeverProved()))
            && L.Prior(d, 0).None? && !TakesVerdict(L.Recover(0), d)
  {
    C.NoMarks(L.Disk(true, 1, OneEnded(), None));
  }

  /** Seat 2 recovers the run as blocked; without a usage checkpoint it reckons that nothing was used. */
  lemma Blocked(root: Limits, first: Used) returns (states: seq<State>, actions: seq<Action>)
    requires Valid(root) && first.cost >= 0.0
    ensures IsRun(states, actions) && Init(states[0])
    ensures states[|states| - 1] == Reckons(root, first, BlockedDisk(), NeverProved())
  {
    var x := Numbers(first, root);
    states, actions := Unsaved(root, first);
    RecoversBlocked();
    states, actions := Boots(states, actions, 2, x);
    states, actions := Mark(states, actions, 2, C.Failing(), x, L.StartupReconciled, NeverProved());
  }

  function Resumable(): L.Credited {
    L.Credited(E.InterruptedResult(), 0)
  }

  function ReconciledDisk(): L.Disk { Marked(BlockedDisk(), L.RunReconciled, Resumable()) }

  lemma ReconcilesResumable()
    ensures L.PlanOf(BlockedDisk(), true, Some(L.Remember(0, NeverProved())), L.Reconcile, E.ShutDown()) ==
            Some(L.Plan([L.Append(L.RunReconciled), L.PutSnapshot(Resumable())], L.Remember(0, Resumable())))
  {
    C.NoMarks(BlockedDisk());
  }

  /** Cleanup is proved and the session is there: the run is interrupted, to be resumed. */
  lemma Reconciled(root: Limits, first: Used) returns (states: seq<State>, actions: seq<Action>)
    requires Valid(root) && first.cost >= 0.0
    ensures IsRun(states, actions) && Init(states[0])
    ensures states[|states| - 1] == Reckons(root, first, ReconciledDisk(), Resumable())
  {
    var x := Numbers(first, root);
    states, actions := Blocked(root, first);
    ReconcilesResumable();
    states, actions := Asks(states, actions, 2, L.Reconcile, x);
    states, actions := Mark(states, actions, 2, E.ShutDown(), x, L.RunReconciled, Resumable());
  }

  lemma Resumed(root: Limits, first: Used) returns (states: seq<State>, actions: seq<Action>)
    requires Valid(root) && root.resumes >= 1 && root.cost > 0.0 && first.cost >= 0.0
    ensures IsRun(states, actions) && Init(states[0])
    ensures var b := states[|states| - 1].books;
            && b.plans == [root, root.(resumes := root.resumes - 1)] && b.results == [Terminal(0, first)]
            && b.charges == [Charge(RECKONED, Resumable().result.failure, ByResume)]
  {
    states, actions := Reconciled(root, first);
    C.NoMarks(ReconciledDisk());
    assert Derive(root, Resumable().result.failure, NOTHING_USED, ByResume) == Ok(root.(resumes := root.resumes - 1));
    states, actions := Records(states, actions, 2, L.Resume, 1, Numbers(first, root));
  }

  /**
   The resume charges nothing, so the new plan has the whole root left although the
   journal records a result, and the limits its attempt rebuilds are above the root's.
   */
  lemma ResultLost(root: Limits, first: Used) returns (states: seq<State>, actions: seq<Action>)
    requires Valid(root) && root.resumes >= 1 && root.cost > 0.0 && first.cost >= 0.0 && first.runtimeMs > 0
    ensures IsRun(states, actions) && Init(states[0])
    ensures var b := states[|states| - 1].books;
            && b.plans == [root, root.(resumes := root.resumes - 1)] && b.results == [Terminal(0, first)]
            && b.charges == [Charge(RECKONED, Resumable().result.failure, ByResume)]
            && !WithinRoot(b) && Steering(b, 1).0 == root.runtimeMs + first.runtimeMs
  {
    states, actions := Resumed(root, first);
    OneRecorded(states[|states| - 1].books.results);
    OneTotal(states[|states| - 1].books.results);
  }

  lemma OneRecorded(results: seq<Terminal>)
    requires |results| == 1 && results[0].attempt == 0
    ensures RecordedBelow(results, 1, 1) == results[0].used
  {}

  lemma OneTotal(results: seq<Terminal>)
    requires |results| == 1
    ensures Total(Uses(results), 1) == results[0].used
  {
    NothingFirst(results[0].used, Total(Uses(results), 0));
  }

  lemma NothingFirst(a: Used, b: Used)
    requires b.runtimeMs == 0 && b.tokens == 0 && b.cost == 0.0
    ensures Plus(b, a) == a
  {}
}
