/**
 The pausable attempt deadline (src/runtime/deadline.ts): time is charged only
 while it runs, and the signal aborts from a timer set for the time still left.
 A timer fires at its due time or later, never earlier.
 */
module Deadline {
  import opened Outcomes

  datatype State = State(timeoutMs: real, now: real, charged: real, runningSince: Option<real>, timer: Option<real>, aborted: bool)

  datatype Action = Advance(ms: real) | Pause | Resume | Dispose | Fire

  function Max(a: real, b: real): real { if a < b then b else a }

  function Stopped(s: State): State {
    s.(charged := if s.runningSince.Some? then s.charged + (s.now - s.runningSince.value) else s.charged,
       runningSince := None, timer := None)
  }

  function Started(s: State): State {
    if s.runningSince.Some? || s.aborted then s
    else s.(runningSince := Some(s.now), timer := Some(s.now + Max(0.0, s.timeoutMs - s.charged)))
  }

  /** A new deadline runs at once. */
  function Created(timeoutMs: real, now: real): State {
    Started(State(timeoutMs, now, 0.0, None, None, false))
  }

  predicate Enabled(s: State, a: Action) {
    match a
    case Advance(ms) => ms >= 0.0
    case Fire => s.timer.Some? && s.timer.value <= s.now
    case _ => true
  }

  function Apply(s: State, a: Action): State {
    match a
    case Advance(ms) => s.(now := s.now + ms)
    case Pause => Stopped(s)
    case Resume => Started(s)
    case Dispose => Stopped(s)
    case Fire => Stopped(s).(aborted := true)
  }

  class AttemptDeadline {
    const timeoutMs: real
    var now: real
    var charged: real
    var runningSince: Option<real>
    var timer: Option<real>
    var aborted: bool

    function Now(): State
      reads this
    {
      State(timeoutMs, now, charged, runningSince, timer, aborted)
    }

    constructor (timeoutMs: real, now: real)
      ensures Now() == Created(timeoutMs, now)
    {
      this.timeoutMs, this.now, charged, aborted := timeoutMs, now, 0.0, false;
      runningSince, timer := None, None;
      new;
      Start();
    }

    method Start()
      modifies `runningSince, `timer
      ensures Now() == Started(old(Now()))
    {
      if runningSince.Some? || aborted { return; }
      runningSince := Some(now);
      timer := Some(now + Max(0.0, timeoutMs - charged));
    }

    method Stop()
      modifies `charged, `runningSince, `timer
      ensures Now() == Stopped(old(Now()))
    {
      timer := None;
      if runningSince.Some? { charged := charged + (now - runningSince.value); }
      runningSince := None;
    }

    method Elapse(ms: real)
      requires ms >= 0.0
      modifies `now
      ensures Now() == Apply(old(Now()), Advance(ms))
    {
      now := now + ms;
    }

    /** The timer's callback. */
    method TimeOut()
      requires timer.Some? && timer.value <= now
      modifies this
      ensures Now() == Apply(old(Now()), Fire)
    {
      Stop();
      aborted := true;
    }

    /** Whole milliseconds charged so far. */
    method ChargedMs() returns (ms: int)
      ensures var exact := charged + if runningSince.Some? then now - runningSince.value else 0.0;
              && ms >= 0 && exact <= ms as real && (ms > 0 ==> ms as real - 1.0 < exact)
    {
      var exact := charged + if runningSince.Some? then now - runningSince.value else 0.0;
      ms := exact.Floor;
      if ms as real < exact { ms := ms + 1; }
      if ms < 0 { ms := 0; }
    }
  }

  // ----- what the actions alone say -----

  ghost predicate IsRun(states: seq<State>, actions: seq<Action>) {
    && |states| == |actions| + 1
    && forall i :: 0 <= i < |actions| ==> Enabled(states[i], actions[i]) && states[i + 1] == Apply(states[i], actions[i])
  }

  /** The timer has fired among the first `n` actions. */
  predicate Fired(actions: seq<Action>, n: nat)
    requires n <= |actions|
  {
    n > 0 && (actions[n - 1].Fire? || Fired(actions, n - 1))
  }

  /** After the first `n` actions the deadline runs: nothing stopped it since it was last started. */
  predicate Runs(actions: seq<Action>, n: nat)
    requires n <= |actions|
  {
    if n == 0 then true
    else match actions[n - 1]
      case Advance(_) => Runs(actions, n - 1)
      case Resume => Runs(actions, n - 1) || !Fired(actions, n - 1)
      case _ => false
  }

  /** The sum of the running intervals. */
  function RunningTime(actions: seq<Action>, n: nat): real
    requires n <= |actions|
  {
    if n == 0 then 0.0
    else RunningTime(actions, n - 1) + if actions[n - 1].Advance? && Runs(actions, n - 1) then actions[n - 1].ms else 0.0
  }

  function ChargedNow(s: State): real {
    s.charged + if s.runningSince.Some? then s.now - s.runningSince.value else 0.0
  }

  /** The fields hold what the actions say, and the timer is due when the charge reaches the limit. */
  ghost predicate Agrees(s: State, actions: seq<Action>, n: nat)
    requires n <= |actions|
  {
    && (s.runningSince.Some? <==> Runs(actions, n))
    && (s.aborted <==> Fired(actions, n))
    && ChargedNow(s) == RunningTime(actions, n)
    && (s.timer.Some? <==> s.runningSince.Some?)
    && (s.runningSince.Some? ==> s.runningSince.value <= s.now && !s.aborted
                                 && s.timer.value == s.runningSince.value + Max(0.0, s.timeoutMs - s.charged))
    && (s.aborted ==> s.charged >= s.timeoutMs)
  }

  lemma {:induction false} RunAgrees(states: seq<State>, actions: seq<Action>, timeoutMs: real, now: real, n: nat)
    requires IsRun(states, actions) && states[0] == Created(timeoutMs, now) && n < |states|
    ensures Agrees(states[n], actions, n) && states[n].timeoutMs == timeoutMs
  {
    if n > 0 {
      RunAgrees(states, actions, timeoutMs, now, n - 1);
    }
  }

  /** Charged time is the sum of the running intervals, over any actions. */
  lemma ChargedIsRunningTime(states: seq<State>, actions: seq<Action>, timeoutMs: real, now: real, n: nat)
    requires IsRun(states, actions) && states[0] == Created(timeoutMs, now) && n < |states|
    ensures ChargedNow(states[n]) == RunningTime(actions, n)
  {
    RunAgrees(states, actions, timeoutMs, now, n);
  }

  /** The signal aborts only once the limit is charged, and while running the timer is due exactly from then on. */
  lemma AbortsExactlyWhenCharged(states: seq<State>, actions: seq<Action>, timeoutMs: real, now: real, n: nat)
    requires IsRun(states, actions) && states[0] == Created(timeoutMs, now) && n < |states|
    ensures states[n].aborted ==> RunningTime(actions, n) >= timeoutMs
    ensures Runs(actions, n) ==> (Enabled(states[n], Fire) <==> RunningTime(actions, n) >= timeoutMs)
    ensures !Runs(actions, n) ==> !Enabled(states[n], Fire)
  {
    RunAgrees(states, actions, timeoutMs, now, n);
  }

  /** After an abort nothing more is charged, whatever is called. */
  lemma {:induction false} NothingChargedAfterAbort(states: seq<State>, actions: seq<Action>, timeoutMs: real, now: real,
      m: nat, n: nat)
    requires IsRun(states, actions) && states[0] == Created(timeoutMs, now) && m <= n < |states| && states[m].aborted
    ensures states[n].aborted && RunningTime(actions, n) == RunningTime(actions, m)
    ensures ChargedNow(states[n]) == ChargedNow(states[m])
    decreases n - m
  {
    RunAgrees(states, actions, timeoutMs, now, m);
    RunAgrees(states, actions, timeoutMs, now, n);
    if m < n {
      NothingChargedAfterAbort(states, actions, timeoutMs, now, m, n - 1);
      RunAgrees(states, actions, timeoutMs, now, n - 1);
    }
  }
}
