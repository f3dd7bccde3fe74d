/**
 VM slots shared by the seats of one host (src/sandbox/capacity.ts): one
 recorded policy, one exclusive localhost port per slot, and sandbox calls that
 may only take the steps `Allowed` lists. GondolinSandbox.dfy proves that the
 sandbox code takes no others.
 */
module VmSlots {
  import opened Outcomes

  const MAX_SLOTS := 32
  const INITIAL_POLL_MS := 250
  const MAX_POLL_MS := 2000

  type SeatId = nat
  type CallId = nat

  // ----- what one sandbox call holds -----

  datatype Holding = Holding(slot: Option<nat>, vm: bool, lock: bool, lease: bool)

  const NOTHING := Holding(None, false, false, false)

  datatype Effect = TakeSlot(slot: nat) | DropSlot | BootVm | VmGone | TakeLock | DropLock | TakeLease | DropLease

  /** A VM boots only under a slot and the slot goes only after the VM. */
  predicate Allowed(h: Holding, e: Effect) {
    match e
    case TakeSlot(_) => h.slot.None?
    case DropSlot => h.slot.Some? && !h.vm
    case BootVm => h.slot.Some? && !h.vm
    case VmGone => h.vm
    case TakeLock => !h.lock
    case DropLock => h.lock
    case TakeLease => !h.lease
    case DropLease => h.lease
  }

  function Holds(h: Holding, e: Effect): Holding {
    match e
    case TakeSlot(slot) => h.(slot := Some(slot))
    case DropSlot => h.(slot := None)
    case BootVm => h.(vm := true)
    case VmGone => h.(vm := false)
    case TakeLock => h.(lock := true)
    case DropLock => h.(lock := false)
    case TakeLease => h.(lease := true)
    case DropLease => h.(lease := false)
  }

  // ----- all seats of a root -----

  datatype Policy = Policy(maxSlots: nat, basePort: nat)

  datatype SeatPhase = Started | Offered | Agreed | Refused

  datatype Seat = Seat(policy: Policy, phase: SeatPhase)

  datatype Call = Call(seat: SeatId, holding: Holding)

  datatype State = State(recorded: Option<Policy>, seats: map<SeatId, Seat>, calls: map<CallId, Call>)

  datatype Action =
    | Join(seat: SeatId, policy: Policy)
    | Offer(seat: SeatId)            // link the policy file unless there is one
    | ReadBack(seat: SeatId)         // agree with the recorded policy or refuse to start
    | Open(call: CallId, seat: SeatId)
    | Do(call: CallId, effect: Effect)
    | Die(seat: SeatId)

  predicate Taken(s: State, port: nat) {
    exists c :: c in s.calls && PortOf(s, c) == Some(port)
  }

  function PortOf(s: State, c: CallId): Option<nat> {
    if c in s.calls && s.calls[c].seat in s.seats && s.calls[c].holding.slot.Some? then
      Some(s.seats[s.calls[c].seat].policy.basePort + s.calls[c].holding.slot.value)
    else None
  }

  /** A seat validates its own settings before it offers them. */
  predicate ValidPolicy(p: Policy) {
    1 <= p.maxSlots <= MAX_SLOTS && 1024 <= p.basePort && p.basePort + p.maxSlots - 1 <= 65535
  }

  ghost predicate Enabled(s: State, a: Action) {
    match a
    case Join(seat, policy) => seat !in s.seats && ValidPolicy(policy) && forall c :: c in s.calls ==> s.calls[c].seat != seat
    case Offer(seat) => seat in s.seats && s.seats[seat].phase.Started?
    case ReadBack(seat) => seat in s.seats && s.seats[seat].phase.Offered?
    case Open(call, seat) => call !in s.calls && seat in s.seats && s.seats[seat].phase.Agreed?
    case Do(call, effect) =>
      && call in s.calls && Allowed(s.calls[call].holding, effect)
      && (effect.TakeSlot? ==>
            && s.calls[call].seat in s.seats
            && effect.slot < s.seats[s.calls[call].seat].policy.maxSlots
            && !Taken(s, s.seats[s.calls[call].seat].policy.basePort + effect.slot))
    case Die(seat) => seat in s.seats && forall c :: c in s.calls && s.calls[c].seat == seat ==> !s.calls[c].holding.vm
  }

  function Apply(s: State, a: Action): State {
    match a
    case Join(seat, policy) => s.(seats := s.seats[seat := Seat(policy, Started)])
    case Offer(seat) =>
      if seat !in s.seats then s
      else s.(recorded := if s.recorded.None? then Some(s.seats[seat].policy) else s.recorded,
              seats := s.seats[seat := s.seats[seat].(phase := Offered)])
    case ReadBack(seat) =>
      if seat !in s.seats then s
      else s.(seats := s.seats[seat := s.seats[seat].(phase :=
          if s.recorded == Some(s.seats[seat].policy) then Agreed else Refused)])
    case Open(call, seat) => s.(calls := s.calls[call := Call(seat, NOTHING)])
    case Do(call, effect) =>
      if call !in s.calls then s
      else s.(calls := s.calls[call := s.calls[call].(holding := Holds(s.calls[call].holding, effect))])
    case Die(seat) => s.(seats := s.seats - {seat}, calls := map c | c in s.calls && s.calls[c].seat != seat :: s.calls[c])
  }

  ghost predicate IsRun(states: seq<State>, actions: seq<Action>) {
    && |states| == |actions| + 1
    && forall i :: 0 <= i < |actions| ==> Enabled(states[i], actions[i]) && states[i + 1] == Apply(states[i], actions[i])
  }

  predicate Init(s: State) { s == State(None, map[], map[]) }

  /** A call belongs to a seat that agreed on the policy, and its VM runs under a slot of that policy. */
  predicate CallOk(s: State, c: CallId)
    requires c in s.calls
  {
    var h := s.calls[c].holding;
    && s.calls[c].seat in s.seats && s.seats[s.calls[c].seat].phase.Agreed?
    && s.recorded == Some(s.seats[s.calls[c].seat].policy)
    && (h.vm ==> h.slot.Some?)
    && (h.slot.Some? ==> h.slot.value < s.recorded.value.maxSlots)
  }

  ghost predicate Inv(s: State) {
    && (s.recorded.Some? ==> ValidPolicy(s.recorded.value))
    && (forall seat :: seat in s.seats ==> ValidPolicy(s.seats[seat].policy))
    && (forall seat :: seat in s.seats && s.seats[seat].phase.Agreed? ==> s.recorded == Some(s.seats[seat].policy))
    && (forall c :: c in s.calls ==> CallOk(s, c))
    && (forall c, d :: c in s.calls && d in s.calls && c != d && s.calls[c].holding.slot.Some? ==>
          s.calls[c].holding.slot != s.calls[d].holding.slot)
  }

  lemma DoKeepsInv(s: State, c: CallId, e: Effect)
    requires Inv(s) && Enabled(s, Do(c, e))
    ensures Inv(Apply(s, Do(c, e)))
  {
    var t := Apply(s, Do(c, e));
    assert CallOk(s, c);
    forall d | d in t.calls ensures CallOk(t, d) { assert CallOk(s, d); }
    if e.TakeSlot? {
      forall d | d in s.calls && d != c ensures s.calls[d].holding.slot != Some(e.slot) {
        assert CallOk(s, d);
        if s.calls[d].holding.slot.Some? { assert PortOf(s, d) == Some(s.recorded.value.basePort + s.calls[d].holding.slot.value); }
      }
    }
  }

  lemma StepKeepsInv(s: State, a: Action)
    requires Inv(s) && Enabled(s, a)
    ensures Inv(Apply(s, a))
  {
    if a.Do? {
      DoKeepsInv(s, a.call, a.effect);
    } else {
      var t := Apply(s, a);
      forall c | c in t.calls ensures CallOk(t, c) {
        if c in s.calls { assert CallOk(s, c); }
      }
    }
  }

  lemma {:induction false} RunKeepsInv(states: seq<State>, actions: seq<Action>, i: nat)
    requires IsRun(states, actions) && Init(states[0]) && i < |states|
    ensures Inv(states[i])
  {
    if i > 0 {
      RunKeepsInv(states, actions, i - 1);
      StepKeepsInv(states[i - 1], actions[i - 1]);
    }
  }

  function LiveVms(s: State): set<CallId> {
    set c | c in s.calls && s.calls[c].holding.vm
  }

  function HeldSlots(s: State): set<nat> {
    set c | c in s.calls && s.calls[c].holding.slot.Some? :: s.calls[c].holding.slot.value
  }

  lemma {:induction false} NoMoreThan(calls: set<CallId>, s: State, slots: set<nat>)
    requires forall c :: c in calls ==> c in s.calls && s.calls[c].holding.slot.Some? && s.calls[c].holding.slot.value in slots
    requires forall c, d :: c in calls && d in calls && c != d ==> s.calls[c].holding.slot != s.calls[d].holding.slot
    ensures |calls| <= |slots|
    decreases calls
  {
    if calls != {} {
      var c :| c in calls;
      NoMoreThan(calls - {c}, s, slots - {s.calls[c].holding.slot.value});
    }
  }

  lemma {:induction false} BoundedSet(slots: set<nat>, n: nat)
    requires forall x :: x in slots ==> x < n
    ensures |slots| <= n
  {
    if n == 0 {
      assert slots == {};
    } else {
      BoundedSet(slots - {n - 1}, n - 1);
    }
  }

  /**
   In every run of any number of seats: live VMs, warm-ups included, never
   exceed the slots held, and those never exceed the one recorded `maxSlots`
   that every seat holding one agreed to.
   */
  lemma LiveVmsWithinSlots(states: seq<State>, actions: seq<Action>, i: nat)
    requires IsRun(states, actions) && Init(states[0]) && i < |states|
    ensures |LiveVms(states[i])| <= |HeldSlots(states[i])|
    ensures states[i].recorded.Some? ==> |HeldSlots(states[i])| <= states[i].recorded.value.maxSlots <= MAX_SLOTS
    ensures states[i].recorded.None? ==> HeldSlots(states[i]) == {}
  {
    var s := states[i];
    RunKeepsInv(states, actions, i);
    forall c | c in s.calls ensures CallOk(s, c) {}
    NoMoreThan(LiveVms(s), s, HeldSlots(s));
    if s.recorded.Some? { BoundedSet(HeldSlots(s), s.recorded.value.maxSlots); }
  }

  /** Two calls that hold a slot hold different ports, whichever seats they are of. */
  lemma HeldPortsDistinct(states: seq<State>, actions: seq<Action>, i: nat, c: CallId, d: CallId)
    requires IsRun(states, actions) && Init(states[0]) && i < |states| && c != d
    requires PortOf(states[i], c).Some? && PortOf(states[i], d).Some?
    ensures PortOf(states[i], c) != PortOf(states[i], d)
  {
    RunKeepsInv(states, actions, i);
    assert CallOk(states[i], c) && CallOk(states[i], d);
  }

  /** The recorded policy is never rewritten. */
  lemma {:induction false} PolicyWriteOnce(states: seq<State>, actions: seq<Action>, i: nat, j: nat)
    requires IsRun(states, actions) && i <= j < |states| && states[i].recorded.Some?
    ensures states[j].recorded == states[i].recorded
    decreases j - i
  {
    if i < j { PolicyWriteOnce(states, actions, i, j - 1); }
  }

  // ----- waiting for a slot -----

  datatype AcquireError = Exhausted(waitedMs: nat) | Aborted

  /** The slots other calls hold at each look. */
  type Busy = nat -> set<nat>

  predicate FirstFree(maxSlots: nat, busy: set<nat>, slot: nat) {
    slot < maxSlots && slot !in busy && forall x :: 0 <= x < slot ==> x in busy
  }

  /** The first free slot of one look, as the scan finds it. */
  method TryAcquire(maxSlots: nat, busy: set<nat>) returns (slot: Option<nat>)
    ensures slot.Some? ==> FirstFree(maxSlots, busy, slot.value)
    ensures slot.None? <==> forall x :: 0 <= x < maxSlots ==> x in busy
  {
    for x := 0 to maxSlots
      invariant forall y :: 0 <= y < x ==> y in busy
    {
      if x !in busy { return Some(x); }
    }
    return None;
  }

  function Min(a: nat, b: nat): nat { if a < b then a else b }

  /** The first `n` looks found every slot busy, and nobody had called the wait off. */
  ghost predicate NoneFreeTo(maxSlots: nat, busy: Busy, aborted: nat -> bool, n: nat) {
    forall k :: 0 <= k < n ==> !aborted(k) && forall x :: 0 <= x < maxSlots ==> x in busy(k)
  }

  /**
   Looks again and again, sleeping longer each time: the slot is the first free
   one of the first look that finds any. `late` is how much longer than asked the
   n-th sleep and look took.
   */
  method Acquire(maxSlots: nat, waitMs: nat, busy: Busy, aborted: nat -> bool, late: nat -> nat)
      returns (r: Result<nat, AcquireError>)
    ensures r.Ok? ==> exists n :: NoneFreeTo(maxSlots, busy, aborted, n) && !aborted(n) && FirstFree(maxSlots, busy(n), r.value)
    ensures r.Err? && r.error.Aborted? ==> exists n :: NoneFreeTo(maxSlots, busy, aborted, n) && aborted(n)
    ensures r.Err? && r.error.Exhausted? ==>
              r.error.waitedMs >= waitMs && exists n :: n > 0 && NoneFreeTo(maxSlots, busy, aborted, n)
  {
    var n, waited, poll := 0, 0, INITIAL_POLL_MS;
    while true
      invariant 0 < poll <= MAX_POLL_MS && (n > 0 ==> waited > 0)
      invariant NoneFreeTo(maxSlots, busy, aborted, n)
      decreases if waited < waitMs then waitMs - waited else 0, if waited < waitMs then 1 else if n == 0 then 1 else 0
    {
      if aborted(n) { return Err(Aborted); }
      var slot := TryAcquire(maxSlots, busy(n));
      if slot.Some? { return Ok(slot.value); }
      assert NoneFreeTo(maxSlots, busy, aborted, n + 1);
      if waited >= waitMs { return Err(Exhausted(waited)); }
      waited := waited + Min(poll, waitMs - waited) + late(n);
      poll := Min(MAX_POLL_MS, poll * 2);
      n := n + 1;
    }
  }
}
