/**
 `createGondolinAttemptSandbox` as resource ownership over every exit
 (src/sandbox/gondolin.ts). Each awaited call outside the program is an answer
 in `Answers`; the four resources move only through `Perform`, which refuses
 what VmSlots.dfy does not allow.
 */
module GondolinSandbox {
  import opened Outcomes
  import opened VmSlots

  datatype FailureCode = BootFailed | BindFailed | InstallFailed | TimedOut | CheckpointFailed | ResumeFailedCode

  datatype Warmup =
    | Reused | Created | Waited | Failed | FailedRecently | WaitTimeout | Abandoned | BuildMismatch | ResumeFailed
    | Disabled | Skipped | NoDependencyDirectory

  datatype WaitAnswer = Ready | SawFailure | SawNobody | TimedOutWaiting | AbortedWaiting

  /** What the model-free warm-up meets. A create that fails leaves no VM. */
  datatype WarmupAnswers = WarmupAnswers(
    created: bool, started: bool, bound: bool, installed: bool, aborted: bool, timedOut: bool,
    checkpointed: bool, closeProved: bool, abortedLater: bool)

  datatype Answers = Answers(
    enabled: bool, skipped: bool, nodeModules: bool,
    leased: bool, failedRecently: bool, locked: bool, waited: WaitAnswer, leasedAfterWait: bool,
    slot: Option<nat>,
    temporary: bool, warmup: WarmupAnswers, recorded: bool, published: bool, evicted: bool, leasedAfterPublish: bool,
    loads: bool, sameBuild: bool,
    resumes: bool, creates: bool, ready: bool, closeProved: bool, slotRecord: bool)

  datatype WarmBoot = WarmBoot(outcome: Warmup, failure: Option<FailureCode>, keyed: bool)

  datatype Thrown = WaitAborted | CapacityUnavailable | WarmupUnproved | WarmupFailed | ConstructionFailed | StartFailed
      | StartUnproved

  datatype Boot = Boot(warm: bool, warmup: Warmup, failure: Option<FailureCode>)

  datatype WarmupEnd = Succeeded | FailedWith(code: FailureCode) | Cancelled | Unproved

  class SandboxCall {
    var held: Holding
    var slotFreed: Option<bool>   // the memoised slot release: whether its record was written

    constructor ()
      ensures held == NOTHING && slotFreed == None
    {
      held, slotFreed := NOTHING, None;
    }

    method Perform(e: Effect)
      requires Allowed(held, e)
      modifies `held
      ensures held == Holds(old(held), e)
    {
      held := Holds(held, e);
    }

    /** Reuse a published checkpoint, claim the warm-up, or wait for another's; no slot is held yet. */
    method PrepareWarmBoot(a: Answers) returns (r: Result<WarmBoot, Thrown>)
      requires held == NOTHING
      modifies `held
      ensures held.slot.None? && !held.vm
      ensures r.Err? ==> held == NOTHING && r.error.WaitAborted? && a.waited.AbortedWaiting?
      ensures r.Ok? ==> (held.lock <==> r.value.outcome.Created?)
      ensures r.Ok? ==> (held.lease <==> r.value.outcome.Reused? || r.value.outcome.Waited?)
      ensures r.Ok? && (held.lock || held.lease) ==> r.value.keyed && a.enabled
      ensures r.Ok? ==> r.value.failure == None
    {
      if !a.enabled { return Ok(WarmBoot(Disabled, None, false)); }
      if a.skipped { return Ok(WarmBoot(Skipped, None, false)); }
      if !a.nodeModules { return Ok(WarmBoot(NoDependencyDirectory, None, false)); }
      if a.leased {
        Perform(TakeLease);
        return Ok(WarmBoot(Reused, None, true));
      }
      if a.failedRecently { return Ok(WarmBoot(FailedRecently, None, true)); }
      if a.locked {
        Perform(TakeLock);
        return Ok(WarmBoot(Created, None, true));
      }
      match a.waited {
        case AbortedWaiting => return Err(WaitAborted);
        case Ready =>
          if a.leasedAfterWait {
            Perform(TakeLease);
            return Ok(WarmBoot(Waited, None, true));
          }
          return Ok(WarmBoot(Abandoned, None, true));
        case TimedOutWaiting => return Ok(WarmBoot(WaitTimeout, None, true));
        case SawFailure => return Ok(WarmBoot(Failed, None, true));
        case SawNobody => return Ok(WarmBoot(Abandoned, None, true));
      }
    }

    /** Boots, installs, checkpoints and always closes its VM; an unproved close leaves the VM counted. */
    method RunWarmup(w: WarmupAnswers) returns (r: WarmupEnd)
      requires held.slot.Some? && !held.vm
      modifies `held
      ensures held == old(held).(vm := r.Unproved?)
      ensures r.Unproved? <==> w.created && !w.closeProved
      ensures r.Succeeded? ==> w.created && w.started && w.bound && w.installed && w.checkpointed && !w.aborted && !w.timedOut
      ensures !r.Unproved? ==> (r.Cancelled? <==> w.abortedLater || (w.created && w.started && w.bound && w.aborted))
    {
      var failure: Option<FailureCode> := None;
      var cancelled := false;
      if w.created {
        Perform(BootVm);
        if !w.started { failure := Some(BootFailed); }
      } else {
        failure := Some(BootFailed);
      }
      if w.created && failure.None? && !w.bound { failure := Some(BindFailed); }
      if w.created && failure.None? {
        if !w.installed { failure := Some(InstallFailed); }
        if w.aborted { cancelled, failure := true, None; }
        else if w.timedOut { failure := Some(TimedOut); }
      }
      if w.created && failure.None? && !cancelled && !w.checkpointed { failure := Some(CheckpointFailed); }
      if w.created {
        if !w.closeProved { return Unproved; }
        Perform(VmGone);
      }
      if !cancelled && w.abortedLater { cancelled, failure := true, None; }
      if cancelled { return Cancelled; }
      return if failure.Some? then FailedWith(failure.value) else Succeeded;
    }

    /** The claimed warm-up under the held slot; whatever happens the lock goes back. */
    method WarmUp(a: Answers, warm: WarmBoot) returns (r: Result<WarmBoot, Thrown>)
      requires held.slot.Some? && !held.vm && held.lock && !held.lease && slotFreed.None?
      modifies `held, `slotFreed
      ensures !held.lock
      ensures r.Ok? ==> held == old(held).(lock := false, lease := held.lease) && slotFreed == old(slotFreed)
      ensures r.Err? ==> (held.slot.Some? <==> held.vm) && !held.lease
      ensures r.Err? && held.vm ==> r.error.WarmupUnproved? && held.slot == old(held.slot)
      ensures held.vm <==> a.temporary && a.warmup.created && !a.warmup.closeProved
    {
      var end := Cancelled;
      if a.temporary { end := RunWarmup(a.warmup); }
      var boot := warm;
      var thrown := !a.temporary || end.Cancelled?;
      if a.temporary && end.Unproved? {
        Perform(DropLock);
        return Err(WarmupUnproved);
      }
      if a.temporary && end.FailedWith? {
        if a.recorded { boot := boot.(outcome := Failed, failure := Some(end.code)); } else { thrown := true; }
      } else if a.temporary && end.Succeeded? {
        if !a.published || !a.evicted { thrown := true; }
        else if a.leasedAfterPublish { Perform(TakeLease); }
        else { boot := boot.(outcome := Abandoned); }
      }
      Perform(DropLock);
      if thrown {
        var freed := FreeSlot(a.slotRecord);
        return Err(WarmupFailed);
      }
      return Ok(boot);
    }

    /** The port closes whether or not the slot's record could be written; a second call repeats the first answer. */
    method FreeSlot(recordWritten: bool) returns (ok: bool)
      requires held.slot.Some? ==> !held.vm
      modifies `held, `slotFreed
      ensures held == old(held).(slot := if old(slotFreed).None? then None else old(held).slot)
      ensures slotFreed == Some(ok) && ok == (if old(slotFreed).Some? then old(slotFreed).value else recordWritten)
    {
      if slotFreed.None? {
        if held.slot.Some? { Perform(DropSlot); }
        slotFreed := Some(recordWritten);
      }
      ok := slotFreed.value;
    }

    method DropLeaseIfHeld()
      modifies `held
      ensures held == old(held).(lease := false)
    {
      if held.lease { Perform(DropLease); }
    }

    /** `closeStartedVm`: the VM, then its checkpoint, then its slot. */
    method CloseStartedVm(closeProved: bool, recordWritten: bool) returns (ok: bool)
      requires held.vm ==> held.slot.Some?
      requires slotFreed.Some? ==> held.slot.None?
      modifies `held, `slotFreed
      ensures !closeProved && old(held).vm ==> !ok && held == old(held) && slotFreed == old(slotFreed)
      ensures closeProved || !old(held).vm ==>
                held == old(held).(vm := false, lease := false, slot := None) && slotFreed == Some(ok)
      ensures ok && (closeProved || !old(held).vm) ==>
          (old(slotFreed).Some? ==> old(slotFreed).value) && (old(slotFreed).None? ==> recordWritten)
      ensures old(slotFreed) == Some(false) ==> !ok
      ensures old(slotFreed).None? && recordWritten && closeProved ==> ok
    {
      if held.vm {
        if !closeProved { return false; }
        Perform(VmGone);
      }
      DropLeaseIfHeld();
      ok := FreeSlot(recordWritten);
    }

    /**
     Every exit: the warm-up lock is back; an attempt that starts holds one slot,
     one VM on it, and a checkpoint lease exactly when it booted warm; a call
     that throws holds nothing at all unless a VM's close was not proved, and
     then it still holds that VM's slot.
     */
    method CreateAttemptSandbox(a: Answers) returns (r: Result<Boot, Thrown>)
      requires held == NOTHING && slotFreed == None
      modifies this
      ensures !held.lock
      ensures r.Ok? ==> held.slot == a.slot && held.vm && (held.lease <==> r.value.warm) && slotFreed == None
      ensures r.Err? ==> (held.slot.Some? <==> held.vm) && (held.vm ==> held.slot == a.slot)
      ensures r.Err? && !held.vm ==> held == NOTHING
      ensures r.Err? && held.vm ==> r.error.WarmupUnproved? || (r.error.StartUnproved? && !a.closeProved)
      ensures r.Ok? && r.value.warm ==> a.enabled && a.loads && a.sameBuild && a.resumes
    {
      var prepared := PrepareWarmBoot(a);
      if prepared.Err? { return Err(prepared.error); }
      var warm := prepared.value;
      if a.slot.None? {
        if held.lock { Perform(DropLock); }
        DropLeaseIfHeld();
        return Err(CapacityUnavailable);
      }
      Perform(TakeSlot(a.slot.value));
      if held.lock {
        var warmed := WarmUp(a, warm);
        if warmed.Err? { return Err(warmed.error); }
        warm := warmed.value;
      }
      if held.lease {
        if !a.loads { warm := warm.(outcome := ResumeFailed, failure := Some(ResumeFailedCode)); }
        else if !a.sameBuild { warm := warm.(outcome := BuildMismatch); }
        if !a.loads || !a.sameBuild { Perform(DropLease); }
      }
      var booted := false;
      if held.lease {
        if a.resumes {
          booted := true;
        } else {
          warm := warm.(outcome := ResumeFailed, failure := Some(ResumeFailedCode));
          Perform(DropLease);
          booted := a.creates;
        }
      } else {
        booted := a.creates;
      }
      if !booted {
        DropLeaseIfHeld();
        var freed := FreeSlot(a.slotRecord);
        return Err(ConstructionFailed);
      }
      Perform(BootVm);
      if a.ready { return Ok(Boot(held.lease, warm.outcome, warm.failure)); }
      var closed := CloseStartedVm(a.closeProved, a.slotRecord);
      return Err(if closed then StartFailed else StartUnproved);
    }
  }

  /** The sandbox an attempt gets: `close` may be called any number of times. */
  class AttemptSandbox {
    const call: SandboxCall
    var closed: bool

    predicate Valid()
      reads this, call
    {
      && (call.held.vm ==> call.held.slot.Some?)
      && (call.slotFreed.Some? ==> call.held == NOTHING)
      && (closed ==> call.slotFreed == Some(true))
      && !call.held.lock
    }

    constructor (call: SandboxCall)
      requires call.held.vm && call.held.slot.Some? && !call.held.lock && call.slotFreed == None
      ensures Valid() && this.call == call && !closed
    {
      this.call, closed := call, false;
    }

    /**
     An unproved close changes nothing and may be tried again; a proved one gives
     everything back, and further calls do nothing. A slot record that could not
     be written makes every call fail although the slot is free.
     */
    method Close(closeProved: bool, recordWritten: bool) returns (ok: bool)
      requires Valid()
      modifies this`closed, call
      ensures Valid()
      ensures ok <==> closed
      ensures old(closed) ==> ok && call.held == old(call.held) && call.slotFreed == old(call.slotFreed)
      ensures old(call.held).vm && !closeProved ==>
          call.held == old(call.held) && call.slotFreed == old(call.slotFreed) && closed == old(closed)
      ensures closeProved ==> call.held == NOTHING
      ensures closeProved && old(call.slotFreed).None? ==> ok == recordWritten
      ensures old(call.slotFreed) == Some(false) ==> !ok && call.held == NOTHING
    {
      if closed { return true; }
      ok := call.CloseStartedVm(closeProved, recordWritten);
      if ok { closed := true; }
    }
  }
}
