/** Statuses and results of a run, and the one total status table (src/contracts.ts, src/lifecycle/reducer.ts). */
module Contracts {
  import opened Outcomes

  datatype RunStatus =
    | Queued | Active | Stopping | Completed | Failed | Cancelled | Abandoned | Interrupted | CleanupBlocked

  datatype Cleanup = Proved | NotNeeded | Retained | Blocked | Unknown

  datatype Origin = ModelOrigin | OperatorOrigin | PersistenceOrigin | ProviderOrigin | SandboxOrigin | ServiceOrigin
      | ToolOrigin | WorkspaceOrigin

  datatype FailureCode =
    | Authentication | Capacity | Cancellation | OperatorAbandoned | LeaseLoss | ModelOutput | MountPolicy
    | NetworkPolicy | Persistence | ProviderTransient | ResourceDrift | SandboxCapability | SandboxCleanup
    | SandboxLaunch | SeatInterruption | Timeout | Tool | Trust | UnknownCode | Validation | Workspace | WorkspaceBudget

  datatype Retry = Never | Manual | Backoff | Resume | Reconcile

  datatype Failure = Failure(code: FailureCode, origin: Origin, retry: Retry, retryAfterMs: Option<nat>)

  /** The fields of a result that decide what may happen next. */
  datatype RunResult = RunResult(
    status: RunStatus,
    failure: Option<Failure>,
    sandbox: Cleanup,
    workspace: Cleanup,
    hasOutput: bool)

  predicate Clean(c: Cleanup) { c.Proved? || c.NotNeeded? }

  predicate CleanupProved(sandbox: Cleanup, workspace: Cleanup) {
    Clean(sandbox) && Clean(workspace)
  }

  /** What `isRunResult` accepts. */
  predicate IsRunResult(r: RunResult) {
    var proved := CleanupProved(r.sandbox, r.workspace);
    if r.status.Queued? || r.status.Active? || r.status.Stopping? then false
    else if r.status.Completed? then proved && r.failure.None?
    else if r.failure.None? then false
    else if r.status.CleanupBlocked? then !proved
    else if r.status.Abandoned? then
      proved && r.failure.value.code.OperatorAbandoned? && r.failure.value.origin.OperatorOrigin? &&
      r.failure.value.retry.Never? && !r.hasOutput
    else true
  }

  datatype Transition =
    | Activate | BeginStop | Complete(sandbox: Cleanup, workspace: Cleanup) | Fail | Cancel | Interrupt
    | BlockCleanup | RetryRun | ResumeRun | ResumeAtHandoff
    | Abandon(sandbox: Cleanup, workspace: Cleanup)
    | ProveCleanup(terminal: RunStatus, sandbox: Cleanup, workspace: Cleanup)

  /** The status after an event, or the refusal. */
  function Next(current: RunStatus, e: Transition): Option<RunStatus> {
    match current
    case Queued => if e.Activate? then Some(Active) else None
    case Active => (
      match e
      case BeginStop => Some(Stopping)
      case Complete(s, w) => Some(if CleanupProved(s, w) then Completed else CleanupBlocked)
      case Fail => Some(Failed)
      case Interrupt => Some(Interrupted)
      case BlockCleanup => Some(CleanupBlocked)
      case _ => None)
    case Stopping => if e.Cancel? then Some(Cancelled) else if e.BlockCleanup? then Some(CleanupBlocked) else None
    case Failed => if e.RetryRun? || e.ResumeAtHandoff? then Some(Queued) else None
    case Interrupted =>
      if e.ResumeRun? then Some(Queued)
      else if e.Abandon? && CleanupProved(e.sandbox, e.workspace) then Some(Abandoned)
      else None
    case CleanupBlocked =>
      if e.ProveCleanup? then Some(if CleanupProved(e.sandbox, e.workspace) then e.terminal else CleanupBlocked)
      else None
    case Completed => if e.ResumeAtHandoff? then Some(Queued) else None
    case Cancelled => if e.ResumeAtHandoff? then Some(Queued) else None
    case Abandoned => None
  }

  /** Statuses along a row of events, none refused. */
  ghost predicate Walk(statuses: seq<RunStatus>, events: seq<Transition>) {
    && |statuses| == |events| + 1
    && forall i :: 0 <= i < |events| ==> Next(statuses[i], events[i]) == Some(statuses[i + 1])
  }

  /** Nothing follows an abandonment, over any row of events. */
  lemma AbandonedIsLast(statuses: seq<RunStatus>, events: seq<Transition>, i: nat)
    requires Walk(statuses, events) && i < |events|
    ensures !statuses[i].Abandoned?
  {
    assert Next(statuses[i], events[i]) == Some(statuses[i + 1]);
  }

  /** A run is only ever completed or abandoned by an event that proves its cleanup. */
  lemma EndsWithProof(statuses: seq<RunStatus>, events: seq<Transition>, i: nat)
    requires Walk(statuses, events) && 0 < i < |statuses|
    requires statuses[i].Completed? || statuses[i].Abandoned?
    ensures var e := events[i - 1];
            (e.Complete? || e.Abandon? || e.ProveCleanup?) && CleanupProved(e.sandbox, e.workspace)
  {
    assert Next(statuses[i - 1], events[i - 1]) == Some(statuses[i]);
  }

  /** A blocked run is left only by an event that proves its cleanup. */
  lemma {:induction false} BlockedUntilProved(statuses: seq<RunStatus>, events: seq<Transition>, i: nat, j: nat)
    requires Walk(statuses, events) && i <= j < |statuses| && statuses[i].CleanupBlocked?
    requires forall k :: i <= k < j ==> !(events[k].ProveCleanup? && CleanupProved(events[k].sandbox, events[k].workspace))
    ensures statuses[j].CleanupBlocked?
    decreases j - i
  {
    if i < j {
      BlockedUntilProved(statuses, events, i, j - 1);
      assert Next(statuses[j - 1], events[j - 1]) == Some(statuses[j]);
    }
  }
}
