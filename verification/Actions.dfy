/**
 The actions a run's summary offers against the guards of the methods behind
 them (src/service.ts), and how an attempt's failure is classified
 (src/runtime/failure.ts).
 */
module Actions {
  import opened Budget
  import opened Contracts
  import opened Outcomes

  type Attempt = nat

  datatype Action =
    | Steer | FollowUp | Stop | RetryAction | ResumeAction | ReconcileAction
    | ReleaseWorkspace | AbandonAction | Pin | Unpin | ExportOutput | ExportHandoff

  /** What a seat holds of a run's last execution. */
  datatype Execution = Execution(result: RunResult, used: Used, session: bool, handoff: bool)

  /** Everything the summary and the guards read. */
  datatype Facts = Facts(
    status: RunStatus, execution: Option<Execution>, limits: Limits, plan: Attempt,
    latest: Option<Attempt>,         // ordinal of the newest attempt record
    failedAt: Option<int>,           // time of the last attempt-failed event
    now: int, pinned: bool, control: bool, retainedWorktree: bool, releasable: bool)

  function FailureOf(f: Facts): Option<Failure> {
    if f.execution.Some? then f.execution.value.result.failure else None
  }

  function Power2(n: nat): nat { if n == 0 then 1 else 2 * Power2(n - 1) }

  const MAX_BACKOFF_MS := 300000

  /** Doubles with each attempt, up to five minutes. */
  function RetryDelayMs(failure: Option<Failure>, ordinal: nat): nat {
    if failure.None? || !failure.value.retry.Backoff? then 0
    else
      var base := if failure.value.retryAfterMs.Some? then failure.value.retryAfterMs.value else 1000;
      var delay := base * Power2(if ordinal < 8 then ordinal else 8);
      if delay < MAX_BACKOFF_MS then delay else MAX_BACKOFF_MS
  }

  // ----- the summary -----

  predicate WithinBudget(f: Facts) {
    var used := if f.execution.Some? then f.execution.value.used else Used(0, 0, 0.0);
    && f.limits.runtimeMs - used.runtimeMs >= 1000
    && (f.limits.tokens.Some? ==> f.limits.tokens.value - used.tokens >= 1)
    && f.limits.cost - used.cost > 0.0
  }

  predicate Retryable(f: Facts) {
    && f.status.Failed? && f.execution.Some?
    && FailureOf(f).Some? && (FailureOf(f).value.retry.Manual? || FailureOf(f).value.retry.Backoff?)
    && !f.execution.value.handoff && f.limits.retries > 0 && WithinBudget(f)
  }

  predicate Resumable(f: Facts) {
    && f.status.Interrupted? && f.execution.Some? && f.execution.value.session
    && FailureOf(f).Some? && FailureOf(f).value.retry.Resume?
    && f.limits.resumes > 0 && WithinBudget(f)
  }

  function RetryAt(f: Facts): Option<int> {
    var delay := RetryDelayMs(FailureOf(f), if f.latest.Some? then f.latest.value else 0);
    if delay > 0 && f.failedAt.Some? then Some(f.failedAt.value + delay) else None
  }

  predicate RetryAvailable(f: Facts) {
    Retryable(f) && (RetryAt(f).None? || RetryAt(f).value <= f.now)
  }

  predicate Abandonable(f: Facts) {
    f.status.Interrupted? && f.execution.Some? && Clean(f.execution.value.result.sandbox) && f.releasable
  }

  predicate ExportStatus(s: RunStatus) {
    s.Completed? || s.Failed? || s.Cancelled? || s.CleanupBlocked?
  }

  function Offered(f: Facts): set<Action> {
    (if f.status.Active? then (if f.control then {Steer, FollowUp} else {}) + {Stop} else {}) +
    (if RetryAvailable(f) then {RetryAction} else {}) +
    (if Resumable(f) then {ResumeAction} else {}) +
    (if f.status.Interrupted? && Abandonable(f) then {AbandonAction} else {}) +
    (if f.status.CleanupBlocked? then {ReconcileAction} else {}) +
    (if f.retainedWorktree && f.releasable && !f.status.Active? && !f.status.Stopping? && !f.status.Interrupted?
     then {ReleaseWorkspace} else {}) +
    (if f.status.Completed? || f.status.Failed? || f.status.Cancelled? || f.status.Abandoned?
     then (if f.pinned then {Unpin} else {Pin}) else {}) +
    (if f.execution.Some? && f.execution.value.result.hasOutput then {ExportOutput} else {}) +
    (if f.execution.Some? && f.execution.value.handoff && ExportStatus(f.status) then {ExportHandoff} else {})
  }

  // ----- the methods -----

  datatype Refusal = NotRetryable | NotPermittedByFailure | WouldDiscardHandoff | HistoryMismatch | NoEvidence | TooEarly(at: int)
                   | NotResumable | NotAbandonable | CleanupUnproved | CannotRelease | NotExportable | NoHandoff
                   | OutOfBudget(error: BudgetError)

  /** `retry` up to the plan it derives. */
  function Retry(f: Facts): Result<Limits, Refusal> {
    if !f.status.Failed? || f.execution.None? then Err(NotRetryable)
    else
      var failure := f.execution.value.result.failure;
      if failure.None? || !(failure.value.retry.Manual? || failure.value.retry.Backoff?) then Err(NotPermittedByFailure)
      else if f.execution.value.handoff then Err(WouldDiscardHandoff)
      else if f.latest != Some(f.plan) then Err(HistoryMismatch)
      else
        var delay := RetryDelayMs(failure, f.latest.value);
        if delay > 0 && f.failedAt.None? then Err(NoEvidence)
        else if delay > 0 && f.failedAt.value + delay > f.now then Err(TooEarly(f.failedAt.value + delay))
        else match Derive(f.limits, failure, f.execution.value.used, ByRetry)
          case Ok(plan) => Ok(plan)
          case Err(e) => Err(OutOfBudget(e))
  }

  /** `resume` of an interrupted run, up to the plan it derives. */
  function Resume(f: Facts): Result<Limits, Refusal> {
    if !f.status.Interrupted? || f.execution.None? || !f.execution.value.session then Err(NotResumable)
    else if f.execution.value.result.failure.None? || !f.execution.value.result.failure.value.retry.Resume? then
        Err(NotPermittedByFailure)
    else if f.latest != Some(f.plan) then Err(HistoryMismatch)
    else match Derive(f.limits, f.execution.value.result.failure, f.execution.value.used, ByResume)
      case Ok(plan) => Ok(plan)
      case Err(e) => Err(OutOfBudget(e))
  }

  function AbandonGuard(f: Facts): Option<Refusal> {
    if !f.status.Interrupted? || f.execution.None? then Some(NotAbandonable)
    else if !Clean(f.execution.value.result.sandbox) then Some(CleanupUnproved)
    else None
  }

  function ReleaseGuard(f: Facts): Option<Refusal> {
    if f.status.Active? || f.status.Stopping? || f.status.Interrupted? then Some(CannotRelease) else None
  }

  function ExportGuard(f: Facts): Option<Refusal> {
    if !ExportStatus(f.status) then Some(NotExportable)
    else if f.execution.None? || !f.execution.value.handoff then Some(NoHandoff)
    else None
  }

  /** A failure with a backoff delay has left its `attempt-failed` event. */
  predicate Evidence(f: Facts) {
    FailureOf(f).Some? && FailureOf(f).value.retry.Backoff? ==> f.failedAt.Some?
  }

  /**
   With the newest record the plan's own: retry is offered exactly when the method
   gets as far as a plan, once every backoff failure has its event; without the
   event it is offered and the method refuses.
   */
  lemma RetryOfferedExactly(f: Facts)
    requires f.latest == Some(f.plan)
    ensures Evidence(f) ==> (RetryAction in Offered(f) <==> Retry(f).Ok?)
    ensures Retry(f).Ok? ==> RetryAction in Offered(f)
    ensures Retry(f) == Err(NoEvidence) ==> !Evidence(f) && (RetryAction in Offered(f) <==> f.limits.retries > 0 && WithinBudget(f))
  {
  }

  lemma ResumeOfferedExactly(f: Facts)
    requires f.latest == Some(f.plan)
    ensures ResumeAction in Offered(f) <==> Resume(f).Ok?
  {}

  /** What is offered of the others passes the guards on status and result. */
  lemma OfferedPassesGuards(f: Facts)
    ensures AbandonAction in Offered(f) ==> AbandonGuard(f) == None
    ensures ReleaseWorkspace in Offered(f) ==> ReleaseGuard(f) == None
    ensures ExportHandoff in Offered(f) <==> ExportGuard(f) == None
    ensures ReconcileAction in Offered(f) <==> f.status.CleanupBlocked?
  {}

  lemma {:induction false} PowerGrows(m: nat, n: nat)
    requires m <= n
    ensures 1 <= Power2(m) <= Power2(n)
  {
    if m < n { PowerGrows(m, n - 1); } else if m > 0 { PowerGrows(m - 1, m - 1); }
  }

  lemma TimesGrows(a: nat, m: nat, n: nat)
    requires m <= n
    ensures a * m <= a * n
  {}

  /** The wait never shrinks from one attempt to the next, and stays between the asked delay and five minutes. */
  lemma BackoffGrows(failure: Failure, m: nat, n: nat)
    requires failure.retry.Backoff? && m <= n
    requires failure.retryAfterMs.Some? ==> 1000 <= failure.retryAfterMs.value <= MAX_BACKOFF_MS
    ensures RetryDelayMs(Some(failure), m) <= RetryDelayMs(Some(failure), n) <= MAX_BACKOFF_MS
    ensures RetryDelayMs(Some(failure), m) >= if failure.retryAfterMs.Some? then failure.retryAfterMs.value else 1000
  {
    var base := if failure.retryAfterMs.Some? then failure.retryAfterMs.value else 1000;
    var p, q := if m < 8 then m else 8, if n < 8 then n else 8;
    PowerGrows(p, q);
    PowerGrows(0, p);
    TimesGrows(base, Power2(p), Power2(q));
    TimesGrows(base, 1, Power2(p));
  }

  // ----- classification -----

  datatype Abort = NotAborted | SeatShutdown | OtherAbort

  datatype Cause = Cause(
    abort: Abort, capacityExhausted: bool, writeBudget: bool, fatalTool: bool, timedOut: bool, byText: Failure)

  const CAPACITY_RETRY_AFTER_MS := 30000

  predicate Open(c: Cleanup) { c.Blocked? || c.Unknown? }

  /** Cleanup before everything else; the text of the error decides last. */
  function Classify(c: Cause, sandbox: Cleanup, workspace: Cleanup): Failure {
    if Open(sandbox) then Failure(SandboxCleanup, SandboxOrigin, Contracts.Reconcile, None)
    else if Open(workspace) then Failure(Workspace, WorkspaceOrigin, Contracts.Reconcile, None)
    else if c.abort.SeatShutdown? then Failure(SeatInterruption, OperatorOrigin, Contracts.Resume, None)
    else if c.abort.OtherAbort? then Failure(Cancellation, OperatorOrigin, Never, None)
    else if c.capacityExhausted then Failure(Capacity, ServiceOrigin, Backoff, Some(CAPACITY_RETRY_AFTER_MS))
    else if c.writeBudget then Failure(WorkspaceBudget, WorkspaceOrigin, Never, None)
    else if c.fatalTool then Failure(Tool, ToolOrigin, Manual, None)
    else if c.timedOut then Failure(Timeout, ServiceOrigin, Manual, None)
    else c.byText
  }

  function FailedStatus(abort: Abort, sandbox: Cleanup, workspace: Cleanup): RunStatus {
    if sandbox.Blocked? || workspace.Blocked? then CleanupBlocked
    else if abort.SeatShutdown? then Interrupted
    else if abort.OtherAbort? then Cancelled
    else Failed
  }

  function FailedResult(c: Cause, sandbox: Cleanup, workspace: Cleanup): RunResult {
    RunResult(FailedStatus(c.abort, sandbox, workspace), Some(Classify(c, sandbox, workspace)), sandbox, workspace, false)
  }

  /**
   Every failed attempt's result is one `isRunResult` accepts; a blocked one
   classifies as reconcile, and so is never offered for retry or resume even
   after a release makes it "failed"; an interruption with known cleanup may be
   resumed.
   */
  lemma FailuresClassify(c: Cause, sandbox: Cleanup, workspace: Cleanup, f: Facts)
    ensures IsRunResult(FailedResult(c, sandbox, workspace))
    ensures FailedStatus(c.abort, sandbox, workspace).CleanupBlocked? ==> Classify(c, sandbox, workspace).retry.Reconcile?
    ensures FailureOf(f) == Some(Classify(c, sandbox, workspace)) && FailedStatus(c.abort, sandbox, workspace).CleanupBlocked? ==>
              RetryAction !in Offered(f) && ResumeAction !in Offered(f) && Retry(f).Err? && Resume(f).Err?
    ensures FailedStatus(c.abort, sandbox, workspace).Interrupted? && !Open(sandbox) && !Open(workspace) ==>
              Classify(c, sandbox, workspace).retry.Resume?
  {}
}
