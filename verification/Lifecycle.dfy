/**
 One run's durable lifecycle: launch, retry, resume, release, reconcile,
 abandon and startup recovery (src/service.ts), by any number of seats that may
 die between two disk writes. The run lease is an exclusive holder, so what an
 operation writes is fixed by the disk it found when it got the lease; the
 writes themselves happen one at a time. An attempt is named by its ordinal in
 the attempt-record chain, and every result carries the attempt it tells of.
 */
module Lifecycle {
  import opened Contracts
  import opened Outcomes

  type Attempt = nat
  type SeatId = nat

  datatype Credited = Credited(result: RunResult, about: Attempt)

  datatype Event =
    | ContinuedAtHandoff(attempt: Attempt)
    | Starting(attempt: Attempt, why: Request)
    | Ended(attempt: Attempt, completed: bool)   // attempt-completed or attempt-failed
    | StartupReconciled | RunReconciled | RunReleased
    | RunAbandoning
    | RunAbandoned(verdict: Credited)

  datatype Snapshot = Snapshot(last: nat, outcome: Credited)

  datatype Disk = Disk(recorded: bool, attempts: nat, events: seq<Event>, snapshot: Option<Snapshot>)

  datatype Write = CreateRun | CreateAttempt(attempt: Attempt) | Append(event: Event) | PutSnapshot(outcome: Credited)

  /** What a seat remembers of the run. */
  datatype Memory = Memory(plan: Attempt, status: RunStatus, outcome: Option<Credited>)

  datatype Request = Recover(latest: Attempt) | Launch | Retry | Resume | Continue | Release | Reconcile | Abandon

  datatype Session = ValidSession | NoSession | UnknownSession

  /** What the world answers while an operation runs. */
  datatype Answers = Answers(result: RunResult, sandbox: Cleanup, workspace: Cleanup, session: Session, freed: bool)

  datatype Plan = Plan(writes: seq<Write>, after: Memory)

  datatype Job =
    | Waiting(request: Request)
    | Writing(request: Request, start: Disk, answers: Answers, done: nat, reused: bool)

  datatype Seat = Seat(memory: Option<Memory>, job: Option<Job>)

  /** `shares` says the run works in the live checkout and has no workspace to clean. */
  datatype State = State(shares: bool, disk: Disk, holder: Option<SeatId>, seats: map<SeatId, Seat>)

  datatype Action =
    | Join(seat: SeatId)                       // a process that has not seen the run
    | Boot(seat: SeatId)                       // a process that reads the attempt records to recover the run
    | Ask(seat: SeatId, request: Request)
    | GiveUp(seat: SeatId)                     // the lease is held elsewhere
    | Begin(seat: SeatId, answers: Answers)    // lease, fence, durable checks
    | Do(seat: SeatId)                         // the next disk write
    | Finish(seat: SeatId)
    | Throw(seat: SeatId, launched: bool)
    | Crash(seat: SeatId)

  // ----- the journal's word on abandonment -----

  predicate Marks(e: Event, ended: bool) {
    if ended then e.RunAbandoned? else e.RunAbandoning?
  }

  /** Index of the last such event among the first `n`, or -1. */
  function Last(events: seq<Event>, ended: bool, n: nat): (i: int)
    requires n <= |events|
    ensures -1 <= i < n && (i >= 0 ==> Marks(events[i], ended))
  {
    if n == 0 then -1 else if Marks(events[n - 1], ended) then n - 1 else Last(events, ended, n - 1)
  }

  predicate Asked(events: seq<Event>) { Last(events, false, |events|) >= 0 }

  predicate Over(events: seq<Event>) { Last(events, true, |events|) >= 0 }

  /** `hasPendingAbandonment` */
  predicate Pending(events: seq<Event>) {
    Asked(events) && Last(events, false, |events|) > Last(events, true, |events|)
  }

  /** The status `assertDurableStatus` accepts. */
  function Durable(d: Disk): Option<RunStatus> {
    if Over(d.events) then Some(Abandoned)
    else if Pending(d.events) then Some(CleanupBlocked)
    else if d.snapshot.Some? && IsRunResult(d.snapshot.value.outcome.result) then Some(d.snapshot.value.outcome.result.status)
    else None
  }

  // ----- what each operation writes -----

  function WorkspaceUnlessShared(shares: bool, c: Cleanup): Cleanup {
    if shares then NotNeeded else c
  }

  const ABANDON_UNFINISHED := Some(Failure(Workspace, ServiceOrigin, Contracts.Reconcile, None))
  const NEVER_PROVED := Some(Failure(UnknownCode, ServiceOrigin, Contracts.Reconcile, None))
  const OPERATOR_ABANDONED := Some(Failure(OperatorAbandoned, OperatorOrigin, Never, None))

  /** Every start of `p` was before the snapshot. */
  predicate Covers(d: Disk, p: Attempt) {
    forall i :: 0 <= i < |d.events| && d.events[i].Starting? && d.events[i].attempt == p ==>
      i < (if d.snapshot.Some? then d.snapshot.value.last else 0)
  }

  /** The snapshot's result, when it covers the latest start and is one. */
  function Prior(d: Disk, p: Attempt): Option<Credited> {
    if Covers(d, p) && d.snapshot.Some? && IsRunResult(d.snapshot.value.outcome.result) then Some(d.snapshot.value.outcome)
    else None
  }

  function Unproved(shares: bool, p: Attempt, prior: Option<Credited>, why: Option<Failure>): Credited {
    Credited(RunResult(CleanupBlocked, why,
                       if prior.Some? then prior.value.result.sandbox else Unknown,
                       WorkspaceUnlessShared(shares, Unknown), false),
             if prior.Some? then prior.value.about else p)
  }

  function Remember(p: Attempt, o: Credited): Memory {
    Memory(p, o.result.status, Some(o))
  }

  function RecoverPlan(d: Disk, shares: bool, p: Attempt): Plan {
    var prior := Prior(d, p);
    var ended := Last(d.events, true, |d.events|);
    if Pending(d.events) then
      var o := Unproved(shares, p, prior, ABANDON_UNFINISHED);
      Plan([Append(StartupReconciled), PutSnapshot(o)], Remember(p, o))
    else if ended >= 0 && IsRunResult(d.events[ended].verdict.result) then Plan([], Remember(p, d.events[ended].verdict))
    else if prior.Some? then Plan([], Remember(p, prior.value))
    else
      var o := Unproved(shares, p, None, NEVER_PROVED);
      Plan([Append(StartupReconciled), PutSnapshot(o)], Remember(p, o))
  }

  predicate AttemptResult(r: RunResult) {
    IsRunResult(r) && !r.status.Abandoned?
  }

  /** From launch to terminal result; the record is on disk before the attempt's first event. */
  function AttemptPlan(p: Attempt, why: Request, result: RunResult): Plan {
    var o := Credited(result, p);
    Plan((if why.Continue? then [Append(ContinuedAtHandoff(p))] else if why.Launch? then [CreateRun] else []) +
         [CreateAttempt(p), Append(Starting(p, why)), Append(Ended(p, result.status.Completed?)), PutSnapshot(o)],
         Remember(p, o))
  }

  function ReleasePlan(d: Disk, shares: bool, m: Memory, freed: bool): Option<Plan> {
    if !freed then None
    else if m.outcome.None? then Some(Plan([Append(RunReleased)], m))
    else
      var previous := m.outcome.value.result;
      var cleaned := previous.(workspace := WorkspaceUnlessShared(shares, Proved));
      var result :=
        if Pending(d.events) then previous
        else if cleaned.status.CleanupBlocked? && Clean(cleaned.sandbox) then cleaned.(status := Failed)
        else cleaned;
      if !IsRunResult(result) then None
      else
        var o := Credited(result, m.outcome.value.about);
        Some(Plan([Append(RunReleased), PutSnapshot(o)], Remember(m.plan, o)))
  }

  function ReconciledResult(d: Disk, shares: bool, m: Memory, a: Answers): RunResult {
    var pending := Pending(d.events);
    var kept := m.outcome.Some? && Clean(m.outcome.value.result.sandbox);
    var sandbox := if pending && kept then m.outcome.value.result.sandbox else a.sandbox;
    var workspace := WorkspaceUnlessShared(shares, a.workspace);
    var classified := Clean(sandbox) && !workspace.Unknown? && !a.session.UnknownSession?;
    var status :=
      if pending then (if CleanupProved(sandbox, workspace) then Abandoned else CleanupBlocked)
      else if !classified then CleanupBlocked
      else if a.session.ValidSession? then Interrupted
      else Failed;
    var failure :=
      if status.Abandoned? then OPERATOR_ABANDONED
      else if status.Interrupted? then Some(Failure(SeatInterruption, ServiceOrigin, Contracts.Resume, None))
      else if status.CleanupBlocked? then Some(Failure(SandboxCleanup, ServiceOrigin, Contracts.Reconcile, None))
      else Some(Failure(UnknownCode, ServiceOrigin, Contracts.Reconcile, None));
    RunResult(status, failure, sandbox, workspace, !pending && m.outcome.Some? && m.outcome.value.result.hasOutput)
  }

  function ReconcilePlan(d: Disk, shares: bool, m: Memory, a: Answers): Option<Plan> {
    var result := ReconciledResult(d, shares, m, a);
    var o := Credited(result, if m.outcome.Some? then m.outcome.value.about else m.plan);
    if !IsRunResult(result) then None
    else if result.status.Abandoned? then Some(Plan([Append(RunAbandoned(o)), PutSnapshot(o)], Remember(m.plan, o)))
    else Some(Plan([Append(RunReconciled), PutSnapshot(o)], Remember(m.plan, o)))
  }

  /** The run is marked before its worktrees go; only then is it abandoned, or blocked when one cannot go. */
  function AbandonPlan(shares: bool, m: Memory, freed: bool): Plan
    requires m.outcome.Some?
  {
    var previous := m.outcome.value.result;
    var blocked := Credited(RunResult(CleanupBlocked, Some(Failure(Workspace, WorkspaceOrigin, Contracts.Reconcile, None)),
                                      previous.sandbox, Unknown, false), m.outcome.value.about);
    var over := Credited(RunResult(Abandoned, OPERATOR_ABANDONED, previous.sandbox,
                                   WorkspaceUnlessShared(shares, Proved), false), m.outcome.value.about);
    if freed then Plan([Append(RunAbandoning), Append(RunAbandoned(over)), PutSnapshot(over)], Remember(m.plan, over))
    else Plan([Append(RunAbandoning), PutSnapshot(blocked)], Remember(m.plan, blocked))
  }

  predicate Starts(r: Request) { r.Launch? || r.Retry? || r.Resume? || r.Continue? }

  /** What the operation does to the disk it finds, or its refusal. */
  function PlanOf(d: Disk, shares: bool, m: Option<Memory>, r: Request, a: Answers): Option<Plan> {
    if r.Recover? then Some(RecoverPlan(d, shares, r.latest))
    else if r.Launch? then (if AttemptResult(a.result) then Some(AttemptPlan(0, r, a.result)) else None)
    else if m.None? || Durable(d) != Some(m.value.status) then None
    else if r.Release? then ReleasePlan(d, shares, m.value, a.freed)
    else if r.Reconcile? then ReconcilePlan(d, shares, m.value, a)
    else if r.Abandon? then (if m.value.outcome.Some? then Some(AbandonPlan(shares, m.value, a.freed)) else None)
    else if AttemptResult(a.result) then Some(AttemptPlan(m.value.plan + 1, r, a.result))
    else None
  }

  predicate FailedAs(o: Credited, retry: Contracts.Retry) {
    o.result.failure.Some? && o.result.failure.value.retry == retry
  }

  /** The guards a method checks on the seat's memory. */
  predicate Guarded(m: Option<Memory>, r: Request) {
    if r.Recover? || r.Launch? then m.None?
    else
      && m.Some?
      && var status, o := m.value.status, m.value.outcome;
         if r.Release? then !status.Active? && !status.Stopping? && !status.Interrupted?
         else if r.Reconcile? then status.CleanupBlocked?
         else if r.Abandon? then status.Interrupted? && o.Some? && Clean(o.value.result.sandbox)
         else if r.Retry? then status.Failed? && o.Some? && (FailedAs(o.value, Manual) || FailedAs(o.value, Backoff))
         else if r.Resume? then status.Interrupted? && o.Some? && FailedAs(o.value, Contracts.Resume)
         else (status.Completed? || status.Failed? || status.Cancelled?) && o.Some?
  }

  /** The guards before the lease: a retry or resume also reads the newest attempt record. */
  predicate Accepts(m: Option<Memory>, d: Disk, r: Request) {
    && !r.Recover? && Guarded(m, r)
    && (r.Retry? || r.Resume? || r.Continue? ==> d.attempts == m.value.plan + 1)
  }

  function Wrote(d: Disk, w: Write): Disk {
    match w
    case CreateRun => d.(recorded := true)
    case CreateAttempt(p) => d.(attempts := if p < d.attempts then d.attempts else p + 1)
    case Append(e) => d.(events := d.events + [e])
    case PutSnapshot(o) => d.(snapshot := Some(Snapshot(|d.events|, o)))
  }

  function After(d: Disk, writes: seq<Write>, n: nat): Disk
    requires n <= |writes|
  {
    if n == 0 then d else Wrote(After(d, writes, n - 1), writes[n - 1])
  }

  // ----- steps -----

  predicate Idle(s: State, seat: SeatId) {
    seat in s.seats && s.seats[seat].job.None?
  }

  predicate Waits(s: State, seat: SeatId) {
    seat in s.seats && s.seats[seat].job.Some? && s.seats[seat].job.value.Waiting?
  }

  predicate Works(s: State, seat: SeatId) {
    seat in s.seats && s.seats[seat].job.Some? && s.seats[seat].job.value.Writing?
  }

  function JobPlan(shares: bool, seat: Seat): Option<Plan>
    requires seat.job.Some? && seat.job.value.Writing?
  {
    PlanOf(seat.job.value.start, shares, seat.memory, seat.job.value.request, seat.job.value.answers)
  }

  /** A job that is writing follows its plan. */
  predicate OnPlan(s: State, seat: SeatId) {
    && Works(s, seat)
    && JobPlan(s.shares, s.seats[seat]).Some?
    && s.seats[seat].job.value.done <= |JobPlan(s.shares, s.seats[seat]).value.writes|
  }

  function Writes(s: State, seat: SeatId): seq<Write>
    requires OnPlan(s, seat)
  {
    JobPlan(s.shares, s.seats[seat]).value.writes
  }

  /** An attempt counts as launched from its record on; before its first event it need not. */
  predicate CanThrow(s: State, seat: SeatId, launched: bool)
    requires OnPlan(s, seat)
  {
    var job := s.seats[seat].job.value;
    if launched then Starts(job.request) && job.done + 3 >= |Writes(s, seat)|
    else Starts(job.request) ==> job.done + 3 <= |Writes(s, seat)|
  }

  predicate Enabled(s: State, a: Action) {
    match a
    case Join(seat) => seat !in s.seats
    case Boot(seat) => seat !in s.seats && s.disk.recorded
    case Ask(seat, r) => Idle(s, seat) && Accepts(s.seats[seat].memory, s.disk, r)
    case GiveUp(seat) => Waits(s, seat)
    case Begin(seat, answers) =>
      Waits(s, seat) && (s.holder == None || (s.holder == Some(seat) && !s.seats[seat].job.value.request.Abandon?))
    case Do(seat) => OnPlan(s, seat) && s.seats[seat].job.value.done < |Writes(s, seat)|
    case Finish(seat) => OnPlan(s, seat) && s.seats[seat].job.value.done == |Writes(s, seat)|
    case Throw(seat, launched) => OnPlan(s, seat) && CanThrow(s, seat, launched)
    case Crash(seat) => seat in s.seats
  }

  function Put(s: State, id: SeatId, seat: Seat): State {
    s.(seats := s.seats[id := seat])
  }

  /** A kept lease goes back once the run leaves cleanup-blocked; one taken for this call always does, except an attempt's. */
  function Freed(s: State, id: SeatId, job: Job, status: RunStatus): Option<SeatId>
    requires job.Writing?
  {
    if status.CleanupBlocked? && (job.reused || Starts(job.request)) then Some(id) else None
  }

  /**
   The memory an error leaves: an attempt is blocked, and so is an abandonment
   between its mark and its verdict; behind the verdict, or the blocked result, the
   seat has taken it over. Anything else is unchanged.
   */
  function Fallback(s: State, id: SeatId, launched: bool): Option<Memory>
    requires OnPlan(s, id)
  {
    var seat := s.seats[id];
    var after := JobPlan(s.shares, seat).value.after;
    if launched then Some(Memory(after.plan, CleanupBlocked, None))
    else if seat.job.value.request.Abandon? && seat.job.value.done > 1 then Some(after)
    else if seat.job.value.request.Abandon? && seat.job.value.done == 1 && after.outcome.Some? then
      var about := after.outcome.value.about;
      Some(Memory(after.plan, CleanupBlocked,
                  Some(Credited(RunResult(CleanupBlocked, ABANDON_UNFINISHED, after.outcome.value.result.sandbox,
                                          WorkspaceUnlessShared(s.shares, Unknown), false), about))))
    else seat.memory
  }

  function Apply(s: State, a: Action): State
    requires Enabled(s, a)
  {
    match a
    case Join(id) => Put(s, id, Seat(None, None))
    case Boot(id) => Put(s, id, Seat(None, Some(Waiting(Recover(if s.disk.attempts == 0 then 0 else s.disk.attempts - 1)))))
    case Ask(id, r) => Put(s, id, s.seats[id].(job := Some(Waiting(r))))
    case GiveUp(id) => Put(s, id, s.seats[id].(job := None))
    case Begin(id, answers) =>
      var seat := s.seats[id];
      var r := seat.job.value.request;
      if PlanOf(s.disk, s.shares, seat.memory, r, answers).None? then Put(s, id, seat.(job := None))
      else Put(s, id, seat.(job := Some(Writing(r, s.disk, answers, 0, s.holder == Some(id))))).(holder := Some(id))
    case Do(id) =>
      var job := s.seats[id].job.value;
      Put(s, id, s.seats[id].(job := Some(job.(done := job.done + 1)))).(disk := Wrote(s.disk, Writes(s, id)[job.done]))
    case Finish(id) =>
      var after := JobPlan(s.shares, s.seats[id]).value.after;
      Put(s, id, Seat(Some(after), None)).(holder := Freed(s, id, s.seats[id].job.value, after.status))
    case Throw(id, launched) =>
      var m := Fallback(s, id, launched);
      var job := s.seats[id].job.value;
      Put(s, id, Seat(m, None)).(holder := if launched || job.reused then Some(id) else None)
    case Crash(id) => s.(seats := s.seats - {id}, holder := if s.holder == Some(id) then None else s.holder)
  }

  ghost predicate IsRun(states: seq<State>, actions: seq<Action>) {
    && |states| == |actions| + 1
    && forall i :: 0 <= i < |actions| ==> Enabled(states[i], actions[i]) && states[i + 1] == Apply(states[i], actions[i])
  }

  predicate Init(s: State) {
    s.disk == Disk(false, 0, [], None) && s.holder == None && s.seats == map[]
  }

  /**
   Whoever writes has the newest attempt: a launch finds no run on disk, and any
   other operation but recovery is asked of a seat whose plan is the last record.
   */
  predicate Fresh(s: State, a: Action)
    requires Enabled(s, a)
  {
    a.Begin? ==>
      var r := s.seats[a.seat].job.value.request;
      r.Recover? || (if r.Launch? then !s.disk.recorded
                     else s.seats[a.seat].memory.Some? && s.disk.attempts == s.seats[a.seat].memory.value.plan + 1)
  }

  ghost predicate IsFreshRun(states: seq<State>, actions: seq<Action>) {
    IsRun(states, actions) && forall i :: 0 <= i < |actions| ==> Fresh(states[i], actions[i])
  }
}
