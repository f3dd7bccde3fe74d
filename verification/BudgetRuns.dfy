/**
 What each attempt is charged over the runs of Lifecycle.dfy, with any seats, stale
 or not, repeated launches, deaths and errors (src/service.ts, lines 1062-1172;
 src/runtime/attempt.ts).
 */
module BudgetRuns {
  // The books hold the numbers that go with terminal events, snapshots and memories.
  // Usage counters only grow within one start of an attempt. A plan that is there
  // is accepted only if it is the one derived, and one whose arithmetic refuses is
  // never asked for.

  import opened Budget
  import opened Contracts
  import opened Outcomes
  import L = Lifecycle
  import LifecycleCredit
  import LifecycleExact
  import LifecycleSafety

  /** Where numbers come from: a terminal event, a recovery's look at the last usage checkpoint, or nowhere. */
  datatype Source = Journaled(k: nat) | Reckoned(attempt: nat) | Nowhere

  datatype Tally = Tally(used: Used, source: Source)

  /** A terminal event's result, in the order of the journal. */
  datatype Terminal = Terminal(attempt: nat, used: Used)

  /** What an attempt was charged when the next one's plan was derived, and why that was permitted. */
  datatype Charge = Charge(tally: Tally, failure: Option<Failure>, how: Derivation)

  datatype Books = Books(
    plans: seq<Limits>,             // one per attempt record
    charges: seq<Charge>,           // one per plan but the first
    results: seq<Terminal>,
    checkpoints: map<nat, Used>,    // the last one of each attempt
    meter: Used,                    // of the attempt at work
    saved: Tally,                   // in the snapshot
    verdict: Tally,                 // in the last `run-abandoned` event
    known: map<L.SeatId, Tally>)

  datatype State = State(life: L.State, books: Books)

  /** What the world decides: an attempt's use at its end, and the limits of a launch. */
  datatype Numbers = Numbers(used: Used, root: Limits)

  datatype Action =
    | Act(act: L.Action, numbers: Numbers)
    | Tick(seat: L.SeatId, used: Used)       // `usage-checkpoint`

  const NOTHING_USED := Used(0, 0, 0.0)
  const UNKNOWN := Tally(NOTHING_USED, Nowhere)

  function Known(b: Books, id: L.SeatId): Tally {
    if id in b.known then b.known[id] else UNKNOWN
  }

  function Checkpoint(b: Books, p: nat): Used {
    if p in b.checkpoints then b.checkpoints[p] else NOTHING_USED
  }

  function FailureOf(m: L.Memory): Option<Failure> {
    if m.outcome.Some? then m.outcome.value.result.failure else None
  }

  function How(r: L.Request): Derivation {
    if r.Retry? then ByRetry else if r.Resume? then ByResume else ByContinuing
  }

  /** The plan a start would record: the launch's own, or one derived from the plan and the numbers its seat remembers. */
  function NextPlan(b: Books, m: Option<L.Memory>, r: L.Request, known: Tally, root: Limits): Result<Limits, BudgetError> {
    if r.Launch? then Ok(root)
    else if m.None? || m.value.plan >= |b.plans| then Err(NotPermitted)
    else Derive(b.plans[m.value.plan], FailureOf(m.value), known.used, How(r))
  }

  predicate MayRecord(b: Books, m: Option<L.Memory>, r: L.Request, known: Tally, root: Limits, p: nat) {
    var next := NextPlan(b, m, r, known, root);
    next.Ok? && (r.Launch? ==> Valid(root)) && p <= |b.plans| && (p < |b.plans| ==> b.plans[p] == next.value)
  }

  function RecordPlan(b: Books, m: Option<L.Memory>, r: L.Request, known: Tally, root: Limits, p: nat): Books
    requires MayRecord(b, m, r, known, root, p)
  {
    if p < |b.plans| then b
    else b.(plans := b.plans + [NextPlan(b, m, r, known, root).value],
            charges := if r.Launch? then b.charges else b.charges + [Charge(known, FailureOf(m.value), How(r))])
  }

  function LastResult(b: Books): Tally {
    if b.results == [] then UNKNOWN else Tally(b.results[|b.results| - 1].used, Journaled(|b.results| - 1))
  }

  /** The numbers of the snapshot a job writes. */
  function PutTally(b: Books, id: L.SeatId, m: Option<L.Memory>, r: L.Request, start: L.Disk): Tally {
    if r.Recover? then
      if L.Prior(start, r.latest).Some? then b.saved else Tally(Checkpoint(b, r.latest), Reckoned(r.latest))
    else if L.Starts(r) then LastResult(b)
    else if r.Reconcile? && m.Some? && m.value.outcome.None? then UNKNOWN
    else Known(b, id)
  }

  /** Recovery takes the verdict of an abandonment over. */
  predicate TakesVerdict(r: L.Request, start: L.Disk) {
    r.Recover? && !L.Pending(start.events) && L.Over(start.events)
  }

  function DoneTally(b: Books, id: L.SeatId, m: Option<L.Memory>, r: L.Request, start: L.Disk): Tally {
    if TakesVerdict(r, start) then b.verdict else if r.Recover? then b.saved else PutTally(b, id, m, r, start)
  }

  predicate EntryOk(b: Books, id: L.SeatId, m: Option<L.Memory>, r: L.Request, w: L.Write, n: Numbers) {
    match w
    case CreateAttempt(p) => MayRecord(b, m, r, Known(b, id), n.root, p)
    case Append(e) => e.Ended? ==> WithinUse(b.meter, n.used)
    case _ => true
  }

  /** What one disk write enters into the books. */
  function Entry(b: Books, id: L.SeatId, m: Option<L.Memory>, r: L.Request, start: L.Disk, w: L.Write, n: Numbers): Books
    requires EntryOk(b, id, m, r, w, n)
  {
    match w
    case CreateRun => b
    case CreateAttempt(p) => RecordPlan(b, m, r, Known(b, id), n.root, p)
    case Append(e) =>
      if e.Starting? then b.(meter := NOTHING_USED)
      else if e.Ended? then b.(results := b.results + [Terminal(e.attempt, n.used)])
      else if e.RunAbandoned? then b.(verdict := PutTally(b, id, m, r, start))
      else b
    case PutSnapshot(_) => b.(saved := PutTally(b, id, m, r, start))
  }

  function NextWrite(s: L.State, id: L.SeatId): L.Write
    requires L.Enabled(s, L.Do(id))
  {
    L.Writes(s, id)[s.seats[id].job.value.done]
  }

  predicate Enabled(s: State, x: Action) {
    match x
    case Act(a, n) => L.Enabled(s.life, a) && (
      match a
      case Ask(id, r) => r.Retry? || r.Resume? || r.Continue? ==>
        NextPlan(s.books, s.life.seats[id].memory, r, Known(s.books, id), n.root).Ok?
      case Do(id) =>
        EntryOk(s.books, id, s.life.seats[id].memory, s.life.seats[id].job.value.request, NextWrite(s.life, id), n)
      case _ => true)
    case Tick(id, used) =>
      && L.Enabled(s.life, L.Do(id)) && NextWrite(s.life, id).Append? && NextWrite(s.life, id).event.Ended?
      && WithinUse(s.books.meter, used)
  }

  function Book(s: State, a: L.Action, n: Numbers): Books
    requires Enabled(s, Act(a, n))
  {
    var b := s.books;
    match a
    case Do(id) =>
      var seat := s.life.seats[id];
      Entry(b, id, seat.memory, seat.job.value.request, seat.job.value.start, NextWrite(s.life, id), n)
    case Finish(id) =>
      var seat := s.life.seats[id];
      b.(known := b.known[id := DoneTally(b, id, seat.memory, seat.job.value.request, seat.job.value.start)])
    case Throw(id, launched) => if launched then b.(known := b.known - {id}) else b
    case Crash(id) => b.(known := b.known - {id})
    case _ => b
  }

  function Apply(s: State, x: Action): State
    requires Enabled(s, x)
  {
    match x
    case Act(a, n) => State(L.Apply(s.life, a), Book(s, a, n))
    case Tick(id, used) =>
      s.(books := s.books.(checkpoints := s.books.checkpoints[NextWrite(s.life, id).event.attempt := used], meter := used))
  }

  ghost predicate IsRun(states: seq<State>, actions: seq<Action>) {
    && |states| == |actions| + 1
    && forall i :: 0 <= i < |actions| ==> Enabled(states[i], actions[i]) && states[i + 1] == Apply(states[i], actions[i])
  }

  predicate Init(s: State) {
    L.Init(s.life) && s.books == Books([], [], [], map[], NOTHING_USED, UNKNOWN, UNKNOWN, map[])
  }

  // ----- what the books keep -----

  function StepOf(c: Charge): Step { Step(c.tally.used, c.failure, c.how) }

  function StepsOf(charges: seq<Charge>): seq<Step> {
    seq(|charges|, i requires 0 <= i < |charges| => StepOf(charges[i]))
  }

  /** The numbers are what their source says. */
  predicate Sourced(b: Books, t: Tally) {
    && t.used.cost >= 0.0
    && match t.source
       case Journaled(k) => k < |b.results| && t.used == b.results[k].used
       case Reckoned(p) => p < |b.plans| || p == 0
       case Nowhere => t.used == NOTHING_USED
  }

  /** The attempt the numbers are of, if they are of any. */
  predicate Tells(b: Books, t: Tally, about: nat)
    requires Sourced(b, t)
  {
    match t.source
    case Journaled(k) => b.results[k].attempt == about
    case Reckoned(p) => p == about
    case Nowhere => true
  }

  predicate Fits(b: Books, t: Tally, o: L.Credited) {
    Sourced(b, t) && Tells(b, t, o.about)
  }

  ghost predicate PlansOk(b: Books) {
    if b.plans == [] then b.charges == [] else |b.charges| + 1 == |b.plans| && Chain(b.plans, StepsOf(b.charges))
  }

  ghost predicate EntriesOk(b: Books) {
    && (forall k :: 0 <= k < |b.results| ==> b.results[k].attempt < |b.plans| && b.results[k].used.cost >= 0.0)
    && b.meter.cost >= 0.0 && (forall p :: p in b.checkpoints ==> b.checkpoints[p].cost >= 0.0)
    && (forall p :: 0 <= p < |b.charges| ==> ChargeOk(b, p))
  }

  /** An attempt is charged numbers of its own or of an earlier attempt, or none. */
  predicate ChargeOk(b: Books, p: nat)
    requires p < |b.charges|
  {
    var t := b.charges[p].tally;
    && Sourced(b, t)
    && match t.source
       case Journaled(k) => b.results[k].attempt <= p
       case Reckoned(q) => q <= p
       case Nowhere => true
  }

  ghost predicate DiskFits(b: Books, d: L.Disk) {
    && |b.plans| == d.attempts
    && (d.snapshot.Some? ==> Fits(b, b.saved, d.snapshot.value.outcome))
    && VerdictFits(b, d.events)
  }

  ghost predicate VerdictFits(b: Books, events: seq<L.Event>) {
    var last := L.Last(events, true, |events|);
    last >= 0 ==> Fits(b, b.verdict, events[last].verdict)
  }

  predicate MemoryFits(b: Books, id: L.SeatId, m: Option<L.Memory>) {
    m.Some? && m.value.outcome.Some? ==> Fits(b, Known(b, id), m.value.outcome.value)
  }

  predicate JobFits(b: Books, job: Option<L.Job>) {
    job.Some? && job.value.request.Recover? ==> job.value.request.latest == 0 || job.value.request.latest < |b.plans|
  }

  predicate EndedFits(s: State, id: L.SeatId) {
    EndedIn(s.life, id) ==> LastIs(s.books, L.JobPlan(s.life.shares, s.life.seats[id]).value.after.plan)
  }

  ghost predicate SeatFits(s: State, id: L.SeatId)
    requires id in s.life.seats
  {
    && MemoryFits(s.books, id, s.life.seats[id].memory) && JobFits(s.books, s.life.seats[id].job) && EndedFits(s, id)
  }

  predicate LastIs(b: Books, p: nat) {
    b.results != [] && b.results[|b.results| - 1].attempt == p
  }

  /** The seat's job is an attempt past its terminal event. */
  predicate EndedIn(s: L.State, id: L.SeatId) {
    && L.OnPlan(s, id) && L.Starts(s.seats[id].job.value.request)
    && s.seats[id].job.value.done + 1 >= |L.Writes(s, id)|
  }

  ghost predicate Inv(s: State) {
    && LifecycleExact.AllInv(s.life) && PlansOk(s.books) && EntriesOk(s.books) && DiskFits(s.books, s.life.disk)
    && forall id :: id in s.life.seats ==> SeatFits(s, id)
  }

  // ----- numbers stay what they are -----

  /** The books only grow. */
  predicate Grown(b: Books, c: Books) {
    b.plans <= c.plans && b.results <= c.results && b.charges <= c.charges
  }

  lemma FitsStill(b: Books, c: Books, t: Tally, o: L.Credited)
    requires Grown(b, c) && Fits(b, t, o)
    ensures Fits(c, t, o)
  {}

  lemma MemoryStill(b: Books, c: Books, id: L.SeatId, m: Option<L.Memory>)
    requires Grown(b, c) && Known(c, id) == Known(b, id) && MemoryFits(b, id, m)
    ensures MemoryFits(c, id, m)
  {
    if m.Some? && m.value.outcome.Some? { FitsStill(b, c, Known(b, id), m.value.outcome.value); }
  }

  lemma EndedStill(s: State, t: State, id: L.SeatId)
    requires id in s.life.seats && id in t.life.seats && t.life.seats[id] == s.life.seats[id] && EndedFits(s, id)
    requires t.life.shares == s.life.shares && (EndedIn(s.life, id) ==> t.books.results == s.books.results)
    ensures EndedFits(t, id)
  {}

  lemma SeatFitsStill(s: State, t: State, id: L.SeatId)
    requires id in s.life.seats && id in t.life.seats && t.life.seats[id] == s.life.seats[id] && SeatFits(s, id)
    requires Grown(s.books, t.books) && Known(t.books, id) == Known(s.books, id) && t.life.shares == s.life.shares
    requires EndedIn(s.life, id) ==> t.books.results == s.books.results
    ensures SeatFits(t, id)
  {
    MemoryStill(s.books, t.books, id, s.life.seats[id].memory);
    EndedStill(s, t, id);
  }

  // ----- what an operation writes -----

  /** Whose result a snapshot or a verdict holds. */
  lemma PutAbout(d: L.Disk, shares: bool, m: Option<L.Memory>, r: L.Request, a: L.Answers, n: nat, o: L.Credited)
    requires L.Guarded(m, r) && L.PlanOf(d, shares, m, r, a).Some? && n < |L.PlanOf(d, shares, m, r, a).value.writes|
    requires var w := L.PlanOf(d, shares, m, r, a).value.writes[n]; w == L.PutSnapshot(o) || w == L.Append(L.RunAbandoned(o))
    ensures var plan := L.PlanOf(d, shares, m, r, a).value;
            if r.Recover? then
              && n == |plan.writes| - 1 && (forall i :: 0 <= i < n ==> LifecycleCredit.Quiet(plan.writes[i]))
              && o.about == (if L.Prior(d, r.latest).Some? then L.Prior(d, r.latest).value.about else r.latest)
            else if L.Starts(r) then n == |plan.writes| - 1 && o.about == plan.after.plan
            else
              && m.Some? && (m.value.outcome.Some? ==> o.about == m.value.outcome.value.about)
              && (m.value.outcome.None? ==> r.Reconcile?)
  {}

  /** The memory a finished operation leaves. */
  lemma DoneAbout(d: L.Disk, shares: bool, m: Option<L.Memory>, r: L.Request, a: L.Answers)
    requires LifecycleSafety.Sound(d.events) && L.Guarded(m, r)
    requires L.PlanOf(d, shares, m, r, a).Some? && L.PlanOf(d, shares, m, r, a).value.after.outcome.Some?
    ensures var plan := L.PlanOf(d, shares, m, r, a).value;
            var o := plan.after.outcome.value;
            if r.Recover? then
              if plan.writes != [] then plan.writes[|plan.writes| - 1] == L.PutSnapshot(o)
              else if TakesVerdict(r, d) then
                var last := L.Last(d.events, true, |d.events|); last >= 0 && d.events[last].verdict == o
              else d.snapshot.Some? && d.snapshot.value.outcome == o
            else if L.Starts(r) then o.about == plan.after.plan
            else
              && m.Some? && (m.value.outcome.Some? ==> o.about == m.value.outcome.value.about)
              && (m.value.outcome.None? ==> r.Reconcile?)
  {}

  /** The attempt of a start is recorded before its first event. */
  lemma StartRecorded(s: State, id: L.SeatId)
    requires Inv(s) && L.OnPlan(s.life, id) && L.Starts(s.life.seats[id].job.value.request)
    requires s.life.seats[id].job.value.done + 3 >= |L.Writes(s.life, id)|
    ensures L.JobPlan(s.life.shares, s.life.seats[id]).value.after.plan < |s.books.plans|
  {
    assert LifecycleSafety.JobOk(s.life, id) && LifecycleExact.SeatOk(s.life, id);
    var job := s.life.seats[id].job.value;
    LifecycleCredit.RecordedOnceLaunched(job.start, L.Writes(s.life, id), job.done);
  }

  /** The snapshot on disk while a recovery has written nothing but events. */
  lemma SameSnapshot(s: State, id: L.SeatId)
    requires Inv(s) && L.OnPlan(s.life, id)
    requires forall i :: 0 <= i < s.life.seats[id].job.value.done ==> LifecycleCredit.Quiet(L.Writes(s.life, id)[i])
    ensures s.life.disk.snapshot == s.life.seats[id].job.value.start.snapshot
  {
    assert LifecycleSafety.JobOk(s.life, id);
    LifecycleCredit.QuietAll(s.life.seats[id].job.value.start, L.Writes(s.life, id), s.life.seats[id].job.value.done);
  }

  lemma PutFits(s: State, id: L.SeatId, o: L.Credited)
    requires Inv(s) && L.Enabled(s.life, L.Do(id))
    requires NextWrite(s.life, id) == L.PutSnapshot(o) || NextWrite(s.life, id) == L.Append(L.RunAbandoned(o))
    ensures var seat := s.life.seats[id];
            Fits(s.books, PutTally(s.books, id, seat.memory, seat.job.value.request, seat.job.value.start), o)
  {
    var seat := s.life.seats[id];
    var job := seat.job.value;
    assert LifecycleSafety.JobOk(s.life, id) && SeatFits(s, id);
    PutAbout(job.start, s.life.shares, seat.memory, job.request, job.answers, job.done, o);
    if job.request.Recover? { SameSnapshot(s, id); }
  }

  // ----- one write -----

  lemma ChainGrows(plans: seq<Limits>, charges: seq<Charge>, next: Limits, c: Charge)
    requires Chain(plans, StepsOf(charges)) && c.tally.used.cost >= 0.0
    requires Derive(plans[|plans| - 1], c.failure, c.tally.used, c.how) == Ok(next)
    ensures Chain(plans + [next], StepsOf(charges + [c]))
  {
    var all, steps := plans + [next], StepsOf(charges + [c]);
    assert steps == StepsOf(charges) + [StepOf(c)];
    forall i | 0 <= i < |steps|
      ensures steps[i].charged.cost >= 0.0
      ensures Derive(all[i], steps[i].failure, steps[i].charged, steps[i].derivation) == Ok(all[i + 1])
    {
      if i < |charges| {
        var was := StepsOf(charges)[i];
        assert Derive(plans[i], was.failure, was.charged, was.derivation) == Ok(plans[i + 1]);
      }
    }
  }

  /** A new plan is derived from the newest, and charged with numbers of it or of an earlier attempt. */
  lemma RecordedOk(s: State, id: L.SeatId, p: nat, n: Numbers)
    requires Inv(s) && Enabled(s, Act(L.Do(id), n)) && NextWrite(s.life, id) == L.CreateAttempt(p)
    ensures var c := Book(s, L.Do(id), n);
            && PlansOk(c) && EntriesOk(c) && Grown(s.books, c) && c.known == s.books.known
            && c.results == s.books.results && c.saved == s.books.saved && c.verdict == s.books.verdict
            && |c.plans| == if p < |s.books.plans| then |s.books.plans| else p + 1
  {
    var b, seat := s.books, s.life.seats[id];
    var c := Book(s, L.Do(id), n);
    assert LifecycleSafety.JobOk(s.life, id) && SeatFits(s, id);
    RecordNames(s.life, id, p);
    if p == |b.plans| && !seat.job.value.request.Launch? {
      var charge := Charge(Known(b, id), FailureOf(seat.memory.value), How(seat.job.value.request));
      ChainGrows(b.plans, b.charges, NextPlan(b, seat.memory, seat.job.value.request, Known(b, id), n.root).value, charge);
      ChargesStill(b, c, p - 1);
    } else if p == |b.plans| {
      assert c.plans == [n.root] && c.charges == [] && StepsOf(c.charges) == [];
    }
  }

  lemma RecordNames(s: L.State, id: L.SeatId, p: nat)
    requires LifecycleSafety.Inv(s) && L.Enabled(s, L.Do(id)) && NextWrite(s, id) == L.CreateAttempt(p)
    ensures var seat := s.seats[id];
            && L.Starts(seat.job.value.request)
            && p == (if seat.job.value.request.Launch? then 0 else seat.memory.value.plan + 1)
            && (!seat.job.value.request.Launch? ==> seat.memory.Some? && seat.memory.value.outcome.Some?)
  {
    assert LifecycleSafety.JobOk(s, id);
  }

  lemma ChargesStill(b: Books, c: Books, p: nat)
    requires EntriesOk(b) && Grown(b, c) && c.results == b.results && c.meter == b.meter && c.checkpoints == b.checkpoints
    requires |c.charges| == |b.charges| + 1 && p == |b.charges| && ChargeOk(c, p)
    ensures EntriesOk(c)
  {
    forall q | 0 <= q < |c.charges| ensures ChargeOk(c, q) {
      if q < p { assert ChargeOk(b, q); }
    }
  }

  /** A terminal event enters its result, which is of a recorded attempt. */
  lemma EndedOk(s: State, id: L.SeatId, e: L.Event, n: Numbers)
    requires Inv(s) && Enabled(s, Act(L.Do(id), n)) && NextWrite(s.life, id) == L.Append(e) && e.Ended?
    ensures var c := Book(s, L.Do(id), n);
            && EntriesOk(c) && Grown(s.books, c) && LastIs(c, L.JobPlan(s.life.shares, s.life.seats[id]).value.after.plan)
            && c == s.books.(results := c.results)
  {
    var b, c := s.books, Book(s, L.Do(id), n);
    assert LifecycleSafety.JobOk(s.life, id);
    EndedNames(s.life, id, e);
    StartRecorded(s, id);
    forall q | 0 <= q < |c.charges| ensures ChargeOk(c, q) { assert ChargeOk(b, q); }
  }

  lemma PlanNames(d: L.Disk, shares: bool, m: Option<L.Memory>, r: L.Request, a: L.Answers, n: nat, e: L.Event)
    requires L.PlanOf(d, shares, m, r, a).Some? && n < |L.PlanOf(d, shares, m, r, a).value.writes|
    requires L.PlanOf(d, shares, m, r, a).value.writes[n] == L.Append(e) && (e.Ended? || e.Starting?)
    ensures var plan := L.PlanOf(d, shares, m, r, a).value;
            L.Starts(r) && e.attempt == plan.after.plan && n + (if e.Ended? then 2 else 3) == |plan.writes|
  {}

  lemma EndedNames(s: L.State, id: L.SeatId, e: L.Event)
    requires L.Enabled(s, L.Do(id)) && NextWrite(s, id) == L.Append(e) && (e.Ended? || e.Starting?)
    ensures L.Starts(s.seats[id].job.value.request) && e.attempt == L.JobPlan(s.shares, s.seats[id]).value.after.plan
    ensures s.seats[id].job.value.done + (if e.Ended? then 2 else 3) == |L.Writes(s, id)|
  {
    var seat := s.seats[id];
    PlanNames(seat.job.value.start, s.shares, seat.memory, seat.job.value.request, seat.job.value.answers, seat.job.value.done, e);
  }

  /** What any write leaves of the books. */
  lemma EntryGrows(b: Books, id: L.SeatId, m: Option<L.Memory>, r: L.Request, start: L.Disk, w: L.Write, n: Numbers)
    requires EntryOk(b, id, m, r, w, n)
    ensures var c := Entry(b, id, m, r, start, w, n);
            && Grown(b, c) && c.known == b.known && c.checkpoints == b.checkpoints
            && |c.plans| == (if w.CreateAttempt? && w.attempt == |b.plans| then |b.plans| + 1 else |b.plans|)
            && (!w.CreateAttempt? ==> c.plans == b.plans && c.charges == b.charges)
            && (!(w.Append? && w.event.Ended?) ==> c.results == b.results && (c.meter == b.meter || c.meter == NOTHING_USED))
            && (!w.PutSnapshot? ==> c.saved == b.saved) && (!(w.Append? && w.event.RunAbandoned?) ==> c.verdict == b.verdict)
  {}

  lemma EntryKeeps(s: State, id: L.SeatId, n: Numbers)
    requires Inv(s) && Enabled(s, Act(L.Do(id), n))
    ensures PlansOk(Book(s, L.Do(id), n)) && EntriesOk(Book(s, L.Do(id), n))
  {
    var w, seat := NextWrite(s.life, id), s.life.seats[id];
    EntryGrows(s.books, id, seat.memory, seat.job.value.request, seat.job.value.start, w, n);
    if w.CreateAttempt? { RecordedOk(s, id, w.attempt, n); }
    else if w.Append? && w.event.Ended? { EndedOk(s, id, w.event, n); }
    else { MarksKeep(s.books, Book(s, L.Do(id), n)); }
  }

  lemma MarksKeep(b: Books, c: Books)
    requires PlansOk(b) && EntriesOk(b) && c.plans == b.plans && c.charges == b.charges && c.results == b.results
    requires c.checkpoints == b.checkpoints && (c.meter == b.meter || c.meter == NOTHING_USED)
    ensures PlansOk(c) && EntriesOk(c)
  {
    forall q | 0 <= q < |c.charges| ensures ChargeOk(c, q) { assert ChargeOk(b, q); }
  }

  lemma DiskStill(b: Books, c: Books, d: L.Disk, w: L.Write)
    requires DiskFits(b, d) && Grown(b, c) && |c.plans| == L.Wrote(d, w).attempts
    requires if w.PutSnapshot? then Fits(c, c.saved, w.outcome) else c.saved == b.saved
    requires if w.Append? && w.event.RunAbandoned? then Fits(c, c.verdict, w.event.verdict) else c.verdict == b.verdict
    ensures DiskFits(c, L.Wrote(d, w))
  {
    if w.Append? { LifecycleSafety.LastAfter(d.events, w.event, true); }
    var last := L.Last(d.events, true, |d.events|);
    if last >= 0 { FitsStill(b, c, b.verdict, d.events[last].verdict); }
    if d.snapshot.Some? { FitsStill(b, c, b.saved, d.snapshot.value.outcome); }
  }

  lemma DoDisk(s: State, id: L.SeatId, n: Numbers)
    requires Inv(s) && Enabled(s, Act(L.Do(id), n))
    ensures DiskFits(Book(s, L.Do(id), n), L.Wrote(s.life.disk, NextWrite(s.life, id)))
  {
    var b, c, w, seat := s.books, Book(s, L.Do(id), n), NextWrite(s.life, id), s.life.seats[id];
    EntryGrows(b, id, seat.memory, seat.job.value.request, seat.job.value.start, w, n);
    if w.PutSnapshot? {
      PutFits(s, id, w.outcome);
      FitsStill(b, c, c.saved, w.outcome);
    } else if w.Append? && w.event.RunAbandoned? {
      PutFits(s, id, w.event.verdict);
      FitsStill(b, c, c.verdict, w.event.verdict);
    }
    DiskStill(b, c, s.life.disk, w);
  }

  lemma DoSeat(s: State, id: L.SeatId, n: Numbers, other: L.SeatId)
    requires Inv(s) && Enabled(s, Act(L.Do(id), n)) && other in s.life.seats
    ensures SeatFits(Apply(s, Act(L.Do(id), n)), other)
  {
    var t, w, seat := Apply(s, Act(L.Do(id), n)), NextWrite(s.life, id), s.life.seats[id];
    EntryGrows(s.books, id, seat.memory, seat.job.value.request, seat.job.value.start, w, n);
    assert SeatFits(s, other);
    if other != id {
      if EndedIn(s.life, other) { LifecycleCredit.OneWriter(s.life, id, other); }
      SeatFitsStill(s, t, other);
    } else {
      MemoryStill(s.books, t.books, id, seat.memory);
      DoEnded(s, id, n);
    }
  }

  lemma DoEnded(s: State, id: L.SeatId, n: Numbers)
    requires Inv(s) && Enabled(s, Act(L.Do(id), n))
    ensures EndedFits(Apply(s, Act(L.Do(id), n)), id)
  {
    var t, w, seat := Apply(s, Act(L.Do(id), n)), NextWrite(s.life, id), s.life.seats[id];
    assert SeatFits(s, id);
    if EndedIn(t.life, id) {
      SamePlan(s.life, id);
      if EndedIn(s.life, id) {
        EntryGrows(s.books, id, seat.memory, seat.job.value.request, seat.job.value.start, w, n);
        NotEndedAgain(s.life, id);
      } else {
        EndedNext(s.life, id);
        EndedOk(s, id, w.event, n);
      }
    }
  }

  lemma SamePlan(s: L.State, id: L.SeatId)
    requires L.Enabled(s, L.Do(id))
    ensures var t := L.Apply(s, L.Do(id));
            && t.seats[id] == s.seats[id].(job := Some(s.seats[id].job.value.(done := s.seats[id].job.value.done + 1)))
            && t.shares == s.shares && L.JobPlan(t.shares, t.seats[id]) == L.JobPlan(s.shares, s.seats[id])
  {}

  lemma PlanEnds(d: L.Disk, shares: bool, m: Option<L.Memory>, r: L.Request, a: L.Answers, n: nat)
    requires L.PlanOf(d, shares, m, r, a).Some? && L.Starts(r) && n < |L.PlanOf(d, shares, m, r, a).value.writes|
    ensures var w := L.PlanOf(d, shares, m, r, a).value.writes;
            w[n].Append? && w[n].event.Ended? <==> n + 2 == |w|
  {}

  lemma NotEndedAgain(s: L.State, id: L.SeatId)
    requires L.Enabled(s, L.Do(id)) && EndedIn(s, id)
    ensures !(NextWrite(s, id).Append? && NextWrite(s, id).event.Ended?)
  {
    var seat := s.seats[id];
    PlanEnds(seat.job.value.start, s.shares, seat.memory, seat.job.value.request, seat.job.value.answers, seat.job.value.done);
  }

  /** An attempt comes past its terminal event by writing it. */
  lemma EndedNext(s: L.State, id: L.SeatId)
    requires L.Enabled(s, L.Do(id)) && EndedIn(L.Apply(s, L.Do(id)), id) && !EndedIn(s, id)
    ensures NextWrite(s, id).Append? && NextWrite(s, id).event.Ended?
  {
    var seat := s.seats[id];
    SamePlan(s, id);
    PlanEnds(seat.job.value.start, s.shares, seat.memory, seat.job.value.request, seat.job.value.answers, seat.job.value.done);
  }

  lemma DoKeeps(s: State, id: L.SeatId, n: Numbers)
    requires Inv(s) && Enabled(s, Act(L.Do(id), n))
    ensures Inv(Apply(s, Act(L.Do(id), n)))
  {
    LifecycleExact.AllDo(s.life, id);
    EntryKeeps(s, id, n);
    DoDisk(s, id, n);
    forall other | other in Apply(s, Act(L.Do(id), n)).life.seats ensures SeatFits(Apply(s, Act(L.Do(id), n)), other) {
      DoSeat(s, id, n, other);
    }
  }

  // ----- the other steps -----

  lemma DoneFits(s: State, id: L.SeatId)
    requires Inv(s) && L.Enabled(s.life, L.Finish(id)) && L.JobPlan(s.life.shares, s.life.seats[id]).value.after.outcome.Some?
    ensures var seat := s.life.seats[id];
            Fits(s.books, DoneTally(s.books, id, seat.memory, seat.job.value.request, seat.job.value.start),
                 L.JobPlan(s.life.shares, seat).value.after.outcome.value)
  {
    var seat := s.life.seats[id];
    var job := seat.job.value;
    assert LifecycleSafety.JobOk(s.life, id) && SeatFits(s, id);
    DoneAbout(job.start, s.life.shares, seat.memory, job.request, job.answers);
    if job.request.Recover? { RecoveredFits(s, id); }
  }

  lemma RecoveredFits(s: State, id: L.SeatId)
    requires Inv(s) && L.Enabled(s.life, L.Finish(id)) && s.life.seats[id].job.value.request.Recover?
    requires L.JobPlan(s.life.shares, s.life.seats[id]).value.after.outcome.Some?
    ensures var seat := s.life.seats[id];
            Fits(s.books, DoneTally(s.books, id, seat.memory, seat.job.value.request, seat.job.value.start),
                 L.JobPlan(s.life.shares, seat).value.after.outcome.value)
  {
    var seat := s.life.seats[id];
    var job, plan := seat.job.value, L.JobPlan(s.life.shares, seat).value;
    assert LifecycleSafety.JobOk(s.life, id);
    DoneAbout(job.start, s.life.shares, seat.memory, job.request, job.answers);
    RecoverWrites(job.start, s.life.shares, job.request.latest);
    if plan.writes != [] { PutLast(job.start, plan.writes, plan.after.outcome.value); }
  }

  /** A recovery writes its snapshot exactly when it neither takes a verdict over nor keeps the snapshot that is there. */
  lemma RecoverWrites(d: L.Disk, shares: bool, p: nat)
    requires LifecycleSafety.Sound(d.events)
    ensures L.RecoverPlan(d, shares, p).writes != [] ==> !TakesVerdict(L.Recover(p), d)
    ensures L.RecoverPlan(d, shares, p).writes == [] ==> L.After(d, L.RecoverPlan(d, shares, p).writes, 0) == d
  {}

  lemma PutLast(d: L.Disk, writes: seq<L.Write>, o: L.Credited)
    requires writes != [] && writes[|writes| - 1] == L.PutSnapshot(o)
    ensures var t := L.After(d, writes, |writes|); t.snapshot.Some? && t.snapshot.value.outcome == o
  {}

  /** The result an error leaves tells of what the seat remembered. */
  lemma FallbackAbout(s: L.State, id: L.SeatId, launched: bool)
    requires LifecycleSafety.Inv(s) && L.Enabled(s, L.Throw(id, launched))
    ensures var m, seat := L.Fallback(s, id, launched), s.seats[id];
            m.Some? && m.value.outcome.Some? ==>
              !launched && seat.memory.Some? && seat.memory.value.outcome.Some?
              && m.value.outcome.value.about == seat.memory.value.outcome.value.about
  {
    assert LifecycleSafety.JobOk(s, id);
  }

  /** Every other step leaves books and disk alone but for what it forgets. */
  lemma QuietSeat(s: State, a: L.Action, n: Numbers, other: L.SeatId)
    requires Inv(s) && Enabled(s, Act(a, n)) && !a.Do? && other in Apply(s, Act(a, n)).life.seats
    ensures SeatFits(Apply(s, Act(a, n)), other)
  {
    var t := Apply(s, Act(a, n));
    if other in s.life.seats { assert SeatFits(s, other); }
    if a.seat != other { SeatFitsStill(s, t, other); }
    else if a.Finish? { FinishedSeat(s, other, n); }
    else if a.Throw? { ThrownSeat(s, other, a.launched, n); }
    else { AskedSeat(s, a, n); }
  }

  lemma FinishedSeat(s: State, id: L.SeatId, n: Numbers)
    requires Inv(s) && Enabled(s, Act(L.Finish(id), n))
    ensures SeatFits(Apply(s, Act(L.Finish(id), n)), id)
  {
    if L.JobPlan(s.life.shares, s.life.seats[id]).value.after.outcome.Some? { DoneFits(s, id); }
  }

  lemma ThrownSeat(s: State, id: L.SeatId, launched: bool, n: Numbers)
    requires Inv(s) && Enabled(s, Act(L.Throw(id, launched), n))
    ensures SeatFits(Apply(s, Act(L.Throw(id, launched), n)), id)
  {
    assert SeatFits(s, id);
    FallbackAbout(s.life, id, launched);
  }

  lemma NothingDone(s: L.State, id: L.SeatId)
    requires L.Works(s, id) && s.seats[id].job.value.done == 0
    ensures !EndedIn(s, id)
  {
    if L.OnPlan(s, id) && L.Starts(s.seats[id].job.value.request) {
      var seat := s.seats[id];
      AttemptWrites(seat.job.value.start, s.shares, seat.memory, seat.job.value.request, seat.job.value.answers);
    }
  }

  lemma AttemptWrites(d: L.Disk, shares: bool, m: Option<L.Memory>, r: L.Request, a: L.Answers)
    requires L.PlanOf(d, shares, m, r, a).Some? && L.Starts(r)
    ensures |L.PlanOf(d, shares, m, r, a).value.writes| >= 4
  {}

  lemma AskedSeat(s: State, a: L.Action, n: Numbers)
    requires Inv(s) && Enabled(s, Act(a, n)) && !a.Do? && !a.Finish? && !a.Throw? && !a.Crash?
    ensures SeatFits(Apply(s, Act(a, n)), a.seat)
  {
    var t := Apply(s, Act(a, n));
    if a.seat in s.life.seats { assert SeatFits(s, a.seat); }
    if a.Begin? && L.Works(t.life, a.seat) { NothingDone(t.life, a.seat); }
  }

  lemma TickKeeps(s: State, id: L.SeatId, used: Used)
    requires Inv(s) && Enabled(s, Tick(id, used))
    ensures Inv(Apply(s, Tick(id, used)))
  {
    var t := Apply(s, Tick(id, used));
    forall q | 0 <= q < |t.books.charges| ensures ChargeOk(t.books, q) { assert ChargeOk(s.books, q); }
    forall other | other in t.life.seats ensures SeatFits(t, other) {
      assert SeatFits(s, other);
      SeatFitsStill(s, t, other);
    }
  }

  lemma QuietBooks(s: State, a: L.Action, n: Numbers)
    requires Inv(s) && Enabled(s, Act(a, n)) && !a.Do?
    ensures var t := Apply(s, Act(a, n));
            t.books == s.books.(known := t.books.known) && t.life.disk == s.life.disk
  {}

  lemma QuietKeeps(s: State, a: L.Action, n: Numbers)
    requires Inv(s) && Enabled(s, Act(a, n)) && !a.Do?
    ensures Inv(Apply(s, Act(a, n)))
  {
    LifecycleExact.AllStep(s.life, a);
    QuietBooks(s, a, n);
    SameEntries(s, Apply(s, Act(a, n)));
    forall other | other in Apply(s, Act(a, n)).life.seats ensures SeatFits(Apply(s, Act(a, n)), other) { QuietSeat(s, a, n, other); }
  }

  lemma SameEntries(s: State, t: State)
    requires PlansOk(s.books) && EntriesOk(s.books) && DiskFits(s.books, s.life.disk)
    requires t.books == s.books.(known := t.books.known) && t.life.disk == s.life.disk
    ensures PlansOk(t.books) && EntriesOk(t.books) && DiskFits(t.books, t.life.disk)
  {
    MarksKeep(s.books, t.books);
  }

  lemma StepKeepsInv(s: State, x: Action)
    requires Inv(s) && Enabled(s, x)
    ensures Inv(Apply(s, x))
  {
    match x
    case Tick(id, used) => TickKeeps(s, id, used);
    case Act(a, n) => if a.Do? { DoKeeps(s, a.seat, n); } else { QuietKeeps(s, a, n); }
  }

  lemma {:induction false} RunKeepsInv(states: seq<State>, actions: seq<Action>, i: nat)
    requires IsRun(states, actions) && Init(states[0]) && i < |states|
    ensures Inv(states[i])
  {
    if i > 0 {
      RunKeepsInv(states, actions, i - 1);
      StepKeepsInv(states[i - 1], actions[i - 1]);
    }
  }

  // ----- sums -----

  /** What the first `n` terminal events record of attempt `p`. */
  function RecordedOf(results: seq<Terminal>, p: nat, n: nat): Used
    requires n <= |results|
  {
    if n == 0 then NOTHING_USED
    else if results[n - 1].attempt == p then Plus(RecordedOf(results, p, n - 1), results[n - 1].used)
    else RecordedOf(results, p, n - 1)
  }

  /** And of the attempts before `p`. */
  function RecordedBelow(results: seq<Terminal>, p: nat, n: nat): Used
    requires n <= |results|
  {
    if n == 0 then NOTHING_USED
    else if results[n - 1].attempt < p then Plus(RecordedBelow(results, p, n - 1), results[n - 1].used)
    else RecordedBelow(results, p, n - 1)
  }

  /** One more on either side is one more on the sum. */
  lemma AddLast(a: Used, b: Used, last: Used)
    ensures Plus(Plus(a, last), b) == Plus(Plus(a, b), last) == Plus(a, Plus(b, last))
  {}

  lemma PlusNothing(a: Used, b: Used)
    requires b.runtimeMs == 0 && b.tokens == 0 && b.cost == 0.0
    ensures Plus(a, b) == a
  {}

  lemma {:induction false} BelowOneMore(results: seq<Terminal>, p: nat, n: nat)
    requires n <= |results|
    ensures RecordedBelow(results, p + 1, n) == Plus(RecordedBelow(results, p, n), RecordedOf(results, p, n))
  {
    if n > 0 {
      BelowOneMore(results, p, n - 1);
      var below, own, last := RecordedBelow(results, p, n - 1), RecordedOf(results, p, n - 1), results[n - 1];
      AddLast(below, own, last.used);
    } else {
      PlusNothing(RecordedBelow(results, p, n), RecordedOf(results, p, n));
    }
  }

  lemma {:induction false} NothingBelowZero(results: seq<Terminal>, n: nat)
    requires n <= |results|
    ensures RecordedBelow(results, 0, n) == NOTHING_USED
  {
    if n > 0 { NothingBelowZero(results, n - 1); }
  }

  /** The attempt was charged its own result, and that is the only one it left. */
  predicate Settled(b: Books, p: nat)
    requires p < |b.charges|
  {
    var source := b.charges[p].tally.source;
    source.Journaled? && OnlyResult(b.results, p, source.k)
  }

  predicate OnlyResult(results: seq<Terminal>, p: nat, k: nat) {
    k < |results| && results[k].attempt == p && forall j :: 0 <= j < |results| && results[j].attempt == p ==> j == k
  }

  lemma {:induction false} OnlyRecorded(results: seq<Terminal>, p: nat, k: nat, n: nat)
    requires n <= |results| && OnlyResult(results, p, k)
    ensures RecordedOf(results, p, n) == if k < n then results[k].used else NOTHING_USED
  {
    if n > 0 { OnlyRecorded(results, p, k, n - 1); }
  }

  /** What the first `n` attempts recorded, but for those that are settled. */
  function UnsettledRecorded(b: Books, n: nat): Used
    requires n <= |b.charges|
  {
    if n == 0 then NOTHING_USED
    else if Settled(b, n - 1) then UnsettledRecorded(b, n - 1)
    else Plus(UnsettledRecorded(b, n - 1), RecordedOf(b.results, n - 1, |b.results|))
  }

  /** What those were charged. */
  function UnsettledCharged(b: Books, n: nat): Used
    requires n <= |b.charges|
  {
    if n == 0 then NOTHING_USED
    else if Settled(b, n - 1) then UnsettledCharged(b, n - 1)
    else Plus(UnsettledCharged(b, n - 1), b.charges[n - 1].tally.used)
  }

  /** Recorded and charged differ by the unsettled attempts alone. */
  lemma {:induction false} Balance(b: Books, n: nat)
    requires EntriesOk(b) && n <= |b.charges|
    ensures Plus(RecordedBelow(b.results, n, |b.results|), UnsettledCharged(b, n)) ==
            Plus(Charged(StepsOf(b.charges), n), UnsettledRecorded(b, n))
  {
    if n == 0 {
      NothingBelowZero(b.results, |b.results|);
    } else {
      Balance(b, n - 1);
      BelowOneMore(b.results, n - 1, |b.results|);
      assert ChargeOk(b, n - 1);
      if Settled(b, n - 1) { OnlyRecorded(b.results, n - 1, b.charges[n - 1].tally.source.k, |b.results|); }
      BalanceStep(RecordedBelow(b.results, n - 1, |b.results|), UnsettledCharged(b, n - 1), Charged(StepsOf(b.charges), n - 1),
                  UnsettledRecorded(b, n - 1), RecordedOf(b.results, n - 1, |b.results|), b.charges[n - 1].tally.used);
    }
  }

  lemma BalanceStep(below: Used, extra: Used, charged: Used, missing: Used, recorded: Used, charge: Used)
    requires Plus(below, extra) == Plus(charged, missing)
    ensures Plus(Plus(below, recorded), Plus(extra, charge)) == Plus(Plus(charged, charge), Plus(missing, recorded))
    ensures recorded == charge ==> Plus(Plus(below, recorded), extra) == Plus(Plus(charged, charge), missing)
  {}

  // ----- what remains -----

  predicate NoMore(root: Limits, a: Used, b: Used) {
    a.runtimeMs <= b.runtimeMs && (root.tokens.Some? ==> a.tokens <= b.tokens) && a.cost <= b.cost
  }

  /** What the newest plan has left is no more than the root less what the attempts before it recorded. */
  predicate WithinRoot(b: Books)
    requires |b.plans| == |b.charges| + 1
  {
    var root, plan, sum := b.plans[0], b.plans[|b.charges|], RecordedBelow(b.results, |b.charges|, |b.results|);
    && plan.runtimeMs <= root.runtimeMs - sum.runtimeMs
    && (root.tokens.Some? ==> plan.tokens.Some? && plan.tokens.value <= root.tokens.value - sum.tokens)
    && plan.cost <= root.cost - sum.cost
  }

  lemma WithinRootExactly(b: Books)
    requires PlansOk(b) && EntriesOk(b) && b.plans != []
    ensures WithinRoot(b) <==>
              NoMore(b.plans[0], UnsettledRecorded(b, |b.charges|), UnsettledCharged(b, |b.charges|))
  {
    Balance(b, |b.charges|);
    Conserved(b.plans, StepsOf(b.charges), |b.charges|);
  }

  /**
   In every run, what remains is never more than the root less the recorded use
   exactly when, in each limited resource, the attempts that are not settled
   recorded no more than they were charged.
   */
  lemma NeverMoreThanRootExactly(states: seq<State>, actions: seq<Action>, i: nat)
    requires IsRun(states, actions) && Init(states[0]) && i < |states| && states[i].books.plans != []
    ensures var b := states[i].books;
            && |b.plans| == |b.charges| + 1
            && (WithinRoot(b) <==> NoMore(b.plans[0], UnsettledRecorded(b, |b.charges|), UnsettledCharged(b, |b.charges|)))
  {
    RunKeepsInv(states, actions, i);
    WithinRootExactly(states[i].books);
  }

  /**
   In every run, an attempt that led to another was charged a result of its own or of
   an earlier one, what a recovery reckoned of one, or nothing.
   */
  lemma ChargedExactly(states: seq<State>, actions: seq<Action>, i: nat, p: nat)
    requires IsRun(states, actions) && Init(states[0]) && i < |states| && p < |states[i].books.charges|
    ensures var b, t := states[i].books, states[i].books.charges[p].tally;
            match t.source
            case Journaled(k) => k < |b.results| && b.results[k].attempt <= p && t.used == b.results[k].used
            case Reckoned(q) => q <= p
            case Nowhere => t.used == NOTHING_USED
  {
    RunKeepsInv(states, actions, i);
    assert ChargeOk(states[i].books, p);
  }

  // ----- steering -----

  function Uses(results: seq<Terminal>): seq<Used> { seq(|results|, i requires 0 <= i < |results| => results[i].used) }

  /** What attempts from `p` on recorded. */
  function RecordedFrom(results: seq<Terminal>, p: nat, n: nat): Used
    requires n <= |results|
  {
    if n == 0 then NOTHING_USED
    else if results[n - 1].attempt >= p then Plus(RecordedFrom(results, p, n - 1), results[n - 1].used)
    else RecordedFrom(results, p, n - 1)
  }

  lemma {:induction false} SplitTotal(results: seq<Terminal>, p: nat, n: nat)
    requires n <= |results|
    ensures Total(Uses(results), n) == Plus(RecordedBelow(results, p, n), RecordedFrom(results, p, n))
  {
    if n > 0 {
      SplitTotal(results, p, n - 1);
      AddLast(RecordedBelow(results, p, n - 1), RecordedFrom(results, p, n - 1), results[n - 1].used);
    } else {
      PlusNothing(RecordedBelow(results, p, n), RecordedFrom(results, p, n));
    }
  }

  /** The limits that attempt `p` rebuilds from its plan and the journal. */
  function Steering(b: Books, p: nat): (int, Option<int>, real)
    requires p < |b.plans|
  {
    SteeringLimits(b.plans[p], Uses(b.results))
  }

  /**
   In every run, the limits an attempt rebuilds exceed the root's in a resource
   exactly when the unsettled attempts before it, with all that it and later ones
   have recorded already, recorded more than those were charged.
   */
  lemma SteeringAboveRootExactly(states: seq<State>, actions: seq<Action>, i: nat, p: nat)
    requires IsRun(states, actions) && Init(states[0]) && i < |states| && p < |states[i].books.plans|
    ensures var b := states[i].books;
            && p <= |b.charges|
            && var (runtime, tokens, cost) := Steering(b, p);
               var recorded := Plus(UnsettledRecorded(b, p), RecordedFrom(b.results, p, |b.results|));
               var charged, root := UnsettledCharged(b, p), b.plans[0];
               && (runtime > root.runtimeMs <==> recorded.runtimeMs > charged.runtimeMs)
               && tokens.Some? == root.tokens.Some?
               && (tokens.Some? ==> (tokens.value > root.tokens.value <==> recorded.tokens > charged.tokens))
               && (cost > root.cost <==> recorded.cost > charged.cost)
  {
    RunKeepsInv(states, actions, i);
    var b := states[i].books;
    Balance(b, p);
    SplitTotal(b.results, p, |b.results|);
    Conserved(b.plans, StepsOf(b.charges), p);
  }
}
