/** The attempt records of one run under concurrent creators (src/persistence/attempt-record.ts). */
module AttemptRecords {
  // Creators of one process take turns; processes are kept apart by the run lease,
  // which each creator checks before its turn, before it reads the newest record, and
  // before it links its own. A lease is not released while a creator that holds it is
  // at work.

  import opened Outcomes
  import opened Sorting

  type AttemptId = nat
  type Proc = nat
  type LeaseId = nat
  type TaskId = nat

  datatype Kind = Initial | Retry | Resume

  /** `identity` is owner and plan identity, which replays compare. */
  datatype Record = Record(attempt: AttemptId, ordinal: nat, kind: Kind, parent: Option<AttemptId>, identity: nat,
      worktree: Option<AttemptId>)

  datatype Answer = Created | Existing(record: Record) | Conflict | InvalidLineage | Fenced

  datatype Phase = Queued | Turn | Absent | Linkable | Done(answer: Answer)

  datatype Task = Task(proc: Proc, lease: LeaseId, input: Record, phase: Phase)

  type Files = map<AttemptId, Record>

  datatype State = State(files: Files, holder: Option<LeaseId>, leases: map<LeaseId, Proc>, tasks: map<TaskId, Task>)

  datatype Action =
    | Acquire(proc: Proc, lease: LeaseId)
    | Release(lease: LeaseId)
    | Submit(task: TaskId, proc: Proc, lease: LeaseId, input: Record)
    | TakeTurn(task: TaskId)
    | ReadExisting(task: TaskId)
    | ReadLatest(task: TaskId, latest: Option<AttemptId>)
    | Link(task: TaskId)
    | Die(proc: Proc)

  predicate AtWork(t: Task) {
    t.phase.Turn? || t.phase.Absent? || t.phase.Linkable?
  }

  predicate Current(s: State, t: Task) {
    s.holder == Some(t.lease)
  }

  /** The newest record: none later. */
  predicate IsLatest(files: Files, latest: Option<AttemptId>) {
    if latest.None? then files == map[]
    else latest.value in files && forall a :: a in files ==> files[a].ordinal <= files[latest.value].ordinal
  }

  predicate SameIdentity(a: Record, b: Record) {
    a.identity == b.identity && a.ordinal == b.ordinal && a.kind == b.kind && a.worktree == b.worktree
  }

  /** The lineage a new record must have. */
  predicate Follows(files: Files, r: Record, latest: Option<AttemptId>)
    requires latest.Some? ==> latest.value in files
  {
    if r.kind.Initial? then latest.None? && r.ordinal == 0 && r.parent.None?
    else latest.Some? && r.ordinal == files[latest.value].ordinal + 1 && r.parent == latest
  }

  predicate InPhase(s: State, t: TaskId, phase: Phase) {
    t in s.tasks && s.tasks[t].phase == phase
  }

  ghost predicate Enabled(s: State, a: Action) {
    match a
    case Acquire(proc, lease) => s.holder.None? && lease !in s.leases
    case Release(lease) => s.holder == Some(lease) && forall t :: t in s.tasks && s.tasks[t].lease == lease ==> !AtWork(s.tasks[t])
    case Submit(t, proc, lease, input) => t !in s.tasks && lease in s.leases && s.leases[lease] == proc
    case TakeTurn(t) => InPhase(s, t, Queued) &&
      forall o :: o in s.tasks && s.tasks[o].proc == s.tasks[t].proc ==> !AtWork(s.tasks[o])
    case ReadExisting(t) => InPhase(s, t, Turn)
    case ReadLatest(t, latest) => InPhase(s, t, Absent) && IsLatest(s.files, latest)
    case Link(t) => InPhase(s, t, Linkable)
    case Die(proc) => true
  }

  function Move(s: State, t: TaskId, phase: Phase): State
    requires t in s.tasks
  {
    s.(tasks := s.tasks[t := s.tasks[t].(phase := phase)])
  }

  /** A file with the target's name is the answer, or the refusal. */
  function AnswerOf(existing: Record, input: Record): Answer {
    if SameIdentity(existing, input) then Existing(existing) else Conflict
  }

  function Apply(s: State, a: Action): State
    requires Enabled(s, a)
  {
    match a
    case Acquire(proc, lease) => s.(holder := Some(lease), leases := s.leases[lease := proc])
    case Release(_) => s.(holder := None)
    case Submit(t, proc, lease, input) => s.(tasks := s.tasks[t := Task(proc, lease, input, Queued)])
    case TakeTurn(t) => Move(s, t, if Current(s, s.tasks[t]) then Turn else Done(Fenced))
    case ReadExisting(t) =>
      var r := s.tasks[t].input;
      Move(s, t, if r.attempt in s.files then Done(AnswerOf(s.files[r.attempt], r)) else Absent)
    case ReadLatest(t, latest) =>
      Move(s, t, if !Current(s, s.tasks[t]) then Done(Fenced)
                 else if Follows(s.files, s.tasks[t].input, latest) then Linkable
                 else Done(InvalidLineage))
    case Link(t) =>
      var r := s.tasks[t].input;
      if !Current(s, s.tasks[t]) then Move(s, t, Done(Fenced))
      else if r.attempt in s.files then Move(s, t, Done(AnswerOf(s.files[r.attempt], r)))
      else Move(s, t, Done(Created)).(files := s.files[r.attempt := r])
    case Die(proc) =>
      s.(tasks := map t | t in s.tasks && s.tasks[t].proc != proc :: s.tasks[t],
         holder := if s.holder.Some? && s.holder.value in s.leases && s.leases[s.holder.value] == proc then None else s.holder)
  }

  ghost predicate IsRun(states: seq<State>, actions: seq<Action>) {
    && |states| == |actions| + 1
    && forall i :: 0 <= i < |actions| ==> Enabled(states[i], actions[i]) && states[i + 1] == Apply(states[i], actions[i])
  }

  predicate Init(s: State) { s == State(map[], None, map[], map[]) }

  // ----- one chain -----

  /** The record continues another, or is the one that began the run. */
  predicate Linked(files: Files, a: AttemptId)
    requires a in files
  {
    var r := files[a];
    && r.attempt == a && r.ordinal < |files|
    && (r.kind.Initial? <==> r.ordinal == 0) && (r.kind.Initial? ==> r.parent.None?)
    && (r.ordinal > 0 ==> r.parent.Some? && r.parent.value in files && files[r.parent.value].ordinal + 1 == r.ordinal)
  }

  /** Ordinals 0..n-1, each once, each record but the first naming the one before it. */
  ghost predicate OneChain(files: Files) {
    && (forall a {:trigger Linked(files, a)} :: a in files ==> Linked(files, a))
    && (forall a, b :: a in files && b in files && files[a].ordinal == files[b].ordinal ==> a == b)
  }

  lemma {:induction false} FewerThan(files: Files, names: set<AttemptId>, n: nat)
    requires names <= files.Keys
    requires forall a :: a in names ==> files[a].ordinal < n
    requires forall a, b :: a in names && b in names && files[a].ordinal == files[b].ordinal ==> a == b
    ensures |names| <= n
    decreases n
  {
    if n == 0 {
      assert names == {};
    } else if a :| a in names && files[a].ordinal == n - 1 {
      FewerThan(files, names - {a}, n - 1);
    } else {
      FewerThan(files, names, n - 1);
    }
  }

  /** The newest record's ordinal counts the records before it. */
  lemma LatestCounts(files: Files, latest: AttemptId)
    requires OneChain(files) && IsLatest(files, Some(latest))
    ensures files[latest].ordinal + 1 == |files|
  {
    assert Linked(files, latest);
    assert |files| == |files.Keys|;
    FewerThan(files, files.Keys, files[latest].ordinal + 1);
  }

  lemma ChainGrows(files: Files, r: Record, latest: Option<AttemptId>)
    requires OneChain(files) && IsLatest(files, latest) && Follows(files, r, latest) && r.attempt !in files
    ensures OneChain(files[r.attempt := r])
  {
    var more := files[r.attempt := r];
    assert |more| == |files| + 1;
    if latest.Some? { LatestCounts(files, latest.value); } else { assert |files| == 0; }
    forall a | a in more ensures Linked(more, a) {
      if a in files { assert Linked(files, a); }
    }
    OrdinalsDiffer(files, r);
  }

  /** A record whose ordinal is the number of records has an ordinal of its own. */
  lemma OrdinalsDiffer(files: Files, r: Record)
    requires OneChain(files) && r.attempt !in files && r.ordinal == |files|
    ensures var more := files[r.attempt := r];
            forall a, b :: a in more && b in more && more[a].ordinal == more[b].ordinal ==> a == b
  {
    forall a | a in files ensures files[a].ordinal < |files| { assert Linked(files, a); }
  }

  /** A creator at work holds the lease, alone; one about to link still has the newest record before it. */
  predicate TaskOk(s: State, t: TaskId)
    requires t in s.tasks
  {
    var k := s.tasks[t];
    && k.lease in s.leases && s.leases[k.lease] == k.proc
    && (AtWork(k) ==> Current(s, k))
    && (k.phase.Linkable? ==> (k.input.kind.Initial? ==> IsLatest(s.files, None)) &&
                              (!k.input.kind.Initial? ==> IsLatest(s.files, k.input.parent)) &&
                              Follows(s.files, k.input, if k.input.kind.Initial? then None else k.input.parent))
  }

  ghost predicate Inv(s: State) {
    && OneChain(s.files)
    && (s.holder.Some? ==> s.holder.value in s.leases)
    && (forall t {:trigger TaskOk(s, t)} :: t in s.tasks ==> TaskOk(s, t))
    && (forall t, o :: t in s.tasks && o in s.tasks && AtWork(s.tasks[t]) && AtWork(s.tasks[o]) ==> t == o)
  }

  lemma LinkStep(s: State, t: TaskId)
    requires Inv(s) && Enabled(s, Link(t))
    ensures Inv(Apply(s, Link(t)))
  {
    var k, n := s.tasks[t], Apply(s, Link(t));
    assert TaskOk(s, t);
    if k.input.attempt !in s.files {
      ChainGrows(s.files, k.input, if k.input.kind.Initial? then None else k.input.parent);
    }
    forall o | o in n.tasks ensures TaskOk(n, o) { assert TaskOk(s, o); }
  }

  lemma StepKeepsInv(s: State, a: Action)
    requires Inv(s) && Enabled(s, a)
    ensures Inv(Apply(s, a))
  {
    var n := Apply(s, a);
    if a.Link? {
      LinkStep(s, a.task);
    } else {
      forall o | o in n.tasks ensures TaskOk(n, o) {
        if o in s.tasks { assert TaskOk(s, o); }
      }
      if a.TakeTurn? {
        assert TaskOk(s, a.task);
        forall o | o in s.tasks && Current(s, s.tasks[a.task]) ensures !AtWork(s.tasks[o]) {
          assert TaskOk(s, o);
        }
      }
    }
  }

  lemma {:induction false} RunKeepsInv(states: seq<State>, actions: seq<Action>, i: nat)
    requires IsRun(states, actions) && Init(states[0]) && i < |states|
    ensures Inv(states[i])
  {
    if i > 0 {
      RunKeepsInv(states, actions, i - 1);
      StepKeepsInv(states[i - 1], actions[i - 1]);
    }
  }

  /** In every run of concurrent creators the records form one chain. */
  lemma AlwaysOneChain(states: seq<State>, actions: seq<Action>, i: nat)
    requires IsRun(states, actions) && Init(states[0]) && i < |states|
    ensures OneChain(states[i].files)
  {
    RunKeepsInv(states, actions, i);
  }

  /** A record, once there, is never replaced or removed. */
  lemma {:induction false} RecordsWriteOnce(states: seq<State>, actions: seq<Action>, i: nat, j: nat, a: AttemptId)
    requires IsRun(states, actions) && i <= j < |states| && a in states[i].files
    ensures a in states[j].files && states[j].files[a] == states[i].files[a]
    decreases j - i
  {
    if i < j { RecordsWriteOnce(states, actions, i, j - 1, a); }
  }

  /**
   A creator that is told its record is there finds it there with its identity,
   ordinal and kind, whether it made it or another creator had; and a replay that
   matches an existing record is always told so, unless it is fenced.
   */
  lemma AnswersAreTrue(states: seq<State>, actions: seq<Action>, i: nat, t: TaskId)
    requires IsRun(states, actions) && Init(states[0]) && i < |actions|
    requires t in states[i + 1].tasks && states[i + 1].tasks[t].phase.Done? && t in states[i].tasks
        && !states[i].tasks[t].phase.Done?
    ensures var input, answer := states[i].tasks[t].input, states[i + 1].tasks[t].phase.answer;
            var files := states[i + 1].files;
            && (answer.Created? || answer.Existing? ==> input.attempt in files && SameIdentity(files[input.attempt], input))
            && (answer.Existing? ==> files == states[i].files && answer.record == files[input.attempt])
            && (input.attempt in states[i].files && SameIdentity(states[i].files[input.attempt], input)
                && actions[i].ReadExisting? ==>
                  answer.Existing?)
  {}

  // ----- listing -----

  function ByOrdinal(): Order<Record> {
    (a: Record, b: Record) => a.ordinal <= b.ordinal
  }

  /** Reads every record file of the directory and sorts by ordinal. */
  method List(files: Files, entries: seq<AttemptId>) returns (records: seq<Record>)
    requires OneChain(files)
    requires (forall a :: a in entries <==> a in files) && forall i, j :: 0 <= i < j < |entries| ==> entries[i] != entries[j]
    ensures |records| == |files|
    ensures forall i :: 0 <= i < |records| ==>
        records[i].ordinal == i && records[i].attempt in files && files[records[i].attempt] == records[i]
    ensures forall i :: 0 < i < |records| ==> records[i].parent == Some(records[i - 1].attempt)
    ensures records != [] ==> IsLatest(files, Some(records[|records| - 1].attempt))
  {
    records := [];
    for i := 0 to |entries|
      invariant |records| == i
      invariant forall j :: 0 <= j < i ==> entries[j] in files && records[j] == files[entries[j]]
    {
      records := records + [files[entries[i]]];
    }
    ghost var read := records;
    records := Sort(records, ByOrdinal());
    SortSorted(read, ByOrdinal());
    ReadAll(files, entries, read);
    SortedByOrdinal(files, read, records);
  }

  /** Every record of the directory, once. */
  ghost predicate AllOnce(files: Files, records: seq<Record>) {
    && |records| == |files|
    && (forall r :: r in records <==> r.attempt in files && files[r.attempt] == r)
    && (forall i, j :: 0 <= i < j < |records| ==> records[i] != records[j])
  }

  lemma {:induction false} SizeIs(entries: seq<AttemptId>, names: set<AttemptId>)
    requires forall a :: a in entries <==> a in names
    requires forall i, j :: 0 <= i < j < |entries| ==> entries[i] != entries[j]
    ensures |entries| == |names|
  {
    if entries != [] {
      var last, rest := entries[|entries| - 1], entries[..|entries| - 1];
      forall a ensures a in rest <==> a in names - {last} {
        if a in rest { assert a in entries; }
      }
      SizeIs(rest, names - {last});
    }
  }

  lemma ReadAll(files: Files, entries: seq<AttemptId>, read: seq<Record>)
    requires OneChain(files) && |read| == |entries|
    requires (forall a :: a in entries <==> a in files) && forall i, j :: 0 <= i < j < |entries| ==> entries[i] != entries[j]
    requires forall j :: 0 <= j < |entries| ==> entries[j] in files && read[j] == files[entries[j]]
    ensures AllOnce(files, read)
  {
    SizeIs(entries, files.Keys);
    forall j | 0 <= j < |read| ensures read[j].attempt == entries[j] {
      assert Linked(files, entries[j]);
    }
    forall r ensures r in read <==> r.attempt in files && files[r.attempt] == r {
      if r.attempt in files && files[r.attempt] == r {
        var j :| 0 <= j < |entries| && entries[j] == r.attempt;
        assert read[j] == r;
      }
    }
  }

  lemma SortedByOrdinal(files: Files, read: seq<Record>, records: seq<Record>)
    requires OneChain(files) && AllOnce(files, read)
    requires multiset(records) == multiset(read) && Sorted(records, ByOrdinal())
    ensures |records| == |files|
    ensures forall i :: 0 <= i < |records| ==>
        records[i].ordinal == i && records[i].attempt in files && files[records[i].attempt] == records[i]
    ensures forall i :: 0 < i < |records| ==> records[i].parent == Some(records[i - 1].attempt)
    ensures records != [] ==> IsLatest(files, Some(records[|records| - 1].attempt))
  {
    SameElements(records, read);
    DistinctStays(read, records);
    forall i | 0 <= i < |records|
        ensures records[i].attempt in files && files[records[i].attempt] == records[i] && records[i].ordinal < |files| {
      assert records[i] in records && Linked(files, records[i].attempt);
    }
    forall i | 0 < i < |records| ensures records[i - 1].ordinal < records[i].ordinal {
      assert ByOrdinal()(records[i - 1], records[i]);
    }
    forall i | 0 <= i < |records| ensures records[i].ordinal == i {
      AtLeast(records, i);
      AtMost(records, i);
    }
    forall i | 0 < i < |records| ensures records[i].parent == Some(records[i - 1].attempt) {
      var r := records[i];
      assert Linked(files, r.attempt);
      assert Linked(files, r.parent.value) && Linked(files, records[i - 1].attempt);
    }
    forall a | a in files ensures files[a].ordinal < |files| { assert Linked(files, a); }
  }

  lemma {:induction false} AtLeast(records: seq<Record>, i: nat)
    requires forall k :: 0 < k < |records| ==> records[k - 1].ordinal < records[k].ordinal
    requires i < |records|
    ensures records[i].ordinal >= i
  {
    if i > 0 { AtLeast(records, i - 1); }
  }

  lemma {:induction false} AtMost(records: seq<Record>, i: nat)
    requires forall k :: 0 < k < |records| ==> records[k - 1].ordinal < records[k].ordinal
    requires i < |records| && records[|records| - 1].ordinal < |records|
    ensures records[i].ordinal <= i
    decreases |records| - i
  {
    if i + 1 < |records| { AtMost(records, i + 1); }
  }
}
