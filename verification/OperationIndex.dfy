/**
 The operation index: a write-once register per owner and operation, built on
 an atomic `link` (src/persistence/operation-index.ts). Any number of claimers
 interleave; a claimer that finds the name taken reads what is there.
 */
module OperationIndex {
  import opened Outcomes

  type Name = nat
  type TaskId = nat

  /** `key` names the file: a digest of owner and operation, which may collide. */
  datatype Record = Record(owner: nat, operation: nat, request: nat, run: nat)

  datatype Answer = Claimed(record: Record, created: bool) | Conflict(existing: Record) | KeyMismatch

  datatype Phase = Linking | Reading | Done(answer: Answer)

  datatype Task = Task(input: Record, phase: Phase)

  datatype State = State(files: map<Name, Record>, tasks: map<TaskId, Task>)

  datatype Action = Submit(task: TaskId, input: Record) | Link(task: TaskId) | Read(task: TaskId) | Die(task: TaskId)

  type Key = (nat, nat) -> Name

  function NameOf(key: Key, r: Record): Name { key(r.owner, r.operation) }

  function Judge(existing: Record, input: Record): Answer {
    if existing.owner != input.owner || existing.operation != input.operation then KeyMismatch
    else if existing.request != input.request || existing.run != input.run then Conflict(existing)
    else Claimed(existing, false)
  }

  predicate Enabled(key: Key, s: State, a: Action) {
    match a
    case Submit(t, _) => t !in s.tasks
    case Link(t) => t in s.tasks && s.tasks[t].phase.Linking?
    case Read(t) => t in s.tasks && s.tasks[t].phase.Reading? && NameOf(key, s.tasks[t].input) in s.files
    case Die(t) => t in s.tasks
  }

  function Apply(key: Key, s: State, a: Action): State
    requires Enabled(key, s, a)
  {
    match a
    case Submit(t, input) => s.(tasks := s.tasks[t := Task(input, Linking)])
    case Link(t) =>
      var input := s.tasks[t].input;
      var name := NameOf(key, input);
      if name in s.files then s.(tasks := s.tasks[t := Task(input, Reading)])
      else State(s.files[name := input], s.tasks[t := Task(input, Done(Claimed(input, true)))])
    case Read(t) =>
      var input := s.tasks[t].input;
      s.(tasks := s.tasks[t := Task(input, Done(Judge(s.files[NameOf(key, input)], input)))])
    case Die(t) => s.(tasks := s.tasks - {t})
  }

  ghost predicate IsRun(key: Key, states: seq<State>, actions: seq<Action>) {
    && |states| == |actions| + 1
    && forall i :: 0 <= i < |actions| ==> Enabled(key, states[i], actions[i]) && states[i + 1] == Apply(key, states[i], actions[i])
  }

  /** What `find` answers. */
  function Find(key: Key, s: State, owner: nat, operation: nat): Result<Option<Record>, ()> {
    var name := key(owner, operation);
    if name !in s.files then Ok(None)
    else if s.files[name].owner != owner || s.files[name].operation != operation then Err(())
    else Ok(Some(s.files[name]))
  }

  ghost predicate Inv(key: Key, s: State) {
    && (forall n :: n in s.files ==> NameOf(key, s.files[n]) == n)
    && forall t :: t in s.tasks ==>
         var task := s.tasks[t];
         && (task.phase.Reading? ==> NameOf(key, task.input) in s.files)
         && (task.phase.Done? && task.phase.answer.Claimed? ==>
               NameOf(key, task.input) in s.files && s.files[NameOf(key, task.input)] == task.phase.answer.record == task.input)
         && (task.phase.Done? && task.phase.answer.Conflict? ==>
               NameOf(key, task.input) in s.files && s.files[NameOf(key, task.input)] == task.phase.answer.existing != task.input)
  }

  lemma StepKeepsInv(key: Key, s: State, a: Action)
    requires Inv(key, s) && Enabled(key, s, a)
    ensures Inv(key, Apply(key, s, a))
  {}

  lemma {:induction false} RunKeepsInv(key: Key, states: seq<State>, actions: seq<Action>, i: nat)
    requires IsRun(key, states, actions) && states[0] == State(map[], map[]) && i < |states|
    ensures Inv(key, states[i])
  {
    if i > 0 {
      RunKeepsInv(key, states, actions, i - 1);
      StepKeepsInv(key, states[i - 1], actions[i - 1]);
    }
  }

  /** Two claims of one operation that are granted, in whatever order, name one and the same run, and one request. */
  lemma GrantedClaimsAgree(key: Key, states: seq<State>, actions: seq<Action>, i: nat, t: TaskId, u: TaskId)
    requires IsRun(key, states, actions) && states[0] == State(map[], map[]) && i < |states|
    requires t in states[i].tasks && states[i].tasks[t].phase.Done? && states[i].tasks[t].phase.answer.Claimed?
    requires u in states[i].tasks && states[i].tasks[u].phase.Done? && states[i].tasks[u].phase.answer.Claimed?
    requires states[i].tasks[t].input.owner == states[i].tasks[u].input.owner
    requires states[i].tasks[t].input.operation == states[i].tasks[u].input.operation
    ensures states[i].tasks[t].phase.answer.record == states[i].tasks[u].phase.answer.record
    ensures var input := states[i].tasks[t].input;
            Find(key, states[i], input.owner, input.operation) == Ok(Some(states[i].tasks[t].phase.answer.record))
  {
    RunKeepsInv(key, states, actions, i);
  }

  /** Of all claims that end on one file name, one at most is told it created the record. */
  ghost predicate OneCreator(key: Key, s: State) {
    forall t, u :: Creates(s, t) && Creates(s, u) && NameOf(key, s.tasks[t].input) == NameOf(key, s.tasks[u].input) ==> t == u
  }

  predicate Creates(s: State, t: TaskId) {
    t in s.tasks && s.tasks[t].phase.Done? && s.tasks[t].phase.answer.Claimed? && s.tasks[t].phase.answer.created
  }

  lemma {:induction false} CreatedOnce(key: Key, states: seq<State>, actions: seq<Action>, i: nat)
    requires IsRun(key, states, actions) && states[0] == State(map[], map[]) && i < |states|
    ensures OneCreator(key, states[i])
  {
    if i > 0 {
      CreatedOnce(key, states, actions, i - 1);
      RunKeepsInv(key, states, actions, i - 1);
      var s, n := states[i - 1], states[i];
      forall t | Creates(n, t) && !Creates(s, t) ensures actions[i - 1] == Link(t) && NameOf(key, n.tasks[t].input) !in s.files {}
      forall t | Creates(s, t) ensures NameOf(key, s.tasks[t].input) in s.files {}
      forall t, u | Creates(n, t) && Creates(n, u) && NameOf(key, n.tasks[t].input) == NameOf(key, n.tasks[u].input)
          ensures t == u {
        if Creates(s, t) && Creates(s, u) { assert s.tasks[t].input == n.tasks[t].input && s.tasks[u].input == n.tasks[u].input; }
      }
    }
  }

  /** A record is never replaced. */
  lemma {:induction false} WrittenOnce(key: Key, states: seq<State>, actions: seq<Action>, i: nat, j: nat, n: Name)
    requires IsRun(key, states, actions) && i <= j < |states| && n in states[i].files
    ensures n in states[j].files && states[j].files[n] == states[i].files[n]
    decreases j - i
  {
    if i < j { WrittenOnce(key, states, actions, i, j - 1, n); }
  }
}
