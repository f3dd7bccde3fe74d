/** The lock-free handshake of the warm checkpoint store (src/sandbox/checkpoints.ts). */
module Checkpoints {
  // `lease` writes its lease file and then reads the sidecar, `evict` removes the
  // sidecar and then reads the lease files again, both one file operation at a time,
  // by any number of processes that may die between two operations. A process
  // identity and a lease file name are never reused, and a directory listing is atomic.

  type Key = nat
  type Pid = nat
  type TaskId = nat

  /** A file of `leases/<key>`, named by the `lease` call that made it. */
  datatype Entry = Json(t: TaskId) | Tmp(t: TaskId)

  datatype LeasePhase =
    | Starting | TmpWritten | Written      // the lease file is in place
    | SawSidecar                           // the sidecar was read, the checkpoint not yet
    | Held                                 // returned to the caller
    | Refused                              // undefined will be returned, the lease file is still there
    | Done

  /** The scan `leased` makes of one lease directory. */
  datatype Scan =
    | Listing
    | Reading(left: set<Entry>, live: bool)
    | Unlinking(stale: Entry, left: set<Entry>, live: bool)

  datatype EvictPhase =
    | Choosing
    | First(scan: Scan)
    | LockRead
    | DropSidecar
    | Second(scan: Scan)
    | DropFile

  datatype PublishPhase = Written0 | Renamed | Published

  datatype Task =
    | Leaser(pid: Pid, key: Key, leasing: LeasePhase)
    | Evicter(pid: Pid, key: Key, evicting: EvictPhase)
    | Publisher(pid: Pid, key: Key, publishing: PublishPhase)

  datatype State = State(
    files: set<Key>,
    sidecars: set<Key>,
    entries: set<Entry>,
    locks: map<Key, Pid>,
    tasks: map<TaskId, Task>,
    dead: set<Pid>)

  datatype Action =
    | Start(t: TaskId, task: Task)
    | WriteTmp(t: TaskId) | RenameLease(t: TaskId) | ReadSidecar(t: TaskId) | StatFile(t: TaskId) | UnlinkLease(t: TaskId)
    | Choose(t: TaskId, key: Key) | List(t: TaskId) | UnlinkEntry(t: TaskId)
    | ReadEntry(t: TaskId, entry: Entry, torn: bool)   // a temporary file may be read half written
    | EndScan(t: TaskId) | ReadLock(t: TaskId) | UnlinkSidecar(t: TaskId) | UnlinkFile(t: TaskId)
    | RenameFile(t: TaskId) | PutSidecar(t: TaskId)
    | TakeLock(pid: Pid, key: Key) | DropLock(key: Key)
    | Die(pid: Pid)

  predicate Runs(s: State, t: TaskId) {
    t in s.tasks && s.tasks[t].pid !in s.dead
  }

  predicate Leasing(s: State, t: TaskId, phase: LeasePhase) {
    Runs(s, t) && s.tasks[t].Leaser? && s.tasks[t].leasing == phase
  }

  predicate Evicts(s: State, t: TaskId) {
    Runs(s, t) && s.tasks[t].Evicter?
  }

  predicate Scans(s: State, t: TaskId) {
    Evicts(s, t) && (s.tasks[t].evicting.First? || s.tasks[t].evicting.Second?)
  }

  function ScanOf(s: State, t: TaskId): Scan
    requires Scans(s, t)
  {
    s.tasks[t].evicting.scan
  }

  predicate InDirectory(s: State, key: Key, e: Entry) {
    e in s.entries && e.t in s.tasks && s.tasks[e.t].key == key
  }

  /** The file, read whole, names an owner that is running. */
  predicate OwnerLives(s: State, e: Entry) {
    e in s.entries && Runs(s, e.t)
  }

  predicate Enabled(s: State, a: Action) {
    match a
    case Start(t, task) => t !in s.tasks && task.pid !in s.dead &&
      (task.Leaser? ==> task.leasing == Starting) && (task.Evicter? ==> task.evicting == Choosing) &&
      (task.Publisher? ==> task.publishing == Written0)
    case WriteTmp(t) => Leasing(s, t, Starting)
    case RenameLease(t) => Leasing(s, t, TmpWritten)
    case ReadSidecar(t) => Leasing(s, t, Written)
    case StatFile(t) => Leasing(s, t, SawSidecar)
    case UnlinkLease(t) => Leasing(s, t, Refused) || Leasing(s, t, Held)
    case Choose(t, key) => Evicts(s, t) && s.tasks[t].evicting.Choosing?
    case List(t) => Scans(s, t) && ScanOf(s, t).Listing?
    case ReadEntry(t, entry, torn) =>
      Scans(s, t) && ScanOf(s, t).Reading? && entry in ScanOf(s, t).left && (torn ==> entry.Tmp?)
    case UnlinkEntry(t) => Scans(s, t) && ScanOf(s, t).Unlinking?
    case EndScan(t) => Scans(s, t) && ScanOf(s, t).Reading? && ScanOf(s, t).left == {}
    case ReadLock(t) => Evicts(s, t) && s.tasks[t].evicting.LockRead?
    case UnlinkSidecar(t) => Evicts(s, t) && s.tasks[t].evicting.DropSidecar?
    case UnlinkFile(t) => Evicts(s, t) && s.tasks[t].evicting.DropFile?
    case RenameFile(t) => Runs(s, t) && s.tasks[t].Publisher? && s.tasks[t].publishing.Written0?
    case PutSidecar(t) => Runs(s, t) && s.tasks[t].Publisher? && s.tasks[t].publishing.Renamed? && s.tasks[t].key in s.files
    case TakeLock(pid, key) => pid !in s.dead && key !in s.locks
    case DropLock(key) => key in s.locks
    case Die(pid) => true
  }

  function Move(s: State, t: TaskId, task: Task): State {
    s.(tasks := s.tasks[t := task])
  }

  function Lease(s: State, t: TaskId, phase: LeasePhase): State
    requires t in s.tasks && s.tasks[t].Leaser?
  {
    Move(s, t, s.tasks[t].(leasing := phase))
  }

  function Evict(s: State, t: TaskId, phase: EvictPhase): State
    requires t in s.tasks && s.tasks[t].Evicter?
  {
    Move(s, t, s.tasks[t].(evicting := phase))
  }

  function Rescan(s: State, t: TaskId, scan: Scan): State
    requires Scans(s, t)
  {
    Evict(s, t, if s.tasks[t].evicting.First? then First(scan) else Second(scan))
  }

  function Apply(s: State, a: Action): State
    requires Enabled(s, a)
  {
    match a
    case Start(t, task) => Move(s, t, task)
    case WriteTmp(t) => Lease(s, t, TmpWritten).(entries := s.entries + {Tmp(t)})
    case RenameLease(t) => Lease(s, t, Written).(entries := s.entries - {Tmp(t)} + {Json(t)})
    case ReadSidecar(t) => Lease(s, t, if s.tasks[t].key in s.sidecars then SawSidecar else Refused)
    case StatFile(t) => Lease(s, t, if s.tasks[t].key in s.files then Held else Refused)
    case UnlinkLease(t) => Lease(s, t, Done).(entries := s.entries - {Json(t)})
    case Choose(t, key) => Move(s, t, s.tasks[t].(key := key, evicting := First(Listing)))
    case List(t) => Rescan(s, t, Reading(set e | e in s.entries && InDirectory(s, s.tasks[t].key, e), false))
    case ReadEntry(t, entry, torn) =>
      var Reading(left, live) := ScanOf(s, t);
      if OwnerLives(s, entry) && !torn then Rescan(s, t, Reading(left - {entry}, true))
      else if entry.Json? then Rescan(s, t, Unlinking(entry, left - {entry}, live))
      else Rescan(s, t, Reading(left - {entry}, live))
    case UnlinkEntry(t) =>
      var Unlinking(stale, left, live) := ScanOf(s, t);
      Rescan(s, t, Reading(left, live)).(entries := s.entries - {stale})
    case EndScan(t) =>
      if ScanOf(s, t).live then Evict(s, t, Choosing)
      else if s.tasks[t].evicting.First? then Evict(s, t, LockRead)
      else Evict(s, t, DropFile)
    case ReadLock(t) =>
      if s.tasks[t].key in s.locks && s.locks[s.tasks[t].key] !in s.dead then Evict(s, t, Choosing)
      else Evict(s, t, DropSidecar)
    case UnlinkSidecar(t) => Evict(s, t, Second(Listing)).(sidecars := s.sidecars - {s.tasks[t].key})
    case UnlinkFile(t) => Evict(s, t, Choosing).(files := s.files - {s.tasks[t].key})
    case RenameFile(t) => Move(s, t, s.tasks[t].(publishing := Renamed)).(files := s.files + {s.tasks[t].key})
    case PutSidecar(t) => Move(s, t, s.tasks[t].(publishing := Published)).(sidecars := s.sidecars + {s.tasks[t].key})
    case TakeLock(pid, key) => s.(locks := s.locks[key := pid])
    case DropLock(key) => s.(locks := s.locks - {key})
    case Die(pid) => s.(dead := s.dead + {pid})
  }

  predicate SawLive(scan: Scan) { !scan.Listing? && scan.live }

  /** The eviction has removed its key's sidecar and met no live lease since: it may go on to the file. */
  predicate Threatens(s: State, e: TaskId) {
    Evicts(s, e) && (s.tasks[e].evicting.DropFile? || (s.tasks[e].evicting.Second? && !SawLive(s.tasks[e].evicting.scan)))
  }

  ghost predicate Threatened(s: State, key: Key) {
    exists e :: e in s.tasks && Threatens(s, e) && s.tasks[e].key == key
  }

  /** No publish of a key commits while an eviction threatens that key. */
  ghost predicate Disciplined(s: State, a: Action)
    requires Enabled(s, a)
  {
    a.PutSidecar? ==> !Threatened(s, s.tasks[a.t].key)
  }

  ghost predicate IsRun(states: seq<State>, actions: seq<Action>) {
    && |states| == |actions| + 1
    && forall i :: 0 <= i < |actions| ==> Enabled(states[i], actions[i]) && states[i + 1] == Apply(states[i], actions[i])
  }

  ghost predicate IsDisciplinedRun(states: seq<State>, actions: seq<Action>) {
    && IsRun(states, actions)
    && forall i :: 0 <= i < |actions| ==> Disciplined(states[i], actions[i])
  }

  /** A store with nothing running and nothing leased. */
  predicate Init(s: State) {
    s.entries == {} && s.tasks == map[] && s.dead == {}
  }

  // ----- invariant -----

  predicate HasLeaseFile(p: LeasePhase) {
    p.Written? || p.SawSidecar? || p.Held? || p.Refused?
  }

  /** A lease that has seen the sidecar of `key` and is not given back. */
  predicate Counts(s: State, t: TaskId, key: Key) {
    (Leasing(s, t, SawSidecar) || Leasing(s, t, Held)) && s.tasks[t].key == key
  }

  ghost predicate LeaseFilesInv(s: State) {
    && (forall t | t in s.tasks :: Runs(s, t) && s.tasks[t].Leaser? && HasLeaseFile(s.tasks[t].leasing) ==> Json(t) in s.entries)
    && (forall t | t in s.tasks :: Leasing(s, t, Held) ==> s.tasks[t].key in s.files)
    && (forall e | e in s.entries :: e.t in s.tasks)
    && (forall t :: Json(t) in s.entries ==> Renamed0(s, t) && !s.tasks[t].leasing.Done?)
  }

  /** The lease file of `t` was put in place at some point, so it never will be again. */
  predicate Renamed0(s: State, t: TaskId) {
    t in s.tasks && s.tasks[t].Leaser? && !s.tasks[t].leasing.Starting? && !s.tasks[t].leasing.TmpWritten?
  }

  /** Until it meets a live lease, a second scan has every lease that counts still before it. */
  ghost predicate ScanFits(s: State, e: TaskId, scan: Scan)
    requires Scans(s, e)
  {
    match scan
    case Listing => true
    case Reading(left, live) => LeftFits(s, e, left, live)
    case Unlinking(stale, left, live) =>
      && stale.Json? && Renamed0(s, stale.t) && !(Runs(s, stale.t) && HasLeaseFile(s.tasks[stale.t].leasing))
      && LeftFits(s, e, left, live)
  }

  ghost predicate LeftFits(s: State, e: TaskId, left: set<Entry>, live: bool)
    requires Scans(s, e)
  {
    && (forall t :: Json(t) in left ==> Renamed0(s, t))
    && (s.tasks[e].evicting.Second? && !live ==> forall t | t in s.tasks :: Counts(s, t, s.tasks[e].key) ==> Json(t) in left)
  }

  ghost predicate EvictInv(s: State, e: TaskId)
    requires e in s.tasks
  {
    && (Scans(s, e) ==> ScanFits(s, e, ScanOf(s, e)))
    && (Threatens(s, e) ==> s.tasks[e].key !in s.sidecars)
    && (Evicts(s, e) && s.tasks[e].evicting.DropFile? ==> forall t | t in s.tasks :: !Counts(s, t, s.tasks[e].key))
  }

  ghost predicate Inv(s: State) {
    LeaseFilesInv(s) && forall e | e in s.tasks :: EvictInv(s, e)
  }

  lemma UnlinksKeepLeaseFiles(s: State, a: Action)
    requires Inv(s) && Enabled(s, a) && (a.UnlinkEntry? || a.UnlinkFile?)
    ensures LeaseFilesInv(Apply(s, a))
  {
    assert EvictInv(s, a.t);
  }

  lemma LeaserKeepsLeaseFiles(s: State, a: Action)
    requires LeaseFilesInv(s) && Enabled(s, a)
    requires a.WriteTmp? || a.RenameLease? || a.ReadSidecar? || a.StatFile? || a.UnlinkLease?
    ensures LeaseFilesInv(Apply(s, a))
  {}

  lemma StepKeepsLeaseFiles(s: State, a: Action)
    requires Inv(s) && Enabled(s, a)
    ensures LeaseFilesInv(Apply(s, a))
  {
    if a.UnlinkEntry? || a.UnlinkFile? { UnlinksKeepLeaseFiles(s, a); }
    else if a.WriteTmp? || a.RenameLease? || a.ReadSidecar? || a.StatFile? || a.UnlinkLease? { LeaserKeepsLeaseFiles(s, a); }
    else { OthersKeepLeaseFiles(s, a); }
  }

  lemma OthersKeepLeaseFiles(s: State, a: Action)
    requires LeaseFilesInv(s) && Enabled(s, a) && !a.UnlinkEntry? && !a.UnlinkFile?
    requires !a.WriteTmp? && !a.RenameLease? && !a.ReadSidecar? && !a.StatFile? && !a.UnlinkLease?
    ensures LeaseFilesInv(Apply(s, a))
  {
    SameLeaseFiles(s, Apply(s, a));
  }

  lemma SameLeaseFiles(s: State, t: State)
    requires LeaseFilesInv(s) && t.entries == s.entries && s.files <= t.files && s.dead <= t.dead && s.tasks.Keys <= t.tasks.Keys
    requires forall x | x in s.tasks :: s.tasks[x].Leaser? ==> t.tasks[x] == s.tasks[x]
    requires forall x | x in t.tasks :: t.tasks[x].Leaser? ==> (x in s.tasks && s.tasks[x].Leaser?) || t.tasks[x].leasing == Starting
    ensures LeaseFilesInv(t)
  {}

  /** Only reading a sidecar that is there makes a lease count. */
  lemma CountsLater(s: State, a: Action, t: TaskId, key: Key)
    requires Enabled(s, a) && Counts(Apply(s, a), t, key)
    ensures Counts(s, t, key) || (a == ReadSidecar(t) && key in s.sidecars)
  {}

  lemma RenamedLater(s: State, a: Action, t: TaskId)
    requires Enabled(s, a) && Renamed0(s, t)
    ensures Renamed0(Apply(s, a), t)
  {}

  /** A lease file gone or stale at one moment stays so. */
  lemma StaleLater(s: State, a: Action, t: TaskId)
    requires Enabled(s, a) && Renamed0(s, t) && !(Runs(s, t) && HasLeaseFile(s.tasks[t].leasing))
    ensures !(Runs(Apply(s, a), t) && HasLeaseFile(Apply(s, a).tasks[t].leasing))
  {}

  predicate ActsOn(a: Action, e: TaskId) {
    match a
    case Choose(t, _) => t == e
    case List(t) => t == e
    case ReadEntry(t, _, _) => t == e
    case UnlinkEntry(t) => t == e
    case EndScan(t) => t == e
    case ReadLock(t) => t == e
    case UnlinkSidecar(t) => t == e
    case UnlinkFile(t) => t == e
    case _ => false
  }

  /** What the rest of the store may do without disturbing an eviction. */
  lemma EvictionStays(s: State, t: State, e: TaskId)
    requires e in s.tasks && e in t.tasks && EvictInv(s, e) && (Evicts(t, e) ==> Evicts(s, e) && t.tasks[e] == s.tasks[e])
    requires Threatens(s, e) ==> s.tasks[e].key !in t.sidecars
    requires Threatens(s, e) ==> forall x | x in t.tasks :: Counts(t, x, s.tasks[e].key) ==> Counts(s, x, s.tasks[e].key)
    requires forall x :: Renamed0(s, x) ==> Renamed0(t, x)
    requires forall x :: Renamed0(s, x) && !(Runs(s, x) && HasLeaseFile(s.tasks[x].leasing)) ==>
               Renamed0(t, x) && !(Runs(t, x) && HasLeaseFile(t.tasks[x].leasing))
    ensures EvictInv(t, e)
  {}

  lemma OthersKeepEviction(s: State, a: Action, e: TaskId)
    requires Inv(s) && Enabled(s, a) && Disciplined(s, a) && e in s.tasks && !ActsOn(a, e)
    ensures EvictInv(Apply(s, a), e)
  {
    var t := Apply(s, a);
    assert EvictInv(s, e);
    forall x | Renamed0(s, x)
      ensures Renamed0(t, x)
      ensures !(Runs(s, x) && HasLeaseFile(s.tasks[x].leasing)) ==> !(Runs(t, x) && HasLeaseFile(t.tasks[x].leasing))
    {
      RenamedLater(s, a, x);
      if !(Runs(s, x) && HasLeaseFile(s.tasks[x].leasing)) { StaleLater(s, a, x); }
    }
    if Threatens(s, e) {
      forall x | x in t.tasks && Counts(t, x, s.tasks[e].key) ensures Counts(s, x, s.tasks[e].key) {
        CountsLater(s, a, x, s.tasks[e].key);
      }
    }
    SameEvicter(s, a, e);
    EvictionStays(s, t, e);
  }

  lemma SameEvicter(s: State, a: Action, e: TaskId)
    requires Inv(s) && Enabled(s, a) && Disciplined(s, a) && e in s.tasks && !ActsOn(a, e)
    ensures var t := Apply(s, a);
            && e in t.tasks && (Evicts(t, e) ==> Evicts(s, e) && t.tasks[e] == s.tasks[e])
            && (Threatens(s, e) ==> s.tasks[e].key !in t.sidecars)
  {
    assert EvictInv(s, e);
  }

  lemma ListKeepsEviction(s: State, e: TaskId)
    requires Inv(s) && Enabled(s, List(e))
    ensures EvictInv(Apply(s, List(e)), e)
  {
    assert EvictInv(s, e);
  }

  /** An eviction may go on to any scan that fits. */
  lemma RescanKeeps(s: State, e: TaskId, scan: Scan)
    requires Inv(s) && Scans(s, e) && ScanFits(s, e, scan) && (SawLive(ScanOf(s, e)) ==> SawLive(scan))
    ensures EvictInv(Rescan(s, e, scan), e)
  {
    assert EvictInv(s, e);
    var t := Rescan(s, e, scan);
    assert forall x :: Renamed0(s, x) ==> Renamed0(t, x);
    assert forall x, key :: Counts(t, x, key) ==> Counts(s, x, key);
  }

  lemma ReadKeepsEviction(s: State, e: TaskId, entry: Entry, torn: bool)
    requires Inv(s) && Enabled(s, ReadEntry(e, entry, torn))
    ensures EvictInv(Apply(s, ReadEntry(e, entry, torn)), e)
  {
    assert EvictInv(s, e);
    var Reading(left, live) := ScanOf(s, e);
    if OwnerLives(s, entry) && !torn {
      RescanKeeps(s, e, Reading(left - {entry}, true));
    } else {
      forall t | t in s.tasks && Counts(s, t, s.tasks[e].key) ensures Json(t) in s.entries && entry != Json(t) {}
      RescanKeeps(s, e, if entry.Json? then Unlinking(entry, left - {entry}, live) else Reading(left - {entry}, live));
    }
  }

  lemma EvicterKeepsEviction(s: State, a: Action, e: TaskId)
    requires Inv(s) && Enabled(s, a) && e in s.tasks && ActsOn(a, e)
    ensures EvictInv(Apply(s, a), e)
  {
    if a.List? {
      ListKeepsEviction(s, e);
    } else if a.ReadEntry? {
      ReadKeepsEviction(s, e, a.entry, a.torn);
    } else {
      assert EvictInv(s, e);
      var s' := Apply(s, a);
      forall t, key | t in s'.tasks && Counts(s', t, key) ensures Counts(s, t, key) { CountsLater(s, a, t, key); }
    }
  }

  lemma StepKeepsInv(s: State, a: Action)
    requires Inv(s) && Enabled(s, a) && Disciplined(s, a)
    ensures Inv(Apply(s, a))
  {
    StepKeepsLeaseFiles(s, a);
    forall e | e in Apply(s, a).tasks ensures EvictInv(Apply(s, a), e) {
      if e in s.tasks {
        if ActsOn(a, e) { EvicterKeepsEviction(s, a, e); } else { OthersKeepEviction(s, a, e); }
      }
    }
  }

  lemma {:induction false} RunKeepsInv(states: seq<State>, actions: seq<Action>, i: nat)
    requires IsDisciplinedRun(states, actions) && Init(states[0]) && i < |states|
    ensures Inv(states[i])
  {
    if i > 0 {
      RunKeepsInv(states, actions, i - 1);
      StepKeepsInv(states[i - 1], actions[i - 1]);
    }
  }

  /** The lease was returned, is still held by a running process, and has lost its checkpoint file. */
  predicate Lost(s: State, t: TaskId) {
    Leasing(s, t, Held) && s.tasks[t].key !in s.files
  }

  /** A lease that was returned and is still held by a running process has its checkpoint file. */
  lemma HeldLeaseHasFile(states: seq<State>, actions: seq<Action>, i: nat, t: TaskId)
    requires IsDisciplinedRun(states, actions) && Init(states[0]) && i < |states|
    ensures !Lost(states[i], t) && (Leasing(states[i], t, Held) ==> Json(t) in states[i].entries)
  {
    RunKeepsInv(states, actions, i);
  }

  // ----- which publish does harm -----

  /** A run from `s` to `u` in which nothing is published. */
  ghost predicate Leads(states: seq<State>, actions: seq<Action>, s: State, u: State) {
    && IsRun(states, actions) && states[0] == s && states[|states| - 1] == u
    && forall i :: 0 <= i < |actions| ==> !actions[i].PutSidecar?
  }

  ghost predicate Reaches(s: State, u: State) {
    exists states, actions :: Leads(states, actions, s, u)
  }

  lemma Stays(s: State)
    ensures Reaches(s, s)
  {
    assert Leads([s], [], s, s);
  }

  lemma Then(s: State, u: State, a: Action)
    requires Reaches(s, u) && Enabled(u, a) && !a.PutSidecar?
    ensures Reaches(s, Apply(u, a))
  {
    var states, actions :| Leads(states, actions, s, u);
    assert Leads(states + [Apply(u, a)], actions + [a], s, Apply(u, a));
  }

  lemma {:induction false} UnpublishedKeepsInv(states: seq<State>, actions: seq<Action>, s: State, u: State, i: nat)
    requires Leads(states, actions, s, u) && Inv(s) && i < |states|
    ensures Inv(states[i])
  {
    if i > 0 {
      UnpublishedKeepsInv(states, actions, s, u, i - 1);
      StepKeepsInv(states[i - 1], actions[i - 1]);
    }
  }

  /** The eviction is at the same step, and its key has both its files. */
  ghost predicate Exposed(s: State, e: TaskId, phase: EvictPhase) {
    && Inv0(s) && Evicts(s, e) && s.tasks[e].evicting == phase && s.tasks[e].key in s.sidecars && s.tasks[e].key in s.files
  }

  /** What a lease file in place says of its lease. */
  ghost predicate Inv0(s: State) {
    forall t :: Json(t) in s.entries ==> Renamed0(s, t) && !s.tasks[t].leasing.Done?
  }

  /** The process that holds a lease file gives it back. */
  lemma {:induction false} GiveBack(s0: State, s: State, e: TaskId, phase: EvictPhase, x: TaskId) returns (u: State)
    requires Reaches(s0, s) && Exposed(s, e, phase) && Json(x) in s.entries && Runs(s, x)
    ensures Reaches(s0, u) && Exposed(u, e, phase) && u.tasks[e] == s.tasks[e] && Json(x) !in u.entries
    decreases if s.tasks[x].leasing.Written? then 2 else if s.tasks[x].leasing.SawSidecar? then 1 else 0
  {
    var a := if s.tasks[x].leasing.Written? then ReadSidecar(x)
             else if s.tasks[x].leasing.SawSidecar? then StatFile(x)
             else UnlinkLease(x);
    Then(s0, s, a);
    u := Apply(s, a);
    if !a.UnlinkLease? { u := GiveBack(s0, u, e, phase, x); }
  }

  /** The scan passes one entry without meeting a live lease. */
  lemma PassOne(s0: State, s: State, e: TaskId, left: set<Entry>, entry: Entry) returns (u: State)
    requires Reaches(s0, s) && Exposed(s, e, Second(Reading(left, false))) && entry in left
    ensures Reaches(s0, u) && Exposed(u, e, Second(Reading(left - {entry}, false))) && u.tasks[e].key == s.tasks[e].key
  {
    u := s;
    if entry.Json? && OwnerLives(s, entry) { u := GiveBack(s0, s, e, Second(Reading(left, false)), entry.t); }
    Then(s0, u, ReadEntry(e, entry, entry.Tmp?));
    u := Apply(u, ReadEntry(e, entry, entry.Tmp?));
    if entry.Json? {
      Then(s0, u, UnlinkEntry(e));
      u := Apply(u, UnlinkEntry(e));
    }
  }

  lemma {:induction false} PassAll(s0: State, s: State, e: TaskId, left: set<Entry>) returns (u: State)
    requires Reaches(s0, s) && Exposed(s, e, Second(Reading(left, false)))
    ensures Reaches(s0, u) && Exposed(u, e, Second(Reading({}, false))) && u.tasks[e].key == s.tasks[e].key
    decreases |left|
  {
    if left == {} {
      u := s;
    } else {
      var entry :| entry in left;
      u := PassOne(s0, s, e, left, entry);
      u := PassAll(s0, u, e, left - {entry});
    }
  }

  /** The eviction comes to remove the file without having met a live lease. */
  lemma ComesToFile(s: State, e: TaskId) returns (u: State)
    requires Inv0(s) && Threatens(s, e) && s.tasks[e].key in s.sidecars && s.tasks[e].key in s.files
    ensures Reaches(s, u) && Evicts(u, e) && u.tasks[e].key == s.tasks[e].key
    ensures Exposed(u, e, DropFile) || Exposed(u, e, Second(Reading({}, false)))
  {
    Stays(s);
    if s.tasks[e].evicting.DropFile? {
      u := s;
      assert Exposed(u, e, DropFile);
    } else {
      var a := if ScanOf(s, e).Listing? then List(e) else UnlinkEntry(e);
      var v := s;
      if !ScanOf(s, e).Reading? {
        Then(s, s, a);
        v := Apply(s, a);
      }
      u := PassAll(s, v, e, ScanOf(v, e).left);
    }
  }

  lemma {:induction false} Unused(tasks: set<TaskId>) returns (n: TaskId)
    ensures forall t :: t in tasks ==> t < n
  {
    if tasks == {} {
      n := 0;
    } else {
      var last :| last in tasks;
      var m := Unused(tasks - {last});
      n := if last < m then m else last + 1;
      forall t | t in tasks ensures t < n { assert t == last || t in tasks - {last}; }
    }
  }

  /** A new lease is taken while the eviction is past its scan. */
  lemma LeaseUnseen(s0: State, s: State, e: TaskId, phase: EvictPhase) returns (u: State, n: TaskId)
    requires Reaches(s0, s) && Exposed(s, e, phase) && e in s.tasks
    ensures Reaches(s0, u) && Evicts(u, e) && u.tasks[e] == s.tasks[e]
    ensures n != e && Leasing(u, n, Held) && u.tasks[n].key == s.tasks[e].key
  {
    n := Unused(s.tasks.Keys);
    assert n !in s.tasks;
    u := s;
    Then(s0, u, Start(n, Leaser(s.tasks[e].pid, s.tasks[e].key, Starting)));
    u := Apply(u, Start(n, Leaser(s.tasks[e].pid, s.tasks[e].key, Starting)));
    Then(s0, u, WriteTmp(n));
    u := Apply(u, WriteTmp(n));
    Then(s0, u, RenameLease(n));
    u := Apply(u, RenameLease(n));
    Then(s0, u, ReadSidecar(n));
    u := Apply(u, ReadSidecar(n));
    Then(s0, u, StatFile(n));
    u := Apply(u, StatFile(n));
  }

  /** With the sidecar back, an eviction that threatens the key can cost a live lease its file. */
  lemma ThreatLosesFile(s: State, e: TaskId) returns (u: State, n: TaskId)
    requires Inv0(s) && Threatens(s, e) && s.tasks[e].key in s.sidecars && s.tasks[e].key in s.files
    ensures Reaches(s, u) && Lost(u, n)
  {
    u := ComesToFile(s, e);
    u, n := LeaseUnseen(s, u, e, u.tasks[e].evicting);
    if !u.tasks[e].evicting.DropFile? {
      Then(s, u, EndScan(e));
      u := Apply(u, EndScan(e));
    }
    Then(s, u, UnlinkFile(e));
    u := Apply(u, UnlinkFile(e));
  }

  /**
   A publish can cost a held lease its file, with no other publish after it,
   exactly when an eviction threatens its key: one that is about to remove the
   file, or is looking for leases again and has met none alive.
   */
  lemma PublishHarmsExactly(s: State, t: TaskId)
    requires Inv(s) && Enabled(s, PutSidecar(t))
    ensures (exists u, n :: Reaches(Apply(s, PutSidecar(t)), u) && Lost(u, n)) <==> Threatened(s, s.tasks[t].key)
  {
    var s' := Apply(s, PutSidecar(t));
    if Threatened(s, s.tasks[t].key) {
      var e :| e in s.tasks && Threatens(s, e) && s.tasks[e].key == s.tasks[t].key;
      var u, n := ThreatLosesFile(s', e);
    } else {
      StepKeepsInv(s, PutSidecar(t));
      forall u, n | Reaches(s', u) ensures !Lost(u, n) {
        var states, actions :| Leads(states, actions, s', u);
        UnpublishedKeepsInv(states, actions, s', u, |states| - 1);
      }
    }
  }

  // ----- the hypothesis is needed -----

  lemma Extend(states: seq<State>, actions: seq<Action>, a: Action) returns (moreStates: seq<State>, moreActions: seq<Action>)
    requires IsRun(states, actions) && Enabled(states[|states| - 1], a)
    ensures IsRun(moreStates, moreActions) && moreStates[0] == states[0]
    ensures moreActions == actions + [a]
    ensures |moreStates| > 0 && moreStates[|moreStates| - 1] == Apply(states[|states| - 1], a)
  {
    moreStates, moreActions := states + [Apply(states[|states| - 1], a)], actions + [a];
  }

  /** One published checkpoint and nothing running. */
  function OnePublished(): State {
    State({0}, {0}, {}, map[], map[], {})
  }

  lemma EvictToTheLock() returns (states: seq<State>, actions: seq<Action>)
    ensures IsRun(states, actions) && states[0] == OnePublished()
    ensures states[|states| - 1] == OnePublished().(tasks := map[1 := Evicter(1, 0, LockRead)])
  {
    states, actions := [OnePublished()], [];
    states, actions := Extend(states, actions, Start(1, Evicter(1, 0, Choosing)));
    states, actions := Extend(states, actions, Choose(1, 0));
    states, actions := Extend(states, actions, List(1));
    states, actions := Extend(states, actions, EndScan(1));
  }

  /** Process 1 has found the key free and removed its sidecar; it will remove the file next. */
  lemma EvictToTheFile() returns (states: seq<State>, actions: seq<Action>)
    ensures IsRun(states, actions) && states[0] == OnePublished()
    ensures states[|states| - 1] == State({0}, {}, {}, map[], map[1 := Evicter(1, 0, DropFile)], {})
  {
    states, actions := EvictToTheLock();
    states, actions := Extend(states, actions, ReadLock(1));
    states, actions := Extend(states, actions, UnlinkSidecar(1));
    states, actions := Extend(states, actions, List(1));
    states, actions := Extend(states, actions, EndScan(1));
  }

  /**
   Process 2 takes the key's lock after the eviction's one lock check and
   publishes again; process 3 leases the new checkpoint; the eviction then
   removes the file process 3 is running on.
   */
  lemma PublishInWindowLosesFile() returns (states: seq<State>, actions: seq<Action>)
    ensures IsRun(states, actions) && Init(states[0])
    ensures Leasing(states[|states| - 1], 3, Held)
    ensures states[|states| - 1].tasks[3].key !in states[|states| - 1].files
  {
    states, actions := EvictToTheFile();
    states, actions := Extend(states, actions, TakeLock(2, 0));
    states, actions := Extend(states, actions, Start(2, Publisher(2, 0, Written0)));
    states, actions := Extend(states, actions, RenameFile(2));
    states, actions := Extend(states, actions, PutSidecar(2));
    var published := State({0}, {0}, {}, map[0 := 2], map[1 := Evicter(1, 0, DropFile), 2 := Publisher(2, 0, Published)], {});
    assert states[|states| - 1] == published;
    states, actions := Extend(states, actions, Start(3, Leaser(3, 0, Starting)));
    states, actions := Extend(states, actions, WriteTmp(3));
    states, actions := Extend(states, actions, RenameLease(3));
    var leasing := published.(entries := {Json(3)}, tasks := published.tasks[3 := Leaser(3, 0, Written)]);
    assert states[|states| - 1] == leasing;
    states, actions := Extend(states, actions, ReadSidecar(3));
    states, actions := Extend(states, actions, StatFile(3));
    states, actions := Extend(states, actions, UnlinkFile(1));
  }
}
