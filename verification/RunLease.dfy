/** The run lease and the journal it fences, under any interleaving. */
module RunLease {
  // src/persistence/run-lease.ts, src/persistence/journal.ts. Processes acquire,
  // append, release and crash between two file operations. The port is an exclusive
  // resource freed by release or death; a process identity and a lease
  // id are never reused; `rename` is atomic and synced bytes survive power loss.

  import opened Outcomes
  import opened JournalText
  import opened Journal

  type Seat = nat
  type LeaseId = nat
  type JournalId = nat

  datatype Record = Record(leaseId: LeaseId, generation: nat)

  datatype Phase =
    | Bound                       // the port is held, the record not yet read
    | Read(previous: nat)         // generation found on disk, 0 when there is no record
    | Held(generation: nat)       // the new record is in place
    | Released(generation: nat)
    | Dead(generation: nat)

  datatype Lease = Lease(seat: Seat, phase: Phase)

  datatype JournalPhase =
    | Opening(content: seq<byte>)
    | Idle
    | Checking(seen: Option<Record>)   // `assertCurrent` has read the record, not yet decided
    | Appending(event: Event, written: nat)
    | Gone                             // its process died

  datatype JournalObject = JournalObject(lease: LeaseId, sequence: nat, phase: JournalPhase, appended: bool)

  datatype State = State(
    runId: seq<byte>,
    port: Option<LeaseId>,
    record: Option<Record>,
    leases: map<LeaseId, Lease>,
    journals: map<JournalId, JournalObject>,
    newest: map<LeaseId, JournalId>,
    file: seq<byte>,
    synced: nat,
    snapshot: Option<nat>)

  datatype Action =
    | Bind(seat: Seat, l: LeaseId)
    | ReadRecord(l: LeaseId)
    | Install(l: LeaseId)
    | MoveRecord(l: LeaseId)      // retention moves the record to trash under its own lease
    | Release(l: LeaseId)
    | OpenRead(l: LeaseId, j: JournalId)
    | OpenRepair(j: JournalId)
    | CheckRead(j: JournalId)
    | Fenced(j: JournalId)        // `assertCurrent` throws
    | StartAppend(j: JournalId, kind: seq<byte>, data: seq<byte>)
    | Write(j: JournalId, bytes: nat)
    | Sync(j: JournalId)
    | PutSnapshot(j: JournalId)
    | Crash(seat: Seat)
    | PowerLoss(kept: nat)

  function Init(runId: seq<byte>): State {
    State(runId, None, None, map[], map[], map[], [], 0, None)
  }

  /** The test `assertCurrent` decides on, given the record it read. */
  predicate Passes(s: State, l: LeaseId, seen: Option<Record>) {
    && l in s.leases && s.leases[l].phase.Held?
    && s.port == Some(l)
    && seen == Some(Record(l, s.leases[l].phase.generation))
  }

  predicate Current(s: State, l: LeaseId) {
    Passes(s, l, s.record)
  }

  predicate Live(p: Phase) { p.Bound? || p.Read? || p.Held? }

  predicate InFlight(p: JournalPhase) { p.Appending? || p.Opening? }

  predicate Enabled(s: State, a: Action) {
    match a
    case Bind(_, l) => s.port == None && l !in s.leases
    case ReadRecord(l) => l in s.leases && s.leases[l].phase.Bound?
    case Install(l) => l in s.leases && s.leases[l].phase.Read?
    case MoveRecord(l) => Current(s, l)
    case Release(l) => l in s.leases && Live(s.leases[l].phase)
    case OpenRead(l, j) => Current(s, l) && j !in s.journals && Parse(s.file, s.runId).Ok?
    case OpenRepair(j) => j in s.journals && s.journals[j].phase.Opening?
    case CheckRead(j) => j in s.journals && s.journals[j].phase.Idle?
    case Fenced(j) => j in s.journals && s.journals[j].phase.Checking?
                      && !Passes(s, s.journals[j].lease, s.journals[j].phase.seen)
    case StartAppend(j, _, _) => j in s.journals && s.journals[j].phase.Checking?
                                 && Passes(s, s.journals[j].lease, s.journals[j].phase.seen)
    case Write(j, bytes) => j in s.journals && s.journals[j].phase.Appending?
                            && s.journals[j].phase.written + bytes <= |Line(s.journals[j].phase.event)|
    case Sync(j) => j in s.journals && s.journals[j].phase.Appending?
                    && s.journals[j].phase.written == |Line(s.journals[j].phase.event)|
    case PutSnapshot(j) => j in s.journals && s.journals[j].phase.Checking?
                           && Passes(s, s.journals[j].lease, s.journals[j].phase.seen)
    case Crash(_) => true
    case PowerLoss(kept) => s.synced <= kept <= |s.file|
  }

  function Ended(p: Phase): Phase {
    match p
    case Held(g) => Dead(g)
    case Released(g) => Dead(g)
    case Dead(g) => p
    case _ => Dead(0)
  }

  /** Every process in `gone` dies: its port is freed and its work stops. */
  function Kill(s: State, gone: Seat -> bool): State {
    s.(
      port := if s.port.Some? && s.port.value in s.leases && gone(s.leases[s.port.value].seat) then None else s.port,
      leases := map l | l in s.leases ::
          if gone(s.leases[l].seat) then s.leases[l].(phase := Ended(s.leases[l].phase)) else s.leases[l],
      journals := map j | j in s.journals ::
        if s.journals[j].lease in s.leases && gone(s.leases[s.journals[j].lease].seat)
        then s.journals[j].(phase := Gone) else s.journals[j])
  }

  function Apply(s: State, a: Action): State
    requires Enabled(s, a)
  {
    match a
    case Bind(seat, l) => s.(port := Some(l), leases := s.leases[l := Lease(seat, Bound)])
    case ReadRecord(l) =>
      s.(leases := s.leases[l := s.leases[l].(phase := Read(if s.record.Some? then s.record.value.generation else 0))])
    case Install(l) =>
      var generation := s.leases[l].phase.previous + 1;
      s.(leases := s.leases[l := s.leases[l].(phase := Held(generation))], record := Some(Record(l, generation)))
    case MoveRecord(l) => s.(record := None)
    case Release(l) =>
      s.(port := if s.port == Some(l) then None else s.port,
         leases := s.leases[l := s.leases[l].(phase := Released(
           if s.leases[l].phase.Held? then s.leases[l].phase.generation else 0))])
    case OpenRead(l, j) =>
      s.(journals := s.journals[j := JournalObject(l, 0, Opening(s.file), false)], newest := s.newest[l := j])
    case OpenRepair(j) =>
      var content := s.journals[j].phase.content;
      var parsed := Parse(content, s.runId);
      var ready := s.journals[j].(phase := Idle, sequence := if parsed.Ok? then |parsed.value| else 0);
      if EndsComplete(content) || |Repaired(content)| > |s.file| then s.(journals := s.journals[j := ready])
      else s.(journals := s.journals[j := ready], file := s.file[..|Repaired(content)|], synced := |Repaired(content)|)
    case CheckRead(j) => s.(journals := s.journals[j := s.journals[j].(phase := Checking(s.record))])
    case Fenced(j) => s.(journals := s.journals[j := s.journals[j].(phase := Idle)])
    case StartAppend(j, kind, data) =>
      s.(journals := s.journals[j := s.journals[j].(phase := Appending(Event(s.journals[j].sequence + 1, s.runId, kind, data), 0))])
    case Write(j, bytes) =>
      var Appending(event, written) := s.journals[j].phase;
      s.(journals := s.journals[j := s.journals[j].(phase := Appending(event, written + bytes))],
         file := s.file + Line(event)[written..written + bytes])
    case Sync(j) =>
      s.(journals := s.journals[j := s.journals[j].(
          phase := Idle, sequence := s.journals[j].phase.event.sequence, appended := true)],
         synced := |s.file|)
    case PutSnapshot(j) =>
      s.(journals := s.journals[j := s.journals[j].(phase := Idle)], snapshot := Some(s.journals[j].sequence))
    case Crash(seat) => Kill(s, x => x == seat)
    case PowerLoss(kept) => Kill(s, x => true).(file := s.file[..kept])
  }

  /**
   What the callers in src/service.ts are relied on for: a lease is not
   released while one of its journals is writing, a second journal object opened
   on a held lease replaces the first one for good, and a snapshot follows an
   append of the same object.
   */
  predicate Disciplined(s: State, a: Action)
    requires Enabled(s, a)
  {
    match a
    case Release(l) => NothingInFlight(s, l)
    case OpenRead(l, _) => NothingInFlight(s, l)
    case StartAppend(j, _, _) => s.journals[j].lease in s.newest && s.newest[s.journals[j].lease] == j
    case PutSnapshot(j) => s.journals[j].appended
    case _ => true
  }

  predicate NothingInFlight(s: State, l: LeaseId) {
    forall j | j in s.journals :: s.journals[j].lease == l ==> !InFlight(s.journals[j].phase)
  }

  ghost predicate IsRun(states: seq<State>, actions: seq<Action>) {
    && |states| == |actions| + 1
    && forall i :: 0 <= i < |actions| ==> Enabled(states[i], actions[i]) && states[i + 1] == Apply(states[i], actions[i])
  }

  ghost predicate IsDisciplinedRun(states: seq<State>, actions: seq<Action>) {
    && IsRun(states, actions)
    && forall i :: 0 <= i < |actions| ==> Disciplined(states[i], actions[i])
  }

  // ----- invariant -----

  /** Only the port's holder is live; the record in place is its own. */
  ghost predicate LeaseInv(s: State) {
    && (s.port.Some? ==> s.port.value in s.leases && Live(s.leases[s.port.value].phase))
    && (forall l | l in s.leases :: Live(s.leases[l].phase) ==> s.port == Some(l))
    && (s.record.Some? ==> RecordInv(s, s.record.value))
    && (forall l | l in s.leases ::
          && (s.leases[l].phase.Held? ==> s.record == None || s.record.value == Record(l, s.leases[l].phase.generation))
          && (s.leases[l].phase.Read? ==>
                s.leases[l].phase.previous == if s.record.Some? then s.record.value.generation else 0))
    && (forall j | j in s.journals :: s.journals[j].lease in s.leases)
  }

  ghost predicate RecordInv(s: State, r: Record) {
    && r.leaseId in s.leases
    && match s.leases[r.leaseId].phase
       case Held(g) => g == r.generation
       case Released(g) => g == r.generation
       case Dead(g) => g == r.generation
       case _ => false
  }

  function EventsIn(content: seq<byte>, runId: seq<byte>): nat {
    match Parse(content, runId)
    case Ok(events) => |events|
    case Err(_) => 0
  }

  /** The synced prefix is a whole journal; no object or snapshot counts past it. */
  ghost predicate DurableInv(s: State) {
    && Parse(s.file, s.runId).Ok?
    && s.synced <= |s.file| && EndsComplete(s.file[..s.synced])
    && (s.snapshot.Some? ==> s.snapshot.value <= EventsIn(s.file[..s.synced], s.runId))
    && (forall j | j in s.journals ::
          s.journals[j].appended ==> s.journals[j].sequence <= EventsIn(s.file[..s.synced], s.runId))
  }

  /** The object in use: the newest one of the lease that holds the port. */
  ghost predicate Using(s: State, j: JournalId) {
    && j in s.journals && !s.journals[j].phase.Gone?
    && s.journals[j].lease in s.leases && Live(s.leases[s.journals[j].lease].phase)
    && s.journals[j].lease in s.newest && s.newest[s.journals[j].lease] == j
  }

  ghost predicate Whole(file: seq<byte>, runId: seq<byte>, events: nat) {
    EndsComplete(file) && Parse(file, runId).Ok? && EventsIn(file, runId) == events
  }

  /** The file is a whole journal of `event.sequence - 1` events and the part of the line written so far. */
  ghost predicate Partly(file: seq<byte>, synced: nat, runId: seq<byte>, event: Event, written: nat) {
    event.runId == runId && event.sequence > 0 && PartOf(file, synced, runId, event.sequence - 1, Line(event), written)
  }

  ghost predicate PartOf(file: seq<byte>, synced: nat, runId: seq<byte>, events: nat, line: seq<byte>, written: nat) {
    && written <= |line| && synced + written <= |file|
    && Whole(file[..|file| - written], runId, events)
    && file == file[..|file| - written] + line[..written]
  }

  /** How the object in use sees the file. */
  ghost predicate FileView(file: seq<byte>, synced: nat, runId: seq<byte>, o: JournalObject) {
    match o.phase
    case Gone => true
    case Opening(content) => content == file && !o.appended
    case Appending(event, written) => event.sequence == o.sequence + 1 && Partly(file, synced, runId, event, written)
    case _ => Whole(file, runId, o.sequence)
  }

  ghost predicate JournalInv(s: State, j: JournalId)
    requires j in s.journals
  {
    && (InFlight(s.journals[j].phase) ==> Using(s, j))
    && (Using(s, j) ==> FileView(s.file, s.synced, s.runId, s.journals[j]))
  }

  ghost predicate JournalsInv(s: State) {
    forall j | j in s.journals :: JournalInv(s, j)
  }

  ghost predicate Inv(s: State) {
    LeaseInv(s) && DurableInv(s) && JournalsInv(s)
  }

  // ----- facts about files -----

  /** A prefix of some lines and a tail is the first few lines and another tail. */
  lemma {:induction false} JoinedPrefix(texts: seq<seq<byte>>, torn: seq<byte>, k: nat) returns (m: nat, tail: seq<byte>)
    requires NoNewline(torn) && (forall i :: 0 <= i < |texts| ==> NoNewline(texts[i])) && k <= |Joined(texts) + torn|
    ensures m <= |texts| && NoNewline(tail) && (Joined(texts) + torn)[..k] == Joined(texts[..m]) + tail
    decreases |texts|
  {
    if texts == [] {
      m, tail := 0, torn[..k];
      assert Joined(texts) + torn == torn && Joined([]) + tail == tail;
    } else if k <= |texts[0]| {
      m, tail := 0, texts[0][..k];
      assert (Joined(texts) + torn)[..k] == tail && Joined([]) + tail == tail;
    } else {
      var line := texts[0] + [NEWLINE];
      var rest := Joined(texts[1..]) + torn;
      assert Joined(texts) + torn == line + rest;
      m, tail := JoinedPrefix(texts[1..], torn, k - |line|);
      assert texts[..m + 1][1..] == texts[1..][..m];
      assert (line + rest)[..k] == line + rest[..k - |line|];
      assert Joined(texts[..m + 1]) + tail == line + (Joined(texts[1..][..m]) + tail);
      m := m + 1;
    }
  }

  /** Any prefix of a readable journal is readable, and holds a prefix of its events. */
  lemma PrefixParses(file: seq<byte>, k: nat, runId: seq<byte>)
    requires k <= |file| && Parse(file, runId).Ok?
    ensures Parse(file[..k], runId).Ok? && Parse(file[..k], runId).value <= Parse(file, runId).value
  {
    ParsedFile(file, runId);
    var texts, events, torn := Records(file), Parse(file, runId).value, file[|Repaired(file)|..];
    assert file == Joined(texts) + torn;
    var m, tail := JoinedPrefix(texts, torn, k);
    ParseComplete(texts[..m], events[..m], tail, runId);
  }

  lemma MoreEvents(file: seq<byte>, small: nat, large: nat, runId: seq<byte>)
    requires small <= large <= |file| && Parse(file, runId).Ok?
    ensures Parse(file[..small], runId).Ok? && Parse(file[..large], runId).Ok?
    ensures Parse(file[..small], runId).value <= Parse(file[..large], runId).value <= Parse(file, runId).value
  {
    PrefixParses(file, large, runId);
    PrefixParses(file[..large], small, runId);
    assert file[..large][..small] == file[..small];
  }

  // ----- preservation, one group of steps at a time -----

  lemma KillKeepsLeases(s: State, gone: Seat -> bool)
    requires LeaseInv(s)
    ensures LeaseInv(Kill(s, gone))
  {
    var t := Kill(s, gone);
    forall l | l in t.leases
      ensures Live(t.leases[l].phase) ==> t.port == Some(l)
      ensures t.leases[l].phase.Held? || t.leases[l].phase.Read? ==> t.leases[l] == s.leases[l]
    {}
    if t.record.Some? {
      var l := t.record.value.leaseId;
      assert RecordInv(s, t.record.value);
      assert t.leases[l].phase == s.leases[l].phase || t.leases[l].phase == Ended(s.leases[l].phase);
    }
  }

  lemma InstallKeepsLeases(s: State, l: LeaseId)
    requires LeaseInv(s) && Enabled(s, Install(l))
    ensures LeaseInv(Apply(s, Install(l)))
  {
    var t := Apply(s, Install(l));
    assert forall k | k in t.leases && k != l :: t.leases[k] == s.leases[k] && !Live(t.leases[k].phase);
  }

  lemma MoveKeepsLeases(s: State, l: LeaseId)
    requires LeaseInv(s) && Enabled(s, MoveRecord(l))
    ensures LeaseInv(Apply(s, MoveRecord(l)))
  {
    var t := Apply(s, MoveRecord(l));
    assert forall k | k in t.leases && k != l :: !Live(t.leases[k].phase);
  }

  lemma ReleaseKeepsLeases(s: State, l: LeaseId)
    requires LeaseInv(s) && Enabled(s, Release(l))
    ensures LeaseInv(Apply(s, Release(l)))
  {
    var t := Apply(s, Release(l));
    assert s.port == Some(l);
    assert forall k | k in t.leases && k != l :: t.leases[k] == s.leases[k] && !Live(t.leases[k].phase);
    if t.record.Some? { assert RecordInv(s, t.record.value); }
  }

  lemma BindKeepsLeases(s: State, seat: Seat, l: LeaseId)
    requires LeaseInv(s) && Enabled(s, Bind(seat, l))
    ensures LeaseInv(Apply(s, Bind(seat, l)))
  {
    var t := Apply(s, Bind(seat, l));
    assert forall k | k in t.leases && k != l :: t.leases[k] == s.leases[k] && !Live(t.leases[k].phase);
    if t.record.Some? { assert RecordInv(s, t.record.value); }
  }

  lemma ReadKeepsLeases(s: State, l: LeaseId)
    requires LeaseInv(s) && Enabled(s, ReadRecord(l))
    ensures LeaseInv(Apply(s, ReadRecord(l)))
  {
    var t := Apply(s, ReadRecord(l));
    assert forall k | k in t.leases && k != l :: t.leases[k] == s.leases[k];
    if t.record.Some? { assert RecordInv(s, t.record.value); }
  }

  lemma LeaseStep(s: State, a: Action)
    requires LeaseInv(s) && Enabled(s, a)
    ensures LeaseInv(Apply(s, a))
  {
    if a.Bind? { BindKeepsLeases(s, a.seat, a.l); }
    else if a.ReadRecord? { ReadKeepsLeases(s, a.l); }
    else if a.Install? { InstallKeepsLeases(s, a.l); }
    else if a.MoveRecord? { MoveKeepsLeases(s, a.l); }
    else if a.Release? { ReleaseKeepsLeases(s, a.l); }
    else if a.Crash? { KillKeepsLeases(s, x => x == a.seat); }
    else if a.PowerLoss? {
      KillKeepsLeases(s, x => true);
      SameLeases(Kill(s, x => true), Apply(s, a));
    } else { JournalStepKeepsLeases(s, a); }
  }

  /** A step of a journal object leaves the leases alone. */
  lemma JournalStepKeepsLeases(s: State, a: Action)
    requires LeaseInv(s) && Enabled(s, a)
    requires !a.Bind? && !a.ReadRecord? && !a.Install? && !a.MoveRecord? && !a.Release? && !a.Crash? && !a.PowerLoss?
    ensures LeaseInv(Apply(s, a))
  {
    var t := Apply(s, a);
    if a.OpenRead? { assert t.journals[a.j].lease == a.l; } else { SameObjects(s, a); }
    SameLeases(s, t);
  }

  lemma SameObjects(s: State, a: Action)
    requires Enabled(s, a) && !a.OpenRead? && !a.Bind? && !a.ReadRecord? && !a.Install? && !a.MoveRecord? && !a.Release?
    requires !a.Crash? && !a.PowerLoss?
    ensures var t := Apply(s, a);
            && t.port == s.port && t.record == s.record && t.leases == s.leases && t.journals.Keys == s.journals.Keys
            && forall j :: j in t.journals ==> t.journals[j].lease == s.journals[j].lease
  {}

  lemma SameLeases(s: State, t: State)
    requires LeaseInv(s) && t.port == s.port && t.record == s.record && t.leases == s.leases
    requires forall j | j in t.journals :: t.journals[j].lease in s.leases
    ensures LeaseInv(t)
  {
    if t.record.Some? { assert RecordInv(s, t.record.value); }
  }

  // ----- the file under one step of the object in use -----

  /** What is synced and complete lies before the torn tail. */
  lemma {:induction false} SyncedBeforeTail(file: seq<byte>, synced: nat)
    requires synced <= |file| && EndsComplete(file[..synced])
    ensures synced <= |Repaired(file)|
  {
    if file != [] && file[|file| - 1] != NEWLINE {
      assert file[..|file|] == file;
      assert synced < |file|;
      assert file[..|file| - 1][..synced] == file[..synced];
      SyncedBeforeTail(file[..|file| - 1], synced);
    }
  }

  lemma SyncedSurvivesRepair(file: seq<byte>, synced: nat, runId: seq<byte>)
    requires Parse(file, runId).Ok? && synced <= |file| && EndsComplete(file[..synced])
    ensures synced <= |Repaired(file)|
    ensures EventsIn(file[..synced], runId) <= EventsIn(Repaired(file), runId)
    ensures file[..|Repaired(file)|] == Repaired(file)
    ensures Whole(Repaired(file), runId, EventsIn(file, runId))
    ensures EndsComplete(file) ==> Repaired(file) == file
  {
    RepairKeepsEvents(file, runId);
    SyncedBeforeTail(file, synced);
    assert file[..|Repaired(file)|] == Repaired(file);
    MoreEvents(file, synced, |Repaired(file)|, runId);
  }

  lemma WriteView(file: seq<byte>, synced: nat, runId: seq<byte>, events: nat, line: seq<byte>, written: nat, bytes: nat)
    requires PartOf(file, synced, runId, events, line, written) && written + bytes <= |line|
    ensures PartOf(file + line[written..written + bytes], synced, runId, events, line, written + bytes)
  {
    MoreOfLine(file, file[..|file| - written], line, written, bytes);
  }

  /** Writing more of the line leaves the part of the line written so far, which is longer. */
  lemma WriteMore(file: seq<byte>, synced: nat, runId: seq<byte>, event: Event, written: nat, bytes: nat)
    requires Partly(file, synced, runId, event, written) && written + bytes <= |Line(event)|
    ensures Partly(file + Line(event)[written..written + bytes], synced, runId, event, written + bytes)
  {
    var line := Line(event);
    WriteView(file, synced, runId, event.sequence - 1, line, written, bytes);
  }

  /** A whole journal and part of the next line can be read. */
  lemma PartlyParses(file: seq<byte>, synced: nat, runId: seq<byte>, event: Event, written: nat)
    requires Partly(file, synced, runId, event, written)
    ensures Parse(file, runId).Ok?
  {
    CrashedAppend(file[..|file| - written], runId, event, written);
  }

  lemma MoreOfLine(file: seq<byte>, base: seq<byte>, line: seq<byte>, written: nat, bytes: nat)
    requires written + bytes <= |line| && file == base + line[..written]
    ensures var more := file + line[written..written + bytes];
            more == base + line[..written + bytes] && more[..|more| - (written + bytes)] == base
  {
    assert line[..written] + line[written..written + bytes] == line[..written + bytes];
    assert file + line[written..written + bytes] == base + (line[..written] + line[written..written + bytes]);
  }

  lemma TakeOfAppend(file: seq<byte>, more: seq<byte>, k: nat)
    requires k <= |file|
    ensures (file + more)[..k] == file[..k]
  {}

  lemma SyncView(file: seq<byte>, synced: nat, runId: seq<byte>, event: Event)
    requires Partly(file, synced, runId, event, |Line(event)|)
    ensures Whole(file, runId, event.sequence)
  {
    var base := file[..|file| - |Line(event)|];
    assert Line(event)[..|Line(event)|] == Line(event);
    AppendParsesExactly(base, runId, event);
    assert file[|file| - 1] == Line(event)[|Line(event)| - 1];
  }

  lemma StartView(file: seq<byte>, synced: nat, runId: seq<byte>, event: Event)
    requires event.sequence > 0 && event.runId == runId && synced <= |file| && Whole(file, runId, event.sequence - 1)
    ensures Partly(file, synced, runId, event, 0)
  {
    assert file[..|file| - 0] == file;
    assert file == file + Line(event)[..0];
  }

  lemma OneInUse(s: State, i: JournalId, j: JournalId)
    requires LeaseInv(s) && Using(s, i) && Using(s, j)
    ensures i == j
  {}

  /** Only `j`'s view matters while `j` is in use before and after the step. */
  lemma FrameJournals(s: State, t: State, j: JournalId)
    requires LeaseInv(s) && JournalsInv(s) && Using(s, j) && Using(t, j)
    requires t.leases == s.leases && t.newest == s.newest && t.port == s.port
    requires t.journals.Keys == s.journals.Keys && forall i | i in s.journals && i != j :: t.journals[i] == s.journals[i]
    requires FileView(t.file, t.synced, t.runId, t.journals[j])
    ensures JournalsInv(t)
  {
    forall i | i in t.journals ensures JournalInv(t, i) {
      if i != j {
        assert JournalInv(s, i);
        if Using(s, i) { OneInUse(s, i, j); }
      }
    }
  }

  // ----- steps -----

  lemma OpenRepairStep(s: State, j: JournalId)
    requires Inv(s) && Enabled(s, OpenRepair(j))
    ensures Inv(Apply(s, OpenRepair(j)))
  {
    var t := Apply(s, OpenRepair(j));
    LeaseStep(s, OpenRepair(j));
    assert JournalInv(s, j);
    SyncedSurvivesRepair(s.file, s.synced, s.runId);
    assert t.file == Repaired(s.file);
    if EndsComplete(s.file) {
      assert t.synced == s.synced;
    } else {
      assert t.file[..t.synced] == t.file;
    }
    FrameJournals(s, t, j);
  }

  /** The object in use sees the bytes it has just written. */
  lemma WriteFile(file: seq<byte>, synced: nat, runId: seq<byte>, o: JournalObject, bytes: nat, part: seq<byte>)
    requires o.phase.Appending? && FileView(file, synced, runId, o) && o.phase.written + bytes <= |Line(o.phase.event)|
    requires part == Line(o.phase.event)[o.phase.written..o.phase.written + bytes]
    ensures FileView(file + part, synced, runId, o.(phase := Appending(o.phase.event, o.phase.written + bytes)))
    ensures Parse(file + part, runId).Ok?
  {
    var event, written := o.phase.event, o.phase.written;
    WriteMore(file, synced, runId, event, written, bytes);
    PartlyParses(file + part, synced, runId, event, written + bytes);
  }

  /** The object after the write, and the file with the bytes written. */
  lemma WriteIs(s: State, j: JournalId, bytes: nat) returns (o: JournalObject, part: seq<byte>)
    requires Inv(s) && Enabled(s, Write(j, bytes))
    ensures Apply(s, Write(j, bytes)) == s.(journals := s.journals[j := o], file := s.file + part)
    ensures o.appended == s.journals[j].appended && o.sequence == s.journals[j].sequence && o.lease == s.journals[j].lease
    ensures !o.phase.Gone? && s.synced <= |s.file|
    ensures FileView(s.file + part, s.synced, s.runId, o) && Parse(s.file + part, s.runId).Ok? && Using(s, j)
  {
    assert JournalInv(s, j);
    var phase := s.journals[j].phase;
    part := Line(phase.event)[phase.written..phase.written + bytes];
    o := s.journals[j].(phase := Appending(phase.event, phase.written + bytes));
    WriteFile(s.file, s.synced, s.runId, s.journals[j], bytes, part);
  }

  /** More bytes at the end and another phase of one object make no difference to what is durable. */
  lemma DurableMore(s: State, j: JournalId, o: JournalObject, part: seq<byte>)
    requires DurableInv(s) && j in s.journals && o.appended == s.journals[j].appended && o.sequence == s.journals[j].sequence
    requires Parse(s.file + part, s.runId).Ok?
    ensures DurableInv(s.(journals := s.journals[j := o], file := s.file + part))
  {
    TakeOfAppend(s.file, part, s.synced);
    DurableStays(s, s.(journals := s.journals[j := o], file := s.file + part));
  }

  lemma WriteStep(s: State, j: JournalId, bytes: nat)
    requires Inv(s) && Enabled(s, Write(j, bytes))
    ensures Inv(Apply(s, Write(j, bytes)))
  {
    LeaseStep(s, Write(j, bytes));
    var o, part := WriteIs(s, j, bytes);
    FrameJournals(s, s.(journals := s.journals[j := o], file := s.file + part), j);
    DurableMore(s, j, o, part);
  }

  /** Bytes past the synced prefix make no difference to what is durable. */
  lemma DurableStays(s: State, t: State)
    requires DurableInv(s) && t.runId == s.runId && t.synced == s.synced && t.snapshot == s.snapshot
    requires t.synced <= |t.file| && t.file[..t.synced] == s.file[..s.synced] && Parse(t.file, t.runId).Ok?
    requires forall j | j in t.journals ::
               j in s.journals && t.journals[j].appended == s.journals[j].appended
                   && t.journals[j].sequence == s.journals[j].sequence
    ensures DurableInv(t)
  {}

  lemma SyncStep(s: State, j: JournalId)
    requires Inv(s) && Enabled(s, Sync(j))
    ensures Inv(Apply(s, Sync(j)))
  {
    var t := Apply(s, Sync(j));
    LeaseStep(s, Sync(j));
    assert JournalInv(s, j);
    SyncFile(s, j);
    FrameJournals(s, t, j);
    SyncDurable(s, j);
  }

  /** Once synced, the object in use counts the whole file. */
  lemma SyncFile(s: State, j: JournalId)
    requires Inv(s) && Enabled(s, Sync(j))
    ensures var t := Apply(s, Sync(j));
            FileView(t.file, t.synced, t.runId, t.journals[j]) && Whole(s.file, s.runId, s.journals[j].phase.event.sequence)
  {
    assert JournalInv(s, j);
    SyncView(s.file, s.synced, s.runId, s.journals[j].phase.event);
  }

  /** Once synced, the whole file is durable. */
  lemma SyncDurable(s: State, j: JournalId)
    requires DurableInv(s) && Enabled(s, Sync(j)) && Whole(s.file, s.runId, s.journals[j].phase.event.sequence)
    ensures DurableInv(Apply(s, Sync(j)))
  {
    assert s.file[..|s.file|] == s.file;
    MoreEvents(s.file, s.synced, |s.file|, s.runId);
  }

  lemma StartStep(s: State, a: Action)
    requires a.StartAppend? && Inv(s) && Enabled(s, a) && Disciplined(s, a)
    ensures Inv(Apply(s, a))
  {
    var t := Apply(s, a);
    LeaseStep(s, a);
    assert JournalInv(s, a.j);
    StartView(s.file, s.synced, s.runId, t.journals[a.j].phase.event);
    FrameJournals(s, t, a.j);
  }

  lemma KillStep(s: State, gone: Seat -> bool)
    requires Inv(s)
    ensures Inv(Kill(s, gone))
  {
    KillKeepsLeases(s, gone);
    var t := Kill(s, gone);
    forall j | j in t.journals ensures JournalInv(t, j) {
      assert JournalInv(s, j);
      assert Using(t, j) ==> Using(s, j);
    }
  }

  lemma PowerLossStep(s: State, kept: nat)
    requires Inv(s) && Enabled(s, PowerLoss(kept))
    ensures Inv(Apply(s, PowerLoss(kept)))
  {
    var k := Kill(s, x => true);
    KillStep(s, x => true);
    var t := Apply(s, PowerLoss(kept));
    SameLeases(k, t);
    MoreEvents(s.file, s.synced, kept, s.runId);
    assert t.file[..t.synced] == s.file[..s.synced];
    forall j | j in t.journals ensures JournalInv(t, j) {
      assert t.journals[j].phase == Gone;
    }
  }

  /** A lease step keeps every view: it puts no other object in use and leaves the file alone. */
  lemma LeaseOnlyStep(s: State, a: Action)
    requires Inv(s) && Enabled(s, a) && Disciplined(s, a)
    requires a.Bind? || a.ReadRecord? || a.Install? || a.MoveRecord? || a.Release?
    ensures Inv(Apply(s, a))
  {
    LeaseStep(s, a);
    var t := Apply(s, a);
    forall j | j in t.journals ensures JournalInv(t, j) {
      assert JournalInv(s, j);
      assert Using(t, j) ==> Using(s, j);
    }
  }

  lemma OpenReadStep(s: State, l: LeaseId, j: JournalId)
    requires Inv(s) && Enabled(s, OpenRead(l, j)) && Disciplined(s, OpenRead(l, j))
    ensures Inv(Apply(s, OpenRead(l, j)))
  {
    var t := Apply(s, OpenRead(l, j));
    LeaseStep(s, OpenRead(l, j));
    forall i | i in t.journals ensures JournalInv(t, i) {
      if i != j {
        assert JournalInv(s, i);
        assert Using(t, i) ==> Using(s, i);
      }
    }
  }

  /** Steps that only move one object between idle and checking. */
  lemma IdleStep(s: State, a: Action)
    requires Inv(s) && Enabled(s, a) && Disciplined(s, a)
    requires a.CheckRead? || a.Fenced? || a.PutSnapshot?
    ensures Inv(Apply(s, a))
  {
    LeaseStep(s, a);
    var t := Apply(s, a);
    forall i | i in t.journals ensures JournalInv(t, i) {
      assert JournalInv(s, i);
      assert Using(t, i) ==> Using(s, i);
    }
  }

  lemma StepKeepsInv(s: State, a: Action)
    requires Inv(s) && Enabled(s, a) && Disciplined(s, a)
    ensures Inv(Apply(s, a))
  {
    match a
    case OpenRepair(j) => OpenRepairStep(s, j);
    case Write(j, bytes) => WriteStep(s, j, bytes);
    case Sync(j) => SyncStep(s, j);
    case StartAppend(_, _, _) => StartStep(s, a);
    case OpenRead(l, j) => OpenReadStep(s, l, j);
    case Crash(seat) => KillStep(s, x => x == seat);
    case PowerLoss(kept) => PowerLossStep(s, kept);
    case CheckRead(_) => IdleStep(s, a);
    case Fenced(_) => IdleStep(s, a);
    case PutSnapshot(_) => IdleStep(s, a);
    case _ => LeaseOnlyStep(s, a);
  }

  // ----- whole runs -----

  lemma InitInv(runId: seq<byte>)
    ensures Inv(Init(runId))
  {
    NoNewlineAt([]);
  }

  lemma {:induction false} RunKeepsLeases(states: seq<State>, actions: seq<Action>, runId: seq<byte>, i: nat)
    requires IsRun(states, actions) && states[0] == Init(runId) && i < |states|
    ensures LeaseInv(states[i])
  {
    if i == 0 {
      InitInv(runId);
    } else {
      RunKeepsLeases(states, actions, runId, i - 1);
      LeaseStep(states[i - 1], actions[i - 1]);
    }
  }

  lemma {:induction false} RunKeepsInv(states: seq<State>, actions: seq<Action>, runId: seq<byte>, i: nat)
    requires IsDisciplinedRun(states, actions) && states[0] == Init(runId) && i < |states|
    ensures Inv(states[i]) && states[i].runId == runId
  {
    if i == 0 {
      InitInv(runId);
    } else {
      RunKeepsInv(states, actions, runId, i - 1);
      StepKeepsInv(states[i - 1], actions[i - 1]);
    }
  }

  /** At most one lease of a run passes `assertCurrent`, in every run whatsoever. */
  lemma AtMostOneCurrent(states: seq<State>, actions: seq<Action>, runId: seq<byte>, i: nat, l: LeaseId, k: LeaseId)
    requires IsRun(states, actions) && states[0] == Init(runId) && i < |states|
    requires Current(states[i], l) && Current(states[i], k)
    ensures l == k && forall other | other in states[i].leases && other != l :: !Live(states[i].leases[other].phase)
  {
    RunKeepsLeases(states, actions, runId, i);
  }

  predicate Over(s: State, l: LeaseId) {
    l in s.leases && (s.leases[l].phase.Released? || s.leases[l].phase.Dead?)
  }

  lemma {:induction false} HoldsFrom(kept: seq<bool>, i: nat, j: nat)
    requires i <= j < |kept| && kept[i] && forall k :: i <= k < j ==> kept[k] ==> kept[k + 1]
    ensures kept[j]
    decreases j - i
  {
    if i < j { HoldsFrom(kept, i, j - 1); }
  }

  lemma OverDoesNotPass(s: State, l: LeaseId, seen: Option<Record>)
    requires Over(s, l)
    ensures !Passes(s, l, seen)
  {}

  /** A released or dead lease never passes again, even with a record read earlier. */
  lemma OverNeverPasses(states: seq<State>, actions: seq<Action>, i: nat, j: nat, l: LeaseId, seen: Option<Record>)
    requires IsRun(states, actions) && i <= j < |states| && Over(states[i], l)
    ensures Over(states[j], l) && !Passes(states[j], l, seen)
  {
    var over := seq(|states|, k requires 0 <= k < |states| => Over(states[k], l));
    forall k | i <= k < j && over[k] ensures over[k + 1] { OverStep(states, actions, k, l); }
    HoldsFrom(over, i, j);
    OverDoesNotPass(states[j], l, seen);
  }

  lemma OverStep(states: seq<State>, actions: seq<Action>, k: nat, l: LeaseId)
    requires IsRun(states, actions) && k < |actions| && Over(states[k], l)
    ensures Over(states[k + 1], l)
  {
    var s, a := states[k], actions[k];
    assert states[k + 1] == Apply(s, a);
    if a.Crash? {
      KilledStaysOver(s, x => x == a.seat, l);
    } else if a.PowerLoss? {
      KilledStaysOver(s, x => true, l);
    } else {
      OtherStepKeepsOver(s, a, l);
    }
  }

  lemma KilledStaysOver(s: State, gone: Seat -> bool, l: LeaseId)
    requires Over(s, l)
    ensures Over(Kill(s, gone), l)
  {}

  lemma OtherStepKeepsOver(s: State, a: Action, l: LeaseId)
    requires Enabled(s, a) && !a.Crash? && !a.PowerLoss? && Over(s, l)
    ensures Over(Apply(s, a), l)
  {}

  lemma RecordStep(s: State, a: Action)
    requires LeaseInv(s) && Enabled(s, a) && !a.MoveRecord? && s.record.Some?
    ensures Apply(s, a).record.Some?
    ensures Apply(s, a).record == s.record || s.record.value.generation < Apply(s, a).record.value.generation
  {}

  /** While nobody moves the record away, each new lease carries a larger generation. */
  lemma {:induction false} GenerationsIncrease(states: seq<State>, actions: seq<Action>, runId: seq<byte>, i: nat, j: nat)
    requires IsRun(states, actions) && states[0] == Init(runId) && i <= j < |states|
    requires forall k :: i <= k < j ==> !actions[k].MoveRecord?
    requires states[i].record.Some?
    ensures states[j].record.Some?
    ensures states[i].record == states[j].record || states[i].record.value.generation < states[j].record.value.generation
    decreases j - i
  {
    if i < j {
      GenerationsIncrease(states, actions, runId, i, j - 1);
      RunKeepsLeases(states, actions, runId, j - 1);
      RecordStep(states[j - 1], actions[j - 1]);
    }
  }

  /** In a disciplined run the journal on disk always holds sequences 1..n, and no snapshot counts past them. */
  lemma JournalAlwaysWhole(states: seq<State>, actions: seq<Action>, runId: seq<byte>, i: nat)
    requires IsDisciplinedRun(states, actions) && states[0] == Init(runId) && i < |states|
    ensures Parse(states[i].file, runId).Ok? && WellSequenced(Parse(states[i].file, runId).value, runId)
    ensures states[i].snapshot.Some? ==> states[i].snapshot.value <= |Parse(states[i].file, runId).value|
  {
    RunKeepsInv(states, actions, runId, i);
    ParsedFile(states[i].file, runId);
    MoreEvents(states[i].file, states[i].synced, |states[i].file|, runId);
    assert states[i].file[..|states[i].file|] == states[i].file;
  }

  lemma SyncedGrows(s: State, a: Action)
    requires Inv(s) && Enabled(s, a)
    ensures s.synced <= |s.file| && Apply(s, a).synced <= |Apply(s, a).file|
    ensures s.file[..s.synced] <= Apply(s, a).file[..Apply(s, a).synced]
  {
    if a.OpenRepair? {
      assert JournalInv(s, a.j);
      SyncedSurvivesRepair(s.file, s.synced, s.runId);
    }
  }

  /** What a power loss cannot take. */
  function Durable(s: State): seq<byte> {
    if s.synced <= |s.file| then s.file[..s.synced] else []
  }

  lemma StepKeepsDurable(states: seq<State>, actions: seq<Action>, runId: seq<byte>, i: nat)
    requires IsDisciplinedRun(states, actions) && states[0] == Init(runId) && i < |actions|
    ensures Durable(states[i]) <= Durable(states[i + 1])
  {
    RunKeepsInv(states, actions, runId, i);
    SyncedGrows(states[i], actions[i]);
  }

  lemma DurableGrows(states: seq<State>, actions: seq<Action>, runId: seq<byte>, i: nat, j: nat)
    requires IsDisciplinedRun(states, actions) && states[0] == Init(runId) && i <= j < |states|
    ensures Durable(states[i]) <= Durable(states[j])
  {
    var kept := seq(|states|, k requires 0 <= k < |states| => Durable(states[k]));
    forall k | 0 <= k < |kept| - 1 ensures kept[k] <= kept[k + 1] {
      StepKeepsDurable(states, actions, runId, k);
    }
    ChainOfPrefixes(kept, i, j);
  }

  lemma {:induction false} ChainOfPrefixes(chain: seq<seq<byte>>, i: nat, j: nat)
    requires i <= j < |chain| && forall k :: 0 <= k < |chain| - 1 ==> chain[k] <= chain[k + 1]
    ensures chain[i] <= chain[j]
    decreases j - i
  {
    if i < j {
      ChainOfPrefixes(chain, i, j - 1);
      assert chain[j - 1] <= chain[j - 1 + 1];
      PrefixOfPrefix(chain[i], chain[j - 1], chain[j]);
    }
  }

  lemma PrefixOfPrefix(a: seq<byte>, b: seq<byte>, c: seq<byte>)
    requires a <= b && b <= c
    ensures a <= c
  {}

  lemma PrefixEvents(prefix: seq<byte>, file: seq<byte>, runId: seq<byte>)
    requires prefix <= file && Parse(file, runId).Ok?
    ensures Parse(prefix, runId).Ok? && Parse(prefix, runId).value <= Parse(file, runId).value
  {
    assert file[..|prefix|] == prefix && file[..|file|] == file;
    MoreEvents(file, |prefix|, |file|, runId);
  }

  /** An event whose append was acknowledged is in every later journal, in its place. */
  lemma SyncedNeverLost(states: seq<State>, actions: seq<Action>, runId: seq<byte>, i: nat, j: nat)
    requires IsDisciplinedRun(states, actions) && states[0] == Init(runId) && i <= j < |states|
    ensures states[i].synced <= |states[i].file| && Parse(states[j].file, runId).Ok?
    ensures Parse(Durable(states[i]), runId).Ok?
    ensures Parse(Durable(states[i]), runId).value <= Parse(states[j].file, runId).value
  {
    DurableGrows(states, actions, runId, i, j);
    DurableReads(states, actions, runId, i);
    DurableReads(states, actions, runId, j);
    PrefixOfPrefix(Durable(states[i]), Durable(states[j]), states[j].file);
    PrefixEvents(Durable(states[i]), states[j].file, runId);
  }

  lemma DurableReads(states: seq<State>, actions: seq<Action>, runId: seq<byte>, i: nat)
    requires IsDisciplinedRun(states, actions) && states[0] == Init(runId) && i < |states|
    ensures states[i].synced <= |states[i].file| && Parse(states[i].file, runId).Ok?
    ensures Durable(states[i]) <= states[i].file
  {
    RunKeepsInv(states, actions, runId, i);
  }

  /**
   A journal object that passes the fence keeps the file readable exactly when
   it has counted every event already there. The fence alone does not give this.
   */
  lemma FencedAppendParsesExactly(s: State, j: JournalId, kind: seq<byte>, data: seq<byte>)
    requires Inv(s) && EndsComplete(s.file) && Enabled(s, StartAppend(j, kind, data))
    ensures var started := Apply(s, StartAppend(j, kind, data));
            var line := Line(started.journals[j].phase.event);
            && Enabled(started, Write(j, |line|))
            && (Parse(Apply(started, Write(j, |line|)).file, s.runId).Ok? <==> s.journals[j].sequence == EventsIn(s.file, s.runId))
  {
    var started := Apply(s, StartAppend(j, kind, data));
    var event := started.journals[j].phase.event;
    WholeWrite(started, j);
    AppendParsesExactly(s.file, s.runId, event);
  }

  lemma WholeWrite(s: State, j: JournalId)
    requires j in s.journals && s.journals[j].phase.Appending? && s.journals[j].phase.written == 0
    ensures var line := Line(s.journals[j].phase.event);
            && Enabled(s, Write(j, |line|))
            && Apply(s, Write(j, |line|)) == s.(file := s.file + line, journals := s.journals[j :=
                 s.journals[j].(phase := Appending(s.journals[j].phase.event, |line|))])
  {
    var line := Line(s.journals[j].phase.event);
    assert line[0..|line|] == line;
  }

  /** A run whose every step keeps the discipline except that any object may start an append. */
  ghost predicate OnlyAppendsLoose(states: seq<State>, actions: seq<Action>) {
    && IsRun(states, actions)
    && forall i :: 0 <= i < |actions| ==> actions[i].StartAppend? || Disciplined(states[i], actions[i])
  }

  lemma JoinRuns(states: seq<State>, actions: seq<Action>, moreStates: seq<State>, moreActions: seq<Action>)
    requires OnlyAppendsLoose(states, actions) && OnlyAppendsLoose(moreStates, moreActions)
    requires states[|states| - 1] == moreStates[0]
    ensures OnlyAppendsLoose(states + moreStates[1..], actions + moreActions)
    ensures (states + moreStates[1..])[|states + moreStates[1..]| - 1] == moreStates[|moreStates| - 1]
  {
    var all := states + moreStates[1..];
    forall i | 0 <= i <= |moreActions| ensures all[|actions| + i] == moreStates[i] {}
  }

  lemma Extend(states: seq<State>, actions: seq<Action>, a: Action) returns (moreStates: seq<State>, moreActions: seq<Action>)
    requires OnlyAppendsLoose(states, actions)
    requires Enabled(states[|states| - 1], a) && (a.StartAppend? || Disciplined(states[|states| - 1], a))
    ensures OnlyAppendsLoose(moreStates, moreActions) && moreStates[0] == states[0]
    ensures |moreStates| > 0 && moreStates[|moreStates| - 1] == Apply(states[|states| - 1], a)
  {
    moreStates, moreActions := states + [Apply(states[|states| - 1], a)], actions + [a];
  }

  /** One lease, two journal objects opened on it, both counting the same events. */
  function BothOpen(runId: seq<byte>): State {
    State(runId, Some(0), Some(Record(0, 1)), map[0 := Lease(0, Held(1))],
          map[1 := JournalObject(0, 0, Idle, false), 2 := JournalObject(0, 0, Idle, false)], map[0 := 2], [], 0, None)
  }

  lemma OpenEmpty(s: State, l: LeaseId, j: JournalId) returns (states: seq<State>, actions: seq<Action>)
    requires Current(s, l) && j !in s.journals && s.file == [] && NothingInFlight(s, l)
    ensures OnlyAppendsLoose(states, actions) && states[0] == s
    ensures states[|states| - 1] == s.(journals := s.journals[j := JournalObject(l, 0, Idle, false)], newest := s.newest[l := j])
  {
    NoNewlineAt([]);
    states, actions := [s], [];
    states, actions := Extend(states, actions, OpenRead(l, j));
    states, actions := Extend(states, actions, OpenRepair(j));
  }

  lemma OpenTwice(runId: seq<byte>) returns (states: seq<State>, actions: seq<Action>)
    ensures OnlyAppendsLoose(states, actions) && states[0] == Init(runId) && states[|states| - 1] == BothOpen(runId)
  {
    states, actions := [Init(runId)], [];
    states, actions := Extend(states, actions, Bind(0, 0));
    states, actions := Extend(states, actions, ReadRecord(0));
    states, actions := Extend(states, actions, Install(0));
    var held := State(runId, Some(0), Some(Record(0, 1)), map[0 := Lease(0, Held(1))], map[], map[], [], 0, None);
    assert states[|states| - 1] == held;
    var states1, actions1 := OpenEmpty(held, 0, 1);
    var states2, actions2 := OpenEmpty(states1[|states1| - 1], 0, 2);
    JoinRuns(states, actions, states1, actions1);
    states, actions := states + states1[1..], actions + actions1;
    JoinRuns(states, actions, states2, actions2);
    states, actions := states + states2[1..], actions + actions2;
  }

  lemma AppendBegun(s: State, j: JournalId, kind: seq<byte>, data: seq<byte>)
      returns (states: seq<State>, actions: seq<Action>)
    requires j in s.journals && s.journals[j].phase.Idle? && Current(s, s.journals[j].lease)
    ensures OnlyAppendsLoose(states, actions) && states[0] == s
    ensures states[|states| - 1] == s.(journals := s.journals[j :=
              s.journals[j].(phase := Appending(Event(s.journals[j].sequence + 1, s.runId, kind, data), 0))])
  {
    states, actions := [s], [];
    states, actions := Extend(states, actions, CheckRead(j));
    states, actions := Extend(states, actions, StartAppend(j, kind, data));
  }

  /** One whole append by object `j`, whatever the file already holds. */
  lemma AppendOnce(s: State, j: JournalId, kind: seq<byte>, data: seq<byte>)
      returns (states: seq<State>, actions: seq<Action>)
    requires j in s.journals && s.journals[j].phase.Idle? && Current(s, s.journals[j].lease)
    ensures OnlyAppendsLoose(states, actions) && states[0] == s
    ensures var event := Event(s.journals[j].sequence + 1, s.runId, kind, data);
            states[|states| - 1] == s.(file := s.file + Line(event), synced := |s.file + Line(event)|,
              journals := s.journals[j := s.journals[j].(sequence := event.sequence, appended := true)])
  {
    states, actions := AppendBegun(s, j, kind, data);
    var begun := states[|states| - 1];
    WholeWrite(begun, j);
    states, actions := Extend(states, actions, Write(j, |Line(begun.journals[j].phase.event)|));
    states, actions := Extend(states, actions, Sync(j));
  }

  /** The same first event twice is not a journal. */
  lemma TwiceFirst(runId: seq<byte>, kind: seq<byte>, data: seq<byte>)
    ensures var line := Line(Event(1, runId, kind, data));
            Parse([] + line + line, runId).Err?
  {
    var first := Event(1, runId, kind, data);
    NoNewlineAt([]);
    AppendParsesExactly([], runId, first);
    assert [] + Line(first) == Line(first);
    AppendParsesExactly(Line(first), runId, first);
  }

  lemma AppendTwice(runId: seq<byte>, kind: seq<byte>, data: seq<byte>)
      returns (states: seq<State>, actions: seq<Action>)
    ensures OnlyAppendsLoose(states, actions) && states[0] == BothOpen(runId)
    ensures var line := Line(Event(1, runId, kind, data));
            states[|states| - 1].file == [] + line + line
  {
    var s := BothOpen(runId);
    var states1, actions1 := AppendOnce(s, 1, kind, data);
    var states2, actions2 := AppendOnce(states1[|states1| - 1], 2, kind, data);
    JoinRuns(states1, actions1, states2, actions2);
    states, actions := states1 + states2[1..], actions1 + actions2;
  }

  /** Two journal objects opened on one held lease and both appending: the journal can no longer be read. */
  lemma TwoObjectsCorrupt(runId: seq<byte>, kind: seq<byte>, data: seq<byte>)
      returns (states: seq<State>, actions: seq<Action>)
    ensures OnlyAppendsLoose(states, actions) && states[0] == Init(runId)
    ensures Parse(states[|states| - 1].file, runId).Err?
  {
    TwiceFirst(runId, kind, data);
    var states1, actions1 := OpenTwice(runId);
    var states2, actions2 := AppendTwice(runId, kind, data);
    JoinRuns(states1, actions1, states2, actions2);
    states, actions := states1 + states2[1..], actions1 + actions2;
  }
}
