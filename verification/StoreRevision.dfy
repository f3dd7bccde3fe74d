/**
 The revision gate at store open (src/persistence/store-revision.ts): a record
 from a newer contract revision refuses the start and moves nothing; records from
 an older one are moved, whole and with what belongs to them, into a quarantine
 where nothing is overwritten. One opener, no crash.
 */
module StoreRevision {
  import opened Outcomes

  const CONTRACT_REVISION := 13
  const MAX_ORDINAL := 999

  type RunId = nat
  type AttemptId = nat

  /** The places of a store that a move may concern. */
  datatype Place =
    | RunRecord(run: RunId) | RunLease(run: RunId) | RunFolder(run: RunId) | AttemptFolder(run: RunId)
    | Session(attempt: AttemptId) | WorktreeRecord(attempt: AttemptId) | WorktreeTree(attempt: AttemptId)
    | SnapshotRecord(attempt: AttemptId) | SnapshotTree(attempt: AttemptId)
    | Operation(name: nat) | PinFile(name: nat)

  /** What is at a place: the revisions its files declare, the attempts a folder names, and everything else. */
  datatype Content = Content(revisions: seq<int>, attempts: seq<AttemptId>, bytes: nat)

  /** A quarantine slot: the revision's directory, the place, and the ordinal suffix (1 for none). */
  datatype Slot = Slot(revision: int, place: Place, ordinal: nat)

  datatype Probe = Probe(place: Place, revision: int)

  datatype Found = Found(runs: map<RunId, int>, attempts: map<AttemptId, int>, loose: seq<Probe>, newest: int)

  datatype OpenError = Newer(revision: int) | Exhausted

  predicate OfRun(p: Place) { p.RunRecord? || p.RunLease? || p.RunFolder? || p.AttemptFolder? }

  predicate OfAttempt(p: Place) {
    p.Session? || p.WorktreeRecord? || p.WorktreeTree? || p.SnapshotRecord? || p.SnapshotTree?
  }

  predicate Loose(p: Place) { p.Operation? || p.PinFile? }

  /** The gate looks here for a revision. */
  predicate Probed(p: Place) { OfRun(p) || p.WorktreeRecord? || p.SnapshotRecord? || Loose(p) }

  type Store = map<Place, Content>

  predicate Declares(s: Store, p: Place, revision: int) {
    p in s && Probed(p) && revision in s[p].revisions
  }

  // ----- what is stale -----

  /** Some record of the run declares an older revision. */
  ghost predicate StaleRun(s: Store, run: RunId) {
    exists p, r :: Declares(s, p, r) && OfRun(p) && p.run == run && r < CONTRACT_REVISION
  }

  ghost predicate NamedBy(s: Store, run: RunId, attempt: AttemptId) {
    AttemptFolder(run) in s && attempt in s[AttemptFolder(run)].attempts
  }

  ghost predicate OwnRecordStale(s: Store, a: AttemptId) {
    exists p, r :: Declares(s, p, r) && OfAttempt(p) && p.attempt == a && r < CONTRACT_REVISION
  }

  /** The attempt has an older record of its own, or belongs to a stale run. */
  ghost predicate StaleAttempt(s: Store, attempt: AttemptId) {
    || OwnRecordStale(s, attempt)
    || (exists run :: StaleRun(s, run) && NamedBy(s, run, attempt))
  }

  ghost predicate Stale(s: Store, p: Place) {
    if OfRun(p) then StaleRun(s, p.run)
    else if OfAttempt(p) then StaleAttempt(s, p.attempt)
    else exists r :: Declares(s, p, r) && r < CONTRACT_REVISION
  }

  /** `p` is stale because a record that concerns it declares this older revision. */
  ghost predicate Because(s: Store, p: Place, revision: int) {
    && revision < CONTRACT_REVISION
    && exists q :: Declares(s, q, revision) && Concerns(s, q, p)
  }

  ghost predicate AttemptBecause(s: Store, a: AttemptId, revision: int) {
    && revision < CONTRACT_REVISION
    && exists q :: Declares(s, q, revision) && ((OfAttempt(q) && q.attempt == a) || (OfRun(q) && NamedBy(s, q.run, a)))
  }

  /** A record of a run concerns all of the run and its attempts, a record of an attempt all of the attempt. */
  ghost predicate Concerns(s: Store, q: Place, p: Place) {
    if OfRun(p) then OfRun(q) && q.run == p.run
    else if OfAttempt(p) then (OfAttempt(q) && q.attempt == p.attempt) || (OfRun(q) && NamedBy(s, q.run, p.attempt))
    else q == p
  }

  /** No probed place declares a revision but the running one. */
  ghost predicate WhollyCurrent(s: Store) {
    forall p, r :: Declares(s, p, r) ==> r == CONTRACT_REVISION
  }

  /** The revision kept for a run or attempt is one its records declare. */
  ghost predicate Attained(s: Store, f: Found) {
    && (forall run :: run in f.runs ==> exists p :: Declares(s, p, f.runs[run]) && OfRun(p) && p.run == run)
    && (forall a :: a in f.attempts ==> exists p :: Declares(s, p, f.attempts[a]) && OfAttempt(p) && p.attempt == a)
  }

  // ----- the store as the gate changes it -----

  class StateStore {
    var files: Store
    var quarantined: map<Slot, Content>

    constructor (files: Store, quarantined: map<Slot, Content>)
      ensures this.files == files && this.quarantined == quarantined
    {
      this.files, this.quarantined := files, quarantined;
    }

    /** Every revision declared in the probed places of a directory listing. */
    method ProbeAll(listing: seq<Place>) returns (probes: seq<Probe>)
      requires forall p :: p in listing <==> p in files
      ensures forall p, r :: Probe(p, r) in probes <==> Declares(files, p, r)
    {
      probes := [];
      for i := 0 to |listing|
        invariant forall p, r :: Probe(p, r) in probes <==> p in listing[..i] && Declares(files, p, r)
      {
        var place := listing[i];
        if Probed(place) {
          var revisions := files[place].revisions;
          ghost var before := probes;
          for j := 0 to |revisions|
            invariant forall p, r :: Probe(p, r) in probes <==> Probe(p, r) in before || (p == place && r in revisions[..j])
          {
            probes := probes + [Probe(place, revisions[j])];
          }
        }
      }
    }

    /** The oldest revision of each run and attempt, the loose records, and the newest revision of all. */
    method ProbeStore(listing: seq<Place>) returns (f: Found)
      requires forall p :: p in listing <==> p in files
      ensures forall run :: StaleRun(files, run) <==> run in f.runs && f.runs[run] < CONTRACT_REVISION
      ensures forall a :: a in f.attempts && f.attempts[a] < CONTRACT_REVISION <==> OwnRecordStale(files, a)
      ensures forall p, r :: Probe(p, r) in f.loose <==> Declares(files, p, r) && Loose(p)
      ensures Attained(files, f)
      ensures f.newest > CONTRACT_REVISION <==> exists p, r :: Declares(files, p, r) && r > CONTRACT_REVISION
      ensures forall p, r :: Declares(files, p, r) ==> r <= f.newest
    {
      var probes := ProbeAll(listing);
      f := Gather(probes);
      GatheredIs(files, probes, f);
    }

    /** The first free slot for a place under a revision. */
    method Destination(revision: int, place: Place) returns (slot: Option<Slot>)
      ensures slot.Some? ==> slot.value.revision == revision && slot.value.place == place && slot.value !in quarantined
      ensures slot.Some? ==> 1 <= slot.value.ordinal <= MAX_ORDINAL
      ensures slot.Some? ==> forall k :: 1 <= k < slot.value.ordinal ==> Slot(revision, place, k) in quarantined
      ensures slot.None? ==> forall k :: 1 <= k <= MAX_ORDINAL ==> Slot(revision, place, k) in quarantined
    {
      for k := 1 to MAX_ORDINAL + 1
        invariant forall j :: 1 <= j < k ==> Slot(revision, place, j) in quarantined
      {
        if Slot(revision, place, k) !in quarantined { return Some(Slot(revision, place, k)); }
      }
      return None;
    }

    /** A rename into a slot that is free. */
    method MoveTo(place: Place, slot: Slot)
      requires place in files && slot !in quarantined
      modifies this
      ensures files == old(files) - {place} && quarantined == old(quarantined)[slot := old(files)[place]]
    {
      quarantined := quarantined[slot := files[place]];
      files := files - {place};
    }

    /** Moves the planned places that are there, in order, each into a free slot. */
    method MoveAll(order: seq<Place>, moves: map<Place, int>) returns (r: Result<seq<Place>, OpenError>)
      requires forall p :: p in order ==> p in moves
      modifies this
      ensures r.Ok? ==> Moved(old(files), old(quarantined), files, quarantined, order, moves, |order|)
      ensures r.Ok? ==> forall p :: p in r.value <==> p in order && p in old(files)
      ensures r.Err? ==> r.error.Exhausted?
      ensures r.Err? ==> exists n | 0 <= n < |order| ::
                             Moved(old(files), old(quarantined), files, quarantined, order, moves, n)
    {
      var moved := [];
      var i := 0;
      while i < |order|
        invariant i <= |order|
        invariant Moved(old(files), old(quarantined), files, quarantined, order, moves, i)
        invariant forall p :: p in moved <==> p in order[..i] && p in old(files)
      {
        var place := order[i];
        if place in files {
          var slot := Destination(moves[place], place);
          if slot.None? { return Err(Exhausted); }
          MovedOneMore(old(files), old(quarantined), files, quarantined, order, moves, i, slot.value);
          MoveTo(place, slot.value);
          moved := moved + [place];
        } else {
          MovedNone(old(files), old(quarantined), files, quarantined, order, moves, i);
        }
        i := i + 1;
      }
      r := Ok(moved);
    }

    /** `order` is the sorted list of planned moves, `plan` what `moves` holds when the loop starts. */
    method QuarantineStaleState(listing: seq<Place>) returns (r: Result<Option<seq<Place>>, OpenError>)
      requires forall p :: p in listing <==> p in files
      modifies this
      ensures r.Err? && r.error.Newer? <==> exists p, rev :: Declares(old(files), p, rev) && rev > CONTRACT_REVISION
      ensures r.Err? && r.error.Newer? ==> files == old(files) && quarantined == old(quarantined)
      ensures r.Ok? ==> Quarantined(old(files), old(quarantined), files, quarantined)
      ensures r.Ok? ==> Explained(old(files), old(quarantined), quarantined)
      ensures r.Ok? ==> (r.value.None? <==> files == old(files))
      ensures r.Ok? && r.value.Some? ==> forall p :: p in r.value.value <==> p in old(files) && Stale(old(files), p)
    {
      var found := ProbeStore(listing);
      if found.newest > CONTRACT_REVISION { return Err(Newer(found.newest)); }
      var order, moves := PlanMoves(listing, found);
      var moved := MoveAll(order, moves);
      if moved.Err? { return Err(moved.error); }
      AllExplained(old(files), old(quarantined), files, quarantined, order, moves);
      AllMoved(old(files), old(quarantined), files, quarantined, order, moves);
      if moved.value == [] {
        NothingMoved(old(files), files);
        return Ok(None);
      }
      assert moved.value[0] in old(files) && moved.value[0] !in files;
      r := Ok(Some(moved.value));
    }

    /** The places to move, as names: a place need not be there, and a session has no revision of its own. */
    method PlanMoves(listing: seq<Place>, f: Found) returns (order: seq<Place>, moves: map<Place, int>)
      requires forall p :: p in listing <==> p in files
      requires forall run :: StaleRun(files, run) <==> run in f.runs && f.runs[run] < CONTRACT_REVISION
      requires forall a :: a in f.attempts && f.attempts[a] < CONTRACT_REVISION <==> OwnRecordStale(files, a)
      requires forall p, r :: Probe(p, r) in f.loose <==> Declares(files, p, r) && Loose(p)
      requires Attained(files, f)
      ensures forall p :: p in order ==> p in moves
      ensures forall p :: p in files ==> (p in order <==> Stale(files, p))
      ensures forall p :: p in moves ==> Because(files, p, moves[p])
    {
      var staleAttempts := StaleAttempts(listing, f);
      order, moves := [], map[];
      for i := 0 to |listing|
        invariant forall p :: p in order ==> p in moves
        invariant forall p :: p in order <==> p in listing[..i] && Stale(files, p)
        invariant forall p :: p in moves ==> Because(files, p, moves[p])
      {
        var p := listing[i];
        var revision := RevisionFor(p, f, staleAttempts);
        if revision.Some? {
          order := order + [p];
          moves := moves[p := if p in moves && moves[p] < revision.value then moves[p] else revision.value];
        }
      }
    }

    /** Attempts with an older record, and every attempt a stale run's folder names. */
    method StaleAttempts(listing: seq<Place>, f: Found) returns (stale: map<AttemptId, int>)
      requires forall p :: p in listing <==> p in files
      requires forall run :: StaleRun(files, run) <==> run in f.runs && f.runs[run] < CONTRACT_REVISION
      requires forall a :: a in f.attempts && f.attempts[a] < CONTRACT_REVISION <==> OwnRecordStale(files, a)
      requires Attained(files, f)
      ensures forall a :: a in stale <==> StaleAttempt(files, a)
      ensures forall a :: a in stale ==> AttemptBecause(files, a, stale[a])
    {
      stale := map a | a in f.attempts && f.attempts[a] < CONTRACT_REVISION :: f.attempts[a];
      OwnStale(files, f, stale);
      for i := 0 to |listing|
        invariant StaleTo(files, listing[..i], stale)
      {
        var p := listing[i];
        assert listing[..i + 1] == listing[..i] + [p];
        if p.AttemptFolder? && p.run in f.runs && f.runs[p.run] < CONTRACT_REVISION {
          var named := map a | a in files[p].attempts :: f.runs[p.run];
          OneFolder(files, f, listing[..i], stale, p, named);
          stale := stale + named;
        } else {
          OtherPlace(files, listing[..i], stale, p);
        }
      }
      assert listing[..|listing|] == listing;
      AllFolders(files, listing, stale);
    }

    function RevisionFor(p: Place, f: Found, staleAttempts: map<AttemptId, int>): (r: Option<int>)
      reads this
      requires forall run :: StaleRun(files, run) <==> run in f.runs && f.runs[run] < CONTRACT_REVISION
      requires forall q, rev :: Probe(q, rev) in f.loose <==> Declares(files, q, rev) && Loose(q)
      requires forall a :: a in staleAttempts <==> StaleAttempt(files, a)
      requires forall a :: a in staleAttempts ==> AttemptBecause(files, a, staleAttempts[a])
      requires Attained(files, f)
      ensures r.Some? <==> Stale(files, p)
      ensures r.Some? ==> Because(files, p, r.value)
    {
      if OfRun(p) then
        if p.run in f.runs && f.runs[p.run] < CONTRACT_REVISION then
          RunBecause(files, f, p);
          Some(f.runs[p.run])
        else None
      else if OfAttempt(p) then
        if p.attempt in staleAttempts then
          OfAttemptBecause(files, p, staleAttempts[p.attempt]);
          Some(staleAttempts[p.attempt])
        else None
      else OldestLoose(f.loose, p, |f.loose|)
    }
  }

  ghost predicate NamedIn(s: Store, seen: seq<Place>, a: AttemptId) {
    exists run :: AttemptFolder(run) in seen && StaleRun(s, run) && NamedBy(s, run, a)
  }

  /** The attempts found stale once the places `seen` have been looked at. */
  ghost predicate StaleTo(s: Store, seen: seq<Place>, stale: map<AttemptId, int>) {
    && (forall a :: a in stale <==> OwnRecordStale(s, a) || NamedIn(s, seen, a))
    && (forall a :: a in stale ==> AttemptBecause(s, a, stale[a]))
  }

  lemma OwnStale(s: Store, f: Found, stale: map<AttemptId, int>)
    requires forall a :: a in f.attempts && f.attempts[a] < CONTRACT_REVISION <==> OwnRecordStale(s, a)
    requires forall a :: a in stale <==> a in f.attempts && f.attempts[a] < CONTRACT_REVISION
    requires forall a :: a in stale ==> stale[a] == f.attempts[a]
    requires Attained(s, f)
    ensures StaleTo(s, [], stale)
  {
    forall a | a in stale ensures AttemptBecause(s, a, stale[a]) {
      var p :| Declares(s, p, f.attempts[a]) && OfAttempt(p) && p.attempt == a;
    }
  }

  lemma OneFolder(s: Store, f: Found, seen: seq<Place>, stale: map<AttemptId, int>, p: Place, named: map<AttemptId, int>)
    requires StaleTo(s, seen, stale) && p.AttemptFolder? && p in s && Attained(s, f)
    requires p.run in f.runs && f.runs[p.run] < CONTRACT_REVISION
    requires forall a :: a in named <==> a in s[p].attempts
    requires forall a :: a in named ==> named[a] == f.runs[p.run]
    ensures StaleTo(s, seen + [p], stale + named)
  {
    RunNamesBecause(s, f, p.run);
    forall a ensures a in stale + named <==> OwnRecordStale(s, a) || NamedIn(s, seen + [p], a) {
      if a in named {
        assert p in seen + [p] && NamedBy(s, p.run, a);
      } else if NamedIn(s, seen, a) {
        var run :| AttemptFolder(run) in seen && StaleRun(s, run) && NamedBy(s, run, a);
        assert AttemptFolder(run) in seen + [p];
      }
    }
  }

  lemma OtherPlace(s: Store, seen: seq<Place>, stale: map<AttemptId, int>, p: Place)
    requires StaleTo(s, seen, stale) && (p.AttemptFolder? ==> !StaleRun(s, p.run))
    ensures StaleTo(s, seen + [p], stale)
  {
    forall a ensures NamedIn(s, seen, a) <==> NamedIn(s, seen + [p], a) {
      if NamedIn(s, seen, a) {
        var run :| AttemptFolder(run) in seen && StaleRun(s, run) && NamedBy(s, run, a);
        assert AttemptFolder(run) in seen + [p];
      }
    }
  }

  lemma AllFolders(s: Store, listing: seq<Place>, stale: map<AttemptId, int>)
    requires StaleTo(s, listing, stale) && forall p :: p in s ==> p in listing
    ensures forall a :: a in stale <==> StaleAttempt(s, a)
    ensures forall a :: a in stale ==> AttemptBecause(s, a, stale[a])
  {
    forall a ensures a in stale <==> StaleAttempt(s, a) {
      if run :| StaleRun(s, run) && NamedBy(s, run, a) { assert AttemptFolder(run) in listing; }
    }
  }

  lemma RunNamesBecause(s: Store, f: Found, run: RunId)
    requires Attained(s, f) && run in f.runs && f.runs[run] < CONTRACT_REVISION
    ensures forall a :: NamedBy(s, run, a) ==> AttemptBecause(s, a, f.runs[run])
  {
    var q :| Declares(s, q, f.runs[run]) && OfRun(q) && q.run == run;
  }

  lemma RunBecause(s: Store, f: Found, p: Place)
    requires Attained(s, f) && OfRun(p) && p.run in f.runs && f.runs[p.run] < CONTRACT_REVISION
    ensures Because(s, p, f.runs[p.run])
  {
    var q :| Declares(s, q, f.runs[p.run]) && OfRun(q) && q.run == p.run;
    assert Concerns(s, q, p);
  }

  lemma OfAttemptBecause(s: Store, p: Place, revision: int)
    requires OfAttempt(p) && AttemptBecause(s, p.attempt, revision)
    ensures Because(s, p, revision)
  {
    var q :| Declares(s, q, revision) && ((OfAttempt(q) && q.attempt == p.attempt) || (OfRun(q) && NamedBy(s, q.run, p.attempt)));
    assert Concerns(s, q, p);
  }

  /** The oldest stale revision a loose record is probed with. */
  function OldestLoose(loose: seq<Probe>, p: Place, n: nat): (r: Option<int>)
    requires n <= |loose|
    ensures r.Some? <==> exists i :: 0 <= i < n && loose[i].place == p && loose[i].revision < CONTRACT_REVISION
    ensures r.Some? ==> r.value < CONTRACT_REVISION && Probe(p, r.value) in loose
  {
    if n == 0 then None
    else
      var rest := OldestLoose(loose, p, n - 1);
      var last := loose[n - 1];
      if last.place == p && last.revision < CONTRACT_REVISION && (rest.None? || last.revision < rest.value) then Some(last.revision)
      else rest
  }

  // ----- gathering -----

  function Lower(m: map<nat, int>, k: nat, r: int): map<nat, int> {
    m[k := if k in m && m[k] < r then m[k] else r]
  }

  method Gather(probes: seq<Probe>) returns (f: Found)
    ensures GatheredTo(probes, f, |probes|)
  {
    f := Found(map[], map[], [], CONTRACT_REVISION);
    for i := 0 to |probes|
      invariant GatheredTo(probes, f, i)
    {
      var p := probes[i];
      RunsOneMore(probes, f.runs, i);
      AttemptsOneMore(probes, f.attempts, i);
      assert probes[..i + 1] == probes[..i] + [p];
      f := f.(newest := if f.newest < p.revision then p.revision else f.newest);
      if OfRun(p.place) { f := f.(runs := Lower(f.runs, p.place.run, p.revision)); }
      else if OfAttempt(p.place) { f := f.(attempts := Lower(f.attempts, p.place.attempt, p.revision)); }
      else { f := f.(loose := f.loose + [p]); }
    }
  }

  predicate RunProbe(p: Probe, run: RunId) { OfRun(p.place) && p.place.run == run }

  predicate AttemptProbe(p: Probe, a: AttemptId) { OfAttempt(p.place) && p.place.attempt == a }

  function Least(m: Option<int>, r: int): int {
    if m.Some? && m.value < r then m.value else r
  }

  /** The least revision the first `n` probes declare for a run. */
  function OldestOfRun(probes: seq<Probe>, run: RunId, n: nat): Option<int>
    requires n <= |probes|
  {
    if n == 0 then None
    else
      var rest := OldestOfRun(probes, run, n - 1);
      if RunProbe(probes[n - 1], run) then Some(Least(rest, probes[n - 1].revision)) else rest
  }

  function OldestOfAttempt(probes: seq<Probe>, a: AttemptId, n: nat): Option<int>
    requires n <= |probes|
  {
    if n == 0 then None
    else
      var rest := OldestOfAttempt(probes, a, n - 1);
      if AttemptProbe(probes[n - 1], a) then Some(Least(rest, probes[n - 1].revision)) else rest
  }

  lemma {:induction false} OldestOfRunIs(probes: seq<Probe>, run: RunId, n: nat)
    requires n <= |probes|
    ensures var r := OldestOfRun(probes, run, n);
            && (r.Some? ==> exists i :: 0 <= i < n && RunProbe(probes[i], run) && probes[i].revision == r.value)
            && (forall i :: 0 <= i < n && RunProbe(probes[i], run) ==> r.Some? && r.value <= probes[i].revision)
  {
    if n > 0 { OldestOfRunIs(probes, run, n - 1); }
  }

  lemma {:induction false} OldestOfAttemptIs(probes: seq<Probe>, a: AttemptId, n: nat)
    requires n <= |probes|
    ensures var r := OldestOfAttempt(probes, a, n);
            && (r.Some? ==> exists i :: 0 <= i < n && AttemptProbe(probes[i], a) && probes[i].revision == r.value)
            && (forall i :: 0 <= i < n && AttemptProbe(probes[i], a) ==> r.Some? && r.value <= probes[i].revision)
  {
    if n > 0 { OldestOfAttemptIs(probes, a, n - 1); }
  }

  predicate Agree(m: map<nat, int>, k: nat, r: Option<int>) {
    if r.Some? then k in m && m[k] == r.value else k !in m
  }

  ghost predicate RunsTo(probes: seq<Probe>, runs: map<RunId, int>, n: nat)
    requires n <= |probes|
  {
    forall run {:trigger OldestOfRun(probes, run, n)} :: Agree(runs, run, OldestOfRun(probes, run, n))
  }

  ghost predicate AttemptsTo(probes: seq<Probe>, attempts: map<AttemptId, int>, n: nat)
    requires n <= |probes|
  {
    forall a {:trigger OldestOfAttempt(probes, a, n)} :: Agree(attempts, a, OldestOfAttempt(probes, a, n))
  }

  lemma RunsOneMore(probes: seq<Probe>, runs: map<RunId, int>, n: nat)
    requires n < |probes| && RunsTo(probes, runs, n)
    ensures RunsTo(probes, if OfRun(probes[n].place) then Lower(runs, probes[n].place.run, probes[n].revision) else runs, n + 1)
  {
    var more := if OfRun(probes[n].place) then Lower(runs, probes[n].place.run, probes[n].revision) else runs;
    forall run {:trigger OldestOfRun(probes, run, n + 1)} ensures Agree(more, run, OldestOfRun(probes, run, n + 1)) {
      assert Agree(runs, run, OldestOfRun(probes, run, n));
    }
  }

  lemma AttemptsOneMore(probes: seq<Probe>, attempts: map<AttemptId, int>, n: nat)
    requires n < |probes| && AttemptsTo(probes, attempts, n)
    ensures AttemptsTo(probes, if OfAttempt(probes[n].place) then
        Lower(attempts, probes[n].place.attempt, probes[n].revision) else attempts, n + 1)
  {
    var more := if OfAttempt(probes[n].place) then Lower(attempts, probes[n].place.attempt, probes[n].revision) else attempts;
    forall a {:trigger OldestOfAttempt(probes, a, n + 1)} ensures Agree(more, a, OldestOfAttempt(probes, a, n + 1)) {
      assert Agree(attempts, a, OldestOfAttempt(probes, a, n));
    }
  }

  /** For the first `n` probes: whose least revision is older, what is loose, and the newest revision. */
  ghost predicate GatheredTo(probes: seq<Probe>, f: Found, n: nat)
    requires n <= |probes|
  {
    && RunsTo(probes, f.runs, n) && AttemptsTo(probes, f.attempts, n)
    && (forall p :: p in f.loose <==> p in probes[..n] && !OfRun(p.place) && !OfAttempt(p.place))
    && f.newest >= CONTRACT_REVISION
    && (forall i :: 0 <= i < n ==> probes[i].revision <= f.newest)
    && (f.newest == CONTRACT_REVISION || exists i :: 0 <= i < n && probes[i].revision == f.newest)
  }

  lemma GatheredIs(s: Store, probes: seq<Probe>, f: Found)
    requires forall p, r :: Probe(p, r) in probes <==> Declares(s, p, r)
    requires GatheredTo(probes, f, |probes|)
    ensures forall run :: StaleRun(s, run) <==> run in f.runs && f.runs[run] < CONTRACT_REVISION
    ensures forall a :: a in f.attempts && f.attempts[a] < CONTRACT_REVISION <==> OwnRecordStale(s, a)
    ensures forall p, r :: Probe(p, r) in f.loose <==> Declares(s, p, r) && Loose(p)
    ensures Attained(s, f)
    ensures f.newest > CONTRACT_REVISION <==> exists p, r :: Declares(s, p, r) && r > CONTRACT_REVISION
    ensures forall p, r :: Declares(s, p, r) ==> r <= f.newest
  {
    assert probes[..|probes|] == probes;
    forall run ensures StaleRun(s, run) <==> run in f.runs && f.runs[run] < CONTRACT_REVISION { RunGathered(s, probes, f, run); }
    forall run | run in f.runs
        ensures exists p :: Declares(s, p, f.runs[run]) && OfRun(p) && p.run == run { RunGathered(s, probes, f, run); }
    forall a ensures a in f.attempts && f.attempts[a] < CONTRACT_REVISION <==> OwnRecordStale(s, a) {
      AttemptGathered(s, probes, f, a);
    }
    forall a | a in f.attempts ensures exists p :: Declares(s, p, f.attempts[a]) && OfAttempt(p) && p.attempt == a {
      AttemptGathered(s, probes, f, a);
    }
    NewestGathered(s, probes, f);
  }

  lemma RunGathered(s: Store, probes: seq<Probe>, f: Found, run: RunId)
    requires (forall p, r :: Probe(p, r) in probes <==> Declares(s, p, r)) && RunsTo(probes, f.runs, |probes|)
    ensures StaleRun(s, run) <==> run in f.runs && f.runs[run] < CONTRACT_REVISION
    ensures run in f.runs ==> exists p :: Declares(s, p, f.runs[run]) && OfRun(p) && p.run == run
  {
    OldestOfRunIs(probes, run, |probes|);
    assert Agree(f.runs, run, OldestOfRun(probes, run, |probes|));
    if run in f.runs {
      var i :| 0 <= i < |probes| && RunProbe(probes[i], run) && probes[i].revision == f.runs[run];
      assert Probe(probes[i].place, probes[i].revision) in probes;
      assert Declares(s, probes[i].place, f.runs[run]);
    }
    if p, r :| Declares(s, p, r) && OfRun(p) && p.run == run && r < CONTRACT_REVISION {
      assert Probe(p, r) in probes;
      var i :| 0 <= i < |probes| && probes[i] == Probe(p, r);
      assert RunProbe(probes[i], run);
    }
  }

  lemma AttemptGathered(s: Store, probes: seq<Probe>, f: Found, a: AttemptId)
    requires (forall p, r :: Probe(p, r) in probes <==> Declares(s, p, r)) && AttemptsTo(probes, f.attempts, |probes|)
    ensures a in f.attempts && f.attempts[a] < CONTRACT_REVISION <==> OwnRecordStale(s, a)
    ensures a in f.attempts ==> exists p :: Declares(s, p, f.attempts[a]) && OfAttempt(p) && p.attempt == a
  {
    OldestOfAttemptIs(probes, a, |probes|);
    assert Agree(f.attempts, a, OldestOfAttempt(probes, a, |probes|));
    if a in f.attempts {
      var i :| 0 <= i < |probes| && AttemptProbe(probes[i], a) && probes[i].revision == f.attempts[a];
      assert Probe(probes[i].place, probes[i].revision) in probes;
      assert Declares(s, probes[i].place, f.attempts[a]);
    }
    if p, r :| Declares(s, p, r) && OfAttempt(p) && p.attempt == a && r < CONTRACT_REVISION {
      assert Probe(p, r) in probes;
      var i :| 0 <= i < |probes| && probes[i] == Probe(p, r);
      assert AttemptProbe(probes[i], a);
    }
  }

  lemma NewestGathered(s: Store, probes: seq<Probe>, f: Found)
    requires (forall p, r :: Probe(p, r) in probes <==> Declares(s, p, r)) && GatheredTo(probes, f, |probes|)
    ensures f.newest > CONTRACT_REVISION <==> exists p, r :: Declares(s, p, r) && r > CONTRACT_REVISION
    ensures forall p, r :: Declares(s, p, r) ==> r <= f.newest
  {
    forall p, r | Declares(s, p, r) ensures r <= f.newest {
      assert Probe(p, r) in probes;
      var i :| 0 <= i < |probes| && probes[i] == Probe(p, r);
    }
    if f.newest > CONTRACT_REVISION {
      var i :| 0 <= i < |probes| && probes[i].revision == f.newest;
      assert Probe(probes[i].place, probes[i].revision) in probes;
      assert Declares(s, probes[i].place, f.newest);
    }
  }

  // ----- moving -----

  /** Some new slot holds the place. */
  ghost predicate HasSlot(slots: map<Slot, Content>, slotsNow: map<Slot, Content>, p: Place) {
    exists q :: q in slotsNow && q !in slots && q.place == p
  }

  /** Of the first `n` planned places those that were there are gone, each into a slot that was free; nothing else changed. */
  ghost predicate Moved(files: Store, slots: map<Slot, Content>, filesNow: Store, slotsNow: map<Slot, Content>,
      order: seq<Place>, moves: map<Place, int>, n: nat)
    requires n <= |order|
  {
    && (forall p :: p in filesNow <==> p in files && p !in order[..n])
    && (forall p :: p in filesNow ==> filesNow[p] == files[p])
    && (forall q :: q in slots ==> q in slotsNow && slotsNow[q] == slots[q])
    && (forall q :: q in slotsNow && q !in slots ==>
          && q.place in order[..n] && q.place in files && slotsNow[q] == files[q.place]
          && q.place in moves && q.revision == moves[q.place])
    && (forall p :: p in order[..n] && p in files ==> HasSlot(slots, slotsNow, p))
    && (forall q, t :: q in slotsNow && q !in slots && t in slotsNow && t !in slots && q.place == t.place ==> q == t)
  }

  lemma StillHasSlot(slots: map<Slot, Content>, now: map<Slot, Content>, next: map<Slot, Content>, p: Place)
    requires HasSlot(slots, now, p) && forall q :: q in now ==> q in next
    ensures HasSlot(slots, next, p)
  {
    var q :| q in now && q !in slots && q.place == p;
    assert q in next;
  }

  lemma MovedOneMore(files: Store, slots: map<Slot, Content>, now: Store, slotsNow: map<Slot, Content>,
                     order: seq<Place>, moves: map<Place, int>, i: nat, slot: Slot)
    requires i < |order| && Moved(files, slots, now, slotsNow, order, moves, i)
    requires order[i] in now && slot !in slotsNow && slot.place == order[i] && order[i] in moves && slot.revision == moves[order[i]]
    ensures Moved(files, slots, now - {order[i]}, slotsNow[slot := now[order[i]]], order, moves, i + 1)
  {
    var next := slotsNow[slot := now[order[i]]];
    assert order[..i + 1] == order[..i] + [order[i]];
    forall p | p in order[..i + 1] && p in files ensures HasSlot(slots, next, p) {
      if p == order[i] { assert slot in next; } else { StillHasSlot(slots, slotsNow, next, p); }
    }
  }

  lemma MovedNone(files: Store, slots: map<Slot, Content>, now: Store, slotsNow: map<Slot, Content>,
                  order: seq<Place>, moves: map<Place, int>, i: nat)
    requires i < |order| && Moved(files, slots, now, slotsNow, order, moves, i) && order[i] !in now
    ensures Moved(files, slots, now, slotsNow, order, moves, i + 1)
  {
    assert order[..i + 1] == order[..i] + [order[i]];
  }

  /** What an accepted open does: the stale places go, each whole into one new slot, and nothing else changes. */
  ghost predicate Quarantined(files: Store, slots: map<Slot, Content>, filesNow: Store, slotsNow: map<Slot, Content>) {
    && (forall p :: p in filesNow <==> p in files && !Stale(files, p))
    && (forall p :: p in filesNow ==> filesNow[p] == files[p])
    && (forall q :: q in slots ==> q in slotsNow && slotsNow[q] == slots[q])
    && (forall p :: p in files && Stale(files, p) ==>
        exists q :: q in slotsNow && q !in slots && q.place == p && slotsNow[q] == files[p])
    && (forall p, r :: Declares(files, p, r) ==> r <= CONTRACT_REVISION)
  }

  /** Each new slot is under an older revision that a record of the place's own run or attempt declares. */
  ghost predicate Explained(files: Store, slots: map<Slot, Content>, slotsNow: map<Slot, Content>) {
    forall q :: q in slotsNow && q !in slots ==> q.place in files && Because(files, q.place, q.revision)
  }

  lemma AllExplained(files: Store, slots: map<Slot, Content>, filesNow: Store, slotsNow: map<Slot, Content>,
                     order: seq<Place>, moves: map<Place, int>)
    requires Moved(files, slots, filesNow, slotsNow, order, moves, |order|)
    requires forall p :: p in moves ==> Because(files, p, moves[p])
    ensures Explained(files, slots, slotsNow)
  {
    forall q | q in slotsNow && q !in slots ensures q.place in files && Because(files, q.place, q.revision) {
      assert Because(files, q.place, moves[q.place]);
    }
  }

  lemma AllMoved(files: Store, slots: map<Slot, Content>, filesNow: Store, slotsNow: map<Slot, Content>,
                 order: seq<Place>, moves: map<Place, int>)
    requires Moved(files, slots, filesNow, slotsNow, order, moves, |order|)
    requires forall p :: p in files ==> (p in order <==> Stale(files, p))
    requires forall p, r :: Declares(files, p, r) ==> r <= CONTRACT_REVISION
    ensures Quarantined(files, slots, filesNow, slotsNow)
  {
    assert order[..|order|] == order;
    forall p | p in files && Stale(files, p)
        ensures exists q :: q in slotsNow && q !in slots && q.place == p && slotsNow[q] == files[p] {
      var q :| q in slotsNow && q !in slots && q.place == p;
    }
  }

  lemma NothingMoved(files: Store, filesNow: Store)
    requires forall p :: p in filesNow ==> p in files && filesNow[p] == files[p]
    requires forall p :: p in files ==> p in filesNow
    ensures filesNow == files
  {}

  /** A stale record makes its own place stale. */
  lemma DeclaredStale(s: Store, p: Place, r: int)
    requires Declares(s, p, r) && r < CONTRACT_REVISION
    ensures Stale(s, p)
  {}

  /** After an accepted open every probed place declares the running revision and nothing else. */
  lemma OpenedIsCurrent(files: Store, slots: map<Slot, Content>, filesNow: Store, slotsNow: map<Slot, Content>)
    requires Quarantined(files, slots, filesNow, slotsNow)
    ensures WhollyCurrent(filesNow)
  {
    forall p, r | Declares(filesNow, p, r) ensures r == CONTRACT_REVISION {
      assert Declares(files, p, r);
      if r < CONTRACT_REVISION { DeclaredStale(files, p, r); }
    }
  }

  lemma CurrentIsNotStale(s: Store, p: Place)
    requires WhollyCurrent(s)
    ensures !Stale(s, p)
  {}

  /** Opening again finds nothing to move. */
  lemma SecondOpenFindsNothing(files: Store, slots: map<Slot, Content>, once: Store, slotsOnce: map<Slot, Content>,
                               twice: Store, slotsTwice: map<Slot, Content>)
    requires Quarantined(files, slots, once, slotsOnce) && Quarantined(once, slotsOnce, twice, slotsTwice)
    ensures twice == once
    ensures forall p :: p in once ==> !Stale(once, p)
  {
    OpenedIsCurrent(files, slots, once, slotsOnce);
    forall p ensures !Stale(once, p) { CurrentIsNotStale(once, p); }
    NothingMoved(once, twice);
  }

  /** A run none of whose records, and none of whose attempts' records, is older stays as it is. */
  lemma CurrentRunUntouched(files: Store, slots: map<Slot, Content>, filesNow: Store, slotsNow: map<Slot, Content>,
      run: RunId, p: Place)
    requires Quarantined(files, slots, filesNow, slotsNow)
    requires !StaleRun(files, run) && ((OfRun(p) && p.run == run) || (OfAttempt(p) && NamedBy(files, run, p.attempt)))
    requires OfAttempt(p) ==> forall q, r :: Declares(files, q, r) && OfAttempt(q) && q.attempt == p.attempt ==>
        r >= CONTRACT_REVISION
    requires OfAttempt(p) ==> forall other :: NamedBy(files, other, p.attempt) ==> !StaleRun(files, other)
    ensures p in filesNow <==> p in files
    ensures p in files ==> filesNow[p] == files[p]
  {}

  /** What belongs to a stale run goes with it, whatever revision its own record has. */
  lemma StaleRunLeavesNothing(files: Store, slots: map<Slot, Content>, filesNow: Store, slotsNow: map<Slot, Content>,
      run: RunId, attempt: AttemptId)
    requires Quarantined(files, slots, filesNow, slotsNow) && StaleRun(files, run)
    ensures RunRecord(run) !in filesNow && RunLease(run) !in filesNow && RunFolder(run) !in filesNow
        && AttemptFolder(run) !in filesNow
    ensures NamedBy(files, run, attempt) ==>
              Session(attempt) !in filesNow && WorktreeRecord(attempt) !in filesNow && WorktreeTree(attempt) !in filesNow
              && SnapshotRecord(attempt) !in filesNow && SnapshotTree(attempt) !in filesNow
  {
    assert Stale(files, RunRecord(run)) && Stale(files, RunLease(run)) && Stale(files, RunFolder(run))
        && Stale(files, AttemptFolder(run));
    if NamedBy(files, run, attempt) {
      assert StaleAttempt(files, attempt);
      assert Stale(files, Session(attempt)) && Stale(files, WorktreeRecord(attempt)) && Stale(files, WorktreeTree(attempt));
      assert Stale(files, SnapshotRecord(attempt)) && Stale(files, SnapshotTree(attempt));
    }
  }
}
