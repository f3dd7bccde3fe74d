/** Moving one pruned run to trash and finishing that move after crashes (src/persistence/retention.ts). */
module RetentionTrash {
  // The move is a manifest, a row of ref deletions, a row of renames and a completion
  // mark; a process may die between any two of them. `steps` is the number of those
  // operations a call performs before its process dies. Every prune looks at all
  // unfinished moves first, and a refusal of one ends the prune.

  import opened Outcomes

  type Path = nat
  type Blob = nat
  type Ref = nat
  type Commit = nat

  const MAX_PATHS := 128
  const MAX_REFS := 32

  datatype RefTarget = RefTarget(ref: Ref, commit: Option<Commit>)

  datatype Manifest = Manifest(paths: seq<Path>, targets: seq<RefTarget>)

  /** One run's files, the trash directory made for it, and the repository's refs. */
  datatype Disk = Disk(
    record: Path,          // run-records/<run>.json
    lease: Path,           // leases/<run>.lease.json
    store: map<Path, Blob>,
    trash: map<Path, Blob>,
    refs: map<Ref, Commit>,
    manifest: Option<Manifest>,
    completed: bool)

  datatype Outcome =
    | Crashed
    | Finished
    | NoIntent
    | InvalidManifest
    | RefMismatch
    | DuplicateState
    | MissingState

  function Without(paths: seq<Path>, p: Path): seq<Path> {
    if paths == [] then []
    else (if paths[0] == p then [] else [paths[0]]) + Without(paths[1..], p)
  }

  function Only(paths: seq<Path>, p: Path): seq<Path> {
    if paths == [] then []
    else (if paths[0] == p then [p] else []) + Only(paths[1..], p)
  }

  /** The order of the first move: the run record leaves last. */
  function MoveOrder(paths: seq<Path>, record: Path): seq<Path> {
    Without(paths, record) + Only(paths, record)
  }

  /** The order of a recovery: the lease record next to last. */
  function RecoveryOrder(paths: seq<Path>, lease: Path, record: Path): seq<Path> {
    Without(Without(paths, lease), record) + Only(paths, lease) + Only(paths, record)
  }

  function Names(targets: seq<RefTarget>): set<Ref> {
    set t | t in targets :: t.ref
  }

  /** `inspectHandoffRef` refuses: the ref is there and names another commit. */
  predicate Mismatch(refs: map<Ref, Commit>, t: RefTarget) {
    t.ref in refs && t.commit.Some? && refs[t.ref] != t.commit.value
  }

  /** How many targets are removed before one refuses. */
  function Removable(refs: map<Ref, Commit>, targets: seq<RefTarget>): (n: nat)
    ensures n <= |targets|
  {
    if targets == [] || Mismatch(refs, targets[0]) then 0
    else 1 + Removable(refs - {targets[0].ref}, targets[1..])
  }

  datatype Places = Places(store: map<Path, Blob>, trash: map<Path, Blob>)

  /** `gone` taken out of the store, each with its content, into the trash. */
  function Shift(at: Places, gone: set<Path>): Places {
    Places(at.store - gone, at.trash + Arrived(at.store, gone))
  }

  function Arrived(store: map<Path, Blob>, gone: set<Path>): map<Path, Blob> {
    map p | p in gone && p in store :: store[p]
  }

  function Renamed(at: Places, p: Path): Places
    requires p in at.store
  {
    Places(at.store - {p}, at.trash[p := at.store[p]])
  }

  function Elements(paths: seq<Path>): set<Path> {
    set p | p in paths
  }

  /** The first `n` paths of the order taken out of the store. */
  function Moved(at: Places, order: seq<Path>, n: nat): Places
    requires n <= |order|
  {
    Shift(at, Elements(order[..n]))
  }

  predicate Bad(at: Places, p: Path) {
    (p in at.store) == (p in at.trash)
  }

  /** How many paths a recovery passes before it finds one in both places or in neither. */
  function Good(at: Places, order: seq<Path>): (n: nat)
    ensures n <= |order|
  {
    if order == [] || Bad(at, order[0]) then 0 else 1 + Good(at, order[1..])
  }

  function PlacesOf(d: Disk): Places {
    Places(d.store, d.trash)
  }

  /** The first `n` paths of `order` moved. */
  function MoveFirst(d: Disk, order: seq<Path>, n: nat): Disk
    requires n <= |order|
  {
    var at := Moved(PlacesOf(d), order, n);
    d.(store := at.store, trash := at.trash)
  }

  function Min(a: nat, b: nat): nat { if a < b then a else b }

  /** The refs left, and how many targets were handled, when at most `steps` of them are. */
  function DropRefs(d: Disk, targets: seq<RefTarget>, steps: nat): Disk {
    d.(refs := d.refs - Names(targets[..Min(steps, Removable(d.refs, targets))]))
  }

  /** How the deletion of `n` refs ends early, when only `removable` of them can go. */
  function StopAtRefs(removable: nat, n: nat, steps: nat): Option<Outcome> {
    if removable < n && removable < steps then Some(RefMismatch)
    else if steps <= n then Some(Crashed)
    else None
  }

  function MoveTo(d: Disk, paths: seq<Path>, targets: seq<RefTarget>, steps: nat): (Disk, Outcome) {
    if steps == 0 then (d, Crashed)
    else
      var order := MoveOrder(paths, d.record);
      var dropped := DropRefs(d.(manifest := Some(Manifest(order, targets))), targets, steps - 1);
      var stop := StopAtRefs(Removable(d.refs, targets), |targets|, steps - 1);
      if stop.Some? then (dropped, stop.value)
      else
        var left := steps - 1 - |targets|;
        var moved := MoveFirst(dropped, order, Min(left, |order|));
        if left > |order| then (moved.(completed := true), Finished) else (moved, Crashed)
  }

  predicate Intent(d: Disk) {
    d.manifest.Some? && !d.completed
  }

  predicate WithinBounds(m: Manifest) {
    |m.paths| <= MAX_PATHS && |m.targets| <= MAX_REFS
  }

  /** The renames of a recovery: it stops at a path that is in both places or in neither. */
  function Resume(d: Disk, order: seq<Path>, left: nat): (Disk, Outcome) {
    var good := Good(PlacesOf(d), order);
    var moved := MoveFirst(d, order, Min(left, good));
    if good < |order| && good < left then (moved, if order[good] in d.store then DuplicateState else MissingState)
    else if left > |order| then (moved.(completed := true), Finished)
    else (moved, Crashed)
  }

  /** The disk a recovery starts renaming from: the lease record is back in the store, the refs are gone. */
  function Reopened(d: Disk, targets: seq<RefTarget>, steps: nat, holder: Blob): Disk {
    DropRefs(d.(store := d.store[d.lease := holder]), targets, steps)
  }

  /** One look at this intent by `recoverTrashIntents`; `holder` is the lease record it installs. */
  function RecoverTo(d: Disk, steps: nat, holder: Blob): (Disk, Outcome) {
    if !Intent(d) then (d, NoIntent)
    else if !WithinBounds(d.manifest.value) then (d, InvalidManifest)
    else if steps == 0 then (d, Crashed)
    else
      var targets := d.manifest.value.targets;
      var dropped := Reopened(d, targets, steps - 1, holder);
      var stop := StopAtRefs(Removable(d.refs, targets), |targets|, steps - 1);
      if stop.Some? then (dropped, stop.value)
      else Resume(dropped, RecoveryOrder(d.manifest.value.paths, d.lease, d.record), steps - 1 - |targets|)
  }

  /** The files behind `moveRunToTrash` and `recoverTrashIntents`, changed one at a time. */
  class RunFiles {
    const record: Path
    const lease: Path
    var store: map<Path, Blob>
    var trash: map<Path, Blob>
    var refs: map<Ref, Commit>
    var manifest: Option<Manifest>
    var completed: bool

    constructor (d: Disk)
      ensures Now() == d
    {
      record, lease, store, trash, refs, manifest, completed :=
        d.record, d.lease, d.store, d.trash, d.refs, d.manifest, d.completed;
    }

    function Now(): Disk
      reads this
    {
      Disk(record, lease, store, trash, refs, manifest, completed)
    }

    /** Deletes the refs in turn, each only while it names the recorded commit. */
    method RemoveHandoffRefs(targets: seq<RefTarget>, steps: nat) returns (r: Option<Outcome>)
      modifies `refs
      ensures Now() == DropRefs(old(Now()), targets, steps)
      ensures r == StopAtRefs(Removable(old(refs), targets), |targets|, steps)
    {
      var i := 0;
      while i < |targets| && i < steps
        invariant i <= |targets| && i <= steps
        invariant refs == old(refs) - Names(targets[..i])
        invariant Removable(old(refs), targets) == i + Removable(refs, targets[i..])
      {
        var t := targets[i];
        if Mismatch(refs, t) { return Some(RefMismatch); }
        assert targets[..i + 1] == targets[..i] + [t] && targets[i..][1..] == targets[i + 1..];
        NamesAppend(targets[..i], t);
        refs := refs - {t.ref};
        i := i + 1;
      }
      return if i == steps then Some(Crashed) else None;
    }

    /** The rename: a path that is in the store and not in the trash changes places. */
    method Rename(p: Path)
      requires p in store && p !in trash
      modifies `store, `trash
      ensures Here() == Renamed(old(Here()), p)
    {
      trash := trash[p := store[p]];
      store := store - {p};
    }

    method MoveRunToTrash(paths: seq<Path>, targets: seq<RefTarget>, steps: nat) returns (r: Outcome)
      requires trash == map[] && Distinct(paths)
      modifies this
      ensures (Now(), r) == MoveTo(old(Now()), paths, targets, steps)
    {
      if steps == 0 { return Crashed; }
      var order := MoveOrder(paths, record);
      MoveOrderDistinct(paths, record);
      manifest := Some(Manifest(order, targets));
      var stop := RemoveHandoffRefs(targets, steps - 1);
      if stop.Some? { return stop.value; }
      var left := steps - 1 - |targets|;
      MoveAll(order, left);
      if left <= |order| { return Crashed; }
      completed := true;
      r := Finished;
    }

    function Here(): Places
      reads this
    {
      Places(store, trash)
    }

    /** The renames of the first move; a path that is not there is passed over. */
    method MoveAll(order: seq<Path>, left: nat)
      requires trash == map[] && Distinct(order)
      modifies `store, `trash
      ensures Here() == Moved(old(Here()), order, Min(left, |order|))
    {
      ghost var before := Here();
      ShiftNone(before, order);
      var i := 0;
      while i < |order| && i < left
        invariant i <= |order| && i <= left
        invariant Here() == Moved(before, order, i)
      {
        NextRename(before, order, i, Here());
        if order[i] in store { Rename(order[i]); }
        i := i + 1;
      }
      assert i == Min(left, |order|);
    }

    method RecoverTrashIntent(steps: nat, holder: Blob) returns (r: Outcome)
      requires record != lease && (manifest.Some? ==> Distinct(manifest.value.paths))
      modifies this
      ensures (Now(), r) == RecoverTo(old(Now()), steps, holder)
    {
      if manifest.None? || completed { return NoIntent; }
      if !WithinBounds(manifest.value) { return InvalidManifest; }
      if steps == 0 { return Crashed; }
      var targets := manifest.value.targets;
      store := store[lease := holder];
      var stop := RemoveHandoffRefs(targets, steps - 1);
      if stop.Some? { return stop.value; }
      var order := RecoveryOrder(manifest.value.paths, lease, record);
      RecoveryOrderDistinct(manifest.value.paths, lease, record);
      r := MoveTheRest(order, steps - 1 - |targets|);
    }

    /** The renames of a recovery, which refuses what is in both places or in neither, and the completion mark. */
    method MoveTheRest(order: seq<Path>, left: nat) returns (r: Outcome)
      requires Distinct(order)
      modifies `store, `trash, `completed
      ensures (Now(), r) == Resume(old(Now()), order, left)
    {
      var i := RenameGood(order, left);
      if i == left { return Crashed; }
      if i < |order| { return if order[i] in store then DuplicateState else MissingState; }
      completed := true;
      r := Finished;
    }

    /** Renames path after path until one is in both places or in neither. */
    method RenameGood(order: seq<Path>, left: nat) returns (i: nat)
      requires Distinct(order)
      modifies `store, `trash
      ensures i == Min(left, Good(old(Here()), order))
      ensures Here() == Moved(old(Here()), order, i)
      ensures i < |order| ==> (order[i] in store <==> order[i] in old(store))
    {
      ghost var before := Here();
      ShiftNone(before, order);
      i := 0;
      while i < |order| && i < left
        invariant i <= |order| && i <= left && i <= Good(before, order)
        invariant Here() == Moved(before, order, i)
      {
        NextRename(before, order, i, Here());
        GoodAt(before, order, i);
        if (order[i] in store) == (order[i] in trash) { return; }
        if order[i] in store { Rename(order[i]); }
        i := i + 1;
      }
      if i < |order| { NextRename(before, order, i, Here()); }
    }
  }

  lemma {:induction false} GoodAt(at: Places, order: seq<Path>, i: nat)
    requires i < |order| && i <= Good(at, order)
    ensures Bad(at, order[i]) <==> i == Good(at, order)
  {
    if i > 0 { GoodAt(at, order[1..], i - 1); }
  }

  /** After `i` renames the next path is as it was, and its rename is the next shift. */
  lemma NextRename(before: Places, order: seq<Path>, i: nat, now: Places)
    requires Distinct(order) && i < |order| && now == Moved(before, order, i)
    ensures (order[i] in now.store <==> order[i] in before.store) && (order[i] in now.trash <==> order[i] in before.trash)
    ensures Moved(before, order, i + 1) == if order[i] in now.store then Renamed(now, order[i]) else now
  {
    ElementsMore(order, i);
    ShiftMore(before, Elements(order[..i]), order[i]);
  }

  predicate Distinct(paths: seq<Path>) {
    paths == [] || (paths[0] !in paths[1..] && Distinct(paths[1..]))
  }

  lemma {:induction false} DistinctAt(paths: seq<Path>, i: nat, j: nat)
    requires Distinct(paths) && i < j < |paths|
    ensures paths[i] != paths[j]
  {
    if i == 0 {
      assert paths[j] == paths[1..][j - 1];
    } else {
      DistinctAt(paths[1..], i - 1, j - 1);
    }
  }

  lemma NotEarlier(paths: seq<Path>, i: nat)
    requires Distinct(paths) && i < |paths|
    ensures paths[i] !in paths[..i]
  {
    if paths[i] in paths[..i] {
      var k :| 0 <= k < i && paths[k] == paths[i];
      DistinctAt(paths, k, i);
    }
  }

  lemma NamesAppend(targets: seq<RefTarget>, t: RefTarget)
    ensures Names(targets + [t]) == Names(targets) + {t.ref}
  {
    assert forall x :: x in targets + [t] <==> x in targets || x == t;
    assert t in targets + [t];
    forall r | r in Names(targets) ensures r in Names(targets + [t]) {
      var x :| x in targets && x.ref == r;
      assert x in targets + [t];
    }
  }

  /** One more rename is one more shift, and it finds its path as it was. */
  lemma ShiftMore(at: Places, gone: set<Path>, p: Path)
    requires p !in gone
    ensures var now, next := Shift(at, gone), Shift(at, gone + {p});
            && (p in now.store <==> p in at.store) && (p in now.trash <==> p in at.trash)
            && next == if p in at.store then Renamed(now, p) else now
  {
    var came, next := Arrived(at.store, gone), Arrived(at.store, gone + {p});
    assert next == if p in at.store then came[p := at.store[p]] else came;
    assert at.store - (gone + {p}) == (at.store - gone) - {p};
    assert p !in at.store ==> at.store - (gone + {p}) == at.store - gone;
    if p in at.store {
      assert at.trash + came[p := at.store[p]] == (at.trash + came)[p := at.store[p]];
    }
  }

  lemma ElementsMore(order: seq<Path>, i: nat)
    requires Distinct(order) && i < |order|
    ensures order[i] !in Elements(order[..i])
    ensures Elements(order[..i + 1]) == Elements(order[..i]) + {order[i]}
  {
    NotEarlier(order, i);
    assert order[..i + 1] == order[..i] + [order[i]];
  }

  lemma ShiftNone(at: Places, order: seq<Path>)
    ensures Moved(at, order, 0) == at
  {
    var next := Shift(at, Elements(order[..0]));
    assert Elements(order[..0]) == {};
    assert next.store == at.store && next.trash == at.trash;
  }

  lemma {:induction false} WithoutHas(paths: seq<Path>, p: Path, q: Path)
    ensures q in Without(paths, p) <==> q in paths && q != p
  {
    if paths != [] { WithoutHas(paths[1..], p, q); }
  }

  lemma {:induction false} WithoutDistinct(paths: seq<Path>, p: Path)
    requires Distinct(paths)
    ensures Distinct(Without(paths, p))
    ensures |Without(paths, p)| == |paths| - if p in paths then 1 else 0
  {
    if paths != [] {
      WithoutDistinct(paths[1..], p);
      WithoutHas(paths[1..], p, paths[0]);
      var rest := Without(paths[1..], p);
      assert Without(paths, p) == if paths[0] == p then rest else [paths[0]] + rest;
    }
  }

  lemma {:induction false} OnlyIs(paths: seq<Path>, p: Path)
    requires Distinct(paths)
    ensures Only(paths, p) == if p in paths then [p] else []
  {
    if paths != [] { OnlyIs(paths[1..], p); }
  }

  lemma {:induction false} JoinDistinct(xs: seq<Path>, ys: seq<Path>)
    requires Distinct(xs) && Distinct(ys) && forall p :: p in xs ==> p !in ys
    ensures Distinct(xs + ys)
  {
    if xs == [] {
      assert xs + ys == ys;
    } else {
      JoinDistinct(xs[1..], ys);
      assert (xs + ys)[1..] == xs[1..] + ys;
    }
  }

  /** What the orders are for: every path once, the run record last. */
  ghost predicate RecordLast(order: seq<Path>, paths: seq<Path>, record: Path) {
    && Distinct(order) && |order| == |paths| > 0
    && (forall p :: p in order <==> p in paths)
    && order[|order| - 1] == record
  }

  lemma MoveOrderDistinct(paths: seq<Path>, record: Path)
    requires Distinct(paths)
    ensures Distinct(MoveOrder(paths, record))
    ensures record in paths ==> RecordLast(MoveOrder(paths, record), paths, record)
  {
    var others := Without(paths, record);
    WithoutDistinct(paths, record);
    OnlyIs(paths, record);
    forall p ensures p in others <==> p in paths && p != record { WithoutHas(paths, record, p); }
    JoinDistinct(others, Only(paths, record));
  }

  lemma RecoveryOrderDistinct(paths: seq<Path>, lease: Path, record: Path)
    requires Distinct(paths) && lease != record
    ensures Distinct(RecoveryOrder(paths, lease, record))
  {
    var others := Without(Without(paths, lease), record);
    OthersAre(paths, lease, record);
    OnlyIs(paths, lease);
    OnlyIs(paths, record);
    ThreeParts(others, Only(paths, lease), Only(paths, record));
  }

  lemma RecoveryOrderEnds(paths: seq<Path>, lease: Path, record: Path)
    requires Distinct(paths) && lease != record && lease in paths && record in paths
    ensures var order := RecoveryOrder(paths, lease, record);
            RecordLast(order, paths, record) && |order| >= 2 && order[|order| - 2] == lease
  {
    RecoveryOrderDistinct(paths, lease, record);
    OthersAre(paths, lease, record);
    OnlyIs(paths, lease);
    OnlyIs(paths, record);
    EndsInOrder(Without(Without(paths, lease), record), paths, lease, record);
  }

  lemma EndsInOrder(others: seq<Path>, paths: seq<Path>, lease: Path, record: Path)
    requires lease != record && lease in paths && record in paths && Distinct(others + [lease] + [record])
    requires (forall p :: p in others <==> p in paths && p != lease && p != record) && |others| == |paths| - 2
    ensures var order := others + [lease] + [record];
            RecordLast(order, paths, record) && |order| >= 2 && order[|order| - 2] == lease
  {
    var order := others + [lease] + [record];
    forall p ensures p in order <==> p in paths {
      assert p in order <==> p in others || p == lease || p == record;
    }
  }

  lemma ThreeParts(xs: seq<Path>, ys: seq<Path>, zs: seq<Path>)
    requires Distinct(xs) && Distinct(ys) && Distinct(zs)
    requires (forall p :: p in xs ==> p !in ys && p !in zs) && (forall p :: p in ys ==> p !in zs)
    ensures Distinct(xs + ys + zs)
  {
    JoinDistinct(xs, ys);
    JoinDistinct(xs + ys, zs);
  }

  lemma OthersAre(paths: seq<Path>, lease: Path, record: Path)
    requires Distinct(paths) && lease != record
    ensures var others := Without(Without(paths, lease), record);
            && Distinct(others)
            && (forall p :: p in others <==> p in paths && p != lease && p != record)
            && (lease in paths && record in paths ==> |others| == |paths| - 2)
  {
    var noLease := Without(paths, lease);
    WithoutDistinct(paths, lease);
    WithoutDistinct(noLease, record);
    forall p ensures p in Without(noLease, record) <==> p in paths && p != lease && p != record {
      WithoutHas(paths, lease, p);
      WithoutHas(noLease, record, p);
    }
    WithoutHas(paths, lease, record);
  }

  // ----- a move and any number of recoveries -----

  /** What prune hands to the move: distinct existing paths, the run record and the lease record among them. */
  ghost predicate Listed(d: Disk, paths: seq<Path>) {
    && Distinct(paths) && d.record != d.lease
    && d.record in paths && d.lease in paths
    && (forall p :: p in paths ==> p in d.store)
    && d.trash == map[] && d.manifest == None && !d.completed
  }

  /** `p` is in the store or in the trash, not both, with the content it had. */
  ghost predicate InOnePlace(before: map<Path, Blob>, at: Places, p: Path)
    requires p in before
  {
    && (p in at.store <==> p !in at.trash)
    && (p in at.store ==> at.store[p] == before[p])
    && (p in at.trash ==> at.trash[p] == before[p])
  }

  /**
   Between the first step of the move and its completion: each path but the
   lease record is in exactly one place with the content it had, nothing else
   moved, and the run record is in the trash only when everything is.
   */
  ghost predicate Whole(before: Disk, paths: seq<Path>, targets: seq<RefTarget>, d: Disk) {
    && d.record == before.record && d.lease == before.lease
    && d.manifest == Some(Manifest(MoveOrder(paths, before.record), targets))
    && (forall p :: p in paths ==> p in before.store)
    && (forall p {:trigger InOnePlace(before.store, PlacesOf(d), p)} :: p in paths && p != d.lease ==>
        InOnePlace(before.store, PlacesOf(d), p))
    && (d.lease in d.store || d.lease in d.trash)
    && (forall p :: p in d.trash ==> p in paths)
    && (forall p :: p !in paths ==> (p in d.store <==> p in before.store) && (p in d.store ==> d.store[p] == before.store[p]))
    && (d.record in d.trash ==> forall p :: p in paths ==> p in d.trash)
    && (d.completed ==> forall p :: p in paths ==> p in d.trash)
  }

  /** The disks of a move under way. */
  ghost function Between(before: Disk, paths: seq<Path>, targets: seq<RefTarget>): iset<Disk> {
    iset d: Disk | Whole(before, paths, targets, d)
  }

  lemma MoveKeepsWhole(before: Disk, paths: seq<Path>, targets: seq<RefTarget>, steps: nat)
    requires Listed(before, paths) && steps > 0
    ensures MoveTo(before, paths, targets, steps).0 in Between(before, paths, targets)
  {
    var order := MoveOrder(paths, before.record);
    MoveOrderDistinct(paths, before.record);
    DroppedWhole(before, paths, targets, steps - 1);
    if steps - 1 > |targets| {
      var dropped := DropRefs(before.(manifest := Some(Manifest(order, targets))), targets, steps - 1);
      ShiftKeepsWhole(before, paths, targets, dropped, order, Min(steps - 1 - |targets|, |order|));
    }
  }

  lemma DroppedWhole(before: Disk, paths: seq<Path>, targets: seq<RefTarget>, steps: nat)
    requires Listed(before, paths)
    ensures var order := MoveOrder(paths, before.record);
            Whole(before, paths, targets, DropRefs(before.(manifest := Some(Manifest(order, targets))), targets, steps))
  {
    var order := MoveOrder(paths, before.record);
    var dropped := DropRefs(before.(manifest := Some(Manifest(order, targets))), targets, steps);
    forall p | p in paths ensures InOnePlace(before.store, PlacesOf(dropped), p) {}
  }

  lemma LastMovedLast(order: seq<Path>, paths: seq<Path>, record: Path, k: nat)
    requires RecordLast(order, paths, record) && k <= |order|
    ensures record in order[..k] <==> k == |order|
    ensures forall p :: p in order[..k] ==> p in paths
    ensures k == |order| ==> order[..k] == order
  {
    NotEarlier(order, |order| - 1);
    if k < |order| { assert forall p :: p in order[..k] ==> p in order[..|order| - 1]; }
  }

  lemma ShiftKeepsWhole(before: Disk, paths: seq<Path>, targets: seq<RefTarget>, d: Disk, order: seq<Path>, k: nat)
    requires Listed(before, paths) && Whole(before, paths, targets, d)
    requires RecordLast(order, paths, d.record) && k <= |order|
    ensures var moved := MoveFirst(d, order, k);
            && Whole(before, paths, targets, moved)
            && (k == |order| ==> (forall p :: p in paths ==> p in moved.trash && p !in moved.store)
                                 && Whole(before, paths, targets, moved.(completed := true)))
  {
    LastMovedLast(order, paths, d.record, k);
    WholeAfter(before, paths, targets, d, Elements(order[..k]));
    var moved := MoveFirst(d, order, k);
    forall p | p in paths && p != d.lease ensures InOnePlace(before.store, PlacesOf(moved.(completed := true)), p) {
      assert InOnePlace(before.store, PlacesOf(moved), p);
    }
  }

  lemma WholeAfter(before: Disk, paths: seq<Path>, targets: seq<RefTarget>, d: Disk, gone: set<Path>)
    requires Listed(before, paths) && Whole(before, paths, targets, d)
    requires (forall p :: p in gone ==> p in paths) && (d.record in gone ==> forall p :: p in paths ==> p in gone)
    ensures var at := Shift(PlacesOf(d), gone);
            Whole(before, paths, targets, d.(store := at.store, trash := at.trash))
    ensures d.record in gone ==> forall p :: p in paths ==>
        p in Shift(PlacesOf(d), gone).trash && p !in Shift(PlacesOf(d), gone).store
  {
    var at := Shift(PlacesOf(d), gone);
    forall p | p in paths && p != d.lease ensures InOnePlace(before.store, at, p) {
      assert InOnePlace(before.store, PlacesOf(d), p);
    }
    if d.record in gone {
      forall p | p in paths ensures p in at.trash && p !in at.store {
        assert p != d.lease ==> InOnePlace(before.store, PlacesOf(d), p);
      }
    }
  }

  lemma ReopenedKeepsWhole(before: Disk, paths: seq<Path>, targets: seq<RefTarget>, d: Disk, steps: nat, holder: Blob)
    requires Listed(before, paths) && Whole(before, paths, targets, d)
    ensures Whole(before, paths, targets, Reopened(d, targets, steps, holder))
  {
    forall p | p in paths && p != d.lease ensures InOnePlace(before.store, PlacesOf(Reopened(d, targets, steps, holder)), p) {
      assert InOnePlace(before.store, PlacesOf(d), p);
    }
  }

  lemma ResumeKeepsWhole(before: Disk, paths: seq<Path>, targets: seq<RefTarget>, d: Disk, order: seq<Path>, left: nat)
    requires Listed(before, paths) && Whole(before, paths, targets, d)
    requires RecordLast(order, paths, d.record)
    ensures Whole(before, paths, targets, Resume(d, order, left).0)
    ensures Resume(d, order, left).1 == Finished ==>
              var after := Resume(d, order, left).0;
              after.completed && forall p :: p in paths ==> p in after.trash && p !in after.store
  {
    ShiftKeepsWhole(before, paths, targets, d, order, Min(left, Good(PlacesOf(d), order)));
  }

  /** A recovery renames in an order that ends with the lease record and the run record. */
  lemma OrderOf(before: Disk, paths: seq<Path>, targets: seq<RefTarget>, d: Disk) returns (order: seq<Path>)
    requires Listed(before, paths) && Whole(before, paths, targets, d)
    ensures order == RecoveryOrder(d.manifest.value.paths, d.lease, d.record)
    ensures RecordLast(order, paths, d.record) && |order| >= 2 && order[|order| - 2] == d.lease
    ensures |d.manifest.value.paths| == |paths|
  {
    order := RecoveryOrder(d.manifest.value.paths, d.lease, d.record);
    MoveOrderDistinct(paths, d.record);
    RecoveryOrderEnds(d.manifest.value.paths, d.lease, d.record);
  }

  lemma ReopenedIn(before: Disk, paths: seq<Path>, targets: seq<RefTarget>, d: Disk, steps: nat, holder: Blob)
    requires Listed(before, paths) && d in Between(before, paths, targets)
    ensures d.manifest.Some? && Reopened(d, d.manifest.value.targets, steps, holder) in Between(before, paths, targets)
  {
    ReopenedKeepsWhole(before, paths, targets, d, steps, holder);
  }

  lemma ResumedIn(before: Disk, paths: seq<Path>, targets: seq<RefTarget>, d: Disk, steps: nat, holder: Blob, left: nat)
    requires Listed(before, paths) && d in Between(before, paths, targets) && d.manifest.Some?
    ensures var m := d.manifest.value;
            Resume(Reopened(d, m.targets, steps, holder), RecoveryOrder(m.paths, d.lease, d.record), left).0
                in Between(before, paths, targets)
  {
    ReopenedKeepsWhole(before, paths, targets, d, steps, holder);
    var order := OrderOf(before, paths, targets, d);
    ResumeKeepsWhole(before, paths, targets, Reopened(d, targets, steps, holder), order, left);
  }

  lemma RecoveryKeepsWhole(before: Disk, paths: seq<Path>, targets: seq<RefTarget>, d: Disk, steps: nat, holder: Blob)
    requires Listed(before, paths) && d in Between(before, paths, targets)
    ensures RecoverTo(d, steps, holder).0 in Between(before, paths, targets)
  {
    if Intent(d) && WithinBounds(d.manifest.value) && steps > 0 {
      ReopenedIn(before, paths, targets, d, steps - 1, holder);
      if steps - 1 >= |d.manifest.value.targets| {
        ResumedIn(before, paths, targets, d, steps - 1, holder, steps - 1 - |d.manifest.value.targets|);
      }
    }
    if d.manifest.Some? { RecoverStops(d, steps, holder); }
  }

  /** Where a recovery can end: before it did anything, among the refs, or in the renames. */
  lemma RecoverStops(d: Disk, steps: nat, holder: Blob)
    requires d.manifest.Some?
    ensures var m, r := d.manifest.value, RecoverTo(d, steps, holder);
            if !Intent(d) || !WithinBounds(m) || steps == 0 then r.0 == d && r.1 != Finished
            else if StopAtRefs(Removable(d.refs, m.targets), |m.targets|, steps - 1).Some? then
              r.0 == Reopened(d, m.targets, steps - 1, holder) && r.1 != Finished
            else r == Resume(Reopened(d, m.targets, steps - 1, holder), RecoveryOrder(m.paths, d.lease, d.record),
                steps - 1 - |m.targets|)
  {}

  datatype Round = Round(steps: nat, holder: Blob)

  /** Later processes looking at the intent one after another, each dying or ending on its own. */
  function AfterRounds(d: Disk, rounds: seq<Round>): Disk {
    if rounds == [] then d
    else
      var last := rounds[|rounds| - 1];
      RecoverTo(AfterRounds(d, rounds[..|rounds| - 1]), last.steps, last.holder).0
  }

  lemma {:induction false} RoundsKeepWhole(before: Disk, paths: seq<Path>, targets: seq<RefTarget>, d: Disk, rounds: seq<Round>)
    requires Listed(before, paths) && d in Between(before, paths, targets)
    ensures AfterRounds(d, rounds) in Between(before, paths, targets)
  {
    if rounds != [] {
      RoundsKeepWhole(before, paths, targets, d, rounds[..|rounds| - 1]);
      RecoveryKeepsWhole(before, paths, targets, AfterRounds(d, rounds[..|rounds| - 1]),
                         rounds[|rounds| - 1].steps, rounds[|rounds| - 1].holder);
    }
  }

  /** After a crash of the move at any step and any number of recoveries crashed at any step. */
  lemma EachPathInOnePlace(before: Disk, paths: seq<Path>, targets: seq<RefTarget>, steps: nat, rounds: seq<Round>)
    requires Listed(before, paths) && steps > 0
    ensures Whole(before, paths, targets, AfterRounds(MoveTo(before, paths, targets, steps).0, rounds))
  {
    MoveKeepsWhole(before, paths, targets, steps);
    RoundsKeepWhole(before, paths, targets, MoveTo(before, paths, targets, steps).0, rounds);
  }

  /**
   A recovery that is not interrupted ends with everything in the trash exactly
   when the manifest is within bounds, no ref was repointed, and the lease
   record had not been moved.
   */
  lemma RecoversExactly(before: Disk, paths: seq<Path>, targets: seq<RefTarget>, d: Disk, steps: nat, holder: Blob)
    requires Listed(before, paths) && Whole(before, paths, targets, d) && Intent(d)
    requires steps > 1 + |targets| + |paths|
    ensures RecoverTo(d, steps, holder).1 == Finished <==>
            |paths| <= MAX_PATHS && |targets| <= MAX_REFS && Removable(d.refs, targets) == |targets| && d.lease !in d.trash
    ensures RecoverTo(d, steps, holder).1 == Finished ==>
            var after := RecoverTo(d, steps, holder).0;
            after.completed && forall p :: p in paths ==> p in after.trash && p !in after.store
    ensures |paths| <= MAX_PATHS && |targets| <= MAX_REFS && Removable(d.refs, targets) == |targets| && d.lease in d.trash ==>
            RecoverTo(d, steps, holder).1 == DuplicateState
  {
    RecoverIs(d, steps, holder);
    var order := OrderOf(before, paths, targets, d);
    if WithinBounds(d.manifest.value) && Removable(d.refs, targets) == |targets| {
      UnstoppedExactly(before, paths, targets, d, steps, holder);
    }
  }

  lemma UnstoppedExactly(before: Disk, paths: seq<Path>, targets: seq<RefTarget>, d: Disk, steps: nat, holder: Blob)
    requires Listed(before, paths) && Whole(before, paths, targets, d) && steps > 1 + |targets| + |paths|
    ensures var (after, outcome) := Resume(Reopened(d, targets, steps - 1, holder),
                                           RecoveryOrder(d.manifest.value.paths, d.lease, d.record), steps - 1 - |targets|);
            && outcome == (if d.lease in d.trash then DuplicateState else Finished)
            && (outcome == Finished ==> after.completed && forall p :: p in paths ==> p in after.trash && p !in after.store)
  {
    var order := OrderOf(before, paths, targets, d);
    ReopenedKeepsWhole(before, paths, targets, d, steps - 1, holder);
    var reopened := Reopened(d, targets, steps - 1, holder);
    assert reopened.lease == d.lease && reopened.trash == d.trash;
    ResumeExactly(before, paths, targets, reopened, order, steps - 1 - |targets|);
  }

  /** Past the bounds and the refs, a recovery is its renames. */
  lemma RecoverIs(d: Disk, steps: nat, holder: Blob)
    requires Intent(d) && steps > 1 + |d.manifest.value.targets|
    ensures var m := d.manifest.value;
            if WithinBounds(m) && Removable(d.refs, m.targets) == |m.targets| then
              RecoverTo(d, steps, holder) == Resume(Reopened(d, m.targets, steps - 1, holder),
                                                    RecoveryOrder(m.paths, d.lease, d.record), steps - 1 - |m.targets|)
            else RecoverTo(d, steps, holder).1 in {InvalidManifest, RefMismatch}
  {}

  lemma ResumeExactly(before: Disk, paths: seq<Path>, targets: seq<RefTarget>, d: Disk, order: seq<Path>, left: nat)
    requires Listed(before, paths) && Whole(before, paths, targets, d) && d.lease in d.store && left > |paths|
    requires RecordLast(order, paths, d.record) && |order| >= 2 && order[|order| - 2] == d.lease
    ensures var (after, outcome) := Resume(d, order, left);
            && outcome == (if d.lease in d.trash then DuplicateState else Finished)
            && (outcome == Finished ==> after.completed && forall p :: p in paths ==> p in after.trash && p !in after.store)
  {
    GoodUpToLease(before, paths, targets, d, order);
    ResumeKeepsWhole(before, paths, targets, d, order, left);
  }

  /** With the lease record back in the store, it is the only path that can be in both places. */
  lemma GoodUpToLease(before: Disk, paths: seq<Path>, targets: seq<RefTarget>, d: Disk, order: seq<Path>)
    requires Listed(before, paths) && Whole(before, paths, targets, d) && d.lease in d.store
    requires RecordLast(order, paths, d.record) && |order| >= 2 && order[|order| - 2] == d.lease
    ensures Good(PlacesOf(d), order) == if d.lease in d.trash then |order| - 2 else |order|
  {
    var at := PlacesOf(d);
    forall p | p in order && p != d.lease ensures !Bad(at, p) { assert InOnePlace(before.store, PlacesOf(d), p); }
    if d.lease in d.trash {
      GoodStopsAt(at, order, |order| - 2);
    } else {
      AllGood(at, order);
    }
  }

  lemma {:induction false} AllGood(at: Places, order: seq<Path>)
    requires forall p :: p in order ==> !Bad(at, p)
    ensures Good(at, order) == |order|
  {
    if order != [] { AllGood(at, order[1..]); }
  }

  /** The recovery stops no later than a bad path, and there when all others are good. */
  lemma {:induction false} GoodStopsAt(at: Places, order: seq<Path>, i: nat)
    requires i < |order| && Distinct(order) && Bad(at, order[i])
    ensures Good(at, order) <= i
    ensures (forall p :: p in order && p != order[i] ==> !Bad(at, p)) ==> Good(at, order) == i
  {
    if i > 0 {
      assert order[i] == order[1..][i - 1];
      GoodStopsAt(at, order[1..], i - 1);
    }
  }

  /** Once the lease record is in the trash without the completion mark, no recovery ever ends. */
  lemma {:induction false} StuckForever(d: Disk, rounds: seq<Round>)
    requires Intent(d) && d.record != d.lease && d.lease in d.trash
    requires Distinct(d.manifest.value.paths) && d.lease in d.manifest.value.paths && d.record in d.manifest.value.paths
    ensures var now := AfterRounds(d, rounds);
            Intent(now) && now.manifest == d.manifest && now.record == d.record && now.lease == d.lease && d.lease in now.trash
    ensures forall steps, holder :: RecoverTo(AfterRounds(d, rounds), steps, holder).1 != Finished
  {
    if rounds != [] { StuckForever(d, rounds[..|rounds| - 1]); }
    var now := if rounds == [] then d else AfterRounds(d, rounds[..|rounds| - 1]);
    if rounds != [] { NeverFinishes(now, rounds[|rounds| - 1].steps, rounds[|rounds| - 1].holder); }
    forall steps, holder ensures RecoverTo(AfterRounds(d, rounds), steps, holder).1 != Finished {
      NeverFinishes(AfterRounds(d, rounds), steps, holder);
    }
  }

  lemma NeverFinishes(d: Disk, steps: nat, holder: Blob)
    requires Intent(d) && d.record != d.lease && d.lease in d.trash
    requires Distinct(d.manifest.value.paths) && d.lease in d.manifest.value.paths && d.record in d.manifest.value.paths
    ensures var r := RecoverTo(d, steps, holder);
            && r.1 != Finished && Intent(r.0) && r.0.manifest == d.manifest
            && r.0.record == d.record && r.0.lease == d.lease && d.lease in r.0.trash
  {
    var m := d.manifest.value;
    RecoverStops(d, steps, holder);
    RecoveryOrderEnds(m.paths, d.lease, d.record);
    if steps - 1 > |m.targets| {
      ResumeNeverFinishes(Reopened(d, m.targets, steps - 1, holder), RecoveryOrder(m.paths, d.lease, d.record),
          steps - 1 - |m.targets|);
    }
  }

  lemma ResumeNeverFinishes(d: Disk, order: seq<Path>, left: nat)
    requires d.lease in d.store && d.lease in d.trash && Distinct(order) && |order| >= 2 && order[|order| - 2] == d.lease
    ensures var r := Resume(d, order, left);
            r.1 != Finished && r.0 == d.(store := r.0.store, trash := r.0.trash) && d.lease in r.0.trash
  {
    GoodStopsAt(PlacesOf(d), order, |order| - 2);
  }

  // ----- all intents, as every prune looks at them first -----

  /** Whether another process holds the run's lease, or else the record that taking it installs. */
  datatype Look = Held | Taken(holder: Blob)

  /** One intent after an uninterrupted look at it. */
  function Looked(d: Disk, look: Look): (Disk, Outcome) {
    if !Intent(d) || look.Held? then (d, NoIntent)
    else RecoverTo(d, 2 + |d.manifest.value.targets| + |d.manifest.value.paths|, look.holder)
  }

  predicate Passes(o: Outcome) { o == NoIntent || o == Finished }

  /** Looks at the intents in the order of the trash directory; the first that refuses ends the whole prune. */
  method RecoverTrashIntents(disks: seq<Disk>, looks: seq<Look>) returns (seen: seq<(Disk, Outcome)>, refused: bool)
    requires |looks| == |disks|
    ensures |seen| <= |disks| && forall k :: 0 <= k < |seen| ==> seen[k] == Looked(disks[k], looks[k])
    ensures !refused ==> |seen| == |disks| && forall k :: 0 <= k < |seen| ==> Passes(seen[k].1)
    ensures refused ==> seen != [] && !Passes(seen[|seen| - 1].1) && forall k :: 0 <= k < |seen| - 1 ==> Passes(seen[k].1)
  {
    seen, refused := [], false;
    while |seen| < |disks| && !refused
      invariant |seen| <= |disks| && forall k :: 0 <= k < |seen| ==> seen[k] == Looked(disks[k], looks[k])
      invariant forall k :: 0 <= k < (if refused then |seen| - 1 else |seen|) ==> Passes(seen[k].1)
      invariant refused ==> seen != [] && !Passes(seen[|seen| - 1].1)
      decreases |disks| - |seen|
    {
      var next := Looked(disks[|seen|], looks[|seen|]);
      refused := !Passes(next.1);
      seen := seen + [next];
    }
  }

  /** A stuck intent refuses every later prune that gets its run's lease, so that nothing is pruned any more. */
  lemma StuckRefusesEveryPrune(d: Disk, rounds: seq<Round>, holder: Blob)
    requires Intent(d) && d.record != d.lease && d.lease in d.trash
    requires Distinct(d.manifest.value.paths) && d.lease in d.manifest.value.paths && d.record in d.manifest.value.paths
    ensures !Passes(Looked(AfterRounds(d, rounds), Taken(holder)).1)
  {
    StuckForever(d, rounds);
    var now := AfterRounds(d, rounds);
    var m := now.manifest.value;
    assert RecoverTo(now, 2 + |m.targets| + |m.paths|, holder).1 != Finished;
  }

  /**
   A move that died after `steps` steps can still be finished exactly when it
   died no later than the rename of the lease record, whose place in the order
   is `at`.
   */
  lemma CrashedMoveRecoversExactly(before: Disk, paths: seq<Path>, targets: seq<RefTarget>, steps: nat, at: nat,
      more: nat, holder: Blob)
    requires Listed(before, paths) && 0 < steps <= 1 + |targets| + |paths|
    requires |paths| <= MAX_PATHS && |targets| <= MAX_REFS && Removable(before.refs, targets) == |targets|
    requires at < |MoveOrder(paths, before.record)| && MoveOrder(paths, before.record)[at] == before.lease
    requires more > 1 + |targets| + |paths|
    ensures MoveTo(before, paths, targets, steps).1 == Crashed
    ensures RecoverTo(MoveTo(before, paths, targets, steps).0, more, holder).1 == Finished <==> steps <= 1 + |targets| + at
  {
    var d := MoveTo(before, paths, targets, steps).0;
    var order := MoveOrder(paths, before.record);
    MoveKeepsWhole(before, paths, targets, steps);
    MoveOrderDistinct(paths, before.record);
    RemovableAfter(before.refs, targets, Min(steps - 1, |targets|));
    RecoversExactly(before, paths, targets, d, more, holder);
    LeaseMovedAfter(before, paths, targets, steps, at);
  }

  lemma LeaseMovedAfter(before: Disk, paths: seq<Path>, targets: seq<RefTarget>, steps: nat, at: nat)
    requires Listed(before, paths) && 0 < steps <= 1 + |targets| + |paths|
    requires Removable(before.refs, targets) == |targets|
    requires at < |MoveOrder(paths, before.record)| && MoveOrder(paths, before.record)[at] == before.lease
    ensures var (d, outcome) := MoveTo(before, paths, targets, steps);
            && outcome == Crashed && !d.completed
            && d.refs == before.refs - Names(targets[..Min(steps - 1, |targets|)])
            && (d.lease in d.trash <==> steps > 1 + |targets| + at)
  {
    var order := MoveOrder(paths, before.record);
    MoveOrderDistinct(paths, before.record);
    if steps - 1 > |targets| {
      PlaceOf(order, at, steps - 1 - |targets|);
    }
  }

  lemma PlaceOf(order: seq<Path>, at: nat, k: nat)
    requires Distinct(order) && at < |order| && k <= |order|
    ensures order[at] in order[..k] <==> at < k
  {
    NotEarlier(order, at);
    if at >= k { assert forall p :: p in order[..k] ==> p in order[..at]; }
  }

  /** Refs already deleted do not stand in the way of deleting the rest. */
  lemma {:induction false} RemovableAfter(refs: map<Ref, Commit>, targets: seq<RefTarget>, n: nat)
    requires Removable(refs, targets) == |targets| && n <= |targets|
    ensures Removable(refs - Names(targets[..n]), targets) == |targets|
  {
    FewerRefs(refs, refs - Names(targets[..n]), targets);
  }

  lemma {:induction false} FewerRefs(refs: map<Ref, Commit>, fewer: map<Ref, Commit>, targets: seq<RefTarget>)
    requires Removable(refs, targets) == |targets|
    requires forall r :: r in fewer ==> r in refs && fewer[r] == refs[r]
    ensures Removable(fewer, targets) == |targets|
  {
    if targets != [] {
      FewerRefs(refs - {targets[0].ref}, fewer - {targets[0].ref}, targets[1..]);
    }
  }

  /** A run record 1, its lease record 3 and a session directory 4, in the order prune lists them. */
  function Example(): Disk {
    Disk(1, 3, map[1 := 11, 3 := 13, 4 := 14], map[], map[], None, false)
  }

  lemma ExampleOrder()
    ensures Listed(Example(), [1, 3, 4]) && MoveOrder([1, 3, 4], 1) == [3, 4, 1]
  {
    var paths := [1, 3, 4];
    assert paths[1..] == [3, 4] && [3, 4][1..] == [4];
    assert Without([4], 1) == [4] && Only([4], 1) == [];
    assert Distinct([4]) && Distinct([3, 4]);
  }

  /** The move dies right after the lease record left the store: the session stays behind for good. */
  lemma LeaseMovedFirstIsStuck(rounds: seq<Round>)
    ensures Listed(Example(), [1, 3, 4])
    ensures var d := MoveTo(Example(), [1, 3, 4], [], 2).0;
            d.lease in d.trash && !AfterRounds(d, rounds).completed
  {
    ExampleOrder();
    var d := MoveTo(Example(), [1, 3, 4], [], 2).0;
    LeaseMovedAfter(Example(), [1, 3, 4], [], 2, 0);
    MoveKeepsWhole(Example(), [1, 3, 4], [], 2);
    MoveOrderDistinct([1, 3, 4], 1);
    StuckForever(d, rounds);
  }
}
