/**
 Worktrees, hand-offs and releases over a commit graph (src/workspace/worktree.ts).
 An operation is a row of git and file steps: `Step` is one of them, against the
 repository as it is at that moment, and WorktreeRuns.dfy puts anything in
 between. Commits are numbered in the order they were made, so a parent has a
 smaller number; branch, ref, path and record of an attempt are named by the
 attempt.
 */
module Worktree {
  import opened Outcomes

  type CommitId = nat
  type Tree = nat
  type Attempt = nat

  datatype Commit = Commit(parents: seq<CommitId>, tree: Tree)

  datatype Record = Record(attempt: Attempt, baseline: CommitId, start: Option<CommitId>, handoff: Option<CommitId>, released: bool)

  /** A checkout: the branch its HEAD names and the tree of its files. */
  datatype Checkout = Checkout(branch: Attempt, files: Tree)

  datatype Repo = Repo(
    commits: map<CommitId, Commit>,
    branches: map<Attempt, CommitId>,
    refs: map<Attempt, CommitId>,
    checkouts: map<Attempt, Checkout>,
    reserved: set<Attempt>,
    records: map<Attempt, Record>)

  datatype Outcome =
    | Done
    | NotClean | NotThisBaseline | NotReachable | AlreadyReserved | BranchTaken
    | AlreadyCaptured | IdentityMismatch | RefExists | NoChanges | Reverted | BranchMoved | RefMismatch
    | Dirty | StillThere | GitRefused

  /** Where an operation is: what it has found out or done so far. */
  datatype Job =
    | Creating(head: CommitId, dirty: bool, startAt: Option<CommitId>, from: Option<Record>)
    | Resolved(record: Record)                   // the start commit is known
    | Reserved(record: Record)                   // the record file is
    | Added(record: Record)                      // branch and checkout are there
    | Capturing(record: Record)
    | AtStart(record: Record)                    // branch and HEAD are as recorded
    | RefFree(record: Record)                    // no ref has the hand-off's name
    | Staged(record: Record, tree: Tree)
    | Differs(record: Record, tree: Tree)        // from HEAD
    | Committed(record: Record, commit: CommitId)
    | Moved(record: Record, commit: CommitId)    // the branch
    | Pinned(record: Record, commit: CommitId)   // by the durable ref
    | Removing(record: Record)
    | SeenClean(record: Record)
    | AtHead(record: Record)                     // branch and HEAD are as recorded
    | Releasing(record: Record)
    | PathGone(record: Record)
    | RefResolves(record: Record)                // to the hand-off, if there is one
    | Listed(record: Record)                     // the branch is there
    | HeadMatches(record: Record)                // the branch is the commit recorded
    | Unbranched(record: Record)                 // the branch is not there any more

  datatype Next = On(job: Job) | End(outcome: Outcome)

  function Look<V>(m: map<nat, V>, a: nat): Option<V> {
    if a in m then Some(m[a]) else None
  }

  function StartCommit(r: Record): CommitId {
    if r.start.Some? then r.start.value else r.baseline
  }

  function ExpectedHead(r: Record): CommitId {
    if r.handoff.Some? then r.handoff.value else StartCommit(r)
  }

  /** The hand-off, if there is one, is what its durable ref resolves to. */
  predicate Reachable(g: Repo, r: Record) {
    r.handoff.Some? ==> Look(g.refs, r.attempt) == r.handoff
  }

  /** The checkout is on its own branch and that branch is at `c`. */
  predicate At(g: Repo, a: Attempt, c: CommitId) {
    a in g.checkouts && g.checkouts[a].branch == a && Look(g.branches, a) == Some(c)
  }

  function HeadTree(g: Repo, a: Attempt): Option<Tree> {
    if a !in g.checkouts then None
    else match Look(g.branches, g.checkouts[a].branch)
      case Some(c) => if c in g.commits then Some(g.commits[c].tree) else None
      case None => None
  }

  predicate IsClean(g: Repo, a: Attempt) {
    a in g.checkouts && HeadTree(g, a) == Some(g.checkouts[a].files)
  }

  /** git deletes no branch that a checkout is on. */
  predicate CheckedOut(g: Repo, a: Attempt) {
    exists b :: b in g.checkouts && g.checkouts[b].branch == a
  }

  function StartFor(g: Repo, head: CommitId, startAt: Option<CommitId>, from: Option<Record>): Result<Option<CommitId>, Outcome> {
    if from.None? then Ok(startAt)
    else if from.value.handoff.None? || from.value.baseline != head then Err(NotThisBaseline)
    else if !Reachable(g, from.value) then Err(NotReachable)
    else Ok(from.value.handoff)
  }

  function StepCreate(g: Repo, a: Attempt, job: Job): (Repo, Next)
    requires job.Creating? || job.Resolved? || job.Reserved? || job.Added?
  {
    match job
    case Creating(head, dirty, startAt, from) => (
      if dirty then (g, End(NotClean))
      else match StartFor(g, head, startAt, from)
        case Err(e) => (g, End(e))
        case Ok(start) => (g, On(Resolved(Record(a, head, start, None, false)))))
    case Resolved(r) =>
      if a in g.reserved then (g, End(AlreadyReserved)) else (g.(reserved := g.reserved + {a}), On(Reserved(r)))
    case Reserved(r) =>
      if a in g.branches || a in g.checkouts || StartCommit(r) !in g.commits then (g, End(BranchTaken))
      else (g.(branches := g.branches[a := StartCommit(r)],
               checkouts := g.checkouts[a := Checkout(a, g.commits[StartCommit(r)].tree)]), On(Added(r)))
    case Added(r) => (g.(records := g.records[a := r]), End(Done))
  }

  /** What a capture looks at before it makes a commit. */
  function StepLook(g: Repo, a: Attempt, job: Job): (Repo, Next)
    requires job.Capturing? || job.AtStart? || job.RefFree? || job.Staged?
  {
    match job
    case Capturing(r) =>
      if r.handoff.Some? then (g, End(AlreadyCaptured))
      else if !At(g, a, StartCommit(r)) then (g, End(IdentityMismatch))
      else (g, On(AtStart(r)))
    case AtStart(r) => if a in g.refs then (g, End(RefExists)) else (g, On(RefFree(r)))
    case RefFree(r) => if a !in g.checkouts then (g, End(GitRefused)) else (g, On(Staged(r, g.checkouts[a].files)))
    case Staged(r, tree) => if HeadTree(g, a) == Some(tree) then (g, End(NoChanges)) else (g, On(Differs(r, tree)))
  }

  /** commit-tree on the baseline, compare-and-swap of the branch, durable ref, record. */
  function StepHandOff(g: Repo, a: Attempt, job: Job, id: CommitId): (Repo, Next)
    requires job.Differs? || job.Committed? || job.Moved? || job.Pinned?
  {
    match job
    case Differs(r, tree) =>
      if r.baseline in g.commits && g.commits[r.baseline].tree == tree then (g, End(Reverted))
      else (g.(commits := g.commits[id := Commit([r.baseline], tree)]), On(Committed(r, id)))
    case Committed(r, c) =>
      if Look(g.branches, a) != Some(StartCommit(r)) then (g, End(BranchMoved))
      else (g.(branches := g.branches[a := c]), On(Moved(r, c)))
    case Moved(r, c) =>
      if a !in g.refs then (g.(refs := g.refs[a := c]), On(Pinned(r, c)))
      else if g.refs[a] == c then (g, On(Pinned(r, c)))
      else (g, End(RefMismatch))
    case Pinned(r, c) => (g.(records := g.records[a := r.(handoff := Some(c))]), End(Done))
  }

  function StepRemove(g: Repo, a: Attempt, job: Job): (Repo, Next)
    requires job.Removing? || job.SeenClean? || job.AtHead?
  {
    match job
    case Removing(r) =>
      if a !in g.checkouts then (g, End(IdentityMismatch)) else if !IsClean(g, a) then (g, End(Dirty)) else (g, On(SeenClean(r)))
    case SeenClean(r) => if At(g, a, ExpectedHead(r)) then (g, On(AtHead(r))) else (g, End(IdentityMismatch))
    case AtHead(_) => if IsClean(g, a) then (g.(checkouts := g.checkouts - {a}), End(Done)) else (g, End(GitRefused))
  }

  /** Path, ref and branch are looked at one after the other; then the branch goes, whatever it holds by now. */
  function StepRelease(g: Repo, a: Attempt, job: Job): (Repo, Next)
    requires job.Releasing? || job.PathGone? || job.RefResolves? || job.Listed? || job.HeadMatches? || job.Unbranched?
  {
    match job
    case Releasing(r) => if a in g.checkouts then (g, End(StillThere)) else (g, On(PathGone(r)))
    case PathGone(r) => if Reachable(g, r) then (g, On(RefResolves(r))) else (g, End(NotReachable))
    case RefResolves(r) => (g, On(if a in g.branches then Listed(r) else Unbranched(r)))
    case Listed(r) =>
      if Look(g.branches, a) == Some(ExpectedHead(r)) then (g, On(HeadMatches(r))) else (g, End(IdentityMismatch))
    case HeadMatches(r) =>
      if a !in g.branches || CheckedOut(g, a) then (g, End(GitRefused))
      else (g.(branches := g.branches - {a}), On(Unbranched(r)))
    case Unbranched(r) => (g.(records := g.records[a := r.(released := true)]), End(Done))
  }

  /** One step of the operation; `id` is what git names the commit it makes, if it makes one. */
  function Step(g: Repo, a: Attempt, job: Job, id: CommitId): (Repo, Next) {
    if job.Creating? || job.Resolved? || job.Reserved? || job.Added? then StepCreate(g, a, job)
    else if job.Capturing? || job.AtStart? || job.RefFree? || job.Staged? then StepLook(g, a, job)
    else if job.Differs? || job.Committed? || job.Moved? || job.Pinned? then StepHandOff(g, a, job, id)
    else if job.Removing? || job.SeenClean? || job.AtHead? then StepRemove(g, a, job)
    else StepRelease(g, a, job)
  }

  datatype Observation = Absent | BranchRetained | CleanCheckout | DirtyCheckout | UnknownState

  function Observe(g: Repo, r: Record): Observation {
    if r.attempt !in g.checkouts then
      if r.attempt !in g.branches then (if r.released then Absent else UnknownState)
      else if g.branches[r.attempt] == ExpectedHead(r) then BranchRetained
      else UnknownState
    else if !At(g, r.attempt, ExpectedHead(r)) then UnknownState
    else if IsClean(g, r.attempt) then CleanCheckout
    else DirtyCheckout
  }

  // ----- an operation that nobody disturbs -----

  /** The repository after `n` steps, with nothing in between. */
  function Alone(g: Repo, a: Attempt, job: Job, id: CommitId, n: nat): (Repo, Next) {
    if n == 0 then (g, On(job))
    else
      var (h, next) := Alone(g, a, job, id, n - 1);
      if next.End? then (h, next) else Step(h, a, next.job, id)
  }

  /** No operation has more steps. */
  const ALL := 8

  lemma {:induction false} StillEnded(g: Repo, a: Attempt, job: Job, id: CommitId, n: nat, m: nat)
    requires n <= m && Alone(g, a, job, id, n).1.End?
    ensures Alone(g, a, job, id, m) == Alone(g, a, job, id, n)
  {
    if n < m { StillEnded(g, a, job, id, n, m - 1); }
  }

  lemma OneMore(g: Repo, a: Attempt, job: Job, id: CommitId, n: nat)
    requires Alone(g, a, job, id, n).1.On?
    ensures Alone(g, a, job, id, n + 1) == Step(Alone(g, a, job, id, n).0, a, Alone(g, a, job, id, n).1.job, id)
  {}

  /** The end of an operation is reached at the step that ends it. */
  lemma EndsAt(g: Repo, a: Attempt, job: Job, id: CommitId, n: nat)
    requires n < ALL && Alone(g, a, job, id, n).1.On?
    requires Step(Alone(g, a, job, id, n).0, a, Alone(g, a, job, id, n).1.job, id).1.End?
    ensures Alone(g, a, job, id, ALL) == Step(Alone(g, a, job, id, n).0, a, Alone(g, a, job, id, n).1.job, id)
  {
    OneMore(g, a, job, id, n);
    StillEnded(g, a, job, id, n + 1, ALL);
  }

  /** Nothing stands in the way of a capture. */
  predicate Capturable(g: Repo, r: Record) {
    && r.handoff.None? && At(g, r.attempt, StartCommit(r)) && r.attempt !in g.refs
    && HeadTree(g, r.attempt) != Some(g.checkouts[r.attempt].files)
    && !(r.baseline in g.commits && g.commits[r.baseline].tree == g.checkouts[r.attempt].files)
  }

  function CaptureRefusal(g: Repo, r: Record): Outcome {
    if r.handoff.Some? then AlreadyCaptured
    else if !At(g, r.attempt, StartCommit(r)) then IdentityMismatch
    else if r.attempt in g.refs then RefExists
    else if HeadTree(g, r.attempt) == Some(g.checkouts[r.attempt].files) then NoChanges
    else Reverted
  }

  /** An undisturbed capture after `n` steps. */
  function CaptureAt(g: Repo, r: Record, id: CommitId, n: nat): (Repo, Job)
    requires Capturable(g, r) && n < ALL
  {
    var a := r.attempt;
    var tree := g.checkouts[a].files;
    var made := g.(commits := g.commits[id := Commit([r.baseline], tree)]);
    var moved := made.(branches := g.branches[a := id]);
    if n == 0 then (g, Capturing(r))
    else if n == 1 then (g, AtStart(r))
    else if n == 2 then (g, RefFree(r))
    else if n == 3 then (g, Staged(r, tree))
    else if n == 4 then (g, Differs(r, tree))
    else if n == 5 then (made, Committed(r, id))
    else if n == 6 then (moved, Moved(r, id))
    else (moved.(refs := g.refs[a := id]), Pinned(r, id))
  }

  lemma {:induction false} CaptureSteps(g: Repo, r: Record, id: CommitId, n: nat)
    requires Capturable(g, r) && n < ALL
    ensures Alone(g, r.attempt, Capturing(r), id, n) == (CaptureAt(g, r, id, n).0, On(CaptureAt(g, r, id, n).1))
  {
    if n > 0 {
      CaptureSteps(g, r, id, n - 1);
      OneMore(g, r.attempt, Capturing(r), id, n - 1);
    }
  }

  lemma CaptureDone(g: Repo, r: Record, id: CommitId)
    requires Capturable(g, r)
    ensures var t := CaptureAt(g, r, id, 7).0;
            Alone(g, r.attempt, Capturing(r), id, ALL) == (t.(records := t.records[r.attempt := r.(handoff := Some(id))]), End(Done))
  {
    CaptureSteps(g, r, id, 7);
    EndsAt(g, r.attempt, Capturing(r), id, 7);
  }

  lemma CaptureRefused(g: Repo, r: Record, id: CommitId)
    requires !Capturable(g, r)
    ensures Alone(g, r.attempt, Capturing(r), id, ALL) == (g, End(CaptureRefusal(g, r)))
  {
    var job := Capturing(r);
    if r.handoff.Some? || !At(g, r.attempt, StartCommit(r)) {
      EndsAt(g, r.attempt, job, id, 0);
    } else {
      OneMore(g, r.attempt, job, id, 0);
      if r.attempt in g.refs { EndsAt(g, r.attempt, job, id, 1); } else { SameTree(g, r, id); }
    }
  }

  /** The files are those of HEAD or of the baseline. */
  lemma SameTree(g: Repo, r: Record, id: CommitId)
    requires !Capturable(g, r) && r.handoff.None? && At(g, r.attempt, StartCommit(r)) && r.attempt !in g.refs
    requires Alone(g, r.attempt, Capturing(r), id, 1) == (g, On(AtStart(r)))
    ensures Alone(g, r.attempt, Capturing(r), id, ALL) == (g, End(CaptureRefusal(g, r)))
  {
    var job := Capturing(r);
    OneMore(g, r.attempt, job, id, 1);
    OneMore(g, r.attempt, job, id, 2);
    if HeadTree(g, r.attempt) == Some(g.checkouts[r.attempt].files) {
      EndsAt(g, r.attempt, job, id, 3);
    } else {
      OneMore(g, r.attempt, job, id, 3);
      EndsAt(g, r.attempt, job, id, 4);
    }
  }

  /** Nothing stands in the way of a release. */
  predicate Releasable(g: Repo, r: Record) {
    && r.attempt !in g.checkouts && Reachable(g, r)
    && (r.attempt in g.branches ==> g.branches[r.attempt] == ExpectedHead(r) && !CheckedOut(g, r.attempt))
  }

  function ReleaseRefusal(g: Repo, r: Record): Outcome {
    if r.attempt in g.checkouts then StillThere
    else if !Reachable(g, r) then NotReachable
    else if Look(g.branches, r.attempt) != Some(ExpectedHead(r)) then IdentityMismatch
    else GitRefused
  }

  function Freed(g: Repo, r: Record): Repo {
    g.(branches := g.branches - {r.attempt}, records := g.records[r.attempt := r.(released := true)])
  }

  lemma ReleaseLooks(g: Repo, r: Record)
    ensures r.attempt !in g.checkouts && Reachable(g, r) ==>
              Alone(g, r.attempt, Releasing(r), 0, 3) == (g, On(if r.attempt in g.branches then Listed(r) else Unbranched(r)))
    ensures !(r.attempt !in g.checkouts && Reachable(g, r)) ==>
              Alone(g, r.attempt, Releasing(r), 0, ALL) == (g, End(ReleaseRefusal(g, r)))
  {
    var job := Releasing(r);
    if r.attempt in g.checkouts {
      EndsAt(g, r.attempt, job, 0, 0);
    } else {
      OneMore(g, r.attempt, job, 0, 0);
      if Reachable(g, r) {
        OneMore(g, r.attempt, job, 0, 1);
        OneMore(g, r.attempt, job, 0, 2);
      } else {
        EndsAt(g, r.attempt, job, 0, 1);
      }
    }
  }

  lemma ReleaseAlone(g: Repo, r: Record)
    ensures Alone(g, r.attempt, Releasing(r), 0, ALL) ==
            if Releasable(g, r) then (Freed(g, r), End(Done)) else (g, End(ReleaseRefusal(g, r)))
  {
    var a, job := r.attempt, Releasing(r);
    ReleaseLooks(g, r);
    if a !in g.checkouts && Reachable(g, r) {
      if a !in g.branches {
        assert g.branches - {a} == g.branches;
        EndsAt(g, a, job, 0, 3);
      } else if g.branches[a] != ExpectedHead(r) {
        EndsAt(g, a, job, 0, 3);
      } else {
        OneMore(g, a, job, 0, 3);
        ReleaseDeletes(g, r);
      }
    }
  }

  lemma ReleaseDeletes(g: Repo, r: Record)
    requires Alone(g, r.attempt, Releasing(r), 0, 4) == (g, On(HeadMatches(r))) && r.attempt in g.branches
    ensures Alone(g, r.attempt, Releasing(r), 0, ALL) ==
            if CheckedOut(g, r.attempt) then (g, End(GitRefused)) else (Freed(g, r), End(Done))
  {
    if CheckedOut(g, r.attempt) {
      EndsAt(g, r.attempt, Releasing(r), 0, 4);
    } else {
      OneMore(g, r.attempt, Releasing(r), 0, 4);
      EndsAt(g, r.attempt, Releasing(r), 0, 5);
    }
  }

  // ----- the repository as the code changes it -----

  class Repository {
    var commits: map<CommitId, Commit>
    var branches: map<Attempt, CommitId>
    var refs: map<Attempt, CommitId>
    var checkouts: map<Attempt, Checkout>
    var reserved: set<Attempt>
    var records: map<Attempt, Record>

    constructor (g: Repo)
      ensures Now() == g
    {
      commits, branches, refs, checkouts, reserved, records := g.commits, g.branches, g.refs, g.checkouts, g.reserved, g.records;
    }

    function Now(): Repo
      reads this
    {
      Repo(commits, branches, refs, checkouts, reserved, records)
    }

    /** `git update-ref refs/heads/<a> <new> <old>` */
    method MoveBranch(a: Attempt, to: CommitId, from: CommitId) returns (ok: bool)
      modifies `branches
      ensures ok <==> a in old(branches) && old(branches)[a] == from
      ensures branches == if ok then old(branches)[a := to] else old(branches)
    {
      ok := a in branches && branches[a] == from;
      if ok { branches := branches[a := to]; }
    }

    /** `git update-ref <ref> <new> ""`; a ref that already pins this commit is accepted. */
    method PinRef(a: Attempt, to: CommitId) returns (ok: bool)
      modifies `refs
      ensures ok <==> a !in old(refs) || old(refs)[a] == to
      ensures refs == if a !in old(refs) then old(refs)[a := to] else old(refs)
    {
      ok := a !in refs || refs[a] == to;
      if a !in refs { refs := refs[a := to]; }
    }

    method CreateAttemptWorktree(a: Attempt, head: CommitId, dirty: bool, startAt: Option<CommitId>, from: Option<Record>)
        returns (r: Outcome)
      modifies this
      ensures (Now(), End(r)) == Alone(old(Now()), a, Creating(head, dirty, startAt, from), 0, ALL)
    {
      ghost var g, job := Now(), Creating(head, dirty, startAt, from);
      var start := StartFor(Now(), head, startAt, from);
      if dirty || start.Err? {
        EndsAt(g, a, job, 0, 0);
        return if dirty then NotClean else start.error;
      }
      OneMore(g, a, job, 0, 0);
      var record := Record(a, head, start.value, None, false);
      if a in reserved {
        EndsAt(g, a, job, 0, 1);
        return AlreadyReserved;
      }
      OneMore(g, a, job, 0, 1);
      reserved := reserved + {a};
      if a in branches || a in checkouts || StartCommit(record) !in commits {
        EndsAt(g, a, job, 0, 2);
        return BranchTaken;
      }
      OneMore(g, a, job, 0, 2);
      branches := branches[a := StartCommit(record)];
      checkouts := checkouts[a := Checkout(a, commits[StartCommit(record)].tree)];
      EndsAt(g, a, job, 0, 3);
      records := records[a := record];
      r := Done;
    }

    method CaptureWorktreeHandoff(record: Record, id: CommitId) returns (r: Outcome)
      modifies this
      ensures (Now(), End(r)) == Alone(old(Now()), record.attempt, Capturing(record), id, ALL)
    {
      var a := record.attempt;
      if Capturable(Now(), record) { CaptureDone(Now(), record, id); } else { CaptureRefused(Now(), record, id); }
      if record.handoff.Some? { return AlreadyCaptured; }
      if !At(Now(), a, StartCommit(record)) { return IdentityMismatch; }
      if a in refs { return RefExists; }
      var tree := checkouts[a].files;
      if HeadTree(Now(), a) == Some(tree) { return NoChanges; }
      if record.baseline in commits && commits[record.baseline].tree == tree { return Reverted; }
      commits := commits[id := Commit([record.baseline], tree)];
      var moved := MoveBranch(a, id, StartCommit(record));
      var pinned := PinRef(a, id);
      assert moved && pinned;
      records := records[a := record.(handoff := Some(id))];
      r := Done;
    }

    method RemoveCleanWorktree(record: Record) returns (r: Outcome)
      modifies `checkouts
      ensures (Now(), End(r)) == Alone(old(Now()), record.attempt, Removing(record), 0, ALL)
    {
      var a := record.attempt;
      ghost var g, job := Now(), Removing(record);
      if !IsClean(Now(), a) {
        EndsAt(g, a, job, 0, 0);
        return if a in checkouts then Dirty else IdentityMismatch;
      }
      OneMore(g, a, job, 0, 0);
      if !At(Now(), a, ExpectedHead(record)) {
        EndsAt(g, a, job, 0, 1);
        return IdentityMismatch;
      }
      OneMore(g, a, job, 0, 1);
      EndsAt(g, a, job, 0, 2);
      checkouts := checkouts - {a};
      r := Done;
    }

    method ReleaseWorktreeBranch(record: Record) returns (r: Outcome)
      modifies `branches, `records
      ensures (Now(), End(r)) == Alone(old(Now()), record.attempt, Releasing(record), 0, ALL)
    {
      var a := record.attempt;
      ReleaseAlone(Now(), record);
      if a in checkouts { return StillThere; }
      if !Reachable(Now(), record) { return NotReachable; }
      if a in branches {
        if branches[a] != ExpectedHead(record) { return IdentityMismatch; }
        if CheckedOut(Now(), a) { return GitRefused; }
        branches := branches - {a};
      } else {
        assert branches - {a} == branches;
      }
      records := records[a := record.(released := true)];
      r := Done;
    }
  }
}
