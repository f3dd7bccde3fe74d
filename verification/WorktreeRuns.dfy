/**
 Worktree operations one git or file step at a time, with anybody at the
 repository in between: commits, moved or deleted branches and refs, edited
 checkouts, other attempts' operations, and deaths. The run lease lets one
 operation of an attempt run at a time; one that finds its lease lost stops as if
 it had died.
 */
module WorktreeRuns {
  import opened Outcomes
  import opened Worktree

  datatype State = State(repo: Repo, jobs: map<Attempt, Job>)

  datatype Action =
    | Begin(a: Attempt, job: Job)
    | Go(a: Attempt, id: CommitId)
    | Die(a: Attempt)
    | Edit(a: Attempt, checkout: Checkout)                // the agent at work, or anyone else
    | UserCommit(id: CommitId, commit: Commit)
    | UserBranch(a: Attempt, to: Option<CommitId>)        // anyone may move or delete branches and refs
    | UserRef(a: Attempt, to: Option<CommitId>)

  /** An operation begins with what the disk says. */
  predicate Begins(g: Repo, a: Attempt, job: Job) {
    match job
    case Creating(head, _, _, from) =>
      head in g.commits && (from.Some? ==> Look(g.records, from.value.attempt) == from)
    case Capturing(r) => Look(g.records, a) == Some(r)
    case Removing(r) => Look(g.records, a) == Some(r)
    case Releasing(r) => Look(g.records, a) == Some(r)
    case _ => false
  }

  /** git's name for a new commit: a new one, or that of the same commit. */
  predicate Names(g: Repo, job: Job, id: CommitId) {
    job.Differs? ==> if id in g.commits then g.commits[id] == Commit([job.record.baseline], job.tree) else id > job.record.baseline
  }

  predicate Enabled(s: State, x: Action) {
    match x
    case Begin(a, job) => a !in s.jobs && Begins(s.repo, a, job)
    case Go(a, id) => a in s.jobs && Names(s.repo, s.jobs[a], id)
    case Die(a) => a in s.jobs
    case Edit(a, _) => a in s.repo.checkouts
    case UserCommit(id, commit) => id !in s.repo.commits && forall p :: p in commit.parents ==> p in s.repo.commits && p < id
    case UserBranch(_, to) => to.Some? ==> to.value in s.repo.commits
    case UserRef(_, to) => to.Some? ==> to.value in s.repo.commits
  }

  function Set(m: map<Attempt, CommitId>, a: Attempt, to: Option<CommitId>): map<Attempt, CommitId> {
    if to.Some? then m[a := to.value] else m - {a}
  }

  function Apply(s: State, x: Action): State
    requires Enabled(s, x)
  {
    match x
    case Begin(a, job) => s.(jobs := s.jobs[a := job])
    case Go(a, id) =>
      var (g, next) := Step(s.repo, a, s.jobs[a], id);
      State(g, if next.On? then s.jobs[a := next.job] else s.jobs - {a})
    case Die(a) => s.(jobs := s.jobs - {a})
    case Edit(a, c) => s.(repo := s.repo.(checkouts := s.repo.checkouts[a := c]))
    case UserCommit(id, commit) => s.(repo := s.repo.(commits := s.repo.commits[id := commit]))
    case UserBranch(a, to) => s.(repo := s.repo.(branches := Set(s.repo.branches, a, to)))
    case UserRef(a, to) => s.(repo := s.repo.(refs := Set(s.repo.refs, a, to)))
  }

  ghost predicate IsRun(states: seq<State>, actions: seq<Action>) {
    && |states| == |actions| + 1
    && forall i :: 0 <= i < |actions| ==> Enabled(states[i], actions[i]) && states[i + 1] == Apply(states[i], actions[i])
  }

  /** Some history, no record, nothing at work. */
  ghost predicate Init(s: State) {
    Acyclic(s.repo.commits) && s.repo.records == map[] && s.jobs == map[]
  }

  // ----- invariant -----

  ghost predicate Acyclic(commits: map<CommitId, Commit>) {
    forall c {:trigger ParentsOk(commits, c)} :: c in commits ==> ParentsOk(commits, c)
  }

  predicate ParentsOk(commits: map<CommitId, Commit>, c: CommitId)
    requires c in commits
  {
    forall p :: p in commits[c].parents ==> p < c && p in commits
  }

  /** Commits are only added. */
  predicate Grows(commits: map<CommitId, Commit>, more: map<CommitId, Commit>) {
    forall c :: c in commits ==> c in more && more[c] == commits[c]
  }

  /** One commit straight on the record's baseline, with another tree. */
  predicate IsHandOff(commits: map<CommitId, Commit>, baseline: CommitId, c: CommitId) {
    c in commits && baseline in commits && commits[c].parents == [baseline] && commits[c].tree != commits[baseline].tree
  }

  predicate RecordOk(commits: map<CommitId, Commit>, a: Attempt, r: Record) {
    && r.attempt == a && r.baseline in commits && StartCommit(r) in commits
    && (r.handoff.Some? ==> IsHandOff(commits, r.baseline, r.handoff.value))
  }

  predicate MakesHandOff(job: Job) { job.Committed? || job.Moved? || job.Pinned? }

  predicate FoundPathGone(job: Job) { job.PathGone? || job.RefResolves? || job.Listed? || job.HeadMatches? || job.Unbranched? }

  /** What the operation has found out about its own attempt and nobody can have changed since. */
  predicate JobOk(g: Repo, a: Attempt, job: Job) {
    if job.Creating? then job.head in g.commits
    else if job.Resolved? || job.Reserved? || job.Added? then
      && job.record.attempt == a && job.record.baseline in g.commits && job.record.handoff.None?
      && (!job.Resolved? ==> a in g.reserved && a !in g.records) && (job.Added? ==> StartCommit(job.record) in g.commits)
    else
      && Look(g.records, a) == Some(job.record)
      && (job.AtStart? || job.RefFree? || job.Staged? || job.Differs? || MakesHandOff(job) ==> job.record.handoff.None?)
      && (MakesHandOff(job) ==> IsHandOff(g.commits, job.record.baseline, job.commit))
      && (FoundPathGone(job) ==> a !in g.checkouts)
  }

  ghost predicate RepoOk(g: Repo) {
    && Acyclic(g.commits) && g.records.Keys <= g.reserved
    && forall a :: a in g.records ==> RecordOk(g.commits, a, g.records[a])
  }

  ghost predicate Inv(s: State) {
    RepoOk(s.repo) && forall a :: a in s.jobs ==> JobOk(s.repo, a, s.jobs[a])
  }

  /** A new commit on known parents keeps the graph acyclic. */
  lemma CommitAdded(commits: map<CommitId, Commit>, id: CommitId, commit: Commit)
    requires Acyclic(commits) && (id in commits ==> commits[id] == commit)
    requires id !in commits ==> forall p :: p in commit.parents ==> p < id && p in commits
    ensures Acyclic(commits[id := commit]) && Grows(commits, commits[id := commit])
  {
    var more := commits[id := commit];
    forall c | c in more ensures ParentsOk(more, c) {
      if c in commits { assert ParentsOk(commits, c); }
    }
  }

  lemma JobStaysOk(g: Repo, t: Repo, a: Attempt, job: Job)
    requires JobOk(g, a, job) && Grows(g.commits, t.commits)
    requires Look(t.records, a) == Look(g.records, a) && (a in t.checkouts ==> a in g.checkouts) && g.reserved <= t.reserved
    ensures JobOk(t, a, job)
  {}

  /** What one step of an attempt's operation leaves of the repository, and what it knows then. */
  ghost predicate Leaves(g: Repo, a: Attempt, t: Repo, next: Next) {
    && RepoOk(t) && Grows(g.commits, t.commits) && g.reserved <= t.reserved && (next.On? ==> JobOk(t, a, next.job))
    && forall b :: b != a ==> Look(t.records, b) == Look(g.records, b) && (b in t.checkouts ==> b in g.checkouts)
  }

  /** A step that changes branches and refs only. */
  lemma LeftAlone(g: Repo, a: Attempt, t: Repo, next: Next)
    requires RepoOk(g) && t.commits == g.commits && t.records == g.records
    requires t.checkouts == g.checkouts && t.reserved == g.reserved && (next.On? ==> JobOk(t, a, next.job))
    ensures Leaves(g, a, t, next)
  {}

  lemma CreateLeaves(g: Repo, a: Attempt, job: Job)
    requires RepoOk(g) && JobOk(g, a, job) && (job.Creating? || job.Resolved? || job.Reserved? || job.Added?)
    ensures Leaves(g, a, StepCreate(g, a, job).0, StepCreate(g, a, job).1)
  {}

  lemma LookLeaves(g: Repo, a: Attempt, job: Job)
    requires RepoOk(g) && JobOk(g, a, job) && (job.Capturing? || job.AtStart? || job.RefFree? || job.Staged?)
    ensures Leaves(g, a, StepLook(g, a, job).0, StepLook(g, a, job).1)
  {
    LeftAlone(g, a, g, StepLook(g, a, job).1);
  }

  lemma HandOffLeaves(g: Repo, a: Attempt, job: Job, id: CommitId)
    requires RepoOk(g) && JobOk(g, a, job) && Names(g, job, id) && (job.Differs? || job.Committed? || job.Moved? || job.Pinned?)
    ensures Leaves(g, a, StepHandOff(g, a, job, id).0, StepHandOff(g, a, job, id).1)
  {
    if job.Differs? {
      assert RecordOk(g.commits, a, job.record);
      CommitAdded(g.commits, id, Commit([job.record.baseline], job.tree));
    } else if job.Pinned? {
      RecordLeaves(g, a, job.record.(handoff := Some(job.commit)));
    } else {
      LeftAlone(g, a, StepHandOff(g, a, job, id).0, StepHandOff(g, a, job, id).1);
    }
  }

  lemma RemoveLeaves(g: Repo, a: Attempt, job: Job)
    requires RepoOk(g) && JobOk(g, a, job) && (job.Removing? || job.SeenClean? || job.AtHead?)
    ensures Leaves(g, a, StepRemove(g, a, job).0, StepRemove(g, a, job).1)
  {
    if !job.AtHead? { LeftAlone(g, a, g, StepRemove(g, a, job).1); }
  }

  lemma ReleaseLeaves(g: Repo, a: Attempt, job: Job)
    requires RepoOk(g) && JobOk(g, a, job)
    requires job.Releasing? || job.PathGone? || job.RefResolves? || job.Listed? || job.HeadMatches? || job.Unbranched?
    ensures Leaves(g, a, StepRelease(g, a, job).0, StepRelease(g, a, job).1)
  {
    if job.Unbranched? { RecordLeaves(g, a, job.record.(released := true)); }
    else { LeftAlone(g, a, StepRelease(g, a, job).0, StepRelease(g, a, job).1); }
  }

  /** The attempt's own record may be replaced by one that is as good. */
  lemma RecordLeaves(g: Repo, a: Attempt, r: Record)
    requires RepoOk(g) && a in g.records && (RecordOk(g.commits, a, g.records[a]) ==> RecordOk(g.commits, a, r))
    ensures Leaves(g, a, g.(records := g.records[a := r]), End(Done))
  {}

  lemma OwnStep(g: Repo, a: Attempt, job: Job, id: CommitId)
    requires RepoOk(g) && JobOk(g, a, job) && Names(g, job, id)
    ensures Leaves(g, a, Step(g, a, job, id).0, Step(g, a, job, id).1)
  {
    if job.Creating? || job.Resolved? || job.Reserved? || job.Added? { CreateLeaves(g, a, job); }
    else if job.Capturing? || job.AtStart? || job.RefFree? || job.Staged? { LookLeaves(g, a, job); }
    else if job.Differs? || job.Committed? || job.Moved? || job.Pinned? { HandOffLeaves(g, a, job, id); }
    else if job.Removing? || job.SeenClean? || job.AtHead? { RemoveLeaves(g, a, job); }
    else { ReleaseLeaves(g, a, job); }
  }

  lemma GoKeepsInv(s: State, a: Attempt, id: CommitId)
    requires Inv(s) && Enabled(s, Go(a, id))
    ensures Inv(Apply(s, Go(a, id))) && Grows(s.repo.commits, Apply(s, Go(a, id)).repo.commits)
  {
    OwnStep(s.repo, a, s.jobs[a], id);
    var t := Apply(s, Go(a, id));
    forall b | b in t.jobs && b != a ensures JobOk(t.repo, b, t.jobs[b]) {
      JobStaysOk(s.repo, t.repo, b, s.jobs[b]);
    }
  }

  lemma StepKeepsInv(s: State, x: Action)
    requires Inv(s) && Enabled(s, x)
    ensures Inv(Apply(s, x)) && Grows(s.repo.commits, Apply(s, x).repo.commits)
  {
    if x.Go? {
      GoKeepsInv(s, x.a, x.id);
    } else {
      var t := Apply(s, x);
      if x.UserCommit? { CommitAdded(s.repo.commits, x.id, x.commit); }
      forall a | a in t.jobs ensures JobOk(t.repo, a, t.jobs[a]) {
        if a in s.jobs { JobStaysOk(s.repo, t.repo, a, s.jobs[a]); }
      }
    }
  }

  lemma {:induction false} RunKeepsInv(states: seq<State>, actions: seq<Action>, i: nat)
    requires IsRun(states, actions) && Init(states[0]) && i < |states|
    ensures Inv(states[i])
  {
    if i > 0 {
      RunKeepsInv(states, actions, i - 1);
      StepKeepsInv(states[i - 1], actions[i - 1]);
    }
  }

  // ----- what a hand-off is -----

  /** A commit and everything behind it. */
  function Ancestors(commits: map<CommitId, Commit>, c: CommitId): set<CommitId>
    decreases c
  {
    if c !in commits then {c}
    else {c} + set p, x | p in commits[c].parents && p < c && x in Ancestors(commits, p) :: x
  }

  /** `git rev-list --count base..tip` */
  function Count(commits: map<CommitId, Commit>, base: CommitId, tip: CommitId): nat {
    |Ancestors(commits, tip) - Ancestors(commits, base)|
  }

  /** Every check `exportWorktreeHandoff` makes before it formats the patch. */
  predicate Exportable(g: Repo, r: Record) {
    && r.handoff.Some? && r.handoff.value != r.baseline && Reachable(g, r)
    && r.handoff.value in g.commits && g.commits[r.handoff.value].parents == [r.baseline]
    && Count(g.commits, r.baseline, r.handoff.value) == 1
  }

  lemma {:induction false} AncestorsAreOlder(commits: map<CommitId, Commit>, c: CommitId, x: CommitId)
    requires x in Ancestors(commits, c)
    ensures x <= c
    decreases c
  {
    if x != c {
      var p :| p in commits[c].parents && p < c && x in Ancestors(commits, p);
      AncestorsAreOlder(commits, p, x);
    }
  }

  /** One commit straight on the base: `base..tip` is that commit alone. */
  lemma OneOnTop(commits: map<CommitId, Commit>, base: CommitId, tip: CommitId)
    requires tip in commits && commits[tip].parents == [base] && base < tip
    ensures Ancestors(commits, tip) - Ancestors(commits, base) == {tip}
    ensures Count(commits, base, tip) == 1
  {
    assert base in commits[tip].parents;
    forall x ensures x in Ancestors(commits, tip) <==> x == tip || x in Ancestors(commits, base) {
      if x in Ancestors(commits, base) { AncestorsAreOlder(commits, base, x); }
    }
    if tip in Ancestors(commits, base) { AncestorsAreOlder(commits, base, tip); }
    assert Ancestors(commits, tip) - Ancestors(commits, base) == {tip};
  }

  lemma HandOffCounts(g: Repo, baseline: CommitId, c: CommitId)
    requires RepoOk(g) && IsHandOff(g.commits, baseline, c)
    ensures baseline < c && Count(g.commits, baseline, c) == 1
  {
    assert ParentsOk(g.commits, c) && baseline in g.commits[c].parents;
    OneOnTop(g.commits, baseline, c);
  }

  /** In any run, every record that names a hand-off names one non-empty commit on its baseline. */
  lemma HandoffIsOneCommit(states: seq<State>, actions: seq<Action>, i: nat, a: Attempt)
    requires IsRun(states, actions) && Init(states[0]) && i < |states|
    requires a in states[i].repo.records && states[i].repo.records[a].handoff.Some?
    ensures var g, r := states[i].repo, states[i].repo.records[a];
            IsHandOff(g.commits, r.baseline, r.handoff.value) && Count(g.commits, r.baseline, r.handoff.value) == 1
  {
    RunKeepsInv(states, actions, i);
    var g, r := states[i].repo, states[i].repo.records[a];
    assert RecordOk(g.commits, a, r);
    HandOffCounts(g, r.baseline, r.handoff.value);
  }

  /** In any run, a record's hand-off passes every export check exactly while its ref resolves to it. */
  lemma ExportableExactly(states: seq<State>, actions: seq<Action>, i: nat, a: Attempt)
    requires IsRun(states, actions) && Init(states[0]) && i < |states| && a in states[i].repo.records
    ensures var g, r := states[i].repo, states[i].repo.records[a];
            Exportable(g, r) <==> r.handoff.Some? && Look(g.refs, a) == r.handoff
  {
    RunKeepsInv(states, actions, i);
    assert RecordOk(states[i].repo.commits, a, states[i].repo.records[a]);
    if states[i].repo.records[a].handoff.Some? {
      HandoffIsOneCommit(states, actions, i, a);
      HandOffCounts(states[i].repo, states[i].repo.records[a].baseline, states[i].repo.records[a].handoff.value);
    }
  }

  // ----- what others did in the meantime -----

  /** What the last foreign change of `a`'s ref from step `i` up to step `j` set it to, if there was one. */
  function LastRef(actions: seq<Action>, i: nat, j: nat, a: Attempt): Option<Option<CommitId>>
    requires i <= j <= |actions|
  {
    if i == j then None
    else if actions[j - 1].UserRef? && actions[j - 1].a == a then Some(actions[j - 1].to)
    else LastRef(actions, i, j - 1, a)
  }

  function LastBranch(actions: seq<Action>, i: nat, j: nat, a: Attempt): Option<Option<CommitId>>
    requires i <= j <= |actions|
  {
    if i == j then None
    else if actions[j - 1].UserBranch? && actions[j - 1].a == a then Some(actions[j - 1].to)
    else LastBranch(actions, i, j - 1, a)
  }

  /** A value after what others did to it: what they last set it to, or else as it was. */
  function Since(last: Option<Option<CommitId>>, before: Option<CommitId>): Option<CommitId> {
    if last.Some? then last.value else before
  }

  /** From `i` on, up to `j`, attempt `a`'s operation stays where it is: step `j` is its next one. */
  ghost predicate Rests(states: seq<State>, i: nat, j: nat, a: Attempt, job: Job) {
    && i <= j < |states|
    && forall k {:trigger states[k]} :: i <= k <= j ==> Look(states[k].jobs, a) == Some(job)
  }

  lemma StepRefs(g: Repo, a: Attempt, job: Job, id: CommitId)
    ensures var t := Step(g, a, job, id).0;
            (!job.Moved? ==> t.refs == g.refs) && forall b :: b != a ==> Look(t.refs, b) == Look(g.refs, b)
  {}

  lemma StepBranches(g: Repo, a: Attempt, job: Job, id: CommitId)
    ensures var t := Step(g, a, job, id).0;
            && (!job.Reserved? && !job.Committed? && !job.HeadMatches? ==> t.branches == g.branches)
            && forall b :: b != a ==> Look(t.branches, b) == Look(g.branches, b)
  {}

  lemma RefStep(s: State, x: Action, a: Attempt)
    requires Enabled(s, x) && !Pins(s, x, a)
    ensures Look(Apply(s, x).repo.refs, a) == if x.UserRef? && x.a == a then x.to else Look(s.repo.refs, a)
  {
    if x.Go? { StepRefs(s.repo, x.a, s.jobs[x.a], x.id); }
  }

  lemma BranchStep(s: State, x: Action, a: Attempt)
    requires Enabled(s, x) && !Moves(s, x, a)
    ensures Look(Apply(s, x).repo.branches, a) == if x.UserBranch? && x.a == a then x.to else Look(s.repo.branches, a)
  {
    if x.Go? { StepBranches(s.repo, x.a, s.jobs[x.a], x.id); }
  }

  predicate Pins(s: State, x: Action, a: Attempt) {
    x.Go? && x.a == a && a in s.jobs && s.jobs[a].Moved?
  }

  predicate Moves(s: State, x: Action, a: Attempt) {
    x.Go? && x.a == a && a in s.jobs && (s.jobs[a].Reserved? || s.jobs[a].Committed? || s.jobs[a].HeadMatches?)
  }

  lemma {:induction false} RefSince(states: seq<State>, actions: seq<Action>, i: nat, j: nat, a: Attempt)
    requires IsRun(states, actions) && i <= j < |states| && forall k :: i <= k < j ==> !Pins(states[k], actions[k], a)
    ensures Look(states[j].repo.refs, a) == Since(LastRef(actions, i, j, a), Look(states[i].repo.refs, a))
    decreases j - i
  {
    if i < j {
      RefSince(states, actions, i, j - 1, a);
      RefStep(states[j - 1], actions[j - 1], a);
    }
  }

  lemma {:induction false} BranchSince(states: seq<State>, actions: seq<Action>, i: nat, j: nat, a: Attempt)
    requires IsRun(states, actions) && i <= j < |states| && forall k :: i <= k < j ==> !Moves(states[k], actions[k], a)
    ensures Look(states[j].repo.branches, a) == Since(LastBranch(actions, i, j, a), Look(states[i].repo.branches, a))
    decreases j - i
  {
    if i < j {
      BranchSince(states, actions, i, j - 1, a);
      BranchStep(states[j - 1], actions[j - 1], a);
    }
  }

  /** An operation past its beginning came there by a step of its own, and has rested since. */
  lemma {:induction false} Came(states: seq<State>, actions: seq<Action>, j: nat, a: Attempt) returns (i: nat)
    requires IsRun(states, actions) && Init(states[0]) && j < |states| && a in states[j].jobs
    requires var job := states[j].jobs[a]; !job.Creating? && !job.Capturing? && !job.Removing? && !job.Releasing?
    ensures i < j && actions[i].Go? && actions[i].a == a && a in states[i].jobs
    ensures Step(states[i].repo, a, states[i].jobs[a], actions[i].id) == (states[i + 1].repo, On(states[j].jobs[a]))
    ensures Rests(states, i + 1, j, a, states[j].jobs[a])
  {
    var x := actions[j - 1];
    if x.Go? && x.a == a {
      i := j - 1;
    } else {
      i := Came(states, actions, j - 1, a);
    }
  }

  lemma StepMovesOn(g: Repo, a: Attempt, job: Job, id: CommitId)
    ensures Step(g, a, job, id).1 != On(job)
  {}

  /** While an operation rests it takes no step. */
  lemma RestsQuietly(states: seq<State>, actions: seq<Action>, i: nat, j: nat, a: Attempt, job: Job)
    requires IsRun(states, actions) && Rests(states, i, j, a, job)
    ensures forall k :: i <= k < j ==> !(actions[k].Go? && actions[k].a == a)
  {
    forall k | i <= k < j && actions[k].Go? && actions[k].a == a ensures false {
      assert Look(states[k].jobs, a) == Some(job) && Look(states[k + 1].jobs, a) == Some(job);
      StepMovesOn(states[k].repo, a, job, actions[k].id);
    }
  }

  // ----- the two compare-and-swaps of a capture -----

  predicate Goes(states: seq<State>, actions: seq<Action>, j: nat, a: Attempt, job: Job)
    requires |states| == |actions| + 1
  {
    j < |actions| && actions[j].Go? && actions[j].a == a && Look(states[j].jobs, a) == Some(job)
  }

  /** Where a capture was before it looked for a ref, made its commit or moved its branch. */
  lemma Before(g: Repo, a: Attempt, earlier: Job, id: CommitId, job: Job)
    requires Step(g, a, earlier, id).1 == On(job)
    requires job.AtStart? || job.RefFree? || job.Staged? || job.Differs? || job.Committed? || job.Moved?
    ensures !earlier.Creating? && earlier.record == job.record
    ensures if job.AtStart? then earlier.Capturing? && At(g, a, StartCommit(job.record))
            else if job.RefFree? then earlier.AtStart? && a !in g.refs
            else if job.Staged? then earlier.RefFree?
            else if job.Differs? then earlier.Staged?
            else if job.Committed? then earlier.Differs?
            else earlier.Committed?
  {}

  /** A capture on its way to the branch began at the start commit and has not touched the branch. */
  lemma {:induction false} BackToStart(states: seq<State>, actions: seq<Action>, j: nat, a: Attempt) returns (i: nat)
    requires IsRun(states, actions) && Init(states[0]) && j < |states| && a in states[j].jobs
    requires var job := states[j].jobs[a]; job.AtStart? || job.RefFree? || job.Staged? || job.Differs? || job.Committed?
    ensures i < j && Goes(states, actions, i, a, Capturing(states[j].jobs[a].record))
    ensures At(states[i].repo, a, StartCommit(states[j].jobs[a].record))
    ensures forall k :: i <= k < j ==> !Moves(states[k], actions[k], a)
  {
    i := Came(states, actions, j, a);
    RestsQuietly(states, actions, i + 1, j, a, states[j].jobs[a]);
    Before(states[i].repo, a, states[i].jobs[a], actions[i].id, states[j].jobs[a]);
    if !states[i].jobs[a].Capturing? {
      i := BackToStart(states, actions, i, a);
    }
  }

  /**
   The branch moves exactly if it is still at the start commit it was at when the
   capture looked: nobody has changed it since, or the last one put it back.
   Otherwise the capture is refused and changes nothing.
   */
  lemma MovedExactly(states: seq<State>, actions: seq<Action>, j: nat, a: Attempt, r: Record, c: CommitId) returns (i: nat)
    requires IsRun(states, actions) && Init(states[0]) && Goes(states, actions, j, a, Committed(r, c))
    ensures i < j && Goes(states, actions, i, a, Capturing(r)) && At(states[i].repo, a, StartCommit(r))
    ensures var s, t := states[j], states[j + 1];
            if Since(LastBranch(actions, i, j, a), Some(StartCommit(r))) == Some(StartCommit(r)) then
              t.repo == s.repo.(branches := s.repo.branches[a := c]) && Look(t.jobs, a) == Some(Moved(r, c))
            else t.repo == s.repo && a !in t.jobs
  {
    i := BackToStart(states, actions, j, a);
    BranchSince(states, actions, i, j, a);
  }

  /** A capture on its way to the ref found none, and has not made one since. */
  lemma {:induction false} BackToLook(states: seq<State>, actions: seq<Action>, j: nat, a: Attempt) returns (i: nat)
    requires IsRun(states, actions) && Init(states[0]) && j < |states| && a in states[j].jobs
    requires var job := states[j].jobs[a]; job.RefFree? || job.Staged? || job.Differs? || job.Committed? || job.Moved?
    ensures i < j && Goes(states, actions, i, a, AtStart(states[j].jobs[a].record)) && a !in states[i].repo.refs
    ensures forall k :: i <= k < j ==> !Pins(states[k], actions[k], a)
  {
    i := Came(states, actions, j, a);
    RestsQuietly(states, actions, i + 1, j, a, states[j].jobs[a]);
    Before(states[i].repo, a, states[i].jobs[a], actions[i].id, states[j].jobs[a]);
    if !states[i].jobs[a].AtStart? {
      i := BackToLook(states, actions, i, a);
    }
  }

  /**
   The ref is made if there is still none, accepted if somebody has set it to the
   very commit since the capture looked, and refused if they set it to another;
   whichever it is, the last foreign change since decides.
   */
  lemma PinnedExactly(states: seq<State>, actions: seq<Action>, j: nat, a: Attempt, r: Record, c: CommitId) returns (i: nat)
    requires IsRun(states, actions) && Init(states[0]) && Goes(states, actions, j, a, Moved(r, c))
    ensures i < j && Goes(states, actions, i, a, AtStart(r)) && a !in states[i].repo.refs
    ensures var s, t, now := states[j], states[j + 1], Since(LastRef(actions, i, j, a), None);
            if now == None || now == Some(c) then
              && t.repo == s.repo.(refs := s.repo.refs[a := c]) && Look(t.jobs, a) == Some(Pinned(r, c))
              && (now == Some(c) ==> t.repo == s.repo)
            else t.repo == s.repo && a !in t.jobs
  {
    i := BackToLook(states, actions, j, a);
    RefSince(states, actions, i, j, a);
    if Look(states[j].repo.refs, a) == Some(c) { assert states[j].repo.refs[a := c] == states[j].repo.refs; }
  }

  /** What is staged is what the checkout held when it was staged. */
  lemma {:induction false} Staging(states: seq<State>, actions: seq<Action>, j: nat, a: Attempt) returns (i: nat)
    requires IsRun(states, actions) && Init(states[0]) && j < |states| && a in states[j].jobs
    requires states[j].jobs[a].Staged? || states[j].jobs[a].Differs?
    ensures i < j && Goes(states, actions, i, a, RefFree(states[j].jobs[a].record)) && a in states[i].repo.checkouts
    ensures states[j].jobs[a].tree == states[i].repo.checkouts[a].files
  {
    i := Came(states, actions, j, a);
    if states[i].jobs[a].Staged? { i := Staging(states, actions, i, a); }
  }

  /** A capture that has made its commit made it from what it had staged. */
  lemma {:induction false} Making(states: seq<State>, actions: seq<Action>, j: nat, a: Attempt) returns (i: nat, tree: Tree)
    requires IsRun(states, actions) && Init(states[0]) && j < |states| && a in states[j].jobs
    requires states[j].jobs[a].Committed? || states[j].jobs[a].Moved? || states[j].jobs[a].Pinned?
    ensures var job := states[j].jobs[a];
            && i < j && Goes(states, actions, i, a, Differs(job.record, tree))
            && Look(states[i + 1].repo.commits, job.commit) == Some(Commit([job.record.baseline], tree))
  {
    var k := Came(states, actions, j, a);
    if states[k].jobs[a].Differs? { i, tree := k, states[k].jobs[a].tree; } else { i, tree := Making(states, actions, k, a); }
  }

  /** The commit holds the files the checkout had when they were staged. */
  lemma HandOffIsStaged(states: seq<State>, actions: seq<Action>, j: nat, a: Attempt) returns (i: nat)
    requires IsRun(states, actions) && Init(states[0]) && j < |states| && a in states[j].jobs
    requires states[j].jobs[a].Committed? || states[j].jobs[a].Moved? || states[j].jobs[a].Pinned?
    ensures var job := states[j].jobs[a];
            && i < j && Goes(states, actions, i, a, RefFree(job.record)) && a in states[i].repo.checkouts
            && Look(states[j].repo.commits, job.commit) == Some(Commit([job.record.baseline], states[i].repo.checkouts[a].files))
  {
    var k, tree := Making(states, actions, j, a);
    i := Staging(states, actions, k, a);
    CommitsStay(states, actions, k + 1, j);
  }

  lemma CommitsStay(states: seq<State>, actions: seq<Action>, i: nat, j: nat)
    requires IsRun(states, actions) && Init(states[0]) && i <= j < |states|
    ensures Grows(states[i].repo.commits, states[j].repo.commits)
  {
    var chain := seq(|states|, k requires 0 <= k < |states| => states[k].repo.commits);
    forall k | i <= k < j ensures Grows(chain[k], chain[k + 1]) { CommitsStayOnce(states, actions, k); }
    GrowsThrough(chain, i, j);
  }

  lemma {:induction false} GrowsThrough(chain: seq<map<CommitId, Commit>>, i: nat, j: nat)
    requires i <= j < |chain| && forall k :: i <= k < j ==> Grows(chain[k], chain[k + 1])
    ensures Grows(chain[i], chain[j])
    decreases j - i
  {
    if i < j {
      GrowsThrough(chain, i, j - 1);
      assert Grows(chain[j - 1], chain[j - 1 + 1]);
    }
  }

  lemma CommitsStayOnce(states: seq<State>, actions: seq<Action>, k: nat)
    requires IsRun(states, actions) && Init(states[0]) && k < |actions|
    ensures Grows(states[k].repo.commits, states[k + 1].repo.commits)
  {
    RunKeepsInv(states, actions, k);
    StepKeepsInv(states[k], actions[k]);
  }

  // ----- the record -----

  /**
   A hand-off is recorded behind a step that pinned it and one that moved the
   branch to it. When the record is written it can be exported exactly if nobody
   has changed the ref since it was pinned, or the last one put it back; and so for
   the branch.
   */
  lemma RecordedExactly(states: seq<State>, actions: seq<Action>, j: nat, a: Attempt, r: Record, c: CommitId)
      returns (i: nat, m: nat)
    requires IsRun(states, actions) && Init(states[0]) && Goes(states, actions, j, a, Pinned(r, c))
    ensures m < i < j && Goes(states, actions, m, a, Committed(r, c)) && Look(states[m + 1].repo.branches, a) == Some(c)
    ensures Goes(states, actions, i, a, Moved(r, c)) && Look(states[i + 1].repo.refs, a) == Some(c)
    ensures var t := states[j + 1].repo;
            && Look(t.records, a) == Some(r.(handoff := Some(c))) && IsHandOff(t.commits, r.baseline, c)
            && (Exportable(t, t.records[a]) <==> Since(LastRef(actions, i + 1, j, a), Some(c)) == Some(c))
            && (Look(t.branches, a) == Some(c) <==> Since(LastBranch(actions, m + 1, j, a), Some(c)) == Some(c))
  {
    i := PinnedSince(states, actions, j, a, r, c);
    m := MovedSince(states, actions, i, j, a, r, c);
    RunKeepsInv(states, actions, j);
    assert JobOk(states[j].repo, a, Pinned(r, c));
    ExportableExactly(states, actions, j + 1, a);
  }

  lemma PinnedSince(states: seq<State>, actions: seq<Action>, j: nat, a: Attempt, r: Record, c: CommitId) returns (i: nat)
    requires IsRun(states, actions) && Init(states[0]) && Goes(states, actions, j, a, Pinned(r, c))
    ensures i < j && Goes(states, actions, i, a, Moved(r, c)) && Look(states[i + 1].repo.refs, a) == Some(c)
    ensures Rests(states, i + 1, j, a, Pinned(r, c))
    ensures Look(states[j].repo.refs, a) == Since(LastRef(actions, i + 1, j, a), Some(c))
  {
    i := Came(states, actions, j, a);
    RestsQuietly(states, actions, i + 1, j, a, Pinned(r, c));
    RefSince(states, actions, i + 1, j, a);
  }

  lemma MovedSince(states: seq<State>, actions: seq<Action>, i: nat, j: nat, a: Attempt, r: Record, c: CommitId) returns (m: nat)
    requires IsRun(states, actions) && Init(states[0]) && i < j < |states| && Goes(states, actions, i, a, Moved(r, c))
    requires Rests(states, i + 1, j, a, Pinned(r, c))
    ensures m < i && Goes(states, actions, m, a, Committed(r, c)) && Look(states[m + 1].repo.branches, a) == Some(c)
    ensures Look(states[j].repo.branches, a) == Since(LastBranch(actions, m + 1, j, a), Some(c))
  {
    m := Came(states, actions, i, a);
    RestsQuietly(states, actions, m + 1, i, a, Moved(r, c));
    RestsQuietly(states, actions, i + 1, j, a, Pinned(r, c));
    BranchSince(states, actions, m + 1, j, a);
  }

  lemma {:induction false} HandoffForGood(states: seq<State>, actions: seq<Action>, i: nat, j: nat, a: Attempt)
    requires IsRun(states, actions) && Init(states[0]) && i <= j < |states|
    requires a in states[i].repo.records && states[i].repo.records[a].handoff.Some?
    ensures a in states[j].repo.records && states[j].repo.records[a].handoff == states[i].repo.records[a].handoff
    decreases j - i
  {
    if i < j {
      HandoffForGood(states, actions, i, j - 1, a);
      RunKeepsInv(states, actions, j - 1);
      HandoffStays(states[j - 1], actions[j - 1], a);
    }
  }

  lemma HandoffStays(s: State, x: Action, a: Attempt)
    requires Inv(s) && Enabled(s, x) && a in s.repo.records && s.repo.records[a].handoff.Some?
    ensures a in Apply(s, x).repo.records && Apply(s, x).repo.records[a].handoff == s.repo.records[a].handoff
  {
    if x.Go? {
      assert JobOk(s.repo, x.a, s.jobs[x.a]);
      StepRecords(s.repo, x.a, s.jobs[x.a], x.id);
    }
  }

  lemma StepRecords(g: Repo, a: Attempt, job: Job, id: CommitId)
    ensures Step(g, a, job, id).0.records ==
            if job.Added? then g.records[a := job.record]
            else if job.Pinned? then g.records[a := job.record.(handoff := Some(job.commit))]
            else if job.Unbranched? then g.records[a := job.record.(released := true)]
            else g.records
  {}

  lemma {:induction false} NeverPinnedAgain(states: seq<State>, actions: seq<Action>, i: nat, k: nat, a: Attempt)
    requires IsRun(states, actions) && Init(states[0]) && i <= k < |actions|
    requires a in states[i].repo.records && states[i].repo.records[a].handoff.Some?
    ensures !Pins(states[k], actions[k], a)
  {
    HandoffForGood(states, actions, i, k, a);
    RunKeepsInv(states, actions, k);
    if a in states[k].jobs { assert JobOk(states[k].repo, a, states[k].jobs[a]); }
  }

  /**
   A recorded hand-off never changes, and can be exported later exactly if the last
   foreign change of its ref, if any, left it there.
   */
  lemma ExportableForGood(states: seq<State>, actions: seq<Action>, i: nat, j: nat, a: Attempt)
    requires IsRun(states, actions) && Init(states[0]) && i <= j < |states|
    requires a in states[i].repo.records && states[i].repo.records[a].handoff.Some?
    ensures var h := states[i].repo.records[a].handoff;
            && a in states[j].repo.records && states[j].repo.records[a].handoff == h
            && (Exportable(states[j].repo, states[j].repo.records[a]) <==>
                  Since(LastRef(actions, i, j, a), Look(states[i].repo.refs, a)) == h)
  {
    HandoffForGood(states, actions, i, j, a);
    forall k | i <= k < j ensures !Pins(states[k], actions[k], a) { NeverPinnedAgain(states, actions, i, k, a); }
    RefSince(states, actions, i, j, a);
    ExportableExactly(states, actions, j, a);
  }

  // ----- release -----

  /** What a release has found before it comes to a step. */
  lemma BeforeDelete(g: Repo, a: Attempt, earlier: Job, id: CommitId, job: Job)
    requires Step(g, a, earlier, id).1 == On(job) && (job.RefResolves? || job.Listed? || job.HeadMatches? || job.Unbranched?)
    ensures !earlier.Creating? && earlier.record == job.record
    ensures if job.RefResolves? then earlier.PathGone? && Reachable(g, job.record)
            else if job.Listed? then earlier.RefResolves?
            else if job.HeadMatches? then earlier.Listed? && Look(g.branches, a) == Some(ExpectedHead(job.record))
            else earlier.RefResolves? || earlier.HeadMatches?
    ensures job.Unbranched? ==> a !in Step(g, a, earlier, id).0.branches
  {}

  /** A release on its way to the branch found the ref in place and has never touched it. */
  lemma {:induction false} BackToRef(states: seq<State>, actions: seq<Action>, j: nat, a: Attempt) returns (i: nat)
    requires IsRun(states, actions) && Init(states[0]) && j < |states| && a in states[j].jobs
    requires var job := states[j].jobs[a]; job.RefResolves? || job.Listed? || job.HeadMatches?
    ensures i < j && Goes(states, actions, i, a, PathGone(states[j].jobs[a].record))
    ensures Reachable(states[i].repo, states[j].jobs[a].record)
    ensures forall k :: i <= k < j ==> !Pins(states[k], actions[k], a)
  {
    i := Came(states, actions, j, a);
    RestsQuietly(states, actions, i + 1, j, a, states[j].jobs[a]);
    BeforeDelete(states[i].repo, a, states[i].jobs[a], actions[i].id, states[j].jobs[a]);
    if !states[i].jobs[a].PathGone? { i := BackToRef(states, actions, i, a); }
  }

  /** The release is about to delete the branch and git lets it. */
  predicate Deletes(states: seq<State>, actions: seq<Action>, j: nat, a: Attempt, r: Record)
    requires |states| == |actions| + 1
  {
    Goes(states, actions, j, a, HeadMatches(r)) && a in states[j].repo.branches && a !in states[j + 1].repo.branches
  }

  /**
   A release deletes the branch behind a step `i` that found the ref in place and a
   step `k` that found the branch at the recorded commit. What is there when the
   branch goes is as it was then exactly if nobody has changed the ref since `i`,
   or the branch since `k`, or the last one put it back.
   */
  lemma DeletedExactly(states: seq<State>, actions: seq<Action>, j: nat, a: Attempt, r: Record) returns (i: nat, k: nat)
    requires IsRun(states, actions) && Init(states[0]) && |states| == |actions| + 1 && Deletes(states, actions, j, a, r)
    ensures i < k < j && Goes(states, actions, i, a, PathGone(r)) && Reachable(states[i].repo, r)
    ensures Goes(states, actions, k, a, Listed(r)) && Look(states[k].repo.branches, a) == Some(ExpectedHead(r))
    ensures r.handoff.Some? ==>
              (Exportable(states[j].repo, r) <==> Since(LastRef(actions, i, j, a), r.handoff) == r.handoff)
    ensures Look(states[j].repo.branches, a) == Since(LastBranch(actions, k, j, a), Some(ExpectedHead(r)))
  {
    k := Came(states, actions, j, a);
    RestsQuietly(states, actions, k + 1, j, a, HeadMatches(r));
    BeforeDelete(states[k].repo, a, states[k].jobs[a], actions[k].id, HeadMatches(r));
    BranchSince(states, actions, k, j, a);
    i := BackToRef(states, actions, k, a);
    DeletedRef(states, actions, i, j, a, r);
  }

  lemma DeletedRef(states: seq<State>, actions: seq<Action>, i: nat, j: nat, a: Attempt, r: Record)
    requires IsRun(states, actions) && Init(states[0]) && i < j < |states| && Look(states[j].jobs, a) == Some(HeadMatches(r))
    requires Look(states[i].jobs, a) == Some(PathGone(r)) && Reachable(states[i].repo, r)
    requires forall k :: i <= k < j ==> !Pins(states[k], actions[k], a)
    ensures r.handoff.Some? ==>
              (Exportable(states[j].repo, r) <==> Since(LastRef(actions, i, j, a), r.handoff) == r.handoff)
  {
    RunKeepsInv(states, actions, i);
    RunKeepsInv(states, actions, j);
    assert JobOk(states[i].repo, a, PathGone(r)) && JobOk(states[j].repo, a, HeadMatches(r));
    assert RecordOk(states[j].repo.commits, a, r);
    RefSince(states, actions, i, j, a);
    ExportableExactly(states, actions, j, a);
  }

  /** Nothing else in the program deletes a branch. */
  lemma OnlyReleaseDeletes(s: State, x: Action, a: Attempt)
    requires Enabled(s, x) && a in s.repo.branches && a !in Apply(s, x).repo.branches
    ensures x == UserBranch(a, None) || (x.Go? && x.a == a && s.jobs[a].HeadMatches?)
  {
    if x.Go? { StepBranches(s.repo, x.a, s.jobs[x.a], x.id); }
  }

  /** A released worktree is observed absent exactly if nobody has made the branch again since it was seen gone. */
  lemma ReleasedIsAbsent(states: seq<State>, actions: seq<Action>, j: nat, a: Attempt, r: Record) returns (i: nat)
    requires IsRun(states, actions) && Init(states[0]) && Goes(states, actions, j, a, Unbranched(r))
    ensures i < j && a !in states[i + 1].repo.branches
    ensures Goes(states, actions, i, a, RefResolves(r)) || Deletes(states, actions, i, a, r)
    ensures var t := states[j + 1].repo;
            && Look(t.records, a) == Some(r.(released := true))
            && (Observe(t, t.records[a]) == Absent <==> Since(LastBranch(actions, i + 1, j, a), None) == None)
  {
    i := Came(states, actions, j, a);
    RestsQuietly(states, actions, i + 1, j, a, Unbranched(r));
    BeforeDelete(states[i].repo, a, states[i].jobs[a], actions[i].id, Unbranched(r));
    BranchSince(states, actions, i + 1, j, a);
    RunKeepsInv(states, actions, j);
    assert JobOk(states[j].repo, a, Unbranched(r));
    assert RecordOk(states[j].repo.commits, a, r);
    if states[i].jobs[a].HeadMatches? { Deleted(states[i].repo, a, r, actions[i].id); }
  }

  lemma Deleted(g: Repo, a: Attempt, r: Record, id: CommitId)
    requires Step(g, a, HeadMatches(r), id).1.On?
    ensures a in g.branches && a !in Step(g, a, HeadMatches(r), id).0.branches
  {}

  lemma AbsentExactly(g: Repo, r: Record)
    ensures Observe(g, r) == Absent <==> r.attempt !in g.checkouts && r.attempt !in g.branches && r.released
    ensures Observe(g, r) == CleanCheckout <==> Alone(g, r.attempt, Removing(r), 0, ALL).1 == End(Done)
  {
    var job := Removing(r);
    if !IsClean(g, r.attempt) {
      EndsAt(g, r.attempt, job, 0, 0);
    } else {
      OneMore(g, r.attempt, job, 0, 0);
      if !At(g, r.attempt, ExpectedHead(r)) {
        EndsAt(g, r.attempt, job, 0, 1);
      } else {
        OneMore(g, r.attempt, job, 0, 1);
        EndsAt(g, r.attempt, job, 0, 2);
      }
    }
  }

  // ----- continuing a hand-off -----

  /** A worktree that continues a hand-off starts at it and keeps its baseline. */
  ghost predicate Continues(earlier: Record, later: Record) {
    earlier.handoff.Some? && later.start == earlier.handoff && later.baseline == earlier.baseline
  }

  lemma {:induction false} BackToCreating(states: seq<State>, actions: seq<Action>, j: nat, a: Attempt)
      returns (i: nat, from: Option<Record>)
    requires IsRun(states, actions) && Init(states[0]) && j < |states| && a in states[j].jobs
    requires states[j].jobs[a].Resolved? || states[j].jobs[a].Reserved? || states[j].jobs[a].Added?
    ensures i < j && a in states[i].jobs && states[i].jobs[a].Creating? && states[i].jobs[a].from == from
    ensures from.Some? ==> Continues(from.value, states[j].jobs[a].record) && Reachable(states[i].repo, from.value)
  {
    i := Came(states, actions, j, a);
    if states[i].jobs[a].Creating? {
      from := states[i].jobs[a].from;
    } else {
      i, from := BackToCreating(states, actions, i, a);
    }
  }

  /** A worktree made to continue a hand-off starts at it and keeps its baseline; the hand-off was reachable when looked at. */
  lemma CreatedContinues(states: seq<State>, actions: seq<Action>, j: nat, a: Attempt, r: Record)
      returns (i: nat, from: Option<Record>)
    requires IsRun(states, actions) && Init(states[0]) && Goes(states, actions, j, a, Reserved(r)) && a in states[j + 1].jobs
    ensures i < j && a in states[i].jobs && states[i].jobs[a].Creating? && states[i].jobs[a].from == from
    ensures Look(states[j + 1].jobs, a) == Some(Added(r)) && At(states[j + 1].repo, a, StartCommit(r))
    ensures from.Some? ==>
              Continues(from.value, r) && Reachable(states[i].repo, from.value) && Some(StartCommit(r)) == from.value.handoff
  {
    i, from := BackToCreating(states, actions, j, a);
  }

  /** However often a run continues from its own hand-off, the newest hand-off is one commit on the first baseline. */
  lemma {:induction false} ChainKeepsBaseline(states: seq<State>, actions: seq<Action>, i: nat, chain: seq<Attempt>)
    requires IsRun(states, actions) && Init(states[0]) && i < |states| && chain != []
    requires forall k :: 0 <= k < |chain| ==> chain[k] in states[i].repo.records
    requires forall k :: 0 <= k < |chain| - 1 ==>
               Continues(states[i].repo.records[chain[k]], states[i].repo.records[chain[k + 1]])
    ensures var g := states[i].repo;
            var first, last := g.records[chain[0]], g.records[chain[|chain| - 1]];
            && last.baseline == first.baseline
            && (last.handoff.Some? ==> Count(g.commits, first.baseline, last.handoff.value) == 1)
  {
    var n := |chain| - 1;
    var records := states[i].repo.records;
    if n > 0 {
      ChainKeepsBaseline(states, actions, i, chain[..n]);
      assert chain[..n][n - 1] == chain[n - 1];
      assert Continues(records[chain[n - 1]], records[chain[n - 1 + 1]]);
    }
    if records[chain[n]].handoff.Some? { HandoffIsOneCommit(states, actions, i, chain[n]); }
  }

  /**
   The hand-off a worktree leaves its run with: its own, or else the one it was
   started at, as the first of the run's attempts with that hand-off recorded it.
   */
  ghost predicate Carries(g: Repo, attempts: seq<Option<Attempt>>, r: Record, c: Option<Record>) {
    if r.handoff.Some? then c == Some(r)
    else if r.start.None? then c == None
    else if c.None? then forall k :: 0 <= k < |attempts| ==> !HandedOff(g, attempts[k], r)
    else exists k :: 0 <= k < |attempts| && HandedOff(g, attempts[k], r) && c == Some(g.records[attempts[k].value])
                     && forall j :: 0 <= j < k ==> !HandedOff(g, attempts[j], r)
  }

  /** Another attempt's worktree recorded the hand-off `r` was started at. */
  predicate HandedOff(g: Repo, a: Option<Attempt>, r: Record) {
    && a.Some? && a.value != r.attempt && a.value in g.records
    && g.records[a.value].handoff.Some? && g.records[a.value].handoff == r.start
  }

  /** `attempts` are the worktrees the run's attempt records name, oldest first. */
  method CarriedHandoff(g: Repo, attempts: seq<Option<Attempt>>, r: Record) returns (c: Option<Record>)
    ensures Carries(g, attempts, r, c)
  {
    if r.handoff.Some? { return Some(r); }
    if r.start.None? { return None; }
    for k := 0 to |attempts|
      invariant forall j :: 0 <= j < k ==> !HandedOff(g, attempts[j], r)
    {
      if HandedOff(g, attempts[k], r) { return Some(g.records[attempts[k].value]); }
    }
    return None;
  }

  /**
   A worktree that continues one of its run's hand-offs always leaves the run with
   one, and it is one commit on the worktree's own baseline, captured anew or not.
   */
  lemma CarriedIsOneCommit(states: seq<State>, actions: seq<Action>, i: nat, attempts: seq<Option<Attempt>>, from: Attempt,
                           a: Attempt, c: Option<Record>)
    requires IsRun(states, actions) && Init(states[0]) && i < |states| && a != from && Some(from) in attempts
    requires from in states[i].repo.records && a in states[i].repo.records
    requires Continues(states[i].repo.records[from], states[i].repo.records[a])
    requires Carries(states[i].repo, attempts, states[i].repo.records[a], c)
    ensures var g, r := states[i].repo, states[i].repo.records[a];
            && c.Some? && c.value.handoff == Some(ExpectedHead(r)) && c.value.baseline == r.baseline
            && Count(g.commits, r.baseline, ExpectedHead(r)) == 1
  {
    RunKeepsInv(states, actions, i);
    var g, r := states[i].repo, states[i].repo.records[a];
    assert RecordOk(g.commits, from, g.records[from]) && RecordOk(g.commits, a, r);
    HandoffIsOneCommit(states, actions, i, from);
    if r.handoff.Some? {
      HandoffIsOneCommit(states, actions, i, a);
    } else {
      assert HandedOff(g, Some(from), r);
      var k :| 0 <= k < |attempts| && HandedOff(g, attempts[k], r) && c == Some(g.records[attempts[k].value]);
      assert RecordOk(g.commits, attempts[k].value, g.records[attempts[k].value]);
    }
  }

  // ----- crashes -----

  /**
   A capture that dies with nobody else about: before the branch moved nothing but
   a loose commit is there and the capture can be made again; after it, capture,
   removal and release all refuse and the worktree reads as unknown.
   */
  lemma CrashedCapture(g: Repo, r: Record, id: CommitId, n: nat, again: CommitId)
    requires RepoOk(g) && Look(g.records, r.attempt) == Some(r) && Capturable(g, r) && n < ALL
    requires Names(g, Differs(r, g.checkouts[r.attempt].files), id)
    ensures var a, t := r.attempt, Alone(g, r.attempt, Capturing(r), id, n).0;
            if n <= 5 then Observe(t, r) == DirtyCheckout && Alone(t, a, Capturing(r), again, ALL).1 == End(Done)
            else
              && Observe(t, r) == UnknownState
              && Alone(t, a, Capturing(r), again, ALL) == (t, End(IdentityMismatch))
              && Alone(t, a, Removing(r), 0, ALL) == (t, End(IdentityMismatch))
              && Alone(t, a, Releasing(r), 0, ALL) == (t, End(StillThere))
  {
    CaptureSteps(g, r, id, n);
    var t := CaptureAt(g, r, id, n).0;
    assert RecordOk(g.commits, r.attempt, r);
    if n <= 5 {
      CaptureDone(t, r, again);
    } else {
      CrashedBehind(g, r, id, n, again);
    }
  }

  lemma CrashedBehind(g: Repo, r: Record, id: CommitId, n: nat, again: CommitId)
    requires RecordOk(g.commits, r.attempt, r) && Capturable(g, r) && 5 < n < ALL
    requires Names(g, Differs(r, g.checkouts[r.attempt].files), id)
    ensures var a, t := r.attempt, CaptureAt(g, r, id, n).0;
            && Observe(t, r) == UnknownState
            && Alone(t, a, Capturing(r), again, ALL) == (t, End(IdentityMismatch))
            && Alone(t, a, Removing(r), 0, ALL) == (t, End(IdentityMismatch))
            && Alone(t, a, Releasing(r), 0, ALL) == (t, End(StillThere))
  {
    var a, t := r.attempt, CaptureAt(g, r, id, n).0;
    assert id != StartCommit(r);
    CaptureRefused(t, r, again);
    ReleaseAlone(t, r);
    OneMore(t, a, Removing(r), 0, 0);
    EndsAt(t, a, Removing(r), 0, 1);
  }

  // ----- between the look and the deletion -----

  lemma Extend(states: seq<State>, actions: seq<Action>, x: Action) returns (moreStates: seq<State>, moreActions: seq<Action>)
    requires IsRun(states, actions) && Enabled(states[|states| - 1], x)
    ensures IsRun(moreStates, moreActions) && moreStates[0] == states[0] && moreActions == actions + [x]
    ensures |moreStates| > 0 && moreStates[|moreStates| - 1] == Apply(states[|states| - 1], x)
  {
    moreStates, moreActions := states + [Apply(states[|states| - 1], x)], actions + [x];
  }

  lemma SameKey(m: map<Attempt, Job>, a: Attempt, x: Job, y: Job)
    ensures m[a := x][a := y] == m[a := y] && m[a := x] - {a} == m - {a}
  {}

  /** The operation takes `n` steps with nobody in between. */
  lemma {:induction false} Drive(states: seq<State>, actions: seq<Action>, a: Attempt, job: Job, id: CommitId, n: nat)
      returns (moreStates: seq<State>, moreActions: seq<Action>)
    requires IsRun(states, actions) && Look(states[|states| - 1].jobs, a) == Some(job)
    requires var g := states[|states| - 1].repo;
             forall k {:trigger Alone(g, a, job, id, k)} :: 0 <= k < n ==>
               Alone(g, a, job, id, k).1.On? && Names(Alone(g, a, job, id, k).0, Alone(g, a, job, id, k).1.job, id)
    ensures IsRun(moreStates, moreActions) && moreStates[0] == states[0] && |moreStates| > 0
    ensures var s := states[|states| - 1];
            var (t, next) := Alone(s.repo, a, job, id, n);
            moreStates[|moreStates| - 1] == State(t, if next.On? then s.jobs[a := next.job] else s.jobs - {a})
  {
    var s := states[|states| - 1];
    if n == 0 {
      moreStates, moreActions := states, actions;
      assert s.jobs[a := job] == s.jobs;
    } else {
      moreStates, moreActions := Drive(states, actions, a, job, id, n - 1);
      var (t, next) := Alone(s.repo, a, job, id, n - 1);
      var last := Step(t, a, next.job, id).1;
      SameKey(s.jobs, a, next.job, if last.On? then last.job else next.job);
      moreStates, moreActions := Extend(moreStates, moreActions, Go(a, id));
    }
  }

  /** A release that nothing stands in the way of comes to the deletion in four steps. */
  lemma ReleaseComesToDelete(g: Repo, r: Record)
    requires Releasable(g, r) && r.attempt in g.branches
    ensures Alone(g, r.attempt, Releasing(r), 0, 0) == (g, On(Releasing(r)))
    ensures Alone(g, r.attempt, Releasing(r), 0, 1) == (g, On(PathGone(r)))
    ensures Alone(g, r.attempt, Releasing(r), 0, 2) == (g, On(RefResolves(r)))
    ensures Alone(g, r.attempt, Releasing(r), 0, 3) == (g, On(Listed(r)))
    ensures Alone(g, r.attempt, Releasing(r), 0, 4) == (g, On(HeadMatches(r)))
  {
    var a, job := r.attempt, Releasing(r);
    OneMore(g, a, job, 0, 0);
    OneMore(g, a, job, 0, 1);
    OneMore(g, a, job, 0, 2);
    OneMore(g, a, job, 0, 3);
  }

  /** The hand-off is recorded, and neither the branch nor the ref holds it any more. */
  predicate Unheld(g: Repo, a: Attempt) {
    && a in g.records && g.records[a].handoff.Some? && g.records[a].released
    && a !in g.branches && a !in g.refs
  }

  /**
   From any release of a hand-off: somebody who deletes its ref after the release
   has looked at it, and before the branch goes, leaves the hand-off unheld.
   */
  lemma ReleaseLosesHandOff(states: seq<State>, actions: seq<Action>, a: Attempt, r: Record)
      returns (moreStates: seq<State>, moreActions: seq<Action>)
    requires IsRun(states, actions) && a !in states[|states| - 1].jobs && r.attempt == a && r.handoff.Some?
    requires var g := states[|states| - 1].repo; Look(g.records, a) == Some(r) && Releasable(g, r) && a in g.branches
    ensures IsRun(moreStates, moreActions) && moreStates[0] == states[0] && |moreStates| > 0
    ensures Unheld(moreStates[|moreStates| - 1].repo, a)
  {
    var g := states[|states| - 1].repo;
    moreStates, moreActions := ReleaseLooks(states, actions, a, r);
    moreStates, moreActions := Extend(moreStates, moreActions, UserRef(a, None));
    assert !CheckedOut(g.(refs := g.refs - {a}), a) by { assert !CheckedOut(g, a); }
    moreStates, moreActions := ReleaseGoesOn(moreStates, moreActions, a, r);
  }

  lemma ReleaseLooks(states: seq<State>, actions: seq<Action>, a: Attempt, r: Record)
      returns (moreStates: seq<State>, moreActions: seq<Action>)
    requires IsRun(states, actions) && a !in states[|states| - 1].jobs && r.attempt == a
    requires var g := states[|states| - 1].repo; Look(g.records, a) == Some(r) && Releasable(g, r) && a in g.branches
    ensures IsRun(moreStates, moreActions) && moreStates[0] == states[0] && |moreStates| > 0
    ensures moreStates[|moreStates| - 1].repo == states[|states| - 1].repo
    ensures Look(moreStates[|moreStates| - 1].jobs, a) == Some(HeadMatches(r))
  {
    ReleaseComesToDelete(states[|states| - 1].repo, r);
    moreStates, moreActions := Extend(states, actions, Begin(a, Releasing(r)));
    moreStates, moreActions := Drive(moreStates, moreActions, a, Releasing(r), 0, 4);
  }

  lemma ReleaseGoesOn(states: seq<State>, actions: seq<Action>, a: Attempt, r: Record)
      returns (moreStates: seq<State>, moreActions: seq<Action>)
    requires IsRun(states, actions) && Look(states[|states| - 1].jobs, a) == Some(HeadMatches(r)) && r.handoff.Some?
    requires var g := states[|states| - 1].repo; a in g.branches && !CheckedOut(g, a) && a !in g.refs
    ensures IsRun(moreStates, moreActions) && moreStates[0] == states[0] && |moreStates| > 0
    ensures Unheld(moreStates[|moreStates| - 1].repo, a)
  {
    moreStates, moreActions := Extend(states, actions, Go(a, 0));
    moreStates, moreActions := Extend(moreStates, moreActions, Go(a, 0));
  }

  function Plain(): Record { Record(0, 0, None, None, false) }

  /** One commit, and attempt 0's worktree on it, edited. */
  function Worked(): Repo {
    Repo(map[0 := Commit([], 0)], map[0 := 0], map[], map[0 := Checkout(0, 1)], {0}, map[0 := Plain()])
  }

  function HandedOver(): Repo {
    Repo(map[0 := Commit([], 0), 1 := Commit([0], 1)], map[0 := 1], map[0 := 1], map[], {0},
         map[0 := Plain().(handoff := Some(1))])
  }

  lemma ReserveRun() returns (states: seq<State>, actions: seq<Action>)
    ensures IsRun(states, actions) && Init(states[0])
    ensures states[|states| - 1] ==
              State(Repo(map[0 := Commit([], 0)], map[], map[], map[], {0}, map[]), map[0 := Reserved(Plain())])
  {
    var g := Repo(map[0 := Commit([], 0)], map[], map[], map[], {}, map[]);
    states, actions := [State(g, map[])], [];
    states, actions := Extend(states, actions, Begin(0, Creating(0, false, None, None)));
    states, actions := Extend(states, actions, Go(0, 0));
    states, actions := Extend(states, actions, Go(0, 0));
  }

  lemma WorkRun() returns (states: seq<State>, actions: seq<Action>)
    ensures IsRun(states, actions) && Init(states[0]) && states[|states| - 1] == State(Worked(), map[])
  {
    states, actions := ReserveRun();
    states, actions := Extend(states, actions, Go(0, 0));
    states, actions := Extend(states, actions, Go(0, 0));
    assert states[|states| - 1] == State(Worked().(checkouts := map[0 := Checkout(0, 0)]), map[]);
    states, actions := Extend(states, actions, Edit(0, Checkout(0, 1)));
  }

  lemma CaptureNamed(g: Repo, r: Record, id: CommitId, n: nat)
    requires Capturable(g, r) && n < ALL && Names(g, Differs(r, g.checkouts[r.attempt].files), id)
    ensures var (t, next) := Alone(g, r.attempt, Capturing(r), id, n);
            next.On? && Names(t, next.job, id)
  {
    CaptureSteps(g, r, id, n);
  }

  /** An undisturbed capture in the machine is the method's. */
  lemma CaptureDrives(states: seq<State>, actions: seq<Action>, r: Record, id: CommitId)
      returns (moreStates: seq<State>, moreActions: seq<Action>)
    requires IsRun(states, actions) && Look(states[|states| - 1].jobs, r.attempt) == Some(Capturing(r))
    requires var g := states[|states| - 1].repo; Capturable(g, r) && Names(g, Differs(r, g.checkouts[r.attempt].files), id)
    ensures IsRun(moreStates, moreActions) && moreStates[0] == states[0] && |moreStates| > 0
    ensures var s := states[|states| - 1];
            moreStates[|moreStates| - 1] == State(Alone(s.repo, r.attempt, Capturing(r), id, ALL).0, s.jobs - {r.attempt})
  {
    var g := states[|states| - 1].repo;
    forall k | 0 <= k < ALL
      ensures var (t, next) := Alone(g, r.attempt, Capturing(r), id, k); next.On? && Names(t, next.job, id)
    {
      CaptureNamed(g, r, id, k);
    }
    moreStates, moreActions := Drive(states, actions, r.attempt, Capturing(r), id, ALL);
    CaptureDone(g, r, id);
  }

  lemma CaptureRun() returns (states: seq<State>, actions: seq<Action>)
    ensures IsRun(states, actions) && Init(states[0])
    ensures states[|states| - 1] == State(HandedOver().(checkouts := map[0 := Checkout(0, 1)]), map[])
  {
    states, actions := WorkRun();
    states, actions := Extend(states, actions, Begin(0, Capturing(Plain())));
    states, actions := CaptureDrives(states, actions, Plain(), 1);
    CapturedIs();
  }

  lemma CapturedIs()
    ensures Alone(Worked(), 0, Capturing(Plain()), 1, ALL) == (HandedOver().(checkouts := map[0 := Checkout(0, 1)]), End(Done))
  {
    assert Capturable(Worked(), Plain());
    CaptureDone(Worked(), Plain(), 1);
    var t := CaptureAt(Worked(), Plain(), 1, 7).0;
    assert t.commits == HandedOver().commits && t.branches == HandedOver().branches && t.refs == HandedOver().refs;
    assert t.records[0 := Plain().(handoff := Some(1))] == HandedOver().records;
  }

  /** Such a run from an empty store. */
  lemma HandOffLost() returns (states: seq<State>, actions: seq<Action>)
    ensures IsRun(states, actions) && Init(states[0]) && |states| > 0 && Unheld(states[|states| - 1].repo, 0)
  {
    states, actions := CaptureRun();
    var r := Plain().(handoff := Some(1));
    states, actions := Extend(states, actions, Begin(0, Removing(r)));
    states, actions := Extend(states, actions, Go(0, 0));
    states, actions := Extend(states, actions, Go(0, 0));
    states, actions := Extend(states, actions, Go(0, 0));
    assert states[|states| - 1] == State(HandedOver(), map[]);
    states, actions := ReleaseLosesHandOff(states, actions, 0, r);
  }
}
