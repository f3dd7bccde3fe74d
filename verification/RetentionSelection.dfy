/** Which runs one prune selects and removes, and its byte accounting (src/persistence/retention.ts, lines 640-860). */
module RetentionSelection {
  import opened Contracts
  import opened Outcomes
  import opened Sorting

  type RunId = nat

  datatype Run = Run(id: RunId, status: RunStatus, retainedWorktree: bool, terminalTime: Option<int>, bytes: nat)

  datatype Reason =
    | Pinned | RetainedWorktree | NotOrdinaryTerminal(status: RunStatus) | TerminalTimeUnknown
    | RunLeaseUnavailable | HandoffRefUnremovable

  datatype Kept = Kept(run: Run, reasons: seq<Reason>)

  datatype Why = Age | Budget

  datatype Report = Report(
    before: nat, after: int, kept: seq<Kept>, selected: seq<Run>, why: map<RunId, Why>, pruned: seq<Run>)

  datatype PruneError = InvalidMaxAge | InvalidByteBudget | InvalidDescriptor

  /** The bytes of the first `n` runs. */
  function BytesTo(runs: seq<Run>, n: nat): nat
    requires n <= |runs|
  {
    if n == 0 then 0 else BytesTo(runs, n - 1) + runs[n - 1].bytes
  }

  function Bytes(runs: seq<Run>): nat {
    BytesTo(runs, |runs|)
  }

  /** The bytes of all but the first `k` runs. */
  function BytesAfter(runs: seq<Run>, k: nat): int
    requires k <= |runs|
  {
    Bytes(runs) - BytesTo(runs, k)
  }

  predicate OrdinaryTerminal(s: RunStatus) {
    s.Completed? || s.Failed? || s.Cancelled? || s.Abandoned?
  }

  /** Why a run may not be selected; empty when it may. */
  function Reasons(run: Run, pinned: set<RunId>): seq<Reason> {
    (if run.id in pinned then [Pinned] else []) +
    (if run.retainedWorktree then [RetainedWorktree] else []) +
    (if OrdinaryTerminal(run.status) then [] else [NotOrdinaryTerminal(run.status)]) +
    (if run.terminalTime.None? then [TerminalTimeUnknown] else [])
  }

  predicate Ordinary(run: Run, pinned: set<RunId>) {
    run.id !in pinned && !run.retainedWorktree && OrdinaryTerminal(run.status) && run.terminalTime.Some?
  }

  function OrdinaryTo(runs: seq<Run>, pinned: set<RunId>, n: nat): seq<Run>
    requires n <= |runs|
  {
    if n == 0 then []
    else OrdinaryTo(runs, pinned, n - 1) + if Ordinary(runs[n - 1], pinned) then [runs[n - 1]] else []
  }

  function OrdinaryRuns(runs: seq<Run>, pinned: set<RunId>): seq<Run> {
    OrdinaryTo(runs, pinned, |runs|)
  }

  function ProtectedTo(runs: seq<Run>, pinned: set<RunId>, n: nat): seq<Kept>
    requires n <= |runs|
  {
    if n == 0 then []
    else
      ProtectedTo(runs, pinned, n - 1) +
      if Ordinary(runs[n - 1], pinned) then [] else [Kept(runs[n - 1], Reasons(runs[n - 1], pinned))]
  }

  lemma {:induction false} OrdinaryHas(runs: seq<Run>, pinned: set<RunId>, n: nat, x: Run)
    requires n <= |runs|
    ensures x in OrdinaryTo(runs, pinned, n) <==> x in runs[..n] && Ordinary(x, pinned)
  {
    if n > 0 {
      OrdinaryHas(runs, pinned, n - 1, x);
      assert runs[..n] == runs[..n - 1] + [runs[n - 1]];
    }
  }

  /** Every run not selectable is reported with its reasons, and only those. */
  lemma {:induction false} ProtectedHas(runs: seq<Run>, pinned: set<RunId>, n: nat, k: Kept)
    requires n <= |runs|
    ensures k in ProtectedTo(runs, pinned, n) <==>
            k.run in runs[..n] && k.reasons == Reasons(k.run, pinned) && k.reasons != []
  {
    if n > 0 {
      ProtectedHas(runs, pinned, n - 1, k);
      var run := runs[n - 1];
      assert runs[..n] == runs[..n - 1] + [run];
      NoReasonsExactly(run, pinned);
      if Ordinary(run, pinned) {
        assert ProtectedTo(runs, pinned, n) == ProtectedTo(runs, pinned, n - 1);
      } else {
        assert ProtectedTo(runs, pinned, n) == ProtectedTo(runs, pinned, n - 1) + [Kept(run, Reasons(run, pinned))];
      }
    }
  }

  /** A run is selectable exactly when there is no reason against it. */
  lemma NoReasonsExactly(run: Run, pinned: set<RunId>)
    ensures Reasons(run, pinned) == [] <==> Ordinary(run, pinned)
  {}

  function EndedAt(run: Run): int { if run.terminalTime.Some? then run.terminalTime.value else 0 }

  /** Earlier terminal time first, then the host's order of run identifiers. */
  function OldestFirst(names: Order<RunId>): Order<Run> {
    (a: Run, b: Run) => EndedAt(a) < EndedAt(b) || (EndedAt(a) == EndedAt(b) && names(a.id, b.id))
  }

  lemma OldestFirstOrders(names: Order<RunId>)
    requires TotalPreorder(names)
    ensures TotalPreorder(OldestFirst(names))
  {
    var le := OldestFirst(names);
    forall a: Run, b: Run ensures le(a, b) || le(b, a) {
      assert names(a.id, b.id) || names(b.id, a.id);
    }
    forall a: Run, b: Run, c: Run | le(a, b) && le(b, c) ensures le(a, c) {
      if EndedAt(a) == EndedAt(c) { assert names(a.id, b.id) && names(b.id, c.id); }
    }
  }

  predicate OverAge(run: Run, now: int, maxAge: int) {
    now - EndedAt(run) >= maxAge
  }

  /** The names of the first `n` runs. */
  function Names(runs: seq<Run>, n: nat): set<RunId>
    requires n <= |runs|
  {
    if n == 0 then {} else Names(runs, n - 1) + {runs[n - 1].id}
  }

  predicate UniqueTo(runs: seq<Run>, n: nat)
    requires n <= |runs|
  {
    n == 0 || (runs[n - 1].id !in Names(runs, n - 1) && UniqueTo(runs, n - 1))
  }

  predicate Unique(runs: seq<Run>) {
    UniqueTo(runs, |runs|)
  }

  /** The prefix of `k` runs holds every over-age run and leaves no more than `maxBytes` behind. */
  ghost predicate Enough(order: seq<Run>, now: int, maxAge: int, maxBytes: nat, k: nat)
    requires k <= |order|
  {
    && (forall i :: k <= i < |order| ==> !OverAge(order[i], now, maxAge))
    && BytesAfter(order, k) <= maxBytes
  }

  /** What a prune selects: the shortest such prefix. */
  ghost predicate ShortestPrefix(order: seq<Run>, now: int, maxAge: int, maxBytes: nat, selected: seq<Run>) {
    && selected <= order
    && Enough(order, now, maxAge, maxBytes, |selected|)
    && forall j :: 0 <= j < |selected| ==> !Enough(order, now, maxAge, maxBytes, j)
  }

  lemma {:induction false} BytesGrow(runs: seq<Run>, j: nat, k: nat)
    requires j <= k <= |runs|
    ensures BytesTo(runs, j) <= BytesTo(runs, k)
  {
    if j < k { BytesGrow(runs, j, k - 1); }
  }

  lemma {:induction false} BytesOfPrefix(runs: seq<Run>, more: seq<Run>, n: nat)
    requires n <= |runs| && runs <= more
    ensures BytesTo(more, n) == BytesTo(runs, n)
  {
    if n > 0 { BytesOfPrefix(runs, more, n - 1); }
  }

  /** In uniquely named runs, the first `k` are the ones their names name. */
  lemma {:induction false} NamedByPrefix(runs: seq<Run>, k: nat, i: nat)
    requires Unique(runs) && k <= |runs| && i < |runs|
    ensures runs[i].id in Names(runs, k) <==> i < k
  {
    if k == 0 {
    } else if i < k - 1 {
      NamedByPrefix(runs, k - 1, i);
    } else if i == k - 1 {
    } else {
      NamedByPrefix(runs, k - 1, i);
      NotNamedBefore(runs, |runs|, i);
      NamesGrow(runs, k, i);
    }
  }

  lemma {:induction false} NotNamedBefore(runs: seq<Run>, n: nat, i: nat)
    requires i < n <= |runs| && UniqueTo(runs, n)
    ensures runs[i].id !in Names(runs, i)
  {
    if i < n - 1 { NotNamedBefore(runs, n - 1, i); }
  }

  lemma {:induction false} NamesGrow(runs: seq<Run>, j: nat, k: nat)
    requires j <= k <= |runs|
    ensures Names(runs, j) <= Names(runs, k)
  {
    if j < k { NamesGrow(runs, j, k - 1); }
  }

  // ----- selection -----

  /** The runs of the first `n` that are selected. */
  function Chosen(runs: seq<Run>, ids: set<RunId>, n: nat): seq<Run>
    requires n <= |runs|
  {
    if n == 0 then [] else Chosen(runs, ids, n - 1) + if runs[n - 1].id in ids then [runs[n - 1]] else []
  }

  /** The bytes of the runs of the first `n` that are not selected. */
  function BytesLeft(runs: seq<Run>, ids: set<RunId>, n: nat): nat
    requires n <= |runs|
  {
    if n == 0 then 0 else BytesLeft(runs, ids, n - 1) + if runs[n - 1].id in ids then 0 else runs[n - 1].bytes
  }

  /** Of uniquely named runs, the ones named by a prefix are that prefix. */
  lemma {:induction false} PrefixChosen(order: seq<Run>, k: nat, n: nat)
    requires Unique(order) && k <= |order| && n <= |order|
    ensures Chosen(order, Names(order, k), n) == order[..if n < k then n else k]
    ensures BytesLeft(order, Names(order, k), n) == if n < k then 0 else BytesTo(order, n) - BytesTo(order, k)
  {
    if n > 0 {
      PrefixChosen(order, k, n - 1);
      NamedByPrefix(order, k, n - 1);
      if n <= k { assert order[..n] == order[..n - 1] + [order[n - 1]]; }
    }
  }

  /** The age pass marks a prefix of the oldest-first order. */
  method SelectByAge(order: seq<Run>, names: Order<RunId>, now: int, maxAge: int)
      returns (selected: map<RunId, Why>, ghost aged: nat)
    requires Sorted(order, OldestFirst(names))
    ensures aged <= |order| && selected.Keys == Names(order, aged)
    ensures forall i :: 0 <= i < |order| ==> (OverAge(order[i], now, maxAge) <==> i < aged)
    ensures forall id :: id in selected ==> selected[id].Age?
  {
    selected := map[];
    aged := 0;
    for i := 0 to |order|
      invariant aged <= i && selected.Keys == Names(order, aged)
      invariant forall j :: 0 <= j < i ==> (OverAge(order[j], now, maxAge) <==> j < aged)
      invariant forall id :: id in selected ==> selected[id].Age?
    {
      if OverAge(order[i], now, maxAge) {
        selected := selected[order[i].id := Age];
        aged := aged + 1;
      }
    }
  }

  /** The budget pass selects further runs, oldest first, until the rest fits. */
  method SelectByBudget(order: seq<Run>, byAge: map<RunId, Why>, ghost aged: nat, maxBytes: nat)
      returns (selected: map<RunId, Why>, after: int, ghost k: nat)
    requires Unique(order) && aged <= |order| && byAge.Keys == Names(order, aged)
    ensures aged <= k <= |order| && selected.Keys == Names(order, k) && after == BytesAfter(order, k) <= maxBytes
    ensures k > aged ==> BytesAfter(order, k - 1) > maxBytes
    ensures forall id :: id in byAge ==> id in selected && selected[id] == byAge[id]
    ensures forall id :: id in selected && id !in byAge ==> selected[id].Budget?
  {
    selected := byAge;
    k := aged;
    PrefixChosen(order, aged, |order|);
    after := BytesLeft(order, selected.Keys, |order|);
    var i := 0;
    while i < |order| && after > maxBytes
      invariant i <= |order| && aged <= k <= |order| && k == (if i < aged then aged else i)
      invariant selected.Keys == Names(order, k) && after == BytesAfter(order, k)
      invariant k > aged ==> BytesAfter(order, k - 1) > maxBytes
      invariant forall id :: id in byAge ==> id in selected && selected[id] == byAge[id]
      invariant forall id :: id in selected && id !in byAge ==> selected[id].Budget?
    {
      NamedByPrefix(order, k, i);
      if order[i].id !in selected {
        selected := selected[order[i].id := Budget];
        after := after - order[i].bytes;
        k := k + 1;
      }
      i := i + 1;
    }
  }

  lemma NotEnoughBefore(order: seq<Run>, now: int, maxAge: int, maxBytes: nat, aged: nat, k: nat, j: nat)
    requires j < k <= |order| && aged <= k && (k > aged ==> BytesAfter(order, k - 1) > maxBytes)
    requires forall i :: 0 <= i < |order| ==> (OverAge(order[i], now, maxAge) <==> i < aged)
    ensures !Enough(order, now, maxAge, maxBytes, j)
  {
    if j < aged { assert OverAge(order[j], now, maxAge); } else { BytesGrow(order, j, k - 1); }
  }

  /** Both passes over the sorted ordinary runs. */
  method Select(order: seq<Run>, names: Order<RunId>, now: int, maxAge: int, maxBytes: nat)
      returns (selected: seq<Run>, why: map<RunId, Why>, after: int)
    requires Unique(order) && Sorted(order, OldestFirst(names))
    ensures ShortestPrefix(order, now, maxAge, maxBytes, selected)
    ensures after == BytesAfter(order, |selected|)
    ensures forall r :: r in selected ==> r.id in why && (why[r.id].Age? <==> OverAge(r, now, maxAge))
  {
    var byAge, aged := SelectByAge(order, names, now, maxAge);
    ghost var k;
    why, after, k := SelectByBudget(order, byAge, aged, maxBytes);
    selected := Chosen(order, why.Keys, |order|);
    PrefixChosen(order, k, |order|);
    assert selected == order[..k];
    forall j | 0 <= j < k ensures !Enough(order, now, maxAge, maxBytes, j) {
      NotEnoughBefore(order, now, maxAge, maxBytes, aged, k, j);
    }
    forall r | r in selected ensures r.id in why && (why[r.id].Age? <==> OverAge(r, now, maxAge)) {
      var i :| 0 <= i < k && order[i] == r;
      NamedByPrefix(order, aged, i);
      NamedByPrefix(order, k, i);
    }
  }

  // ----- the apply pass -----

  /** The selected runs whose lease and refs let them go. */
  function Removable(selected: seq<Run>, leased: set<RunId>, stuck: set<RunId>, n: nat): seq<Run>
    requires n <= |selected|
  {
    if n == 0 then []
    else
      Removable(selected, leased, stuck, n - 1) +
      if selected[n - 1].id in leased || selected[n - 1].id in stuck then [] else [selected[n - 1]]
  }

  function Skipped(selected: seq<Run>, leased: set<RunId>, stuck: set<RunId>, n: nat): seq<Kept>
    requires n <= |selected|
  {
    if n == 0 then []
    else
      var run := selected[n - 1];
      Skipped(selected, leased, stuck, n - 1) +
      if run.id in leased then [Kept(run, [RunLeaseUnavailable])]
      else if run.id in stuck then [Kept(run, [HandoffRefUnremovable])]
      else []
  }

  lemma BytesAppend(runs: seq<Run>, run: Run)
    ensures Bytes(runs + [run]) == Bytes(runs) + run.bytes
  {
    BytesOfPrefix(runs, runs + [run], |runs|);
  }

  /** A run whose lease or hand-off ref is unavailable is kept and its bytes are counted back. */
  method ApplySelection(selected: seq<Run>, leased: set<RunId>, stuck: set<RunId>, kept: seq<Kept>, after: int)
      returns (pruned: seq<Run>, keptNow: seq<Kept>, afterNow: int)
    ensures pruned == Removable(selected, leased, stuck, |selected|)
    ensures keptNow == kept + Skipped(selected, leased, stuck, |selected|)
    ensures afterNow + Bytes(pruned) == after + Bytes(selected)
  {
    pruned, keptNow, afterNow := [], kept, after;
    for i := 0 to |selected|
      invariant pruned == Removable(selected, leased, stuck, i)
      invariant keptNow == kept + Skipped(selected, leased, stuck, i)
      invariant afterNow + Bytes(pruned) == after + BytesTo(selected, i)
    {
      var run := selected[i];
      if run.id in leased {
        keptNow, afterNow := keptNow + [Kept(run, [RunLeaseUnavailable])], afterNow + run.bytes;
      } else if run.id in stuck {
        keptNow, afterNow := keptNow + [Kept(run, [HandoffRefUnremovable])], afterNow + run.bytes;
      } else {
        BytesAppend(pruned, run);
        pruned := pruned + [run];
      }
    }
  }

  /**
   One prune. `leased` are runs another seat holds, `stuck` runs with a
   hand-off ref that names another commit; `names` is the host's collation.
   */
  method Prune(runs: seq<Run>, pinned: set<RunId>, names: Order<RunId>, now: int, maxAge: int, maxBytes: int,
               dryRun: bool, leased: set<RunId>, stuck: set<RunId>)
      returns (r: Result<Report, PruneError>)
    requires TotalPreorder(names)
    ensures r.Ok? <==> maxAge >= 0 && maxBytes >= 0 && Unique(runs)
    ensures r.Ok? ==>
              var order := Sort(OrdinaryRuns(runs, pinned), OldestFirst(names));
              var selected := r.value.selected;
              && ShortestPrefix(order, now, maxAge, maxBytes, selected)
              && r.value.before == Bytes(order)
              && r.value.pruned == (if dryRun then [] else Removable(selected, leased, stuck, |selected|))
              && r.value.before == r.value.after + Bytes(if dryRun then selected else r.value.pruned)
              && r.value.kept == ProtectedTo(runs, pinned, |runs|)
                  + (if dryRun then [] else Skipped(selected, leased, stuck, |selected|))
              && forall x :: x in selected ==> x.id in r.value.why && (r.value.why[x.id].Age? <==> OverAge(x, now, maxAge))
  {
    if maxAge < 0 { return Err(InvalidMaxAge); }
    if maxBytes < 0 { return Err(InvalidByteBudget); }
    if !Unique(runs) { return Err(InvalidDescriptor); }
    var kept, ordinary := Partition(runs, pinned);
    var order := Sort(ordinary, OldestFirst(names));
    OldestFirstOrders(names);
    SortSorted(ordinary, OldestFirst(names));
    SortedStaysUnique(runs, pinned, order);
    var selected, why, after := Select(order, names, now, maxAge, maxBytes);
    BytesOfPrefix(selected, order, |selected|);
    var pruned := [];
    if !dryRun { pruned, kept, after := ApplySelection(selected, leased, stuck, kept, after); }
    r := Ok(Report(Bytes(order), after, kept, selected, why, pruned));
  }

  method Partition(runs: seq<Run>, pinned: set<RunId>) returns (kept: seq<Kept>, ordinary: seq<Run>)
    ensures kept == ProtectedTo(runs, pinned, |runs|) && ordinary == OrdinaryRuns(runs, pinned)
  {
    kept, ordinary := [], [];
    for i := 0 to |runs|
      invariant kept == ProtectedTo(runs, pinned, i) && ordinary == OrdinaryTo(runs, pinned, i)
    {
      var reasons := Reasons(runs[i], pinned);
      if reasons != [] { kept := kept + [Kept(runs[i], reasons)]; }
      else { ordinary := ordinary + [runs[i]]; }
    }
  }

  // ----- names stay unique through filtering and sorting -----

  lemma {:induction false} NamesHave(runs: seq<Run>, n: nat, id: RunId)
    requires n <= |runs|
    ensures id in Names(runs, n) <==> exists i :: 0 <= i < n && runs[i].id == id
  {
    if n > 0 { NamesHave(runs, n - 1, id); }
  }

  lemma {:induction false} UniqueCounts(runs: seq<Run>, n: nat)
    requires n <= |runs|
    ensures |Names(runs, n)| <= n
    ensures UniqueTo(runs, n) <==> |Names(runs, n)| == n
  {
    if n > 0 { UniqueCounts(runs, n - 1); }
  }

  lemma {:induction false} NamesOfPrefix(runs: seq<Run>, more: seq<Run>, n: nat)
    requires n <= |runs| && runs <= more
    ensures Names(more, n) == Names(runs, n) && UniqueTo(more, n) == UniqueTo(runs, n)
  {
    if n > 0 { NamesOfPrefix(runs, more, n - 1); }
  }

  lemma {:induction false} FilterStaysUnique(runs: seq<Run>, pinned: set<RunId>, n: nat)
    requires n <= |runs| && UniqueTo(runs, n)
    ensures var kept := OrdinaryTo(runs, pinned, n);
            Unique(kept) && Names(kept, |kept|) <= Names(runs, n)
  {
    if n > 0 {
      FilterStaysUnique(runs, pinned, n - 1);
      var kept := OrdinaryTo(runs, pinned, n - 1);
      var more := kept + [runs[n - 1]];
      NamesOfPrefix(kept, more, |kept|);
      assert more[|kept|] == runs[n - 1] && |more| - 1 == |kept|;
      assert Names(more, |more|) == Names(kept, |kept|) + {runs[n - 1].id};
      assert Unique(more);
      assert OrdinaryTo(runs, pinned, n) == if Ordinary(runs[n - 1], pinned) then more else kept;
    }
  }

  lemma SortedStaysUnique(runs: seq<Run>, pinned: set<RunId>, order: seq<Run>)
    requires Unique(runs) && multiset(order) == multiset(OrdinaryRuns(runs, pinned))
    ensures Unique(order)
  {
    var ordinary := OrdinaryRuns(runs, pinned);
    FilterStaysUnique(runs, pinned, |runs|);
    SameElements(order, ordinary);
    SameNames(order, ordinary);
    SameNames(ordinary, order);
    assert Names(order, |order|) == Names(ordinary, |ordinary|);
    UniqueCounts(order, |order|);
    UniqueCounts(ordinary, |ordinary|);
  }

  lemma SameNames(a: seq<Run>, b: seq<Run>)
    requires forall r :: r in a ==> r in b
    ensures Names(a, |a|) <= Names(b, |b|)
  {
    forall id | id in Names(a, |a|) ensures id in Names(b, |b|) {
      NamesHave(a, |a|, id);
      var i :| 0 <= i < |a| && a[i].id == id;
      assert a[i] in b;
      var j :| 0 <= j < |b| && b[j] == a[i];
      NamesHave(b, |b|, id);
    }
  }

  /** No protected run is ever selected, so none is pruned. */
  lemma ProtectedNeverSelected(runs: seq<Run>, pinned: set<RunId>, names: Order<RunId>, now: int, maxAge: int, maxBytes: nat,
                               selected: seq<Run>, run: Run)
    requires ShortestPrefix(Sort(OrdinaryRuns(runs, pinned), OldestFirst(names)), now, maxAge, maxBytes, selected)
    requires run in selected
    ensures run in runs && Reasons(run, pinned) == []
  {
    var ordinary := OrdinaryRuns(runs, pinned);
    SameElements(Sort(ordinary, OldestFirst(names)), ordinary);
    OrdinaryHas(runs, pinned, |runs|, run);
    assert runs[..|runs|] == runs;
  }

  /** What is selected ended no later than any ordinary run that stays, and nothing over-age stays. */
  lemma SelectedAreOldest(runs: seq<Run>, pinned: set<RunId>, names: Order<RunId>, now: int, maxAge: int, maxBytes: nat,
                          selected: seq<Run>, gone: Run, stays: Run)
    requires TotalPreorder(names)
    requires ShortestPrefix(Sort(OrdinaryRuns(runs, pinned), OldestFirst(names)), now, maxAge, maxBytes, selected)
    requires gone in selected && stays in Sort(OrdinaryRuns(runs, pinned), OldestFirst(names))[|selected|..]
    ensures EndedAt(gone) <= EndedAt(stays) && !OverAge(stays, now, maxAge)
  {
    var ordinary := OrdinaryRuns(runs, pinned);
    var order := Sort(ordinary, OldestFirst(names));
    OldestFirstOrders(names);
    SortSorted(ordinary, OldestFirst(names));
    var i :| 0 <= i < |selected| && selected[i] == gone;
    var j :| |selected| <= j < |order| && order[j] == stays;
    assert OldestFirst(names)(order[i], order[j]);
  }

  /** The shortest sufficient prefix is one and the same sequence. */
  lemma SelectionUnique(order: seq<Run>, now: int, maxAge: int, maxBytes: nat, a: seq<Run>, b: seq<Run>)
    requires ShortestPrefix(order, now, maxAge, maxBytes, a) && ShortestPrefix(order, now, maxAge, maxBytes, b)
    ensures a == b
  {
    assert |a| == |b|;
    assert a == order[..|a|];
  }
}
