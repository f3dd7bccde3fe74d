# pi-subagent: a verified model of the durable run lifecycle

pi-subagent runs coding agents in VMs and keeps everything a run needs on disk,
so that any process (a "seat") may die between any two file operations and
another can take over. There is no coordinator: seats fence each other with an
OS port per run, an append-only journal, write-once records made with `link`,
and renames. This project models that machinery in Dafny 4.11 and proves what
its protocols keep over whole runs, with crashes as explicit steps.

`dafny verify dfyconfig.toml` checks everything. Each source component has one
module; a protocol that is hard over interleavings has a state machine
(`Enabled`, `Apply`, `IsRun`) and theorems about every run of it, and code that
changes an object step by step is a class whose methods are proved against a
function of the old state, about which the theorems then speak.

| File | Component |
|---|---|
| `JournalText.dfy`, `Journal.dfy` | a journal line and its text; parsing, torn-tail repair, `RunJournal` |
| `RunLease.dfy` | lease, generations, fencing and the journal under interleaved seats, crashes and power loss |
| `Checkpoints.dfy`, `CheckpointEviction.dfy` | the `lease`/`evict` handshake of the warm checkpoint store; eviction order and accounting |
| `RetentionTrash.dfy`, `RetentionSelection.dfy` | a pruned run's move to trash, resumed after crashes; which runs a prune selects |
| `Contracts.dfy`, `Lifecycle.dfy`, `LifecycleSafety.dfy`, `LifecycleCredit.dfy`, `LifecycleExact.dfy`, `LifecycleActions.dfy` | the status table; launch, retry, resume, release, reconcile, abandon and recovery by many seats |
| `AttemptRecords.dfy`, `OperationIndex.dfy` | the attempt-record chain under concurrent creators; the write-once operation register |
| `Budget.dfy`, `BudgetRuns.dfy`, `BudgetFresh.dfy`, `BudgetSaved.dfy`, `BudgetExamples.dfy` | limits along the attempt chain; what each attempt is charged over all runs of `Lifecycle.dfy`; when the books balance; runs in which they do not |
| `Artifacts.dfy`, `Actions.dfy` | output bound and artifact store; offered actions against the methods' guards |
| `VmSlots.dfy`, `GondolinSandbox.dfy` | VM slots across seats; `createGondolinAttemptSandbox` as resource ownership over every exit |
| `Worktree.dfy`, `WorktreeRuns.dfy` | hand-off capture, continuation and release over a commit graph, one git step at a time with others at the repository |
| `Deadline.dfy`, `StoreRevision.dfy` | the pausable attempt deadline; the revision gate at store open |
| `Canonical.dfy`, `Compile.dfy`, `PlanIdentity.dfy` | the canonical form; plan compilation; what a plan's identity tells |
| `Outcomes.dfy`, `Sorting.dfy` | option and result types; the contract of `sort` |

## Results that are not what one might expect

Where a promise fails of the code, the model keeps the code, a lemma builds the
failing run, and the theorem says exactly when the promise holds.

- Passing `assertCurrent` does not protect the journal: two journal objects on
  one held lease make it unreadable (`RunLease.TwoObjectsCorrupt`). An append
  keeps it readable exactly when the object has counted every event already
  there (`RunLease.FencedAppendParsesExactly`). `reconcile` runs outside
  `runExclusive` (src/service.ts:2513), so the whole-run theorems are about runs
  with one journal object in use per held lease and no release during an
  in-flight append (`RunLease.Disciplined`).
- `evict` looks at a key's lock once. A publish of that key can make it remove
  the file under a live lease (`Checkpoints.PublishInWindowLosesFile`). It can do
  so exactly while an eviction of the key is about to remove the file, or is
  looking for leases again and has met none alive
  (`Checkpoints.PublishHarmsExactly`); without such a publish a held lease never
  loses its file (`Checkpoints.HeldLeaseHasFile`).
- A move to trash that dies after the lease record left the store can never be
  finished: recovery takes the run lease, which puts a lease record back, and
  then refuses "duplicate state" (`RetentionTrash.StuckForever`,
  `LeaseMovedFirstIsStuck`). It can be finished exactly when it died earlier
  (`CrashedMoveRecoversExactly`, `RecoversExactly`). Every prune looks at all
  intents first and ends at the first refusal, so one stuck intent stops all
  pruning whenever its run's lease is free (`StuckRefusesEveryPrune`).
- `release`, `reconcile` and `abandon` do not check that the seat's plan is the
  newest attempt. A stale seat's release makes recovery report an earlier
  attempt's result for an attempt that has its own
  (`LifecycleCredit.StaleReleaseMiscredits`). Over all runs recovery does so
  exactly when the attempt has started, nobody asked to abandon the run, and the
  last operation that wrote a snapshot told of an earlier attempt and wrote it
  behind the start (`LifecycleExact.RecoveryCreditsEarlierExactly`; for one
  release or reconcile, `CleanupMisleadsExactly`). When every writer has the
  newest attempt it never happens
  (`LifecycleCredit.RecoveryNeverCreditsEarlier`).
- A second seat that repeats a launch starts the attempt even behind a journaled
  abandonment (`LifecycleExact.LaunchBehindAbandonment`): the initial launch checks
  no durable status. An attempt starts behind an abandonment exactly when a launch
  that found the abandoned run on disk started it (`StartsBehindExactly`), and
  only after such a launch does a seat remember another status than the disk's
  (`MemoryMatchesDiskExactly`).
- An attempt is not always charged the one result it left. A seat that dies between
  terminal event and snapshot leaves it charged with the last usage checkpoint, and
  the limits rebuilt from the journal exceed the root's
  (`BudgetExamples.ResultLost`). Without any death, a stale seat's release makes the
  next plan charge an earlier attempt's result (`BudgetExamples.StaleCharge`), and
  a repeated launch leaves two results of which one is charged (`StartedTwice`). A
  seat that dies between the attempt record and `attempt-starting` leaves the new
  plan with the old result (`LifecycleCredit.DiesBeforeStarting`), which the next
  retry charges again (`BudgetExamples.ChargedTwice`). Over all runs, what remains is
  within the root less the recorded use exactly when the attempts so unsettled
  recorded no more than they were charged (`BudgetRuns.NeverMoreThanRootExactly`). It
  always is when every writer has the newest attempt, every launch finds no run, and
  no seat dies or fails between a terminal event and its memory of it
  (`BudgetSaved.SavedKeepsWithinRoot`); without any death or error every attempt is
  then charged its one result (`NoDeathSettlesAll`) and steers by the root's limits
  (`SteersByRoot`).
- A second start of one attempt puts a second output. With no retries and no resumes
  the total artifact limit has room for one full output, so a second, different one
  is refused (`Artifacts.SecondStartRefused`). All outputs are stored exactly when
  the different ones fit the limit (`AllStoredExactly`), and they do whenever no
  attempt is started twice (`TotalLimitNeverRefuses`).
- A release looks at the hand-off's ref, then at the branch, and then deletes the
  branch whatever either is by then. Somebody who deletes the ref in between leaves
  the hand-off on no branch and no ref (`WorktreeRuns.HandOffLost`). The hand-off is
  exportable when the branch goes exactly if nobody changed the ref since it was
  looked at, or the last one put it back (`DeletedExactly`); the same holds between
  pin and record (`RecordedExactly`) and for good after it (`ExportableForGood`).
- A retry is offered without its `attempt-failed` event and then refused by the
  method (`Actions.RetryOfferedExactly`); no reachable state is like that
  (`LifecycleActions.OffersAgreeWithGuards`).
- A capture that dies after the branch moved is retained for good: capture,
  removal and release all refuse it (`WorktreeRuns.CrashedCapture`).
- A VM slot whose record could not be written is free, yet every later `close`
  of that sandbox fails (`GondolinSandbox.AttemptSandbox.Close`).
- The repository's README names contract revision 11; the code writes and
  accepts 13 (src/contracts.ts), which `StoreRevision.CONTRACT_REVISION` follows.

## Model

| member | source | states |
|---|---|---|
| JournalText.DecodeEncode | src/persistence/journal.ts:94-129 | parsing a written line gives back the event, whatever bytes its kind, its run id and the text of its data hold |
| JournalText.EncodeHasNoNewline | src/persistence/journal.ts:186-238 | no string content puts a raw newline into a line, since control characters are escaped (section 7 of RFC 8259) |
| Journal.ParseJournal | src/persistence/journal.ts:94-129 | the loop over lines computes `Parse`: events in order, or the first empty, undecodable or out-of-order line |
| Journal.ParseExactly | src/persistence/journal.ts:94-129 | a file parses to some events if and only if it is newline-ended lines decoding to exactly those events, sequences 1..n of this run, and a tail without a newline |
| Journal.RepairKeepsEvents | src/persistence/journal.ts:79-92 | repair removes only bytes after the last newline, leaves a complete file, and changes no event |
| Journal.AppendParsesExactly | src/persistence/journal.ts:186-238 | appending a line to a complete readable file keeps it readable if and only if it carries the next sequence of the same run, and then adds exactly that event |
| Journal.CrashedAppend | src/persistence/journal.ts:79-238 | an append cut at any byte leaves a file that parses to the old events, or to one more when the newline reached it; repair restores the old file or leaves the new one |
| Journal.RunJournal.Open | src/persistence/journal.ts:154-184 | opens exactly under a current lease of this run on a readable file within the size limit; the file becomes the repaired one and the object counts all its events; on refusal nothing changes |
| Journal.RunJournal.Append | src/persistence/journal.ts:186-238 | succeeds exactly under a current lease within the size limits, and then the file and the parsed events grow by exactly the next event |
| Journal.RunJournal.ReadEvents | src/persistence/journal.ts:240-252 | gives all events of the file, or refuses an oversized one |
| Journal.RunJournal.WriteSnapshot | src/persistence/journal.ts:254-278 | under a current lease records the number of durable events, and leaves the journal alone |
| Journal.RunJournal.ReadSnapshot | src/persistence/journal.ts:280-304 | refuses exactly a snapshot of another run or one that counts more events than the journal holds |
| RunLease.AtMostOneCurrent | src/persistence/run-lease.ts:143-202 | in every run of any seats, crashes and power losses, at most one lease passes `assertCurrent`, and no other lease is live |
| RunLease.OverNeverPasses | src/persistence/run-lease.ts:183-196 | a released or dead lease never passes again, not even with a record it had read earlier |
| RunLease.GenerationsIncrease | src/persistence/run-lease.ts:157-177 | while the record stays in place, every later record has a strictly larger generation |
| RunLease.JournalAlwaysWhole | src/persistence/journal.ts:154-278 | in every disciplined run the file on disk parses at every moment to sequences 1..n, and no snapshot counts past them |
| RunLease.SyncedNeverLost | src/persistence/journal.ts:186-238 | what was synced by an acknowledged append is a prefix of the events of every later journal, through crashes, repairs and power loss |
| RunLease.FencedAppendParsesExactly | src/persistence/journal.ts:186-238 | behind the fence, an append keeps the journal readable if and only if its object has counted every event in the file |
| RunLease.TwoObjectsCorrupt | src/service.ts:2513-2560 | a run in which two objects on one held lease both append, after which the journal cannot be read |
| Checkpoints.HeldLeaseHasFile | src/sandbox/checkpoints.ts:297-453 | in every interleaving of the single steps of `lease`, `release`, `evict` and `publish` with deaths, a held lease has its checkpoint file and its lease file, as long as no publish commits under an eviction that threatens its key |
| Checkpoints.PublishHarmsExactly | src/sandbox/checkpoints.ts:353-453 | a publish can cost a held lease its file, with no other publish after it, if and only if an eviction of its key is about to remove the file or is scanning again and has met no live lease |
| Checkpoints.PublishInWindowLosesFile | src/sandbox/checkpoints.ts:353-453 | a run from an idle store in which a publish inside the window costs a live lease its file |
| CheckpointEviction.WarmCheckpointStore.Evict | src/sandbox/checkpoints.ts:403-453 | evicts the shortest least-recently-used prefix of the free keys after which the store fits, counts its bytes exactly, and removes nothing else; a key leased late loses its sidecar but keeps its file |
| CheckpointEviction.WarmCheckpointStore.EvictInOrder | src/sandbox/checkpoints.ts:434-452 | the removal loop does the same from any total it starts with |
| CheckpointEviction.WarmCheckpointStore.TotalBytes | src/sandbox/checkpoints.ts:415-432 | the listing loop adds up the sizes of the files listed |
| CheckpointEviction.EvictsOldestFirst | src/sandbox/checkpoints.ts:433-451 | whatever is evicted was used no later than any free checkpoint that stays, and was not busy |
| RetentionTrash.RunFiles.RemoveHandoffRefs | src/persistence/retention.ts:369-376 | deletes refs in turn, each only while it names the recorded commit, and stops at the first that names another |
| RetentionTrash.RunFiles.MoveAll | src/persistence/retention.ts:523-533 | moves exactly the first paths of the order that are there |
| RetentionTrash.RunFiles.MoveRunToTrash | src/persistence/retention.ts:483-540 | the move as a function of the disk and of the step its process dies at |
| RetentionTrash.RunFiles.RenameGood | src/persistence/retention.ts:447-469 | a recovery's renames pass exactly the paths up to the first that is in both places or in neither, and overwrite nothing |
| RetentionTrash.RunFiles.MoveTheRest | src/persistence/retention.ts:447-475 | renames, then either refuses duplicate or missing state or marks the intent complete |
| RetentionTrash.RunFiles.RecoverTrashIntent | src/persistence/retention.ts:387-481 | one recovery as a function of the disk and of the step its process dies at |
| RetentionTrash.EachPathInOnePlace | src/persistence/retention.ts:387-540 | after a crash at any step and any number of recoveries crashed at any step, every path but the lease record is whole in exactly one of store and trash, and the run record leaves last |
| RetentionTrash.RecoversExactly | src/persistence/retention.ts:387-481 | an uninterrupted recovery ends with everything in the trash if and only if the manifest is within 128 paths and 32 refs, no ref was repointed and the lease record had not moved; when it had, the answer is duplicate state |
| RetentionTrash.CrashedMoveRecoversExactly | src/persistence/retention.ts:483-540 | a crashed move can be finished if and only if it died no later than the lease record's rename |
| RetentionTrash.StuckForever | src/persistence/retention.ts:424-457 | once the lease record is in the trash, no recovery ever finishes, whatever recoveries went before |
| RetentionTrash.LeaseMovedFirstIsStuck | src/persistence/retention.ts:483-540 | a reachable disk of that kind, whose session then stays behind for good |
| RetentionTrash.RecoverTrashIntents | src/persistence/retention.ts:387-481 | the loop looks at the intents in order and ends at the first that refuses, having passed exactly those before it |
| RetentionTrash.StuckRefusesEveryPrune | src/persistence/retention.ts:669-671 | whatever recoveries went before, a stuck intent refuses every later prune that gets its run's lease |
| RetentionTrash.MoveOrderDistinct | src/persistence/retention.ts:502-505 | the order of a move lists each path once and the run record last |
| RetentionTrash.RecoveryOrderEnds | src/persistence/retention.ts:437-446 | the order of a recovery ends with the lease record and then the run record |
| RetentionSelection.Prune | src/persistence/retention.ts:659-870 | refuses exactly bad bounds and repeated runs; selects the shortest sufficient prefix; bytes before equal bytes after plus what was selected (dry run) or pruned, skipped runs counted back; every kept run is reported with its reasons |
| RetentionSelection.Partition | src/persistence/retention.ts:742-766 | splits the runs into those with a reason to be kept and the ordinary ones |
| RetentionSelection.SelectByAge | src/persistence/retention.ts:772-780 | marks exactly the over-age runs, which are a prefix of the order |
| RetentionSelection.SelectByBudget | src/persistence/retention.ts:781-789 | goes on oldest first, no further than until the rest fits |
| RetentionSelection.Select | src/persistence/retention.ts:767-798 | both passes together select the shortest oldest-first prefix that has every over-age run and leaves the rest within the budget |
| RetentionSelection.ApplySelection | src/persistence/retention.ts:799-860 | prunes what is removable, reports the rest as kept, and counts the rest's bytes back |
| RetentionSelection.ProtectedHas | src/persistence/retention.ts:744-763 | a run is reported as kept if and only if it has a reason, with exactly its reasons |
| RetentionSelection.NoReasonsExactly | src/persistence/retention.ts:744-765 | a run has no reason against it if and only if it is ordinary |
| RetentionSelection.ProtectedNeverSelected | src/persistence/retention.ts:742-798 | no protected run is ever selected |
| RetentionSelection.SelectedAreOldest | src/persistence/retention.ts:767-789 | what is selected ended no later than any ordinary run that stays, and nothing over-age stays |
| RetentionSelection.SelectionUnique | src/persistence/retention.ts:767-798 | the shortest sufficient prefix is unique, so the two loops have one right answer |
| Contracts.AbandonedIsLast | src/lifecycle/reducer.ts:101-154 | along any row of accepted events nothing follows an abandonment |
| Contracts.EndsWithProof | src/lifecycle/reducer.ts:87-154 | a run is completed or abandoned only by an event that proves both cleanups |
| Contracts.BlockedUntilProved | src/lifecycle/reducer.ts:141-145 | a blocked run stays blocked until an event proves its cleanup |
| LifecycleSafety.PlanIsSound | src/service.ts:2799-3047 | no operation writes an unproved abandonment, and none but a launch starts an attempt on a journal that asks for one |
| LifecycleSafety.AskedDecides | src/service.ts:426-434 | once an abandonment was asked for, the durable status is cleanup-blocked or abandoned and nothing else |
| LifecycleSafety.AbandonmentIsIrrevocable | src/service.ts:923-954 | in every run of any seats and crashes, once `run-abandoning` is journaled the durable status is only ever cleanup-blocked or abandoned, and abandoned is for good |
| LifecycleSafety.AbandonedWithProof | src/service.ts:2675-2776 | every `run-abandoned` event carries a valid abandoned result with both cleanups proved or not needed |
| LifecycleSafety.JournalOnlyGrows | src/service.ts:1032-1450 | no operation of any seat removes or changes an event |
| LifecycleCredit.RecoveryNeverCreditsEarlier | src/service.ts:1062-1172 | when every writer has the newest attempt, a recovering seat says of an attempt that has started that attempt's own result or a later one's, or that the run is blocked or abandoned |
| LifecycleCredit.StaleReleaseMiscredits | src/service.ts:2963-3047 | a run in which a stale seat's release makes recovery report attempt 0's result for attempt 1, which has its own |
| LifecycleCredit.DiesBeforeStarting | src/service.ts:1323-1340 | a run that recovers with the new plan and the old result, its seat having died between the attempt record and `attempt-starting` |
| LifecycleExact.RecoveryCreditsEarlierExactly | src/service.ts:1062-1172 | in every run, recovery of an attempt reports an earlier attempt's result if and only if the attempt has started, no abandonment was asked for, and the last operation that wrote a snapshot told of an earlier attempt and wrote it behind all its starts |
| LifecycleExact.CleanupMisleadsExactly | src/service.ts:2963-3047 | after a release or reconcile, recovery reports an earlier attempt's result if and only if the seat's own result is an earlier attempt's, the attempt has started, no abandonment was asked for, and the result is neither blocked nor abandoned |
| LifecycleExact.SnapshotNeverAhead | src/persistence/journal.ts:254-298 | in every run the snapshot never counts past the journal, whoever wrote it |
| LifecycleExact.MemoryMatchesDiskExactly | src/service.ts:923-954 | in every run, the status a seat remembers after an operation is the one `assertDurableStatus` accepts, except after a launch on a run whose abandonment was journaled before it |
| LifecycleExact.StartsBehindExactly | src/service.ts:2140-2170 | in every run, an attempt has started behind a journaled abandonment if and only if a launch that found the abandoned run on disk started it |
| LifecycleExact.NothingStartsAfterAbandonment | src/service.ts:1251-1265 | when every launch finds no run on disk, nothing starts behind a journaled abandonment, not even from a seat that has not heard of it |
| LifecycleExact.LaunchBehindAbandonment | src/service.ts:2140-2170 | a run in which a second seat repeats the launch of an abandoned run and starts its attempt again |
| LifecycleActions.OffersAgreeWithGuards | src/service.ts:1557-1630 | in every reachable state whose plan is the newest attempt, retry and resume are offered if and only if the methods get as far as a derived plan |
| Actions.RetryOfferedExactly | src/service.ts:2242-2300 | retry is offered if and only if every guard, the backoff and the plan arithmetic pass, once a backoff failure has its event; without the event it is offered and refused |
| Actions.ResumeOfferedExactly | src/service.ts:2355-2400 | resume is offered if and only if every guard and the plan arithmetic pass |
| Actions.OfferedPassesGuards | src/service.ts:185-216 | an offered abandon, release or hand-off export passes its method's guards on status and result |
| Actions.BackoffGrows | src/service.ts:466-472 | the retry delay never shrinks with the attempt number and never passes five minutes |
| Actions.FailuresClassify | src/runtime/failure.ts:44-112 | a failed attempt always leaves a valid result; one that ends cleanup-blocked has the reconcile disposition whatever else went wrong, and so is neither offered for retry or resume nor accepted by them; an interruption with both cleanups settled keeps the resume disposition |
| AttemptRecords.AlwaysOneChain | src/persistence/attempt-record.ts:109-233 | in every run of concurrent creators, lease changes and deaths, the records are one chain: ordinals 0..n-1, initial only at 0, each parent the previous attempt |
| AttemptRecords.RecordsWriteOnce | src/persistence/attempt-record.ts:203-226 | a record, once there, is never replaced or removed |
| AttemptRecords.AnswersAreTrue | src/persistence/attempt-record.ts:158-226 | whoever is told a record is there finds it there with its identity; a replay of the same record gets that record and changes nothing |
| AttemptRecords.List | src/persistence/attempt-record.ts:235-254 | lists every record once, in ordinal order, each the child of the one before; the last is the newest |
| OperationIndex.GrantedClaimsAgree | src/persistence/operation-index.ts:100-185 | any two granted claims of one operation name the same record, which is what `find` then gives |
| OperationIndex.CreatedOnce | src/persistence/operation-index.ts:157-170 | at most one claimer of a name is told that it created the record |
| OperationIndex.WrittenOnce | src/persistence/operation-index.ts:157-168 | a record is never replaced |
| Budget.Conserved | src/service.ts:474-578 | along any chain of retries, resumes and continuations, what is left plus what was charged equals the root's runtime, tokens and cost, and the counts are used up one per attempt |
| Budget.DerivedPlansValid | src/launch-contracts.ts:176-196 | every derived plan meets the schema's minimums with its attempt timeout inside the remaining runtime |
| Budget.AttemptsBounded | src/service.ts:474-578 | a run has at most 1 + retries + resumes attempts, never more than 21 |
| Budget.SteeringLimitsAreRootExactly | src/runtime/attempt.ts:531-557 | the steering limits rebuilt from the journal are the root's if and only if the results on it add up to what was charged |
| BudgetRuns.ChargedExactly | src/service.ts:1062-1172 | in every run of any seats, stale or not, with repeated launches, deaths and errors, an attempt that led to another was charged a result that it or an earlier attempt left, what a recovery reckoned of one, or nothing |
| BudgetRuns.NeverMoreThanRootExactly | src/service.ts:474-578 | in every run, what remains is never more than the root less the recorded use if and only if, in each limited resource, the attempts not charged the one result they left recorded no more than they were charged |
| BudgetRuns.SteeringAboveRootExactly | src/runtime/attempt.ts:531-557 | in every run, the steering limits an attempt rebuilds from the journal exceed the root's in a resource if and only if those attempts, with what it and later ones recorded already, recorded more than they were charged |
| BudgetFresh.SettledExactly | src/service.ts:1062-1172 | when every writer has the newest attempt and every launch finds no run, an attempt was charged the one result it left if and only if it left one and was charged one from a terminal event |
| BudgetSaved.SavedKeepsWithinRoot | src/runtime/attempt.ts:778-789 | if moreover no seat dies or fails between a terminal event and its memory of it, every attempt that left a result was charged exactly that, and what remains is within the root less the recorded use |
| BudgetSaved.NoDeathSettlesAll | src/runtime/attempt.ts:860-873 | and without any death or error every attempt that led to another left exactly one result and was charged it |
| BudgetSaved.SteersByRoot | src/runtime/attempt.ts:531-557 | an attempt at work in such a run steers by the root's limits |
| BudgetExamples.ResultLost | src/runtime/attempt.ts:778-789 | from any root with a resume left, a run in which a seat dies between terminal event and snapshot, after which the next plan has the whole root left and the steering limits exceed it by the first result |
| BudgetExamples.StaleCharge | src/service.ts:2963-3047 | a run without death or error in which a stale seat's release makes a retry charge the second attempt the first one's result; what remains is within the root only if the second used no more than the first |
| BudgetExamples.StartedTwice | src/service.ts:2140-2170 | a run without death or error in which a repeated launch leaves two results of one attempt, of which the retry charges the second alone |
| BudgetExamples.ChargedTwice | src/service.ts:474-525 | a run in which one result is charged twice, the second attempt having died before it started |
| Artifacts.BoundAttemptOutput | src/runtime/attempt.ts:109-124 | keeps the longest prefix of whole characters within the byte limit, and says truncated exactly when the text is over it |
| Artifacts.ArtifactStore.TotalBytes | src/artifacts/store.ts:92-106 | the sum of the directory, or a refusal exactly when it is over the limit |
| Artifacts.ArtifactStore.Put | src/artifacts/store.ts:108-162 | stores new content once, returns the reference of content that is there, and refuses collisions and limits without changing anything |
| Artifacts.ArtifactStore.Export | src/artifacts/store.ts:164-188 | returns only content with the reference's size and digest, and does so whenever the store holds it |
| Artifacts.TotalRefusesExactly | src/artifacts/store.ts:108-162 | however often attempts start, while every output so far was stored the next is refused if and only if it is new and the different outputs with it pass the total limit, and for no other reason |
| Artifacts.AllStoredExactly | src/service.ts:1276-1283 | every output of a row of starts is stored if and only if the different ones fit `outputBytes * (retries + resumes + 1)` |
| Artifacts.TotalLimitNeverRefuses | src/service.ts:1276-1283 | when no attempt is started twice, no output is refused for its size or for the total limit |
| Artifacts.SecondStartRefused | src/runtime/attempt.ts:718-737 | with no retries and no resumes, a second start's full, different output is refused |
| VmSlots.LiveVmsWithinSlots | src/sandbox/capacity.ts:178-331 | in every run of any seats, live VMs never exceed held slots, and those never exceed the one recorded `maxSlots` |
| VmSlots.HeldPortsDistinct | src/sandbox/capacity.ts:283-331 | two calls that hold a slot hold different ports, whichever seats they are of |
| VmSlots.PolicyWriteOnce | src/sandbox/capacity.ts:178-212 | the recorded policy is never rewritten |
| VmSlots.TryAcquire | src/sandbox/capacity.ts:283-331 | takes the lowest free slot, and none exactly when all are busy |
| VmSlots.Acquire | src/sandbox/capacity.ts:258-280 | takes the first free slot of the first look that has one; gives up only after the whole wait or on abort, every look having found all slots busy |
| GondolinSandbox.SandboxCall.PrepareWarmBoot | src/sandbox/gondolin.ts:237-281 | leaves with the lock exactly when the warm-up is this call's, with a lease exactly when it boots warm, and with nothing when the wait is aborted |
| GondolinSandbox.SandboxCall.RunWarmup | src/sandbox/gondolin.ts:290-357 | the warm-up VM is gone on every exit but an unproved close; success means every step succeeded |
| GondolinSandbox.SandboxCall.WarmUp | src/sandbox/gondolin.ts:534-577 | whatever the warm-up does, the lock goes back, and the slot is kept on an error exactly while a VM may live on it |
| GondolinSandbox.SandboxCall.FreeSlot | src/sandbox/capacity.ts:308-324 | the first release frees the port whether or not its record was written; later ones repeat its answer |
| GondolinSandbox.SandboxCall.CloseStartedVm | src/sandbox/gondolin.ts:199-213 | an unproved close changes nothing; a proved one gives back VM, checkpoint lease and slot |
| GondolinSandbox.SandboxCall.CreateAttemptSandbox | src/sandbox/gondolin.ts:398-715 | on every exit the lock is back; success holds one slot, one VM on it and a lease exactly when warm; a throw holds nothing unless a VM's close was not proved, and then exactly that VM's slot |
| GondolinSandbox.AttemptSandbox.Close | src/sandbox/gondolin.ts:644-657 | may be called any number of times: an unproved close can be tried again, a proved one gives everything back |
| Worktree.Repository.MoveBranch | src/workspace/worktree.ts:484-489 | compare-and-swap of a branch |
| Worktree.Repository.PinRef | src/workspace/worktree.ts:491-506 | creates the durable ref, accepts one that names the commit already, refuses another |
| Worktree.CaptureDone | src/workspace/worktree.ts:401-511 | a capture that nothing stands in the way of and nobody disturbs ends done, with branch, ref and record at one commit on the baseline that holds the files |
| Worktree.CaptureRefused | src/workspace/worktree.ts:401-470 | any other undisturbed capture is refused for the first thing in its way and changes nothing |
| Worktree.ReleaseAlone | src/workspace/worktree.ts:750-787 | an undisturbed release succeeds if and only if the checkout is gone, the ref resolves to the hand-off and a branch that is there is at the recorded commit and not checked out; otherwise it changes nothing |
| WorktreeRuns.HandoffIsOneCommit | src/workspace/worktree.ts:401-511 | in every run of single git and file steps, deaths and foreign git activity, a recorded hand-off is one non-empty commit whose sole parent is the recorded baseline |
| WorktreeRuns.HandOffIsStaged | src/workspace/worktree.ts:448-482 | the commit's tree is what the checkout held at the step that staged it, whatever was edited since |
| WorktreeRuns.MovedExactly | src/workspace/worktree.ts:430-489 | the branch moves if and only if it is still where the capture found it: nobody changed it since, or the last one put it back; otherwise the capture is refused and changes nothing |
| WorktreeRuns.PinnedExactly | src/workspace/worktree.ts:440-506 | the ref is made if nobody made one since the capture looked, accepted if the last foreign change set it to the very commit, and refused otherwise |
| WorktreeRuns.RecordedExactly | src/workspace/worktree.ts:484-510 | a record is written behind a pin and a branch move of its commit; at that moment it is exportable, and the branch holds it, if and only if nobody changed them since or the last one put them back |
| WorktreeRuns.ExportableExactly | src/workspace/worktree.ts:529-589 | a record passes every export check if and only if it has a hand-off and its ref resolves to it: parent and count checks cannot fail otherwise |
| WorktreeRuns.ExportableForGood | src/workspace/worktree.ts:513-527 | a recorded hand-off never changes, and is exportable at any later moment if and only if the last foreign change of its ref, if any, left it there |
| WorktreeRuns.OneOnTop | src/workspace/worktree.ts:576-589 | a commit whose sole parent is the base is all that `base..tip` counts |
| WorktreeRuns.DeletedExactly | src/workspace/worktree.ts:750-787 | a release deletes the branch behind a look at the ref and a look at the branch; what is there when it goes is as it was seen if and only if nobody changed it in between or the last one put it back |
| WorktreeRuns.OnlyReleaseDeletes | src/workspace/worktree.ts:750-787 | no other step of the program deletes a branch |
| WorktreeRuns.ReleaseLosesHandOff | src/workspace/worktree.ts:750-787 | any release of a hand-off can be disturbed so that the hand-off is left on no branch and no ref |
| WorktreeRuns.HandOffLost | src/workspace/worktree.ts:750-787 | such a run from an empty store |
| WorktreeRuns.ReleasedIsAbsent | src/workspace/worktree.ts:750-833 | a released worktree is observed absent if and only if nobody has made its branch again since it was seen gone or deleted |
| WorktreeRuns.AbsentExactly | src/workspace/worktree.ts:789-868 | observed absent means no checkout, no branch and released; observed clean means that an undisturbed removal succeeds |
| WorktreeRuns.CreatedContinues | src/workspace/worktree.ts:310-325 | a worktree made to continue a hand-off starts at it and keeps its baseline, and the hand-off was reachable when it was looked at |
| WorktreeRuns.ChainKeepsBaseline | src/workspace/worktree.ts:305-325 | however often a run continues from its own hand-off, the newest hand-off counts one commit on the first baseline |
| WorktreeRuns.CarriedHandoff | src/service.ts:614-634 | the loop finds the worktree's own hand-off or the first of the run's that it was started at, or none exactly when there is none |
| WorktreeRuns.CarriedIsOneCommit | src/service.ts:609-634 | a worktree that continues a hand-off always leaves its run with one, and it is one commit on the worktree's own baseline |
| WorktreeRuns.CrashedCapture | src/workspace/worktree.ts:401-511 | before the branch moved an undisturbed capture that died can be made again; after it, capture, removal and release refuse and the worktree reads as unknown |
| Deadline.ChargedIsRunningTime | src/runtime/deadline.ts:17-63 | over any pauses, resumes, disposals and clock advances, charged time is the sum of the running intervals |
| Deadline.AbortsExactlyWhenCharged | src/runtime/deadline.ts:31-48 | the signal aborts only once the limit is charged, and while running the timer is due exactly from then on |
| Deadline.NothingChargedAfterAbort | src/runtime/deadline.ts:25-62 | after an abort nothing more is charged, whatever is called |
| Deadline.AttemptDeadline.ChargedMs | src/runtime/deadline.ts:52-58 | the charged time rounded up to whole milliseconds, never negative |
| StoreRevision.StateStore.ProbeAll | src/persistence/store-revision.ts:106-150 | finds every revision declared in the probed places and no other |
| StoreRevision.Gather | src/persistence/store-revision.ts:116-192 | keeps the oldest revision of each run and attempt, the loose records, and the newest revision of all |
| StoreRevision.StateStore.ProbeStore | src/persistence/store-revision.ts:116-192 | a run or attempt is held for stale exactly when one of its records declares an older revision, and the newest revision is over the running one exactly when some record's is |
| StoreRevision.StateStore.Destination | src/persistence/store-revision.ts:205-217 | the first free slot of the revision and place, or none exactly when all 999 are taken |
| StoreRevision.StateStore.MoveAll | src/persistence/store-revision.ts:262-279 | every planned place that is there goes whole into its own new slot under its planned revision; nothing is overwritten and nothing else moves, also when a slot runs out midway |
| StoreRevision.StateStore.PlanMoves | src/persistence/store-revision.ts:233-259 | plans exactly the stale places, each under a revision that a record of its own run or attempt declares |
| StoreRevision.StateStore.StaleAttempts | src/persistence/store-revision.ts:240-250 | an attempt is stale exactly when its own record is older or a stale run names it |
| StoreRevision.StateStore.QuarantineStaleState | src/persistence/store-revision.ts:225-289 | a newer record refuses the start and moves nothing; otherwise every stale place goes whole into one new, explained slot, and everything else stays; the answer lists exactly what moved |
| StoreRevision.OpenedIsCurrent | src/persistence/store-revision.ts:225-289 | after an accepted open every probed record declares the running revision |
| StoreRevision.SecondOpenFindsNothing | src/persistence/store-revision.ts:225-289 | opening again moves nothing |
| StoreRevision.CurrentRunUntouched | src/persistence/store-revision.ts:243-250 | a run none of whose records is older stays as it is, with its attempts |
| StoreRevision.StaleRunLeavesNothing | src/persistence/store-revision.ts:243-259 | what belongs to a stale run goes with it, whatever revision its own records have |
| Canonical.NormalizeValue | src/preflight/canonical.ts:3-34 | the recursive loop computes the normal form, refusing exactly what the function refuses |
| Canonical.FormIsMeaning | src/preflight/canonical.ts:3-38 | two values have one form if and only if they mean the same: key order at any depth and the sign of zero make no difference, anything else does |
| Canonical.NormalizeTwice | src/preflight/canonical.ts:3-34 | a normal form is its own normal form |
| Compile.ByIdentity | src/preflight/compile.ts:225-231 | the map holds every resource under its identity, and is refused exactly when two share one |
| Compile.ValidateResources | src/preflight/compile.ts:218-255 | accepts exactly unique identities that cover everything required, hold no unrequested tool, and name the agent's own source and digest |
| Compile.CompileLaunchPlan | src/preflight/compile.ts:262-426 | the compiled plan, or the refusal; every compiled plan has valid limits |
| PlanIdentity.ReadBackVerifiesExactly | src/preflight/compile.ts:257-260 | a draft read back with its keys in any order verifies; a value verifies without a digest collision with the draft if and only if it means the same |
| PlanIdentity.IdentityTellsDrafts | src/preflight/compile.ts:257-260 | unless the digest collides on the two, the identity sealed for one draft verifies another if and only if every field is the same |
| PlanIdentity.DerivedPlansVerifyExactly | src/service.ts:506-577 | every plan derived from a compiled one, however often, verifies when read back, nothing else does without a digest collision with it, and it differs in attempt and limits only |
| PlanIdentity.AttemptsTellApart | src/service.ts:506-577 | the plans of two attempts of one run never verify under each other's identity, unless the digest collides on the two |
| PlanIdentity.SomeDigestTells | src/preflight/canonical.ts:36-42 | for any finitely many values there is a digest that tells all their forms apart, so the condition can be met |
| PlanIdentity.AcceptedContexts | src/preflight/compile.ts:332-340 | unless the digest collides on the two lists, the contexts projected are exactly the context resources granted, whatever their order |
| PlanIdentity.CompileIgnoresEveryOrder | src/preflight/compile.ts:369-426 | plan or refusal is the same when request tools, skills, scopes, ceiling lists, resources or projected contexts are listed in another order |
| Sorting.SortForgetsOrder | src/preflight/compile.ts:304-398 | a sort under a comparison that separates its elements depends only on the multiset sorted |

## Left out

- Journal and lease: that callers keep one journal object in use per held lease and release no lease during an in-flight append is a hypothesis of the whole-run theorems, and so is that a snapshot follows an append of the same object; process and lease identities are never reused; `assertCurrent` and the first read of an opening object are one step, and so are the decision of `assertCurrent` and the snapshot write after it.
- JournalText.DecodeEncode: an event is its sequence, run id, kind and data; schema, event id, revision and timestamp fields are not in it, and its data is held as text.
- Checkpoints: directory listing is one step; failure records, temporary-file cleanup and the polling of `waitFor` (its answer is a parameter), and two reclaimers of one stale lock, are not modelled.
- RetentionTrash: the runs of two intents share no path and no ref; the check that a manifest path stays inside the store and directory syncs are left out; a listed path exists when the move begins.
- RetentionSelection: `localeCompare` is any total order on run names; sizes of trees and pins on disk are parameters, the 32-attempt bounds on a descriptor and the refusal of a run without its record are left out.
- LifecycleCredit.RecoveryNeverCreditsEarlier: over runs whose writers have the newest attempt, because the code does not check it; StaleReleaseMiscredits shows the failure, and LifecycleExact.RecoveryCreditsEarlierExactly says over all runs when it occurs.
- Lifecycle: usage checkpoints, control and sandbox events, usage numbers, and sessions beyond their observed state are left out; an I/O error is a step that throws between two writes. A seat does one operation on a run at a time, although `reconcile`, outside `runExclusive`, may overlap another of the same seat's on a lease it holds; MemoryMatchesDiskExactly and AbandonmentIsIrrevocable are not claimed of such an overlap. An attempt record that is there is always accepted in this machine; that `create` refuses a different one is in AttemptRecords, and for plans in BudgetRuns.
- VmSlots: a process does not die leaving its VM running, and a failed create or resume leaves none.
- GondolinSandbox: the guest, its mounts, its network and the write budget are answers or left out.
- Worktree, WorktreeRuns: the looks at branch and HEAD of one identity check are one step, and so is an operation's first lease check with the step it guards; an operation that finds its lease lost stops like one that died. Digest segments of names are taken as distinct; commits are numbered in the order they are made; git failures other than refusals, a checkout directory removed by hand, patch export itself, read-only snapshots and the submodule and size checks of preflight are left out.
- AttemptRecords: a lease is not released while a creator that holds it is at work; schema and size refusals are left out.
- OperationIndex: schema refusals and the temporary file are left out.
- Budget, BudgetRuns: cost is a real number, so rounding is not modelled; the host's clock and the provider's usage counts are parameters; usage counters only grow within one start of an attempt, and a retry or resume whose plan arithmetic refuses is never asked for.
- BudgetSaved.SavedKeepsWithinRoot: over runs whose writers have the newest attempt and whose launches find no run, because the code checks neither; BudgetExamples builds the runs in which it fails, and BudgetRuns.NeverMoreThanRootExactly says over all runs when.
- Artifacts: SHA-256 is any function; that it does not collide on the outputs at hand is assumed only where a clause says so; the artifact ref's media type and the lease fence of a put are left out.
- Actions: the drift checks of retry and resume (workspace, agent, skills, context files, model, session file) are answers of the outside world; the claims are about the methods' own guards, the backoff and the plan arithmetic.
- Actions.FailuresClassify: the error-text branches after the capacity branch are one parameter, because they add only easy cases.
- StoreRevision: one opener and no crash; a quarantined name with an ordinal suffix never equals another place's name; unreadable or oversized files count as declaring nothing.
- Canonical: cyclic values, integer-like key order and the `__proto__` key are left out; objects are finite lists of fields with distinct keys, and which of several refusals comes first is not said.
- Compile: model resolution, agent text, workspace and sandbox identity are taken over as one value; schema checks beyond the bounds the plan needs are left out.
- PlanIdentity.CompileIgnoresEveryOrder: the digest does not collide on the context lists compared, and the host's collation is any total order that tells the names of the context resources apart.
- Model sessions, tools, resource loading, the extension, the inspector and all rendering are left out, and so are sockets, processes, QEMU, git and fsync beyond the contracts above.
