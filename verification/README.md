# Checkpoint fabric: a verified model

This project models the durable core of the checkpoint fabric and proves properties of it.

* **The checkpoint protocol.** `Tables.dfy` gives the store's transactions as functions on table contents; `Store.dfy`
  is the store object whose methods are those transactions. `Operations.dfy` turns captures, restores, their aborts,
  recovery and retirement into programs over atomic store calls and node answers. Any number of operations interleave,
  every store call can fail, every node can refuse or lose an answer, and a crash can come between any two steps; the
  tables survive it, live operations do not. A run is a list of events from the empty store. What holds in every run:
  `Journal.dfy` and `Verdicts.dfy` (what an attempt's entries and verdict say), `Evidence.dfy` (which answers they
  stand for), `Anchors.dfy`, `Chain.dfy`, `Availability.dfy`, `Replicas.dfy`, `CapturedContent.dfy` and
  `Retirements.dfy` (checkpoint rows), `Conservation.dfy`, `Records.dfy` and `Lineage.dfy` (counters and lineage
  against the journal), `Fencing.dfy` and `Authority.dfy` (who holds a workload), `Reservations.dfy` and
  `Refusals.dfy`. What a crash and a reconciliation leave: `Recovery.dfy`, `Restart.dfy`, `CrashAtomicity.dfy`,
  `Promotion.dfy`, `RecoveryPass.dfy`, and `InterruptedRecovery.dfy` for recovery that crashes and fails itself;
  `Directories.dfy` says exactly when a published checkpoint has its directory, and `RestoreStates.dfy` which restores
  end for good. `Progress.dfy`, `RestoreProgress.dfy` and `Aborts.dfy` show where undisturbed captures, restores and
  failed requests end; `Counterexamples.dfy` and `ReachableRuns.dfy` give runs on which claims fail.
* **The filesystem restore journal.** `FileTree.dfy`, `UndoJournal.dfy`, `FilesystemProvider.dfy` and
  `DirectoryCapture.dfy` model a restore with a write-ahead undo log over a tree on which every file operation can fail
  half way, and the directory walk that produces its payload.
* **Wire and replication.** `Wire.dfy`, `Transport.dfy` and `Replication.dfy` model the frame codec, reassembly from
  arbitrary pieces, and the chunked copy from a peer that need not be honest.
* **Incremental chains.** `IncrementalChain.dfy` models the two walks over parent links.

Identifiers are natural numbers; attempt and checkpoint ids are random in the program and fresh in the model. Counters
are natural numbers where the program saturates at 64 bits. CRC-32C, content hashes and segment sanitizing are arbitrary
functions passed as parameters. In the file-tree model the reserved journal directory is kept apart from the tree.

## Where the program does less than its documentation says

* `is_restorable` accepts RESTORED, yet RESTORED has no transition to RESTORE_PENDING (`Lifecycle.RestorableYetStuck`).
  A restore request on a restored checkpoint passes validation and then fails (`RestoreStates.RestoreOfRestoredAborts`).
  With requests one at a time RESTORED is final: the checkpoint is never restored or retired again, and every later
  restore of it ends FAILED (`RestoreStates.RestoredIsFinal`, `RestoreStates.RestoresOfRestoredFail`). In general it is
  final exactly when no live operation is about to write a lifecycle it has read before
  (`RestoreStates.RestoredIsFinalExactly`); concurrent restores can get there (`ReachableRuns.RestoredBesideLateWriter`).
* The supersession queries skip checkpoints under restore, and retirement does not unlink. A capture commit keeps the
  chain exactly when neither neighbour is under restore (`Chain.CommitKeepsChain`), a retirement exactly when the retired
  row has no neighbour (`Chain.RetireKeepsChain`); `ReachableRuns.CommitBesideRestoreBreaksChain` and
  `ReachableRuns.RetirementLeavesDanglingLink` are runs that do neither.
* A retirement that slips in between the validation of a restore and its reservation leaves a checkpoint under restore
  with no location (`Counterexamples.RestoredFromNothing`); no other step can take a linked checkpoint's last location
  away (`Availability.StepBreaksStockOnlyByRevival`), and none does when requests run one at a time
  (`Availability.LinkedCheckpointsAreBacked`).
* A published checkpoint need not have the directory it records. With requests one at a time a persisted capture's
  directory is on its node exactly unless the node has obeyed an order to delete it
  (`Directories.CommittedDirectoryStaysUnlessDeleted`), and two paths give such orders too early:
  * An aborting capture has the promoted directory deleted before it marks the checkpoint failed. A crash publishes a
    checkpoint without a directory exactly when it comes after the node has obeyed and before the row is failed
    (`Directories.PublishedWithoutDirectoryExactly`, and a run in `Counterexamples.PublishedWithoutItsDirectory`).
  * A retirement has every replica deleted before it looks at the lifecycle (`Counterexamples.RetirementRuns`). These
    deletions, and no other step, take the directory of a linked checkpoint (`Directories.OnlyRetirementsDeleteLinked`);
    a RESTORED checkpoint then keeps its row and its recorded location (`ReachableRuns.RestoredWithoutDirectory`), and
    so does an available one after a crash (`ReachableRuns.AvailableWithoutDirectory`).
* A persisted capture whose commit is missing is not always committed by recovery, although src/recovery.rs:4-6
  promises that it is never dropped: any failure of the commit call, a transient one included, makes
  recovery reject the checkpoint (src/recovery.rs:134-153). Over any crashes, recoveries and failing store calls
  before a pass that comes through, the capture is committed exactly when that rejecting write has not taken effect
  (`InterruptedRecovery.PersistedCaptureSurvivesExactly`), which it cannot unless a commit call of its own recovery
  has failed (`InterruptedRecovery.PersistedCaptureSurvivesRestarts`). A crash or another failure between the two
  leaves it to be recovered; after the write it is lost in every continuation
  (`InterruptedRecovery.RejectedNeverAppears`; a run in `ReachableRuns.RecoveryDropsPersisted`).
* Reconciliation of a restore without a `components_restored` entry leaves the checkpoint under restore
  (`Recovery.InterruptedRestore`), and it stays there in every continuation exactly when no other attempt on it has
  evidence (`RestoreStates.UnderRestoreForeverExactly`; a run in `ReachableRuns.ReconcileLeavesUnderRestore`).
* The verdict COMMITTED of a restore says that the node resumed the workload only when the restore finished itself.
  Recovery gives it to every restore with its commit entry, resumed or not, and an abort after the commit writes
  COMMITTED_NO_RESUME, also over COMMITTED (`Verdicts.VerdictsAreExact`). RESUME_FAILED of a capture does not last
  either: the abort that follows writes COMMITTED over it (`Aborts.RefusedResumeEndsCommitted`).
* A request one of whose store calls fails is closed by its abort, except when the failing call is the one that
  journals the reservation: then the attempt stays ACTIVE until a restart (`Aborts.FailedRequestsClose`).
* A filesystem payload is checked against the tree that is there and not against itself. An accepted one can be
  written exactly when none of its entries lies below another (`UndoJournal.WritableExactly`).
* Undoing an interrupted filesystem restore fails for payloads in which a reachable entry has a later entry for an
  ancestor; `UndoJournal.UndoableExactlyWhenOrderly` gives the exact condition, and captured payloads meet it
  (`DirectoryCapture.SortedIsOrderly`).
* Replication writes the checksum sidecars of a component next to it, under names that another component may have. A
  copy that succeeds leaves every component as declared, whatever the peers answer, exactly when no component is named
  like a sidecar of a later one (`Replication.CopiesAreIntactExactly`); `Replication.SidecarReplacesComponent` is the
  input `a.sha256`, `a`.
* `decode` ignores the reserved header byte, so accepted bytes are reproduced by `encode` exactly when that byte is zero
  (`Wire.DecodedBytesReencode`).

## Model

| member | source | states |
|---|---|---|
| `Lifecycle.AnchoredPathsStayAnchored` | src/lifecycle.rs:59-83 | along any path of legal transitions a committed checkpoint stays committed, retired or becomes failed |
| `Lifecycle.RestorableYetStuck` | src/lifecycle.rs:49-77 | a state is accepted for restore but has no transition to RESTORE_PENDING exactly when it is RESTORED |
| `Lifecycle.CapturesTakeNoShortcut` | src/lifecycle.rs:59-83 | a legal transition of the capture half goes one stage on or to FAILED, never back and never past a stage |
| `Lifecycle.AvailableAfterAllStages` | src/lifecycle.rs:59-83 | a path of legal transitions from CREATED that does not fail visits every stage once, in order |
| `RestoreStates.RestoreOfRestoredAborts` | src/coordinator.rs:989-1087 | left to itself, a restore request on a RESTORED checkpoint ends FAILED or without an attempt and changes no checkpoint or workload |
| `RestoreStates.RestoredIsFinal` | src/coordinator.rs:1091-1333 | when requests have run one at a time, a RESTORED checkpoint is RESTORED in every continuation |
| `RestoreStates.RestoredIsFinalExactly` | src/coordinator.rs:1091-1333 | in any interleaving a RESTORED checkpoint stays so in every continuation exactly when no live operation is about to write a lifecycle read before |
| `RestoreStates.RestoresOfRestoredFail` | src/coordinator.rs:1068-1087 | every restore of it that had not committed never does and, once finished, is FAILED |
| `RestoreStates.UnderRestoreForeverExactly` | src/recovery.rs:219-314 | after a crash a checkpoint under restore stays so in every continuation exactly when no ACTIVE attempt on it has components_restored without its commit marker |
| `Operations.MaxGeneration` | src/persistence.rs:1034-1042 | is the largest checkpoint generation of the workload, 0 when there is none |
| `Tables.NearestBelow` | src/persistence.rs:876-884 | answers the "previous" range query: a visible row of the workload below the generation with none between, or none at all |
| `Tables.NearestAbove` | src/persistence.rs:885-893 | answers the "next" range query likewise |
| `Journal.CaptureKeeps` | src/coordinator.rs:593-790 | every step of a capture, whatever fails, keeps journal stages, attempt row and program counter in agreement |
| `Journal.CaptureAbortKeeps` | src/coordinator.rs:796-873 | the abort of a capture reads the commit marker and finishes the attempt accordingly |
| `Journal.RestoreKeeps` | src/coordinator.rs:1091-1259 | every step of a restore keeps journal stages, attempt row and program counter in agreement |
| `Journal.RestoreAbortKeeps` | src/coordinator.rs:1262-1333 | the abort of a restore finishes it as committed exactly with the commit marker |
| `Journal.RecoverCaptureKeeps` | src/recovery.rs:107-218 | the recovery of a capture finishes it as its journal decides |
| `Journal.RecoverRestoreKeeps` | src/recovery.rs:219-314 | the recovery of a restore finishes it as its journal decides |
| `Journal.JournalIsClosedAndVerdictsAgree` | src/recovery.rs:19-34 | in every run each attempt's journal is closed under earlier stages, and a finished attempt is committed-type exactly with its commit marker and FAILED exactly without |
| `Verdicts.VerdictsAreExact` | src/coordinator.rs:1208-1219 | in every run an attempt is ACTIVE exactly while nobody has finished it, and its verdict is what its last finisher gives: its operation by the node's answer, an abort and a recovery by the commit marker |
| `Verdicts.RestoresReportTheResume` | src/coordinator.rs:1173-1219 | a restore finished by itself is COMMITTED exactly when its plan asked for a resume and the node answered ok, COMMITTED_NO_RESUME otherwise |
| `Evidence.CapturesAreVouchedFor` | src/coordinator.rs:606-762 | in every run a capture attempt began on a workload somebody held, a sealed one's node has answered the capture, a persisted one's the promotion, and one with resume_done the resume |
| `Evidence.RestoresAreVouchedFor` | src/coordinator.rs:989-1156 | in every run a restore attempt began on a restorable, uncorrupted, recorded checkpoint onto a node free to claim the workload; components_restored stands for a replica at the target and the node's answer |
| `RowInvariants.RebindReplaces` | src/persistence.rs:1570-1613 | rebinding leaves one location for that node or path, keeps all others, does not grow when it replaces, and carries trust over only from what it replaces |
| `RowInvariants.EditKeepsRows` | src/persistence.rs:701-812 | no row edit breaks unique and dense generations, directed links or replica counts |
| `RowInvariants.InsertKeepsRows` | src/persistence.rs:612-691 | inserting the next generation keeps the table invariants |
| `RowInvariants.CommitKeepsRows` | src/persistence.rs:876-910 | the splice of a capture commit keeps the table invariants |
| `RowInvariants.WalkDown` | src/persistence.rs:894-910 | following supersedes visits strictly smaller generations and ends |
| `RowInvariants.WalkUp` | src/persistence.rs:894-910 | following superseded_by visits strictly larger generations and ends |
| `Anchors.StepKeepsInv` | src/coordinator.rs:500-873 | every event keeps ownership of rows, dense generations, directed links and the tie between lifecycle and commit marker |
| `Anchors.GenerationsAreDense` | src/coordinator.rs:526-529 | in every run the generations of a workload are exactly 1 to the maximum, each used once |
| `Anchors.LinksAreDirected` | src/persistence.rs:876-910 | in every run, retirement included, links lead to strictly smaller and strictly larger generations of the same workload and both walks are bounded |
| `Anchors.ReplicasAreCounted` | src/persistence.rs:1221-1249 | in every run replica_count is the number of locations and no node appears twice |
| `Anchors.CommittedExactlyByMarker` | src/persistence.rs:845-937 | in every run a checkpoint is available, under restore, restored or retired exactly when its own capture attempt has the db_committed entry |
| `Availability.StepBreaksStockOnlyByRevival` | src/persistence.rs:1180-1210 | a step leaves some linked checkpoint without location exactly when it takes a retired, emptied row out of retirement |
| `Availability.LinkedCheckpointsAreBacked` | src/persistence.rs:845-859 | in every run a linked checkpoint has its commit marker and a non-empty digest, and a location when requests run one at a time |
| `Replicas.ReportedReplicasAreRecorded` | src/persistence.rs:1221-1249 | in every run a reported replica's node is named afterwards, nothing recorded before moves, and a node not named before gets exactly that location |
| `Replicas.ReportsGoOn` | src/coordinator.rs:762-765 | a capture goes on replicating after a recorded replica, a restore goes on to restore |
| `Replicas.RecordedReplicasStay` | src/persistence.rs:1180-1249 | in every run a recorded location goes away only by a rebinding of its node or path, a retirement, or its capture's own rewriting before the commit |
| `CapturedContent.CommittedHoldsTheCapture` | src/coordinator.rs:636-690 | in every run a committed checkpoint holds the image, digest, resumability, workload and workload generation of the request that captured it |
| `Retirements.RetiredAfterDeletions` | src/coordinator.rs:1577-1632 | in every run a checkpoint is retired only by a retirement that found it unreserved and unprotected, after every node its row then named obeyed the deletion, and only if it is AVAILABLE and not pinned |
| `Retirements.DeletionsAreAllowed` | src/coordinator.rs:1586-1622 | a retirement orders deletions only of locations it read, after it found that |
| `Retirements.ProtectionIsKept` | src/persistence.rs:1167-1200 | a committed checkpoint keeps the protection it was last given, and while pinned it is not retired, whatever runs |
| `Conservation.CountersMove` | src/persistence.rs:972-987 | what one step can do to a workload's generation and epoch |
| `Conservation.CountersCountTheJournal` | src/persistence.rs:972-1028 | in every run generation equals the number of generation_committed entries of the workload's attempts, and the epoch those plus its authority_transferred entries plus its fence bumps |
| `Conservation.UncommittedRestoresLeaveNoTrace` | src/coordinator.rs:1262-1333 | without attach, detach or fence, generation, epoch, owner and token stay unless a restore gains its commit marker |
| `Records.CommitsAreRecorded` | src/persistence.rs:925-930 | when a db_committed entry appears, the workload records that generation and resumability unless it records a later generation, and no other column or workload changes |
| `Records.RecordFollowsCommits` | src/persistence.rs:925-930 | between any two moments without a restore commit, checkpoint generation and resumability are those of the latest checkpoint committed meanwhile, if not earlier than what was recorded, and else stay |
| `Records.LatestCheckpointIsRecorded` | src/persistence.rs:925-930 | in every run without a committed restore of the workload it records the largest committed generation, 0 when there is none, and that checkpoint's resumability |
| `Records.RestoresAreRecorded` | src/persistence.rs:976-987 | when a restore gains its commit marker the workload records its checkpoint's generation, until the next commit of a capture or restore |
| `Lineage.SupersessionsAreLogged` | src/persistence.rs:911-924 | a checkpoint has no Supersedes row before its commit, exactly one to the predecessor it is linked to after it, or none, and never another |
| `Lineage.LineageCountsTheJournal` | src/persistence.rs:992-1022 | in every run, per workload, per checkpoint and in all, RollbackOf rows count the rollbacks with generation_committed and MigratedFrom rows the attempts with authority_transferred |
| `Lineage.RestoreCountsTheJournal` | src/persistence.rs:988-992 | in every run restore_count is the number of generation_committed entries of the checkpoint's attempts, and the last result is set exactly when it is not 0 |
| `Lineage.ForksAreLogged` | src/persistence.rs:382-440 | in every run a workload has exactly one ForkedFrom row, to its parent and a checkpoint of it, or none when it has no parent |
| `Lineage.RowsAreShaped` | src/persistence.rs:911-1013 | every lineage row has the columns of its relation |
| `Fencing.TokensComeWithAuthority` | src/workload.rs:91-115 | in every run a token comes with an active node and fence_epoch equal to execution_epoch, no grant is ahead of the epoch, and at most one grant of a workload passes |
| `Fencing.FencedOutForGood` | src/coordinator.rs:2334-2344 | a grant that fails the heartbeat check at some moment never passes again |
| `Fencing.MovedEpochsRevoke` | src/persistence.rs:487-512 | when the epoch moves, no grant issued before ever passes again |
| `Authority.GrantEndsExactly` | src/persistence.rs:487-567 | a passing grant stops passing by exactly four kinds of step: a fence at its epoch, a detach of its node, a claim at its epoch by its node or where single-active fencing allows another, or a restore commit |
| `Authority.HeldWorkloadsStayHeld` | src/persistence.rs:533-543 | through any stretch without these for its node and workload, nobody seizes a single-active workload whose grant passes |
| `Authority.OwnersChangeByCommit` | src/persistence.rs:972-987 | a single-active workload goes from one node to another only by the commit of a restore onto that node, with the token of its plan |
| `Authority.AttachIsGrantedExactly` | src/persistence.rs:515-553 | an attach is granted, and its grant passes, exactly when the workload exists, the token is fresh, the epoch current and the workload free for the node; else nothing changes |
| `Authority.ReleasesAreExact` | src/persistence.rs:555-567 | the owner's release frees the workload for any node at the same epoch, another node's changes nothing |
| `Authority.CreatedForItsHolder` | src/coordinator.rs:380-435 | the grant of a workload's first holder passes |
| `Authority.ForkedIsFree` | src/coordinator.rs:1352-1406 | a fork is fenced at epoch 0, free for any node, and no grant passes on it |
| `Authority.RegrantsPassExactly` | src/coordinator.rs:1799-1820 | the authority recovery hands to a node passes exactly when it is the owner |
| `Chain.CommitSplices` | src/persistence.rs:894-910 | a commit changes its own row and one link of each neighbour, and nothing else |
| `Chain.CommitKeepsChain` | src/persistence.rs:876-910 | a commit keeps every linked row between its nearest linked neighbours exactly when neither neighbour is under restore |
| `Chain.RetireKeepsChain` | src/persistence.rs:1180-1210 | a retirement keeps the chain exactly when the retired row has no neighbour |
| `Chain.WalkVisitsTheChain` | src/persistence.rs:876-910 | in a chained table following supersedes visits exactly the linked rows of the workload up to that generation |
| `Chain.LinksAreMutual` | src/persistence.rs:899-910 | in a chained table supersedes and superseded_by are inverse to each other |
| `Chain.CommitTwiceIsOnce` | src/persistence.rs:815-939 | capture_commit applied twice equals once: rows, links, lineage, counters and journal |
| `Chain.StepKeepsChain` | src/persistence.rs:815-939 | short of a retirement, a step breaks the chain exactly when it commits a capture beside a checkpoint under restore |
| `Chain.CheckpointsFormAChain` | src/persistence.rs:815-939 | over every run without such steps the committed checkpoints of a workload form one sorted doubly linked list |
| `Persistence.Store.CheckpointMaxGeneration` | src/persistence.rs:1034-1042 | the row loop computes the maximum generation |
| `Persistence.Store.PreviousOf` | src/persistence.rs:876-884 | the row loop answers the "previous" query |
| `Persistence.Store.NextOf` | src/persistence.rs:885-893 | the row loop answers the "next" query |
| `Persistence.Store.ActiveAttempts` | src/persistence.rs:1420-1451 | lists exactly the ACTIVE attempts, each once |
| `Persistence.Store.CheckpointInsert` | src/persistence.rs:612-691 | inserts the row or reports a conflict of id or generation and changes nothing |
| `Persistence.Store.CheckpointEdit` | src/persistence.rs:701-812 | every update of one row, with its error cases, as its transaction on the rows |
| `Persistence.Store.RebindLocation` | src/persistence.rs:1587-1602 | the location loop computes the rebound list |
| `Persistence.Store.CaptureCommit` | src/persistence.rs:815-939 | the statements of the commit, one after the other, are the commit transaction, and every error leaves the tables unchanged |
| `Persistence.Store.RestoreCommit` | src/persistence.rs:943-1031 | likewise for the restore commit |
| `Persistence.Store.ReservationCreate` | src/persistence.rs:1649-1684 | one held reservation per scope, conflict otherwise |
| `Persistence.Store.ReservationsExpire` | src/persistence.rs:1717-1724 | expires exactly the held reservations that are due and counts them |
| `Persistence.Store.BumpFence` | src/persistence.rs:487-512 | compare-and-set of the epoch that clears owner and token |
| `Persistence.Store.Claim` | src/persistence.rs:515-553 | single-active and epoch checks, then the new owner and token |
| `Reservations.ReservationsAreExclusive` | src/persistence.rs:1649-1684 | in every run at most one capture of a workload and one restore of a checkpoint is reserved at a time |
| `Reservations.HeldUntilReleased` | src/persistence.rs:1686-1724 | a held reservation stays held until its own attempt's last step or an expiry after its time, and is never held again |
| `Refusals.RecommitSucceedsExactly` | src/persistence.rs:845-874 | in every run a committed checkpoint can be committed again exactly while it is AVAILABLE with a location, whatever the workload's generation; and the two refusals |
| `Refusals.FirstCommitRefusals` | src/persistence.rs:826-874 | which error refuses a first commit, for every table |
| `Refusals.RestoreCommitSucceedsExactly` | src/persistence.rs:943-970 | in every run a restore can commit exactly on a RESTORING checkpoint; and the two refusals |
| `Refusals.UpdateRefusals` | src/persistence.rs:701-812 | which error refuses a row update, and that no other row changes |
| `Refusals.VerificationIsRecorded` | src/coordinator.rs:1498-1505 | a verification sets the integrity and nothing else, and a checkpoint found corrupt is accepted for no restore |
| `Recovery.ReconcileCapture` | src/recovery.rs:107-218 | the procedure computes the capture branch of reconciliation on the tables |
| `Recovery.ReconcileRestore` | src/recovery.rs:219-314 | the procedure computes the restore branch |
| `Recovery.Reconcile` | src/recovery.rs:66-98 | counts the reservations it expires and decides every attempt that is ACTIVE at the start, in order; on success none is ACTIVE and none of them holds a reservation |
| `Recovery.AllAreClosed` | src/recovery.rs:89-98 | a successful pass closes its attempts and their reservations and changes no other attempt |
| `Recovery.SecondPassIsIdle` | src/recovery.rs:89-98 | a second pass takes no attempt action |
| `Recovery.InterruptedRestore` | src/recovery.rs:219-314 | reconciling a restore changes no workload, lineage, journal or other row, and returns the checkpoint to AVAILABLE exactly with the components_restored entry |
| `Recovery.ReportsAgree` | src/recovery.rs:105-313 | each of the eight reported decisions is reported exactly when the journal before and the verdict after say so |
| `Restart.RecoveryRefinesReconcile` | src/recovery.rs:100-325 | after a crash the step-by-step recovery of an attempt ends in exactly the tables the sequential reconciliation computes and touches nothing else |
| `CrashAtomicity.CaptureIsAllOrNothing` | src/recovery.rs:107-218 | reconciling a capture gives the uninterrupted commit, nothing, or a failed checkpoint with all else unchanged, and says when |
| `CrashAtomicity.CrashedCapture` | src/recovery.rs:107-218 | the same for every capture attempt of every run, whatever it was doing |
| `CrashAtomicity.EveryAttemptIsDecided` | src/recovery.rs:100-325 | in every run every attempt can be reconciled without error |
| `CrashAtomicity.UnpersistedNeverAppears` | src/recovery.rs:196-217 | a capture that crashed before its persisted entry and was reconciled changed no table and never becomes available in any continuation |
| `Promotion.PersistedCaptureSurvives` | src/coordinator.rs:673-716 | one request at a time, a crash of a persisted capture before its cleanup order, then recovery: committed by the same transaction and the node still has the promoted directory |
| `Promotion.AbortedCopyIsPublished` | src/coordinator.rs:824-853 | after the node has obeyed the cleanup order, crash and recovery publish the checkpoint without the directory |
| `Progress.CaptureReachesItsCommit` | src/coordinator.rs:523-716 | undisturbed and answered well, a capture reaches a commit that succeeds, numbered one above the maximum |
| `RestoreProgress.RestoreComesThrough` | src/coordinator.rs:989-1259 | undisturbed and answered well, a restore of an available checkpoint ends with it RESTORED, the workload one generation on and at its generation, the target's grant passing, and the attempt COMMITTED or COMMITTED_NO_RESUME as asked |
| `Aborts.CaptureAbortRuns` | src/coordinator.rs:796-873 | left to itself an uncommitted capture's abort deletes its directory, fails its unsettled row and ends FAILED; a committed one keeps both and ends COMMITTED; the reservation is given up |
| `Aborts.RestoreAbortRuns` | src/coordinator.rs:1262-1333 | left to itself an uncommitted restore's abort gives the checkpoint back as AVAILABLE and ends FAILED; a committed one changes no row and ends COMMITTED_NO_RESUME |
| `Aborts.FailedRequestsClose` | src/coordinator.rs:523-588 | a request whose store call fails, left to itself, leaves its attempt ACTIVE exactly when that call was to journal its reservation, and a held reservation only when it had not got past that |
| `Aborts.RefusedResumeEndsCommitted` | src/coordinator.rs:723-759 | a refused resume writes RESUME_FAILED and its abort writes COMMITTED over it |
| `Counterexamples.PublishedWithoutItsDirectory` | src/coordinator.rs:796-873 | some one-at-a-time run ends with an available checkpoint whose recorded replica does not exist |
| `Counterexamples.RestoredFromNothing` | src/coordinator.rs:1577-1632 | some run ends with a checkpoint under restore that has no location |
| `Counterexamples.RetirementRuns` | src/coordinator.rs:1577-1632 | a retirement left to itself deletes every directory it read of, and the row changes only if it was available and not pinned |
| `Counterexamples.CaptureTouchesOwnRow` | src/coordinator.rs:593-700 | up to its commit a capture changes no row but its own |
| `ReachableRuns.CommitBesideRestoreBreaksChain` | src/persistence.rs:876-893 | some run commits a capture beside a checkpoint under restore and breaks a whole chain |
| `ReachableRuns.RetirementLeavesDanglingLink` | src/persistence.rs:1180-1210 | some run retires a checkpoint that its neighbour goes on naming as superseded |
| `ReachableRuns.ReconcileLeavesUnderRestore` | src/recovery.rs:301-313 | some run has a crashed restore whose recovery fails it and leaves the checkpoint under restore in every continuation |
| `ReachableRuns.RecoveryDropsPersisted` | src/recovery.rs:134-153 | some one-at-a-time run crashes at the commit of a persisted capture, and one failing store call of its recovery leads to the rejection |
| `ReachableRuns.RestoredWithoutDirectory` | src/coordinator.rs:1603-1622 | some one-at-a-time run ends with a RESTORED checkpoint recording a replica its node was told to delete |
| `ReachableRuns.AvailableWithoutDirectory` | src/coordinator.rs:1603-1622 | some one-at-a-time run ends with an available checkpoint in that condition |
| `ReachableRuns.RestoredBesideLateWriter` | src/coordinator.rs:1100-1140 | some concurrent run reaches RESTORED beside a restore about to write a lifecycle it read before |
| `Directories.DirectoryStaysUnlessDeleted` | src/coordinator.rs:673-716 | one request at a time, a persisted capture's node has its directory exactly unless it obeyed an order to delete it |
| `Directories.CommittedDirectoryStaysUnlessDeleted` | src/coordinator.rs:673-716 | the same for every committed checkpoint and the node that captured it |
| `Directories.OnlyRetirementsDeleteLinked` | src/coordinator.rs:1603-1622 | in every run, the orders that take a linked checkpoint's capture directory are exactly a retirement's deletion calls for it that the node obeys; the tables stay |
| `Directories.RecoveryPublishesExactly` | src/recovery.rs:107-218 | recovering any persisted capture publishes its checkpoint exactly when it was committed or its ACTIVE attempt can still publish it, and the directory is there exactly unless deleted on an order |
| `Directories.PublishedWithoutDirectoryExactly` | src/coordinator.rs:796-873 | for every program counter of a capture and its abort: a crash and recovery publish a checkpoint without its directory exactly when the uncommitted abort has had its deletion order obeyed and has not failed the row |
| `RecoveryPass.PassSucceeds` | src/recovery.rs:66-98 | for every run, time and listing of the ACTIVE attempts the pass succeeds, ends in tables a continuation reaches, and decides each capture all or nothing |
| `InterruptedRecovery.PersistedCaptureSurvivesExactly` | src/recovery.rs:121-183 | after a crash of a persisted capture not yet told to clean up, any crashes, recoveries and failing store calls, then a pass: committed and published exactly when its own recovery has not written the rejection, its directory kept in any case |
| `InterruptedRecovery.PersistedCaptureSurvivesRestarts` | src/recovery.rs:66-218 | in particular committed and published, with its directory, when no commit call of its own recovery has failed |
| `InterruptedRecovery.RejectedNeverAppears` | src/recovery.rs:134-153 | once rejected, the checkpoint is FAILED and its capture uncommitted in every continuation |
| `Coordinator.SweepStaleNode` | src/coordinator.rs:2369-2392 | every workload of a stale node loses its claim and moves one epoch on, no other changes |
| `Coordinator.SweptGrantsFail` | src/coordinator.rs:2369-2392 | after the sweep no grant of that node passes and every other passes as before |
| `Coordinator.FenceWorkload` | src/coordinator.rs:445-466 | fences exactly that workload, or reports that it does not exist |
| `Coordinator.StaleWorkloads` | src/coordinator.rs:2334-2344 | reports exactly the existing workloads whose grant does not pass |
| `FileTree.MkDirsShape` | src/providers.rs:642-646 | create_dir_all makes exactly the missing prefixes, and succeeds exactly when no file is in the way |
| `FileTree.PutFileShape` | src/providers.rs:642-648 | writing a file succeeds exactly when only directories lie above it and none in its place, and what it changes |
| `UndoJournal.InterruptedIsBetween` | src/providers.rs:642-650 | every tree an interrupted write loop can leave differs from the prior one only where the journal says |
| `UndoJournal.UndoRestoresPrior` | src/providers.rs:656-694 | from every such tree undoing gives exactly the prior tree |
| `UndoJournal.UndoableExactlyWhenOrderly` | src/providers.rs:575-694 | every interruption of an accepted restore can be undone exactly when no reachable entry has a later entry for an ancestor |
| `UndoJournal.CheckedExactly` | src/providers.rs:451-469 | a path is accepted exactly when it is not the root, not in the reserved directory, and leads where it says when "." and ".." are followed |
| `UndoJournal.WritableExactly` | src/providers.rs:575-650 | an accepted payload can be written exactly when no entry lies below another |
| `Filesystem.FilesystemProvider.ValidatePayload` | src/providers.rs:575-631 | accepts exactly the payloads with checked, distinct paths under real directories, and records what the journal needs |
| `Filesystem.FilesystemProvider.Restore` | src/providers.rs:561-650 | before the journal is durable only the root is touched; afterwards the tree is one an interrupted write loop leaves, and on success the whole payload is written; refused only for a payload not accepted or an attempt already journaled; without a failing operation an accepted payload is journaled and succeeds exactly when it can be written |
| `Filesystem.FilesystemProvider.SortByDepth` | src/providers.rs:680-682 | the created directories, deepest first |
| `Filesystem.FilesystemProvider.CleanupRestore` | src/providers.rs:656-694 | by any provider: without a failing operation it succeeds, success restores exactly the prior tree, and failure before the journal is removed leaves a tree from which it can be run again |
| `Filesystem.RestoreThenCleanup` | src/providers.rs:561-694 | a restore of orderly entries cut off anywhere, a restart and the cleanup by a new provider: without a failing operation in the cleanup it comes through, to exactly the prior tree; otherwise it can be run again |
| `Filesystem.FilesystemProvider.CommitRestore` | src/providers.rs:696-699 | forgets the journal and leaves the tree |
| `DirectoryCapture.Walk` | src/providers.rs:512-535 | the stack walk terminates and finds every regular file exactly once |
| `DirectoryCapture.SortEntries` | src/providers.rs:544 | the same entries, sorted by joined path |
| `DirectoryCapture.Capture` | src/providers.rs:512-547 | capture of a directory is the sorted listing of its regular files |
| `DirectoryCapture.ListingIsUnique` | src/providers.rs:544-546 | a tree has one listing |
| `DirectoryCapture.SortedIsOrderly` | src/providers.rs:544-546 | sorted payloads can always be undone |
| `DirectoryCapture.CaptureRoundTrip` | src/providers.rs:512-650 | restoring a captured payload onto an empty root succeeds and capturing that root gives the same payload |
| `Wire.CodeIsDecoded` | src/protocol.rs:29-148 | op codes survive encoding |
| `Wire.DecodedIsCode` | src/protocol.rs:87-148 | only op codes are decoded to operations |
| `Wire.Layout` | src/protocol.rs:175-198 | where each field of an encoded frame lies, and what the checksum covers |
| `Wire.Encode` | src/protocol.rs:175-198 | the pushes produce the wire form, or the length error |
| `Wire.DecodeInvertsEncode` | src/protocol.rs:175-235 | decode inverts encode on any buffer that starts with a legal frame |
| `Wire.DecodedBytesReencode` | src/protocol.rs:203-235 | an accepted frame re-encodes to the bytes consumed exactly when the reserved byte is 0 |
| `Wire.DecodeIsMonotone` | src/protocol.rs:203-235 | a frame or an error found in a buffer is found in every extension |
| `Wire.PrefixesAskForMore` | src/protocol.rs:203-221 | a strict prefix of a legal frame yields neither frame nor error |
| `Wire.MoreIsBounded` | src/protocol.rs:203-221 | a buffer for which decode asks for more is shorter than the longest frame |
| `Transport.Connection.ReadFrame` | src/transport.rs:82-115 | the outcome depends on the byte stream alone and not on its cutting, the overflow error is unreachable and the buffer stays bounded |
| `Transport.Connection.ReadAll` | src/transport.rs:82-115 | reading a concatenation of legal frames, cut anyhow, returns exactly them and leaves the buffer empty |
| `Transport.StreamOfFrames` | src/transport.rs:82-90 | at the head of a stream of legal frames decode finds the first and leaves the rest |
| `Replication.FetchComponent` | src/node.rs:1234-1316 | against any peer at most stored_size + 1 fetches, never past the declared size, success only with exactly that many bytes hashing as declared; an honest peer's file is copied |
| `Replication.Replicate` | src/node.rs:1200-1330 | computes the staged files, sidecars included, or nothing; with names that keep out of each other's way every component is as declared |
| `Replication.HonestCopy` | src/node.rs:1213-1330 | with such names an unchanged replica at honest peers is copied byte for byte |
| `Replication.CopiesAreIntactExactly` | src/node.rs:1317-1325 | for safe, distinct names: over all sizes, hashes, peers and hash functions a successful copy leaves every component as declared exactly when none is named like a sidecar of a later one |
| `Replication.SidecarReplacesComponent` | src/node.rs:1317-1325 | for the components a.sha256 and a the copy succeeds and the first is replaced by the sidecar of the second |
| `Replication.SidecarsAreWritten` | src/node.rs:1317-1330 | a successful copy leaves, beside each component whose sidecars no later one is named like, both checksums of the file as fetched, and its declared content hash |
| `IncrementalChain.ValidateChain` | src/lineage.rs:60-107 | terminates and accepts exactly the finite, repetition-free chains within the depth limit over present, restorable parents; every error names what stops the walk |
| `IncrementalChain.AncestorPath` | src/lineage.rs:110-134 | terminates; for an incremental leaf with a valid chain the result is that chain without the leaf; every error names what stops the walk |
| `IncrementalChain.ChainIsUnique` | src/lineage.rs:60-134 | a leaf has at most one such chain |

## Left out

- Sockets, threads, timeouts, server shutdown and connection limits; only the bytes a connection delivers are modelled.
- SQLite, its row mappers and JSON columns: tables are maps and sets with the schema's uniqueness constraints.
- The nodes table: registration, boot identity and heartbeat times; which node is active is not restricted, and the stale sweep is modelled for one node that has gone stale.
- Policies, roles, audit records, statistics, consistency and resumability derivation, and compatibility verdicts.
- Checkpoint columns no modelled decision reads (creation and seal times, runtime descriptors, metadata, retirement eligibility); the manifest is represented by its digest.
- The order in which attempts_in_state returns attempts: the model allows any order.
- Store helpers the coordinator does not call (workload_update, workload_advance, checkpoint_set_superseded, checkpoint_set_supersedes, checkpoint_remove_location, node_delete).
- Node-side orders of run_recovery after reconciliation (resume, cleanup of staging and of rejected checkpoints), apart from the handing out of grants.
- LocalStorage as directories: a node's committed directory either exists or does not, and promotion and deletion change that at once.
- Node-side restore bookkeeping and the attached map of node.rs beyond the grants they hold.
- The other capture providers, compression, manifest sealing and parsing, forks beyond their workload and lineage rows.
- Capture of a single-file source and of several sources in one request; file names that contain a backslash.
- Symbolic links, special files and concurrent writers below a restore root; leftover temporary journal files.
- Coordinator.SweepStaleNode: runs as one block; in the program listing the rows and bumping each are separate store calls, and a restore commit in between makes the ignored bump fail, so the node keeps that claim. The state machine has the bump as an event with the epoch that was read.
- Coordinator.FenceWorkload: likewise the race error between reading the epoch and bumping it cannot arise in the block.
- Promotion.PersistedCaptureSurvives: one capture, recovered at once and without failing calls; InterruptedRecovery.PersistedCaptureSurvivesExactly has the rest.
- Promotion.AbortedCopyIsPublished: a crash right after the node has obeyed; Directories.PublishedWithoutDirectoryExactly has every step.
- Recovery.Reconcile: does not mark stale nodes, because the nodes table is not modelled.
- Replication.Replicate: the manifest, its digest and integrity/root, written before the components, are not in the staged map.
- Filesystem.FilesystemProvider.CleanupRestore: with journals of other attempts in the reserved directory a root made by the restore stays, as in the program.
