# Trusted Computations Platform: verified models

A Dafny model of the parts of the platform whose correctness spans whole runs, with proofs.
`dafny verify dfyconfig.toml` checks all of it.

| files | models |
|---|---|
| `TabletStore` | tables of tablets on a hash ring; requests that check and update several tablets, all or none; snapshots |
| `Coordinator`, `Serializability`, `SerializableRuns`, `CleanRuns`, `BadRuns` | optimistic transactions over the tablet store, and why they are serializable |
| `Snapshot`, `SnapshotTransfer`, `SnapshotDiscipline`, `SnapshotMixup`, `SnapshotReports` | the windowed chunk protocol that carries a snapshot to a replica |
| `Storage`, `Replication`, `Driver`, `Counter`, `StoreReplica` | the compacting log store, the replica driver on top of it, and two replicated actors |
| `Budget`, `BudgetTracking`, `Ledger`, `LedgerReplicas`, `LedgerReleases` | privacy budgets, their accounting per key, the ledger service, and the ledger as several replicas hold it |
| `Handshake`, `Communication`, `SecureChannel`, `TwoParty` | handshake sessions and the secure channel between replicas |
| `Wrappers`, `Paths` | options, results, and steps taken one after the other |

## Main results

- **Serializability** (`SerializableRuns.RunsAreSerializable`). However any number of coordinators
  interleave with one store, the store goes from its first state to its present one by committing
  requests that were sent, and a request with an update commits at most once (`CommitsOnce`). Nothing
  is asked of the run. Each commit executes its whole transaction atomically on the contents its
  predecessor left, if and only if the calls of the transaction agree on the tablets they share and
  were shown contents that had been committed. `BadRuns.LostUpdate` and `BadRuns.DirtyRead` are runs
  from the start that fail the one or the other. `RefreshIsCommittedIffClean` says which responses put
  uncommitted metadata into the cache; while none of those was processed, nor any to a request whose
  calls disagree, a commit is atomic if and only if its own calls agree
  (`CleanRuns.CleanRunsAreAtomic`).
- **Ring lookup** (`TabletStore.FindTablets`). The listing is exactly the owners of all hashes of a
  circular range, once each and clockwise; equal ends mean the whole ring.
- **Snapshot transfer** (`SnapshotTransfer.FinishedArrivesIff`, `ProducedIsAssembled`). Nothing is
  asked of the run: for every size, chunk size, window and interleaving, a transfer reported as
  finished was accepted in full, and its snapshot was handed on, byte for byte, if and only if some
  session that completed was opened with its metadata and size and holds at every index a chunk of a
  transfer with the same part there. The receiver does not compare snapshot ids, so a finished
  transfer need not arrive: in `SnapshotMixup.MixedTransfers` a mixture of two transfers is handed on
  in place of the finished one, and in `SnapshotMixup.OvertakenTransfer` the last chunk of a later
  transfer completes an earlier one and the later is reported as finished without ever being handed
  on. If every chunk accepted is of the session's own transfer, all that finishes arrives and all
  that is handed on was started (`SnapshotDiscipline.FinishedTransfersArrive`, `ProducedWasStarted`).
- **Replication** (`Replication.ReplicasFollowTheLog`, `Driver.ReplicaDriver.ProcessStateMachine`).
  Every replica has, at all times, the members and the actor state the agreed log gives its applied
  index, whether it replayed or restored. A driver fails exactly when the log itself does, or when a
  snapshot is wanted that the actor cannot save. The counter, which merges snapshots instead of
  replacing its state, and the tablet store, which may start with different tablets, are both shown
  to catch up.
- **Log store** (`Storage.StoreFollowsLog`, `Storage.WantedSnapshotSucceedsIff`). The compacted log
  refines one that is never compacted. A snapshot that is wanted can be taken exactly past the one
  there is, or right at it while its entry is still held; where a driver is it always can
  (`WantedSnapshotSucceeds`).
- **Budgets** (`LedgerReleases.ReleasesStayWithinBudget`, `Ledger.GrantsStayWithinBudget`). Whatever
  commands, events, revocations, deletions and reloads there are, no limited transform and no limited
  shared budget is used beyond its limit under a key. This holds of all replicas together: whoever
  led, however far its clock was ahead of the others and whatever snapshots were passed on, all that
  was ever released under a created key is within budget, and no event is answered twice. An access
  that was allowed can fail to be charged, exactly when a limited budget is listed more often than it
  has accesses left (`Budget.ChargeIffAllowed`, `Budget.ListedTwice`).
- **Secure channel** (`SecureChannel.NothingIsLost`, `TwoParty.EverythingArrivesInOrder`). Against
  any peer, across failures and resets, nothing handed in is lost, repeated or reordered if and only
  if every opening message could be produced and every payload that left could be encrypted, and
  payloads leave only after a handshake in the right order. Between two replicas, either of which may
  open, what arrives is always what was handed in, in order. If only one of them opens, neither
  fails, four handshake messages are exchanged, and from every state everything can still arrive
  (`TwoParty.EverythingCanArrive`); if both open, both have failed once what they sent was delivered
  (`TwoParty.NeitherFailsIff`, `TwoParty.BothFail`).

Where the code falls short of a property, one lemma gives a case in which it does, and another says
for all cases exactly when it holds:

| fails in | holds exactly when |
|---|---|
| `BadRuns.LostUpdate`, `BadRuns.DirtyRead` | `Serializability.AcceptedIsAtomic`, over runs `SerializableRuns.RunsAreSerializable` |
| `SnapshotMixup.MixedTransfers`, `SnapshotMixup.OvertakenTransfer` | `SnapshotTransfer.FinishedArrivesIff`; for the session's bytes alone and each chunk accepted, `SnapshotDiscipline.AcceptingKeepsRightIff` |
| `Budget.ListedTwice` | `Budget.ChargeIffAllowed` |
| `Ledger.ExpiredKeyIsHeld` | `Ledger.LiveStepIff`, for each step |
| `Storage.WantedSnapshotCanBeOutOfDate` | `Storage.WantedSnapshotSucceedsIff` |
| `Handshake.RecipientAnswersUnasked` | `Handshake.RecipientIsAskedIff` |
| `TwoParty.BothFail` | `TwoParty.NeitherFailsIff` |

## How the model is built

State that the program updates in place is a class with the same fields. Its methods are proved
against functions on values, and whole runs are sequences of such values, so lemmas about runs are
about what the methods do. Panics are `requires` clauses; error returns are results. Protobuf
encoding is taken to round-trip, so messages are datatypes, and bytes that do not decode are `None`.
Cryptography, attestation, hashing and the Raft library are contracts: hashes name one policy or one
blob, outcomes of library calls are parameters, and `Driver.ReadyOk` says what Raft hands over.
Integers are unbounded unless a range is stated; progress, a floating-point quotient in the program, is
a fraction compared by cross-multiplication.

## Model

| member | source | states |
|---|---|---|
| `TabletStore.FindTablets` | apps/tablet_store/service/src/actor.rs:88-136 | the result lists, without duplicates and clockwise from `from`, exactly the owners of the hashes in the circular range, for the empty table, both wraps and equal ends too |
| `TabletStore.ListingUnique` | apps/tablet_store/service/src/actor.rs:88-136 | only one listing has that property, so the contract of the lookup determines its result |
| `TabletStore.ListInterval` | apps/tablet_store/service/src/actor.rs:105-133 | one interval adds its owners, the tablet past its end or the first of the ring included, to those already seen |
| `TabletStore.OwnersUpTo` | apps/tablet_store/service/src/actor.rs:108-120 | the owners of an interval that ends at or below a tablet are the tablets up to that one |
| `TabletStore.OwnersPastEnd` | apps/tablet_store/service/src/actor.rs:108-132 | otherwise they are all tablets from its start on and the first of the ring |
| `TabletStore.OwnersOfStraightRange` | apps/tablet_store/service/src/actor.rs:94-103 | a range that does not wrap has the owners of one interval |
| `TabletStore.OwnersOfWrappedRange` | apps/tablet_store/service/src/actor.rs:94-103 | a range that wraps, or has equal ends, has the owners of two intervals |
| `TabletStore.CommitOpsMeaning` | apps/tablet_store/service/src/actor.rs:191-213 | after committing a request every tablet holds its last update, or what it held before |
| `TabletStore.RequestEffect` | apps/tablet_store/service/src/actor.rs:296-333 | a failed request changes nothing; a successful one raises each updated tablet's version by exactly one however often it is named, and leaves ids and all other tablets alone |
| `TabletStore.RunKeepsTablets` | apps/tablet_store/service/src/actor.rs:172-213 | in every run tablets, and so the owner of every hash, stay the same and versions only grow |
| `TabletStore.AtMostOneCommit` | apps/tablet_store/service/src/actor.rs:172-213 | at most one request of a run commits a given version of a tablet |
| `TabletStore.TabletStoreActor.constructor` | apps/tablet_store/service/src/actor.rs:360-375 | every configured table starts with its configured tablets at version zero |
| `TabletStore.TabletStoreActor.PrepareTabletOp` | apps/tablet_store/service/src/actor.rs:138-189 | an op succeeds exactly when it holds of the store; otherwise the answer is invalid, or reports the metadata there is |
| `TabletStore.TabletStoreActor.ApplyTabletsRequest` | apps/tablet_store/service/src/actor.rs:296-333 | every op is answered against the state before the request, which succeeds exactly when all hold, and then all or nothing is committed |
| `TabletStore.ListingIsOrdered` | apps/tablet_store/service/src/actor.rs:75-86 | a saved table is strictly ordered by tablet id |
| `TabletStore.ListingMembers` | apps/tablet_store/service/src/actor.rs:75-86 | a saved table lists exactly the table's tablets |
| `TabletStore.SaveThenLoad` | apps/tablet_store/service/src/actor.rs:379-406 | loading a saved store gives it back exactly where the same tables are configured, whatever tablets they held |
| `TabletStore.SaveTable` | apps/tablet_store/service/src/actor.rs:75-86 | the loop produces that listing |
| `TabletStore.LoadTable` | apps/tablet_store/service/src/actor.rs:68-73 | the loop starts from an empty table and files every tablet under its id |
| `TabletStore.TabletStoreActor.SaveSnapshot` | apps/tablet_store/service/src/actor.rs:379-389 | every table is saved once |
| `TabletStore.TabletStoreActor.LoadSnapshot` | apps/tablet_store/service/src/actor.rs:391-406 | fails exactly when a table is not configured; otherwise replaces the named tables; never adds or removes a table |
| `Coordinator.TabletTransactionCoordinator.constructor` | apps/tablet_cache/service/src/transaction/coordinator.rs:126-135 | a coordinator starts with no transaction and no message |
| `Coordinator.TabletTransactionCoordinator.CreateTransaction` | apps/tablet_cache/service/src/transaction/coordinator.rs:210-225 | the new state, with a fresh transaction in preparation |
| `Coordinator.TabletTransactionCoordinator.ProcessTransaction` | apps/tablet_cache/service/src/transaction/coordinator.rs:227-243 | the new state, with one more process in the transaction |
| `Coordinator.TabletTransactionCoordinator.HasPendingProcess` | apps/tablet_cache/service/src/transaction/coordinator.rs:245-258 | true exactly when some process of a preparing transaction is not done |
| `Coordinator.TabletTransactionCoordinator.MakeProgress` | apps/tablet_cache/service/src/transaction/coordinator.rs:158-174 | every process of every preparing transaction moves one step, and nothing else changes |
| `Coordinator.TabletTransactionCoordinator.AdvanceProcesses` | apps/tablet_cache/service/src/transaction/coordinator.rs:367-486 | the loop moves each process by what resolving, loading, handling and storing did |
| `Coordinator.TabletTransactionCoordinator.CompletePreparing` | apps/tablet_cache/service/src/transaction/coordinator.rs:505-522 | the ops of all processes in order, or none if one failed |
| `Coordinator.TabletTransactionCoordinator.CommitTransaction` | apps/tablet_cache/service/src/transaction/coordinator.rs:260-294 | a preparing transaction none of whose processes is active, which a failed one would still be, sends one request with the ops of all its slots, each once, and awaits the answer under a fresh correlation |
| `Coordinator.TabletTransactionCoordinator.AbortTransaction` | apps/tablet_cache/service/src/transaction/coordinator.rs:296-300 | the new state, with the transaction gone |
| `Coordinator.TabletTransactionCoordinator.CheckTransactionResult` | apps/tablet_cache/service/src/transaction/coordinator.rs:302-327 | the outcome of a finished transaction, handed out once |
| `Coordinator.TabletTransactionCoordinator.TakeOutMessages` | apps/tablet_cache/service/src/transaction/coordinator.rs:206-208 | every message is taken out once |
| `Coordinator.TabletTransactionCoordinator.CompleteCommitting` | apps/tablet_cache/service/src/transaction/coordinator.rs:535-597 | success exactly when the store said so, with the refreshes the cache is told of |
| `Coordinator.TabletTransactionCoordinator.ProcessResponse` | apps/tablet_cache/service/src/transaction/coordinator.rs:176-204 | the new state after an answer, which is matched to its transaction by correlation |
| `Serializability.AdvanceKeepsOk` | apps/tablet_cache/service/src/transaction/coordinator.rs:367-486 | through every step, whatever versions the metadata cache tells it of, a process names only tablets the store has, and once handled holds exactly what its handler read, and wrote as the next version |
| `Serializability.CommitIsOk` | apps/tablet_cache/service/src/transaction/coordinator.rs:505-522 | the ops of a committed transaction say exactly what its handlers read and wrote |
| `Serializability.CurrentIsRecorded` | apps/tablet_store/service/src/actor.rs:138-189 | a version determines the contents for all history: one that is current is what the store holds |
| `Serializability.SharedSlots` | apps/tablet_cache/service/src/transaction/coordinator.rs:601-633 | no tablet is in two slots of one process request |
| `Serializability.AcceptedIsAtomic` | apps/tablet_cache/service/src/transaction/coordinator.rs:636-665 | a request the store accepts is an atomic execution of its handlers if and only if they agree on the tablets they share and every slot was shown metadata committed at some time |
| `Serializability.AtomicIff` | apps/tablet_store/service/src/actor.rs:172-213 | for any accepted request, without a history: atomic if and only if the handlers agree and every slot was shown what its tablet holds now |
| `Serializability.UpdatesAreCommitted` | apps/tablet_store/service/src/actor.rs:191-213 | an accepted request leaves every update it made in the store |
| `SerializableRuns.AwaitedRequest` | apps/tablet_cache/service/src/transaction/coordinator.rs:137-150 | an awaited answer belongs to the transaction and the ops of the request with its correlation |
| `SerializableRuns.ResponseNeverPanics` | apps/tablet_cache/service/src/transaction/coordinator.rs:535-597 | the results in an answer of the store always fit the ops they are matched with |
| `SerializableRuns.ProgressNeverPanics` | apps/tablet_cache/service/src/transaction/coordinator.rs:367-486 | every key the data cache is asked for is one of the process's tablets, so an answer that keeps the cache's contract never panics |
| `SerializableRuns.RefreshIsCommittedIffClean` | apps/tablet_cache/service/src/transaction/coordinator.rs:583-589 | a response refreshes the metadata cache only with committed metadata if and only if it is not a failure that prepared an update |
| `SerializableRuns.InvIsInductive` | apps/tablet_cache/service/src/transaction/coordinator.rs:158-327 | every step of every coordinator, the store and the network keeps the invariant behind serializability, conflict answers with prepared updates included |
| `SerializableRuns.RunsAreSerializable` | apps/tablet_cache/service/src/transaction/coordinator.rs:367-523 | in every run the store's state is the result of committing sent requests one after the other, each an atomic execution of its transaction if and only if its handlers agree and were shown committed contents, and every transaction that reports success is among them |
| `SerializableRuns.CommitsOnce` | apps/tablet_store/service/src/actor.rs:172-213 | in every run a request with an update is committed at most once, however often it is delivered |
| `CleanRuns.CleanRunsAreAtomic` | apps/tablet_cache/service/src/transaction/coordinator.rs:535-597 | in every run in which all responses processed so far were no failures that prepared an update, and of requests whose calls agree, each commit so far is atomic if and only if its own calls agree |
| `BadRuns.LostUpdate` | apps/tablet_cache/service/src/transaction/coordinator.rs:636-665 | a run from the start: two process requests of one transaction write one tablet, both read what was committed and both are prepared, the transaction commits, and not atomically: one write is lost |
| `BadRuns.DirtyRead` | apps/tablet_cache/service/src/transaction/coordinator.rs:583-589 | a run from the start with three commits: a failed request puts a version in the cache that another request then commits with other contents, and a transaction that read the first ones commits, with calls that agree and not atomically |
| `Snapshot.ConcatOfSplit` | runtime/src/snapshot.rs:398-454 | cutting data into chunks and joining them gives the data back |
| `Snapshot.SplitCount` | runtime/src/snapshot.rs:339-345 | the count the code computes is the number of chunks |
| `Snapshot.SplitAt` | runtime/src/snapshot.rs:410-416 | slicing at multiples of the chunk size stays within the data and yields the chunks |
| `Snapshot.SplitLength` | runtime/src/snapshot.rs:410-416 | every chunk is full but the last |
| `Snapshot.CountsAgree` | runtime/src/snapshot.rs:738-760 | from the size and the first chunk the receiver computes the sender's count and every chunk's length |
| `Snapshot.FinishMeansAll` | runtime/src/snapshot.rs:511-524 | a transfer that may finish had every index acknowledged, and nothing is pending |
| `Snapshot.DeliveredOk` | runtime/src/snapshot.rs:456-509 | a delivery acknowledges at most the index it was sent for, and none twice |
| `Snapshot.SelectionMeaning` | runtime/src/snapshot.rs:617-637 | the receiver chosen has chunks left and the least progress; none is chosen exactly when none has chunks left |
| `Snapshot.SnapshotSender.constructor` | runtime/src/snapshot.rs:543-568 | a sender starts without transfers |
| `Snapshot.SnapshotSender.Start` | runtime/src/snapshot.rs:591-611 | the new state, in which a transfer to the same receiver is replaced under a new snapshot id |
| `Snapshot.SnapshotSender.SelectReceiver` | runtime/src/snapshot.rs:617-626 | the loop finds a receiver with the least progress |
| `Snapshot.SnapshotSender.NextRequest` | runtime/src/snapshot.rs:613-654 | a request goes out exactly when some transfer has chunks left and the window has room, and the total pending stays within the window |
| `Snapshot.SnapshotSender.TakeChunk` | runtime/src/snapshot.rs:398-454 | the next chunk, with a header exactly for the first, becomes pending under a fresh delivery id |
| `Snapshot.SnapshotSender.DrainRequests` | runtime/src/driver.rs:1027-1029 | asking for requests until there is none terminates |
| `Snapshot.SnapshotSender.ProcessResponse` | runtime/src/snapshot.rs:656-669 | the new state after an answer; answers nobody waits for change nothing |
| `Snapshot.SnapshotSender.Deliver` | runtime/src/snapshot.rs:456-509 | an accepted chunk is acknowledged, a rejected or failed one fails the transfer |
| `Snapshot.SnapshotSender.TryComplete` | runtime/src/snapshot.rs:704-724 | a transfer with an outcome is reported and dropped, if there is one |
| `Snapshot.SnapshotSender.Reset` | runtime/src/snapshot.rs:574-587 | every transfer is cancelled, and ids only move forward |
| `Snapshot.SnapshotSender.ProcessUnexpectedRequest` | runtime/src/snapshot.rs:671-702 | a request that reaches a sender is turned down under its own delivery id |
| `Snapshot.SnapshotReceiver.ProcessRequest` | runtime/src/snapshot.rs:845-929 | the new session and answer: headers open a session, chunks of the session's sender and in range are accepted, others rejected |
| `Snapshot.SnapshotReceiver.TryComplete` | runtime/src/snapshot.rs:779-808 | with as many chunks as the count none is missing, and they are joined in order |
| `Snapshot.HeaderReceiverOk` | runtime/src/snapshot.rs:738-760 | a header the sender makes opens a well-formed session, in which no subtraction underflows |
| `Snapshot.SnapshotProcessor.constructor` | runtime/src/snapshot.rs:241-266 | a replica starts as receiver |
| `Snapshot.SnapshotProcessor.ProcessClusterChange` | runtime/src/snapshot.rs:268-319 | a replica with a nonzero id is sender exactly when it is the last known leader, and the role it leaves holds no transfer state |
| `SnapshotTransfer.AssembledIsConcat` | runtime/src/snapshot.rs:779-808 | assembling the chunks of a snapshot gives its data |
| `SnapshotTransfer.InvIsInductive` | runtime/src/snapshot.rs:398-509 | every step of sender, receiver and network, stale chunks accepted in another transfer's session included, keeps the invariant behind the transfer, in which every chunk a session holds is the part of the transfer it was sent in |
| `SnapshotTransfer.AssemblyIsRightIff` | runtime/src/snapshot.rs:779-808 | for any chunks of the right lengths, assembly yields a snapshot's data if and only if every chunk is that snapshot's part |
| `SnapshotTransfer.HandsOnIff` | runtime/src/snapshot.rs:779-808 | a session that completed hands on a started snapshot if and only if it was opened with its metadata and size and the transfer each of its chunks was sent in has the same part there |
| `SnapshotTransfer.FinishedArrivesIff` | runtime/src/snapshot.rs:762-808 | in every run a transfer reported as finished had each of its chunks accepted, and was handed on by the receiver with exactly its data and metadata if and only if some session that completed meets that condition |
| `SnapshotTransfer.ProducedIsAssembled` | runtime/src/snapshot.rs:779-808 | in every run whatever the receiver hands on as the sender's has the metadata of a transfer the sender started and is joined from parts of such transfers, each at its index |
| `SnapshotDiscipline.FinishedTransfersArrive` | runtime/src/snapshot.rs:762-808 | in every run in which chunks are accepted only in their own transfer's session, a transfer reported as finished was handed on with exactly its data and metadata |
| `SnapshotDiscipline.ProducedWasStarted` | runtime/src/snapshot.rs:779-808 | in those runs whatever the receiver hands on as the sender's is a snapshot the sender started, data and metadata |
| `SnapshotDiscipline.AcceptingKeepsRightIff` | runtime/src/snapshot.rs:762-777 | in every state of every run, a chunk accepted into a session that holds only parts of its snapshot leaves it so if and only if the chunk is of that transfer, or of one with the same part at its index |
| `SnapshotMixup.MixedTransfers` | runtime/src/snapshot.rs:762-777 | a run from the start, with requests only the sender made: a chunk of an earlier transfer is accepted in a later one, which is reported as finished while a mixture is handed on |
| `SnapshotMixup.OvertakenTransfer` | runtime/src/snapshot.rs:762-777 | a run from the start in which only a chunk with the same part is accepted in another transfer's session: the earlier transfer is handed on, and the later is reported as finished and never handed on |
| `SnapshotReports.EveryTransferIsAccountedFor` | runtime/src/snapshot.rs:704-724 | in every run each started transfer was reported exactly once, or overridden by a newer start, or is live |
| `Storage.AppendRefines` | runtime/src/storage.rs:99-133 | appending to the compacted log appends to the full one if and only if the entry the snapshot was taken at keeps its term |
| `Storage.CompactRefines` | runtime/src/storage.rs:135-157 | compacting changes nothing at the indices that are left |
| `Storage.CreateRefines` | runtime/src/storage.rs:178-213 | creating a snapshot keeps the log and its last index, and does not move the snapshot back |
| `Storage.ApplyRefines` | runtime/src/storage.rs:159-176 | a received snapshot replaces the log by one that starts after it |
| `Storage.WantedSnapshotSucceedsIff` | runtime/src/storage.rs:178-256 | a wanted snapshot up to the last index can be taken if and only if it is past the one there is, or at it with that entry still held; once taken none is wanted there |
| `Storage.WantedSnapshotSucceeds` | runtime/src/storage.rs:178-256 | whenever a snapshot is wanted where the driver is, creating it is not out of date, and none is wanted there afterwards |
| `Storage.WantedSnapshotCanBeOutOfDate` | runtime/src/storage.rs:244-256 | a run of two steps from any empty store to one where a wanted snapshot is out of date |
| `Storage.StepRefines` | runtime/src/storage.rs:99-256 | every operation keeps the refinement, and the snapshot does not go back |
| `Storage.StoreFollowsLog` | runtime/src/storage.rs:81-256 | in every run entries are consecutive from the snapshot's index or the one after, equal the uncompacted log there, and no pending request is satisfied by the snapshot |
| `Storage.SnapshotNeverGoesBack` | runtime/src/storage.rs:159-213 | in every run the snapshot index never decreases |
| `Storage.MemoryStorage.constructor` | runtime/src/storage.rs:55-67 | an empty log after index zero, without members |
| `Storage.MemoryStorage.AppendEntries` | runtime/src/storage.rs:99-133 | the log becomes the truncated and extended one, and when the store still represents it |
| `Storage.MemoryStorage.ApplySnapshot` | runtime/src/storage.rs:159-176 | out of date exactly when older than the first index; otherwise log, commit index, term, snapshot and requests are replaced |
| `Storage.MemoryStorage.CreateSnapshot` | runtime/src/storage.rs:178-213 | out of date exactly when below the first index; otherwise the snapshot moves there and the log is kept |
| `Storage.MemoryStorage.SetSnapshot` | runtime/src/storage.rs:232-242 | exactly the requests the snapshot satisfies are forgotten |
| `Storage.MemoryStorage.TrySatisfyRequest` | runtime/src/storage.rs:215-230 | the snapshot if it satisfies the request, which is remembered otherwise |
| `Storage.MemoryStorage.ShouldTakeSnapshot` | runtime/src/storage.rs:244-256 | true exactly when the snapshot is too old or a pending request would be satisfied |
| `Storage.MemoryStorage.EntryTerm` | runtime/src/storage.rs:304-321 | the uncompacted log's term at every index from the snapshot's on; compacted below, unavailable above |
| `Storage.MemoryStorage.Entries` | runtime/src/storage.rs:265-302 | the asked stretch of the uncompacted log, cut to what the size limit admits |
| `Replication.SortSorts` | runtime/src/driver.rs:397 | sorting by index permutes a batch into ascending order |
| `Replication.SortedIsUnique` | runtime/src/driver.rs:397 | with distinct indices only one such order exists |
| `Replication.BatchFollows` | runtime/src/driver.rs:392-481 | in whatever order a batch of the next entries comes, applying it ends where the log says, and fails exactly when the log's meaning does |
| `Replication.RestoreFollows` | runtime/src/driver.rs:506-543 | restoring a snapshot taken of the same log, from an earlier state, ends where the log says |
| `Replication.InvIsInductive` | runtime/src/driver.rs:392-569 | commits, joins, batches, snapshots and restores keep all replicas and snapshots true to the log |
| `Replication.NoReplicaIsLost` | runtime/src/driver.rs:392-569 | while the log has a meaning a step loses a replica if and only if the replica's actor cannot save a snapshot |
| `Replication.ReplicasFollowTheLog` | runtime/src/driver.rs:392-569 | in every run each started replica always has the members and actor state the final log gives its applied index |
| `Replication.SameIndexSameState` | runtime/src/driver.rs:392-569 | replicas ever at the same index had the same members and state there |
| `Driver.CatchingUpLoads` | runtime/src/driver.rs:533-538 | an actor that catches up on the log can load every snapshot of it that is ahead |
| `Driver.TurnFollows` | runtime/src/driver.rs:571-628 | a turn ends past the store's snapshot where the log says, or fails because the log does |
| `Driver.ReplicaDriver.constructor` | runtime/src/driver.rs:229-291 | the leader starts at index one in step with the snapshot its store was given, others at index zero |
| `Driver.ReplicaDriver.ApplyCommittedEntries` | runtime/src/driver.rs:392-481 | the loop applies the sorted batch, for any batch |
| `Driver.ReplicaDriver.RestoreSnapshot` | runtime/src/driver.rs:506-543 | an empty snapshot changes nothing, an old one is an error, others replace store, members, actor state and applied index |
| `Driver.ReplicaDriver.MaybeCreateSnapshot` | runtime/src/driver.rs:545-569 | in step it fails exactly when a snapshot is wanted that the actor cannot save; otherwise it takes a snapshot of the present state exactly when one is wanted, and leaves none wanted |
| `Driver.ReplicaDriver.AdvanceRaft` | runtime/src/driver.rs:571-628 | what a turn makes of the replica and its store |
| `Driver.ReplicaDriver.ProcessStateMachine` | runtime/src/driver.rs:1163-1176 | a turn brings the replica to the end of what it was handed with its store in step; it fails exactly when the log does, or when a snapshot is wanted at the end that the actor cannot save |
| `Counter.LoadIsExact` | apps/atomic_counter/service/src/actor.rs:145-162 | loading, a merge, restores the saved counters if and only if no other counter was there |
| `Counter.LastChangeHolds` | apps/atomic_counter/service/src/actor.rs:59-99 | a counter always holds what the last successful swap wrote, or its first value |
| `Counter.SuccessSeesLastSuccess` | apps/atomic_counter/service/src/actor.rs:59-99 | each successful swap expected exactly what the one before it wrote |
| `Counter.CountersAreKept` | apps/atomic_counter/service/src/actor.rs:59-99 | along a log counters are never removed |
| `Counter.CountersCatchUp` | apps/atomic_counter/service/src/actor.rs:125-162 | a snapshot of a later prefix, loaded at an earlier one, gives exactly the later state |
| `Counter.CounterActor.constructor` | apps/atomic_counter/service/src/actor.rs:103-121 | every configured counter has its value and no payload |
| `Counter.CounterActor.ApplyCompareAndSwap` | apps/atomic_counter/service/src/actor.rs:59-99 | the counter exists afterwards and changes exactly on a match; the response tells which, and the old value |
| `Counter.CounterActor.SaveSnapshot` | apps/atomic_counter/service/src/actor.rs:125-143 | every counter is saved |
| `Counter.CounterActor.LoadSnapshot` | apps/atomic_counter/service/src/actor.rs:145-162 | the saved counters are merged into those there |
| `StoreReplica.StoreCatchesUp` | apps/tablet_store/service/src/actor.rs:379-406 | along every log, a replica of the tablet store catches up from a snapshot whatever tablets it started with |
| `Budget.ChargeSharedIff` | apps/ledger/service/src/budget.rs:113-132 | charging shared budgets succeeds if and only if each lasts for as many accesses as it is listed |
| `Budget.ChargeSharedEffect` | apps/ledger/service/src/budget.rs:113-151 | success takes exactly that many from each limited one, failure never adds |
| `Budget.ChargeIffAllowed` | apps/ledger/service/src/budget.rs:65-132 | a charge succeeds if and only if the access is allowed and no limited budget is listed more often than it has accesses left |
| `Budget.ChargeEffect` | apps/ledger/service/src/budget.rs:100-151 | a charge never raises a budget, and a successful one takes exactly one of the transform's and the listed number of each shared one |
| `Budget.ListedTwice` | apps/ledger/service/src/budget.rs:65-132 | an allowed access to a budget listed twice is not charged, and the access that was left is gone |
| `Budget.AllowsAccess` | apps/ledger/service/src/budget.rs:65-90 | true exactly when the transform's budget and every listed one have something left |
| `Budget.RecordAccess` | apps/ledger/service/src/budget.rs:100-132 | the loop's result and error, with what was charged before a failure kept |
| `BudgetTracking.FindThenCharge` | apps/ledger/service/src/budget.rs:173-243 | a transform just found is charged unless it lists a limited budget too often, or the blob was revoked |
| `BudgetTracking.InvIsInductive` | apps/ledger/service/src/budget.rs:220-327 | charges, revocations and reloads keep granted and left together within every limit |
| `BudgetTracking.GrantsStayWithinBudget` | apps/ledger/service/src/budget.rs:220-327 | in every run grants of a limited transform, and uses of a limited shared budget with every listing counted, stay within the limit |
| `BudgetTracking.NothingIsWasted` | apps/ledger/service/src/budget.rs:37-151 | until a charge of the blob fails or it is revoked, granted and left make up every limit exactly, so each can be used in full |
| `BudgetTracking.RevokedForGood` | apps/ledger/service/src/budget.rs:220-254 | a revoked blob stays so and is never granted again under any policy |
| `BudgetTracking.SaveThenLoad` | apps/ledger/service/src/budget.rs:256-327 | loading what was saved restores all budgets and never meets a duplicate |
| `BudgetTracking.BudgetTracker.constructor` | apps/ledger/service/src/budget.rs:165-167 | nothing charged, nothing revoked |
| `BudgetTracking.BudgetTracker.FindMatchingTransform` | apps/ledger/service/src/budget.rs:173-217 | the first transform that fits and is allowed; otherwise none is, and the error says whether one fitted or the blob was revoked |
| `BudgetTracking.BudgetTracker.UpdateBudget` | apps/ledger/service/src/budget.rs:220-243 | the new budgets and result; a blob not seen before starts with the policy's limits |
| `BudgetTracking.BudgetTracker.ConsumeBudget` | apps/ledger/service/src/budget.rs:246-254 | the blob is revoked and its budgets are dropped under every policy |
| `BudgetTracking.BudgetTracker.SaveSnapshot` | apps/ledger/service/src/budget.rs:256-279 | every policy, blob and revocation is listed once |
| `BudgetTracking.BudgetTracker.LoadSnapshot` | apps/ledger/service/src/budget.rs:281-327 | what was there is discarded; fails exactly on a duplicate |
| `Ledger.FormatTimestamp` | apps/ledger/service/src/ledger.rs:108-126 | succeeds exactly when the seconds fit, and parsing gives the time back |
| `Ledger.SaveThenLoad` | apps/ledger/service/src/ledger.rs:444-507 | loading what was saved restores time, keys and budgets and never meets a duplicate |
| `Ledger.InvIsInductive` | apps/ledger/service/src/ledger.rs:98-567 | every command and event keeps every held key's grants and budgets within the limits |
| `Ledger.GrantsStayWithinBudget` | apps/ledger/service/src/ledger.rs:361-442 | in every run of commands, events, revocations, deletions and reloads, grants under every held key stay within every limit |
| `Ledger.RevokedForGood` | apps/ledger/service/src/ledger.rs:549-567 | a revoked blob is not granted again under its key until the key is created anew |
| `Ledger.TimeNeverGoesBack` | apps/ledger/service/src/ledger.rs:98-105 | in every run of one ledger, which is reloaded only with a snapshot of its present state, time only moves forward |
| `Ledger.LiveStepIff` | apps/ledger/service/src/ledger.rs:214-274 | a step keeps every held key unexpired if and only if a key it creates expires after the ledger's time and after the event's |
| `Ledger.HeldKeysAreLive` | apps/ledger/service/src/ledger.rs:98-105 | if every key created is unexpired then, no expired key is ever held |
| `Ledger.ExpiredKeyIsHeld` | apps/ledger/service/src/ledger.rs:214-274 | a key with no lifetime is created and held although it has expired |
| `Ledger.LedgerService.constructor` | apps/ledger/service/src/ledger.rs:82-95 | time zero and no keys |
| `Ledger.LedgerService.UpdateCurrentTime` | apps/ledger/service/src/ledger.rs:98-105 | time moves forward only, and exactly the keys expired by then go |
| `Ledger.LedgerService.ProduceCreateKeyEvent` | apps/ledger/service/src/ledger.rs:136-212 | only the time changes; exactly when an event is produced and which error otherwise, and that its times parse to now and now plus the lifetime |
| `Ledger.LedgerService.ApplyCreateKeyEvent` | apps/ledger/service/src/ledger.rs:214-274 | a key not held is added without any budget used; a collision or bad key is an error |
| `Ledger.LedgerService.ProduceAuthorizeAccessEvent` | apps/ledger/service/src/ledger.rs:276-359 | only the time changes; when an event is produced, which names the first usable transform of a policy with the header's hash, and the errors otherwise |
| `Ledger.LedgerService.ApplyAuthorizeAccessEvent` | apps/ledger/service/src/ledger.rs:361-442 | rewrapping comes before charging, and the key is handed out exactly when the charge succeeds |
| `Ledger.LedgerService.DeleteKey` | apps/ledger/service/src/ledger.rs:519-539 | exactly that key goes, or an error |
| `Ledger.LedgerService.RevokeAccess` | apps/ledger/service/src/ledger.rs:549-567 | exactly that blob is revoked under that key, or the key is not found |
| `Ledger.LedgerService.SaveSnapshot` | apps/ledger/service/src/ledger.rs:444-459 | fails exactly when a time does not fit a timestamp; otherwise lists every key once |
| `Ledger.LedgerService.LoadSnapshot` | apps/ledger/service/src/ledger.rs:461-507 | replaces everything; fails exactly when something does not parse or is listed twice |
| `LedgerReplicas.InvIsInductive` | apps/ledger/service/src/actor.rs:133-207 | every proposal, command, applied event, saved and installed snapshot keeps each held key at what the log says of the event that created it |
| `LedgerReleases.ReleasesStayWithinBudget` | apps/ledger/service/src/actor.rs:156-164 | in every run of several replicas, with clocks moved by commands to any of them, all that was released under a created key stays within every limited transform and shared budget, and no event is answered twice |
| `LedgerReleases.RevokedEverywhere` | apps/ledger/service/src/actor.rs:181-188 | no replica releases a blob under a key for an event that comes after its revocation |
| `LedgerReleases.HeldKeysAgree` | apps/ledger/service/src/ledger.rs:98-105 | replicas that are equally far and both hold a key that the same event created for them hold it with the same times and budgets, whatever their clocks |
| `LedgerReleases.ClockGoesBackIff` | apps/ledger/service/src/ledger.rs:461-507 | a step moves a replica's clock back if and only if it installs a snapshot there whose time is below the replica's; a key the replica did not hold comes only from such a snapshot or from an event that creates it |
| `Handshake.SessionMovesForward` | runtime/src/handshake.rs:262-381 | a session never goes back, keeps what it goes on to use, and reports an error exactly when it becomes failed |
| `Handshake.RecipientAnswersUnasked` | runtime/src/handshake.rs:590-638 | on its own a recipient session can complete without having been sent a key exchange request |
| `Handshake.RecipientIsAskedIff` | runtime/src/handshake.rs:519-638 | for any calls to a recipient session, the one that completes it takes a message out, and a key exchange request was among the calls before if and only if the last of them processed a message |
| `Handshake.HandshakeSession.constructor` | runtime/src/handshake.rs:154-170 | a session starts unknown with both library objects |
| `Handshake.HandshakeSession.ProcessMessage` | runtime/src/handshake.rs:68-69 | takes the message it waits for, ignores all when over, and fails on any other |
| `Handshake.HandshakeSession.ClientProcess` | runtime/src/handshake.rs:262-333 | the same for the initiator |
| `Handshake.HandshakeSession.HandleAttestResponse` | runtime/src/handshake.rs:201-223 | the attestation is used up unless the message is refused |
| `Handshake.HandshakeSession.HandleHandshakeResponse` | runtime/src/handshake.rs:241-258 | the handshaker is used up unless the message is refused, and its keys are kept |
| `Handshake.HandshakeSession.ServerProcess` | runtime/src/handshake.rs:520-588 | the same for the recipient |
| `Handshake.HandshakeSession.TakeOutMessage` | runtime/src/handshake.rs:72-73 | the message a session has to send, addressed to the peer, and the state it leaves |
| `Handshake.HandshakeSession.ClientTakeOut` | runtime/src/handshake.rs:335-381 | the same for the initiator |
| `Handshake.HandshakeSession.ServerTakeOut` | runtime/src/handshake.rs:590-638 | the same for the recipient |
| `Handshake.HandshakeSession.GetEncryptor` | runtime/src/handshake.rs:387-393 | the derived keys exactly when completed |
| `Communication.SentIsOk` | runtime/src/communication.rs:359-398 | handing in a payload keeps session and encryptor where they are used |
| `Communication.ReceivedIsOk` | runtime/src/communication.rs:400-456 | receiving anything keeps session and encryptor where they are used |
| `Communication.CommunicationState.constructor` | runtime/src/communication.rs:310-319 | no handshake and nothing held |
| `Communication.CommunicationState.Init` | runtime/src/communication.rs:321-332 | possible exactly when no handshake was begun |
| `Communication.CommunicationState.MakeTick` | runtime/src/communication.rs:338-343 | counts ticks since a failure, and only then |
| `Communication.CommunicationState.ResetStateMachine` | runtime/src/communication.rs:346-352 | everything but the payloads held is forgotten |
| `Communication.CommunicationState.ProcessOutMessage` | runtime/src/communication.rs:359-398 | the payload is held in every phase, unless the handshake it opens cannot be opened |
| `Communication.CommunicationState.ProcessHandshake` | runtime/src/communication.rs:411-438 | the session takes the message and answers; completed or failed with it |
| `Communication.CommunicationState.ProcessInMessage` | runtime/src/communication.rs:400-456 | anything but a handshake message fails a handshake, and payloads are decrypted only once completed |
| `Communication.CommunicationState.DecryptMessage` | runtime/src/communication.rs:458-490 | a payload whose contents decrypt, and nothing else, arrives |
| `Communication.CommunicationState.TakeEncryptedMessages` | runtime/src/communication.rs:492-537 | the payloads held that can be encrypted go out in order, and none is held afterwards |
| `Communication.CommunicationState.TakeOutMessages` | runtime/src/communication.rs:539-552 | a pending handshake message goes alone and first, payloads only once completed |
| `Communication.CommunicationModule.Init` | runtime/src/communication.rs:131-137 | id and retry ticks are set |
| `Communication.CommunicationModule.ProcessOutMessage` | runtime/src/communication.rs:139-187 | an error exactly when not initialized or unsupported; otherwise only that peer changes, begun as initiator if it was not |
| `Communication.CommunicationModule.ProcessInMessage` | runtime/src/communication.rs:189-244 | an error exactly when not initialized or unsupported; otherwise only the sender's peer changes, begun as recipient if it was not |
| `Communication.CommunicationModule.ProcessClusterChange` | runtime/src/communication.rs:254-267 | exactly the peers that are no longer members are forgotten, and all if this replica is not |
| `Communication.CommunicationModule.MakeTick` | runtime/src/communication.rs:269-278 | every failed peer counts a tick, and is reset when it failed long enough ago |
| `SecureChannel.EndOkIsInductive` | runtime/src/communication.rs:400-456 | against any peer, how far the session is always matches the handshake messages it took |
| `SecureChannel.ConservedIff` | runtime/src/communication.rs:359-398 | a step keeps what went out plus what is held equal to what was handed in if and only if it does not fail to open a handshake or to encrypt |
| `SecureChannel.NothingIsLost` | runtime/src/communication.rs:269-278 | in every run, across failures, ticks and resets, what went out followed by what is held is what was handed in if and only if no step before failed to open a handshake or to encrypt |
| `SecureChannel.PayloadsLeaveAfterHandshake` | runtime/src/communication.rs:539-552 | against any peer payloads leave only when completed, the initiator having taken both answers, the recipient an attestation request and then a key exchange request |
| `SecureChannel.PayloadsArriveAfterHandshake` | runtime/src/communication.rs:400-456 | the same for payloads that are decrypted |
| `TwoParty.InvIsInductive` | runtime/src/communication.rs:359-456 | every step, with either side free to open at any time, keeps both ends in step through the ten stages of a handshake or, once both opened, on the way to failing |
| `TwoParty.EverythingArrivesInOrder` | runtime/src/communication.rs:359-552 | in every run what arrives on either side is what the other was handed, once and in order, the rest travelling or held; unless both opened, neither fails and the handshake messages sent are the first of the four, and all four once the initiator completed; if both opened, neither completes and nothing arrives |
| `TwoParty.NeitherFailsIff` | runtime/src/communication.rs:411-421 | in every run a side fails only if a side opened after the other had and before hearing from it, and once everything sent was delivered each side has failed if and only if one did |
| `TwoParty.BothFail` | runtime/src/handshake.rs:272-294 | a run of six steps in which both sides open, each hears the other's attestation request while waiting for an answer, and both fail |
| `TwoParty.HandshakeGoesOn` | runtime/src/handshake.rs:262-638 | a handshake that one side opened always has a next step until both ends completed |
| `TwoParty.EverythingCanArrive` | runtime/src/communication.rs:359-552 | from every state of every run there are steps, none of them handing in anything, after which each end has received all the other was handed, or both have failed if both opened |

## Left out

- Raft itself: elections, log matching and message exchange are the library's; `Driver.ReadyOk` and the cluster's steps state what it promises.
- Cryptography, attestation and CWT parsing: their outcomes are parameters; nonce counters of the session encryption are not modelled.
- Protobuf encoding and the messages between host and enclave: encoding is taken to round-trip.
- Handlers of the tablet cache are pure functions of the contents they are shown; the data cache returns the contents a version names.
- Answers the tablet cache makes up for failed remote calls, which carry no result and are dropped before the coordinator.
- The tablet cache's store layer that batches requests: it does not retry failed ones, so it promises no conservation.
- Liveness of transactions: a failed process still counts as active, so a failed transaction may wait for ever.
- Equality of leader and follower ledgers: the leader's clock moves while it produces events, so it may have dropped keys others hold; `LedgerReleases` proves what holds nevertheless.
- Wrap-around of chunk, delivery, tick and version counters: they are unbounded here.
- Coordinator: tablets and processes are values in the transaction that owns them, so aliasing between them is not modelled.
- Ledger.LedgerService: the budget tracker of a key is a value inside the map of keys, taken out and put back around each call.
- Ledger.LedgerService.ProduceCreateKeyEvent: times that do not fit a timestamp are excluded, because signing the public key panics on them.
- Communication.CommunicationModule: peers are values inside the map of peers, and taking out the messages of all peers at once is not modelled.
- Handshake.HandshakeSession: initiator and recipient are one class with a role.
- SnapshotDiscipline.FinishedTransfersArrive: promised for runs in which an accepted chunk is of the session's own transfer, which the receiver does not check; `SnapshotTransfer.FinishedArrivesIff` says what holds of all runs.
- Ledger.TimeNeverGoesBack: a single ledger reloads only a snapshot of its present state; what a snapshot from another replica does to the clock is `LedgerReleases.ClockGoesBackIff`.
- TwoParty.EverythingCanArrive: both sides' ticks and resets after a failure are not steps of the two-party model; `SecureChannel` has them for one side against any peer.
- Replication.ReplicasFollowTheLog: messages an actor sends while applying events, and the owned flag they depend on, are not modelled.
- Storage.MemoryStorage.Entries: the size limit enters as the number of entries it admits, at least one.
- Driver: ephemeral replicas, proposals, leadership reports and the routing of messages, which add no state to the properties above.
