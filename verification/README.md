# Verified models of the mytools services

This project models, in Dafny, the parts of the repository whose correctness spans
several functions or whole runs, and proves what they are for.

* **The outbox of nostr-bridge** (`Nostr`, `Outbox*`, `Dispatcher`, `Deployment`). `Outbox` gives every
  store operation as one atomic step on first-in first-out queues, one per aggregate.
  `OutboxRuns` interleaves producers, the purge command and any number of dispatchers,
  including ones that act on claims they have lost. `OutboxInvariants`, `OutboxSteps` and
  `OutboxTheorems` prove what holds in every reachable state. `OutboxTables` and
  `OutboxStore` are the SQL tables with their sequence numbers, changed in place, and
  every method of the class is proved to implement the step of the same name. `Deployment`
  puts store, producers and dispatchers together: whatever they do to the tables is a run.
* **The live-following replica file** (`ReplicaUpdates`, `ReplicaPoller`, `ReplicaFile`).
  Staging under a SHARED lock against applying at once; polling two levels of
  transaction files; reading a buffer while polls and unlocks happen at every point
  where the mutex is free.
* **Crash-safe paging** (`FeedRecovery`) and **replaceable timestamps** (`Coordinator`,
  `Decimal`), with crashes and failures after any number of durable operations.
* **The relay store** (`Relay`, `RelayTheorems`, `RelayStore`, `Nip98`): what is stored
  after any order and repetition of arrivals, and replay protection over whole runs.
* **Printers that a foreign parser must undo** (`ShellQuote`, `Base64`, `OpTags`), and the
  rendering of Litestream configurations: start scripts and what they do (`StagedRestore`,
  `Scripts`), credentials (`SecretNames`, `Credentials`, `CredentialTheorems`, `BindingOrder`),
  file names (`RenderedFiles`) and the renderer itself (`Renderer`).

`Text`, `Sequences`, `Clock` and `Wrappers` hold string order and sorting, facts about sequences
and totals, whole seconds and `Option`.

Modelling decisions:

* A transaction is one step; a transaction that fails for input or output reasons changes
  nothing, so it is no step at all. Business failures are modelled (`Outcome`, `Result`,
  `Option`).
* Hashes, signatures and JSON are abstract: an event carries whether its id and signature
  check out, one id never names two events, and an operation hash is a function of what the
  event says. A payload is empty, malformed, or an event.
* Times are nanoseconds; whole seconds are rounded down, as `Unix()` does. Counters, row
  ids, page numbers and transaction ids are unbounded integers.
* Claim tokens are non-empty and never drawn twice (`OutboxRuns.Enabled`).
* `nostr.IsOlder`, `Kind.IsReplaceable`, `Kind.IsAddressable`, `Tags.GetD` and
  `nostr.IDFromHex` come from a library that is not part of this model's source; they follow
  NIP-01 (later `created_at` wins, then the lower id) and accept hexadecimal text of either case.
* In the Mastodon recovery an API page is newest first, strictly between the two ids, and has
  no hole down to its `NextMaxID`; new posts get ids above everything shown before.
* A transaction id `0` stands for "none", as in the source. Remote page content is a fixed
  function of the index element.

Results about the code that are not plain "yes":

* An incremental update staged behind a replacement equals applying both at once exactly when
  its pages fit its commit and no page that only the replacement lists falls between the two
  commits (`ReplicaUpdates.StagedBehindReplacement`); `ReplicaUpdates.StagingRevivesStalePage` is
  a pair where a stale page comes back, and `ReplicaPoller.ShrunkPlanRevivesPage` two polls that
  lead to one. Over a whole run the staged file agrees throughout with the eager one exactly
  when every update met that condition as it arrived (`ReplicaUpdates.StagingAgreesExactly`).
* A poll can move a visible page back to an older version: level 1 may hold a page that level 0
  did not bring this time, at a transaction below the tip (`ReplicaPoller.LateCompactionRewinds`).
  `ReplicaPoller.RewindsExactly` says exactly when no page goes back.
* Two events of one address in one reconciliation have the same time, so the lower id wins on the
  relay. `Coordinator.LastEnqueuedExactly` gives the exact condition for a given event to be the
  one an address ends with.
* A database can lose its configuration file to another: a clone `a` and a plain database
  `a-source` both write `restore-a-source.yml` (`RenderedFiles.NamedAfterRole`). For accepted input
  every database keeps its files if and only if no plain database is named after a clone and one
  of its roles (`RenderedFiles.FilesKeptExactly`).
* A relay address whose received winner was deleted does not converge: with the winner first
  and its deletion last, an older event that was never deleted is lost
  (`RelayTheorems.DeletedWinnerLosesTheRest`). Every arrival order ends right if and only if the
  winner is not deleted or everything at the address is (`RelayTheorems.DeletedAddressesConverge`).
* Comparing GCS credentials by name, NUL, key confuses two references if a Secret name holds NUL
  (`CredentialTheorems.NulNamesConfuse`). An accepted input gives every name of a container one
  Secret if and only if service accounts that reach one container have Secret names of equal
  length (`CredentialTheorems.OneNameOneSecretExactly`). Kubernetes names never hold a NUL, and
  then it does (`CredentialTheorems.PlainNamesSuffice`).

## Model

| member | source | states |
|---|---|---|
| `OutboxTheorems.StepKeeps` | cmd/nostr-bridge/store/sqlite.go:218-770 | every step of producers, purge, claims and deliveries keeps the whole invariant |
| `OutboxTheorems.Reachable` | cmd/nostr-bridge/store/sqlite.go:218-770 | the invariant holds after any run from the empty store |
| `OutboxTheorems.RunKeeps` | cmd/nostr-bridge/store/sqlite.go:218-770 | and after any run from any state that satisfies it |
| `OutboxTheorems.RefusedChangesNothing` | cmd/nostr-bridge/store/sqlite.go:218-598 | a refused enqueue, update, delete, batch or purge leaves store and logs as they were |
| `OutboxTheorems.DeliveredInOrder` | cmd/nostr-bridge/store/sqlite.go:50-61 | per aggregate, completed publishes followed by pending ones in sequence order are exactly those enqueued: none lost, duplicated or reordered, recovery included |
| `OutboxTheorems.PublishersAreAllowed` | cmd/nostr-bridge/store/sqlite.go:241-262 | every pending publish belongs to a registered publisher or has an allow-publisher ahead of it, in every reachable state |
| `OutboxTheorems.OnlyHeadsAreClaimed` | cmd/nostr-bridge/store/sqlite.go:608-638 | only the lowest row of an aggregate ever carries a claim token |
| `OutboxTheorems.LostStays` | cmd/nostr-bridge/store/sqlite.go:648-770 | a claim that no row carries any more is carried by none after any step |
| `OutboxTheorems.ReportLosesClaim` | cmd/nostr-bridge/store/sqlite.go:648-759 | a completion, retry or recovery by the holder leaves its claim on no row |
| `OutboxTheorems.ReclaimLosesClaim` | cmd/nostr-bridge/store/sqlite.go:608-638 | claiming a row again takes it from every earlier claim |
| `OutboxTheorems.EndedClaimIsDead` | cmd/nostr-bridge/store/sqlite.go:648-770 | after either, over any run, a report under the ended claim changes nothing |
| `OutboxTheorems.LostClaimIsDead` | cmd/nostr-bridge/store/sqlite.go:648-770 | at any later time a completion, retry or recovery under such a claim changes nothing |
| `OutboxTheorems.MarksStay` | cmd/nostr-bridge/store/sqlite.go:63-72 | a purge mark is never removed or replaced |
| `OutboxTheorems.GoneStays` | cmd/nostr-bridge/store/sqlite.go:724-751 | once rows, registration and mappings of a purged author are gone, no step brings any back |
| `OutboxTheorems.PurgeIsFinal` | cmd/nostr-bridge/store/sqlite.go:521-598 | over any run, a marked aggregate ends with its unallow row or is gone, and gone stays gone |
| `OutboxTheorems.LastUnallowPops` | cmd/nostr-bridge/store/sqlite.go:724-751 | a purged queue becomes empty only by delivering its unallow row |
| `OutboxTheorems.PurgeCompletes` | cmd/nostr-bridge/store/sqlite.go:724-751 | when it does, every publish was delivered, the deletion among them, its e tags name every mapping of the author, and mappings and their operations are gone |
| `OutboxTheorems.BatchRowCount` | cmd/nostr-bridge/store/sqlite.go:306-351 | a batch needs one row per changed event and one per publisher neither registered nor pending |
| `OutboxTheorems.BatchInsertsWhatItCounted` | cmd/nostr-bridge/store/sqlite.go:283-392 | it inserts exactly the counted rows, stays within the limit, or changes nothing |
| `OutboxTheorems.BatchIsRecorded` | cmd/nostr-bridge/store/sqlite.go:322-384 | after a batch every event of it counts as known, whether it was new or not |
| `OutboxTheorems.RepeatedBatchInsertsNothing` | cmd/nostr-bridge/store/sqlite.go:322-339 | the same sources and identities again insert and record nothing, whatever the new events |
| `OutboxTheorems.RecordedAt` | cmd/nostr-bridge/store/sqlite.go:362-380 | a batch records the event and the operation of each of its sources |
| `OutboxTheorems.RecordedElsewhere` | cmd/nostr-bridge/store/sqlite.go:362-380 | and leaves the other sources alone |
| `OutboxTheorems.ProducedTokens` | cmd/nostr-bridge/store/sqlite.go:50-61 | enqueueing puts no token on any row |
| `OutboxTheorems.ClaimTokens` | cmd/nostr-bridge/store/sqlite.go:608-638 | claiming puts its own token on rows and no other |
| `OutboxTheorems.DeliverTokens` | cmd/nostr-bridge/store/sqlite.go:648-770 | completion, retry and recovery put no token on any row |
| `OutboxTheorems.PurgedQueueKept` | cmd/nostr-bridge/store/sqlite.go:63-72 | no producer appends to a purged aggregate |
| `OutboxTheorems.UnheldQueueKept` | cmd/nostr-bridge/store/sqlite.go:761-770 | a delivery report changes only the queue whose head it holds |
| `OutboxSteps.EventKeeps` | cmd/nostr-bridge/store/sqlite.go:218-277 | enqueueing an event keeps the invariant |
| `OutboxSteps.DeleteKeeps` | cmd/nostr-bridge/store/sqlite.go:394-452 | enqueueing a deletion keeps the invariant |
| `OutboxSteps.UpdateKeeps` | cmd/nostr-bridge/store/sqlite.go:454-519 | enqueueing an update keeps the invariant |
| `OutboxSteps.BatchKeeps` | cmd/nostr-bridge/store/sqlite.go:283-392 | a reconciliation batch keeps the invariant |
| `OutboxSteps.PurgeKeeps` | cmd/nostr-bridge/store/sqlite.go:521-598 | enqueueing a purge keeps the invariant |
| `OutboxSteps.ClaimKeeps` | cmd/nostr-bridge/store/sqlite.go:608-638 | claiming the first eligible heads keeps the invariant |
| `OutboxSteps.PopKeeps` | cmd/nostr-bridge/store/sqlite.go:648-679 | completing a row keeps covered publishes, purge states and claims |
| `OutboxSteps.RetryKeeps` | cmd/nostr-bridge/store/sqlite.go:753-759 | retrying keeps them |
| `OutboxSteps.RecoverKeeps` | cmd/nostr-bridge/store/sqlite.go:681-722 | recovery keeps them although it clears the registration |
| `OutboxSteps.PopInOrder` | cmd/nostr-bridge/outbox/dispatcher.go:68-97 | delivering moves the head publish to the completed log and keeps the order |
| `OutboxSteps.RecoverInOrder` | cmd/nostr-bridge/store/sqlite.go:681-722 | recovery publishes the same payloads in the same order |
| `OutboxSteps.PublishAtHead` | cmd/nostr-bridge/store/sqlite.go:608-638 | a publish that can be claimed belongs to a registered publisher |
| `OutboxSteps.HeldHead` | cmd/nostr-bridge/store/sqlite.go:761-770 | a live claim describes the head row as it is now |
| `OutboxTables.NegatingStaysUnique` | cmd/nostr-bridge/store/sqlite.go:701-709 | negating sequence numbers meets no duplicate key, whichever rows it has reached |
| `OutboxTables.ShiftingStaysUnique` | cmd/nostr-bridge/store/sqlite.go:701-709 | neither does shifting them back, one up |
| `OutboxTables.NegateThenShift` | cmd/nostr-bridge/store/sqlc/query.sql.go:493-495 | together they move every later row up by one |
| `OutboxTables.NegateRow` | cmd/nostr-bridge/store/sqlc/query.sql.go:493-495 | one row of the first UPDATE: no duplicate key appears |
| `OutboxTables.NegateLaterRows` | cmd/nostr-bridge/store/sqlc/query.sql.go:493-495 | the first UPDATE row by row in any order, ending in the negated table |
| `OutboxTables.ShiftNegatedRows` | cmd/nostr-bridge/store/sqlc/query.sql.go:835-837 | the second one, ending in the renumbered table |
| `OutboxTables.ShiftRow` | cmd/nostr-bridge/store/sqlc/query.sql.go:835-837 | one row of it: no duplicate key appears |
| `OutboxTables.RecoverRows` | cmd/nostr-bridge/store/sqlite.go:701-717 | the statements of a recovery give the allow in place and the publish in the gap |
| `OutboxTables.RecoveredInRange` | cmd/nostr-bridge/store/sqlite.go:701-717 | after it all sequence numbers lie within 1 and the last one |
| `OutboxTables.RecoveredPending` | cmd/nostr-bridge/store/sqlite.go:681-722 | the queue read in sequence order is allow, publish, and the old tail |
| `OutboxTables.RecoveredStore` | cmd/nostr-bridge/store/sqlite.go:681-722 | table, sequence numbers and queues after a recovery |
| `OutboxTables.InsertedTable` | cmd/nostr-bridge/store/sqlite.go:50-61 | inserting at the advanced number appends to the queue and keeps the table well formed |
| `OutboxTables.DeletedTable` | cmd/nostr-bridge/store/sqlc/query.sql.go:125-127 | deleting the lowest row drops the head of its queue only |
| `OutboxTables.RewrittenTable` | cmd/nostr-bridge/store/sqlc/query.sql.go:655-657 | rewriting the lowest row in place rewrites the head only |
| `OutboxTables.LeasedTable` | cmd/nostr-bridge/store/sqlc/query.sql.go:24-32 | leasing lowest rows keeps the table well formed |
| `OutboxTables.LeasedQueues` | cmd/nostr-bridge/store/sqlc/query.sql.go:24-32 | and leases the same rows of the queues |
| `OutboxTables.ClaimRows` | cmd/nostr-bridge/store/sqlc/query.sql.go:24-32 | the claim statement leases the first `limit` eligible heads by availability, then id, in that order |
| `OutboxTables.ClaimableAreEligible` | cmd/nostr-bridge/store/sqlc/query.sql.go:24-32 | rows the statement may pick are exactly the eligible queue heads |
| `OutboxTables.LowestIsHead` | cmd/nostr-bridge/store/sqlc/query.sql.go:24-32 | the row with the lowest number is the head of the queue |
| `OutboxTables.HeadIsLowest` | cmd/nostr-bridge/store/sqlc/query.sql.go:24-32 | and the head of the queue is the row with the lowest number |
| `OutboxStore.SQLiteStore.EnqueueRow` | cmd/nostr-bridge/store/sqlite.go:50-61 | appends one job to its aggregate |
| `OutboxStore.SQLiteStore.EnqueueEvent` | cmd/nostr-bridge/store/sqlite.go:218-277 | implements the event step, errors included |
| `OutboxStore.SQLiteStore.EnqueueDelete` | cmd/nostr-bridge/store/sqlite.go:394-452 | implements the delete step |
| `OutboxStore.SQLiteStore.EnqueueUpdate` | cmd/nostr-bridge/store/sqlite.go:454-519 | implements the update step: deletion ahead of replacement |
| `OutboxStore.SQLiteStore.PlanBatch` | cmd/nostr-bridge/store/sqlite.go:295-351 | first pass: first failing check, the changed events, the number of rows, the cached registrations |
| `OutboxStore.SQLiteStore.WriteBatch` | cmd/nostr-bridge/store/sqlite.go:362-384 | second pass: exactly the counted rows and records |
| `OutboxStore.SQLiteStore.ReconcileBatch` | cmd/nostr-bridge/store/sqlite.go:283-392 | implements the batch step |
| `OutboxStore.SQLiteStore.EnqueuePurge` | cmd/nostr-bridge/store/sqlite.go:521-598 | implements the purge step: coverage of mappings, repeated purge, conflict, registration, limit |
| `OutboxStore.SQLiteStore.ClaimOutbox` | cmd/nostr-bridge/store/sqlite.go:608-638 | leases a claim's rows and returns them in claim order |
| `OutboxStore.SQLiteStore.ClaimedIsLive` | cmd/nostr-bridge/store/sqlite.go:761-770 | a row matched by id, token and unexpired lease is the live head of its queue, and conversely |
| `OutboxStore.SQLiteStore.CompleteOutbox` | cmd/nostr-bridge/store/sqlite.go:648-654 | pops the head, or reports a lost claim and changes nothing |
| `OutboxStore.SQLiteStore.CompletePublisherRegistration` | cmd/nostr-bridge/store/sqlite.go:656-679 | pops the allow and registers |
| `OutboxStore.SQLiteStore.CompletePublisherUnregistration` | cmd/nostr-bridge/store/sqlite.go:724-751 | pops the unallow and forgets the author |
| `OutboxStore.SQLiteStore.ForgetPublisher` | cmd/nostr-bridge/store/sqlc/query.sql.go:208-226 | removes registration, operations and mappings of the author, and no other |
| `OutboxStore.SQLiteStore.RetryOutbox` | cmd/nostr-bridge/store/sqlite.go:753-759 | puts the head back without its lease |
| `OutboxStore.SQLiteStore.RecoverPublisherRegistration` | cmd/nostr-bridge/store/sqlite.go:681-722 | implements recovery, with its two refusals |
| `OutboxStore.SQLiteStore.RecoverClaimed` | cmd/nostr-bridge/store/sqlite.go:698-717 | the writes of a recovery implement the recovery step |
| `Dispatcher.Backoff` | cmd/nostr-bridge/outbox/dispatcher.go:129-149 | the delay is the base times two to the attempts, capped, without overflow of the cap |
| `Deployment.System.DispatchOne` | cmd/nostr-bridge/outbox/dispatcher.go:41-97 | one round is a claim of one head, then anything by other processes, then the report of the outcome, all one run of the protocol; without work nothing is eligible and nothing changes |
| `Deployment.System.Claim` | cmd/nostr-bridge/store/sqlite.go:608-638 | a claim on the tables is an enabled claim step, and the claims handed out grow by exactly its items |
| `Deployment.System.Deliver` | cmd/nostr-bridge/outbox/dispatcher.go:66-97 | a report by whoever was ever handed the claim, live or lost, is the delivery step |
| `Deployment.System.Produce` | cmd/nostr-bridge/store/sqlite.go:218-598 | every producer call on the tables is its step and keeps the invariant |
| `Deployment.System.Meanwhile` | cmd/nostr-bridge/outbox/dispatcher.go:41-97 | any actions of other producers and dispatchers are a run |
| `Dispatcher.Report` | cmd/nostr-bridge/outbox/dispatcher.go:66-97 | which store call goes with which operation and outcome; a lost claim changes nothing |
| `Dispatcher.Complete` | cmd/nostr-bridge/outbox/dispatcher.go:82-97 | after a delivery, the completion of each operation |
| `Dispatcher.Repeat` | cmd/nostr-bridge/outbox/dispatcher.go:66-81 | after a failure, recovery of a publish the relay does not allow, else another attempt later |
| `Dispatcher.FreshClaimIsLive` | cmd/nostr-bridge/store/sqlite.go:608-638 | a head just leased is live for its holder |
| `ReplicaUpdates.StagedBehindReplacement` | cmd/litestream-vfs-wrapper/replica_poller.go:320-355 | an increment staged behind a replacement equals applying both if and only if it fits its commit and no page that only the replacement lists falls between the two commits |
| `ReplicaUpdates.StagingRevivesStalePage` | cmd/litestream-vfs-wrapper/replica_poller.go:320-355 | a replacement and an increment where it does not |
| `ReplicaUpdates.StagedBehindIncrement` | cmd/litestream-vfs-wrapper/replica_poller.go:320-355 | in all other cases staging equals applying, unconditionally |
| `ReplicaUpdates.MergeIsApply` | cmd/litestream-vfs-wrapper/replica_poller.go:277-355 | merging an update into the staged one equals applying it to the latest state if and only if no replacement is staged behind which the condition above fails |
| `ReplicaUpdates.StepIsEager` | cmd/litestream-vfs-wrapper/replica_poller.go:277-296 | a poll moves the latest state as applying at once would exactly under that condition, a lock or unlock always |
| `ReplicaUpdates.StagingAgreesExactly` | cmd/litestream-vfs-wrapper/replica_file.go:364-389 | over any run the latest state is throughout that of applying each update at once, if and only if every poll met it |
| `ReplicaUpdates.StagingIsInvisible` | cmd/litestream-vfs-wrapper/replica_file.go:364-389 | then, after the last unlock, index, commit, position and level-1 id are those of applying each update at once |
| `ReplicaUpdates.AcceptablesStage` | cmd/litestream-vfs-wrapper/replica_poller.go:277-355 | replacements, and increments that fit their commit and cover any growth, always meet it |
| `ReplicaUpdates.SharedSnapshotIsStable` | cmd/litestream-vfs-wrapper/replica_file.go:364-389 | while SHARED is held nothing visible changes |
| `ReplicaPoller.Poll` | cmd/litestream-vfs-wrapper/replica_poller.go:197-254 | the loop computes the scan of the listing, errors included |
| `ReplicaPoller.PolledMeans` | cmd/litestream-vfs-wrapper/replica_poller.go:197-254 | a scan that succeeds is the overlay of contiguous, well-formed files since the last shrink or root, up to the end or to a level-0 gap |
| `ReplicaPoller.NoRestartNoShrink` | cmd/litestream-vfs-wrapper/replica_poller.go:241-245 | without a reset a level never shrinks the commit |
| `ReplicaPoller.MergeIndex` | cmd/litestream-vfs-wrapper/replica_poller.go:164-171 | per page the newer of the two levels, level 1 on a tie |
| `ReplicaPoller.MergeLevels` | cmd/litestream-vfs-wrapper/replica_poller.go:164-195 | page by page the newer level, the furthest position, the commit of the level that reached furthest |
| `ReplicaPoller.BuildSnapshot` | cmd/litestream-vfs-wrapper/replica_file.go:160-187 | the overlay of the plan, its tip and highest ids, or an error for a bad header |
| `ReplicaPoller.RebuildLatest` | cmd/litestream-vfs-wrapper/replica_poller.go:256-275 | a replacement built from the whole plan |
| `ReplicaPoller.PollOnce` | cmd/litestream-vfs-wrapper/replica_poller.go:42-99 | which update, rebuild or error a poll ends with, for every combination of passes |
| `ReplicaPoller.PollIsSafe` | cmd/litestream-vfs-wrapper/replica_poller.go:42-99 | an update that does not replace comes from passes without restart or open gap and never shrinks the commit or moves back; a replacement is a rebuild or a root snapshot that bridged a gap |
| `ReplicaPoller.PollKeepsTip` | cmd/litestream-vfs-wrapper/replica_poller.go:42-99 | no visible page is newer than the visible position, after any poll |
| `ReplicaPoller.PassVersions` | cmd/litestream-vfs-wrapper/replica_poller.go:197-254 | a pass brings only pages newer than where it started |
| `ReplicaPoller.RewindsExactly` | cmd/litestream-vfs-wrapper/replica_poller.go:164-171 | an increment moves no visible page back if and only if no page found only in level 1 is older than the visible one |
| `ReplicaPoller.LateCompactionRewinds` | cmd/litestream-vfs-wrapper/replica_poller.go:164-171 | two polls after which a page is back from transaction 3 to 2 |
| `ReplicaPoller.ShrunkPlanRevivesPage` | cmd/litestream-vfs-wrapper/replica_poller.go:256-355 | two polls under a SHARED lock, a rebuild that shrank and growth that skips a page, after which the page is back |
| `ReplicaPoller.HasSupersedingSnapshot` | cmd/litestream-vfs-wrapper/replica_poller.go:138-162 | whether a root snapshot beyond the tip is listed, level 0 first |
| `ReplicaFile.Replica.ApplyUpdate` | cmd/litestream-vfs-wrapper/replica_poller.go:298-318 | shows the update, drops every cached page it rewrites, advances the generation |
| `ReplicaFile.Replica.MergePending` | cmd/litestream-vfs-wrapper/replica_poller.go:320-355 | the staged update becomes the merge |
| `ReplicaFile.Replica.Show` | cmd/litestream-vfs-wrapper/replica_poller.go:277-296 | stages or shows, keeps every cached page equal to the fetch of its index element |
| `ReplicaFile.Replica.StageUpdate` | cmd/litestream-vfs-wrapper/replica_poller.go:101-111 | cursors equal the latest state afterwards, which is the update applied exactly if it could be merged exactly; under SHARED the cache is untouched |
| `ReplicaFile.ReadersKeepLatest` | cmd/litestream-vfs-wrapper/replica_file.go:364-389 | locks and unlocks, in any number, change neither the latest state nor its position |
| `ReplicaFile.Replica.Readers` | cmd/litestream-vfs-wrapper/replica_file.go:259-389 | what readers and the lock owner do while a poll is under way |
| `ReplicaFile.Replica.PollReplicaClient` | cmd/litestream-vfs-wrapper/replica_poller.go:42-112 | whatever readers do between reading the cursors and staging, the cursors are still those of the latest state; a failed poll changes nothing, a good one stages its update, which is exact under the same condition |
| `ReplicaFile.Replica.LockFile` | cmd/litestream-vfs-wrapper/replica_file.go:364-375 | lock levels, refusing downgrades and write locks |
| `ReplicaFile.Replica.UnlockFile` | cmd/litestream-vfs-wrapper/replica_file.go:377-389 | applies the staged update on the last unlock |
| `ReplicaFile.Replica.FetchPageWithRetry` | cmd/litestream-vfs-wrapper/replica_file.go:295-329 | the first attempt that is not to be repeated decides, with success exactly for the right page at full size; three repeatable failures give Busy |
| `ReplicaFile.Replica.InsertPage` | cmd/litestream-vfs-wrapper/replica_file.go:276-293 | caches a fetched page only if generation and index element are still the same |
| `ReplicaFile.Replica.Page` | cmd/litestream-vfs-wrapper/replica_file.go:259-293 | a page it returns is the page of the snapshot the read began with, whatever happened meanwhile |
| `ReplicaFile.Replica.ReadPage` | cmd/litestream-vfs-wrapper/replica_file.go:219-252 | one turn of the loop adds bytes of that snapshot or leaves the buffer alone |
| `ReplicaFile.Replica.ReadAt` | cmd/litestream-vfs-wrapper/replica_file.go:203-257 | success or EOF gives exactly min(length, size - offset) bytes of one snapshot, apart from the rewritten header bytes, under any interleaving |
| `ReplicaFile.Replica.FillFromPage` | cmd/litestream-vfs-wrapper/replica_file.go:241-251 | copies the page's bytes and rewrites the header at offset 0 |
| `FeedRecovery.SortByTime` | cmd/nostr-bridge/mastodon/syncer.go:163-164 | oldest first, the same statuses |
| `FeedRecovery.SortIsStable` | cmd/nostr-bridge/mastodon/syncer.go:163-164 | statuses of equal time keep their order |
| `FeedRecovery.PageSweeps` | cmd/nostr-bridge/mastodon/syncer.go:135-182 | handling a page extends what is done down to where the page ends |
| `FeedRecovery.Feed.HandleOne` | cmd/nostr-bridge/mastodon/syncer.go:166-177 | a target's status is done only once handled |
| `FeedRecovery.Feed.HandleAll` | cmd/nostr-bridge/mastodon/syncer.go:163-177 | every URI of the page handled or not a target's, or an earlier stop |
| `FeedRecovery.Feed.OpenWindow` | cmd/nostr-bridge/mastodon/syncer.go:157-161 | a first page sets the ceiling to its newest status, a later one leaves it |
| `FeedRecovery.Feed.SweepPage` | cmd/nostr-bridge/mastodon/syncer.go:147-177 | a page handled to the end leaves nothing undone between where it ends and the ceiling |
| `FeedRecovery.Feed.CloseWindow` | cmd/nostr-bridge/mastodon/syncer.go:183-196 | the three closing writes, interrupted anywhere |
| `FeedRecovery.Feed.RecoverFeed` | cmd/nostr-bridge/mastodon/syncer.go:135-196 | whenever the boundary moves, every status between the old and the new one is done; everything at or below the boundary stays done over all calls, crashes and arrivals |
| `Decimal.RoundTrip` | cmd/nostr-bridge/owner/coordinator.go:74-107 | a formatted integer parses back |
| `Coordinator.Coordinator.Hydrate` | cmd/nostr-bridge/owner/coordinator.go:85-115 | memory equals the stored time and targets; an invalid stored time is an error |
| `Coordinator.Coordinator.Reconcile` | cmd/nostr-bridge/owner/coordinator.go:47-83 | a success stamps its events above all earlier stamps and stores stamp and targets; a failure leaves the database as it was |
| `Coordinator.Coordinator.Commit` | cmd/nostr-bridge/owner/coordinator.go:68-82 | the batch as it is committed, or nothing |
| `Coordinator.Coordinator.Restart` | cmd/nostr-bridge/owner/coordinator.go:40-45 | forgetting memory keeps the stamps ascending |
| `Coordinator.Coordinator.Interleave` | cmd/nostr-bridge/store/sqlite.go:121-124 | no other part of the bridge disturbs stamp or targets |
| `Coordinator.ForeignKeeps` | cmd/nostr-bridge/store/sqlite.go:218-770 | why: their steps write neither |
| `Coordinator.BatchRecords` | cmd/nostr-bridge/store/sqlite.go:283-392 | a committed batch stores exactly its stamp and its targets |
| `Coordinator.LastEnqueuedWins` | cmd/nostr-relay/store/sqlite.go:60-111 | for any delivery order and repetition the relay holds the event that wins the last batch of its address, unless it is deleted |
| `Coordinator.LastEnqueuedExactly` | cmd/nostr-relay/store/sqlite.go:60-111 | without deletions at the address it holds an event of that batch if and only if that event wins it |
| `Coordinator.RepeatIsQuiet` | cmd/nostr-bridge/owner/coordinator.go:166-175 | reconciling the same content later enqueues nothing, because the operation hash leaves out the time |
| `Relay.Canonical` | cmd/nostr-relay/store/sqlite.go:131-134 | a parsed id prints as lower-case text with the same digits, and canonical text as itself |
| `RelayTheorems.OlderTotal` | cmd/nostr-relay/store/sqlite.go:90-94 | the replacement order is strict and total on distinct ids |
| `RelayTheorems.OlderTransitive` | cmd/nostr-relay/store/sqlite.go:90-94 | and transitive |
| `RelayTheorems.TombstonesAre` | cmd/nostr-relay/store/sqlite.go:126-146 | tombstones are exactly what received deletions name, per author |
| `RelayTheorems.StoredWereReceived` | cmd/nostr-relay/store/sqlite.go:60-111 | stored events were received and no received deletion of their author names them |
| `RelayTheorems.OneEventPerAddress` | cmd/nostr-relay/store/sqlite.go:70-99 | never two stored events at one address |
| `RelayTheorems.RegularEventsConverge` | cmd/nostr-relay/store/sqlite.go:60-150 | of regular kinds exactly the received events not named by a deletion of their author are stored, in any order |
| `RelayTheorems.WinnerIsHeld` | cmd/nostr-relay/store/sqlite.go:60-111 | an address whose winner is not deleted holds it alone |
| `RelayTheorems.AddressConverges` | cmd/nostr-relay/store/sqlite.go:60-111 | an address without deleted events holds the NIP-01 maximum of what was received |
| `RelayTheorems.DeletedAddressesConverge` | cmd/nostr-relay/store/sqlite.go:60-150 | with deletions, every arrival order ends right if and only if the winner is not deleted or all is |
| `RelayTheorems.WinnerFirstEmpties` | cmd/nostr-relay/store/sqlite.go:90-99 | a deleted winner that comes first keeps the rest out and leaves the address empty |
| `RelayTheorems.DeletedWinnerLosesTheRest` | cmd/nostr-relay/store/sqlite.go:60-150 | three events that show it |
| `RelayTheorems.OthersAddNothing` | cmd/nostr-relay/store/sqlite.go:87-89 | events of other addresses put nothing at this one |
| `RelayStore.SQLiteStore.CompareRows` | cmd/nostr-relay/store/sqlite.go:71-95 | whatever row order, the incoming event is stored exactly if all rivals are older, and these are to be deleted |
| `RelayStore.SQLiteStore.SaveEvent` | cmd/nostr-relay/store/sqlite.go:60-111 | implements saving |
| `RelayStore.SQLiteStore.SaveEventAndApplyDeletion` | cmd/nostr-relay/store/sqlite.go:115-150 | implements receiving, deletions applied tag by tag |
| `RelayStore.SQLiteStore.InsertTombstone` | cmd/nostr-relay/store/sqlc/query.sql.go:224-228 | adds a tombstone, keeping an earlier one |
| `RelayStore.SQLiteStore.DeleteOwnedEvent` | cmd/nostr-relay/store/sqlc/query.sql.go:140-142 | deletes only the owner's event |
| `RelayStore.SQLiteStore.ConsumeNIP98Event` | cmd/nostr-relay/store/sqlite.go:248-273 | purges and records, or refuses a duplicate and rolls back |
| `Nip98.AcceptedAtMostOnce` | cmd/nostr-relay/nip98.go:63-118 | over any run with non-decreasing times an authorization is accepted at most once |
| `Nip98.RetentionExact` | cmd/nostr-relay/nip98.go:112-118 | exactly the retentions for which that holds, in whole seconds |
| `Nip98.TooShortReplays` | cmd/nostr-relay/nip98.go:112-118 | for every other retention, and whenever it was signed, an event is accepted at both ends of its window |
| `Nip98.Remembered` | cmd/nostr-relay/store/sqlite.go:248-273 | an accepted id is still recorded while its event is in the window |
| `ShellQuote.QuoteFlags` | internal/litestream/litestreamconfig/renderer.go:391-401 | every flag quoted, refused exactly for NUL or newline |
| `ShellQuote.LexEscape` | internal/litestream/litestreamconfig/renderer.go:551-556 | the shell reads an escaped string back as it was |
| `ShellQuote.LineMeansArguments` | internal/litestream/litestreamconfig/renderer.go:375-389 | POSIX lexing of the line, continuation included, gives exactly the intended arguments |
| `ShellQuote.RestoreLine` | internal/litestream/litestreamconfig/renderer.go:375-389 | refused exactly when an argument holds NUL or newline, else read back exactly |
| `StagedRestore.StagedRestoreLine` | internal/litestream/litestreamconfig/renderer.go:407-444 | refused exactly when something quoted holds NUL or newline, else the text of a restore through a temporary file |
| `StagedRestore.MakeMeans` | internal/litestream/litestreamconfig/renderer.go:437 | the shell reads `mktemp` and the template |
| `StagedRestore.RestoreMeans` | internal/litestream/litestreamconfig/renderer.go:439 | the restore gets the flags, the configuration, the temporary file as its output, and the database |
| `StagedRestore.MoveMeans` | internal/litestream/litestreamconfig/renderer.go:441 | the move goes from the temporary file to the database |
| `StagedRestore.RemoveMeans` | internal/litestream/litestreamconfig/renderer.go:442 | the three sidecars of the database are removed, nothing else |
| `StagedRestore.StagedRestoreIsSafe` | internal/litestream/litestreamconfig/renderer.go:403-444 | whatever the restore leaves of its output, the files are as before, or it succeeded with content and the database is that content without sidecars; nothing temporary stays |
| `Base64.RoundTrip` | cmd/wsl-keyring/backend_op.go:287-294 | every byte string survives base64url, in its letters alone |
| `Text.Sort` | cmd/wsl-keyring/backend_op.go:529 | distinct strings in ascending order |
| `Text.AscendingIsUnique` | cmd/wsl-keyring/backend_op.go:529 | a set has one ascending list |
| `OpTags.TagRoundTrip` | cmd/wsl-keyring/backend_op.go:278-296 | an attribute tag decodes to its key and value |
| `OpTags.MetadataFromTags` | cmd/wsl-keyring/backend_op.go:254-276 | the attributes the tags say, and whether there is any metadata |
| `OpTags.BuildTags` | cmd/wsl-keyring/backend_op.go:494-504 | base, marker, one tag per attribute by ascending key |
| `OpTags.MergeTags` | cmd/wsl-keyring/backend_op.go:506-531 | ascending, without duplicates: other tools' tags plus the built ones |
| `OpTags.MergeDecodes` | cmd/wsl-keyring/backend_op.go:254-296 | decoding a merge gives exactly the attributes |
| `OpTags.MergeIsIdempotent` | cmd/wsl-keyring/backend_op.go:506-531 | merging again changes nothing |
| `OpTags.MergeReplaces` | cmd/wsl-keyring/backend_op.go:506-531 | other attributes replace the old ones completely |
| `OpTags.OthersOfMerge` | cmd/wsl-keyring/backend_op.go:510-519 | every non-empty tag of another tool survives |
| `SecretNames.EnvNameInjective` | internal/litestream/litestreamconfig/credentials.go:155-160 | a variable name fixes database, role, backend and field |
| `SecretNames.FileMountPathInjective` | internal/litestream/litestreamconfig/credentials.go:162-168 | a mount path fixes database, role, backend directory and file |
| `SecretNames.SanitizeInjective` | internal/litestream/litestreamconfig/credentials.go:170-181 | sanitizing is injective on DNS labels |
| `CredentialTheorems.EntryIsRef` | internal/litestream/litestreamconfig/replicas.go:9-138 | each slot of a backend holds one Secret reference |
| `CredentialTheorems.OriginOf` | internal/litestream/litestreamconfig/renderer.go:96-257 | every binding comes from one database, role and slot that reaches its container |
| `CredentialTheorems.AccountsShareIdentity` | internal/litestream/litestreamconfig/input_validation.go:45-87 | in accepted input two service accounts that reach one container compare equal |
| `CredentialTheorems.SameServiceAccount` | internal/litestream/litestreamconfig/input_validation.go:45-87 | the shared GCS variable then holds one credential per container, given names of equal length |
| `CredentialTheorems.OneNameOneSecretExactly` | internal/litestream/litestreamconfig/credentials.go:73-181 | for accepted input, one variable or path of a container means one Secret name and key if and only if accounts that reach one container have names of equal length |
| `CredentialTheorems.PlainNamesSuffice` | internal/litestream/litestreamconfig/credentials.go:73-181 | so it does for every accepted input whose Secret names hold no NUL |
| `CredentialTheorems.NulNamesConfuse` | internal/litestream/litestreamconfig/input_validation.go:82-87 | an accepted input with a NUL in a Secret name where it does not |
| `Renderer.ValidateGCSCredentials` | internal/litestream/litestreamconfig/input_validation.go:45-72 | accepts exactly when clones and all destinations agree |
| `Renderer.ValidateInput` | internal/litestream/litestreamconfig/input_validation.go:12-43 | accepts exactly the inputs with unique names and paths and sound databases |
| `Renderer.CredentialBuilder.Variable` | internal/litestream/litestreamconfig/credentials.go:73-84 | records a variable binding, none for an absent reference |
| `Renderer.CredentialBuilder.Mounted` | internal/litestream/litestreamconfig/credentials.go:86-118 | records a file binding, with its variable for a service account |
| `Renderer.CredentialBuilder.RootCAs` | internal/litestream/litestreamconfig/credentials.go:120-132 | one file per certificate, by index |
| `Renderer.CredentialBuilder.Rebind` | internal/litestream/litestreamconfig/credentials.go:134-145 | the same bindings for another container |
| `Renderer.CredentialBuilder.RenderReplica` | internal/litestream/litestreamconfig/replicas.go:9-138 | the bindings of each backend |
| `Renderer.RenderRestoreOnly` | internal/litestream/litestreamconfig/renderer.go:154-172 | source configuration, script, and source credentials for the restore container |
| `Renderer.RenderReplicate` | internal/litestream/litestreamconfig/renderer.go:174-218 | destination credentials for replication, and the restore's own or the same rebound; the configuration it restores from, and the script |
| `Renderer.RenderClone` | internal/litestream/litestreamconfig/renderer.go:220-257 | destination credentials twice and source credentials once; both configurations and the script |
| `Scripts.BuildRestoreLine` | internal/litestream/litestreamconfig/renderer.go:502-507 | refused exactly when a flag, the name, the path or a needed directory holds NUL or newline; else the shell reads the policy's flags, the configuration file and the path, or the text is the staged one |
| `Scripts.ChmodLines` | internal/litestream/litestreamconfig/renderer.go:332-369 | which modes are set on which quoted paths, and when that is refused |
| `Scripts.ChmodMeans` | internal/litestream/litestreamconfig/renderer.go:348-364 | the shell reads `chmod`, an octal mode and the path |
| `Scripts.BuildPreflight` | internal/litestream/litestreamconfig/renderer.go:463-484 | the check for an empty destination, under its clone policy |
| `Scripts.BuildSingleRestoreScript` | internal/litestream/litestreamconfig/renderer.go:446-461 | one restore and the modes; refused exactly when something cannot be quoted |
| `Scripts.BuildCloneScript` | internal/litestream/litestreamconfig/renderer.go:463-500 | the check, the destination's restore by the default policy, the source's by its own, and the modes; refused exactly when something cannot be quoted |
| `RenderedFiles.SharedExactly` | internal/litestream/litestreamconfig/renderer.go:259-271 | two databases of different names share a file name exactly when one is a clone and the other, plain, is named after it and one of its roles |
| `RenderedFiles.FilesKeptExactly` | internal/litestream/litestreamconfig/renderer.go:101-143 | for accepted input every database keeps its documents and its script if and only if there is no such pair |
| `RenderedFiles.NamedAfterRole` | internal/litestream/litestreamconfig/renderer.go:220-271 | an accepted input where a clone reads another database's source |
| `BindingOrder.SortedIsOrdered` | internal/litestream/litestreamconfig/credentials.go:183-198 | sorting gives the same bindings ordered by container, variable, path and Secret |
| `BindingOrder.OrderedIsUnique` | internal/litestream/litestreamconfig/credentials.go:183-198 | there is one such order |
| `BindingOrder.BindingsIgnoreOrder` | internal/litestream/litestreamconfig/credentials.go:183-198 | so the rendered bindings do not depend on the order of the databases |
| `Renderer.RenderDatabase` | internal/litestream/litestreamconfig/renderer.go:104-135 | fails exactly when its script cannot be quoted, else adds its files and gives its bindings |
| `Renderer.Render` | internal/litestream/litestreamconfig/renderer.go:96-152 | succeeds exactly for accepted input whose scripts can all be quoted, with all files by name and all bindings in order |

## Left out

- HTTP, WebSocket, D-Bus, Kubernetes, the op command line, files, the web interface and the main packages.
- The outbox calls that bypass registration and purge on purpose: EnqueueOutbox, SaveEventAndEnqueue, SaveEventMapping, SetPublisherRegistered, ClearPublisherRegistration.
- Width of integers: 64-bit counters and row ids, 32-bit page numbers and 64-bit durations do not wrap in the model.
- OutboxStore.SQLiteStore.WriteBatch: writes targets after the events, where the source writes them first; both happen in one transaction on separate tables.
- Deployment.System.DispatchOne: what the relay answers is an input, and the sanitized error text is any string.
- Coordinator.Coordinator.Reconcile: mapping and signing events is a parameter; the target list is given sorted.
- FeedRecovery.Feed.RecoverFeed: one feed; the rotation of Backfill over feeds with its budget adds only an index.
- ReplicaFile.Replica.ReadAt: cache eviction is arbitrary removal, remote pages are a fixed function of the index element, and the source's counters do not wrap.
- ReplicaPoller.MergeLevels: pages are compared only between the two levels of one poll, as in the source, so the visible index is not claimed to equal a replay of all transactions.
- Nip98.AcceptedAtMostOnce: needs the replay store to be configured and one skew for the whole run; the other checks of a request are one flag.
- Renderer.Render: the YAML text of a configuration, which is a value here that holds path, database, role and the credentials of the replica, and the hash of the result.
- Scripts.BuildCloneScript: the fixed words of the check for an empty destination and of the error branches around `chmod`; scripts are lists of their printed parts.
- StagedRestore.StagedRestoreIsSafe: signals that end the shell between two commands; `mktemp` is taken to make a file that was not there and is not the database.
- OpTags.MergeTags: joining tags by commas for the op command line.
- CredentialTheorems.OneNameOneSecretExactly: the optional flag of a Secret reference.
- Publisher allow list, event queries and NIP-98 URL, method and payload checks of the relay.
- The Bluesky syncer, the streaming half of the Mastodon syncer, webhooks, feed filters, metrics and the keyring cache.
