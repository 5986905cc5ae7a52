# UmbraDB: verified storage protocols

A Dafny model of the protocols UmbraDB's guarantees rest on, and proofs about every run of them.
Each protocol is a state machine over committed tables, the uncommitted writes and locks of open
transactions, and the in-process state of the callers. Its steps are single SQL statements, commits,
aborts, crashes and settled awaits, interleaved in any way. Beside the state machines stand the same
operations in their own imperative form (classes with the tables as fields, the loops with their
invariants), proved against the functions the state machines commit.

Conventions:

- A statement that would wait for a lock is a step that is not enabled yet. A deadlock or a timeout
  is an abort. At READ COMMITTED a statement that waited looks at the row version it finds when the
  lock is granted (section 13.2.1 of the PostgreSQL 17 documentation).
- `now()` is the start of the transaction; `clock_timestamp()` is any integer, also a smaller one
  than before.
- SHA-256, the date formatter and parser, `hashtext`, the injected merge function, the node and the
  indexer are function parameters. Nothing assumes that SHA-256 is injective: results say "equal, or
  these two particular strings collide".
- What a SELECT with ORDER BY returns is a parameter constrained by the tables.
- History variables (`log`, `bodies`, `issued`, `late`, `spoiled`, `puts`, `ledger`) record what
  happened. No step reads one to decide anything, except that the row a DELETE may pass over
  unexamined is one that the log says was changed since its snapshot.

Verify the project with `dafny verify dfyconfig.toml`.

## What is proved

- **Checkpoints** (`Chunking`, `CheckpointProtocol`, `CheckpointSafety`, `CheckpointTheorems`,
  `CheckpointRetention`, `CheckpointHistory`, `CheckpointStore`, `CheckpointRuns`, `GraceWindow`,
  `GraceRun`). Concurrent saves and prunes of all wallets over a shared chunk pool, with aborts and
  crashes that lose a tail of commits: every listed checkpoint loads exactly what was saved,
  sequence numbers are 1..n, prune keeps exactly the newest ones, the sync cursor is never ahead of
  its checkpoint, and the 15-minute window is enough to keep the foreign key from aborting a prune,
  and cannot be shortened.
- **Leases** (`Leases`, `LeaseSafety`, `LeaseTimeouts`, `LeaseLayer`, `LeaseReserveWindow`). At most
  one live session per lease key and one unlock per token, whatever times out, aborts, dies or fails
  to clean up. The pool stays clean in every run in which neither the client nor a call has a
  statement timeout; under either, it can be left with a lock or a timeout. At the finer granularity
  of the window between `reserve()` fulfilling and its reaction, any call with a signal can break
  exclusion.
- **Temporal key-value store** (`TemporalKv`, `TemporalKvProtocol`). Refines an append-only log per
  key under concurrent writers and any clock; both ways to address the past agree; the past is stable
  exactly up to the write time of the current version.
- **Chain archive** (`BlobRoles`, `Finality`, `ChainSync`, `ChainSyncSafety`, `ChainSyncObservations`,
  `ChainSyncRuns`, `ChainSyncService`, `Partitions`, `Rollover`). References never lose their role;
  finality is permanent; the sync is crash-safe; observations are compressed without loss by one live
  instance that runs one `syncOnce` at a time; rollover conserves rows, routing and foreign keys or
  changes nothing.
- **Transaction history** (`HistoryCodec`, `TxHistory`, `TxHistorySafety`, `TxHistoryRuns`,
  `HistoryTable`). Decoding
  inverts encoding on every valid entry, and re-encoding what the reader accepts is characterised
  exactly, for values and for whole rows; a stored entry is always the fold of the merge function over
  its committed writes, and disappears only when superseded.
- **Migrations** (`Migrations`). Applied once, in order, by any number of concurrent runners, whatever
  is left on the sessions they reuse.

## Properties that fail, and exactly when they hold

- *A stored form the reader accepts re-encodes to itself*: for section content, if and only if no
  bigint tag in it is "-0" (`StoredFormsAreCanonical`); for a whole row, if and only if its embedded
  hash and identifiers equal its columns, neither it nor its lifecycle has an unknown key (the reader
  drops both), its fees are not "-0" and no section has such a tag (`StoredRowsAreCanonical`).
- *Re-ingesting a stored height changes nothing*: if and only if the instance remembers that height's
  D-parameter or an observation is stored there already (`ReingestIsNoOpIff`); a restart between the
  bundle's commit and the watermark reaches a state where neither is so (`RestartAddsObservation`).
  The comment at chain-archive-sync/sync-service.ts:189-196 calls the retry a no-op; the comment at
  lines 113-119 of the same file describes the extra observation. The model follows the code.
- *Observation compression is lossless*: with one live instance that runs one `syncOnce` at a time
  (`CompressionIsLossless`). Each half is needed: in every chain whose D-parameter changes and changes
  back, two instances whose calls never overlap lose an observation (`TwoInstancesLoseObservations`),
  and so does one instance whose calls overlap (`OverlappingCallsLoseObservations`).
- *Blob-role safety*: when the transactions that remove role rows are READ COMMITTED, as
  `sql.begin` is; not when such a transaction is REPEATABLE READ, from any quiet state and for any
  unreferenced role row (`RepeatableReadRemovalBreaksIt`).
- *The stable past*: for instants up to the current write time (`PastIsStable`), and for no later
  instant: every run has a continuation that changes the answer (`LaterInstantsAreNotStable`).
- *Every exit of the migration runner has released the lock and reset the search path*: unless a
  cleanup statement was cancelled or the grant was late (`ConnectionsGoBackClean`). Without a client
  `statement_timeout` no cleanup is cancelled, so path and transaction are always given back and the
  lock exactly when no grant was late (`UnboundedGoesBackClean`). A late grant, which the runner's own
  `lock_timeout` allows in every configuration, leaks the lock from every state in which the lock is
  free (`LateErrorLeaksTheLock`): unlike the lease layer, the runner does not unlock defensively. A lock
  left behind stays lost, whatever the runners do, until a session ends (`LostUntilASessionEnds`). With a
  client timeout every runner about to start can leave the path, the lock or an aborted transaction on
  its session (`CleanupCanKeepThePath`, `CleanupCanKeepTheLock`, `CleanupCanKeepTheTransaction`).
- *Every pooled connection is clean*: in every run of a client without a `statement_timeout` in which no
  call carries `timeoutMs` (`PoolIsCleanWithoutTimeouts`). The unlock and the reset run under the
  session's `statement_timeout` and their errors are swallowed. So with either timeout, from every
  reachable state, every acquire on a pooled connection whose key nobody else holds, and every release
  of a live lease, can end with the connection pooled and the lock held (`AcquireCanLeakTheLock`,
  `ReleaseCanLeakTheLock`); and every acquire with a `timeoutMs`, but no other, can leave that timeout
  behind (`TimeoutCanPoisonThePool`, `PoisonNeedsTimeoutMs`). `createClient` always sets a positive
  `statement_timeout` (src/postgres/client.ts:156-180), so a client it makes never meets the condition;
  its default of 120 s only makes a cancelled cleanup unlikely. Exclusion survives all of this
  (`LeaseIsExclusive`).
- *Lease exclusion at every interleaving*: it holds when each settlement and its reactions are one step
  (`LeaseIsExclusive`), and also at the finer granularity when no call carries a signal
  (`SafeWithoutSignals`); but any waiting call with a signal, whatever its key and kind, can break the
  lease of another call if its abort lands between `reserve()` fulfilling and the reaction that reads
  `gaveUp` (`WindowBreaksExclusion`).

## Model

| member | source | states |
|---|---|---|
| `Chunking.SplitChunks` | src/postgres/checkpoint-store.ts:103-110 | the loop computes the reference cut, and concatenating the chunks gives back the payload |
| `Chunking.SplitLossless` | src/postgres/checkpoint-store.ts:103-110 | chunking then concatenating is the identity, for every payload and chunk size |
| `Chunking.SplitShape` | src/postgres/checkpoint-store.ts:103-110 | ceil(n / size) chunks, none empty, all but the last exactly full |
| `Chunking.Dedupe` | src/postgres/checkpoint-store.ts:206-213 | every chunk's hash gets exactly one row, with bytes that hash to it: no conflict target twice, nothing lost |
| `Chunking.Batches` | src/postgres/checkpoint-store.ts:36-63 | the statements carry every row once, in order, none is empty, each binds fewer than 65,534 parameters, and one suffices up to the row cap |
| `Chunking.VerifyAndConcat` | src/postgres/checkpoint-store.ts:348-390 | for arbitrary rows: data exactly when positions, chunk digests and the manifest hash all check out; otherwise the error describes the first bad row |
| `Chunking.TamperEvident` | src/postgres/checkpoint-store.ts:348-390 | with the manifest hash intact, rows altered at will are refused, or hold the saved chunks, or exhibit two particular colliding strings |
| `Chunking.SumIsPayloadLength` | src/postgres/checkpoint-store.ts:436-455 | the byte length summed over positions is the payload length, repeated chunks and the empty payload included |
| `CheckpointSafety.StepKeepsInv` | src/postgres/checkpoint-store.ts:192-283 | every statement, commit, abort and crash of saves and prunes keeps the tables sound and the open transactions apart |
| `CheckpointSafety.SaveCommitKeepsOthers` | src/postgres/checkpoint-store.ts:229-246 | a save's commit leaves every other open save and prune as sound as it was |
| `CheckpointSafety.PrunedDbSound` | src/postgres/migrations/002_checkpoint_store.ts:56-63 | deleting manifests with cascade and then reclaiming under the foreign key keeps every remaining manifest complete |
| `CheckpointTheorems.ListedCheckpointsLoad` | src/postgres/checkpoint-store.ts:317-397 | in every durable state of every run a listed checkpoint passes all of load's checks and returns exactly the saved bytes (or two particular chunks collide); history reports the same length and count |
| `CheckpointTheorems.SequencesAreDense` | src/postgres/checkpoint-store.ts:239-246 | committed saves of a wallet are numbered exactly 1..n in commit order, whatever aborts |
| `CheckpointTheorems.StoredIsSuffix` | src/postgres/checkpoint-store.ts:494-503 | the stored numbers of a wallet are a contiguous run that ends at the newest |
| `CheckpointTheorems.ThresholdKeepsNewest` | src/postgres/checkpoint-store.ts:494-503 | the OFFSET/LIMIT subquery cuts so that exactly the newest min(n, retainCount) stay |
| `CheckpointTheorems.PruneRemovesExactlyOld` | src/postgres/checkpoint-store.ts:488-534 | a committing prune removes exactly the wallet's manifests below its cut and touches no other wallet |
| `CheckpointRetention.CommittedPruneKeepsNewest` | src/postgres/checkpoint-store.ts:494-503 | over any stretch of a run from a prune's selection to its commit, it removes exactly the numbers that were retainCount or more behind the newest at the selection, whatever committed in between |
| `CheckpointTheorems.CursorNeverAhead` | src/postgres/save-and-advance.ts:66-70 | in every durable prefix the stored cursor is the one committed with the newest durable checkpoint, which is still stored |
| `CheckpointTheorems.CommitKeepsCursor` | src/postgres/watermarks.ts:77-82 | the last-write-wins cursor stays the newest checkpoint's cursor across every commit |
| `CheckpointHistory.PagesPartition` | src/postgres/checkpoint-store.ts:419-426 | successive `before` pages list every checkpoint exactly once, newest first |
| `CheckpointHistory.HistoryCountsDown` | src/postgres/checkpoint-store.ts:419-456 | in every reachable state the pages count down from the newest number to the oldest stored one |
| `CheckpointStore.PgCheckpointStore.UpsertChunks` | src/postgres/checkpoint-store.ts:229-235 | the batched loop upserts every row, refreshing `created_at` of existing chunks |
| `CheckpointStore.PgCheckpointStore.InsertJunction` | src/postgres/checkpoint-store.ts:264-280 | the batched loop stores every position with its hash |
| `CheckpointStore.PgCheckpointStore.SaveImpl` | src/postgres/checkpoint-store.ts:192-283 | the new tables are those the protocol commits for this payload and cursor, they stay sound, every chunk of the payload is stamped with now, no other chunk row and no stored bytes change, and the summary is the next number, the stored manifest hash, the payload length and the chunk count |
| `CheckpointStore.PgCheckpointStore.PruneImpl` | src/postgres/checkpoint-store.ts:488-534 | exactly the sequences below the cut go, then exactly the chunks more than 900 seconds old that no junction row names, which is what the protocol's reclaim selects; the tables stay sound |
| `CheckpointStore.PgCheckpointStore.LoadImpl` | src/postgres/checkpoint-store.ts:317-397 | in sound tables it fails exactly for a missing checkpoint, and otherwise returns the payload of the save asked for, or of the newest |
| `CheckpointStore.UpsertAllIsUpserts` | src/postgres/checkpoint-store.ts:229-235 | row-by-row upserting of de-duplicated rows equals one simultaneous update against the table before the transaction |
| `CheckpointStore.SaveIsSound` | src/postgres/checkpoint-store.ts:192-283 | the loops of saveImpl amount to the protocol's commit, and the result is sound |
| `GraceWindow.GraceSuffices` | src/postgres/checkpoint-store.ts:518-525 | if every overlapping save began at most 15 minutes before the prune, in every reachable state no prune has selected a chunk a save references, so the foreign key never aborts it |
| `GraceWindow.StaleChunkIsReclaimed` | src/postgres/checkpoint-store.ts:518-525 | from any quiet state with an aged unreferenced chunk, a save that began earlier than the window commits a reference to it while the prune reclaims it |
| `CheckpointRuns.SaveIsARun` | src/postgres/checkpoint-store.ts:192-283 | from every quiet reachable state every save, of any payload and with or without a cursor, can run statement by statement to its commit, and leaves exactly the tables of `SaveImpl` |
| `CheckpointRuns.PruneIsARun` | src/postgres/checkpoint-store.ts:488-534 | so can every prune, which leaves exactly the tables of `PruneImpl` |
| `GraceRun.GraceIsNeeded` | src/postgres/checkpoint-store.ts:518-525 | for every chunk, two wallets and start times more than 15 minutes apart there is a run from the empty database after which the open prune's foreign-key check is false |
| `GraceWindow.SaveStepKeepsGrace` | src/postgres/checkpoint-store.ts:229-235 | the refresh of `created_at` and the re-check after the lock wait keep overlapping prunes away from touched chunks |
| `LeaseSafety.LeaseIsExclusive` | src/postgres/transaction-lease.ts:270-313 | in every run, cancelled cleanups included, a recorded lease on a live connection holds its lock and no other session holds that key; it holds it exactly once unless a cleanup was cancelled on that session before |
| `LeaseSafety.PoolIsAccountedFor` | src/postgres/transaction-lease.ts:270-401 | a pooled connection is clean unless a cleanup statement was cancelled on its session; when all calls have finished every connection is pooled or recorded under a token |
| `LeaseTimeouts.PoolIsCleanWithoutTimeouts` | src/postgres/transaction-lease.ts:296-303 | in every run of a client without a statement timeout and without `timeoutMs` a pooled connection has no lease lock and the default timeout, and a live lease holds its lock once and nothing else |
| `LeaseTimeouts.PoisonNeedsTimeoutMs` | src/postgres/transaction-lease.ts:181-184 | whatever the client's timeout, no session carries a lease timeout in a run in which no call has a `timeoutMs` |
| `LeaseTimeouts.TimeoutCanPoisonThePool` | src/postgres/transaction-lease.ts:181-184 | from every reachable state with a pooled connection, every call with `timeoutMs` has a continuation that pools the connection with its timeout still set |
| `LeaseTimeouts.AcquireCanLeakTheLock` | src/postgres/transaction-lease.ts:296-303 | with a client timeout or a `timeoutMs`, every acquire and try-acquire whose key nobody else holds has a continuation that pools the connection with the lock, so that no other session can be granted the key |
| `LeaseTimeouts.ReleaseCanLeakTheLock` | src/postgres/transaction-lease.ts:375-401 | and so has every release of a recorded lease on a live session |
| `LeaseSafety.SecondReleaseDoesNothing` | src/postgres/transaction-lease.ts:375-401 | after one release of a token, any later release of it touches no connection and no lock |
| `LeaseSafety.DefensiveUnlockIsHarmless` | src/postgres/transaction-lease.ts:296-303 | the unlock of a failed acquire never takes a lock from a recorded lease |
| `LeaseSafety.StepKeepsInv` | src/postgres/transaction-lease.ts:132-184 | every settlement, timeout, abort, late grant, connection death and cleanup cancelled by the client's or the call's timeout keeps locks exclusive and connections accounted for |
| `LeaseReserveWindow.SafeWithoutSignals` | src/postgres/transaction-lease.ts:132-170 | with the fulfilment of `reserve()` and its reaction as separate steps, runs without signals are ordinary runs, so all guarantees carry over |
| `LeaseReserveWindow.WindowBreaksExclusion` | src/postgres/transaction-lease.ts:137-141 | for every key, kind of call and fine-grained run that ends with a waiting signalled call and a free live connection: a continuation in which another call's recorded lease has lost its lock and every live session can be granted the key |
| `LeaseLayer.PgLeases.AcquireLease` | src/postgres/transaction-lease.ts:283-313 | success records the lease on a connection with its timeout and its lock taken once more; locks of other keys are never touched; after a failure a clean connection keeps exactly the granted lock whose unlock and the timeout whose reset was cancelled, so nothing when neither the client nor the call has a timeout |
| `LeaseLayer.PgLeases.ReleaseLease` | src/postgres/transaction-lease.ts:375-401 | a recorded token gives its connection back with its own key unlocked once, clean exactly when both cleanup statements took effect, and a failed unlock is reported; any other token changes nothing |
| `TemporalKv.PutAppends` | src/postgres/temporal-kv.ts:107-168 | a put is one append or leaves no trace; it is written exactly when the mode admits the version, the clock moved and this transaction has not written the key; a conflict reports the real version or none, a refusal its true reason, and the exclusion constraint never refuses |
| `TemporalKv.NeverOverlaps` | src/postgres/migrations/001_temporal_kv.ts:95-99 | in reachable rows the interval the trigger closes overlaps no history interval |
| `TemporalKv.GetAtIsLogAt` | src/postgres/temporal-kv.ts:221-265 | getAt answers exactly what the log says, and at most one row of the UNION matches |
| `TemporalKv.DualAddressing` | src/postgres/temporal-kv.ts:242-260 | the entry found by time is the one found by its version; it is not after the instant and every later write is |
| `TemporalKvProtocol.StepRefinesLog` | src/postgres/migrations/001_temporal_kv.ts:113-139 | a commit appends to exactly the keys it wrote the value and time of its accepted put; every other step changes no log |
| `TemporalKvProtocol.ConflictCanBeRetried` | src/postgres/temporal-kv.ts:129-168 | in every run a conflict changes nothing and leaves its transaction open, and a put that expects the reported version is written exactly when the clock has moved on and the transaction has not written the key |
| `TemporalKvProtocol.AcceptedPutIsPending` | src/postgres/temporal-kv.ts:107-168 | an accepted put is the first of its key in the transaction and is kept with its own value and time |
| `TemporalKvProtocol.TablesAreTheLedger` | src/postgres/temporal-kv.ts:107-168 | in every run the rows of a key are exactly its committed puts in commit order |
| `TemporalKvProtocol.PutIsOneMore` | src/postgres/migrations/001_temporal_kv.ts:120-128 | a transaction never has more than one uncommitted write of a key |
| `TemporalKvProtocol.ReachableRowsTile` | src/postgres/migrations/001_temporal_kv.ts:72-101 | in every reachable state versions are 1..n, write times increase strictly and the intervals tile the time line |
| `TemporalKvProtocol.LogOnlyGrows` | src/postgres/temporal-kv.ts:107-168 | committed writes are never changed or lost |
| `TemporalKvProtocol.PastIsStable` | src/postgres/temporal-kv.ts:252-260 | up to the current write time, the answer for an instant is the same in every later reachable state |
| `TemporalKvProtocol.LaterInstantsAreNotStable` | src/postgres/temporal-kv.ts:252-260 | every run has, for every key and every later instant, a continuation that changes the answer |
| `TemporalKvProtocol.KvTable.PutImpl` | src/postgres/temporal-kv.ts:107-168 | the three compare-and-swap branches with the trigger, on the tables, compute the specified put |
| `BlobRoles.ReferencesStayClassified` | src/postgres/migrations/chain_archive/001_chain_archive_core.ts:180-208 | in every run with READ COMMITTED removers no committed row references a blob lacking its role |
| `BlobRoles.StepKeepsInv` | src/postgres/migrations/chain_archive/001_chain_archive_core.ts:655-714 | inserting, repointing and dropping references, and adding, removing and repointing roles keep shared and exclusive role locks apart and references classified |
| `BlobRoles.LoneStatement` | src/postgres/migrations/chain_archive/001_chain_archive_core.ts:655-714 | from every quiet reachable state a one-statement transaction goes through exactly when it references an existing role, or removes or repoints one no row references, and it has that effect and no other |
| `BlobRoles.StatementsTakeEffect` | src/postgres/chain-archive-store.ts:130-145 | an added role, a put, dropped or repointed reference and a removed role are in the committed tables as the statement says |
| `BlobRoles.RepeatableReadRemovalBreaksIt` | src/postgres/migrations/chain_archive/001_chain_archive_core.ts:655-714 | from every reachable state without open transactions, for every unreferenced role row, a continuation in which a REPEATABLE READ removal leaves a reference without its role |
| `Finality.AtMostOneCanonical` | src/postgres/migrations/chain_archive/001_chain_archive_core.ts:280-283 | at most one canonical block per network and height in every reachable state |
| `Finality.FinalityIsPermanent` | src/postgres/migrations/chain_archive/001_chain_archive_core.ts:335-357 | a finalized block stays canonical and finalized, and no other block at its height is ever either |
| `Finality.CommitKeepsTx` | src/postgres/migrations/chain_archive/001_chain_archive_core.ts:264-283 | a commit cannot give another open transaction a second canonical block or take a finalized one away |
| `Finality.PutBlockIsARun` | src/postgres/chain-archive-store.ts:191-201 | from every quiet state every block the constraints allow can be inserted through the protocol |
| `Finality.SetCanonicalIsARun` | src/postgres/chain-archive-store.ts:368-401 | and every allowed flip can be made, as two updates and a commit |
| `Finality.BlocksTable.PutBlock` | src/postgres/chain-archive-store.ts:191-201 | a CHECK violation is an error even for a stored key; otherwise nothing on a primary-key conflict, else inserted exactly when the partial unique index allows it |
| `Finality.BlocksTable.SetCanonical` | src/postgres/chain-archive-store.ts:368-401 | succeeds exactly when the target exists, no other block there is finalized and the target is not un-finalized; it says which refusal applies; on success exactly the slot changes, else nothing does |
| `ChainSyncSafety.WatermarkMeansArchived` | chain-archive-sync/sync-service.ts:155-174 | in every run of overlapping, failing calls a watermark of h means blocks 0..h are stored in full: the block row column by column from the node, exactly the indexer's transactions column by column, and every blob they name |
| `ChainSyncSafety.NoBlockIsPartial` | src/postgres/chain-archive-store.ts:304-331 | if any row of a height is visible, the block, exactly its transactions and all their blobs are |
| `ChainSyncSafety.ArchiveOnlyGrows` | src/postgres/chain-archive-store.ts:527-541 | over whole runs no stored row is rewritten or removed and the watermark never falls |
| `ChainSyncSafety.StepKeepsInv` | chain-archive-sync/sync-service.ts:198-245 | every insert, commit, acknowledgement, watermark write, failure and kill keeps the archive invariant |
| `ChainSyncSafety.InsertLands` | src/postgres/chain-archive-store.ts:206-237 | a do-nothing-on-conflict insert leaves the right row there whichever of the two unique keys it met |
| `ChainSyncSafety.NoPrefixMeans` | chain-archive-sync/sync-service.ts:72-74 | exactly one leading "0x" is dropped |
| `ChainSyncObservations.CompressionIsLossless` | chain-archive-sync/sync-service.ts:357-380 | with one live instance running one call at a time, through restarts and lost acknowledgements, the latest observation at or below a synced height holds its D-parameter |
| `ChainSyncObservations.ReingestIsNoOpIff` | src/postgres/chain-archive-store.ts:158-262 | ingesting a stored height again changes nothing iff its D-parameter is remembered or observed there already |
| `ChainSyncObservations.ReingestKeepsStored` | src/postgres/chain-archive-store.ts:158-262 | and otherwise adds nothing but that height's observation and its blob |
| `ChainSyncRuns.RestartAddsObservation` | chain-archive-sync/sync-service.ts:112-120 | a reachable state, in every chain with equal D-parameters at 0 and 1, where re-ingesting block 1 changes the archive |
| `ChainSyncRuns.TwoInstancesLoseObservations` | chain-archive-sync/sync-service.ts:234-244 | for every chain whose D-parameter changes and changes back: a state reachable by two instances whose calls never overlap that has synced block 2 while the latest observation at or below it is another value |
| `ChainSyncRuns.OverlappingCallsLoseObservations` | chain-archive-sync/sync-service.ts:234-244 | the same for one live instance with two overlapping calls |
| `ChainSyncService.Store.InsertBlockRow` | src/postgres/chain-archive-store.ts:158-204 | header blob, body blob and block row are there afterwards, each inserted only if absent, a new row with the node's own columns |
| `ChainSyncService.Store.InsertTransactionRows` | src/postgres/chain-archive-store.ts:214-237 | the loop stores blob and row of every transaction, in order |
| `ChainSyncService.Store.PutBlockBundle` | src/postgres/chain-archive-store.ts:304-331 | the whole bundle or, on failure, nothing |
| `ChainSyncService.Store.SetWatermark` | src/postgres/chain-archive-store.ts:527-541 | the stored height is raised, never lowered |
| `ChainSyncService.Service.IngestOneBlock` | chain-archive-sync/sync-service.ts:198-245 | whatever fails, the archive stays sound and losslessly observed; it succeeds exactly when nothing fails, the hashes agree and every regular transaction lies inside an extrinsic, and then stores the height and remembers its D-parameter; a failure leaves the rows alone unless the commit itself went through, and never moves the remembered value |
| `ChainSyncService.Service.SyncOnce` | chain-archive-sync/sync-service.ts:155-174 | every exit keeps the invariants and the watermark; it succeeds exactly when every block of the batch cross-checks and nothing fails, and then moves the watermark to min(tip, start + maxBlocks - 1) and counts the blocks |
| `Partitions.RoutingIsUnique` | src/postgres/migrations/chain_archive/001_chain_archive_core.ts:762-776 | in a well-formed table a height selects one partition only |
| `Partitions.CreateHeightPartitions` | src/postgres/migrations/chain_archive/001_chain_archive_core.ts:762-776 | exactly p0 to p4, a million heights each, and DEFAULT, empty and well formed, covering exactly the heights below 5,000,000 |
| `Partitions.MigratedIsWellFormed` | src/postgres/migrations/chain_archive/001_chain_archive_core.ts:762-776 | the catalog the migration creates meets the precondition of a rollover |
| `Rollover.FirstRolloverIsReady` | src/postgres/chain-archive-rollover.ts:271-351 | and the next bucket, p5, can be rolled over to |
| `Rollover.RolloverConserves` | src/postgres/chain-archive-rollover.ts:285-336 | a rollover keeps every table's rows and foreign keys, disjoint bounds and routing, and empties DEFAULT |
| `Rollover.NothingPointsIn` | src/postgres/chain-archive-rollover.ts:286-305 | once the children's overflow is unlinked no foreign key keeps blocks_default from being detached |
| `Rollover.Archive.DetachAll` | src/postgres/chain-archive-rollover.ts:286-305 | steps (a) to (c) fail only by a fault and unlink exactly the three DEFAULT partitions |
| `Rollover.Archive.Reattach` | src/postgres/chain-archive-rollover.ts:312-329 | step (e) succeeds exactly when names and span are free, and binds the overflow to the bucket |
| `Rollover.Archive.RolloverDefaultPartition` | src/postgres/chain-archive-rollover.ts:271-351 | succeeds exactly when the names are unused, no bounded partition meets the bucket, the overflow lies in it and no statement fails; then the bucket holds the overflow under its bounds and DEFAULT is empty; a repeated call is a no-op, refusals are exactly characterised, and nothing but success changes the catalog |
| `HistoryCodec.BigintRoundTrip` | src/postgres/transaction-history-storage.ts:79-105 | reading inverts writing for every bigint |
| `HistoryCodec.BigintRewrite` | src/postgres/transaction-history-storage.ts:79-105 | writing inverts reading for every canonical literal but "-0" |
| `HistoryCodec.DecodeInvertsEncode` | src/postgres/transaction-history-storage.ts:43-67 | decoding inverts encoding for every valid value at any depth |
| `HistoryCodec.StoredFormsAreCanonical` | src/postgres/transaction-history-storage.ts:137-145 | accepted section content re-encodes to itself iff it has no "-0" tag |
| `HistoryCodec.StoredRowsAreCanonical` | src/postgres/transaction-history-storage.ts:233-249 | an accepted row re-encodes to itself iff its embedded hash and identifiers equal its columns, neither it nor its lifecycle has an unknown key, its fees are not "-0" and no section has a "-0" tag |
| `HistoryCodec.EncodingIsInjective` | src/interfaces/transaction-history-storage.ts:66-106 | two different valid values never share a stored form: the reserved-prefix rule suffices |
| `HistoryCodec.TaggedForms` | src/postgres/transaction-history-storage.ts:43-56 | the literal tags, prefix and decimal text under which bigints and dates are stored |
| `HistoryCodec.EntryRoundTrip` | src/postgres/transaction-history-storage.ts:179-190 | a persisted valid entry is read back unchanged, absent, null and present fields kept apart |
| `TxHistorySafety.StoredEntryIsFoldOfWrites` | src/postgres/transaction-history-storage.ts:455-528 | in every run a hash's row holds, and reads as, the left fold of the merge function over its committed writes since it was last absent; no row iff no such writes |
| `TxHistorySafety.RowsDisappearOnlyWhenSuperseded` | src/postgres/transaction-history-storage.ts:509-524 | a row goes only if, at that point, it was pending with a non-empty identifier set contained in that of a settled entry of the same wallet under another hash |
| `TxHistorySafety.ClearingIsComplete` | src/postgres/transaction-history-storage.ts:517-523 | when the clearing DELETE ends, a pending row whose identifiers the settled entry covers was changed by another commit after its snapshot |
| `TxHistorySafety.SettledWriteClearsBeforeCommit` | src/postgres/transaction-history-storage.ts:513-524 | between an upsert whose result is finalized or rejected with identifiers and its commit, the DELETE for exactly that result has run to its end |
| `TxHistoryRuns.WriteIsARun` | src/postgres/transaction-history-storage.ts:455-528 | from every quiet state every accepted write can run through the protocol to its commit, and leaves the rows that writeRows leaves |
| `TxHistorySafety.AbsentStaysAbsent` | src/postgres/transaction-history-storage.ts:457-467 | a write that found no row is not overtaken by another first write to the same hash |
| `TxHistorySafety.StepKeepsInv` | src/postgres/transaction-history-storage.ts:455-528 | every lock, read, upsert, clear, commit, abort and crash keeps table, log and open transactions in agreement |
| `HistoryTable.PgTable.WriteRows` | src/postgres/transaction-history-storage.ts:455-528 | accepted exactly when there is no row or the merge gives a valid entry of the same hash; then the row holds it with its columns, another row is gone exactly if the result is finalized or rejected with identifiers and the row a pending one of the wallet whose identifiers it covers, and no other row changes; a refused write changes nothing |
| `HistoryTable.WrittenIsReplay` | src/postgres/transaction-history-storage.ts:494-524 | a write by itself is a legal stretch of the protocol's log, ending in the same table |
| `Migrations.AppliedOnceInOrder` | src/postgres/migrate.ts:237-267 | at every moment the committed bodies are a prefix of the lineage, each once, and `_migrations` holds exactly their names |
| `Migrations.ConnectionsGoBackClean` | src/postgres/migrate.ts:268-283 | unless a cleanup statement was cancelled on it, a released session has its search path reset and no open transaction, and holds the lock iff a grant was late; no two runners work at once |
| `Migrations.UnboundedGoesBackClean` | src/postgres/migrate.ts:268-283 | in every run of a client without a statement timeout path and transaction are always given back, and the lock iff no grant was late |
| `Migrations.CleanupCanKeepThePath` | src/postgres/migrate.ts:268-274 | with a client timeout every runner about to acquire the free lock has a continuation that pools its session with the path widened |
| `Migrations.CleanupCanKeepTheLock` | src/postgres/migrate.ts:275-283 | one that pools it with the lock, which no other session can then be granted |
| `Migrations.CleanupCanKeepTheTransaction` | src/postgres/migrate.ts:57-67 | and one that pools it inside an aborted transaction |
| `Migrations.LostUntilASessionEnds` | src/postgres/migrate.ts:193-232 | once a session is pooled with the lock, in every run until a session ends some session holds it more often than it will be unlocked and no other can be granted it, reuse of the session included |
| `Migrations.LateErrorLeaksTheLock` | src/postgres/migrate.ts:217-232 | whatever the timeouts, every run that ends with a runner about to acquire the free lock has a continuation in which an error at the grant pools the session with the lock and blocks all other sessions |
| `Migrations.FinishedMeansComplete` | src/postgres/migrate.ts:258-267 | a runner that finishes its loop leaves the whole lineage applied |
| `Migrations.RunnerCanComplete` | src/postgres/migrate.ts:237-267 | every runner about to acquire the free lock can go on to apply the whole lineage |
| `Migrations.Session.RunBody` | src/postgres/migrate.ts:57-67 | body and record commit together or not at all |
| `Migrations.Session.RunBodies` | src/postgres/migrate.ts:240-267 | bootstrap and loop apply exactly the missing suffix, stopping at the first failing body |
| `Migrations.Session.RunMigrationsImpl` | src/postgres/migrate.ts:181-284 | succeeds exactly when nothing fails, and then all is applied; what is left on the session is exactly what a cancelled cleanup should have undone and the lock of a late grant |

## Left out

- The node RPC and indexer clients, the sync command line, the bootstrap and the WASM replay decoder: network and foreign calls; node and indexer are functions of height.
- Error classes, their translation and retryability, options validation, abort pre-checks: one branch settles each.
- `createClient`, the durability probe, the wallet-state envelope, `listKeys` streaming, fillfactor and index choices.
- SHA-256, calendar arithmetic, JSON and SQL parsing: parameters and hypotheses stated above.
- `withTransaction`'s handle registry and `withLease`, which wraps the modelled acquire and release.
- Liveness: that a prune eventually reclaims every unused chunk, that a contender eventually gets its lease.
- Labels, creation times and the byte count that `prune` returns; one save per transaction in the checkpoint protocol (a caller may put several into one).
- The cursor result is about one cursor whose every write comes from `saveAndAdvance` for that wallet, as `Disciplined` says.
- Cleanup statements that fail on a live session for a reason other than a statement timeout (an operator's cancel, exhausted memory): they could leave the same things behind as a timeout does.
- Signed zero: a JavaScript number -0 is stored as 0, so the codec's numbers are taken modulo the sign of zero; and a stored number is the double that parsing its JSON text yields, not the text.
- The sync model has one network and no other writer of its archive rows; transaction hashes are distinct within a block. Roles of blobs are in `BlobRoles` only.
- Verifier-key observations, which the sync never writes.
- The rollover runs without concurrent writers, as its own documentation demands; partition suffix syntax and identifier quoting are not modelled.
- CheckpointStore.PgCheckpointStore.LoadImpl: the chosen manifest and the ordered join are parameters constrained by the tables, because SQL evaluation is not modelled.
- CheckpointStore.PgCheckpointStore.PruneImpl: the result of the OFFSET/LIMIT subquery is a parameter constrained by `NthNewest`, for the same reason.
