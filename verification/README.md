# MotorCove in Dafny: an index that always equals a replay, and the crash protocols around it

MotorCove indexes the sales, payment claims and token transfers of an escrow contract into SQLite, repairs and
reindexes that database under a durable maintenance marker, restores backups by swapping files, seeds a chain
through a journal, and keeps a journal of wallet requests in the browser's local storage, shared by all tabs. This
project models these parts and proves that they keep what they are for.

* **The index.** `ProjectionStore` is the SQLite store as a class: its methods insert, update and delete rows inside
  all-or-nothing transactions, and each is proved against an operation on values in `JournalDatabase`. `Ledger` says
  what the rows mean: an archive of every block ever scanned and the chain of canonical ones. `CommitLedger` and
  `RebuildLedger` show that commits append to that chain, rewinds truncate it and rebuilds replay it. `Convergence`
  puts them together over whole runs. `ProjectionTables`, `EntityReplay` and `Lifecycle` are about the fold of events
  itself. `FundingObservation` relates what the read model says of one log to the history.
* **Ingestion.** `IngestRange` is one polling pass, with its bisection, continuity checks and anchor re-read, over the
  reader of `ChainAccess`, whose every answer may differ from call to call, fail, or be the last thing the process sees.
  `CatchUp` repeats it up to a target. `SteadyChain` and `Confluence` say what a chain that does not change leads to.
* **Maintenance.** `Maintenance` and `Reindex` are the marker, the recovery barrier and the reindex command, with a
  crash point before every durable write and at every chain read. `Restore` is the file swap and its recovery.
  `SeedJournal` is the seeding journal, over any sequence of process runs.
* **Wallet requests.** `TransactionJournal` and `LocalStorageJournal` are the shared journal with each tab's overlay;
  while a tab waits for the write lock other tabs write arbitrarily. `WalletSubmission` records what came of a request.
  `SubmissionProtocol` lets any number of attempts, writers and tab deaths interleave and asks when a wallet may be asked
  a second time for one intent. `SubmissionAttempt` is one attempt and `JournalRecovery` the recovery of an entry; the
  writes of both are shown to be writes of the protocol.
* **Text.** `Decimal`, `Uint256Text` and `EthAmount` are the three forms of uint256 text and the ETH amounts.

How to read the contracts:

* A state change is a method with its whole new state in `ensures`; crashes are ordinary outcomes of a method, so what
  holds after a crash is part of its contract. Chain answers, write failures, deaths and other tabs' writes are
  arbitrary functions of the moment of a call.
* `Represents(db, l, scanStart)` ties block rows, journal and checkpoint to a ledger; `Agrees` adds replay agreement,
  that the three tables are the fold of the canonical journal from empty.
* A query with ORDER BY is any listing of the selected rows in that order; rows that tie may come in any order.
* `Went(storage, a, b)` says that between two moments the writes a tab's journal logged, each with its full effect, and
  other tabs' writes are all that changed storage and overlay.
* `Faithful` is a reader whose reads may fail but answer from one chain; `Responsive` one that from now on answers
  every read from it.

What is assumed: `getBlock(n)` returns a block numbered n; a block hash fixes its header, but its logs only where a
contract says so (`LogsFixed`, and `AddedFrom` for what a reindex added); fetched events have distinct block hash and
log index pairs; digests are injective and hex text is lower-case where it is stored; locks are exclusive and released
on death; random ids are new; while a marker exists the indexer does not run; a file rename and a marker write are
atomic and durable; every stored journal has its deployment's entries only.

## Model

| member | source | states |
|---|---|---|
| ProjectionTables.ReplayAppend | apps/indexer/src/adapters/sqlite/sqlite-projection-store.ts:735-871 | replaying a journal in two parts is replaying it whole, errors included |
| EntityReplay.StepTouchesOneRow | apps/indexer/src/adapters/sqlite/sqlite-projection-store.ts:735-871 | an event is accepted exactly when the row of its own sale, claim or token accepts it, and every other row stays as it was |
| EntityReplay.AcceptedReplayIsRowwise | apps/indexer/src/adapters/sqlite/sqlite-projection-store.ts:735-871 | an accepted journal leaves in each row what that entity's own events leave there |
| EntityReplay.ReplaySplitsByEntity | apps/indexer/src/adapters/sqlite/sqlite-projection-store.ts:735-871 | a journal is accepted if and only if each entity's own subsequence is accepted, and then each row depends on that subsequence alone |
| EntityReplay.ReorderingPreservesReplay | apps/indexer/src/adapters/sqlite/sqlite-projection-store.ts:735-871 | any reordering that keeps each entity's order is accepted alike and gives the same tables |
| Lifecycle.UpsertsStoreProjectorOutput | apps/indexer/src/adapters/sqlite/sqlite-projection-store.ts:785-868 | the upserts that write only mutable columns store exactly what the projectors return |
| Lifecycle.StepKeepsSound | apps/indexer/src/domain/projectors/sale-projector.ts:17-75 | one accepted event keeps every sale and claim row sound |
| Lifecycle.ReplayKeepsSound | apps/indexer/src/domain/projectors/sale-projector.ts:17-75 | in every accepted stream buyer and deadlines are set exactly in FUNDED, COMPLETED and EXPIRED, the buyer is the reserved buyer, reclaimed implies CANCELLED or EXPIRED, and a claim is withdrawn exactly when its withdrawal is recorded |
| Lifecycle.StepConservesClaims | apps/indexer/src/domain/projectors/payment-projector.ts:12-46 | one event changes the claimable total by what it creates minus what it withdraws |
| Lifecycle.ClaimsAreConserved | apps/indexer/src/domain/projectors/payment-projector.ts:12-46 | over every accepted stream, claimable value plus withdrawn value equals what was claimable before plus what was created |
| ProjectionStore.Store.Open | apps/indexer/src/adapters/sqlite/sqlite-projection-store.ts:73-100 | opens exactly for the current projector version and log scope, or for what maintenance allows; says whether the source scope changed |
| ProjectionStore.Store.ReadCheckpoint | apps/indexer/src/adapters/sqlite/sqlite-projection-store.ts:102-125 | the last scanned header, or an error exactly when its block row is not canonical and complete |
| ProjectionStore.Store.ApplyEvent | apps/indexer/src/adapters/sqlite/sqlite-projection-store.ts:735-871 | the statements on the three tables do what the fold of one event does, or report its error |
| ProjectionStore.Store.RecordEvent | apps/indexer/src/adapters/sqlite/sqlite-projection-store.ts:679-733 | inserts and applies a new event; an existing one must be identical and is applied only when its block became canonical again |
| ProjectionStore.Store.StoreHeader | apps/indexer/src/adapters/sqlite/sqlite-projection-store.ts:206-262 | inserts a canonical block row or revives an identical orphaned one; different content or a taken height is an error |
| ProjectionStore.Store.WriteBatch | apps/indexer/src/adapters/sqlite/sqlite-projection-store.ts:191-292 | the loop over headers and then events writes what the transaction specifies, up to its first error |
| ProjectionStore.Store.Commit | apps/indexer/src/adapters/sqlite/sqlite-projection-store.ts:191-305 | all or nothing; a missing prerequisite rolls back and raises the recovery barrier |
| ProjectionStore.Store.FindPrevious | apps/indexer/src/adapters/sqlite/sqlite-projection-store.ts:436-444 | the highest canonical completed block below a height, or none exactly when there is none |
| ProjectionStore.Store.RewindFrom | apps/indexer/src/adapters/sqlite/sqlite-projection-store.ts:428-459 | orphans every block from a height on and moves the checkpoint to the highest remaining one |
| ProjectionStore.Store.QueryJournal | apps/indexer/src/adapters/sqlite/sqlite-projection-store.ts:325-337 | lists exactly the canonical journal rows, none before an earlier one |
| ProjectionStore.Store.HasSourceContentMismatch | apps/indexer/src/adapters/sqlite/sqlite-projection-store.ts:493-568 | true if and only if a row no longer matches its digests or a completed block holds other logs than observed |
| ProjectionStore.Store.PrepareForReindex | apps/indexer/src/adapters/sqlite/sqlite-projection-store.ts:465-491 | rewinds, or deletes the archived source when it must be fetched anew; each refusal leaves the database as it was |
| ProjectionStore.Store.VerifyRebuildSource | apps/indexer/src/adapters/sqlite/sqlite-projection-store.ts:570-677 | accepts if and only if the canonical blocks run unbroken from the scan start to the checkpoint, each with the full evidence of its logs |
| ProjectionStore.Store.ReplaceProjections | apps/indexer/src/adapters/sqlite/sqlite-projection-store.ts:320-397 | the rebuild transaction equals replaying the listed rows into empty tables, or rolls back and marks the failure |
| ProjectionStore.Store.RebuildFromJournal | apps/indexer/src/adapters/sqlite/sqlite-projection-store.ts:307-398 | verifies the source, then replays the canonical journal; the barrier survives a reindex |
| ProjectionStore.Store.CompleteReindexRecovery | apps/indexer/src/adapters/sqlite/sqlite-projection-store.ts:169-189 | clears the barrier only for a reindex whose target is canonical and reached |
| CommitLedger.StoreBatchHeaders | apps/indexer/src/adapters/sqlite/sqlite-projection-store.ts:206-262 | the header stage of a commit succeeds exactly when blocks scanned before show the same log envelopes, and revives exactly those |
| CommitLedger.RecordBatch | apps/indexer/src/adapters/sqlite/sqlite-projection-store.ts:679-733 | the event stage succeeds exactly when known blocks show identical events and the projectors accept the batch |
| CommitLedger.CommitExtendsLedger | apps/indexer/src/adapters/sqlite/sqlite-projection-store.ts:191-305 | a commit succeeds if and only if no barrier stands in its way, known blocks show their old content and the projectors accept the events; it then appends the batch to the canonical history |
| CommitLedger.CommitKeepsAgreement | apps/indexer/src/adapters/sqlite/sqlite-projection-store.ts:191-305 | replay agreement survives every successful commit |
| RebuildLedger.RewindTruncates | apps/indexer/src/adapters/sqlite/sqlite-projection-store.ts:428-459 | a rewind keeps exactly the canonical blocks below the height, and orphaned blocks stay archived |
| RebuildLedger.JournalQuery | apps/indexer/src/adapters/sqlite/sqlite-projection-store.ts:325-337 | the journal query returns the canonical history's events in one order only |
| RebuildLedger.RepresentedSourceIsComplete | apps/indexer/src/adapters/sqlite/sqlite-projection-store.ts:570-677 | the source verification accepts every state commits and rewinds can reach |
| RebuildLedger.RepresentedSourceMatches | apps/indexer/src/adapters/sqlite/sqlite-projection-store.ts:493-568 | no such state asks for its source to be fetched anew while the log scope is unchanged |
| RebuildLedger.RebuildRestoresAgreement | apps/indexer/src/adapters/sqlite/sqlite-projection-store.ts:307-398 | a rebuild succeeds exactly when the projectors accept the canonical history; it then agrees with it and changes no block, event or checkpoint |
| RebuildLedger.RebuildIsIdempotent | apps/indexer/src/adapters/sqlite/sqlite-projection-store.ts:307-398 | where the projections agree with the journal a rebuild changes no row and no checkpoint |
| RebuildLedger.RewindThenRebuildAgrees | apps/indexer/src/adapters/sqlite/sqlite-projection-store.ts:428-459 | rewinding and rebuilding always succeeds and agrees with the kept prefix |
| Convergence.RunAgrees | apps/indexer/src/adapters/sqlite/sqlite-projection-store.ts:191-398 | after any interleaving of commits, failed commits, rewinds with rebuilds, replays, deletions of the source, also under another log scope, and status updates the tables are the replay of the canonical journal |
| Convergence.AgreementIsFreshIndex | apps/indexer/src/adapters/sqlite/sqlite-projection-store.ts:191-305 | an agreeing database has the tables, the checkpoint and the canonical rows of one commit of its history into a fresh one |
| Convergence.RunEqualsFreshIndex | apps/indexer/src/adapters/sqlite/sqlite-projection-store.ts:428-459 | reorganised over any branches, also back to an orphaned one, a run ends with what a fresh index of its final history has |
| Convergence.SameHistorySameCanonicalRows | apps/indexer/src/adapters/sqlite/sqlite-projection-store.ts:206-273 | two databases of one history hold the same canonical blocks and journal rows, whatever else they orphaned |
| Convergence.RunsOfOneHistoryConverge | apps/indexer/src/adapters/sqlite/sqlite-projection-store.ts:191-292 | tables and checkpoint after a run are a function of its history alone, however it was batched |
| Convergence.CanonicalHistoryIsDense | packages/database/src/schema/chain-history.ts:32-34 | one canonical row per height from the scan start to the checkpoint and none elsewhere |
| Convergence.CanonicalHistoryIsLinked | apps/indexer/src/application/ingest-range.ts:167-180 | every canonical row above the scan start has its parent as the canonical row below |
| RecoveryBarrier.RuntimeCannotPassBarrier | apps/indexer/src/adapters/sqlite/sqlite-projection-store.ts:127-205 | behind the barrier no run of runtime operations clears it or changes blocks, events, checkpoint or tables |
| RecoveryBarrier.ReindexKeepsBarrier | apps/indexer/src/adapters/sqlite/sqlite-projection-store.ts:191-205 | a reindex store's own commits and status updates leave the barrier standing |
| RecoveryBarrier.ReindexPreparationKeepsBarrier | apps/indexer/src/adapters/sqlite/sqlite-projection-store.ts:410-426 | so do its rewind, source deletion and rebuild |
| RecoveryBarrier.OnlyReachedTargetClears | apps/indexer/src/adapters/sqlite/sqlite-projection-store.ts:169-189 | over any interleaving of rewinds, source deletions, rebuilds, commits and status updates, by the reindex and by the running indexer, a raised barrier is lifted only by a completion whose target is canonical and reached |
| RecoveryBarrier.ReachedTargetClears | apps/indexer/src/adapters/sqlite/sqlite-projection-store.ts:169-189 | and such a completion does lift it, wherever it stands in the interleaving |
| RecoveryBarrier.BarrierClearsOnlyAtTarget | apps/indexer/src/adapters/sqlite/sqlite-projection-store.ts:169-189 | completion clears the barrier if and only if the store is a reindex store and the target is canonical and reached, and touches no data |
| IngestRange.ReadProjectionTarget | apps/indexer/src/application/finality-target.ts:9-36 | a returned target is an eligible height of a head read during the call; a steady chain is always answered with its finalized height or the height the depth allows |
| IngestRange.FetchRange | apps/indexer/src/application/ingest-range.ts:129-165 | halving the range ends; what is returned is consecutive from the start, reported during the call, with the logs fetched for it then; a size limit is reported only when a single block of the range met it during the call; a steady chain yields a whole stretch of itself |
| IngestRange.FindDiscontinuity | apps/indexer/src/application/ingest-range.ts:167-198 | reports the first check that fails: continuing the checkpoint, linked inside, every log naming the block of its height |
| IngestRange.CheckCheckpoint | apps/indexer/src/application/ingest-range.ts:83-106 | passes exactly when the answer has the checkpoint's hash; a changed or missing block raises the barrier with its reason; any other read error changes nothing |
| IngestRange.Bound | apps/indexer/src/application/ingest-range.ts:115-131 | no range below the scan start, past the batch size or past the target; a checkpoint above the target raises the barrier |
| IngestRange.CheckRange | apps/indexer/src/application/ingest-range.ts:167-203 | each failing check raises the barrier with its own reason and commits nothing; otherwise the last block is read again and must be the same |
| IngestRange.PlanRange | apps/indexer/src/application/ingest-range.ts:107-128 | a planned range starts right above the checkpoint and ends within the batch size, an eligible height read during the call and the maximum target; a call for recovery always has the barrier raised |
| IngestRange.CommitRange | apps/indexer/src/application/ingest-range.ts:182-206 | a sorted range is committed as one next batch whose logs are those fetched for it in the pass, or only the status changes |
| IngestRange.IngestRange | apps/indexer/src/application/ingest-range.ts:71-212 | whatever the reader answers, a pass changes the status alone or commits one linked batch: an eligible height is read first, then blocks and logs no higher than it and the maximum target; on a steady accepted chain it commits the chain's next blocks |
| IngestRange.PassKeepsAgreement | apps/indexer/src/application/ingest-range.ts:71-212 | replay agreement survives every pass, whatever the chain answered |
| IngestRange.PassRaisesCheckpoint | apps/indexer/src/application/ingest-range.ts:204-206 | a committing pass raises the checkpoint by the number of blocks committed |
| RangeBatch.SplitFlattens | apps/indexer/src/application/ingest-range.ts:182-198 | splitting a sorted range by block and committing the parts loses no event |
| RangeBatch.CheckedRangeIsNextBatch | apps/indexer/src/application/ingest-range.ts:167-206 | a range that passed the checks is a well-formed continuation of the canonical history |
| CatchUp.CatchUp | apps/indexer/src/application/reindex-catchup.ts:3-19 | ends; returns with the checkpoint at or above the target or with an error; never commits above the target; keeps replay agreement; where a block's logs are the same whenever fetched the blocks added have those logs; a chain that does not change keeps the history on it; a steady accepted chain is caught up without error |
| CatchUp.FaithfulBatch | apps/indexer/src/application/ingest-range.ts:129-206 | blocks fetched from a chain that does not change extend its history, whichever reads failed before |
| Confluence.PassExtendsRun | apps/indexer/src/application/ingest-range.ts:71-212 | every pass, whatever the chain answered, extends a run of the index by the commit of its batch and a change of status, so what holds of runs holds of polling |
| Confluence.IndexesOfOneChainAgree | apps/indexer/src/application/ingest-range.ts:129-206 | two indexes of one chain up to one height agree in tables, checkpoint and canonical rows, and with one commit of the whole range |
| Confluence.IndexFresh | apps/indexer/src/application/ingest-range.ts:71-212 | with any batch size and any bisections a fresh index ends on the chain exactly at its target |
| Maintenance.CheckOwner | packages/database/src/maintenance/projection-operation.ts:44-80 | a marker is taken up by its own operation and owner, taken over by a reindex from the scan start after an incomplete rebuild source, and refused otherwise |
| Maintenance.Begin | packages/database/src/maintenance/projection-operation.ts:110-179 | the marker written keeps operation, backup and phase of the one resumed; a refusal writes nothing; a crash leaves the old marker or the prepared one; a database that does not open or verify leaves it FAILED, or as it was if the barrier cannot be put back |
| Maintenance.Fail | packages/database/src/maintenance/projection-operation.ts:214-229 | on an error the barrier the run met is raised again and the marker records the failure |
| Maintenance.Finish | packages/database/src/maintenance/projection-operation.ts:195-213 | the marker is removed only once a barrier the run met is discharged |
| Maintenance.RunRebuild | packages/database/src/maintenance/projection-operation.ts:90-233 | a rebuild that met a barrier ends with it discharged or raised; one not raised by the projectors is left alone; journal and checkpoint never change; with an accepted journal and no crash it completes |
| Reindex.ResolveRecovery | apps/indexer/src/application/reindex-target.ts:38-77 | a resumed target is the recorded one and was confirmed; a new one was eligible by a head read during the call, and confirmed; a steady chain is always resolved |
| Reindex.RewindCuts | apps/indexer/src/adapters/sqlite/sqlite-projection-store.ts:428-459 | a rewind, also a repeated one, leaves exactly the history to keep |
| Reindex.DeletionCuts | apps/indexer/src/adapters/sqlite/sqlite-projection-store.ts:475-491 | deleting a source that must be fetched anew leaves the empty history |
| Reindex.RebuildStartsGrowing | apps/indexer/src/application/reindex-replay.ts:6-16 | a rebuild of the cut journal makes the projections agree with the kept history |
| Reindex.RebuildKeepsGrowing | apps/indexer/src/application/reindex-replay.ts:6-16 | resumed while catching up, the unconditional rebuild changes no table and rewinds nothing |
| Reindex.CutSource | apps/indexer/src/cli/reindex.ts:95-124 | the source is archived before it is deleted and cut only once PREPARING is recorded; at every crash point the operation can resume |
| Reindex.RebuildAndRecord | apps/indexer/src/cli/reindex.ts:124-125 | rebuilds and then records CATCHING_UP; before that record a resumed run cuts again, after it the projections agree |
| Reindex.CatchUpAndComplete | apps/indexer/src/cli/reindex.ts:126-147 | completes only with the checkpoint at the target and the target canonical; the history only grows, by blocks with the known logs where logs are the same whenever fetched |
| Reindex.Attempt | packages/database/src/maintenance/projection-operation.ts:90-233 | one attempt with a crash at any durable write or read: it completes finished, or leaves a state a later attempt resumes; nothing is rewound once CATCHING_UP is recorded; a barrier it met is discharged or still raised; unhindered on a steady chain it completes |
| Reindex.RunSchedule | apps/indexer/src/cli/reindex.ts:77-148 | any number of attempts with any crash points: finished at the recorded target, or resumable, with known logs where logs are the same whenever fetched, and on a chain that does not change ready for an attempt that completes |
| Reindex.OneHistory | apps/indexer/src/cli/reindex.ts:77-148 | the kept history and the target hash determine the whole history of a finished reindex |
| Reindex.CompletedReindexesAgree | apps/indexer/src/cli/reindex.ts:77-148 | completed reindexes of one source to one target, over one version of each block's logs, end with the same tables, checkpoint, canonical rows and status, whatever crashed in between |
| FundingObservation.ObserveFunding | packages/database/src/reader/sales-reader.ts:257-391 | coverage, lookup and effect are exactly what block row, journal row and sale row say |
| FundingObservation.FundingVisible | apps/indexer/src/domain/projectors/sale-projector.ts:47-67 | in every accepted journal a funding stays visible in its sale with buyer, both deadlines and a status of FUNDED, COMPLETED or EXPIRED |
| FundingObservation.MatchedFundingIsApplied | packages/database/src/reader/sales-reader.ts:290-377 | in every state that agrees with its journal a matched funding is applied, so INCONSISTENT arises if and only if the amount is not the price or a claim exists while still FUNDED |
| FundingObservation.LookupIsComplete | packages/database/src/reader/sales-reader.ts:318-350 | for a scanned block the looked-up log exists exactly when the history has it |
| FundingObservation.ScannedIsCanonicalHistory | packages/database/src/reader/sales-reader.ts:284-300 | a block is reported as scanned if and only if it is the history's block at its height |
| TransactionJournal.WriteIsCompareAndSwap | apps/web/src/integrations/persistence/local-storage-journal.ts:185-280 | each durable write replaces exactly revision r by r + 1, keeps every other operation and keeps ids unique |
| TransactionJournal.StaleViewErasesNoEvidence | apps/web/src/integrations/persistence/local-storage-journal.ts:42-63 | a write that is not based on the current revision only ever adds evidence to an entry of the same intent that has none |
| TransactionJournal.RevisionCountsWrites | apps/web/src/integrations/persistence/local-storage-journal.ts:185-280 | over any run of writes by any tabs an operation's revision counts its accepted writes, and no entry disappears |
| TransactionJournal.OneWriterPerRevision | apps/web/src/integrations/persistence/local-storage-journal.ts:185-291 | of two writers on one revision the second succeeds only as a retry that adds the first evidence |
| LocalStorageJournal.Journal.Load | apps/web/src/integrations/persistence/local-storage-journal.ts:93-165 | shows the durable entries under the overlay, or the overlay alone when storage cannot be read |
| LocalStorageJournal.Journal.Save | apps/web/src/integrations/persistence/local-storage-journal.ts:185-232 | writes the overlay while an operation is volatile and compares and swaps otherwise; a failure writes nothing |
| LocalStorageJournal.Journal.RetryDurableSave | apps/web/src/integrations/persistence/local-storage-journal.ts:234-280 | makes a volatile entry durable and drops it from the overlay, or leaves both as they were |
| LocalStorageJournal.Journal.SaveVolatile | apps/web/src/integrations/persistence/local-storage-journal.ts:282-291 | stores the entry one revision up and remembers the first revision it was made on |
| WalletSubmission.LockMatchesCheck | apps/web/src/capabilities/transactions/submit-operation.ts:363-376 | an attempt's recorded intent matches another's if and only if both contend for one submission lock |
| WalletSubmission.MergeWalletOutcome | apps/web/src/capabilities/transactions/submit-operation.ts:142-160 | an outcome never takes evidence away, and an entry with evidence keeps its status |
| WalletSubmission.PersistReturnedHash | apps/web/src/capabilities/transactions/submit-operation.ts:85-119 | success means the entry shown for the operation carries the returned hash; it writes nothing but the submission, or its hash on top of a version that has none; no write replaces a version with a different hash; undisturbed it succeeds exactly where the submission is current or the version shown may take its hash |
| WalletSubmission.PersistWalletOutcome | apps/web/src/capabilities/transactions/submit-operation.ts:162-193 | after at most three tries the outcome is shown, merged into a version of this very wallet request with that version's evidence, or the overlay is untouched; every write is of that outcome; undisturbed it is stored durably |
| SubmissionAttempt.SubmitOwnedOperation | apps/web/src/capabilities/transactions/submit-operation.ts:195-345 | up to the wallet request every step, whatever other tabs wrote before it, is an enabled step of the submission protocol with the protocol's effect; the wallet is asked at most once, durably AWAITING_WALLET and with every check passed; each step is one logged write, and nothing but these and other tabs changed the journal; every write after the request is of the wallet's answer, over a version of this very request, and an enabled step too, as long as other tabs keep the intent; the result tells the answer; it ends as unresolved exactly if an unresolved attempt was visible, and a failure reports the first check that failed; unhindered it asks |
| SubmissionAttempt.CallEffect | apps/web/src/integrations/persistence/local-storage-journal.ts:185-291 | each write a journal makes, a save, a retry or an overlay write, from the journal it finds under its lock, is the write of the protocol in every state over that journal |
| SubmissionAttempt.CallIsWrite | apps/web/src/integrations/persistence/local-storage-journal.ts:185-291 | a write of a saved version of an operation is an enabled step of the protocol with that effect, in every state that knows the operation |
| SubmissionAttempt.ReachableIsInOrder | apps/web/src/integrations/persistence/local-storage-journal.ts:93-165 | in every state of every run what a tab holds of a known operation are saved versions with its intent |
| SubmissionProtocol.NamedIsSameIntent | apps/web/src/capabilities/transactions/submit-operation.ts:55-72 | the comparison of intents in the protocol is the code's own, up to the case of hex text |
| SubmissionProtocol.ClearedIsUnopposed | apps/web/src/capabilities/transactions/submit-operation.ts:200-203 | a passed check of a readable journal means every earlier asker of this intent was recorded as given up |
| SubmissionProtocol.AwaitIsDurable | apps/web/src/capabilities/transactions/submit-operation.ts:251-257 | the save that lets the wallet be asked is durable: a volatile version of the attempt makes it fail |
| SubmissionProtocol.StepKeepsInv | apps/web/src/integrations/persistence/local-storage-journal.ts:185-291 | every step of every tab, recovery writer and tab death keeps the protocol's invariant |
| SubmissionProtocol.SubmissionIsSafe | apps/web/src/capabilities/transactions/submit-operation.ts:378-390 | in every run two requests for one intent come from different attempts, the earlier one recorded as given up before the later request if the later attempt could read the journal when it checked |
| SubmissionProtocol.BlindCheckRepeats | apps/web/src/capabilities/transactions/submit-operation.ts:200-203 | the condition is exact: from every state of every run in which an asker of the intent was not given up and its lock is free, a new attempt whose check cannot read the journal, and whose next writes work, asks again |
| SubmissionProtocol.BlindCheckCanRepeat | apps/web/src/capabilities/transactions/submit-operation.ts:200-203 | such a run exists |
| SubmissionProtocol.GivenUpWasRecorded | apps/web/src/capabilities/transactions/submit-operation.ts:74-83 | an attempt counts as given up only if an entry with such a status was recorded, durably or in an overlay |
| JournalRecovery.Update | apps/web/src/capabilities/transactions/recovery.ts:102-133 | writes new values, every field of them, over the version the tab shows, and nothing when a newer verification has taken the entry over; once applied the entry is what the tab shows; undisturbed it is applied, and a volatile entry becomes durable again |
| JournalRecovery.WriteBack | apps/web/src/capabilities/transactions/recovery.ts:117-132 | tries a durable write first, the overlay only if storage fails, and writes nothing else; on success every field it was given is in the entry the tab then shows; each write is of a saved version of the operation with its intent |
| JournalRecovery.RecoveryWritesFinally | apps/web/src/capabilities/transactions/recovery.ts:135-438 | every write of a recovery stores one of its updates over the version that update took, and gives the intent up only where the inspection found the transaction reverted or replaced, or where it was given up before |
| JournalRecovery.ResumeJournalEntry | apps/web/src/capabilities/transactions/recovery.ts:135-438 | all it does to the journal are its updates, in order: the marking of the version shown, the inspection's result over a version of this very verification, and what was observed of the projection; what it reports as verified or observed is stored, every field of it, and shown; it does not report otherwise than these updates say; every write gives the intent up only for a reverted or replaced transaction and is an enabled step of the submission protocol, as long as other tabs keep the intent; REFLECTED needs a funding with its event, proved finality where it can be observed, and a matched and consistent observation, which is then stored; undisturbed it is never superseded |
| SeedJournal.ChainSeedJournal.Open | apps/indexer/src/cli/chain-seed-journal.ts:73-100 | reopens a journal of the same identity with its recorded deployment id, or saves a new one |
| SeedJournal.ChainSeedJournal.SubmitNew | apps/indexer/src/cli/chain-seed-journal.ts:115-154 | submits only once PREPARED is in the file, and returns only once the hash is |
| SeedJournal.ChainSeedJournal.Confirm | apps/indexer/src/cli/chain-seed-journal.ts:167-192 | returns only a successful receipt that agrees with the recorded one |
| SeedJournal.ChainSeedJournal.Transaction | apps/indexer/src/cli/chain-seed-journal.ts:106-193 | a step the file knows is never submitted again, one it holds as UNKNOWN never succeeds, and a stored receipt is never contradicted; without failures an open step returns its receipt |
| SeedJournal.NextSuccess | apps/indexer/src/cli/chain-seed-journal.ts:168-189 | a further success keeps the log of successes stable |
| SeedJournal.RunProcesses | apps/indexer/src/cli/chain-seed-journal.ts:106-201 | over any process runs, save failures and deaths each step is submitted at most once and, once its receipt is stored, every later success agrees with it |
| Restore.GenerationsNeverMix | packages/database/src/maintenance/restore.ts:139-148 | no two active files ever belong to different databases |
| Restore.RecoveryIsNeverStuck | packages/database/src/maintenance/recovery.ts:157-174 | recovery always has a complete file set to go forward or back to, and the ambiguous case cannot arise |
| Restore.InstallSnapshot | packages/database/src/maintenance/restore.ts:146-147 | the snapshot goes in only where no old file is left, and all old files are kept in quarantine |
| Restore.ReturnMain | packages/database/src/maintenance/recovery.ts:44-54 | the old database comes back whole, its main file last |
| Restore.Disk.RestoreEnvironment | packages/database/src/maintenance/restore.ts:71-165 | however it ends the files are sound; when it completes the snapshot stands alone; it completes when every check passes and no file operation fails |
| Restore.Disk.RecoverEnvironment | packages/database/src/maintenance/recovery.ts:157-181 | however it ends the files are sound; it goes forward to a staged snapshot, else back to the old database, and completes when no file operation fails |
| Restore.RestoreAndRecover | packages/database/src/maintenance/recovery.ts:56-185 | for every crash of the restore and of any recoveries after it, once no marker is left the files are the whole old database or the snapshot without old sidecars |
| Uint256Text.MaxTextIsMax | packages/database/src/schema/shared.ts:9-9 | the bound the SQL constraint spells is 2^256 - 1 |
| Uint256Text.SqlAgreesWithApi | packages/database/src/schema/shared.ts:3-10 | the SQL check accepts exactly the canonical decimals up to 2^256 - 1, as the API does, and its positive form exactly what the positive codec accepts |
| Uint256Text.CodecAgreesWithApi | packages/api-contracts/src/index.ts:3-10 | codec and API accept the same text, with its value |
| Uint256Text.WrittenTextIsAccepted | packages/database/src/codecs/uint256.ts:11-15 | what the codec writes every check accepts and it reads back |
| Uint256Text.AcceptedTextIsWritten | packages/database/src/codecs/uint256.ts:4-15 | an accepted text is the one the codec writes for its number |
| Uint256Text.ListingOrderIsNumeric | packages/database/src/reader/sales-reader.ts:249-249 | ordering by length and then text is numeric order on stored ids |
| EthAmount.PrintThenParse | apps/web/src/features/trading/model/amount.ts:1-20 | for every wei above zero the printed number parses to the same wei |
| EthAmount.FormatThenParse | apps/web/src/features/trading/model/amount.ts:12-20 | what is shown for an amount above zero parses to it again without its unit; exactly negative amounts are refused |
| EthAmount.ParseThenPrint | apps/web/src/features/trading/model/amount.ts:1-20 | a parsed amount prints as itself without trailing fraction zeros |
| EthAmount.SameAmountSameText | apps/web/src/features/trading/model/amount.ts:1-8 | two entered prices are one amount exactly when they differ in trailing fraction zeros only |
| EthAmount.ZeroIsRefused | apps/web/src/features/trading/model/amount.ts:1-8 | zero prints as an amount that is not a price |

## Left out

- React components, hooks, HTTP routes, RPC decoding, provider probes, source audit, bootstrap, reset, migrations, schema fingerprints, backup manifests, catalog and managed nodes: file checks, wrappers and single-branch guards.
- Wall clocks, heartbeats, lag and head columns, projection build counts and the error texts: they decide nothing modelled here.
- Rows whose stored JSON cannot be parsed, and database CHECK constraints other than positive prices and amounts, the canonical-height index and the primary keys.
- The collection address column of sales, which is one constant per deployment, and more than one deployment per database or storage.
- The ceiling of 2^53 on block numbers and timestamps; numbers are unbounded except in the uint256 text and the funding selector.
- Fault hooks of the commit transaction; failing statements are covered by all-or-nothing.
- IngestRange.ReadHeaders: reads headers one after another, where the code keeps up to eight reads in flight; the reader's answers are arbitrary either way.
- Reindex.ResolveRecovery: reports a transport failure of the target read under its ingest name, where the code rethrows it raw.
- Between a rewind or source deletion and the rebuild that follows, the tables are deliberately stale; agreement is stated outside that window.
- Reindex.Attempt: the completion clause needs a steady chain, settings that reach the target and projectors that accept the chain; a target recorded below the scan start can never be completed by the code, so eligible heights are taken to be at or above it.
- Progress of a reindex over a chain that reorganises while it runs: the code may then keep failing with a wrong branch above the cut until a new operation cuts lower.
- Convergence: rows of orphaned blocks stay stored and may differ between two databases of one history; only canonical rows are claimed equal.
- Opening SQLite after a restore: which sidecars it makes, or leaves beside the snapshot, is arbitrary, but they belong to the database it opened.
- Restore.Disk.StageSnapshot: creating and removing directories is folded into the file operations beside it.
- SubmissionAttempt.SubmitOwnedOperation: writers of the same tab act between its steps only in SubmissionProtocol, where every interleaving is covered; the method itself meets other tabs.
- LocalStorageJournal.LocalStorage.Read: the entries of a storage are its valid ones, so text that is no list at all is damaged storage without entries; storage neither becomes damaged nor is it repaired while a method runs.
- LocalStorageJournal.Journal.RetryDurableSave: a volatile update made in the same tab while it waits for the lock is not kept apart; the code does not keep it either.
- One owning attempt per intent after recovery has moved a given-up entry back to an owning status: the code allows a second one by then, and so does the model.
- JournalRecovery.ResumeJournalEntry: what the chain and the read model answer are parameters; writers of the same tab do not act between its writes.
- Timestamps, nonces and display fields of journal entries, and entries of other deployments in the overlay.
- SeedJournal.ChainSeedJournal.Transaction: a success returned from memory after its save had failed is not yet stored, and a later process may record another receipt; stability is claimed from the moment a receipt is in the file.
- The escrow contract: nothing is assumed of the order of its events, so the projectors' own errors stay in the model.
