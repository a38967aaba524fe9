# Verified model of the knowledge vault service

This project models the parts of the service that change state step by step and must agree with a
simple specification, and proves that they do, or says exactly when they do.

| files | what they model |
|---|---|
| `ProjectionModel`, `ProjectionSafety`, `ProjectionAgreement`, `ProjectionHistory`, `ProjectionBatch`, `ProjectionProgress`, `ProjectionWitness`, `ProjectionStore`, `ProjectionService` | the projection outbox that keeps the vector collection in step with PostgreSQL's current chunks |
| `Resolution`, `ResolutionOrder`, `ResolutionStore` | entity resolution over strong identifiers, whose specification is connected components |
| `ScanModel`, `Scanner`, `IngestModel`, `IngestSteps`, `IngestStore`, `IngestHistory`, `IngestRetention`, `IngestService` | the vault scan, its difference and its application to file states, documents and versions |
| `MarkdownBlocks`, `MarkdownReading`, `MarkdownSections`, `MarkdownTree`, `Chunker`, `ChunkProperties`, `MarkdownDocument`, `Evidence`, `DocumentContext` | Markdown blocks, the section tree, chunks, and the readers that rely on their character spans |
| `JobModel`, `JobHistory`, `JobQueue` | the durable job queue with leases, any number of workers, and one worker's cycle |
| `Fusion`, `GraphRetrieval`, `RetrievalChannels`, `Phase5Retrieval` | rank fusion, graph expansion, what is admissible, and the best of it |
| `Options`, `Collections`, `Backoff` | what several of them share |

The layout is the same throughout. A module of values gives each transaction as a function or a
relation and states invariants over every history. A class then has the source's own loops and field
updates, and its methods' contracts tie each call to those values. In `ProjectionService` and
`JobQueue` the object also carries a ghost history that every step extends, so that the theorems
about histories speak about what the methods do.

## How outside effects enter

- The external vector writes and deletes may fail, and may fail after having had part of their
  effect; the process may crash between any two steps; PostgreSQL's chunks may change at any time.
- How each external call and transaction of a projection run ends, and what each look at its clock shows, is
  a script that the service consumes; which texts can be read and parsed is a parameter of the ingest service.
- The job queue's clock readings, handler results and reading errors are arbitrary.
- Hashes and ids derived from names are injective by construction (a version id is its document and
  hash); a fresh document id is any unused number.
- The regular expressions of the Markdown scan are arbitrary predicates on a line's text.
- Relative paths are never empty, the listing of a vault has no two paths with one key, and the
  states a scan compares with are the stored ones.
- Search results, the graph's raw paths and the hydrated evidence are inputs of the retrieval steps;
  scores are real numbers.

## Results about the code

These follow the code where it does less than one would expect. Each is a lemma, with the exact
condition under which the code does meet the expectation where there is one.

- A completed projection run does not always end with exactly the current chunks. `AgreesExactlyWhen`
  gives the condition in the state in which the run starts: no current chunk has a delete outstanding,
  each has a point or will be written, and each stale point can be removed. If it fails, some completed
  run from that state disagrees (`EveryRunAgreesExactlyWhen`).
  - A chunk id that leaves and returns with its old generation, as when a file is reverted, is not
    written again, because its upsert key was used: it stays missing until a rebuild or a new generation
    (`ReturnedChunkStaysMissing`, history `RevertedChunkIsLost`). Version ids of the ingest side do
    return in this way (`IngestHistory.RevertBringsBackTheVersion`).
  - If it returns before its delete is drained, the next run erases the point of the current chunk
    (`CurrentChunkIsErased`, history `EarlyRevertErasesCurrentChunk`).
  - If the run also writes that chunk, as a full rebuild does, the order of the claims decides: a batch
    writes before it deletes, so the point is lost when both rows are in one batch and kept when the
    delete is claimed first (`ClaimOrderDecides`). Otherwise a full rebuild ends in agreement
    (`CompletedRebuildAgrees`).
  - A chunk that leaves a second time keeps its point, because its delete key was used
    (`SecondDepartureKeepsStalePoint`, history `StalePointIsKept`).
  - A rebuild that crashes after deleting the collection and before enqueueing leaves an empty
    collection that incremental runs accept (`CrashedRebuildLeavesEmptyCollection`, history
    `CrashedRebuildIsNotRepaired`).
- An outbox row without attempts left blocks every later run, whether its last attempt failed or ended
  in a crash, which leaves it `processing` and never claimed again (`ExhaustedRowBlocksEveryLaterRun`,
  history `FiveCrashesBlockEveryRun`). While every outstanding row has attempts left, draining can
  complete (`CanDrainExactlyWhen`).
- Text of a removed file is gone unless the file's document still awaited parsing when the scan
  removed it and that parse then succeeds; then the text stays (`RemovedTextIsGoneExactlyWhen`,
  `RemovedTextStays`, history `RemovedTextCanStay`). A scan decides which other documents to parse by the
  document rows from before it, since sessions do not flush by themselves
  (src/graphrag_service/adapters/postgres/session.py:23): the document of a removed file is scheduled
  exactly if it awaited parsing before (`RemovedIsScheduledExactlyWhen`).
- A path whose file was deleted, or once unreadable, cannot come back: its retired document keeps the
  unique path key, so every later scan that sees a file there aborts as a whole
  (`DeletionOrphansTheKey`, `OrphanedKeyBlocksEveryScan`). `ApplyScan` states when a scan commits.
- A renamed document that still awaits parsing is scheduled under its old path (`ApplyScan` gives the
  exact set).
- An ambiguous rename counts on both sides as new and as deleted (`VaultScanner.Scan`).
- The grouping of entities depends on the order of the candidates unless sharing an identifier is
  transitive on them (`OrderNeverMattersExactlyWhen`, `OrderMattersWithADeferral`).
- A fence that opens on the last line is not flagged as unclosed (`UnclosedFenceFlaggedExactlyWhen`).
- A quote that occurs once is located whatever occurrence was asked for (`LocateExactEvidence`).
- With negative semantic scores there is never a consensus (`ConsensusOfTheBest`).

## Model

| member | source | states |
|---|---|---|
| `ProjectionSafety.EveryPointIsTracked` | src/graphrag_service/adapters/postgres/projection_store.py:217-250 | in every reachable state, crashes between any two steps included, each point of the collection has a status row other than "deleted" or an outstanding outbox row |
| `ProjectionSafety.SoundAlways` | src/graphrag_service/adapters/postgres/projection_store.py:262-295 | in every history each pending row has attempts left, the worker only holds rows it leased, and what it is about to confirm as deleted is no longer in the collection |
| `ProjectionSafety.DrainKeepsSound` | src/graphrag_service/application/projection.py:71-91 | each step of the drain loop (claim, write, confirm, erase, close, fail, crash) keeps that invariant |
| `ProjectionSafety.EnqueueKeepsSound` | src/graphrag_service/adapters/postgres/projection_store.py:135-250 | an enqueue keeps it: no point loses its tracking row |
| `ProjectionProgress.ExhaustedRowBlocksEveryLaterRun` | src/graphrag_service/adapters/postgres/projection_store.py:262-295 | a row that used its last attempt without succeeding, failed or left by a crash, is outstanding in every later state, so no later run completes |
| `ProjectionProgress.CanDrainExactlyWhen` | src/graphrag_service/application/projection.py:71-98 | in every reachable state with an idle worker, draining can still complete if and only if every outstanding row has attempts left |
| `ProjectionProgress.DrainsAll` | src/graphrag_service/adapters/postgres/projection_store.py:262-295 | constructs that completion: one batch takes all outstanding rows after their waits and leases, is written, then erased, and marked; chunks with a delete outstanding lose their points |
| `ProjectionProgress.ProcessesOne` | src/graphrag_service/application/projection.py:71-91 | one row claimed alone goes through claim, external call and mark and leaves every other row and point as it was |
| `ProjectionAgreement.DrainConservesProspect` | src/graphrag_service/application/projection.py:71-91 | whether a chunk will have a point once the outbox is drained is the same before and after every drain step, failures and crashes included, for every chunk that is not current with both a write and a delete outstanding |
| `ProjectionAgreement.EnqueueSetsProspect` | src/graphrag_service/adapters/postgres/projection_store.py:135-250 | what that is right after an enqueue, from the state before it: current chunks without an outstanding delete that have a point or a write, and points of no current chunk that nothing removes |
| `ProjectionAgreement.DrainedMeansReached` | src/graphrag_service/adapters/postgres/projection_store.py:362-380 | once nothing is outstanding the collection is exactly what was in prospect |
| `ProjectionAgreement.SegmentConserves` | src/graphrag_service/application/projection.py:60-98 | over one whole run, however it is interleaved with failures, the prospect of each such chunk stays what the enqueue made it |
| `ProjectionAgreement.CompletedRunReachesExpected` | src/graphrag_service/application/projection.py:60-98 | after a completed run from any reachable state, each chunk but those current with both a write and a delete outstanding has a point if and only if the state before the enqueue says so |
| `ProjectionAgreement.AgreesExactlyWhen` | src/graphrag_service/application/projection.py:60-98 | a completed run of a history, with no chunk to be both written and deleted, makes the collection equal to the current chunks if and only if at its start no current chunk has a delete outstanding, each has a point or will be written, and each stale point is removable |
| `ProjectionProgress.EveryRunAgreesExactlyWhen` | src/graphrag_service/application/projection.py:60-98 | from every reachable state with attempts left, all completed runs make the collection equal to the current chunks if and only if that condition holds; a chunk to be both written and deleted violates it |
| `ProjectionAgreement.CurrentChunkIsErased` | src/graphrag_service/adapters/postgres/projection_store.py:185-250 | a current chunk whose delete is outstanding and whose upsert key was used has no point after the completed run |
| `ProjectionAgreement.CompletedRebuildAgrees` | src/graphrag_service/application/projection.py:60-98 | a completed all-vault rebuild leaves exactly the current chunks for every past history, provided no outstanding delete row targets a current chunk at its start |
| `ProjectionHistory.CompletedIncrementalRunAgrees` | src/graphrag_service/application/projection.py:47-108 | over any history in which no chunk id returns, a completed all-vault run leaves exactly the current chunks; a vault-scoped one achieves this for its vault, leaves no stale point and no other vault's current point is lost |
| `ProjectionHistory.SettledAlways` | src/graphrag_service/adapters/postgres/projection_store.py:135-250 | the invariant behind it: whatever ever left has its delete row, and no current chunk has one |
| `ProjectionHistory.NeverDropped` | src/graphrag_service/application/projection.py:60-61 | without a rebuild the collection is never deleted, so incremental histories meet the theorem's condition |
| `ProjectionHistory.MissingChunkStaysMissing` | src/graphrag_service/adapters/postgres/projection_store.py:185-216 | a chunk without point and outstanding write whose upsert key was used stays so in every later state, whatever is claimed, fails, crashes or completes, until a rebuild writes it or its generation changes |
| `ProjectionHistory.ReturnedChunkStaysMissing` | src/graphrag_service/adapters/postgres/projection_store.py:185-216 | a chunk id that returns with its old generation to a drained state is missing in every later state until a rebuild writes it or its generation changes |
| `ProjectionHistory.SecondDepartureKeepsStalePoint` | src/graphrag_service/adapters/postgres/projection_store.py:217-250 | a point without outstanding rows whose delete key was used stays in every later state until its chunk is current again or the collection is deleted |
| `ProjectionHistory.CrashedRebuildLeavesEmptyCollection` | src/graphrag_service/application/projection.py:60-68 | a rebuild that crashes between deleting the collection and enqueueing is followed by a completed incremental run with an empty collection |
| `ProjectionWitness.RevertedChunkIsLost` | src/graphrag_service/adapters/postgres/projection_store.py:185-250 | from the empty tables: a chunk is written, leaves, is erased and returns; the completed run leaves it current without a point |
| `ProjectionWitness.EarlyRevertErasesCurrentChunk` | src/graphrag_service/adapters/postgres/projection_store.py:185-250 | the same with a return before the delete is drained: the collection agrees when the run starts, and the run erases the current chunk |
| `ProjectionWitness.ClaimOrderDecides` | src/graphrag_service/application/projection.py:71-91 | a full rebuild over an outstanding delete of a current chunk completes with its point when rows are claimed one by one and without it when both are in one batch |
| `ProjectionWitness.StalePointIsKept` | src/graphrag_service/adapters/postgres/projection_store.py:217-250 | from the empty tables: a chunk leaves, returns, is restored by a rebuild and leaves again; the completed run keeps its stale point |
| `ProjectionWitness.CrashedRebuildIsNotRepaired` | src/graphrag_service/application/projection.py:60-68 | from the empty tables: a rebuild crashes after deleting the collection; the next run completes with an empty collection and a current chunk |
| `ProjectionWitness.FiveCrashesBlockEveryRun` | src/graphrag_service/adapters/postgres/projection_store.py:262-295 | from the empty tables: five claims that end in a crash reach an idle state from which the outbox cannot be drained |
| `ProjectionStore.ProjectionStore.EnqueueCurrentChunks` | src/graphrag_service/adapters/postgres/projection_store.py:135-250 | the two insert loops add exactly the missing upsert and delete rows with their status rows, and count them |
| `ProjectionStore.ProjectionStore.InsertUpserts` | src/graphrag_service/adapters/postgres/projection_store.py:185-216 | inserts a row for each current chunk of the scope whose key is new, touching no status row otherwise |
| `ProjectionStore.ProjectionStore.InsertDeletes` | src/graphrag_service/adapters/postgres/projection_store.py:217-250 | inserts a delete row for each stale status whose key is new |
| `ProjectionStore.ProjectionStore.ClaimBatch` | src/graphrag_service/adapters/postgres/projection_store.py:252-360 | leases the first due rows in creation order, counts their attempts and snapshots whether each chunk is still current |
| `ProjectionStore.ProjectionStore.OutstandingCounts` | src/graphrag_service/adapters/postgres/projection_store.py:362-380 | counts exactly the pending or processing and the failed rows |
| `ProjectionStore.ProjectionStore.MarkSucceeded` | src/graphrag_service/adapters/postgres/projection_store.py:382-416 | closes a processing row and sets the status row to the written generation or to deleted; the lease owner is not checked |
| `ProjectionStore.ProjectionStore.MarkFailed` | src/graphrag_service/adapters/postgres/projection_store.py:418-454 | returns the row with its backoff or fails it when attempts are used up |
| `ProjectionService.ChunkProjectionService.ProjectUpserts` | src/graphrag_service/application/projection.py:110-137 | embeds, writes, then confirms each item; completes when every scripted answer it consumes works, and otherwise raises or crashes as an answer did; after a failed call with working marks every item of the batch is marked failed, each at its own clock reading; every step extends the history |
| `ProjectionService.ChunkProjectionService.ProjectDeletes` | src/graphrag_service/application/projection.py:139-158 | the same for deletions |
| `ProjectionService.ChunkProjectionService.ProjectBatch` | src/graphrag_service/application/projection.py:71-91 | claims one batch at one clock reading, runs its upserts before its deletes, settles exactly the batch's rows when it completes, and uses up at least one attempt |
| `ProjectionService.ChunkProjectionService.Drain` | src/graphrag_service/application/projection.py:71-91 | raises or crashes only after a scripted answer that failed or died; otherwise goes on until every row is settled, waiting, leased or out of attempts at its last clock reading, has settled exactly the rows it counts, and terminates because the attempts left strictly fall |
| `ProjectionService.ChunkProjectionService.Finish` | src/graphrag_service/application/projection.py:71-100 | drains, then raises if rows are left outstanding and switches the alias otherwise; completes exactly as Run requires |
| `ProjectionService.ClaimUsesAttempts` | src/graphrag_service/adapters/postgres/projection_store.py:262-295 | a claim of a non-empty batch strictly lowers the attempts left |
| `ProjectionService.ChunkProjectionService.Run` | src/graphrag_service/application/projection.py:47-108 | completes whenever all scripted answers it consumes work and at each clock reading every outstanding row is past its wait or lease with attempts left; raises or crashes only after an answer that did, or with rows left outstanding; when it completes, its steps form one run segment of the history, nothing is outstanding, the collection is as expected and the counts are those of the enqueued and the outstanding rows; the alias is switched only then |
| `ProjectionBatch.SplitIsBatch` | src/graphrag_service/application/projection.py:80-85 | splitting a claimed batch into writes and deletes loses and repeats no item |
| `ProjectionBatch.AllRejectedRows` | src/graphrag_service/adapters/postgres/projection_store.py:418-454 | marking a batch as failed makes each of its rows wait for its backoff from its own mark on, or fail without attempts left, and touches no other row |
| `ProjectionBatch.ClaimTakesExactly` | src/graphrag_service/adapters/postgres/projection_store.py:262-295 | a claim leases the first rows, up to its limit, that neither wait for their next attempt, nor hold a live lease, nor are settled or out of attempts; every other row stays as it is |
| `Resolution.SameEntityExactlyWhenLinked` | src/graphrag_service/adapters/postgres/resolution_store.py:127-220 | two resolved candidates are on one entity if and only if a chain of shared identifiers among resolved candidates links them, whatever was deferred |
| `Resolution.GroupingDoesNotDependOnOrder` | src/graphrag_service/adapters/postgres/resolution_store.py:127-220 | if no candidate is deferred in either order, two orders of the same candidates give the same grouping: the connected components |
| `ResolutionOrder.OrderNeverMattersExactlyWhen` | src/graphrag_service/adapters/postgres/resolution_store.py:127-220 | for every set of candidates: no order defers any, and no two orders differ in whom they resolve or how they group, if and only if sharing an identifier is transitive on the set |
| `ResolutionOrder.TransitiveDefersNone` | src/graphrag_service/adapters/postgres/resolution_store.py:147-161 | if sharing is transitive, nothing is deferred in any order |
| `ResolutionOrder.OrderDecides` | src/graphrag_service/adapters/postgres/resolution_store.py:147-161 | otherwise there are two orders, one of which defers the candidate in between and the other of which resolves it |
| `ResolutionOrder.DecisionStays` | src/graphrag_service/adapters/postgres/resolution_store.py:104-117 | what was decided stays decided whatever comes later |
| `Resolution.ReplayIsConsistent` | src/graphrag_service/adapters/postgres/resolution_store.py:127-220 | after any sequence every identifier of a resolved candidate is owned by its entity, and only theirs are owned |
| `Resolution.ResolvedKeeps` | src/graphrag_service/adapters/postgres/resolution_store.py:100-289 | one more candidate keeps that invariant |
| `Resolution.DeferredExactlyWhen` | src/graphrag_service/adapters/postgres/resolution_store.py:147-161 | a candidate is deferred if and only if it shares identifiers with two resolved candidates that are not linked |
| `Resolution.OrderMattersWithADeferral` | src/graphrag_service/adapters/postgres/resolution_store.py:147-161 | three candidates give three outcomes in one order and one entity in another: with a deferral the order matters |
| `Resolution.ResolvedEffect` | src/graphrag_service/adapters/postgres/resolution_store.py:162-220 | create, merge and defer decisions with the exact decision and owner tables |
| `Resolution.TargetsAreOldest` | src/graphrag_service/adapters/postgres/resolution_store.py:257-270 | the suggestions are the oldest other entities of the same bucket and name, at most the limit; one left out was created after all of them |
| `ResolutionStore.ResolutionStore.ResolveCandidate` | src/graphrag_service/adapters/postgres/resolution_store.py:100-289 | the transaction computes the resolved tables, returns an earlier decision unchanged, and counts the new review suggestions |
| `ResolutionStore.ResolutionStore.MatchIdentifiers` | src/graphrag_service/adapters/postgres/resolution_store.py:127-144 | the loop collects exactly the owners of the candidate's identifiers in its bucket |
| `ResolutionStore.ResolutionStore.Accept` | src/graphrag_service/adapters/postgres/resolution_store.py:193-255 | records owner rows for new identifiers only, the decision and the suggestions |
| `ResolutionStore.ResolutionStore.Suggest` | src/graphrag_service/adapters/postgres/resolution_store.py:257-289 | suggests the at most twenty oldest other entities of the same bucket and name and counts the new suggestions |
| `ResolutionStore.ResolutionStore.ResolveRun` | src/graphrag_service/application/resolution.py:13-35 | folds over the undecided candidates; every candidate ends up decided, and each count is the number of candidates so decided or of suggestions added |
| `ResolutionStore.ResolutionStore.MaterializeAssertions` | src/graphrag_service/adapters/postgres/resolution_store.py:291-374 | inserts the assertions of fully resolved relationships and the claims, each once, and counts what is new |
| `ResolutionStore.MaterializedExactly` | src/graphrag_service/adapters/postgres/resolution_store.py:322-345 | a relationship is materialized if and only if both ends are resolved, with their entities; existing assertions stay |
| `ResolutionStore.MaterializeTwice` | src/graphrag_service/adapters/postgres/resolution_store.py:342-345 | materializing again inserts nothing |
| `Scanner.VaultScanner.Scan` | src/graphrag_service/application/scanner.py:21-191 | each listed file is read if the scan is full, its key unknown or its recorded size or time another, is a failure if it then cannot be read, and otherwise keeps the recorded hash; each recorded and each found file is reported as edited, deleted, created, renamed or ambiguous by hashes alone, each change once, for every iteration order; a readable file of another size or time and another hash is reported as modified; all counters |
| `Scanner.VaultScanner.Read` | src/graphrag_service/application/scanner.py:36-82 | hashes the readable new, resized or touched files (all, when full), reports the unreadable ones and trusts the others, file by file; each count is the number of such places of the listing |
| `Scanner.VaultScanner.Renames` | src/graphrag_service/application/scanner.py:95-124 | pairs exactly the hashes with one deleted and one created file and reports the other shared ones as ambiguous |
| `Scanner.VaultScanner.Removals` | src/graphrag_service/application/scanner.py:126-142 | one deleted or ambiguous change per departed key that is not a rename |
| `Scanner.VaultScanner.Additions` | src/graphrag_service/application/scanner.py:143-159 | one created or ambiguous change per arrived key that is not a rename |
| `Scanner.VaultScanner.Modifications` | src/graphrag_service/application/scanner.py:161-173 | one modified change per kept key whose hash changed |
| `Scanner.VaultScanner.GroupByHash` | src/graphrag_service/application/scanner.py:88-93 | groups keys by hash without loss |
| `ScanModel.RenamesAreOneToOne` | src/graphrag_service/application/scanner.py:98-115 | a rename leads from one departed key to one arrived key of the same hash and back |
| `ScanModel.PairedExactlyWhen` | src/graphrag_service/application/scanner.py:98-105 | a departed and an arrived file of one hash are paired if and only if no other departed or arrived file has that hash |
| `ScanModel.OldKeyHasOneChange` | src/graphrag_service/application/scanner.py:84-173 | every previous key is the old side of exactly one change if its file is gone or edited, and of none otherwise |
| `ScanModel.NewKeyHasOneChange` | src/graphrag_service/application/scanner.py:84-173 | every current key is the new side of exactly one change if its file is new or edited, and of none otherwise |
| `ScanModel.OldFilesAreReported` | src/graphrag_service/application/scanner.py:84-173 | what is reported of a recorded file, by the hashes of the departed and arrived files: an edit, a deletion, the rename of a unique pair, or an ambiguous rename |
| `ScanModel.NewFilesAreReported` | src/graphrag_service/application/scanner.py:84-159 | what is reported of a found file: a creation, the rename of a unique pair, or an ambiguous rename |
| `ScanModel.NoChangeExactlyWhen` | src/graphrag_service/application/scanner.py:84-173 | nothing is reported if and only if the two key-to-hash maps are equal |
| `ScanModel.FilesByKey` | src/graphrag_service/application/scanner.py:36-84 | each listed file is found under its own key with the hash on disk or, same size and time and no full scan, the recorded one, or it is reported as failed; nothing else is found |
| `ScanModel.IncrementalAgreesExactlyWhen` | src/graphrag_service/application/scanner.py:36-48 | an incremental scan finds the files of a full rehash if and only if every file of recorded size and time is readable with the recorded hash; then the failures agree too |
| `IngestStore.PostgresIngestStore.ApplyScan` | src/graphrag_service/adapters/postgres/ingest_store.py:111-271 | commits if and only if no arriving key is held by a document without a file, otherwise changes nothing; on commit the whole effect on states, documents and versions and the exact set of scheduled parses: new and edited files, and earlier files whose documents awaited parsing before; a measuring scan changes nothing |
| `IngestStore.PostgresIngestStore.ApplyRenames` | src/graphrag_service/adapters/postgres/ingest_store.py:138-160 | first pass: each rename moves its file state and document to the new key |
| `IngestStore.PostgresIngestStore.ApplyOthers` | src/graphrag_service/adapters/postgres/ingest_store.py:162-229 | second pass: removed files retire their documents, new ones get fresh documents, edited ones are recorded |
| `IngestStore.PostgresIngestStore.SchedulePending` | src/graphrag_service/adapters/postgres/ingest_store.py:243-270 | schedules exactly the documents of earlier states that awaited parsing before the scan, whose rows the query reads unflushed, and are not scheduled yet |
| `IngestStore.PostgresIngestStore.DeleteDocumentSource` | src/graphrag_service/adapters/postgres/ingest_store.py:521-537 | removes the current version's rows, supersedes it and leaves the document without a version |
| `IngestStore.PostgresIngestStore.StoreDocument` | src/graphrag_service/adapters/postgres/ingest_store.py:273-417 | the version becomes ready and current, its document active, and it alone of the document has rows; the replaced one is superseded; nothing else changes |
| `IngestStore.PostgresIngestStore.MarkDocumentFailed` | src/graphrag_service/adapters/postgres/ingest_store.py:419-432 | marks the document and an existing version as failed and changes nothing else |
| `IngestHistory.CommittedScanRecordsTheFiles` | src/graphrag_service/adapters/postgres/ingest_store.py:126-241 | after a commit the file states are the scanned files by key and hash; kept and renamed files keep their document, new ones have a fresh one, no two share one |
| `IngestHistory.CommitTakesEveryFile` | src/graphrag_service/adapters/postgres/ingest_store.py:138-241 | file by file: one with its recorded hash is left as it was, an edited one's row and document take over what was found, a renamed one's document moves along, another new one gets a new active document |
| `IngestHistory.CommitRetiresTheRemoved` | src/graphrag_service/adapters/postgres/ingest_store.py:168-180 | a file that is gone and not renamed leaves a removed document without a current version, whose version is superseded and has no rows |
| `IngestHistory.CommitKeepsOtherVersions` | src/graphrag_service/adapters/postgres/ingest_store.py:126-241 | a version that does not lose its document keeps its status and its rows |
| `IngestHistory.CommitKeepsKeysUnique` | src/graphrag_service/adapters/postgres/ingest_models.py:108-112 | a commit keeps document path keys unique |
| `IngestHistory.SecondScanFindsNothing` | src/graphrag_service/application/scanner.py:36-191 | a second scan of the unchanged readable vault, no more thorough than the first, reports no change and no failure |
| `IngestHistory.TablesAlways` | src/graphrag_service/adapters/postgres/ingest_store.py:279-432 | in every history of scans, stores and failures derived rows exist exactly for current versions, a ready version is current, and file states stay in step with documents |
| `IngestHistory.SupersededTextIsGone` | src/graphrag_service/adapters/postgres/ingest_store.py:281-417 | a superseded version has no derived rows in any history |
| `IngestRetention.StepKeepsTextExactlyWhen` | src/graphrag_service/adapters/postgres/ingest_store.py:126-432 | scans and failures keep that every document with derived rows has a file state; storing a version keeps it if and only if its document has one |
| `IngestRetention.RemovedTextIsGoneExactlyWhen` | src/graphrag_service/application/ingest.py:54-97 | over any number of runs, each parsing only what its scan scheduled, no text of a removed file is left if and only if no run stored the document of a file that its own scan had removed while it still awaited parsing |
| `IngestRetention.ScheduledHasFileExactlyWhen` | src/graphrag_service/adapters/postgres/ingest_store.py:162-270 | a scheduled document has a file after the scan if and only if its file was not removed while it awaited parsing |
| `IngestRetention.RemovedTextStays` | src/graphrag_service/adapters/postgres/ingest_store.py:162-185 | once a document without a file has text, it has text in every later state, whatever is scanned, stored or fails |
| `IngestRetention.RemovedTextCanStay` | src/graphrag_service/application/ingest.py:54-97 | a history of runs in which a file is found, its parse fails, a scan misses it and schedules its document, and the parse succeeds: the document is active with a ready version and its rows but no file state |
| `IngestHistory.DeletionOrphansTheKey` | src/graphrag_service/adapters/postgres/ingest_store.py:168-180 | a removed or unreadable known file leaves its path key with a document without a file |
| `IngestHistory.OrphanedKeyBlocksEveryScan` | src/graphrag_service/adapters/postgres/ingest_models.py:108-112 | as long as every scan finds a file under such a key, no scan commits and the file states never change again |
| `IngestHistory.PendingDocumentsAreScheduled` | src/graphrag_service/adapters/postgres/ingest_store.py:243-270 | every document with a file that still awaits parsing is scheduled by a commit |
| `IngestHistory.RemovedIsScheduledExactlyWhen` | src/graphrag_service/adapters/postgres/ingest_store.py:243-270 | the document of a removed file is scheduled if and only if it awaited parsing before the scan, and then under the path that is gone |
| `IngestHistory.ScheduledExactlyWhen` | src/graphrag_service/adapters/postgres/ingest_store.py:162-270 | scheduled are exactly the files whose hash is not the recorded one, those of documents that did not exist, and recorded files of the same hash, moved or gone, whose document was in error or had no current version |
| `IngestHistory.ScheduledOnce` | src/graphrag_service/adapters/postgres/ingest_store.py:162-270 | no document is scheduled for two texts, and every scheduled document exists |
| `IngestService.VaultIngestService.Scan` | src/graphrag_service/application/ingest.py:58-123 | for any parse results: keeps the tables in order; unless it aborts or measures, the file states are the files found and every text that needs parsing is attempted: those that parse end as the ready, current version of an active document with rows, the documents of the others in error; text without a file is left if and only if a document was stored whose file was removed while it awaited parsing |
| `MarkdownBlocks.LineSpans` | src/graphrag_service/adapters/markdown/parser.py:154-165 | the lines cover the body without gap or overlap, each with at most one newline, at its end |
| `MarkdownBlocks.RunEnd` | src/graphrag_service/adapters/markdown/parser.py:235-306 | a block's continuation is the maximal run of continuing lines |
| `MarkdownBlocks.FenceEnd` | src/graphrag_service/adapters/markdown/parser.py:212-226 | a fence ends just past its first closing line or at the end of the file |
| `MarkdownBlocks.ReadBlock` | src/graphrag_service/adapters/markdown/parser.py:176-306 | the branch taken, the block's extent and whether a fence is flagged |
| `MarkdownBlocks.ScanBlocks` | src/graphrag_service/adapters/markdown/parser.py:167-307 | the scan terminates and yields the blocks and fence flags of the whole file |
| `MarkdownBlocks.ScanIsLossless` | src/graphrag_service/adapters/markdown/parser.py:167-307 | blocks are ordered disjoint runs of whole lines and every other line is blank, for any line predicates |
| `MarkdownBlocks.BlockSpans` | src/graphrag_service/adapters/markdown/parser.py:167-307 | as character spans blocks are non-empty, ordered, disjoint and inside the body |
| `MarkdownBlocks.OutsideBlocksIsBlank` | src/graphrag_service/adapters/markdown/parser.py:167-307 | every character of the body is in a block or in a blank line |
| `MarkdownBlocks.UnclosedFenceFlaggedExactlyWhen` | src/graphrag_service/adapters/markdown/parser.py:212-226 | a fence is flagged if and only if no later line closes it and it does not open on the last line |
| `MarkdownReading.ReadsExactlyWhen` | src/graphrag_service/adapters/markdown/parser.py:167-322 | the scanned blocks are the one list of blocks that reads the lines as stated on their texts: which line opens a block of which kind and heading level, where each kind ends, and that only blank lines are outside |
| `MarkdownReading.ReadsOneWay` | src/graphrag_service/adapters/markdown/parser.py:176-306 | two blocks on the same first line that read it so have the same kind, level and end |
| `MarkdownSections.BuildSections` | src/graphrag_service/adapters/markdown/parser.py:326-392 | the stack gives each section the nearest earlier one of smaller level as parent and the start of the next one of no greater level as end; each block the section opened last |
| `MarkdownSections.CloseSections` | src/graphrag_service/adapters/markdown/parser.py:357-360 | a heading closes exactly the open sections of no smaller level |
| `MarkdownSections.TopIsParent` | src/graphrag_service/adapters/markdown/parser.py:361 | what is left on top of the stack is the new section's parent |
| `MarkdownTree.SubtreeExactlyWhen` | src/graphrag_service/adapters/markdown/parser.py:333-392 | a section's descendants are exactly the sections that follow it up to the one that closes it |
| `MarkdownTree.LevelsIncreaseDownAPath` | src/graphrag_service/adapters/markdown/parser.py:357-361 | heading levels strictly increase down every path |
| `MarkdownTree.NestedOrDisjoint` | src/graphrag_service/adapters/markdown/parser.py:333-392 | two sections' ranges are nested exactly for a descendant and disjoint otherwise |
| `MarkdownTree.BlocksLieInTheirSections` | src/graphrag_service/adapters/markdown/parser.py:354-358 | every block lies in the own text of its section |
| `MarkdownTree.RangeIsSubtree` | src/graphrag_service/adapters/postgres/retrieval_store.py:173-183 | text of one section lies in another's range if and only if it is that section or a descendant |
| `MarkdownDocument.ParseAndChunk` | src/graphrag_service/application/ingest.py:79-85 | from text to chunks, in terms of the text and the grammar: lines cover the body and the blocks are their reading; every heading line outside other blocks opens a section at its start with its level, and sections nest by level; every position of the body is in a chunk or a blank line, chunks are sound, ordered, numbered, inside the body, and in each section's range exactly those of its subtree |
| `MarkdownSections.ScannedHeadingLevels` | src/graphrag_service/adapters/markdown/parser.py:180-206 | every heading the scan reports has a level from 1 to 6 |
| `Chunker.StructuralChunker.Chunks` | src/graphrag_service/application/chunker.py:29-68 | the loops over sections and blocks emit the greedy groups and split pieces of the whole document in order |
| `Chunker.StructuralChunker.SplitLargeBlock` | src/graphrag_service/application/chunker.py:99-137 | pieces take the hard limit or end after the last newline that is not their first character |
| `Chunker.StructuralChunker.BlocksBySection` | src/graphrag_service/application/chunker.py:36-38 | each section's list holds its blocks in order |
| `Chunker.StructuralChunker.Make` | src/graphrag_service/application/chunker.py:23-27 | limits are refused unless positive and ordered |
| `ChunkProperties.ChunksKeepTheDocument` | src/graphrag_service/application/chunker.py:36-137 | chunks are sound slices within the hard limit, ordered, disjoint, numbered from 0, and hold every character of every block; a chunk is an anchor if and only if its blocks are headings and thematic breaks; only a block above the limit is cut, after the last newline within it that is not the piece's first character, or at the limit |
| `ChunkProperties.PiecesKeepTheBlock` | src/graphrag_service/application/chunker.py:99-137 | the pieces of a block are ordered and hold exactly its characters |
| `ChunkProperties.PiecesReadAsTheBlock` | src/graphrag_service/application/chunker.py:99-137 | the pieces of a block concatenate to it |
| `ChunkProperties.PieceIsCut` | src/graphrag_service/application/chunker.py:99-137 | a cut piece ends after the last usable newline within the limit of the source, or at the limit when there is none |
| `ChunkProperties.RoleAgreesWithOverlap` | migrations/versions/0009_chunk_retrieval_roles.py:23-34 | the role given to a chunk equals the role recomputed from all blocks that overlap its span, for groups and pieces alike |
| `ChunkProperties.RangeFilterSelectsTheSubtree` | src/graphrag_service/adapters/postgres/retrieval_store.py:173-183 | a chunk of a parsed document lies in a section's character range if and only if its section is in that subtree |
| `ChunkProperties.RunsAreFewest` | src/graphrag_service/application/chunker.py:42-67 | no cut of the blocks into valid runs has fewer runs than the greedy one |
| `ChunkProperties.RunsArePartition` | src/graphrag_service/application/chunker.py:42-67 | the greedy runs are themselves such a cut |
| `ChunkProperties.ChunksAreFewest` | src/graphrag_service/application/chunker.py:42-67 | no valid cut gives fewer chunks, the further pieces of oversized blocks counted in both |
| `Evidence.AllOccurrences` | src/graphrag_service/domain/extraction.py:96-103 | finds all occurrences, overlapping ones included, in ascending order, and terminates |
| `Evidence.LocateExactEvidence` | src/graphrag_service/domain/extraction.py:89-122 | fails exactly when the quote is absent or, with two or more occurrences, the asked one is; otherwise returns the occurrence with that many before it, the only one whatever was asked |
| `Evidence.GlobalSpanIsTheQuote` | src/graphrag_service/domain/extraction.py:113-122 | for a chunk the chunker built, the global span slices the document to exactly the quote |
| `DocumentContext.RetrievalStore.DocumentContext` | src/graphrag_service/adapters/postgres/retrieval_store.py:135-211 | the documents that the seeds name first contribute, one after the other, their first wanted rows in reading order up to the row bound, until the next row would exceed the character bound; within the document bound the result is marked truncated if and only if something asked for is missing, and it is never incomplete unmarked |
| `DocumentContext.RetrievalStore.Query` | src/graphrag_service/adapters/postgres/retrieval_store.py:184-196 | the wanted chunks of one document, the first in reading order up to the limit |
| `DocumentContext.PartIsFirst` | src/graphrag_service/adapters/postgres/retrieval_store.py:184-209 | what is taken of a document is its first wanted rows, and what did not fit is the next one |
| `DocumentContext.RetrievalStore.AddRows` | src/graphrag_service/adapters/postgres/retrieval_store.py:199-209 | adds rows until one no longer fits |
| `JobHistory.JobsAreConsistent` | src/graphrag_service/adapters/postgres/job_queue.py:36-229 | in every interleaving the lease is set exactly when running, the finish time exactly when terminal, and a queued job has attempts left |
| `JobHistory.TerminalIsFinal` | src/graphrag_service/adapters/postgres/job_queue.py:36-229 | terminal jobs never change |
| `JobHistory.EndsExactlyWhen` | src/graphrag_service/adapters/postgres/job_queue.py:36-229 | over every history: a job has succeeded if and only if a report of success from the holder of its lease came in, is cancelled if and only if a cancel reached it while queued, and has failed if and only if its last attempt ended in an accepted failure or an expired lease |
| `JobHistory.SuccessClosesTheLastClaim` | src/graphrag_service/adapters/postgres/job_queue.py:94-123 | that report closes the claim of the job's last attempt |
| `JobHistory.RunsExactlyWhen` | src/graphrag_service/adapters/postgres/job_queue.py:59-64 | a job runs if and only if it was claimed and neither success, failure nor an expired lease has ended that attempt, and then under the lease of who claimed it |
| `JobHistory.RetryWaits` | src/graphrag_service/adapters/postgres/job_queue.py:125-229 | after a failed attempt with attempts left the job is queued, or cancelled, until it is claimed again, which is not before its backoff after an accepted failure or the time of the recovery |
| `JobHistory.EventDecides` | src/graphrag_service/adapters/postgres/job_queue.py:36-229 | what each event does to a job's status, attempts, waiting time and lease |
| `JobHistory.AcceptedCloseIsTheLatestClaim` | src/graphrag_service/adapters/postgres/job_queue.py:94-162 | an accepted succeed or fail comes from the worker with the latest attempt, whose claim was open; no claim is closed twice |
| `JobHistory.TakesAreAttempts` | src/graphrag_service/adapters/postgres/job_queue.py:59-64 | the attempt count is the number of claims |
| `JobHistory.WorkPerJobIsBounded` | src/graphrag_service/adapters/postgres/job_queue.py:36-229 | a job is claimed at most max_attempts times, makes at most twice as many claim, retry and finish transitions, and its backoffs are bounded |
| `JobHistory.BackoffTotal` | src/graphrag_service/workers/runner.py:72 | the backoffs over m attempts total 2^m - 2 seconds for m up to 9 and 510 + 256 (m - 9) beyond |
| `JobModel.NextKeepsInv` | src/graphrag_service/adapters/postgres/job_queue.py:36-229 | every event keeps the invariants on claims, log and counts |
| `JobModel.TransitionsFollow` | src/graphrag_service/adapters/postgres/job_queue.py:36-229 | claim, heartbeat, finish, cancel and recovery lower the remaining work by the transitions they count |
| `JobQueue.SqlAlchemyJobQueue.Enqueue` | src/graphrag_service/adapters/postgres/job_queue.py:18-34 | a job without attempts is refused by the table |
| `JobQueue.SqlAlchemyJobQueue.Claim` | src/graphrag_service/adapters/postgres/job_queue.py:36-74 | takes, among the jobs not locked by others that are queued, due and have attempts left, one that none precedes by priority, then next attempt (none first), then age, and leases it; or reports that there is none |
| `JobQueue.SqlAlchemyJobQueue.Heartbeat` | src/graphrag_service/adapters/postgres/job_queue.py:76-92 | renews exactly an owned, unexpired lease |
| `JobQueue.SqlAlchemyJobQueue.Succeed` | src/graphrag_service/adapters/postgres/job_queue.py:94-123 | accepted exactly from the owner of a running job, which then has succeeded |
| `JobQueue.SqlAlchemyJobQueue.Fail` | src/graphrag_service/adapters/postgres/job_queue.py:125-162 | accepted exactly from the owner; queued again after the delay while attempts are left, failed otherwise |
| `JobQueue.SqlAlchemyJobQueue.RequestCancel` | src/graphrag_service/adapters/postgres/job_queue.py:164-189 | cancels a queued job, notes the request on a running one, refuses a terminal one |
| `JobQueue.SqlAlchemyJobQueue.RecoverExpiredLeases` | src/graphrag_service/adapters/postgres/job_queue.py:191-229 | recovers exactly the expired running jobs, leaves none of them expired and running, and returns their number |
| `JobQueue.JobSystem.Perform` | src/graphrag_service/adapters/postgres/job_queue.py:18-229 | each queue method refines its event of the state machine, and is refused exactly when the event is not enabled |
| `JobQueue.OthersLeaveTheClaim` | src/graphrag_service/workers/runner.py:51-106 | whatever others do, a worker's claim stays in place and open |
| `JobQueue.JobSystem.RunOnce` | src/graphrag_service/workers/runner.py:51-106 | with anything happening while the handler runs, the report is accepted if and only if the job still runs under this worker's lease; then its claim is closed and the job has succeeded, failed or waits for its backoff as reported, and otherwise no job changes |
| `Fusion.ReciprocalRankFusion` | src/graphrag_service/application/retrieval.py:20-29 | the nested loops compute for every id found the sum of its shares over all channels |
| `Fusion.SortByScore` | src/graphrag_service/application/phase5_retrieval.py:394-400 | lists every scored id once, by falling score and then by id |
| `Fusion.RankingIsUnique` | src/graphrag_service/application/phase5_retrieval.py:394-400 | that order is total: there is one ranking |
| `Fusion.MoreChannelsRankFirst` | src/graphrag_service/application/retrieval.py:20-29 | with duplicate-free channels of at most L hits and m L < k + m + 1, whatever is in more than m channels is ranked above whatever is in at most m |
| `Fusion.BothChannelsFirst` | src/graphrag_service/application/phase5_retrieval.py:380-400 | for the two seed channels L <= k + 1 suffices for all two-channel hits to come first |
| `Fusion.LongerChannelsMayNot` | src/graphrag_service/application/retrieval.py:20-29 | the bound is exact: for all m > 0 and L with m L >= k + m + 1 there are duplicate-free channels of length L whose ranking has a hit of m channels before a hit of m + 1 |
| `GraphRetrieval.GraphRetrievalEnricher.Expand` | src/graphrag_service/application/graph_retrieval.py:45-196 | keeps exactly the current paths among the first max_paths; every kept path has all its assertions among the relationships, all their chunks among the sources and as many hops as assertions |
| `GraphRetrieval.GraphRetrievalEnricher.AddPath` | src/graphrag_service/application/graph_retrieval.py:114-120 | records a path's assertions and chunks |
| `GraphRetrieval.GraphRetrievalEnricher.ReadPath` | src/graphrag_service/application/graph_retrieval.py:105-113 | a path is current if and only if it has assertions, as many as hops, all with current evidence |
| `RetrievalChannels.BuildChannels` | src/graphrag_service/application/phase5_retrieval.py:109-171 | each channel lists its search's ids in order, empty ones left out; the chunk map has exactly the ids found, each with the item that stands for it |
| `RetrievalChannels.FilterAllowed` | src/graphrag_service/application/phase5_retrieval.py:173-188 | every channel keeps its allowed ids in order, emptied ones go, and the chunk map keeps exactly the allowed ids |
| `RetrievalChannels.Select` | src/graphrag_service/application/phase5_retrieval.py:173-188 | the channels and the chunk map hold exactly what is admissible: everything found when the searches agree on nothing, else the agreed hits and, with an explicit entity, what the graph and the claims found; and whether that left anything out |
| `Phase5Retrieval.Rank` | src/graphrag_service/application/phase5_retrieval.py:402-433 | ranks exactly the admissible chunks: a single search or channel in its own order, several by fused score over the admissible ids |
| `Phase5Retrieval.MixedIsRanked` | src/graphrag_service/application/phase5_retrieval.py:402-433 | where no search repeats a hit, the mixed strategy always ranks by fused score, with one channel as with several |
| `Phase5Retrieval.RankSeedChunks` | src/graphrag_service/application/phase5_retrieval.py:380-400 | ranks exactly the hits of both searches in fused order |
| `RetrievalChannels.PrimaryConsensus` | src/graphrag_service/application/phase5_retrieval.py:436-451 | exactly the keyword hits whose semantic score is at least 85 percent of every other |
| `RetrievalChannels.ConsensusOfTheBest` | src/graphrag_service/application/phase5_retrieval.py:436-451 | the best semantic hit is in the consensus if it is a keyword hit and its score is not negative; with a negative best score there is no consensus, whatever the keyword hits |
| `Phase5Retrieval.Ground` | src/graphrag_service/application/phase5_retrieval.py:254-264 | shows exactly the relationships, claims and paths that rest on returned chunks |
| `Phase5Retrieval.ShownPathsAreClosed` | src/graphrag_service/application/phase5_retrieval.py:254-264 | every shown path has all its assertions among the shown relationships, all its chunks among the returned ones, and as many hops as assertions |
| `Phase5Retrieval.Retrieve` | src/graphrag_service/application/phase5_retrieval.py:109-264 | the answer's chunks are in rank order over what is admissible; they are all content evidence or, at the limit, the first of it: what is left out ranks after everything returned; the context is exactly what its seeds add; the answer is grounded, and marked truncated if and only if evidence was beyond the limit or the graph, the claims, the consensus or a context left something out |

## Left out

- Overlapping projection workers: one worker at a time is modelled; the marks do not check the lease owner, so two workers on one expired lease are not fenced.
- Embeddings, vectors and payloads: a point is its id; a changed payload with an unchanged id and generation is not visible.
- Embedding profiles: one profile and one collection; registering a profile, creating a collection and the alias itself are a step that may fail.
- Ties of equal creation time among outbox rows, which the source breaks by id: rows are claimed in insertion order.
- A vault-scoped rebuild: it would drop the other vaults' points with the collection; the worker only rebuilds for all vaults, and the rebuild theorem is for those.
- The graph database outbox and its snapshot projection: the rest of it copies fields.
- Alias, mention and review rows beyond the suggestion pairs, inactive entities, a missing normalization rule and the normalization of names and identifiers.
- Concurrent resolution calls: calls are serial.
- IngestStore.PostgresIngestStore.StoreDocument: sections, blocks, chunks and links are one flag per version, not rows.
- Scan runs, scan change rows, counters on the run, last-seen times, titles and quality flags of documents.
- The order of the database's own checks inside one transaction: a unique clash aborts it wherever it is found.
- Frontmatter, links, tags, section ids, heading paths and content hashes of sections and blocks.
- MarkdownSections.BuildSections: section objects shared between the list and the stack are indices into the list.
- Conformance to a Markdown standard: only the span discipline is stated.
- Job payloads, checkpoints, job types and update times; the polling loop that repeats one cycle.
- Keyword, semantic and claim search, query planning, section neighbours, query records and the order of context chunks and relationships in an answer.
- Phase5Retrieval.Retrieve: the list of visible entities, the scores attached to chunks as channels are added, and seed limits are not modelled.
- GraphRetrieval.GraphRetrievalEnricher.Expand: entity records, seeded or merged from graph nodes with their source chunks, and their order are not modelled; the entity channel's ids are an input.
- Fusion.ReciprocalRankFusion: sums are exact; rounding and its dependence on the order of channels are not modelled.
- Foreign-key cascades, HTTP, settings, logging and the vector and graph adapters.
