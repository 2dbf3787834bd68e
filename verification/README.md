# Collection, chunking, indexing and search: a verified model

A Dafny model of the knowledge base's back end, and proofs of what its parts are for. The model covers

- **the collection protocol** of one source: batches, crawls and uploads come in, an outbox announces work, workers
  claim it under a stage lease and a source lease, a generation number fences off work begun before a change of status,
  failed runs are retried, and a purge deletes everything;
- **the chunker**: token boundaries from an incremental UTF-8 decoder, binary search, overlap;
- **documents**: dense immutable versions, each with the chunks of its content, listed page by page;
- **the vector index**: generations built by concurrent workers and activated when complete;
- **search**: reciprocal-rank fusion, page slices and cursors;
- **the two-slot lease** in Redis around calls to the model.

## How it is built

| file | content |
|---|---|
| `Collection` | rows, one function a database transaction, runs as sequences of transactions |
| `CollectionInvariant`, `CollectionEffect` | what every transaction keeps, and what one may change |
| `CollectionHistory` | the theorems about whole runs |
| `CollectionFate` | exactly when the end of a run is final |
| `CollectionOutcome` | what the rows tell of each other in every reachable state |
| `CollectionPaths` | from a request to its attempt and from an attempt to its end |
| `CollectionDelivery`, `CollectionPurge` | dispatch, uploaded files, and when a purge has succeeded |
| `CollectionStore` | the same transactions as imperative methods on the rows, proved equal to the functions |
| `Utf8`, `Chunking` | RFC 3629, the incremental decoder as an object, the chunker as loops |
| `Documents`, `VersionPages` | versions and chunks of a document; paging through versions while they grow |
| `Base64Url`, `Decimal`, `SearchCursor` | cursors: section 5 of RFC 4648 with Python's two decoders, numerals, the search cursor |
| `Embedding`, `SearchIndex`, `SearchIndexStore`, `SearchIndexPaths` | the endpoint's answers, the index protocol, its methods on the rows, what each turn decides |
| `Fusion`, `Search` | scores, order, pages, following cursors |
| `Slots` | the lease protocol with clock, commands, replies |
| `Wrappers`, `Queries` | options and results; the least element of a set |

Each database transaction is one step, because it locks the source row (or the generation row) first. A worker's
transactions are separate steps, any number of workers interleave, any event may be delivered at any time and any number
of times, and a worker may stop between any two steps. What the program does not decide (requests, the clock, crawled
records, rows locked by others, the model's answers) is an argument of the step. In `Collection` clocks need not agree
or advance.

Some properties a reader might expect do not hold of the code. The model follows the code; for each there is a run or
an input that breaks the property, and a theorem with the exact condition under which it holds:

- A succeeded collection run can fail: the fence (`apps/worker/main.py:261`) is looked at before success (line 278), so
  an event that was not delivered fails the run when it comes again after a pause (`CollectionFate.SucceededRunFails`).
  Success is final exactly when every event of the run is delivered and no attempt at it is under way
  (`CollectionFate.SucceededStaysIff`).
- A failed collection run can succeed without a retry, by an attempt that was overtaken and finishes late
  (`CollectionHistory.StragglerSucceeds`). Failure is final exactly when no attempt whose fence stands has passed its
  check, could pass it, or could still be put off (`CollectionFate.FailedStaysIff`).
- A chunk indexed by the active generation can drop out of it, by a second worker that fails the item after the first
  stored it (`SearchIndex.ActiveLosesItem`). It can be lost exactly while some worker still holds a pick of its item
  (`SearchIndex.IndexedLostIff`); an ended item nobody holds is never picked again (`SearchIndex.EndedIsFinal`).
- A version cursor is canonical as base64 but not as a number: a sign, white space, underscores or leading zeros are read
  (`VersionPages.TwoCursorsForOneVersion`). An accepted cursor is the issued one exactly when its bytes are plain digits
  (`VersionPages.IssuedIffPlain`). The search cursor has no such slack.
- Three callers can hold the two slots when a key expires under a running body; never exactly when the key outlives
  every body (`Slots.TwoSlotsIffOutlived`).
- Being among the first 62 of both lists does not put an identifier before those of one list; 61 does
  (`Fusion.SixtyTwoFails`, `Fusion.BothBeforeOne`).

`apps/worker/main.py:350` calls a name that is not defined, so the transaction for a transient error after the fence has
fallen is dropped: the run keeps its status and its lease.

`dafny verify dfyconfig.toml` checks the whole project.

## Model

| member | source | states |
|---|---|---|
| `CollectionHistory.LeaseNamesLiveRun` | apps/worker/main.py:183-308 | in every reachable state, a source lease that names a collection run names one that exists and is pending, running or retrying |
| `CollectionHistory.FailedRunNeverRestarts` | apps/worker/main.py:238-308 | over every continuation without a retry of it by hand, a failed collection run is never running again, although the claim never looks for a failed stage |
| `CollectionFate.FailedStaysIff` | apps/worker/main.py:183-426 | a failed collection run stays failed over every continuation without a retry by hand exactly when no attempt at it, its fence standing, has passed its check, could pass it, or could still be put off |
| `CollectionFate.RevivesInTwo` | apps/worker/main.py:315-425 | such an attempt takes the run out of failure within two steps |
| `CollectionHistory.FailedRunStaysFailed` | apps/worker/main.py:183-308 | a special case: with no attempt under way at all it stays failed, without the lease, until it is retried or purged |
| `CollectionHistory.LeasePassesOnlyWhenExpired` | modules/ingestion/public.py:111-399 | in every reachable state the source lease passes from one run to another only by a request, and only after its time has run out |
| `CollectionHistory.StragglerSucceeds` | apps/worker/main.py:390-426 | a concrete run of the system in which an overtaken attempt marks a failed run succeeded |
| `CollectionFate.SucceededStaysIff` | apps/worker/main.py:261-280 | a succeeded collection run stays succeeded over every continuation exactly when all its events are delivered and no attempt at it is under way |
| `CollectionFate.SucceededRunFails` | apps/worker/main.py:261-276 | a concrete run of the system in which success is undone: the worker stops before delivery, the source is paused, the event comes again |
| `CollectionFate.OthersLeaveRun` | apps/worker/main.py:238-426 | no step of other runs, of files, of the owner, of the dispatcher or of the purge changes a collection run that has no lease, its attempts or whether it is observed, or undelivers its events; a retry of the run itself is apart |
| `CollectionFate.FileLeaseIff` | modules/ingestion/public.py:393-399 | a file run comes to hold the source lease exactly by an accepted retry of it on a source that has collected |
| `CollectionFate.FileWorkerKeepsLease` | modules/ingestion/worker.py:24-168 | the file worker leaves the source lease as it was, however its run ends |
| `CollectionOutcome.RunRowTellsStage` | apps/worker/main.py:183-426 | in every reachable state a run's row tells its stage: queued while it waits, running, failed with the stage's error and one of the reasons of its kind, or succeeded without error; only a file can need recognition |
| `CollectionOutcome.RunsTraced` | modules/ingestion/public.py:366-399 | in every reachable state all events of a run ask for the same work, a source with a collection run has its cursor row, and what a crawl stored bears the time of one of its events |
| `CollectionOutcome.BatchStoresItsRecords` | modules/ingestion/public.py:144-162 | an accepted batch stores each of its records at the record's own time, and nothing else for its run |
| `CollectionOutcome.CrawlStoresItsRecords` | apps/worker/main.py:115-170 | a crawl stores each of its 1 to 500 records at the time of its event, nothing else, and the digest |
| `CollectionPaths.RequestMakesReady` | modules/ingestion/public.py:103-176 | an accepted batch, crawl or retry leaves a pending run with the lease for fifteen minutes and an event that is due at once, under the fence |
| `CollectionPaths.RequestedRunStarts` | modules/ingestion/public.py:337-402 | claiming that event at any moment within fifteen minutes starts the first attempt, after any steps of others while the source's status has not changed |
| `CollectionPaths.BatchSucceeds` | apps/worker/main.py:238-426 | an accepted batch with records, claimed in time, succeeds and is delivered; the source then accepts, at any time, exactly a batch with a new key that starts at its cursor |
| `CollectionPaths.CrawlSucceeds` | apps/worker/main.py:115-426 | the same for a crawl of 1 to 500 pages, which gives the lease back |
| `CollectionPaths.CrawlIsReplayed` | modules/ingestion/public.py:195-214 | the same crawl asked for again finds its run and changes nothing |
| `CollectionPaths.ObservedAttemptSucceeds` | apps/worker/main.py:310-426 | an observed attempt whose fence stands ends in success: run, stage, event, lease; nothing else changes |
| `CollectionPaths.PutOffThenStarted` | apps/worker/main.py:358-385 | a transient error below five attempts makes the event due exactly from the delay on, keeps the lease fifteen minutes, and the next claim starts the next attempt |
| `CollectionPaths.LastAttemptFails` | apps/worker/main.py:359-388 | from the fifth attempt on it fails the run as exhausted; any other error fails it as such, with event and lease |
| `CollectionPaths.FallenFence` | apps/worker/main.py:338-355 | after the fence has fallen a checked attempt fails its run, and a transient error leaves every row alone |
| `CollectionPaths.ClaimRefused` | apps/worker/main.py:246-300 | why a claim is refused: no run, unavailable source, lease expired; or delivered at once |
| `CollectionPaths.StageLeaseHolds` | apps/worker/main.py:281-304 | a started attempt is left alone for two minutes, then taken over within the source lease, then refused |
| `CollectionDelivery.DispatchesDueEvents` | modules/ingestion/dispatcher.py:14-55 | queued are exactly the events pending whose time has come, or queued more than thirty seconds ago, that are not locked and among the first hundred such; nothing else changes |
| `CollectionDelivery.UploadStarts` | modules/ingestion/public.py:256-320 | an accepted upload adds its document and an event that is due at once, and claiming it starts the run |
| `CollectionDelivery.FileStarts` | modules/ingestion/worker.py:44-71 | when a claim of a file event starts an attempt, and that it changes nothing else |
| `CollectionDelivery.ParsedFileEnds` | modules/ingestion/worker.py:82-135 | warnings and no text mean recognition is needed, for run and document; anything else is success; the event is delivered |
| `CollectionDelivery.UnparsedFileFails` | modules/ingestion/worker.py:136-168 | a failed or timed-out parser fails run, stage and document with the reason, and the event |
| `CollectionDelivery.FallenFileFence` | modules/ingestion/worker.py:90-105 | after the fence has fallen nothing of a file is stored |
| `CollectionDelivery.FileClaimRefused` | modules/ingestion/worker.py:44-64 | the other answers to a claim of a file event |
| `CollectionDelivery.ReuploadIsReplayed` | modules/ingestion/public.py:271-283 | the same file, at any later moment the source is active, finds its run and changes nothing while its document exists, and is refused once it is deleted |
| `CollectionDelivery.OwnersDocuments` | modules/knowledge/documents/public.py:55-82 | when an owner's document is added, and that deleting removes one document only |
| `CollectionPurge.PurgeIsAsked` | modules/sources/public.py:124-150 | starting a purge archives the source and lists every stored file |
| `CollectionPurge.PurgeIsTakenUp` | modules/sources/worker.py:46-66 | taking it up deletes all rows and fails the events of all runs |
| `CollectionPurge.PurgeEnds` | modules/sources/worker.py:68-92 | with no listed file stuck it has succeeded and is never taken up again; with one stuck it has failed and is due exactly from thirty seconds on, when it asks again |
| `CollectionPurge.SucceededPurgeStays` | modules/sources/worker.py:42-45 | a late worker only delivers the event of a purge that has succeeded |
| `CollectionPurge.PurgeSucceedsOnlyCleared` | modules/sources/worker.py:68-92 | in every reachable state a purge has succeeded, or its event is delivered, only if some earlier step found none of its files stuck |
| `CollectionHistory.GenerationIsStatusChanges` | modules/sources/public.py:64-128 | in every run the generation is one plus the number of changes of status |
| `CollectionHistory.ActiveSinceEvent` | apps/worker/main.py:261-264 | if the fence of an event holds now, the source was active and under the same generation at any moment since the event was made |
| `CollectionHistory.SuccessWithinOneActivePeriod` | apps/worker/main.py:390-425 | whenever any step marks a run succeeded it is an attempt at one of the run's own events, and the source was active, status unchanged, from that event's creation to the commit; for crawls, batches and files |
| `CollectionHistory.OnePurgeUnderItsFence` | modules/sources/public.py:110-150 | at most one purge ever, under the source's generation, so the branch `source_generation_changed` of every purge event is unreachable |
| `CollectionHistory.PurgedSourceStaysEmpty` | modules/sources/worker.py:31-66 | once the purge has deleted the rows, no later state has documents, observations, batches, runs or a lease, and the source stays archived |
| `CollectionHistory.PurgeDeletesAll` | modules/sources/worker.py:17-66 | taking up an undelivered purge event deletes all rows unless the purge has succeeded, and every stored file is on the purge's list |
| `CollectionHistory.AttemptsBounded` | apps/worker/main.py:281-303 | since the last retry by hand a collection stage has at most five attempts plus one for each takeover of an expired running lease; a retrying one has at most four |
| `CollectionHistory.AcceptedBatchesArePath` | modules/ingestion/public.py:103-172 | on a source without crawls the accepted batches form a path from the null cursor to the present one, each cursor before being the previous cursor after |
| `CollectionHistory.RedeliveredBatchIsReplayed` | modules/ingestion/public.py:79-101 | an accepted batch sent again at any later moment the source is active is answered with the same run and changes nothing, whatever happened between |
| `CollectionHistory.SucceededRunsAreObserved` | apps/worker/main.py:315-324 | every succeeded collection run has an observation, and no batch holds the same provider, record and time twice |
| `CollectionHistory.RepeatedCrawlAddsNothing` | apps/worker/main.py:118-169 | committing the same pages for the same event in any later attempt stores no observation |
| `CollectionHistory.CrawlMovesCursorForward` | apps/worker/main.py:171-179 | a crawl commit leaves the cursor at the later of the event's time and the cursor's own, never earlier than either |
| `CollectionInvariant.StepKeepsInvariant` | apps/worker/main.py:118-426 | each of the 22 transactions keeps the invariant between sources, leases, runs, batches, events, observations, documents and purges |
| `CollectionInvariant.RunsKeepInvariant` | modules/ingestion/public.py:79-402 | so every reachable state has it |
| `CollectionInvariant.AskedHasLast` | modules/ingestion/public.py:366-381 | the prior event a retry looks for is found exactly when the run was ever asked for, and is one of the run's |
| `CollectionInvariant.InsertNewFacts` | apps/worker/main.py:165-169 | an insert that skips what violates the identity keeps what was there, adds exactly the new rows, and never stores one twice |
| `CollectionEffect.StepEffect` | modules/ingestion/public.py:79-402 | what any transaction may do to earlier rows: events only added under the present generation, a lease given only to a new run or by a retry, a stage started only with the lease, a success only under its fence, attempts counted one at a time |
| `CollectionStore.Store.constructor` | modules/sources/public.py:15-25 | a new source is active under generation 1 and has the invariant |
| `CollectionStore.Store.ReceiveBatch` | modules/ingestion/public.py:79-176 | the method on the rows is the transaction, answers included: conflict of status, key, lease or cursor, replay, or acceptance |
| `CollectionStore.Store.StoreRecords` | modules/ingestion/public.py:144-162 | the loop with its `seen` set stores each distinct observation of the batch once, in order |
| `CollectionStore.Store.QueueCrawl` | modules/ingestion/public.py:179-253 | queueing a crawl, with its order of checks: status, cursor, known key, lease |
| `CollectionStore.Store.ReceiveFile` | modules/ingestion/public.py:256-320 | accepting an upload; the same file again finds its run, or a conflict when its document was deleted |
| `CollectionStore.Store.PriorEvent` | modules/ingestion/public.py:366-371 | the search finds the last event made for the run |
| `CollectionStore.Store.RetryRun` | modules/ingestion/public.py:337-402 | a failed run starts over with a new event under the present generation; without acceptance nothing changes, and no other run ever does |
| `CollectionStore.Store.DispatchPending` | modules/ingestion/dispatcher.py:14-55 | exactly the due events that are not locked, oldest first and at most 100, are queued, and they are counted |
| `CollectionStore.Store.Claim` | apps/worker/main.py:238-308 | the claim: missing run, fence, success, running lease, source lease, in this order, else the attempt starts; a run it changes has failed, or runs, holds the lease and counts one attempt more |
| `CollectionStore.Store.CrawlCommit` | apps/worker/main.py:115-180 | the crawl's transaction, and that it reports success exactly when it changed something |
| `CollectionStore.Store.InsertIgnoring` | apps/worker/main.py:165-169 | the insert that ignores conflicts |
| `CollectionStore.Store.CheckObserved` | apps/worker/main.py:315-324 | an attempt goes on exactly when its batch has an observation |
| `CollectionStore.Store.Transient` | apps/worker/main.py:325-385 | a transient error: rescheduled below five attempts, given up at five, dropped when the fence has fallen; no run is started, counted up or loses the lease by it |
| `CollectionStore.Store.FailStage` | apps/worker/main.py:183-221 | the stage, its run and its event fail; any run it changes has failed and does not hold the lease |
| `CollectionStore.Store.Finish` | apps/worker/main.py:390-425 | success under the fence, failure otherwise; any run it changes has ended and does not hold the lease |
| `CollectionStore.Store.MarkDelivered` | modules/ingestion/dispatcher.py:58-62 | an event it changes is delivered, and its attempt has committed a success |
| `CollectionStore.Store.FileClaim` | modules/ingestion/worker.py:24-71 | the claim of an uploaded file |
| `CollectionStore.Store.FileSave` | modules/ingestion/worker.py:84-135 | saving an extraction under the fence |
| `CollectionStore.Store.FileFail` | modules/ingestion/worker.py:136-168 | the handler: only the event fails when the fence has fallen |
| `CollectionStore.Store.PatchStatus` | modules/sources/public.py:64-87 | the generation counts one exactly when the status changes; an archived source stays archived |
| `CollectionStore.Store.Archive` | modules/sources/public.py:90-107 | archiving counts one generation, once |
| `CollectionStore.Store.StartPurge` | modules/sources/public.py:110-150 | a purge archives the source, lists its files, and is started once: afterwards there is exactly one |
| `CollectionStore.Store.PurgeDelete` | modules/sources/worker.py:21-66 | the deletion under the purge's fence |
| `CollectionStore.Store.FailRunEvents` | modules/sources/worker.py:49-54 | exactly the events of runs that exist are failed |
| `CollectionStore.Store.PurgeFinish` | modules/sources/worker.py:68-92 | the file loop and the transaction after it: a purge that succeeds by it has no listed file left, and its list and generation stay |
| `CollectionStore.UnlinkAll` | modules/sources/worker.py:68-70 | the loop reports success exactly when no listed file is stuck, then all listed files are gone and no other is touched in any case |
| `Utf8.RfcExamples` | core/chunking.py:25-37 | the examples of section 7 of RFC 3629 |
| `Utf8.DecodeEncode` | core/chunking.py:37 | decoding the encoding of any text gives the text |
| `Utf8.DecodesIffWellFormed` | core/chunking.py:25-29 | the decoder accepts exactly the encodings of texts, and what it reads encodes back to its input |
| `Utf8.DrainAppend` | core/chunking.py:25-29 | decoding in pieces is decoding the whole, pending bytes carried over |
| `Utf8.PrefixOfWellFormed` | core/chunking.py:25-29 | no prefix of well-formed bytes is ever invalid |
| `Utf8.DecodeConcat` | core/chunking.py:37 | after well-formed bytes, a continuation is well-formed exactly when the whole is, and decoding distributes |
| `Utf8.IncrementalDecoder.Decode` | core/chunking.py:25-28 | the decoder object: the text read and the bytes kept are those of pending and new input together |
| `Chunking.PendingAfter` | core/chunking.py:26-29 | the decoder has nothing pending after a token exactly when the bytes up to there are well-formed UTF-8 |
| `Chunking.FindBoundaries` | core/chunking.py:24-29 | the loop lists all such places, and only these, in order |
| `Chunking.BisectRight` | core/chunking.py:35-43 | binary search: how many elements are at most x |
| `Chunking.FindEnd` | core/chunking.py:34-36 | the largest boundary within the target size if there is one, else the next boundary |
| `Chunking.FindStart` | core/chunking.py:41-44 | the largest boundary that leaves the overlap and moves forward, else the end |
| `Chunking.OverlapTokens` | core/chunking.py:30 | the overlap is the greatest whole number below the target size that the share allows |
| `Chunking.SliceText` | core/chunking.py:37 | every slice between two boundaries decodes, and texts of adjacent slices concatenate |
| `Chunking.StepForward` | core/chunking.py:33-44 | one turn of the loop: the start moves forward, at most to the last end, the end does not move back, and the overlap is nothing or at least `overlap` |
| `Chunking.TwoStepsForward` | core/chunking.py:33-44 | two turns move the end: at most two chunks share one |
| `Chunking.ChunkEdges` | core/chunking.py:30-45 | the first chunk starts at token 0, the last ends at the last token, each chunk lies between boundaries and is the text there |
| `Chunking.ChunksAdvance` | core/chunking.py:33-44 | starts strictly increase, and none is past the previous end |
| `Chunking.ChunkEndsMove` | core/chunking.py:33-44 | ends never decrease and at most two chunks share one |
| `Chunking.ChunkSizes` | core/chunking.py:34-36 | a chunk ends at the largest boundary within the target size, or, with none there, at the next one |
| `Chunking.ChunkOverlaps` | core/chunking.py:41-44 | neighbours share no tokens or at least the overlap, and the least such amount a boundary allows |
| `Chunking.ChunksRebuildText` | core/chunking.py:17-45 | dropping from each chunk what the one before covers, by start and token count, gives back the text exactly |
| `Chunking.ChunkText` | core/chunking.py:17-45 | the program, loops and all, returns these chunks, or the error for invalid settings |
| `Documents.RowsAreChunks` | modules/knowledge/documents/public.py:23-30 | one row a chunk, in its place, with its text, digest, size and start |
| `Documents.DefaultChunks` | core/chunking.py:17-30 | the default chunks have up to 750 tokens and overlap by 90 |
| `Documents.NewDocumentsConsistent` | modules/knowledge/documents/public.py:55-123 | created and uploaded documents are consistent: versions 1 to the current one, neighbours differ, hashes and chunks are those of the content |
| `Documents.AppendKeeps` | modules/knowledge/documents/public.py:229-263 | appending keeps that and alters no version |
| `Documents.ExtractKeeps` | modules/knowledge/documents/public.py:127-175 | saving an extraction keeps it too, and the current version then has the extracted text and its chunks |
| `Documents.BackfillKeeps` | modules/knowledge/documents/public.py:33-52 | filling in missing chunks keeps it |
| `Documents.EditsKeepVersions` | modules/knowledge/documents/public.py:127-263 | over every sequence of edits the document stays consistent and keeps every version it had |
| `Documents.WriteAgainstRead` | modules/knowledge/documents/public.py:245-263 | a writer that read a document and writes other content after any edits is saved exactly when they added no version, as the next one with its chunks, and is stale otherwise |
| `Documents.ExtractAdds` | modules/knowledge/documents/public.py:140-163 | an extraction adds one version exactly when its text is new, and sets its outcome |
| `Documents.BackfillCompletes` | modules/knowledge/documents/public.py:33-52 | on an active source a readable current version has its chunks afterwards; elsewhere nothing changes |
| `Documents.DocumentsStart` | modules/knowledge/documents/public.py:55-123 | what created and uploaded documents start with |
| `Documents.SecondWriterIsStale` | modules/knowledge/documents/public.py:245-248 | of two different contents written against one version, only the first is saved |
| `Documents.RepeatedWriteIsUnchanged` | modules/knowledge/documents/public.py:245-246 | repeating a write changes nothing, whichever version it is against |
| `Documents.Rows.FromContent` | modules/knowledge/documents/public.py:55-82 | create_document makes that document |
| `Documents.Rows.FromUpload` | modules/knowledge/documents/public.py:97-123 | add_uploaded_document starts with an empty version without chunks |
| `Documents.Rows.AddChunks` | modules/knowledge/documents/public.py:23-30 | the loop stores one row a chunk, in order, hashed |
| `Documents.Rows.Append` | modules/knowledge/documents/public.py:229-263 | the method is the edit, with its outcomes, and keeps every version |
| `Documents.Rows.Extract` | modules/knowledge/documents/public.py:127-175 | the same for an extraction, consistent when the chunks are those of the text |
| `Documents.Rows.FillChunks` | modules/knowledge/documents/public.py:33-52 | the same for the backfill |
| `Base64Url.RfcVectors` | core/pagination.py:10-12 | test vectors of section 10 of RFC 4648, unpadded |
| `Base64Url.EncodedLength` | core/pagination.py:10-12 | the encoding is plain ASCII without padding, and its length modulo 4 |
| `Base64Url.DecodersInvert` | core/pagination.py:10-20 | both of Python's decoders undo the encoder, padding added |
| `Base64Url.CanonicalIffEncoding` | core/pagination.py:15-23 | a cursor passes the base64 layer exactly when it is the unpadded encoding of some bytes, and then gives those |
| `Base64Url.CanonicalInjective` | core/pagination.py:17-23 | distinct accepted cursors give distinct bytes |
| `Base64Url.SpellingsThatDecodeAlike` | core/pagination.py:22-23 | without the comparison two spellings would decode alike: unused bits, and the other alphabet |
| `Decimal.ParseNumeral` | modules/knowledge/documents/public.py:266-279 | reading a numeral gives back the number |
| `Decimal.NumeralInjective` | modules/search/public.py:46-47 | different numbers have different numerals |
| `VersionPages.CursorRoundTrip` | modules/knowledge/documents/public.py:266-284 | decode(encode(n)) = n for n from 1 to 2147483647 |
| `VersionPages.IssuedIffPlain` | modules/knowledge/documents/public.py:270-284 | an accepted version cursor is the issued one exactly when its bytes are digits without a leading zero |
| `VersionPages.IssuedCursors` | modules/knowledge/documents/public.py:266-284 | the texts the program issues are exactly the accepted ones whose bytes are such digits |
| `Decimal.NumeralIffPlain` | modules/knowledge/documents/public.py:278 | what int reads as a positive number is its numeral exactly when it is such digits |
| `VersionPages.TwoCursorsForOneVersion` | modules/knowledge/documents/public.py:278 | a cursor the program does not issue that means version 7 |
| `VersionPages.PageOfDocument` | modules/knowledge/documents/public.py:287-303 | for every cursor: an error if it is not accepted, else the versions after it, as many as asked for, with a cursor exactly when more follow; empty past the current version |
| `VersionPages.WalkReadsEachVersionOnce` | modules/knowledge/documents/public.py:229-303 | following the cursors while versions are appended reads each of 1 to V once, in order, V being current at the last page; with more pages than versions the end is reached |
| `VersionPages.WalkWhileEdited` | modules/knowledge/documents/public.py:229-303 | the same for a document edited in any way between the pages: appended to, extracted, filled in |
| `Documents.LaterExtendsEarlier` | modules/knowledge/documents/public.py:127-263 | of two moments of a document's history, the later is consistent and has every version of the earlier |
| `Embedding.EmbeddingValues` | modules/search/indexing.py:23-39 | what is accepted has 1 to 2000 values, as many as expected, and is not zero |
| `Embedding.WellFormedAnswers` | modules/search/indexing.py:23-39 | an answer of the right shape is accepted exactly when its vector and model name are in order, and is read as it was meant |
| `Embedding.AcceptedExactly` | modules/search/indexing.py:23-39 | what is accepted, of any JSON value: one row of finite numbers, 1 to 2000 and as many as expected, not all zero, and no model or a proper name |
| `Embedding.ValuesRead` | modules/search/indexing.py:35-39 | the vector has the numbers in their places |
| `Embedding.NumbersReadIff` | modules/search/indexing.py:35-39 | values are read exactly when all are finite; the error is an overflow exactly when an integer too large for a double comes first |
| `SearchIndex.StepKeeps` | modules/search/indexing.py:72-251 | every transaction keeps the invariant and undoes nothing that is settled |
| `SearchIndex.RunsKeep` | modules/search/indexing.py:72-251 | in every reachable state at most one generation is in progress and one active, dimensions are 1 to 2000, items are unique, and each finished item has exactly its generation's dimensions |
| `SearchIndex.SettledStays` | modules/search/indexing.py:123-224 | over every run, a failed or retired generation never serves again, and dimensions and response model stay as first set |
| `SearchIndex.ActivatedComplete` | modules/search/indexing.py:136-161 | a generation becomes active only in the turn that finds no chunk left: every chunk eligible throughout has a finished item, none is unfinished, and the one active before retires, all others unchanged |
| `SearchIndex.StoredUnderIdentity` | modules/search/indexing.py:191-224 | a vector is stored only by a worker whose item is still its own, under the identity the generation recorded; no other item changes, and the worker holds the pick no longer |
| `SearchIndex.QueryFitsIndex` | modules/search/public.py:128-141 | a query vector that is accepted has the length of every vector the active generation serves |
| `SearchIndex.ActiveLosesItem` | modules/search/indexing.py:226-232 | a concrete run of two workers: one stores a chunk and makes the generation active, the other, late, takes the chunk out of it |
| `SearchIndex.IndexedLostIff` | modules/search/indexing.py:162-232 | over every continuation that does not erase the chunk: a stored item of the active generation can be lost while it serves exactly when some worker holds a pick of it |
| `SearchIndex.EndedIsFinal` | modules/search/indexing.py:130-232 | an item that was stored, or failed in a generation no longer being built, and that nobody holds, is never picked and never changes until its chunk is erased |
| `SearchIndexPaths.RunsTell` | modules/search/indexing.py:113-160 | in every reachable state a generation bears an error exactly when it has failed |
| `SearchIndexPaths.CreatedWhenIdle` | modules/search/indexing.py:72-84 | a reindex continues the generation in progress, else queues a new one for the model |
| `SearchIndexPaths.UnavailableFails` | modules/search/indexing.py:113-120 | what an unusable model does to a generation |
| `SearchIndexPaths.TurnTakesFirst` | modules/search/indexing.py:124-172 | a turn takes the first eligible chunk without a finished item, with an item of its own |
| `SearchIndexPaths.ActiveTurnIdle` | modules/search/indexing.py:136-161 | with nothing to take, an active generation is left as it was |
| `SearchIndexPaths.BuildEnds` | modules/search/indexing.py:136-160 | with nothing to take, a build becomes active exactly when no eligible chunk is unfinished and dimensions are known; why it fails otherwise; which items go |
| `SearchIndexPaths.SendDecides` | modules/search/indexing.py:174-232 | exactly when a sent chunk is stored, dropped, stopped or raised, and what changes |
| `SearchIndexPaths.DroppedLacksFailedDoesNot` | modules/search/indexing.py:185-232 | a dropped chunk is taken again, a failed one is not |
| `SearchIndexStore.Store.constructor` | modules/search/models.py:16-33 | the empty tables have the invariant |
| `SearchIndexStore.Store.CreateGeneration` | modules/search/indexing.py:72-84 | the generation returned is the only one in progress |
| `SearchIndexStore.Store.Choose` | modules/search/indexing.py:93-104 | a worker turns to the generation in progress, else to the active one |
| `SearchIndexStore.Store.FailUnavailable` | modules/search/indexing.py:113-120 | an unusable model fails a generation that is not active; an active one and all others stay |
| `SearchIndexStore.Store.ActivateGeneration` | modules/search/indexing.py:236-251 | the swap of active generations, or the error and no change |
| `SearchIndexStore.Store.FinishGeneration` | modules/search/indexing.py:136-161 | the end of a build; its activation never raises |
| `SearchIndexStore.Store.Next` | modules/search/indexing.py:124-172 | a turn picks the first waiting chunk or finishes |
| `SearchIndexStore.Store.TakeChunk` | modules/search/indexing.py:163-172 | the chunk's item, made when missing |
| `SearchIndexStore.Store.SendPicked` | modules/search/indexing.py:173-225 | the sending transaction with its outcomes; the worker gives up its pick unless the send raised |
| `SearchIndexStore.Store.SendChunk` | modules/search/indexing.py:174-225 | the fences and the call |
| `SearchIndexStore.Store.SaveAnswer` | modules/search/indexing.py:201-224 | the rows are checked again before the vector is stored; no other item and no other generation changes |
| `SearchIndexStore.Store.FailPicked` | modules/search/indexing.py:226-232 | the handler fails the item, keeps its vector and every other item's, and gives up the pick |
| `SearchCursor.AcceptedIffIssued` | modules/search/public.py:32-47 | a request accepts exactly the cursors the program issues for its scope, offsets 0 to 1000, in one spelling |
| `SearchCursor.CursorSpelled` | modules/search/public.py:46-47 | one cursor spelled out |
| `SearchCursor.CursorsDiffer` | modules/search/public.py:46-47 | cursors of different scopes or offsets differ |
| `Fusion.Rank` | modules/search/public.py:148-151 | the loops give every candidate the sum of 1/(60 + rank) over the lists |
| `Fusion.Sort` | modules/search/public.py:152 | the keys by falling score, ties by identifier |
| `Fusion.OrderUnique` | modules/search/public.py:152 | there is one such order |
| `Fusion.OrderIsUnion` | modules/search/public.py:148-152 | the order is a permutation of the union without repetition |
| `Fusion.Dominance` | modules/search/public.py:148-152 | an identifier better placed in every list that holds another comes before it |
| `Fusion.BothBeforeOne` | modules/search/public.py:148-152 | an identifier among the first 61 of both lists comes before every one in only one list |
| `Fusion.SixtyOne` | modules/search/public.py:151 | two shares of places up to 61 outweigh any one; two of place 62 equal the best one |
| `Fusion.SixtyTwoFails` | modules/search/public.py:148-152 | 61 is the largest such number: two lists in which an identifier that is 62nd in both comes after one that only one list has |
| `Fusion.LexicalOrderKept` | modules/search/public.py:149-152 | with the lexical list alone its order is kept |
| `Fusion.OrderedLength` | modules/search/public.py:20-21 | lists of at most 500 fuse to at most 1000 |
| `Search.SearchPage` | modules/search/public.py:121-177 | a response: refused exactly when the cursor is; else the visible ones of the slice with their scores, which never rise along the hits, ties by identifier; the next cursor, the mode and the warning |
| `Search.Fuse` | modules/search/public.py:148-152 | the order of all candidates, each with its score |
| `Search.Collect` | modules/search/public.py:160-175 | the loop passes over what is no longer visible |
| `Search.VisibleMembers` | modules/search/public.py:154-163 | the hits are the visible identifiers of the page, none twice |
| `Search.VisibleKeepsOrder` | modules/search/public.py:161-175 | the hits come in the order of the page |
| `Fusion.OrderedByScore` | modules/search/public.py:152 | along the order scores never rise, and equal ones go by identifier |
| `Search.IssuedCursorAccepted` | modules/search/public.py:153-176 | every cursor issued has an offset below 1000, is accepted by its own request and refused by every other |
| `Search.WalkPartitionsOrder` | modules/search/public.py:153-176 | following cursors with any page sizes reads the fused order from its start, each identifier once, and ends |
| `Slots.RunKeeps` | core/model_gateway/client.py:48-70 | what every step of the lease protocol keeps, replies lost, commands late or sent again |
| `Slots.NineSecondsOutlived` | core/model_gateway/client.py:57 | the key outlives every body that stops within nine seconds of the timeout, as int(t) + 10 > t + 9 |
| `Slots.InsideHoldsKey` | core/model_gateway/client.py:53-62 | in every run, a caller in its body holds its slot: the key has its token and has not expired |
| `Slots.AtMostTwoInside` | core/model_gateway/client.py:53-62 | callers in their bodies are in different slots, never more than two |
| `Slots.ReleaseFreesOwnKeyOnly` | core/model_gateway/client.py:18-70 | a release, however late, deletes no key of another caller |
| `Slots.LeavingFreesSlot` | core/model_gateway/client.py:62-68 | a caller that leaves and whose release arrives frees its slot |
| `Slots.GivingUpKeepsKeys` | core/model_gateway/client.py:63-66 | a caller that gives up before it has a slot releases nothing |
| `Slots.TwoSlotsIffOutlived` | core/model_gateway/client.py:53-57 | for every timeout and margin: never three callers inside, in any run, exactly when timeout + margin < int(timeout) + 10 |
| `Slots.Keys.SetIfAbsent` | core/model_gateway/client.py:57 | SET NX EX on one key |
| `Slots.Keys.Round` | core/model_gateway/client.py:55-59 | a round of the loop, undisturbed, is a run of the protocol and ends inside the slot it got |
| `Slots.Keys.CompareAndDelete` | core/model_gateway/client.py:18-68 | the release script is the protocol's release: afterwards the caller has no live key there, and no other key has changed |

## Left out

- One source is modelled: transactions on other sources do not touch its rows. Owners, credentials, HTTP, rate limits and settings are not part of this model.
- A run and its one stage are one record, since they are created and deleted together; the stage status `queued`, which nothing assigns, is absent.
- Identifiers handed out at random are counters or places in a sequence; digests are taken to be injective.
- Times of last success and error, error codes on the source and on index items, result counts and log lines are not part of this model.
- The crawler, the file parsers, the tokenizer, n8n and the text and vector queries: their results are arguments; the tokens of a text are any byte strings that concatenate to its encoding, the candidate lists any lists without repetition of at most 500.
- JSON and datetime parsing inside `core/pagination.py` cursors: only the base64 layer is modelled; keyset paging of sources and documents is absent.
- CollectionHistory.LeaseNamesLiveRun: says nothing of a file run's stage, since the file worker never gives the lease back (`CollectionFate.FileWorkerKeepsLease`); when a file run has it is `CollectionFate.FileLeaseIff`.
- Eventual completion (liveness) is not part of this model.
- Chunking.OverlapTokens: the ratio is an exact number; the floating-point product at the default settings, 0.12 * 750, has the same integer part, but other settings may round differently. The theorems about chunks hold for every overlap below the target.
- Fusion.Rank: scores are exact rationals; floating-point sums that round to a tie are not modelled.
- Embedding.EmbeddingValues: rounding of integers and decimals to doubles is not modelled, only the overflow.
- Decimal.ParseNumeral: decimal digits and white space beyond ASCII, and the limit of 4300 digits, are not modelled; no cursor the program issues has them.
- The fixed order in which `backfill_current_chunks` takes two versions a call: the backfill is stated for one document.
- `index_pending_chunks` makes at most two turns a call; the turns are separate steps, so any number is covered.
- `Slots.Keys` has no interleaving of other callers' commands; the protocol in `Slots` has.
- A document that does not exist: the answers of paging and of edits for it (404) are absent.
- Deletion of a single document, and title and metadata edits, are not part of `Documents`; deletion is in `Collection`.
