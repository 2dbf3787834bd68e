/**
 The collection protocol of one source: its rows, and what each transaction makes of them.

 A transaction locks the source row first, so each is one step. A run of the system is a
 sequence of labels, one a transaction, with all that the program does not choose (the
 clock, the requests, what a crawl returned, which rows were locked) as arguments; any
 worker may be delivered any event at any time and as often as it likes, and may stop at
 any step. Clocks are not assumed to agree or to advance. Times are in milliseconds.
 */
module Collection {
  import opened Wrappers

  type RunId = nat
  type EventId = nat
  type AttemptId = nat
  type DocId = nat
  type Time = int

  const STAGE_TIMEOUT: int := 120_000
  const COLLECTION_LEASE: int := 900_000
  const MAX_STAGE_ATTEMPTS: int := 5
  const DISPATCH_STALE_AFTER: int := 30_000
  const DISPATCH_LIMIT: nat := 100
  const PURGE_RETRY: int := 30_000

  datatype SourceStatus = Active | Paused | Archived
  datatype StageKey = Receive | CollectWeb | ParseFile
  datatype StageStatus = Pending | Running | Retrying | Succeeded | Failed
  datatype RunStatus = RunQueued | RunRunning | RunSucceeded | RunNeedsOcr | RunFailed
  datatype EventStatus = EventPending | EventQueued | EventDelivered | EventFailed
  datatype Extraction = Ready | Queued | Processing | Extracted | NeedsOcr | ExtractionFailed
  datatype PurgeStatus = PurgeQueued | PurgeRunning | PurgeSucceeded | PurgeFailed

  datatype ErrorCode =
    | SourceUnavailable | SourceOrDocumentUnavailable | LeaseExpired | TransientFailure
    | RetryExhausted | StageFailed | ParseFailed | ParserTimeout
    | SourceGenerationChanged | FileCleanupFailed

  /** A cursor: text that reads as an instant with a time zone, or any other text. */
  datatype Cursor = Stamp(instant: Time, spelling: string) | Opaque(text: string)

  /** A batch row, found by its key. */
  datatype Batch = Batch(payloadHash: string, run: RunId)

  /** A run row together with its one stage row. */
  datatype Run = Run(
    batchKey: string, status: RunStatus, error: Option<ErrorCode>,
    key: StageKey, stage: StageStatus, stageError: Option<ErrorCode>,
    attempts: nat, nextAttempt: Time, stageLease: Option<Time>)

  datatype Work =
    | StageRequested(run: RunId)
    | CrawlRequested(run: RunId, configuration: string)
    | FileUploaded(run: RunId, document: DocId)
    | PurgeRequested(operation: nat)

  /** An outbox row. Its id is its place in the outbox, which is the order of creation. */
  datatype Event = Event(work: Work, generation: int, occurredAt: Time, status: EventStatus, nextAttempt: Time, dispatchedAt: Option<Time>)

  /** What the parser made of a file: whether there is text, and whether there are warnings. */
  datatype Parsed = Parsed(hasText: bool, warned: bool)

  /** What a collector sends. */
  datatype Record = Record(provider: string, body: string, observedAt: Time)

  datatype Observation = Observation(run: RunId, provider: string, body: string, observedAt: Time)

  datatype Document = Document(externalId: Option<string>, rawUri: Option<string>, extraction: Extraction)

  datatype Purge = Purge(generation: int, rawUris: set<string>, status: PurgeStatus, error: Option<ErrorCode>)

  datatype Ingest = Ingest(cursor: Option<Cursor>, leaseRun: Option<RunId>, leaseUntil: Option<Time>)

  /** How far a worker has come with an event it claimed. */
  datatype Phase = Working | Collected | Checked | Exhausted | Committed | Over

  datatype Attempt = Attempt(event: EventId, phase: Phase)

  datatype State = State(
    status: SourceStatus, generation: int, ingest: Option<Ingest>,
    batches: map<string, Batch>, runs: map<RunId, Run>, events: seq<Event>,
    observations: seq<Observation>, documents: map<DocId, Document>, purges: seq<Purge>,
    attempts: seq<Attempt>, nextRun: RunId)

  const NEW_SOURCE: State := State(Active, 1, None, map[], map[], [], [], map[], [], [], 0)

  /** What a request is answered. */
  datatype Answer = Accepted(run: RunId) | Replayed(run: RunId) | Missing | Conflict(reason: Reason)

  datatype Reason = NotActive | KeyReused | LeaseHeld | CursorStale | DocumentGone | IdentityTaken

  // ------------------------------------------------------------------- small parts

  function PayloadRun(w: Work): Option<RunId> {
    if w.PurgeRequested? then None else Some(w.run)
  }

  function AddEvent(s: State, work: Work, now: Time): State {
    s.(events := s.events + [Event(work, s.generation, now, EventPending, now, None)])
  }

  function SetEvent(s: State, e: EventId, status: EventStatus): State
    requires e < |s.events|
  {
    s.(events := s.events[e := s.events[e].(status := status)])
  }

  function SetRun(s: State, r: RunId, run: Run): State {
    s.(runs := s.runs[r := run])
  }

  function SetPhase(s: State, a: AttemptId, phase: Phase): State
    requires a < |s.attempts|
  {
    s.(attempts := s.attempts[a := s.attempts[a].(phase := phase)])
  }

  /** Takes the source lease away from run r, if r has it. */
  function Release(s: State, r: RunId): State {
    if s.ingest.Some? && s.ingest.value.leaseRun == Some(r)
    then s.(ingest := Some(s.ingest.value.(leaseRun := None, leaseUntil := None)))
    else s
  }

  /** Marks a run and its stage failed. */
  function FailRun(s: State, r: RunId, code: ErrorCode): State
    requires r in s.runs
  {
    SetRun(s, r, s.runs[r].(stage := Failed, stageError := Some(code), status := RunFailed, error := Some(code)))
  }

  /** The fence: the source is active and has not changed status since the event was made. */
  predicate Fenced(s: State, e: Event) { s.status == Active && s.generation == e.generation }

  predicate HoldsLease(s: State, r: RunId) { s.ingest.Some? && s.ingest.value.leaseRun == Some(r) }

  predicate After(t: Option<Time>, now: Time) { t.Some? && t.value > now }

  /** The rows of an insert that skips what violates the identity of observations. */
  function InsertNew(rows: seq<Observation>, added: seq<Observation>): seq<Observation> {
    if added == [] then rows
    else
      var before, last := InsertNew(rows, added[..|added| - 1]), added[|added| - 1];
      if last in before then before else before + [last]
  }

  function Observe(r: RunId, records: seq<Record>): seq<Observation> {
    seq(|records|, i requires 0 <= i < |records| => Observation(r, records[i].provider, records[i].body, records[i].observedAt))
  }

  function ObserveAt(r: RunId, records: seq<Record>, at: Time): seq<Observation> {
    seq(|records|, i requires 0 <= i < |records| => Observation(r, records[i].provider, records[i].body, at))
  }

  predicate Observed(s: State, r: RunId) { exists i :: 0 <= i < |s.observations| && s.observations[i].run == r }

  // --------------------------------------------------------------- requests: batches

  /** A batch as a collector sends it; its digest stands for its whole content. */
  datatype Delivery = Delivery(key: string, digest: string, cursorBefore: Option<Cursor>, cursorAfter: Option<Cursor>, records: seq<Record>)

  function IngestOf(s: State): Ingest { if s.ingest.Some? then s.ingest.value else Ingest(None, None, None) }

  function NewRun(key: string, stage: StageKey, now: Time): Run {
    Run(key, RunQueued, None, stage, Pending, None, 0, now, None)
  }

  /** Adds a batch, its run and its stage. */
  function AddRun(s: State, key: string, digest: string, stage: StageKey, now: Time): State {
    var r := s.nextRun;
    s.(batches := s.batches[key := Batch(digest, r)], runs := s.runs[r := NewRun(key, stage, now)], nextRun := r + 1)
  }

  function ReceiveBatch(s: State, d: Delivery, now: Time): (State, Answer) {
    if s.status != Active then (s, Conflict(NotActive))
    else if d.key in s.batches then
      if s.batches[d.key].payloadHash != d.digest then (s, Conflict(KeyReused))
      else (s, Replayed(s.batches[d.key].run))
    else
      var state := IngestOf(s);
      if After(state.leaseUntil, now) then (s, Conflict(LeaseHeld))
      else if state.cursor != d.cursorBefore then (s, Conflict(CursorStale))
      else
        var r := s.nextRun;
        var s1 := AddEvent(AddRun(s, d.key, d.digest, Receive, now), StageRequested(r), now);
        (s1.(observations := InsertNew(s.observations, Observe(r, d.records)),
             ingest := Some(Ingest(d.cursorAfter, Some(r), Some(now + COLLECTION_LEASE)))),
         Accepted(r))
  }

  /** `key` is the digest of the source, cursor, configuration and minute, behind its prefix. */
  function QueueCrawl(s: State, cursorBefore: Option<Cursor>, configuration: string, key: string, now: Time): (State, Answer) {
    var state := IngestOf(s);
    if s.status != Active then (s, Conflict(NotActive))
    else if state.cursor != cursorBefore then (s, Conflict(CursorStale))
    else if key in s.batches then (s, Replayed(s.batches[key].run))
    else if After(state.leaseUntil, now) then (s, Conflict(LeaseHeld))
    else
      var r := s.nextRun;
      var s1 := AddEvent(AddRun(s, key, configuration, CollectWeb, now), CrawlRequested(r, configuration), now);
      (s1.(ingest := Some(state.(leaseRun := Some(r), leaseUntil := Some(now + COLLECTION_LEASE)))), Accepted(r))
  }

  predicate IdentityUsed(s: State, id: string) { exists d :: d in s.documents && s.documents[d].externalId == Some(id) }

  /** `identity` is the digest of the file behind its prefix: the batch key and the document's external id. */
  function ReceiveFile(s: State, doc: DocId, rawUri: string, identity: string, digest: string, now: Time): (State, Answer) {
    if s.status != Active then (s, Conflict(NotActive))
    else if identity in s.batches then
      if s.batches[identity].payloadHash != digest then (s, Conflict(KeyReused))
      else if !IdentityUsed(s, identity) then (s, Conflict(DocumentGone))
      else (s, Replayed(s.batches[identity].run))
    else if doc in s.documents || IdentityUsed(s, identity) then (s, Conflict(IdentityTaken))
    else
      var r := s.nextRun;
      var s1 := AddRun(s, identity, digest, ParseFile, now);
      (AddEvent(s1.(documents := s.documents[doc := Document(Some(identity), Some(rawUri), Queued)]), FileUploaded(r, doc), now),
       Accepted(r))
  }

  /** The last event made for run r. */
  function LastEvent(events: seq<Event>, r: RunId): Option<Event> {
    if events == [] then None
    else if PayloadRun(events[|events| - 1].work) == Some(r) then Some(events[|events| - 1])
    else LastEvent(events[..|events| - 1], r)
  }

  /** Puts a failed run back to the start with a new event under the present generation. */
  function RetryRun(s: State, r: RunId, now: Time): (State, Answer) {
    if r !in s.runs then (s, Missing)
    else if s.status != Active then (s, Conflict(NotActive))
    else if s.runs[r].stage != Failed then (s, Replayed(r))
    else if s.ingest.Some? && s.ingest.value.leaseRun != None && s.ingest.value.leaseRun != Some(r) && After(s.ingest.value.leaseUntil, now)
    then (s, Conflict(LeaseHeld))
    else
      var run := s.runs[r].(stage := Pending, attempts := 0, stageError := None, nextAttempt := now, stageLease := None,
                            status := RunQueued, error := None);
      var prior := LastEvent(s.events, r);
      var s1 := AddEvent(SetRun(s, r, run), if prior.Some? then prior.value.work else StageRequested(r), now);
      (if s.ingest.None? then s1
       else s1.(ingest := Some(s.ingest.value.(leaseRun := Some(r), leaseUntil := Some(now + COLLECTION_LEASE)))),
       Accepted(r))
  }

  // ----------------------------------------------------------------- the dispatcher

  predicate Due(e: Event, now: Time) {
    || (e.status == EventPending && e.nextAttempt <= now)
    || (e.status == EventQueued && e.dispatchedAt.Some? && e.dispatchedAt.value < now - DISPATCH_STALE_AFTER)
  }

  /** The due events among the first n that no other transaction has locked, oldest first, up to the limit. */
  function Selected(events: seq<Event>, now: Time, locked: set<EventId>, n: nat): (r: seq<EventId>)
    requires n <= |events|
    ensures |r| <= DISPATCH_LIMIT
    ensures forall e | e in r :: e < n
  {
    if n == 0 then []
    else
      var before := Selected(events, now, locked, n - 1);
      if Due(events[n - 1], now) && n - 1 !in locked && |before| < DISPATCH_LIMIT then before + [n - 1] else before
  }

  function Dispatch(s: State, now: Time, locked: set<EventId>): State {
    var chosen := Selected(s.events, now, locked, |s.events|);
    s.(events := seq(|s.events|, i requires 0 <= i < |s.events| =>
      if i in chosen then s.events[i].(status := EventQueued, dispatchedAt := Some(now)) else s.events[i]))
  }

  // ------------------------------------------------------- the worker: collection runs

  predicate IsCollection(w: Work) { w.StageRequested? || w.CrawlRequested? }

  /** Fails a run and its event, and takes its lease away. */
  function Reject(s: State, r: RunId, e: EventId, code: ErrorCode): State
    requires r in s.runs && e < |s.events|
  {
    SetEvent(FailRun(Release(s, r), r, code), e, EventFailed)
  }

  /** Starts an attempt at the run of event e: the stage runs, its lease and the source lease begin anew. */
  function StartAttempt(s: State, e: EventId, r: RunId, now: Time): State
    requires r in s.runs && s.ingest.Some?
  {
    SetRun(s, r, s.runs[r].(stage := Running, attempts := s.runs[r].attempts + 1, stageLease := Some(now + STAGE_TIMEOUT),
                            stageError := None, status := RunRunning))
    .(ingest := Some(s.ingest.value.(leaseUntil := Some(now + COLLECTION_LEASE))),
      attempts := s.attempts + [Attempt(e, Working)])
  }

  /** First transaction: check the fence and the lease, and take the stage. */
  function Claim(s: State, e: EventId, now: Time): State {
    if e >= |s.events| || !IsCollection(s.events[e].work) || s.events[e].status == EventDelivered then s
    else
      var event, r := s.events[e], s.events[e].work.run;
      if r !in s.runs then SetEvent(s, e, EventFailed)
      else if !Fenced(s, event) then Reject(s, r, e, SourceUnavailable)
      else if s.runs[r].stage == Succeeded then SetEvent(s, e, EventDelivered)
      else if s.runs[r].stage == Running && After(s.runs[r].stageLease, now) then s
      else if !HoldsLease(s, r) || !After(s.ingest.value.leaseUntil, now) then Reject(s, r, e, LeaseExpired)
      else StartAttempt(s, e, r, now)
  }

  predicate InPhase(s: State, a: AttemptId, phases: set<Phase>) {
    a < |s.attempts| && s.attempts[a].phase in phases && s.attempts[a].event < |s.events|
    && !s.events[s.attempts[a].event].work.PurgeRequested?
  }

  /** The event and the run of an attempt. */
  function EventOf(s: State, a: AttemptId): Event
    requires a < |s.attempts| && s.attempts[a].event < |s.events|
  {
    s.events[s.attempts[a].event]
  }

  function RunOf(s: State, a: AttemptId): RunId
    requires a < |s.attempts| && s.attempts[a].event < |s.events| && !EventOf(s, a).work.PurgeRequested?
  {
    EventOf(s, a).work.run
  }

  /** The cursor after a crawl: the time of the event, unless the present cursor reads as a later instant. */
  function CrawlCursor(cursor: Option<Cursor>, at: Time): Cursor {
    if cursor.Some? && cursor.value.Stamp? && cursor.value.instant > at then cursor.value else Stamp(at, "isoformat")
  }

  /** Commits what a crawl brought; where the job is no longer the source's, nothing is stored. */
  function CrawlCommit(s: State, a: AttemptId, records: seq<Record>, digest: string): State {
    if !InPhase(s, a, {Working}) || !EventOf(s, a).work.CrawlRequested? then s
    else
      var event, r := EventOf(s, a), RunOf(s, a);
      if records == [] || |records| > 500 || !Fenced(s, event) || r !in s.runs || s.runs[r].batchKey !in s.batches || !HoldsLease(s, r) then s
      else
        var batch := s.batches[s.runs[r].batchKey];
        SetPhase(s, a, Collected)
        .(observations := InsertNew(s.observations, ObserveAt(r, records, event.occurredAt)),
          batches := s.batches[s.runs[r].batchKey := batch.(payloadHash := digest)],
          ingest := Some(s.ingest.value.(cursor := Some(CrawlCursor(s.ingest.value.cursor, event.occurredAt)))))
  }

  /** Reads whether the run's batch has observations. */
  function CheckObserved(s: State, a: AttemptId): State {
    if !InPhase(s, a, {Working, Collected}) || !IsCollection(EventOf(s, a).work) then s
    else if EventOf(s, a).work.CrawlRequested? != s.attempts[a].phase.Collected? then s
    else if RunOf(s, a) in s.runs && Observed(s, RunOf(s, a)) then SetPhase(s, a, Checked)
    else s
  }

  /** A timeout or a failed transport. Where the fence has fallen, the transaction is dropped by an undefined name. */
  function Transient(s: State, a: AttemptId, delay: nat, now: Time): State {
    if !InPhase(s, a, {Working, Collected, Checked}) || !IsCollection(EventOf(s, a).work) then s
    else
      var event, r := EventOf(s, a), RunOf(s, a);
      if r !in s.runs || !Fenced(s, event) then SetPhase(s, a, Over)
      else if s.runs[r].attempts >= MAX_STAGE_ATTEMPTS then SetPhase(s, a, Exhausted)
      else
        var s1 := SetRun(s, r, s.runs[r].(stage := Retrying, stageError := Some(TransientFailure), nextAttempt := now + delay,
                                          stageLease := None, status := RunQueued));
        var e := s.attempts[a].event;
        var s2 := SetPhase(s1.(events := s1.events[e := event.(status := EventPending, nextAttempt := now + delay)]), a, Over);
        if HoldsLease(s, r) then s2.(ingest := Some(s.ingest.value.(leaseUntil := Some(now + COLLECTION_LEASE)))) else s2
  }

  /** Any other error, or attempts used up. */
  function FailStage(s: State, a: AttemptId): State {
    if !InPhase(s, a, {Working, Collected, Checked, Exhausted}) || !IsCollection(EventOf(s, a).work) then s
    else
      var r, e := RunOf(s, a), s.attempts[a].event;
      var code := if s.attempts[a].phase.Exhausted? then RetryExhausted else StageFailed;
      if r !in s.runs then SetPhase(SetEvent(s, e, EventFailed), a, Over)
      else
        var s1 := FailRun(Release(s, r), r, code);
        SetPhase(SetEvent(SetRun(s1, r, s1.runs[r].(stageLease := None)), e, EventFailed), a, Over)
  }

  /** Last transaction of a good attempt: check the fence again, succeed, release the lease. */
  function Finish(s: State, a: AttemptId): State {
    if !InPhase(s, a, {Checked}) || !IsCollection(EventOf(s, a).work) then s
    else
      var event, r := EventOf(s, a), RunOf(s, a);
      if r !in s.runs then SetPhase(s, a, Over)
      else if !Fenced(s, event) then SetPhase(FailRun(Release(s, r), r, SourceUnavailable), a, Over)
      else
        SetPhase(SetRun(Release(s, r), r, s.runs[r].(stage := Succeeded, stageError := None, stageLease := None,
                                                     status := RunSucceeded, error := None)), a, Committed)
  }

  function MarkDelivered(s: State, a: AttemptId): State {
    if !InPhase(s, a, {Committed}) then s
    else SetPhase(SetEvent(s, s.attempts[a].event, EventDelivered), a, Over)
  }

  // ------------------------------------------------------------- the worker: files

  function SetExtraction(s: State, d: DocId, x: Extraction): State {
    if d in s.documents then s.(documents := s.documents[d := s.documents[d].(extraction := x)]) else s
  }

  function FileClaim(s: State, e: EventId, leaseUntil: Time, now: Time): State {
    if e >= |s.events| || !s.events[e].work.FileUploaded? || s.events[e].status == EventDelivered then s
    else
      var event, r, d := s.events[e], s.events[e].work.run, s.events[e].work.document;
      if r !in s.runs then SetEvent(s, e, EventFailed)
      else if d !in s.documents || !Fenced(s, event) then SetEvent(FailRun(s, r, SourceOrDocumentUnavailable), e, EventFailed)
      else if s.runs[r].stage == Succeeded then SetEvent(s, e, EventDelivered)
      else if s.runs[r].stage == Running && After(s.runs[r].stageLease, now) then s
      else
        var run := s.runs[r];
        var s1 := SetRun(s, r, run.(stage := Running, attempts := run.attempts + 1, stageLease := Some(leaseUntil), stageError := None, status := RunRunning));
        SetExtraction(s1, d, Processing).(attempts := s.attempts + [Attempt(e, Working)])
  }

  /** Stores what the parser made of a file. */
  function FileSave(s: State, a: AttemptId, parsed: Parsed): State {
    if !InPhase(s, a, {Working}) || !EventOf(s, a).work.FileUploaded? then s
    else
      var event, r, e := EventOf(s, a), RunOf(s, a), s.attempts[a].event;
      if r !in s.runs then SetPhase(SetEvent(s, e, EventFailed), a, Over)
      else if !Fenced(s, event) then SetPhase(SetEvent(FailRun(s, r, SourceUnavailable), e, EventFailed), a, Over)
      else if event.work.document !in s.documents then SetPhase(s, a, Over)
      else
        var needsOcr := parsed.warned && !parsed.hasText;
        var run := s.runs[r].(stage := Succeeded, stageLease := None, stageError := None,
                              status := if needsOcr then RunNeedsOcr else RunSucceeded, error := None);
        SetPhase(SetEvent(SetExtraction(SetRun(s, r, run), event.work.document, if needsOcr then NeedsOcr else Extracted), e, EventDelivered), a, Over)
  }

  function FileFail(s: State, a: AttemptId, timedOut: bool): State {
    if !InPhase(s, a, {Working}) || !EventOf(s, a).work.FileUploaded? then s
    else
      var event, r, e := EventOf(s, a), RunOf(s, a), s.attempts[a].event;
      var code := if timedOut then ParserTimeout else ParseFailed;
      if !Fenced(s, event) then SetPhase(SetEvent(s, e, EventFailed), a, Over)
      else
        var s1 := if r in s.runs then SetRun(FailRun(s, r, code), r, FailRun(s, r, code).runs[r].(stageLease := None)) else s;
        SetPhase(SetEvent(SetExtraction(s1, event.work.document, ExtractionFailed), e, EventFailed), a, Over)
  }

  // ------------------------------------------------------------ the source and its purge

  /** A change of status asked for by the owner; an archived source stays archived, an empty status is refused. */
  function PatchStatus(s: State, next: Option<SourceStatus>): State {
    if next.None? || (s.status == Archived && next.value != Archived) || next.value == s.status then s
    else s.(generation := s.generation + 1, status := next.value)
  }

  function Archive(s: State): State {
    if s.status == Archived then s else s.(generation := s.generation + 1, status := Archived)
  }

  function RawUris(s: State): set<string> {
    set d | d in s.documents && s.documents[d].rawUri.Some? && s.documents[d].rawUri.value != "" :: s.documents[d].rawUri.value
  }

  function StartPurge(s: State, now: Time): State {
    if s.purges != [] && (s.status == Archived || s.purges[|s.purges| - 1].status in {PurgeQueued, PurgeRunning}) then s
    else
      var s1 := Archive(s);
      AddEvent(s1.(purges := s1.purges + [Purge(s1.generation, RawUris(s1), PurgeQueued, None)]), PurgeRequested(|s1.purges|), now)
  }

  function PurgeFenceHolds(s: State, op: nat): bool
    requires op < |s.purges|
  {
    s.generation == s.purges[op].generation
  }

  /** Deletes the source's documents, observations, batches and, with these, runs. */
  function PurgeDelete(s: State, e: EventId): State {
    if e >= |s.events| || !s.events[e].work.PurgeRequested? || s.events[e].status == EventDelivered then s
    else
      var op := s.events[e].work.operation;
      if op >= |s.purges| then SetEvent(s, e, EventFailed)
      else if !PurgeFenceHolds(s, op) then
        SetEvent(s.(purges := s.purges[op := s.purges[op].(status := PurgeFailed, error := Some(SourceGenerationChanged))]), e, EventFailed)
      else if s.purges[op].status == PurgeSucceeded then SetEvent(s, e, EventDelivered)
      else
        s.(purges := s.purges[op := s.purges[op].(status := PurgeRunning, error := None)],
           events := seq(|s.events|, i requires 0 <= i < |s.events| =>
             if PayloadRun(s.events[i].work).Some? && PayloadRun(s.events[i].work).value in s.runs
             then s.events[i].(status := EventFailed) else s.events[i]),
           documents := map[], observations := [], batches := map[], runs := map[],
           ingest := if s.ingest.Some? then Some(s.ingest.value.(leaseRun := None, leaseUntil := None)) else None,
           attempts := s.attempts + [Attempt(e, Working)])
  }

  predicate Purging(s: State, a: AttemptId) {
    a < |s.attempts| && s.attempts[a].phase == Working && s.attempts[a].event < |s.events|
    && s.events[s.attempts[a].event].work.PurgeRequested? && s.events[s.attempts[a].event].work.operation < |s.purges|
  }

  /** After the files on the list: all removed, or one that is stuck. */
  function PurgeFinish(s: State, a: AttemptId, stuck: set<string>, now: Time): State {
    if !Purging(s, a) then s
    else
      var e := s.attempts[a].event;
      var op := s.events[e].work.operation;
      if s.purges[op].rawUris !! stuck then
        SetPhase(SetEvent(s.(purges := s.purges[op := s.purges[op].(status := PurgeSucceeded, error := None)]), e, EventDelivered), a, Over)
      else
        SetPhase(s.(purges := s.purges[op := s.purges[op].(status := PurgeFailed, error := Some(FileCleanupFailed))],
                    events := s.events[e := s.events[e].(status := EventPending, nextAttempt := now + PURGE_RETRY)]), a, Over)
  }

  // -------------------------------------------------------------- the owner's documents

  function CreateDocument(s: State, doc: DocId, externalId: Option<string>): State {
    if s.status != Active || doc in s.documents || (externalId.Some? && IdentityUsed(s, externalId.value)) then s
    else s.(documents := s.documents[doc := Document(externalId, None, Ready)])
  }

  function DeleteDocument(s: State, doc: DocId): State {
    s.(documents := s.documents - {doc})
  }

  // ------------------------------------------------------------------------- runs

  datatype Label =
    | DoReceive(delivery: Delivery, now: Time)
    | DoQueueCrawl(cursorBefore: Option<Cursor>, configuration: string, key: string, now: Time)
    | DoReceiveFile(doc: DocId, rawUri: string, identity: string, digest: string, now: Time)
    | DoRetry(run: RunId, now: Time)
    | DoDispatch(now: Time, locked: set<EventId>)
    | DoClaim(event: EventId, now: Time)
    | DoCrawlCommit(attempt: AttemptId, records: seq<Record>, digest: string)
    | DoCheck(attempt: AttemptId)
    | DoTransient(attempt: AttemptId, delay: nat, now: Time)
    | DoFailStage(attempt: AttemptId)
    | DoFinish(attempt: AttemptId)
    | DoMarkDelivered(attempt: AttemptId)
    | DoFileClaim(event: EventId, leaseUntil: Time, now: Time)
    | DoFileSave(attempt: AttemptId, parsed: Parsed)
    | DoFileFail(attempt: AttemptId, timedOut: bool)
    | DoPatchStatus(next: Option<SourceStatus>)
    | DoArchive
    | DoStartPurge(now: Time)
    | DoPurgeDelete(event: EventId)
    | DoPurgeFinish(attempt: AttemptId, stuck: set<string>, now: Time)
    | DoCreateDocument(doc: DocId, externalId: Option<string>)
    | DoDeleteDocument(doc: DocId)

  function Apply(s: State, l: Label): State {
    match l
    case DoReceive(d, now) => ReceiveBatch(s, d, now).0
    case DoQueueCrawl(cursor, configuration, key, now) => QueueCrawl(s, cursor, configuration, key, now).0
    case DoReceiveFile(doc, rawUri, identity, digest, now) => ReceiveFile(s, doc, rawUri, identity, digest, now).0
    case DoRetry(r, now) => RetryRun(s, r, now).0
    case DoDispatch(now, locked) => Dispatch(s, now, locked)
    case DoClaim(e, now) => Claim(s, e, now)
    case DoCrawlCommit(a, records, digest) => CrawlCommit(s, a, records, digest)
    case DoCheck(a) => CheckObserved(s, a)
    case DoTransient(a, delay, now) => Transient(s, a, delay, now)
    case DoFailStage(a) => FailStage(s, a)
    case DoFinish(a) => Finish(s, a)
    case DoMarkDelivered(a) => MarkDelivered(s, a)
    case DoFileClaim(e, leaseUntil, now) => FileClaim(s, e, leaseUntil, now)
    case DoFileSave(a, parsed) => FileSave(s, a, parsed)
    case DoFileFail(a, timedOut) => FileFail(s, a, timedOut)
    case DoPatchStatus(next) => PatchStatus(s, next)
    case DoArchive => Archive(s)
    case DoStartPurge(now) => StartPurge(s, now)
    case DoPurgeDelete(e) => PurgeDelete(s, e)
    case DoPurgeFinish(a, stuck, now) => PurgeFinish(s, a, stuck, now)
    case DoCreateDocument(doc, externalId) => CreateDocument(s, doc, externalId)
    case DoDeleteDocument(doc) => DeleteDocument(s, doc)
  }

  /** The state after a whole run of the system, from a new source. */
  function Exec(ls: seq<Label>): State {
    if ls == [] then NEW_SOURCE else Apply(Exec(ls[..|ls| - 1]), ls[|ls| - 1])
  }
}
