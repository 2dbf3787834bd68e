/**
 The transactions of the collection protocol as the program carries them out: statement by
 statement on the rows of one source. Each method is proved to do to the rows exactly what
 the step of the same name does to a state, so what holds of runs of steps holds of it.
 */
module CollectionStore {
  import opened Wrappers
  import opened Collection
  import opened CollectionInvariant

  /** The next run has no observations. */
  lemma NoObservationsYet(s: State)
    requires Inv(s)
    ensures forall i, j | 0 <= i < j < |s.observations| :: s.observations[i] != s.observations[j]
    ensures forall i | 0 <= i < |s.observations| :: s.observations[i].run != s.nextRun
  {}

  lemma PurgedIsArchived(s: State)
    requires Inv(s) && s.purges != []
    ensures s.status == Archived && |s.purges| == 1
  {}

  class Store {
    var status: SourceStatus
    var generation: int
    var ingest: Option<Ingest>
    var batches: map<string, Batch>
    var runs: map<RunId, Run>
    var events: seq<Event>
    var observations: seq<Observation>
    var documents: map<DocId, Document>
    var purges: seq<Purge>
    var attempts: seq<Attempt>
    var nextRun: RunId

    function View(): State
      reads this
    {
      State(status, generation, ingest, batches, runs, events, observations, documents, purges, attempts, nextRun)
    }

    ghost predicate Valid()
      reads this
    {
      Inv(View())
    }

    constructor ()
      ensures View() == NEW_SOURCE && Valid()
    {
      status, generation, ingest := Active, 1, None;
      batches, runs, events, observations, documents := map[], map[], [], [], map[];
      purges, attempts, nextRun := [], [], 0;
      new;
      NewSourceInvariant();
    }

    // --------------------------------------------------------------- shared parts

    method AddBatch(key: string, digest: string, stage: StageKey, now: Time) returns (r: RunId)
      modifies this`batches, this`runs, this`nextRun
      ensures r == old(nextRun) && View() == AddRun(old(View()), key, digest, stage, now)
    {
      r := nextRun;
      nextRun := nextRun + 1;
      batches := batches[key := Batch(digest, r)];
      runs := runs[r := Run(key, RunQueued, None, stage, Pending, None, 0, now, None)];
    }

    method Emit(work: Work, now: Time)
      modifies this`events
      ensures View() == AddEvent(old(View()), work, now)
    {
      events := events + [Event(work, generation, now, EventPending, now, None)];
    }

    method NoteEvent(e: EventId, status: EventStatus)
      requires e < |events|
      modifies this`events
      ensures View() == SetEvent(old(View()), e, status)
    {
      events := events[e := events[e].(status := status)];
    }

    method Move(a: AttemptId, phase: Phase)
      requires a < |attempts|
      modifies this`attempts
      ensures View() == SetPhase(old(View()), a, phase)
    {
      attempts := attempts[a := attempts[a].(phase := phase)];
    }

    method ReleaseLease(r: RunId)
      modifies this`ingest
      ensures View() == Release(old(View()), r)
    {
      if ingest.Some? && ingest.value.leaseRun == Some(r) {
        ingest := Some(ingest.value.(leaseRun := None, leaseUntil := None));
      }
    }

    method MarkFailed(r: RunId, code: ErrorCode)
      requires r in runs
      modifies this`runs
      ensures View() == FailRun(old(View()), r, code)
    {
      runs := runs[r := runs[r].(stage := Failed, stageError := Some(code))];
      runs := runs[r := runs[r].(status := RunFailed, error := Some(code))];
    }

    // -------------------------------------------------------------------- requests

    /** modules/ingestion/public.py receive_batch. */
    method ReceiveBatch(d: Delivery, now: Time) returns (answer: Answer)
      requires Valid()
      modifies this
      ensures (View(), answer) == Collection.ReceiveBatch(old(View()), d, now)
      ensures Valid() && (answer.Accepted? || View() == old(View()))
    {
      hide Inv, InsertNew, Observe;
      ReceiveKeeps(View(), d, now);
      NoObservationsYet(View());
      if status != Active { return Conflict(NotActive); }
      if d.key in batches {
        var existing := batches[d.key];
        if existing.payloadHash != d.digest { return Conflict(KeyReused); }
        return Replayed(existing.run);
      }
      var state := if ingest.Some? then ingest.value else Ingest(None, None, None);
      if state.leaseUntil.Some? && state.leaseUntil.value > now { return Conflict(LeaseHeld); }
      if state.cursor != d.cursorBefore { return Conflict(CursorStale); }
      var r := AddBatch(d.key, d.digest, Receive, now);
      Emit(StageRequested(r), now);
      StoreRecords(r, d.records);
      ingest := Some(Ingest(d.cursorAfter, Some(r), Some(now + COLLECTION_LEASE)));
      answer := Accepted(r);
    }

    /** The loop over the records of a batch: each distinct observation is stored once. */
    method StoreRecords(r: RunId, records: seq<Record>)
      requires forall i, j | 0 <= i < j < |observations| :: observations[i] != observations[j]
      requires forall i | 0 <= i < |observations| :: observations[i].run != r
      modifies this`observations
      ensures observations == InsertNew(old(observations), Observe(r, records))
    {
      var seen: set<Record> := {};
      ghost var all := Observe(r, records);
      for i := 0 to |records|
        invariant observations == InsertNew(old(observations), all[..i])
        invariant forall x: Record :: x in seen <==> Observation(r, x.provider, x.body, x.observedAt) in all[..i]
      {
        var record := records[i];
        assert all[..i + 1][..i] == all[..i] && all[..i + 1][i] == all[i];
        assert forall o :: o in all[..i + 1] <==> o in all[..i] || o == all[i];
        InsertNewFacts(old(observations), all[..i]);
        if record !in seen {
          seen := seen + {record};
          observations := observations + [Observation(r, record.provider, record.body, record.observedAt)];
        }
      }
      assert all[..|records|] == all;
    }

    /** modules/ingestion/public.py queue_connector_crawl. */
    method QueueCrawl(cursorBefore: Option<Cursor>, configuration: string, key: string, now: Time) returns (answer: Answer)
      requires Valid()
      modifies this
      ensures (View(), answer) == Collection.QueueCrawl(old(View()), cursorBefore, configuration, key, now)
      ensures Valid() && (answer.Accepted? || View() == old(View()))
    {
      hide Inv;
      QueueCrawlKeeps(View(), cursorBefore, configuration, key, now);
      if status != Active { return Conflict(NotActive); }
      var state := if ingest.Some? then ingest.value else Ingest(None, None, None);
      if state.cursor != cursorBefore { return Conflict(CursorStale); }
      if key in batches { return Replayed(batches[key].run); }
      if state.leaseUntil.Some? && state.leaseUntil.value > now { return Conflict(LeaseHeld); }
      var r := AddBatch(key, configuration, CollectWeb, now);
      Emit(CrawlRequested(r, configuration), now);
      ingest := Some(state.(leaseRun := Some(r), leaseUntil := Some(now + COLLECTION_LEASE)));
      answer := Accepted(r);
    }

    /** Whether some document of the source has this external id. */
    method HasIdentity(id: string) returns (found: bool)
      ensures found == IdentityUsed(View(), id)
    {
      var left := documents.Keys;
      while left != {}
        invariant left <= documents.Keys
        invariant forall d | d in documents.Keys - left :: documents[d].externalId != Some(id)
        decreases left
      {
        var d :| d in left;
        if documents[d].externalId == Some(id) { return true; }
        left := left - {d};
      }
      found := false;
    }

    /** modules/ingestion/public.py receive_file, with add_uploaded_document. */
    method ReceiveFile(doc: DocId, rawUri: string, identity: string, digest: string, now: Time) returns (answer: Answer)
      requires Valid()
      modifies this
      ensures (View(), answer) == Collection.ReceiveFile(old(View()), doc, rawUri, identity, digest, now)
      ensures Valid() && (answer.Accepted? || View() == old(View()))
    {
      hide Inv;
      ReceiveFileKeeps(View(), doc, rawUri, identity, digest, now);
      if status != Active { return Conflict(NotActive); }
      var known := HasIdentity(identity);
      if identity in batches {
        var existing := batches[identity];
        if existing.payloadHash != digest { return Conflict(KeyReused); }
        if !known { return Conflict(DocumentGone); }
        return Replayed(existing.run);
      }
      if doc in documents || known { return Conflict(IdentityTaken); }
      var r := AddBatch(identity, digest, ParseFile, now);
      documents := documents[doc := Document(Some(identity), Some(rawUri), Queued)];
      Emit(FileUploaded(r, doc), now);
      answer := Accepted(r);
    }

    /** The last event made for a run: newest first, one row. */
    method PriorEvent(r: RunId) returns (prior: Option<Event>)
      ensures prior == LastEvent(events, r)
    {
      var n := |events|;
      assert events[..n] == events;
      while n > 0
        invariant 0 <= n <= |events| && LastEvent(events, r) == LastEvent(events[..n], r)
      {
        assert events[..n][..n - 1] == events[..n - 1];
        if PayloadRun(events[n - 1].work) == Some(r) { return Some(events[n - 1]); }
        n := n - 1;
      }
      prior := None;
    }

    /** modules/ingestion/public.py retry_run; a conflict over the lease drops the transaction. */
    method RetryRun(r: RunId, now: Time) returns (answer: Answer)
      requires Valid()
      modifies this`runs, this`events, this`ingest
      ensures (View(), answer) == Collection.RetryRun(old(View()), r, now)
      ensures Valid() && (answer.Accepted? || View() == old(View()))
      ensures runs.Keys == old(runs).Keys && forall q | q in runs && q != r :: runs[q] == old(runs)[q]
    {
      hide Inv, After, LastEvent;
      RetryKeeps(View(), r, now);
      if r !in runs { return Missing; }
      if status != Active { return Conflict(NotActive); }
      if runs[r].stage != Failed { return Replayed(r); }
      if ingest.Some? && ingest.value.leaseRun != None && ingest.value.leaseRun != Some(r) && After(ingest.value.leaseUntil, now) {
        return Conflict(LeaseHeld);
      }
      var prior := PriorEvent(r);
      runs := runs[r := runs[r].(stage := Pending, attempts := 0, stageError := None, nextAttempt := now, stageLease := None,
                                 status := RunQueued, error := None)];
      Emit(if prior.Some? then prior.value.work else StageRequested(r), now);
      if ingest.Some? {
        ingest := Some(ingest.value.(leaseRun := Some(r), leaseUntil := Some(now + COLLECTION_LEASE)));
      }
      answer := Accepted(r);
    }

    // ------------------------------------------------------------------ dispatcher

    /** modules/ingestion/dispatcher.py dispatch_pending_work; `locked` are the rows it skips. */
    method DispatchPending(now: Time, locked: set<EventId>) returns (enqueued: nat)
      requires Valid()
      modifies this`events
      ensures View() == Dispatch(old(View()), now, locked) && Valid()
      ensures enqueued == |Selected(old(events), now, locked, |old(events)|)|
    {
      hide Inv;
      DispatchKeeps(View(), now, locked);
      var chosen: seq<EventId> := [];
      for i := 0 to |events|
        invariant events == old(events) && chosen == Selected(events, now, locked, i)
      {
        if Due(events[i], now) && i !in locked && |chosen| < DISPATCH_LIMIT { chosen := chosen + [i]; }
      }
      enqueued := 0;
      for k := 0 to |chosen|
        invariant enqueued == k && |events| == |old(events)|
        invariant forall i | 0 <= i < |events| ::
                    events[i] == if i in chosen[..k] then old(events)[i].(status := EventQueued, dispatchedAt := Some(now)) else old(events)[i]
      {
        var e := chosen[k];
        assert e in chosen;
        assert forall i :: i in chosen[..k + 1] <==> i in chosen[..k] || i == e;
        events := events[e := events[e].(status := EventQueued, dispatchedAt := Some(now))];
        enqueued := enqueued + 1;
      }
      assert chosen[..|chosen|] == chosen;
      assert events == Dispatch(old(View()), now, locked).events;
    }

    // --------------------------------------------------------- worker: collection runs

    /** apps/worker/main.py process_ingestion_event, first transaction. */
    method Claim(e: EventId, now: Time)
      requires Valid()
      modifies this`runs, this`events, this`ingest, this`attempts
      ensures View() == Collection.Claim(old(View()), e, now) && Valid()
      ensures runs.Keys == old(runs).Keys && forall r | r in runs && runs[r] != old(runs)[r] ::
                runs[r].stage == Failed || (runs[r].stage == Running && HoldsLease(View(), r) && runs[r].attempts == old(runs)[r].attempts + 1)
    {
      hide Inv, Fenced, After, Reject, StartAttempt;
      ClaimKeeps(View(), e, now);
      if e >= |events| || !IsCollection(events[e].work) || events[e].status == EventDelivered { return; }
      var event, r := events[e], events[e].work.run;
      if r !in runs { NoteEvent(e, EventFailed); return; }
      if !Fenced(View(), event) { RejectRun(r, e, SourceUnavailable); return; }
      if runs[r].stage == Succeeded { NoteEvent(e, EventDelivered); return; }
      if runs[r].stage == Running && After(runs[r].stageLease, now) { return; }
      if !HoldsLease(View(), r) || !After(ingest.value.leaseUntil, now) {
        RejectRun(r, e, LeaseExpired);
        return;
      }
      Begin(e, r, now);
    }

    method RejectRun(r: RunId, e: EventId, code: ErrorCode)
      requires r in runs && e < |events|
      modifies this`runs, this`events, this`ingest
      ensures View() == Reject(old(View()), r, e, code)
      ensures r in runs && runs == old(runs)[r := runs[r]] && runs[r].stage == Failed
    {
      MarkFailed(r, code);
      NoteEvent(e, EventFailed);
      ReleaseLease(r);
    }

    method Begin(e: EventId, r: RunId, now: Time)
      requires r in runs && ingest.Some?
      modifies this`runs, this`ingest, this`attempts
      ensures View() == StartAttempt(old(View()), e, r, now)
      ensures r in runs && runs == old(runs)[r := runs[r]] && runs[r].stage == Running && runs[r].attempts == old(runs)[r].attempts + 1
      ensures HoldsLease(View(), r) <==> HoldsLease(old(View()), r)
    {
      runs := runs[r := runs[r].(stage := Running, attempts := runs[r].attempts + 1)];
      runs := runs[r := runs[r].(stageLease := Some(now + STAGE_TIMEOUT), stageError := None, status := RunRunning)];
      ingest := Some(ingest.value.(leaseUntil := Some(now + COLLECTION_LEASE)));
      attempts := attempts + [Attempt(e, Working)];
    }

    /** INSERT ... ON CONFLICT DO NOTHING. */
    method InsertIgnoring(rows: seq<Observation>)
      modifies this`observations
      ensures observations == InsertNew(old(observations), rows)
    {
      for i := 0 to |rows|
        invariant observations == InsertNew(old(observations), rows[..i])
      {
        assert rows[..i + 1][..i] == rows[..i];
        if rows[i] !in observations { observations := observations + [rows[i]]; }
      }
      assert rows[..|rows|] == rows;
    }

    /** apps/worker/main.py _collect_web_job, the transaction; an error leaves the rows alone. */
    method CrawlCommit(a: AttemptId, records: seq<Record>, digest: string) returns (done: bool)
      requires Valid()
      modifies this
      ensures View() == Collection.CrawlCommit(old(View()), a, records, digest) && Valid()
      ensures done <==> View() != old(View())
    {
      hide Inv, Fenced, InsertNew;
      CrawlCommitKeeps(View(), a, records, digest);
      if !InPhase(View(), a, {Working}) || !EventOf(View(), a).work.CrawlRequested? { return false; }
      if records == [] || |records| > 500 { return false; }
      var event := events[attempts[a].event];
      var r := event.work.run;
      if !Fenced(View(), event) || r !in runs || runs[r].batchKey !in batches
         || !HoldsLease(View(), r) { return false; }
      var rows: seq<Observation> := [];
      for i := 0 to |records|
        invariant View() == old(View())
        invariant rows == ObserveAt(r, records, event.occurredAt)[..i]
      {
        rows := rows + [Observation(r, records[i].provider, records[i].body, event.occurredAt)];
      }
      assert rows == ObserveAt(r, records, event.occurredAt);
      InsertIgnoring(rows);
      batches := batches[runs[r].batchKey := batches[runs[r].batchKey].(payloadHash := digest)];
      var cursorAfter := Stamp(event.occurredAt, "isoformat");
      if ingest.value.cursor.Some? {
        var prior := ingest.value.cursor.value;
        if prior.Stamp? && prior.instant > event.occurredAt { cursorAfter := prior; }
      }
      ingest := Some(ingest.value.(cursor := Some(cursorAfter)));
      Move(a, Collected);
      assert attempts[a].phase == Collected && old(attempts)[a].phase == Working;
      done := true;
    }

    /** Counts the observations of the run's batch. */
    method CheckObserved(a: AttemptId)
      requires Valid()
      modifies this`attempts
      ensures View() == Collection.CheckObserved(old(View()), a) && Valid()
    {
      hide Inv;
      CheckKeeps(View(), a);
      if !InPhase(View(), a, {Working, Collected}) || !IsCollection(EventOf(View(), a).work) { return; }
      var event := events[attempts[a].event];
      if event.work.CrawlRequested? != attempts[a].phase.Collected? { return; }
      var r, observed := event.work.run, 0;
      for i := 0 to |observations|
        invariant View() == old(View())
        invariant observed > 0 <==> exists k :: 0 <= k < i && observations[k].run == r
      {
        if observations[i].run == r { observed := observed + 1; }
      }
      if r in runs && observed > 0 { Move(a, Checked); }
    }

    /** apps/worker/main.py process_ingestion_event, after a timeout or a failed transport. */
    method Transient(a: AttemptId, delay: nat, now: Time)
      requires Valid()
      modifies this`runs, this`events, this`ingest, this`attempts
      ensures View() == Collection.Transient(old(View()), a, delay, now) && Valid()
      ensures runs.Keys == old(runs).Keys && forall r | r in runs :: runs[r].stage in {old(runs)[r].stage, Retrying} && runs[r].attempts == old(runs)[r].attempts
      ensures forall r :: HoldsLease(View(), r) <==> HoldsLease(old(View()), r)
    {
      hide Inv, Fenced;
      TransientKeeps(View(), a, delay, now);
      if !InPhase(View(), a, {Working, Collected, Checked}) || !IsCollection(EventOf(View(), a).work) { return; }
      var e := attempts[a].event;
      var event, r := events[e], events[e].work.run;
      if r !in runs || !Fenced(View(), event) { Move(a, Over); return; }
      if runs[r].attempts >= MAX_STAGE_ATTEMPTS { Move(a, Exhausted); return; }
      runs := runs[r := runs[r].(stage := Retrying, stageError := Some(TransientFailure), nextAttempt := now + delay,
                                 stageLease := None, status := RunQueued)];
      events := events[e := events[e].(status := EventPending, nextAttempt := now + delay)];
      if HoldsLease(View(), r) {
        ingest := Some(ingest.value.(leaseUntil := Some(now + COLLECTION_LEASE)));
      }
      Move(a, Over);
    }

    /** apps/worker/main.py _fail_ingestion_stage. */
    method FailStage(a: AttemptId)
      requires Valid()
      modifies this`runs, this`events, this`ingest, this`attempts
      ensures View() == Collection.FailStage(old(View()), a) && Valid()
      ensures runs.Keys == old(runs).Keys && forall r | r in runs && runs[r] != old(runs)[r] :: runs[r].stage == Failed && !HoldsLease(View(), r)
    {
      hide Inv;
      FailStageKeeps(View(), a);
      if !InPhase(View(), a, {Working, Collected, Checked, Exhausted}) || !IsCollection(EventOf(View(), a).work) { return; }
      var e := attempts[a].event;
      var r := events[e].work.run;
      var code := if attempts[a].phase.Exhausted? then RetryExhausted else StageFailed;
      if r in runs {
        MarkFailed(r, code);
        runs := runs[r := runs[r].(stageLease := None)];
        ReleaseLease(r);
      }
      NoteEvent(e, EventFailed);
      Move(a, Over);
    }

    /** apps/worker/main.py process_ingestion_event, last transaction. */
    method Finish(a: AttemptId)
      requires Valid()
      modifies this`runs, this`ingest, this`attempts
      ensures View() == Collection.Finish(old(View()), a) && Valid()
      ensures runs.Keys == old(runs).Keys && forall r | r in runs && runs[r] != old(runs)[r] :: runs[r].stage in {Succeeded, Failed} && !HoldsLease(View(), r)
    {
      hide Inv, Fenced;
      FinishKeeps(View(), a);
      if !InPhase(View(), a, {Checked}) || !IsCollection(EventOf(View(), a).work) { return; }
      var event := events[attempts[a].event];
      var r := event.work.run;
      if r !in runs { Move(a, Over); return; }
      if !Fenced(View(), event) {
        MarkFailed(r, SourceUnavailable);
        ReleaseLease(r);
        Move(a, Over);
        return;
      }
      runs := runs[r := runs[r].(stage := Succeeded, stageError := None, stageLease := None, status := RunSucceeded, error := None)];
      ReleaseLease(r);
      Move(a, Committed);
    }

    /** modules/ingestion/dispatcher.py mark_event_delivered. */
    method MarkDelivered(a: AttemptId)
      requires Valid()
      modifies this`events, this`attempts
      ensures View() == Collection.MarkDelivered(old(View()), a) && Valid()
      ensures |events| == |old(events)| && forall i | 0 <= i < |events| && events[i] != old(events)[i] ::
                events[i].status == EventDelivered && a < |old(attempts)| && old(attempts)[a] == Attempt(i, Committed)
    {
      hide Inv;
      MarkDeliveredKeeps(View(), a);
      if !InPhase(View(), a, {Committed}) { return; }
      NoteEvent(attempts[a].event, EventDelivered);
      Move(a, Over);
    }

    // ---------------------------------------------------------------- worker: files

    method NoteExtraction(d: DocId, x: Extraction)
      modifies this`documents
      ensures View() == SetExtraction(old(View()), d, x)
    {
      if d in documents { documents := documents[d := documents[d].(extraction := x)]; }
    }

    /** modules/ingestion/worker.py process_uploaded_file, first transaction. */
    method FileClaim(e: EventId, leaseUntil: Time, now: Time)
      requires Valid()
      modifies this`runs, this`events, this`documents, this`attempts
      ensures View() == Collection.FileClaim(old(View()), e, leaseUntil, now) && Valid()
    {
      hide Inv, Fenced, After;
      FileClaimKeeps(View(), e, leaseUntil, now);
      if e >= |events| || !events[e].work.FileUploaded? || events[e].status == EventDelivered { return; }
      var event, r, d := events[e], events[e].work.run, events[e].work.document;
      if r !in runs { NoteEvent(e, EventFailed); return; }
      if d !in documents || !Fenced(View(), event) {
        MarkFailed(r, SourceOrDocumentUnavailable);
        NoteEvent(e, EventFailed);
        return;
      }
      if runs[r].stage == Succeeded { NoteEvent(e, EventDelivered); return; }
      if runs[r].stage == Running && After(runs[r].stageLease, now) { return; }
      runs := runs[r := runs[r].(stage := Running, attempts := runs[r].attempts + 1, stageLease := Some(leaseUntil),
                                 stageError := None, status := RunRunning)];
      NoteExtraction(d, Processing);
      attempts := attempts + [Attempt(e, Working)];
    }

    /** modules/ingestion/worker.py process_uploaded_file, the transaction that saves the extraction. */
    method FileSave(a: AttemptId, parsed: Parsed)
      requires Valid()
      modifies this`runs, this`events, this`documents, this`attempts
      ensures View() == Collection.FileSave(old(View()), a, parsed) && Valid()
    {
      hide Inv, Fenced;
      FileSaveKeeps(View(), a, parsed);
      if !InPhase(View(), a, {Working}) || !EventOf(View(), a).work.FileUploaded? { return; }
      var e := attempts[a].event;
      var event, r := events[e], events[e].work.run;
      if !Fenced(View(), event) || r !in runs {
        if r in runs { MarkFailed(r, SourceUnavailable); }
        NoteEvent(e, EventFailed);
        Move(a, Over);
        return;
      }
      if event.work.document !in documents { Move(a, Over); return; }
      var needsOcr := parsed.warned && !parsed.hasText;
      NoteExtraction(event.work.document, if needsOcr then NeedsOcr else Extracted);
      runs := runs[r := runs[r].(stage := Succeeded, stageLease := None, stageError := None,
                                 status := if needsOcr then RunNeedsOcr else RunSucceeded, error := None)];
      NoteEvent(e, EventDelivered);
      Move(a, Over);
    }

    /** modules/ingestion/worker.py process_uploaded_file, after any error. */
    method FileFail(a: AttemptId, timedOut: bool)
      requires Valid()
      modifies this`runs, this`events, this`documents, this`attempts
      ensures View() == Collection.FileFail(old(View()), a, timedOut) && Valid()
    {
      hide Inv, Fenced;
      FileFailKeeps(View(), a, timedOut);
      if !InPhase(View(), a, {Working}) || !EventOf(View(), a).work.FileUploaded? { return; }
      var e := attempts[a].event;
      var event, r := events[e], events[e].work.run;
      if Fenced(View(), event) {
        if r in runs {
          MarkFailed(r, if timedOut then ParserTimeout else ParseFailed);
          runs := runs[r := runs[r].(stageLease := None)];
        }
        NoteExtraction(event.work.document, ExtractionFailed);
      }
      NoteEvent(e, EventFailed);
      Move(a, Over);
    }

    // ------------------------------------------------------------ the source and its purge

    /** modules/sources/public.py update_source, the status part. */
    method PatchStatus(next: Option<SourceStatus>)
      requires Valid()
      modifies this`status, this`generation
      ensures View() == Collection.PatchStatus(old(View()), next) && Valid()
      ensures generation == old(generation) + if status == old(status) then 0 else 1
      ensures status == if next.None? || old(status) == Archived then old(status) else next.value
    {
      hide Inv;
      if next.Some? && status != Archived { StatusKeeps(View(), next.value); }
      if next.None? || (status == Archived && next.value != Archived) { return; }
      if next.value != status {
        generation := generation + 1;
        status := next.value;
      }
    }

    /** modules/sources/public.py archive_source. */
    method Archive()
      requires Valid()
      modifies this`status, this`generation
      ensures View() == Collection.Archive(old(View())) && Valid()
      ensures status == Archived && generation == old(generation) + if old(status) == Archived then 0 else 1
    {
      hide Inv;
      if status != Archived { StatusKeeps(View(), Archived); }
      if status != Archived {
        generation := generation + 1;
        status := Archived;
      }
    }

    /** modules/sources/public.py start_source_purge. */
    method StartPurge(now: Time)
      requires Valid()
      modifies this`status, this`generation, this`purges, this`events
      ensures View() == Collection.StartPurge(old(View()), now) && Valid()
      ensures status == Archived && |purges| == 1
    {
      hide Inv;
      StartPurgeKeeps(View(), now);
      if purges != [] && (status == Archived || purges[|purges| - 1].status in {PurgeQueued, PurgeRunning}) {
        PurgedIsArchived(View());
        return;
      }
      if status != Archived {
        generation := generation + 1;
        status := Archived;
      }
      var operation := |purges|;
      purges := purges + [Purge(generation, RawUris(View()), PurgeQueued, None)];
      Emit(PurgeRequested(operation), now);
      PurgedIsArchived(View());
    }

    /** modules/sources/worker.py process_source_purge, first transaction. */
    method PurgeDelete(e: EventId)
      requires Valid()
      modifies this
      ensures View() == Collection.PurgeDelete(old(View()), e) && Valid()
    {
      hide Inv;
      PurgeDeleteKeeps(View(), e);
      if e >= |events| || !events[e].work.PurgeRequested? || events[e].status == EventDelivered { return; }
      var op := events[e].work.operation;
      if op >= |purges| { NoteEvent(e, EventFailed); return; }
      if generation != purges[op].generation {
        purges := purges[op := purges[op].(status := PurgeFailed, error := Some(SourceGenerationChanged))];
        NoteEvent(e, EventFailed);
        return;
      }
      if purges[op].status == PurgeSucceeded { NoteEvent(e, EventDelivered); return; }
      purges := purges[op := purges[op].(status := PurgeRunning, error := None)];
      FailRunEvents();
      assert events == Collection.PurgeDelete(old(View()), e).events;
      documents := map[];
      observations := [];
      batches, runs := map[], map[];
      if ingest.Some? { ingest := Some(ingest.value.(leaseRun := None, leaseUntil := None)); }
      attempts := attempts + [Attempt(e, Working)];
    }

    /** Every event of a run that exists is marked failed. */
    method FailRunEvents()
      modifies this`events
      ensures |events| == |old(events)|
      ensures forall i | 0 <= i < |events| ::
                events[i] == if PayloadRun(old(events)[i].work).Some? && PayloadRun(old(events)[i].work).value in runs
                             then old(events)[i].(status := EventFailed) else old(events)[i]
    {
      for k := 0 to |events|
        invariant |events| == |old(events)|
        invariant forall i | 0 <= i < |events| ::
                    events[i] == if i < k && PayloadRun(old(events)[i].work).Some? && PayloadRun(old(events)[i].work).value in runs
                                 then old(events)[i].(status := EventFailed) else old(events)[i]
      {
        if PayloadRun(events[k].work).Some? && PayloadRun(events[k].work).value in runs {
          events := events[k := events[k].(status := EventFailed)];
        }
      }
    }

    /** modules/sources/worker.py process_source_purge, the files and the transaction after them. */
    method PurgeFinish(a: AttemptId, stored: set<string>, stuck: set<string>, now: Time) returns (left: set<string>)
      requires Valid()
      modifies this`purges, this`events, this`attempts
      ensures View() == Collection.PurgeFinish(old(View()), a, stuck, now) && Valid()
      ensures left <= stored && forall i | 0 <= i < |purges| && purges[i] != old(purges)[i] ::
                stored - purges[i].rawUris <= left && (purges[i].status == PurgeSucceeded ==> left !! purges[i].rawUris)
      ensures |purges| == |old(purges)| && forall i | 0 <= i < |purges| ::
                purges[i].rawUris == old(purges)[i].rawUris && purges[i].generation == old(purges)[i].generation
    {
      hide Inv;
      PurgeFinishKeeps(View(), a, stuck, now);
      if !Purging(View(), a) { return stored; }
      var e := attempts[a].event;
      var op := events[e].work.operation;
      var removed: bool;
      left, removed := UnlinkAll(stored, purges[op].rawUris, stuck);
      if removed {
        purges := purges[op := purges[op].(status := PurgeSucceeded, error := None)];
        NoteEvent(e, EventDelivered);
      } else {
        purges := purges[op := purges[op].(status := PurgeFailed, error := Some(FileCleanupFailed))];
        events := events[e := events[e].(status := EventPending, nextAttempt := now + PURGE_RETRY)];
      }
      Move(a, Over);
    }

    // ---------------------------------------------------------------- owner's documents

    /** modules/knowledge/documents/public.py create_document, the document row. */
    method CreateDocument(doc: DocId, externalId: Option<string>)
      requires Valid()
      modifies this`documents
      ensures View() == Collection.CreateDocument(old(View()), doc, externalId) && Valid()
    {
      hide Inv;
      DocumentsKeep(View(), doc, externalId);
      if status != Active || doc in documents { return; }
      if externalId.Some? {
        var known := HasIdentity(externalId.value);
        if known { return; }
      }
      documents := documents[doc := Document(externalId, None, Ready)];
    }

    /** modules/knowledge/documents/public.py delete_document. */
    method DeleteDocument(doc: DocId)
      requires Valid()
      modifies this`documents
      ensures View() == Collection.DeleteDocument(old(View()), doc) && Valid()
    {
      hide Inv;
      DocumentsKeep(View(), doc, None);
      documents := documents - {doc};
    }
  }

  /**
   modules/sources/worker.py process_source_purge, the files: every one on the list is
   unlinked, missing or not, until one cannot be.
   */
  method UnlinkAll(stored: set<string>, rawUris: set<string>, stuck: set<string>) returns (left: set<string>, removed: bool)
    ensures removed <==> rawUris !! stuck
    ensures removed ==> left == stored - rawUris
    ensures stored - rawUris <= left <= stored
  {
    left, removed := stored, true;
    var todo := rawUris;
    while todo != {} && removed
      invariant todo <= rawUris && stored - rawUris <= left <= stored
      invariant removed ==> left == stored - (rawUris - todo) && (rawUris - todo) !! stuck
      invariant !removed ==> !(rawUris !! stuck)
      decreases todo, removed
    {
      var uri :| uri in todo;
      if uri in stuck {
        removed := false;
      } else {
        left := left - {uri};
        todo := todo - {uri};
      }
    }
  }
}
