/** What every transaction of the collection protocol keeps. */
module CollectionInvariant {
  import opened Wrappers
  import opened Collection

  /** Run ids are handed out once. */
  ghost predicate RunsKnown(s: State) {
    && (forall r | r in s.runs :: r < s.nextRun)
    && (forall i | 0 <= i < |s.events| :: PayloadRun(s.events[i].work).Some? ==> PayloadRun(s.events[i].work).value < s.nextRun)
  }

  /** Batches and runs are one to one. */
  ghost predicate BatchesPaired(s: State) {
    && (forall k | k in s.batches :: s.batches[k].run in s.runs && s.runs[s.batches[k].run].batchKey == k)
    && (forall r | r in s.runs :: s.runs[r].batchKey in s.batches && s.batches[s.runs[r].batchKey].run == r)
  }

  predicate Fits(w: Work, key: StageKey) {
    match key
    case Receive => w.StageRequested?
    case CollectWeb => w.CrawlRequested?
    case ParseFile => w.FileUploaded?
  }

  /** An event asks for the stage its run has. */
  ghost predicate EventsFit(s: State) {
    forall i | 0 <= i < |s.events| ::
      PayloadRun(s.events[i].work).Some? && s.events[i].work.run in s.runs ==> Fits(s.events[i].work, s.runs[s.events[i].work.run].key)
  }

  /** Every run was asked for by some event. */
  ghost predicate RunsHaveEvents(s: State) {
    forall r | r in s.runs :: Asked(s.events, r)
  }

  ghost predicate Asked(events: seq<Event>, r: RunId) {
    exists i :: 0 <= i < |events| && PayloadRun(events[i].work) == Some(r)
  }

  lemma AskedGrows(before: seq<Event>, after: seq<Event>, r: RunId)
    requires Asked(before, r) && |before| <= |after| && forall i | 0 <= i < |before| :: after[i].work == before[i].work
    ensures Asked(after, r)
  {
    var i :| 0 <= i < |before| && PayloadRun(before[i].work) == Some(r);
    assert PayloadRun(after[i].work) == Some(r);
  }

  /** The prior event that a retry looks for exists. */
  lemma {:induction false} AskedHasLast(events: seq<Event>, r: RunId)
    ensures Asked(events, r) <==> LastEvent(events, r).Some?
    ensures LastEvent(events, r).Some? ==> LastEvent(events, r).value in events && PayloadRun(LastEvent(events, r).value.work) == Some(r)
  {
    if events != [] {
      var front, last := events[..|events| - 1], events[|events| - 1];
      AskedHasLast(front, r);
      if Asked(front, r) {
        var i :| 0 <= i < |front| && PayloadRun(front[i].work) == Some(r);
        assert events[i] == front[i];
      }
      if Asked(events, r) && PayloadRun(last.work) != Some(r) {
        var i :| 0 <= i < |events| && PayloadRun(events[i].work) == Some(r);
        assert front[i] == events[i];
      }
    }
  }

  predicate Collects(run: Run) { run.key != ParseFile }

  predicate Live(stage: StageStatus) { stage == Pending || stage == Running || stage == Retrying }

  /** The source lease names a run that exists; a collection run it names has not ended. */
  ghost predicate LeaseLive(s: State) {
    s.ingest.Some? && s.ingest.value.leaseRun.Some? ==>
      var r := s.ingest.value.leaseRun.value;
      r in s.runs && (Collects(s.runs[r]) ==> Live(s.runs[r].stage))
  }

  /** Attempts are at known events; one that has checked its run's observations has a run with observations. */
  ghost predicate AttemptsKnown(s: State) {
    forall a | 0 <= a < |s.attempts| ::
      && s.attempts[a].event < |s.events|
      && (s.attempts[a].phase == Checked ==>
            var w := s.events[s.attempts[a].event].work;
            IsCollection(w) && (w.run in s.runs ==> Observed(s, w.run)))
  }

  /** A collection run that succeeded has observations. */
  ghost predicate SuccessObserved(s: State) {
    forall r | r in s.runs :: Collects(s.runs[r]) && s.runs[r].stage == Succeeded ==> Observed(s, r)
  }

  /** A stage waiting to start has no attempts; one waiting to retry has some left. */
  ghost predicate AttemptsLeft(s: State) {
    forall r | r in s.runs ::
      && (s.runs[r].stage == Pending ==> s.runs[r].attempts == 0)
      && (s.runs[r].stage == Retrying ==> s.runs[r].attempts < MAX_STAGE_ATTEMPTS)
  }

  /** No observation of a batch is stored twice; each belongs to a run. */
  ghost predicate ObservationsDistinct(s: State) {
    && (forall i, j | 0 <= i < j < |s.observations| :: s.observations[i] != s.observations[j])
    && (forall i | 0 <= i < |s.observations| :: s.observations[i].run in s.runs)
  }

  ghost predicate Empty(s: State) {
    s.batches == map[] && s.runs == map[] && s.observations == [] && s.documents == map[]
    && (s.ingest.Some? ==> s.ingest.value.leaseRun.None?)
  }

  /** At most one purge; it holds the source archived under its generation, knows every file, and once begun leaves nothing. */
  ghost predicate PurgeFinal(s: State) {
    && |s.purges| <= 1
    && (s.purges != [] ==>
          && s.status == Archived && s.purges[0].generation == s.generation
          && (s.purges[0].status == PurgeQueued ==> RawUris(s) <= s.purges[0].rawUris)
          && (s.purges[0].status != PurgeQueued ==> Empty(s)))
  }

  /** No event is from a later generation than the source's. */
  ghost predicate GenerationsPast(s: State) {
    forall i | 0 <= i < |s.events| :: s.events[i].generation <= s.generation
  }

  /** A purge event names a purge that exists. */
  ghost predicate PurgesKnown(s: State) {
    forall i | 0 <= i < |s.events| :: s.events[i].work.PurgeRequested? ==> s.events[i].work.operation < |s.purges|
  }

  /** A worker that has taken up a purge has deleted the rows. */
  ghost predicate PurgeBegun(s: State) {
    forall a | 0 <= a < |s.attempts| && s.attempts[a].event < |s.events| ::
      var w := s.events[s.attempts[a].event].work;
      w.PurgeRequested? ==> w.operation < |s.purges| && s.purges[w.operation].status != PurgeQueued
  }

  /** What holds between the rows. */
  ghost predicate RowsAgree(s: State) {
    && RunsKnown(s) && BatchesPaired(s) && EventsFit(s) && RunsHaveEvents(s) && PurgesKnown(s)
    && ObservationsDistinct(s) && PurgeFinal(s) && GenerationsPast(s)
  }

  /** What holds of the work under way. */
  ghost predicate WorkSound(s: State) {
    LeaseLive(s) && AttemptsKnown(s) && PurgeBegun(s) && SuccessObserved(s) && AttemptsLeft(s)
  }

  ghost predicate Inv(s: State) { RowsAgree(s) && WorkSound(s) }

  // -------------------------------------------------- changes that keep everything

  /** The same outbox but for what dispatching and delivery note on it. */
  ghost predicate SameWork(before: seq<Event>, after: seq<Event>) {
    && |after| == |before|
    && forall i | 0 <= i < |before| :: after[i].work == before[i].work && after[i].generation == before[i].generation
  }

  lemma RetouchKeeps(s: State, events: seq<Event>)
    requires Inv(s) && SameWork(s.events, events)
    ensures Inv(s.(events := events))
  {
    hide RowsAgree, WorkSound;
    RetouchRows(s, events);
    RetouchWork(s, events);
  }

  lemma RetouchRows(s: State, events: seq<Event>)
    requires RowsAgree(s) && SameWork(s.events, events)
    ensures RowsAgree(s.(events := events))
  {
    hide Asked;
    forall r | r in s.runs ensures Asked(events, r) { AskedGrows(s.events, events, r); }
    assert RawUris(s.(events := events)) == RawUris(s);
  }

  lemma RetouchWork(s: State, events: seq<Event>)
    requires WorkSound(s) && SameWork(s.events, events)
    ensures WorkSound(s.(events := events))
  {
    assert forall r :: Observed(s.(events := events), r) == Observed(s, r);
  }

  lemma SetEventKeeps(s: State, e: EventId, status: EventStatus)
    requires Inv(s) && e < |s.events|
    ensures Inv(SetEvent(s, e, status))
  {
    hide Inv;
    RetouchKeeps(s, SetEvent(s, e, status).events);
  }

  /** What a stage may become without touching its lease, its attempts bound or its success. */
  ghost predicate MayBecome(s: State, r: RunId, run: Run) {
    && r in s.runs
    && run.batchKey == s.runs[r].batchKey && run.key == s.runs[r].key
    && (HoldsLease(s, r) && Collects(run) ==> Live(run.stage))
    && (Collects(run) && run.stage == Succeeded ==> Observed(s, r))
    && (run.stage == Pending ==> run.attempts == 0)
    && (run.stage == Retrying ==> run.attempts < MAX_STAGE_ATTEMPTS)
  }

  lemma SetRunKeeps(s: State, r: RunId, run: Run)
    requires Inv(s) && MayBecome(s, r, run)
    ensures Inv(SetRun(s, r, run))
  {
    hide RowsAgree, WorkSound, SetRun, MayBecome;
    SetRunRows(s, r, run);
    SetRunWork(s, r, run);
  }

  lemma SetRunRows(s: State, r: RunId, run: Run)
    requires RowsAgree(s) && MayBecome(s, r, run)
    ensures RowsAgree(SetRun(s, r, run))
  {
    hide Asked, PurgeFinal, ObservationsDistinct;
    SetRunFrame(s, r, run);
  }

  lemma SetRunFrame(s: State, r: RunId, run: Run)
    requires r in s.runs
    ensures PurgeFinal(s) ==> PurgeFinal(SetRun(s, r, run))
    ensures ObservationsDistinct(s) ==> ObservationsDistinct(SetRun(s, r, run))
  {
    assert RawUris(SetRun(s, r, run)) == RawUris(s);
    assert s.runs != map[];
  }

  lemma SetRunWork(s: State, r: RunId, run: Run)
    requires WorkSound(s) && MayBecome(s, r, run)
    ensures WorkSound(SetRun(s, r, run))
  {
    assert forall q :: Observed(SetRun(s, r, run), q) == Observed(s, q);
  }

  /** The lease runs longer or shorter, or to nobody; the cursor moves. */
  lemma SetIngestKeeps(s: State, ingest: Ingest)
    requires Inv(s)
    requires ingest.leaseRun.None? || (s.ingest.Some? && ingest.leaseRun == s.ingest.value.leaseRun)
    ensures Inv(s.(ingest := Some(ingest)))
  {
    var t := s.(ingest := Some(ingest));
    assert forall q :: Observed(t, q) == Observed(s, q);
    assert RawUris(t) == RawUris(s);
  }

  lemma ReleaseKeeps(s: State, r: RunId)
    requires Inv(s)
    ensures Inv(Release(s, r)) && !HoldsLease(Release(s, r), r)
  {
    hide Inv;
    if HoldsLease(s, r) { SetIngestKeeps(s, s.ingest.value.(leaseRun := None, leaseUntil := None)); }
  }

  lemma FailRunKeeps(s: State, r: RunId, code: ErrorCode)
    requires Inv(s) && r in s.runs && (Collects(s.runs[r]) ==> !HoldsLease(s, r))
    ensures Inv(FailRun(s, r, code))
  {
    hide Inv;
    SetRunKeeps(s, r, FailRun(s, r, code).runs[r]);
  }

  lemma SetAttemptsKeeps(s: State, attempts: seq<Attempt>)
    requires Inv(s) && AttemptsKnown(s.(attempts := attempts)) && PurgeBegun(s.(attempts := attempts))
    ensures Inv(s.(attempts := attempts))
  {
    var t := s.(attempts := attempts);
    assert forall q :: Observed(t, q) == Observed(s, q);
    assert RawUris(t) == RawUris(s);
  }

  lemma SetPhaseKeeps(s: State, a: AttemptId, phase: Phase)
    requires Inv(s) && a < |s.attempts| && phase != Checked
    ensures Inv(SetPhase(s, a, phase))
  {
    SetAttemptsKeeps(s, SetPhase(s, a, phase).attempts);
  }

  lemma StartAttemptKeeps(s: State, e: EventId)
    requires Inv(s) && e < |s.events| && !s.events[e].work.PurgeRequested?
    ensures Inv(s.(attempts := s.attempts + [Attempt(e, Working)]))
  {
    SetAttemptsKeeps(s, s.attempts + [Attempt(e, Working)]);
  }

  ghost predicate MayAsk(s: State, work: Work) {
    if work.PurgeRequested? then work.operation < |s.purges| else work.run in s.runs && Fits(work, s.runs[work.run].key)
  }

  lemma AddEventKeeps(s: State, work: Work, now: Time)
    requires Inv(s) && MayAsk(s, work)
    ensures Inv(AddEvent(s, work, now))
  {
    hide RowsAgree, WorkSound, AddEvent, MayAsk;
    AddEventRows(s, work, now);
    AddEventWork(s, work, now);
  }

  lemma AddEventRows(s: State, work: Work, now: Time)
    requires RowsAgree(s) && MayAsk(s, work)
    ensures RowsAgree(AddEvent(s, work, now))
  {
    hide Asked;
    var t := AddEvent(s, work, now);
    forall r | r in s.runs ensures Asked(t.events, r) { AskedGrows(s.events, t.events, r); }
    assert RawUris(t) == RawUris(s);
  }

  lemma AddEventWork(s: State, work: Work, now: Time)
    requires WorkSound(s)
    ensures WorkSound(AddEvent(s, work, now))
  {
    assert forall q :: Observed(AddEvent(s, work, now), q) == Observed(s, q);
  }

  lemma SetDocumentsKeeps(s: State, documents: map<DocId, Document>)
    requires Inv(s)
    requires s.purges != [] ==> documents.Keys <= s.documents.Keys && forall d | d in documents :: documents[d].rawUri == s.documents[d].rawUri
    ensures Inv(s.(documents := documents))
  {
    var t := s.(documents := documents);
    assert forall q :: Observed(t, q) == Observed(s, q);
    if s.purges != [] { assert RawUris(t) <= RawUris(s); }
  }

  /** A new run, with its batch and the event that asks for it. */
  lemma NewRunKeeps(s: State, key: string, digest: string, stage: StageKey, work: Work, now: Time)
    requires Inv(s) && s.status == Active && key !in s.batches
    requires PayloadRun(work) == Some(s.nextRun) && Fits(work, stage)
    ensures Inv(AddEvent(AddRun(s, key, digest, stage, now), work, now))
  {
    hide RowsAgree, WorkSound, AddEvent, AddRun;
    NewRunRows(s, key, digest, stage, work, now);
    NewRunWork(s, key, digest, stage, work, now);
  }

  lemma NewRunRows(s: State, key: string, digest: string, stage: StageKey, work: Work, now: Time)
    requires RowsAgree(s) && s.status == Active && key !in s.batches
    requires PayloadRun(work) == Some(s.nextRun) && Fits(work, stage)
    ensures RowsAgree(AddEvent(AddRun(s, key, digest, stage, now), work, now))
  {
    hide Asked, BatchesPaired;
    var t := AddEvent(AddRun(s, key, digest, stage, now), work, now);
    NewRunPaired(s, key, digest, stage, work, now);
    LastIsAsked(s.events, Event(work, s.generation, now, EventPending, now, None));
    forall r | r in s.runs ensures Asked(t.events, r) { AskedGrows(s.events, t.events, r); }
  }

  lemma LastIsAsked(events: seq<Event>, event: Event)
    requires PayloadRun(event.work).Some?
    ensures Asked(events + [event], PayloadRun(event.work).value)
  {
    assert (events + [event])[|events|] == event;
  }

  lemma NewRunPaired(s: State, key: string, digest: string, stage: StageKey, work: Work, now: Time)
    requires RunsKnown(s) && BatchesPaired(s) && key !in s.batches
    ensures BatchesPaired(AddEvent(AddRun(s, key, digest, stage, now), work, now))
  {
    assert s.nextRun !in s.runs;
    assert forall k | k in s.batches :: s.batches[k].run in s.runs;
  }

  lemma NewRunWork(s: State, key: string, digest: string, stage: StageKey, work: Work, now: Time)
    requires RowsAgree(s) && WorkSound(s)
    ensures WorkSound(AddEvent(AddRun(s, key, digest, stage, now), work, now))
  {
    assert forall q :: Observed(AddEvent(AddRun(s, key, digest, stage, now), work, now), q) == Observed(s, q);
  }

  /** The lease is given to a run that has not ended, or to a file run. */
  lemma GrantLeaseKeeps(s: State, ingest: Ingest)
    requires Inv(s) && s.status == Active && ingest.leaseRun.Some? && ingest.leaseRun.value in s.runs
    requires Collects(s.runs[ingest.leaseRun.value]) ==> Live(s.runs[ingest.leaseRun.value].stage)
    ensures Inv(s.(ingest := Some(ingest)))
  {
    var t := s.(ingest := Some(ingest));
    assert forall q :: Observed(t, q) == Observed(s, q);
    assert RawUris(t) == RawUris(s);
  }

  lemma {:induction false} InsertNewFacts(rows: seq<Observation>, added: seq<Observation>)
    requires forall i, j | 0 <= i < j < |rows| :: rows[i] != rows[j]
    ensures var r := InsertNew(rows, added);
            && (forall i, j | 0 <= i < j < |r| :: r[i] != r[j])
            && rows <= r
            && (forall o :: o in r <==> o in rows || o in added)
  {
    if added != [] {
      var front, last := added[..|added| - 1], added[|added| - 1];
      InsertNewFacts(rows, front);
      assert forall o :: o in added <==> o in front || o == last;
      var before := InsertNew(rows, front);
      if last !in before {
        assert forall o :: o in before + [last] <==> o in before || o == last;
      }
    }
  }

  /** Observations of a known run are added. */
  lemma {:induction false} InsertKeeps(s: State, r: RunId, added: seq<Observation>)
    requires Inv(s) && s.status == Active && r in s.runs && forall o | o in added :: o.run == r
    ensures Inv(s.(observations := InsertNew(s.observations, added)))
  {
    hide InsertNew, WorkSound, Observed, EventsFit, BatchesPaired, RunsKnown, RunsHaveEvents;
    var rows := InsertNew(s.observations, added);
    InsertNewFacts(s.observations, added);
    forall i | 0 <= i < |rows| ensures rows[i].run in s.runs { assert rows[i] in rows; }
    InsertFrame(s, rows);
    InsertWork(s, rows);
  }

  lemma InsertFrame(s: State, rows: seq<Observation>)
    ensures var t := s.(observations := rows);
            (EventsFit(t) <==> EventsFit(s)) && (BatchesPaired(t) <==> BatchesPaired(s)) && (RunsKnown(t) <==> RunsKnown(s))
            && (RunsHaveEvents(t) <==> RunsHaveEvents(s))
  {}

  lemma InsertWork(s: State, rows: seq<Observation>)
    requires WorkSound(s) && s.observations <= rows
    ensures WorkSound(s.(observations := rows))
  {
    var t := s.(observations := rows);
    forall q | Observed(s, q) ensures Observed(t, q) {
      var i :| 0 <= i < |s.observations| && s.observations[i].run == q;
      assert rows[i].run == q;
    }
  }

  lemma SetHashKeeps(s: State, key: string, digest: string)
    requires Inv(s) && s.status == Active && key in s.batches
    ensures Inv(s.(batches := s.batches[key := s.batches[key].(payloadHash := digest)]))
  {
    hide WorkSound, EventsFit, BatchesPaired, RunsKnown, RunsHaveEvents, ObservationsDistinct;
    SetHashFrame(s, key, digest);
  }

  lemma SetHashFrame(s: State, key: string, digest: string)
    requires key in s.batches
    ensures var t := s.(batches := s.batches[key := s.batches[key].(payloadHash := digest)]);
            && (WorkSound(s) ==> WorkSound(t)) && (BatchesPaired(s) ==> BatchesPaired(t))
            && (EventsFit(t) <==> EventsFit(s)) && (RunsKnown(t) <==> RunsKnown(s))
            && (RunsHaveEvents(t) <==> RunsHaveEvents(s)) && (ObservationsDistinct(t) <==> ObservationsDistinct(s))
  {
    var t := s.(batches := s.batches[key := s.batches[key].(payloadHash := digest)]);
    assert forall q :: Observed(t, q) == Observed(s, q);
  }

  // ----------------------------------------------------------- every transaction

  lemma ReceiveKeeps(s: State, d: Delivery, now: Time)
    requires Inv(s)
    ensures Inv(ReceiveBatch(s, d, now).0)
  {
    hide Inv, AddEvent, AddRun, InsertNew;
    var state, r := IngestOf(s), s.nextRun;
    if s.status == Active && d.key !in s.batches && !After(state.leaseUntil, now) && state.cursor == d.cursorBefore {
      NewRunKeeps(s, d.key, d.digest, Receive, StageRequested(r), now);
      NewRunFields(s, d.key, d.digest, Receive, StageRequested(r), now);
      var s1 := AddEvent(AddRun(s, d.key, d.digest, Receive, now), StageRequested(r), now);
      InsertKeeps(s1, r, Observe(r, d.records));
      GrantLeaseKeeps(s1.(observations := InsertNew(s1.observations, Observe(r, d.records))),
                      Ingest(d.cursorAfter, Some(r), Some(now + COLLECTION_LEASE)));
    }
  }

  lemma NewRunFields(s: State, key: string, digest: string, stage: StageKey, work: Work, now: Time)
    ensures var t := AddEvent(AddRun(s, key, digest, stage, now), work, now);
            && t.status == s.status && t.generation == s.generation && t.observations == s.observations && t.ingest == s.ingest
            && t.documents == s.documents && t.purges == s.purges && t.attempts == s.attempts
            && t.runs == s.runs[s.nextRun := NewRun(key, stage, now)]
            && t.batches == s.batches[key := Batch(digest, s.nextRun)]
            && t.events == s.events + [Event(work, s.generation, now, EventPending, now, None)]
            && t.nextRun == s.nextRun + 1
  {}

  lemma QueueCrawlKeeps(s: State, cursorBefore: Option<Cursor>, configuration: string, key: string, now: Time)
    requires Inv(s)
    ensures Inv(QueueCrawl(s, cursorBefore, configuration, key, now).0)
  {
    hide Inv, AddEvent, AddRun;
    var state, r := IngestOf(s), s.nextRun;
    if s.status == Active && state.cursor == cursorBefore && key !in s.batches && !After(state.leaseUntil, now) {
      NewRunKeeps(s, key, configuration, CollectWeb, CrawlRequested(r, configuration), now);
      NewRunFields(s, key, configuration, CollectWeb, CrawlRequested(r, configuration), now);
      GrantLeaseKeeps(AddEvent(AddRun(s, key, configuration, CollectWeb, now), CrawlRequested(r, configuration), now),
                      state.(leaseRun := Some(r), leaseUntil := Some(now + COLLECTION_LEASE)));
    }
  }

  lemma ReceiveFileKeeps(s: State, doc: DocId, rawUri: string, identity: string, digest: string, now: Time)
    requires Inv(s)
    ensures Inv(ReceiveFile(s, doc, rawUri, identity, digest, now).0)
  {
    if ReceiveFile(s, doc, rawUri, identity, digest, now).1.Accepted? {
      var work := FileUploaded(s.nextRun, doc);
      NewRunKeeps(s, identity, digest, ParseFile, work, now);
      var s1 := AddEvent(AddRun(s, identity, digest, ParseFile, now), work, now);
      ActiveHasNoPurge(s);
      hide Inv;
      SetDocumentsKeeps(s1, s1.documents[doc := Document(Some(identity), Some(rawUri), Queued)]);
    }
  }

  lemma ActiveHasNoPurge(s: State)
    requires Inv(s)
    ensures s.status != Archived ==> s.purges == []
    ensures |s.purges| <= 1
  {}

  lemma PriorFits(s: State, r: RunId)
    requires Inv(s) && r in s.runs
    ensures LastEvent(s.events, r).Some? && PayloadRun(LastEvent(s.events, r).value.work) == Some(r)
    ensures Fits(LastEvent(s.events, r).value.work, s.runs[r].key)
  {
    hide Asked, LastEvent;
    assert Asked(s.events, r);
    AskedHasLast(s.events, r);
    var i :| 0 <= i < |s.events| && s.events[i] == LastEvent(s.events, r).value;
  }

  lemma RetryKeeps(s: State, r: RunId, now: Time)
    requires Inv(s)
    ensures Inv(RetryRun(s, r, now).0)
  {
    hide Inv, LastEvent, After;
    if RetryRun(s, r, now).1.Accepted? {
      var run := s.runs[r].(stage := Pending, attempts := 0, stageError := None, nextAttempt := now, stageLease := None,
                            status := RunQueued, error := None);
      var prior := LastEvent(s.events, r);
      PriorFits(s, r);
      SetRunKeeps(s, r, run);
      AddEventKeeps(SetRun(s, r, run), prior.value.work, now);
      if s.ingest.Some? {
        GrantLeaseKeeps(AddEvent(SetRun(s, r, run), prior.value.work, now),
                        s.ingest.value.(leaseRun := Some(r), leaseUntil := Some(now + COLLECTION_LEASE)));
      }
    }
  }

  lemma DispatchKeeps(s: State, now: Time, locked: set<EventId>)
    requires Inv(s)
    ensures Inv(Dispatch(s, now, locked))
  {
    hide Inv, Selected;
    RetouchKeeps(s, Dispatch(s, now, locked).events);
  }

  /** Failing a run with its lease taken away, and its event. */
  lemma RejectKeeps(s: State, r: RunId, e: EventId, code: ErrorCode)
    requires Inv(s) && r in s.runs && e < |s.events|
    ensures Inv(FailRun(Release(s, r), r, code))
    ensures Inv(Reject(s, r, e, code))
  {
    hide Inv;
    ReleaseKeeps(s, r);
    FailRunKeeps(Release(s, r), r, code);
    SetEventKeeps(FailRun(Release(s, r), r, code), e, EventFailed);
  }

  lemma ClaimKeeps(s: State, e: EventId, now: Time)
    requires Inv(s)
    ensures Inv(Claim(s, e, now))
  {
    hide Inv;
    if e < |s.events| && IsCollection(s.events[e].work) && s.events[e].status != EventDelivered {
      var r := s.events[e].work.run;
      SetEventKeeps(s, e, EventFailed);
      SetEventKeeps(s, e, EventDelivered);
      if r in s.runs {
        RejectKeeps(s, r, e, SourceUnavailable);
        RejectKeeps(s, r, e, LeaseExpired);
        if HoldsLease(s, r) {
          var run := s.runs[r].(stage := Running, attempts := s.runs[r].attempts + 1, stageLease := Some(now + STAGE_TIMEOUT),
                                stageError := None, status := RunRunning);
          SetRunKeeps(s, r, run);
          var s1 := SetRun(s, r, run);
          var ingest := s.ingest.value.(leaseUntil := Some(now + COLLECTION_LEASE));
          SetIngestKeeps(s1, ingest);
          StartAttemptKeeps(s1.(ingest := Some(ingest)), e);
        }
      }
    }
  }

  lemma CrawlCommitKeeps(s: State, a: AttemptId, records: seq<Record>, digest: string)
    requires Inv(s)
    ensures Inv(CrawlCommit(s, a, records, digest))
  {
    hide Inv, InsertNew;
    if CrawlCommit(s, a, records, digest) != s {
      var event, r := EventOf(s, a), RunOf(s, a);
      SetPhaseKeeps(s, a, Collected);
      var s1 := SetPhase(s, a, Collected);
      InsertKeeps(s1, r, ObserveAt(r, records, event.occurredAt));
      var s2 := s1.(observations := InsertNew(s.observations, ObserveAt(r, records, event.occurredAt)));
      SetHashKeeps(s2, s.runs[r].batchKey, digest);
      SetIngestKeeps(s2.(batches := s.batches[s.runs[r].batchKey := s.batches[s.runs[r].batchKey].(payloadHash := digest)]),
                     s.ingest.value.(cursor := Some(CrawlCursor(s.ingest.value.cursor, event.occurredAt))));
    }
  }

  lemma CheckKeeps(s: State, a: AttemptId)
    requires Inv(s)
    ensures Inv(CheckObserved(s, a))
  {
    var t := CheckObserved(s, a);
    if t != s { SetAttemptsKeeps(s, t.attempts); }
  }

  lemma TransientKeeps(s: State, a: AttemptId, delay: nat, now: Time)
    requires Inv(s)
    ensures Inv(Transient(s, a, delay, now))
  {
    hide Inv;
    if InPhase(s, a, {Working, Collected, Checked}) && IsCollection(EventOf(s, a).work) {
      var event, r, e := EventOf(s, a), RunOf(s, a), s.attempts[a].event;
      SetPhaseKeeps(s, a, Over);
      SetPhaseKeeps(s, a, Exhausted);
      if r in s.runs && s.runs[r].attempts < MAX_STAGE_ATTEMPTS {
        var run := s.runs[r].(stage := Retrying, stageError := Some(TransientFailure), nextAttempt := now + delay,
                              stageLease := None, status := RunQueued);
        SetRunKeeps(s, r, run);
        var s1 := SetRun(s, r, run);
        var events := s.events[e := event.(status := EventPending, nextAttempt := now + delay)];
        RetouchKeeps(s1, events);
        SetPhaseKeeps(s1.(events := events), a, Over);
        if HoldsLease(s, r) {
          SetIngestKeeps(SetPhase(s1.(events := events), a, Over), s.ingest.value.(leaseUntil := Some(now + COLLECTION_LEASE)));
        }
      }
    }
  }

  lemma FailStageKeeps(s: State, a: AttemptId)
    requires Inv(s)
    ensures Inv(FailStage(s, a))
  {
    hide Inv;
    if InPhase(s, a, {Working, Collected, Checked, Exhausted}) && IsCollection(EventOf(s, a).work) {
      var r, e := RunOf(s, a), s.attempts[a].event;
      if r !in s.runs {
        SetEventKeeps(s, e, EventFailed);
        SetPhaseKeeps(SetEvent(s, e, EventFailed), a, Over);
      } else {
        var code := if s.attempts[a].phase.Exhausted? then RetryExhausted else StageFailed;
        RejectKeeps(s, r, e, code);
        ReleaseKeeps(s, r);
        var s1 := FailRun(Release(s, r), r, code);
        var run := s1.runs[r].(stageLease := None);
        SetRunKeeps(s1, r, run);
        SetEventKeeps(SetRun(s1, r, run), e, EventFailed);
        SetPhaseKeeps(SetEvent(SetRun(s1, r, run), e, EventFailed), a, Over);
      }
    }
  }

  lemma CheckedIsObserved(s: State, a: AttemptId)
    requires Inv(s) && InPhase(s, a, {Checked})
    ensures IsCollection(EventOf(s, a).work)
    ensures RunOf(s, a) in s.runs ==> Observed(s, RunOf(s, a))
  {}

  lemma FinishKeeps(s: State, a: AttemptId)
    requires Inv(s)
    ensures Inv(Finish(s, a))
  {
    hide Inv;
    if InPhase(s, a, {Checked}) && IsCollection(EventOf(s, a).work) {
      var r := RunOf(s, a);
      CheckedIsObserved(s, a);
      SetPhaseKeeps(s, a, Over);
      if r in s.runs {
        RejectKeeps(s, r, s.attempts[a].event, SourceUnavailable);
        SetPhaseKeeps(FailRun(Release(s, r), r, SourceUnavailable), a, Over);
        ReleaseKeeps(s, r);
        var run := s.runs[r].(stage := Succeeded, stageError := None, stageLease := None, status := RunSucceeded, error := None);
        assert Observed(Release(s, r), r);
        SetRunKeeps(Release(s, r), r, run);
        SetPhaseKeeps(SetRun(Release(s, r), r, run), a, Committed);
      }
    }
  }

  lemma MarkDeliveredKeeps(s: State, a: AttemptId)
    requires Inv(s)
    ensures Inv(MarkDelivered(s, a))
  {
    hide Inv;
    if InPhase(s, a, {Committed}) {
      SetEventKeeps(s, s.attempts[a].event, EventDelivered);
      SetPhaseKeeps(SetEvent(s, s.attempts[a].event, EventDelivered), a, Over);
    }
  }

  lemma FileRunIsNoCollection(s: State, e: EventId)
    requires Inv(s) && e < |s.events| && s.events[e].work.FileUploaded? && s.events[e].work.run in s.runs
    ensures !Collects(s.runs[s.events[e].work.run])
  {}

  lemma SetExtractionKeeps(s: State, d: DocId, x: Extraction)
    requires Inv(s)
    ensures Inv(SetExtraction(s, d, x))
  {
    hide Inv;
    if d in s.documents { SetDocumentsKeeps(s, SetExtraction(s, d, x).documents); }
  }

  lemma FileClaimKeeps(s: State, e: EventId, leaseUntil: Time, now: Time)
    requires Inv(s)
    ensures Inv(FileClaim(s, e, leaseUntil, now))
  {
    hide Inv;
    if e < |s.events| && s.events[e].work.FileUploaded? && s.events[e].status != EventDelivered {
      var r, d := s.events[e].work.run, s.events[e].work.document;
      SetEventKeeps(s, e, EventFailed);
      SetEventKeeps(s, e, EventDelivered);
      if r in s.runs {
        FileRunIsNoCollection(s, e);
        FailRunKeeps(s, r, SourceOrDocumentUnavailable);
        SetEventKeeps(FailRun(s, r, SourceOrDocumentUnavailable), e, EventFailed);
        var run := s.runs[r].(stage := Running, attempts := s.runs[r].attempts + 1, stageLease := Some(leaseUntil), stageError := None, status := RunRunning);
        SetRunKeeps(s, r, run);
        SetExtractionKeeps(SetRun(s, r, run), d, Processing);
        StartAttemptKeeps(SetExtraction(SetRun(s, r, run), d, Processing), e);
      }
    }
  }

  lemma FileSaveKeeps(s: State, a: AttemptId, parsed: Parsed)
    requires Inv(s)
    ensures Inv(FileSave(s, a, parsed))
  {
    hide Inv;
    if InPhase(s, a, {Working}) && EventOf(s, a).work.FileUploaded? {
      var event, r, e := EventOf(s, a), RunOf(s, a), s.attempts[a].event;
      SetEventKeeps(s, e, EventFailed);
      SetPhaseKeeps(SetEvent(s, e, EventFailed), a, Over);
      SetPhaseKeeps(s, a, Over);
      if r in s.runs {
        FileRunIsNoCollection(s, e);
        FailRunKeeps(s, r, SourceUnavailable);
        SetEventKeeps(FailRun(s, r, SourceUnavailable), e, EventFailed);
        SetPhaseKeeps(SetEvent(FailRun(s, r, SourceUnavailable), e, EventFailed), a, Over);
        var needsOcr := parsed.warned && !parsed.hasText;
        var run := s.runs[r].(stage := Succeeded, stageLease := None, stageError := None,
                              status := if needsOcr then RunNeedsOcr else RunSucceeded, error := None);
        SetRunKeeps(s, r, run);
        var x := if needsOcr then NeedsOcr else Extracted;
        SetExtractionKeeps(SetRun(s, r, run), event.work.document, x);
        var s1 := SetExtraction(SetRun(s, r, run), event.work.document, x);
        SetEventKeeps(s1, e, EventDelivered);
        SetPhaseKeeps(SetEvent(s1, e, EventDelivered), a, Over);
      }
    }
  }

  lemma FileFailKeeps(s: State, a: AttemptId, timedOut: bool)
    requires Inv(s)
    ensures Inv(FileFail(s, a, timedOut))
  {
    hide Inv;
    if InPhase(s, a, {Working}) && EventOf(s, a).work.FileUploaded? {
      var event, r, e := EventOf(s, a), RunOf(s, a), s.attempts[a].event;
      var code := if timedOut then ParserTimeout else ParseFailed;
      SetEventKeeps(s, e, EventFailed);
      SetPhaseKeeps(SetEvent(s, e, EventFailed), a, Over);
      var s1 := s;
      if r in s.runs {
        FileRunIsNoCollection(s, e);
        FailRunKeeps(s, r, code);
        var run := FailRun(s, r, code).runs[r].(stageLease := None);
        SetRunKeeps(FailRun(s, r, code), r, run);
        s1 := SetRun(FailRun(s, r, code), r, run);
      }
      SetExtractionKeeps(s1, event.work.document, ExtractionFailed);
      var s2 := SetExtraction(s1, event.work.document, ExtractionFailed);
      SetEventKeeps(s2, e, EventFailed);
      SetPhaseKeeps(SetEvent(s2, e, EventFailed), a, Over);
    }
  }

  lemma StatusKeeps(s: State, status: SourceStatus)
    requires Inv(s) && s.status != Archived
    ensures Inv(s.(generation := s.generation + 1, status := status))
  {
    var t := s.(generation := s.generation + 1, status := status);
    assert forall q :: Observed(t, q) == Observed(s, q);
  }

  lemma StartPurgeKeeps(s: State, now: Time)
    requires Inv(s)
    ensures Inv(StartPurge(s, now))
  {
    ActiveHasNoPurge(s);
    if s.purges == [] {
      if s.status != Archived { StatusKeeps(s, Archived); }
      AddPurgeKeeps(Archive(s));
      hide Inv;
      var s1 := Archive(s);
      AddEventKeeps(s1.(purges := [Purge(s1.generation, RawUris(s1), PurgeQueued, None)]), PurgeRequested(0), now);
      assert [] + [Purge(s1.generation, RawUris(s1), PurgeQueued, None)] == [Purge(s1.generation, RawUris(s1), PurgeQueued, None)];
    }
  }

  lemma AddPurgeKeeps(s: State)
    requires Inv(s) && s.status == Archived && s.purges == []
    ensures Inv(s.(purges := [Purge(s.generation, RawUris(s), PurgeQueued, None)]))
  {
    var t := s.(purges := [Purge(s.generation, RawUris(s), PurgeQueued, None)]);
    assert forall q :: Observed(t, q) == Observed(s, q);
    assert RawUris(t) == RawUris(s);
  }

  lemma SetPurgeKeeps(s: State, status: PurgeStatus, error: Option<ErrorCode>)
    requires Inv(s) && s.purges != [] && s.purges[0].status != PurgeQueued && status != PurgeQueued
    ensures Inv(s.(purges := s.purges[0 := s.purges[0].(status := status, error := error)]))
  {
    var t := s.(purges := s.purges[0 := s.purges[0].(status := status, error := error)]);
    assert forall q :: Observed(t, q) == Observed(s, q);
  }

  lemma PurgeFacts(s: State, e: EventId)
    requires Inv(s) && e < |s.events| && s.events[e].work.PurgeRequested?
    ensures |s.purges| == 1 && s.events[e].work.operation == 0 && s.purges[0].generation == s.generation
    ensures forall a | 0 <= a < |s.attempts| && s.attempts[a].event == e :: s.purges[0].status != PurgeQueued
  {}

  /** The rows are gone, and a worker has taken up the purge. */
  function Emptied(s: State, e: EventId): State
    requires s.purges != []
  {
    s.(purges := s.purges[0 := s.purges[0].(status := PurgeRunning, error := None)],
       documents := map[], observations := [], batches := map[], runs := map[],
       ingest := if s.ingest.Some? then Some(s.ingest.value.(leaseRun := None, leaseUntil := None)) else None,
       attempts := s.attempts + [Attempt(e, Working)])
  }

  lemma EmptiedKeeps(s: State, e: EventId)
    requires Inv(s) && e < |s.events| && s.events[e].work.PurgeRequested? && s.purges != []
    ensures Inv(Emptied(s, e))
  {
    PurgeFacts(s, e);
    var t := Emptied(s, e);
    forall a | 0 <= a < |t.attempts| ensures t.attempts[a].event < |t.events| {
      if a < |s.attempts| { assert t.attempts[a] == s.attempts[a]; }
    }
  }

  lemma PurgeDeleteKeeps(s: State, e: EventId)
    requires Inv(s)
    ensures Inv(PurgeDelete(s, e))
  {
    hide Inv;
    if e < |s.events| && s.events[e].work.PurgeRequested? && s.events[e].status != EventDelivered {
      PurgeFacts(s, e);
      SetEventKeeps(s, e, EventDelivered);
      if s.purges[0].status != PurgeSucceeded {
        var t := s.(events := PurgeDelete(s, e).events);
        RetouchKeeps(s, t.events);
        EmptiedKeeps(t, e);
      }
    }
  }

  lemma PurgeFinishKeeps(s: State, a: AttemptId, stuck: set<string>, now: Time)
    requires Inv(s)
    ensures Inv(PurgeFinish(s, a, stuck, now))
  {
    hide Inv;
    if Purging(s, a) {
      var e := s.attempts[a].event;
      PurgeFacts(s, e);
      SetPurgeKeeps(s, PurgeSucceeded, None);
      SetPurgeKeeps(s, PurgeFailed, Some(FileCleanupFailed));
      var s1 := s.(purges := s.purges[0 := s.purges[0].(status := PurgeSucceeded, error := None)]);
      var s2 := s.(purges := s.purges[0 := s.purges[0].(status := PurgeFailed, error := Some(FileCleanupFailed))]);
      SetEventKeeps(s1, e, EventDelivered);
      SetPhaseKeeps(SetEvent(s1, e, EventDelivered), a, Over);
      RetouchKeeps(s2, s.events[e := s.events[e].(status := EventPending, nextAttempt := now + PURGE_RETRY)]);
      SetPhaseKeeps(s2.(events := s.events[e := s.events[e].(status := EventPending, nextAttempt := now + PURGE_RETRY)]), a, Over);
    }
  }

  lemma DocumentsKeep(s: State, doc: DocId, externalId: Option<string>)
    requires Inv(s)
    ensures Inv(CreateDocument(s, doc, externalId)) && Inv(DeleteDocument(s, doc))
  {
    ActiveHasNoPurge(s);
    hide Inv;
    SetDocumentsKeeps(s, s.documents - {doc});
    if CreateDocument(s, doc, externalId) != s {
      SetDocumentsKeeps(s, s.documents[doc := Document(externalId, None, Ready)]);
    }
  }

  /** Every transaction keeps the invariant. */
  lemma StepKeepsInvariant(s: State, l: Label)
    requires Inv(s)
    ensures Inv(Apply(s, l))
  {
    hide Inv;
    match l
    case DoReceive(d, now) => ReceiveKeeps(s, d, now);
    case DoQueueCrawl(cursor, configuration, key, now) => QueueCrawlKeeps(s, cursor, configuration, key, now);
    case DoReceiveFile(doc, rawUri, identity, digest, now) => ReceiveFileKeeps(s, doc, rawUri, identity, digest, now);
    case DoRetry(r, now) => RetryKeeps(s, r, now);
    case DoDispatch(now, locked) => DispatchKeeps(s, now, locked);
    case DoClaim(e, now) => ClaimKeeps(s, e, now);
    case DoCrawlCommit(a, records, digest) => CrawlCommitKeeps(s, a, records, digest);
    case DoCheck(a) => CheckKeeps(s, a);
    case DoTransient(a, delay, now) => TransientKeeps(s, a, delay, now);
    case DoFailStage(a) => FailStageKeeps(s, a);
    case DoFinish(a) => FinishKeeps(s, a);
    case DoMarkDelivered(a) => MarkDeliveredKeeps(s, a);
    case DoFileClaim(e, leaseUntil, now) => FileClaimKeeps(s, e, leaseUntil, now);
    case DoFileSave(a, parsed) => FileSaveKeeps(s, a, parsed);
    case DoFileFail(a, timedOut) => FileFailKeeps(s, a, timedOut);
    case DoPatchStatus(next) => if PatchStatus(s, next) != s { StatusKeeps(s, next.value); }
    case DoArchive => if s.status != Archived { StatusKeeps(s, Archived); }
    case DoStartPurge(now) => StartPurgeKeeps(s, now);
    case DoPurgeDelete(e) => PurgeDeleteKeeps(s, e);
    case DoPurgeFinish(a, stuck, now) => PurgeFinishKeeps(s, a, stuck, now);
    case DoCreateDocument(doc, externalId) => DocumentsKeep(s, doc, externalId);
    case DoDeleteDocument(doc) => DocumentsKeep(s, doc, None);
  }

  lemma NewSourceInvariant()
    ensures Inv(NEW_SOURCE)
  {}

  /** The invariant holds after every run of the system. */
  lemma {:induction false} RunsKeepInvariant(ls: seq<Label>)
    ensures Inv(Exec(ls))
  {
    hide Inv, Apply;
    if ls == [] {
      NewSourceInvariant();
    } else {
      RunsKeepInvariant(ls[..|ls| - 1]);
      StepKeepsInvariant(Exec(ls[..|ls| - 1]), ls[|ls| - 1]);
    }
  }
}
