/**
 The outbox, uploaded files and the purge: which events are dispatched, what becomes of a file,
 and when a purge has succeeded. Times are given as numbers of milliseconds.
 */
module CollectionDelivery {
  import opened Wrappers
  import opened Collection
  import opened CollectionInvariant
  import opened CollectionEffect
  import opened CollectionHistory
  import opened CollectionFate
  import opened CollectionOutcome
  import opened CollectionPaths

  // ------------------------------------------------------------------- the dispatcher

  /** How many of the first n events are due and not locked. */
  function DueBefore(events: seq<Event>, now: Time, locked: set<EventId>, n: nat): nat
    requires n <= |events|
  {
    if n == 0 then 0 else DueBefore(events, now, locked, n - 1) + if IsDue(events[n - 1], now) && n - 1 !in locked then 1 else 0
  }

  lemma {:induction false} SelectedCount(events: seq<Event>, now: Time, locked: set<EventId>, n: nat)
    requires n <= |events|
    ensures |Selected(events, now, locked, n)| == if DueBefore(events, now, locked, n) < 100 then DueBefore(events, now, locked, n) else 100
  {
    hide Due, IsDue;
    if n > 0 {
      SelectedCount(events, now, locked, n - 1);
      FieldsTellDue(events[n - 1], now);
    }
  }

  lemma {:induction false} SelectedIff(events: seq<Event>, now: Time, locked: set<EventId>, n: nat, e: EventId)
    requires e < n <= |events|
    ensures e in Selected(events, now, locked, n) <==> IsDue(events[e], now) && e !in locked && DueBefore(events, now, locked, e) < 100
  {
    hide Due, IsDue, DueBefore;
    FieldsTellDue(events[n - 1], now);
    SelectedCount(events, now, locked, n - 1);
    if e < n - 1 { SelectedIff(events, now, locked, n - 1, e); }
  }

  lemma FieldsTellDue(e: Event, now: Time)
    ensures Due(e, now) <==> IsDue(e, now)
  {}

  /**
   Dispatch queues exactly the events that are due, not locked, and among the first hundred such
   in order of creation; it changes nothing else. A queued event is due again after thirty seconds.
   */
  lemma DispatchesDueEvents(s: State, now: Time, locked: set<EventId>)
    ensures var t := Dispatch(s, now, locked);
            && t == s.(events := t.events) && |t.events| == |s.events|
            && forall e | 0 <= e < |s.events| ::
                 t.events[e] == if IsDue(s.events[e], now) && e !in locked && DueBefore(s.events, now, locked, e) < 100
                                then s.events[e].(status := EventQueued, dispatchedAt := Some(now)) else s.events[e]
    ensures forall e: Event, later: Time :: IsDue(e.(status := EventQueued, dispatchedAt := Some(now)), later) <==> now + 30_000 < later
  {
    hide Selected, IsDue, DueBefore;
    forall e: nat | e < |s.events|
      ensures e in Selected(s.events, now, locked, |s.events|) <==> IsDue(s.events[e], now) && e !in locked && DueBefore(s.events, now, locked, e) < 100
    {
      SelectedIff(s.events, now, locked, |s.events|, e);
    }
    QueuedAgain(now);
  }

  lemma QueuedAgain(now: Time)
    ensures forall e: Event, later: Time :: IsDue(e.(status := EventQueued, dispatchedAt := Some(now)), later) <==> now + 30_000 < later
  {}

  // -------------------------------------------------------------------- uploaded files

  /** Attempt a is at event e, which asks to parse document d for run r, under the fence. */
  ghost predicate AtFile(s: State, a: AttemptId, e: EventId, r: RunId, d: DocId) {
    && a < |s.attempts| && s.attempts[a] == Attempt(e, Working) && e < |s.events| && s.events[e].work == FileUploaded(r, d)
    && r in s.runs && d in s.documents && Fenced(s, s.events[e])
  }

  /** An accepted upload adds its document and an event that is due at once; claiming that event starts the run. */
  lemma UploadStarts(s: State, doc: DocId, rawUri: string, identity: string, digest: string, now: Time, leaseUntil: Time, later: Time)
    requires ReceiveFile(s, doc, rawUri, identity, digest, now).1.Accepted?
    ensures var u := ReceiveFile(s, doc, rawUri, identity, digest, now).0; var e, r := |s.events|, s.nextRun;
            && NewEvent(s, u, now) && u.documents == s.documents[doc := Document(Some(identity), Some(rawUri), Queued)] && doc !in s.documents
            && ReceiveFile(s, doc, rawUri, identity, digest, now).1.run == r && identity in u.batches && u.batches[identity] == Batch(digest, r)
            && var t := FileClaim(u, e, leaseUntil, later);
            && AtFile(t, |s.attempts|, e, r, doc) && t.runs[r].stage == Running && t.runs[r].attempts == 1 && t.runs[r].stageLease == Some(leaseUntil)
            && t.documents[doc].extraction == Processing
  {
    hide IdentityUsed;
  }

  /** A file event whose document is there and whose fence stands starts an attempt unless the run has succeeded or one is running in its time. */
  lemma FileStarts(s: State, e: EventId, r: RunId, d: DocId, leaseUntil: Time, now: Time)
    requires e < |s.events| && s.events[e].work == FileUploaded(r, d) && s.events[e].status != EventDelivered
    requires r in s.runs && d in s.documents && Fenced(s, s.events[e]) && s.runs[r].stage != Succeeded
    requires s.runs[r].stage == Running ==> !After(s.runs[r].stageLease, now)
    ensures var t := FileClaim(s, e, leaseUntil, now);
            && AtFile(t, |s.attempts|, e, r, d) && t.attempts == s.attempts + [Attempt(e, Working)]
            && t.runs == s.runs[r := t.runs[r]] && t.runs[r].stage == Running && t.runs[r].status == RunRunning
            && t.runs[r].attempts == s.runs[r].attempts + 1 && t.runs[r].stageLease == Some(leaseUntil)
            && t.documents == s.documents[d := s.documents[d].(extraction := Processing)] && t.events == s.events
  {}

  /** The owner's documents: one is added to an active source if its id and its identity are new, and deleted whenever asked. */
  lemma OwnersDocuments(s: State, doc: DocId, externalId: Option<string>)
    ensures var taken := doc in s.documents || (externalId.Some? && exists d :: d in s.documents && s.documents[d].externalId == externalId);
            CreateDocument(s, doc, externalId) ==
            if s.status == Active && !taken then s.(documents := s.documents[doc := Document(externalId, None, Ready)]) else s
    ensures DeleteDocument(s, doc).documents.Keys == s.documents.Keys - {doc}
    ensures forall d | d in s.documents && d != doc :: DeleteDocument(s, doc).documents[d] == s.documents[d]
  {}

  /** What the parser made of a file decides how its run and its document end: text needing recognition, or success; and the event is delivered. */
  lemma ParsedFileEnds(s: State, a: AttemptId, e: EventId, r: RunId, d: DocId, parsed: Parsed)
    requires AtFile(s, a, e, r, d)
    ensures var t := FileSave(s, a, parsed); var ocr := parsed.warned && !parsed.hasText;
            && t.runs.Keys == s.runs.Keys && (forall q | q in s.runs && q != r :: t.runs[q] == s.runs[q])
            && t.runs[r].stage == Succeeded && t.runs[r].status == (if ocr then RunNeedsOcr else RunSucceeded)
            && t.runs[r].error == t.runs[r].stageError == None && t.runs[r].stageLease == None
            && t.documents == s.documents[d := s.documents[d].(extraction := if ocr then NeedsOcr else Extracted)]
            && t.events == s.events[e := s.events[e].(status := EventDelivered)] && t.ingest == s.ingest
            && t.attempts == s.attempts[a := Attempt(e, Over)]
  {
    assert FileSave(s, a, parsed).attempts == s.attempts[a := Attempt(e, Over)];
  }

  /** A file that cannot be parsed fails its run with the reason, its document and its event. */
  lemma UnparsedFileFails(s: State, a: AttemptId, e: EventId, r: RunId, d: DocId, timedOut: bool)
    requires AtFile(s, a, e, r, d)
    ensures var t := FileFail(s, a, timedOut);
            && t.runs.Keys == s.runs.Keys && (forall q | q in s.runs && q != r :: t.runs[q] == s.runs[q])
            && t.runs[r].stage == Failed && t.runs[r].status == RunFailed && t.runs[r].stageLease == None
            && t.runs[r].error == t.runs[r].stageError == Some(if timedOut then ParserTimeout else ParseFailed)
            && t.documents == s.documents[d := s.documents[d].(extraction := ExtractionFailed)]
            && t.events == s.events[e := s.events[e].(status := EventFailed)] && t.ingest == s.ingest
            && t.attempts == s.attempts[a := Attempt(e, Over)]
  {
    assert FileFail(s, a, timedOut).attempts == s.attempts[a := Attempt(e, Over)];
  }

  /** After the fence has fallen, nothing of a file is stored: saving fails the run, the handler fails the event only. */
  lemma FallenFileFence(s: State, a: AttemptId, e: EventId, r: RunId, d: DocId, parsed: Parsed, timedOut: bool)
    requires a < |s.attempts| && s.attempts[a] == Attempt(e, Working) && e < |s.events| && s.events[e].work == FileUploaded(r, d)
    requires r in s.runs && !Fenced(s, s.events[e])
    ensures var t := FileSave(s, a, parsed);
            && t.documents == s.documents && t.events == s.events[e := s.events[e].(status := EventFailed)]
            && t.runs == s.runs[r := t.runs[r]] && t.runs[r].stage == Failed && t.runs[r].error == t.runs[r].stageError == Some(SourceUnavailable)
    ensures FileFail(s, a, timedOut) ==
            s.(events := s.events[e := s.events[e].(status := EventFailed)], attempts := s.attempts[a := Attempt(e, Over)])
  {
    assert FileFail(s, a, timedOut).attempts == s.attempts[a := Attempt(e, Over)];
  }

  /** What a claim answers to a file event that is not delivered. */
  lemma FileClaimRefused(s: State, e: EventId, r: RunId, d: DocId, leaseUntil: Time, now: Time)
    requires e < |s.events| && s.events[e].work == FileUploaded(r, d) && s.events[e].status != EventDelivered && r in s.runs
    ensures var t := FileClaim(s, e, leaseUntil, now);
            && (d !in s.documents || !Fenced(s, s.events[e]) ==>
                  && t.runs == s.runs[r := t.runs[r]] && t.runs[r].stage == Failed
                  && t.runs[r].error == t.runs[r].stageError == Some(SourceOrDocumentUnavailable)
                  && t.events == s.events[e := s.events[e].(status := EventFailed)] && t.attempts == s.attempts && t.documents == s.documents)
            && (d in s.documents && Fenced(s, s.events[e]) && s.runs[r].stage == Succeeded ==>
                  t == s.(events := s.events[e := s.events[e].(status := EventDelivered)]))
            && (d in s.documents && Fenced(s, s.events[e]) && s.runs[r].stage == Running && After(s.runs[r].stageLease, now) ==> t == s)
  {}

  ghost predicate FileStored(s: State, identity: string, digest: string, r: RunId) {
    identity in s.batches && s.batches[identity] == Batch(digest, r) && r in s.runs && s.runs[r].key == ParseFile
  }

  lemma FileStoredStep(s: State, t: State, identity: string, digest: string, r: RunId)
    requires BatchesPaired(t) && PurgeLasts(s, t) && BatchesLast(s, t) && RunsPersist(s, t)
    requires FileStored(s, identity, digest, r) || s.status == Archived
    ensures FileStored(t, identity, digest, r) || t.status == Archived
  {}

  lemma {:induction false} FileStays(ls: seq<Label>, identity: string, digest: string, r: RunId, ms: seq<Label>)
    requires FileStored(Exec(ls), identity, digest, r)
    ensures FileStored(Exec(ls + ms), identity, digest, r) || Exec(ls + ms).status == Archived
    decreases |ms|
  {
    hide Exec, FileStored;
    if ms == [] {
      NoStep(ls);
    } else {
      FileStays(ls, identity, digest, r, ms[..|ms| - 1]);
      LastStep(ls, ms);
      assert BatchesPaired(Exec(ls + ms));
      hide Inv, EffectOnRuns;
      FileStoredStep(Exec(ls + ms[..|ms| - 1]), Exec(ls + ms), identity, digest, r);
    }
  }

  lemma UploadIsStored(s: State, doc: DocId, rawUri: string, identity: string, digest: string, now: Time)
    requires ReceiveFile(s, doc, rawUri, identity, digest, now).1.Accepted?
    ensures FileStored(ReceiveFile(s, doc, rawUri, identity, digest, now).0, identity, digest, ReceiveFile(s, doc, rawUri, identity, digest, now).1.run)
  {
    hide IdentityUsed;
  }

  /**
   The same file uploaded again, at any later moment the source is active, finds its run and
   changes nothing as long as its document is there; once that is deleted it is refused.
   */
  lemma {:induction false} ReuploadIsReplayed(ls: seq<Label>, doc: DocId, rawUri: string, identity: string, digest: string, now: Time, ms: seq<Label>,
                                              other: DocId, otherUri: string, later: Time)
    requires ReceiveFile(Exec(ls), doc, rawUri, identity, digest, now).1.Accepted?
    requires Exec(ls + [DoReceiveFile(doc, rawUri, identity, digest, now)] + ms).status == Active
    ensures var t := Exec(ls + [DoReceiveFile(doc, rawUri, identity, digest, now)] + ms);
            ReceiveFile(t, other, otherUri, identity, digest, later) ==
            (t, if exists d :: d in t.documents && t.documents[d].externalId == Some(identity)
                then Replayed(ReceiveFile(Exec(ls), doc, rawUri, identity, digest, now).1.run) else Conflict(DocumentGone))
  {
    hide Exec, FileStored, ReceiveFile;
    var l := DoReceiveFile(doc, rawUri, identity, digest, now);
    var r := ReceiveFile(Exec(ls), doc, rawUri, identity, digest, now).1.run;
    UploadIsStored(Exec(ls), doc, rawUri, identity, digest, now);
    ExecSnoc(ls, l);
    FileStays(ls + [l], identity, digest, r, ms);
    StoredFileIsFound(Exec(ls + [l] + ms), other, otherUri, identity, digest, r, later);
  }

  lemma StoredFileIsFound(s: State, doc: DocId, rawUri: string, identity: string, digest: string, r: RunId, now: Time)
    requires FileStored(s, identity, digest, r) && s.status == Active
    ensures ReceiveFile(s, doc, rawUri, identity, digest, now) ==
            (s, if exists d :: d in s.documents && s.documents[d].externalId == Some(identity) then Replayed(r) else Conflict(DocumentGone))
  {}
}
