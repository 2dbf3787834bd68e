/**
 What the rows tell about each other in every reachable state: the run row its stage, the
 events of a run the work it has, the observations of a crawl the time it was asked for.
 */
module CollectionOutcome {
  import opened Wrappers
  import opened Collection
  import opened CollectionInvariant
  import opened CollectionEffect
  import opened CollectionHistory

  // ------------------------------------------------------------- the run row and its stage

  /** The reasons for which a run can fail. */
  function Failures(key: StageKey): set<ErrorCode> {
    if key == ParseFile then {SourceOrDocumentUnavailable, SourceUnavailable, ParseFailed, ParserTimeout}
    else {SourceUnavailable, LeaseExpired, StageFailed, RetryExhausted}
  }

  /** What a run's row says of its stage. */
  predicate Tells(run: Run) {
    match run.stage
    case Pending => run.status == RunQueued && run.error == run.stageError == None && run.stageLease == None
    case Running => run.status == RunRunning && run.stageError == None && run.stageLease.Some?
    case Retrying => run.status == RunQueued && run.stageError == Some(TransientFailure) && run.stageLease == None
    case Failed => run.status == RunFailed && run.error == run.stageError && run.error.Some? && run.error.value in Failures(run.key)
    case Succeeded =>
      && (run.status == RunSucceeded || (run.status == RunNeedsOcr && run.key == ParseFile))
      && run.error == run.stageError == None && run.stageLease == None
  }

  ghost predicate AllTell(s: State) { forall r | r in s.runs :: Tells(s.runs[r]) }

  /** At most the row of run r is new, and it tells. */
  lemma OneTells(s: State, t: State, r: RunId)
    requires AllTell(s) && (t.runs == s.runs || (r in t.runs && t.runs == s.runs[r := t.runs[r]] && Tells(t.runs[r])))
    ensures AllTell(t)
  {
    hide Tells;
  }

  lemma RequestsTell(s: State, l: Label)
    requires AllTell(s) && (l.DoReceive? || l.DoQueueCrawl? || l.DoReceiveFile?)
    ensures AllTell(Apply(s, l))
  {
    hide AllTell, InsertNew, Observe, After, IdentityUsed;
    hide Claim, RetryRun, CrawlCommit, Transient, FailStage, Finish, FileClaim, FileSave, FileFail, PurgeDelete, PurgeFinish, StartPurge, Dispatch;
    OneTells(s, Apply(s, l), s.nextRun);
  }

  lemma RetryTells(s: State, r: RunId, now: Time)
    requires AllTell(s)
    ensures AllTell(RetryRun(s, r, now).0)
  {
    hide AllTell, LastEvent, After;
    OneTells(s, RetryRun(s, r, now).0, r);
  }

  lemma RejectTells(s: State, r: RunId, e: EventId, code: ErrorCode)
    requires AllTell(s) && r in s.runs && e < |s.events| && code in Failures(s.runs[r].key)
    ensures AllTell(Reject(s, r, e, code))
  {
    hide AllTell;
    OneTells(s, Reject(s, r, e, code), r);
  }

  lemma StartTells(s: State, e: EventId, r: RunId, now: Time)
    requires AllTell(s) && r in s.runs && s.ingest.Some?
    ensures AllTell(StartAttempt(s, e, r, now))
  {
    hide AllTell;
    OneTells(s, StartAttempt(s, e, r, now), r);
  }

  lemma CollectionEventFits(s: State, e: EventId)
    requires Inv(s) && e < |s.events| && IsCollection(s.events[e].work) && s.events[e].work.run in s.runs
    ensures s.runs[s.events[e].work.run].key != ParseFile
  {
    assert EventsFit(s);
  }

  lemma ClaimTells(s: State, e: EventId, now: Time)
    requires Inv(s) && AllTell(s)
    ensures AllTell(Claim(s, e, now))
  {
    hide Inv, AllTell, Fenced, After, Reject, StartAttempt;
    if e < |s.events| && IsCollection(s.events[e].work) {
      var r := s.events[e].work.run;
      if r in s.runs {
        CollectionEventFits(s, e);
        RejectTells(s, r, e, SourceUnavailable);
        RejectTells(s, r, e, LeaseExpired);
        if s.ingest.Some? { StartTells(s, e, r, now); }
      }
      OneTells(s, SetEvent(s, e, EventFailed), r);
      OneTells(s, SetEvent(s, e, EventDelivered), r);
    }
  }

  lemma TransientTells(s: State, a: AttemptId, delay: nat, now: Time)
    requires AllTell(s)
    ensures AllTell(Transient(s, a, delay, now))
  {
    hide AllTell, Fenced;
    if InPhase(s, a, {Working, Collected, Checked}) { OneTells(s, Transient(s, a, delay, now), RunOf(s, a)); }
  }

  lemma FailStageTells(s: State, a: AttemptId)
    requires Inv(s) && AllTell(s)
    ensures AllTell(FailStage(s, a))
  {
    hide Inv, AllTell;
    if InPhase(s, a, {Working, Collected, Checked, Exhausted}) && IsCollection(EventOf(s, a).work) {
      if RunOf(s, a) in s.runs { CollectionEventFits(s, s.attempts[a].event); }
      OneTells(s, FailStage(s, a), RunOf(s, a));
    }
  }

  lemma FinishTells(s: State, a: AttemptId)
    requires Inv(s) && AllTell(s)
    ensures AllTell(Finish(s, a))
  {
    hide Inv, AllTell, Fenced;
    if InPhase(s, a, {Checked}) && IsCollection(EventOf(s, a).work) {
      if RunOf(s, a) in s.runs { CollectionEventFits(s, s.attempts[a].event); }
      OneTells(s, Finish(s, a), RunOf(s, a));
    }
  }

  lemma FileEventFits(s: State, e: EventId)
    requires Inv(s) && e < |s.events| && s.events[e].work.FileUploaded? && s.events[e].work.run in s.runs
    ensures s.runs[s.events[e].work.run].key == ParseFile
  {
    assert EventsFit(s);
  }

  lemma FileClaimTells(s: State, e: EventId, leaseUntil: Time, now: Time)
    requires Inv(s) && AllTell(s)
    ensures AllTell(FileClaim(s, e, leaseUntil, now))
  {
    hide Inv, AllTell, Fenced, After;
    if e < |s.events| && s.events[e].work.FileUploaded? {
      if s.events[e].work.run in s.runs { FileEventFits(s, e); }
      OneTells(s, FileClaim(s, e, leaseUntil, now), s.events[e].work.run);
    }
  }

  lemma FileSaveTells(s: State, a: AttemptId, parsed: Parsed)
    requires Inv(s) && AllTell(s)
    ensures AllTell(FileSave(s, a, parsed))
  {
    hide Inv, AllTell, Fenced;
    if InPhase(s, a, {Working}) && EventOf(s, a).work.FileUploaded? {
      if RunOf(s, a) in s.runs { FileEventFits(s, s.attempts[a].event); }
      OneTells(s, FileSave(s, a, parsed), RunOf(s, a));
    }
  }

  lemma FileFailTells(s: State, a: AttemptId, timedOut: bool)
    requires Inv(s) && AllTell(s)
    ensures AllTell(FileFail(s, a, timedOut))
  {
    hide Inv, AllTell, Fenced;
    if InPhase(s, a, {Working}) && EventOf(s, a).work.FileUploaded? {
      if RunOf(s, a) in s.runs { FileEventFits(s, s.attempts[a].event); }
      OneTells(s, FileFail(s, a, timedOut), RunOf(s, a));
    }
  }

  /** A step that touches no run, or drops them all. */
  lemma NoRunTold(s: State, t: State)
    requires AllTell(s) && (t.runs == s.runs || t.runs == map[])
    ensures AllTell(t)
  {
    hide Tells;
  }

  lemma PurgeTells(s: State, l: Label)
    requires AllTell(s) && (l.DoPurgeDelete? || l.DoPurgeFinish?)
    ensures AllTell(Apply(s, l))
  {
    hide AllTell;
    match l
    case DoPurgeDelete(e) => NoRunTold(s, PurgeDelete(s, e));
    case DoPurgeFinish(a, stuck, now) => NoRunTold(s, PurgeFinish(s, a, stuck, now));
    case _ =>
  }

  lemma WorkTells(s: State, l: Label)
    requires AllTell(s) && (l.DoDispatch? || l.DoCrawlCommit? || l.DoCheck? || l.DoMarkDelivered?)
    ensures AllTell(Apply(s, l))
  {
    hide AllTell, InsertNew, ObserveAt, Selected, Fenced, Observed, CrawlCursor;
    match l
    case DoDispatch(now, locked) => NoRunTold(s, Dispatch(s, now, locked));
    case DoCrawlCommit(a, records, digest) => NoRunTold(s, CrawlCommit(s, a, records, digest));
    case DoCheck(a) => NoRunTold(s, CheckObserved(s, a));
    case DoMarkDelivered(a) => NoRunTold(s, MarkDelivered(s, a));
    case _ =>
  }

  lemma StepTells(s: State, l: Label)
    requires Inv(s) && AllTell(s)
    ensures AllTell(Apply(s, l))
  {
    hide Inv, AllTell;
    match l
    case DoReceive(_, _) => RequestsTell(s, l);
    case DoQueueCrawl(_, _, _, _) => RequestsTell(s, l);
    case DoReceiveFile(_, _, _, _, _) => RequestsTell(s, l);
    case DoRetry(r, now) => RetryTells(s, r, now);
    case DoClaim(e, now) => ClaimTells(s, e, now);
    case DoTransient(a, delay, now) => TransientTells(s, a, delay, now);
    case DoFailStage(a) => FailStageTells(s, a);
    case DoFinish(a) => FinishTells(s, a);
    case DoFileClaim(e, leaseUntil, now) => FileClaimTells(s, e, leaseUntil, now);
    case DoFileSave(a, parsed) => FileSaveTells(s, a, parsed);
    case DoFileFail(a, timedOut) => FileFailTells(s, a, timedOut);
    case DoDispatch(_, _) => WorkTells(s, l);
    case DoCrawlCommit(_, _, _) => WorkTells(s, l);
    case DoCheck(_) => WorkTells(s, l);
    case DoMarkDelivered(_) => WorkTells(s, l);
    case DoPatchStatus(next) => NoRunTold(s, PatchStatus(s, next));
    case DoArchive => NoRunTold(s, Archive(s));
    case DoStartPurge(now) => NoRunTold(s, StartPurge(s, now));
    case DoPurgeDelete(_) => PurgeTells(s, l);
    case DoPurgeFinish(_, _, _) => PurgeTells(s, l);
    case DoCreateDocument(doc, externalId) => NoRunTold(s, CreateDocument(s, doc, externalId));
    case DoDeleteDocument(doc) => NoRunTold(s, DeleteDocument(s, doc));
  }

  /** In every reachable state a run's row tells its stage: queued, running, failed with its reason, or succeeded without one. */
  lemma {:induction false} RunRowTellsStage(ls: seq<Label>)
    ensures forall r | r in Exec(ls).runs :: Tells(Exec(ls).runs[r])
  {
    hide Inv, Apply, Tells;
    if ls != [] {
      var front := ls[..|ls| - 1];
      RunRowTellsStage(front);
      RunsKeepInvariant(front);
      assert AllTell(Exec(front));
      StepTells(Exec(front), ls[|ls| - 1]);
      assert AllTell(Exec(ls));
    }
  }

  // ---------------------------------------------- steps that make no run and ask for nothing

  ghost predicate Plain(s: State, t: State) {
    && |t.events| == |s.events| && (t.runs == map[] || t.runs.Keys == s.runs.Keys) && (s.ingest.Some? ==> t.ingest.Some?)
    && t.nextRun == s.nextRun && (t.observations == s.observations || t.observations == [])
  }

  predicate Makes(l: Label) { l.DoReceive? || l.DoQueueCrawl? || l.DoReceiveFile? || l.DoRetry? || l.DoStartPurge? || l.DoCrawlCommit? }

  lemma TouchesIsPlain(s: State, t: State, r: RunId, e: EventId, a: AttemptId)
    requires Touches(s, t, r, e, a)
    ensures Plain(s, t)
  {
    hide AttemptMoves;
  }

  lemma WorkersPlain(s: State, l: Label)
    requires Inv(s) && (l.DoCheck? || l.DoTransient? || l.DoFailStage? || l.DoFinish? || l.DoMarkDelivered?)
    ensures Plain(s, Apply(s, l))
  {
    hide Inv, Touches, Plain, Changes, SetRun, FailRun, SetEvent, Release, SetPhase, Fenced, Observed;
    var t := Apply(s, l);
    if t == s {
      SameIsPlain(s);
    } else {
      var a := l.attempt;
      assert InPhase(s, a, {Working, Collected, Checked, Exhausted, Committed});
      if l.DoCheck? { CheckEffect(s, l); }
      if l.DoTransient? { TransientTouches(s, l); }
      if l.DoFailStage? { FailStageTouches(s, l); }
      if l.DoFinish? { FinishTouches(s, l); }
      if l.DoMarkDelivered? { MarkDeliveredEffect(s, l); }
      TouchesIsPlain(s, t, RunOf(s, a), s.attempts[a].event, a);
    }
  }

  lemma SameIsPlain(s: State)
    ensures Plain(s, s)
  {}

  lemma ClaimPlain(s: State, l: Label)
    requires l.DoClaim?
    ensures Plain(s, Apply(s, l))
  {
    hide Touches, Plain, Changes, Reject, StartAttempt, SetEvent, Fenced, After;
    if Apply(s, l) == s {
      SameIsPlain(s);
    } else {
      ClaimEffect(s, l);
      TouchesIsPlain(s, Apply(s, l), s.events[l.event].work.run, l.event, 0);
    }
  }

  lemma FilesPlain(s: State, l: Label)
    requires l.DoFileClaim? || l.DoFileSave? || l.DoFileFail?
    ensures Plain(s, Apply(s, l))
  {
    hide Touches, Plain, SetRun, FailRun, SetEvent, SetExtraction;
    var t := Apply(s, l);
    if t == s {
      SameIsPlain(s);
    } else {
      assert l.DoFileClaim? || InPhase(s, l.attempt, {Working});
      var e := if l.DoFileClaim? then l.event else s.attempts[l.attempt].event;
      if l.DoFileClaim? {
        FileClaimTouches(s, l);
        TouchesIsPlain(s, t, s.events[e].work.run, e, 0);
      } else {
        if l.DoFileSave? { FileSaveTouches(s, l); } else { FileFailTouches(s, l); }
        TouchesIsPlain(s, t, s.events[e].work.run, e, l.attempt);
      }
    }
  }

  lemma PurgePlain(s: State, l: Label)
    requires l.DoPurgeDelete? || l.DoPurgeFinish?
    ensures Plain(s, Apply(s, l))
  {
    hide Plain;
    match l
    case DoPurgeDelete(e) => PurgeDeletePlain(s, e);
    case DoPurgeFinish(a, stuck, now) => PurgeFinishPlain(s, a, stuck, now);
    case _ =>
  }

  lemma PurgeDeletePlain(s: State, e: EventId)
    ensures Plain(s, PurgeDelete(s, e))
  {}

  lemma PurgeFinishPlain(s: State, a: AttemptId, stuck: set<string>, now: Time)
    ensures Plain(s, PurgeFinish(s, a, stuck, now))
  {}

  lemma StepIsPlain(s: State, l: Label)
    requires Inv(s) && !Makes(l)
    ensures Plain(s, Apply(s, l))
  {
    hide Inv, Selected, IdentityUsed;
    match l
    case DoClaim(_, _) => ClaimPlain(s, l);
    case DoCheck(_) => WorkersPlain(s, l);
    case DoTransient(_, _, _) => WorkersPlain(s, l);
    case DoFailStage(_) => WorkersPlain(s, l);
    case DoFinish(_) => WorkersPlain(s, l);
    case DoMarkDelivered(_) => WorkersPlain(s, l);
    case DoFileClaim(_, _, _) => FilesPlain(s, l);
    case DoFileSave(_, _) => FilesPlain(s, l);
    case DoFileFail(_, _) => FilesPlain(s, l);
    case DoPurgeDelete(_) => PurgePlain(s, l);
    case DoPurgeFinish(_, _, _) => PurgePlain(s, l);
    case _ =>
  }

  // -------------------------------------------------------------------- the invariant

  /** All events of a run ask for the same work. */
  ghost predicate OneWork(s: State) {
    forall i, j | 0 <= i < |s.events| && 0 <= j < |s.events| && PayloadRun(s.events[i].work).Some?
                  && PayloadRun(s.events[i].work) == PayloadRun(s.events[j].work) :: s.events[i].work == s.events[j].work
  }

  /** A source that has a collection run has collected. */
  ghost predicate IngestKnown(s: State) { forall r | r in s.runs && Collects(s.runs[r]) :: s.ingest.Some? }

  ghost predicate AskedAt(s: State, r: RunId, at: Time) {
    exists e :: 0 <= e < |s.events| && PayloadRun(s.events[e].work) == Some(r) && s.events[e].occurredAt == at
  }

  /** What a crawl stored bears the time at which the crawl was asked for. */
  ghost predicate CrawlsTimed(s: State) {
    forall i | 0 <= i < |s.observations| && s.observations[i].run in s.runs && s.runs[s.observations[i].run].key == CollectWeb ::
      AskedAt(s, s.observations[i].run, s.observations[i].observedAt)
  }

  ghost predicate Traced(s: State) { OneWork(s) && IngestKnown(s) && CrawlsTimed(s) }

  lemma AskedAtStays(s: State, t: State, r: RunId, at: Time)
    requires AskedAt(s, r, at) && EventsGrow(s, t)
    ensures AskedAt(t, r, at)
  {
    var e :| 0 <= e < |s.events| && PayloadRun(s.events[e].work) == Some(r) && s.events[e].occurredAt == at;
    assert PayloadRun(t.events[e].work) == Some(r) && t.events[e].occurredAt == at;
  }

  lemma WorkStays(s: State, t: State)
    requires OneWork(s) && EventsGrow(s, t)
    requires |t.events| > |s.events| ==>
               var w := t.events[|s.events|].work;
               PayloadRun(w).None? || (exists i :: 0 <= i < |s.events| && s.events[i].work == w)
               || (forall i | 0 <= i < |s.events| :: PayloadRun(s.events[i].work) != PayloadRun(w))
    ensures OneWork(t)
  {
    if |t.events| > |s.events| && exists k :: 0 <= k < |s.events| && s.events[k].work == t.events[|s.events|].work {
      var k :| 0 <= k < |s.events| && s.events[k].work == t.events[|s.events|].work;
      assert t.events[k].work == s.events[k].work;
    }
  }

  lemma TimesStay(s: State, t: State)
    requires CrawlsTimed(s) && EventsGrow(s, t) && RunsPersist(s, t) && ObservationsDistinct(s)
    requires forall i | 0 <= i < |t.observations| && t.observations[i] !in s.observations && t.observations[i].run in t.runs
                        && t.runs[t.observations[i].run].key == CollectWeb ::
               AskedAt(t, t.observations[i].run, t.observations[i].observedAt)
    ensures CrawlsTimed(t)
  {
    hide AskedAt, EventsGrow;
    forall i | 0 <= i < |t.observations| && t.observations[i].run in t.runs && t.runs[t.observations[i].run].key == CollectWeb
      ensures AskedAt(t, t.observations[i].run, t.observations[i].observedAt)
    {
      if t.observations[i] in s.observations {
        var k :| 0 <= k < |s.observations| && s.observations[k] == t.observations[i];
        AskedAtStays(s, t, s.observations[k].run, s.observations[k].observedAt);
      }
    }
  }

  lemma StepParts(s: State, l: Label)
    requires Inv(s)
    ensures var t := Apply(s, l);
            && EventsGrow(s, t) && RunsPersist(s, t) && ObservationsDistinct(s) && RunsKnown(s)
  {
    StepEffect(s, l);
    hide Apply;
  }

  lemma PlainTraced(s: State, l: Label)
    requires Inv(s) && Traced(s) && !Makes(l)
    ensures Traced(Apply(s, l))
  {
    hide Inv, Apply, OneWork, CrawlsTimed, EventsGrow, ObservationsDistinct, RunsKnown, Makes;
    var t := Apply(s, l);
    StepParts(s, l);
    StepIsPlain(s, l);
    WorkStays(s, t);
    TimesStay(s, t);
  }

  lemma KnownRuns(s: State)
    requires RunsKnown(s)
    ensures forall i | 0 <= i < |s.events| :: PayloadRun(s.events[i].work) != Some(s.nextRun)
  {}

  lemma TimesStaySame(s: State, t: State)
    requires CrawlsTimed(s) && EventsGrow(s, t) && RunsPersist(s, t) && ObservationsDistinct(s) && t.observations == s.observations
    ensures CrawlsTimed(t)
  {
    hide CrawlsTimed, EventsGrow, RunsPersist, ObservationsDistinct;
    TimesStay(s, t);
  }

  lemma ReceiveTraced(s: State, d: Delivery, now: Time)
    requires Inv(s) && Traced(s)
    ensures Traced(ReceiveBatch(s, d, now).0)
  {
    hide Inv, OneWork, CrawlsTimed, EventsGrow, InsertNew, After, RunsPersist, ObservationsDistinct, RunsKnown;
    var t := ReceiveBatch(s, d, now).0;
    StepParts(s, DoReceive(d, now));
    if ReceiveBatch(s, d, now).1.Accepted? {
      KnownRuns(s);
      WorkStays(s, t);
      ReceiveTimes(s, d, now);
    }
  }

  lemma ReceiveTimes(s: State, d: Delivery, now: Time)
    requires ReceiveBatch(s, d, now).1.Accepted? && CrawlsTimed(s) && ObservationsDistinct(s)
    requires EventsGrow(s, ReceiveBatch(s, d, now).0) && RunsPersist(s, ReceiveBatch(s, d, now).0)
    ensures CrawlsTimed(ReceiveBatch(s, d, now).0)
  {
    hide CrawlsTimed, EventsGrow, InsertNew, After, RunsPersist;
    InsertNewFacts(s.observations, Observe(s.nextRun, d.records));
    TimesStay(s, ReceiveBatch(s, d, now).0);
  }

  lemma QueueTraced(s: State, l: Label)
    requires Inv(s) && Traced(s) && (l.DoQueueCrawl? || l.DoReceiveFile?)
    ensures Traced(Apply(s, l))
  {
    hide Inv, OneWork, CrawlsTimed, EventsGrow, After, IdentityUsed, RunsPersist, ObservationsDistinct, RunsKnown;
    hide Claim, ReceiveBatch, RetryRun, CrawlCommit, Transient, FailStage, Finish, FileClaim, FileSave, FileFail, PurgeDelete, PurgeFinish, StartPurge, Dispatch;
    var t := Apply(s, l);
    StepParts(s, l);
    if t != s {
      KnownRuns(s);
      WorkStays(s, t);
      TimesStaySame(s, t);
    }
  }

  lemma RetryWork(s: State, r: RunId, now: Time)
    requires RunsHaveEvents(s) && RetryRun(s, r, now).1.Accepted?
    ensures var t := RetryRun(s, r, now).0;
            && |t.events| == |s.events| + 1 && t.observations == s.observations && t.runs.Keys == s.runs.Keys && t.runs[r].key == s.runs[r].key
            && (forall q | q in s.runs && q != r :: t.runs[q] == s.runs[q])
            && (s.ingest.Some? <==> t.ingest.Some?)
            && exists i :: 0 <= i < |s.events| && s.events[i].work == t.events[|s.events|].work
  {
    AskedHasLast(s.events, r);
    hide After, LastEvent, Asked;
    var prior := LastEvent(s.events, r).value;
    var i :| 0 <= i < |s.events| && s.events[i] == prior;
    assert RetryRun(s, r, now).0.events[|s.events|].work == s.events[i].work;
  }

  lemma RetryRefused(s: State, r: RunId, now: Time)
    requires !RetryRun(s, r, now).1.Accepted?
    ensures RetryRun(s, r, now).0 == s
  {
    hide LastEvent, After;
  }

  lemma RetryTraced(s: State, r: RunId, now: Time)
    requires Inv(s) && Traced(s)
    ensures Traced(RetryRun(s, r, now).0)
  {
    hide RetryRun, OneWork, CrawlsTimed, EventsGrow, RunsPersist, ObservationsDistinct, RunsKnown, RunsHaveEvents;
    assert RunsHaveEvents(s);
    hide Inv;
    var t := RetryRun(s, r, now).0;
    StepParts(s, DoRetry(r, now));
    if RetryRun(s, r, now).1.Accepted? {
      RetryWork(s, r, now);
      WorkStays(s, t);
      TimesStaySame(s, t);
    } else {
      RetryRefused(s, r, now);
    }
  }

  lemma StartPurgeTraced(s: State, now: Time)
    requires Inv(s) && Traced(s)
    ensures Traced(StartPurge(s, now))
  {
    hide Inv, OneWork, CrawlsTimed, EventsGrow, RawUris, RunsPersist, ObservationsDistinct, RunsKnown;
    StepParts(s, DoStartPurge(now));
    WorkStays(s, StartPurge(s, now));
    TimesStaySame(s, StartPurge(s, now));
  }

  lemma CrawlTimes(s: State, a: AttemptId, records: seq<Record>, digest: string)
    requires CrawlCommit(s, a, records, digest) != s && CrawlsTimed(s) && ObservationsDistinct(s)
    requires EventsGrow(s, CrawlCommit(s, a, records, digest)) && RunsPersist(s, CrawlCommit(s, a, records, digest))
    ensures CrawlsTimed(CrawlCommit(s, a, records, digest))
  {
    hide CrawlsTimed, EventsGrow, InsertNew, CrawlCursor, Fenced, RunsPersist;
    var t := CrawlCommit(s, a, records, digest);
    var r, at := RunOf(s, a), EventOf(s, a).occurredAt;
    InsertNewFacts(s.observations, ObserveAt(r, records, at));
    assert PayloadRun(t.events[s.attempts[a].event].work) == Some(r) && t.events[s.attempts[a].event].occurredAt == at;
    assert AskedAt(t, r, at);
    TimesStay(s, t);
  }

  lemma CrawlTraced(s: State, a: AttemptId, records: seq<Record>, digest: string)
    requires Inv(s) && Traced(s)
    ensures Traced(CrawlCommit(s, a, records, digest))
  {
    hide Inv, OneWork, CrawlsTimed, EventsGrow, InsertNew, ObserveAt, CrawlCursor, Fenced, RunsPersist, ObservationsDistinct, RunsKnown;
    StepParts(s, DoCrawlCommit(a, records, digest));
    if CrawlCommit(s, a, records, digest) != s {
      WorkStays(s, CrawlCommit(s, a, records, digest));
      CrawlTimes(s, a, records, digest);
    }
  }

  lemma StepTraced(s: State, l: Label)
    requires Inv(s) && Traced(s)
    ensures Traced(Apply(s, l))
  {
    hide Inv, Traced;
    match l
    case DoReceive(d, now) => ReceiveTraced(s, d, now);
    case DoQueueCrawl(_, _, _, _) => QueueTraced(s, l);
    case DoReceiveFile(_, _, _, _, _) => QueueTraced(s, l);
    case DoRetry(r, now) => RetryTraced(s, r, now);
    case DoStartPurge(now) => StartPurgeTraced(s, now);
    case DoCrawlCommit(a, records, digest) => CrawlTraced(s, a, records, digest);
    case _ => PlainTraced(s, l);
  }

  /**
   In every reachable state all events of a run ask for one work, a source with a collection
   run has collected, and whatever a crawl stored bears the time of one of its events.
   */
  lemma {:induction false} RunsTraced(ls: seq<Label>)
    ensures Traced(Exec(ls))
  {
    hide Inv, Apply, Traced;
    if ls == [] {
      NothingToTrace();
    } else {
      RunsTraced(ls[..|ls| - 1]);
      RunsKeepInvariant(ls[..|ls| - 1]);
      StepTraced(Exec(ls[..|ls| - 1]), ls[|ls| - 1]);
    }
  }

  lemma NothingToTrace()
    ensures Traced(NEW_SOURCE)
  {}

  // ------------------------------------------------------------- what is stored

  /** An accepted batch stores each of its records at the record's own time, and nothing else for its run. */
  lemma {:induction false} BatchStoresItsRecords(ls: seq<Label>, d: Delivery, now: Time)
    requires ReceiveBatch(Exec(ls), d, now).1.Accepted?
    ensures var s, t := Exec(ls), ReceiveBatch(Exec(ls), d, now).0; var r := ReceiveBatch(Exec(ls), d, now).1.run;
            && (forall k | 0 <= k < |d.records| ::
                  Observation(r, d.records[k].provider, d.records[k].body, d.records[k].observedAt) in t.observations)
            && (forall o | o in t.observations :: o in s.observations <==> o.run != r)
            && s.observations <= t.observations
  {
    hide Exec;
    var s, r := Exec(ls), Exec(ls).nextRun;
    RunsKeepInvariant(ls);
    KnownObservations(s);
    hide Inv, InsertNew;
    InsertNewFacts(s.observations, Observe(r, d.records));
    forall k | 0 <= k < |d.records|
      ensures Observation(r, d.records[k].provider, d.records[k].body, d.records[k].observedAt) in InsertNew(s.observations, Observe(r, d.records))
    {
      assert Observe(r, d.records)[k] in Observe(r, d.records);
    }
  }

  lemma KnownObservations(s: State)
    requires Inv(s)
    ensures ObservationsDistinct(s) && forall o | o in s.observations :: o.run in s.runs && o.run < s.nextRun
  {}

  /** A crawl stores each of its records at the time of its event, nothing else, and the digest of what it stored. */
  lemma {:induction false} CrawlStoresItsRecords(ls: seq<Label>, a: AttemptId, records: seq<Record>, digest: string)
    requires CrawlCommit(Exec(ls), a, records, digest) != Exec(ls)
    ensures var s, t := Exec(ls), CrawlCommit(Exec(ls), a, records, digest);
            && a < |s.attempts| && s.attempts[a].event < |s.events| && EventOf(s, a).work.CrawlRequested?
            && var r, at := EventOf(s, a).work.run, EventOf(s, a).occurredAt;
            && (forall k | 0 <= k < |records| :: Observation(r, records[k].provider, records[k].body, at) in t.observations)
            && (forall o | o in t.observations && o !in s.observations :: o.run == r && o.observedAt == at)
            && s.observations <= t.observations
            && r in s.runs && s.runs[r].batchKey in t.batches && t.batches[s.runs[r].batchKey].payloadHash == digest
            && 1 <= |records| <= 500
  {
    hide Exec;
    var s := Exec(ls);
    RunsKeepInvariant(ls);
    KnownObservations(s);
    hide Inv, InsertNew, CrawlCursor, Fenced;
    var r, at := RunOf(s, a), EventOf(s, a).occurredAt;
    InsertNewFacts(s.observations, ObserveAt(r, records, at));
    forall k | 0 <= k < |records|
      ensures Observation(r, records[k].provider, records[k].body, at) in InsertNew(s.observations, ObserveAt(r, records, at))
    {
      assert ObserveAt(r, records, at)[k] in ObserveAt(r, records, at);
    }
  }
}
