/**
 When the end of a collection run is final. A succeeded run can still fail and a failed run
 can still succeed, by events delivered again and by attempts that are late; the conditions
 under which neither can happen are exact.
 */
module CollectionFate {
  import opened Wrappers
  import opened Collection
  import opened CollectionInvariant
  import opened CollectionEffect
  import opened CollectionHistory

  // ------------------------------------------------- steps that leave a run alone

  ghost predicate AttemptAt(s: State, b: AttemptId, r: RunId) {
    b < |s.attempts| && s.attempts[b].event < |s.events| && PayloadRun(s.events[s.attempts[b].event].work) == Some(r)
  }

  /** A worker's step at run r. */
  ghost predicate Concerns(s: State, l: Label, r: RunId) {
    || (l.DoClaim? && l.event < |s.events| && PayloadRun(s.events[l.event].work) == Some(r))
    || ((l.DoCheck? || l.DoTransient? || l.DoFailStage? || l.DoFinish? || l.DoMarkDelivered?) && AttemptAt(s, l.attempt, r))
  }

  ghost predicate SameEvents(s: State, t: State, r: RunId) {
    && |s.events| <= |t.events|
    && (forall i | 0 <= i < |s.events| ::
          && t.events[i].work == s.events[i].work
          && t.events[i].generation == s.events[i].generation
          && (PayloadRun(s.events[i].work) == Some(r) ==> (t.events[i].status == EventDelivered <==> s.events[i].status == EventDelivered)))
    && (forall i | |s.events| <= i < |t.events| :: PayloadRun(t.events[i].work) != Some(r))
  }

  ghost predicate SameAttempts(s: State, t: State, r: RunId) {
    && (forall b: nat | AttemptAt(s, b, r) :: b < |t.attempts| && t.attempts[b] == s.attempts[b])
    && (forall b: nat | AttemptAt(t, b, r) :: AttemptAt(s, b, r))
  }

  /** Run r with its events, attempts and observations is as it was. */
  ghost predicate SameFor(s: State, t: State, r: RunId)
    requires r in s.runs && r in t.runs
  {
    t.runs[r] == s.runs[r] && SameEvents(s, t, r) && SameAttempts(s, t, r) && (Observed(t, r) <==> Observed(s, r))
  }

  lemma TouchesOthers(s: State, t: State, q: RunId, e: EventId, a: AttemptId, r: RunId)
    requires AttemptsKnown(s) && Touches(s, t, q, e, a) && q != r && r in s.runs
    ensures r in t.runs && SameFor(s, t, r)
  {
    hide LeaseNotGiven, SameEvents, SameAttempts, AttemptsKnown;
    TouchesEvents(s, t, q, e, a, r);
    TouchesAttempts(s, t, q, e, a, r);
    SameObservations(s, t, r);
  }

  lemma TouchesEvents(s: State, t: State, q: RunId, e: EventId, a: AttemptId, r: RunId)
    requires Touches(s, t, q, e, a) && q != r
    ensures SameEvents(s, t, r)
  {
    hide LeaseNotGiven, AttemptMoves;
  }

  lemma TouchesAttempts(s: State, t: State, q: RunId, e: EventId, a: AttemptId, r: RunId)
    requires AttemptsKnown(s) && Touches(s, t, q, e, a) && q != r
    ensures SameAttempts(s, t, r)
  {
    hide LeaseNotGiven;
    assert forall i | 0 <= i < |s.events| :: t.events[i].work == s.events[i].work;
    assert |t.events| == |s.events|;
  }

  /** Steps that touch neither the run nor attempts, and neither deliver nor add an event of r. */
  lemma KeepsRun(s: State, t: State, r: RunId)
    requires AttemptsKnown(s) && r in s.runs && r in t.runs && t.runs[r] == s.runs[r] && SameEvents(s, t, r)
    requires t.attempts == s.attempts && (Observed(t, r) <==> Observed(s, r))
    ensures SameFor(s, t, r)
  {
    hide Observed;
  }

  lemma OneEventMore(s: State, t: State, r: RunId)
    requires t.events == s.events || (|t.events| == |s.events| + 1 && t.events[..|s.events|] == s.events && PayloadRun(t.events[|s.events|].work) != Some(r))
    ensures SameEvents(s, t, r)
  {
    forall i | 0 <= i < |s.events| ensures t.events[i] == s.events[i] {
      if t.events != s.events { assert t.events[i] == t.events[..|s.events|][i]; }
    }
  }

  lemma GrowsLeaves(s: State, t: State, key: string, stage: StageKey, digest: string, work: Work, now: Time, r: RunId)
    requires AttemptsKnown(s) && r in s.runs && r < s.nextRun && Grows(s, t, key, stage, digest, work, now)
    requires PayloadRun(work) == Some(s.nextRun) && (Observed(t, r) <==> Observed(s, r))
    ensures r in t.runs && SameFor(s, t, r)
  {
    hide Observed, AttemptsKnown, SameFor, SameEvents;
    OneEventMore(s, t, r);
    KeepsRun(s, t, r);
  }

  lemma SameObservations(s: State, t: State, r: RunId)
    requires t.observations == s.observations
    ensures Observed(t, r) <==> Observed(s, r)
  {}

  /** Observations of other runs only are added. */
  lemma MoreObservations(s: State, t: State, added: seq<Observation>, r: RunId)
    requires ObservationsDistinct(s) && t.observations == InsertNew(s.observations, added)
    requires forall o | o in added :: o.run != r
    ensures Observed(t, r) <==> Observed(s, r)
  {
    InsertNewFacts(s.observations, added);
    hide InsertNew;
    if Observed(t, r) {
      var i :| 0 <= i < |t.observations| && t.observations[i].run == r;
      assert t.observations[i] in s.observations;
    }
    if Observed(s, r) {
      var i :| 0 <= i < |s.observations| && s.observations[i].run == r;
      assert t.observations[i] == s.observations[i];
    }
  }

  lemma KnownParts(s: State, r: RunId)
    requires Inv(s) && r in s.runs
    ensures AttemptsKnown(s) && ObservationsDistinct(s) && r < s.nextRun
  {}

  lemma ReceiveLeaves(s: State, d: Delivery, now: Time, r: RunId)
    requires Inv(s) && r in s.runs
    ensures var t := ReceiveBatch(s, d, now).0; r in t.runs && SameFor(s, t, r)
  {
    var t := ReceiveBatch(s, d, now).0;
    KnownParts(s, r);
    if ReceiveBatch(s, d, now).1.Accepted? {
      assert s.observations <= t.observations by { InsertNewFacts(s.observations, Observe(s.nextRun, d.records)); }
      hide Inv, InsertNew, Observed, AttemptsKnown, ObservationsDistinct, SameFor;
      MoreObservations(s, t, Observe(s.nextRun, d.records), r);
      GrowsLeaves(s, t, d.key, Receive, d.digest, StageRequested(s.nextRun), now, r);
    } else {
      hide Inv, SameFor;
      assert t == s;
      StepOfNothing(s, r);
    }
  }

  lemma QueueLeaves(s: State, cursor: Option<Cursor>, configuration: string, key: string, now: Time, r: RunId)
    requires Inv(s) && r in s.runs
    ensures var t := QueueCrawl(s, cursor, configuration, key, now).0; r in t.runs && SameFor(s, t, r)
  {
    var t := QueueCrawl(s, cursor, configuration, key, now).0;
    hide Inv, SameFor, Observed, AttemptsKnown, ObservationsDistinct;
    KnownParts(s, r);
    if QueueCrawl(s, cursor, configuration, key, now).1.Accepted? {
      SameObservations(s, t, r);
      GrowsLeaves(s, t, key, CollectWeb, configuration, CrawlRequested(s.nextRun, configuration), now, r);
    } else {
      StepOfNothing(s, r);
    }
  }

  lemma FileLeaves(s: State, doc: DocId, rawUri: string, identity: string, digest: string, now: Time, r: RunId)
    requires Inv(s) && r in s.runs
    ensures var t := ReceiveFile(s, doc, rawUri, identity, digest, now).0; r in t.runs && SameFor(s, t, r)
  {
    var t := ReceiveFile(s, doc, rawUri, identity, digest, now).0;
    hide Inv, SameFor, Observed, AttemptsKnown, ObservationsDistinct, IdentityUsed;
    KnownParts(s, r);
    if ReceiveFile(s, doc, rawUri, identity, digest, now).1.Accepted? {
      SameObservations(s, t, r);
      GrowsLeaves(s, t, identity, ParseFile, digest, FileUploaded(s.nextRun, doc), now, r);
    } else {
      StepOfNothing(s, r);
    }
  }

  lemma RetryLeaves(s: State, q: RunId, now: Time, r: RunId)
    requires Inv(s) && r in s.runs && q != r
    ensures var t := RetryRun(s, q, now).0; r in t.runs && SameFor(s, t, r)
  {
    var t := RetryRun(s, q, now).0;
    AskedHasLast(s.events, q);
    hide Inv, Observed, AttemptsKnown, ObservationsDistinct, After, LastEvent, Asked, SameEvents, SameFor;
    KnownParts(s, r);
    assert t.events == s.events || t.events[..|s.events|] == s.events;
    OneEventMore(s, t, r);
    SameObservations(s, t, r);
    KeepsRun(s, t, r);
  }

  lemma DispatchLeaves(s: State, now: Time, locked: set<EventId>, r: RunId)
    requires Inv(s) && r in s.runs
    ensures SameFor(s, Dispatch(s, now, locked), r)
  {
    var t := Dispatch(s, now, locked);
    hide Inv, Observed, AttemptsKnown, ObservationsDistinct, Selected, SameFor;
    KnownParts(s, r);
    ChosenAreDue(s.events, now, locked, |s.events|);
    SameObservations(s, t, r);
    KeepsRun(s, t, r);
  }

  lemma {:induction false} ChosenAreDue(events: seq<Event>, now: Time, locked: set<EventId>, n: nat)
    requires n <= |events|
    ensures forall e | e in Selected(events, now, locked, n) :: events[e].status != EventDelivered
  {
    if n > 0 { ChosenAreDue(events, now, locked, n - 1); }
  }

  lemma CrawlLeaves(s: State, l: Label, r: RunId)
    requires Inv(s) && r in s.runs && l.DoCrawlCommit? && (!HoldsLease(s, r) || !AttemptAt(s, l.attempt, r))
    ensures r in Apply(s, l).runs && SameFor(s, Apply(s, l), r)
  {
    var t := CrawlCommit(s, l.attempt, l.records, l.digest);
    hide Inv, Observed, AttemptsKnown, ObservationsDistinct, InsertNew, Fenced, CrawlCursor, SameEvents, SameAttempts;
    KnownParts(s, r);
    OneEventMore(s, t, r);
    if t != s {
      var q := RunOf(s, l.attempt);
      assert HoldsLease(s, q) && AttemptAt(s, l.attempt, q);
      assert q != r;
      MoreObservations(s, t, ObserveAt(q, l.records, EventOf(s, l.attempt).occurredAt), r);
      OneAttemptMoves(s, t, l.attempt, r);
    } else {
      StepOfNothing(s, r);
    }
  }

  lemma OneAttemptMoves(s: State, t: State, a: AttemptId, r: RunId)
    requires t.events == s.events && a < |s.attempts| && !AttemptAt(s, a, r)
    requires |t.attempts| == |s.attempts| && t.attempts[a].event == s.attempts[a].event
    requires t.attempts == s.attempts[a := t.attempts[a]]
    ensures SameAttempts(s, t, r)
  {}

  lemma RowsLeave(s: State, t: State, r: RunId)
    requires AttemptsKnown(s) && r in s.runs && t.runs == s.runs && t.attempts == s.attempts && t.observations == s.observations
    requires t.events == s.events || (|t.events| == |s.events| + 1 && t.events[..|s.events|] == s.events && PayloadRun(t.events[|s.events|].work) != Some(r))
    ensures SameFor(s, t, r)
  {
    hide AttemptsKnown, SameEvents, SameFor, Observed;
    OneEventMore(s, t, r);
    SameObservations(s, t, r);
    KeepsRun(s, t, r);
  }

  lemma StartPurgeLeaves(s: State, now: Time, r: RunId)
    requires AttemptsKnown(s) && r in s.runs
    ensures r in StartPurge(s, now).runs && SameFor(s, StartPurge(s, now), r)
  {
    hide AttemptsKnown, RawUris, SameFor;
    RowsLeave(s, StartPurge(s, now), r);
  }

  lemma PurgeDeleteLeaves(s: State, e: EventId, r: RunId)
    requires AttemptsKnown(s) && r in s.runs && r in PurgeDelete(s, e).runs
    ensures SameFor(s, PurgeDelete(s, e), r)
  {
    hide Observed, AttemptsKnown, SameEvents, SameFor;
    var t := PurgeDelete(s, e);
    SameObservations(s, t, r);
    PurgeEventNoted(s, t, e, r);
    KeepsRun(s, t, r);
  }

  lemma PurgeFinishLeaves(s: State, a: AttemptId, stuck: set<string>, now: Time, r: RunId)
    requires AttemptsKnown(s) && r in s.runs
    ensures var t := PurgeFinish(s, a, stuck, now); r in t.runs && SameFor(s, t, r)
  {
    hide Observed, AttemptsKnown, SameEvents, SameAttempts;
    var t := PurgeFinish(s, a, stuck, now);
    SameObservations(s, t, r);
    if Purging(s, a) {
      PurgeEventNoted(s, t, s.attempts[a].event, r);
      PurgeAttemptMoves(s, t, a, r);
    } else {
      StepOfNothing(s, r);
    }
  }

  lemma PurgeEventNoted(s: State, t: State, e: EventId, r: RunId)
    requires t.events == s.events || (e < |s.events| == |t.events| && s.events[e].work.PurgeRequested? && t.events[e].work == s.events[e].work && t.events[e].generation == s.events[e].generation
                                      && t.events == s.events[e := t.events[e]])
    ensures SameEvents(s, t, r)
  {}

  lemma PurgeAttemptMoves(s: State, t: State, a: AttemptId, r: RunId)
    requires Purging(s, a) && |t.events| == |s.events| && (forall i | 0 <= i < |s.events| :: t.events[i].work == s.events[i].work)
    requires |t.attempts| == |s.attempts| && t.attempts[a].event == s.attempts[a].event && t.attempts == s.attempts[a := t.attempts[a]]
    ensures SameAttempts(s, t, r)
  {}

  lemma FileStepLeaves(s: State, l: Label, r: RunId)
    requires Inv(s) && r in s.runs && Collects(s.runs[r]) && (l.DoFileClaim? || l.DoFileSave? || l.DoFileFail?)
    ensures r in Apply(s, l).runs && SameFor(s, Apply(s, l), r)
  {
    hide Inv, Touches, SameFor, AttemptsKnown, ObservationsDistinct, SetRun, FailRun, SetEvent, SetExtraction;
    var t := Apply(s, l);
    KnownParts(s, r);
    if t != s {
      assert l.DoFileClaim? || InPhase(s, l.attempt, {Working});
      var e := if l.DoFileClaim? then l.event else s.attempts[l.attempt].event;
      assert e < |s.events| && s.events[e].work.FileUploaded?;
      FileIsOther(s, e, r);
      if l.DoFileClaim? {
        FileClaimTouches(s, l);
        TouchesOthers(s, t, s.events[e].work.run, e, 0, r);
      } else {
        if l.DoFileSave? { FileSaveTouches(s, l); } else { FileFailTouches(s, l); }
        TouchesOthers(s, t, s.events[e].work.run, e, l.attempt, r);
      }
    } else {
      StepOfNothing(s, r);
    }
  }

  lemma FileIsOther(s: State, e: EventId, r: RunId)
    requires Inv(s) && r in s.runs && Collects(s.runs[r]) && e < |s.events| && s.events[e].work.FileUploaded?
    ensures s.events[e].work.run != r
  {
    if s.events[e].work.run in s.runs { FileRunIsNoCollection(s, e); }
  }

  lemma WorkerLeaves(s: State, l: Label, r: RunId)
    requires Inv(s) && r in s.runs && !Concerns(s, l, r)
    requires l.DoCheck? || l.DoTransient? || l.DoFailStage? || l.DoFinish? || l.DoMarkDelivered?
    ensures r in Apply(s, l).runs && SameFor(s, Apply(s, l), r)
  {
    hide Inv, Touches, SameFor, Changes, AttemptsKnown, ObservationsDistinct, SetRun, FailRun, SetEvent, Release, SetPhase, Fenced, Observed;
    var t := Apply(s, l);
    KnownParts(s, r);
    if t == s {
      StepOfNothing(s, r);
    } else {
      var a := l.attempt;
      assert InPhase(s, a, {Working, Collected, Checked, Exhausted, Committed});
      if l.DoCheck? { CheckEffect(s, l); }
      if l.DoTransient? { TransientTouches(s, l); }
      if l.DoFailStage? { FailStageTouches(s, l); }
      if l.DoFinish? { FinishTouches(s, l); }
      if l.DoMarkDelivered? { MarkDeliveredEffect(s, l); }
      TouchesOthers(s, t, RunOf(s, a), s.attempts[a].event, a, r);
    }
  }

  lemma ClaimLeaves(s: State, l: Label, r: RunId)
    requires Inv(s) && r in s.runs && !Concerns(s, l, r) && l.DoClaim?
    ensures r in Apply(s, l).runs && SameFor(s, Apply(s, l), r)
  {
    hide Inv, Touches, SameFor, Changes, AttemptsKnown, ObservationsDistinct, Reject, StartAttempt, SetEvent, Fenced, After;
    KnownParts(s, r);
    if Apply(s, l) == s {
      StepOfNothing(s, r);
    } else {
      ClaimEffect(s, l);
      TouchesOthers(s, Apply(s, l), s.events[l.event].work.run, l.event, 0, r);
    }
  }

  lemma StepOfNothing(s: State, r: RunId)
    requires r in s.runs
    ensures SameFor(s, s, r)
  {}

  /** A step that is neither a worker's at a collection run, nor its crawl's commit, nor its retry, leaves the run as it was. */
  lemma OthersLeaveRun(s: State, l: Label, r: RunId)
    requires Inv(s) && r in s.runs && Collects(s.runs[r]) && (!HoldsLease(s, r) || !(l.DoCrawlCommit? && AttemptAt(s, l.attempt, r)))
    requires !Concerns(s, l, r) && !IsRetryOf(l, r) && r in Apply(s, l).runs
    ensures SameFor(s, Apply(s, l), r)
  {
    hide Inv, SameFor, Concerns, HoldsLease, AttemptsKnown, ObservationsDistinct;
    KnownParts(s, r);
    match l
    case DoReceive(d, now) => ReceiveLeaves(s, d, now, r);
    case DoQueueCrawl(cursor, configuration, key, now) => QueueLeaves(s, cursor, configuration, key, now, r);
    case DoReceiveFile(doc, rawUri, identity, digest, now) => FileLeaves(s, doc, rawUri, identity, digest, now, r);
    case DoRetry(q, now) => RetryLeaves(s, q, now, r);
    case DoDispatch(now, locked) => DispatchLeaves(s, now, locked, r);
    case DoCrawlCommit(_, _, _) => CrawlLeaves(s, l, r);
    case DoFileClaim(_, _, _) => FileStepLeaves(s, l, r);
    case DoFileSave(_, _) => FileStepLeaves(s, l, r);
    case DoFileFail(_, _) => FileStepLeaves(s, l, r);
    case DoClaim(_, _) => ClaimLeaves(s, l, r);
    case DoCheck(_) => WorkerLeaves(s, l, r);
    case DoTransient(_, _, _) => WorkerLeaves(s, l, r);
    case DoFailStage(_) => WorkerLeaves(s, l, r);
    case DoFinish(_) => WorkerLeaves(s, l, r);
    case DoMarkDelivered(_) => WorkerLeaves(s, l, r);
    case DoPatchStatus(next) => RowsLeave(s, PatchStatus(s, next), r);
    case DoArchive => RowsLeave(s, Archive(s), r);
    case DoStartPurge(now) => StartPurgeLeaves(s, now, r);
    case DoPurgeDelete(e) => PurgeDeleteLeaves(s, e, r);
    case DoPurgeFinish(a, stuck, now) => PurgeFinishLeaves(s, a, stuck, now, r);
    case DoCreateDocument(doc, externalId) => RowsLeave(s, CreateDocument(s, doc, externalId), r);
    case DoDeleteDocument(doc) => RowsLeave(s, DeleteDocument(s, doc), r);
  }

  // --------------------------------------------------------------- failed runs

  /** An attempt at r that could still take it out of failure: its fence stands, and it may yet succeed or be put off. */
  ghost predicate CanRevive(s: State, r: RunId, a: AttemptId)
    requires r in s.runs
  {
    && AttemptAt(s, a, r) && Fenced(s, EventOf(s, a))
    && (|| s.attempts[a].phase == Checked
        || (s.attempts[a].phase in {Working, Collected}
            && (s.runs[r].attempts < MAX_STAGE_ATTEMPTS
                || (Observed(s, r) && (s.attempts[a].phase == Collected <==> EventOf(s, a).work.CrawlRequested?)))))
  }

  /** A collection run that failed, without the lease and without an attempt that could revive it; or one that is gone. */
  ghost predicate Stuck(s: State, r: RunId) {
    && r < s.nextRun
    && (r in s.runs ==>
          && Collects(s.runs[r]) && s.runs[r].stage == Failed && !HoldsLease(s, r)
          && forall a: nat :: !CanRevive(s, r, a))
  }

  lemma SameStaysStuck(s: State, t: State, r: RunId)
    requires GenerationsPast(s) && GenerationCounts(s, t) && EventsGrow(s, t)
    requires Stuck(s, r) && r in s.runs && r in t.runs && SameFor(s, t, r) && !HoldsLease(t, r) && s.nextRun <= t.nextRun
    ensures Stuck(t, r)
  {
    hide Observed, HoldsLease;
    forall a: nat | AttemptAt(t, a, r) && Fenced(t, EventOf(t, a)) ensures !CanRevive(t, r, a) {
      assert AttemptAt(s, a, r);
      FenceBefore(s, t, t.attempts[a].event);
      assert !CanRevive(s, r, a);
    }
  }

  /** What a step that concerns a stuck run may do: leave it, or move one attempt to where it cannot revive the run. */
  ghost predicate Harmless(s: State, t: State, r: RunId, a: AttemptId) {
    && r in s.runs && r in t.runs && t.runs[r].key == s.runs[r].key && t.runs[r].stage == Failed && t.runs[r].attempts == s.runs[r].attempts
    && t.status == s.status && t.generation == s.generation && t.nextRun == s.nextRun && t.observations == s.observations
    && !HoldsLease(t, r)
    && |t.events| == |s.events|
    && (forall i | 0 <= i < |s.events| :: t.events[i].work == s.events[i].work && t.events[i].generation == s.events[i].generation)
    && |t.attempts| == |s.attempts|
    && (forall b | 0 <= b < |s.attempts| ::
          && t.attempts[b].event == s.attempts[b].event
          && (t.attempts[b] == s.attempts[b]
              || t.attempts[b].phase in {Over, Exhausted}
              || (b == a && AttemptAt(s, a, r) && !Fenced(s, EventOf(s, a)))))
  }

  lemma HarmlessStaysStuck(s: State, t: State, r: RunId, a: AttemptId)
    requires Stuck(s, r) && Harmless(s, t, r, a)
    ensures Stuck(t, r)
  {
    SameObservations(s, t, r);
    hide Observed, HoldsLease;
    forall b: nat | AttemptAt(t, b, r) ensures !CanRevive(t, r, b) {
      assert AttemptAt(s, b, r) && !CanRevive(s, r, b);
    }
  }

  lemma ClaimHarmless(s: State, e: EventId, now: Time, r: RunId)
    requires Stuck(s, r) && r in s.runs && e < |s.events| && PayloadRun(s.events[e].work) == Some(r)
    ensures Harmless(s, Claim(s, e, now), r, 0)
  {
    hide Fenced, After, Observed, StartAttempt;
  }

  lemma CheckHarmless(s: State, a: AttemptId, r: RunId)
    requires Stuck(s, r) && r in s.runs && AttemptAt(s, a, r)
    ensures Harmless(s, CheckObserved(s, a), r, a)
  {
    hide Observed;
    assert !CanRevive(s, r, a);
  }

  lemma TransientHarmless(s: State, a: AttemptId, delay: nat, now: Time, r: RunId)
    requires Stuck(s, r) && r in s.runs && AttemptAt(s, a, r)
    ensures Harmless(s, Transient(s, a, delay, now), r, a)
  {
    hide Observed;
    assert !CanRevive(s, r, a);
  }

  lemma FailStageHarmless(s: State, a: AttemptId, r: RunId)
    requires Stuck(s, r) && r in s.runs && AttemptAt(s, a, r)
    ensures Harmless(s, FailStage(s, a), r, a)
  {
    hide Observed, Fenced;
  }

  lemma FinishHarmless(s: State, a: AttemptId, r: RunId)
    requires Stuck(s, r) && r in s.runs && AttemptAt(s, a, r)
    ensures Harmless(s, Finish(s, a), r, a)
  {
    hide Observed;
    assert !CanRevive(s, r, a);
  }

  lemma MarkHarmless(s: State, a: AttemptId, r: RunId)
    requires Stuck(s, r) && r in s.runs && AttemptAt(s, a, r)
    ensures Harmless(s, MarkDelivered(s, a), r, a)
  {
    hide Observed, Fenced;
  }

  lemma ConcernedStaysStuck(s: State, l: Label, r: RunId)
    requires Stuck(s, r) && r in s.runs && Concerns(s, l, r)
    ensures Stuck(Apply(s, l), r)
  {
    hide Stuck, Harmless;
    match l
    case DoClaim(e, now) =>
      ClaimHarmless(s, e, now, r);
      HarmlessStaysStuck(s, Claim(s, e, now), r, 0);
    case DoCheck(a) =>
      CheckHarmless(s, a, r);
      HarmlessStaysStuck(s, CheckObserved(s, a), r, a);
    case DoTransient(a, delay, now) =>
      TransientHarmless(s, a, delay, now, r);
      HarmlessStaysStuck(s, Transient(s, a, delay, now), r, a);
    case DoFailStage(a) =>
      FailStageHarmless(s, a, r);
      HarmlessStaysStuck(s, FailStage(s, a), r, a);
    case DoFinish(a) =>
      FinishHarmless(s, a, r);
      HarmlessStaysStuck(s, Finish(s, a), r, a);
    case DoMarkDelivered(a) =>
      MarkHarmless(s, a, r);
      HarmlessStaysStuck(s, MarkDelivered(s, a), r, a);
    case _ =>
  }

  lemma NeverBack(s: State, t: State, r: RunId)
    requires RunsPersist(s, t) && r < s.nextRun
    ensures r < t.nextRun && (r in t.runs ==> r in s.runs)
  {}

  lemma StuckStep(s: State, l: Label, r: RunId)
    requires Inv(s) && Effect(s, Apply(s, l), l) && Stuck(s, r) && !IsRetryOf(l, r)
    ensures Stuck(Apply(s, l), r)
  {
    var t := Apply(s, l);
    NeverBack(s, t, r);
    if r in t.runs {
      if Concerns(s, l, r) {
        hide Inv, Effect, Stuck, Apply;
        ConcernedStaysStuck(s, l, r);
      } else {
        assert GenerationsPast(s) && GenerationCounts(s, t) && EventsGrow(s, t) && LeaseGiven(s, t, l) && s.nextRun <= t.nextRun;
        hide Inv, Effect, Apply, GenerationsPast, GenerationCounts, EventsGrow, SameFor, CanRevive, Concerns;
        OthersLeaveRun(s, l, r);
        SameStaysStuck(s, t, r);
      }
    }
  }

  lemma {:induction false} StuckStays(ls: seq<Label>, ms: seq<Label>, r: RunId)
    requires Stuck(Exec(ls), r) && forall i | 0 <= i < |ms| :: !IsRetryOf(ms[i], r)
    ensures Stuck(Exec(ls + ms), r)
    decreases |ms|
  {
    hide Exec, Stuck, Inv, Effect, Apply;
    if ms == [] {
      NoStep(ls);
    } else {
      StuckStays(ls, ms[..|ms| - 1], r);
      LastStep(ls, ms);
      StuckStep(Exec(ls + ms[..|ms| - 1]), ms[|ms| - 1], r);
    }
  }

  ghost predicate WithoutRetry(ms: seq<Label>, r: RunId) { forall i | 0 <= i < |ms| :: !IsRetryOf(ms[i], r) }

  ghost predicate HasStage(s: State, r: RunId, stage: StageStatus) { r in s.runs ==> s.runs[r].stage == stage }

  lemma TwoMore(ls: seq<Label>, l: Label, m: Label)
    ensures Exec(ls + [l, m]) == Apply(Apply(Exec(ls), l), m)
  {
    hide Apply;
    ExecSnoc(ls, l);
    ExecSnoc(ls + [l], m);
    assert ls + [l] + [m] == ls + [l, m];
  }

  lemma CheckedFinishes(s: State, r: RunId, a: AttemptId)
    requires r in s.runs && AttemptAt(s, a, r) && IsCollection(EventOf(s, a).work) && Fenced(s, EventOf(s, a)) && s.attempts[a].phase == Checked
    ensures r in Finish(s, a).runs && Finish(s, a).runs[r].stage == Succeeded
  {}

  lemma WorkingIsPutOff(s: State, r: RunId, a: AttemptId)
    requires r in s.runs && AttemptAt(s, a, r) && IsCollection(EventOf(s, a).work) && Fenced(s, EventOf(s, a))
    requires s.attempts[a].phase in {Working, Collected} && s.runs[r].attempts < MAX_STAGE_ATTEMPTS
    ensures r in Transient(s, a, 0, 0).runs && Transient(s, a, 0, 0).runs[r].stage == Retrying
  {}

  lemma ObservedIsChecked(s: State, r: RunId, a: AttemptId)
    requires r in s.runs && AttemptAt(s, a, r) && IsCollection(EventOf(s, a).work) && Fenced(s, EventOf(s, a)) && Observed(s, r)
    requires s.attempts[a].phase in {Working, Collected} && (s.attempts[a].phase == Collected <==> EventOf(s, a).work.CrawlRequested?)
    ensures var t := CheckObserved(s, a);
            r in t.runs && AttemptAt(t, a, r) && IsCollection(EventOf(t, a).work) && Fenced(t, EventOf(t, a)) && t.attempts[a].phase == Checked
  {
    hide Observed;
  }

  lemma EventsOfRunCollect(s: State, r: RunId, a: AttemptId)
    requires Inv(s) && r in s.runs && Collects(s.runs[r]) && AttemptAt(s, a, r)
    ensures IsCollection(EventOf(s, a).work)
  {
    assert EventsFit(s);
  }

  lemma WorkerSteps(s: State, a: AttemptId)
    ensures Apply(s, DoFinish(a)) == Finish(s, a) && Apply(s, DoCheck(a)) == CheckObserved(s, a)
    ensures Apply(s, DoTransient(a, 0, 0)) == Transient(s, a, 0, 0)
  {
    hide Finish, CheckObserved, Transient;
  }

  /** An attempt that can revive a failed run does so within two steps. */
  lemma RevivesInTwo(ls: seq<Label>, r: RunId, a: AttemptId) returns (ms: seq<Label>)
    requires r in Exec(ls).runs && Collects(Exec(ls).runs[r]) && CanRevive(Exec(ls), r, a)
    ensures WithoutRetry(ms, r) && r in Exec(ls + ms).runs && Exec(ls + ms).runs[r].stage != Failed
  {
    hide Exec, Inv, Apply, Observed, Fenced, Finish, Transient, CheckObserved;
    var s := Exec(ls);
    RunsKeepInvariant(ls);
    EventsOfRunCollect(s, r, a);
    WorkerSteps(s, a);
    if s.attempts[a].phase == Checked {
      ms := [DoFinish(a)];
      CheckedFinishes(s, r, a);
      ExecSnoc(ls, DoFinish(a));
    } else if s.runs[r].attempts < MAX_STAGE_ATTEMPTS {
      ms := [DoTransient(a, 0, 0)];
      WorkingIsPutOff(s, r, a);
      ExecSnoc(ls, DoTransient(a, 0, 0));
    } else {
      ms := [DoCheck(a), DoFinish(a)];
      ObservedIsChecked(s, r, a);
      CheckedFinishes(CheckObserved(s, a), r, a);
      WorkerSteps(CheckObserved(s, a), a);
      TwoMore(ls, DoCheck(a), DoFinish(a));
    }
  }

  /**
   When failure is final. A failed collection run stays failed, over every continuation without
   a retry of it by hand, exactly when no attempt at it whose fence stands has passed its check,
   could pass it, or could still be put off.
   */
  lemma {:induction false} FailedStaysIff(ls: seq<Label>, r: RunId)
    requires r in Exec(ls).runs && Collects(Exec(ls).runs[r]) && Exec(ls).runs[r].stage == Failed
    ensures (forall ms: seq<Label> | WithoutRetry(ms, r) :: HasStage(Exec(ls + ms), r, Failed))
            <==> forall a: nat :: !CanRevive(Exec(ls), r, a)
  {
    hide Exec, CanRevive;
    if forall a: nat :: !CanRevive(Exec(ls), r, a) {
      RunsKeepInvariant(ls);
      assert Stuck(Exec(ls), r);
      hide Inv;
      forall ms: seq<Label> | WithoutRetry(ms, r) ensures HasStage(Exec(ls + ms), r, Failed) { StuckStays(ls, ms, r); }
    } else {
      var a: nat :| CanRevive(Exec(ls), r, a);
      var ms := RevivesInTwo(ls, r, a);
      assert WithoutRetry(ms, r) && !HasStage(Exec(ls + ms), r, Failed);
    }
  }

  // ------------------------------------------------------------ succeeded runs

  ghost predicate AllDelivered(s: State, r: RunId) {
    forall e | 0 <= e < |s.events| && PayloadRun(s.events[e].work) == Some(r) :: s.events[e].status == EventDelivered
  }

  /** A collection run that succeeded, with every event delivered and no attempt under way; or one that is gone. */
  ghost predicate Settled(s: State, r: RunId) {
    && r < s.nextRun
    && (r in s.runs ==> Collects(s.runs[r]) && s.runs[r].stage == Succeeded && AllDelivered(s, r) && Idle(s, r))
  }

  lemma SameStaysSettled(s: State, t: State, r: RunId)
    requires Settled(s, r) && r in s.runs && r in t.runs && SameFor(s, t, r) && s.nextRun <= t.nextRun
    ensures Settled(t, r)
  {
    hide Observed;
    assert AllDelivered(s, r) && AllDelivered(t, r);
    forall a | 0 <= a < |t.attempts| && t.attempts[a].event < |t.events| && PayloadRun(t.events[t.attempts[a].event].work) == Some(r)
      ensures Ended(t.attempts[a].phase)
    {
      assert AttemptAt(t, a, r);
      assert AttemptAt(s, a, r);
    }
  }

  lemma ConcernedStaysSettled(s: State, l: Label, r: RunId)
    requires Settled(s, r) && r in s.runs && Concerns(s, l, r)
    ensures Settled(Apply(s, l), r)
  {
    if l.DoClaim? {
      assert s.events[l.event].status == EventDelivered;
      assert Apply(s, l) == s;
    } else {
      assert Ended(s.attempts[l.attempt].phase);
      if l.DoMarkDelivered? {
        MarkStaysSettled(s, l.attempt, r);
      } else {
        hide Settled;
        assert Apply(s, l) == s;
      }
    }
  }

  lemma MarkStaysSettled(s: State, a: AttemptId, r: RunId)
    requires Settled(s, r) && r in s.runs
    ensures Settled(MarkDelivered(s, a), r)
  {}

  lemma SettledStep(s: State, l: Label, r: RunId)
    requires Inv(s) && Effect(s, Apply(s, l), l) && Settled(s, r)
    ensures Settled(Apply(s, l), r)
  {
    var t := Apply(s, l);
    NeverBack(s, t, r);
    if r in t.runs {
      if Concerns(s, l, r) {
        hide Inv, Effect, Settled, Apply;
        ConcernedStaysSettled(s, l, r);
      } else {
        assert !HoldsLease(s, r) && s.nextRun <= t.nextRun;
        if l.DoRetry? && l.run == r {
          RetryOfSucceeded(s, r, l.now);
        } else {
          hide Inv, Effect, Apply, SameFor, Concerns, Settled;
          SettledCollects(s, r);
          OthersLeaveRun(s, l, r);
          SameStaysSettled(s, t, r);
        }
      }
    }
  }

  lemma SettledCollects(s: State, r: RunId)
    requires Settled(s, r) && r in s.runs
    ensures Collects(s.runs[r])
  {}

  lemma RetryOfSucceeded(s: State, r: RunId, now: Time)
    requires r in s.runs && s.runs[r].stage == Succeeded
    ensures RetryRun(s, r, now).0 == s
  {}

  lemma {:induction false} SettledStays(ls: seq<Label>, ms: seq<Label>, r: RunId)
    requires Settled(Exec(ls), r)
    ensures Settled(Exec(ls + ms), r)
    decreases |ms|
  {
    hide Exec, Settled, Inv, Effect, Apply;
    if ms == [] {
      NoStep(ls);
    } else {
      SettledStays(ls, ms[..|ms| - 1], r);
      LastStep(ls, ms);
      SettledStep(Exec(ls + ms[..|ms| - 1]), ms[|ms| - 1], r);
    }
  }

  lemma UndeliveredFails(s: State, r: RunId, e: EventId)
    requires Inv(s) && r in s.runs && Collects(s.runs[r])
    requires e < |s.events| && PayloadRun(s.events[e].work) == Some(r) && s.events[e].status != EventDelivered
    ensures var t := Claim(PatchStatus(s, Some(Paused)), e, 0); r in t.runs && t.runs[r].stage == Failed
  {
    assert EventsFit(s);
    hide Inv;
  }

  lemma UnderWayFails(s: State, r: RunId, a: AttemptId)
    requires Inv(s) && r in s.runs && Collects(s.runs[r]) && AttemptAt(s, a, r) && !Ended(s.attempts[a].phase)
    ensures r in FailStage(s, a).runs && FailStage(s, a).runs[r].stage == Failed
  {
    EventsOfRunCollect(s, r, a);
    hide Inv;
  }

  /** Where an event is not delivered or an attempt is under way, two steps can fail the run. */
  lemma FailsInTwo(ls: seq<Label>, r: RunId) returns (ms: seq<Label>)
    requires r in Exec(ls).runs && Collects(Exec(ls).runs[r]) && !(AllDelivered(Exec(ls), r) && Idle(Exec(ls), r))
    ensures r in Exec(ls + ms).runs && Exec(ls + ms).runs[r].stage == Failed
  {
    hide Exec, Claim, PatchStatus, FailStage, Inv;
    var s := Exec(ls);
    RunsKeepInvariant(ls);
    if !AllDelivered(s, r) {
      var e :| 0 <= e < |s.events| && PayloadRun(s.events[e].work) == Some(r) && s.events[e].status != EventDelivered;
      ms := [DoPatchStatus(Some(Paused)), DoClaim(e, 0)];
      UndeliveredFails(s, r, e);
      TwoMore(ls, DoPatchStatus(Some(Paused)), DoClaim(e, 0));
    } else {
      var a :| 0 <= a < |s.attempts| && s.attempts[a].event < |s.events|
               && PayloadRun(s.events[s.attempts[a].event].work) == Some(r) && !Ended(s.attempts[a].phase);
      ms := [DoFailStage(a)];
      UnderWayFails(s, r, a);
      ExecSnoc(ls, DoFailStage(a));
    }
  }

  /**
   When success is final. A succeeded collection run stays succeeded, over every continuation,
   exactly when each of its events is delivered and no attempt at it is under way.
   */
  lemma {:induction false} SucceededStaysIff(ls: seq<Label>, r: RunId)
    requires r in Exec(ls).runs && Collects(Exec(ls).runs[r]) && Exec(ls).runs[r].stage == Succeeded
    ensures (forall ms: seq<Label> :: HasStage(Exec(ls + ms), r, Succeeded))
            <==> AllDelivered(Exec(ls), r) && Idle(Exec(ls), r)
  {
    hide Exec, AllDelivered, Idle;
    if AllDelivered(Exec(ls), r) && Idle(Exec(ls), r) {
      assert Settled(Exec(ls), r) by { RunsKeepInvariant(ls); }
      forall ms: seq<Label> ensures HasStage(Exec(ls + ms), r, Succeeded) { SettledStays(ls, ms, r); }
    } else {
      var ms := FailsInTwo(ls, r);
      assert !HasStage(Exec(ls + ms), r, Succeeded);
    }
  }

  lemma StragglerIsFirst(s: State)
    requires Straggling(s, Checked)
    ensures var t := Apply(s, DoFinish(0));
            && 0 in t.runs && t.runs[0].stage == Succeeded && Collects(t.runs[0])
            && |t.events| == 1 && PayloadRun(t.events[0].work) == Some(0) && t.events[0].status != EventDelivered
  {
    hide Observed;
  }

  lemma PausedThenClaimed(s: State, e: EventId)
    ensures Apply(Apply(s, DoPatchStatus(Some(Paused))), DoClaim(e, 0)) == Claim(PatchStatus(s, Some(Paused)), e, 0)
  {
    hide PatchStatus, Claim;
  }

  /** A run of the system in which success is undone: the worker stops before delivery, the source is paused, the event comes again. */
  lemma {:induction false} SucceededRunFails(d: Delivery)
    requires d.cursorBefore == None && d.records != []
    ensures var ls := [DoReceive(d, 0), DoClaim(0, 0), DoCheck(0), DoFinish(0)];
            && 0 in Exec(ls).runs && Exec(ls).runs[0].stage == Succeeded
            && var ms := [DoPatchStatus(Some(Paused)), DoClaim(0, 0)];
            && 0 in Exec(ls + ms).runs && Exec(ls + ms).runs[0].stage == Failed
  {
    hide Apply, Straggling, Exec, Inv, Claim, PatchStatus;
    var l0, l1, l2, l3 := DoReceive(d, 0), DoClaim(0, 0), DoCheck(0), DoFinish(0);
    var ls := [l0, l1, l2, l3];
    StragglerStarts(d);
    StragglerChecks(Apply(Apply(NEW_SOURCE, l0), l1));
    var s := Apply(Apply(Apply(NEW_SOURCE, l0), l1), l2);
    StragglerIsFirst(s);
    ExecFour(l0, l1, l2, l3);
    RunsKeepInvariant(ls);
    UndeliveredFails(Exec(ls), 0, 0);
    PausedThenClaimed(Exec(ls), 0);
    TwoMore(ls, DoPatchStatus(Some(Paused)), DoClaim(0, 0));
  }

  lemma {:induction false} ExecFour(l0: Label, l1: Label, l2: Label, l3: Label)
    ensures Exec([l0, l1, l2, l3]) == Apply(Apply(Apply(Apply(NEW_SOURCE, l0), l1), l2), l3)
  {
    hide Apply;
    ExecSnoc([], l0);
    ExecSnoc([l0], l1);
    ExecSnoc([l0, l1], l2);
    ExecSnoc([l0, l1, l2], l3);
    assert [] + [l0] == [l0] && [l0] + [l1] == [l0, l1] && [l0, l1] + [l2] == [l0, l1, l2] && [l0, l1, l2] + [l3] == [l0, l1, l2, l3];
  }

  // ------------------------------------------------------ the lease of a file run

  lemma RetryGivesLease(s: State, q: RunId, now: Time, r: RunId)
    requires !HoldsLease(s, r)
    ensures HoldsLease(RetryRun(s, q, now).0, r) <==> q == r && RetryRun(s, q, now).1.Accepted? && s.ingest.Some?
  {
    hide LastEvent, After;
  }

  lemma RequestsLeaseNewRuns(s: State, l: Label, r: RunId)
    requires (l.DoReceive? || l.DoQueueCrawl?) && r != s.nextRun && HoldsLease(Apply(s, l), r)
    ensures HoldsLease(s, r)
  {
    hide InsertNew, Observe, After;
    hide Claim, ReceiveFile, RetryRun, CrawlCommit, Transient, FailStage, Finish, FileClaim, FileSave, FileFail, PurgeDelete, PurgeFinish, StartPurge, Dispatch;
  }

  /** A file run comes to hold the source lease by a retry, on a source that has collected, and in no other way. */
  lemma {:induction false} FileLeaseIff(ls: seq<Label>, l: Label, r: RunId)
    requires r in Exec(ls).runs && !Collects(Exec(ls).runs[r]) && !HoldsLease(Exec(ls), r)
    ensures HoldsLease(Apply(Exec(ls), l), r)
            <==> IsRetryOf(l, r) && RetryRun(Exec(ls), r, l.now).1.Accepted? && Exec(ls).ingest.Some?
  {
    var s := Exec(ls);
    RunsKeepInvariant(ls);
    assert r < s.nextRun;
    hide Exec, Inv, HoldsLease, RetryRun, Apply;
    if l.DoRetry? {
      ApplyRetry(s, l);
      RetryGivesLease(s, l.run, l.now, r);
    } else if l.DoReceive? || l.DoQueueCrawl? {
      if HoldsLease(Apply(s, l), r) { RequestsLeaseNewRuns(s, l, r); }
    } else if HoldsLease(Apply(s, l), r) {
      OthersGiveNoLease(s, l, r);
    }
  }

  lemma FileClaimKeepsLease(s: State, e: EventId, leaseUntil: Time, now: Time)
    ensures FileClaim(s, e, leaseUntil, now).ingest == s.ingest
  {
    hide Fenced, After;
  }

  lemma FileSaveKeepsLease(s: State, a: AttemptId, parsed: Parsed)
    ensures FileSave(s, a, parsed).ingest == s.ingest
  {
    hide Fenced;
  }

  lemma FileFailKeepsLease(s: State, a: AttemptId, timedOut: bool)
    ensures FileFail(s, a, timedOut).ingest == s.ingest
  {
    hide Fenced;
  }

  /** The file worker never gives the source lease back: whether its run succeeds or fails, the lease stays as it was. */
  lemma FileWorkerKeepsLease(s: State, l: Label)
    requires l.DoFileClaim? || l.DoFileSave? || l.DoFileFail?
    ensures Apply(s, l).ingest == s.ingest
  {
    hide FileClaim, FileSave, FileFail;
    match l
    case DoFileClaim(e, leaseUntil, now) => FileClaimKeepsLease(s, e, leaseUntil, now);
    case DoFileSave(a, parsed) => FileSaveKeepsLease(s, a, parsed);
    case DoFileFail(a, timedOut) => FileFailKeepsLease(s, a, timedOut);
    case _ =>
  }
}
