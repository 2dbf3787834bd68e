/** What a purge promises: it succeeds only when the files on its list are gone, and is taken up again until then. */
module CollectionPurge {
  import opened Wrappers
  import opened Collection
  import opened CollectionInvariant
  import opened CollectionEffect
  import opened CollectionHistory
  import opened CollectionFate
  import opened CollectionOutcome
  import opened CollectionPaths

  // ------------------------------------------------------------- one purge, step by step

  /** Starting a purge archives the source, lists every stored file, and makes an event that is due at once. */
  lemma PurgeIsAsked(s: State, now: Time)
    requires s.purges == []
    ensures var t := StartPurge(s, now);
            && t.status == Archived && t.generation == s.generation + (if s.status == Archived then 0 else 1)
            && t.purges == [Purge(t.generation, RawUris(s), PurgeQueued, None)]
            && NewEvent(s, t, now) && t.events[|s.events|].work == PurgeRequested(0)
            && (forall d | d in s.documents && s.documents[d].rawUri.Some? && s.documents[d].rawUri.value != "" ::
                  s.documents[d].rawUri.value in t.purges[0].rawUris)
            && t.attempts == s.attempts && t.documents == s.documents && t.runs == s.runs
  {}

  /** Event e asks for the purge, which has not succeeded; it is not delivered. */
  ghost predicate Asks(s: State, e: EventId) {
    && e < |s.events| && s.events[e].work == PurgeRequested(0) && s.events[e].status != EventDelivered
    && |s.purges| == 1 && s.purges[0].generation == s.generation && s.purges[0].status != PurgeSucceeded
  }

  /** A worker that takes the purge up deletes all rows, fails the events of all runs, and goes on to the files. */
  lemma PurgeIsTakenUp(s: State, e: EventId)
    requires Asks(s, e)
    ensures var t := PurgeDelete(s, e);
            && Empty(t) && t.purges == [s.purges[0].(status := PurgeRunning, error := None)]
            && t.attempts == s.attempts + [Attempt(e, Working)] && Purging(t, |s.attempts|)
            && |t.events| == |s.events|
            && (forall i | 0 <= i < |s.events| :: t.events[i].work == s.events[i].work
                  && (PayloadRun(s.events[i].work).Some? && s.events[i].work.run in s.runs ==> t.events[i].status == EventFailed)
                  && (PayloadRun(s.events[i].work).None? ==> t.events[i] == s.events[i]))
            && t.generation == s.generation && t.status == s.status
  {}

  /**
   After the files: with none of them stuck the purge has succeeded, its event is delivered and
   never taken up again; with one stuck it has failed, and its event is due again exactly from
   thirty seconds on, when it asks for the purge once more.
   */
  lemma PurgeEnds(s: State, a: AttemptId, e: EventId, stuck: set<string>, now: Time)
    requires Purging(s, a) && s.attempts[a].event == e && s.events[e].work == PurgeRequested(0)
    requires |s.purges| == 1 && s.purges[0].generation == s.generation
    ensures var t := PurgeFinish(s, a, stuck, now);
            && |t.purges| == 1 && t.purges[0].rawUris == s.purges[0].rawUris && t.attempts == s.attempts[a := Attempt(e, Over)] && |t.events| == |s.events|
            && (s.purges[0].rawUris !! stuck ==>
                  && t.purges[0].status == PurgeSucceeded && t.purges[0].error == None
                  && t.events[e].status == EventDelivered && PurgeDelete(t, e) == t)
            && (!(s.purges[0].rawUris !! stuck) ==>
                  && t.purges[0].status == PurgeFailed && t.purges[0].error == Some(FileCleanupFailed)
                  && (forall at: Time :: IsDue(t.events[e], at) <==> now + 30_000 <= at) && Asks(t, e))
  {
    assert PurgeFinish(s, a, stuck, now).attempts == s.attempts[a := Attempt(e, Over)];
  }

  /** A second worker that comes after the purge has succeeded only delivers its event; a delivered event is left alone. */
  lemma SucceededPurgeStays(s: State, e: EventId)
    requires e < |s.events| && s.events[e].work == PurgeRequested(0) && |s.purges| == 1
    requires s.purges[0].generation == s.generation && s.purges[0].status == PurgeSucceeded
    ensures PurgeDelete(s, e) == s.(events := s.events[e := s.events[e].(status := EventDelivered)])
  {
    if s.events[e].status == EventDelivered { assert s.events[e := s.events[e].(status := EventDelivered)] == s.events; }
  }

  // ------------------------------------------------------------------- over whole runs

  /** A step that neither changes a purge nor delivers a purge event. */
  ghost predicate NoPurgeNews(s: State, t: State) {
    && t.purges == s.purges
    && forall i | 0 <= i < |t.events| && t.events[i].work.PurgeRequested? && t.events[i].status == EventDelivered ::
         i < |s.events| && s.events[i].work.PurgeRequested? && s.events[i].status == EventDelivered
  }

  lemma TouchesNoPurge(s: State, t: State, r: RunId, e: EventId, a: AttemptId)
    requires Touches(s, t, r, e, a)
    ensures NoPurgeNews(s, t)
  {
    hide AttemptMoves, LeaseNotGiven;
  }

  lemma NothingNews(s: State)
    ensures NoPurgeNews(s, s)
  {}

  lemma WorkersNoPurge(s: State, l: Label)
    requires l.DoCheck? || l.DoTransient? || l.DoFailStage? || l.DoFinish? || l.DoMarkDelivered?
    ensures NoPurgeNews(s, Apply(s, l))
  {
    hide Touches, NoPurgeNews, Changes, SetRun, FailRun, SetEvent, Release, SetPhase, Fenced, Observed;
    var t := Apply(s, l);
    if t == s {
      NothingNews(s);
    } else {
      var a := l.attempt;
      assert InPhase(s, a, {Working, Collected, Checked, Exhausted, Committed});
      if l.DoCheck? { CheckEffect(s, l); }
      if l.DoTransient? { TransientTouches(s, l); }
      if l.DoFailStage? { FailStageTouches(s, l); }
      if l.DoFinish? { FinishTouches(s, l); }
      if l.DoMarkDelivered? { MarkDeliveredEffect(s, l); }
      TouchesNoPurge(s, t, RunOf(s, a), s.attempts[a].event, a);
    }
  }

  lemma ClaimsNoPurge(s: State, l: Label)
    requires l.DoClaim? || l.DoFileClaim? || l.DoFileSave? || l.DoFileFail?
    ensures NoPurgeNews(s, Apply(s, l))
  {
    hide Touches, NoPurgeNews, Changes, Reject, StartAttempt, SetEvent, Fenced, After, SetRun, FailRun, SetExtraction;
    var t := Apply(s, l);
    if t == s {
      NothingNews(s);
    } else if l.DoClaim? {
      ClaimEffect(s, l);
      TouchesNoPurge(s, t, s.events[l.event].work.run, l.event, 0);
    } else if l.DoFileClaim? {
      FileClaimTouches(s, l);
      TouchesNoPurge(s, t, s.events[l.event].work.run, l.event, 0);
    } else {
      assert InPhase(s, l.attempt, {Working});
      if l.DoFileSave? { FileSaveTouches(s, l); } else { FileFailTouches(s, l); }
      TouchesNoPurge(s, t, RunOf(s, l.attempt), s.attempts[l.attempt].event, l.attempt);
    }
  }

  lemma RequestsNoPurge(s: State, l: Label)
    requires l.DoReceive? || l.DoQueueCrawl? || l.DoReceiveFile? || l.DoRetry?
    ensures NoPurgeNews(s, Apply(s, l))
  {
    hide InsertNew, Observe, After, IdentityUsed, LastEvent;
    hide Claim, CrawlCommit, Transient, FailStage, Finish, FileClaim, FileSave, FileFail, PurgeDelete, PurgeFinish, StartPurge, Dispatch;
  }

  predicate PurgeStep(l: Label) { l.DoStartPurge? || l.DoPurgeDelete? || l.DoPurgeFinish? }

  lemma OthersNoPurge(s: State, l: Label)
    requires !PurgeStep(l)
    ensures NoPurgeNews(s, Apply(s, l))
  {
    hide Selected, InsertNew, ObserveAt, IdentityUsed, CrawlCursor, Fenced, StartPurge, PurgeDelete, PurgeFinish;
    match l
    case DoReceive(_, _) => RequestsNoPurge(s, l);
    case DoQueueCrawl(_, _, _, _) => RequestsNoPurge(s, l);
    case DoReceiveFile(_, _, _, _, _) => RequestsNoPurge(s, l);
    case DoRetry(_, _) => RequestsNoPurge(s, l);
    case DoClaim(_, _) => ClaimsNoPurge(s, l);
    case DoFileClaim(_, _, _) => ClaimsNoPurge(s, l);
    case DoFileSave(_, _) => ClaimsNoPurge(s, l);
    case DoFileFail(_, _) => ClaimsNoPurge(s, l);
    case DoCheck(_) => WorkersNoPurge(s, l);
    case DoTransient(_, _, _) => WorkersNoPurge(s, l);
    case DoFailStage(_) => WorkersNoPurge(s, l);
    case DoFinish(_) => WorkersNoPurge(s, l);
    case DoMarkDelivered(_) => WorkersNoPurge(s, l);
    case DoDispatch(now, locked) => assert NoPurgeNews(s, Dispatch(s, now, locked));
    case DoCrawlCommit(a, records, digest) => assert NoPurgeNews(s, CrawlCommit(s, a, records, digest));
    case _ =>
  }

  /** Step i of the run ended the purge with none of the files on the list stuck. */
  ghost predicate ClearedAt(ls: seq<Label>, i: nat, rawUris: set<string>) {
    && i < |ls| && ls[i].DoPurgeFinish? && Purging(Exec(ls[..i]), ls[i].attempt)
    && |Exec(ls[..i]).purges| == 1 && Exec(ls[..i]).purges[0].rawUris == rawUris && rawUris !! ls[i].stuck
  }

  /** The purge counts as done, by its status or by an event that is delivered. */
  ghost predicate Done(s: State) {
    || (s.purges != [] && s.purges[0].status == PurgeSucceeded)
    || (exists e :: 0 <= e < |s.events| && s.events[e].work.PurgeRequested? && s.events[e].status == EventDelivered)
  }

  lemma NoNewsNotDone(s: State, t: State)
    requires NoPurgeNews(s, t) && Done(t)
    ensures Done(s)
  {}

  lemma StartNotDone(s: State, now: Time)
    requires Done(StartPurge(s, now)) && (s.purges != [] ==> s.status == Archived)
    ensures Done(s)
  {
    hide RawUris;
    var t := StartPurge(s, now);
    if exists e :: 0 <= e < |t.events| && t.events[e].work.PurgeRequested? && t.events[e].status == EventDelivered {
      var e :| 0 <= e < |t.events| && t.events[e].work.PurgeRequested? && t.events[e].status == EventDelivered;
      assert e < |s.events| && t.events[e] == s.events[e];
    }
  }

  lemma DeleteNotDone(s: State, e: EventId)
    requires Inv(s) && Done(PurgeDelete(s, e))
    ensures Done(s)
  {
    if e < |s.events| && s.events[e].work.PurgeRequested? { PurgeFacts(s, e); }
    hide Inv;
    var t := PurgeDelete(s, e);
    if exists f :: 0 <= f < |t.events| && t.events[f].work.PurgeRequested? && t.events[f].status == EventDelivered {
      var f :| 0 <= f < |t.events| && t.events[f].work.PurgeRequested? && t.events[f].status == EventDelivered;
      assert f < |s.events| && s.events[f].work.PurgeRequested?;
    }
  }

  lemma FinishNotDone(s: State, a: AttemptId, stuck: set<string>, now: Time)
    requires Inv(s) && Done(PurgeFinish(s, a, stuck, now)) && !Done(s)
    ensures Purging(s, a) && |s.purges| == 1 && s.purges[0].rawUris !! stuck
  {
    if Purging(s, a) { PurgeFacts(s, s.attempts[a].event); }
    hide Inv;
    var t := PurgeFinish(s, a, stuck, now);
    if exists f :: 0 <= f < |t.events| && t.events[f].work.PurgeRequested? && t.events[f].status == EventDelivered {
      var f :| 0 <= f < |t.events| && t.events[f].work.PurgeRequested? && t.events[f].status == EventDelivered;
      assert f < |s.events| && s.events[f].work.PurgeRequested?;
    }
  }

  lemma ListStays(s: State, l: Label)
    requires Inv(s) && s.purges != []
    ensures Apply(s, l).purges != [] && Apply(s, l).purges[0].rawUris == s.purges[0].rawUris
  {
    if PurgeStep(l) {
      PurgeStepKeepsList(s, l);
    } else {
      hide Inv, Apply;
      OthersNoPurge(s, l);
    }
  }

  lemma PurgeStepKeepsList(s: State, l: Label)
    requires Inv(s) && s.purges != [] && PurgeStep(l)
    ensures Apply(s, l).purges != [] && Apply(s, l).purges[0].rawUris == s.purges[0].rawUris
  {
    assert |s.purges| == 1;
    hide Inv;
    match l
    case DoStartPurge(now) => StartKeepsList(s, now);
    case DoPurgeDelete(e) => DeleteKeepsList(s, e);
    case DoPurgeFinish(a, stuck, now) => FinishKeepsList(s, a, stuck, now);
    case _ =>
  }

  lemma StartKeepsList(s: State, now: Time)
    requires s.purges != []
    ensures StartPurge(s, now).purges != [] && StartPurge(s, now).purges[0] == s.purges[0]
  {
    hide RawUris;
  }

  lemma DeleteKeepsList(s: State, e: EventId)
    requires s.purges != []
    ensures PurgeDelete(s, e).purges != [] && PurgeDelete(s, e).purges[0].rawUris == s.purges[0].rawUris
  {}

  lemma FinishKeepsList(s: State, a: AttemptId, stuck: set<string>, now: Time)
    requires s.purges != []
    ensures PurgeFinish(s, a, stuck, now).purges != [] && PurgeFinish(s, a, stuck, now).purges[0].rawUris == s.purges[0].rawUris
  {}

  lemma StepNotDone(s: State, l: Label)
    requires Inv(s) && Done(Apply(s, l)) && !Done(s)
    ensures l.DoPurgeFinish? && Purging(s, l.attempt) && |s.purges| == 1 && s.purges[0].rawUris !! l.stuck
  {
    assert s.purges != [] ==> s.status == Archived;
    hide Inv, Done, Purging, StartPurge, PurgeDelete, PurgeFinish;
    if PurgeStep(l) {
      match l
      case DoStartPurge(now) => StartNotDone(s, now);
      case DoPurgeDelete(e) => DeleteNotDone(s, e);
      case DoPurgeFinish(a, stuck, now) => FinishNotDone(s, a, stuck, now);
      case _ =>
    } else {
      OthersNoPurge(s, l);
      hide Apply;
      NoNewsNotDone(s, Apply(s, l));
    }
  }

  lemma DoneHasPurge(s: State)
    requires Inv(s) && Done(s)
    ensures s.purges != []
  {
    assert PurgesKnown(s);
  }

  /**
   A purge has succeeded, or its event is delivered, only if some earlier step found every file
   on its list removed or missing.
   */
  lemma {:induction false} PurgeSucceedsOnlyCleared(ls: seq<Label>)
    requires Done(Exec(ls))
    ensures Exec(ls).purges != [] && exists i: nat :: ClearedAt(ls, i, Exec(ls).purges[0].rawUris)
    decreases |ls|
  {
    hide Exec, Inv, Done, Apply, Purging;
    RunsKeepInvariant(ls);
    DoneHasPurge(Exec(ls));
    NewIsNotDone();
    if ls == [] {
      assert Exec(ls) == NEW_SOURCE by { EmptyRun(); }
    } else {
      var front, l := ls[..|ls| - 1], ls[|ls| - 1];
      RunsKeepInvariant(front);
      ExecSnoc(front, l);
      assert front + [l] == ls;
      if Done(Exec(front)) {
        PurgeSucceedsOnlyCleared(front);
        ListStays(Exec(front), l);
        var i: nat :| ClearedAt(front, i, Exec(front).purges[0].rawUris);
        assert ls[..i] == front[..i];
        assert ClearedAt(ls, i, Exec(ls).purges[0].rawUris);
      } else {
        StepNotDone(Exec(front), l);
        ListStays(Exec(front), l);
        assert ls[..|front|] == front;
        assert ClearedAt(ls, |front|, Exec(ls).purges[0].rawUris);
      }
    }
  }

  lemma NewIsNotDone()
    ensures !Done(NEW_SOURCE)
  {}

  lemma EmptyRun()
    ensures Exec([]) == NEW_SOURCE
  {}
}
