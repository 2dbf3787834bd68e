/**
 What holds of whole runs of the collection protocol: inductions over any sequence of
 transactions, from the invariant and from what one transaction may do.
 */
module CollectionHistory {
  import opened Wrappers
  import opened Collection
  import opened CollectionInvariant
  import opened CollectionEffect

  /** The last step of a run of the system. */
  lemma {:induction false} LastStep(ls: seq<Label>, ms: seq<Label>)
    requires ms != []
    ensures Exec(ls + ms) == Apply(Exec(ls + ms[..|ms| - 1]), ms[|ms| - 1])
    ensures Inv(Exec(ls + ms[..|ms| - 1])) && Inv(Exec(ls + ms))
    ensures Effect(Exec(ls + ms[..|ms| - 1]), Exec(ls + ms), ms[|ms| - 1])
  {
    hide Apply, Inv, Effect;
    assert (ls + ms)[..|ls + ms| - 1] == ls + ms[..|ms| - 1];
    RunsKeepInvariant(ls + ms[..|ms| - 1]);
    RunsKeepInvariant(ls + ms);
    StepEffect(Exec(ls + ms[..|ms| - 1]), ms[|ms| - 1]);
  }

  lemma NoStep(ls: seq<Label>)
    ensures ls + [] == ls
  {}

  // ------------------------------------------------------------- failed runs and leases

  /** Whenever the source lease names a collection run, that run is pending, running or retrying. */
  lemma {:induction false} LeaseNamesLiveRun(ls: seq<Label>, r: RunId)
    requires HoldsLease(Exec(ls), r)
    ensures r in Exec(ls).runs
    ensures Collects(Exec(ls).runs[r]) ==> Exec(ls).runs[r].stage in {Pending, Running, Retrying}
  {
    hide Exec;
    RunsKeepInvariant(ls);
  }

  /** When a step takes or gives the lease, the moment it took the time. */
  function MomentOf(l: Label): Option<Time> {
    if l.DoReceive? || l.DoQueueCrawl? || l.DoRetry? then Some(l.now) else None
  }

  /** A lease that names a run passes to another run only by a request, and only once its time has run out. */
  lemma {:induction false} LeasePassesOnlyWhenExpired(ls: seq<Label>, l: Label, r: RunId, q: RunId)
    requires HoldsLease(Exec(ls), r) && HoldsLease(Apply(Exec(ls), l), q) && q != r
    ensures MomentOf(l).Some? && !After(Exec(ls).ingest.value.leaseUntil, MomentOf(l).value)
  {
    hide Exec;
    RunsKeepInvariant(ls);
    var s := Exec(ls);
    StepEffect(s, l);
    LeaseTaken(s, l, r, q);
  }

  lemma LeaseTaken(s: State, l: Label, r: RunId, q: RunId)
    requires LeaseGiven(s, Apply(s, l), l) && HoldsLease(s, r) && HoldsLease(Apply(s, l), q) && q != r
    ensures MomentOf(l).Some? && !After(s.ingest.value.leaseUntil, MomentOf(l).value)
  {
    hide InsertNew, Observe, ObserveAt, LastEvent, After;
    if MomentOf(l).None? { OthersGiveNoLease(s, l, q); }
  }

  predicate Collecting(l: Label) { l.DoClaim? || l.DoCrawlCommit? || l.DoTransient? || l.DoFailStage? || l.DoFinish? }

  lemma OthersGiveNoLease(s: State, l: Label, q: RunId)
    requires MomentOf(l).None? && HoldsLease(Apply(s, l), q)
    ensures HoldsLease(s, q)
  {
    hide InsertNew, Observe, ObserveAt, Selected, LastEvent, Fenced, InPhase, After, Observed, IdentityUsed, RawUris, CrawlCursor, Due;
    if Collecting(l) {
      CollectingGivesNoLease(s, l, q);
    } else {
      hide Claim, CrawlCommit, Transient, FailStage, Finish;
    }
  }

  lemma CollectingGivesNoLease(s: State, l: Label, q: RunId)
    requires Collecting(l) && HoldsLease(Apply(s, l), q)
    ensures HoldsLease(s, q)
  {
    hide InsertNew, ObserveAt, Fenced, InPhase, After, CrawlCursor;
    hide ReceiveBatch, QueueCrawl, ReceiveFile, RetryRun, Dispatch, FileClaim, FileSave, FileFail, PurgeDelete, PurgeFinish, StartPurge;
  }

  ghost predicate Dead(s: State, r: RunId) {
    && r < s.nextRun
    && (r in s.runs ==> Collects(s.runs[r]) && s.runs[r].stage != Running && !HoldsLease(s, r))
  }

  lemma DeadStep(s: State, t: State, l: Label, r: RunId)
    requires RunsPersist(s, t) && LeaseGiven(s, t, l) && StartsWithLease(s, t)
    requires Dead(s, r) && !IsRetryOf(l, r)
    ensures Dead(t, r)
  {
    hide HoldsLease, IsRetryOf;
  }

  /** A failed collection run never runs again, however its events are redelivered, until it is retried. */
  lemma {:induction false} FailedRunNeverRestarts(ls: seq<Label>, ms: seq<Label>, r: RunId)
    requires r in Exec(ls).runs && Collects(Exec(ls).runs[r]) && Exec(ls).runs[r].stage == Failed
    requires forall i | 0 <= i < |ms| :: !IsRetryOf(ms[i], r)
    ensures Dead(Exec(ls + ms), r)
    ensures r in Exec(ls + ms).runs ==> Exec(ls + ms).runs[r].stage != Running
    decreases |ms|
  {
    hide Exec;
    if ms == [] {
      NoStep(ls);
      RunsKeepInvariant(ls);
    } else {
      FailedRunNeverRestarts(ls, ms[..|ms| - 1], r);
      LastStep(ls, ms);
      DeadStep(Exec(ls + ms[..|ms| - 1]), Exec(ls + ms), ms[|ms| - 1], r);
    }
  }

  ghost predicate AtRest(s: State, r: RunId) {
    && r < s.nextRun
    && (r in s.runs ==> Collects(s.runs[r]) && s.runs[r].stage == Failed && !HoldsLease(s, r) && Idle(s, r))
  }

  lemma AtRestStep(s: State, t: State, l: Label, r: RunId)
    requires RunsPersist(s, t) && LeaseGiven(s, t, l) && FailedLeftAlone(s, t, l)
    requires AtRest(s, r) && !IsRetryOf(l, r)
    ensures AtRest(t, r)
  {
    hide HoldsLease, IsRetryOf, Idle;
  }

  /** A failed collection run with no attempt under way stays failed, until it is retried or purged. */
  lemma {:induction false} FailedRunStaysFailed(ls: seq<Label>, ms: seq<Label>, r: RunId)
    requires r in Exec(ls).runs && Collects(Exec(ls).runs[r]) && Exec(ls).runs[r].stage == Failed && Idle(Exec(ls), r)
    requires forall i | 0 <= i < |ms| :: !IsRetryOf(ms[i], r)
    ensures AtRest(Exec(ls + ms), r)
    ensures r in Exec(ls + ms).runs ==> Exec(ls + ms).runs[r].stage == Failed
    decreases |ms|
  {
    hide Exec;
    if ms == [] {
      NoStep(ls);
      RunsKeepInvariant(ls);
    } else {
      FailedRunStaysFailed(ls, ms[..|ms| - 1], r);
      LastStep(ls, ms);
      AtRestStep(Exec(ls + ms[..|ms| - 1]), Exec(ls + ms), ms[|ms| - 1], r);
    }
  }

  // ------------------------------------------------------------------------ the fence

  /** How often the status of the source changed. */
  function StatusChanges(ls: seq<Label>): nat {
    if ls == [] then 0
    else StatusChanges(ls[..|ls| - 1]) + if Exec(ls).status == Exec(ls[..|ls| - 1]).status then 0 else 1
  }

  lemma {:induction false} GenerationIsStatusChanges(ls: seq<Label>)
    ensures Exec(ls).generation == 1 + StatusChanges(ls)
  {
    hide Apply, Inv;
    if ls != [] {
      GenerationIsStatusChanges(ls[..|ls| - 1]);
      assert [] + ls == ls && [] + ls[..|ls| - 1] == ls[..|ls| - 1];
      LastStep([], ls);
    }
  }

  lemma {:induction false} EventsStay(ls: seq<Label>, ms: seq<Label>, e: EventId)
    requires e < |Exec(ls).events|
    ensures e < |Exec(ls + ms).events|
    ensures Exec(ls + ms).events[e].work == Exec(ls).events[e].work
    ensures Exec(ls + ms).events[e].generation == Exec(ls).events[e].generation
    ensures Exec(ls + ms).events[e].occurredAt == Exec(ls).events[e].occurredAt
    decreases |ms|
  {
    hide Exec, Inv, EffectOnRuns;
    if ms == [] {
      NoStep(ls);
    } else {
      EventsStay(ls, ms[..|ms| - 1], e);
      LastStep(ls, ms);
    }
  }

  /** Where the fence of an event holds, it has held ever since the event was made. */
  lemma {:induction false} ActiveSinceEvent(ls: seq<Label>, ms: seq<Label>, e: EventId)
    requires e < |Exec(ls).events| && e < |Exec(ls + ms).events| && Fenced(Exec(ls + ms), Exec(ls + ms).events[e])
    ensures Exec(ls).status == Active && Exec(ls).generation == Exec(ls + ms).generation
    decreases |ms|
  {
    hide Exec;
    if ms == [] {
      NoStep(ls);
    } else {
      var front := ms[..|ms| - 1];
      EventsStay(ls, front, e);
      LastStep(ls, ms);
      FenceBefore(Exec(ls + front), Exec(ls + ms), e);
      ActiveSinceEvent(ls, front, e);
    }
  }

  lemma FenceBefore(s: State, t: State, e: EventId)
    requires GenerationsPast(s) && GenerationCounts(s, t) && EventsGrow(s, t)
    requires e < |s.events| && Fenced(t, t.events[e])
    ensures Fenced(s, s.events[e]) && s.generation == t.generation
  {}

  /** At every moment since event e was made, up to now, the source was active and under one generation. */
  ghost predicate ActiveSince(ls: seq<Label>, e: EventId) {
    forall k | 0 <= k <= |ls| && e < |Exec(ls[..k]).events| ::
      Exec(ls[..k]).status == Active && Exec(ls[..k]).generation == Exec(ls).generation
  }

  lemma FencedIsActiveSince(ls: seq<Label>, e: EventId)
    requires e < |Exec(ls).events| && Fenced(Exec(ls), Exec(ls).events[e])
    ensures ActiveSince(ls, e)
  {
    hide Exec;
    forall k | 0 <= k <= |ls| && e < |Exec(ls[..k]).events|
      ensures Exec(ls[..k]).status == Active && Exec(ls[..k]).generation == Exec(ls).generation
    {
      assert ls[..k] + ls[k..] == ls;
      ActiveSinceEvent(ls[..k], ls[k..], e);
    }
  }

  /**
   Fence continuity: a run that succeeds does so by an attempt at one of its events, and the
   source was active, without a change of status, from when that event was made.
   */
  lemma SuccessWithinOneActivePeriod(ls: seq<Label>, l: Label, r: RunId)
    requires r in Exec(ls).runs && r in Apply(Exec(ls), l).runs
    requires Exec(ls).runs[r].stage != Succeeded && Apply(Exec(ls), l).runs[r].stage == Succeeded
    ensures Finishing(l).Some? && Finishing(l).value < |Exec(ls).attempts|
    ensures var e := Exec(ls).attempts[Finishing(l).value].event;
            && e < |Exec(ls).events| && PayloadRun(Exec(ls).events[e].work) == Some(r)
            && ActiveSince(ls, e) && Apply(Exec(ls), l).status == Active
  {
    hide Exec, Apply, ActiveSince, Inv, EffectOnRows;
    RunsKeepInvariant(ls);
    StepEffect(Exec(ls), l);
    FencedIsActiveSince(ls, Exec(ls).attempts[Finishing(l).value].event);
  }

  // ------------------------------------------------------------------------ the purge

  /** A source has at most one purge; it is under the source's own generation, so its fence never falls. */
  lemma {:induction false} OnePurgeUnderItsFence(ls: seq<Label>)
    ensures |Exec(ls).purges| <= 1
    ensures forall e | 0 <= e < |Exec(ls).events| && Exec(ls).events[e].work.PurgeRequested? ::
              Exec(ls).events[e].work.operation < |Exec(ls).purges| && PurgeFenceHolds(Exec(ls), Exec(ls).events[e].work.operation)
  {
    hide Exec;
    RunsKeepInvariant(ls);
  }

  /** Once the purge has deleted the rows, none is there in any later state. */
  lemma {:induction false} PurgedSourceStaysEmpty(ls: seq<Label>, ms: seq<Label>)
    requires Begun(Exec(ls))
    ensures Begun(Exec(ls + ms)) && Empty(Exec(ls + ms)) && Exec(ls + ms).status == Archived
    decreases |ms|
  {
    hide Exec;
    if ms == [] {
      NoStep(ls);
      RunsKeepInvariant(ls);
    } else {
      PurgedSourceStaysEmpty(ls, ms[..|ms| - 1]);
      LastStep(ls, ms);
    }
  }

  /** Taking up an undelivered purge event that has not succeeded does delete the rows, and every file they name is on the purge's list. */
  lemma PurgeDeletesAll(ls: seq<Label>, e: EventId)
    requires e < |Exec(ls).events| && Exec(ls).events[e].work.PurgeRequested? && Exec(ls).events[e].status != EventDelivered
    ensures |Exec(ls).purges| == 1
    ensures RawUris(Exec(ls)) <= Exec(ls).purges[0].rawUris
    ensures Exec(ls).purges[0].status != PurgeSucceeded ==> Begun(Exec(ls + [DoPurgeDelete(e)])) && Empty(Exec(ls + [DoPurgeDelete(e)]))
  {
    hide Exec;
    RunsKeepInvariant(ls);
    PurgeFacts(Exec(ls), e);
    assert [DoPurgeDelete(e)][..0] == [] && ls + [] == ls;
    LastStep(ls, [DoPurgeDelete(e)]);
  }

  // ---------------------------------------------------------------- attempts and takeovers

  /** How often run r was taken over, its stage lease having run out, since it was last put back to the start. */
  ghost function Takeovers(ls: seq<Label>, r: RunId): nat {
    if ls == [] then 0
    else
      var s, t, l := Exec(ls[..|ls| - 1]), Exec(ls), ls[|ls| - 1];
      if IsRetryOf(l, r) && RetryRun(s, r, l.now).1.Accepted? then 0
      else Takeovers(ls[..|ls| - 1], r)
           + if TakesOver(s, l, r) && r in t.runs && t.runs[r].attempts == s.runs[r].attempts + 1 then 1 else 0
  }

  lemma AttemptsStep(s: State, t: State, l: Label, r: RunId, takeovers: nat)
    requires LeaseLive(s) && AttemptsLeft(s) && RunsPersist(s, t) && AttemptsCount(s, t, l)
    requires r in t.runs && Collects(t.runs[r])
    requires r in s.runs ==> s.runs[r].attempts <= MAX_STAGE_ATTEMPTS + takeovers
    ensures r in s.runs && t.runs[r].attempts == s.runs[r].attempts + 1 && TakesOver(s, l, r) ==>
              t.runs[r].attempts <= MAX_STAGE_ATTEMPTS + takeovers + 1
    ensures !(r in s.runs && t.runs[r].attempts == s.runs[r].attempts + 1 && TakesOver(s, l, r)) ==>
              t.runs[r].attempts <= MAX_STAGE_ATTEMPTS + takeovers
  {
    hide TakesOver;
  }

  lemma RetryStartsOver(s: State, r: RunId, now: Time)
    requires RetryRun(s, r, now).1.Accepted?
    ensures r in RetryRun(s, r, now).0.runs && RetryRun(s, r, now).0.runs[r].attempts == 0
  {
    hide LastEvent;
  }

  /** A collection stage has at most five attempts and one for each takeover since its last retry by hand. */
  lemma {:induction false} AttemptsBounded(ls: seq<Label>, r: RunId)
    requires r in Exec(ls).runs && Collects(Exec(ls).runs[r])
    ensures Exec(ls).runs[r].attempts <= MAX_STAGE_ATTEMPTS + Takeovers(ls, r)
    ensures Exec(ls).runs[r].stage == Retrying ==> Exec(ls).runs[r].attempts <= MAX_STAGE_ATTEMPTS - 1
    decreases |ls|
  {
    hide Inv, Apply, RetryRun, TakesOver, AttemptsCount, RunsPersist, LeaseLive;
    RunsKeepInvariant(ls);
    RetryingHasAttemptsLeft(Exec(ls), r);
    if ls != [] {
      var front, l := ls[..|ls| - 1], ls[|ls| - 1];
      var s, t := Exec(front), Exec(ls);
      assert [] + ls == ls && [] + front == front;
      LastStep([], ls);
      StepFacts(s, t, l, r);
      if r in s.runs { AttemptsBounded(front, r); }
      if IsRetryOf(l, r) && RetryRun(s, r, l.now).1.Accepted? {
        ApplyRetry(s, l);
        RetryStartsOver(s, r, l.now);
      } else {
        AttemptsStep(s, t, l, r, Takeovers(front, r));
      }
    }
  }

  lemma RetryingHasAttemptsLeft(s: State, r: RunId)
    requires Inv(s) && r in s.runs
    ensures s.runs[r].stage == Retrying ==> s.runs[r].attempts < MAX_STAGE_ATTEMPTS
    ensures AttemptsLeft(s) && LeaseLive(s)
  {}

  lemma ApplyRetry(s: State, l: Label)
    requires l.DoRetry?
    ensures Apply(s, l) == RetryRun(s, l.run, l.now).0
  {}

  lemma StepFacts(s: State, t: State, l: Label, r: RunId)
    requires Inv(s) && Effect(s, t, l) && r in t.runs
    ensures LeaseLive(s) && AttemptsLeft(s) && RunsPersist(s, t) && AttemptsCount(s, t, l)
    ensures r in s.runs ==> t.runs[r].key == s.runs[r].key
  {}

  // ---------------------------------------------------------- cursors and redelivered batches

  datatype CursorStep = CursorStep(before: Option<Cursor>, after: Option<Cursor>)

  /** The cursors of the accepted batches, in order. */
  function AcceptedCursors(ls: seq<Label>): seq<CursorStep> {
    if ls == [] then []
    else
      var s, l := Exec(ls[..|ls| - 1]), ls[|ls| - 1];
      AcceptedCursors(ls[..|ls| - 1])
      + if l.DoReceive? && ReceiveBatch(s, l.delivery, l.now).1.Accepted?
        then [CursorStep(l.delivery.cursorBefore, l.delivery.cursorAfter)] else []
  }

  /** The cursor a sequence of accepted batches leads to. */
  function Reached(steps: seq<CursorStep>): Option<Cursor> {
    if steps == [] then None else steps[|steps| - 1].after
  }

  /** On a source without crawls the accepted batches are a path from the null cursor to the present one. */
  lemma {:induction false} AcceptedBatchesArePath(ls: seq<Label>)
    requires forall i | 0 <= i < |ls| :: !ls[i].DoCrawlCommit?
    ensures var path := AcceptedCursors(ls);
            && CursorOf(Exec(ls)) == Reached(path)
            && forall i | 0 <= i < |path| :: path[i].before == Reached(path[..i])
  {
    hide Inv, Apply, ReceiveBatch, EffectOnRuns;
    if ls != [] {
      var front, l := ls[..|ls| - 1], ls[|ls| - 1];
      AcceptedBatchesArePath(front);
      assert [] + ls == ls && [] + front == front;
      LastStep([], ls);
      var path, before := AcceptedCursors(ls), AcceptedCursors(front);
      if path != before { AcceptedAtCursor(Exec(front), l.delivery, l.now); }
      forall i | 0 <= i < |path| ensures path[i].before == Reached(path[..i]) {
        if i < |before| { assert path[..i] == before[..i]; } else { assert path[..i] == before; }
      }
    }
  }

  lemma AcceptedAtCursor(s: State, d: Delivery, now: Time)
    requires ReceiveBatch(s, d, now).1.Accepted?
    ensures d.cursorBefore == CursorOf(s)
  {}

  ghost predicate BatchStored(s: State, d: Delivery, r: RunId) {
    d.key in s.batches && s.batches[d.key] == Batch(d.digest, r) && r in s.runs && s.runs[r].key == Receive
  }

  lemma BatchStoredStep(s: State, t: State, l: Label, d: Delivery, r: RunId)
    requires BatchesPaired(t) && PurgeLasts(s, t) && BatchesLast(s, t) && RunsPersist(s, t)
    requires BatchStored(s, d, r) || s.status == Archived
    ensures BatchStored(t, d, r) || t.status == Archived
  {}

  lemma AcceptedIsStored(s: State, d: Delivery, now: Time)
    requires ReceiveBatch(s, d, now).1.Accepted?
    ensures BatchStored(ReceiveBatch(s, d, now).0, d, s.nextRun) && ReceiveBatch(s, d, now).1 == Accepted(s.nextRun)
  {
    hide InsertNew;
  }

  lemma {:induction false} AcceptedBatchStays(ls: seq<Label>, d: Delivery, r: RunId, ms: seq<Label>)
    requires BatchStored(Exec(ls), d, r)
    ensures BatchStored(Exec(ls + ms), d, r) || Exec(ls + ms).status == Archived
    decreases |ms|
  {
    hide Exec, BatchStored;
    if ms == [] {
      NoStep(ls);
    } else {
      AcceptedBatchStays(ls, d, r, ms[..|ms| - 1]);
      LastStep(ls, ms);
      assert BatchesPaired(Exec(ls + ms));
      hide Inv, EffectOnRuns;
      BatchStoredStep(Exec(ls + ms[..|ms| - 1]), Exec(ls + ms), ms[|ms| - 1], d, r);
    }
  }

  /** An accepted batch sent again, at any later moment the source is active, finds its run and changes nothing. */
  lemma RedeliveredBatchIsReplayed(ls: seq<Label>, d: Delivery, now: Time, ms: seq<Label>, later: Time)
    requires ReceiveBatch(Exec(ls), d, now).1.Accepted?
    requires Exec(ls + [DoReceive(d, now)] + ms).status == Active
    ensures var t := Exec(ls + [DoReceive(d, now)] + ms);
            ReceiveBatch(t, d, later) == (t, Replayed(ReceiveBatch(Exec(ls), d, now).1.run))
  {
    hide Exec, Inv, Effect;
    var l := DoReceive(d, now);
    assert [l][..0] == [] && ls + [] == ls;
    LastStep(ls, [l]);
    AcceptedIsStored(Exec(ls), d, now);
    hide ReceiveBatch;
    AcceptedBatchStays(ls + [l], d, Exec(ls).nextRun, ms);
    StoredIsReplayed(Exec(ls + [l] + ms), d, Exec(ls).nextRun, later);
  }

  lemma StoredIsReplayed(s: State, d: Delivery, r: RunId, now: Time)
    requires BatchStored(s, d, r) && s.status == Active
    ensures ReceiveBatch(s, d, now) == (s, Replayed(r))
  {}

  // ------------------------------------------------------------------- observations

  /** A collection run that succeeded has observations, and no batch holds the same observation twice. */
  lemma {:induction false} SucceededRunsAreObserved(ls: seq<Label>)
    ensures forall r | r in Exec(ls).runs && Collects(Exec(ls).runs[r]) && Exec(ls).runs[r].stage == Succeeded :: Observed(Exec(ls), r)
    ensures forall i, j | 0 <= i < j < |Exec(ls).observations| :: Exec(ls).observations[i] != Exec(ls).observations[j]
  {
    hide Exec;
    RunsKeepInvariant(ls);
  }

  lemma {:induction false} NothingNew(rows: seq<Observation>, added: seq<Observation>)
    requires forall o | o in added :: o in rows
    ensures InsertNew(rows, added) == rows
  {
    if added != [] {
      assert added[|added| - 1] in added;
      NothingNew(rows, added[..|added| - 1]);
    }
  }

  lemma {:induction false} ObservationsStay(ls: seq<Label>, rows: seq<Observation>, ms: seq<Label>)
    requires forall o | o in rows :: o in Exec(ls).observations
    ensures (forall o | o in rows :: o in Exec(ls + ms).observations) || Begun(Exec(ls + ms))
    decreases |ms|
  {
    hide Exec, EffectOnRuns, Inv, Begun;
    if ms == [] {
      NoStep(ls);
    } else {
      ObservationsStay(ls, rows, ms[..|ms| - 1]);
      LastStep(ls, ms);
    }
  }

  lemma CrawlStores(s: State, a: AttemptId, records: seq<Record>, digest: string)
    requires Inv(s) && CrawlCommit(s, a, records, digest) != s
    ensures a < |s.attempts| && s.attempts[a].event < |s.events| && EventOf(s, a).work.CrawlRequested?
    ensures forall o | o in ObserveAt(RunOf(s, a), records, EventOf(s, a).occurredAt) :: o in CrawlCommit(s, a, records, digest).observations
  {
    assert ObservationsDistinct(s);
    hide Inv, InsertNew, ObserveAt;
    InsertNewFacts(s.observations, ObserveAt(RunOf(s, a), records, EventOf(s, a).occurredAt));
  }

  lemma CrawlOfStored(s: State, b: AttemptId, records: seq<Record>, digest: string)
    requires b < |s.attempts| && s.attempts[b].event < |s.events| && EventOf(s, b).work.CrawlRequested?
    requires s.runs == map[] || forall o | o in ObserveAt(RunOf(s, b), records, EventOf(s, b).occurredAt) :: o in s.observations
    ensures CrawlCommit(s, b, records, digest).observations == s.observations
  {
    hide InsertNew, ObserveAt;
    if s.runs != map[] { NothingNew(s.observations, ObserveAt(RunOf(s, b), records, EventOf(s, b).occurredAt)); }
  }

  lemma BegunHasNoRuns(s: State)
    requires Inv(s) && Begun(s)
    ensures s.runs == map[]
  {}

  /** Crawling the same pages for the same event again, in any later attempt, stores nothing new. */
  lemma RepeatedCrawlAddsNothing(ls: seq<Label>, a: AttemptId, records: seq<Record>, digest: string, ms: seq<Label>, b: AttemptId, again: string)
    requires CrawlCommit(Exec(ls), a, records, digest) != Exec(ls) && a < |Exec(ls).attempts|
    requires var t := Exec(ls + [DoCrawlCommit(a, records, digest)] + ms);
             b < |t.attempts| && t.attempts[b].event == Exec(ls).attempts[a].event
    ensures var t := Exec(ls + [DoCrawlCommit(a, records, digest)] + ms);
            CrawlCommit(t, b, records, again).observations == t.observations
  {
    hide Exec, Inv, Effect, CrawlCommit, ObserveAt, Begun;
    var l := DoCrawlCommit(a, records, digest);
    var s, t := Exec(ls), Exec(ls + [l] + ms);
    assert [l][..0] == [] && ls + [] == ls && ls + [l] + ms == ls + ([l] + ms);
    LastStep(ls, [l]);
    CrawlStores(s, a, records, digest);
    ObservationsStay(ls + [l], ObserveAt(RunOf(s, a), records, EventOf(s, a).occurredAt), ms);
    EventsStay(ls, [l] + ms, s.attempts[a].event);
    RunsKeepInvariant(ls + [l] + ms);
    if Begun(t) { BegunHasNoRuns(t); }
    CrawlOfStored(t, b, records, again);
  }

  /** A crawl never moves the cursor back in time: afterwards it reads as the later of the event's time and the cursor's. */
  lemma CrawlMovesCursorForward(s: State, a: AttemptId, records: seq<Record>, digest: string)
    requires CrawlCommit(s, a, records, digest) != s
    ensures var was, now := CursorOf(s), CursorOf(CrawlCommit(s, a, records, digest));
            && a < |s.attempts| && s.attempts[a].event < |s.events|
            && now.Some? && now.value.Stamp? && now.value.instant >= EventOf(s, a).occurredAt
            && (was.Some? && was.value.Stamp? ==> now.value.instant >= was.value.instant)
            && (now == was || now.value.instant == EventOf(s, a).occurredAt)
  {
    hide InsertNew, ObserveAt, Fenced;
  }

  // ------------------------------------------------------------------ a straggling attempt

  lemma ExecSnoc(ls: seq<Label>, l: Label)
    ensures Exec(ls + [l]) == Apply(Exec(ls), l)
  {
    hide Apply;
    assert (ls + [l])[..|ls|] == ls;
  }

  /** Run 0 was asked for by event 0, claimed at time 0, and has an observation; `first` is how far the first attempt is. */
  ghost predicate Straggling(s: State, first: Phase) {
    && s.status == Active && s.generation == 1
    && 0 in s.runs && s.runs[0].key == Receive && s.runs[0].stage == Running && s.runs[0].stageLease == Some(STAGE_TIMEOUT)
    && HoldsLease(s, 0) && s.ingest.value.leaseUntil == Some(COLLECTION_LEASE)
    && |s.events| == 1 && s.events[0].work == StageRequested(0) && s.events[0].generation == 1 && s.events[0].status == EventPending
    && Observed(s, 0) && s.attempts == [Attempt(0, first)]
  }

  lemma StragglerStarts(d: Delivery)
    requires d.cursorBefore == None && d.records != []
    ensures Straggling(Apply(Apply(NEW_SOURCE, DoReceive(d, 0)), DoClaim(0, 0)), Working)
  {
    InsertNewFacts([], Observe(0, d.records));
    assert Observe(0, d.records)[0] in Observe(0, d.records);
    hide InsertNew, Observe;
    var s := Apply(NEW_SOURCE, DoReceive(d, 0));
    var o :| o in s.observations;
    var i :| 0 <= i < |s.observations| && s.observations[i] == o;
    assert s.observations[i].run == 0;
    assert Apply(s, DoClaim(0, 0)).observations[i].run == 0;
  }

  lemma StragglerChecks(s: State)
    requires Straggling(s, Working)
    ensures Straggling(Apply(s, DoCheck(0)), Checked)
  {
    var i :| 0 <= i < |s.observations| && s.observations[i].run == 0;
    assert Apply(s, DoCheck(0)).observations[i].run == 0;
  }

  lemma StragglerIsOvertaken(s: State)
    requires Straggling(s, Checked)
    ensures var t := Apply(Apply(s, DoClaim(0, STAGE_TIMEOUT)), DoFailStage(1));
            && t.status == Active && t.generation == 1 && 0 in t.runs && t.runs[0].stage == Failed
            && |t.events| == 1 && t.events[0].work == StageRequested(0) && t.events[0].generation == 1
            && |t.attempts| == 2 && t.attempts[0] == Attempt(0, Checked)
  {
    hide Observed;
    var u := Apply(s, DoClaim(0, STAGE_TIMEOUT));
    assert u.attempts == [Attempt(0, Checked), Attempt(0, Working)] && u.events == s.events && 0 in u.runs;
  }

  /**
   Why a failed run is safe from success only once no attempt is under way: here the first of
   two attempts, overtaken when its stage lease ran out, marks the run succeeded after the
   second has failed it.
   */
  lemma StragglerSucceeds(d: Delivery)
    requires d.cursorBefore == None && d.records != []
    ensures var ls := [DoReceive(d, 0), DoClaim(0, 0), DoCheck(0), DoClaim(0, STAGE_TIMEOUT), DoFailStage(1)];
            && 0 in Exec(ls).runs && Exec(ls).runs[0].stage == Failed
            && 0 in Exec(ls + [DoFinish(0)]).runs && Exec(ls + [DoFinish(0)]).runs[0].stage == Succeeded
  {
    hide Apply, Straggling, Exec;
    var l0, l1, l2, l3, l4 := DoReceive(d, 0), DoClaim(0, 0), DoCheck(0), DoClaim(0, STAGE_TIMEOUT), DoFailStage(1);
    var s := Apply(Apply(NEW_SOURCE, l0), l1);
    StragglerStarts(d);
    StragglerChecks(s);
    StragglerIsOvertaken(Apply(s, l2));
    StragglerFinishes(Apply(Apply(Apply(s, l2), l3), l4));
    ExecFive(l0, l1, l2, l3, l4);
    ExecSnoc([l0, l1, l2, l3, l4], DoFinish(0));
  }

  lemma ExecFive(l0: Label, l1: Label, l2: Label, l3: Label, l4: Label)
    ensures Exec([l0, l1, l2, l3, l4]) == Apply(Apply(Apply(Apply(Apply(NEW_SOURCE, l0), l1), l2), l3), l4)
  {
    hide Apply;
    ExecSnoc([], l0);
    ExecSnoc([l0], l1);
    ExecSnoc([l0, l1], l2);
    ExecSnoc([l0, l1, l2], l3);
    ExecSnoc([l0, l1, l2, l3], l4);
    assert [] + [l0] == [l0] && [l0] + [l1] == [l0, l1] && [l0, l1] + [l2] == [l0, l1, l2]
        && [l0, l1, l2] + [l3] == [l0, l1, l2, l3] && [l0, l1, l2, l3] + [l4] == [l0, l1, l2, l3, l4];
  }

  lemma StragglerFinishes(t: State)
    requires t.status == Active && t.generation == 1 && 0 in t.runs
    requires |t.events| == 1 && t.events[0].work == StageRequested(0) && t.events[0].generation == 1
    requires |t.attempts| == 2 && t.attempts[0] == Attempt(0, Checked)
    ensures 0 in Apply(t, DoFinish(0)).runs && Apply(t, DoFinish(0)).runs[0].stage == Succeeded
  {}
}
