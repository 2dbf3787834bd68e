/**
 What one transaction of the collection protocol may do to what earlier ones left: the
 relation `Effect`, and the proof that every transaction keeps to it.
 */
module CollectionEffect {
  import opened Wrappers
  import opened Collection
  import opened CollectionInvariant

  // ------------------------------------------------------- what one transaction may do

  /** The generation counts changes of status. */
  ghost predicate GenerationCounts(s: State, t: State) {
    t.generation == s.generation + if t.status == s.status then 0 else 1
  }

  /** Events are only added, for the generation of the moment; a run's event only while the source is active. */
  ghost predicate EventsGrow(s: State, t: State) {
    && |s.events| <= |t.events| <= |s.events| + 1
    && (forall i | 0 <= i < |s.events| ::
          t.events[i].work == s.events[i].work && t.events[i].generation == s.events[i].generation && t.events[i].occurredAt == s.events[i].occurredAt)
    && (|t.events| > |s.events| ==>
          var e := t.events[|s.events|];
          e.generation == t.generation && (PayloadRun(e.work).Some? ==> t.status == Active))
  }

  ghost predicate IsRetryOf(l: Label, r: RunId) { l.DoRetry? && l.run == r }

  /** Runs keep their batch and stage key; a new run is the next one; all go together or none does. */
  ghost predicate RunsPersist(s: State, t: State) {
    && s.nextRun <= t.nextRun
    && (forall r | r in t.runs && r in s.runs :: t.runs[r].batchKey == s.runs[r].batchKey && t.runs[r].key == s.runs[r].key)
    && (forall r | r in t.runs && r !in s.runs :: r == s.nextRun && r < t.nextRun && t.runs[r].stage == Pending && t.runs[r].attempts == 0)
    && (t.runs == map[] || s.runs.Keys <= t.runs.Keys)
  }

  /** The lease is only given to a new run or by a retry. */
  ghost predicate LeaseGiven(s: State, t: State, l: Label) {
    forall r | HoldsLease(t, r) :: HoldsLease(s, r) || r == s.nextRun || IsRetryOf(l, r)
  }

  /** A collection stage starts only for the run that holds the lease. */
  ghost predicate StartsWithLease(s: State, t: State) {
    forall r | r in t.runs && r in s.runs && Collects(s.runs[r]) && t.runs[r].stage == Running :: s.runs[r].stage == Running || HoldsLease(s, r)
  }

  /** The attempt by which a step could mark a run succeeded. */
  function Finishing(l: Label): Option<AttemptId> {
    if l.DoFinish? || l.DoFileSave? then Some(l.attempt) else None
  }

  /** A run succeeds only by an attempt of its own, under the fence of the attempt's event. */
  ghost predicate SucceedsFenced(s: State, t: State, l: Label) {
    forall r | r in t.runs && r in s.runs && t.runs[r].stage == Succeeded && s.runs[r].stage != Succeeded ::
      && Finishing(l).Some? && Finishing(l).value < |s.attempts| && s.attempts[Finishing(l).value].event < |s.events|
      && PayloadRun(EventOf(s, Finishing(l).value).work) == Some(r)
      && Fenced(s, EventOf(s, Finishing(l).value)) && t.status == Active
  }

  predicate Ended(phase: Phase) { phase == Over || phase == Committed }

  /** No attempt at run r is under way. */
  ghost predicate Idle(s: State, r: RunId) {
    forall a | 0 <= a < |s.attempts| && s.attempts[a].event < |s.events| ::
      PayloadRun(s.events[s.attempts[a].event].work) == Some(r) ==> Ended(s.attempts[a].phase)
  }

  /** A collection run that failed, without the lease and without an attempt under way, is left alone but for a retry. */
  ghost predicate FailedLeftAlone(s: State, t: State, l: Label) {
    forall r | r in t.runs && r in s.runs && Collects(s.runs[r]) && s.runs[r].stage == Failed && !HoldsLease(s, r) && Idle(s, r) && !IsRetryOf(l, r) ::
      t.runs[r].stage == Failed && Idle(t, r)
  }

  /** The step takes up a collection stage that is running, its stage lease having run out. */
  ghost predicate TakesOver(s: State, l: Label, r: RunId) {
    && l.DoClaim? && l.event < |s.events| && PayloadRun(s.events[l.event].work) == Some(r) && r in s.runs
    && s.runs[r].stage == Running && !After(s.runs[r].stageLease, l.now)
  }

  /** How the attempts at a collection run count. */
  ghost predicate AttemptsCount(s: State, t: State, l: Label) {
    forall r | r in t.runs && r in s.runs && Collects(s.runs[r]) ::
      || (t.runs[r].attempts == s.runs[r].attempts && (t.runs[r].stage == Pending ==> s.runs[r].stage == Pending))
      || (IsRetryOf(l, r) && t.runs[r].attempts == 0)
      || (t.runs[r].attempts == s.runs[r].attempts + 1 && HoldsLease(s, r)
          && (s.runs[r].stage == Running ==> TakesOver(s, l, r)))
  }

  ghost predicate Begun(s: State) { s.purges != [] && s.purges[0].status != PurgeQueued }

  /** A purge once begun is never undone. */
  ghost predicate PurgeLasts(s: State, t: State) {
    && |s.purges| <= |t.purges|
    && (Begun(s) ==> Begun(t))
    && (s.status == Archived ==> t.status == Archived)
  }

  /** Stored observations stay, or all rows go. */
  ghost predicate ObservationsLast(s: State, t: State) {
    s.observations <= t.observations || Begun(t)
  }

  /** A batch keeps its run, and its hash unless it is a crawl's. */
  ghost predicate BatchesLast(s: State, t: State) {
    || (t.batches == map[] && t.status == Archived)
    || forall k | k in s.batches ::
         && k in t.batches && t.batches[k].run == s.batches[k].run
         && (s.batches[k].run in s.runs && s.runs[s.batches[k].run].key != CollectWeb ==> t.batches[k].payloadHash == s.batches[k].payloadHash)
  }

  function CursorOf(s: State): Option<Cursor> { IngestOf(s).cursor }

  /** Only accepted batches and crawl commits move the cursor. */
  ghost predicate CursorMoves(s: State, t: State, l: Label) {
    && (!l.DoReceive? && !l.DoCrawlCommit? ==> CursorOf(t) == CursorOf(s))
    && (l.DoReceive? ==> CursorOf(t) == if ReceiveBatch(s, l.delivery, l.now).1.Accepted? then l.delivery.cursorAfter else CursorOf(s))
  }

  ghost predicate EffectOnRows(s: State, t: State, l: Label) {
    && GenerationCounts(s, t) && EventsGrow(s, t) && RunsPersist(s, t)
    && PurgeLasts(s, t) && ObservationsLast(s, t) && BatchesLast(s, t) && CursorMoves(s, t, l)
  }

  ghost predicate EffectOnRuns(s: State, t: State, l: Label) {
    && LeaseGiven(s, t, l) && StartsWithLease(s, t) && SucceedsFenced(s, t, l)
    && FailedLeftAlone(s, t, l) && AttemptsCount(s, t, l)
  }

  ghost predicate Effect(s: State, t: State, l: Label) { EffectOnRows(s, t, l) && EffectOnRuns(s, t, l) }

  // --------------------------------------------- steps that concern at most one run

  /** Event e gets a new delivery status at most. */
  ghost predicate EventNoted(s: State, t: State, e: EventId) {
    || t.events == s.events
    || (e < |s.events| && |t.events| == |s.events|
        && t.events == s.events[e := s.events[e].(status := t.events[e].status, nextAttempt := t.events[e].nextAttempt)])
  }

  /** An attempt at event e starts, or attempt a at it moves on. */
  ghost predicate AttemptMoves(s: State, t: State, e: EventId, a: AttemptId) {
    || t.attempts == s.attempts
    || t.attempts == s.attempts + [Attempt(e, Working)]
    || (a < |s.attempts| == |t.attempts| && s.attempts[a].event == e && t.attempts == s.attempts[a := t.attempts[a]]
        && t.attempts[a].event == e && (Ended(s.attempts[a].phase) ==> Ended(t.attempts[a].phase)))
  }

  /** The cursor stays, and the lease with its run or nobody. */
  ghost predicate LeaseNotGiven(s: State, t: State) {
    || t.ingest == s.ingest
    || (s.ingest.Some? && t.ingest.Some? && t.ingest.value.cursor == s.ingest.value.cursor
        && (t.ingest.value.leaseRun == None || t.ingest.value.leaseRun == s.ingest.value.leaseRun))
  }

  /** The step leaves alone all but one run r, one event e of it, one attempt at e and the lease. */
  ghost predicate Touches(s: State, t: State, r: RunId, e: EventId, a: AttemptId) {
    && t.status == s.status && t.generation == s.generation && t.nextRun == s.nextRun && t.purges == s.purges
    && t.batches == s.batches && t.observations == s.observations
    && e < |s.events| && PayloadRun(s.events[e].work) == Some(r)
    && (t.runs == s.runs || (r in s.runs && r in t.runs && t.runs == s.runs[r := t.runs[r]]))
    && EventNoted(s, t, e) && AttemptMoves(s, t, e, a) && LeaseNotGiven(s, t)
  }

  /** What may become of the one run. */
  ghost predicate Changes(s: State, t: State, r: RunId, l: Label)
    requires r in s.runs && r in t.runs
  {
    var was, now := s.runs[r], t.runs[r];
    && now.batchKey == was.batchKey && now.key == was.key
    && (Collects(was) ==>
          && (now.stage == Running ==> was.stage == Running || HoldsLease(s, r))
          && (now.stage == Failed || was.stage != Failed || HoldsLease(s, r) || !Idle(s, r))
          && (|t.attempts| > |s.attempts| ==> HoldsLease(s, r))
          && (|| (now.attempts == was.attempts && (now.stage == Pending ==> was.stage == Pending))
              || (now.attempts == was.attempts + 1 && HoldsLease(s, r) && (was.stage == Running ==> TakesOver(s, l, r)))))
    && (now.stage == Succeeded && was.stage != Succeeded ==>
          && Finishing(l).Some? && Finishing(l).value < |s.attempts| && s.attempts[Finishing(l).value].event < |s.events|
          && PayloadRun(EventOf(s, Finishing(l).value).work) == Some(r)
          && Fenced(s, EventOf(s, Finishing(l).value)))
  }

  lemma LiveIsNotIdle(s: State, a: AttemptId, r: RunId)
    requires a < |s.attempts| && s.attempts[a].event < |s.events| && PayloadRun(EventOf(s, a).work) == Some(r)
    requires !Ended(s.attempts[a].phase)
    ensures !Idle(s, r)
  {}

  lemma RejectTouches(s: State, r: RunId, e: EventId, code: ErrorCode)
    requires r in s.runs && e < |s.events| && PayloadRun(s.events[e].work) == Some(r)
    ensures var t := Reject(s, r, e, code);
            && Touches(s, t, r, e, 0) && t.attempts == s.attempts && r in t.runs
            && t.runs[r] == s.runs[r].(stage := Failed, stageError := Some(code), status := RunFailed, error := Some(code))
  {}

  lemma StartTouches(s: State, r: RunId, e: EventId, now: Time)
    requires r in s.runs && s.ingest.Some? && e < |s.events| && PayloadRun(s.events[e].work) == Some(r)
    ensures var t := StartAttempt(s, e, r, now);
            && Touches(s, t, r, e, 0) && r in t.runs && t.runs[r].stage == Running && t.runs[r].attempts == s.runs[r].attempts + 1
            && t.runs[r].batchKey == s.runs[r].batchKey && t.runs[r].key == s.runs[r].key
  {}

  lemma ClaimEffect(s: State, l: Label)
    requires l.DoClaim? && l.event < |s.events| && PayloadRun(s.events[l.event].work).Some?
    ensures var e, r, t := l.event, s.events[l.event].work.run, Claim(s, l.event, l.now);
            Touches(s, t, r, e, 0) && (r in s.runs ==> Changes(s, t, r, l))
  {
    hide Fenced, Reject, StartAttempt, Idle, After;
    var e, r := l.event, s.events[l.event].work.run;
    if r in s.runs {
      RejectTouches(s, r, e, SourceUnavailable);
      RejectTouches(s, r, e, LeaseExpired);
      if s.ingest.Some? { StartTouches(s, r, e, l.now); }
    }
  }

  lemma CheckEffect(s: State, l: Label)
    requires l.DoCheck? && InPhase(s, l.attempt, {Working, Collected})
    ensures var a, r, t := l.attempt, RunOf(s, l.attempt), CheckObserved(s, l.attempt);
            Touches(s, t, r, s.attempts[a].event, a) && (r in s.runs ==> Changes(s, t, r, l))
  {
    hide Fenced, Idle, Observed;
  }

  lemma TransientTouches(s: State, l: Label)
    requires l.DoTransient? && InPhase(s, l.attempt, {Working, Collected, Checked})
    ensures Touches(s, Transient(s, l.attempt, l.delay, l.now), RunOf(s, l.attempt), s.attempts[l.attempt].event, l.attempt)
  {
    hide Fenced, Idle;
  }

  lemma TransientChanges(s: State, l: Label)
    requires l.DoTransient? && InPhase(s, l.attempt, {Working, Collected, Checked}) && RunOf(s, l.attempt) in s.runs
    ensures Changes(s, Transient(s, l.attempt, l.delay, l.now), RunOf(s, l.attempt), l)
  {
    hide Fenced, Idle;
    LiveIsNotIdle(s, l.attempt, RunOf(s, l.attempt));
  }

  lemma FailStageTouches(s: State, l: Label)
    requires l.DoFailStage? && InPhase(s, l.attempt, {Working, Collected, Checked, Exhausted})
    ensures Touches(s, FailStage(s, l.attempt), RunOf(s, l.attempt), s.attempts[l.attempt].event, l.attempt)
  {
    var a, r, t := l.attempt, RunOf(s, l.attempt), FailStage(s, l.attempt);
    if IsCollection(EventOf(s, a).work) && r in s.runs {
      assert t.runs == s.runs[r := t.runs[r]];
    }
  }

  lemma FailStageChanges(s: State, l: Label)
    requires l.DoFailStage? && InPhase(s, l.attempt, {Working, Collected, Checked, Exhausted}) && RunOf(s, l.attempt) in s.runs
    ensures Changes(s, FailStage(s, l.attempt), RunOf(s, l.attempt), l)
  {
    hide Idle;
  }

  lemma FinishTouches(s: State, l: Label)
    requires l.DoFinish? && InPhase(s, l.attempt, {Checked})
    ensures Touches(s, Finish(s, l.attempt), RunOf(s, l.attempt), s.attempts[l.attempt].event, l.attempt)
  {
    hide Fenced;
  }

  lemma FinishChanges(s: State, l: Label)
    requires l.DoFinish? && InPhase(s, l.attempt, {Checked}) && RunOf(s, l.attempt) in s.runs
    ensures Changes(s, Finish(s, l.attempt), RunOf(s, l.attempt), l)
  {
    hide Idle;
    LiveIsNotIdle(s, l.attempt, RunOf(s, l.attempt));
  }

  lemma MarkDeliveredEffect(s: State, l: Label)
    requires l.DoMarkDelivered? && InPhase(s, l.attempt, {Committed})
    ensures var a, r, t := l.attempt, RunOf(s, l.attempt), MarkDelivered(s, l.attempt);
            Touches(s, t, r, s.attempts[a].event, a) && (r in s.runs ==> Changes(s, t, r, l))
  {
    hide Fenced, Idle;
  }

  lemma FileClaimTouches(s: State, l: Label)
    requires l.DoFileClaim? && l.event < |s.events| && s.events[l.event].work.FileUploaded?
    ensures Touches(s, FileClaim(s, l.event, l.leaseUntil, l.now), s.events[l.event].work.run, l.event, 0)
  {
    hide Fenced, After;
  }

  lemma FileClaimChanges(s: State, l: Label)
    requires l.DoFileClaim? && l.event < |s.events| && s.events[l.event].work.FileUploaded?
    requires s.events[l.event].work.run in s.runs && !Collects(s.runs[s.events[l.event].work.run])
    ensures Changes(s, FileClaim(s, l.event, l.leaseUntil, l.now), s.events[l.event].work.run, l)
  {
    hide Fenced, After, Idle;
  }

  lemma FileSaveTouches(s: State, l: Label)
    requires l.DoFileSave? && InPhase(s, l.attempt, {Working}) && EventOf(s, l.attempt).work.FileUploaded?
    ensures Touches(s, FileSave(s, l.attempt, l.parsed), RunOf(s, l.attempt), s.attempts[l.attempt].event, l.attempt)
  {
    hide Fenced;
  }

  lemma FileSaveChanges(s: State, l: Label)
    requires l.DoFileSave? && InPhase(s, l.attempt, {Working}) && EventOf(s, l.attempt).work.FileUploaded?
    requires RunOf(s, l.attempt) in s.runs && !Collects(s.runs[RunOf(s, l.attempt)])
    ensures Changes(s, FileSave(s, l.attempt, l.parsed), RunOf(s, l.attempt), l)
  {
    hide Idle;
  }

  lemma FileFailTouches(s: State, l: Label)
    requires l.DoFileFail? && InPhase(s, l.attempt, {Working}) && EventOf(s, l.attempt).work.FileUploaded?
    ensures Touches(s, FileFail(s, l.attempt, l.timedOut), RunOf(s, l.attempt), s.attempts[l.attempt].event, l.attempt)
  {
    hide Fenced;
    var a, r, t := l.attempt, RunOf(s, l.attempt), FileFail(s, l.attempt, l.timedOut);
    if r in s.runs && Fenced(s, EventOf(s, a)) {
      assert t.runs == s.runs[r := t.runs[r]];
    }
  }

  lemma FileFailChanges(s: State, l: Label)
    requires l.DoFileFail? && InPhase(s, l.attempt, {Working}) && EventOf(s, l.attempt).work.FileUploaded?
    requires RunOf(s, l.attempt) in s.runs && !Collects(s.runs[RunOf(s, l.attempt)])
    ensures Changes(s, FileFail(s, l.attempt, l.timedOut), RunOf(s, l.attempt), l)
  {
    hide Idle, Fenced;
  }

  // ------------------------------------------------ from one run to all of them

  lemma TouchesRows(s: State, t: State, r: RunId, e: EventId, a: AttemptId, l: Label)
    requires Touches(s, t, r, e, a) && (r in s.runs ==> Changes(s, t, r, l)) && !l.DoReceive?
    ensures EffectOnRows(s, t, l)
  {
    hide Idle, TakesOver;
  }

  lemma TouchesRuns(s: State, t: State, r: RunId, e: EventId, a: AttemptId, l: Label)
    requires AttemptsKnown(s) && Touches(s, t, r, e, a) && (r in s.runs ==> Changes(s, t, r, l))
    ensures EffectOnRuns(s, t, l)
  {
    hide Touches, Changes, LeaseGiven, StartsWithLease, SucceedsFenced, FailedLeftAlone, AttemptsCount;
    TouchesLease(s, t, r, e, a, l);
    TouchesStages(s, t, r, e, a, l);
    TouchesFailed(s, t, r, e, a, l);
  }

  lemma TouchesLease(s: State, t: State, r: RunId, e: EventId, a: AttemptId, l: Label)
    requires Touches(s, t, r, e, a)
    ensures LeaseGiven(s, t, l)
  {
    hide EventNoted, AttemptMoves;
  }

  lemma TouchesStages(s: State, t: State, r: RunId, e: EventId, a: AttemptId, l: Label)
    requires Touches(s, t, r, e, a) && (r in s.runs ==> Changes(s, t, r, l))
    ensures StartsWithLease(s, t) && SucceedsFenced(s, t, l) && AttemptsCount(s, t, l)
  {
    hide EventNoted, AttemptMoves, LeaseNotGiven, Idle, TakesOver, HoldsLease, Finishing;
    forall q | q in t.runs && q in s.runs && q != r ensures t.runs[q] == s.runs[q] {}
    TouchesCounts(s, t, r, e, a, l);
  }

  lemma TouchesCounts(s: State, t: State, r: RunId, e: EventId, a: AttemptId, l: Label)
    requires Touches(s, t, r, e, a) && (r in s.runs ==> Changes(s, t, r, l))
    ensures AttemptsCount(s, t, l)
  {
    hide EventNoted, AttemptMoves, LeaseNotGiven, Idle, TakesOver, HoldsLease, Finishing, Fenced;
    forall q | q in t.runs && q in s.runs && Collects(s.runs[q])
      ensures || (t.runs[q].attempts == s.runs[q].attempts && (t.runs[q].stage == Pending ==> s.runs[q].stage == Pending))
              || (t.runs[q].attempts == s.runs[q].attempts + 1 && HoldsLease(s, q) && (s.runs[q].stage == Running ==> TakesOver(s, l, q)))
    {
      if q != r { assert t.runs[q] == s.runs[q]; }
    }
  }

  lemma TouchesFailed(s: State, t: State, r: RunId, e: EventId, a: AttemptId, l: Label)
    requires AttemptsKnown(s) && Touches(s, t, r, e, a) && (r in s.runs ==> Changes(s, t, r, l))
    ensures FailedLeftAlone(s, t, l)
  {
    forall q | q in t.runs && q in s.runs && Collects(s.runs[q]) && s.runs[q].stage == Failed && !HoldsLease(s, q) && Idle(s, q)
      ensures t.runs[q].stage == Failed && Idle(t, q)
    {
      forall b | 0 <= b < |t.attempts| && t.attempts[b].event < |t.events| && PayloadRun(t.events[t.attempts[b].event].work) == Some(q)
        ensures Ended(t.attempts[b].phase)
      {
        if b < |s.attempts| {
          assert t.events[s.attempts[b].event].work == s.events[s.attempts[b].event].work;
          assert Ended(s.attempts[b].phase);
        }
      }
    }
  }

  /** The runs that were there stay as they are, but for one put back to the start; attempts at most end. */
  ghost predicate RunsStay(s: State, t: State, l: Label) {
    && (forall r | r in t.runs && r in s.runs ::
          t.runs[r] == s.runs[r] || (IsRetryOf(l, r) && t.runs[r].stage == Pending && t.runs[r].attempts == 0))
    && |s.events| <= |t.events| && (forall i | 0 <= i < |s.events| :: t.events[i].work == s.events[i].work)
    && (forall b | 0 <= b < |s.attempts| && b < |t.attempts| ::
          t.attempts[b].event == s.attempts[b].event && (Ended(s.attempts[b].phase) ==> Ended(t.attempts[b].phase)))
    && |s.attempts| <= |t.attempts| && (|t.attempts| > |s.attempts| ==> t.runs == map[])
  }

  lemma StayOnRuns(s: State, t: State, l: Label)
    requires AttemptsKnown(s) && RunsStay(s, t, l) && LeaseGiven(s, t, l)
    ensures EffectOnRuns(s, t, l)
  {
    forall q | q in t.runs && q in s.runs && Collects(s.runs[q]) && s.runs[q].stage == Failed && !HoldsLease(s, q) && Idle(s, q) && !IsRetryOf(l, q)
      ensures t.runs[q].stage == Failed && Idle(t, q)
    {
      forall b | 0 <= b < |t.attempts| && t.attempts[b].event < |t.events| && PayloadRun(t.events[t.attempts[b].event].work) == Some(q)
        ensures Ended(t.attempts[b].phase)
      {
        assert Ended(s.attempts[b].phase);
      }
    }
  }

  // ------------------------------------------------------------- the other steps

  /** A new run came, with its batch and its event; nothing else but observations, documents and the lease. */
  ghost predicate Grows(s: State, t: State, key: string, stage: StageKey, digest: string, work: Work, now: Time) {
    && s.status == t.status == Active && t.generation == s.generation && t.nextRun == s.nextRun + 1
    && t.purges == s.purges && t.attempts == s.attempts && s.observations <= t.observations
    && key !in s.batches && t.batches == s.batches[key := Batch(digest, s.nextRun)]
    && t.runs == s.runs[s.nextRun := NewRun(key, stage, now)]
    && t.events == s.events + [Event(work, s.generation, now, EventPending, now, None)]
  }

  lemma GrowsEffect(s: State, t: State, l: Label, key: string, stage: StageKey, digest: string, work: Work, now: Time)
    requires Inv(s) && Grows(s, t, key, stage, digest, work, now) && PayloadRun(work).Some? && LeaseGiven(s, t, l) && CursorMoves(s, t, l)
    ensures Effect(s, t, l)
  {
    assert s.nextRun !in s.runs && AttemptsKnown(s);
    hide Inv, LeaseGiven, CursorMoves, AttemptsKnown, EffectOnRows, EffectOnRuns;
    GrowsRows(s, t, l, key, stage, digest, work, now);
    StayOnRuns(s, t, l);
  }

  lemma GrowsRows(s: State, t: State, l: Label, key: string, stage: StageKey, digest: string, work: Work, now: Time)
    requires s.nextRun !in s.runs && Grows(s, t, key, stage, digest, work, now) && PayloadRun(work).Some? && CursorMoves(s, t, l)
    ensures EffectOnRows(s, t, l)
  {
    hide CursorMoves;
  }

  lemma ReceiveEffect(s: State, l: Label)
    requires Inv(s) && l.DoReceive?
    ensures Effect(s, ReceiveBatch(s, l.delivery, l.now).0, l)
  {
    var d, t := l.delivery, ReceiveBatch(s, l.delivery, l.now).0;
    if ReceiveBatch(s, d, l.now).1.Accepted? {
      assert s.observations <= t.observations by { InsertNewFacts(s.observations, Observe(s.nextRun, d.records)); }
      hide InsertNew, Observe, Inv, Effect;
      GrowsEffect(s, t, l, d.key, Receive, d.digest, StageRequested(s.nextRun), l.now);
    } else {
      hide Inv;
      assert t == s;
      StaysEffect(s, l);
    }
  }

  /** The row of effects of a step that changes nothing. */
  lemma StaysEffect(s: State, l: Label)
    requires Inv(s) && (l.DoReceive? ==> !ReceiveBatch(s, l.delivery, l.now).1.Accepted?)
    ensures Effect(s, s, l)
  {
    hide ReceiveBatch;
    StayOnRuns(s, s, l);
  }

  lemma QueueCrawlEffect(s: State, l: Label)
    requires Inv(s) && l.DoQueueCrawl?
    ensures Effect(s, QueueCrawl(s, l.cursorBefore, l.configuration, l.key, l.now).0, l)
  {
    hide Inv, Effect;
    var t := QueueCrawl(s, l.cursorBefore, l.configuration, l.key, l.now).0;
    if QueueCrawl(s, l.cursorBefore, l.configuration, l.key, l.now).1.Accepted? {
      GrowsEffect(s, t, l, l.key, CollectWeb, l.configuration, CrawlRequested(s.nextRun, l.configuration), l.now);
    } else {
      StaysEffect(s, l);
    }
  }

  lemma ReceiveFileEffect(s: State, l: Label)
    requires Inv(s) && l.DoReceiveFile?
    ensures Effect(s, ReceiveFile(s, l.doc, l.rawUri, l.identity, l.digest, l.now).0, l)
  {
    hide Inv, Effect, IdentityUsed;
    var t := ReceiveFile(s, l.doc, l.rawUri, l.identity, l.digest, l.now).0;
    if ReceiveFile(s, l.doc, l.rawUri, l.identity, l.digest, l.now).1.Accepted? {
      GrowsEffect(s, t, l, l.identity, ParseFile, l.digest, FileUploaded(s.nextRun, l.doc), l.now);
    } else {
      StaysEffect(s, l);
    }
  }

  lemma RetryEffect(s: State, l: Label)
    requires Inv(s) && l.DoRetry?
    ensures Effect(s, RetryRun(s, l.run, l.now).0, l)
  {
    hide Effect, LastEvent, After;
    var t := RetryRun(s, l.run, l.now).0;
    if RetryRun(s, l.run, l.now).1.Accepted? {
      PriorFits(s, l.run);
      RetryRows(s, l);
      RetryStays(s, l);
      assert AttemptsKnown(s);
      hide Inv, RetryRun, RunsStay, LeaseGiven, EffectOnRows, EffectOnRuns;
      StayOnRuns(s, t, l);
      EffectJoins(s, t, l);
    } else {
      StaysEffect(s, l);
    }
  }

  lemma EffectJoins(s: State, t: State, l: Label)
    requires EffectOnRows(s, t, l) && EffectOnRuns(s, t, l)
    ensures Effect(s, t, l)
  {}

  lemma RetryStays(s: State, l: Label)
    requires l.DoRetry? && RetryRun(s, l.run, l.now).1.Accepted?
    ensures RunsStay(s, RetryRun(s, l.run, l.now).0, l) && LeaseGiven(s, RetryRun(s, l.run, l.now).0, l)
  {
    hide LastEvent, After;
  }

  lemma RetryRows(s: State, l: Label)
    requires l.DoRetry? && RetryRun(s, l.run, l.now).1.Accepted? && LastEvent(s.events, l.run).Some?
    ensures EffectOnRows(s, RetryRun(s, l.run, l.now).0, l)
  {
    hide LastEvent, After;
    var t := RetryRun(s, l.run, l.now).0;
    assert t.events == s.events + [t.events[|s.events|]];
    assert t.runs == s.runs[l.run := t.runs[l.run]];
  }

  lemma DispatchEffect(s: State, l: Label)
    requires Inv(s) && l.DoDispatch?
    ensures Effect(s, Dispatch(s, l.now, l.locked), l)
  {
    hide Selected;
    StayOnRuns(s, Dispatch(s, l.now, l.locked), l);
  }

  lemma CrawlCommitEffect(s: State, l: Label)
    requires Inv(s) && l.DoCrawlCommit?
    ensures Effect(s, CrawlCommit(s, l.attempt, l.records, l.digest), l)
  {
    var t := CrawlCommit(s, l.attempt, l.records, l.digest);
    if t == s {
      hide CrawlCommit;
      StaysEffect(s, l);
    } else {
      CrawlCommitRows(s, l);
      CrawlCommitStays(s, l);
      assert AttemptsKnown(s);
      hide Inv, CrawlCommit, RunsStay, LeaseGiven, EffectOnRows, EffectOnRuns;
      StayOnRuns(s, t, l);
    }
  }

  lemma CrawlCommitStays(s: State, l: Label)
    requires l.DoCrawlCommit?
    ensures RunsStay(s, CrawlCommit(s, l.attempt, l.records, l.digest), l)
    ensures LeaseGiven(s, CrawlCommit(s, l.attempt, l.records, l.digest), l)
  {
    hide InsertNew, ObserveAt, CrawlCursor, Fenced;
  }

  lemma CrawlCommitRows(s: State, l: Label)
    requires Inv(s) && l.DoCrawlCommit? && CrawlCommit(s, l.attempt, l.records, l.digest) != s
    ensures EffectOnRows(s, CrawlCommit(s, l.attempt, l.records, l.digest), l)
  {
    var r := RunOf(s, l.attempt);
    InsertNewFacts(s.observations, ObserveAt(r, l.records, EventOf(s, l.attempt).occurredAt));
    assert BatchesPaired(s) && Fits(EventOf(s, l.attempt).work, s.runs[r].key);
    hide Inv, InsertNew, ObserveAt;
  }

  lemma StatusEffect(s: State, l: Label, status: SourceStatus)
    requires Inv(s) && !l.DoReceive? && !l.DoCrawlCommit? && s.status != Archived && status != s.status
    ensures Effect(s, s.(generation := s.generation + 1, status := status), l)
  {
    StayOnRuns(s, s.(generation := s.generation + 1, status := status), l);
  }

  lemma StartPurgeEffect(s: State, l: Label)
    requires Inv(s) && l.DoStartPurge?
    ensures Effect(s, StartPurge(s, l.now), l)
  {
    ActiveHasNoPurge(s);
    assert AttemptsKnown(s);
    hide RawUris, Inv;
    StartPurgeRows(s, l);
    hide EffectOnRows, EffectOnRuns;
    StayOnRuns(s, StartPurge(s, l.now), l);
  }

  lemma StartPurgeRows(s: State, l: Label)
    requires l.DoStartPurge? && |s.purges| <= 1 && (s.status != Archived ==> s.purges == [])
    ensures EffectOnRows(s, StartPurge(s, l.now), l)
  {
    hide RawUris;
  }

  lemma PurgeDeleteEffect(s: State, l: Label)
    requires Inv(s) && l.DoPurgeDelete?
    ensures Effect(s, PurgeDelete(s, l.event), l)
  {
    assert AttemptsKnown(s);
    PurgeDeleteRows(s, l);
    PurgeDeleteStays(s, l);
    hide Inv, PurgeDelete, RunsStay, LeaseGiven, EffectOnRows, EffectOnRuns;
    StayOnRuns(s, PurgeDelete(s, l.event), l);
  }

  lemma PurgeDeleteStays(s: State, l: Label)
    requires l.DoPurgeDelete?
    ensures RunsStay(s, PurgeDelete(s, l.event), l) && LeaseGiven(s, PurgeDelete(s, l.event), l)
  {}

  lemma PurgeDeleteRows(s: State, l: Label)
    requires Inv(s) && l.DoPurgeDelete?
    ensures EffectOnRows(s, PurgeDelete(s, l.event), l)
  {
    if l.event < |s.events| && s.events[l.event].work.PurgeRequested? { PurgeFacts(s, l.event); }
    assert s.purges != [] ==> s.status == Archived;
    hide Inv;
  }

  lemma PurgeFinishEffect(s: State, l: Label)
    requires Inv(s) && l.DoPurgeFinish?
    ensures Effect(s, PurgeFinish(s, l.attempt, l.stuck, l.now), l)
  {
    if Purging(s, l.attempt) { PurgeFacts(s, s.attempts[l.attempt].event); }
    assert AttemptsKnown(s);
    hide Inv, EffectOnRuns;
    StayOnRuns(s, PurgeFinish(s, l.attempt, l.stuck, l.now), l);
  }

  lemma DocumentsEffect(s: State, documents: map<DocId, Document>, l: Label)
    requires Inv(s) && !l.DoReceive? && !l.DoCrawlCommit?
    ensures Effect(s, s.(documents := documents), l)
  {
    StayOnRuns(s, s.(documents := documents), l);
  }

  lemma TouchesEffect(s: State, t: State, r: RunId, e: EventId, a: AttemptId, l: Label)
    requires Inv(s) && Touches(s, t, r, e, a) && (r in s.runs ==> Changes(s, t, r, l)) && !l.DoReceive?
    ensures Effect(s, t, l)
  {
    assert AttemptsKnown(s);
    hide Inv, Touches, Changes, EffectOnRows, EffectOnRuns;
    TouchesRows(s, t, r, e, a, l);
    TouchesRuns(s, t, r, e, a, l);
  }

  lemma WorkerEffect(s: State, l: Label)
    requires Inv(s) && (l.DoCheck? || l.DoTransient? || l.DoFailStage? || l.DoFinish? || l.DoMarkDelivered?)
    ensures Effect(s, Apply(s, l), l)
  {
    hide Inv, Effect, Touches, Changes;
    var a, t := l.attempt, Apply(s, l);
    if t == s {
      StaysEffect(s, l);
    } else {
      assert InPhase(s, a, {Working, Collected, Checked, Exhausted, Committed});
      var r, e := RunOf(s, a), s.attempts[a].event;
      if l.DoCheck? {
        CheckEffect(s, l);
      } else if l.DoTransient? {
        TransientTouches(s, l);
        if r in s.runs { TransientChanges(s, l); }
      } else if l.DoFailStage? {
        FailStageTouches(s, l);
        if r in s.runs { FailStageChanges(s, l); }
      } else if l.DoFinish? {
        FinishTouches(s, l);
        if r in s.runs { FinishChanges(s, l); }
      } else {
        MarkDeliveredEffect(s, l);
      }
      TouchesEffect(s, t, r, e, a, l);
    }
  }

  lemma FileWorkerEffect(s: State, l: Label)
    requires Inv(s) && (l.DoFileClaim? || l.DoFileSave? || l.DoFileFail?)
    ensures Effect(s, Apply(s, l), l)
  {
    hide Inv, Effect, Touches, Changes;
    var t := Apply(s, l);
    if t == s {
      StaysEffect(s, l);
    } else if l.DoFileClaim? {
      var e, r := l.event, s.events[l.event].work.run;
      FileClaimTouches(s, l);
      if r in s.runs {
        FileRunIsNoCollection(s, e);
        FileClaimChanges(s, l);
      }
      TouchesEffect(s, t, r, e, 0, l);
    } else {
      var a, r, e := l.attempt, RunOf(s, l.attempt), s.attempts[l.attempt].event;
      if r in s.runs { FileRunIsNoCollection(s, e); }
      if l.DoFileSave? {
        FileSaveTouches(s, l);
        if r in s.runs { FileSaveChanges(s, l); }
      } else {
        FileFailTouches(s, l);
        if r in s.runs { FileFailChanges(s, l); }
      }
      TouchesEffect(s, t, r, e, a, l);
    }
  }

  /** Every transaction keeps to its effect. */
  lemma StepEffect(s: State, l: Label)
    requires Inv(s)
    ensures Effect(s, Apply(s, l), l)
  {
    hide Inv, Effect, Touches, Changes;
    match l
    case DoReceive(_, _) => ReceiveEffect(s, l);
    case DoQueueCrawl(_, _, _, _) => QueueCrawlEffect(s, l);
    case DoReceiveFile(_, _, _, _, _) => ReceiveFileEffect(s, l);
    case DoRetry(_, _) => RetryEffect(s, l);
    case DoDispatch(_, _) => DispatchEffect(s, l);
    case DoClaim(e, now) =>
      if Claim(s, e, now) == s {
        StaysEffect(s, l);
      } else {
        ClaimEffect(s, l);
        TouchesEffect(s, Claim(s, e, now), s.events[e].work.run, e, 0, l);
      }
    case DoCrawlCommit(_, _, _) => CrawlCommitEffect(s, l);
    case DoCheck(_) => WorkerEffect(s, l);
    case DoTransient(_, _, _) => WorkerEffect(s, l);
    case DoFailStage(_) => WorkerEffect(s, l);
    case DoFinish(_) => WorkerEffect(s, l);
    case DoMarkDelivered(_) => WorkerEffect(s, l);
    case DoFileClaim(_, _, _) => FileWorkerEffect(s, l);
    case DoFileSave(_, _) => FileWorkerEffect(s, l);
    case DoFileFail(_, _) => FileWorkerEffect(s, l);
    case DoPatchStatus(next) => if PatchStatus(s, next) == s { StaysEffect(s, l); } else { StatusEffect(s, l, next.value); }
    case DoArchive => if s.status == Archived { StaysEffect(s, l); } else { StatusEffect(s, l, Archived); }
    case DoStartPurge(_) => StartPurgeEffect(s, l);
    case DoPurgeDelete(_) => PurgeDeleteEffect(s, l);
    case DoPurgeFinish(_, _, _) => PurgeFinishEffect(s, l);
    case DoCreateDocument(doc, externalId) => DocumentsEffect(s, CreateDocument(s, doc, externalId).documents, l);
    case DoDeleteDocument(doc) => DocumentsEffect(s, s.documents - {doc}, l);
  }
}
