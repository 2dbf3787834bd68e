/**
 What follows what: a request that was accepted starts when its event is claimed in time, a
 started attempt leads to success and delivery, a failure to another attempt or to its reason,
 a purge to the files being gone. Times are given as numbers of milliseconds.
 */
module CollectionPaths {
  import opened Wrappers
  import opened Collection
  import opened CollectionInvariant
  import opened CollectionEffect
  import opened CollectionHistory
  import opened CollectionFate
  import opened CollectionOutcome

  // ------------------------------------------------------ from a request to its attempt

  /** Event e asks for collection run r, which waits with the source lease, good until the given time. */
  ghost predicate Ready(s: State, e: EventId, r: RunId, until: Time) {
    && e < |s.events| && IsCollection(s.events[e].work) && s.events[e].work.run == r && s.events[e].status != EventDelivered
    && r in s.runs && Collects(s.runs[r]) && s.runs[r].stage == Pending && s.runs[r].attempts == 0
    && HoldsLease(s, r) && s.ingest.value.leaseUntil == Some(until)
  }

  /** A request for a run: a batch, a crawl or a retry. */
  function AnswerTo(s: State, l: Label): Answer {
    match l
    case DoReceive(d, now) => ReceiveBatch(s, d, now).1
    case DoQueueCrawl(cursor, configuration, key, now) => QueueCrawl(s, cursor, configuration, key, now).1
    case DoRetry(r, now) => RetryRun(s, r, now).1
    case _ => Missing
  }

  /** The event that a request makes: due at once, made at the moment of the request. */
  ghost predicate NewEvent(s: State, t: State, now: Time) {
    && |t.events| == |s.events| + 1
    && var e := t.events[|s.events|];
       e.status == EventPending && e.occurredAt == now && e.nextAttempt == now && e.dispatchedAt == None && e.generation == t.generation
  }

  lemma ReceiveReady(s: State, d: Delivery, now: Time)
    requires s.nextRun !in s.runs && ReceiveBatch(s, d, now).1.Accepted?
    ensures var t := ReceiveBatch(s, d, now).0;
            && Ready(t, |s.events|, s.nextRun, now + 900_000) && NewEvent(s, t, now) && Fenced(t, t.events[|s.events|])
            && ReceiveBatch(s, d, now).1 == Accepted(s.nextRun) && s.nextRun in t.runs && t.runs[s.nextRun].nextAttempt == now
  {
    hide InsertNew, Observe;
  }

  lemma QueueReady(s: State, cursor: Option<Cursor>, configuration: string, key: string, now: Time)
    requires QueueCrawl(s, cursor, configuration, key, now).1.Accepted?
    ensures var t := QueueCrawl(s, cursor, configuration, key, now).0;
            && Ready(t, |s.events|, s.nextRun, now + 900_000) && NewEvent(s, t, now) && Fenced(t, t.events[|s.events|])
            && QueueCrawl(s, cursor, configuration, key, now).1 == Accepted(s.nextRun) && s.nextRun in t.runs && t.runs[s.nextRun].nextAttempt == now
  {}

  lemma RetryReady(s: State, r: RunId, now: Time)
    requires RunsHaveEvents(s) && EventsFit(s) && RetryRun(s, r, now).1.Accepted? && Collects(s.runs[r]) && s.ingest.Some?
    ensures var t := RetryRun(s, r, now).0;
            && Ready(t, |s.events|, r, now + 900_000) && NewEvent(s, t, now) && Fenced(t, t.events[|s.events|])
            && RetryRun(s, r, now).1 == Accepted(r) && r in t.runs && t.runs[r].nextAttempt == now
  {
    AskedHasLast(s.events, r);
    hide After, LastEvent, Asked;
    var prior := LastEvent(s.events, r).value;
    var i :| 0 <= i < |s.events| && s.events[i] == prior;
    assert Fits(s.events[i].work, s.runs[r].key);
  }

  /** An accepted request makes its run ready, under the fence of the moment. */
  lemma {:induction false} RequestMakesReady(ls: seq<Label>, l: Label)
    requires AnswerTo(Exec(ls), l).Accepted?
    requires var r := AnswerTo(Exec(ls), l).run; l.DoRetry? && r in Exec(ls).runs ==> Collects(Exec(ls).runs[r])
    ensures var s, t := Exec(ls), Apply(Exec(ls), l);
            && Ready(t, |s.events|, AnswerTo(s, l).run, l.now + 900_000) && NewEvent(s, t, l.now) && Fenced(t, t.events[|s.events|])
            && AnswerTo(s, l).run in t.runs && t.runs[AnswerTo(s, l).run].nextAttempt == l.now
  {
    hide Exec, Inv, Traced, RunsHaveEvents, EventsFit, ReceiveBatch, QueueCrawl, RetryRun, Ready, NewEvent, Fenced;
    var s := Exec(ls);
    RunsKeepInvariant(ls);
    RunsTraced(ls);
    RequestFacts(s);
    match l
    case DoReceive(d, now) => ReceiveReady(s, d, now);
    case DoQueueCrawl(cursor, configuration, key, now) => QueueReady(s, cursor, configuration, key, now);
    case DoRetry(r, now) =>
      RetryAccepted(s, r, now);
      RetryReady(s, r, now);
    case _ =>
  }

  lemma RetryAccepted(s: State, r: RunId, now: Time)
    requires RetryRun(s, r, now).1.Accepted?
    ensures r in s.runs && RetryRun(s, r, now).1.run == r
  {
    hide LastEvent, After;
  }

  lemma RequestFacts(s: State)
    requires Inv(s) && Traced(s)
    ensures s.nextRun !in s.runs && RunsHaveEvents(s) && EventsFit(s) && forall r | r in s.runs && Collects(s.runs[r]) :: s.ingest.Some?
  {}

  /** A step of others: no worker is at run r, and a request that takes the time finds the lease good. */
  ghost predicate Elsewhere(s: State, l: Label, r: RunId, until: Time) {
    && !Concerns(s, l, r) && !(l.DoCrawlCommit? && AttemptAt(s, l.attempt, r))
    && (MomentOf(l).Some? ==> MomentOf(l).value < until)
  }

  lemma RequestsLeaveLease(s: State, l: Label, r: RunId, until: Time)
    requires HoldsLease(s, r) && s.ingest.value.leaseUntil == Some(until) && MomentOf(l).Some? && MomentOf(l).value < until
    requires r in s.runs && s.runs[r].stage != Failed
    ensures Apply(s, l).ingest == s.ingest
  {
    hide InsertNew, Observe, LastEvent;
    hide Claim, ReceiveFile, CrawlCommit, Transient, FailStage, Finish, FileClaim, FileSave, FileFail, PurgeDelete, PurgeFinish, StartPurge, Dispatch;
  }

  lemma WorkersLeaveLease(s: State, l: Label, r: RunId)
    requires HoldsLease(s, r) && !Concerns(s, l, r) && !(l.DoCrawlCommit? && AttemptAt(s, l.attempt, r)) && Collecting(l)
    ensures Apply(s, l).ingest == s.ingest
  {
    hide InsertNew, ObserveAt, Fenced, After, CrawlCursor;
    match l
    case DoClaim(e, now) => assert Claim(s, e, now).ingest == s.ingest;
    case DoCrawlCommit(a, records, digest) => assert CrawlCommit(s, a, records, digest).ingest == s.ingest;
    case DoTransient(a, delay, now) => assert Transient(s, a, delay, now).ingest == s.ingest;
    case DoFailStage(a) => assert FailStage(s, a).ingest == s.ingest;
    case DoFinish(a) => assert Finish(s, a).ingest == s.ingest;
    case _ =>
  }

  lemma OthersLeaveLease(s: State, l: Label, r: RunId)
    requires r in Apply(s, l).runs && MomentOf(l).None? && !Collecting(l)
    ensures Apply(s, l).ingest == s.ingest
  {
    hide Selected, Observed, RawUris, IdentityUsed, FileClaim, FileSave, FileFail;
    hide Claim, ReceiveBatch, QueueCrawl, RetryRun, CrawlCommit, Transient, FailStage, Finish;
    if l.DoFileClaim? || l.DoFileSave? || l.DoFileFail? { FileWorkerKeepsLease(s, l); }
  }

  lemma ReadyStays(s: State, l: Label, e: EventId, r: RunId, until: Time)
    requires Inv(s) && Ready(s, e, r, until) && Elsewhere(s, l, r, until) && r in Apply(s, l).runs
    ensures Ready(Apply(s, l), e, r, until)
  {
    hide Inv, Apply, Concerns, SameAttempts, IsRetryOf;
    var t := Apply(s, l);
    if l.DoRetry? && l.run == r {
      RetryOfPending(s, r, l.now);
      ApplyRetry(s, l);
    } else {
      assert !IsRetryOf(l, r) by { NotRetry(l, r); }
      OthersLeaveRun(s, l, r);
      if MomentOf(l).Some? {
        RequestsLeaveLease(s, l, r, until);
      } else if Collecting(l) {
        WorkersLeaveLease(s, l, r);
      } else {
        OthersLeaveLease(s, l, r);
      }
    }
  }

  lemma NotRetry(l: Label, r: RunId)
    requires !(l.DoRetry? && l.run == r)
    ensures !IsRetryOf(l, r)
  {}

  lemma RetryOfPending(s: State, r: RunId, now: Time)
    requires r in s.runs && s.runs[r].stage != Failed
    ensures RetryRun(s, r, now).0 == s
  {}

  /** All of the steps are of others. */
  ghost predicate AllElsewhere(ls: seq<Label>, ms: seq<Label>, r: RunId, until: Time) {
    forall i | 0 <= i < |ms| :: Elsewhere(Exec(ls + ms[..i]), ms[i], r, until)
  }

  /** Runs go only with the purge, and a purge leaves the source archived. */
  lemma RunStays(s: State, t: State, l: Label, r: RunId)
    requires Inv(s) && Inv(t) && Effect(s, t, l) && t.status != Archived
    ensures s.status != Archived && (r in s.runs ==> r in t.runs)
  {
    if r in s.runs {
      var k := s.runs[r].batchKey;
      assert BatchesPaired(s) && BatchesPaired(t) && BatchesLast(s, t);
      assert k in s.batches && s.batches[k].run == r;
    }
  }

  lemma ReadyIsThere(s: State, e: EventId, r: RunId, until: Time)
    requires Ready(s, e, r, until)
    ensures r in s.runs
  {}

  lemma {:induction false} ReadyLasts(ls: seq<Label>, ms: seq<Label>, e: EventId, r: RunId, until: Time)
    requires Ready(Exec(ls), e, r, until) && AllElsewhere(ls, ms, r, until) && Exec(ls + ms).status != Archived
    ensures Ready(Exec(ls + ms), e, r, until)
    decreases |ms|
  {
    hide Exec, Ready, Elsewhere, Inv, Effect, Apply;
    if ms == [] {
      NoStep(ls);
    } else {
      var front := ms[..|ms| - 1];
      LastStep(ls, ms);
      RunStays(Exec(ls + front), Exec(ls + ms), ms[|ms| - 1], r);
      assert AllElsewhere(ls, front, r, until) by {
        forall i | 0 <= i < |front| ensures Elsewhere(Exec(ls + front[..i]), front[i], r, until) { assert front[..i] == ms[..i]; }
      }
      ReadyLasts(ls, front, e, r, until);
      ReadyIsThere(Exec(ls + front), e, r, until);
      assert ms[..|ms| - 1] == front;
      ReadyStays(Exec(ls + front), ms[|ms| - 1], e, r, until);
    }
  }

  /** An attempt has begun. */
  ghost predicate Started(s: State, t: State, e: EventId, r: RunId, now: Time) {
    && r in s.runs && r in t.runs && t.runs[r].stage == Running && t.runs[r].status == RunRunning
    && t.runs[r].attempts == s.runs[r].attempts + 1 && t.runs[r].stageLease == Some(now + 120_000) && t.runs[r].stageError == None
    && t.runs[r].error == s.runs[r].error && t.runs[r].nextAttempt == s.runs[r].nextAttempt
    && t.runs[r].key == s.runs[r].key && t.runs[r].batchKey == s.runs[r].batchKey
    && HoldsLease(t, r) && t.ingest.value.leaseUntil == Some(now + 900_000)
    && t.attempts == s.attempts + [Attempt(e, Working)]
    && t.events == s.events && t.status == s.status && t.generation == s.generation
    && t.observations == s.observations && t.batches == s.batches && CursorOf(t) == CursorOf(s)
  }

  lemma ReadyStarts(s: State, e: EventId, r: RunId, until: Time, later: Time)
    requires Ready(s, e, r, until) && Fenced(s, s.events[e]) && later < until
    ensures Started(s, Claim(s, e, later), e, r, later)
  {}

  /**
   An accepted batch, crawl or retry starts: claiming its event at any moment before fifteen
   minutes have passed begins the first attempt, whatever others have done meanwhile, as long
   as the source's status has not changed and no worker was at the run.
   */
  lemma {:induction false} RequestedRunStarts(ls: seq<Label>, l: Label, ms: seq<Label>, later: Time)
    requires AnswerTo(Exec(ls), l).Accepted?
    requires var r := AnswerTo(Exec(ls), l).run; l.DoRetry? && r in Exec(ls).runs ==> Collects(Exec(ls).runs[r])
    requires AllElsewhere(ls + [l], ms, AnswerTo(Exec(ls), l).run, l.now + 900_000) && later < l.now + 900_000
    requires var t := Exec(ls + [l] + ms); t.status == Active && t.generation == Exec(ls).generation
    ensures var e, r, t := |Exec(ls).events|, AnswerTo(Exec(ls), l).run, Exec(ls + [l] + ms);
            && Started(t, Claim(t, e, later), e, r, later) && Claim(t, e, later).runs[r].attempts == 1
  {
    hide Exec, Ready, Claim, Started, NewEvent, Apply, AnswerTo, AllElsewhere;
    var s := Exec(ls);
    var e, r, t := |s.events|, AnswerTo(s, l).run, Exec(ls + [l] + ms);
    OnlyRequestsAccepted(s, l);
    RequestMakesReady(ls, l);
    ExecSnoc(ls, l);
    NewEventFenced(s, Exec(ls + [l]), l.now);
    ReadyLasts(ls + [l], ms, e, r, l.now + 900_000);
    ReadyEvent(Exec(ls + [l]), e, r, l.now + 900_000);
    EventsStay(ls + [l], ms, e);
    GenerationAfter(ls, l);
    ReadyEvent(t, e, r, l.now + 900_000);
    ReadyStarts(t, e, r, l.now + 900_000, later);
    StartedOnce(t, Claim(t, e, later), e, r, later);
  }

  lemma OnlyRequestsAccepted(s: State, l: Label)
    requires AnswerTo(s, l).Accepted?
    ensures l.DoReceive? || l.DoQueueCrawl? || l.DoRetry?
  {}

  lemma NewEventFenced(s: State, t: State, now: Time)
    requires NewEvent(s, t, now)
    ensures |t.events| == |s.events| + 1 && t.events[|s.events|].generation == t.generation
  {}

  lemma ReadyEvent(s: State, e: EventId, r: RunId, until: Time)
    requires Ready(s, e, r, until)
    ensures e < |s.events| && r in s.runs && s.runs[r].attempts == 0
  {}

  lemma StartedOnce(s: State, t: State, e: EventId, r: RunId, now: Time)
    requires Started(s, t, e, r, now)
    ensures r in s.runs && r in t.runs && t.runs[r].attempts == s.runs[r].attempts + 1
  {}

  /** A request changes neither status nor generation. */
  lemma {:induction false} GenerationAfter(ls: seq<Label>, l: Label)
    requires AnswerTo(Exec(ls), l).Accepted?
    ensures Exec(ls + [l]).generation == Exec(ls).generation
  {
    hide Exec, InsertNew, Observe, LastEvent, After;
    ExecSnoc(ls, l);
  }

  // ------------------------------------------------------ from an attempt to its end

  /** Attempt a is at event e of collection run r, in this phase, under the fence. */
  ghost predicate AtWork(s: State, a: AttemptId, e: EventId, r: RunId, phase: Phase) {
    && a < |s.attempts| && s.attempts[a] == Attempt(e, phase) && e < |s.events| && IsCollection(s.events[e].work)
    && s.events[e].work.run == r && r in s.runs && Fenced(s, s.events[e])
  }

  /** Run r succeeded by attempt a: its rows say so, its event is delivered, its lease is given back, nothing else has changed. */
  ghost predicate SucceededBy(s: State, t: State, a: AttemptId, e: EventId, r: RunId) {
    && r in s.runs && t.runs.Keys == s.runs.Keys && (forall q | q in s.runs && q != r :: t.runs[q] == s.runs[q])
    && t.runs[r].stage == Succeeded && t.runs[r].status == RunSucceeded && t.runs[r].error == t.runs[r].stageError == None
    && t.runs[r].stageLease == None && t.runs[r].attempts == s.runs[r].attempts
    && e < |s.events| && t.events == s.events[e := s.events[e].(status := EventDelivered)]
    && a < |s.attempts| && t.attempts == s.attempts[a := Attempt(e, Over)]
    && t.status == s.status && t.generation == s.generation && t.observations == s.observations && t.batches == s.batches
    && !HoldsLease(t, r) && CursorOf(t) == CursorOf(s)
    && (HoldsLease(s, r) ==> t.ingest == Some(s.ingest.value.(leaseRun := None, leaseUntil := None)))
  }

  lemma CheckedDelivers(s: State, a: AttemptId, e: EventId, r: RunId)
    requires AtWork(s, a, e, r, Checked)
    ensures SucceededBy(s, MarkDelivered(Finish(s, a), a), a, e, r)
  {
    var t := Finish(s, a);
    assert t.attempts == s.attempts[a := Attempt(e, Committed)] && t.events == s.events;
    var u := MarkDelivered(t, a);
    assert u.attempts == s.attempts[a := Attempt(e, Over)];
  }

  lemma WorkIsChecked(s: State, a: AttemptId, e: EventId, r: RunId, phase: Phase)
    requires AtWork(s, a, e, r, phase) && phase == (if s.events[e].work.CrawlRequested? then Collected else Working) && Observed(s, r)
    ensures AtWork(CheckObserved(s, a), a, e, r, Checked)
    ensures a < |s.attempts| && CheckObserved(s, a) == s.(attempts := s.attempts[a := Attempt(e, Checked)])
  {
    hide Observed;
  }

  /** An observed attempt whose fence stands leads, check by check, to success and delivery. */
  lemma ObservedAttemptSucceeds(s: State, a: AttemptId, e: EventId, r: RunId, phase: Phase)
    requires AtWork(s, a, e, r, phase) && phase == (if s.events[e].work.CrawlRequested? then Collected else Working) && Observed(s, r)
    ensures SucceededBy(s, MarkDelivered(Finish(CheckObserved(s, a), a), a), a, e, r)
  {
    hide AtWork, SucceededBy, Observed, CheckObserved, Finish, MarkDelivered;
    WorkIsChecked(s, a, e, r, phase);
    CheckedDelivers(CheckObserved(s, a), a, e, r);
    SucceededFrom(s, CheckObserved(s, a), MarkDelivered(Finish(CheckObserved(s, a), a), a), a, e, r);
  }

  lemma SucceededFrom(s: State, u: State, t: State, a: AttemptId, e: EventId, r: RunId)
    requires a < |s.attempts| && u == s.(attempts := s.attempts[a := Attempt(e, Checked)]) && SucceededBy(u, t, a, e, r)
    ensures SucceededBy(s, t, a, e, r)
  {}

  lemma StartedIsAtWork(s: State, t: State, e: EventId, r: RunId, now: Time)
    requires Started(s, t, e, r, now) && e < |s.events| && IsCollection(s.events[e].work) && s.events[e].work.run == r && Fenced(s, s.events[e])
    ensures AtWork(t, |s.attempts|, e, r, Working)
  {}

  /** A crawl whose job is still the source's stores its pages and goes on. */
  lemma CrawlGoesOn(s: State, a: AttemptId, e: EventId, r: RunId, records: seq<Record>, digest: string)
    requires Inv(s) && AtWork(s, a, e, r, Working) && s.events[e].work.CrawlRequested? && HoldsLease(s, r) && 1 <= |records| <= 500
    ensures var t := CrawlCommit(s, a, records, digest);
            && t != s && AtWork(t, a, e, r, Collected) && Observed(t, r) && HoldsLease(t, r)
            && t.runs == s.runs && t.events == s.events && t.status == s.status && t.generation == s.generation
            && t.attempts == s.attempts[a := Attempt(e, Collected)]
  {
    var t := CrawlCommit(s, a, records, digest);
    assert s.runs[r].batchKey in s.batches;
    InsertNewFacts(s.observations, ObserveAt(r, records, s.events[e].occurredAt)) by { assert ObservationsDistinct(s); }
    hide Inv, InsertNew, CrawlCursor;
    assert InPhase(s, a, {Working});
    assert t.attempts[a] == Attempt(e, Collected) && s.attempts[a] == Attempt(e, Working);
    var o := Observation(r, records[0].provider, records[0].body, s.events[e].occurredAt);
    assert ObserveAt(r, records, s.events[e].occurredAt)[0] == o;
    assert o in t.observations;
    var i :| 0 <= i < |t.observations| && t.observations[i] == o;
    assert t.observations[i].run == r;
  }

  /**
   A batch that is accepted and claimed within fifteen minutes succeeds, and the source is then
   ready for the next one, at any time: exactly one with a new key that starts at its cursor.
   */
  lemma {:induction false} BatchSucceeds(ls: seq<Label>, d: Delivery, now: Time, later: Time)
    requires ReceiveBatch(Exec(ls), d, now).1.Accepted? && d.records != [] && later < now + 900_000
    ensures var s, e, a := Exec(ls), |Exec(ls).events|, |Exec(ls).attempts|;
            var r := s.nextRun;
            var u := Claim(ReceiveBatch(s, d, now).0, e, later);
            var t := MarkDelivered(Finish(CheckObserved(u, a), a), a);
            && Started(ReceiveBatch(s, d, now).0, u, e, r, later) && SucceededBy(u, t, a, e, r) && CursorOf(t) == d.cursorAfter
            && forall next: Delivery, at: Time :: ReceiveBatch(t, next, at).1.Accepted? <==> next.key !in t.batches && next.cursorBefore == d.cursorAfter
  {
    hide Exec, Claim, CheckObserved, Finish, MarkDelivered, ReceiveBatch, Inv;
    var s, e, a := Exec(ls), |Exec(ls).events|, |Exec(ls).attempts|;
    var r := s.nextRun;
    RunsKeepInvariant(ls);
    RunsTraced(ls);
    RequestFacts(s);
    BatchStoresItsRecords(ls, d, now);
    AcceptedBatch(s, d, now);
    var s1 := ReceiveBatch(s, d, now).0;
    ReceiveReady(s, d, now);
    ReadyStarts(s1, e, r, now + 900_000, later);
    var u := Claim(s1, e, later);
    StartedIsAtWork(s1, u, e, r, later);
    assert Observed(u, r) by {
      var o := Observation(r, d.records[0].provider, d.records[0].body, d.records[0].observedAt);
      var i :| 0 <= i < |u.observations| && u.observations[i] == o;
      assert u.observations[i].run == r;
    }
    hide Ready, Observed;
    ObservedAttemptSucceeds(u, a, e, r, Working);
    var t := MarkDelivered(Finish(CheckObserved(u, a), a), a);
    forall next: Delivery, at: Time
      ensures ReceiveBatch(t, next, at).1.Accepted? <==> next.key !in t.batches && next.cursorBefore == d.cursorAfter
    {
      FreeSourceAccepts(t, next, at);
    }
  }

  lemma AcceptedBatch(s: State, d: Delivery, now: Time)
    requires ReceiveBatch(s, d, now).1.Accepted?
    ensures var t := ReceiveBatch(s, d, now).0;
            && |t.events| == |s.events| + 1 && t.events[|s.events|].work == StageRequested(s.nextRun) && t.attempts == s.attempts
            && CursorOf(t) == d.cursorAfter && t.status == Active && ReceiveBatch(s, d, now).1.run == s.nextRun
  {
    hide InsertNew, Observe;
  }

  lemma FreeSourceAccepts(s: State, d: Delivery, now: Time)
    requires s.status == Active && s.ingest.Some? && s.ingest.value.leaseUntil == None
    ensures ReceiveBatch(s, d, now).1.Accepted? <==> d.key !in s.batches && d.cursorBefore == CursorOf(s)
  {
    hide InsertNew, Observe;
  }

  /** A crawl that is accepted, claimed within fifteen minutes and brings one to five hundred pages succeeds. */
  lemma {:induction false} CrawlSucceeds(ls: seq<Label>, cursor: Option<Cursor>, configuration: string, key: string, now: Time, later: Time,
                                         records: seq<Record>, digest: string)
    requires QueueCrawl(Exec(ls), cursor, configuration, key, now).1.Accepted? && later < now + 900_000 && 1 <= |records| <= 500
    ensures var s, e, a := Exec(ls), |Exec(ls).events|, |Exec(ls).attempts|;
            var r := s.nextRun;
            var u := Claim(QueueCrawl(s, cursor, configuration, key, now).0, e, later);
            var w := CrawlCommit(u, a, records, digest);
            var t := MarkDelivered(Finish(CheckObserved(w, a), a), a);
            && w != u && SucceededBy(w, t, a, e, r) && t.ingest.Some? && t.ingest.value.leaseRun == t.ingest.value.leaseUntil == None
  {
    hide Exec, Claim, CheckObserved, Finish, MarkDelivered, CrawlCommit, QueueCrawl, Inv, Effect;
    var s, e, a := Exec(ls), |Exec(ls).events|, |Exec(ls).attempts|;
    var r := s.nextRun;
    var l := DoQueueCrawl(cursor, configuration, key, now);
    AcceptedCrawl(s, cursor, configuration, key, now);
    QueueReady(s, cursor, configuration, key, now);
    var s1 := QueueCrawl(s, cursor, configuration, key, now).0;
    ReadyStarts(s1, e, r, now + 900_000, later);
    var u := Claim(s1, e, later);
    StartedIsAtWork(s1, u, e, r, later);
    ExecSnoc(ls, l);
    ExecSnoc(ls + [l], DoClaim(e, later));
    RunsKeepInvariant(ls + [l] + [DoClaim(e, later)]);
    hide Ready, Observed;
    CrawlGoesOn(u, a, e, r, records, digest);
    ObservedAttemptSucceeds(CrawlCommit(u, a, records, digest), a, e, r, Collected);
  }

  /** The same crawl asked for again, with the cursor where it was, finds its run and changes nothing. */
  lemma CrawlIsReplayed(s: State, cursor: Option<Cursor>, configuration: string, key: string, now: Time, again: string, later: Time)
    requires QueueCrawl(s, cursor, configuration, key, now).1.Accepted?
    ensures var t := QueueCrawl(s, cursor, configuration, key, now).0;
            && QueueCrawl(t, cursor, again, key, later) == (t, Replayed(s.nextRun))
            && CursorOf(t) == CursorOf(s) && key in t.batches && t.batches[key] == Batch(configuration, s.nextRun)
  {}

  lemma AcceptedCrawl(s: State, cursor: Option<Cursor>, configuration: string, key: string, now: Time)
    requires QueueCrawl(s, cursor, configuration, key, now).1.Accepted?
    ensures var t := QueueCrawl(s, cursor, configuration, key, now).0;
            && |t.events| == |s.events| + 1 && t.events[|s.events|].work == CrawlRequested(s.nextRun, configuration) && t.attempts == s.attempts
  {}

  // -------------------------------------------------------- attempts that go wrong

  /** When an event would be picked up, from its fields: pending and its time has come, or queued more than thirty seconds ago. */
  predicate IsDue(e: Event, at: Time) {
    (e.status == EventPending && e.nextAttempt <= at) || (e.status == EventQueued && e.dispatchedAt.Some? && e.dispatchedAt.value + 30_000 < at)
  }

  /**
   A transient error below five attempts puts the run off: its event is due again exactly from
   the delay on, its lease is good for fifteen more minutes, and claiming it then starts the
   next attempt.
   */
  lemma {:induction false} PutOffThenStarted(ls: seq<Label>, a: AttemptId, e: EventId, r: RunId, phase: Phase, delay: nat, now: Time, later: Time)
    requires AtWork(Exec(ls), a, e, r, phase) && phase in {Working, Collected, Checked} && HoldsLease(Exec(ls), r)
    requires Exec(ls).runs[r].attempts < 5 && later < now + 900_000
    ensures var s := Exec(ls); var t := Transient(s, a, delay, now);
            && r in t.runs && t.runs[r].stage == Retrying && t.runs[r].attempts == s.runs[r].attempts && t.runs[r].nextAttempt == now + delay
            && |t.events| == |s.events| && t.events[e].work == s.events[e].work && t.events[e].generation == s.events[e].generation
            && (forall at: Time :: IsDue(t.events[e], at) <==> now + delay <= at)
            && t.attempts == s.attempts[a := Attempt(e, Over)]
            && Started(t, Claim(t, e, later), e, r, later)
  {
    hide Exec;
    var s := Exec(ls);
    var t := Transient(s, a, delay, now);
    assert t.attempts == s.attempts[a := Attempt(e, Over)];
    TransientWaits(s, a, e, r, phase, delay, now);
    hide Transient;
    WaitingStarts(t, e, r, now + 900_000, later);
  }

  lemma TransientWaits(s: State, a: AttemptId, e: EventId, r: RunId, phase: Phase, delay: nat, now: Time)
    requires AtWork(s, a, e, r, phase) && phase in {Working, Collected, Checked} && HoldsLease(s, r) && s.runs[r].attempts < 5
    ensures var t := Transient(s, a, delay, now);
            && r in t.runs && t.runs[r].stage == Retrying && e < |t.events| && t.events[e].status == EventPending && t.events[e].work == s.events[e].work
            && Fenced(t, t.events[e]) && HoldsLease(t, r) && t.ingest.value.leaseUntil == Some(now + 900_000)
  {}

  lemma WaitingStarts(s: State, e: EventId, r: RunId, until: Time, later: Time)
    requires r in s.runs && s.runs[r].stage == Retrying && e < |s.events| && s.events[e].status != EventDelivered
    requires IsCollection(s.events[e].work) && s.events[e].work.run == r && Fenced(s, s.events[e])
    requires HoldsLease(s, r) && s.ingest.value.leaseUntil == Some(until) && later < until
    ensures Started(s, Claim(s, e, later), e, r, later)
  {}

  /** Run r failed by attempt a for this reason: rows, event and lease say so, nothing else has changed. */
  ghost predicate FailedBy(s: State, t: State, a: AttemptId, e: EventId, r: RunId, code: ErrorCode) {
    && r in s.runs && t.runs.Keys == s.runs.Keys && (forall q | q in s.runs && q != r :: t.runs[q] == s.runs[q])
    && t.runs[r].stage == Failed && t.runs[r].status == RunFailed && t.runs[r].error == t.runs[r].stageError == Some(code)
    && t.runs[r].attempts == s.runs[r].attempts
    && a < |s.attempts| && t.attempts == s.attempts[a := Attempt(e, Over)]
    && t.status == s.status && t.generation == s.generation && t.observations == s.observations && t.batches == s.batches
    && !HoldsLease(t, r) && CursorOf(t) == CursorOf(s) && (!HoldsLease(s, r) ==> t.ingest == s.ingest)
  }

  /** The fifth attempt is the last: a transient error then fails the run as exhausted; any other error fails it as such. */
  lemma LastAttemptFails(s: State, a: AttemptId, e: EventId, r: RunId, phase: Phase, delay: nat, now: Time)
    requires AtWork(s, a, e, r, phase) && phase in {Working, Collected, Checked}
    ensures s.runs[r].attempts >= 5 ==>
              var t := FailStage(Transient(s, a, delay, now), a);
              FailedBy(s, t, a, e, r, RetryExhausted) && t.events == s.events[e := s.events[e].(status := EventFailed)] && t.runs[r].stageLease == None
    ensures var t := FailStage(s, a);
            FailedBy(s, t, a, e, r, StageFailed) && t.events == s.events[e := s.events[e].(status := EventFailed)] && t.runs[r].stageLease == None
  {
    FailsForReason(s, a, e, r, phase, StageFailed);
    if s.runs[r].attempts >= 5 {
      var u := Transient(s, a, delay, now);
      assert u == s.(attempts := s.attempts[a := Attempt(e, Exhausted)]);
      FailsForReason(u, a, e, r, Exhausted, RetryExhausted);
      hide FailStage, Transient;
      assert u.attempts[a := Attempt(e, Over)] == s.attempts[a := Attempt(e, Over)];
    }
  }

  lemma FailsForReason(s: State, a: AttemptId, e: EventId, r: RunId, phase: Phase, code: ErrorCode)
    requires AtWork(s, a, e, r, phase) && phase in {Working, Collected, Checked, Exhausted}
    requires code == if phase == Exhausted then RetryExhausted else StageFailed
    ensures var t := FailStage(s, a);
            FailedBy(s, t, a, e, r, code) && t.events == s.events[e := s.events[e].(status := EventFailed)] && t.runs[r].stageLease == None
  {
    var t := FailStage(s, a);
    assert t.attempts == s.attempts[a := Attempt(e, Over)];
  }

  /** After the fence has fallen, a checked attempt fails its run and a transient error leaves every row alone. */
  lemma FallenFence(s: State, a: AttemptId, e: EventId, r: RunId, phase: Phase, delay: nat, now: Time)
    requires a < |s.attempts| && s.attempts[a] == Attempt(e, phase) && e < |s.events| && IsCollection(s.events[e].work)
    requires s.events[e].work.run == r && r in s.runs && !Fenced(s, s.events[e])
    ensures phase == Checked ==> FailedBy(s, Finish(s, a), a, e, r, SourceUnavailable) && Finish(s, a).events == s.events
    ensures phase in {Working, Collected, Checked} ==> Transient(s, a, delay, now) == s.(attempts := s.attempts[a := Attempt(e, Over)])
  {
    if phase == Checked {
      assert Finish(s, a).attempts == s.attempts[a := Attempt(e, Over)];
    }
  }

  /** What a claim answers to an event that is not delivered, and why. */
  lemma ClaimRefused(s: State, e: EventId, r: RunId, now: Time)
    requires e < |s.events| && IsCollection(s.events[e].work) && s.events[e].work.run == r && s.events[e].status != EventDelivered
    ensures r !in s.runs ==> Claim(s, e, now) == s.(events := s.events[e := s.events[e].(status := EventFailed)])
    ensures r in s.runs ==>
      && (!Fenced(s, s.events[e]) ==> Refused(s, Claim(s, e, now), e, r, SourceUnavailable))
      && (Fenced(s, s.events[e]) && s.runs[r].stage == Succeeded ==>
            Claim(s, e, now) == s.(events := s.events[e := s.events[e].(status := EventDelivered)]))
      && (Fenced(s, s.events[e]) && s.runs[r].stage !in {Succeeded, Running} && (!HoldsLease(s, r) || !After(s.ingest.value.leaseUntil, now)) ==>
            Refused(s, Claim(s, e, now), e, r, LeaseExpired))
  {}

  ghost predicate Refused(s: State, t: State, e: EventId, r: RunId, code: ErrorCode) {
    && r in s.runs && t.runs.Keys == s.runs.Keys && (forall q | q in s.runs && q != r :: t.runs[q] == s.runs[q])
    && t.runs[r].stage == Failed && t.runs[r].status == RunFailed && t.runs[r].error == t.runs[r].stageError == Some(code)
    && e < |s.events| && t.events == s.events[e := s.events[e].(status := EventFailed)] && t.attempts == s.attempts
    && !HoldsLease(t, r) && (!HoldsLease(s, r) ==> t.ingest == s.ingest)
  }

  /**
   A started attempt has two minutes: until they have passed, claiming an event of its run again
   changes nothing; from then on, within the source lease, it is taken over.
   */
  lemma StageLeaseHolds(s: State, t: State, e: EventId, r: RunId, now: Time, f: EventId, later: Time)
    requires Started(s, t, e, r, now) && f < |t.events| && IsCollection(t.events[f].work) && t.events[f].work.run == r
    requires Fenced(t, t.events[f]) && t.events[f].status != EventDelivered
    ensures later < now + 120_000 ==> Claim(t, f, later) == t
    ensures now + 120_000 <= later < now + 900_000 ==> Started(t, Claim(t, f, later), f, r, later)
    ensures now + 900_000 <= later ==> Refused(t, Claim(t, f, later), f, r, LeaseExpired)
  {}
}
