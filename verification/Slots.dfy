/**
 The two-slot lease around calls to the model. A caller sets one of two keys in Redis, if it
 is free, to its own token with a time to live; works; and deletes the key if it still holds
 its token. Commands and replies travel on their own: a command may be carried out after its
 caller has gone, a reply may be lost, and a command may be sent again.
 */
module Slots {
  import opened Wrappers

  type Token = nat
  type Slot = s: int | 0 <= s < 2

  datatype Lease = Lease(token: Token, expires: real)

  /** The caller's timeout, and how much later than that its body may still be running. */
  datatype Config = Config(timeout: real, margin: real)

  ghost predicate ValidConfig(c: Config) { c.timeout >= 0.0 && c.margin >= 0.0 }

  /** int(timeout) + 10, in seconds. */
  function TimeToLive(c: Config): real { (c.timeout.Floor + 10) as real }

  /** What a caller is doing; a Ready caller is about to try a slot. */
  datatype Phase = Ready(slot: Slot) | Awaiting(slot: Slot) | Inside(slot: Slot) | Gone

  datatype Caller = Caller(since: real, phase: Phase)

  datatype Command = Command(token: Token, slot: Slot)

  datatype Reply = Reply(token: Token, slot: Slot, granted: bool)

  /** The clock, the two keys, the callers, and what is on its way. */
  datatype State = State(
    now: real, keys: map<Slot, Lease>, callers: map<Token, Caller>, sets: set<Command>, replies: set<Reply>, releases: set<Command>)

  const INITIAL: State := State(0.0, map[], map[], {}, {}, {})

  predicate Free(st: State, s: Slot) { s !in st.keys || st.keys[s].expires <= st.now }

  predicate IsIn(st: State, t: Token, p: Phase) { t in st.callers && st.callers[t].phase == p }

  function To(st: State, t: Token, p: Phase): State
    requires t in st.callers
  {
    st.(callers := st.callers[t := st.callers[t].(phase := p)])
  }

  // ------------------------------------------------------------------- steps

  datatype Label =
    | Start(token: Token)
    | Send(token: Token)
    | Serve(set_: Command)
    | Resend(reply: Reply)
    | Receive(reply: Reply)
    | GiveUp(token: Token)
    | Leave(token: Token, sent: bool)
    | Release(command: Command)
    | Tick(seconds: real)

  /** Tokens are random and taken to be distinct: a caller starts with a token not used before. */
  function DoStart(st: State, t: Token): State {
    if t in st.callers then st else st.(callers := st.callers[t := Caller(st.now, Ready(0))])
  }

  function DoSend(st: State, t: Token): State {
    if t in st.callers && st.callers[t].phase.Ready? then
      var s := st.callers[t].phase.slot;
      To(st, t, Awaiting(s)).(sets := st.sets + {Command(t, s)})
    else st
  }

  /** SET key token NX EX ttl. */
  function DoServe(c: Config, st: State, x: Command): State {
    if x !in st.sets then st
    else if Free(st, x.slot) then
      st.(sets := st.sets - {x}, keys := st.keys[x.slot := Lease(x.token, st.now + TimeToLive(c))],
          replies := st.replies + {Reply(x.token, x.slot, true)})
    else st.(sets := st.sets - {x}, replies := st.replies + {Reply(x.token, x.slot, false)})
  }

  /** The connection breaks before the reply arrives and the command is sent again. */
  function DoResend(st: State, r: Reply): State {
    if r in st.replies then st.(replies := st.replies - {r}, sets := st.sets + {Command(r.token, r.slot)}) else st
  }

  /** A granted caller enters its body; a refused one tries the other slot, pausing after the second. */
  function DoReceive(c: Config, st: State, r: Reply): State {
    if r in st.replies && IsIn(st, r.token, Awaiting(r.slot)) && Running(c, st.callers[r.token], st.now) then
      To(st, r.token, if r.granted then Inside(r.slot) else Ready(1 - r.slot)).(replies := st.replies - {r})
    else st
  }

  /** The timeout passes, or Redis fails, before a slot is known to be held: nothing is released. */
  function DoGiveUp(st: State, t: Token): State {
    if t in st.callers && (st.callers[t].phase.Ready? || st.callers[t].phase.Awaiting?) then To(st, t, Gone) else st
  }

  /** The body ends, whichever way; the release is sent, or fails to be. */
  function DoLeave(st: State, t: Token, sent: bool): State {
    if t in st.callers && st.callers[t].phase.Inside? then
      var s := st.callers[t].phase.slot;
      To(st, t, Gone).(releases := if sent then st.releases + {Command(t, s)} else st.releases)
    else st
  }

  /** Delete the key if it holds the caller's token. */
  function DoRelease(st: State, x: Command): State {
    if x in st.releases && x.slot in st.keys && st.keys[x.slot].token == x.token && !Free(st, x.slot)
    then st.(keys := st.keys - {x.slot})
    else st
  }

  /** A caller runs no later than its timeout and the margin after it started. */
  predicate Running(c: Config, caller: Caller, now: real) { now <= caller.since + c.timeout + c.margin }

  /** Time passes, as far as the bodies now running allow. */
  function DoTick(c: Config, st: State, seconds: real): State {
    if seconds > 0.0 && forall t | t in st.callers :: st.callers[t].phase.Inside? ==> Running(c, st.callers[t], st.now + seconds)
    then st.(now := st.now + seconds) else st
  }

  function Apply(c: Config, st: State, l: Label): State {
    match l
    case Start(t) => DoStart(st, t)
    case Send(t) => DoSend(st, t)
    case Serve(x) => DoServe(c, st, x)
    case Resend(r) => DoResend(st, r)
    case Receive(r) => DoReceive(c, st, r)
    case GiveUp(t) => DoGiveUp(st, t)
    case Leave(t, sent) => DoLeave(st, t, sent)
    case Release(x) => DoRelease(st, x)
    case Tick(seconds) => DoTick(c, st, seconds)
  }

  function ExecFrom(c: Config, st: State, labels: seq<Label>): State
    decreases |labels|
  {
    if labels == [] then st else ExecFrom(c, Apply(c, st, labels[0]), labels[1..])
  }

  function Exec(c: Config, labels: seq<Label>): State { ExecFrom(c, INITIAL, labels) }

  // --------------------------------------------------------------- the invariant

  /** The caller may believe it holds the slot: it is inside, or the news is on its way. */
  ghost predicate Granted(st: State, t: Token, s: Slot) { IsIn(st, t, Inside(s)) || Reply(t, s, true) in st.replies }

  /** Commands and replies belong to callers that wait for them or have gone. */
  ghost predicate Addressed(st: State) {
    && (forall x | x in st.sets :: IsIn(st, x.token, Awaiting(x.slot)) || IsIn(st, x.token, Gone))
    && (forall r | r in st.replies :: IsIn(st, r.token, Awaiting(r.slot)) || IsIn(st, r.token, Gone))
    && (forall x | x in st.releases :: IsIn(st, x.token, Gone))
  }

  /** A caller has at most one of them on its way, and none once it has sent its release. */
  ghost predicate Single(st: State) {
    && (forall x, r | x in st.sets && r in st.replies :: x.token != r.token)
    && (forall r, q | r in st.replies && q in st.replies && r.token == q.token :: r == q)
    && (forall x, y | x in st.sets && y in st.sets && x.token == y.token :: x == y)
    && (forall x, y | x in st.releases && y in st.sets :: y.token != x.token)
    && (forall x, r | x in st.releases && r in st.replies :: r.token != x.token)
  }

  /** Until its time to live from the caller's start has passed, a granted slot holds the caller's own token. */
  ghost predicate Owned(c: Config, st: State) {
    forall t, s | Granted(st, t, s) && t in st.callers && st.now < st.callers[t].since + TimeToLive(c) ::
      s in st.keys && st.keys[s].token == t && st.keys[s].expires >= st.callers[t].since + TimeToLive(c)
  }

  ghost predicate Timely(c: Config, st: State) {
    && (forall t | t in st.callers :: st.callers[t].since <= st.now)
    && (forall t | t in st.callers && st.callers[t].phase.Inside? :: Running(c, st.callers[t], st.now))
  }

  ghost predicate Inv(c: Config, st: State) { Addressed(st) && Single(st) && Owned(c, st) && Timely(c, st) }

  lemma AddressedKept(c: Config, st: State, l: Label)
    requires Addressed(st) && Single(st)
    ensures Addressed(Apply(c, st, l))
  {}

  lemma SendKeepsSingle(st: State, t: Token)
    requires Addressed(st) && Single(st)
    ensures Single(DoSend(st, t))
  {}

  lemma ServeKeepsSingle(c: Config, st: State, x: Command)
    requires Single(st)
    ensures Single(DoServe(c, st, x))
  {}

  lemma ResendKeepsSingle(st: State, r: Reply)
    requires Single(st)
    ensures Single(DoResend(st, r))
  {}

  lemma LeaveKeepsSingle(st: State, t: Token, sent: bool)
    requires Addressed(st) && Single(st)
    ensures Single(DoLeave(st, t, sent))
  {}

  lemma SingleKept(c: Config, st: State, l: Label)
    requires Addressed(st) && Single(st)
    ensures Single(Apply(c, st, l))
  {
    hide DoSend, DoServe, DoResend, DoLeave, Addressed;
    match l
    case Send(t) => SendKeepsSingle(st, t);
    case Serve(x) => ServeKeepsSingle(c, st, x);
    case Resend(r) => ResendKeepsSingle(st, r);
    case Leave(t, sent) => LeaveKeepsSingle(st, t, sent);
    case _ =>
  }

  lemma ServeKeepsOwned(c: Config, st: State, x: Command)
    requires Inv(c, st)
    ensures Owned(c, DoServe(c, st, x))
  {}

  lemma ReceiveKeepsOwned(c: Config, st: State, r: Reply)
    requires Owned(c, st)
    ensures Owned(c, DoReceive(c, st, r))
  {}

  lemma ReleaseKeepsOwned(c: Config, st: State, x: Command)
    requires Inv(c, st)
    ensures Owned(c, DoRelease(st, x))
  {}

  lemma OwnedKept(c: Config, st: State, l: Label)
    requires Inv(c, st)
    ensures Owned(c, Apply(c, st, l))
  {
    hide DoServe, DoReceive, DoRelease;
    match l
    case Serve(x) => ServeKeepsOwned(c, st, x);
    case Receive(r) => ReceiveKeepsOwned(c, st, r);
    case Release(x) => ReleaseKeepsOwned(c, st, x);
    case _ =>
  }

  lemma TimelyKept(c: Config, st: State, l: Label)
    requires Timely(c, st)
    ensures Timely(c, Apply(c, st, l))
  {}

  lemma {:induction false} RunKeeps(c: Config, st: State, labels: seq<Label>)
    requires Inv(c, st)
    ensures Inv(c, ExecFrom(c, st, labels))
    decreases |labels|
  {
    hide Addressed, Single, Owned, Timely, Apply;
    if labels != [] {
      AddressedKept(c, st, labels[0]);
      SingleKept(c, st, labels[0]);
      OwnedKept(c, st, labels[0]);
      TimelyKept(c, st, labels[0]);
      RunKeeps(c, Apply(c, st, labels[0]), labels[1..]);
    }
  }

  lemma InitialFine(c: Config)
    ensures Inv(c, INITIAL)
  {}

  // ---------------------------------------------------------------- main results

  function InsideCallers(st: State): set<Token> { set t | t in st.callers && st.callers[t].phase.Inside? }

  /** The key lives longer than a body can run. */
  ghost predicate Outlived(c: Config) { c.timeout + c.margin < TimeToLive(c) }

  /** Nine seconds of margin are safe with every timeout. */
  lemma NineSecondsOutlived(c: Config)
    requires ValidConfig(c) && c.margin <= 9.0
    ensures Outlived(c)
  {}

  /** Every caller inside a slot holds it: the key has the caller's own token and has not expired. */
  lemma InsideHoldsKey(c: Config, labels: seq<Label>, t: Token)
    requires Outlived(c) && t in InsideCallers(Exec(c, labels))
    ensures var st := Exec(c, labels); var s := st.callers[t].phase.slot;
            s in st.keys && st.keys[s].token == t && st.keys[s].expires > st.now
  {
    InitialFine(c);
    RunKeeps(c, INITIAL, labels);
    hide Addressed, Single, ExecFrom;
    var st := Exec(c, labels);
    assert Granted(st, t, st.callers[t].phase.slot);
  }

  /** Callers inside are in different slots, so never more than two are inside. */
  lemma AtMostTwoInside(c: Config, labels: seq<Label>)
    requires Outlived(c)
    ensures forall t, u | t in InsideCallers(Exec(c, labels)) && u in InsideCallers(Exec(c, labels)) && t != u ::
              Exec(c, labels).callers[t].phase.slot != Exec(c, labels).callers[u].phase.slot
    ensures |InsideCallers(Exec(c, labels))| <= 2
  {
    hide Exec, Outlived;
    var st := Exec(c, labels);
    forall t | t in InsideCallers(st)
      ensures var s := st.callers[t].phase.slot; s in st.keys && st.keys[s].token == t
    {
      InsideHoldsKey(c, labels, t);
    }
    var inside := InsideCallers(st);
    var held := (if 0 in st.keys then {st.keys[0].token} else {}) + if 1 in st.keys then {st.keys[1].token} else {};
    forall t | t in inside ensures t in held {
      var s := st.callers[t].phase.slot;
      assert s == 0 || s == 1;
    }
    SubsetSize(inside, held);
  }

  lemma {:induction false} SubsetSize(a: set<Token>, b: set<Token>)
    requires a <= b
    ensures |a| <= |b|
  {
    assert b == a + (b - a);
  }

  /** A release, however late, frees no slot that another caller is in, and no key of another caller. */
  lemma ReleaseFreesOwnKeyOnly(c: Config, labels: seq<Label>, x: Command)
    requires Outlived(c)
    ensures var st := Exec(c, labels); var after := Apply(c, st, Release(x));
            && (forall s | s in st.keys && st.keys[s].token != x.token :: s in after.keys && after.keys[s] == st.keys[s])
            && (forall t | t in InsideCallers(st) ::
                  var s := st.callers[t].phase.slot; s in st.keys && s in after.keys && after.keys[s] == st.keys[s])
  {
    InitialFine(c);
    RunKeeps(c, INITIAL, labels);
    hide Single, Exec, Outlived;
    var st := Exec(c, labels);
    forall t | t in InsideCallers(st)
      ensures var s := st.callers[t].phase.slot; s in st.keys && st.keys[s].token == t
    {
      InsideHoldsKey(c, labels, t);
    }
  }

  /** A caller that leaves and whose release arrives frees its slot for the next one. */
  lemma LeavingFreesSlot(c: Config, labels: seq<Label>, t: Token)
    requires Outlived(c) && t in InsideCallers(Exec(c, labels))
    ensures var st := Exec(c, labels); var s := st.callers[t].phase.slot;
            var left := Apply(c, st, Leave(t, true)); var after := Apply(c, left, Release(Command(t, s)));
            && !Free(st, s) && Free(after, s) && IsIn(after, t, Gone) && after.keys == st.keys - {s}
            && (forall u | u in st.callers && u != t :: u in after.callers && after.callers[u] == st.callers[u])
            && Apply(c, st, Leave(t, false)).keys == st.keys && IsIn(Apply(c, st, Leave(t, false)), t, Gone)
  {
    InsideHoldsKey(c, labels, t);
    hide Exec, Outlived;
  }

  /** A caller that gives up is gone and releases nothing. */
  lemma GivingUpKeepsKeys(c: Config, st: State, t: Token)
    requires t in st.callers && (st.callers[t].phase.Ready? || st.callers[t].phase.Awaiting?)
    ensures var after := Apply(c, st, GiveUp(t)); IsIn(after, t, Gone) && after == st.(callers := after.callers)
  {}

  // --------------------------------------------------- and when the key does not live long enough

  lemma {:induction false} ExecAppend(c: Config, st: State, a: seq<Label>, b: seq<Label>)
    ensures ExecFrom(c, st, a + b) == ExecFrom(c, ExecFrom(c, st, a), b)
    decreases |a|
  {
    hide Apply;
    if a == [] {
      assert a + b == b;
    } else {
      assert (a + b)[1..] == a[1..] + b;
      ExecAppend(c, Apply(c, st, a[0]), a[1..], b);
    }
  }

  /** A caller that finds the slot it tries free. */
  function Entering(t: Token, s: Slot): seq<Label> {
    [Send(t), Serve(Command(t, s)), Receive(Reply(t, s, true))]
  }

  /** A caller that finds it taken. */
  function Refused(t: Token, s: Slot): seq<Label> {
    [Send(t), Serve(Command(t, s)), Receive(Reply(t, s, false))]
  }

  /** Nothing is on its way. */
  predicate Quiet(st: State) { st.sets == {} && st.replies == {} }

  lemma ThreeSteps(c: Config, st: State, l1: Label, l2: Label, l3: Label)
    ensures ExecFrom(c, st, [l1, l2, l3]) == Apply(c, Apply(c, Apply(c, st, l1), l2), l3)
  {
    hide Apply;
    assert [l1, l2, l3][1..] == [l2, l3] && [l2, l3][1..] == [l3] && [l3][1..] == [];
    var st1 := Apply(c, st, l1);
    assert ExecFrom(c, st, [l1, l2, l3]) == ExecFrom(c, st1, [l2, l3]);
    var st2 := Apply(c, st1, l2);
    assert ExecFrom(c, st1, [l2, l3]) == ExecFrom(c, st2, [l3]);
  }

  lemma OneStep(c: Config, st: State, l: Label)
    ensures ExecFrom(c, st, [l]) == Apply(c, st, l)
  {
    hide Apply;
    assert [l][1..] == [];
  }

  lemma StartIsApplied(c: Config, st: State, t: Token)
    ensures Apply(c, st, Start(t)) == DoStart(st, t)
  {}

  lemma Enters(c: Config, st: State, t: Token, s: Slot)
    requires ValidConfig(c) && Quiet(st) && t in st.callers && st.callers[t] == Caller(st.now, Ready(s)) && Free(st, s)
    ensures ExecFrom(c, st, Entering(t, s)) ==
            To(st, t, Inside(s)).(keys := st.keys[s := Lease(t, st.now + TimeToLive(c))])
  {
    ThreeSteps(c, st, Send(t), Serve(Command(t, s)), Receive(Reply(t, s, true)));
    var st1 := Apply(c, st, Send(t));
    assert st1 == To(st, t, Awaiting(s)).(sets := {Command(t, s)});
    var st2 := Apply(c, st1, Serve(Command(t, s)));
    assert st2.sets == {} && st2.replies == {Reply(t, s, true)};
    var st3 := Apply(c, st2, Receive(Reply(t, s, true)));
    assert st3.replies == {} && st3.callers == st.callers[t := Caller(st.now, Inside(s))];
  }

  lemma IsRefused(c: Config, st: State, t: Token, s: Slot)
    requires ValidConfig(c) && Quiet(st) && t in st.callers && st.callers[t] == Caller(st.now, Ready(s)) && !Free(st, s)
    ensures ExecFrom(c, st, Refused(t, s)) == To(st, t, Ready(1 - s))
  {
    ThreeSteps(c, st, Send(t), Serve(Command(t, s)), Receive(Reply(t, s, false)));
    var st1 := Apply(c, st, Send(t));
    assert st1 == To(st, t, Awaiting(s)).(sets := {Command(t, s)});
    var st2 := Apply(c, st1, Serve(Command(t, s)));
    assert st2.sets == {} && st2.replies == {Reply(t, s, false)};
    var st3 := Apply(c, st2, Receive(Reply(t, s, false)));
    assert st3.replies == {} && st3.callers == st.callers[t := Caller(st.now, Ready(1 - s))];
  }

  /** Two callers fill the slots, their keys expire while they still run, and a third enters. */
  function Overrun(c: Config): seq<Label> {
    [Start(0)] + Entering(0, 0) + [Start(1)] + Refused(1, 0) + Entering(1, 1) + [Tick(TimeToLive(c)), Start(2)] + Entering(2, 0)
  }

  lemma OverrunFills(c: Config)
    requires ValidConfig(c)
    ensures ExecFrom(c, INITIAL, [Start(0)] + Entering(0, 0) + [Start(1)] + Refused(1, 0) + Entering(1, 1)) ==
            State(0.0, map[0 := Lease(0, TimeToLive(c)), 1 := Lease(1, TimeToLive(c))],
                  map[0 := Caller(0.0, Inside(0)), 1 := Caller(0.0, Inside(1))], {}, {}, {})
  {
    hide Apply, Entering, Refused;
    var k := TimeToLive(c);
    assert k > 0.0;
    OneStep(c, INITIAL, Start(0));
    var a := State(0.0, map[], map[0 := Caller(0.0, Ready(0))], {}, {}, {});
    assert DoStart(INITIAL, 0) == a;
    StartIsApplied(c, INITIAL, 0);
    ExecAppend(c, INITIAL, [Start(0)], Entering(0, 0));
    Enters(c, a, 0, 0);
    var b := State(0.0, map[0 := Lease(0, k)], map[0 := Caller(0.0, Inside(0))], {}, {}, {});
    assert To(a, 0, Inside(0)).(keys := a.keys[0 := Lease(0, a.now + k)]) == b;
    ExecAppend(c, INITIAL, [Start(0)] + Entering(0, 0), [Start(1)]);
    var d := b.(callers := map[0 := Caller(0.0, Inside(0)), 1 := Caller(0.0, Ready(0))]);
    OneStep(c, b, Start(1));
    StartIsApplied(c, b, 1);
    assert DoStart(b, 1) == d;
    ExecAppend(c, INITIAL, [Start(0)] + Entering(0, 0) + [Start(1)], Refused(1, 0));
    IsRefused(c, d, 1, 0);
    ExecAppend(c, INITIAL, [Start(0)] + Entering(0, 0) + [Start(1)] + Refused(1, 0), Entering(1, 1));
    Enters(c, To(d, 1, Ready(1)), 1, 1);
  }

  lemma OverrunThree(c: Config)
    requires ValidConfig(c) && !Outlived(c)
    ensures InsideCallers(Exec(c, Overrun(c))) == {0, 1, 2} && |InsideCallers(Exec(c, Overrun(c)))| == 3
  {
    hide Entering, Refused;
    var k := TimeToLive(c);
    var filling := [Start(0)] + Entering(0, 0) + [Start(1)] + Refused(1, 0) + Entering(1, 1);
    var full := State(0.0, map[0 := Lease(0, k), 1 := Lease(1, k)], map[0 := Caller(0.0, Inside(0)), 1 := Caller(0.0, Inside(1))], {}, {}, {});
    OverrunFills(c);
    var late := full.(now := k);
    var third := late.(callers := late.callers[2 := Caller(k, Ready(0))]);
    ExecAppend(c, INITIAL, filling, [Tick(k), Start(2)]);
    assert Apply(c, full, Tick(k)) == late && Apply(c, late, Start(2)) == third;
    assert [Tick(k), Start(2)][1..] == [Start(2)] && [Start(2)][1..] == [];
    assert ExecFrom(c, full, [Tick(k), Start(2)]) == third;
    ExecAppend(c, INITIAL, filling + [Tick(k), Start(2)], Entering(2, 0));
    Enters(c, third, 2, 0);
    assert Overrun(c) == filling + [Tick(k), Start(2)] + Entering(2, 0);
  }

  /** Exactly when the key outlives every body are there never three callers inside. */
  lemma TwoSlotsIffOutlived(c: Config)
    requires ValidConfig(c)
    ensures (forall labels: seq<Label> :: |InsideCallers(Exec(c, labels))| <= 2) <==> Outlived(c)
  {
    hide Exec, Outlived, InsideCallers;
    if Outlived(c) {
      forall labels: seq<Label> ensures |InsideCallers(Exec(c, labels))| <= 2 { AtMostTwoInside(c, labels); }
    } else {
      OverrunThree(c);
    }
  }

  // ------------------------------------------------------------ the keys, in place

  /** The two keys as one caller's commands change them when no other command comes between. */
  class Keys {
    const config: Config
    var now: real
    var keys: map<Slot, Lease>

    constructor (config: Config)
      ensures this.config == config && now == 0.0 && keys == map[]
    {
      this.config := config;
      now, keys := 0.0, map[];
    }

    /** The protocol's state with one caller, ready to try the first slot. */
    function Alone(t: Token): State
      reads this
    {
      State(now, keys, map[t := Caller(now, Ready(0))], {}, {}, {})
    }

    /** SET NX EX. */
    method SetIfAbsent(s: Slot, t: Token) returns (granted: bool)
      modifies this`keys
      ensures granted == Free(old(Alone(t)), s)
      ensures keys == if granted then old(keys)[s := Lease(t, now + TimeToLive(config))] else old(keys)
      ensures forall u | u in keys && !(granted && u == s) :: u in old(keys) && keys[u] == old(keys)[u]
    {
      granted := s !in keys || keys[s].expires <= now;
      if granted { keys := keys[s := Lease(t, now + TimeToLive(config))]; }
    }

    /** One round of the loop over the slots is a run of the protocol: it ends inside the slot it got, or ready for the next round. */
    method Round(t: Token) returns (key: Option<Slot>)
      requires ValidConfig(config)
      modifies this`keys
      ensures var before := old(Alone(t));
              var run := if Free(before, 0) then Entering(t, 0)
                         else Refused(t, 0) + if Free(before, 1) then Entering(t, 1) else Refused(t, 1);
              var after := ExecFrom(config, before, run);
              && keys == after.keys && t in after.callers
              && after.callers[t].phase == if key.Some? then Inside(key.value) else Ready(0)
      ensures key.None? ==> keys == old(keys)
    {
      ghost var before := Alone(t);
      RoundRuns(config, before, t);
      key := None;
      for slot := 0 to 2
        invariant key.None? && keys == old(keys) && forall s: Slot | s < slot :: !Free(before, s)
      {
        var granted := SetIfAbsent(slot, t);
        if granted {
          key := Some(slot);
          break;
        }
      }
      hide ExecFrom, Entering, Refused;
    }

    /** Compare and delete. */
    method CompareAndDelete(s: Slot, t: Token)
      modifies this`keys
      ensures keys == DoRelease(old(Alone(t)).(releases := {Command(t, s)}), Command(t, s)).keys
      ensures forall u | u in old(keys) && (u != s || old(keys)[u].token != t) :: u in keys && keys[u] == old(keys)[u]
      ensures s in keys && keys[s].token == t ==> keys[s].expires <= now
    {
      if s in keys && keys[s].expires > now && keys[s].token == t { keys := keys - {s}; }
    }
  }

  lemma RoundRuns(c: Config, st: State, t: Token)
    requires ValidConfig(c) && Quiet(st) && t in st.callers && st.callers[t] == Caller(st.now, Ready(0))
    ensures Free(st, 0) ==>
              ExecFrom(c, st, Entering(t, 0)) == To(st, t, Inside(0)).(keys := st.keys[0 := Lease(t, st.now + TimeToLive(c))])
    ensures !Free(st, 0) && Free(st, 1) ==>
              ExecFrom(c, st, Refused(t, 0) + Entering(t, 1)) == To(st, t, Inside(1)).(keys := st.keys[1 := Lease(t, st.now + TimeToLive(c))])
    ensures !Free(st, 0) && !Free(st, 1) ==> ExecFrom(c, st, Refused(t, 0) + Refused(t, 1)) == st
  {
    hide ExecFrom, Entering, Refused;
    if Free(st, 0) {
      Enters(c, st, t, 0);
    } else {
      IsRefused(c, st, t, 0);
      var second := To(st, t, Ready(1));
      ExecAppend(c, st, Refused(t, 0), Entering(t, 1));
      ExecAppend(c, st, Refused(t, 0), Refused(t, 1));
      if Free(st, 1) {
        Enters(c, second, t, 1);
        assert To(second, t, Inside(1)).callers == To(st, t, Inside(1)).callers;
      } else {
        IsRefused(c, second, t, 1);
        assert To(second, t, Ready(0)).callers == st.callers;
      }
    }
  }
}
