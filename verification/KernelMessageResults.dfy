/** What holds of every run: messages, requests and replies, flags and round robin. */
module KernelMessageResults {
  import opened KernelTypes
  import opened KernelSpec
  import opened KernelLinks
  import opened KernelInv
  import opened KernelCore
  import opened KernelMessages
  import opened KernelSched
  import opened KernelState
  import opened KernelSteps
  import opened KernelThreadSteps
  import opened KernelSyncSteps
  import opened KernelMsgSteps
  import opened KernelInvariant
  import opened KernelHistory
  import opened KernelFrames
  import opened KernelWaking

  // ---------------------------------------------------------------- exactly once, in order

  lemma {:induction false} FromCounts(ms: seq<Msg>, m: Msg)
    ensures multiset(ms)[m] == multiset(From(m.from, ms))[m]
  {
    if ms != [] {
      FromCounts(ms[1..], m);
      assert ms == [ms[0]] + ms[1..];
    }
  }

  /** Sequences that agree sender by sender hold the same messages equally often. */
  lemma FromDetermines(a: seq<Msg>, b: seq<Msg>)
    requires forall x :: From(x, a) == From(x, b)
    ensures multiset(a) == multiset(b)
  {
    forall m ensures multiset(a)[m] == multiset(b)[m] {
      FromCounts(a, m);
      FromCounts(b, m);
      assert From(m.from, a) == From(m.from, b);
    }
  }

  lemma {:induction false} SerialsAreUnique(ms: seq<Msg>, m: Msg)
    requires forall i, j {:trigger ms[i], ms[j]} :: 0 <= i < j < |ms| ==> ms[i].serial < ms[j].serial
    ensures multiset(ms)[m] <= 1
  {
    if ms != [] {
      SerialsAreUnique(ms[1..], m);
      assert ms == [ms[0]] + ms[1..];
      if m == ms[0] {
        assert forall i :: 0 <= i < |ms[1..]| ==> ms[1..][i] == ms[i + 1] != m;
      }
    }
  }

  /** Every message that was accepted for t has been received, is queued, or is in the buffer of a
      waiting sender: in exactly one of these places, exactly once. */
  lemma ExactlyOnce(s: State, t: Tid, m: Msg)
    requires Reachable(s) && t < |s.k.ts|
    ensures multiset(T(s.k, t).got) + multiset(T(s.k, t).queue) + multiset(Waiting(s.k, L(s.k, Senders(t))))
         == multiset(T(s.k, t).sent)
    ensures multiset(T(s.k, t).sent)[m] <= 1
  {
    ReachableOk(s);
    assert FlowOk(s.k, t);
    FromDetermines(Accepted(s.k, t), T(s.k, t).sent);
    assert Accepted(s.k, t) == T(s.k, t).got + T(s.k, t).queue + Waiting(s.k, L(s.k, Senders(t)));
    SerialsAreUnique(T(s.k, t).sent, m);
  }

  /** The messages of one sender are received in the order in which they were sent. */
  lemma FirstInFirstOut(s: State, t: Tid, x: Option<Tid>)
    requires Reachable(s) && t < |s.k.ts|
    ensures From(x, T(s.k, t).got) <= From(x, T(s.k, t).sent)
  {
    ReachableOk(s);
    assert FlowOk(s.k, t);
    var rest := T(s.k, t).queue + Waiting(s.k, L(s.k, Senders(t)));
    Associate2(T(s.k, t).got, T(s.k, t).queue, Waiting(s.k, L(s.k, Senders(t))));
    assert Accepted(s.k, t) == T(s.k, t).got + rest;
    FromAppend(x, T(s.k, t).got, rest);
  }

  /** The message that step e adds to what t was sent: that of a send to t which reports 1. */
  ghost function Accepts(s: State, e: Event, t: Tid): seq<Msg>
    requires Enabled(s, e)
  {
    if e.ForMsg? && Message(s, e.msg).Some? && Step(s, e).ret == 1 && Lookup(s, Message(s, e.msg).value.0) == Some(t)
    then [Message(s, e.msg).value.1] else []
  }

  lemma ThreadCallsSendNothing(s: State, c: ThreadCall, t: Tid)
    requires Inv(s) && ThreadEnabled(s, c)
    ensures T(ThreadStep(s, c).k, t).sent == T(s.k, t).sent
  {
    if c.DoCreate? && t >= |s.k.ts| {
      CreateSendsNothing(s, c.prio, c.sleeping, t);
    } else if c.DoChangePriority? && c.thread == t {
      PrioritySendsNothing(s, t, c.newPrio);
    } else {
      ThreadAges(s, c, t);
    }
  }

  lemma CreateSendsNothing(s: State, prio: nat, sleeping: bool, t: Tid)
    requires t >= |s.k.ts|
    ensures T(Create(s, prio, sleeping).k, t).sent == []
  {
    FreePidIsFree(s.pids, 1);
    if prio < LEVELS && FreePid(s.pids, 1).Some? { BornSendsNothing(s, prio, FreePid(s.pids, 1).value, sleeping, t); }
  }

  lemma BornSendsNothing(s: State, prio: nat, pid: nat, sleeping: bool, t: Tid)
    requires t >= |s.k.ts| && prio < LEVELS && FreePid(s.pids, 1) == Some(pid) && pid < |s.pids|
    ensures T(Create(s, prio, sleeping).k, t).sent == []
  {
    var s1 := s.(pids := s.pids[pid := Some(|s.k.ts|)], ret := pid, k := Born(s.k, prio, pid, sleeping));
    SetStatusAges(AddThread(s.k, prio, pid), |s.k.ts|, if sleeping then Sleeping else Pending, t);
    ThenAges(s1.k, s1, Switch(prio), t);
  }

  lemma PrioritySendsNothing(s: State, t: Tid, prio: nat)
    requires Inv(s) && MayReprioritize(s, t, prio)
    ensures T(ChangePriority(s, t, prio).k, t).sent == T(s.k, t).sent
  {
    if T(s.k, t).prio != prio {
      ReprioritizeEffect(s.k, t, prio);
      ThenAges(Reprioritize(s.k, t, prio), s.(k := Reprioritize(s.k, t, prio)), CheckPriority(t, prio), t);
    }
  }

  /** A send that reports 1 has one message accepted, and nothing else has any. */
  lemma StepAccepts(s: State, e: Event, t: Tid)
    requires Inv(s) && Enabled(s, e)
    ensures T(Step(s, e).k, t).sent == T(s.k, t).sent + Accepts(s, e, t)
  {
    if e.ForMsg? {
      MsgGrows(s, e.msg, t);
    } else if e.ForThread? {
      ThreadCallsSendNothing(s, e.call, t);
    } else {
      StepAges(s, e, t);
    }
  }

  /** All that a run sends to t, oldest first. */
  ghost function AllAccepted(s: State, es: seq<Event>, s': State, t: Tid): seq<Msg>
    requires Run(s, es, s')
    decreases |es|
  {
    if es == [] then [] else Accepts(s, es[0], t) + AllAccepted(Step(s, es[0]), es[1..], s', t)
  }

  lemma {:induction false} RunAccepts(s: State, es: seq<Event>, s': State, t: Tid)
    requires Inv(s) && Run(s, es, s')
    ensures T(s'.k, t).sent == T(s.k, t).sent + AllAccepted(s, es, s', t)
    decreases |es|
  {
    if es != [] {
      StepKeeps(s, es[0]);
      StepAccepts(s, es[0], t);
      var s1 := Step(s, es[0]);
      RunAccepts(s1, es[1..], s', t);
      Associate2(T(s.k, t).sent, Accepts(s, es[0], t), AllAccepted(s1, es[1..], s', t));
    }
  }

  /** Over a whole run, what was received, is queued or waits is exactly what the sends that
      reported 1 have sent. */
  lemma RunConservesMessages(s: State, es: seq<Event>, s': State, t: Tid)
    requires Init(s) && Run(s, es, s') && t < |s'.k.ts|
    ensures multiset(T(s'.k, t).got) + multiset(T(s'.k, t).queue) + multiset(Waiting(s'.k, L(s'.k, Senders(t))))
         == multiset(AllAccepted(s, es, s', t))
  {
    InitKeeps(s);
    RunAccepts(s, es, s', t);
    assert T(s.k, t).sent == [];
    assert T(s'.k, t).sent == AllAccepted(s, es, s', t);
    ExactlyOnce(s', t, NO_MSG);
  }

  // ---------------------------------------------------------------- no stuck rendezvous

  /** A thread blocked on receiving has nothing to receive, and senders wait only for a full queue. */
  lemma NoStuckRendezvous(s: State, t: Tid)
    requires Reachable(s) && t < |s.k.ts|
    ensures T(s.k, t).status == ReceiveBlocked ==> T(s.k, t).queue == [] && L(s.k, Senders(t)) == []
    ensures L(s.k, Senders(t)) != [] ==> QueueFull(T(s.k, t)) && |T(s.k, t).queue| == T(s.k, t).cap
  {
    ReachableOk(s);
    assert RendezvousOk(s.k, t) && OwnOk(t, T(s.k, t));
  }

  /** The message of a waiting sender always finds the slot that was just freed. */
  lemma RefillFits(s: State, a: Tid)
    requires Reachable(s) && Calling(s) && s.active == Some(a) && L(s.k, Senders(a)) != [] && T(s.k, a).queue != []
    ensures !QueueFull(T(TakeQueued(s.k, a), a))
    ensures |T(Refill(TakeQueued(s.k, a), a, NO_MSG), a).queue| == T(s.k, a).cap
  {
    ReachableOk(s);
    CallerIsSettled(s);
    ReadyAfterQueue(s.k, a);
  }

  // ---------------------------------------------------------------- request and reply

  /** A thread that waits for a reply keeps its request in the buffer, and only a reply to it ends
      the wait and overwrites the buffer. */
  lemma RequestKept(s: State, e: Event, t: Tid)
    requires Reachable(s) && Enabled(s, e) && t < |s.k.ts| && T(s.k, t).status == ReplyBlocked
    ensures T(s.k, t).wait.Buffer? && T(s.k, t).wait.msg.from == Some(t)
    ensures var y := T(Step(s, e).k, t);
            if e.ForMsg? && e.msg.DoReply? && Lookup(s, e.msg.pid) == Some(t)
            then OnRunqueue(y.status) && y.wait == Buffer(e.msg.reply) && y.answer == Some(e.msg.reply)
            else y.status == ReplyBlocked && y.wait == T(s.k, t).wait
  {
    ReachableOk(s);
    assert OwnOk(t, T(s.k, t));
    if e.ForMsg? && e.msg.DoReply? && Lookup(s, e.msg.pid) == Some(t) {
      ReplyArrives(s, e.msg.pid, e.msg.reply, t);
    } else if e.ForMsg? && e.msg.DoReceive? && IsFirst(s.k, Senders(s.active.value), t) {
      CallerIsSettled(s);
      ReceivedKeepsRequest(s, s.active.value, e.msg.block, t);
    } else {
      NotAwaitingElse(s, e, t);
      OnlyTheAwaitedCallWakes(s, e, t);
    }
  }

  lemma AnswerArrives(k: Core, t: Tid, reply: Msg)
    requires T(k, t).status == ReplyBlocked && t < |k.ts|
    ensures var y := T(Answer(k, t, reply), t);
            y.status == Pending && y.wait == Buffer(reply) && y.answer == Some(reply)
  {
    WakeEffect(SetT(k, t, T(k, t).(wait := Buffer(reply), answer := Some(reply))), t, Pending);
  }

  lemma ReplyArrives(s: State, pid: nat, reply: Msg, t: Tid)
    requires Lookup(s, pid) == Some(t) && T(s.k, t).status == ReplyBlocked && t < |s.k.ts|
    ensures var y := T(Reply(s, pid, reply).k, t);
            OnRunqueue(y.status) && y.wait == Buffer(reply) && y.answer == Some(reply)
  {
    var s1 := s.(k := Answer(s.k, t, reply), ret := 1);
    AnswerArrives(s.k, t, reply);
    ThenTouches(T(s1.k, t), s1, Switch(T(s.k, t).prio), t);
    ReplyIs(s, s1, pid, reply, t);
  }

  lemma ReplyIs(s: State, s1: State, pid: nat, reply: Msg, t: Tid)
    requires Lookup(s, pid) == Some(t) && T(s.k, t).status == ReplyBlocked &&
        s1 == s.(k := Answer(s.k, t, reply), ret := 1)
    ensures Reply(s, pid, reply) == if s.isr then s1.(request := true) else Then(s1, Switch(T(s.k, t).prio))
  {
  }

  lemma UnloadKeepsRequest(k: Core, a: Tid, x: Tid)
    requires CoreOk(k) && MayBlock(k, a) && IsFirst(k, Senders(a), x) && T(k, x).status == ReplyBlocked
    ensures T(Unloaded(k, a), x).status == ReplyBlocked && T(Unloaded(k, a), x).wait == T(k, x).wait
  {
    ReadyAfterQueue(k, a);
    var k1 := TakeQueued(k, a);
    TakeQueuedTouches(k, a, x);
    DrainedKeepsBuffer(k1, a, x, T(k, a).queue != []);
  }

  lemma DrainedKeepsBuffer(k: Core, a: Tid, x: Tid, queued: bool)
    requires x < |k.ts| && L(k, Senders(a)) != [] && x == L(k, Senders(a))[0] && x != a
    ensures T(Drained(k, a, x, queued), x).status == T(k, x).status &&
        T(Drained(k, a, x, queued), x).wait == T(k, x).wait
  {
  }

  lemma ReceivedKeepsRequest(s: State, a: Tid, block: bool, t: Tid)
    requires CoreOk(s.k) && MayBlock(s.k, a) && IsFirst(s.k, Senders(a), t) && T(s.k, t).status == ReplyBlocked
    ensures T(Receive(s, a, block).k, t).status == ReplyBlocked && T(Receive(s, a, block).k, t).wait == T(s.k, t).wait
  {
    var s1 := s.(k := Unloaded(s.k, a), ret := 1);
    UnloadKeepsRequest(s.k, a, t);
    ReceiveWaitingIs(s, s1, a, block);
    ThenTouches(T(s1.k, t), s1, Switch(ReleasedPrio(s.k, a)), t);
  }

  lemma NotAwaitingElse(s: State, e: Event, t: Tid)
    requires Inv(s) && t < |s.k.ts| && T(s.k, t).status == ReplyBlocked
    requires !(e.ForMsg? && e.msg.DoReply? && Lookup(s, e.msg.pid) == Some(t))
    requires !(e.ForMsg? && e.msg.DoReceive? && s.active.Some? && IsFirst(s.k, Senders(s.active.value), t))
    ensures !Awaited(s, e, t)
  {
    OnlyAmongSenders(s.k, t);
    assert !FlagsSatisfied(WithFlags(T(s.k, t), MSG_WAITING));
  }

  /** A thread that waits for a reply is on no list but one of senders. */
  lemma OnlyAmongSenders(k: Core, t: Tid)
    requires Links(k) && t < |k.ts| && T(k, t).status == ReplyBlocked
    ensures forall l: ListId :: t in L(k, l) ==> l.Senders?
  {
    assert StatusFits(T(k, t));
    forall l: ListId | t in L(k, l) ensures l.Senders? { assert ListOk(k, l); }
  }

  /** msg_send_receive returns with exactly the reply in its buffer. */
  lemma RequestReturnsReply(s: State, a: Tid)
    requires Reachable(s) && MayResume(s, a) && T(s.k, a).todo[0] == Replied
    ensures T(s.k, a).answer.Some? && T(s.k, a).wait == Buffer(T(s.k, a).answer.value)
  {
    ReachableOk(s);
    LastActKeeps(s, a);
  }

  /** msg_receive, if it had to block, returns with the last message received in its buffer. */
  lemma ReceiveReturnsMessage(s: State, a: Tid)
    requires Reachable(s) && MayResume(s, a) && T(s.k, a).todo[0] == Received
    ensures var got := T(s.k, a).got; got != [] && T(s.k, a).wait == Buffer(got[|got| - 1])
  {
    ReachableOk(s);
    LastActKeeps(s, a);
  }

  // ---------------------------------------------------------------- thread flags

  /** No wake-up is lost: a thread that waits for flags does not have the flags it waits for. */
  lemma FlagWaitersLackFlags(s: State, t: Tid)
    requires Reachable(s) && t < |s.k.ts|
    ensures T(s.k, t).status == FlagBlockedAny ==> T(s.k, t).wait.Mask? && T(s.k, t).flags * T(s.k, t).wait.mask == {}
    ensures T(s.k, t).status == FlagBlockedAll ==> T(s.k, t).wait.Mask? && !(T(s.k, t).wait.mask <= T(s.k, t).flags)
  {
    ReachableOk(s);
    assert OwnOk(t, T(s.k, t));
  }

  /** thread_flags_wait_any returns a non-empty part of the mask, and clears just that. */
  lemma WaitAnyReturns(s: State, a: Tid, mask: Flags)
    requires Reachable(s) && MayResume(s, a) && T(s.k, a).todo[0] == ClearAny(mask)
    ensures var s' := Step(s, Cpu(Continue));
            && s'.flagsRet != {} && s'.flagsRet == T(s.k, a).flags * mask
            && T(s'.k, a).flags == T(s.k, a).flags - s'.flagsRet && T(s'.k, a).todo == []
  {
    ReachableOk(s);
    LastActKeeps(s, a);
    ClearIs(s, a, mask);
  }

  lemma ClearIs(s: State, a: Tid, mask: Flags)
    requires T(s.k, a).todo == [ClearAny(mask)] || T(s.k, a).todo == [ClearAll(mask)] ||
        T(s.k, a).todo == [ClearOne(mask)]
    requires a < |s.k.ts|
    ensures var s' := Resume(s, a);
            && s'.flagsRet == mask * T(s.k, a).flags && T(s'.k, a).flags == T(s.k, a).flags - mask * T(s.k, a).flags
            && T(s'.k, a).todo == []
  {
    assert Resume(s, a) == FlagsClear(PoppedState(s, a), a, mask);
  }

  /** thread_flags_wait_all returns the whole mask. */
  lemma WaitAllReturns(s: State, a: Tid, mask: Flags)
    requires Reachable(s) && MayResume(s, a) && T(s.k, a).todo[0] == ClearAll(mask)
    ensures var s' := Step(s, Cpu(Continue)); s'.flagsRet == mask && T(s'.k, a).flags == T(s.k, a).flags - mask
  {
    ReachableOk(s);
    LastActKeeps(s, a);
    ClearIs(s, a, mask);
  }

  /** thread_flags_wait_one chooses the lowest bit of the mask that is set when it looks; */
  lemma WaitOneChooses(s: State, a: Tid, mask: Flags)
    requires Reachable(s) && MayResume(s, a) && T(s.k, a).todo[0] == ReadOne(mask)
    ensures exists b: Bit ::
              && T(Step(s, Cpu(Continue)).k, a).todo == [ClearOne({b})] && b in mask && b in T(s.k, a).flags
              && forall c: Bit :: c < b ==> !(c in mask && c in T(s.k, a).flags)
  {
    ReachableOk(s);
    LastActKeeps(s, a);
    var v := T(s.k, a).flags * mask;
    LowestIs(v, 0);
    assert v != {};
    var b0: Bit :| b0 in v;
    var b: Bit :| LowestFrom(v, 0) == {b} && b in v && 0 <= b && forall c: Bit :: 0 <= c < b ==> c !in v;
    ReadIs(s, a, mask);
    forall c: Bit | c < b ensures !(c in mask && c in T(s.k, a).flags) { assert c !in v; }
  }

  lemma ReadIs(s: State, a: Tid, mask: Flags)
    requires T(s.k, a).todo == [ReadOne(mask)] && a < |s.k.ts|
    ensures T(Resume(s, a).k, a).todo == [ClearOne(Lowest(T(s.k, a).flags * mask))]
  {
    var s1 := PoppedState(s, a);
    assert [ClearOne(Lowest(T(s.k, a).flags * mask))] + T(s1.k, a).todo == [ClearOne(Lowest(T(s.k, a).flags * mask))];
  }

  /** and returns that bit, whatever flags were set in between. */
  lemma WaitOneReturns(s: State, a: Tid, bit: Flags)
    requires Reachable(s) && MayResume(s, a) && T(s.k, a).todo[0] == ClearOne(bit)
    ensures var s' := Step(s, Cpu(Continue));
        s'.flagsRet == bit && bit != {} && T(s'.k, a).flags == T(s.k, a).flags - bit
  {
    ReachableOk(s);
    LastActKeeps(s, a);
    ClearIs(s, a, bit);
  }

  // ---------------------------------------------------------------- round robin

  /** The active thread calls thread_yield, and goes on with the call. */
  function Turn(s: State): State {
    if s.active.Some? then
      var s1 := YieldCall(s, s.active.value);
      if T(s1.k, s.active.value).todo == [] then s1 else Resume(s1, s.active.value)
    else s
  }

  function Turns(s: State, n: nat): State
    decreases n
  {
    if n == 0 then s else Turn(Turns(s, n - 1))
  }

  /** The threads q share the highest priority p that has any, none is in a kernel call, and the
      first of them runs. */
  ghost predicate Sharing(s: State, p: nat, q: seq<Tid>) {
    && Reachable(s) && Calling(s) && q != [] && s.active == Some(q[0]) && L(s.k, Rq(p)) == q
    && T(s.k, q[0]).prio == p
    && forall t: Tid {:trigger T(s.k, t)} :: t in q ==> T(s.k, t).todo == []
  }

  function Rotated(q: seq<Tid>): seq<Tid>
    requires q != []
  {
    q[1..] + [q[0]]
  }

  lemma TurnIs(s: State, p: nat, q: seq<Tid>)
    requires Sharing(s, p, q)
    ensures var s1 := YieldCall(s, q[0]);
            && s1 == s.(k := Owe(Rotate(s.k, p), q[0], [Yield])) && T(s1.k, q[0]).todo == [Yield]
            && Turn(s) == SchedRun(PoppedState(s1, q[0]))
            && L(s1.k, Rq(p)) == Rotated(q)
            && (forall t: Tid {:trigger T(s1.k, t)} :: t != q[0] ==> T(s1.k, t) == T(s.k, t))
            && T(s1.k, q[0]).prio == p
  {
    ReachableOk(s);
    CallerIsSettled(s);
    YieldIs(s, q[0], p, q);
    TurnIsSwitch(s, q[0], YieldCall(s, q[0]));
  }

  lemma YieldIs(s: State, a: Tid, p: nat, q: seq<Tid>)
    requires OnRunqueue(T(s.k, a).status) && T(s.k, a).prio == p && T(s.k, a).todo == [] && a < |s.k.ts|
    requires q == L(s.k, Rq(p)) && q != [] && q[0] == a && !s.isr && s.active == Some(a)
    ensures var s1 := YieldCall(s, a);
            && s1 == s.(k := Owe(Rotate(s.k, p), a, [Yield])) && T(s1.k, a).todo == [Yield]
            && L(s1.k, Rq(p)) == Rotated(q)
            && (forall t: Tid {:trigger T(s1.k, t)} :: t != a ==> T(s1.k, t) == T(s.k, t))
            && T(s1.k, a).prio == p
  {
    assert T(Rotate(s.k, p), a) == T(s.k, a).(ticket := s.k.clock);
    assert [Yield] + [] == [Yield];
  }

  lemma TurnIsSwitch(s: State, a: Tid, s1: State)
    requires s.active == Some(a) && s1 == YieldCall(s, a) && T(s1.k, a).todo == [Yield]
    ensures Turn(s) == SchedRun(PoppedState(s1, a)) == Resume(s1, a)
  {
  }

  lemma TurnReaches(s: State, p: nat, q: seq<Tid>)
    requires Sharing(s, p, q)
    ensures Reachable(Turn(s)) && T(YieldCall(s, q[0]).k, q[0]).todo != [] &&
        Links(PoppedState(YieldCall(s, q[0]), q[0]).k)
  {
    var s1 := YieldCall(s, q[0]);
    TurnIs(s, p, q);
    TurnIsSwitch(s, q[0], s1);
    ReachableStep(s, ForOwn(DoYield));
    assert Step(s, ForOwn(DoYield)) == s1;
    ReachableStep(s1, Cpu(Continue));
    ReachableOk(s1);
    PoppedOk(s1.k, q[0]);
  }

  /** After the yield, the next of them runs. */
  lemma TurnPasses(s: State, p: nat, q: seq<Tid>)
    requires Sharing(s, p, q)
    ensures Sharing(Turn(s), p, Rotated(q))
  {
    TurnIs(s, p, q);
    TurnReaches(s, p, q);
    TurnKeepsTop(s, PoppedState(YieldCall(s, q[0]), q[0]), p, q);
    PassedOn(PoppedState(YieldCall(s, q[0]), q[0]), p, Rotated(q));
  }

  lemma TurnKeepsTop(s: State, s2: State, p: nat, q: seq<Tid>)
    requires Sharing(s, p, q) && YieldCall(s, q[0]) == s.(k := Owe(Rotate(s.k, p), q[0], [Yield]))
    requires T(YieldCall(s, q[0]).k, q[0]).todo == [Yield] && s2 == PoppedState(YieldCall(s, q[0]), q[0])
    ensures Above(s2.k, p) && L(s2.k, Rq(p)) == Rotated(q)
    ensures forall t: Tid {:trigger T(s2.k, t)} :: t in q ==> T(s2.k, t).todo == []
    ensures !s2.isr && !s2.idle && p < LEVELS
  {
    ReachableOk(s);
    CallerIsSettled(s);
    assert TcbLinked(s.k, q[0]);
    forall r: nat ensures L(s2.k, Rq(r)) == if r == p then Rotated(q) else L(s.k, Rq(r)) { }
    forall t: Tid | t in q ensures T(s2.k, t).todo == [] {
      assert T(s.k, t).todo == [];
    }
  }

  lemma PassedOn(s: State, p: nat, q: seq<Tid>)
    requires Links(s.k) && Reachable(SchedRun(s)) && q != [] && Above(s.k, p) && L(s.k, Rq(p)) == q && p < LEVELS &&
        !s.isr
    requires forall t: Tid {:trigger T(s.k, t)} :: t in q ==> T(s.k, t).todo == []
    ensures Sharing(SchedRun(s), p, q)
  {
    TopFromFinds(s.k, 0, p);
    ListedIsRunnable(s.k, p, q[0]);
    SchedRunRemarks(s);
    SchedRunPicks(s);
    forall t: Tid | t in q ensures T(SchedRun(s).k, t).todo == [] {
      assert StaysRunnable(T(s.k, t), T(SchedRun(s).k, t)) && T(s.k, t).todo == [];
    }
    assert StaysRunnable(T(s.k, q[0]), T(SchedRun(s).k, q[0]));
  }

  lemma TopFromFinds(k: Core, i: nat, p: nat)
    requires i <= p < LEVELS && Above(k, p) && L(k, Rq(p)) != []
    ensures TopFrom(k, i) == Some(p)
    decreases p - i
  {
    if i < p { TopFromFinds(k, i + 1, p); }
  }

  /** The queue after n turns. */
  function RotatedBy(q: seq<Tid>, n: nat): (r: seq<Tid>)
    requires q != []
    ensures r != []
    decreases n
  {
    if n == 0 then q else Rotated(RotatedBy(q, n - 1))
  }

  lemma {:induction false} TurnsRotate(s: State, p: nat, q: seq<Tid>, n: nat)
    requires Sharing(s, p, q)
    ensures Sharing(Turns(s, n), p, RotatedBy(q, n))
    decreases n
  {
    if n > 0 {
      TurnsRotate(s, p, q, n - 1);
      TurnPasses(Turns(s, n - 1), p, RotatedBy(q, n - 1));
    }
  }

  lemma {:induction false} RotatedByIs(q: seq<Tid>, n: nat)
    requires q != [] && n <= |q|
    ensures RotatedBy(q, n) == q[n..] + q[..n]
    decreases n
  {
    if n > 0 {
      RotatedByIs(q, n - 1);
      assert (q[n - 1..] + q[..n - 1])[1..] == q[n..] + q[..n - 1];
      assert q[..n] == q[..n - 1] + [q[n - 1]];
    }
  }

  /** k threads that share the highest priority and only yield run one after the other, in the order
      of their queue, and after k yields the queue is as it was. */
  lemma RoundRobin(s: State, p: nat, q: seq<Tid>, n: nat)
    requires Reachable(s) && Calling(s) && p == T(s.k, s.active.value).prio && q == L(s.k, Rq(p)) && n <= |q|
    requires forall t: Tid {:trigger T(s.k, t)} :: t in q ==> T(s.k, t).todo == []
    ensures q != [] && Turns(s, n).active == Some(if n < |q| then q[n] else q[0])
    ensures L(Turns(s, n).k, Rq(p)) == q[n..] + q[..n]
  {
    ReachableOk(s);
    CallerIsSettled(s);
    TurnsRotate(s, p, q, n);
    RotatedByIs(q, n);
  }
}
