/** What the calls on messages and mailboxes report, which message they pass on, and where it is
    afterwards. */
module KernelDeliveries {
  import opened KernelTypes
  import opened KernelSpec
  import opened KernelLinks
  import opened KernelInv
  import opened KernelCore
  import opened KernelMessages
  import opened KernelSched
  import opened KernelState
  import opened KernelSteps
  import opened KernelThreadSteps
  import opened KernelSyncSteps
  import opened KernelMsgSteps
  import opened KernelMboxSteps
  import opened KernelInvariant
  import opened KernelCalls

  // ---------------------------------------------------------------- where a message is

  /** The record of a thread, but for what it still does, and whether its request can be answered. */
  predicate Aside(x: Tcb, y: Tcb) {
    y == x.(todo := y.todo, answerable := y.answerable)
  }

  predicate HasRoom(tcb: Tcb) {
    |tcb.queue| < tcb.cap
  }

  /** Flag 15 is set, and wakes the thread if it waits for it. */
  predicate Alerted(x: Tcb, y: Tcb) {
    && y.flags == x.flags + {15}
    && (if Awaits(x, x.flags + {15}) then OnRunqueue(y.status) else y.status == x.status)
  }

  /** Message m was accepted for t, and is in the buffer of t, who waited for it and is runnable; or at the
      end of the queue of t; or in the buffer of the sender a, who is blocked among the senders. */
  ghost predicate Arrived(k: Core, k': Core, a: Option<Tid>, t: Tid, m: Msg) {
    var x, y := T(k, t), T(k', t);
    && y.sent == x.sent + [m]
    && (forall u: Tid {:trigger T(k', u)} :: u != t && Some(u) != a ==> Aside(T(k, u), T(k', u)))
    && if x.status == ReceiveBlocked then
         OnRunqueue(y.status) && y.wait == Buffer(m) && y.got == x.got + [m] && y.queue == x.queue && y.flags == x.flags
       else if HasRoom(x) then
         y.queue == x.queue + [m] && y.got == x.got && Alerted(x, y)
       else
         && y.queue == x.queue && y.got == x.got && Alerted(x, y)
         && a.Some? && a.value in L(k', Senders(t)) && T(k', a.value).wait == Buffer(m)
         && !OnRunqueue(T(k', a.value).status)
  }

  lemma ArrivedStays(k: Core, k1: Core, k2: Core, a: Option<Tid>, t: Tid, m: Msg)
    requires Arrived(k, k1, a, t, m) && (forall l {:trigger L(k2, l)} :: L(k2, l) == L(k1, l))
    requires forall u: Tid {:trigger T(k2, u)} :: Keeps(T(k1, u), T(k2, u))
    ensures Arrived(k, k2, a, t, m)
  {
  }

  /** What the sender does to its own record first makes no difference. */
  lemma ArrivedFrom(k0: Core, k: Core, k': Core, a: Option<Tid>, t: Tid, m: Msg)
    requires Arrived(k, k', a, t, m) && T(k, t) == T(k0, t)
    requires forall u: Tid {:trigger T(k, u)} :: Some(u) != a ==> T(k, u) == T(k0, u)
    ensures Arrived(k0, k', a, t, m)
  {
    forall u: Tid | u != t && Some(u) != a ensures Aside(T(k0, u), T(k', u)) { assert T(k, u) == T(k0, u); }
  }

  // ---------------------------------------------------------------- _msg_send

  lemma CopyArrives(k: Core, a: Option<Tid>, t: Tid, m: Msg)
    requires t < |k.ts| && T(k, t).status == ReceiveBlocked && m.from == a && a != Some(t)
    ensures Arrived(k, MarkAnswerable(Deliver(k, t, m), m), a, t, m)
  {
    DeliverEffect(k, t, m);
  }

  lemma QueueArrives(s: State, a: Option<Tid>, t: Tid, m: Msg)
    requires t < |s.k.ts| && T(s.k, t).status != ReceiveBlocked && HasRoom(T(s.k, t))
    ensures var s' := Enqueue(s, t, m); Arrived(s.k, s'.k, a, t, m) && s' == s.(k := s'.k, request := s'.request)
  {
    var k1 := SetT(s.k, t, Queued(T(s.k, t), m));
    RaiseRaises(s.(k := k1), t, MSG_WAITING);
    RaiseKeepsRest(s.(k := k1), t, MSG_WAITING);
  }

  lemma RaiseKeepsRest(s: State, t: Tid, mask: Flags)
    requires t < |s.k.ts|
    ensures var x, y := T(s.k, t), T(RaiseFlags(s, t, mask).k, t);
            y.queue == x.queue && y.sent == x.sent && y.got == x.got
    ensures forall l: ListId {:trigger L(RaiseFlags(s, t, mask).k, l)} :: !l.Rq? ==>
              L(RaiseFlags(s, t, mask).k, l) == L(s.k, l)
  {
    var tcb := WithFlags(T(s.k, t), mask);
    if FlagsSatisfied(tcb) { WakeEffect(SetT(s.k, t, tcb), t, Pending); }
  }

  /** The sender a, off its run queue or about to leave it, joins the senders of t. */
  lemma JoinArrives(k: Core, a: Tid, t: Tid, m: Msg)
    requires (IsHead(k, a) || T(k, a).status == ReplyBlocked) && a < |k.ts| && t < |k.ts| && a != t
    ensures var k' := SendBlock(k, a, t, m);
            && a in L(k', Senders(t)) && T(k', a).wait == Buffer(m) && !OnRunqueue(T(k', a).status)
            && T(k', t) == T(k, t).(sent := T(k, t).sent + [m])
            && T(k', a).status == (if T(k, a).status == ReplyBlocked then ReplyBlocked else SendBlocked)
            && T(k', a).todo == T(k, a).todo
            && forall u: Tid {:trigger T(k', u)} :: u != t && u != a ==> T(k', u) == T(k, u)
  {
    var status := if T(k, a).status == ReplyBlocked then ReplyBlocked else SendBlocked;
    var k1 := Park(k, a, Buffer(m));
    JoinerParks(k, a, m, status);
    InsertAdds(SetStatus(k1, a, status), L(SetStatus(k1, a, status), Senders(t)), a);
  }

  lemma JoinerParks(k: Core, a: Tid, m: Msg, status: Status)
    requires a < |k.ts| && (IsHead(k, a) || T(k, a).status == ReplyBlocked)
    requires status == (if T(k, a).status == ReplyBlocked then ReplyBlocked else SendBlocked)
    ensures var k' := SetStatus(Park(k, a, Buffer(m)), a, status);
            && |k'.ts| == |k.ts| && T(k', a).wait == Buffer(m) && T(k', a).status == status
            && T(k', a).todo == T(k, a).todo
            && forall u: Tid {:trigger T(k', u)} :: u != a ==> T(k', u) == T(k, u)
  {
    if T(k, a).status != ReplyBlocked { BlockEffect(Park(k, a, Buffer(m)), a, status); }
  }

  lemma BlockArrives(s: State, a: Tid, t: Tid, m: Msg)
    requires (IsHead(s.k, a) || T(s.k, a).status == ReplyBlocked) && a < |s.k.ts| && t < |s.k.ts| && a != t
    requires T(s.k, t).status != ReceiveBlocked && !HasRoom(T(s.k, t))
    ensures var s' := RaiseFlags(s.(k := SendBlock(s.k, a, t, m), ret := 1), t, MSG_WAITING);
            && Arrived(s.k, s'.k, Some(a), t, m) && s' == s.(k := s'.k, request := s'.request, ret := 1)
            && T(s'.k, a).status == (if T(s.k, a).status == ReplyBlocked then ReplyBlocked else SendBlocked)
            && Keeps(T(SendBlock(s.k, a, t, m), a), T(s'.k, a))
  {
    var s1 := s.(k := SendBlock(s.k, a, t, m), ret := 1);
    JoinArrives(s.k, a, t, m);
    RaiseRaises(s1, t, MSG_WAITING);
    RaiseKeepsRest(s1, t, MSG_WAITING);
    assert Keeps(T(s1.k, a), T(RaiseFlags(s1, t, MSG_WAITING).k, a));
    BlockedArrived(s.k, s1.k, RaiseFlags(s1, t, MSG_WAITING).k, a, t, m);
  }

  lemma BlockedArrived(k: Core, k1: Core, k2: Core, a: Tid, t: Tid, m: Msg)
    requires a != t && T(k, t).status != ReceiveBlocked && !HasRoom(T(k, t))
    requires a in L(k1, Senders(t)) && T(k1, a).wait == Buffer(m) && !OnRunqueue(T(k1, a).status)
    requires T(k1, t) == T(k, t).(sent := T(k, t).sent + [m])
    requires forall u: Tid {:trigger T(k1, u)} :: u != t && u != a ==> T(k1, u) == T(k, u)
    requires Raised(k1, k2, t, {15}) && L(k2, Senders(t)) == L(k1, Senders(t))
    requires var x, y := T(k1, t), T(k2, t); y.queue == x.queue && y.sent == x.sent && y.got == x.got
    ensures Arrived(k, k2, Some(a), t, m)
  {
    forall u: Tid | u != t && u != a ensures Aside(T(k, u), T(k2, u)) { assert T(k1, u) == T(k, u); }
  }

  /** _msg_send refuses the message exactly if it may not block and the target neither waits nor has
      room; otherwise the message arrives. */
  lemma MsgSendArrives(s: State, a: Tid, t: Tid, m: Msg, block: bool)
    requires (IsHead(s.k, a) || T(s.k, a).status == ReplyBlocked) && a < |s.k.ts| && t < |s.k.ts| && a != t
    requires m.from == Some(a)
    ensures var s' := MsgSend(s, a, t, m, block);
            if T(s.k, t).status != ReceiveBlocked && !HasRoom(T(s.k, t)) && !block then s' == s.(ret := 0)
            else s' == s.(k := s'.k, request := s'.request, ret := 1) && Arrived(s.k, s'.k, Some(a), t, m)
  {
    if T(s.k, t).status == ReceiveBlocked {
      SendCopyArrives(s, a, t, m, block);
    } else if HasRoom(T(s.k, t)) {
      SendQueueArrives(s, a, t, m, block);
    } else if block {
      SendBlockArrives(s, a, t, m);
    }
  }

  lemma ThenArrives(s: State, s1: State, act: Act, a: Option<Tid>, t: Tid, m: Msg)
    requires Arrived(s.k, s1.k, a, t, m) && s1 == s.(k := s1.k, request := s1.request, ret := 1)
    ensures var s' := Then(s1, act);
            s' == s.(k := s'.k, request := s'.request, ret := 1) && Arrived(s.k, s'.k, a, t, m)
  {
    ThenKeeps(s1, act);
    ArrivedStays(s.k, s1.k, Then(s1, act).k, a, t, m);
  }

  lemma SendCopyArrives(s: State, a: Tid, t: Tid, m: Msg, block: bool)
    requires t < |s.k.ts| && a != t && m.from == Some(a) && T(s.k, t).status == ReceiveBlocked
    ensures var s' := MsgSend(s, a, t, m, block);
            s' == s.(k := s'.k, request := s'.request, ret := 1) && Arrived(s.k, s'.k, Some(a), t, m)
  {
    CopyArrives(s.k, Some(a), t, m);
    ThenArrives(s, s.(k := MarkAnswerable(Deliver(s.k, t, m), m), ret := 1), Yield, Some(a), t, m);
  }

  lemma SendQueueArrives(s: State, a: Tid, t: Tid, m: Msg, block: bool)
    requires t < |s.k.ts| && a != t && T(s.k, t).status != ReceiveBlocked && HasRoom(T(s.k, t))
    ensures var s' := MsgSend(s, a, t, m, block);
            s' == s.(k := s'.k, request := s'.request, ret := 1) && Arrived(s.k, s'.k, Some(a), t, m)
  {
    QueueArrives(s.(ret := 1), Some(a), t, m);
    ThenArrives(s, Enqueue(s.(ret := 1), t, m), SwitchIfRequested, Some(a), t, m);
  }

  lemma SendBlockArrives(s: State, a: Tid, t: Tid, m: Msg)
    requires (IsHead(s.k, a) || T(s.k, a).status == ReplyBlocked) && a < |s.k.ts| && t < |s.k.ts| && a != t
    requires T(s.k, t).status != ReceiveBlocked && !HasRoom(T(s.k, t))
    ensures var s' := MsgSend(s, a, t, m, true);
            s' == s.(k := s'.k, request := s'.request, ret := 1) && Arrived(s.k, s'.k, Some(a), t, m)
  {
    BlockArrives(s, a, t, m);
    ThenArrives(s, RaiseFlags(s.(k := SendBlock(s.k, a, t, m), ret := 1), t, MSG_WAITING), Yield, Some(a), t, m);
  }

  // ---------------------------------------------------------------- the calls that send

  /** The message a thread or, without one, an interrupt handler sends: its value, and its sender. */
  predicate IsSentBy(s: State, m: Msg, value: int, from: Option<Tid>) {
    m.value == value && m.from == from && m.sender == if from.Some? then T(s.k, from.value).pid else PID_ISR
  }

  /** The call reports 1, and a message with this value and sender has arrived; it touches nothing else. */
  ghost predicate Sends(s: State, s': State, t: Tid, value: int, from: Option<Tid>) {
    && s' == s.(k := s'.k, request := s'.request, ret := 1)
    && exists m :: IsSentBy(s, m, value, from) && Arrived(s.k, s'.k, from, t, m)
  }

  /** The call reports r, and changes no thread and no list. */
  ghost predicate OnlyReports(s: State, s': State, r: int) {
    && s' == s.(k := s'.k, ret := r) && s'.k.ts == s.k.ts && forall l :: L(s'.k, l) == L(s.k, l)
  }

  /** msg_send and msg_try_send return -1 exactly without a target and 0 exactly if the target has no room
      and they may not wait, as a thread never does for its own queue; else they return 1, and the
      message of the caller has arrived. */
  lemma SendAnswers(s: State, pid: nat, value: int, block: bool)
    requires Reachable(s) && Calling(s)
    ensures var s' := Step(s, ForMsg(DoSend(pid, value, block)));
            match Lookup(s, pid)
            case None => OnlyReports(s, s', -1)
            case Some(t) =>
              if T(s.k, t).status != ReceiveBlocked && !HasRoom(T(s.k, t)) && (!block || pid == s.activePid)
              then OnlyReports(s, s', 0)
              else Sends(s, s', t, value, s.active)
  {
    hide Inv, Sends, OnlyReports, Send;
    ReachableOk(s);
    ActivePid(s);
    SenderIs(s);
    if Lookup(s, pid).None? {
      SendFindsNobody(s, s.active.value, pid, value, block);
    } else if pid == s.activePid {
      SelfSendArrives(s, s.active.value, value, block);
    } else if Lookup(s, pid).Some? {
      OtherSendArrives(s, s.active.value, pid, value, block);
    }
  }

  lemma SenderIs(s: State)
    requires Inv(s) && Calling(s)
    ensures var a := s.active.value;
            IsHead(s.k, a) && T(s.k, a).todo == [] && T(s.k, a).status != ReceiveBlocked && T(s.k, a).pid == s.activePid
  {
    CallerIsSettled(s);
  }

  lemma SendFindsNobody(s: State, a: Tid, pid: nat, value: int, block: bool)
    requires Lookup(s, pid) == None && pid != s.activePid
    ensures OnlyReports(s, Send(s, a, pid, value, block), -1)
  {
  }

  lemma SelfSendArrives(s: State, a: Tid, value: int, block: bool)
    requires a < |s.k.ts| && T(s.k, a).status != ReceiveBlocked && T(s.k, a).pid == s.activePid
    ensures var s' := Send(s, a, s.activePid, value, block);
            if HasRoom(T(s.k, a)) then Sends(s, s', a, value, Some(a)) else OnlyReports(s, s', 0)
  {
    if HasRoom(T(s.k, a)) {
      var b := s.(k := Tick(s.k), ret := 1);
      var m := Msg(s.activePid, value, Some(a), s.k.clock);
      QueueArrives(b, Some(a), a, m);
      ArrivedFrom(s.k, b.k, Enqueue(b, a, m).k, Some(a), a, m);
      assert IsSentBy(s, m, value, Some(a));
    }
  }

  lemma OtherSendArrives(s: State, a: Tid, pid: nat, value: int, block: bool)
    requires Inv(s) && IsHead(s.k, a) && T(s.k, a).pid == s.activePid && pid != s.activePid && Lookup(s, pid).Some?
    ensures var s' := Send(s, a, pid, value, block); var t := Lookup(s, pid).value;
            if T(s.k, t).status != ReceiveBlocked && !HasRoom(T(s.k, t)) && !block then OnlyReports(s, s', 0)
            else Sends(s, s', t, value, Some(a))
  {
    LookupFinds(s, pid);
    StampedArrives(s, a, Lookup(s, pid).value, value, block);
  }

  lemma StampedArrives(s: State, a: Tid, t: Tid, value: int, block: bool)
    requires IsHead(s.k, a) && T(s.k, a).pid == s.activePid && t < |s.k.ts| && a != t
    ensures var s' := MsgSend(s.(k := Tick(s.k)), a, t, Msg(s.activePid, value, Some(a), s.k.clock), block);
            if T(s.k, t).status != ReceiveBlocked && !HasRoom(T(s.k, t)) && !block then OnlyReports(s, s', 0)
            else Sends(s, s', t, value, Some(a))
  {
    hide MsgSend;
    var b, m := s.(k := Tick(s.k)), Msg(s.activePid, value, Some(a), s.k.clock);
    TickedSame(s);
    MsgSendArrives(b, a, t, m, block);
    if T(s.k, t).status == ReceiveBlocked || HasRoom(T(s.k, t)) || block {
      ArrivedFrom(s.k, b.k, MsgSend(b, a, t, m, block).k, Some(a), t, m);
      assert IsSentBy(s, m, value, Some(a));
    }
  }

  lemma TickedSame(s: State)
    ensures var k := Tick(s.k);
            && |k.ts| == |s.k.ts| && (forall t: Tid {:trigger T(k, t)} :: T(k, t) == T(s.k, t))
            && forall l {:trigger L(k, l)} :: L(k, l) == L(s.k, l)
  {
  }

  /** msg_send_int returns the same, for a message from an interrupt handler, which never waits. */
  lemma SendIntAnswers(s: State, pid: nat, value: int)
    requires Reachable(s) && s.isr
    ensures var s' := Step(s, ForMsg(DoSendInt(pid, value)));
            match Lookup(s, pid)
            case None => OnlyReports(s, s', -1)
            case Some(t) =>
              if T(s.k, t).status != ReceiveBlocked && !HasRoom(T(s.k, t)) then OnlyReports(s, s', 0)
              else Sends(s, s', t, value, None)
  {
    hide Inv;
    ReachableOk(s);
    if Lookup(s, pid).Some? { IntSendArrives(s, pid, value); }
  }

  lemma IntSendArrives(s: State, pid: nat, value: int)
    requires Inv(s) && Lookup(s, pid).Some?
    ensures var s' := SendInt(s, pid, value); var t := Lookup(s, pid).value;
            if T(s.k, t).status != ReceiveBlocked && !HasRoom(T(s.k, t)) then OnlyReports(s, s', 0)
            else Sends(s, s', t, value, None)
  {
    LookupFinds(s, pid);
    if T(s.k, Lookup(s, pid).value).status == ReceiveBlocked {
      IntCopyArrives(s, pid, Lookup(s, pid).value, value);
    } else if HasRoom(T(s.k, Lookup(s, pid).value)) {
      IntQueueArrives(s, pid, Lookup(s, pid).value, value);
    }
  }

  lemma IntCopyArrives(s: State, pid: nat, t: Tid, value: int)
    requires Lookup(s, pid) == Some(t) && t < |s.k.ts| && T(s.k, t).status == ReceiveBlocked
    ensures Sends(s, SendInt(s, pid, value), t, value, None)
  {
    var b, m := s.(k := Tick(s.k)), Msg(PID_ISR, value, None, s.k.clock);
    assert forall u :: T(b.k, u) == T(s.k, u);
    CopyArrives(b.k, None, t, m);
    ArrivedFrom(s.k, b.k, Deliver(b.k, t, m), None, t, m);
    assert IsSentBy(s, m, value, None);
  }

  lemma IntQueueArrives(s: State, pid: nat, t: Tid, value: int)
    requires Lookup(s, pid) == Some(t) && t < |s.k.ts| && T(s.k, t).status != ReceiveBlocked && HasRoom(T(s.k, t))
    ensures Sends(s, SendInt(s, pid, value), t, value, None)
  {
    var b, m := s.(k := Tick(s.k), ret := 1), Msg(PID_ISR, value, None, s.k.clock);
    QueueArrives(b, None, t, m);
    ArrivedFrom(s.k, b.k, Enqueue(b, t, m).k, None, t, m);
    assert IsSentBy(s, m, value, None);
  }

  /** msg_send_receive sends its message as msg_send does, and leaves the caller waiting for a reply, with
      the message in its own buffer too. */
  lemma SendReceiveAnswers(s: State, pid: nat, value: int)
    requires Reachable(s) && MsgEnabled(s, DoSendReceive(pid, value))
    ensures var s' := Step(s, ForMsg(DoSendReceive(pid, value))); var a := s.active.value;
            && Sends(s, s', Lookup(s, pid).value, value, Some(a))
            && T(s'.k, a).status == ReplyBlocked && T(s'.k, a).wait.Buffer? && T(s'.k, a).todo != []
            && End(T(s'.k, a)) == Replied && T(s'.k, a).answer == None
            && IsSentBy(s, T(s'.k, a).wait.msg, value, Some(a))
  {
    hide Inv, Sends, SendReceive;
    ReachableOk(s);
    RequestArrives(s, s.active.value, pid, value);
  }

  /** The record of a thread that asks. */
  predicate AwaitsReply(x: Tcb, m: Msg) {
    x.status == ReplyBlocked && x.wait == Buffer(m) && x.todo != [] && End(x) == Replied && x.answer == None
  }

  lemma RequestArrives(s: State, a: Tid, pid: nat, value: int)
    requires Inv(s) && Calling(s) && s.active == Some(a) && pid != s.activePid && Lookup(s, pid).Some?
    ensures var s' := SendReceive(s, a, pid, value); var m := Msg(s.activePid, value, Some(a), s.k.clock);
            && Sends(s, s', Lookup(s, pid).value, value, Some(a)) && AwaitsReply(T(s'.k, a), m)
            && IsSentBy(s, m, value, Some(a))
  {
    LookupFinds(s, pid);
    SenderIs(s);
    var t, m := Lookup(s, pid).value, Msg(s.activePid, value, Some(a), s.k.clock);
    var b := s.(k := Owe(Ask(s.k, a, m), a, [Replied]));
    AskerIs(s.k, a, m);
    MsgSendArrives(b, a, t, m, true);
    ArrivedFrom(s.k, b.k, MsgSend(b, a, t, m, true).k, Some(a), t, m);
    AskerWaits(b, a, t, m);
    assert IsSentBy(s, m, value, Some(a));
  }

  lemma AskerIs(k: Core, a: Tid, m: Msg)
    requires IsHead(k, a) && T(k, a).todo == []
    ensures var k' := Owe(Ask(k, a, m), a, [Replied]);
            && |k'.ts| == |k.ts| && AwaitsReply(T(k', a), m) && T(k', a).todo == [Replied] && T(k', a).mail == None
            && forall u: Tid {:trigger T(k', u)} :: u != a ==> T(k', u) == T(k, u)
  {
    BlockEffect(Tick(k), a, ReplyBlocked);
    assert [Replied] + [] == [Replied];
  }

  lemma AskerWaits(b: State, a: Tid, t: Tid, m: Msg)
    requires a < |b.k.ts| && t < |b.k.ts| && a != t && AwaitsReply(T(b.k, a), m) && T(b.k, a).mail == None
    ensures AwaitsReply(T(MsgSend(b, a, t, m, true).k, a), m)
  {
    if T(b.k, t).status == ReceiveBlocked {
      AskerCopies(b, a, t, m);
    } else if HasRoom(T(b.k, t)) {
      AskerQueues(b, a, t, m);
    } else {
      AskerBlocks(b, a, t, m);
    }
  }

  lemma AskerOwes(s: State, act: Act, a: Tid, m: Msg)
    requires AwaitsReply(T(s.k, a), m)
    ensures AwaitsReply(T(Then(s, act).k, a), m)
  {
    assert End(T(s.k, a)) == End(T(s.k, a).(todo := [act] + T(s.k, a).todo));
  }

  lemma AskerCopies(b: State, a: Tid, t: Tid, m: Msg)
    requires t < |b.k.ts| && a != t && AwaitsReply(T(b.k, a), m) && T(b.k, t).status == ReceiveBlocked
    ensures AwaitsReply(T(MsgSend(b, a, t, m, true).k, a), m)
  {
    DeliverEffect(b.k, t, m);
    AskerOwes(b.(k := MarkAnswerable(Deliver(b.k, t, m), m), ret := 1), Yield, a, m);
  }

  lemma AskerQueues(b: State, a: Tid, t: Tid, m: Msg)
    requires t < |b.k.ts| && a != t && AwaitsReply(T(b.k, a), m)
    requires T(b.k, t).status != ReceiveBlocked && HasRoom(T(b.k, t))
    ensures AwaitsReply(T(MsgSend(b, a, t, m, true).k, a), m)
  {
    var k1 := SetT(b.k, t, Queued(T(b.k, t), m));
    RaiseLeaves(b.(k := k1, ret := 1), t, MSG_WAITING, a);
    AskerOwes(Enqueue(b.(ret := 1), t, m), SwitchIfRequested, a, m);
  }

  lemma RaiseLeaves(s: State, t: Tid, mask: Flags, u: Tid)
    requires t < |s.k.ts| && u != t
    ensures T(RaiseFlags(s, t, mask).k, u) == T(s.k, u)
  {
    var tcb := WithFlags(T(s.k, t), mask);
    if FlagsSatisfied(tcb) { WakeEffect(SetT(s.k, t, tcb), t, Pending); }
  }

  lemma AskerBlocks(b: State, a: Tid, t: Tid, m: Msg)
    requires a < |b.k.ts| && t < |b.k.ts| && a != t && AwaitsReply(T(b.k, a), m) && T(b.k, a).mail == None
    requires T(b.k, t).status != ReceiveBlocked && !HasRoom(T(b.k, t))
    ensures AwaitsReply(T(MsgSend(b, a, t, m, true).k, a), m)
  {
    var s1 := b.(k := SendBlock(b.k, a, t, m), ret := 1);
    SendBlockIsJoin(b.k, a, t, m);
    assert AwaitsReply(T(s1.k, a), m);
    RaiseLeaves(s1, t, MSG_WAITING, a);
    AskerOwes(RaiseFlags(s1, t, MSG_WAITING), Yield, a, m);
  }
}
