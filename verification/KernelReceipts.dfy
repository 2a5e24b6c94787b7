/** What receiving, replying and the calls on mailboxes report and do. */
module KernelReceipts {
  import opened KernelTypes
  import opened KernelSpec
  import opened KernelLinks
  import opened KernelInv
  import opened KernelCore
  import opened KernelMessages
  import opened KernelSched
  import opened KernelState
  import opened KernelSteps
  import opened KernelThreadSteps
  import opened KernelSyncSteps
  import opened KernelMsgSteps
  import opened KernelMboxSteps
  import opened KernelInvariant
  import opened KernelCalls
  import opened KernelDeliveries

  // ---------------------------------------------------------------- msg_receive and msg_try_receive

  /** There is nothing for the thread to receive. */
  predicate NothingFor(k: Core, a: Tid) {
    T(k, a).queue == [] && L(k, Senders(a)) == []
  }

  /** The oldest message for thread a: the first of its queue, or else that of its first waiting sender. */
  predicate IsOldest(k: Core, a: Tid, m: Msg) {
    if T(k, a).queue != [] then m == T(k, a).queue[0]
    else L(k, Senders(a)) != [] && T(k, L(k, Senders(a))[0]).wait == Buffer(m)
  }

  /** a has received the oldest message.  If a sender waits, it leaves the list, and its message goes to
      the slot just freed or, without a queue, to the receiver; the sender is runnable unless it waits
      for a reply. */
  ghost predicate HasReceived(k: Core, k': Core, a: Tid) {
    var q, x, y := L(k, Senders(a)), T(k, a), T(k', a);
    && y.got != [] && x.got == y.got[..|y.got| - 1] && IsOldest(k, a, y.got[|y.got| - 1])
    && L(k', Senders(a)) == (if q == [] then [] else q[1..])
    && (x.queue == [] ==> y.queue == [] && y.wait == Buffer(y.got[|y.got| - 1]))
    && (x.queue != [] ==> y.wait == x.wait)
    && (x.queue != [] && q == [] ==> y.queue == x.queue[1..])
    && (x.queue != [] && q != [] ==> T(k, q[0]).wait.Buffer? && y.queue == x.queue[1..] + [T(k, q[0]).wait.msg])
    && (q != [] && T(k, q[0]).status != ReplyBlocked ==> OnRunqueue(T(k', q[0]).status))
    && (q != [] && T(k, q[0]).status == ReplyBlocked ==>
          T(k', q[0]).status == ReplyBlocked && T(k', q[0]).loc == None && T(k', q[0]).wait == T(k, q[0]).wait)
    && forall u: Tid {:trigger T(k', u)} :: u != a && (q == [] || u != q[0]) ==> Aside(T(k, u), T(k', u))
  }

  /** Receiving returns -1 exactly if there is nothing to receive and it may not block; it blocks exactly
      if there is nothing and it may; else it takes the oldest message and returns 1. */
  lemma ReceiveAnswers(s: State, block: bool)
    requires Reachable(s) && Calling(s)
    ensures var s' := Step(s, ForMsg(DoReceive(block))); var a := s.active.value;
            if NothingFor(s.k, a) && !block then s' == s.(ret := -1)
            else if NothingFor(s.k, a) then
              && T(s'.k, a).status == ReceiveBlocked && T(s'.k, a).todo == [Yield, Received]
              && T(s'.k, a).got == T(s.k, a).got && OthersKeep(s.k, s'.k, a) && s' == s.(k := s'.k, ret := s'.ret)
            else s' == s.(k := s'.k, request := s'.request, ret := 1) && HasReceived(s.k, s'.k, a)
  {
    hide HasReceived;
    ReachableOk(s);
    CallerIsSettled(s);
    if !NothingFor(s.k, s.active.value) {
      ReceiveTakes(s, s.active.value, block);
    } else if block {
      ReceiverWaits(s.k, s.active.value);
    }
  }

  lemma ReceiverWaits(k: Core, a: Tid)
    requires MayBlock(k, a)
    ensures var k' := ReceiveBlock(k, a);
            && T(k', a).status == ReceiveBlocked && T(k', a).todo == [Yield, Received]
            && T(k', a).got == T(k, a).got && OthersKeep(k, k', a)
  {
    BlockEffect(Park(k, a, Buffer(NO_MSG)), a, ReceiveBlocked);
    assert [Yield, Received] + [] == [Yield, Received];
  }

  lemma ReceiveTakes(s: State, a: Tid, block: bool)
    requires Inv(s) && MayBlock(s.k, a) && !NothingFor(s.k, a)
    ensures var s' := Receive(s, a, block);
            s' == s.(k := s'.k, request := s'.request, ret := 1) && HasReceived(s.k, s'.k, a)
  {
    if L(s.k, Senders(a)) == [] {
      QueueGives(s.k, a);
    } else {
      UnloadGives(s.k, a);
      ReceiveFinishes(s, a, block);
    }
  }

  lemma QueueGives(k: Core, a: Tid)
    requires MayBlock(k, a) && T(k, a).queue != [] && L(k, Senders(a)) == []
    ensures HasReceived(k, TakeQueued(k, a), a)
  {
    TakeQueuedEffect(k, a);
    var x := T(k, a);
    assert (x.got + [x.queue[0]])[..|x.got|] == x.got;
  }

  lemma ReceiveFinishes(s: State, a: Tid, block: bool)
    requires L(s.k, Senders(a)) != [] && HasReceived(s.k, Unloaded(s.k, a), a)
    ensures var s' := Receive(s, a, block);
            s' == s.(k := s'.k, request := s'.request, ret := 1) && HasReceived(s.k, s'.k, a)
  {
    var s1 := s.(k := Unloaded(s.k, a), ret := 1);
    ReceiveWaitingIs(s, s1, a, block);
    ThenKeeps(s1, Switch(ReleasedPrio(s.k, a)));
    ReceivedStays(s.k, s1.k, Then(s1, Switch(ReleasedPrio(s.k, a))).k, a);
  }

  lemma ReceivedStays(k: Core, k1: Core, k2: Core, a: Tid)
    requires HasReceived(k, k1, a) && (forall l {:trigger L(k2, l)} :: L(k2, l) == L(k1, l))
    requires forall u: Tid {:trigger T(k2, u)} :: Keeps(T(k1, u), T(k2, u))
    ensures HasReceived(k, k2, a)
  {
  }

  /** With senders waiting. */
  lemma UnloadGives(k: Core, a: Tid)
    requires CoreOk(k) && MayBlock(k, a) && L(k, Senders(a)) != []
    ensures HasReceived(k, Unloaded(k, a), a)
  {
    ReadyAfterQueue(k, a);
    SenderBuffer(k, a);
    if T(k, a).queue != [] {
      UnloadToQueue(k, a, L(k, Senders(a))[0]);
    } else {
      UnloadToReceiver(k, a, L(k, Senders(a))[0]);
    }
  }

  lemma SenderBuffer(k: Core, a: Tid)
    requires CoreOk(k) && L(k, Senders(a)) != []
    ensures var x := L(k, Senders(a))[0];
            && x < |k.ts| && T(k, x).wait.Buffer? && (T(k, x).status == SendBlocked || T(k, x).status == ReplyBlocked)
  {
    var x := L(k, Senders(a))[0];
    WaitersBlocked(k, Senders(a), x);
    assert ListOk(k, Senders(a)) && OwnOk(x, T(k, x)) && StatusFits(T(k, x));
  }

  /** The sender's part: off the list, and runnable unless it waits for a reply. */
  lemma SenderGoes(k: Core, k1: Core, a: Tid, x: Tid)
    requires x < |k.ts| && x != a && |k1.ts| == |k.ts|
    requires T(k1, x) == T(k, x).(loc := None, answerable := T(k1, x).answerable)
    requires T(k, x).status == SendBlocked || T(k, x).status == ReplyBlocked
    ensures var k2 := ReleaseSender(k1, x);
            && (T(k, x).status != ReplyBlocked ==> OnRunqueue(T(k2, x).status))
            && (T(k, x).status == ReplyBlocked ==> T(k2, x) == T(k1, x))
            && L(k2, Senders(a)) == L(k1, Senders(a))
            && forall u: Tid {:trigger T(k2, u)} :: u != x ==> T(k2, u) == T(k1, u)
  {
    if T(k, x).status != ReplyBlocked { WakeEffect(SetT(k1, x, T(k1, x).(wait := NoData)), x, Pending); }
  }

  lemma UnloadToQueue(k: Core, a: Tid, x: Tid)
    requires MayBlock(k, a) && L(k, Senders(a)) != [] && x == L(k, Senders(a))[0] && x != a && x < |k.ts|
    requires T(k, a).queue != [] && T(k, x).wait.Buffer?
    requires T(k, x).status == SendBlocked || T(k, x).status == ReplyBlocked
    ensures HasReceived(k, Unloaded(k, a), a)
  {
    var k1 := TakeQueued(k, a);
    TakeQueuedEffect(k, a);
    var k2 := Refill(RemoveHead(k1, Senders(a)), a, T(k, x).wait.msg);
    RefillGives(k, k1, a, x, T(k, x).wait.msg);
    SenderGoes(k, k2, a, x);
    assert Unloaded(k, a) == ReleaseSender(k2, x);
  }

  lemma RefillGives(k: Core, k1: Core, a: Tid, x: Tid, m: Msg)
    requires |k1.ts| == |k.ts| && a < |k.ts| && x != a && L(k1, Senders(a)) == L(k, Senders(a)) != []
    requires x == L(k, Senders(a))[0] && T(k, a).queue != [] && T(k1, a) == Taken(T(k, a))
    requires forall u: Tid {:trigger T(k1, u)} :: u != a ==> T(k1, u) == T(k, u).(answerable := T(k1, u).answerable)
    ensures var k2 := Refill(RemoveHead(k1, Senders(a)), a, m); var y := T(k2, a);
            && |k2.ts| == |k.ts| && y.got == T(k, a).got + [T(k, a).queue[0]] && y.got[..|y.got| - 1] == T(k, a).got
            && y.queue == T(k, a).queue[1..] + [m] && y.wait == T(k, a).wait
            && L(k2, Senders(a)) == L(k, Senders(a))[1..]
            && T(k2, x) == T(k, x).(loc := None, answerable := T(k2, x).answerable)
            && forall u: Tid {:trigger T(k2, u)} :: u != a && u != x ==>
                 T(k2, u) == T(k, u).(answerable := T(k2, u).answerable)
  {
    var k2 := Refill(RemoveHead(k1, Senders(a)), a, m);
    forall u: Tid | u != a
      ensures T(k2, u) == T(k, u).(loc := if u == x then None else T(k, u).loc, answerable := T(k2, u).answerable)
    {
      assert T(k1, u) == T(k, u).(answerable := T(k1, u).answerable);
    }
    assert T(k2, a).got[..|T(k2, a).got| - 1] == T(k, a).got;
  }

  lemma UnloadToReceiver(k: Core, a: Tid, x: Tid)
    requires MayBlock(k, a) && L(k, Senders(a)) != [] && x == L(k, Senders(a))[0] && x != a && x < |k.ts|
    requires T(k, a).queue == [] && T(k, x).wait.Buffer?
    requires T(k, x).status == SendBlocked || T(k, x).status == ReplyBlocked
    ensures HasReceived(k, Unloaded(k, a), a)
  {
    var m := T(k, x).wait.msg;
    var k2 := Accept(RemoveHead(k, Senders(a)), a, m);
    AcceptGives(RemoveHead(k, Senders(a)), a, m);
    SenderGoes(k, k2, a, x);
    assert Unloaded(k, a) == ReleaseSender(k2, x);
    assert (T(k, a).got + [m])[..|T(k, a).got|] == T(k, a).got;
  }

  lemma AcceptGives(k: Core, a: Tid, m: Msg)
    requires a < |k.ts| && T(k, a).status != ReplyBlocked
    ensures var k' := Accept(k, a, m); var y := T(k', a);
            && |k'.ts| == |k.ts| && y.got == T(k, a).got + [m] && y.wait == Buffer(m) && y.queue == T(k, a).queue
            && (forall u: Tid {:trigger T(k', u)} :: u != a ==> T(k', u) == T(k, u).(answerable := T(k', u).answerable))
            && forall l {:trigger L(k', l)} :: L(k', l) == L(k, l)
  {
  }

  // ---------------------------------------------------------------- msg_reply and msg_init_queue

  /** msg_reply returns 1 exactly if the target waits for a reply, which is then in its buffer, and the
      target is runnable; otherwise it returns -1 and changes nothing. */
  lemma ReplyAnswers(s: State, pid: nat, reply: Msg)
    requires Reachable(s) && MsgEnabled(s, DoReply(pid, reply))
    ensures var s' := Step(s, ForMsg(DoReply(pid, reply))); var t := Lookup(s, pid).value;
            if T(s.k, t).status != ReplyBlocked then s' == s.(ret := -1)
            else
              && s' == s.(k := s'.k, request := s'.request, ret := 1) && OthersKeep(s.k, s'.k, t)
              && OnRunqueue(T(s'.k, t).status) && T(s'.k, t).wait == Buffer(reply)
              && t in L(s'.k, Rq(T(s.k, t).prio))
  {
    hide Inv, Reply;
    ReachableOk(s);
    if T(s.k, Lookup(s, pid).value).status == ReplyBlocked {
      ReplyGives(s, pid, reply);
    } else {
      ReplyFails(s, pid, reply);
    }
  }

  lemma ReplyFails(s: State, pid: nat, reply: Msg)
    requires Lookup(s, pid).Some? && T(s.k, Lookup(s, pid).value).status != ReplyBlocked
    ensures Reply(s, pid, reply) == s.(ret := -1)
  {
  }

  lemma ReplyGives(s: State, pid: nat, reply: Msg)
    requires Inv(s) && Lookup(s, pid).Some? && T(s.k, Lookup(s, pid).value).status == ReplyBlocked
    ensures var s' := Reply(s, pid, reply); var t := Lookup(s, pid).value;
            && s' == s.(k := s'.k, request := s'.request, ret := 1) && OthersKeep(s.k, s'.k, t)
            && OnRunqueue(T(s'.k, t).status) && T(s'.k, t).wait == Buffer(reply)
            && t in L(s'.k, Rq(T(s.k, t).prio))
  {
    LookupFinds(s, pid);
    var t := Lookup(s, pid).value;
    var k1 := SetT(s.k, t, T(s.k, t).(wait := Buffer(reply), answer := Some(reply)));
    WakeEffect(k1, t, Pending);
    WokenIsListed(k1, t, Pending);
    ThenKeeps(s.(k := Answer(s.k, t, reply), ret := 1), Switch(T(s.k, t).prio));
  }

  /** msg_init_queue gives the caller an empty queue of that size. */
  lemma QueueStarts(s: State, cap: nat)
    requires Reachable(s) && MsgEnabled(s, DoInitQueue(cap))
    ensures var s' := Step(s, ForMsg(DoInitQueue(cap))); var a := s.active.value;
            && T(s'.k, a) == T(s.k, a).(cap := cap, queue := []) && s' == s.(k := s'.k)
            && (forall u: Tid :: u != a ==> T(s'.k, u) == T(s.k, u)) && forall l :: L(s'.k, l) == L(s.k, l)
  {
    ReachableOk(s);
    CallerIsSettled(s);
  }

  // ---------------------------------------------------------------- mailboxes

  /** The caller waits for the mailbox, and will go on with `end`. */
  ghost predicate WaitsAt(s: State, s': State, l: ListId, end: Act) {
    s.active.Some? &&
    var a := s.active.value;
    && T(s'.k, a).status == MboxBlocked && a in L(s'.k, l) && T(s'.k, a).todo == [YieldRoundRobin, end]
    && OthersKeep(s.k, s'.k, a)
  }

  /** A thread that waited first on the list, if there is one, is runnable and off the list. */
  ghost predicate FirstGoes(k: Core, k': Core, l: ListId) {
    if L(k, l) == [] then
      L(k', l) == [] && forall u: Tid {:trigger T(k', u)} :: Keeps(T(k, u), T(k', u))
    else
      L(k', l) == L(k, l)[1..] && OnRunqueue(T(k', L(k, l)[0]).status) && OthersKeep(k, k', L(k, l)[0])
  }

  /** The call touches this mailbox, and no other. */
  ghost predicate OnlyMbox(s: State, s': State, b: nat) {
    && b in s'.mboxes && s'.mboxes == s.mboxes[b := s'.mboxes[b]]
    && (b in s.mboxes ==> s'.mboxes[b].cap == s.mboxes[b].cap)
  }

  /** A put returns 1 exactly if it hands its message to the first reader, or stores it at the end of the
      ring, and 0 with nothing changed if the ring is full and it may not block; else it waits. */
  lemma PutAnswers(s: State, b: nat, value: int, blocking: bool)
    requires Reachable(s) && MboxEnabled(s, if blocking then DoPut(b, value) else DoTryPut(b, value))
    ensures var s' := Step(s, ForMbox(if blocking then DoPut(b, value) else DoTryPut(b, value))); var mb := s.mboxes[b];
            var readers := L(s.k, Readers(b)); var from := if s.isr then None else s.active;
            && OnlyMbox(s, s', b)
            && (s'.ret == 1 <==> readers != [] || |mb.ring| < mb.cap)
            && (readers != [] ==>
                  && s'.mboxes[b].ring == mb.ring && FirstGoes(s.k, s'.k, Readers(b))
                  && T(s'.k, readers[0]).wait == Buffer(Msg(0, value, from, s.k.clock)))
            && (readers == [] && |mb.ring| < mb.cap ==>
                  && s'.mboxes[b].ring == mb.ring + [Msg(s.activePid, value, from, s.k.clock)] && s'.k.ts == s.k.ts
                  && forall l :: L(s'.k, l) == L(s.k, l))
            && (readers == [] && |mb.ring| >= mb.cap && !blocking ==> s' == s.(ret := 0))
            && (readers == [] && |mb.ring| >= mb.cap && blocking ==>
                  s'.mboxes[b].ring == mb.ring && WaitsAt(s, s', Writers(b), RetryPut(b, value)))
  {
    hide WaitsAt, FirstGoes, OnlyMbox, MboxPut, Inv;
    ReachableOk(s);
    if L(s.k, Readers(b)) != [] {
      PutHandsOver(s, b, value, blocking);
    } else if |s.mboxes[b].ring| < s.mboxes[b].cap {
      PutStores(s, b, value, blocking);
    } else if blocking {
      PutWaits(s, b, value);
    } else {
      PutRefuses(s, b, value);
    }
  }

  lemma PutHandsOver(s: State, b: nat, value: int, blocking: bool)
    requires Inv(s) && b in s.mboxes && L(s.k, Readers(b)) != []
    ensures var s' := MboxPut(s, b, value, blocking); var readers := L(s.k, Readers(b));
            var from := if s.isr then None else s.active;
            && s'.ret == 1 && OnlyMbox(s, s', b) && s'.mboxes[b].ring == s.mboxes[b].ring
            && FirstGoes(s.k, s'.k, Readers(b))
            && T(s'.k, readers[0]).wait == Buffer(Msg(0, value, from, s.k.clock))
  {
    var t, m := L(s.k, Readers(b))[0], Msg(0, value, if s.isr then None else s.active, s.k.clock);
    HandOverEffect(s.k, b, m);
    ThenKeeps(s.(k := HandOver(s.k, b, m), mboxes := s.mboxes[b := Passed(s.mboxes[b], m, t)], ret := 1),
      Switch(T(s.k, t).prio));
  }

  lemma PutStores(s: State, b: nat, value: int, blocking: bool)
    requires b in s.mboxes && L(s.k, Readers(b)) == [] && |s.mboxes[b].ring| < s.mboxes[b].cap
    ensures var s' := MboxPut(s, b, value, blocking); var from := if s.isr then None else s.active;
            && s'.ret == 1 && OnlyMbox(s, s', b)
            && s'.mboxes[b].ring == s.mboxes[b].ring + [Msg(s.activePid, value, from, s.k.clock)]
            && s'.k.ts == s.k.ts && forall l :: L(s'.k, l) == L(s.k, l)
  {
  }

  lemma PutRefuses(s: State, b: nat, value: int)
    requires b in s.mboxes && L(s.k, Readers(b)) == [] && |s.mboxes[b].ring| >= s.mboxes[b].cap
    ensures MboxPut(s, b, value, false) == s.(ret := 0) && OnlyMbox(s, s.(ret := 0), b)
  {
    assert s.mboxes[b := s.mboxes[b]] == s.mboxes;
  }

  lemma PutWaits(s: State, b: nat, value: int)
    requires Inv(s) && Calling(s) && b in s.mboxes && L(s.k, Readers(b)) == []
    requires |s.mboxes[b].ring| >= s.mboxes[b].cap
    ensures var s' := MboxPut(s, b, value, true);
            && s'.ret == 0 && OnlyMbox(s, s', b) && s'.mboxes[b].ring == s.mboxes[b].ring
            && WaitsAt(s, s', Writers(b), RetryPut(b, value))
  {
    CallerIsSettled(s);
    WaiterJoins(s.k, s.active.value, Writers(b), RetryPut(b, value));
  }

  lemma WaiterJoins(k: Core, a: Tid, l: ListId, end: Act)
    requires MayBlock(k, a) && !l.Rq?
    ensures var k' := MboxBlock(k, a, l, end);
            && T(k', a).status == MboxBlocked && a in L(k', l) && T(k', a).todo == [YieldRoundRobin, end]
            && OthersKeep(k, k', a)
  {
    EnlistEffect(k, a, MboxBlocked, l);
    InsertAdds(SetStatus(k, a, MboxBlocked), L(SetStatus(k, a, MboxBlocked), l), a);
    assert [YieldRoundRobin, end] + [] == [YieldRoundRobin, end];
  }

  /** A get returns 0 exactly if the ring is empty and it may not block, with nothing changed; a full get
      takes the oldest message of the ring and lets the first writer go; else it waits. */
  lemma GetAnswers(s: State, b: nat, blocking: bool)
    requires Reachable(s) && MboxEnabled(s, if blocking then DoGet(b) else DoTryGet(b))
    ensures var s' := Step(s, ForMbox(if blocking then DoGet(b) else DoTryGet(b))); var mb := s.mboxes[b];
            && OnlyMbox(s, s', b)
            && (s'.ret == 0 <==> mb.ring == [] && !blocking)
            && (mb.ring == [] && !blocking ==> s' == s.(ret := 0))
            && (mb.ring == [] && blocking ==>
                  s'.mboxes[b].ring == [] && WaitsAt(s, s', Readers(b), GotMail(b)))
            && (mb.ring != [] ==>
                  && s'.ret == 1 && s'.mailRet == mb.ring[0] && s'.mboxes[b].ring == mb.ring[1..]
                  && FirstGoes(s.k, s'.k, Writers(b)))
  {
    hide WaitsAt, FirstGoes, OnlyMbox, MboxGet, Inv;
    ReachableOk(s);
    LinksHold(s);
    if s.mboxes[b].ring != [] {
      GetTakes(s, b, blocking);
    } else if blocking {
      GetWaits(s, b);
    } else {
      GetRefuses(s, b);
    }
  }

  lemma LinksHold(s: State)
    requires Inv(s)
    ensures Links(s.k)
  {
  }

  lemma GetRefuses(s: State, b: nat)
    requires b in s.mboxes && s.mboxes[b].ring == []
    ensures MboxGet(s, b, false) == s.(ret := 0) && OnlyMbox(s, s.(ret := 0), b)
  {
    assert s.mboxes[b := s.mboxes[b]] == s.mboxes;
  }

  lemma GetWaits(s: State, b: nat)
    requires Inv(s) && Calling(s) && b in s.mboxes && s.mboxes[b].ring == []
    ensures var s' := MboxGet(s, b, true);
            && s'.ret == 1 && OnlyMbox(s, s', b) && s'.mboxes[b].ring == []
            && WaitsAt(s, s', Readers(b), GotMail(b))
  {
    CallerIsSettled(s);
    assert s.mboxes[b := s.mboxes[b]] == s.mboxes;
    WaiterJoins(Park(s.k, s.active.value, Buffer(NO_MSG)), s.active.value, Readers(b), GotMail(b));
  }

  lemma GetTakes(s: State, b: nat, blocking: bool)
    requires Links(s.k) && b in s.mboxes && s.mboxes[b].ring != []
    ensures var s' := MboxGet(s, b, blocking); var ring := s.mboxes[b].ring;
            && s'.ret == 1 && s'.mailRet == ring[0] && OnlyMbox(s, s', b) && s'.mboxes[b].ring == ring[1..]
            && FirstGoes(s.k, s'.k, Writers(b))
  {
    if L(s.k, Writers(b)) != [] {
      WakeHeadEffect(s.k, Writers(b));
      WakeHeadRest(s.k, Writers(b));
      GetLetsGo(s, b, blocking);
    }
  }

  lemma GetLetsGo(s: State, b: nat, blocking: bool)
    requires b in s.mboxes && s.mboxes[b].ring != [] && L(s.k, Writers(b)) != []
    requires FirstGoes(s.k, WakeHead(s.k, Writers(b)), Writers(b))
    ensures var s' := MboxGet(s, b, blocking); var ring := s.mboxes[b].ring;
            && s'.ret == 1 && s'.mailRet == ring[0] && OnlyMbox(s, s', b) && s'.mboxes[b].ring == ring[1..]
            && FirstGoes(s.k, s'.k, Writers(b))
  {
    var mb := s.mboxes[b];
    ThenKeeps(s.(k := WakeHead(s.k, Writers(b)), mboxes := s.mboxes[b := Emptied(mb, Author(s))], ret := 1,
                 mailRet := mb.ring[0]), Switch(T(s.k, L(s.k, Writers(b))[0]).prio));
  }

  /** A put that waited for room stores its message if there is room now, and waits again if not. */
  lemma RetryAnswers(s: State, a: Tid, b: nat, value: int)
    requires Reachable(s) && MayResume(s, a) && T(s.k, a).todo[0] == RetryPut(b, value)
    ensures b in s.mboxes
    ensures var s' := Step(s, Cpu(Continue)); var mb := s.mboxes[b];
            && OnlyMbox(s, s', b) && (s'.ret == 1 <==> |mb.ring| < mb.cap)
            && (|mb.ring| < mb.cap ==>
                  && s'.mboxes[b].ring == mb.ring + [Msg(s.activePid, value, Some(a), s.k.clock)]
                  && T(s'.k, a).todo == [] && OthersKeep(s.k, s'.k, a))
            && (|mb.ring| >= mb.cap ==> s'.mboxes[b].ring == mb.ring && WaitsAt(s, s', Writers(b), RetryPut(b, value)))
  {
    hide WaitsAt, OnlyMbox, Resume;
    ReachableOk(s);
    LastActKeeps(s, a);
    if |s.mboxes[b].ring| < s.mboxes[b].cap { RetryStores(s, a, b, value); } else { RetryWaits(s, a, b, value); }
  }

  lemma RetryStores(s: State, a: Tid, b: nat, value: int)
    requires MayResume(s, a) && T(s.k, a).todo == [RetryPut(b, value)] && b in s.mboxes && a < |s.k.ts|
    requires |s.mboxes[b].ring| < s.mboxes[b].cap
    ensures var s' := Resume(s, a);
            && OnlyMbox(s, s', b) && s'.ret == 1 && T(s'.k, a).todo == [] && OthersKeep(s.k, s'.k, a)
            && s'.mboxes[b].ring == s.mboxes[b].ring + [Msg(s.activePid, value, Some(a), s.k.clock)]
  {
  }

  lemma RetryWaits(s: State, a: Tid, b: nat, value: int)
    requires Inv(s) && MayResume(s, a) && T(s.k, a).todo == [RetryPut(b, value)] && b in s.mboxes
    requires |s.mboxes[b].ring| >= s.mboxes[b].cap && IsHead(s.k, a)
    ensures var s' := Resume(s, a);
            && OnlyMbox(s, s', b) && s'.ret == 0 && s'.mboxes[b].ring == s.mboxes[b].ring
            && WaitsAt(s, s', Writers(b), RetryPut(b, value))
  {
    PopKeepsHead(s.k, a);
    WaiterJoins(Popped(s.k, a), a, Writers(b), RetryPut(b, value));
  }

  lemma PopKeepsHead(k: Core, a: Tid)
    requires IsHead(k, a) && T(k, a).todo != [] && T(k, a).todo[1..] == []
    ensures MayBlock(Popped(k, a), a)
  {
  }

  /** A mailbox starts empty, with that capacity. */
  lemma MailboxStarts(s: State, b: nat, cap: nat)
    requires Reachable(s) && MboxEnabled(s, DoInitMbox(b, cap))
    ensures var s' := Step(s, ForMbox(DoInitMbox(b, cap)));
            && OnlyMbox(s, s', b) && s'.mboxes[b].cap == cap && s'.mboxes[b].ring == []
            && s' == s.(mboxes := s'.mboxes)
  {
  }
}
