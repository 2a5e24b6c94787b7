/** The steps of msg.c keep the invariant. */
module KernelMsgSteps {
  import opened KernelTypes
  import opened KernelSpec
  import opened KernelLinks
  import opened KernelInv
  import opened KernelCore
  import opened KernelMessages
  import opened KernelSched
  import opened KernelState
  import opened KernelSteps
  import opened KernelSteady
  import opened KernelThreadSteps
  import opened KernelSyncSteps

  // ---------------------------------------------------------------- one more message

  /** m was made after everything that was sent so far. */
  ghost predicate Fresh(k: Core, m: Msg) {
    m.serial < k.clock
    && forall t: Tid, i {:trigger T(k, t).sent[i]} :: 0 <= i < |T(k, t).sent| ==> T(k, t).sent[i].serial < m.serial
  }

  /** Steady, but for the message m that was sent to t. */
  ghost predicate SteadyBut(k: Core, k': Core, t: Tid, m: Msg) {
    && |k'.ts| == |k.ts| && k.clock <= k'.clock && SameQueues(k, k')
    && (forall u: Tid {:trigger T(k', u)} ::
          T(k', u).sent == (if u == t then T(k, u).sent + [m] else T(k, u).sent) && CancelSteady(T(k, u), T(k', u)))
  }

  lemma SentSerials(k: Core, k': Core, t: Tid, m: Msg)
    requires SerialsOk(k) && Fresh(k, m) && SteadyBut(k, k', t, m)
    ensures SerialsOk(k')
  {
    forall u: Tid | u < |k'.ts|
      ensures (forall i {:trigger T(k', u).sent[i]} :: 0 <= i < |T(k', u).sent| ==> T(k', u).sent[i].serial < k'.clock)
           && (forall i, j {:trigger T(k', u).sent[i], T(k', u).sent[j]} :: 0 <= i < j < |T(k', u).sent| ==>
                 T(k', u).sent[i].serial < T(k', u).sent[j].serial)
    {
      var was, now := T(k, u).sent, T(k', u).sent;
      assert now == if u == t then was + [m] else was;
      assert forall i :: 0 <= i < |was| ==> T(k, u).sent[i].serial < k.clock && T(k, u).sent[i].serial < m.serial;
    }
  }

  lemma SentKeepsRest(s: State, s': State, t: Tid, m: Msg)
    requires RestOk(s) && SameObjects(s, s') && SteadyBut(s.k, s'.k, t, m) && Fresh(s.k, m)
    ensures RestOk(s')
  {
    SentSerials(s.k, s'.k, t, m);
    SteadyKeepsCancels(s, s');
    SteadyKeepsMutexes(s, s');
    SteadyKeepsMboxes(s, s');
    assert forall t: Tid :: CancelSteady(T(s.k, t), T(s'.k, t));
    SteadyKeepsRetries(s, s');
  }

  lemma SteadyButTrans(k: Core, k1: Core, k2: Core, t: Tid, m: Msg)
    requires SteadyBut(k, k1, t, m) && Steady(k1, k2)
    ensures SteadyBut(k, k2, t, m)
  {
    forall u: Tid ensures T(k2, u).sent == (if u == t then T(k, u).sent + [m] else T(k, u).sent) &&
        CancelSteady(T(k, u), T(k2, u)) {
      assert T(k2, u).sent == T(k1, u).sent && CancelSteady(T(k, u), T(k1, u)) && CancelSteady(T(k1, u), T(k2, u));
    }
    forall i: nat ensures L(k2, MutexQ(i)) == L(k, MutexQ(i)) { assert L(k1, MutexQ(i)) == L(k, MutexQ(i)); }
    forall b: nat ensures L(k2, Readers(b)) == L(k, Readers(b)) { assert L(k1, Readers(b)) == L(k, Readers(b)); }
  }

  /** b is the state in which the message was made. */
  ghost predicate Sending(b: State, m: Msg) {
    CoreOk(b.k) && RestOk(b) && PidsOk(b) && ActiveOk(b) && Fresh(b.k, m)
  }

  /** s1 is b after the message was sent to t. */
  ghost predicate SentTo(b: State, s1: State, t: Tid, m: Msg) {
    && CoreOk(s1.k) && SameLives(b.k, s1.k) && SteadyBut(b.k, s1.k, t, m)
    && SameObjects(b, s1) && s1.pids == b.pids && s1.active == b.active && s1.activePid == b.activePid
  }

  lemma SentKeeps(b: State, s1: State, t: Tid, m: Msg)
    requires Sending(b, m) && SentTo(b, s1, t, m)
    ensures RestOk(s1) && PidsOk(s1) && ActiveOk(s1)
  {
    SentKeepsRest(b, s1, t, m);
    LivesKeepPids(b, s1);
    LivesKeepActive(b, s1);
  }

  lemma TickSends(s: State, m: Msg)
    requires Inv(s) && m.serial == s.k.clock
    ensures Sending(s.(k := Tick(s.k)), m)
  {
    var b := s.(k := Tick(s.k));
    TickOk(s.k);
    LivesKeepPids(s, b);
    LivesKeepActive(s, b);
    TickSteady(s.k);
    SteadyKeepsRest(s, b);
    forall t: Tid, i | 0 <= i < |T(b.k, t).sent| ensures T(b.k, t).sent[i].serial < m.serial {
      assert T(b.k, t) == T(s.k, t) && t < |s.k.ts|;
      assert T(s.k, t).sent[i].serial < s.k.clock;
    }
  }

  lemma TickSteady(k: Core)
    ensures Steady(k, Tick(k))
  {
    assert forall t: Tid :: T(Tick(k), t) == T(k, t);
    assert forall l :: L(Tick(k), l) == L(k, l);
  }

  // ---------------------------------------------------------------- the three ways of sending

  lemma MarkSteady(k: Core, m: Msg)
    ensures Steady(k, MarkAnswerable(k, m))
  {
    assert Steady(k, k);
    if m.from.Some? && Asks(T(k, m.from.value), m) {
      RecordSteady(k, m.from.value, T(k, m.from.value).(answerable := true));
    }
  }

  lemma DeliverSteady(k: Core, t: Tid, m: Msg)
    requires t < |k.ts| && T(k, t).status == ReceiveBlocked && T(k, t).todo != [] && End(T(k, t)) == Received
    ensures SteadyBut(k, Deliver(k, t, m), t, m)
  {
    DeliverEffect(k, t, m);
  }

  lemma DirectCopy(b: State, s1: State, t: Tid, m: Msg)
    requires Sending(b, m) && t < |b.k.ts| && T(b.k, t).status == ReceiveBlocked
    requires s1 == b.(k := MarkAnswerable(Deliver(b.k, t, m), m), ret := s1.ret, request := s1.request)
    ensures SentTo(b, s1, t, m)
  {
    var k1 := Deliver(b.k, t, m);
    assert OwnOk(t, T(b.k, t));
    DeliverOk(b.k, t, m);
    DeliverSteady(b.k, t, m);
    MarkAnswerableOk(k1, m);
    MarkSteady(k1, m);
    LivesTrans(b.k, k1, s1.k);
    SteadyButTrans(b.k, k1, s1.k, t, m);
  }

  lemma QueueCopy(b: State, s1: State, t: Tid, m: Msg)
    requires Sending(b, m) && t < |b.k.ts| && T(b.k, t).status != ReceiveBlocked && !QueueFull(T(b.k, t))
    requires s1 == Enqueue(b.(ret := s1.ret), t, m)
    ensures SentTo(b, s1, t, m)
  {
    var k1 := SetT(b.k, t, Queued(T(b.k, t), m));
    RaiseFlagsIs(b.(ret := s1.ret, k := k1), t, MSG_WAITING);
    QueueCopyCore(b.k, k1, t, m);
  }

  lemma QueueCopyCore(k: Core, k1: Core, t: Tid, m: Msg)
    requires CoreOk(k) && t < |k.ts| && T(k, t).status != ReceiveBlocked && !QueueFull(T(k, t)) &&
        k1 == SetT(k, t, Queued(T(k, t), m))
    ensures var k2 := Raise(k1, t, MSG_WAITING); CoreOk(k2) && SameLives(k, k2) && SteadyBut(k, k2, t, m)
  {
    var k2 := Raise(k1, t, MSG_WAITING);
    QueuedOk(k, t, m);
    RaiseOk(k1, t, MSG_WAITING);
    RaiseSteady(k1, t, MSG_WAITING);
    LivesTrans(k, k1, k2);
    SteadyButTrans(k, k1, k2, t, m);
  }

  /** The thread that goes send blocked, before it joins the senders. */
  lemma ParkSteady(k: Core, a: Tid, m: Msg)
    requires IsHead(k, a) && T(k, a).todo == []
    ensures var k1 := SetStatus(Park(k, a, Buffer(m)), a, SendBlocked); Steady(k, k1) && T(k1, a).status == SendBlocked
  {
    BlockEffect(Park(k, a, Buffer(m)), a, SendBlocked);
    OneThreadSteady(k, SetStatus(Park(k, a, Buffer(m)), a, SendBlocked), a);
  }

  lemma JoinSteady(k: Core, k1: Core, a: Tid, t: Tid, m: Msg)
    requires Steady(k, k1) && t < |k.ts| && a < |k.ts| && T(k1, a).status != MutexBlocked
    ensures SteadyBut(k, Join(k1, a, t, m), t, m)
  {
    var k2 := AddToList(k1, Senders(t), a);
    EnlistSteady(k1, Senders(t), a);
    SteadyTrans(k, k1, k2);
    var k3 := Join(k1, a, t, m);
    assert forall l :: L(k3, l) == L(k2, l);
    forall u: Tid ensures T(k3, u).sent == (if u == t then T(k, u).sent + [m] else T(k, u).sent) &&
        CancelSteady(T(k, u), T(k3, u)) {
      assert T(k2, u).sent == T(k, u).sent && CancelSteady(T(k, u), T(k2, u));
    }
    forall i: nat ensures L(k3, MutexQ(i)) == L(k, MutexQ(i)) { assert L(k2, MutexQ(i)) == L(k, MutexQ(i)); }
    forall b: nat ensures L(k3, Readers(b)) == L(k, Readers(b)) { assert L(k2, Readers(b)) == L(k, Readers(b)); }
  }

  lemma SendBlockIsJoin(k: Core, a: Tid, t: Tid, m: Msg)
    requires a < |k.ts|
    ensures T(k, a).status != ReplyBlocked ==>
              SendBlock(k, a, t, m) == Join(SetStatus(Park(k, a, Buffer(m)), a, SendBlocked), a, t, m)
    ensures var x := T(k, a);
            x.status == ReplyBlocked && x.wait == Buffer(m) && x.answer == None && x.mail == None ==>
              SendBlock(k, a, t, m) == Join(k, a, t, m)
  {
    if T(k, a).status == ReplyBlocked && T(k, a).wait == Buffer(m) && T(k, a).answer == None && T(k, a).mail == None {
      assert Park(k, a, Buffer(m)) == k by { assert T(Park(k, a, Buffer(m)), a) == T(k, a); }
      assert SetStatus(k, a, ReplyBlocked) == k;
    }
  }

  lemma SendBlockSteady(k: Core, a: Tid, t: Tid, m: Msg)
    requires t < |k.ts| && a < |k.ts| && a != t
    requires (IsHead(k, a) && T(k, a).todo == [])
          || (T(k, a).status == ReplyBlocked && T(k, a).wait == Buffer(m) && T(k, a).answer == None &&
            T(k, a).mail == None)
    ensures SteadyBut(k, SendBlock(k, a, t, m), t, m)
  {
    SendBlockIsJoin(k, a, t, m);
    if IsHead(k, a) {
      ParkSteady(k, a, m);
      JoinSteady(k, SetStatus(Park(k, a, Buffer(m)), a, SendBlocked), a, t, m);
    } else {
      assert Steady(k, k);
      JoinSteady(k, k, a, t, m);
    }
  }

  lemma BlockedSend(b: State, s1: State, a: Tid, t: Tid, m: Msg)
    requires Sending(b, m) && t < |b.k.ts| && a < |b.k.ts| && a != t && m.from == Some(a)
    requires T(b.k, t).status != ReceiveBlocked && QueueFull(T(b.k, t))
    requires (IsHead(b.k, a) && T(b.k, a).todo == [])
          || (JoinsSenders(b.k, a, t, m) && T(b.k, a).status == ReplyBlocked && T(b.k, a).answer == None &&
            T(b.k, a).mail == None)
    requires s1 == RaiseFlags(b.(k := SendBlock(b.k, a, t, m), ret := 1), t, MSG_WAITING)
    ensures SentTo(b, s1, t, m)
  {
    var k1 := SendBlock(b.k, a, t, m);
    assert OwnOk(a, T(b.k, a));
    if IsHead(b.k, a) { SendBlockOk(b.k, a, t, m); } else { AskBlockOk(b.k, a, t, m); }
    SendBlockSteady(b.k, a, t, m);
    RaiseFlagsIs(b.(ret := 1, k := k1), t, MSG_WAITING);
    RaiseOk(k1, t, MSG_WAITING);
    RaiseSteady(k1, t, MSG_WAITING);
    LivesTrans(b.k, k1, s1.k);
    SteadyButTrans(b.k, k1, s1.k, t, m);
  }

  // ---------------------------------------------------------------- what sending means to the scheduler

  /** The sender, in its own code or at the start of msg_send_receive. */
  ghost predicate Sender(k: Core, a: Tid, t: Tid, m: Msg) {
    && a != t && a < |k.ts| && t < |k.ts| && m.from == Some(a)
    && ((Settled(k, a) && T(k, a).todo == []) || Asking(T(k, a), m))
  }

  predicate Asking(tcb: Tcb, m: Msg) {
    tcb.status == ReplyBlocked && tcb.loc == None && tcb.wait == Buffer(m) && !tcb.answerable &&
      tcb.answer == None && tcb.mail == None
    && tcb.todo == [Replied]
  }

  lemma SameRunRecord(k: Core, k1: Core, t: Tid, y: Tcb, a: Tid)
    requires SameRun(k, k1, a) && y.status == T(k1, t).status && y.prio == T(k1, t).prio
    requires t == a ==> y.todo == T(k1, t).todo && (Unheard(T(k1, t)) ==> Unheard(y))
    ensures SameRun(k, SetT(k1, t, y), a)
  {
    var k2 := SetT(k1, t, y);
    forall q: nat ensures L(k2, Rq(q)) == L(k, Rq(q)) { assert L(k1, Rq(q)) == L(k, Rq(q)); }
    forall u: Tid ensures T(k2, u).status == T(k, u).status && T(k2, u).prio == T(k, u).prio {
      assert T(k1, u).status == T(k, u).status && T(k1, u).prio == T(k, u).prio;
    }
  }

  /** The priority of the thread that raising flags wakes, if it wakes it. */
  function RaisedPrio(tcb: Tcb, mask: Flags): nat {
    if FlagsSatisfied(WithFlags(tcb, mask)) then tcb.prio else LEVELS
  }

  lemma RaiseWakes(k: Core, k1: Core, t: Tid, mask: Flags, a: Tid)
    requires SameRun(k, k1, a) && t < |k.ts|
    ensures Wakes(k, Raise(k1, t, mask), RaisedPrio(T(k1, t), mask), a)
    ensures a != t ==> T(Raise(k1, t, mask), a) == T(k1, a)
  {
    var y := WithFlags(T(k1, t), mask);
    SameRunRecord(k, k1, t, y, a);
    assert T(k1, t).status == T(k, t).status && T(k1, t).prio == T(k, t).prio;
    if FlagsSatisfied(y) {
      CompleteWakes(k, SetT(k1, t, y), t, Pending, a);
      WakeEffect(SetT(k1, t, y), t, Pending);
    } else {
      SameRunWakes(k, SetT(k1, t, y), LEVELS, a);
    }
  }

  lemma EnqueueEffect(b: State, t: Tid, m: Msg, a: Tid)
    requires t < |b.k.ts|
    ensures var s1 := Enqueue(b, t, m);
            && Wakes(b.k, s1.k, RaisedPrio(T(b.k, t), MSG_WAITING), a)
            && (a != t ==> T(s1.k, a) == T(b.k, a))
            && s1 == b.(k := s1.k, request := b.request || FlagsSatisfied(WithFlags(T(b.k, t), MSG_WAITING)))
  {
    var y := Queued(T(b.k, t), m);
    var k1 := SetT(b.k, t, y);
    RaiseFlagsIs(b.(k := k1), t, MSG_WAITING);
    assert SameRun(b.k, b.k, a);
    SameRunRecord(b.k, b.k, t, y, a);
    RaiseWakes(b.k, k1, t, MSG_WAITING, a);
  }

  /** Queueing a message: either the receiver wakes and a switch is requested, or nothing happens
      to the run queues. */
  lemma QueueCopySched(b: State, s1: State, a: Tid, t: Tid, m: Msg)
    requires CoreOk(b.k) && Sender(b.k, a, t, m) && b.active == Some(a) && !b.isr && !b.idle
    requires s1 == Enqueue(b.(ret := s1.ret), t, m) && ActiveOk(s1)
    ensures SchedOk(Then(s1, SwitchIfRequested))
  {
    EnqueueEffect(b.(ret := s1.ret), t, m, a);
    OweKeepsHead(s1.k, a, [SwitchIfRequested]);
    assert TcbLinked(b.k, a);
    if Settled(b.k, a) && T(b.k, a).todo == [] {
      WakesAbove(b.k, s1.k, RaisedPrio(T(b.k, t), MSG_WAITING), a);
    }
  }

  lemma CopyKeeps(s0: State, b: State, a: Tid, t: Tid, m: Msg)
    requires SchedOk(s0) && Calling(s0) && SameContext(s0, b) && b.active == Some(a)
    requires Sending(b, m) && Sender(b.k, a, t, m) && T(b.k, t).status == ReceiveBlocked
    ensures Inv(MsgSend(b, a, t, m, true)) && MsgSend(b, a, t, m, false) == MsgSend(b, a, t, m, true)
  {
    var s1 := b.(k := MarkAnswerable(Deliver(b.k, t, m), m), ret := 1);
    DirectCopy(b, s1, t, m);
    SentKeeps(b, s1, t, m);
    YieldSuffices(s0, s1);
    FinishThen(s1, Yield);
  }

  lemma SentFinish(b: State, s1: State, t: Tid, m: Msg, act: Act)
    requires Sending(b, m) && SentTo(b, s1, t, m) && SchedOk(Then(s1, act)) && Plain(act) && s1.active.Some?
    requires T(s1.k, s1.active.value).status == SendBlocked ==> act == Yield
    ensures Inv(Then(s1, act))
  {
    SentKeeps(b, s1, t, m);
    FinishThen(s1, act);
  }

  lemma EnqueueSched(b: State, s1: State, a: Tid, t: Tid, m: Msg)
    requires b.active == Some(a) && !b.isr && !b.idle && CoreOk(b.k) && ActiveOk(b) && Sender(b.k, a, t, m)
    requires s1 == Enqueue(b.(ret := 1), t, m) && SameLives(b.k, s1.k)
    ensures SchedOk(Then(s1, SwitchIfRequested)) && T(s1.k, a).status != SendBlocked && s1.active == Some(a)
  {
    EnqueueEffect(b.(ret := 1), t, m, a);
    LivesKeepActive(b, s1);
    QueueCopySched(b, s1, a, t, m);
  }

  lemma EnqueueKeeps(b: State, s1: State, a: Tid, t: Tid, m: Msg)
    requires b.active == Some(a) && !b.isr && !b.idle && Sending(b, m) && Sender(b.k, a, t, m)
    requires T(b.k, t).status != ReceiveBlocked && !QueueFull(T(b.k, t)) && s1 == Enqueue(b.(ret := 1), t, m)
    ensures Inv(Then(s1, SwitchIfRequested))
  {
    QueueCopy(b, s1, t, m);
    EnqueueSched(b, s1, a, t, m);
    SentFinish(b, s1, t, m, SwitchIfRequested);
  }

  lemma BlockedSendKeeps(s0: State, b: State, a: Tid, t: Tid, m: Msg)
    requires SchedOk(s0) && Calling(s0) && SameContext(s0, b) && b.active == Some(a)
    requires Sending(b, m) && Sender(b.k, a, t, m) && T(b.k, t).status != ReceiveBlocked && QueueFull(T(b.k, t))
    ensures Inv(MsgSend(b, a, t, m, true))
  {
    var s1 := RaiseFlags(b.(k := SendBlock(b.k, a, t, m), ret := 1), t, MSG_WAITING);
    BlockedSend(b, s1, a, t, m);
    SentKeeps(b, s1, t, m);
    YieldSuffices(s0, s1);
    FinishThen(s1, Yield);
  }

  lemma MsgSendKeeps(s0: State, b: State, a: Tid, t: Tid, m: Msg, block: bool)
    requires SchedOk(s0) && Calling(s0) && SameContext(s0, b) && b.active == Some(a)
    requires Sending(b, m) && Sender(b.k, a, t, m) && (block || Settled(b.k, a))
    ensures Inv(MsgSend(b, a, t, m, block))
  {
    if T(b.k, t).status == ReceiveBlocked {
      CopyKeeps(s0, b, a, t, m);
    } else if !QueueFull(T(b.k, t)) {
      EnqueueKeeps(b, Enqueue(b.(ret := 1), t, m), a, t, m);
    } else if block {
      BlockedSendKeeps(s0, b, a, t, m);
    } else {
      assert Steady(b.k, b.k);
      SteadyKeepsRest(b, b.(ret := 0));
      LivesKeepPids(b, b.(ret := 0));
      SettledDebt(b.k, b.request, a);
    }
  }

  // ---------------------------------------------------------------- msg_send, msg_send_receive, msg_send_int

  lemma TickSettled(k: Core, a: Tid)
    requires Settled(k, a)
    ensures Settled(Tick(k), a)
  {
    assert T(Tick(k), a) == T(k, a);
    assert forall l :: L(Tick(k), l) == L(k, l);
  }

  lemma SendToSelfKeeps(s: State, a: Tid, value: int)
    requires Inv(s) && Calling(s) && s.active == Some(a)
    ensures Inv(SendToSelf(s, a, value))
  {
    if QueueFull(T(s.k, a)) {
      SameRecords(s, s.(ret := 0));
    } else {
      var m := Stamp(s, value, Some(a));
      var b := s.(k := Tick(s.k));
      CallerIsSettled(s);
      TickSends(s, m);
      TickSettled(s.k, a);
      OwnMessageKeeps(s, b, a, m);
    }
  }

  lemma OwnMessageKeeps(s: State, b: State, a: Tid, m: Msg)
    requires SchedOk(s) && Calling(s) && SameContext(s, b) && b.active == Some(a) && Sending(b, m)
    requires Settled(b.k, a) && T(b.k, a).todo == [] && !QueueFull(T(b.k, a))
    ensures Inv(Enqueue(b.(ret := 1), a, m))
  {
    var s1 := Enqueue(b.(ret := 1), a, m);
    QueuedKeeps(b, s1, a, m);
    EnqueueEffect(b.(ret := 1), a, m, a);
    assert TcbLinked(b.k, a);
    WakesAbove(b.k, s1.k, RaisedPrio(T(b.k, a), MSG_WAITING), a);
  }

  lemma SendKeeps(s: State, a: Tid, pid: nat, value: int, block: bool)
    requires Inv(s) && Calling(s) && s.active == Some(a)
    ensures Inv(Send(s, a, pid, value, block))
  {
    if pid == s.activePid {
      SendToSelfKeeps(s, a, value);
    } else {
      match Lookup(s, pid)
      case None => SameRecords(s, s.(ret := -1));
      case Some(t) =>
        var m := Stamp(s, value, Some(a));
        var b := s.(k := Tick(s.k));
        CallerIsSettled(s);
        LookupFinds(s, pid);
        TickSends(s, m);
        TickSettled(s.k, a);
        MsgSendKeeps(s, b, a, t, m, block);
    }
  }

  lemma AskSends(s: State, a: Tid, m: Msg)
    requires Inv(s) && Calling(s) && s.active == Some(a) && m.serial == s.k.clock && m.from == Some(a)
    ensures var b := s.(k := Owe(Ask(s.k, a, m), a, [Replied]));
            && Sending(b, m) && Asking(T(b.k, a), m) && |b.k.ts| == |s.k.ts|
  {
    var b := s.(k := Owe(Ask(s.k, a, m), a, [Replied]));
    CallerIsSettled(s);
    AskOk(s.k, a, m);
    AskSteady(s.k, a, m);
    TickSends(s, m);
    LivesKeepPids(s, b);
    LivesKeepActive(s, b);
    SteadyKeepsRest(s, b);
    forall t: Tid, i | 0 <= i < |T(b.k, t).sent| ensures T(b.k, t).sent[i].serial < m.serial {
      assert T(b.k, t).sent == T(Tick(s.k), t).sent;
    }
  }

  lemma AskSteady(k: Core, a: Tid, m: Msg)
    requires MayBlock(k, a)
    ensures var k' := Owe(Ask(k, a, m), a, [Replied]);
            && Steady(k, k') && k'.clock == k.clock + 1
            && (forall t: Tid {:trigger T(k', t)} :: T(k', t).sent == T(Tick(k), t).sent)
  {
    BlockEffect(Tick(k), a, ReplyBlocked);
    assert T(Tick(k), a) == T(k, a);
    OneThreadSteady(Tick(k), Owe(Ask(k, a, m), a, [Replied]), a);
    TickSteady(k);
    SteadyTrans(k, Tick(k), Owe(Ask(k, a, m), a, [Replied]));
  }

  lemma SendReceiveKeeps(s: State, a: Tid, pid: nat, value: int)
    requires Inv(s) && Calling(s) && s.active == Some(a) && pid != s.activePid && Lookup(s, pid).Some?
    ensures Inv(SendReceive(s, a, pid, value))
  {
    var m := Stamp(s, value, Some(a));
    var t := Lookup(s, pid).value;
    var b := s.(k := Owe(Ask(s.k, a, m), a, [Replied]));
    CallerIsSettled(s);
    LookupFinds(s, pid);
    AskSends(s, a, m);
    MsgSendKeeps(s, b, a, t, m, true);
  }

  lemma SendIntKeeps(s: State, pid: nat, value: int)
    requires Inv(s) && s.isr
    ensures Inv(SendInt(s, pid, value))
  {
    match Lookup(s, pid)
    case None => SameRecords(s, s.(ret := -1));
    case Some(t) =>
      LookupFinds(s, pid);
      TickSends(s, Stamp(s, value, None));
      if T(s.k, t).status == ReceiveBlocked {
        IsrCopyKeeps(s, s.(k := Tick(s.k)), t, Stamp(s, value, None));
      } else if QueueFull(T(s.k, t)) {
        SameRecords(s, s.(ret := 0));
      } else {
        IsrQueueKeeps(s, s.(k := Tick(s.k)), t, Stamp(s, value, None));
      }
  }

  lemma IsrCopyKeeps(s: State, b: State, t: Tid, m: Msg)
    requires SchedOk(s) && s.isr && SameContext(s, b) && Sending(b, m) && t < |b.k.ts| &&
        T(b.k, t).status == ReceiveBlocked
    requires m.from == None
    ensures Inv(b.(k := Deliver(b.k, t, m), request := true, ret := 1))
  {
    var s1 := b.(k := Deliver(b.k, t, m), request := true, ret := 1);
    DirectCopy(b, s1, t, m);
    SentKeeps(b, s1, t, m);
  }

  lemma IsrQueueKeeps(s: State, b: State, t: Tid, m: Msg)
    requires Inv(s) && s.isr && b == s.(k := Tick(s.k)) && Sending(b, m)
    requires t < |b.k.ts| && T(b.k, t).status != ReceiveBlocked && !QueueFull(T(b.k, t))
    ensures Inv(Enqueue(b.(ret := 1), t, m))
  {
    QueuedKeeps(b, Enqueue(b.(ret := 1), t, m), t, m);
    IsrQueueSched(s, b, Enqueue(b.(ret := 1), t, m), t, m);
  }

  lemma QueuedKeeps(b: State, s1: State, t: Tid, m: Msg)
    requires Sending(b, m) && t < |b.k.ts| && T(b.k, t).status != ReceiveBlocked && !QueueFull(T(b.k, t))
    requires s1 == Enqueue(b.(ret := s1.ret), t, m)
    ensures CoreOk(s1.k) && RestOk(s1) && PidsOk(s1) && ActiveOk(s1)
  {
    QueueCopy(b, s1, t, m);
    SentKeeps(b, s1, t, m);
  }

  lemma TickDebt(k: Core, request: bool, a: Tid)
    requires DebtOk(k, request, a)
    ensures DebtOk(Tick(k), request, a)
  {
    assert forall l :: L(Tick(k), l) == L(k, l);
    assert forall u: Tid :: T(Tick(k), u) == T(k, u);
  }

  lemma IsrQueueSched(s: State, b: State, s1: State, t: Tid, m: Msg)
    requires Inv(s) && s.isr && b == s.(k := Tick(s.k)) && t < |b.k.ts| && s1 == Enqueue(b.(ret := 1), t, m) &&
        ActiveOk(s1)
    ensures SchedOk(s1)
  {
    if s.active.Some? && !s.idle && !s1.request {
      var a := s.active.value;
      EnqueueEffect(b.(ret := 1), t, m, a);
      TickDebt(s.k, s.request, a);
      assert TcbLinked(s.k, a) && T(b.k, a) == T(s.k, a);
      WakesKeepDebt(b.k, s1.k, s.request, LEVELS, a);
    }
  }

  // ---------------------------------------------------------------- msg_reply

  lemma AnswerSteady(k: Core, t: Tid, reply: Msg)
    requires t < |k.ts| && T(k, t).status == ReplyBlocked && OwnOk(t, T(k, t))
    ensures Steady(k, Answer(k, t, reply))
  {
    var y := T(k, t).(wait := Buffer(reply), answer := Some(reply));
    RecordSteady(k, t, y);
    WakeSteady(SetT(k, t, y), t, Pending);
    SteadyTrans(k, SetT(k, t, y), Answer(k, t, reply));
  }

  lemma AnswerWakes(k: Core, t: Tid, reply: Msg, a: Tid)
    requires t < |k.ts| && T(k, t).status == ReplyBlocked && T(k, t).answerable
    ensures Wakes(k, Answer(k, t, reply), T(k, t).prio, a)
  {
    var y := T(k, t).(wait := Buffer(reply), answer := Some(reply));
    assert SameRun(k, k, a);
    SameRunRecord(k, k, t, y, a);
    CompleteWakes(k, SetT(k, t, y), t, Pending, a);
  }

  lemma ReplyKeeps(s: State, pid: nat, reply: Msg)
    requires Inv(s) && MayCall(s) && MayReply(s, pid)
    ensures Inv(Reply(s, pid, reply))
  {
    var t := Lookup(s, pid).value;
    LookupFinds(s, pid);
    if T(s.k, t).status != ReplyBlocked {
      SameRecords(s, s.(ret := -1));
    } else {
      var s1 := s.(k := Answer(s.k, t, reply), ret := 1);
      assert OwnOk(t, T(s.k, t));
      AnswerOk(s.k, t, reply);
      AnswerSteady(s.k, t, reply);
      if s.isr {
        LivesKeepActive(s, s1);
        Assemble(s, s1.(request := true));
      } else {
        if s.active.Some? { AnswerWakes(s.k, t, reply, s.active.value); }
        WakeKeeps(s, s1, T(s.k, t).prio);
      }
    }
  }

  // ---------------------------------------------------------------- msg_receive

  lemma ReceiveBlockKeeps(s: State, a: Tid)
    requires Inv(s) && Calling(s) && s.active == Some(a) && T(s.k, a).queue == [] && L(s.k, Senders(a)) == []
    ensures Inv(s.(k := ReceiveBlock(s.k, a), ret := 1))
  {
    var s' := s.(k := ReceiveBlock(s.k, a), ret := 1);
    CallerIsSettled(s);
    ReceiveBlockOk(s.k, a);
    BlockEffect(Park(s.k, a, Buffer(NO_MSG)), a, ReceiveBlocked);
    assert [Yield, Received] + [] == [Yield, Received];
    OneThreadSteady(s.k, s'.k, a);
    LivesKeepActive(s, s');
    OwedYieldSuffices(s, s');
    Assemble(s, s');
  }

  lemma MarkSameRun(k: Core, k1: Core, m: Msg, a: Tid)
    requires SameRun(k, k1, a) && OnRunqueue(T(k, a).status)
    ensures SameRun(k, MarkAnswerable(k1, m), a)
  {
    if m.from.Some? && Asks(T(k1, m.from.value), m) {
      assert T(k1, a).status == T(k, a).status;
      SameRunRecord(k, k1, m.from.value, T(k1, m.from.value).(answerable := true), a);
    }
  }

  /** Taking a message off one's own queue. */
  lemma TakeQueuedEffect(k: Core, a: Tid)
    requires T(k, a).queue != [] && MayBlock(k, a)
    ensures var k' := TakeQueued(k, a);
            && SameRun(k, k', a) && Steady(k, k')
            && T(k', a) == Taken(T(k, a))
            && (forall l {:trigger L(k', l)} :: L(k', l) == L(k, l))
            && (forall u: Tid {:trigger T(k', u)} :: u != a ==> T(k', u) == T(k, u).(answerable := T(k', u).answerable))
  {
    var k1 := SetT(k, a, Taken(T(k, a)));
    assert SameRun(k, k, a);
    SameRunRecord(k, k, a, Taken(T(k, a)), a);
    MarkSameRun(k, k1, T(k, a).queue[0], a);
    RecordSteady(k, a, Taken(T(k, a)));
    MarkSteady(k1, T(k, a).queue[0]);
    SteadyTrans(k, k1, TakeQueued(k, a));
  }

  lemma TakeQueuedKeeps(s: State, a: Tid)
    requires Inv(s) && Calling(s) && s.active == Some(a) && T(s.k, a).queue != [] && L(s.k, Senders(a)) == []
    ensures Inv(s.(k := TakeQueued(s.k, a), ret := 1))
  {
    var s' := s.(k := TakeQueued(s.k, a), ret := 1);
    CallerIsSettled(s);
    TakeQueuedOk(s.k, a);
    TakeQueuedEffect(s.k, a);
    LivesKeepActive(s, s');
    SameRunWakes(s.k, s'.k, LEVELS, a);
    assert TcbLinked(s.k, a);
    NoSwitchNeeded(s, s', LEVELS);
    Assemble(s, s');
  }

  /** The message of the waiting sender x has been taken; x itself is looked at next. */
  function Drained(k: Core, a: Tid, x: Tid, queued: bool): Core {
    var m := Content(T(k, x).wait);
    var k1 := RemoveHead(k, Senders(a));
    if queued then Refill(k1, a, m) else Accept(k1, a, m)
  }

  lemma RemoveHeadSteady(k: Core, t: Tid)
    requires L(k, Senders(t)) != [] && T(k, L(k, Senders(t))[0]).status != MutexBlocked
    ensures Steady(k, RemoveHead(k, Senders(t)))
  {
    OneThreadSteady(k, RemoveHead(k, Senders(t)), L(k, Senders(t))[0]);
  }

  lemma DrainedEffect(k: Core, a: Tid, x: Tid, queued: bool)
    requires MayBlock(k, a) && L(k, Senders(a)) != [] && x == L(k, Senders(a))[0] && x != a
    requires T(k, x).status == SendBlocked || T(k, x).status == ReplyBlocked
    ensures var k' := Drained(k, a, x, queued); SameRun(k, k', a) && Steady(k, k')
  {
    var m := Content(T(k, x).wait);
    var k1 := RemoveHead(k, Senders(a));
    RemoveHeadSteady(k, a);
    assert SameRun(k, k1, a) && T(k1, a) == T(k, a);
    var y := if queued then T(k, a).(queue := T(k, a).queue + [m])
             else T(k, a).(wait := Buffer(m), answer := None, got := T(k, a).got + [m]);
    var k2 := SetT(k1, a, y);
    SameRunRecord(k, k1, a, y, a);
    RecordSteady(k1, a, y);
    SteadyTrans(k, k1, k2);
    if !queued {
      MarkSameRun(k, k2, m, a);
      MarkSteady(k2, m);
      SteadyTrans(k, k2, MarkAnswerable(k2, m));
    }
  }

  lemma ReleaseEffect(k: Core, k1: Core, x: Tid, a: Tid)
    requires SameRun(k, k1, a) && Steady(k, k1) && x < |k.ts| && x != a
    requires T(k, x).status == SendBlocked || T(k, x).status == ReplyBlocked
    ensures Steady(k, ReleaseSender(k1, x))
    ensures Wakes(k, ReleaseSender(k1, x), if T(k, x).status == ReplyBlocked then LEVELS else T(k, x).prio, a)
  {
    assert T(k1, x).status == T(k, x).status && T(k1, x).prio == T(k, x).prio;
    if T(k, x).status == ReplyBlocked {
      SameRunWakes(k, k1, LEVELS, a);
    } else {
      var y := T(k1, x).(wait := NoData);
      SameRunRecord(k, k1, x, y, a);
      CompleteWakes(k, SetT(k1, x, y), x, Pending, a);
      RecordSteady(k1, x, y);
      WakeSteady(SetT(k1, x, y), x, Pending);
      SteadyTrans(k1, SetT(k1, x, y), ReleaseSender(k1, x));
      SteadyTrans(k, k1, ReleaseSender(k1, x));
    }
  }

  lemma DrainedLives(k: Core, a: Tid, x: Tid, queued: bool)
    ensures SameLives(k, Drained(k, a, x, queued))
  {
    var m := Content(T(k, x).wait);
    var k1 := RemoveHead(k, Senders(a));
    assert SameLives(k, k1);
    if queued {
      assert SameLives(k, Refill(k1, a, m));
    } else {
      var k2 := SetT(k1, a, T(k1, a).(wait := Buffer(m), answer := None, got := T(k1, a).got + [m]));
      assert SameLives(k, k2);
      assert SameLives(k2, MarkAnswerable(k2, m));
      LivesTrans(k, k2, MarkAnswerable(k2, m));
    }
  }

  lemma ReleaseLives(k: Core, x: Tid)
    requires x < |k.ts| && (T(k, x).status == SendBlocked || T(k, x).status == ReplyBlocked)
    ensures SameLives(k, ReleaseSender(k, x))
  {
    if T(k, x).status == SendBlocked { WakeEffect(SetT(k, x, T(k, x).(wait := NoData)), x, Pending); }
  }

  /** The core before the message of the first waiting sender is taken. */
  ghost predicate ReadyToTake(k: Core, a: Tid, x: Tid, queued: bool) {
    && Draining(k, a) && MayBlock(k, a) && L(k, Senders(a)) != [] && x == L(k, Senders(a))[0] && x != a
    && x < |k.ts| && (T(k, x).status == SendBlocked || T(k, x).status == ReplyBlocked)
    && if queued then |T(k, a).queue| + 1 == T(k, a).cap else T(k, a).queue == [] && T(k, a).cap == 0
  }

  lemma TakeWaitingEffect(k: Core, a: Tid, x: Tid, queued: bool)
    requires ReadyToTake(k, a, x, queued)
    ensures var k' := TakeWaiting(k, a, x, queued);
            && CoreOk(k') && SameLives(k, k') && Steady(k, k')
            && Wakes(k, k', if T(k, x).status == ReplyBlocked then LEVELS else T(k, x).prio, a)
  {
    var k1 := Drained(k, a, x, queued);
    TakeWaitingOk(k, a, queued);
    DrainedEffect(k, a, x, queued);
    DrainedLives(k, a, x, queued);
    ReleaseEffect(k, k1, x, a);
    assert T(k1, x).status == T(k, x).status;
    ReleaseLives(k1, x);
    LivesTrans(k, k1, ReleaseSender(k1, x));
  }

  lemma ReadyAfterQueue(k: Core, a: Tid)
    requires CoreOk(k) && MayBlock(k, a) && L(k, Senders(a)) != []
    ensures var queued := T(k, a).queue != [];
            var k1 := TakeQueued(k, a);
            && ReadyToTake(k1, a, L(k, Senders(a))[0], queued)
            && SameRun(k, k1, a) && Steady(k, k1) && SameLives(k, k1)
            && T(k1, L(k, Senders(a))[0]).status == T(k, L(k, Senders(a))[0]).status
            && T(k1, L(k, Senders(a))[0]).prio == T(k, L(k, Senders(a))[0]).prio
  {
    var x := L(k, Senders(a))[0];
    assert RendezvousOk(k, a) && OwnOk(a, T(k, a));
    WaitersCarryOwn(k, a, 0, None);
    if T(k, a).queue != [] {
      TakeQueuedOk(k, a);
      TakeQueuedEffect(k, a);
    } else {
      assert Steady(k, k) && SameRun(k, k, a);
    }
  }

  /** The priority at which the first sender waiting for a becomes runnable, if it does. */
  function ReleasedPrio(k: Core, a: Tid): nat
    requires L(k, Senders(a)) != []
  {
    var x := T(k, L(k, Senders(a))[0]);
    if x.status == ReplyBlocked then LEVELS else x.prio
  }

  function Unloaded(k: Core, a: Tid): Core
    requires L(k, Senders(a)) != []
  {
    TakeWaiting(TakeQueued(k, a), a, L(k, Senders(a))[0], T(k, a).queue != [])
  }

  lemma ReceivedEffect(k: Core, a: Tid)
    requires CoreOk(k) && MayBlock(k, a) && L(k, Senders(a)) != []
    ensures var k' := Unloaded(k, a);
            CoreOk(k') && SameLives(k, k') && Steady(k, k') && Wakes(k, k', ReleasedPrio(k, a), a)
  {
    var x := L(k, Senders(a))[0];
    var k1 := TakeQueued(k, a);
    var p := ReleasedPrio(k, a);
    ReadyAfterQueue(k, a);
    TakeWaitingEffect(k1, a, x, T(k, a).queue != []);
    SameRunWakes(k, k1, p, a);
    WakesTrans(k, k1, Unloaded(k, a), p, p, a);
    LivesTrans(k, k1, Unloaded(k, a));
    SteadyTrans(k, k1, Unloaded(k, a));
  }

  lemma ReceiveWaitingKeeps(s: State, a: Tid, block: bool)
    requires Inv(s) && Calling(s) && s.active == Some(a) && L(s.k, Senders(a)) != []
    ensures Inv(Receive(s, a, block))
  {
    var s1 := s.(k := Unloaded(s.k, a), ret := 1);
    CallerIsSettled(s);
    ReceivedEffect(s.k, a);
    TakenKeeps(s, s1, ReleasedPrio(s.k, a), a);
    ReceiveWaitingIs(s, s1, a, block);
  }

  lemma ReceiveWaitingIs(s: State, s1: State, a: Tid, block: bool)
    requires L(s.k, Senders(a)) != [] && s1 == s.(k := Unloaded(s.k, a), ret := 1)
    ensures Receive(s, a, block) ==
              if ReleasedPrio(s.k, a) < LEVELS - 1 then Then(s1, Switch(ReleasedPrio(s.k, a))) else s1
  {
  }

  lemma TakenKeeps(s: State, s1: State, p: nat, a: Tid)
    requires Inv(s) && Calling(s) && s.active == Some(a) && SameContext(s, s1) && CoreOk(s1.k)
    requires s1.pids == s.pids && SameLives(s.k, s1.k) && SameObjects(s, s1) && Steady(s.k, s1.k)
    requires Wakes(s.k, s1.k, p, a)
    ensures Inv(Then(s1, Switch(p)))
    ensures p >= LEVELS - 1 ==> Inv(s1)
  {
    WakeKeeps(s, s1, p);
    LivesKeepActive(s, s1);
    if p >= LEVELS - 1 {
      assert TcbLinked(s.k, a);
      NoSwitchNeeded(s, s1, p);
      Assemble(s, s1);
    }
  }

  lemma ReceiveKeeps(s: State, a: Tid, block: bool)
    requires Inv(s) && Calling(s) && s.active == Some(a)
    ensures Inv(Receive(s, a, block))
  {
    if L(s.k, Senders(a)) != [] {
      ReceiveWaitingKeeps(s, a, block);
    } else if T(s.k, a).queue != [] {
      TakeQueuedKeeps(s, a);
    } else if block {
      ReceiveBlockKeeps(s, a);
    } else {
      SameRecords(s, s.(ret := -1));
    }
  }

  lemma InitQueueOk(k: Core, a: Tid, cap: nat)
    requires CoreOk(k) && MayBlock(k, a) && T(k, a).queue == [] && L(k, Senders(a)) == []
    ensures var k' := SetT(k, a, T(k, a).(cap := cap, queue := [])); CoreOk(k') && SameLives(k, k')
  {
    var y := T(k, a).(cap := cap, queue := []);
    var k' := SetT(k, a, y);
    assert OwnOk(a, T(k, a)) && FlowOk(k, a) && RendezvousOk(k, a) && StatusFits(T(k, a));
    UpdateKeepsLinks(k, a, y, None);
    assert L(k', Senders(a)) == [];
    assert Accepted(k', a) == Accepted(k, a);
    OneReceiver(k, k', a);
  }

  lemma InitQueueKeeps(s: State, a: Tid, cap: nat)
    requires Inv(s) && Calling(s) && s.active == Some(a) && T(s.k, a).queue == [] && L(s.k, Senders(a)) == []
    ensures Inv(InitQueue(s, a, cap))
  {
    var s' := InitQueue(s, a, cap);
    var y := T(s.k, a).(cap := cap, queue := []);
    CallerIsSettled(s);
    InitQueueOk(s.k, a, cap);
    RecordSteady(s.k, a, y);
    LivesKeepActive(s, s');
    assert SameRun(s.k, s.k, a);
    SameRunRecord(s.k, s.k, a, y, a);
    SameRunWakes(s.k, s'.k, LEVELS, a);
    assert TcbLinked(s.k, a);
    NoSwitchNeeded(s, s', LEVELS);
    Assemble(s, s');
  }
}
