/** Every change of the thread control blocks and lists that a kernel call makes keeps the
    invariants of KernelInv. */
module KernelCore {
  import opened KernelTypes
  import opened KernelSpec
  import opened KernelLinks
  import opened KernelInv

  // ---------------------------------------------------------------- what the primitives change

  /** Apart from t, no record changes. */
  ghost predicate OnlyThread(k: Core, k': Core, t: Tid) {
    |k'.ts| == |k.ts| && forall u: Tid {:trigger T(k', u)} :: u != t ==> T(k', u) == T(k, u)
  }

  ghost predicate SameSenders(k: Core, k': Core) {
    forall u: Tid {:trigger L(k', Senders(u))} :: L(k', Senders(u)) == L(k, Senders(u))
  }

  lemma WakeEffect(k: Core, t: Tid, status: Status)
    requires t < |k.ts| && !OnRunqueue(T(k, t).status) && OnRunqueue(status)
    ensures var k' := SetStatus(k, t, status);
            && OnlyThread(k, k', t) && SameSenders(k, k')
            && T(k', t) == Linked(T(k, t), Rq(T(k, t).prio), k.clock).(status := status)
            && k'.clock == k.clock + 1
  {
  }

  lemma BlockEffect(k: Core, t: Tid, status: Status)
    requires IsHead(k, t) && !OnRunqueue(status)
    ensures var k' := SetStatus(k, t, status);
            && OnlyThread(k, k', t) && SameSenders(k, k')
            && T(k', t) == T(k, t).(status := status, loc := None)
            && k'.clock == k.clock
  {
  }

  /** If only the record of t changes and no message is involved, only t has to be looked at. */
  lemma OneThread(k: Core, k': Core, t: Tid)
    requires CoreOk(k) && t < |k.ts| && Links(k') && OnlyThread(k, k', t) && SameSenders(k, k')
    requires OwnOk(t, T(k', t)) && SameMessages(T(k, t), T(k', t))
    ensures CoreOk(k') && Quiet(k, k')
  {
    QuietKeepsFlow(k, k');
  }

  // ---------------------------------------------------------------- waking

  /** Becoming runnable breaks no promise once the thread has what it waits for. */
  lemma WokenOwn(t: Tid, x: Tcb, y: Tcb)
    requires |x.queue| <= x.cap && Shape(x.todo) && (x.todo != [] ==> Fulfilled(x, End(x)))
    requires y == Linked(x, Rq(x.prio), y.ticket).(status := y.status) && OnRunqueue(y.status)
    ensures OwnOk(t, y)
  {
  }

  /** A thread whose status is not that of a call with a result has what it can have. */
  lemma NothingAwaited(t: Tid, x: Tcb)
    requires OwnOk(t, x)
    requires x.status !in {MutexBlocked, ReceiveBlocked, ReplyBlocked, FlagBlockedAny, FlagBlockedAll}
    requires x.status == MboxBlocked && x.loc.Some? ==> !x.loc.value.Readers?
    ensures x.todo != [] ==> Fulfilled(x, End(x))
  {
  }

  /** A thread that is on no list becomes runnable after its record has been completed. */
  lemma CompleteAndWake(k: Core, k1: Core, t: Tid, status: Status)
    requires CoreOk(k) && t < |k.ts| && OnRunqueue(status) && !OnRunqueue(T(k1, t).status)
    requires LinksBut(k1, Some(t)) && OnlyThread(k, k1, t) && SameSenders(k, k1)
    requires T(k1, t).loc == None && SameMessages(T(k, t), T(k1, t))
    requires Shape(T(k1, t).todo) && (T(k1, t).todo != [] ==> Fulfilled(T(k1, t), End(T(k1, t))))
    requires T(k, t).loc.Some? && T(k, t).loc.value.Senders? ==> T(k1, t).wait == T(k, t).wait
    ensures CoreOk(SetStatus(k1, t, status)) && Quiet(k, SetStatus(k1, t, status))
  {
    assert OwnOk(t, T(k, t));
    WakeLinks(k1, t, status);
    WakeEffect(k1, t, status);
    WokenOwn(t, T(k1, t), T(SetStatus(k1, t, status), t));
    OneThread(k, SetStatus(k1, t, status), t);
  }

  lemma WakeHeadEffect(k: Core, l: ListId)
    requires Links(k) && !l.Rq? && L(k, l) != []
    ensures var t := L(k, l)[0]; var k' := WakeHead(k, l);
            && t < |k.ts| && StatusFits(T(k, t)) && T(k, t).loc == Some(l) && !OnRunqueue(T(k, t).status)
            && OnlyThread(k, k', t) && (!l.Senders? ==> SameSenders(k, k'))
            && T(k', t) == Linked(T(k, t), Rq(T(k, t).prio), k.clock).(status := Pending)
            && Links(k')
  {
    WaitersBlocked(k, l, L(k, l)[0]);
    WakeHeadLinks(k, l);
    WakeEffect(RemoveHead(k, l), L(k, l)[0], Pending);
  }

  /** The head of the list of a condition variable or of a mailbox writer list is woken. */
  lemma WakeHeadOk(k: Core, l: ListId)
    requires CoreOk(k) && (l.CondQ? || l.Writers?)
    ensures CoreOk(WakeHead(k, l)) && SameLives(k, WakeHead(k, l))
  {
    if L(k, l) != [] {
      var t := L(k, l)[0];
      WakeHeadEffect(k, l);
      assert OwnOk(t, T(k, t));
      NothingAwaited(t, T(k, t));
      WokenOwn(t, T(k, t), T(WakeHead(k, l), t));
      OneThread(k, WakeHead(k, l), t);
    }
  }

  function HandMutex(k: Core, m: nat): Core {
    var k1 := WakeHead(k, MutexQ(m));
    if L(k, MutexQ(m)) == [] then k1
    else SetT(k1, L(k, MutexQ(m))[0], T(k1, L(k, MutexQ(m))[0]).(lock := Some(m)))
  }

  lemma HandedOwn(t: Tid, x: Tcb, m: nat, now: nat)
    requires OwnOk(t, x) && x.status == MutexBlocked && x.loc == Some(MutexQ(m))
    ensures OwnOk(t, Linked(x, Rq(x.prio), now).(status := Pending, lock := Some(m)))
  {
  }

  lemma HandMutexOk(k: Core, m: nat)
    requires CoreOk(k)
    ensures CoreOk(HandMutex(k, m)) && SameLives(k, HandMutex(k, m))
  {
    if L(k, MutexQ(m)) != [] {
      var t := L(k, MutexQ(m))[0];
      var k1 := WakeHead(k, MutexQ(m));
      WakeHeadEffect(k, MutexQ(m));
      assert OwnOk(t, T(k, t));
      HandedOwn(t, T(k, t), m, k.clock);
      UpdateKeepsLinks(k1, t, T(k1, t).(lock := Some(m)), None);
      OneThread(k, HandMutex(k, m), t);
    }
  }

  /** A cancelled waiter is taken off the list of the mutex. */
  lemma CancelWaiterOk(k: Core, m: nat, t: Tid)
    requires CoreOk(k) && t in L(k, MutexQ(m))
    requires T(k, t).todo != [] ==> Fulfilled(T(k, t), End(T(k, t)))
    ensures CoreOk(SetStatus(RemoveFrom(k, MutexQ(m), t), t, Pending))
    ensures SameLives(k, SetStatus(RemoveFrom(k, MutexQ(m), t), t, Pending))
  {
    WaitersBlocked(k, MutexQ(m), t);
    RemoveFromUnlinks(k, MutexQ(m), t);
    CompleteAndWake(k, RemoveFrom(k, MutexQ(m), t), t, Pending);
    WakeEffect(RemoveFrom(k, MutexQ(m), t), t, Pending);
  }

  lemma WakeSleeperOk(k: Core, t: Tid)
    requires CoreOk(k) && t < |k.ts| && T(k, t).status == Sleeping
    ensures CoreOk(SetStatus(k, t, Running)) && SameLives(k, SetStatus(k, t, Running))
  {
    assert StatusFits(T(k, t)) && OwnOk(t, T(k, t));
    NothingAwaited(t, T(k, t));
    CompleteAndWake(k, k, t, Running);
    WakeEffect(k, t, Running);
  }

  /** Raising flags, and waking the thread if that is what it waits for. */
  function Raise(k: Core, t: Tid, mask: Flags): Core {
    var tcb := WithFlags(T(k, t), mask);
    if FlagsSatisfied(tcb) then SetStatus(SetT(k, t, tcb), t, Pending) else SetT(k, t, tcb)
  }

  lemma RaisedFlags(t: Tid, x: Tcb, mask: Flags)
    requires OwnOk(t, x)
    ensures var y := WithFlags(x, mask);
            if FlagsSatisfied(y) then (y.todo != [] ==> Fulfilled(y, End(y)))
            else OwnOk(t, y)
  {
    var y := WithFlags(x, mask);
    if x.todo != [] {
      assert End(y) == End(x);
    }
  }

  lemma RaiseOk(k: Core, t: Tid, mask: Flags)
    requires CoreOk(k) && t < |k.ts|
    ensures CoreOk(Raise(k, t, mask)) && SameLives(k, Raise(k, t, mask)) && Quiet(k, Raise(k, t, mask))
  {
    var x := T(k, t);
    var y := WithFlags(x, mask);
    assert StatusFits(x) && OwnOk(t, x);
    RaisedFlags(t, x, mask);
    UpdateKeepsLinks(k, t, y, None);
    if FlagsSatisfied(y) {
      CompleteAndWake(k, SetT(k, t, y), t, Pending);
      WakeEffect(SetT(k, t, y), t, Pending);
    } else {
      OneThread(k, SetT(k, t, y), t);
    }
  }

  // ---------------------------------------------------------------- blocking

  lemma EnlistEffect(k: Core, a: Tid, status: Status, l: ListId)
    requires IsHead(k, a) && !OnRunqueue(status) && !l.Rq?
    ensures var k' := AddToList(SetStatus(k, a, status), l, a);
            && OnlyThread(k, k', a)
            && T(k', a) == Linked(T(k, a), l, k.clock).(status := status)
            && (!l.Senders? ==> SameSenders(k, k'))
  {
    BlockEffect(k, a, status);
  }

  /** The running thread goes onto a wait list and its record becomes y. */
  lemma EnlistOk(k: Core, a: Tid, status: Status, l: ListId, y: Tcb)
    requires CoreOk(k) && IsHead(k, a) && !OnRunqueue(status) && status != Stopped && status != ReceiveBlocked
    requires !l.Rq? && !l.Senders? && StatusFits(y)
    requires SameLink(y, Linked(T(k, a), l, k.clock).(status := status))
    requires OwnOk(a, y) && SameMessages(T(k, a), y) && y.pid == T(k, a).pid
    ensures var k' := SetT(AddToList(SetStatus(k, a, status), l, a), a, y); CoreOk(k') && SameLives(k, k')
  {
    BlockOnListLinks(k, a, status, l);
    EnlistEffect(k, a, status, l);
    var k1 := AddToList(SetStatus(k, a, status), l, a);
    UpdateKeepsLinks(k1, a, y, None);
    OneThread(k, SetT(k1, a, y), a);
  }

  predicate MayBlock(k: Core, a: Tid) {
    IsHead(k, a) && T(k, a).todo == []
  }

  lemma MutexBlockOk(k: Core, a: Tid, m: nat, end: Act)
    requires CoreOk(k) && MayBlock(k, a) && (end == Locked(m) || end.CheckCancel?)
    ensures var k' := Owe(BlockOnMutex(k, a, m), a, [Yield, end]); CoreOk(k') && SameLives(k, k')
  {
    var x := T(k, a);
    var y := Linked(x, MutexQ(m), k.clock).(status := MutexBlocked, lock := None, todo := [Yield, end] + x.todo);
    assert OwnOk(a, x) && StatusFits(x);
    EnlistEffect(k, a, MutexBlocked, MutexQ(m));
    assert [Yield, end] + [] == [Yield, end];
    EnlistOk(k, a, MutexBlocked, MutexQ(m), y);
    assert Owe(BlockOnMutex(k, a, m), a, [Yield, end]) ==
      SetT(AddToList(SetStatus(k, a, MutexBlocked), MutexQ(m), a), a, y);
  }

  lemma CondBlockOk(k: Core, a: Tid, c: nat, m: nat)
    requires CoreOk(k) && MayBlock(k, a)
    ensures var k' := Owe(AddToList(SetStatus(k, a, CondBlocked), CondQ(c), a), a, [Yield, Relock(m)]);
            CoreOk(k') && SameLives(k, k')
  {
    var x := T(k, a);
    var y := Linked(x, CondQ(c), k.clock).(status := CondBlocked, todo := [Yield, Relock(m)] + x.todo);
    assert OwnOk(a, x) && StatusFits(x);
    EnlistEffect(k, a, CondBlocked, CondQ(c));
    assert [Yield, Relock(m)] + [] == [Yield, Relock(m)];
    EnlistOk(k, a, CondBlocked, CondQ(c), y);
  }

  lemma MboxBlockOk(k: Core, a: Tid, l: ListId, end: Act)
    requires CoreOk(k) && MayBlock(k, a) && WaitsForMbox(Some(l), end)
    ensures CoreOk(MboxBlock(k, a, l, end)) && SameLives(k, MboxBlock(k, a, l, end))
  {
    var x := T(k, a);
    var y := Linked(x, l, k.clock).(status := MboxBlocked, todo := [YieldRoundRobin, end] + x.todo);
    assert OwnOk(a, x) && StatusFits(x);
    EnlistEffect(k, a, MboxBlocked, l);
    assert [YieldRoundRobin, end] + [] == [YieldRoundRobin, end];
    EnlistOk(k, a, MboxBlocked, l, y);
  }

  /** The running thread blocks on no list and its record becomes y. */
  lemma LeaveOk(k: Core, a: Tid, status: Status, y: Tcb)
    requires CoreOk(k) && IsHead(k, a) && !OnRunqueue(status) && StatusFits(y)
    requires SameLink(y, T(k, a).(status := status, loc := None)) && OwnOk(a, y)
    requires SameMessages(T(k, a), y.(status := Sleeping))
    requires status == ReceiveBlocked ==> L(k, Senders(a)) == []
    ensures CoreOk(SetT(SetStatus(k, a, status), a, y))
  {
    BlockLinks(k, a, status);
    BlockEffect(k, a, status);
    var k1 := SetStatus(k, a, status);
    UpdateKeepsLinks(k1, a, y, None);
    var k' := SetT(k1, a, y);
    var q := SetT(k1, a, y.(status := Sleeping));
    QuietKeepsFlow(k, q);
    StatusOnly(q, k', a);
    assert Own(k');
  }

  /** The flow of messages does not depend on who is blocked. */
  lemma StatusOnly(k: Core, k': Core, a: Tid)
    requires Rendezvous(k) && Flow(k) && a < |k.ts|
    requires k' == SetT(k, a, T(k, a).(status := T(k', a).status))
    requires T(k', a).status == ReceiveBlocked ==> L(k, Senders(a)) == []
    ensures Rendezvous(k') && Flow(k')
  {
    forall t: Tid | t < |k'.ts| ensures RendezvousOk(k', t) && FlowOk(k', t) {
      assert RendezvousOk(k, t) && FlowOk(k, t);
      assert Waiting(k', L(k, Senders(t))) == Waiting(k, L(k, Senders(t)));
    }
  }

  lemma RetireOk(k: Core, a: Tid, status: Status)
    requires CoreOk(k) && MayBlock(k, a) && status in {Sleeping, Zombie, Stopped}
    ensures CoreOk(SetStatus(k, a, status))
    ensures status != Stopped ==> SameLives(k, SetStatus(k, a, status))
  {
    var x := T(k, a);
    assert OwnOk(a, x) && StatusFits(x);
    BlockEffect(k, a, status);
    LeaveOk(k, a, status, x.(status := status, loc := None));
    var k1 := SetStatus(k, a, status);
    assert SetT(k1, a, T(k1, a)) == k1;
  }

  lemma FlagsBlockOk(k: Core, a: Tid, mask: Flags, status: Status, end: Act)
    requires CoreOk(k) && MayBlock(k, a)
    requires (status == FlagBlockedAny && T(k, a).flags * mask == {} && end in {ClearAny(mask), ReadOne(mask)})
          || (status == FlagBlockedAll && !(mask <= T(k, a).flags) && end == ClearAll(mask))
    ensures CoreOk(FlagsBlock(k, a, mask, status, end)) && SameLives(k, FlagsBlock(k, a, mask, status, end))
  {
    var x := T(k, a);
    var y := x.(wait := Mask(mask), answer := None, mail := None, status := status, loc := None,
      todo := [Yield, end] + x.todo);
    assert OwnOk(a, x) && StatusFits(x);
    assert [Yield, end] + [] == [Yield, end];
    BlockEffect(k, a, status);
    LeaveOk(k, a, status, y);
    ParkCommutes(k, a, Mask(mask), status);
    assert FlagsBlock(k, a, mask, status, end) == SetT(SetStatus(k, a, status), a, y);
  }

  /** Setting wait_data and leaving the run queue can be done in either order. */
  lemma ParkCommutes(k: Core, a: Tid, w: Wait, status: Status)
    requires IsHead(k, a) && !OnRunqueue(status)
    ensures SetStatus(Park(k, a, w), a, status)
         == SetT(SetStatus(k, a, status), a,
           T(k, a).(status := status, loc := None, wait := w, answer := None, mail := None))
  {
    BlockEffect(k, a, status);
    BlockEffect(Park(k, a, w), a, status);
  }

  lemma ReceiveBlockOk(k: Core, a: Tid)
    requires CoreOk(k) && MayBlock(k, a) && T(k, a).queue == [] && L(k, Senders(a)) == []
    ensures CoreOk(ReceiveBlock(k, a)) && SameLives(k, ReceiveBlock(k, a))
  {
    var x := T(k, a);
    var y := x.(wait := Buffer(NO_MSG), answer := None, mail := None, status := ReceiveBlocked, loc := None,
                todo := [Yield, Received] + x.todo);
    assert OwnOk(a, x) && StatusFits(x);
    assert [Yield, Received] + [] == [Yield, Received];
    BlockEffect(k, a, ReceiveBlocked);
    LeaveOk(k, a, ReceiveBlocked, y);
    ParkCommutes(k, a, Buffer(NO_MSG), ReceiveBlocked);
    assert ReceiveBlock(k, a) == SetT(SetStatus(k, a, ReceiveBlocked), a, y);
  }
}
