/** What no step can do: reorder a list, take back a message, change a thread's priority unasked. */
module KernelHistory {
  import opened KernelTypes
  import opened KernelSpec
  import opened KernelLinks
  import opened KernelInv
  import opened KernelCore
  import opened KernelMessages
  import opened KernelSched
  import opened KernelState
  import opened KernelSteps
  import opened KernelThreadSteps
  import opened KernelSyncSteps
  import opened KernelMsgSteps
  import opened KernelMboxSteps

  /** A thread that is linked anew is linked now. */
  predicate LinkStep(x: Tcb, y: Tcb, now: nat) {
    (y.loc == x.loc && y.ticket == x.ticket) || y.loc == None || y.ticket >= now
  }

  /** No mutex is granted to the thread. */
  predicate Kept(x: Tcb, y: Tcb) {
    y.lock == x.lock || y.lock == None
  }

  /** Thread t gets neither messages nor a new priority, and if it is linked anew, it is linked now. */
  predicate Older(k: Core, k': Core, t: Tid) {
    && k.clock <= k'.clock && LinkStep(T(k, t), T(k', t), k.clock)
    && T(k', t).prio == T(k, t).prio && T(k', t).sent == T(k, t).sent && T(k', t).got == T(k, t).got
  }

  /** Nor is it granted a mutex. */
  predicate Aged(k: Core, k': Core, t: Tid) {
    Older(k, k', t) && Kept(T(k, t), T(k', t))
  }

  /** Nobody waits for mutex m, or t is the first to do so. */
  predicate FirstFor(k: Core, m: nat, t: Tid) {
    L(k, MutexQ(m)) == [] || L(k, MutexQ(m))[0] == t
  }

  /** The thread is granted no mutex that another thread waits for in front of it. */
  predicate Barred(k: Core, k': Core, t: Tid) {
    && Older(k, k', t)
    && (Kept(T(k, t), T(k', t)) || (T(k', t).lock.Some? && FirstFor(k, T(k', t).lock.value, t)))
  }

  /** The thread is granted no mutex, but messages may come. */
  predicate Grown(k: Core, k': Core, t: Tid) {
    && k.clock <= k'.clock && LinkStep(T(k, t), T(k', t), k.clock) && Kept(T(k, t), T(k', t))
    && T(k', t).prio == T(k, t).prio && T(k, t).sent <= T(k', t).sent && T(k, t).got <= T(k', t).got
  }

  lemma BarredThen(k: Core, k1: Core, k2: Core, t: Tid)
    requires Barred(k, k1, t) && Aged(k1, k2, t)
    ensures Barred(k, k2, t)
  {
  }

  lemma ThenBars(k: Core, s: State, act: Act, t: Tid)
    requires Barred(k, s.k, t)
    ensures Barred(k, Then(s, act).k, t)
  {
    if !s.isr && s.active.Some? {
      OweAges(s.k, s.active.value, [act], t);
      BarredThen(k, s.k, Owe(s.k, s.active.value, [act]), t);
    }
  }

  lemma AgedTrans(k: Core, k1: Core, k2: Core, t: Tid)
    requires Aged(k, k1, t) && Aged(k1, k2, t)
    ensures Aged(k, k2, t)
  {
  }

  lemma GrownTrans(k: Core, k1: Core, k2: Core, t: Tid)
    requires Grown(k, k1, t) && Grown(k1, k2, t)
    ensures Grown(k, k2, t)
  {
  }

  // ---------------------------------------------------------------- primitives

  lemma SetStatusAges(k: Core, u: Tid, status: Status, t: Tid)
    ensures Aged(k, SetStatus(k, u, status), t)
  {
  }

  lemma AddToListAges(k: Core, l: ListId, u: Tid, t: Tid)
    ensures Aged(k, AddToList(k, l, u), t)
  {
  }

  lemma RotateAges(k: Core, p: nat, t: Tid)
    ensures Aged(k, Rotate(k, p), t)
  {
  }

  lemma WakeHeadAges(k: Core, l: ListId, t: Tid)
    ensures Aged(k, WakeHead(k, l), t)
  {
    if L(k, l) != [] {
      SetStatusAges(RemoveHead(k, l), L(k, l)[0], Pending, t);
      AgedTrans(k, RemoveHead(k, l), WakeHead(k, l), t);
    }
  }

  lemma EnlistAges(k: Core, u: Tid, status: Status, l: ListId, t: Tid)
    ensures Aged(k, AddToList(SetStatus(k, u, status), l, u), t)
  {
    SetStatusAges(k, u, status, t);
    AddToListAges(SetStatus(k, u, status), l, u, t);
    AgedTrans(k, SetStatus(k, u, status), AddToList(SetStatus(k, u, status), l, u), t);
  }

  lemma OweAges(k: Core, u: Tid, acts: seq<Act>, t: Tid)
    ensures Aged(k, Owe(k, u, acts), t)
  {
  }

  lemma ThenAges(k: Core, s: State, act: Act, t: Tid)
    requires Aged(k, s.k, t)
    ensures Aged(k, Then(s, act).k, t)
  {
    if !s.isr && s.active.Some? {
      OweAges(s.k, s.active.value, [act], t);
      AgedTrans(k, s.k, Owe(s.k, s.active.value, [act]), t);
    }
  }

  lemma SchedRunAges(s: State, t: Tid)
    ensures Aged(s.k, SchedRun(s).k, t)
  {
    match Next(s.k)
    case None =>
    case Some(n) =>
  }

  // ---------------------------------------------------------------- threads

  lemma BornAges(k: Core, prio: nat, pid: nat, sleeping: bool, t: Tid)
    requires t < |k.ts|
    ensures Aged(k, Born(k, prio, pid, sleeping), t)
  {
    var k1 := AddThread(k, prio, pid);
    assert T(k1, t) == T(k, t);
    SetStatusAges(k1, |k.ts|, if sleeping then Sleeping else Pending, t);
    AgedTrans(k, k1, Born(k, prio, pid, sleeping), t);
  }

  lemma NewbornAges(s: State, prio: nat, sleeping: bool, pid: nat, t: Tid)
    requires t < |s.k.ts| && prio < LEVELS && FreePid(s.pids, 1) == Some(pid) && pid < |s.pids|
    ensures Aged(s.k, Create(s, prio, sleeping).k, t)
  {
    var s1 := s.(pids := s.pids[pid := Some(|s.k.ts|)], ret := pid, k := Born(s.k, prio, pid, sleeping));
    BornAges(s.k, prio, pid, sleeping, t);
    if !sleeping { ThenAges(s.k, s1, Switch(prio), t); }
  }

  lemma CreateAges(s: State, prio: nat, sleeping: bool, t: Tid)
    requires t < |s.k.ts|
    ensures Aged(s.k, Create(s, prio, sleeping).k, t)
  {
    if prio < LEVELS && FreePid(s.pids, 1).Some? && FreePid(s.pids, 1).value < |s.pids| {
      NewbornAges(s, prio, sleeping, FreePid(s.pids, 1).value, t);
    }
  }

  lemma WakeupAges(s: State, pid: nat, t: Tid)
    ensures Aged(s.k, Wakeup(s, pid).k, t)
  {
    match Lookup(s, pid)
    case None =>
    case Some(u) =>
      SetStatusAges(s.k, u, Running, t);
      ThenAges(s.k, s.(k := SetStatus(s.k, u, Running), ret := 1), Switch(T(s.k, u).prio), t);
  }

  lemma KillZombieAges(s: State, pid: nat, t: Tid)
    ensures Aged(s.k, KillZombie(s, pid).k, t)
  {
    match Lookup(s, pid)
    case None =>
    case Some(u) => if T(s.k, u).status == Zombie { SetStatusAges(s.k, u, Stopped, t); }
  }

  lemma YieldAges(s: State, a: Tid, t: Tid)
    ensures Aged(s.k, YieldCall(s, a).k, t)
  {
    RotateAges(s.k, T(s.k, a).prio, t);
    ThenAges(s.k, s.(k := if OnRunqueue(T(s.k, a).status) then Rotate(s.k, T(s.k, a).prio) else s.k), Yield, t);
  }

  lemma RetireAges(k: Core, s: State, a: Tid, status: Status, t: Tid)
    requires Barred(k, s.k, t)
    ensures Barred(k, Retire(s, a, status).k, t)
  {
    SetStatusAges(s.k, a, status, t);
    BarredThen(k, s.k, SetStatus(s.k, a, status), t);
    ThenBars(k, s.(k := SetStatus(s.k, a, status)), Yield, t);
  }

  lemma ExitAges(s: State, a: Tid, t: Tid)
    ensures Aged(s.k, TaskExit(s, a).k, t)
  {
    var s1 := s.(pids := if s.activePid < |s.pids| then s.pids[s.activePid := None] else s.pids,
                 k := SetStatus(s.k, a, Stopped), active := None);
    SetStatusAges(s.k, a, Stopped, t);
    SchedRunAges(s1, t);
    AgedTrans(s.k, s1.k, SchedRun(s1).k, t);
  }

  /** A change of priority does not concern a thread on a wait list. */
  lemma ChangePriorityAges(s: State, u: Tid, prio: nat, t: Tid)
    requires t != u
    ensures Aged(s.k, ChangePriority(s, u, prio).k, t)
  {
    if T(s.k, u).prio != prio {
      ReprioritizeAges(s.k, u, prio, t);
      ThenAges(s.k, s.(k := Reprioritize(s.k, u, prio)), CheckPriority(u, prio), t);
    }
  }

  lemma ReprioritizeAges(k: Core, u: Tid, prio: nat, t: Tid)
    requires t != u
    ensures Aged(k, Reprioritize(k, u, prio), t)
  {
    var on := OnRunqueue(T(k, u).status);
    var k1 := if on then RemoveHead(k, Rq(T(k, u).prio)) else k;
    var k2 := SetT(k1, u, T(k1, u).(prio := prio));
    assert Aged(k, k1, t) && T(k2, t) == T(k1, t) && k2.clock == k1.clock;
  }

  // ---------------------------------------------------------------- mutexes, conditions, flags

  lemma BlockOnMutexAges(k: Core, a: Tid, m: nat, acts: seq<Act>, t: Tid)
    ensures Aged(k, Owe(BlockOnMutex(k, a, m), a, acts), t)
  {
    var k1 := AddToList(SetStatus(k, a, MutexBlocked), MutexQ(m), a);
    EnlistAges(k, a, MutexBlocked, MutexQ(m), t);
    AgedTrans(k, k1, BlockOnMutex(k, a, m), t);
    OweAges(BlockOnMutex(k, a, m), a, acts, t);
    AgedTrans(k, BlockOnMutex(k, a, m), Owe(BlockOnMutex(k, a, m), a, acts), t);
  }

  lemma LockAges(s: State, a: Tid, m: nat, block: bool, t: Tid)
    requires MutexOk(s, m)
    ensures Barred(s.k, Lock(s, a, m, block).k, t)
  {
    if m in s.locked && block { BlockOnMutexAges(s.k, a, m, [Yield, Locked(m)], t); }
  }

  lemma LockCancelableAges(s: State, a: Tid, id: nat, t: Tid)
    requires id in s.cancels && MutexOk(s, s.cancels[id].mutex)
    ensures Barred(s.k, LockCancelable(s, a, id).k, t)
  {
    var c := s.cancels[id];
    if c.cancelled {
    } else if c.mutex !in s.locked {
    } else {
      BlockOnMutexAges(s.k, a, c.mutex, [Yield, CheckCancel(id)], t);
    }
  }

  lemma UnlockCoreAges(s: State, m: nat, t: Tid)
    ensures Barred(s.k, UnlockCore(s, m).k, t)
  {
    if Heir(s, m).Some? { HeirAges(s, m, t); }
  }

  lemma HeirAges(s: State, m: nat, t: Tid)
    requires Heir(s, m).Some?
    ensures Barred(s.k, UnlockCore(s, m).k, t)
  {
    HandAges(s.k, m, t);
    assert UnlockCore(s, m).k == HandMutex(s.k, m);
  }

  lemma HandAges(k: Core, m: nat, t: Tid)
    ensures Barred(k, HandMutex(k, m), t)
  {
    WakeHeadAges(k, MutexQ(m), t);
  }

  lemma UnlockAges(s: State, m: nat, t: Tid)
    ensures Barred(s.k, Unlock(s, m).k, t)
  {
    UnlockCoreAges(s, m, t);
    match Heir(s, m)
    case None =>
    case Some(h) => ThenBars(s.k, UnlockCore(s, m), Switch(T(s.k, h).prio), t);
  }

  lemma CondWaitAges(s: State, a: Tid, c: nat, m: nat, t: Tid)
    ensures Barred(s.k, CondWait(s, a, c, m).k, t)
  {
    var k1 := UnlockCore(s, m).k;
    var k2 := AddToList(SetStatus(k1, a, CondBlocked), CondQ(c), a);
    UnlockCoreAges(s, m, t);
    EnlistAges(k1, a, CondBlocked, CondQ(c), t);
    BarredThen(s.k, k1, k2, t);
    OweAges(k2, a, [Yield, Relock(m)], t);
    BarredThen(s.k, k2, Owe(k2, a, [Yield, Relock(m)]), t);
  }

  lemma UnqueueAges(k: Core, l: ListId, u: Tid, t: Tid)
    ensures Aged(k, SetStatus(RemoveFrom(k, l, u), u, Pending), t)
  {
    SetStatusAges(RemoveFrom(k, l, u), u, Pending, t);
    AgedTrans(k, RemoveFrom(k, l, u), SetStatus(RemoveFrom(k, l, u), u, Pending), t);
  }

  lemma CancelAges(s: State, id: nat, t: Tid)
    requires id in s.cancels
    ensures Aged(s.k, MutexCancel(s, id).k, t)
  {
    var c := s.cancels[id];
    if !OnRunqueue(T(s.k, c.thread).status) {
      if c.mutex in s.locked && c.thread in L(s.k, MutexQ(c.mutex)) {
        var s1 := s.(cancels := s.cancels[id := c.(cancelled := true)],
                     k := SetStatus(RemoveFrom(s.k, MutexQ(c.mutex), c.thread), c.thread, Pending));
        UnqueueAges(s.k, MutexQ(c.mutex), c.thread, t);
        ThenAges(s.k, s1, Switch(T(s.k, c.thread).prio), t);
      }
    }
  }

  lemma WakeAllAges(k: Core, l: ListId, n: nat, t: Tid)
    ensures Aged(k, WakeAll(k, l, n), t)
    decreases n
  {
    if n > 0 {
      WakeHeadAges(k, l, t);
      WakeAllAges(WakeHead(k, l), l, n - 1, t);
      AgedTrans(k, WakeHead(k, l), WakeAll(k, l, n), t);
    }
  }

  lemma SignalAges(s: State, c: nat, broadcast: bool, t: Tid)
    ensures Aged(s.k, Signal(s, c, broadcast).k, t)
  {
    var woken := Signalled(s, c, broadcast);
    WakeAllAges(s.k, CondQ(c), |woken|, t);
    ThenAges(s.k, s.(k := WakeAll(s.k, CondQ(c), |woken|)), Switch(MinPrio(s.k, woken, LEVELS)), t);
  }

  lemma RaiseAges(k: Core, u: Tid, mask: Flags, t: Tid)
    ensures Aged(k, Raise(k, u, mask), t)
  {
    var k1 := SetT(k, u, WithFlags(T(k, u), mask));
    SetStatusAges(k1, u, Pending, t);
    AgedTrans(k, k1, SetStatus(k1, u, Pending), t);
  }

  lemma FlagsSetAges(s: State, u: Tid, mask: Flags, t: Tid)
    ensures Aged(s.k, FlagsSet(s, u, mask).k, t)
  {
    RaiseFlagsIs(s, u, mask);
    RaiseAges(s.k, u, mask, t);
    ThenAges(s.k, RaiseFlags(s, u, mask), Yield, t);
  }

  lemma FlagsBlockAges(k: Core, a: Tid, mask: Flags, status: Status, rest: Act, t: Tid)
    ensures Aged(k, FlagsBlock(k, a, mask, status, rest), t)
  {
    var k1 := SetStatus(Park(k, a, Mask(mask)), a, status);
    SetStatusAges(Park(k, a, Mask(mask)), a, status, t);
    AgedTrans(k, Park(k, a, Mask(mask)), k1, t);
    OweAges(k1, a, [Yield, rest], t);
    AgedTrans(k, k1, Owe(k1, a, [Yield, rest]), t);
  }

  lemma WaitAges(s: State, a: Tid, mask: Flags, rest: Act, t: Tid)
    ensures Aged(s.k, WaitAny(s, a, mask, rest).k, t) && Aged(s.k, WaitAll(s, a, mask).k, t)
  {
    FlagsBlockAges(s.k, a, mask, FlagBlockedAny, rest, t);
    FlagsBlockAges(s.k, a, mask, FlagBlockedAll, ClearAll(mask), t);
    OweAges(s.k, a, [rest], t);
    OweAges(s.k, a, [ClearAll(mask)], t);
  }

  // ---------------------------------------------------------------- messages

  lemma MarkAges(k: Core, m: Msg, t: Tid)
    ensures Aged(k, MarkAnswerable(k, m), t)
  {
  }

  lemma DeliverGrows(k: Core, u: Tid, m: Msg, t: Tid)
    ensures Grown(k, Deliver(k, u, m), t)
    ensures T(Deliver(k, u, m), t).sent == if t == u && u < |k.ts| then T(k, t).sent + [m] else T(k, t).sent
  {
    var y := T(k, u).(wait := Buffer(m), sent := T(k, u).sent + [m], got := T(k, u).got + [m]);
    SetStatusAges(SetT(k, u, y), u, Pending, t);
    GrownTrans(k, SetT(k, u, y), Deliver(k, u, m), t);
  }

  lemma EnqueueGrows(s: State, u: Tid, m: Msg, t: Tid)
    ensures Grown(s.k, Enqueue(s, u, m).k, t)
    ensures T(Enqueue(s, u, m).k, t).sent == if t == u && u < |s.k.ts| then T(s.k, t).sent + [m] else T(s.k, t).sent
    ensures T(Enqueue(s, u, m).k, t).got == T(s.k, t).got
  {
    var k1 := SetT(s.k, u, Queued(T(s.k, u), m));
    RaiseFlagsIs(s.(k := k1), u, MSG_WAITING);
    RaiseAges(k1, u, MSG_WAITING, t);
    GrownTrans(s.k, k1, Enqueue(s, u, m).k, t);
  }

  lemma SendBlockGrows(k: Core, a: Tid, u: Tid, m: Msg, t: Tid)
    ensures Grown(k, SendBlock(k, a, u, m), t)
    ensures T(SendBlock(k, a, u, m), t).sent == if t == u && u < |k.ts| then T(k, t).sent + [m] else T(k, t).sent
    ensures T(SendBlock(k, a, u, m), t).got == T(k, t).got
  {
    var status := if T(k, a).status == ReplyBlocked then ReplyBlocked else SendBlocked;
    var k0 := Park(k, a, Buffer(m));
    var k1 := AddToList(SetStatus(k0, a, status), Senders(u), a);
    EnlistAges(k0, a, status, Senders(u), t);
    AgedTrans(k, k0, k1, t);
    GrownTrans(k, k1, SendBlock(k, a, u, m), t);
  }

  lemma SendCopyGrows(s: State, a: Tid, u: Tid, m: Msg, block: bool, t: Tid)
    requires T(s.k, u).status == ReceiveBlocked && u < |s.k.ts|
    ensures var s' := MsgSend(s, a, u, m, block);
            && Grown(s.k, s'.k, t) && s'.ret == 1
            && T(s'.k, t).sent == if t == u then T(s.k, t).sent + [m] else T(s.k, t).sent
  {
    var k1 := Deliver(s.k, u, m);
    DeliverGrows(s.k, u, m, t);
    MarkAges(k1, m, t);
    GrownTrans(s.k, k1, MarkAnswerable(k1, m), t);
    ThenAges(MarkAnswerable(k1, m), s.(k := MarkAnswerable(k1, m), ret := 1), Yield, t);
    GrownTrans(s.k, MarkAnswerable(k1, m), MsgSend(s, a, u, m, block).k, t);
  }

  lemma SendQueueGrows(s: State, s1: State, u: Tid, m: Msg, t: Tid)
    requires u < |s.k.ts| && s1 == Enqueue(s.(ret := 1), u, m)
    ensures var s' := Then(s1, SwitchIfRequested);
            && Grown(s.k, s'.k, t) && s'.ret == 1
            && T(s'.k, t).sent == if t == u then T(s.k, t).sent + [m] else T(s.k, t).sent
  {
    EnqueueGrows(s.(ret := 1), u, m, t);
    EnqueueEffect(s.(ret := 1), u, m, t);
    ThenAges(s1.k, s1, SwitchIfRequested, t);
    GrownTrans(s.k, s1.k, Then(s1, SwitchIfRequested).k, t);
  }

  lemma SendJoinGrows(s: State, a: Tid, u: Tid, m: Msg, t: Tid)
    requires T(s.k, u).status != ReceiveBlocked && QueueFull(T(s.k, u)) && u < |s.k.ts|
    ensures var s' := MsgSend(s, a, u, m, true);
            && Grown(s.k, s'.k, t) && s'.ret == 1
            && T(s'.k, t).sent == if t == u then T(s.k, t).sent + [m] else T(s.k, t).sent
  {
    var k1 := SendBlock(s.k, a, u, m);
    var s1 := RaiseFlags(s.(k := k1, ret := 1), u, MSG_WAITING);
    SendBlockGrows(s.k, a, u, m, t);
    RaiseFlagsIs(s.(k := k1, ret := 1), u, MSG_WAITING);
    RaiseAges(k1, u, MSG_WAITING, t);
    GrownTrans(s.k, k1, s1.k, t);
    ThenAges(s1.k, s1, Yield, t);
    GrownTrans(s.k, s1.k, MsgSend(s, a, u, m, true).k, t);
  }

  /** What a send reports is what it does: 1 if exactly one message was accepted for the target,
      0 or -1 if nothing was. */
  predicate SendReported(k: Core, s': State, u: Tid, m: Msg, t: Tid) {
    && Grown(k, s'.k, t)
    && T(s'.k, t).sent == (if t == u && s'.ret == 1 then T(k, t).sent + [m] else T(k, t).sent)
    && (s'.ret == 1 || s'.ret == 0)
  }

  lemma MsgSendGrows(s: State, a: Tid, u: Tid, m: Msg, block: bool, t: Tid)
    requires u < |s.k.ts|
    ensures SendReported(s.k, MsgSend(s, a, u, m, block), u, m, t)
    ensures MsgSend(s, a, u, m, block).ret == 0 ==> !block && QueueFull(T(s.k, u)) && T(s.k, u).status != ReceiveBlocked
  {
    if T(s.k, u).status == ReceiveBlocked {
      SendCopyGrows(s, a, u, m, block, t);
    } else if !QueueFull(T(s.k, u)) {
      SendQueueGrows(s, Enqueue(s.(ret := 1), u, m), u, m, t);
    } else if block {
      SendJoinGrows(s, a, u, m, t);
    }
  }

  lemma TickAges(k: Core, t: Tid)
    ensures Aged(k, Tick(k), t)
  {
    assert T(Tick(k), t) == T(k, t);
  }

  /** Unless it reports 1, a send leaves every record of messages as it is; if it reports 1, the
      thread with that PID has exactly one more message. */
  predicate Reported(s: State, s': State, pid: nat, m: Msg, t: Tid) {
    && Grown(s.k, s'.k, t) && (s'.ret == 1 || s'.ret == 0 || s'.ret == -1)
    && T(s'.k, t).sent == (if s'.ret == 1 && Lookup(s, pid) == Some(t) then T(s.k, t).sent + [m] else T(s.k, t).sent)
    && (s'.ret == -1 <==> Lookup(s, pid) == None)
    && (s'.ret == 0 ==> QueueFull(T(s.k, Lookup(s, pid).value)))
  }

  lemma SendOtherReports(s: State, a: Tid, pid: nat, u: Tid, value: int, block: bool, t: Tid)
    requires pid != s.activePid && Lookup(s, pid) == Some(u) && u < |s.k.ts|
    ensures Reported(s, Send(s, a, pid, value, block), pid, Stamp(s, value, Some(a)), t)
    ensures block ==> Send(s, a, pid, value, block).ret == 1
  {
    var m := Stamp(s, value, Some(a));
    var b := s.(k := Tick(s.k));
    TickAges(s.k, t);
    assert T(b.k, u) == T(s.k, u) && T(b.k, t) == T(s.k, t);
    MsgSendGrows(b, a, u, m, block, t);
    GrownTrans(s.k, b.k, MsgSend(b, a, u, m, block).k, t);
  }

  lemma SendSelfReports(s: State, a: Tid, pid: nat, value: int, block: bool, t: Tid)
    requires pid == s.activePid && Lookup(s, pid) == Some(a) && a < |s.k.ts|
    ensures Reported(s, Send(s, a, pid, value, block), pid, Stamp(s, value, Some(a)), t)
  {
    if !QueueFull(T(s.k, a)) { SelfReports(s, s.(k := Tick(s.k)), a, Stamp(s, value, Some(a)), t); }
  }

  lemma SendReports(s: State, a: Tid, pid: nat, value: int, block: bool, t: Tid)
    requires Inv(s) && Calling(s) && s.active == Some(a)
    ensures Reported(s, Send(s, a, pid, value, block), pid, Stamp(s, value, Some(a)), t)
    ensures block && pid != s.activePid && Lookup(s, pid).Some? ==> Send(s, a, pid, value, block).ret == 1
  {
    ActivePid(s);
    if pid == s.activePid {
      SendSelfReports(s, a, pid, value, block, t);
    } else if Lookup(s, pid).Some? {
      LookupFinds(s, pid);
      SendOtherReports(s, a, pid, Lookup(s, pid).value, value, block, t);
    }
  }

  lemma SelfReports(s: State, b: State, a: Tid, m: Msg, t: Tid)
    requires b == s.(k := Tick(s.k)) && a < |s.k.ts|
    ensures var s' := Enqueue(b.(ret := 1), a, m);
            && Grown(s.k, s'.k, t) && s'.ret == 1
            && T(s'.k, t).sent == if t == a then T(s.k, t).sent + [m] else T(s.k, t).sent
  {
    TickAges(s.k, t);
    EnqueueGrows(b.(ret := 1), a, m, t);
    EnqueueEffect(b.(ret := 1), a, m, t);
    GrownTrans(s.k, b.k, Enqueue(b.(ret := 1), a, m).k, t);
  }

  lemma AskAges(k: Core, a: Tid, m: Msg, t: Tid)
    ensures Aged(k, Owe(Ask(k, a, m), a, [Replied]), t)
  {
    var k1 := SetStatus(Tick(k), a, ReplyBlocked);
    TickAges(k, t);
    SetStatusAges(Tick(k), a, ReplyBlocked, t);
    AgedTrans(k, Tick(k), k1, t);
    assert Aged(k1, Ask(k, a, m), t);
    AgedTrans(k, k1, Ask(k, a, m), t);
    OweAges(Ask(k, a, m), a, [Replied], t);
    AgedTrans(k, Ask(k, a, m), Owe(Ask(k, a, m), a, [Replied]), t);
  }

  /** A request always counts as sent. */
  lemma AskReports(s: State, a: Tid, pid: nat, value: int, t: Tid)
    requires Inv(s) && Calling(s) && s.active == Some(a) && pid != s.activePid && Lookup(s, pid).Some?
    ensures var s' := SendReceive(s, a, pid, value);
            && Grown(s.k, s'.k, t) && s'.ret == 1
            && T(s'.k, t).sent == (if Lookup(s, pid) == Some(t) then T(s.k, t).sent + [Stamp(s, value, Some(a))]
                                   else T(s.k, t).sent)
  {
    var m := Stamp(s, value, Some(a));
    var b := s.(k := Owe(Ask(s.k, a, m), a, [Replied]));
    LookupFinds(s, pid);
    AskAges(s.k, a, m, t);
    AskSize(s.k, a, m);
    MsgSendGrows(b, a, Lookup(s, pid).value, m, true, t);
    GrownTrans(s.k, b.k, SendReceive(s, a, pid, value).k, t);
  }

  lemma AskSize(k: Core, a: Tid, m: Msg)
    ensures |Owe(Ask(k, a, m), a, [Replied]).ts| == |k.ts|
  {
  }

  lemma SendIntReports(s: State, pid: nat, value: int, t: Tid)
    requires PidsOk(s)
    ensures Reported(s, SendInt(s, pid, value), pid, Stamp(s, value, None), t)
  {
    match Lookup(s, pid)
    case None =>
    case Some(u) =>
      if T(s.k, u).status == ReceiveBlocked {
        IntCopyGrows(s, u, Stamp(s, value, None), t);
      } else if !QueueFull(T(s.k, u)) {
        SelfReports(s, s.(k := Tick(s.k)), u, Stamp(s, value, None), t);
      }
  }

  lemma IntCopyGrows(s: State, u: Tid, m: Msg, t: Tid)
    requires u < |s.k.ts|
    ensures var k' := Deliver(Tick(s.k), u, m);
            Grown(s.k, k', t) && T(k', t).sent == if t == u then T(s.k, t).sent + [m] else T(s.k, t).sent
  {
    TickAges(s.k, t);
    DeliverGrows(Tick(s.k), u, m, t);
    GrownTrans(s.k, Tick(s.k), Deliver(Tick(s.k), u, m), t);
  }

  lemma AnswerAges(k: Core, u: Tid, reply: Msg, t: Tid)
    ensures Aged(k, Answer(k, u, reply), t)
  {
    var k1 := SetT(k, u, T(k, u).(wait := Buffer(reply), answer := Some(reply)));
    SetStatusAges(k1, u, Pending, t);
    AgedTrans(k, k1, Answer(k, u, reply), t);
  }

  lemma ReplyAges(s: State, pid: nat, reply: Msg, t: Tid)
    ensures Aged(s.k, Reply(s, pid, reply).k, t)
  {
    match Lookup(s, pid)
    case None =>
    case Some(u) =>
      if T(s.k, u).status == ReplyBlocked {
        AnswerAges(s.k, u, reply, t);
        ThenAges(s.k, s.(k := Answer(s.k, u, reply), ret := 1), Switch(T(s.k, u).prio), t);
      }
  }

  // ---------------------------------------------------------------- receiving

  /** Receiving takes no message that was sent, and only the receiver gets any. */
  predicate Took(k: Core, k': Core, a: Tid, t: Tid) {
    Grown(k, k', t) && T(k', t).sent == T(k, t).sent && (t != a ==> T(k', t).got == T(k, t).got)
  }

  lemma TookTrans(k: Core, k1: Core, k2: Core, a: Tid, t: Tid)
    requires Took(k, k1, a, t) && Took(k1, k2, a, t)
    ensures Took(k, k2, a, t)
  {
  }

  lemma TakeQueuedTakes(k: Core, a: Tid, t: Tid)
    ensures Took(k, TakeQueued(k, a), a, t)
  {
    if T(k, a).queue != [] {
      var k1 := SetT(k, a, Taken(T(k, a)));
      assert Took(k, k1, a, t);
      MarkAges(k1, T(k, a).queue[0], t);
      TookTrans(k, k1, TakeQueued(k, a), a, t);
    }
  }

  lemma DrainedTakes(k: Core, a: Tid, x: Tid, queued: bool, t: Tid)
    ensures Took(k, Drained(k, a, x, queued), a, t)
  {
    var m := Content(T(k, x).wait);
    var k1 := RemoveHead(k, Senders(a));
    assert Took(k, k1, a, t);
    if queued {
      assert Took(k1, Refill(k1, a, m), a, t);
      TookTrans(k, k1, Refill(k1, a, m), a, t);
    } else {
      var k2 := SetT(k1, a, T(k1, a).(wait := Buffer(m), answer := None, got := T(k1, a).got + [m]));
      assert Took(k1, k2, a, t);
      TookTrans(k, k1, k2, a, t);
      MarkAges(k2, m, t);
      TookTrans(k, k2, Drained(k, a, x, queued), a, t);
    }
  }

  lemma ReleaseAges(k: Core, x: Tid, t: Tid)
    ensures Aged(k, ReleaseSender(k, x), t)
  {
    if T(k, x).status != ReplyBlocked {
      var k1 := SetT(k, x, T(k, x).(wait := NoData));
      SetStatusAges(k1, x, Pending, t);
      AgedTrans(k, k1, ReleaseSender(k, x), t);
    }
  }

  lemma UnloadedTakes(k: Core, a: Tid, t: Tid)
    requires L(k, Senders(a)) != []
    ensures Took(k, Unloaded(k, a), a, t)
  {
    var x := L(k, Senders(a))[0];
    var k1 := TakeQueued(k, a);
    var k2 := Drained(k1, a, x, T(k, a).queue != []);
    TakeQueuedTakes(k, a, t);
    DrainedTakes(k1, a, x, T(k, a).queue != [], t);
    TookTrans(k, k1, k2, a, t);
    ReleaseAges(k2, x, t);
    TookTrans(k, k2, Unloaded(k, a), a, t);
  }

  lemma ReceiveBlockAges(k: Core, a: Tid, t: Tid)
    ensures Aged(k, ReceiveBlock(k, a), t)
  {
    var k1 := SetStatus(Park(k, a, Buffer(NO_MSG)), a, ReceiveBlocked);
    SetStatusAges(Park(k, a, Buffer(NO_MSG)), a, ReceiveBlocked, t);
    AgedTrans(k, Park(k, a, Buffer(NO_MSG)), k1, t);
    OweAges(k1, a, [Yield, Received], t);
    AgedTrans(k, k1, ReceiveBlock(k, a), t);
  }

  lemma ReceiveWaitingTakes(s: State, a: Tid, block: bool, t: Tid)
    requires L(s.k, Senders(a)) != []
    ensures Took(s.k, Receive(s, a, block).k, a, t)
  {
    var s1 := s.(k := Unloaded(s.k, a), ret := 1);
    UnloadedTakes(s.k, a, t);
    ReceiveWaitingIs(s, s1, a, block);
    ThenAges(s1.k, s1, Switch(ReleasedPrio(s.k, a)), t);
    TookTrans(s.k, s1.k, Then(s1, Switch(ReleasedPrio(s.k, a))).k, a, t);
  }

  lemma ReceiveRestTakes(s: State, a: Tid, block: bool, t: Tid)
    requires L(s.k, Senders(a)) == []
    ensures Took(s.k, Receive(s, a, block).k, a, t)
  {
    if T(s.k, a).queue != [] {
      TakeQueuedTakes(s.k, a, t);
    } else if block {
      ReceiveBlockAges(s.k, a, t);
    }
  }

  lemma ReceiveTakes(s: State, a: Tid, block: bool, t: Tid)
    ensures Took(s.k, Receive(s, a, block).k, a, t)
  {
    if L(s.k, Senders(a)) != [] { ReceiveWaitingTakes(s, a, block, t); } else { ReceiveRestTakes(s, a, block, t); }
  }

  // ---------------------------------------------------------------- mailboxes

  lemma MboxBlockAges(k: Core, a: Tid, l: ListId, rest: Act, t: Tid)
    ensures Aged(k, MboxBlock(k, a, l, rest), t)
  {
    var k1 := AddToList(SetStatus(k, a, MboxBlocked), l, a);
    EnlistAges(k, a, MboxBlocked, l, t);
    OweAges(k1, a, [YieldRoundRobin, rest], t);
    AgedTrans(k, k1, MboxBlock(k, a, l, rest), t);
  }

  lemma PutLoopAges(s: State, b: nat, value: int, blocking: bool, t: Tid)
    requires b in s.mboxes
    ensures Aged(s.k, PutLoop(s, b, value, blocking).k, t)
  {
    if |s.mboxes[b].ring| >= s.mboxes[b].cap {
      if blocking && s.active.Some? { MboxBlockAges(s.k, s.active.value, Writers(b), RetryPut(b, value), t); }
    } else {
      TickAges(s.k, t);
    }
  }

  lemma HandOverAges(k: Core, b: nat, m: Msg, t: Tid)
    ensures Aged(k, HandOver(k, b, m), t)
  {
    if L(k, Readers(b)) != [] {
      var u := L(k, Readers(b))[0];
      var k1 := RemoveHead(Tick(k), Readers(b));
      var k2 := SetT(k1, u, T(k1, u).(wait := Buffer(m), mail := Some(m)));
      TickAges(k, t);
      assert Aged(Tick(k), k2, t);
      AgedTrans(k, Tick(k), k2, t);
      SetStatusAges(k2, u, Pending, t);
      AgedTrans(k, k2, HandOver(k, b, m), t);
    }
  }

  lemma MboxPutAges(s: State, b: nat, value: int, blocking: bool, t: Tid)
    requires b in s.mboxes
    ensures Aged(s.k, MboxPut(s, b, value, blocking).k, t)
  {
    if L(s.k, Readers(b)) == [] {
      PutLoopAges(s, b, value, blocking, t);
    } else {
      HandOverStepAges(s, b, value, blocking, t);
    }
  }

  lemma HandOverStepAges(s: State, b: nat, value: int, blocking: bool, t: Tid)
    requires b in s.mboxes && L(s.k, Readers(b)) != []
    ensures Aged(s.k, MboxPut(s, b, value, blocking).k, t)
  {
    var m := Msg(0, value, Author(s), s.k.clock);
    HandOverAges(s.k, b, m, t);
    var mb := s.mboxes[b];
    ThenAges(s.k, s.(k := HandOver(s.k, b, m),
                     mboxes := s.mboxes[b := Passed(mb, m, L(s.k, Readers(b))[0])], ret := 1),
             Switch(T(s.k, L(s.k, Readers(b))[0]).prio), t);
  }

  lemma DrawAges(s: State, b: nat, blocking: bool, t: Tid)
    requires b in s.mboxes && s.mboxes[b].ring != []
    ensures Aged(s.k, MboxGet(s, b, blocking).k, t)
  {
    WakeHeadAges(s.k, Writers(b), t);
    if L(s.k, Writers(b)) != [] { ThenAges(s.k, Drawn(s, b), Switch(T(s.k, L(s.k, Writers(b))[0]).prio), t); }
  }

  lemma MboxGetAges(s: State, b: nat, blocking: bool, t: Tid)
    requires b in s.mboxes
    ensures Aged(s.k, MboxGet(s, b, blocking).k, t)
  {
    if s.mboxes[b].ring != [] {
      DrawAges(s, b, blocking, t);
    } else if blocking && s.active.Some? {
      var k1 := Park(s.k, s.active.value, Buffer(NO_MSG));
      MboxBlockAges(k1, s.active.value, Readers(b), GotMail(b), t);
      AgedTrans(s.k, k1, MboxBlock(k1, s.active.value, Readers(b), GotMail(b)), t);
    }
  }

  // ---------------------------------------------------------------- every step

  lemma PoppedAges(s: State, a: Tid, t: Tid)
    requires T(s.k, a).todo != []
    ensures Aged(s.k, PoppedState(s, a).k, t)
  {
  }

  lemma ResumeYieldAges(s: State, a: Tid, t: Tid)
    requires T(s.k, a).todo != [] && T(s.k, a).todo[0].Yield?
    ensures Aged(s.k, Resume(s, a).k, t)
  {
    var s1 := PoppedState(s, a);
    PoppedAges(s, a, t);
    SchedRunAges(s1, t);
    AgedTrans(s.k, s1.k, SchedRun(s1).k, t);
  }

  lemma ResumeRoundRobinAges(s: State, a: Tid, t: Tid)
    requires T(s.k, a).todo != [] && T(s.k, a).todo[0].YieldRoundRobin?
    ensures Aged(s.k, Resume(s, a).k, t)
  {
    var s1 := PoppedState(s, a);
    PoppedAges(s, a, t);
    YieldAges(s1, a, t);
    AgedTrans(s.k, s1.k, YieldCall(s1, a).k, t);
  }

  lemma ResumeRelockAges(s: State, a: Tid, m: nat, t: Tid)
    requires T(s.k, a).todo != [] && T(s.k, a).todo[0] == Relock(m) && MutexOk(s, m)
    ensures Barred(s.k, Resume(s, a).k, t)
  {
    var s1 := PoppedState(s, a);
    PoppedAges(s, a, t);
    assert forall l :: L(s1.k, l) == L(s.k, l);
    LockAges(s1, a, m, true, t);
    BarredAfter(s.k, s1.k, Lock(s1, a, m, true).k, t);
  }

  lemma BarredAfter(k: Core, k1: Core, k2: Core, t: Tid)
    requires Aged(k, k1, t) && Barred(k1, k2, t) && forall l :: L(k1, l) == L(k, l)
    ensures Barred(k, k2, t)
  {
  }

  lemma ResumeRetryAges(s: State, a: Tid, t: Tid)
    requires T(s.k, a).todo != [] && T(s.k, a).todo[0].RetryPut?
    ensures Aged(s.k, Resume(s, a).k, t)
  {
    var s1 := PoppedState(s, a);
    var act := T(s.k, a).todo[0];
    PoppedAges(s, a, t);
    if act.mbox in s.mboxes {
      PutLoopAges(s1, act.mbox, act.value, true, t);
      AgedTrans(s.k, s1.k, PutLoop(s1, act.mbox, act.value, true).k, t);
    }
  }

  lemma ResumeTestAges(s: State, a: Tid, t: Tid)
    requires T(s.k, a).todo != []
    requires T(s.k, a).todo[0].Switch? || T(s.k, a).todo[0].SwitchIfRequested? || T(s.k, a).todo[0].CheckPriority?
    ensures Aged(s.k, Resume(s, a).k, t)
  {
    assert Aged(s.k, Popped(s.k, a), t);
    OweAges(Popped(s.k, a), a, [Yield], t);
    AgedTrans(s.k, Popped(s.k, a), Owe(Popped(s.k, a), a, [Yield]), t);
    assert Resume(s, a).k == Popped(s.k, a) || Resume(s, a).k == Owe(Popped(s.k, a), a, [Yield]);
  }

  lemma ResumeFlagsAges(s: State, a: Tid, t: Tid)
    requires T(s.k, a).todo != []
    requires T(s.k, a).todo[0].ClearAny? || T(s.k, a).todo[0].ClearAll? || T(s.k, a).todo[0].ReadOne? ||
        T(s.k, a).todo[0].ClearOne?
    ensures Aged(s.k, Resume(s, a).k, t)
  {
    var s1 := PoppedState(s, a);
    assert Aged(s.k, s1.k, t);
    match T(s.k, a).todo[0]
    case ClearAny(mask) => AgedTrans(s.k, s1.k, FlagsClear(s1, a, mask).k, t);
    case ClearAll(mask) => AgedTrans(s.k, s1.k, FlagsClear(s1, a, mask).k, t);
    case ClearOne(bit) => AgedTrans(s.k, s1.k, FlagsClear(s1, a, bit).k, t);
    case ReadOne(mask) =>
      OweAges(s1.k, a, [ClearOne(Lowest(T(s.k, a).flags * mask))], t);
      AgedTrans(s.k, s1.k, Owe(s1.k, a, [ClearOne(Lowest(T(s.k, a).flags * mask))]), t);
  }

  lemma ResumeAges(s: State, a: Tid, t: Tid)
    requires T(s.k, a).todo != [] && MutexesOk(s)
    ensures Barred(s.k, Resume(s, a).k, t)
  {
    var act := T(s.k, a).todo[0];
    if act.Yield? {
      ResumeYieldAges(s, a, t);
    } else if act.YieldRoundRobin? {
      ResumeRoundRobinAges(s, a, t);
    } else if act.Relock? {
      assert MutexOk(s, act.mutex);
      ResumeRelockAges(s, a, act.mutex, t);
    } else if act.RetryPut? {
      ResumeRetryAges(s, a, t);
    } else if act.Switch? || act.SwitchIfRequested? || act.CheckPriority? {
      ResumeTestAges(s, a, t);
    } else if act.ClearAny? || act.ClearAll? || act.ReadOne? || act.ClearOne? {
      ResumeFlagsAges(s, a, t);
    } else {
      assert Resume(s, a).k == Popped(s.k, a);
    }
  }

  lemma CpuAges(s: State, e: CpuEvent, t: Tid)
    requires CpuEnabled(s, e) && MutexesOk(s)
    ensures Barred(s.k, CpuStep(s, e).k, t)
  {
    match e
    case EnterIsr =>
    case ExitIsr => SchedRunAges(s.(isr := false), t);
    case Preempt => SchedRunAges(s, t);
    case Continue => ResumeAges(s, s.active.value, t);
  }

  lemma ThreadAges(s: State, e: ThreadCall, t: Tid)
    requires ThreadEnabled(s, e) && (e.DoCreate? ==> t < |s.k.ts|) && (e.DoChangePriority? ==> e.thread != t)
    ensures Aged(s.k, ThreadStep(s, e).k, t)
  {
    match e
    case DoCreate(p, sl) => CreateAges(s, p, sl, t);
    case DoWakeup(pid) => WakeupAges(s, pid, t);
    case DoKillZombie(pid) => KillZombieAges(s, pid, t);
    case DoChangePriority(u, p) => ChangePriorityAges(s, u, p, t);
  }

  lemma WakeCallAges(s: State, e: WakeCall, t: Tid)
    requires WakeEnabled(s, e)
    ensures Barred(s.k, WakeStep(s, e).k, t)
  {
    match e
    case DoUnlock(m) => UnlockAges(s, m, t);
    case DoCancel(id) => CancelAges(s, id, t);
    case DoSignal(c, bc) => SignalAges(s, c, bc, t);
    case DoFlagsSet(u, mask) => FlagsSetAges(s, u, mask, t);
  }

  lemma OwnAges(s: State, e: OwnCall, t: Tid)
    requires Calling(s)
    ensures Barred(s.k, OwnStep(s, e).k, t)
  {
    match e
    case DoYield => YieldAges(s, s.active.value, t);
    case DoSleep => RetireAges(s.k, s, s.active.value, Sleeping, t);
    case DoZombify => RetireAges(s.k, s, s.active.value, Zombie, t);
    case DoExit => ExitAges(s, s.active.value, t);
  }

  lemma LockCallAges(s: State, e: LockCall, t: Tid)
    requires LockEnabled(s, e) && MutexesOk(s)
    ensures Barred(s.k, LockStep(s, e).k, t)
  {
    match e
    case DoLock(m, block) => assert MutexOk(s, m); LockAges(s, s.active.value, m, block, t);
    case DoInitCancel(id, m) =>
    case DoLockCancelable(id) => assert MutexOk(s, s.cancels[id].mutex); LockCancelableAges(s, s.active.value, id, t);
    case DoUnlockAndSleep(m) =>
      UnlockCoreAges(s, m, t);
      RetireAges(s.k, UnlockCore(s, m), s.active.value, Sleeping, t);
    case DoCondWait(c, m) => CondWaitAges(s, s.active.value, c, m, t);
  }

  lemma FlagsAges(s: State, e: FlagsCall, t: Tid)
    requires Calling(s)
    ensures Aged(s.k, FlagsStep(s, e).k, t)
  {
    match e
    case DoFlagsClear(mask) =>
    case DoWaitAny(mask) => WaitAges(s, s.active.value, mask, ClearAny(mask), t);
    case DoWaitOne(mask) => WaitAges(s, s.active.value, mask, ReadOne(mask), t);
    case DoWaitAll(mask) => WaitAges(s, s.active.value, mask, ClearAll(mask), t);
  }

  lemma MboxAges(s: State, e: MboxCall, t: Tid)
    requires MboxEnabled(s, e)
    ensures Aged(s.k, MboxStep(s, e).k, t)
  {
    match e
    case DoInitMbox(b, cap) =>
    case DoPut(b, v) => MboxPutAges(s, b, v, true, t);
    case DoTryPut(b, v) => MboxPutAges(s, b, v, false, t);
    case DoGet(b) => MboxGetAges(s, b, true, t);
    case DoTryGet(b) => MboxGetAges(s, b, false, t);
  }

  /** The message that a call sends, and to whom. */
  function Message(s: State, e: MsgCall): Option<(nat, Msg)>
  {
    match e
    case DoSend(pid, v, block) => Some((pid, Msg(s.activePid, v, s.active, s.k.clock)))
    case DoSendReceive(pid, v) => Some((pid, Msg(s.activePid, v, s.active, s.k.clock)))
    case DoSendInt(pid, v) => Some((pid, Msg(PID_ISR, v, None, s.k.clock)))
    case _ => None
  }

  lemma MsgGrows(s: State, e: MsgCall, t: Tid)
    requires Inv(s) && MsgEnabled(s, e)
    ensures Grown(s.k, MsgStep(s, e).k, t)
    ensures Message(s, e) == None ==> T(MsgStep(s, e).k, t).sent == T(s.k, t).sent
    ensures Message(s, e).Some? ==> Reported(s, MsgStep(s, e), Message(s, e).value.0, Message(s, e).value.1, t)
  {
    match e
    case DoSend(pid, v, block) => SendReports(s, s.active.value, pid, v, block, t);
    case DoSendReceive(pid, v) => AskReports(s, s.active.value, pid, v, t);
    case DoReceive(block) => ReceiveTakes(s, s.active.value, block, t);
    case DoInitQueue(cap) =>
    case DoReply(pid, reply) => ReplyAges(s, pid, reply, t);
    case DoSendInt(pid, v) => SendIntReports(s, pid, v, t);
  }

  /** Apart from messages, and from being given another priority, threads only grow older. */
  lemma StepAges(s: State, e: Event, t: Tid)
    requires Enabled(s, e) && !e.ForMsg? && MutexesOk(s)
    requires e.ForThread? ==> (e.call.DoCreate? ==> t < |s.k.ts|) && (e.call.DoChangePriority? ==> e.call.thread != t)
    ensures Barred(s.k, Step(s, e).k, t)
  {
    match e
    case Cpu(c) => CpuAges(s, c, t);
    case ForThread(c) => ThreadAges(s, c, t);
    case ForWaking(c) => WakeCallAges(s, c, t);
    case ForOwn(c) => OwnAges(s, c, t);
    case ForLock(c) => LockCallAges(s, c, t);
    case ForFlags(c) => FlagsAges(s, c, t);
    case ForMbox(c) => MboxAges(s, c, t);
  }
}
