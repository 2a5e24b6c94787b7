/** Who wakes whom: a thread that is blocked stays as it is until the call that its status waits
    for is made. */
module KernelWaking {
  import opened KernelTypes
  import opened KernelSpec
  import opened KernelLinks
  import opened KernelInv
  import opened KernelCore
  import opened KernelMessages
  import opened KernelSched
  import opened KernelState
  import opened KernelSteps
  import opened KernelSteady
  import opened KernelThreadSteps
  import opened KernelSyncSteps
  import opened KernelMsgSteps
  import opened KernelMboxSteps

  /** What may happen to a blocked thread without its noticing: flags and messages arrive that it
      does not wait for, its request is received, its priority is changed; and the thread that has
      just blocked gives up the processor. */
  predicate Untouched(x: Tcb, y: Tcb) {
    y == x.(flags := y.flags, queue := y.queue, sent := y.sent, answerable := y.answerable, prio := y.prio,
      todo := y.todo)
  }

  predicate IsFirst(k: Core, l: ListId, t: Tid) {
    L(k, l) != [] && L(k, l)[0] == t
  }

  // ---------------------------------------------------------------- parts of calls

  lemma UntouchedTrans(x: Tcb, y: Tcb, z: Tcb)
    requires Untouched(x, y) && Untouched(y, z)
    ensures Untouched(x, z)
  {
  }

  lemma OweTouches(x: Tcb, k: Core, a: Tid, acts: seq<Act>, t: Tid)
    requires Untouched(x, T(k, t))
    ensures Untouched(x, T(Owe(k, a, acts), t))
  {
  }

  lemma ThenTouches(x: Tcb, s: State, act: Act, t: Tid)
    requires Untouched(x, T(s.k, t))
    ensures Untouched(x, T(Then(s, act).k, t))
  {
    if !s.isr && s.active.Some? { OweTouches(x, s.k, s.active.value, [act], t); }
  }

  lemma SchedRunTouches(s: State, t: Tid)
    requires Links(s.k) && !OnRunqueue(T(s.k, t).status)
    ensures T(SchedRun(s).k, t) == T(s.k, t)
  {
    SchedRunRemarks(s);
    assert StaysRunnable(T(s.k, t), T(SchedRun(s).k, t));
  }

  lemma RotateTouches(k: Core, p: nat, t: Tid)
    requires Links(k) && !OnRunqueue(T(k, t).status)
    ensures T(Rotate(k, p), t) == T(k, t)
  {
    if L(k, Rq(p)) != [] { ListedIsRunnable(k, p, L(k, Rq(p))[0]); }
  }

  lemma RaiseTouches(k: Core, u: Tid, mask: Flags, t: Tid)
    requires u < |k.ts| && (t == u ==> !FlagsSatisfied(WithFlags(T(k, u), mask)))
    ensures Untouched(T(k, t), T(Raise(k, u, mask), t))
  {
    if FlagsSatisfied(WithFlags(T(k, u), mask)) { WakeEffect(SetT(k, u, WithFlags(T(k, u), mask)), u, Pending); }
  }

  lemma MarkTouches(k: Core, m: Msg, t: Tid)
    ensures Untouched(T(k, t), T(MarkAnswerable(k, m), t))
  {
  }

  lemma UnlockCoreTouches(s: State, m: nat, t: Tid)
    requires Links(s.k) && Heir(s, m) != Some(t)
    ensures T(UnlockCore(s, m).k, t) == T(s.k, t)
  {
    if m in s.locked {
      match Heir(s, m)
      case None =>
      case Some(h) => HandEffect(s.k, m); assert UnlockCore(s, m).k == HandMutex(s.k, m);
    }
  }

  lemma LockTouches(s: State, a: Tid, m: nat, block: bool, t: Tid)
    requires MayBlock(s.k, a) && t != a
    ensures T(Lock(s, a, m, block).k, t) == T(s.k, t)
  {
    if m in s.locked && block { MutexBlockEffect(s.k, a, m, Locked(m)); }
  }

  lemma MboxBlockTouches(k: Core, a: Tid, l: ListId, rest: Act, t: Tid)
    requires MayBlock(k, a) && !l.Rq? && t != a
    ensures T(MboxBlock(k, a, l, rest), t) == T(k, t)
  {
    EnlistEffect(k, a, MboxBlocked, l);
  }

  lemma PutLoopTouches(s: State, b: nat, value: int, blocking: bool, t: Tid)
    requires b in s.mboxes && (s.active.Some? && blocking ==> MayBlock(s.k, s.active.value) && t != s.active.value)
    ensures T(PutLoop(s, b, value, blocking).k, t) == T(s.k, t)
  {
    if blocking && s.active.Some? && |s.mboxes[b].ring| >= s.mboxes[b].cap {
      MboxBlockTouches(s.k, s.active.value, Writers(b), RetryPut(b, value), t);
    }
  }

  // ---------------------------------------------------------------- going on with a call

  lemma PoppedTouches(k: Core, a: Tid, t: Tid)
    requires T(k, a).todo != []
    ensures Untouched(T(k, t), T(Popped(k, a), t)) && T(Popped(k, a), t).status == T(k, t).status
  {
  }

  lemma ResumeTestTouches(s: State, a: Tid, t: Tid)
    requires T(s.k, a).todo != []
    requires T(s.k, a).todo[0].Switch? || T(s.k, a).todo[0].SwitchIfRequested? || T(s.k, a).todo[0].CheckPriority?
    ensures Untouched(T(s.k, t), T(Resume(s, a).k, t))
  {
    assert Resume(s, a).k == Popped(s.k, a) || Resume(s, a).k == Owe(Popped(s.k, a), a, [Yield]);
  }

  lemma ResumeYieldTouches(s: State, a: Tid, t: Tid)
    requires CoreOk(s.k) && a < |s.k.ts| && T(s.k, a).todo != [] && !OnRunqueue(T(s.k, t).status)
    requires T(s.k, a).todo[0].Yield? || T(s.k, a).todo[0].YieldRoundRobin?
    ensures Untouched(T(s.k, t), T(Resume(s, a).k, t))
  {
    var s1 := PoppedState(s, a);
    PoppedOk(s.k, a);
    PoppedTouches(s.k, a, t);
    if T(s.k, a).todo[0].Yield? { SchedRunTouches(s1, t); } else { YieldTouches(s1, a, t); }
  }

  lemma YieldTouches(s: State, a: Tid, t: Tid)
    requires Links(s.k) && !OnRunqueue(T(s.k, t).status)
    ensures Untouched(T(s.k, t), T(YieldCall(s, a).k, t))
  {
    RotateTouches(s.k, T(s.k, a).prio, t);
    ThenTouches(T(s.k, t), s.(k := if OnRunqueue(T(s.k, a).status) then Rotate(s.k, T(s.k, a).prio) else s.k), Yield,
      t);
  }

  lemma ResumeEndTouches(s: State, a: Tid, t: Tid)
    requires Inv(s) && MayResume(s, a) && !Detour(T(s.k, a).todo[0]) && !OnRunqueue(T(s.k, t).status)
    ensures Untouched(T(s.k, t), T(Resume(s, a).k, t))
  {
    var s1 := PoppedState(s, a);
    LastActKeeps(s, a);
    CallerIsSettled(s1);
    PoppedTouches(s.k, a, t);
    match T(s.k, a).todo[0]
    case Relock(m) => LockTouches(s1, a, m, true, t);
    case RetryPut(b, v) => if b in s.mboxes { PutLoopTouches(s1, b, v, true, t); }
    case _ =>
  }

  // ---------------------------------------------------------------- whole steps

  lemma ContinueTouches(s: State, a: Tid, t: Tid)
    requires Inv(s) && MayResume(s, a) && !OnRunqueue(T(s.k, t).status)
    ensures Untouched(T(s.k, t), T(Resume(s, a).k, t))
  {
    match T(s.k, a).todo[0]
    case Yield => ResumeYieldTouches(s, a, t);
    case YieldRoundRobin => ResumeYieldTouches(s, a, t);
    case Switch(p) => ResumeTestTouches(s, a, t);
    case SwitchIfRequested => ResumeTestTouches(s, a, t);
    case CheckPriority(u, p) => ResumeTestTouches(s, a, t);
    case _ => ResumeEndTouches(s, a, t);
  }

  lemma CpuTouches(s: State, e: CpuEvent, t: Tid)
    requires Inv(s) && CpuEnabled(s, e) && !OnRunqueue(T(s.k, t).status)
    ensures Untouched(T(s.k, t), T(CpuStep(s, e).k, t))
  {
    match e
    case EnterIsr =>
    case ExitIsr => SchedRunTouches(s.(isr := false), t);
    case Preempt => SchedRunTouches(s, t);
    case Continue => ContinueTouches(s, s.active.value, t);
  }

  lemma BornTouches(k: Core, prio: nat, pid: nat, sleeping: bool, t: Tid)
    requires t < |k.ts|
    ensures T(Born(k, prio, pid, sleeping), t) == T(k, t)
  {
    assert T(AddThread(k, prio, pid), t) == T(k, t);
    assert T(AddThread(k, prio, pid), |k.ts|).status == Stopped;
  }

  lemma CreateTouches(s: State, prio: nat, sleeping: bool, t: Tid)
    requires t < |s.k.ts|
    ensures Untouched(T(s.k, t), T(Create(s, prio, sleeping).k, t))
  {
    if prio < LEVELS {
      match FreePid(s.pids, 1)
      case None =>
      case Some(pid) =>
        if pid < |s.pids| {
          var s1 := s.(pids := s.pids[pid := Some(|s.k.ts|)], ret := pid, k := Born(s.k, prio, pid, sleeping));
          BornTouches(s.k, prio, pid, sleeping, t);
          ThenTouches(T(s.k, t), s1, Switch(prio), t);
        }
    }
  }

  /** A thread that wakes another one. */
  lemma WakeTouches(k: Core, u: Tid, status: Status, t: Tid)
    requires t != u && u < |k.ts| && !OnRunqueue(T(k, u).status)
    ensures T(SetStatus(k, u, status), t) == T(k, t)
  {
    if OnRunqueue(status) { WakeEffect(k, u, status); }
  }

  lemma WakeupTouches(s: State, pid: nat, t: Tid)
    requires Inv(s) && !(Lookup(s, pid) == Some(t) && T(s.k, t).status == Sleeping)
    ensures Untouched(T(s.k, t), T(Wakeup(s, pid).k, t))
  {
    match Lookup(s, pid)
    case None =>
    case Some(u) =>
      if T(s.k, u).status == Sleeping { WakeSleeperTouches(s, pid, u, t); }
  }

  lemma WakeSleeperTouches(s: State, pid: nat, u: Tid, t: Tid)
    requires Inv(s) && Lookup(s, pid) == Some(u) && T(s.k, u).status == Sleeping && u != t
    ensures Untouched(T(s.k, t), T(Wakeup(s, pid).k, t))
  {
    LookupFinds(s, pid);
    WakeTouches(s.k, u, Running, t);
    ThenTouches(T(s.k, t), s.(k := SetStatus(s.k, u, Running), ret := 1), Switch(T(s.k, u).prio), t);
  }

  lemma KillZombieTouches(s: State, pid: nat, t: Tid)
    requires Inv(s) && !(Lookup(s, pid) == Some(t) && T(s.k, t).status == Zombie)
    ensures Untouched(T(s.k, t), T(KillZombie(s, pid).k, t))
  {
    match Lookup(s, pid)
    case None =>
    case Some(u) =>
      LookupFinds(s, pid);
      if T(s.k, u).status == Zombie { WakeTouches(s.k, u, Stopped, t); }
  }

  lemma ChangePriorityTouches(s: State, u: Tid, prio: nat, t: Tid)
    requires Links(s.k) && MayChangePriority(s.k, u) && !OnRunqueue(T(s.k, t).status)
    ensures Untouched(T(s.k, t), T(ChangePriority(s, u, prio).k, t))
  {
    if T(s.k, u).prio != prio {
      ReprioritizeEffect(s.k, u, prio);
      ThenTouches(T(s.k, t), s.(k := Reprioritize(s.k, u, prio)), CheckPriority(u, prio), t);
    }
  }

  lemma UnlockTouches(s: State, m: nat, t: Tid)
    requires Links(s.k) && Heir(s, m) != Some(t)
    ensures Untouched(T(s.k, t), T(Unlock(s, m).k, t))
  {
    UnlockCoreTouches(s, m, t);
    match Heir(s, m)
    case None =>
    case Some(h) => ThenTouches(T(s.k, t), UnlockCore(s, m), Switch(T(s.k, h).prio), t);
  }

  lemma UnqueueTouches(k: Core, m: nat, u: Tid, t: Tid)
    requires Links(k) && u in L(k, MutexQ(m)) && t != u
    ensures T(SetStatus(RemoveFrom(k, MutexQ(m), u), u, Pending), t) == T(k, t)
  {
    WaitersBlocked(k, MutexQ(m), u);
    WakeTouches(RemoveFrom(k, MutexQ(m), u), u, Pending, t);
  }

  lemma CancelTouches(s: State, id: nat, t: Tid)
    requires Links(s.k) && id in s.cancels && s.cancels[id].thread != t
    ensures Untouched(T(s.k, t), T(MutexCancel(s, id).k, t))
  {
    var c := s.cancels[id];
    if !OnRunqueue(T(s.k, c.thread).status) {
      if c.mutex in s.locked && c.thread in L(s.k, MutexQ(c.mutex)) {
        var s1 := s.(cancels := s.cancels[id := c.(cancelled := true)],
                     k := SetStatus(RemoveFrom(s.k, MutexQ(c.mutex), c.thread), c.thread, Pending));
        UnqueueTouches(s.k, c.mutex, c.thread, t);
        ThenTouches(T(s.k, t), s1, Switch(T(s.k, c.thread).prio), t);
      }
    }
  }

  lemma WakeAllTouches(k: Core, l: ListId, n: nat, t: Tid)
    requires Links(k) && l.CondQ? && n <= |L(k, l)| && t !in L(k, l)[..n]
    ensures T(WakeAll(k, l, n), t) == T(k, t)
    decreases n
  {
    if n > 0 {
      WakeHeadEffect(k, l);
      WakeHeadRest(k, l);
      assert forall i :: 0 <= i < n - 1 ==> L(WakeHead(k, l), l)[i] == L(k, l)[..n][i + 1];
      WakeAllTouches(WakeHead(k, l), l, n - 1, t);
    }
  }

  lemma SignalTouches(s: State, c: nat, broadcast: bool, t: Tid)
    requires Links(s.k) && t !in Signalled(s, c, broadcast)
    ensures Untouched(T(s.k, t), T(Signal(s, c, broadcast).k, t))
  {
    var woken := Signalled(s, c, broadcast);
    assert L(s.k, CondQ(c))[..|woken|] == woken;
    WakeAllTouches(s.k, CondQ(c), |woken|, t);
    ThenTouches(T(s.k, t), s.(k := WakeAll(s.k, CondQ(c), |woken|)), Switch(MinPrio(s.k, woken, LEVELS)), t);
  }

  lemma FlagsSetTouches(s: State, u: Tid, mask: Flags, t: Tid)
    requires u < |s.k.ts| && (t == u ==> !FlagsSatisfied(WithFlags(T(s.k, u), mask)))
    ensures Untouched(T(s.k, t), T(FlagsSet(s, u, mask).k, t))
  {
    RaiseFlagsIs(s, u, mask);
    RaiseTouches(s.k, u, mask, t);
    ThenTouches(T(s.k, t), RaiseFlags(s, u, mask), Yield, t);
  }

  lemma ReplyTouches(s: State, pid: nat, reply: Msg, t: Tid)
    requires PidsOk(s) && !(Lookup(s, pid) == Some(t) && T(s.k, t).status == ReplyBlocked)
    ensures Untouched(T(s.k, t), T(Reply(s, pid, reply).k, t))
  {
    match Lookup(s, pid)
    case None =>
    case Some(u) =>
      if T(s.k, u).status == ReplyBlocked {
        WakeTouches(SetT(s.k, u, T(s.k, u).(wait := Buffer(reply), answer := Some(reply))), u, Pending, t);
        ThenTouches(T(s.k, t), s.(k := Answer(s.k, u, reply), ret := 1), Switch(T(s.k, u).prio), t);
      }
  }

  // ---------------------------------------------------------------- mailboxes and messages

  lemma HandOverTouches(k: Core, b: nat, m: Msg, t: Tid)
    requires CoreOk(k) && !IsFirst(k, Readers(b), t)
    ensures T(HandOver(k, b, m), t) == T(k, t)
  {
    if L(k, Readers(b)) != [] { HandOverEffect(k, b, m); }
  }

  lemma MboxPutTouches(s: State, b: nat, value: int, blocking: bool, t: Tid)
    requires CoreOk(s.k) && b in s.mboxes && !IsFirst(s.k, Readers(b), t)
    requires s.active.Some? && blocking ==> MayBlock(s.k, s.active.value) && t != s.active.value
    ensures Untouched(T(s.k, t), T(MboxPut(s, b, value, blocking).k, t))
  {
    if L(s.k, Readers(b)) == [] {
      PutLoopTouches(s, b, value, blocking, t);
    } else {
      var m := Msg(0, value, Author(s), s.k.clock);
      HandOverTouches(s.k, b, m, t);
      assert Untouched(T(s.k, t), T(HandOver(s.k, b, m), t));
    }
  }

  lemma WakeHeadTouches(k: Core, l: ListId, t: Tid)
    requires Links(k) && !l.Rq? && !IsFirst(k, l, t)
    ensures T(WakeHead(k, l), t) == T(k, t)
  {
    if L(k, l) != [] { WakeHeadEffect(k, l); }
  }

  lemma GetBlockTouches(k: Core, a: Tid, b: nat, t: Tid)
    requires CoreOk(k) && MayBlock(k, a) && t != a
    ensures T(MboxBlock(Park(k, a, Buffer(NO_MSG)), a, Readers(b), GotMail(b)), t) == T(k, t)
  {
    ParkForMail(k, a);
    MboxBlockTouches(Park(k, a, Buffer(NO_MSG)), a, Readers(b), GotMail(b), t);
  }

  lemma DrawTouches(s: State, b: nat, blocking: bool, t: Tid)
    requires Links(s.k) && b in s.mboxes && s.mboxes[b].ring != [] && !IsFirst(s.k, Writers(b), t)
    ensures Untouched(T(s.k, t), T(MboxGet(s, b, blocking).k, t))
  {
    WakeHeadTouches(s.k, Writers(b), t);
    if L(s.k, Writers(b)) != [] { ThenTouches(T(s.k, t), Drawn(s, b), Switch(T(s.k, L(s.k, Writers(b))[0]).prio), t); }
  }

  lemma MboxGetTouches(s: State, b: nat, blocking: bool, t: Tid)
    requires CoreOk(s.k) && b in s.mboxes && !IsFirst(s.k, Writers(b), t)
    requires s.active.Some? && blocking ==> MayBlock(s.k, s.active.value) && t != s.active.value
    ensures Untouched(T(s.k, t), T(MboxGet(s, b, blocking).k, t))
  {
    if s.mboxes[b].ring != [] {
      DrawTouches(s, b, blocking, t);
    } else if blocking && s.active.Some? {
      GetBlockTouches(s.k, s.active.value, b, t);
    }
  }

  lemma EnqueueTouches(b: State, u: Tid, m: Msg, t: Tid)
    requires u < |b.k.ts| && (t == u ==> !FlagsSatisfied(WithFlags(T(b.k, u), MSG_WAITING)))
    ensures Untouched(T(b.k, t), T(Enqueue(b, u, m).k, t))
  {
    var k1 := SetT(b.k, u, Queued(T(b.k, u), m));
    RaiseFlagsIs(b.(k := k1), u, MSG_WAITING);
    RaiseTouches(k1, u, MSG_WAITING, t);
  }

  lemma SendBlockTouches(k: Core, a: Tid, u: Tid, m: Msg, t: Tid)
    requires IsHead(k, a) || T(k, a).status == ReplyBlocked
    requires t != a && a < |k.ts| && u < |k.ts| && a != u
    ensures Untouched(T(k, t), T(SendBlock(k, a, u, m), t))
    ensures T(SendBlock(k, a, u, m), t) == T(k, t).(sent := T(SendBlock(k, a, u, m), t).sent)
  {
    if IsHead(k, a) { BlockEffect(Park(k, a, Buffer(m)), a, SendBlocked); }
  }

  lemma CopyTouches(k: Core, u: Tid, m: Msg, t: Tid)
    requires u < |k.ts| && T(k, u).status == ReceiveBlocked && t != u
    ensures Untouched(T(k, t), T(MarkAnswerable(Deliver(k, u, m), m), t))
  {
    DeliverEffect(k, u, m);
    MarkTouches(Deliver(k, u, m), m, t);
  }

  lemma JoinTouches(b: State, a: Tid, u: Tid, m: Msg, t: Tid)
    requires (IsHead(b.k, a) || T(b.k, a).status == ReplyBlocked) && t != a && a < |b.k.ts| && u < |b.k.ts| && a != u
    requires t == u ==> !FlagsSatisfied(WithFlags(T(b.k, t), MSG_WAITING))
    ensures Untouched(T(b.k, t), T(RaiseFlags(b.(k := SendBlock(b.k, a, u, m)), u, MSG_WAITING).k, t))
  {
    var k1 := SendBlock(b.k, a, u, m);
    SendBlockTouches(b.k, a, u, m, t);
    RaiseFlagsIs(b.(k := k1), u, MSG_WAITING);
    RaiseTouches(k1, u, MSG_WAITING, t);
  }

  lemma SendCopyTouches(s: State, a: Tid, u: Tid, m: Msg, block: bool, t: Tid)
    requires u < |s.k.ts| && T(s.k, u).status == ReceiveBlocked && t != u
    ensures Untouched(T(s.k, t), T(MsgSend(s, a, u, m, block).k, t))
  {
    CopyTouches(s.k, u, m, t);
    ThenTouches(T(s.k, t), s.(k := MarkAnswerable(Deliver(s.k, u, m), m), ret := 1), Yield, t);
  }

  lemma SendQueueTouches(s: State, a: Tid, u: Tid, m: Msg, block: bool, t: Tid)
    requires u < |s.k.ts| && T(s.k, u).status != ReceiveBlocked && !QueueFull(T(s.k, u))
    requires t == u ==> !FlagsSatisfied(WithFlags(T(s.k, t), MSG_WAITING))
    ensures Untouched(T(s.k, t), T(MsgSend(s, a, u, m, block).k, t))
  {
    EnqueueTouches(s.(ret := 1), u, m, t);
    ThenTouches(T(s.k, t), Enqueue(s.(ret := 1), u, m), SwitchIfRequested, t);
  }

  lemma SendJoinTouches(s: State, a: Tid, u: Tid, m: Msg, t: Tid)
    requires (IsHead(s.k, a) || T(s.k, a).status == ReplyBlocked) && t != a && a < |s.k.ts| && u < |s.k.ts| && a != u
    requires T(s.k, u).status != ReceiveBlocked && QueueFull(T(s.k, u))
    requires t == u ==> !FlagsSatisfied(WithFlags(T(s.k, t), MSG_WAITING))
    ensures Untouched(T(s.k, t), T(MsgSend(s, a, u, m, true).k, t))
  {
    JoinTouches(s.(ret := 1), a, u, m, t);
    ThenTouches(T(s.k, t), RaiseFlags(s.(ret := 1, k := SendBlock(s.k, a, u, m)), u, MSG_WAITING), Yield, t);
  }

  lemma MsgSendTouches(s: State, a: Tid, u: Tid, m: Msg, block: bool, t: Tid)
    requires Sender(s.k, a, u, m) && t != a
    requires t == u ==> T(s.k, t).status != ReceiveBlocked && !FlagsSatisfied(WithFlags(T(s.k, t), MSG_WAITING))
    ensures Untouched(T(s.k, t), T(MsgSend(s, a, u, m, block).k, t))
  {
    if T(s.k, u).status == ReceiveBlocked {
      SendCopyTouches(s, a, u, m, block, t);
    } else if !QueueFull(T(s.k, u)) {
      SendQueueTouches(s, a, u, m, block, t);
    } else if block {
      SendJoinTouches(s, a, u, m, t);
    }
  }

  /** A message for t is what t waits for. */
  predicate Attentive(tcb: Tcb) {
    tcb.status == ReceiveBlocked || FlagsSatisfied(WithFlags(tcb, MSG_WAITING))
  }

  lemma SendTouches(s: State, a: Tid, pid: nat, value: int, block: bool, t: Tid)
    requires Inv(s) && Calling(s) && s.active == Some(a) && t != a
    requires !(Lookup(s, pid) == Some(t) && Attentive(T(s.k, t)))
    ensures Untouched(T(s.k, t), T(Send(s, a, pid, value, block).k, t))
  {
    var b := s.(k := Tick(s.k));
    assert T(b.k, t) == T(s.k, t);
    if pid == s.activePid {
      if !QueueFull(T(s.k, a)) { EnqueueTouches(b.(ret := 1), a, Stamp(s, value, Some(a)), t); }
    } else {
      match Lookup(s, pid)
      case None =>
      case Some(u) =>
        SenderReady(s, a, pid, value);
        MsgSendTouches(b, a, u, Stamp(s, value, Some(a)), block, t);
    }
  }

  lemma SenderReady(s: State, a: Tid, pid: nat, value: int)
    requires Inv(s) && Calling(s) && s.active == Some(a) && pid != s.activePid && Lookup(s, pid).Some?
    ensures Sender(Tick(s.k), a, Lookup(s, pid).value, Stamp(s, value, Some(a)))
  {
    CallerIsSettled(s);
    LookupFinds(s, pid);
    TickSettled(s.k, a);
  }

  lemma SendReceiveTouches(s: State, a: Tid, pid: nat, value: int, t: Tid)
    requires Inv(s) && Calling(s) && s.active == Some(a) && t != a && pid != s.activePid && Lookup(s, pid).Some?
    requires !(Lookup(s, pid) == Some(t) && Attentive(T(s.k, t)))
    ensures Untouched(T(s.k, t), T(SendReceive(s, a, pid, value).k, t))
  {
    var m := Stamp(s, value, Some(a));
    var b := s.(k := Owe(Ask(s.k, a, m), a, [Replied]));
    CallerIsSettled(s);
    LookupFinds(s, pid);
    AskSends(s, a, m);
    AskOk(s.k, a, m);
    assert T(b.k, t) == T(s.k, t);
    MsgSendTouches(b, a, Lookup(s, pid).value, m, true, t);
  }

  lemma SendIntTouches(s: State, pid: nat, value: int, t: Tid)
    requires PidsOk(s) && !(Lookup(s, pid) == Some(t) && Attentive(T(s.k, t)))
    ensures Untouched(T(s.k, t), T(SendInt(s, pid, value).k, t))
  {
    match Lookup(s, pid)
    case None =>
    case Some(u) =>
      if T(s.k, u).status == ReceiveBlocked {
        SendIntCopyTouches(s, pid, value, u, t);
      } else if !QueueFull(T(s.k, u)) {
        SendIntQueueTouches(s, pid, value, u, t);
      }
  }

  lemma SendIntCopyTouches(s: State, pid: nat, value: int, u: Tid, t: Tid)
    requires PidsOk(s) && Lookup(s, pid) == Some(u) && T(s.k, u).status == ReceiveBlocked && u != t
    ensures Untouched(T(s.k, t), T(SendInt(s, pid, value).k, t))
  {
    assert T(Tick(s.k), t) == T(s.k, t) && T(Tick(s.k), u) == T(s.k, u);
    DeliverEffect(Tick(s.k), u, Stamp(s, value, None));
  }

  lemma SendIntQueueTouches(s: State, pid: nat, value: int, u: Tid, t: Tid)
    requires PidsOk(s) && Lookup(s, pid) == Some(u) && T(s.k, u).status != ReceiveBlocked && !QueueFull(T(s.k, u))
    requires !(u == t && Attentive(T(s.k, t)))
    ensures Untouched(T(s.k, t), T(SendInt(s, pid, value).k, t))
  {
    assert T(Tick(s.k), t) == T(s.k, t) && T(Tick(s.k), u) == T(s.k, u);
    EnqueueTouches(s.(k := Tick(s.k), ret := 1), u, Stamp(s, value, None), t);
  }

  lemma DrainedTouches(k: Core, a: Tid, x: Tid, queued: bool, t: Tid)
    requires L(k, Senders(a)) != [] && x == L(k, Senders(a))[0] && t != a && t != x
    ensures Untouched(T(k, t), T(Drained(k, a, x, queued), t))
  {
  }

  lemma ReleaseTouches(k: Core, x: Tid, t: Tid)
    requires t != x && x < |k.ts| && (T(k, x).status == SendBlocked || T(k, x).status == ReplyBlocked)
    ensures T(ReleaseSender(k, x), t) == T(k, t)
  {
    if T(k, x).status == SendBlocked { WakeTouches(SetT(k, x, T(k, x).(wait := NoData)), x, Pending, t); }
  }

  lemma UnloadTouches(k: Core, a: Tid, t: Tid)
    requires CoreOk(k) && MayBlock(k, a) && L(k, Senders(a)) != [] && t != a && t != L(k, Senders(a))[0]
    ensures Untouched(T(k, t), T(Unloaded(k, a), t))
  {
    var x := L(k, Senders(a))[0];
    var k1 := TakeQueued(k, a);
    var queued := T(k, a).queue != [];
    ReadyAfterQueue(k, a);
    TakeQueuedTouches(k, a, t);
    DrainedTouches(k1, a, x, queued, t);
    assert T(Drained(k1, a, x, queued), x).status == T(k1, x).status;
    ReleaseTouches(Drained(k1, a, x, queued), x, t);
    UntouchedTrans(T(k, t), T(k1, t), T(Drained(k1, a, x, queued), t));
  }

  lemma TakeQueuedTouches(k: Core, a: Tid, t: Tid)
    requires t != a
    ensures Untouched(T(k, t), T(TakeQueued(k, a), t))
  {
  }

  lemma ReceiveWaitingTouches(s: State, a: Tid, block: bool, t: Tid)
    requires CoreOk(s.k) && MayBlock(s.k, a) && L(s.k, Senders(a)) != [] && t != a && t != L(s.k, Senders(a))[0]
    ensures Untouched(T(s.k, t), T(Receive(s, a, block).k, t))
  {
    var s1 := s.(k := Unloaded(s.k, a), ret := 1);
    UnloadTouches(s.k, a, t);
    ReceiveWaitingIs(s, s1, a, block);
    ThenTouches(T(s.k, t), s1, Switch(ReleasedPrio(s.k, a)), t);
  }

  lemma ReceiveBlockTouches(k: Core, a: Tid, t: Tid)
    requires IsHead(k, a) && t != a
    ensures T(ReceiveBlock(k, a), t) == T(k, t)
  {
    BlockEffect(Park(k, a, Buffer(NO_MSG)), a, ReceiveBlocked);
  }

  lemma ReceiveRestTouches(s: State, a: Tid, block: bool, t: Tid)
    requires MayBlock(s.k, a) && L(s.k, Senders(a)) == [] && t != a
    ensures Untouched(T(s.k, t), T(Receive(s, a, block).k, t))
  {
    if T(s.k, a).queue != [] {
      TakeQueuedTouches(s.k, a, t);
    } else if block {
      ReceiveBlockTouches(s.k, a, t);
    }
  }

  lemma ReceiveTouches(s: State, a: Tid, block: bool, t: Tid)
    requires CoreOk(s.k) && MayBlock(s.k, a) && t != a && !IsFirst(s.k, Senders(a), t)
    ensures Untouched(T(s.k, t), T(Receive(s, a, block).k, t))
  {
    if L(s.k, Senders(a)) != [] {
      ReceiveWaitingTouches(s, a, block, t);
    } else {
      ReceiveRestTouches(s, a, block, t);
    }
  }

  // ---------------------------------------------------------------- calls about the caller itself

  lemma RetireTouches(s: State, a: Tid, status: Status, t: Tid)
    requires IsHead(s.k, a) && !OnRunqueue(status) && t != a
    ensures Untouched(T(s.k, t), T(Retire(s, a, status).k, t))
  {
    BlockEffect(s.k, a, status);
    ThenTouches(T(s.k, t), s.(k := SetStatus(s.k, a, status)), Yield, t);
  }

  lemma ExitTouches(s: State, a: Tid, t: Tid)
    requires Inv(s) && Calling(s) && s.active == Some(a) && t != a && !OnRunqueue(T(s.k, t).status)
    ensures T(TaskExit(s, a).k, t) == T(s.k, t)
  {
    var s1 := s.(pids := s.pids[s.activePid := None], k := SetStatus(s.k, a, Stopped), active := None);
    CallerIsSettled(s);
    ActivePid(s);
    ExitedOk(s, s1, a);
    BlockEffect(s.k, a, Stopped);
    SchedRunTouches(s1, t);
  }

  lemma LockCancelableTouches(s: State, a: Tid, id: nat, t: Tid)
    requires MayBlock(s.k, a) && t != a && id in s.cancels
    ensures T(LockCancelable(s, a, id).k, t) == T(s.k, t)
  {
    var c := s.cancels[id];
    if !c.cancelled && c.mutex in s.locked { MutexBlockEffect(s.k, a, c.mutex, CheckCancel(id)); }
  }

  lemma UnlockAndSleepTouches(s: State, a: Tid, m: nat, t: Tid)
    requires Inv(s) && Calling(s) && s.active == Some(a) && t != a && Heir(s, m) != Some(t)
    ensures Untouched(T(s.k, t), T(UnlockAndSleep(s, a, m).k, t))
  {
    UnlockerMayBlock(s, m, a);
    UnlockCoreTouches(s, m, t);
    RetireTouches(UnlockCore(s, m), a, Sleeping, t);
  }

  lemma CondWaitTouches(s: State, a: Tid, c: nat, m: nat, t: Tid)
    requires Inv(s) && Calling(s) && s.active == Some(a) && t != a && Heir(s, m) != Some(t)
    ensures T(CondWait(s, a, c, m).k, t) == T(s.k, t)
  {
    UnlockerMayBlock(s, m, a);
    UnlockCoreTouches(s, m, t);
    EnlistEffect(UnlockCore(s, m).k, a, CondBlocked, CondQ(c));
  }

  lemma FlagsBlockTouches(k: Core, a: Tid, mask: Flags, status: Status, rest: Act, t: Tid)
    requires IsHead(k, a) && !OnRunqueue(status) && t != a
    ensures T(FlagsBlock(k, a, mask, status, rest), t) == T(k, t)
  {
    BlockEffect(Park(k, a, Mask(mask)), a, status);
  }

  lemma WaitTouches(s: State, a: Tid, mask: Flags, rest: Act, t: Tid)
    requires IsHead(s.k, a) && t != a
    ensures T(WaitAny(s, a, mask, rest).k, t) == T(s.k, t) && T(WaitAll(s, a, mask).k, t) == T(s.k, t)
  {
    FlagsBlockTouches(s.k, a, mask, FlagBlockedAny, rest, t);
    FlagsBlockTouches(s.k, a, mask, FlagBlockedAll, ClearAll(mask), t);
  }

  // ---------------------------------------------------------------- every step

  /** The call is one that the blocked thread t waits for. */
  predicate Awaited(s: State, e: Event, t: Tid) {
    match e
    case ForThread(c) => AwaitedThread(s, c, t)
    case ForWaking(c) => AwaitedWake(s, c, t)
    case ForLock(c) => AwaitedLock(s, c, t)
    case ForMsg(c) => AwaitedMsg(s, c, t)
    case ForMbox(c) => AwaitedMbox(s, c, t)
    case _ => false
  }

  predicate AwaitedThread(s: State, c: ThreadCall, t: Tid) {
    match c
    case DoWakeup(pid) => Lookup(s, pid) == Some(t) && T(s.k, t).status == Sleeping
    case DoKillZombie(pid) => Lookup(s, pid) == Some(t) && T(s.k, t).status == Zombie
    case _ => false
  }

  /** The mutex is handed to t, its lock attempt is cancelled, its condition is signalled, or
      flags are set for which it waits. */
  predicate AwaitedWake(s: State, c: WakeCall, t: Tid) {
    match c
    case DoUnlock(m) => Heir(s, m) == Some(t)
    case DoCancel(id) =>
      id in s.cancels && s.cancels[id].thread == t && T(s.k, t).status == MutexBlocked
      && T(s.k, t).loc == Some(MutexQ(s.cancels[id].mutex))
    case DoSignal(cond, broadcast) => t in Signalled(s, cond, broadcast)
    case DoFlagsSet(u, mask) => t == u && FlagsSatisfied(WithFlags(T(s.k, t), mask))
  }

  predicate AwaitedLock(s: State, c: LockCall, t: Tid) {
    match c
    case DoUnlockAndSleep(m) => Heir(s, m) == Some(t)
    case DoCondWait(_, m) => Heir(s, m) == Some(t)
    case _ => false
  }

  /** A message or a reply is sent to t, or t is the first sender whose message is received. */
  predicate AwaitedMsg(s: State, c: MsgCall, t: Tid) {
    match c
    case DoSend(pid, _, _) => Lookup(s, pid) == Some(t) && Attentive(T(s.k, t))
    case DoSendReceive(pid, _) => Lookup(s, pid) == Some(t) && Attentive(T(s.k, t))
    case DoSendInt(pid, _) => Lookup(s, pid) == Some(t) && Attentive(T(s.k, t))
    case DoReply(pid, _) => Lookup(s, pid) == Some(t) && T(s.k, t).status == ReplyBlocked
    case DoReceive(_) => s.active.Some? && IsFirst(s.k, Senders(s.active.value), t)
    case DoInitQueue(_) => false
  }

  predicate AwaitedMbox(s: State, c: MboxCall, t: Tid) {
    match c
    case DoPut(b, _) => IsFirst(s.k, Readers(b), t)
    case DoTryPut(b, _) => IsFirst(s.k, Readers(b), t)
    case DoGet(b) => IsFirst(s.k, Writers(b), t)
    case DoTryGet(b) => IsFirst(s.k, Writers(b), t)
    case DoInitMbox(_, _) => false
  }

  lemma ThreadTouches(s: State, c: ThreadCall, t: Tid)
    requires Inv(s) && ThreadEnabled(s, c) && t < |s.k.ts| && !OnRunqueue(T(s.k, t).status) && !AwaitedThread(s, c, t)
    ensures Untouched(T(s.k, t), T(ThreadStep(s, c).k, t))
  {
    match c
    case DoCreate(p, sl) => CreateTouches(s, p, sl, t);
    case DoWakeup(pid) => WakeupTouches(s, pid, t);
    case DoKillZombie(pid) => KillZombieTouches(s, pid, t);
    case DoChangePriority(u, p) => ChangePriorityTouches(s, u, p, t);
  }

  lemma CancelOther(s: State, id: nat, t: Tid)
    requires Inv(s) && MayCancel(s, id) && t < |s.k.ts| && !OnRunqueue(T(s.k, t).status) &&
        !AwaitedWake(s, DoCancel(id), t)
    ensures Untouched(T(s.k, t), T(MutexCancel(s, id).k, t))
  {
    var c := s.cancels[id];
    if c.thread != t {
      CancelTouches(s, id, t);
    } else {
      assert StatusFits(T(s.k, t)) && ListOk(s.k, MutexQ(c.mutex));
    }
  }

  lemma WakeCallTouches(s: State, c: WakeCall, t: Tid)
    requires Inv(s) && WakeEnabled(s, c) && t < |s.k.ts| && !OnRunqueue(T(s.k, t).status) && !AwaitedWake(s, c, t)
    ensures Untouched(T(s.k, t), T(WakeStep(s, c).k, t))
  {
    match c
    case DoUnlock(m) => UnlockTouches(s, m, t);
    case DoCancel(id) => CancelOther(s, id, t);
    case DoSignal(cond, broadcast) => SignalTouches(s, cond, broadcast, t);
    case DoFlagsSet(u, mask) => FlagsSetTouches(s, u, mask, t);
  }

  /** The caller is not blocked. */
  lemma CallerIsAnother(s: State, t: Tid)
    requires Inv(s) && Calling(s) && !OnRunqueue(T(s.k, t).status)
    ensures t != s.active.value && MayBlock(s.k, s.active.value)
  {
    CallerIsSettled(s);
  }

  lemma OwnTouches(s: State, c: OwnCall, t: Tid)
    requires Inv(s) && Calling(s) && t < |s.k.ts| && !OnRunqueue(T(s.k, t).status)
    ensures Untouched(T(s.k, t), T(OwnStep(s, c).k, t))
  {
    var a := s.active.value;
    CallerIsAnother(s, t);
    match c
    case DoYield => YieldTouches(s, a, t);
    case DoSleep => RetireTouches(s, a, Sleeping, t);
    case DoZombify => RetireTouches(s, a, Zombie, t);
    case DoExit => ExitTouches(s, a, t);
  }

  lemma LockCallTouches(s: State, c: LockCall, t: Tid)
    requires Inv(s) && LockEnabled(s, c) && t < |s.k.ts| && !OnRunqueue(T(s.k, t).status) && !AwaitedLock(s, c, t)
    ensures Untouched(T(s.k, t), T(LockStep(s, c).k, t))
  {
    var a := s.active.value;
    CallerIsAnother(s, t);
    match c
    case DoLock(m, block) => LockTouches(s, a, m, block, t);
    case DoInitCancel(id, m) =>
    case DoLockCancelable(id) => LockCancelableTouches(s, a, id, t);
    case DoUnlockAndSleep(m) => UnlockAndSleepTouches(s, a, m, t);
    case DoCondWait(cond, m) => CondWaitTouches(s, a, cond, m, t);
  }

  lemma FlagsCallTouches(s: State, c: FlagsCall, t: Tid)
    requires Inv(s) && Calling(s) && t < |s.k.ts| && !OnRunqueue(T(s.k, t).status)
    ensures Untouched(T(s.k, t), T(FlagsStep(s, c).k, t))
  {
    var a := s.active.value;
    CallerIsAnother(s, t);
    match c
    case DoFlagsClear(mask) =>
    case DoWaitAny(mask) => WaitTouches(s, a, mask, ClearAny(mask), t);
    case DoWaitOne(mask) => WaitTouches(s, a, mask, ReadOne(mask), t);
    case DoWaitAll(mask) => WaitTouches(s, a, mask, ClearAll(mask), t);
  }

  lemma MsgCallTouches(s: State, c: MsgCall, t: Tid)
    requires Inv(s) && MsgEnabled(s, c) && t < |s.k.ts| && !OnRunqueue(T(s.k, t).status) && !AwaitedMsg(s, c, t)
    ensures Untouched(T(s.k, t), T(MsgStep(s, c).k, t))
  {
    if Calling(s) { CallerIsAnother(s, t); }
    match c
    case DoSend(pid, v, block) => SendTouches(s, s.active.value, pid, v, block, t);
    case DoSendReceive(pid, v) => SendReceiveTouches(s, s.active.value, pid, v, t);
    case DoReceive(block) => ReceiveTouches(s, s.active.value, block, t);
    case DoInitQueue(cap) =>
    case DoReply(pid, reply) => ReplyTouches(s, pid, reply, t);
    case DoSendInt(pid, v) => SendIntTouches(s, pid, v, t);
  }

  lemma MboxCallTouches(s: State, c: MboxCall, t: Tid)
    requires Inv(s) && MboxEnabled(s, c) && t < |s.k.ts| && !OnRunqueue(T(s.k, t).status) && !AwaitedMbox(s, c, t)
    ensures Untouched(T(s.k, t), T(MboxStep(s, c).k, t))
  {
    if Calling(s) { CallerIsAnother(s, t); }
    match c
    case DoInitMbox(b, cap) =>
    case DoPut(b, v) => MboxPutTouches(s, b, v, true, t);
    case DoTryPut(b, v) => MboxPutTouches(s, b, v, false, t);
    case DoGet(b) => MboxGetTouches(s, b, true, t);
    case DoTryGet(b) => MboxGetTouches(s, b, false, t);
  }

  /** A blocked thread stays as it is, its buffer included, until the call it waits for is made. */
  lemma OnlyTheAwaitedCallWakes(s: State, e: Event, t: Tid)
    requires Inv(s) && Enabled(s, e) && t < |s.k.ts| && !OnRunqueue(T(s.k, t).status) && !Awaited(s, e, t)
    ensures Untouched(T(s.k, t), T(Step(s, e).k, t))
  {
    match e
    case Cpu(c) => CpuTouches(s, c, t);
    case ForThread(c) => ThreadTouches(s, c, t);
    case ForWaking(c) => WakeCallTouches(s, c, t);
    case ForOwn(c) => OwnTouches(s, c, t);
    case ForLock(c) => LockCallTouches(s, c, t);
    case ForFlags(c) => FlagsCallTouches(s, c, t);
    case ForMsg(c) => MsgCallTouches(s, c, t);
    case ForMbox(c) => MboxCallTouches(s, c, t);
  }

  // ---------------------------------------------------------------- what the awaited call does

  /** The thread has been woken, or its request has been received, or the zombie is gone. */
  predicate Served(y: Tcb) {
    OnRunqueue(y.status) || (y.status == ReplyBlocked && y.loc == None) || y.status == Stopped
  }

  lemma ThenServes(s: State, act: Act, t: Tid)
    requires Served(T(s.k, t))
    ensures Served(T(Then(s, act).k, t))
  {
  }

  lemma WakeServes(k: Core, t: Tid, status: Status)
    requires t < |k.ts| && (OnRunqueue(status) || status == Stopped)
    ensures Served(T(SetStatus(k, t, status), t))
  {
  }

  lemma WakeupServes(s: State, pid: nat, t: Tid)
    requires Lookup(s, pid) == Some(t) && T(s.k, t).status == Sleeping && t < |s.k.ts|
    ensures Served(T(Wakeup(s, pid).k, t))
  {
    WakeServes(s.k, t, Running);
    ThenServes(s.(k := SetStatus(s.k, t, Running), ret := 1), Switch(T(s.k, t).prio), t);
  }

  lemma KillServes(s: State, pid: nat, t: Tid)
    requires Lookup(s, pid) == Some(t) && T(s.k, t).status == Zombie && t < |s.k.ts|
    ensures Served(T(KillZombie(s, pid).k, t))
  {
    WakeServes(s.k, t, Stopped);
  }

  lemma UnlockCoreServes(s: State, m: nat, t: Tid)
    requires Links(s.k) && Heir(s, m) == Some(t)
    ensures t < |s.k.ts| && OnRunqueue(T(UnlockCore(s, m).k, t).status) && T(UnlockCore(s, m).k, t).lock == Some(m)
  {
    HandEffect(s.k, m);
    assert UnlockCore(s, m).k == HandMutex(s.k, m);
  }

  lemma CancelServes(s: State, id: nat, t: Tid)
    requires Inv(s) && AwaitedWake(s, DoCancel(id), t) && t < |s.k.ts|
    ensures Served(T(MutexCancel(s, id).k, t))
  {
    var c := s.cancels[id];
    assert TcbLinked(s.k, t) && MutexOk(s, c.mutex);
    CancelEffect(s.k, c.mutex, t);
    ThenServes(s.(cancels := s.cancels[id := c.(cancelled := true)],
                  k := SetStatus(RemoveFrom(s.k, MutexQ(c.mutex), t), t, Pending)), Switch(T(s.k, t).prio), t);
  }

  lemma WakeAllServes(k: Core, l: ListId, n: nat, t: Tid)
    requires CoreOk(k) && l.CondQ? && n <= |L(k, l)| && t in L(k, l)[..n]
    ensures OnRunqueue(T(WakeAll(k, l, n), t).status)
    decreases n
  {
    if t == L(k, l)[0] {
      FirstStaysAwake(k, l, n);
    } else {
      var i :| 0 < i < n && L(k, l)[i] == t;
      WakeHeadOk(k, l);
      WakeHeadRest(k, l);
      assert L(WakeHead(k, l), l)[..n - 1][i - 1] == t;
      WakeAllServes(WakeHead(k, l), l, n - 1, t);
    }
  }

  lemma FirstStaysAwake(k: Core, l: ListId, n: nat)
    requires CoreOk(k) && l.CondQ? && 0 < n <= |L(k, l)|
    ensures OnRunqueue(T(WakeAll(k, l, n), L(k, l)[0]).status)
  {
    var k1, t := WakeHead(k, l), L(k, l)[0];
    WakeHeadOk(k, l);
    WakeHeadEffect(k, l);
    WakeHeadRest(k, l);
    NotListed(k1, l, t, None);
    NotInPrefix(L(k1, l), n - 1, t);
    WakeAllTouches(k1, l, n - 1, t);
  }

  lemma NotInPrefix(q: seq<Tid>, n: nat, t: Tid)
    requires t !in q && n <= |q|
    ensures t !in q[..n]
  {
  }

  lemma SignalServes(s: State, c: nat, broadcast: bool, t: Tid)
    requires CoreOk(s.k) && t in Signalled(s, c, broadcast)
    ensures Served(T(Signal(s, c, broadcast).k, t))
  {
    var woken := Signalled(s, c, broadcast);
    assert L(s.k, CondQ(c))[..|woken|] == woken;
    WakeAllServes(s.k, CondQ(c), |woken|, t);
    ThenServes(s.(k := WakeAll(s.k, CondQ(c), |woken|)), Switch(MinPrio(s.k, woken, LEVELS)), t);
  }

  lemma RaiseServes(k: Core, t: Tid, mask: Flags)
    requires t < |k.ts| && FlagsSatisfied(WithFlags(T(k, t), mask))
    ensures Served(T(Raise(k, t, mask), t))
  {
    WakeServes(SetT(k, t, WithFlags(T(k, t), mask)), t, Pending);
  }

  lemma FlagsSetServes(s: State, t: Tid, mask: Flags)
    requires t < |s.k.ts| && FlagsSatisfied(WithFlags(T(s.k, t), mask))
    ensures Served(T(FlagsSet(s, t, mask).k, t))
  {
    RaiseFlagsIs(s, t, mask);
    RaiseServes(s.k, t, mask);
    ThenServes(RaiseFlags(s, t, mask), Yield, t);
  }

  lemma ThreadServes(s: State, c: ThreadCall, t: Tid)
    requires ThreadEnabled(s, c) && t < |s.k.ts| && AwaitedThread(s, c, t)
    ensures Served(T(ThreadStep(s, c).k, t))
  {
    match c
    case DoWakeup(pid) => WakeupServes(s, pid, t);
    case DoKillZombie(pid) => KillServes(s, pid, t);
  }

  lemma UnlockServes(s: State, m: nat, t: Tid)
    requires Links(s.k) && Heir(s, m) == Some(t)
    ensures Served(T(Unlock(s, m).k, t))
  {
    UnlockCoreServes(s, m, t);
    ThenServes(UnlockCore(s, m), Switch(T(s.k, t).prio), t);
  }

  lemma WakeCallServes(s: State, c: WakeCall, t: Tid)
    requires Inv(s) && WakeEnabled(s, c) && t < |s.k.ts| && AwaitedWake(s, c, t)
    ensures Served(T(WakeStep(s, c).k, t))
  {
    match c
    case DoUnlock(m) => UnlockServes(s, m, t);
    case DoCancel(id) => CancelServes(s, id, t);
    case DoSignal(cond, broadcast) => SignalServes(s, cond, broadcast, t);
    case DoFlagsSet(u, mask) => FlagsSetServes(s, t, mask);
  }

  /** The caller hands the mutex over and goes to sleep. */
  lemma SleeperServes(s: State, a: Tid, m: nat, t: Tid)
    requires Inv(s) && Calling(s) && s.active == Some(a) && Heir(s, m) == Some(t)
    ensures Served(T(UnlockAndSleep(s, a, m).k, t))
  {
    var s1 := UnlockCore(s, m);
    UnlockCoreServes(s, m, t);
    HandEffect(s.k, m);
    CallerIsAnother(s, t);
    UnlockerMayBlock(s, m, a);
    RetireTouches(s1, a, Sleeping, t);
  }

  /** Or it waits for a condition. */
  lemma WaiterServes(s: State, a: Tid, c: nat, m: nat, t: Tid)
    requires Inv(s) && Calling(s) && s.active == Some(a) && Heir(s, m) == Some(t)
    ensures Served(T(CondWait(s, a, c, m).k, t))
  {
    var s1 := UnlockCore(s, m);
    UnlockCoreServes(s, m, t);
    HandEffect(s.k, m);
    CallerIsAnother(s, t);
    UnlockerMayBlock(s, m, a);
    EnlistEffect(s1.k, a, CondBlocked, CondQ(c));
  }

  lemma LockCallServes(s: State, c: LockCall, t: Tid)
    requires Inv(s) && LockEnabled(s, c) && AwaitedLock(s, c, t)
    ensures Served(T(LockStep(s, c).k, t))
  {
    match c
    case DoUnlockAndSleep(m) => SleeperServes(s, s.active.value, m, t);
    case DoCondWait(cond, m) => WaiterServes(s, s.active.value, cond, m, t);
  }

  /** Nothing happened to t, or it was served. */
  predicate ServedOrUntouched(x: Tcb, y: Tcb) {
    Served(y) || Untouched(x, y)
  }

  lemma CopyServes(s: State, a: Tid, m: Msg, block: bool, t: Tid)
    requires T(s.k, t).status == ReceiveBlocked && t < |s.k.ts|
    ensures Served(T(MsgSend(s, a, t, m, block).k, t))
  {
    DeliverEffect(s.k, t, m);
    assert T(MarkAnswerable(Deliver(s.k, t, m), m), t).status == Pending;
    ThenServes(s.(k := MarkAnswerable(Deliver(s.k, t, m), m), ret := 1), Yield, t);
  }

  lemma EnqueueServes(s: State, m: Msg, t: Tid)
    requires t < |s.k.ts| && FlagsSatisfied(WithFlags(T(s.k, t), MSG_WAITING))
    ensures Served(T(Enqueue(s, t, m).k, t))
  {
    var k1 := SetT(s.k, t, Queued(T(s.k, t), m));
    RaiseFlagsIs(s.(k := k1), t, MSG_WAITING);
    RaiseServes(k1, t, MSG_WAITING);
  }

  lemma QueueServes(s: State, a: Tid, m: Msg, block: bool, t: Tid)
    requires t < |s.k.ts| && FlagsSatisfied(WithFlags(T(s.k, t), MSG_WAITING)) && !QueueFull(T(s.k, t))
    ensures Served(T(MsgSend(s, a, t, m, block).k, t))
  {
    EnqueueServes(s.(ret := 1), m, t);
    ThenServes(Enqueue(s.(ret := 1), t, m), SwitchIfRequested, t);
  }

  lemma JoinServes(s: State, a: Tid, m: Msg, t: Tid)
    requires t < |s.k.ts| && FlagsSatisfied(WithFlags(T(s.k, t), MSG_WAITING)) && QueueFull(T(s.k, t))
    requires (IsHead(s.k, a) || T(s.k, a).status == ReplyBlocked) && a < |s.k.ts| && t != a
    ensures Served(T(MsgSend(s, a, t, m, true).k, t))
  {
    var k1 := SendBlock(s.k, a, t, m);
    SendBlockTouches(s.k, a, t, m, t);
    RaiseFlagsIs(s.(k := k1, ret := 1), t, MSG_WAITING);
    RaiseServes(k1, t, MSG_WAITING);
    ThenServes(RaiseFlags(s.(k := k1, ret := 1), t, MSG_WAITING), Yield, t);
  }

  lemma MsgSendServes(s: State, a: Tid, m: Msg, block: bool, t: Tid)
    requires Sender(s.k, a, t, m) && Attentive(T(s.k, t))
    ensures ServedOrUntouched(T(s.k, t), T(MsgSend(s, a, t, m, block).k, t))
  {
    if T(s.k, t).status == ReceiveBlocked {
      CopyServes(s, a, m, block, t);
    } else if !QueueFull(T(s.k, t)) {
      QueueServes(s, a, m, block, t);
    } else if block {
      JoinServes(s, a, m, t);
    }
  }

  lemma SendServes(s: State, a: Tid, pid: nat, value: int, block: bool, t: Tid)
    requires Inv(s) && Calling(s) && s.active == Some(a) && t != a && Lookup(s, pid) == Some(t) && Attentive(T(s.k, t))
    ensures ServedOrUntouched(T(s.k, t), T(Send(s, a, pid, value, block).k, t))
  {
    ActivePid(s);
    SenderReady(s, a, pid, value);
    assert T(Tick(s.k), t) == T(s.k, t);
    MsgSendServes(s.(k := Tick(s.k)), a, Stamp(s, value, Some(a)), block, t);
  }

  lemma AskServes(s: State, a: Tid, pid: nat, value: int, t: Tid)
    requires Inv(s) && Calling(s) && s.active == Some(a) && t != a && pid != s.activePid
    requires Lookup(s, pid) == Some(t) && Attentive(T(s.k, t))
    ensures ServedOrUntouched(T(s.k, t), T(SendReceive(s, a, pid, value).k, t))
  {
    var m := Stamp(s, value, Some(a));
    var b := s.(k := Owe(Ask(s.k, a, m), a, [Replied]));
    CallerIsSettled(s);
    LookupFinds(s, pid);
    AskSends(s, a, m);
    AskOk(s.k, a, m);
    assert T(b.k, t) == T(s.k, t);
    MsgSendServes(b, a, m, true, t);
  }

  lemma IntServes(s: State, pid: nat, value: int, t: Tid)
    requires Lookup(s, pid) == Some(t) && Attentive(T(s.k, t)) && t < |s.k.ts|
    ensures ServedOrUntouched(T(s.k, t), T(SendInt(s, pid, value).k, t))
  {
    var m := Stamp(s, value, None);
    var b := s.(k := Tick(s.k));
    assert T(b.k, t) == T(s.k, t);
    if T(s.k, t).status == ReceiveBlocked {
      DeliverEffect(b.k, t, m);
    } else if !QueueFull(T(s.k, t)) {
      EnqueueServes(b.(ret := 1), m, t);
    }
  }

  lemma ReplyServes(s: State, pid: nat, reply: Msg, t: Tid)
    requires Lookup(s, pid) == Some(t) && T(s.k, t).status == ReplyBlocked && t < |s.k.ts|
    ensures Served(T(Reply(s, pid, reply).k, t))
  {
    WakeServes(SetT(s.k, t, T(s.k, t).(wait := Buffer(reply), answer := Some(reply))), t, Pending);
    ThenServes(s.(k := Answer(s.k, t, reply), ret := 1), Switch(T(s.k, t).prio), t);
  }

  lemma ReleaseServes(k: Core, x: Tid)
    requires x < |k.ts| && T(k, x).loc == None && (T(k, x).status == SendBlocked || T(k, x).status == ReplyBlocked)
    ensures Served(T(ReleaseSender(k, x), x))
  {
    if T(k, x).status == SendBlocked { WakeServes(SetT(k, x, T(k, x).(wait := NoData)), x, Pending); }
  }

  lemma DrainedHead(k: Core, a: Tid, x: Tid, queued: bool)
    requires x < |k.ts| && L(k, Senders(a)) != [] && x == L(k, Senders(a))[0] && x != a
    ensures T(Drained(k, a, x, queued), x).loc == None && T(Drained(k, a, x, queued), x).status == T(k, x).status
    ensures |Drained(k, a, x, queued).ts| == |k.ts|
  {
  }

  lemma UnloadServes(k: Core, a: Tid, x: Tid)
    requires CoreOk(k) && MayBlock(k, a) && IsFirst(k, Senders(a), x)
    ensures Served(T(Unloaded(k, a), x))
  {
    var k1 := TakeQueued(k, a);
    var queued := T(k, a).queue != [];
    ReadyAfterQueue(k, a);
    DrainedHead(k1, a, x, queued);
    ReleaseServes(Drained(k1, a, x, queued), x);
  }

  lemma ReceiveServes(s: State, a: Tid, block: bool, t: Tid)
    requires CoreOk(s.k) && MayBlock(s.k, a) && IsFirst(s.k, Senders(a), t)
    ensures Served(T(Receive(s, a, block).k, t))
  {
    var s1 := s.(k := Unloaded(s.k, a), ret := 1);
    UnloadServes(s.k, a, t);
    ReceiveWaitingIs(s, s1, a, block);
    ThenServes(s1, Switch(ReleasedPrio(s.k, a)), t);
  }

  lemma MsgCallServes(s: State, c: MsgCall, t: Tid)
    requires Inv(s) && MsgEnabled(s, c) && t < |s.k.ts| && !OnRunqueue(T(s.k, t).status) && AwaitedMsg(s, c, t)
    ensures ServedOrUntouched(T(s.k, t), T(MsgStep(s, c).k, t))
  {
    if Calling(s) { CallerIsAnother(s, t); }
    match c
    case DoSend(pid, v, block) => SendServes(s, s.active.value, pid, v, block, t);
    case DoSendReceive(pid, v) => AskServes(s, s.active.value, pid, v, t);
    case DoReceive(block) => ReceiveServes(s, s.active.value, block, t);
    case DoReply(pid, reply) => ReplyServes(s, pid, reply, t);
    case DoSendInt(pid, v) => IntServes(s, pid, v, t);
  }

  lemma PutServes(s: State, b: nat, value: int, blocking: bool, t: Tid)
    requires CoreOk(s.k) && b in s.mboxes && IsFirst(s.k, Readers(b), t)
    ensures Served(T(MboxPut(s, b, value, blocking).k, t))
  {
    var m := Msg(0, value, Author(s), s.k.clock);
    var mb := s.mboxes[b];
    HandOverEffect(s.k, b, m);
    HandOverCore(s.k, b, m);
    ThenServes(s.(k := HandOver(s.k, b, m), mboxes := s.mboxes[b := Passed(mb, m, L(s.k, Readers(b))[0])],
                  ret := 1), Switch(T(s.k, t).prio), t);
  }

  lemma DrawServes(s: State, b: nat, blocking: bool, t: Tid)
    requires Links(s.k) && b in s.mboxes && IsFirst(s.k, Writers(b), t) && s.mboxes[b].ring != []
    ensures Served(T(MboxGet(s, b, blocking).k, t))
  {
    WakeHeadEffect(s.k, Writers(b));
    ThenServes(Drawn(s, b), Switch(T(s.k, t).prio), t);
  }

  lemma GetServes(s: State, b: nat, blocking: bool, t: Tid)
    requires CoreOk(s.k) && b in s.mboxes && IsFirst(s.k, Writers(b), t)
    requires s.active.Some? && blocking ==> MayBlock(s.k, s.active.value) && t != s.active.value
    ensures ServedOrUntouched(T(s.k, t), T(MboxGet(s, b, blocking).k, t))
  {
    if s.mboxes[b].ring != [] {
      DrawServes(s, b, blocking, t);
    } else if blocking && s.active.Some? {
      GetBlockTouches(s.k, s.active.value, b, t);
    }
  }

  lemma MboxCallServes(s: State, c: MboxCall, t: Tid)
    requires Inv(s) && MboxEnabled(s, c) && t < |s.k.ts| && !OnRunqueue(T(s.k, t).status) && AwaitedMbox(s, c, t)
    ensures ServedOrUntouched(T(s.k, t), T(MboxStep(s, c).k, t))
  {
    if Calling(s) { CallerIsAnother(s, t); }
    match c
    case DoPut(b, v) => PutServes(s, b, v, true, t);
    case DoTryPut(b, v) => PutServes(s, b, v, false, t);
    case DoGet(b) => GetServes(s, b, true, t);
    case DoTryGet(b) => GetServes(s, b, false, t);
  }

  /** In every step, a blocked thread is left as it is, or is served. */
  lemma BlockedUntilServed(s: State, e: Event, t: Tid)
    requires Inv(s) && Enabled(s, e) && t < |s.k.ts| && !OnRunqueue(T(s.k, t).status)
    ensures ServedOrUntouched(T(s.k, t), T(Step(s, e).k, t))
  {
    if !Awaited(s, e, t) {
      OnlyTheAwaitedCallWakes(s, e, t);
    } else {
      match e
      case ForThread(c) => ThreadServes(s, c, t);
      case ForWaking(c) => WakeCallServes(s, c, t);
      case ForLock(c) => LockCallServes(s, c, t);
      case ForMsg(c) => MsgCallServes(s, c, t);
      case ForMbox(c) => MboxCallServes(s, c, t);
    }
  }
}
