/** The machine can always make its calls: in a state that satisfies the invariant of the kernel,
    what the methods of KernelMachine.Kernel demand of their callers holds. */
module KernelGuards {
  import opened KernelTypes
  import opened KernelSpec
  import opened KernelLinks
  import opened KernelInv
  import opened KernelCore
  import opened KernelState
  import opened KernelSteps
  import opened KernelSched
  import opened KernelMemory
  import opened KernelSections
  import opened KernelThreadSteps
  import opened KernelSyncSteps

  /** The caller of a blocking call is the head of its run queue, so popping the head is right. */
  lemma CallerIsHead(s: State)
    requires Inv(s) && Calling(s)
    ensures IsHead(s.k, s.active.value) && s.active.value < |s.k.ts|
  {
    CallerIsSettled(s);
  }

  /** MutexLockInternal, MutexUnlock, MutexUnlockAndSleep, MutexCancelCall */
  lemma MutexGuard(s: State, m: nat)
    requires Inv(s)
    ensures MayUnlock(s.k, s.locked, m)
  {
    assert MutexOk(s, m) && ListOk(s.k, MutexQ(m));
    if L(s.k, MutexQ(m)) != [] { assert StatusFits(T(s.k, L(s.k, MutexQ(m))[0])); }
  }

  /** CondSignal, and the writers of a mailbox */
  lemma WaitersAreBlocked(s: State, l: ListId)
    requires Inv(s) && !l.Rq?
    ensures Blocked(s.k, L(s.k, l))
  {
    assert ListOk(s.k, l);
    forall t: Tid | t in L(s.k, l) ensures !OnRunqueue(T(s.k, t).status) { assert StatusFits(T(s.k, t)); }
  }

  /** ThreadFlagsSet, and the flag of a queued message */
  lemma FlagsGuard(s: State, t: Tid, mask: Flags)
    requires Inv(s) && t < |s.k.ts|
    ensures (FlagsSatisfied(WithFlags(T(s.k, t), mask)) ==> T(s.k, t).loc == None) && MayReceive(T(s.k, t))
  {
    assert StatusFits(T(s.k, t));
  }

  /** MsgReply */
  lemma ReplyGuard(s: State, pid: nat)
    requires Inv(s) && MayReply(s, pid)
    ensures var t := Lookup(s, pid).value; t < |s.k.ts| && (T(s.k, t).status == ReplyBlocked ==> T(s.k, t).loc == None)
  {
    var t := Lookup(s, pid).value;
    assert s.pids[pid].Some? && t < |s.k.ts|;
    assert OwnOk(t, T(s.k, t));
  }

  /** CondWaitCall: the caller is still the head after it has unlocked the mutex. */
  lemma CondWaitGuard(s: State, m: nat)
    requires Inv(s) && Calling(s)
    ensures IsHead(UnlockCore(s, m).k, s.active.value)
  {
    CallerIsHead(s);
    MutexGuard(s, m);
    if m in s.locked && L(s.k, MutexQ(m)) != [] {
      HandIs(s, m);
      HandKeepsHead(s.k, m, s.active.value);
    } else if m in s.locked {
      FreeMutexIs(s, m);
    }
  }

  lemma HandKeepsHead(k: Core, m: nat, a: Tid)
    requires CoreOk(k) && IsHead(k, a) && L(k, MutexQ(m)) != []
    ensures IsHead(HandedTo(k, m), a)
  {
    assert ListOk(k, MutexQ(m));
    var t := L(k, MutexQ(m))[0];
    assert StatusFits(T(k, t)) && t != a;
  }

  lemma TargetIsOther(s: State, pid: nat)
    requires Inv(s) && Calling(s) && pid != s.activePid && Lookup(s, pid).Some?
    ensures Lookup(s, pid).value < |s.k.ts| && Lookup(s, pid).value != s.active.value
  {
    assert s.pids[pid].Some?;
  }

  /** What becomes of the target's record when the sender a blocks. */
  lemma SendBlockTarget(k: Core, a: Tid, t: Tid, m: Msg)
    requires a != t && t < |k.ts| &&
        (IsHead(k, a) || (T(k, a).status == ReplyBlocked && T(k, a).loc == None && a < |k.ts|))
    ensures T(SendBlock(k, a, t, m), t) == T(k, t).(sent := T(k, t).sent + [m])
  {
    var k0 := Park(k, a, Buffer(m));
    assert T(k0, a).status == T(k, a).status && T(k0, a).prio == T(k, a).prio &&
      L(k0, Rq(T(k, a).prio)) == L(k, Rq(T(k, a).prio));
    assert T(SetStatus(k0, a, if T(k, a).status == ReplyBlocked then ReplyBlocked else SendBlocked), t) == T(k, t);
  }

  /** MsgSendOther: the caller may join the senders of a target whose queue is full. */
  lemma SendGuard(s: State, pid: nat, m: Msg)
    requires Inv(s) && Calling(s) && pid != s.activePid && Lookup(s, pid).Some?
    ensures MayJoin(Tick(s.k), s.active.value, Lookup(s, pid).value, m)
  {
    var k1, t := Tick(s.k), Lookup(s, pid).value;
    CallerIsHead(s);
    TargetIsOther(s, pid);
    FlagsGuard(s, t, MSG_WAITING);
    assert T(k1, t) == T(s.k, t) && T(k1, s.active.value) == T(s.k, s.active.value);
    assert L(k1, Rq(T(k1, s.active.value).prio)) == L(s.k, Rq(T(k1, s.active.value).prio));
    SendBlockTarget(k1, s.active.value, t, m);
  }

  lemma AskedIs(k: Core, a: Tid, t: Tid, m: Msg)
    requires IsHead(k, a) && t != a
    ensures var k1 := Owe(Ask(k, a, m), a, [Replied]);
            |k1.ts| == |k.ts| && T(k1, t) == T(k, t) && T(k1, a).status == ReplyBlocked && T(k1, a).loc == None
  {
    assert T(Tick(k), a) == T(k, a) && L(Tick(k), Rq(T(k, a).prio)) == L(k, Rq(T(k, a).prio));
  }

  /** MsgSendReceive */
  lemma RequestGuard(s: State, pid: nat, m: Msg)
    requires Inv(s) && Calling(s) && pid != s.activePid && Lookup(s, pid).Some?
    ensures MayRequest(s.k, s.active.value, Lookup(s, pid).value, m)
  {
    var a, t := s.active.value, Lookup(s, pid).value;
    CallerIsHead(s);
    TargetIsOther(s, pid);
    FlagsGuard(s, t, MSG_WAITING);
    AskedIs(s.k, a, t, m);
    SendBlockTarget(Owe(Ask(s.k, a, m), a, [Replied]), a, t, m);
  }

  /** MsgReceive: the first waiting sender is another thread, and stays the first. */
  lemma ReceiveGuard(s: State)
    requires Inv(s) && Calling(s)
    ensures var a := s.active.value; var q := L(s.k, Senders(a));
            L(TakeQueued(s.k, a), Senders(a)) == q && (q != [] ==> q[0] != a)
  {
    CallerIsHead(s);
    assert ListOk(s.k, Senders(s.active.value)) && StatusFits(T(s.k, s.active.value));
  }

  /** RelockMutex, RetryMboxPut: a thread that comes to the last action of a call is the head of its
      run queue. */
  lemma ResumerIsHead(s: State, a: Tid)
    requires Inv(s) && MayResume(s, a) && !Detour(T(s.k, a).todo[0])
    ensures IsHead(s.k, a) && a < |s.k.ts|
    ensures T(s.k, a).todo[0].RetryPut? ==> T(s.k, a).todo[0].mbox in s.mboxes
  {
    LastActKeeps(s, a);
    CallerIsSettled(PoppedState(s, a));
    PopKeepsLists(s.k, a);
    assert End(T(s.k, a)) == T(s.k, a).todo[0];
  }

  /** EndThread */
  lemma CallerHasPid(s: State)
    requires Inv(s) && Calling(s)
    ensures s.active.value < |s.k.ts| && s.activePid < |s.pids|
  {
    CallerIsSettled(s);
    assert T(s.k, s.active.value).status != Stopped;
  }

  /** ThreadWakeup, ThreadKillZombie, and every message call */
  lemma TargetExists(s: State, pid: nat)
    requires Inv(s) && Lookup(s, pid).Some?
    ensures Lookup(s, pid).value < |s.k.ts| && StatusFits(T(s.k, Lookup(s, pid).value)) &&
        MayReceive(T(s.k, Lookup(s, pid).value))
  {
    assert s.pids[pid].Some?;
    FlagsGuard(s, Lookup(s, pid).value, MSG_WAITING);
  }

  /** MboxGetCall */
  lemma WritersGuard(s: State, b: nat)
    requires Inv(s)
    ensures HeadBlocked(s.k, Writers(b))
  {
    WaitersAreBlocked(s, Writers(b));
    assert L(s.k, Writers(b)) != [] ==> L(s.k, Writers(b))[0] in L(s.k, Writers(b));
  }

  /** SchedChangePriority */
  lemma ReprioritizeGuard(s: State, t: Tid, prio: nat)
    requires Inv(s) && MayReprioritize(s, t, prio)
    ensures t < |s.k.ts| && StatusFits(T(s.k, t))
  {
  }

  lemma ResumerExists(s: State, a: Tid)
    requires T(s.k, a).todo != []
    ensures a < |s.k.ts|
  {
  }
}
