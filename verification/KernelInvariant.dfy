/** Every step keeps the invariant, so it holds in every reachable state. */
module KernelInvariant {
  import opened KernelTypes
  import opened KernelSpec
  import opened KernelLinks
  import opened KernelInv
  import opened KernelCore
  import opened KernelMessages
  import opened KernelSched
  import opened KernelState
  import opened KernelSteps
  import opened KernelSteady
  import opened KernelThreadSteps
  import opened KernelSyncSteps
  import opened KernelMsgSteps
  import opened KernelMboxSteps

  lemma ContinueKeeps(s: State, a: Tid)
    requires Inv(s) && MayResume(s, a)
    ensures Inv(Resume(s, a))
  {
    match T(s.k, a).todo[0]
    case Yield => ResumeYieldKeeps(s, a);
    case YieldRoundRobin => ResumeRoundRobinKeeps(s, a);
    case Switch(p) => ResumeTestKeeps(s, a);
    case SwitchIfRequested => ResumeTestKeeps(s, a);
    case CheckPriority(t, p) => ResumeTestKeeps(s, a);
    case RetryPut(b, v) => RetryKeeps(s, a);
    case _ => ResumeEndKeeps(s, a);
  }

  lemma CpuKeeps(s: State, e: CpuEvent)
    requires Inv(s) && CpuEnabled(s, e)
    ensures Inv(CpuStep(s, e))
  {
    match e
    case EnterIsr => EnterIsrKeeps(s);
    case ExitIsr => LeaveIsrKeeps(s);
    case Preempt => SchedRunKeeps(s);
    case Continue => ContinueKeeps(s, s.active.value);
  }

  lemma EnterIsrKeeps(s: State)
    requires Inv(s) && !s.isr
    ensures Inv(s.(isr := true))
  {
    SameRecords(s, s.(isr := true));
  }

  lemma ThreadCallKeeps(s: State, e: ThreadCall)
    requires Inv(s) && ThreadEnabled(s, e)
    ensures Inv(ThreadStep(s, e))
  {
    match e
    case DoCreate(p, sl) => CreateKeeps(s, p, sl);
    case DoWakeup(pid) => WakeupKeeps(s, pid);
    case DoKillZombie(pid) => KillZombieKeeps(s, pid);
    case DoChangePriority(t, p) => ChangePriorityKeeps(s, t, p);
  }

  lemma WakeCallKeeps(s: State, e: WakeCall)
    requires Inv(s) && WakeEnabled(s, e)
    ensures Inv(WakeStep(s, e))
  {
    match e
    case DoUnlock(m) => UnlockKeeps(s, m);
    case DoCancel(id) => CancelKeeps(s, id);
    case DoSignal(c, bc) => SignalKeeps(s, c, bc);
    case DoFlagsSet(t, mask) => FlagsSetKeeps(s, t, mask);
  }

  lemma OwnCallKeeps(s: State, e: OwnCall)
    requires Inv(s) && Calling(s)
    ensures Inv(OwnStep(s, e))
  {
    match e
    case DoYield => YieldKeeps(s);
    case DoSleep => RetireKeeps(s, Sleeping);
    case DoZombify => RetireKeeps(s, Zombie);
    case DoExit => ExitKeeps(s);
  }

  lemma LockCallKeeps(s: State, e: LockCall)
    requires Inv(s) && LockEnabled(s, e)
    ensures Inv(LockStep(s, e))
  {
    var a := s.active.value;
    match e
    case DoLock(m, block) => LockKeeps(s, a, m, block);
    case DoInitCancel(id, m) => InitCancelKeeps(s, a, id, m);
    case DoLockCancelable(id) => LockCancelableKeeps(s, a, id);
    case DoUnlockAndSleep(m) => UnlockAndSleepKeeps(s, a, m);
    case DoCondWait(c, m) => CondWaitKeeps(s, a, c, m);
  }

  lemma FlagsCallKeeps(s: State, e: FlagsCall)
    requires Inv(s) && Calling(s)
    ensures Inv(FlagsStep(s, e))
  {
    var a := s.active.value;
    match e
    case DoFlagsClear(mask) => FlagsClearKeeps(s, a, mask);
    case DoWaitAny(mask) => WaitAnyKeeps(s, a, mask, ClearAny(mask));
    case DoWaitOne(mask) => WaitAnyKeeps(s, a, mask, ReadOne(mask));
    case DoWaitAll(mask) => WaitAllKeeps(s, a, mask);
  }

  lemma MsgCallKeeps(s: State, e: MsgCall)
    requires Inv(s) && MsgEnabled(s, e)
    ensures Inv(MsgStep(s, e))
  {
    match e
    case DoSend(pid, v, block) => SendKeeps(s, s.active.value, pid, v, block);
    case DoSendReceive(pid, v) => SendReceiveKeeps(s, s.active.value, pid, v);
    case DoReceive(block) => ReceiveKeeps(s, s.active.value, block);
    case DoInitQueue(cap) => InitQueueKeeps(s, s.active.value, cap);
    case DoReply(pid, reply) => ReplyKeeps(s, pid, reply);
    case DoSendInt(pid, v) => SendIntKeeps(s, pid, v);
  }

  lemma MboxCallKeeps(s: State, e: MboxCall)
    requires Inv(s) && MboxEnabled(s, e)
    ensures Inv(MboxStep(s, e))
  {
    match e
    case DoInitMbox(b, cap) => InitMboxKeeps(s, b, cap);
    case DoPut(b, v) => MboxPutKeeps(s, b, v, true);
    case DoTryPut(b, v) => MboxPutKeeps(s, b, v, false);
    case DoGet(b) => MboxGetKeeps(s, b, true);
    case DoTryGet(b) => MboxGetKeeps(s, b, false);
  }

  lemma StepKeeps(s: State, e: Event)
    requires Inv(s) && Enabled(s, e)
    ensures Inv(Step(s, e))
  {
    match e
    case Cpu(c) => CpuKeeps(s, c);
    case ForThread(c) => ThreadCallKeeps(s, c);
    case ForWaking(c) => WakeCallKeeps(s, c);
    case ForOwn(c) => OwnCallKeeps(s, c);
    case ForLock(c) => LockCallKeeps(s, c);
    case ForFlags(c) => FlagsCallKeeps(s, c);
    case ForMsg(c) => MsgCallKeeps(s, c);
    case ForMbox(c) => MboxCallKeeps(s, c);
  }

  lemma InitLinks(s: State)
    requires Init(s)
    ensures CoreOk(s.k)
  {
    var k := s.k;
    var p := k.ts[0].prio;
    assert forall l :: L(k, l) == if l == Rq(p) then [0] else [];
    forall l ensures ListOk(k, l) { }
    forall t: Tid | t < |k.ts| ensures TcbLinked(k, t) && StatusFits(T(k, t)) && OwnOk(t, T(k, t)) {
      assert 0 in L(k, Rq(p));
    }
    forall t: Tid | t < |k.ts| ensures RendezvousOk(k, t) && FlowOk(k, t) { assert Accepted(k, t) == []; }
  }

  lemma InitKeeps(s: State)
    requires Init(s)
    ensures Inv(s)
  {
    InitLinks(s);
    assert forall l :: L(s.k, l) == if l == Rq(s.k.ts[0].prio) then [0] else [];
    InitScheduled(s);
    forall m: nat ensures MutexOk(s, m) { }
  }

  lemma InitScheduled(s: State)
    requires Init(s) && Links(s.k)
    ensures SchedOk(s) && PidsOk(s)
  {
    assert forall l :: L(s.k, l) == if l == Rq(s.k.ts[0].prio) then [0] else [];
  }

  lemma {:induction false} RunKeeps(s: State, es: seq<Event>, s': State)
    requires Inv(s) && Run(s, es, s')
    ensures Inv(s')
    decreases |es|
  {
    if es != [] {
      StepKeeps(s, es[0]);
      RunKeeps(Step(s, es[0]), es[1..], s');
    }
  }

  /** Every state that any interleaving of threads, interrupt handlers and preemptions leads to. */
  ghost predicate Reachable(s': State) {
    exists s, es :: Init(s) && Run(s, es, s')
  }

  lemma ReachableOk(s': State)
    requires Reachable(s')
    ensures Inv(s')
  {
    var s, es :| Init(s) && Run(s, es, s');
    InitKeeps(s);
    RunKeeps(s, es, s');
  }

  lemma {:induction false} RunAppends(s: State, es: seq<Event>, s': State, e: Event)
    requires Run(s, es, s') && Enabled(s', e)
    ensures Run(s, es + [e], Step(s', e))
    decreases |es|
  {
    if es == [] {
      assert es + [e] == [e] && [e][1..] == [];
      assert Run(Step(s', e), [], Step(s', e));
    } else {
      RunAppends(Step(s, es[0]), es[1..], s', e);
      assert (es + [e])[0] == es[0] && (es + [e])[1..] == es[1..] + [e];
    }
  }

  /** What is reachable stays reachable. */
  lemma ReachableStep(s: State, e: Event)
    requires Reachable(s) && Enabled(s, e)
    ensures Reachable(Step(s, e))
  {
    var s0, es :| Init(s0) && Run(s0, es, s);
    RunAppends(s0, es, s, e);
  }
}
