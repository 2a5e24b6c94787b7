/** The machine refines the state machine: from every state that satisfies the invariant of the kernel,
    every step can be made by the methods of KernelMachine.Kernel, and leads to the state it should. */
module KernelRefinement {
  import opened KernelTypes
  import opened KernelSpec
  import Spec = KernelSpec
  import opened KernelLinks
  import opened KernelInv
  import opened KernelSched
  import opened KernelState
  import opened KernelSteps
  import opened KernelThreadSteps
  import opened KernelInvariant
  import opened Cib
  import opened KernelMemory
  import opened KernelSections
  import opened KernelMachine
  import opened KernelGuards
  import opened KernelFields

  // ---------------------------------------------------------------- the processor

  method StartHandler(k: Kernel)
    requires k.Valid()
    modifies k
    ensures k.Valid() && k.View() == old(k.View()).(isr := true)
  {
    k.EnterIsr();
  }

  method EndHandler(k: Kernel)
    requires k.Valid()
    modifies k
    ensures k.Valid() && k.View() == LeaveIsr(old(k.View()))
  {
    LeaveFields(k.View());
    k.ExitIsr();
  }

  method SwitchThread(k: Kernel)
    requires k.Valid()
    modifies k
    ensures k.Valid() && k.View() == SchedRun(old(k.View()))
  {
    SwitchFields(k.View());
    k.SchedRunNow();
  }

  // ---------------------------------------------------------------- threads

  method CreateThread(k: Kernel, prio: nat, sleeping: bool)
    requires k.Valid()
    modifies k
    ensures k.Valid() && k.View() == Create(old(k.View()), prio, sleeping)
  {
    CreateFields(k.View(), prio, sleeping);
    k.ThreadCreate(prio, sleeping);
  }

  method WakeThread(k: Kernel, pid: nat)
    requires k.Valid() &&
        (Lookup(k.View(), pid).Some? ==>
          Lookup(k.View(), pid).value < |k.ts| && StatusFits(k.ts[Lookup(k.View(), pid).value]))
    modifies k
    ensures k.Valid() && k.View() == Wakeup(old(k.View()), pid)
  {
    hide Wakeup;
    WakeupFields(k.View(), pid);
    k.ThreadWakeup(pid);
  }

  method KillThread(k: Kernel, pid: nat)
    requires k.Valid() && (Lookup(k.View(), pid).Some? ==> Lookup(k.View(), pid).value < |k.ts|)
    modifies k
    ensures k.Valid() && k.View() == KillZombie(old(k.View()), pid)
  {
    KillFields(k.View(), pid);
    k.ThreadKillZombie(pid);
  }

  method MoveThread(k: Kernel, t: Tid, prio: nat)
    requires k.Valid() && t < |k.ts| && prio < LEVELS && MayChangePriority(k.K(), t) && StatusFits(k.ts[t])
    modifies k
    ensures k.Valid() && k.View() == ChangePriority(old(k.View()), t, prio)
  {
    PriorityFields(k.View(), t, prio);
    k.SchedChangePriority(t, prio);
  }

  method YieldThread(k: Kernel)
    requires k.Valid() && k.active.Some? && k.active.value < |k.ts|
    modifies k
    ensures k.Valid() && k.View() == YieldCall(old(k.View()), old(k.active).value)
  {
    YieldFields(k.View(), k.active.value);
    k.ThreadYield();
  }

  method RetireThread(k: Kernel, status: Status)
    requires k.Valid() && k.active.Some? && k.active.value < |k.ts| && !OnRunqueue(status)
    modifies k
    ensures k.Valid() && k.View() == Retire(old(k.View()), old(k.active).value, status)
  {
    hide Retire;
    RetireFields(k.View(), k.active.value, status);
    k.ThreadRetire(status);
  }

  method FinishThread(k: Kernel)
    requires k.Valid() && k.active.Some? && k.active.value < |k.ts| && k.activePid < |k.pids|
    modifies k
    ensures k.Valid() && k.View() == Ended(old(k.View()), old(k.active).value)
  {
    k.EndThread();
  }

  method ExitThread(k: Kernel)
    requires k.Valid() && k.active.Some? && k.active.value < |k.ts| && k.activePid < |k.pids|
    modifies k
    ensures k.Valid() && k.View() == TaskExit(old(k.View()), old(k.active).value)
  {
    ExitIs(k.View(), k.active.value);
    FinishThread(k);
    SwitchThread(k);
  }

  // ---------------------------------------------------------------- mutexes, conditions and flags

  method LockMutex(k: Kernel, m: nat, block: bool)
    requires k.Valid() && k.active.Some? && IsHead(k.K(), k.active.value)
    requires L(k.K(), MutexQ(m)) != [] ==> m in k.locked
    modifies k
    ensures k.Valid() && k.View() == Lock(old(k.View()), old(k.active).value, m, block)
  {
    hide Lock;
    LockFields(k.View(), k.active.value, m, block);
    k.MutexLockInternal(m, block);
  }

  method StartCancelable(k: Kernel, id: nat, m: nat)
    requires k.Valid() && k.active.Some?
    modifies k
    ensures k.Valid() && k.View() == InitCancel(old(k.View()), old(k.active).value, id, m)
  {
    k.MutexCancelInit(id, m);
  }

  method LockMutexCancelable(k: Kernel, id: nat)
    requires k.Valid() && k.active.Some? && IsHead(k.K(), k.active.value) && id in k.cancels
    requires L(k.K(), MutexQ(k.cancels[id].mutex)) != [] ==> k.cancels[id].mutex in k.locked
    modifies k
    ensures k.Valid() && k.View() == LockCancelable(old(k.View()), old(k.active).value, id)
  {
    hide LockCancelable;
    LockCancelableFields(k.View(), k.active.value, id);
    k.MutexLockCancelable(id);
  }

  method UnlockMutex(k: Kernel, m: nat)
    requires k.Valid() && MayUnlock(k.K(), k.locked, m)
    modifies k
    ensures k.Valid() && k.View() == Unlock(old(k.View()), m)
  {
    hide Unlock;
    UnlockFields1(k.View(), m);
    k.MutexUnlock(m);
  }

  method UnlockMutexAndSleep(k: Kernel, m: nat)
    requires k.Valid() && k.active.Some? && k.active.value < |k.ts| && MayUnlock(k.K(), k.locked, m)
    modifies k
    ensures k.Valid() && k.View() == UnlockAndSleep(old(k.View()), old(k.active).value, m)
  {
    hide UnlockAndSleep, UnlockCore, Retire;
    UnlockAndSleepFields(k.View(), k.active.value, m);
    k.MutexUnlockAndSleep(m);
  }

  method WaitForCondition(k: Kernel, c: nat, m: nat)
    requires k.Valid() && k.active.Some? && k.active.value < |k.ts| && MayUnlock(k.K(), k.locked, m)
    requires IsHead(UnlockCore(k.View(), m).k, k.active.value)
    modifies k
    ensures k.Valid() && k.View() == CondWait(old(k.View()), old(k.active).value, c, m)
  {
    hide CondWait, UnlockCore;
    CondWaitFields(k.View(), k.active.value, c, m);
    k.CondWaitCall(c, m);
  }

  method CancelLock(k: Kernel, id: nat)
    requires k.Valid() && id in k.cancels && k.cancels[id].thread < |k.ts|
    requires L(k.K(), MutexQ(k.cancels[id].mutex)) != [] ==> k.cancels[id].mutex in k.locked
    modifies k
    ensures k.Valid() && k.View() == MutexCancel(old(k.View()), id)
  {
    hide MutexCancel;
    CancelFields(k.View(), id);
    k.MutexCancelCall(id);
  }

  method SignalCondition(k: Kernel, c: nat, broadcast: bool)
    requires k.Valid() && Blocked(k.K(), L(k.K(), CondQ(c)))
    modifies k
    ensures k.Valid() && k.View() == Signal(old(k.View()), c, broadcast)
  {
    SignalFields(k.View(), c, broadcast);
    k.CondSignal(c, broadcast);
  }

  method SetFlags(k: Kernel, t: Tid, mask: Flags)
    requires k.Valid() && t < |k.ts| && (FlagsSatisfied(WithFlags(k.ts[t], mask)) ==> k.ts[t].loc == None)
    modifies k
    ensures k.Valid() && k.View() == FlagsSet(old(k.View()), t, mask)
  {
    FlagsSetFields(k.View(), t, mask);
    k.ThreadFlagsSet(t, mask);
  }

  method ClearFlags(k: Kernel, mask: Flags)
    requires k.Valid() && k.active.Some? && k.active.value < |k.ts|
    modifies k
    ensures k.Valid() && k.View() == FlagsClear(old(k.View()), old(k.active).value, mask)
  {
    FlagsClearFields(k.View(), k.active.value, mask);
    k.ThreadFlagsClear(mask);
  }

  method WaitForAny(k: Kernel, mask: Flags, rest: Act)
    requires k.Valid() && k.active.Some? && k.active.value < |k.ts|
    modifies k
    ensures k.Valid() && k.View() == WaitAny(old(k.View()), old(k.active).value, mask, rest)
  {
    k.ThreadFlagsWaitAny(mask, rest);
  }

  method WaitForAll(k: Kernel, mask: Flags)
    requires k.Valid() && k.active.Some? && k.active.value < |k.ts|
    modifies k
    ensures k.Valid() && k.View() == WaitAll(old(k.View()), old(k.active).value, mask)
  {
    k.ThreadFlagsWaitAll(mask);
  }

  // ---------------------------------------------------------------- messages

  method SendToItself(k: Kernel, value: int, block: bool)
    requires k.Valid() && k.active.Some? && k.active.value < |k.ts| && MayReceive(k.ts[k.active.value])
    modifies k
    ensures k.Valid() && k.View() == Spec.Send(old(k.View()), old(k.active).value, old(k.activePid), value, block)
  {
    SendFields(k.View(), k.active.value, k.activePid, value, block);
    k.MsgSendToSelf(value);
  }

  method SendToOther(k: Kernel, pid: nat, value: int, block: bool)
    requires k.Valid() && k.active.Some? && k.active.value < |k.ts| && pid != k.activePid
    requires Lookup(k.View(), pid).Some? ==>
      var t := Lookup(k.View(), pid).value; var m := Stamp(k.View(), value, k.active);
      t < |k.ts| && MayReceive(k.ts[t]) && MayJoin(Tick(k.K()), k.active.value, t, m)
    modifies k
    ensures k.Valid() && k.View() == Spec.Send(old(k.View()), old(k.active).value, pid, value, block)
  {
    hide Spec.Send;
    SendFields(k.View(), k.active.value, pid, value, block);
    k.MsgSendOther(pid, value, block);
  }

  method SendAndReceive(k: Kernel, pid: nat, value: int)
    requires k.Valid() && k.active.Some? && k.active.value < |k.ts| && pid != k.activePid
    requires Lookup(k.View(), pid).Some? ==>
      MayRequest(k.K(), k.active.value, Lookup(k.View(), pid).value, Stamp(k.View(), value, k.active))
    modifies k
    ensures k.Valid() && k.View() == SendReceive(old(k.View()), old(k.active).value, pid, value)
  {
    hide SendReceive;
    SendReceiveFields(k.View(), k.active.value, pid, value);
    k.MsgSendReceive(pid, value);
  }

  method ReceiveMsg(k: Kernel, block: bool)
    requires k.Valid() && k.active.Some? && k.active.value < |k.ts|
    requires L(k.K(), Senders(k.active.value)) != [] ==>
      && L(k.K(), Senders(k.active.value))[0] != k.active.value
      && L(TakeQueued(k.K(), k.active.value), Senders(k.active.value)) == L(k.K(), Senders(k.active.value))
    modifies k
    ensures k.Valid() && k.View() == Spec.Receive(old(k.View()), old(k.active).value, block)
  {
    hide Spec.Receive;
    ReceiveFields(k.View(), k.active.value, block);
    k.MsgReceive(block);
  }

  method StartQueue(k: Kernel, cap: nat)
    requires k.Valid() && k.active.Some? && k.active.value < |k.ts| && IsSize(cap)
    modifies k
    ensures k.Valid() && k.View() == InitQueue(old(k.View()), old(k.active).value, cap)
  {
    k.MsgInitQueue(seq(cap, _ => NO_MSG));
  }

  method ReplyTo(k: Kernel, pid: nat, reply: Msg)
    requires k.Valid() && Lookup(k.View(), pid).Some? && Lookup(k.View(), pid).value < |k.ts|
    requires k.ts[Lookup(k.View(), pid).value].status == ReplyBlocked ==> k.ts[Lookup(k.View(), pid).value].loc == None
    modifies k
    ensures k.Valid() && k.View() == Spec.Reply(old(k.View()), pid, reply)
  {
    ReplyFields(k.View(), pid, reply);
    k.MsgReply(pid, reply);
  }

  method SendFromHandler(k: Kernel, pid: nat, value: int)
    requires k.Valid() && (Lookup(k.View(), pid).Some? ==>
      Lookup(k.View(), pid).value < |k.ts| && MayReceive(k.ts[Lookup(k.View(), pid).value]))
    modifies k
    ensures k.Valid() && k.View() == SendInt(old(k.View()), pid, value)
  {
    SendIntFields(k.View(), pid, value);
    k.MsgSendInt(pid, value);
  }

  // ---------------------------------------------------------------- mailboxes

  method StartMbox(k: Kernel, b: nat, cap: nat)
    requires k.Valid() && IsSize(cap)
    modifies k
    ensures k.Valid() && k.View() == InitMbox(old(k.View()), b, cap)
  {
    k.MboxInit(b, seq(cap, _ => NO_MSG));
  }

  method PutMail(k: Kernel, b: nat, value: int, blocking: bool)
    requires k.Valid() && b in k.mboxes && (blocking && k.active.Some? ==> IsHead(k.K(), k.active.value))
    modifies k
    ensures k.Valid() && k.View() == MboxPut(old(k.View()), b, value, blocking)
  {
    hide MboxPut;
    PutFields(k.View(), b, value, blocking);
    k.MboxPutCall(b, value, blocking);
  }

  method GetMail(k: Kernel, b: nat, blocking: bool)
    requires k.Valid() && b in k.mboxes && (blocking && k.active.Some? ==> IsHead(k.K(), k.active.value))
    requires HeadBlocked(k.K(), Writers(b))
    modifies k
    ensures k.Valid() && k.View() == MboxGet(old(k.View()), b, blocking)
  {
    hide MboxGet;
    GetFields(k.View(), b, blocking);
    k.MboxGetCall(b, blocking);
  }

  // ---------------------------------------------------------------- the rest of a call

  method GoOnYielding(k: Kernel)
    requires k.Valid() && k.active.Some? && k.active.value < |k.ts| && k.ts[k.active.value].todo != []
    requires k.ts[k.active.value].todo[0].Yield?
    modifies k
    ensures k.Valid() && k.View() == Resume(old(k.View()), old(k.active).value)
  {
    hide Resume;
    ResumeYieldFields(k.View(), k.active.value);
    k.YieldHigher();
  }

  method GoOnAfterWait(k: Kernel)
    requires k.Valid() && k.active.Some? && k.active.value < |k.ts| && k.ts[k.active.value].todo != []
    requires k.ts[k.active.value].todo[0].YieldRoundRobin? && !k.isr
    modifies k
    ensures k.Valid() && k.View() == Resume(old(k.View()), old(k.active).value)
  {
    ResumeRoundRobinFields(k.View(), k.active.value);
    k.YieldAfterWait();
  }

  method GoOnTesting(k: Kernel)
    requires k.Valid() && k.active.Some? && k.active.value < |k.ts| && k.ts[k.active.value].todo != []
    requires IsTest(k.ts[k.active.value].todo[0])
    modifies k
    ensures k.Valid() && k.View() == Resume(old(k.View()), old(k.active).value)
  {
    ResumeTestFields(k.View(), k.active.value);
    k.TestForSwitch();
  }

  method GoOnRelocking(k: Kernel)
    requires k.Valid() && k.active.Some? && k.active.value < |k.ts| && k.ts[k.active.value].todo != []
    requires IsHead(k.K(), k.active.value)
    requires k.ts[k.active.value].todo[0].Relock? &&
        (L(k.K(), MutexQ(k.ts[k.active.value].todo[0].mutex)) != [] ==> k.ts[k.active.value].todo[0].mutex in k.locked)
    modifies k
    ensures k.Valid() && k.View() == Resume(old(k.View()), old(k.active).value)
  {
    hide Resume;
    ResumeRelockFields(k.View(), k.active.value);
    k.RelockMutex();
  }

  method GoOnCancelable(k: Kernel)
    requires k.Valid() && k.active.Some? && k.active.value < |k.ts| && k.ts[k.active.value].todo != []
    requires k.ts[k.active.value].todo[0].CheckCancel?
    modifies k
    ensures k.Valid() && k.View() == Resume(old(k.View()), old(k.active).value)
  {
    ResumeCancelFields(k.View(), k.active.value);
    k.EndCancelable();
  }

  method GoOnPutting(k: Kernel)
    requires k.Valid() && k.active.Some? && k.active.value < |k.ts| && k.ts[k.active.value].todo != []
    requires IsHead(k.K(), k.active.value)
    requires k.ts[k.active.value].todo[0].RetryPut? && k.ts[k.active.value].todo[0].mbox in k.mboxes
    modifies k
    ensures k.Valid() && k.View() == Resume(old(k.View()), old(k.active).value)
  {
    hide Resume;
    ResumeRetryFields(k.View(), k.active.value);
    k.RetryMboxPut();
  }

  method GoOnClearing(k: Kernel)
    requires k.Valid() && k.active.Some? && k.active.value < |k.ts| && k.ts[k.active.value].todo != []
    requires k.ts[k.active.value].todo[0].ClearAny? || k.ts[k.active.value].todo[0].ClearAll? ||
        k.ts[k.active.value].todo[0].ClearOne?
    modifies k
    ensures k.Valid() && k.View() == Resume(old(k.View()), old(k.active).value)
  {
    ResumeFlagsFields(k.View(), k.active.value);
    k.ClearAwaited();
  }

  method GoOnChoosing(k: Kernel)
    requires k.Valid() && k.active.Some? && k.active.value < |k.ts| && k.ts[k.active.value].todo != []
    requires k.ts[k.active.value].todo[0].ReadOne?
    modifies k
    ensures k.Valid() && k.View() == Resume(old(k.View()), old(k.active).value)
  {
    ResumeReadFields(k.View(), k.active.value);
    k.ChooseFlag();
  }

  method GoOnReturning(k: Kernel)
    requires k.Valid() && k.active.Some? && k.active.value < |k.ts| && k.ts[k.active.value].todo != []
    requires IsReturn(k.ts[k.active.value].todo[0])
    modifies k
    ensures k.Valid() && k.View() == Resume(old(k.View()), old(k.active).value)
  {
    ResumeReturnIs(k.View(), k.active.value);
    var act := k.PopAct();
  }

  // ---------------------------------------------------------------- every step

  /** cib_init takes only these sizes. */
  ghost predicate Sized(e: Event) {
    && (e.ForMsg? && e.msg.DoInitQueue? ==> IsSize(e.msg.cap))
    && (e.ForMbox? && e.box.DoInitMbox? ==> IsSize(e.box.cap))
  }

  /** The active thread goes on with the call it is in. */
  method GoOn(k: Kernel)
    requires k.Valid() && Inv(k.View()) && CpuEnabled(k.View(), Continue)
    modifies k
    ensures k.Valid() && k.View() == Resume(old(k.View()), old(k.active).value)
  {
    hide Inv, Resume;
    ResumerExists(k.View(), k.active.value);
    var act := k.ts[k.active.value].todo[0];
    if act.Yield? { GoOnYielding(k); }
    else if act.YieldRoundRobin? { GoOnAfterWait(k); }
    else if act.Switch? || act.SwitchIfRequested? || act.CheckPriority? { GoOnTesting(k); }
    else { GoOnEnding(k); }
  }

  /** The last action of a call. */
  method GoOnEnding(k: Kernel)
    requires k.Valid() && Inv(k.View()) && CpuEnabled(k.View(), Continue) && k.active.value < |k.ts|
    requires !Detour(k.ts[k.active.value].todo[0])
    modifies k
    ensures k.Valid() && k.View() == Resume(old(k.View()), old(k.active).value)
  {
    hide Inv, Resume;
    var act := k.ts[k.active.value].todo[0];
    if act.Relock? || act.RetryPut? { GoOnAsHead(k); }
    else if act.CheckCancel? { GoOnCancelable(k); }
    else if act.ReadOne? { GoOnChoosing(k); }
    else if act.ClearAny? || act.ClearAll? || act.ClearOne? { GoOnClearing(k); }
    else { GoOnReturning(k); }
  }

  method GoOnAsHead(k: Kernel)
    requires k.Valid() && Inv(k.View()) && CpuEnabled(k.View(), Continue) && k.active.value < |k.ts|
    requires k.ts[k.active.value].todo[0].Relock? || k.ts[k.active.value].todo[0].RetryPut?
    modifies k
    ensures k.Valid() && k.View() == Resume(old(k.View()), old(k.active).value)
  {
    hide Inv, Resume;
    ResumerIsHead(k.View(), k.active.value);
    var act := k.ts[k.active.value].todo[0];
    if act.Relock? {
      MutexGuard(k.View(), act.mutex);
      GoOnRelocking(k);
    } else {
      GoOnPutting(k);
    }
  }

  method DoCpu(k: Kernel, e: CpuEvent)
    requires k.Valid() && Inv(k.View()) && CpuEnabled(k.View(), e)
    modifies k
    ensures k.Valid() && k.View() == CpuStep(old(k.View()), e)
  {
    hide Inv, LeaveIsr, SchedRun, Resume;
    match e
    case EnterIsr => StartHandler(k);
    case ExitIsr => EndHandler(k);
    case Preempt => SwitchThread(k);
    case Continue => GoOn(k);
  }

  method DoThread(k: Kernel, e: ThreadCall)
    requires k.Valid() && Inv(k.View()) && ThreadEnabled(k.View(), e)
    modifies k
    ensures k.Valid() && k.View() == ThreadStep(old(k.View()), e)
  {
    hide Inv, Create, Wakeup, KillZombie, ChangePriority;
    match e
    case DoCreate(prio, sleeping) => CreateThread(k, prio, sleeping);
    case DoWakeup(pid) =>
      if Lookup(k.View(), pid).Some? { TargetExists(k.View(), pid); }
      WakeThread(k, pid);
    case DoKillZombie(pid) =>
      if Lookup(k.View(), pid).Some? { TargetExists(k.View(), pid); }
      KillThread(k, pid);
    case DoChangePriority(t, prio) =>
      ReprioritizeGuard(k.View(), t, prio);
      MoveThread(k, t, prio);
  }

  method DoWake(k: Kernel, e: WakeCall)
    requires k.Valid() && Inv(k.View()) && WakeEnabled(k.View(), e)
    modifies k
    ensures k.Valid() && k.View() == WakeStep(old(k.View()), e)
  {
    hide Inv, Unlock, MutexCancel, Signal, FlagsSet;
    match e
    case DoUnlock(m) =>
      MutexGuard(k.View(), m);
      UnlockMutex(k, m);
    case DoCancel(id) =>
      MutexGuard(k.View(), k.cancels[id].mutex);
      CancelLock(k, id);
    case DoSignal(c, broadcast) =>
      WaitersAreBlocked(k.View(), CondQ(c));
      SignalCondition(k, c, broadcast);
    case DoFlagsSet(t, mask) =>
      FlagsGuard(k.View(), t, mask);
      SetFlags(k, t, mask);
  }

  method DoOwn(k: Kernel, e: OwnCall)
    requires k.Valid() && Inv(k.View()) && Calling(k.View())
    modifies k
    ensures k.Valid() && k.View() == OwnStep(old(k.View()), e)
  {
    hide Inv, YieldCall, Retire, TaskExit;
    CallerHasPid(k.View());
    match e
    case DoYield => YieldThread(k);
    case DoSleep => RetireThread(k, Sleeping);
    case DoZombify => RetireThread(k, Zombie);
    case DoExit => ExitThread(k);
  }

  method DoLocking(k: Kernel, e: LockCall)
    requires k.Valid() && Inv(k.View()) && LockEnabled(k.View(), e)
    modifies k
    ensures k.Valid() && k.View() == LockStep(old(k.View()), e)
  {
    hide Inv, Lock, LockCancelable, UnlockAndSleep, CondWait, UnlockCore;
    CallerIsHead(k.View());
    match e
    case DoLock(m, block) =>
      MutexGuard(k.View(), m);
      LockMutex(k, m, block);
    case DoInitCancel(id, m) => StartCancelable(k, id, m);
    case DoLockCancelable(id) =>
      MutexGuard(k.View(), k.cancels[id].mutex);
      LockMutexCancelable(k, id);
    case DoUnlockAndSleep(m) =>
      MutexGuard(k.View(), m);
      UnlockMutexAndSleep(k, m);
    case DoCondWait(c, m) =>
      MutexGuard(k.View(), m);
      CondWaitGuard(k.View(), m);
      WaitForCondition(k, c, m);
  }

  method DoFlags(k: Kernel, e: FlagsCall)
    requires k.Valid() && Inv(k.View()) && Calling(k.View())
    modifies k
    ensures k.Valid() && k.View() == FlagsStep(old(k.View()), e)
  {
    hide Inv, FlagsClear, WaitAny, WaitAll;
    CallerIsHead(k.View());
    match e
    case DoFlagsClear(mask) => ClearFlags(k, mask);
    case DoWaitAny(mask) => WaitForAny(k, mask, ClearAny(mask));
    case DoWaitOne(mask) => WaitForAny(k, mask, ReadOne(mask));
    case DoWaitAll(mask) => WaitForAll(k, mask);
  }

  method DoSending(k: Kernel, pid: nat, value: int, block: bool)
    requires k.Valid() && Inv(k.View()) && Calling(k.View())
    modifies k
    ensures k.Valid() && k.View() == Spec.Send(old(k.View()), old(k.active).value, pid, value, block)
  {
    hide Inv, Spec.Send;
    CallerIsHead(k.View());
    if pid == k.activePid {
      FlagsGuard(k.View(), k.active.value, MSG_WAITING);
      SendToItself(k, value, block);
    } else {
      if Lookup(k.View(), pid).Some? {
        TargetExists(k.View(), pid);
        SendGuard(k.View(), pid, Stamp(k.View(), value, k.active));
      }
      SendToOther(k, pid, value, block);
    }
  }

  method DoMsg(k: Kernel, e: MsgCall)
    requires k.Valid() && Inv(k.View()) && MsgEnabled(k.View(), e) && Sized(ForMsg(e))
    modifies k
    ensures k.Valid() && k.View() == MsgStep(old(k.View()), e)
  {
    hide Inv, Spec.Send, SendReceive, Spec.Receive, InitQueue, Spec.Reply, SendInt;
    match e
    case DoSend(pid, value, block) => DoSending(k, pid, value, block);
    case DoSendReceive(pid, value) =>
      CallerIsHead(k.View());
      RequestGuard(k.View(), pid, Stamp(k.View(), value, k.active));
      SendAndReceive(k, pid, value);
    case DoReceive(block) =>
      CallerIsHead(k.View());
      ReceiveGuard(k.View());
      ReceiveMsg(k, block);
    case DoInitQueue(cap) =>
      CallerIsHead(k.View());
      StartQueue(k, cap);
    case DoReply(pid, reply) =>
      ReplyGuard(k.View(), pid);
      ReplyTo(k, pid, reply);
    case DoSendInt(pid, value) =>
      if Lookup(k.View(), pid).Some? { TargetExists(k.View(), pid); }
      SendFromHandler(k, pid, value);
  }

  method DoMbox(k: Kernel, e: MboxCall)
    requires k.Valid() && Inv(k.View()) && MboxEnabled(k.View(), e) && Sized(ForMbox(e))
    modifies k
    ensures k.Valid() && k.View() == MboxStep(old(k.View()), e)
  {
    hide Inv, InitMbox, MboxPut, MboxGet;
    if Calling(k.View()) { CallerIsHead(k.View()); }
    match e
    case DoInitMbox(b, cap) => StartMbox(k, b, cap);
    case DoPut(b, value) => PutMail(k, b, value, true);
    case DoTryPut(b, value) => PutMail(k, b, value, false);
    case DoGet(b) =>
      WritersGuard(k.View(), b);
      GetMail(k, b, true);
    case DoTryGet(b) =>
      WritersGuard(k.View(), b);
      GetMail(k, b, false);
  }

  /** Every step that is enabled in a state that satisfies the invariant is what the code does. */
  method Do(k: Kernel, e: Event)
    requires k.Valid() && Inv(k.View()) && Enabled(k.View(), e) && Sized(e)
    modifies k
    ensures k.Valid() && k.View() == Step(old(k.View()), e)
  {
    hide Inv, CpuStep, ThreadStep, WakeStep, OwnStep, LockStep, FlagsStep, MsgStep, MboxStep;
    match e
    case Cpu(c) => DoCpu(k, c);
    case ForThread(c) => DoThread(k, c);
    case ForWaking(c) => DoWake(k, c);
    case ForOwn(c) => DoOwn(k, c);
    case ForLock(c) => DoLocking(k, c);
    case ForFlags(c) => DoFlags(k, c);
    case ForMsg(c) => DoMsg(k, c);
    case ForMbox(c) => DoMbox(k, c);
  }

  // ---------------------------------------------------------------- every run

  /** These events can follow each other from here. */
  ghost predicate Possible(s: State, es: seq<Event>)
    decreases |es|
  {
    es == [] || (Enabled(s, es[0]) && Sized(es[0]) && Possible(Step(s, es[0]), es[1..]))
  }

  /** The kernel at its start. */
  method Boot(prio: nat, clz: bool) returns (k: Kernel)
    requires prio < LEVELS
    ensures fresh(k) && k.Valid() && Init(k.View()) && Inv(k.View())
  {
    k := new Kernel(prio, clz);
    InitKeeps(k.View());
  }

  /** Every run of the state machine is a run of the code. */
  method Execute(k: Kernel, es: seq<Event>)
    requires k.Valid() && Inv(k.View()) && Possible(k.View(), es)
    modifies k
    ensures k.Valid() && Inv(k.View()) && Run(old(k.View()), es, k.View())
  {
    hide Inv, Enabled, Step;
    var i := 0;
    assert es[..0] == [] && es[0..] == es;
    while i < |es|
      invariant i <= |es| && k.Valid() && Inv(k.View())
      invariant Possible(k.View(), es[i..]) && Run(old(k.View()), es[..i], k.View())
    {
      assert es[i..][0] == es[i] && es[i..][1..] == es[i + 1..] && es[..i] + [es[i]] == es[..i + 1];
      StepKeeps(k.View(), es[i]);
      RunAppends(old(k.View()), es[..i], k.View(), es[i]);
      Do(k, es[i]);
      i := i + 1;
    }
    assert es[..i] == es;
  }
}
