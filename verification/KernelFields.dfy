/** Which fields of the kernel state a call can touch, besides those of threads and lists. */
module KernelFields {
  import opened KernelTypes
  import opened KernelSpec
  import opened KernelLinks
  import opened KernelSched
  import opened KernelState
  import opened KernelSteps
  import opened KernelThreadSteps
  import opened KernelSections

  /** A request for a switch may come. */
  predicate OnlyRequest(s: State, r: State) {
    r == s.(k := r.k, request := r.request)
  }

  /** The call may report something, besides. */
  predicate OnlyReport(s: State, r: State) {
    r == s.(k := r.k, request := r.request, ret := r.ret)
  }

  /** A switch may take place. */
  predicate OnlySwitch(s: State, r: State) {
    r == s.(k := r.k, active := r.active, activePid := r.activePid, request := r.request, idle := r.idle)
  }

  /** Mutexes may change hands. */
  predicate OnlyMutexes(s: State, r: State) {
    r == s.(k := r.k, locked := r.locked, grants := r.grants, releases := r.releases)
  }

  lemma SwitchFields(s: State)
    ensures OnlySwitch(s, SchedRun(s))
  {
  }

  lemma LeaveFields(s: State)
    ensures OnlySwitch(s, LeaveIsr(s).(isr := s.isr)) && !LeaveIsr(s).isr
  {
    SwitchFields(s.(isr := false));
  }

  lemma ThenFields(s: State, act: Act)
    ensures OnlyRequest(s, Then(s, act))
  {
    ThenIs(s, act);
  }

  // ---------------------------------------------------------------- threads

  lemma CreateFields(s: State, prio: nat, sleeping: bool)
    ensures var r := Create(s, prio, sleeping); r == s.(k := r.k, request := r.request, pids := r.pids, ret := r.ret)
  {
    if prio < LEVELS && FreePid(s.pids, 1).Some? && FreePid(s.pids, 1).value < |s.pids| {
      NewbornFields(s, prio, sleeping, FreePid(s.pids, 1).value);
    }
  }

  lemma NewbornFields(s: State, prio: nat, sleeping: bool, pid: nat)
    requires prio < LEVELS && FreePid(s.pids, 1) == Some(pid) && pid < |s.pids|
    ensures var r := Create(s, prio, sleeping); r == s.(k := r.k, request := r.request, pids := r.pids, ret := r.ret)
  {
    var k1 := SetStatus(AddThread(s.k, prio, pid), |s.k.ts|, if sleeping then Sleeping else Pending);
    var s1 := s.(pids := s.pids[pid := Some(|s.k.ts|)], ret := pid, k := k1);
    CreateUnfolds(s, prio, sleeping, pid, k1);
    ThenFields(s1, Switch(prio));
  }

  lemma WakeupFields(s: State, pid: nat)
    ensures OnlyReport(s, Wakeup(s, pid))
  {
    if Lookup(s, pid).Some? && T(s.k, Lookup(s, pid).value).status == Sleeping {
      WakeupIs(s, pid, Lookup(s, pid).value);
    }
  }

  lemma KillFields(s: State, pid: nat)
    ensures var r := KillZombie(s, pid); r == s.(k := r.k, pids := r.pids, ret := r.ret)
  {
    if Lookup(s, pid).Some? && T(s.k, Lookup(s, pid).value).status == Zombie { KillIs(s, pid, Lookup(s, pid).value); }
  }

  lemma PriorityFields(s: State, t: Tid, prio: nat)
    ensures OnlyRequest(s, ChangePriority(s, t, prio))
  {
    ChangePriorityIs(s, t, prio);
  }

  lemma YieldFields(s: State, a: Tid)
    ensures OnlyRequest(s, YieldCall(s, a))
  {
    YieldIs(s, a);
  }

  lemma RetireFields(s: State, a: Tid, status: Status)
    ensures OnlyRequest(s, Retire(s, a, status))
  {
    RetireIs(s, a, status);
  }

  // ---------------------------------------------------------------- mutexes, conditions and flags

  lemma LockFields(s: State, a: Tid, m: nat, block: bool)
    ensures var r := Lock(s, a, m, block); r == s.(k := r.k, locked := r.locked, grants := r.grants, ret := r.ret)
  {
  }

  lemma LockCancelableFields(s: State, a: Tid, id: nat)
    requires id in s.cancels
    ensures var r := LockCancelable(s, a, id); r == s.(k := r.k, locked := r.locked, grants := r.grants, ret := r.ret)
  {
    if !s.cancels[id].cancelled && s.cancels[id].mutex in s.locked { CancelableBlocksIs(s, a, id); }
  }

  lemma UnlockCoreFields(s: State, m: nat)
    ensures OnlyMutexes(s, UnlockCore(s, m))
  {
    if m in s.locked {
      if L(s.k, MutexQ(m)) == [] { FreeMutexIs(s, m); } else { HandIs(s, m); }
    }
  }

  lemma UnlockFields1(s: State, m: nat)
    ensures var r := Unlock(s, m); OnlyMutexes(s, r.(request := s.request))
  {
    UnlockCoreFields(s, m);
    if Heir(s, m).Some? { ThenFields(UnlockCore(s, m), Switch(T(s.k, Heir(s, m).value).prio)); }
  }

  lemma UnlockAndSleepFields(s: State, a: Tid, m: nat)
    ensures var r := UnlockAndSleep(s, a, m); OnlyMutexes(s, r.(request := s.request))
    ensures UnlockAndSleep(s, a, m) == Retire(UnlockCore(s, m), a, Sleeping)
    ensures TalliesOf(UnlockAndSleep(s, a, m)) == TalliesOf(UnlockCore(s, m))
  {
    UnlockCoreFields(s, m);
    RetireFields(UnlockCore(s, m), a, Sleeping);
  }

  lemma CondWaitFields(s: State, a: Tid, c: nat, m: nat)
    ensures var r := CondWait(s, a, c, m); OnlyMutexes(s, r.(request := s.request))
  {
    UnlockCoreFields(s, m);
  }

  lemma CancelFields(s: State, id: nat)
    requires id in s.cancels
    ensures var r := MutexCancel(s, id); r == s.(k := r.k, cancels := r.cancels, request := r.request)
  {
    var c := s.cancels[id];
    if !OnRunqueue(T(s.k, c.thread).status) && c.mutex in s.locked && c.thread in L(s.k, MutexQ(c.mutex)) {
      ThenFields(s.(cancels := s.cancels[id := c.(cancelled := true)],
                    k := SetStatus(RemoveFrom(s.k, MutexQ(c.mutex), c.thread), c.thread, Pending)),
                      Switch(T(s.k, c.thread).prio));
    }
  }

  lemma SignalFields(s: State, c: nat, broadcast: bool)
    ensures OnlyRequest(s, Signal(s, c, broadcast))
  {
    var woken := Signalled(s, c, broadcast);
    ThenFields(s.(k := WakeAll(s.k, CondQ(c), |woken|)), Switch(MinPrio(s.k, woken, LEVELS)));
  }

  lemma RaiseFields(s: State, t: Tid, mask: Flags)
    ensures OnlyRequest(s, RaiseFlags(s, t, mask))
  {
    RaiseIs(s, t, mask);
  }

  lemma FlagsSetFields(s: State, t: Tid, mask: Flags)
    ensures OnlyRequest(s, FlagsSet(s, t, mask))
  {
    RaiseFields(s, t, mask);
    ThenFields(RaiseFlags(s, t, mask), Yield);
  }

  lemma FlagsClearFields(s: State, a: Tid, mask: Flags)
    ensures var r := FlagsClear(s, a, mask); r == s.(k := r.k, flagsRet := r.flagsRet)
  {
  }

  // ---------------------------------------------------------------- messages

  lemma EnqueueFields(s: State, t: Tid, m: Msg)
    ensures OnlyRequest(s, Enqueue(s, t, m))
  {
    RaiseFields(s.(k := SetT(s.k, t, Queued(T(s.k, t), m))), t, MSG_WAITING);
  }

  lemma MsgSendFields(s: State, a: Tid, t: Tid, m: Msg, block: bool)
    ensures OnlyReport(s, MsgSend(s, a, t, m, block))
  {
    if T(s.k, t).status == ReceiveBlocked {
      ThenFields(s.(k := MarkAnswerable(Deliver(s.k, t, m), m), ret := 1), Yield);
    } else if !QueueFull(T(s.k, t)) {
      SendQueuedFields(s, a, t, m, block);
    } else if block {
      SendBlockedFields(s, a, t, m);
    }
  }

  lemma SendQueuedFields(s: State, a: Tid, t: Tid, m: Msg, block: bool)
    requires T(s.k, t).status != ReceiveBlocked && !QueueFull(T(s.k, t))
    ensures OnlyReport(s, MsgSend(s, a, t, m, block))
  {
    EnqueueFields(s.(ret := 1), t, m);
    ThenFields(Enqueue(s.(ret := 1), t, m), SwitchIfRequested);
  }

  lemma SendBlockedFields(s: State, a: Tid, t: Tid, m: Msg)
    requires T(s.k, t).status != ReceiveBlocked && QueueFull(T(s.k, t))
    ensures OnlyReport(s, MsgSend(s, a, t, m, true))
  {
    var s1 := s.(k := SendBlock(s.k, a, t, m), ret := 1);
    RaiseFields(s1, t, MSG_WAITING);
    ThenFields(RaiseFlags(s1, t, MSG_WAITING), Yield);
  }

  lemma SendFields(s: State, a: Tid, pid: nat, value: int, block: bool)
    ensures OnlyReport(s, KernelSpec.Send(s, a, pid, value, block))
  {
    if pid == s.activePid {
      EnqueueFields(s.(k := Tick(s.k), ret := 1), a, Stamp(s, value, Some(a)));
    } else if Lookup(s, pid).Some? {
      SendIs(s, a, pid, value, block);
      MsgSendFields(s.(k := Tick(s.k)), a, Lookup(s, pid).value, Stamp(s, value, Some(a)), block);
    }
  }

  lemma SendReceiveFields(s: State, a: Tid, pid: nat, value: int)
    ensures OnlyReport(s, SendReceive(s, a, pid, value))
  {
    if Lookup(s, pid).Some? {
      SendReceiveIs(s, a, pid, value);
      MsgSendFields(Asking(s, a, Stamp(s, value, Some(a))), a, Lookup(s, pid).value, Stamp(s, value, Some(a)), true);
    }
  }

  lemma SendIntFields(s: State, pid: nat, value: int)
    ensures OnlyReport(s, SendInt(s, pid, value))
  {
    if Lookup(s, pid).Some? && T(s.k, Lookup(s, pid).value).status != ReceiveBlocked &&
      !QueueFull(T(s.k, Lookup(s, pid).value)) {
      EnqueueFields(s.(k := Tick(s.k), ret := 1), Lookup(s, pid).value, Stamp(s, value, None));
    }
  }

  lemma ReplyFields(s: State, pid: nat, reply: Msg)
    ensures OnlyReport(s, KernelSpec.Reply(s, pid, reply))
  {
    if Lookup(s, pid).Some? && T(s.k, Lookup(s, pid).value).status == ReplyBlocked && !s.isr {
      var t := Lookup(s, pid).value;
      ThenFields(s.(k := Answer(s.k, t, reply), ret := 1), Switch(T(s.k, t).prio));
    }
  }

  lemma ReceiveFields(s: State, a: Tid, block: bool)
    ensures OnlyReport(s, KernelSpec.Receive(s, a, block))
  {
    if L(s.k, Senders(a)) != [] {
      var x := L(s.k, Senders(a))[0];
      ThenFields(s.(k := TakeWaiting(TakeQueued(s.k, a), a, x, T(s.k, a).queue != []), ret := 1),
        Switch(T(s.k, x).prio));
    } else if T(s.k, a).queue == [] {
      ReceiveNothingIs(s, a, block);
    }
  }

  // ---------------------------------------------------------------- mailboxes

  lemma PutLoopFields(s: State, b: nat, value: int, blocking: bool)
    requires b in s.mboxes
    ensures var r := PutLoop(s, b, value, blocking); r == s.(k := r.k, mboxes := r.mboxes, ret := r.ret)
  {
    if |s.mboxes[b].ring| < s.mboxes[b].cap { StoreIs(s, b, value, blocking); }
  }

  lemma PutFields(s: State, b: nat, value: int, blocking: bool)
    requires b in s.mboxes
    ensures var r := MboxPut(s, b, value, blocking);
        r == s.(k := r.k, mboxes := r.mboxes, request := r.request, ret := r.ret)
  {
    if L(s.k, Readers(b)) == [] {
      PutLoopIs(s, b, value, blocking);
      PutLoopFields(s, b, value, blocking);
    } else {
      var m := Msg(0, value, Author(s), s.k.clock);
      var t := L(s.k, Readers(b))[0];
      ThenFields(s.(k := HandOver(s.k, b, m), mboxes := s.mboxes[b := Passed(s.mboxes[b], m, t)], ret := 1),
        Switch(T(s.k, t).prio));
    }
  }

  lemma GetFields(s: State, b: nat, blocking: bool)
    requires b in s.mboxes
    ensures var r := MboxGet(s, b, blocking);
            r == s.(k := r.k, mboxes := r.mboxes, request := r.request, ret := r.ret, mailRet := r.mailRet)
  {
    if s.mboxes[b].ring != [] { DrawFields(s, b, blocking); }
  }

  lemma DrawFields(s: State, b: nat, blocking: bool)
    requires b in s.mboxes && s.mboxes[b].ring != []
    ensures var r := MboxGet(s, b, blocking);
            r == s.(k := r.k, mboxes := r.mboxes, request := r.request, ret := r.ret, mailRet := r.mailRet)
  {
    if L(s.k, Writers(b)) != [] {
      ThenFields(s.(k := WakeHead(s.k, Writers(b)), mboxes := s.mboxes[b := Emptied(s.mboxes[b], Author(s))], ret := 1,
                    mailRet := s.mboxes[b].ring[0]), Switch(T(s.k, L(s.k, Writers(b))[0]).prio));
    }
  }

  // ---------------------------------------------------------------- the rest of a call

  lemma ResumeYieldFields(s: State, a: Tid)
    requires T(s.k, a).todo != [] && T(s.k, a).todo[0].Yield?
    ensures OnlySwitch(s, Resume(s, a))
  {
    SwitchFields(PoppedState(s, a));
  }

  lemma ResumeRoundRobinFields(s: State, a: Tid)
    requires T(s.k, a).todo != [] && T(s.k, a).todo[0].YieldRoundRobin?
    ensures OnlyRequest(s, Resume(s, a))
  {
    YieldFields(PoppedState(s, a), a);
  }

  lemma ResumeTestFields(s: State, a: Tid)
    requires T(s.k, a).todo != [] && IsTest(T(s.k, a).todo[0])
    ensures Resume(s, a) == s.(k := Resume(s, a).k)
  {
    var s1 := PoppedState(s, a);
    assert Resume(s, a) == s1 || Resume(s, a) == s1.(k := Owe(s1.k, a, [Yield]));
  }

  lemma ResumeRelockFields(s: State, a: Tid)
    requires T(s.k, a).todo != [] && T(s.k, a).todo[0].Relock?
    ensures var r := Resume(s, a); r == s.(k := r.k, locked := r.locked, grants := r.grants, ret := r.ret)
  {
    ResumeRelockIs(s, a);
    LockFields(PoppedState(s, a), a, T(s.k, a).todo[0].mutex, true);
  }

  lemma ResumeCancelFields(s: State, a: Tid)
    requires T(s.k, a).todo != [] && T(s.k, a).todo[0].CheckCancel?
    ensures var r := Resume(s, a); r == s.(k := r.k, ret := r.ret)
  {
  }

  lemma ResumeRetryFields(s: State, a: Tid)
    requires T(s.k, a).todo != [] && T(s.k, a).todo[0].RetryPut? && T(s.k, a).todo[0].mbox in s.mboxes
    ensures var r := Resume(s, a); r == s.(k := r.k, mboxes := r.mboxes, ret := r.ret)
  {
    PutLoopFields(PoppedState(s, a), T(s.k, a).todo[0].mbox, T(s.k, a).todo[0].value, true);
  }

  lemma ResumeFlagsFields(s: State, a: Tid)
    requires T(s.k, a).todo != [] &&
        (T(s.k, a).todo[0].ClearAny? || T(s.k, a).todo[0].ClearAll? || T(s.k, a).todo[0].ClearOne?)
    ensures var r := Resume(s, a); r == s.(k := r.k, flagsRet := r.flagsRet)
  {
    var act := T(s.k, a).todo[0];
    FlagsClearFields(PoppedState(s, a), a, if act.ClearOne? then act.bit else act.mask);
  }

  lemma ResumeReadFields(s: State, a: Tid)
    requires T(s.k, a).todo != [] && T(s.k, a).todo[0].ReadOne?
    ensures Resume(s, a) == s.(k := Resume(s, a).k)
  {
  }

  /** Returning from a call takes nothing but the end of the call. */
  predicate IsReturn(act: Act) {
    act.Locked? || act.Received? || act.Replied? || act.GotMail?
  }

  lemma ResumeReturnIs(s: State, a: Tid)
    requires T(s.k, a).todo != [] && IsReturn(T(s.k, a).todo[0])
    ensures Resume(s, a) == PoppedState(s, a)
  {
  }

  /** sched_task_exit, before the switch */
  function Ended(s: State, a: Tid): State {
    s.(pids := if s.activePid < |s.pids| then s.pids[s.activePid := None] else s.pids,
       k := SetStatus(s.k, a, Stopped), active := None)
  }

  lemma ExitIs(s: State, a: Tid)
    ensures TaskExit(s, a) == SchedRun(Ended(s, a))
  {
  }
}
