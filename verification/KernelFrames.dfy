/** Which calls can change mutexes, mailboxes and cancellations, and who enters and leaves the idle
    loop and interrupt handlers. */
module KernelFrames {
  import opened KernelTypes
  import opened KernelSpec
  import opened KernelLinks
  import opened KernelInv
  import opened KernelSched
  import opened KernelState
  import opened KernelSteps
  import opened KernelSteady
  import opened KernelThreadSteps
  import opened KernelSyncSteps

  /** The processor goes on in the same way. */
  predicate SameMode(s: State, s': State) {
    s'.isr == s.isr && s'.idle == s.idle
  }

  predicate SameMutexes(s: State, s': State) {
    s'.locked == s.locked && s'.grants == s.grants && s'.releases == s.releases
  }

  lemma ThenFrame(s: State, act: Act)
    ensures SameObjects(s, Then(s, act)) && SameMode(s, Then(s, act))
  {
  }

  lemma RaiseFrame(s: State, t: Tid, mask: Flags)
    ensures SameObjects(s, RaiseFlags(s, t, mask)) && SameMode(s, RaiseFlags(s, t, mask))
  {
    if FlagsSatisfied(WithFlags(T(s.k, t), mask)) {
    } else {
    }
  }

  lemma SchedRunFrames(s: State)
    ensures SameObjects(s, SchedRun(s)) && SchedRun(s).isr == s.isr
    ensures SchedRun(s).idle ==> Next(s.k) == None
  {
    match Next(s.k)
    case None =>
    case Some(t) =>
  }

  lemma ThreadFrame(s: State, e: ThreadCall)
    ensures SameObjects(s, ThreadStep(s, e)) && SameMode(s, ThreadStep(s, e))
  {
    match e
    case DoCreate(p, sl) => CreateFrame(s, p, sl);
    case DoWakeup(pid) => WakeupFrame(s, pid);
    case DoKillZombie(pid) => KillZombieFrame(s, pid);
    case DoChangePriority(t, p) =>
      if T(s.k, t).prio != p { ThenFrame(s.(k := Reprioritize(s.k, t, p)), CheckPriority(t, p)); }
  }

  lemma WakeupFrame(s: State, pid: nat)
    ensures SameObjects(s, Wakeup(s, pid)) && SameMode(s, Wakeup(s, pid))
  {
    match Lookup(s, pid)
    case None =>
    case Some(t) =>
      if T(s.k, t).status == Sleeping {
        ThenFrame(s.(k := SetStatus(s.k, t, Running), ret := 1), Switch(T(s.k, t).prio));
      }
  }

  lemma BuryFrame(s: State, pid: nat)
    requires Lookup(s, pid).Some? && T(s.k, Lookup(s, pid).value).status == Zombie
    ensures SameObjects(s, KillZombie(s, pid)) && SameMode(s, KillZombie(s, pid))
  {
  }

  lemma KillZombieFrame(s: State, pid: nat)
    ensures SameObjects(s, KillZombie(s, pid)) && SameMode(s, KillZombie(s, pid))
  {
    if Lookup(s, pid).Some? && T(s.k, Lookup(s, pid).value).status == Zombie {
      BuryFrame(s, pid);
    } else {
      assert KillZombie(s, pid) == s.(ret := -1);
    }
  }

  lemma NewbornFrame(s: State, prio: nat, sleeping: bool, pid: nat)
    requires prio < LEVELS && FreePid(s.pids, 1) == Some(pid) && pid < |s.pids|
    ensures SameObjects(s, Create(s, prio, sleeping)) && SameMode(s, Create(s, prio, sleeping))
  {
    var s1 := s.(pids := s.pids[pid := Some(|s.k.ts|)], ret := pid,
                 k := SetStatus(AddThread(s.k, prio, pid), |s.k.ts|, if sleeping then Sleeping else Pending));
    if sleeping { assert Create(s, prio, sleeping) == s1; } else { ThenFrame(s1, Switch(prio)); }
  }

  lemma CreateFrame(s: State, prio: nat, sleeping: bool)
    ensures SameObjects(s, Create(s, prio, sleeping)) && SameMode(s, Create(s, prio, sleeping))
  {
    if prio < LEVELS && FreePid(s.pids, 1).Some? && FreePid(s.pids, 1).value < |s.pids| {
      NewbornFrame(s, prio, sleeping, FreePid(s.pids, 1).value);
    }
  }

  lemma OwnFrame(s: State, e: OwnCall)
    requires Calling(s)
    ensures SameObjects(s, OwnStep(s, e)) && (!e.DoExit? ==> SameMode(s, OwnStep(s, e)))
    ensures e.DoExit? && OwnStep(s, e).idle ==> Next(OwnStep(s, e).k) == None
  {
    var a := s.active.value;
    match e
    case DoYield => ThenFrame(s.(k := if OnRunqueue(T(s.k, a).status) then Rotate(s.k, T(s.k, a).prio) else s.k),
      Yield);
    case DoSleep => ThenFrame(s.(k := SetStatus(s.k, a, Sleeping)), Yield);
    case DoZombify => ThenFrame(s.(k := SetStatus(s.k, a, Zombie)), Yield);
    case DoExit => ExitFrame(s, a);
  }

  lemma ExitFrame(s: State, a: Tid)
    ensures SameObjects(s, TaskExit(s, a)) && (TaskExit(s, a).idle ==> Next(TaskExit(s, a).k) == None)
  {
    var s1 := s.(pids := if s.activePid < |s.pids| then s.pids[s.activePid := None] else s.pids,
                 k := SetStatus(s.k, a, Stopped), active := None);
    SchedRunFrames(s1);
    IdleStays(s1);
  }

  lemma IdleStays(s: State)
    ensures SchedRun(s).idle ==> Next(SchedRun(s).k) == None
  {
    match Next(s.k)
    case None =>
      assert forall l :: L(SchedRun(s).k, l) == L(s.k, l);
      SameTop(s.k, SchedRun(s).k, 0);
    case Some(t) =>
  }

  lemma SameTop(k: Core, k': Core, p: nat)
    requires forall l :: L(k', l) == L(k, l)
    ensures TopFrom(k', p) == TopFrom(k, p)
    decreases LEVELS - p
  {
    if p < LEVELS && L(k, Rq(p)) == [] { SameTop(k, k', p + 1); }
  }

  lemma FlagsFrame(s: State, e: FlagsCall)
    requires Calling(s)
    ensures SameObjects(s, FlagsStep(s, e)) && SameMode(s, FlagsStep(s, e))
  {
  }

  lemma CopyFrame(s: State, a: Tid, t: Tid, m: Msg, block: bool)
    requires T(s.k, t).status == ReceiveBlocked
    ensures SameObjects(s, MsgSend(s, a, t, m, block)) && SameMode(s, MsgSend(s, a, t, m, block))
  {
    ThenFrame(s.(k := MarkAnswerable(Deliver(s.k, t, m), m), ret := 1), Yield);
  }

  lemma QueueFrame(s: State, a: Tid, t: Tid, m: Msg, block: bool)
    requires T(s.k, t).status != ReceiveBlocked && !QueueFull(T(s.k, t))
    ensures SameObjects(s, MsgSend(s, a, t, m, block)) && SameMode(s, MsgSend(s, a, t, m, block))
  {
    EnqueueFrame(s.(ret := 1), t, m);
    ThenFrame(Enqueue(s.(ret := 1), t, m), SwitchIfRequested);
  }

  lemma JoinFrame(s: State, a: Tid, t: Tid, m: Msg, block: bool)
    requires T(s.k, t).status != ReceiveBlocked && QueueFull(T(s.k, t)) && block
    ensures SameObjects(s, MsgSend(s, a, t, m, block)) && SameMode(s, MsgSend(s, a, t, m, block))
  {
    var s1 := s.(k := SendBlock(s.k, a, t, m), ret := 1);
    RaiseFrame(s1, t, MSG_WAITING);
    ThenFrame(RaiseFlags(s1, t, MSG_WAITING), Yield);
  }

  lemma MsgSendFrame(s: State, a: Tid, t: Tid, m: Msg, block: bool)
    ensures SameObjects(s, MsgSend(s, a, t, m, block)) && SameMode(s, MsgSend(s, a, t, m, block))
  {
    if T(s.k, t).status == ReceiveBlocked {
      CopyFrame(s, a, t, m, block);
    } else if !QueueFull(T(s.k, t)) {
      QueueFrame(s, a, t, m, block);
    } else if block {
      JoinFrame(s, a, t, m, block);
    }
  }

  lemma EnqueueFrame(s: State, t: Tid, m: Msg)
    ensures SameObjects(s, Enqueue(s, t, m)) && SameMode(s, Enqueue(s, t, m))
  {
    RaiseFrame(s.(k := SetT(s.k, t, Queued(T(s.k, t), m))), t, MSG_WAITING);
  }

  lemma SelfFrame(s: State, a: Tid, pid: nat, value: int, block: bool)
    requires pid == s.activePid
    ensures SameObjects(s, Send(s, a, pid, value, block)) && SameMode(s, Send(s, a, pid, value, block))
  {
    EnqueueFrame(s.(k := Tick(s.k), ret := 1), a, Stamp(s, value, Some(a)));
  }

  lemma SendFrame(s: State, a: Tid, pid: nat, value: int, block: bool)
    ensures SameObjects(s, Send(s, a, pid, value, block)) && SameMode(s, Send(s, a, pid, value, block))
  {
    if pid == s.activePid {
      SelfFrame(s, a, pid, value, block);
    } else if Lookup(s, pid).Some? {
      MsgSendFrame(s.(k := Tick(s.k)), a, Lookup(s, pid).value, Stamp(s, value, Some(a)), block);
    }
  }

  lemma MsgFrame(s: State, e: MsgCall)
    requires MsgEnabled(s, e)
    ensures SameObjects(s, MsgStep(s, e)) && SameMode(s, MsgStep(s, e))
  {
    match e
    case DoSend(pid, v, block) => SendFrame(s, s.active.value, pid, v, block);
    case DoSendReceive(pid, v) => SendReceiveFrame(s, s.active.value, pid, v);
    case DoReceive(block) => ReceiveFrame(s, s.active.value, block);
    case DoInitQueue(cap) =>
    case DoReply(pid, reply) => ReplyFrame(s, pid, reply);
    case DoSendInt(pid, v) => SendIntFrame(s, pid, v);
  }

  lemma ReceiveFrame(s: State, a: Tid, block: bool)
    ensures SameObjects(s, Receive(s, a, block)) && SameMode(s, Receive(s, a, block))
  {
    if L(s.k, Senders(a)) == [] && T(s.k, a).queue == [] {
      if block { } else { }
    } else if L(s.k, Senders(a)) == [] {
    } else {
      var x := L(s.k, Senders(a))[0];
      var s1 := s.(k := TakeWaiting(TakeQueued(s.k, a), a, x, T(s.k, a).queue != []), ret := 1);
      ThenFrame(s1, Switch(T(s.k, x).prio));
    }
  }

  lemma ReplyFrame(s: State, pid: nat, reply: Msg)
    ensures SameObjects(s, Reply(s, pid, reply)) && SameMode(s, Reply(s, pid, reply))
  {
    match Lookup(s, pid)
    case None =>
    case Some(t) =>
      if T(s.k, t).status == ReplyBlocked {
        if s.isr { } else { ThenFrame(s.(k := Answer(s.k, t, reply), ret := 1), Switch(T(s.k, t).prio)); }
      }
  }

  lemma SendReceiveFrame(s: State, a: Tid, pid: nat, value: int)
    ensures SameObjects(s, SendReceive(s, a, pid, value)) && SameMode(s, SendReceive(s, a, pid, value))
  {
    var m := Stamp(s, value, Some(a));
    match Lookup(s, pid)
    case None =>
    case Some(t) => MsgSendFrame(s.(k := Owe(Ask(s.k, a, m), a, [Replied])), a, t, m, true);
  }

  lemma IntCopyFrame(s: State, pid: nat, value: int)
    requires Lookup(s, pid).Some? && T(s.k, Lookup(s, pid).value).status == ReceiveBlocked
    ensures SameObjects(s, SendInt(s, pid, value)) && SameMode(s, SendInt(s, pid, value))
  {
  }

  lemma IntQueueFrame(s: State, pid: nat, value: int)
    requires Lookup(s, pid).Some? && T(s.k, Lookup(s, pid).value).status != ReceiveBlocked
    requires !QueueFull(T(s.k, Lookup(s, pid).value))
    ensures SameObjects(s, SendInt(s, pid, value)) && SameMode(s, SendInt(s, pid, value))
  {
    EnqueueFrame(s.(k := Tick(s.k), ret := 1), Lookup(s, pid).value, Stamp(s, value, None));
  }

  lemma SendIntFrame(s: State, pid: nat, value: int)
    ensures SameObjects(s, SendInt(s, pid, value)) && SameMode(s, SendInt(s, pid, value))
  {
    if Lookup(s, pid).Some? {
      if T(s.k, Lookup(s, pid).value).status == ReceiveBlocked {
        IntCopyFrame(s, pid, value);
      } else if !QueueFull(T(s.k, Lookup(s, pid).value)) {
        IntQueueFrame(s, pid, value);
      }
    }
  }

  // ---------------------------------------------------------------- mutexes

  /** How a mutex may change: it is taken while it is free; it is given back while nobody waits;
      or it goes from its holder to the first waiter. */
  predicate MutexMoves(s: State, s': State, m: nat) {
    || ((m in s'.locked <==> m in s.locked) && Count(s'.grants, m) == Count(s.grants, m) &&
      Count(s'.releases, m) == Count(s.releases, m))
    || (m !in s.locked && m in s'.locked && Count(s'.grants, m) == Count(s.grants, m) + 1 &&
      Count(s'.releases, m) == Count(s.releases, m))
    || (m in s.locked && m !in s'.locked && L(s.k, MutexQ(m)) == [] && Count(s'.grants, m) == Count(s.grants, m) &&
      Count(s'.releases, m) == Count(s.releases, m) + 1)
    || (Heir(s, m).Some? && m in s'.locked && Count(s'.grants, m) == Count(s.grants, m) + 1 &&
      Count(s'.releases, m) == Count(s.releases, m) + 1
        && (Heir(s, m).value < |s.k.ts| ==> T(s'.k, Heir(s, m).value).lock == Some(m)))
  }

  lemma LockFrame(s: State, a: Tid, m: nat, block: bool)
    ensures var s' := Lock(s, a, m, block);
            && SameMode(s, s') && s'.mboxes == s.mboxes && s'.cancels == s.cancels
            && (m in s.locked ==> SameMutexes(s, s')) && (forall i: nat :: MutexMoves(s, s', i))
  {
  }

  lemma CancelableGrants(s: State, a: Tid, id: nat)
    requires id in s.cancels && !s.cancels[id].cancelled && s.cancels[id].mutex !in s.locked
    ensures var s' := LockCancelable(s, a, id);
            SameMode(s, s') && s'.mboxes == s.mboxes && s'.cancels == s.cancels && forall i: nat :: MutexMoves(s, s', i)
  {
    GrantMoves(s, LockCancelable(s, a, id), s.cancels[id].mutex);
  }

  lemma CancelableWaits(s: State, a: Tid, id: nat)
    requires id in s.cancels && !s.cancels[id].cancelled && s.cancels[id].mutex in s.locked
    ensures var s' := LockCancelable(s, a, id);
            SameMode(s, s') && s'.mboxes == s.mboxes && s'.cancels == s.cancels && SameMutexes(s, s') &&
              forall i: nat :: MutexMoves(s, s', i)
  {
    NoMoves(s, LockCancelable(s, a, id));
  }

  lemma LockCancelableFrame(s: State, a: Tid, id: nat)
    requires id in s.cancels
    ensures var s' := LockCancelable(s, a, id);
            && SameMode(s, s') && s'.mboxes == s.mboxes && s'.cancels == s.cancels
            && (s.cancels[id].mutex in s.locked ==> SameMutexes(s, s')) && (forall i: nat :: MutexMoves(s, s', i))
  {
    if s.cancels[id].cancelled {
      NoMoves(s, LockCancelable(s, a, id));
    } else if s.cancels[id].mutex !in s.locked {
      CancelableGrants(s, a, id);
    } else {
      CancelableWaits(s, a, id);
    }
  }

  lemma GrantMoves(s: State, s': State, m: nat)
    requires m !in s.locked && s'.locked == s.locked + {m} && s'.grants == s.grants[m := Count(s.grants, m) + 1] &&
        s'.releases == s.releases
    ensures forall i: nat :: MutexMoves(s, s', i)
  {
  }

  lemma ReleaseMoves(s: State, s': State, m: nat)
    requires m in s.locked && L(s.k, MutexQ(m)) == [] && s'.locked == s.locked - {m}
    requires s'.releases == s.releases[m := Count(s.releases, m) + 1] && s'.grants == s.grants
    ensures forall i: nat :: MutexMoves(s, s', i)
  {
  }

  lemma HandMoves(s: State, s': State, m: nat)
    requires Heir(s, m).Some? && s'.locked == s.locked
    requires Heir(s, m).value < |s.k.ts| ==> T(s'.k, Heir(s, m).value).lock == Some(m)
    requires s'.releases == s.releases[m := Count(s.releases, m) + 1] &&
        s'.grants == s.grants[m := Count(s.grants, m) + 1]
    ensures forall i: nat :: MutexMoves(s, s', i)
  {
  }

  lemma ReleaseFrame(s: State, m: nat)
    requires m in s.locked && Heir(s, m) == None
    ensures var s' := UnlockCore(s, m);
            && SameMode(s, s') && s'.mboxes == s.mboxes && s'.cancels == s.cancels
            && (forall i: nat :: MutexMoves(s, s', i))
  {
    ReleaseMoves(s, UnlockCore(s, m), m);
  }

  lemma HandFrame(s: State, m: nat)
    requires m in s.locked && Heir(s, m).Some?
    ensures var s' := UnlockCore(s, m);
            && SameMode(s, s') && s'.mboxes == s.mboxes && s'.cancels == s.cancels
            && (forall i: nat :: MutexMoves(s, s', i))
  {
    HandMoves(s, UnlockCore(s, m), m);
  }

  lemma UnlockCoreFrame(s: State, m: nat)
    ensures var s' := UnlockCore(s, m);
            && SameMode(s, s') && s'.mboxes == s.mboxes && s'.cancels == s.cancels
            && (forall i: nat :: MutexMoves(s, s', i))
  {
    if m !in s.locked {
      NoMoves(s, s);
    } else if Heir(s, m) == None {
      ReleaseFrame(s, m);
    } else {
      HandFrame(s, m);
    }
  }

  /** Two states that differ in nothing that concerns mutexes. */
  lemma MovesThen(s: State, s1: State, s2: State)
    requires (forall i: nat :: MutexMoves(s, s1, i)) && SameMutexes(s1, s2)
    requires forall t: Tid {:trigger T(s2.k, t)} :: T(s2.k, t).lock == T(s1.k, t).lock
    ensures forall i: nat :: MutexMoves(s, s2, i)
  {
    forall i: nat ensures MutexMoves(s, s2, i) { assert MutexMoves(s, s1, i); }
  }

  lemma UnlockFrame(s: State, m: nat)
    ensures var s' := Unlock(s, m);
            && SameMode(s, s') && s'.mboxes == s.mboxes && s'.cancels == s.cancels
            && (forall i: nat :: MutexMoves(s, s', i))
  {
    UnlockCoreFrame(s, m);
    match Heir(s, m)
    case None =>
    case Some(t) =>
      ThenFrame(UnlockCore(s, m), Switch(T(s.k, t).prio));
      MovesThen(s, UnlockCore(s, m), Then(UnlockCore(s, m), Switch(T(s.k, t).prio)));
  }

  lemma NoMoves(s: State, s': State)
    requires SameMutexes(s, s')
    ensures forall i: nat :: MutexMoves(s, s', i)
  {
  }

  lemma WakeFrame(s: State, e: WakeCall)
    requires WakeEnabled(s, e)
    ensures var s' := WakeStep(s, e);
            && SameMode(s, s') && s'.mboxes == s.mboxes && (!e.DoUnlock? ==> SameMutexes(s, s'))
            && (!e.DoCancel? ==> s'.cancels == s.cancels)
            && (forall i: nat :: MutexMoves(s, s', i))
  {
    match e
    case DoUnlock(m) => UnlockFrame(s, m);
    case DoCancel(id) => CancelFrame(s, id); NoMoves(s, WakeStep(s, e));
    case DoSignal(c, bc) => SignalFrame(s, c, bc); NoMoves(s, WakeStep(s, e));
    case DoFlagsSet(t, mask) => FlagsSetFrame(s, t, mask); NoMoves(s, WakeStep(s, e));
  }

  lemma SignalFrame(s: State, c: nat, broadcast: bool)
    ensures SameObjects(s, Signal(s, c, broadcast)) && SameMode(s, Signal(s, c, broadcast))
  {
    var woken := Signalled(s, c, broadcast);
    ThenFrame(s.(k := WakeAll(s.k, CondQ(c), |woken|)), Switch(MinPrio(s.k, woken, LEVELS)));
  }

  lemma FlagsSetFrame(s: State, t: Tid, mask: Flags)
    ensures SameObjects(s, FlagsSet(s, t, mask)) && SameMode(s, FlagsSet(s, t, mask))
  {
    RaiseFrame(s, t, mask);
    ThenFrame(RaiseFlags(s, t, mask), Yield);
  }

  lemma CancelFrame(s: State, id: nat)
    requires id in s.cancels
    ensures SameMutexes(s, MutexCancel(s, id)) && SameMode(s, MutexCancel(s, id)) &&
        MutexCancel(s, id).mboxes == s.mboxes
  {
    var c := s.cancels[id];
    if !OnRunqueue(T(s.k, c.thread).status) && c.mutex in s.locked && c.thread in L(s.k, MutexQ(c.mutex)) {
      ThenFrame(s.(cancels := s.cancels[id := c.(cancelled := true)],
                   k := SetStatus(RemoveFrom(s.k, MutexQ(c.mutex), c.thread), c.thread, Pending)),
                     Switch(T(s.k, c.thread).prio));
    }
  }

  lemma LockCallFrame(s: State, e: LockCall)
    requires LockEnabled(s, e)
    ensures var s' := LockStep(s, e);
            && SameMode(s, s') && s'.mboxes == s.mboxes && (!e.DoInitCancel? ==> s'.cancels == s.cancels)
            && (forall i: nat :: MutexMoves(s, s', i))
  {
    var a := s.active.value;
    match e
    case DoLock(m, block) => LockFrame(s, a, m, block);
    case DoInitCancel(id, m) => NoMoves(s, LockStep(s, e));
    case DoLockCancelable(id) => LockCancelableFrame(s, a, id);
    case DoUnlockAndSleep(m) => UnlockAndSleepFrame(s, a, m);
    case DoCondWait(c, m) => CondWaitFrame(s, a, c, m);
  }

  lemma UnlockAndSleepFrame(s: State, a: Tid, m: nat)
    ensures var s' := UnlockAndSleep(s, a, m);
            SameMode(s, s') && s'.mboxes == s.mboxes && s'.cancels == s.cancels &&
              (forall i: nat :: MutexMoves(s, s', i))
  {
    var s1 := UnlockCore(s, m);
    UnlockCoreFrame(s, m);
    RetireFrame(s1, a, Sleeping);
    MovesThen(s, s1, UnlockAndSleep(s, a, m));
  }

  lemma RetireFrame(s: State, a: Tid, status: Status)
    ensures SameObjects(s, Retire(s, a, status)) && SameMode(s, Retire(s, a, status))
    ensures forall t: Tid {:trigger T(Retire(s, a, status).k, t)} :: T(Retire(s, a, status).k, t).lock == T(s.k, t).lock
  {
    ThenFrame(s.(k := SetStatus(s.k, a, status)), Yield);
    ThenKeepsLocks(s.(k := SetStatus(s.k, a, status)), Yield);
  }

  lemma ThenKeepsLocks(s: State, act: Act)
    ensures forall t: Tid {:trigger T(Then(s, act).k, t)} :: T(Then(s, act).k, t).lock == T(s.k, t).lock
  {
  }

  lemma CondWaitFrame(s: State, a: Tid, c: nat, m: nat)
    ensures var s' := CondWait(s, a, c, m);
            SameMode(s, s') && s'.mboxes == s.mboxes && s'.cancels == s.cancels &&
              (forall i: nat :: MutexMoves(s, s', i))
  {
    UnlockCoreFrame(s, m);
    WaitKeepsLocks(UnlockCore(s, m).k, a, c, [Yield, Relock(m)]);
    MovesThen(s, UnlockCore(s, m), CondWait(s, a, c, m));
  }

  lemma WaitKeepsLocks(k: Core, a: Tid, c: nat, acts: seq<Act>)
    ensures var k' := Owe(AddToList(SetStatus(k, a, CondBlocked), CondQ(c), a), a, acts);
            forall t: Tid {:trigger T(k', t)} :: T(k', t).lock == T(k, t).lock
  {
  }

  // ---------------------------------------------------------------- mailboxes

  /** Only mailbox b changes, and only a blocking put makes it one in which a put has waited. */
  predicate OneMboxMoves(s: State, s': State, b: nat, blocking: bool) {
    && s'.isr == s.isr && s'.idle == s.idle && s'.locked == s.locked && s'.grants == s.grants
    && s'.releases == s.releases
    && s'.cancels == s.cancels && b in s.mboxes && b in s'.mboxes && s'.mboxes == s.mboxes[b := s'.mboxes[b]]
    && (s'.mboxes[b].waited == s.mboxes[b].waited || (blocking && s'.mboxes[b].waited))
  }

  lemma PutFullFrame(s: State, b: nat, value: int, blocking: bool)
    requires b in s.mboxes && |s.mboxes[b].ring| >= s.mboxes[b].cap
    ensures OneMboxMoves(s, PutLoop(s, b, value, blocking), b, blocking)
  {
    if !(blocking && s.active.Some?) { assert s.mboxes[b := s.mboxes[b]] == s.mboxes; }
  }

  lemma PutStoreFrame(s: State, b: nat, value: int, blocking: bool)
    requires b in s.mboxes && |s.mboxes[b].ring| < s.mboxes[b].cap
    ensures OneMboxMoves(s, PutLoop(s, b, value, blocking), b, false)
  {
  }

  lemma PutLoopFrame(s: State, b: nat, value: int, blocking: bool)
    requires b in s.mboxes
    ensures OneMboxMoves(s, PutLoop(s, b, value, blocking), b, blocking)
  {
    if |s.mboxes[b].ring| >= s.mboxes[b].cap {
      PutFullFrame(s, b, value, blocking);
    } else {
      PutStoreFrame(s, b, value, blocking);
    }
  }

  lemma MboxPutFrame(s: State, b: nat, value: int, blocking: bool)
    requires b in s.mboxes
    ensures OneMboxMoves(s, MboxPut(s, b, value, blocking), b, blocking)
  {
    if L(s.k, Readers(b)) == [] {
      PutLoopFrame(s, b, value, blocking);
    } else {
      var mb := s.mboxes[b];
      var m := Msg(0, value, Author(s), s.k.clock);
      var s1 := s.(k := HandOver(s.k, b, m), mboxes := s.mboxes[b := Passed(mb, m, L(s.k, Readers(b))[0])],
                   ret := 1);
      ThenFrame(s1, Switch(T(s.k, L(s.k, Readers(b))[0]).prio));
    }
  }

  lemma MboxGetFrame(s: State, b: nat, blocking: bool)
    requires b in s.mboxes
    ensures OneMboxMoves(s, MboxGet(s, b, blocking), b, false)
  {
    if s.mboxes[b].ring != [] {
      MboxTakeFrame(s, b, blocking);
    } else {
      assert s.mboxes[b := s.mboxes[b]] == s.mboxes;
      if blocking && s.active.Some? { } else { }
    }
  }

  lemma MboxTakeFrame(s: State, b: nat, blocking: bool)
    requires b in s.mboxes && s.mboxes[b].ring != []
    ensures OneMboxMoves(s, MboxGet(s, b, blocking), b, false)
  {
    var mb := s.mboxes[b];
    var s1 := s.(k := WakeHead(s.k, Writers(b)), mboxes := s.mboxes[b := Emptied(mb, Author(s))], ret := 1,
                 mailRet := mb.ring[0]);
    if L(s.k, Writers(b)) != [] { ThenFrame(s1, Switch(T(s.k, L(s.k, Writers(b))[0]).prio)); }
  }

  lemma MboxFrame(s: State, e: MboxCall)
    requires MboxEnabled(s, e)
    ensures var s' := MboxStep(s, e);
            && SameMode(s, s') && SameMutexes(s, s') && s'.cancels == s.cancels && s.mboxes.Keys <= s'.mboxes.Keys
            && (forall i :: i in s'.mboxes && !(e.DoPut? && e.mbox == i) ==>
                  s'.mboxes[i].waited == (i in s.mboxes && s.mboxes[i].waited))
  {
    match e
    case DoInitMbox(b, cap) =>
    case DoPut(b, v) => MboxPutFrame(s, b, v, true);
    case DoTryPut(b, v) => MboxPutFrame(s, b, v, false);
    case DoGet(b) => MboxGetFrame(s, b, true);
    case DoTryGet(b) => MboxGetFrame(s, b, false);
  }

  // ---------------------------------------------------------------- going on with a call

  predicate Tests(act: Act) {
    act.Switch? || act.SwitchIfRequested? || act.CheckPriority?
  }

  lemma TestFrame(s: State, a: Tid)
    requires T(s.k, a).todo != [] && Tests(T(s.k, a).todo[0])
    ensures SameObjects(s, Resume(s, a)) && SameMode(s, Resume(s, a))
  {
    var s1 := PoppedState(s, a);
    assert Resume(s, a) == s1 || Resume(s, a) == s1.(k := Owe(s1.k, a, [Yield]));
  }

  lemma RelockFrame(s: State, a: Tid)
    requires T(s.k, a).todo != [] && T(s.k, a).todo[0].Relock?
    ensures var s' := Resume(s, a);
            && SameMode(s, s') && s'.mboxes == s.mboxes && s'.cancels == s.cancels
            && (forall i: nat :: MutexMoves(s, s', i))
  {
    var s1 := PoppedState(s, a);
    assert forall l :: L(s1.k, l) == L(s.k, l);
    LockFrame(s1, a, T(s.k, a).todo[0].mutex, true);
    forall i: nat ensures MutexMoves(s, Resume(s, a), i) { assert MutexMoves(s1, Resume(s, a), i); }
  }

  lemma RetryFrame(s: State, a: Tid)
    requires T(s.k, a).todo != [] && T(s.k, a).todo[0].RetryPut?
    ensures var s' := Resume(s, a); var b := T(s.k, a).todo[0].mbox;
            && SameMode(s, s') && SameMutexes(s, s') && s'.cancels == s.cancels
            && (if b in s.mboxes then OneMboxMoves(s, s', b, true) else s'.mboxes == s.mboxes)
  {
    var act := T(s.k, a).todo[0];
    if act.mbox in s.mboxes {
      PutLoopFrame(PoppedState(s, a), act.mbox, act.value, true);
      RetryIs(s, a, act.mbox, act.value);
    } else {
      assert Resume(s, a) == PoppedState(s, a);
    }
  }

  lemma RetryIs(s: State, a: Tid, b: nat, value: int)
    requires T(s.k, a).todo != [] && T(s.k, a).todo[0] == RetryPut(b, value) && b in s.mboxes
    ensures Resume(s, a) == PutLoop(PoppedState(s, a), b, value, true)
  {
  }

  lemma YieldFrame(s: State, a: Tid)
    requires T(s.k, a).todo != [] && T(s.k, a).todo[0].Yield?
    ensures SameObjects(s, Resume(s, a)) && Resume(s, a).isr == s.isr
    ensures Resume(s, a).idle ==> Next(Resume(s, a).k) == None
  {
    SchedRunFrames(PoppedState(s, a));
    IdleStays(PoppedState(s, a));
  }

  lemma RoundRobinFrame(s: State, a: Tid)
    requires T(s.k, a).todo != [] && T(s.k, a).todo[0].YieldRoundRobin?
    ensures SameObjects(s, Resume(s, a)) && SameMode(s, Resume(s, a))
  {
    var s1 := PoppedState(s, a);
    ThenFrame(s1.(k := if OnRunqueue(T(s1.k, a).status) then Rotate(s1.k, T(s1.k, a).prio) else s1.k), Yield);
  }

  lemma ClearFrame(s: State, a: Tid)
    requires T(s.k, a).todo != [] &&
        (T(s.k, a).todo[0].ClearAny? || T(s.k, a).todo[0].ClearAll? || T(s.k, a).todo[0].ClearOne?)
    ensures SameObjects(s, Resume(s, a)) && SameMode(s, Resume(s, a))
  {
  }

  lemma NoteFrame(s: State, a: Tid)
    requires T(s.k, a).todo != [] && (T(s.k, a).todo[0].ReadOne? || T(s.k, a).todo[0].CheckCancel?)
    ensures SameObjects(s, Resume(s, a)) && SameMode(s, Resume(s, a))
  {
  }

  lemma RestFrame(s: State, a: Tid)
    requires T(s.k, a).todo != [] && !Tests(T(s.k, a).todo[0]) && !T(s.k, a).todo[0].Relock? &&
        !T(s.k, a).todo[0].RetryPut?
    requires !T(s.k, a).todo[0].Yield? && !T(s.k, a).todo[0].YieldRoundRobin?
    ensures SameObjects(s, Resume(s, a)) && SameMode(s, Resume(s, a))
  {
    var act := T(s.k, a).todo[0];
    if act.ClearAny? || act.ClearAll? || act.ClearOne? { ClearFrame(s, a); }
    else if act.ReadOne? || act.CheckCancel? { NoteFrame(s, a); }
    else { assert Resume(s, a) == PoppedState(s, a); }
  }

  // ---------------------------------------------------------------- the idle loop

  /** The processor idles only while no thread is runnable. */
  predicate IdleOk(s: State) {
    s.idle && !s.isr ==> Next(s.k) == None
  }

  lemma ResumeIdle(s: State, a: Tid)
    requires T(s.k, a).todo != [] && !s.idle
    ensures IdleOk(Resume(s, a))
  {
    var act := T(s.k, a).todo[0];
    if act.Yield? { YieldFrame(s, a); }
    else if act.YieldRoundRobin? { RoundRobinFrame(s, a); }
    else if act.Relock? { RelockFrame(s, a); }
    else if act.RetryPut? { RetryFrame(s, a); }
    else if Tests(act) { TestFrame(s, a); }
    else { RestFrame(s, a); }
  }

  lemma LeaveIdle(s: State)
    ensures IdleOk(LeaveIsr(s))
  {
    var s1 := s.(isr := false);
    SchedRunFrames(s1);
    IdleStays(s1);
  }

  lemma CpuIdle(s: State, e: CpuEvent)
    requires CpuEnabled(s, e) && IdleOk(s)
    ensures IdleOk(CpuStep(s, e))
  {
    match e
    case EnterIsr =>
    case ExitIsr => LeaveIdle(s);
    case Preempt => SchedRunFrames(s); IdleStays(s);
    case Continue => ResumeIdle(s, s.active.value);
  }

  lemma StepIdle(s: State, e: Event)
    requires Enabled(s, e) && IdleOk(s)
    ensures IdleOk(Step(s, e))
  {
    match e
    case Cpu(c) => CpuIdle(s, c);
    case ForThread(c) => ThreadFrame(s, c);
    case ForWaking(c) => WakeFrame(s, c);
    case ForOwn(c) => OwnFrame(s, c);
    case ForLock(c) => LockCallFrame(s, c);
    case ForFlags(c) => FlagsFrame(s, c);
    case ForMsg(c) => MsgFrame(s, c);
    case ForMbox(c) => MboxFrame(s, c);
  }

  // ---------------------------------------------------------------- mutexes and mailboxes in every step

  lemma ResumeMoves(s: State, a: Tid)
    requires T(s.k, a).todo != []
    ensures forall i: nat :: MutexMoves(s, Resume(s, a), i)
  {
    var act := T(s.k, a).todo[0];
    if act.Relock? {
      RelockFrame(s, a);
    } else {
      if act.Yield? { YieldFrame(s, a); }
      else if act.YieldRoundRobin? { RoundRobinFrame(s, a); }
      else if act.RetryPut? { RetryFrame(s, a); }
      else if Tests(act) { TestFrame(s, a); }
      else { RestFrame(s, a); }
      NoMoves(s, Resume(s, a));
    }
  }

  lemma CpuMoves(s: State, e: CpuEvent)
    requires CpuEnabled(s, e)
    ensures forall i: nat :: MutexMoves(s, CpuStep(s, e), i)
  {
    match e
    case EnterIsr => NoMoves(s, CpuStep(s, e));
    case ExitIsr => SchedRunFrames(s.(isr := false)); NoMoves(s, CpuStep(s, e));
    case Preempt => SchedRunFrames(s); NoMoves(s, CpuStep(s, e));
    case Continue => ResumeMoves(s, s.active.value);
  }

  lemma StepMoves(s: State, e: Event)
    requires Enabled(s, e)
    ensures forall i: nat :: MutexMoves(s, Step(s, e), i)
  {
    match e
    case Cpu(c) => CpuMoves(s, c);
    case ForThread(c) => ThreadFrame(s, c); NoMoves(s, Step(s, e));
    case ForWaking(c) => WakeFrame(s, c);
    case ForOwn(c) => OwnFrame(s, c); NoMoves(s, Step(s, e));
    case ForLock(c) => LockCallFrame(s, c);
    case ForFlags(c) => FlagsFrame(s, c); NoMoves(s, Step(s, e));
    case ForMsg(c) => MsgFrame(s, c); NoMoves(s, Step(s, e));
    case ForMbox(c) => MboxFrame(s, c); NoMoves(s, Step(s, e));
  }

  /** Mailbox b exists, and a put has had to wait for room in it. */
  predicate Waited(s: State, b: nat) {
    b in s.mboxes && s.mboxes[b].waited
  }

  lemma ResumeWaited(s: State, a: Tid, b: nat)
    requires Inv(s) && MayResume(s, a)
    ensures Waited(Resume(s, a), b) == Waited(s, b)
  {
    var act := T(s.k, a).todo[0];
    if act.Yield? { YieldFrame(s, a); }
    else if act.YieldRoundRobin? { RoundRobinFrame(s, a); }
    else if act.Relock? { RelockFrame(s, a); }
    else if act.RetryPut? { RetryWaited(s, a, b); }
    else if Tests(act) { TestFrame(s, a); }
    else { RestFrame(s, a); }
  }

  /** Whoever retries a put has waited. */
  lemma RetryWaited(s: State, a: Tid, b: nat)
    requires Inv(s) && MayResume(s, a) && T(s.k, a).todo[0].RetryPut?
    ensures Waited(Resume(s, a), b) == Waited(s, b)
  {
    var act := T(s.k, a).todo[0];
    LastActKeeps(s, a);
    RetryFrame(s, a);
    assert Waited(s, act.mbox);
  }

  lemma CpuWaited(s: State, e: CpuEvent, b: nat)
    requires Inv(s) && CpuEnabled(s, e)
    ensures Waited(CpuStep(s, e), b) == Waited(s, b)
  {
    match e
    case EnterIsr =>
    case ExitIsr => SchedRunFrames(s.(isr := false));
    case Preempt => SchedRunFrames(s);
    case Continue => ResumeWaited(s, s.active.value, b);
  }

  lemma StepWaited(s: State, e: Event, b: nat)
    requires Inv(s) && Enabled(s, e) && !(e.ForMbox? && e.box.DoPut? && e.box.mbox == b)
    ensures Waited(Step(s, e), b) == Waited(s, b)
  {
    match e
    case Cpu(c) => CpuWaited(s, c, b);
    case ForThread(c) => ThreadFrame(s, c);
    case ForWaking(c) => WakeFrame(s, c);
    case ForOwn(c) => OwnFrame(s, c);
    case ForLock(c) => LockCallFrame(s, c);
    case ForFlags(c) => FlagsFrame(s, c);
    case ForMsg(c) => MsgFrame(s, c);
    case ForMbox(c) => MboxFrame(s, c);
  }
}
