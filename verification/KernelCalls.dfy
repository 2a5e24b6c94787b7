/** What the calls on threads, mutexes and flags report and do, each said of the state before it:
    return values, records and lists. */
module KernelCalls {
  import opened KernelTypes
  import opened KernelSpec
  import opened KernelLinks
  import opened KernelInv
  import opened KernelCore
  import opened KernelSched
  import opened KernelState
  import opened KernelSteps
  import opened KernelThreadSteps
  import opened KernelSyncSteps
  import opened KernelInvariant

  // ---------------------------------------------------------------- what stays as it was

  /** The record of a thread, but for what it still does. */
  predicate Keeps(x: Tcb, y: Tcb) {
    y == x.(todo := y.todo)
  }

  ghost predicate OthersKeep(k: Core, k': Core, t: Tid) {
    forall u: Tid {:trigger T(k', u)} :: u != t ==> Keeps(T(k, u), T(k', u))
  }

  /** Asking for a switch changes no record and no list. */
  lemma ThenKeeps(s: State, act: Act)
    ensures var s' := Then(s, act);
            && s' == s.(k := s'.k, request := s'.request) && |s'.k.ts| == |s.k.ts|
            && (forall t: Tid {:trigger T(s'.k, t)} :: Keeps(T(s.k, t), T(s'.k, t)))
            && (forall t: Tid {:trigger T(s'.k, t)} :: s.active != Some(t) ==> T(s'.k, t) == T(s.k, t))
            && (forall l {:trigger L(s'.k, l)} :: L(s'.k, l) == L(s.k, l))
  {
  }

  // ---------------------------------------------------------------- mutex_lock and mutex_trylock

  /** mutex_trylock returns 1 exactly if the mutex is free, which it then has, and otherwise 0 with
      nothing changed; mutex_lock of a locked mutex blocks. */
  lemma LockAnswers(s: State, m: nat, block: bool)
    requires Reachable(s) && Calling(s)
    ensures var s' := Step(s, ForLock(DoLock(m, block))); var a := s.active.value;
            && (!block ==> (s'.ret == 1 <==> m !in s.locked))
            && (m !in s.locked ==>
                  && s'.ret == 1 && s'.locked == s.locked + {m} && Count(s'.grants, m) == Count(s.grants, m) + 1
                  && T(s'.k, a) == T(s.k, a).(lock := Some(m)))
            && (m in s.locked && !block ==> s' == s.(ret := 0))
            && (m in s.locked && block ==>
                  && s'.locked == s.locked && s'.grants == s.grants && T(s'.k, a).status == MutexBlocked
                  && a in L(s'.k, MutexQ(m)) && T(s'.k, a).todo == [Yield, Locked(m)])
            && OthersKeep(s.k, s'.k, a)
  {
    ReachableOk(s);
    CallerIsSettled(s);
    if m !in s.locked {
      LockTakes(s, s.active.value, m, block);
    } else if block {
      LockBlocks(s, s.active.value, m);
    }
  }

  lemma LockTakes(s: State, a: Tid, m: nat, block: bool)
    requires m !in s.locked && a < |s.k.ts|
    ensures var s' := Lock(s, a, m, block);
            && s'.ret == 1 && s'.locked == s.locked + {m} && Count(s'.grants, m) == Count(s.grants, m) + 1
            && T(s'.k, a) == T(s.k, a).(lock := Some(m)) && OthersKeep(s.k, s'.k, a)
  {
  }

  lemma LockBlocks(s: State, a: Tid, m: nat)
    requires m in s.locked && MayBlock(s.k, a)
    ensures var s' := Lock(s, a, m, true);
            && s'.locked == s.locked && s'.grants == s.grants && T(s'.k, a).status == MutexBlocked
            && a in L(s'.k, MutexQ(m)) && T(s'.k, a).todo == [Yield, Locked(m)] && OthersKeep(s.k, s'.k, a)
  {
    MutexBlockEffect(s.k, a, m, Locked(m));
    BlockedIsListed(s.k, a, m);
  }

  lemma BlockedIsListed(k: Core, a: Tid, m: nat)
    ensures a in L(Owe(BlockOnMutex(k, a, m), a, [Yield, Locked(m)]), MutexQ(m))
  {
    var k1 := SetStatus(k, a, MutexBlocked);
    InsertAdds(k1, L(k1, MutexQ(m)), a);
  }

  lemma {:induction false} InsertAdds(k: Core, q: seq<Tid>, t: Tid)
    ensures t in Insert(k, q, t) && multiset(Insert(k, q, t)) == multiset(q) + multiset{t}
  {
    if q != [] && T(k, q[0]).prio <= T(k, t).prio {
      InsertAdds(k, q[1..], t);
      assert q == [q[0]] + q[1..];
    }
  }

  // ---------------------------------------------------------------- cancellation

  /** mutex_cancel always marks the structure, and touches nothing else unless its thread waits for the
      mutex; mutex_cancel_init clears the mark. */
  lemma CancelMarks(s: State, id: nat)
    requires Reachable(s) && WakeEnabled(s, DoCancel(id))
    ensures var s' := Step(s, ForWaking(DoCancel(id))); var c := s.cancels[id];
            && s'.cancels.Keys == s.cancels.Keys && s'.cancels[id].cancelled
            && s'.cancels[id].mutex == c.mutex && s'.cancels[id].thread == c.thread
            && (forall i :: i in s.cancels && i != id ==> s'.cancels[i] == s.cancels[i])
            && (c.thread !in L(s.k, MutexQ(c.mutex)) ==> s' == s.(cancels := s'.cancels))
            && s'.locked == s.locked && s'.grants == s.grants && s'.releases == s.releases
  {
    ReachableOk(s);
    CancellingMarks(s, id);
  }

  lemma CancellingMarks(s: State, id: nat)
    requires id in s.cancels
    ensures var s' := MutexCancel(s, id); var c := s.cancels[id];
            && s'.cancels == s.cancels[id := s'.cancels[id]]
            && s'.cancels[id] == c.(cancelled := true, late := s'.cancels[id].late)
            && (c.thread !in L(s.k, MutexQ(c.mutex)) ==> s' == s.(cancels := s'.cancels))
            && s'.locked == s.locked && s'.grants == s.grants && s'.releases == s.releases
  {
    var c := s.cancels[id];
    if !OnRunqueue(T(s.k, c.thread).status) && c.mutex in s.locked && c.thread in L(s.k, MutexQ(c.mutex)) {
      CancelledWaiter(s, id);
    }
  }

  lemma CancelledWaiter(s: State, id: nat)
    requires id in s.cancels && !OnRunqueue(T(s.k, s.cancels[id].thread).status)
    requires s.cancels[id].mutex in s.locked && s.cancels[id].thread in L(s.k, MutexQ(s.cancels[id].mutex))
    ensures var s' := MutexCancel(s, id);
            && s'.cancels == s.cancels[id := s.cancels[id].(cancelled := true)]
            && s'.locked == s.locked && s'.grants == s.grants && s'.releases == s.releases
  {
    var c := s.cancels[id];
    ThenKeeps(s.(cancels := s.cancels[id := c.(cancelled := true)],
                 k := SetStatus(RemoveFrom(s.k, MutexQ(c.mutex), c.thread), c.thread, Pending)),
      Switch(T(s.k, c.thread).prio));
  }

  lemma CancelStartsAnew(s: State, id: nat, m: nat)
    requires Reachable(s) && LockEnabled(s, DoInitCancel(id, m))
    ensures var s' := Step(s, ForLock(DoInitCancel(id, m)));
            && id in s'.cancels && !s'.cancels[id].cancelled
            && s'.cancels[id].mutex == m && s'.cancels[id].thread == s.active.value
            && s' == s.(cancels := s.cancels[id := s'.cancels[id]])
  {
  }

  // ---------------------------------------------------------------- thread flags

  /** The flags awaited by a thread are among these. */
  predicate Awaits(tcb: Tcb, flags: Flags) {
    tcb.wait.Mask? && ((tcb.status == FlagBlockedAny && tcb.wait.mask * flags != {})
                       || (tcb.status == FlagBlockedAll && tcb.wait.mask <= flags))
  }

  /** Thread t has these flags besides, and is runnable if it waited for them; nothing else changes. */
  ghost predicate Raised(k: Core, k': Core, t: Tid, mask: Flags) {
    && T(k', t).flags == T(k, t).flags + mask && T(k', t).wait == T(k, t).wait
    && (Awaits(T(k, t), T(k, t).flags + mask) ==> OnRunqueue(T(k', t).status) && t in L(k', Rq(T(k, t).prio)))
    && (!Awaits(T(k, t), T(k, t).flags + mask) ==> T(k', t).status == T(k, t).status)
    && OthersKeep(k, k', t)
  }

  /** thread_flags_set sets the flags, wakes the thread exactly if it waits for them, and touches no
      other thread. */
  lemma FlagsAreSet(s: State, t: Tid, mask: Flags)
    requires Reachable(s) && WakeEnabled(s, DoFlagsSet(t, mask))
    ensures var s' := Step(s, ForWaking(DoFlagsSet(t, mask)));
            Raised(s.k, s'.k, t, mask) && s' == s.(k := s'.k, request := s'.request)
  {
    SettingRaises(s, t, mask);
  }

  lemma SettingRaises(s: State, t: Tid, mask: Flags)
    requires t < |s.k.ts|
    ensures var s' := FlagsSet(s, t, mask);
            Raised(s.k, s'.k, t, mask) && s' == s.(k := s'.k, request := s'.request)
  {
    RaiseRaises(s, t, mask);
    ThenRaises(s, RaiseFlags(s, t, mask), t, mask);
  }

  lemma ThenRaises(s: State, s1: State, t: Tid, mask: Flags)
    requires Raised(s.k, s1.k, t, mask) && s1 == s.(k := s1.k, request := s1.request)
    ensures var s' := Then(s1, Yield); Raised(s.k, s'.k, t, mask) && s' == s.(k := s'.k, request := s'.request)
  {
    ThenKeeps(s1, Yield);
  }

  lemma RaiseRaises(s: State, t: Tid, mask: Flags)
    requires t < |s.k.ts|
    ensures var s' := RaiseFlags(s, t, mask);
            Raised(s.k, s'.k, t, mask) && s' == s.(k := s'.k, request := s'.request)
  {
    var tcb := WithFlags(T(s.k, t), mask);
    if FlagsSatisfied(tcb) {
      WakeEffect(SetT(s.k, t, tcb), t, Pending);
      WokenIsListed(SetT(s.k, t, tcb), t, Pending);
    }
  }

  lemma WokenIsListed(k: Core, t: Tid, status: Status)
    requires OnRunqueue(status) && !OnRunqueue(T(k, t).status)
    ensures var q := L(SetStatus(k, t, status), Rq(T(k, t).prio)); q == L(k, Rq(T(k, t).prio)) + [t] && t in q
  {
  }

  /** thread_flags_clear returns the flags of the mask that were set, and clears those. */
  lemma FlagsAreCleared(s: State, mask: Flags)
    requires Reachable(s) && Calling(s)
    ensures var s' := Step(s, ForFlags(DoFlagsClear(mask))); var a := s.active.value;
            && s'.flagsRet == T(s.k, a).flags * mask && T(s'.k, a) == T(s.k, a).(flags := T(s.k, a).flags - mask)
            && (forall u: Tid :: u != a ==> T(s'.k, u) == T(s.k, u))
            && s' == s.(k := s'.k, flagsRet := s'.flagsRet)
  {
    ReachableOk(s);
    CallerIsSettled(s);
    var x := T(s.k, s.active.value);
    assert x.flags - mask * x.flags == x.flags - mask;
  }

  /** The thread waits for flags of the mask, and then goes on with `end`; or goes on at once. */
  predicate WaitsOrGoesOn(x: Tcb, y: Tcb, waits: bool, status: Status, mask: Flags, end: Act) {
    && (waits ==> y.status == status && y.wait == Mask(mask) && y.todo == [Yield, end])
    && (!waits ==> y == x.(todo := [end])) && y.flags == x.flags
  }

  /** The three ways of waiting for flags block exactly if the flags that are set do not do. */
  lemma FlagsAreAwaited(s: State, mask: Flags)
    requires Reachable(s) && Calling(s)
    ensures var a := s.active.value; var x := T(s.k, a);
            && WaitsOrGoesOn(x, T(Step(s, ForFlags(DoWaitAny(mask))).k, a), x.flags * mask == {}, FlagBlockedAny, mask,
                 ClearAny(mask))
            && WaitsOrGoesOn(x, T(Step(s, ForFlags(DoWaitOne(mask))).k, a), x.flags * mask == {}, FlagBlockedAny, mask,
                 ReadOne(mask))
            && WaitsOrGoesOn(x, T(Step(s, ForFlags(DoWaitAll(mask))).k, a), !(mask <= x.flags), FlagBlockedAll, mask,
                 ClearAll(mask))
  {
    ReachableOk(s);
    CallerIsSettled(s);
    WaitAnyStarts(s, s.active.value, mask, ClearAny(mask));
    WaitAnyStarts(s, s.active.value, mask, ReadOne(mask));
    WaitAllStarts(s, s.active.value, mask);
  }

  lemma FlagsBlockRecord(k: Core, a: Tid, mask: Flags, status: Status, end: Act)
    requires MayBlock(k, a) && !OnRunqueue(status)
    ensures var y := T(FlagsBlock(k, a, mask, status, end), a);
            y.status == status && y.wait == Mask(mask) && y.todo == [Yield, end] && y.flags == T(k, a).flags
  {
    ParkCommutes(k, a, Mask(mask), status);
    assert [Yield, end] + [] == [Yield, end];
  }

  lemma WaitAnyStarts(s: State, a: Tid, mask: Flags, end: Act)
    requires MayBlock(s.k, a)
    ensures WaitsOrGoesOn(T(s.k, a), T(WaitAny(s, a, mask, end).k, a), T(s.k, a).flags * mask == {}, FlagBlockedAny,
              mask, end)
  {
    if T(s.k, a).flags * mask == {} { FlagsBlockRecord(s.k, a, mask, FlagBlockedAny, end); }
    assert [end] + [] == [end];
  }

  lemma WaitAllStarts(s: State, a: Tid, mask: Flags)
    requires MayBlock(s.k, a)
    ensures WaitsOrGoesOn(T(s.k, a), T(WaitAll(s, a, mask).k, a), !(mask <= T(s.k, a).flags), FlagBlockedAll,
              mask, ClearAll(mask))
  {
    if !(mask <= T(s.k, a).flags) { FlagsBlockRecord(s.k, a, mask, FlagBlockedAll, ClearAll(mask)); }
    assert [ClearAll(mask)] + [] == [ClearAll(mask)];
  }

  // ---------------------------------------------------------------- thread_create

  predicate PidsTaken(s: State) {
    forall p :: 1 <= p <= PID_LAST ==> Lookup(s, p).Some?
  }

  /** There is a new thread, with the least free PID. */
  ghost predicate HasNewThread(s: State, s': State, prio: nat, sleeping: bool) {
    && |s'.k.ts| == |s.k.ts| + 1
    && 1 <= s'.ret <= PID_LAST && Lookup(s, s'.ret) == None && Lookup(s', s'.ret) == Some(|s.k.ts|)
    && (forall p :: 1 <= p < s'.ret ==> Lookup(s, p).Some?)
    && (forall p: nat :: p != s'.ret ==> Lookup(s', p) == Lookup(s, p))
    && IsNew(T(s'.k, |s.k.ts|), prio, s'.ret, sleeping)
    && (!sleeping ==> |s.k.ts| in L(s'.k, Rq(prio)))
    && (forall u: Tid {:trigger T(s'.k, u)} :: u < |s.k.ts| ==> Keeps(T(s.k, u), T(s'.k, u)))
  }

  predicate IsNew(x: Tcb, prio: nat, pid: int, sleeping: bool) {
    && x.prio == prio && x.pid == pid && x.status == (if sleeping then Sleeping else Pending)
    && x.flags == {} && x.queue == [] && x.cap == 0 && x.todo == [] && x.wait == NoData
  }

  /** thread_create fails exactly for a bad priority or without a free PID, with nothing changed, and
      otherwise makes a thread of that priority under the least free PID, which it returns. */
  lemma CreateAnswers(s: State, prio: nat, sleeping: bool)
    requires Reachable(s) && MayCall(s)
    ensures var s' := Step(s, ForThread(DoCreate(prio, sleeping)));
            && (prio >= LEVELS ==> s' == s.(ret := EINVAL))
            && (prio < LEVELS && PidsTaken(s) ==> s' == s.(ret := EOVERFLOW))
            && (prio < LEVELS && !PidsTaken(s) ==> HasNewThread(s, s', prio, sleeping))
  {
    ReachableOk(s);
    FreePidIsFree(s.pids, 1);
    if prio < LEVELS {
      match FreePid(s.pids, 1)
      case None => NoneFree(s);
      case Some(pid) => CreateMakes(s, prio, sleeping, pid);
    }
  }

  lemma NoneFree(s: State)
    requires |s.pids| == PID_LAST + 1 && forall p :: 1 <= p < |s.pids| ==> s.pids[p].Some?
    ensures PidsTaken(s)
  {
  }

  lemma CreateMakes(s: State, prio: nat, sleeping: bool, pid: nat)
    requires prio < LEVELS && |s.pids| == PID_LAST + 1 && FreePid(s.pids, 1) == Some(pid) && ActiveOk(s)
    requires 1 <= pid < |s.pids| && s.pids[pid] == None && forall p :: 1 <= p < pid ==> s.pids[p].Some?
    ensures !PidsTaken(s) && HasNewThread(s, Create(s, prio, sleeping), prio, sleeping)
  {
    assert Lookup(s, pid) == None;
    var s1 := s.(pids := s.pids[pid := Some(|s.k.ts|)], ret := pid, k := Born(s.k, prio, pid, sleeping));
    BornIsNew(s.k, prio, pid, sleeping);
    if !sleeping { ThenKeeps(s1, Switch(prio)); }
    CreatedFrom(s, s1, Create(s, prio, sleeping), prio, sleeping, pid);
  }

  lemma CreatedFrom(s: State, s1: State, s': State, prio: nat, sleeping: bool, pid: nat)
    requires |s.pids| == PID_LAST + 1 && 1 <= pid < |s.pids|
    requires s.pids[pid] == None && forall p :: 1 <= p < pid ==> s.pids[p].Some?
    requires s1 == s.(pids := s.pids[pid := Some(|s.k.ts|)], ret := pid, k := s1.k) && |s1.k.ts| == |s.k.ts| + 1
    requires IsNew(T(s1.k, |s.k.ts|), prio, pid, sleeping) && (!sleeping ==> |s.k.ts| in L(s1.k, Rq(prio)))
    requires forall u: Tid {:trigger T(s1.k, u)} :: u < |s.k.ts| ==> T(s1.k, u) == T(s.k, u)
    requires s'.pids == s1.pids && s'.ret == s1.ret && |s'.k.ts| == |s1.k.ts|
    requires forall l {:trigger L(s'.k, l)} :: L(s'.k, l) == L(s1.k, l)
    requires forall t: Tid {:trigger T(s'.k, t)} :: Keeps(T(s1.k, t), T(s'.k, t))
    requires T(s'.k, |s.k.ts|).todo == []
    ensures HasNewThread(s, s', prio, sleeping)
  {
  }

  lemma BornIsNew(k: Core, prio: nat, pid: nat, sleeping: bool)
    ensures var k' := Born(k, prio, pid, sleeping);
            && |k'.ts| == |k.ts| + 1 && IsNew(T(k', |k.ts|), prio, pid, sleeping)
            && (!sleeping ==> |k.ts| in L(k', Rq(prio)))
            && forall u: Tid {:trigger T(k', u)} :: u < |k.ts| ==> T(k', u) == T(k, u)
  {
    BornEffect(k, prio, pid, sleeping);
    var k1 := AddThread(k, prio, pid);
    assert T(k1, |k.ts|) == NO_TCB.(prio := prio, pid := pid);
    if !sleeping { WokenIsListed(k1, |k.ts|, Pending); }
  }

  // ---------------------------------------------------------------- thread_wakeup and thread_kill_zombie

  /** thread_wakeup returns 1 exactly if the PID is that of a sleeping thread, which it makes runnable;
      otherwise it returns -1 and changes nothing. */
  lemma WakeupAnswers(s: State, pid: nat)
    requires Reachable(s) && MayCall(s)
    ensures var s' := Step(s, ForThread(DoWakeup(pid)));
            match Lookup(s, pid)
            case None => s' == s.(ret := -1)
            case Some(t) =>
              if T(s.k, t).status == Sleeping then
                && s'.ret == 1 && s' == s.(k := s'.k, request := s'.request, ret := 1)
                && OnRunqueue(T(s'.k, t).status) && t in L(s'.k, Rq(T(s.k, t).prio)) && OthersKeep(s.k, s'.k, t)
              else s' == s.(ret := -1)
  {
    ReachableOk(s);
    if Lookup(s, pid).Some? && T(s.k, Lookup(s, pid).value).status == Sleeping { SleeperWakes(s, pid); }
  }

  lemma SleeperWakes(s: State, pid: nat)
    requires PidsOk(s) && Lookup(s, pid).Some? && T(s.k, Lookup(s, pid).value).status == Sleeping
    ensures var s' := Wakeup(s, pid); var t := Lookup(s, pid).value;
            && s'.ret == 1 && s' == s.(k := s'.k, request := s'.request, ret := 1)
            && OnRunqueue(T(s'.k, t).status) && t in L(s'.k, Rq(T(s.k, t).prio)) && OthersKeep(s.k, s'.k, t)
  {
    LookupFinds(s, pid);
    var t := Lookup(s, pid).value;
    var s1 := s.(k := SetStatus(s.k, t, Running), ret := 1);
    WakeEffect(s.k, t, Running);
    WokenIsListed(s.k, t, Running);
    ThenKeeps(s1, Switch(T(s.k, t).prio));
  }

  /** thread_kill_zombie returns 1 exactly if the PID is that of a zombie, whose PID it frees;
      otherwise it returns -1 and changes nothing. */
  lemma KillAnswers(s: State, pid: nat)
    requires Reachable(s) && MayCall(s)
    ensures var s' := Step(s, ForThread(DoKillZombie(pid)));
            match Lookup(s, pid)
            case None => s' == s.(ret := -1)
            case Some(t) => if T(s.k, t).status == Zombie then IsBuried(s, s', pid, t) else s' == s.(ret := -1)
  {
    ReachableOk(s);
    if Lookup(s, pid).Some? && T(s.k, Lookup(s, pid).value).status == Zombie { ZombieEnds(s, pid); }
  }

  /** The zombie has stopped and its PID is free; nothing else changes. */
  ghost predicate IsBuried(s: State, s': State, pid: nat, t: Tid) {
    && s'.ret == 1 && Lookup(s', pid) == None && T(s'.k, t) == T(s.k, t).(status := Stopped)
    && (forall p: nat :: p != pid ==> Lookup(s', p) == Lookup(s, p))
    && (forall u: Tid :: u != t ==> T(s'.k, u) == T(s.k, u)) && forall l :: L(s'.k, l) == L(s.k, l)
  }

  lemma ZombieEnds(s: State, pid: nat)
    requires Inv(s) && Lookup(s, pid).Some? && T(s.k, Lookup(s, pid).value).status == Zombie
    ensures IsBuried(s, KillZombie(s, pid), pid, Lookup(s, pid).value)
  {
    LookupFinds(s, pid);
    BuryOk(s.k, Lookup(s, pid).value);
  }

  // ---------------------------------------------------------------- sched_change_priority

  /** sched_change_priority gives the thread that priority; if it is runnable, and the priority is
      another one, it goes to the tail of that run queue. */
  lemma PriorityChanges(s: State, t: Tid, prio: nat)
    requires Reachable(s) && ThreadEnabled(s, DoChangePriority(t, prio))
    ensures var s' := Step(s, ForThread(DoChangePriority(t, prio)));
            HasPriority(s.k, s'.k, t, prio) && s' == s.(k := s'.k, request := s'.request)
  {
    ReachableOk(s);
    if T(s.k, t).prio != prio { AnotherPriority(s, t, prio); }
  }

  ghost predicate HasPriority(k: Core, k': Core, t: Tid, prio: nat) {
    && T(k', t).prio == prio && T(k', t).status == T(k, t).status && OthersKeep(k, k', t)
    && (OnRunqueue(T(k, t).status) && prio != T(k, t).prio ==>
          && L(k', Rq(prio)) == L(k, Rq(prio)) + [t]
          && L(k, Rq(T(k, t).prio)) == [t] + L(k', Rq(T(k, t).prio)))
  }

  lemma AnotherPriority(s: State, t: Tid, prio: nat)
    requires Links(s.k) && MayChangePriority(s.k, t) && T(s.k, t).prio != prio
    ensures var s' := ChangePriority(s, t, prio);
            HasPriority(s.k, s'.k, t, prio) && s' == s.(k := s'.k, request := s'.request)
  {
    var s1 := s.(k := Reprioritize(s.k, t, prio));
    GetsPriority(s.k, t, prio);
    ThenKeeps(s1, CheckPriority(t, prio));
    KeepsPriority(s.k, s1.k, Then(s1, CheckPriority(t, prio)).k, t, prio);
  }

  lemma KeepsPriority(k: Core, k1: Core, k2: Core, t: Tid, prio: nat)
    requires HasPriority(k, k1, t, prio) && (forall l {:trigger L(k2, l)} :: L(k2, l) == L(k1, l))
    requires forall u: Tid {:trigger T(k2, u)} :: Keeps(T(k1, u), T(k2, u))
    ensures HasPriority(k, k2, t, prio)
  {
  }

  lemma GetsPriority(k: Core, t: Tid, prio: nat)
    requires Links(k) && MayChangePriority(k, t) && prio != T(k, t).prio
    ensures HasPriority(k, Reprioritize(k, t, prio), t, prio)
  {
    ReprioritizeEffect(k, t, prio);
    if OnRunqueue(T(k, t).status) { GoesToTail(k, t, prio); }
  }

  lemma GoesToTail(k: Core, t: Tid, prio: nat)
    requires Links(k) && MayChangePriority(k, t) && OnRunqueue(T(k, t).status) && prio != T(k, t).prio
    ensures var k' := Reprioritize(k, t, prio);
            L(k', Rq(prio)) == L(k, Rq(prio)) + [t] && L(k, Rq(T(k, t).prio)) == [t] + L(k', Rq(T(k, t).prio))
  {
    assert StatusFits(T(k, t));
    ReprioritizeLists(k, t, prio);
  }

  // ---------------------------------------------------------------- a thread about itself

  /** thread_sleep and thread_zombify take the caller off its run queue, with that status, and make
      it give up the processor. */
  lemma CallerRetires(s: State, zombie: bool)
    requires Reachable(s) && Calling(s)
    ensures var s' := Step(s, ForOwn(if zombie then DoZombify else DoSleep)); var a := s.active.value;
            && T(s'.k, a).status == (if zombie then Zombie else Sleeping) && T(s'.k, a).todo == [Yield]
            && L(s.k, Rq(T(s.k, a).prio)) == [a] + L(s'.k, Rq(T(s.k, a).prio)) && OthersKeep(s.k, s'.k, a)
            && s' == s.(k := s'.k)
  {
    ReachableOk(s);
    CallerIsSettled(s);
    RetireTakesOff(s, s.active.value, if zombie then Zombie else Sleeping);
  }

  lemma RetireTakesOff(s: State, a: Tid, status: Status)
    requires MayBlock(s.k, a) && !OnRunqueue(status) && s.active == Some(a) && !s.isr
    ensures var s' := Retire(s, a, status);
            && T(s'.k, a).status == status && T(s'.k, a).todo == [Yield] && s' == s.(k := s'.k)
            && L(s.k, Rq(T(s.k, a).prio)) == [a] + L(s'.k, Rq(T(s.k, a).prio)) && OthersKeep(s.k, s'.k, a)
  {
    BlockEffect(s.k, a, status);
    assert L(SetStatus(s.k, a, status), Rq(T(s.k, a).prio)) == L(s.k, Rq(T(s.k, a).prio))[1..];
    assert [Yield] + [] == [Yield];
  }

  /** thread_yield puts the caller behind the others of its priority. */
  lemma CallerYields(s: State)
    requires Reachable(s) && Calling(s)
    ensures var s' := Step(s, ForOwn(DoYield)); var a := s.active.value; var l := Rq(T(s.k, a).prio);
            && L(s.k, l) != [] && L(s.k, l)[0] == a && L(s'.k, l) == L(s.k, l)[1..] + [a]
            && (forall l' :: l' != l ==> L(s'.k, l') == L(s.k, l'))
            && T(s'.k, a).status == T(s.k, a).status && T(s'.k, a).todo == [Yield]
  {
    ReachableOk(s);
    CallerIsSettled(s);
    assert [Yield] + [] == [Yield];
  }

  /** A thread that ends is stopped, its PID is free, and it is not active any more. */
  lemma CallerExits(s: State)
    requires Reachable(s) && Calling(s)
    ensures HasEnded(s, Step(s, ForOwn(DoExit)), s.active.value)
  {
    hide HasEnded, TaskExit;
    ReachableOk(s);
    ActivePid(s);
    ExitStops(s, s.active.value);
  }

  ghost predicate HasEnded(s: State, s': State, a: Tid) {
    && T(s'.k, a).status == Stopped && s'.active != Some(a) && Lookup(s', s.activePid) == None
    && (forall p: nat :: p != s.activePid ==> Lookup(s', p) == Lookup(s, p))
    && L(s.k, Rq(T(s.k, a).prio)) == [a] + L(s'.k, Rq(T(s.k, a).prio))
  }

  lemma ExitStops(s: State, a: Tid)
    requires Inv(s) && Calling(s) && s.active == Some(a) && s.activePid < |s.pids|
    ensures HasEnded(s, TaskExit(s, a), a)
  {
    CallerIsSettled(s);
    var s1 := s.(pids := s.pids[s.activePid := None], k := SetStatus(s.k, a, Stopped), active := None);
    ExitedOk(s, s1, a);
    LeavesItsQueue(s.k, a, Stopped);
    SwitchLeavesOut(s1, a);
  }

  lemma LeavesItsQueue(k: Core, a: Tid, status: Status)
    requires IsHead(k, a) && !OnRunqueue(status)
    ensures T(SetStatus(k, a, status), a).status == status
    ensures L(k, Rq(T(k, a).prio)) == [a] + L(SetStatus(k, a, status), Rq(T(k, a).prio))
  {
    BlockEffect(k, a, status);
    assert L(SetStatus(k, a, status), Rq(T(k, a).prio)) == L(k, Rq(T(k, a).prio))[1..];
  }

  /** A stopped thread is not chosen. */
  lemma SwitchLeavesOut(s1: State, a: Tid)
    requires Links(s1.k) && T(s1.k, a).status == Stopped && s1.active == None
    ensures var s' := SchedRun(s1);
            && T(s'.k, a).status == Stopped && s'.active != Some(a) && s'.pids == s1.pids
            && forall l :: L(s'.k, l) == L(s1.k, l)
  {
    SchedRunRemarks(s1);
    SchedRunPicks(s1);
    SchedRunFrame(s1);
    assert StaysRunnable(T(s1.k, a), T(SchedRun(s1).k, a));
  }

  // ---------------------------------------------------------------- the calls that unlock

  /** The mutex is free, or its first waiter has it and is runnable; unlocking a mutex that is not
      locked does nothing.  Other threads keep their records, but for the one that is left out. */
  ghost predicate HasUnlocked(s: State, s': State, m: nat, but: Option<Tid>) {
    var q := L(s.k, MutexQ(m));
    if m !in s.locked then
      && s'.locked == s.locked && s'.grants == s.grants && s'.releases == s.releases
      && forall u: Tid {:trigger T(s'.k, u)} :: Some(u) != but ==> Keeps(T(s.k, u), T(s'.k, u))
    else if q == [] then
      && s'.locked == s.locked - {m} && s'.grants == s.grants && Count(s'.releases, m) == Count(s.releases, m) + 1
      && forall u: Tid {:trigger T(s'.k, u)} :: Some(u) != but ==> Keeps(T(s.k, u), T(s'.k, u))
    else
      && s'.locked == s.locked && L(s'.k, MutexQ(m)) == q[1..] && Some(q[0]) != but
      && Count(s'.grants, m) == Count(s.grants, m) + 1 && Count(s'.releases, m) == Count(s.releases, m) + 1
      && OnRunqueue(T(s'.k, q[0]).status) && T(s'.k, q[0]).lock == Some(m)
      && forall u: Tid {:trigger T(s'.k, u)} :: u != q[0] && Some(u) != but ==> Keeps(T(s.k, u), T(s'.k, u))
  }

  /** mutex_unlock, mutex_unlock_and_sleep and cond_wait unlock the mutex alike. */
  lemma UnlocksAlike(s: State, m: nat, c: nat)
    requires Reachable(s)
    ensures MayCall(s) ==> HasUnlocked(s, Step(s, ForWaking(DoUnlock(m))), m, None)
    ensures Calling(s) ==>
              && HasUnlocked(s, Step(s, ForLock(DoUnlockAndSleep(m))), m, s.active)
              && HasUnlocked(s, Step(s, ForLock(DoCondWait(c, m))), m, s.active)
  {
    hide HasUnlocked, Unlock, UnlockAndSleep, CondWait;
    ReachableOk(s);
    if MayCall(s) { UnlockUnlocks(s, m); }
    if Calling(s) {
      SleepUnlocks(s, s.active.value, m);
      CondWaitUnlocks(s, s.active.value, c, m);
    }
  }

  lemma CoreUnlocks(s: State, m: nat)
    requires Links(s.k)
    ensures HasUnlocked(s, UnlockCore(s, m), m, None)
  {
    if m in s.locked && L(s.k, MutexQ(m)) != [] {
      HandEffect(s.k, m);
      WakeHeadRest(s.k, MutexQ(m));
      assert UnlockCore(s, m).k == HandMutex(s.k, m);
    }
  }

  /** After the unlocking, the caller's own record may change, and wait lists of mutexes do not. */
  lemma UnlockedStays(s: State, s1: State, s2: State, m: nat, but: Option<Tid>)
    requires HasUnlocked(s, s1, m, None)
    requires s2.locked == s1.locked && s2.grants == s1.grants && s2.releases == s1.releases
    requires L(s2.k, MutexQ(m)) == L(s1.k, MutexQ(m))
    requires forall u: Tid {:trigger T(s2.k, u)} :: Some(u) != but ==> Keeps(T(s1.k, u), T(s2.k, u))
    requires m in s.locked && L(s.k, MutexQ(m)) != [] ==> Some(L(s.k, MutexQ(m))[0]) != but
    ensures HasUnlocked(s, s2, m, but)
  {
  }

  lemma UnlockUnlocks(s: State, m: nat)
    requires Links(s.k)
    ensures HasUnlocked(s, Unlock(s, m), m, None)
  {
    CoreUnlocks(s, m);
    if Heir(s, m).Some? {
      var act := Switch(T(s.k, Heir(s, m).value).prio);
      ThenKeeps(UnlockCore(s, m), act);
      UnlockedStays(s, UnlockCore(s, m), Then(UnlockCore(s, m), act), m, None);
    }
  }

  lemma CallerWaitsForNone(s: State, m: nat)
    requires Inv(s) && Calling(s)
    ensures L(s.k, MutexQ(m)) != [] ==> Some(L(s.k, MutexQ(m))[0]) != s.active
  {
    CallerIsSettled(s);
    if L(s.k, MutexQ(m)) != [] { HandEffect(s.k, m); }
  }

  lemma SleepUnlocks(s: State, a: Tid, m: nat)
    requires Inv(s) && Calling(s) && s.active == Some(a)
    ensures HasUnlocked(s, UnlockAndSleep(s, a, m), m, Some(a))
  {
    var s1 := UnlockCore(s, m);
    CoreUnlocks(s, m);
    UnlockerMayBlock(s, m, a);
    CallerWaitsForNone(s, m);
    RetireTakesOff(s1, a, Sleeping);
    RetireWaitLists(s1, a, MutexQ(m));
    UnlockedStays(s, s1, Retire(s1, a, Sleeping), m, Some(a));
  }

  lemma RetireWaitLists(s: State, a: Tid, l: ListId)
    requires !l.Rq?
    ensures L(Retire(s, a, Sleeping).k, l) == L(s.k, l)
  {
    ThenKeeps(s.(k := SetStatus(s.k, a, Sleeping)), Yield);
  }

  lemma CondWaitUnlocks(s: State, a: Tid, c: nat, m: nat)
    requires Inv(s) && Calling(s) && s.active == Some(a)
    ensures HasUnlocked(s, CondWait(s, a, c, m), m, Some(a))
  {
    CoreUnlocks(s, m);
    UnlockerMayBlock(s, m, a);
    CallerWaitsForNone(s, m);
    WaitFrame(s, a, c, m);
    UnlockedStays(s, UnlockCore(s, m), CondWait(s, a, c, m), m, Some(a));
  }

  lemma WaitFrame(s: State, a: Tid, c: nat, m: nat)
    requires MayBlock(UnlockCore(s, m).k, a)
    ensures var s1, s2 := UnlockCore(s, m), CondWait(s, a, c, m);
            && s2.locked == s1.locked && s2.grants == s1.grants && s2.releases == s1.releases
            && L(s2.k, MutexQ(m)) == L(s1.k, MutexQ(m))
            && forall u: Tid {:trigger T(s2.k, u)} :: u != a ==> Keeps(T(s1.k, u), T(s2.k, u))
  {
    EnlistEffect(UnlockCore(s, m).k, a, CondBlocked, CondQ(c));
  }

  /** mutex_unlock_and_sleep leaves the caller asleep and off its run queue. */
  lemma UnlockerSleeps(s: State, m: nat)
    requires Reachable(s) && Calling(s)
    ensures var s' := Step(s, ForLock(DoUnlockAndSleep(m))); var a := s.active.value;
            && T(s'.k, a).status == Sleeping && T(s'.k, a).todo == [Yield] && forall l :: a !in L(s'.k, l)
  {
    hide Inv, UnlockAndSleep;
    ReachableOk(s);
    SleepsAfterUnlock(s, s.active.value, m);
    StepKeeps(s, ForLock(DoUnlockAndSleep(m)));
    OffAllLists(Step(s, ForLock(DoUnlockAndSleep(m))), s.active.value);
  }

  lemma SleepsAfterUnlock(s: State, a: Tid, m: nat)
    requires Inv(s) && Calling(s) && s.active == Some(a)
    ensures var y := T(UnlockAndSleep(s, a, m).k, a); y.status == Sleeping && y.todo == [Yield]
  {
    UnlockerMayBlock(s, m, a);
    RetireTakesOff(UnlockCore(s, m), a, Sleeping);
  }

  lemma OffAllLists(s: State, t: Tid)
    requires Inv(s) && T(s.k, t).status == Sleeping
    ensures forall l :: t !in L(s.k, l)
  {
    forall l ensures t !in L(s.k, l) { assert ListOk(s.k, l); }
  }

  // ---------------------------------------------------------------- switches

  /** Threads other than the one that ran and the one that will keep their records; the first gives up
      its mark as running, the second gets it; and no list changes. */
  ghost predicate OnlyMarks(s: State, s': State) {
    && (forall l :: L(s'.k, l) == L(s.k, l))
    && (forall u: Tid {:trigger T(s'.k, u)} :: Some(u) != s.active && Some(u) != s'.active ==> T(s'.k, u) == T(s.k, u))
    && (s.active.Some? && (s'.idle || s'.active != s.active) ==>
          var x := T(s.k, s.active.value);
          T(s'.k, s.active.value) == x.(status := if x.status == Running then Pending else x.status))
    && (s'.active.Some? && !s'.idle ==> T(s'.k, s'.active.value) == T(s.k, s'.active.value).(status := Running))
  }

  lemma SwitchMarks(s: State)
    requires Links(s.k)
    ensures var s' := SchedRun(s); OnlyMarks(s, s') && s'.isr == s.isr && (s'.idle || !s'.request)
  {
    SchedRunRemarks(s);
    SchedRunPicks(s);
  }

  /** A preemption only changes who is marked as running. */
  lemma PreemptionMarks(s: State)
    requires Reachable(s) && CpuEnabled(s, Preempt)
    ensures OnlyMarks(s, Step(s, Cpu(Preempt)))
  {
    ReachableOk(s);
    SwitchMarks(s);
  }

  /** A handler that ends switches exactly if a switch was requested, or the processor was idle and some
      thread is runnable now; otherwise everything stays as it is. */
  lemma HandlerEnds(s: State)
    requires Reachable(s) && CpuEnabled(s, ExitIsr)
    ensures var s' := Step(s, Cpu(ExitIsr));
            if (s.idle && AnyRunnable(s.k)) || (!s.idle && s.request)
            then !s'.isr && OnlyMarks(s, s') && (AnyRunnable(s.k) ==> !s'.idle && !s'.request)
            else s' == s.(isr := false)
  {
    hide OnlyMarks, SchedRun;
    ReachableOk(s);
    NextIfRunnable(s);
    MarksWithoutHandler(s);
  }

  ghost predicate AnyRunnable(k: Core) {
    exists p: nat :: p < LEVELS && L(k, Rq(p)) != []
  }

  lemma MarksWithoutHandler(s: State)
    requires Links(s.k)
    ensures var s' := SchedRun(s.(isr := false)); OnlyMarks(s, s') && !s'.isr && (s'.idle || !s'.request)
  {
    SwitchMarks(s.(isr := false));
  }

  lemma NextIfRunnable(s: State)
    requires Links(s.k)
    ensures Next(s.k).Some? <==> AnyRunnable(s.k)
    ensures SchedRun(s.(isr := false)).idle <==> Next(s.k).None?
  {
    TopFromIs(s.k, 0);
    SchedRunPicks(s.(isr := false));
    if Next(s.k).None? {
      forall p: nat | p < LEVELS ensures L(s.k, Rq(p)) == [] { assert Above(s.k, LEVELS); }
    }
  }

  /** After a wait for a mailbox, thread_yield puts a caller that is runnable again behind the others. */
  lemma WaiterYields(s: State, a: Tid)
    requires Reachable(s) && MayResume(s, a) && T(s.k, a).todo[0] == YieldRoundRobin
    ensures var s' := Step(s, Cpu(Continue)); var l := Rq(T(s.k, a).prio);
            && T(s'.k, a).todo == [Yield] + T(s.k, a).todo[1..] && T(s'.k, a).status == T(s.k, a).status
            && (OnRunqueue(T(s.k, a).status) ==> L(s.k, l) != [] && L(s'.k, l) == L(s.k, l)[1..] + [L(s.k, l)[0]])
            && (!OnRunqueue(T(s.k, a).status) ==> L(s'.k, l) == L(s.k, l))
            && forall l' :: l' != l ==> L(s'.k, l') == L(s.k, l')
  {
    ReachableOk(s);
    assert TcbLinked(s.k, a) && StatusFits(T(s.k, a));
    GoesBehind(s, a);
  }

  lemma GoesBehind(s: State, a: Tid)
    requires T(s.k, a).todo != [] && T(s.k, a).todo[0] == YieldRoundRobin && s.active == Some(a) && !s.isr
    requires a < |s.k.ts|
    ensures var s' := Resume(s, a); var l := Rq(T(s.k, a).prio);
            && T(s'.k, a).todo == [Yield] + T(s.k, a).todo[1..] && T(s'.k, a).status == T(s.k, a).status
            && (OnRunqueue(T(s.k, a).status) && L(s.k, l) != [] ==> L(s'.k, l) == L(s.k, l)[1..] + [L(s.k, l)[0]])
            && (!OnRunqueue(T(s.k, a).status) ==> L(s'.k, l) == L(s.k, l))
            && forall l' :: l' != l ==> L(s'.k, l') == L(s.k, l')
  {
  }
}
