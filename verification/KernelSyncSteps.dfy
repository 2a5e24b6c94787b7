/** The steps of mutex.c, cond.c and thread_flags.c keep the invariant. */
module KernelSyncSteps {
  import opened KernelTypes
  import opened KernelSpec
  import opened KernelLinks
  import opened KernelInv
  import opened KernelCore
  import opened KernelMessages
  import opened KernelSched
  import opened KernelState
  import opened KernelSteps
  import opened KernelSteady
  import opened KernelThreadSteps

  // ---------------------------------------------------------------- locking

  lemma GrantCounts(s: State, s': State, m: nat)
    requires MutexesOk(s) && m !in s.locked && s'.locked == s.locked + {m}
    requires s'.grants == s.grants[m := Count(s.grants, m) + 1] && s'.releases == s.releases
    requires SameQueues(s.k, s'.k)
    ensures MutexesOk(s')
  {
    forall i: nat ensures MutexOk(s', i) {
      assert MutexOk(s, i) && L(s'.k, MutexQ(i)) == L(s.k, MutexQ(i));
    }
  }

  /** A thread in no call gets a mutex that is free. */
  lemma EarlyOutKeeps(s: State, s': State, m: nat, a: Tid)
    requires Inv(s) && Calling(s) && s.active == Some(a) && m !in s.locked
    requires s' == Grant(s.(locked := s.locked + {m}), m, a).(ret := s'.ret)
    ensures Inv(s')
  {
    var x := T(s.k, a);
    var y := x.(lock := Some(m));
    CallerIsSettled(s);
    assert OwnOk(a, x);
    RecordOk(s.k, a, y);
    RecordSteady(s.k, a, y);
    assert s'.k == SetT(s.k, a, y);
    LivesKeepPids(s, s');
    GrantCounts(s, s', m);
    SteadyKeepsCancels(s, s');
    SteadyKeepsMboxes(s, s');
    SteadyKeepsRetries(s, s');
    SteadyKeepsSerials(s.k, s'.k);
    SameRunWakes(s.k, s'.k, LEVELS, a);
    assert TcbLinked(s.k, a);
    NoSwitchNeeded(s, s', LEVELS);
  }

  lemma MutexBlockEffect(k: Core, a: Tid, m: nat, end: Act)
    requires MayBlock(k, a)
    ensures var k' := Owe(BlockOnMutex(k, a, m), a, [Yield, end]);
            && OnlyThread(k, k', a) && k.clock <= k'.clock
            && T(k', a) == Linked(T(k, a), MutexQ(m), k.clock).(
                 status := MutexBlocked, lock := None, todo := [Yield, end])
            && (forall i: nat {:trigger L(k', MutexQ(i))} :: i != m ==> L(k', MutexQ(i)) == L(k, MutexQ(i)))
            && (forall b: nat {:trigger L(k', Readers(b))} :: L(k', Readers(b)) == L(k, Readers(b)))
  {
    EnlistEffect(k, a, MutexBlocked, MutexQ(m));
    assert [Yield, end] + T(k, a).todo == [Yield, end];
  }

  lemma MutexBlockRest(s: State, s': State, a: Tid, m: nat, end: Act)
    requires RestOk(s) && MayBlock(s.k, a) && SameObjects(s, s') && m in s.locked && !end.RetryPut? && !end.GotMail?
    requires s'.k == Owe(BlockOnMutex(s.k, a, m), a, [Yield, end])
    requires end.CheckCancel? ==>
      end.id in s.cancels && CancelOk(T(s'.k, a), a, s.cancels[end.id])
    ensures RestOk(s')
  {
    MutexBlockEffect(s.k, a, m, end);
    forall i: nat ensures MutexOk(s', i) {
      assert MutexOk(s, i) && (i != m ==> L(s'.k, MutexQ(i)) == L(s.k, MutexQ(i)));
    }
    forall b | b in s'.mboxes ensures MboxOk(s', b) {
      assert MboxOk(s, b) && L(s'.k, Readers(b)) == L(s.k, Readers(b));
    }
    SteadyKeepsSerials(s.k, s'.k);
    SteadyKeepsRetries(s, s');
  }

  lemma MutexBlockKeeps(s: State, s': State, a: Tid, m: nat, end: Act)
    requires Inv(s) && Calling(s) && s.active == Some(a) && m in s.locked
    requires end == Locked(m) || (end.CheckCancel? && end.id in s.cancels &&
      s.cancels[end.id] == Cancel(m, a, false, false))
    requires s' == s.(k := Owe(BlockOnMutex(s.k, a, m), a, [Yield, end]), ret := s'.ret)
    ensures Inv(s')
  {
    CallerIsSettled(s);
    MutexBlockOk(s.k, a, m, end);
    MutexBlockEffect(s.k, a, m, end);
    MutexBlockRest(s, s', a, m, end);
    LivesKeepPids(s, s');
    LivesKeepActive(s, s');
    OwedYieldSuffices(s, s');
  }

  lemma LockKeeps(s: State, a: Tid, m: nat, block: bool)
    requires Inv(s) && Calling(s) && s.active == Some(a)
    ensures Inv(Lock(s, a, m, block))
  {
    if m !in s.locked {
      EarlyOutKeeps(s, Lock(s, a, m, block), m, a);
    } else if !block {
      SameRecords(s, s.(ret := 0));
    } else {
      MutexBlockKeeps(s, Lock(s, a, m, block), a, m, Locked(m));
    }
  }

  lemma LockCancelableKeeps(s: State, a: Tid, id: nat)
    requires Inv(s) && Calling(s) && s.active == Some(a) && id in s.cancels && s.cancels[id].thread == a
    ensures Inv(LockCancelable(s, a, id))
  {
    var c := s.cancels[id];
    if c.cancelled {
      SameRecords(s, s.(ret := ECANCELED));
    } else if c.mutex !in s.locked {
      EarlyOutKeeps(s, LockCancelable(s, a, id), c.mutex, a);
    } else {
      MutexBlockKeeps(s, LockCancelable(s, a, id), a, c.mutex, CheckCancel(id));
    }
  }

  lemma InitCancelKeeps(s: State, a: Tid, id: nat, m: nat)
    requires Inv(s) && Calling(s) && s.active == Some(a) && MayInitCancel(s, id)
    ensures Inv(InitCancel(s, a, id, m))
  {
    var s' := InitCancel(s, a, id, m);
    forall t: Tid | t < |s.k.ts| && T(s.k, t).todo != [] && End(T(s.k, t)).CheckCancel?
      ensures End(T(s.k, t)).id != id
    {
      assert !InCancelable(T(s.k, t), id);
    }
    assert CancelsOk(s');
    SteadyKeepsMutexes(s, s');
    SteadyKeepsMboxes(s, s');
  }

  // ---------------------------------------------------------------- unlocking

  lemma ReleaseCounts(s: State, s': State, m: nat)
    requires MutexesOk(s) && m in s.locked && L(s.k, MutexQ(m)) == [] && s'.locked == s.locked - {m}
    requires s'.grants == s.grants && s'.releases == s.releases[m := Count(s.releases, m) + 1]
    requires SameQueues(s.k, s'.k)
    ensures MutexesOk(s')
  {
    forall i: nat ensures MutexOk(s', i) {
      assert MutexOk(s, i) && L(s'.k, MutexQ(i)) == L(s.k, MutexQ(i));
    }
  }

  lemma HandCounts(s: State, s': State, m: nat)
    requires MutexesOk(s) && m in s.locked && s'.locked == s.locked
    requires s'.grants == s.grants[m := Count(s.grants, m) + 1]
    requires s'.releases == s.releases[m := Count(s.releases, m) + 1]
    requires forall i: nat {:trigger L(s'.k, MutexQ(i))} :: i != m ==> L(s'.k, MutexQ(i)) == L(s.k, MutexQ(i))
    ensures MutexesOk(s')
  {
    forall i: nat ensures MutexOk(s', i) {
      assert MutexOk(s, i) && (i != m ==> L(s'.k, MutexQ(i)) == L(s.k, MutexQ(i)));
    }
  }

  lemma HandEffect(k: Core, m: nat)
    requires Links(k) && L(k, MutexQ(m)) != []
    ensures var t := L(k, MutexQ(m))[0]; var k' := HandMutex(k, m);
            && t < |k.ts| && T(k, t).status == MutexBlocked && T(k, t).loc == Some(MutexQ(m))
            && OnlyThread(k, k', t) && k.clock <= k'.clock
            && T(k', t) == Linked(T(k, t), Rq(T(k, t).prio), k.clock).(status := Pending, lock := Some(m))
            && (forall i: nat {:trigger L(k', MutexQ(i))} :: i != m ==> L(k', MutexQ(i)) == L(k, MutexQ(i)))
            && (forall b: nat {:trigger L(k', Readers(b))} :: L(k', Readers(b)) == L(k, Readers(b)))
  {
    WakeHeadEffect(k, MutexQ(m));
  }

  lemma HandCancels(s: State, s': State, m: nat)
    requires CancelsOk(s) && s'.cancels == s.cancels && Links(s.k) && L(s.k, MutexQ(m)) != []
    requires s'.k == HandMutex(s.k, m)
    ensures CancelsOk(s')
  {
    HandEffect(s.k, m);
    var h := L(s.k, MutexQ(m))[0];
    forall t: Tid | t < |s'.k.ts| && T(s'.k, t).todo != [] && End(T(s'.k, t)).CheckCancel?
      ensures End(T(s'.k, t)).id in s'.cancels && CancelOk(T(s'.k, t), t, s'.cancels[End(T(s'.k, t)).id])
    {
      assert t != h ==> T(s'.k, t) == T(s.k, t);
      assert CancelOk(T(s.k, t), t, s.cancels[End(T(s.k, t)).id]);
    }
  }

  lemma HandWakes(k: Core, m: nat, a: Tid)
    requires Links(k) && L(k, MutexQ(m)) != []
    ensures Wakes(k, HandMutex(k, m), T(k, L(k, MutexQ(m))[0]).prio, a)
  {
    WakeHeadWakes(k, MutexQ(m), a);
    WakeHeadEffect(k, MutexQ(m));
    var k1 := WakeHead(k, MutexQ(m));
    assert SameRun(k1, HandMutex(k, m), a);
    SameRunWakes(k1, HandMutex(k, m), T(k, L(k, MutexQ(m))[0]).prio, a);
    WakesTrans(k, k1, HandMutex(k, m), T(k, L(k, MutexQ(m))[0]).prio, T(k, L(k, MutexQ(m))[0]).prio, a);
  }

  lemma WakeHeadWakes(k: Core, l: ListId, a: Tid)
    requires Links(k) && !l.Rq? && !l.Senders? && L(k, l) != []
    ensures Wakes(k, WakeHead(k, l), T(k, L(k, l)[0]).prio, a)
  {
    var t := L(k, l)[0];
    WakeHeadEffect(k, l);
    assert SameRun(k, RemoveHead(k, l), a);
    CompleteWakes(k, RemoveHead(k, l), t, Pending, a);
  }

  /** What mutex_unlock has done when it enables interrupts again. */
  ghost predicate UnlockedOk(s: State, s1: State, m: nat) {
    && CoreOk(s1.k) && RestOk(s1) && PidsOk(s1) && SameLives(s.k, s1.k) && SameContext(s, s1) && s1.request == s.request
    && s1.pids == s.pids && s1.cancels == s.cancels && s1.mboxes == s.mboxes
    && match Heir(s, m)
       case None => s1.k == s.k
       case Some(t) => s1.k == HandMutex(s.k, m)
  }

  lemma UnlockCoreOk(s: State, m: nat)
    requires Inv(s)
    ensures UnlockedOk(s, UnlockCore(s, m), m)
  {
    var s1 := UnlockCore(s, m);
    if m in s.locked {
      match Heir(s, m)
      case None =>
        ReleaseCounts(s, s1, m);
        assert SameLives(s.k, s1.k) && CancelsOk(s1);
        SteadyKeepsMboxes(s, s1);
      case Some(t) => HandedOver(s, s1, m, t);
    }
  }

  lemma HandedRest(s: State, s1: State, m: nat, t: Tid)
    requires RestOk(s) && Links(s.k) && m in s.locked && Heir(s, m) == Some(t)
    requires s1 == Grant(Release(s.(k := WakeHead(s.k, MutexQ(m))), m), m, t)
    ensures RestOk(s1) && s1.k == HandMutex(s.k, m)
  {
    HandEffect(s.k, m);
    HandCounts(s, s1, m);
    HandCancels(s, s1, m);
    SteadyKeepsSerials(s.k, s1.k);
    SteadyKeepsRetries(s, s1);
    forall b | b in s1.mboxes ensures MboxOk(s1, b) {
      assert MboxOk(s, b) && L(s1.k, Readers(b)) == L(s.k, Readers(b));
    }
  }

  lemma HandedOver(s: State, s1: State, m: nat, t: Tid)
    requires Inv(s) && m in s.locked && Heir(s, m) == Some(t) && s1 == UnlockCore(s, m)
    ensures UnlockedOk(s, s1, m)
  {
    HandedRest(s, s1, m, t);
    HandMutexOk(s.k, m);
    LivesKeepPids(s, s1);
  }

  /** The last part of a call whose first part has kept everything but the promise to switch. */
  lemma FinishThen(s1: State, act: Act)
    requires CoreOk(s1.k) && RestOk(s1) && PidsOk(s1) && ActiveOk(s1) && SchedOk(Then(s1, act)) && Plain(act)
    requires s1.active.Some? && T(s1.k, s1.active.value).status == SendBlocked && !s1.isr ==> act == Yield
    ensures Inv(Then(s1, act))
  {
    ThenOk(s1, act);
    ThenSteady(s1, act);
    LivesKeepPids(s1, Then(s1, act));
    SteadyKeepsRest(s1, Then(s1, act));
  }

  lemma HandOverKeeps(s: State, m: nat, t: Tid)
    requires Inv(s) && MayCall(s) && Heir(s, m) == Some(t)
    ensures Inv(Then(UnlockCore(s, m), Switch(T(s.k, t).prio)))
  {
    var s1 := UnlockCore(s, m);
    var p := T(s.k, t).prio;
    HandedOver(s, s1, m, t);
    LivesKeepActive(s, s1);
    if s.active.Some? { HandWakes(s.k, m, s.active.value); }
    SwitchSuffices(s, s1, p);
    CallerNotSendBlocked(s);
    FinishThen(s1, Switch(p));
  }

  lemma UnlockKeeps(s: State, m: nat)
    requires Inv(s) && MayCall(s)
    ensures Inv(Unlock(s, m))
  {
    match Heir(s, m)
    case None => UnlockCoreOk(s, m);
    case Some(t) => HandOverKeeps(s, m, t);
  }

  /** A caller that unlocks a mutex may still block. */
  lemma UnlockerMayBlock(s: State, m: nat, a: Tid)
    requires Inv(s) && Calling(s) && s.active == Some(a)
    ensures MayBlock(UnlockCore(s, m).k, a) && ActiveOk(UnlockCore(s, m)) && UnlockedOk(s, UnlockCore(s, m), m)
  {
    var s1 := UnlockCore(s, m);
    CallerIsSettled(s);
    UnlockCoreOk(s, m);
    LivesKeepActive(s, s1);
    match Heir(s, m)
    case None =>
    case Some(t) =>
      HandWakes(s.k, m, a);
      WakesAbove(s.k, s1.k, T(s.k, t).prio, a);
  }

  lemma UnlockAndSleepKeeps(s: State, a: Tid, m: nat)
    requires Inv(s) && Calling(s) && s.active == Some(a)
    ensures Inv(UnlockAndSleep(s, a, m))
  {
    var s1 := UnlockCore(s, m);
    UnlockerMayBlock(s, m, a);
    RetireOk(s1.k, a, Sleeping);
    BlockSteady(s1.k, a, Sleeping);
    var s2 := s1.(k := SetStatus(s1.k, a, Sleeping));
    LivesKeepPids(s1, s2);
    SteadyKeepsRest(s1, s2);
    LivesKeepActive(s1, s2);
    YieldSuffices(s, s2);
    FinishThen(s2, Yield);
  }

  // ---------------------------------------------------------------- cond.c

  lemma CondBlockSteady(k: Core, a: Tid, c: nat, m: nat)
    requires MayBlock(k, a)
    ensures var k' := Owe(AddToList(SetStatus(k, a, CondBlocked), CondQ(c), a), a, [Yield, Relock(m)]);
            Steady(k, k') && T(k', a).todo == [Yield, Relock(m)]
  {
    EnlistEffect(k, a, CondBlocked, CondQ(c));
    assert [Yield, Relock(m)] + [] == [Yield, Relock(m)];
    OneThreadSteady(k, Owe(AddToList(SetStatus(k, a, CondBlocked), CondQ(c), a), a, [Yield, Relock(m)]), a);
  }

  lemma CondWaitKeeps(s: State, a: Tid, c: nat, m: nat)
    requires Inv(s) && Calling(s) && s.active == Some(a)
    ensures Inv(CondWait(s, a, c, m))
  {
    var s1 := UnlockCore(s, m);
    var s' := CondWait(s, a, c, m);
    UnlockerMayBlock(s, m, a);
    CondBlockOk(s1.k, a, c, m);
    CondBlockSteady(s1.k, a, c, m);
    LivesKeepPids(s1, s');
    SteadyKeepsRest(s1, s');
    LivesKeepActive(s1, s');
    OwedYieldSuffices(s, s');
  }

  // ---------------------------------------------------------------- mutex_cancel

  /** Only a cancellation structure changes. */
  lemma CancelRecordKeeps(s: State, s': State)
    requires Inv(s) && s' == s.(cancels := s'.cancels) && CancelsOk(s')
    ensures Inv(s')
  {
    SteadyKeepsMutexes(s, s');
    SteadyKeepsMboxes(s, s');
  }

  lemma LateCancelKeeps(s: State, id: nat)
    requires Inv(s) && MayCancel(s, id) && OnRunqueue(T(s.k, s.cancels[id].thread).status)
    ensures Inv(MutexCancel(s, id))
  {
    var s' := MutexCancel(s, id);
    forall u: Tid | u < |s'.k.ts| && T(s'.k, u).todo != [] && End(T(s'.k, u)).CheckCancel?
      ensures End(T(s'.k, u)).id in s'.cancels && CancelOk(T(s'.k, u), u, s'.cancels[End(T(s'.k, u)).id])
    {
      assert CancelOk(T(s.k, u), u, s.cancels[End(T(s.k, u)).id]);
    }
    CancelRecordKeeps(s, s');
  }

  /** A thread that is blocked elsewhere is not in mutex_lock_cancelable. */
  lemma IdleCancelKeeps(s: State, id: nat, s': State)
    requires Inv(s) && MayCancel(s, id) && !OnRunqueue(T(s.k, s.cancels[id].thread).status)
    requires !(s.cancels[id].mutex in s.locked && s.cancels[id].thread in L(s.k, MutexQ(s.cancels[id].mutex)))
    requires s' == s.(cancels := s.cancels[id := s.cancels[id].(cancelled := true)])
    ensures Inv(s')
  {
    forall u: Tid | u < |s.k.ts| && T(s.k, u).todo != [] && End(T(s.k, u)).CheckCancel?
      ensures End(T(s.k, u)).id != id
    {
      assert OwnOk(u, T(s.k, u)) && TcbLinked(s.k, u) && CancelOk(T(s.k, u), u, s.cancels[End(T(s.k, u)).id]);
      assert MutexOk(s, s.cancels[id].mutex);
    }
    assert CancelsOk(s');
    CancelRecordKeeps(s, s');
  }

  lemma CancelEffect(k: Core, m: nat, t: Tid)
    requires Links(k) && t in L(k, MutexQ(m))
    ensures var k' := SetStatus(RemoveFrom(k, MutexQ(m), t), t, Pending);
            && t < |k.ts| && !OnRunqueue(T(k, t).status) && T(k, t).status == MutexBlocked
            && T(k, t).loc == Some(MutexQ(m))
            && OnlyThread(k, k', t) && k.clock <= k'.clock
            && T(k', t) == Linked(T(k, t), Rq(T(k, t).prio), k.clock).(status := Pending)
            && (forall i: nat {:trigger L(k', MutexQ(i))} :: i != m ==> L(k', MutexQ(i)) == L(k, MutexQ(i)))
            && L(k', MutexQ(m)) == Without(L(k, MutexQ(m)), t)
            && (forall b: nat {:trigger L(k', Readers(b))} :: L(k', Readers(b)) == L(k, Readers(b)))
  {
    WaitersBlocked(k, MutexQ(m), t);
    assert StatusFits(T(k, t));
    WakeEffect(RemoveFrom(k, MutexQ(m), t), t, Pending);
  }

  lemma CancelWakes(k: Core, m: nat, t: Tid, a: Tid)
    requires Links(k) && t in L(k, MutexQ(m))
    ensures Wakes(k, SetStatus(RemoveFrom(k, MutexQ(m), t), t, Pending), T(k, t).prio, a)
  {
    WaitersBlocked(k, MutexQ(m), t);
    assert StatusFits(T(k, t));
    assert SameRun(k, RemoveFrom(k, MutexQ(m), t), a);
    CompleteWakes(k, RemoveFrom(k, MutexQ(m), t), t, Pending, a);
  }

  lemma CancelCancels(s: State, s1: State, id: nat)
    requires CancelsOk(s) && Links(s.k) && MayCancel(s, id)
    requires s.cancels[id].thread in L(s.k, MutexQ(s.cancels[id].mutex))
    requires s1.cancels == s.cancels[id := s.cancels[id].(cancelled := true)]
    requires s1.k == SetStatus(RemoveFrom(s.k, MutexQ(s.cancels[id].mutex), s.cancels[id].thread),
        s.cancels[id].thread, Pending)
    ensures CancelsOk(s1)
  {
    var c := s.cancels[id];
    CancelEffect(s.k, c.mutex, c.thread);
    forall u: Tid | u < |s1.k.ts| && T(s1.k, u).todo != [] && End(T(s1.k, u)).CheckCancel?
      ensures End(T(s1.k, u)).id in s1.cancels && CancelOk(T(s1.k, u), u, s1.cancels[End(T(s1.k, u)).id])
    {
      assert u != c.thread ==> T(s1.k, u) == T(s.k, u);
      assert CancelOk(T(s.k, u), u, s.cancels[End(T(s.k, u)).id]);
    }
  }

  lemma CancelRest(s: State, s1: State, id: nat)
    requires RestOk(s) && Links(s.k) && MayCancel(s, id) && s.cancels[id].mutex in s.locked
    requires s.cancels[id].thread in L(s.k, MutexQ(s.cancels[id].mutex))
    requires s1 == s.(cancels := s.cancels[id := s.cancels[id].(cancelled := true)],
                      k := SetStatus(RemoveFrom(s.k, MutexQ(s.cancels[id].mutex), s.cancels[id].thread),
                        s.cancels[id].thread, Pending))
    ensures RestOk(s1)
  {
    var c := s.cancels[id];
    CancelEffect(s.k, c.mutex, c.thread);
    CancelCancels(s, s1, id);
    SteadyKeepsSerials(s.k, s1.k);
    SteadyKeepsRetries(s, s1);
    forall i: nat ensures MutexOk(s1, i) {
      assert MutexOk(s, i) && (i != c.mutex ==> L(s1.k, MutexQ(i)) == L(s.k, MutexQ(i)));
    }
    forall b | b in s1.mboxes ensures MboxOk(s1, b) {
      assert MboxOk(s, b) && L(s1.k, Readers(b)) == L(s.k, Readers(b));
    }
  }

  lemma CancelWaiterKeeps(s: State, s1: State, id: nat)
    requires Inv(s) && MayCall(s) && MayCancel(s, id) && s.cancels[id].mutex in s.locked
    requires s.cancels[id].thread in L(s.k, MutexQ(s.cancels[id].mutex))
    requires s1 == s.(cancels := s.cancels[id := s.cancels[id].(cancelled := true)],
                      k := SetStatus(RemoveFrom(s.k, MutexQ(s.cancels[id].mutex), s.cancels[id].thread),
                        s.cancels[id].thread, Pending))
    ensures Inv(Then(s1, Switch(T(s.k, s.cancels[id].thread).prio)))
  {
    var t, m := s.cancels[id].thread, s.cancels[id].mutex;
    CancelRest(s, s1, id);
    CancelableIsFulfilled(s, id);
    CancelledWaiterOk(s, s1, m, t);
    CallerNotSendBlocked(s);
    FinishThen(s1, Switch(T(s.k, t).prio));
  }

  lemma CancelableIsFulfilled(s: State, id: nat)
    requires Links(s.k) && MayCancel(s, id) && s.cancels[id].thread in L(s.k, MutexQ(s.cancels[id].mutex))
    ensures var x := T(s.k, s.cancels[id].thread); x.todo != [] ==> Fulfilled(x, End(x))
  {
    assert ListOk(s.k, MutexQ(s.cancels[id].mutex));
  }

  lemma CancelledWaiterOk(s: State, s1: State, m: nat, t: Tid)
    requires Inv(s) && MayCall(s) && t in L(s.k, MutexQ(m)) &&
        (T(s.k, t).todo != [] ==> Fulfilled(T(s.k, t), End(T(s.k, t))))
    requires s1 == s.(cancels := s1.cancels, k := SetStatus(RemoveFrom(s.k, MutexQ(m), t), t, Pending))
    ensures CoreOk(s1.k) && PidsOk(s1) && ActiveOk(s1) && SchedOk(Then(s1, Switch(T(s.k, t).prio)))
  {
    WaitersBlocked(s.k, MutexQ(m), t);
    CancelWaiterOk(s.k, m, t);
    LivesKeepPids(s, s1);
    LivesKeepActive(s, s1);
    if s.active.Some? { CancelWakes(s.k, m, t, s.active.value); }
    SwitchSuffices(s, s1, T(s.k, t).prio);
  }

  lemma CancelKeeps(s: State, id: nat)
    requires Inv(s) && MayCall(s) && MayCancel(s, id)
    ensures Inv(MutexCancel(s, id))
  {
    var c := s.cancels[id];
    if OnRunqueue(T(s.k, c.thread).status) {
      LateCancelKeeps(s, id);
    } else if c.mutex in s.locked && c.thread in L(s.k, MutexQ(c.mutex)) {
      CancelWaiterKeeps(s, s.(cancels := s.cancels[id := c.(cancelled := true)],
        k := SetStatus(RemoveFrom(s.k, MutexQ(c.mutex), c.thread), c.thread, Pending)), id);
    } else {
      IdleCancelKeeps(s, id, MutexCancel(s, id));
    }
  }

  // ---------------------------------------------------------------- cond_signal and cond_broadcast

  lemma WakeAllOk(k: Core, l: ListId, n: nat)
    requires CoreOk(k) && l.CondQ?
    ensures CoreOk(WakeAll(k, l, n)) && SameLives(k, WakeAll(k, l, n)) && Steady(k, WakeAll(k, l, n))
    decreases n
  {
    if n > 0 {
      var k1 := WakeHead(k, l);
      WakeHeadOk(k, l);
      WakeHeadSteady(k, l);
      WakeAllOk(k1, l, n - 1);
      LivesTrans(k, k1, WakeAll(k, l, n));
      SteadyTrans(k, k1, WakeAll(k, l, n));
    }
  }

  lemma WakeHeadRest(k: Core, l: ListId)
    requires Links(k) && !l.Rq? && L(k, l) != []
    ensures L(WakeHead(k, l), l) == L(k, l)[1..]
    ensures forall u: Tid {:trigger T(WakeHead(k, l), u)} :: T(WakeHead(k, l), u).prio == T(k, u).prio
  {
    WakeHeadEffect(k, l);
  }

  /** No thread among the first n of a list has a priority above p. */
  ghost predicate NoneAbove(k: Core, l: ListId, n: nat, p: nat) {
    n <= |L(k, l)| && forall i :: 0 <= i < n ==> p <= T(k, L(k, l)[i]).prio
  }

  lemma WakeOne(k: Core, l: ListId, n: nat, p: nat, a: Tid)
    requires CoreOk(k) && l.CondQ? && 0 < n && NoneAbove(k, l, n, p)
    ensures CoreOk(WakeHead(k, l)) && NoneAbove(WakeHead(k, l), l, n - 1, p) && Wakes(k, WakeHead(k, l), p, a)
  {
    var k1 := WakeHead(k, l);
    WakeHeadOk(k, l);
    WakeHeadRest(k, l);
    WakeHeadWakes(k, l, a);
    LowerWakes(k, k1, T(k, L(k, l)[0]).prio, p, a);
    forall i | 0 <= i < n - 1 ensures p <= T(k1, L(k1, l)[i]).prio { assert L(k1, l)[i] == L(k, l)[i + 1]; }
  }

  lemma LowerWakes(k: Core, k': Core, p: nat, p1: nat, a: Tid)
    requires Wakes(k, k', p, a) && p1 <= p
    ensures Wakes(k, k', p1, a)
  {
  }

  lemma WakeAllWakes(k: Core, l: ListId, n: nat, p: nat, a: Tid)
    requires CoreOk(k) && l.CondQ? && NoneAbove(k, l, n, p)
    ensures Wakes(k, WakeAll(k, l, n), p, a)
    decreases n
  {
    if n == 0 {
      SameRunWakes(k, k, p, a);
    } else {
      var k1 := WakeHead(k, l);
      WakeOne(k, l, n, p, a);
      WakeAllWakes(k1, l, n - 1, p, a);
      WakesTrans(k, k1, WakeAll(k1, l, n - 1), p, p, a);
    }
  }

  lemma MinPrioIs(k: Core, q: seq<Tid>, min: nat)
    ensures var r := MinPrio(k, q, min);
            && r <= min && (forall i :: 0 <= i < |q| ==> r <= T(k, q[i]).prio)
            && (r == min || exists i :: 0 <= i < |q| && r == T(k, q[i]).prio)
  {
    if q != [] {
      var next := if T(k, q[0]).prio < min then T(k, q[0]).prio else min;
      MinPrioIs(k, q[1..], next);
      var r := MinPrio(k, q, min);
      forall i | 0 <= i < |q| ensures r <= T(k, q[i]).prio {
        assert i > 0 ==> q[i] == q[1..][i - 1];
      }
      if r != next {
        var i :| 0 <= i < |q[1..]| && r == T(k, q[1..][i]).prio;
        assert r == T(k, q[i + 1]).prio;
      } else if r != min {
        assert r == T(k, q[0]).prio;
      }
    }
  }

  lemma SignalWakesKeeps(s: State, s1: State, c: nat, n: nat, p: nat)
    requires Inv(s) && MayCall(s) && NoneAbove(s.k, CondQ(c), n, p)
    requires s1 == s.(k := WakeAll(s.k, CondQ(c), n))
    ensures Inv(Then(s1, Switch(p)))
  {
    WakeAllOk(s.k, CondQ(c), n);
    if s.active.Some? { WakeAllWakes(s.k, CondQ(c), n, p, s.active.value); }
    WakeKeeps(s, s1, p);
  }

  lemma SignalKeeps(s: State, c: nat, broadcast: bool)
    requires Inv(s) && MayCall(s)
    ensures Inv(Signal(s, c, broadcast))
  {
    var woken := Signalled(s, c, broadcast);
    var min := MinPrio(s.k, woken, LEVELS);
    MinPrioIs(s.k, woken, LEVELS);
    if min <= LEVELS - 1 {
      SignalWakesKeeps(s, s.(k := WakeAll(s.k, CondQ(c), |woken|)), c, |woken|, min);
    } else {
      NobodyWoken(s, woken, c);
    }
  }

  lemma NobodyWoken(s: State, woken: seq<Tid>, c: nat)
    requires Links(s.k) && woken <= L(s.k, CondQ(c)) &&
        (forall i :: 0 <= i < |woken| ==> LEVELS <= T(s.k, woken[i]).prio)
    ensures woken == []
  {
    assert ListOk(s.k, CondQ(c));
    assert woken == [] || TcbLinked(s.k, woken[0]);
  }

  // ---------------------------------------------------------------- thread_flags.c

  lemma RaiseFlagsIs(s: State, t: Tid, mask: Flags)
    ensures RaiseFlags(s, t, mask).k == Raise(s.k, t, mask)
    ensures RaiseFlags(s, t, mask) ==
              s.(k := Raise(s.k, t, mask), request := s.request || FlagsSatisfied(WithFlags(T(s.k, t), mask)))
  {
  }

  lemma FlagsSetKeeps(s: State, t: Tid, mask: Flags)
    requires Inv(s) && MayCall(s) && t < |s.k.ts|
    ensures Inv(FlagsSet(s, t, mask))
  {
    var s1 := RaiseFlags(s, t, mask);
    RaiseFlagsIs(s, t, mask);
    RaiseOk(s.k, t, mask);
    RaiseSteady(s.k, t, mask);
    LivesKeepActive(s, s1);
    if FlagsSatisfied(WithFlags(T(s.k, t), mask)) {
      YieldSuffices(s, s1);
      AssembleThen(s, s1, Yield);
    } else {
      RaisedQuietly(s, s1, t, mask);
      Assemble(s, s1);
    }
  }

  /** Setting flags that wake nobody is no concern of the scheduler. */
  lemma RaisedQuietly(s: State, s1: State, t: Tid, mask: Flags)
    requires Inv(s) && MayCall(s) && t < |s.k.ts| && !FlagsSatisfied(WithFlags(T(s.k, t), mask))
    requires s1 == s.(k := Raise(s.k, t, mask)) && ActiveOk(s1)
    ensures SchedOk(s1)
  {
    if s.active.Some? {
      var a := s.active.value;
      assert SameRun(s.k, s1.k, a);
      SameRunWakes(s.k, s1.k, LEVELS, a);
      assert TcbLinked(s.k, a);
    }
    NoSwitchNeeded(s, s1, LEVELS);
  }

  lemma ClearedOwn(t: Tid, x: Tcb, flags: Flags)
    requires OwnOk(t, x) && x.todo == [] && flags <= x.flags
    requires OnRunqueue(x.status)
    ensures OwnOk(t, x.(flags := flags))
  {
  }

  /** The running thread clears flags. */
  lemma FlagsClearKeeps(s: State, a: Tid, mask: Flags)
    requires Inv(s) && Calling(s) && s.active == Some(a)
    ensures Inv(FlagsClear(s, a, mask))
  {
    var x := T(s.k, a);
    var y := x.(flags := x.flags - mask * x.flags);
    var s' := FlagsClear(s, a, mask);
    CallerIsSettled(s);
    assert OwnOk(a, x);
    ClearedOwn(a, x, y.flags);
    RecordOk(s.k, a, y);
    RecordSteady(s.k, a, y);
    LivesKeepActive(s, s');
    assert SameRun(s.k, s'.k, a);
    SameRunWakes(s.k, s'.k, LEVELS, a);
    assert TcbLinked(s.k, a);
    NoSwitchNeeded(s, s', LEVELS);
    Assemble(s, s');
  }

  lemma FlagsBlockSteady(k: Core, a: Tid, mask: Flags, status: Status, rest: Act)
    requires MayBlock(k, a) && (status == FlagBlockedAny || status == FlagBlockedAll) && !rest.CheckCancel? &&
        !rest.RetryPut?
    ensures var k' := FlagsBlock(k, a, mask, status, rest);
            Steady(k, k') && T(k', a).todo == [Yield, rest]
  {
    BlockEffect(Park(k, a, Mask(mask)), a, status);
    assert [Yield, rest] + [] == [Yield, rest];
    OneThreadSteady(k, FlagsBlock(k, a, mask, status, rest), a);
  }

  lemma FlagsBlockKeeps(s: State, a: Tid, mask: Flags, status: Status, rest: Act)
    requires Inv(s) && Calling(s) && s.active == Some(a)
    requires (status == FlagBlockedAny && T(s.k, a).flags * mask == {} && rest in {ClearAny(mask), ReadOne(mask)})
          || (status == FlagBlockedAll && !(mask <= T(s.k, a).flags) && rest == ClearAll(mask))
    ensures Inv(s.(k := FlagsBlock(s.k, a, mask, status, rest)))
  {
    var s' := s.(k := FlagsBlock(s.k, a, mask, status, rest));
    CallerIsSettled(s);
    FlagsBlockOk(s.k, a, mask, status, rest);
    FlagsBlockSteady(s.k, a, mask, status, rest);
    LivesKeepActive(s, s');
    OwedYieldSuffices(s, s');
    Assemble(s, s');
  }

  /** The running thread leaves a note of what its call has found, with interrupts enabled. */
  lemma NoteKeeps(s: State, a: Tid, rest: Act)
    requires Inv(s) && Calling(s) && s.active == Some(a) && Fulfilled(T(s.k, a), rest)
    requires rest.ClearAny? || rest.ClearAll? || rest.ReadOne? || rest.ClearOne?
    ensures Inv(s.(k := Owe(s.k, a, [rest])))
  {
    var x := T(s.k, a);
    var y := x.(todo := [rest] + x.todo);
    var s' := s.(k := Owe(s.k, a, [rest]));
    CallerIsSettled(s);
    assert OwnOk(a, x) && y.todo == [rest];
    RecordOk(s.k, a, y);
    RecordSteady(s.k, a, y);
    LivesKeepActive(s, s');
    OweKeepsHead(s.k, a, [rest]);
    Assemble(s, s');
  }

  lemma WaitAnyKeeps(s: State, a: Tid, mask: Flags, rest: Act)
    requires Inv(s) && Calling(s) && s.active == Some(a) && rest in {ClearAny(mask), ReadOne(mask)}
    ensures Inv(WaitAny(s, a, mask, rest))
  {
    if T(s.k, a).flags * mask == {} {
      FlagsBlockKeeps(s, a, mask, FlagBlockedAny, rest);
    } else {
      NoteKeeps(s, a, rest);
    }
  }

  lemma WaitAllKeeps(s: State, a: Tid, mask: Flags)
    requires Inv(s) && Calling(s) && s.active == Some(a)
    ensures Inv(WaitAll(s, a, mask))
  {
    if !(mask <= T(s.k, a).flags) {
      FlagsBlockKeeps(s, a, mask, FlagBlockedAll, ClearAll(mask));
    } else {
      NoteKeeps(s, a, ClearAll(mask));
    }
  }

  // ---------------------------------------------------------------- the ends of calls

  /** A call that has come to its last action leaves the thread with nothing else to do. */
  lemma LastActKeeps(s: State, a: Tid)
    requires Inv(s) && MayResume(s, a) && !Detour(T(s.k, a).todo[0])
    ensures Inv(PoppedState(s, a)) && Calling(PoppedState(s, a)) && OnRunqueue(T(s.k, a).status)
    ensures T(s.k, a).todo == [End(T(s.k, a))]
    ensures Fulfilled(T(s.k, a), End(T(s.k, a)))
  {
    assert OwnOk(a, T(s.k, a));
    SettledKeeps(s, a);
  }

  lemma LowestIs(v: Flags, i: nat)
    ensures LowestFrom(v, i) == {} <==> forall b: Bit :: i <= b ==> b !in v
    ensures LowestFrom(v, i) != {} ==>
              exists b: Bit :: LowestFrom(v, i) == {b} && b in v && i <= b && forall c: Bit :: i <= c < b ==> c !in v
    decreases 16 - i
  {
    if i < 16 {
      if i in v {
        assert LowestFrom(v, i) == {i};
      } else {
        LowestIs(v, i + 1);
        if LowestFrom(v, i) != {} {
          var b: Bit :| LowestFrom(v, i + 1) == {b} && b in v && i + 1 <= b &&
            forall c: Bit :: i + 1 <= c < b ==> c !in v;
          forall c: Bit | i <= c < b ensures c !in v { }
        }
      }
    }
  }

  lemma LowestIsSome(v: Flags)
    requires v != {}
    ensures Lowest(v) != {} && Lowest(v) <= v
  {
    LowestIs(v, 0);
    var b: Bit :| b in v;
    var c: Bit :| Lowest(v) == {c} && c in v;
  }

  lemma ResumeEndKeeps(s: State, a: Tid)
    requires Inv(s) && MayResume(s, a) && !Detour(T(s.k, a).todo[0]) && !T(s.k, a).todo[0].RetryPut?
    ensures Inv(Resume(s, a))
  {
    LastActKeeps(s, a);
    var s1 := PoppedState(s, a);
    assert OwnOk(a, T(s.k, a));
    match T(s.k, a).todo[0]
    case Relock(m) => LockKeeps(s1, a, m, true);
    case CheckCancel(id) => SameRecords(s1, Resume(s, a));
    case ClearAny(mask) => FlagsClearKeeps(s1, a, mask);
    case ClearAll(mask) => FlagsClearKeeps(s1, a, mask);
    case ClearOne(bit) => FlagsClearKeeps(s1, a, bit);
    case ReadOne(mask) =>
      LowestIsSome(T(s.k, a).flags * mask);
      NoteKeeps(s1, a, ClearOne(Lowest(T(s.k, a).flags * mask)));
    case _ =>
  }
}
