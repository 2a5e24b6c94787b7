/** The steps of sched.c and thread.c keep the invariant. */
module KernelThreadSteps {
  import opened KernelTypes
  import opened KernelSpec
  import opened KernelLinks
  import opened KernelInv
  import opened KernelCore
  import opened KernelMessages
  import opened KernelSched
  import opened KernelState
  import opened KernelSteps
  import opened KernelSteady

  /** A step that concerns threads and run queues only. */
  lemma Assemble(s: State, s': State)
    requires Inv(s) && CoreOk(s'.k) && SchedOk(s')
    requires s'.pids == s.pids && SameLives(s.k, s'.k) && SameObjects(s, s') && Steady(s.k, s'.k)
    ensures Inv(s')
  {
    LivesKeepPids(s, s');
    SteadyKeepsRest(s, s');
  }

  /** A change of the core, followed by a test for a switch. */
  lemma AssembleThen(s: State, s1: State, act: Act)
    requires Inv(s) && CoreOk(s1.k) && SchedOk(Then(s1, act)) && Plain(act) && ActiveOk(s1)
    requires s1.active.Some? && T(s1.k, s1.active.value).status == SendBlocked && !s1.isr ==> act == Yield
    requires s1.pids == s.pids && SameLives(s.k, s1.k) && SameObjects(s, s1) && Steady(s.k, s1.k)
    ensures Inv(Then(s1, act))
  {
    ThenOk(s1, act);
    ThenSteady(s1, act);
    LivesTrans(s.k, s1.k, Then(s1, act).k);
    SteadyTrans(s.k, s1.k, Then(s1, act).k);
    Assemble(s, Then(s1, act));
  }

  lemma LivesKeepActive(s: State, s': State)
    requires ActiveOk(s) && SameLives(s.k, s'.k) && s'.active == s.active && s'.activePid == s.activePid
    ensures ActiveOk(s')
  {
    assert s.active.Some? ==> SameLife(T(s.k, s.active.value), T(s'.k, s.active.value));
  }

  lemma SameRecords(s: State, s': State)
    requires Inv(s) && s'.k == s.k && s'.pids == s.pids && SameObjects(s, s') && SchedOk(s')
    ensures Inv(s')
  {
    assert Steady(s.k, s.k);
    Assemble(s, s');
  }

  lemma SchedRunFrame(s: State)
    ensures SchedRun(s).pids == s.pids && SameObjects(s, SchedRun(s))
  {
    match Next(s.k)
    case None =>
    case Some(t) =>
  }

  lemma SchedRunKeeps(s: State)
    requires Inv(s)
    ensures Inv(SchedRun(s))
  {
    SchedRunFrame(s);
    SchedRunOk(s);
    SchedRunRemarks(s);
    RemarksSteady(s.k, SchedRun(s).k);
    SchedRunSched(s);
    Assemble(s, SchedRun(s));
  }

  lemma LeaveIsrKeeps(s: State)
    requires Inv(s) && s.isr
    ensures Inv(LeaveIsr(s))
  {
    var s1 := s.(isr := false);
    SchedRunOk(s1);
    SchedRunRemarks(s1);
    RemarksSteady(s.k, SchedRun(s1).k);
    SchedRunSched(s1);
    if s.idle {
      if Next(s.k).Some? { Assemble(s, SchedRun(s1)); } else { SameRecords(s, s1); }
    } else if s.request {
      Assemble(s, SchedRun(s1));
    } else {
      SameRecords(s, s1);
    }
  }

  lemma YieldKeeps(s: State)
    requires Inv(s) && Calling(s)
    ensures Inv(YieldCall(s, s.active.value))
  {
    var a := s.active.value;
    var p := T(s.k, a).prio;
    RotateOk(s.k, p);
    RotateSteady(s.k, p);
    CallerIsSettled(s);
    var s1 := s.(k := Rotate(s.k, p));
    LivesKeepActive(s, s1);
    YieldSuffices(s, s1);
    assert StatusFits(T(s.k, a));
    assert T(s1.k, a).status == T(s.k, a).status;
    AssembleThen(s, s1, Yield);
  }

  lemma RetireKeeps(s: State, status: Status)
    requires Inv(s) && Calling(s) && (status == Sleeping || status == Zombie)
    ensures Inv(Retire(s, s.active.value, status))
  {
    var a := s.active.value;
    CallerIsSettled(s);
    RetireOk(s.k, a, status);
    BlockSteady(s.k, a, status);
    BlockEffect(s.k, a, status);
    var s1 := s.(k := SetStatus(s.k, a, status));
    LivesKeepActive(s, s1);
    YieldSuffices(s, s1);
    AssembleThen(s, s1, Yield);
  }

  /** A thread becomes runnable, and a switch to its priority is asked for. */
  lemma WakeKeeps(s: State, s1: State, p: nat)
    requires Inv(s) && MayCall(s) && SameContext(s, s1) && CoreOk(s1.k)
    requires s1.pids == s.pids && SameLives(s.k, s1.k) && SameObjects(s, s1) && Steady(s.k, s1.k)
    requires s.active.Some? ==> Wakes(s.k, s1.k, p, s.active.value)
    ensures Inv(Then(s1, Switch(p)))
  {
    LivesKeepActive(s, s1);
    SwitchSuffices(s, s1, p);
    CallerNotSendBlocked(s);
    assert s.active.Some? ==>
      (OnRunqueue(T(s.k, s.active.value).status) ==> OnRunqueue(T(s1.k, s.active.value).status));
    AssembleThen(s, s1, Switch(p));
  }

  lemma LookupFinds(s: State, pid: nat)
    requires PidsOk(s) && Lookup(s, pid).Some?
    ensures Lookup(s, pid).value < |s.k.ts| && T(s.k, Lookup(s, pid).value).status != Stopped
    ensures T(s.k, Lookup(s, pid).value).pid == pid
  {
  }

  lemma WakeSleeperKeeps(s: State, s1: State, t: Tid)
    requires Inv(s) && MayCall(s) && t < |s.k.ts| && T(s.k, t).status == Sleeping
    requires s1 == s.(k := SetStatus(s.k, t, Running), ret := 1)
    ensures Inv(Then(s1, Switch(T(s.k, t).prio)))
  {
    WakeSleeperOk(s.k, t);
    WakeSteady(s.k, t, Running);
    if s.active.Some? { SetStatusWakes(s.k, t, Running, s.active.value); }
    WakeKeeps(s, s1, T(s.k, t).prio);
  }

  lemma WakeupKeeps(s: State, pid: nat)
    requires Inv(s) && MayCall(s)
    ensures Inv(Wakeup(s, pid))
  {
    match Lookup(s, pid)
    case None => SameRecords(s, s.(ret := -1));
    case Some(t) =>
      LookupFinds(s, pid);
      if T(s.k, t).status == Sleeping {
        WakeSleeperKeeps(s, s.(k := SetStatus(s.k, t, Running), ret := 1), t);
      } else {
        SameRecords(s, s.(ret := -1));
      }
  }

  lemma CallerNotSendBlocked(s: State)
    requires Inv(s) && MayCall(s)
    ensures s.active.Some? && !s.isr ==> OnRunqueue(T(s.k, s.active.value).status)
  {
    if !s.isr { CallerIsSettled(s); }
  }

  /** A zombie goes: it leaves the table of threads and is stopped. */
  lemma KillZombieKeeps(s: State, pid: nat)
    requires Inv(s) && MayCall(s)
    ensures Inv(KillZombie(s, pid))
  {
    match Lookup(s, pid)
    case None => SameRecords(s, s.(ret := -1));
    case Some(t) =>
      if T(s.k, t).status == Zombie {
        BuryKeeps(s, pid, t);
      } else {
        SameRecords(s, s.(ret := -1));
      }
  }

  lemma BuryOk(k: Core, t: Tid)
    requires CoreOk(k) && t < |k.ts| && T(k, t).status == Zombie
    ensures SetStatus(k, t, Stopped) == SetT(k, t, T(k, t).(status := Stopped))
    ensures CoreOk(SetStatus(k, t, Stopped)) && Steady(k, SetStatus(k, t, Stopped))
  {
    var x := T(k, t);
    var k' := SetT(k, t, x.(status := Stopped));
    assert OwnOk(t, x) && StatusFits(x);
    SetStatusOnly(k, t, Stopped);
    BuriedOwn(t, x);
    OneThread(k, k', t);
    RecordSteady(k, t, x.(status := Stopped));
  }

  lemma BuriedOwn(t: Tid, x: Tcb)
    requires OwnOk(t, x) && x.status == Zombie
    ensures OwnOk(t, x.(status := Stopped)) && CancelSteady(x, x.(status := Stopped))
  {
  }

  lemma BuryKeeps(s: State, pid: nat, t: Tid)
    requires Inv(s) && MayCall(s) && pid < |s.pids| && s.pids[pid] == Some(t) && T(s.k, t).status == Zombie
    ensures Inv(s.(pids := s.pids[pid := None], k := SetStatus(s.k, t, Stopped), ret := 1))
  {
    var s' := s.(pids := s.pids[pid := None], k := SetStatus(s.k, t, Stopped), ret := 1);
    BuryOk(s.k, t);
    BuriedPids(s, s', pid, t);
    SteadyKeepsRest(s, s');
    BurySched(s, s', t);
  }

  lemma BuriedPids(s: State, s': State, pid: nat, t: Tid)
    requires PidsOk(s) && pid < |s.pids| && s.pids[pid] == Some(t)
    requires s'.pids == s.pids[pid := None] && |s'.k.ts| == |s.k.ts|
    requires T(s'.k, t).status == Stopped
    requires forall u: Tid {:trigger T(s'.k, u)} :: u != t ==> SameLife(T(s.k, u), T(s'.k, u))
    ensures PidsOk(s')
  {
  }

  /** The death of a thread that is not runnable does not concern the scheduler. */
  lemma BurySched(s: State, s': State, t: Tid)
    requires Inv(s) && t < |s.k.ts| && T(s.k, t).status == Zombie
    requires s'.k == SetT(s.k, t, T(s.k, t).(status := Stopped)) && SameContext(s, s')
    requires s'.request == s.request
    ensures SchedOk(s')
  {
    assert forall l :: L(s'.k, l) == L(s.k, l);
    if s.active.Some? && !s.idle && !(s.isr && s.request) {
      BuryDebt(s.k, s'.k, s.request, s.active.value, t);
    }
  }

  lemma BuryDebt(k: Core, k': Core, request: bool, a: Tid, t: Tid)
    requires DebtOk(k, request, a) && t < |k.ts| && T(k, t).status == Zombie
    requires k' == SetT(k, t, T(k, t).(status := Stopped))
    ensures DebtOk(k', request, a)
  {
    assert forall l :: L(k', l) == L(k, l);
  }

  // ---------------------------------------------------------------- the end and the start of a thread

  lemma ExitedOk(s: State, s1: State, a: Tid)
    requires Inv(s) && Calling(s) && a == s.active.value
    requires s1 == s.(pids := s.pids[s.activePid := None], k := SetStatus(s.k, a, Stopped), active := None)
    requires s.activePid < |s.pids|
    ensures CoreOk(s1.k) && PidsOk(s1) && RestOk(s1) && ActiveOk(s1)
  {
    CallerIsSettled(s);
    RetireOk(s.k, a, Stopped);
    BlockSteady(s.k, a, Stopped);
    BlockEffect(s.k, a, Stopped);
    BuriedPids(s, s1, s.activePid, a);
    SteadyKeepsRest(s, s1);
  }

  lemma ActivePid(s: State)
    requires Inv(s) && Calling(s)
    ensures s.activePid < |s.pids| && s.pids[s.activePid] == Some(s.active.value)
  {
    CallerIsSettled(s);
  }

  lemma ExitKeeps(s: State)
    requires Inv(s) && Calling(s)
    ensures Inv(TaskExit(s, s.active.value))
  {
    var a := s.active.value;
    ActivePid(s);
    var s1 := s.(pids := s.pids[s.activePid := None], k := SetStatus(s.k, a, Stopped), active := None);
    ExitedOk(s, s1, a);
    SchedRunFrame(s1);
    SchedRunOk(s1);
    SchedRunRemarks(s1);
    RemarksSteady(s1.k, SchedRun(s1).k);
    SchedRunSched(s1);
    LivesKeepPids(s1, SchedRun(s1));
    SteadyKeepsRest(s1, SchedRun(s1));
  }

  lemma FreePidIsFree(pids: seq<Option<Tid>>, i: nat)
    ensures match FreePid(pids, i)
            case None => forall p :: i <= p < |pids| ==> pids[p].Some?
            case Some(r) => i <= r < |pids| && pids[r] == None && forall p :: i <= p < r ==> pids[p].Some?
    decreases |pids| - i
  {
    if i < |pids| && pids[i].Some? { FreePidIsFree(pids, i + 1); }
  }

  /** The core after a thread was created. */
  function Born(k: Core, prio: nat, pid: nat, sleeping: bool): Core {
    SetStatus(AddThread(k, prio, pid), |k.ts|, if sleeping then Sleeping else Pending)
  }

  lemma BornEffect(k: Core, prio: nat, pid: nat, sleeping: bool)
    ensures var k' := Born(k, prio, pid, sleeping);
            && |k'.ts| == |k.ts| + 1 && k.clock <= k'.clock && SameQueues(k, k')
            && (forall u: Tid {:trigger T(k', u)} :: u < |k.ts| ==> T(k', u) == T(k, u))
            && T(k', |k.ts|).pid == pid && T(k', |k.ts|).status != Stopped
            && T(k', |k.ts|).todo == [] && T(k', |k.ts|).sent == []
  {
    var k1 := AddThread(k, prio, pid);
    assert forall l :: L(k1, l) == L(k, l);
    assert forall u: Tid :: u < |k.ts| ==> T(k1, u) == T(k, u);
  }

  lemma BornOk(k: Core, prio: nat, pid: nat, sleeping: bool)
    requires CoreOk(k) && prio < LEVELS
    ensures CoreOk(Born(k, prio, pid, sleeping))
  {
    var k1 := AddThread(k, prio, pid);
    var t := |k.ts|;
    AddThreadOk(k, prio, pid);
    var x := T(k1, t);
    assert OwnOk(t, x) && StatusFits(x) && x.todo == [];
    if sleeping {
      SetStatusOnly(k1, t, Sleeping);
      OneThread(k1, SetT(k1, t, x.(status := Sleeping)), t);
    } else {
      CompleteAndWake(k1, k1, t, Pending);
    }
  }

  lemma BornWakes(k: Core, prio: nat, pid: nat, sleeping: bool, a: Tid)
    requires a < |k.ts|
    ensures Wakes(k, Born(k, prio, pid, sleeping), prio, a)
  {
    var k1 := AddThread(k, prio, pid);
    assert forall l :: L(k1, l) == L(k, l);
    assert forall u: Tid :: u < |k.ts| ==> T(k1, u) == T(k, u);
    assert T(k1, |k.ts|).prio == prio;
    assert Wakes(k, k1, prio, a);
    if sleeping {
      assert SameRun(k1, SetT(k1, |k.ts|, T(k1, |k.ts|)), a);
    } else {
      SetStatusWakes(k1, |k.ts|, Pending, a);
      WakesTrans(k, k1, Born(k, prio, pid, sleeping), prio, prio, a);
    }
  }

  lemma BornRest(s: State, s1: State, prio: nat, pid: nat, sleeping: bool)
    requires PidsOk(s) && RestOk(s) && SameObjects(s, s1)
    requires 1 <= pid < |s.pids| && s.pids[pid] == None
    requires s1.k == Born(s.k, prio, pid, sleeping) && s1.pids == s.pids[pid := Some(|s.k.ts|)]
    ensures PidsOk(s1) && RestOk(s1)
  {
    BornEffect(s.k, prio, pid, sleeping);
    SteadyKeepsMutexes(s, s1);
    SteadyKeepsMboxes(s, s1);
    forall t: Tid | t < |s1.k.ts| ensures t < |s.k.ts| ==> T(s1.k, t) == T(s.k, t) { }
  }

  lemma CreateKeeps(s: State, prio: nat, sleeping: bool)
    requires Inv(s) && MayCall(s)
    ensures Inv(Create(s, prio, sleeping))
  {
    if prio >= LEVELS {
      SameRecords(s, s.(ret := EINVAL));
    } else {
      FreePidIsFree(s.pids, 1);
      match FreePid(s.pids, 1)
      case None => SameRecords(s, s.(ret := EOVERFLOW));
      case Some(pid) =>
        var s1 := s.(pids := s.pids[pid := Some(|s.k.ts|)], ret := pid, k := Born(s.k, prio, pid, sleeping));
        BornKeeps(s, s1, prio, pid, sleeping);
    }
  }

  lemma BornKeeps(s: State, s1: State, prio: nat, pid: nat, sleeping: bool)
    requires Inv(s) && MayCall(s) && prio < LEVELS && 1 <= pid < |s.pids| && s.pids[pid] == None
    requires s1 == s.(pids := s.pids[pid := Some(|s.k.ts|)], ret := pid, k := Born(s.k, prio, pid, sleeping))
    ensures if sleeping then Inv(s1) else Inv(Then(s1, Switch(prio)))
  {
    BornOk(s.k, prio, pid, sleeping);
    BornRest(s, s1, prio, pid, sleeping);
    BornEffect(s.k, prio, pid, sleeping);
    if s.active.Some? { BornWakes(s.k, prio, pid, sleeping, s.active.value); }
    CallerNotSendBlocked(s);
    if sleeping {
      SleeperNeedsNoSwitch(s, s1, prio, pid);
    } else {
      SwitchSuffices(s, s1, prio);
      ThenOk(s1, Switch(prio));
      ThenSteady(s1, Switch(prio));
      LivesKeepPids(s1, Then(s1, Switch(prio)));
      SteadyKeepsRest(s1, Then(s1, Switch(prio)));
    }
  }

  lemma SleeperNeedsNoSwitch(s: State, s1: State, prio: nat, pid: nat)
    requires Inv(s) && MayCall(s) && SameContext(s, s1) && s1.k == Born(s.k, prio, pid, true) && s1.request == s.request
    ensures SchedOk(s1)
  {
    var k1 := AddThread(s.k, prio, pid);
    assert forall l :: L(s1.k, l) == L(s.k, l);
    BornEffect(s.k, prio, pid, true);
    if s.active.Some? && !s.idle && !(s.isr && s.request) {
      var a := s.active.value;
      assert Wakes(s.k, s1.k, LEVELS, a);
      assert TcbLinked(s.k, a);
      WakesKeepDebt(s.k, s1.k, s.request, LEVELS, a);
    }
  }

  // ---------------------------------------------------------------- sched_change_priority

  lemma ReprioritizeLists(k: Core, t: Tid, prio: nat)
    requires Links(k) && MayChangePriority(k, t) && T(k, t).prio != prio
    ensures var k' := Reprioritize(k, t, prio);
            forall q: nat {:trigger L(k', Rq(q))} :: L(k', Rq(q)) ==
              if !OnRunqueue(T(k, t).status) then L(k, Rq(q))
              else if q == T(k, t).prio then L(k, Rq(q))[1..]
              else if q == prio then L(k, Rq(q)) + [t]
              else L(k, Rq(q))
  {
    assert StatusFits(T(k, t));
  }

  /** A thread moves to another run queue, not above that of a. */
  lemma ReprioritizeKeepsHead(k: Core, t: Tid, prio: nat, a: Tid)
    requires Links(k) && MayChangePriority(k, t) && T(k, t).prio != prio && t != a && IsHead(k, a)
    ensures var k' := Reprioritize(k, t, prio);
            && IsHead(k', a)
            && forall q: nat :: (OnRunqueue(T(k, t).status) ==> q <= prio) && Above(k, q) ==> Above(k', q)
  {
    ReprioritizeLists(k, t, prio);
    ReprioritizeEffect(k, t, prio);
    assert L(Reprioritize(k, t, prio), Rq(T(k, a).prio)) != [];
  }

  lemma ReprioritizeKeepsDebt(k: Core, t: Tid, prio: nat, request: bool, a: Tid)
    requires Links(k) && MayChangePriority(k, t) && T(k, t).prio != prio && t != a && a < |k.ts|
    requires DebtOk(k, request, a) && (OnRunqueue(T(k, t).status) ==> T(k, a).prio <= prio)
    ensures DebtOk(Reprioritize(k, t, prio), request, a)
  {
    ReprioritizeEffect(k, t, prio);
    if IsHead(k, a) {
      ReprioritizeKeepsHead(k, t, prio, a);
      if T(k, a).todo != [] && T(k, a).todo[0].CheckPriority? {
        var u := T(k, a).todo[0].thread;
        assert T(Reprioritize(k, t, prio), u).status == T(k, u).status;
      }
    }
  }

  /** In an interrupt handler. */
  lemma ChangePriorityInIsr(s: State, s1: State, t: Tid, prio: nat, a: Tid)
    requires Inv(s) && s.isr && s.active == Some(a) && MayChangePriority(s.k, t) && T(s.k, t).prio != prio
    requires s1 == s.(k := Reprioritize(s.k, t, prio)) && ActiveOk(s1)
    requires !s.idle && !s.request && !PriorityMatters(s1, t, prio)
    ensures SchedOk(s1)
  {
    ReprioritizeEffect(s.k, t, prio);
    assert T(s1.k, t).status == T(s.k, t).status && T(s1.k, a) == T(s.k, a);
    ReprioritizeKeepsDebt(s.k, t, prio, s.request, a);
  }

  /** In a thread that changes the priority of another one. */
  lemma ChangePriorityInThread(s: State, s1: State, t: Tid, prio: nat, a: Tid)
    requires Inv(s) && Calling(s) && s.active == Some(a) && MayChangePriority(s.k, t) && T(s.k, t).prio != prio
    requires s1 == s.(k := Reprioritize(s.k, t, prio)) && ActiveOk(s1) && t != a
    ensures SchedOk(Then(s1, CheckPriority(t, prio)))
  {
    CallerIsSettled(s);
    ReprioritizeEffect(s.k, t, prio);
    ReprioritizeKeepsHead(s.k, t, prio, a);
    OweKeepsHead(s1.k, a, [CheckPriority(t, prio)]);
    assert T(s1.k, t).status == T(s.k, t).status;
  }

  lemma ChangePrioritySched(s: State, s1: State, t: Tid, prio: nat)
    requires Inv(s) && MayCall(s) && MayChangePriority(s.k, t) && T(s.k, t).prio != prio
    requires s1 == s.(k := Reprioritize(s.k, t, prio)) && ActiveOk(s1)
    ensures SchedOk(Then(s1, CheckPriority(t, prio)))
  {
    if s.isr {
      PriorityInHandler(s, s1, t, prio);
    } else if s.active.Some? && t != s.active.value {
      ChangePriorityInThread(s, s1, t, prio, s.active.value);
    }
  }

  lemma PriorityInHandler(s: State, s1: State, t: Tid, prio: nat)
    requires Inv(s) && s.isr && MayChangePriority(s.k, t) && T(s.k, t).prio != prio
    requires s1 == s.(k := Reprioritize(s.k, t, prio)) && ActiveOk(s1)
    ensures SchedOk(Then(s1, CheckPriority(t, prio)))
  {
    if s.active.Some? && !s.idle && !s.request && !PriorityMatters(s1, t, prio) {
      ChangePriorityInIsr(s, s1, t, prio, s.active.value);
    }
  }

  lemma ChangePriorityKeeps(s: State, t: Tid, prio: nat)
    requires Inv(s) && MayCall(s) && MayReprioritize(s, t, prio)
    ensures Inv(ChangePriority(s, t, prio))
  {
    if T(s.k, t).prio != prio {
      var s1 := s.(k := Reprioritize(s.k, t, prio));
      ReprioritizeOk(s.k, t, prio);
      ReprioritizeSteady(s.k, t, prio);
      ReprioritizeEffect(s.k, t, prio);
      LivesKeepActive(s, s1);
      ChangePrioritySched(s, s1, t, prio);
      CallerNotSendBlocked(s);
      assert s.active.Some? ==> T(s1.k, s.active.value).status == T(s.k, s.active.value).status;
      AssembleThen(s, s1, CheckPriority(t, prio));
    }
  }

  // ---------------------------------------------------------------- going on with a call

  /** The rest of what a thread still has to do, after its first action. */
  function Popped(k: Core, a: Tid): Core
    requires T(k, a).todo != []
  {
    SetTodo(k, a, T(k, a).todo[1..])
  }

  lemma PoppedOwn(t: Tid, x: Tcb)
    requires OwnOk(t, x) && x.todo != [] && (Detour(x.todo[0]) || OnRunqueue(x.status))
    ensures var y := x.(todo := x.todo[1..]); OwnOk(t, y) && CancelSteady(x, y)
  {
    var y := x.(todo := x.todo[1..]);
    if y.todo != [] { assert End(y) == End(x); }
  }

  lemma PoppedOk(k: Core, a: Tid)
    requires CoreOk(k) && a < |k.ts| && T(k, a).todo != []
    requires Detour(T(k, a).todo[0]) || OnRunqueue(T(k, a).status)
    ensures CoreOk(Popped(k, a)) && SameLives(k, Popped(k, a)) && Steady(k, Popped(k, a))
    ensures forall l :: L(Popped(k, a), l) == L(k, l)
  {
    assert OwnOk(a, T(k, a));
    PoppedOwn(a, T(k, a));
    RecordOk(k, a, T(k, a).(todo := T(k, a).todo[1..]));
    RecordSteady(k, a, T(k, a).(todo := T(k, a).todo[1..]));
  }

  lemma PoppedSettled(k: Core, a: Tid)
    requires T(k, a).todo != [] && Settled(k, a)
    ensures Settled(Popped(k, a), a)
  {
    assert forall l :: L(Popped(k, a), l) == L(k, l);
  }

  /** The state before the action proper. */
  function PoppedState(s: State, a: Tid): State
    requires T(s.k, a).todo != []
  {
    s.(k := Popped(s.k, a))
  }

  /** The active thread is inside a kernel call, with interrupts enabled. */
  predicate MayResume(s: State, a: Tid) {
    !s.isr && !s.idle && s.active == Some(a) && T(s.k, a).todo != []
  }

  lemma SettledKeeps(s: State, a: Tid)
    requires Inv(s) && MayResume(s, a) && Settled(s.k, a)
    ensures Inv(PoppedState(s, a)) && Settled(Popped(s.k, a), a)
  {
    PoppedOk(s.k, a);
    PoppedSettled(s.k, a);
    SettledDebt(Popped(s.k, a), s.request, a);
    Assemble(s, PoppedState(s, a));
  }

  lemma ResumeYieldKeeps(s: State, a: Tid)
    requires Inv(s) && MayResume(s, a) && T(s.k, a).todo[0] == Yield
    ensures Inv(SchedRun(PoppedState(s, a)))
  {
    var s1 := PoppedState(s, a);
    PoppedOk(s.k, a);
    SchedRunFrame(s1);
    SchedRunOk(s1);
    SchedRunRemarks(s1);
    RemarksSteady(s1.k, SchedRun(s1).k);
    SchedRunSched(s1);
    LivesTrans(s.k, s1.k, SchedRun(s1).k);
    SteadyTrans(s.k, s1.k, SchedRun(s1).k);
    Assemble(s, SchedRun(s1));
  }

  lemma ResumeRoundRobinKeeps(s: State, a: Tid)
    requires Inv(s) && MayResume(s, a) && T(s.k, a).todo[0] == YieldRoundRobin
    ensures Inv(YieldCall(PoppedState(s, a), a))
  {
    var s1 := PoppedState(s, a);
    PoppedOk(s.k, a);
    if OnRunqueue(T(s1.k, a).status) {
      var p := T(s1.k, a).prio;
      var s2 := s1.(k := Rotate(s1.k, p));
      RotateOk(s1.k, p);
      RotateSteady(s1.k, p);
      LivesTrans(s.k, s1.k, s2.k);
      SteadyTrans(s.k, s1.k, s2.k);
      LivesKeepActive(s, s2);
      YieldSuffices(s, s2);
      AssembleThen(s, s2, Yield);
    } else {
      YieldSuffices(s, s1);
      AssembleThen(s, s1, Yield);
    }
  }

  lemma OweYieldKeeps(s: State, a: Tid)
    requires Inv(s) && MayResume(s, a) && Detour(T(s.k, a).todo[0])
    ensures Inv(PoppedState(s, a).(k := Owe(Popped(s.k, a), a, [Yield])))
  {
    var s1 := PoppedState(s, a);
    PoppedOk(s.k, a);
    LivesKeepActive(s, s1);
    YieldSuffices(s, s1);
    AssembleThen(s, s1, Yield);
    assert Then(s1, Yield) == s1.(k := Owe(Popped(s.k, a), a, [Yield]));
  }

  /** A test for a switch: if it fails, the thread is where it ought to be. */
  lemma ResumeTestKeeps(s: State, a: Tid)
    requires Inv(s) && MayResume(s, a)
    requires T(s.k, a).todo[0].Switch? || T(s.k, a).todo[0].SwitchIfRequested? || T(s.k, a).todo[0].CheckPriority?
    ensures Inv(Resume(s, a))
  {
    OweYieldKeeps(s, a);
    match T(s.k, a).todo[0]
    case Switch(p) => if !MustSwitch(s, p) { SettledKeeps(s, a); }
    case SwitchIfRequested =>
      if !(T(s.k, a).status == ReplyBlocked || s.request) { SettledKeeps(s, a); }
    case CheckPriority(t, p) => if !PriorityMatters(s, t, p) { SettledKeeps(s, a); }
  }
}
