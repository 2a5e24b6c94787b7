/** The invariant of the processor: what the active thread still owes makes up for every switch
    that has become necessary. */
module KernelState {
  import opened KernelTypes
  import opened KernelSpec
  import opened KernelLinks
  import opened KernelInv
  import opened KernelCore
  import opened KernelMessages
  import opened KernelSched

  /** While thread a has not given up the processor, what it does next is enough. */
  ghost predicate DebtOk(k: Core, request: bool, a: Tid) {
    var tcb := T(k, a);
    if tcb.todo == [] then Settled(k, a)
    else
      match tcb.todo[0]
      case Yield => true
      case YieldRoundRobin => true
      case Switch(p) => IsHead(k, a) && Above(k, if p < tcb.prio then p else tcb.prio)
      case SwitchIfRequested => Unheard(tcb) || (IsHead(k, a) && (request || Settled(k, a)))
      case CheckPriority(t, p) =>
        t == a || (IsHead(k, a) && (Settled(k, a) || (tcb.prio > p && OnRunqueue(T(k, t).status))))
      case _ => Settled(k, a)
  }

  ghost predicate SchedOk(s: State) {
    && (s.active.Some? ==> s.active.value < |s.k.ts| && s.activePid == T(s.k, s.active.value).pid)
    && (s.idle
        || (s.active.Some? && ((s.isr && s.request) || DebtOk(s.k, s.request, s.active.value))))
  }

  /** A thread runs its own code, outside the kernel. */
  predicate Calling(s: State) {
    !s.isr && !s.idle && s.active.Some? && T(s.k, s.active.value).todo == []
  }

  predicate MayCall(s: State) {
    s.isr || Calling(s)
  }

  lemma CallerIsSettled(s: State)
    requires SchedOk(s) && Calling(s)
    ensures Settled(s.k, s.active.value) && MayBlock(s.k, s.active.value)
  {
  }

  /** The same processor, in the middle of a call. */
  predicate SameContext(s: State, s1: State) {
    && s1.isr == s.isr && s1.idle == s.idle && s1.active == s.active && s1.activePid == s.activePid
    && (s.request ==> s1.request)
  }

  ghost predicate ActiveOk(s: State) {
    s.active.Some? ==> s.active.value < |s.k.ts| && s.activePid == T(s.k, s.active.value).pid
  }

  lemma WakesKeepDebt(k: Core, k': Core, request: bool, p: nat, a: Tid)
    requires a < |k.ts| && DebtOk(k, request, a) && Wakes(k, k', p, a)
    requires OnRunqueue(T(k', a).status) ==> T(k', a).prio <= p
    ensures DebtOk(k', request, a)
  {
    if IsHead(k, a) {
      WakesAbove(k, k', p, a);
      assert T(k', a).prio == T(k, a).prio;
      if T(k, a).todo != [] && T(k, a).todo[0].CheckPriority? {
        var t := T(k, a).todo[0].thread;
        assert OnRunqueue(T(k, t).status) ==> OnRunqueue(T(k', t).status);
      }
    }
  }

  /** Waking threads of priority p and below, and then sched_switch(p), is always enough. */
  lemma SwitchSuffices(s: State, s1: State, p: nat)
    requires SchedOk(s) && MayCall(s) && SameContext(s, s1) && ActiveOk(s1)
    requires s.active.Some? ==> Wakes(s.k, s1.k, p, s.active.value)
    ensures SchedOk(Then(s1, Switch(p)))
  {
    if s.active.Some? {
      var a := s.active.value;
      if s.isr {
        if !s.idle && !s.request && !MustSwitch(s1, p) {
          WakesKeepDebt(s.k, s1.k, s.request, p, a);
          DebtWithRequest(s1.k, s1.request, a);
        }
      } else {
        WakesAbove(s.k, s1.k, p, a);
        OweKeepsHead(s1.k, a, [Switch(p)]);
      }
    }
  }

  lemma DebtWithRequest(k: Core, request: bool, a: Tid)
    requires DebtOk(k, false, a)
    ensures DebtOk(k, request, a)
  {
  }

  lemma OweKeepsHead(k: Core, a: Tid, acts: seq<Act>)
    ensures var k' := Owe(k, a, acts); IsHead(k', a) == IsHead(k, a) && (forall q :: Above(k', q) == Above(k, q))
  {
    var k' := Owe(k, a, acts);
    assert forall l :: L(k', l) == L(k, l);
  }

  /** Waking threads of the lowest priority needs no switch. */
  lemma NoSwitchNeeded(s: State, s1: State, p: nat)
    requires SchedOk(s) && MayCall(s) && SameContext(s, s1) && ActiveOk(s1)
    requires s.active.Some? ==> Wakes(s.k, s1.k, p, s.active.value) && T(s1.k, s.active.value).prio <= p
    ensures SchedOk(s1)
  {
    if s.active.Some? && !s.idle && !(s.isr && s.request) {
      WakesKeepDebt(s.k, s1.k, s.request, p, s.active.value);
      if s1.request != s.request { DebtWithRequest(s1.k, s1.request, s.active.value); }
    }
  }

  /** thread_yield_higher is always enough. */
  lemma YieldSuffices(s: State, s1: State)
    requires SchedOk(s) && SameContext(s, s1) && ActiveOk(s1)
    ensures SchedOk(Then(s1, Yield))
  {
  }

  /** So is a thread's own switch. */
  lemma OwedYieldSuffices(s: State, s1: State)
    requires SchedOk(s) && SameContext(s, s1) && ActiveOk(s1) && Calling(s)
    requires T(s1.k, s.active.value).todo != []
    requires T(s1.k, s.active.value).todo[0] == Yield || T(s1.k, s.active.value).todo[0] == YieldRoundRobin
    ensures SchedOk(s1)
  {
  }

  lemma SchedRunSched(s: State)
    requires Links(s.k) && ActiveOk(s)
    ensures SchedOk(SchedRun(s)) && SchedRun(s).isr == s.isr
  {
    SchedRunPicks(s);
    SchedRunRemarks(s);
    var s' := SchedRun(s);
    assert s.active.Some? ==> StaysRunnable(T(s.k, s.active.value), T(s'.k, s.active.value));
    if Next(s.k).Some? { SettledDebt(s'.k, s'.request, s'.active.value); }
  }

  lemma SettledDebt(k: Core, request: bool, a: Tid)
    requires Settled(k, a)
    ensures DebtOk(k, request, a)
  {
  }

  /** What Then adds to a record is no promise. */
  predicate Plain(act: Act) {
    act.Yield? || act.Switch? || act.SwitchIfRequested? || act.CheckPriority?
  }

  lemma OweOk(k: Core, a: Tid, act: Act)
    requires CoreOk(k) && a < |k.ts| && Plain(act)
    requires T(k, a).status == SendBlocked && T(k, a).todo == [] ==> act == Yield
    ensures CoreOk(Owe(k, a, [act])) && SameLives(k, Owe(k, a, [act]))
  {
    var x := T(k, a);
    assert OwnOk(a, x);
    OwesMore(a, x, act);
    RecordOk(k, a, x.(todo := [act] + x.todo));
  }

  lemma OwesMore(t: Tid, x: Tcb, act: Act)
    requires OwnOk(t, x) && Plain(act)
    requires x.status == SendBlocked && x.todo == [] ==> act == Yield
    ensures OwnOk(t, x.(todo := [act] + x.todo))
  {
    var y := x.(todo := [act] + x.todo);
    if x.todo != [] { assert End(y) == End(x); }
  }

  lemma ThenOk(s: State, act: Act)
    requires CoreOk(s.k) && ActiveOk(s) && Plain(act)
    requires s.active.Some? && T(s.k, s.active.value).status == SendBlocked && !s.isr ==> act == Yield
    ensures CoreOk(Then(s, act).k) && SameLives(s.k, Then(s, act).k) && SameContext(s, Then(s, act))
  {
    if !s.isr && s.active.Some? { OweOk(s.k, s.active.value, act); }
  }
}
