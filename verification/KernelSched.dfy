/** The scheduler: what it picks, and why the switches that the kernel calls ask for suffice. */
module KernelSched {
  import opened KernelTypes
  import opened KernelSpec
  import opened KernelLinks
  import opened KernelInv
  import opened KernelCore
  import opened KernelMessages

  // ---------------------------------------------------------------- more changes of the run queues

  lemma RotateOk(k: Core, p: nat)
    requires CoreOk(k)
    ensures CoreOk(Rotate(k, p)) && SameLives(k, Rotate(k, p))
  {
    var q := L(k, Rq(p));
    if q != [] {
      var t := q[0];
      assert ListOk(k, Rq(p)) && OwnOk(t, T(k, t));
      RotateLinks(k, p);
      var k' := Rotate(k, p);
      assert T(k', t) == T(k, t).(ticket := k.clock);
      OneThread(k, k', t);
    }
  }

  lemma ReprioritizeEffect(k: Core, t: Tid, prio: nat)
    requires Links(k) && MayChangePriority(k, t)
    ensures var k' := Reprioritize(k, t, prio);
            && OnlyThread(k, k', t) && SameSenders(k, k')
            && T(k', t) == T(k, t).(prio := prio, loc := T(k', t).loc, ticket := T(k', t).ticket)
            && (T(k, t).loc == None ==> T(k', t).loc == None)
  {
    assert StatusFits(T(k, t));
  }

  lemma ReprioritizeOk(k: Core, t: Tid, prio: nat)
    requires CoreOk(k) && MayChangePriority(k, t) && prio < LEVELS
    ensures CoreOk(Reprioritize(k, t, prio)) && SameLives(k, Reprioritize(k, t, prio))
  {
    var k' := Reprioritize(k, t, prio);
    assert OwnOk(t, T(k, t)) && StatusFits(T(k, t));
    ReprioritizeLinks(k, t, prio);
    ReprioritizeEffect(k, t, prio);
    OneThread(k, k', t);
  }

  /** A new record at the end, of a thread without messages, adds nothing to look at but itself. */
  lemma AddThreadOk(k: Core, prio: nat, pid: nat)
    requires CoreOk(k) && prio < LEVELS
    ensures CoreOk(AddThread(k, prio, pid))
  {
    var k' := AddThread(k, prio, pid);
    AddThreadLinks(k, prio, pid);
    NoSenders(k, |k.ts|);
    forall u: Tid | u < |k'.ts| ensures OwnOk(u, T(k', u)) && RendezvousOk(k', u) && FlowOk(k', u) {
      assert L(k', Senders(u)) == L(k, Senders(u));
      if u < |k.ts| {
        assert OwnOk(u, T(k, u)) && RendezvousOk(k, u) && FlowOk(k, u) && ListOk(k, Senders(u));
        assert T(k', u) == T(k, u);
        OtherFlow(k, k', u);
      } else {
        assert Accepted(k', u) == [];
      }
    }
  }

  /** Nobody waits for a thread that does not exist: senders look their target up first. */
  lemma NoSenders(k: Core, t: Tid)
    requires CoreOk(k) && t >= |k.ts|
    ensures L(k, Senders(t)) == []
  {
    var q := L(k, Senders(t));
    assert ListOk(k, Senders(t));
    assert q == [] || TcbLinked(k, q[0]);
  }

  // ---------------------------------------------------------------- sched_run

  /** No run queue of a priority above p has a thread. */
  ghost predicate Above(k: Core, p: nat) {
    forall q: nat {:trigger L(k, Rq(q))} :: q < p ==> L(k, Rq(q)) == []
  }

  /** a is what sched_run picks: the first thread of the highest priority that has any. */
  ghost predicate Settled(k: Core, a: Tid) {
    IsHead(k, a) && Above(k, T(k, a).prio)
  }

  lemma TopFromIs(k: Core, p: nat)
    requires Above(k, p)
    ensures match TopFrom(k, p)
            case None => Above(k, LEVELS)
            case Some(r) => r < LEVELS && L(k, Rq(r)) != [] && Above(k, r)
    decreases LEVELS - p
  {
    if p < LEVELS && L(k, Rq(p)) == [] {
      TopFromIs(k, p + 1);
    }
  }

  /** The same thread, runnable before and after. */
  predicate StaysRunnable(x: Tcb, y: Tcb) {
    x == y || (OnRunqueue(x.status) && OnRunqueue(y.status) && y == x.(status := y.status))
  }

  /** Only who is marked as running changes. */
  ghost predicate Remarks(k: Core, k': Core) {
    |k'.ts| == |k.ts| && k'.lists == k.lists && k'.clock == k.clock
    && forall u: Tid {:trigger T(k', u)} :: StaysRunnable(T(k, u), T(k', u))
  }

  lemma RunnableOwn(t: Tid, x: Tcb, y: Tcb)
    requires OwnOk(t, x) && StaysRunnable(x, y)
    ensures OwnOk(t, y)
  {
  }

  lemma RemarksOk(k: Core, k': Core)
    requires CoreOk(k) && Remarks(k, k')
    ensures CoreOk(k') && SameLives(k, k')
  {
    forall l ensures ListOk(k', l) {
      assert ListOk(k, l) && L(k', l) == L(k, l);
      forall i | 0 <= i < |L(k, l)| ensures T(k', L(k, l)[i]).(status := Pending) ==
          T(k, L(k, l)[i]).(status := Pending) {
        assert StaysRunnable(T(k, L(k, l)[i]), T(k', L(k, l)[i]));
      }
    }
    forall u: Tid | u < |k'.ts| ensures TcbLinked(k', u) && StatusFits(T(k', u)) && OwnOk(u, T(k', u)) {
      assert StaysRunnable(T(k, u), T(k', u));
      assert TcbLinked(k, u) && StatusFits(T(k, u)) && OwnOk(u, T(k, u));
      RunnableOwn(u, T(k, u), T(k', u));
    }
    forall t: Tid ensures SameMessages(T(k, t), T(k', t)) { assert StaysRunnable(T(k, t), T(k', t)); }
    QuietKeepsFlow(k, k');
  }

  lemma NextIsSettled(k: Core)
    requires Links(k)
    ensures match Next(k)
            case None => forall t: Tid :: t < |k.ts| ==> !OnRunqueue(T(k, t).status)
            case Some(t) => Settled(k, t)
  {
    TopFromIs(k, 0);
    match TopFrom(k, 0)
    case None =>
      forall t: Tid | t < |k.ts| ensures !OnRunqueue(T(k, t).status) {
        assert TcbLinked(k, t) && StatusFits(T(k, t));
      }
    case Some(p) =>
      var t := L(k, Rq(p))[0];
      assert ListOk(k, Rq(p));
      assert TcbLinked(k, t) && StatusFits(T(k, t));
      ListedIsRunnable(k, p, t);
  }

  lemma ListedIsRunnable(k: Core, p: nat, t: Tid)
    requires Links(k) && t in L(k, Rq(p))
    ensures t < |k.ts| && OnRunqueue(T(k, t).status) && T(k, t).prio == p
  {
    assert ListOk(k, Rq(p));
    assert TcbLinked(k, t) && StatusFits(T(k, t));
  }

  lemma UnscheduleRemarks(k: Core, t: Tid)
    ensures Remarks(k, Unschedule(k, t))
  {
  }

  lemma DispatchRemarks(k: Core, active: Option<Tid>, next: Tid)
    requires next < |k.ts| && OnRunqueue(T(k, next).status)
    ensures Remarks(k, Dispatch(k, active, next)) && T(Dispatch(k, active, next), next).status == Running
  {
    var k1 := SetT(k, next, T(k, next).(status := Running));
    assert Remarks(k, k1);
    if active.Some? && active.value != next {
      UnscheduleRemarks(k1, active.value);
    }
  }

  lemma RemarksKeepSettled(k: Core, k': Core, t: Tid)
    requires Remarks(k, k') && Settled(k, t)
    ensures Settled(k', t)
  {
    assert StaysRunnable(T(k, t), T(k', t));
    forall q: nat ensures L(k', Rq(q)) == L(k, Rq(q)) { }
  }

  lemma SchedRunRemarks(s: State)
    requires Links(s.k)
    ensures Remarks(s.k, SchedRun(s).k)
  {
    NextIsSettled(s.k);
    match Next(s.k)
    case None => if s.active.Some? { UnscheduleRemarks(s.k, s.active.value); }
    case Some(t) => DispatchRemarks(s.k, s.active, t);
  }

  /** A switch leaves the processor to the thread that ought to have it, or to the idle loop. */
  lemma SchedRunPicks(s: State)
    requires Links(s.k)
    ensures var s' := SchedRun(s);
            match Next(s.k)
            case None => s'.idle && s'.active == s.active && s'.activePid == s.activePid
            case Some(t) =>
              !s'.idle && !s'.request && s'.active == Some(t) && s'.activePid == T(s'.k, t).pid
              && T(s'.k, t).status == Running && Settled(s'.k, t)
  {
    NextIsSettled(s.k);
    if Next(s.k).Some? {
      var t := Next(s.k).value;
      DispatchRemarks(s.k, s.active, t);
      RemarksKeepSettled(s.k, Dispatch(s.k, s.active, t), t);
      assert StaysRunnable(T(s.k, t), T(Dispatch(s.k, s.active, t), t));
    }
  }

  lemma SchedRunOk(s: State)
    requires CoreOk(s.k)
    ensures CoreOk(SchedRun(s).k) && SameLives(s.k, SchedRun(s).k)
  {
    SchedRunRemarks(s);
    RemarksOk(s.k, SchedRun(s).k);
  }

  // ---------------------------------------------------------------- what waking does to the scheduler

  /** From the point of view of thread a: threads become runnable, none of them above priority p,
      and nothing else happens to the run queues. */
  ghost predicate Wakes(k: Core, k': Core, p: nat, a: Tid) {
    && |k.ts| <= |k'.ts|
    && (forall q: nat {:trigger L(k', Rq(q))} :: L(k, Rq(q)) <= L(k', Rq(q)) && (q < p ==> L(k', Rq(q)) == L(k, Rq(q))))
    && (forall u: Tid {:trigger T(k', u)} ::
          && (OnRunqueue(T(k, u).status) ==> OnRunqueue(T(k', u).status))
          && (u < |k.ts| ==> T(k', u).prio == T(k, u).prio))
    && T(k', a).todo == T(k, a).todo
    && (Unheard(T(k, a)) ==> Unheard(T(k', a)))
  }

  /** The thread waits for a reply to a request that nobody has received. */
  predicate Unheard(tcb: Tcb) {
    tcb.status == ReplyBlocked && !tcb.answerable
  }

  lemma WakesTrans(k: Core, k1: Core, k2: Core, p: nat, p1: nat, a: Tid)
    requires Wakes(k, k1, p, a) && Wakes(k1, k2, p1, a)
    ensures Wakes(k, k2, if p < p1 then p else p1, a)
  {
    forall q: nat ensures L(k, Rq(q)) <= L(k2, Rq(q)) && (q < p && q < p1 ==> L(k2, Rq(q)) == L(k, Rq(q))) {
      assert L(k, Rq(q)) <= L(k1, Rq(q)) && L(k1, Rq(q)) <= L(k2, Rq(q));
    }
    forall u: Tid ensures (OnRunqueue(T(k, u).status) ==> OnRunqueue(T(k2, u).status))
                       && (u < |k.ts| ==> T(k2, u).prio == T(k, u).prio) {
      assert OnRunqueue(T(k, u).status) ==> OnRunqueue(T(k1, u).status);
    }
  }

  lemma WakesAbove(k: Core, k': Core, p: nat, a: Tid)
    requires a < |k.ts| && Wakes(k, k', p, a) && IsHead(k, a)
    ensures IsHead(k', a)
    ensures forall q: nat :: q <= p && Above(k, q) ==> Above(k', q)
  {
    assert L(k, Rq(T(k, a).prio)) <= L(k', Rq(T(k', a).prio));
  }

  /** One thread becomes runnable. */
  lemma SetStatusWakes(k: Core, t: Tid, status: Status, a: Tid)
    requires t < |k.ts| && OnRunqueue(status) && !OnRunqueue(T(k, t).status) && (t == a ==> !Unheard(T(k, t)))
    ensures Wakes(k, SetStatus(k, t, status), T(k, t).prio, a)
  {
    WakeEffect(k, t, status);
  }

  /** Nothing happens to the run queues at all. */
  ghost predicate SameRun(k: Core, k': Core, a: Tid) {
    && |k'.ts| == |k.ts|
    && (forall q: nat {:trigger L(k', Rq(q))} :: L(k', Rq(q)) == L(k, Rq(q)))
    && (forall u: Tid {:trigger T(k', u)} :: T(k', u).status == T(k, u).status && T(k', u).prio == T(k, u).prio)
    && T(k', a).todo == T(k, a).todo
    && (Unheard(T(k, a)) ==> Unheard(T(k', a)))
  }

  lemma SameRunWakes(k: Core, k': Core, p: nat, a: Tid)
    requires SameRun(k, k', a)
    ensures Wakes(k, k', p, a)
  {
  }

  /** The same, with one thread waking after its record was completed. */
  lemma CompleteWakes(k: Core, k1: Core, t: Tid, status: Status, a: Tid)
    requires SameRun(k, k1, a) && t < |k.ts| && OnRunqueue(status) && !OnRunqueue(T(k, t).status)
    requires t == a ==> !Unheard(T(k1, t))
    ensures Wakes(k, SetStatus(k1, t, status), T(k, t).prio, a)
  {
    assert T(k1, t).status == T(k, t).status && T(k1, t).prio == T(k, t).prio;
    SetStatusWakes(k1, t, status, a);
    SameRunWakes(k, k1, T(k, t).prio, a);
    WakesTrans(k, k1, SetStatus(k1, t, status), T(k, t).prio, T(k, t).prio, a);
  }
}
