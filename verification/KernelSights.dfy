/** Following a run of the kernel by hand: what a step does to the threads and lists in sight. */
module KernelSights {
  import opened KernelTypes
  import opened KernelSpec
  import opened KernelLinks
  import opened KernelInv
  import opened KernelSched
  import opened KernelState
  import opened KernelSteps
  import opened KernelThreadSteps
  import opened KernelInvariant

  /** The kernel with one thread, of priority p, running. */
  function Start(p: nat): State {
    State(Core([NO_TCB.(status := Running, prio := p, pid := 1, loc := Some(Rq(p)))], map[Rq(p) := [0]], 1),
          seq(PID_LAST + 1, i => if i == 1 then Some(0) else None), Some(0), 1, false, false, false, {}, map[], map[],
          0, {}, NO_MSG, map[], map[])
  }

  lemma StartIsInit(p: nat)
    requires p < LEVELS
    ensures Init(Start(p)) && Run(Start(p), [], Start(p))
  {
  }

  // ---------------------------------------------------------------- what a state looks like

  /** What the examples follow of a thread, */
  datatype Seen = Seen(status: Status, prio: nat, todo: seq<Act>, lock: Option<nat>)

  /** and of all threads and lists. */
  datatype Sight = Sight(threads: seq<Seen>, queues: map<ListId, seq<Tid>>)

  function Watched(tcb: Tcb): Seen {
    Seen(tcb.status, tcb.prio, tcb.todo, tcb.lock)
  }

  function Queue(v: Sight, l: ListId): seq<Tid> {
    if l in v.queues then v.queues[l] else []
  }

  ghost predicate Looks(k: Core, v: Sight) {
    && |k.ts| == |v.threads|
    && (forall t: Tid {:trigger T(k, t)} :: t < |v.threads| ==> Watched(T(k, t)) == v.threads[t])
    && (forall l {:trigger L(k, l)} :: L(k, l) == Queue(v, l))
  }

  function WithThread(v: Sight, t: Tid, x: Seen): Sight {
    if t < |v.threads| then v.(threads := v.threads[t := x]) else v
  }

  function WithQueue(v: Sight, l: ListId, q: seq<Tid>): Sight {
    v.(queues := v.queues[l := q])
  }

  lemma SeesRecord(k: Core, v: Sight, t: Tid, y: Tcb)
    requires Looks(k, v) && t < |v.threads|
    ensures Looks(SetT(k, t, y), WithThread(v, t, Watched(y)))
  {
    var v' := WithThread(v, t, Watched(y));
    forall l ensures L(SetT(k, t, y), l) == Queue(v', l) { assert L(k, l) == Queue(v, l); }
  }

  /** The thread leaves the head of its run queue. */
  function Off(v: Sight, t: Tid, status: Status): Sight
    requires t < |v.threads| && Queue(v, Rq(v.threads[t].prio)) != []
  {
    var l := Rq(v.threads[t].prio);
    WithThread(WithQueue(v, l, Queue(v, l)[1..]), t, v.threads[t].(status := status))
  }

  lemma SeesBlock(k: Core, v: Sight, t: Tid, status: Status)
    requires Looks(k, v) && t < |v.threads| && OnRunqueue(v.threads[t].status) && !OnRunqueue(status)
    requires var q := Queue(v, Rq(v.threads[t].prio)); q != [] && q[0] == t
    ensures Looks(SetStatus(k, t, status), Off(v, t, status))
  {
    var k', v' := SetStatus(k, t, status), Off(v, t, status);
    assert Watched(T(k, t)) == v.threads[t] && L(k, Rq(T(k, t).prio)) == Queue(v, Rq(v.threads[t].prio));
    forall u: Tid | u < |v'.threads| ensures Watched(T(k', u)) == v'.threads[u] {
      assert Watched(T(k, u)) == v.threads[u];
    }
    forall l ensures L(k', l) == Queue(v', l) { assert L(k, l) == Queue(v, l); }
  }

  /** The thread joins its run queue. */
  function On(v: Sight, t: Tid, status: Status): Sight
    requires t < |v.threads|
  {
    var l := Rq(v.threads[t].prio);
    WithThread(WithQueue(v, l, Queue(v, l) + [t]), t, v.threads[t].(status := status))
  }

  lemma SeesWake(k: Core, v: Sight, t: Tid, status: Status)
    requires Looks(k, v) && t < |v.threads| && !OnRunqueue(v.threads[t].status) && OnRunqueue(status)
    ensures Looks(SetStatus(k, t, status), On(v, t, status))
  {
    var k', v' := SetStatus(k, t, status), On(v, t, status);
    assert Watched(T(k, t)) == v.threads[t];
    forall u: Tid | u < |v'.threads| ensures Watched(T(k', u)) == v'.threads[u] {
      assert Watched(T(k, u)) == v.threads[u];
    }
    forall l ensures L(k', l) == Queue(v', l) { assert L(k, l) == Queue(v, l); }
  }

  function Owing(v: Sight, t: Tid, acts: seq<Act>): Sight
    requires t < |v.threads|
  {
    WithThread(v, t, v.threads[t].(todo := acts + v.threads[t].todo))
  }

  lemma SeesOwe(k: Core, v: Sight, t: Tid, acts: seq<Act>)
    requires Looks(k, v) && t < |v.threads|
    ensures Looks(Owe(k, t, acts), Owing(v, t, acts))
  {
    assert Watched(T(k, t)) == v.threads[t];
    SeesRecord(k, v, t, T(k, t).(todo := acts + T(k, t).todo));
  }

  /** The thread is the only one to wait on list l. */
  lemma SeesEnlist(k: Core, v: Sight, l: ListId, t: Tid)
    requires Looks(k, v) && t < |v.threads| && Queue(v, l) == []
    ensures Looks(AddToList(k, l, t), WithQueue(v, l, [t]))
  {
    var k', v' := AddToList(k, l, t), WithQueue(v, l, [t]);
    forall u: Tid | u < |v'.threads| ensures Watched(T(k', u)) == v'.threads[u] {
      assert Watched(T(k, u)) == v.threads[u];
    }
    forall o ensures L(k', o) == Queue(v', o) { assert L(k, o) == Queue(v, o); }
    assert Watched(T(k, t)) == v.threads[t];
  }

  lemma SeesUnlist(k: Core, v: Sight, l: ListId)
    requires Looks(k, v) && Queue(v, l) != [] && Queue(v, l)[0] < |v.threads|
    ensures Looks(RemoveHead(k, l), WithQueue(v, l, Queue(v, l)[1..]))
  {
    var k', v' := RemoveHead(k, l), WithQueue(v, l, Queue(v, l)[1..]);
    forall u: Tid | u < |v'.threads| ensures Watched(T(k', u)) == v'.threads[u] {
      assert Watched(T(k, u)) == v.threads[u];
    }
    forall o ensures L(k', o) == Queue(v', o) { assert L(k, o) == Queue(v, o); }
    assert Watched(T(k, Queue(v, l)[0])) == v.threads[Queue(v, l)[0]];
  }

  /** The head of a wait list becomes runnable. */
  lemma SeesWakeHead(k: Core, v: Sight, l: ListId)
    requires Looks(k, v) && Queue(v, l) != [] && Queue(v, l)[0] < |v.threads|
    requires !OnRunqueue(v.threads[Queue(v, l)[0]].status)
    ensures Looks(WakeHead(k, l), On(WithQueue(v, l, Queue(v, l)[1..]), Queue(v, l)[0], Pending))
  {
    SeesUnlist(k, v, l);
    SeesWake(RemoveHead(k, l), WithQueue(v, l, Queue(v, l)[1..]), Queue(v, l)[0], Pending);
  }

  lemma SeesTick(k: Core, v: Sight)
    requires Looks(k, v)
    ensures Looks(Tick(k), v)
  {
    forall t: Tid ensures T(Tick(k), t) == T(k, t) { }
    forall l ensures L(Tick(k), l) == L(k, l) { }
  }

  // ---------------------------------------------------------------- steps that all examples share

  /** Everything but the threads and their lists is as before. */
  predicate SameRest(s: State, s': State) {
    s'.pids == s.pids && s'.mboxes == s.mboxes && s'.cancels == s.cancels && s'.locked == s.locked
  }

  /** Thread a is at work, outside interrupt handlers. */
  predicate AtWork(s: State, a: Tid) {
    !s.isr && !s.idle && s.active == Some(a)
  }

  lemma FindsTop(k: Core, i: nat, p: nat)
    requires i <= p < LEVELS && L(k, Rq(p)) != [] && forall q: nat :: q < p ==> L(k, Rq(q)) == []
    ensures TopFrom(k, i) == Some(p)
    decreases p - i
  {
    if i < p { FindsTop(k, i + 1, p); }
  }

  /** The head of the run queue of priority p is the thread to run. */
  ghost predicate IsTop(v: Sight, p: nat) {
    && p < LEVELS && Queue(v, Rq(p)) != [] && Queue(v, Rq(p))[0] < |v.threads|
    && forall q: nat :: q < p ==> Queue(v, Rq(q)) == []
  }

  /** Thread a makes way for thread n. */
  function Chosen(v: Sight, a: Tid, n: Tid): Sight
    requires n < |v.threads| && a < |v.threads|
  {
    var v1 := WithThread(v, n, v.threads[n].(status := Running));
    if a != n && v.threads[a].status == Running then WithThread(v1, a, v.threads[a].(status := Pending)) else v1
  }

  /** sched_run */
  lemma SeesSwitch(s: State, v: Sight, a: Tid, p: nat)
    requires Looks(s.k, v) && s.active == Some(a) && a < |v.threads| && IsTop(v, p)
    ensures var n := Queue(v, Rq(p))[0]; var s' := SchedRun(s);
            Looks(s'.k, Chosen(v, a, n)) && s'.active == Some(n) && !s'.idle && s'.isr == s.isr && SameRest(s, s')
  {
    var n := Queue(v, Rq(p))[0];
    forall q: nat | q < p ensures L(s.k, Rq(q)) == [] { assert Queue(v, Rq(q)) == []; }
    FindsTop(s.k, 0, p);
    assert L(s.k, Rq(p)) == Queue(v, Rq(p));
    assert Watched(T(s.k, n)) == v.threads[n] && Watched(T(s.k, a)) == v.threads[a];
    SeesRecord(s.k, v, n, T(s.k, n).(status := Running));
    var k1, v1 := SetT(s.k, n, T(s.k, n).(status := Running)), WithThread(v, n, v.threads[n].(status := Running));
    if a != n { SeesRecord(k1, v1, a, T(k1, a).(status := Pending)); }
  }

  function Popped1(v: Sight, a: Tid): Sight
    requires a < |v.threads| && v.threads[a].todo != []
  {
    WithThread(v, a, v.threads[a].(todo := v.threads[a].todo[1..]))
  }

  lemma SeesPopped(s: State, v: Sight, a: Tid)
    requires Looks(s.k, v) && a < |v.threads| && v.threads[a].todo != []
    ensures T(s.k, a).todo == v.threads[a].todo && Looks(PoppedState(s, a).k, Popped1(v, a))
  {
    assert Watched(T(s.k, a)) == v.threads[a];
    SeesRecord(s.k, v, a, T(s.k, a).(todo := T(s.k, a).todo[1..]));
  }

  /** thread_yield_higher */
  lemma SeesYield(s: State, v: Sight, a: Tid, p: nat)
    requires Looks(s.k, v) && AtWork(s, a) && a < |v.threads| && v.threads[a].todo != [] &&
        v.threads[a].todo[0] == Yield
    requires IsTop(v, p)
    ensures Enabled(s, Cpu(Continue))
    ensures var n := Queue(v, Rq(p))[0]; var s' := Step(s, Cpu(Continue));
            Looks(s'.k, Chosen(Popped1(v, a), a, n)) && AtWork(s', n) && SameRest(s, s')
  {
    SeesPopped(s, v, a);
    var v1 := Popped1(v, a);
    forall q: nat ensures Queue(v1, Rq(q)) == Queue(v, Rq(q)) { }
    SeesSwitch(PoppedState(s, a), v1, a, p);
  }

  /** The test of sched_switch finds no reason to switch. */
  lemma SeesNoSwitch(s: State, v: Sight, a: Tid)
    requires Looks(s.k, v) && AtWork(s, a) && a < |v.threads| && v.threads[a].todo != [] && v.threads[a].todo[0].Switch?
    requires OnRunqueue(v.threads[a].status) && v.threads[a].prio <= v.threads[a].todo[0].prio
    ensures Enabled(s, Cpu(Continue))
    ensures var s' := Step(s, Cpu(Continue)); Looks(s'.k, Popped1(v, a)) && AtWork(s', a) && SameRest(s, s')
  {
    SeesPopped(s, v, a);
    assert Watched(T(s.k, a)) == v.threads[a];
    assert Step(s, Cpu(Continue)) == PoppedState(s, a);
  }

  /** A handler interrupts thread a, which is blocked, wakes a sleeping thread t of the highest
      priority p, and ends. */
  lemma SeesWakeup(s: State, v: Sight, a: Tid, t: Tid, pid: nat)
    requires Looks(s.k, v) && AtWork(s, a) && a < |v.threads| && !OnRunqueue(v.threads[a].status)
    requires a != t && t < |v.threads| && v.threads[t].status == Sleeping && Lookup(s, pid) == Some(t) &&
        IsTop(On(v, t, Running), v.threads[t].prio)
    requires Queue(v, Rq(v.threads[t].prio)) == []
    ensures var s1 := s.(isr := true); var s2 := Wakeup(s1, pid); var s3 := LeaveIsr(s2);
            && Enabled(s, Cpu(EnterIsr)) && Step(s, Cpu(EnterIsr)) == s1
            && Enabled(s1, ForThread(DoWakeup(pid))) && Step(s1, ForThread(DoWakeup(pid))) == s2
            && Enabled(s2, Cpu(ExitIsr)) && Step(s2, Cpu(ExitIsr)) == s3
            && Looks(s3.k, Chosen(On(v, t, Running), a, t)) && AtWork(s3, t) && SameRest(s, s3)
  {
    var s1 := s.(isr := true);
    var s2 := Wakeup(s1, pid);
    assert Watched(T(s.k, t)) == v.threads[t] && Watched(T(s.k, a)) == v.threads[a];
    SeesWake(s.k, v, t, Running);
    assert T(SetStatus(s.k, t, Running), a).status == T(s.k, a).status;
    assert s2 == s1.(k := SetStatus(s.k, t, Running), ret := 1, request := true);
    SeesSwitch(s2.(isr := false), On(v, t, Running), a, v.threads[t].prio);
  }

  /** thread_sleep */
  lemma SeesSleep(s: State, v: Sight, a: Tid)
    requires Looks(s.k, v) && AtWork(s, a) && a < |v.threads| && v.threads[a].todo == [] &&
        OnRunqueue(v.threads[a].status)
    requires var q := Queue(v, Rq(v.threads[a].prio)); q != [] && q[0] == a
    ensures Enabled(s, ForOwn(DoSleep))
    ensures var s' := Step(s, ForOwn(DoSleep));
        Looks(s'.k, Owing(Off(v, a, Sleeping), a, [Yield])) && AtWork(s', a) && SameRest(s, s')
  {
    assert Watched(T(s.k, a)) == v.threads[a];
    SeesBlock(s.k, v, a, Sleeping);
    SeesOwe(SetStatus(s.k, a, Sleeping), Off(v, a, Sleeping), a, [Yield]);
  }

  /** A thread of priority p is created with the next PID. */
  function Joined(v: Sight, p: nat, status: Status): Sight {
    v.(threads := v.threads + [Seen(status, p, [], None)])
  }

  lemma SeesBorn(k: Core, v: Sight, p: nat, pid: nat, sleeping: bool)
    requires Looks(k, v)
    ensures Looks(Born(k, p, pid, sleeping),
                  if sleeping then Joined(v, p, Sleeping) else On(Joined(v, p, Stopped), |v.threads|, Pending))
  {
    var k1 := AddThread(k, p, pid);
    var v1 := Joined(v, p, Stopped);
    forall l ensures L(k1, l) == Queue(v1, l) { assert L(k, l) == Queue(v, l); }
    forall t: Tid | t < |v1.threads| ensures Watched(T(k1, t)) == v1.threads[t] {
      if t < |v.threads| { assert T(k1, t) == T(k, t); }
    }
    if sleeping {
      SeesRecord(k1, v1, |k.ts|, T(k1, |k.ts|).(status := Sleeping));
    } else {
      SeesWake(k1, v1, |k.ts|, Pending);
    }
  }

  /** The end of _wait in mbox.c, by a thread that has not been woken yet. */
  lemma SeesRoundRobin(s: State, v: Sight, a: Tid)
    requires Looks(s.k, v) && AtWork(s, a) && a < |v.threads| && v.threads[a].todo != [] &&
        v.threads[a].todo[0] == YieldRoundRobin
    requires !OnRunqueue(v.threads[a].status)
    ensures Enabled(s, Cpu(Continue))
    ensures var s' := Step(s, Cpu(Continue));
        Looks(s'.k, Owing(Popped1(v, a), a, [Yield])) && AtWork(s', a) && SameRest(s, s')
  {
    SeesPopped(s, v, a);
    assert Watched(T(PoppedState(s, a).k, a)) == Popped1(v, a).threads[a];
    SeesOwe(PoppedState(s, a).k, Popped1(v, a), a, [Yield]);
  }

  /** By a thread that has been woken and is alone in its run queue. */
  lemma SeesRoundRobinAlone(s: State, v: Sight, a: Tid)
    requires Looks(s.k, v) && AtWork(s, a) && a < |v.threads| && v.threads[a].todo != [] &&
        v.threads[a].todo[0] == YieldRoundRobin
    requires OnRunqueue(v.threads[a].status) && Queue(v, Rq(v.threads[a].prio)) == [a]
    ensures Enabled(s, Cpu(Continue))
    ensures var s' := Step(s, Cpu(Continue));
        Looks(s'.k, Owing(Popped1(v, a), a, [Yield])) && AtWork(s', a) && SameRest(s, s')
  {
    SeesPopped(s, v, a);
    var k1, v1 := PoppedState(s, a).k, Popped1(v, a);
    assert Watched(T(k1, a)) == v1.threads[a] && Queue(v1, Rq(v1.threads[a].prio)) == [a];
    SeesRotateAlone(k1, v1, a);
    SeesOwe(Rotate(k1, T(k1, a).prio), v1, a, [Yield]);
  }

  lemma SeesRotateAlone(k: Core, v: Sight, a: Tid)
    requires Looks(k, v) && a < |v.threads| && Queue(v, Rq(v.threads[a].prio)) == [a]
    ensures Looks(Rotate(k, T(k, a).prio), v)
  {
    var k' := Rotate(k, T(k, a).prio);
    assert Watched(T(k, a)) == v.threads[a] && L(k, Rq(v.threads[a].prio)) == [a];
    assert [a][1..] + [a] == [a];
    forall u: Tid | u < |v.threads| ensures Watched(T(k', u)) == v.threads[u] {
      assert Watched(T(k, u)) == v.threads[u];
    }
    forall l ensures L(k', l) == Queue(v, l) { assert L(k, l) == Queue(v, l); }
  }

  predicate Alike(x: Seen, y: Seen) {
    x.status == y.status && x.prio == y.prio && x.todo == y.todo && x.lock == y.lock
  }

  /** Two sights of the same. */
  lemma LooksAlike(k: Core, v: Sight, v': Sight)
    requires Looks(k, v) && |v'.threads| == |v.threads| && forall l :: Queue(v', l) == Queue(v, l)
    requires forall t :: 0 <= t < |v.threads| ==> Alike(v.threads[t], v'.threads[t])
    ensures Looks(k, v')
  {
    forall t: Tid | t < |v'.threads| ensures Watched(T(k, t)) == v'.threads[t] {
      assert Alike(v.threads[t], v'.threads[t]);
    }
    forall l ensures L(k, l) == Queue(v', l) { assert L(k, l) == Queue(v, l); }
  }

  /** _wait in mbox.c, of the only thread to wait on the list */
  lemma SeesMboxBlock(k: Core, v: Sight, a: Tid, l: ListId, rest: Act)
    requires Looks(k, v) && a < |v.threads| && OnRunqueue(v.threads[a].status) && Queue(v, l) == [] && !l.Rq?
    requires var q := Queue(v, Rq(v.threads[a].prio)); q != [] && q[0] == a
    ensures Looks(MboxBlock(k, a, l, rest),
        Owing(WithQueue(Off(v, a, MboxBlocked), l, [a]), a, [YieldRoundRobin, rest]))
  {
    SeesBlock(k, v, a, MboxBlocked);
    var k1, v1 := SetStatus(k, a, MboxBlocked), Off(v, a, MboxBlocked);
    SeesEnlist(k1, v1, l, a);
    SeesOwe(AddToList(k1, l, a), WithQueue(v1, l, [a]), a, [YieldRoundRobin, rest]);
  }

  // ---------------------------------------------------------------- putting runs together

  lemma {:induction false} RunsOn(s: State, es: seq<Event>, s1: State, fs: seq<Event>, s2: State)
    requires Run(s, es, s1) && Run(s1, fs, s2)
    ensures Run(s, es + fs, s2)
    decreases |es|
  {
    if es == [] {
      assert es + fs == fs;
    } else {
      RunsOn(Step(s, es[0]), es[1..], s1, fs, s2);
      assert (es + fs)[0] == es[0] && (es + fs)[1..] == es[1..] + fs;
    }
  }

  lemma RunsOne(s: State, e: Event)
    requires Enabled(s, e)
    ensures Run(s, [e], Step(s, e))
  {
    assert [e][1..] == [];
    assert Run(Step(s, e), [], Step(s, e));
  }

  /** One more step. */
  lemma RunsStep(s: State, es: seq<Event>, s1: State, e: Event)
    requires Run(s, es, s1) && Enabled(s1, e)
    ensures Run(s, es + [e], Step(s1, e))
  {
    RunsOne(s1, e);
    RunsOn(s, es, s1, [e], Step(s1, e));
  }
}
