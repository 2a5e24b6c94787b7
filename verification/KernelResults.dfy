/** What holds of every run: lists, scheduling, mutexes, condition variables and cancellation. */
module KernelResults {
  import opened KernelTypes
  import opened KernelSpec
  import opened KernelLinks
  import opened KernelInv
  import opened KernelCore
  import opened KernelSched
  import opened KernelState
  import opened KernelSteps
  import opened KernelThreadSteps
  import opened KernelSyncSteps
  import opened KernelInvariant
  import opened KernelHistory
  import opened KernelFrames
  import opened KernelWaking

  // ---------------------------------------------------------------- lists that share one link

  /** A thread is on at most one list; on the run queue of its priority iff it is runnable; and if
      it is blocked, on a list of the kind its status names. */
  lemma OneLink(s: State, t: Tid)
    requires Reachable(s) && t < |s.k.ts|
    ensures forall l, l' :: t in L(s.k, l) && t in L(s.k, l') ==> l == l'
    ensures forall p: nat :: t in L(s.k, Rq(p)) <==> OnRunqueue(T(s.k, t).status) && p == T(s.k, t).prio
    ensures T(s.k, t).status == MutexBlocked ==> exists m: nat :: t in L(s.k, MutexQ(m))
    ensures T(s.k, t).status == CondBlocked ==> exists c: nat :: t in L(s.k, CondQ(c))
    ensures T(s.k, t).status == SendBlocked ==> exists u: Tid :: t in L(s.k, Senders(u))
    ensures T(s.k, t).status == MboxBlocked ==> exists b: nat :: t in L(s.k, Readers(b)) || t in L(s.k, Writers(b))
    ensures T(s.k, t).status == ReplyBlocked ==> forall l: ListId :: t in L(s.k, l) ==> l.Senders?
    ensures T(s.k, t).status in {Stopped, Zombie, Sleeping, ReceiveBlocked, FlagBlockedAny, FlagBlockedAll} ==>
              forall l :: t !in L(s.k, l)
  {
    ReachableOk(s);
    OnTheListItNames(s.k, t);
    if T(s.k, t).loc.Some? { assert t in L(s.k, T(s.k, t).loc.value); }
  }

  lemma OnTheListItNames(k: Core, t: Tid)
    requires CoreOk(k) && t < |k.ts|
    ensures StatusFits(T(k, t)) && forall l :: t in L(k, l) <==> T(k, t).loc == Some(l)
  {
    assert TcbLinked(k, t);
    forall l | t in L(k, l) ensures T(k, t).loc == Some(l) { assert ListOk(k, l); }
  }

  /** No list has a thread twice, and wait lists are ordered by priority, first come first served
      among equals. */
  lemma ListsInOrder(s: State, l: ListId, i: nat, j: nat)
    requires Reachable(s) && i < j < |L(s.k, l)|
    ensures L(s.k, l)[i] != L(s.k, l)[j] && L(s.k, l)[i] < |s.k.ts|
    ensures !l.Rq? ==> T(s.k, L(s.k, l)[i]).prio <= T(s.k, L(s.k, l)[j]).prio
    ensures T(s.k, L(s.k, l)[i]).prio == T(s.k, L(s.k, l)[j]).prio ==>
        T(s.k, L(s.k, l)[i]).ticket < T(s.k, L(s.k, l)[j]).ticket
  {
    ReachableOk(s);
    assert ListOk(s.k, l);
    assert Ahead(l, T(s.k, L(s.k, l)[i]), T(s.k, L(s.k, l)[j]));
  }

  /** A thread that makes a call is the head of its run queue, so popping the head takes out the
      right one; so is a thread about to lock or to put again, in the middle of a call. */
  lemma BlockerIsHead(s: State, a: Tid)
    requires Reachable(s) && s.active == Some(a)
    requires Calling(s) || (MayResume(s, a) && (T(s.k, a).todo[0].Relock? || T(s.k, a).todo[0].RetryPut?))
    ensures IsHead(s.k, a)
    ensures var l := Rq(T(s.k, a).prio); L(s.k, l) == [a] + L(RemoveHead(s.k, l), l) && a !in L(RemoveHead(s.k, l), l)
  {
    ReachableOk(s);
    BlockerIsFirst(s, a);
    HeadIsAlone(s.k, a);
  }

  lemma BlockerIsFirst(s: State, a: Tid)
    requires SchedOk(s) && s.active == Some(a)
    requires Calling(s) || (MayResume(s, a) && (T(s.k, a).todo[0].Relock? || T(s.k, a).todo[0].RetryPut?))
    ensures IsHead(s.k, a)
  {
  }

  lemma HeadIsAlone(k: Core, a: Tid)
    requires Links(k) && IsHead(k, a)
    ensures var l := Rq(T(k, a).prio); L(k, l) == [a] + L(RemoveHead(k, l), l) && a !in L(RemoveHead(k, l), l)
  {
    var l := Rq(T(k, a).prio);
    assert ListOk(k, l);
    forall i | 0 < i < |L(k, l)| ensures L(k, l)[i] != a { Distinct(k, l, 0, i); }
  }

  // ---------------------------------------------------------------- strict priority

  /** While a thread runs its own code, nobody of higher priority is runnable, and it is the first
      of its priority. */
  lemma StrictPriority(s: State, t: Tid)
    requires Reachable(s) && Calling(s) && t < |s.k.ts| && OnRunqueue(T(s.k, t).status)
    ensures OnRunqueue(T(s.k, s.active.value).status)
    ensures T(s.k, s.active.value).prio <= T(s.k, t).prio
    ensures T(s.k, t).prio == T(s.k, s.active.value).prio ==> IsFirst(s.k, Rq(T(s.k, t).prio), s.active.value)
  {
    ReachableOk(s);
    CallerIsSettled(s);
    assert TcbLinked(s.k, t) && StatusFits(T(s.k, t));
  }

  /** sched_run changes no queue, and idles exactly if no thread is runnable. */
  lemma SchedRunIdles(s: State)
    requires Reachable(s)
    ensures forall l :: L(SchedRun(s).k, l) == L(s.k, l)
    ensures SchedRun(s).idle <==> forall t: Tid :: t < |s.k.ts| ==> !OnRunqueue(T(s.k, t).status)
  {
    ReachableOk(s);
    SchedRunRemarks(s);
    SchedRunPicks(s);
    NextIsSettled(s.k);
    assert Next(s.k).Some? ==> IsHead(SchedRun(s).k, Next(s.k).value);
    if Next(s.k).Some? { NextIsRunnable(s.k); }
  }

  lemma NextIsRunnable(k: Core)
    requires Links(k) && Next(k).Some?
    ensures var n := Next(k).value;
            && n < |k.ts| && OnRunqueue(T(k, n).status) && IsFirst(k, Rq(T(k, n).prio), n)
            && forall t: Tid :: t < |k.ts| && OnRunqueue(T(k, t).status) ==> T(k, n).prio <= T(k, t).prio
  {
    NextIsSettled(k);
    forall t: Tid | t < |k.ts| && OnRunqueue(T(k, t).status) ensures T(k, Next(k).value).prio <= T(k, t).prio {
      assert TcbLinked(k, t) && StatusFits(T(k, t));
    }
  }

  /** Otherwise the processor goes to the head of the highest non-empty run queue. */
  lemma SchedRunTakesTheFirst(s: State)
    requires Reachable(s) && !SchedRun(s).idle
    ensures var s' := SchedRun(s);
            && s'.active.Some? && s'.active.value < |s.k.ts| && !s'.request
            && T(s'.k, s'.active.value).status == Running
            && IsFirst(s.k, Rq(T(s.k, s'.active.value).prio), s'.active.value)
            && forall t: Tid :: t < |s.k.ts| && OnRunqueue(T(s.k, t).status) ==>
               T(s.k, s'.active.value).prio <= T(s.k, t).prio
  {
    ReachableOk(s);
    SchedRunPicks(s);
    assert Next(s.k).Some?;
    NextIsRunnable(s.k);
  }

  lemma {:induction false} RunIdle(s: State, es: seq<Event>, s': State)
    requires IdleOk(s) && Run(s, es, s')
    ensures IdleOk(s')
    decreases |es|
  {
    if es != [] {
      StepIdle(s, es[0]);
      RunIdle(Step(s, es[0]), es[1..], s');
    }
  }

  /** The processor idles, outside interrupt handlers, only while no thread is runnable. */
  lemma IdleMeansNobodyRuns(s: State, t: Tid)
    requires Reachable(s) && s.idle && !s.isr && t < |s.k.ts|
    ensures !OnRunqueue(T(s.k, t).status)
  {
    var s0, es :| Init(s0) && Run(s0, es, s);
    RunIdle(s0, es, s);
    ReachableOk(s);
    NextIsSettled(s.k);
  }

  // ---------------------------------------------------------------- waiting in order

  lemma SetStatusWaitLists(k: Core, t: Tid, status: Status, l: ListId)
    requires !l.Rq?
    ensures L(SetStatus(k, t, status), l) == L(k, l)
  {
  }

  lemma ThenWaitLists(s: State, act: Act, l: ListId)
    ensures L(Then(s, act).k, l) == L(s.k, l)
  {
  }

  lemma CreateKeepsWaitLists(s: State, prio: nat, sleeping: bool, l: ListId)
    requires !l.Rq? && prio < LEVELS && FreePid(s.pids, 1).Some? && FreePid(s.pids, 1).value < |s.pids|
    ensures L(Create(s, prio, sleeping).k, l) == L(s.k, l)
  {
    var pid := FreePid(s.pids, 1).value;
    var s1 := s.(pids := s.pids[pid := Some(|s.k.ts|)], ret := pid, k := Born(s.k, prio, pid, sleeping));
    assert L(AddThread(s.k, prio, pid), l) == L(s.k, l);
    SetStatusWaitLists(AddThread(s.k, prio, pid), |s.k.ts|, if sleeping then Sleeping else Pending, l);
    ThenWaitLists(s1, Switch(prio), l);
  }

  lemma WakeupKeepsWaitLists(s: State, pid: nat, t: Tid, l: ListId)
    requires !l.Rq? && Lookup(s, pid) == Some(t) && T(s.k, t).status == Sleeping
    ensures L(Wakeup(s, pid).k, l) == L(s.k, l)
  {
    SetStatusWaitLists(s.k, t, Running, l);
    ThenWaitLists(s.(k := SetStatus(s.k, t, Running), ret := 1), Switch(T(s.k, t).prio), l);
  }

  lemma KillKeepsWaitLists(s: State, pid: nat, t: Tid, l: ListId)
    requires !l.Rq? && Lookup(s, pid) == Some(t) && T(s.k, t).status == Zombie
    ensures L(KillZombie(s, pid).k, l) == L(s.k, l)
  {
    SetStatusWaitLists(s.k, t, Stopped, l);
  }

  lemma PidCallsKeepWaitLists(s: State, pid: nat, l: ListId)
    requires !l.Rq?
    ensures L(Wakeup(s, pid).k, l) == L(s.k, l) && L(KillZombie(s, pid).k, l) == L(s.k, l)
  {
    if Lookup(s, pid).Some? && T(s.k, Lookup(s, pid).value).status == Sleeping {
      WakeupKeepsWaitLists(s, pid, Lookup(s, pid).value, l);
    } else {
      assert Wakeup(s, pid) == s.(ret := -1);
    }
    if Lookup(s, pid).Some? && T(s.k, Lookup(s, pid).value).status == Zombie {
      KillKeepsWaitLists(s, pid, Lookup(s, pid).value, l);
    } else {
      assert KillZombie(s, pid) == s.(ret := -1);
    }
  }

  lemma PriorityKeepsWaitLists(s: State, t: Tid, prio: nat, l: ListId)
    requires !l.Rq?
    ensures L(ChangePriority(s, t, prio).k, l) == L(s.k, l)
  {
    if T(s.k, t).prio != prio {
      ReprioritizeWaitLists(s.k, t, prio, l);
      ThenWaitLists(s.(k := Reprioritize(s.k, t, prio)), CheckPriority(t, prio), l);
    }
  }

  lemma ReprioritizeWaitLists(k: Core, t: Tid, prio: nat, l: ListId)
    requires !l.Rq?
    ensures L(Reprioritize(k, t, prio), l) == L(k, l)
  {
  }

  lemma CreationKeepsWaitLists(s: State, prio: nat, sleeping: bool, l: ListId)
    requires !l.Rq?
    ensures L(Create(s, prio, sleeping).k, l) == L(s.k, l)
  {
    FreePidIsFree(s.pids, 1);
    if prio < LEVELS && FreePid(s.pids, 1).Some? { CreateKeepsWaitLists(s, prio, sleeping, l); }
  }

  /** Calls about threads leave wait lists alone. */
  lemma ThreadCallsKeepWaitLists(s: State, c: ThreadCall, l: ListId)
    requires !l.Rq?
    ensures L(ThreadStep(s, c).k, l) == L(s.k, l)
  {
    match c
    case DoCreate(p, sl) => CreationKeepsWaitLists(s, p, sl, l);
    case DoWakeup(pid) => PidCallsKeepWaitLists(s, pid, l);
    case DoKillZombie(pid) => PidCallsKeepWaitLists(s, pid, l);
    case DoChangePriority(t, p) => PriorityKeepsWaitLists(s, t, p, l);
  }

  lemma WaiterGrows(s: State, e: Event, l: ListId, t: Tid)
    requires Inv(s) && Enabled(s, e) && !l.Rq? && (t in L(s.k, l) || !e.ForThread?)
    ensures LinkStep(T(s.k, t), T(Step(s, e).k, t), s.k.clock) && T(Step(s, e).k, t).prio == T(s.k, t).prio
  {
    if t in L(s.k, l) { WaitersBlocked(s.k, l, t); }
    if e.ForMsg? { MsgGrows(s, e.msg, t); } else { StepAges(s, e, t); }
  }

  /** A waiter that still waits has kept its place in line. */
  lemma WaiterStays(s: State, e: Event, l: ListId, w: Tid)
    requires Inv(s) && Enabled(s, e) && !l.Rq? && w in L(s.k, l)
    requires !Served(T(Step(s, e).k, w))
    ensures T(Step(s, e).k, w).prio == T(s.k, w).prio && T(Step(s, e).k, w).ticket == T(s.k, w).ticket
  {
    WaitersBlocked(s.k, l, w);
    BlockedUntilServed(s, e, w);
    WaiterGrows(s, e, l, w);
  }

  lemma WaitersAreNotServed(k: Core, l: ListId, w: Tid)
    requires Links(k) && !l.Rq? && w in L(k, l)
    ensures !Served(T(k, w)) && w < |k.ts|
  {
    WaitersBlocked(k, l, w);
    assert StatusFits(T(k, w));
  }

  /** A thread that has just come was linked just now. */
  lemma NewcomerIsLinkedNow(s: State, e: Event, l: ListId, x: Tid)
    requires Inv(s) && Enabled(s, e) && Links(Step(s, e).k) && !l.Rq? && x !in L(s.k, l) && x in L(Step(s, e).k, l)
    ensures T(Step(s, e).k, x).ticket >= s.k.clock
  {
    if e.ForThread? {
      ThreadCallsKeepWaitLists(s, e.call, l);
    } else {
      WaiterGrows(s, e, l, x);
      WaitersBlocked(Step(s, e).k, l, x);
      NotNamed(s.k, l, x);
    }
  }

  lemma NotNamed(k: Core, l: ListId, x: Tid)
    requires Links(k) && x !in L(k, l)
    ensures T(k, x).loc != Some(l)
  {
    if x < |k.ts| { assert TcbLinked(k, x); }
  }

  lemma AheadComesFirst(k: Core, l: ListId, x: Tid, w: Tid)
    requires ListOk(k, l) && x in L(k, l) && w in L(k, l) && x != w && Ahead(l, T(k, x), T(k, w))
    ensures exists p, q :: 0 <= p < q < |L(k, l)| && L(k, l)[p] == x && L(k, l)[q] == w
  {
    var p :| 0 <= p < |L(k, l)| && L(k, l)[p] == x;
    var q :| 0 <= q < |L(k, l)| && L(k, l)[q] == w;
    assert p < q || Ahead(l, T(k, w), T(k, x));
  }

  /** No step lets a thread x get ahead of a thread w that was already waiting and still waits,
      unless x has just come and has a strictly higher priority. */
  lemma NoOvertaking(s: State, e: Event, l: ListId, i: nat, j: nat)
    requires Reachable(s) && Enabled(s, e) && !l.Rq?
    requires i < j < |L(Step(s, e).k, l)|
    requires L(Step(s, e).k, l)[j] in L(s.k, l)
    ensures var x, w := L(Step(s, e).k, l)[i], L(Step(s, e).k, l)[j];
            && (x in L(s.k, l) ==> exists p, q :: 0 <= p < q < |L(s.k, l)| && L(s.k, l)[p] == x && L(s.k, l)[q] == w)
            && (x !in L(s.k, l) ==> T(Step(s, e).k, x).prio < T(Step(s, e).k, w).prio)
  {
    ReachableOk(s);
    StepKeeps(s, e);
    NoOvertakingIn(s, e, l, L(Step(s, e).k, l)[i], L(Step(s, e).k, l)[j], i, j);
  }

  lemma NoOvertakingIn(s: State, e: Event, l: ListId, x: Tid, w: Tid, i: nat, j: nat)
    requires Inv(s) && Enabled(s, e) && !l.Rq? && Links(Step(s, e).k) && w in L(s.k, l)
    requires i < j < |L(Step(s, e).k, l)| && x == L(Step(s, e).k, l)[i] && w == L(Step(s, e).k, l)[j]
    ensures x in L(s.k, l) ==> exists p, q :: 0 <= p < q < |L(s.k, l)| && L(s.k, l)[p] == x && L(s.k, l)[q] == w
    ensures x !in L(s.k, l) ==> T(Step(s, e).k, x).prio < T(Step(s, e).k, w).prio
  {
    var k' := Step(s, e).k;
    assert ListOk(k', l) && ListOk(s.k, l);
    assert Ahead(l, T(k', x), T(k', w));
    Distinct(k', l, i, j);
    WaitersAreNotServed(k', l, w);
    WaiterStays(s, e, l, w);
    if x in L(s.k, l) {
      WaitersAreNotServed(k', l, x);
      WaiterStays(s, e, l, x);
      AheadComesFirst(s.k, l, x, w);
    } else {
      NewcomerIsLinkedNow(s, e, l, x);
      assert TcbLinked(s.k, w);
    }
  }

  // ---------------------------------------------------------------- mutexes

  /** From all mutexes unlocked, a mutex has been granted once more often than it was released
      exactly if it is locked, and a mutex that threads wait for is locked. */
  lemma MutexAccounts(s: State, m: nat)
    requires Reachable(s)
    ensures Count(s.grants, m) - Count(s.releases, m) == if m in s.locked then 1 else 0
    ensures L(s.k, MutexQ(m)) != [] ==> m in s.locked
  {
    ReachableOk(s);
    assert MutexOk(s, m);
  }

  /** No barging: while threads wait for a mutex, none unlocks it, and a step that grants it grants
      it to the first of them; nobody else acquires it. */
  lemma NoBarging(s: State, e: Event, m: nat)
    requires Reachable(s) && Enabled(s, e) && L(s.k, MutexQ(m)) != []
    ensures m in Step(s, e).locked
    ensures var first := L(s.k, MutexQ(m))[0];
            Count(Step(s, e).grants, m) != Count(s.grants, m) ==>
              && Count(Step(s, e).grants, m) == Count(s.grants, m) + 1
              && Count(Step(s, e).releases, m) == Count(s.releases, m) + 1
              && T(s.k, first).lock == None && T(Step(s, e).k, first).lock == Some(m)
    ensures forall t: Tid {:trigger T(Step(s, e).k, t)} :: t != L(s.k, MutexQ(m))[0] ==>
              T(Step(s, e).k, t).lock == Some(m) ==> T(s.k, t).lock == Some(m)
  {
    ReachableOk(s);
    StepMoves(s, e);
    assert MutexOk(s, m) && MutexMoves(s, Step(s, e), m);
    WaitersBlocked(s.k, MutexQ(m), L(s.k, MutexQ(m))[0]);
    FirstWaiterHasNoLock(s.k, m);
    forall t: Tid | t != L(s.k, MutexQ(m))[0] && T(Step(s, e).k, t).lock == Some(m) ensures T(s.k, t).lock == Some(m) {
      NobodyElseAcquires(s, e, m, t);
    }
  }

  lemma FirstWaiterHasNoLock(k: Core, m: nat)
    requires CoreOk(k) && L(k, MutexQ(m)) != []
    ensures T(k, L(k, MutexQ(m))[0]).lock == None
  {
    var t := L(k, MutexQ(m))[0];
    assert ListOk(k, MutexQ(m));
    assert StatusFits(T(k, t)) && OwnOk(t, T(k, t));
  }

  lemma NobodyElseAcquires(s: State, e: Event, m: nat, t: Tid)
    requires Inv(s) && Enabled(s, e) && L(s.k, MutexQ(m)) != [] && t != L(s.k, MutexQ(m))[0]
    ensures T(Step(s, e).k, t).lock == Some(m) ==> T(s.k, t).lock == Some(m)
  {
    if e.ForMsg? {
      MsgGrows(s, e.msg, t);
    } else if e.ForThread? {
      ThreadCallsGrantNothing(s, e.call, t);
    } else {
      StepAges(s, e, t);
    }
  }

  lemma ThreadCallsGrantNothing(s: State, c: ThreadCall, t: Tid)
    requires Inv(s) && ThreadEnabled(s, c)
    ensures Kept(T(s.k, t), T(ThreadStep(s, c).k, t))
  {
    if c.DoCreate? && t >= |s.k.ts| {
      NewcomersHaveNoLock(s, c.prio, c.sleeping, t);
    } else if c.DoChangePriority? && c.thread == t {
      PriorityGrantsNothing(s, t, c.newPrio);
    } else {
      ThreadAges(s, c, t);
    }
  }

  lemma NewcomersHaveNoLock(s: State, prio: nat, sleeping: bool, t: Tid)
    requires t >= |s.k.ts|
    ensures T(Create(s, prio, sleeping).k, t).lock == None
  {
    FreePidIsFree(s.pids, 1);
    if prio < LEVELS && FreePid(s.pids, 1).Some? { NewcomerHasNoLock(s, prio, FreePid(s.pids, 1).value, sleeping, t); }
  }

  lemma NewcomerHasNoLock(s: State, prio: nat, pid: nat, sleeping: bool, t: Tid)
    requires t >= |s.k.ts| && prio < LEVELS && FreePid(s.pids, 1) == Some(pid) && pid < |s.pids|
    ensures T(Create(s, prio, sleeping).k, t).lock == None
  {
    var s1 := s.(pids := s.pids[pid := Some(|s.k.ts|)], ret := pid, k := Born(s.k, prio, pid, sleeping));
    SetStatusAges(AddThread(s.k, prio, pid), |s.k.ts|, if sleeping then Sleeping else Pending, t);
    ThenAges(s1.k, s1, Switch(prio), t);
  }

  lemma PriorityGrantsNothing(s: State, t: Tid, prio: nat)
    requires Inv(s) && MayReprioritize(s, t, prio)
    ensures Kept(T(s.k, t), T(ChangePriority(s, t, prio).k, t))
  {
    if T(s.k, t).prio != prio {
      ReprioritizeEffect(s.k, t, prio);
      ThenAges(Reprioritize(s.k, t, prio), s.(k := Reprioritize(s.k, t, prio)), CheckPriority(t, prio), t);
    }
  }

  /** mutex_unlock gives the mutex to the first waiter, makes it runnable, and takes only it off
      the list; without waiters the mutex is free. */
  lemma UnlockHandsOver(s: State, m: nat)
    requires Reachable(s) && MayCall(s) && m in s.locked
    ensures var s' := Unlock(s, m); var q := L(s.k, MutexQ(m));
            if q == [] then m !in s'.locked && s'.k == s.k
            else
              && m in s'.locked && L(s'.k, MutexQ(m)) == q[1..]
              && OnRunqueue(T(s'.k, q[0]).status) && T(s'.k, q[0]).lock == Some(m)
  {
    ReachableOk(s);
    if L(s.k, MutexQ(m)) != [] { HandedToFirst(s, m); }
  }

  lemma HandedToFirst(s: State, m: nat)
    requires Links(s.k) && m in s.locked && L(s.k, MutexQ(m)) != []
    ensures var s' := Unlock(s, m); var q := L(s.k, MutexQ(m));
            && m in s'.locked && L(s'.k, MutexQ(m)) == q[1..]
            && OnRunqueue(T(s'.k, q[0]).status) && T(s'.k, q[0]).lock == Some(m)
  {
    var h := L(s.k, MutexQ(m))[0];
    HandEffect(s.k, m);
    WakeHeadRest(s.k, MutexQ(m));
    assert UnlockCore(s, m).k == HandMutex(s.k, m);
    ThenWaitLists(UnlockCore(s, m), Switch(T(s.k, h).prio), MutexQ(m));
    ThenFrame(UnlockCore(s, m), Switch(T(s.k, h).prio));
  }

  /** A blocking mutex_lock returns only with the mutex granted. */
  lemma LockReturnsHeld(s: State, a: Tid, m: nat)
    requires Reachable(s) && MayResume(s, a) && T(s.k, a).todo[0] == Locked(m)
    ensures T(s.k, a).lock == Some(m) && T(s.k, a).todo == [Locked(m)]
  {
    ReachableOk(s);
    LastActKeeps(s, a);
  }

  // ---------------------------------------------------------------- condition variables

  /** cond_wait releases the mutex and joins the waiters in one step: no other step comes between. */
  lemma CondWaitIsAtomic(s: State, a: Tid, c: nat, m: nat)
    requires Reachable(s) && Calling(s) && s.active == Some(a)
    ensures var s' := CondWait(s, a, c, m);
            && T(s'.k, a).status == CondBlocked && T(s'.k, a).loc == Some(CondQ(c)) && a in L(s'.k, CondQ(c))
            && T(s'.k, a).todo == [Yield, Relock(m)]
            && (m in s.locked ==> Count(s'.releases, m) == Count(s.releases, m) + 1)
            && (m in s'.locked ==> Count(s'.grants, m) == Count(s.grants, m) + 1 && Heir(s, m).Some?)
  {
    ReachableOk(s);
    CondWaitJoins(s, a, c, m);
    CondWaitReleases(s, a, c, m);
  }

  lemma CondWaitJoins(s: State, a: Tid, c: nat, m: nat)
    requires Inv(s) && Calling(s) && s.active == Some(a)
    ensures var k' := CondWait(s, a, c, m).k;
            && T(k', a).status == CondBlocked && T(k', a).loc == Some(CondQ(c)) && a in L(k', CondQ(c))
            && T(k', a).todo == [Yield, Relock(m)]
  {
    var s1 := UnlockCore(s, m);
    UnlockerMayBlock(s, m, a);
    EnlistEffect(s1.k, a, CondBlocked, CondQ(c));
    assert [Yield, Relock(m)] + [] == [Yield, Relock(m)];
    CondWaitKeeps(s, a, c, m);
    assert TcbLinked(CondWait(s, a, c, m).k, a);
  }

  lemma CondWaitReleases(s: State, a: Tid, c: nat, m: nat)
    ensures var s' := CondWait(s, a, c, m);
            && (m in s.locked ==> Count(s'.releases, m) == Count(s.releases, m) + 1)
            && (m in s'.locked ==> Count(s'.grants, m) == Count(s.grants, m) + 1 && Heir(s, m).Some?)
  {
    CondWaitTallies(s, a, c, m);
    UnlockTallies(s, m);
  }

  lemma CondWaitTallies(s: State, a: Tid, c: nat, m: nat)
    ensures var s' := CondWait(s, a, c, m); var s1 := UnlockCore(s, m);
            s'.releases == s1.releases && s'.grants == s1.grants && s'.locked == s1.locked
  {
  }

  lemma UnlockTallies(s: State, m: nat)
    ensures var s1 := UnlockCore(s, m);
            && (m in s.locked ==> Count(s1.releases, m) == Count(s.releases, m) + 1)
            && (m in s1.locked ==> Count(s1.grants, m) == Count(s.grants, m) + 1 && Heir(s, m).Some?)
  {
    if m in s.locked {
      match Heir(s, m)
      case None =>
      case Some(h) =>
    }
  }

  /** A signal wakes exactly the first waiter. */
  lemma SignalWakesTheFirst(s: State, c: nat)
    requires Reachable(s) && MayCall(s) && L(s.k, CondQ(c)) != []
    ensures var s' := Signal(s, c, false); var q := L(s.k, CondQ(c));
            && L(s'.k, CondQ(c)) == q[1..] && OnRunqueue(T(s'.k, q[0]).status)
            && forall t: Tid {:trigger T(s'.k, t)} :: t in q[1..] ==> Untouched(T(s.k, t), T(s'.k, t))
  {
    ReachableOk(s);
    var q := L(s.k, CondQ(c));
    SignalLists(s, c, false);
    SignalledBecomesRunnable(s, c, false, q[0]);
    forall t: Tid | t in q[1..] ensures Untouched(T(s.k, t), T(Signal(s, c, false).k, t)) {
      NotTheFirst(s.k, CondQ(c), t);
      SignalTouches(s, c, false, t);
    }
  }

  lemma NotTheFirst(k: Core, l: ListId, t: Tid)
    requires Links(k) && L(k, l) != [] && t in L(k, l)[1..]
    ensures t != L(k, l)[0]
  {
    assert ListOk(k, l);
    var i :| 0 <= i < |L(k, l)[1..]| && L(k, l)[1..][i] == t;
    Distinct(k, l, 0, i + 1);
  }

  /** A broadcast wakes all of them. */
  lemma BroadcastWakesAll(s: State, c: nat)
    requires Reachable(s) && MayCall(s)
    ensures var s' := Signal(s, c, true);
            L(s'.k, CondQ(c)) == [] && forall t: Tid :: t in L(s.k, CondQ(c)) ==> OnRunqueue(T(s'.k, t).status)
  {
    ReachableOk(s);
    SignalLists(s, c, true);
    forall t: Tid | t in L(s.k, CondQ(c)) ensures OnRunqueue(T(Signal(s, c, true).k, t).status) {
      SignalledBecomesRunnable(s, c, true, t);
    }
  }

  lemma SignalledBecomesRunnable(s: State, c: nat, broadcast: bool, t: Tid)
    requires CoreOk(s.k) && t in Signalled(s, c, broadcast)
    ensures OnRunqueue(T(Signal(s, c, broadcast).k, t).status)
  {
    var woken := Signalled(s, c, broadcast);
    var s1 := s.(k := WakeAll(s.k, CondQ(c), |woken|));
    assert L(s.k, CondQ(c))[..|woken|] == woken;
    WakeAllServes(s.k, CondQ(c), |woken|, t);
    ThenKeepsStatus(s1, Switch(MinPrio(s.k, woken, LEVELS)), t);
  }

  lemma ThenKeepsStatus(s: State, act: Act, t: Tid)
    ensures T(Then(s, act).k, t).status == T(s.k, t).status
  {
  }

  lemma WakeAllLists(k: Core, l: ListId, n: nat)
    requires CoreOk(k) && l.CondQ? && n <= |L(k, l)|
    ensures L(WakeAll(k, l, n), l) == L(k, l)[n..]
    decreases n
  {
    if n > 0 {
      WakeHeadOk(k, l);
      WakeHeadRest(k, l);
      WakeAllLists(WakeHead(k, l), l, n - 1);
    }
  }

  lemma SignalLists(s: State, c: nat, broadcast: bool)
    requires CoreOk(s.k)
    ensures L(Signal(s, c, broadcast).k, CondQ(c)) == L(s.k, CondQ(c))[|Signalled(s, c, broadcast)|..]
  {
    var woken := Signalled(s, c, broadcast);
    WakeAllLists(s.k, CondQ(c), |woken|);
    ThenWaitLists(s.(k := WakeAll(s.k, CondQ(c), |woken|)), Switch(MinPrio(s.k, woken, LEVELS)), CondQ(c));
  }

  /** A thread that was woken goes on with mutex_lock, which either gets the mutex at once or
      blocks in a call that returns only with it (LockReturnsHeld). */
  lemma CondWaitRelocks(s: State, a: Tid, m: nat)
    requires Reachable(s) && MayResume(s, a) && T(s.k, a).todo[0] == Relock(m)
    ensures var s' := Step(s, Cpu(Continue));
            if m !in s.locked then m in s'.locked && T(s'.k, a).lock == Some(m) && T(s'.k, a).todo == []
            else T(s'.k, a).status == MutexBlocked && a in L(s'.k, MutexQ(m)) && T(s'.k, a).todo == [Yield, Locked(m)]
  {
    ReachableOk(s);
    LastActKeeps(s, a);
    RelockIs(s, a, m);
    LockGrantsOrBlocks(PoppedState(s, a), a, m);
  }

  lemma RelockIs(s: State, a: Tid, m: nat)
    requires MayResume(s, a) && T(s.k, a).todo[0] == Relock(m)
    ensures Step(s, Cpu(Continue)) == Lock(PoppedState(s, a), a, m, true)
  {
  }

  lemma LockGrantsOrBlocks(s: State, a: Tid, m: nat)
    requires Inv(s) && Calling(s) && s.active == Some(a)
    ensures var s' := Lock(s, a, m, true);
            if m !in s.locked then m in s'.locked && T(s'.k, a).lock == Some(m) && T(s'.k, a).todo == []
            else T(s'.k, a).status == MutexBlocked && a in L(s'.k, MutexQ(m)) && T(s'.k, a).todo == [Yield, Locked(m)]
  {
    CallerIsSettled(s);
    if m in s.locked {
      LockKeeps(s, a, m, true);
      MutexBlockEffect(s.k, a, m, Locked(m));
      assert TcbLinked(Lock(s, a, m, true).k, a);
    }
  }

  // ---------------------------------------------------------------- cancellation

  /** When a mutex_lock_cancelable that blocked resumes, it returns 0 iff it was not cancelled, and that says
      whether it got the mutex unless the cancellation came after the hand-over. */
  lemma CancelableReturns(s: State, a: Tid, id: nat)
    requires Reachable(s) && MayResume(s, a) && T(s.k, a).todo[0] == CheckCancel(id)
    ensures id in s.cancels
    ensures var s' := Step(s, Cpu(Continue)); var granted := T(s.k, a).lock == Some(s.cancels[id].mutex);
            && (s'.ret == 0 || s'.ret == ECANCELED)
            && (granted <==> !s.cancels[id].cancelled || s.cancels[id].late)
            && ((s'.ret == 0 <==> granted) <==> !s.cancels[id].late)
  {
    ReachableOk(s);
    LastActKeeps(s, a);
    assert CancelOk(T(s.k, a), a, s.cancels[id]);
  }

  /** Before that, it returns at once exactly if it was cancelled already, granting nothing, or if
      the mutex is free, which it then has; otherwise it blocks and goes on as above. */
  lemma CancelableStarts(s: State, a: Tid, id: nat)
    requires Reachable(s) && Calling(s) && s.active == Some(a) && id in s.cancels && s.cancels[id].thread == a
    ensures var s' := LockCancelable(s, a, id); var m := s.cancels[id].mutex;
            if s.cancels[id].cancelled then s' == s.(ret := ECANCELED)
            else if m !in s.locked then
              s'.ret == 0 && m in s'.locked && T(s'.k, a).lock == Some(m) && T(s'.k, a).todo == []
              && Count(s'.grants, m) == Count(s.grants, m) + 1
            else s'.grants == s.grants && T(s'.k, a).status == MutexBlocked && a in L(s'.k, MutexQ(m))
                 && T(s'.k, a).todo == [Yield, CheckCancel(id)]
  {
    ReachableOk(s);
    CallerIsSettled(s);
    if !s.cancels[id].cancelled {
      if s.cancels[id].mutex in s.locked { CancelableBlocks(s, a, id); } else { CancelableGets(s, a, id); }
    }
  }

  lemma CancelableGets(s: State, a: Tid, id: nat)
    requires id in s.cancels && !s.cancels[id].cancelled && s.cancels[id].mutex !in s.locked && a < |s.k.ts|
    ensures var s' := LockCancelable(s, a, id); var m := s.cancels[id].mutex;
            && s'.ret == 0 && m in s'.locked && Count(s'.grants, m) == Count(s.grants, m) + 1
            && T(s'.k, a) == T(s.k, a).(lock := Some(m))
  {
  }

  lemma CancelableBlocks(s: State, a: Tid, id: nat)
    requires Inv(s) && Calling(s) && s.active == Some(a) && id in s.cancels && s.cancels[id].thread == a
    requires !s.cancels[id].cancelled && s.cancels[id].mutex in s.locked
    ensures var s' := LockCancelable(s, a, id);
            && s'.grants == s.grants && T(s'.k, a).status == MutexBlocked && a in L(s'.k, MutexQ(s.cancels[id].mutex))
            && T(s'.k, a).todo == [Yield, CheckCancel(id)]
  {
    CallerIsSettled(s);
    MutexBlockEffect(s.k, a, s.cancels[id].mutex, CheckCancel(id));
    LockCancelableKeeps(s, a, id);
    assert TcbLinked(LockCancelable(s, a, id).k, a);
  }

  /** The thread has been handed the mutex in mutex_lock_cancelable, and has not resumed since. */
  predicate HandedOver(s: State, id: nat) {
    id in s.cancels &&
    var c := s.cancels[id];
    OnRunqueue(T(s.k, c.thread).status) && InCancelable(T(s.k, c.thread), id) && T(s.k, c.thread).lock == Some(c.mutex)
  }

  /** Whether, since the structure was last initialised, a mutex_cancel fell between the hand-over
      and the resumption; `so` is the answer for what came before. */
  ghost predicate CancelledLate(s: State, es: seq<Event>, s': State, id: nat, so: bool)
    requires Run(s, es, s')
    decreases |es|
  {
    if es == [] then so
    else
      var e := es[0];
      var now := if e.ForLock? && e.lock.DoInitCancel? && e.lock.id == id then false
                 else so || (e == ForWaking(DoCancel(id)) && HandedOver(s, id));
      CancelledLate(Step(s, e), es[1..], s', id, now)
  }

  lemma StepCancels(s: State, e: Event)
    requires Enabled(s, e) && !(e.ForLock? && e.lock.DoInitCancel?) && !(e.ForWaking? && e.wake.DoCancel?)
    ensures Step(s, e).cancels == s.cancels
  {
    match e
    case Cpu(c) => CpuCancels(s, c);
    case ForThread(c) => ThreadFrame(s, c);
    case ForWaking(c) => WakeFrame(s, c);
    case ForOwn(c) => OwnFrame(s, c);
    case ForLock(c) => LockCallFrame(s, c);
    case ForFlags(c) => FlagsFrame(s, c);
    case ForMsg(c) => MsgFrame(s, c);
    case ForMbox(c) => MboxFrame(s, c);
  }

  lemma CpuCancels(s: State, e: CpuEvent)
    requires CpuEnabled(s, e)
    ensures CpuStep(s, e).cancels == s.cancels
  {
    match e
    case EnterIsr =>
    case ExitIsr => SchedRunFrames(s.(isr := false));
    case Preempt => SchedRunFrames(s);
    case Continue => ResumeCancels(s, s.active.value);
  }

  lemma ResumeCancels(s: State, a: Tid)
    requires T(s.k, a).todo != []
    ensures Resume(s, a).cancels == s.cancels
  {
    var act := T(s.k, a).todo[0];
    if act.Yield? { YieldFrame(s, a); }
    else if act.YieldRoundRobin? { RoundRobinFrame(s, a); }
    else if act.Relock? { RelockFrame(s, a); }
    else if act.RetryPut? { RetryFrame(s, a); }
    else if Tests(act) { TestFrame(s, a); }
    else { RestFrame(s, a); }
  }

  /** Over every run, `late` says exactly whether a cancellation came between the hand-over and the
      resumption: the case in which CancelableReturns finds the mutex held though -ECANCELED is returned. */
  lemma {:induction false} LateIffCancelledLate(s: State, es: seq<Event>, s': State, id: nat, so: bool)
    requires Run(s, es, s') && (id in s.cancels ==> s.cancels[id].late == so) && (id !in s.cancels ==> !so)
    ensures id in s'.cancels ==> s'.cancels[id].late == CancelledLate(s, es, s', id, so)
    decreases |es|
  {
    if es != [] {
      var e := es[0];
      var now := if e.ForLock? && e.lock.DoInitCancel? && e.lock.id == id then false
                 else so || (e == ForWaking(DoCancel(id)) && HandedOver(s, id));
      LateStep(s, e, id, so);
      LateIffCancelledLate(Step(s, e), es[1..], s', id, now);
    }
  }

  lemma LateStep(s: State, e: Event, id: nat, so: bool)
    requires Enabled(s, e) && (id in s.cancels ==> s.cancels[id].late == so) && (id !in s.cancels ==> !so)
    ensures var now := if e.ForLock? && e.lock.DoInitCancel? && e.lock.id == id then false
                       else so || (e == ForWaking(DoCancel(id)) && HandedOver(s, id));
            var cancels := Step(s, e).cancels;
            (id in cancels ==> cancels[id].late == now) && (id !in cancels ==> !now)
  {
    if e.ForWaking? && e.wake.DoCancel? {
      CancelStepLate(s, e.wake.id, id);
    } else if !(e.ForLock? && e.lock.DoInitCancel?) {
      StepCancels(s, e);
    }
  }

  lemma CancelStepLate(s: State, other: nat, id: nat)
    requires MayCancel(s, other)
    ensures var cancels := MutexCancel(s, other).cancels;
            && (id in cancels <==> id in s.cancels)
            && (id in cancels ==> cancels[id].late == (s.cancels[id].late || (id == other && HandedOver(s, id))))
  {
    if !OnRunqueue(T(s.k, s.cancels[other].thread).status) { CancelFlags(s, other); }
  }

  lemma CancelFlags(s: State, id: nat)
    requires id in s.cancels && !OnRunqueue(T(s.k, s.cancels[id].thread).status)
    ensures MutexCancel(s, id).cancels == s.cancels[id := s.cancels[id].(cancelled := true)]
  {
    var c := s.cancels[id];
    if c.mutex in s.locked && c.thread in L(s.k, MutexQ(c.mutex)) {
      ThenFrame(s.(cancels := s.cancels[id := c.(cancelled := true)],
                   k := SetStatus(RemoveFrom(s.k, MutexQ(c.mutex), c.thread), c.thread, Pending)),
                     Switch(T(s.k, c.thread).prio));
    }
  }

  /** Cancelling a queued waiter takes out exactly that waiter, grants nothing, and leaves the
      mutex locked. */
  lemma CancelRemovesTheWaiter(s: State, id: nat)
    requires Reachable(s) && MayCall(s) && MayCancel(s, id)
    requires s.cancels[id].thread in L(s.k, MutexQ(s.cancels[id].mutex))
    ensures var c := s.cancels[id]; var s' := MutexCancel(s, id);
            && L(s'.k, MutexQ(c.mutex)) == Without(L(s.k, MutexQ(c.mutex)), c.thread)
            && c.thread !in L(s'.k, MutexQ(c.mutex))
            && OnRunqueue(T(s'.k, c.thread).status) && T(s'.k, c.thread).lock == None
            && c.mutex in s'.locked && s'.grants == s.grants && s'.releases == s.releases
  {
    var c := s.cancels[id];
    ReachableOk(s);
    assert MutexOk(s, c.mutex);
    CancelFrame(s, id);
    CancelEffect(s.k, c.mutex, c.thread);
    CancelKeeps(s, id);
    CancelledIsOut(s, id);
  }

  lemma CancelledIsOut(s: State, id: nat)
    requires Inv(s) && MayCancel(s, id) && s.cancels[id].mutex in s.locked
    requires s.cancels[id].thread in L(s.k, MutexQ(s.cancels[id].mutex)) && Links(MutexCancel(s, id).k)
    ensures var c := s.cancels[id]; var s' := MutexCancel(s, id);
            && L(s'.k, MutexQ(c.mutex)) == Without(L(s.k, MutexQ(c.mutex)), c.thread)
            && c.thread !in L(s'.k, MutexQ(c.mutex))
            && OnRunqueue(T(s'.k, c.thread).status) && T(s'.k, c.thread).lock == None
  {
    var c := s.cancels[id];
    assert OwnOk(c.thread, T(s.k, c.thread));
    CancelledState(s, id, MutexCancel(s, id).k);
    NotListed(MutexCancel(s, id).k, MutexQ(c.mutex), c.thread, None);
  }

  lemma CancelledState(s: State, id: nat, k': Core)
    requires Links(s.k) && id in s.cancels && s.cancels[id].mutex in s.locked && k' == MutexCancel(s, id).k
    requires s.cancels[id].thread in L(s.k, MutexQ(s.cancels[id].mutex))
    ensures var c := s.cancels[id];
            && L(k', MutexQ(c.mutex)) == Without(L(s.k, MutexQ(c.mutex)), c.thread)
            && T(k', c.thread).status == Pending && T(k', c.thread).lock == T(s.k, c.thread).lock
            && T(s.k, c.thread).status == MutexBlocked && T(k', c.thread).loc == Some(Rq(T(s.k, c.thread).prio))
            && c.thread < |s.k.ts|
  {
    var c := s.cancels[id];
    var s1 := s.(cancels := s.cancels[id := c.(cancelled := true)],
                 k := SetStatus(RemoveFrom(s.k, MutexQ(c.mutex), c.thread), c.thread, Pending));
    CancelEffect(s.k, c.mutex, c.thread);
    ThenWaitLists(s1, Switch(T(s.k, c.thread).prio), MutexQ(c.mutex));
    ThenKeepsPlace(s1, Switch(T(s.k, c.thread).prio), c.thread);
    CancelIs(s, id);
  }

  lemma ThenKeepsPlace(s: State, act: Act, t: Tid)
    ensures var x, y := T(s.k, t), T(Then(s, act).k, t); y.status == x.status && y.lock == x.lock && y.loc == x.loc
  {
  }

  lemma CancelIs(s: State, id: nat)
    requires Links(s.k) && id in s.cancels && s.cancels[id].mutex in s.locked
    requires s.cancels[id].thread in L(s.k, MutexQ(s.cancels[id].mutex))
    ensures var c := s.cancels[id];
            MutexCancel(s, id) == Then(s.(cancels := s.cancels[id := c.(cancelled := true)],
                                          k := SetStatus(RemoveFrom(s.k, MutexQ(c.mutex), c.thread), c.thread,
                                            Pending)),
                                       Switch(T(s.k, c.thread).prio))
  {
    WaitersBlocked(s.k, MutexQ(s.cancels[id].mutex), s.cancels[id].thread);
    assert StatusFits(T(s.k, s.cancels[id].thread));
  }
}
