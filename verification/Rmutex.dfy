/** The recursive mutex, statement by statement: any number of threads run rmutex_lock,
    rmutex_trylock and rmutex_unlock, and every shared access is a step of its own. */
module Rmutex {

  datatype Option<+T> = None | Some(value: T)

  /** KERNEL_PID_UNDEF */
  const UNDEF: nat := 0
  /** refcount is an uint16_t. */
  const COUNTS: nat := 0x1_0000

  /** The statement a thread is about to execute. */
  datatype Pc =
    | Outside
    // _lock
    | TryMutex(trylock: bool)              // mutex_trylock(&rmutex->mutex)
    | LoadOwner(trylock: bool)             // owner = atomic_load_kernel_pid(&rmutex->owner)
    | Decide(trylock: bool, seen: nat)     // if (owner != thread_getpid())
    | LockMutex                            // mutex_lock(&rmutex->mutex)
    | Waiting                              // blocked in mutex_lock
    | StoreOwner                           // atomic_store_kernel_pid(&rmutex->owner, ...)
    | LoadCount                            // rmutex->refcount++: the read
    | StoreCount(count: nat)               // rmutex->refcount++: the write, and the return
    // rmutex_unlock
    | CheckOwner                           // assert(... owner == thread_getpid())
    | CheckCount                           // assert(rmutex->refcount > 0)
    | LoadDown                             // rmutex->refcount--: the read
    | StoreDown(count: nat)                // rmutex->refcount--: the write
    | TestCount                            // if (rmutex->refcount == 0)
    | ClearOwner                           // atomic_store_kernel_pid(&rmutex->owner, KERNEL_PID_UNDEF)
    | Release                              // mutex_unlock(&rmutex->mutex)
    | Failed                               // an assertion failed

  /** depth is auxiliary: the locks of the thread that it has not undone yet. */
  datatype Thread = Thread(pc: Pc, depth: nat, ret: nat)

  /** holder and waiting are the inner mutex. */
  datatype State = State(owner: nat, count: nat, holder: Option<nat>, waiting: set<nat>, threads: map<nat, Thread>)

  function Th(s: State, t: nat): Thread {
    if t in s.threads then s.threads[t] else Thread(Outside, 0, 0)
  }

  function At(s: State, t: nat, pc: Pc): State {
    s.(threads := s.threads[t := Th(s, t).(pc := pc)])
  }

  /** Go lets the thread execute its next statement; the mutex goes to `heir` if that is an unlock
      with threads waiting. */
  datatype Event = BeginLock(t: nat, trylock: bool) | BeginUnlock(t: nat) | Go(t: nat, heir: nat)

  ghost predicate Enabled(s: State, e: Event) {
    e.t != UNDEF
    && match e
       case Go(t, heir) =>
         && !Th(s, t).pc.Outside? && !Th(s, t).pc.Waiting? && !Th(s, t).pc.Failed?
         && (Th(s, t).pc.Release? && s.waiting != {} ==> heir in s.waiting)
       case _ => Th(s, e.t).pc.Outside?
  }

  function Step(s: State, e: Event): State {
    match e
    case BeginLock(t, trylock) => At(s, t, TryMutex(trylock))
    case BeginUnlock(t) => At(s, t, CheckOwner)
    case Go(t, heir) => Execute(s, t, heir)
  }

  function Execute(s: State, t: nat, heir: nat): State {
    match Th(s, t).pc
    case TryMutex(trylock) =>
      if s.holder.None? then At(s.(holder := Some(t)), t, StoreOwner) else At(s, t, LoadOwner(trylock))
    case LoadOwner(trylock) => At(s, t, Decide(trylock, s.owner))
    case Decide(trylock, seen) =>
      if seen == t then At(s, t, StoreOwner)
      else if trylock then s.(threads := s.threads[t := Th(s, t).(pc := Outside, ret := 0)])
      else At(s, t, LockMutex)
    case LockMutex =>
      if s.holder.None? then At(s.(holder := Some(t)), t, StoreOwner)
        else At(s.(waiting := s.waiting + {t}), t, Waiting)
    case StoreOwner => At(s.(owner := t), t, LoadCount)
    case LoadCount => At(s, t, StoreCount(s.count))
    case StoreCount(c) =>
      s.(count := (c + 1) % COUNTS, threads := s.threads[t := Thread(Outside, Th(s, t).depth + 1, 1)])
    case CheckOwner => At(s, t, if s.owner == t then CheckCount else Failed)
    case CheckCount => At(s, t, if s.count > 0 then LoadDown else Failed)
    case LoadDown => At(s, t, StoreDown(s.count))
    case StoreDown(c) =>
      s.(count := (c + COUNTS - 1) % COUNTS,
         threads := s.threads[t := Th(s, t).(pc := TestCount, depth := if Th(s, t).depth == 0 then 0
           else Th(s, t).depth - 1)])
    case TestCount => At(s, t, if s.count == 0 then ClearOwner else Outside)
    case ClearOwner => At(s.(owner := UNDEF), t, Release)
    case Release => HandOver(At(s, t, Outside), heir)
    case _ => s
  }

  /** mutex_unlock: the heir returns from mutex_lock. */
  function HandOver(s: State, heir: nat): State {
    if s.waiting == {} then s.(holder := None)
    else At(s.(holder := Some(heir), waiting := s.waiting - {heir}), heir, StoreOwner)
  }

  ghost predicate Init(s: State) {
    s.owner == UNDEF && s.count == 0 && s.holder.None? && s.waiting == {} && s.threads == map[]
  }

  // ---------------------------------------------------------------- the invariant

  /** The thread that holds the inner mutex. */
  predicate HolderOk(s: State, t: nat, th: Thread) {
    s.count == th.depth &&
    match th.pc
    case Outside => s.owner == t && th.depth > 0
    case TryMutex(_) => s.owner == t && th.depth > 0
    case LoadOwner(_) => s.owner == t && th.depth > 0
    case Decide(_, seen) => s.owner == t && th.depth > 0 && seen == t
    case StoreOwner => s.owner == if th.depth > 0 then t else UNDEF
    case LoadCount => s.owner == t
    case StoreCount(c) => s.owner == t && c == s.count
    case CheckOwner => s.owner == t && th.depth > 0
    case CheckCount => s.owner == t && th.depth > 0
    case LoadDown => s.owner == t && th.depth > 0
    case StoreDown(c) => s.owner == t && th.depth > 0 && c == s.count
    case TestCount => s.owner == t
    case ClearOwner => s.owner == t && th.depth == 0
    case Release => s.owner == UNDEF && th.depth == 0
    case _ => false
  }

  predicate OtherOk(t: nat, th: Thread) {
    th.depth == 0 &&
    match th.pc
    case Outside => true
    case TryMutex(_) => true
    case LoadOwner(_) => true
    case Decide(_, seen) => seen != t
    case LockMutex => true
    case Waiting => true
    case CheckOwner => true
    case Failed => true
    case _ => false
  }

  ghost predicate ThreadOk(s: State, t: nat) {
    && (if s.holder == Some(t) then HolderOk(s, t, Th(s, t)) else OtherOk(t, Th(s, t)))
    && (t in s.waiting <==> Th(s, t).pc.Waiting?)
  }

  ghost predicate Inv(s: State) {
    && s.count < COUNTS
    && (s.owner != UNDEF ==> s.holder == Some(s.owner))
    && (s.holder.None? ==> s.count == 0 && s.waiting == {})
    && s.holder != Some(UNDEF) && UNDEF !in s.waiting
    && forall t: nat :: ThreadOk(s, t)
  }

  /** A thread does not nest more locks than its counter can count. */
  predicate Countable(s: State, e: Event) {
    e.Go? && Th(s, e.t).pc.StoreCount? ==> s.count < COUNTS - 1
  }

  lemma InitKeeps(s: State)
    requires Init(s)
    ensures Inv(s)
  {
  }

  /** One thread moved, and perhaps the holder changed. */
  lemma OthersKeep(s: State, s': State, t: nat)
    requires Inv(s) && s'.holder == s.holder && s'.waiting - {t} == s.waiting - {t}
    requires forall u: nat {:trigger Th(s', u)} :: u != t ==> Th(s', u) == Th(s, u)
    requires s.holder == Some(t) || (s'.owner == s.owner && s'.count == s.count)
    requires ThreadOk(s', t)
    ensures forall u: nat :: ThreadOk(s', u)
  {
    forall u: nat ensures ThreadOk(s', u) {
      if u != t {
        assert ThreadOk(s, u) && Th(s', u) == Th(s, u);
        assert u in s'.waiting <==> u in s'.waiting - {t};
        assert u in s.waiting <==> u in s.waiting - {t};
      }
    }
  }

  lemma BeginKeeps(s: State, e: Event)
    requires Inv(s) && Enabled(s, e) && !e.Go?
    ensures Inv(Step(s, e))
  {
    assert ThreadOk(s, e.t);
    OthersKeep(s, Step(s, e), e.t);
  }

  /** The inner mutex is taken by t, which nobody held. */
  lemma TakeKeeps(s: State, t: nat)
    requires Inv(s) && s.holder.None? && t != UNDEF && (Th(s, t).pc.TryMutex? || Th(s, t).pc.LockMutex?)
    ensures Inv(At(s.(holder := Some(t)), t, StoreOwner))
  {
    var s' := At(s.(holder := Some(t)), t, StoreOwner);
    forall u: nat ensures ThreadOk(s', u) { assert ThreadOk(s, u); }
  }

  lemma LockKeeps(s: State, t: nat, heir: nat)
    requires Inv(s) && Enabled(s, Go(t, heir)) && Countable(s, Go(t, heir))
    requires var pc := Th(s, t).pc;
        pc.TryMutex? || pc.LoadOwner? || pc.Decide? || pc.LockMutex? || pc.StoreOwner? || pc.LoadCount? ||
          pc.StoreCount?
    ensures Inv(Execute(s, t, heir))
  {
    assert ThreadOk(s, t);
    if s.holder.None? && (Th(s, t).pc.TryMutex? || Th(s, t).pc.LockMutex?) {
      TakeKeeps(s, t);
    } else {
      OthersKeep(s, Execute(s, t, heir), t);
    }
  }

  lemma UnlockKeeps(s: State, t: nat, heir: nat)
    requires Inv(s) && Enabled(s, Go(t, heir))
    requires var pc := Th(s, t).pc;
        pc.CheckOwner? || pc.CheckCount? || pc.LoadDown? || pc.StoreDown? || pc.TestCount? || pc.ClearOwner?
    ensures Inv(Execute(s, t, heir))
  {
    assert ThreadOk(s, t);
    OthersKeep(s, Execute(s, t, heir), t);
  }

  lemma ReleaseKeeps(s: State, t: nat, heir: nat)
    requires Inv(s) && Enabled(s, Go(t, heir)) && Th(s, t).pc.Release?
    ensures Inv(Execute(s, t, heir))
  {
    assert ThreadOk(s, t);
    var s' := Execute(s, t, heir);
    assert s.waiting != {} ==> ThreadOk(s, heir);
    forall u: nat ensures ThreadOk(s', u) { assert ThreadOk(s, u); }
  }

  lemma StepKeeps(s: State, e: Event)
    requires Inv(s) && Enabled(s, e) && Countable(s, e)
    ensures Inv(Step(s, e))
  {
    if !e.Go? {
      BeginKeeps(s, e);
    } else {
      var pc := Th(s, e.t).pc;
      if pc.Release? {
        ReleaseKeeps(s, e.t, e.heir);
      } else if pc.CheckOwner? || pc.CheckCount? || pc.LoadDown? || pc.StoreDown? || pc.TestCount? || pc.ClearOwner? {
        UnlockKeeps(s, e.t, e.heir);
      } else {
        LockKeeps(s, e.t, e.heir);
      }
    }
  }

  // ---------------------------------------------------------------- runs

  ghost predicate Run(s: State, es: seq<Event>, s': State)
    decreases |es|
  {
    if es == [] then s' == s
    else Enabled(s, es[0]) && Countable(s, es[0]) && Run(Step(s, es[0]), es[1..], s')
  }

  lemma {:induction false} RunKeeps(s: State, es: seq<Event>, s': State)
    requires Inv(s) && Run(s, es, s')
    ensures Inv(s')
    decreases |es|
  {
    if es != [] {
      StepKeeps(s, es[0]);
      RunKeeps(Step(s, es[0]), es[1..], s');
    }
  }

  ghost predicate Reachable(s: State) {
    exists s0, es :: Init(s0) && Run(s0, es, s)
  }

  lemma ReachableOk(s: State)
    requires Reachable(s)
    ensures Inv(s)
  {
    var s0, es :| Init(s0) && Run(s0, es, s);
    InitKeeps(s0);
    RunKeeps(s0, es, s);
  }

  // ---------------------------------------------------------------- what the mutex guarantees

  /** Never do two threads have the mutex locked, and who has it locked holds the inner mutex. */
  lemma MutualExclusion(s: State, t: nat, u: nat)
    requires Reachable(s) && Th(s, t).depth > 0 && Th(s, u).depth > 0
    ensures t == u && s.holder == Some(t)
  {
    ReachableOk(s);
    assert ThreadOk(s, t) && ThreadOk(s, u);
  }

  /** A thread reads its own PID from `owner` exactly if it holds the inner mutex, although the
      read is not protected. */
  lemma OwnerReadIsReliable(s: State, t: nat, heir: nat)
    requires Reachable(s) && Enabled(s, Go(t, heir)) && Th(s, t).pc.LoadOwner?
    ensures var pc := Th(Execute(s, t, heir), t).pc; pc.Decide? && (pc.seen == t <==> s.holder == Some(t))
  {
    ReachableOk(s);
    assert ThreadOk(s, t);
  }

  /** refcount is the number of the holder's unmatched locks, and 0 while the mutex is free. */
  lemma CountIsDepth(s: State)
    requires Reachable(s)
    ensures s.count == if s.holder.Some? then Th(s, s.holder.value).depth else 0
  {
    ReachableOk(s);
    if s.holder.Some? { assert ThreadOk(s, s.holder.value); }
  }

  /** Nobody waits for a mutex that nobody holds, and who waits has not locked it. */
  lemma WaitersWaitForSomebody(s: State, t: nat)
    requires Reachable(s) && Th(s, t).pc.Waiting?
    ensures s.holder.Some? && s.holder.value != t && Th(s, t).depth == 0 && s.owner != t
  {
    ReachableOk(s);
    assert ThreadOk(s, t);
  }

  /** The statements that write owner or refcount, be it the value that is there already. */
  predicate IsWrite(s: State, e: Event) {
    e.Go? && var pc := Th(s, e.t).pc; pc.StoreOwner? || pc.StoreCount? || pc.StoreDown? || pc.ClearOwner?
  }

  /** Only the thread that holds the inner mutex executes a write of owner or refcount, and nothing
      else changes them. */
  lemma OnlyTheHolderWrites(s: State, e: Event)
    requires Reachable(s) && Enabled(s, e)
    ensures IsWrite(s, e) ==> s.holder == Some(e.t)
    ensures !IsWrite(s, e) ==> Step(s, e).owner == s.owner && Step(s, e).count == s.count
  {
    ReachableOk(s);
    assert ThreadOk(s, e.t);
  }

  /** While a thread reads refcount to write it back, nobody else changes it. */
  lemma NoLostUpdate(s: State, t: nat)
    requires Reachable(s) && (Th(s, t).pc.StoreCount? || Th(s, t).pc.StoreDown?)
    ensures Th(s, t).pc.count == s.count
  {
    ReachableOk(s);
    assert ThreadOk(s, t);
  }

  /** rmutex_unlock fails its assertions exactly for a caller that has not locked the mutex. */
  lemma UnlockFailsForOthers(s: State, t: nat, heir: nat)
    requires Reachable(s) && Enabled(s, Go(t, heir)) && (Th(s, t).pc.CheckOwner? || Th(s, t).pc.CheckCount?)
    ensures Th(Execute(s, t, heir), t).pc.Failed? <==> Th(s, t).depth == 0
  {
    ReachableOk(s);
    assert ThreadOk(s, t);
  }

  /** The inner mutex is released by the unlock that matches the first lock, and by no other. */
  lemma LastUnlockReleases(s: State, t: nat, heir: nat)
    requires Reachable(s) && Enabled(s, Go(t, heir)) && Th(s, t).pc.TestCount?
    ensures Th(Execute(s, t, heir), t).pc == if Th(s, t).depth == 0 then ClearOwner else Outside
  {
    ReachableOk(s);
    assert ThreadOk(s, t);
  }

  /** _lock returns 1 with the mutex locked once more, and 0 only to a thread that has not locked it. */
  lemma LockReturns(s: State, t: nat, heir: nat)
    requires Reachable(s) && Enabled(s, Go(t, heir)) && Countable(s, Go(t, heir))
    requires Th(s, t).pc.StoreCount? || (Th(s, t).pc.Decide? && Th(s, t).pc.trylock && Th(s, t).pc.seen != t)
    ensures var s' := Execute(s, t, heir);
            && Th(s', t).pc == Outside && Th(s', t).depth == Th(s, t).depth + Th(s', t).ret
            && (Th(s', t).ret == 1 ==> s'.holder == Some(t) && s'.owner == t && s'.count == Th(s', t).depth)
            && (Th(s', t).ret == 0 ==> Th(s', t).depth == 0 && s'.holder != Some(t))
  {
    ReachableOk(s);
    assert ThreadOk(s, t);
  }

  /** refcount cannot count more than 65535 locks: the next one makes it 0, and that is exactly
      when a lock breaks the invariant. */
  lemma OverflowBreaks(s: State, t: nat, heir: nat)
    requires Reachable(s) && Enabled(s, Go(t, heir)) && Th(s, t).pc.StoreCount?
    ensures Inv(Execute(s, t, heir)) <==> s.count < COUNTS - 1
    ensures s.count == COUNTS - 1 ==> Execute(s, t, heir).count == 0 && Th(Execute(s, t, heir), t).depth == COUNTS
  {
    ReachableOk(s);
    assert ThreadOk(s, t);
    if s.count < COUNTS - 1 { StepKeeps(s, Go(t, heir)); } else { assert !ThreadOk(Execute(s, t, heir), t); }
  }

  // ---------------------------------------------------------------- the overflow happens

  const START := State(UNDEF, 0, None, {}, map[])
  const GO := Go(1, 0)
  /** One call of rmutex_lock by thread 1, up to the write of refcount: the first, and any later one. */
  const FIRST_LOCK := [BeginLock(1, false), GO, GO, GO]
  const NEXT_LOCK := [BeginLock(1, false), GO, GO, GO, GO, GO]

  /** Only thread 1 has called anything so far. */
  function Solo(owner: nat, count: nat, holder: Option<nat>, th: Thread): State {
    State(owner, count, holder, {}, map[1 := th])
  }

  /** Thread 1 has locked the mutex n times. */
  function LockedBy1(n: nat): State {
    Solo(1, n, Some(1), Thread(Outside, n, 1))
  }

  function AboutToStore(n: nat, ret: nat): State {
    Solo(1, n, Some(1), Thread(StoreCount(n), n, ret))
  }

  /** n calls of rmutex_lock. */
  function Locks(n: nat): seq<Event>
    requires n > 0
  {
    if n == 1 then FIRST_LOCK + [GO] else Locks(n - 1) + NEXT_LOCK + [GO]
  }

  lemma {:induction false} RunsOn(s: State, es: seq<Event>, s1: State, fs: seq<Event>, s2: State)
    requires Run(s, es, s1) && Run(s1, fs, s2)
    ensures Run(s, es + fs, s2)
    decreases |es|
  {
    if es == [] {
      assert es + fs == fs;
    } else {
      RunsOn(Step(s, es[0]), es[1..], s1, fs, s2);
      assert (es + fs)[0] == es[0] && (es + fs)[1..] == es[1..] + fs;
    }
  }

  lemma RunsStep(s: State, es: seq<Event>, s1: State, e: Event)
    requires Run(s, es, s1) && Enabled(s1, e) && Countable(s1, e)
    ensures Run(s, es + [e], Step(s1, e))
  {
    assert [e][1..] == [] && Run(Step(s1, e), [], Step(s1, e));
    RunsOn(s, es, s1, [e], Step(s1, e));
  }

  /** One more step, of thread 1. */
  lemma SoloStep(s: State, es: seq<Event>, s1: State, e: Event, s2: State)
    requires Run(s, es, s1) && Enabled(s1, e) && Countable(s1, e) && s2.threads.Keys == {1} &&
        Step(s1, e).threads.Keys == {1}
    requires Step(s1, e).threads[1] == s2.threads[1] && Step(s1, e).(threads := map[]) == s2.(threads := map[])
    ensures Run(s, es + [e], s2)
  {
    assert Step(s1, e).threads == s2.threads;
    RunsStep(s, es, s1, e);
  }

  lemma FirstLock()
    ensures Run(START, FIRST_LOCK, AboutToStore(0, 0))
  {
    var s1 := Solo(UNDEF, 0, None, Thread(TryMutex(false), 0, 0));
    var s2 := Solo(UNDEF, 0, Some(1), Thread(StoreOwner, 0, 0));
    var s3 := Solo(1, 0, Some(1), Thread(LoadCount, 0, 0));
    SoloStep(START, [], START, BeginLock(1, false), s1);
    SoloStep(START, [] + [BeginLock(1, false)], s1, GO, s2);
    SoloStep(START, [] + [BeginLock(1, false)] + [GO], s2, GO, s3);
    SoloStep(START, [] + [BeginLock(1, false)] + [GO] + [GO], s3, GO, AboutToStore(0, 0));
    assert [] + [BeginLock(1, false)] + [GO] + [GO] + [GO] == FIRST_LOCK;
  }

  lemma NextLock(n: nat)
    requires n > 0
    ensures Run(LockedBy1(n), NEXT_LOCK, AboutToStore(n, 1))
  {
    var s0 := LockedBy1(n);
    var s1 := Solo(1, n, Some(1), Thread(TryMutex(false), n, 1));
    var s2 := Solo(1, n, Some(1), Thread(LoadOwner(false), n, 1));
    var s3 := Solo(1, n, Some(1), Thread(Decide(false, 1), n, 1));
    SoloStep(s0, [], s0, BeginLock(1, false), s1);
    SoloStep(s0, [] + [BeginLock(1, false)], s1, GO, s2);
    SoloStep(s0, [] + [BeginLock(1, false)] + [GO], s2, GO, s3);
    LockGoesOn(n, [] + [BeginLock(1, false)] + [GO] + [GO], s3);
    assert [] + [BeginLock(1, false)] + [GO] + [GO] + [GO] + [GO] + [GO] == NEXT_LOCK;
  }

  lemma LockGoesOn(n: nat, es: seq<Event>, s3: State)
    requires s3 == Solo(1, n, Some(1), Thread(Decide(false, 1), n, 1)) && Run(LockedBy1(n), es, s3)
    ensures Run(LockedBy1(n), es + [GO] + [GO] + [GO], AboutToStore(n, 1))
  {
    var s4 := Solo(1, n, Some(1), Thread(StoreOwner, n, 1));
    var s5 := Solo(1, n, Some(1), Thread(LoadCount, n, 1));
    SoloStep(LockedBy1(n), es, s3, GO, s4);
    SoloStep(LockedBy1(n), es + [GO], s4, GO, s5);
    SoloStep(LockedBy1(n), es + [GO] + [GO], s5, GO, AboutToStore(n, 1));
  }

  lemma {:induction false} LocksNest(n: nat)
    requires 0 < n < COUNTS
    ensures Run(START, Locks(n), LockedBy1(n))
    decreases n
  {
    if n == 1 {
      FirstLock();
      SoloStep(START, FIRST_LOCK, AboutToStore(0, 0), GO, LockedBy1(1));
    } else {
      LocksNest(n - 1);
      NextLock(n - 1);
      RunsOn(START, Locks(n - 1), LockedBy1(n - 1), NEXT_LOCK, AboutToStore(n - 1, 1));
      SoloStep(START, Locks(n - 1) + NEXT_LOCK, AboutToStore(n - 1, 1), GO, LockedBy1(n));
    }
  }

  /** One thread that nests 65536 locks gets there: the last one makes refcount 0. */
  lemma OverflowHappens()
    ensures var s := AboutToStore(COUNTS - 1, 1);
            && Init(START) && Run(START, Locks(COUNTS - 1) + NEXT_LOCK, s) && Enabled(s, GO)
            && Step(s, GO).count == 0 && Th(Step(s, GO), 1).depth == COUNTS && !Inv(Step(s, GO))
  {
    LocksNest(COUNTS - 1);
    NextLock(COUNTS - 1);
    RunsOn(START, Locks(COUNTS - 1), LockedBy1(COUNTS - 1), NEXT_LOCK, AboutToStore(COUNTS - 1, 1));
    assert Reachable(AboutToStore(COUNTS - 1, 1));
    OverflowBreaks(AboutToStore(COUNTS - 1, 1), 1, 0);
  }
}
