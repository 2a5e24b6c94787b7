/** What the calls of a recursive mutex return and leave behind, from their first statement to their
    last, whatever other threads do in between. */
module RmutexCalls {
  import opened Rmutex

  // ---------------------------------------------------------------- single statements

  /** Reading another PID, rmutex_lock goes on to lock the inner mutex, and gets it or waits for it. */
  lemma LockOfAnotherWaits(s: State, t: nat, heir: nat)
    requires Reachable(s) && Enabled(s, Go(t, heir))
    ensures var pc := Th(s, t).pc; var s' := Step(s, Go(t, heir));
            && (pc.Decide? && !pc.trylock && pc.seen != t ==> Th(s', t).pc == LockMutex && s'.holder == s.holder)
            && (pc.LockMutex? && s.holder.None? ==> Th(s', t).pc == StoreOwner && s'.holder == Some(t))
            && (pc.LockMutex? && s.holder.Some? ==>
                  Th(s', t).pc == Waiting && s'.waiting == s.waiting + {t} && s'.holder == s.holder)
  {
  }

  /** Releasing the inner mutex frees it, or hands it to one of those that wait, who then has it. */
  lemma ReleaseHandsOver(s: State, t: nat, heir: nat)
    requires Reachable(s) && Enabled(s, Go(t, heir)) && Th(s, t).pc.Release?
    ensures var s' := Step(s, Go(t, heir));
            && Th(s', t).pc == Outside && Th(s', t).depth == 0 && s'.owner == UNDEF && s'.count == 0
            && (s.waiting == {} ==> s'.holder == None && s'.waiting == {})
            && (s.waiting != {} ==>
                  && s'.holder == Some(heir) && heir in s.waiting && s'.waiting == s.waiting - {heir}
                  && Th(s, heir).pc.Waiting? && Th(s', heir).pc == StoreOwner)
  {
    ReachableOk(s);
    assert ThreadOk(s, t);
    if s.waiting != {} { assert ThreadOk(s, heir); }
  }

  // ---------------------------------------------------------------- whole calls

  /** Thread t is in the kernel call it is in at the start, up to the last step. */
  ghost predicate Inside(s: State, es: seq<Event>, s': State, t: nat)
    requires Run(s, es, s')
    decreases |es|
  {
    es == [] || (!Th(s, t).pc.Outside? && Inside(Step(s, es[0]), es[1..], s', t))
  }

  /** t is in a call of _lock that it began with d locks. */
  predicate Locking(s: State, t: nat, trylock: bool, d: nat) {
    Th(s, t).depth == d &&
    match Th(s, t).pc
    case TryMutex(y) => y == trylock
    case LoadOwner(y) => y == trylock
    case Decide(y, _) => y == trylock
    case LockMutex => !trylock
    case Waiting => !trylock
    case StoreOwner => true
    case LoadCount => true
    case StoreCount(_) => true
    case _ => false
  }

  /** t has returned from it. */
  predicate LockEnded(s: State, t: nat, trylock: bool, d: nat) {
    && Th(s, t).pc.Outside?
    && (|| (Th(s, t).ret == 1 && Th(s, t).depth == d + 1 && s.holder == Some(t) && s.owner == t && s.count == d + 1)
        || (Th(s, t).ret == 0 && trylock && d == 0 && Th(s, t).depth == 0 && s.holder != Some(t)))
  }

  /** A step of another thread leaves t where it is, unless it hands the inner mutex to it. */
  lemma OthersLeave(s: State, e: Event, t: nat)
    requires Inv(s) && Enabled(s, e) && e.t != t
    ensures Th(Step(s, e), t) == Th(s, t)
         || (Th(s, t).pc.Waiting? && Th(Step(s, e), t) == Th(s, t).(pc := StoreOwner))
  {
    if e.Go? && Th(s, e.t).pc.Release? && s.waiting != {} { assert ThreadOk(s, e.heir); }
  }

  lemma LockingGoesOn(s: State, e: Event, t: nat, trylock: bool, d: nat)
    requires Inv(s) && Enabled(s, e) && Countable(s, e) && Locking(s, t, trylock, d)
    ensures Locking(Step(s, e), t, trylock, d) || LockEnded(Step(s, e), t, trylock, d)
  {
    assert ThreadOk(s, t);
    if e.t != t { OthersLeave(s, e, t); }
  }

  lemma {:induction false} LockEnds(s: State, es: seq<Event>, s': State, t: nat, trylock: bool, d: nat)
    requires Inv(s) && Run(s, es, s') && Inside(s, es, s', t) && Locking(s, t, trylock, d)
    ensures Locking(s', t, trylock, d) || LockEnded(s', t, trylock, d)
    decreases |es|
  {
    if es != [] {
      StepKeeps(s, es[0]);
      LockingGoesOn(s, es[0], t, trylock, d);
      if !Th(Step(s, es[0]), t).pc.Outside? {
        LockEnds(Step(s, es[0]), es[1..], s', t, trylock, d);
      } else {
        assert es[1..] == [];
      }
    }
  }

  /** A call of rmutex_lock returns only with the mutex locked once more, and rmutex_trylock, which
      never waits, also returns 0, with nothing locked; whatever the other threads do meanwhile. */
  lemma LockCallReturns(s: State, es: seq<Event>, s': State, t: nat, trylock: bool)
    requires Reachable(s) && Enabled(s, BeginLock(t, trylock))
    requires Run(Step(s, BeginLock(t, trylock)), es, s') && Inside(Step(s, BeginLock(t, trylock)), es, s', t)
    ensures var th, d := Th(s', t), Th(s, t).depth;
            && !th.pc.Failed? && (trylock ==> !th.pc.LockMutex? && !th.pc.Waiting?)
            && (th.pc.Outside? && !trylock ==> th.ret == 1)
            && (th.pc.Outside? && th.ret == 1 ==>
                  th.depth == d + 1 && s'.holder == Some(t) && s'.owner == t && s'.count == d + 1)
            && (th.pc.Outside? && th.ret != 1 ==> th.ret == 0 && th.depth == d == 0 && s'.holder != Some(t))
  {
    ReachableOk(s);
    StepKeeps(s, BeginLock(t, trylock));
    LockEnds(Step(s, BeginLock(t, trylock)), es, s', t, trylock, Th(s, t).depth);
  }

  /** t will lock the mutex, or will find that another thread has it. */
  predicate Bound(s: State, t: nat, got: bool) {
    match Th(s, t).pc
    case LoadOwner(y) => y && (s.holder == Some(t) <==> got)
    case Decide(y, seen) => y && (seen == t <==> got)
    case StoreOwner => got
    case LoadCount => got
    case StoreCount(_) => got
    case Outside => Th(s, t).ret == if got then 1 else 0
    case _ => false
  }

  lemma BoundGoesOn(s: State, e: Event, t: nat, got: bool)
    requires Inv(s) && Enabled(s, e) && Countable(s, e) && Bound(s, t, got) && !Th(s, t).pc.Outside?
    ensures Bound(Step(s, e), t, got)
  {
    assert ThreadOk(s, t) && ThreadOk(s, e.t);
    if e.Go? && e.t != t && Th(s, e.t).pc.Release? && s.waiting != {} { assert ThreadOk(s, e.heir); }
  }

  lemma {:induction false} BoundEnds(s: State, es: seq<Event>, s': State, t: nat, got: bool)
    requires Inv(s) && Run(s, es, s') && Inside(s, es, s', t) && Bound(s, t, got)
    ensures Bound(s', t, got)
    decreases |es|
  {
    if es != [] {
      StepKeeps(s, es[0]);
      BoundGoesOn(s, es[0], t, got);
      BoundEnds(Step(s, es[0]), es[1..], s', t, got);
    }
  }

  /** rmutex_trylock returns 1 exactly if the mutex was free, or the caller's own, when it tried. */
  lemma TrylockReturns(s: State, heir: nat, es: seq<Event>, s': State, t: nat)
    requires Reachable(s) && Enabled(s, Go(t, heir)) && Th(s, t).pc == TryMutex(true)
    requires Run(Step(s, Go(t, heir)), es, s') && Inside(Step(s, Go(t, heir)), es, s', t) && Th(s', t).pc.Outside?
    ensures Th(s', t).ret == if s.holder.None? || s.holder == Some(t) then 1 else 0
  {
    ReachableOk(s);
    StepKeeps(s, Go(t, heir));
    BoundEnds(Step(s, Go(t, heir)), es, s', t, s.holder.None? || s.holder == Some(t));
  }

  /** t is in a call of rmutex_unlock that it began with d locks. */
  predicate Unlocking(s: State, t: nat, d: nat) {
    match Th(s, t).pc
    case CheckOwner => Th(s, t).depth == d
    case CheckCount => Th(s, t).depth == d > 0
    case LoadDown => Th(s, t).depth == d > 0
    case StoreDown(_) => Th(s, t).depth == d > 0
    case TestCount => Th(s, t).depth + 1 == d
    case ClearOwner => Th(s, t).depth == 0 && d == 1
    case Release => Th(s, t).depth == 0 && d == 1
    case Failed => Th(s, t).depth == d == 0
    case _ => false
  }

  /** t has returned from it. */
  predicate UnlockEnded(s: State, t: nat, d: nat) {
    && Th(s, t).pc.Outside? && Th(s, t).depth + 1 == d
    && (d > 1 ==> s.holder == Some(t) && s.owner == t && s.count == d - 1)
    && (d == 1 ==> s.holder != Some(t) && s.owner != t)
  }

  lemma UnlockingGoesOn(s: State, e: Event, t: nat, d: nat)
    requires Inv(s) && Enabled(s, e) && Countable(s, e) && Unlocking(s, t, d)
    ensures Unlocking(Step(s, e), t, d) || UnlockEnded(Step(s, e), t, d)
  {
    assert ThreadOk(s, t) && ThreadOk(s, e.t);
    if e.Go? && Th(s, e.t).pc.Release? && s.waiting != {} { assert ThreadOk(s, e.heir); }
  }

  lemma {:induction false} UnlockEnds(s: State, es: seq<Event>, s': State, t: nat, d: nat)
    requires Inv(s) && Run(s, es, s') && Inside(s, es, s', t) && Unlocking(s, t, d)
    ensures Unlocking(s', t, d) || UnlockEnded(s', t, d)
    decreases |es|
  {
    if es != [] {
      StepKeeps(s, es[0]);
      UnlockingGoesOn(s, es[0], t, d);
      if !Th(Step(s, es[0]), t).pc.Outside? {
        UnlockEnds(Step(s, es[0]), es[1..], s', t, d);
      } else {
        assert es[1..] == [];
      }
    }
  }

  /** A call of rmutex_unlock undoes one lock of its caller: it keeps the mutex while locks are left,
      and gives it away with the last.  A caller without a lock never returns, and no other fails. */
  lemma UnlockCallReturns(s: State, es: seq<Event>, s': State, t: nat)
    requires Reachable(s) && Enabled(s, BeginUnlock(t))
    requires Run(Step(s, BeginUnlock(t)), es, s') && Inside(Step(s, BeginUnlock(t)), es, s', t)
    ensures var th, d := Th(s', t), Th(s, t).depth;
            && (th.pc.Failed? ==> d == 0) && (th.pc.Outside? ==> d > 0 && th.depth == d - 1)
            && (th.pc.Outside? && d > 1 ==> s'.holder == Some(t) && s'.owner == t && s'.count == d - 1)
            && (th.pc.Outside? && d == 1 ==> s'.holder != Some(t) && s'.owner != t)
  {
    ReachableOk(s);
    StepKeeps(s, BeginUnlock(t));
    UnlockEnds(Step(s, BeginUnlock(t)), es, s', t, Th(s, t).depth);
  }
}
