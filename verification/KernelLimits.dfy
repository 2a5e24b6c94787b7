/** Where the kernel calls do not keep what they are meant to keep, and exactly when. */
module KernelLimits {
  import opened KernelTypes
  import opened KernelSpec
  import opened KernelLinks
  import opened KernelInv
  import opened KernelCore
  import opened KernelMessages
  import opened KernelSched
  import opened KernelState
  import opened KernelSteps
  import opened KernelThreadSteps
  import opened KernelSyncSteps
  import opened KernelMsgSteps
  import opened KernelInvariant
  import opened KernelFrames
  import opened KernelWaking

  // ---------------------------------------------------------------- msg_send_receive

  /** The thread runs on in its own code although it is on no run queue. */
  predicate RunsOffQueue(s: State, a: Tid) {
    Calling(s) && s.active == Some(a) && !OnRunqueue(T(s.k, a).status)
  }

  /** msg_send_receive leaves its caller reply blocked while it runs on exactly if the target does
      not exist: the status was changed before the target was looked up. */
  lemma MissingTargetTakesCallerOffQueue(s: State, a: Tid, pid: nat, value: int)
    requires Reachable(s) && Calling(s) && s.active == Some(a) && pid != s.activePid
    ensures RunsOffQueue(SendReceive(s, a, pid, value), a) <==> Lookup(s, pid) == None
  {
    ReachableOk(s);
    CallerIsSettled(s);
    if Lookup(s, pid) == None {
      AskedCaller(s, a, pid, value);
    } else {
      AskingIsInCall(s, a, pid, value);
    }
  }

  lemma AskedCaller(s: State, a: Tid, pid: nat, value: int)
    requires MayBlock(s.k, a) && Calling(s) && s.active == Some(a) && Lookup(s, pid) == None
    ensures RunsOffQueue(SendReceive(s, a, pid, value), a)
  {
    BlockEffect(Tick(s.k), a, ReplyBlocked);
    assert T(Tick(s.k), a) == T(s.k, a);
  }

  lemma AskingIsInCall(s: State, a: Tid, pid: nat, value: int)
    requires Inv(s) && Calling(s) && s.active == Some(a) && pid != s.activePid && Lookup(s, pid).Some?
    ensures !RunsOffQueue(SendReceive(s, a, pid, value), a)
  {
    SendReceiveKeeps(s, a, pid, value);
    var s' := SendReceive(s, a, pid, value);
    if Calling(s') && s'.active == Some(a) { CallerIsSettled(s'); }
  }

  // ---------------------------------------------------------------- msg_reply

  /** Answering a request that has not been received yet: the thread becomes runnable while it is
      still linked among the senders. */
  lemma EarlyReplyBreaksLinks(k: Core, t: Tid, reply: Msg)
    requires Links(k) && t < |k.ts| && T(k, t).status == ReplyBlocked
    ensures Links(Answer(k, t, reply)) <==> T(k, t).loc == None
  {
    var k1 := SetT(k, t, T(k, t).(wait := Buffer(reply), answer := Some(reply)));
    if T(k, t).loc == None {
      UpdateKeepsLinks(k, t, T(k1, t), None);
      WakeLinks(k1, t, Pending);
    } else {
      assert StatusFits(T(k, t)) && TcbLinked(k, t);
      var l := T(k, t).loc.value;
      assert L(Answer(k, t, reply), l) == L(k, l);
      StillListed(k, Answer(k, t, reply), l, t);
    }
  }

  lemma StillListed(k: Core, k': Core, l: ListId, t: Tid)
    requires t in L(k, l) && L(k', l) == L(k, l) && T(k', t).loc != Some(l)
    ensures !Links(k')
  {
    var i :| 0 <= i < |L(k, l)| && L(k, l)[i] == t;
    assert L(k', l)[i] == t;
    assert !ListOk(k', l);
  }

  // ---------------------------------------------------------------- sched_change_priority

  /** A runnable thread can be given another priority only while it is the head of its run queue:
      otherwise the head, another thread, is taken out in its place. */
  lemma OnlyTheHeadCanChangePriority(k: Core, t: Tid, prio: nat)
    requires Links(k) && t < |k.ts| && OnRunqueue(T(k, t).status) && prio < LEVELS
    ensures Links(Reprioritize(k, t, prio)) <==> IsHead(k, t)
  {
    if IsHead(k, t) {
      ReprioritizeLinks(k, t, prio);
    } else {
      WrongHeadUnlinked(k, t, prio);
    }
  }

  lemma WrongHeadUnlinked(k: Core, t: Tid, prio: nat)
    requires Links(k) && t < |k.ts| && OnRunqueue(T(k, t).status) && !IsHead(k, t)
    ensures !Links(Reprioritize(k, t, prio))
  {
    var l := Rq(T(k, t).prio);
    assert TcbLinked(k, t) && StatusFits(T(k, t));
    var h := L(k, l)[0];
    ListedIsRunnable(k, T(k, t).prio, h);
    var k' := Reprioritize(k, t, prio);
    assert T(k', h) == T(k, h).(loc := None);
    assert !StatusFits(T(k', h));
  }

  // ---------------------------------------------------------------- THREAD_CREATE_WOUT_YIELD

  /** Creating a runnable thread without the final switch keeps strict priority exactly if the new
      thread is not of higher priority than the caller. */
  lemma CreateWithoutYield(k: Core, a: Tid, prio: nat, pid: nat)
    requires Settled(k, a)
    ensures Settled(Born(k, prio, pid, false), a) <==> T(k, a).prio <= prio
  {
    var k' := Born(k, prio, pid, false);
    BornLists(k, prio, pid);
    BornTouches(k, prio, pid, false, a);
    if T(k, a).prio <= prio {
      assert L(k', Rq(T(k, a).prio))[0] == a;
    } else {
      assert L(k', Rq(prio)) != [];
    }
  }

  lemma BornLists(k: Core, prio: nat, pid: nat)
    ensures var k' := Born(k, prio, pid, false);
            forall q: nat {:trigger L(k', Rq(q))} :: L(k', Rq(q)) == if q == prio then L(k, Rq(q)) + [|k.ts|]
                else L(k, Rq(q))
  {
    var k1 := AddThread(k, prio, pid);
    assert forall l :: L(k1, l) == L(k, l);
    assert T(k1, |k.ts|).prio == prio;
  }

  // ---------------------------------------------------------------- _mbox_put

  /** A put that had to wait looks at the ring again, but not at the readers: it stores a message
      without waking a waiting reader exactly if there is room and a reader waits. */
  lemma RetryLosesWakeup(s: State, a: Tid, b: nat, value: int)
    requires Reachable(s) && MayResume(s, a) && T(s.k, a).todo[0] == RetryPut(b, value)
    ensures b in s.mboxes
    ensures var s' := Step(s, Cpu(Continue));
            b in s'.mboxes &&
            (s'.mboxes[b].ring != s.mboxes[b].ring && L(s'.k, Readers(b)) != []
             <==> |s.mboxes[b].ring| < s.mboxes[b].cap && L(s.k, Readers(b)) != [])
  {
    ReachableOk(s);
    LastActKeeps(s, a);
    RetryStores(s, a, b, value);
  }

  lemma RetryStores(s: State, a: Tid, b: nat, value: int)
    requires T(s.k, a).todo != [] && T(s.k, a).todo[0] == RetryPut(b, value) && b in s.mboxes && s.active == Some(a)
    ensures var s' := Resume(s, a); var mb := s.mboxes[b];
            && b in s'.mboxes
            && (|mb.ring| < mb.cap ==>
               |s'.mboxes[b].ring| == |mb.ring| + 1 && L(s'.k, Readers(b)) == L(s.k, Readers(b)))
            && (|mb.ring| >= mb.cap ==> s'.mboxes[b].ring == mb.ring)
  {
    var s1 := PoppedState(s, a);
    assert L(s1.k, Readers(b)) == L(s.k, Readers(b));
    RetryIs(s, a, b, value);
    if |s.mboxes[b].ring| < s.mboxes[b].cap { StoreIs(s1, b, value); } else { FullIs(s1, b, value); }
  }

  lemma StoreIs(s: State, b: nat, value: int)
    requires b in s.mboxes && |s.mboxes[b].ring| < s.mboxes[b].cap
    ensures var s' := PutLoop(s, b, value, true);
            b in s'.mboxes && |s'.mboxes[b].ring| == |s.mboxes[b].ring| + 1 && L(s'.k, Readers(b)) == L(s.k, Readers(b))
  {
  }

  lemma FullIs(s: State, b: nat, value: int)
    requires b in s.mboxes && |s.mboxes[b].ring| >= s.mboxes[b].cap && s.active.Some?
    ensures var s' := PutLoop(s, b, value, true); b in s'.mboxes && s'.mboxes[b].ring == s.mboxes[b].ring
  {
  }
}
