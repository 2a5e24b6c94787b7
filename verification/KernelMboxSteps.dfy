/** The steps of mbox.c keep the invariant. */
module KernelMboxSteps {
  import opened KernelTypes
  import opened KernelSpec
  import opened KernelLinks
  import opened KernelInv
  import opened KernelCore
  import opened KernelMessages
  import opened KernelSched
  import opened KernelState
  import opened KernelSteps
  import opened KernelSteady
  import opened KernelThreadSteps
  import opened KernelSyncSteps
  import opened KernelMsgSteps

  /** Steady, but for the mailboxes. */
  ghost predicate SteadyElsewhere(k: Core, k': Core) {
    && |k'.ts| == |k.ts| && k.clock <= k'.clock
    && (forall m: nat {:trigger L(k', MutexQ(m))} :: L(k', MutexQ(m)) == L(k, MutexQ(m)))
    && (forall t: Tid {:trigger T(k', t)} :: T(k', t).sent == T(k, t).sent && CancelSteady(T(k, t), T(k', t)))
  }

  lemma MboxRest(s: State, s': State)
    requires RestOk(s) && SteadyElsewhere(s.k, s'.k) && MboxesOk(s')
    requires s'.locked == s.locked && s'.grants == s.grants && s'.releases == s.releases && s'.cancels == s.cancels
    requires BoxesSteady(s, s')
    ensures RestOk(s')
  {
    assert forall t: Tid :: CancelSteady(T(s.k, t), T(s'.k, t));
    SteadyKeepsRetries(s, s');
    SteadyKeepsSerials(s.k, s'.k);
    SteadyKeepsCancels(s, s');
    forall m: nat ensures MutexOk(s', m) { assert MutexOk(s, m) && L(s'.k, MutexQ(m)) == L(s.k, MutexQ(m)); }
  }

  /** Only mailbox b and its list of readers change. */
  lemma OneMbox(s: State, s': State, b: nat)
    requires MboxesOk(s) && b in s.mboxes && b in s'.mboxes && s'.mboxes == s.mboxes[b := s'.mboxes[b]]
    requires forall i: nat {:trigger L(s'.k, Readers(i))} :: i != b ==> L(s'.k, Readers(i)) == L(s.k, Readers(i))
    requires MboxOk(s', b)
    ensures MboxesOk(s')
  {
    forall i | i in s'.mboxes ensures MboxOk(s', i) {
      if i != b { assert MboxOk(s, i) && L(s'.k, Readers(i)) == L(s.k, Readers(i)); }
    }
  }

  // ---------------------------------------------------------------- storing

  lemma StoredOk(s: State, s': State, b: nat, m: Msg)
    requires MboxesOk(s) && b in s.mboxes && |s.mboxes[b].ring| < s.mboxes[b].cap
    requires L(s.k, Readers(b)) == [] || s.mboxes[b].waited
    requires s'.mboxes == s.mboxes[b := Stored(s.mboxes[b], m, L(s.k, Readers(b)) != [])] && s'.k == Tick(s.k)
    ensures MboxesOk(s')
  {
    var mb := s.mboxes[b];
    assert MboxOk(s, b);
    assert forall l :: L(s'.k, l) == L(s.k, l);
    assert mb.taken + (mb.ring + [m]) == mb.taken + mb.ring + [m];
    OneMbox(s, s', b);
  }

  lemma StoreKeeps(s: State, b: nat, m: Msg)
    requires Inv(s) && b in s.mboxes && |s.mboxes[b].ring| < s.mboxes[b].cap
    requires L(s.k, Readers(b)) == [] || s.mboxes[b].waited
    ensures Inv(s.(k := Tick(s.k), mboxes := s.mboxes[b := Stored(s.mboxes[b], m, L(s.k, Readers(b)) != [])], ret := 1))
  {
    var s' := s.(k := Tick(s.k), mboxes := s.mboxes[b := Stored(s.mboxes[b], m, L(s.k, Readers(b)) != [])], ret := 1);
    TickOk(s.k);
    TickSteady(s.k);
    StoredOk(s, s', b, m);
    MboxRest(s, s');
    LivesKeepPids(s, s');
    LivesKeepActive(s, s');
    if !s.idle && s.active.Some? && !(s.isr && s.request) { TickDebt(s.k, s.request, s.active.value); }
  }

  lemma MboxBlockEffect(k: Core, a: Tid, l: ListId, rest: Act)
    requires MayBlock(k, a) && (l.Readers? || l.Writers?) && !rest.CheckCancel? && !rest.RetryPut?
    requires rest.GotMail? ==> T(k, a).mail == None
    ensures var k' := MboxBlock(k, a, l, rest);
            && SteadyElsewhere(k, k') && T(k', a).todo == [YieldRoundRobin, rest]
            && (forall b: nat {:trigger L(k', Readers(b))} :: l != Readers(b) ==> L(k', Readers(b)) == L(k, Readers(b)))
  {
    EnlistEffect(k, a, MboxBlocked, l);
    assert [YieldRoundRobin, rest] + [] == [YieldRoundRobin, rest];
  }

  /** The state after a put found the ring full and waits. */
  function PutBlocked(s: State, a: Tid, b: nat, value: int): State
    requires b in s.mboxes
  {
    s.(k := MboxBlock(s.k, a, Writers(b), RetryPut(b, value)), mboxes := s.mboxes[b := s.mboxes[b].(waited := true)],
       ret := 0)
  }

  lemma PutBlockRest(s: State, a: Tid, b: nat, value: int)
    requires RestOk(s) && MayBlock(s.k, a) && b in s.mboxes
    ensures RestOk(PutBlocked(s, a, b, value))
  {
    var s' := PutBlocked(s, a, b, value);
    PutBlockEffect(s.k, a, b, value);
    assert MboxOk(s, b) && L(s'.k, Readers(b)) == L(s.k, Readers(b));
    OneMbox(s, s', b);
    SteadyKeepsSerials(s.k, s'.k);
    SteadyKeepsCancels(s, s');
    forall m: nat ensures MutexOk(s', m) { assert MutexOk(s, m) && L(s'.k, MutexQ(m)) == L(s.k, MutexQ(m)); }
    PutBlockRetries(s, s', a, b);
  }

  lemma PutBlockRetries(s: State, s': State, a: Tid, b: nat)
    requires RetriesOk(s) && MailsOk(s) && OnlyThread(s.k, s'.k, a) && b in s.mboxes
    requires T(s'.k, a).todo != [] && End(T(s'.k, a)).RetryPut? && End(T(s'.k, a)).mbox == b
    requires s'.mboxes == s.mboxes[b := s.mboxes[b].(waited := true)]
    ensures RetriesOk(s') && MailsOk(s')
  {
  }

  lemma PutBlockEffect(k: Core, a: Tid, b: nat, value: int)
    requires MayBlock(k, a)
    ensures var k' := MboxBlock(k, a, Writers(b), RetryPut(b, value));
            && OnlyThread(k, k', a) && k.clock <= k'.clock && SameQueues(k, k')
            && T(k', a).todo == [YieldRoundRobin, RetryPut(b, value)] && T(k', a).sent == T(k, a).sent
            && forall t: Tid {:trigger T(k', t)} :: T(k', t).sent == T(k, t).sent
  {
    EnlistEffect(k, a, MboxBlocked, Writers(b));
    assert [YieldRoundRobin, RetryPut(b, value)] + [] == [YieldRoundRobin, RetryPut(b, value)];
  }

  lemma PutBlockKeeps(s: State, a: Tid, b: nat, value: int)
    requires Inv(s) && Calling(s) && s.active == Some(a) && b in s.mboxes
    ensures Inv(PutBlocked(s, a, b, value))
  {
    var s' := PutBlocked(s, a, b, value);
    CallerIsSettled(s);
    MboxBlockOk(s.k, a, Writers(b), RetryPut(b, value));
    PutBlockEffect(s.k, a, b, value);
    PutBlockRest(s, a, b, value);
    LivesKeepPids(s, s');
    LivesKeepActive(s, s');
    OwedYieldSuffices(s, s');
  }

  lemma PutLoopKeeps(s: State, b: nat, value: int, blocking: bool)
    requires Inv(s) && b in s.mboxes && (blocking ==> Calling(s))
    requires L(s.k, Readers(b)) == [] || s.mboxes[b].waited
    ensures Inv(PutLoop(s, b, value, blocking))
  {
    var mb := s.mboxes[b];
    if |mb.ring| >= mb.cap {
      if blocking { PutBlockKeeps(s, s.active.value, b, value); } else { SameRecords(s, s.(ret := 0)); }
    } else {
      StoreKeeps(s, b, Msg(s.activePid, value, Author(s), s.k.clock));
    }
  }

  // ---------------------------------------------------------------- handing over

  lemma HandedReader(t: Tid, x: Tcb, m: Msg)
    requires OwnOk(t, x) && x.status == MboxBlocked
    ensures var y := x.(wait := Buffer(m), mail := Some(m)); Shape(y.todo) && (y.todo != [] ==> Fulfilled(y, End(y)))
  {
  }

  lemma HandOverCore(k: Core, b: nat, m: Msg)
    requires CoreOk(k) && L(k, Readers(b)) != []
    ensures var t := L(k, Readers(b))[0]; var k1 := RemoveHead(Tick(k), Readers(b));
            && t < |k.ts| && T(k, t).status == MboxBlocked && T(k, t).loc == Some(Readers(b))
            && LinksBut(SetT(k1, t, T(k1, t).(wait := Buffer(m), mail := Some(m))), Some(t))
            && T(k1, t) == T(k, t).(loc := None)
  {
    var t := L(k, Readers(b))[0];
    var k0 := Tick(k);
    WaitersBlocked(k, Readers(b), t);
    assert StatusFits(T(k, t));
    TickOk(k);
    assert L(k0, Readers(b)) == L(k, Readers(b)) && T(k0, t) == T(k, t);
    RemoveHeadUnlinks(k0, Readers(b));
    var k1 := RemoveHead(k0, Readers(b));
    UpdateKeepsLinks(k1, t, T(k1, t).(wait := Buffer(m), mail := Some(m)), Some(t));
  }

  lemma HandOverOk(k: Core, b: nat, m: Msg)
    requires CoreOk(k) && L(k, Readers(b)) != []
    ensures CoreOk(HandOver(k, b, m)) && SameLives(k, HandOver(k, b, m))
  {
    var t := L(k, Readers(b))[0];
    var k1 := RemoveHead(Tick(k), Readers(b));
    ReaderReady(k, b, m);
    CompleteAndWake(Tick(k), SetT(k1, t, T(k1, t).(wait := Buffer(m), mail := Some(m))), t, Pending);
    HandOverLives(k, b, m);
  }

  lemma ReaderReady(k: Core, b: nat, m: Msg)
    requires CoreOk(k) && L(k, Readers(b)) != []
    ensures var t := L(k, Readers(b))[0]; var k0 := Tick(k); var k1 := RemoveHead(k0, Readers(b));
            var k2 := SetT(k1, t, T(k1, t).(wait := Buffer(m), mail := Some(m))); var y := T(k2, t);
            && CoreOk(k0) && t < |k0.ts| && !OnRunqueue(y.status) && LinksBut(k2, Some(t))
            && OnlyThread(k0, k2, t) && SameSenders(k0, k2)
            && y.loc == None && SameMessages(T(k0, t), y) && Shape(y.todo) && (y.todo != [] ==> Fulfilled(y, End(y)))
            && T(k0, t).loc == Some(Readers(b))
  {
    var t := L(k, Readers(b))[0];
    HandOverCore(k, b, m);
    assert OwnOk(t, T(k, t));
    HandedReader(t, T(k, t), m);
    TickOk(k);
    assert T(Tick(k), t) == T(k, t) && L(Tick(k), Readers(b)) == L(k, Readers(b));
  }

  lemma HandOverLives(k: Core, b: nat, m: Msg)
    requires CoreOk(k) && L(k, Readers(b)) != []
    ensures SameLives(k, HandOver(k, b, m))
  {
    var t := L(k, Readers(b))[0];
    var k1 := RemoveHead(Tick(k), Readers(b));
    assert ListOk(k, Readers(b)) && StatusFits(T(k, t)) && T(Tick(k), t) == T(k, t) &&
      L(Tick(k), Readers(b)) == L(k, Readers(b));
    WakeEffect(SetT(k1, t, T(k1, t).(wait := Buffer(m), mail := Some(m))), t, Pending);
  }

  lemma HandOverWakes(k: Core, b: nat, m: Msg, a: Tid)
    requires CoreOk(k) && L(k, Readers(b)) != []
    ensures Wakes(k, HandOver(k, b, m), T(k, L(k, Readers(b))[0]).prio, a)
  {
    var t := L(k, Readers(b))[0];
    var k1 := RemoveHead(Tick(k), Readers(b));
    HandOverCore(k, b, m);
    HeadGoneSameRun(k, b, a);
    SameRunRecord(k, k1, t, T(k1, t).(wait := Buffer(m), mail := Some(m)), a);
    CompleteWakes(k, SetT(k1, t, T(k1, t).(wait := Buffer(m), mail := Some(m))), t, Pending, a);
  }

  lemma HeadGoneSameRun(k: Core, b: nat, a: Tid)
    ensures SameRun(k, RemoveHead(Tick(k), Readers(b)), a)
  {
    assert forall u: Tid :: T(Tick(k), u) == T(k, u);
    assert forall l :: L(Tick(k), l) == L(k, l);
  }

  lemma HandOverEffect(k: Core, b: nat, m: Msg)
    requires CoreOk(k) && L(k, Readers(b)) != []
    ensures var k' := HandOver(k, b, m); var t := L(k, Readers(b))[0];
            && OnlyThread(k, k', t) && k'.clock == k.clock + 2
            && (forall l: ListId {:trigger L(k', l)} :: !l.Rq? ==> L(k', l) == if l == Readers(b) then L(k, l)[1..]
               else L(k, l))
            && T(k', t) == Linked(T(k, t), Rq(T(k, t).prio), k.clock + 1).(status := Pending, wait := Buffer(m),
               mail := Some(m))
  {
    var t := L(k, Readers(b))[0];
    var k0 := Tick(k);
    var k1 := RemoveHead(k0, Readers(b));
    var k2 := SetT(k1, t, T(k1, t).(wait := Buffer(m), mail := Some(m)));
    HandOverCore(k, b, m);
    assert forall u: Tid :: T(k0, u) == T(k, u);
    assert forall l :: L(k0, l) == L(k, l);
    assert OnlyThread(k, k2, t) && T(k2, t) == T(k, t).(loc := None, wait := Buffer(m), mail := Some(m));
    assert forall l :: L(k2, l) == if l == Readers(b) then L(k, l)[1..] else L(k, l);
    PushedEffect(k2, t, Pending);
  }

  lemma PushedEffect(k: Core, t: Tid, status: Status)
    requires t < |k.ts| && !OnRunqueue(T(k, t).status) && OnRunqueue(status)
    ensures var k' := SetStatus(k, t, status);
            && OnlyThread(k, k', t) && k'.clock == k.clock + 1
            && T(k', t) == Linked(T(k, t), Rq(T(k, t).prio), k.clock).(status := status)
            && (forall l: ListId {:trigger L(k', l)} :: !l.Rq? ==> L(k', l) == L(k, l))
  {
  }

  lemma HandOverSteady(k: Core, b: nat, m: Msg)
    requires CoreOk(k) && L(k, Readers(b)) != []
    ensures var k' := HandOver(k, b, m);
            && |k'.ts| == |k.ts| && k.clock <= k'.clock
            && (forall i: nat {:trigger L(k', MutexQ(i))} :: L(k', MutexQ(i)) == L(k, MutexQ(i)))
            && (forall t: Tid {:trigger T(k', t)} :: T(k', t).sent == T(k, t).sent && StandSteady(T(k, t), T(k', t)))
    ensures forall i: nat {:trigger L(HandOver(k, b, m), Readers(i))} :: i != b ==>
              L(HandOver(k, b, m), Readers(i)) == L(k, Readers(i))
  {
    var t := L(k, Readers(b))[0];
    HandOverEffect(k, b, m);
    HandOverCore(k, b, m);
    assert OwnOk(t, T(k, t));
  }

  lemma HandedMbox(s: State, s1: State, b: nat, m: Msg)
    requires MboxesOk(s) && b in s.mboxes && L(s.k, Readers(b)) != []
    requires s1.mboxes == s.mboxes[b := Passed(s.mboxes[b], m, L(s.k, Readers(b))[0])]
    requires forall i: nat {:trigger L(s1.k, Readers(i))} :: i != b ==> L(s1.k, Readers(i)) == L(s.k, Readers(i))
    ensures MboxesOk(s1)
  {
    var mb := s.mboxes[b];
    assert MboxOk(s, b);
    if !mb.overtaken { assert mb.taken + [] + [m] == mb.taken + [m] + []; }
    OneMbox(s, s1, b);
  }

  /** The reader has exactly the message that was delivered to it last. */
  lemma HandedMails(s: State, s1: State, b: nat, m: Msg)
    requires RetriesOk(s) && MailsOk(s) && Links(s.k) && b in s.mboxes && L(s.k, Readers(b)) != []
    requires s1.k == HandOver(s.k, b, m) && s1.mboxes == s.mboxes[b := Passed(s.mboxes[b], m, L(s.k, Readers(b))[0])]
    requires |s.mboxes[b].takers| == |s.mboxes[b].taken| && OwnOk(L(s.k, Readers(b))[0], T(s.k, L(s.k, Readers(b))[0]))
    requires var t := L(s.k, Readers(b))[0];
             OnlyThread(s.k, s1.k, t) && T(s1.k, t).todo == T(s.k, t).todo && T(s1.k, t).mail == Some(m)
             && T(s.k, t).status == MboxBlocked && T(s.k, t).loc == Some(Readers(b))
    ensures RetriesOk(s1) && MailsOk(s1)
  {
    var r := L(s.k, Readers(b))[0];
    var was, now := s.mboxes[b], s1.mboxes[b];
    assert now.taken[..|now.taken| - 1] == was.taken && now.takers[..|now.takers| - 1] == was.takers;
    forall t: Tid | t < |s1.k.ts| && T(s1.k, t).todo != [] && End(T(s1.k, t)).GotMail? && T(s1.k, t).mail.Some?
      ensures var i := End(T(s1.k, t)).mbox; i in s1.mboxes && LastMail(s1.mboxes[i], t) == T(s1.k, t).mail
    {
      if t == r {
        assert WaitsForMbox(T(s.k, r).loc, End(T(s.k, r)));
        assert LastMail(now, r) == Some(m);
      } else {
        assert T(s1.k, t) == T(s.k, t) && LastMail(now, t) == LastMail(was, t);
      }
    }
  }

  lemma HandedRest(s: State, s1: State, b: nat, m: Msg)
    requires Inv(s) && b in s.mboxes && L(s.k, Readers(b)) != [] && MboxesOk(s1)
    requires s1 == s.(k := HandOver(s.k, b, m),
        mboxes := s.mboxes[b := Passed(s.mboxes[b], m, L(s.k, Readers(b))[0])], ret := s1.ret)
    ensures RestOk(s1)
  {
    var t := L(s.k, Readers(b))[0];
    HandOverEffect(s.k, b, m);
    HandOverCore(s.k, b, m);
    HandOverSteady(s.k, b, m);
    assert OwnOk(t, T(s.k, t)) && MboxOk(s, b);
    HandedMails(s, s1, b, m);
    SteadyKeepsSerials(s.k, s1.k);
    SteadyKeepsCancels(s, s1);
    forall i: nat ensures MutexOk(s1, i) { assert MutexOk(s, i) && L(s1.k, MutexQ(i)) == L(s.k, MutexQ(i)); }
  }

  lemma HandOverKeeps(s: State, b: nat, m: Msg)
    requires Inv(s) && MayCall(s) && b in s.mboxes && L(s.k, Readers(b)) != []
    ensures var mb := s.mboxes[b];
            Inv(Then(s.(k := HandOver(s.k, b, m), mboxes := s.mboxes[b := Passed(mb, m, L(s.k, Readers(b))[0])],
                        ret := 1), Switch(T(s.k, L(s.k, Readers(b))[0]).prio)))
  {
    var mb := s.mboxes[b];
    var s1 := s.(k := HandOver(s.k, b, m), mboxes := s.mboxes[b := Passed(mb, m, L(s.k, Readers(b))[0])], ret := 1);
    var p := T(s.k, L(s.k, Readers(b))[0]).prio;
    HandOverOk(s.k, b, m);
    HandOverSteady(s.k, b, m);
    if s.active.Some? { HandOverWakes(s.k, b, m, s.active.value); }
    HandedMbox(s, s1, b, m);
    HandedRest(s, s1, b, m);
    MboxSwitchKeeps(s, s1, p);
  }

  /** A mailbox call has woken a thread, and a switch to its priority is asked for. */
  lemma MboxSwitchKeeps(s: State, s1: State, p: nat)
    requires Inv(s) && MayCall(s) && SameContext(s, s1) && CoreOk(s1.k) && SameLives(s.k, s1.k) && s1.pids == s.pids
    requires RestOk(s1) && (s.active.Some? ==> Wakes(s.k, s1.k, p, s.active.value))
    ensures Inv(Then(s1, Switch(p)))
  {
    LivesKeepPids(s, s1);
    LivesKeepActive(s, s1);
    SwitchSuffices(s, s1, p);
    CallerNotSendBlocked(s);
    assert s.active.Some? ==>
      (OnRunqueue(T(s.k, s.active.value).status) ==> OnRunqueue(T(s1.k, s.active.value).status));
    FinishThen(s1, Switch(p));
  }

  lemma MboxPutKeeps(s: State, b: nat, value: int, blocking: bool)
    requires Inv(s) && MayCall(s) && b in s.mboxes && (blocking ==> Calling(s))
    ensures Inv(MboxPut(s, b, value, blocking))
  {
    if L(s.k, Readers(b)) == [] {
      PutLoopKeeps(s, b, value, blocking);
    } else {
      HandOverKeeps(s, b, Msg(0, value, Author(s), s.k.clock));
    }
  }

  // ---------------------------------------------------------------- getting

  lemma TakenMbox(s: State, s1: State, b: nat)
    requires MboxesOk(s) && b in s.mboxes && s.mboxes[b].ring != [] && SameQueues(s.k, s1.k)
    requires var mb := s.mboxes[b]; s1.mboxes == s.mboxes[b := Emptied(mb, Author(s))]
    ensures MboxesOk(s1)
  {
    var mb := s.mboxes[b];
    assert MboxOk(s, b);
    assert mb.ring == [mb.ring[0]] + mb.ring[1..];
    assert mb.taken + ([mb.ring[0]] + mb.ring[1..]) == mb.taken + [mb.ring[0]] + mb.ring[1..];
    assert L(s1.k, Readers(b)) == L(s.k, Readers(b));
    OneMbox(s, s1, b);
  }

  /** The state after a message was taken off the ring, and a writer woken. */
  function Drawn(s: State, b: nat): State
    requires b in s.mboxes && s.mboxes[b].ring != []
  {
    var mb := s.mboxes[b];
    s.(k := WakeHead(s.k, Writers(b)), mboxes := s.mboxes[b := Emptied(mb, Author(s))],
       ret := 1, mailRet := mb.ring[0])
  }

  /** Who takes a message is in no _mbox_get that has to wait. */
  lemma DrawnBoxes(s: State, s1: State, b: nat)
    requires b in s.mboxes && s.mboxes[b].ring != [] && MayCall(s) && |s.mboxes[b].takers| == |s.mboxes[b].taken|
    requires s1.mboxes == s.mboxes[b := Emptied(s.mboxes[b], Author(s))]
    requires s.active.Some? ==> T(s1.k, s.active.value).todo == T(s.k, s.active.value).todo
    ensures BoxesSteady(s, s1)
  {
    var was, now := s.mboxes[b], s1.mboxes[b];
    assert now.taken[..|now.taken| - 1] == was.taken && now.takers[..|now.takers| - 1] == was.takers;
  }

  lemma DrawnOk(s: State, b: nat)
    requires MayCall(s)
    requires Inv(s) && b in s.mboxes && s.mboxes[b].ring != []
    ensures var s1 := Drawn(s, b); CoreOk(s1.k) && RestOk(s1) && PidsOk(s1) && SameLives(s.k, s1.k) && ActiveOk(s1)
  {
    var s1 := Drawn(s, b);
    WakeHeadOk(s.k, Writers(b));
    WakeHeadSteady(s.k, Writers(b));
    TakenMbox(s, s1, b);
    assert MboxOk(s, b);
    if L(s.k, Writers(b)) != [] { WakeHeadEffect(s.k, Writers(b)); }
    DrawnBoxes(s, s1, b);
    MboxRest(s, s1);
    LivesKeepPids(s, s1);
    LivesKeepActive(s, s1);
  }

  lemma DrawKeeps(s: State, b: nat)
    requires Inv(s) && MayCall(s) && b in s.mboxes && s.mboxes[b].ring != []
    ensures if L(s.k, Writers(b)) == [] then Inv(Drawn(s, b))
            else Inv(Then(Drawn(s, b), Switch(T(s.k, L(s.k, Writers(b))[0]).prio)))
  {
    DrawnOk(s, b);
    if L(s.k, Writers(b)) == [] {
      assert Drawn(s, b).k == s.k;
    } else {
      if s.active.Some? { WakeHeadWakes(s.k, Writers(b), s.active.value); }
      MboxSwitchKeeps(s, Drawn(s, b), T(s.k, L(s.k, Writers(b))[0]).prio);
    }
  }

  lemma ParkForMail(k: Core, a: Tid)
    requires CoreOk(k) && MayBlock(k, a)
    ensures var k1 := Park(k, a, Buffer(NO_MSG));
            && CoreOk(k1) && MayBlock(k1, a) && SameLives(k, k1) && SteadyElsewhere(k, k1)
            && (a < |k.ts| ==> T(k1, a).mail == None)
            && (forall l {:trigger L(k1, l)} :: L(k1, l) == L(k, l))
  {
    var y := T(k, a).(wait := Buffer(NO_MSG), answer := None, mail := None);
    assert OwnOk(a, T(k, a)) && StatusFits(T(k, a));
    RecordOk(k, a, y);
    RecordSteady(k, a, y);
  }

  lemma ReaderWaits(s: State, s': State, b: nat)
    requires MboxesOk(s) && b in s.mboxes && s.mboxes[b].ring == [] && s'.mboxes == s.mboxes
    requires forall i: nat {:trigger L(s'.k, Readers(i))} :: i != b ==> L(s'.k, Readers(i)) == L(s.k, Readers(i))
    ensures MboxesOk(s')
  {
    assert MboxOk(s, b);
    OneMbox(s, s', b);
  }

  lemma GetBlockKeeps(s: State, a: Tid, b: nat)
    requires Inv(s) && Calling(s) && s.active == Some(a) && b in s.mboxes && s.mboxes[b].ring == []
    ensures Inv(s.(k := MboxBlock(Park(s.k, a, Buffer(NO_MSG)), a, Readers(b), GotMail(b)), ret := 1))
  {
    var k1 := Park(s.k, a, Buffer(NO_MSG));
    var s' := s.(k := MboxBlock(k1, a, Readers(b), GotMail(b)), ret := 1);
    CallerIsSettled(s);
    ParkForMail(s.k, a);
    MboxBlockOk(k1, a, Readers(b), GotMail(b));
    MboxBlockEffect(k1, a, Readers(b), GotMail(b));
    LivesTrans(s.k, k1, s'.k);
    ReaderWaits(s, s', b);
    GetBlockSteady(s.k, k1, s'.k);
    MboxRest(s, s');
    LivesKeepPids(s, s');
    LivesKeepActive(s, s');
    OwedYieldSuffices(s, s');
  }

  lemma GetBlockSteady(k: Core, k1: Core, k2: Core)
    requires SteadyElsewhere(k, k1) && SteadyElsewhere(k1, k2)
    ensures SteadyElsewhere(k, k2)
  {
    forall t: Tid ensures T(k2, t).sent == T(k, t).sent && CancelSteady(T(k, t), T(k2, t)) {
      assert T(k1, t).sent == T(k, t).sent && CancelSteady(T(k, t), T(k1, t));
    }
    forall m: nat ensures L(k2, MutexQ(m)) == L(k, MutexQ(m)) { assert L(k1, MutexQ(m)) == L(k, MutexQ(m)); }
  }

  lemma MboxGetKeeps(s: State, b: nat, blocking: bool)
    requires Inv(s) && MayCall(s) && b in s.mboxes && (blocking ==> Calling(s))
    ensures Inv(MboxGet(s, b, blocking))
  {
    if s.mboxes[b].ring != [] {
      DrawKeeps(s, b);
    } else if blocking {
      GetBlockKeeps(s, s.active.value, b);
    } else {
      SameRecords(s, s.(ret := 0));
    }
  }

  lemma InitMboxRest(s: State, b: nat, cap: nat)
    requires RestOk(s) && b !in s.mboxes
    ensures RestOk(InitMbox(s, b, cap))
  {
    var s' := InitMbox(s, b, cap);
    forall i | i in s'.mboxes ensures MboxOk(s', i) {
      if i != b { assert MboxOk(s, i); }
    }
    assert Steady(s.k, s.k);
    MboxRest(s, s');
  }

  lemma InitMboxKeeps(s: State, b: nat, cap: nat)
    requires Inv(s) && b !in s.mboxes
    ensures Inv(InitMbox(s, b, cap))
  {
    InitMboxRest(s, b, cap);
    assert InitMbox(s, b, cap).k == s.k;
  }

  /** A writer that has waited for room tries again. */
  lemma RetryKeeps(s: State, a: Tid)
    requires Inv(s) && MayResume(s, a) && T(s.k, a).todo[0].RetryPut?
    ensures Inv(Resume(s, a))
  {
    LastActKeeps(s, a);
    var s1 := PoppedState(s, a);
    var act := T(s.k, a).todo[0];
    if act.mbox in s.mboxes { PutLoopKeeps(s1, act.mbox, act.value, true); }
  }
}
