/** What holds of every run of a mailbox: what its puts put in comes out of its gets, once each. */
module KernelMailResults {
  import opened KernelTypes
  import opened KernelSpec
  import opened KernelLinks
  import opened KernelInv
  import opened KernelSched
  import opened KernelState
  import opened KernelSteps
  import opened KernelSteady
  import opened KernelThreadSteps
  import opened KernelSyncSteps
  import opened KernelMboxSteps
  import opened KernelInvariant
  import opened KernelFrames

  /** A call of _mbox_put, or the next round of its loop. */
  datatype PutCall = PutCall(mbox: nat, value: int, again: bool)

  /** A message that a mailbox delivers, and to which thread, None being an interrupt handler. */
  datatype Mail = Mail(msg: Msg, to: Option<Tid>)

  /** The put that step e makes or goes on with. */
  function PutMade(s: State, e: Event): Option<PutCall> {
    match e
    case ForMbox(DoPut(b, v)) => Some(PutCall(b, v, false))
    case ForMbox(DoTryPut(b, v)) => Some(PutCall(b, v, false))
    case Cpu(Continue) =>
      if s.active.Some? && T(s.k, s.active.value).todo != [] && T(s.k, s.active.value).todo[0].RetryPut?
      then Some(PutCall(T(s.k, s.active.value).todo[0].mbox, T(s.k, s.active.value).todo[0].value, true))
      else None
    case _ => None
  }

  /** A reader is waiting for what this put brings. */
  predicate ForReader(s: State, c: PutCall) {
    !c.again && L(s.k, Readers(c.mbox)) != []
  }

  /** The message of a put.  A copy that goes straight to a reader keeps the sender field that the
      caller left in it. */
  function PutMsg(s: State, c: PutCall): Msg {
    Msg(if ForReader(s, c) then 0 else s.activePid, c.value, Author(s), s.k.clock)
  }

  /** What step e puts into mailbox b: the message of a put that reports 1. */
  ghost function Puts(s: State, e: Event, b: nat): seq<Msg>
    requires Enabled(s, e)
  {
    var c := PutMade(s, e);
    if c.Some? && c.value.mbox == b && b in s.mboxes && Step(s, e).ret == 1 then [PutMsg(s, c.value)] else []
  }

  predicate Gets(e: Event, b: nat) {
    e == ForMbox(DoGet(b)) || e == ForMbox(DoTryGet(b))
  }

  /** What mailbox b delivers in step e: a get copies a message out at once, or a put wakes a reader. */
  ghost function Deliveries(s: State, e: Event, b: nat): seq<Mail>
    requires Enabled(s, e)
  {
    var c := PutMade(s, e);
    if b !in s.mboxes then []
    else if Gets(e, b) && s.mboxes[b].ring != [] then [Mail(Step(s, e).mailRet, Author(s))]
    else if c.Some? && c.value.mbox == b && ForReader(s, c.value) then
      [Mail(PutMsg(s, c.value), Some(L(s.k, Readers(b))[0]))]
    else []
  }

  function Box(s: State, b: nat): Mbox {
    if b in s.mboxes then s.mboxes[b] else Mbox(0, [], [], [], [], false, false)
  }

  function Messages(ms: seq<Mail>): (r: seq<Msg>)
    ensures |r| == |ms| && forall i :: 0 <= i < |ms| ==> r[i] == ms[i].msg
  {
    seq(|ms|, i requires 0 <= i < |ms| => ms[i].msg)
  }

  function Receivers(ms: seq<Mail>): (r: seq<Option<Tid>>)
    ensures |r| == |ms| && forall i :: 0 <= i < |ms| ==> r[i] == ms[i].to
  {
    seq(|ms|, i requires 0 <= i < |ms| => ms[i].to)
  }

  /** The histories of a mailbox grow by this. */
  ghost predicate Records(x: Mbox, y: Mbox, puts: seq<Msg>, mails: seq<Mail>) {
    y.put == x.put + puts && y.taken == x.taken + Messages(mails) && y.takers == x.takers + Receivers(mails)
  }

  // ---------------------------------------------------------------- one step

  lemma NothingRecorded(x: Mbox, y: Mbox)
    requires y.put == x.put && y.taken == x.taken && y.takers == x.takers
    ensures Records(x, y, [], [])
  {
    assert Messages([]) == [] && Receivers([]) == [];
  }

  lemma PutLoopRecords(s: State, b: nat, value: int, blocking: bool)
    requires b in s.mboxes
    ensures var s' := PutLoop(s, b, value, blocking); var m := Msg(s.activePid, value, Author(s), s.k.clock);
            && Records(s.mboxes[b], Box(s', b), if s'.ret == 1 then [m] else [], [])
            && forall i: nat :: i != b ==> Box(s', i) == Box(s, i)
  {
    var s' := PutLoop(s, b, value, blocking);
    assert Messages([]) == [] && Receivers([]) == [];
    PutLoopFrame(s, b, value, blocking);
  }

  lemma PassedRecords(s: State, b: nat, value: int, blocking: bool)
    requires b in s.mboxes && L(s.k, Readers(b)) != []
    ensures var s' := MboxPut(s, b, value, blocking); var m := Msg(0, value, Author(s), s.k.clock);
            && s'.ret == 1 && Records(s.mboxes[b], Box(s', b), [m], [Mail(m, Some(L(s.k, Readers(b))[0]))])
            && forall i: nat :: i != b ==> Box(s', i) == Box(s, i)
  {
    var m := Msg(0, value, Author(s), s.k.clock);
    var t := L(s.k, Readers(b))[0];
    var s1 := s.(k := HandOver(s.k, b, m), mboxes := s.mboxes[b := Passed(s.mboxes[b], m, t)], ret := 1);
    ThenFrame(s1, Switch(T(s.k, t).prio));
    assert Messages([Mail(m, Some(t))]) == [m] && Receivers([Mail(m, Some(t))]) == [Some(t)];
  }

  /** Of the mailboxes, only b may change. */
  ghost predicate OnlyBox(s: State, s': State, b: nat) {
    forall i: nat :: i != b ==> Box(s', i) == Box(s, i)
  }

  lemma DrawRecords(s: State, b: nat, blocking: bool)
    requires b in s.mboxes && s.mboxes[b].ring != []
    ensures var s' := MboxGet(s, b, blocking); var ring := s.mboxes[b].ring;
            && s'.ret == 1 && s'.mailRet == ring[0] && Box(s', b).ring == ring[1..] && OnlyBox(s, s', b)
            && Records(s.mboxes[b], Box(s', b), [], [Mail(ring[0], Author(s))])
  {
    var s1 := Drawn(s, b);
    OneRecorded(s.mboxes[b], Box(s1, b), Mail(s.mboxes[b].ring[0], Author(s)));
    if L(s.k, Writers(b)) != [] { ThenRet(s1, Switch(T(s.k, L(s.k, Writers(b))[0]).prio)); }
  }

  lemma OneRecorded(x: Mbox, y: Mbox, mail: Mail)
    requires y.put == x.put && y.taken == x.taken + [mail.msg] && y.takers == x.takers + [mail.to]
    ensures Records(x, y, [], [mail])
  {
    assert Messages([mail]) == [mail.msg] && Receivers([mail]) == [mail.to];
  }

  lemma EmptyGetRecords(s: State, b: nat, blocking: bool)
    requires b in s.mboxes && s.mboxes[b].ring == []
    ensures var s' := MboxGet(s, b, blocking); OnlyBox(s, s', b) && Records(s.mboxes[b], Box(s', b), [], [])
  {
    NothingRecorded(s.mboxes[b], s.mboxes[b]);
  }

  lemma ThenRet(s: State, act: Act)
    ensures Then(s, act).ret == s.ret && Then(s, act).mailRet == s.mailRet && Then(s, act).mboxes == s.mboxes
  {
  }

  lemma OtherRecords(s: State, e: MboxCall, b: nat)
    requires MboxEnabled(s, e) && !e.DoInitMbox? && e.mbox != b && OnlyBox(s, MboxStep(s, e), e.mbox)
    ensures Records(Box(s, b), Box(MboxStep(s, e), b), Puts(s, ForMbox(e), b), Deliveries(s, ForMbox(e), b))
  {
    NothingRecorded(Box(s, b), Box(s, b));
  }

  lemma PassRecords(s: State, e: MboxCall)
    requires MboxEnabled(s, e) && (e.DoPut? || e.DoTryPut?) && L(s.k, Readers(e.mbox)) != []
    ensures OnlyBox(s, MboxStep(s, e), e.mbox)
    ensures var b := e.mbox;
            Records(Box(s, b), Box(MboxStep(s, e), b), Puts(s, ForMbox(e), b), Deliveries(s, ForMbox(e), b))
  {
    PassedRecords(s, e.mbox, e.value, e.DoPut?);
  }

  lemma StoreRecords(s: State, e: MboxCall)
    requires MboxEnabled(s, e) && (e.DoPut? || e.DoTryPut?) && L(s.k, Readers(e.mbox)) == []
    ensures OnlyBox(s, MboxStep(s, e), e.mbox)
    ensures var b := e.mbox;
            Records(Box(s, b), Box(MboxStep(s, e), b), Puts(s, ForMbox(e), b), Deliveries(s, ForMbox(e), b))
  {
    PutLoopRecords(s, e.mbox, e.value, e.DoPut?);
  }

  lemma PutRecords(s: State, e: MboxCall, b: nat)
    requires MboxEnabled(s, e) && (e.DoPut? || e.DoTryPut?)
    ensures Records(Box(s, b), Box(MboxStep(s, e), b), Puts(s, ForMbox(e), b), Deliveries(s, ForMbox(e), b))
  {
    if L(s.k, Readers(e.mbox)) != [] { PassRecords(s, e); } else { StoreRecords(s, e); }
    if b != e.mbox { OtherRecords(s, e, b); }
  }

  lemma TakeOne(s: State, e: MboxCall)
    requires MboxEnabled(s, e) && (e.DoGet? || e.DoTryGet?) && s.mboxes[e.mbox].ring != []
    ensures OnlyBox(s, MboxStep(s, e), e.mbox)
    ensures var b := e.mbox;
            Records(Box(s, b), Box(MboxStep(s, e), b), Puts(s, ForMbox(e), b), Deliveries(s, ForMbox(e), b))
  {
    DrawRecords(s, e.mbox, e.DoGet?);
  }

  lemma TakeNone(s: State, e: MboxCall)
    requires MboxEnabled(s, e) && (e.DoGet? || e.DoTryGet?) && s.mboxes[e.mbox].ring == []
    ensures OnlyBox(s, MboxStep(s, e), e.mbox)
    ensures var b := e.mbox;
            Records(Box(s, b), Box(MboxStep(s, e), b), Puts(s, ForMbox(e), b), Deliveries(s, ForMbox(e), b))
  {
    EmptyGetRecords(s, e.mbox, e.DoGet?);
  }

  lemma TakeRecords(s: State, e: MboxCall, b: nat)
    requires MboxEnabled(s, e) && (e.DoGet? || e.DoTryGet?)
    ensures Records(Box(s, b), Box(MboxStep(s, e), b), Puts(s, ForMbox(e), b), Deliveries(s, ForMbox(e), b))
  {
    if s.mboxes[e.mbox].ring != [] { TakeOne(s, e); } else { TakeNone(s, e); }
    if b != e.mbox { OtherRecords(s, e, b); }
  }

  lemma InitRecords(s: State, b: nat, cap: nat, i: nat)
    requires b !in s.mboxes
    ensures Records(Box(s, i), Box(InitMbox(s, b, cap), i), [], [])
  {
    NothingRecorded(Box(s, i), Box(InitMbox(s, b, cap), i));
  }

  lemma RetryRecords(s: State, a: Tid, b: nat)
    requires MayResume(s, a) && T(s.k, a).todo[0].RetryPut?
    ensures Records(Box(s, b), Box(Resume(s, a), b), Puts(s, Cpu(Continue), b), Deliveries(s, Cpu(Continue), b))
  {
    var act := T(s.k, a).todo[0];
    assert Records(Box(s, b), Box(s, b), [], []) by { NothingRecorded(Box(s, b), Box(s, b)); }
    if act.mbox in s.mboxes {
      RetryIs(s, a, act.mbox, act.value);
      PutLoopRecords(PoppedState(s, a), act.mbox, act.value, true);
    } else {
      assert Resume(s, a) == PoppedState(s, a);
    }
  }

  lemma ResumeRecords(s: State, a: Tid, b: nat)
    requires MayResume(s, a)
    ensures Records(Box(s, b), Box(Resume(s, a), b), Puts(s, Cpu(Continue), b), Deliveries(s, Cpu(Continue), b))
  {
    var act := T(s.k, a).todo[0];
    if act.RetryPut? {
      RetryRecords(s, a, b);
    } else {
      if act.Yield? { YieldFrame(s, a); }
      else if act.YieldRoundRobin? { RoundRobinFrame(s, a); }
      else if act.Relock? { RelockFrame(s, a); }
      else if Tests(act) { TestFrame(s, a); }
      else { RestFrame(s, a); }
      NothingRecorded(Box(s, b), Box(Resume(s, a), b));
    }
  }

  lemma CpuRecords(s: State, e: CpuEvent, b: nat)
    requires CpuEnabled(s, e)
    ensures Records(Box(s, b), Box(CpuStep(s, e), b), Puts(s, Cpu(e), b), Deliveries(s, Cpu(e), b))
  {
    if e.Continue? {
      ResumeRecords(s, s.active.value, b);
    } else {
      if e.ExitIsr? { SchedRunFrames(s.(isr := false)); } else if e.Preempt? { SchedRunFrames(s); }
      NothingRecorded(Box(s, b), Box(CpuStep(s, e), b));
    }
  }

  lemma MboxRecords(s: State, e: MboxCall, b: nat)
    requires MboxEnabled(s, e)
    ensures Records(Box(s, b), Box(MboxStep(s, e), b), Puts(s, ForMbox(e), b), Deliveries(s, ForMbox(e), b))
  {
    if e.DoInitMbox? { InitRecords(s, e.mbox, e.cap, b); }
    else if e.DoPut? || e.DoTryPut? { PutRecords(s, e, b); }
    else { TakeRecords(s, e, b); }
  }

  /** Every put that reports 1, at once or after waiting for room, puts in one message, a get that
      need not wait and a put that finds a reader deliver one, and no other step touches a mailbox. */
  lemma StepRecords(s: State, e: Event, b: nat)
    requires Enabled(s, e)
    ensures Records(Box(s, b), Box(Step(s, e), b), Puts(s, e, b), Deliveries(s, e, b))
  {
    if e.Cpu? {
      CpuRecords(s, e.cpu, b);
    } else if e.ForMbox? {
      MboxRecords(s, e.box, b);
    } else {
      OtherCallsKeepMboxes(s, e);
      NothingRecorded(Box(s, b), Box(Step(s, e), b));
    }
  }

  lemma OtherCallsKeepMboxes(s: State, e: Event)
    requires Enabled(s, e) && !e.Cpu? && !e.ForMbox?
    ensures Step(s, e).mboxes == s.mboxes
  {
    match e
    case ForThread(c) => ThreadFrame(s, c);
    case ForWaking(c) => WakeFrame(s, c);
    case ForOwn(c) => OwnFrame(s, c);
    case ForLock(c) => LockCallFrame(s, c);
    case ForFlags(c) => FlagsFrame(s, c);
    case ForMsg(c) => MsgFrame(s, c);
  }

  // ---------------------------------------------------------------- what the receiver has

  /** A get that need not wait returns 1 with the oldest message of the ring; a put that finds
      readers leaves its message in the buffer of the first, which becomes runnable. */
  lemma DeliveryArrives(s: State, e: Event, b: nat, mail: Mail)
    requires Reachable(s) && Enabled(s, e) && Deliveries(s, e, b) == [mail]
    ensures Gets(e, b) ==>
              Step(s, e).ret == 1 && [mail.msg] + Box(Step(s, e), b).ring == Box(s, b).ring && mail.to == Author(s)
    ensures !Gets(e, b) ==>
              Puts(s, e, b) == [mail.msg] && IsFirstReader(s, b, mail.to)
              && HasMail(T(Step(s, e).k, mail.to.value), b, mail.msg)
  {
    if Gets(e, b) { DrawnArrives(s, e.box); } else { HandedArrives(s, e.box); }
  }

  lemma DrawnArrives(s: State, e: MboxCall)
    requires MboxEnabled(s, e) && (e.DoGet? || e.DoTryGet?) && s.mboxes[e.mbox].ring != []
    ensures var s' := MboxStep(s, e); var ring := s.mboxes[e.mbox].ring;
            s'.ret == 1 && [s'.mailRet] + Box(s', e.mbox).ring == ring
  {
    DrawRecords(s, e.mbox, e.DoGet?);
  }

  lemma HandedArrives(s: State, e: MboxCall)
    requires Reachable(s) && MboxEnabled(s, e) && (e.DoPut? || e.DoTryPut?) && L(s.k, Readers(e.mbox)) != []
    ensures var m := Msg(0, e.value, Author(s), s.k.clock); var s' := MboxStep(s, e);
            s'.ret == 1 && HasMail(T(s'.k, L(s.k, Readers(e.mbox))[0]), e.mbox, m)
  {
    ReachableOk(s);
    PassedRecords(s, e.mbox, e.value, e.DoPut?);
    ReaderHasMail(s, e.mbox, e.value, e.DoPut?);
  }

  predicate IsFirstReader(s: State, b: nat, t: Option<Tid>) {
    L(s.k, Readers(b)) != [] && t == Some(L(s.k, Readers(b))[0])
  }

  /** The thread is about to return from _mbox_get with this message. */
  predicate HasMail(tcb: Tcb, b: nat, m: Msg) {
    OnRunqueue(tcb.status) && tcb.wait == Buffer(m) && tcb.mail == Some(m) && tcb.todo != [] && End(tcb) == GotMail(b)
  }

  lemma ReaderHasMail(s: State, b: nat, value: int, blocking: bool)
    requires Inv(s) && MayCall(s) && b in s.mboxes && L(s.k, Readers(b)) != []
    ensures HasMail(T(MboxPut(s, b, value, blocking).k, L(s.k, Readers(b))[0]), b, Msg(0, value, Author(s), s.k.clock))
  {
    var m := Msg(0, value, Author(s), s.k.clock);
    var t := L(s.k, Readers(b))[0];
    var s1 := s.(k := HandOver(s.k, b, m), mboxes := s.mboxes[b := Passed(s.mboxes[b], m, t)], ret := 1);
    HandOverEffect(s.k, b, m);
    HandOverCore(s.k, b, m);
    assert OwnOk(t, T(s.k, t)) && HasMail(T(s1.k, t), b, m);
    ThenKeepsMail(s1, Switch(T(s.k, t).prio), t, b, m);
    assert MboxPut(s, b, value, blocking) == Then(s1, Switch(T(s.k, t).prio));
  }

  lemma ThenKeepsMail(s: State, act: Act, t: Tid, b: nat, m: Msg)
    requires HasMail(T(s.k, t), b, m)
    ensures HasMail(T(Then(s, act).k, t), b, m)
  {
    var x := T(s.k, t);
    assert End(x.(todo := [act] + x.todo)) == End(x);
  }

  /** A blocked _mbox_get returns with the message in its buffer that its mailbox delivered to it last. */
  lemma MailReturnsMessage(s: State, a: Tid, b: nat)
    requires Reachable(s) && MayResume(s, a) && T(s.k, a).todo[0] == GotMail(b)
    ensures b in s.mboxes && T(s.k, a).mail.Some? && T(s.k, a).wait == Buffer(T(s.k, a).mail.value)
    ensures LastMail(s.mboxes[b], a) == T(s.k, a).mail
  {
    ReachableOk(s);
    LastActKeeps(s, a);
    assert End(T(s.k, a)) == GotMail(b);
  }

  // ---------------------------------------------------------------- whole runs

  ghost function AllPuts(s: State, es: seq<Event>, s': State, b: nat): seq<Msg>
    requires Run(s, es, s')
    decreases |es|
  {
    if es == [] then [] else Puts(s, es[0], b) + AllPuts(Step(s, es[0]), es[1..], s', b)
  }

  ghost function AllDeliveries(s: State, es: seq<Event>, s': State, b: nat): seq<Mail>
    requires Run(s, es, s')
    decreases |es|
  {
    if es == [] then [] else Deliveries(s, es[0], b) + AllDeliveries(Step(s, es[0]), es[1..], s', b)
  }

  lemma RecordsTrans(x: Mbox, y: Mbox, z: Mbox, p: seq<Msg>, q: seq<Msg>, d: seq<Mail>, f: seq<Mail>)
    requires Records(x, y, p, d) && Records(y, z, q, f)
    ensures Records(x, z, p + q, d + f)
  {
    assert Messages(d + f) == Messages(d) + Messages(f);
    assert Receivers(d + f) == Receivers(d) + Receivers(f);
  }

  lemma {:induction false} RunRecords(s: State, es: seq<Event>, s': State, b: nat)
    requires Run(s, es, s')
    ensures Records(Box(s, b), Box(s', b), AllPuts(s, es, s', b), AllDeliveries(s, es, s', b))
    decreases |es|
  {
    if es == [] {
      NothingRecorded(Box(s, b), Box(s', b));
    } else {
      var s1 := Step(s, es[0]);
      StepRecords(s, es[0], b);
      RunRecords(s1, es[1..], s', b);
      RecordsTrans(Box(s, b), Box(s1, b), Box(s', b), Puts(s, es[0], b), AllPuts(s1, es[1..], s', b),
                   Deliveries(s, es[0], b), AllDeliveries(s1, es[1..], s', b));
    }
  }

  lemma RunBox(s: State, es: seq<Event>, s': State, b: nat)
    requires Init(s) && Run(s, es, s') && b in s'.mboxes
    ensures s'.mboxes[b].put == AllPuts(s, es, s', b)
    ensures s'.mboxes[b].taken == Messages(AllDeliveries(s, es, s', b))
  {
    RunRecords(s, es, s', b);
  }

  lemma RunMboxOk(s: State, es: seq<Event>, s': State, b: nat)
    requires Init(s) && Run(s, es, s') && b in s'.mboxes
    ensures MboxOk(s', b)
  {
    InitKeeps(s);
    RunKeeps(s, es, s');
  }

  /** Over a whole run, the messages of the puts that reported 1 are those that were delivered and
      those that are in the ring, each exactly once; and the ring never overflows. */
  lemma RunConservesMail(s: State, es: seq<Event>, s': State, b: nat)
    requires Init(s) && Run(s, es, s') && b in s'.mboxes
    ensures multiset(AllPuts(s, es, s', b))
         == multiset(Messages(AllDeliveries(s, es, s', b))) + multiset(s'.mboxes[b].ring)
    ensures |s'.mboxes[b].ring| <= s'.mboxes[b].cap
  {
    RunBox(s, es, s', b);
    RunMboxOk(s, es, s', b);
  }

  lemma {:induction false} RunWaited(s: State, es: seq<Event>, s': State, b: nat)
    requires Inv(s) && Run(s, es, s') && !Waited(s, b)
    requires forall e :: e in es ==> !(e.ForMbox? && e.box.DoPut? && e.box.mbox == b)
    ensures !Waited(s', b)
    decreases |es|
  {
    if es != [] {
      assert es[0] in es;
      StepKeeps(s, es[0]);
      StepWaited(s, es[0], b);
      RunWaited(Step(s, es[0]), es[1..], s', b);
    }
  }

  /** If all puts are non-blocking, a mailbox delivers in the order of the puts, and a reader waits
      only while the ring is empty. */
  lemma NonBlockingPutsKeepOrder(s: State, es: seq<Event>, s': State, b: nat)
    requires Init(s) && Run(s, es, s') && b in s'.mboxes
    requires forall e :: e in es ==> !(e.ForMbox? && e.box.DoPut? && e.box.mbox == b)
    ensures AllPuts(s, es, s', b) == Messages(AllDeliveries(s, es, s', b)) + s'.mboxes[b].ring
    ensures L(s'.k, Readers(b)) != [] ==> s'.mboxes[b].ring == []
  {
    InitKeeps(s);
    RunWaited(s, es, s', b);
    RunBox(s, es, s', b);
    RunMboxOk(s, es, s', b);
  }
}
