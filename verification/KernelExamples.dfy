/** Runs from the start of the kernel to states in which a call does not do what it promises. */
module KernelExamples {
  import opened KernelTypes
  import opened KernelSpec
  import opened KernelLinks
  import opened KernelInv
  import opened KernelState
  import opened KernelSteps
  import opened KernelThreadSteps
  import opened KernelInvariant
  import opened KernelLimits
  import opened KernelSights

  // ---------------------------------------------------------------- _mbox_put

  /** The writer, thread 0, has priority 5, and the reader, thread 1, priority 4. */
  function Pair(writer: Status, todo0: seq<Act>, reader: Status, todo1: seq<Act>,
      queues: map<ListId, seq<Tid>>): Sight {
    Sight([Seen(writer, 5, todo0, None), Seen(reader, 4, todo1, None)], queues)
  }

  /** Thread a is at work, and mailbox 0 has n messages in its ring of size 1. */
  ghost predicate MailAt(s: State, v: Sight, a: Tid, n: nat) {
    && Looks(s.k, v) && AtWork(s, a) && Lookup(s, 2) == Some(1)
    && 0 in s.mboxes && s.mboxes[0].cap == 1 && |s.mboxes[0].ring| == n
  }

  lemma MailKept(s: State, s': State, v: Sight, a: Tid, b: Tid, n: nat, v': Sight)
    requires MailAt(s, v, a, n) && SameRest(s, s') && Looks(s'.k, v') && AtWork(s', b)
    ensures MailAt(s', v', b, n)
  {
  }

  const WROTE := Pair(Running, [], Sleeping, [], map[Rq(5) := [0]])
  const WAITING := [YieldRoundRobin, RetryPut(0, 2)]
  const FILLED := Pair(MboxBlocked, WAITING, Sleeping, [], map[Writers(0) := [0]])
  const WOKEN := Pair(MboxBlocked, WAITING, Running, [], map[Writers(0) := [0], Rq(4) := [1]])
  const DRAWN := Pair(Pending, WAITING, Running, [Switch(5)], map[Rq(5) := [0], Rq(4) := [1]])
  const DREW := Pair(Pending, WAITING, Running, [], map[Rq(5) := [0], Rq(4) := [1]])
  const EMPTY := Pair(Pending, WAITING, MboxBlocked, [YieldRoundRobin, GotMail(0)],
    map[Rq(5) := [0], Readers(0) := [1]])
  const LEFT := Pair(Pending, WAITING, MboxBlocked, [Yield, GotMail(0)], map[Rq(5) := [0], Readers(0) := [1]])
  const BACK := Pair(Running, WAITING, MboxBlocked, [GotMail(0)], map[Rq(5) := [0], Readers(0) := [1]])
  const BACKED := Pair(Running, [Yield, RetryPut(0, 2)], MboxBlocked, [GotMail(0)],
    map[Rq(5) := [0], Readers(0) := [1]])
  const RETRIES := Pair(Running, [RetryPut(0, 2)], MboxBlocked, [GotMail(0)], map[Rq(5) := [0], Readers(0) := [1]])
  const STRANDED := Pair(Running, [], MboxBlocked, [GotMail(0)], map[Rq(5) := [0], Readers(0) := [1]])

  /** The writer initialises the mailbox and creates the reader, asleep. */
  lemma MailBegins()
    ensures var s := Start(5); var s1 := Step(s, ForMbox(DoInitMbox(0, 1)));
            && Enabled(s, ForMbox(DoInitMbox(0, 1))) && Enabled(s1, ForThread(DoCreate(4, true)))
            && MailAt(Step(s1, ForThread(DoCreate(4, true))), WROTE, 0, 0)
  {
    var s1 := InitMbox(Start(5), 0, 1);
    assert FreePid(s1.pids, 1) == FreePid(s1.pids, 2) == Some(2);
    ReaderBorn();
  }

  lemma ReaderBorn()
    ensures Looks(Born(Start(5).k, 4, 2, true), WROTE)
  {
    var v := Sight([Seen(Running, 5, [], None)], map[Rq(5) := [0]]);
    assert Looks(Start(5).k, v);
    SeesBorn(Start(5).k, v, 4, 2, true);
    assert Joined(v, 4, Sleeping) == WROTE;
  }

  lemma MailFirstPut(s: State)
    requires MailAt(s, WROTE, 0, 0)
    ensures Enabled(s, ForMbox(DoPut(0, 1))) && MailAt(Step(s, ForMbox(DoPut(0, 1))), WROTE, 0, 1)
  {
    assert Watched(T(s.k, 0)) == WROTE.threads[0];
    assert L(s.k, Readers(0)) == Queue(WROTE, Readers(0)) == [];
    SeesTick(s.k, WROTE);
  }

  lemma MailSecondPut(s: State)
    requires MailAt(s, WROTE, 0, 1)
    ensures Enabled(s, ForMbox(DoPut(0, 2))) && MailAt(Step(s, ForMbox(DoPut(0, 2))), FILLED, 0, 1)
  {
    assert Watched(T(s.k, 0)) == WROTE.threads[0];
    assert L(s.k, Readers(0)) == Queue(WROTE, Readers(0)) == [];
    SeesMboxBlock(s.k, WROTE, 0, Writers(0), RetryPut(0, 2));
    LooksFilled(MboxBlock(s.k, 0, Writers(0), RetryPut(0, 2)));
  }

  lemma LooksFilled(k: Core)
    requires Looks(k, Owing(WithQueue(Off(WROTE, 0, MboxBlocked), Writers(0), [0]), 0, WAITING))
    ensures Looks(k, FILLED)
  {
    LooksAlike(k, Owing(WithQueue(Off(WROTE, 0, MboxBlocked), Writers(0), [0]), 0, WAITING), FILLED);
  }

  lemma LooksWoken(k: Core)
    requires Looks(k, Chosen(On(FILLED, 1, Running), 0, 1))
    ensures Looks(k, WOKEN)
  {
    LooksAlike(k, Chosen(On(FILLED, 1, Running), 0, 1), WOKEN);
  }

  lemma LooksDrawn(k: Core)
    requires Looks(k, Owing(On(WithQueue(WOKEN, Writers(0), []), 0, Pending), 1, [Switch(5)]))
    ensures Looks(k, DRAWN)
  {
    LooksAlike(k, Owing(On(WithQueue(WOKEN, Writers(0), []), 0, Pending), 1, [Switch(5)]), DRAWN);
  }

  lemma LooksEmpty(k: Core)
    requires Looks(k, Owing(WithQueue(Off(WithThread(DREW, 1, DREW.threads[1]), 1, MboxBlocked), Readers(0), [1]), 1,
                            [YieldRoundRobin, GotMail(0)]))
    ensures Looks(k, EMPTY)
  {
    LooksAlike(k, Owing(WithQueue(Off(WithThread(DREW, 1, DREW.threads[1]), 1, MboxBlocked), Readers(0), [1]), 1,
                        [YieldRoundRobin, GotMail(0)]), EMPTY);
  }

  lemma MailWakesReader(s: State)
    requires MailAt(s, FILLED, 0, 1)
    ensures var s1 := s.(isr := true); var s2 := Wakeup(s1, 2); var s3 := LeaveIsr(s2);
            && Enabled(s, Cpu(EnterIsr)) && Step(s, Cpu(EnterIsr)) == s1
            && Enabled(s1, ForThread(DoWakeup(2))) && Step(s1, ForThread(DoWakeup(2))) == s2
            && Enabled(s2, Cpu(ExitIsr)) && Step(s2, Cpu(ExitIsr)) == s3
            && MailAt(s3, WOKEN, 1, 1)
  {
    var v1 := On(FILLED, 1, Running);
    forall q: nat | q < 4 ensures Queue(v1, Rq(q)) == [] { }
    SeesWakeup(s, FILLED, 0, 1, 2);
    var s3 := LeaveIsr(Wakeup(s.(isr := true), 2));
    LooksWoken(s3.k);
  }

  lemma MailFirstGet(s: State)
    requires MailAt(s, WOKEN, 1, 1)
    ensures Enabled(s, ForMbox(DoGet(0))) && MailAt(Step(s, ForMbox(DoGet(0))), DRAWN, 1, 0)
  {
    assert Watched(T(s.k, 1)) == WOKEN.threads[1] && Watched(T(s.k, 0)) == WOKEN.threads[0];
    assert L(s.k, Writers(0)) == Queue(WOKEN, Writers(0)) == [0];
    SeesWakeHead(s.k, WOKEN, Writers(0));
    assert [0][1..] == [];
    var k1, v1 := WakeHead(s.k, Writers(0)), On(WithQueue(WOKEN, Writers(0), []), 0, Pending);
    SeesOwe(k1, v1, 1, [Switch(5)]);
    LooksDrawn(Owe(k1, 1, [Switch(5)]));
  }

  lemma MailStays(s: State)
    requires MailAt(s, DRAWN, 1, 0)
    ensures Enabled(s, Cpu(Continue)) && MailAt(Step(s, Cpu(Continue)), DREW, 1, 0)
  {
    SeesNoSwitch(s, DRAWN, 1);
    LooksAlike(Step(s, Cpu(Continue)).k, Popped1(DRAWN, 1), DREW);
    MailKept(s, Step(s, Cpu(Continue)), DRAWN, 1, 1, 0, DREW);
  }

  lemma MailSecondGet(s: State)
    requires MailAt(s, DREW, 1, 0)
    ensures Enabled(s, ForMbox(DoGet(0))) && MailAt(Step(s, ForMbox(DoGet(0))), EMPTY, 1, 0)
  {
    assert Watched(T(s.k, 1)) == DREW.threads[1];
    var k0 := Park(s.k, 1, Buffer(NO_MSG));
    SeesRecord(s.k, DREW, 1, T(s.k, 1).(wait := Buffer(NO_MSG), answer := None, mail := None));
    var v0 := WithThread(DREW, 1, DREW.threads[1]);
    SeesMboxBlock(k0, v0, 1, Readers(0), GotMail(0));
    LooksEmpty(MboxBlock(k0, 1, Readers(0), GotMail(0)));
  }

  lemma MailWaits(s: State)
    requires MailAt(s, EMPTY, 1, 0)
    ensures Enabled(s, Cpu(Continue)) && MailAt(Step(s, Cpu(Continue)), LEFT, 1, 0)
  {
    SeesRoundRobin(s, EMPTY, 1);
    LooksAlike(Step(s, Cpu(Continue)).k, Owing(Popped1(EMPTY, 1), 1, [Yield]), LEFT);
    MailKept(s, Step(s, Cpu(Continue)), EMPTY, 1, 1, 0, LEFT);
  }

  lemma MailLeaves(s: State)
    requires MailAt(s, LEFT, 1, 0)
    ensures Enabled(s, Cpu(Continue)) && MailAt(Step(s, Cpu(Continue)), BACK, 0, 0)
  {
    forall q: nat | q < 5 ensures Queue(LEFT, Rq(q)) == [] { }
    SeesYield(s, LEFT, 1, 5);
    LooksAlike(Step(s, Cpu(Continue)).k, Chosen(Popped1(LEFT, 1), 1, 0), BACK);
    MailKept(s, Step(s, Cpu(Continue)), LEFT, 1, 0, 0, BACK);
  }

  lemma MailYields(s: State)
    requires MailAt(s, BACK, 0, 0)
    ensures Enabled(s, Cpu(Continue)) && MailAt(Step(s, Cpu(Continue)), BACKED, 0, 0)
  {
    SeesRoundRobinAlone(s, BACK, 0);
    LooksAlike(Step(s, Cpu(Continue)).k, Owing(Popped1(BACK, 0), 0, [Yield]), BACKED);
    MailKept(s, Step(s, Cpu(Continue)), BACK, 0, 0, 0, BACKED);
  }

  lemma MailReturns(s: State)
    requires MailAt(s, BACKED, 0, 0)
    ensures Enabled(s, Cpu(Continue)) && MailAt(Step(s, Cpu(Continue)), RETRIES, 0, 0)
  {
    forall q: nat | q < 5 ensures Queue(BACKED, Rq(q)) == [] { }
    SeesYield(s, BACKED, 0, 5);
    LooksAlike(Step(s, Cpu(Continue)).k, Chosen(Popped1(BACKED, 0), 0, 0), RETRIES);
    MailKept(s, Step(s, Cpu(Continue)), BACKED, 0, 0, 0, RETRIES);
  }

  lemma MailRetries(s: State)
    requires MailAt(s, RETRIES, 0, 0)
    ensures Enabled(s, Cpu(Continue)) && MailAt(Step(s, Cpu(Continue)), STRANDED, 0, 1)
  {
    SeesPopped(s, RETRIES, 0);
    var s1 := PoppedState(s, 0);
    SeesTick(s1.k, Popped1(RETRIES, 0));
    LooksAlike(Tick(s1.k), Popped1(RETRIES, 0), STRANDED);
    assert Step(s, Cpu(Continue)) == PutLoop(s1, 0, 2, true);
  }

  const CONTINUE := Cpu(Continue)

  /** The writer fills the mailbox and blocks in its second put; */
  const FILLING := [ForMbox(DoInitMbox(0, 1)), ForThread(DoCreate(4, true)), ForMbox(DoPut(0, 1)), ForMbox(DoPut(0, 2))]
  /** a handler wakes the reader, */
  const WAKING := [Cpu(EnterIsr), ForThread(DoWakeup(2)), Cpu(ExitIsr)]
  /** which gets the first message, wakes the writer by that, and blocks in its second get; */
  const GETTING := [ForMbox(DoGet(0)), CONTINUE]
  const BLOCKING := [ForMbox(DoGet(0))]
  const LEAVING := [CONTINUE, CONTINUE]
  /** and the writer retries. */
  const RETRYING := [CONTINUE, CONTINUE, CONTINUE]

  lemma RunBegins() returns (s: State)
    ensures Run(Start(5), [ForMbox(DoInitMbox(0, 1))] + [ForThread(DoCreate(4, true))], s) && MailAt(s, WROTE, 0, 0)
  {
    MailBegins();
    var e := ForMbox(DoInitMbox(0, 1));
    var s1 := Step(Start(5), e);
    s := Step(s1, ForThread(DoCreate(4, true)));
    RunsOne(Start(5), e);
    RunsStep(Start(5), [e], s1, ForThread(DoCreate(4, true)));
  }

  lemma RunPuts(s: State) returns (s': State)
    requires MailAt(s, WROTE, 0, 0)
    ensures Run(s, [ForMbox(DoPut(0, 1))] + [ForMbox(DoPut(0, 2))], s') && MailAt(s', FILLED, 0, 1)
  {
    MailFirstPut(s);
    var s1 := Step(s, ForMbox(DoPut(0, 1)));
    RunsOne(s, ForMbox(DoPut(0, 1)));
    MailSecondPut(s1);
    s' := Step(s1, ForMbox(DoPut(0, 2)));
    RunsStep(s, [ForMbox(DoPut(0, 1))], s1, ForMbox(DoPut(0, 2)));
  }

  lemma RunFills() returns (s: State)
    ensures Run(Start(5), FILLING, s) && MailAt(s, FILLED, 0, 1)
  {
    var s1 := RunBegins();
    s := RunPuts(s1);
    var es, fs := [ForMbox(DoInitMbox(0, 1))] + [ForThread(DoCreate(4, true))],
      [ForMbox(DoPut(0, 1))] + [ForMbox(DoPut(0, 2))];
    RunsOn(Start(5), es, s1, fs, s);
    assert es + fs == FILLING;
  }

  lemma RunWakes(s: State) returns (s': State)
    requires MailAt(s, FILLED, 0, 1)
    ensures Run(s, WAKING, s') && MailAt(s', WOKEN, 1, 1)
  {
    MailWakesReader(s);
    var s1 := s.(isr := true);
    var s2 := Wakeup(s1, 2);
    s' := LeaveIsr(s2);
    RunsOne(s, Cpu(EnterIsr));
    RunsStep(s, [Cpu(EnterIsr)], s1, ForThread(DoWakeup(2)));
    RunsStep(s, [Cpu(EnterIsr)] + [ForThread(DoWakeup(2))], s2, Cpu(ExitIsr));
    assert [Cpu(EnterIsr)] + [ForThread(DoWakeup(2))] + [Cpu(ExitIsr)] == WAKING;
  }

  lemma RunGets(s: State) returns (s': State)
    requires MailAt(s, WOKEN, 1, 1)
    ensures Run(s, GETTING, s') && MailAt(s', DREW, 1, 0)
  {
    var e := ForMbox(DoGet(0));
    MailFirstGet(s);
    var s1 := Step(s, e);
    RunsOne(s, e);
    MailStays(s1);
    s' := Step(s1, CONTINUE);
    RunsStep(s, [e], s1, CONTINUE);
    assert [e] + [CONTINUE] == GETTING;
  }

  lemma RunBlocks(s: State) returns (s': State)
    requires MailAt(s, DREW, 1, 0)
    ensures Run(s, BLOCKING, s') && MailAt(s', EMPTY, 1, 0)
  {
    MailSecondGet(s);
    s' := Step(s, ForMbox(DoGet(0)));
    RunsOne(s, ForMbox(DoGet(0)));
  }

  lemma RunLeaves(s: State) returns (s': State)
    requires MailAt(s, EMPTY, 1, 0)
    ensures Run(s, LEAVING, s') && MailAt(s', BACK, 0, 0)
  {
    MailWaits(s);
    var s1 := Step(s, CONTINUE);
    RunsOne(s, CONTINUE);
    MailLeaves(s1);
    s' := Step(s1, CONTINUE);
    RunsStep(s, [CONTINUE], s1, CONTINUE);
    assert [CONTINUE] + [CONTINUE] == LEAVING;
  }

  lemma RunComesBack(s: State) returns (s': State)
    requires MailAt(s, BACK, 0, 0)
    ensures Run(s, [CONTINUE] + [CONTINUE], s') && MailAt(s', RETRIES, 0, 0)
  {
    MailYields(s);
    var s1 := Step(s, CONTINUE);
    RunsOne(s, CONTINUE);
    MailReturns(s1);
    s' := Step(s1, CONTINUE);
    RunsStep(s, [CONTINUE], s1, CONTINUE);
  }

  lemma RunRetries(s: State) returns (s': State)
    requires MailAt(s, BACK, 0, 0)
    ensures Run(s, RETRYING, s') && MailAt(s', STRANDED, 0, 1)
  {
    var s1 := RunComesBack(s);
    MailRetries(s1);
    s' := Step(s1, CONTINUE);
    RunsStep(s, [CONTINUE] + [CONTINUE], s1, CONTINUE);
    assert [CONTINUE] + [CONTINUE] + [CONTINUE] == RETRYING;
  }

  /** The last step of this run is the retry that RetryLosesWakeup is about: it puts the message into
      the ring, and the reader waits on although there is a message for it. */
  lemma RetryStrandsReader()
    ensures Init(Start(5))
    ensures exists s :: Run(Start(5), FILLING + WAKING + GETTING + BLOCKING + LEAVING + RETRYING, s) && Stranded(s)
  {
    StartIsInit(5);
    var s1 := RunFills();
    var s2 := RunWakes(s1);
    var s3 := RunGets(s2);
    var s4 := RunBlocks(s3);
    var s5 := RunLeaves(s4);
    var s6 := RunRetries(s5);
    RunsOn(Start(5), FILLING, s1, WAKING, s2);
    RunsOn(Start(5), FILLING + WAKING, s2, GETTING, s3);
    RunsOn(Start(5), FILLING + WAKING + GETTING, s3, BLOCKING, s4);
    RunsOn(Start(5), FILLING + WAKING + GETTING + BLOCKING, s4, LEAVING, s5);
    RunsOn(Start(5), FILLING + WAKING + GETTING + BLOCKING + LEAVING, s5, RETRYING, s6);
    LooksStranded(s6);
  }

  /** Mailbox 0 holds a message, and thread 1 waits for one. */
  predicate Stranded(s: State) {
    0 in s.mboxes && |s.mboxes[0].ring| == 1 && L(s.k, Readers(0)) == [1] && T(s.k, 1).status == MboxBlocked
  }

  lemma LooksStranded(s: State)
    requires MailAt(s, STRANDED, 0, 1)
    ensures Stranded(s)
  {
    assert Watched(T(s.k, 1)) == STRANDED.threads[1] && L(s.k, Readers(0)) == Queue(STRANDED, Readers(0));
  }

  // ---------------------------------------------------------------- mutex_lock_cancelable

  /** The holder, thread 0, has priority 5, and the waiter, thread 1, priority 6. */
  function Duo(holder: Status, todo0: seq<Act>, waiter: Status, todo1: seq<Act>, lock1: Option<nat>,
               queues: map<ListId, seq<Tid>>): Sight {
    Sight([Seen(holder, 5, todo0, Some(0)), Seen(waiter, 6, todo1, lock1)], queues)
  }

  /** Thread a is at work, and mutex 0 is locked. */
  ghost predicate LockAt(s: State, v: Sight, a: Tid) {
    Looks(s.k, v) && AtWork(s, a) && Lookup(s, 1) == Some(0) && 0 in s.locked
  }

  /** Besides, this is cancellation structure 0. */
  ghost predicate CancelAt(s: State, v: Sight, a: Tid, c: Cancel) {
    LockAt(s, v, a) && 0 in s.cancels && s.cancels[0] == c
  }

  lemma CancelKept(s: State, s': State, v: Sight, a: Tid, b: Tid, c: Cancel, v': Sight)
    requires CancelAt(s, v, a, c) && SameRest(s, s') && Looks(s'.k, v') && AtWork(s', b)
    ensures CancelAt(s', v', b, c)
  {
  }

  const FRESH := Cancel(0, 1, false, false)
  const LATE := Cancel(0, 1, true, true)
  const TO_CHECK := [Yield, CheckCancel(0)]
  const MADE := Duo(Running, [Switch(6)], Pending, [], None, map[Rq(5) := [0], Rq(6) := [1]])
  const HOLDS := Duo(Running, [], Pending, [], None, map[Rq(5) := [0], Rq(6) := [1]])
  const DOZES := Duo(Sleeping, [Yield], Pending, [], None, map[Rq(6) := [1]])
  const SLEEPS := Duo(Sleeping, [], Running, [], None, map[Rq(6) := [1]])
  const WAITS := Duo(Sleeping, [], MutexBlocked, TO_CHECK, None, map[MutexQ(0) := [1]])
  const AWAKE := Duo(Running, [], MutexBlocked, TO_CHECK, None, map[MutexQ(0) := [1], Rq(5) := [0]])
  const HANDED := Duo(Running, [Switch(6)], Pending, TO_CHECK, Some(0), map[Rq(6) := [1], Rq(5) := [0]])
  const READY := Duo(Running, [], Pending, TO_CHECK, Some(0), map[Rq(6) := [1], Rq(5) := [0]])
  const NODS := Duo(Sleeping, [Yield], Pending, TO_CHECK, Some(0), map[Rq(6) := [1]])
  const RUNS := Duo(Sleeping, [], Running, TO_CHECK, Some(0), map[Rq(6) := [1]])
  const CHECKS := Duo(Sleeping, [], Running, [CheckCancel(0)], Some(0), map[Rq(6) := [1]])
  const ENDS := Duo(Sleeping, [], Running, [], Some(0), map[Rq(6) := [1]])

  /** The holder takes the mutex, */
  lemma LockBegins()
    ensures var s := Start(5); var e := ForLock(DoLock(0, true)); var s1 := Step(s, e);
            Enabled(s, e) && Looks(s1.k, Sight([Seen(Running, 5, [], Some(0))], map[Rq(5) := [0]]))
            && AtWork(s1, 0) && 0 in s1.locked && s1.pids == s.pids && s1.activePid == 1
  {
    var s := Start(5);
    var v := Sight([Seen(Running, 5, [], None)], map[Rq(5) := [0]]);
    assert Looks(s.k, v);
    SeesRecord(s.k, v, 0, T(s.k, 0).(lock := Some(0)));
  }

  /** and creates the other thread. */
  lemma LockCreates(s: State)
    requires Looks(s.k, Sight([Seen(Running, 5, [], Some(0))], map[Rq(5) := [0]]))
    requires AtWork(s, 0) && 0 in s.locked && s.pids == Start(5).pids
    ensures Enabled(s, ForThread(DoCreate(6, false))) && LockAt(Step(s, ForThread(DoCreate(6, false))), MADE, 0)
  {
    var v := Sight([Seen(Running, 5, [], Some(0))], map[Rq(5) := [0]]);
    assert FreePid(s.pids, 1) == FreePid(s.pids, 2) == Some(2);
    assert Watched(T(s.k, 0)) == v.threads[0];
    SeesBorn(s.k, v, 6, 2, false);
    var v1 := On(Joined(v, 6, Stopped), 1, Pending);
    SeesOwe(Born(s.k, 6, 2, false), v1, 0, [Switch(6)]);
    LooksMade(Owe(Born(s.k, 6, 2, false), 0, [Switch(6)]));
  }

  lemma LooksMade(k: Core)
    requires var v := Sight([Seen(Running, 5, [], Some(0))], map[Rq(5) := [0]]);
             Looks(k, Owing(On(Joined(v, 6, Stopped), 1, Pending), 0, [Switch(6)]))
    ensures Looks(k, MADE)
  {
    var v := Sight([Seen(Running, 5, [], Some(0))], map[Rq(5) := [0]]);
    LooksAlike(k, Owing(On(Joined(v, 6, Stopped), 1, Pending), 0, [Switch(6)]), MADE);
  }

  lemma LockStays(s: State)
    requires LockAt(s, MADE, 0)
    ensures Enabled(s, CONTINUE) && LockAt(Step(s, CONTINUE), HOLDS, 0)
  {
    SeesNoSwitch(s, MADE, 0);
    LooksAlike(Step(s, CONTINUE).k, Popped1(MADE, 0), HOLDS);
  }

  lemma LockSleeps(s: State)
    requires LockAt(s, HOLDS, 0)
    ensures Enabled(s, ForOwn(DoSleep)) && LockAt(Step(s, ForOwn(DoSleep)), DOZES, 0)
  {
    SeesSleep(s, HOLDS, 0);
    LooksAlike(Step(s, ForOwn(DoSleep)).k, Owing(Off(HOLDS, 0, Sleeping), 0, [Yield]), DOZES);
  }

  lemma LockPasses(s: State)
    requires LockAt(s, DOZES, 0)
    ensures Enabled(s, CONTINUE) && LockAt(Step(s, CONTINUE), SLEEPS, 1)
  {
    forall q: nat | q < 6 ensures Queue(DOZES, Rq(q)) == [] { }
    SeesYield(s, DOZES, 0, 6);
    LooksAlike(Step(s, CONTINUE).k, Chosen(Popped1(DOZES, 0), 0, 1), SLEEPS);
  }

  /** The waiter initialises its structure, */
  lemma CancelBegins(s: State)
    requires LockAt(s, SLEEPS, 1)
    ensures Enabled(s, ForLock(DoInitCancel(0, 0))) && CancelAt(Step(s, ForLock(DoInitCancel(0, 0))), SLEEPS, 1, FRESH)
  {
    assert Watched(T(s.k, 1)) == SLEEPS.threads[1];
    forall t: Tid | t < |s.k.ts| ensures !InCancelable(T(s.k, t), 0) { assert Watched(T(s.k, t)) == SLEEPS.threads[t]; }
  }

  /** and blocks. */
  lemma CancelBlocks(s: State)
    requires CancelAt(s, SLEEPS, 1, FRESH)
    ensures Enabled(s, ForLock(DoLockCancelable(0))) && CancelAt(Step(s, ForLock(DoLockCancelable(0))), WAITS, 1, FRESH)
  {
    assert Watched(T(s.k, 1)) == SLEEPS.threads[1];
    SeesBlock(s.k, SLEEPS, 1, MutexBlocked);
    var k1, v1 := SetStatus(s.k, 1, MutexBlocked), Off(SLEEPS, 1, MutexBlocked);
    SeesEnlist(k1, v1, MutexQ(0), 1);
    var k2, v2 := AddToList(k1, MutexQ(0), 1), WithQueue(v1, MutexQ(0), [1]);
    assert Watched(T(k2, 1)) == v2.threads[1];
    SeesRecord(k2, v2, 1, T(k2, 1).(lock := None));
    var k3, v3 := SetT(k2, 1, T(k2, 1).(lock := None)), WithThread(v2, 1, Seen(MutexBlocked, 6, [], None));
    SeesOwe(k3, v3, 1, TO_CHECK);
    LooksWaits(Owe(k3, 1, TO_CHECK));
  }

  lemma LooksWaits(k: Core)
    requires var v := WithQueue(Off(SLEEPS, 1, MutexBlocked), MutexQ(0), [1]);
             Looks(k, Owing(WithThread(v, 1, Seen(MutexBlocked, 6, [], None)), 1, TO_CHECK))
    ensures Looks(k, WAITS)
  {
    var v := WithQueue(Off(SLEEPS, 1, MutexBlocked), MutexQ(0), [1]);
    LooksAlike(k, Owing(WithThread(v, 1, Seen(MutexBlocked, 6, [], None)), 1, TO_CHECK), WAITS);
  }

  /** A handler wakes the holder, */
  lemma CancelWakesHolder(s: State)
    requires CancelAt(s, WAITS, 1, FRESH)
    ensures var s1 := s.(isr := true); var s2 := Wakeup(s1, 1); var s3 := LeaveIsr(s2);
            && Enabled(s, Cpu(EnterIsr)) && Step(s, Cpu(EnterIsr)) == s1
            && Enabled(s1, ForThread(DoWakeup(1))) && Step(s1, ForThread(DoWakeup(1))) == s2
            && Enabled(s2, Cpu(ExitIsr)) && Step(s2, Cpu(ExitIsr)) == s3
            && CancelAt(s3, AWAKE, 0, FRESH)
  {
    var v1 := On(WAITS, 0, Running);
    forall q: nat | q < 5 ensures Queue(v1, Rq(q)) == [] { }
    SeesWakeup(s, WAITS, 1, 0, 1);
    LooksAwake(LeaveIsr(Wakeup(s.(isr := true), 1)).k);
  }

  lemma LooksAwake(k: Core)
    requires Looks(k, Chosen(On(WAITS, 0, Running), 1, 0))
    ensures Looks(k, AWAKE)
  {
    LooksAlike(k, Chosen(On(WAITS, 0, Running), 1, 0), AWAKE);
  }

  /** which unlocks the mutex and so hands it to the waiter, */
  lemma CancelUnlocks(s: State)
    requires CancelAt(s, AWAKE, 0, FRESH)
    ensures Enabled(s, ForWaking(DoUnlock(0))) && CancelAt(Step(s, ForWaking(DoUnlock(0))), HANDED, 0, FRESH)
  {
    assert Watched(T(s.k, 0)) == AWAKE.threads[0] && Watched(T(s.k, 1)) == AWAKE.threads[1];
    assert L(s.k, MutexQ(0)) == Queue(AWAKE, MutexQ(0)) == [1] && [1][1..] == [];
    SeesWakeHead(s.k, AWAKE, MutexQ(0));
    var k1, v1 := WakeHead(s.k, MutexQ(0)), On(WithQueue(AWAKE, MutexQ(0), []), 1, Pending);
    assert Watched(T(k1, 1)) == v1.threads[1];
    SeesRecord(k1, v1, 1, T(k1, 1).(lock := Some(0)));
    var k2, v2 := SetT(k1, 1, T(k1, 1).(lock := Some(0))), WithThread(v1, 1, Seen(Pending, 6, TO_CHECK, Some(0)));
    SeesOwe(k2, v2, 0, [Switch(6)]);
    LooksHanded(Owe(k2, 0, [Switch(6)]));
  }

  lemma LooksHanded(k: Core)
    requires var v := On(WithQueue(AWAKE, MutexQ(0), []), 1, Pending);
             Looks(k, Owing(WithThread(v, 1, Seen(Pending, 6, TO_CHECK, Some(0))), 0, [Switch(6)]))
    ensures Looks(k, HANDED)
  {
    var v := On(WithQueue(AWAKE, MutexQ(0), []), 1, Pending);
    LooksAlike(k, Owing(WithThread(v, 1, Seen(Pending, 6, TO_CHECK, Some(0))), 0, [Switch(6)]), HANDED);
  }

  lemma CancelStays(s: State)
    requires CancelAt(s, HANDED, 0, FRESH)
    ensures Enabled(s, CONTINUE) && CancelAt(Step(s, CONTINUE), READY, 0, FRESH)
  {
    SeesNoSwitch(s, HANDED, 0);
    LooksAlike(Step(s, CONTINUE).k, Popped1(HANDED, 0), READY);
    CancelKept(s, Step(s, CONTINUE), HANDED, 0, 0, FRESH, READY);
  }

  /** and then cancels, before the waiter runs. */
  lemma CancelComes(s: State)
    requires CancelAt(s, READY, 0, FRESH)
    ensures Enabled(s, ForWaking(DoCancel(0))) && CancelAt(Step(s, ForWaking(DoCancel(0))), READY, 0, LATE)
  {
    assert Watched(T(s.k, 0)) == READY.threads[0] && Watched(T(s.k, 1)) == READY.threads[1];
  }

  lemma CancelSleeps(s: State)
    requires CancelAt(s, READY, 0, LATE)
    ensures Enabled(s, ForOwn(DoSleep)) && CancelAt(Step(s, ForOwn(DoSleep)), NODS, 0, LATE)
  {
    SeesSleep(s, READY, 0);
    LooksAlike(Step(s, ForOwn(DoSleep)).k, Owing(Off(READY, 0, Sleeping), 0, [Yield]), NODS);
    CancelKept(s, Step(s, ForOwn(DoSleep)), READY, 0, 0, LATE, NODS);
  }

  lemma CancelPasses(s: State)
    requires CancelAt(s, NODS, 0, LATE)
    ensures Enabled(s, CONTINUE) && CancelAt(Step(s, CONTINUE), RUNS, 1, LATE)
  {
    forall q: nat | q < 6 ensures Queue(NODS, Rq(q)) == [] { }
    SeesYield(s, NODS, 0, 6);
    LooksAlike(Step(s, CONTINUE).k, Chosen(Popped1(NODS, 0), 0, 1), RUNS);
    CancelKept(s, Step(s, CONTINUE), NODS, 0, 1, LATE, RUNS);
  }

  lemma CancelYields(s: State)
    requires CancelAt(s, RUNS, 1, LATE)
    ensures Enabled(s, CONTINUE) && CancelAt(Step(s, CONTINUE), CHECKS, 1, LATE)
  {
    forall q: nat | q < 6 ensures Queue(RUNS, Rq(q)) == [] { }
    SeesYield(s, RUNS, 1, 6);
    LooksAlike(Step(s, CONTINUE).k, Chosen(Popped1(RUNS, 1), 1, 1), CHECKS);
    CancelKept(s, Step(s, CONTINUE), RUNS, 1, 1, LATE, CHECKS);
  }

  lemma CancelReturns(s: State)
    requires CancelAt(s, CHECKS, 1, LATE)
    ensures Enabled(s, CONTINUE) && CancelAt(Step(s, CONTINUE), ENDS, 1, LATE) && Step(s, CONTINUE).ret == ECANCELED
  {
    SeesPopped(s, CHECKS, 1);
    LooksAlike(PoppedState(s, 1).k, Popped1(CHECKS, 1), ENDS);
    assert Step(s, CONTINUE) == PoppedState(s, 1).(ret := ECANCELED);
  }

  const LOCKING := [ForLock(DoLock(0, true)), ForThread(DoCreate(6, false))]
  const DOZING := [CONTINUE, ForOwn(DoSleep), CONTINUE]
  const JOINING := [ForLock(DoInitCancel(0, 0)), ForLock(DoLockCancelable(0))]
  const WAKING_HOLDER := [Cpu(EnterIsr), ForThread(DoWakeup(1)), Cpu(ExitIsr)]
  const UNLOCKING := [ForWaking(DoUnlock(0)), CONTINUE]
  const CANCELLING := [ForWaking(DoCancel(0))]
  const NODDING := [ForOwn(DoSleep), CONTINUE]
  const CHECKING := [CONTINUE, CONTINUE]

  lemma RunLocks() returns (s: State)
    ensures Run(Start(5), LOCKING, s) && LockAt(s, MADE, 0)
  {
    var e, f := ForLock(DoLock(0, true)), ForThread(DoCreate(6, false));
    LockBegins();
    var s1 := Step(Start(5), e);
    RunsOne(Start(5), e);
    LockCreates(s1);
    s := Step(s1, f);
    RunsStep(Start(5), [e], s1, f);
    assert [e] + [f] == LOCKING;
  }

  lemma RunDozes(s: State) returns (s': State)
    requires LockAt(s, MADE, 0)
    ensures Run(s, DOZING, s') && LockAt(s', SLEEPS, 1)
  {
    var e := ForOwn(DoSleep);
    LockStays(s);
    var s1 := Step(s, CONTINUE);
    RunsOne(s, CONTINUE);
    LockSleeps(s1);
    var s2 := Step(s1, e);
    RunsStep(s, [CONTINUE], s1, e);
    LockPasses(s2);
    s' := Step(s2, CONTINUE);
    RunsStep(s, [CONTINUE] + [e], s2, CONTINUE);
    assert [CONTINUE] + [e] + [CONTINUE] == DOZING;
  }

  lemma RunJoins(s: State) returns (s': State)
    requires LockAt(s, SLEEPS, 1)
    ensures Run(s, JOINING, s') && CancelAt(s', WAITS, 1, FRESH)
  {
    var e, f := ForLock(DoInitCancel(0, 0)), ForLock(DoLockCancelable(0));
    CancelBegins(s);
    var s1 := Step(s, e);
    RunsOne(s, e);
    CancelBlocks(s1);
    s' := Step(s1, f);
    RunsStep(s, [e], s1, f);
    assert [e] + [f] == JOINING;
  }

  lemma RunWakesHolder(s: State) returns (s': State)
    requires CancelAt(s, WAITS, 1, FRESH)
    ensures Run(s, WAKING_HOLDER, s') && CancelAt(s', AWAKE, 0, FRESH)
  {
    CancelWakesHolder(s);
    var s1 := s.(isr := true);
    var s2 := Wakeup(s1, 1);
    s' := LeaveIsr(s2);
    RunsOne(s, Cpu(EnterIsr));
    RunsStep(s, [Cpu(EnterIsr)], s1, ForThread(DoWakeup(1)));
    RunsStep(s, [Cpu(EnterIsr)] + [ForThread(DoWakeup(1))], s2, Cpu(ExitIsr));
    assert [Cpu(EnterIsr)] + [ForThread(DoWakeup(1))] + [Cpu(ExitIsr)] == WAKING_HOLDER;
  }

  lemma RunUnlocks(s: State) returns (s': State)
    requires CancelAt(s, AWAKE, 0, FRESH)
    ensures Run(s, UNLOCKING, s') && CancelAt(s', READY, 0, FRESH)
  {
    var e := ForWaking(DoUnlock(0));
    CancelUnlocks(s);
    var s1 := Step(s, e);
    RunsOne(s, e);
    CancelStays(s1);
    s' := Step(s1, CONTINUE);
    RunsStep(s, [e], s1, CONTINUE);
    assert [e] + [CONTINUE] == UNLOCKING;
  }

  lemma RunCancels(s: State) returns (s': State)
    requires CancelAt(s, READY, 0, FRESH)
    ensures Run(s, CANCELLING, s') && CancelAt(s', READY, 0, LATE)
  {
    CancelComes(s);
    s' := Step(s, ForWaking(DoCancel(0)));
    RunsOne(s, ForWaking(DoCancel(0)));
  }

  lemma RunNods(s: State) returns (s': State)
    requires CancelAt(s, READY, 0, LATE)
    ensures Run(s, NODDING, s') && CancelAt(s', RUNS, 1, LATE)
  {
    var e := ForOwn(DoSleep);
    CancelSleeps(s);
    var s1 := Step(s, e);
    RunsOne(s, e);
    CancelPasses(s1);
    s' := Step(s1, CONTINUE);
    RunsStep(s, [e], s1, CONTINUE);
    assert [e] + [CONTINUE] == NODDING;
  }

  lemma RunChecks(s: State) returns (s': State)
    requires CancelAt(s, RUNS, 1, LATE)
    ensures Run(s, CHECKING, s') && CancelAt(s', ENDS, 1, LATE) && s'.ret == ECANCELED
  {
    CancelYields(s);
    var s1 := Step(s, CONTINUE);
    RunsOne(s, CONTINUE);
    CancelReturns(s1);
    s' := Step(s1, CONTINUE);
    RunsStep(s, [CONTINUE], s1, CONTINUE);
    assert [CONTINUE] + [CONTINUE] == CHECKING;
  }

  /** The thread has returned from mutex_lock_cancelable with -ECANCELED, and holds mutex 0. */
  predicate CancelledHolding(s: State) {
    s.active == Some(1) && T(s.k, 1).todo == [] && s.ret == ECANCELED && T(s.k, 1).lock == Some(0) && 0 in s.locked
  }

  /** The last step of this run is the return of mutex_lock_cancelable. */
  lemma CancelledCallHoldsMutex()
    ensures Init(Start(5))
    ensures exists s :: Run(Start(5),
        LOCKING + DOZING + JOINING + WAKING_HOLDER + UNLOCKING + CANCELLING + NODDING + CHECKING, s)
              && CancelledHolding(s)
  {
    StartIsInit(5);
    var s1 := RunLocks();
    var s2 := RunDozes(s1);
    var s3 := RunJoins(s2);
    var s4 := RunWakesHolder(s3);
    RunsOn(Start(5), LOCKING, s1, DOZING, s2);
    RunsOn(Start(5), LOCKING + DOZING, s2, JOINING, s3);
    RunsOn(Start(5), LOCKING + DOZING + JOINING, s3, WAKING_HOLDER, s4);
    var s8 := RunToReturn(LOCKING + DOZING + JOINING + WAKING_HOLDER, s4);
    assert Watched(T(s8.k, 1)) == ENDS.threads[1];
  }

  lemma RunToReturn(es: seq<Event>, s4: State) returns (s8: State)
    requires Run(Start(5), es, s4) && CancelAt(s4, AWAKE, 0, FRESH)
    ensures Run(Start(5), es + UNLOCKING + CANCELLING + NODDING + CHECKING, s8)
    ensures CancelAt(s8, ENDS, 1, LATE) && s8.ret == ECANCELED
  {
    var s5 := RunUnlocks(s4);
    var s6 := RunCancels(s5);
    var s7 := RunNods(s6);
    s8 := RunChecks(s7);
    RunsOn(Start(5), es, s4, UNLOCKING, s5);
    RunsOn(Start(5), es + UNLOCKING, s5, CANCELLING, s6);
    RunsOn(Start(5), es + UNLOCKING + CANCELLING, s6, NODDING, s7);
    RunsOn(Start(5), es + UNLOCKING + CANCELLING + NODDING, s7, CHECKING, s8);
  }

  // ---------------------------------------------------------------- msg_send_receive and msg_reply

  /** One thread, and no other to send a request to. */
  lemma MissingTargetAtStart(value: int)
    ensures Init(Start(5)) && Lookup(Start(5), 2) == None && RunsOffQueue(SendReceive(Start(5), 0, 2, value), 0)
  {
    StartIsInit(5);
    MissingTargetTakesCallerOffQueue(Start(5), 0, 2, value);
  }

  /** The thread that asks, thread 0, has priority 5, and the one that is asked, thread 1, priority 6. */
  function Asking(asker: Status, todo0: seq<Act>, asked: Status, queues: map<ListId, seq<Tid>>): Sight {
    Sight([Seen(asker, 5, todo0, None), Seen(asked, 6, [], None)], queues)
  }

  /** Thread a is at work, and thread 1 has no message queue. */
  ghost predicate AskAt(s: State, v: Sight, a: Tid) {
    && Looks(s.k, v) && AtWork(s, a) && s.activePid == a + 1 && Lookup(s, 1) == Some(0) && Lookup(s, 2) == Some(1)
    && QueueFull(T(s.k, 1)) && T(s.k, 1).pid == 2
  }

  const BORN := Asking(Running, [Switch(6)], Pending, map[Rq(5) := [0], Rq(6) := [1]])
  const ALONE := Asking(Running, [], Pending, map[Rq(5) := [0], Rq(6) := [1]])
  const ASKED := Asking(ReplyBlocked, [Yield, Replied], Pending, map[Rq(6) := [1], Senders(1) := [0]])
  const ANSWERS := Asking(ReplyBlocked, [Replied], Running, map[Rq(6) := [1], Senders(1) := [0]])

  lemma AskBegins()
    ensures var e := ForThread(DoCreate(6, false)); Enabled(Start(5), e) && AskAt(Step(Start(5), e), BORN, 0)
  {
    var s := Start(5);
    var v := Sight([Seen(Running, 5, [], None)], map[Rq(5) := [0]]);
    assert Looks(s.k, v);
    assert FreePid(s.pids, 1) == FreePid(s.pids, 2) == Some(2);
    SeesBorn(s.k, v, 6, 2, false);
    var k1 := Born(s.k, 6, 2, false);
    SeesOwe(k1, On(Joined(v, 6, Stopped), 1, Pending), 0, [Switch(6)]);
    LooksBorn(Owe(k1, 0, [Switch(6)]));
  }

  lemma LooksBorn(k: Core)
    requires var v := Sight([Seen(Running, 5, [], None)], map[Rq(5) := [0]]);
             Looks(k, Owing(On(Joined(v, 6, Stopped), 1, Pending), 0, [Switch(6)]))
    ensures Looks(k, BORN)
  {
    var v := Sight([Seen(Running, 5, [], None)], map[Rq(5) := [0]]);
    LooksAlike(k, Owing(On(Joined(v, 6, Stopped), 1, Pending), 0, [Switch(6)]), BORN);
  }

  lemma AskStays(s: State)
    requires AskAt(s, BORN, 0)
    ensures Enabled(s, CONTINUE) && AskAt(Step(s, CONTINUE), ALONE, 0)
  {
    assert Watched(T(s.k, 0)) == BORN.threads[0];
    SeesNoSwitch(s, BORN, 0);
    LooksAlike(Step(s, CONTINUE).k, Popped1(BORN, 0), ALONE);
    assert Step(s, CONTINUE) == PoppedState(s, 0);
  }

  lemma SeesAsk(k: Core, m: Msg)
    requires Looks(k, ALONE)
    ensures var k1 := Owe(Ask(k, 0, m), 0, [Replied]);
            Looks(k1, Owing(Off(ALONE, 0, ReplyBlocked), 0, [Replied])) && T(k1, 1) == T(k, 1)
  {
    SeesTick(k, ALONE);
    SeesBlock(Tick(k), ALONE, 0, ReplyBlocked);
    var k1, v1 := SetStatus(Tick(k), 0, ReplyBlocked), Off(ALONE, 0, ReplyBlocked);
    assert Watched(T(k1, 0)) == v1.threads[0] && WithThread(v1, 0, v1.threads[0]) == v1;
    SeesRecord(k1, v1, 0, T(k1, 0).(wait := Buffer(m), answerable := false, answer := None, mail := None));
    SeesOwe(Ask(k, 0, m), v1, 0, [Replied]);
    assert Watched(T(k, 0)) == ALONE.threads[0] && T(Tick(k), 1) == T(k, 1);
  }

  lemma SeesJoin(k: Core, m: Msg)
    requires Looks(k, Owing(Off(ALONE, 0, ReplyBlocked), 0, [Replied])) && QueueFull(T(k, 1))
    ensures var k1 := SendBlock(k, 0, 1, m); var y := T(k1, 1);
            && Looks(k1, WithQueue(Owing(Off(ALONE, 0, ReplyBlocked), 0, [Replied]), Senders(1), [0]))
            && y.status == Pending && QueueFull(y) && y.pid == T(k, 1).pid
  {
    var v := Owing(Off(ALONE, 0, ReplyBlocked), 0, [Replied]);
    assert Watched(T(k, 0)) == v.threads[0] && Watched(T(k, 1)) == v.threads[1];
    SeesRecord(k, v, 0, T(k, 0).(wait := Buffer(m), answer := None, mail := None));
    var k0 := Park(k, 0, Buffer(m));
    assert WithThread(v, 0, v.threads[0]) == v;
    assert SetStatus(k0, 0, ReplyBlocked) == k0;
    SeesEnlist(k0, v, Senders(1), 0);
    var k1, v1 := AddToList(k0, Senders(1), 0), WithQueue(v, Senders(1), [0]);
    assert Watched(T(k1, 1)) == v1.threads[1] && WithThread(v1, 1, v1.threads[1]) == v1;
    SeesRecord(k1, v1, 1, T(k1, 1).(sent := T(k1, 1).sent + [m]));
  }

  /** The request finds neither a receiver nor room, and waits among the senders. */
  lemma AskWaits(s: State)
    requires AskAt(s, ALONE, 0)
    ensures Enabled(s, ForMsg(DoSendReceive(2, 7))) && AskAt(Step(s, ForMsg(DoSendReceive(2, 7))), ASKED, 0)
  {
    var m := Stamp(s, 7, Some(0));
    assert Watched(T(s.k, 0)) == ALONE.threads[0] && Watched(T(s.k, 1)) == ALONE.threads[1];
    SeesAsk(s.k, m);
    var k1 := Owe(Ask(s.k, 0, m), 0, [Replied]);
    SeesJoin(k1, m);
    var k2 := SendBlock(k1, 0, 1, m);
    AskRaises(s.(k := k2, ret := 1));
    AskIs(s, m);
  }

  lemma AskIs(s: State, m: Msg)
    requires m == Stamp(s, 7, Some(0)) && Lookup(s, 2) == Some(1)
    requires var k1 := Owe(Ask(s.k, 0, m), 0, [Replied]); T(k1, 1).status == Pending && QueueFull(T(k1, 1))
    ensures var k1 := Owe(Ask(s.k, 0, m), 0, [Replied]);
            SendReceive(s, 0, 2, 7) ==
              Then(RaiseFlags(s.(k := SendBlock(k1, 0, 1, m), ret := 1), 1, MSG_WAITING), Yield)
  {
  }

  lemma AskRaises(s: State)
    requires Looks(s.k, WithQueue(Owing(Off(ALONE, 0, ReplyBlocked), 0, [Replied]), Senders(1), [0]))
    requires T(s.k, 1).status == Pending && QueueFull(T(s.k, 1)) && AtWork(s, 0)
    ensures var s' := Then(RaiseFlags(s, 1, MSG_WAITING), Yield);
            && Looks(s'.k, ASKED) && AtWork(s', 0) && s'.pids == s.pids && s'.activePid == s.activePid
            && QueueFull(T(s'.k, 1)) && T(s'.k, 1).pid == T(s.k, 1).pid
  {
    var v := WithQueue(Owing(Off(ALONE, 0, ReplyBlocked), 0, [Replied]), Senders(1), [0]);
    var k1 := SetT(s.k, 1, WithFlags(T(s.k, 1), MSG_WAITING));
    assert Watched(T(s.k, 1)) == v.threads[1] && WithThread(v, 1, v.threads[1]) == v;
    SeesRecord(s.k, v, 1, WithFlags(T(s.k, 1), MSG_WAITING));
    assert RaiseFlags(s, 1, MSG_WAITING) == s.(k := k1);
    SeesOwe(k1, v, 0, [Yield]);
    LooksAlike(Owe(k1, 0, [Yield]), Owing(v, 0, [Yield]), ASKED);
  }

  lemma AskPasses(s: State)
    requires AskAt(s, ASKED, 0)
    ensures Enabled(s, CONTINUE) && Looks(Step(s, CONTINUE).k, ANSWERS) && AtWork(Step(s, CONTINUE), 1)
    ensures Lookup(Step(s, CONTINUE), 1) == Some(0)
  {
    forall q: nat | q < 6 ensures Queue(ASKED, Rq(q)) == [] { }
    SeesYield(s, ASKED, 0, 6);
    LooksAlike(Step(s, CONTINUE).k, Chosen(Popped1(ASKED, 0), 0, 1), ANSWERS);
  }

  const REQUESTING := [ForThread(DoCreate(6, false)), CONTINUE]
  const ASKING := [ForMsg(DoSendReceive(2, 7)), CONTINUE]

  lemma RunRequests() returns (s: State)
    ensures Run(Start(5), REQUESTING, s) && AskAt(s, ALONE, 0)
  {
    var e := ForThread(DoCreate(6, false));
    AskBegins();
    var s1 := Step(Start(5), e);
    RunsOne(Start(5), e);
    AskStays(s1);
    s := Step(s1, CONTINUE);
    RunsStep(Start(5), [e], s1, CONTINUE);
    assert [e] + [CONTINUE] == REQUESTING;
  }

  lemma RunAsks(s: State) returns (s': State)
    requires AskAt(s, ALONE, 0)
    ensures Run(s, ASKING, s') && Looks(s'.k, ANSWERS) && AtWork(s', 1) && Lookup(s', 1) == Some(0)
  {
    var e := ForMsg(DoSendReceive(2, 7));
    AskWaits(s);
    var s1 := Step(s, e);
    RunsOne(s, e);
    AskPasses(s1);
    s' := Step(s1, CONTINUE);
    RunsStep(s, [e], s1, CONTINUE);
    assert [e] + [CONTINUE] == ASKING;
  }

  /** The thread that is asked can call msg_reply before it has received the request, and that breaks
      the lists. */
  ghost predicate EarlyReply(s: State, reply: Msg) {
    && Calling(s) && s.active == Some(1) && Lookup(s, 1) == Some(0) && T(s.k, 0).status == ReplyBlocked
    && !Links(Answer(s.k, 0, reply))
  }

  lemma EarlyReplyHappens(reply: Msg)
    ensures Init(Start(5)) && exists s :: Run(Start(5), REQUESTING + ASKING, s) && EarlyReply(s, reply)
  {
    StartIsInit(5);
    var s1 := RunRequests();
    var s2 := RunAsks(s1);
    RunsOn(Start(5), REQUESTING, s1, ASKING, s2);
    StartReaches(5, REQUESTING + ASKING, s2);
    LooksEarly(s2, reply);
  }

  lemma StartReaches(p: nat, es: seq<Event>, s: State)
    requires p < LEVELS && Run(Start(p), es, s)
    ensures Reachable(s)
  {
    StartIsInit(p);
  }

  lemma LooksEarly(s: State, reply: Msg)
    requires Reachable(s) && Looks(s.k, ANSWERS) && AtWork(s, 1) && Lookup(s, 1) == Some(0)
    ensures EarlyReply(s, reply)
  {
    ReachableOk(s);
    assert Watched(T(s.k, 0)) == ANSWERS.threads[0] && Watched(T(s.k, 1)) == ANSWERS.threads[1];
    assert L(s.k, Senders(1)) == Queue(ANSWERS, Senders(1)) == [0];
    EarlyAnswer(s.k, reply);
  }

  lemma EarlyAnswer(k: Core, reply: Msg)
    requires Links(k) && L(k, Senders(1)) == [0] && T(k, 0).status == ReplyBlocked
    ensures !Links(Answer(k, 0, reply))
  {
    assert ListOk(k, Senders(1)) && L(k, Senders(1))[0] == 0;
    EarlyReplyBreaksLinks(k, 0, reply);
  }
}
