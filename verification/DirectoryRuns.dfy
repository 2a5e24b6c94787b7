/** What holds of the resource directory in every run: of registrations, updates, deletions, requests
    that are refused, and timers that end. */
module DirectoryRuns {
  import opened Registry
  import opened ResourceDirectory

  /** How a directory was set up: proxy_domain, and the int() of a parameter. */
  datatype Setting = Setting(domain: string, toInt: string -> Option<int>)

  function Next(c: Setting, s: Store, e: Event): Store
    requires Proper(s.tables, e)
  {
    Apply(s, e, c.domain, c.toInt).0
  }

  /** The error that answers the request, if it is refused. */
  function Refusal(c: Setting, s: Store, e: Event): Option<Error>
    requires Proper(s.tables, e)
  {
    Apply(s, e, c.domain, c.toInt).1
  }

  ghost predicate Run(c: Setting, s: Store, es: seq<Event>, s': Store)
    decreases |es|
  {
    if es == [] then s' == s
    else Proper(s.tables, es[0]) && Run(c, Next(c, s, es[0]), es[1..], s')
  }

  ghost predicate Reachable(c: Setting, s: Store) {
    exists es :: Run(c, EMPTY_STORE, es, s)
  }

  lemma {:induction false} RunOk(c: Setting, s: Store, es: seq<Event>, s': Store)
    requires StoreOk(s, c.domain) && Run(c, s, es, s')
    ensures StoreOk(s', c.domain)
    decreases |es|
  {
    if es != [] {
      ApplyOk(s, es[0], c.domain, c.toInt);
      RunOk(c, Next(c, s, es[0]), es[1..], s');
    }
  }

  /** In every reachable state both dictionaries and the timers know the same registrations, and
      paths, hosts and proxy_active are consistent. */
  lemma ReachableOk(c: Setting, s: Store)
    requires Reachable(c, s)
    ensures StoreOk(s, c.domain)
  {
    var es :| Run(c, EMPTY_STORE, es, s);
    EmptyOk(c.domain);
    RunOk(c, EMPTY_STORE, es, s);
  }

  // ---------------------------------------------------------------- the dictionaries and the timers

  /** A registered endpoint has one path and one timer, which lead back to it, and no other path or
      timer does. */
  lemma OneEntryEach(c: Setting, s: Store, key: Key)
    requires Reachable(c, s) && key in s.tables.byKey
    ensures var t := s.tables; var r := t.byKey[key];
            && r in t.objects && t.objects[r].key == key
            && (forall p :: p in t.byPath && t.byPath[p] == r <==> p == t.objects[r].info.tail)
            && (forall i :: i in t.timers && t.timers[i] == r <==> i == t.objects[r].timeout)
  {
    ReachableOk(c, s);
    assert Live(s.tables, s.tables.byKey[key]);
  }

  /** Every path and every timer leads to a registered endpoint. */
  lemma NoStrayEntries(c: Setting, s: Store)
    requires Reachable(c, s)
    ensures forall p :: p in s.tables.byPath ==> LeadsBack(s.tables, s.tables.byPath[p])
    ensures forall i :: i in s.tables.timers ==> LeadsBack(s.tables, s.tables.timers[i])
    ensures |s.tables.byPath| == |s.tables.byKey| == |s.tables.timers|
  {
    ReachableOk(c, s);
    PathsAreKeys(s.tables);
    TimersAreKeys(s.tables);
  }

  function PathsOf(t: Tables): map<Key, nat> {
    map k | k in t.byKey :: if t.byKey[k] in t.objects then t.objects[t.byKey[k]].info.tail else 0
  }

  function TimersOf(t: Tables): map<Key, nat> {
    map k | k in t.byKey :: if t.byKey[k] in t.objects then t.objects[t.byKey[k]].timeout else 0
  }

  lemma PathsAreKeys(t: Tables)
    requires Indexed(t)
    ensures (forall p :: p in t.byPath ==> LeadsBack(t, t.byPath[p])) && |t.byPath| == |t.byKey|
  {
    var f := PathsOf(t);
    forall p | p in t.byPath ensures t.objects[t.byPath[p]].key in f && f[t.objects[t.byPath[p]].key] == p {
      assert Live(t, t.byPath[p]);
    }
    forall k | k in f ensures f[k] in t.byPath && t.byPath[f[k]] == t.byKey[k] { assert Live(t, t.byKey[k]); }
    KeyOfRef(t);
    OntoHasSize(f, t.byPath.Keys);
    assert f.Keys == t.byKey.Keys;
  }

  lemma KeyOfRef(t: Tables)
    requires Indexed(t)
    ensures forall k, m :: k in t.byKey && m in t.byKey && t.byKey[k] == t.byKey[m] ==> k == m
  {
    forall k | k in t.byKey ensures t.objects[t.byKey[k]].key == k { assert Live(t, t.byKey[k]); }
  }

  lemma TimersAreKeys(t: Tables)
    requires Indexed(t) && Timed(t)
    ensures (forall i :: i in t.timers ==> LeadsBack(t, t.timers[i])) && |t.timers| == |t.byKey|
  {
    var f := TimersOf(t);
    forall i | i in t.timers ensures t.objects[t.timers[i]].key in f && f[t.objects[t.timers[i]].key] == i {
      assert Live(t, t.timers[i]);
    }
    forall k | k in f ensures f[k] in t.timers && t.timers[f[k]] == t.byKey[k] { assert Live(t, t.byKey[k]); }
    KeyOfRef(t);
    OntoHasSize(f, t.timers.Keys);
    assert f.Keys == t.byKey.Keys;
  }

  predicate LeadsBack(t: Tables, r: Ref) {
    r in t.objects && t.objects[r].key in t.byKey && t.byKey[t.objects[r].key] == r
  }

  /** A map that takes its keys to different numbers, and onto a set of numbers. */
  lemma {:induction false} OntoHasSize(f: map<Key, nat>, numbers: set<nat>)
    requires forall k :: k in f ==> f[k] in numbers
    requires forall k, m :: k in f && m in f && f[k] == f[m] ==> k == m
    requires forall n :: n in numbers ==> exists k :: k in f && f[k] == n
    ensures |f| == |numbers|
    decreases |numbers|
  {
    if numbers == {} {
      assert f == map[];
    } else {
      var n :| n in numbers;
      var k :| k in f && f[k] == n;
      forall m | m in numbers - {n} ensures exists j :: j in f - {k} && (f - {k})[j] == m {
        var j :| j in f && f[j] == m;
        assert j in f - {k};
      }
      OntoHasSize(f - {k}, numbers - {n});
      assert f.Keys == (f - {k}).Keys + {k};
    }
  }

  // ---------------------------------------------------------------- paths

  function PathOf(s: Store, key: Key): Option<nat> {
    if key in Abstract(s).regs then Some(Abstract(s).regs[key].tail) else None
  }

  lemma RegisteredIs(s: Store, key: Key, domain: string)
    requires StoreOk(s, domain)
    ensures key in s.tables.byKey <==> key in Abstract(s).regs
  {
    if key in s.tables.byKey { assert Live(s.tables, s.tables.byKey[key]); }
  }

  lemma RegisterKeepsPaths(dir: Directory, remote: Remote, params: Params, domain: string,
      toInt: string -> Option<int>, key: Key)
    requires Split(params)
    ensures var d := Register(dir, remote, params, domain, toInt).0;
            key in dir.regs && key in d.regs ==> d.regs[key].tail == dir.regs[key].tail
  {
    if Register(dir, remote, params, domain, toInt).1.None? {
      RegistrationPath(dir, remote, params, domain, toInt);
    } else {
      FailedRegistration(dir, remote, params, domain, toInt);
    }
  }

  lemma RenewKeepsPaths(dir: Directory, key: Key, remote: Remote, params: Params, toInt: string -> Option<int>,
      other: Key)
    requires Split(params) && key in dir.regs && other in dir.regs
    ensures var d := Renew(dir, key, remote, params, toInt).0;
        other in d.regs && d.regs[other].tail == dir.regs[other].tail
  {
    UpdateKeepsIdentity(dir.regs[key], remote, params, false, toInt);
  }

  /** An endpoint that is registered before and after an event has the same path, whatever the event:
      its own re-registration, an update, or anything that concerns others. */
  lemma KeyKeepsPath(c: Setting, s: Store, e: Event, key: Key)
    requires StoreOk(s, c.domain) && Proper(s.tables, e)
    requires key in s.tables.byKey && key in Next(c, s, e).tables.byKey
    ensures PathOf(s, key).Some? && PathOf(Next(c, s, e), key) == PathOf(s, key)
  {
    ApplyOk(s, e, c.domain, c.toInt);
    RegisteredIs(s, key, c.domain);
    RegisteredIs(Next(c, s, e), key, c.domain);
    match e
    case DoRegister(remote, params) =>
      RegisteredOk(s, remote, params, c.domain, c.toInt);
      RegisterKeepsPaths(Abstract(s), remote, params, c.domain, c.toInt, key);
    case DoUpdate(path, remote, params) =>
      if At(s.tables, path).Some? { UpdateKeepsPath(c, s, At(s.tables, path).value, remote, params, key); }
    case DoDelete(path) =>
      if At(s.tables, path).Some? { DropKeepsPath(c, s, At(s.tables, path).value, key); }
    case DoExpire(timer) => DropKeepsPath(c, s, s.tables.timers[timer], key);
  }

  lemma DropKeepsPath(c: Setting, s: Store, r: Ref, key: Key)
    requires StoreOk(s, c.domain) && Live(s.tables, r)
    ensures PathOf(Dropped(s, r), key) == if key == s.tables.objects[r].key then None else PathOf(s, key)
  {
    DroppedOk(s, r, c.domain);
  }

  lemma UpdateKeepsPath(c: Setting, s: Store, r: Ref, remote: Remote, params: Params, key: Key)
    requires StoreOk(s, c.domain) && Live(s.tables, r) && Split(params) && key in Abstract(s).regs
    ensures PathOf(Updated(s, r, remote, params, c.toInt).0, key) == PathOf(s, key)
  {
    UpdatedOk(s, r, remote, params, c.domain, c.toInt);
    RenewKeepsPaths(Abstract(s), s.tables.objects[r].key, remote, params, c.toInt, key);
  }

  /** The endpoint is registered throughout the run. */
  ghost predicate Stays(c: Setting, s: Store, es: seq<Event>, key: Key)
    decreases |es|
  {
    && key in s.tables.byKey
    && (es != [] ==> Proper(s.tables, es[0]) && Stays(c, Next(c, s, es[0]), es[1..], key))
  }

  /** Over any run, a key keeps its path while it stays registered. */
  lemma {:induction false} KeyKeepsPathOverRuns(c: Setting, s: Store, es: seq<Event>, s': Store, key: Key)
    requires StoreOk(s, c.domain) && Run(c, s, es, s') && Stays(c, s, es, key)
    ensures PathOf(s', key) == PathOf(s, key)
    decreases |es|
  {
    if es != [] {
      ApplyOk(s, es[0], c.domain, c.toInt);
      KeyKeepsPath(c, s, es[0], key);
      KeyKeepsPathOverRuns(c, Next(c, s, es[0]), es[1..], s', key);
    }
  }

  // ---------------------------------------------------------------- requests that are refused

  /** A refusal that leaves everything as it was.  A registration is refused without harm if it fails
      the early checks, or if the endpoint was not registered; an update unless it fails after it has
      set another lifetime. */
  predicate Harmless(c: Setting, s: Store, e: Event)
    requires Proper(s.tables, e)
  {
    match e
    case DoRegister(remote, params) =>
      Admit(params, c.domain).Err? || Admit(params, c.domain).value.key !in s.tables.byKey
    case DoUpdate(path, remote, params) =>
      At(s.tables, path).None? ||
        KeepsLifetime(s.tables.objects[At(s.tables, path).value].info, remote, params, c.toInt)
    case _ => true
  }

  /** The update fails its checks, or asks for no other lifetime. */
  predicate KeepsLifetime(info: Info, remote: Remote, params: Params, toInt: string -> Option<int>)
    requires Split(params)
  {
    var check := Check(info, remote, params, false, toInt);
    check.Err? || check.value.lt.None? || check.value.lt.value == info.lt
  }

  /** Nothing but the number of objects made so far may differ. */
  predicate Unharmed(s: Store, s': Store) {
    s'.tables == s.tables && s'.proxies == s.proxies && s'.told == s.told
  }

  lemma RefusedRegistration(c: Setting, s: Store, remote: Remote, params: Params)
    requires StoreOk(s, c.domain) && Split(params)
    requires Registered(s, remote, params, c.domain, c.toInt).1.Some?
    ensures Unharmed(s, Registered(s, remote, params, c.domain, c.toInt).0) <==>
        Harmless(c, s, DoRegister(remote, params))
  {
    RestIsSplit(params, c.domain);
    if Admit(params, c.domain).Ok? {
      VacatedTells(s, Admit(params, c.domain).value.key, c.domain);
      RefusedPlace(s, Admit(params, c.domain).value, remote, c.toInt);
    }
  }

  lemma RefusedPlace(s: Store, q: Request, remote: Remote, toInt: string -> Option<int>)
    requires Split(q.rest) && Placed(s, q, remote, toInt).1.Some?
    ensures Placed(s, q, remote, toInt).0 == Vacated(s, q.key).(nextRef := Vacated(s, q.key).nextRef + 1)
  {
  }

  lemma VacatedTells(s: Store, key: Key, domain: string)
    requires StoreOk(s, domain)
    ensures if key in s.tables.byKey then Vacated(s, key).told == s.told + 1 else Vacated(s, key) == s
  {
    if key in s.tables.byKey { assert Live(s.tables, s.tables.byKey[key]); }
  }

  lemma RefusedUpdate(c: Setting, s: Store, r: Ref, remote: Remote, params: Params)
    requires r in s.tables.objects && Split(params) && Updated(s, r, remote, params, c.toInt).1.Some?
    ensures Unharmed(s, Updated(s, r, remote, params, c.toInt).0)
            <==> KeepsLifetime(s.tables.objects[r].info, remote, params, c.toInt)
  {
    var info := s.tables.objects[r].info;
    RejectedUpdate(info, remote, params, c.toInt);
    var o := Update(info, remote, params, false, c.toInt);
    if o.info == info {
      assert s.tables.objects[r := s.tables.objects[r].(info := info)] == s.tables.objects;
    } else {
      assert With(s.tables, r, o.info).objects[r].info != info;
    }
  }

  /** A request that is refused changes nothing exactly if the refusal is harmless. */
  lemma RefusedChangesNothing(c: Setting, s: Store, e: Event)
    requires Reachable(c, s) && Proper(s.tables, e) && Refusal(c, s, e).Some?
    ensures Unharmed(s, Next(c, s, e)) <==> Harmless(c, s, e)
  {
    ReachableOk(c, s);
    if e.DoRegister? {
      RefusedRegistration(c, s, e.remote, e.params);
    } else if At(s.tables, e.path).Some? {
      RefusedUpdateAt(c, s, e);
    } else {
      assert Next(c, s, e) == s;
    }
  }

  lemma RefusedUpdateAt(c: Setting, s: Store, e: Event)
    requires e.DoUpdate? && Proper(s.tables, e) && At(s.tables, e.path).Some? && Refusal(c, s, e).Some?
    ensures Unharmed(s, Next(c, s, e)) <==> Harmless(c, s, e)
  {
    RefusedUpdate(c, s, At(s.tables, e.path).value, e.remote, e.params);
  }

  // ---------------------------------------------------------------- timers

  /** An update that succeeds cancels the timer of its registration and starts a new one, and touches
      no other timer and no other registration. */
  lemma UpdateRestartsTimer(c: Setting, s: Store, path: nat, remote: Remote, params: Params)
    requires Reachable(c, s) && Split(params) && At(s.tables, path).Some?
    requires Refusal(c, s, DoUpdate(path, remote, params)).None?
    ensures var t, t' := s.tables, Next(c, s, DoUpdate(path, remote, params)).tables; var r := t.byPath[path];
            && t.objects[r].timeout !in t'.timers && t'.objects[r].timeout !in t.timers
            && t'.timers == (t.timers - {t.objects[r].timeout})[t'.objects[r].timeout := r]
            && t'.byKey == t.byKey && t'.byPath == t.byPath
            && forall x :: x in t.objects && x != r ==> x in t'.objects && t'.objects[x] == t.objects[x]
  {
    ReachableOk(c, s);
    assert Live(s.tables, s.tables.byPath[path]);
  }

  /** A timer that ends takes out its registration, with path and host, and no other. */
  lemma ExpiryEndsOne(c: Setting, s: Store, timer: nat)
    requires Reachable(c, s) && timer in s.tables.timers
    ensures var t, s' := s.tables, Next(c, s, DoExpire(timer)); var r := t.timers[timer];
            && r in t.objects && t.objects[r].key in t.byKey
            && Abstract(s') == Removed(Abstract(s), t.objects[r].key)
            && s'.tables.timers == t.timers - {timer} && s'.tables.byPath == t.byPath - {t.objects[r].info.tail}
            && s'.told == s.told + 1
  {
    ReachableOk(c, s);
    DroppedOk(s, s.tables.timers[timer], c.domain);
    ExpiryIs(c, s, timer);
  }

  /** A deletion takes out the registration at its path, with its timer and host, and no other. */
  lemma DeletionEndsOne(c: Setting, s: Store, path: nat)
    requires Reachable(c, s) && path in s.tables.byPath
    ensures var t, s' := s.tables, Next(c, s, DoDelete(path)); var r := t.byPath[path];
            && Refusal(c, s, DoDelete(path)) == None && r in t.objects && t.objects[r].key in t.byKey
            && s'.tables.byKey == t.byKey - {t.objects[r].key} && s'.tables.byPath == t.byPath - {path}
            && s'.tables.timers == t.timers - {t.objects[r].timeout}
            && Abstract(s') == Removed(Abstract(s), t.objects[r].key) && s'.told == s.told + 1
  {
    ReachableOk(c, s);
    assert Live(s.tables, s.tables.byPath[path]);
    DroppedOk(s, s.tables.byPath[path], c.domain);
  }

  /** A request to a path that is not in use is answered so, and changes nothing. */
  lemma UnknownPathIsRefused(c: Setting, s: Store, path: nat, remote: Remote, params: Params)
    requires path !in s.tables.byPath && Split(params)
    ensures Refusal(c, s, DoUpdate(path, remote, params)) == Refusal(c, s, DoDelete(path)) == Some(NotFound)
    ensures Next(c, s, DoUpdate(path, remote, params)) == Next(c, s, DoDelete(path)) == s
  {
  }

  lemma ExpiryIs(c: Setting, s: Store, timer: nat)
    requires timer in s.tables.timers && Live(s.tables, s.tables.timers[timer])
    requires s.tables.objects[s.tables.timers[timer]].timeout == timer
    ensures var t, s' := s.tables, Next(c, s, DoExpire(timer)); var r := t.timers[timer];
            && s' == Dropped(s, r) && s'.tables.timers == t.timers - {timer}
            && s'.tables.byPath == t.byPath - {t.objects[r].info.tail} && s'.told == s.told + 1
  {
  }

  // ---------------------------------------------------------------- observers

  /** Observers are told of every change of a registration but one: an update that fails after it has
      set another lifetime. */
  lemma ChangesAreTold(c: Setting, s: Store, e: Event)
    requires Reachable(c, s) && Proper(s.tables, e) && Abstract(Next(c, s, e)).regs != Abstract(s).regs
    ensures Next(c, s, e).told == s.told <==> e.DoUpdate? && Refusal(c, s, e).Some?
  {
    ReachableOk(c, s);
    match e
    case DoRegister(remote, params) => RestIsSplit(params, c.domain); RegistrationIsTold(c, s, remote, params);
    case DoUpdate(path, remote, params) =>
      if At(s.tables, path).Some? { UpdateIsTold(c, s, At(s.tables, path).value, remote, params); }
    case DoDelete(path) =>
    case DoExpire(timer) =>
  }

  lemma RegistrationIsTold(c: Setting, s: Store, remote: Remote, params: Params)
    requires StoreOk(s, c.domain) && Split(params)
    requires Abstract(Registered(s, remote, params, c.domain, c.toInt).0).regs != Abstract(s).regs
    ensures Registered(s, remote, params, c.domain, c.toInt).0.told > s.told
  {
    RestIsSplit(params, c.domain);
    var q := Admit(params, c.domain);
    if q.Ok? && Registered(s, remote, params, c.domain, c.toInt).1.Some? {
      RefusedRegistration(c, s, remote, params);
    }
  }

  lemma UpdateIsTold(c: Setting, s: Store, r: Ref, remote: Remote, params: Params)
    requires StoreOk(s, c.domain) && Live(s.tables, r) && Split(params)
    requires Abstract(Updated(s, r, remote, params, c.toInt).0).regs != Abstract(s).regs
    ensures Updated(s, r, remote, params, c.toInt).0.told == s.told <==> Updated(s, r, remote, params, c.toInt).1.Some?
  {
    var info := s.tables.objects[r].info;
    var o := Update(info, remote, params, false, c.toInt);
    if o.error.None? {
      UpdatesNotifyOfChanges(info, remote, params, c.toInt);
      UpdatedOk(s, r, remote, params, c.domain, c.toInt);
      if o.info == info { SameInfoSameData(s, r, remote, params, c); }
    }
  }

  lemma SameInfoSameData(s: Store, r: Ref, remote: Remote, params: Params, c: Setting)
    requires StoreOk(s, c.domain) && Live(s.tables, r) && Split(params)
    requires Update(s.tables.objects[r].info, remote, params, false, c.toInt).info == s.tables.objects[r].info
    ensures Abstract(Updated(s, r, remote, params, c.toInt).0).regs == Abstract(s).regs
  {
    UpdatedOk(s, r, remote, params, c.domain, c.toInt);
    RejectedOk(s, r, s.tables.objects[r].info, c.domain);
    RenewsNothing(Abstract(s), s.tables.objects[r].key, remote, params, c.toInt);
  }

  lemma RenewsNothing(dir: Directory, key: Key, remote: Remote, params: Params, toInt: string -> Option<int>)
    requires Split(params) && key in dir.regs &&
        Update(dir.regs[key], remote, params, false, toInt).info == dir.regs[key]
    ensures Renew(dir, key, remote, params, toInt).0.regs == dir.regs
  {
    assert dir.regs[key := dir.regs[key]] == dir.regs;
  }

  // ---------------------------------------------------------------- an example

  const CLIENT := Remote(1, Some("coap://h"))
  const FIRST: Params := map["ep" := [Some("e")]]
  const LATE: Params := map["base" := [Some("coap://h")], "lt" := [Some("60")]]

  /** An endpoint registers without a base, and then names the base that it has in an update: the
      update fails, and has shortened the lifetime by then. */
  lemma LateFailureHappens(c: Setting)
    requires c.toInt("60") == Some(60)
    ensures exists s ::
              Run(c, EMPTY_STORE, [DoRegister(CLIENT, FIRST)], s) && FailsLate(c, s, DoUpdate(1, CLIENT, LATE))
  {
    var s := Next(c, EMPTY_STORE, DoRegister(CLIENT, FIRST));
    FirstRegistration(c);
    assert [DoRegister(CLIENT, FIRST)][1..] == [];
    assert Run(c, s, [], s);
    assert Run(c, EMPTY_STORE, [DoRegister(CLIENT, FIRST)], s);
    LateUpdate(c, s);
  }

  predicate FailsLate(c: Setting, s: Store, e: Event) {
    && Proper(s.tables, e) && e.DoUpdate? && At(s.tables, e.path).Some? && Refusal(c, s, e) == Some(Crash)
    && s.tables.objects[At(s.tables, e.path).value].info.lt == 90000
    && Next(c, s, e).tables.objects[At(s.tables, e.path).value].info.lt == 60
  }

  lemma FirstRegistration(c: Setting)
    ensures var s := Next(c, EMPTY_STORE, DoRegister(CLIENT, FIRST));
            && At(s.tables, 1) == Some(0) && 0 in s.tables.objects
            && s.tables.objects[0].info == Info(1, None, map["ep" := [Some("e")]], 90000, "coap://h", false)
  {
    RestIsSplit(FIRST, c.domain);
    var none: Params := map[];
    assert FIRST - {"ep", "d", "proxy"} == none && none - {"lt", "base"} == none;
    assert (map k | k in FIRST && k in {"ep", "d"} :: FIRST[k]) == FIRST;
    assert PathFor(NO_TABLES, Key("e", None)) == 1;
    assert FIRST + none == FIRST;
  }

  lemma LateUpdate(c: Setting, s: Store)
    requires c.toInt("60") == Some(60) && At(s.tables, 1) == Some(0) && 0 in s.tables.objects
    requires s.tables.objects[0].info == Info(1, None, map["ep" := [Some("e")]], 90000, "coap://h", false)
    ensures FailsLate(c, s, DoUpdate(1, CLIENT, LATE))
  {
    RejectedUpdate(s.tables.objects[0].info, CLIENT, LATE, c.toInt);
  }
}
