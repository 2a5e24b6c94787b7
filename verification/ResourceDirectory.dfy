/** The resource directory as it stores its data: registration objects, the two dictionaries that
    refer to them, and the timers that end them. */
module ResourceDirectory {
  import opened Registry

  /** The time for which a registration outlives its lifetime. */
  const GRACE_PERIOD: int := 15

  /** A reference to a Registration object. */
  type Ref = nat

  /** The fields of a Registration; timeout is its timer task. */
  datatype Fields = Fields(key: Key, info: Info, timeout: nat)

  /** The dictionaries, the objects, and the tasks that will delete a registration. */
  datatype Tables = Tables(byKey: map<Key, Ref>, byPath: map<nat, Ref>, objects: map<Ref, Fields>,
    timers: map<nat, Ref>, nextTimer: nat)

  // ---------------------------------------------------------------- what the dictionaries say

  /** A registration in the directory. */
  predicate Live(t: Tables, r: Ref) {
    r in t.objects && t.objects[r].key in t.byKey && t.byKey[t.objects[r].key] == r
  }

  /** Both dictionaries index the same registrations. */
  ghost predicate Indexed(t: Tables) {
    && (forall k :: k in t.byKey ==>
          var r := t.byKey[k];
          Live(t, r) && t.objects[r].key == k && t.objects[r].info.tail in t.byPath &&
            t.byPath[t.objects[r].info.tail] == r)
    && (forall p :: p in t.byPath ==> Live(t, t.byPath[p]) && t.objects[t.byPath[p]].info.tail == p)
  }

  /** Every registration has one timer, and there are no others. */
  ghost predicate Timed(t: Tables) {
    && (forall r :: Live(t, r) ==> t.objects[r].timeout in t.timers && t.timers[t.objects[r].timeout] == r)
    && (forall i :: i in t.timers ==> i < t.nextTimer && Live(t, t.timers[i]) && t.objects[t.timers[i]].timeout == i)
  }

  function Datas(t: Tables): map<Key, Info> {
    map k | k in t.byKey && t.byKey[k] in t.objects :: t.objects[t.byKey[k]].info
  }

  ghost predicate Sound(t: Tables, proxies: map<string, Remote>, domain: string) {
    Indexed(t) && Timed(t) && Consistent(Directory(Datas(t), proxies), domain)
  }

  // ---------------------------------------------------------------- what keeps them sound

  function Without(t: Tables, r: Ref): Tables
    requires r in t.objects
  {
    var reg := t.objects[r];
    t.(byKey := t.byKey - {reg.key}, byPath := t.byPath - {reg.info.tail}, timers := t.timers - {reg.timeout})
  }

  lemma WithoutIs(t: Tables, r: Ref)
    requires Indexed(t) && Timed(t) && Live(t, r)
    ensures Indexed(Without(t, r)) && Timed(Without(t, r)) && Datas(Without(t, r)) == Datas(t) - {t.objects[r].key}
  {
    var t' := Without(t, r);
    forall s ensures Live(t', s) <==> Live(t, s) && s != r { }
  }

  lemma WithoutSound(t: Tables, r: Ref, proxies: map<string, Remote>, domain: string)
    requires Sound(t, proxies, domain) && Live(t, r)
    ensures var d := Removed(Directory(Datas(t), proxies), t.objects[r].key);
            d.regs == Datas(Without(t, r)) && Sound(Without(t, r), d.proxies, domain)
            && Datas(t)[t.objects[r].key].host == t.objects[r].info.host
  {
    WithoutIs(t, r);
    RemovedKeeps(Directory(Datas(t), proxies), t.objects[r].key, domain);
  }

  /** The data of a registration changes. */
  function With(t: Tables, r: Ref, info: Info): Tables
    requires r in t.objects
  {
    t.(objects := t.objects[r := t.objects[r].(info := info)])
  }

  lemma WithSound(t: Tables, r: Ref, info: Info, proxies: map<string, Remote>, domain: string)
    requires Sound(t, proxies, domain) && Live(t, r) && info.tail == t.objects[r].info.tail &&
        info.host == t.objects[r].info.host
    ensures var t' := With(t, r, info); var key := t.objects[r].key;
            Sound(t', proxies, domain) && Live(t', r) && key in Datas(t) && Datas(t)[key] == t.objects[r].info &&
              Datas(t') == Datas(t)[key := info]
  {
    WithIs(t, r, info);
    ReplacedKeeps(Directory(Datas(t), proxies), t.objects[r].key, info, domain);
  }

  /** Only the fields of r change, but for its key. */
  ghost predicate Changed(t: Tables, t': Tables, r: Ref) {
    && t'.byKey == t.byKey && t'.byPath == t.byPath && r in t.objects && r in t'.objects
    && t'.objects.Keys == t.objects.Keys
    && t'.objects[r].key == t.objects[r].key && forall s :: s in t.objects && s != r ==> t'.objects[s] == t.objects[s]
  }

  lemma ChangedLive(t: Tables, t': Tables, r: Ref, s: Ref)
    requires Changed(t, t', r)
    ensures Live(t', s) <==> Live(t, s)
  {
    assert s in t'.objects.Keys <==> s in t.objects.Keys;
  }

  lemma ChangedIndexed(t: Tables, t': Tables, r: Ref)
    requires Indexed(t) && Changed(t, t', r) && t'.objects[r].info.tail == t.objects[r].info.tail
    ensures Indexed(t')
  {
    forall k | k in t'.byKey
      ensures var r := t'.byKey[k];
          Live(t', r) && t'.objects[r].key == k && t'.objects[r].info.tail in t'.byPath &&
            t'.byPath[t'.objects[r].info.tail] == r
    {
      ChangedLive(t, t', r, t'.byKey[k]);
    }
    forall p | p in t'.byPath ensures Live(t', t'.byPath[p]) && t'.objects[t'.byPath[p]].info.tail == p {
      ChangedLive(t, t', r, t'.byPath[p]);
    }
  }

  lemma WithIs(t: Tables, r: Ref, info: Info)
    requires Indexed(t) && Timed(t) && Live(t, r) && info.tail == t.objects[r].info.tail
    ensures var t' := With(t, r, info);
        Indexed(t') && Timed(t') && Live(t', r) && Datas(t') == Datas(t)[t.objects[r].key := info]
  {
    var t' := With(t, r, info);
    ChangedIndexed(t, t', r);
    assert Timed(t') by { forall s ensures Live(t', s) <==> Live(t, s) { ChangedLive(t, t', r, s); } }
    ChangedLive(t, t', r, r);
    ChangedDatas(t, t', r);
  }

  lemma ChangedDatas(t: Tables, t': Tables, r: Ref)
    requires Indexed(t) && Changed(t, t', r) && Live(t, r)
    ensures Datas(t') == Datas(t)[t.objects[r].key := t'.objects[r].info]
  {
    forall k | k in t.byKey ensures t.byKey[k] in t'.objects { assert t.byKey[k] in t.objects.Keys; }
  }

  /** A registration gets a new timer for its old one. */
  function Anew(t: Tables, r: Ref): Tables
    requires r in t.objects
  {
    Started(t.(timers := t.timers - {t.objects[r].timeout}), r)
  }

  function Started(t: Tables, r: Ref): Tables
    requires r in t.objects
  {
    t.(objects := t.objects[r := t.objects[r].(timeout := t.nextTimer)], timers := t.timers[t.nextTimer := r],
      nextTimer := t.nextTimer + 1)
  }

  lemma AnewTimed(t: Tables, r: Ref)
    requires Timed(t) && Live(t, r)
    ensures Timed(Anew(t, r))
  {
    var t' := Anew(t, r);
    forall s | Live(t', s) ensures t'.objects[s].timeout in t'.timers && t'.timers[t'.objects[s].timeout] == s {
      ChangedLive(t, t', r, s);
    }
    forall i | i in t'.timers ensures i < t'.nextTimer && Live(t', t'.timers[i]) &&
        t'.objects[t'.timers[i]].timeout == i {
      ChangedLive(t, t', r, t'.timers[i]);
    }
  }

  lemma AnewIs(t: Tables, r: Ref)
    requires Indexed(t) && Timed(t) && Live(t, r)
    ensures Indexed(Anew(t, r)) && Timed(Anew(t, r)) && Datas(Anew(t, r)) == Datas(t)
  {
    ChangedIndexed(t, Anew(t, r), r);
    AnewTimed(t, r);
    ChangedDatas(t, Anew(t, r), r);
    assert Datas(t)[t.objects[r].key := t.objects[r].info] == Datas(t);
  }

  lemma AnewSound(t: Tables, r: Ref, remote: Remote, proxies: map<string, Remote>, domain: string)
    requires Sound(t, proxies, domain) && Live(t, r)
    ensures var d := Stored(Directory(Datas(t), proxies), t.objects[r].key, t.objects[r].info, remote);
            d.regs == Datas(Anew(t, r)) && Sound(Anew(t, r), d.proxies, domain)
  {
    AnewIs(t, r);
    var key := t.objects[r].key;
    assert key in Datas(t) && Datas(t)[key] == t.objects[r].info && Datas(t)[key := Datas(t)[key]] == Datas(t);
    ProxySetKeeps(Directory(Datas(t), proxies), key, remote, domain);
  }

  /** A registration enters both dictionaries, with its timer. */
  function Added(t: Tables, r: Ref, key: Key, info: Info): Tables {
    Tables(t.byKey[key := r], t.byPath[info.tail := r], t.objects[r := Fields(key, info, t.nextTimer)],
      t.timers[t.nextTimer := r], t.nextTimer + 1)
  }

  lemma AddedLive(t: Tables, r: Ref, key: Key, info: Info, s: Ref)
    requires r !in t.objects && key !in t.byKey
    ensures Live(Added(t, r, key, info), s) <==> Live(t, s) || s == r
  {
  }

  lemma AddedIndexed(t: Tables, r: Ref, key: Key, info: Info)
    requires Indexed(t) && r !in t.objects && key !in t.byKey && info.tail !in t.byPath
    ensures Indexed(Added(t, r, key, info))
  {
    var t' := Added(t, r, key, info);
    forall k | k in t'.byKey
      ensures var s := t'.byKey[k];
          Live(t', s) && t'.objects[s].key == k && t'.objects[s].info.tail in t'.byPath &&
            t'.byPath[t'.objects[s].info.tail] == s
    {
      AddedLive(t, r, key, info, t'.byKey[k]);
    }
    forall p | p in t'.byPath ensures Live(t', t'.byPath[p]) && t'.objects[t'.byPath[p]].info.tail == p {
      AddedLive(t, r, key, info, t'.byPath[p]);
    }
  }

  lemma AddedTimed(t: Tables, r: Ref, key: Key, info: Info)
    requires Timed(t) && r !in t.objects && key !in t.byKey
    ensures Timed(Added(t, r, key, info))
  {
    var t' := Added(t, r, key, info);
    forall s | Live(t', s) ensures t'.objects[s].timeout in t'.timers && t'.timers[t'.objects[s].timeout] == s {
      AddedLive(t, r, key, info, s);
    }
    forall i | i in t'.timers ensures i < t'.nextTimer && Live(t', t'.timers[i]) &&
        t'.objects[t'.timers[i]].timeout == i {
      AddedLive(t, r, key, info, t'.timers[i]);
    }
  }

  lemma AddedSound(t: Tables, r: Ref, key: Key, info: Info, remote: Remote, proxies: map<string, Remote>,
      domain: string)
    requires Sound(t, proxies, domain) && r !in t.objects && key !in t.byKey && info.tail !in t.byPath
    requires info.tail >= 1 && (info.host.Some? ==> HostOk(key, info.host.value, domain))
    ensures var d := Stored(Directory(Datas(t), proxies), key, info, remote);
            d.regs == Datas(Added(t, r, key, info)) && Sound(Added(t, r, key, info), d.proxies, domain)
  {
    AddedIndexed(t, r, key, info);
    AddedTimed(t, r, key, info);
    TailsArePaths(t, proxies);
    StoredKeeps(Directory(Datas(t), proxies), key, info, remote, domain);
    AddedDatas(t, r, key, info);
  }

  lemma AddedDatas(t: Tables, r: Ref, key: Key, info: Info)
    requires Indexed(t) && r !in t.objects && key !in t.byKey
    ensures Datas(Added(t, r, key, info)) == Datas(t)[key := info]
  {
    forall k | k in t.byKey ensures t.byKey[k] != r { assert Live(t, t.byKey[k]); }
  }

  lemma TailsArePaths(t: Tables, proxies: map<string, Remote>)
    requires Indexed(t)
    ensures Tails(Directory(Datas(t), proxies)) == t.byPath.Keys
  {
    var dir := Directory(Datas(t), proxies);
    forall p | p in t.byPath ensures p in Tails(dir) {
      var k := t.objects[t.byPath[p]].key;
      assert Live(t, t.byPath[p]) && k in dir.regs && dir.regs[k].tail == p;
    }
    forall p | p in Tails(dir) ensures p in t.byPath {
      var k :| k in dir.regs && dir.regs[k].tail == p;
      assert Live(t, t.byKey[k]);
    }
  }

  /** The least free number is what FreeFrom finds. */
  lemma LeastIsUnique(used: set<nat>, i: nat)
    requires i >= 1 && i !in used && forall j :: 1 <= j < i ==> j in used
    ensures i == FreeFrom(used, 1)
  {
    var f := FreeFrom(used, 1);
    assert f < i ==> f in used;
    assert i < f ==> i in used;
  }

  /** An update that succeeds is stored, and then announced. */
  lemma RenewIs(dir: Directory, key: Key, remote: Remote, query: Params, toInt: string -> Option<int>)
    requires Split(query)
    ensures key in dir.regs ==>
              var o := Update(dir.regs[key], remote, query, false, toInt);
              var d := dir.(regs := dir.regs[key := o.info]);
              Renew(dir, key, remote, query, toInt) == if o.error.Some? then (d, o.error)
                else (Stored(d, key, o.info, remote), None)
  {
    if key in dir.regs {
      var o := Update(dir.regs[key], remote, query, false, toInt);
      assert dir.regs[key := o.info][key := o.info] == dir.regs[key := o.info];
    }
  }

  lemma AdmittedHost(params: Params, domain: string)
    requires Split(params)
    ensures Admit(params, domain).Ok? ==>
              var q := Admit(params, domain).value; q.host.Some? ==> HostOk(q.key, q.host.value, domain)
  {
  }

  lemma TailIs(t: Tables, proxies: map<string, Remote>, key: Key)
    requires Indexed(t)
    ensures var dir := Directory(Datas(t), proxies);
            if key in t.byKey then Live(t, t.byKey[key]) && t.objects[t.byKey[key]].key == key &&
              TailFor(dir, key) == t.objects[t.byKey[key]].info.tail
            else Removed(dir, key) == dir && TailFor(dir, key) == FreeFrom(t.byPath.Keys, 1)
  {
    TailsArePaths(t, proxies);
  }

  // ---------------------------------------------------------------- all that is stored

  /** The tables, proxy_active, how many objects were made, and how often observers were told. */
  datatype Store = Store(tables: Tables, proxies: map<string, Remote>, nextRef: Ref, told: nat)

  ghost predicate StoreOk(s: Store, domain: string) {
    Sound(s.tables, s.proxies, domain) && Numbered(s.tables, s.nextRef)
  }

  /** The next object is a new one. */
  ghost predicate Numbered(t: Tables, next: Ref) {
    forall r :: r in t.objects ==> r < next
  }

  function Abstract(s: Store): Directory {
    Directory(Datas(s.tables), s.proxies)
  }

  function ProxyOn(proxies: map<string, Remote>, host: Option<string>, remote: Remote): map<string, Remote> {
    if host.Some? then proxies[host.value := remote] else proxies
  }

  function ProxyOff(proxies: map<string, Remote>, host: Option<string>): map<string, Remote> {
    if host.Some? then proxies - {host.value} else proxies
  }

  /** Registration.delete */
  function Dropped(s: Store, r: Ref): Store
    requires r in s.tables.objects
  {
    s.(tables := Without(s.tables, r), proxies := ProxyOff(s.proxies, s.tables.objects[r].info.host),
      told := s.told + 1)
  }

  /** A registration that is new, or new for its endpoint. */
  function Entered(s: Store, key: Key, info: Info, remote: Remote): Store {
    Store(Added(s.tables, s.nextRef, key, info), ProxyOn(s.proxies, info.host, remote), s.nextRef + 1, s.told + 1)
  }

  /** The old registration of the endpoint is deleted. */
  function Vacated(s: Store, key: Key): Store {
    if key in s.tables.byKey && s.tables.byKey[key] in s.tables.objects then Dropped(s, s.tables.byKey[key]) else s
  }

  /** The path of the endpoint: the one it has, or the least that is free. */
  function PathFor(t: Tables, key: Key): nat {
    if key in t.byKey && t.byKey[key] in t.objects then t.objects[t.byKey[key]].info.tail
      else FreeFrom(t.byPath.Keys, 1)
  }

  /** The end of a registration, once its old one is gone. */
  function Ends(s: Store, key: Key, o: Outcome, remote: Remote): Store {
    if o.error.Some? then s.(nextRef := s.nextRef + 1) else Entered(s, key, o.info, remote)
  }

  /** initialize_endpoint, of a request that has passed its checks */
  function Placed(s: Store, q: Request, remote: Remote, toInt: string -> Option<int>): (Store, Option<Error>)
    requires Split(q.rest)
  {
    var o := Update(Blank(q, PathFor(s.tables, q.key)), remote, q.rest, true, toInt);
    (Ends(Vacated(s, q.key), q.key, o, remote), o.error)
  }

  function Registered(s: Store, remote: Remote, params: Params, domain: string,
      toInt: string -> Option<int>): (Store, Option<Error>)
    requires Split(params)
  {
    RestIsSplit(params, domain);
    match Admit(params, domain)
    case Err(e) => (s, Some(e))
    case Ok(q) => Placed(s, q, remote, toInt)
  }

  /** update_params, of a registration that exists */
  function Updated(s: Store, r: Ref, remote: Remote, query: Params,
      toInt: string -> Option<int>): (Store, Option<Error>)
    requires r in s.tables.objects && Split(query)
  {
    var o := Update(s.tables.objects[r].info, remote, query, false, toInt);
    var t := With(s.tables, r, o.info);
    if o.error.Some? then (s.(tables := t), o.error)
    else (s.(tables := Anew(t, r), proxies := ProxyOn(s.proxies, o.info.host, remote),
             told := s.told + if o.notify then 1 else 0), None)
  }

  /** What can happen to the directory: requests, and the end of a timer. */
  datatype Event =
    | DoRegister(remote: Remote, params: Params)
    | DoUpdate(path: nat, remote: Remote, params: Params)
    | DoDelete(path: nat)
    | DoExpire(timer: nat)

  /** Queries are split into their keys, and a timer that was cancelled does not end. */
  predicate Proper(t: Tables, e: Event) {
    match e
    case DoRegister(remote, params) => Split(params)
    case DoUpdate(path, remote, params) => Split(params)
    case DoDelete(path) => true
    case DoExpire(timer) => timer in t.timers
  }

  /** The registration at a path. */
  function At(t: Tables, path: nat): Option<Ref> {
    if path in t.byPath && t.byPath[path] in t.objects then Some(t.byPath[path]) else None
  }

  function Apply(s: Store, e: Event, domain: string, toInt: string -> Option<int>): (Store, Option<Error>)
    requires Proper(s.tables, e)
  {
    match e
    case DoRegister(remote, params) => Registered(s, remote, params, domain, toInt)
    case DoUpdate(path, remote, params) =>
      if At(s.tables, path).Some? then Updated(s, At(s.tables, path).value, remote, params, toInt)
        else (s, Some(NotFound))
    case DoDelete(path) =>
      if At(s.tables, path).Some? then (Dropped(s, At(s.tables, path).value), None) else (s, Some(NotFound))
    case DoExpire(timer) =>
      if s.tables.timers[timer] in s.tables.objects then (Dropped(s, s.tables.timers[timer]), None) else (s, None)
  }

  // ---------------------------------------------------------------- every event keeps it sound

  lemma DroppedOk(s: Store, r: Ref, domain: string)
    requires StoreOk(s, domain) && Live(s.tables, r)
    ensures StoreOk(Dropped(s, r), domain) && Abstract(Dropped(s, r)) == Removed(Abstract(s), s.tables.objects[r].key)
  {
    WithoutSound(s.tables, r, s.proxies, domain);
  }

  lemma VacatedOk(s: Store, key: Key, domain: string)
    requires StoreOk(s, domain)
    ensures StoreOk(Vacated(s, key), domain) && Abstract(Vacated(s, key)) == Removed(Abstract(s), key)
    ensures Vacated(s, key).nextRef == s.nextRef && key !in Vacated(s, key).tables.byKey
    ensures PathFor(s.tables, key) == TailFor(Abstract(s), key)
    ensures PathFor(s.tables, key) >= 1 && PathFor(s.tables, key) !in Vacated(s, key).tables.byPath
  {
    TailIs(s.tables, s.proxies, key);
    TailIsFree(Abstract(s), key);
    if key in s.tables.byKey { DroppedOk(s, s.tables.byKey[key], domain); }
    TailsArePaths(Vacated(s, key).tables, Vacated(s, key).proxies);
  }

  lemma EnteredOk(s: Store, key: Key, info: Info, remote: Remote, domain: string)
    requires StoreOk(s, domain) && key !in s.tables.byKey && info.tail !in s.tables.byPath
    requires info.tail >= 1 && (info.host.Some? ==> HostOk(key, info.host.value, domain))
    ensures StoreOk(Entered(s, key, info, remote), domain)
    ensures Abstract(Entered(s, key, info, remote)) == Stored(Abstract(s), key, info, remote)
  {
    assert s.nextRef !in s.tables.objects;
    EnteredSound(s.tables, s.nextRef, key, info, remote, s.proxies, domain);
    EnteredNumbered(s.tables, s.nextRef, key, info);
    EnteredIs(s, Added(s.tables, s.nextRef, key, info), ProxyOn(s.proxies, info.host, remote), key, info, remote);
  }

  lemma EnteredIs(s: Store, t: Tables, proxies: map<string, Remote>, key: Key, info: Info, remote: Remote)
    requires t == Added(s.tables, s.nextRef, key, info) && proxies == ProxyOn(s.proxies, info.host, remote)
    ensures Entered(s, key, info, remote) == Store(t, proxies, s.nextRef + 1, s.told + 1)
    ensures Abstract(Entered(s, key, info, remote)) == Directory(Datas(t), proxies)
  {
  }

  lemma EnteredNumbered(t: Tables, r: Ref, key: Key, info: Info)
    requires Numbered(t, r)
    ensures Numbered(Added(t, r, key, info), r + 1)
  {
  }

  lemma EnteredSound(t: Tables, r: Ref, key: Key, info: Info, remote: Remote, proxies: map<string, Remote>,
      domain: string)
    requires Sound(t, proxies, domain) && r !in t.objects && key !in t.byKey && info.tail !in t.byPath
    requires info.tail >= 1 && (info.host.Some? ==> HostOk(key, info.host.value, domain))
    ensures var proxies' := ProxyOn(proxies, info.host, remote); var t' := Added(t, r, key, info);
            && Sound(t', proxies', domain)
            && Directory(Datas(t'), proxies') == Stored(Directory(Datas(t), proxies), key, info, remote)
  {
    AddedSound(t, r, key, info, remote, proxies, domain);
  }

  lemma PlacedOk(s: Store, q: Request, remote: Remote, domain: string, toInt: string -> Option<int>)
    requires StoreOk(s, domain) && Split(q.rest) && (q.host.Some? ==> HostOk(q.key, q.host.value, domain))
    ensures var r := Placed(s, q, remote, toInt); var o := Created(Abstract(s), q, remote, toInt);
            && StoreOk(r.0, domain) && r.1 == o.error
            && Abstract(r.0) == if o.error.Some? then Removed(Abstract(s), q.key)
                                else Stored(Removed(Abstract(s), q.key), q.key, o.info, remote)
  {
    VacatedOk(s, q.key, domain);
    var blank := Blank(q, PathFor(s.tables, q.key));
    UpdateKeepsIdentity(blank, remote, q.rest, true, toInt);
    EndsOk(Vacated(s, q.key), q.key, Update(blank, remote, q.rest, true, toInt), remote, domain);
  }

  lemma EndsOk(s: Store, key: Key, o: Outcome, remote: Remote, domain: string)
    requires StoreOk(s, domain) && key !in s.tables.byKey && o.info.tail !in s.tables.byPath && o.info.tail >= 1
    requires o.info.host.Some? ==> HostOk(key, o.info.host.value, domain)
    ensures var s' := Ends(s, key, o, remote);
            && StoreOk(s', domain)
            && Abstract(s') == if o.error.Some? then Abstract(s) else Stored(Abstract(s), key, o.info, remote)
  {
    if o.error.None? { EnteredOk(s, key, o.info, remote, domain); }
  }

  /** Registering is what Register says, on sound tables. */
  lemma RegisteredOk(s: Store, remote: Remote, params: Params, domain: string, toInt: string -> Option<int>)
    requires StoreOk(s, domain) && Split(params)
    ensures var r := Registered(s, remote, params, domain, toInt);
            StoreOk(r.0, domain) && (Abstract(r.0), r.1) == Register(Abstract(s), remote, params, domain, toInt)
  {
    RestIsSplit(params, domain);
    AdmittedHost(params, domain);
    if Admit(params, domain).Ok? { PlacedOk(s, Admit(params, domain).value, remote, domain, toInt); }
  }

  lemma RejectedOk(s: Store, r: Ref, info: Info, domain: string)
    requires StoreOk(s, domain) && Live(s.tables, r)
    requires info.tail == s.tables.objects[r].info.tail && info.host == s.tables.objects[r].info.host
    ensures var s' := s.(tables := With(s.tables, r, info)); var key := s.tables.objects[r].key;
            && StoreOk(s', domain) && Live(s'.tables, r) && key in Abstract(s).regs
            && Abstract(s).regs[key] == s.tables.objects[r].info
            && Abstract(s') == Abstract(s).(regs := Abstract(s).regs[key := info])
  {
    WithSound(s.tables, r, info, s.proxies, domain);
  }

  lemma RestartedOk(s: Store, r: Ref, remote: Remote, told: nat, domain: string)
    requires StoreOk(s, domain) && Live(s.tables, r)
    ensures var info := s.tables.objects[r].info;
            var s' := s.(tables := Anew(s.tables, r), proxies := ProxyOn(s.proxies, info.host, remote), told := told);
            StoreOk(s', domain) && Abstract(s') == Stored(Abstract(s), s.tables.objects[r].key, info, remote)
  {
    AnewSound(s.tables, r, remote, s.proxies, domain);
  }

  /** Updating is what Renew says. */
  lemma UpdatedOk(s: Store, r: Ref, remote: Remote, query: Params, domain: string, toInt: string -> Option<int>)
    requires StoreOk(s, domain) && Live(s.tables, r) && Split(query)
    ensures var u := Updated(s, r, remote, query, toInt); var key := s.tables.objects[r].key;
            && StoreOk(u.0, domain) && key in Abstract(s).regs
            && (Abstract(u.0), u.1) == Renew(Abstract(s), key, remote, query, toInt)
  {
    var o := Update(s.tables.objects[r].info, remote, query, false, toInt);
    UpdateKeepsIdentity(s.tables.objects[r].info, remote, query, false, toInt);
    RejectedOk(s, r, o.info, domain);
    RenewIs(Abstract(s), s.tables.objects[r].key, remote, query, toInt);
    var s1 := s.(tables := With(s.tables, r, o.info));
    if o.error.None? { RestartedOk(s1, r, remote, s.told + if o.notify then 1 else 0, domain); }
  }

  /** No event, whether it is refused or not, breaks the tables. */
  lemma ApplyOk(s: Store, e: Event, domain: string, toInt: string -> Option<int>)
    requires StoreOk(s, domain) && Proper(s.tables, e)
    ensures StoreOk(Apply(s, e, domain, toInt).0, domain)
  {
    match e
    case DoRegister(remote, params) => RegisteredOk(s, remote, params, domain, toInt);
    case DoUpdate(path, remote, params) =>
      if At(s.tables, path).Some? { UpdatedOk(s, At(s.tables, path).value, remote, params, domain, toInt); }
    case DoDelete(path) =>
      if At(s.tables, path).Some? { DroppedOk(s, At(s.tables, path).value, domain); }
    case DoExpire(timer) => DroppedOk(s, s.tables.timers[timer], domain);
  }

  const NO_TABLES := Tables(map[], map[], map[], map[], 0)
  const EMPTY_STORE := Store(NO_TABLES, map[], 0, 0)

  lemma EmptyOk(domain: string)
    ensures StoreOk(EMPTY_STORE, domain) && Abstract(EMPTY_STORE) == Directory(map[], map[])
  {
    EmptyTables();
    NobodyIsConsistent(domain);
  }

  lemma EmptyTables()
    ensures Indexed(NO_TABLES) && Timed(NO_TABLES) && Datas(NO_TABLES) == map[]
  {
  }

  lemma NobodyIsConsistent(domain: string)
    ensures Consistent(Directory(map[], map[]), domain)
  {
  }

  lemma EmptyIs(t: Tables, proxies: map<string, Remote>, domain: string)
    requires t.byKey == map[] && t.byPath == map[] && t.objects == map[] && t.timers == map[] && t.nextTimer == 0 &&
        proxies == map[]
    ensures Store(t, proxies, 0, 0) == EMPTY_STORE && StoreOk(EMPTY_STORE, domain)
  {
    assert t == NO_TABLES;
    EmptyOk(domain);
  }

  /** The new registration, if there is one, will be deleted after its lifetime and the grace period. */
  function DelaysWith(delays: map<nat, int>, timer: nat, objects: map<Ref, Fields>, r: Ref, error: Option<Error>)
    : map<nat, int>
  {
    if error.None? && r in objects then delays[timer := objects[r].info.lt + GRACE_PERIOD] else delays
  }

  class CoreRD {
    var byKey: map<Key, Ref>                // _by_key
    var byPath: map<nat, Ref>               // _by_path
    var proxyActive: map<string, Remote>    // proxy_active
    var objects: map<Ref, Fields>           // the Registration objects
    var timers: map<nat, Ref>               // the tasks that will delete a registration,
    var delays: map<nat, int>               // and after how long
    var nextRef: nat
    var nextTimer: nat
    var notifications: nat
    const domain: string
    const toInt: string -> Option<int>

    function State(): Tables
      reads this
    {
      Tables(byKey, byPath, objects, timers, nextTimer)
    }

    function Contents(): Store
      reads this
    {
      Store(State(), proxyActive, nextRef, notifications)
    }

    ghost predicate Valid()
      reads this
    {
      StoreOk(Contents(), domain)
    }

    constructor (domain: string, toInt: string -> Option<int>)
      ensures Valid() && Contents() == EMPTY_STORE && this.domain == domain && this.toInt == toInt
    {
      byKey, byPath, proxyActive, objects, timers, delays := map[], map[], map[], map[], map[], map[];
      this.domain, this.toInt, nextRef, nextTimer, notifications := domain, toInt, 0, 0, 0;
      new;
      EmptyIs(State(), proxyActive, domain);
    }

    /** An event, through the method that handles it. */
    method Handle(e: Event) returns (error: Option<Error>)
      requires Valid() && Proper(State(), e)
      modifies this
      ensures Valid() && (Contents(), error) == Apply(old(Contents()), e, domain, toInt)
    {
      ApplyOk(Contents(), e, domain, toInt);
      match e
      case DoRegister(remote, params) => error := InitializeEndpoint(remote, params);
      case DoUpdate(path, remote, params) =>
        if path in byPath { error := UpdateParams(byPath[path], remote, params); } else { error := Some(NotFound); }
      case DoDelete(path) =>
        if path in byPath {
          Delete(byPath[path]);
          error := None;
        } else {
          error := Some(NotFound);
        }
      case DoExpire(timer) =>
        Delete(timers[timer]);
        error := None;
    }

    /** _new_pathtail: the least number that is not in use. */
    method NewPathtail() returns (i: nat)
      ensures i >= 1 && i !in byPath && forall j :: 1 <= j < i ==> j in byPath
    {
      i := 1;
      ghost var passed: set<nat> := {};
      while i in byPath
        invariant i >= 1 && |passed| == i - 1 && passed <= byPath.Keys && forall j :: j in passed <==> 1 <= j < i
        decreases |byPath.Keys - passed|
      {
        assert i !in passed && i in byPath.Keys - passed;
        assert byPath.Keys - (passed + {i}) == (byPath.Keys - passed) - {i};
        passed := passed + {i};
        i := i + 1;
      }
    }

    /** Registration.delete, and its call at the end of the timer */
    method Delete(r: Ref)
      requires r in objects
      modifies this`timers, this`notifications, this`byPath, this`byKey, this`proxyActive
      ensures Contents() == Dropped(old(Contents()), r)
    {
      var reg := objects[r];
      timers := timers - {reg.timeout};
      notifications := notifications + 1;
      byPath := byPath - {reg.info.tail};
      byKey := byKey - {reg.key};
      if reg.info.host.Some? { proxyActive := proxyActive - {reg.info.host.value}; }
    }

    /** update_params, up to the timer and the callbacks */
    method SetParams(r: Ref, remote: Remote, query: Params, initial: bool) returns (error: Option<Error>, notify: bool)
      requires r in objects && Split(query)
      modifies this`objects
      ensures var o := Update(old(objects)[r].info, remote, query, initial, toInt);
              State() == With(old(State()), r, o.info) && error == o.error && notify == o.notify
    {
      var info := objects[r].info;
      match Check(info, remote, query, initial, toInt)
      case Err(e) =>
        assert objects[r := objects[r].(info := info)] == objects;
        return Some(e), false;
      case Ok(change) =>
        notify := initial;
        error := None;
        if change.lt.Some? && info.lt != change.lt.value {
          notify := true;
          info := info.(lt := change.lt.value);
        }
        if change.base.Some? && (initial || info.base != change.base.value) {
          notify := true;
          info := info.(base := change.base.value, explicit := true);
        }
        if !info.explicit && change.network.None? {
          error, notify := Some(Crash), false;
        } else {
          if !info.explicit && (initial || info.base != change.network.value) {
            notify := true;
            info := info.(base := change.network.value);
          }
          if info.params != info.params + change.rest {
            notify := true;
            info := info.(params := info.params + change.rest);
          }
        }
        objects := objects[r := objects[r].(info := info)];
    }

    /** The callbacks at the end of update_params. */
    method Announce(remote: Remote, host: Option<string>, notify: bool)
      modifies this`notifications, this`proxyActive
      ensures notifications == old(notifications) + (if notify then 1 else 0) &&
          proxyActive == ProxyOn(old(proxyActive), host, remote)
    {
      if notify { notifications := notifications + 1; }
      if host.Some? { proxyActive := proxyActive[host.value := remote]; }
    }

    /** _set_timeout */
    method SetTimeout(r: Ref)
      requires r in objects
      modifies this`objects, this`timers, this`delays, this`nextTimer
      ensures State() == Started(old(State()), r) &&
          delays == old(delays)[old(nextTimer) := objects[r].info.lt + GRACE_PERIOD]
    {
      objects := objects[r := objects[r].(timeout := nextTimer)];
      timers := timers[nextTimer := r];
      delays := delays[nextTimer := objects[r].info.lt + GRACE_PERIOD];
      nextTimer := nextTimer + 1;
    }

    /** refresh_timeout */
    method RefreshTimeout(r: Ref)
      requires r in objects
      modifies this`objects, this`timers, this`delays, this`nextTimer
      ensures State() == Anew(old(State()), r)
      ensures delays == old(delays)[old(nextTimer) := objects[r].info.lt + GRACE_PERIOD]
    {
      timers := timers - {objects[r].timeout};
      SetTimeout(r);
    }

    /** A registration update */
    method UpdateParams(r: Ref, remote: Remote, query: Params) returns (error: Option<Error>)
      requires r in objects && Split(query)
      modifies this`objects, this`timers, this`delays, this`nextTimer, this`notifications, this`proxyActive
      ensures (Contents(), error) == Updated(old(Contents()), r, remote, query, toInt)
      ensures delays == if error.Some? then old(delays)
          else old(delays)[old(nextTimer) := objects[r].info.lt + GRACE_PERIOD]
    {
      var notify;
      error, notify := SetParams(r, remote, query, false);
      if error.None? {
        Announce(remote, objects[r].info.host, notify);
        RefreshTimeout(r);
      }
    }

    // ------------------------------------------------------------ registrations

    /** initialize_endpoint */
    method InitializeEndpoint(remote: Remote, params: Params) returns (error: Option<Error>)
      requires Valid() && Split(params)
      modifies this
      ensures (Contents(), error) == Registered(old(Contents()), remote, params, domain, toInt)
      ensures delays == DelaysWith(old(delays), old(nextTimer), objects, old(nextRef), error)
    {
      RestIsSplit(params, domain);
      match Admit(params, domain)
      case Err(e) => error := Some(e);
      case Ok(q) => error := Place(q, remote);
    }

    method Place(q: Request, remote: Remote) returns (error: Option<Error>)
      requires Valid() && Split(q.rest)
      modifies this
      ensures (Contents(), error) == Placed(old(Contents()), q, remote, toInt)
      ensures delays == DelaysWith(old(delays), old(nextTimer), objects, old(nextRef), error)
    {
      hide Vacated, Ends, PathFor, Update;
      var tail := MakeRoom(q.key);
      error := Create(q, tail, remote);
    }

    /** The path of the new registration; the old one of the endpoint is deleted. */
    method MakeRoom(key: Key) returns (tail: nat)
      requires Valid()
      modifies this`timers, this`notifications, this`byPath, this`byKey, this`proxyActive
      ensures Contents() == Vacated(old(Contents()), key) && tail == PathFor(old(State()), key)
    {
      if key in byKey {
        tail := objects[byKey[key]].info.tail;
        Delete(byKey[key]);
      } else {
        tail := NewPathtail();
        LeastIsUnique(byPath.Keys, tail);
      }
    }

    /** The new registration. */
    method Create(q: Request, tail: nat, remote: Remote) returns (error: Option<Error>)
      requires Split(q.rest) && nextRef !in objects
      modifies this
      ensures var o := Update(Blank(q, tail), remote, q.rest, true, toInt);
              error == o.error && Contents() == Ends(old(Contents()), q.key, o, remote)
      ensures delays == DelaysWith(old(delays), old(nextTimer), objects, old(nextRef), error)
    {
      var r, notify;
      error, r, notify := Construct(q, tail, remote);
      if error.None? { Install(r, remote, notify); }
    }

    /** The Registration object, which is lost if its parameters are rejected. */
    method Construct(q: Request, tail: nat, remote: Remote) returns (error: Option<Error>, r: Ref, notify: bool)
      requires Split(q.rest) && nextRef !in objects
      modifies this`objects, this`nextRef
      ensures r == old(nextRef) && nextRef == r + 1
      ensures var o := Update(Blank(q, tail), remote, q.rest, true, toInt);
              error == o.error && notify == o.notify && objects == if error.Some? then old(objects)
                else old(objects)[r := Fields(q.key, o.info, 0)]
    {
      r := nextRef;
      nextRef := nextRef + 1;
      objects := objects[r := Fields(q.key, Blank(q, tail), 0)];
      error, notify := SetParams(r, remote, q.rest, true);
      if error.Some? { objects := objects - {r}; }
    }

    /** The end of the constructor, and the entries in the dictionaries. */
    method Install(r: Ref, remote: Remote, notify: bool)
      requires r in objects
      modifies this`objects, this`timers, this`delays, this`nextTimer, this`notifications, this`proxyActive,
        this`byKey, this`byPath
      ensures State() == Added(old(State()), r, old(objects)[r].key, old(objects)[r].info)
      ensures proxyActive == ProxyOn(old(proxyActive), old(objects)[r].info.host, remote)
      ensures notifications == old(notifications) + if notify then 1 else 0
      ensures r in objects && objects[r].info == old(objects)[r].info
      ensures delays == DelaysWith(old(delays), old(nextTimer), objects, r, None)
    {
      SetTimeout(r);
      Announce(remote, objects[r].info.host, notify);
      byKey := byKey[objects[r].key := r];
      byPath := byPath[objects[r].info.tail := r];
    }
  }
}
