/** What the resource directory stores about its registrations, and what its requests do to that,
    as functions; ResourceDirectory holds the objects. */
module Registry {

  datatype Option<+T> = None | Some(value: T)

  /** Crash stands for an exception that is not an answer to the client. */
  datatype Error =
    | MultipleValues(name: string) | EpMissing | UnsupportedProxy | ProxyNotEnabled | UnusableHost
    | Immutable | Unsuitable | ExplicitBaseRequired | LtNotNumeric | NotFound | Crash

  datatype Result<+T> = Ok(value: T) | Err(error: Error)

  /** A query split into its keys; a key without a value has the value None. */
  type Params = map<string, seq<Option<string>>>

  /** The client that sent a request; its URI is unknown for an anonymous host. */
  datatype Remote = Remote(id: nat, uri: Option<string>)

  /** (ep, d) */
  datatype Key = Key(ep: string, d: Option<string>)

  /** A Registration; tail i stands for the path tail (str(i), ""). */
  datatype Info = Info(tail: nat, host: Option<string>, params: Params, lt: int, base: string, explicit: bool)

  /** CoreRD: _by_key with the registrations, and proxy_active. */
  datatype Directory = Directory(regs: map<Key, Info>, proxies: map<string, Remote>)

  /** query_split never yields an empty list of values. */
  predicate Split(params: Params) {
    forall k :: k in params ==> params[k] != []
  }

  // ---------------------------------------------------------------- arguments

  /** pop_single_arg: the value, None if there is none. */
  function Single(params: Params, name: string): Result<Option<string>>
    requires Split(params)
  {
    if name !in params then Ok(None)
    else if |params[name]| > 1 then Err(MultipleValues(name))
    else Ok(params[name][0])
  }

  /** What update_params has found out before it acts: the checked lifetime and base, and the base
      that follows from the network, which is set only if it was looked for. */
  datatype Change = Change(lt: Option<int>, base: Option<string>, network: Option<string>, rest: Params)

  function Lifetime(params: Params, toInt: string -> Option<int>): Result<Option<int>>
    requires Split(params)
  {
    if "lt" !in params then Ok(None)
    else
      match Single(params, "lt")
      case Err(e) => Err(e)
      case Ok(None) => Err(Crash)
      case Ok(Some(text)) => if toInt(text).Some? then Ok(toInt(text)) else Err(LtNotNumeric)
  }

  function NetworkBase(info: Info, remote: Remote): Result<Option<string>> {
    match info.host
    case Some(h) => Ok(Some("coap://" + h))
    case None => if remote.uri.Some? then Ok(remote.uri) else Err(ExplicitBaseRequired)
  }

  const UNSUITABLE: set<string> := {"page", "count", "rt", "href", "anchor"}

  /** The checks that update_params makes before it acts. */
  function Check(info: Info, remote: Remote, params: Params, initial: bool,
      toInt: string -> Option<int>): Result<Change>
    requires Split(params)
  {
    if "ep" in params || "d" in params then Err(Immutable)
    else if params.Keys * UNSUITABLE != {} then Err(Unsuitable)
    else
      var network := if (initial || !info.explicit) && "base" !in params then NetworkBase(info, remote) else Ok(None);
      match network
      case Err(e) => Err(e)
      case Ok(net) =>
        match Lifetime(params, toInt)
        case Err(e) => Err(e)
        case Ok(lt) =>
          match Single(params, "base")
          case Err(e) => Err(e)
          case Ok(base) => Ok(Change(lt, base, net, params - {"lt", "base"}))
  }

  // ---------------------------------------------------------------- update_params

  /** A request's effect on a registration: whether it failed, and whether observers are told. */
  datatype Outcome = Outcome(info: Info, error: Option<Error>, notify: bool)

  function WithLt(info: Info, c: Change): Info {
    if c.lt.Some? then info.(lt := c.lt.value) else info
  }

  function WithBase(info: Info, c: Change, initial: bool): Info {
    if c.base.Some? && (initial || info.base != c.base.value) then info.(base := c.base.value, explicit := true)
      else info
  }

  /** The base is needed from the network, but was not looked for. */
  predicate NoBase(info: Info, c: Change, initial: bool) {
    !WithBase(info, c, initial).explicit && c.network.None?
  }

  function WithNetwork(info: Info, c: Change): Info {
    if !info.explicit && c.network.Some? then info.(base := c.network.value) else info
  }

  function WithParams(info: Info, c: Change): Info {
    info.(params := info.params + c.rest)
  }

  /** update_params */
  function Update(info: Info, remote: Remote, params: Params, initial: bool, toInt: string -> Option<int>): Outcome
    requires Split(params)
  {
    match Check(info, remote, params, initial, toInt)
    case Err(e) => Outcome(info, Some(e), false)
    case Ok(c) =>
      var info1 := WithLt(info, c);
      if NoBase(info1, c, initial) then Outcome(info1, Some(Crash), false)
      else
        var info2 := WithParams(WithNetwork(WithBase(info1, c, initial), c), c);
        Outcome(info2, None, initial || info2 != info)
  }

  // ---------------------------------------------------------------- the directory

  predicate Usable(s: string) {
    s != "" && forall c :: c in s ==> 'a' <= c <= 'z' || '0' <= c <= '9' || c == '-'
  }

  function HostOf(key: Key, domain: string): string {
    key.ep + (if key.d.Some? then "." + key.d.value else "") + "." + domain
  }

  /** A registration request that has passed the checks of initialize_endpoint. */
  datatype Request = Request(key: Key, host: Option<string>, fixed: Params, rest: Params)

  /** The part of initialize_endpoint that has no side effects. */
  function Admit(params: Params, domain: string): Result<Request>
    requires Split(params)
  {
    match Single(params, "ep")
    case Err(e) => Err(e)
    case Ok(None) => Err(EpMissing)
    case Ok(Some(ep)) =>
      match Single(params, "d")
      case Err(e) => Err(e)
      case Ok(d) =>
        match Single(params, "proxy")
        case Err(e) => Err(e)
        case Ok(proxy) =>
          var key := Key(ep, d);
          var fixed := map k | k in params && k in {"ep", "d"} :: params[k];
          var rest := params - {"ep", "d", "proxy"};
          if proxy.Some? && proxy.value != "on" then Err(UnsupportedProxy)
          else if "proxy" !in params then Ok(Request(key, None, fixed, rest))
          else if domain == "" then Err(ProxyNotEnabled)
          else if !Usable(ep) || (d.Some? && !Usable(d.value)) then Err(UnusableHost)
          else Ok(Request(key, Some(HostOf(key, domain)), fixed, rest))
  }

  function Tails(dir: Directory): set<nat> {
    set k | k in dir.regs :: dir.regs[k].tail
  }

  /** The least number from i on that is not used. */
  function FreeFrom(used: set<nat>, i: nat): (r: nat)
    ensures r >= i && r !in used && forall j :: i <= j < r ==> j in used
    decreases |used|
  {
    if i in used then
      assert forall j :: j > i ==> (j in used <==> j in used - {i});
      FreeFrom(used - {i}, i + 1)
    else i
  }

  function Removed(dir: Directory, key: Key): Directory {
    if key in dir.regs then
      var host := dir.regs[key].host;
      Directory(dir.regs - {key}, if host.Some? then dir.proxies - {host.value} else dir.proxies)
    else dir
  }

  function Stored(dir: Directory, key: Key, info: Info, remote: Remote): Directory {
    Directory(dir.regs[key := info], if info.host.Some? then dir.proxies[info.host.value := remote] else dir.proxies)
  }

  /** The path tail of a registration: the one it has, or a new one. */
  function TailFor(dir: Directory, key: Key): nat {
    if key in dir.regs then dir.regs[key].tail else FreeFrom(Tails(dir), 1)
  }

  function Blank(q: Request, tail: nat): Info {
    Info(tail, q.host, q.fixed, 90000, "", false)
  }

  /** What the constructor of the new registration makes of the request. */
  function Created(dir: Directory, q: Request, remote: Remote, toInt: string -> Option<int>): Outcome
    requires Split(q.rest)
  {
    Update(Blank(q, TailFor(dir, q.key)), remote, q.rest, true, toInt)
  }

  lemma RestIsSplit(params: Params, domain: string)
    requires Split(params)
    ensures Admit(params, domain).Ok? ==> Split(Admit(params, domain).value.rest)
  {
  }

  /** initialize_endpoint */
  function Register(dir: Directory, remote: Remote, params: Params, domain: string,
      toInt: string -> Option<int>): (Directory, Option<Error>)
    requires Split(params)
  {
    RestIsSplit(params, domain);
    match Admit(params, domain)
    case Err(e) => (dir, Some(e))
    case Ok(q) =>
      var created := Created(dir, q, remote, toInt);
      if created.error.Some? then (Removed(dir, q.key), created.error)
      else (Stored(Removed(dir, q.key), q.key, created.info, remote), None)
  }

  /** A registration update */
  function Renew(dir: Directory, key: Key, remote: Remote, params: Params,
      toInt: string -> Option<int>): (Directory, Option<Error>)
    requires Split(params) && key in dir.regs
  {
    var o := Update(dir.regs[key], remote, params, false, toInt);
    if o.error.Some? then (dir.(regs := dir.regs[key := o.info]), o.error)
    else (Stored(dir, key, o.info, remote), None)
  }

  // ---------------------------------------------------------------- what holds in every run

  ghost predicate TailsOk(dir: Directory) {
    && (forall k :: k in dir.regs ==> dir.regs[k].tail >= 1)
    && (forall k, m :: k in dir.regs && m in dir.regs && dir.regs[k].tail == dir.regs[m].tail ==> k == m)
  }

  ghost predicate HostsOk(dir: Directory, domain: string) {
    forall k :: k in dir.regs && dir.regs[k].host.Some? ==>
      HostOk(k, dir.regs[k].host.value, domain) && dir.regs[k].host.value in dir.proxies
  }

  ghost predicate InUse(dir: Directory, host: string) {
    exists k :: k in dir.regs && dir.regs[k].host == Some(host)
  }

  /** Paths and hosts are not shared, and proxy_active knows exactly the hosts in use. */
  ghost predicate Consistent(dir: Directory, domain: string) {
    TailsOk(dir) && HostsOk(dir, domain) && forall h :: h in dir.proxies ==> InUse(dir, h)
  }

  predicate HostOk(key: Key, host: string, domain: string) {
    host == HostOf(key, domain) && Usable(key.ep) && (key.d.Some? ==> Usable(key.d.value))
  }

  /** The position of the first dot. */
  function DotAt(s: string): nat {
    if s == "" || s[0] == '.' then 0 else 1 + DotAt(s[1..])
  }

  lemma {:induction false} DotIsAt(a: string, x: string)
    requires '.' !in a
    ensures DotAt(a + "." + x) == |a|
  {
    if a != "" {
      assert (a + "." + x)[1..] == a[1..] + "." + x;
      DotIsAt(a[1..], x);
    }
  }

  lemma FirstLabel(a: string, b: string, x: string, y: string)
    requires '.' !in a && '.' !in b && a + "." + x == b + "." + y
    ensures a == b && x == y
  {
    DotIsAt(a, x);
    DotIsAt(b, y);
    var s := a + "." + x;
    assert a == s[..|a|] && b == s[..|a|] && x == s[|a| + 1..] && y == s[|a| + 1..];
  }

  lemma NoDots(s: string)
    requires Usable(s)
    ensures '.' !in s
  {
  }

  /** The same host name never stands for two endpoints. */
  lemma HostsDiffer(k: Key, m: Key, domain: string)
    requires HostOk(k, HostOf(m, domain), domain) && HostOk(m, HostOf(m, domain), domain)
    ensures k == m
  {
    NoDots(k.ep);
    NoDots(m.ep);
    var x := (if k.d.Some? then k.d.value + "." else "") + domain;
    var y := (if m.d.Some? then m.d.value + "." else "") + domain;
    assert HostOf(k, domain) == k.ep + "." + x;
    assert HostOf(m, domain) == m.ep + "." + y;
    FirstLabel(k.ep, m.ep, x, y);
    if k.d.Some? && m.d.Some? {
      NoDots(k.d.value);
      NoDots(m.d.value);
      assert x == k.d.value + "." + domain && y == m.d.value + "." + domain;
      FirstLabel(k.d.value, m.d.value, domain, domain);
    } else {
      assert |x| == |y|;
    }
  }

  /** A registration is there with a host, so the host is in use. */
  lemma StillUsed(dir: Directory, d: Directory, h: string, key: Key)
    requires InUse(dir, h) &&
        (key in dir.regs && dir.regs[key].host == Some(h) ==> key in d.regs && d.regs[key].host == Some(h))
    requires forall k :: k in dir.regs && k != key ==> k in d.regs && d.regs[k].host == dir.regs[k].host
    ensures InUse(d, h)
  {
    var k :| k in dir.regs && dir.regs[k].host == Some(h);
    assert k in d.regs && d.regs[k].host == Some(h);
  }

  lemma RemovedKeeps(dir: Directory, key: Key, domain: string)
    requires Consistent(dir, domain)
    ensures Consistent(Removed(dir, key), domain)
  {
    var d := Removed(dir, key);
    if key in dir.regs {
      forall k | k in d.regs && d.regs[k].host.Some? ensures d.regs[k].host.value in d.proxies {
        if dir.regs[key].host == d.regs[k].host { HostsDiffer(k, key, domain); }
      }
      forall h | h in d.proxies ensures InUse(d, h) { StillUsed(dir, d, h, key); }
    }
  }

  lemma StoredKeeps(dir: Directory, key: Key, info: Info, remote: Remote, domain: string)
    requires Consistent(dir, domain) && key !in dir.regs
    requires info.tail >= 1 && info.tail !in Tails(dir) && (info.host.Some? ==> HostOk(key, info.host.value, domain))
    ensures Consistent(Stored(dir, key, info, remote), domain)
  {
    var d := Stored(dir, key, info, remote);
    assert TailsOk(d) by { forall k | k in dir.regs ensures dir.regs[k].tail in Tails(dir) { } }
    forall h | h in d.proxies ensures InUse(d, h) {
      if info.host == Some(h) {
        assert key in d.regs && d.regs[key].host == Some(h);
      } else {
        StillUsed(dir, d, h, key);
      }
    }
  }

  lemma UpdateKeepsIdentity(info: Info, remote: Remote, params: Params, initial: bool, toInt: string -> Option<int>)
    requires Split(params)
    ensures var o := Update(info, remote, params, initial, toInt); o.info.tail == info.tail && o.info.host == info.host
  {
  }

  lemma TailIsFree(dir: Directory, key: Key)
    requires TailsOk(dir)
    ensures TailFor(dir, key) >= 1 && TailFor(dir, key) !in Tails(Removed(dir, key))
  {
  }

  /** Registering keeps paths and hosts apart, whatever the request and whether it fails. */
  lemma RegisterKeeps(dir: Directory, remote: Remote, params: Params, domain: string, toInt: string -> Option<int>)
    requires Split(params) && Consistent(dir, domain)
    ensures Consistent(Register(dir, remote, params, domain, toInt).0, domain)
  {
    RestIsSplit(params, domain);
    if Admit(params, domain).Ok? {
      var q := Admit(params, domain).value;
      RemovedKeeps(dir, q.key, domain);
      UpdateKeepsIdentity(Blank(q, TailFor(dir, q.key)), remote, q.rest, true, toInt);
      TailIsFree(dir, q.key);
      var created := Created(dir, q, remote, toInt);
      if created.error.None? { StoredKeeps(Removed(dir, q.key), q.key, created.info, remote, domain); }
    }
  }

  /** The same endpoints with the same paths and hosts. */
  ghost predicate SameIdentities(dir: Directory, d: Directory) {
    d.regs.Keys == dir.regs.Keys && d.proxies.Keys == dir.proxies.Keys
    && forall k :: k in dir.regs ==> d.regs[k].tail == dir.regs[k].tail && d.regs[k].host == dir.regs[k].host
  }

  lemma SameIdentitiesKeep(dir: Directory, d: Directory, domain: string)
    requires Consistent(dir, domain) && SameIdentities(dir, d)
    ensures Consistent(d, domain)
  {
    forall h | h in d.proxies ensures InUse(d, h) {
      assert h in dir.proxies.Keys;
      var k :| k in dir.regs && dir.regs[k].host == Some(h);
      assert k in d.regs.Keys && d.regs[k].host == Some(h);
    }
    forall k | k in d.regs && d.regs[k].host.Some?
      ensures HostOk(k, d.regs[k].host.value, domain) && d.regs[k].host.value in d.proxies
    {
      assert k in dir.regs.Keys && d.regs[k].host.value in dir.proxies.Keys;
    }
    assert forall k :: k in d.regs ==> k in dir.regs.Keys;
  }

  lemma ReplacedKeeps(dir: Directory, key: Key, info: Info, domain: string)
    requires Consistent(dir, domain) && key in dir.regs && info.tail == dir.regs[key].tail &&
        info.host == dir.regs[key].host
    ensures Consistent(dir.(regs := dir.regs[key := info]), domain)
  {
    SameIdentitiesKeep(dir, dir.(regs := dir.regs[key := info]), domain);
  }

  lemma ProxySetKeeps(dir: Directory, key: Key, remote: Remote, domain: string)
    requires Consistent(dir, domain) && key in dir.regs
    ensures Consistent(Stored(dir, key, dir.regs[key], remote), domain)
  {
    assert dir.regs[key].host.Some? ==> dir.regs[key].host.value in dir.proxies;
    SameIdentitiesKeep(dir, Stored(dir, key, dir.regs[key], remote), domain);
  }

  /** So does an update, whether it is rejected or not. */
  lemma RenewKeeps(dir: Directory, key: Key, remote: Remote, params: Params, domain: string,
      toInt: string -> Option<int>)
    requires Split(params) && key in dir.regs && Consistent(dir, domain)
    ensures Consistent(Renew(dir, key, remote, params, toInt).0, domain)
  {
    UpdateKeepsIdentity(dir.regs[key], remote, params, false, toInt);
    var d := Renew(dir, key, remote, params, toInt).0;
    assert dir.regs[key].host.Some? ==> dir.regs[key].host.value in dir.proxies;
    SameIdentitiesKeep(dir, d, domain);
  }

  // ---------------------------------------------------------------- what requests do

  /** A registration that succeeds keeps the path of the endpoint, or gets the least number that is
      free, and changes no other registration. */
  lemma RegistrationPath(dir: Directory, remote: Remote, params: Params, domain: string, toInt: string -> Option<int>)
    requires Split(params) && Register(dir, remote, params, domain, toInt).1.None?
    ensures var dir' := Register(dir, remote, params, domain, toInt).0; var key := Admit(params, domain).value.key;
            && dir'.regs.Keys == dir.regs.Keys + {key}
            && (forall k :: k in dir.regs && k != key ==> dir'.regs[k] == dir.regs[k])
            && (key in dir.regs ==> dir'.regs[key].tail == dir.regs[key].tail)
            && (key !in dir.regs ==>
                  && dir'.regs[key].tail >= 1 && dir'.regs[key].tail !in Tails(dir)
                  && forall j :: 1 <= j < dir'.regs[key].tail ==> j in Tails(dir))
  {
    RestIsSplit(params, domain);
    var q := Admit(params, domain).value;
    UpdateKeepsIdentity(Blank(q, TailFor(dir, q.key)), remote, q.rest, true, toInt);
  }

  /** initialize_endpoint claims that no error follows its first side effect.  In fact a request that
      fails leaves the directory as it was exactly if it fails the early checks, or is not a
      re-registration; otherwise the registration of the endpoint is gone. */
  lemma FailedRegistration(dir: Directory, remote: Remote, params: Params, domain: string, toInt: string -> Option<int>)
    requires Split(params) && Register(dir, remote, params, domain, toInt).1.Some?
    ensures var dir' := Register(dir, remote, params, domain, toInt).0; var q := Admit(params, domain);
            && (dir' == dir <==> q.Err? || q.value.key !in dir.regs)
            && (q.Ok? ==> dir' == Removed(dir, q.value.key))
  {
    RestIsSplit(params, domain);
    var q := Admit(params, domain);
    if q.Ok? && q.value.key in dir.regs {
      assert q.value.key !in Register(dir, remote, params, domain, toInt).0.regs;
    }
  }

  /** An endpoint that registers again with a lifetime that is no number loses its registration. */
  lemma FailedRegistrationExample(toInt: string -> Option<int>)
    requires toInt("x").None?
    ensures var remote := Remote(1, Some("coap://h")); var key := Key("e", None);
            var dir := Register(Directory(map[], map[]), remote, map["ep" := [Some("e")]], "", toInt).0;
            key in dir.regs && key !in Register(dir, remote, map["ep" := [Some("e")], "lt" := [Some("x")]], "",
              toInt).0.regs
  {
    var remote := Remote(1, Some("coap://h"));
    var first: Params := map["ep" := [Some("e")]];
    var again: Params := map["ep" := [Some("e")], "lt" := [Some("x")]];
    RestIsSplit(first, "");
    RestIsSplit(again, "");
    var none: Params := map[];
    assert first - {"ep", "d", "proxy"} == none;
    assert again - {"ep", "d", "proxy"} == map["lt" := [Some("x")]];
    var dir := Register(Directory(map[], map[]), remote, first, "", toInt).0;
    FailedRegistration(dir, remote, again, "", toInt);
  }

  /** The late failure of update_params: it needs the base of the network and has not looked for it,
      because the request names a base: one without a value, or the one already in use. */
  predicate LateFailure(info: Info, params: Params)
    requires Split(params)
  {
    "base" in params && !info.explicit && (params["base"][0].None? || params["base"][0] == Some(info.base))
  }

  /** An update that is rejected leaves the registration as it was, unless it fails late after it
      has set another lifetime. */
  lemma RejectedUpdate(info: Info, remote: Remote, params: Params, toInt: string -> Option<int>)
    requires Split(params)
    ensures var o := Update(info, remote, params, false, toInt); var c := Check(info, remote, params, false, toInt);
            && (o.error.Some? <==> c.Err? || LateFailure(info, params))
            && (c.Err? ==> o.error == Some(c.error) && o.info == info)
            && (c.Ok? && LateFailure(info, params) ==> o.error == Some(Crash) && o.info == WithLt(info, c.value))
            && (o.error.Some? ==>
               !o.notify && (o.info == info <==> c.Err? || c.value.lt.None? || c.value.lt.value == info.lt))
  {
  }

  /** Observers are told of an update exactly if it has changed the registration. */
  lemma UpdatesNotifyOfChanges(info: Info, remote: Remote, params: Params, toInt: string -> Option<int>)
    requires Split(params) && Update(info, remote, params, false, toInt).error.None?
    ensures var o := Update(info, remote, params, false, toInt);
            && (o.notify <==> o.info != info)
            && o.info.params == info.params + (params - {"lt", "base"})
            && (info.explicit ==> o.info.explicit)
            && (params == map[] && (info.explicit || NetworkBase(info, remote) == Ok(Some(info.base))) ==>
               o.info == info)
  {
  }

  /** The parameter `proxy` without a value counts as proxy=on. */
  lemma BareProxyIsOn(params: Params, domain: string)
    requires Split(params) && "proxy" in params && params["proxy"] == [None]
    ensures Admit(params["proxy" := [Some("on")]], domain) == Admit(params, domain)
  {
    var on := params["proxy" := [Some("on")]];
    assert on - {"ep", "d", "proxy"} == params - {"ep", "d", "proxy"};
    assert (map k | k in on && k in {"ep", "d"} :: on[k]) == (map k | k in params && k in {"ep", "d"} :: params[k]);
  }
}
