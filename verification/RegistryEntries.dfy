/** What a request that succeeds leaves in the directory, in terms of its query, and which requests
    are refused. */
module RegistryEntries {
  import opened Registry

  // ---------------------------------------------------------------- which requests are refused

  /** The key is in the query with one value. */
  predicate Has(params: Params, name: string, value: string) {
    name in params && params[name] == [Some(value)]
  }

  /** The key is in the query without a value. */
  predicate Bare(params: Params, name: string) {
    name in params && params[name] == [None]
  }

  /** The key has several values. */
  predicate Repeated(params: Params, name: string) {
    name in params && |params[name]| > 1
  }

  predicate HostChars(s: string) {
    s != "" && forall c :: c in s ==> 'a' <= c <= 'z' || '0' <= c <= '9' || c == '-'
  }

  /** A registration passes the early checks exactly if it names one endpoint, at most one sector, and
      asks for a proxy only where there is one and with names that are host names. */
  lemma AdmittedRequests(params: Params, domain: string)
    requires Split(params)
    ensures Admit(params, domain).Ok? <==>
              && "ep" in params && |params["ep"]| == 1 && params["ep"][0].Some? && !Repeated(params, "d")
              && ("proxy" in params ==>
                    && |params["proxy"]| == 1 && (params["proxy"][0].Some? ==> params["proxy"][0].value == "on")
                    && domain != ""
                    && HostChars(params["ep"][0].value)
                    && ("d" in params && params["d"][0].Some? ==> HostChars(params["d"][0].value)))
  {
  }

  /** A registration that does not pass is told a fault it has. */
  lemma AdmissionErrors(params: Params, domain: string)
    requires Split(params) && Admit(params, domain).Err?
    ensures match Admit(params, domain).error
            case MultipleValues(name) => (name == "ep" || name == "d" || name == "proxy") && Repeated(params, name)
            case EpMissing => "ep" !in params || Bare(params, "ep")
            case UnsupportedProxy => "proxy" in params && !Has(params, "proxy", "on") && !Bare(params, "proxy")
            case ProxyNotEnabled => "proxy" in params && domain == ""
            case UnusableHost =>
              && "proxy" in params && "ep" in params && params["ep"][0].Some?
              && (HostChars(params["ep"][0].value) ==>
                   "d" in params && params["d"][0].Some? && !HostChars(params["d"][0].value))
            case _ => false
  {
  }

  /** The endpoint and the host name of an admitted request; without a proxy there is none. */
  lemma AdmittedNames(params: Params, domain: string)
    requires Split(params) && Admit(params, domain).Ok?
    ensures var q := Admit(params, domain).value;
            && Has(params, "ep", q.key.ep)
            && ("d" in params ==> params["d"] == [q.key.d]) && ("d" !in params ==> q.key.d == None)
            && (q.host.Some? <==> "proxy" in params)
            && (q.host.Some? && q.key.d.None? ==> q.host.value == q.key.ep + "." + domain)
            && (q.host.Some? && q.key.d.Some? ==> q.host.value == q.key.ep + "." + q.key.d.value + "." + domain)
  {
    var q := Admit(params, domain).value;
    if q.host.Some? && q.key.d.None? { assert q.key.ep + "" + "." + domain == q.key.ep + "." + domain; }
    if q.host.Some? && q.key.d.Some? {
      assert q.key.ep + ("." + q.key.d.value) + "." + domain == q.key.ep + "." + q.key.d.value + "." + domain;
    }
  }

  /** The lifetime in the query, if there is one, is a number. */
  predicate LifetimeOk(params: Params, toInt: string -> Option<int>) {
    "lt" in params ==> params["lt"] != [] && |params["lt"]| == 1 && params["lt"][0].Some?
                       && toInt(params["lt"][0].value).Some?
  }

  /** The base can be found out, where the query does not name one. */
  predicate BaseKnown(info: Info, remote: Remote, params: Params, initial: bool) {
    "base" in params || (info.explicit && !initial) || info.host.Some? || remote.uri.Some?
  }

  /** update_params passes its checks exactly on these queries. */
  lemma CheckedQueries(info: Info, remote: Remote, params: Params, initial: bool, toInt: string -> Option<int>)
    requires Split(params)
    ensures Check(info, remote, params, initial, toInt).Ok? <==>
              && "ep" !in params && "d" !in params
              && "page" !in params && "count" !in params && "rt" !in params && "href" !in params
              && "anchor" !in params
              && BaseKnown(info, remote, params, initial) && LifetimeOk(params, toInt) && !Repeated(params, "base")
  {
    assert params.Keys * UNSUITABLE == {} <==>
             "page" !in params && "count" !in params && "rt" !in params && "href" !in params && "anchor" !in params by {
      forall k | k in {"page", "count", "rt", "href", "anchor"} && k in params
        ensures k in params.Keys * UNSUITABLE { }
    }
  }

  /** A query that does not pass is told a fault it has; a lifetime key without a value is the one that
      leads to an exception instead. */
  lemma CheckErrors(info: Info, remote: Remote, params: Params, initial: bool, toInt: string -> Option<int>)
    requires Split(params) && Check(info, remote, params, initial, toInt).Err?
    ensures match Check(info, remote, params, initial, toInt).error
            case Immutable => "ep" in params || "d" in params
            case Unsuitable =>
              "page" in params || "count" in params || "rt" in params || "href" in params || "anchor" in params
            case ExplicitBaseRequired => !BaseKnown(info, remote, params, initial)
            case MultipleValues(name) => (name == "lt" || name == "base") && Repeated(params, name)
            case LtNotNumeric => "lt" in params && params["lt"][0].Some? && toInt(params["lt"][0].value).None?
            case Crash => Bare(params, "lt")
            case _ => false
  {
    if Check(info, remote, params, initial, toInt).error == Unsuitable {
      var k :| k in params.Keys * UNSUITABLE;
    }
  }

  /** So a registration succeeds exactly if it passes both checks and does not name a base without
      giving one, which would fail late. */
  lemma AcceptedRegistrations(dir: Directory, remote: Remote, params: Params, domain: string,
      toInt: string -> Option<int>)
    requires Split(params)
    ensures Register(dir, remote, params, domain, toInt).1.None? <==>
              && Admit(params, domain).Ok?
              && "page" !in params && "count" !in params && "rt" !in params && "href" !in params
              && "anchor" !in params && LifetimeOk(params, toInt)
              && (if "base" in params then |params["base"]| == 1 && params["base"][0].Some?
                  else "proxy" in params || remote.uri.Some?)
  {
    RestIsSplit(params, domain);
    if Admit(params, domain).Ok? {
      var q := Admit(params, domain).value;
      FixedAndRest(params, domain);
      AdmittedNames(params, domain);
      CheckedQueries(Blank(q, TailFor(dir, q.key)), remote, q.rest, true, toInt);
    }
  }

  // ---------------------------------------------------------------- what is stored

  /** The base that follows from the network: the proxy host if there is one, else where the request
      came from. */
  predicate IsNetworkBase(base: string, host: Option<string>, remote: Remote) {
    if host.Some? then base == "coap://" + host.value else remote.uri == Some(base)
  }

  /** y is what a query makes of the registration x, `first` if it has just been made. */
  ghost predicate Stores(x: Info, y: Info, remote: Remote, params: Params, first: bool, toInt: string -> Option<int>) {
    && y.tail == x.tail && y.host == x.host
    && (if "lt" in params then
          params["lt"] != [] && params["lt"][0].Some? && toInt(params["lt"][0].value) == Some(y.lt)
        else y.lt == x.lt)
    && (if "base" in params && params["base"] != [] && params["base"][0].Some? then
          y.base == params["base"][0].value && y.explicit
        else if x.explicit && !first then y.base == x.base && y.explicit
        else !y.explicit && IsNetworkBase(y.base, y.host, remote))
    && (forall k :: k in y.params <==> k in x.params || (k in params && k != "lt" && k != "base"))
    && (forall k :: k in params && k != "lt" && k != "base" ==> k in y.params && y.params[k] == params[k])
    && (forall k :: k in x.params && (k !in params || k == "lt" || k == "base") ==>
          k in y.params && y.params[k] == x.params[k])
  }

  /** update_params, where it succeeds, stores the lifetime and the base of the query; without a base
      it keeps an explicit one, and otherwise takes that of the network. */
  lemma UpdateStores(info: Info, remote: Remote, params: Params, first: bool, toInt: string -> Option<int>)
    requires Split(params) && Update(info, remote, params, first, toInt).error.None? && (first ==> !info.explicit)
    ensures Stores(info, Update(info, remote, params, first, toInt).info, remote, params, first, toInt)
  {
  }

  /** A registration update that succeeds stores that for its endpoint, sets the remote of its proxy
      host, and changes nothing else. */
  lemma RenewalStores(dir: Directory, key: Key, remote: Remote, params: Params, toInt: string -> Option<int>)
    requires Split(params) && key in dir.regs && Renew(dir, key, remote, params, toInt).1.None?
    ensures var d := Renew(dir, key, remote, params, toInt).0;
            && d.regs.Keys == dir.regs.Keys && Stores(dir.regs[key], d.regs[key], remote, params, false, toInt)
            && (forall k :: k in dir.regs && k != key ==> d.regs[k] == dir.regs[k])
            && OnlyProxy(dir.proxies, d.proxies, dir.regs[key].host, remote)
  {
    UpdateStores(dir.regs[key], remote, params, false, toInt);
  }

  /** The proxy host, if there is one, stands for the remote; the others are as before. */
  ghost predicate OnlyProxy(before: map<string, Remote>, after: map<string, Remote>, host: Option<string>,
      remote: Remote) {
    && (host.Some? ==> host.value in after && after[host.value] == remote)
    && (forall h :: Some(h) != host ==> (h in after <==> h in before))
    && (forall h :: Some(h) != host && h in before ==> h in after && after[h] == before[h])
  }

  /** A registration before its query is looked at. */
  function NewInfo(tail: nat, host: Option<string>): Info {
    Info(tail, host, map[], 90000, "", false)
  }

  /** A registration that succeeds stores the query but for `proxy`, the lifetime, which is 90000 if
      the query has none, and the base. */
  lemma RegistrationStores(dir: Directory, remote: Remote, params: Params, domain: string,
      toInt: string -> Option<int>)
    requires Split(params) && Register(dir, remote, params, domain, toInt).1.None?
    ensures var d := Register(dir, remote, params, domain, toInt).0; var q := Admit(params, domain).value;
            && q.key in d.regs && d.regs[q.key].host == q.host
            && Stores(NewInfo(d.regs[q.key].tail, q.host), d.regs[q.key], remote, params - {"proxy"}, true, toInt)
  {
    RestIsSplit(params, domain);
    var q := Admit(params, domain).value;
    var blank := Blank(q, TailFor(dir, q.key));
    UpdateStores(blank, remote, q.rest, true, toInt);
    FixedAndRest(params, domain);
    var y := Register(dir, remote, params, domain, toInt).0.regs[q.key];
    StoresBoth(NewInfo(blank.tail, q.host), q.fixed, q.rest, y, remote, params - {"proxy"}, toInt);
  }

  /** The parameters that name the endpoint and the others are those of the query, but for `proxy`. */
  lemma FixedAndRest(params: Params, domain: string)
    requires Split(params) && Admit(params, domain).Ok?
    ensures var q := Admit(params, domain).value; IsParted(params - {"proxy"}, q.fixed, q.rest)
  {
  }

  ghost predicate IsParted(params: Params, fixed: Params, rest: Params) {
    && (forall k :: k in fixed <==> k in params && (k == "ep" || k == "d"))
    && (forall k :: k in rest <==> k in params && k != "ep" && k != "d")
    && (forall k :: k in fixed ==> fixed[k] == params[k]) && (forall k :: k in rest ==> rest[k] == params[k])
  }

  lemma StoresBoth(x: Info, fixed: Params, rest: Params, y: Info, remote: Remote, params: Params,
      toInt: string -> Option<int>)
    requires x.params == map[] && IsParted(params, fixed, rest)
    requires Stores(x.(params := fixed), y, remote, rest, true, toInt)
    ensures Stores(x, y, remote, params, true, toInt)
  {
    assert x.(params := fixed).params == fixed;
  }

  /** It also points the proxy host to the client, and takes away at most the endpoint's old one. */
  lemma RegistrationSetsProxy(dir: Directory, remote: Remote, params: Params, domain: string,
      toInt: string -> Option<int>)
    requires Split(params) && Register(dir, remote, params, domain, toInt).1.None?
    ensures var d := Register(dir, remote, params, domain, toInt).0; var q := Admit(params, domain).value;
            && (q.host.Some? ==> q.host.value in d.proxies && d.proxies[q.host.value] == remote)
            && forall h :: Some(h) != q.host && !(q.key in dir.regs && dir.regs[q.key].host == Some(h)) ==>
                 (h in d.proxies <==> h in dir.proxies) && (h in dir.proxies ==> d.proxies[h] == dir.proxies[h])
  {
    RestIsSplit(params, domain);
    UpdateKeepsIdentity(Blank(Admit(params, domain).value, TailFor(dir, Admit(params, domain).value.key)), remote,
      Admit(params, domain).value.rest, true, toInt);
  }
}
