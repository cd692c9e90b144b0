/** The configuration and its validation (src/config/model.rs, src/config/validation.rs).
    What parsing an address yields is part of the model, the parsing is not. */
module Configuration {
  import opened Bytes
  import opened Numbers

  /** An IPv4 address as a number. */
  type Address = nat

  const UNSPECIFIED: Address := 0

  datatype Route = Route(
    path: bytes,
    methods: seq<bytes>,
    root: Option<bytes>,
    index: Option<bytes>,
    directoryListing: bool,
    redirect: Option<bytes>,
    redirectStatus: Option<nat>,
    cgi: map<bytes, bytes>)

  datatype Server = Server(
    address: Option<Address>,
    ports: seq<nat>,
    names: seq<bytes>,
    errorPages: map<bytes, bytes>,
    maxBody: nat,
    routes: seq<Route>)

  const METHODS: set<bytes> := {"GET", "POST", "DELETE"}

  // ---------------------------------------------------- what a valid one is

  predicate CgiOk(cgi: map<bytes, bytes>) {
    forall ext :: ext in cgi ==> |ext| > 1 && ext[0] == '.' && Trim(cgi[ext]) != []
  }

  /** `validate_route`. */
  predicate RouteOk(r: Route) {
    && r.path != [] && r.path[0] == '/'
    && (forall i :: 0 <= i < |r.methods| ==> r.methods[i] in METHODS)
    && !(r.redirect.Some? && r.root.Some?)
    && (r.redirectStatus.Some? ==> r.redirect.Some? && 300 <= r.redirectStatus.value <= 399)
    && (r.index.Some? ==> r.root.Some?)
    && (r.directoryListing ==> r.root.Some?)
    && CgiOk(r.cgi)
    && (r.root.Some? || r.redirect.Some? || r.cgi != map[])
  }

  /** `validate_error_pages`. */
  predicate PagesOk(pages: map<bytes, bytes>) {
    forall code :: code in pages ==>
      && FromStrRadix(code, 10).Some? && 400 <= FromStrRadix(code, 10).value <= 599
      && Trim(pages[code]) != []
  }

  /** A page may be given exactly for the statuses from 400 to 599. */
  lemma PageIff(status: nat, path: bytes)
    requires status <= USIZE_MAX
    ensures PagesOk(map[Dec(status) := path]) <==> 400 <= status <= 599 && Trim(path) != []
  {
    hide Trim, FromStrRadix;
    ReadOfPrint(status, 10);
    assert Dec(status) in map[Dec(status) := path];
    assert Dec(status) == Print(status, 10);
  }

  function Normal(name: bytes): bytes { Lower(Trim(name)) }

  function NormalNames(names: seq<bytes>): set<bytes> { set i | 0 <= i < |names| :: Normal(names[i]) }

  predicate Distinct<T(==)>(s: seq<T>) { forall i, j :: 0 <= i < j < |s| ==> s[i] != s[j] }

  predicate NamesOk(names: seq<bytes>) {
    && (forall i :: 0 <= i < |names| ==> Normal(names[i]) != [])
    && (forall i, j :: 0 <= i < j < |names| ==> Normal(names[i]) != Normal(names[j]))
  }

  predicate RoutesOk(routes: seq<Route>) {
    && (forall i :: 0 <= i < |routes| ==> RouteOk(routes[i]))
    && (forall i, j :: 0 <= i < j < |routes| ==> routes[i].path != routes[j].path)
  }

  predicate PortsOk(ports: seq<nat>) { ports != [] && 0 !in ports && Distinct(ports) }

  predicate ServerOk(s: Server) {
    s.address.Some? && PortsOk(s.ports) && NamesOk(s.names) && s.maxBody > 0 && PagesOk(s.errorPages) && RoutesOk(s.routes)
  }

  /** Both listen on the same address and port. */
  predicate Shares(a: Server, b: Server) {
    a.address == b.address && exists p :: p in a.ports && p in b.ports
  }

  /** A later server on the same address and port has names, none of them taken. */
  predicate PairOk(a: Server, b: Server) {
    Shares(a, b) ==> b.names != [] && NormalNames(a.names) !! NormalNames(b.names)
  }

  predicate ConfigOk(servers: seq<Server>) {
    && servers != []
    && (forall i :: 0 <= i < |servers| ==> ServerOk(servers[i]))
    && (forall i, j :: 0 <= i < j < |servers| ==> PairOk(servers[i], servers[j]))
  }

  // ------------------------------------------------------------- validating it

  type Listener = (Address, nat)

  predicate Binds(s: Server, l: Listener) { s.address == Some(l.0) && l.1 in s.ports }

  /** The names used on a listener so far. */
  function NamesAt(names: map<Listener, set<bytes>>, l: Listener): set<bytes> {
    if l in names then names[l] else {}
  }

  function OccursAt(occurrences: map<Listener, nat>, l: Listener): nat {
    if l in occurrences then occurrences[l] else 0
  }

  /** The names taken one after the other, none empty and none taken before. */
  predicate NamesFit(names: seq<bytes>, used: set<bytes>) {
    names == [] || (Normal(names[0]) != [] && Normal(names[0]) !in used && NamesFit(names[1..], used + {Normal(names[0])}))
  }

  lemma NormalNamesRest(names: seq<bytes>)
    requires names != []
    ensures NormalNames(names) == {Normal(names[0])} + NormalNames(names[1..])
  {
    hide Normal;
    forall n | n in NormalNames(names) ensures n in {Normal(names[0])} + NormalNames(names[1..]) {
      var i :| 0 <= i < |names| && Normal(names[i]) == n;
      assert i > 0 ==> Normal(names[1..][i - 1]) == n;
    }
    forall n | n in NormalNames(names[1..]) ensures n in NormalNames(names) {
      var i :| 0 <= i < |names[1..]| && Normal(names[1..][i]) == n;
      assert Normal(names[i + 1]) == n;
    }
  }

  lemma NamesOkRest(names: seq<bytes>)
    requires names != []
    ensures NamesOk(names) <==>
              Normal(names[0]) != [] && NamesOk(names[1..]) && Normal(names[0]) !in NormalNames(names[1..])
  {
    hide Normal;
    var rest := names[1..];
    if NamesOk(names) {
      assert forall i :: 0 <= i < |rest| ==> rest[i] == names[i + 1];
    }
    if Normal(names[0]) != [] && NamesOk(rest) && Normal(names[0]) !in NormalNames(rest) {
      forall i, j | 0 <= i < j < |names| ensures Normal(names[i]) != Normal(names[j]) {
        assert Normal(rest[j - 1]) in NormalNames(rest);
        assert i > 0 ==> Normal(rest[i - 1]) != Normal(rest[j - 1]);
      }
      forall i | 0 <= i < |names| ensures Normal(names[i]) != [] {
        assert i > 0 ==> Normal(rest[i - 1]) != [];
      }
    }
  }

  lemma {:induction false} NamesFitIff(names: seq<bytes>, used: set<bytes>)
    ensures NamesFit(names, used) <==> NamesOk(names) && used !! NormalNames(names)
    decreases |names|
  {
    if names != [] {
      NormalNamesRest(names);
      NamesOkRest(names);
      NamesFitIff(names[1..], used + {Normal(names[0])});
      hide NamesOk, NormalNames, Normal;
    }
  }

  /** The innermost loop: the names of one server on one of its listeners. */
  method AddNames(names: seq<bytes>, used: set<bytes>) returns (ok: bool, all: set<bytes>)
    ensures ok <==> NamesOk(names) && used !! NormalNames(names)
    ensures ok ==> all == used + NormalNames(names)
  {
    hide Normal, NamesOk, NormalNames;
    NamesFitIff(names, used);
    all := used;
    var i := 0;
    while i < |names|
      invariant 0 <= i <= |names|
      invariant NamesFit(names, used) == NamesFit(names[i..], all)
      invariant used + NormalNames(names) == all + NormalNames(names[i..])
    {
      NormalNamesRest(names[i..]);
      var n := Normal(names[i]);
      if n == [] || n in all {
        return false, all;
      }
      all := all + {n};
      i := i + 1;
    }
    assert NormalNames([]) == {} by { NoNames(); }
    return true, all;
  }

  lemma NoNames()
    ensures NormalNames([]) == {}
  {}

  /** Nothing that came before speaks against the server's names on this listener. */
  predicate PortFits(names: seq<bytes>, occupied: bool, used: set<bytes>) {
    (occupied ==> names != []) && used !! NormalNames(names)
  }

  predicate PortsFit(s: Server, a: Address, n: nat, occurrences: map<Listener, nat>, used: map<Listener, set<bytes>>)
    requires n <= |s.ports|
  {
    forall i :: 0 <= i < n ==> PortFits(s.names, OccursAt(occurrences, (a, s.ports[i])) > 0, NamesAt(used, (a, s.ports[i])))
  }

  /** The tables have grown by the listeners on these ports. */
  ghost predicate Grown(
    s: Server, a: Address, ports: seq<nat>, occurrences: map<Listener, nat>, used: map<Listener, set<bytes>>,
    occurrences': map<Listener, nat>, used': map<Listener, set<bytes>>)
  {
    forall l: Listener {:trigger OccursAt(occurrences', l)} {:trigger NamesAt(used', l)} ::
      var mine := l.0 == a && l.1 in ports;
      && (OccursAt(occurrences', l) > 0 <==> OccursAt(occurrences, l) > 0 || mine)
      && NamesAt(used', l) == NamesAt(used, l) + if mine then NormalNames(s.names) else {}
  }

  lemma NothingGrown(s: Server, a: Address, occurrences: map<Listener, nat>, used: map<Listener, set<bytes>>)
    ensures Grown(s, a, [], occurrences, used, occurrences, used)
  {}

  /** What the tables say about a listener that is not among those added. */
  lemma Untaken(
    s: Server, a: Address, ports: seq<nat>, p: nat, occurrences: map<Listener, nat>, used: map<Listener, set<bytes>>,
    occurrences': map<Listener, nat>, used': map<Listener, set<bytes>>)
    requires Grown(s, a, ports, occurrences, used, occurrences', used') && p !in ports
    ensures var l: Listener := (a, p);
            && (OccursAt(occurrences', l) > 0 <==> OccursAt(occurrences, l) > 0)
            && NamesAt(used', l) == NamesAt(used, l)
  {
    hide NormalNames, OccursAt, NamesAt;
    var l: Listener := (a, p);
    assert NamesAt(used', l) == NamesAt(used, l) + {};
  }

  lemma GrownStep(
    s: Server, a: Address, ports: seq<nat>, p: nat, occurrences: map<Listener, nat>, used: map<Listener, set<bytes>>,
    occurrences1: map<Listener, nat>, used1: map<Listener, set<bytes>>, all: set<bytes>)
    requires Grown(s, a, ports, occurrences, used, occurrences1, used1)
    requires all == NamesAt(used1, (a, p)) + NormalNames(s.names)
    ensures var l: Listener := (a, p);
            Grown(s, a, ports + [p], occurrences, used, occurrences1[l := OccursAt(occurrences1, l) + 1], used1[l := all])
  {
    hide NormalNames;
    var l: Listener := (a, p);
    var occurrences', used' := occurrences1[l := OccursAt(occurrences1, l) + 1], used1[l := all];
    forall x: Listener | x != l
      ensures OccursAt(occurrences', x) == OccursAt(occurrences1, x) && NamesAt(used', x) == NamesAt(used1, x)
    {}
    assert OccursAt(occurrences', l) > 0 && NamesAt(used', l) == all;
    hide OccursAt, NamesAt;
    assert forall x: Listener :: x.0 == a && x.1 in ports + [p] <==> (x.0 == a && x.1 in ports) || x == l;
  }

  /** The middle loop: the ports of one server. */
  method AddPorts(s: Server, a: Address, occurrences: map<Listener, nat>, used: map<Listener, set<bytes>>)
    returns (ok: bool, occurrences': map<Listener, nat>, used': map<Listener, set<bytes>>)
    requires s.ports != []
    ensures ok <==> PortsOk(s.ports) && NamesOk(s.names) && PortsFit(s, a, |s.ports|, occurrences, used)
    ensures ok ==> Grown(s, a, s.ports, occurrences, used, occurrences', used')
  {
    hide NamesOk, NormalNames, Grown;
    NothingGrown(s, a, occurrences, used);
    occurrences', used' := occurrences, used;
    var seen: set<nat> := {};
    var i := 0;
    while i < |s.ports|
      invariant 0 <= i <= |s.ports|
      invariant forall p :: p in seen <==> p in s.ports[..i]
      invariant Distinct(s.ports[..i]) && 0 !in s.ports[..i]
      invariant i > 0 ==> NamesOk(s.names)
      invariant PortsFit(s, a, i, occurrences, used)
      invariant Grown(s, a, s.ports[..i], occurrences, used, occurrences', used')
    {
      var p := s.ports[i];
      assert s.ports[..i + 1] == s.ports[..i] + [p];
      if p == 0 || p in seen {
        assert p in seen ==> !Distinct(s.ports);
        return false, occurrences', used';
      }
      var l := (a, p);
      Untaken(s, a, s.ports[..i], p, occurrences, used, occurrences', used');
      if OccursAt(occurrences', l) > 0 && s.names == [] {
        return false, occurrences', used';
      }
      var fits, all := AddNames(s.names, NamesAt(used', l));
      if !fits {
        return false, occurrences', used';
      }
      GrownStep(s, a, s.ports[..i], p, occurrences, used, occurrences', used', all);
      seen := seen + {p};
      used' := used'[l := all];
      occurrences' := occurrences'[l := OccursAt(occurrences', l) + 1];
      i := i + 1;
    }
    assert s.ports[..i] == s.ports;
    return true, occurrences', used';
  }

  /** The routes of one server. */
  method CheckRoutes(routes: seq<Route>) returns (ok: bool)
    ensures ok <==> RoutesOk(routes)
  {
    hide RouteOk;
    var paths: set<bytes> := {};
    var i := 0;
    while i < |routes|
      invariant 0 <= i <= |routes|
      invariant RoutesOk(routes[..i])
      invariant forall x :: x in paths <==> exists j :: 0 <= j < i && routes[j].path == x
    {
      if !RouteOk(routes[i]) || routes[i].path in paths {
        return false;
      }
      paths := paths + {routes[i].path};
      i := i + 1;
    }
    assert routes[..i] == routes;
    return true;
  }

  // ------------------------------------------------------------ all the servers

  predicate SomeBinds(servers: seq<Server>, l: Listener) {
    exists i :: 0 <= i < |servers| && Binds(servers[i], l)
  }

  predicate SomeNames(servers: seq<Server>, l: Listener, n: bytes) {
    exists i :: 0 <= i < |servers| && Binds(servers[i], l) && n in NormalNames(servers[i].names)
  }

  /** The tables know exactly the listeners and names of these servers. */
  ghost predicate Recorded(servers: seq<Server>, occurrences: map<Listener, nat>, used: map<Listener, set<bytes>>) {
    && (forall l: Listener :: OccursAt(occurrences, l) > 0 <==> SomeBinds(servers, l))
    && (forall l: Listener, n :: n in NamesAt(used, l) <==> SomeNames(servers, l, n))
  }

  lemma BindsAppend(servers: seq<Server>, s: Server, l: Listener)
    ensures SomeBinds(servers + [s], l) <==> SomeBinds(servers, l) || Binds(s, l)
  {
    hide Binds;
    var all := servers + [s];
    if SomeBinds(servers, l) {
      var i :| 0 <= i < |servers| && Binds(servers[i], l);
      assert Binds(all[i], l);
    }
    if Binds(s, l) { assert Binds(all[|servers|], l); }
  }

  lemma NamesAppend(servers: seq<Server>, s: Server, l: Listener, n: bytes)
    ensures SomeNames(servers + [s], l, n) <==> SomeNames(servers, l, n) || (Binds(s, l) && n in NormalNames(s.names))
  {
    hide Binds, NormalNames;
    var all := servers + [s];
    if SomeNames(servers, l, n) {
      var i :| 0 <= i < |servers| && Binds(servers[i], l) && n in NormalNames(servers[i].names);
      assert Binds(all[i], l) && n in NormalNames(all[i].names);
    }
    if Binds(s, l) && n in NormalNames(s.names) { assert Binds(all[|servers|], l); }
  }

  lemma RecordedNext(
    servers: seq<Server>, s: Server, occurrences: map<Listener, nat>, used: map<Listener, set<bytes>>,
    occurrences': map<Listener, nat>, used': map<Listener, set<bytes>>)
    requires s.address.Some? && Recorded(servers, occurrences, used)
    requires Grown(s, s.address.value, s.ports, occurrences, used, occurrences', used')
    ensures Recorded(servers + [s], occurrences', used')
  {
    hide SomeBinds, SomeNames, NormalNames;
    forall l: Listener ensures OccursAt(occurrences', l) > 0 <==> SomeBinds(servers + [s], l) {
      BindsAppend(servers, s, l);
    }
    forall l: Listener, n ensures n in NamesAt(used', l) <==> SomeNames(servers + [s], l, n) {
      NamesAppend(servers, s, l, n);
      assert NamesAt(used', l) == NamesAt(used, l) + if Binds(s, l) then NormalNames(s.names) else {};
    }
  }

  predicate PairsOk(servers: seq<Server>, s: Server) {
    forall i :: 0 <= i < |servers| ==> PairOk(servers[i], s)
  }

  /** The tables reject exactly the servers that clash with an earlier one. */
  lemma FitsIffPairs(servers: seq<Server>, s: Server, occurrences: map<Listener, nat>, used: map<Listener, set<bytes>>)
    requires s.address.Some? && Recorded(servers, occurrences, used)
    ensures PortsFit(s, s.address.value, |s.ports|, occurrences, used) <==> PairsOk(servers, s)
  {
    hide NormalNames, OccursAt, NamesAt;
    var a := s.address.value;
    if PortsFit(s, a, |s.ports|, occurrences, used) {
      forall i | 0 <= i < |servers| ensures PairOk(servers[i], s) {
        if Shares(servers[i], s) {
          var p :| p in servers[i].ports && p in s.ports;
          FitsPair(servers, s, occurrences, used, i, p);
        }
      }
    }
    if PairsOk(servers, s) {
      forall k | 0 <= k < |s.ports|
        ensures PortFits(s.names, OccursAt(occurrences, (a, s.ports[k])) > 0, NamesAt(used, (a, s.ports[k])))
      {
        PairsFit(servers, s, occurrences, used, s.ports[k]);
      }
    }
  }

  lemma FitsPair(servers: seq<Server>, s: Server, occurrences: map<Listener, nat>, used: map<Listener, set<bytes>>, i: nat, p: nat)
    requires s.address.Some? && Recorded(servers, occurrences, used) && i < |servers|
    requires servers[i].address == s.address && p in servers[i].ports && p in s.ports
    requires PortsFit(s, s.address.value, |s.ports|, occurrences, used)
    ensures s.names != [] && NormalNames(servers[i].names) !! NormalNames(s.names)
  {
    hide NormalNames, OccursAt, NamesAt;
    var l: Listener := (s.address.value, p);
    var k :| 0 <= k < |s.ports| && s.ports[k] == p;
    assert PortFits(s.names, OccursAt(occurrences, l) > 0, NamesAt(used, l));
    assert Binds(servers[i], l) && SomeBinds(servers, l);
    forall n | n in NormalNames(servers[i].names) ensures n in NamesAt(used, l) {
      assert SomeNames(servers, l, n);
    }
  }

  lemma PairsFit(servers: seq<Server>, s: Server, occurrences: map<Listener, nat>, used: map<Listener, set<bytes>>, p: nat)
    requires s.address.Some? && Recorded(servers, occurrences, used) && PairsOk(servers, s) && p in s.ports
    ensures var l := (s.address.value, p); PortFits(s.names, OccursAt(occurrences, l) > 0, NamesAt(used, l))
  {
    hide NormalNames, OccursAt, NamesAt;
    var l: Listener := (s.address.value, p);
    if OccursAt(occurrences, l) > 0 {
      assert SomeBinds(servers, l);
      var i :| 0 <= i < |servers| && Binds(servers[i], l);
      assert PairOk(servers[i], s) && Shares(servers[i], s);
    }
    forall n | n in NamesAt(used, l) ensures n !in NormalNames(s.names) {
      assert SomeNames(servers, l, n);
      var i :| 0 <= i < |servers| && Binds(servers[i], l) && n in NormalNames(servers[i].names);
      assert PairOk(servers[i], s) && Shares(servers[i], s);
    }
  }

  lemma ConfigNext(servers: seq<Server>, s: Server)
    requires servers != []
    ensures ConfigOk(servers + [s]) <==> ConfigOk(servers) && ServerOk(s) && PairsOk(servers, s)
  {
    hide ServerOk, PairOk;
    var all := servers + [s];
    if ConfigOk(all) {
      assert all[|servers|] == s;
      assert forall i :: 0 <= i < |servers| ==> all[i] == servers[i];
      forall i | 0 <= i < |servers| ensures PairOk(servers[i], s) { assert PairOk(all[i], all[|servers|]); }
    }
  }

  /** `validate_config` accepts exactly the valid configurations. */
  method ValidateConfig(servers: seq<Server>) returns (ok: bool)
    ensures ok <==> ConfigOk(servers)
  {
    hide Distinct, NamesOk, PagesOk, RoutesOk, PairsOk, PortsFit, Recorded, Grown;
    if servers == [] {
      return false;
    }
    var occurrences: map<Listener, nat> := map[];
    var used: map<Listener, set<bytes>> := map[];
    NothingRecorded();
    var i := 0;
    while i < |servers|
      invariant 0 <= i <= |servers|
      invariant i > 0 ==> ConfigOk(servers[..i])
      invariant Recorded(servers[..i], occurrences, used)
    {
      var s := servers[i];
      assert servers[..i + 1] == servers[..i] + [s];
      Prefix(servers, i + 1);
      if i == 0 { OneServer(s); } else { ConfigNext(servers[..i], s); }
      if s.address.None? || s.ports == [] {
        return false;
      }
      FitsIffPairs(servers[..i], s, occurrences, used);
      var ok1, occurrences', used' := AddPorts(s, s.address.value, occurrences, used);
      if !ok1 || s.maxBody == 0 || !PagesOk(s.errorPages) {
        return false;
      }
      var ok2 := CheckRoutes(s.routes);
      if !ok2 {
        return false;
      }
      RecordedNext(servers[..i], s, occurrences, used, occurrences', used');
      occurrences, used := occurrences', used';
      i := i + 1;
    }
    assert servers[..i] == servers;
    return true;
  }

  lemma NothingRecorded()
    ensures Recorded([], map[], map[])
  {}

  lemma OneServer(s: Server)
    ensures ConfigOk([] + [s]) <==> ServerOk(s)
    ensures PairsOk([], s)
  {
    hide ServerOk, PairOk;
    var one := [] + [s];
    assert one[0] == s;
  }

  lemma Prefix(servers: seq<Server>, n: nat)
    requires 0 < n <= |servers|
    ensures ConfigOk(servers) ==> ConfigOk(servers[..n])
  {
    hide ServerOk, PairOk;
  }
}
