/** Choosing a route and a virtual server (src/server/routing.rs), and what a
    validated configuration makes of the choice. */
module Routing {
  import opened Bytes
  import opened Configuration

  // --------------------------------------------------------------------- routes

  /** `path_matches_route`. */
  predicate PathMatches(path: bytes, route: bytes) {
    || route == "/"
    || (|route| <= |path| && path[..|route|] == route && (|path| == |route| || path[|route|] == '/'))
  }

  /** A route covers its own path and every path that goes on with a further segment; `/` covers everything. */
  ghost predicate Covers(route: bytes, path: bytes) {
    route == "/" || path == route || exists more: bytes :: path == route + "/" + more
  }

  lemma MatchesIffCovers(path: bytes, route: bytes)
    ensures PathMatches(path, route) <==> Covers(route, path)
  {
    if PathMatches(path, route) && route != "/" && path != route {
      assert path == route + "/" + path[|route| + 1..];
    }
    if more: bytes :| path == route + "/" + more {
      assert path[..|route|] == route && path[|route|] == '/';
    }
  }

  /** The last of the longest matching routes, as `max_by_key` has it. */
  function SelectRoute(routes: seq<Route>, path: bytes): Option<Route> {
    if routes == [] then None
    else
      var best := SelectRoute(routes[..|routes| - 1], path);
      var last := routes[|routes| - 1];
      if PathMatches(path, last.path) && (best.None? || |last.path| >= |best.value.path|) then Some(last) else best
  }

  /** The only longest match. */
  ghost predicate IsBest(routes: seq<Route>, path: bytes, r: Route) {
    && r in routes && Covers(r.path, path)
    && forall q :: q in routes && q != r && Covers(q.path, path) ==> |q.path| < |r.path|
  }

  /** Two valid routes that match the same path and are equally long have the same path. */
  lemma SameLength(path: bytes, a: Route, b: Route)
    requires RouteOk(a) && RouteOk(b) && PathMatches(path, a.path) && PathMatches(path, b.path)
    requires |a.path| == |b.path|
    ensures a.path == b.path
  {
    hide CgiOk;
    var root: bytes := "/";
    assert |a.path| == 1 ==> a.path == root && b.path == root;
  }

  lemma {:induction false} SelectRouteLongest(routes: seq<Route>, path: bytes)
    ensures match SelectRoute(routes, path)
            case None => forall q :: q in routes ==> !PathMatches(path, q.path)
            case Some(r) =>
              && r in routes && PathMatches(path, r.path)
              && forall q :: q in routes && PathMatches(path, q.path) ==> |q.path| <= |r.path|
  {
    hide RouteOk, PathMatches;
    if routes != [] {
      var front, last := routes[..|routes| - 1], routes[|routes| - 1];
      SelectRouteLongest(front, path);
      assert forall q :: q in routes ==> q in front || q == last;
    }
  }

  lemma InRoutes(routes: seq<Route>, a: Route, b: Route)
    requires RoutesOk(routes) && a in routes && b in routes && a.path == b.path
    ensures a == b
  {
    var i :| 0 <= i < |routes| && routes[i] == a;
    var j :| 0 <= j < |routes| && routes[j] == b;
  }

  /** With valid routes the selection is the only longest match, if anything matches. */
  lemma SelectRouteIsBest(routes: seq<Route>, path: bytes)
    requires RoutesOk(routes)
    ensures match SelectRoute(routes, path)
            case None => forall q :: q in routes ==> !Covers(q.path, path)
            case Some(r) => IsBest(routes, path, r)
  {
    hide SelectRoute, Covers, PathMatches, RouteOk;
    SelectRouteLongest(routes, path);
    forall q ensures PathMatches(path, q) <==> Covers(q, path) { MatchesIffCovers(path, q); }
    var selected := SelectRoute(routes, path);
    if selected.Some? {
      forall q | q in routes && q != selected.value && Covers(q.path, path) ensures |q.path| < |selected.value.path| {
        if |q.path| == |selected.value.path| {
          ValidRoute(routes, q);
          ValidRoute(routes, selected.value);
          SameLength(path, q, selected.value);
          InRoutes(routes, q, selected.value);
          assert false;
        }
      }
    }
  }

  lemma ValidRoute(routes: seq<Route>, r: Route)
    requires RoutesOk(routes) && r in routes
    ensures RouteOk(r)
  {
    hide RouteOk;
    var i :| 0 <= i < |routes| && routes[i] == r;
  }

  lemma SameElements<T>(a: seq<T>, b: seq<T>)
    requires multiset(a) == multiset(b)
    ensures forall x :: x in a <==> x in b
  {
    forall x ensures x in a <==> x in b {
      assert x in multiset(a) <==> x in a;
      assert x in multiset(b) <==> x in b;
    }
  }

  /** The order in which valid routes are written down does not matter. */
  lemma SelectRoutePermuted(routes: seq<Route>, others: seq<Route>, path: bytes)
    requires RoutesOk(routes) && multiset(routes) == multiset(others)
    ensures SelectRoute(routes, path) == SelectRoute(others, path)
  {
    hide SelectRoute, PathMatches, RoutesOk, RouteOk;
    SameElements(routes, others);
    SelectRouteLongest(routes, path);
    SelectRouteLongest(others, path);
    var a, b := SelectRoute(routes, path), SelectRoute(others, path);
    if a.Some? && b.Some? {
      ValidRoute(routes, a.value);
      ValidRoute(routes, b.value);
      SameLength(path, a.value, b.value);
      InRoutes(routes, a.value, b.value);
    }
  }

  // -------------------------------------------------------------------- servers

  /** `server_binds`. */
  predicate BindsTo(s: Server, address: Address, port: nat) {
    s.address.Some? && (s.address.value == address || s.address.value == UNSPECIFIED) && port in s.ports
  }

  /** The position of the last colon, as `rfind` has it. */
  function LastColon(host: bytes): (r: Option<nat>)
    ensures r.Some? ==> r.value < |host|
  {
    if host == [] then None
    else if host[|host| - 1] == ':' then Some(|host| - 1)
    else LastColon(host[..|host| - 1])
  }

  function NormalHost(host: bytes): bytes {
    var colon := LastColon(host);
    Lower(Trim(if colon.Some? then host[..colon.value] else host))
  }

  predicate IsNamed(s: Server, host: bytes) {
    exists i :: 0 <= i < |s.names| && EqIgnoreCase(s.names[i], NormalHost(host))
  }

  function Candidates(servers: seq<Server>, address: Address, port: nat): seq<Server> {
    if servers == [] then []
    else (if BindsTo(servers[0], address, port) then [servers[0]] else []) + Candidates(servers[1..], address, port)
  }

  function FirstNamed(servers: seq<Server>, host: bytes): Option<Server> {
    if servers == [] then None
    else if IsNamed(servers[0], host) then Some(servers[0])
    else FirstNamed(servers[1..], host)
  }

  function SelectServer(servers: seq<Server>, address: Address, port: nat, host: Option<bytes>): Option<Server> {
    var candidates := Candidates(servers, address, port);
    if candidates == [] then None
    else
      var named := if host.Some? then FirstNamed(candidates, host.value) else None;
      if named.Some? then named else Some(candidates[0])
  }

  /** Some server, listening there, carries the name. */
  predicate Serves(s: Server, address: Address, port: nat, host: bytes) {
    BindsTo(s, address, port) && IsNamed(s, host)
  }

  lemma {:induction false} InCandidates(servers: seq<Server>, address: Address, port: nat, s: Server)
    ensures s in Candidates(servers, address, port) <==> s in servers && BindsTo(s, address, port)
  {
    hide BindsTo;
    if servers != [] {
      InCandidates(servers[1..], address, port, s);
      assert s in servers <==> s == servers[0] || s in servers[1..];
    }
  }

  lemma {:induction false} FirstNamedIs(servers: seq<Server>, host: bytes)
    ensures match FirstNamed(servers, host)
            case None => forall s :: s in servers ==> !IsNamed(s, host)
            case Some(s) => s in servers && IsNamed(s, host)
  {
    hide IsNamed;
    if servers != [] {
      FirstNamedIs(servers[1..], host);
      assert forall s :: s in servers <==> s == servers[0] || s in servers[1..];
    }
  }

  /** If a server listening there carries the name, one that does is selected. */
  lemma SelectServerServes(servers: seq<Server>, address: Address, port: nat, host: bytes, s: Server)
    requires s in servers && Serves(s, address, port, host)
    ensures var r := SelectServer(servers, address, port, Some(host));
            r.Some? && r.value in servers && Serves(r.value, address, port, host)
  {
    hide BindsTo, IsNamed, Candidates, FirstNamed;
    var candidates := Candidates(servers, address, port);
    InCandidates(servers, address, port, s);
    FirstNamedIs(candidates, host);
    var named := FirstNamed(candidates, host);
    if named.Some? { InCandidates(servers, address, port, named.value); }
  }

  // -------------------------------------------------------- the name that is asked for

  predicate NoColon(s: bytes) { forall i :: 0 <= i < |s| ==> s[i] != ':' }

  lemma {:induction false} NoLastColon(s: bytes)
    requires NoColon(s)
    ensures LastColon(s) == None
  {
    if s != [] { NoLastColon(s[..|s| - 1]); }
  }

  lemma {:induction false} LastColonAt(name: bytes, port: bytes)
    requires NoColon(port)
    ensures LastColon(name + ":" + port) == Some(|name|)
    decreases |port|
  {
    var s := name + ":" + port;
    if port == [] {
      assert s[|s| - 1] == ':';
    } else {
      assert s[|s| - 1] == port[|port| - 1] && s[..|s| - 1] == name + ":" + port[..|port| - 1];
      LastColonAt(name, port[..|port| - 1]);
    }
  }

  /** A host is asked for by its name, with or without a port behind it, and in any case. */
  lemma NamedIff(s: Server, name: bytes, port: bytes)
    requires NoColon(name) && Trim(name) == name && NoColon(port)
    ensures IsNamed(s, name) <==> exists i :: 0 <= i < |s.names| && Lower(s.names[i]) == Lower(name)
    ensures IsNamed(s, name + ":" + port) <==> exists i :: 0 <= i < |s.names| && Lower(s.names[i]) == Lower(name)
  {
    hide Lower, Trim;
    NoLastColon(name);
    LastColonAt(name, port);
    assert (name + ":" + port)[..|name|] == name;
    LowerIdempotent(name);
  }

  /** Of the colons in a host only the last one introduces a port. */
  lemma LastPortStripped(host: bytes, port: bytes)
    requires NoColon(port)
    ensures NormalHost(host + ":" + port) == Lower(Trim(host))
  {
    hide Lower, Trim;
    LastColonAt(host, port);
    assert (host + ":" + port)[..|host|] == host;
  }

  lemma SameHost(name: bytes, port: bytes)
    requires NoColon(name) && NoColon(port)
    ensures NormalHost(name + ":" + port) == NormalHost(name)
  {
    hide Lower, Trim;
    NoLastColon(name);
    LastColonAt(name, port);
    assert (name + ":" + port)[..|name|] == name;
  }

  lemma {:induction false} FirstNamedSame(servers: seq<Server>, a: bytes, b: bytes)
    requires NormalHost(a) == NormalHost(b)
    ensures FirstNamed(servers, a) == FirstNamed(servers, b)
  {
    hide NormalHost;
    if servers != [] { FirstNamedSame(servers[1..], a, b); }
  }

  /** The port in a Host header makes no difference. */
  lemma PortIgnored(servers: seq<Server>, address: Address, port: nat, name: bytes, text: bytes)
    requires NoColon(name) && NoColon(text)
    ensures SelectServer(servers, address, port, Some(name + ":" + text)) == SelectServer(servers, address, port, Some(name))
  {
    hide NormalHost, FirstNamed, Candidates;
    SameHost(name, text);
    FirstNamedSame(Candidates(servers, address, port), name + ":" + text, name);
  }

  /** Server `i` is the first to be bound there. */
  predicate IsFirstBound(servers: seq<Server>, address: Address, port: nat, i: int) {
    && 0 <= i < |servers| && BindsTo(servers[i], address, port)
    && forall j :: 0 <= j < i ==> !BindsTo(servers[j], address, port)
  }

  predicate IsFirstServing(servers: seq<Server>, address: Address, port: nat, host: bytes, i: int) {
    && 0 <= i < |servers| && Serves(servers[i], address, port, host)
    && forall j :: 0 <= j < i ==> !Serves(servers[j], address, port, host)
  }

  lemma {:induction false} FirstCandidate(servers: seq<Server>, address: Address, port: nat) returns (i: int)
    ensures var candidates := Candidates(servers, address, port);
            if candidates == [] then forall s :: s in servers ==> !BindsTo(s, address, port)
            else IsFirstBound(servers, address, port, i) && servers[i] == candidates[0]
  {
    hide BindsTo;
    i := 0;
    if servers != [] && !BindsTo(servers[0], address, port) {
      var k := FirstCandidate(servers[1..], address, port);
      i := k + 1;
      assert servers == [servers[0]] + servers[1..];
      if Candidates(servers[1..], address, port) != [] {
        forall j | 0 <= j < i ensures !BindsTo(servers[j], address, port) {
          assert j > 0 ==> servers[1..][j - 1] == servers[j];
        }
      }
    }
  }

  lemma OneMoreServing(servers: seq<Server>, address: Address, port: nat, host: bytes, k: int)
    requires servers != [] && !Serves(servers[0], address, port, host)
    requires IsFirstServing(servers[1..], address, port, host, k)
    ensures IsFirstServing(servers, address, port, host, k + 1) && servers[k + 1] == servers[1..][k]
  {
    hide Serves;
    forall j | 0 <= j < k + 1 ensures !Serves(servers[j], address, port, host) {
      assert j > 0 ==> servers[1..][j - 1] == servers[j];
    }
  }

  lemma FirstNamedStep(servers: seq<Server>, address: Address, port: nat, host: bytes)
    requires servers != []
    ensures FirstNamed(Candidates(servers, address, port), host) ==
              if Serves(servers[0], address, port, host) then Some(servers[0])
              else FirstNamed(Candidates(servers[1..], address, port), host)
  {
    hide BindsTo, IsNamed;
    var rest := Candidates(servers[1..], address, port);
    if BindsTo(servers[0], address, port) {
      assert ([servers[0]] + rest)[1..] == rest;
    } else {
      assert [] + rest == rest;
    }
  }

  lemma {:induction false} FirstServing(servers: seq<Server>, address: Address, port: nat, host: bytes) returns (i: int)
    ensures var named := FirstNamed(Candidates(servers, address, port), host);
            if named.None? then forall s :: s in servers ==> !Serves(s, address, port, host)
            else IsFirstServing(servers, address, port, host, i) && servers[i] == named.value
  {
    hide Serves, FirstNamed, Candidates, IsFirstServing;
    i := 0;
    if servers != [] {
      FirstNamedStep(servers, address, port, host);
      if Serves(servers[0], address, port, host) {
        FirstOfAll(servers, address, port, host);
      } else {
        var k := FirstServing(servers[1..], address, port, host);
        i := k + 1;
        assert servers == [servers[0]] + servers[1..];
        if FirstNamed(Candidates(servers, address, port), host).Some? { OneMoreServing(servers, address, port, host, k); }
      }
    } else {
      NobodyServes(address, port, host);
    }
  }

  lemma FirstOfAll(servers: seq<Server>, address: Address, port: nat, host: bytes)
    requires servers != [] && Serves(servers[0], address, port, host)
    ensures IsFirstServing(servers, address, port, host, 0)
  {}

  lemma NobodyServes(address: Address, port: nat, host: bytes)
    ensures FirstNamed(Candidates([], address, port), host) == None
  {}

  /** Of the servers bound there the first that carries the name answers; if none does, or no name
      is given, the first of them all. */
  lemma SelectServerIsFirst(servers: seq<Server>, address: Address, port: nat, host: Option<bytes>)
    ensures match SelectServer(servers, address, port, host)
            case None => forall s :: s in servers ==> !BindsTo(s, address, port)
            case Some(r) =>
              if host.Some? && exists s :: s in servers && Serves(s, address, port, host.value) then
                exists i :: IsFirstServing(servers, address, port, host.value, i) && servers[i] == r
              else
                exists i :: IsFirstBound(servers, address, port, i) && servers[i] == r
  {
    hide Serves, BindsTo, FirstNamed, Candidates;
    var first := FirstCandidate(servers, address, port);
    if host.Some? {
      var serving := FirstServing(servers, address, port, host.value);
    }
  }

  // ------------------------------------------------------- trimming and case

  lemma SpaceFrontLower(s: bytes)
    ensures SpaceFront(Lower(s)) == SpaceFront(s) && SpaceBack(Lower(s)) == SpaceBack(s)
  {
    var t := Lower(s);
    assert forall i :: 0 <= i < |s| ==> t[i] == LowerByte(s[i]);
  }

  lemma LowerSlice(s: bytes, i: nat, j: nat)
    requires i <= j <= |s|
    ensures Lower(s)[i..j] == Lower(s[i..j])
  {}

  lemma {:induction false} TrimStartLower(s: bytes)
    ensures TrimStart(Lower(s)) == Lower(TrimStart(s))
    decreases |s|
  {
    hide Lower, SpaceFront;
    SpaceFrontLower(s);
    var n := SpaceFront(s);
    if n != 0 {
      LowerSlice(s, n, |s|);
      assert s[n..|s|] == s[n..] && Lower(s)[n..|s|] == Lower(s)[n..];
      TrimStartLower(s[n..]);
    }
  }

  lemma {:induction false} TrimEndLower(s: bytes)
    ensures TrimEnd(Lower(s)) == Lower(TrimEnd(s))
    decreases |s|
  {
    hide Lower, SpaceBack;
    SpaceFrontLower(s);
    var n := SpaceBack(s);
    if n != 0 {
      LowerSlice(s, 0, |s| - n);
      assert s[0..|s| - n] == s[..|s| - n] && Lower(s)[0..|s| - n] == Lower(s)[..|s| - n];
      TrimEndLower(s[..|s| - n]);
    }
  }

  /** Names equal but for case are the same name to the validation. */
  lemma SameName(a: bytes, b: bytes)
    requires Lower(a) == Lower(b)
    ensures Normal(a) == Normal(b)
  {
    hide Lower, TrimStart, TrimEnd;
    TrimStartLower(a);
    TrimStartLower(b);
    TrimEndLower(TrimStart(a));
    TrimEndLower(TrimStart(b));
  }

  // ----------------------------------------------------------- when it is unique

  lemma CommonName(a: Server, b: Server, host: bytes)
    requires IsNamed(a, host) && IsNamed(b, host)
    ensures exists n :: n in NormalNames(a.names) && n in NormalNames(b.names)
  {
    hide Lower, NormalHost, Normal;
    var i :| 0 <= i < |a.names| && EqIgnoreCase(a.names[i], NormalHost(host));
    var j :| 0 <= j < |b.names| && EqIgnoreCase(b.names[j], NormalHost(host));
    SameName(a.names[i], b.names[j]);
    assert Normal(a.names[i]) in NormalNames(a.names) && Normal(b.names[j]) in NormalNames(b.names);
  }

  /** In a valid configuration, among servers with the same address and port at most one carries a name. */
  lemma OneNamePerListener(servers: seq<Server>, i: nat, j: nat, port: nat, host: bytes)
    requires ConfigOk(servers) && i < |servers| && j < |servers|
    requires servers[i].address == servers[j].address && port in servers[i].ports && port in servers[j].ports
    requires IsNamed(servers[i], host) && IsNamed(servers[j], host)
    ensures i == j
  {
    hide ServerOk, IsNamed, NormalNames;
    if i != j {
      var a, b := if i < j then i else j, if i < j then j else i;
      assert Shares(servers[a], servers[b]) && PairOk(servers[a], servers[b]);
      CommonName(servers[a], servers[b], host);
    }
  }

  /** Two servers could answer for the name. */
  predicate Ambiguous(servers: seq<Server>, address: Address, port: nat, host: bytes) {
    exists i, j :: 0 <= i < j < |servers| && Serves(servers[i], address, port, host) && Serves(servers[j], address, port, host)
  }

  /** In a valid configuration two servers answer for one name only if one of them
      listens on the wildcard address and the other on the very address. */
  lemma OnlyWildcardsClash(servers: seq<Server>, i: nat, j: nat, address: Address, port: nat, host: bytes)
    requires ConfigOk(servers) && i < j < |servers|
    requires Serves(servers[i], address, port, host) && Serves(servers[j], address, port, host)
    ensures address != UNSPECIFIED
    ensures {servers[i].address, servers[j].address} == {Some(UNSPECIFIED), Some(address)}
  {
    hide ConfigOk, IsNamed;
    if servers[i].address == servers[j].address {
      OneNamePerListener(servers, i, j, port, host);
      assert false;
    }
  }

  /** Whichever of a valid configuration's servers is asked for by name, the choice
      does not depend on their order exactly when only one server answers for the name. */
  lemma OrderFreeIff(servers: seq<Server>, address: Address, port: nat, host: bytes, s: Server)
    requires ConfigOk(servers) && s in servers && Serves(s, address, port, host)
    ensures (forall others :: multiset(others) == multiset(servers) ==>
               SelectServer(others, address, port, Some(host)) == SelectServer(servers, address, port, Some(host)))
            <==> !Ambiguous(servers, address, port, host)
  {
    hide ConfigOk, Serves, SelectServer;
    if Ambiguous(servers, address, port, host) {
      var i, j :| 0 <= i < j < |servers| && Serves(servers[i], address, port, host) && Serves(servers[j], address, port, host);
      OnlyWildcardsClash(servers, i, j, address, port, host);
      ChosenFirst(servers, i, address, port, host);
      ChosenFirst(servers, j, address, port, host);
      assert servers[i] != servers[j];
    } else {
      SelectServerServes(servers, address, port, host, s);
      forall others | multiset(others) == multiset(servers)
        ensures SelectServer(others, address, port, Some(host)) == SelectServer(servers, address, port, Some(host))
      {
        SameElements(servers, others);
        SelectServerServes(others, address, port, host, s);
        OnlyOne(servers, address, port, host,
          SelectServer(others, address, port, Some(host)).value, SelectServer(servers, address, port, Some(host)).value);
      }
    }
  }

  lemma OnlyOne(servers: seq<Server>, address: Address, port: nat, host: bytes, a: Server, b: Server)
    requires !Ambiguous(servers, address, port, host) && a in servers && b in servers
    requires Serves(a, address, port, host) && Serves(b, address, port, host)
    ensures a == b
  {
    hide Serves;
    var i :| 0 <= i < |servers| && servers[i] == a;
    var j :| 0 <= j < |servers| && servers[j] == b;
  }

  /** A server that answers for the name is chosen if it is written down first. */
  lemma ChosenFirst(servers: seq<Server>, i: nat, address: Address, port: nat, host: bytes)
    requires i < |servers| && Serves(servers[i], address, port, host)
    ensures exists others ::
      multiset(others) == multiset(servers) && SelectServer(others, address, port, Some(host)) == Some(servers[i])
  {
    hide BindsTo, IsNamed;
    var others := [servers[i]] + servers[..i] + servers[i + 1..];
    assert servers == servers[..i] + [servers[i]] + servers[i + 1..];
    assert others[0] == servers[i];
    assert Candidates(others, address, port)[0] == servers[i];
    assert SelectServer(others, address, port, Some(host)) == Some(servers[i]);
  }

  const EXAMPLE: bytes := "a"

  /** 127.0.0.1 */
  const LOOPBACK: Address := 127 * 0x100_0000 + 1

  /** A valid configuration whose two servers, the second on the wildcard address, answer for one name
      on the listener of the first. */
  lemma AmbiguityHappens()
    ensures var servers := [
              Server(Some(LOOPBACK), [80], [EXAMPLE], map[], 1, []),
              Server(Some(UNSPECIFIED), [80], [EXAMPLE], map[], 1, [])];
            ConfigOk(servers) && Ambiguous(servers, LOOPBACK, 80, EXAMPLE)
  {
    var a := Server(Some(LOOPBACK), [80], [EXAMPLE], map[], 1, []);
    var b := Server(Some(UNSPECIFIED), [80], [EXAMPLE], map[], 1, []);
    var servers := [a, b];
    TrimPrintable(EXAMPLE);
    assert Lower(EXAMPLE) == EXAMPLE;
    assert LastColon(EXAMPLE) == None;
    assert NormalHost(EXAMPLE) == EXAMPLE && Normal(EXAMPLE) == EXAMPLE;
    hide Lower, Trim, NormalHost, Normal, LastColon;
    assert EqIgnoreCase(a.names[0], NormalHost(EXAMPLE)) && EqIgnoreCase(b.names[0], NormalHost(EXAMPLE));
    assert Serves(servers[0], LOOPBACK, 80, EXAMPLE) && Serves(servers[1], LOOPBACK, 80, EXAMPLE);
  }
}
