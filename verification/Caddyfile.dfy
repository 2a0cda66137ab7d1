/** Printing the route table as a Caddyfile. */
module Caddyfile {
  import opened Text
  import opened ControlPlane
  import opened Hosts

  type Table = map<string, Publication>

  predicate ValidRoute(route: Route) {
    && 0 < route.port <= 65535
    && route.path != [] && route.path[0] == '/'
    && forall i :: 0 <= i < |route.path| ==> route.path[i] !in " \t\r\n{}"
  }

  predicate ValidPublication(publication: Publication) {
    ValidHost(publication.host) && forall i :: 0 <= i < |publication.routes| ==> ValidRoute(publication.routes[i])
  }

  /** What every table in use satisfies: keys are the stored hosts and all entries are valid. */
  ghost predicate WellKeyed(table: Table) {
    forall host :: host in table ==> table[host].host == host && ValidPublication(table[host])
  }

  // Sorting by path length, in bytes -------------------------------------------------

  ghost predicate LongestFirst(routes: seq<Route>) {
    forall i, j :: 0 <= i < j < |routes| ==> Size(routes[i].path) >= Size(routes[j].path)
  }

  function InsertRoute(route: Route, routes: seq<Route>): seq<Route> {
    if routes == [] || Size(route.path) >= Size(routes[0].path) then [route] + routes
    else [routes[0]] + InsertRoute(route, routes[1..])
  }

  /** sort.SliceStable with longer paths first. */
  function SortByLength(routes: seq<Route>): seq<Route> {
    if routes == [] then [] else InsertRoute(routes[0], SortByLength(routes[1..]))
  }

  ghost function OfLength(routes: seq<Route>, n: nat): seq<Route> {
    if routes == [] then []
    else (if Size(routes[0].path) == n then [routes[0]] else []) + OfLength(routes[1..], n)
  }

  lemma {:induction false} InsertMembers(route: Route, routes: seq<Route>)
    ensures multiset(InsertRoute(route, routes)) == multiset{route} + multiset(routes)
    ensures forall x :: x in InsertRoute(route, routes) <==> x == route || x in routes
  {
    if routes != [] && Size(route.path) < Size(routes[0].path) {
      InsertMembers(route, routes[1..]);
      assert routes == [routes[0]] + routes[1..];
    }
    SameMembers(InsertRoute(route, routes), [route] + routes);
  }

  lemma SameMembers(a: seq<Route>, b: seq<Route>)
    requires multiset(a) == multiset(b)
    ensures forall x :: x in a <==> x in b
  {
    forall x ensures x in a <==> x in b {
      assert x in multiset(a) <==> x in multiset(b);
    }
  }

  lemma {:induction false} InsertKeepsOrder(route: Route, routes: seq<Route>)
    requires LongestFirst(routes)
    ensures LongestFirst(InsertRoute(route, routes))
  {
    if routes != [] && Size(route.path) < Size(routes[0].path) {
      InsertKeepsOrder(route, routes[1..]);
      InsertMembers(route, routes[1..]);
      var rest := InsertRoute(route, routes[1..]);
      forall j | 0 <= j < |rest| ensures Size(routes[0].path) >= Size(rest[j].path) {
        assert rest[j] in rest;
      }
    }
  }

  lemma OfLengthCons(route: Route, routes: seq<Route>, n: nat)
    ensures OfLength([route] + routes, n) == OfLength([route], n) + OfLength(routes, n)
  {}

  lemma {:induction false} InsertKeepsRuns(route: Route, routes: seq<Route>, n: nat)
    requires LongestFirst(routes)
    ensures OfLength(InsertRoute(route, routes), n) == OfLength([route], n) + OfLength(routes, n)
  {
    if routes == [] || Size(route.path) >= Size(routes[0].path) {
      OfLengthCons(route, routes, n);
    } else {
      var first, rest := routes[0], routes[1..];
      assert routes == [first] + rest;
      InsertKeepsRuns(route, rest, n);
      OfLengthCons(first, InsertRoute(route, rest), n);
      OfLengthCons(first, rest, n);
      assert OfLength([route], n) == [] || OfLength([first], n) == [];
    }
  }

  lemma {:induction false} SortMembers(routes: seq<Route>)
    ensures LongestFirst(SortByLength(routes))
    ensures multiset(SortByLength(routes)) == multiset(routes)
    ensures forall x :: x in SortByLength(routes) <==> x in routes
  {
    if routes != [] {
      SortMembers(routes[1..]);
      InsertMembers(routes[0], SortByLength(routes[1..]));
      InsertKeepsOrder(routes[0], SortByLength(routes[1..]));
      assert routes == [routes[0]] + routes[1..];
    }
    SameMembers(SortByLength(routes), routes);
  }

  /** Sorted, with the same routes, and routes of equal length stay in their declared order. */
  lemma {:induction false} SortIsStable(routes: seq<Route>, n: nat)
    ensures LongestFirst(SortByLength(routes))
    ensures multiset(SortByLength(routes)) == multiset(routes)
    ensures OfLength(SortByLength(routes), n) == OfLength(routes, n)
  {
    SortMembers(routes);
    if routes != [] {
      SortIsStable(routes[1..], n);
      InsertKeepsRuns(routes[0], SortByLength(routes[1..]), n);
    }
  }

  /** Those three facts leave no other result: any stable sort gives this sequence. */
  lemma {:induction false} StableSortUnique(routes: seq<Route>, other: seq<Route>)
    requires LongestFirst(other)
    requires forall n: nat :: OfLength(other, n) == OfLength(routes, n)
    ensures other == SortByLength(routes)
  {
    forall n: nat ensures OfLength(SortByLength(routes), n) == OfLength(other, n) {
      SortIsStable(routes, n);
    }
    SortIsStable(routes, 0);
    SameRunsSameList(other, SortByLength(routes));
  }

  lemma OfLengthMember(routes: seq<Route>, n: nat, x: Route)
    ensures x in OfLength(routes, n) <==> x in routes && Size(x.path) == n
  {}

  lemma {:induction false} SameRunsSameList(a: seq<Route>, b: seq<Route>)
    requires LongestFirst(a) && LongestFirst(b)
    requires forall n: nat :: OfLength(a, n) == OfLength(b, n)
    ensures a == b
  {
    forall x: Route ensures x in a <==> x in b {
      OfLengthMember(a, Size(x.path), x);
      OfLengthMember(b, Size(x.path), x);
    }
    assert a != [] ==> a[0] in a;
    assert b != [] ==> b[0] in b;
    if a != [] && b != [] {
      var n := Size(a[0].path);
      assert n == Size(b[0].path);
      assert OfLength(a, n)[0] == a[0] && OfLength(b, n)[0] == b[0];
      forall m: nat ensures OfLength(a[1..], m) == OfLength(b[1..], m) {
        assert OfLength(a, m) == OfLength(b, m);
        if m == n {
          assert OfLength(a[1..], m) == OfLength(a, m)[1..];
          assert OfLength(b[1..], m) == OfLength(b, m)[1..];
        } else {
          assert OfLength(a[1..], m) == OfLength(a, m);
          assert OfLength(b[1..], m) == OfLength(b, m);
        }
      }
      SameRunsSameList(a[1..], b[1..]);
      assert a == [a[0]] + a[1..] && b == [b[0]] + b[1..];
    }
  }

  // Text -------------------------------------------------------------------

  function Digit(d: nat): char
    requires d < 10
  {
    ('0' as int + d) as char
  }

  function Decimal(n: nat): string {
    if n < 10 then [Digit(n)] else Decimal(n / 10) + [Digit(n % 10)]
  }

  /** The global block. */
  function Globals(): string { "{\n" + ("\t" + "auto_https off" + "\n") + "}\n\n" }

  /** The block of every host that no other block names. */
  function NotFound(): string {
    ":80" + " {\n" + ("\trespond \"" + "zerobased: route not found" + "\" " + "404" + "\n") + "}\n"
  }

  function Header(): string { Globals() + NotFound() }

  function PathMatcher(path: string): string {
    if EndsWith(path, '*') then path
    else if EndsWith(path, '/') then path + "*"
    else path + "*"
  }

  function OpenHandle(path: string): string {
    if path == "/" then "\thandle " + "{\n" else "\thandle " + PathMatcher(path) + " {\n"
  }

  function ProxyLine(upstreamHost: string, port: nat): string {
    "\t\treverse_proxy " + upstreamHost + ":" + Decimal(port) + "\n"
  }

  function RouteBlock(route: Route, upstreamHost: string): string
    requires ValidRoute(route)
  {
    OpenHandle(route.path) + ProxyLine(upstreamHost, route.port) + "\t}\n"
  }

  function RouteBlocks(routes: seq<Route>, upstreamHost: string): string
    requires forall i :: 0 <= i < |routes| ==> ValidRoute(routes[i])
  {
    if routes == [] then "" else RouteBlock(routes[0], upstreamHost) + RouteBlocks(routes[1..], upstreamHost)
  }

  lemma SortKeepsValid(routes: seq<Route>)
    requires forall i :: 0 <= i < |routes| ==> ValidRoute(routes[i])
    ensures forall i :: 0 <= i < |SortByLength(routes)| ==> ValidRoute(SortByLength(routes)[i])
  {
    SortMembers(routes);
    forall i | 0 <= i < |SortByLength(routes)| ensures ValidRoute(SortByLength(routes)[i]) {
      assert SortByLength(routes)[i] in routes;
    }
  }

  function OpenHost(host: string): string { "\n" + "http://" + host + " {\n" }

  function HostBlock(host: string, publication: Publication, upstreamHost: string): string
    requires ValidPublication(publication)
  {
    SortKeepsValid(publication.routes);
    OpenHost(host) + RouteBlocks(SortByLength(publication.routes), upstreamHost) + "}\n"
  }

  /** The blocks of `hosts` in that order; the first invalid entry stops the printing. */
  function HostBlocks(hosts: seq<string>, table: Table, upstreamHost: string): Result<string, string>
    requires forall i :: 0 <= i < |hosts| ==> hosts[i] in table
  {
    if hosts == [] then Success("")
    else if !ValidPublication(table[hosts[0]]) then Failure(hosts[0])
    else match HostBlocks(hosts[1..], table, upstreamHost)
      case Failure(host) => Failure(host)
      case Success(rest) => Success(HostBlock(hosts[0], table[hosts[0]], upstreamHost) + rest)
  }

  ghost function Render(table: Table, upstreamHost: string): Result<string, string> {
    match HostBlocks(SortedKeys(table.Keys), table, upstreamHost)
    case Failure(host) => Failure(host)
    case Success(blocks) => Success(Header() + blocks)
  }

  lemma WellKeyedHostBlocks(hosts: seq<string>, table: Table, upstreamHost: string)
    requires WellKeyed(table) && forall i :: 0 <= i < |hosts| ==> hosts[i] in table
    ensures HostBlocks(hosts, table, upstreamHost).Success?
  {}

  /** Rendering a table in use never fails. */
  lemma WellKeyedRenders(table: Table, upstreamHost: string)
    requires WellKeyed(table)
    ensures Render(table, upstreamHost).Success?
  {
    WellKeyedHostBlocks(SortedKeys(table.Keys), table, upstreamHost);
  }

  /**
   The printer itself. `order` is the order in which the map happens to be iterated;
   the text printed does not depend on it.
   */
  method RenderCaddyfile(publications: Table, upstreamHost: string, order: seq<string>)
    returns (result: Result<string, string>)
    requires Enumerates(order, publications.Keys)
    ensures result == Render(publications, upstreamHost)
  {
    var builder := "{\n" + ("\t" + "auto_https off" + "\n");
    builder := builder + "}\n\n";
    builder := builder
      + (":80" + " {\n" + ("\trespond \"" + "zerobased: route not found" + "\" " + "404" + "\n") + "}\n");
    assert builder == Header();
    var hosts := SortStrings(order);
    SortIgnoresOrder(order, publications.Keys);
    result := PrintHosts(builder, hosts, publications, upstreamHost);
  }

  /** The outer loop: one block per host, until an invalid publication is met. */
  method PrintHosts(start: string, hosts: seq<string>, publications: Table, upstreamHost: string)
    returns (result: Result<string, string>)
    requires forall i :: 0 <= i < |hosts| ==> hosts[i] in publications
    ensures match HostBlocks(hosts, publications, upstreamHost)
      case Failure(host) => result == Failure(host)
      case Success(blocks) => result == Success(start + blocks)
  {
    var builder := start;
    ghost var whole := HostBlocks(hosts, publications, upstreamHost);
    assert hosts[0..] == hosts;
    for h := 0 to |hosts|
      invariant match HostBlocks(hosts[h..], publications, upstreamHost)
        case Failure(host) => whole == Failure(host)
        case Success(blocks) => whole.Success? && start + whole.value == builder + blocks
    {
      var host := hosts[h];
      var publication := publications[host];
      assert hosts[h..][0] == host && hosts[h..][1..] == hosts[h + 1..];
      if !ValidPublication(publication) {
        return Failure(host);
      }
      ghost var rest := HostBlocks(hosts[h + 1..], publications, upstreamHost);
      if rest.Success? {
        Regroup(builder, HostBlock(host, publication, upstreamHost), rest.value);
      }
      builder := PrintHost(builder, host, publication, upstreamHost);
    }
    assert hosts[|hosts|..] == [];
    assert builder + "" == builder;
    result := Success(builder);
  }

  /** The body of that loop. */
  method PrintHost(start: string, host: string, publication: Publication, upstreamHost: string)
    returns (builder: string)
    requires ValidPublication(publication)
    ensures builder == start + HostBlock(host, publication, upstreamHost)
  {
    var routes := SortByLength(publication.routes);
    SortKeepsValid(publication.routes);
    builder := start + "\n";
    builder := builder + "http://";
    builder := builder + host;
    builder := builder + " {\n";
    assert builder == start + OpenHost(host);
    builder := PrintRoutes(builder, routes, upstreamHost);
    builder := builder + "}\n";
    Regroup(start, OpenHost(host), RouteBlocks(routes, upstreamHost));
    Regroup(start, OpenHost(host) + RouteBlocks(routes, upstreamHost), "}\n");
  }

  lemma RouteBlocksFrom(routes: seq<Route>, r: nat, upstreamHost: string)
    requires r < |routes| && forall i :: 0 <= i < |routes| ==> ValidRoute(routes[i])
    ensures RouteBlocks(routes[r..], upstreamHost)
         == RouteBlock(routes[r], upstreamHost) + RouteBlocks(routes[r + 1..], upstreamHost)
  {}

  /** The inner loop: one handle block per route. */
  method PrintRoutes(prefix: string, routes: seq<Route>, upstreamHost: string) returns (builder: string)
    requires forall i :: 0 <= i < |routes| ==> ValidRoute(routes[i])
    ensures builder == prefix + RouteBlocks(routes, upstreamHost)
  {
    builder := prefix;
    assert routes[0..] == routes;
    ghost var whole := RouteBlocks(routes, upstreamHost);
    for r := 0 to |routes|
      invariant prefix + whole == builder + RouteBlocks(routes[r..], upstreamHost)
    {
      ghost var rest := RouteBlocks(routes[r + 1..], upstreamHost);
      RouteBlocksFrom(routes, r, upstreamHost);
      Regroup(builder, RouteBlock(routes[r], upstreamHost), rest);
      builder := PrintRoute(builder, routes[r], upstreamHost);
    }
    assert routes[|routes|..] == [];
    assert builder + "" == builder;
  }

  /** One handle block. */
  method PrintRoute(start: string, route: Route, upstreamHost: string) returns (builder: string)
    requires ValidRoute(route)
    ensures builder == start + RouteBlock(route, upstreamHost)
  {
    builder := start;
    if route.path == "/" {
      builder := builder + ("\thandle " + "{\n");
    } else {
      builder := builder + "\thandle ";
      builder := builder + PathMatcher(route.path);
      builder := builder + " {\n";
    }
    Regroup(start, "\thandle " + PathMatcher(route.path), " {\n");
    Regroup(start, "\thandle ", PathMatcher(route.path));
    assert builder == start + OpenHandle(route.path);
    builder := builder + ProxyLine(upstreamHost, route.port);
    builder := builder + "\t}\n";
    Regroup(start, OpenHandle(route.path), ProxyLine(upstreamHost, route.port));
    Regroup(start, OpenHandle(route.path) + ProxyLine(upstreamHost, route.port), "\t}\n");
  }
}
