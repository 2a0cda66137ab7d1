/** Reading back the text that the printer emits. */
module CaddyParser {
  import opened Text
  import opened ControlPlane
  import opened Hosts
  import opened Caddyfile

  /** One handle block; the empty matcher is the block that accepts every request. */
  datatype Handle = Handle(matcher: string, port: nat)

  datatype Site = Site(host: string, handles: seq<Handle>)

  /** The block of an address that answers everything with one text and status. */
  datatype CatchAll = CatchAll(address: string, text: string, status: nat)

  /** A whole file: the global options, the catch-all block and one block per host. */
  datatype Config = Config(options: seq<string>, catchAll: CatchAll, sites: seq<Site>)

  function Expect(s: string, token: string): (r: Option<string>)
    ensures r.Some? ==> |r.value| + |token| == |s|
  {
    if token <= s then Some(s[|token|..]) else None
  }

  /** The part of `s` before the first `stop`. */
  function Until(s: string, stop: char): (r: string)
    ensures |r| <= |s| && r == s[..|r|]
  {
    if s == [] || s[0] == stop then [] else [s[0]] + Until(s[1..], stop)
  }

  function ParseDecimal(s: string): Option<nat> {
    if s == [] || !('0' <= s[|s| - 1] <= '9') then None
    else if |s| == 1 then Some(s[0] as int - '0' as int)
    else match ParseDecimal(s[..|s| - 1])
      case None => None
      case Some(n) => Some(10 * n + (s[|s| - 1] as int - '0' as int))
  }

  /** What stands between "handle " and the end of its line. */
  function ParseMatcher(s: string): (r: Option<(string, string)>)
    ensures r.Some? ==> |r.value.1| < |s|
  {
    if s != [] && s[0] == '{' then
      match Expect(s, "{\n") case None => None case Some(rest) => Some(("", rest))
    else
      var matcher := Until(s, ' ');
      match Expect(s[|matcher|..], " {\n") case None => None case Some(rest) => Some((matcher, rest))
  }

  function ParseProxy(s: string, upstreamHost: string): (r: Option<(nat, string)>)
    ensures r.Some? ==> |r.value.1| <= |s|
  {
    match Expect(s, "\t\treverse_proxy " + upstreamHost + ":")
    case None => None
    case Some(t) =>
      var digits := Until(t, '\n');
      match ParseDecimal(digits)
      case None => None
      case Some(port) =>
        match Expect(t[|digits|..], "\n") case None => None case Some(rest) => Some((port, rest))
  }

  function ParseHandle(s: string, upstreamHost: string): (r: Option<(Handle, string)>)
    ensures r.Some? ==> |r.value.1| < |s|
  {
    match Expect(s, "\thandle ")
    case None => None
    case Some(t) =>
      match ParseMatcher(t)
      case None => None
      case Some((matcher, u)) =>
        match ParseProxy(u, upstreamHost)
        case None => None
        case Some((port, v)) =>
          match Expect(v, "\t}\n")
          case None => None
          case Some(rest) => Some((Handle(matcher, port), rest))
  }

  function ParseHandles(s: string, upstreamHost: string): (r: Option<(seq<Handle>, string)>)
    ensures r.Some? ==> |r.value.1| <= |s|
    decreases |s|
  {
    if s == [] || s[0] != '\t' then Some(([], s))
    else match ParseHandle(s, upstreamHost)
      case None => None
      case Some((handle, t)) =>
        match ParseHandles(t, upstreamHost)
        case None => None
        case Some((handles, rest)) => Some(([handle] + handles, rest))
  }

  function ParseSite(s: string, upstreamHost: string): (r: Option<(Site, string)>)
    ensures r.Some? ==> |r.value.1| < |s|
  {
    match Expect(s, "\n" + "http://")
    case None => None
    case Some(t) =>
      var host := Until(t, ' ');
      match Expect(t[|host|..], " {\n")
      case None => None
      case Some(u) =>
        match ParseHandles(u, upstreamHost)
        case None => None
        case Some((handles, v)) =>
          match Expect(v, "}\n")
          case None => None
          case Some(rest) => Some((Site(host, handles), rest))
  }

  function ParseSites(s: string, upstreamHost: string): Option<seq<Site>>
    decreases |s|
  {
    if s == [] then Some([])
    else match ParseSite(s, upstreamHost)
      case None => None
      case Some((site, t)) =>
        match ParseSites(t, upstreamHost)
        case None => None
        case Some(sites) => Some([site] + sites)
  }

  /** The lines of the global block, one option each, up to its end. */
  function ParseOptions(s: string): (r: Option<(seq<string>, string)>)
    decreases |s|
  {
    if s != [] && s[0] == '\t' then
      var option := Until(s[1..], '\n');
      match Expect(s[1..][|option|..], "\n")
      case None => None
      case Some(t) =>
        match ParseOptions(t)
        case None => None
        case Some((options, rest)) => Some(([option] + options, rest))
    else
      match Expect(s, "}\n\n") case None => None case Some(rest) => Some(([], rest))
  }

  function ParseGlobal(s: string): Option<(seq<string>, string)> {
    match Expect(s, "{\n") case None => None case Some(t) => ParseOptions(t)
  }

  /** What stands between the quotes of a respond directive, and the status after them. */
  function ParseRespond(s: string): Option<(string, nat, string)> {
    match Expect(s, "\trespond \"")
    case None => None
    case Some(t) =>
      var text := Until(t, '"');
      match Expect(t[|text|..], "\" ")
      case None => None
      case Some(u) =>
        var digits := Until(u, '\n');
        match ParseDecimal(digits)
        case None => None
        case Some(status) =>
          match Expect(u[|digits|..], "\n") case None => None case Some(rest) => Some((text, status, rest))
  }

  function ParseCatchAll(s: string): Option<(CatchAll, string)> {
    var address := Until(s, ' ');
    match Expect(s[|address|..], " {\n")
    case None => None
    case Some(t) =>
      match ParseRespond(t)
      case None => None
      case Some((text, status, u)) =>
        match Expect(u, "}\n") case None => None case Some(rest) => Some((CatchAll(address, text, status), rest))
  }

  function ParseCaddyfile(s: string, upstreamHost: string): Option<Config> {
    match ParseGlobal(s)
    case None => None
    case Some((options, t)) =>
      match ParseCatchAll(t)
      case None => None
      case Some((catchAll, u)) =>
        match ParseSites(u, upstreamHost)
        case None => None
        case Some(sites) => Some(Config(options, catchAll, sites))
  }

  // What the text says about a table ----------------------------------------

  function HandleOf(route: Route): Handle
    requires ValidRoute(route)
  {
    Handle(if route.path == "/" then "" else PathMatcher(route.path), route.port)
  }

  function HandlesOf(routes: seq<Route>): seq<Handle>
    requires forall i :: 0 <= i < |routes| ==> ValidRoute(routes[i])
  {
    if routes == [] then [] else [HandleOf(routes[0])] + HandlesOf(routes[1..])
  }

  function SiteOf(host: string, publication: Publication): Site
    requires ValidPublication(publication)
  {
    SortKeepsValid(publication.routes);
    Site(host, HandlesOf(SortByLength(publication.routes)))
  }

  function SitesOf(hosts: seq<string>, table: Table): (r: seq<Site>)
    requires forall i :: 0 <= i < |hosts| ==> hosts[i] in table && ValidPublication(table[hosts[i]])
    ensures |r| == |hosts| && forall i :: 0 <= i < |r| ==> r[i] == SiteOf(hosts[i], table[hosts[i]])
  {
    if hosts == [] then [] else [SiteOf(hosts[0], table[hosts[0]])] + SitesOf(hosts[1..], table)
  }

  // Lexical lemmas ----------------------------------------------------------

  lemma ExpectAppend(token: string, rest: string)
    ensures Expect(token + rest, token) == Some(rest)
  {}

  lemma {:induction false} UntilStops(word: string, stop: char, rest: string)
    requires stop !in word && rest != [] && rest[0] == stop
    ensures Until(word + rest, stop) == word
    ensures (word + rest)[|word|..] == rest
  {
    if word != [] {
      UntilStops(word[1..], stop, rest);
      assert (word + rest)[0] == word[0] && (word + rest)[1..] == word[1..] + rest;
      assert stop != word[0];
    } else {
      assert word + rest == rest;
    }
  }

  lemma {:induction false} DecimalRoundTrip(n: nat)
    ensures ParseDecimal(Decimal(n)) == Some(n)
    ensures forall c :: c in Decimal(n) ==> '0' <= c <= '9'
  {
    if n >= 10 {
      DecimalRoundTrip(n / 10);
      var s := Decimal(n);
      assert s[..|s| - 1] == Decimal(n / 10);
    }
  }

  lemma {:induction false} MatcherRoundTrip(route: Route, rest: string)
    requires ValidRoute(route)
    ensures ParseHandleLine(OpenHandle(route.path) + rest) == Some((HandleOf(route).matcher, rest))
  {
    if route.path == "/" {
      Regroup("\thandle ", "{\n", rest);
      ExpectAppend("\thandle ", "{\n" + rest);
      ExpectAppend("{\n", rest);
    } else {
      var m := PathMatcher(route.path);
      Regroup("\thandle " + m, " {\n", rest);
      Regroup("\thandle ", m, " {\n" + rest);
      ExpectAppend("\thandle ", m + (" {\n" + rest));
      assert ' ' !in m && m[0] == '/';
      UntilStops(m, ' ', " {\n" + rest);
      ExpectAppend(" {\n", rest);
    }
  }

  function ParseHandleLine(s: string): Option<(string, string)> {
    match Expect(s, "\thandle ") case None => None case Some(t) => ParseMatcher(t)
  }

  lemma {:induction false} ProxyRoundTrip(upstreamHost: string, port: nat, rest: string)
    ensures ParseProxy(ProxyLine(upstreamHost, port) + rest, upstreamHost) == Some((port, rest))
  {
    var token := "\t\treverse_proxy " + upstreamHost + ":";
    Regroup(token + Decimal(port), "\n", rest);
    Regroup(token, Decimal(port), "\n" + rest);
    ExpectAppend(token, Decimal(port) + ("\n" + rest));
    DecimalRoundTrip(port);
    UntilStops(Decimal(port), '\n', "\n" + rest);
    ExpectAppend("\n", rest);
  }

  lemma {:induction false} HandleRoundTrip(route: Route, upstreamHost: string, rest: string)
    requires ValidRoute(route)
    ensures ParseHandle(RouteBlock(route, upstreamHost) + rest, upstreamHost) == Some((HandleOf(route), rest))
  {
    var open, proxy := OpenHandle(route.path), ProxyLine(upstreamHost, route.port);
    Regroup(open + proxy, "\t}\n", rest);
    Regroup(open, proxy, "\t}\n" + rest);
    MatcherRoundTrip(route, proxy + ("\t}\n" + rest));
    ProxyRoundTrip(upstreamHost, route.port, "\t}\n" + rest);
    ExpectAppend("\t}\n", rest);
  }

  lemma {:induction false} HandlesRoundTrip(routes: seq<Route>, upstreamHost: string, rest: string)
    requires forall i :: 0 <= i < |routes| ==> ValidRoute(routes[i])
    requires rest != [] && rest[0] != '\t'
    ensures ParseHandles(RouteBlocks(routes, upstreamHost) + rest, upstreamHost) == Some((HandlesOf(routes), rest))
  {
    if routes == [] {
      assert "" + rest == rest;
    } else {
      var block, blocks := RouteBlock(routes[0], upstreamHost), RouteBlocks(routes[1..], upstreamHost);
      Regroup(block, blocks, rest);
      HandleRoundTrip(routes[0], upstreamHost, blocks + rest);
      HandlesRoundTrip(routes[1..], upstreamHost, rest);
      assert block[0] == '\t';
    }
  }

  lemma ValidHostHasNoSpace(host: string)
    requires ValidHost(host)
    ensures ' ' !in host
  {}

  lemma {:induction false} SiteRoundTrip(host: string, publication: Publication, upstreamHost: string, rest: string)
    requires ValidHost(host) && ValidPublication(publication)
    ensures ParseSite(HostBlock(host, publication, upstreamHost) + rest, upstreamHost)
         == Some((SiteOf(host, publication), rest))
  {
    SortKeepsValid(publication.routes);
    ValidHostHasNoSpace(host);
    var routes := SortByLength(publication.routes);
    var blocks := RouteBlocks(routes, upstreamHost);
    var tail := "}\n" + rest;
    Regroup(OpenHost(host) + blocks, "}\n", rest);
    Regroup(OpenHost(host), blocks, tail);
    Regroup("\n" + "http://" + host, " {\n", blocks + tail);
    Regroup("\n" + "http://", host, " {\n" + (blocks + tail));
    ExpectAppend("\n" + "http://", host + (" {\n" + (blocks + tail)));
    UntilStops(host, ' ', " {\n" + (blocks + tail));
    ExpectAppend(" {\n", blocks + tail);
    HandlesRoundTrip(routes, upstreamHost, tail);
    ExpectAppend("}\n", rest);
  }

  lemma {:induction false} SitesRoundTrip(hosts: seq<string>, table: Table, upstreamHost: string)
    requires WellKeyed(table) && forall i :: 0 <= i < |hosts| ==> hosts[i] in table
    ensures HostBlocks(hosts, table, upstreamHost).Success?
    ensures ParseSites(HostBlocks(hosts, table, upstreamHost).value, upstreamHost) == Some(SitesOf(hosts, table))
  {
    if hosts != [] {
      SitesRoundTrip(hosts[1..], table, upstreamHost);
      var rest := HostBlocks(hosts[1..], table, upstreamHost).value;
      SiteRoundTrip(hosts[0], table[hosts[0]], upstreamHost, rest);
      assert (HostBlock(hosts[0], table[hosts[0]], upstreamHost) + rest) != [];
    }
  }

  /** An option line and then the end of the block. */
  lemma {:induction false} OptionsReadBack(option: string, rest: string)
    requires '\n' !in option
    ensures ParseOptions("\t" + (option + ("\n" + ("}\n\n" + rest)))) == Some(([option], rest))
  {
    var tail := "}\n\n" + rest;
    var s := "\t" + (option + ("\n" + tail));
    assert s[0] == '\t' && s[1..] == option + ("\n" + tail);
    UntilStops(option, '\n', "\n" + tail);
    ExpectAppend("\n", tail);
    ExpectAppend("}\n\n", rest);
    assert tail[0] == '}';
    assert ParseOptions(tail) == Some(([], rest));
    assert [option] + [] == [option];
  }

  /** The global block read back: one option. */
  lemma {:induction false} GlobalsReadBack(rest: string)
    ensures ParseGlobal(Globals() + rest) == Some((["auto_https off"], rest))
  {
    hide ParseOptions;
    var option := "auto_https off";
    Regroup("{\n" + ("\t" + option + "\n"), "}\n\n", rest);
    Regroup("{\n", "\t" + option + "\n", "}\n\n" + rest);
    Regroup("\t" + option, "\n", "}\n\n" + rest);
    Regroup("\t", option, "\n" + ("}\n\n" + rest));
    ExpectAppend("{\n", "\t" + (option + ("\n" + ("}\n\n" + rest))));
    OptionsReadBack(option, rest);
  }

  lemma FourHundredFour()
    ensures ParseDecimal("404") == Some(404)
  {
    assert "404"[..2] == "40" && "40"[..1] == "4";
    assert ParseDecimal("4") == Some(4);
    assert ParseDecimal("40") == Some(40);
  }

  lemma {:induction false} RespondReadsBack(text: string, digits: string, rest: string)
    requires '"' !in text && '\n' !in digits && ParseDecimal(digits).Some?
    ensures ParseRespond("\trespond \"" + text + "\" " + digits + "\n" + rest)
         == Some((text, ParseDecimal(digits).value, rest))
  {
    hide Until, ParseDecimal;
    var open, line := "\trespond \"", digits + ("\n" + rest);
    Regroup(open + text + "\" " + digits, "\n", rest);
    Regroup(open + text + "\" ", digits, "\n" + rest);
    Regroup(open + text, "\" ", line);
    Regroup(open, text, "\" " + line);
    ExpectAppend(open, text + ("\" " + line));
    UntilStops(text, '"', "\" " + line);
    ExpectAppend("\" ", line);
    UntilStops(digits, '\n', "\n" + rest);
    ExpectAppend("\n", rest);
  }

  /** The catch-all block read back: what no other block takes, on port 80, is answered 404. */
  lemma {:induction false} NotFoundReadsBack(rest: string)
    ensures ParseCatchAll(NotFound() + rest) == Some((CatchAll(":80", "zerobased: route not found", 404), rest))
  {
    hide Until, ParseRespond, ParseDecimal;
    var text := "zerobased: route not found";
    var respond := "\trespond \"" + text + "\" " + "404" + "\n";
    Regroup(":80" + " {\n" + respond, "}\n", rest);
    Regroup(":80" + " {\n", respond, "}\n" + rest);
    Regroup(":80", " {\n", respond + ("}\n" + rest));
    UntilStops(":80", ' ', " {\n" + (respond + ("}\n" + rest)));
    ExpectAppend(" {\n", respond + ("}\n" + rest));
    FourHundredFour();
    RespondReadsBack(text, "404", "}\n" + rest);
    ExpectAppend("}\n", rest);
  }

  /**
   Printing then parsing gives the one global option, the catch-all of status 404, and, in
   host order, each host with its ordered list of handles.
   */
  lemma {:induction false} RoundTrip(table: Table, upstreamHost: string)
    requires WellKeyed(table)
    ensures Render(table, upstreamHost).Success?
    ensures ParseCaddyfile(Render(table, upstreamHost).value, upstreamHost)
         == Some(Config(["auto_https off"], CatchAll(":80", "zerobased: route not found", 404),
                        SitesOf(SortedKeys(table.Keys), table)))
  {
    hide ParseGlobal, ParseCatchAll, ParseSites, Globals, NotFound;
    var hosts := SortedKeys(table.Keys);
    SitesRoundTrip(hosts, table, upstreamHost);
    var blocks := HostBlocks(hosts, table, upstreamHost).value;
    Regroup(Globals(), NotFound(), blocks);
    GlobalsReadBack(NotFound() + blocks);
    NotFoundReadsBack(blocks);
  }

  lemma {:induction false} SameSitesSameHosts(ha: seq<string>, a: Table, hb: seq<string>, b: Table)
    requires forall i :: 0 <= i < |ha| ==> ha[i] in a && ValidPublication(a[ha[i]])
    requires forall i :: 0 <= i < |hb| ==> hb[i] in b && ValidPublication(b[hb[i]])
    requires SitesOf(ha, a) == SitesOf(hb, b)
    ensures ha == hb
    ensures forall i :: 0 <= i < |ha| ==> SiteOf(ha[i], a[ha[i]]) == SiteOf(ha[i], b[ha[i]])
  {}

  lemma {:induction false} SameTextSameSites(a: Table, b: Table, upstreamHost: string)
    requires WellKeyed(a) && WellKeyed(b) && Render(a, upstreamHost) == Render(b, upstreamHost)
    ensures SitesOf(SortedKeys(a.Keys), a) == SitesOf(SortedKeys(b.Keys), b)
  {
    RoundTrip(a, upstreamHost);
    RoundTrip(b, upstreamHost);
  }

  lemma {:induction false} SameOrderSameKeys(order: seq<string>, a: set<string>, b: set<string>)
    requires Enumerates(order, a) && Enumerates(order, b)
    ensures a == b
  {}

  lemma {:induction false} SameSiteEach(order: seq<string>, a: Table, b: Table, host: string)
    requires WellKeyed(a) && WellKeyed(b) && Enumerates(order, a.Keys) && Enumerates(order, b.Keys)
    requires forall i :: 0 <= i < |order| ==> SiteOf(order[i], a[order[i]]) == SiteOf(order[i], b[order[i]])
    requires host in a && host in b
    ensures SiteOf(host, a[host]) == SiteOf(host, b[host])
  {}

  /** Tables printed to the same text publish the same hosts, each with the same ordered handles. */
  lemma {:induction false} SameTextSameRouting(a: Table, b: Table, upstreamHost: string, host: string)
    requires WellKeyed(a) && WellKeyed(b)
    requires Render(a, upstreamHost) == Render(b, upstreamHost)
    ensures host in a <==> host in b
    ensures host in a ==> SiteOf(host, a[host]) == SiteOf(host, b[host])
  {
    var ha, hb := SortedKeys(a.Keys), SortedKeys(b.Keys);
    SameTextSameSites(a, b, upstreamHost);
    SameSitesSameHosts(ha, a, hb, b);
    SameOrderSameKeys(ha, a.Keys, b.Keys);
    if host in a {
      SameSiteEach(ha, a, b, host);
    }
  }
}
