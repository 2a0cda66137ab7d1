/**
 From a browser's request to the claim that serves it: the configuration that Caddy has
 loaded, read back as text, against the claim table of the daemon.
 */
module EndToEnd {
  import opened Text
  import opened ControlPlane
  import opened Hosts
  import opened Caddyfile
  import opened CaddyParser
  import opened Dispatch
  import opened RouteRuntime
  import opened Daemon
  import opened Protocol
  import opened Agreement

  /** What the loaded text does with a request; None if it is no such text at all. */
  function Answer(text: string, upstreamHost: string, host: string, path: string): Option<Reply> {
    match ParseCaddyfile(text, upstreamHost)
    case None => None
    case Some(config) => Some(ServeHost(config, host, path))
  }

  lemma {:induction false} FindsItsSite(hosts: seq<string>, table: Table, host: string)
    requires forall i :: 0 <= i < |hosts| ==> hosts[i] in table && ValidPublication(table[hosts[i]])
    ensures host in hosts ==>
      ValidPublication(table[host]) && FindSite(SitesOf(hosts, table), host) == Some(SiteOf(host, table[host]))
    ensures host !in hosts ==> FindSite(SitesOf(hosts, table), host) == None
  {
    if hosts != [] {
      FindsItsSite(hosts[1..], table, host);
      assert SitesOf(hosts, table)[1..] == SitesOf(hosts[1..], table);
      assert hosts == [hosts[0]] + hosts[1..];
    }
  }

  /** A runtime that has its committed table loaded answers from that table, and 404 for every other host. */
  lemma {:induction false} CommittedTableAnswers(runtime: Runtime, host: string, path: string)
    requires WellKeyed(runtime.publications)
    requires Render(runtime.publications, runtime.upstreamHost) == Success(runtime.loaded)
    ensures host in runtime.publications ==>
      ValidPublication(runtime.publications[host])
      && Answer(runtime.loaded, runtime.upstreamHost, host, path)
         == Some(match Serve(SiteOf(host, runtime.publications[host]).handles, path)
                 case Some(port) => Proxied(port)
                 case None => Empty)
    ensures host !in runtime.publications ==>
      Answer(runtime.loaded, runtime.upstreamHost, host, path) == Some(Status(404))
  {
    RoundTrip(runtime.publications, runtime.upstreamHost);
    var hosts := SortedKeys(runtime.publications.Keys);
    FindsItsSite(hosts, runtime.publications, host);
    assert host in runtime.publications.Keys <==> host in hosts;
  }

  /**
   In every state of every schedule, whatever writes, reloads and cancellations failed: the
   committed table is keyed by its own valid hosts, Caddy has its rendering loaded, the file
   is the same text if the last write succeeded and no operation is under way, and the table
   that an operation under way tries can be rendered too.
   */
  lemma {:induction false} LoadedConfigIsTheCommittedTable(s0: State, events: seq<Event>)
    requires Initial(s0) && |events| <= MAX_INT64
    ensures var s := After(s0, events);
      && WellKeyed(s.runtime.publications)
      && Render(s.runtime.publications, s.runtime.upstreamHost) == Success(s.runtime.loaded)
      && (s.runtimeLock.None? && s.runtime.wrote ==> s.runtime.file == s.runtime.loaded)
      && (forall h: nat :: h < |s.handlers| && HoldsRuntime(s.handlers[h]) ==>
            Render(s.handlers[h].operation.next, s.runtime.upstreamHost).Success?)
  {
    var s := After(s0, events);
    ReachableInv(s0, events);
    forall h: nat | h < |s.handlers| && HoldsRuntime(s.handlers[h])
      ensures Render(s.handlers[h].operation.next, s.runtime.upstreamHost).Success?
    {
      assert OperationOk(s, s.handlers[h]);
      WellKeyedRenders(s.handlers[h].operation.next, s.runtime.upstreamHost);
    }
    if s.runtimeLock.Some? {
      assert OperationOk(s, s.handlers[s.runtimeLock.value]);
    }
  }

  /**
   `port` belongs to a declared prefix of `path` in the live, published claim of `host`: the
   one that longest-prefix routing chooses, exactly unless a longer one is hidden.
   */
  ghost predicate ClaimServes(s: State, host: string, path: string, port: nat) {
    && Visible(s, host)
    && var routes := s.server.claims[host].claim.routes;
      exists k: nat ::
        && k < |routes| && Reaches(routes[k], path) && routes[k].port == port
        && (LongestPrefix(routes, path, k) <==> !Hidden(routes, path))
  }

  /**
   In every state of every schedule, also while the runtime works, a request is answered
   404 if and only if no claim of its host is visible. Otherwise it is answered from the
   claim that owns its host, on the port of the longest declared prefix of its path exactly
   when none is hidden, and it gets an empty answer if and only if no prefix is declared.
   */
  lemma {:induction false} RequestsReachTheOwningClaim(s0: State, events: seq<Event>, host: string, path: string)
    requires Initial(s0) && |events| <= MAX_INT64 && SafeEvents(events) && IsRequest(path)
    requires var s := After(s0, events); host in s.server.claims ==> FinalStars(s.server.claims[host].claim.routes)
    ensures var s := After(s0, events);
      match Answer(s.runtime.loaded, s.runtime.upstreamHost, host, path)
      case None => false
      case Some(Proxied(port)) => ClaimServes(s, host, path, port)
      case Some(Empty) => Visible(s, host) && !SomePrefix(s.server.claims[host].claim.routes, path)
      case Some(Status(code)) => code == 404 && !Visible(s, host)
  {
    var s := After(s0, events);
    ReachableAgreeInv(s0, events);
    AgreementAtHost(s, host);
    LoadedConfigIsTheCommittedTable(s0, events);
    CommittedTableAnswers(s.runtime, host, path);
    if host in s.runtime.publications {
      assert RouteAgrees(s, host);
      var routes := s.server.claims[host].claim.routes;
      assert s.runtime.publications[host].routes == routes;
      RenderedOrderIsLongestPrefix(routes, path);
    }
  }
}
