/** Which handle block serves a request, compared with longest-prefix routing. */
module Dispatch {
  import opened Text
  import opened ControlPlane
  import opened Hosts
  import opened Caddyfile
  import opened CaddyParser

  /** A matcher "x*" accepts the paths that begin with x: raw prefixes, not path segments. */
  predicate Accepts(matcher: string, path: string) {
    matcher == "" || (EndsWith(matcher, '*') && matcher[..|matcher| - 1] <= path)
  }

  /** The first block that accepts. */
  function Serve(handles: seq<Handle>, path: string): Option<nat> {
    if handles == [] then None
    else if Accepts(handles[0].matcher, path) then Some(handles[0].port)
    else Serve(handles[1..], path)
  }

  /** How a request on port 80 is answered; an empty answer is that of a site without a fitting handle. */
  datatype Reply = Proxied(port: nat) | Empty | Status(code: nat)

  /** The block of the host, if there is one. */
  function FindSite(sites: seq<Site>, host: string): Option<Site> {
    if sites == [] then None
    else if sites[0].host == host then Some(sites[0])
    else FindSite(sites[1..], host)
  }

  /** The whole file: the block of the host with its first accepting handle, or the catch-all of the port. */
  function ServeHost(config: Config, host: string, path: string): Reply {
    match FindSite(config.sites, host)
    case Some(site) => (match Serve(site.handles, path) case Some(port) => Proxied(port) case None => Empty)
    case None => if config.catchAll.address == ":80" then Status(config.catchAll.status) else Empty
  }

  /** What a declared path stands for: everything that begins with it, less one final '*'. */
  function Reach(path: string): string { DropSuffix(path, '*') }

  predicate Reaches(route: Route, path: string) { Reach(route.path) <= path }

  /** No '*' but a final one. */
  predicate FinalStar(path: string) { '*' !in Reach(path) }

  predicate FinalStars(routes: seq<Route>) {
    forall r :: r in routes ==> FinalStar(r.path)
  }

  predicate Routable(routes: seq<Route>) {
    FinalStars(routes) && forall i :: 0 <= i < |routes| ==> ValidRoute(routes[i])
  }

  predicate DistinctPaths(routes: seq<Route>) {
    forall i, j :: 0 <= i < j < |routes| ==> routes[i].path != routes[j].path
  }

  predicate IsRequest(path: string) { path != "" && path[0] == '/' }

  lemma HandleAcceptsPrefix(route: Route, path: string)
    requires ValidRoute(route) && FinalStar(route.path) && IsRequest(path)
    ensures Accepts(HandleOf(route).matcher, path) <==> Reaches(route, path)
  {
    if !EndsWith(route.path, '*') && route.path != "/" {
      assert HandleOf(route).matcher == route.path + "*";
    }
  }

  /** The route whose block is the first that accepts. */
  function Served(routes: seq<Route>, path: string): Option<Route> {
    if routes == [] then None
    else if Reaches(routes[0], path) then Some(routes[0])
    else Served(routes[1..], path)
  }

  lemma {:induction false} ServeIsServed(routes: seq<Route>, path: string)
    requires Routable(routes) && IsRequest(path)
    ensures Serve(HandlesOf(routes), path)
         == match Served(routes, path) case None => None case Some(route) => Some(route.port)
  {
    if routes != [] {
      assert routes[0] in routes;
      HandleAcceptsPrefix(routes[0], path);
      assert HandlesOf(routes)[1..] == HandlesOf(routes[1..]);
      ServeIsServed(routes[1..], path);
    }
  }

  lemma {:induction false} ServedIsFirst(routes: seq<Route>, path: string) returns (s: nat)
    ensures match Served(routes, path)
      case None => forall r :: r in routes ==> !Reaches(r, path)
      case Some(route) =>
        && s < |routes| && routes[s] == route && Reaches(route, path)
        && forall j :: 0 <= j < s ==> !Reaches(routes[j], path)
  {
    s := 0;
    if routes != [] && !Reaches(routes[0], path) {
      var t := ServedIsFirst(routes[1..], path);
      assert forall r :: r in routes ==> r == routes[0] || r in routes[1..];
      s := t + 1;
    }
  }

  lemma {:induction false} SortKeepsRoutable(routes: seq<Route>)
    requires Routable(routes)
    ensures Routable(SortByLength(routes))
  {
    SortMembers(routes);
    SortKeepsValid(routes);
  }

  // Which request is answered by a longest prefix ---------------------------------

  predicate Declared(routes: seq<Route>, path: string) {
    exists r :: r in routes && r.path == path
  }

  /**
   A declared path with a final '*' and one that has as many bytes, does not end in '*' and
   is reached by it: "p*" and "pc" for one ASCII character c. There is no "pc*" beside them.
   */
  predicate Conflict(routes: seq<Route>, star: string, plain: string) {
    && Declared(routes, star) && Declared(routes, plain) && !Declared(routes, plain + "*")
    && EndsWith(star, '*') && !EndsWith(plain, '*')
    && Size(star) == Size(plain) && Reach(star) <= plain
  }

  /** The i-th route declares `a`, and none up to it declares `b`. */
  predicate BeforeAt(routes: seq<Route>, a: string, b: string, i: nat) {
    i < |routes| && routes[i].path == a && forall u :: 0 <= u <= i ==> routes[u].path != b
  }

  /** `a` is declared, and not after `b`. */
  ghost predicate DeclaredBefore(routes: seq<Route>, a: string, b: string) {
    exists i: nat :: BeforeAt(routes, a, b, i)
  }

  /** The shorter prefix is rendered first. */
  ghost predicate Hides(routes: seq<Route>, star: string, plain: string) {
    Conflict(routes, star, plain) && DeclaredBefore(routes, star, plain)
  }

  /** `reach` is a prefix of the request that no declared one exceeds. */
  predicate NoneLonger(routes: seq<Route>, path: string, reach: string) {
    reach <= path && forall r :: r in routes && Reaches(r, path) ==> |Reach(r.path)| <= |reach|
  }

  /** The longest declared prefix of the request is hidden by a shorter one. */
  ghost predicate Hidden(routes: seq<Route>, path: string) {
    exists star, plain :: Hides(routes, star, plain) && NoneLonger(routes, path, plain)
  }

  lemma BeforeAtCons(route: Route, routes: seq<Route>, a: string, b: string, i: nat)
    ensures BeforeAt([route] + routes, a, b, i + 1) <==> route.path != b && BeforeAt(routes, a, b, i)
    ensures BeforeAt([route] + routes, a, b, 0) <==> route.path != b && route.path == a
  {
    var all := [route] + routes;
    assert all[0] == route && forall u :: 0 <= u < |routes| ==> all[u + 1] == routes[u];
    if BeforeAt(all, a, b, i + 1) {
      assert forall u :: 0 <= u <= i ==> routes[u] == all[u + 1];
    }
    if route.path != b && BeforeAt(routes, a, b, i) {
      assert forall u :: 0 < u <= i + 1 ==> all[u] == routes[u - 1];
    }
  }

  lemma {:induction false} BeforeCons(route: Route, routes: seq<Route>, a: string, b: string)
    ensures DeclaredBefore([route] + routes, a, b) <==>
      route.path != b && (route.path == a || DeclaredBefore(routes, a, b))
  {
    BeforeAtCons(route, routes, a, b, 0);
    if i: nat :| BeforeAt([route] + routes, a, b, i) {
      if i > 0 { BeforeAtCons(route, routes, a, b, i - 1); }
    }
    if i: nat :| BeforeAt(routes, a, b, i) {
      BeforeAtCons(route, routes, a, b, i);
    }
  }

  /** The order of two paths of one length can be read off the routes of that length. */
  lemma {:induction false} BeforeAmongEqualLength(routes: seq<Route>, a: string, b: string)
    requires Size(a) == Size(b)
    ensures DeclaredBefore(routes, a, b) <==> DeclaredBefore(OfLength(routes, Size(a)), a, b)
  {
    if routes != [] {
      var first, rest := routes[0], routes[1..];
      assert routes == [first] + rest;
      BeforeCons(first, rest, a, b);
      BeforeAmongEqualLength(rest, a, b);
      if Size(first.path) == Size(a) {
        assert OfLength(routes, Size(a)) == [first] + OfLength(rest, Size(a));
        BeforeCons(first, OfLength(rest, Size(a)), a, b);
      } else {
        assert OfLength(routes, Size(a)) == OfLength(rest, Size(a));
      }
    }
  }

  /** Sorting keeps which paths hide which. */
  lemma {:induction false} SortKeepsHides(routes: seq<Route>, star: string, plain: string)
    ensures Hides(SortByLength(routes), star, plain) <==> Hides(routes, star, plain)
  {
    SortMembers(routes);
    if Size(star) == Size(plain) {
      SortIsStable(routes, Size(star));
      BeforeAmongEqualLength(routes, star, plain);
      BeforeAmongEqualLength(SortByLength(routes), star, plain);
    }
  }

  lemma ReachOf(path: string, reach: string)
    ensures Reach(path) == reach ==> path == reach || path == reach + "*"
    ensures Reach(reach + "*") == reach
  {
    assert EndsWith(path, '*') ==> path == path[..|path| - 1] + "*";
  }

  lemma SameReach(a: string, b: string, path: string)
    requires a <= path && b <= path && |a| == |b|
    ensures a == b
  {
    assert a == path[..|a|] && b == path[..|b|];
  }

  /** Of two prefixes of a request the longer one has more bytes. */
  lemma LongerIsLarger(a: string, b: string, path: string)
    requires a <= path && b <= path && |a| < |b|
    ensures a <= b && Size(a) < Size(b)
  {
    assert a == path[..|a|] == b[..|a|];
    SizeOfPrefix(a, b);
  }

  lemma SizeOfReach(path: string)
    ensures Size(path) == Size(Reach(path)) + if EndsWith(path, '*') then 1 else 0
  {
    if EndsWith(path, '*') {
      assert path == Reach(path) + "*";
      SizeOfConcat(Reach(path), "*");
      assert Size("*") == 1 + Size("*"[1..]);
    }
  }

  /** Nothing rendered after the first accepting route is longer, in bytes. */
  lemma {:induction false} FirstIsLongestSpelling(sorted: seq<Route>, path: string, s: nat, other: Route)
    requires LongestFirst(sorted) && s < |sorted| && other in sorted && Reaches(other, path)
    requires forall j :: 0 <= j < s ==> !Reaches(sorted[j], path)
    ensures Size(other.path) <= Size(sorted[s].path)
  {
    var t :| 0 <= t < |sorted| && sorted[t] == other;
  }

  /** A route that would answer better than the first accepting one is hidden by it. */
  lemma {:induction false} WorseIsHidden(sorted: seq<Route>, path: string, s: nat, better: Route)
    requires LongestFirst(sorted) && s < |sorted| && Reaches(sorted[s], path)
    requires forall j :: 0 <= j < s ==> !Reaches(sorted[j], path)
    requires better in sorted && Reaches(better, path) && |Reach(better.path)| > |Reach(sorted[s].path)|
    ensures Hides(sorted, sorted[s].path, better.path) && NoneLonger(sorted, path, better.path)
  {
    var star, plain := sorted[s].path, better.path;
    FirstIsLongestSpelling(sorted, path, s, better);
    LongerIsLarger(Reach(star), Reach(plain), path);
    SizeOfReach(star);
    SizeOfReach(plain);
    assert Size(star) == Size(plain) && EndsWith(star, '*') && Reach(plain) == plain;
    assert sorted[s] in sorted;
    assert BeforeAt(sorted, star, plain, s);
    SizeOfReach(plain + "*");
    ReachOf(star, plain);
    forall r | r in sorted && Reaches(r, path)
      ensures |Reach(r.path)| <= |plain| && r.path != plain + "*"
    {
      FirstIsLongestSpelling(sorted, path, s, r);
      SizeOfReach(r.path);
      if |Reach(r.path)| > |plain| { LongerIsLarger(plain, Reach(r.path), path); }
    }
  }

  /** Where a path is hidden, the first accepting route has a shorter prefix. */
  lemma {:induction false} HiddenIsWorse(sorted: seq<Route>, path: string, s: nat, star: string, plain: string)
    requires s < |sorted| && Reaches(sorted[s], path)
    requires forall j :: 0 <= j < s ==> !Reaches(sorted[j], path)
    requires Hides(sorted, star, plain) && NoneLonger(sorted, path, plain)
    ensures |Reach(sorted[s].path)| < |plain|
  {
    var i: nat :| BeforeAt(sorted, star, plain, i);
    assert Reach(star) <= plain <= path;
    assert s <= i;
    assert sorted[s] in sorted;
    ReachOf(sorted[s].path, plain);
    if |Reach(sorted[s].path)| == |plain| {
      SameReach(Reach(sorted[s].path), plain, path);
    }
  }

  /** The answering route has a prefix at least as long as every route that accepts. */
  ghost predicate AnsweredByLongest(routes: seq<Route>, path: string) {
    match Served(SortByLength(routes), path)
    case None => forall r :: r in routes ==> !Reaches(r, path)
    case Some(route) => NoneLonger(routes, path, Reach(route.path))
  }

  lemma {:induction false} SortKeepsHidden(routes: seq<Route>, path: string)
    ensures Hidden(SortByLength(routes), path) <==> Hidden(routes, path)
  {
    SortMembers(routes);
    forall star, plain ensures Hides(SortByLength(routes), star, plain) <==> Hides(routes, star, plain) {
      SortKeepsHides(routes, star, plain);
    }
  }

  /** For each request: it is answered by a longest prefix if and only if none is hidden from it. */
  lemma {:induction false} LongestUnlessHidden(routes: seq<Route>, path: string)
    ensures AnsweredByLongest(routes, path) <==> !Hidden(routes, path)
  {
    var sorted := SortByLength(routes);
    SortMembers(routes);
    SortKeepsHidden(routes, path);
    var s := ServedIsFirst(sorted, path);
    if Hidden(sorted, path) {
      var star, plain :| Hides(sorted, star, plain) && NoneLonger(sorted, path, plain);
      var r :| r in sorted && r.path == plain;
      assert r in routes && Reach(r.path) == plain;
      HiddenIsWorse(sorted, path, s, star, plain);
    } else if !AnsweredByLongest(routes, path) {
      var route := Served(sorted, path).value;
      var better :| better in routes && Reaches(better, path) && |Reach(better.path)| > |Reach(route.path)|;
      WorseIsHidden(sorted, path, s, better);
    }
  }

  /**
   The exact lists for which routing is by longest prefix: every request is answered by a
   longest prefix if and only if no path "p*" is declared before a "pc" without a "pc*".
   */
  lemma {:induction false} LongestPrefixExactly(routes: seq<Route>)
    requires Routable(routes)
    ensures (forall path :: IsRequest(path) ==> AnsweredByLongest(routes, path))
      <==> forall star, plain :: !Hides(routes, star, plain)
  {
    forall path ensures AnsweredByLongest(routes, path) <==> !Hidden(routes, path) {
      LongestUnlessHidden(routes, path);
    }
    if star, plain :| Hides(routes, star, plain) {
      var r :| r in routes && r.path == plain;
      assert IsRequest(plain);
      assert NoneLonger(routes, plain, plain);
      assert Hidden(routes, plain);
    }
  }

  // The answer in terms of the declared routes ---------------------------------------

  /** The k-th route is at least as good as the j-th. */
  predicate Beats(routes: seq<Route>, k: nat, j: nat)
    requires k < |routes| && j < |routes|
  {
    var better, other := routes[k].path, routes[j].path;
    || |Reach(other)| < |Reach(better)|
    || (Reach(other) == Reach(better) && (|other| < |better| || (other == better && k <= j)))
  }

  /**
   `k` is the declared route that longest-prefix routing chooses: a longest prefix, spelled
   with a final '*' before one spelled without, and the earliest of several with one spelling.
   */
  ghost predicate LongestPrefix(routes: seq<Route>, path: string, k: nat) {
    && k < |routes| && Reaches(routes[k], path)
    && forall j: nat :: j < |routes| && Reaches(routes[j], path) ==> Beats(routes, k, j)
  }

  lemma {:induction false} EarliestOccurrence(routes: seq<Route>, path: string, k: nat)
    requires k < |routes| && routes[k].path == path
    ensures exists i: nat :: i < |routes| && routes[i].path == path && forall j :: 0 <= j < i ==> routes[j].path != path
  {
    if j: nat :| j < k && routes[j].path == path {
      EarliestOccurrence(routes, path, j);
    }
  }

  function WithPath(routes: seq<Route>, path: string): seq<Route> {
    if routes == [] then []
    else (if routes[0].path == path then [routes[0]] else []) + WithPath(routes[1..], path)
  }

  lemma {:induction false} WithPathFirst(routes: seq<Route>, path: string, k: nat)
    requires k < |routes| && routes[k].path == path && forall j :: 0 <= j < k ==> routes[j].path != path
    ensures WithPath(routes, path) != [] && WithPath(routes, path)[0] == routes[k]
  {
    if k > 0 {
      WithPathFirst(routes[1..], path, k - 1);
    }
  }

  lemma {:induction false} WithPathOfLength(routes: seq<Route>, path: string)
    ensures WithPath(routes, path) == WithPath(OfLength(routes, Size(path)), path)
  {
    if routes != [] {
      WithPathOfLength(routes[1..], path);
      if Size(routes[0].path) == Size(path) {
        assert OfLength(routes, Size(path)) == [routes[0]] + OfLength(routes[1..], Size(path));
      } else {
        assert OfLength(routes, Size(path)) == OfLength(routes[1..], Size(path));
      }
    }
  }

  /** The first accepting route of the sorted list is the earliest declared one with its path. */
  lemma {:induction false} ServedIsEarliest(routes: seq<Route>, path: string, s: nat) returns (k: nat)
    requires s < |SortByLength(routes)|
    requires forall j :: 0 <= j < s ==> !Reaches(SortByLength(routes)[j], path)
    requires Reaches(SortByLength(routes)[s], path)
    ensures k < |routes| && routes[k] == SortByLength(routes)[s]
    ensures forall j :: 0 <= j < k ==> routes[j].path != routes[k].path
  {
    var sorted := SortByLength(routes);
    SortMembers(routes);
    var winner := sorted[s];
    assert winner in routes;
    var at: nat :| at < |routes| && routes[at] == winner;
    EarliestOccurrence(routes, winner.path, at);
    k :| k < |routes| && routes[k].path == winner.path && forall j :: 0 <= j < k ==> routes[j].path != winner.path;
    SortIsStable(routes, Size(winner.path));
    WithPathOfLength(routes, winner.path);
    WithPathOfLength(sorted, winner.path);
    WithPathFirst(routes, winner.path, k);
    WithPathFirst(sorted, winner.path, s);
  }

  /** The first accepting route, when its prefix is a longest one, is preferred to each other. */
  lemma {:induction false} LongestBeats(routes: seq<Route>, path: string, k: nat, j: nat)
    requires k < |routes| && j < |routes| && Reaches(routes[k], path) && Reaches(routes[j], path)
    requires |Reach(routes[j].path)| <= |Reach(routes[k].path)| && Size(routes[j].path) <= Size(routes[k].path)
    requires forall i :: 0 <= i < k ==> routes[i].path != routes[k].path
    ensures Beats(routes, k, j)
  {
    var better, other := routes[k].path, routes[j].path;
    ReachOf(better, Reach(better));
    ReachOf(other, Reach(other));
    SizeOfReach(better);
    SizeOfReach(other);
    if |Reach(other)| == |Reach(better)| {
      SameReach(Reach(other), Reach(better), path);
    }
  }

  /** So it is the one chosen. */
  lemma {:induction false} LongestIsChosen(routes: seq<Route>, path: string, s: nat, k: nat)
    requires s < |SortByLength(routes)| && k < |routes| && routes[k] == SortByLength(routes)[s]
    requires forall j :: 0 <= j < s ==> !Reaches(SortByLength(routes)[j], path)
    requires Reaches(routes[k], path) && NoneLonger(routes, path, Reach(routes[k].path))
    requires forall j :: 0 <= j < k ==> routes[j].path != routes[k].path
    ensures LongestPrefix(routes, path, k)
  {
    SortMembers(routes);
    forall j: nat | j < |routes| && Reaches(routes[j], path) ensures Beats(routes, k, j) {
      assert routes[j] in routes;
      FirstIsLongestSpelling(SortByLength(routes), path, s, routes[j]);
      LongestBeats(routes, path, k, j);
    }
  }

  /**
   What the rendered order does with a request, for every list of routes: it is answered by
   a declared route that reaches it, by nobody exactly when there is none, and by the
   choice of longest-prefix routing if and only if no longer prefix is hidden.
   */
  lemma {:induction false} RenderedOrderIsLongestPrefix(routes: seq<Route>, path: string)
    requires Routable(routes) && IsRequest(path)
    ensures Routable(SortByLength(routes))
    ensures match Serve(HandlesOf(SortByLength(routes)), path)
      case None => !SomePrefix(routes, path)
      case Some(port) => exists k: nat ::
        && k < |routes| && Reaches(routes[k], path) && routes[k].port == port
        && (LongestPrefix(routes, path, k) <==> !Hidden(routes, path))
  {
    var sorted := SortByLength(routes);
    SortKeepsRoutable(routes);
    SortMembers(routes);
    ServeIsServed(sorted, path);
    LongestUnlessHidden(routes, path);
    var s := ServedIsFirst(sorted, path);
    if Served(sorted, path).Some? {
      var k := ServedIsEarliest(routes, path, s);
      if !Hidden(routes, path) { LongestIsChosen(routes, path, s, k); }
      assert LongestPrefix(routes, path, k) ==> NoneLonger(routes, path, Reach(routes[k].path)) by {
        forall r | LongestPrefix(routes, path, k) && r in routes && Reaches(r, path)
          ensures |Reach(r.path)| <= |Reach(routes[k].path)|
        {
          var j: nat :| j < |routes| && routes[j] == r;
          assert Beats(routes, k, j);
        }
      }
    }
  }

  /** The catch-all "/" comes after every other path. */
  lemma {:induction false} CatchAllIsLast(routes: seq<Route>, i: nat, j: nat)
    requires forall k :: 0 <= k < |routes| ==> ValidRoute(routes[k])
    requires i < |SortByLength(routes)| && j < |SortByLength(routes)|
    requires SortByLength(routes)[i].path == "/" && SortByLength(routes)[j].path != "/"
    ensures j < i
  {
    SortKeepsValid(routes);
    SortMembers(routes);
    assert Size(SortByLength(routes)[j].path) >= 2;
    AsciiSize("/");
  }

  ghost predicate SomePrefix(routes: seq<Route>, path: string) {
    exists r :: r in routes && Reaches(r, path)
  }

  // Permutations of the declaration --------------------------------------------------

  ghost predicate OrderIsIrrelevant(routes: seq<Route>) {
    forall other, path :: multiset(other) == multiset(routes) && IsRequest(path) ==>
      Served(SortByLength(other), path) == Served(SortByLength(routes), path)
  }

  /** A longest prefix of the request in its longest spelling. */
  ghost predicate IsAnswer(routes: seq<Route>, path: string, route: Route) {
    && route in routes && Reaches(route, path) && NoneLonger(routes, path, Reach(route.path))
    && forall r :: r in routes && Reaches(r, path) ==> Size(r.path) <= Size(route.path)
  }

  lemma {:induction false} ServedIsAnswer(routes: seq<Route>, path: string)
    requires !Hidden(routes, path)
    ensures match Served(SortByLength(routes), path)
      case None => !SomePrefix(routes, path)
      case Some(route) => IsAnswer(routes, path, route)
  {
    var sorted := SortByLength(routes);
    SortMembers(routes);
    LongestUnlessHidden(routes, path);
    var s := ServedIsFirst(sorted, path);
    forall r | Served(sorted, path).Some? && r in routes && Reaches(r, path)
      ensures Size(r.path) <= Size(sorted[s].path)
    {
      FirstIsLongestSpelling(sorted, path, s, r);
    }
  }

  lemma {:induction false} OneAnswer(routes: seq<Route>, path: string, a: Route, b: Route)
    requires DistinctPaths(routes) && IsAnswer(routes, path, a) && IsAnswer(routes, path, b)
    ensures a == b
  {
    SameReach(Reach(a.path), Reach(b.path), path);
    ReachOf(a.path, Reach(a.path));
    ReachOf(b.path, Reach(b.path));
    SizeOfReach(a.path);
    SizeOfReach(b.path);
    var i :| 0 <= i < |routes| && routes[i] == a;
    var j :| 0 <= j < |routes| && routes[j] == b;
    assert a.path == b.path;
  }

  lemma {:induction false} SameAnswer(a: seq<Route>, b: seq<Route>, path: string)
    requires DistinctPaths(a) && multiset(a) == multiset(b)
    requires !Hidden(a, path) && !Hidden(b, path)
    ensures Served(SortByLength(a), path) == Served(SortByLength(b), path)
  {
    SameMembers(a, b);
    ServedIsAnswer(a, path);
    ServedIsAnswer(b, path);
    if Served(SortByLength(a), path).Some? {
      OneAnswer(a, path, Served(SortByLength(a), path).value, Served(SortByLength(b), path).value);
    }
  }

  /** The k-th route moved to the head of the list. */
  function Promoted(routes: seq<Route>, k: nat): seq<Route>
    requires k < |routes|
  {
    [routes[k]] + (routes[..k] + routes[k + 1..])
  }

  lemma PromotedIsPermutation(routes: seq<Route>, k: nat)
    requires k < |routes|
    ensures multiset(Promoted(routes, k)) == multiset(routes)
  {
    assert routes == routes[..k] + ([routes[k]] + routes[k + 1..]);
  }

  lemma {:induction false} ConflictOfMembers(a: seq<Route>, b: seq<Route>, star: string, plain: string)
    requires forall r :: r in a <==> r in b
    ensures Conflict(a, star, plain) ==> Conflict(b, star, plain)
  {}

  /** Of two conflicting paths the one declared first answers the request for the longer. */
  lemma {:induction false} StarDeclaredFirst(routes: seq<Route>, star: string, plain: string)
    requires Conflict(routes, star, plain) && routes[0].path == star
    ensures !AnsweredByLongest(routes, plain)
  {
    assert BeforeAt(routes, star, plain, 0);
    assert Hides(routes, star, plain);
    assert NoneLonger(routes, plain, plain);
    LongestUnlessHidden(routes, plain);
  }

  lemma HeadIsFirst(routes: seq<Route>, a: string)
    requires routes != []
    ensures !DeclaredBefore(routes, a, routes[0].path)
  {}

  lemma {:induction false} PlainDeclaredFirst(routes: seq<Route>, star: string, plain: string)
    requires Conflict(routes, star, plain) && routes[0].path == plain
    ensures AnsweredByLongest(routes, plain)
  {
    LongestUnlessHidden(routes, plain);
    var r :| r in routes && r.path == plain;
    forall a, b | NoneLonger(routes, plain, b) ensures !Hides(routes, a, b) {
      assert Reaches(r, plain);
      assert b == plain;
      HeadIsFirst(routes, a);
    }
  }

  lemma IrrelevantAt(routes: seq<Route>, other: seq<Route>, path: string)
    requires OrderIsIrrelevant(routes) && multiset(other) == multiset(routes) && IsRequest(path)
    ensures Served(SortByLength(other), path) == Served(SortByLength(routes), path)
  {}

  lemma {:induction false} SameServedSameVerdict(a: seq<Route>, b: seq<Route>, path: string)
    requires multiset(a) == multiset(b) && Served(SortByLength(a), path) == Served(SortByLength(b), path)
    ensures AnsweredByLongest(a, path) <==> AnsweredByLongest(b, path)
  {
    SameMembers(a, b);
  }

  lemma {:induction false} ConflictWhenPromoted(routes: seq<Route>, k: nat, star: string, plain: string)
    requires Conflict(routes, star, plain) && k < |routes|
    ensures Conflict(Promoted(routes, k), star, plain) && multiset(Promoted(routes, k)) == multiset(routes)
  {
    PromotedIsPermutation(routes, k);
    SameMembers(Promoted(routes, k), routes);
    ConflictOfMembers(routes, Promoted(routes, k), star, plain);
  }

  /** So the two declarations answer differently, and no third list agrees with both. */
  lemma {:induction false} ConflictMakesOrderMatter(routes: seq<Route>, i: nat, j: nat)
    requires i < |routes| && j < |routes| && Conflict(routes, routes[i].path, routes[j].path)
    requires IsRequest(routes[j].path)
    ensures !OrderIsIrrelevant(routes)
  {
    var star, plain := routes[i].path, routes[j].path;
    var a, b := Promoted(routes, i), Promoted(routes, j);
    ConflictWhenPromoted(routes, i, star, plain);
    ConflictWhenPromoted(routes, j, star, plain);
    StarDeclaredFirst(a, star, plain);
    PlainDeclaredFirst(b, star, plain);
    if OrderIsIrrelevant(routes) {
      IrrelevantAt(routes, a, plain);
      IrrelevantAt(routes, b, plain);
      SameServedSameVerdict(a, b, plain);
    }
  }

  lemma {:induction false} NoConflictNoneHidden(routes: seq<Route>, other: seq<Route>, path: string)
    requires multiset(other) == multiset(routes)
    requires forall star, plain :: !Conflict(routes, star, plain)
    ensures !Hidden(other, path)
  {
    SameMembers(other, routes);
    forall star, plain ensures !Hides(other, star, plain) {
      ConflictOfMembers(other, routes, star, plain);
    }
  }

  /**
   With every path declared once, no permutation of the routes changes who answers any
   request, if and only if no two declared paths conflict.
   */
  lemma {:induction false} DeclarationOrderIsIrrelevantExactly(routes: seq<Route>)
    requires Routable(routes) && DistinctPaths(routes)
    ensures OrderIsIrrelevant(routes) <==> forall star, plain :: !Conflict(routes, star, plain)
  {
    if star, plain :| Conflict(routes, star, plain) {
      var i: nat :| i < |routes| && routes[i].path == star;
      var j: nat :| j < |routes| && routes[j].path == plain;
      ConflictMakesOrderMatter(routes, i, j);
    } else {
      forall other, path | multiset(other) == multiset(routes)
        ensures Served(SortByLength(other), path) == Served(SortByLength(routes), path)
      {
        NoConflictNoneHidden(routes, other, path);
        NoConflictNoneHidden(routes, routes, path);
        SameAnswer(routes, other, path);
      }
    }
  }

  /** Of a conflicting pair the shorter prefix answers when it is declared first. */
  lemma {:induction false} PairHides(a: Route, b: Route)
    requires EndsWith(a.path, '*') && !EndsWith(b.path, '*') && Size(a.path) == Size(b.path) && Reach(a.path) <= b.path
    ensures Hides([a, b], a.path, b.path) && Served(SortByLength([a, b]), b.path) == Some(a)
  {
    var routes := [a, b];
    assert a in routes && b in routes;
    assert BeforeAt(routes, a.path, b.path, 0);
    SizeOfReach(b.path + "*");
    ReachOf(b.path, b.path);
    PairSorted(a, b);
  }

  lemma {:induction false} PairSorted(a: Route, b: Route)
    requires Size(a.path) >= Size(b.path)
    ensures SortByLength([a, b]) == [a, b]
  {
    assert [a, b][1..] == [b] && [b][1..] == [];
    assert SortByLength([b]) == InsertRoute(b, []) == [b];
  }

  const STAR := Route("/a*", "p", 1)
  const PLAIN := Route("/ab", "q", 2)

  lemma ConcretePair()
    ensures Routable([STAR, PLAIN]) && Size(STAR.path) == Size(PLAIN.path)
  {
    AsciiSize(STAR.path);
    AsciiSize(PLAIN.path);
    assert Reach(STAR.path) == STAR.path[..2] && '*' !in STAR.path[..2];
  }

  /** A concrete pair: "/a*" declared before "/ab" answers for it. */
  lemma StarPathsCanHideLongerPrefixes()
    ensures Routable([STAR, PLAIN]) && Hides([STAR, PLAIN], "/a*", "/ab")
    ensures Served(SortByLength([STAR, PLAIN]), "/ab") == Some(STAR)
  {
    ConcretePair();
    assert STAR.path[..2] == PLAIN.path[..2];
    PairHides(STAR, PLAIN);
  }

  /**
   A last character of two bytes or more is another matter: then the longer prefix is rendered
   first, in whatever order the two are declared, and there is no conflict.
   */
  lemma {:induction false} WiderCharactersAreNotHidden(prefix: string, c: char, star: Route, plain: Route)
    requires star.path == prefix + "*" && plain.path == prefix + [c] && CharSize(c) >= 2
    ensures SortByLength([star, plain]) == SortByLength([plain, star]) == [plain, star]
    ensures !Conflict([star, plain], star.path, plain.path)
  {
    AsciiSize("*");
    SizeOfConcat(prefix, "*");
    SizeOfConcat(prefix, [c]);
    assert Size([c]) == CharSize(c) + Size([c][1..]);
    PairSorted(plain, star);
    assert [star, plain][1..] == [plain] && [plain][1..] == [];
    assert SortByLength([plain]) == InsertRoute(plain, []) == [plain];
    assert InsertRoute(star, [plain]) == [plain] + InsertRoute(star, [plain][1..]) == [plain, star];
  }
}
