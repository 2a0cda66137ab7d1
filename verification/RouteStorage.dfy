/**
 Route lists as the route runtime stores them: publications are copied by value, but their
 routes live in shared arrays unless they are copied too. The other modules hold routes as
 values; this one shows that the source's copies make that right.
 */
module RouteStorage {
  import opened Text
  import opened ControlPlane
  import opened Caddyfile
  import opened RouteRuntime

  datatype Stored = Stored(
    name: string, host: string, projectDir: string, sessionId: string,
    routes: array<Route>, claimToken: string, generation: int)

  type StoredTable = map<string, Stored>

  ghost function Value(stored: Stored): Publication
    reads stored.routes
  {
    Publication(stored.name, stored.host, stored.projectDir, stored.sessionId, stored.routes[..],
                stored.claimToken, stored.generation)
  }

  ghost function Storage(table: StoredTable): set<array<Route>> {
    set host | host in table :: table[host].routes
  }

  /** The table that the other modules speak of. */
  ghost function Values(table: StoredTable): Table
    reads Storage(table)
  {
    map host | host in table :: Value(table[host])
  }

  lemma SameValues(a: StoredTable, b: StoredTable)
    requires a.Keys == b.Keys && forall host :: host in a ==> Value(a[host]) == Value(b[host])
    ensures Values(a) == Values(b)
  {}

  /** append([]Route(nil), routes...). */
  method CopyRoutes(routes: array<Route>) returns (copy: array<Route>)
    ensures fresh(copy) && copy[..] == routes[..]
  {
    copy := new Route[routes.Length](i requires 0 <= i < routes.Length reads routes => routes[i]);
  }

  /** One entry with route storage of its own. */
  method CopyEntry(publication: Stored) returns (copied: Stored)
    ensures fresh(copied.routes) && Value(copied) == Value(publication)
  {
    var routes := CopyRoutes(publication.routes);
    copied := publication.(routes := routes);
  }

  /** copyPublications: the same publications, with all route storage new. */
  method CopyPublications(publications: StoredTable, order: seq<string>) returns (next: StoredTable)
    requires Enumerates(order, publications.Keys)
    ensures Values(next) == Values(publications)
    ensures forall host :: host in next ==> fresh(next[host].routes)
    ensures forall a, b :: a in next && b in next && a != b ==> next[a].routes != next[b].routes
  {
    next := map[];
    for k := 0 to |order|
      invariant forall host :: host in next <==> host in order[..k]
      invariant forall host :: host in next ==> host in publications
      invariant forall host :: host in next ==>
        fresh(next[host].routes) && Value(next[host]) == Value(publications[host])
      invariant forall a, b :: a in next && b in next && a != b ==> next[a].routes != next[b].routes
    {
      assert order[..k + 1] == order[..k] + [order[k]];
      var copied := CopyEntry(publications[order[k]]);
      next := next[order[k] := copied];
    }
    assert order[..|order|] == order;
    SameValues(next, publications);
  }

  /**
   The table that Publish tries: a copy with the new entry. Nothing that is done to its route
   storage later can reach the committed table.
   */
  method NextTable(committed: StoredTable, publication: Stored, order: seq<string>) returns (next: StoredTable)
    requires Enumerates(order, committed.Keys)
    requires publication.routes !in Storage(committed)
    ensures Values(next) == WithPublication(Values(committed), Value(publication))
    ensures Storage(next) !! Storage(committed)
  {
    next := CopyPublications(committed, order);
    assert forall host :: host in next <==> host in Values(next);
    next := next[publication.host := publication];
    forall host | host in next ensures next[host].routes !in Storage(committed) {
      if host != publication.host {
        assert fresh(next[host].routes);
      }
    }
  }

  /** A route is inserted behind the leading routes with longer paths. */
  lemma {:induction false} InsertedAt(route: Route, rest: seq<Route>, d: nat)
    requires d <= |rest| && forall i :: 0 <= i < d ==> Size(route.path) < Size(rest[i].path)
    requires d < |rest| ==> Size(route.path) >= Size(rest[d].path)
    ensures InsertRoute(route, rest) == rest[..d] + [route] + rest[d..]
  {
    if d > 0 {
      InsertedAt(route, rest[1..], d - 1);
      assert rest == [rest[0]] + rest[1..];
    }
  }

  /** The routes after `k` that are longer than `size` move up by one place. */
  method ShiftLonger(routes: array<Route>, k: nat, size: nat) returns (j: nat)
    requires k < routes.Length
    modifies routes
    ensures k <= j < routes.Length
    ensures forall i :: 0 <= i < k || j < i < routes.Length ==> routes[i] == old(routes[i])
    ensures forall i :: k <= i < j ==> routes[i] == old(routes[i + 1]) && size < Size(routes[i].path)
    ensures j + 1 < routes.Length ==> Size(routes[j + 1].path) <= size
  {
    j := k;
    while j + 1 < routes.Length && size < Size(routes[j + 1].path)
      invariant k <= j < routes.Length
      invariant forall i :: 0 <= i < k || j < i < routes.Length ==> routes[i] == old(routes[i])
      invariant forall i :: k <= i < j ==> routes[i] == old(routes[i + 1]) && size < Size(routes[i].path)
    {
      routes[j] := routes[j + 1];
      j := j + 1;
    }
  }

  lemma ShiftedPieces(before: seq<Route>, after: seq<Route>, k: nat, j: nat)
    requires k <= j < |before| && |after| == |before| && after[j] == before[k]
    requires forall i :: 0 <= i < k || j < i < |before| ==> after[i] == before[i]
    requires forall i :: k <= i < j ==> after[i] == before[i + 1]
    ensures var rest, d := before[k + 1..], j - k;
      after == before[..k] + (rest[..d] + [before[k]] + rest[d..])
  {
    var rest, d := before[k + 1..], j - k;
    assert after[..k] == before[..k];
    assert after[k..j] == rest[..d];
    assert after[j + 1..] == rest[d..];
    assert after == after[..k] + (after[k..j] + [after[j]] + after[j + 1..]);
  }

  /** What shifting and then storing the route makes of the whole list. */
  lemma {:induction false} ShiftedIsInserted(before: seq<Route>, after: seq<Route>, k: nat, j: nat)
    requires k <= j < |before| && |after| == |before| && after[j] == before[k]
    requires forall i :: 0 <= i < k || j < i < |before| ==> after[i] == before[i]
    requires forall i :: k <= i < j ==> after[i] == before[i + 1] && Size(before[k].path) < Size(after[i].path)
    requires j + 1 < |before| ==> Size(before[j + 1].path) <= Size(before[k].path)
    ensures after == before[..k] + InsertRoute(before[k], before[k + 1..])
  {
    var rest, d := before[k + 1..], j - k;
    assert forall i :: 0 <= i < d ==> rest[i] == after[k + i];
    InsertedAt(before[k], rest, d);
    ShiftedPieces(before, after, k, j);
  }

  /** One insertion: the route at `k` goes behind the longer paths of the sorted rest. */
  method InsertInPlace(routes: array<Route>, k: nat)
    requires k < routes.Length
    modifies routes
    ensures routes[..] == old(routes[..k] + InsertRoute(routes[k], routes[k + 1..]))
  {
    var route := routes[k];
    ghost var before := routes[..];
    var j := ShiftLonger(routes, k, Size(route.path));
    routes[j] := route;
    ShiftedIsInserted(before, routes[..], k, j);
    assert before[..k] == old(routes[..k]) && before[k + 1..] == old(routes[k + 1..]);
  }

  /** The stable sort of a route list in its own storage. */
  method SortInPlace(routes: array<Route>)
    modifies routes
    ensures routes[..] == SortByLength(old(routes[..]))
  {
    ghost var was := routes[..];
    var k := routes.Length;
    while k > 0
      invariant 0 <= k <= routes.Length
      invariant routes[..k] == was[..k] && routes[k..] == SortByLength(was[k..])
    {
      k := k - 1;
      assert was[k..][0] == was[k] && was[k..][1..] == was[k + 1..];
      assert routes[..k + 1] == was[..k + 1] && routes[..k] == was[..k] && routes[k] == was[k];
      InsertInPlace(routes, k);
    }
    assert routes[0..] == routes[..] && was[0..] == was;
  }

  /** What the printer sorts: a copy, so that the routes of the table stay as declared. */
  method SortedRoutes(publication: Stored) returns (routes: array<Route>)
    ensures fresh(routes) && routes[..] == SortByLength(publication.routes[..])
    ensures Value(publication) == old(Value(publication))
  {
    routes := CopyRoutes(publication.routes);
    SortInPlace(routes);
  }
}
