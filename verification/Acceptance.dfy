/** When Publish and Unpublish succeed, in terms of the request and the outcomes alone. */
module Acceptance {
  import opened Text
  import opened ControlPlane
  import opened Hosts
  import opened Caddyfile
  import opened RouteRuntime

  /** Attempt `n` succeeds, and every one from `k` on before it failed with its context still alive. */
  ghost predicate FirstSuccessAt(io: nat -> Io, k: nat, n: nat) {
    io(n).ok && forall m: nat :: k <= m < n ==> !io(m).ok && !io(m).cancelled
  }

  /** One of the `attempts` outcomes from position `k` on is a success that is reached. */
  ghost predicate SuccessWithin(io: nat -> Io, k: nat, attempts: nat) {
    exists n: nat :: k <= n < k + attempts && FirstSuccessAt(io, k, n)
  }

  lemma {:induction false} FirstOrLater(io: nat -> Io, k: nat, attempts: nat)
    ensures SuccessWithin(io, k, attempts + 1) <==>
      io(k).ok || (!io(k).cancelled && SuccessWithin(io, k + 1, attempts))
  {
    if io(k).ok {
      assert FirstSuccessAt(io, k, k);
    } else {
      if SuccessWithin(io, k, attempts + 1) {
        var n: nat :| k <= n < k + attempts + 1 && FirstSuccessAt(io, k, n);
        assert n > k && FirstSuccessAt(io, k + 1, n);
      }
      if !io(k).cancelled && SuccessWithin(io, k + 1, attempts) {
        var n: nat :| k + 1 <= n < k + 1 + attempts && FirstSuccessAt(io, k + 1, n);
        assert FirstSuccessAt(io, k, n);
      }
    }
  }

  lemma {:induction false} RestoreFails(runtime: Runtime, operation: Operation, io: nat -> Io, k: nat)
    requires operation.phase.Restore?
    ensures !Complete(runtime, operation, io, k).1
  {}

  lemma {:induction false} ReloadSucceedsExactly(runtime: Runtime, operation: Operation, io: nat -> Io, k: nat)
    requires operation.phase.Reload? && operation.phase.attempt < 10
    ensures Complete(runtime, operation, io, k).1 <==> SuccessWithin(io, k, 10 - operation.phase.attempt)
    decreases 10 - operation.phase.attempt
  {
    var attempt := operation.phase.attempt;
    FirstOrLater(io, k, 9 - attempt);
    if !io(k).ok {
      if io(k).cancelled || attempt == 9 {
        RestoreFails(runtime, operation.(phase := Restore), io, k + 1);
      } else {
        ReloadSucceedsExactly(runtime, operation.(phase := Reload(attempt + 1)), io, k + 1);
      }
    }
  }

  /** From a settled runtime an operation on a table in use succeeds by its write and one of ten reloads. */
  lemma {:induction false} OperationSucceedsExactly(runtime: Runtime, next: Table, io: nat -> Io)
    requires WellKeyed(next)
    ensures Complete(runtime, Operation(next, Write), io, 0).1 <==> io(0).ok && SuccessWithin(io, 1, 10)
  {
    WriteOfWellKeyed(runtime, next, io(0));
    WriteThenReload(runtime, next, io);
    ReloadSucceedsExactly(WriteConfig(runtime, next, io(0)).0, Operation(next, Reload(0)), io, 1);
  }

  /** A lower-case ASCII letter or a digit. */
  predicate LetterOrDigit(c: char) { 'a' <= c <= 'z' || '0' <= c <= '9' }

  /**
   Publish, from a settled runtime and whatever happens outside: it succeeds if and only if
   the normalised host has at least two characters, all of them lower-case letters, digits,
   dots or dashes, with a letter or digit at each end; every port is from 1 to 65535; every
   path begins with a slash and contains no space, tab, newline, carriage return or brace;
   the file can be written; and one of at most ten reloads succeeds, no earlier one having
   met a cancelled context.
   */
  lemma {:induction false} PublishSucceedsExactly(runtime: Runtime, publication: Publication, io: nat -> Io)
    requires Settled(runtime)
    ensures PublishResult(runtime, publication, io).1 <==>
      var host := CanonicalHost(publication.host);
      && |host| >= 2
      && (forall i :: 0 <= i < |host| ==> LetterOrDigit(host[i]) || host[i] == '.' || host[i] == '-')
      && LetterOrDigit(host[0]) && LetterOrDigit(host[|host| - 1])
      && (forall r :: r in publication.routes ==> 1 <= r.port <= 65535)
      && (forall r :: r in publication.routes ==> |r.path| > 0 && r.path[0] == '/')
      && (forall r, c :: r in publication.routes && c in r.path ==>
            c != ' ' && c != '\t' && c != '\n' && c != '\r' && c != '{' && c != '}')
      && io(0).ok && SuccessWithin(io, 1, 10)
  {
    hide Complete, CanonicalHost, ValidPublication, LetterOrDigit, SuccessWithin;
    var normal := Normalised(publication);
    PublicationValidExactly(normal);
    if ValidPublication(normal) {
      var next := WithPublication(runtime.publications, normal);
      PublishKeepsWellKeyed(runtime.publications, normal);
      OperationSucceedsExactly(runtime, next, io);
    }
  }

  lemma {:induction false} HostValidExactly(host: string)
    ensures ValidHost(host) <==>
      && |host| >= 2
      && (forall i :: 0 <= i < |host| ==> LetterOrDigit(host[i]) || host[i] == '.' || host[i] == '-')
      && LetterOrDigit(host[0]) && LetterOrDigit(host[|host| - 1])
  {
    forall c: char ensures c in ".-" <==> c == '.' || c == '-' {}
  }

  lemma {:induction false} RouteValidExactly(route: Route)
    ensures ValidRoute(route) <==>
      && 1 <= route.port <= 65535 && |route.path| > 0 && route.path[0] == '/'
      && forall c :: c in route.path ==> c != ' ' && c != '\t' && c != '\n' && c != '\r' && c != '{' && c != '}'
  {
    forall c: char ensures c in " \t\r\n{}" <==>
      c == ' ' || c == '\t' || c == '\n' || c == '\r' || c == '{' || c == '}' {}
    assert (forall i :: 0 <= i < |route.path| ==> route.path[i] !in " \t\r\n{}")
      <==> forall c :: c in route.path ==> c !in " \t\r\n{}";
  }

  lemma {:induction false} PublicationValidExactly(publication: Publication)
    ensures ValidPublication(publication) <==>
      var host := publication.host;
      && |host| >= 2
      && (forall i :: 0 <= i < |host| ==> LetterOrDigit(host[i]) || host[i] == '.' || host[i] == '-')
      && LetterOrDigit(host[0]) && LetterOrDigit(host[|host| - 1])
      && (forall r :: r in publication.routes ==> 1 <= r.port <= 65535)
      && (forall r :: r in publication.routes ==> |r.path| > 0 && r.path[0] == '/')
      && (forall r, c :: r in publication.routes && c in r.path ==>
            c != ' ' && c != '\t' && c != '\n' && c != '\r' && c != '{' && c != '}')
  {
    hide ValidRoute, ValidHost, LetterOrDigit;
    HostValidExactly(publication.host);
    forall r | r in publication.routes ensures ValidRoute(r) <==>
      && 1 <= r.port <= 65535 && |r.path| > 0 && r.path[0] == '/'
      && forall c :: c in r.path ==> c != ' ' && c != '\t' && c != '\n' && c != '\r' && c != '{' && c != '}' {
      RouteValidExactly(r);
    }
    assert (forall i :: 0 <= i < |publication.routes| ==> ValidRoute(publication.routes[i]))
      <==> forall r :: r in publication.routes ==> ValidRoute(r);
  }

  /** Unpublish never refuses a publication: its write and one of ten reloads decide. */
  lemma {:induction false} UnpublishSucceedsExactly(runtime: Runtime, publication: Publication, io: nat -> Io)
    requires Settled(runtime)
    ensures UnpublishResult(runtime, publication, io).1 <==> io(0).ok && SuccessWithin(io, 1, 10)
  {
    UnpublishKeepsWellKeyed(runtime.publications, publication);
    OperationSucceedsExactly(runtime, WithoutHost(runtime.publications, publication), io);
  }
}
