/** The hosts for which the two tables always agree are exactly the safe ones. */
module AgreementExact {
  import opened Text
  import opened ControlPlane
  import opened Hosts
  import opened Caddyfile
  import opened RouteRuntime
  import opened Daemon
  import opened Protocol
  import opened ProtocolInvariant
  import opened Agreement

  /** A schedule in which every claim asks for `host`. */
  ghost predicate ClaimsOnly(events: seq<Event>, host: string) {
    forall i :: 0 <= i < |events| && events[i].Arrive? && events[i].request.ClaimRequest? ==>
      events[i].request.claim.host == host
  }

  ghost predicate AgreesUnder(s0: State, events: seq<Event>) {
    TablesAgree(After(s0, events))
  }

  /** One claim of `host`, made and answered. */
  function Claiming(host: string): Claim { Claim("app", host, "/project", "session", []) }

  function Claimed(host: string): ClaimRecord {
    ClaimRecord(Claiming(host).(host := CanonicalHost(host)), "token", 1, false, false, EMPTY_PUBLICATION)
  }

  function Publishing(host: string): Publication { PublicationFor(Claimed(host)) }

  const FINE := Io(true, "", false)

  /** A claim and its publication, with every runtime call succeeding. */
  function ClaimAndPublish(host: string): seq<Event> {
    [Arrive(ClaimRequest(Claiming(host))), Advance(0, "token", FINE),
     Arrive(RoutesRequest(Publishing(host).(host := host)))]
    + PublishSteps()
  }

  function PublishSteps(): seq<Event> {
    [Advance(1, "", FINE), Advance(1, "", FINE), Advance(1, "", FINE), Advance(1, "", FINE), Advance(1, "", FINE)]
  }

  lemma {:induction false} AfterAppend(s0: State, a: seq<Event>, b: seq<Event>)
    ensures After(s0, a + b) == After(After(s0, a), b)
    decreases |b|
  {
    if b == [] {
      assert a + b == a;
    } else {
      var n := |b| - 1;
      assert (a + b)[..|a + b| - 1] == a + b[..n];
      AfterAppend(s0, a, b[..n]);
    }
  }

  lemma {:induction false} AfterOne(s: State, event: Event)
    ensures After(s, [event]) == Apply(s, event)
  {}

  lemma {:induction false} AfterCons(s: State, event: Event, rest: seq<Event>)
    ensures After(s, [event] + rest) == After(Apply(s, event), rest)
  {
    AfterAppend(s, [event], rest);
    AfterOne(s, event);
  }

  /** The state once the publication waits for the server lock. */
  function ReadyToPublish(s0: State, host: string): State {
    s0.(server := Server(map[CanonicalHost(host) := Claimed(host)], 1),
        handlers := [Done(Receipt(ClaimReceipt("token", 1))), RoutesWait(Publishing(host))])
  }

  lemma {:induction false} ClaimIsAnswered(s0: State, host: string)
    requires Initial(s0) && s0.hasRuntime && host != ""
    ensures After(s0, ClaimAndPublish(host)) == After(ReadyToPublish(s0, host), PublishSteps())
  {
    var e0, e1 := Arrive(ClaimRequest(Claiming(host))), Advance(0, "token", FINE);
    var e2 := Arrive(RoutesRequest(Publishing(host).(host := host)));
    var s1 := Apply(s0, e0);
    assert s1.handlers == [ClaimWait(Claiming(host).(host := CanonicalHost(host)))];
    var s2 := Apply(s1, e1);
    assert s2.handlers == [Done(Receipt(ClaimReceipt("token", 1)))];
    assert Apply(s2, e2) == ReadyToPublish(s0, host);
    assert ClaimAndPublish(host) == [e0] + ([e1] + ([e2] + PublishSteps()));
    AfterCons(s0, e0, [e1] + ([e2] + PublishSteps()));
    AfterCons(s1, e1, [e2] + PublishSteps());
    AfterCons(s2, e2, PublishSteps());
  }

  /** The state once the publication holds both locks, about to write. */
  function AboutToWrite(s0: State, host: string): State {
    var next := WithPublication(map[], Normalised(Publishing(host)));
    ReadyToPublish(s0, host).(
      serverLock := Some(1), runtimeLock := Some(1),
      handlers := [Done(Receipt(ClaimReceipt("token", 1))),
                   RoutesRt(Publishing(host), Claimed(host), Operation(next, Write))])
  }

  /** The state once the publication holds the server lock and waits for the runtime. */
  function Admitted(s0: State, host: string): State {
    ReadyToPublish(s0, host).(
      serverLock := Some(1),
      handlers := [Done(Receipt(ClaimReceipt("token", 1))), RoutesRtWait(Publishing(host), Claimed(host))])
  }

  lemma {:induction false} PublicationIsAdmitted(s0: State, host: string)
    requires Initial(s0) && s0.hasRuntime
    ensures Apply(ReadyToPublish(s0, host), Advance(1, "", FINE)) == Admitted(s0, host)
  {
    var s := ReadyToPublish(s0, host);
    assert AdmitPublication(s.server, Publishing(host)) == Some(Claimed(host));
    assert Apply(s, Advance(1, "", FINE)).handlers == Admitted(s0, host).handlers;
  }

  lemma {:induction false} RuntimeLockIsTaken(s0: State, host: string)
    requires Initial(s0) && s0.hasRuntime && ValidHost(CanonicalHost(CanonicalHost(host)))
    ensures Apply(Admitted(s0, host), Advance(1, "", FINE)) == AboutToWrite(s0, host)
  {
    assert Apply(Admitted(s0, host), Advance(1, "", FINE)).handlers == AboutToWrite(s0, host).handlers;
  }

  lemma {:induction false} LocksAreTaken(s0: State, host: string)
    requires Initial(s0) && s0.hasRuntime && ValidHost(CanonicalHost(CanonicalHost(host)))
    ensures var e := Advance(1, "", FINE);
      Apply(Apply(ReadyToPublish(s0, host), e), e) == AboutToWrite(s0, host)
  {
    PublicationIsAdmitted(s0, host);
    RuntimeLockIsTaken(s0, host);
  }

  /** Write, reload, record, when nothing fails. */
  lemma {:induction false} WriteReloadRecord(s: State, h: nat, e: Event)
    requires e == Advance(h, "", FINE) && h < |s.handlers| && s.handlers[h].RoutesRt?
    requires s.handlers[h].operation.phase == Write
    requires Render(s.handlers[h].operation.next, s.runtime.upstreamHost).Success?
    ensures var t := Apply(Apply(Apply(s, e), e), e);
      && t.runtime.publications == s.handlers[h].operation.next
      && t.server == RecordPublication(s.server, s.handlers[h].publication, s.handlers[h].record)
  {
    var pc := s.handlers[h];
    var s1 := Apply(s, e);
    assert s1.handlers[h] == RoutesRt(pc.publication, pc.record, Operation(pc.operation.next, Reload(0)));
    var s2 := Apply(s1, e);
    assert s2.handlers[h] == RoutesRecord(pc.publication, pc.record, true);
  }

  /** What the committed table and the keys of the claim table are afterwards. */
  lemma {:induction false} PublishCommits(s0: State, host: string)
    requires Initial(s0) && s0.hasRuntime && ValidHost(CanonicalHost(CanonicalHost(host)))
    ensures var s := After(ReadyToPublish(s0, host), PublishSteps());
      && s.runtime.publications.Keys == {CanonicalHost(CanonicalHost(host))}
      && s.server.claims.Keys == {CanonicalHost(host)}
  {
    LocksAreTaken(s0, host);
    var s := AboutToWrite(s0, host);
    PublishKeepsWellKeyed(map[], Normalised(Publishing(host)));
    WellKeyedRenders(s.handlers[1].operation.next, s.runtime.upstreamHost);
    WriteReloadRecord(s, 1, Advance(1, "", FINE));
    FiveSteps(ReadyToPublish(s0, host), Advance(1, "", FINE));
  }

  lemma {:induction false} FiveSteps(s: State, e: Event)
    ensures After(s, [e, e, e, e, e]) == Apply(Apply(Apply(Apply(Apply(s, e), e), e), e), e)
  {
    assert [e, e, e, e, e] == [e] + ([e] + ([e] + ([e] + [e])));
    AfterCons(s, e, [e] + ([e] + ([e] + [e])));
    AfterCons(Apply(s, e), e, [e] + ([e] + [e]));
    AfterCons(Apply(Apply(s, e), e), e, [e] + [e]);
    AfterCons(Apply(Apply(Apply(s, e), e), e), e, [e]);
    AfterOne(Apply(Apply(Apply(Apply(s, e), e), e), e), e);
  }

  /** An unsafe host, claimed and published once, already leaves a route that no record owns. */
  lemma {:induction false} UnsafeHostDisagrees(s0: State, host: string)
    requires Initial(s0) && s0.hasRuntime && !SafeHost(host)
    ensures !AgreesUnder(s0, ClaimAndPublish(host))
  {
    assert host != "" by { CanonicalTwice(""); }
    CanonicalTwice(host);
    ClaimIsAnswered(s0, host);
    PublishCommits(s0, host);
    var s := After(s0, ClaimAndPublish(host));
    var route := CanonicalHost(CanonicalHost(host));
    assert route in s.runtime.publications && !Visible(s, route);
  }

  lemma {:induction false} SomeInitial() returns (s0: State)
    ensures Initial(s0) && s0.hasRuntime
  {
    WellKeyedRenders(map[], "");
    var text := Render(map[], "").value;
    s0 := State(Server(map[], 0), None, Runtime(map[], "", text, true, text), None, true, []);
  }

  ghost predicate AlwaysAgrees(host: string) {
    forall s0, events :: Initial(s0) && |events| <= MAX_INT64 && ClaimsOnly(events, host) ==> AgreesUnder(s0, events)
  }

  lemma {:induction false} SafeHostAgrees(host: string)
    requires SafeHost(host)
    ensures AlwaysAgrees(host)
  {
    forall s0, events | Initial(s0) && |events| <= MAX_INT64 && ClaimsOnly(events, host)
      ensures AgreesUnder(s0, events)
    {
      assert SafeEvents(events);
      TablesAgreeAlways(s0, events);
    }
  }

  /**
   The committed table agrees with the claim table in every state of every schedule whose
   claims ask for `host`, if and only if the host is safe: a second normalisation changes
   nothing, or the runtime refuses what it gives.
   */
  lemma {:induction false} AgreementExactlyForSafeHosts(host: string)
    ensures SafeHost(host) <==> AlwaysAgrees(host)
  {
    if SafeHost(host) {
      SafeHostAgrees(host);
    } else {
      var s0 := SomeInitial();
      UnsafeHostDisagrees(s0, host);
      assert ClaimsOnly(ClaimAndPublish(host), host);
    }
  }
}
