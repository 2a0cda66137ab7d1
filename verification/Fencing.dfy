/** What releases and generations guarantee over whole runs of the daemon. */
module Fencing {
  import opened Text
  import opened ControlPlane
  import opened Hosts
  import opened RouteRuntime
  import opened Daemon
  import opened Protocol
  import opened ProtocolInvariant
  import opened Agreement
  import opened AgreementExact

  // Releases ------------------------------------------------------------------

  /**
   While a release of a host is in flight, no claim, publication or other release of
   that host is accepted, whoever sends it.
   */
  lemma {:induction false} ReleaseShutsTheHost(s: State, h: nat, host: string)
    requires Inv(s) && Releases(s, h, host)
    ensures forall claim: Claim, token :: claim.host == host ==>
      ClaimSection(s.server, claim, token)
        == (s.server, Refused(HostClaimConflict, s.server.claims[host].claim.projectDir))
    ensures forall publication: Publication :: publication.host == host ==>
      AdmitPublication(s.server, publication).None?
    ensures forall release: Release :: release.host == host ==> AdmitRelease(s.server, release).None?
  {
    assert HandlerOk(s, s.handlers[h]);
  }

  /**
   The check made after Unpublish always succeeds: the handler finds the record it marked.
   Success deletes exactly that record; failure makes the same release acceptable again.
   */
  lemma {:induction false} ReleaseEndsItsOwnClaim(s: State, h: nat)
    requires Inv(s) && Enabled(s, h) && s.handlers[h].ReleaseFinish?
    ensures var pc := s.handlers[h];
      var t := AdvanceReleaseFinish(s, h);
      && StillMatches(s.server, pc.release) && s.server.claims[pc.release.host] == pc.record
      && (pc.ok ==> t.server.claims == s.server.claims - {pc.release.host} && t.handlers[h] == Done(NoContent))
      && (!pc.ok ==>
            && t.server.claims == s.server.claims[pc.release.host := pc.record.(releasing := false)]
            && AdmitRelease(t.server, pc.release).Some?
            && t.handlers[h] == Done(Refused(PublicationRejected, "")))
  {
    assert HandlerOk(s, s.handlers[h]);
    if !s.handlers[h].ok {
      UndoneReleaseIsAdmittedAgain(s.server, s.handlers[h].release);
    }
  }

  /** Every step but the end of a release keeps each record and its mark. */
  lemma {:induction false} OtherStepsKeepRecords(s: State, h: nat, token: string, io: Io, host: string)
    requires HandlersOk(s) && Enabled(s, h) && !s.handlers[h].ReleaseFinish? && host in s.server.claims
    ensures var t := Apply(s, Advance(h, token, io));
      host in t.server.claims && (s.server.claims[host].releasing ==> t.server.claims[host].releasing)
  {
    assert HandlerOk(s, s.handlers[h]);
  }

  /**
   Whatever handler moves, a record is removed or un-marked only by the release in flight
   for its own host, and that release carries the record's own token, generation and claim.
   */
  lemma {:induction false} OnlyTheOwnReleaseEndsARecord(s: State, event: Event, host: string)
    requires HandlersOk(s) && host in s.server.claims
    requires var t := Apply(s, event);
      host !in t.server.claims || (s.server.claims[host].releasing && !t.server.claims[host].releasing)
    ensures event.Advance? && Releases(s, event.h, host)
    ensures var record := s.server.claims[host];
      s.handlers[event.h].release == Release(record.claim.name, record.claim.host, record.claim.projectDir,
                                             record.claim.sessionId, record.token, record.generation)
  {
    assert event.Advance? && Enabled(s, event.h);
    if s.handlers[event.h].ReleaseFinish? {
      assert HandlerOk(s, s.handlers[event.h]);
    } else {
      OtherStepsKeepRecords(s, event.h, event.token, event.io, host);
    }
  }

  // Generations ---------------------------------------------------------------

  /** A generation that has been given out and whose claim is gone. */
  ghost predicate Dead(s: State, generation: int) {
    && generation <= s.server.generation
    && forall host :: host in s.server.claims ==> s.server.claims[host].generation != generation
  }

  /** A new claim gets a generation above all earlier ones exactly while the int64 does not wrap. */
  lemma {:induction false} NewGenerationsGrowUntilTheWrap(server: Server, claim: Claim, token: string)
    requires claim.host !in server.claims && 0 <= server.generation <= MAX_INT64
    requires forall host :: host in server.claims ==> server.claims[host].generation <= server.generation
    ensures var after := ClaimSection(server, claim, token).0;
      server.generation < MAX_INT64 <==>
        after.generation > server.generation
        && forall host :: host in server.claims ==> server.claims[host].generation < after.claims[claim.host].generation
  {}

  lemma {:induction false} DeadStaysDead(s: State, event: Event, generation: int)
    requires Inv(s) && s.server.generation < MAX_INT64 && Dead(s, generation)
    ensures Dead(Apply(s, event), generation)
  {
    GenerationStep(s, event);
    if event.Advance? && Enabled(s, event.h) {
      assert HandlerOk(s, s.handlers[event.h]);
      RecordsKeepTheirGeneration(s, event);
    }
  }

  lemma {:induction false} RecordsKeepTheirGeneration(s: State, event: Event)
    requires HandlersOk(s) && event.Advance? && Enabled(s, event.h) && 0 <= s.server.generation < MAX_INT64
    ensures var t := Apply(s, event);
      forall host :: host in t.server.claims ==>
        t.server.claims[host].generation > s.server.generation
        || (host in s.server.claims && t.server.claims[host].generation == s.server.claims[host].generation)
  {
    assert HandlerOk(s, s.handlers[event.h]);
  }

  lemma {:induction false} DeadForever(s: State, more: seq<Event>, generation: int)
    requires Inv(s) && s.server.generation + |more| <= MAX_INT64 && Dead(s, generation)
    ensures Dead(After(s, more), generation)
    ensures Inv(After(s, more)) && After(s, more).server.generation <= s.server.generation + |more|
    decreases |more|
  {
    if more != [] {
      var n := |more| - 1;
      DeadForever(s, more[..n], generation);
      DeadStaysDead(After(s, more[..n]), more[n], generation);
      ApplyKeepsInv(After(s, more[..n]), more[n]);
      GenerationStep(After(s, more[..n]), more[n]);
    }
  }

  /** The counter never decreases, and live records carry distinct generations it has reached. */
  lemma {:induction false} GenerationsOverARun(s0: State, events: seq<Event>, more: seq<Event>)
    requires Initial(s0) && |events| + |more| <= MAX_INT64
    ensures var s, t := After(s0, events), After(s0, events + more);
      && s.server.generation <= t.server.generation
      && (forall a :: a in t.server.claims ==> 1 <= t.server.claims[a].generation <= t.server.generation)
      && (forall a, b :: a in t.server.claims && b in t.server.claims && a != b ==>
            t.server.claims[a].generation != t.server.claims[b].generation)
    decreases |more|
  {
    ReachableInv(s0, events + more);
    var t := After(s0, events + more);
    forall a | a in t.server.claims ensures 1 <= t.server.claims[a].generation <= t.server.generation {
      assert RecordOk(t, a);
    }
    if more == [] {
      assert events + more == events;
    } else {
      var n := |more| - 1;
      assert (events + more)[..|events + more| - 1] == events + more[..n];
      GenerationsOverARun(s0, events, more[..n]);
      ReachableInv(s0, events + more[..n]);
      GenerationStep(After(s0, events + more[..n]), more[n]);
    }
  }

  /**
   Fencing: once a claim is deleted, nothing that carries its generation is accepted again,
   for any host and with any token, however the run goes on.
   */
  lemma {:induction false} DeletedClaimsAreFenced(s0: State, before: seq<Event>, event: Event, more: seq<Event>,
      host: string)
    requires Initial(s0) && |before| + 1 + |more| <= MAX_INT64
    requires host in After(s0, before).server.claims && host !in After(s0, before + [event]).server.claims
    ensures var generation := After(s0, before).server.claims[host].generation;
      var t := After(s0, before + [event] + more);
      && (forall publication: Publication :: publication.generation == generation ==>
        AdmitPublication(t.server, publication).None?)
      && (forall release: Release :: release.generation == generation ==> AdmitRelease(t.server, release).None?)
  {
    var s := After(s0, before);
    var generation := s.server.claims[host].generation;
    ReachableInv(s0, before);
    ReachableInv(s0, before + [event]);
    assert (before + [event])[..|before|] == before;
    var t := After(s0, before + [event]);
    assert t == Apply(s, event);
    assert Dead(t, generation) by { DeletionMakesDead(s, event, host); }
    AfterAppend(s0, before + [event], more);
    DeadForever(t, more, generation);
  }

  lemma {:induction false} DeletionMakesDead(s: State, event: Event, host: string)
    requires Inv(s) && s.server.generation < MAX_INT64
    requires host in s.server.claims && host !in Apply(s, event).server.claims
    ensures Dead(Apply(s, event), s.server.claims[host].generation)
  {
    assert RecordOk(s, host);
    OnlyTheOwnReleaseEndsARecord(s, event, host);
    RecordsKeepTheirGeneration(s, event);
    GenerationStep(s, event);
    var t := Apply(s, event);
    forall other | other in t.server.claims
      ensures t.server.claims[other].generation != s.server.claims[host].generation {
      assert other != host;
    }
  }
}
