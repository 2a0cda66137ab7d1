/**
 Agreement between the claim table and the committed route table, over every schedule
 and every pattern of runtime failures, and the exact hosts for which it holds.
 */
module Agreement {
  import opened Text
  import opened ControlPlane
  import opened Hosts
  import opened Caddyfile
  import opened RouteRuntime
  import opened Daemon
  import opened Protocol
  import opened ProtocolInvariant

  /** Every reachable state satisfies the invariant. */
  lemma {:induction false} ReachableInv(s0: State, events: seq<Event>)
    requires Initial(s0) && |events| <= MAX_INT64
    ensures Inv(After(s0, events)) && After(s0, events).server.generation <= |events|
  {
    if events == [] {
      InitialInv(s0);
    } else {
      var n := |events| - 1;
      ReachableInv(s0, events[..n]);
      ApplyKeepsInv(After(s0, events[..n]), events[n]);
      GenerationStep(After(s0, events[..n]), events[n]);
    }
  }

  lemma GenerationStep(s: State, event: Event)
    requires 0 <= s.server.generation < MAX_INT64
    ensures s.server.generation <= Apply(s, event).server.generation <= s.server.generation + 1
  {}

  // Which keys are in use -----------------------------------------------------

  /** A claim key that the runtime keeps as it is, or never accepts. */
  predicate SafeKey(key: string) {
    CanonicalHost(key) == key || !ValidHost(CanonicalHost(key))
  }

  lemma SafeHostGivesSafeKey(host: string)
    ensures SafeHost(host) <==> SafeKey(CanonicalHost(host))
  {
    CanonicalTwice(host);
  }

  ghost predicate KeysSafe(s: State) {
    && (forall host :: host in s.server.claims ==> SafeKey(host))
    && (forall h: nat :: h < |s.handlers| && s.handlers[h].ClaimWait? ==> SafeKey(s.handlers[h].claim.host))
  }

  ghost predicate SafeEvent(event: Event) {
    event.Arrive? && event.request.ClaimRequest? ==> SafeHost(event.request.claim.host)
  }

  ghost predicate SafeEvents(events: seq<Event>) {
    forall i :: 0 <= i < |events| ==> SafeEvent(events[i])
  }

  /** A step moves one handler, and no handler goes back to claiming. */
  lemma StepMovesOne(s: State, h: nat, token: string, io: Io)
    requires Enabled(s, h)
    ensures var t := Apply(s, Advance(h, token, io)); OnlyMoves(s, t, h) && !t.handlers[h].ClaimWait?
  {}

  /** Only a claim brings in a new key. */
  lemma NewKeysComeFromClaims(s: State, h: nat, token: string, io: Io)
    requires HandlersOk(s) && Enabled(s, h)
    ensures var t := Apply(s, Advance(h, token, io));
      && OnlyMoves(s, t, h) && !t.handlers[h].ClaimWait?
      && forall host :: host in t.server.claims ==>
           host in s.server.claims || (s.handlers[h].ClaimWait? && host == s.handlers[h].claim.host)
  {
    StepMovesOne(s, h, token, io);
    assert HandlerOk(s, s.handlers[h]);
  }

  lemma {:induction false} ApplyKeepsKeysSafe(s: State, event: Event)
    requires HandlersOk(s) && KeysSafe(s) && SafeEvent(event)
    ensures KeysSafe(Apply(s, event))
  {
    match event
    case Arrive(request) =>
      if request.ClaimRequest? { SafeHostGivesSafeKey(request.claim.host); }
    case Advance(h, token, io) =>
      if Enabled(s, h) { NewKeysComeFromClaims(s, h, token, io); }
  }

  lemma PublishedKeyIsCanonical(s: State, host: string)
    requires RecordsOk(s) && KeysSafe(s) && host in s.server.claims && s.server.claims[host].published
    ensures CanonicalHost(host) == host
  {}

  // The agreement invariant ---------------------------------------------------

  ghost predicate Recording(pc: Pc, host: string) {
    pc.RoutesRecord? && pc.ok && pc.publication.host == host
  }

  ghost predicate LockHolderRecords(s: State, host: string) {
    s.serverLock.Some? && s.serverLock.value < |s.handlers| && Recording(s.handlers[s.serverLock.value], host)
  }

  ghost predicate RecordAgrees(s: State, host: string) {
    host in s.server.claims && s.server.claims[host].published && !s.server.claims[host].releasing ==>
      host in s.runtime.publications && s.runtime.publications[host] == s.server.claims[host].publication
  }

  ghost predicate RouteAgrees(s: State, host: string) {
    host in s.runtime.publications ==>
      && host in s.server.claims
      && s.runtime.publications[host] == PublicationFor(s.server.claims[host])
      && (s.server.claims[host].published || LockHolderRecords(s, host))
  }

  ghost predicate HandlerAgrees(s: State, pc: Pc) {
    && (pc.ReleaseRtWait? || pc.ReleaseRt? || (pc.ReleaseFinish? && !pc.ok) ==>
          pc.release.host in s.runtime.publications
          && s.runtime.publications[pc.release.host] == pc.record.publication)
    && (pc.ReleaseFinish? && pc.ok ==> pc.release.host !in s.runtime.publications)
    && (pc.RoutesRecord? && pc.ok ==>
          pc.publication.host in s.runtime.publications && s.runtime.publications[pc.publication.host]
            == pc.publication)
  }

  ghost predicate AgreeInv(s: State) {
    && (forall host :: RecordAgrees(s, host))
    && (forall host :: RouteAgrees(s, host))
    && (forall h: nat :: h < |s.handlers| ==> HandlerAgrees(s, s.handlers[h]))
  }

  /** Steps that touch neither table; the moving handler must agree in its new position. */
  lemma {:induction false} QuietStep(s: State, t: State, h: nat)
    requires AgreeInv(s) && LocksHeld(s) && OnlyMoves(s, t, h) && h < |s.handlers|
    requires t.server.claims == s.server.claims && t.runtime.publications == s.runtime.publications
    requires !s.handlers[h].RoutesRecord? || !s.handlers[h].ok
    requires t.serverLock == s.serverLock || s.serverLock.None? || s.serverLock == Some(h)
    requires HandlerAgrees(t, t.handlers[h])
    ensures AgreeInv(t)
  {
    forall host ensures RecordAgrees(t, host) { assert RecordAgrees(s, host); }
    forall host ensures RouteAgrees(t, host) {
      assert RouteAgrees(s, host);
    }
    forall g: nat | g < |t.handlers| && g != h ensures HandlerAgrees(t, t.handlers[g]) {
      assert HandlerAgrees(s, s.handlers[g]);
    }
  }

  lemma {:induction false} ArriveAgrees(s: State, request: Request)
    requires AgreeInv(s) && LocksHeld(s)
    ensures AgreeInv(Apply(s, Arrive(request)))
  {
    var t := Apply(s, Arrive(request));
    forall host ensures RecordAgrees(t, host) && RouteAgrees(t, host) {
      assert RecordAgrees(s, host) && RouteAgrees(s, host);
    }
    forall g: nat | g < |t.handlers| ensures HandlerAgrees(t, t.handlers[g]) {
      if g < |s.handlers| { assert HandlerAgrees(s, s.handlers[g]); }
    }
  }

  lemma {:induction false} ClaimAgrees(s: State, h: nat, token: string)
    requires AgreeInv(s) && LocksHeld(s) && Enabled(s, h) && s.handlers[h].ClaimWait?
    ensures AgreeInv(AdvanceClaim(s, h, token))
  {
    var t := AdvanceClaim(s, h, token);
    if s.handlers[h].claim.host in s.server.claims {
      QuietStep(s, t, h);
    } else {
      forall host ensures RecordAgrees(t, host) && RouteAgrees(t, host) {
        assert RecordAgrees(s, host) && RouteAgrees(s, host);
      }
      forall g: nat | g < |t.handlers| && g != h ensures HandlerAgrees(t, t.handlers[g]) {
        assert HandlerAgrees(s, s.handlers[g]);
      }
    }
  }

  /** The commit of a publication. */
  lemma {:induction false} RoutesRtAgrees(s: State, h: nat, io: Io)
    requires AgreeInv(s) && LocksHeld(s) && RecordsOk(s) && HandlersOk(s) && RuntimeOk(s) && KeysSafe(s)
    requires Enabled(s, h) && s.handlers[h].RoutesRt?
    ensures AgreeInv(AdvanceRoutesRt(s, h, io))
  {
    var t := AdvanceRoutesRt(s, h, io);
    var pc := s.handlers[h];
    var x := pc.publication.host;
    assert HandlerOk(s, pc) && OperationOk(s, pc);
    StepIsTransactional(s.runtime, pc.operation, io);
    if t.handlers[h].RoutesRt? || !t.handlers[h].ok {
      QuietStep(s, t, h);
    } else {
      assert s.serverLock == Some(h);
      assert t.runtime.publications == s.runtime.publications[x := pc.publication];
      PublishCommitted(s, t, h);
    }
  }

  lemma {:induction false} PublishCommitted(s: State, t: State, h: nat)
    requires AgreeInv(s) && LocksHeld(s) && HandlersOk(s) && OnlyMoves(s, t, h)
    requires h < |s.handlers| && s.handlers[h].RoutesRt? && s.serverLock == Some(h) && t.serverLock == s.serverLock
    requires t.handlers[h] == RoutesRecord(s.handlers[h].publication, s.handlers[h].record, true)
    requires t.server == s.server
    requires t.runtime.publications
      == s.runtime.publications[s.handlers[h].publication.host := s.handlers[h].publication]
    ensures AgreeInv(t)
  {
    var x := s.handlers[h].publication.host;
    assert HandlerOk(s, s.handlers[h]);
    forall host ensures RecordAgrees(t, host) && RouteAgrees(t, host) {
      assert RecordAgrees(s, host) && RouteAgrees(s, host);
    }
    forall g: nat | g < |t.handlers| && g != h ensures HandlerAgrees(t, t.handlers[g]) {
      assert HandlerAgrees(s, s.handlers[g]) && HandlerOk(s, s.handlers[g]);
      assert !HoldsServer(s.handlers[g]);
    }
  }

  lemma {:induction false} RoutesRecordAgrees(s: State, h: nat)
    requires AgreeInv(s) && LocksHeld(s) && HandlersOk(s)
    requires h < |s.handlers| && s.handlers[h].RoutesRecord?
    ensures AgreeInv(AdvanceRoutesRecord(s, h))
  {
    var t := AdvanceRoutesRecord(s, h);
    var pc := s.handlers[h];
    assert HandlerOk(s, pc) && HandlerAgrees(s, pc) && s.serverLock == Some(h);
    if !pc.ok {
      QuietStep(s, t, h);
    } else {
      forall host ensures RecordAgrees(t, host) && RouteAgrees(t, host) {
        assert RecordAgrees(s, host) && RouteAgrees(s, host);
      }
      forall g: nat | g < |t.handlers| && g != h ensures HandlerAgrees(t, t.handlers[g]) {
        assert HandlerAgrees(s, s.handlers[g]);
      }
    }
  }

  lemma {:induction false} ReleaseWaitAgrees(s: State, h: nat)
    requires AgreeInv(s) && LocksHeld(s) && RecordsOk(s) && Enabled(s, h) && s.handlers[h].ReleaseWait?
    ensures AgreeInv(AdvanceReleaseWait(s, h))
  {
    var t := AdvanceReleaseWait(s, h);
    var x := s.handlers[h].release.host;
    if AdmitRelease(s.server, s.handlers[h].release).None? {
      QuietStep(s, t, h);
    } else {
      assert RecordOk(s, x) && RecordAgrees(s, x) && RouteAgrees(s, x);
      forall host ensures RecordAgrees(t, host) && RouteAgrees(t, host) {
        assert RecordAgrees(s, host) && RouteAgrees(s, host);
      }
      forall g: nat | g < |t.handlers| && g != h ensures HandlerAgrees(t, t.handlers[g]) {
        assert HandlerAgrees(s, s.handlers[g]);
      }
    }
  }

  /** With safe keys a release tries the committed table without its own host. */
  lemma {:induction false} ReleaseOperationIs(s: State, h: nat)
    requires RecordsOk(s) && HandlersOk(s) && RuntimeOk(s) && KeysSafe(s)
    requires h < |s.handlers| && s.handlers[h].ReleaseRt?
    ensures var pc := s.handlers[h];
      Underway(s.runtime, pc.operation) && pc.operation.next == s.runtime.publications - {pc.release.host}
  {
    var pc := s.handlers[h];
    assert HandlerOk(s, pc) && OperationOk(s, pc);
    PublishedKeyIsCanonical(s, pc.release.host);
    assert RecordOk(s, pc.release.host);
  }

  /** Until its operation succeeds a release changes no table; then it removes exactly its host. */
  lemma {:induction false} ReleaseRtMoves(s: State, h: nat, io: Io)
    requires AgreeInv(s) && RecordsOk(s) && HandlersOk(s) && RuntimeOk(s) && KeysSafe(s)
    requires Enabled(s, h) && s.handlers[h].ReleaseRt?
    ensures var t, pc := AdvanceReleaseRt(s, h, io), s.handlers[h];
      && OnlyMoves(s, t, h) && t.server == s.server && t.serverLock == s.serverLock
      && (t.handlers[h].ReleaseRt? || t.handlers[h] == ReleaseFinish(pc.release, pc.record, false) ==>
            t.runtime.publications == s.runtime.publications && HandlerAgrees(t, t.handlers[h]))
      && (t.handlers[h].ReleaseRt? || t.handlers[h].ReleaseFinish?)
      && (t.handlers[h].ReleaseFinish? ==> t.handlers[h] == ReleaseFinish(pc.release, pc.record, t.handlers[h].ok))
      && (t.handlers[h].ReleaseFinish? && t.handlers[h].ok ==>
            t.runtime.publications == s.runtime.publications - {pc.release.host})
  {
    var pc := s.handlers[h];
    ReleaseOperationIs(s, h);
    assert HandlerAgrees(s, pc);
    StepIsTransactional(s.runtime, pc.operation, io);
  }

  /** The commit of an Unpublish. */
  lemma {:induction false} ReleaseRtAgrees(s: State, h: nat, io: Io)
    requires AgreeInv(s) && LocksHeld(s) && RecordsOk(s) && HandlersOk(s) && RuntimeOk(s) && KeysSafe(s)
    requires OneReleaseEach(s) && Enabled(s, h) && s.handlers[h].ReleaseRt?
    ensures AgreeInv(AdvanceReleaseRt(s, h, io))
  {
    var t := AdvanceReleaseRt(s, h, io);
    ReleaseRtMoves(s, h, io);
    if t.handlers[h].ReleaseRt? || !t.handlers[h].ok {
      QuietStep(s, t, h);
    } else {
      UnpublishCommitted(s, t, h);
    }
  }

  lemma {:induction false} UnpublishCommitted(s: State, t: State, h: nat)
    requires AgreeInv(s) && LocksHeld(s) && HandlersOk(s) && OneReleaseEach(s) && OnlyMoves(s, t, h)
    requires h < |s.handlers| && s.handlers[h].ReleaseRt? && t.serverLock == s.serverLock
    requires t.handlers[h] == ReleaseFinish(s.handlers[h].release, s.handlers[h].record, true)
    requires t.server == s.server
    requires t.runtime.publications == s.runtime.publications - {s.handlers[h].release.host}
    ensures AgreeInv(t)
  {
    var x := s.handlers[h].release.host;
    assert HandlerOk(s, s.handlers[h]) && Releases(s, h, x);
    forall host ensures RecordAgrees(t, host) && RouteAgrees(t, host) {
      assert RecordAgrees(s, host) && RouteAgrees(s, host);
    }
    forall g: nat | g < |t.handlers| && g != h ensures HandlerAgrees(t, t.handlers[g]) {
      assert HandlerAgrees(s, s.handlers[g]) && HandlerOk(s, s.handlers[g]);
      assert ReleaseInFlight(s.handlers[g]) ==> Releases(s, g, s.handlers[g].release.host);
    }
  }

  lemma {:induction false} ReleaseFinishAgreesAt(s: State, h: nat, host: string)
    requires AgreeInv(s) && Enabled(s, h) && s.handlers[h].ReleaseFinish?
    requires RecordOk(s, s.handlers[h].release.host) && HandlerOk(s, s.handlers[h])
    ensures RecordAgrees(AdvanceReleaseFinish(s, h), host) && RouteAgrees(AdvanceReleaseFinish(s, h), host)
  {
    assert HandlerAgrees(s, s.handlers[h]);
    assert RecordAgrees(s, host) && RouteAgrees(s, host);
  }

  lemma {:induction false} ReleaseFinishAgrees(s: State, h: nat)
    requires AgreeInv(s) && RecordsOk(s) && HandlersOk(s)
    requires Enabled(s, h) && s.handlers[h].ReleaseFinish?
    ensures AgreeInv(AdvanceReleaseFinish(s, h))
  {
    var t := AdvanceReleaseFinish(s, h);
    assert HandlerOk(s, s.handlers[h]) && RecordOk(s, s.handlers[h].release.host);
    forall host ensures RecordAgrees(t, host) && RouteAgrees(t, host) {
      ReleaseFinishAgreesAt(s, h, host);
    }
    forall g: nat | g < |t.handlers| && g != h ensures HandlerAgrees(t, t.handlers[g]) {
      assert HandlerAgrees(s, s.handlers[g]);
    }
  }

  lemma {:induction false} RoutesWaitAgrees(s: State, h: nat)
    requires AgreeInv(s) && LocksHeld(s) && Enabled(s, h) && s.handlers[h].RoutesWait?
    ensures AgreeInv(AdvanceRoutesWait(s, h))
  {
    QuietStep(s, AdvanceRoutesWait(s, h), h);
  }

  lemma {:induction false} RoutesRtWaitAgrees(s: State, h: nat)
    requires AgreeInv(s) && LocksHeld(s) && Enabled(s, h) && s.handlers[h].RoutesRtWait?
    ensures AgreeInv(AdvanceRoutesRtWait(s, h))
  {
    QuietStep(s, AdvanceRoutesRtWait(s, h), h);
  }

  lemma {:induction false} ReleaseRtWaitAgrees(s: State, h: nat)
    requires AgreeInv(s) && LocksHeld(s) && Enabled(s, h) && s.handlers[h].ReleaseRtWait?
    ensures AgreeInv(AdvanceReleaseRtWait(s, h))
  {
    assert HandlerAgrees(s, s.handlers[h]);
    QuietStep(s, AdvanceReleaseRtWait(s, h), h);
  }

  lemma {:induction false} ApplyKeepsAgreement(s: State, event: Event)
    requires Inv(s) && KeysSafe(s) && AgreeInv(s)
    ensures AgreeInv(Apply(s, event))
  {
    match event
    case Arrive(request) => ArriveAgrees(s, request);
    case Advance(h, token, io) =>
      if Enabled(s, h) {
        match s.handlers[h]
        case ClaimWait(_) => ClaimAgrees(s, h, token);
        case RoutesWait(_) => RoutesWaitAgrees(s, h);
        case RoutesRtWait(_, _) => RoutesRtWaitAgrees(s, h);
        case RoutesRt(_, _, _) => RoutesRtAgrees(s, h, io);
        case RoutesRecord(_, _, _) => RoutesRecordAgrees(s, h);
        case ReleaseWait(_) => ReleaseWaitAgrees(s, h);
        case ReleaseRtWait(_, _) => ReleaseRtWaitAgrees(s, h);
        case ReleaseRt(_, _, _) => ReleaseRtAgrees(s, h, io);
        case ReleaseFinish(_, _, _) => ReleaseFinishAgrees(s, h);
        case Done(_) =>
      }
  }

  lemma {:induction false} ReachableAgreeInv(s0: State, events: seq<Event>)
    requires Initial(s0) && |events| <= MAX_INT64 && SafeEvents(events)
    ensures Inv(After(s0, events)) && KeysSafe(After(s0, events)) && AgreeInv(After(s0, events))
  {
    ReachableInv(s0, events);
    if events != [] {
      var n := |events| - 1;
      ReachableAgreeInv(s0, events[..n]);
      ApplyKeepsKeysSafe(After(s0, events[..n]), events[n]);
      ApplyKeepsAgreement(After(s0, events[..n]), events[n]);
    }
  }

  // The statement -------------------------------------------------------------

  /** A release of `host` has unpublished it and not yet deleted its record. */
  ghost predicate Unpublished(s: State, host: string) {
    exists h: nat :: h < |s.handlers| && s.handlers[h].ReleaseFinish? && s.handlers[h].ok
      && s.handlers[h].release.host == host
  }

  /** A publication of `host` is committed and its handler, holding the server lock, is about to record it. */
  ghost predicate BeingRecorded(s: State, host: string) {
    exists h: nat :: h < |s.handlers| && Recording(s.handlers[h], host)
  }

  ghost predicate Visible(s: State, host: string) {
    host in s.server.claims &&
    ((s.server.claims[host].published && !Unpublished(s, host)) || BeingRecorded(s, host))
  }

  /** The committed table has exactly the visible hosts, each with the publication its record determines. */
  ghost predicate TablesAgree(s: State) {
    forall host ::
      && (host in s.runtime.publications <==> Visible(s, host))
      && (host in s.runtime.publications ==> s.runtime.publications[host] == PublicationFor(s.server.claims[host]))
  }

  lemma {:induction false} AgreementAtHost(s: State, host: string)
    requires Inv(s) && AgreeInv(s)
    ensures host in s.runtime.publications <==> Visible(s, host)
  {
    assert RecordAgrees(s, host) && RouteAgrees(s, host);
    if host in s.server.claims && s.server.claims[host].releasing {
      var h: nat :| Releases(s, h, host);
      assert HandlerAgrees(s, s.handlers[h]) && HandlerOk(s, s.handlers[h]);
    }
    assert BeingRecorded(s, host) ==> host in s.runtime.publications by {
      forall h: nat | h < |s.handlers| && Recording(s.handlers[h], host) ensures host in s.runtime.publications {
        assert HandlerAgrees(s, s.handlers[h]);
      }
    }
    assert Unpublished(s, host) ==> host !in s.runtime.publications by {
      forall h: nat | h < |s.handlers| && s.handlers[h].ReleaseFinish? && s.handlers[h].ok
        && s.handlers[h].release.host == host
        ensures host !in s.runtime.publications
      {
        assert HandlerAgrees(s, s.handlers[h]);
      }
    }
  }

  lemma {:induction false} AgreeInvGivesAgreement(s: State)
    requires Inv(s) && AgreeInv(s)
    ensures TablesAgree(s)
  {
    forall host
      ensures (host in s.runtime.publications <==> Visible(s, host))
        && (host in s.runtime.publications ==> s.runtime.publications[host] == PublicationFor(s.server.claims[host]))
    {
      AgreementAtHost(s, host);
      assert RouteAgrees(s, host);
    }
  }

  /** Over every schedule whose claims use safe hosts, the two tables agree in every state. */
  lemma {:induction false} TablesAgreeAlways(s0: State, events: seq<Event>)
    requires Initial(s0) && |events| <= MAX_INT64 && SafeEvents(events)
    ensures TablesAgree(After(s0, events))
  {
    ReachableAgreeInv(s0, events);
    AgreeInvGivesAgreement(After(s0, events));
  }
}
