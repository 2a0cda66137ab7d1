/** The invariant of the protocol is kept by every event. */
module ProtocolInvariant {
  import opened Text
  import opened ControlPlane
  import opened Hosts
  import opened Caddyfile
  import opened RouteRuntime
  import opened Daemon
  import opened Protocol

  lemma InitialInv(s: State)
    requires Initial(s)
    ensures Inv(s)
  {}

  lemma {:induction false} ArriveCorrespondence(s: State, request: Request)
    requires LocksHeld(s) && OneReleaseEach(s) && RuntimeOk(s)
    ensures var t := Apply(s, Arrive(request)); LocksHeld(t) && OneReleaseEach(t) && RuntimeOk(t)
  {
    var t := Apply(s, Arrive(request));
    var n := |s.handlers|;
    assert !HoldsServer(t.handlers[n]) && !HoldsRuntime(t.handlers[n]) && !ReleaseInFlight(t.handlers[n]);
    forall host | host in t.server.claims && t.server.claims[host].releasing
      ensures exists h: nat :: Releases(t, h, host)
    {
      var h: nat :| Releases(s, h, host);
      assert Releases(t, h, host);
    }
    forall g: nat, h: nat, host | Releases(t, g, host) && Releases(t, h, host) ensures g == h {
      assert Releases(s, g, host) && Releases(s, h, host);
    }
    forall h: nat | h < |t.handlers| && HoldsRuntime(t.handlers[h]) ensures OperationOk(t, t.handlers[h]) {
      assert OperationOk(s, s.handlers[h]);
    }
  }

  lemma {:induction false} ArriveKeepsInv(s: State, request: Request)
    requires Inv(s)
    ensures Inv(Apply(s, Arrive(request)))
  {
    var t := Apply(s, Arrive(request));
    ArriveCorrespondence(s, request);
    RecordsSameServer(s, t);
    forall h: nat | h < |t.handlers| ensures HandlerOk(t, t.handlers[h]) {
      if h < |s.handlers| { assert HandlerOk(s, s.handlers[h]); }
    }
  }

  /** Only handler `h` moves. */
  ghost predicate OnlyMoves(s: State, t: State, h: nat) {
    && |t.handlers| == |s.handlers| && t.hasRuntime == s.hasRuntime
    && forall g: nat :: g < |s.handlers| && g != h ==> t.handlers[g] == s.handlers[g]
  }

  /** The claim tables differ at most at `x`. */
  ghost predicate SameElsewhere(a: map<string, ClaimRecord>, b: map<string, ClaimRecord>, x: string) {
    forall k :: k != x ==> (k in a <==> k in b) && (k in a ==> a[k] == b[k])
  }

  /** No handler but `h` has been admitted for host `x`. */
  ghost predicate AloneAt(s: State, h: nat, x: string) {
    forall g: nat :: g < |s.handlers| && g != h ==>
      && (HoldsServer(s.handlers[g]) ==> s.handlers[g].publication.host != x)
      && (ReleaseInFlight(s.handlers[g]) ==> s.handlers[g].release.host != x)
  }

  /** Handler `h` takes, keeps or lets go of each lock as its position says. */
  lemma {:induction false} LocksAfter(s: State, t: State, h: nat)
    requires LocksHeld(s) && OnlyMoves(s, t, h) && h < |s.handlers|
    requires HoldsServer(t.handlers[h]) ==> s.serverLock.None? || s.serverLock == Some(h)
    requires HoldsRuntime(t.handlers[h]) ==> s.runtimeLock.None? || s.runtimeLock == Some(h)
    requires t.serverLock == if HoldsServer(t.handlers[h]) then Some(h)
                             else if HoldsServer(s.handlers[h]) then None else s.serverLock
    requires t.runtimeLock == if HoldsRuntime(t.handlers[h]) then Some(h)
                              else if HoldsRuntime(s.handlers[h]) then None else s.runtimeLock
    ensures LocksHeld(t)
  {}

  lemma {:induction false} HandlersOkElsewhere(s: State, t: State, h: nat, x: string)
    requires HandlersOk(s) && OnlyMoves(s, t, h) && h < |s.handlers| && AloneAt(s, h, x)
    requires SameElsewhere(s.server.claims, t.server.claims, x)
    requires HandlerOk(t, t.handlers[h])
    ensures HandlersOk(t)
  {}

  lemma {:induction false} RecordsOkElsewhere(s: State, t: State, x: string)
    requires RecordsOk(s) && GenerationsDistinct(s.server.claims)
    requires SameElsewhere(s.server.claims, t.server.claims, x) && t.hasRuntime == s.hasRuntime
    requires s.server.generation <= t.server.generation
    requires x in t.server.claims ==> RecordOk(t, x)
    requires x in t.server.claims ==>
      t.server.claims[x].generation > s.server.generation
      || (x in s.server.claims && t.server.claims[x].generation == s.server.claims[x].generation)
    ensures RecordsOk(t) && GenerationsDistinct(t.server.claims)
  {
    forall host | host in t.server.claims ensures RecordOk(t, host) {
      if host != x { assert RecordOk(s, host); }
    }
    forall a, b | a in t.server.claims && b in t.server.claims
                  && t.server.claims[a].generation == t.server.claims[b].generation
      ensures a == b
    {
      if a != x { assert RecordOk(s, a); }
      if b != x { assert RecordOk(s, b); }
    }
  }

  lemma {:induction false} RuntimeUntouched(s: State, t: State, h: nat)
    requires RuntimeOk(s) && OnlyMoves(s, t, h) && h < |s.handlers|
    requires t.runtime == s.runtime && t.runtimeLock == s.runtimeLock && !HoldsRuntime(t.handlers[h])
    ensures RuntimeOk(t)
  {}

  /** While nobody holds the server lock, nobody has been admitted at a host without a releasing record. */
  lemma {:induction false} AloneWhenFree(s: State, h: nat, x: string)
    requires LocksHeld(s) && HandlersOk(s)
    requires s.serverLock.None? || s.serverLock == Some(h)
    requires x in s.server.claims ==> !s.server.claims[x].releasing
    ensures AloneAt(s, h, x)
  {}

  lemma HandlersOkSameServer(s: State, t: State, h: nat)
    requires HandlersOk(s) && OnlyMoves(s, t, h) && h < |s.handlers| && t.server == s.server
    requires HandlerOk(t, t.handlers[h])
    ensures HandlersOk(t)
  {}

  lemma RecordsSameServer(s: State, t: State)
    requires RecordsOk(s) && t.server == s.server && t.hasRuntime == s.hasRuntime
    ensures RecordsOk(t)
  {}

  lemma {:induction false} ClaimRecords(s: State, h: nat, token: string)
    requires RecordsOk(s) && GenerationsDistinct(s.server.claims)
    requires h < |s.handlers| && s.handlers[h].ClaimWait? && s.server.generation < MAX_INT64
    ensures var t := AdvanceClaim(s, h, token); RecordsOk(t) && GenerationsDistinct(t.server.claims)
  {
    var t := AdvanceClaim(s, h, token);
    if s.handlers[h].claim.host in s.server.claims {
      RecordsSameServer(s, t);
    } else {
      RecordsOkElsewhere(s, t, s.handlers[h].claim.host);
    }
  }

  lemma {:induction false} ClaimHandlers(s: State, h: nat, token: string)
    requires LocksHeld(s) && HandlersOk(s) && Enabled(s, h) && s.handlers[h].ClaimWait?
    ensures HandlersOk(AdvanceClaim(s, h, token))
  {}

  lemma {:induction false} ClaimLocks(s: State, h: nat, token: string)
    requires LocksHeld(s) && Enabled(s, h) && s.handlers[h].ClaimWait?
    ensures LocksHeld(AdvanceClaim(s, h, token))
  {
    LocksAfter(s, AdvanceClaim(s, h, token), h);
  }

  lemma {:induction false} ClaimRuntime(s: State, h: nat, token: string)
    requires RuntimeOk(s) && Enabled(s, h) && s.handlers[h].ClaimWait?
    ensures RuntimeOk(AdvanceClaim(s, h, token))
  {
    RuntimeUntouched(s, AdvanceClaim(s, h, token), h);
  }

  lemma {:induction false} ClaimCorrespondence(s: State, h: nat, token: string)
    requires OneReleaseEach(s) && Enabled(s, h) && s.handlers[h].ClaimWait?
    ensures OneReleaseEach(AdvanceClaim(s, h, token))
  {
    CorrespondenceUnlessReleasing(s, AdvanceClaim(s, h, token), h);
  }

  lemma {:induction false} ClaimKeepsInv(s: State, h: nat, token: string)
    requires Inv(s) && Enabled(s, h) && s.handlers[h].ClaimWait? && s.server.generation < MAX_INT64
    ensures Inv(AdvanceClaim(s, h, token))
  {
    ClaimLocks(s, h, token);
    ClaimRuntime(s, h, token);
    ClaimCorrespondence(s, h, token);
    ClaimRecords(s, h, token);
    ClaimHandlers(s, h, token);
  }

  /** A step of a handler that is not, and does not become, a release in flight. */
  lemma {:induction false} CorrespondenceUnlessReleasing(s: State, t: State, h: nat)
    requires OneReleaseEach(s) && h < |s.handlers| && !ReleaseInFlight(s.handlers[h])
    requires OnlyMoves(s, t, h)
    requires !ReleaseInFlight(t.handlers[h])
    requires forall host :: host in t.server.claims && t.server.claims[host].releasing ==>
      host in s.server.claims && s.server.claims[host].releasing
    ensures OneReleaseEach(t)
  {
    forall host | host in t.server.claims && t.server.claims[host].releasing
      ensures exists g: nat :: Releases(t, g, host)
    {
      var g: nat :| Releases(s, g, host);
      assert Releases(t, g, host);
    }
    forall f: nat, g: nat, host | Releases(t, f, host) && Releases(t, g, host) ensures f == g {
      assert Releases(s, f, host) && Releases(s, g, host);
    }
  }

  lemma {:induction false} RoutesWaitLocks(s: State, h: nat)
    requires LocksHeld(s) && Enabled(s, h) && s.handlers[h].RoutesWait?
    ensures LocksHeld(AdvanceRoutesWait(s, h))
  {
    LocksAfter(s, AdvanceRoutesWait(s, h), h);
  }

  lemma {:induction false} RoutesWaitRuntime(s: State, h: nat)
    requires RuntimeOk(s) && Enabled(s, h) && s.handlers[h].RoutesWait?
    ensures RuntimeOk(AdvanceRoutesWait(s, h))
  {
    RuntimeUntouched(s, AdvanceRoutesWait(s, h), h);
  }

  lemma {:induction false} RoutesWaitCorrespondence(s: State, h: nat)
    requires OneReleaseEach(s)
    requires Enabled(s, h) && s.handlers[h].RoutesWait?
    ensures OneReleaseEach(AdvanceRoutesWait(s, h))
  {
    var t := AdvanceRoutesWait(s, h);
    CorrespondenceUnlessReleasing(s, t, h);
  }

  lemma {:induction false} RoutesWaitKeepsInv(s: State, h: nat)
    requires Inv(s) && Enabled(s, h) && s.handlers[h].RoutesWait?
    ensures Inv(AdvanceRoutesWait(s, h))
  {
    var t := AdvanceRoutesWait(s, h);
    var publication := s.handlers[h].publication;
    RoutesWaitLocks(s, h);
    RoutesWaitRuntime(s, h);
    RoutesWaitCorrespondence(s, h);
    RecordsSameServer(s, t);
    assert HandlerOk(s, s.handlers[h]);
    if AdmitPublication(s.server, publication).Some? {
      MatchDeterminesPublication(AdmitPublication(s.server, publication).value, publication);
    }
    HandlersOkSameServer(s, t, h);
  }

  lemma {:induction false} RoutesRtWaitKeepsInv(s: State, h: nat)
    requires Inv(s) && Enabled(s, h) && s.handlers[h].RoutesRtWait?
    ensures Inv(AdvanceRoutesRtWait(s, h))
  {
    var t := AdvanceRoutesRtWait(s, h);
    LocksAfter(s, t, h);
    CorrespondenceUnlessReleasing(s, t, h);
    var normal := Normalised(s.handlers[h].publication);
    if ValidPublication(normal) {
      PublishKeepsWellKeyed(s.runtime.publications, normal);
    }
    HandlersOkSameServer(s, t, h);
    RecordsSameServer(s, t);
  }

  lemma {:induction false} RoutesRtKeepsInv(s: State, h: nat, io: Io)
    requires Inv(s) && Enabled(s, h) && s.handlers[h].RoutesRt?
    ensures Inv(AdvanceRoutesRt(s, h, io))
  {
    var t := AdvanceRoutesRt(s, h, io);
    LocksAfter(s, t, h);
    CorrespondenceUnlessReleasing(s, t, h);
    assert OperationOk(s, s.handlers[h]);
    StepIsTransactional(s.runtime, s.handlers[h].operation, io);
    HandlersOkSameServer(s, t, h);
    RecordsSameServer(s, t);
  }

  lemma {:induction false} RoutesRecordRecords(s: State, h: nat)
    requires RecordsOk(s) && GenerationsDistinct(s.server.claims)
    requires h < |s.handlers| && s.handlers[h].RoutesRecord? && HandlerOk(s, s.handlers[h])
    ensures var t := AdvanceRoutesRecord(s, h); RecordsOk(t) && GenerationsDistinct(t.server.claims)
  {
    var x := s.handlers[h].publication.host;
    assert RecordOk(s, x);
    RecordsOkElsewhere(s, AdvanceRoutesRecord(s, h), x);
  }

  lemma {:induction false} RoutesRecordHandlers(s: State, h: nat)
    requires LocksHeld(s) && HandlersOk(s) && h < |s.handlers| && s.handlers[h].RoutesRecord?
    ensures HandlersOk(AdvanceRoutesRecord(s, h))
  {
    var x := s.handlers[h].publication.host;
    assert HandlerOk(s, s.handlers[h]);
    assert s.serverLock == Some(h);
    AloneWhenFree(s, h, x);
    HandlersOkElsewhere(s, AdvanceRoutesRecord(s, h), h, x);
  }

  lemma {:induction false} RoutesRecordLocks(s: State, h: nat)
    requires LocksHeld(s) && Enabled(s, h) && s.handlers[h].RoutesRecord?
    ensures LocksHeld(AdvanceRoutesRecord(s, h))
  {
    LocksAfter(s, AdvanceRoutesRecord(s, h), h);
  }

  lemma {:induction false} RoutesRecordRuntime(s: State, h: nat)
    requires RuntimeOk(s) && Enabled(s, h) && s.handlers[h].RoutesRecord?
    ensures RuntimeOk(AdvanceRoutesRecord(s, h))
  {
    RuntimeUntouched(s, AdvanceRoutesRecord(s, h), h);
  }

  lemma {:induction false} RoutesRecordCorrespondence(s: State, h: nat)
    requires OneReleaseEach(s) && HandlersOk(s)
    requires Enabled(s, h) && s.handlers[h].RoutesRecord?
    ensures OneReleaseEach(AdvanceRoutesRecord(s, h))
  {
    var t := AdvanceRoutesRecord(s, h);
    assert HandlerOk(s, s.handlers[h]);
    CorrespondenceUnlessReleasing(s, t, h);
  }

  lemma {:induction false} RoutesRecordKeepsInv(s: State, h: nat)
    requires Inv(s) && Enabled(s, h) && s.handlers[h].RoutesRecord?
    ensures Inv(AdvanceRoutesRecord(s, h))
  {
    assert HandlerOk(s, s.handlers[h]);
    RoutesRecordLocks(s, h);
    RoutesRecordRuntime(s, h);
    RoutesRecordCorrespondence(s, h);
    RoutesRecordRecords(s, h);
    RoutesRecordHandlers(s, h);
  }

  lemma {:induction false} ReleaseRtWaitKeepsInv(s: State, h: nat)
    requires Inv(s) && Enabled(s, h) && s.handlers[h].ReleaseRtWait?
    ensures Inv(AdvanceReleaseRtWait(s, h))
  {
    var t := AdvanceReleaseRtWait(s, h);
    LocksAfter(s, t, h);
    CorrespondenceWhileReleasing(s, t, h);
    UnpublishKeepsWellKeyed(s.runtime.publications, s.handlers[h].record.publication);
    HandlersOkSameServer(s, t, h);
    RecordsSameServer(s, t);
  }

  /** A step of a release that stays in flight, for the same host. */
  lemma {:induction false} CorrespondenceWhileReleasing(s: State, t: State, h: nat)
    requires OneReleaseEach(s) && h < |s.handlers| && ReleaseInFlight(s.handlers[h])
    requires OnlyMoves(s, t, h)
    requires ReleaseInFlight(t.handlers[h]) && t.handlers[h].release == s.handlers[h].release
    requires t.server == s.server
    ensures OneReleaseEach(t)
  {
    forall host | host in t.server.claims && t.server.claims[host].releasing
      ensures exists g: nat :: Releases(t, g, host)
    {
      var g: nat :| Releases(s, g, host);
      assert Releases(t, g, host);
    }
    forall f: nat, g: nat, host | Releases(t, f, host) && Releases(t, g, host) ensures f == g {
      assert Releases(s, f, host) && Releases(s, g, host);
    }
  }

  lemma {:induction false} ReleaseRtKeepsInv(s: State, h: nat, io: Io)
    requires Inv(s) && Enabled(s, h) && s.handlers[h].ReleaseRt?
    ensures Inv(AdvanceReleaseRt(s, h, io))
  {
    var t := AdvanceReleaseRt(s, h, io);
    LocksAfter(s, t, h);
    CorrespondenceWhileReleasing(s, t, h);
    assert OperationOk(s, s.handlers[h]);
    StepIsTransactional(s.runtime, s.handlers[h].operation, io);
    HandlersOkSameServer(s, t, h);
    RecordsSameServer(s, t);
  }

  lemma {:induction false} ReleaseWaitRecords(s: State, h: nat)
    requires RecordsOk(s) && GenerationsDistinct(s.server.claims)
    requires h < |s.handlers| && s.handlers[h].ReleaseWait?
    ensures var t := AdvanceReleaseWait(s, h); RecordsOk(t) && GenerationsDistinct(t.server.claims)
  {}

  lemma {:induction false} ReleaseWaitHandlers(s: State, h: nat)
    requires LocksHeld(s) && HandlersOk(s) && Enabled(s, h) && s.handlers[h].ReleaseWait? && RecordsOk(s)
    ensures HandlersOk(AdvanceReleaseWait(s, h))
  {
    var t := AdvanceReleaseWait(s, h);
    var x := s.handlers[h].release.host;
    if AdmitRelease(s.server, s.handlers[h].release).Some? {
      AloneWhenFree(s, h, x);
      HandlersOkElsewhere(s, t, h, x);
    } else {
      HandlersOkSameServer(s, t, h);
    }
  }

  lemma {:induction false} ReleaseWaitLocks(s: State, h: nat)
    requires LocksHeld(s) && RuntimeOk(s) && Enabled(s, h) && s.handlers[h].ReleaseWait?
    ensures var t := AdvanceReleaseWait(s, h); LocksHeld(t) && RuntimeOk(t)
  {
    var t := AdvanceReleaseWait(s, h);
    assert LocksHeld(t) by { LocksAfter(s, t, h); }
    assert RuntimeOk(t) by { RuntimeUntouched(s, t, h); }
  }

  lemma {:induction false} ReleaseWaitCorrespondence(s: State, h: nat)
    requires LocksHeld(s) && OneReleaseEach(s) && HandlersOk(s)
    requires Enabled(s, h) && s.handlers[h].ReleaseWait?
    ensures OneReleaseEach(AdvanceReleaseWait(s, h))
  {
    var t := AdvanceReleaseWait(s, h);
    if AdmitRelease(s.server, s.handlers[h].release).Some? {
      AloneWhenFree(s, h, s.handlers[h].release.host);
      NewRelease(s, t, h);
    } else {
      CorrespondenceUnlessReleasing(s, t, h);
    }
  }

  lemma {:induction false} ReleaseWaitKeepsInv(s: State, h: nat)
    requires Inv(s) && Enabled(s, h) && s.handlers[h].ReleaseWait?
    ensures Inv(AdvanceReleaseWait(s, h))
  {
    ReleaseWaitLocks(s, h);
    ReleaseWaitCorrespondence(s, h);
    ReleaseWaitRecords(s, h);
    ReleaseWaitHandlers(s, h);
  }

  lemma {:induction false} NewRelease(s: State, t: State, h: nat)
    requires OneReleaseEach(s) && OnlyMoves(s, t, h) && h < |s.handlers|
    requires ReleaseInFlight(t.handlers[h]) && AloneAt(s, h, t.handlers[h].release.host)
    requires forall host :: host in t.server.claims && t.server.claims[host].releasing ==>
      host == t.handlers[h].release.host || (host in s.server.claims && s.server.claims[host].releasing)
    requires !ReleaseInFlight(s.handlers[h])
    ensures OneReleaseEach(t)
  {
    forall host | host in t.server.claims && t.server.claims[host].releasing
      ensures exists g: nat :: Releases(t, g, host)
    {
      if host == t.handlers[h].release.host {
        assert Releases(t, h, host);
      } else {
        var g: nat :| Releases(s, g, host);
        assert Releases(t, g, host);
      }
    }
    forall f: nat, g: nat, host | Releases(t, f, host) && Releases(t, g, host) ensures f == g {
      assert f != h ==> Releases(s, f, host);
      assert g != h ==> Releases(s, g, host);
    }
  }

  lemma {:induction false} ReleaseFinishRecords(s: State, h: nat)
    requires RecordsOk(s) && GenerationsDistinct(s.server.claims)
    requires h < |s.handlers| && s.handlers[h].ReleaseFinish? && HandlerOk(s, s.handlers[h])
    ensures var t := AdvanceReleaseFinish(s, h); RecordsOk(t) && GenerationsDistinct(t.server.claims)
  {}

  lemma {:induction false} ReleaseFinishHandlers(s: State, h: nat)
    requires LocksHeld(s) && HandlersOk(s) && OneReleaseEach(s) && Enabled(s, h) && s.handlers[h].ReleaseFinish?
    ensures HandlersOk(AdvanceReleaseFinish(s, h))
  {
    AloneInRelease(s, h);
    HandlersOkElsewhere(s, AdvanceReleaseFinish(s, h), h, s.handlers[h].release.host);
  }

  lemma {:induction false} ReleaseFinishLocks(s: State, h: nat)
    requires LocksHeld(s) && RuntimeOk(s) && Enabled(s, h) && s.handlers[h].ReleaseFinish?
    ensures var t := AdvanceReleaseFinish(s, h); LocksHeld(t) && RuntimeOk(t)
  {
    var t := AdvanceReleaseFinish(s, h);
    assert LocksHeld(t) by { LocksAfter(s, t, h); }
    assert RuntimeOk(t) by { RuntimeUntouched(s, t, h); }
  }

  lemma {:induction false} ReleaseFinishCorrespondence(s: State, h: nat)
    requires OneReleaseEach(s) && HandlersOk(s)
    requires Enabled(s, h) && s.handlers[h].ReleaseFinish?
    ensures OneReleaseEach(AdvanceReleaseFinish(s, h))
  {
    var t := AdvanceReleaseFinish(s, h);
    assert HandlerOk(s, s.handlers[h]);
    EndOfRelease(s, t, h);
  }

  lemma {:induction false} ReleaseFinishKeepsInv(s: State, h: nat)
    requires Inv(s) && Enabled(s, h) && s.handlers[h].ReleaseFinish?
    ensures Inv(AdvanceReleaseFinish(s, h))
  {
    assert HandlerOk(s, s.handlers[h]);
    ReleaseFinishLocks(s, h);
    ReleaseFinishCorrespondence(s, h);
    ReleaseFinishRecords(s, h);
    ReleaseFinishHandlers(s, h);
  }

  lemma {:induction false} AloneInRelease(s: State, h: nat)
    requires LocksHeld(s) && OneReleaseEach(s) && s.serverLock.None?
    requires h < |s.handlers| && ReleaseInFlight(s.handlers[h])
    ensures AloneAt(s, h, s.handlers[h].release.host)
  {
    assert Releases(s, h, s.handlers[h].release.host);
    forall g: nat | g < |s.handlers| && g != h && ReleaseInFlight(s.handlers[g])
      ensures s.handlers[g].release.host != s.handlers[h].release.host
    {
      assert Releases(s, g, s.handlers[g].release.host);
    }
  }

  lemma {:induction false} EndOfRelease(s: State, t: State, h: nat)
    requires OneReleaseEach(s) && OnlyMoves(s, t, h) && h < |s.handlers|
    requires ReleaseInFlight(s.handlers[h]) && !ReleaseInFlight(t.handlers[h])
    requires forall host :: host in t.server.claims && t.server.claims[host].releasing ==>
      host != s.handlers[h].release.host && host in s.server.claims && s.server.claims[host].releasing
    ensures OneReleaseEach(t)
  {
    forall host | host in t.server.claims && t.server.claims[host].releasing
      ensures exists g: nat :: Releases(t, g, host)
    {
      var g: nat :| Releases(s, g, host);
      assert Releases(t, g, host);
    }
    forall f: nat, g: nat, host | Releases(t, f, host) && Releases(t, g, host) ensures f == g {
      assert Releases(s, f, host) && Releases(s, g, host);
    }
  }

  lemma {:induction false} ApplyKeepsInv(s: State, event: Event)
    requires Inv(s) && s.server.generation < MAX_INT64
    ensures Inv(Apply(s, event))
  {
    match event
    case Arrive(request) => ArriveKeepsInv(s, request);
    case Advance(h, token, io) =>
      if Enabled(s, h) {
        match s.handlers[h]
        case ClaimWait(_) => ClaimKeepsInv(s, h, token);
        case RoutesWait(_) => RoutesWaitKeepsInv(s, h);
        case RoutesRtWait(_, _) => RoutesRtWaitKeepsInv(s, h);
        case RoutesRt(_, _, _) => RoutesRtKeepsInv(s, h, io);
        case RoutesRecord(_, _, _) => RoutesRecordKeepsInv(s, h);
        case ReleaseWait(_) => ReleaseWaitKeepsInv(s, h);
        case ReleaseRtWait(_, _) => ReleaseRtWaitKeepsInv(s, h);
        case ReleaseRt(_, _, _) => ReleaseRtKeepsInv(s, h, io);
        case ReleaseFinish(_, _, _) => ReleaseFinishKeepsInv(s, h);
        case Done(_) =>
      }
  }
}
