/**
 A request that meets no other handler: taken alone, from its arrival to its answer, the
 steps of the interleaved daemon do what the handlers of the class ApiServer do.
 */
module Sequential {
  import opened Text
  import opened ControlPlane
  import opened Hosts
  import opened Caddyfile
  import RouteRuntime
  import opened Daemon
  import opened Protocol
  import opened AgreementExact
  import opened Progress

  /** The outcomes from position `d` on. */
  function From(io: nat -> RouteRuntime.Io, d: nat): nat -> RouteRuntime.Io {
    (k: nat) => io(k + d)
  }

  lemma {:induction false} CompleteFrom(runtime: RouteRuntime.Runtime, operation: RouteRuntime.Operation,
      io: nat -> RouteRuntime.Io, d: nat, k: nat)
    ensures RouteRuntime.Complete(runtime, operation, io, k + d)
         == RouteRuntime.Complete(runtime, operation, From(io, d), k)
    decreases RouteRuntime.StepsLeft(operation)
  {
    assert From(io, d)(k) == io(k + d);
    RouteRuntime.StepDecreases(runtime, operation, io(k + d));
    match RouteRuntime.Step(runtime, operation, io(k + d)) {
      case (_, Finished(_)) =>
      case (after, Running(next)) =>
        CompleteFrom(after, next, io, d, k + 1);
        assert (k + 1) + d == (k + d) + 1;
    }
  }

  /** One more handler, standing at `pc`. */
  function With(s: State, pc: Pc): State { s.(handlers := s.handlers + [pc]) }

  /** One more handler that is done, and what it did to the claim table and the runtime. */
  function Answered(s: State, server: Server, runtime: RouteRuntime.Runtime, response: Response): State {
    s.(server := server, runtime := runtime, handlers := s.handlers + [Done(response)])
  }

  lemma GotoLast(s: State, pc: Pc, next: Pc)
    ensures Goto(With(s, pc), |s.handlers|, next) == With(s, next)
  {
    assert (s.handlers + [pc])[|s.handlers| := next] == s.handlers + [next];
  }

  lemma {:induction false} AloneLast(h: nat, io: nat -> RouteRuntime.Io, k: nat, n: nat)
    ensures Alone(h, io, k, n + 1) == Alone(h, io, k, n) + [Advance(h, "", io(k + n))]
    decreases n
  {
    if n > 0 {
      AloneLast(h, io, k + 1, n - 1);
      assert (k + 1) + (n - 1) == k + n;
    } else {
      assert Alone(h, io, k, 1) == [Advance(h, "", io(k))] + Alone(h, io, k + 1, 0);
    }
  }

  lemma AfterLast(s: State, events: seq<Event>, last: Event)
    ensures After(s, events + [last]) == Apply(After(s, events), last)
  {
    assert (events + [last])[..|events|] == events;
  }

  lemma {:induction false} OneMoreStep(s: State, h: nat, io: nat -> RouteRuntime.Io, k: nat, n: nat)
    ensures RunAlone(s, h, io, k, n + 1) == Apply(RunAlone(s, h, io, k, n), Advance(h, "", io(k + n)))
  {
    RunAloneIsSchedule(s, h, io, k, n);
    RunAloneIsSchedule(s, h, io, k, n + 1);
    AloneLast(h, io, k, n);
    AfterLast(s, Alone(h, io, k, n), Advance(h, "", io(k + n)));
  }

  lemma {:induction false} FirstThen(s: State, t: State, u: State, h: nat, io: nat -> RouteRuntime.Io, k: nat, m: nat)
    requires t == Apply(s, Advance(h, "", io(k))) && RunAlone(t, h, io, k + 1, m) == u
    ensures RunAlone(s, h, io, k, m + 1) == u
  {}

  lemma {:induction false} ThenLast(s: State, u: State, v: State, h: nat, io: nat -> RouteRuntime.Io, k: nat, m: nat)
    requires RunAlone(s, h, io, k, m) == u && Apply(u, Advance(h, "", io(k + m))) == v
    ensures RunAlone(s, h, io, k, m + 1) == v
  {
    OneMoreStep(s, h, io, k, m);
  }

  /** The schedule in which `request` arrives and its handler takes `n` steps, nobody else any. */
  function OnItsOwn(s: State, request: Request, io: nat -> RouteRuntime.Io, n: nat): seq<Event> {
    [Arrive(request)] + Alone(|s.handlers|, io, 0, n)
  }

  lemma {:induction false} OnItsOwnIs(s: State, request: Request, io: nat -> RouteRuntime.Io, n: nat)
    ensures After(s, OnItsOwn(s, request, io, n))
         == RunAlone(With(s, Entry(s.hasRuntime, request)), |s.handlers|, io, 0, n)
  {
    AfterCons(s, Arrive(request), Alone(|s.handlers|, io, 0, n));
    RunAloneIsSchedule(With(s, Entry(s.hasRuntime, request)), |s.handlers|, io, 0, n);
  }

  // Claims --------------------------------------------------------------------------

  /** A claim alone: the precheck, or the claim section on the canonical host. */
  lemma {:induction false} ClaimAlone(s: State, request: Claim, io: nat -> RouteRuntime.Io) returns (n: nat)
    requires s.serverLock.None?
    ensures After(s, OnItsOwn(s, ClaimRequest(request), io, n)) ==
      match ClaimPrecheck(request)
      case Some(refused) => Answered(s, s.server, s.runtime, refused)
      case None =>
        var (server, response) := ClaimSection(s.server, request.(host := CanonicalHost(request.host)), "");
        Answered(s, server, s.runtime, response)
  {
    var pc := Entry(s.hasRuntime, ClaimRequest(request));
    n := if pc.Done? then 0 else 1;
    OnItsOwnIs(s, ClaimRequest(request), io, n);
    if pc.ClaimWait? {
      OneMoreStep(With(s, pc), |s.handlers|, io, 0, 0);
      var (server, response) := ClaimSection(s.server, pc.claim, "");
      GotoLast(s, pc, Done(response));
    }
  }

  // Publications --------------------------------------------------------------------

  lemma {:induction false} Admission(s: State, publication: Publication, io: RouteRuntime.Io)
    requires s.serverLock.None?
    ensures Apply(With(s, RoutesWait(publication)), Advance(|s.handlers|, "", io)) ==
      match AdmitPublication(s.server, publication)
      case None => With(s, Done(Refused(StaleTokenRejected, "")))
      case Some(record) => With(s, RoutesRtWait(publication, record)).(serverLock := Some(|s.handlers|))
  {
    var pc := RoutesWait(publication);
    GotoLast(s, pc, Done(Refused(StaleTokenRejected, "")));
    match AdmitPublication(s.server, publication) {
      case None =>
      case Some(record) => GotoLast(s, pc, RoutesRtWait(publication, record));
    }
  }

  lemma {:induction false} EnterPublish(s: State, publication: Publication, record: ClaimRecord, io: RouteRuntime.Io)
    requires s.runtimeLock.None?
    ensures var normal := RouteRuntime.Normalised(publication);
      var next := RouteRuntime.WithPublication(s.runtime.publications, normal);
      Apply(With(s, RoutesRtWait(publication, record)), Advance(|s.handlers|, "", io)) ==
        if !ValidPublication(normal) then With(s, RoutesRecord(publication, record, false))
        else With(s, RoutesRt(publication, record, RouteRuntime.Operation(next, RouteRuntime.Write)))
             .(runtimeLock := Some(|s.handlers|))
  {
    var pc := RoutesRtWait(publication, record);
    var next := RouteRuntime.WithPublication(s.runtime.publications, RouteRuntime.Normalised(publication));
    GotoLast(s, pc, RoutesRecord(publication, record, false));
    GotoLast(s, pc, RoutesRt(publication, record, RouteRuntime.Operation(next, RouteRuntime.Write)));
  }

  lemma {:induction false} AnswerPublication(s: State, publication: Publication, record: ClaimRecord, ok: bool,
      io: RouteRuntime.Io)
    ensures Apply(With(s, RoutesRecord(publication, record, ok)), Advance(|s.handlers|, "", io)) ==
      if ok then
        Answered(s, s.server.(claims := s.server.claims[publication.host :=
                                record.(published := true, publication := publication)]), s.runtime, NoContent)
        .(serverLock := None)
      else Answered(s, s.server, s.runtime, Refused(PublicationRejected, "")).(serverLock := None)
  {
    var pc := RoutesRecord(publication, record, ok);
    GotoLast(s, pc, Done(NoContent));
    GotoLast(s, pc, Done(Refused(PublicationRejected, "")));
  }

  lemma {:induction false} PublishRuns(s: State, publication: Publication, record: ClaimRecord,
      operation: RouteRuntime.Operation, io: nat -> RouteRuntime.Io, k: nat) returns (m: nat)
    requires s.runtimeLock.None?
    ensures var (runtime, ok) := RouteRuntime.Complete(s.runtime, operation, io, k);
      RunAlone(With(s, RoutesRt(publication, record, operation)).(runtimeLock := Some(|s.handlers|)),
               |s.handlers|, io, k, m)
      == With(s, RoutesRecord(publication, record, ok)).(runtime := runtime)
  {
    var pc := RoutesRt(publication, record, operation);
    var entered := With(s, pc).(runtimeLock := Some(|s.handlers|));
    m := RunsToTheEnd(entered, |s.handlers|, io, k);
    var result := RouteRuntime.Complete(s.runtime, operation, io, k);
    GotoLast(s, pc, RoutesRecord(publication, record, result.1));
    assert Ended(entered, |s.handlers|, result)
        == With(s, RoutesRecord(publication, record, result.1)).(runtime := result.0);
  }

  lemma {:induction false} EnterThenPublish(s: State, publication: Publication, record: ClaimRecord,
      io: nat -> RouteRuntime.Io, k: nat, steps: nat, result: (RouteRuntime.Runtime, bool))
    requires s.runtimeLock.None? && ValidPublication(RouteRuntime.Normalised(publication))
    requires var next := RouteRuntime.WithPublication(s.runtime.publications, RouteRuntime.Normalised(publication));
      var pc := RoutesRt(publication, record, RouteRuntime.Operation(next, RouteRuntime.Write));
      RunAlone(With(s, pc).(runtimeLock := Some(|s.handlers|)), |s.handlers|, io, k + 1, steps)
      == With(s, RoutesRecord(publication, record, result.1)).(runtime := result.0)
    ensures RunAlone(With(s, RoutesRtWait(publication, record)), |s.handlers|, io, k, steps + 1)
         == With(s, RoutesRecord(publication, record, result.1)).(runtime := result.0)
  {
    var next := RouteRuntime.WithPublication(s.runtime.publications, RouteRuntime.Normalised(publication));
    var pc := RoutesRt(publication, record, RouteRuntime.Operation(next, RouteRuntime.Write));
    EnterPublish(s, publication, record, io(k));
    FirstThen(With(s, RoutesRtWait(publication, record)), With(s, pc).(runtimeLock := Some(|s.handlers|)),
      With(s, RoutesRecord(publication, record, result.1)).(runtime := result.0), |s.handlers|, io, k, steps);
  }

  lemma {:induction false} ValidPublishSection(s: State, publication: Publication, record: ClaimRecord,
      io: nat -> RouteRuntime.Io, k: nat) returns (m: nat)
    requires s.runtimeLock.None? && ValidPublication(RouteRuntime.Normalised(publication))
    ensures var next := RouteRuntime.WithPublication(s.runtime.publications, RouteRuntime.Normalised(publication));
      var operation := RouteRuntime.Operation(next, RouteRuntime.Write);
      var (runtime, ok) := RouteRuntime.Complete(s.runtime, operation, io, k + 1);
      RunAlone(With(s, RoutesRtWait(publication, record)), |s.handlers|, io, k, m)
      == With(s, RoutesRecord(publication, record, ok)).(runtime := runtime)
  {
    hide RunAlone, RouteRuntime.Complete;
    var next := RouteRuntime.WithPublication(s.runtime.publications, RouteRuntime.Normalised(publication));
    var operation := RouteRuntime.Operation(next, RouteRuntime.Write);
    var steps := PublishRuns(s, publication, record, operation, io, k + 1);
    m := steps + 1;
    EnterThenPublish(s, publication, record, io, k, steps,
      RouteRuntime.Complete(s.runtime, operation, io, k + 1));
  }

  /** Publish as a whole, from the moment the handler wants the runtime lock; `m` steps. */
  lemma {:induction false} PublishSection(s: State, publication: Publication, record: ClaimRecord,
      io: nat -> RouteRuntime.Io, k: nat) returns (m: nat)
    requires s.runtimeLock.None?
    ensures var (runtime, ok) := RouteRuntime.PublishResult(s.runtime, publication, From(io, k + 1));
      RunAlone(With(s, RoutesRtWait(publication, record)), |s.handlers|, io, k, m)
      == With(s, RoutesRecord(publication, record, ok)).(runtime := runtime)
  {
    if ValidPublication(RouteRuntime.Normalised(publication)) {
      m := ValidPublishSection(s, publication, record, io, k);
      PublishResultFrom(s.runtime, publication, io, k + 1);
    } else {
      m := 1;
      EnterPublish(s, publication, record, io(k));
      OneMoreStep(With(s, RoutesRtWait(publication, record)), |s.handlers|, io, k, 0);
    }
  }

  lemma {:induction false} PublishResultFrom(runtime: RouteRuntime.Runtime, publication: Publication,
      io: nat -> RouteRuntime.Io, k: nat)
    requires ValidPublication(RouteRuntime.Normalised(publication))
    ensures var next := RouteRuntime.WithPublication(runtime.publications, RouteRuntime.Normalised(publication));
      RouteRuntime.PublishResult(runtime, publication, From(io, k))
      == RouteRuntime.Complete(runtime, RouteRuntime.Operation(next, RouteRuntime.Write), io, k)
  {
    var next := RouteRuntime.WithPublication(runtime.publications, RouteRuntime.Normalised(publication));
    CompleteFrom(runtime, RouteRuntime.Operation(next, RouteRuntime.Write), io, k, 0);
  }

  /**
   What a publication does when it meets nobody, in the terms of ApiServer.HandleRoutes;
   `outcome` is what Publish does to the runtime if it is called.
   */
  ghost function PublicationResult(s: State, publication: Publication, outcome: (RouteRuntime.Runtime, bool)): State {
    match AdmitPublication(s.server, publication)
    case None => Answered(s, s.server, s.runtime, Refused(StaleTokenRejected, ""))
    case Some(record) =>
      if outcome.1 then
        Answered(s, s.server.(claims := s.server.claims[publication.host :=
                                record.(published := true, publication := publication)]), outcome.0, NoContent)
      else Answered(s, s.server, outcome.0, Refused(PublicationRejected, ""))
  }

  /** The steps around Publish, whatever it does. */
  lemma {:induction false} AroundPublish(s: State, publication: Publication, record: ClaimRecord,
      io: nat -> RouteRuntime.Io, m: nat, result: (RouteRuntime.Runtime, bool))
    requires s.serverLock.None? && AdmitPublication(s.server, publication) == Some(record)
    requires var locked := s.(serverLock := Some(|s.handlers|));
      RunAlone(With(locked, RoutesRtWait(publication, record)), |s.handlers|, io, 1, m)
      == With(locked, RoutesRecord(publication, record, result.1)).(runtime := result.0)
    ensures RunAlone(With(s, RoutesWait(publication)), |s.handlers|, io, 0, m + 2) ==
      if result.1 then
        Answered(s, s.server.(claims := s.server.claims[publication.host :=
                                record.(published := true, publication := publication)]), result.0, NoContent)
      else Answered(s, s.server, result.0, Refused(PublicationRejected, ""))
  {
    hide RunAlone;
    var h, start, locked := |s.handlers|, With(s, RoutesWait(publication)), s.(serverLock := Some(|s.handlers|));
    var recording := With(locked, RoutesRecord(publication, record, result.1)).(runtime := result.0);
    Admission(s, publication, io(0));
    FirstThen(start, With(locked, RoutesRtWait(publication, record)), recording, h, io, 0, m);
    AnswerPublication(locked.(runtime := result.0), publication, record, result.1, io(m + 1));
    ThenLast(start, recording, Apply(recording, Advance(h, "", io(m + 1))), h, io, 0, m + 1);
  }

  lemma {:induction false} RefusedPublicationAlone(s: State, publication: Publication, io: nat -> RouteRuntime.Io)
    requires s.serverLock.None? && AdmitPublication(s.server, publication).None?
    ensures RunAlone(With(s, RoutesWait(publication)), |s.handlers|, io, 0, 1)
      == Answered(s, s.server, s.runtime, Refused(StaleTokenRejected, ""))
  {
    Admission(s, publication, io(0));
    OneMoreStep(With(s, RoutesWait(publication)), |s.handlers|, io, 0, 0);
  }

  lemma {:induction false} AdmittedPublicationAlone(s: State, publication: Publication, io: nat -> RouteRuntime.Io)
      returns (n: nat)
    requires s.serverLock.None? && s.runtimeLock.None?
    ensures RunAlone(With(s, RoutesWait(publication)), |s.handlers|, io, 0, n)
         == PublicationResult(s, publication, RouteRuntime.PublishResult(s.runtime, publication, From(io, 2)))
  {
    hide RunAlone, RouteRuntime.PublishResult;
    match AdmitPublication(s.server, publication) {
      case None =>
        n := 1;
        RefusedPublicationAlone(s, publication, io);
      case Some(record) =>
        var m := PublishSection(s.(serverLock := Some(|s.handlers|)), publication, record, io, 1);
        n := m + 2;
        AroundPublish(s, publication, record, io, m,
          RouteRuntime.PublishResult(s.runtime, publication, From(io, 2)));
    }
  }

  /**
   A publication alone, from its arrival to its answer: the response, the claim table and
   the runtime that the contract of ApiServer.HandleRoutes gives, and the locks free again.
   */
  lemma {:induction false} PublicationAlone(s: State, request: Publication, io: nat -> RouteRuntime.Io)
      returns (n: nat)
    requires s.serverLock.None? && s.runtimeLock.None?
    ensures After(s, OnItsOwn(s, RoutesRequest(request), io, n)) ==
      if !s.hasRuntime then Answered(s, s.server, s.runtime, Refused(RouteRuntimeUnavailable, ""))
      else
        var publication := request.(host := CanonicalHost(request.host));
        PublicationResult(s, publication, RouteRuntime.PublishResult(s.runtime, publication, From(io, 2)))
  {
    if s.hasRuntime {
      n := AdmittedPublicationAlone(s, request.(host := CanonicalHost(request.host)), io);
    } else {
      n := 0;
    }
    OnItsOwnIs(s, RoutesRequest(request), io, n);
  }

  // Releases ------------------------------------------------------------------------

  /** The end of an admitted release, `outcome` being what Unpublish did to the runtime. */
  function Freed(s: State, release: Release, outcome: (RouteRuntime.Runtime, bool)): State {
    if outcome.1 then Answered(s, s.server.(claims := s.server.claims - {release.host}), outcome.0, NoContent)
    else Answered(s, s.server, outcome.0, Refused(PublicationRejected, ""))
  }

  /** What a release does when it meets nobody, in the terms of ApiServer.HandleRelease. */
  ghost function ReleaseResult(s: State, release: Release, io: nat -> RouteRuntime.Io): State {
    match AdmitRelease(s.server, release)
    case None => Answered(s, s.server, s.runtime, Refused(StaleTokenRejected, ""))
    case Some(record) =>
      Freed(s, release, if record.published && s.hasRuntime
                        then RouteRuntime.UnpublishResult(s.runtime, record.publication, io)
                        else (s.runtime, true))
  }

  lemma {:induction false} ReleaseAdmission(s: State, release: Release, io: RouteRuntime.Io)
    requires s.serverLock.None?
    ensures Apply(With(s, ReleaseWait(release)), Advance(|s.handlers|, "", io)) ==
      match AdmitRelease(s.server, release)
      case None => With(s, Done(Refused(StaleTokenRejected, "")))
      case Some(record) =>
        With(s, if record.published && s.hasRuntime then ReleaseRtWait(release, record)
                else ReleaseFinish(release, record, true))
        .(server := MarkReleasing(s.server, release, record))
  {
    var pc := ReleaseWait(release);
    GotoLast(s, pc, Done(Refused(StaleTokenRejected, "")));
    match AdmitRelease(s.server, release) {
      case None =>
      case Some(record) =>
        GotoLast(s, pc, ReleaseRtWait(release, record));
        GotoLast(s, pc, ReleaseFinish(release, record, true));
    }
  }

  lemma {:induction false} AnswerRelease(s: State, release: Release, record: ClaimRecord, ok: bool,
      io: RouteRuntime.Io)
    requires s.serverLock.None?
    ensures Apply(With(s, ReleaseFinish(release, record, ok)), Advance(|s.handlers|, "", io)) ==
      if ok then Answered(s, EndRelease(s.server, release), s.runtime, NoContent)
      else Answered(s, UndoRelease(s.server, release), s.runtime, Refused(PublicationRejected, ""))
  {
    var pc := ReleaseFinish(release, record, ok);
    GotoLast(s, pc, Done(NoContent));
    GotoLast(s, pc, Done(Refused(PublicationRejected, "")));
  }

  lemma {:induction false} EnterUnpublish(s: State, release: Release, record: ClaimRecord, io: RouteRuntime.Io)
    requires s.runtimeLock.None?
    ensures var next := RouteRuntime.WithoutHost(s.runtime.publications, record.publication);
      Apply(With(s, ReleaseRtWait(release, record)), Advance(|s.handlers|, "", io))
      == With(s, ReleaseRt(release, record, RouteRuntime.Operation(next, RouteRuntime.Write)))
         .(runtimeLock := Some(|s.handlers|))
  {
    var next := RouteRuntime.WithoutHost(s.runtime.publications, record.publication);
    GotoLast(s, ReleaseRtWait(release, record),
      ReleaseRt(release, record, RouteRuntime.Operation(next, RouteRuntime.Write)));
  }

  lemma {:induction false} UnpublishRuns(s: State, release: Release, record: ClaimRecord,
      operation: RouteRuntime.Operation, io: nat -> RouteRuntime.Io, k: nat) returns (m: nat)
    requires s.runtimeLock.None?
    ensures var (runtime, ok) := RouteRuntime.Complete(s.runtime, operation, io, k);
      RunAlone(With(s, ReleaseRt(release, record, operation)).(runtimeLock := Some(|s.handlers|)),
               |s.handlers|, io, k, m)
      == With(s, ReleaseFinish(release, record, ok)).(runtime := runtime)
  {
    var pc := ReleaseRt(release, record, operation);
    var entered := With(s, pc).(runtimeLock := Some(|s.handlers|));
    m := RunsToTheEnd(entered, |s.handlers|, io, k);
    var result := RouteRuntime.Complete(s.runtime, operation, io, k);
    GotoLast(s, pc, ReleaseFinish(release, record, result.1));
    assert Ended(entered, |s.handlers|, result)
        == With(s, ReleaseFinish(release, record, result.1)).(runtime := result.0);
  }

  lemma {:induction false} EnterThenUnpublish(s: State, release: Release, record: ClaimRecord,
      io: nat -> RouteRuntime.Io, k: nat, steps: nat, result: (RouteRuntime.Runtime, bool))
    requires s.runtimeLock.None?
    requires var next := RouteRuntime.WithoutHost(s.runtime.publications, record.publication);
      var pc := ReleaseRt(release, record, RouteRuntime.Operation(next, RouteRuntime.Write));
      RunAlone(With(s, pc).(runtimeLock := Some(|s.handlers|)), |s.handlers|, io, k + 1, steps)
      == With(s, ReleaseFinish(release, record, result.1)).(runtime := result.0)
    ensures RunAlone(With(s, ReleaseRtWait(release, record)), |s.handlers|, io, k, steps + 1)
         == With(s, ReleaseFinish(release, record, result.1)).(runtime := result.0)
  {
    var next := RouteRuntime.WithoutHost(s.runtime.publications, record.publication);
    var pc := ReleaseRt(release, record, RouteRuntime.Operation(next, RouteRuntime.Write));
    EnterUnpublish(s, release, record, io(k));
    FirstThen(With(s, ReleaseRtWait(release, record)), With(s, pc).(runtimeLock := Some(|s.handlers|)),
      With(s, ReleaseFinish(release, record, result.1)).(runtime := result.0), |s.handlers|, io, k, steps);
  }

  lemma {:induction false} UnpublishSteps(s: State, release: Release, record: ClaimRecord,
      io: nat -> RouteRuntime.Io, k: nat) returns (m: nat)
    requires s.runtimeLock.None?
    ensures var next := RouteRuntime.WithoutHost(s.runtime.publications, record.publication);
      var operation := RouteRuntime.Operation(next, RouteRuntime.Write);
      var (runtime, ok) := RouteRuntime.Complete(s.runtime, operation, io, k + 1);
      RunAlone(With(s, ReleaseRtWait(release, record)), |s.handlers|, io, k, m)
      == With(s, ReleaseFinish(release, record, ok)).(runtime := runtime)
  {
    hide RunAlone, RouteRuntime.Complete;
    var next := RouteRuntime.WithoutHost(s.runtime.publications, record.publication);
    var operation := RouteRuntime.Operation(next, RouteRuntime.Write);
    var steps := UnpublishRuns(s, release, record, operation, io, k + 1);
    m := steps + 1;
    EnterThenUnpublish(s, release, record, io, k, steps, RouteRuntime.Complete(s.runtime, operation, io, k + 1));
  }

  /** Unpublish as a whole, from the moment the handler wants the runtime lock; `m` steps. */
  lemma {:induction false} UnpublishSection(s: State, release: Release, record: ClaimRecord,
      io: nat -> RouteRuntime.Io, k: nat) returns (m: nat)
    requires s.runtimeLock.None?
    ensures var (runtime, ok) := RouteRuntime.UnpublishResult(s.runtime, record.publication, From(io, k + 1));
      RunAlone(With(s, ReleaseRtWait(release, record)), |s.handlers|, io, k, m)
      == With(s, ReleaseFinish(release, record, ok)).(runtime := runtime)
  {
    hide RunAlone;
    var next := RouteRuntime.WithoutHost(s.runtime.publications, record.publication);
    m := UnpublishSteps(s, release, record, io, k);
    CompleteFrom(s.runtime, RouteRuntime.Operation(next, RouteRuntime.Write), io, k + 1, 0);
  }

  /** The steps around Unpublish, whatever it does. */
  lemma {:induction false} AroundUnpublish(s: State, release: Release, record: ClaimRecord,
      io: nat -> RouteRuntime.Io, m: nat, result: (RouteRuntime.Runtime, bool))
    requires s.serverLock.None? && AdmitRelease(s.server, release) == Some(record)
    requires record.published && s.hasRuntime
    requires var marked := s.(server := MarkReleasing(s.server, release, record));
      RunAlone(With(marked, ReleaseRtWait(release, record)), |s.handlers|, io, 1, m)
      == With(marked, ReleaseFinish(release, record, result.1)).(runtime := result.0)
    ensures RunAlone(With(s, ReleaseWait(release)), |s.handlers|, io, 0, m + 2) == Freed(s, release, result)
  {
    hide RunAlone;
    var h, start := |s.handlers|, With(s, ReleaseWait(release));
    var marked := s.(server := MarkReleasing(s.server, release, record));
    var finishing := With(marked, ReleaseFinish(release, record, result.1)).(runtime := result.0);
    ReleaseAdmission(s, release, io(0));
    FirstThen(start, With(marked, ReleaseRtWait(release, record)), finishing, h, io, 0, m);
    AnswerRelease(marked.(runtime := result.0), release, record, result.1, io(m + 1));
    MarkThenFinish(s.server, release);
    ThenLast(start, finishing, Apply(finishing, Advance(h, "", io(m + 1))), h, io, 0, m + 1);
  }

  lemma {:induction false} UnpublishedReleaseAlone(s: State, release: Release, record: ClaimRecord,
      io: nat -> RouteRuntime.Io)
    requires s.serverLock.None? && AdmitRelease(s.server, release) == Some(record)
    requires !record.published || !s.hasRuntime
    ensures RunAlone(With(s, ReleaseWait(release)), |s.handlers|, io, 0, 2)
      == Freed(s, release, (s.runtime, true))
  {
    var h, start := |s.handlers|, With(s, ReleaseWait(release));
    var marked := s.(server := MarkReleasing(s.server, release, record));
    var finishing := With(marked, ReleaseFinish(release, record, true));
    ReleaseAdmission(s, release, io(0));
    OneMoreStep(start, h, io, 0, 0);
    AnswerRelease(marked, release, record, true, io(1));
    MarkThenFinish(s.server, release);
    ThenLast(start, finishing, Apply(finishing, Advance(h, "", io(1))), h, io, 0, 1);
  }

  lemma {:induction false} PublishedReleaseAlone(s: State, release: Release, record: ClaimRecord,
      io: nat -> RouteRuntime.Io) returns (n: nat)
    requires s.serverLock.None? && s.runtimeLock.None? && AdmitRelease(s.server, release) == Some(record)
    requires record.published && s.hasRuntime
    ensures RunAlone(With(s, ReleaseWait(release)), |s.handlers|, io, 0, n)
      == Freed(s, release, RouteRuntime.UnpublishResult(s.runtime, record.publication, From(io, 2)))
  {
    hide RunAlone, RouteRuntime.UnpublishResult;
    var marked := s.(server := MarkReleasing(s.server, release, record));
    var m := UnpublishSection(marked, release, record, io, 1);
    n := m + 2;
    AroundUnpublish(s, release, record, io, m,
      RouteRuntime.UnpublishResult(s.runtime, record.publication, From(io, 2)));
  }

  lemma {:induction false} RefusedReleaseAlone(s: State, release: Release, io: nat -> RouteRuntime.Io)
    requires s.serverLock.None? && AdmitRelease(s.server, release).None?
    ensures RunAlone(With(s, ReleaseWait(release)), |s.handlers|, io, 0, 1)
      == Answered(s, s.server, s.runtime, Refused(StaleTokenRejected, ""))
  {
    ReleaseAdmission(s, release, io(0));
    OneMoreStep(With(s, ReleaseWait(release)), |s.handlers|, io, 0, 0);
  }

  lemma {:induction false} AdmittedReleaseAlone(s: State, release: Release, io: nat -> RouteRuntime.Io)
      returns (n: nat)
    requires s.serverLock.None? && s.runtimeLock.None?
    ensures RunAlone(With(s, ReleaseWait(release)), |s.handlers|, io, 0, n)
         == ReleaseResult(s, release, From(io, 2))
  {
    match AdmitRelease(s.server, release) {
      case None =>
        n := 1;
        RefusedReleaseAlone(s, release, io);
      case Some(record) =>
        if record.published && s.hasRuntime {
          n := PublishedReleaseAlone(s, release, record, io);
        } else {
          n := 2;
          UnpublishedReleaseAlone(s, release, record, io);
        }
    }
  }

  /** A release alone: what the contract of ApiServer.HandleRelease gives. */
  lemma {:induction false} ReleaseAlone(s: State, request: Release, io: nat -> RouteRuntime.Io) returns (n: nat)
    requires s.serverLock.None? && s.runtimeLock.None?
    ensures After(s, OnItsOwn(s, ReleaseRequest(request), io, n))
         == ReleaseResult(s, request.(host := CanonicalHost(request.host)), From(io, 2))
  {
    n := AdmittedReleaseAlone(s, request.(host := CanonicalHost(request.host)), io);
    OnItsOwnIs(s, ReleaseRequest(request), io, n);
  }
}
