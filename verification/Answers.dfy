/**
 What each request is answered, over every schedule: the history of its own steps decides,
 and the claim table changes with the answer.
 */
module Answers {
  import opened Text
  import opened ControlPlane
  import opened Hosts
  import opened Caddyfile
  import opened RouteRuntime
  import opened Daemon
  import opened Protocol
  import opened ProtocolInvariant
  import opened Agreement
  import opened Fencing

  /** The requests of a schedule in the order of their arrival; handler `h` serves the `h`-th. */
  function RequestsOf(events: seq<Event>): seq<Request> {
    if events == [] then []
    else
      var n := |events| - 1;
      RequestsOf(events[..n]) + (if events[n].Arrive? then [events[n].request] else [])
  }

  /** Handler `h` takes its next step. */
  predicate Moves(s: State, event: Event, h: nat) {
    event.Advance? && event.h == h && Enabled(s, h)
  }

  /** The step in which a publication is let in: it says what the live record of its host says. */
  predicate LetsPublicationIn(s: State, event: Event, h: nat) {
    && Moves(s, event, h) && s.handlers[h].RoutesWait?
    && var publication := s.handlers[h].publication;
       && publication.host in s.server.claims
       && var record := s.server.claims[publication.host];
          && !record.releasing
          && publication == Publication(record.claim.name, record.claim.host, record.claim.projectDir,
                                        record.claim.sessionId, record.claim.routes, record.token, record.generation)
  }

  predicate LetsReleaseIn(s: State, event: Event, h: nat) {
    && Moves(s, event, h) && s.handlers[h].ReleaseWait?
    && var release := s.handlers[h].release;
       && release.host in s.server.claims
       && var record := s.server.claims[release.host];
          && !record.releasing
          && release == Release(record.claim.name, record.claim.host, record.claim.projectDir,
                                record.claim.sessionId, record.token, record.generation)
  }

  /** The same when there is a published route to take down. */
  predicate LetsUnpublish(s: State, event: Event, h: nat) {
    && LetsReleaseIn(s, event, h) && s.hasRuntime
    && s.server.claims[s.handlers[h].release.host].published
  }

  /** The step in which a reload made for handler `h` succeeds. */
  predicate Reloads(s: State, event: Event, h: nat) {
    && Moves(s, event, h) && (s.handlers[h].RoutesRt? || s.handlers[h].ReleaseRt?)
    && s.handlers[h].operation.phase.Reload? && event.io.ok
  }

  /** The step in which a claim is granted: its host is free, or held and not being released by its own session. */
  predicate GrantsClaim(s: State, event: Event, h: nat) {
    && Moves(s, event, h) && s.handlers[h].ClaimWait?
    && var claim := s.handlers[h].claim;
       claim.host in s.server.claims ==>
         var record := s.server.claims[claim.host];
         record.claim.projectDir == claim.projectDir && record.claim.sessionId == claim.sessionId && !record.releasing
  }

  datatype Mark = ClaimIn | PublicationIn | ReleaseIn | UnpublishIn | ReloadOk

  predicate Takes(s: State, event: Event, h: nat, mark: Mark) {
    match mark
    case ClaimIn => GrantsClaim(s, event, h)
    case PublicationIn => LetsPublicationIn(s, event, h)
    case ReleaseIn => LetsReleaseIn(s, event, h)
    case UnpublishIn => LetsUnpublish(s, event, h)
    case ReloadOk => Reloads(s, event, h)
  }

  /** Some event of the schedule was this step of handler `h`. */
  ghost predicate Took(s0: State, events: seq<Event>, h: nat, mark: Mark) {
    events != [] &&
    var n := |events| - 1;
    Took(s0, events[..n], h, mark) || Takes(After(s0, events[..n]), events[n], h, mark)
  }

  /** The answer to a publication, by what happened to it. */
  function PublicationAnswer(hasRuntime: bool, letIn: bool, reloaded: bool): Response {
    if !hasRuntime then Refused(RouteRuntimeUnavailable, "")
    else if !letIn then Refused(StaleTokenRejected, "")
    else if reloaded then NoContent
    else Refused(PublicationRejected, "")
  }

  function ReleaseAnswer(letIn: bool, unpublishes: bool, reloaded: bool): Response {
    if !letIn then Refused(StaleTokenRejected, "")
    else if unpublishes && !reloaded then Refused(PublicationRejected, "")
    else NoContent
  }

  /** Where the handler of a publication stands, given its history. */
  predicate PublicationAt(pc: Pc, publication: Publication, hasRuntime: bool, letIn: bool, reloaded: bool) {
    && (reloaded ==> letIn)
    && match pc
       case RoutesWait(own) => own == publication && hasRuntime && !letIn
       case RoutesRtWait(own, _) => own == publication && hasRuntime && letIn && !reloaded
       case RoutesRt(own, _, _) => own == publication && hasRuntime && letIn && !reloaded
       case RoutesRecord(own, _, ok) => own == publication && hasRuntime && letIn && (ok <==> reloaded)
       case Done(response) => response == PublicationAnswer(hasRuntime, letIn, reloaded)
       case _ => false
  }

  predicate ReleaseAt(pc: Pc, release: Release, letIn: bool, unpublishes: bool, reloaded: bool) {
    && (reloaded ==> unpublishes) && (unpublishes ==> letIn)
    && match pc
       case ReleaseWait(own) => own == release && !letIn
       case ReleaseRtWait(own, _) => own == release && unpublishes && !reloaded
       case ReleaseRt(own, _, _) => own == release && unpublishes && !reloaded
       case ReleaseFinish(own, _, ok) => own == release && letIn && (ok <==> !unpublishes || reloaded)
       case Done(response) => response == ReleaseAnswer(letIn, unpublishes, reloaded)
       case _ => false
  }

  /** The answer to a claim, but for the receipt or the holder that it names. */
  predicate ClaimAnswer(response: Response, request: Claim, granted: bool) {
    if request.host == "" then response == Refused(HostClaimConflict, "")
    else if request.sessionId == "" then response == Refused(LeaseRejected, "")
    else if granted then response.Receipt?
    else response.Refused? && response.code == HostClaimConflict
  }

  predicate ClaimAt(pc: Pc, request: Claim, granted: bool) {
    match pc
    case ClaimWait(own) =>
      && own == request.(host := CanonicalHost(request.host)) && !granted
      && request.host != "" && request.sessionId != ""
    case Done(response) => ClaimAnswer(response, request, granted)
    case _ => false
  }

  ghost predicate StandsAt(s0: State, events: seq<Event>, h: nat, request: Request) {
    var s := After(s0, events);
    h < |s.handlers| &&
    match request
    case ClaimRequest(claim) => ClaimAt(s.handlers[h], claim, Took(s0, events, h, ClaimIn))
    case RoutesRequest(publication) =>
      PublicationAt(s.handlers[h], publication.(host := CanonicalHost(publication.host)), s.hasRuntime,
                    Took(s0, events, h, PublicationIn), Took(s0, events, h, ReloadOk))
    case ReleaseRequest(release) =>
      ReleaseAt(s.handlers[h], release.(host := CanonicalHost(release.host)),
                Took(s0, events, h, ReleaseIn), Took(s0, events, h, UnpublishIn), Took(s0, events, h, ReloadOk))
  }

  // One step ------------------------------------------------------------------------

  lemma {:induction false} PublicationMoves(s: State, event: Event, h: nat, publication: Publication,
      letIn: bool, reloaded: bool)
    requires Moves(s, event, h) && PublicationAt(s.handlers[h], publication, s.hasRuntime, letIn, reloaded)
    ensures var t := Apply(s, event);
      h < |t.handlers|
      && PublicationAt(t.handlers[h], publication, s.hasRuntime, letIn || LetsPublicationIn(s, event, h),
                       reloaded || Reloads(s, event, h))
  {}

  lemma {:induction false} ReleaseMoves(s: State, event: Event, h: nat, release: Release,
      letIn: bool, unpublishes: bool, reloaded: bool)
    requires Moves(s, event, h) && ReleaseAt(s.handlers[h], release, letIn, unpublishes, reloaded)
    ensures var t := Apply(s, event);
      h < |t.handlers|
      && ReleaseAt(t.handlers[h], release, letIn || LetsReleaseIn(s, event, h),
                   unpublishes || LetsUnpublish(s, event, h), reloaded || Reloads(s, event, h))
  {}

  lemma {:induction false} ClaimMoves(s: State, event: Event, h: nat, request: Claim, granted: bool)
    requires Moves(s, event, h) && ClaimAt(s.handlers[h], request, granted)
    ensures var t := Apply(s, event);
      h < |t.handlers| && ClaimAt(t.handlers[h], request, granted || GrantsClaim(s, event, h))
  {}

  lemma Arrival(s: State, request: Request)
    ensures Apply(s, Arrive(request)).handlers == s.handlers + [Entry(s.hasRuntime, request)]
    ensures Apply(s, Arrive(request)).hasRuntime == s.hasRuntime
  {}

  lemma {:induction false} HandlersStay(s: State, event: Event)
    requires event.Advance?
    ensures |Apply(s, event).handlers| == |s.handlers| && Apply(s, event).hasRuntime == s.hasRuntime
    ensures !Enabled(s, event.h) ==> Apply(s, event) == s
  {}

  /** Events of others leave a handler where it is. */
  lemma {:induction false} OthersLeaveIt(s: State, event: Event, h: nat)
    requires h < |s.handlers| && !Moves(s, event, h)
    ensures h < |Apply(s, event).handlers| && Apply(s, event).handlers[h] == s.handlers[h]
    ensures Apply(s, event).hasRuntime == s.hasRuntime
  {
    match event
    case Arrive(request) => Arrival(s, request);
    case Advance(g, token, io) =>
      HandlersStay(s, event);
      if Enabled(s, g) { StepMovesOne(s, g, token, io); }
  }

  lemma {:induction false} TookAfterOne(s0: State, events: seq<Event>, event: Event, h: nat, mark: Mark)
    ensures Took(s0, events + [event], h, mark)
      <==> Took(s0, events, h, mark) || Takes(After(s0, events), event, h, mark)
  {
    assert (events + [event])[..|events|] == events;
  }

  lemma {:induction false} AfterLastEvent(s0: State, events: seq<Event>)
    requires events != []
    ensures var n := |events| - 1; After(s0, events) == Apply(After(s0, events[..n]), events[n])
  {}

  /** Nothing has happened to a handler that is not there yet. */
  lemma {:induction false} NothingYet(s0: State, events: seq<Event>, h: nat, mark: Mark)
    requires |After(s0, events).handlers| <= h
    ensures !Took(s0, events, h, mark)
  {
    hide Apply, After;
    if events != [] {
      var n := |events| - 1;
      var s := After(s0, events[..n]);
      AfterLastEvent(s0, events);
      match events[n] {
        case Arrive(request) => Arrival(s, request);
        case Advance(_, _, _) => HandlersStay(s, events[n]);
      }
      NothingYet(s0, events[..n], h, mark);
    }
  }

  /** The step of one handler, whatever it serves. */
  lemma {:induction false} StandsAfter(s0: State, events: seq<Event>, event: Event, h: nat, request: Request)
    requires StandsAt(s0, events, h, request)
    ensures StandsAt(s0, events + [event], h, request)
  {
    hide Apply, After, Took;
    var s := After(s0, events);
    TookAfterOne(s0, events, event, h, ClaimIn);
    TookAfterOne(s0, events, event, h, PublicationIn);
    TookAfterOne(s0, events, event, h, ReleaseIn);
    TookAfterOne(s0, events, event, h, UnpublishIn);
    TookAfterOne(s0, events, event, h, ReloadOk);
    AfterLastEvent(s0, events + [event]);
    assert (events + [event])[..|events|] == events;
    if Moves(s, event, h) {
      HandlersStay(s, event);
      match request {
        case ClaimRequest(claim) => ClaimMoves(s, event, h, claim, Took(s0, events, h, ClaimIn));
        case RoutesRequest(publication) =>
          PublicationMoves(s, event, h, publication.(host := CanonicalHost(publication.host)),
            Took(s0, events, h, PublicationIn), Took(s0, events, h, ReloadOk));
        case ReleaseRequest(release) =>
          ReleaseMoves(s, event, h, release.(host := CanonicalHost(release.host)),
            Took(s0, events, h, ReleaseIn), Took(s0, events, h, UnpublishIn), Took(s0, events, h, ReloadOk));
      }
    } else {
      OthersLeaveIt(s, event, h);
    }
  }

  lemma {:induction false} StandsOnArrival(s0: State, events: seq<Event>, request: Request)
    ensures StandsAt(s0, events + [Arrive(request)], |After(s0, events).handlers|, request)
  {
    hide Apply, After, Took;
    var s, event, h := After(s0, events), Arrive(request), |After(s0, events).handlers|;
    Arrival(s, request);
    AfterLastEvent(s0, events + [event]);
    assert (events + [event])[..|events|] == events;
    forall mark ensures !Took(s0, events + [event], h, mark) {
      NothingYet(s0, events, h, mark);
      TookAfterOne(s0, events, event, h, mark);
    }
  }

  /** Every handler stands where its request and its own history put it. */
  lemma {:induction false} EveryoneStands(s0: State, events: seq<Event>)
    requires Initial(s0)
    ensures |After(s0, events).handlers| == |RequestsOf(events)|
    ensures forall h: nat :: h < |RequestsOf(events)| ==> StandsAt(s0, events, h, RequestsOf(events)[h])
  {
    if events == [] {
      return;
    }
    hide Apply, After, StandsAt;
    var n := |events| - 1;
    var s := After(s0, events[..n]);
    assert events == events[..n] + [events[n]];
    EveryoneStands(s0, events[..n]);
    AfterLastEvent(s0, events);
    match events[n] {
      case Arrive(request) =>
        Arrival(s, request);
        StandsOnArrival(s0, events[..n], request);
      case Advance(_, _, _) => HandlersStay(s, events[n]);
    }
    forall h: nat | h < |RequestsOf(events)| ensures StandsAt(s0, events, h, RequestsOf(events)[h]) {
      if h < |s.handlers| { StandsAfter(s0, events[..n], events[n], h, RequestsOf(events)[h]); }
    }
  }

  // The theorems --------------------------------------------------------------------

  /**
   Whatever the schedule, a publication is answered by its own history alone: that the
   runtime is missing, that it is stale if it never matched a live record when it asked,
   NoContent if and only if one of its reloads succeeded, and otherwise that it is rejected.
   */
  lemma {:induction false} PublicationsAreAnsweredExactly(s0: State, events: seq<Event>, h: nat)
    requires Initial(s0) && h < |RequestsOf(events)| && RequestsOf(events)[h].RoutesRequest?
    requires h < |After(s0, events).handlers| && After(s0, events).handlers[h].Done?
    ensures After(s0, events).handlers[h].response ==
      if !After(s0, events).hasRuntime then Refused(RouteRuntimeUnavailable, "")
      else if !Took(s0, events, h, PublicationIn) then Refused(StaleTokenRejected, "")
      else if Took(s0, events, h, ReloadOk) then NoContent
      else Refused(PublicationRejected, "")
  {
    hide Apply, After, Took;
    EveryoneStands(s0, events);
  }

  /**
   A release is stale if it never matched a live record when it asked; it is rejected if and
   only if it had a route to take down and none of its reloads succeeded.
   */
  lemma {:induction false} ReleasesAreAnsweredExactly(s0: State, events: seq<Event>, h: nat)
    requires Initial(s0) && h < |RequestsOf(events)| && RequestsOf(events)[h].ReleaseRequest?
    requires h < |After(s0, events).handlers| && After(s0, events).handlers[h].Done?
    ensures After(s0, events).handlers[h].response ==
      if !Took(s0, events, h, ReleaseIn) then Refused(StaleTokenRejected, "")
      else if Took(s0, events, h, UnpublishIn) && !Took(s0, events, h, ReloadOk) then Refused(PublicationRejected, "")
      else NoContent
  {
    hide Apply, After, Took;
    EveryoneStands(s0, events);
  }

  /**
   A claim without a host or a session is refused as such; any other gets a receipt if its
   host was free when it asked, or held by its own session, and else the conflict.
   */
  lemma {:induction false} ClaimsAreAnsweredExactly(s0: State, events: seq<Event>, h: nat)
    requires Initial(s0) && h < |RequestsOf(events)| && RequestsOf(events)[h].ClaimRequest?
    requires h < |After(s0, events).handlers| && After(s0, events).handlers[h].Done?
    ensures var request, response := RequestsOf(events)[h].claim, After(s0, events).handlers[h].response;
      if request.host == "" then response == Refused(HostClaimConflict, "")
      else if request.sessionId == "" then response == Refused(LeaseRejected, "")
      else if Took(s0, events, h, ClaimIn) then response.Receipt?
      else response.Refused? && response.code == HostClaimConflict
  {
    hide Apply, After, Took;
    EveryoneStands(s0, events);
  }

  // What an answer does to the tables -------------------------------------------------

  lemma {:induction false} PublicationAnswerStep(s: State, event: Event, h: nat, publication: Publication,
      letIn: bool, reloaded: bool)
    requires HandlersOk(s) && Moves(s, event, h)
    requires PublicationAt(s.handlers[h], publication, s.hasRuntime, letIn, reloaded)
    ensures var t := Apply(s, event);
      h < |t.handlers| && if t.handlers[h] == Done(NoContent) then
        && publication.host in s.server.claims
        && var record := s.server.claims[publication.host];
           && publication == Publication(record.claim.name, record.claim.host, record.claim.projectDir,
                                         record.claim.sessionId, record.claim.routes, record.token, record.generation)
           && t.server == s.server.(claims := s.server.claims[publication.host :=
                                      record.(published := true, publication := publication)])
      else t.server == s.server
  {
    assert HandlerOk(s, s.handlers[h]);
  }

  /**
   Over every schedule: the step that answers a publication NoContent is the one in which
   its own record, which still says what the publication says, becomes published with it,
   and no other step taken for a publication touches the claim table.
   */
  lemma {:induction false} PublicationsAreRecorded(s0: State, events: seq<Event>, event: Event, h: nat)
    requires Initial(s0) && |events| <= MAX_INT64
    requires h < |RequestsOf(events)| && RequestsOf(events)[h].RoutesRequest? && Moves(After(s0, events), event, h)
    ensures var s, t := After(s0, events), Apply(After(s0, events), event);
      var request := RequestsOf(events)[h].publication;
      var publication := request.(host := CanonicalHost(request.host));
      h < |t.handlers| && if t.handlers[h] == Done(NoContent) then
        && publication.host in s.server.claims
        && var record := s.server.claims[publication.host];
           && publication == Publication(record.claim.name, record.claim.host, record.claim.projectDir,
                                         record.claim.sessionId, record.claim.routes, record.token, record.generation)
           && t.server == s.server.(claims := s.server.claims[publication.host :=
                                      record.(published := true, publication := publication)])
      else t.server == s.server
  {
    hide Apply, After, Took;
    var request := RequestsOf(events)[h].publication;
    EveryoneStands(s0, events);
    ReachableInv(s0, events);
    PublicationAnswerStep(After(s0, events), event, h, request.(host := CanonicalHost(request.host)),
      Took(s0, events, h, PublicationIn), Took(s0, events, h, ReloadOk));
  }

  /** The reload that succeeds commits exactly what its request asks for, and loads the file that says so. */
  lemma {:induction false} ReloadCommits(s: State, event: Event, h: nat)
    requires Inv(s) && Reloads(s, event, h)
    ensures var runtime := Apply(s, event).runtime;
      && runtime.publications == (match s.handlers[h]
           case RoutesRt(publication, _, _) =>
             var host := CanonicalHost(publication.host);
             s.runtime.publications[host := publication.(host := host)]
           case ReleaseRt(_, record, _) => s.runtime.publications - {CanonicalHost(record.publication.host)}
           case _ => s.runtime.publications)
      && runtime.loaded == s.runtime.file
      && Render(runtime.publications, runtime.upstreamHost) == Success(runtime.loaded)
  {
    assert OperationOk(s, s.handlers[h]);
  }

  lemma {:induction false} StepKeeps(runtime: Runtime, operation: Operation, io: Io)
    requires !operation.phase.Reload? || !io.ok
    ensures var after := Step(runtime, operation, io).0;
      after.publications == runtime.publications && after.loaded == runtime.loaded
  {}

  /** Nothing else changes the committed table or the loaded configuration. */
  lemma {:induction false} OnlyReloadsCommit(s: State, event: Event)
    requires var after := Apply(s, event).runtime;
      after.publications != s.runtime.publications || after.loaded != s.runtime.loaded
    ensures event.Advance? && Reloads(s, event, event.h)
  {
    hide Step;
    if event.Advance? && Enabled(s, event.h) && !Reloads(s, event, event.h) && HoldsRuntime(s.handlers[event.h]) {
      StepKeeps(s.runtime, s.handlers[event.h].operation, event.io);
    }
  }

  /**
   Over every schedule a record is deleted only for a release that somebody sent and that
   carries the record's token and generation along with its name, host, directory and session.
   */
  lemma {:induction false} DeletionsAreAskedFor(s0: State, events: seq<Event>, event: Event, host: string)
    requires Initial(s0) && |events| <= MAX_INT64
    requires host in After(s0, events).server.claims && host !in Apply(After(s0, events), event).server.claims
    ensures event.Advance? && event.h < |RequestsOf(events)| && RequestsOf(events)[event.h].ReleaseRequest?
    ensures var record := After(s0, events).server.claims[host];
      var release := RequestsOf(events)[event.h].release;
      release.(host := CanonicalHost(release.host))
      == Release(record.claim.name, record.claim.host, record.claim.projectDir, record.claim.sessionId,
                 record.token, record.generation)
  {
    hide Apply, After, Took;
    EveryoneStands(s0, events);
    ReachableInv(s0, events);
    OnlyTheOwnReleaseEndsARecord(After(s0, events), event, host);
    assert StandsAt(s0, events, event.h, RequestsOf(events)[event.h]);
  }
}
