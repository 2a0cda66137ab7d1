/**
 The daemon as a transition system: any number of handlers in flight, the server mutex,
 the runtime mutex, and every runtime call free to succeed or to fail. One step is one
 section that the source performs without letting go of a lock in between.
 */
module Protocol {
  import opened Text
  import opened ControlPlane
  import opened Hosts
  import opened Caddyfile
  import opened RouteRuntime
  import opened Daemon

  /** Where a handler stands. The record is the copy that the handler keeps. */
  datatype Pc =
    | ClaimWait(claim: Claim)                                                    // wants the server lock
    | RoutesWait(publication: Publication)                                       // wants the server lock
    | RoutesRtWait(publication: Publication, record: ClaimRecord)                // holds server, wants runtime
    | RoutesRt(publication: Publication, record: ClaimRecord, operation: Operation) // holds both
    | RoutesRecord(publication: Publication, record: ClaimRecord, ok: bool)      // holds server
    | ReleaseWait(release: Release)                                              // wants the server lock
    | ReleaseRtWait(release: Release, record: ClaimRecord)                       // wants the runtime lock
    | ReleaseRt(release: Release, record: ClaimRecord, operation: Operation)     // holds runtime
    | ReleaseFinish(release: Release, record: ClaimRecord, ok: bool)             // wants the server lock
    | Done(response: Response)

  datatype State = State(
    server: Server, serverLock: Option<nat>,
    runtime: Runtime, runtimeLock: Option<nat>,
    hasRuntime: bool, handlers: seq<Pc>)

  /** A request arrives, or handler `h` takes its next step meeting `io`; `token` is used by a new claim. */
  datatype Event = Arrive(request: Request) | Advance(h: nat, token: string, io: Io)

  /** What a handler does before it first asks for a lock. */
  function Entry(hasRuntime: bool, request: Request): Pc {
    match request
    case ClaimRequest(claim) =>
      (match ClaimPrecheck(claim)
       case Some(response) => Done(response)
       case None => ClaimWait(claim.(host := CanonicalHost(claim.host))))
    case RoutesRequest(publication) =>
      if !hasRuntime then Done(Refused(RouteRuntimeUnavailable, ""))
      else RoutesWait(publication.(host := CanonicalHost(publication.host)))
    case ReleaseRequest(release) => ReleaseWait(release.(host := CanonicalHost(release.host)))
  }

  predicate Enabled(s: State, h: nat) {
    h < |s.handlers| &&
    match s.handlers[h]
    case ClaimWait(_) => s.serverLock.None?
    case RoutesWait(_) => s.serverLock.None?
    case ReleaseWait(_) => s.serverLock.None?
    case ReleaseFinish(_, _, _) => s.serverLock.None?
    case RoutesRtWait(_, _) => s.runtimeLock.None?
    case ReleaseRtWait(_, _) => s.runtimeLock.None?
    case RoutesRt(_, _, _) => true
    case ReleaseRt(_, _, _) => true
    case RoutesRecord(_, _, _) => true
    case Done(_) => false
  }

  function Goto(s: State, h: nat, pc: Pc): State
    requires h < |s.handlers|
  {
    s.(handlers := s.handlers[h := pc])
  }

  function AdvanceClaim(s: State, h: nat, token: string): State
    requires h < |s.handlers| && s.handlers[h].ClaimWait?
  {
    var (server, response) := ClaimSection(s.server, s.handlers[h].claim, token);
    Goto(s, h, Done(response)).(server := server)
  }

  function AdvanceRoutesWait(s: State, h: nat): State
    requires h < |s.handlers| && s.handlers[h].RoutesWait?
  {
    var publication := s.handlers[h].publication;
    match AdmitPublication(s.server, publication)
    case None => Goto(s, h, Done(Refused(StaleTokenRejected, "")))
    case Some(record) => Goto(s, h, RoutesRtWait(publication, record)).(serverLock := Some(h))
  }

  /** Publish takes the runtime lock and validates; an invalid publication lets go of it at once. */
  function AdvanceRoutesRtWait(s: State, h: nat): State
    requires h < |s.handlers| && s.handlers[h].RoutesRtWait?
  {
    var pc := s.handlers[h];
    var normal := Normalised(pc.publication);
    if !ValidPublication(normal) then Goto(s, h, RoutesRecord(pc.publication, pc.record, false))
    else
      var operation := Operation(WithPublication(s.runtime.publications, normal), Write);
      Goto(s, h, RoutesRt(pc.publication, pc.record, operation)).(runtimeLock := Some(h))
  }

  ghost function AdvanceRoutesRt(s: State, h: nat, io: Io): State
    requires h < |s.handlers| && s.handlers[h].RoutesRt?
  {
    var pc := s.handlers[h];
    match Step(s.runtime, pc.operation, io)
    case (runtime, Running(next)) => Goto(s, h, RoutesRt(pc.publication, pc.record, next)).(runtime := runtime)
    case (runtime, Finished(ok)) =>
      Goto(s, h, RoutesRecord(pc.publication, pc.record, ok)).(runtime := runtime, runtimeLock := None)
  }

  function AdvanceRoutesRecord(s: State, h: nat): State
    requires h < |s.handlers| && s.handlers[h].RoutesRecord?
  {
    var pc := s.handlers[h];
    if pc.ok then
      Goto(s, h, Done(NoContent)).(serverLock := None, server := RecordPublication(s.server, pc.publication, pc.record))
    else
      Goto(s, h, Done(Refused(PublicationRejected, ""))).(serverLock := None)
  }

  function AdvanceReleaseWait(s: State, h: nat): State
    requires h < |s.handlers| && s.handlers[h].ReleaseWait?
  {
    var release := s.handlers[h].release;
    match AdmitRelease(s.server, release)
    case None => Goto(s, h, Done(Refused(StaleTokenRejected, "")))
    case Some(record) =>
      Goto(s, h, if record.published && s.hasRuntime then ReleaseRtWait(release, record)
                 else ReleaseFinish(release, record, true))
      .(server := MarkReleasing(s.server, release, record))
  }

  function AdvanceReleaseRtWait(s: State, h: nat): State
    requires h < |s.handlers| && s.handlers[h].ReleaseRtWait?
  {
    var pc := s.handlers[h];
    var operation := Operation(WithoutHost(s.runtime.publications, pc.record.publication), Write);
    Goto(s, h, ReleaseRt(pc.release, pc.record, operation)).(runtimeLock := Some(h))
  }

  ghost function AdvanceReleaseRt(s: State, h: nat, io: Io): State
    requires h < |s.handlers| && s.handlers[h].ReleaseRt?
  {
    var pc := s.handlers[h];
    match Step(s.runtime, pc.operation, io)
    case (runtime, Running(next)) => Goto(s, h, ReleaseRt(pc.release, pc.record, next)).(runtime := runtime)
    case (runtime, Finished(ok)) =>
      Goto(s, h, ReleaseFinish(pc.release, pc.record, ok)).(runtime := runtime, runtimeLock := None)
  }

  function AdvanceReleaseFinish(s: State, h: nat): State
    requires h < |s.handlers| && s.handlers[h].ReleaseFinish?
  {
    var pc := s.handlers[h];
    if pc.ok then Goto(s, h, Done(NoContent)).(server := EndRelease(s.server, pc.release))
    else Goto(s, h, Done(Refused(PublicationRejected, ""))).(server := UndoRelease(s.server, pc.release))
  }

  /** One event. An event that is not possible changes nothing, so every list of events is a schedule. */
  ghost function Apply(s: State, event: Event): State {
    match event
    case Arrive(request) => s.(handlers := s.handlers + [Entry(s.hasRuntime, request)])
    case Advance(h, token, io) =>
      if !Enabled(s, h) then s
      else match s.handlers[h]
        case ClaimWait(_) => AdvanceClaim(s, h, token)
        case RoutesWait(_) => AdvanceRoutesWait(s, h)
        case RoutesRtWait(_, _) => AdvanceRoutesRtWait(s, h)
        case RoutesRt(_, _, _) => AdvanceRoutesRt(s, h, io)
        case RoutesRecord(_, _, _) => AdvanceRoutesRecord(s, h)
        case ReleaseWait(_) => AdvanceReleaseWait(s, h)
        case ReleaseRtWait(_, _) => AdvanceReleaseRtWait(s, h)
        case ReleaseRt(_, _, _) => AdvanceReleaseRt(s, h, io)
        case ReleaseFinish(_, _, _) => AdvanceReleaseFinish(s, h)
        case Done(_) => s
  }

  /** The daemon right after a successful bootstrap. */
  ghost predicate Initial(s: State) {
    && s.server == Server(map[], 0)
    && s.serverLock.None? && s.runtimeLock.None?
    && s.runtime.publications == map[] && Settled(s.runtime)
    && s.handlers == []
  }

  /** The state after a schedule. */
  ghost function After(s0: State, events: seq<Event>): State {
    if events == [] then s0 else Apply(After(s0, events[..|events| - 1]), events[|events| - 1])
  }

  // The invariant ------------------------------------------------------------

  predicate HoldsServer(pc: Pc) { pc.RoutesRtWait? || pc.RoutesRt? || pc.RoutesRecord? }

  predicate HoldsRuntime(pc: Pc) { pc.RoutesRt? || pc.ReleaseRt? }

  predicate ReleaseInFlight(pc: Pc) { pc.ReleaseRtWait? || pc.ReleaseRt? || pc.ReleaseFinish? }

  /** Each lock is held by exactly the handler whose position says so. */
  ghost predicate LocksHeld(s: State) {
    && (s.serverLock.Some? ==> s.serverLock.value < |s.handlers|)
    && (s.runtimeLock.Some? ==> s.runtimeLock.value < |s.handlers|)
    && (forall h: nat :: h < |s.handlers| ==>
         (HoldsServer(s.handlers[h]) <==> s.serverLock == Some(h))
         && (HoldsRuntime(s.handlers[h]) <==> s.runtimeLock == Some(h)))
  }

  ghost predicate RecordOk(s: State, host: string) {
    host in s.server.claims &&
    var record := s.server.claims[host];
    && record.claim.host == host
    && 1 <= record.generation <= s.server.generation
    && (record.published ==>
          && s.hasRuntime && record.publication == PublicationFor(record)
          && ValidPublication(Normalised(record.publication)))
  }

  ghost predicate RecordsOk(s: State) {
    && 0 <= s.server.generation
    && forall host :: host in s.server.claims ==> RecordOk(s, host)
  }

  ghost predicate GenerationsDistinct(claims: map<string, ClaimRecord>) {
    forall a, b :: a in claims && b in claims && claims[a].generation == claims[b].generation ==> a == b
  }

  /** A handler that has been admitted still sees the record it was admitted with. */
  ghost predicate HandlerOk(s: State, pc: Pc) {
    && (pc.RoutesWait? ==> s.hasRuntime)
    && (HoldsServer(pc) ==>
         && s.hasRuntime && pc.publication.host in s.server.claims
         && s.server.claims[pc.publication.host] == pc.record
         && !pc.record.releasing && pc.publication == PublicationFor(pc.record))
    && (ReleaseInFlight(pc) ==>
         && pc.release.host in s.server.claims
         && s.server.claims[pc.release.host] == pc.record
         && pc.record.releasing && RecordMatchesRelease(pc.record, pc.release)
         && (!pc.ReleaseFinish? || !pc.ok ==> pc.record.published))
    && (pc.RoutesRecord? && pc.ok ==> ValidPublication(Normalised(pc.publication)))
  }

  ghost predicate HandlersOk(s: State) {
    forall h: nat :: h < |s.handlers| ==> HandlerOk(s, s.handlers[h])
  }

  ghost predicate Releases(s: State, h: nat, host: string) {
    h < |s.handlers| && ReleaseInFlight(s.handlers[h]) && s.handlers[h].release.host == host
  }

  /** Releasing records and releases in flight correspond one to one. */
  ghost predicate OneReleaseEach(s: State) {
    && (forall host :: host in s.server.claims && s.server.claims[host].releasing ==>
      exists h: nat :: Releases(s, h, host))
    && (forall g: nat, h: nat, host :: Releases(s, g, host) && Releases(s, h, host) ==> g == h)
  }

  /** The runtime between operations, and inside the one that holds its lock. */
  ghost predicate RuntimeOk(s: State) {
    && (s.runtimeLock.None? ==> Settled(s.runtime))
    && forall h: nat :: h < |s.handlers| && HoldsRuntime(s.handlers[h]) ==> OperationOk(s, s.handlers[h])
  }

  ghost predicate OperationOk(s: State, pc: Pc)
    requires HoldsRuntime(pc)
  {
    && Underway(s.runtime, pc.operation)
    && (pc.RoutesRt? ==>
         && ValidPublication(Normalised(pc.publication))
         && pc.operation.next == WithPublication(s.runtime.publications, Normalised(pc.publication)))
    && (pc.ReleaseRt? ==> pc.operation.next == WithoutHost(s.runtime.publications, pc.record.publication))
  }

  ghost predicate Inv(s: State) {
    && LocksHeld(s) && RecordsOk(s) && GenerationsDistinct(s.server.claims)
    && HandlersOk(s) && OneReleaseEach(s) && RuntimeOk(s)
  }
}
