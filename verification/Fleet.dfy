/**
 Any number of `up` runs with distinct sessions against one daemon. Each run makes its
 calls in the order that the module RunnerTheorems establishes, takes each answer or gives
 up on it, and is interleaved with the daemon's handlers and the other runs in any way.
 A request that was given up stays with the daemon and is handled like any other.
 */
module Fleet {
  import opened Text
  import opened ControlPlane
  import opened Hosts
  import opened RouteRuntime
  import opened Daemon
  import opened Protocol
  import opened ProtocolInvariant
  import opened Agreement

  /** Where a run stands with the daemon; `id` is the handler that serves its current call. */
  datatype Stage =
    | Idle
    | Claiming(id: nat)
    | Held(receipt: ClaimReceipt)
    | Publishing(id: nat, receipt: ClaimReceipt)
    | Answered(receipt: ClaimReceipt)           // the publication was answered, well or badly, or given up
    | Releasing(id: nat, receipt: ClaimReceipt)
    | Ended                                     // the claim was refused or the release acknowledged
    | Stuck(receipt: ClaimReceipt)              // the release was refused; it is not tried again
    | Orphaned(id: nat)                         // over, having given up on the claim
    | Abandoned(id: nat, receipt: ClaimReceipt) // over, having given up on the release

  /** `owner[id]` is the run that made the call served by handler `id`. */
  datatype Fleet = Fleet(daemon: State, runs: seq<Client>, stages: seq<Stage>, owner: seq<nat>)

  datatype FleetEvent =
    | Call(i: nat, publish: bool)   // run `i` makes its next call; from Held it may publish or give up
    | Return(i: nat)                // run `i` takes the answer of its call
    | GiveUp(i: nat)                // the context of its call ends first
    | Serve(h: nat, token: string, io: Io)

  function Key(r: Client): string { CanonicalHost(r.host) }

  ghost function Send(f: Fleet, i: nat, request: Request, stage: Stage): Fleet
    requires i < |f.stages|
  {
    f.(daemon := Apply(f.daemon, Arrive(request)), stages := f.stages[i := stage], owner := f.owner + [i])
  }

  /** The next call of a run, if it waits for nothing; from Held it may give up publishing. */
  function NextRequest(r: Client, stage: Stage, publish: bool): Option<Request> {
    match stage
    case Idle => Some(ClaimRequest(ClaimOf(r)))
    case Held(receipt) =>
      Some(if publish then RoutesRequest(PublicationOf(r, receipt)) else ReleaseRequest(ReleaseOf(r, receipt)))
    case Answered(receipt) => Some(ReleaseRequest(ReleaseOf(r, receipt)))
    case _ => None
  }

  /** The stage that waits for the answer from handler `id`. */
  function Waiting(stage: Stage, id: nat, publish: bool): Stage {
    match stage
    case Idle => Claiming(id)
    case Held(receipt) => if publish then Publishing(id, receipt) else Releasing(id, receipt)
    case Answered(receipt) => Releasing(id, receipt)
    case _ => stage
  }

  ghost function CallStep(f: Fleet, i: nat, publish: bool): Fleet
    requires i < |f.stages| && |f.runs| == |f.stages|
  {
    match NextRequest(f.runs[i], f.stages[i], publish)
    case None => f
    case Some(request) => Send(f, i, request, Waiting(f.stages[i], |f.daemon.handlers|, publish))
  }

  /** The stage after the answer of the current call, if it is there. */
  function Next(stage: Stage, handlers: seq<Pc>): Stage {
    match stage
    case Claiming(id) =>
      if id < |handlers| && handlers[id].Done? then
        (if handlers[id].response.Receipt? then Held(handlers[id].response.receipt) else Ended)
      else stage
    case Publishing(id, receipt) => if id < |handlers| && handlers[id].Done? then Answered(receipt) else stage
    case Releasing(id, receipt) =>
      if id < |handlers| && handlers[id].Done? then
        (if handlers[id].response == NoContent then Ended else Stuck(receipt))
      else stage
    case _ => stage
  }

  /** The stage after giving up. A run that gives up on its publication still releases. */
  function GivenUp(stage: Stage): Stage {
    match stage
    case Claiming(id) => Orphaned(id)
    case Publishing(_, receipt) => Answered(receipt)
    case Releasing(id, receipt) => Abandoned(id, receipt)
    case _ => stage
  }

  ghost function Step(f: Fleet, event: FleetEvent): Fleet {
    match event
    case Call(i, publish) => if i < |f.stages| && |f.runs| == |f.stages| then CallStep(f, i, publish) else f
    case Return(i) =>
      if i < |f.stages| then f.(stages := f.stages[i := Next(f.stages[i], f.daemon.handlers)]) else f
    case GiveUp(i) => if i < |f.stages| then f.(stages := f.stages[i := GivenUp(f.stages[i])]) else f
    case Serve(h, token, io) => f.(daemon := Apply(f.daemon, Advance(h, token, io)))
  }

  ghost predicate FleetInitial(f: Fleet) {
    && Initial(f.daemon) && |f.stages| == |f.runs| && f.owner == []
    && (forall i :: 0 <= i < |f.stages| ==> f.stages[i] == Idle)
    && DistinctSessions(f)
  }

  ghost predicate DistinctSessions(f: Fleet) {
    forall i, j :: 0 <= i < j < |f.runs| ==> f.runs[i].sessionId != f.runs[j].sessionId
  }

  ghost function AfterEvents(f0: Fleet, events: seq<FleetEvent>): Fleet {
    if events == [] then f0 else Step(AfterEvents(f0, events[..|events| - 1]), events[|events| - 1])
  }

  // The invariant ----------------------------------------------------------------

  /** The live record of the run's host is the run's own, with the receipt's token and generation. */
  ghost predicate HasRecord(f: Fleet, r: Client, receipt: ClaimReceipt) {
    var claims := f.daemon.server.claims;
    && Key(r) in claims
    && claims[Key(r)].claim == ClaimOf(r).(host := Key(r))
    && claims[Key(r)].token == receipt.token && claims[Key(r)].generation == receipt.generation
  }

  ghost predicate Owns(f: Fleet, r: Client, receipt: ClaimReceipt) {
    HasRecord(f, r, receipt) && !f.daemon.server.claims[Key(r)].releasing
  }

  predicate ServesRoutes(pc: Pc) { pc.RoutesWait? || HoldsServer(pc) }

  const STALE := Refused(StaleTokenRejected, "")

  ghost predicate Mine(f: Fleet, i: nat, id: nat) {
    id < |f.daemon.handlers| && id < |f.owner| && f.owner[id] == i
  }

  ghost predicate ClaimingOk(f: Fleet, r: Client, pc: Pc) {
    || pc == ClaimWait(ClaimOf(r).(host := Key(r)))
    || (pc.Done? && !pc.response.NoContent? && (pc.response.Receipt? ==> Owns(f, r, pc.response.receipt)))
  }

  ghost predicate PublishingOk(f: Fleet, r: Client, pc: Pc, receipt: ClaimReceipt) {
    && Owns(f, r, receipt)
    && ((ServesRoutes(pc) && pc.publication == PublicationOf(r, receipt).(host := Key(r)))
        || (pc.Done? && pc.response != STALE))
  }

  ghost predicate ReleasingOk(f: Fleet, r: Client, pc: Pc, receipt: ClaimReceipt) {
    var release := ReleaseOf(r, receipt).(host := Key(r));
    || (pc == ReleaseWait(release) && Owns(f, r, receipt))
    || (ReleaseInFlight(pc) && pc.release == release && HasRecord(f, r, receipt))
    || pc == Done(NoContent)
    || (pc == Done(Refused(PublicationRejected, "")) && Owns(f, r, receipt))
  }

  ghost predicate RunOk(f: Fleet, i: nat)
    requires i < |f.runs| == |f.stages|
  {
    var r, hs := f.runs[i], f.daemon.handlers;
    match f.stages[i]
    case Idle => true
    case Claiming(id) => Mine(f, i, id) && ClaimingOk(f, r, hs[id])
    case Held(receipt) => Owns(f, r, receipt)
    case Publishing(id, receipt) => Mine(f, i, id) && PublishingOk(f, r, hs[id], receipt)
    case Answered(receipt) => Owns(f, r, receipt)
    case Releasing(id, receipt) => Mine(f, i, id) && ReleasingOk(f, r, hs[id], receipt)
    case Ended => true
    case Stuck(receipt) => Owns(f, r, receipt)
    case Orphaned(id) => Mine(f, i, id) && ClaimingOk(f, r, hs[id])
    case Abandoned(id, receipt) => Mine(f, i, id) && ReleasingOk(f, r, hs[id], receipt)
  }

  /** A run that has not yet been given a claim. */
  predicate Fresh(stage: Stage, handlers: seq<Pc>) {
    || stage.Idle?
    || ((stage.Claiming? || stage.Orphaned?) && stage.id < |handlers| && handlers[stage.id].ClaimWait?)
  }

  ghost predicate RunsOk(f: Fleet) {
    |f.stages| == |f.runs| && forall i: nat :: i < |f.runs| ==> RunOk(f, i)
  }

  predicate ServedBy(stage: Stage, id: nat) {
    (stage.Claiming? || stage.Publishing? || stage.Releasing? || stage.Orphaned? || stage.Abandoned?) && stage.id == id
  }

  /** The session on whose behalf a handler changes the claim table. */
  function SessionOf(pc: Pc): string {
    match pc
    case ClaimWait(claim) => claim.sessionId
    case RoutesWait(publication) => publication.sessionId
    case RoutesRtWait(publication, _) => publication.sessionId
    case RoutesRt(publication, _, _) => publication.sessionId
    case RoutesRecord(publication, _, _) => publication.sessionId
    case ReleaseWait(release) => release.sessionId
    case ReleaseRtWait(release, _) => release.sessionId
    case ReleaseRt(release, _, _) => release.sessionId
    case ReleaseFinish(release, _, _) => release.sessionId
    case Done(_) => ""
  }

  /** A publication that its run has given up on. */
  predicate LeftBehind(stage: Stage, pc: Pc) {
    ServesRoutes(pc) && (stage.Answered? || stage.Releasing? || stage.Ended? || stage.Stuck? || stage.Abandoned?)
  }

  /** An unfinished handler works for its owner: on its last call, or on a publication left behind. */
  ghost predicate WorksFor(f: Fleet, id: nat)
    requires id < |f.daemon.handlers| && id < |f.owner| && |f.stages| == |f.runs|
  {
    var i, pc := f.owner[id], f.daemon.handlers[id];
    i < |f.runs| && (!pc.Done? ==>
      && (ServedBy(f.stages[i], id) || LeftBehind(f.stages[i], pc))
      && SessionOf(pc) == f.runs[i].sessionId
      && (pc.ClaimWait? ==> pc.claim == ClaimOf(f.runs[i]).(host := Key(f.runs[i]))))
  }

  ghost predicate OwnersOk(f: Fleet) {
    && |f.owner| == |f.daemon.handlers| && |f.stages| == |f.runs|
    && forall id: nat :: id < |f.owner| ==> WorksFor(f, id)
  }

  /** No record carries the session of a run that was not given one. */
  ghost predicate FreshUnrecorded(f: Fleet) {
    |f.stages| == |f.runs| &&
    forall host, i: nat ::
      (host in f.daemon.server.claims && i < |f.runs|
       && f.daemon.server.claims[host].claim.sessionId == f.runs[i].sessionId)
      ==> !Fresh(f.stages[i], f.daemon.handlers)
  }

  ghost predicate FleetInv(f: Fleet) {
    Inv(f.daemon) && DistinctSessions(f) && RunsOk(f) && OwnersOk(f) && FreshUnrecorded(f)
  }

  // Steps of the runs --------------------------------------------------------------

  ghost predicate HoldingKept(f: Fleet, g: Fleet, r: Client, receipt: ClaimReceipt) {
    (HasRecord(f, r, receipt) ==> HasRecord(g, r, receipt)) && (Owns(f, r, receipt) ==> Owns(g, r, receipt))
  }

  /** A run keeps what it has when neither its handler nor what it owns changes. */
  lemma {:induction false} RunKept(f: Fleet, g: Fleet, j: nat)
    requires j < |f.runs| == |f.stages| && g.runs == f.runs && |g.stages| == |f.stages|
    requires g.stages[j] == f.stages[j] && RunOk(f, j)
    requires forall id: nat :: Mine(f, j, id) && ServedBy(f.stages[j], id) ==>
      Mine(g, j, id) && g.daemon.handlers[id] == f.daemon.handlers[id]
    requires forall receipt :: HoldingKept(f, g, f.runs[j], receipt)
    ensures RunOk(g, j)
  {
    var r, stage := f.runs[j], f.stages[j];
    if stage.Claiming? || stage.Orphaned? {
      var pc := f.daemon.handlers[stage.id];
      assert pc.Done? && pc.response.Receipt? ==> HoldingKept(f, g, r, pc.response.receipt);
    } else if !stage.Idle? && !stage.Ended? {
      assert HoldingKept(f, g, r, stage.receipt);
    }
  }

  /** The unfinished handlers of a run at `before` are accounted for at `stage`. */
  ghost predicate HandlersFollow(f: Fleet, before: Stage, stage: Stage) {
    forall id: nat :: id < |f.daemon.handlers| && !f.daemon.handlers[id].Done? ==>
      && (ServedBy(before, id) ==> ServedBy(stage, id) || LeftBehind(stage, f.daemon.handlers[id]))
      && (LeftBehind(before, f.daemon.handlers[id]) ==> LeftBehind(stage, f.daemon.handlers[id]))
  }

  lemma {:induction false} MoveKeepsRuns(f: Fleet, i: nat, stage: Stage)
    requires RunsOk(f) && i < |f.stages| && RunOk(f.(stages := f.stages[i := stage]), i)
    ensures RunsOk(f.(stages := f.stages[i := stage]))
  {
    var g := f.(stages := f.stages[i := stage]);
    forall j: nat | j < |g.runs| ensures RunOk(g, j) {
      if j != i { RunKept(f, g, j); }
    }
  }

  lemma {:induction false} MoveKeepsOwners(f: Fleet, i: nat, stage: Stage)
    requires OwnersOk(f) && i < |f.stages| && HandlersFollow(f, f.stages[i], stage)
    ensures OwnersOk(f.(stages := f.stages[i := stage]))
  {
    var g := f.(stages := f.stages[i := stage]);
    forall id: nat | id < |g.owner| ensures WorksFor(g, id) {
      assert WorksFor(f, id);
    }
  }

  lemma {:induction false} MoveKeepsFresh(f: Fleet, i: nat, stage: Stage)
    requires FreshUnrecorded(f) && i < |f.stages|
    requires Fresh(stage, f.daemon.handlers) ==> Fresh(f.stages[i], f.daemon.handlers)
    ensures FreshUnrecorded(f.(stages := f.stages[i := stage]))
  {}

  /** Run `i` goes to `stage` by an answer or by giving up; the daemon does not notice. */
  lemma {:induction false} MoveKeeps(f: Fleet, i: nat, stage: Stage)
    requires FleetInv(f) && i < |f.stages| && RunOk(f.(stages := f.stages[i := stage]), i)
    requires Fresh(stage, f.daemon.handlers) ==> Fresh(f.stages[i], f.daemon.handlers)
    requires HandlersFollow(f, f.stages[i], stage)
    ensures FleetInv(f.(stages := f.stages[i := stage]))
  {
    MoveKeepsRuns(f, i, stage);
    MoveKeepsOwners(f, i, stage);
    MoveKeepsFresh(f, i, stage);
  }

  lemma {:induction false} AnswerIsTaken(f: Fleet, i: nat)
    requires RunsOk(f) && i < |f.stages|
    ensures RunOk(f.(stages := f.stages[i := Next(f.stages[i], f.daemon.handlers)]), i)
    ensures HandlersFollow(f, f.stages[i], Next(f.stages[i], f.daemon.handlers))
    ensures Fresh(Next(f.stages[i], f.daemon.handlers), f.daemon.handlers) ==> Fresh(f.stages[i], f.daemon.handlers)
  {
    assert RunOk(f, i);
  }

  lemma {:induction false} ReturnKeeps(f: Fleet, i: nat)
    requires FleetInv(f) && i < |f.stages|
    ensures FleetInv(Step(f, Return(i)))
  {
    AnswerIsTaken(f, i);
    MoveKeeps(f, i, Next(f.stages[i], f.daemon.handlers));
  }

  lemma {:induction false} GivingUpIsSafe(f: Fleet, i: nat)
    requires RunsOk(f) && i < |f.stages|
    ensures RunOk(f.(stages := f.stages[i := GivenUp(f.stages[i])]), i)
    ensures HandlersFollow(f, f.stages[i], GivenUp(f.stages[i]))
    ensures Fresh(GivenUp(f.stages[i]), f.daemon.handlers) ==> Fresh(f.stages[i], f.daemon.handlers)
  {
    assert RunOk(f, i);
  }

  lemma {:induction false} GiveUpKeeps(f: Fleet, i: nat)
    requires FleetInv(f) && i < |f.stages|
    ensures FleetInv(Step(f, GiveUp(i)))
  {
    GivingUpIsSafe(f, i);
    MoveKeeps(f, i, GivenUp(f.stages[i]));
  }

  /** A run can call when it waits for nothing. */
  predicate CanCall(stage: Stage) { stage.Idle? || stage.Held? || stage.Answered? }

  lemma {:induction false} SendKeepsRuns(f: Fleet, i: nat, request: Request, stage: Stage)
    requires FleetInv(f) && i < |f.stages| && RunOk(Send(f, i, request, stage), i)
    ensures RunsOk(Send(f, i, request, stage))
  {
    var g := Send(f, i, request, stage);
    forall j: nat | j < |g.runs| ensures RunOk(g, j) {
      if j != i { RunKept(f, g, j); }
    }
  }

  lemma {:induction false} SendKeepsWork(f: Fleet, i: nat, request: Request, stage: Stage, id: nat)
    requires OwnersOk(f) && i < |f.stages| && CanCall(f.stages[i]) && id < |f.owner|
    requires f.stages[i].Answered? ==> stage.Releasing?
    ensures WorksFor(Send(f, i, request, stage), id)
  {
    assert WorksFor(f, id);
  }

  lemma {:induction false} SendKeepsOwners(f: Fleet, i: nat, request: Request, stage: Stage)
    requires OwnersOk(f) && i < |f.stages| && CanCall(f.stages[i])
    requires f.stages[i].Answered? ==> stage.Releasing?
    requires WorksFor(Send(f, i, request, stage), |f.daemon.handlers|)
    ensures OwnersOk(Send(f, i, request, stage))
  {
    var g := Send(f, i, request, stage);
    forall id: nat | id < |g.owner| ensures WorksFor(g, id) {
      if id < |f.owner| { SendKeepsWork(f, i, request, stage, id); }
    }
  }

  lemma {:induction false} SendKeepsFresh(f: Fleet, i: nat, request: Request, stage: Stage)
    requires RunsOk(f) && FreshUnrecorded(f) && i < |f.stages|
    requires Fresh(stage, Send(f, i, request, stage).daemon.handlers) ==> f.stages[i].Idle?
    ensures FreshUnrecorded(Send(f, i, request, stage))
  {
    var g := Send(f, i, request, stage);
    forall host, j: nat | host in g.daemon.server.claims && j < |g.runs|
      && g.daemon.server.claims[host].claim.sessionId == g.runs[j].sessionId
      ensures !Fresh(g.stages[j], g.daemon.handlers)
    {
      assert !Fresh(f.stages[j], f.daemon.handlers);
      assert RunOk(f, j);
    }
  }

  lemma {:induction false} SendKeeps(f: Fleet, i: nat, request: Request, stage: Stage)
    requires FleetInv(f) && i < |f.stages| && RunOk(Send(f, i, request, stage), i)
    requires CanCall(f.stages[i]) && ServedBy(stage, |f.daemon.handlers|)
    requires f.stages[i].Answered? ==> stage.Releasing?
    requires Fresh(stage, Send(f, i, request, stage).daemon.handlers) ==> f.stages[i].Idle?
    requires WorksFor(Send(f, i, request, stage), |f.daemon.handlers|)
    ensures FleetInv(Send(f, i, request, stage))
  {
    ArriveKeepsInv(f.daemon, request);
    SendKeepsRuns(f, i, request, stage);
    SendKeepsOwners(f, i, request, stage);
    SendKeepsFresh(f, i, request, stage);
  }

  lemma {:induction false} ClaimCallKeeps(f: Fleet, i: nat)
    requires FleetInv(f) && i < |f.stages| && f.stages[i].Idle?
    ensures FleetInv(CallStep(f, i, false))
  {
    SendKeeps(f, i, ClaimRequest(ClaimOf(f.runs[i])), Claiming(|f.daemon.handlers|));
  }

  lemma {:induction false} PublicationStarts(f: Fleet, i: nat)
    requires RunsOk(f) && OwnersOk(f) && i < |f.stages| && f.stages[i].Held?
    ensures var id, receipt := |f.daemon.handlers|, f.stages[i].receipt;
      var g := Send(f, i, RoutesRequest(PublicationOf(f.runs[i], receipt)), Publishing(id, receipt));
      RunOk(g, i)
  {
    assert RunOk(f, i);
  }

  lemma {:induction false} PublicationIsServed(f: Fleet, i: nat)
    requires RunsOk(f) && OwnersOk(f) && i < |f.stages| && f.stages[i].Held?
    ensures var id, receipt := |f.daemon.handlers|, f.stages[i].receipt;
      var g := Send(f, i, RoutesRequest(PublicationOf(f.runs[i], receipt)), Publishing(id, receipt));
      WorksFor(g, id)
  {
    assert RunOk(f, i);
  }

  lemma {:induction false} PublishCallKeeps(f: Fleet, i: nat)
    requires FleetInv(f) && i < |f.stages| && f.stages[i].Held?
    ensures FleetInv(CallStep(f, i, true))
  {
    var receipt := f.stages[i].receipt;
    PublicationStarts(f, i);
    PublicationIsServed(f, i);
    SendKeeps(f, i, RoutesRequest(PublicationOf(f.runs[i], receipt)), Publishing(|f.daemon.handlers|, receipt));
  }

  lemma {:induction false} ReleaseStarts(f: Fleet, i: nat)
    requires RunsOk(f) && OwnersOk(f) && i < |f.stages| && (f.stages[i].Held? || f.stages[i].Answered?)
    ensures var id, receipt := |f.daemon.handlers|, f.stages[i].receipt;
      var g := Send(f, i, ReleaseRequest(ReleaseOf(f.runs[i], receipt)), Releasing(id, receipt));
      RunOk(g, i)
  {
    assert RunOk(f, i);
  }

  lemma {:induction false} ReleaseIsServed(f: Fleet, i: nat)
    requires RunsOk(f) && OwnersOk(f) && i < |f.stages| && (f.stages[i].Held? || f.stages[i].Answered?)
    ensures var id, receipt := |f.daemon.handlers|, f.stages[i].receipt;
      var g := Send(f, i, ReleaseRequest(ReleaseOf(f.runs[i], receipt)), Releasing(id, receipt));
      WorksFor(g, id)
  {
    assert RunOk(f, i);
  }

  lemma {:induction false} ReleaseCallKeeps(f: Fleet, i: nat)
    requires FleetInv(f) && i < |f.stages| && (f.stages[i].Held? || f.stages[i].Answered?)
    ensures FleetInv(CallStep(f, i, false))
  {
    var receipt := f.stages[i].receipt;
    ReleaseStarts(f, i);
    ReleaseIsServed(f, i);
    SendKeeps(f, i, ReleaseRequest(ReleaseOf(f.runs[i], receipt)), Releasing(|f.daemon.handlers|, receipt));
  }

  lemma {:induction false} CallKeeps(f: Fleet, i: nat, publish: bool)
    requires FleetInv(f) && i < |f.stages|
    ensures FleetInv(CallStep(f, i, publish))
  {
    match f.stages[i] {
      case Idle => ClaimCallKeeps(f, i);
      case Held(_) => if publish { PublishCallKeeps(f, i); } else { ReleaseCallKeeps(f, i); }
      case Answered(_) => ReleaseCallKeeps(f, i);
      case _ =>
    }
  }

  // Steps of the daemon -------------------------------------------------------------

  /** Same claim, token, generation and mark. */
  ghost predicate SameHolding(a: ClaimRecord, b: ClaimRecord) {
    a.claim == b.claim && a.token == b.token && a.generation == b.generation && a.releasing == b.releasing
  }

  /** A publication changes nobody's holding, however late it is handled. */
  lemma {:induction false} RoutesKeepHoldings(s: State, h: nat, token: string, io: Io, host: string)
    requires HandlersOk(s) && Enabled(s, h) && ServesRoutes(s.handlers[h]) && host in s.server.claims
    ensures var t := Apply(s, Advance(h, token, io));
      host in t.server.claims && SameHolding(t.server.claims[host], s.server.claims[host])
  {
    assert HandlerOk(s, s.handlers[h]);
  }

  lemma {:induction false} ReleasesKeepOthers(s: State, h: nat, token: string, io: Io, host: string)
    requires HandlersOk(s) && Enabled(s, h) && host in s.server.claims
    requires s.handlers[h].ReleaseWait? || ReleaseInFlight(s.handlers[h])
    requires s.server.claims[host].claim.sessionId != SessionOf(s.handlers[h])
    ensures var t := Apply(s, Advance(h, token, io));
      host in t.server.claims && SameHolding(t.server.claims[host], s.server.claims[host])
  {
    assert HandlerOk(s, s.handlers[h]);
  }

  /** A handler leaves alone every record of another session. */
  lemma {:induction false} OtherSessionsKept(s: State, h: nat, token: string, io: Io, host: string)
    requires HandlersOk(s) && Enabled(s, h) && host in s.server.claims
    requires s.server.claims[host].claim.sessionId != SessionOf(s.handlers[h])
    ensures var t := Apply(s, Advance(h, token, io));
      host in t.server.claims && SameHolding(t.server.claims[host], s.server.claims[host])
  {
    if ServesRoutes(s.handlers[h]) {
      RoutesKeepHoldings(s, h, token, io, host);
    } else if !s.handlers[h].ClaimWait? {
      ReleasesKeepOthers(s, h, token, io, host);
    }
  }

  /** New records belong to the claim that was answered with a receipt; existing ones keep theirs. */
  lemma {:induction false} ClaimsOfRecords(s: State, h: nat, token: string, io: Io, host: string)
    requires HandlersOk(s) && Enabled(s, h) && host in Apply(s, Advance(h, token, io)).server.claims
    ensures var t := Apply(s, Advance(h, token, io));
      && (host in s.server.claims ==> t.server.claims[host].claim == s.server.claims[host].claim)
      && (host !in s.server.claims ==>
            s.handlers[h].ClaimWait? && t.server.claims[host].claim == s.handlers[h].claim
            && host == s.handlers[h].claim.host && t.handlers[h].Done? && t.handlers[h].response.Receipt?)
  {
    assert HandlerOk(s, s.handlers[h]);
  }

  /** What a claim step gives a session that no record carries yet. */
  lemma {:induction false} ClaimGives(s: State, h: nat, token: string)
    requires h < |s.handlers| && s.handlers[h].ClaimWait?
    requires forall host :: host in s.server.claims ==>
      s.server.claims[host].claim.sessionId != s.handlers[h].claim.sessionId
    ensures var t := AdvanceClaim(s, h, token);
      var claim := s.handlers[h].claim;
      t.handlers[h].Done? && !t.handlers[h].response.NoContent? && (t.handlers[h].response.Receipt? ==>
        && claim.host in t.server.claims && t.server.claims[claim.host].claim == claim
        && t.server.claims[claim.host].token == t.handlers[h].response.receipt.token
        && t.server.claims[claim.host].generation == t.handlers[h].response.receipt.generation
        && !t.server.claims[claim.host].releasing)
  {}

  /** A publication step of the owner: never refused as stale, and its record stays. */
  lemma {:induction false} RoutesStep(f: Fleet, h: nat, token: string, io: Io, r: Client, receipt: ClaimReceipt)
    requires HandlersOk(f.daemon) && Enabled(f.daemon, h) && ServesRoutes(f.daemon.handlers[h])
    requires PublishingOk(f, r, f.daemon.handlers[h], receipt)
    ensures var g := f.(daemon := Apply(f.daemon, Advance(h, token, io)));
      h < |g.daemon.handlers| && PublishingOk(g, r, g.daemon.handlers[h], receipt)
  {
    var s := f.daemon;
    assert HandlerOk(s, s.handlers[h]);
    if s.handlers[h].RoutesWait? {
      MatchDeterminesPublication(s.server.claims[Key(r)], s.handlers[h].publication);
    }
  }

  /** The release of a run that owns its record is admitted. */
  lemma {:induction false} ReleaseIsAdmitted(f: Fleet, h: nat, token: string, io: Io, r: Client, receipt: ClaimReceipt)
    requires Enabled(f.daemon, h) && f.daemon.handlers[h].ReleaseWait?
    requires ReleasingOk(f, r, f.daemon.handlers[h], receipt)
    ensures var g := f.(daemon := Apply(f.daemon, Advance(h, token, io)));
      && h < |g.daemon.handlers| && ReleaseInFlight(g.daemon.handlers[h])
      && ReleasingOk(g, r, g.daemon.handlers[h], receipt)
  {}

  /** A release in flight ends with its record deleted, or refused with its record kept. */
  lemma {:induction false} ReleaseGoesOn(f: Fleet, h: nat, token: string, io: Io, r: Client, receipt: ClaimReceipt)
    requires HandlersOk(f.daemon) && Enabled(f.daemon, h) && ReleaseInFlight(f.daemon.handlers[h])
    requires ReleasingOk(f, r, f.daemon.handlers[h], receipt)
    ensures var g := f.(daemon := Apply(f.daemon, Advance(h, token, io)));
      && h < |g.daemon.handlers| && ReleasingOk(g, r, g.daemon.handlers[h], receipt)
      && (g.daemon.handlers[h] == Done(NoContent) ==> Key(r) !in g.daemon.server.claims)
  {
    assert HandlerOk(f.daemon, f.daemon.handlers[h]);
  }

  /** A release step of the owner: never refused as stale, and refused only with its record kept. */
  lemma {:induction false} ReleaseStep(f: Fleet, h: nat, token: string, io: Io, r: Client, receipt: ClaimReceipt)
    requires HandlersOk(f.daemon) && Enabled(f.daemon, h) && !f.daemon.handlers[h].Done?
    requires ReleasingOk(f, r, f.daemon.handlers[h], receipt)
    ensures var g := f.(daemon := Apply(f.daemon, Advance(h, token, io)));
      && h < |g.daemon.handlers| && ReleasingOk(g, r, g.daemon.handlers[h], receipt)
      && (g.daemon.handlers[h] == Done(NoContent) ==> Key(r) !in g.daemon.server.claims)
  {
    if f.daemon.handlers[h].ReleaseWait? {
      ReleaseIsAdmitted(f, h, token, io, r, receipt);
    } else {
      ReleaseGoesOn(f, h, token, io, r, receipt);
    }
  }

  /** The handler that moves stays with its request. */
  lemma {:induction false} StaysWithItsRequest(s: State, h: nat, token: string, io: Io)
    requires Enabled(s, h)
    ensures var t := Apply(s, Advance(h, token, io));
      && |t.handlers| == |s.handlers|
      && (!t.handlers[h].Done? ==>
            && SessionOf(t.handlers[h]) == SessionOf(s.handlers[h]) && !t.handlers[h].ClaimWait?
            && (ServesRoutes(s.handlers[h]) ==> ServesRoutes(t.handlers[h])))
  {}

  ghost function Served(f: Fleet, h: nat, token: string, io: Io): Fleet {
    f.(daemon := Apply(f.daemon, Advance(h, token, io)))
  }

  /** What run `j` owns stays its own while another run's handler moves, or a publication. */
  lemma {:induction false} OthersKeepHoldings(f: Fleet, h: nat, token: string, io: Io, j: nat, receipt: ClaimReceipt)
    requires FleetInv(f) && Enabled(f.daemon, h) && j < |f.runs| && HasRecord(f, f.runs[j], receipt)
    requires j != f.owner[h] || ServesRoutes(f.daemon.handlers[h])
    ensures HoldingKept(f, Served(f, h, token, io), f.runs[j], receipt)
  {
    assert WorksFor(f, h);
    if ServesRoutes(f.daemon.handlers[h]) {
      RoutesKeepHoldings(f.daemon, h, token, io, Key(f.runs[j]));
    } else {
      assert f.runs[j].sessionId != f.runs[f.owner[h]].sessionId;
      OtherSessionsKept(f.daemon, h, token, io, Key(f.runs[j]));
    }
  }

  /** A run whose last call is not the one that moves. */
  lemma {:induction false} BystanderKept(f: Fleet, h: nat, token: string, io: Io, j: nat)
    requires FleetInv(f) && Enabled(f.daemon, h) && j < |f.runs|
    requires j != f.owner[h] || !ServedBy(f.stages[j], h)
    ensures RunOk(Served(f, h, token, io), j)
  {
    var g := Served(f, h, token, io);
    assert WorksFor(f, h);
    assert RunOk(f, j);
    NewKeysComeFromClaims(f.daemon, h, token, io);
    forall receipt ensures HoldingKept(f, g, f.runs[j], receipt) {
      if HasRecord(f, f.runs[j], receipt) { OthersKeepHoldings(f, h, token, io, j, receipt); }
    }
    RunKept(f, g, j);
  }

  lemma {:induction false} ClaimerIsFresh(f: Fleet, h: nat, i: nat)
    requires RunsOk(f) && FreshUnrecorded(f) && Enabled(f.daemon, h) && i < |f.runs| && ServedBy(f.stages[i], h)
    requires f.stages[i].Claiming? || f.stages[i].Orphaned?
    ensures Mine(f, i, h) && f.daemon.handlers[h] == ClaimWait(ClaimOf(f.runs[i]).(host := Key(f.runs[i])))
    ensures forall host :: host in f.daemon.server.claims ==>
      f.daemon.server.claims[host].claim.sessionId != f.runs[i].sessionId
  {
    assert RunOk(f, i);
    assert Fresh(f.stages[i], f.daemon.handlers);
  }

  lemma {:induction false} ClaimerKept(f: Fleet, h: nat, token: string, io: Io, i: nat)
    requires FleetInv(f) && Enabled(f.daemon, h) && i < |f.runs| && ServedBy(f.stages[i], h)
    requires f.stages[i].Claiming? || f.stages[i].Orphaned?
    ensures RunOk(Served(f, h, token, io), i)
  {
    ClaimerIsFresh(f, h, i);
    ClaimGives(f.daemon, h, token);
    assert Served(f, h, token, io).daemon == AdvanceClaim(f.daemon, h, token);
  }

  lemma {:induction false} PublisherKept(f: Fleet, h: nat, token: string, io: Io, i: nat)
    requires FleetInv(f) && Enabled(f.daemon, h) && i < |f.runs| && ServedBy(f.stages[i], h)
    requires f.stages[i].Publishing?
    ensures RunOk(Served(f, h, token, io), i)
  {
    assert RunOk(f, i);
    RoutesStep(f, h, token, io, f.runs[i], f.stages[i].receipt);
  }

  lemma {:induction false} ReleaserKept(f: Fleet, h: nat, token: string, io: Io, i: nat)
    requires FleetInv(f) && Enabled(f.daemon, h) && i < |f.runs| && ServedBy(f.stages[i], h)
    requires f.stages[i].Releasing? || f.stages[i].Abandoned?
    ensures RunOk(Served(f, h, token, io), i)
  {
    assert RunOk(f, i);
    ReleaseStep(f, h, token, io, f.runs[i], f.stages[i].receipt);
  }

  lemma {:induction false} EveryRunKept(f: Fleet, h: nat, token: string, io: Io, i: nat)
    requires FleetInv(f) && Enabled(f.daemon, h) && i < |f.runs|
    ensures RunOk(Served(f, h, token, io), i)
  {
    if i != f.owner[h] || !ServedBy(f.stages[i], h) {
      BystanderKept(f, h, token, io, i);
    } else if f.stages[i].Claiming? || f.stages[i].Orphaned? {
      ClaimerKept(f, h, token, io, i);
    } else if f.stages[i].Publishing? {
      PublisherKept(f, h, token, io, i);
    } else {
      ReleaserKept(f, h, token, io, i);
    }
  }

  lemma {:induction false} ServeKeepsOwners(f: Fleet, h: nat, token: string, io: Io)
    requires OwnersOk(f) && HandlersOk(f.daemon) && Enabled(f.daemon, h)
    ensures OwnersOk(Served(f, h, token, io))
  {
    NewKeysComeFromClaims(f.daemon, h, token, io);
    StaysWithItsRequest(f.daemon, h, token, io);
    var g := Served(f, h, token, io);
    forall id: nat | id < |g.owner| ensures WorksFor(g, id) {
      assert WorksFor(f, id);
    }
  }

  lemma {:induction false} RecordedIsNotFresh(f: Fleet, h: nat, token: string, io: Io, host: string, j: nat)
    requires HandlersOk(f.daemon) && OwnersOk(f) && FreshUnrecorded(f) && DistinctSessions(f)
    requires Enabled(f.daemon, h) && j < |f.runs|
    requires var t := Apply(f.daemon, Advance(h, token, io));
      host in t.server.claims && t.server.claims[host].claim.sessionId == f.runs[j].sessionId
    ensures !Fresh(f.stages[j], Apply(f.daemon, Advance(h, token, io)).handlers)
  {
    ClaimsOfRecords(f.daemon, h, token, io, host);
    NewKeysComeFromClaims(f.daemon, h, token, io);
    assert WorksFor(f, h);
    if host !in f.daemon.server.claims {
      assert f.owner[h] == j;
      assert ServedBy(f.stages[j], h);
    }
  }

  lemma {:induction false} ServeKeepsFresh(f: Fleet, h: nat, token: string, io: Io)
    requires FleetInv(f) && Enabled(f.daemon, h)
    ensures FreshUnrecorded(Served(f, h, token, io))
  {
    var g := Served(f, h, token, io);
    forall host, j: nat | host in g.daemon.server.claims && j < |g.runs|
      && g.daemon.server.claims[host].claim.sessionId == g.runs[j].sessionId
      ensures !Fresh(g.stages[j], g.daemon.handlers)
    {
      RecordedIsNotFresh(f, h, token, io, host, j);
    }
  }

  lemma {:induction false} ServeKeeps(f: Fleet, h: nat, token: string, io: Io)
    requires FleetInv(f) && Enabled(f.daemon, h) && f.daemon.server.generation < MAX_INT64
    ensures FleetInv(Served(f, h, token, io))
  {
    ApplyKeepsInv(f.daemon, Advance(h, token, io));
    forall i: nat | i < |f.runs| ensures RunOk(Served(f, h, token, io), i) {
      EveryRunKept(f, h, token, io, i);
    }
    ServeKeepsOwners(f, h, token, io);
    ServeKeepsFresh(f, h, token, io);
  }

  lemma {:induction false} StepKeeps(f: Fleet, event: FleetEvent)
    requires FleetInv(f) && f.daemon.server.generation < MAX_INT64
    ensures FleetInv(Step(f, event))
  {
    match event {
      case Call(i, publish) => if i < |f.stages| { CallKeeps(f, i, publish); }
      case Return(i) => if i < |f.stages| { ReturnKeeps(f, i); }
      case GiveUp(i) => if i < |f.stages| { GiveUpKeeps(f, i); }
      case Serve(h, token, io) => if Enabled(f.daemon, h) { ServeKeeps(f, h, token, io); }
    }
  }

  lemma {:induction false} StepCounts(f: Fleet, event: FleetEvent)
    requires 0 <= f.daemon.server.generation < MAX_INT64
    ensures Step(f, event).runs == f.runs
    ensures Step(f, event).daemon.server.generation <= f.daemon.server.generation + 1
  {
    match event {
      case Call(i, publish) =>
      case Return(i) =>
      case GiveUp(i) =>
      case Serve(h, token, io) => GenerationStep(f.daemon, Advance(h, token, io));
    }
  }

  lemma {:induction false} ReachableFleetInv(f0: Fleet, events: seq<FleetEvent>)
    requires FleetInitial(f0) && |events| <= MAX_INT64
    ensures FleetInv(AfterEvents(f0, events)) && AfterEvents(f0, events).runs == f0.runs
    ensures AfterEvents(f0, events).daemon.server.generation <= |events|
  {
    if events == [] {
      InitialInv(f0.daemon);
    } else {
      var n := |events| - 1;
      ReachableFleetInv(f0, events[..n]);
      StepKeeps(AfterEvents(f0, events[..n]), events[n]);
      StepCounts(AfterEvents(f0, events[..n]), events[n]);
    }
  }

  // The statements -------------------------------------------------------------------

  /**
   The run keeps its host claimed: from the daemon's acceptance of the claim, noticed or
   not, until the daemon acknowledges the release.
   */
  ghost predicate Holds(f: Fleet, i: nat)
    requires i < |f.stages|
  {
    var hs := f.daemon.handlers;
    match f.stages[i]
    case Idle => false
    case Claiming(id) => id < |hs| && hs[id].Done? && hs[id].response.Receipt?
    case Held(_) => true
    case Publishing(_, _) => true
    case Answered(_) => true
    case Releasing(id, _) => id < |hs| && hs[id] != Done(NoContent)
    case Ended => false
    case Stuck(_) => true
    case Orphaned(id) => id < |hs| && hs[id].Done? && hs[id].response.Receipt?
    case Abandoned(id, _) => id < |hs| && hs[id] != Done(NoContent)
  }

  lemma {:induction false} HolderHasTheRecord(f: Fleet, i: nat)
    requires FleetInv(f) && i < |f.runs| && Holds(f, i)
    ensures Key(f.runs[i]) in f.daemon.server.claims
    ensures f.daemon.server.claims[Key(f.runs[i])].claim == ClaimOf(f.runs[i]).(host := Key(f.runs[i]))
  {
    assert RunOk(f, i);
  }

  /** At most one run holds a canonical host, in every state of every interleaving. */
  lemma {:induction false} OneHolderPerHost(f0: Fleet, events: seq<FleetEvent>, i: nat, j: nat)
    requires FleetInitial(f0) && |events| <= MAX_INT64
    requires i < |AfterEvents(f0, events).stages| && j < |AfterEvents(f0, events).stages|
    requires var f := AfterEvents(f0, events);
      Holds(f, i) && Holds(f, j) && i < |f.runs| && j < |f.runs| && Key(f.runs[i]) == Key(f.runs[j])
    ensures i == j
  {
    ReachableFleetInv(f0, events);
    HolderHasTheRecord(AfterEvents(f0, events), i);
    HolderHasTheRecord(AfterEvents(f0, events), j);
  }

  /**
   No publication that a run waits for and no release of any run, waited for or given up,
   is ever refused as stale, and no claim goes without an answer.
   */
  lemma {:induction false} NobodyIsStale(f0: Fleet, events: seq<FleetEvent>, i: nat)
    requires FleetInitial(f0) && |events| <= MAX_INT64 && i < |AfterEvents(f0, events).stages|
    ensures var f := AfterEvents(f0, events);
      match f.stages[i]
      case Claiming(id) => id < |f.daemon.handlers| && f.daemon.handlers[id] != Done(NoContent)
      case Publishing(id, _) => id < |f.daemon.handlers| && f.daemon.handlers[id] != Done(STALE)
      case Releasing(id, _) => id < |f.daemon.handlers| && f.daemon.handlers[id] != Done(STALE)
      case Abandoned(id, _) => id < |f.daemon.handlers| && f.daemon.handlers[id] != Done(STALE)
      case _ => true
  {
    ReachableFleetInv(f0, events);
    assert RunOk(AfterEvents(f0, events), i);
  }
}
