/** The claim table over whole runs of the fleet: which hosts are claimed, and until when. */
module FleetLedger {
  import opened Text
  import opened ControlPlane
  import opened Hosts
  import RouteRuntime
  import opened Daemon
  import opened Protocol
  import opened ProtocolInvariant
  import opened Agreement
  import opened AgreementExact
  import opened Fleet

  // Every record has a holder ---------------------------------------------------------

  ghost predicate HolderOf(f: Fleet, i: nat, host: string) {
    && i < |f.runs| && i < |f.stages| && Holds(f, i) && Key(f.runs[i]) == host
  }

  ghost predicate Accounted(f: Fleet) {
    forall host :: host in f.daemon.server.claims ==> exists i: nat :: HolderOf(f, i, host)
  }

  lemma {:induction false} OthersStillHold(f: Fleet, i: nat, request: Request, stage: Stage, j: nat)
    requires RunsOk(f) && i < |f.stages| && j < |f.stages| && j != i && Holds(f, j)
    ensures Holds(Send(f, i, request, stage), j)
  {
    assert RunOk(f, j);
  }

  /** Nobody stops holding by making a call; */
  lemma {:induction false} CallKeepsHolder(f: Fleet, i: nat, publish: bool, j: nat)
    requires FleetInv(f) && i < |f.stages| && j < |f.runs| && Holds(f, j)
    ensures var g := CallStep(f, i, publish);
      g.runs == f.runs && g.daemon.server == f.daemon.server && j < |g.stages| && Holds(g, j)
  {
    match NextRequest(f.runs[i], f.stages[i], publish) {
      case None =>
      case Some(request) =>
        if j != i {
          OthersStillHold(f, i, request, Waiting(f.stages[i], |f.daemon.handlers|, publish), j);
        }
    }
  }

  /** nor by taking an answer; */
  lemma {:induction false} ReturnKeepsHolder(f: Fleet, i: nat, j: nat)
    requires i < |f.stages| && j < |f.stages| && Holds(f, j)
    ensures Holds(f.(stages := f.stages[i := Next(f.stages[i], f.daemon.handlers)]), j)
  {}

  /** nor by giving up on it. */
  lemma {:induction false} GiveUpKeepsHolder(f: Fleet, i: nat, j: nat)
    requires i < |f.stages| && j < |f.stages| && Holds(f, j)
    ensures Holds(f.(stages := f.stages[i := GivenUp(f.stages[i])]), j)
  {}

  lemma {:induction false} RunStepKeepsAccount(f: Fleet, event: FleetEvent, host: string, j: nat)
    requires FleetInv(f) && !event.Serve? && HolderOf(f, j, host)
    ensures Step(f, event).daemon.server == f.daemon.server && HolderOf(Step(f, event), j, host)
  {
    match event {
      case Call(i, publish) => if i < |f.stages| { CallKeepsHolder(f, i, publish, j); }
      case Return(i) => if i < |f.stages| { ReturnKeepsHolder(f, i, j); }
      case GiveUp(i) => if i < |f.stages| { GiveUpKeepsHolder(f, i, j); }
    }
  }

  /** Only the acknowledgement of its release ends a holding, and it deletes the record. */
  lemma {:induction false} ServeKeepsHolder(f: Fleet, h: nat, token: string, io: RouteRuntime.Io, j: nat)
    requires FleetInv(f) && Enabled(f.daemon, h) && j < |f.runs| && Holds(f, j)
    requires Key(f.runs[j]) in Served(f, h, token, io).daemon.server.claims
    ensures Holds(Served(f, h, token, io), j)
  {
    assert RunOk(f, j);
    NewKeysComeFromClaims(f.daemon, h, token, io);
    if (f.stages[j].Releasing? || f.stages[j].Abandoned?) && f.stages[j].id == h {
      ReleaseStep(f, h, token, io, f.runs[j], f.stages[j].receipt);
    }
  }

  /** A claim that waits is the last call of its run. */
  lemma {:induction false} ClaimerIsWaiting(f: Fleet, h: nat)
    requires RunsOk(f) && OwnersOk(f) && h < |f.daemon.handlers| && f.daemon.handlers[h].ClaimWait?
    ensures var i := f.owner[h];
      && i < |f.runs| && (f.stages[i].Claiming? || f.stages[i].Orphaned?) && f.stages[i].id == h
      && f.daemon.handlers[h].claim.host == Key(f.runs[i])
  {
    assert WorksFor(f, h);
    assert RunOk(f, f.owner[h]);
  }

  lemma ReceiptHolds(g: Fleet, i: nat)
    requires i < |g.stages| && (g.stages[i].Claiming? || g.stages[i].Orphaned?)
    requires var hs, id := g.daemon.handlers, g.stages[i].id; id < |hs| && hs[id].Done? && hs[id].response.Receipt?
    ensures Holds(g, i)
  {}

  /** A new record is held by the run whose claim made it, even if that run gave up on it. */
  lemma {:induction false} NewRecordIsHeld(f: Fleet, h: nat, token: string, io: RouteRuntime.Io, host: string)
    requires FleetInv(f) && Enabled(f.daemon, h) && host !in f.daemon.server.claims
    requires host in Served(f, h, token, io).daemon.server.claims
    ensures HolderOf(Served(f, h, token, io), f.owner[h], host)
  {
    ClaimsOfRecords(f.daemon, h, token, io, host);
    StepMovesOne(f.daemon, h, token, io);
    ClaimerIsWaiting(f, h);
    ReceiptHolds(Served(f, h, token, io), f.owner[h]);
  }

  lemma {:induction false} ServeKeepsAccount(f: Fleet, h: nat, token: string, io: RouteRuntime.Io, host: string)
    returns (i: nat)
    requires FleetInv(f) && Accounted(f) && Enabled(f.daemon, h)
    requires host in Served(f, h, token, io).daemon.server.claims
    ensures HolderOf(Served(f, h, token, io), i, host)
  {
    if host in f.daemon.server.claims {
      i :| HolderOf(f, i, host);
      ServeKeepsHolder(f, h, token, io, i);
    } else {
      i := f.owner[h];
      NewRecordIsHeld(f, h, token, io, host);
    }
  }

  /** Calls, answers and giving up leave the claim table alone. */
  lemma {:induction false} RunsLeaveTheTable(f: Fleet, event: FleetEvent)
    requires !event.Serve?
    ensures Step(f, event).daemon.server == f.daemon.server
  {}

  lemma {:induction false} ServeKeepsAccounts(f: Fleet, h: nat, token: string, io: RouteRuntime.Io)
    requires FleetInv(f) && Accounted(f) && Enabled(f.daemon, h)
    ensures Accounted(Served(f, h, token, io))
  {
    var g := Served(f, h, token, io);
    forall host | host in g.daemon.server.claims ensures exists i: nat :: HolderOf(g, i, host) {
      var i := ServeKeepsAccount(f, h, token, io, host);
    }
  }

  lemma {:induction false} RunsKeepAccounts(f: Fleet, event: FleetEvent, g: Fleet)
    requires FleetInv(f) && Accounted(f) && !event.Serve? && g == Step(f, event)
    ensures Accounted(g)
  {
    RunsLeaveTheTable(f, event);
    forall host | host in g.daemon.server.claims ensures exists i: nat :: HolderOf(g, i, host) {
      var i: nat :| HolderOf(f, i, host);
      RunStepKeepsAccount(f, event, host, i);
    }
  }

  lemma {:induction false} ServeIsStep(f: Fleet, h: nat, token: string, io: RouteRuntime.Io)
    ensures Step(f, Serve(h, token, io)) == if Enabled(f.daemon, h) then Served(f, h, token, io) else f
  {}

  lemma {:induction false} StepKeepsAccounts(f: Fleet, event: FleetEvent, g: Fleet)
    requires FleetInv(f) && Accounted(f) && g == Step(f, event)
    ensures Accounted(g)
  {
    match event {
      case Serve(h, token, io) =>
        ServeIsStep(f, h, token, io);
        if Enabled(f.daemon, h) { ServeKeepsAccounts(f, h, token, io); }
      case _ => RunsKeepAccounts(f, event, g);
    }
  }

  lemma {:induction false} ReachableAccounts(f0: Fleet, events: seq<FleetEvent>)
    requires FleetInitial(f0) && |events| <= MAX_INT64
    ensures Accounted(AfterEvents(f0, events))
  {
    if events != [] {
      var n := |events| - 1;
      ReachableFleetInv(f0, events[..n]);
      ReachableAccounts(f0, events[..n]);
      StepKeepsAccounts(AfterEvents(f0, events[..n]), events[n], AfterEvents(f0, events));
    }
  }

  /** In every state of every interleaving the claimed hosts are exactly those that some run holds. */
  lemma {:induction false} ClaimedHostsAreHeld(f0: Fleet, events: seq<FleetEvent>, host: string)
    requires FleetInitial(f0) && |events| <= MAX_INT64
    ensures var f := AfterEvents(f0, events);
      host in f.daemon.server.claims <==> exists i: nat :: HolderOf(f, i, host)
  {
    var f := AfterEvents(f0, events);
    ReachableFleetInv(f0, events);
    ReachableAccounts(f0, events);
    if i: nat :| HolderOf(f, i, host) {
      HolderHasTheRecord(f, i);
    }
  }

  // The daemon's own schedule ----------------------------------------------------------

  /** What one event of the fleet is to the daemon. */
  ghost function DaemonPart(f: Fleet, event: FleetEvent): seq<Event> {
    match event
    case Call(i, publish) =>
      if i < |f.stages| && |f.runs| == |f.stages| then
        (match NextRequest(f.runs[i], f.stages[i], publish) case None => [] case Some(request) => [Arrive(request)])
      else []
    case Serve(h, token, io) => [Advance(h, token, io)]
    case _ => []
  }

  ghost function DaemonSchedule(f0: Fleet, events: seq<FleetEvent>): seq<Event> {
    if events == [] then []
    else
      var n := |events| - 1;
      DaemonSchedule(f0, events[..n]) + DaemonPart(AfterEvents(f0, events[..n]), events[n])
  }

  lemma {:induction false} StepIsDaemonPart(f: Fleet, event: FleetEvent)
    ensures Step(f, event).daemon == After(f.daemon, DaemonPart(f, event))
  {
    if DaemonPart(f, event) != [] {
      AfterOne(f.daemon, DaemonPart(f, event)[0]);
    }
  }

  ghost predicate SafeRuns(f: Fleet) {
    forall i :: 0 <= i < |f.runs| ==> SafeHost(f.runs[i].host)
  }

  lemma {:induction false} DaemonPartIsSmall(f: Fleet, event: FleetEvent)
    ensures |DaemonPart(f, event)| <= 1
  {}

  lemma NextRequestIsSafe(r: Client, stage: Stage, publish: bool)
    requires SafeHost(r.host)
    ensures match NextRequest(r, stage, publish)
      case None => true
      case Some(request) => SafeEvent(Arrive(request))
  {}

  lemma {:induction false} DaemonPartIsSafe(f: Fleet, event: FleetEvent)
    requires SafeRuns(f)
    ensures SafeEvents(DaemonPart(f, event))
  {
    DaemonPartIsSmall(f, event);
    if event.Call? && event.i < |f.stages| && |f.runs| == |f.stages| {
      NextRequestIsSafe(f.runs[event.i], f.stages[event.i], event.publish);
    }
  }

  lemma SafeConcat(a: seq<Event>, b: seq<Event>)
    requires SafeEvents(a) && SafeEvents(b)
    ensures SafeEvents(a + b)
  {}

  /** The daemon of a fleet runs one of the schedules of the module Protocol. */
  lemma {:induction false} FleetRunsTheDaemon(f0: Fleet, events: seq<FleetEvent>)
    ensures var schedule := DaemonSchedule(f0, events);
      AfterEvents(f0, events).daemon == After(f0.daemon, schedule) && |schedule| <= |events|
  {
    if events != [] {
      var n := |events| - 1;
      var f := AfterEvents(f0, events[..n]);
      FleetRunsTheDaemon(f0, events[..n]);
      StepIsDaemonPart(f, events[n]);
      DaemonPartIsSmall(f, events[n]);
      AfterAppend(f0.daemon, DaemonSchedule(f0, events[..n]), DaemonPart(f, events[n]));
    }
  }

  lemma {:induction false} SafeRunsSafeSchedule(f0: Fleet, events: seq<FleetEvent>)
    requires SafeRuns(f0)
    ensures SafeEvents(DaemonSchedule(f0, events)) && AfterEvents(f0, events).runs == f0.runs
  {
    if events != [] {
      var n := |events| - 1;
      var f := AfterEvents(f0, events[..n]);
      SafeRunsSafeSchedule(f0, events[..n]);
      StepKeepsTheRuns(f, events[n]);
      DaemonPartIsSafe(f, events[n]);
      SafeConcat(DaemonSchedule(f0, events[..n]), DaemonPart(f, events[n]));
    }
  }

  lemma {:induction false} StepKeepsTheRuns(f: Fleet, event: FleetEvent)
    ensures Step(f, event).runs == f.runs
  {}

  lemma {:induction false} NoClaimNoRoute(s: State)
    requires TablesAgree(s) && s.server.claims == map[]
    ensures s.runtime.publications == map[]
  {
    forall host ensures host !in s.runtime.publications {
      assert host in s.runtime.publications <==> Visible(s, host);
    }
  }

  /**
   When no run holds anything any more, the claim table is empty, and so is the committed
   route table if the hosts are safe.
   */
  lemma {:induction false} EverythingIsGivenBack(f0: Fleet, events: seq<FleetEvent>)
    requires FleetInitial(f0) && |events| <= MAX_INT64
    requires var f := AfterEvents(f0, events); forall i: nat :: i < |f.stages| ==> !Holds(f, i)
    ensures AfterEvents(f0, events).daemon.server.claims == map[]
    ensures SafeRuns(f0) ==> AfterEvents(f0, events).daemon.runtime.publications == map[]
  {
    var f := AfterEvents(f0, events);
    forall host ensures host !in f.daemon.server.claims {
      ClaimedHostsAreHeld(f0, events, host);
      assert forall i: nat :: !HolderOf(f, i, host);
    }
    if SafeRuns(f0) {
      FleetTablesAgree(f0, events);
      NoClaimNoRoute(f.daemon);
    }
  }

  lemma {:induction false} RouteHasARecord(s: State, host: string)
    requires TablesAgree(s) && host in s.runtime.publications
    ensures host in s.server.claims
    ensures s.runtime.publications[host].sessionId == s.server.claims[host].claim.sessionId
  {
    assert host in s.runtime.publications <==> Visible(s, host);
  }

  lemma SessionsDiffer(f: Fleet, i: nat, j: nat)
    requires DistinctSessions(f) && i < |f.runs| == |f.stages| && j < |f.runs|
    requires f.stages[i].Ended? && Holds(f, j)
    ensures f.runs[i].sessionId != f.runs[j].sessionId
  {}

  lemma {:induction false} NoRecordIsLeft(f: Fleet, i: nat, host: string)
    requires FleetInv(f) && Accounted(f) && i < |f.runs| && f.stages[i].Ended? && host in f.daemon.server.claims
    ensures f.daemon.server.claims[host].claim.sessionId != f.runs[i].sessionId
  {
    var j: nat :| HolderOf(f, j, host);
    HolderHasTheRecord(f, j);
    SessionsDiffer(f, i, j);
  }

  lemma {:induction false} FleetTablesAgree(f0: Fleet, events: seq<FleetEvent>)
    requires FleetInitial(f0) && |events| <= MAX_INT64 && SafeRuns(f0)
    ensures TablesAgree(AfterEvents(f0, events).daemon)
  {
    FleetRunsTheDaemon(f0, events);
    SafeRunsSafeSchedule(f0, events);
    TablesAgreeAlways(f0.daemon, DaemonSchedule(f0, events));
  }

  /**
   What is left of a run that ended, its claim refused or its release acknowledged: no live
   record carries its session, and with safe hosts no committed route does.
   */
  lemma {:induction false} NothingIsLeftOfAnEndedRun(f0: Fleet, events: seq<FleetEvent>, i: nat, host: string)
    requires FleetInitial(f0) && |events| <= MAX_INT64 && i < |f0.runs|
    requires i < |AfterEvents(f0, events).stages| && AfterEvents(f0, events).stages[i].Ended?
    ensures var f := AfterEvents(f0, events);
      && (host in f.daemon.server.claims ==> f.daemon.server.claims[host].claim.sessionId != f0.runs[i].sessionId)
      && (SafeRuns(f0) && host in f.daemon.runtime.publications ==>
            f.daemon.runtime.publications[host].sessionId != f0.runs[i].sessionId)
  {
    var f := AfterEvents(f0, events);
    ReachableFleetInv(f0, events);
    ReachableAccounts(f0, events);
    if host in f.daemon.server.claims { NoRecordIsLeft(f, i, host); }
    if SafeRuns(f0) && host in f.daemon.runtime.publications {
      FleetTablesAgree(f0, events);
      RouteHasARecord(f.daemon, host);
    }
  }

  // What is never given back -----------------------------------------------------------

  /**
   A run that is over but still holds its host: its release was refused, or it gave up on a
   claim that the daemon accepted, or on a release that the daemon refused.
   */
  ghost predicate Lost(f: Fleet, i: nat)
    requires i < |f.stages|
  {
    var hs := f.daemon.handlers;
    match f.stages[i]
    case Stuck(_) => true
    case Orphaned(id) => id < |hs| && hs[id].Done? && hs[id].response.Receipt?
    case Abandoned(id, _) => id < |hs| && hs[id].Done? && hs[id] != Done(NoContent)
    case _ => false
  }

  lemma {:induction false} StepKeepsLost(f: Fleet, event: FleetEvent, i: nat)
    requires HandlersOk(f.daemon) && i < |f.stages| && Lost(f, i)
    ensures i < |Step(f, event).stages| && Lost(Step(f, event), i)
  {
    if event.Serve? && Enabled(f.daemon, event.h) {
      NewKeysComeFromClaims(f.daemon, event.h, event.token, event.io);
    }
  }

  lemma {:induction false} StaysLost(f0: Fleet, events: seq<FleetEvent>, more: seq<FleetEvent>, i: nat)
    requires FleetInitial(f0) && |events| + |more| <= MAX_INT64
    requires i < |AfterEvents(f0, events).stages| && Lost(AfterEvents(f0, events), i)
    ensures i < |AfterEvents(f0, events + more).stages| && Lost(AfterEvents(f0, events + more), i)
    decreases |more|
  {
    hide Step, Lost;
    if more == [] {
      assert events + more == events;
    } else {
      var n := |more| - 1;
      assert (events + more)[..|events + more| - 1] == events + more[..n];
      StaysLost(f0, events, more[..n], i);
      ReachableFleetInv(f0, events + more[..n]);
      StepKeepsLost(AfterEvents(f0, events + more[..n]), more[n], i);
    }
  }

  /** Nobody retries a release: what is lost stays claimed for good, and no other run gets the host. */
  lemma {:induction false} LostForGood(f0: Fleet, events: seq<FleetEvent>, more: seq<FleetEvent>, i: nat)
    requires FleetInitial(f0) && |events| + |more| <= MAX_INT64
    requires i < |AfterEvents(f0, events).stages| && Lost(AfterEvents(f0, events), i)
    ensures var f := AfterEvents(f0, events + more);
      && i < |f.stages| && i < |f.runs| && Lost(f, i)
      && Key(f.runs[i]) in f.daemon.server.claims
      && forall j: nat :: j != i && j < |f.runs| && j < |f.stages| && Key(f.runs[j]) == Key(f.runs[i]) ==> !Holds(f, j)
  {
    StaysLost(f0, events, more, i);
    hide AfterEvents;
    var f := AfterEvents(f0, events + more);
    ReachableFleetInv(f0, events + more);
    assert Holds(f, i);
    HolderHasTheRecord(f, i);
    forall j: nat | j != i && j < |f.runs| && j < |f.stages| && Key(f.runs[j]) == Key(f.runs[i]) ensures !Holds(f, j) {
      if Holds(f, j) { OneHolderPerHost(f0, events + more, i, j); }
    }
  }
}
