/** The runs of the fleet make exactly the calls that a run of the orchestrator makes. */
module RunAsClient {
  import opened Text
  import opened ZbErr
  import opened Outside
  import opened Processes
  import opened Runner
  import opened RunnerTheorems
  import opened ControlPlane
  import Daemon
  import Protocol
  import opened AgreementExact
  import Fleet

  // The requests of a run -------------------------------------------------------------

  /** A whole session: the claim, perhaps a publication, the release. */
  function Session(client: Client, receipt: ClaimReceipt, publishes: bool): seq<Request> {
    [ClaimRequest(ClaimOf(client))]
    + (if publishes then [RoutesRequest(PublicationOf(client, receipt))] else [])
    + [ReleaseRequest(ReleaseOf(client, receipt))]
  }

  /** On every path a run makes no call, its claim alone, or a whole session. */
  lemma {:induction false} RequestsOfARun(names: seq<string>, composeEnabled: bool, client: Client, path: Path)
    requires PathOk(names, composeEnabled, path)
    ensures PathRequests(client, path) == match path
      case NotSetUp(_) => []
      case NotClaimed(_) => [ClaimRequest(ClaimOf(client))]
      case Claimed(receipt, stack, _) => Session(client, receipt, PublishCalls(stack) != [])
  {}

  /** The requests that run `i` has made along the schedule. */
  ghost function MadeBy(f0: Fleet.Fleet, events: seq<Fleet.FleetEvent>, i: nat): seq<Request> {
    if events == [] then []
    else
      var n := |events| - 1;
      MadeBy(f0, events[..n], i) + NewRequest(Fleet.AfterEvents(f0, events[..n]), events[n], i)
  }

  ghost function NewRequest(f: Fleet.Fleet, event: Fleet.FleetEvent, i: nat): seq<Request> {
    if event.Call? && event.i == i && i < |f.stages| && |f.runs| == |f.stages| then
      (match Fleet.NextRequest(f.runs[i], f.stages[i], event.publish) case None => [] case Some(request) => [request])
    else []
  }

  // What the client makes of an answer --------------------------------------------------

  const CONTROL_PLANE := "control_plane"
  const CONTROL_PLANE_CLIENT := "control_plane_client"

  function CodeName(code: Daemon.Code): string {
    match code
    case HostClaimConflict => "HostClaimConflict"
    case LeaseRejected => "LeaseRejected"
    case StaleTokenRejected => "StaleTokenRejected"
    case PublicationRejected => "PublicationRejected"
    case RouteRuntimeUnavailable => "RouteRuntimeUnavailable"
  }

  /** How a call can fail: the daemon refuses, its answer cannot be decoded, or there is none. */
  datatype CallFailure =
    | Refusal(code: Daemon.Code, owner: string, message: string)
    | Undecodable(status: string)
    | Unreachable(cause: Error)

  function ClientError(failure: CallFailure): Error {
    match failure
    case Refusal(code, owner, message) => Zb(CONTROL_PLANE, CodeName(code), "", owner, Some(Plain(message)), [])
    case Undecodable(status) =>
      Zb(CONTROL_PLANE_CLIENT, CRITICAL, "", "", Some(Plain("daemon returned " + status)), [CONTROL_PLANE_CLIENT])
    case Unreachable(cause) => New(CONTROL_PLANE_CLIENT, "ConnectionFailed", Some(cause))
  }

  lemma {:induction false} RefusalIsWrapped(path: Path, primary: Option<Error>, refusal: Error)
    requires PathError(path, primary) && RefusalOf(path) == Some(refusal)
    requires forall i :: 0 <= i < |Cleanups(path)| ==> Cleanups(path)[i].None?
    ensures var err := FinalError(primary, Cleanups(path)); err.Some? && refusal in Chain(err.value)
  {
    IdentityWithoutCleanupFailure(primary, Cleanups(path));
    assert Unwrap(primary.value) == Some(refusal);
    assert Chain(primary.value) == [primary.value] + Chain(refusal);
  }

  /**
   A run whose claim or publication failed returns an error in which the layer and code of
   that failure are found, if its cleanups succeed; the owner and the message that came with
   a refusal are there too.
   */
  lemma {:induction false} CallFailuresAreFound(path: Path, primary: Option<Error>, failure: CallFailure)
    requires PathError(path, primary) && RefusalOf(path) == Some(ClientError(failure))
    requires forall i :: 0 <= i < |Cleanups(path)| ==> Cleanups(path)[i].None?
    ensures var err := FinalError(primary, Cleanups(path));
      err.Some? && match failure
      case Refusal(HostClaimConflict, _, _) => Carries(err.value, "control_plane", "HostClaimConflict")
      case Refusal(LeaseRejected, _, _) => Carries(err.value, "control_plane", "LeaseRejected")
      case Refusal(StaleTokenRejected, _, _) => Carries(err.value, "control_plane", "StaleTokenRejected")
      case Refusal(PublicationRejected, _, _) => Carries(err.value, "control_plane", "PublicationRejected")
      case Refusal(RouteRuntimeUnavailable, _, _) => Carries(err.value, "control_plane", "RouteRuntimeUnavailable")
      case Undecodable(_) => Carries(err.value, "control_plane_client", "Critical")
      case Unreachable(_) => Carries(err.value, "control_plane_client", "ConnectionFailed")
    ensures failure.Refusal? ==>
      exists e :: e in Chain(FinalError(primary, Cleanups(path)).value)
        && e.Zb? && e.owner == failure.owner && e.cause == Some(Plain(failure.message))
  {
    var error := ClientError(failure);
    RefusalIsWrapped(path, primary, error);
    assert error in Chain(error);
    RefusalsAreFound(path, primary, error.layer, error.code);
  }

  /** The error of a refused call; `text` gives the message that comes with the refusal. */
  function FailureOf(response: Daemon.Response, text: Daemon.Response -> string): Option<Error> {
    match response
    case Refused(code, owner) => Some(ClientError(Refusal(code, owner, text(response))))
    case _ => None
  }

  /** The call that a run at this stage waits for, with the answer it is handed. */
  function AnsweredCall(stage: Fleet.Stage, response: Daemon.Response, text: Daemon.Response -> string): seq<Event> {
    match stage
    case Claiming(_) =>
      [ClaimCall(match response
                 case Receipt(receipt) => Success(receipt)
                 case NoContent => Success(ClaimReceipt("", 0))
                 case Refused(_, _) => Failure(FailureOf(response, text).value))]
    case Publishing(_, _) => [PublishCall(FailureOf(response, text))]
    case Releasing(_, _) => [ReleaseCall(FailureOf(response, text))]
    case _ => []
  }

  /** The same when the context of the call ends first. */
  function UnansweredCall(stage: Fleet.Stage): seq<Event> {
    var error := ClientError(Unreachable(Canceled));
    match stage
    case Claiming(_) => [ClaimCall(Failure(error))]
    case Publishing(_, _) => [PublishCall(Some(error))]
    case Releasing(_, _) => [ReleaseCall(Some(error))]
    case _ => []
  }

  function HandlerOf(stage: Fleet.Stage): Option<nat> {
    match stage
    case Claiming(id) => Some(id)
    case Publishing(id, _) => Some(id)
    case Releasing(id, _) => Some(id)
    case _ => None
  }

  /** The answers that run `i` has been handed along the schedule, with the calls they belong to. */
  ghost function HeardBy(f0: Fleet.Fleet, events: seq<Fleet.FleetEvent>, i: nat,
                          text: Daemon.Response -> string): seq<Event>
  {
    if events == [] then []
    else
      var n := |events| - 1;
      HeardBy(f0, events[..n], i, text) + NewlyHeard(Fleet.AfterEvents(f0, events[..n]), events[n], i, text)
  }

  ghost function NewlyHeard(f: Fleet.Fleet, event: Fleet.FleetEvent, i: nat,
                             text: Daemon.Response -> string): seq<Event>
  {
    if i < |f.stages| && event == Fleet.GiveUp(i) then UnansweredCall(f.stages[i])
    else if i < |f.stages| && event == Fleet.Return(i) then
      var hs := f.daemon.handlers;
      match HandlerOf(f.stages[i])
      case Some(id) => if id < |hs| && hs[id].Done? then AnsweredCall(f.stages[i], hs[id].response, text) else []
      case None => []
    else []
  }

  // A run of the fleet does no more ----------------------------------------------------

  /** An accepted claim, perhaps an answered publication, and `releases` answered releases. */
  ghost predicate Heard(receipt: ClaimReceipt, publishes: bool, releases: nat, heard: seq<Event>) {
    && releases <= 1 && |heard| == (if publishes then 2 else 1) + releases
    && heard[0] == ClaimCall(Success(receipt))
    && (publishes ==> heard[1].PublishCall?)
    && (releases == 1 ==> heard[|heard| - 1].ReleaseCall?)
  }

  ghost predicate ClaimFailed(client: Client, made: seq<Request>, heard: seq<Event>) {
    made == [ClaimRequest(ClaimOf(client))] && |heard| == 1 && heard[0].ClaimCall? && heard[0].answer.Failure?
  }

  ghost predicate SessionOver(client: Client, receipt: ClaimReceipt, publishes: bool, acknowledged: bool,
                              made: seq<Request>, heard: seq<Event>) {
    && made == Session(client, receipt, publishes) && Heard(receipt, publishes, 1, heard)
    && (heard[|heard| - 1].failure.None? <==> acknowledged)
  }

  ghost predicate SessionClosing(client: Client, receipt: ClaimReceipt, publishes: bool,
                                 made: seq<Request>, heard: seq<Event>)
  {
    made == Session(client, receipt, publishes) && Heard(receipt, publishes, 0, heard)
  }

  /** What the requests made and the answers heard so far can be at each stage. */
  ghost predicate StoryOk(client: Client, stage: Fleet.Stage, made: seq<Request>, heard: seq<Event>) {
    var claim := ClaimRequest(ClaimOf(client));
    match stage
    case Idle => made == [] && heard == []
    case Claiming(_) => made == [claim] && heard == []
    case Orphaned(_) => ClaimFailed(client, made, heard)
    case Held(receipt) => made == [claim] && Heard(receipt, false, 0, heard)
    case Publishing(_, receipt) =>
      made == [claim, RoutesRequest(PublicationOf(client, receipt))] && Heard(receipt, false, 0, heard)
    case Answered(receipt) =>
      made == [claim, RoutesRequest(PublicationOf(client, receipt))] && Heard(receipt, true, 0, heard)
    case Releasing(_, receipt) => exists publishes :: SessionClosing(client, receipt, publishes, made, heard)
    case Stuck(receipt) => exists publishes :: SessionOver(client, receipt, publishes, false, made, heard)
    case Abandoned(_, receipt) => exists publishes :: SessionOver(client, receipt, publishes, false, made, heard)
    case Ended =>
      || ClaimFailed(client, made, heard)
      || exists receipt, publishes :: SessionOver(client, receipt, publishes, true, made, heard)
  }

  lemma {:induction false} HeldCallKeepsStory(client: Client, receipt: ClaimReceipt, id: nat, publish: bool,
                                              made: seq<Request>, heard: seq<Event>)
    requires StoryOk(client, Fleet.Held(receipt), made, heard)
    ensures var stage := Fleet.Held(receipt);
      StoryOk(client, Fleet.Waiting(stage, id, publish),
              made + [Fleet.NextRequest(client, stage, publish).value], heard)
  {
    if !publish {
      assert SessionClosing(client, receipt, false, made + [ReleaseRequest(ReleaseOf(client, receipt))], heard);
    }
  }

  lemma {:induction false} AnsweredCallKeepsStory(client: Client, receipt: ClaimReceipt, id: nat, publish: bool,
                                                  made: seq<Request>, heard: seq<Event>)
    requires StoryOk(client, Fleet.Answered(receipt), made, heard)
    ensures var stage := Fleet.Answered(receipt);
      StoryOk(client, Fleet.Waiting(stage, id, publish),
              made + [Fleet.NextRequest(client, stage, publish).value], heard)
  {
    assert SessionClosing(client, receipt, true, made + [ReleaseRequest(ReleaseOf(client, receipt))], heard);
  }

  /** A call adds its request; */
  lemma {:induction false} CallKeepsStory(f: Fleet.Fleet, i: nat, publish: bool, made: seq<Request>, heard: seq<Event>)
    requires |f.stages| == |f.runs| && i < |f.runs| && StoryOk(f.runs[i], f.stages[i], made, heard)
    ensures StoryOk(f.runs[i], Fleet.CallStep(f, i, publish).stages[i],
                    made + NewRequest(f, Fleet.Call(i, publish), i), heard)
  {
    var client, stage, id := f.runs[i], f.stages[i], |f.daemon.handlers|;
    match stage {
      case Held(receipt) => HeldCallKeepsStory(client, receipt, id, publish, made, heard);
      case Answered(receipt) => AnsweredCallKeepsStory(client, receipt, id, publish, made, heard);
      case Idle =>
      case _ => assert made + NewRequest(f, Fleet.Call(i, publish), i) == made;
    }
  }

  /** the end of a release adds its answer to a session; */
  lemma {:induction false} ReleaseIsHeard(client: Client, receipt: ClaimReceipt, failure: Option<Error>,
                                          made: seq<Request>, heard: seq<Event>)
    requires exists publishes :: SessionClosing(client, receipt, publishes, made, heard)
    ensures exists publishes ::
      SessionOver(client, receipt, publishes, failure.None?, made, heard + [ReleaseCall(failure)])
  {
    var publishes :| SessionClosing(client, receipt, publishes, made, heard);
    assert SessionOver(client, receipt, publishes, failure.None?, made, heard + [ReleaseCall(failure)]);
  }

  /** giving up adds the failure of the call; */
  lemma {:induction false} GiveUpKeepsStory(client: Client, stage: Fleet.Stage, made: seq<Request>, heard: seq<Event>)
    requires StoryOk(client, stage, made, heard)
    ensures StoryOk(client, Fleet.GivenUp(stage), made, heard + UnansweredCall(stage))
  {
    if stage.Releasing? {
      ReleaseIsHeard(client, stage.receipt, Some(ClientError(Unreachable(Canceled))), made, heard);
    } else {
      assert UnansweredCall(stage) == [] ==> heard + UnansweredCall(stage) == heard;
    }
  }

  /** and an answer is what the daemon said. */
  lemma {:induction false} AnswerKeepsStory(client: Client, stage: Fleet.Stage, handlers: seq<Protocol.Pc>, id: nat,
                                            text: Daemon.Response -> string, made: seq<Request>, heard: seq<Event>)
    requires StoryOk(client, stage, made, heard)
    requires HandlerOf(stage) == Some(id) && id < |handlers| && handlers[id].Done?
    requires stage.Claiming? ==> handlers[id].response != Daemon.NoContent
    requires stage.Releasing? ==> !handlers[id].response.Receipt?
    ensures StoryOk(client, Fleet.Next(stage, handlers), made, heard + AnsweredCall(stage, handlers[id].response, text))
  {
    if stage.Releasing? {
      ReleaseIsHeard(client, stage.receipt, FailureOf(handlers[id].response, text), made, heard);
    }
  }

  /** A claim is answered with a receipt or a refusal, a release never with a receipt. */
  lemma {:induction false} AnswersFit(f: Fleet.Fleet, i: nat)
    requires i < |f.runs| == |f.stages| && Fleet.RunOk(f, i) && HandlerOf(f.stages[i]).Some?
    ensures var stage, hs, id := f.stages[i], f.daemon.handlers, HandlerOf(f.stages[i]).value;
      id < |hs| && (hs[id].Done? ==>
        && (stage.Claiming? ==> hs[id].response != Daemon.NoContent)
        && (stage.Releasing? ==> !hs[id].response.Receipt?))
  {}

  lemma {:induction false} ReturnKeepsStory(f: Fleet.Fleet, i: nat, text: Daemon.Response -> string,
                                            made: seq<Request>, heard: seq<Event>)
    requires i < |f.runs| == |f.stages| && Fleet.RunOk(f, i) && StoryOk(f.runs[i], f.stages[i], made, heard)
    ensures StoryOk(f.runs[i], Fleet.Next(f.stages[i], f.daemon.handlers), made,
                    heard + NewlyHeard(f, Fleet.Return(i), i, text))
  {
    var stage, hs := f.stages[i], f.daemon.handlers;
    assert heard + [] == heard;
    if HandlerOf(stage).Some? {
      AnswersFit(f, i);
      var id := HandlerOf(stage).value;
      if hs[id].Done? { AnswerKeepsStory(f.runs[i], stage, hs, id, text, made, heard); }
    }
  }

  /** Where an event leaves run `i`. */
  lemma {:induction false} StageAfter(f: Fleet.Fleet, event: Fleet.FleetEvent, i: nat)
    requires i < |f.runs| == |f.stages|
    ensures i < |Fleet.Step(f, event).stages|
    ensures Fleet.Step(f, event).stages[i] == match event
      case Call(j, publish) => if j == i then Fleet.CallStep(f, i, publish).stages[i] else f.stages[i]
      case Return(j) => if j == i then Fleet.Next(f.stages[i], f.daemon.handlers) else f.stages[i]
      case GiveUp(j) => if j == i then Fleet.GivenUp(f.stages[i]) else f.stages[i]
      case Serve(_, _, _) => f.stages[i]
  {}

  lemma {:induction false} StepKeepsStory(f: Fleet.Fleet, event: Fleet.FleetEvent, i: nat,
                                          text: Daemon.Response -> string, made: seq<Request>, heard: seq<Event>)
    requires i < |f.runs| == |f.stages| && Fleet.RunOk(f, i) && StoryOk(f.runs[i], f.stages[i], made, heard)
    ensures i < |Fleet.Step(f, event).stages|
    ensures StoryOk(f.runs[i], Fleet.Step(f, event).stages[i],
                    made + NewRequest(f, event, i), heard + NewlyHeard(f, event, i, text))
  {
    StageAfter(f, event, i);
    var requests, answers := made + NewRequest(f, event, i), heard + NewlyHeard(f, event, i, text);
    assert NewRequest(f, event, i) == [] ==> requests == made;
    assert NewlyHeard(f, event, i, text) == [] ==> answers == heard;
    if event == Fleet.Return(i) {
      ReturnKeepsStory(f, i, text, made, heard);
    } else if event == Fleet.GiveUp(i) {
      GiveUpKeepsStory(f.runs[i], f.stages[i], made, heard);
    } else if event.Call? && event.i == i {
      CallKeepsStory(f, i, event.publish, made, heard);
    } else {
      assert requests == made && answers == heard;
    }
  }

  lemma {:induction false} ReachableStory(f0: Fleet.Fleet, events: seq<Fleet.FleetEvent>, i: nat,
                                          text: Daemon.Response -> string)
    requires Fleet.FleetInitial(f0) && |events| <= Daemon.MAX_INT64 && i < |f0.runs|
    ensures var f := Fleet.AfterEvents(f0, events);
      i < |f.stages| && StoryOk(f0.runs[i], f.stages[i], MadeBy(f0, events, i), HeardBy(f0, events, i, text))
  {
    if events != [] {
      var n := |events| - 1;
      ReachableStory(f0, events[..n], i, text);
      Fleet.ReachableFleetInv(f0, events[..n]);
      StepKeepsStory(Fleet.AfterEvents(f0, events[..n]), events[n], i, text,
                     MadeBy(f0, events[..n], i), HeardBy(f0, events[..n], i, text));
    }
  }

  /** A path with this session and these answers. */
  function SessionPath(receipt: ClaimReceipt, publish: Option<Option<Error>>, release: Option<Error>): Path {
    match publish
    case None => Claimed(receipt, Disabled(Started(Unpublished([], None), [])), ReleasedLast(release))
    case Some(None) => Claimed(receipt, Disabled(Started(Published([], release), [])), ReleasedEarly)
    case Some(Some(error)) =>
      Claimed(receipt, Disabled(Started(Unpublished([AllReady], Some(error)), [])), ReleasedLast(release))
  }

  lemma {:induction false} SessionPathIsOk(receipt: ClaimReceipt, publish: Option<Option<Error>>,
                                           release: Option<Error>)
    ensures var path := SessionPath(receipt, publish, release);
      && PathOk([], false, path)
      && PublishCalls(path.stack) == (match publish case None => [] case Some(answer) => [PublishCall(answer)])
      && EarlyReleases(path.stack) + EndingTrace(path.ending) == [ReleaseCall(release)]
  {}

  lemma {:induction false} SessionPathIs(client: Client, receipt: ClaimReceipt, publish: Option<Option<Error>>,
                                         release: Option<Error>)
    ensures var path := SessionPath(receipt, publish, release);
      && PathOk([], false, path) && PathRequests(client, path) == Session(client, receipt, publish.Some?)
      && Only(PathTrace([], path), Control)
         == [ClaimCall(Success(receipt))]
            + ((match publish case None => [] case Some(answer) => [PublishCall(answer)]) + [ReleaseCall(release)])
  {
    var path := SessionPath(receipt, publish, release);
    SessionPathIsOk(receipt, publish, release);
    RequestsOfARun([], false, client, path);
    ControlCallsOfARun([], false, path);
  }

  /** What a story can be the beginning of: at each stage a claim refused, or a session. */
  ghost predicate Begins(client: Client, path: Path, made: seq<Request>, heard: seq<Event>) {
    PathOk([], false, path) && made <= PathRequests(client, path) && heard <= Only(PathTrace([], path), Control)
  }

  lemma {:induction false} HeardIsPrefix(receipt: ClaimReceipt, publishes: bool, releases: nat, heard: seq<Event>,
                                         publish: Option<Option<Error>>, release: Option<Error>)
    requires Heard(receipt, publishes, releases, heard) && (publishes ==> publish == Some(heard[1].failure))
    requires releases == 1 ==> release == heard[|heard| - 1].failure && publish.Some? == publishes
    ensures heard <= [ClaimCall(Success(receipt))]
      + ((match publish case None => [] case Some(answer) => [PublishCall(answer)]) + [ReleaseCall(release)])
  {}

  lemma {:induction false} HeardBegins(client: Client, receipt: ClaimReceipt, publishes: bool, releases: nat,
                                       made: seq<Request>, heard: seq<Event>, asked: bool) returns (path: Path)
    requires Heard(receipt, publishes, releases, heard)
    requires (publishes ==> asked) && (releases == 1 ==> asked == publishes)
    requires made <= Session(client, receipt, asked)
    ensures Begins(client, path, made, heard)
  {
    var publish := if publishes then Some(heard[1].failure) else if asked then Some(None) else None;
    var release := if releases == 1 then heard[|heard| - 1].failure else None;
    path := SessionPath(receipt, publish, release);
    SessionPathIs(client, receipt, publish, release);
    HeardIsPrefix(receipt, publishes, releases, heard, publish, release);
  }

  lemma {:induction false} StoryBegins(client: Client, stage: Fleet.Stage, made: seq<Request>, heard: seq<Event>)
    returns (path: Path)
    requires StoryOk(client, stage, made, heard)
    ensures Begins(client, path, made, heard)
  {
    if ClaimFailed(client, made, heard) {
      path := NotClaimed(heard[0].answer.error);
      ControlCallsOfARun([], false, path);
      return;
    }
    match stage {
      case Held(receipt) => path := HeardBegins(client, receipt, false, 0, made, heard, false);
      case Publishing(_, receipt) => path := HeardBegins(client, receipt, false, 0, made, heard, true);
      case Answered(receipt) => path := HeardBegins(client, receipt, true, 0, made, heard, true);
      case Releasing(_, receipt) =>
        var publishes :| SessionClosing(client, receipt, publishes, made, heard);
        path := HeardBegins(client, receipt, publishes, 0, made, heard, publishes);
      case Stuck(receipt) =>
        var publishes :| SessionOver(client, receipt, publishes, false, made, heard);
        path := HeardBegins(client, receipt, publishes, 1, made, heard, publishes);
      case Abandoned(_, receipt) =>
        var publishes :| SessionOver(client, receipt, publishes, false, made, heard);
        path := HeardBegins(client, receipt, publishes, 1, made, heard, publishes);
      case Ended =>
        var receipt, publishes :| SessionOver(client, receipt, publishes, true, made, heard);
        path := HeardBegins(client, receipt, publishes, 1, made, heard, publishes);
      case _ =>
        path := SessionPath(ClaimReceipt("", 0), None, None);
        SessionPathIs(client, ClaimReceipt("", 0), None, None);
    }
  }

  /**
   Whatever the interleaving, the requests of a run so far and the answers it was handed are
   the beginning of the requests and of the calls, with their answers, of one path.
   */
  lemma {:induction false} FleetRunsFollowPaths(f0: Fleet.Fleet, events: seq<Fleet.FleetEvent>, i: nat,
                                                text: Daemon.Response -> string) returns (path: Path)
    requires Fleet.FleetInitial(f0) && |events| <= Daemon.MAX_INT64 && i < |f0.runs|
    ensures PathOk([], false, path)
    ensures MadeBy(f0, events, i) <= PathRequests(f0.runs[i], path)
    ensures HeardBy(f0, events, i, text) <= Only(PathTrace([], path), Control)
  {
    ReachableStory(f0, events, i, text);
    var stage := Fleet.AfterEvents(f0, events).stages[i];
    path := StoryBegins(f0.runs[i], stage, MadeBy(f0, events, i), HeardBy(f0, events, i, text));
  }

  // A run of the fleet does no less ----------------------------------------------------

  /** The events with which run `i` makes a whole session; `id` is the handler of its claim. */
  function SessionEvents(i: nat, id: nat, token: string, publishes: bool): seq<Fleet.FleetEvent> {
    [Fleet.Call(i, false)] + ([Fleet.Serve(id, token, FINE)] + ([Fleet.Return(i)] + HeldEvents(i, publishes)))
  }

  function HeldEvents(i: nat, publishes: bool): seq<Fleet.FleetEvent> {
    if publishes then [Fleet.Call(i, true)] + ([Fleet.GiveUp(i)] + [Fleet.Call(i, false)]) else [Fleet.Call(i, false)]
  }

  lemma {:induction false} AfterEventsCons(f: Fleet.Fleet, event: Fleet.FleetEvent, rest: seq<Fleet.FleetEvent>)
    ensures Fleet.AfterEvents(f, [event] + rest) == Fleet.AfterEvents(Fleet.Step(f, event), rest)
    decreases |rest|
  {
    var all := [event] + rest;
    if rest == [] {
      assert all[..0] == [] && all == [event];
    } else {
      var n := |rest| - 1;
      assert all[..|all| - 1] == [event] + rest[..n];
      AfterEventsCons(f, event, rest[..n]);
    }
  }

  lemma {:induction false} MadeOne(f: Fleet.Fleet, event: Fleet.FleetEvent, i: nat)
    ensures MadeBy(f, [event], i) == NewRequest(f, event, i)
  {
    assert [event][..0] == [];
    assert MadeBy(f, [event][..0], i) == [] && Fleet.AfterEvents(f, [event][..0]) == f;
  }

  lemma {:induction false} MadeSnoc(f: Fleet.Fleet, events: seq<Fleet.FleetEvent>, last: Fleet.FleetEvent, i: nat)
    ensures MadeBy(f, events + [last], i)
      == MadeBy(f, events, i) + NewRequest(Fleet.AfterEvents(f, events), last, i)
  {
    assert (events + [last])[..|events + [last]| - 1] == events;
  }

  lemma {:induction false} MadeCons(f: Fleet.Fleet, event: Fleet.FleetEvent, rest: seq<Fleet.FleetEvent>, i: nat)
    ensures MadeBy(f, [event] + rest, i) == NewRequest(f, event, i) + MadeBy(Fleet.Step(f, event), rest, i)
    decreases |rest|, 0
  {
    hide Fleet.Step, NewRequest;
    if rest == [] {
      MadeOne(f, event, i);
      assert [event] + rest == [event];
    } else {
      MadeConsSnoc(f, event, rest[..|rest| - 1], rest[|rest| - 1], i);
      assert rest == rest[..|rest| - 1] + [rest[|rest| - 1]];
    }
  }

  lemma {:induction false} MadeConsSnoc(f: Fleet.Fleet, event: Fleet.FleetEvent, middle: seq<Fleet.FleetEvent>,
                                        last: Fleet.FleetEvent, i: nat)
    ensures MadeBy(f, [event] + (middle + [last]), i)
      == NewRequest(f, event, i) + MadeBy(Fleet.Step(f, event), middle + [last], i)
    decreases |middle|, 1
  {
    hide Fleet.Step, NewRequest, MadeBy;
    var g := Fleet.Step(f, event);
    var late := NewRequest(Fleet.AfterEvents(g, middle), last, i);
    AfterEventsCons(f, event, middle);
    MadeCons(f, event, middle, i);
    MadeSnoc(f, [event] + middle, last, i);
    MadeSnoc(g, middle, last, i);
    Regroup([event], middle, [last]);
    Regroup(NewRequest(f, event, i), MadeBy(g, middle, i), late);
  }

  lemma {:induction false} MadeOfFour(f: Fleet.Fleet, a: Fleet.FleetEvent, b: Fleet.FleetEvent, c: Fleet.FleetEvent,
                                      rest: seq<Fleet.FleetEvent>, i: nat)
    requires !b.Call? && !c.Call?
    ensures MadeBy(f, [a] + ([b] + ([c] + rest)), i)
      == NewRequest(f, a, i) + MadeBy(Fleet.Step(Fleet.Step(Fleet.Step(f, a), b), c), rest, i)
  {
    MadeCons(f, a, [b] + ([c] + rest), i);
    MadeCons(Fleet.Step(f, a), b, [c] + rest, i);
    MadeCons(Fleet.Step(Fleet.Step(f, a), b), c, rest, i);
  }

  /** Run `i` is at this stage. */
  ghost predicate At(f: Fleet.Fleet, i: nat, client: Client, stage: Fleet.Stage) {
    |f.stages| == |f.runs| && i < |f.runs| && f.runs[i] == client && f.stages[i] == stage
  }

  /** A held run publishes, gives up on the answer, and may then release. */
  lemma {:induction false} PublishesAndGivesUp(f: Fleet.Fleet, i: nat, client: Client, receipt: ClaimReceipt)
    requires At(f, i, client, Fleet.Held(receipt))
    ensures At(Fleet.Step(Fleet.Step(f, Fleet.Call(i, true)), Fleet.GiveUp(i)), i, client, Fleet.Answered(receipt))
    ensures NewRequest(f, Fleet.Call(i, true), i) == [RoutesRequest(PublicationOf(client, receipt))]
  {
    assert At(Fleet.Step(f, Fleet.Call(i, true)), i, client, Fleet.Publishing(|f.daemon.handlers|, receipt));
  }

  lemma {:induction false} ReleasesNext(f: Fleet.Fleet, i: nat, client: Client, receipt: ClaimReceipt)
    requires At(f, i, client, Fleet.Held(receipt)) || At(f, i, client, Fleet.Answered(receipt))
    ensures MadeBy(f, [Fleet.Call(i, false)], i) == [ReleaseRequest(ReleaseOf(client, receipt))]
  {
    MadeOne(f, Fleet.Call(i, false), i);
  }

  lemma {:induction false} PublishThenRelease(f: Fleet.Fleet, i: nat, client: Client, receipt: ClaimReceipt)
    requires At(f, i, client, Fleet.Held(receipt))
    ensures MadeBy(f, HeldEvents(i, true), i)
      == [RoutesRequest(PublicationOf(client, receipt)), ReleaseRequest(ReleaseOf(client, receipt))]
  {
    var publish, last := Fleet.Call(i, true), Fleet.Call(i, false);
    PublishesAndGivesUp(f, i, client, receipt);
    ReleasesNext(Fleet.Step(Fleet.Step(f, publish), Fleet.GiveUp(i)), i, client, receipt);
    MadeCons(f, publish, [Fleet.GiveUp(i)] + [last], i);
    MadeCons(Fleet.Step(f, publish), Fleet.GiveUp(i), [last], i);
  }

  lemma {:induction false} HeldToTheEnd(f: Fleet.Fleet, i: nat, client: Client, receipt: ClaimReceipt, publishes: bool)
    requires At(f, i, client, Fleet.Held(receipt))
    ensures [ClaimRequest(ClaimOf(client))] + MadeBy(f, HeldEvents(i, publishes), i)
      == Session(client, receipt, publishes)
  {
    if publishes {
      PublishThenRelease(f, i, client, receipt);
    } else {
      ReleasesNext(f, i, client, receipt);
    }
  }

  /** The daemon is free to accept the claim of run `i`, and gives it this receipt. */
  ghost predicate CanClaim(f: Fleet.Fleet, i: nat, receipt: ClaimReceipt) {
    && |f.stages| == |f.runs| && i < |f.runs| && f.stages[i].Idle?
    && f.daemon.serverLock.None?
    && Daemon.ClaimPrecheck(ClaimOf(f.runs[i])).None? && Fleet.Key(f.runs[i]) !in f.daemon.server.claims
    && receipt.generation == Daemon.NextGeneration(f.daemon.server.generation)
  }

  lemma {:induction false} ClaimIsAccepted(s: Protocol.State, id: nat, token: string, claim: Claim)
    requires id < |s.handlers| && s.handlers[id] == Protocol.ClaimWait(claim)
    requires s.serverLock.None? && claim.host !in s.server.claims
    ensures var t := Protocol.Apply(s, Protocol.Advance(id, token, FINE));
      id < |t.handlers| && t.handlers[id]
        == Protocol.Done(Daemon.Receipt(ClaimReceipt(token, Daemon.NextGeneration(s.server.generation))))
  {}

  lemma {:induction false} ClaimIsMade(f: Fleet.Fleet, i: nat, receipt: ClaimReceipt)
    requires CanClaim(f, i, receipt)
    ensures var g, id, client := Fleet.Step(f, Fleet.Call(i, false)), |f.daemon.handlers|, f.runs[i];
      && NewRequest(f, Fleet.Call(i, false), i) == [ClaimRequest(ClaimOf(client))]
      && At(g, i, client, Fleet.Claiming(id)) && g.daemon.server == f.daemon.server && g.daemon.serverLock.None?
      && id < |g.daemon.handlers|
      && g.daemon.handlers[id] == Protocol.ClaimWait(ClaimOf(client).(host := Fleet.Key(client)))
  {}

  lemma {:induction false} ClaimsAndHolds(f: Fleet.Fleet, i: nat, receipt: ClaimReceipt)
    requires CanClaim(f, i, receipt)
    ensures var g := Fleet.Step(f, Fleet.Call(i, false));
      var k := Fleet.Step(g, Fleet.Serve(|f.daemon.handlers|, receipt.token, FINE));
      && NewRequest(f, Fleet.Call(i, false), i) == [ClaimRequest(ClaimOf(f.runs[i]))]
      && At(Fleet.Step(k, Fleet.Return(i)), i, f.runs[i], Fleet.Held(receipt))
  {
    var id, client := |f.daemon.handlers|, f.runs[i];
    var g := Fleet.Step(f, Fleet.Call(i, false));
    ClaimIsMade(f, i, receipt);
    var k := Fleet.Step(g, Fleet.Serve(id, receipt.token, FINE));
    ClaimIsAccepted(g.daemon, id, receipt.token, ClaimOf(client).(host := Fleet.Key(client)));
    assert k.daemon.handlers[id] == Protocol.Done(Daemon.Receipt(receipt));
  }

  /**
   From every state of a fleet in which the daemon is free to accept the claim of an idle
   run, that run can make exactly the requests of any path with the receipt it is given.
   */
  lemma {:induction false} EveryPathIsAFleetRun(f: Fleet.Fleet, i: nat, names: seq<string>, composeEnabled: bool,
                                                path: Path)
    requires PathOk(names, composeEnabled, path) && path.Claimed? && CanClaim(f, i, path.receipt)
    ensures var events := SessionEvents(i, |f.daemon.handlers|, path.receipt.token, PublishCalls(path.stack) != []);
      MadeBy(f, events, i) == PathRequests(f.runs[i], path)
  {
    var id, receipt, publishes := |f.daemon.handlers|, path.receipt, PublishCalls(path.stack) != [];
    var held := HeldEvents(i, publishes);
    var call, serve, take := Fleet.Call(i, false), Fleet.Serve(id, receipt.token, FINE), Fleet.Return(i);
    var g := Fleet.Step(f, call);
    var k := Fleet.Step(g, serve);
    RequestsOfARun(names, composeEnabled, f.runs[i], path);
    ClaimsAndHolds(f, i, receipt);
    MadeOfFour(f, call, serve, take, held, i);
    HeldToTheEnd(Fleet.Step(k, take), i, f.runs[i], receipt, publishes);
  }
}
