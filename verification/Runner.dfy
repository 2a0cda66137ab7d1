/**
 One `up` run. The deferred functions of the source run in reverse order of their
 registration; here each method performs the cleanup that its own part registered after
 the part it encloses, and the named result `err` is threaded through.
 */
module Runner {
  import opened Text
  import opened ControlPlane
  import opened ZbErr
  import opened Outside
  import opened Processes
  import opened ComposeLifecycle

  // What a run did ------------------------------------------------------------

  /** From the first wait to the end of the body. */
  datatype Serving =
    | Unpublished(waited: seq<Event>, refusal: Option<Error>)
    | Published(foreground: seq<Event>, release: Option<Error>)

  datatype Local =
    | NotStarted(spawned: nat, cause: Error, ends: seq<Event>)
    | Started(serving: Serving, ends: seq<Event>)

  datatype Stack =
    | Disabled(local: Local)
    | Failed(attempt: Attempt)
    | Stopped(local: Local, down: Option<Error>)

  datatype Path =
    | NotSetUp(error: Error)                      // nothing was claimed: configuration error
    | NotClaimed(refusal: Error)
    | Claimed(receipt: ClaimReceipt, stack: Stack, ending: Ending)

  /** A published run has released before its processes ended; any other releases last. */
  datatype Ending = ReleasedEarly | ReleasedLast(release: Option<Error>)

  function ServingTrace(serving: Serving): seq<Event> {
    match serving
    case Unpublished(waited, refusal) => waited + (if refusal.Some? then [PublishCall(refusal)] else [])
    case Published(foreground, release) =>
      [AllReady] + [PublishCall(None)] + foreground + [ReleaseCall(release)]
  }

  function LocalTrace(names: seq<string>, local: Local): seq<Event> {
    match local
    case NotStarted(spawned, cause, ends) =>
      if spawned < |names| then
        Spawns(names[..spawned]) + [SpawnFailed(names[spawned], cause)] + Terms(names[..spawned]) + ends
      else []
    case Started(serving, ends) => Spawns(names) + ServingTrace(serving) + Terms(names) + ends
  }

  function StackTrace(names: seq<string>, stack: Stack): seq<Event> {
    match stack
    case Disabled(local) => LocalTrace(names, local)
    case Failed(attempt) => AttemptTrace(attempt)
    case Stopped(local, down) => [UpCall(None)] + LocalTrace(names, local) + [DownCall(down)]
  }

  function LocalOf(stack: Stack): Option<Local> {
    match stack
    case Disabled(local) => Some(local)
    case Failed(_) => None
    case Stopped(local, _) => Some(local)
  }

  predicate IsPublished(stack: Stack) {
    LocalOf(stack).Some? && LocalOf(stack).value.Started? && LocalOf(stack).value.serving.Published?
  }

  function EndingTrace(ending: Ending): seq<Event> {
    match ending case ReleasedEarly => [] case ReleasedLast(release) => [ReleaseCall(release)]
  }

  /** The whole trace. */
  function PathTrace(names: seq<string>, path: Path): seq<Event> {
    match path
    case NotSetUp(_) => []
    case NotClaimed(refusal) => [ClaimCall(Failure(refusal))]
    case Claimed(receipt, stack, ending) =>
      [ClaimCall(Success(receipt))] + StackTrace(names, stack) + EndingTrace(ending)
  }

  /** What the calls to the daemon say: every one names the same run and carries the receipt. */
  function ServingRequests(client: Client, receipt: ClaimReceipt, serving: Serving): seq<Request> {
    match serving
    case Unpublished(_, refusal) => if refusal.Some? then [RoutesRequest(PublicationOf(client, receipt))] else []
    case Published(_, _) => [RoutesRequest(PublicationOf(client, receipt)), ReleaseRequest(ReleaseOf(client, receipt))]
  }

  function StackRequests(client: Client, receipt: ClaimReceipt, stack: Stack): seq<Request> {
    match LocalOf(stack)
    case Some(Started(serving, _)) => ServingRequests(client, receipt, serving)
    case _ => []
  }

  function EndingRequests(client: Client, receipt: ClaimReceipt, ending: Ending): seq<Request> {
    match ending case ReleasedEarly => [] case ReleasedLast(_) => [ReleaseRequest(ReleaseOf(client, receipt))]
  }

  function PathRequests(client: Client, path: Path): seq<Request> {
    match path
    case NotSetUp(_) => []
    case NotClaimed(_) => [ClaimRequest(ClaimOf(client))]
    case Claimed(receipt, stack, ending) =>
      [ClaimRequest(ClaimOf(client))] + StackRequests(client, receipt, stack) + EndingRequests(client, receipt, ending)
  }

  // What the outcomes are constrained to ---------------------------------------

  ghost predicate WaitedOk(names: seq<string>, waited: seq<Event>) {
    |waited| == 0 || (|waited| == 1 && waited[0].Received? && waited[0].name in names)
  }

  function Taken(waited: seq<Event>): set<string> {
    if |waited| == 1 && waited[0].Received? then {waited[0].name} else {}
  }

  ghost predicate ServingOk(names: seq<string>, serving: Serving) {
    match serving
    case Unpublished(waited, refusal) =>
      (waited == [AllReady] || WaitedOk(names, waited)) && (refusal.Some? ==> waited == [AllReady])
    case Published(foreground, _) => WaitedOk(names, foreground)
  }

  function TakenBy(serving: Serving): set<string> {
    match serving
    case Unpublished(waited, _) => Taken(waited)
    case Published(foreground, _) => Taken(foreground)
  }

  ghost predicate LocalOk(names: seq<string>, local: Local) {
    match local
    case NotStarted(spawned, _, ends) => spawned < |names| && Ends(names[..spawned], {}, ends)
    case Started(serving, ends) => ServingOk(names, serving) && Ends(names, TakenBy(serving), ends)
  }

  ghost predicate StackOk(names: seq<string>, composeEnabled: bool, stack: Stack) {
    match stack
    case Disabled(local) => !composeEnabled && LocalOk(names, local)
    case Failed(attempt) => composeEnabled && attempt != Running
    case Stopped(local, _) => composeEnabled && LocalOk(names, local)
  }

  ghost predicate PathOk(names: seq<string>, composeEnabled: bool, path: Path) {
    path.Claimed? ==>
      StackOk(names, composeEnabled, path.stack) && (path.ending.ReleasedEarly? <==> IsPublished(path.stack))
  }

  // Errors -------------------------------------------------------------------

  /** The error of the body, before any cleanup. */
  predicate ServingError(serving: Serving, primary: Option<Error>) {
    match serving
    case Unpublished(waited, refusal) =>
      if refusal.Some? then primary == Some(New(STACK_ORCHESTRATOR, "GenerationCommitFailed", refusal))
      else primary.None? || (waited != [AllReady] && primary == Some(ReadinessError(waited)))
    case Published(foreground, _) =>
      primary.None?
      || (|foreground| == 1 && foreground[0].Received? && !ExitOfCancellation(foreground[0])
          && primary == Some(ForegroundError(foreground[0])))
  }

  predicate LocalError(local: Local, primary: Option<Error>) {
    match local
    case NotStarted(_, cause, _) =>
      primary.None? || primary == Some(New(STACK_ORCHESTRATOR, "DependencyStartFailed", Some(cause)))
    case Started(serving, _) => ServingError(serving, primary)
  }

  /** What mapComposeStartError makes of an error. */
  ghost predicate MappedFrom(mapped: Error, err: Error) {
    var code :=
      if Carries(err, COMPOSE_BACKEND, "ModelInvalid") || Carries(err, COMPOSE_BACKEND, "IsolationRejected")
      then "PreflightRejected"
      else if Carries(err, COMPOSE_BACKEND, "LifecycleFailed") then "DependencyStartFailed"
      else CRITICAL;
    mapped == Zb(STACK_ORCHESTRATOR, code, "", "", Some(err),
                 if code == CRITICAL then CriticalOrigin(STACK_ORCHESTRATOR, err, []) else [])
  }

  ghost predicate StackError(stack: Stack, primary: Option<Error>) {
    match stack
    case Disabled(local) => LocalError(local, primary)
    case Failed(attempt) =>
      primary.Some? && AttemptError(attempt).Some? && MappedFrom(primary.value, AttemptError(attempt).value)
    case Stopped(local, _) => LocalError(local, primary)
  }

  /** The error of the body is determined by what the path met; only its absence may have a cause elsewhere. */
  ghost predicate PathError(path: Path, primary: Option<Error>) {
    match path
    case NotSetUp(error) => primary == Some(error)
    case NotClaimed(refusal) => primary == Some(New(STACK_ORCHESTRATOR, "ClaimRejected", Some(refusal)))
    case Claimed(_, stack, _) => StackError(stack, primary)
  }

  /** A process that itself reports cancellation ended the foreground. */
  predicate ExitEndedIt(serving: Serving) {
    serving.Published? && serving.foreground != [] && ExitOfCancellation(serving.foreground[0])
  }

  /** Nothing but a cancellation ends the body without an error. */
  predicate QuietOnlyIfCancelled(stack: Stack, primary: Option<Error>, cancelled: bool) {
    match LocalOf(stack)
    case None => true
    case Some(local) =>
      primary.Some? || (local.Started? && ExitEndedIt(local.serving)) || cancelled
  }

  /** Compose is called only if loading the project and finding Docker succeeded; otherwise their error is kept. */
  predicate LoadedAs(stack: Stack, load: Option<Error>, docker: Option<Error>) {
    match stack
    case Disabled(_) => true
    case Failed(NotLoaded(error)) =>
      if load.Some? then error == load.value
      else docker.Some? && error == LifecycleFailed(Message(docker.value))
    case _ => load.None? && docker.None?
  }

  /** What a deferred cleanup makes of the named result. */
  function WithCleanup(err: Option<Error>, cleanup: Option<Error>): Option<Error> {
    match cleanup
    case None => err
    case Some(failure) =>
      var cause := match err
        case None => failure
        case Some(primary) => Wrapped(Message(failure) + "; primary error: " + Message(primary), failure);
      Some(New(STACK_ORCHESTRATOR, "CleanupFailed", Some(cause)))
  }

  function ReleaseCleanup(local: Local): seq<Option<Error>> {
    if local.Started? && local.serving.Published? then [local.serving.release] else []
  }

  function StackCleanups(stack: Stack): seq<Option<Error>> {
    match stack
    case Disabled(local) => ReleaseCleanup(local)
    case Failed(_) => []
    case Stopped(local, down) => ReleaseCleanup(local) + [StopError(down)]
  }

  function EndingCleanups(ending: Ending): seq<Option<Error>> {
    match ending case ReleasedEarly => [] case ReleasedLast(release) => [release]
  }

  /** The failures of the cleanups that ran, in the order they ran. */
  function Cleanups(path: Path): seq<Option<Error>> {
    match path
    case NotSetUp(_) => []
    case NotClaimed(_) => []
    case Claimed(_, stack, ending) => StackCleanups(stack) + EndingCleanups(ending)
  }

  function FinalError(primary: Option<Error>, cleanups: seq<Option<Error>>): Option<Error>
    decreases |cleanups|
  {
    if cleanups == [] then primary else FinalError(WithCleanup(primary, cleanups[0]), cleanups[1..])
  }

  lemma {:induction false} FinalErrorAppend(primary: Option<Error>, cleanups: seq<Option<Error>>, last: Option<Error>)
    ensures FinalError(primary, cleanups + [last]) == WithCleanup(FinalError(primary, cleanups), last)
    decreases |cleanups|
  {
    if cleanups != [] {
      assert (cleanups + [last])[1..] == cleanups[1..] + [last];
      FinalErrorAppend(WithCleanup(primary, cleanups[0]), cleanups[1..], last);
    } else {
      assert (cleanups + [last])[1..] == [];
    }
  }

  /** mapComposeStartError. */
  method MapComposeStartError(err: Error) returns (mapped: Error)
    ensures MappedFrom(mapped, err)
  {
    var modelInvalid := Is(Some(err), COMPOSE_BACKEND, "ModelInvalid");
    var isolation := Is(Some(err), COMPOSE_BACKEND, "IsolationRejected");
    if modelInvalid || isolation {
      return New(STACK_ORCHESTRATOR, "PreflightRejected", Some(err));
    }
    var lifecycle := Is(Some(err), COMPOSE_BACKEND, "LifecycleFailed");
    if lifecycle {
      return New(STACK_ORCHESTRATOR, "DependencyStartFailed", Some(err));
    }
    mapped := Critical(STACK_ORCHESTRATOR, err, []);
  }

  // The run ------------------------------------------------------------------

  method ReleaseClaim(world: World, request: Release, err: Option<Error>)
    returns (result: Option<Error>, ghost release: Option<Error>)
    modifies world`trace, world`requests, world`cancelled, world`exited
    ensures world.requests == old(world.requests) + [ReleaseRequest(request)]
    ensures old(world.cancelled) ==> world.cancelled
    ensures world.trace == old(world.trace) + [ReleaseCall(release)]
    ensures result == WithCleanup(err, release)
  {
    var failure := world.Release(request);
    release := failure;
    if failure.Some? {
      var cause := failure.value;
      if err.Some? {
        cause := Wrapped(Message(failure.value) + "; primary error: " + Message(err.value), failure.value);
      }
      return Some(New(STACK_ORCHESTRATOR, "CleanupFailed", Some(cause))), release;
    }
    return err, release;
  }

  /** The body after the processes were started, with the release it defers. */
  method Serve(world: World, client: Client, receipt: ClaimReceipt, names: seq<string>, ticks: nat, polls: nat)
    returns (err: Option<Error>, published: bool, ghost serving: Serving, ghost primary: Option<Error>)
    requires world.received == {}
    modifies world
    ensures world.trace == old(world.trace) + ServingTrace(serving)
    ensures ServingOk(names, serving) && world.received == TakenBy(serving)
    ensures published <==> serving.Published?
    ensures err == if published then WithCleanup(primary, serving.release) else primary
    ensures ServingError(serving, primary)
    ensures world.requests == old(world.requests) + ServingRequests(client, receipt, serving)
    ensures old(world.cancelled) ==> serving.Unpublished? && serving.refusal.None? && err.None?
    ensures old(world.cancelled) || (primary.None? && !ExitEndedIt(serving)) ==> world.cancelled
  {
    published := false;
    var failure, waited := WaitForReadiness(world, names, ticks);
    serving := Unpublished(waited, None);
    if failure.Some? {
      if world.cancelled {
        return None, false, serving, None;
      }
      return failure, false, serving, failure;
    }
    if world.cancelled {
      return None, false, serving, None;
    }
    var refusal := world.Publish(PublicationOf(client, receipt));
    if refusal.Some? {
      err := Some(New(STACK_ORCHESTRATOR, "GenerationCommitFailed", refusal));
      return err, false, Unpublished([AllReady], refusal), err;
    }
    published := true;
    ghost var foreground;
    err, foreground := WaitForeground(world, names, polls);
    primary := err;
    ghost var release;
    err, release := ReleaseClaim(world, ReleaseOf(client, receipt), err);
    serving := Published(foreground, release);
  }

  /** Starting the processes, the part above, and stopping them. */
  method RunProcesses(world: World, client: Client, receipt: ClaimReceipt, order: seq<string>, ticks: nat, polls: nat)
    returns (err: Option<Error>, published: bool, ghost local: Local, ghost primary: Option<Error>)
    requires world.received == {} && Distinct(order)
    modifies world
    ensures var names := SortStrings(order);
      world.trace == old(world.trace) + LocalTrace(names, local) && LocalOk(names, local)
    ensures published <==> local.Started? && local.serving.Published?
    ensures err == FinalError(primary, ReleaseCleanup(local))
    ensures LocalError(local, primary)
    ensures world.requests == old(world.requests)
      + (if local.Started? then ServingRequests(client, receipt, local.serving) else [])
    ensures old(world.cancelled) ==> !published && err.None? && world.requests == old(world.requests)
    ensures old(world.cancelled) ==> world.cancelled
    ensures QuietOnlyIfCancelled(Disabled(local), primary, world.cancelled)
  {
    ghost var spawned: nat, cause, ends;
    var started;
    started, spawned, cause, ends := StartProcesses(world, order);
    if started.Failure? {
      local := NotStarted(spawned, cause, ends);
      ghost var names := SortStrings(order);
      ghost var spawns, terms := Spawns(names[..spawned]), Terms(names[..spawned]);
      ghost var failed := [SpawnFailed(names[spawned], cause)];
      Regroup(old(world.trace), spawns, failed);
      Regroup(old(world.trace), spawns + failed, terms);
      Regroup(old(world.trace), spawns + failed + terms, ends);
      err := if world.cancelled then None else Some(started.error);
      return err, false, local, err;
    }
    var running := started.value;
    ghost var serving;
    err, published, serving, primary := Serve(world, client, receipt, running, ticks, polls);
    ends := TerminateProcesses(world, running);
    local := Started(serving, ends);
    Regroup(old(world.trace), Spawns(running), ServingTrace(serving));
    Regroup(old(world.trace), Spawns(running) + ServingTrace(serving), Terms(running));
    Regroup(old(world.trace), Spawns(running) + ServingTrace(serving) + Terms(running), ends);
  }

  /** The deferred stop of the compose stack. */
  method StopStack(world: World, err: Option<Error>) returns (result: Option<Error>, ghost down: Option<Error>)
    modifies world`trace, world`cancelled, world`exited
    ensures old(world.cancelled) ==> world.cancelled
    ensures world.trace == old(world.trace) + [DownCall(down)]
    ensures result == WithCleanup(err, StopError(down))
  {
    var failure;
    failure, down := Stop(world);
    if failure.Some? {
      var cause := failure.value;
      if err.Some? {
        cause := Wrapped(Message(failure.value) + "; primary error: " + Message(err.value), failure.value);
      }
      return Some(New(STACK_ORCHESTRATOR, "CleanupFailed", Some(cause))), down;
    }
    return err, down;
  }

  /** Starting the compose stack if one is configured, the part above, and stopping the stack. */
  method RunStack(world: World, client: Client, receipt: ClaimReceipt, composeEnabled: bool,
                  load: Option<Error>, docker: Option<Error>, order: seq<string>, ticks: nat, polls: nat)
    returns (err: Option<Error>, published: bool, ghost stack: Stack, ghost primary: Option<Error>)
    requires world.received == {} && Distinct(order)
    modifies world
    ensures var names := SortStrings(order);
      world.trace == old(world.trace) + StackTrace(names, stack) && StackOk(names, composeEnabled, stack)
    ensures published <==> IsPublished(stack)
    ensures err == FinalError(primary, StackCleanups(stack))
    ensures StackError(stack, primary)
    ensures world.requests == old(world.requests) + StackRequests(client, receipt, stack)
    ensures LoadedAs(stack, load, docker)
    ensures old(world.cancelled) ==> StackRequests(client, receipt, stack) == [] && world.cancelled
    ensures QuietOnlyIfCancelled(stack, primary, world.cancelled)
  {
    if !composeEnabled {
      ghost var local;
      err, published, local, primary := RunProcesses(world, client, receipt, order, ticks, polls);
      stack := Disabled(local);
      return;
    }
    ghost var attempt;
    var failure;
    failure, attempt := Start(world, load, docker);
    if failure.Some? {
      var mapped := MapComposeStartError(failure.value);
      return Some(mapped), false, Failed(attempt), Some(mapped);
    }
    ghost var local;
    err, published, local, primary := RunProcesses(world, client, receipt, order, ticks, polls);
    ghost var down;
    err, down := StopStack(world, err);
    stack := Stopped(local, down);
    FinalErrorAppend(primary, ReleaseCleanup(local), StopError(down));
    ghost var trace := LocalTrace(SortStrings(order), local);
    Regroup(old(world.trace), [UpCall(None)], trace);
    Regroup(old(world.trace), [UpCall(None)] + trace, [DownCall(down)]);
  }

  /** Everything after the claim, and the release that is deferred first and so runs last. */
  method RunClaimed(world: World, client: Client, receipt: ClaimReceipt, composeEnabled: bool,
                    load: Option<Error>, docker: Option<Error>, order: seq<string>, ticks: nat, polls: nat)
    returns (err: Option<Error>, ghost stack: Stack, ghost ending: Ending, ghost primary: Option<Error>)
    requires world.received == {} && Distinct(order)
    modifies world
    ensures StackOk(SortStrings(order), composeEnabled, stack) && StackError(stack, primary)
    ensures ending.ReleasedEarly? <==> IsPublished(stack)
    ensures world.trace == old(world.trace) + StackTrace(SortStrings(order), stack) + EndingTrace(ending)
    ensures err == FinalError(primary, StackCleanups(stack) + EndingCleanups(ending))
    ensures world.requests
      == old(world.requests) + StackRequests(client, receipt, stack) + EndingRequests(client, receipt, ending)
    ensures LoadedAs(stack, load, docker)
    ensures old(world.cancelled) ==> StackRequests(client, receipt, stack) == []
    ensures QuietOnlyIfCancelled(stack, primary, world.cancelled)
  {
    var published;
    err, published, stack, primary := RunStack(world, client, receipt, composeEnabled, load, docker, order, ticks,
      polls);
    ending := ReleasedEarly;
    assert StackCleanups(stack) + [] == StackCleanups(stack);
    if !published {
      ghost var release;
      err, release := ReleaseClaim(world, ReleaseOf(client, receipt), err);
      ending := ReleasedLast(release);
      FinalErrorAppend(primary, StackCleanups(stack), release);
    }
  }

  /**
   Run. `setup` is the error of anything before the claim; `order` is the iteration order
   of the configured processes. Cancellation is sticky: a run that is cancelled from the
   start publishes nothing, and a body that ends without an error was cancelled, or ended by
   a process that reports cancellation.
   */
  method Run(world: World, client: Client, setup: Option<Error>, composeEnabled: bool,
             load: Option<Error>, docker: Option<Error>, order: seq<string>, ticks: nat, polls: nat)
    returns (err: Option<Error>, ghost path: Path, ghost primary: Option<Error>)
    requires world.received == {} && Distinct(order)
    modifies world
    ensures world.trace == old(world.trace) + PathTrace(SortStrings(order), path)
    ensures PathOk(SortStrings(order), composeEnabled, path)
    ensures err == FinalError(primary, Cleanups(path))
    ensures path.NotSetUp? <==> setup.Some?
    ensures path.NotSetUp? ==> setup == Some(path.error)
    ensures PathError(path, primary)
    ensures world.requests == old(world.requests) + PathRequests(client, path)
    ensures old(world.cancelled) && path.Claimed? ==> StackRequests(client, path.receipt, path.stack) == []
    ensures path.Claimed? ==> LoadedAs(path.stack, load, docker)
    ensures path.Claimed? ==> QuietOnlyIfCancelled(path.stack, primary, world.cancelled)
  {
    if setup.Some? {
      return setup, NotSetUp(setup.value), setup;
    }
    var answer := world.Claim(ClaimOf(client));
    if answer.Failure? {
      err := Some(New(STACK_ORCHESTRATOR, "ClaimRejected", Some(answer.error)));
      return err, NotClaimed(answer.error), err;
    }
    var receipt := answer.value;
    ghost var stack, ending;
    err, stack, ending, primary :=
      RunClaimed(world, client, receipt, composeEnabled, load, docker, order, ticks, polls);
    path := Claimed(receipt, stack, ending);
    RegroupFour(old(world.trace), [ClaimCall(answer)], StackTrace(SortStrings(order), stack), EndingTrace(ending));
    RegroupFour(old(world.requests), [ClaimRequest(ClaimOf(client))], StackRequests(client, receipt, stack),
            EndingRequests(client, receipt, ending));
  }
}
