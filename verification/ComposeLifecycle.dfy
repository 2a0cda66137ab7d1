/** Bringing the compose stack up and down. */
module ComposeLifecycle {
  import opened Text
  import opened ZbErr
  import opened Outside

  const COMPOSE_BACKEND := "compose_backend"

  function LifecycleFailed(message: string): Error {
    New(COMPOSE_BACKEND, "LifecycleFailed", Some(Plain(message)))
  }

  /** How Start went; `down` is the answer of the rollback. */
  datatype Attempt =
    | NotLoaded(error: Error)                       // Load or the Docker client failed: no lifecycle call
    | RolledBack(up: Error, down: Option<Error>)    // Up failed and was followed by Down
    | Running

  function AttemptTrace(attempt: Attempt): seq<Event> {
    match attempt
    case NotLoaded(_) => []
    case RolledBack(up, down) => [UpCall(Some(up)), DownCall(down)]
    case Running => [UpCall(None)]
  }

  /** The error that Start returns. */
  function AttemptError(attempt: Attempt): Option<Error> {
    match attempt
    case NotLoaded(error) => Some(error)
    case RolledBack(up, None) => Some(LifecycleFailed(Message(up)))
    case RolledBack(up, Some(down)) => Some(LifecycleFailed(Message(up) + "; rollback failed: " + Message(down)))
    case Running => None
  }

  /** What becomes of a failing Down. */
  function StopError(down: Option<Error>): Option<Error> {
    match down case None => None case Some(error) => Some(LifecycleFailed(Message(error)))
  }

  /**
   Backend.Start. `load` is the outcome of loading the project and `docker` of finding a
   lifecycle; a failed Up is rolled back before the error is returned.
   */
  method Start(world: World, load: Option<Error>, docker: Option<Error>)
    returns (failure: Option<Error>, ghost attempt: Attempt)
    modifies world`trace, world`cancelled, world`exited
    ensures old(world.cancelled) ==> world.cancelled
    ensures world.trace == old(world.trace) + AttemptTrace(attempt)
    ensures failure == AttemptError(attempt)
    ensures attempt.NotLoaded? <==> load.Some? || docker.Some?
    ensures attempt.NotLoaded? ==>
      attempt.error == if load.Some? then load.value else LifecycleFailed(Message(docker.value))
  {
    if load.Some? {
      return load, NotLoaded(load.value);
    }
    if docker.Some? {
      failure := Some(LifecycleFailed(Message(docker.value)));
      return failure, NotLoaded(failure.value);
    }
    var up := world.Up();
    if up.Some? {
      var down := world.Down();
      attempt := RolledBack(up.value, down);
      if down.Some? {
        return Some(LifecycleFailed(Message(up.value) + "; rollback failed: " + Message(down.value))), attempt;
      }
      return Some(LifecycleFailed(Message(up.value))), attempt;
    }
    return None, Running;
  }

  /** loadedStack.Stop. */
  method Stop(world: World) returns (failure: Option<Error>, ghost down: Option<Error>)
    modifies world`trace, world`cancelled, world`exited
    ensures old(world.cancelled) ==> world.cancelled
    ensures world.trace == old(world.trace) + [DownCall(down)]
    ensures failure == StopError(down)
  {
    var answer := world.Down();
    down := answer;
    failure := match answer case None => None case Some(error) => Some(LifecycleFailed(Message(error)));
  }
}
