/**
 Everything outside one `up` run: the daemon, Docker Compose, the operating system and
 the clock. Each call may answer as it likes; the calls and their answers, errors
 included, are recorded in `trace`.
 */
module Outside {
  import opened Text
  import opened ControlPlane
  import opened ZbErr

  datatype Event =
    | ClaimCall(answer: Result<ClaimReceipt, Error>)
    | PublishCall(failure: Option<Error>) | ReleaseCall(failure: Option<Error>)
    | UpCall(failure: Option<Error>) | DownCall(failure: Option<Error>)
    | Spawn(name: string) | SpawnFailed(name: string, error: Error)
    | AllReady
    | Received(name: string, exit: Option<Error>)   // the exit value was taken from the process's channel
    | Term(name: string) | Kill(name: string)

  class World {
    var trace: seq<Event>
    // The calls to the daemon, with what they said.
    var requests: seq<Request>
    // ctx.Err() != nil. Once true it stays true.
    var cancelled: bool
    // Processes whose exit value has been sent, and those whose value has been taken.
    var exited: set<string>
    var received: set<string>

    constructor ()
      ensures trace == [] && requests == [] && exited == {} && received == {}
    {
      trace, requests, exited, received := [], [], {}, {};
      cancelled := *;
    }

    /** Time goes by. */
    method Pass()
      modifies this`cancelled, this`exited
      ensures old(cancelled) ==> cancelled
      ensures old(exited) <= exited
    {
      var signal: bool := *;
      var more: set<string> := *;
      cancelled := cancelled || signal;
      exited := exited + more;
    }

    method Log(event: Event)
      modifies this`trace
      ensures trace == old(trace) + [event]
    {
      trace := trace + [event];
    }

    /** A call that may fail, with whatever error. */
    method Attempt() returns (failure: Option<Error>)
      modifies this`cancelled, this`exited
      ensures old(cancelled) ==> cancelled
      ensures old(exited) <= exited
    {
      Pass();
      var failed: bool := *;
      var error: Error := *;
      failure := if failed then Some(error) else None;
    }

    method Claim(claim: Claim) returns (receipt: Result<ClaimReceipt, Error>)
      modifies this`trace, this`requests, this`cancelled, this`exited
      ensures old(cancelled) ==> cancelled
      ensures trace == old(trace) + [ClaimCall(receipt)]
      ensures requests == old(requests) + [ClaimRequest(claim)]
    {
      requests := requests + [ClaimRequest(claim)];
      var failure := Attempt();
      var answer: ClaimReceipt := *;
      receipt := match failure case None => Success(answer) case Some(error) => Failure(error);
      Log(ClaimCall(receipt));
    }

    method Publish(publication: Publication) returns (failure: Option<Error>)
      modifies this`trace, this`requests, this`cancelled, this`exited
      ensures old(cancelled) ==> cancelled
      ensures trace == old(trace) + [PublishCall(failure)]
      ensures requests == old(requests) + [RoutesRequest(publication)]
    {
      requests := requests + [RoutesRequest(publication)];
      failure := Attempt();
      Log(PublishCall(failure));
    }

    method Release(release: Release) returns (failure: Option<Error>)
      modifies this`trace, this`requests, this`cancelled, this`exited
      ensures old(cancelled) ==> cancelled
      ensures trace == old(trace) + [ReleaseCall(failure)]
      ensures requests == old(requests) + [ReleaseRequest(release)]
    {
      requests := requests + [ReleaseRequest(release)];
      failure := Attempt();
      Log(ReleaseCall(failure));
    }

    method Up() returns (failure: Option<Error>)
      modifies this`trace, this`cancelled, this`exited
      ensures old(cancelled) ==> cancelled
      ensures trace == old(trace) + [UpCall(failure)]
    {
      failure := Attempt();
      Log(UpCall(failure));
    }

    method Down() returns (failure: Option<Error>)
      modifies this`trace, this`cancelled, this`exited
      ensures old(cancelled) ==> cancelled
      ensures trace == old(trace) + [DownCall(failure)]
    {
      failure := Attempt();
      Log(DownCall(failure));
    }

    /** cmd.Start(). */
    method Start(name: string) returns (failure: Option<Error>)
      modifies this`trace, this`cancelled, this`exited
      ensures old(cancelled) ==> cancelled
      ensures trace == old(trace) + [if failure.None? then Spawn(name) else SpawnFailed(name, failure.value)]
    {
      failure := Attempt();
      Log(if failure.None? then Spawn(name) else SpawnFailed(name, failure.value));
    }

    /** A receive from the process's channel that does not block. One value is ever sent on it. */
    method Poll(name: string) returns (value: Option<Option<Error>>)
      modifies this`trace, this`received
      ensures value.Some? <==> name in exited && name !in old(received)
      ensures trace == if value.Some? then old(trace) + [Received(name, value.value)] else old(trace)
      ensures received == if value.Some? then old(received) + {name} else old(received)
    {
      if name !in exited || name in received {
        return None;
      }
      received := received + {name};
      var exitValue: Option<Error> := *;
      Log(Received(name, exitValue));
      return Some(exitValue);
    }

    /** Whether every readiness file exists at this moment. */
    method CheckReady() returns (ready: bool)
      modifies this`trace
      ensures trace == if ready then old(trace) + [AllReady] else old(trace)
    {
      ready := *;
      if ready { Log(AllReady); }
    }
  }
}
