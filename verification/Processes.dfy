/** The local processes of a run: starting, waiting for and terminating them. */
module Processes {
  import opened Text
  import opened ZbErr
  import opened Outside

  const STACK_ORCHESTRATOR := "stack_orchestrator"

  function Spawns(names: seq<string>): seq<Event> {
    seq(|names|, i requires 0 <= i < |names| => Spawn(names[i]))
  }

  function Terms(names: seq<string>): seq<Event> {
    seq(|names|, i requires 0 <= i < |names| => Term(names[i]))
  }

  predicate IsReceived(e: Event, name: string) { e.Received? && e.name == name }

  /** One end per process, in order: its exit value is taken, at most once ever, or it is killed. */
  ghost predicate Ends(names: seq<string>, taken: set<string>, ends: seq<Event>) {
    && |ends| == |names|
    && forall i :: 0 <= i < |names| ==>
         ends[i] == Kill(names[i]) || (IsReceived(ends[i], names[i]) && names[i] !in taken)
  }

  predicate Distinct(names: seq<string>) {
    forall i, j :: 0 <= i < j < |names| ==> names[i] != names[j]
  }

  method TerminateProcesses(world: World, names: seq<string>) returns (ghost ends: seq<Event>)
    requires Distinct(names)
    modifies world`trace, world`cancelled, world`exited, world`received
    ensures old(world.cancelled) ==> world.cancelled
    ensures Ends(names, old(world.received), ends)
    ensures world.trace == old(world.trace) + Terms(names) + ends
    ensures forall i :: 0 <= i < |names| && names[i] in old(world.exited) && names[i] !in old(world.received) ==>
      IsReceived(ends[i], names[i])
  {
    for t := 0 to |names|
      invariant world.trace == old(world.trace) + Terms(names)[..t]
      invariant world.received == old(world.received) && world.exited == old(world.exited)
      invariant world.cancelled == old(world.cancelled)
    {
      world.Log(Term(names[t]));
    }
    ghost var before := world.trace;
    assert before == old(world.trace) + Terms(names);
    ends := [];
    for k := 0 to |names|
      invariant old(world.cancelled) ==> world.cancelled
      invariant |ends| == k && world.trace == before + ends
      invariant forall i :: 0 <= i < k ==>
        ends[i] == Kill(names[i]) || (IsReceived(ends[i], names[i]) && names[i] !in old(world.received))
      invariant forall i :: 0 <= i < k && names[i] in old(world.exited) && names[i] !in old(world.received) ==>
        IsReceived(ends[i], names[i])
      invariant old(world.received) <= world.received && old(world.exited) <= world.exited
      invariant forall i :: k <= i < |names| ==> (names[i] in world.received <==> names[i] in old(world.received))
    {
      // A value that is already there is taken; otherwise the wait of 200 ms begins.
      var value := world.Poll(names[k]);
      if value.None? {
        world.Pass();
        var inTime: bool := *;
        if inTime { value := world.Poll(names[k]); }
      }
      if value.None? {
        world.Log(Kill(names[k]));
        ends := ends + [Kill(names[k])];
      } else {
        ends := ends + [Received(names[k], value.value)];
      }
    }
  }

  /** Starts the processes in the order of their names; `order` is the iteration order of the map. */
  method StartProcesses(world: World, order: seq<string>)
    returns (result: Result<seq<string>, Error>, ghost spawned: nat, ghost cause: Error, ghost ends: seq<Event>)
    requires Distinct(order)
    modifies world`trace, world`cancelled, world`exited, world`received
    ensures old(world.cancelled) ==> world.cancelled
    ensures match result
      case Success(running) =>
        && running == SortStrings(order)
        && world.trace == old(world.trace) + Spawns(running)
        && world.received == old(world.received)
      case Failure(error) =>
        var names := SortStrings(order);
        && spawned < |names| && Ends(names[..spawned], old(world.received), ends)
        && error == New(STACK_ORCHESTRATOR, "DependencyStartFailed", Some(cause))
        && world.trace == old(world.trace) + Spawns(names[..spawned]) + [SpawnFailed(names[spawned], cause)]
                          + Terms(names[..spawned]) + ends
  {
    var names := SortStrings(order);
    var running: seq<string> := [];
    ends, spawned, cause := [], 0, Canceled;
    for k := 0 to |names|
      invariant running == names[..k]
      invariant world.trace == old(world.trace) + Spawns(names[..k])
      invariant world.received == old(world.received)
      invariant old(world.cancelled) ==> world.cancelled
    {
      var failure := world.Start(names[k]);
      if failure.Some? {
        spawned, cause := k, failure.value;
        ends := TerminateProcesses(world, running);
        return Failure(New(STACK_ORCHESTRATOR, "DependencyStartFailed", failure)), spawned, cause, ends;
      }
      assert Spawns(names[..k + 1]) == Spawns(names[..k]) + [Spawn(names[k])];
      running := running + [names[k]];
    }
    assert names[..|names|] == names;
    return Success(running), spawned, cause, ends;
  }

  /** What a wait may have observed of the processes: nothing, or the exit of one of them. */
  ghost predicate Waited(events: seq<Event>, names: seq<string>, before: set<string>, after: set<string>) {
    || (events == [] && after == before)
    || (|events| == 1 && events[0].Received? && events[0].name in names && events[0].name !in before
        && after == before + {events[0].name})
  }

  /** Some process has exited and nobody has taken its exit value yet. */
  ghost predicate ExitPending(names: seq<string>, exited: set<string>, received: set<string>) {
    exists name :: name in names && name in exited && name !in received
  }

  /** The error of a wait for readiness that saw these events. */
  function ReadinessError(events: seq<Event>): Error {
    var cause :=
      if |events| == 1 && events[0].Received? then
        (match events[0].exit
         case Some(error) => error
         case None => Plain("process " + events[0].name + " exited before readiness"))
      else Plain("readiness timeout");
    New(STACK_ORCHESTRATOR, "ReadinessFailed", Some(cause))
  }

  /** The error of a foreground that a process exit ended. */
  function ForegroundError(exit: Event): Error
    requires exit.Received?
  {
    var cause := match exit.exit
      case Some(error) => error
      case None => Plain("process " + exit.name + " exited while zerobased up was foreground");
    New(STACK_ORCHESTRATOR, "DependencyStartFailed", Some(cause))
  }

  /** errors.Is(err, context.Canceled) for the exit value. */
  predicate ExitOfCancellation(exit: Event) {
    exit.Received? && exit.exit.Some? && Canceled in Chain(exit.exit.value)
  }

  /** One round over the processes: the first exit value there is. */
  method PollAll(world: World, names: seq<string>)
      returns (found: Option<(string, Option<Error>)>, ghost events: seq<Event>)
    modifies world`trace, world`received
    ensures world.trace == old(world.trace) + events
    ensures Waited(events, names, old(world.received), world.received)
    ensures found.Some? <==> events != []
    ensures ExitPending(names, world.exited, old(world.received)) <==> events != []
    ensures found.Some? ==> events == [Received(found.value.0, found.value.1)]
  {
    for k := 0 to |names|
      invariant world.trace == old(world.trace) && world.received == old(world.received)
      invariant forall i :: 0 <= i < k ==> names[i] !in world.exited || names[i] in world.received
    {
      var value := world.Poll(names[k]);
      if value.Some? {
        return Some((names[k], value.value)), [Received(names[k], value.value)];
      }
    }
    return None, [];
  }

  /**
   Waits until every process is ready, one exits, the deadline passes or the run is
   cancelled. `ticks` bounds the ticks before the deadline.
   */
  method WaitForReadiness(world: World, names: seq<string>, ticks: nat)
    returns (failure: Option<Error>, ghost events: seq<Event>)
    modifies world`trace, world`cancelled, world`exited, world`received
    ensures old(world.cancelled) ==> world.cancelled
    ensures world.trace == old(world.trace) + events
    ensures failure.None? ==>
      (events == [AllReady] && world.received == old(world.received))
      || (events == [] && world.cancelled && world.received == old(world.received))
    ensures failure.Some? ==>
      Waited(events, names, old(world.received), world.received) && failure.value == ReadinessError(events)
    ensures old(ExitPending(names, world.exited, world.received)) ==> events != []
  {
    var left := ticks;
    while true
      invariant old(world.cancelled) ==> world.cancelled
      invariant world.trace == old(world.trace) && world.received == old(world.received)
      invariant old(world.exited) <= world.exited
      decreases left
    {
      var ready := world.CheckReady();
      if ready {
        return None, [AllReady];
      }
      var found, seen := PollAll(world, names);
      if found.Some? {
        var cause := match found.value.1
          case Some(error) => error
          case None => Plain("process " + found.value.0 + " exited before readiness");
        return Some(New(STACK_ORCHESTRATOR, "ReadinessFailed", Some(cause))), seen;
      }
      world.Pass();
      var stop: bool := *;
      if world.cancelled && stop {
        return None, [];
      }
      var deadline: bool := *;
      if deadline || left == 0 {
        return Some(New(STACK_ORCHESTRATOR, "ReadinessFailed", Some(Plain("readiness timeout")))), [];
      }
      left := left - 1;
    }
  }

  /**
   Stays in the foreground until the run is cancelled or a process exits. `polls` bounds
   the rounds: only runs that come to an end are described.
   */
  method WaitForeground(world: World, names: seq<string>, polls: nat)
    returns (failure: Option<Error>, ghost events: seq<Event>)
    modifies world`trace, world`cancelled, world`exited, world`received
    ensures old(world.cancelled) ==> world.cancelled
    ensures world.trace == old(world.trace) + events
    ensures Waited(events, names, old(world.received), world.received)
    ensures failure.None? ==> world.cancelled || (events != [] && ExitOfCancellation(events[0]))
    ensures failure.Some? ==>
      events != [] && !ExitOfCancellation(events[0]) && failure.value == ForegroundError(events[0])
    ensures !old(world.cancelled) && old(ExitPending(names, world.exited, world.received)) ==> events != []
  {
    var left := polls;
    while true
      invariant old(world.cancelled) ==> world.cancelled
      invariant world.trace == old(world.trace) && world.received == old(world.received)
      invariant world.cancelled == old(world.cancelled) || !old(ExitPending(names, world.exited, world.received))
      invariant old(world.exited) <= world.exited
      decreases left + if world.cancelled then 0 else 1
    {
      if world.cancelled {
        return None, [];
      }
      var found, seen := PollAll(world, names);
      if found.Some? {
        world.Pass();
        match found.value.1 {
          case Some(error) =>
            if world.cancelled || Canceled in Chain(error) { return None, seen; }
            return Some(New(STACK_ORCHESTRATOR, "DependencyStartFailed", Some(error))), seen;
          case None =>
            if world.cancelled { return None, seen; }
            var cause := Plain("process " + found.value.0 + " exited while zerobased up was foreground");
            return Some(New(STACK_ORCHESTRATOR, "DependencyStartFailed", Some(cause))), seen;
        }
      }
      world.Pass();
      if left == 0 {
        world.cancelled := true; // a run that ends has been cancelled by its last round
      } else {
        left := left - 1;
      }
    }
  }
}
