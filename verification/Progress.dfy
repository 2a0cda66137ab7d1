/** Deadlock freedom of the two-lock daemon, and a bound on the steps still to take. */
module Progress {
  import opened Text
  import opened ControlPlane
  import RouteRuntime
  import opened Daemon
  import opened Protocol
  import opened ProtocolInvariant
  import opened Agreement
  import opened AgreementExact

  /** Steps a handler can still take, a whole runtime operation with its ten attempts included. */
  function StepsLeft(pc: Pc): nat {
    match pc
    case Done(_) => 0
    case ClaimWait(_) => 1
    case RoutesRecord(_, _, _) => 1
    case ReleaseFinish(_, _, _) => 1
    case RoutesRt(_, _, operation) => 1 + RouteRuntime.StepsLeft(operation)
    case ReleaseRt(_, _, operation) => 1 + RouteRuntime.StepsLeft(operation)
    case RoutesRtWait(_, _) => 4 + RouteRuntime.RELOAD_ATTEMPTS
    case ReleaseRtWait(_, _) => 4 + RouteRuntime.RELOAD_ATTEMPTS
    case RoutesWait(_) => 5 + RouteRuntime.RELOAD_ATTEMPTS
    case ReleaseWait(_) => 5 + RouteRuntime.RELOAD_ATTEMPTS
  }

  function TotalLeft(handlers: seq<Pc>): nat {
    if handlers == [] then 0 else StepsLeft(handlers[0]) + TotalLeft(handlers[1..])
  }

  lemma {:induction false} TotalAfterMove(handlers: seq<Pc>, h: nat, pc: Pc)
    requires h < |handlers|
    ensures TotalLeft(handlers[h := pc]) == TotalLeft(handlers) - StepsLeft(handlers[h]) + StepsLeft(pc)
  {
    if h > 0 {
      TotalAfterMove(handlers[1..], h - 1, pc);
      assert handlers[h := pc][1..] == handlers[1..][h - 1 := pc];
    } else {
      assert handlers[h := pc][1..] == handlers[1..];
    }
  }

  lemma {:induction false} RuntimeMoveDecreases(s: State, h: nat, token: string, io: RouteRuntime.Io)
    requires h < |s.handlers| && HoldsRuntime(s.handlers[h])
    ensures var t := Apply(s, Advance(h, token, io));
      t.handlers == s.handlers[h := t.handlers[h]] && StepsLeft(t.handlers[h]) < StepsLeft(s.handlers[h])
  {
    RouteRuntime.StepDecreases(s.runtime, s.handlers[h].operation, io);
  }

  lemma {:induction false} RoutesMoveDecreases(s: State, h: nat, token: string, io: RouteRuntime.Io)
    requires Enabled(s, h)
    requires var pc := s.handlers[h]; pc.RoutesWait? || pc.RoutesRtWait? || pc.RoutesRecord?
    ensures var t := Apply(s, Advance(h, token, io));
      t.handlers == s.handlers[h := t.handlers[h]] && StepsLeft(t.handlers[h]) < StepsLeft(s.handlers[h])
  {}

  lemma {:induction false} OtherMoveDecreases(s: State, h: nat, token: string, io: RouteRuntime.Io)
    requires Enabled(s, h) && !HoldsRuntime(s.handlers[h])
    requires var pc := s.handlers[h]; !pc.RoutesWait? && !pc.RoutesRtWait? && !pc.RoutesRecord?
    ensures var t := Apply(s, Advance(h, token, io));
      t.handlers == s.handlers[h := t.handlers[h]] && StepsLeft(t.handlers[h]) < StepsLeft(s.handlers[h])
  {}

  lemma {:induction false} MoveDecreases(s: State, h: nat, token: string, io: RouteRuntime.Io)
    requires Enabled(s, h)
    ensures var t := Apply(s, Advance(h, token, io));
      t.handlers == s.handlers[h := t.handlers[h]] && StepsLeft(t.handlers[h]) < StepsLeft(s.handlers[h])
  {
    if HoldsRuntime(s.handlers[h]) {
      RuntimeMoveDecreases(s, h, token, io);
    } else if s.handlers[h].RoutesWait? || s.handlers[h].RoutesRtWait? || s.handlers[h].RoutesRecord? {
      RoutesMoveDecreases(s, h, token, io);
    } else {
      OtherMoveDecreases(s, h, token, io);
    }
  }

  /** Every step that is possible brings the daemon closer to the end of the requests it has. */
  lemma {:induction false} EveryStepCounts(s: State, h: nat, token: string, io: RouteRuntime.Io)
    requires Enabled(s, h)
    ensures TotalLeft(Apply(s, Advance(h, token, io)).handlers) < TotalLeft(s.handlers)
  {
    MoveDecreases(s, h, token, io);
    TotalAfterMove(s.handlers, h, Apply(s, Advance(h, token, io)).handlers[h]);
  }

  /** Handler `h` alone, taking `n` steps that meet the outcomes of `io` from position `k` on. */
  function Alone(h: nat, io: nat -> RouteRuntime.Io, k: nat, n: nat): seq<Event>
    decreases n
  {
    if n == 0 then [] else [Advance(h, "", io(k))] + Alone(h, io, k + 1, n - 1)
  }

  /** Where a handler goes when its runtime operation is over. */
  function AfterRuntime(pc: Pc, ok: bool): Pc
    requires HoldsRuntime(pc)
  {
    if pc.RoutesRt? then RoutesRecord(pc.publication, pc.record, ok) else ReleaseFinish(pc.release, pc.record, ok)
  }

  /** Where it stands while the operation goes on. */
  function WithOperation(pc: Pc, next: RouteRuntime.Operation): Pc
    requires HoldsRuntime(pc)
  {
    if pc.RoutesRt? then RoutesRt(pc.publication, pc.record, next) else ReleaseRt(pc.release, pc.record, next)
  }

  /** The state once the operation performed by `h` is over with `result`: committed or not, the lock free. */
  function Ended(s: State, h: nat, result: (RouteRuntime.Runtime, bool)): State
    requires h < |s.handlers| && HoldsRuntime(s.handlers[h])
  {
    s.(runtime := result.0, runtimeLock := None, handlers := s.handlers[h := AfterRuntime(s.handlers[h], result.1)])
  }

  lemma {:induction false} OneRuntimeStep(s: State, h: nat, io: RouteRuntime.Io)
    requires h < |s.handlers| && HoldsRuntime(s.handlers[h])
    ensures var (runtime, progress) := RouteRuntime.Step(s.runtime, s.handlers[h].operation, io);
      Apply(s, Advance(h, "", io)) == match progress
        case Running(next) => s.(runtime := runtime, handlers := s.handlers[h := WithOperation(s.handlers[h], next)])
        case Finished(ok) => Ended(s, h, (runtime, ok))
  {}

  lemma {:induction false} EndedAfterStep(s: State, h: nat, runtime: RouteRuntime.Runtime,
      next: RouteRuntime.Operation, result: (RouteRuntime.Runtime, bool))
    requires h < |s.handlers| && HoldsRuntime(s.handlers[h])
    ensures var t := s.(runtime := runtime, handlers := s.handlers[h := WithOperation(s.handlers[h], next)]);
      Ended(t, h, result) == Ended(s, h, result)
  {
    var t := s.(runtime := runtime, handlers := s.handlers[h := WithOperation(s.handlers[h], next)]);
    assert Ended(t, h, result).handlers == Ended(s, h, result).handlers;
  }

  /** The same steps, one by one. */
  ghost function RunAlone(s: State, h: nat, io: nat -> RouteRuntime.Io, k: nat, n: nat): State
    decreases n
  {
    if n == 0 then s else RunAlone(Apply(s, Advance(h, "", io(k))), h, io, k + 1, n - 1)
  }

  lemma {:induction false} RunAloneIsSchedule(s: State, h: nat, io: nat -> RouteRuntime.Io, k: nat, n: nat)
    ensures RunAlone(s, h, io, k, n) == After(s, Alone(h, io, k, n))
    decreases n
  {
    if n > 0 {
      var t := Apply(s, Advance(h, "", io(k)));
      RunAloneIsSchedule(t, h, io, k + 1, n - 1);
      AfterCons(s, Advance(h, "", io(k)), Alone(h, io, k + 1, n - 1));
    }
  }

  lemma {:induction false} RunsToTheEnd(s: State, h: nat, io: nat -> RouteRuntime.Io, k: nat) returns (n: nat)
    requires h < |s.handlers| && HoldsRuntime(s.handlers[h])
    ensures RunAlone(s, h, io, k, n)
         == Ended(s, h, RouteRuntime.Complete(s.runtime, s.handlers[h].operation, io, k))
    decreases RouteRuntime.StepsLeft(s.handlers[h].operation)
  {
    RouteRuntime.StepDecreases(s.runtime, s.handlers[h].operation, io(k));
    OneRuntimeStep(s, h, io(k));
    var t := Apply(s, Advance(h, "", io(k)));
    match RouteRuntime.Step(s.runtime, s.handlers[h].operation, io(k)) {
      case (runtime, Running(next)) =>
        var m := RunsToTheEnd(t, h, io, k + 1);
        n := m + 1;
        EndedAfterStep(s, h, runtime, next, RouteRuntime.Complete(runtime, next, io, k + 1));
      case (_, Finished(_)) =>
        n := 1;
        assert RunAlone(s, h, io, k, 1) == RunAlone(t, h, io, k + 1, 0) == t;
    }
  }

  /**
   The steps of a handler that holds the runtime lock, taken one after another, give
   what the methods of the runtime give as a whole, and touch nothing else.
   */
  lemma {:induction false} RuntimeSectionIsComplete(s: State, h: nat, io: nat -> RouteRuntime.Io, k: nat)
      returns (n: nat)
    requires h < |s.handlers| && HoldsRuntime(s.handlers[h])
    ensures After(s, Alone(h, io, k, n))
         == Ended(s, h, RouteRuntime.Complete(s.runtime, s.handlers[h].operation, io, k))
  {
    n := RunsToTheEnd(s, h, io, k);
    RunAloneIsSchedule(s, h, io, k, n);
  }

  ghost predicate AllDone(s: State) {
    forall h: nat :: h < |s.handlers| ==> s.handlers[h].Done?
  }

  /** No deadlock: nobody waits for the server lock while holding the runtime lock. */
  lemma {:induction false} SomeHandlerCanStep(s: State)
    requires LocksHeld(s) && !AllDone(s)
    ensures exists h: nat :: Enabled(s, h)
  {
    var waiting: nat :| waiting < |s.handlers| && !s.handlers[waiting].Done?;
    var h := if s.runtimeLock.Some? then s.runtimeLock.value
             else if s.serverLock.Some? then s.serverLock.value
             else waiting;
    assert !HoldsServer(s.handlers[waiting]) || s.serverLock == Some(waiting);
    assert HoldsRuntime(s.handlers[h]) <==> s.runtimeLock == Some(h);
    assert HoldsServer(s.handlers[h]) <==> s.serverLock == Some(h);
    assert Enabled(s, h);
  }

  /** Every event of the schedule is a step that is possible when its turn comes. */
  ghost predicate Effective(s: State, events: seq<Event>) {
    events == [] ||
    var n := |events| - 1;
    Effective(s, events[..n]) && events[n].Advance? && Enabled(After(s, events[..n]), events[n].h)
  }

  lemma {:induction false} EffectiveIsBounded(s: State, events: seq<Event>)
    requires Inv(s) && Effective(s, events) && s.server.generation + |events| <= MAX_INT64
    ensures |events| + TotalLeft(After(s, events).handlers) <= TotalLeft(s.handlers)
    ensures Inv(After(s, events)) && After(s, events).server.generation <= s.server.generation + |events|
  {
    if events != [] {
      var n := |events| - 1;
      EffectiveIsBounded(s, events[..n]);
      var before := After(s, events[..n]);
      ApplyKeepsInv(before, events[n]);
      GenerationStep(before, events[n]);
      EveryStepCounts(before, events[n].h, events[n].token, events[n].io);
    }
  }

  /**
   Whatever the runtime answers and whoever is scheduled, a schedule of possible steps is
   no longer than the steps left, and one that cannot be extended has answered every request.
   */
  lemma {:induction false} EveryFullScheduleAnswersEveryone(s: State, events: seq<Event>)
    requires Inv(s) && Effective(s, events) && s.server.generation + |events| <= MAX_INT64
    ensures |events| <= TotalLeft(s.handlers)
    ensures (forall h: nat :: !Enabled(After(s, events), h)) <==> AllDone(After(s, events))
  {
    EffectiveIsBounded(s, events);
    var end := After(s, events);
    if !AllDone(end) { SomeHandlerCanStep(end); }
  }
}
