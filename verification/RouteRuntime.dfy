/**
 The Docker Caddy route runtime: write the file, reload, commit or restore.
 The steps taken under the runtime mutex are a small machine, so that the
 protocol can interleave them with everything else; the class runs them in sequence.
 */
module RouteRuntime {
  import opened Text
  import opened ControlPlane
  import opened Hosts
  import opened Caddyfile

  /**
   `file` is the Caddyfile on disk and `loaded` the configuration Caddy serves;
   `wrote` says that the last attempt to write the file succeeded.
   */
  datatype Runtime = Runtime(publications: Table, upstreamHost: string, file: string, wrote: bool, loaded: string)

  /**
   What the outside does at one step: whether the command or the write succeeds,
   what a failed write leaves on disk, and whether the context is done afterwards.
   */
  datatype Io = Io(ok: bool, left: string, cancelled: bool)

  const RELOAD_ATTEMPTS := 10

  datatype Phase = Write | Reload(attempt: nat) | Restore

  /** An operation in progress: the table it tries to commit. */
  datatype Operation = Operation(next: Table, phase: Phase)

  datatype Progress = Running(operation: Operation) | Finished(ok: bool)

  function Normalised(publication: Publication): Publication {
    publication.(host := CanonicalHost(publication.host))
  }

  function WithPublication(table: Table, publication: Publication): Table {
    table[publication.host := publication]
  }

  function WithoutHost(table: Table, publication: Publication): Table {
    table - {CanonicalHost(publication.host)}
  }

  /** One attempt to write the rendering of `table`; a table that cannot be printed leaves the file alone. */
  ghost function WriteConfig(runtime: Runtime, table: Table, io: Io): (Runtime, bool) {
    match Render(table, runtime.upstreamHost)
    case Failure(_) => (runtime, false)
    case Success(text) =>
      if io.ok then (runtime.(file := text, wrote := true), true)
      else (runtime.(file := io.left, wrote := false), false)
  }

  /** One step under the runtime mutex. A failing reload leaves the loaded configuration unchanged. */
  ghost function Step(runtime: Runtime, operation: Operation, io: Io): (Runtime, Progress) {
    match operation.phase
    case Write =>
      var (after, ok) := WriteConfig(runtime, operation.next, io);
      (after, if ok then Running(operation.(phase := Reload(0))) else Finished(false))
    case Reload(attempt) =>
      if io.ok then
        (runtime.(loaded := runtime.file, publications := operation.next), Finished(true))
      else if io.cancelled || attempt + 1 >= RELOAD_ATTEMPTS then
        (runtime, Running(operation.(phase := Restore)))
      else
        (runtime, Running(operation.(phase := Reload(attempt + 1))))
    case Restore =>
      (WriteConfig(runtime, runtime.publications, io).0, Finished(false))
  }

  /** Steps that an operation can still take. */
  function StepsLeft(operation: Operation): nat {
    match operation.phase
    case Restore => 1
    case Reload(attempt) => if attempt < RELOAD_ATTEMPTS then 1 + RELOAD_ATTEMPTS - attempt else 2
    case Write => 2 + RELOAD_ATTEMPTS
  }

  lemma StepDecreases(runtime: Runtime, operation: Operation, io: Io)
    ensures match Step(runtime, operation, io).1
      case Finished(_) => true
      case Running(next) => StepsLeft(next) < StepsLeft(operation)
  {}

  /** Running the machine to the end; the k-th step meets `io(k)`. */
  ghost function Complete(runtime: Runtime, operation: Operation, io: nat -> Io, k: nat): (Runtime, bool)
    decreases StepsLeft(operation)
  {
    StepDecreases(runtime, operation, io(k));
    match Step(runtime, operation, io(k))
    case (after, Finished(ok)) => (after, ok)
    case (after, Running(next)) => Complete(after, next, io, k + 1)
  }

  // What holds while the mutex is free -------------------------------------

  /** The loaded configuration is the committed table, and so is the file after a successful write. */
  ghost predicate Settled(runtime: Runtime) {
    && WellKeyed(runtime.publications)
    && Render(runtime.publications, runtime.upstreamHost) == Success(runtime.loaded)
    && (runtime.wrote ==> runtime.file == runtime.loaded)
  }

  /** What holds at each step of an operation. */
  ghost predicate Underway(runtime: Runtime, operation: Operation) {
    && WellKeyed(operation.next)
    && match operation.phase
       case Write => Settled(runtime)
       case Reload(attempt) =>
         && attempt < RELOAD_ATTEMPTS
         && WellKeyed(runtime.publications)
         && Render(runtime.publications, runtime.upstreamHost) == Success(runtime.loaded)
         && Render(operation.next, runtime.upstreamHost) == Success(runtime.file)
       case Restore =>
         && WellKeyed(runtime.publications)
         && Render(runtime.publications, runtime.upstreamHost) == Success(runtime.loaded)
  }

  /** A step from `runtime` to `after` keeps the transaction, or ends it committed or untouched. */
  ghost predicate Transactional(runtime: Runtime, operation: Operation, after: Runtime, progress: Progress) {
    && after.upstreamHost == runtime.upstreamHost
    && match progress
       case Running(next) =>
         Underway(after, next) && next.next == operation.next && after.publications == runtime.publications
         && after.loaded == runtime.loaded
       case Finished(ok) =>
         && Settled(after)
         && after.publications == (if ok then operation.next else runtime.publications)
         && (ok ==> after.file == after.loaded)
         && (!ok ==> after.loaded == runtime.loaded)
  }

  /** An attempt to write a table in use: its rendering is there, or the write failed. */
  lemma {:induction false} WriteOfWellKeyed(runtime: Runtime, table: Table, io: Io)
    requires WellKeyed(table)
    ensures var (after, ok) := WriteConfig(runtime, table, io);
      && Render(table, runtime.upstreamHost).Success? && ok == io.ok && after.wrote == ok
      && after == runtime.(file := after.file, wrote := ok)
      && (ok ==> Render(table, runtime.upstreamHost) == Success(after.file))
  {
    WellKeyedRenders(table, runtime.upstreamHost);
  }

  /** Every step keeps the transaction: it ends settled, committed or untouched. */
  lemma {:induction false} StepIsTransactional(runtime: Runtime, operation: Operation, io: Io)
    requires Underway(runtime, operation)
    ensures var (after, progress) := Step(runtime, operation, io); Transactional(runtime, operation, after, progress)
  {
    match operation.phase {
      case Write => WriteOfWellKeyed(runtime, operation.next, io);
      case Reload(_) =>
      case Restore => WriteOfWellKeyed(runtime, runtime.publications, io);
    }
  }

  /** The whole operation commits its table or leaves the committed one, whatever fails on the way. */
  lemma {:induction false} CompleteIsTransactional(runtime: Runtime, operation: Operation, io: nat -> Io, k: nat)
    requires Underway(runtime, operation)
    ensures var (after, ok) := Complete(runtime, operation, io, k);
      && Settled(after)
      && after.publications == (if ok then operation.next else runtime.publications)
      && (!ok ==> after.loaded == runtime.loaded)
    decreases StepsLeft(operation)
  {
    StepIsTransactional(runtime, operation, io(k));
    StepDecreases(runtime, operation, io(k));
    match Step(runtime, operation, io(k)) {
      case (after, Finished(ok)) =>
      case (after, Running(next)) => CompleteIsTransactional(after, next, io, k + 1);
    }
  }

  /** In any state at all, only success changes the committed table, and then to the one tried. */
  lemma {:induction false} CommitsOnlyOnSuccess(runtime: Runtime, operation: Operation, io: nat -> Io, k: nat)
    ensures var (after, ok) := Complete(runtime, operation, io, k);
      after.publications == if ok then operation.next else runtime.publications
    decreases StepsLeft(operation)
  {
    StepDecreases(runtime, operation, io(k));
    match Step(runtime, operation, io(k)) {
      case (after, Finished(ok)) =>
      case (after, Running(next)) => CommitsOnlyOnSuccess(after, next, io, k + 1);
    }
  }

  /** Only a reload that succeeds makes an operation succeed, and ten failures make it fail. */
  lemma {:induction false} TenFailuresFail(runtime: Runtime, operation: Operation, io: nat -> Io, k: nat)
    requires operation.phase.Reload? && operation.phase.attempt < RELOAD_ATTEMPTS
    requires forall i :: k <= i < k + RELOAD_ATTEMPTS - operation.phase.attempt ==> !io(i).ok
    ensures !Complete(runtime, operation, io, k).1
    decreases StepsLeft(operation)
  {
    assert !io(k).ok;
    match Step(runtime, operation, io(k)) {
      case (after, Running(next)) =>
        if next.phase.Reload? { TenFailuresFail(after, next, io, k + 1); }
    }
  }

  lemma PublishKeepsWellKeyed(table: Table, publication: Publication)
    requires WellKeyed(table) && ValidPublication(publication)
    ensures WellKeyed(WithPublication(table, publication))
  {}

  lemma UnpublishKeepsWellKeyed(table: Table, publication: Publication)
    requires WellKeyed(table)
    ensures WellKeyed(WithoutHost(table, publication))
  {}

  /** What Publish and Unpublish do to the runtime as a whole. */
  ghost function PublishResult(runtime: Runtime, publication: Publication, io: nat -> Io): (Runtime, bool) {
    var normal := Normalised(publication);
    if !ValidPublication(normal) then (runtime, false)
    else Complete(runtime, Operation(WithPublication(runtime.publications, normal), Write), io, 0)
  }

  ghost function UnpublishResult(runtime: Runtime, publication: Publication, io: nat -> Io): (Runtime, bool) {
    Complete(runtime, Operation(WithoutHost(runtime.publications, publication), Write), io, 0)
  }

  function LabelOf(labels: map<string, string>, name: string): string {
    if name in labels then labels[name] else ""
  }

  /** The container was made by zerobased, for this home. */
  predicate OwnLabels(labels: map<string, string>, home: string) {
    && LabelOf(labels, "dev.zerobased.runtime") == "caddy"
    && LabelOf(labels, "dev.zerobased.owner") == "zerobased"
    && LabelOf(labels, "dev.zerobased.home") == home
  }

  ghost predicate SucceedsAfter(io: nat -> Io, n: nat) {
    io(n).ok && forall m: nat :: m < n ==> !io(m).ok && !io(m).cancelled
  }

  /** One of the ten attempts succeeds, and no earlier one met a cancelled context. */
  ghost predicate SomeReloadSucceeds(io: nat -> Io) {
    exists n: nat :: n < 10 && SucceedsAfter(io, n)
  }

  lemma {:induction false} FirstSuccess(io: nat -> Io, ok: bool, used: nat)
    requires 1 <= used <= RELOAD_ATTEMPTS && (ok <==> io(used - 1).ok)
    requires forall i: nat :: i < used - 1 ==> !io(i).ok && !io(i).cancelled
    requires !ok ==> io(used - 1).cancelled || used == RELOAD_ATTEMPTS
    ensures ok <==> SomeReloadSucceeds(io)
  {
    if ok {
      assert SucceedsAfter(io, used - 1);
    } else {
      forall n: nat | n < RELOAD_ATTEMPTS ensures !SucceedsAfter(io, n) {
        assert n >= used ==> !(!io(used - 1).ok && !io(used - 1).cancelled);
      }
    }
  }

  class DockerCaddy {
    const upstreamHost: string
    var publications: Table
    // The outside world as far as this object changes it.
    var file: string
    var wrote: bool
    var loaded: string

    ghost function State(): Runtime reads this {
      Runtime(publications, upstreamHost, file, wrote, loaded)
    }

    constructor (upstream: string)
      ensures publications == map[] && !wrote
      ensures upstreamHost == if upstream == "" then "host.docker.internal" else upstream
    {
      upstreamHost := if upstream == "" then "host.docker.internal" else upstream;
      publications := map[];
      file, loaded, wrote := "", "", false;
    }

    /**
     Bootstrap. `labels` is what inspecting the container gives, None if there is none;
     `started` answers docker run or docker start. A new container loads the file by itself,
     an owned one is started and reloaded, and a foreign one is left alone.
     */
    method Bootstrap(home: string, labels: Option<map<string, string>>, started: bool, order: seq<string>,
                     write: Io, io: nat -> Io) returns (ok: bool)
      requires Enumerates(order, publications.Keys) && WellKeyed(publications)
      modifies this
      ensures publications == old(publications)
      ensures ok <==>
        && home != "" && write.ok && started
        && (labels.Some? ==>
              && "dev.zerobased.runtime" in labels.value && labels.value["dev.zerobased.runtime"] == "caddy"
              && "dev.zerobased.owner" in labels.value && labels.value["dev.zerobased.owner"] == "zerobased"
              && "dev.zerobased.home" in labels.value && labels.value["dev.zerobased.home"] == home
              && SomeReloadSucceeds(io))
      ensures ok ==> Settled(State()) && file == loaded
      ensures !ok ==> loaded == old(loaded)
      ensures home == "" ==> State() == old(State())
    {
      hide Render, SomeReloadSucceeds;
      if home == "" {
        return false;
      }
      WellKeyedRenders(publications, upstreamHost);
      ok := WriteConfigLocked(publications, order, write);
      if !ok {
        return false;
      }
      if labels.Some? {
        if !OwnLabels(labels.value, home) || !started {
          return false;
        }
        var used;
        ok, used := ReloadLocked(io, 0);
        FirstSuccess(io, ok, used);
        return ok;
      }
      if !started {
        return false;
      }
      loaded := file;
      return true;
    }

    method WriteConfigLocked(table: Table, order: seq<string>, io: Io) returns (ok: bool)
      requires Enumerates(order, table.Keys)
      modifies this`file, this`wrote
      ensures (State(), ok) == WriteConfig(old(State()), table, io)
    {
      var content := RenderCaddyfile(table, upstreamHost, order);
      match content {
        case Failure(_) => return false;
        case Success(text) =>
          if io.ok {
            file, wrote := text, true;
          } else {
            file, wrote := io.left, false;
          }
          return io.ok;
      }
    }

    /** Up to ten attempts; `used` counts the outcomes consumed from position `k`. */
    method ReloadLocked(io: nat -> Io, k: nat) returns (ok: bool, used: nat)
      modifies this`loaded
      ensures 1 <= used <= RELOAD_ATTEMPTS
      ensures ok <==> io(k + used - 1).ok
      ensures loaded == if ok then file else old(loaded)
      ensures forall i :: k <= i < k + used - 1 ==> !io(i).ok && !io(i).cancelled
      ensures !ok ==> io(k + used - 1).cancelled || used == RELOAD_ATTEMPTS
    {
      for attempt := 0 to RELOAD_ATTEMPTS
        invariant loaded == old(loaded)
        invariant forall i :: k <= i < k + attempt ==> !io(i).ok && !io(i).cancelled
      {
        var outcome := io(k + attempt);
        if outcome.ok {
          loaded := file;
          return true, attempt + 1;
        }
        if outcome.cancelled {
          return false, attempt + 1;
        }
      }
      return false, RELOAD_ATTEMPTS;
    }

    /** From the file written for `next`: reload and commit, or restore the committed table's file. */
    method ReloadOrRestore(next: Table, orderOld: seq<string>, io: nat -> Io) returns (ok: bool)
      requires Enumerates(orderOld, publications.Keys)
      modifies this
      ensures (State(), ok) == Complete(old(State()), Operation(next, Reload(0)), io, 1)
    {
      ghost var s0 := State();
      var used;
      ok, used := ReloadLocked(io, 1);
      ReloadIsComplete(s0, Operation(next, Reload(0)), io, 1, used);
      if ok {
        publications := next;
      } else {
        var _ := WriteConfigLocked(publications, orderOld, io(1 + used));
      }
    }

    /** The common part of Publish and Unpublish: the imperative form equals the machine run to its end. */
    method Apply(next: Table, orderNext: seq<string>, orderOld: seq<string>, io: nat -> Io) returns (ok: bool)
      requires Enumerates(orderNext, next.Keys) && Enumerates(orderOld, publications.Keys)
      modifies this
      ensures (State(), ok) == Complete(old(State()), Operation(next, Write), io, 0)
    {
      WriteThenReload(State(), next, io);
      ok := WriteConfigLocked(next, orderNext, io(0));
      if ok {
        ok := ReloadOrRestore(next, orderOld, io);
      }
    }

    method Publish(publication: Publication, orderNext: seq<string>, orderOld: seq<string>, io: nat -> Io)
        returns (ok: bool)
      requires Enumerates(orderOld, publications.Keys)
      requires Enumerates(orderNext, publications.Keys + {CanonicalHost(publication.host)})
      modifies this
      ensures (State(), ok) == PublishResult(old(State()), publication, io)
      ensures old(Settled(State())) ==> Settled(State())
      ensures publications == if ok then old(publications)[CanonicalHost(publication.host) := Normalised(publication)]
                              else old(publications)
    {
      var normal := publication.(host := CanonicalHost(publication.host));
      if !ValidPublication(normal) { return false; }
      // A map is a value here; the module RouteStorage treats the copy of its storage.
      var next := publications[normal.host := normal];
      ghost var s0 := State();
      ok := Apply(next, orderNext, orderOld, io);
      CommitsOnlyOnSuccess(s0, Operation(next, Write), io, 0);
      if Settled(s0) {
        PublishKeepsWellKeyed(s0.publications, normal);
        CompleteIsTransactional(s0, Operation(next, Write), io, 0);
      }
    }

    method Unpublish(publication: Publication, orderNext: seq<string>, orderOld: seq<string>, io: nat -> Io)
        returns (ok: bool)
      requires Enumerates(orderOld, publications.Keys)
      requires Enumerates(orderNext, publications.Keys - {CanonicalHost(publication.host)})
      modifies this
      ensures (State(), ok) == UnpublishResult(old(State()), publication, io)
      ensures old(Settled(State())) ==> Settled(State())
      ensures publications == if ok then old(publications) - {CanonicalHost(publication.host)} else old(publications)
    {
      var host := CanonicalHost(publication.host);
      var next := publications - {host};
      ghost var s0 := State();
      ok := Apply(next, orderNext, orderOld, io);
      CommitsOnlyOnSuccess(s0, Operation(next, Write), io, 0);
      if Settled(s0) {
        UnpublishKeepsWellKeyed(s0.publications, publication);
        CompleteIsTransactional(s0, Operation(next, Write), io, 0);
      }
    }
  }

  /** The first step of an operation, seen from the machine. */
  lemma {:induction false} WriteThenReload(runtime: Runtime, next: Table, io: nat -> Io)
    ensures var (after, ok) := WriteConfig(runtime, next, io(0));
      Complete(runtime, Operation(next, Write), io, 0)
      == if ok then Complete(after, Operation(next, Reload(0)), io, 1) else (after, false)
  {}

  /** The reload loop, seen from the machine: `used` steps, then commit or restore. */
  lemma {:induction false} ReloadIsComplete(runtime: Runtime, operation: Operation, io: nat -> Io, k: nat, used: nat)
    requires operation.phase.Reload? && 1 <= used && operation.phase.attempt + used <= RELOAD_ATTEMPTS
    requires forall i :: k <= i < k + used - 1 ==> !io(i).ok && !io(i).cancelled
    requires !io(k + used - 1).ok ==> io(k + used - 1).cancelled || operation.phase.attempt + used == RELOAD_ATTEMPTS
    ensures Complete(runtime, operation, io, k) ==
      if io(k + used - 1).ok then (runtime.(loaded := runtime.file, publications := operation.next), true)
      else (WriteConfig(runtime, runtime.publications, io(k + used)).0, false)
    decreases used
  {
    if used > 1 {
      assert !io(k).ok && !io(k).cancelled;
      ReloadIsComplete(runtime, operation.(phase := Reload(operation.phase.attempt + 1)), io, k + 1, used - 1);
    } else if !io(k).ok {
      var restoring := operation.(phase := Restore);
      assert Step(runtime, operation, io(k)) == (runtime, Running(restoring));
      assert Complete(runtime, operation, io, k) == Complete(runtime, restoring, io, k + 1);
    }
  }
}
