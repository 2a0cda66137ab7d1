# Verified model of the zerobased control plane

`zerobased` runs a local development stack behind a named host. A daemon hands out claims on hosts
and publishes routes through a Caddy container; each `up` run claims its host, starts Docker
Compose and its own processes, publishes, waits in the foreground, and cleans up. This project
models that behaviour in Dafny and proves what it keeps over every run.

How the modules fit together:

- `Daemon`, `ApiServer`: the claim table. `Daemon` gives each critical section under the server
  mutex as a function; the class `ApiServer` performs them in place and is proved equal to them.
- `Caddyfile`, `CaddyParser`, `Dispatch`: the printer of the route table, proved against a
  specification of the text; a parser that recovers the table from the text; and first-match
  dispatch compared with longest-prefix routing.
- `RouteRuntime`, `Acceptance`: write, reload (at most ten attempts), commit or restore. The steps
  under the runtime mutex are a small machine; the class `DockerCaddy` is proved to run it to its
  end, and `Acceptance` says of which requests and outcomes an operation succeeds.
- `Protocol`, `ProtocolInvariant`, `Agreement`, `AgreementExact`, `Fencing`, `Progress`,
  `Sequential`, `Answers`, `EndToEnd`: any number of requests in flight, two mutexes, and every
  runtime call free to fail. A state machine whose steps are the sections above, its inductive
  invariant, and what follows for all schedules: agreement of the two tables and the exact hosts for
  which it holds, fencing by generation, absence of deadlock, what each request is answered, that
  an undisturbed request does what the class `ApiServer` does, and which claim a browser's request
  reaches.
- `Outside`, `Processes`, `ComposeLifecycle`, `Runner`, `RunnerTheorems`: one `up` run with its
  deferred cleanups. `Outside.World` stands for the daemon, Compose, the operating system and the
  clock, answers as it likes, and records every call in a trace. Each method's contract gives the
  trace it adds; the theorems are about the traces of all paths.
- `Fleet`, `FleetLedger`, `RunAsClient`: any number of such runs against one daemon, each free to
  give up on a call; which hosts are claimed and until when; and that the runs of the fleet make
  the calls of the orchestrator's paths, no more and no less.
- `RouteStorage`: the storage of route lists, which the other modules treat as values: copying
  and sorting in place never reach the committed table.
- `ZbErr`, `ComposePolicy`, `ProjectName`, `Hosts`: error chains, the isolation verdict, the
  Compose project name, and host normalisation.

A few choices a reader should know:

- Where the design documents and the code differ, the model follows the code. Leases, a persisted
  store, recovery and matching at path-segment boundaries are in the documents only; claims live in
  memory and a matcher is a raw prefix.
- A claim key is normalised once by the daemon and again by the route runtime, and normalising
  twice is not always normalising once (`"ab.."` gives `"ab."`, then `"ab"`). Agreement of the two
  tables is therefore proved exactly for the hosts where this does no harm
  (`AgreementExact.AgreementExactlyForSafeHosts`), a condition that can be read off the request.
- Routes are sorted by the length of their paths in bytes, so lengths are UTF-8 sizes (section 3 of
  RFC 3629) of strings of characters. Blocks are taken in the order of the text.
- A declared path may end in `*`. Then, in the order of the text, a longest prefix does not always
  come first: of `/a*` and `/ab` the one declared first answers for `/ab`, though not of `/a*` and a
  path whose last character has two bytes. `Dispatch.LongestPrefixExactly` gives the exact lists of
  routes for which it does, as a condition on the declared paths and their order.
- A run that gives up on a claim never releases it, and a release that was refused is not tried
  again. `FleetLedger.LostForGood` says what that costs: the host stays claimed.
- The generation counter is an int64 and wraps. Statements about whole runs cover all schedules of
  at most 2^63 - 1 events; `Fencing.NewGenerationsGrowUntilTheWrap` says that the wrap is exactly
  where the order of generations ends.
- Every outcome of the outside (a write, a reload, a container command, a process start, an exit, a
  cancellation) is a parameter or a free choice, so each statement covers all of them. Iteration
  over a Go map is a parameter `order` that enumerates the keys; results do not depend on it.

`dafny verify dfyconfig.toml` checks the whole project.

## Model

| member | source | states |
|---|---|---|
| Hosts.CanonicalTwice | internal/daemon/start.go:401-403 | the normal form of a host is its own normal form if and only if the trimmed, lower-cased host does not end in a dot that follows another dot or white space |
| Hosts.DoubleDotIsUnsafe | internal/route_runtime/docker_caddy.go:146-149 | concrete input: `"ab.."` is keyed `"ab."` by the daemon and `"ab"` by the runtime |
| Hosts.KelvinSignIsUnsafe | internal/daemon/start.go:401-403 | concrete input outside ASCII: a capital that lower-cases into the pattern's alphabet leads to the same disagreement |
| Hosts.SpellingsOfOneHost | internal/daemon/start.go:401-403 | letter case, surrounding white space and one final dot never make a different host |
| Text.LeqExactly | internal/up/runner.go:323 | a name comes before another if and only if it is a prefix of it or has the smaller character at the first place where they differ |
| Hosts.ValidHostIsCanonical | internal/route_runtime/docker_caddy.go:50 | every host that the pattern admits is already normal, so the runtime's keys need no further normalisation |
| Daemon.MatchDeterminesPublication | internal/daemon/start.go:303-332 | a record accepts exactly one publication, the one made of its own fields |
| Daemon.PublicationAdmittedExactly | internal/daemon/start.go:239-250 | a publication is admitted if and only if its host has a record that is not being released and it is made of that record's name, host, directory, session, routes, token and generation; the handler keeps that record |
| Daemon.MatchDeterminesRelease | internal/daemon/start.go:314-321 | a record accepts exactly one release, the one made of its own name, host, directory, session, token and generation |
| Daemon.ReleaseAdmittedExactly | internal/daemon/start.go:271-280 | a release is admitted if and only if its host has a record that is not being released and it is that one release; the record is then marked |
| Daemon.ClaimAcceptedExactly | internal/daemon/start.go:208-229 | a free host is given away with the next generation and the new token, the session that holds it gets its own receipt again, and everybody else is told the holder's directory |
| Daemon.GenerationWraps | internal/daemon/start.go:221 | the counter goes up by one modulo 2^64 and stays an int64 |
| Daemon.RepeatedClaimIsIdempotent | internal/daemon/start.go:210-229 | an accepted claim repeated by the same session gets the same token and generation and changes nothing |
| Daemon.UndoneReleaseIsAdmittedAgain | internal/daemon/start.go:284-288 | after a failed release was undone the same release is acceptable again |
| Daemon.MarkThenFinish | internal/daemon/start.go:271-300 | marking then ending a release deletes exactly its claim; marking then undoing restores the claim table |
| ApiServer.ApiServer.constructor | internal/daemon/start.go:163-168 | the daemon starts without claims at generation 0 |
| ApiServer.ApiServer.HandleClaim | internal/daemon/start.go:194-229 | the in-place handler equals the claim section; a claim without host or session is refused and changes nothing |
| ApiServer.ApiServer.HandleRoutes | internal/daemon/start.go:231-261 | missing runtime, stale publication, failed and successful publication: the answer, the claim table and the runtime's state in each case |
| ApiServer.ApiServer.BeginRelease | internal/daemon/start.go:271-280 | an admitted release marks its record, any other leaves the table alone |
| ApiServer.ApiServer.FinishRelease | internal/daemon/start.go:283-300 | after the re-check the claim is deleted or its mark is undone, as the runtime answered |
| ApiServer.ApiServer.HandleRelease | internal/daemon/start.go:263-301 | without contention a release deletes its claim or leaves the claim table as it was, the latter exactly when Unpublish was needed and failed |
| Caddyfile.SortMembers | internal/route_runtime/docker_caddy.go:245-248 | sorting keeps the routes as a multiset and puts paths with more bytes first |
| Caddyfile.SortIsStable | internal/route_runtime/docker_caddy.go:246-248 | routes whose paths have equally many bytes keep their declared order |
| Caddyfile.StableSortUnique | internal/route_runtime/docker_caddy.go:246-248 | any descending, stable rearrangement of the routes is the one the model computes |
| Caddyfile.WellKeyedRenders | internal/route_runtime/docker_caddy.go:240-244 | a table whose keys are its own valid hosts always renders |
| Caddyfile.RenderCaddyfile | internal/route_runtime/docker_caddy.go:229-268 | the printer builds the specified text, or stops at the first invalid entry in host order, whatever the iteration order of the map; what that text says is the subject of `CaddyParser.RoundTrip` |
| Caddyfile.PrintHosts | internal/route_runtime/docker_caddy.go:240-266 | the outer loop appends one block per host or reports the first invalid one |
| Caddyfile.PrintRoutes | internal/route_runtime/docker_caddy.go:254-264 | the inner loop appends one handle block per route in sorted order |
| CaddyParser.DecimalRoundTrip | internal/route_runtime/docker_caddy.go:262 | a printed port reads back as that port |
| CaddyParser.HandleRoundTrip | internal/route_runtime/docker_caddy.go:254-264 | a printed handle block reads back as its matcher and port, and nothing after it is consumed |
| CaddyParser.GlobalsReadBack | internal/route_runtime/docker_caddy.go:231-232 | the global block reads back as the one option `auto_https off` |
| CaddyParser.NotFoundReadsBack | internal/route_runtime/docker_caddy.go:233 | the catch-all block reads back as address `:80`, its text and status 404 |
| CaddyParser.RoundTrip | internal/route_runtime/docker_caddy.go:229-283 | parsing the rendered text gives back the option `auto_https off`, a catch-all of status 404 on port 80, and each host, in order, with its ordered list of matchers and ports |
| CaddyParser.SameTextSameRouting | internal/route_runtime/docker_caddy.go:229-283 | tables with equal text publish the same hosts with the same ordered handles |
| Dispatch.HandleAcceptsPrefix | internal/route_runtime/docker_caddy.go:255-261 | the emitted block accepts exactly the request paths that begin with the route's path, less one final `*` |
| Dispatch.LongestUnlessHidden | internal/route_runtime/docker_caddy.go:245-265 | for each request: the first accepting block has a prefix at least as long as every accepting one, if and only if the longest is not hidden by a `p*` declared before it |
| Dispatch.LongestPrefixExactly | internal/route_runtime/docker_caddy.go:245-293 | routing is by longest prefix for every request if and only if no declared `p*` comes before a declared `p` plus one ASCII character `c` without a declared `pc*`; the order that counts is the declared one |
| Dispatch.RenderedOrderIsLongestPrefix | internal/route_runtime/docker_caddy.go:245-265 | a request is answered by a declared route that it begins with, by nobody exactly when there is none, and by the choice of longest-prefix routing if and only if no longer prefix is hidden |
| Dispatch.CatchAllIsLast | internal/route_runtime/docker_caddy.go:246-260 | every other path comes before the `/` catch-all |
| Dispatch.DeclarationOrderIsIrrelevantExactly | internal/route_runtime/docker_caddy.go:245-248 | with distinct paths, no permutation changes who answers any request if and only if no `p*` and `p` plus one ASCII character are declared without the latter's `*` form |
| Dispatch.StarPathsCanHideLongerPrefixes | internal/route_runtime/docker_caddy.go:285-293 | concrete input: `/a*` declared before `/ab` answers for it |
| Dispatch.WiderCharactersAreNotHidden | internal/route_runtime/docker_caddy.go:246-248 | a path `p` plus a character of two or more bytes is rendered before `p*` in whatever order they are declared, and does not conflict with it |
| Acceptance.PublishSucceedsExactly | internal/route_runtime/docker_caddy.go:142-161 | from a settled runtime Publish succeeds if and only if the normalised host is two or more characters of a-z, 0-9, dot and dash with a letter or digit at each end, every port is from 1 to 65535, every path begins with a slash and has none of the six forbidden characters, the write succeeds, and one of ten reloads does before one fails with a cancelled context |
| Acceptance.UnpublishSucceedsExactly | internal/route_runtime/docker_caddy.go:163-179 | Unpublish refuses nothing: the write and one of ten reloads decide |
| Acceptance.ReloadSucceedsExactly | internal/route_runtime/docker_caddy.go:212-227 | after some failed attempts the operation succeeds if and only if one of those left of the ten does |
| RouteRuntime.StepIsTransactional | internal/route_runtime/docker_caddy.go:150-160 | each step keeps what is committed and loaded, and the last one leaves loaded configuration, committed table and, after a successful write, the file in agreement |
| RouteRuntime.CompleteIsTransactional | internal/route_runtime/docker_caddy.go:168-178 | a whole operation commits its table or leaves the committed table and the loaded configuration untouched, under every pattern of failures and cancellation |
| RouteRuntime.CommitsOnlyOnSuccess | internal/route_runtime/docker_caddy.go:155-160 | from any state at all, the committed table changes exactly on success, to the table tried |
| RouteRuntime.TenFailuresFail | internal/route_runtime/docker_caddy.go:212-227 | ten failing reloads fail the operation |
| RouteRuntime.ReloadIsComplete | internal/route_runtime/docker_caddy.go:155-159 | the retry loop followed by commit or restore is what the step machine does |
| RouteRuntime.DockerCaddy.constructor | internal/route_runtime/docker_caddy.go:52-83 | empty table, nothing written, default upstream host |
| RouteRuntime.DockerCaddy.Bootstrap | internal/route_runtime/docker_caddy.go:85-125 | succeeds if and only if there is a home, the write succeeds, an existing container carries this home's labels, docker starts or runs it, and one of ten reloads of an existing one succeeds; then the rendering of the table is on disk and loaded, otherwise the loaded configuration is untouched |
| RouteRuntime.DockerCaddy.WriteConfigLocked | internal/route_runtime/docker_caddy.go:188-200 | the file becomes the rendering, or what a failed write leaves; a table that cannot be rendered leaves the file alone |
| RouteRuntime.DockerCaddy.ReloadLocked | internal/route_runtime/docker_caddy.go:212-227 | between one and ten attempts; stops at the first success, after a failure with the context done, or after the tenth failure; loads the file exactly on success |
| RouteRuntime.DockerCaddy.ReloadOrRestore | internal/route_runtime/docker_caddy.go:155-159 | reload and commit, or restore the file of the committed table, in place |
| RouteRuntime.DockerCaddy.Apply | internal/route_runtime/docker_caddy.go:150-160 | write, reload, commit or restore in place equals the machine run to its end |
| RouteRuntime.DockerCaddy.Publish | internal/route_runtime/docker_caddy.go:142-161 | the table gains the normalised publication exactly on success, an invalid one touches nothing, and a settled runtime stays settled |
| RouteRuntime.DockerCaddy.Unpublish | internal/route_runtime/docker_caddy.go:163-179 | the table loses the normalised host exactly on success, and a settled runtime stays settled |
| RouteStorage.CopyPublications | internal/route_runtime/docker_caddy.go:202-210 | the copy has the same publications, all of its route storage is new, and no two entries share any |
| RouteStorage.NextTable | internal/route_runtime/docker_caddy.go:150-151 | the table that Publish tries is the committed one with the new entry, and shares no route storage with it |
| RouteStorage.SortInPlace | internal/route_runtime/docker_caddy.go:246-248 | sorting a route list in its own storage gives the stable order with longer paths, in bytes, first |
| RouteStorage.SortedRoutes | internal/route_runtime/docker_caddy.go:245-248 | the printer sorts fresh storage and leaves the routes of the table as declared |
| ProtocolInvariant.InitialInv | internal/daemon/start.go:163-168 | the invariant holds after bootstrap |
| ProtocolInvariant.ApplyKeepsInv | internal/daemon/start.go:194-301 | every step of every handler keeps the invariant: lock ownership, sound records, distinct generations, handlers that still see their record, releasing records in one-to-one correspondence with releases in flight, and a transactional runtime |
| Agreement.ReachableInv | internal/daemon/start.go:194-301 | the invariant holds in every state of every schedule |
| Agreement.ApplyKeepsAgreement | internal/daemon/start.go:251-298 | every step keeps the relation between claim table, committed table and handlers |
| Agreement.AgreementAtHost | internal/daemon/start.go:251-298 | a host has a committed route if and only if its record is published and not past Unpublish, or its publication is just being recorded |
| Agreement.TablesAgreeAlways | internal/daemon/start.go:251-298 | over all schedules and failures, with safe hosts, the committed table has exactly those hosts, each with the publication its record determines |
| AgreementExact.UnsafeHostDisagrees | internal/route_runtime/docker_caddy.go:146-151 | one claim and one publication of any unsafe host, nothing failing, leave a route that no record owns |
| AgreementExact.AgreementExactlyForSafeHosts | internal/route_runtime/docker_caddy.go:146-178 | the tables agree on all schedules that claim a host if and only if the host is safe |
| Fencing.ReleaseShutsTheHost | internal/daemon/start.go:213-250 | while a release is in flight every claim, publication and release of that host is refused, whoever sends it |
| Fencing.ReleaseEndsItsOwnClaim | internal/daemon/start.go:282-300 | the re-check after Unpublish always finds the record the handler marked; success deletes it and is answered NoContent, failure makes the release acceptable again and is answered PublicationRejected |
| Fencing.OnlyTheOwnReleaseEndsARecord | internal/daemon/start.go:284-298 | whatever handler moves, a record is deleted or un-marked only by the release in flight that carries its name, host, directory, session, token and generation |
| Fencing.NewGenerationsGrowUntilTheWrap | internal/daemon/start.go:221-226 | a new claim's generation is above all earlier ones if and only if the int64 counter has not reached its maximum |
| Fencing.GenerationsOverARun | internal/daemon/start.go:221-227 | the counter never decreases, and live records have distinct generations between 1 and the counter |
| Fencing.DeletedClaimsAreFenced | internal/daemon/start.go:303-320 | once a claim is deleted, nothing with its generation is accepted again for any host and any token, however the run goes on |
| Progress.EveryStepCounts | internal/daemon/start.go:244-299 | every possible step lowers a bound on the steps still to take, the ten reload attempts included |
| Progress.RuntimeSectionIsComplete | internal/route_runtime/docker_caddy.go:142-179 | the interleaved steps of one handler under the runtime lock end with the lock free and with what the sequential operation gives, and change nothing else |
| Progress.SomeHandlerCanStep | internal/daemon/start.go:244-299 | no deadlock: while a request is unanswered some handler can step |
| Progress.EveryFullScheduleAnswersEveryone | internal/daemon/start.go:244-299 | a schedule of possible steps has bounded length, and nothing more is possible if and only if every request is answered |
| Sequential.ClaimAlone | internal/daemon/start.go:194-229 | a claim that meets nobody, from its arrival to its answer, does what `ApiServer.HandleClaim` does |
| Sequential.PublicationAlone | internal/daemon/start.go:231-261 | a publication that meets nobody ends with the response, claim table and runtime that the contract of `ApiServer.HandleRoutes` gives, and both locks free |
| Sequential.ReleaseAlone | internal/daemon/start.go:263-301 | a release that meets nobody ends as the contract of `ApiServer.HandleRelease` says |
| Answers.ClaimsAreAnsweredExactly | internal/daemon/start.go:194-229 | over every schedule: a claim gets a receipt if and only if it names a host and a session and its host was free, or held and not being released by its own session, when it asked; otherwise it is refused with the code of its fault |
| Answers.PublicationsAreAnsweredExactly | internal/daemon/start.go:231-261 | over every schedule: a publication is stale if and only if it matched no live record when it asked, gets NoContent if and only if it matched and one of its reloads succeeded, and is rejected otherwise |
| Answers.ReleasesAreAnsweredExactly | internal/daemon/start.go:263-301 | over every schedule: a release is stale if and only if it matched no live record when it asked, is rejected if and only if it had a route to take down and none of its reloads succeeded, and gets NoContent otherwise |
| Answers.PublicationsAreRecorded | internal/daemon/start.go:251-260 | over every schedule: the step that answers NoContent marks the publication's own record as published with it, and no other step for a publication changes the claim table |
| Answers.ReloadCommits | internal/route_runtime/docker_caddy.go:155-160 | the reload that succeeds commits the normalised publication, or removes its host, and loads the file that says so |
| Answers.OnlyReloadsCommit | internal/route_runtime/docker_caddy.go:150-178 | nothing else changes the committed table or the loaded configuration |
| Answers.DeletionsAreAskedFor | internal/daemon/start.go:263-300 | over every schedule a record is deleted only for a release that somebody sent and that carries the record's name, host, directory, session, token and generation |
| EndToEnd.CommittedTableAnswers | internal/route_runtime/docker_caddy.go:229-268 | the loaded text, parsed back, answers each request for a published host as the committed table prescribes and for any other host with 404 |
| EndToEnd.LoadedConfigIsTheCommittedTable | internal/route_runtime/docker_caddy.go:150-178 | in every state of every schedule Caddy has the rendering of the committed table loaded, the file is the same text when no operation runs and the last write succeeded, and no table in use or being tried fails to render |
| EndToEnd.RequestsReachTheOwningClaim | internal/daemon/start.go:244-300 | in every state of every schedule a request is answered 404 if and only if no claim of its host is visible, and otherwise from the claim that owns its host: on the port of its longest declared prefix exactly unless a longer one is hidden, and with an empty answer if and only if there is none |
| Fleet.ReachableFleetInv | internal/up/runner.go:112-148 | over all interleavings of many runs, which may give up on any call: a run that was given a claim and has not asked for its release owns the live, unreleased record of its host, with the token and generation of its receipt, also while a publication it gave up on is still handled |
| Fleet.OneHolderPerHost | internal/daemon/start.go:208-228 | per canonical host, at most one run is between the acceptance of its claim and the acknowledgement of its release, noticed by it or not |
| Fleet.NobodyIsStale | internal/daemon/start.go:244-277 | no publication a run waits for and no release, waited for or given up, is refused as stale, and every claim is answered with a receipt or a refusal |
| FleetLedger.ClaimedHostsAreHeld | internal/daemon/start.go:208-299 | in every state of every interleaving the claimed hosts are exactly those that some run holds |
| FleetLedger.FleetRunsTheDaemon | internal/daemon/start.go:194-301 | the daemon of a fleet runs one of the protocol's schedules, so everything proved of those holds of it |
| FleetLedger.EverythingIsGivenBack | internal/daemon/start.go:282-299 | when no run holds anything any more the claim table is empty, and with safe hosts the committed route table too |
| FleetLedger.NothingIsLeftOfAnEndedRun | internal/daemon/start.go:295-300 | a run whose claim was refused or whose release was acknowledged leaves no live record and, with safe hosts, no committed route of its session |
| FleetLedger.LostForGood | internal/up/runner.go:132-142 | a run that is over with its release refused, or having given up on a claim that was accepted or a release that was refused, keeps its host claimed in every later state, and no other run ever gets it |
| Outside.World.Poll | internal/up/runner.go:338-343 | at most one exit value is ever received from a process |
| Processes.TerminateProcesses | internal/up/runner.go:354-370 | one SIGTERM to each process, then for each in order its exit is received, at most once ever, or it is killed; an exit that is already there is received |
| Processes.StartProcesses | internal/up/runner.go:318-347 | processes start in name order; the first failure terminates exactly those already started |
| Processes.WaitForReadiness | internal/up/runner.go:372-401 | no error means that all were ready or that the run is cancelled; the error is determined by the one exit value taken or by the timeout, and a pending exit is never overlooked |
| Processes.WaitForeground | internal/up/runner.go:412-436 | at most one exit value is taken; no error means that the run is cancelled or the process reports cancellation, and otherwise the error is made of that exit |
| ComposeLifecycle.Start | internal/composebackend/backend.go:69-91 | a failed Up is followed by exactly one Down, and the error returned is determined by the answers to both |
| ComposeLifecycle.Stop | internal/composebackend/backend.go:98-106 | exactly one Down, whose failure is reported as a lifecycle failure with its text |
| Runner.MapComposeStartError | internal/up/runner.go:482-494 | which code each kind of compose error is mapped to, with the error kept as cause and an origin chain for the critical one |
| Runner.ReleaseClaim | internal/up/runner.go:132-143 | one release call, and what its failure makes of the named result |
| Runner.Serve | internal/up/runner.go:187-214 | from readiness to the end of the foreground: trace, calls, error, and that a cancelled run never publishes |
| Runner.RunProcesses | internal/up/runner.go:173-185 | the processes started are terminated after everything in between, and a start failure under cancellation is no error |
| Runner.StopStack | internal/up/runner.go:160-170 | one Down, and what its failure makes of the named result |
| Runner.RunStack | internal/up/runner.go:150-171 | the compose stack is stopped after everything that ran inside it, and its failure wraps the error so far |
| Runner.Run | internal/up/runner.go:86-215 | every run follows one of the paths of the model, with exactly that path's trace and calls to the daemon; its error is determined by the answers in that trace and rewritten by the cleanups that ran; a run cancelled from the start publishes nothing, and a body ends without an error only under cancellation |
| RunnerTheorems.ControlCallsOfARun | internal/up/runner.go:131-148 | the calls of every path, in order: an accepted claim is followed by at most one publication and then exactly one release |
| RunnerTheorems.ComposeCallsOfARun | internal/composebackend/backend.go:78-106 | over a whole run at most one Up, and as many Downs as Ups, after it |
| RunnerTheorems.CleanupOrder | internal/up/runner.go:144-214 | a published run releases, then ends its processes, then stops compose; any other ends its processes, stops compose, then releases |
| RunnerTheorems.PublicationIsEarned | internal/up/runner.go:189-208 | a publication is preceded by exactly the accepted claim, the started stack if enabled, every process spawned, and all ready |
| RunnerTheorems.EveryProcessIsAccountedFor | internal/up/runner.go:325-428 | every spawned process gets exactly one SIGTERM and then is received or killed, its exit value is received at most once, and at most one was received before termination |
| RunnerTheorems.NilExactlyWhenAllSucceeded | internal/up/runner.go:137-170 | a run returns nil if and only if its body did and every cleanup that ran succeeded |
| RunnerTheorems.NoErrorTextIsLost | internal/up/runner.go:137-142 | the text of the body's error and of every failed cleanup is part of the final error's text |
| RunnerTheorems.CleanupTextExactly | internal/up/runner.go:137-142 | the text of a failed cleanup: its own failure first, then the error so far |
| RunnerTheorems.CleanupIdentity | internal/up/runner.go:137-142 | after a failed cleanup exactly the cleanup's own layers and codes, and the new one, can be found in the result |
| RunnerTheorems.IdentityWithoutCleanupFailure | internal/up/runner.go:137-170 | cleanups that succeed leave the result as it was |
| RunnerTheorems.RefusalsAreFound | internal/up/runner.go:119-210 | on every path with a refused claim or publication and no failing cleanup, every layer and code the refusal carries is found in the run's error, and the run's own code too |
| RunnerTheorems.ComposeErrorsAreFound | internal/up/runner.go:156-159 | what the error of a failed compose start carries is found in the run's error if the release succeeds |
| RunnerTheorems.ComposeFailureDecidesTheCode | internal/up/runner.go:482-494 | if the release succeeds: a failed Up ends the run with DependencyStartFailed and the texts of Up and rollback; an invalid model or an isolation verdict with PreflightRejected; a lifecycle failure with DependencyStartFailed; anything else with a critical error whose origin chain begins with the run's own layer |
| RunnerTheorems.LocalFailureDecidesTheCode | internal/up/runner.go:318-436 | if the cleanups succeed: the run's error for a process that does not start, exits before readiness or in the foreground, a timeout, and a refused publication, each with its own code around the error met |
| RunnerTheorems.RefusedClaimDecidesTheCode | internal/up/runner.go:119-122 | a refused claim ends the run with ClaimRejected around the refusal |
| RunnerTheorems.CancelledExitIsNoError | internal/up/runner.go:418-421 | a process that itself reports cancellation ends the foreground without an error |
| RunnerTheorems.FailedDownIsReported | internal/composebackend/backend.go:98-106 | what a failing Down said is in the final error's text as a lifecycle failure, whatever else fails |
| RunAsClient.CallFailuresAreFound | internal/controlplane/client.go:52-86 | each refusal of the daemon under its own code, an answer that cannot be decoded as critical, and a missing answer as a failed connection are found in the error of a run whose cleanups succeed, with the owner and message of a refusal |
| RunAsClient.RequestsOfARun | internal/up/runner.go:112-214 | on every path a run makes no call, its claim alone, or a whole session: its claim, at most one publication and one release, all with the fields of one client and one receipt |
| RunAsClient.FleetRunsFollowPaths | internal/up/runner.go:112-214 | whatever the interleaving, the requests a run of the fleet has made and the answers it was handed, or gave up on, are the beginning of the requests and of the answered calls of one path |
| RunAsClient.EveryPathIsAFleetRun | internal/up/runner.go:112-214 | from every state of a fleet in which the daemon is free to accept an idle run's claim, some schedule makes exactly the requests of any path with that receipt |
| ZbErr.Is | internal/zberr/error.go:113-122 | finds a layer and code if and only if some error in the cause chain has both |
| ZbErr.Critical | internal/zberr/error.go:39-49 | a critical error always has an origin chain, begun by its own layer and continued by that of the first such error in the cause, and so validates |
| ZbErr.MessageParts | internal/zberr/error.go:75-91 | the text is layer, code, phase and owner where set, and the cause's text |
| ZbErr.WrappingKeeps | internal/zberr/error.go:93-98 | wrapping an error adds its own layer and code and loses none |
| ZbErr.CauseTextOccurs | internal/zberr/error.go:75-91 | the text of a cause is part of the text of the error |
| ComposePolicy.MergeResources | internal/composebackend/backend.go:286-293 | one file's entries of a kind are merged, names overriding earlier ones and external marks accumulating, in any iteration order |
| ComposePolicy.LoadRawPolicies | internal/composebackend/backend.go:266-320 | fails with the error of the first file that cannot be read or parsed, and otherwise the merged policies know a resource as named or external if and only if some file says so |
| ComposePolicy.CheckServices | internal/composebackend/backend.go:327-349 | accepts if and only if no service uses a forbidden setting; a rejection names the first offending service in name order, whatever the map order |
| ComposePolicy.CheckResources | internal/composebackend/backend.go:351-358 | accepts if and only if no retained resource has a custom name or is external, and a rejection is about such a resource |
| ComposePolicy.ValidateIsolation | internal/composebackend/backend.go:322-385 | in owned mode accepts exactly the isolated projects, judged by the files themselves and not by their merge; a rejection is about the first offending service, or else about an offending resource of the first kind that has one; other modes accept everything |
| ComposePolicy.IsolatedExactly | internal/composebackend/backend.go:327-382 | isolated means: no service with a container name, published ports, host network, host namespace or provider, and no file that names a retained network, volume, secret or config or calls it external |
| ComposePolicy.FileOrderIsIrrelevant | internal/composebackend/backend.go:277-318 | for a fixed effective project the verdict does not depend on the order or repetition of files |
| ComposePolicy.AddingAFileOnlyRejectsMore | internal/composebackend/backend.go:277-385 | adding a file never turns a rejection into an acceptance |
| ProjectName.SanitizedIsWords | internal/composebackend/backend.go:416-423 | the result is empty or alphanumeric words joined by single underscores |
| ProjectName.SanitizeJoinsWords | internal/composebackend/backend.go:416-423 | the result is exactly the alphanumeric words of the lower-cased name, joined by underscores |
| ProjectName.WordsAreFixed | internal/composebackend/backend.go:416-423 | a name of that form is left alone |
| ProjectName.SanitizeIsIdempotent | internal/composebackend/backend.go:416-423 | sanitising twice is sanitising once |
| ProjectName.NameExactly | internal/composebackend/backend.go:186-197 | the name is `zb_`, the words of the stack name or `stack`, those of the profile or `dev`, and twelve characters of the hash of directory, stack and profile |
| ProjectName.PreimageIsInjective | internal/composebackend/backend.go:187-195 | the hashed string determines project directory, stack and profile, even for a directory that contains NUL |
| ProjectName.EqualNamesMeanEqualTriplesOrCollision | internal/composebackend/backend.go:186-197 | equal project names force equal triples or a collision of the truncated hash |

## Left out

- ApiServer.ApiServer.HandleRelease: the contract covers a release that meets no other handler between its sections, because a method call cannot be interleaved; the modules Protocol, Agreement and Fencing treat the interleaved sections.
- Hosts.CanonicalTwice: lower-casing is modelled for every character that becomes an ASCII letter (A to Z, KELVIN SIGN, capital I with a dot above); other capitals stand for themselves. Neither they nor their lower-case forms occur in a host that the route runtime accepts.
- Hosts.SpellingsOfOneHost: the same limit; two spellings that differ in other capitals count as two hosts.
- ProjectName.SanitizeJoinsWords: the same limit, which changes no result, because every other character becomes an underscore in either case; SHA-256 is an uninterpreted function with at least twelve output characters.
- RouteRuntime.StepIsTransactional: a reload that fails is assumed to leave the configuration that Caddy has loaded unchanged.
- RouteStorage.SortInPlace: the algorithm is a plain insertion sort; that of the library is not part of the repository, and `Caddyfile.StableSortUnique` shows that every stable sort gives the same list.
- RouteRuntime.DockerCaddy.Bootstrap: the arguments of docker run and the texts of the errors.
- Agreement.ReachableInv: covers schedules of at most 2^63 - 1 events, as do all statements over whole schedules, because the generation counter wraps after that.
- Processes.WaitForReadiness: time is a number of ticks; runs that never end are not described.
- Processes.WaitForeground: time is a number of polls; runs that never end are not described.
- Fleet.ReachableFleetInv: every request reaches the daemon, if perhaps after its run gave up on it; a request that is lost on the way, or a daemon that restarts, is not part of the model.
- RunAsClient.EveryPathIsAFleetRun: the requests of the path are reproduced, with a publication given up; the answers of the path, which may be any errors, are not.
- Dispatch.RenderedOrderIsLongestPrefix: a path with a `*` before its end is excluded, because Caddy reads such a matcher as a glob and not as a prefix.
- EndToEnd.RequestsReachTheOwningClaim: the same exclusion.
- CaddyParser.RoundTrip: the parser is for the emitted format and the upstream host is given to it; Caddy's own lexer and matcher, and its own ordering of blocks, are not part of this model.
- ZbErr.Is: errors that wrap several causes, errors.Join and typed nil pointers are not modelled.
- Sorting of names (`sort.Strings`) is modelled as a function on sequences: the library call is not part of the repository.
- HTTP, unix sockets, JSON decoding and its error answers, status codes and message texts of refusals: requests are typed values.
- The daemon's Start and Close, its lock file, health file and socket handling: plumbing of the operating system.
- The runtime that drives a remote Caddy through its admin URL: the state behind it is not visible here.
- Loading, selection and pruning of Compose projects, YAML parsing, and label injection: the effective project and the parsed files, or their errors, are inputs.
- Configuration loading, the search for the project root and the error registry: they would add only easy members, and appear as one outcome before the claim.
- Claim tokens and session identifiers: random values are parameters, and nothing is assumed of tokens, which may even repeat.
- The command line, the npm installer, Caddy container removal and the architecture tests.
