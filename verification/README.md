# RunSecure: verified models

RunSecure runs GitHub Actions jobs on ephemeral just-in-time runners. This project models
the parts of it whose correctness is a matter of every run rather than of one call, and
proves what they promise. `dafny verify dfyconfig.toml` checks all of it.

- **Capacity ledger and spawn protocol.** `Ledger` is the scheduler's state as a value,
  `SchedulerState` the class that updates it in place, `Worker` the steps of `Execute`,
  `WorkerScript` the same operation read from top to bottom, with the proof that every run of
  the steps is a run of the script. `Protocol` is the whole orchestrator: one poller, a
  channel of 32, a pool of workers, the outside world and the shutdown sequence, interleaved
  in any order. `ProtocolInvariant` proves the invariant, `ProtocolTheorems` what follows from
  it for every run, `ProtocolProgress` what runs must and can still do, and `ProtocolVisits`
  what a poll visit does for the queue it saw.
- **Runner lifecycle.** `Lifecycle` is the select loop of `waitForLifecycle` on the shared
  state while other goroutines use it; its calls are proved to be a run of the worker
  program's watch part, and its result to be the one `LifecycleRules` determines from the
  events. `JobSearch` is the bounded job search it ends in.
- **Backends.** `ComposeBackend`, `KubeBackend` and `KubeRecovery` show which backends keep
  the contract that `Execute` relies on, and that Kubernetes recovery works after a crash at
  any point of any creations or teardowns; `BackendAnswers` ties the contract to the answers
  the worker's program admits.
- **Cold start, release promotion, create requests, limits.** `ColdStart`, `RateLimit` and
  `Breaker`. A promotion is `Promotion` (plan, registry, preflight answers), `PromotionWrites`
  (which writes are made and take effect) and `PromotionRun` (the program). A create request
  is `CreateDecoder` (the grammar and its parser), `CreateSchema` (typed readers),
  `CreateMeaning` (what a document says, apart from any reader) and `CreateRequest` (the
  program).

Outside calls may fail at any point; where the code is written for it they may also take
effect and still report an error. Retry and select loops are given the number of rounds
before the context ends as a parameter over which every statement quantifies.

What the protocol assumes of its surroundings: spawn ids are unique; a successful JIT call
returns a positive runner id, and a JIT error without one left no registration; the backend
contract (an error without a handle leaves nothing). The last is proved of Kubernetes, and of
compose exactly when the first create that does not succeed was not applied.

## Where the code does less than it says

- Compose (internal/backend/compose/compose.go): a network or container created at the
  daemon although the answer was lost is in no handle and is left behind.
  `ComposeBackend.Spawn` states the exact condition, `LostNetworkIsNotCovered` the run.
- Promotion (infra/scripts/promote-release-images.py): the test for a missing tag is on the
  text of the failure. An outage that reads "not found" makes an existing version tag look
  missing, and it is repointed (`OutageMovesVersionTag`); in the rollback it makes a newly
  written alias look missing, and "changed aliases were restored" is reported with the alias
  in place (`RestoredIsNotRestored`). `Promoter.Release` says exactly when each claim holds,
  from the tags and the answers alone: `MovesVersion` for the version tags, `StraysAlias` for
  the aliases.
- Rate limit (internal/orchestrator/spawn.go): runner.yml is loaded between the take and the
  JIT request, so requests can bunch (`RequestsCanBunch`). `BoundedExactlyWithRoom` says when
  the bound on takes holds for requests, `RequestsAreBounded` what holds always.
- Cold start (cmd/orchestrator/coldstart.go): the runner name check also accepts
  "rs-runner". `ValidNames`.

## Model

| member | source | states |
|---|---|---|
| Ledger.RunPhaseExact | infra/orchestrator/internal/state/state.go:155-345 | After any sequence of `State` calls, the compatibility counters included, each repository's four phase counters equal the sizes of the matching sets in the reservation map, the blocked flag holds iff a blocked reservation exists, and failures = reconciled + blocked. |
| Ledger.RunInFlightExact | infra/orchestrator/internal/state/state.go:155-345 | With only the reservation API, after any sequence of calls InFlight equals the number of the repository's reservations and the sum of its four counters, and no zero clamp ever fires along the way. |
| Ledger.ApplyKeepsPhases | infra/orchestrator/internal/state/state.go:155-345 | Each single call keeps the counters, the flag and the totals exact. |
| Ledger.ApplyKeepsInFlight | infra/orchestrator/internal/state/state.go:155-345 | Each reservation call keeps InFlight exact and decrements nothing that is zero. |
| Ledger.DebtBarrier | infra/orchestrator/internal/state/state.go:155-160 | From the moment teardown debt exists until the last is resolved, the set of ordinary reservations never grows over any calls, and a debt leaves only by its own ResolveTeardown. |
| Ledger.DebtBarrierStep | infra/orchestrator/internal/state/state.go:234-314 | One call under debt adds no ordinary reservation; ReleaseReservation and the marks never remove or change a debt. |
| Ledger.GlobalIsReservations | infra/orchestrator/internal/state/state.go:140-153 | The global sum over repositories equals the number of reservations. |
| Ledger.InFlightIsSum | infra/orchestrator/internal/state/state.go:119-153 | InFlight is the sum of pending, online, assigned and blocked. |
| Ledger.CoverageCounts | infra/orchestrator/internal/state/state.go:131-138 | With exact counters, pending plus online is the size of the set of undelivered reservations. |
| Ledger.ReservesExactly | infra/orchestrator/internal/state/state.go:155-175 | With exact counters, the check on the counters admits a new spawn iff the reservation map has room for it. |
| SchedulerState.Scheduler.TryReserve | infra/orchestrator/internal/state/state.go:155-175 | With exact counters a new spawn is admitted iff nothing drains, no reservation is debt, the repository's reservations number fewer than its cap and all reservations fewer than the global cap; then the map gains exactly it, as Pending, and otherwise stays. A known spawn is admitted iff scheduling is not blocked and its repository is the same, and changes nothing. |
| SchedulerState.Scheduler.MarkOnline | infra/orchestrator/internal/state/state.go:194-207 | Moves exactly Pending to Online, in the map, and reports whether it did. |
| SchedulerState.Scheduler.MarkAssigned | infra/orchestrator/internal/state/state.go:211-230 | Moves Pending or Online to Assigned once, counting the assignment. |
| SchedulerState.Scheduler.MarkTeardownBlocked | infra/orchestrator/internal/state/state.go:234-263 | Turns a reservation (or an unknown spawn, charging it) into debt, once. |
| SchedulerState.Scheduler.ResolveTeardown | infra/orchestrator/internal/state/state.go:277-296 | Releases a debt and clears the barrier iff no other debt is left. |
| SchedulerState.Scheduler.ReleaseReservation | infra/orchestrator/internal/state/state.go:306-324 | Releases an ordinary reservation and leaves debts alone. |
| SchedulerState.Scheduler.GlobalInFlight | infra/orchestrator/internal/state/state.go:140-153 | The loop over the map computes the sum, in any iteration order. |
| SchedulerState.Scheduler.DemandCoverage | infra/orchestrator/internal/state/state.go:131-138 | With exact counters, the number of the repository's reservations that no job has taken yet. |
| SchedulerState.Scheduler.SchedulingBlocked | infra/orchestrator/internal/state/state.go:298-304 | With exact counters, true iff a drain has begun or some reservation is teardown debt. |
| Worker.AdvanceKeeps | infra/orchestrator/internal/orchestrator/spawn.go:98-603 | Every step of `Execute`, with every answer of GitHub and the backend, keeps what the worker knows of its spawn at that point: no stack or registration is forgotten, debt is marked before the first retry, a return leaves a settled spawn, calls are on its own spawn only and no phase moves back. What a call made may be gone again when it is answered. |
| Worker.EffectsInOrder | infra/orchestrator/internal/orchestrator/spawn.go:98-603 | In every run of `Execute`, under any changing surroundings and answers: registration before stack before online mark before assigned mark before completion before any block, resolve or release; each at most once (the online mark and the block at most twice), a stack only after a registration, a completion only after an assignment, a resolve only after a block; a run that returns has released exactly once, last, or was refused its reservation at the start. |
| Worker.CleanKeeps | infra/orchestrator/internal/orchestrator/spawn.go:341-531 | The teardown, deregistration and retry part of the same. |
| Worker.WatchKeeps | infra/orchestrator/internal/orchestrator/lifecycle.go:70-110 | The watch part: the local online and assigned flags simulate the stored phase. |
| WorkerScript.RunIsItsScript | infra/orchestrator/internal/orchestrator/spawn.go:98-603 | A run of `Execute` that has returned, under any changing surroundings and answers, had exactly the effects of the operation read from top to bottom: a defensive reservation iff it held none; a registration or a stack only with no drain, a reservation, no debt, and each earlier call answered well; each mark for the report that asks for it; a completion iff the job's runner exited normally; one debt before a partial spawn is cleaned and one per cleanup that failed at first; a resolve iff each of these has succeeded since; the release last. |
| WorkerScript.NothingPastAClosedDoor | infra/orchestrator/internal/orchestrator/spawn.go:98-134 | Whatever a run ever created, it had stood at the draining check with no drain, at the gate with scheduling not blocked, and at the rate limiter and runner.yml with both given. |
| WorkerScript.RunsReturn | infra/orchestrator/internal/orchestrator/spawn.go:98-603 | Every run returns after at most 23 answers that end the wait they are given to, whatever they are. |
| WorkerScript.DecisiveAdvances | infra/orchestrator/internal/orchestrator/spawn.go:98-603 | Which answers end a wait: with one of them a step goes strictly nearer to the return, and with any other it stays where it is. |
| WorkerScript.CalmRunWatches | infra/orchestrator/internal/orchestrator/spawn.go:98-256 | A run that meets no drain, holds its reservation, meets no debt and is served at each call is watching its runner after exactly these calls. |
| ProtocolInvariant.StepKeeps | infra/orchestrator/internal/orchestrator/spawn.go:98-375 | Every event of the interleaved system (poller, any worker, outside world, shutdown) keeps the system invariant. |
| ProtocolInvariant.RunKeeps | infra/orchestrator/cmd/orchestrator/run.go:160-229 | So does every sequence of events. |
| ProtocolTheorems.CapacityHolds | infra/orchestrator/internal/orchestrator/poll.go:130-156 | In every interleaving the spawns of a repository with a live stack or registration number at most InFlight, which is at most MaxConcurrent; summed over repositories they number at most the global sum, which is at most GlobalMaxRunners. |
| ProtocolTheorems.ExecuteSettles | infra/orchestrator/internal/orchestrator/spawn.go:98-375 | Whenever a worker is done with an intent, then and ever after: the reservation is gone and neither stack nor registration remains, or the workers were cancelled and the reservation is still charged as debt with scheduling blocked. |
| ProtocolTheorems.OneOwner | infra/orchestrator/cmd/orchestrator/run.go:164-183 | Every ordinary reservation is in exactly one place (poller's hand, one channel slot, one worker), no spawn is ever in two, and no send follows the channel close. |
| ProtocolTheorems.DrainLeavesOnlyDebt | infra/orchestrator/cmd/orchestrator/shutdown.go:33-56 | When the drain reports WorkersStopped, the channel is empty, the poller is joined, only debts remain and they cover everything alive; without forced cancellation nothing remains at all. |
| ProtocolTheorems.VisitNeverOverfills | infra/orchestrator/internal/orchestrator/poll.go:120-156 | However workers interleave, a poll visit never leaves pending + online above the larger of the queue it saw and the coverage it read. |
| ProtocolTheorems.CoverageFollowsDemand | infra/orchestrator/internal/orchestrator/poll.go:133-138 | If no poll of a repository ever saw more than n queued jobs, its pending + online never exceed n over any number of ticks. |
| ProtocolTheorems.PhasesNeverGoBack | infra/orchestrator/internal/state/state.go:194-263 | Between any two moments of any run a spawn's phase never moves backwards, a released spawn is never reserved again, and nothing counted is uncounted. |
| ProtocolTheorems.DeliveryIsCountedOnce | infra/orchestrator/internal/orchestrator/spawn.go:261-275 | In every run assignmentsTotal and completedTotal count distinct spawns, completed ones are among the assigned ones, so completedTotal ≤ assignmentsTotal. |
| ProtocolProgress.TurnedAway | infra/orchestrator/internal/orchestrator/spawn.go:108-134 | In every interleaving: a spawn received while the orchestrator drains, or at the gate while a drain or any teardown debt exists, or without a rate token or runner.yml, has no stack and no registration from then on, whatever its worker is answered and whatever happens later. |
| ProtocolProgress.ShutdownInOrder | infra/orchestrator/cmd/orchestrator/shutdown.go:33-56 | Over every run the stages of a stop follow one another and never go back; each stage has the flags before it set; a stop reported as forced has cancelled the workers; workers are cancelled only after the deadline or together with everything. |
| ProtocolProgress.DrainCanFinish | infra/orchestrator/cmd/orchestrator/shutdown.go:33-56 | No deadlock: from every reachable state whose stop was not given up there is a continuation, with no deadline passed and nothing cancelled in it, that ends with the workers reported stopped; if nothing was cancelled before either, with no reservation and nothing alive. |
| ProtocolProgress.DrainStep | infra/orchestrator/cmd/orchestrator/run.go:160-229 | Until a stop is done some event strictly decreases what is left: stages, the poller's visit, live resources, queued intents and the workers' steps. |
| ProtocolVisits.VisitServesDemand | infra/orchestrator/internal/orchestrator/poll.go:130-156 | In every interleaving a visit ends with exactly min(max(queued − coverage, 0), avail) spawns queued, or with a reservation refused for want of room, or because polling was cancelled. |
| ProtocolVisits.VisitFills | infra/orchestrator/internal/orchestrator/poll.go:120-156 | From every reachable state with an idle poller, nothing blocked and room in the channel, an undisturbed visit reserves and queues, in order, exactly as many spawns as there are queued jobs that no pending or online reservation covers, within the places the reservations leave under both caps. |
| ProtocolVisits.ReadsAreReal | infra/orchestrator/internal/orchestrator/poll.go:130-138 | In every run what a visit reads is what the reservation map says: the repository's reservations, all reservations, and the undelivered ones. |
| ProtocolVisits.ChannelIsFair | infra/orchestrator/cmd/orchestrator/run.go:164-183 | Intents are received in the order they were sent: while one waits in the channel, everything sent after it waits behind it. |
| ComposeBackend.Spawn | infra/orchestrator/internal/backend/compose/compose.go:57-122 | Meets the backend contract (an error without a handle leaves nothing, a handle covers everything left) iff the first of its three creates that does not succeed, if any, was not applied at the daemon; success leaves network, proxy and runner, all in the handle, with both containers started, and failure means some create or start was refused. |
| ComposeBackend.LostNetworkIsNotCovered | infra/orchestrator/internal/backend/compose/compose.go:57-79 | The concrete failure: a network created although the answer was lost is left behind by an error with an empty handle. |
| ComposeBackend.SpawnContainers | infra/orchestrator/internal/docker/spawn.go:72-241 | Creates proxy then runner and has started both on success; on any failure deletes what it created; a complete rollback leaves no container. |
| ComposeBackend.Rollback | infra/orchestrator/internal/docker/spawn.go:72-91 | Deletes exactly the created containers in any order and reports completeness truthfully. |
| ComposeBackend.Teardown | infra/orchestrator/internal/backend/compose/compose.go:157-194 | Success means nothing the handle covers is left, failure that the daemon refused a call; nothing else is touched either way. |
| ComposeBackend.RetryTeardown | infra/orchestrator/internal/orchestrator/spawn.go:485-503 | The same however often a failed teardown is repeated. |
| KubeBackend.ApplySpawn | infra/orchestrator/internal/kube/client.go:119-165 | Leaves exactly a prefix of the seven creates, whatever fails, and all seven on success. |
| KubeBackend.ListSpawns | infra/orchestrator/internal/kube/client.go:545-609 | With the API answering, listing succeeds iff every labelled object is one its spawn's creation makes and the objects of a spawn agree on the repository; it then returns one reference per spawn that has any object. |
| KubeBackend.MergeKind | infra/orchestrator/internal/kube/client.go:611-641 | Merging one kind's objects adds exactly their spawns, and refuses only an undiscoverable namespace. |
| KubeBackend.MergeRefuses | infra/orchestrator/internal/kube/client.go:611-641 | A refused merge proves that the namespace is not discoverable. |
| KubeBackend.ListExact | infra/orchestrator/internal/kube/client.go:363-478 | With the API answering, succeeds iff every object labelled for the spawn has the exact name, role, repository and owner, and returns all of them. |
| KubeBackend.DeleteSpawn | infra/orchestrator/internal/kube/client.go:301-318 | Success means none of the spawn's objects was left at the confirming list. When the objects are exact and the API refuses nothing, the deletion of every object of the spawn was accepted, and it reports success iff none is left. No other spawn's object is removed, whatever happens; a mismatching identity deletes nothing. |
| KubeBackend.ConfirmDeleted | infra/orchestrator/internal/kube/client.go:512-532 | Success means the last list was empty; an error or the end of the context is never success. |
| KubeBackend.BystandersStay | infra/orchestrator/internal/kube/client.go:301-318 | Cascading deletion of one spawn's Secret never reaches an object of another spawn. |
| KubeBackend.SecretsTellApart | infra/orchestrator/internal/kube/objects.go:187-189 | Different spawn ids have different Secret names. |
| KubeRecovery.Spawn | infra/orchestrator/internal/backend/kube/kube.go:287-301 | Meets the backend contract: an error without a handle leaves no object of the spawn, an error with one leaves only objects its labels select, each accepted by the exact delete, success leaves all seven, and failure means some call was refused. No other spawn's object is lost to the rollback. |
| KubeRecovery.RetryTeardown | infra/orchestrator/internal/backend/kube/kube.go:345-370 | However often teardown is retried, success means no object of the spawn is left and no other spawn was touched; with exact objects and an API that refuses nothing, every object's deletion was accepted and success is reported iff none is left. |
| KubeRecovery.CrashAdds | infra/orchestrator/internal/kube/client.go:119-165 | A creation cut anywhere keeps the namespace a union of prefixes of creations, for any number of spawns. |
| KubeRecovery.CrashesAreDiscoverable | infra/orchestrator/internal/kube/client.go:545-641 | Any such namespace is discoverable, and every spawn in it consists of exact objects only. |
| KubeRecovery.CascadeReachesAll | infra/orchestrator/internal/kube/objects.go:860-869 | In whatever crashes left, the Secret of every object's spawn is there and its deletion reaches the object. |
| KubeRecovery.TeardownKeepsDiscoverable | infra/orchestrator/internal/kube/client.go:301-318 | A teardown stopped anywhere leaves a namespace that recovery still accepts. |
| KubeRecovery.ListingIsExact | infra/orchestrator/internal/kube/client.go:545-641 | The listing names exactly the spawns with a non-empty prefix, each with its deterministic names and repository. |
| KubeRecovery.Recover | infra/orchestrator/internal/backend/kube/kube.go:375-420 | From any namespace: with the API answering, listing succeeds iff it is discoverable; after crashed creations the references are exactly the started spawns; tearing down each leaves nothing in scope on success, and a namespace recovery accepts in any case. On a discoverable namespace with an API that refuses nothing it lists, and succeeds iff nothing in scope is left. |
| KubeRecovery.PlanKeysDiffer | infra/orchestrator/internal/kube/objects.go:187-189 | The seven object names of a spawn are distinct within their kinds. |
| KubeRecovery.PlanNames | infra/orchestrator/internal/kube/objects.go:187-189 | The kinds and names of the seven objects, written out. |
| KubeRecovery.RefNamesPlan | infra/orchestrator/internal/kube/client.go:611-641 | The Secret and runner Pod a listing's reference names are the ones the spawn's creation makes. |
| KubeRecovery.ExactIsPlanned | infra/orchestrator/internal/kube/client.go:363-478 | The exactness check accepts an object iff the spawn's creation makes one of that kind, name and role, its repository is named and wanted, and every owner it has is the spawn's Secret. |
| BackendAnswers.ComposeAnswers | infra/orchestrator/internal/orchestrator/spawn.go:225-240 | Without a lost create, what compose Spawn and the retried teardown return are answers the worker's program admits; once the cleanup is reported as done, the daemon's containers and networks are as before iff no create was lost. |
| BackendAnswers.KubeAnswers | infra/orchestrator/internal/orchestrator/spawn.go:225-240 | The same for Kubernetes. |
| JobSearch.Searcher.SearchRun | infra/orchestrator/internal/github/queue.go:223-258 | Against any server a miss means the run's jobs were read to a short page within the call budget; on fixed data that no job matches on any page up to the first short one; a hit is a matching job stamped with the run. |
| JobSearch.Searcher.VisitStatus | infra/orchestrator/internal/github/queue.go:166-193 | A miss means the same for every run on every page of the status up to its first short page. |
| JobSearch.Searcher.Run | infra/orchestrator/internal/github/queue.go:146-195 | At most MaxRuns runs and MaxAPICalls calls, no run searched twice. Against any server a miss means every searched run and all three listings were read to a short page, so full pages forever never give a miss; on fixed data it means the search was complete. A spent budget is reported as such. |
| JobSearch.Correlate | infra/orchestrator/internal/orchestrator/lifecycle.go:285-350 | Against any server at most 64 calls and 50 runs; indeterminate only when one of them is spent, failed only when the server failed a call or the runner has no identity. On fixed data Unassigned implies that no candidate and no listed job is in_progress or completed with the runner's positive id or, where one of the two ids is not positive, its non-empty name; Assigned implies that one is. 64 or more candidates never give Unassigned. |
| JobSearch.CheckCandidates | infra/orchestrator/internal/orchestrator/lifecycle.go:292-316 | Unassigned means every candidate was checked and was missing or ran elsewhere. |
| JobSearch.EvidenceRefutesNone | infra/orchestrator/internal/github/queue.go:146-258 | A found job in an eligible run and a clean no-match exclude each other. |
| JobSearch.FirstMatch | infra/orchestrator/internal/github/queue.go:245-253 | The first job of a page that is in_progress or completed and carries the runner's id, or its name where an id is missing. |
| Lifecycle.Watcher.Wait | infra/orchestrator/internal/orchestrator/lifecycle.go:49-257 | The result is the one the first observation and the events determine (`LifecycleRules`). A result with neither error nor timeout comes with exactly one successful MarkAssigned and, unless the runner was seen busy, with its job visible; "exited unassigned" with none, no observation that saw the runner busy and, on fixed data, no matching candidate or job anywhere searched; the calls made are a run of the worker program's watch part. |
| Lifecycle.Watcher.Observe | infra/orchestrator/internal/orchestrator/lifecycle.go:75-110 | Keeps the flags equal to what was observed and to the stored phase, with other goroutines using the state. |
| Lifecycle.Watcher.AfterExit | infra/orchestrator/internal/orchestrator/lifecycle.go:162-211 | The exit case: a wall-clock timeout iff the backend says so; cancelled iff it does not and the context has ended; otherwise completed whenever the runner was seen busy; and in every case what the flags, the last observation, the deadlines and the job search determine. |
| Lifecycle.Watcher.MarkCorrelated | infra/orchestrator/internal/orchestrator/lifecycle.go:352-370 | Leaves the spawn assigned after exactly one counted mark. |
| Lifecycle.Watcher.BeforeCorrelation | infra/orchestrator/internal/orchestrator/lifecycle.go:162-183 | Decides the result, whatever the search would say, unless the runner is not busy and nothing failed; a deadline failure means the corresponding state was never reached. |
| LifecycleRules.DeliveredIsCompleted | infra/orchestrator/internal/orchestrator/lifecycle.go:162-211 | A runner seen busy, at first or by a later poll, that then exits without timeout or cancellation is completed, whatever else was received before. |
| LifecycleRules.TimeoutIsTheBackends | infra/orchestrator/internal/orchestrator/lifecycle.go:162-183 | A wall-clock timeout is answered only to an exit that the backend calls timed out. |
| LifecycleRules.ExitIsJudged | infra/orchestrator/internal/orchestrator/lifecycle.go:162-211 | What an exit gives, case by case: timeout, cancellation, completion with a busy runner, and with neither the verdict of the job search. |
| LifecycleRules.FirstResultDecides | infra/orchestrator/internal/orchestrator/lifecycle.go:112-257 | The first event that gives a result decides, on the flags the earlier ones left. |
| LifecycleRules.TimersFire | infra/orchestrator/internal/orchestrator/lifecycle.go:112-160 | The online timer fails a runner iff it is not online, the assignment timer iff it has no job. |
| LifecycleRules.LooksDecide | infra/orchestrator/internal/orchestrator/lifecycle.go:75-110 | While no job is known, a refused or rate-limited look ends the wait with its own reason and any other failed look changes nothing; once one is, polls change nothing. |
| Promotion.PlanIsDistinct | infra/scripts/promote-release-images.py:29-54 | For every release number the table's version tags and aliases are pairwise distinct. |
| PromotionRun.Promoter.Preflight | infra/scripts/promote-release-images.py:156-193 | Changes no tag; passes iff every answer is acceptable; notes exactly the answers about version tags and aliases. |
| Promotion.PassingNotesTell | infra/scripts/promote-release-images.py:171-186 | The notes of a passing preflight name nothing that is not there, and everything that is there iff no answer about an existing tag read like a missing one. |
| PromotionRun.Promoter.Versions | infra/scripts/promote-release-images.py:196-208 | Writes only version tags not noted as right, in order until a write fails; success means all are right, at a call count known beforehand; existing ones have stayed iff none is moved; aliases are untouched. |
| PromotionRun.Promoter.PromoteAliases | infra/scripts/promote-release-images.py:210-233 | Aliases are written only while all version tags are right; with notes that hold, the "restored" outcome means every alias is as it was iff no alias noted as absent is written with effect to something it was not; a whole family of runs that end so although one is. |
| PromotionRun.Promoter.Rollback | infra/scripts/promote-release-images.py:236-263 | Aliases noted as absent are left as they are; without a failure the other attempted ones are as noted, and the absent ones do not exist if no answer from here on reads like a missing tag. With every call working it reports failures iff an attempted alias noted as absent exists. |
| PromotionRun.Promoter.Release | infra/scripts/promote-release-images.py:156-263 | A refused preflight changes nothing; no alias write precedes the complete version set. From the tags and the registry's answers before the call: existing version tags have stayed iff no write of one is reached and takes effect with another digest (`MovesVersion`), in particular if no preflight answer took one for missing; once the version set is in place, iff each was right. "Changed aliases were restored" is true iff no write of an alias noted as absent is reached and takes effect with a digest it did not have (`StraysAlias`), in particular if no later answer reads like a missing tag. Success means every tag is right; a registry that works promotes. |
| PromotionWrites.KeptUnlessMoved | infra/scripts/promote-release-images.py:199-201 | After the version writes, existing version tags are as before iff none is written with effect to another digest. |
| PromotionWrites.RestoredUnlessStrayed | infra/scripts/promote-release-images.py:210-263 | After the alias writes and a rollback without failures, the aliases are as before iff no alias noted as absent was written with effect to something it was not. |
| PromotionWrites.StraysWhenCreated | infra/scripts/promote-release-images.py:242-255 | When the preflight saw the aliases as they were, an alias strays iff one that did not exist is written with effect. |
| PromotionWrites.TruthMovesNothing | infra/scripts/promote-release-images.py:171-180 | True preflight answers about version tags move none of them. |
| PromotionWrites.OnlyOutagesEndanger | infra/scripts/promote-release-images.py:89-102 | Behind a passing preflight an existing version tag that points elsewhere had an answer that reads like a missing tag; without such answers every existing one is right. |
| PromotionWrites.KeptExactlyWhenRight | infra/scripts/promote-release-images.py:196-208 | With the version set in place, existing version tags have stayed iff each was right. |
| PromotionRun.OutageMovesVersionTag | infra/scripts/promote-release-images.py:89-96 | The concrete failure: one such answer and the promotion repoints an existing version tag. |
| PromotionRun.RestoredIsNotRestored | infra/scripts/promote-release-images.py:242-255 | The concrete failure in the rollback: an applied alias write reported as failed, then a look at it that fails like a missing tag, and "changed aliases were restored" is reported with the new alias in place. |
| CreateDecoder.ValueSound | infra/socket-proxy/internal/proxy/validate.go:288-350 | What the token reader accepts is the rendering of a document with fold-unique keys and bounded depth. |
| CreateDecoder.ValueComplete | infra/socket-proxy/internal/proxy/validate.go:288-350 | Every such document is accepted and read back as written. |
| CreateDecoder.NestingIsBounded | infra/socket-proxy/internal/proxy/validate.go:288-291 | No value of an accepted document lies deeper than 64. |
| CreateDecoder.UnambiguousExactly | infra/socket-proxy/internal/proxy/validate.go:288-350 | A document is unambiguous iff at every level no two keys of an object fold alike and no value lies deeper than 64. |
| CreateRequest.UniqueValue | infra/socket-proxy/internal/proxy/validate.go:288-350 | The recursive, looping reader computes the parse of its tokens and consumes exactly them. |
| CreateSchema.ReadersAgree | infra/socket-proxy/internal/proxy/validate.go:352-401 | On a document that passes both checks, first-wins or last-wins readers with exact or folding field matching yield the same typed value at every level. |
| CreateRequest.DecodeCreate | infra/socket-proxy/internal/proxy/validate.go:266-286 | Accepts a body iff it is the rendering of one unambiguous document that means some typed value under the schema, and returns that value: scalars are their tokens, lists keep their order, tables have exactly the document's keys, records have every member at its field and zero elsewhere, raw parts are verbatim. Every reader gets the same. |
| CreateMeaning.MeaningIsRead | infra/socket-proxy/internal/proxy/validate.go:266-286 | A value that a document means is what every reader policy gets, and the document is then exactly spelled and well typed. |
| CreateMeaning.ReadIsMeaning | infra/socket-proxy/internal/proxy/validate.go:266-286 | What any reader gets from an exactly spelled, well typed, unambiguous document is what it means. |
| CreateMeaning.PathsAreRead | infra/socket-proxy/internal/proxy/validate.go:266-286 | At every path of indices, keys and field names in the document, the value found by the same path is what the document says there. |
| CreateMeaning.LeavesAreRead | infra/socket-proxy/internal/proxy/validate.go:266-286 | At every path to a leaf the value is that leaf's token, null is zero, raw parts are verbatim, and a record field without a member is zero. |
| CreateSchema.SchemasSound | infra/socket-proxy/internal/proxy/validate.go:55-101 | Neither request schema has two fields equal under folding, given that folding keeps A to Z. |
| RateLimit.TokenBucket.TryTake | infra/orchestrator/internal/state/ratelimit.go:40-55 | The in-place take is the refill, clamp and decrement of the specification. |
| RateLimit.RunStays | infra/orchestrator/internal/state/ratelimit.go:40-55 | Over every run with a non-decreasing clock, tokens stay in [0, burst]. |
| RateLimit.WindowIsBounded | infra/orchestrator/internal/state/ratelimit.go:20-55 | In any window of any run the successful takes number at most burst + rate × length. |
| RateLimit.SpacedCallsSucceed | infra/orchestrator/internal/state/ratelimit.go:40-55 | Calls each a token's worth of time apart all succeed, over every run. |
| RateLimit.RefusalsChangeNothing | infra/orchestrator/internal/state/ratelimit.go:40-55 | Over every run a refused take loses no credit: with the refused calls left out every other call still succeeds, and no later call can tell the buckets apart. |
| RateLimit.RequestsAreBounded | infra/orchestrator/internal/orchestrator/spawn.go:116-150 | JIT requests in any window number at most burst + rate × length plus the grants already held when it begins, at most one per worker. |
| RateLimit.BoundedExactlyWithRoom | infra/orchestrator/internal/orchestrator/spawn.go:116-150 | The bound burst + rate × length holds for the requests of every window from a moment on iff the grants held and the tokens there at that moment fit into the burst together. |
| RateLimit.RequestsCanBunch | infra/orchestrator/internal/orchestrator/spawn.go:116-150 | The takes' bound is not a bound on requests: a concrete run makes two requests in a window where burst + rate × length is one. |
| Breaker.ClosedIffBelowThreshold | infra/orchestrator/internal/state/breaker.go:61-97 | After any calls the breaker is closed iff the failures since the last success are below the threshold. |
| Breaker.NoPollWithinCooldown | infra/orchestrator/internal/orchestrator/poll.go:95-121 | In every run of visits over all repositories no poll of a repository falls within the cooldown after its breaker opened. |
| Breaker.PollsExactly | infra/orchestrator/internal/orchestrator/poll.go:97-110 | In every run of visits the breakers realise a policy without breakers: a repository is polled iff its failures since its last success, rate-limited polls not counted, are below the threshold, or the cooldown after its latest failure is over. |
| Breaker.RateLimitsDoNotCount | infra/orchestrator/cmd/orchestrator/run.go:701-710 | In every run, had the rate-limited polls not happened, the breakers would let every later visit poll or skip just the same. |
| Breaker.Switch.RecordFailure | infra/orchestrator/internal/state/breaker.go:87-97 | The in-place update, with the transition it reports. |
| Breaker.Switch.MaybeHalfOpen | infra/orchestrator/internal/state/breaker.go:61-69 | Open becomes half-open exactly when the cooldown is over. |
| ColdStart.CleanupDocker | infra/orchestrator/cmd/orchestrator/coldstart.go:31-88 | Stops iff listing or classifying fails, and then deletes nothing; the trace is lists, runner deletes, container deletes; only offline, idle runners of configured repositories that carry both "runsecure-jit" and "runsecure-scope-" with the scope are deleted; success deleted everything owned, failure means a delete was refused; no container goes before every owned registration is gone. |
| ColdStart.CleanupKube | infra/orchestrator/cmd/orchestrator/coldstart.go:118-140 | The same for reconciled Kubernetes handles, with either validator. |
| ColdStart.CleanupKubeScope | infra/orchestrator/cmd/orchestrator/coldstart.go:95-105 | With the single-namespace validator it stops, having deleted nothing, iff the listing fails, two recovered spawns are the same, one of them has not its spawn's exact names, is not in that namespace or not labelled for a configured repository, or a registration is not fine. |
| ColdStart.CleanupKubeForProjects | infra/orchestrator/cmd/orchestrator/coldstart.go:108-116 | With the per-project validator it stops, having deleted nothing, iff the listing fails, two recovered spawns are the same, one of them does not lie, with its exact names and label, in the namespace its own repository is enrolled with, or a registration is not fine. |
| ColdStart.Clean | infra/orchestrator/cmd/orchestrator/coldstart.go:202-264 | The part both share: registrations, then stacks. |
| ColdStart.ClassifyRepo | infra/orchestrator/cmd/orchestrator/coldstart.go:215-240 | Accepts a repository's runners iff each lacks one of the scope's two labels and is not expected, or has both and is well named, offline and idle; it then targets exactly the latter. |
| ColdStart.ListRegistrations | infra/orchestrator/cmd/orchestrator/coldstart.go:202-242 | Every configured repository is classified before any target is returned. |
| ColdStart.ValidateHandles | infra/orchestrator/cmd/orchestrator/coldstart.go:142-195 | Both validators accept exactly lists of handles that are each fine and of distinct spawns. |
| ColdStart.ValidNames | infra/orchestrator/cmd/orchestrator/coldstart.go:275-278 | The name check accepts the runner names of non-empty spawn ids, and besides them only "rs-runner". |
| ColdStart.PartsAreInOrder | infra/orchestrator/cmd/orchestrator/coldstart.go:31-88 | A trace in three parts is ordered by kind of action. |

## Left out

- `Execute`, `tick`, the worker loop and `drainAndStop` as sequential methods: other goroutines act between their steps, so they are program counters of one interleaved state machine.
- Timestamps, runner ids and names, failure details, the unassigned and deregistered totals, polling metadata and snapshots of `State`.
- Repository rotation and the reasons a tick skips a repository: a poll may visit any configured repository with any queue length, which covers every order and every skip.
- `Run`'s early return when the management server stops, which bypasses the drain.
- The worker's rate limit, runner.yml and policy checks are one step that succeeds or fails; rendered egress directories are not resources of the model.
- A JIT request is charged to its grant in `RateLimit`, not in `Protocol`.
- Fairness: every run and every drain can finish from wherever it stands (`RunsReturn`, `DrainCanFinish`), but nothing says that GitHub, the backend and the scheduler let it.
- Lifecycle deadlines are choices of the environment; the timer arithmetic (`finalObservationLead`, `normalizedLifecycleTiming`) is left out.
- `FindRecentWorkflowJobByRunner`'s check for a zero start time, and rate-limit headers.
- Kubernetes: one namespace at a time; pod and policy specifications beyond names, labels and owners; label and DNS validation by the Kubernetes library; `WaitRunner`; the default-deny policy; routing of a spawn to its project's namespace. A create that takes effect after it was reported as failed and rolled back is not modelled.
- KubeRecovery.Spawn: requires a non-empty repository label, which `RepoLabel` of a routed repository is.
- Compose: reconciliation, waiting for exit, and image, mount and network options.
- Sort orders: cold-start deletes and listings are in listing order, and statements are about which actions occur and in what phases.
- Manifest parsing in `load_plan`: digests arrive in table order, and source references are answers of the registry. Writers other than the promotion are not modelled.
- CreateRequest.DecodeCreate: starts from tokens, so UTF-8 validity and JSON lexing are left out, and so are number ranges; a JSON object is kept as its member list rather than as a map, which is the same once keys are unique.
- The Unicode fold table is a parameter, assumed only to keep A to Z where the schemas need it.
- The containment policy applied to a decoded create request, and the rest of the socket proxy.
- Floating-point rounding in the token bucket, which is modelled over reals.
- Egress rendering, redaction, telemetry, metrics, health handlers, authentication and configuration: string output or flat checks.
