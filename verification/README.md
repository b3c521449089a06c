# Kernexys: a Dafny model of the queue, the control API and the controller

Kernexys registers immutable model versions, deploys them to Kubernetes through
`ModelDeployment` resources, and serves inference synchronously and through a
Redis-backed asynchronous queue. This project models its concurrent and stateful
core and proves what every interleaving, every run and every input keeps.
`dafny verify dfyconfig.toml` checks all of it.

## How it is laid out

| files | part of the system |
|---|---|
| `Redis`, `InferenceQueue` | the queue's round trips and Lua scripts, and the object that performs them in place |
| `QueueProtocol`, `Delivery` | producers, workers and sweepers as one step relation; what holds under any interleaving and any clocks |
| `TimedQueue`, `BoundedRecovery` | the same steps under the workers' timing discipline: exclusivity, finality, recovery in bounded time |
| `QueueLimits` | where those guarantees stop: exact conditions, each with a concrete run |
| `JobIdentity` | the identity behind an idempotency key |
| `BodyLimit` | the request-body limiter and its replay |
| `ControlPlane`, `Metadata` | version registration, deployment and rollback as interleaved sessions; how metadata is compared |
| `ModelSpecs`, `Conditions`, `Ownership` | spec validation and defaults, status conditions, controller owner references |
| `Reconciler`, `ReconcileLoop` | one reconcile pass, as a function and as the code that edits the cluster |
| `Convergence`, `ControllerRuns` | what one pass guarantees, and what whole runs guarantee while others act |
| `InterleavedController`, `UninterruptedPass` | the calls of a pass taken apart: anyone may act between two of them, and reads may be out of date; without interruption it is the one-step pass |
| `Readiness`, `OutdatedReads` | where a shown readiness comes from when calls are interleaved, exactly when it is current, and runs in which it is not |

## Reading the queue model

`claim` is three round trips: pop, read, then drop or stamp. The step relation
keeps them apart, so crashes, sweeps and other workers' `finish` can come between
any two. Likewise the recovery lock and the sweep script are two round trips
(`TakeLock`, `SweepNow`); `Recover` is both at once. One event alphabet serves both layers. In `Delivery` the clock readings
that events carry are arbitrary. `TimedQueue.Timely` adds the discipline: one
clock, and time passes only while every live claim is younger than the lease
(measured from its pop). A sweep may read the clock up to `slack` seconds before
its script runs; `slack == 0` is the case in which reading and scan coincide.
Every theorem is per job id and asks only that this id's key has not expired;
other keys may expire and be submitted again freely.

Eight statements that read like promises hold only with a qualification, which is
proved exactly and shown on a concrete run or input:

- "A terminal record is never rewound" (docs/async-inference.md:19-21 and the
  comment at app/async_queue.py:36-42) needs the discipline. Without it a step
  un-finishes a job exactly when a worker that read the record earlier stamps it
  (`TerminalKeptExactly`, `LateStampUnfinishes`).
- The waiting list is bounded by the capacity only for submitted entries; a sweep
  keeps it within the capacity exactly when the stranded ids fit, each counted once
  (`RecoveryFitsExactly`, `RecoveryExceedsCapacity`).
- An entry is back after one grace interval (app/async_queue.py:208-210) exactly if
  the next sweep reads the clock at least a lease after the one that graced it. Since
  the clock is read after the lock is taken, the second sweep can come too early; the
  third cannot (`GracedRequeuedExactly`, `SecondSweepMisses`, `EnoughSweepsRequeue`).
- Uniqueness and at-least-once delivery end when a key expires
  (`LinksChangeExactly`, `ExpiryDuplicates`, `ExpiryLosesJob`, `ExpiredStampOrphans`).
- An accepted spec can render requests above limits, exactly when only one of the
  two maps is given and it disagrees with a default (`DefaultsFitExactly`,
  `DefaultsMisfit`).
- A version answers 409 to "different content" (app/routes.py:134-144) as Python
  compares it: `true` equals `1`, and `1` equals
  `1.0` (but 2^53 + 1 equals no double). Only the stored content itself gets 200 exactly if no value in its metadata
  has such a second spelling (`AnswersByContentExactly`, `TrueMatchesOne`).
- An invalid spec settles after one pass, whatever the order in which Go iterates its
  maps, exactly if no two errors are reportable (`InvalidFixpointExactly`,
  `OrdersKeepRewriting`).
- Readiness is read from a cache. A model shown as available at its current
  generation was credited by a pass on that generation from a Deployment with that
  version fully rolled out; this Deployment was the stored one when the pass settled
  it exactly if the revision the pass had read was still stored (`ReadinessExactly`,
  `OutdatedReadiness`). A pass that has itself changed the Deployment never credits it
  (`ChangeIsNeverReady`).

Two more follow the code where its documentation is less precise. The controller
library compares owners by group, kind and name and not by unique id, so children
of a deleted namesake are taken over (`TakesOverNamesake`). Defaults apply when one
of the two resource maps is empty, not only when both are (docs/controller.md:13-16).

## Model

| member | source | states |
|---|---|---|
| Redis.RemoveFirst | app/async_queue.py:61-69 | `LREM key 1 x` takes exactly one occurrence, or none |
| InferenceQueue.RedisInferenceQueue.Enqueue | app/async_queue.py:18-34 | created exactly if the id has no record and fewer than `capacity` entries wait, full exactly if it has none and they do not; a known id is unchanged or conflicts exactly by its payload; only creation changes anything, and it adds the record and the entry at the end |
| InferenceQueue.RedisInferenceQueue.Claim | app/async_queue.py:160-177 | moves the head of the queue to the end of the processing list; a finished or expired job is unlinked again; any other is stamped and returned, or, without payload, raises after the stamp |
| InferenceQueue.RedisInferenceQueue.Finish | app/async_queue.py:179-198 | status, outcome, expiry and unlink as one unit, even if the key is gone; nothing else of the record changes |
| InferenceQueue.RedisInferenceQueue.RecoverProcessing | app/async_queue.py:200-234 | only a free or lapsed lock admits a sweep, which takes the lock for a lease; by the fields of each record: what is over is unlinked, unstamped is stamped, overdue is requeued, younger is kept; the reply counts what was requeued |
| InferenceQueue.RedisInferenceQueue.SweepScript | app/async_queue.py:53-79 | the loop over the snapshot, editing the live lists, is the fold of its iterations, for lists with duplicates too |
| InferenceQueue.RedisInferenceQueue.SweepEntry | app/async_queue.py:57-76 | one iteration on a listed id, by the fields of its record: unlinked, stamped, requeued or kept |
| InferenceQueue.SweepRefines | app/async_queue.py:53-79 | for distinct ids: processing keeps the kept ids in order, the stranded ids are appended in order, exactly the unstamped kept ones are stamped, terminal records are untouched |
| InferenceQueue.SnapshotStaysLinked | app/async_queue.py:55-69 | the rest of the snapshot stays linked, so the guarded `LREM` always finds its entry |
| InferenceQueue.SweepOnce | app/async_queue.py:56-77 | an id named once gets exactly its verdict, whatever duplicates surround it |
| InferenceQueue.SweepFrame | app/async_queue.py:56-77 | ids the snapshot does not name are untouched |
| InferenceQueue.SweepKeepsRecords | app/async_queue.py:59-71 | no record appears or goes, no payload changes, no terminal record changes |
| InferenceQueue.SweepConserves | app/async_queue.py:60-73 | every link is cut by the terminal branch, moved or left |
| InferenceQueue.SweepAppends | app/async_queue.py:72-73 | the sweep only appends to the queue |
| InferenceQueue.SweepRequeuesOnce | app/async_queue.py:55-76 | for lists with duplicates too, a sweep appends each stranded id once, in order of first occurrence, and nothing else |
| InferenceQueue.SweepFate | app/async_queue.py:55-76 | what becomes of every id, listed any number of times, by the fields of its record alone |
| InferenceQueue.SweepLeavesUnfinished | app/async_queue.py:60-61 | after a sweep, with any clocks, the processing list holds only jobs that have a record and are not finished |
| QueueProtocol.UninterruptedClaim | app/async_queue.py:160-175 | the three round trips with nothing in between are the sequential `claim` |
| QueueProtocol.UninterruptedRecovery | app/async_queue.py:217-231 | a recovery is the lock attempt followed at once by the script, if the lock was free |
| QueueProtocol.NobodyIsStuck | app/async_queue.py:136-234 | which round trips are possible when: submissions and sweeps always, the steps of a claim in their order, dropped exactly if the record read is gone or finished |
| Delivery.StepInv | app/async_queue.py:136-234 | every step of every participant keeps the delivery invariant, with no assumption about time |
| Delivery.AtLeastOnce | app/async_queue.py:160-234 | over every run an accepted job is waiting, in progress or finished; it is linked at most once, and exactly once until finished |
| Delivery.WorkersRunTheSubmission | app/async_queue.py:167-175 | a worker holds the payload that was submitted for its job |
| Delivery.RecordsCarryExpiry | app/async_queue.py:30-31 | until its key first expires, a record always carries an expiry |
| Delivery.Conservation | app/async_queue.py:18-79 | links created minus links cut are the links there are, expiry and duplicates included |
| Delivery.Backpressure | app/async_queue.py:27-33 | at most `capacity` submitted entries wait; the excess is what recovery placed; at capacity an enqueue changes nothing |
| Delivery.AcceptedExactly | app/async_queue.py:21-33 | over every run a submission is accepted exactly if its id has no record and fewer than `capacity` entries wait, and joins the end of the queue; any other changes nothing |
| Delivery.PayloadStable | app/async_queue.py:21-30 | while a record lives no step changes its payload |
| Delivery.IdempotentSubmission | app/async_queue.py:136-151 | a repeat changes nothing, even on a full queue, and conflicts exactly on another payload |
| Delivery.ServedInOrder | app/async_queue.py:162-164 | after k pops the old list less its first k entries still heads the queue |
| Delivery.PopTakesItsTurn | app/async_queue.py:162-164 | the entry at position k is taken by the pop after k further pops, which moves it to the end of the processing list |
| TimedQueue.LiveVerdict | app/async_queue.py:63-69 | a sweep neither requeues nor unlinks the job of a live claim |
| TimedQueue.OthersKeepLive | app/async_queue.py:160-234 | a live claim survives every step of other workers, producers and sweepers |
| TimedQueue.StepInv | app/async_queue.py:136-234 | every timely step keeps exclusivity, settled records and live claims |
| TimedQueue.Exclusivity | app/async_queue.py:200-214 | at most one worker holds a job; its entry is in the processing list and survives any sweep taken now |
| TimedQueue.DropNeedsExpiry | app/async_queue.py:168-170 | under the discipline the drop branch fires only for expired keys |
| TimedQueue.OneTerminalWrite | app/worker.py:19-35 | at most one `finish` per record, never both a result and an error |
| TimedQueue.TerminalIsFinal | app/async_queue.py:179-198 | once finished a record never changes while its key lives |
| TimedQueue.OutcomeIsDelivered | app/worker.py:24-35 | what a worker reports is exactly what every later poll shows |
| TimedQueue.RecoveryLease | app/worker.py:87-87 | the larger of twice the runtime deadline and 30 seconds, which leaves at least 15 seconds beyond any positive deadline |
| BoundedRecovery.AcquisitionSpacing | app/async_queue.py:216-221 | the lock is taken at most once per lease, with or without a sweep |
| BoundedRecovery.AcquisitionGap | app/worker.py:56-83 | if some worker attempts every `gap` seconds, at most lease plus gap passes until the lock is taken again |
| BoundedRecovery.SweepStranded | app/async_queue.py:63-75 | a sweep stamps or keeps a stranded entry, or moves it to the queue |
| BoundedRecovery.LeavesToQueue | app/async_queue.py:60-77 | the only way out of being stranded is back to the waiting list, by a sweep |
| BoundedRecovery.RequeuedExactly | app/async_queue.py:63-75 | a sweep requeues a stamped stranded entry exactly if its clock reading is at least a lease after the stamp |
| BoundedRecovery.GracedRequeuedExactly | app/async_queue.py:63-75 | over every run an entry graced by one sweep is requeued by a later one exactly if their clock readings are at least a lease apart |
| BoundedRecovery.RecoveredInTime | app/async_queue.py:200-234 | lock and script being two round trips: a stranded entry, stamped or not, is requeued within 2 + f times the lease plus gap if scripts run at the clock reading of their lock, and within 3 + f times that plus the delay if they run up to `delay` later; f counts the locks under which no script ran in time |
| BoundedRecovery.EnoughSweepsRequeue | app/async_queue.py:63-75 | by the second lock under which a script ran in time, or the third if the clock is read after the lock, the entry is requeued |
| QueueLimits.TerminalKeptExactly | app/async_queue.py:167-174 | in any state, a step un-finishes a job exactly if it is a late stamp or the key expires |
| QueueLimits.LinksChangeExactly | app/async_queue.py:21-33 | a single link is duplicated exactly by a resubmission and goes exactly by an unlink |
| QueueLimits.RecoveryFitsExactly | app/async_queue.py:55-76 | a sweep lengthens the queue by the number of distinct stranded ids, so it keeps a bound exactly if these fit |
| QueueLimits.LateStampUnfinishes | app/async_queue.py:167-174 | a run with true clocks in which a worker that outlives its lease overwrites a finished job |
| QueueLimits.RecoveryExceedsCapacity | app/async_queue.py:69-73 | a run within the discipline in which recovery exceeds the capacity |
| QueueLimits.SecondSweepMisses | app/async_queue.py:217-231 | a run in which the second sweep, although each script runs a second or less after its lock, leaves the entry stranded |
| QueueLimits.ExpiryDuplicates | app/async_queue.py:21-32 | a run within the discipline in which an expired key is linked twice |
| QueueLimits.ExpiryLosesJob | app/async_queue.py:168-170 | a run within the discipline in which an expired job is dropped unfinished |
| QueueLimits.ExpiredStampOrphans | app/async_queue.py:171-175 | a run within the discipline in which a stamp leaves a record with no payload and no expiry |
| JobIdentity.NoSlash | app/schemas.py:17-25 | resource names contain no slash |
| JobIdentity.NamePattern | app/schemas.py:17-24 | the names are those of the regular expression, up to 63 characters |
| JobIdentity.IdentityInjective | app/async_routes.py:49-52 | `namespace/name/key` is injective even for keys with slashes |
| JobIdentity.KeysSeparateJobs | app/async_routes.py:49-69 | two keyed submissions meet in one job exactly if they name the same deployment and key; then the second repeats or conflicts |
| BodyLimit.Buffer | app/middleware.py:67-82 | the loop buffers a prefix of the stream up to the first message that ends the body or exceeds the limit, decides by the running total, waits for more otherwise, and holds at most the limit before the last message |
| BodyLimit.DecideBySize | app/middleware.py:70-80 | a complete body is rejected exactly if its size exceeds the limit |
| BodyLimit.DecisionIgnoresSplit | app/middleware.py:70-80 | any two splits of the same bytes get the same decision |
| BodyLimit.Replay.Receive | app/middleware.py:106-116 | the replay delivers the buffered messages and then the client's, each once, in order |
| BodyLimit.Replay.ReceiveMany | app/middleware.py:106-116 | any number of receive calls yields a prefix of the stream |
| BodyLimit.Handle | app/middleware.py:53-82 | on acceptance the application sees the client's stream unchanged; a declared length over the limit rejects at once |
| ControlPlane.StepInv | app/deployment_routes.py:45-157 | every step of every session and every other writer keeps the invariant |
| ControlPlane.VersionsAreImmutable | app/repository.py:57-86 | the first commit fixes a version's content for good |
| ControlPlane.CreatorOrigin | app/repository.py:76-86 | 201 is answered only in the step that commits the key |
| ControlPlane.RegistryAnswers | app/routes.py:116-146 | over every interleaving: one creator per version, whose content is stored; 200 and 409 tell exactly whether the stored content matches; and the re-read after a lost race finds the winner |
| ControlPlane.RegisteringStep | app/routes.py:124-146 | each step of a registration: 404 exactly if the model is not there, 409 exactly if image, digest or metadata of the stored version differ, 201 exactly if the commit inserts, which alone changes the registry |
| ControlPlane.NotFoundExactly | app/routes.py:124-125 | over every run 404 is the answer to a registration whose model was not there, and to nothing else |
| ControlPlane.AnswersByContentExactly | app/repository.py:111-121 | 200 is given for the stored content alone exactly if no value in its metadata has another spelling: a boolean, a fraction that is whole, or a whole number that a double can hold |
| ControlPlane.TrueMatchesOne | app/repository.py:117-121 | `{"a": true}` is taken for a repetition of `{"a": 1}` |
| Metadata.EqualExactly | app/repository.py:120 | metadata matches exactly if it is the same once all numbers and booleans are spelled alike |
| Metadata.UnambiguousIsItself | app/repository.py:120 | what has no other spelling matches itself only |
| Metadata.Respelled | app/repository.py:120 | anything that has another spelling matches some other value |
| Metadata.LargeWholeIsItself | app/repository.py:120 | 2^53 + 1 matches itself only |
| Metadata.FitsExactly | app/repository.py:120 | the whole numbers taken for doubles are the mantissas of 53 bits times a power of two |
| ControlPlane.WrittenImageIsRegistered | app/deployment_routes.py:53-69 | every spec the API wrote carries the image and digest registered for its version |
| ControlPlane.DeployLookup | app/deployment_routes.py:53-59 | 404 exactly if the version is not registered, and nothing is written |
| ControlPlane.DeploymentIsWritten | app/deployment_routes.py:61-72 | over every run the write of a deployment goes through, is answered by 200, and leaves a resource that asks for what was desired at the registered image and digest; no other resource is touched |
| ControlPlane.RollbackStep | app/deployment_routes.py:110-152 | 404 for a missing resource or version, 502 for a resource without a model or one that cannot be deployed again, and otherwise the stored spec at the target version with the revision that was read |
| ControlPlane.AbortStep | app/deployment_routes.py:68-72 | a session that is cut short has done what its pending call would have done, or nothing |
| ControlPlane.SessionsGoOn | app/routes.py:116-146 | sessions begin at their first step, any number at a time, and go on until answered |
| ControlPlane.RollbackLosesNothing | app/deployment_routes.py:102-157 | a rollback's write succeeds exactly if the object has the revision it read, and then changes only version and image of the stored spec, defaults spelled out |
| ControlPlane.ReadBackRendered | app/deployment_routes.py:199-263 | render followed by read returns the desired fields |
| ControlPlane.ReadExactly | app/deployment_routes.py:235-260 | a resource is shown exactly if it has model, version and image; a missing count is 1, a missing port 8080 |
| ModelSpecs.ValidateSpec | controller/internal/controller/modeldeployment_controller.go:251-284 | the two loops accept exactly the specs that are fine and report the first problem in the order of the checks and of the maps |
| ModelSpecs.ValidateExactly | controller/internal/controller/modeldeployment_controller.go:252-284 | for every iteration order, accepts exactly one declarative set of specs and reports only reportable errors |
| ModelSpecs.FirstProblemReported | controller/internal/controller/modeldeployment_controller.go:251-284 | what is reported is the first problem met: single fields, then requests, then limits, with counts and ports defaulting to 1 and 8080 |
| ModelSpecs.TrimmedIsSpace | controller/internal/controller/modeldeployment_controller.go:252-260 | white space alone is blank, letters are not |
| ModelSpecs.ReportedUnderSomeOrder | controller/internal/controller/modeldeployment_controller.go:270-282 | every reportable error is reported under some order |
| ModelSpecs.ReportIsDeterminedExactly | controller/internal/controller/modeldeployment_controller.go:270-282 | all orders report the same exactly if no two errors are reportable |
| ModelSpecs.OrderDecidesReport | controller/internal/controller/modeldeployment_controller.go:270-282 | a spec that one order rejects for one resource and another order for another |
| ModelSpecs.DefaultsFitExactly | controller/internal/controller/modeldeployment_controller.go:389-407 | rendered requests stay within rendered limits exactly if one-sided quantities respect the defaults |
| ModelSpecs.DefaultsMisfit | controller/internal/controller/modeldeployment_controller.go:389-407 | an accepted spec whose rendered request exceeds the default limit |
| Conditions.SetStatusCondition | controller/internal/controller/modeldeployment_controller.go:235-249 | the condition of that type is updated in place or appended; its transition time moves exactly if its status changes; other types stay |
| Conditions.ReportedReflects | controller/internal/controller/modeldeployment_controller.go:235-250 | after a report each of the three types says it at the current generation, once, and other types are unchanged |
| Conditions.ReportedMoves | controller/internal/controller/modeldeployment_controller.go:130-202 | a report moves the transition time of a condition exactly if its status changes |
| Conditions.ReportAgain | controller/internal/controller/modeldeployment_controller.go:235-250 | reporting the same again changes nothing, transition times included |
| Ownership.ClaimExactly | controller/internal/controller/modeldeployment_controller.go:114-128 | a child is taken exactly if it is missing or already has this controller owner; taking it again is the same |
| Ownership.UpsertKeepsOthers | controller/internal/controller/modeldeployment_controller.go:127 | taking a child leaves the references to other owners in place |
| Ownership.RefusedExactly | controller/internal/controller/modeldeployment_controller.go:118-127 | a child is refused for having no controller, or for another one, which is named |
| Ownership.ControllerExactly | controller/internal/controller/modeldeployment_controller.go:118 | the controller is the first reference marked so |
| Ownership.TakesOverNamesake | controller/internal/controller/modeldeployment_controller.go:118-127 | a child of an owner with the same name and another unique id is taken over |
| ReconcileLoop.TerminalDeploymentFailure | controller/internal/controller/modeldeployment_controller.go:204-215 | finds the first negative progress condition of the current generation, exactly if there is one |
| ReconcileLoop.ModelDeploymentReconciler.UpdateStatusIfChanged | controller/internal/controller/modeldeployment_controller.go:217-233 | a status that differs is written and counted, an equal one is not |
| ReconcileLoop.ModelDeploymentReconciler.ReportAndStop | controller/internal/controller/modeldeployment_controller.go:130-158 | the status of the invalid and the failed path |
| ReconcileLoop.ModelDeploymentReconciler.UpdateObservedStatus | controller/internal/controller/modeldeployment_controller.go:160-202 | the written status tells the truth about the observed Deployment, field by field |
| ReconcileLoop.ModelDeploymentReconciler.CreateOrUpdateDeployment | controller/internal/controller/modeldeployment_controller.go:71-80 | read, ownership check, mutate, write only if changed |
| ReconcileLoop.ModelDeploymentReconciler.CreateOrUpdateService | controller/internal/controller/modeldeployment_controller.go:82-91 | the same for the Service, keeping server-assigned fields |
| ReconcileLoop.ModelDeploymentReconciler.Reconcile | controller/internal/controller/modeldeployment_controller.go:56-103 | the pass in place is the specified pass for all faults; success leaves the workload asked for and a true status |
| Convergence.ReportsConsistent | controller/internal/controller/modeldeployment_controller.go:130-202 | on every path Progressing is true exactly when Available and Degraded are false |
| Convergence.WrittenStatusCoherent | controller/internal/controller/modeldeployment_controller.go:130-202 | a pass changes one model's status at most; a written status has one condition per type at the current generation and leaves other types alone |
| Convergence.OutcomeExactly | controller/internal/controller/modeldeployment_controller.go:56-103 | how a pass ends, for every cluster and fault |
| Convergence.ProblemIsRecorded | controller/internal/controller/modeldeployment_controller.go:130-158 | a pass that does not succeed records which problem it met, with which child, and leaves the rest of the status alone |
| Convergence.DriftConverges | controller/internal/controller/modeldeployment_controller.go:304-424 | success leaves both children owned and as rendered, whatever they were, with server-assigned Service fields kept |
| Convergence.DriftIsForgotten | controller/internal/controller/modeldeployment_controller.go:304-424 | two clusters that agree on the spec end with the same managed child fields |
| Convergence.WorkloadAsAsked | controller/internal/controller/modeldeployment_controller.go:304-430 | after success pods, Service, labels and owner are those asked for, field by field; each resource map is the given one or the default |
| Convergence.LabelsSeparate | controller/internal/controller/modeldeployment_controller.go:426-432 | models of different names never share labels |
| Convergence.StatusTellsTheTruth | controller/internal/controller/modeldeployment_controller.go:160-202 | after success Available is true exactly if the current generation was observed and the total, updated, available and ready pods all equal the number asked for; the other conditions, the active version, the counts and the endpoint say what was seen |
| Convergence.PassFrame | controller/internal/controller/modeldeployment_controller.go:300-302 | a pass never touches another model's children |
| Convergence.ForeignUntouched | controller/internal/controller/modeldeployment_controller.go:114-158 | a foreign child is never modified, the Service is untouched when the Deployment step fails, and the pass reports Degraded |
| Convergence.ChildErrors | controller/internal/controller/modeldeployment_controller.go:114-128 | a child step fails with what is wrong: no controller, another one by name, or else the server |
| Convergence.ReconciledExactly | controller/internal/controller/modeldeployment_controller.go:71-95 | with a server that answers every call and refuses only a changed selector, a valid model is reconciled exactly if neither child is foreign and the Deployment has the prescribed selector |
| Convergence.ReconciledIfAccepted | controller/internal/controller/modeldeployment_controller.go:71-95 | with a server that accepts every write, exactly if neither child is foreign |
| Convergence.Fixpoint | controller/internal/controller/modeldeployment_controller.go:56-103 | a second pass with no change in between does no create, no update and no status write |
| Convergence.InvalidFixpointExactly | controller/internal/controller/modeldeployment_controller.go:66-69 | an invalid spec reaches the fixpoint under all map orders exactly if one error only is reportable |
| Convergence.OtherErrorRewrites | controller/internal/controller/modeldeployment_controller.go:130-142 | a second pass that meets another error rewrites the status |
| Convergence.OrdersKeepRewriting | controller/internal/controller/modeldeployment_controller.go:130-142 | a cluster and two map orders under which the second pass does not leave the status alone |
| ControllerRuns.StepInv | controller/internal/controller/modeldeployment_controller.go:56-103 | every event keeps statuses coherent and reported generations within bounds |
| ControllerRuns.RunInv | controller/internal/controller/modeldeployment_controller.go:130-202 | in every reachable cluster each status is blank or coherent |
| ControllerRuns.NoStaleReadiness | controller/internal/controller/modeldeployment_controller.go:160-189 | a pass that creates the Deployment or changes its spec records no Available and leaves the active version alone |
| ControllerRuns.ActiveStep | controller/internal/controller/modeldeployment_controller.go:182-189 | the active version changes only in a pass that sees that version rendered and fully rolled out, and is blank only on a new model |
| ControllerRuns.ActiveWasServed | controller/internal/controller/modeldeployment_controller.go:182-189 | over every run an active version was fully rolled out when it was credited |
| ControllerRuns.ForeignSafe | controller/internal/controller/modeldeployment_controller.go:72-91 | over every run the controller leaves foreign children, and children of unknown models, as they are |
| ControllerRuns.SuccessDelivers | controller/internal/controller/modeldeployment_controller.go:56-103 | over every run a pass that succeeds leaves the workload asked for and a true status |
| InterleavedController.SameRevisionSameObject | controller/internal/controller/modeldeployment_controller.go:71-95 | a write that passes the revision check meets exactly the object that was read |
| InterleavedController.PlanMeans | controller/internal/controller/modeldeployment_controller.go:71-80 | a plan refuses exactly a foreign Deployment, leaves only a settled one, and otherwise stores a settled one |
| InterleavedController.StepInv | controller/internal/controller/modeldeployment_controller.go:56-103 | every step of a pass and every act of others, in any order and with reads of any age, keeps the invariant |
| InterleavedController.RunInv | controller/internal/controller/modeldeployment_controller.go:56-103 | the invariant holds in every state of every interleaved run |
| InterleavedController.LoggedWasStored | controller/internal/controller/modeldeployment_controller.go:56-95 | whatever a read of the model or of a child may return, the cluster really held at some earlier state |
| InterleavedController.ShownWasServed | controller/internal/controller/modeldeployment_controller.go:160-202 | over every interleaved run each status is coherent, an active version was fully rolled out at some time, and Available at the current generation means that this generation's version was |
| InterleavedController.StatusWriteOwn | controller/internal/controller/modeldeployment_controller.go:217-233 | a status write replaces the status of the very object that was read, or changes nothing |
| InterleavedController.WritesOnlyItsOwn | controller/internal/controller/modeldeployment_controller.go:71-95 | over every interleaved run the child a pass overwrites is at that moment missing or its own and becomes settled; nothing else is written |
| UninterruptedPass.DeploymentSettles | controller/internal/controller/modeldeployment_controller.go:71-80 | with a current read, the separate calls for the Deployment store and report what the one-step form does, for every answer of the server |
| UninterruptedPass.ServiceSettles | controller/internal/controller/modeldeployment_controller.go:83-91 | the same for the Service |
| UninterruptedPass.UninterruptedExactly | controller/internal/controller/modeldeployment_controller.go:56-103 | for every cluster, input and fault, every pass whose calls are not interrupted leaves exactly the cluster the one-step pass leaves |
| UninterruptedPass.PassIsARunOfCalls | controller/internal/controller/modeldeployment_controller.go:56-103 | such a pass exists, and it makes no call exactly if there is no model to work on |
| Readiness.GoesOnWithStoredExactly | controller/internal/controller/modeldeployment_controller.go:71-80 | over every interleaved run the Deployment a pass goes on with is the stored object exactly if the revision it read is still stored |
| Readiness.ReadinessExactly | controller/internal/controller/modeldeployment_controller.go:160-189 | Available at the current generation was credited by a pass on that generation from a Deployment with that version rolled out, which was the stored one exactly if the read was current; then the cluster was serving that version |
| Readiness.ChangeIsNeverReady | controller/internal/controller/modeldeployment_controller.go:160-202 | over every interleaved run a pass that created the Deployment or changed its spec never reports Available and leaves the active version alone |
| OutdatedReads.OutdatedPass | controller/internal/controller/modeldeployment_controller.go:56-103 | whatever version a pass reads, if it is settled and rolled out the model is shown as available |
| OutdatedReads.OutdatedReadiness | controller/internal/controller/modeldeployment_controller.go:56-103 | for any two acceptable specs of different versions, a run from the empty cluster after which the model shows one as available while the other is stored and rolling out |
| OutdatedReads.OutdatedReadinessHappens | controller/internal/controller/modeldeployment_controller.go:56-103 | the same on concrete specs |

## Left out

- Worker loops (`consume`, `recover_periodically`, `process_job`): appear as events in any order; a runtime call is any success, any failure, or a crash.
- How often no script runs in time under a recovery lock, because its holder died or was too slow: the bound on recovery takes this number f as given.
- Clock skew between workers and Redis writes still in flight after a timeout: there is one clock in the timed results, and an ambiguous write counts as applied or not applied before the claim is abandoned.
- Key expiry times: a key with an expiry may expire at any moment, rather than after its configured lifetime.
- JSON encoding and SHA-256: canonical text of a job's payload, and a digest without collisions. In a version's metadata every number that is not whole is read exactly, and infinity and not-a-number are left out.
- The poll guard and the readiness guard of the async routes: simple filters over a string and a condition list.
- `put_model` and the list and read endpoints of the registry: models appear atomically.
- Server-side apply field managers: the API's apply replaces the spec it sends; a conflict with another manager is one of the ways a session is aborted.
- Stripping of surrounding white space by the API schemas, and their regular expressions beyond the resource name.
- How old a cached read may be: in `InterleavedController` a read may return any version the cluster ever held.
- Rules of the Kubernetes server other than the fixed selector of a Deployment: a rejected write is one of the faults of a call.
- The constant pod-template fields (security context, probes, strategy): one opaque value that drift replaces and reconciliation restores.
- Formatting of messages: kept as the values they are formatted from.
- Metrics, logging, the classifier, the CLI, the web console, migrations and manifests.
