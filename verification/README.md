# Verified model of the Rayon executor service

A Dafny model of the shared scheduling state of `qubit-rayon-executor` and of everything that moves tasks
through it: producers that submit, worker closures in the pool, handles that cancel, threads that shut down,
stop or wait. `dafny verify dfyconfig.toml` checks the project.

The service keeps one record under a mutex: an id-ordered queue of jobs, the running and cancelling tasks, and
`scheduled`, the number of pool closures reserved for work. The locked regions are short; the difficulty is what
happens between them. A submission promises closures it spawns later, a finished worker promises a successor it
spawns after notifying, cancelled jobs are destroyed outside the lock, and the watch channels are published after
unlocking, where a waker may call back into the service.

## How the model is built

- `ServiceInner` holds the record as a value and each locked region as a function on it, generic in the job type.
- `CallableJobs`, `ServiceState` and `Service` are the source's objects as classes that update their fields, with
  the source's loops. Each method is proved equal to its function in `ServiceInner`, so what is proved of the
  functions holds of the objects.
- `Threads` is the executor as an interleaved system. A thread is a control state (`Act`); `Advance` says what its
  next atomic action does. Every locked region is one action and every action outside the lock is one too, so any
  thread may move in between. `Shared` also records history: accept, run and cancel counts of every job, the order
  of starts, and the number of signals owed.
- `Counts` adds up, over all threads, the reservations, owned tasks and publications they carry. `Invariant` states
  the equations between these sums and the record. `Evolution` says how the shared state can change over any number
  of steps; `Actions`, `LockedActions`, `UnlockedActions` and `Preservation` prove that every action keeps the
  invariant and moves forward only. `Preservation.ReachableInv` gives the invariant `Inv` for every reachable state.
- `Carriers` says which threads carry reservations or cancelled jobs, and that work in the record always has one.
- `Guarantees`, `Lifecycles`, `Answers`, `Claims`, `Drain`, `Work`, `Notifications`, `Refinement` and `CancelResults`
  are the results.
- `Waits` holds the two blocking wait loops over what a waiter observes at each turn.

Results are for every interleaving, any number of threads, any capacity of at least 1 and any worker count of at
least 1, as the builder enforces (src/rayon_executor_service_builder.rs:121-129).

## Assumptions

- The result slot belongs to another crate and is not part of this model beyond this: it is pending until a job is
  run or cancelled, `run` has published a completion when it returns, and `cancel` publishes the cancellation.
  Cancelling a slot directly succeeds only while it is pending (`Basics.CancelSlot`); the result
  `FallbackOnlyWhenFinished` shows that the service never relies on that case.
- User code and destructors return. They may panic; the code that catches a panic is modelled. The task runner, of
  another crate, publishes the callable's result, or a panic if the callable unwinds.
- Task ids and counts are 64-bit. Exhausting the ids panics before any change and is modelled as such.
- The pool may start spawned closures in any order.

## Where the code and its documentation differ

- The documentation of `cancel` promises `Cancelled` when this call claims queued work
  (src/rayon_task_handle.rs:128-129). The code also reports `Cancelled` when another call is still cleaning the task
  up (src/rayon_task_handle.rs:301). `CancelDecided` gives the exact condition, `CancelledTwice` a run.
- The user guide says a completed task reports `AlreadyFinished` (doc/user_guide.md:203-205). A
  `TaskCancellationHandle` still reports `AlreadyRunning` for a task whose result is published but whose worker has
  not released it. `EndpointsAgreeUnlessReleasing` shows this is the only window in which it differs from the
  handle; `EndpointLags` gives a run.

The model follows the code in both cases.

## Model

| member | source | states |
|---|---|---|
| ServiceInner.AdmitReserves | src/rayon_executor_service_state.rs:195-205 | An accepted task gets the next id and joins the queue unchanged otherwise; reservations cover the whole queue or every free worker, whichever is less. |
| ServiceInner.AdmitKeepsValid | src/rayon_executor_service_state.rs:187-206 | Each refusal comes exactly for its reason, in the order closed, full, ids used up; otherwise the task is accepted and uses one slot; a refusal changes nothing; the record stays valid. |
| ServiceInner.TakeNextKeepsValid | src/rayon_executor_service_state.rs:214-226 | A closure takes the oldest queued job without changing occupancy, or gives exactly its own reservation back. |
| ServiceInner.FinishRunningKeepsValid | src/rayon_executor_service_state.rs:252-264 | Finishing frees one slot; a successor is promised exactly when a task is queued, the reservation is then kept and otherwise released, and nothing else changes. |
| ServiceInner.CancelPendingKeepsValid | src/rayon_executor_service_state.rs:278-289 | A claim is granted exactly to a queued task and frees no slot. |
| ServiceInner.FinishCancellingKeepsValid | src/rayon_executor_service_state.rs:299-306 | Releasing a cancelling task frees its slot; releasing any other id frees none. |
| ServiceInner.StopKeepsValid | src/rayon_executor_service_state.rs:329-344 | Stop ends admission, empties the queue and moves exactly its ids to cancelling at once, frees no slot, and reports as cancelled exactly the jobs it hands out; the record stays valid. |
| ServiceInner.BeginShutdownKeepsValid | src/rayon_executor_service_state.rs:312-320 | Shutdown turns a running lifecycle into shutting down, changes nothing else, and the record stays valid. |
| Basics.InOrder | src/rayon_executor_service_state.rs:334-339 | The jobs taken by stop come in ascending id order, each with the job queued under its id. |
| Basics.CountInOrder | src/rayon_executor_service_state.rs:334-339 | Every queued id is handed out exactly once and no other id is. |
| ServiceState.RayonExecutorServiceState.constructor | src/rayon_executor_service_state.rs:62-81 | A new state is running with the capacity and worker count it was given, and otherwise empty: no task, reservation, waiter, signal or termination. |
| ServiceState.RayonExecutorServiceState.ObservedLifecycle | src/rayon_executor_service_state.rs:155-162 | Terminated is reported exactly once admission has ended and nothing is queued, running or cancelling; otherwise the stored lifecycle is. |
| ServiceState.RayonExecutorServiceState.Admit | src/rayon_executor_service_state.rs:187-206 | The fields and the result are those of the locked region, and the job is accepted exactly when admitted. |
| ServiceState.RayonExecutorServiceState.TakeNext | src/rayon_executor_service_state.rs:214-226 | The fields and the result are those of the locked region; only an empty queue notifies, and never about capacity. |
| ServiceState.RayonExecutorServiceState.FinishRunning | src/rayon_executor_service_state.rs:252-264 | The fields and the result are those of the locked region; one capacity signal; waiters are woken and termination published exactly when terminated. |
| ServiceState.RayonExecutorServiceState.CancelPendingTask | src/rayon_executor_service_state.rs:278-289 | The fields and the disposition are those of the locked region. |
| ServiceState.RayonExecutorServiceState.FinishCancelling | src/rayon_executor_service_state.rs:299-306 | The fields are those of the locked region; one capacity signal; every waiter is woken. |
| ServiceState.RayonExecutorServiceState.Shutdown | src/rayon_executor_service_state.rs:312-320 | Only a running lifecycle changes; one capacity signal; waiters are woken exactly when terminated. |
| ServiceState.RayonExecutorServiceState.Stop | src/rayon_executor_service_state.rs:329-344 | The fields, the report and the jobs handed out are those of the locked region, jobs in id order; one capacity signal. |
| ServiceState.RayonExecutorServiceState.ClaimAll | src/rayon_executor_service_state.rs:336-339 | The loop adds exactly the taken ids to cancelling and hands the jobs out in the order given. |
| ServiceState.RayonExecutorServiceState.NotifyAsyncChanges | src/rayon_executor_service_state.rs:390-413 | The capacity generation advances by one, wrapping at 64 bits, exactly when asked; the termination value is set exactly when asked and never unset. |
| ServiceState.RayonExecutorServiceState.NotifyIfTerminatedLocked | src/rayon_executor_service_state.rs:430-437 | Reports termination exactly and wakes every waiter in that case only. |
| CallableJobs.CallableJob.Run | src/internal/callable_job.rs:70-87 | Unless call and destructor both panic, which aborts with nothing published, the callable is called once, destroyed once after that, and one result published after that, a panic of either being the result; no panic escapes. |
| CallableJobs.CallableJob.Cancel | src/internal/callable_job.rs:90-94 | The cancellation is the one result published, before the callable is destroyed once without having been called; a destructor panic reaches the caller. |
| Waits.WaitForTermination | src/rayon_executor_service_state.rs:350-355 | The wait ends at the first turn that sees termination, whatever the spurious wakeups. |
| Waits.WaitForTerminationTimeout | src/rayon_executor_service_state.rs:367-378 | If some turn sees termination or is past the timeout the wait ends at the first such turn: true exactly when that turn sees termination, false only with the timeout elapsed and the service not terminated. |
| Waits.AdvancingClockExpires | src/rayon_executor_service_state.rs:368-375 | A clock that advances at every wakeup meets the timeout, so the timed wait ends. |
| Service.RayonExecutorService.Dispatch | src/rayon_executor_service.rs:227-233 | Exactly the promised number of closures is spawned. |
| Service.RayonExecutorService.Submit | src/rayon_executor_service.rs:181-193 | An admitted job spawns exactly its promised closures; a refused job is not accepted and spawns none. |
| Service.RayonExecutorService.RunOne | src/rayon_executor_service.rs:245-256 | A closure that finds nothing only gives up its reservation; otherwise it runs the oldest job once with the result its behaviour calls for, takes that task out of the record, signals capacity once, announces termination if it ended the service, and respawns, keeping its reservation, exactly when another task was queued. |
| Service.RayonExecutorService.CleanUp | src/rayon_executor_service.rs:381-386 | For any list of claimed jobs and any pattern of panics, each job is cancelled once, each id released once, and other callers' ids stay. |
| Service.RayonExecutorService.Stop | src/rayon_executor_service.rs:379-388 | The whole call cancels every queued job once, leaves none of its ids in cancelling, and signals once for itself and once per task. |
| Service.RayonExecutorService.CancelTask | src/rayon_task_handle.rs:289-304 | A queued task is cancelled once and its slot freed; a task being cancelled is reported as cancelled; otherwise the handle answers by the slot's status, the endpoint `AlreadyRunning` for a running task and else what cancelling the slot says, and the record does not change. |
| Preservation.StepKeepsInv | src/rayon_executor_service_state.rs:187-413 | Every step of every thread keeps the invariant and moves the shared state forward only. |
| Preservation.RunKeepsInv | src/rayon_executor_service_state.rs:187-413 | So does every run. |
| Preservation.ReachableInv | src/rayon_executor_service_state.rs:62-81 | Every state reachable from a service the builder accepts satisfies the invariant. |
| Preservation.ConfiguredAs | src/rayon_executor_service_state.rs:62-69 | In every reachable state the record has the capacity and the worker count the service was built with. |
| Guarantees.ReservationsConserved | src/rayon_executor_service_state.rs:199-201 | `scheduled` is exactly the closures promised, spawned, working and succeeding, and at most the worker count the service was built with; no saturating subtraction saturates. |
| Guarantees.WorkConserved | src/rayon_executor_service_state.rs:187-264 | Unless as many reservations are held as the service was built with workers, every queued task has a closure of its own in flight; a queued task always leaves some thread that holds a reservation able to act. |
| Guarantees.TasksPartitioned | src/internal/rayon_executor_service_inner.rs:16-35 | Every admitted id is in exactly one of queue, running, cancelling, completed and cancelled, with the job admitted under it. |
| Guarantees.OccupancyBounded | src/rayon_executor_service_state.rs:192-194 | Queued, running and cancelling tasks together never exceed the capacity the service was built with. |
| Guarantees.SlotChanges | src/rayon_executor_service_state.rs:445-447 | A slot is taken only by an accepted submission and freed only by finishing or releasing, one at a time, never by claiming. |
| Guarantees.JobsExactlyOnce | src/queued_job.rs:9-23 | An admitted job is accepted once and run or cancelled at most once, not before it leaves the queue, and exactly once when its task is done. |
| Guarantees.JobsDistinct | src/rayon_executor_service_state.rs:195-198 | No job is admitted under two ids. |
| Guarantees.RefusedNeverTouched | src/rayon_executor_service_state.rs:189-194 | A refused job is never accepted, run or cancelled. |
| Guarantees.StartsInOrder | src/rayon_executor_service_state.rs:214-226 | Ids are started in increasing order over a whole run and every task older than a started one has left the queue. |
| Lifecycles.ReportedDecided | src/rayon_executor_service_state.rs:155-162 | After any run `Running` is reported until the first shutdown or stop; then `Terminated` exactly when nothing is queued, running or cancelling; else `Stopping` once there was a stop and `ShuttingDown` before. |
| Guarantees.LifecycleMonotone | src/rayon_executor_service_state.rs:155-162 | The observed lifecycle only moves forward, each value allowing just the later ones, and termination is absorbing. |
| Guarantees.StopIsFinal | src/rayon_executor_service_state.rs:329-344 | After stop no task ever starts, is queued or is admitted. |
| Guarantees.ClaimsAccounted | src/rayon_executor_service_state.rs:278-289 | Over any number of stops and cancels, reported cancellations plus owning results equal the tasks claimed. |
| Guarantees.CancelledNeverRuns | src/rayon_task_handle.rs:289-304 | After `Cancelled` the job is not run in any continuation. |
| Claims.CancelSettles | src/rayon_task_handle.rs:294-300 | Over any run, when a cancellation that claimed its task returns, the task is out of the record with its slot free, its job cancelled once and never run. |
| Claims.StopSettles | src/rayon_executor_service.rs:379-388 | Over any run, when a stop returns, the same holds of every task queued when it took the lock, and its report counted them. |
| Guarantees.AlreadyRunningStarted | src/rayon_task_handle.rs:157-165 | `AlreadyRunning` means a worker had claimed the task, which is then never cancelled. |
| Guarantees.AlreadyFinishedTerminal | src/rayon_task_handle.rs:267-272 | `AlreadyFinished` means a terminal status exists, and it is final. |
| Guarantees.ResultPublished | src/internal/callable_job.rs:70-87 | The completion a run ends with becomes its task's status and stays it in every continuation. |
| Guarantees.FallbackOnlyWhenFinished | src/rayon_task_handle.rs:157-165 | The endpoint's direct cancellation is reached only for a terminal slot and changes nothing. |
| Drain.BoundedWork | src/rayon_executor_service.rs:227-256 | In any run, actions done plus actions left never exceed those left at the start plus a fixed cost per call. |
| Drain.QuiescentIsIdle | src/rayon_executor_service_state.rs:187-344 | When no thread can act there is no accepted task, no reservation and no unpublished signal; after admission ended the service is terminated and announced. |
| Drain.QuiescentIsComplete | src/queued_job.rs:9-23 | When no thread can act every admitted job was run once or cancelled once, with a terminal status. |
| Drain.ReachesRest | src/rayon_executor_service.rs:245-256 | From every reachable state some schedule of the threads already inside comes to rest within the bound, so the runs of the next row can be completed. |
| Drain.EveryScheduleRests | src/rayon_executor_service.rs:245-256 | Whatever the schedule, the threads inside stop within the bound, and where none can act there is no accepted task, reservation or unpublished signal left, and every job was run or cancelled once. |
| Work.StepLowers | src/rayon_executor_service_state.rs:214-344 | Once admission ended, 3 per queued or running task, 1 per cancelling one, 2 per promised closure or successor and 1 per spawned closure falls at every worker, spawn, cleanup and claiming step and stays the same at every other one, repeated shutdown and stop included. |
| Work.Drains | src/rayon_executor_service.rs:227-256 | Once admission ended, any run with any further calls has at most that many steps of work and a fixed number of actions of carriers; some carrier can act until the service is terminated, and then every job was run or cancelled once. |
| Notifications.SignalsCounted | src/rayon_executor_service_state.rs:252-343 | Publications made plus in flight equal the finishes, releases, shutdowns and stops. |
| Notifications.PublishesExactly | src/rayon_executor_service_state.rs:214-343 | A section that signals publishes a capacity change and a closure that finds nothing does not; both publish termination exactly when they leave the service terminated. |
| Notifications.NoLostCapacitySignal | src/rayon_executor_service_state.rs:121-124 | After a saturated attempt, whenever admission would no longer saturate, the version has passed what the producer saw or a publication is in flight. |
| Notifications.TerminationAnnounced | src/rayon_executor_service_state.rs:86-112 | The termination value is true only if terminated, and then true or on its way; it changes at most once; a subscriber that saw termination finds it true. |
| Answers.SubscriberTold | src/rayon_executor_service_state.rs:86-112 | Over any run, a subscriber anywhere in its call on a terminated service returns with the value set, and a mere subscription reports that it saw termination. |
| Answers.SubscriberUntold | src/rayon_executor_service_state.rs:86-112 | A subscriber that checks a live service reports no termination; one that waits returns only with the value set. |
| Notifications.AwaitersComplete | src/rayon_executor_service.rs:116-121 | On a terminated service, in any run, an asynchronous wait can return or a thread able to act is about to set the value; and wherever no thread can act the value is set and every wait has returned. |
| Notifications.NoLostWakeup | src/rayon_executor_service_state.rs:350-355 | Once terminated no waiter is parked, now or later, and each remaining waiter returns true at its next turn. |
| Notifications.WaitAnswers | src/rayon_executor_service_state.rs:367-378 | Over any run from its start, whatever the wakeups, a wait has returned true only on termination and false only after the time it was given; a turn returns true exactly when terminated, false exactly when live and that time has passed, and parks otherwise. |
| Notifications.NotifiedExactly | src/rayon_executor_service_state.rs:299-306 | Releasing a cancellation wakes every waiter; any other action wakes them all when it leaves the service terminated and none otherwise. |
| Refinement.OccupiedIsUnfinished | src/rayon_executor_service_state.rs:445-447 | The slots in use are exactly the unfinished tasks of the task machine. |
| Refinement.StepRefines | src/rayon_executor_service_state.rs:187-344 | Every step is one allowed event of the simple task machine, on exactly the task it names, or changes no task. |
| Refinement.ServiceRefines | src/internal/rayon_executor_service_inner.rs:16-35 | Every run of a service is a trace of the task machine: bounded admission, oldest first, each task through its phases once. |
| Refinement.SubmitDecided | src/rayon_executor_service_state.rs:189-194 | A submission is refused as shut down exactly once closed, and as saturated exactly at the capacity the service was built with. |
| Answers.SubmitAnswers | src/rayon_executor_service.rs:181-193 | Over any run, a submission that returns was refused exactly for its reason and spawned nothing, or returns the next id, its own job admitted under it, and has spawned one closure per task then queued as far as workers were free. |
| Answers.WorkerAnswers | src/rayon_executor_service.rs:253-255 | Over any run, a worker whose closure returns has spawned one successor exactly if a task was queued when it finished, and given its reservation back exactly otherwise. |
| Answers.ShutdownAnswers | src/rayon_executor_service_state.rs:312-320 | Shutdown moves a running lifecycle to shutting down in its locked region, leaves any other, and returns as such. |
| CancelResults.CancelDecided | src/rayon_task_handle.rs:293-303 | `Cancelled` is reported exactly for a task found queued or cancelling; the job is claimed exactly when found queued. |
| Answers.CancelAnswers | src/rayon_task_handle.rs:267-304 | Over any run, a cancellation that could claim nothing answers for its own endpoint: by the status for the handle, by the running tasks for the other, as it was when asked or as it is when answered. |
| CancelResults.CancelledTwice | src/rayon_task_handle.rs:301 | A run in which a second cancellation reports `Cancelled` without claiming anything. |
| CancelResults.EndpointsAgreeUnlessReleasing | src/rayon_task_handle.rs:157-165 | What the two endpoints return for an unclaimed task differs exactly when it is still among the running ones with a terminal result, which is while a worker has left `run` and not released it. |
| CancelResults.EndpointLags | src/rayon_task_handle.rs:157-165 | A run in which the endpoint reports `AlreadyRunning` for a task that has succeeded. |

## Left out

- The Rayon pool: a set of spawned closures that may be started in any order; FIFO spawning is not used.
- The watch channels' internals, wakers, futures and the receiver wrapper: a version counter, a boolean, and the rule that a publication may be followed by any other step.
- Panic payloads and their disposal: a panic is unwinding that a caller catches. An aborting double panic ends `Run` and `RunOne`, and nothing is said of the service after it; the interleaved system leaves it out.
- The result slot, the task runner, blocking `get` and futures of handles: other crates, used only through the assumptions above.
- `RunnableJob`: the same protocol without a result slot.
- `stats`, the builder's setters and errors, thread naming, and cloning and dropping of services and handles: they only read or configure.
- Fairness among producers: the documentation promises none.
- Submit: the class method runs without interference; under interleaving its answer and its closures are in `SubmitAnswers`, its job in `JobsExactlyOnce`.
- RunOne: runs one closure without interference; under interleaving its start is in `StepRefines`, its job in `JobsExactlyOnce` and `ResultPublished`, its end in `WorkerAnswers` and `SignalsCounted`.
- CleanUp: the class method runs without interference, with each destructor's panic as a flag; under interleaving `StopSettles` says what it leaves behind.
- Stop: the class method runs without interference; under interleaving its result is `StopSettles`.
- CancelTask: the class method runs without interference; under interleaving it is `CancelDecided`, `CancelSettles` for a claimed task and `CancelAnswers` for any other.
- WaitForTermination: takes what the waiter observes at each turn as a function; parking, waking and the clock are in the threaded system, `NoLostWakeup` and `WaitAnswers`.
- WaitForTerminationTimeout: as `WaitForTermination`.
- ReachesRest: exhibits one schedule; `EveryScheduleRests` covers every one.
