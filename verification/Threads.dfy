/**
 The executor as an interleaved system.

 `Shared` is everything threads share: the mutex-protected record, the two
 watch channels, the condition variable's waiters and the result slots, plus
 counters that only record history. An `Act` is the control state of one
 thread inside one API call or one worker closure. `Advance` is the program:
 what the thread's next atomic action does to the shared state, where the
 thread goes next, and whether it spawned a worker closure into the pool.

 Every locked region is one action. Everything the source does outside the
 lock (spawning, running a job, publishing, cleaning up a cancelled job) is an
 action of its own, so any other thread may move in between, including user
 code and wakers that call back into the service.
 */
module Threads {
  import opened Basics
  import opened ServiceInner

  /** One submitted job: how often each `QueuedJob` operation was invoked on it, and its result slot. */
  datatype JobRecord = JobRecord(accepts: nat, runs: nat, cancels: nat, status: TaskStatus)

  /**
   A thread in `wait_for_termination` or, with a deadline, in
   `wait_for_termination_timeout`; `Done` holds what it returned.
   */
  datatype Waiter =
    | Checking(deadline: Option<nat>)
    | Parked(deadline: Option<nat>)
    | Done(deadline: Option<nat>, observed: bool)

  datatype Shared = Shared(
    inner: Inner<nat>,
    waiters: seq<Waiter>,
    now: nat,  // the clock timed waits read
    capacityVersion: nat,
    terminationValue: bool,
    jobs: seq<JobRecord>,
    // History: the job admitted under each task id, the ids that left the
    // record, the ids returned by `take_next` in order, the sections that owe
    // a capacity signal, and the changes of the termination value.
    admitted: seq<nat>,
    completed: set<nat>,
    cancelled: set<nat>,
    starts: seq<nat>,
    signals: nat,
    flips: nat)

  datatype Call =
    | Submit
    | Cancel(taskId: nat, via: Via)
    | Shutdown
    | Stop
    | SubscribeTermination(wait: bool)

  datatype Outcome =
    | Submitted(taskId: nat)
    | Refused(error: SubmissionError)
    | SubmitPanicked
    | WorkerDone
    | ShutdownDone
    | StopDone(report: StopReport)
    | CancelDone(taskId: nat, result: CancelResult, owned: bool)
    | SubscribeDone(sawTerminated: bool)
    | AwaitDone

  /** What a thread does once its publications are finished. */
  datatype Cont =
    | Return(out: Outcome)
    | Respawn
    | Clean(owned: seq<Claim<nat>>, out: Outcome)

  datatype Act =
    | Calling(call: Call)
    | Dispatching(taskId: nat, left: nat)               // closures promised by `admit`
    | Closure                                           // spawned, before `take_next`
    | Taken(claim: Claim<nat>)                          // owned by a worker, `run` not entered
    | Working(claim: Claim<nat>)                        // inside `run`
    | Ran(claim: Claim<nat>)                            // `run` returned, before `finish_running`
    | Publishing(capacity: bool, terminated: bool, k: Cont)
    | PublishingEnd(terminated: bool, k: Cont)          // capacity published, termination not yet
    | Respawning                                        // successor promised by `finish_running`
    | Cancelling(owned: seq<Claim<nat>>, out: Outcome)  // before `cancel` of the first claim
    | CleaningUp(owned: seq<Claim<nat>>, out: Outcome)  // cancellation published, destructor running
    | Cleaned(owned: seq<Claim<nat>>, out: Outcome)     // before `finish_cancelling` of the first claim
    | Unclaimed(taskId: nat, via: Via)          // `cancel_pending_task` found nothing to claim
    | Fallback(taskId: nat)                             // before the endpoint's `task.cancel()`
    | Subscribed(wait: bool)                            // receiver created, state not checked
    | Repairing(wait: bool)                             // saw termination, value not repaired
    | Awaiting                                          // waits for the termination value
    | Returned(out: Outcome)

  datatype Next = Next(sh: Shared, act: Act, spawned: bool)

  function InitialShared(taskCapacity: nat, numThreads: nat): Shared {
    Shared(Initial(taskCapacity, numThreads), [], 0, 0, false, [], [], {}, {}, [], 0, 0)
  }

  // ----- Pieces of an action -----

  function AfterDispatch(taskId: nat, left: nat): Act {
    if left == 0 then Returned(Submitted(taskId)) else Dispatching(taskId, left)
  }

  function Resume(k: Cont): Act {
    match k
    case Return(out) => Returned(out)
    case Respawn => Respawning
    case Clean(owned, out) => if owned == [] then Returned(out) else Cancelling(owned, out)
  }

  function WakeOne(w: Waiter): Waiter {
    if w.Parked? then Checking(w.deadline) else w
  }

  /** `Condvar::notify_all`. */
  function WakeAll(ws: seq<Waiter>): seq<Waiter> {
    seq(|ws|, i requires 0 <= i < |ws| => WakeOne(ws[i]))
  }

  /** Leaves a locked region with `inner`, notifying under the lock when the service is terminated. */
  function Leave(sh: Shared, inner: Inner<nat>, always: bool): Shared {
    sh.(inner := inner, waiters := if always || inner.IsTerminated() then WakeAll(sh.waiters) else sh.waiters)
  }

  /** `send_if_modified` on the termination channel. */
  function PublishTermination(sh: Shared): Shared {
    if sh.terminationValue then sh else sh.(terminationValue := true, flips := sh.flips + 1)
  }

  function SetJob(sh: Shared, j: nat, r: JobRecord): Shared
    requires j < |sh.jobs|
  {
    sh.(jobs := sh.jobs[j := r])
  }

  function AfterSubscribe(wait: bool, saw: bool): Act {
    if wait then Awaiting else Returned(SubscribeDone(saw))
  }

  /** The status of an admitted task, as its handle reads it. */
  function StatusOf(sh: Shared, id: nat): TaskStatus
    requires id < |sh.admitted| && sh.admitted[id] < |sh.jobs|
  {
    sh.jobs[sh.admitted[id]].status
  }

  // ----- Shape of a control state -----

  predicate Known(sh: Shared, id: nat) {
    id < |sh.admitted| && sh.admitted[id] < |sh.jobs|
  }

  /** The claim names an admitted task and carries the very job admitted under it. */
  predicate Genuine(sh: Shared, c: Claim<nat>) {
    Known(sh, c.id) && sh.admitted[c.id] == c.job
  }

  predicate AllGenuine(sh: Shared, owned: seq<Claim<nat>>) {
    forall i | 0 <= i < |owned| :: Genuine(sh, owned[i])
  }

  /** Every index an act uses is in range; proved of every reachable state. */
  predicate Fits(sh: Shared, a: Act) {
    match a
    case Calling(Cancel(id, _)) => Known(sh, id)
    case Dispatching(id, left) => id < |sh.admitted| && left >= 1
    case Taken(c) => Genuine(sh, c)
    case Working(c) => Genuine(sh, c)
    case Ran(c) => Genuine(sh, c)
    case Publishing(_, _, Clean(owned, _)) => AllGenuine(sh, owned)
    case PublishingEnd(_, Clean(owned, _)) => AllGenuine(sh, owned)
    case Cancelling(owned, _) => owned != [] && AllGenuine(sh, owned)
    case CleaningUp(owned, _) => owned != [] && AllGenuine(sh, owned)
    case Cleaned(owned, _) => owned != [] && AllGenuine(sh, owned)
    case Unclaimed(id, _) => Known(sh, id)
    case Fallback(id) => Known(sh, id)
    case _ => true
  }

  // ----- The actions -----

  function BeginSubmit(sh: Shared): Next {
    var j := |sh.jobs|;
    var (inner, admission) := Admit(sh.inner, j);
    match admission
    case Admitted(id, count) =>
      Next(sh.(inner := inner, jobs := sh.jobs + [JobRecord(1, 0, 0, Pending)], admitted := sh.admitted + [j]),
           AfterDispatch(id, count), false)
    case Rejected(error) =>
      Next(sh.(jobs := sh.jobs + [JobRecord(0, 0, 0, Pending)]), Returned(Refused(error)), false)
    case IdsExhausted =>
      Next(sh.(jobs := sh.jobs + [JobRecord(0, 0, 0, Pending)]), Returned(SubmitPanicked), false)
  }

  function BeginCancel(sh: Shared, id: nat, via: Via): Next {
    var (inner, disposition) := CancelPending(sh.inner, id);
    match disposition
    case Owned(job) =>
      Next(sh.(inner := inner), Cancelling([Claim(id, job)], CancelDone(id, CancelledNow, true)), false)
    case InProgress => Next(sh, Returned(CancelDone(id, CancelledNow, false)), false)
    case Absent => Next(sh, Unclaimed(id, via), false)
  }

  function BeginShutdownCall(sh: Shared): Next {
    var inner := BeginShutdown(sh.inner);
    Next(Leave(sh, inner, false).(signals := sh.signals + 1),
         Publishing(true, inner.IsTerminated(), Return(ShutdownDone)), false)
  }

  function BeginStop(sh: Shared): Next {
    var (inner, report, owned) := ServiceInner.Stop(sh.inner);
    Next(Leave(sh, inner, false).(signals := sh.signals + 1),
         Publishing(true, inner.IsTerminated(), Clean(owned, StopDone(report))), false)
  }

  function Take(sh: Shared): Next {
    var (inner, taken) := TakeNext(sh.inner);
    match taken
    case None =>
      Next(Leave(sh, inner, false), Publishing(false, inner.IsTerminated(), Return(WorkerDone)), false)
    case Some(c) =>
      Next(sh.(inner := inner, starts := sh.starts + [c.id]), Taken(c), false)
  }

  function EnterRun(sh: Shared, c: Claim<nat>): Next
    requires Genuine(sh, c)
  {
    var r := sh.jobs[c.job];
    Next(SetJob(sh, c.job, r.(runs := r.runs + 1, status := TaskStatus.Executing)), Working(c), false)
  }

  function LeaveRun(sh: Shared, c: Claim<nat>, status: TaskStatus): Next
    requires Genuine(sh, c)
  {
    Next(SetJob(sh, c.job, sh.jobs[c.job].(status := status)), Ran(c), false)
  }

  function Finish(sh: Shared, c: Claim<nat>): Next {
    var (inner, dispatch) := FinishRunning(sh.inner, c.id);
    Next(Leave(sh, inner, false).(signals := sh.signals + 1, completed := sh.completed + {c.id}),
         Publishing(true, inner.IsTerminated(), if dispatch then Respawn else Return(WorkerDone)), false)
  }

  function PublishCancellation(sh: Shared, owned: seq<Claim<nat>>, out: Outcome): Next
    requires owned != [] && Genuine(sh, owned[0])
  {
    var r := sh.jobs[owned[0].job];
    Next(SetJob(sh, owned[0].job, r.(cancels := r.cancels + 1, status := TaskStatus.Cancelled)),
         CleaningUp(owned, out), false)
  }

  function Release(sh: Shared, owned: seq<Claim<nat>>, out: Outcome): Next
    requires owned != []
  {
    var id := owned[0].id;
    var inner := FinishCancelling(sh.inner, id);
    Next(Leave(sh, inner, true).(signals := sh.signals + 1, cancelled := sh.cancelled + {id}),
         Publishing(true, inner.IsTerminated(), Clean(owned[1..], out)), false)
  }

  function WhenUnclaimed(sh: Shared, id: nat, via: Via): Next
    requires Known(sh, id)
  {
    match via
    case Handle =>
      Next(sh, Returned(CancelDone(id, CancellationResultForStatus(StatusOf(sh, id)), false)), false)
    case Endpoint =>
      Next(sh, if id in sh.inner.runningTasks then Returned(CancelDone(id, AlreadyRunning, false)) else Fallback(id),
           false)
  }

  function UseFallback(sh: Shared, id: nat): Next
    requires Known(sh, id)
  {
    var j := sh.admitted[id];
    var (status, result) := CancelSlot(sh.jobs[j].status);
    Next(SetJob(sh, j, sh.jobs[j].(status := status)), Returned(CancelDone(id, result, false)), false)
  }

  /**
   The next action of a thread at `a`. `completion` is the status a running
   job publishes; only `Working` looks at it.
   */
  function Advance(sh: Shared, a: Act, completion: TaskStatus): Next
    requires Fits(sh, a)
  {
    match a
    case Calling(Submit) => BeginSubmit(sh)
    case Calling(Cancel(id, via)) => BeginCancel(sh, id, via)
    case Calling(Shutdown) => BeginShutdownCall(sh)
    case Calling(Stop) => BeginStop(sh)
    case Calling(SubscribeTermination(wait)) => Next(sh, Subscribed(wait), false)
    case Dispatching(id, left) => Next(sh, AfterDispatch(id, left - 1), true)
    case Closure => Take(sh)
    case Taken(c) => EnterRun(sh, c)
    case Working(c) => LeaveRun(sh, c, completion)
    case Ran(c) => Finish(sh, c)
    case Publishing(capacity, terminated, k) =>
      Next(sh.(capacityVersion := sh.capacityVersion + Bit(capacity)), PublishingEnd(terminated, k), false)
    case PublishingEnd(terminated, k) =>
      Next(if terminated then PublishTermination(sh) else sh, Resume(k), false)
    case Respawning => Next(sh, Returned(WorkerDone), true)
    case Cancelling(owned, out) => PublishCancellation(sh, owned, out)
    case CleaningUp(owned, out) => Next(sh, Cleaned(owned, out), false)
    case Cleaned(owned, out) => Release(sh, owned, out)
    case Unclaimed(id, via) => WhenUnclaimed(sh, id, via)
    case Fallback(id) => UseFallback(sh, id)
    case Subscribed(wait) =>
      Next(sh, if sh.inner.IsTerminated() then Repairing(wait) else AfterSubscribe(wait, false), false)
    case Repairing(wait) => Next(PublishTermination(sh), AfterSubscribe(wait, true), false)
    case Awaiting => Next(sh, Returned(AwaitDone), false)
    case Returned(out) => Next(sh, a, false)
  }

  /** The thread still has an action: it has not returned and is not blocked on the termination value. */
  predicate CanAdvance(sh: Shared, a: Act) {
    !a.Returned? && (a.Awaiting? ==> sh.terminationValue)
  }

  // ----- The system -----

  datatype System = System(sh: Shared, acts: seq<Act>)

  datatype Step =
    | Start(call: Call)                    // some thread enters an API call
    | StartWait(timeout: Option<nat>)      // some thread enters a termination wait
    | Go(t: nat, completion: TaskStatus)   // thread `t` takes its next action
    | Check(w: nat)                        // waiter `w` holds the lock and tests the predicate
    | Wake(w: nat)                         // waiter `w` wakes spuriously or by timeout
    | Tick(elapsed: nat)                   // time passes

  predicate Enabled(s: System, step: Step) {
    match step
    case Start(Cancel(id, _)) => Known(s.sh, id)
    case Start(_) => true
    case StartWait(_) => true
    case Go(t, completion) =>
      && t < |s.acts|
      && Fits(s.sh, s.acts[t])
      && CanAdvance(s.sh, s.acts[t])
      && (s.acts[t].Working? ==> completion.Completion())
    case Check(w) => w < |s.sh.waiters| && s.sh.waiters[w].Checking?
    case Wake(w) => w < |s.sh.waiters| && s.sh.waiters[w].Parked?
    case Tick(_) => true
  }

  /** `parking_lot` waits: return when terminated, give up when a timed wait has expired, park otherwise. */
  function CheckWaiter(sh: Shared, w: Waiter): Waiter
    requires w.Checking?
  {
    if sh.inner.IsTerminated() then Done(w.deadline, true)
    else if w.deadline.Some? && sh.now >= w.deadline.value then Done(w.deadline, false)
    else Parked(w.deadline)
  }

  /** When a wait entered now gives up. */
  function DeadlineFor(sh: Shared, timeout: Option<nat>): Option<nat> {
    if timeout.Some? then Some(sh.now + timeout.value) else None
  }

  function Apply(s: System, step: Step): System
    requires Enabled(s, step)
  {
    match step
    case Start(call) => s.(acts := s.acts + [Calling(call)])
    case StartWait(timeout) =>
      s.(sh := s.sh.(waiters := s.sh.waiters + [Checking(DeadlineFor(s.sh, timeout))]))
    case Go(t, completion) =>
      var n := Advance(s.sh, s.acts[t], completion);
      System(n.sh, Spawn(s.acts[t := n.act], n.spawned))
    case Check(w) => s.(sh := s.sh.(waiters := s.sh.waiters[w := CheckWaiter(s.sh, s.sh.waiters[w])]))
    case Wake(w) => s.(sh := s.sh.(waiters := s.sh.waiters[w := Checking(s.sh.waiters[w].deadline)]))
    case Tick(elapsed) => s.(sh := s.sh.(now := s.sh.now + elapsed))
  }

  /** `spawn_fifo` puts one more closure in the pool; the pool may start closures in any order. */
  function Spawn(acts: seq<Act>, spawned: bool): seq<Act> {
    if spawned then acts + [Closure] else acts
  }

  function InitialSystem(taskCapacity: nat, numThreads: nat): System {
    System(InitialShared(taskCapacity, numThreads), [])
  }

  predicate ValidRun(s: System, steps: seq<Step>)
    decreases |steps|
  {
    steps == [] || (Enabled(s, steps[0]) && ValidRun(Apply(s, steps[0]), steps[1..]))
  }

  function Run(s: System, steps: seq<Step>): System
    requires ValidRun(s, steps)
    decreases |steps|
  {
    if steps == [] then s else Run(Apply(s, steps[0]), steps[1..])
  }

  /** Some run of a service built with this capacity and these workers reaches `s`. */
  ghost predicate ReachableWith(s: System, capacity: nat, threads: nat) {
    && 1 <= capacity <= MAX_USIZE && 1 <= threads
    && exists steps: seq<Step> ::
         ValidRun(InitialSystem(capacity, threads), steps) && Run(InitialSystem(capacity, threads), steps) == s
  }

  /** Some run of a service the builder accepts reaches `s`. */
  ghost predicate Reachable(s: System) {
    exists capacity: nat, threads: nat :: ReachableWith(s, capacity, threads)
  }
}
