/** What the service promises about tasks, in every reachable state and over every run. */
module Guarantees {
  import opened Basics
  import opened Counts
  import opened Invariant
  import opened Preservation
  import opened ServiceInner
  import opened Threads

  import Carriers
  import Evolution
  import LockedActions

  // ----- Reservations -----

  /**
   `scheduled` is exactly the number of promised, spawned, working and
   succeeding closures and never exceeds the worker count, and `running` is the
   number of workers that own a task. So no saturating subtraction ever
   saturates: a closure that finds the queue empty has a reservation to give
   back, and a worker that finishes has both a running slot and a reservation.
   */
  lemma ReservationsConserved(s: System, capacity: nat, threads: nat)
    requires ReachableWith(s, capacity, threads)
    ensures var load := Loads(s.acts);
            && s.sh.inner.scheduled == load.promised + load.pooled + load.working + load.succeeding
            && s.sh.inner.scheduled <= threads
            && s.sh.inner.running == |s.sh.inner.runningTasks| == load.working
    ensures forall t | 0 <= t < |s.acts| ::
              && (s.acts[t].Closure? ==> s.sh.inner.scheduled >= 1)
              && (s.acts[t].Ran? ==> s.sh.inner.running >= 1 && s.sh.inner.scheduled >= 1
                                     && s.acts[t].claim.id in s.sh.inner.runningTasks)
              && (s.acts[t].Cleaned? ==> s.acts[t].owned != [] && s.acts[t].owned[0].id in s.sh.inner.cancelling)
  {
    ConfiguredAs(s, capacity, threads);
    forall t | 0 <= t < |s.acts|
      ensures s.acts[t].Closure? ==> s.sh.inner.scheduled >= 1
      ensures s.acts[t].Ran? ==> s.sh.inner.running >= 1 && s.sh.inner.scheduled >= 1
                                 && s.acts[t].claim.id in s.sh.inner.runningTasks
      ensures s.acts[t].Cleaned? ==> s.acts[t].owned != [] && s.acts[t].owned[0].id in s.sh.inner.cancelling
    {
      NothingSaturates(s, t);
    }
  }

  lemma NothingSaturates(s: System, t: nat)
    requires Inv(s) && t < |s.acts|
    ensures s.acts[t].Closure? ==> s.sh.inner.scheduled >= 1
    ensures s.acts[t].Ran? ==> s.sh.inner.running >= 1 && s.sh.inner.scheduled >= 1
                               && s.acts[t].claim.id in s.sh.inner.runningTasks
    ensures s.acts[t].Cleaned? ==> s.acts[t].owned != [] && s.acts[t].owned[0].id in s.sh.inner.cancelling
  {
    HoldsAny(s, t);
    LoadsCover(s.acts, t);
  }

  /**
   Work conservation: while a reservation is free, every queued task has a
   closure of its own on the way to it; otherwise all workers are reserved. A
   queued task always leaves some thread that holds a reservation able to act.
   */
  lemma WorkConserved(s: System, capacity: nat, threads: nat)
    requires ReachableWith(s, capacity, threads)
    ensures s.sh.inner.scheduled >= threads || s.sh.inner.scheduled >= |s.sh.inner.queue| + s.sh.inner.running
    ensures var load := Loads(s.acts);
            s.sh.inner.scheduled < threads ==>
              load.promised + load.pooled + load.succeeding >= |s.sh.inner.queue|
    ensures s.sh.inner.queue != map[] ==>
            exists t :: 0 <= t < |s.acts| && Carriers.Reserves(s.acts[t]) && CanAdvance(s.sh, s.acts[t])
  {
    ConfiguredAs(s, capacity, threads);
    if s.sh.inner.queue != map[] {
      Carriers.SomeReservation(s);
      var t :| 0 <= t < |s.acts| && Carriers.Reserves(s.acts[t]);
      Carriers.CarrierAdvances(s.sh, s.acts[t]);
    }
  }

  // ----- Where tasks are -----

  /** Every admitted task is in exactly one of five places, and no other id is in any. */
  lemma TasksPartitioned(s: System, id: nat)
    requires Reachable(s)
    ensures Bit(id in s.sh.inner.queue) + Bit(id in s.sh.inner.runningTasks) + Bit(id in s.sh.inner.cancelling)
            + Bit(id in s.sh.completed) + Bit(id in s.sh.cancelled) == Bit(id < |s.sh.admitted|)
    ensures id in s.sh.inner.queue ==> s.sh.inner.queue[id] == s.sh.admitted[id]
  {
    ReachableInv(s);
    PlacesSplit(s.sh, id);
  }

  /** Accepted unfinished work never exceeds the configured capacity, so its sum never overflows. */
  lemma OccupancyBounded(s: System, capacity: nat, threads: nat)
    requires ReachableWith(s, capacity, threads)
    ensures |s.sh.inner.queue| + |s.sh.inner.runningTasks| + |s.sh.inner.cancelling| <= capacity <= MAX_USIZE
  {
    ConfiguredAs(s, capacity, threads);
  }

  /**
   A slot is taken only by an accepted submission and freed only when a worker
   finishes or a cancellation is released, one slot at a time. Claiming a
   cancellation, by `cancel` or by `stop`, frees none.
   */
  lemma SlotChanges(s: System, step: Step)
    requires Reachable(s) && Enabled(s, step)
    ensures var s' := Apply(s, step);
            s'.sh.inner.Occupied() - s.sh.inner.Occupied()
            == if step.Go? && (s.acts[step.t].Ran? || s.acts[step.t].Cleaned?) then -1
               else |s'.sh.admitted| - |s.sh.admitted|
  {
    ReachableInv(s);
    if step.Go? {
      var a := s.acts[step.t];
      assert ActOk(s.sh, a);
      HoldsAny(s, step.t);
      SlotChange(s.sh, a, step.completion);
    }
  }

  lemma SlotChange(sh: Shared, a: Act, completion: TaskStatus)
    requires sh.inner.Valid() && Fits(sh, a) && Holds(sh, a)
    ensures var n := Advance(sh, a, completion);
            n.sh.inner.Occupied() - sh.inner.Occupied()
            == if a.Ran? || a.Cleaned? then -1 else |n.sh.admitted| - |sh.admitted|
  {
    match a
    case Calling(Submit) => AdmitKeepsValid(sh.inner, |sh.jobs|);
    case Calling(Cancel(id, _)) => CancelPendingKeepsValid(sh.inner, id);
    case Calling(Shutdown) => BeginShutdownKeepsValid(sh.inner);
    case Calling(Stop) => StopKeepsValid(sh.inner);
    case Closure => TakeNextKeepsValid(sh.inner);
    case Ran(c) => FinishRunningKeepsValid(sh.inner, c.id);
    case Cleaned(owned, _) => FinishCancellingKeepsValid(sh.inner, owned[0].id);
    case _ =>
  }

  // ----- Jobs -----

  /**
   Exactly once: the job of an admitted task was accepted once; it is run or
   cancelled at most once altogether; while it is queued neither has happened;
   and once its task has left the record exactly one has, and its slot is
   terminal accordingly.
   */
  lemma JobsExactlyOnce(s: System, id: nat)
    requires Reachable(s) && id < |s.sh.admitted|
    ensures s.sh.admitted[id] < |s.sh.jobs|
    ensures var r := s.sh.jobs[s.sh.admitted[id]];
            && r.accepts == 1
            && r.runs + r.cancels <= 1
            && (id in s.sh.inner.queue ==> r.runs == 0 && r.cancels == 0 && r.status == Pending)
            && (id in s.sh.inner.runningTasks ==> r.cancels == 0)
            && (id in s.sh.inner.cancelling ==> r.runs == 0)
            && (id in s.sh.completed ==> r.runs == 1 && r.cancels == 0 && r.status.Completion())
            && (id in s.sh.cancelled ==> r.runs == 0 && r.cancels == 1 && r.status.Cancelled?)
            && (r.status.Terminal() ==> r.runs + r.cancels == 1)
  {
    ReachableInv(s);
    assert Known(s.sh, id);
    assert Ownership(s.sh, s.acts, id);
    assert JobOk(s.sh, s.acts, id);
    PlacesSplit(s.sh, id);
  }

  /** Distinct tasks carry distinct jobs, so no job is run on behalf of two tasks. */
  lemma JobsDistinct(s: System, a: nat, b: nat)
    requires Reachable(s) && a < b < |s.sh.admitted|
    ensures s.sh.admitted[a] != s.sh.admitted[b]
  {
    ReachableInv(s);
  }

  /** A submission that was refused leaves its job unaccepted, unrun and uncancelled for ever. */
  lemma RefusedNeverTouched(s: System, t: nat, steps: seq<Step>)
    requires Reachable(s) && Enabled(s, Go(t, Pending)) && s.acts[t] == Calling(Submit)
    requires ValidRun(Apply(s, Go(t, Pending)), steps)
    ensures var s1 := Apply(s, Go(t, Pending));
            var s2 := Run(s1, steps);
            s1.acts[t].Returned? && !s1.acts[t].out.Submitted? ==>
              |s.sh.jobs| < |s2.sh.jobs| && s2.sh.jobs[|s.sh.jobs|] == JobRecord(0, 0, 0, Pending)
  {
    ReachableInv(s);
    GoKeepsInv(s, t, Pending);
    RefusedUnaccepted(s, t);
    UnacceptedUntouched(Apply(s, Go(t, Pending)), steps, |s.sh.jobs|);
  }

  lemma RefusedUnaccepted(s: System, t: nat)
    requires Enabled(s, Go(t, Pending)) && s.acts[t] == Calling(Submit)
    ensures var s1 := Apply(s, Go(t, Pending));
            && |s1.sh.jobs| == |s.sh.jobs| + 1
            && (s1.acts[t].Returned? && !s1.acts[t].out.Submitted? ==> s1.sh.jobs[|s.sh.jobs|].accepts == 0)
  {
    var count := LockedActions.SubmitCases(s.sh, BeginSubmit(s.sh));
  }

  lemma UnacceptedUntouched(s: System, steps: seq<Step>, j: nat)
    requires Inv(s) && ValidRun(s, steps) && j < |s.sh.jobs|
    ensures var s' := Run(s, steps);
            j < |s'.sh.jobs| && (s.sh.jobs[j].accepts == 0 ==> s'.sh.jobs[j] == JobRecord(0, 0, 0, Pending))
  {
    RunKeepsInv(s, steps);
  }

  // ----- Start order -----

  /**
   FIFO: the ids handed to workers over a whole run strictly increase, and a
   task still queued is younger than every task that has started.
   */
  lemma StartsInOrder(s: System)
    requires Reachable(s)
    ensures forall a, b | 0 <= a < b < |s.sh.starts| :: s.sh.starts[a] < s.sh.starts[b]
    ensures forall k, id | 0 <= k < |s.sh.starts| && id in s.sh.inner.queue :: s.sh.starts[k] < id
    ensures forall id: nat :: id in s.sh.starts <==> id in s.sh.inner.runningTasks || id in s.sh.completed
  {
    ReachableInv(s);
    StartedExactly(s.sh.starts, s.sh.inner.runningTasks, s.sh.completed);
  }

  /** A duplicate-free list of the right length inside a set lists the whole set. */
  lemma StartedExactly(starts: seq<nat>, running: set<nat>, completed: set<nat>)
    requires forall a, b | 0 <= a < b < |starts| :: starts[a] < starts[b]
    requires forall k | 0 <= k < |starts| :: starts[k] in running || starts[k] in completed
    requires |starts| == |running| + |completed|
    ensures forall id: nat :: id in starts <==> id in running || id in completed
  {
    var all := set k | 0 <= k < |starts| :: starts[k];
    DistinctCount(starts);
    assert all <= running + completed;
    assert |running + completed| <= |running| + |completed|;
    SubsetEqual(all, running + completed);
  }

  lemma {:induction false} DistinctCount(xs: seq<nat>)
    requires forall a, b | 0 <= a < b < |xs| :: xs[a] < xs[b]
    ensures |set k | 0 <= k < |xs| :: xs[k]| == |xs|
    decreases |xs|
  {
    if xs != [] {
      var last := |xs| - 1;
      var init := xs[..last];
      DistinctCount(init);
      var small := set k | 0 <= k < |init| :: init[k];
      assert (set k | 0 <= k < |xs| :: xs[k]) == small + {xs[last]};
    }
  }

  lemma SubsetEqual(small: set<nat>, large: set<nat>)
    requires small <= large && |small| >= |large|
    ensures small == large
  {
    assert large == small + (large - small);
    assert |large| == |small| + |large - small|;
    assert large - small == {};
  }

  // ----- Lifecycle -----

  /** `before` may be observed first and `after` later. */
  predicate Forward(before: Lifecycle, after: Lifecycle) {
    match before
    case Running => true
    case ShuttingDown => after != Running
    case Stopping => after == Stopping || after == Terminated
    case Terminated => after == Terminated
  }

  /**
   The lifecycle a caller observes only moves forward over any run, and once
   `Terminated` is observed it is observed for ever.
   */
  lemma LifecycleMonotone(s: System, steps: seq<Step>)
    requires Reachable(s) && ValidRun(s, steps)
    ensures Forward(s.sh.inner.Reported(), Run(s, steps).sh.inner.Reported())
  {
    ReachableInv(s);
    RunKeepsInv(s, steps);
    ReportedMovesOn(s.sh, Run(s, steps).sh);
  }

  lemma ReportedMovesOn(a: Shared, b: Shared)
    requires Evolution.ServiceMovesOn(a, b) && a.inner.lifecycle != Terminated && b.inner.lifecycle != Terminated
    ensures Forward(a.inner.Reported(), b.inner.Reported())
  {
  }

  /** Once `stop` has begun no task ever starts, and the queue stays empty. */
  lemma StopIsFinal(s: System, steps: seq<Step>)
    requires Reachable(s) && s.sh.inner.lifecycle == Stopping && ValidRun(s, steps)
    ensures var s' := Run(s, steps);
            s'.sh.starts == s.sh.starts && s'.sh.inner.queue == map[] && s'.sh.admitted == s.sh.admitted
  {
    ReachableInv(s);
    RunKeepsInv(s, steps);
    NoAdmission(s, steps);
  }

  lemma {:induction false} NoAdmission(s: System, steps: seq<Step>)
    requires Inv(s) && s.sh.inner.lifecycle != Running && ValidRun(s, steps)
    ensures Run(s, steps).sh.admitted == s.sh.admitted
    decreases |steps|
  {
    if steps != [] {
      StepKeepsInv(s, steps[0]);
      NoAdmissionStep(s, steps[0]);
      NoAdmission(Apply(s, steps[0]), steps[1..]);
    }
  }

  lemma NoAdmissionStep(s: System, step: Step)
    requires s.sh.inner.lifecycle != Running && Enabled(s, step)
    ensures Apply(s, step).sh.admitted == s.sh.admitted
  {
  }

  /**
   Accounting: across any number of concurrent stops and cancels, the tasks
   their reports and owning results answer for are exactly the tasks ever
   claimed for cancellation, each counted once.
   */
  lemma ClaimsAccounted(s: System)
    requires Reachable(s)
    ensures Loads(s.acts).claimed == |s.sh.inner.cancelling| + |s.sh.cancelled|
    ensures s.sh.inner.cancelling !! s.sh.cancelled
  {
    ReachableInv(s);
    forall id | id in s.sh.inner.cancelling ensures id !in s.sh.cancelled { PlacesSplit(s.sh, id); }
  }

  // ----- Cancellation results -----

  /** A cancellation that reported `Cancelled` is true for ever: the job is never run. */
  lemma CancelledNeverRuns(s: System, t: nat, steps: seq<Step>)
    requires Reachable(s) && t < |s.acts| && ValidRun(s, steps)
    requires s.acts[t].Returned? && s.acts[t].out.CancelDone? && s.acts[t].out.result == CancelledNow
    ensures var s' := Run(s, steps);
            var id := s.acts[t].out.taskId;
            && Known(s'.sh, id) && s'.sh.jobs[s'.sh.admitted[id]].runs == 0
            && id !in s'.sh.inner.runningTasks && id !in s'.sh.completed && id !in s'.sh.inner.queue
  {
    ReachableInv(s);
    OutcomeStays(s, t, steps);
    ClaimedTask(Run(s, steps), s.acts[t].out.taskId);
  }

  /** What a returned call reported stays true over any run. */
  lemma OutcomeStays(s: System, t: nat, steps: seq<Step>)
    requires Inv(s) && t < |s.acts| && s.acts[t].Returned? && ValidRun(s, steps)
    ensures Inv(Run(s, steps))
    ensures OutcomeOk(s.sh, s.acts[t].out) && OutcomeOk(Run(s, steps).sh, s.acts[t].out)
  {
    OutcomeTrue(s, t);
    RunKeepsInv(s, steps);
    Evolution.StillOutcome(s.sh, Run(s, steps).sh, s.acts[t].out);
  }

  lemma OutcomeTrue(s: System, t: nat)
    requires Inv(s) && t < |s.acts| && s.acts[t].Returned?
    ensures OutcomeOk(s.sh, s.acts[t].out)
  {
    assert ActOk(s.sh, s.acts[t]);
  }

  lemma ClaimedTask(s: System, id: nat)
    requires Inv(s) && (id in s.sh.inner.cancelling || id in s.sh.cancelled)
    ensures Known(s.sh, id) && s.sh.jobs[s.sh.admitted[id]].runs == 0
    ensures id !in s.sh.inner.runningTasks && id !in s.sh.completed && id !in s.sh.inner.queue
  {
    PlacesSplit(s.sh, id);
    assert Known(s.sh, id);
    assert Ownership(s.sh, s.acts, id);
    assert JobOk(s.sh, s.acts, id);
  }

  lemma StartedTask(s: System, id: nat)
    requires Inv(s) && (id in s.sh.inner.runningTasks || id in s.sh.completed)
    ensures Known(s.sh, id) && s.sh.jobs[s.sh.admitted[id]].cancels == 0
  {
    PlacesSplit(s.sh, id);
    assert Known(s.sh, id);
    assert Ownership(s.sh, s.acts, id);
    assert JobOk(s.sh, s.acts, id);
  }

  /** `AlreadyRunning` means a worker had claimed the task: it has started and is never cancelled. */
  lemma AlreadyRunningStarted(s: System, t: nat, steps: seq<Step>)
    requires Reachable(s) && t < |s.acts| && ValidRun(s, steps)
    requires s.acts[t].Returned? && s.acts[t].out.CancelDone? && s.acts[t].out.result == AlreadyRunning
    ensures s.acts[t].out.taskId in s.sh.starts
    ensures var s' := Run(s, steps);
            var id := s.acts[t].out.taskId;
            Known(s'.sh, id) && s'.sh.jobs[s'.sh.admitted[id]].cancels == 0
  {
    ReachableInv(s);
    OutcomeStays(s, t, steps);
    StartsInOrder(s);
    StartedTask(Run(s, steps), s.acts[t].out.taskId);
  }

  /** `AlreadyFinished` means a terminal status exists, and it is final. */
  lemma AlreadyFinishedTerminal(s: System, t: nat, steps: seq<Step>)
    requires Reachable(s) && t < |s.acts| && ValidRun(s, steps)
    requires s.acts[t].Returned? && s.acts[t].out.CancelDone? && s.acts[t].out.result == AlreadyFinished
    ensures var s' := Run(s, steps);
            var id := s.acts[t].out.taskId;
            && Known(s.sh, id) && StatusOf(s.sh, id).Terminal()
            && Known(s'.sh, id) && StatusOf(s'.sh, id) == StatusOf(s.sh, id)
  {
    ReachableInv(s);
    OutcomeStays(s, t, steps);
    RunKeepsInv(s, steps);
    StatusFinal(s.sh, Run(s, steps).sh, s.acts[t].out.taskId);
  }

  /** The completion a job's `run` ends with becomes its task's status, and stays it. */
  lemma ResultPublished(s: System, t: nat, completion: TaskStatus, steps: seq<Step>)
    requires Reachable(s) && Enabled(s, Go(t, completion)) && s.acts[t].Working?
    requires ValidRun(Apply(s, Go(t, completion)), steps)
    ensures var s' := Run(Apply(s, Go(t, completion)), steps);
            var id := s.acts[t].claim.id;
            Known(s'.sh, id) && StatusOf(s'.sh, id) == completion
  {
    InvAfter(s, Go(t, completion));
    ResultSet(s.sh, s.acts[t].claim, completion);
    StatusKept(Apply(s, Go(t, completion)), s.acts[t].claim.id, steps);
  }

  lemma ResultSet(sh: Shared, c: Claim<nat>, completion: TaskStatus)
    requires Genuine(sh, c)
    ensures var sh' := Advance(sh, Working(c), completion).sh;
            Known(sh', c.id) && StatusOf(sh', c.id) == completion
  {
  }

  lemma StatusKept(s: System, id: nat, steps: seq<Step>)
    requires Inv(s) && ValidRun(s, steps) && Known(s.sh, id) && StatusOf(s.sh, id).Terminal()
    ensures var s' := Run(s, steps); Known(s'.sh, id) && StatusOf(s'.sh, id) == StatusOf(s.sh, id)
  {
    RunKeepsInv(s, steps);
    StatusFinal(s.sh, Run(s, steps).sh, id);
  }

  lemma StatusFinal(a: Shared, b: Shared, id: nat)
    requires Evolution.JobsMoveOn(a, b) && Known(a, id) && StatusOf(a, id).Terminal()
    ensures Known(b, id) && StatusOf(b, id) == StatusOf(a, id)
  {
    Evolution.StillKnown(a, b, id);
  }

  /**
   The endpoint's direct `task.cancel()` is reached only for a task whose slot
   is terminal, so it never cancels anything and reports `AlreadyFinished`.
   */
  lemma FallbackOnlyWhenFinished(s: System, t: nat)
    requires Reachable(s) && t < |s.acts| && s.acts[t].Fallback?
    ensures var id := s.acts[t].taskId;
            && Known(s.sh, id) && StatusOf(s.sh, id).Terminal()
            && Enabled(s, Go(t, Pending))
            && Apply(s, Go(t, Pending)).sh == s.sh
            && Apply(s, Go(t, Pending)).acts[t] == Returned(CancelDone(id, AlreadyFinished, false))
  {
    ReachableInv(s);
    var id := s.acts[t].taskId;
    assert ActOk(s.sh, s.acts[t]);
    assert JobOk(s.sh, s.acts, id);
    assert s.sh.jobs[s.sh.admitted[id] := s.sh.jobs[s.sh.admitted[id]]] == s.sh.jobs;
  }
}
