/**
 The operations of the service and of its workers, each run without
 interference: submission and dispatch, a worker closure, the cleanup loop of
 `stop`, and the cancellation path of a handle. `Threads` interleaves them.
 */
module Service {
  import opened Basics
  import opened CallableJobs
  import opened ServiceInner

  import ServiceState

  class RayonExecutorService {
    const state: ServiceState.RayonExecutorServiceState
    // Closures spawned into the pool and not started.
    var pooled: nat

    constructor (taskCapacity: nat, numThreads: nat)
      requires 1 <= taskCapacity <= MAX_USIZE && 1 <= numThreads
      ensures Valid() && state.View() == Initial(taskCapacity, numThreads) && pooled == 0
      ensures fresh(state)
    {
      state := new ServiceState.RayonExecutorServiceState(taskCapacity, numThreads);
      pooled := 0;
    }

    /**
     Each queued job is accepted as the task it is queued under (so they are
     distinct objects) and neither run nor cancelled,
     and no queued task is also being cancelled. What the record itself keeps is
     stated of its value, `state.View()`, in `ServiceInner`.
     */
    ghost predicate Valid()
      reads this, state, state.queue.Values
    {
      && state.Tracks()
      && (forall id | id in state.queue ::
            state.queue[id].Waiting(id) && id !in state.cancelling && id < state.nextTaskId)
      && (forall id | id in state.cancelling :: id < state.nextTaskId)
    }

    /** Spawns exactly `count` closures. */
    method Dispatch(count: nat)
      modifies this`pooled
      ensures pooled == old(pooled) + count
    {
      for i := 0 to count
        invariant pooled == old(pooled) + i
      {
        pooled := pooled + 1;
      }
    }

    /** `submit_callable_with` and `submit_tracked_callable`, with the job already built. */
    method Submit(job: CallableJob) returns (r: Admission)
      requires Valid() && job.Fresh()
      modifies this`pooled, state, job
      ensures Valid()
      ensures (state.View(), r) == Admit(old(state.View()), job)
      ensures r.Admitted? ==> job.Waiting(r.taskId) && pooled == old(pooled) + r.dispatchCount
      ensures !r.Admitted? ==> job.Fresh() && pooled == old(pooled)
    {
      r := state.Admit(job);
      if r.Admitted? {
        Dispatch(r.dispatchCount);
      }
    }

    /**
     One worker closure: takes the oldest task, runs its job once whatever the
     job does, finishes it, and respawns exactly when work is left. It signals
     capacity once if it had a task and never otherwise, and announces termination
     if it leaves the service terminated. Only a job whose callable and destructor
     both panic is not survived: it aborts the process.
     */
    method RunOne(behaviour: CallBehaviour, dropPanics: bool) returns (aborted: bool)
      requires Valid() && pooled >= 1
      modifies this`pooled, state, state.queue.Values
      ensures aborted <==> old(state.queue) != map[] && behaviour.Panics? && dropPanics
      ensures old(state.queue) == map[] ==>
                && pooled == old(pooled) - 1
                && state.View() == old(state.View()).(scheduled := SaturatingSub(old(state.scheduled), 1))
      ensures !aborted && old(state.queue) != map[] ==>
                var id := MinOf(old(state.queue).Keys);
                var more := |old(state.queue)| >= 2;
                && pooled == (if more then old(pooled) else old(pooled) - 1)
                && state.View() == old(state.View()).(
                     queue := old(state.queue) - {id}, runningTasks := old(state.runningTasks) - {id},
                     scheduled := if more then old(state.scheduled) else SaturatingSub(old(state.scheduled), 1))
                && old(state.queue)[id].RanWith(id, behaviour, dropPanics)
                && (forall k | k in old(state.queue) && k != id :: old(state.queue)[k].Waiting(k))
      ensures !aborted ==>
                && Valid()
                && state.capacitySignals == old(state.capacitySignals) + Bit(old(state.queue) != map[])
                && state.terminationValue == (old(state.terminationValue) || state.View().IsTerminated())
    {
      pooled := pooled - 1;
      RanRecord(state.View());
      var taken := TakeTask();
      if taken == None {
        return false;
      }
      aborted := RunClaimed(taken.value, behaviour, dropPanics);
    }

    /** Runs a claimed job, containing what leaves it, finishes its task, and respawns if work is left. */
    method RunClaimed(c: Claim<CallableJob>, behaviour: CallBehaviour, dropPanics: bool)
      returns (aborted: bool)
      requires Valid() && c.job.Waiting(c.id) && c.id !in state.queue
      modifies this`pooled, state, c.job
      ensures aborted <==> behaviour.Panics? && dropPanics
      ensures !aborted ==>
                && Valid() && c.job.RanWith(c.id, behaviour, dropPanics)
                && (state.View(), pooled == old(pooled) + 1) == FinishRunning(old(state.View()), c.id)
                && (pooled == old(pooled) || pooled == old(pooled) + 1)
                && state.capacitySignals == old(state.capacitySignals) + 1
                && state.terminationValue == (old(state.terminationValue) || state.View().IsTerminated())
    {
      var flow := c.job.Run(behaviour, dropPanics, c.id);
      aborted := CatchUnwind(flow) == Abort;
      if !aborted {
        var dispatch := FinishTask(c.id);
        if dispatch {
          pooled := pooled + 1;
        }
      }
    }

    method TakeTask() returns (r: Option<Claim<CallableJob>>)
      requires Valid()
      modifies state
      ensures Valid()
      ensures (state.View(), r) == TakeNext(old(state.View()))
      ensures r.Some? ==> r.value.job.Waiting(r.value.id) && r.value.id !in state.queue
      ensures r.Some? ==> state.terminationValue == old(state.terminationValue)
      ensures r == None ==> state.terminationValue == (old(state.terminationValue) || state.View().IsTerminated())
      ensures state.capacitySignals == old(state.capacitySignals)
    {
      r := state.TakeNext();
    }

    method FinishTask(taskId: nat) returns (dispatch: bool)
      requires Valid()
      modifies state
      ensures Valid()
      ensures (state.View(), dispatch) == FinishRunning(old(state.View()), taskId)
      ensures state.terminationValue == (old(state.terminationValue) || state.View().IsTerminated())
      ensures state.capacitySignals == old(state.capacitySignals) + 1
    {
      dispatch := state.FinishRunning(taskId);
    }

    /** Cancels one claimed job outside the lock, containing a panic of its destructor, and releases its id. */
    method CleanUpOne(c: Claim<CallableJob>, dropPanics: bool)
      requires Valid() && c.job.Waiting(c.id) && c.id !in state.queue
      modifies state, c.job
      ensures Valid()
      ensures state.View() == FinishCancelling(old(state.View()), c.id)
      ensures c.job.Discarded(c.id) && c.job.CancelledAs(c.id)
      ensures state.capacitySignals == old(state.capacitySignals) + 1
    {
      var flow := c.job.Cancel(dropPanics, c.id);
      // A caught panic is discarded; only an abort would stop here.
      if CatchUnwind(flow) != Abort {
        state.FinishCancelling(c.id);
      }
    }

    /**
     The cleanup loop of `stop`: whichever cleanups panic, each claimed job is
     cancelled exactly once, each claimed id is released exactly once, and no
     other id leaves `cancelling`.
     */
    method CleanUp(owned: seq<Claim<CallableJob>>, dropPanics: nat -> bool)
      requires Valid()
      requires forall i | 0 <= i < |owned| :: owned[i].job.Waiting(owned[i].id) && owned[i].id !in state.queue
      requires forall i, j | 0 <= i < j < |owned| :: owned[i].id < owned[j].id
      modifies state, set i | 0 <= i < |owned| :: owned[i].job
      ensures state.View() == old(state.View()).(cancelling := old(state.cancelling) - Ids(owned))
      ensures forall i | 0 <= i < |owned| :: owned[i].job.CancelledAs(owned[i].id)
      ensures Valid() && state.capacitySignals == old(state.capacitySignals) + |owned|
    {
      ghost var before := state.View();
      for i := 0 to |owned|
        invariant state.View() == before.(cancelling := before.cancelling - FirstIds(owned, i))
        invariant forall j | 0 <= j < i :: owned[j].job.Discarded(owned[j].id)
        invariant forall j | i <= j < |owned| :: owned[j].job.Waiting(owned[j].id)
        invariant Valid() && state.capacitySignals == old(state.capacitySignals) + i
      {
        CleanUpNext(owned, i, dropPanics(i), before);
      }
      forall i | 0 <= i < |owned| ensures owned[i].job.CancelledAs(owned[i].id) {
        CancelLogHolds(owned[i].id);
      }
    }

    /** One turn of that loop. */
    method CleanUpNext(owned: seq<Claim<CallableJob>>, i: nat, dropPanics: bool, ghost before: Inner<CallableJob>)
      requires Valid() && i < |owned| && owned[i].job.Waiting(owned[i].id) && owned[i].id !in state.queue
      requires state.View() == before.(cancelling := before.cancelling - FirstIds(owned, i))
      modifies state, owned[i].job
      ensures Valid() && state.capacitySignals == old(state.capacitySignals) + 1
      ensures state.View() == before.(cancelling := before.cancelling - FirstIds(owned, i + 1))
      ensures owned[i].job.Discarded(owned[i].id)
    {
      CleanUpOne(owned[i], dropPanics);
      FirstIdsNext(owned, i);
    }

    /**
     `stop`: reports what was queued and running, cancels every job that was
     queued, exactly once, and leaves the record as `stop` found it except that
     admission has ended and the queue is empty. It signals capacity once for
     itself and once for each task.
     */
    method Stop(dropPanics: nat -> bool) returns (report: StopReport)
      requires Valid()
      modifies state, state.queue.Values
      ensures Valid()
      ensures state.View() == old(state.View()).(lifecycle := Stopping, queue := map[])
      ensures report == StopReport(|old(state.queue)|, old(state.running), |old(state.queue)|)
      ensures forall id | id in old(state.queue) ::
                old(state.queue)[id].CancelledAs(id)
      ensures state.capacitySignals == old(state.capacitySignals) + 1 + |old(state.queue)|
    {
      StoppedRecord(state.View());
      OwedJobs(state.queue);
      var owned;
      report, owned := ClaimQueue();
      CleanUp(owned, dropPanics);
    }

    method ClaimQueue() returns (report: StopReport, owned: seq<Claim<CallableJob>>)
      requires Valid()
      modifies state
      ensures Valid() && state.capacitySignals == old(state.capacitySignals) + 1
      ensures (state.View(), report, owned) == ServiceInner.Stop(old(state.View()))
      ensures forall i | 0 <= i < |owned| :: owned[i].job.Waiting(owned[i].id)
    {
      ghost var queue := state.queue;
      report, owned := state.Stop();
      forall i | 0 <= i < |owned| ensures owned[i].job.Waiting(owned[i].id) {
        assert queue[owned[i].id].Waiting(owned[i].id);
      }
    }

    /**
     `cancel_task` for the task accepted with `slot`: a queued task is claimed,
     its job cancelled once and its id released; a task being cancelled is reported
     as such; otherwise the endpoint's own fallback decides. A claimed task leaves
     the queue and nothing else changes in the record.
     */
    method CancelTask(taskId: nat, slot: CallableJob, via: Via, dropPanics: bool) returns (r: CancelResult)
      requires Valid() && slot.log != [] && slot.log[0] == Accepted(taskId)
      requires taskId in state.queue ==> state.queue[taskId] == slot
      modifies state, state.queue.Values, slot
      ensures Valid()
      ensures state.View() == old(state.View()).(queue := old(state.queue) - {taskId})
      ensures taskId in old(state.queue) ==> slot.CancelledAs(taskId)
      ensures forall id | id in old(state.queue) && id != taskId :: old(state.queue)[id].Waiting(id)
      ensures old(taskId in state.queue || taskId in state.cancelling) ==> r == CancelledNow
      ensures old(taskId !in state.queue && taskId !in state.cancelling) ==>
                Answers(via, old(taskId in state.runningTasks), old(slot.status), slot.status, r)
      ensures taskId !in old(state.queue) && taskId in old(state.cancelling) ==> slot.status == old(slot.status)
      ensures state.capacitySignals == old(state.capacitySignals) + Bit(old(taskId in state.queue))
    {
      CancelledRecord(state.View(), taskId);
      var disposition := ClaimTask(taskId);
      match disposition
      case Owned(job) =>
        CleanUpOne(Claim(taskId, job), dropPanics);
        r := CancelledNow;
      case InProgress => r := CancelledNow;
      case Absent => r := WhenAbsent(taskId, slot, via);
    }

    /** The fallback of the two endpoints. */
    method WhenAbsent(taskId: nat, slot: CallableJob, via: Via) returns (r: CancelResult)
      requires Valid() && taskId !in state.queue && slot.log != [] && slot.log[0] == Accepted(taskId)
      modifies slot
      ensures Valid()
      ensures Answers(via, taskId in state.runningTasks, old(slot.status), slot.status, r)
      ensures forall id | id in state.queue :: state.queue[id].Waiting(id)
    {
      match via
      case Handle => r := CancellationResultForStatus(slot.status);
      case Endpoint =>
        var running := state.IsRunningTask(taskId);
        if running {
          r := AlreadyRunning;
        } else {
          r := slot.TryCancel();
        }
    }

    method ClaimTask(taskId: nat) returns (r: CancelDisposition<CallableJob>)
      requires Valid()
      modifies state
      ensures Valid() && state.capacitySignals == old(state.capacitySignals)
      ensures (state.View(), r) == CancelPending(old(state.View()), taskId)
      ensures r.Owned? ==> r.job.Waiting(taskId)
    {
      ghost var queue := state.queue;
      r := state.CancelPendingTask(taskId);
      forall id | id in state.queue
        ensures state.queue[id].Waiting(id) && id !in state.cancelling && id < state.nextTaskId
      {
        assert id in queue && state.queue[id] == queue[id];
      }
    }
  }

  /**
   What an endpoint must answer for a task that is neither queued nor being
   cancelled. Only an endpoint that finds the task neither running nor started
   changes the slot, and then it has cancelled it.
   */
  predicate Answers(via: Via, running: bool, before: TaskStatus, after: TaskStatus, r: CancelResult) {
    && (via == Handle ==>
          && (r == AlreadyFinished <==> before.Terminal())
          && (r == AlreadyRunning <==> !before.Terminal()))
    && (via == Endpoint && running ==> r == AlreadyRunning)
    && (via == Endpoint && !running ==>
          && (r == AlreadyFinished <==> before.Terminal())
          && (r == AlreadyRunning <==> before == Executing)
          && (r == CancelledNow <==> before == Pending))
    && after == if r == CancelledNow then TaskStatus.Cancelled else before
  }

  /** Taking the oldest task and finishing it: a successor is due exactly if another task was queued. */
  lemma RanRecord(s: Inner<CallableJob>)
    ensures s.queue != map[] ==>
              var id := MinOf(s.queue.Keys);
              var more := |s.queue| >= 2;
              && TakeNext(s).1 == Some(Claim(id, s.queue[id]))
              && FinishRunning(TakeNext(s).0, id)
                 == (s.(queue := s.queue - {id}, runningTasks := s.runningTasks - {id},
                        scheduled := if more then s.scheduled else SaturatingSub(s.scheduled, 1)),
                     more)
  {
    if s.queue != map[] {
      var id := MinOf(s.queue.Keys);
      RemoveKey(s.queue, id);
      assert s.runningTasks + {id} - {id} == s.runningTasks - {id};
    }
  }

  /** The ids of the first `n` claims. */
  ghost function FirstIds(owned: seq<Claim<CallableJob>>, n: nat): set<nat>
    requires n <= |owned|
  {
    set i | 0 <= i < n :: owned[i].id
  }

  lemma FirstIdsNext(owned: seq<Claim<CallableJob>>, n: nat)
    requires n < |owned|
    ensures FirstIds(owned, n + 1) == FirstIds(owned, n) + {owned[n].id}
  {
  }

  /** Claiming and then releasing a task removes it from the queue and changes nothing else. */
  lemma CancelledRecord(s: Inner<CallableJob>, id: nat)
    requires id in s.queue ==> id !in s.cancelling
    ensures id in s.queue ==> FinishCancelling(CancelPending(s, id).0, id) == s.(queue := s.queue - {id})
    ensures id !in s.queue ==> s.queue - {id} == s.queue
  {
    assert id !in s.cancelling ==> s.cancelling + {id} - {id} == s.cancelling;
  }

  /** Stopping and then releasing what was claimed leaves only the queue emptied and admission ended. */
  lemma StoppedRecord(s: Inner<CallableJob>)
    requires s.queue.Keys !! s.cancelling
    ensures var (after, report, owned) := ServiceInner.Stop(s);
            && after.(cancelling := after.cancelling - Ids(owned)) == s.(lifecycle := Stopping, queue := map[])
            && report == StopReport(|s.queue|, s.running, |s.queue|)
            && owned == InOrder(s.queue)
  {
    IdsInOrder(s.queue);
    assert (s.cancelling + s.queue.Keys) - s.queue.Keys == s.cancelling;
  }

  /** The claims taken by `stop` carry exactly the queued jobs, each once. */
  lemma OwedJobs(queue: map<nat, CallableJob>)
    ensures var owned := InOrder(queue);
            && (forall i | 0 <= i < |owned| :: owned[i].job in queue.Values)
            && (forall id | id in queue :: exists i :: 0 <= i < |owned| && owned[i] == Claim(id, queue[id]))
  {
    var owned := InOrder(queue);
    forall id | id in queue ensures exists i :: 0 <= i < |owned| && owned[i] == Claim(id, queue[id]) {
      CountInOrder(queue, id);
      CountWitness(owned, id);
    }
  }
}
