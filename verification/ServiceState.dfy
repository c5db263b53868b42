/**
 The scheduling state as the object the service shares: each method is one
 method of the source, ending with the publications it makes after unlocking.
 */
module ServiceState {
  import opened Basics
  import opened CallableJobs
  import opened ServiceInner

  const GENERATIONS: nat := 0x1_0000_0000_0000_0000

  /** The first key of an ordered map. */
  method FirstKey<J>(q: map<nat, J>) returns (k: nat)
    requires q != map[]
    ensures k == MinOf(q.Keys)
  {
    MinExists(q.Keys);
    k :| k in q.Keys && forall x | x in q.Keys :: k <= x;
  }

  /** The generation after the next publication. */
  lemma NextGeneration(signals: nat)
    ensures (signals + 1) % GENERATIONS
            == if signals % GENERATIONS == GENERATIONS - 1 then 0 else signals % GENERATIONS + 1
  {
  }

  // Validity of the record, as an implication each method uses at its entry.

  lemma AdmitValid<J>(s: Inner<J>, job: J)
    ensures s.Valid() ==> ServiceInner.Admit(s, job).0.Valid()
  {
    if s.Valid() { AdmitKeepsValid(s, job); }
  }

  lemma TakeNextValid<J>(s: Inner<J>)
    ensures s.Valid() && s.scheduled > s.running ==> ServiceInner.TakeNext(s).0.Valid()
  {
    if s.Valid() && s.scheduled > s.running { TakeNextKeepsValid(s); }
  }

  lemma FinishRunningValid<J>(s: Inner<J>, id: nat)
    ensures s.Valid() && id in s.runningTasks ==> ServiceInner.FinishRunning(s, id).0.Valid()
  {
    if s.Valid() && id in s.runningTasks { FinishRunningKeepsValid(s, id); }
  }

  lemma CancelPendingValid<J>(s: Inner<J>, id: nat)
    ensures s.Valid() ==> CancelPending(s, id).0.Valid()
  {
    if s.Valid() { CancelPendingKeepsValid(s, id); }
  }

  lemma FinishCancellingValid<J>(s: Inner<J>, id: nat)
    ensures s.Valid() ==> ServiceInner.FinishCancelling(s, id).Valid()
  {
    if s.Valid() { FinishCancellingKeepsValid(s, id); }
  }

  lemma BeginShutdownValid<J>(s: Inner<J>)
    ensures s.Valid() ==> BeginShutdown(s).Valid()
  {
    if s.Valid() { BeginShutdownKeepsValid(s); }
  }

  lemma StopValid<J>(s: Inner<J>)
    ensures s.Valid() ==> ServiceInner.Stop(s).0.Valid()
  {
    if s.Valid() { StopKeepsValid(s); }
  }

  class RayonExecutorServiceState {
    var lifecycle: Lifecycle
    var taskCapacity: nat
    var numThreads: nat
    var nextTaskId: nat
    var running: nat
    var runningTasks: set<nat>
    var scheduled: nat
    var queue: map<nat, CallableJob>
    var cancelling: set<nat>
    // Threads parked on the condition variable.
    var parked: set<nat>
    // Values of the two watch channels; the capacity generation is a `u64` that wraps.
    var terminationValue: bool
    var capacityGeneration: nat
    // Capacity publications ever made.
    ghost var capacitySignals: nat

    ghost function View(): Inner<CallableJob>
      reads this
    {
      Inner(lifecycle, taskCapacity, numThreads, nextTaskId, running, runningTasks, scheduled, queue, cancelling)
    }

    /** The generation receivers read is the publication count, wrapped to 64 bits. */
    ghost predicate Tracks()
      reads this
    {
      capacityGeneration == capacitySignals % GENERATIONS
    }

    /** The publications a method made: `signals` capacity changes, and termination when it found it. */
    twostate predicate Published(signals: nat)
      reads this
    {
      && Tracks()
      && capacitySignals == old(capacitySignals) + signals
      && terminationValue == (old(terminationValue) || View().IsTerminated())
    }

    constructor (taskCapacity: nat, numThreads: nat)
      ensures lifecycle == Running && this.taskCapacity == taskCapacity && this.numThreads == numThreads
      ensures nextTaskId == 0 && running == 0 && runningTasks == {} && scheduled == 0
      ensures queue == map[] && cancelling == {}
      ensures View() == Initial(taskCapacity, numThreads)
      ensures parked == {} && !terminationValue && capacitySignals == 0 && Tracks()
    {
      lifecycle := Running;
      this.taskCapacity, this.numThreads := taskCapacity, numThreads;
      nextTaskId, running, runningTasks, scheduled := 0, 0, {}, 0;
      queue, cancelling := map[], {};
      parked, terminationValue, capacityGeneration := {}, false, 0;
      capacitySignals := 0;
    }

    function Occupied(): nat
      reads this
    {
      |queue| + running + |cancelling|
    }

    /** The lifecycle a caller observes: `Terminated` once admission has ended and no accepted task is left. */
    method ObservedLifecycle() returns (r: Lifecycle)
      requires lifecycle != Terminated
      ensures r == View().Reported()
      ensures r == Terminated <==> lifecycle != Running && queue == map[] && running == 0 && cancelling == {}
      ensures r != Terminated ==> r == lifecycle
    {
      r := if lifecycle != Running && Occupied() == 0 then Terminated else lifecycle;
    }

    method NotifyIfTerminatedLocked() returns (terminated: bool)
      modifies this`parked
      ensures terminated == View().IsTerminated()
      ensures parked == if terminated then {} else old(parked)
      ensures View() == old(View())
    {
      terminated := lifecycle != Running && Occupied() == 0;
      if terminated {
        parked := {};
      }
    }

    method NotifyAsyncChanges(capacityChanged: bool, terminated: bool)
      requires Tracks()
      modifies this`capacityGeneration, this`capacitySignals, this`terminationValue
      ensures Tracks() && capacitySignals == old(capacitySignals) + Bit(capacityChanged)
      ensures terminationValue == (old(terminationValue) || terminated)
      ensures View() == old(View())
    {
      if capacityChanged {
        NextGeneration(capacitySignals);
        capacityGeneration := if capacityGeneration == GENERATIONS - 1 then 0 else capacityGeneration + 1;
        capacitySignals := capacitySignals + 1;
      }
      if terminated && !terminationValue {
        terminationValue := true;
      }
    }

    /** How a signalling section ends: wakes waiters if terminated, unlocks, and publishes. */
    method Announce()
      requires Tracks()
      modifies this`parked, this`capacityGeneration, this`capacitySignals, this`terminationValue
      ensures View() == old(View())
      ensures Published(1) && (parked == if View().IsTerminated() then {} else old(parked))
    {
      var terminated := NotifyIfTerminatedLocked();
      NotifyAsyncChanges(true, terminated);
    }

    method Admit(job: CallableJob) returns (r: Admission)
      requires job.Fresh()
      modifies this`nextTaskId, this`queue, this`scheduled, job
      ensures View() == ServiceInner.Admit(old(View()), job).0
      ensures r == ServiceInner.Admit(old(View()), job).1
      ensures old(View().Valid()) ==> View().Valid()
      ensures if r.Admitted? then job.Waiting(r.taskId) else job.Fresh()
    {
      AdmitValid(View(), job);
      if lifecycle != Running {
        return Rejected(SubmissionError.Shutdown);
      }
      if Occupied() >= taskCapacity {
        return Rejected(Saturated);
      }
      var taskId := nextTaskId;
      if nextTaskId >= MAX_USIZE {
        return IdsExhausted;
      }
      nextTaskId := nextTaskId + 1;
      job.Accept(taskId);
      queue := queue[taskId := job];
      var dispatchCount := Min(|queue|, SaturatingSub(numThreads, scheduled));
      scheduled := scheduled + dispatchCount;
      r := Admitted(taskId, dispatchCount);
    }

    method TakeNext() returns (r: Option<Claim<CallableJob>>)
      requires Tracks()
      modifies this
      ensures View() == ServiceInner.TakeNext(old(View())).0
      ensures r == ServiceInner.TakeNext(old(View())).1
      ensures old(View().Valid() && scheduled > running) ==> View().Valid()
      ensures if r == None then Published(0) && (parked == if View().IsTerminated() then {} else old(parked))
              else parked == old(parked) && terminationValue == old(terminationValue)
                   && Tracks() && capacitySignals == old(capacitySignals)
    {
      TakeNextValid(View());
      if queue == map[] {
        scheduled := SaturatingSub(scheduled, 1);
        var terminated := NotifyIfTerminatedLocked();
        NotifyAsyncChanges(false, terminated);
        return None;
      }
      var c := PopFirst();
      r := Some(c);
    }

    /** The task-taking half of `take_next`. */
    method PopFirst() returns (c: Claim<CallableJob>)
      requires queue != map[]
      modifies this`queue, this`running, this`runningTasks
      ensures (View(), Some(c)) == ServiceInner.TakeNext(old(View()))
    {
      var taskId := FirstKey(queue);
      var job := queue[taskId];
      queue := queue - {taskId};
      running := running + 1;
      runningTasks := runningTasks + {taskId};
      c := Claim(taskId, job);
    }

    method IsRunningTask(taskId: nat) returns (r: bool)
      ensures r == (taskId in runningTasks)
    {
      r := taskId in runningTasks;
    }

    method FinishRunning(taskId: nat) returns (dispatch: bool)
      requires Tracks()
      modifies this
      ensures View() == ServiceInner.FinishRunning(old(View()), taskId).0
      ensures dispatch == ServiceInner.FinishRunning(old(View()), taskId).1
      ensures old(View().Valid() && taskId in runningTasks) ==> View().Valid()
      ensures Published(1) && (parked == if View().IsTerminated() then {} else old(parked))
    {
      FinishRunningValid(View(), taskId);
      ghost var after := ServiceInner.FinishRunning(View(), taskId).0;
      runningTasks := runningTasks - {taskId};
      running := SaturatingSub(running, 1);
      dispatch := queue != map[];
      if !dispatch {
        scheduled := SaturatingSub(scheduled, 1);
      }
      assert View() == after;
      Announce();
    }

    method CancelPendingTask(taskId: nat) returns (r: CancelDisposition<CallableJob>)
      modifies this`queue, this`cancelling
      ensures View() == CancelPending(old(View()), taskId).0
      ensures r == CancelPending(old(View()), taskId).1
      ensures old(View().Valid()) ==> View().Valid()
    {
      CancelPendingValid(View(), taskId);
      if taskId in queue {
        var job := queue[taskId];
        queue := queue - {taskId};
        cancelling := cancelling + {taskId};
        return Owned(job);
      }
      r := if taskId in cancelling then InProgress else Absent;
    }

    method FinishCancelling(taskId: nat)
      requires Tracks()
      modifies this
      ensures View() == ServiceInner.FinishCancelling(old(View()), taskId)
      ensures old(View().Valid()) ==> View().Valid()
      ensures Published(1) && parked == {}
    {
      FinishCancellingValid(View(), taskId);
      ghost var after := ServiceInner.FinishCancelling(View(), taskId);
      cancelling := cancelling - {taskId};
      assert View() == after;
      var terminated := NotifyIfTerminatedLocked();
      parked := {};
      NotifyAsyncChanges(true, terminated);
    }

    method Shutdown()
      requires Tracks()
      modifies this
      ensures View() == BeginShutdown(old(View()))
      ensures old(View().Valid()) ==> View().Valid()
      ensures Published(1) && (parked == if View().IsTerminated() then {} else old(parked))
    {
      BeginShutdownValid(View());
      if lifecycle == Running {
        lifecycle := ShuttingDown;
      }
      Announce();
    }

    /** The loop of `stop`: moves every entry of the taken queue to `cancelling`. */
    method ClaimAll(entries: seq<Claim<CallableJob>>) returns (owned: seq<Claim<CallableJob>>)
      modifies this`cancelling
      ensures owned == entries
      ensures cancelling == old(cancelling) + Ids(entries)
    {
      owned := [];
      assert Ids(owned) == {};
      for i := 0 to |entries|
        invariant owned == entries[..i]
        invariant cancelling == old(cancelling) + Ids(owned)
      {
        IdsSnoc(owned, entries[i]);
        cancelling := cancelling + {entries[i].id};
        owned := owned + [entries[i]];
      }
    }

    method Stop() returns (report: StopReport, owned: seq<Claim<CallableJob>>)
      requires Tracks()
      modifies this
      ensures (View(), report, owned) == ServiceInner.Stop(old(View()))
      ensures old(View().Valid()) ==> View().Valid()
      ensures Published(1) && (parked == if View().IsTerminated() then {} else old(parked))
    {
      report, owned := BeginStop();
      Announce();
    }

    /** `stop` up to the notifications. */
    method BeginStop() returns (report: StopReport, owned: seq<Claim<CallableJob>>)
      modifies this`lifecycle, this`queue, this`cancelling
      ensures (View(), report, owned) == ServiceInner.Stop(old(View()))
      ensures old(View().Valid()) ==> View().Valid()
    {
      StopValid(View());
      lifecycle := Stopping;
      var queued, runningNow := |queue|, running;
      var jobs := queue;
      queue := map[];
      owned := ClaimAll(InOrder(jobs));
      IdsInOrder(jobs);
      report := StopReport(queued, runningNow, |owned|);
    }
  }
}
