/**
 The record protected by the service mutex and its critical sections.

 Each function is the whole effect of one locked region of the scheduling
 state: the new record and what the region returns. `J` is the type of a
 queued job. The class in `ServiceState` is proved to implement these
 functions field by field, and the interleaved protocol in `Threads` takes
 each of them as one atomic step.
 */
module ServiceInner {
  import opened Basics

  datatype Inner<J> = Inner(
    lifecycle: Lifecycle,
    taskCapacity: nat,
    numThreads: nat,
    nextTaskId: nat,
    running: nat,
    runningTasks: set<nat>,
    scheduled: nat,
    queue: map<nat, J>,
    cancelling: set<nat>)
  {
    function Occupied(): nat {
      |queue| + running + |cancelling|
    }

    predicate IsTerminated() {
      lifecycle != Running && Occupied() == 0
    }

    /** The lifecycle a caller observes. */
    function Reported(): Lifecycle {
      if IsTerminated() then Terminated else lifecycle
    }

    /** Where an identifier currently is, counted with multiplicity. */
    function Live(id: nat): nat {
      Bit(id in queue) + Bit(id in runningTasks) + Bit(id in cancelling)
    }

    /** What every critical section keeps. */
    ghost predicate Valid() {
      && 1 <= taskCapacity <= MAX_USIZE
      && 1 <= numThreads
      && nextTaskId <= MAX_USIZE
      && lifecycle != Terminated
      && (lifecycle == Stopping ==> queue == map[])
      && running == |runningTasks|
      && running <= scheduled <= numThreads
      && Occupied() <= taskCapacity
      && scheduled >= Min(|queue| + running, numThreads)
      && (forall id: nat :: Live(id) <= Bit(id < nextTaskId))
    }
  }

  datatype Admission = Admitted(taskId: nat, dispatchCount: nat) | Rejected(error: SubmissionError) | IdsExhausted

  datatype CancelDisposition<+J> = Owned(job: J) | InProgress | Absent

  function Initial<J>(taskCapacity: nat, numThreads: nat): Inner<J> {
    Inner(Running, taskCapacity, numThreads, 0, 0, {}, 0, map[], {})
  }

  function Admit<J>(s: Inner<J>, job: J): (Inner<J>, Admission) {
    if s.lifecycle != Running then
      (s, Rejected(Shutdown))
    else if s.Occupied() >= s.taskCapacity then
      (s, Rejected(Saturated))
    else if s.nextTaskId >= MAX_USIZE then
      (s, IdsExhausted)
    else
      var queue := s.queue[s.nextTaskId := job];
      var dispatch := Min(|queue|, SaturatingSub(s.numThreads, s.scheduled));
      (s.(nextTaskId := s.nextTaskId + 1, queue := queue, scheduled := s.scheduled + dispatch),
       Admitted(s.nextTaskId, dispatch))
  }

  function TakeNext<J>(s: Inner<J>): (Inner<J>, Option<Claim<J>>) {
    if s.queue == map[] then
      (s.(scheduled := SaturatingSub(s.scheduled, 1)), None)
    else
      var id := MinOf(s.queue.Keys);
      (s.(queue := s.queue - {id}, running := s.running + 1, runningTasks := s.runningTasks + {id}),
       Some(Claim(id, s.queue[id])))
  }

  function FinishRunning<J>(s: Inner<J>, id: nat): (Inner<J>, bool) {
    var dispatch := s.queue != map[];
    (s.(runningTasks := s.runningTasks - {id},
        running := SaturatingSub(s.running, 1),
        scheduled := if dispatch then s.scheduled else SaturatingSub(s.scheduled, 1)),
     dispatch)
  }

  function CancelPending<J>(s: Inner<J>, id: nat): (Inner<J>, CancelDisposition<J>) {
    if id in s.queue then
      (s.(queue := s.queue - {id}, cancelling := s.cancelling + {id}), Owned(s.queue[id]))
    else if id in s.cancelling then
      (s, InProgress)
    else
      (s, Absent)
  }

  function FinishCancelling<J>(s: Inner<J>, id: nat): Inner<J> {
    s.(cancelling := s.cancelling - {id})
  }

  function BeginShutdown<J>(s: Inner<J>): Inner<J> {
    if s.lifecycle == Running then s.(lifecycle := ShuttingDown) else s
  }

  function Stop<J>(s: Inner<J>): (Inner<J>, StopReport, seq<Claim<J>>) {
    var owned := InOrder(s.queue);
    (s.(lifecycle := Stopping, queue := map[], cancelling := s.cancelling + s.queue.Keys),
     StopReport(|s.queue|, s.running, |owned|),
     owned)
  }

  // ----- What each critical section keeps -----

  lemma RemoveKey<J>(q: map<nat, J>, id: nat)
    requires id in q
    ensures (q - {id}).Keys == q.Keys - {id}
    ensures |q - {id}| == |q| - 1
  {
    assert (q - {id}).Keys == q.Keys - {id};
  }

  lemma AddKey<J>(q: map<nat, J>, id: nat, job: J)
    requires id !in q
    ensures q[id := job].Keys == q.Keys + {id}
    ensures |q[id := job]| == |q| + 1
  {
    assert q[id := job].Keys == q.Keys + {id};
  }

  lemma LiveSplit<J>(s: Inner<J>, id: nat)
    requires s.Valid()
    ensures id in s.queue ==> id !in s.runningTasks && id !in s.cancelling && id < s.nextTaskId
    ensures id in s.runningTasks ==> id !in s.queue && id !in s.cancelling && id < s.nextTaskId
    ensures id in s.cancelling ==> id !in s.queue && id !in s.runningTasks && id < s.nextTaskId
  {
    assert s.Live(id) <= Bit(id < s.nextTaskId);
  }

  /**
   An accepted task gets the next id, joins the queue and uses one free slot.
   Reservations are made for the whole queue, as far as workers are free: the
   promised closures are either as many as queued tasks or all that are left.
   */
  lemma AdmitReserves<J>(s: Inner<J>, job: J)
    requires s.Valid() && Admit(s, job).1.Admitted?
    ensures var (s', a) := Admit(s, job);
            && a.taskId == s.nextTaskId && s'.nextTaskId == s.nextTaskId + 1
            && s'.queue.Keys == s.queue.Keys + {a.taskId} && s'.queue[a.taskId] == job
            && (forall id | id in s.queue :: s'.queue[id] == s.queue[id])
            && s'.lifecycle == s.lifecycle && s'.taskCapacity == s.taskCapacity && s'.numThreads == s.numThreads
            && s'.running == s.running && s'.runningTasks == s.runningTasks && s'.cancelling == s.cancelling
            && s'.scheduled == s.scheduled + a.dispatchCount <= s.numThreads
            && a.dispatchCount <= |s'.queue|
            && (a.dispatchCount == |s'.queue| || s'.scheduled == s.numThreads)
  {
    LiveSplit(s, s.nextTaskId);
    AddKey(s.queue, s.nextTaskId, job);
  }

  /** Admission keeps the record valid, and refuses exactly for the documented reasons. */
  lemma AdmitKeepsValid<J>(s: Inner<J>, job: J)
    requires s.Valid()
    ensures Admit(s, job).0.Valid()
    ensures Admit(s, job).1 == Rejected(Shutdown) <==> s.lifecycle != Running
    ensures Admit(s, job).1 == Rejected(Saturated) <==>
            s.lifecycle == Running && |s.queue| + s.running + |s.cancelling| >= s.taskCapacity
    ensures Admit(s, job).1 == IdsExhausted <==>
            s.lifecycle == Running && s.Occupied() < s.taskCapacity && s.nextTaskId >= MAX_USIZE
    ensures Admit(s, job).1.Admitted? <==>
            s.lifecycle == Running && s.Occupied() < s.taskCapacity && s.nextTaskId < MAX_USIZE
    ensures Admit(s, job).1.Admitted? ==> Admit(s, job).0.Occupied() == s.Occupied() + 1
    ensures !Admit(s, job).1.Admitted? ==> Admit(s, job).0 == s
  {
    if Admit(s, job).1.Admitted? {
      LiveSplit(s, s.nextTaskId);
      AddKey(s.queue, s.nextTaskId, job);
      var s' := Admit(s, job).0;
      forall id: nat ensures s'.Live(id) <= Bit(id < s'.nextTaskId) {
        assert s.Live(id) <= Bit(id < s.nextTaskId);
      }
    }
  }

  /**
   A worker closure that holds a reservation of its own (`scheduled > running`)
   either takes the oldest task or gives the reservation back.
   */
  lemma TakeNextKeepsValid<J>(s: Inner<J>)
    requires s.Valid() && s.scheduled > s.running
    ensures TakeNext(s).0.Valid()
    ensures TakeNext(s).0.Occupied() == s.Occupied()
    ensures TakeNext(s).1 == None <==> s.queue == map[]
    ensures TakeNext(s).1 == None ==> TakeNext(s).0 == s.(scheduled := s.scheduled - 1)
    ensures TakeNext(s).1.Some? ==>
            var c := TakeNext(s).1.value;
            && c.id in s.queue && s.queue[c.id] == c.job && (forall k | k in s.queue :: c.id <= k)
            && TakeNext(s).0.queue == s.queue - {c.id}
            && TakeNext(s).0.runningTasks == s.runningTasks + {c.id}
            && TakeNext(s).0.scheduled == s.scheduled && TakeNext(s).0.cancelling == s.cancelling
            && TakeNext(s).0.lifecycle == s.lifecycle && TakeNext(s).0.nextTaskId == s.nextTaskId
  {
    if s.queue != map[] {
      var id := MinOf(s.queue.Keys);
      LiveSplit(s, id);
      RemoveKey(s.queue, id);
      TakeOneKeepsValid(s, id);
    } else {
      forall k: nat ensures TakeNext(s).0.Live(k) <= Bit(k < s.nextTaskId) {
        assert s.Live(k) <= Bit(k < s.nextTaskId);
      }
    }
  }

  lemma TakeOneKeepsValid<J>(s: Inner<J>, id: nat)
    requires s.Valid() && s.scheduled > s.running && id in s.queue && id !in s.runningTasks
    requires |s.queue - {id}| == |s.queue| - 1
    ensures s.(queue := s.queue - {id}, running := s.running + 1, runningTasks := s.runningTasks + {id}).Valid()
  {
    var s' := s.(queue := s.queue - {id}, running := s.running + 1, runningTasks := s.runningTasks + {id});
    forall k: nat ensures s'.Live(k) <= Bit(k < s'.nextTaskId) {
      assert s.Live(k) <= Bit(k < s.nextTaskId);
    }
  }

  /**
   Finishing frees exactly one slot. A successor is promised exactly when a task
   is queued; the reservation is kept for it, and released otherwise.
   */
  lemma FinishRunningKeepsValid<J>(s: Inner<J>, id: nat)
    requires s.Valid() && id in s.runningTasks
    ensures FinishRunning(s, id).0.Valid()
    ensures FinishRunning(s, id).0.Occupied() == s.Occupied() - 1
    ensures FinishRunning(s, id).0.running == s.running - 1
    ensures FinishRunning(s, id).1 <==> s.queue != map[]
    ensures FinishRunning(s, id).0.scheduled == if s.queue == map[] then s.scheduled - 1 else s.scheduled
    ensures FinishRunning(s, id).0.runningTasks == s.runningTasks - {id}
    ensures FinishRunning(s, id).0.queue == s.queue && FinishRunning(s, id).0.cancelling == s.cancelling
    ensures FinishRunning(s, id).0.lifecycle == s.lifecycle && FinishRunning(s, id).0.nextTaskId == s.nextTaskId
  {
    assert |s.runningTasks - {id}| == |s.runningTasks| - 1;
    var s' := FinishRunning(s, id).0;
    forall k: nat ensures s'.Live(k) <= Bit(k < s'.nextTaskId) {
      assert s.Live(k) <= Bit(k < s.nextTaskId);
    }
  }

  /** Claiming a cancellation never frees a slot. */
  lemma CancelPendingKeepsValid<J>(s: Inner<J>, id: nat)
    requires s.Valid()
    ensures CancelPending(s, id).0.Valid()
    ensures CancelPending(s, id).0.Occupied() == s.Occupied()
    ensures CancelPending(s, id).1.Owned? <==> id in s.queue
    ensures CancelPending(s, id).1.Absent? <==> id !in s.queue && id !in s.cancelling
    ensures CancelPending(s, id).1.InProgress? <==> id in s.cancelling
    ensures id in s.queue ==>
            && CancelPending(s, id).1 == Owned(s.queue[id])
            && CancelPending(s, id).0 == s.(queue := s.queue - {id}, cancelling := s.cancelling + {id})
    ensures id !in s.queue ==> CancelPending(s, id).0 == s
  {
    if id in s.queue {
      LiveSplit(s, id);
      RemoveKey(s.queue, id);
      var s' := CancelPending(s, id).0;
      forall k: nat ensures s'.Live(k) <= Bit(k < s'.nextTaskId) {
        assert s.Live(k) <= Bit(k < s.nextTaskId);
      }
    }
  }

  lemma FinishCancellingKeepsValid<J>(s: Inner<J>, id: nat)
    requires s.Valid()
    ensures FinishCancelling(s, id).Valid()
    ensures FinishCancelling(s, id).Occupied() + Bit(id in s.cancelling) == s.Occupied()
    ensures FinishCancelling(s, id) == s.(cancelling := s.cancelling - {id})
  {
    var s' := FinishCancelling(s, id);
    if id in s.cancelling {
      assert |s.cancelling - {id}| == |s.cancelling| - 1;
    } else {
      assert s.cancelling - {id} == s.cancelling;
    }
    forall k: nat ensures s'.Live(k) <= Bit(k < s'.nextTaskId) {
      assert s.Live(k) <= Bit(k < s.nextTaskId);
    }
  }

  lemma BeginShutdownKeepsValid<J>(s: Inner<J>)
    requires s.Valid()
    ensures BeginShutdown(s).Valid()
    ensures BeginShutdown(s).Occupied() == s.Occupied()
    ensures BeginShutdown(s) == s.(lifecycle := if s.lifecycle == Running then ShuttingDown else s.lifecycle)
  {
    forall k: nat ensures BeginShutdown(s).Live(k) <= Bit(k < s.nextTaskId) {
      assert s.Live(k) <= Bit(k < s.nextTaskId);
    }
  }

  /** Stop moves every queued task to cancelling, in one step, keeping every slot taken. */
  lemma StopKeepsValid<J>(s: Inner<J>)
    requires s.Valid()
    ensures Stop(s).0.Valid()
    ensures Stop(s).0.Occupied() == s.Occupied()
    ensures Stop(s).0.lifecycle == Stopping && Stop(s).0.queue == map[]
    ensures Stop(s).0.cancelling == s.cancelling + s.queue.Keys
    ensures Stop(s).0.runningTasks == s.runningTasks && Stop(s).0.scheduled == s.scheduled
    ensures Stop(s).1.running == s.running
    ensures Stop(s).1.cancelled == Stop(s).1.queued == |Stop(s).2| == |s.queue|
    ensures |Stop(s).0.cancelling| == |s.cancelling| + |s.queue|
  {
    StopCounts(s);
    var s' := Stop(s).0;
    forall k: nat ensures s'.Live(k) <= Bit(k < s'.nextTaskId) {
      assert s.Live(k) <= Bit(k < s.nextTaskId);
    }
  }

  lemma StopCounts<J>(s: Inner<J>)
    requires s.Valid()
    ensures |s.cancelling + s.queue.Keys| == |s.cancelling| + |s.queue|
  {
    forall k | k in s.queue ensures k !in s.cancelling { LiveSplit(s, k); }
    assert s.cancelling !! s.queue.Keys;
    assert |s.queue.Keys| == |s.queue|;
  }
}
