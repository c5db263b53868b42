/**
 When exactly a cancellation reports what: the conditions under which the code
 departs from the plain reading of its documentation, with a run showing each.
 */
module CancelResults {
  import opened Basics
  import opened Counts
  import opened Invariant
  import opened ServiceInner
  import opened Threads

  import Preservation

  // ----- Reachability, one step at a time -----

  lemma {:induction false} RunAppend(s: System, steps: seq<Step>, step: Step)
    requires ValidRun(s, steps) && Enabled(Run(s, steps), step)
    ensures ValidRun(s, steps + [step]) && Run(s, steps + [step]) == Apply(Run(s, steps), step)
    decreases |steps|
  {
    if steps == [] {
      assert steps + [step] == [step];
    } else {
      RunAppend(Apply(s, steps[0]), steps[1..], step);
      assert (steps + [step])[1..] == steps[1..] + [step];
    }
  }

  lemma ReachableStep(s: System, step: Step)
    requires Reachable(s) && Enabled(s, step)
    ensures Reachable(Apply(s, step))
  {
    var capacity: nat, threads: nat :| ReachableWith(s, capacity, threads);
    var steps: seq<Step> :|
      ValidRun(InitialSystem(capacity, threads), steps) && Run(InitialSystem(capacity, threads), steps) == s;
    RunAppend(InitialSystem(capacity, threads), steps, step);
    var longer := steps + [step];
    assert ValidRun(InitialSystem(capacity, threads), longer)
        && Run(InitialSystem(capacity, threads), longer) == Apply(s, step);
    assert ReachableWith(Apply(s, step), capacity, threads);
  }

  lemma ReachableInitial(capacity: nat, threads: nat)
    requires 1 <= capacity <= MAX_USIZE && 1 <= threads
    ensures Reachable(InitialSystem(capacity, threads))
  {
    var s := InitialSystem(capacity, threads);
    assert ValidRun(s, []) && Run(s, []) == s;
    assert ReachableWith(s, capacity, threads);
  }

  // ----- `Cancelled` without a claim -----

  /**
   A cancellation reports `Cancelled` exactly when its locked region finds the
   task queued or being cancelled, and it claims the job, alone answering for
   its cleanup, exactly when it finds it queued.
   */
  lemma CancelDecided(s: System, t: nat)
    requires Reachable(s) && t < |s.acts| && s.acts[t].Calling? && s.acts[t].call.Cancel?
    ensures var id := s.acts[t].call.taskId;
            && Known(s.sh, id)
            && var a := Advance(s.sh, s.acts[t], Pending).act;
            && (id in s.sh.inner.queue <==>
                a == Cancelling([Claim(id, s.sh.admitted[id])], CancelDone(id, CancelledNow, true)))
            && (id in s.sh.inner.cancelling <==> a == Returned(CancelDone(id, CancelledNow, false)))
            && (id in s.sh.inner.runningTasks || id in s.sh.completed || id in s.sh.cancelled <==> a.Unclaimed?)
  {
    Preservation.ReachableInv(s);
    assert ActOk(s.sh, s.acts[t]);
    var id := s.acts[t].call.taskId;
    PlacesSplit(s.sh, id);
    assert Places(s.sh, id) == 1;
  }

  /** One queued task, the only thread inside having returned from submitting it. */
  lemma SubmittedState() returns (s: System)
    ensures Reachable(s) && s.acts == [Dispatching(0, 1)] && s.sh.waiters == []
    ensures s.sh.jobs == [JobRecord(1, 0, 0, Pending)] && s.sh.admitted == [0]
    ensures s.sh.inner == Inner(Running, 1, 1, 1, 0, {}, 1, map[0 := 0], {})
  {
    ReachableInitial(1, 1);
    var s0 := InitialSystem(1, 1);
    ReachableStep(s0, Start(Submit));
    var s1 := Apply(s0, Start(Submit));
    assert s1.acts[0] == Calling(Submit);
    ReachableStep(s1, Go(0, Pending));
    s := Apply(s1, Go(0, Pending));
    assert s0.sh.inner.queue[0 := 0] == map[0 := 0];
    assert |map[0 := 0]| == 1;
  }

  /** A first cancellation has claimed the task and not cleaned it up. */
  lemma ClaimedState() returns (s: System)
    ensures Reachable(s) && |s.acts| == 2 && Known(s.sh, 0)
    ensures s.acts[1].Cancelling? && s.acts[1].out == CancelDone(0, CancelledNow, true)
    ensures 0 !in s.sh.inner.queue && 0 in s.sh.inner.cancelling
  {
    var s1 := SubmittedState();
    ReachableStep(s1, Start(Cancel(0, Handle)));
    var s2 := Apply(s1, Start(Cancel(0, Handle)));
    assert s2.acts[1] == Calling(Cancel(0, Handle));
    ReachableStep(s2, Go(1, Pending));
    s := Apply(s2, Go(1, Pending));
  }

  /** Two cancellations of one task both report `Cancelled`; only the first claimed it. */
  lemma CancelledTwice() returns (s: System)
    ensures Reachable(s) && |s.acts| == 3
    ensures s.acts[1].Cancelling? && s.acts[1].out == CancelDone(0, CancelledNow, true)
    ensures s.acts[2] == Returned(CancelDone(0, CancelledNow, false))
  {
    var s3 := ClaimedState();
    ReachableStep(s3, Start(Cancel(0, Endpoint)));
    var s4 := Apply(s3, Start(Cancel(0, Endpoint)));
    assert s4.acts[2] == Calling(Cancel(0, Endpoint));
    ReachableStep(s4, Go(2, Pending));
    s := Apply(s4, Go(2, Pending));
  }

  // ----- `AlreadyRunning` after a terminal result -----

  /** Where `RayonTaskHandle::cancel` ends when it finds nothing to claim and reads the status now. */
  function HandleReport(sh: Shared, id: nat): Act
    requires Known(sh, id)
  {
    Advance(sh, Unclaimed(id, Handle), Pending).act
  }

  /** Where a `TaskCancellationHandle` ends, its fallback included. */
  function EndpointReport(sh: Shared, id: nat): Act
    requires Known(sh, id)
  {
    var n := Advance(sh, Unclaimed(id, Endpoint), Pending);
    if n.act.Fallback? then Advance(n.sh, n.act, Pending).act else n.act
  }

  /** The window between publishing a result and releasing the task. */
  predicate Releasing(sh: Shared, id: nat)
    requires Known(sh, id)
  {
    id in sh.inner.runningTasks && StatusOf(sh, id).Terminal()
  }

  /**
   For a task no longer queued or cancelling, the two endpoints agree except in
   one window: while the task is still among the running ones and its result is
   already there, the endpoint says `AlreadyRunning` and the handle
   `AlreadyFinished`. The window is open exactly while a worker has left `run`
   and not yet released the task.
   */
  lemma EndpointsAgreeUnlessReleasing(s: System, id: nat)
    requires Reachable(s) && id < |s.sh.admitted| && id !in s.sh.inner.queue && id !in s.sh.inner.cancelling
    ensures Known(s.sh, id)
    ensures HandleReport(s.sh, id) != EndpointReport(s.sh, id) <==> Releasing(s.sh, id)
    ensures Releasing(s.sh, id) ==>
            && EndpointReport(s.sh, id) == Returned(CancelDone(id, AlreadyRunning, false))
            && HandleReport(s.sh, id) == Returned(CancelDone(id, AlreadyFinished, false))
    ensures Releasing(s.sh, id) <==>
            exists t :: 0 <= t < |s.acts| && s.acts[t].Ran? && s.acts[t].claim.id == id
  {
    Preservation.ReachableInv(s);
    assert Known(s.sh, id);
    Preservation.UnclaimedTask(s, id);
    ReportsDecided(s.sh, id);
    ReleasingLeft(s, id);
    LeftByRan(s.acts, id);
  }

  /** What both endpoints return, in every state an unclaimed task can be in. */
  lemma ReportsDecided(sh: Shared, id: nat)
    requires Known(sh, id) && (id in sh.inner.runningTasks || StatusOf(sh, id).Terminal())
    ensures HandleReport(sh, id) == Returned(CancelDone(id, CancellationResultForStatus(StatusOf(sh, id)), false))
    ensures EndpointReport(sh, id)
            == Returned(CancelDone(id, if id in sh.inner.runningTasks then AlreadyRunning else AlreadyFinished, false))
  {
  }

  lemma LeftByRan(acts: seq<Act>, id: nat)
    ensures Grips(acts, id).left >= 1 <==> exists t :: 0 <= t < |acts| && acts[t].Ran? && acts[t].claim.id == id
  {
    if Grips(acts, id).left >= 1 {
      var t := ReleasingWorker(acts, id);
    }
    if t :| 0 <= t < |acts| && acts[t].Ran? && acts[t].claim.id == id {
      RanHasLeft(acts, t, id);
    }
  }

  lemma RanHasLeft(acts: seq<Act>, t: nat, id: nat)
    requires t < |acts| && acts[t].Ran? && acts[t].claim.id == id
    ensures Grips(acts, id).left >= 1
  {
    GripsCover(acts, t, id);
    assert GripOf(acts[t], id) == Grip(0, 0, 1, 0, 0);
  }

  lemma ReleasingLeft(s: System, id: nat)
    requires Inv(s) && Known(s.sh, id) && id !in s.sh.inner.cancelling
    ensures Releasing(s.sh, id) <==> Grips(s.acts, id).left >= 1
  {
    assert Ownership(s.sh, s.acts, id);
    assert JobOk(s.sh, s.acts, id);
    PlacesSplit(s.sh, id);
  }

  lemma {:induction false} ReleasingWorker(acts: seq<Act>, id: nat) returns (t: nat)
    requires Grips(acts, id).left >= 1
    ensures t < |acts| && acts[t].Ran? && acts[t].claim.id == id
    decreases |acts|
  {
    var last := |acts| - 1;
    if GripOf(acts[last], id).left >= 1 {
      OnlyRanLeft(acts[last], id);
      t := last;
    } else {
      t := ReleasingWorker(acts[..last], id);
    }
  }

  lemma OnlyRanLeft(a: Act, id: nat)
    requires GripOf(a, id).left >= 1
    ensures a.Ran? && a.claim.id == id
  {
  }

  lemma TakenState() returns (s: System)
    ensures Reachable(s) && s.acts == [Returned(Submitted(0)), Taken(Claim(0, 0))]
    ensures s.sh.jobs == [JobRecord(1, 0, 0, Pending)] && s.sh.admitted == [0]
    ensures s.sh.inner.queue == map[] && s.sh.inner.runningTasks == {0} && s.sh.inner.cancelling == {}
  {
    var s0 := SubmittedState();
    ReachableStep(s0, Go(0, Pending));
    var s1 := Apply(s0, Go(0, Pending));
    assert s1.acts == [Returned(Submitted(0)), Closure];
    ReachableStep(s1, Go(1, Pending));
    s := Apply(s1, Go(1, Pending));
    assert MinOf({0}) == 0;
    assert s1.sh.inner.queue.Keys == {0};
    assert s.sh.inner.queue == map[];
  }

  /** A worker that has published a result and not yet released its task. */
  lemma ReleasingState() returns (s: System)
    ensures Reachable(s) && s.acts == [Returned(Submitted(0)), Ran(Claim(0, 0))]
    ensures s.sh.jobs == [JobRecord(1, 1, 0, Succeeded)] && s.sh.admitted == [0]
    ensures s.sh.inner.queue == map[] && s.sh.inner.runningTasks == {0} && s.sh.inner.cancelling == {}
  {
    var s2 := TakenState();
    ReachableStep(s2, Go(1, Pending));
    var s3 := Apply(s2, Go(1, Pending));
    assert s2.sh.jobs[0 := JobRecord(1, 1, 0, TaskStatus.Executing)] == [JobRecord(1, 1, 0, TaskStatus.Executing)];
    assert s3.acts == [Returned(Submitted(0)), Working(Claim(0, 0))];
    ReachableStep(s3, Go(1, Succeeded));
    s := Apply(s3, Go(1, Succeeded));
    assert s.acts == [Returned(Submitted(0)), Ran(Claim(0, 0))];
    assert s.sh.jobs == [JobRecord(1, 1, 0, Succeeded)];
  }

  /** The endpoint reports `AlreadyRunning` for a task that has already succeeded. */
  lemma EndpointLags() returns (s: System)
    ensures Reachable(s) && |s.acts| == 3
    ensures Known(s.sh, 0) && StatusOf(s.sh, 0) == Succeeded
    ensures s.acts[2] == Returned(CancelDone(0, AlreadyRunning, false))
  {
    var s1 := ReleasingState();
    ReachableStep(s1, Start(Cancel(0, Endpoint)));
    var s2 := Apply(s1, Start(Cancel(0, Endpoint)));
    assert s2.acts[2] == Calling(Cancel(0, Endpoint));
    ReachableStep(s2, Go(2, Pending));
    var s3 := Apply(s2, Go(2, Pending));
    assert s3.acts[2] == Unclaimed(0, Endpoint);
    ReachableStep(s3, Go(2, Pending));
    s := Apply(s3, Go(2, Pending));
  }
}
