/**
 What each call answers, whatever the other threads do: from the state in which
 its locked region decided, over any run, to its return.
 */
module Answers {
  import opened Basics
  import opened Invariant
  import opened ServiceInner
  import opened Threads

  import Evolution
  import Preservation

  /** What a thread is committed to once its locked region has decided. */
  datatype Promise =
    | Submission(taskId: nat)          // admitted under this id
    | Refusal(out: Outcome)            // decided at once
    | Finishing(more: bool)            // `finish_running`, with a successor or not
    | Closing                          // `shutdown`
    | Told(wait: bool)                 // subscribing to termination on a terminated service
    | Untold(wait: bool)               // ... having found the service live
    | Asked(taskId: nat, via: Via)     // cancelling a task that could not be claimed

  /** What an endpoint may say of task `id`, asked in state `s0` and answered by state `sh`. */
  ghost predicate Fair(s0: Shared, sh: Shared, id: nat, via: Via, r: CancelResult)
    requires Known(s0, id) && Known(sh, id)
  {
    match via
    case Handle =>
      || (r == AlreadyRunning && !StatusOf(s0, id).Terminal())
      || (r == AlreadyFinished && StatusOf(sh, id).Terminal())
    case Endpoint =>
      || (r == AlreadyRunning && id in s0.inner.runningTasks)
      || (r == AlreadyFinished && (id in sh.completed || id in sh.cancelled))
  }

  /** The thread at `a` is still bound to the promise made in state `s0`, or has kept it. */
  ghost predicate Keeps(s0: Shared, sh: Shared, p: Promise, a: Act) {
    match p
    case Submission(id) => (a.Dispatching? && a.taskId == id) || a == Returned(Submitted(id))
    case Refusal(out) => a == Returned(out)
    case Finishing(more) =>
      || ((a.Publishing? || a.PublishingEnd?) && a.k == if more then Respawn else Return(WorkerDone))
      || (more && a.Respawning?)
      || a == Returned(WorkerDone)
    case Closing =>
      ((a.Publishing? || a.PublishingEnd?) && a.k == Return(ShutdownDone)) || a == Returned(ShutdownDone)
    case Told(wait) =>
      || (sh.inner.IsTerminated() &&
          (a == Calling(SubscribeTermination(wait)) || a == Subscribed(wait) || a == Repairing(wait)))
      || (sh.terminationValue && wait && (a == Awaiting || a == Returned(AwaitDone)))
      || (sh.terminationValue && !wait && a == Returned(SubscribeDone(true)))
    case Untold(wait) =>
      || (wait && (a == Awaiting || (sh.terminationValue && a == Returned(AwaitDone))))
      || (!wait && a == Returned(SubscribeDone(false)))
    case Asked(id, via) =>
      || a == Unclaimed(id, via)
      || (via == Endpoint && a == Fallback(id))
      || (a.Returned? && a.out.CancelDone? && a.out.taskId == id && !a.out.owned
          && Known(s0, id) && Known(sh, id) && Fair(s0, sh, id, via, a.out.result))
  }

  // ----- The thread's own actions keep its promise -----

  lemma OwnSimple(s0: Shared, sh: Shared, p: Promise, a: Act, completion: TaskStatus, n: Next)
    requires p.Submission? || p.Refusal? || p.Finishing? || p.Closing?
    requires Fits(sh, a) && Keeps(s0, sh, p, a) && n == Advance(sh, a, completion)
    ensures Keeps(s0, n.sh, p, n.act)
  {
  }

  lemma OwnTold(s0: Shared, sh: Shared, wait: bool, a: Act, completion: TaskStatus, n: Next)
    requires Fits(sh, a) && Keeps(s0, sh, Told(wait), a) && n == Advance(sh, a, completion)
    ensures Keeps(s0, n.sh, Told(wait), n.act)
  {
  }

  lemma OwnUntold(s0: Shared, sh: Shared, wait: bool, a: Act, completion: TaskStatus, n: Next)
    requires CanAdvance(sh, a)
    requires Fits(sh, a) && Keeps(s0, sh, Untold(wait), a) && n == Advance(sh, a, completion)
    ensures Keeps(s0, n.sh, Untold(wait), n.act)
  {
  }

  /** The task had left the queue and was not being cancelled when the question was asked. */
  ghost predicate Placed(s0: Shared, id: nat) {
    Known(s0, id) && (id in s0.inner.runningTasks || id in s0.completed || id in s0.cancelled)
  }

  lemma StillRunning(s0: Shared, sh: Shared, id: nat)
    requires Placed(s0, id) && Evolution.Evolves(s0, sh) && Record(sh) && id in sh.inner.runningTasks
    ensures id in s0.inner.runningTasks
  {
    PlacesSplit(sh, id);
  }

  lemma OwnUnclaimed(s: System, s0: Shared, id: nat, via: Via)
    requires Inv(s) && Known(s.sh, id) && id !in s.sh.inner.queue && id !in s.sh.inner.cancelling
    requires Placed(s0, id) && Evolution.Evolves(s0, s.sh)
    ensures var n := WhenUnclaimed(s.sh, id, via); n.sh == s.sh && Keeps(s0, n.sh, Asked(id, via), n.act)
  {
    match via
    case Handle =>
    case Endpoint =>
      if id in s.sh.inner.runningTasks { StillRunning(s0, s.sh, id); }
  }

  lemma OwnFallback(s: System, s0: Shared, id: nat)
    requires Inv(s) && Known(s.sh, id) && (id in s.sh.completed || id in s.sh.cancelled)
    requires Known(s0, id)
    ensures var n := UseFallback(s.sh, id); n.sh == s.sh && Keeps(s0, n.sh, Asked(id, Endpoint), n.act)
  {
    assert JobOk(s.sh, s.acts, id);
    assert s.sh.jobs[s.sh.admitted[id] := s.sh.jobs[s.sh.admitted[id]]] == s.sh.jobs;
  }

  lemma OwnStep(s: System, t: nat, completion: TaskStatus, n: Next, s0: Shared, p: Promise)
    requires Enabled(s, Go(t, completion)) && n == Advance(s.sh, s.acts[t], completion)
    requires Inv(s) && Evolution.Evolves(s0, s.sh)
    requires Keeps(s0, s.sh, p, s.acts[t]) && (p.Asked? ==> Placed(s0, p.taskId))
    ensures Keeps(s0, n.sh, p, n.act)
  {
    var a := s.acts[t];
    assert ActOk(s.sh, a);
    match p
    case Told(wait) => OwnTold(s0, s.sh, wait, a, completion, n);
    case Untold(wait) => OwnUntold(s0, s.sh, wait, a, completion, n);
    case Asked(id, via) =>
      if a.Unclaimed? { OwnUnclaimed(s, s0, id, via); } else { OwnFallback(s, s0, id); }
    case _ => OwnSimple(s0, s.sh, p, a, completion, n);
  }

  lemma OwnLands(s: System, t: nat, completion: TaskStatus, n: Next)
    requires Enabled(s, Go(t, completion)) && n == Advance(s.sh, s.acts[t], completion)
    ensures var s' := Apply(s, Go(t, completion)); s'.sh == n.sh && t < |s'.acts| && s'.acts[t] == n.act
  {
  }

  // ----- So does everything else that happens -----

  lemma OthersKeep(s0: Shared, a: Shared, b: Shared, p: Promise, act: Act)
    requires Keeps(s0, a, p, act) && Evolution.Evolves(a, b)
    ensures Keeps(s0, b, p, act)
  {
    if p.Asked? && Known(a, p.taskId) { Evolution.StillKnown(a, b, p.taskId); }
  }

  lemma KeepsStep(s: System, step: Step, t: nat, s0: Shared, p: Promise)
    requires Inv(s) && Enabled(s, step) && t < |s.acts| && Evolution.Evolves(s0, s.sh)
    requires Keeps(s0, s.sh, p, s.acts[t]) && (p.Asked? ==> Placed(s0, p.taskId))
    ensures t < |Apply(s, step).acts| && Keeps(s0, Apply(s, step).sh, p, Apply(s, step).acts[t])
  {
    if step.Go? && step.t == t {
      var n := Advance(s.sh, s.acts[t], step.completion);
      OwnStep(s, t, step.completion, n, s0, p);
      OwnLands(s, t, step.completion, n);
    } else {
      Preservation.StepKeepsInv(s, step);
      OthersStep(s, step, t, s0, p);
    }
  }

  lemma OthersStep(s: System, step: Step, t: nat, s0: Shared, p: Promise)
    requires Enabled(s, step) && t < |s.acts| && (step.Go? ==> step.t != t)
    requires Keeps(s0, s.sh, p, s.acts[t]) && Evolution.Evolves(s.sh, Apply(s, step).sh)
    ensures t < |Apply(s, step).acts| && Keeps(s0, Apply(s, step).sh, p, Apply(s, step).acts[t])
  {
    OthersKeep(s0, s.sh, Apply(s, step).sh, p, s.acts[t]);
    assert Apply(s, step).acts[t] == s.acts[t];
  }

  lemma {:induction false} KeepsRun(s: System, steps: seq<Step>, t: nat, s0: Shared, p: Promise)
    requires Inv(s) && ValidRun(s, steps) && t < |s.acts| && Evolution.Evolves(s0, s.sh)
    requires Keeps(s0, s.sh, p, s.acts[t]) && (p.Asked? ==> Placed(s0, p.taskId))
    ensures Inv(Run(s, steps))
    ensures t < |Run(s, steps).acts| && Keeps(s0, Run(s, steps).sh, p, Run(s, steps).acts[t])
    decreases |steps|
  {
    if steps != [] {
      var next := Apply(s, steps[0]);
      KeepsStep(s, steps[0], t, s0, p);
      Preservation.StepKeepsInv(s, steps[0]);
      Evolution.EvolvesTransitive(s0, s.sh, next.sh);
      KeepsRun(next, steps[1..], t, s0, p);
    }
  }

  // ----- What a thread spawns -----

  /** Closures thread `t` spawns during a run. */
  function SpawnsBy(s: System, steps: seq<Step>, t: nat): nat
    requires ValidRun(s, steps)
    decreases |steps|
  {
    if steps == [] then 0
    else Bit(Spawns(s, steps[0], t)) + SpawnsBy(Apply(s, steps[0]), steps[1..], t)
  }

  predicate Spawns(s: System, step: Step, t: nat)
    requires Enabled(s, step)
  {
    step.Go? && step.t == t && Advance(s.sh, s.acts[t], step.completion).spawned
  }

  /** Past the locked region that decides what to spawn. */
  predicate Decided(a: Act) {
    !a.Calling? && !a.Closure? && !a.Taken? && !a.Working? && !a.Ran?
  }

  /** Closures a thread has promised and not spawned. */
  function Owed(a: Act): nat {
    match a
    case Dispatching(_, left) => left
    case Respawning => 1
    case Publishing(_, _, k) => Bit(k.Respawn?)
    case PublishingEnd(_, k) => Bit(k.Respawn?)
    case _ => 0
  }

  lemma OwnSpawn(sh: Shared, a: Act, completion: TaskStatus, n: Next)
    requires Fits(sh, a) && Decided(a) && n == Advance(sh, a, completion)
    ensures Decided(n.act) && Owed(n.act) + Bit(n.spawned) == Owed(a)
  {
  }

  lemma OwnAct(s: System, t: nat, completion: TaskStatus)
    requires Enabled(s, Go(t, completion)) && Decided(s.acts[t])
    ensures var s' := Apply(s, Go(t, completion));
            && t < |s'.acts| && Decided(s'.acts[t])
            && Owed(s'.acts[t]) + Bit(Spawns(s, Go(t, completion), t)) == Owed(s.acts[t])
  {
    OwnSpawn(s.sh, s.acts[t], completion, Advance(s.sh, s.acts[t], completion));
  }

  lemma {:induction false} SpawnsRun(s: System, steps: seq<Step>, t: nat)
    requires ValidRun(s, steps) && t < |s.acts| && Decided(s.acts[t])
    ensures var s' := Run(s, steps);
            t < |s'.acts| && SpawnsBy(s, steps, t) + Owed(s'.acts[t]) == Owed(s.acts[t])
    decreases |steps|
  {
    if steps != [] {
      var next := Apply(s, steps[0]);
      if steps[0].Go? && steps[0].t == t { OwnAct(s, t, steps[0].completion); }
      assert (steps[0].Go? && steps[0].t == t) || next.acts[t] == s.acts[t];
      SpawnsRun(next, steps[1..], t);
    }
  }

  // ----- The answers -----

  lemma Decides(s: System, t: nat, n: Next, p: Promise, steps: seq<Step>)
    requires Enabled(s, Go(t, Pending)) && n == Advance(s.sh, s.acts[t], Pending)
    requires ValidRun(Apply(s, Go(t, Pending)), steps)
    requires Inv(s) && Keeps(s.sh, n.sh, p, n.act) && (p.Asked? ==> Placed(s.sh, p.taskId))
    ensures var s' := Run(Apply(s, Go(t, Pending)), steps);
            Inv(s') && t < |s'.acts| && Keeps(s.sh, s'.sh, p, s'.acts[t])
  {
    OwnLands(s, t, Pending, n);
    Preservation.StepKeepsInv(s, Go(t, Pending));
    KeepsRun(Apply(s, Go(t, Pending)), steps, t, s.sh, p);
  }

  /** By the time it returns a thread has spawned what it owed after its decision. */
  lemma AllSpawned(s: System, t: nat, n: Next, steps: seq<Step>)
    requires Enabled(s, Go(t, Pending)) && n == Advance(s.sh, s.acts[t], Pending) && Decided(n.act)
    requires ValidRun(Apply(s, Go(t, Pending)), steps)
    ensures var s1 := Apply(s, Go(t, Pending));
            var s' := Run(s1, steps);
            t < |s'.acts| && (s'.acts[t].Returned? ==> SpawnsBy(s1, steps, t) == Owed(n.act))
  {
    SpawnsRun(Apply(s, Go(t, Pending)), steps, t);
  }

  /** Closures a submission must spawn: one for each queued task, as far as workers are free. */
  function Dispatches(inner: Inner<nat>, threads: nat): nat {
    if inner.scheduled >= threads then 0
    else if |inner.queue| + 1 <= threads - inner.scheduled then |inner.queue| + 1
    else threads - inner.scheduled
  }

  /** What a submission that takes the lock at `sh` must answer. */
  function SubmitAnswer(sh: Shared, capacity: nat): Outcome {
    if sh.inner.lifecycle != Running then Refused(SubmissionError.Shutdown)
    else if |sh.inner.queue| + |sh.inner.runningTasks| + |sh.inner.cancelling| >= capacity then Refused(Saturated)
    else if |sh.admitted| >= MAX_USIZE then SubmitPanicked
    else Submitted(|sh.admitted|)
  }

  lemma SubmitDecides(sh: Shared, capacity: nat, threads: nat)
    requires sh.inner.taskCapacity == capacity && sh.inner.numThreads == threads
    requires sh.inner.running == |sh.inner.runningTasks| && |sh.admitted| == sh.inner.nextTaskId
    requires sh.inner.nextTaskId !in sh.inner.queue
    ensures var n := BeginSubmit(sh);
            var out := SubmitAnswer(sh, capacity);
            && Decided(n.act)
            && (out.Submitted? ==>
                  && Keeps(sh, n.sh, Submission(|sh.admitted|), n.act) && Owed(n.act) == Dispatches(sh.inner, threads)
                  && n.sh.admitted == sh.admitted + [|sh.jobs|])
            && (!out.Submitted? ==> Keeps(sh, n.sh, Refusal(out), n.act) && Owed(n.act) == 0)
  {
    AddKey(sh.inner.queue, sh.inner.nextTaskId, |sh.jobs|);
  }

  /**
   A submission that returns was refused as shut down exactly if admission had
   ended when it took the lock, as saturated exactly if every slot was taken, and
   panicked exactly if the ids were used up. Otherwise it returns the next id,
   under which its own job was admitted, and it has spawned one closure for each
   task then queued, as far as workers were free; a refused one has spawned none.
   */
  lemma SubmitAnswers(s: System, capacity: nat, threads: nat, t: nat, steps: seq<Step>)
    requires ReachableWith(s, capacity, threads) && Enabled(s, Go(t, Pending)) && s.acts[t] == Calling(Submit)
    requires ValidRun(Apply(s, Go(t, Pending)), steps)
    ensures var s1 := Apply(s, Go(t, Pending));
            var s' := Run(s1, steps);
            var out := SubmitAnswer(s.sh, capacity);
            t < |s'.acts| && (s'.acts[t].Returned? ==>
              && s'.acts[t].out == out
              && SpawnsBy(s1, steps, t) == (if out.Submitted? then Dispatches(s.sh.inner, threads) else 0)
              && (out.Submitted? ==> out.taskId < |s'.sh.admitted| && s'.sh.admitted[out.taskId] == |s.sh.jobs|))
  {
    Preservation.ConfiguredAs(s, capacity, threads);
    var n := Advance(s.sh, s.acts[t], Pending);
    var out := SubmitAnswer(s.sh, capacity);
    SubmitReady(s, t, capacity, threads, n);
    AllSpawned(s, t, n, steps);
    SubmitReturns(s, t, out, n, steps);
    AdmittedStays(s, t, steps);
  }

  lemma SubmitReady(s: System, t: nat, capacity: nat, threads: nat, n: Next)
    requires Inv(s) && Enabled(s, Go(t, Pending)) && s.acts[t] == Calling(Submit)
    requires s.sh.inner.taskCapacity == capacity && s.sh.inner.numThreads == threads
    requires n == Advance(s.sh, s.acts[t], Pending)
    ensures var out := SubmitAnswer(s.sh, capacity);
            && Decided(n.act)
            && (out.Submitted? ==>
                  && Keeps(s.sh, n.sh, Submission(out.taskId), n.act) && Owed(n.act) == Dispatches(s.sh.inner, threads)
                  && n.sh.admitted == s.sh.admitted + [|s.sh.jobs|] && out.taskId == |s.sh.admitted|)
            && (!out.Submitted? ==> Keeps(s.sh, n.sh, Refusal(out), n.act) && Owed(n.act) == 0)
  {
    LiveSplit(s.sh.inner, s.sh.inner.nextTaskId);
    SubmitDecides(s.sh, capacity, threads);
  }

  lemma SubmitReturns(s: System, t: nat, out: Outcome, n: Next, steps: seq<Step>)
    requires Inv(s) && Enabled(s, Go(t, Pending)) && n == Advance(s.sh, s.acts[t], Pending)
    requires ValidRun(Apply(s, Go(t, Pending)), steps)
    requires out.Submitted? ==> Keeps(s.sh, n.sh, Submission(out.taskId), n.act)
    requires !out.Submitted? ==> Keeps(s.sh, n.sh, Refusal(out), n.act)
    ensures var s' := Run(Apply(s, Go(t, Pending)), steps);
            t < |s'.acts| && (s'.acts[t].Returned? ==> s'.acts[t].out == out)
  {
    Decides(s, t, n, if out.Submitted? then Submission(out.taskId) else Refusal(out), steps);
  }

  lemma AdmittedStays(s: System, t: nat, steps: seq<Step>)
    requires Inv(s) && Enabled(s, Go(t, Pending)) && ValidRun(Apply(s, Go(t, Pending)), steps)
    ensures Apply(s, Go(t, Pending)).sh.admitted <= Run(Apply(s, Go(t, Pending)), steps).sh.admitted
  {
    Preservation.StepKeepsInv(s, Go(t, Pending));
    Preservation.RunKeepsInv(Apply(s, Go(t, Pending)), steps);
  }

  /**
   A worker that leaves `run` promises a successor exactly if a task is queued
   when it takes the lock; it gives its reservation back exactly otherwise; and
   when its closure returns it has spawned that one successor or none.
   */
  lemma WorkerAnswers(s: System, t: nat, steps: seq<Step>)
    requires Reachable(s) && Enabled(s, Go(t, Pending)) && s.acts[t].Ran?
    requires ValidRun(Apply(s, Go(t, Pending)), steps)
    ensures var s1 := Apply(s, Go(t, Pending));
            var s' := Run(s1, steps);
            && s1.sh.inner.scheduled == s.sh.inner.scheduled - Bit(s.sh.inner.queue == map[])
            && t < |s'.acts|
            && (s'.acts[t].Returned? ==>
                  s'.acts[t].out == WorkerDone && SpawnsBy(s1, steps, t) == Bit(s.sh.inner.queue != map[]))
  {
    Preservation.ReachableInv(s);
    var n := Advance(s.sh, s.acts[t], Pending);
    FinishDecides(s, t, n);
    AllSpawned(s, t, n, steps);
    FinishReturns(s, t, n, s.sh.inner.queue != map[], steps);
  }

  lemma FinishReturns(s: System, t: nat, n: Next, more: bool, steps: seq<Step>)
    requires Inv(s) && Enabled(s, Go(t, Pending)) && n == Advance(s.sh, s.acts[t], Pending)
    requires ValidRun(Apply(s, Go(t, Pending)), steps) && Keeps(s.sh, n.sh, Finishing(more), n.act)
    ensures var s' := Run(Apply(s, Go(t, Pending)), steps);
            t < |s'.acts| && (s'.acts[t].Returned? ==> s'.acts[t].out == WorkerDone)
  {
    Decides(s, t, n, Finishing(more), steps);
  }

  lemma FinishDecides(s: System, t: nat, n: Next)
    requires Inv(s) && Enabled(s, Go(t, Pending)) && s.acts[t].Ran? && n == Advance(s.sh, s.acts[t], Pending)
    ensures var more := s.sh.inner.queue != map[];
            && Keeps(s.sh, n.sh, Finishing(more), n.act) && Decided(n.act) && Owed(n.act) == Bit(more)
            && n.sh.inner.scheduled == s.sh.inner.scheduled - Bit(!more)
  {
    HoldsAny(s, t);
    FinishRunningKeepsValid(s.sh.inner, s.acts[t].claim.id);
  }

  /**
   A thread anywhere inside `subscribe_termination` or `await_termination` on a
   terminated service is told: when it returns the termination value is set, and a
   mere subscription has reported that it saw termination.
   */
  lemma SubscriberTold(s: System, t: nat, wait: bool, steps: seq<Step>)
    requires Reachable(s) && ValidRun(s, steps) && t < |s.acts| && s.sh.inner.IsTerminated()
    requires s.acts[t] == Calling(SubscribeTermination(wait)) || s.acts[t] == Subscribed(wait)
    ensures var s' := Run(s, steps);
            t < |s'.acts| && (s'.acts[t].Returned? ==>
              s'.sh.terminationValue && s'.acts[t].out == if wait then AwaitDone else SubscribeDone(true))
  {
    Preservation.ReachableInv(s);
    Evolution.EvolvesReflexive(s.sh);
    KeepsRun(s, steps, t, s.sh, Told(wait));
  }

  /**
   A subscriber that checks a live service reports that it saw no termination; one
   that waits returns only once the termination value is set.
   */
  lemma SubscriberUntold(s: System, t: nat, wait: bool, steps: seq<Step>)
    requires Reachable(s) && Enabled(s, Go(t, Pending)) && ValidRun(Apply(s, Go(t, Pending)), steps)
    requires s.acts[t] == Subscribed(wait) && !s.sh.inner.IsTerminated()
    ensures var s' := Run(Apply(s, Go(t, Pending)), steps);
            t < |s'.acts| && (s'.acts[t].Returned? ==>
              if wait then s'.sh.terminationValue && s'.acts[t].out == AwaitDone
              else s'.acts[t].out == SubscribeDone(false))
  {
    Preservation.ReachableInv(s);
    Decides(s, t, Advance(s.sh, s.acts[t], Pending), Untold(wait), steps);
  }

  /** `shutdown` ends admission in its locked region and returns as such. */
  lemma ShutdownAnswers(s: System, t: nat, steps: seq<Step>)
    requires Reachable(s) && Enabled(s, Go(t, Pending)) && s.acts[t] == Calling(Call.Shutdown)
    requires ValidRun(Apply(s, Go(t, Pending)), steps)
    ensures var s1 := Apply(s, Go(t, Pending));
            var s' := Run(s1, steps);
            && s1.sh.inner.lifecycle == (if s.sh.inner.lifecycle == Running then ShuttingDown else s.sh.inner.lifecycle)
            && t < |s'.acts| && (s'.acts[t].Returned? ==> s'.acts[t].out == ShutdownDone)
  {
    Preservation.ReachableInv(s);
    Decides(s, t, Advance(s.sh, s.acts[t], Pending), Closing, steps);
  }

  /**
   A cancellation that could not claim its task, asked at `s` and returned at `s'`,
   claims nothing and answers for its own endpoint. The handle goes by the status:
   `AlreadyFinished` if it was terminal when asked, `AlreadyRunning` if it still is
   not when answered. The endpoint goes by the running tasks: `AlreadyFinished` if
   the task was not among them when asked, `AlreadyRunning` if it still is when
   answered. In between either answer was true at some moment.
   */
  lemma CancelAnswers(s: System, t: nat, id: nat, via: Via, steps: seq<Step>)
    requires Reachable(s) && Enabled(s, Go(t, Pending)) && s.acts[t] == Calling(Cancel(id, via))
    requires id !in s.sh.inner.queue && id !in s.sh.inner.cancelling
    requires ValidRun(Apply(s, Go(t, Pending)), steps)
    ensures var s' := Run(Apply(s, Go(t, Pending)), steps);
            && Known(s.sh, id) && Known(s'.sh, id) && t < |s'.acts|
            && (s'.acts[t].Returned? ==>
                  && s'.acts[t].out.CancelDone? && s'.acts[t].out.taskId == id && !s'.acts[t].out.owned
                  && var r := s'.acts[t].out.result;
                     && (r == AlreadyRunning || r == AlreadyFinished)
                     && (via == Handle && StatusOf(s.sh, id).Terminal() ==> r == AlreadyFinished)
                     && (via == Handle && !StatusOf(s'.sh, id).Terminal() ==> r == AlreadyRunning)
                     && (via == Endpoint && id !in s.sh.inner.runningTasks ==> r == AlreadyFinished)
                     && (via == Endpoint && id in s'.sh.inner.runningTasks ==> r == AlreadyRunning))
  {
    Preservation.ReachableInv(s);
    UnclaimedIsPlaced(s, t, id, via);
    Decides(s, t, Advance(s.sh, s.acts[t], Pending), Asked(id, via), steps);
    var s' := Run(Apply(s, Go(t, Pending)), steps);
    KnownStays(s, t, steps, id);
    FairDecides(s.sh, s'.sh, id, via);
  }

  lemma UnclaimedIsPlaced(s: System, t: nat, id: nat, via: Via)
    requires Inv(s) && Enabled(s, Go(t, Pending)) && s.acts[t] == Calling(Cancel(id, via))
    requires id !in s.sh.inner.queue && id !in s.sh.inner.cancelling
    ensures Placed(s.sh, id) && Advance(s.sh, s.acts[t], Pending).act == Unclaimed(id, via)
  {
    PlacesSplit(s.sh, id);
  }

  lemma KnownStays(s: System, t: nat, steps: seq<Step>, id: nat)
    requires Inv(s) && Enabled(s, Go(t, Pending)) && ValidRun(Apply(s, Go(t, Pending)), steps) && Known(s.sh, id)
    ensures Known(Run(Apply(s, Go(t, Pending)), steps).sh, id)
  {
    AdmittedStays(s, t, steps);
    Preservation.StepKeepsInv(s, Go(t, Pending));
    Preservation.RunKeepsInv(Apply(s, Go(t, Pending)), steps);
  }

  lemma FairDecides(s0: Shared, sh: Shared, id: nat, via: Via)
    requires Known(s0, id) && Known(sh, id) && Record(sh)
    ensures Fair(s0, sh, id, via, CancelResult.CancelledNow) == false
    ensures via == Handle && StatusOf(s0, id).Terminal() ==> !Fair(s0, sh, id, via, AlreadyRunning)
    ensures via == Handle && !StatusOf(sh, id).Terminal() ==> !Fair(s0, sh, id, via, AlreadyFinished)
    ensures via == Endpoint && id !in s0.inner.runningTasks ==> !Fair(s0, sh, id, via, AlreadyRunning)
    ensures via == Endpoint && id in sh.inner.runningTasks ==> !Fair(s0, sh, id, via, AlreadyFinished)
  {
    PlacesSplit(sh, id);
  }
}
