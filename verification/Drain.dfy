/**
 Progress: how many actions a service can still perform, and where it comes to rest.

 Only the steps of API calls and worker closures are counted; a termination
 waiter may wake spuriously as often as it likes.
 */
module Drain {
  import opened Basics
  import opened Counts
  import opened Invariant
  import opened ServiceInner
  import opened Threads

  import Carriers
  import Preservation

  function RemainingAfter(k: Cont): nat {
    match k
    case Return(_) => 0
    case Respawn => 4
    case Clean(owned, _) => 5 * |owned|
  }

  /** Bound on the actions a call can cause, with the closures and the task it may bring. */
  function CallCost(call: Call, threads: nat): nat {
    match call
    case Submit => 8 + 4 * threads
    case SubscribeTermination(_) => 4
    case _ => 3
  }

  /** Bound on the actions a thread at `a` can still cause, queued tasks not included. */
  function RemainingAt(a: Act, threads: nat): nat {
    match a
    case Calling(call) => CallCost(call, threads)
    case Dispatching(_, left) => 4 * left
    case Closure => 3
    case Taken(_) => 9
    case Working(_) => 8
    case Ran(_) => 7
    case Publishing(_, _, k) => RemainingAfter(k) + 2
    case PublishingEnd(_, k) => RemainingAfter(k) + 1
    case Respawning => 4
    case Cancelling(owned, _) => 5 * |owned|
    case CleaningUp(owned, _) => SaturatingSub(5 * |owned|, 1)
    case Cleaned(owned, _) => SaturatingSub(5 * |owned|, 2)
    case Unclaimed(_, via) => if via == Handle then 1 else 2
    case Fallback(_) => 1
    case Subscribed(_) => 3
    case Repairing(_) => 2
    case Awaiting => 1
    case Returned(_) => 0
  }

  function Remaining(acts: seq<Act>, threads: nat): nat {
    if acts == [] then 0
    else Remaining(acts[..|acts| - 1], threads) + RemainingAt(acts[|acts| - 1], threads)
  }

  function Potential(s: System): nat {
    7 * |s.sh.inner.queue| + Remaining(s.acts, s.sh.inner.numThreads)
  }

  lemma RemainingAppend(acts: seq<Act>, a: Act, threads: nat)
    ensures Remaining(acts + [a], threads) == Remaining(acts, threads) + RemainingAt(a, threads)
  {
    assert (acts + [a])[..|acts|] == acts;
  }

  lemma {:induction false} RemainingUpdate(acts: seq<Act>, t: nat, a: Act, threads: nat)
    requires t < |acts|
    ensures Remaining(acts[t := a], threads) - Remaining(acts, threads)
         == RemainingAt(a, threads) - RemainingAt(acts[t], threads)
    decreases |acts|
  {
    var last := |acts| - 1;
    if t == last {
      assert acts[t := a][..last] == acts[..last];
    } else {
      RemainingUpdate(acts[..last], t, a, threads);
      assert acts[t := a][..last] == acts[..last][t := a];
    }
  }

  /** What an action consumes is more than what it leaves to do. */
  ghost predicate Consumes(sh: Shared, a: Act, n: Next) {
    var threads := sh.inner.numThreads;
    7 * |n.sh.inner.queue| + RemainingAt(n.act, threads) + 3 * Bit(n.spawned)
    < 7 * |sh.inner.queue| + RemainingAt(a, threads)
  }

  lemma SubmitConsumes(sh: Shared, n: Next)
    requires n == BeginSubmit(sh) && sh.inner.nextTaskId !in sh.inner.queue
    ensures Consumes(sh, Calling(Submit), n)
  {
    AddKey(sh.inner.queue, sh.inner.nextTaskId, |sh.jobs|);
  }

  lemma CancelConsumes(sh: Shared, id: nat, via: Via, n: Next)
    requires n == BeginCancel(sh, id, via)
    ensures Consumes(sh, Calling(Cancel(id, via)), n)
  {
    if id in sh.inner.queue {
      RemoveKey(sh.inner.queue, id);
      assert n.act == Cancelling([Claim(id, sh.inner.queue[id])], CancelDone(id, CancelledNow, true));
    } else {
      assert n.sh == sh && (n.act.Returned? || n.act == Unclaimed(id, via));
    }
  }

  lemma StopConsumes(sh: Shared, n: Next)
    requires n == BeginStop(sh)
    ensures Consumes(sh, Calling(Call.Stop), n)
  {
    var owned := InOrder(sh.inner.queue);
    assert n.act == Publishing(true, n.act.terminated, Clean(owned, n.act.k.out));
  }

  lemma OtherCallConsumes(sh: Shared, call: Call, n: Next)
    requires (call.Shutdown? || call.SubscribeTermination?) && n == Advance(sh, Calling(call), Pending)
    ensures Consumes(sh, Calling(call), n)
  {
  }

  lemma TakeConsumes(sh: Shared, n: Next)
    requires n == Take(sh)
    ensures Consumes(sh, Closure, n)
  {
    if sh.inner.queue != map[] { RemoveKey(sh.inner.queue, MinOf(sh.inner.queue.Keys)); }
  }

  lemma WorkerConsumes(sh: Shared, a: Act, completion: TaskStatus, n: Next)
    requires a.Taken? || a.Working? || a.Ran? || a.Respawning? || a.Dispatching?
    requires Fits(sh, a) && n == Advance(sh, a, completion)
    ensures Consumes(sh, a, n)
  {
  }

  lemma PublisherConsumes(sh: Shared, a: Act, n: Next)
    requires a.Publishing? || a.PublishingEnd?
    requires Fits(sh, a) && n == Advance(sh, a, Pending)
    ensures Consumes(sh, a, n)
  {
  }

  lemma CleanerConsumes(sh: Shared, a: Act, n: Next)
    requires Cleaner(a) && Fits(sh, a) && n == Advance(sh, a, Pending)
    ensures Consumes(sh, a, n)
  {
  }

  lemma ReaderConsumes(sh: Shared, a: Act, n: Next)
    requires a.Unclaimed? || a.Fallback? || a.Subscribed? || a.Repairing? || a.Awaiting?
    requires Fits(sh, a) && n == Advance(sh, a, Pending)
    ensures Consumes(sh, a, n)
  {
  }

  lemma ActionConsumes(s: System, t: nat, completion: TaskStatus, n: Next)
    requires Inv(s) && Enabled(s, Go(t, completion)) && n == Advance(s.sh, s.acts[t], completion)
    ensures Consumes(s.sh, s.acts[t], n)
  {
    var a := s.acts[t];
    match a
    case Calling(Submit) =>
      LiveSplit(s.sh.inner, s.sh.inner.nextTaskId);
      SubmitConsumes(s.sh, n);
    case Calling(Cancel(id, via)) => CancelConsumes(s.sh, id, via, n);
    case Calling(Stop) => StopConsumes(s.sh, n);
    case Calling(call) => OtherCallConsumes(s.sh, call, n);
    case Closure => TakeConsumes(s.sh, n);
    case Taken(_) => WorkerConsumes(s.sh, a, completion, n);
    case Working(_) => WorkerConsumes(s.sh, a, completion, n);
    case Ran(_) => WorkerConsumes(s.sh, a, completion, n);
    case Respawning => WorkerConsumes(s.sh, a, completion, n);
    case Dispatching(_, _) => WorkerConsumes(s.sh, a, completion, n);
    case Publishing(_, _, _) => PublisherConsumes(s.sh, a, n);
    case PublishingEnd(_, _) => PublisherConsumes(s.sh, a, n);
    case Cancelling(_, _) => CleanerConsumes(s.sh, a, n);
    case CleaningUp(_, _) => CleanerConsumes(s.sh, a, n);
    case Cleaned(_, _) => CleanerConsumes(s.sh, a, n);
    case _ => ReaderConsumes(s.sh, a, n);
  }

  /** Every action of a thread strictly lowers the potential. */
  lemma GoDecreases(s: System, t: nat, completion: TaskStatus)
    requires Inv(s) && Enabled(s, Go(t, completion))
    ensures Potential(Apply(s, Go(t, completion))) < Potential(s)
  {
    var n := Advance(s.sh, s.acts[t], completion);
    ActionConsumes(s, t, completion, n);
    Preservation.GoKeepsInv(s, t, completion);
    RemainingStep(s.acts, t, n.act, n.spawned, s.sh.inner.numThreads);
  }

  lemma RemainingStep(acts: seq<Act>, t: nat, a: Act, spawned: bool, threads: nat)
    requires t < |acts|
    ensures Remaining(Spawn(acts[t := a], spawned), threads) - Remaining(acts, threads)
         == RemainingAt(a, threads) - RemainingAt(acts[t], threads) + 3 * Bit(spawned)
  {
    RemainingUpdate(acts, t, a, threads);
    RemainingAppend(acts[t := a], Closure, threads);
  }

  /** Actions of threads in a run. */
  function ActionsIn(steps: seq<Step>): nat
    decreases |steps|
  {
    if steps == [] then 0 else Bit(steps[0].Go?) + ActionsIn(steps[1..])
  }

  /** What the calls entered during a run may add. */
  function Calls(steps: seq<Step>, threads: nat): nat
    decreases |steps|
  {
    if steps == [] then 0
    else (if steps[0].Start? then CallCost(steps[0].call, threads) else 0) + Calls(steps[1..], threads)
  }

  lemma StepBudget(s: System, step: Step)
    requires Inv(s) && Enabled(s, step)
    ensures var s' := Apply(s, step);
            Potential(s') + Bit(step.Go?)
            <= Potential(s) + (if step.Start? then CallCost(step.call, s.sh.inner.numThreads) else 0)
  {
    match step
    case Start(call) => RemainingAppend(s.acts, Calling(call), s.sh.inner.numThreads);
    case Go(t, completion) => GoDecreases(s, t, completion);
    case _ =>
  }

  /**
   Bounded work: in any run, whatever the interleaving and the lifecycle, the
   actions performed plus those still possible never exceed those possible at
   the start plus a fixed cost per call entered meanwhile.
   */
  lemma {:induction false} BoundedWork(s: System, steps: seq<Step>)
    requires Inv(s) && ValidRun(s, steps)
    ensures ActionsIn(steps) + Potential(Run(s, steps)) <= Potential(s) + Calls(steps, s.sh.inner.numThreads)
    decreases |steps|
  {
    if steps != [] {
      StepBudget(s, steps[0]);
      Preservation.StepKeepsInv(s, steps[0]);
      BoundedWork(Apply(s, steps[0]), steps[1..]);
    }
  }

  // ----- Where a service rests -----

  /** No API call and no worker closure has an action left. */
  ghost predicate Quiescent(s: System) {
    forall t | 0 <= t < |s.acts| :: !CanAdvance(s.sh, s.acts[t])
  }

  ghost predicate NothingPending(x: Load) {
    && x.promised == 0 && x.pooled == 0 && x.working == 0 && x.succeeding == 0
    && x.signalling == 0 && x.announcing == 0
  }

  lemma NothingPendingAdd(x: Load, y: Load)
    requires NothingPending(x) && NothingPending(y)
    ensures NothingPending(AddLoad(x, y))
  {
  }

  lemma RestingAct(sh: Shared, a: Act)
    requires !CanAdvance(sh, a)
    ensures NothingPending(LoadOf(a))
  {
  }

  lemma {:induction false} RestingLoad(sh: Shared, acts: seq<Act>)
    requires forall t | 0 <= t < |acts| :: !CanAdvance(sh, acts[t])
    ensures NothingPending(Loads(acts))
    decreases |acts|
  {
    if acts != [] {
      var last := |acts| - 1;
      RestingLoad(sh, acts[..last]);
      RestingAct(sh, acts[last]);
      NothingPendingAdd(Loads(acts[..last]), LoadOf(acts[last]));
    }
  }

  lemma RestingGrip(s: System, id: nat)
    requires Quiescent(s)
    ensures Carriers.Loose(Grips(s.acts, id))
  {
    forall t | 0 <= t < |s.acts| ensures !Carriers.Carries(s.acts[t]) {
      if Carriers.Carries(s.acts[t]) { Carriers.CarrierAdvances(s.sh, s.acts[t]); }
    }
    Carriers.FreeOfTasks(s.acts, id);
  }

  lemma EmptySet(s: set<nat>)
    requires forall id: nat :: id !in s
    ensures s == {}
  {
  }

  /**
   No stranded work: a reachable service whose threads have nothing left to do
   has no accepted task left and no reservation outstanding, and has published
   every signal. If admission has ended it is terminated, its termination value
   is set, every call has returned, and nobody is parked.
   */
  lemma QuiescentIsIdle(s: System)
    requires Inv(s) && Quiescent(s)
    ensures s.sh.inner.Occupied() == 0 && s.sh.inner.scheduled == 0
    ensures s.sh.capacityVersion == s.sh.signals
    ensures s.sh.inner.lifecycle != Running ==>
            && s.sh.inner.IsTerminated() && s.sh.terminationValue
            && (forall t | 0 <= t < |s.acts| :: s.acts[t].Returned?)
            && (forall w | 0 <= w < |s.sh.waiters| :: !s.sh.waiters[w].Parked?)
  {
    RestingLoad(s.sh, s.acts);
    forall id: nat ensures id !in s.sh.inner.cancelling {
      assert Ownership(s.sh, s.acts, id);
      RestingGrip(s, id);
    }
    EmptySet(s.sh.inner.cancelling);
  }

  /** At rest every admitted job has been accepted once and either run once or cancelled once. */
  lemma QuiescentIsComplete(s: System, id: nat)
    requires Inv(s) && Quiescent(s) && Known(s.sh, id)
    ensures var r := s.sh.jobs[s.sh.admitted[id]];
            r.accepts == 1 && r.runs + r.cancels == 1 && r.status.Terminal()
  {
    QuiescentIsIdle(s);
    RestingGrip(s, id);
    PlacesSplit(s.sh, id);
    assert JobOk(s.sh, s.acts, id);
  }

  /** A thread that can act has an enabled step. */
  lemma ActionEnabled(s: System, t: nat)
    requires Inv(s) && t < |s.acts| && CanAdvance(s.sh, s.acts[t])
    ensures Enabled(s, Go(t, Succeeded))
  {
    assert ActOk(s.sh, s.acts[t]);
  }

  lemma SomeAction(s: System) returns (step: Step)
    requires Inv(s) && !Quiescent(s)
    ensures step.Go? && Enabled(s, step)
    ensures Inv(Apply(s, step)) && Potential(Apply(s, step)) < Potential(s)
  {
    var t :| 0 <= t < |s.acts| && CanAdvance(s.sh, s.acts[t]);
    ActionEnabled(s, t);
    step := Go(t, Succeeded);
    GoDecreases(s, t, Succeeded);
    Preservation.GoKeepsInv(s, t, Succeeded);
  }

  lemma RunPrepend(s: System, step: Step, rest: seq<Step>)
    requires Enabled(s, step) && ValidRun(Apply(s, step), rest)
    ensures ValidRun(s, [step] + rest) && Run(s, [step] + rest) == Run(Apply(s, step), rest)
  {
    assert ([step] + rest)[1..] == rest;
  }

  predicate OnlyGo(steps: seq<Step>) {
    forall i | 0 <= i < |steps| :: steps[i].Go?
  }

  lemma OnlyGoPrepend(step: Step, rest: seq<Step>)
    requires step.Go? && OnlyGo(rest)
    ensures OnlyGo([step] + rest)
  {
  }

  /**
   Progress: from every reachable state, letting the threads already inside the
   service act leads to rest within the potential, without any further call.
   */
  lemma {:induction false} ReachesRest(s: System) returns (steps: seq<Step>)
    requires Inv(s)
    ensures ValidRun(s, steps) && Quiescent(Run(s, steps)) && |steps| <= Potential(s)
    ensures OnlyGo(steps)
    decreases Potential(s)
  {
    if Quiescent(s) {
      steps := [];
    } else {
      var step := SomeAction(s);
      var rest := ReachesRest(Apply(s, step));
      steps := [step] + rest;
      RunPrepend(s, step, rest);
      OnlyGoPrepend(step, rest);
    }
  }

  /** A run that enters no call costs nothing but its actions. */
  lemma {:induction false} OnlyActions(steps: seq<Step>, threads: nat)
    requires OnlyGo(steps)
    ensures ActionsIn(steps) == |steps| && Calls(steps, threads) == 0
    decreases |steps|
  {
    if steps != [] { OnlyActions(steps[1..], threads); }
  }

  lemma QuiescentUnlessEnabled(s: System)
    requires Inv(s) && forall step: Step | step.Go? :: !Enabled(s, step)
    ensures Quiescent(s)
  {
    forall t | 0 <= t < |s.acts| ensures !CanAdvance(s.sh, s.acts[t]) {
      if CanAdvance(s.sh, s.acts[t]) {
        ActionEnabled(s, t);
      }
    }
  }

  /**
   Whatever the schedule, the threads inside come to rest: letting them act in
   any order takes at most `Potential(s)` actions, and when none of them can act
   any more no task, reservation or unpublished signal is left, and every
   admitted job has been run once or cancelled once.
   */
  lemma EveryScheduleRests(s: System, steps: seq<Step>)
    requires Reachable(s) && ValidRun(s, steps) && OnlyGo(steps)
    ensures var s' := Run(s, steps);
            && |steps| + Potential(s') <= Potential(s)
            && ((forall step: Step | step.Go? :: !Enabled(s', step)) ==>
                && s'.sh.inner.Occupied() == 0 && s'.sh.inner.scheduled == 0
                && s'.sh.capacityVersion == s'.sh.signals
                && forall id: nat | Known(s'.sh, id) ::
                     var r := s'.sh.jobs[s'.sh.admitted[id]];
                     r.accepts == 1 && r.runs + r.cancels == 1 && r.status.Terminal())
  {
    Preservation.ReachableInv(s);
    Preservation.RunKeepsInv(s, steps);
    BoundedWork(s, steps);
    OnlyActions(steps, s.sh.inner.numThreads);
    var s' := Run(s, steps);
    if forall step: Step | step.Go? :: !Enabled(s', step) {
      QuiescentUnlessEnabled(s');
      QuiescentIsIdle(s');
      forall id: nat | Known(s'.sh, id)
        ensures var r := s'.sh.jobs[s'.sh.admitted[id]];
                r.accepts == 1 && r.runs + r.cancels == 1 && r.status.Terminal()
      {
        QuiescentIsComplete(s', id);
      }
    }
  }
}
