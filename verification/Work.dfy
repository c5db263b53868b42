/**
 Drain: the measure that every step of work lowers once admission has ended,
 whatever else is called meanwhile.
 */
module Work {
  import opened Basics
  import opened Counts
  import opened Invariant
  import opened ServiceInner
  import opened Threads

  import Actions
  import Carriers
  import Drain
  import Preservation

  /** Work left for the tasks and closures of the service. */
  function Measure(sh: Shared, x: Load): nat {
    3 * |sh.inner.queue| + 3 * sh.inner.running + |sh.inner.cancelling|
    + 2 * x.promised + 2 * x.succeeding + x.pooled
  }

  function WorkLeft(s: System): nat {
    Measure(s.sh, Loads(s.acts))
  }

  /** Actions carriers can still perform. */
  function Effort(s: System): nat {
    5 * WorkLeft(s) + Loads(s.acts).lag
  }

  /**
   A step of work: a worker, spawn or cleanup step, or a claim that takes at
   least one task out of the queue.
   */
  predicate Works(sh: Shared, a: Act) {
    match a
    case Calling(Cancel(id, _)) => id in sh.inner.queue
    case Calling(Stop) => sh.inner.queue != map[]
    case _ => a.Dispatching? || a.Closure? || a.Ran? || a.Respawning? || a.Cleaned?
  }

  /** What an action does to the measure and to the acting thread's lag. */
  ghost predicate Pays(sh: Shared, a: Act, n: Next) {
    var x, y := LoadOf(a), LoadOf(n.act);
    var change := 3 * (|n.sh.inner.queue| - |sh.inner.queue|) + 3 * (n.sh.inner.running - sh.inner.running)
                  + |n.sh.inner.cancelling| - |sh.inner.cancelling|
                  + 2 * (y.promised - x.promised) + 2 * (y.succeeding - x.succeeding)
                  + y.pooled - x.pooled + Bit(n.spawned);
    if Works(sh, a) then change <= -1 && y.lag <= x.lag + 4
    else change == 0 && y.lag + Bit(Carriers.Carries(a)) == x.lag
  }

  // ----- One lemma per locked region -----

  lemma SubmitPays(sh: Shared, n: Next)
    requires sh.inner.lifecycle != Running && n == BeginSubmit(sh)
    ensures Pays(sh, Calling(Submit), n)
  {
  }

  lemma CancelPays(sh: Shared, id: nat, via: Via, n: Next)
    requires sh.inner.queue.Keys !! sh.inner.cancelling && n == BeginCancel(sh, id, via)
    ensures Pays(sh, Calling(Cancel(id, via)), n)
  {
    if id in sh.inner.queue {
      RemoveKey(sh.inner.queue, id);
      assert |sh.inner.cancelling + {id}| == |sh.inner.cancelling| + 1;
      assert n.act == Cancelling([Claim(id, sh.inner.queue[id])], CancelDone(id, CancelledNow, true));
    } else {
      assert n.sh == sh && (n.act.Returned? || n.act == Unclaimed(id, via));
    }
  }

  /** Stated for any list with as many entries as tasks were queued, as `stop` builds it. */
  lemma StopPays(sh: Shared, n: Next, owned: seq<Claim<nat>>)
    requires n.act.Publishing? && n.act.k.Clean? && n.act.k.owned == owned && !n.spawned
    requires |owned| == |sh.inner.queue| && n.sh.inner.queue == map[] && n.sh.inner.running == sh.inner.running
    requires |n.sh.inner.cancelling| == |sh.inner.cancelling| + |sh.inner.queue|
    ensures Pays(sh, Calling(Call.Stop), n)
  {
  }

  lemma OtherCallPays(sh: Shared, call: Call, n: Next)
    requires (call.Shutdown? || call.SubscribeTermination?) && n == Advance(sh, Calling(call), Pending)
    ensures Pays(sh, Calling(call), n)
  {
  }

  lemma TakePays(sh: Shared, n: Next)
    requires n == Take(sh)
    ensures Pays(sh, Closure, n)
  {
    if sh.inner.queue != map[] { RemoveKey(sh.inner.queue, MinOf(sh.inner.queue.Keys)); }
  }

  lemma FinishPays(sh: Shared, c: Claim<nat>, n: Next)
    requires sh.inner.running >= 1 && n == Finish(sh, c)
    ensures Pays(sh, Ran(c), n)
  {
  }

  lemma ReleasePays(sh: Shared, owned: seq<Claim<nat>>, out: Outcome, n: Next)
    requires owned != [] && owned[0].id in sh.inner.cancelling && n == Release(sh, owned, out)
    ensures Pays(sh, Cleaned(owned, out), n)
  {
    var id := owned[0].id;
    assert |sh.inner.cancelling - {id}| == |sh.inner.cancelling| - 1;
  }

  // ----- The actions outside the lock -----

  lemma SpawnPays(sh: Shared, a: Act, n: Next)
    requires (a.Dispatching? || a.Respawning?) && Fits(sh, a) && n == Advance(sh, a, Pending)
    ensures Pays(sh, a, n)
  {
  }

  lemma OwnerPays(sh: Shared, a: Act, completion: TaskStatus, n: Next)
    requires a.Taken? || a.Working? || a.Cancelling? || a.CleaningUp?
    requires Fits(sh, a) && n == Advance(sh, a, completion)
    ensures Pays(sh, a, n)
  {
  }

  lemma PublisherPays(sh: Shared, a: Act, n: Next)
    requires (a.Publishing? || a.PublishingEnd?) && Fits(sh, a) && n == Advance(sh, a, Pending)
    ensures Pays(sh, a, n)
  {
    assert n.sh.inner == sh.inner && !n.spawned;
    assert n.act == if a.Publishing? then PublishingEnd(a.terminated, a.k) else Resume(a.k);
  }

  lemma ReaderPays(sh: Shared, a: Act, n: Next)
    requires a.Unclaimed? || a.Fallback? || a.Subscribed? || a.Repairing? || a.Awaiting?
    requires Fits(sh, a) && n == Advance(sh, a, Pending)
    ensures Pays(sh, a, n)
  {
    assert n.sh.inner == sh.inner && !n.spawned;
    assert n.act.Returned? || n.act.Fallback? || n.act.Repairing? || n.act.Awaiting?;
    Weightless(a);
    Weightless(n.act);
  }

  /** Control states outside any work. */
  lemma Weightless(a: Act)
    requires a.Returned? || a.Unclaimed? || a.Fallback? || a.Subscribed? || a.Repairing? || a.Awaiting?
    ensures Carriers.Unreserved(LoadOf(a)) && LoadOf(a).lag == 0 && !Carriers.Carries(a)
  {
  }

  lemma CallPays(sh: Shared, call: Call, n: Next)
    requires Record(sh) && sh.inner.lifecycle != Running
    requires Fits(sh, Calling(call)) && n == Advance(sh, Calling(call), Pending)
    ensures Pays(sh, Calling(call), n)
  {
    Actions.QueueApart(sh);
    match call
    case Submit => SubmitPays(sh, n);
    case Cancel(id, via) => CancelPays(sh, id, via, n);
    case Stop =>
      StopKeepsValid(sh.inner);
      StopPays(sh, n, InOrder(sh.inner.queue));
    case _ => OtherCallPays(sh, call, n);
  }

  lemma ActionPays(sh: Shared, a: Act, completion: TaskStatus, n: Next)
    requires Record(sh) && sh.inner.lifecycle != Running
    requires Fits(sh, a) && Holds(sh, a) && !a.Returned? && n == Advance(sh, a, completion)
    ensures Pays(sh, a, n)
  {
    match a
    case Calling(call) => CallPays(sh, call, n);
    case Closure => TakePays(sh, n);
    case Ran(c) => RunningSlot(sh.inner, c.id); FinishPays(sh, c, n);
    case Cleaned(owned, out) => ReleasePays(sh, owned, out, n);
    case Dispatching(_, _) => SpawnPays(sh, a, n);
    case Respawning => SpawnPays(sh, a, n);
    case Taken(_) => OwnerPays(sh, a, completion, n);
    case Working(_) => OwnerPays(sh, a, completion, n);
    case Cancelling(_, _) => OwnerPays(sh, a, completion, n);
    case CleaningUp(_, _) => OwnerPays(sh, a, completion, n);
    case Publishing(_, _, _) => PublisherPays(sh, a, n);
    case PublishingEnd(_, _) => PublisherPays(sh, a, n);
    case _ => ReaderPays(sh, a, n);
  }

  lemma RunningSlot(inner: Inner<nat>, id: nat)
    requires inner.Valid() && id in inner.runningTasks
    ensures inner.running >= 1
  {
  }

  // ----- From one action to any step, and to any run -----

  /** The step does work. */
  predicate DoesWork(s: System, step: Step) {
    step.Go? && step.t < |s.acts| && Works(s.sh, s.acts[step.t])
  }

  /** The step does work, or brings a thread that carries work closer to its next step of work. */
  predicate Carrying(s: System, step: Step) {
    step.Go? && step.t < |s.acts| && (Works(s.sh, s.acts[step.t]) || Carriers.Carries(s.acts[step.t]))
  }

  lemma GoLowers(s: System, t: nat, n: Next)
    requires t < |s.acts| && Pays(s.sh, s.acts[t], n)
    ensures var before, after := WorkLeft(s), Measure(n.sh, Loads(Spawn(s.acts[t := n.act], n.spawned)));
            && (Works(s.sh, s.acts[t]) ==> after < before)
            && (!Works(s.sh, s.acts[t]) ==> after == before)
  {
    LoadsStep(s.acts, t, n.act, n.spawned);
  }

  lemma GoLag(s: System, t: nat, n: Next)
    requires t < |s.acts| && Pays(s.sh, s.acts[t], n)
    ensures var before, after := Loads(s.acts).lag, Loads(Spawn(s.acts[t := n.act], n.spawned)).lag;
            if Works(s.sh, s.acts[t]) then after <= before + 4 else after + Bit(Carriers.Carries(s.acts[t])) == before
  {
    LoadsStep(s.acts, t, n.act, n.spawned);
  }

  /**
   Once admission has ended, the measure falls at every step of work and stays
   the same at every other step, in particular at a repeated `shutdown` or
   `stop`. Any other action of a carrier brings it one action closer to its next
   step of work, which is never more than four away.
   */
  lemma StepLowers(s: System, step: Step)
    requires Inv(s) && s.sh.inner.lifecycle != Running && Enabled(s, step)
    ensures DoesWork(s, step) ==> WorkLeft(Apply(s, step)) < WorkLeft(s)
    ensures !DoesWork(s, step) ==> WorkLeft(Apply(s, step)) == WorkLeft(s)
    ensures Bit(Carrying(s, step)) + Effort(Apply(s, step)) <= Effort(s)
  {
    match step
    case Start(call) => CountsStart(s.acts, call, 0);
    case Go(t, completion) =>
      var n := Advance(s.sh, s.acts[t], completion);
      GoPays(s, t, completion, n);
      GoLowers(s, t, n);
      GoLag(s, t, n);
    case _ =>
  }

  lemma GoPays(s: System, t: nat, completion: TaskStatus, n: Next)
    requires Inv(s) && s.sh.inner.lifecycle != Running && Enabled(s, Go(t, completion))
    requires n == Advance(s.sh, s.acts[t], completion)
    ensures Pays(s.sh, s.acts[t], n)
  {
    HoldsAny(s, t);
    ActionPays(s.sh, s.acts[t], completion, n);
  }

  /** Steps of work in a run. */
  function WorkDone(s: System, steps: seq<Step>): nat
    requires ValidRun(s, steps)
    decreases |steps|
  {
    if steps == [] then 0 else Bit(DoesWork(s, steps[0])) + WorkDone(Apply(s, steps[0]), steps[1..])
  }

  /** Actions of carriers in a run. */
  function EffortSpent(s: System, steps: seq<Step>): nat
    requires ValidRun(s, steps)
    decreases |steps|
  {
    if steps == [] then 0 else Bit(Carrying(s, steps[0])) + EffortSpent(Apply(s, steps[0]), steps[1..])
  }

  lemma {:induction false} RunLowers(s: System, steps: seq<Step>)
    requires Inv(s) && s.sh.inner.lifecycle != Running && ValidRun(s, steps)
    ensures WorkDone(s, steps) + WorkLeft(Run(s, steps)) <= WorkLeft(s)
    ensures EffortSpent(s, steps) + Effort(Run(s, steps)) <= Effort(s)
    decreases |steps|
  {
    if steps != [] {
      StepLowers(s, steps[0]);
      Preservation.StepKeepsInv(s, steps[0]);
      RunLowers(Apply(s, steps[0]), steps[1..]);
    }
  }

  // ----- Drain -----

  lemma DoneOnce(s: System, id: nat)
    requires Inv(s) && s.sh.inner.IsTerminated() && Known(s.sh, id)
    ensures var r := s.sh.jobs[s.sh.admitted[id]];
            r.accepts == 1 && r.runs + r.cancels == 1 && r.status.Terminal()
  {
    PlacesSplit(s.sh, id);
    assert Ownership(s.sh, s.acts, id);
    assert JobOk(s.sh, s.acts, id);
  }

  /** On a terminated service every admitted job has been accepted once and either run once or cancelled once. */
  lemma TerminatedIsComplete(s: System)
    requires Inv(s)
    ensures s.sh.inner.IsTerminated() ==>
              forall id: nat | Known(s.sh, id) ::
                var r := s.sh.jobs[s.sh.admitted[id]];
                r.accepts == 1 && r.runs + r.cancels == 1 && r.status.Terminal()
  {
    forall id: nat | s.sh.inner.IsTerminated() && Known(s.sh, id)
      ensures var r := s.sh.jobs[s.sh.admitted[id]];
              r.accepts == 1 && r.runs + r.cancels == 1 && r.status.Terminal()
    {
      DoneOnce(s, id);
    }
  }

  lemma CarrierUntilTerminated(s: System)
    requires Inv(s) && s.sh.inner.lifecycle != Running
    ensures !s.sh.inner.IsTerminated() ==>
              exists t: nat :: t < |s.acts| && Carriers.Carries(s.acts[t]) && Enabled(s, Go(t, Succeeded))
  {
    if !s.sh.inner.IsTerminated() {
      Carriers.SomeCarrier(s);
      var t: nat :| t < |s.acts| && Carriers.Carries(s.acts[t]);
      Carriers.CarrierAdvances(s.sh, s.acts[t]);
      Drain.ActionEnabled(s, t);
    }
  }

  /**
   Drain. Once admission has ended, in any run, with any further calls of any
   kind and any waits, there are at most `WorkLeft(s)` steps of work and at most
   `Effort(s)` actions of carriers. While the service is not terminated some
   carrier can act, so a run in which carriers are not held back for ever
   reaches termination within that bound; and then every admitted job has been
   run once or cancelled once.
   */
  lemma Drains(s: System, steps: seq<Step>)
    requires Reachable(s) && s.sh.inner.lifecycle != Running && ValidRun(s, steps)
    ensures var s' := Run(s, steps);
            && WorkDone(s, steps) + WorkLeft(s') <= WorkLeft(s)
            && EffortSpent(s, steps) + Effort(s') <= Effort(s)
    ensures var s' := Run(s, steps);
            !s'.sh.inner.IsTerminated() ==>
              exists t: nat :: t < |s'.acts| && Carriers.Carries(s'.acts[t]) && Enabled(s', Go(t, Succeeded))
    ensures var s' := Run(s, steps);
            s'.sh.inner.IsTerminated() ==>
              forall id: nat | Known(s'.sh, id) ::
                var r := s'.sh.jobs[s'.sh.admitted[id]];
                r.accepts == 1 && r.runs + r.cancels == 1 && r.status.Terminal()
  {
    Preservation.ReachableInv(s);
    RunLowers(s, steps);
    DrainedRun(s, steps);
    CarrierUntilTerminated(Run(s, steps));
    TerminatedIsComplete(Run(s, steps));
  }

  lemma DrainedRun(s: System, steps: seq<Step>)
    requires Inv(s) && s.sh.inner.lifecycle != Running && ValidRun(s, steps)
    ensures Inv(Run(s, steps)) && Run(s, steps).sh.inner.lifecycle != Running
  {
    Preservation.RunKeepsInv(s, steps);
  }
}
