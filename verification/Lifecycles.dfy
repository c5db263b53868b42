/** The lifecycle callers observe, decided by what has been called and what is left. */
module Lifecycles {
  import opened Basics
  import opened ServiceInner
  import opened Threads

  import Preservation

  /** The step is the locked region of such a call. */
  predicate Makes(s: System, step: Step, call: Call) {
    step.Go? && step.t < |s.acts| && s.acts[step.t] == Calling(call)
  }

  /** How many calls of this kind took the lock during a run. */
  function Made(s: System, steps: seq<Step>, call: Call): nat
    requires ValidRun(s, steps)
    decreases |steps|
  {
    if steps == [] then 0 else Bit(Makes(s, steps[0], call)) + Made(Apply(s, steps[0]), steps[1..], call)
  }

  function StoredAfter(before: Lifecycle, shutdowns: nat, stops: nat): Lifecycle {
    if stops > 0 then Stopping else if before == Running && shutdowns > 0 then ShuttingDown else before
  }

  lemma StepLifecycle(s: System, step: Step)
    requires Enabled(s, step)
    ensures Apply(s, step).sh.inner.lifecycle
            == StoredAfter(s.sh.inner.lifecycle, Bit(Makes(s, step, Call.Shutdown)), Bit(Makes(s, step, Call.Stop)))
  {
  }

  lemma {:induction false} RunLifecycle(s: System, steps: seq<Step>)
    requires ValidRun(s, steps)
    ensures Run(s, steps).sh.inner.lifecycle
            == StoredAfter(s.sh.inner.lifecycle, Made(s, steps, Call.Shutdown), Made(s, steps, Call.Stop))
    decreases |steps|
  {
    if steps != [] {
      StepLifecycle(s, steps[0]);
      RunLifecycle(Apply(s, steps[0]), steps[1..]);
    }
  }

  /**
   What a caller observes after any run of a service: `Running` until the first
   `shutdown` or `stop`; from then on `Terminated` exactly when nothing is queued,
   running or being cancelled; and otherwise `Stopping` once there was a `stop`,
   `ShuttingDown` before.
   */
  lemma ReportedDecided(capacity: nat, threads: nat, steps: seq<Step>)
    requires 1 <= capacity <= MAX_USIZE && 1 <= threads
    requires ValidRun(InitialSystem(capacity, threads), steps)
    ensures var start := InitialSystem(capacity, threads);
            var inner := Run(start, steps).sh.inner;
            var shutdowns, stops := Made(start, steps, Call.Shutdown), Made(start, steps, Call.Stop);
            var empty := inner.queue == map[] && inner.runningTasks == {} && inner.cancelling == {};
            && (inner.IsTerminated() <==> shutdowns + stops > 0 && empty)
            && inner.Reported() == if shutdowns + stops == 0 then Running
                                   else if empty then Terminated
                                   else if stops > 0 then Stopping
                                   else ShuttingDown
  {
    var start := InitialSystem(capacity, threads);
    RunLifecycle(start, steps);
    Preservation.InitialInv(capacity, threads);
    Preservation.RunKeepsInv(start, steps);
    NothingHeld(Run(start, steps).sh.inner);
  }

  lemma NothingHeld<J>(inner: Inner<J>)
    requires inner.running == |inner.runningTasks|
    ensures inner.Occupied() == 0 <==> inner.queue == map[] && inner.runningTasks == {} && inner.cancelling == {}
  {
  }
}
