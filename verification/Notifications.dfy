/** No wakeup is lost: capacity signals, the termination value and the condition variable. */
module Notifications {
  import opened Basics
  import opened Counts
  import opened Drain
  import opened Invariant
  import opened ServiceInner
  import opened Threads

  import Carriers
  import Evolution
  import Guarantees
  import Preservation

  // ----- Capacity signals -----

  /** `finish_running`, `finish_cancelling`, `shutdown` and `stop`: the sections that publish a capacity change. */
  predicate Signalling(a: Act) {
    a.Ran? || a.Cleaned? || a == Calling(Call.Shutdown) || a == Calling(Call.Stop)
  }

  /** Each signalling section owes exactly one capacity publication, and no other step owes any. */
  lemma SignalsCounted(s: System, step: Step)
    requires Reachable(s) && Enabled(s, step)
    ensures s.sh.capacityVersion + Loads(s.acts).signalling == s.sh.signals
    ensures Apply(s, step).sh.signals - s.sh.signals == Bit(step.Go? && Signalling(s.acts[step.t]))
  {
    Preservation.ReachableInv(s);
    SignalStep(s, step);
  }

  lemma SignalStep(s: System, step: Step)
    requires Enabled(s, step)
    ensures Apply(s, step).sh.signals - s.sh.signals == Bit(step.Go? && Signalling(s.acts[step.t]))
  {
  }

  /**
   Every section that signals, and a closure that finds nothing, goes on to
   publish: a capacity change exactly if it signals, termination exactly if it
   leaves the service terminated.
   */
  lemma PublishesExactly(s: System, t: nat)
    requires Enabled(s, Go(t, Pending))
    requires Signalling(s.acts[t]) || (s.acts[t].Closure? && s.sh.inner.queue == map[])
    ensures var s' := Apply(s, Go(t, Pending));
            && s'.acts[t].Publishing?
            && s'.acts[t].capacity == Signalling(s.acts[t])
            && s'.acts[t].terminated == s'.sh.inner.IsTerminated()
            && (s.acts[t].Closure? ==> s'.acts[t].k == Return(WorkerDone))
  {
  }

  /** Every slot is taken and admission is open: when `SubmitDecided` says a submission is saturated. */
  predicate WouldSaturate(sh: Shared, capacity: nat) {
    && sh.inner.lifecycle == Running
    && |sh.inner.queue| + sh.inner.running + |sh.inner.cancelling| >= capacity
  }

  /**
   No lost capacity signal. A producer subscribed while the watch version was
   `s1`'s, or has marked any version `seen` up to it; a submission at `s2` was
   refused as saturated. Whenever a submission would no longer be refused as
   saturated, the version has moved past what the producer has seen or a
   publication is on its way; and once the service is at rest it has moved.
   */
  lemma NoLostCapacitySignal(s1: System, capacity: nat, threads: nat,
                             toRefusal: seq<Step>, fromRefusal: seq<Step>, seen: nat)
    requires ReachableWith(s1, capacity, threads) && ValidRun(s1, toRefusal) && seen <= s1.sh.capacityVersion
    requires var s2 := Run(s1, toRefusal); WouldSaturate(s2.sh, capacity) && ValidRun(s2, fromRefusal)
    requires !WouldSaturate(Run(Run(s1, toRefusal), fromRefusal).sh, capacity)
    ensures var s3 := Run(Run(s1, toRefusal), fromRefusal);
            && (s3.sh.capacityVersion > seen || Loads(s3.acts).signalling > 0)
            && (Quiescent(s3) ==> s3.sh.capacityVersion > seen)
  {
    Preservation.ConfiguredAs(s1, capacity, threads);
    var s2 := Run(s1, toRefusal);
    Preservation.RunKeepsInv(s1, toRefusal);
    var s3 := Run(s2, fromRefusal);
    Preservation.RunKeepsInv(s2, fromRefusal);
    SlotsHold(s2.sh, s3.sh, capacity);
    if Quiescent(s3) { RestingLoad(s3.sh, s3.acts); }
  }

  /** Without a signalling section in between, a saturated service stays saturated. */
  lemma SlotsHold(a: Shared, b: Shared, capacity: nat)
    requires Evolution.ServiceMovesOn(a, b) && WouldSaturate(a, capacity) && !WouldSaturate(b, capacity)
    ensures b.signals > a.signals
  {
  }

  // ----- Termination value -----

  /**
   The termination value is set only on a terminated service; a terminated
   service has it set or a publisher or repairer on the way; it changes at most
   once; and whoever was told of termination finds it set.
   */
  lemma TerminationAnnounced(s: System)
    requires Reachable(s)
    ensures s.sh.terminationValue ==> s.sh.inner.IsTerminated()
    ensures s.sh.inner.IsTerminated() ==> s.sh.terminationValue || Loads(s.acts).announcing > 0
    ensures s.sh.flips == Bit(s.sh.terminationValue)
    ensures forall t | 0 <= t < |s.acts| ::
              s.acts[t] == Returned(AwaitDone) || s.acts[t] == Returned(SubscribeDone(true)) ==>
                s.sh.terminationValue
  {
    Preservation.ReachableInv(s);
    forall t | 0 <= t < |s.acts|
      ensures s.acts[t] == Returned(AwaitDone) || s.acts[t] == Returned(SubscribeDone(true)) ==> s.sh.terminationValue
    {
      if s.acts[t].Returned? { Guarantees.OutcomeTrue(s, t); }
    }
  }

  /**
   Every asynchronous waiter returns. On a terminated service, whatever else is
   called: a thread waiting for the termination value can return, or some thread
   able to act is about to set it; every run is as short as `BoundedWork` says;
   and one in which no thread can act any more has the value set and every
   thread returned, each waiting thread among them.
   */
  lemma AwaitersComplete(s: System, steps: seq<Step>)
    requires Reachable(s) && s.sh.inner.IsTerminated() && ValidRun(s, steps)
    ensures var s' := Run(s, steps);
            forall t: nat | t < |s'.acts| && s'.acts[t].Awaiting? ::
              || Enabled(s', Go(t, Succeeded))
              || exists u: nat :: u < |s'.acts| && LoadOf(s'.acts[u]).announcing > 0 && Enabled(s', Go(u, Succeeded))
    ensures ActionsIn(steps) + Potential(Run(s, steps)) <= Potential(s) + Calls(steps, s.sh.inner.numThreads)
    ensures var s' := Run(s, steps);
            (forall step: Step | step.Go? :: !Enabled(s', step)) ==>
              s'.sh.terminationValue && forall t | 0 <= t < |s'.acts| :: s'.acts[t].Returned?
  {
    TerminatedRun(s, steps);
    AwaitersServed(Run(s, steps));
    RestIsAnnounced(Run(s, steps));
  }

  lemma TerminatedRun(s: System, steps: seq<Step>)
    requires Reachable(s) && s.sh.inner.IsTerminated() && ValidRun(s, steps)
    ensures Inv(Run(s, steps)) && Run(s, steps).sh.inner.IsTerminated()
    ensures ActionsIn(steps) + Potential(Run(s, steps)) <= Potential(s) + Calls(steps, s.sh.inner.numThreads)
  {
    Preservation.ReachableInv(s);
    Preservation.RunKeepsInv(s, steps);
    BoundedWork(s, steps);
  }

  lemma AwaitersServed(s: System)
    requires Inv(s) && s.sh.inner.IsTerminated()
    ensures forall t: nat | t < |s.acts| && s.acts[t].Awaiting? ::
              || Enabled(s, Go(t, Succeeded))
              || exists u: nat :: u < |s.acts| && LoadOf(s.acts[u]).announcing > 0 && Enabled(s, Go(u, Succeeded))
  {
    if s.sh.terminationValue {
      AwaitersReturn(s);
    } else {
      var u := SomeAnnouncer(s);
    }
  }

  lemma AwaitersReturn(s: System)
    requires s.sh.terminationValue
    ensures forall t: nat | t < |s.acts| && s.acts[t].Awaiting? :: Enabled(s, Go(t, Succeeded))
  {
  }

  lemma SomeAnnouncer(s: System) returns (u: nat)
    requires Inv(s) && s.sh.inner.IsTerminated() && !s.sh.terminationValue
    ensures u < |s.acts| && LoadOf(s.acts[u]).announcing > 0 && Enabled(s, Go(u, Succeeded))
  {
    u := Carriers.Announcer(s.acts);
    ActionEnabled(s, u);
  }

  lemma RestIsAnnounced(s: System)
    requires Inv(s) && s.sh.inner.IsTerminated()
    ensures (forall step: Step | step.Go? :: !Enabled(s, step)) ==>
              s.sh.terminationValue && forall t | 0 <= t < |s.acts| :: s.acts[t].Returned?
  {
    if forall step: Step | step.Go? :: !Enabled(s, step) {
      QuiescentUnlessEnabled(s);
      QuiescentIsIdle(s);
    }
  }

  // ----- Condition variable -----

  /**
   No lost wakeup: once the service is terminated nobody is parked, in any later
   state either, and every waiter still testing the predicate returns `true` at
   its next turn.
   */
  lemma NoLostWakeup(s: System, steps: seq<Step>)
    requires Reachable(s) && ValidRun(s, steps)
    ensures var s' := Run(s, steps);
            s.sh.inner.IsTerminated() ==>
              forall w | 0 <= w < |s'.sh.waiters| ::
                && !s'.sh.waiters[w].Parked?
                && (s'.sh.waiters[w].Checking? ==>
                      CheckWaiter(s'.sh, s'.sh.waiters[w]) == Done(s'.sh.waiters[w].deadline, true))
  {
    Preservation.ReachableInv(s);
    Preservation.RunKeepsInv(s, steps);
  }

  /** Time that passes during a run. */
  function Elapsed(steps: seq<Step>): nat
    decreases |steps|
  {
    if steps == [] then 0 else (if steps[0].Tick? then steps[0].elapsed else 0) + Elapsed(steps[1..])
  }

  /** Every step keeps a waiter's deadline and what it returned; a wakeup makes it test the predicate again. */
  lemma StepKeepsWaiter(s: System, step: Step, w: nat)
    requires Enabled(s, step) && w < |s.sh.waiters|
    ensures var s' := Apply(s, step);
            && s'.sh.now == s.sh.now + (if step.Tick? then step.elapsed else 0)
            && w < |s'.sh.waiters|
            && s'.sh.waiters[w].deadline == s.sh.waiters[w].deadline
            && (s.sh.waiters[w].Done? ==> s'.sh.waiters[w] == s.sh.waiters[w])
            && (step == Wake(w) ==> s'.sh.waiters[w].Checking?)
  {
    if step.Go? {
      var n := Advance(s.sh, s.acts[step.t], step.completion);
      assert n.sh.waiters == s.sh.waiters || n.sh.waiters == WakeAll(s.sh.waiters);
    }
  }

  lemma {:induction false} RunKeepsWaiter(s: System, steps: seq<Step>, w: nat)
    requires ValidRun(s, steps) && w < |s.sh.waiters|
    ensures var s' := Run(s, steps);
            && s'.sh.now == s.sh.now + Elapsed(steps)
            && w < |s'.sh.waiters|
            && s'.sh.waiters[w].deadline == s.sh.waiters[w].deadline
            && (s.sh.waiters[w].Done? ==> s'.sh.waiters[w] == s.sh.waiters[w])
    decreases |steps|
  {
    if steps != [] {
      StepKeepsWaiter(s, steps[0], w);
      RunKeepsWaiter(Apply(s, steps[0]), steps[1..], w);
    }
  }

  /**
   Waits under every interleaving of threads, wakeups and the clock. A wait
   entered at `s` with a timeout or none: if it has returned `true` the service is
   terminated; if `false`, it had a timeout and that time has passed. Returning
   takes a turn with the lock held, and a turn returns `true` exactly on a
   terminated service, `false` exactly on a live one with the timeout elapsed, and
   parks the waiter otherwise.
   */
  lemma WaitAnswers(s: System, timeout: Option<nat>, steps: seq<Step>)
    requires Reachable(s) && ValidRun(Apply(s, StartWait(timeout)), steps)
    ensures var s' := Run(Apply(s, StartWait(timeout)), steps);
            var w := |s.sh.waiters|;
            var expired := timeout.Some? && Elapsed(steps) >= timeout.value;
            && w < |s'.sh.waiters|
            && (s'.sh.waiters[w].Done? ==> if s'.sh.waiters[w].observed then s'.sh.inner.IsTerminated() else expired)
            && (Enabled(s', Check(w)) ==>
                  var after := Apply(s', Check(w)).sh.waiters[w];
                  if s'.sh.inner.IsTerminated() then after.Done? && after.observed
                  else if expired then after.Done? && !after.observed
                  else after.Parked?)
  {
    var s1 := Apply(s, StartWait(timeout));
    var w := |s.sh.waiters|;
    assert s1.sh.waiters[w] == Checking(DeadlineFor(s.sh, timeout)) && s1.sh.now == s.sh.now;
    RunKeepsWaiter(s1, steps, w);
    WaiterTruthful(s, timeout, steps, w);
    TurnDecided(Run(s1, steps), w);
  }

  lemma WaiterTruthful(s: System, timeout: Option<nat>, steps: seq<Step>, w: nat)
    requires Reachable(s) && ValidRun(Apply(s, StartWait(timeout)), steps)
    requires w < |Run(Apply(s, StartWait(timeout)), steps).sh.waiters|
    ensures var s' := Run(Apply(s, StartWait(timeout)), steps);
            s'.sh.waiters[w].Done? ==> Truthful(s'.sh, s'.sh.waiters[w])
  {
    Preservation.ReachableInv(s);
    Preservation.StepKeepsInv(s, StartWait(timeout));
    Preservation.RunKeepsInv(Apply(s, StartWait(timeout)), steps);
  }

  lemma TurnDecided(s: System, w: nat)
    requires w < |s.sh.waiters|
    ensures Enabled(s, Check(w)) ==>
              var deadline, after := s.sh.waiters[w].deadline, Apply(s, Check(w)).sh.waiters[w];
              if s.sh.inner.IsTerminated() then after.Done? && after.observed
              else if deadline.Some? && s.sh.now >= deadline.value then after.Done? && !after.observed
              else after.Parked?
  {
  }

  /**
   Who is notified: leaving `finish_cancelling` wakes every parked waiter; any
   other action wakes all of them if it leaves the service terminated, and else
   none.
   */
  lemma NotifiedExactly(s: System, t: nat, completion: TaskStatus, w: nat)
    requires Reachable(s) && Enabled(s, Go(t, completion)) && w < |s.sh.waiters|
    ensures var s' := Apply(s, Go(t, completion));
            var before := s.sh.waiters[w];
            && w < |s'.sh.waiters|
            && s'.sh.waiters[w] == if before.Parked? && (s.acts[t].Cleaned? || s'.sh.inner.IsTerminated())
                                   then Checking(before.deadline) else before
  {
    Preservation.ReachableInv(s);
    Unparked(s, w);
    Preservation.InvAfter(s, Go(t, completion));
    StepWakes(s.sh, s.acts[t], Advance(s.sh, s.acts[t], completion), completion);
    Unparked(Apply(s, Go(t, completion)), w);
  }

  lemma Unparked(s: System, w: nat)
    requires Inv(s) && w < |s.sh.waiters|
    ensures s.sh.inner.IsTerminated() ==> !s.sh.waiters[w].Parked?
  {
  }

  lemma StepWakes(sh: Shared, a: Act, n: Next, completion: TaskStatus)
    requires Fits(sh, a) && n == Advance(sh, a, completion)
    ensures n.sh.waiters == sh.waiters || n.sh.waiters == WakeAll(sh.waiters)
    ensures a.Cleaned? ==> n.sh.waiters == WakeAll(sh.waiters)
    ensures !a.Cleaned? && !n.sh.inner.IsTerminated() ==> n.sh.waiters == sh.waiters
  {
  }
}
