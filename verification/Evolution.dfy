/** How the shared state can change over any number of steps. */
module Evolution {
  import opened Basics
  import opened Invariant
  import opened Threads

  /** Task identifiers only move forward: what left the queue, or both the queue and `cancelling`, never returns. */
  ghost predicate TasksMoveOn(a: Shared, b: Shared) {
    && a.completed <= b.completed
    && a.cancelled <= b.cancelled
    && a.inner.runningTasks <= b.inner.runningTasks + b.completed
    && a.inner.cancelling <= b.inner.cancelling + b.cancelled
    && (forall id: nat :: id < |a.admitted| && id !in a.inner.queue ==> id !in b.inner.queue)
    && (forall id: nat :: id < |a.admitted| && id !in a.inner.queue && id !in a.inner.cancelling
                          ==> id !in b.inner.cancelling)
  }

  /** Jobs keep their identity and history, and a terminal status is final. */
  ghost predicate JobsMoveOn(a: Shared, b: Shared) {
    && a.admitted <= b.admitted
    && |a.jobs| <= |b.jobs|
    && (forall j | 0 <= j < |a.jobs| ::
          && a.jobs[j].accepts == b.jobs[j].accepts
          && a.jobs[j].runs <= b.jobs[j].runs
          && a.jobs[j].cancels <= b.jobs[j].cancels
          && (a.jobs[j].status.Terminal() ==> b.jobs[j].status == a.jobs[j].status))
  }

  /** The service as a whole only moves towards termination, and a slot is freed only by a signalling section. */
  ghost predicate ServiceMovesOn(a: Shared, b: Shared) {
    && a.inner.taskCapacity == b.inner.taskCapacity
    && a.inner.numThreads == b.inner.numThreads
    && a.inner.lifecycle.Rank() <= b.inner.lifecycle.Rank()
    && (a.inner.IsTerminated() ==> b.inner.IsTerminated())
    && (a.terminationValue ==> b.terminationValue)
    && a.starts <= b.starts
    && (a.inner.lifecycle == Stopping ==> b.inner.lifecycle == Stopping && b.starts == a.starts)
    && a.now <= b.now
    && a.capacityVersion <= b.capacityVersion
    && a.signals <= b.signals
    && a.inner.Occupied() <= b.inner.Occupied() + (b.signals - a.signals)
    && (a.signals == b.signals ==> a.inner.lifecycle == b.inner.lifecycle)
  }

  ghost predicate Evolves(a: Shared, b: Shared) {
    TasksMoveOn(a, b) && JobsMoveOn(a, b) && ServiceMovesOn(a, b)
  }

  lemma EvolvesReflexive(a: Shared)
    ensures Evolves(a, a)
  {
  }

  lemma EvolvesTransitive(a: Shared, b: Shared, c: Shared)
    requires Evolves(a, b) && Evolves(b, c)
    ensures Evolves(a, c)
  {
  }

  lemma StillKnown(a: Shared, b: Shared, id: nat)
    requires JobsMoveOn(a, b) && Known(a, id)
    ensures Known(b, id) && b.admitted[id] == a.admitted[id]
  {
  }

  lemma StillFits(a: Shared, b: Shared, x: Act)
    requires JobsMoveOn(a, b) && Fits(a, x)
    ensures Fits(b, x)
  {
    forall id: nat | Known(a, id) ensures Known(b, id) && b.admitted[id] == a.admitted[id] {
      StillKnown(a, b, id);
    }
    if AllGenuine(a, OwnedBy(x)) {
      forall i | 0 <= i < |OwnedBy(x)| ensures Genuine(b, OwnedBy(x)[i]) {
        assert Genuine(a, OwnedBy(x)[i]);
      }
    }
  }

  lemma StillOutcome(a: Shared, b: Shared, out: Outcome)
    requires Evolves(a, b) && OutcomeOk(a, out)
    ensures OutcomeOk(b, out)
  {
    if out.CancelDone? && Known(a, out.taskId) { StillKnown(a, b, out.taskId); }
  }

  /** What a thread relies on survives every step of every other thread. */
  lemma StillOk(a: Shared, b: Shared, x: Act)
    requires Evolves(a, b) && ActOk(a, x)
    ensures ActOk(b, x)
  {
    StillFits(a, b, x);
    StillOutcome(a, b, OutcomeOf(x));
  }
}
