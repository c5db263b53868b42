/**
 The effect of each action, looking only at the shared state and the acting
 thread. `Sound` collects what an action owes the rest of the system; there is
 one lemma per locked region and one per group of actions outside the lock.
 */
module Actions {
  import opened Basics
  import opened Counts
  import opened Invariant
  import opened Threads

  import Evolution

  /**
   Conservation: reservations, running tasks, signals and claims change in the
   record exactly as they change at the acting thread and the closure it spawns.
   */
  ghost predicate Conserves(sh: Shared, a: Act, n: Next) {
    var x := LoadOf(a);
    var y := LoadOf(n.act);
    && n.sh.inner.scheduled - sh.inner.scheduled
       == y.promised + y.pooled + y.working + y.succeeding
          - x.promised - x.pooled - x.working - x.succeeding + Bit(n.spawned)
    && n.sh.inner.running - sh.inner.running == y.working - x.working
    && n.sh.signals - sh.signals == n.sh.capacityVersion - sh.capacityVersion + y.signalling - x.signalling
    && |n.sh.inner.cancelling| + |n.sh.cancelled| - |sh.inner.cancelling| - |sh.cancelled| == y.claimed - x.claimed
  }

  /** Ownership of task `id` moves between the record and the acting thread. */
  ghost predicate MovesTask(sh: Shared, a: Act, n: Next, id: nat) {
    var x := GripOf(a, id);
    var y := GripOf(n.act, id);
    && Bit(id in n.sh.inner.runningTasks) - Bit(id in sh.inner.runningTasks)
       == y.taken + y.entered + y.left - x.taken - x.entered - x.left
    && Bit(id in n.sh.inner.cancelling) - Bit(id in sh.inner.cancelling)
       == y.owed + y.withdrawn - x.owed - x.withdrawn
  }

  /** The job of task `id` is touched exactly as the acting thread's progress says. */
  ghost predicate MovesJob(sh: Shared, a: Act, n: Next, id: nat)
    requires Known(sh, id) && Known(n.sh, id)
  {
    var r := sh.jobs[sh.admitted[id]];
    var r' := n.sh.jobs[n.sh.admitted[id]];
    var x := GripOf(a, id);
    var y := GripOf(n.act, id);
    var done := Bit(id in n.sh.completed) - Bit(id in sh.completed);
    && r'.accepts == r.accepts
    && r'.runs - r.runs == done + y.entered + y.left - x.entered - x.left
    && r'.cancels - r.cancels == Bit(id in n.sh.cancelled) - Bit(id in sh.cancelled) + y.withdrawn - x.withdrawn
    && Bit(r'.status.Completion()) - Bit(r.status.Completion()) == done + y.left - x.left
    && Bit(r'.status.Cancelled?) - Bit(r.status.Cancelled?) == r'.cancels - r.cancels
    && Bit(r'.status.Pending?) + r'.runs + r'.cancels == Bit(r.status.Pending?) + r.runs + r.cancels
  }

  /** A termination that becomes true is announced, and a pending announcement is dropped only once made. */
  ghost predicate Announces(sh: Shared, a: Act, n: Next) {
    && (n.sh.inner.IsTerminated() && !sh.inner.IsTerminated() ==> LoadOf(n.act).announcing > 0)
    && (LoadOf(n.act).announcing >= LoadOf(a).announcing || n.sh.terminationValue)
  }

  /** A task admitted by the action is queued, its job accepted once and otherwise untouched. */
  ghost predicate AdmitsFresh(sh: Shared, n: Next) {
    forall id: nat | Known(n.sh, id) && !Known(sh, id) ::
      id in n.sh.inner.queue && n.sh.jobs[n.sh.admitted[id]] == JobRecord(1, 0, 0, Pending)
  }

  ghost predicate Sound(sh: Shared, a: Act, n: Next) {
    && Conserves(sh, a, n)
    && Announces(sh, a, n)
    && (forall id: nat :: MovesTask(sh, a, n, id))
    && (forall id: nat | Known(sh, id) && Known(n.sh, id) :: MovesJob(sh, a, n, id))
    && AdmitsFresh(sh, n)
    && Record(n.sh)
    && Evolution.Evolves(sh, n.sh)
    && ActOk(n.sh, n.act)
  }

  // ----- Invariant parts, kept under the conditions the actions meet -----

  lemma IdentitiesKept(a: Shared, b: Shared)
    requires Identities(a)
    requires b.admitted == a.admitted && |b.jobs| == |a.jobs| && b.inner.nextTaskId == a.inner.nextTaskId
    requires forall id | id in b.inner.queue :: id in a.inner.queue && b.inner.queue[id] == a.inner.queue[id]
    ensures Identities(b)
  {
  }

  ghost predicate StartsAdmitted(sh: Shared) {
    forall k | 0 <= k < |sh.starts| :: sh.starts[k] < sh.inner.nextTaskId
  }

  lemma StartedIsAdmitted(sh: Shared)
    requires Record(sh)
    ensures StartsAdmitted(sh)
  {
    forall k | 0 <= k < |sh.starts| ensures sh.starts[k] < sh.inner.nextTaskId {
      PlacesSplit(sh, sh.starts[k]);
    }
  }

  lemma StartOrderKept(a: Shared, b: Shared)
    requires StartOrder(a) && StartsAdmitted(a) && b.starts == a.starts
    requires forall id | id in b.inner.queue :: id in a.inner.queue || id == a.inner.nextTaskId
    requires a.inner.runningTasks + a.completed <= b.inner.runningTasks + b.completed
    requires |b.inner.runningTasks| + |b.completed| == |a.inner.runningTasks| + |a.completed|
    ensures StartOrder(b)
  {
  }

  lemma AnnouncementsKept(a: Shared, b: Shared, always: bool)
    requires Announcements(a) && b.terminationValue == a.terminationValue && b.flips == a.flips
    requires a.inner.IsTerminated() ==> b.inner.IsTerminated()
    requires b.waiters == Leave(a, b.inner, always).waiters && b.now == a.now
    ensures Announcements(b)
  {
    forall w | 0 <= w < |b.waiters|
      ensures (b.waiters[w].Parked? ==> !b.inner.IsTerminated())
           && (b.waiters[w].Done? ==> Truthful(b, b.waiters[w]))
    {
      assert b.waiters[w] == a.waiters[w] || b.waiters[w] == WakeOne(a.waiters[w]);
    }
  }

  lemma QueueApart(sh: Shared)
    requires Record(sh)
    ensures sh.inner.queue.Keys !! sh.inner.runningTasks
    ensures sh.inner.queue.Keys !! sh.inner.cancelling
    ensures sh.inner.runningTasks !! sh.completed
    ensures sh.inner.cancelling !! sh.cancelled
  {
    forall id: nat
      ensures id in sh.inner.queue ==> id !in sh.inner.runningTasks && id !in sh.inner.cancelling
      ensures id in sh.inner.runningTasks ==> id !in sh.completed
      ensures id in sh.inner.cancelling ==> id !in sh.cancelled
    {
      PlacesSplit(sh, id);
    }
  }
}
