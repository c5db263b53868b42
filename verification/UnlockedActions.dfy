/**
 What threads do between locked regions: spawning closures, running and
 cancelling jobs, publishing to the watch channels, and reading a task's state
 after a cancellation found nothing to claim.
 */
module UnlockedActions {
  import opened Actions
  import opened Basics
  import opened Counts
  import opened Invariant
  import opened Threads

  import Evolution

  /** Only result slots and watch values change; the protected record does not. */
  ghost predicate Outside(a: Shared, b: Shared) {
    && b == a.(jobs := b.jobs, capacityVersion := b.capacityVersion,
               terminationValue := b.terminationValue, flips := b.flips)
    && |b.jobs| == |a.jobs|
  }

  lemma OutsideRecord(a: Shared, b: Shared)
    requires Record(a) && Outside(a, b) && RefusedUntouched(b) && Announcements(b)
    ensures Record(b)
  {
    forall id: nat ensures Places(b, id) == Bit(id < b.inner.nextTaskId) {
      PlacesSplit(a, id);
    }
  }

  /** The action concerns no task: neither before nor after does the thread hold one. */
  predicate TaskFree(a: Act) {
    ClaimOf(a) == None && OwnedBy(a) == []
  }

  lemma TaskFreeAction(sh: Shared, a: Act, n: Next, id: nat)
    requires TaskFree(a) && TaskFree(n.act) && n.sh == sh
    ensures MovesTask(sh, a, n, id)
    ensures Known(sh, id) ==> MovesJob(sh, a, n, id)
  {
  }

  // ----- Spawning and reading -----

  lemma DispatchSound(sh: Shared, id: nat, left: nat, n: Next)
    requires left >= 1 && n == Next(sh, AfterDispatch(id, left - 1), true)
    ensures Conserves(sh, Dispatching(id, left), n) && Announces(sh, Dispatching(id, left), n)
    ensures TaskFree(n.act)
  {
  }

  lemma RespawnSound(sh: Shared, n: Next)
    requires n == Next(sh, Returned(WorkerDone), true)
    ensures Conserves(sh, Respawning, n) && Announces(sh, Respawning, n)
    ensures ActOk(sh, n.act)
  {
  }

  /** Control states that carry no weight. */
  predicate Idle(a: Act) {
    || (a.Calling? && a.call.SubscribeTermination?)
    || a.Subscribed? || a.Awaiting? || a.Unclaimed? || a.Fallback?
    || (a.Returned? && ClaimsIn(a.out) == 0)
  }

  lemma IdleSound(sh: Shared, a: Act, n: Next)
    requires Idle(a) && (Idle(n.act) || n.act.Repairing?) && n.sh == sh && !n.spawned
    ensures Conserves(sh, a, n) && Announces(sh, a, n)
    ensures TaskFree(a) && TaskFree(n.act)
  {
  }

  lemma SubscribeSound(sh: Shared, a: Act, n: Next)
    requires a.Subscribed? || a.Awaiting? || (a.Calling? && a.call.SubscribeTermination?)
    requires CanAdvance(sh, a) && n == Advance(sh, a, Pending)
    ensures n.sh == sh && Conserves(sh, a, n) && Announces(sh, a, n) && ActOk(sh, n.act)
    ensures TaskFree(a) && TaskFree(n.act)
  {
    IdleSound(sh, a, n);
  }

  lemma UnclaimedSound(sh: Shared, id: nat, via: Via, n: Next)
    requires ActOk(sh, Unclaimed(id, via)) && n == WhenUnclaimed(sh, id, via)
    requires id in sh.inner.runningTasks || id in sh.completed || id in sh.cancelled
    requires id in sh.cancelled ==> StatusOf(sh, id).Terminal()
    ensures n.sh == sh && Conserves(sh, Unclaimed(id, via), n) && Announces(sh, Unclaimed(id, via), n)
    ensures ActOk(sh, n.act) && TaskFree(n.act)
  {
    IdleSound(sh, Unclaimed(id, via), n);
  }

  /** The endpoint's direct cancellation finds a terminal slot and changes nothing. */
  lemma FallbackSound(sh: Shared, id: nat, n: Next)
    requires Known(sh, id) && StatusOf(sh, id).Terminal() && n == UseFallback(sh, id)
    ensures n.sh == sh && n.act == Returned(CancelDone(id, AlreadyFinished, false)) && !n.spawned
    ensures Conserves(sh, Fallback(id), n) && Announces(sh, Fallback(id), n)
    ensures ActOk(sh, n.act) && TaskFree(n.act)
  {
    assert sh.jobs[sh.admitted[id] := sh.jobs[sh.admitted[id]]] == sh.jobs;
    IdleSound(sh, Fallback(id), n);
  }

  // ----- Publishing -----

  predicate Announcing(a: Act) {
    a.Publishing? || a.PublishingEnd? || a.Repairing?
  }

  lemma PublishTotals(sh: Shared, a: Act, n: Next)
    requires a.Publishing? && Fits(sh, a) && n == Advance(sh, a, Pending)
    ensures Conserves(sh, a, n) && Announces(sh, a, n)
  {
    assert n.act == PublishingEnd(a.terminated, a.k);
  }

  lemma PublishEndTotals(sh: Shared, a: Act, n: Next)
    requires a.PublishingEnd? && Fits(sh, a) && n == Advance(sh, a, Pending)
    ensures Conserves(sh, a, n) && Announces(sh, a, n)
  {
    match a.k
    case Return(out) => assert n.act == Returned(out);
    case Respawn => assert n.act == Respawning;
    case Clean(owned, out) =>
  }

  lemma RepairTotals(sh: Shared, a: Act, n: Next)
    requires a.Repairing? && n == Advance(sh, a, Pending)
    ensures Conserves(sh, a, n) && Announces(sh, a, n)
  {
  }

  /** A publication leaves the thread's hold on every task as it is. */
  lemma AnnouncingGrip(sh: Shared, a: Act, n: Next, id: nat)
    requires Announcing(a) && Fits(sh, a) && n == Advance(sh, a, Pending)
    ensures GripOf(n.act, id) == GripOf(a, id)
  {
    if a.PublishingEnd? { assert n.act == Resume(a.k); }
  }

  lemma AnnouncingTask(sh: Shared, a: Act, n: Next, id: nat)
    requires GripOf(n.act, id) == GripOf(a, id) && Outside(sh, n.sh) && n.sh.jobs == sh.jobs
    ensures MovesTask(sh, a, n, id)
    ensures Known(sh, id) ==> MovesJob(sh, a, n, id)
  {
  }

  lemma AnnouncingActOk(sh: Shared, a: Act, n: Next)
    requires Announcing(a) && ActOk(sh, a) && Announcements(sh) && n == Advance(sh, a, Pending)
    ensures Outside(sh, n.sh) && n.sh.jobs == sh.jobs
    ensures Announcements(n.sh)
    ensures ActOk(n.sh, n.act)
  {
  }

  lemma AnnouncingEvolves(sh: Shared, a: Act, n: Next)
    requires Announcing(a) && Fits(sh, a) && n == Advance(sh, a, Pending)
    ensures Evolution.Evolves(sh, n.sh)
  {
  }

  // ----- Result slots -----

  /** Actions on the result slot of a job the thread owns, and the owning thread's way past it. */
  predicate Touching(a: Act) {
    a.Taken? || a.Working? || a.Cancelling? || a.CleaningUp?
  }

  lemma TouchingTotals(sh: Shared, a: Act, completion: TaskStatus, n: Next)
    requires Touching(a) && Fits(sh, a) && n == Advance(sh, a, completion)
    ensures Conserves(sh, a, n) && Announces(sh, a, n)
  {
  }

  lemma EnterRunTask(sh: Shared, c: Claim<nat>, n: Next, id: nat)
    requires Genuine(sh, c) && Holds(sh, Taken(c)) && Identities(sh) && n == EnterRun(sh, c)
    ensures MovesTask(sh, Taken(c), n, id)
    ensures Known(sh, id) ==> Known(n.sh, id) && MovesJob(sh, Taken(c), n, id)
  {
  }

  lemma LeaveRunTask(sh: Shared, c: Claim<nat>, status: TaskStatus, n: Next, id: nat)
    requires Genuine(sh, c) && Holds(sh, Working(c)) && Identities(sh)
    requires status.Completion() && n == LeaveRun(sh, c, status)
    ensures MovesTask(sh, Working(c), n, id)
    ensures Known(sh, id) ==> Known(n.sh, id) && MovesJob(sh, Working(c), n, id)
  {
  }

  lemma PublishCancellationTask(sh: Shared, owned: seq<Claim<nat>>, out: Outcome, n: Next, id: nat)
    requires Fits(sh, Cancelling(owned, out)) && Holds(sh, Cancelling(owned, out)) && Identities(sh)
    requires n == PublishCancellation(sh, owned, out)
    ensures MovesTask(sh, Cancelling(owned, out), n, id)
    ensures Known(sh, id) ==> Known(n.sh, id) && MovesJob(sh, Cancelling(owned, out), n, id)
  {
  }

  lemma DestroyedTask(sh: Shared, owned: seq<Claim<nat>>, out: Outcome, n: Next, id: nat)
    requires n == Next(sh, Cleaned(owned, out), false)
    ensures MovesTask(sh, CleaningUp(owned, out), n, id)
    ensures Known(sh, id) ==> MovesJob(sh, CleaningUp(owned, out), n, id)
  {
  }

  lemma TouchingFrame(sh: Shared, a: Act, completion: TaskStatus, n: Next)
    requires Touching(a) && Fits(sh, a) && Holds(sh, a)
    requires n == Advance(sh, a, completion) && (a.Working? ==> completion.Completion())
    ensures n.sh == sh.(jobs := n.sh.jobs) && Outside(sh, n.sh)
    ensures RefusedUntouched(sh) ==> RefusedUntouched(n.sh)
    ensures Evolution.JobsMoveOn(sh, n.sh)
  {
  }

  lemma TouchingActOk(sh: Shared, a: Act, completion: TaskStatus, n: Next)
    requires Touching(a) && ActOk(sh, a) && n == Advance(sh, a, completion)
    requires n.sh == sh.(jobs := n.sh.jobs) && Evolution.JobsMoveOn(sh, n.sh)
    ensures ActOk(n.sh, n.act)
  {
    Evolution.StillOk(sh, n.sh, a);
    TouchingFits(n.sh, a, n.act);
  }

  lemma TouchingFits(sh: Shared, a: Act, b: Act)
    requires ActOk(sh, a)
    requires match a
             case Taken(c) => b == Working(c)
             case Working(c) => b == Ran(c)
             case Cancelling(owned, out) => b == CleaningUp(owned, out)
             case CleaningUp(owned, out) => b == Cleaned(owned, out)
             case _ => false
    ensures ActOk(sh, b)
  {
  }
}
