/** What every reachable state of the interleaved system satisfies. */
module Invariant {
  import opened Basics
  import opened Counts
  import opened Threads

  /** The claim a worker thread holds. */
  function ClaimOf(a: Act): Option<Claim<nat>> {
    match a
    case Taken(c) => Some(c)
    case Working(c) => Some(c)
    case Ran(c) => Some(c)
    case _ => None
  }

  /** The claims a cancelling thread has not released yet. */
  function OwnedBy(a: Act): seq<Claim<nat>> {
    match a
    case Publishing(_, _, Clean(owned, _)) => owned
    case PublishingEnd(_, Clean(owned, _)) => owned
    case Cancelling(owned, _) => owned
    case CleaningUp(owned, _) => owned
    case Cleaned(owned, _) => owned
    case _ => []
  }

  /** What the call will return, once that is decided. */
  function OutcomeOf(a: Act): Outcome {
    match a
    case Publishing(_, _, Return(out)) => out
    case PublishingEnd(_, Return(out)) => out
    case Publishing(_, _, Clean(_, out)) => out
    case PublishingEnd(_, Clean(_, out)) => out
    case Cancelling(_, out) => out
    case CleaningUp(_, out) => out
    case Cleaned(_, out) => out
    case Returned(out) => out
    case _ => WorkerDone
  }

  /** In how many places an id is: queued, running, cancelling, completed, cancelled. */
  function Places(sh: Shared, id: nat): nat {
    sh.inner.Live(id) + Bit(id in sh.completed) + Bit(id in sh.cancelled)
  }

  /** Every admitted id is in exactly one place, every other id in none. */
  ghost predicate Partition(sh: Shared) {
    forall id: nat :: Places(sh, id) == Bit(id < sh.inner.nextTaskId)
  }

  /** Task ids and jobs correspond one to one, in admission order. */
  ghost predicate Identities(sh: Shared) {
    && |sh.admitted| == sh.inner.nextTaskId
    && (forall id | 0 <= id < |sh.admitted| :: sh.admitted[id] < |sh.jobs|)
    && (forall a, b | 0 <= a < b < |sh.admitted| :: sh.admitted[a] < sh.admitted[b])
    && (forall id | id in sh.inner.queue :: id < |sh.admitted| && sh.inner.queue[id] == sh.admitted[id])
  }

  /** Tasks start in id order, and a queued task is younger than every started one. */
  ghost predicate StartOrder(sh: Shared) {
    && (forall a, b | 0 <= a < b < |sh.starts| :: sh.starts[a] < sh.starts[b])
    && (forall k, id | 0 <= k < |sh.starts| && id in sh.inner.queue :: sh.starts[k] < id)
    && (forall k | 0 <= k < |sh.starts| :: sh.starts[k] in sh.inner.runningTasks || sh.starts[k] in sh.completed)
    && |sh.starts| == |sh.inner.runningTasks| + |sh.completed|
  }

  /** A wait returned `true` only on termination, `false` only past its deadline. */
  predicate Truthful(sh: Shared, w: Waiter)
    requires w.Done?
  {
    if w.observed then sh.inner.IsTerminated() else w.deadline.Some? && w.deadline.value <= sh.now
  }

  /** The termination value and the waiters never contradict the record. */
  ghost predicate Announcements(sh: Shared) {
    && (sh.terminationValue ==> sh.inner.IsTerminated())
    && sh.flips == Bit(sh.terminationValue)
    && (forall w | 0 <= w < |sh.waiters| ::
          && (sh.waiters[w].Parked? ==> !sh.inner.IsTerminated())
          && (sh.waiters[w].Done? ==> Truthful(sh, sh.waiters[w])))
  }

  /** Jobs that were never accepted are never touched. */
  ghost predicate RefusedUntouched(sh: Shared) {
    forall j | 0 <= j < |sh.jobs| :: sh.jobs[j].accepts == 0 ==> sh.jobs[j] == JobRecord(0, 0, 0, Pending)
  }

  ghost predicate Record(sh: Shared) {
    && sh.inner.Valid()
    && Partition(sh)
    && Identities(sh)
    && StartOrder(sh)
    && Announcements(sh)
    && RefusedUntouched(sh)
  }

  ghost predicate OutcomeOk(sh: Shared, out: Outcome) {
    match out
    case Submitted(id) => id < |sh.admitted|
    case StopDone(report) => report.cancelled == report.queued
    case CancelDone(id, CancelledNow, _) => id in sh.inner.cancelling || id in sh.cancelled
    case CancelDone(id, AlreadyRunning, owned) => !owned && (id in sh.inner.runningTasks || id in sh.completed)
    case CancelDone(id, AlreadyFinished, owned) => !owned && Known(sh, id) && StatusOf(sh, id).Terminal()
    case SubscribeDone(saw) => saw ==> sh.terminationValue
    case AwaitDone => sh.terminationValue
    case _ => true
  }

  /** What a thread may rely on wherever it is, whatever the other threads do. */
  ghost predicate ActOk(sh: Shared, a: Act) {
    && Fits(sh, a)
    && OutcomeOk(sh, OutcomeOf(a))
    && (LoadOf(a).announcing > 0 ==> sh.inner.IsTerminated())
    && (a.Unclaimed? ==> a.taskId !in sh.inner.queue && a.taskId !in sh.inner.cancelling)
    && (a.Fallback? ==> a.taskId in sh.completed || a.taskId in sh.cancelled)
  }

  /** The history and status of one admitted job, from where its task and its holders are. */
  ghost predicate JobOk(sh: Shared, acts: seq<Act>, id: nat)
    requires Known(sh, id)
  {
    var r := sh.jobs[sh.admitted[id]];
    var g := Grips(acts, id);
    && r.accepts == 1
    && r.runs == Bit(id in sh.completed) + g.entered + g.left
    && r.cancels == Bit(id in sh.cancelled) + g.withdrawn
    && Bit(r.status.Completion()) == Bit(id in sh.completed) + g.left
    && Bit(r.status.Cancelled?) == r.cancels
    && Bit(r.status.Pending?) + r.runs + r.cancels == 1
  }

  /** The equations between thread counts and the shared record. */
  ghost predicate Tallies(sh: Shared, acts: seq<Act>) {
    var load := Loads(acts);
    && sh.inner.scheduled == load.promised + load.pooled + load.working + load.succeeding
    && sh.inner.running == load.working
    && sh.capacityVersion + load.signalling == sh.signals
    && load.claimed == |sh.inner.cancelling| + |sh.cancelled|
    && (sh.inner.IsTerminated() ==> sh.terminationValue || load.announcing > 0)
  }

  /** Each running or cancelling task is in the hands of exactly one thread, every other task of none. */
  ghost predicate Ownership(sh: Shared, acts: seq<Act>, id: nat) {
    var g := Grips(acts, id);
    && g.taken + g.entered + g.left == Bit(id in sh.inner.runningTasks)
    && g.owed + g.withdrawn == Bit(id in sh.inner.cancelling)
  }

  ghost predicate Inv(s: System) {
    && Record(s.sh)
    && Tallies(s.sh, s.acts)
    && (forall id: nat :: Ownership(s.sh, s.acts, id))
    && (forall id: nat | Known(s.sh, id) :: JobOk(s.sh, s.acts, id))
    && (forall t | 0 <= t < |s.acts| :: ActOk(s.sh, s.acts[t]))
  }

  predicate HeldBy(sh: Shared, c: Claim<nat>, ids: set<nat>)
    requires Genuine(sh, c)
  {
    c.id in ids && sh.jobs[c.job].accepts == 1
  }

  /** What the acting thread knows in addition, because nobody else holds its task. */
  ghost predicate Holds(sh: Shared, a: Act)
    requires Fits(sh, a)
  {
    match a
    case Closure => sh.inner.scheduled > sh.inner.running
    case Taken(c) => HeldBy(sh, c, sh.inner.runningTasks) && sh.jobs[c.job].status.Pending?
    case Working(c) => HeldBy(sh, c, sh.inner.runningTasks) && sh.jobs[c.job].status.Executing?
    case Ran(c) => HeldBy(sh, c, sh.inner.runningTasks) && sh.jobs[c.job].status.Completion()
    case Cancelling(owned, _) =>
      HeldBy(sh, owned[0], sh.inner.cancelling) && sh.jobs[owned[0].job].status.Pending?
    case CleaningUp(owned, _) =>
      HeldBy(sh, owned[0], sh.inner.cancelling) && sh.jobs[owned[0].job].status.Cancelled?
    case Cleaned(owned, _) =>
      HeldBy(sh, owned[0], sh.inner.cancelling) && sh.jobs[owned[0].job].status.Cancelled?
    case _ => true
  }

  /** `id` is neither among `others` nor finished. */
  ghost predicate Nowhere(sh: Shared, id: nat, others: set<nat>) {
    id !in others && id !in sh.completed && id !in sh.cancelled
  }

  lemma PlacesSplit(sh: Shared, id: nat)
    requires Record(sh)
    ensures Places(sh, id) == Bit(id < sh.inner.nextTaskId)
    ensures id in sh.inner.queue ==> Nowhere(sh, id, sh.inner.runningTasks + sh.inner.cancelling)
    ensures id in sh.inner.runningTasks ==> Nowhere(sh, id, sh.inner.queue.Keys + sh.inner.cancelling)
    ensures id in sh.inner.cancelling ==> Nowhere(sh, id, sh.inner.queue.Keys + sh.inner.runningTasks)
  {
  }

  /** A worker's grip on its task is the only one. */
  lemma WorkerGrip(s: System, t: nat, c: Claim<nat>)
    requires Inv(s) && t < |s.acts| && ClaimOf(s.acts[t]) == Some(c) && Known(s.sh, c.id)
    ensures Grips(s.acts, c.id) == GripOf(s.acts[t], c.id)
    ensures c.id in s.sh.inner.runningTasks && c.id !in s.sh.completed && c.id !in s.sh.cancelled
    ensures JobOk(s.sh, s.acts, c.id)
  {
    GripsCover(s.acts, t, c.id);
    assert Ownership(s.sh, s.acts, c.id);
    PlacesSplit(s.sh, c.id);
    SoleGrip(Grips(s.acts, c.id), GripOf(s.acts[t], c.id));
  }

  /** A worker's grip covered by a total of one is the whole total. */
  lemma SoleGrip(total: Grip, own: Grip)
    requires GripCovers(total, own) && own.taken + own.entered + own.left == 1
    requires total.taken + total.entered + total.left <= 1 && total.owed + total.withdrawn == 0
    ensures total == own
  {
  }

  predicate Cleaner(a: Act) {
    a.Cancelling? || a.CleaningUp? || a.Cleaned?
  }

  lemma CleanerGripPositive(a: Act)
    requires Cleaner(a) && a.owned != []
    ensures var g := GripOf(a, a.owned[0].id); g.owed + g.withdrawn >= 1
  {
    CountPositive(a.owned, 0);
  }

  /** A cleaner's grip on its first task is the only one. */
  lemma CleanerGrip(s: System, t: nat, id: nat)
    requires Inv(s) && t < |s.acts| && Known(s.sh, id)
    requires var g := GripOf(s.acts[t], id); g.owed + g.withdrawn >= 1
    ensures Grips(s.acts, id).entered == Grips(s.acts, id).left == 0
    ensures Grips(s.acts, id).withdrawn == GripOf(s.acts[t], id).withdrawn
    ensures id in s.sh.inner.cancelling && id !in s.sh.completed && id !in s.sh.cancelled
    ensures JobOk(s.sh, s.acts, id)
  {
    GripsCover(s.acts, t, id);
    assert Ownership(s.sh, s.acts, id);
    PlacesSplit(s.sh, id);
  }

  lemma WorkerHolds(sh: Shared, acts: seq<Act>, a: Act, c: Claim<nat>)
    requires ClaimOf(a) == Some(c) && Genuine(sh, c) && JobOk(sh, acts, c.id)
    requires Grips(acts, c.id) == GripOf(a, c.id)
    requires c.id in sh.inner.runningTasks && c.id !in sh.completed && c.id !in sh.cancelled
    ensures Holds(sh, a)
  {
  }

  lemma CleanerHolds(sh: Shared, acts: seq<Act>, a: Act)
    requires Cleaner(a) && Fits(sh, a) && Genuine(sh, a.owned[0]) && JobOk(sh, acts, a.owned[0].id)
    requires var g := Grips(acts, a.owned[0].id);
             g.entered == g.left == 0 && g.withdrawn == Bit(!a.Cancelling?)
    requires a.owned[0].id in sh.inner.cancelling && a.owned[0].id !in sh.completed && a.owned[0].id !in sh.cancelled
    ensures Holds(sh, a)
  {
  }

  lemma HoldsAny(s: System, t: nat)
    requires Inv(s) && t < |s.acts|
    ensures Fits(s.sh, s.acts[t]) && Holds(s.sh, s.acts[t])
  {
    var a := s.acts[t];
    assert ActOk(s.sh, a);
    if a.Closure? {
      LoadsCover(s.acts, t);
    } else if ClaimOf(a).Some? {
      var c := ClaimOf(a).value;
      WorkerGrip(s, t, c);
      WorkerHolds(s.sh, s.acts, a, c);
    } else if Cleaner(a) {
      assert Genuine(s.sh, a.owned[0]);
      CleanerGripPositive(a);
      CleanerGrip(s, t, a.owned[0].id);
      CleanerHolds(s.sh, s.acts, a);
    }
  }
}
