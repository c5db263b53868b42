/** The locked regions of the scheduling state, each as one atomic action of the protocol. */
module LockedActions {
  import opened Actions
  import opened Basics
  import opened Invariant
  import opened ServiceInner
  import opened Threads

  import Evolution

  // ----- `admit` -----

  ghost predicate SubmitRefused(sh: Shared, n: Next) {
    && n.sh == sh.(jobs := sh.jobs + [JobRecord(0, 0, 0, Pending)])
    && n.act.Returned? && (n.act.out.Refused? || n.act.out.SubmitPanicked?)
    && !n.spawned
  }

  ghost predicate SubmitAdmitted(sh: Shared, n: Next, count: nat) {
    && var id := sh.inner.nextTaskId;
    && n.sh == sh.(
       inner := sh.inner.(nextTaskId := id + 1, queue := sh.inner.queue[id := |sh.jobs|],
                          scheduled := sh.inner.scheduled + count),
       jobs := sh.jobs + [JobRecord(1, 0, 0, Pending)],
       admitted := sh.admitted + [|sh.jobs|])
    && n.act == AfterDispatch(id, count)
    && !n.spawned
    && sh.inner.lifecycle == Running
  }

  lemma SubmitCases(sh: Shared, n: Next) returns (count: nat)
    requires n == BeginSubmit(sh)
    ensures SubmitRefused(sh, n) || SubmitAdmitted(sh, n, count)
  {
    count := match Admit(sh.inner, |sh.jobs|).1 case Admitted(_, c) => c case _ => 0;
  }

  lemma SubmitPartition(sh: Shared, n: Next)
    requires Partition(sh) && n == BeginSubmit(sh)
    ensures Partition(n.sh)
  {
    var count := SubmitCases(sh, n);
    forall id: nat ensures Places(n.sh, id) == Bit(id < n.sh.inner.nextTaskId) {
      assert Places(sh, id) == Bit(id < sh.inner.nextTaskId);
      if SubmitAdmitted(sh, n, count) { AdmittedPlaces(sh, n, count, id); }
    }
  }

  lemma AdmittedPlaces(sh: Shared, n: Next, count: nat, id: nat)
    requires SubmitAdmitted(sh, n, count) && Places(sh, id) == Bit(id < sh.inner.nextTaskId)
    ensures Places(n.sh, id) == Bit(id < n.sh.inner.nextTaskId)
  {
    assert id in n.sh.inner.queue <==> id in sh.inner.queue || id == sh.inner.nextTaskId;
  }

  lemma SubmitIdentities(sh: Shared, n: Next)
    requires Identities(sh) && n == BeginSubmit(sh)
    ensures Identities(n.sh)
  {
    var count := SubmitCases(sh, n);
  }

  lemma SubmitRecord(sh: Shared, n: Next)
    requires Record(sh) && n == BeginSubmit(sh)
    ensures Record(n.sh)
  {
    AdmitKeepsValid(sh.inner, |sh.jobs|);
    SubmitPartition(sh, n);
    SubmitIdentities(sh, n);
    StartedIsAdmitted(sh);
    SubmitOrder(sh, n);
    SubmitAnnouncements(sh, n);
  }

  lemma SubmitOrder(sh: Shared, n: Next)
    requires StartOrder(sh) && StartsAdmitted(sh) && n == BeginSubmit(sh)
    ensures StartOrder(n.sh)
  {
    StartOrderKept(sh, n.sh);
  }

  lemma SubmitAnnouncements(sh: Shared, n: Next)
    requires Announcements(sh) && RefusedUntouched(sh) && n == BeginSubmit(sh)
    ensures Announcements(n.sh) && RefusedUntouched(n.sh)
  {
    var count := SubmitCases(sh, n);
    AnnouncementsKept(sh, n.sh, false);
  }

  lemma AdmittedEvolves(sh: Shared, n: Next, count: nat)
    requires Identities(sh) && SubmitAdmitted(sh, n, count) && sh.inner.nextTaskId !in sh.inner.queue
    ensures Evolution.Evolves(sh, n.sh)
    ensures ActOk(n.sh, n.act)
  {
    AddKey(sh.inner.queue, sh.inner.nextTaskId, |sh.jobs|);
  }

  lemma SubmitEvolves(sh: Shared, n: Next)
    requires sh.inner.Valid() && Identities(sh) && n == BeginSubmit(sh)
    ensures Evolution.Evolves(sh, n.sh)
    ensures ActOk(n.sh, n.act)
  {
    var count := SubmitCases(sh, n);
    if SubmitAdmitted(sh, n, count) {
      LiveSplit(sh.inner, sh.inner.nextTaskId);
      AdmittedEvolves(sh, n, count);
    }
  }

  lemma SubmitTotals(sh: Shared, n: Next)
    requires n == BeginSubmit(sh)
    ensures Conserves(sh, Calling(Submit), n)
    ensures Announces(sh, Calling(Submit), n)
  {
    var count := SubmitCases(sh, n);
  }

  lemma SubmitTask(sh: Shared, n: Next, id: nat)
    requires n == BeginSubmit(sh)
    ensures MovesTask(sh, Calling(Submit), n, id)
    ensures Known(sh, id) && Known(n.sh, id) ==> MovesJob(sh, Calling(Submit), n, id)
  {
    var count := SubmitCases(sh, n);
  }

  // ----- `take_next` -----

  lemma TakePartition(sh: Shared, n: Next)
    requires Record(sh) && n == Take(sh)
    ensures Partition(n.sh)
  {
    forall id: nat ensures Places(n.sh, id) == Bit(id < n.sh.inner.nextTaskId) {
      PlacesSplit(sh, id);
    }
  }

  lemma TakeStartOrder(sh: Shared, n: Next)
    requires StartOrder(sh) && sh.inner.queue.Keys !! sh.inner.runningTasks && n == Take(sh)
    ensures StartOrder(n.sh)
  {
    if sh.inner.queue != map[] {
      var id := MinOf(sh.inner.queue.Keys);
      assert |sh.inner.runningTasks + {id}| == |sh.inner.runningTasks| + 1;
    }
  }

  lemma TakeRecord(sh: Shared, n: Next)
    requires Record(sh) && Holds(sh, Closure) && n == Take(sh)
    ensures Record(n.sh)
  {
    TakeNextKeepsValid(sh.inner);
    TakePartition(sh, n);
    QueueApart(sh);
    IdentitiesKept(sh, n.sh);
    TakeStartOrder(sh, n);
    AnnouncementsKept(sh, n.sh, false);
  }

  lemma TakeMovesOn(sh: Shared, n: Next)
    requires n == Take(sh)
    ensures Evolution.TasksMoveOn(sh, n.sh) && Evolution.JobsMoveOn(sh, n.sh)
  {
  }

  lemma TakeEvolves(sh: Shared, n: Next)
    requires n == Take(sh) && n.sh.inner.Occupied() == sh.inner.Occupied()
    requires sh.inner.lifecycle == Stopping ==> sh.inner.queue == map[]
    ensures Evolution.Evolves(sh, n.sh)
  {
    TakeMovesOn(sh, n);
  }

  lemma TakeActOk(sh: Shared, n: Next)
    requires Identities(sh) && n == Take(sh)
    ensures ActOk(n.sh, n.act)
  {
    if sh.inner.queue != map[] {
      var id := MinOf(sh.inner.queue.Keys);
      assert n.act == Taken(Claim(id, sh.inner.queue[id]));
    }
  }

  lemma TakeTotals(sh: Shared, n: Next)
    requires Holds(sh, Closure) && n == Take(sh) && n.sh.inner.Occupied() == sh.inner.Occupied()
    ensures Conserves(sh, Closure, n)
    ensures Announces(sh, Closure, n)
  {
    if sh.inner.queue == map[] {
      assert n.act == Publishing(false, n.act.terminated, Return(WorkerDone));
    } else {
      assert n.act == Taken(n.act.claim);
    }
  }

  lemma TakeTask(sh: Shared, n: Next, id: nat)
    requires sh.inner.queue.Keys !! sh.inner.runningTasks && n == Take(sh)
    ensures MovesTask(sh, Closure, n, id)
    ensures Known(sh, id) && Known(n.sh, id) ==> MovesJob(sh, Closure, n, id)
  {
  }

  // ----- `finish_running` -----

  lemma FinishPartition(sh: Shared, c: Claim<nat>, n: Next)
    requires Record(sh) && c.id in sh.inner.runningTasks && n == Finish(sh, c)
    ensures Partition(n.sh)
  {
    forall id: nat ensures Places(n.sh, id) == Bit(id < n.sh.inner.nextTaskId) {
      PlacesSplit(sh, id);
    }
  }

  lemma FinishRecord(sh: Shared, c: Claim<nat>, n: Next)
    requires Record(sh) && c.id in sh.inner.runningTasks && n == Finish(sh, c)
    ensures Record(n.sh)
  {
    FinishRunningKeepsValid(sh.inner, c.id);
    FinishPartition(sh, c, n);
    IdentitiesKept(sh, n.sh);
    QueueApart(sh);
    assert |sh.completed + {c.id}| == |sh.completed| + 1;
    StartedIsAdmitted(sh);
    StartOrderKept(sh, n.sh);
    AnnouncementsKept(sh, n.sh, false);
  }

  lemma FinishEvolves(sh: Shared, c: Claim<nat>, n: Next)
    requires sh.inner.Valid() && c.id in sh.inner.runningTasks && n == Finish(sh, c)
    ensures Evolution.Evolves(sh, n.sh)
    ensures ActOk(n.sh, n.act)
  {
    FinishRunningKeepsValid(sh.inner, c.id);
  }

  lemma FinishTotals(sh: Shared, c: Claim<nat>, n: Next)
    requires sh.inner.Valid() && c.id in sh.inner.runningTasks && n == Finish(sh, c)
    ensures Conserves(sh, Ran(c), n)
    ensures Announces(sh, Ran(c), n)
  {
    FinishRunningKeepsValid(sh.inner, c.id);
  }

  lemma FinishTask(sh: Shared, c: Claim<nat>, n: Next, id: nat)
    requires c.id in sh.inner.runningTasks && c.id !in sh.completed && n == Finish(sh, c)
    ensures MovesTask(sh, Ran(c), n, id)
    ensures Known(sh, id) && Known(n.sh, id) ==> MovesJob(sh, Ran(c), n, id)
  {
  }

  // ----- `cancel_pending_task` -----

  lemma CancelPartition(sh: Shared, id: nat, via: Via, n: Next)
    requires Record(sh) && n == BeginCancel(sh, id, via)
    ensures Partition(n.sh)
  {
    forall k: nat ensures Places(n.sh, k) == Bit(k < n.sh.inner.nextTaskId) {
      PlacesSplit(sh, k);
    }
  }

  lemma CancelRecord(sh: Shared, id: nat, via: Via, n: Next)
    requires Record(sh) && n == BeginCancel(sh, id, via)
    ensures Record(n.sh)
  {
    CancelPendingKeepsValid(sh.inner, id);
    CancelPartition(sh, id, via, n);
    IdentitiesKept(sh, n.sh);
    StartedIsAdmitted(sh);
    CancelOrder(sh, id, via, n);
    AnnouncementsKept(sh, n.sh, false);
  }

  lemma CancelOrder(sh: Shared, id: nat, via: Via, n: Next)
    requires StartOrder(sh) && StartsAdmitted(sh) && n == BeginCancel(sh, id, via)
    ensures StartOrder(n.sh)
  {
    assert n.sh.starts == sh.starts && n.sh.completed == sh.completed;
    assert n.sh.inner.runningTasks == sh.inner.runningTasks;
    StartOrderKept(sh, n.sh);
  }

  lemma CancelMovesOn(sh: Shared, id: nat, via: Via, n: Next)
    requires n == BeginCancel(sh, id, via)
    ensures Evolution.TasksMoveOn(sh, n.sh) && Evolution.JobsMoveOn(sh, n.sh)
  {
  }

  lemma CancelEvolves(sh: Shared, id: nat, via: Via, n: Next)
    requires n == BeginCancel(sh, id, via) && n.sh.inner.Occupied() == sh.inner.Occupied()
    ensures Evolution.Evolves(sh, n.sh)
  {
    CancelMovesOn(sh, id, via, n);
  }

  lemma CancelActOk(sh: Shared, id: nat, via: Via, n: Next)
    requires Identities(sh) && Known(sh, id) && n == BeginCancel(sh, id, via)
    ensures ActOk(n.sh, n.act)
  {
    if id in sh.inner.queue {
      assert n.act == Cancelling([Claim(id, sh.inner.queue[id])], CancelDone(id, CancelledNow, true));
    } else if id in sh.inner.cancelling {
      assert n.act == Returned(CancelDone(id, CancelledNow, false));
    } else {
      assert n.act == Unclaimed(id, via);
    }
  }

  lemma CancelTotals(sh: Shared, id: nat, via: Via, n: Next)
    requires sh.inner.queue.Keys !! sh.inner.cancelling && n == BeginCancel(sh, id, via)
    requires n.sh.inner.Occupied() == sh.inner.Occupied()
    ensures Conserves(sh, Calling(Cancel(id, via)), n)
    ensures Announces(sh, Calling(Cancel(id, via)), n)
  {
    if id in sh.inner.queue {
      assert |sh.inner.cancelling + {id}| == |sh.inner.cancelling| + 1;
      assert n.act == Cancelling([Claim(id, sh.inner.queue[id])], CancelDone(id, CancelledNow, true));
    } else {
      assert n.sh == sh && (n.act == Returned(CancelDone(id, CancelledNow, false)) || n.act == Unclaimed(id, via));
    }
  }

  lemma CancelTask(sh: Shared, id: nat, via: Via, n: Next, k: nat)
    requires sh.inner.queue.Keys !! sh.inner.cancelling && n == BeginCancel(sh, id, via)
    ensures MovesTask(sh, Calling(Cancel(id, via)), n, k)
    ensures Known(sh, k) && Known(n.sh, k) ==> MovesJob(sh, Calling(Cancel(id, via)), n, k)
  {
    assert forall c: Claim<nat> :: Count([c], k) == Bit(c.id == k) by {
      forall c: Claim<nat> ensures Count([c], k) == Bit(c.id == k) { assert [c][1..] == []; }
    }
  }

  // ----- `finish_cancelling` -----

  lemma ReleasePartition(sh: Shared, owned: seq<Claim<nat>>, out: Outcome, n: Next)
    requires Record(sh) && owned != [] && owned[0].id in sh.inner.cancelling && n == Release(sh, owned, out)
    ensures Partition(n.sh)
  {
    forall id: nat ensures Places(n.sh, id) == Bit(id < n.sh.inner.nextTaskId) {
      PlacesSplit(sh, id);
    }
  }

  lemma ReleaseRecord(sh: Shared, owned: seq<Claim<nat>>, out: Outcome, n: Next)
    requires Record(sh) && owned != [] && owned[0].id in sh.inner.cancelling && n == Release(sh, owned, out)
    ensures Record(n.sh)
  {
    FinishCancellingKeepsValid(sh.inner, owned[0].id);
    ReleasePartition(sh, owned, out, n);
    IdentitiesKept(sh, n.sh);
    StartedIsAdmitted(sh);
    StartOrderKept(sh, n.sh);
    AnnouncementsKept(sh, n.sh, true);
  }

  lemma ReleaseEvolves(sh: Shared, owned: seq<Claim<nat>>, out: Outcome, n: Next)
    requires sh.inner.Valid() && ActOk(sh, Cleaned(owned, out)) && n == Release(sh, owned, out)
    requires owned[0].id in sh.inner.cancelling
    ensures Evolution.Evolves(sh, n.sh)
    ensures ActOk(n.sh, n.act)
  {
    FinishCancellingKeepsValid(sh.inner, owned[0].id);
    forall i | 0 <= i < |owned[1..]| ensures Genuine(n.sh, owned[1..][i]) {
      assert Genuine(sh, owned[i + 1]);
    }
    Evolution.StillOutcome(sh, n.sh, out);
  }

  lemma ReleaseTotals(sh: Shared, owned: seq<Claim<nat>>, out: Outcome, n: Next)
    requires sh.inner.cancelling !! sh.cancelled && owned != [] && owned[0].id in sh.inner.cancelling
    requires n == Release(sh, owned, out)
    ensures Conserves(sh, Cleaned(owned, out), n)
    ensures Announces(sh, Cleaned(owned, out), n)
  {
    var id := owned[0].id;
    assert |sh.inner.cancelling - {id}| == |sh.inner.cancelling| - 1;
    assert |sh.cancelled + {id}| == |sh.cancelled| + 1;
  }

  lemma ReleaseTask(sh: Shared, owned: seq<Claim<nat>>, out: Outcome, n: Next, id: nat)
    requires sh.inner.cancelling !! sh.cancelled && owned != [] && owned[0].id in sh.inner.cancelling
    requires n == Release(sh, owned, out)
    ensures MovesTask(sh, Cleaned(owned, out), n, id)
    ensures Known(sh, id) && Known(n.sh, id) ==> MovesJob(sh, Cleaned(owned, out), n, id)
  {
  }

  // ----- `shutdown` -----

  lemma ShutdownRecord(sh: Shared, n: Next)
    requires Record(sh) && n == BeginShutdownCall(sh)
    ensures Record(n.sh)
  {
    BeginShutdownKeepsValid(sh.inner);
    forall id: nat ensures Places(n.sh, id) == Bit(id < n.sh.inner.nextTaskId) {
      PlacesSplit(sh, id);
    }
    IdentitiesKept(sh, n.sh);
    StartedIsAdmitted(sh);
    StartOrderKept(sh, n.sh);
    AnnouncementsKept(sh, n.sh, false);
  }

  lemma ShutdownEvolves(sh: Shared, n: Next)
    requires sh.inner.Valid() && n == BeginShutdownCall(sh)
    ensures Evolution.Evolves(sh, n.sh)
    ensures ActOk(n.sh, n.act)
  {
  }

  lemma ShutdownTotals(sh: Shared, n: Next)
    requires n == BeginShutdownCall(sh)
    ensures Conserves(sh, Calling(Call.Shutdown), n)
    ensures Announces(sh, Calling(Call.Shutdown), n)
  {
  }

  lemma ShutdownTask(sh: Shared, n: Next, id: nat)
    requires n == BeginShutdownCall(sh)
    ensures MovesTask(sh, Calling(Call.Shutdown), n, id)
    ensures Known(sh, id) && Known(n.sh, id) ==> MovesJob(sh, Calling(Call.Shutdown), n, id)
  {
  }

  // ----- `stop` -----

  lemma StopPartition(sh: Shared, n: Next)
    requires Record(sh) && n == BeginStop(sh)
    ensures Partition(n.sh)
  {
    forall id: nat ensures Places(n.sh, id) == Bit(id < n.sh.inner.nextTaskId) {
      PlacesSplit(sh, id);
    }
  }

  lemma StopRecord(sh: Shared, n: Next)
    requires Record(sh) && n == BeginStop(sh)
    ensures Record(n.sh)
  {
    StopKeepsValid(sh.inner);
    StopPartition(sh, n);
    IdentitiesKept(sh, n.sh);
    StartedIsAdmitted(sh);
    StartOrderKept(sh, n.sh);
    AnnouncementsKept(sh, n.sh, false);
  }

  lemma StopEvolves(sh: Shared, n: Next)
    requires n == BeginStop(sh) && n.sh.inner.Occupied() == sh.inner.Occupied()
    requires sh.inner.lifecycle != Terminated
    ensures Evolution.Evolves(sh, n.sh)
  {
  }

  lemma StopActOk(sh: Shared, n: Next)
    requires Identities(sh) && n == BeginStop(sh)
    ensures ActOk(n.sh, n.act)
  {
    var owned := InOrder(sh.inner.queue);
    forall i | 0 <= i < |owned| ensures Genuine(n.sh, owned[i]) {
      assert owned[i].id in sh.inner.queue;
    }
  }

  lemma StopTotals(sh: Shared, n: Next)
    requires n == BeginStop(sh) && |n.sh.inner.cancelling| == |sh.inner.cancelling| + |sh.inner.queue|
    ensures Conserves(sh, Calling(Call.Stop), n)
    ensures Announces(sh, Calling(Call.Stop), n)
  {
    assert n.act == Publishing(true, n.sh.inner.IsTerminated(), Clean(n.act.k.owned, StopDone(n.act.k.out.report)));
  }

  /** Stated for any list with one entry per queued task, as `stop` builds it. */
  lemma StopTask(sh: Shared, n: Next, owned: seq<Claim<nat>>, id: nat)
    requires n.act.Publishing? && n.act.k.Clean? && n.act.k.owned == owned && !n.spawned
    requires Count(owned, id) == Bit(id in sh.inner.queue) && sh.inner.queue.Keys !! sh.inner.cancelling
    requires n.sh.inner.cancelling == sh.inner.cancelling + sh.inner.queue.Keys
    requires n.sh.inner.runningTasks == sh.inner.runningTasks
    requires n.sh.jobs == sh.jobs && n.sh.admitted == sh.admitted
    requires n.sh.completed == sh.completed && n.sh.cancelled == sh.cancelled
    ensures MovesTask(sh, Calling(Call.Stop), n, id)
    ensures Known(sh, id) ==> MovesJob(sh, Calling(Call.Stop), n, id)
  {
  }
}
