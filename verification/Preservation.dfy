/** Every step of the system keeps the invariant, so every reachable state satisfies it. */
module Preservation {
  import opened Actions
  import opened Basics
  import opened Counts
  import opened Invariant
  import opened LockedActions
  import opened ServiceInner
  import opened Threads
  import opened UnlockedActions

  import Evolution

  lemma NoNewTasks(a: Shared, n: Next)
    requires n.sh.admitted == a.admitted && |n.sh.jobs| == |a.jobs|
    ensures AdmitsFresh(a, n)
  {
  }

  // ----- Each action is sound -----

  lemma SubmitSound(sh: Shared, n: Next)
    requires Record(sh) && n == BeginSubmit(sh)
    ensures Sound(sh, Calling(Submit), n)
  {
    SubmitRecord(sh, n);
    SubmitEvolves(sh, n);
    SubmitTotals(sh, n);
    SubmitFresh(sh, n);
    forall id: nat
      ensures MovesTask(sh, Calling(Submit), n, id)
      ensures Known(sh, id) && Known(n.sh, id) ==> MovesJob(sh, Calling(Submit), n, id)
    {
      SubmitTask(sh, n, id);
    }
  }

  lemma SubmitFresh(sh: Shared, n: Next)
    requires Identities(sh) && n == BeginSubmit(sh)
    ensures AdmitsFresh(sh, n)
  {
    var count := SubmitCases(sh, n);
  }

  lemma TakeSound(sh: Shared, n: Next)
    requires Record(sh) && Holds(sh, Closure) && n == Take(sh)
    ensures Sound(sh, Closure, n)
  {
    TakeNextKeepsValid(sh.inner);
    TakeRecord(sh, n);
    TakeEvolves(sh, n);
    TakeActOk(sh, n);
    TakeTotals(sh, n);
    NoNewTasks(sh, n);
    QueueApart(sh);
    forall id: nat
      ensures MovesTask(sh, Closure, n, id)
      ensures Known(sh, id) && Known(n.sh, id) ==> MovesJob(sh, Closure, n, id)
    {
      TakeTask(sh, n, id);
    }
  }

  lemma FinishSound(sh: Shared, c: Claim<nat>, n: Next)
    requires Record(sh) && c.id in sh.inner.runningTasks && n == Finish(sh, c)
    ensures Sound(sh, Ran(c), n)
  {
    FinishRecord(sh, c, n);
    FinishEvolves(sh, c, n);
    FinishTotals(sh, c, n);
    NoNewTasks(sh, n);
    PlacesSplit(sh, c.id);
    forall id: nat
      ensures MovesTask(sh, Ran(c), n, id)
      ensures Known(sh, id) && Known(n.sh, id) ==> MovesJob(sh, Ran(c), n, id)
    {
      FinishTask(sh, c, n, id);
    }
  }

  lemma CancelSound(sh: Shared, id: nat, via: Via, n: Next)
    requires Record(sh) && Known(sh, id) && n == BeginCancel(sh, id, via)
    ensures Sound(sh, Calling(Cancel(id, via)), n)
  {
    CancelPendingKeepsValid(sh.inner, id);
    CancelRecord(sh, id, via, n);
    CancelEvolves(sh, id, via, n);
    CancelActOk(sh, id, via, n);
    QueueApart(sh);
    CancelTotals(sh, id, via, n);
    NoNewTasks(sh, n);
    forall k: nat
      ensures MovesTask(sh, Calling(Cancel(id, via)), n, k)
      ensures Known(sh, k) && Known(n.sh, k) ==> MovesJob(sh, Calling(Cancel(id, via)), n, k)
    {
      CancelTask(sh, id, via, n, k);
    }
  }

  lemma ReleaseSound(sh: Shared, owned: seq<Claim<nat>>, out: Outcome, n: Next)
    requires Record(sh) && ActOk(sh, Cleaned(owned, out)) && owned[0].id in sh.inner.cancelling
    requires n == Release(sh, owned, out)
    ensures Sound(sh, Cleaned(owned, out), n)
  {
    ReleaseRecord(sh, owned, out, n);
    ReleaseEvolves(sh, owned, out, n);
    QueueApart(sh);
    ReleaseTotals(sh, owned, out, n);
    NoNewTasks(sh, n);
    forall id: nat
      ensures MovesTask(sh, Cleaned(owned, out), n, id)
      ensures Known(sh, id) && Known(n.sh, id) ==> MovesJob(sh, Cleaned(owned, out), n, id)
    {
      ReleaseTask(sh, owned, out, n, id);
    }
  }

  lemma ShutdownSound(sh: Shared, n: Next)
    requires Record(sh) && n == BeginShutdownCall(sh)
    ensures Sound(sh, Calling(Call.Shutdown), n)
  {
    ShutdownRecord(sh, n);
    ShutdownEvolves(sh, n);
    ShutdownTotals(sh, n);
    NoNewTasks(sh, n);
    forall id: nat
      ensures MovesTask(sh, Calling(Call.Shutdown), n, id)
      ensures Known(sh, id) && Known(n.sh, id) ==> MovesJob(sh, Calling(Call.Shutdown), n, id)
    {
      ShutdownTask(sh, n, id);
    }
  }

  lemma StopSound(sh: Shared, n: Next)
    requires Record(sh) && n == BeginStop(sh)
    ensures Sound(sh, Calling(Call.Stop), n)
  {
    StopKeepsValid(sh.inner);
    StopRecord(sh, n);
    StopEvolves(sh, n);
    StopActOk(sh, n);
    StopTotals(sh, n);
    NoNewTasks(sh, n);
    QueueApart(sh);
    forall id: nat
      ensures MovesTask(sh, Calling(Call.Stop), n, id)
      ensures Known(sh, id) && Known(n.sh, id) ==> MovesJob(sh, Calling(Call.Stop), n, id)
    {
      CountInOrder(sh.inner.queue, id);
      StopTask(sh, n, InOrder(sh.inner.queue), id);
    }
  }

  /** An action that leaves the shared state alone and concerns no task. */
  lemma TaskFreeSound(sh: Shared, a: Act, n: Next)
    requires Record(sh) && n.sh == sh && TaskFree(a) && TaskFree(n.act)
    requires Conserves(sh, a, n) && Announces(sh, a, n) && ActOk(sh, n.act)
    ensures Sound(sh, a, n)
  {
    NoNewTasks(sh, n);
    Evolution.EvolvesReflexive(sh);
    forall id: nat
      ensures MovesTask(sh, a, n, id)
      ensures Known(sh, id) ==> MovesJob(sh, a, n, id)
    {
      TaskFreeAction(sh, a, n, id);
    }
  }

  lemma AnnouncingSound(sh: Shared, a: Act, n: Next)
    requires Announcing(a) && Record(sh) && ActOk(sh, a) && n == Advance(sh, a, Pending)
    ensures Sound(sh, a, n)
  {
    AnnouncingActOk(sh, a, n);
    AnnouncingEvolves(sh, a, n);
    OutsideRecord(sh, n.sh);
    NoNewTasks(sh, n);
    if a.Publishing? {
      PublishTotals(sh, a, n);
    } else if a.PublishingEnd? {
      PublishEndTotals(sh, a, n);
    } else {
      RepairTotals(sh, a, n);
    }
    forall id: nat
      ensures MovesTask(sh, a, n, id)
      ensures Known(sh, id) ==> MovesJob(sh, a, n, id)
    {
      AnnouncingGrip(sh, a, n, id);
      AnnouncingTask(sh, a, n, id);
    }
  }

  lemma SlotsOnly(a: Shared, b: Shared)
    requires Record(a) && b == a.(jobs := b.jobs) && Outside(a, b) && RefusedUntouched(b) && Evolution.JobsMoveOn(a, b)
    ensures Record(b) && Evolution.Evolves(a, b)
  {
    OutsideRecord(a, b);
    Evolution.EvolvesReflexive(a);
  }

  lemma TouchingSound(sh: Shared, a: Act, completion: TaskStatus, n: Next)
    requires Touching(a) && Record(sh) && ActOk(sh, a) && Holds(sh, a)
    requires n == Advance(sh, a, completion) && (a.Working? ==> completion.Completion())
    ensures Sound(sh, a, n)
  {
    TouchingFrame(sh, a, completion, n);
    TouchingActOk(sh, a, completion, n);
    SlotsOnly(sh, n.sh);
    TouchingTotals(sh, a, completion, n);
    NoNewTasks(sh, n);
    forall id: nat
      ensures MovesTask(sh, a, n, id)
      ensures Known(sh, id) ==> Known(n.sh, id) && MovesJob(sh, a, n, id)
    {
      match a
      case Taken(c) => EnterRunTask(sh, c, n, id);
      case Working(c) => LeaveRunTask(sh, c, completion, n, id);
      case Cancelling(owned, out) => PublishCancellationTask(sh, owned, out, n, id);
      case CleaningUp(owned, out) => DestroyedTask(sh, owned, out, n, id);
    }
  }

  // ----- Any action of a reachable state is sound -----

  /** A task that is neither queued nor cancelling is running, or its slot is terminal. */
  lemma UnclaimedTask(s: System, id: nat)
    requires Inv(s) && Known(s.sh, id) && id !in s.sh.inner.queue && id !in s.sh.inner.cancelling
    ensures id in s.sh.inner.runningTasks || id in s.sh.completed || id in s.sh.cancelled
    ensures id in s.sh.completed || id in s.sh.cancelled ==> StatusOf(s.sh, id).Terminal()
  {
    PlacesSplit(s.sh, id);
    assert JobOk(s.sh, s.acts, id);
  }

  lemma CallSound(sh: Shared, call: Call, n: Next)
    requires Record(sh) && ActOk(sh, Calling(call)) && n == Advance(sh, Calling(call), Pending)
    ensures Sound(sh, Calling(call), n)
  {
    match call
    case Submit => SubmitSound(sh, n);
    case Cancel(id, via) => CancelSound(sh, id, via, n);
    case Shutdown => ShutdownSound(sh, n);
    case Stop => StopSound(sh, n);
    case SubscribeTermination(wait) =>
      SubscribeSound(sh, Calling(call), n);
      TaskFreeSound(sh, Calling(call), n);
  }

  lemma SpawningSound(sh: Shared, a: Act, n: Next)
    requires Record(sh) && ActOk(sh, a) && (a.Dispatching? || a.Respawning?) && n == Advance(sh, a, Pending)
    ensures Sound(sh, a, n)
  {
    if a.Dispatching? {
      DispatchSound(sh, a.taskId, a.left, n);
    } else {
      RespawnSound(sh, n);
    }
    TaskFreeSound(sh, a, n);
  }

  lemma ReadingSound(s: System, a: Act, n: Next)
    requires Inv(s) && ActOk(s.sh, a) && (a.Unclaimed? || a.Fallback?) && n == Advance(s.sh, a, Pending)
    ensures Sound(s.sh, a, n)
  {
    if a.Unclaimed? {
      UnclaimedTask(s, a.taskId);
      UnclaimedSound(s.sh, a.taskId, a.via, n);
    } else {
      assert JobOk(s.sh, s.acts, a.taskId);
      FallbackSound(s.sh, a.taskId, n);
    }
    TaskFreeSound(s.sh, a, n);
  }

  lemma LockedSound(sh: Shared, a: Act, n: Next)
    requires a.Calling? || a.Closure? || a.Ran? || a.Cleaned?
    requires Record(sh) && ActOk(sh, a) && Holds(sh, a) && n == Advance(sh, a, Pending)
    ensures Sound(sh, a, n)
  {
    match a
    case Calling(call) => CallSound(sh, call, n);
    case Closure => TakeSound(sh, n);
    case Ran(c) => FinishSound(sh, c, n);
    case Cleaned(owned, out) => ReleaseSound(sh, owned, out, n);
  }

  lemma UnlockedSound(sh: Shared, a: Act, completion: TaskStatus, n: Next)
    requires Announcing(a) || Touching(a) || a.Dispatching? || a.Respawning?
    requires Record(sh) && ActOk(sh, a) && Holds(sh, a)
    requires n == Advance(sh, a, completion) && (a.Working? ==> completion.Completion())
    ensures Sound(sh, a, n)
  {
    if Announcing(a) {
      AnnouncingSound(sh, a, n);
    } else if Touching(a) {
      TouchingSound(sh, a, completion, n);
    } else {
      SpawningSound(sh, a, n);
    }
  }

  lemma GoSound(s: System, t: nat, completion: TaskStatus, n: Next)
    requires Inv(s) && Enabled(s, Go(t, completion)) && n == Advance(s.sh, s.acts[t], completion)
    ensures Sound(s.sh, s.acts[t], n)
  {
    var a := s.acts[t];
    assert ActOk(s.sh, a);
    HoldsAny(s, t);
    if a.Calling? || a.Closure? || a.Ran? || a.Cleaned? {
      LockedSound(s.sh, a, n);
    } else if a.Unclaimed? || a.Fallback? {
      ReadingSound(s, a, n);
    } else if a.Subscribed? || a.Awaiting? {
      SubscribeSound(s.sh, a, n);
      TaskFreeSound(s.sh, a, n);
    } else {
      UnlockedSound(s.sh, a, completion, n);
    }
  }

  // ----- From one action to the whole system -----

  lemma TalliesStep(sh: Shared, acts: seq<Act>, t: nat, n: Next)
    requires t < |acts| && Tallies(sh, acts) && Conserves(sh, acts[t], n) && Announces(sh, acts[t], n)
    requires sh.terminationValue ==> n.sh.terminationValue
    ensures Tallies(n.sh, Spawn(acts[t := n.act], n.spawned))
  {
    var acts' := Spawn(acts[t := n.act], n.spawned);
    LoadsStep(acts, t, n.act, n.spawned);
    assert acts'[t] == n.act;
    LoadsCover(acts', t);
  }

  lemma OwnershipStep(sh: Shared, acts: seq<Act>, t: nat, n: Next, id: nat)
    requires t < |acts| && Ownership(sh, acts, id) && MovesTask(sh, acts[t], n, id)
    ensures Ownership(n.sh, Spawn(acts[t := n.act], n.spawned), id)
  {
    GripsStep(acts, t, n.act, n.spawned, id);
  }

  lemma JobStep(sh: Shared, acts: seq<Act>, t: nat, n: Next, id: nat)
    requires t < |acts| && Known(sh, id) && Known(n.sh, id) && JobOk(sh, acts, id)
    requires MovesJob(sh, acts[t], n, id)
    ensures JobOk(n.sh, Spawn(acts[t := n.act], n.spawned), id)
  {
    GripsStep(acts, t, n.act, n.spawned, id);
  }

  lemma FreshJob(a: Shared, n: Next, acts: seq<Act>, id: nat)
    requires Known(n.sh, id) && !Known(a, id) && Partition(n.sh) && AdmitsFresh(a, n) && Ownership(n.sh, acts, id)
    ensures JobOk(n.sh, acts, id)
  {
    assert Places(n.sh, id) <= 1;
  }

  lemma ActsStep(sh: Shared, acts: seq<Act>, t: nat, n: Next)
    requires t < |acts| && Evolution.Evolves(sh, n.sh) && ActOk(n.sh, n.act)
    requires forall u | 0 <= u < |acts| :: ActOk(sh, acts[u])
    ensures var acts' := Spawn(acts[t := n.act], n.spawned); forall u | 0 <= u < |acts'| :: ActOk(n.sh, acts'[u])
  {
    var acts' := Spawn(acts[t := n.act], n.spawned);
    forall u | 0 <= u < |acts'| ensures ActOk(n.sh, acts'[u]) {
      if u < |acts| && u != t {
        assert acts'[u] == acts[u];
        Evolution.StillOk(sh, n.sh, acts[u]);
      } else {
        assert acts'[u] == n.act || acts'[u] == Closure;
      }
    }
  }

  lemma OwnershipsStep(sh: Shared, acts: seq<Act>, t: nat, n: Next, acts': seq<Act>)
    requires t < |acts| && acts' == Spawn(acts[t := n.act], n.spawned)
    requires forall id: nat :: Ownership(sh, acts, id)
    requires forall id: nat :: MovesTask(sh, acts[t], n, id)
    ensures forall id: nat :: Ownership(n.sh, acts', id)
  {
    forall id: nat ensures Ownership(n.sh, acts', id) {
      assert Ownership(sh, acts, id) && MovesTask(sh, acts[t], n, id);
      OwnershipStep(sh, acts, t, n, id);
    }
  }

  lemma JobsStep(sh: Shared, acts: seq<Act>, t: nat, n: Next, acts': seq<Act>)
    requires t < |acts| && Sound(sh, acts[t], n) && acts' == Spawn(acts[t := n.act], n.spawned)
    requires forall id: nat | Known(sh, id) :: JobOk(sh, acts, id)
    requires forall id: nat :: Ownership(n.sh, acts', id)
    ensures forall id: nat | Known(n.sh, id) :: JobOk(n.sh, acts', id)
  {
    forall id: nat | Known(n.sh, id) ensures JobOk(n.sh, acts', id) {
      if Known(sh, id) {
        assert JobOk(sh, acts, id);
        JobStep(sh, acts, t, n, id);
      } else {
        assert Ownership(n.sh, acts', id);
        FreshJob(sh, n, acts', id);
      }
    }
  }

  lemma GoKeepsInv(s: System, t: nat, completion: TaskStatus)
    requires Inv(s) && Enabled(s, Go(t, completion))
    ensures Inv(Apply(s, Go(t, completion)))
    ensures Evolution.Evolves(s.sh, Apply(s, Go(t, completion)).sh)
  {
    var n := Advance(s.sh, s.acts[t], completion);
    GoSound(s, t, completion, n);
    var acts' := Spawn(s.acts[t := n.act], n.spawned);
    TalliesStep(s.sh, s.acts, t, n);
    OwnershipsStep(s.sh, s.acts, t, n, acts');
    JobsStep(s.sh, s.acts, t, n, acts');
    ActsStep(s.sh, s.acts, t, n);
  }

  /** Waiters and the clock enter no count. */
  lemma WaiterCounts(a: Shared, b: Shared, acts: seq<Act>, id: nat)
    requires b == a.(waiters := b.waiters, now := b.now)
    ensures Tallies(a, acts) ==> Tallies(b, acts)
    ensures Ownership(a, acts, id) ==> Ownership(b, acts, id)
    ensures Known(a, id) && JobOk(a, acts, id) ==> JobOk(b, acts, id)
  {
  }

  lemma WaiterActs(a: Shared, b: Shared, acts: seq<Act>)
    requires Evolution.Evolves(a, b) && forall u | 0 <= u < |acts| :: ActOk(a, acts[u])
    ensures forall u | 0 <= u < |acts| :: ActOk(b, acts[u])
  {
    forall u | 0 <= u < |acts| ensures ActOk(b, acts[u]) {
      Evolution.StillOk(a, b, acts[u]);
    }
  }

  lemma WaiterKeepsInv(s: System, step: Step)
    requires Inv(s) && Enabled(s, step) && (step.StartWait? || step.Check? || step.Wake? || step.Tick?)
    ensures Inv(Apply(s, step))
    ensures Evolution.Evolves(s.sh, Apply(s, step).sh)
  {
    var sh := Apply(s, step).sh;
    WaitersOnly(s.sh, sh);
    WaiterCounts(s.sh, sh, s.acts, 0);
    forall id: nat ensures Ownership(sh, s.acts, id) {
      assert Ownership(s.sh, s.acts, id);
      WaiterCounts(s.sh, sh, s.acts, id);
    }
    forall id: nat | Known(sh, id) ensures JobOk(sh, s.acts, id) {
      assert JobOk(s.sh, s.acts, id);
      WaiterCounts(s.sh, sh, s.acts, id);
    }
    WaiterActs(s.sh, sh, s.acts);
  }

  lemma WaitersOnly(a: Shared, b: Shared)
    requires Record(a) && b == a.(waiters := b.waiters, now := b.now) && a.now <= b.now && Announcements(b)
    ensures Record(b) && Evolution.Evolves(a, b)
  {
    forall id: nat ensures Places(b, id) == Bit(id < b.inner.nextTaskId) {
      PlacesSplit(a, id);
    }
  }

  /** Entering a call changes no count. */
  lemma StartCounts(sh: Shared, acts: seq<Act>, call: Call, id: nat)
    ensures Tallies(sh, acts) ==> Tallies(sh, acts + [Calling(call)])
    ensures Ownership(sh, acts, id) ==> Ownership(sh, acts + [Calling(call)], id)
    ensures Known(sh, id) && JobOk(sh, acts, id) ==> JobOk(sh, acts + [Calling(call)], id)
  {
    CountsStart(acts, call, id);
  }

  lemma StartActs(sh: Shared, acts: seq<Act>, call: Call)
    requires ActOk(sh, Calling(call)) && forall u | 0 <= u < |acts| :: ActOk(sh, acts[u])
    ensures var acts' := acts + [Calling(call)]; forall u | 0 <= u < |acts'| :: ActOk(sh, acts'[u])
  {
  }

  lemma StartKeepsInv(s: System, call: Call)
    requires Inv(s) && Enabled(s, Start(call))
    ensures Inv(Apply(s, Start(call)))
  {
    var acts' := s.acts + [Calling(call)];
    StartCounts(s.sh, s.acts, call, 0);
    forall id: nat ensures Ownership(s.sh, acts', id) {
      assert Ownership(s.sh, s.acts, id);
      StartCounts(s.sh, s.acts, call, id);
    }
    forall id: nat | Known(s.sh, id) ensures JobOk(s.sh, acts', id) {
      assert JobOk(s.sh, s.acts, id);
      StartCounts(s.sh, s.acts, call, id);
    }
    StartActs(s.sh, s.acts, call);
  }

  /** Every step keeps the invariant and moves the shared state forward only. */
  lemma StepKeepsInv(s: System, step: Step)
    requires Inv(s) && Enabled(s, step)
    ensures Inv(Apply(s, step))
    ensures Evolution.Evolves(s.sh, Apply(s, step).sh)
  {
    match step
    case Start(call) => StartKeepsInv(s, call); Evolution.EvolvesReflexive(s.sh);
    case Go(t, completion) => GoKeepsInv(s, t, completion);
    case _ => WaiterKeepsInv(s, step);
  }

  lemma {:induction false} RunKeepsInv(s: System, steps: seq<Step>)
    requires Inv(s) && ValidRun(s, steps)
    ensures Inv(Run(s, steps))
    ensures Evolution.Evolves(s.sh, Run(s, steps).sh)
    decreases |steps|
  {
    if steps == [] {
      Evolution.EvolvesReflexive(s.sh);
    } else {
      var next := Apply(s, steps[0]);
      StepKeepsInv(s, steps[0]);
      RunKeepsInv(next, steps[1..]);
      Evolution.EvolvesTransitive(s.sh, next.sh, Run(next, steps[1..]).sh);
    }
  }

  lemma InitialInv(taskCapacity: nat, numThreads: nat)
    requires 1 <= taskCapacity <= MAX_USIZE && 1 <= numThreads
    ensures Inv(InitialSystem(taskCapacity, numThreads))
  {
    var s := InitialSystem(taskCapacity, numThreads);
    forall id: nat ensures Places(s.sh, id) == Bit(id < s.sh.inner.nextTaskId) && Ownership(s.sh, s.acts, id) {}
  }

  /** A service keeps the capacity and the workers it was built with. */
  lemma ConfiguredAs(s: System, capacity: nat, threads: nat)
    requires ReachableWith(s, capacity, threads)
    ensures Inv(s) && Reachable(s)
    ensures s.sh.inner.taskCapacity == capacity && s.sh.inner.numThreads == threads
  {
    var steps: seq<Step> :|
      ValidRun(InitialSystem(capacity, threads), steps) && Run(InitialSystem(capacity, threads), steps) == s;
    InitialInv(capacity, threads);
    RunKeepsInv(InitialSystem(capacity, threads), steps);
  }

  lemma ReachableInv(s: System)
    requires Reachable(s)
    ensures Inv(s)
  {
    var capacity: nat, threads: nat :| ReachableWith(s, capacity, threads);
    ConfiguredAs(s, capacity, threads);
  }

  lemma InvAfter(s: System, step: Step)
    requires Reachable(s) && Enabled(s, step)
    ensures Inv(Apply(s, step))
  {
    ReachableInv(s);
    StepKeepsInv(s, step);
  }
}
