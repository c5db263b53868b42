/**
 The simple machine the scheduler implements: each task has a phase, tasks
 start oldest first, and a bounded number of them is unfinished.
 */
module TaskMachine {

  datatype Phase = Queued | Running | Cancelling | Completed | Cancelled
  {
    predicate Unfinished() {
      Queued? || Running? || Cancelling?
    }
  }

  datatype Tasks = Tasks(open: bool, phases: seq<Phase>)

  datatype Event =
    | Stutter
    | Admit
    | Start(id: nat)
    | Claim(id: nat)
    | Complete(id: nat)
    | Release(id: nat)
    | Close
    | CloseAndClaimAll

  function Unfinished(ts: Tasks): set<nat> {
    set id | 0 <= id < |ts.phases| && ts.phases[id].Unfinished()
  }

  predicate In(ts: Tasks, id: nat, p: Phase) {
    id < |ts.phases| && ts.phases[id] == p
  }

  predicate Allowed(ts: Tasks, e: Event, capacity: nat) {
    match e
    case Admit => ts.open && |Unfinished(ts)| < capacity
    case Start(id) => In(ts, id, Queued) && forall k | 0 <= k < id :: ts.phases[k] != Queued
    case Claim(id) => In(ts, id, Queued)
    case Complete(id) => In(ts, id, Running)
    case Release(id) => In(ts, id, Cancelling)
    case _ => true
  }

  function Move(ts: Tasks, id: nat, p: Phase): Tasks {
    if id < |ts.phases| then ts.(phases := ts.phases[id := p]) else ts
  }

  function ClaimQueued(ps: seq<Phase>): seq<Phase> {
    seq(|ps|, i requires 0 <= i < |ps| => if ps[i] == Queued then Cancelling else ps[i])
  }

  function After(ts: Tasks, e: Event): Tasks {
    match e
    case Stutter => ts
    case Admit => ts.(phases := ts.phases + [Queued])
    case Start(id) => Move(ts, id, Running)
    case Claim(id) => Move(ts, id, Cancelling)
    case Complete(id) => Move(ts, id, Completed)
    case Release(id) => Move(ts, id, Cancelled)
    case Close => ts.(open := false)
    case CloseAndClaimAll => Tasks(false, ClaimQueued(ts.phases))
  }

  predicate Trace(ts: Tasks, es: seq<Event>, capacity: nat)
    decreases |es|
  {
    es == [] || (Allowed(ts, es[0], capacity) && Trace(After(ts, es[0]), es[1..], capacity))
  }

  function AfterAll(ts: Tasks, es: seq<Event>): Tasks
    decreases |es|
  {
    if es == [] then ts else AfterAll(After(ts, es[0]), es[1..])
  }
}

/** The interleaved system refines the task machine, step by step and over whole runs. */
module Refinement {
  import opened Basics
  import opened Invariant
  import opened ServiceInner
  import opened Threads

  import Actions
  import LockedActions
  import Preservation
  import TM = TaskMachine

  function PhaseOf(sh: Shared, id: nat): TM.Phase {
    if id in sh.inner.queue then TM.Queued
    else if id in sh.inner.runningTasks then TM.Running
    else if id in sh.inner.cancelling then TM.Cancelling
    else if id in sh.completed then TM.Completed
    else TM.Cancelled
  }

  function Abstract(sh: Shared): TM.Tasks {
    TM.Tasks(sh.inner.lifecycle == Running, seq(|sh.admitted|, id requires 0 <= id => PhaseOf(sh, id)))
  }

  /** The one abstract event of an action: only a locked region has any. */
  function EventOf(sh: Shared, a: Act, n: Next): TM.Event {
    match a
    case Calling(Submit) => if |n.sh.admitted| > |sh.admitted| then TM.Admit else TM.Stutter
    case Calling(Cancel(id, _)) => if id in sh.inner.queue then TM.Claim(id) else TM.Stutter
    case Calling(Shutdown) => TM.Close
    case Calling(Stop) => TM.CloseAndClaimAll
    case Closure => if sh.inner.queue == map[] then TM.Stutter else TM.Start(MinOf(sh.inner.queue.Keys))
    case Ran(c) => TM.Complete(c.id)
    case Cleaned(owned, _) => if owned == [] then TM.Stutter else TM.Release(owned[0].id)
    case _ => TM.Stutter
  }

  function StepEvent(s: System, step: Step): TM.Event
    requires Enabled(s, step)
  {
    if step.Go? then EventOf(s.sh, s.acts[step.t], Advance(s.sh, s.acts[step.t], step.completion)) else TM.Stutter
  }

  function Events(s: System, steps: seq<Step>): seq<TM.Event>
    requires ValidRun(s, steps)
    decreases |steps|
  {
    if steps == [] then [] else [StepEvent(s, steps[0])] + Events(Apply(s, steps[0]), steps[1..])
  }

  /** The tasks that hold a slot are the unfinished ones. */
  lemma OccupiedIsUnfinished(sh: Shared)
    requires Record(sh)
    ensures |TM.Unfinished(Abstract(sh))| == sh.inner.Occupied()
  {
    var q, r, c := sh.inner.queue.Keys, sh.inner.runningTasks, sh.inner.cancelling;
    forall id: nat
      ensures id in TM.Unfinished(Abstract(sh)) <==> id in q + r + c
      ensures id in q ==> id !in r && id !in c
      ensures id in r ==> id !in c
    {
      UnfinishedPlace(sh, id);
    }
    assert TM.Unfinished(Abstract(sh)) == q + r + c;
    DisjointCount(q, r, c);
  }

  lemma UnfinishedPlace(sh: Shared, id: nat)
    requires Record(sh)
    ensures id in TM.Unfinished(Abstract(sh)) <==>
            id in sh.inner.queue || id in sh.inner.runningTasks || id in sh.inner.cancelling
    ensures id in sh.inner.queue ==> id !in sh.inner.runningTasks && id !in sh.inner.cancelling
    ensures id in sh.inner.runningTasks ==> id !in sh.inner.cancelling
  {
    PlacesSplit(sh, id);
  }

  lemma DisjointCount(q: set<nat>, r: set<nat>, c: set<nat>)
    requires q !! r && q !! c && r !! c
    ensures |q + r + c| == |q| + |r| + |c|
  {
  }

  /** Exactly the task `id` changes phase. */
  lemma PhaseMoves(a: Shared, b: Shared, id: nat, p: TM.Phase)
    requires |b.admitted| == |a.admitted| && b.inner.lifecycle == a.inner.lifecycle
    requires PhaseOf(b, id) == p && forall k: nat | k != id :: PhaseOf(b, k) == PhaseOf(a, k)
    ensures Abstract(b) == TM.Move(Abstract(a), id, p)
  {
    assert Abstract(b).phases == TM.Move(Abstract(a), id, p).phases;
  }

  ghost predicate Simulates(sh: Shared, a: Act, n: Next) {
    var e := EventOf(sh, a, n);
    TM.Allowed(Abstract(sh), e, sh.inner.taskCapacity) && Abstract(n.sh) == TM.After(Abstract(sh), e)
  }

  lemma SubmitSimulates(sh: Shared, n: Next)
    requires Record(sh) && n == BeginSubmit(sh)
    ensures Simulates(sh, Calling(Submit), n)
  {
    OccupiedIsUnfinished(sh);
    var count := LockedActions.SubmitCases(sh, n);
    if LockedActions.SubmitAdmitted(sh, n, count) {
      LiveSplit(sh.inner, sh.inner.nextTaskId);
      AdmittedPhases(sh, n, count);
    } else {
      assert Abstract(n.sh).phases == Abstract(sh).phases;
    }
  }

  lemma AdmittedPhases(sh: Shared, n: Next, count: nat)
    requires Identities(sh) && LockedActions.SubmitAdmitted(sh, n, count)
    ensures Abstract(n.sh) == TM.After(Abstract(sh), TM.Admit)
  {
    forall id: nat | id < |sh.admitted| ensures PhaseOf(n.sh, id) == PhaseOf(sh, id) {
      assert id in n.sh.inner.queue <==> id in sh.inner.queue;
    }
    assert Abstract(n.sh).phases == Abstract(sh).phases + [TM.Queued];
  }

  lemma TakePhases(sh: Shared, n: Next, id: nat)
    requires sh.inner.queue != map[] && id == MinOf(sh.inner.queue.Keys) && n == Take(sh)
    requires id !in sh.inner.cancelling && id !in sh.completed
    ensures PhaseOf(n.sh, id) == TM.Running
    ensures forall k: nat | k != id :: PhaseOf(n.sh, k) == PhaseOf(sh, k)
  {
  }

  lemma TakeNothing(sh: Shared, n: Next)
    requires sh.inner.queue == map[] && n == Take(sh)
    ensures Abstract(n.sh) == Abstract(sh)
  {
    assert Abstract(n.sh).phases == Abstract(sh).phases;
  }

  lemma TakeOldest(sh: Shared, n: Next, id: nat)
    requires Record(sh) && n == Take(sh) && sh.inner.queue != map[] && id == MinOf(sh.inner.queue.Keys)
    ensures TM.Allowed(Abstract(sh), TM.Start(id), sh.inner.taskCapacity)
    ensures Abstract(n.sh) == TM.Move(Abstract(sh), id, TM.Running)
  {
    PlacesSplit(sh, id);
    TakePhases(sh, n, id);
    PhaseMoves(sh, n.sh, id, TM.Running);
    OldestQueued(sh, id);
  }

  lemma TakeSimulates(sh: Shared, n: Next)
    requires Record(sh) && n == Take(sh)
    ensures Simulates(sh, Closure, n)
  {
    if sh.inner.queue == map[] {
      TakeNothing(sh, n);
    } else {
      TakeOldest(sh, n, MinOf(sh.inner.queue.Keys));
    }
  }

  lemma OldestQueued(sh: Shared, id: nat)
    requires sh.inner.queue != map[] && id == MinOf(sh.inner.queue.Keys) && id < |sh.admitted|
    ensures TM.Allowed(Abstract(sh), TM.Start(id), sh.inner.taskCapacity)
  {
  }

  lemma CancelPhases(sh: Shared, id: nat, via: Via, n: Next)
    requires id in sh.inner.queue && id !in sh.inner.runningTasks && n == BeginCancel(sh, id, via)
    ensures n.sh.admitted == sh.admitted && n.sh.inner.lifecycle == sh.inner.lifecycle
    ensures PhaseOf(n.sh, id) == TM.Cancelling
    ensures forall k: nat | k != id :: PhaseOf(n.sh, k) == PhaseOf(sh, k)
  {
  }

  lemma CancelSimulates(sh: Shared, id: nat, via: Via, n: Next)
    requires Record(sh) && Known(sh, id) && n == BeginCancel(sh, id, via)
    ensures Simulates(sh, Calling(Cancel(id, via)), n)
  {
    if id in sh.inner.queue {
      PlacesSplit(sh, id);
      CancelPhases(sh, id, via, n);
      PhaseMoves(sh, n.sh, id, TM.Cancelling);
    }
  }

  lemma StopSimulates(sh: Shared, n: Next)
    requires n == BeginStop(sh) && sh.inner.queue.Keys !! sh.inner.runningTasks
    ensures Simulates(sh, Calling(Call.Stop), n)
  {
    assert Abstract(n.sh).phases == TM.ClaimQueued(Abstract(sh).phases);
  }

  lemma ShutdownSimulates(sh: Shared, n: Next)
    requires n == BeginShutdownCall(sh)
    ensures Simulates(sh, Calling(Call.Shutdown), n)
  {
    assert Abstract(n.sh).phases == Abstract(sh).phases;
  }

  lemma CallSimulates(sh: Shared, call: Call, n: Next)
    requires Record(sh) && Fits(sh, Calling(call)) && n == Advance(sh, Calling(call), Pending)
    ensures Simulates(sh, Calling(call), n)
  {
    match call
    case Submit => SubmitSimulates(sh, n);
    case Cancel(id, via) => CancelSimulates(sh, id, via, n);
    case Shutdown => ShutdownSimulates(sh, n);
    case Stop =>
      Actions.QueueApart(sh);
      StopSimulates(sh, n);
    case SubscribeTermination(_) =>
  }

  lemma FinishPhases(sh: Shared, c: Claim<nat>, n: Next)
    requires c.id !in sh.inner.queue && c.id !in sh.inner.cancelling && n == Finish(sh, c)
    ensures n.sh.admitted == sh.admitted && n.sh.inner.lifecycle == sh.inner.lifecycle
    ensures PhaseOf(n.sh, c.id) == TM.Completed
    ensures forall k: nat | k != c.id :: PhaseOf(n.sh, k) == PhaseOf(sh, k)
  {
  }

  lemma FinishSimulates(sh: Shared, c: Claim<nat>, n: Next)
    requires Record(sh) && Known(sh, c.id) && c.id in sh.inner.runningTasks && n == Finish(sh, c)
    ensures Simulates(sh, Ran(c), n)
  {
    PlacesSplit(sh, c.id);
    FinishPhases(sh, c, n);
    PhaseMoves(sh, n.sh, c.id, TM.Completed);
  }

  lemma ReleasePhases(sh: Shared, owned: seq<Claim<nat>>, out: Outcome, n: Next)
    requires owned != [] && n == Release(sh, owned, out)
    requires var id := owned[0].id; id !in sh.inner.queue && id !in sh.inner.runningTasks && id !in sh.completed
    ensures n.sh.admitted == sh.admitted && n.sh.inner.lifecycle == sh.inner.lifecycle
    ensures PhaseOf(n.sh, owned[0].id) == TM.Cancelled
    ensures forall k: nat | k != owned[0].id :: PhaseOf(n.sh, k) == PhaseOf(sh, k)
  {
  }

  lemma ReleaseSimulates(sh: Shared, owned: seq<Claim<nat>>, out: Outcome, n: Next)
    requires Record(sh) && owned != [] && Known(sh, owned[0].id) && owned[0].id in sh.inner.cancelling
    requires n == Release(sh, owned, out)
    ensures Simulates(sh, Cleaned(owned, out), n)
  {
    PlacesSplit(sh, owned[0].id);
    ReleasePhases(sh, owned, out, n);
    PhaseMoves(sh, n.sh, owned[0].id, TM.Cancelled);
  }

  /** Actions outside the lock are stutters. */
  lemma OtherSimulates(sh: Shared, a: Act, completion: TaskStatus, n: Next)
    requires Fits(sh, a) && n == Advance(sh, a, completion)
    requires !a.Calling? && !a.Closure? && !a.Ran? && !a.Cleaned?
    ensures n.sh.inner == sh.inner && n.sh.completed == sh.completed && n.sh.admitted == sh.admitted
    ensures Simulates(sh, a, n)
  {
  }

  lemma ActionSimulates(sh: Shared, a: Act, completion: TaskStatus, n: Next)
    requires Record(sh) && Fits(sh, a) && Holds(sh, a) && n == Advance(sh, a, completion)
    ensures Simulates(sh, a, n)
  {
    match a
    case Calling(call) => CallSimulates(sh, call, n);
    case Closure => TakeSimulates(sh, n);
    case Ran(c) => FinishSimulates(sh, c, n);
    case Cleaned(owned, out) =>
      assert Genuine(sh, owned[0]);
      ReleaseSimulates(sh, owned, out, n);
    case _ => OtherSimulates(sh, a, completion, n);
  }

  /** Every step is exactly one event of the task machine, on exactly the task the step names, or a stutter. */
  lemma StepRefines(s: System, step: Step)
    requires Inv(s) && Enabled(s, step)
    ensures TM.Allowed(Abstract(s.sh), StepEvent(s, step), s.sh.inner.taskCapacity)
    ensures Abstract(Apply(s, step).sh) == TM.After(Abstract(s.sh), StepEvent(s, step))
  {
    if step.Go? {
      var a := s.acts[step.t];
      assert ActOk(s.sh, a);
      HoldsAny(s, step.t);
      ActionSimulates(s.sh, a, step.completion, Advance(s.sh, a, step.completion));
    } else {
      assert Abstract(Apply(s, step).sh) == Abstract(s.sh);
    }
  }

  /** Refinement: every run of the system is a trace of the task machine. */
  lemma {:induction false} RunRefines(s: System, steps: seq<Step>)
    requires Inv(s) && ValidRun(s, steps)
    ensures TM.Trace(Abstract(s.sh), Events(s, steps), s.sh.inner.taskCapacity)
    ensures TM.AfterAll(Abstract(s.sh), Events(s, steps)) == Abstract(Run(s, steps).sh)
    decreases |steps|
  {
    if steps != [] {
      var next := Apply(s, steps[0]);
      StepRefines(s, steps[0]);
      Preservation.StepKeepsInv(s, steps[0]);
      RunRefines(next, steps[1..]);
      var rest := Events(next, steps[1..]);
      assert Events(s, steps)[1..] == rest;
    }
  }

  /** A service the builder accepts starts as the empty task machine, so all its runs are traces from there. */
  lemma ServiceRefines(capacity: nat, threads: nat, steps: seq<Step>)
    requires 1 <= capacity <= MAX_USIZE && 1 <= threads
    requires ValidRun(InitialSystem(capacity, threads), steps)
    ensures var s := InitialSystem(capacity, threads);
            && TM.Trace(TM.Tasks(true, []), Events(s, steps), capacity)
            && TM.AfterAll(TM.Tasks(true, []), Events(s, steps)) == Abstract(Run(s, steps).sh)
  {
    var s := InitialSystem(capacity, threads);
    Preservation.InitialInv(capacity, threads);
    assert Abstract(s.sh) == TM.Tasks(true, []);
    RunRefines(s, steps);
  }

  /** A submission is decided by the task machine alone: refused once closed, saturated exactly at capacity. */
  lemma SubmitDecided(s: System, capacity: nat, threads: nat, t: nat)
    requires ReachableWith(s, capacity, threads)
    requires t < |s.acts| && s.acts[t] == Calling(Submit) && |s.sh.admitted| < MAX_USIZE
    ensures var ts := Abstract(s.sh);
            var a := Advance(s.sh, s.acts[t], Pending).act;
            && (a == Returned(Refused(SubmissionError.Shutdown)) <==> !ts.open)
            && (a == Returned(Refused(Saturated)) <==>
                ts.open && |TM.Unfinished(ts)| == capacity)
  {
    Preservation.ConfiguredAs(s, capacity, threads);
    OccupiedIsUnfinished(s.sh);
  }
}
