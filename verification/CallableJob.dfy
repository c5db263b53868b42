/** One queued callable and the result slot it reports to. */
module CallableJobs {
  import opened Basics

  /** How a piece of code ends: with a value, by unwinding a panic, or by aborting the process. */
  datatype Flow<+T> = Value(value: T) | Unwind | Abort

  /** Leaving a scope that ended as `body` and whose local's destructor ended as `drop`. */
  function ScopeExit<T>(body: Flow<T>, drop: Flow<()>): Flow<T> {
    match drop
    case Value(_) => body
    case Unwind => if body.Value? then Unwind else Abort
    case Abort => Abort
  }

  /** `catch_unwind`: `None` is a caught panic. */
  function CatchUnwind<T>(body: Flow<T>): Flow<Option<T>> {
    match body
    case Value(v) => Value(Some(v))
    case Unwind => Value(None)
    case Abort => Abort
  }

  /** Carries on with a caught value, or resumes unwinding. */
  function ResumeUnwind<T>(caught: Flow<Option<T>>): Flow<T> {
    match caught
    case Value(Some(v)) => Value(v)
    case Value(None) => Unwind
    case Unwind => Unwind
    case Abort => Abort
  }

  /** What happens to a job, in order; `id` is the task it was accepted as. */
  datatype JobEvent = Accepted(id: nat) | Started | Called | Dropped | Published(status: TaskStatus)

  /** How the user's callable behaves when called. */
  datatype CallBehaviour = ReturnsOk | ReturnsErr | Panics

  predicate Once(log: seq<JobEvent>, e: JobEvent) {
    multiset(log)[e] == 1
  }

  predicate Before(log: seq<JobEvent>, first: JobEvent, second: JobEvent) {
    forall i, j | 0 <= i < |log| && 0 <= j < |log| && log[i] == first && log[j] == second :: i < j
  }

  predicate OnlyPublished(log: seq<JobEvent>, status: TaskStatus) {
    forall i | 0 <= i < |log| && log[i].Published? :: log[i].status == status
  }

  /** Accepted as `id`, called once, destroyed once after the call, and published once, as `status`, after that. */
  ghost predicate RunLog(log: seq<JobEvent>, id: nat, status: TaskStatus) {
    && Once(log, Accepted(id)) && Once(log, Called) && Once(log, Dropped) && Once(log, Published(status))
    && Before(log, Accepted(id), Called) && Before(log, Called, Dropped) && Before(log, Dropped, Published(status))
    && OnlyPublished(log, status)
  }

  /** Accepted as `id`, never called, published once, as cancelled, and destroyed once after that. */
  ghost predicate CancelLog(log: seq<JobEvent>, id: nat) {
    && Once(log, Accepted(id)) && Called !in log && Once(log, Dropped) && Once(log, Published(Cancelled))
    && Before(log, Accepted(id), Published(Cancelled)) && Before(log, Published(Cancelled), Dropped)
    && OnlyPublished(log, Cancelled)
  }

  lemma RunLogHolds(id: nat, status: TaskStatus)
    ensures RunLog([Accepted(id), Started, Called, Dropped, Published(status)], id, status)
  {
    var log := [Accepted(id), Started, Called, Dropped, Published(status)];
    assert multiset(log) == multiset{Accepted(id), Started, Called, Dropped, Published(status)};
  }

  lemma CancelLogHolds(id: nat)
    ensures CancelLog([Accepted(id), Published(Cancelled), Dropped], id)
  {
    var log := [Accepted(id), Published(Cancelled), Dropped];
    assert multiset(log) == multiset{Accepted(id), Published(Cancelled), Dropped};
  }

  class CallableJob {
    // The callable has not been destroyed.
    var holdsTask: bool
    var status: TaskStatus
    ghost var log: seq<JobEvent>

    /** Built, and neither accepted nor consumed. */
    ghost predicate Fresh()
      reads this
    {
      holdsTask && status == Pending && log == []
    }

    /** Accepted as task `id`, and neither run nor cancelled. */
    ghost predicate Waiting(id: nat)
      reads this
    {
      holdsTask && status == Pending && log == [Accepted(id)]
    }

    /** Run to its end on behalf of task `id`. */
    ghost predicate RanAs(id: nat)
      reads this
    {
      !holdsTask && status.Completion() && RunLog(log, id, status)
    }

    /** Run as task `id`, with the result that its callable's and destructor's behaviour calls for. */
    ghost predicate RanWith(id: nat, behaviour: CallBehaviour, dropPanics: bool)
      reads this
    {
      && RanAs(id)
      && (status.Panicked? <==> behaviour.Panics? || dropPanics)
      && (status.Succeeded? <==> behaviour.ReturnsOk? && !dropPanics)
      && (status.Failed? <==> behaviour.ReturnsErr? && !dropPanics)
    }

    /** Cancelled on behalf of task `id` without having been run. */
    ghost predicate CancelledAs(id: nat)
      reads this
    {
      !holdsTask && status == Cancelled && CancelLog(log, id)
    }

    /** The events that leave it so. */
    ghost predicate Discarded(id: nat)
      reads this
    {
      !holdsTask && status == Cancelled && log == [Accepted(id), Published(Cancelled), Dropped]
    }

    constructor ()
      ensures Fresh()
    {
      holdsTask, status, log := true, Pending, [];
    }

    method Accept(ghost id: nat)
      requires Fresh()
      modifies this
      ensures Waiting(id)
    {
      log := log + [Accepted(id)];
    }

    /** The user's callable. */
    method Call(behaviour: CallBehaviour) returns (f: Flow<TaskStatus>)
      requires holdsTask
      modifies this`log
      ensures log == old(log) + [Called]
      ensures f == match behaviour
                   case ReturnsOk => Value(Succeeded)
                   case ReturnsErr => Value(Failed)
                   case Panics => Unwind
    {
      log := log + [Called];
      f := if behaviour.Panics? then Unwind else Value(if behaviour.ReturnsOk? then Succeeded else Failed);
    }

    /** Its destructor. */
    method Drop(panics: bool) returns (f: Flow<()>)
      requires holdsTask
      modifies this`log, this`holdsTask
      ensures !holdsTask && log == old(log) + [Dropped]
      ensures f == if panics then Unwind else Value(())
    {
      holdsTask := false;
      log := log + [Dropped];
      f := if panics then Unwind else Value(());
    }

    method Publish(result: TaskStatus)
      modifies this`log, this`status
      ensures status == result && log == old(log) + [Published(result)]
    {
      status := result;
      log := log + [Published(result)];
    }

    /** The innermost closure of `run`: it owns the callable, so leaving it destroys the callable on either path. */
    method CallOwned(behaviour: CallBehaviour, dropPanics: bool) returns (f: Flow<TaskStatus>)
      requires holdsTask
      modifies this`log, this`holdsTask
      ensures !holdsTask && log == old(log) + [Called, Dropped]
      ensures f.Abort? <==> behaviour.Panics? && dropPanics
      ensures f.Unwind? <==> behaviour.Panics? != dropPanics
      ensures f.Value? ==> f.value == if behaviour.ReturnsOk? then Succeeded else Failed
    {
      var body := Call(behaviour);
      var drop := Drop(dropPanics);
      f := ScopeExit(body, drop);
    }

    /** What `run` hands to the task runner: a panic is caught, its payload discarded, and unwinding resumed. */
    method SafeTask(behaviour: CallBehaviour, dropPanics: bool) returns (f: Flow<TaskStatus>)
      requires holdsTask
      modifies this`log, this`holdsTask
      ensures !holdsTask && log == old(log) + [Called, Dropped]
      ensures f.Abort? <==> behaviour.Panics? && dropPanics
      ensures f.Unwind? <==> behaviour.Panics? != dropPanics
      ensures f.Value? ==> f.value == if behaviour.ReturnsOk? then Succeeded else Failed
    {
      var called := CallOwned(behaviour, dropPanics);
      f := ResumeUnwind(CatchUnwind(called));
    }

    /** The task runner's beginning: marks the task as running and catches what leaves the callable. */
    method RunSafeTask(behaviour: CallBehaviour, dropPanics: bool, ghost id: nat)
      returns (caught: Flow<Option<TaskStatus>>)
      requires Waiting(id)
      modifies this
      ensures !holdsTask && log == [Accepted(id), Started, Called, Dropped]
      ensures caught.Abort? <==> behaviour.Panics? && dropPanics
      ensures !caught.Abort? ==> caught.Value? && (caught.value == None <==> behaviour.Panics? || dropPanics)
      ensures caught.Value? && caught.value.Some? ==>
                caught.value.value == if behaviour.ReturnsOk? then Succeeded else Failed
    {
      status := Executing;
      log := log + [Started];
      var safe := SafeTask(behaviour, dropPanics);
      caught := CatchUnwind(safe);
    }

    /** The task runner's end: publishes the value, or a panic. */
    method PublishResult(result: Option<TaskStatus>, ghost id: nat, ghost behaviour: CallBehaviour,
                         ghost dropPanics: bool)
      requires !holdsTask && log == [Accepted(id), Started, Called, Dropped]
      requires result == None <==> behaviour.Panics? || dropPanics
      requires result.Some? ==> result.value == if behaviour.ReturnsOk? then Succeeded else Failed
      modifies this`log, this`status
      ensures RanWith(id, behaviour, dropPanics)
    {
      Publish(if result.Some? then result.value else Panicked);
      assert log == [Accepted(id), Started, Called, Dropped, Published(status)];
      RunLogHolds(id, status);
    }

    /**
     Runs the callable through the task runner. Unless callable and destructor
     both panic, which aborts the process with nothing published, the callable is
     called once and destroyed once, and only then the one result published: its
     own, or a panic if either panicked. No panic leaves `run`.
     */
    method Run(behaviour: CallBehaviour, dropPanics: bool, ghost id: nat) returns (f: Flow<()>)
      requires Waiting(id)
      modifies this
      ensures f.Abort? <==> behaviour.Panics? && dropPanics
      ensures f.Abort? ==> forall i | 0 <= i < |log| :: !log[i].Published?
      ensures !f.Abort? ==> f == Value(()) && RanWith(id, behaviour, dropPanics)
    {
      var caught := RunSafeTask(behaviour, dropPanics, id);
      if caught == Abort {
        return Abort;
      }
      PublishResult(caught.value, id, behaviour, dropPanics);
      f := Value(());
    }

    /**
     Publishes the cancellation first and destroys the callable afterwards,
     without calling it; a panic of the destructor reaches the caller.
     */
    method Cancel(dropPanics: bool, ghost id: nat) returns (f: Flow<()>)
      requires Waiting(id)
      modifies this
      ensures Discarded(id) && CancelledAs(id)
      ensures f == if dropPanics then Unwind else Value(())
    {
      Publish(Cancelled);
      f := Drop(dropPanics);
      assert log == [Accepted(id), Published(Cancelled), Dropped];
      CancelLogHolds(id);
    }

    /** A direct cancellation of the result slot. */
    method TryCancel() returns (r: CancelResult)
      modifies this`status, this`log
      ensures (status, r) == CancelSlot(old(status))
      ensures log == old(log) + if old(status).Pending? then [Published(Cancelled)] else []
    {
      match status
      case Pending =>
        Publish(Cancelled);
        r := CancelledNow;
      case Executing => r := AlreadyRunning;
      case _ => r := AlreadyFinished;
    }
  }
}
