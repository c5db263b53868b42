/** Values and small arithmetic shared by every part of the model. */
module Basics {

  datatype Option<+T> = None | Some(value: T)

  /** `ExecutorServiceLifecycle`. `Terminated` is reported, never stored. */
  datatype Lifecycle = Running | ShuttingDown | Stopping | Terminated
  {
    function Rank(): nat {
      match this
      case Running => 0
      case ShuttingDown => 1
      case Stopping => 2
      case Terminated => 3
    }
  }

  /** Status kept by a task's result slot. */
  datatype TaskStatus = Pending | Executing | Succeeded | Failed | Panicked | Cancelled
  {
    predicate Terminal() {
      !Pending? && !Executing?
    }

    /** Statuses a finished `run` can publish. */
    predicate Completion() {
      Succeeded? || Failed? || Panicked?
    }
  }

  datatype CancelResult = CancelledNow | AlreadyRunning | AlreadyFinished

  /** Which cancellation endpoint was used: `RayonTaskHandle::cancel` or a `TaskCancellationHandle`. */
  datatype Via = Handle | Endpoint

  function CancellationResultForStatus(status: TaskStatus): CancelResult {
    match status
    case Pending | Executing => AlreadyRunning
    case _ => AlreadyFinished
  }

  /** Cancelling a result slot directly: it succeeds only on a pending slot. */
  function CancelSlot(status: TaskStatus): (TaskStatus, CancelResult) {
    match status
    case Pending => (TaskStatus.Cancelled, CancelledNow)
    case Executing => (status, AlreadyRunning)
    case _ => (status, AlreadyFinished)
  }

  datatype SubmissionError = Shutdown | Saturated

  datatype StopReport = StopReport(queued: nat, running: nat, cancelled: nat)

  /** A job together with the task identifier it was admitted under. */
  datatype Claim<+J> = Claim(id: nat, job: J)

  /** Largest `usize` on a 64-bit target. */
  const MAX_USIZE: nat := 0xFFFF_FFFF_FFFF_FFFF

  function Min(a: nat, b: nat): nat {
    if a < b then a else b
  }

  function SaturatingSub(a: nat, b: nat): nat {
    if a < b then 0 else a - b
  }

  /** 1 when `b` holds, else 0: lets set membership enter counting equations. */
  function Bit(b: bool): nat {
    if b then 1 else 0
  }

  lemma {:induction false} MinExists(ks: set<nat>)
    requires ks != {}
    ensures exists m :: m in ks && forall k | k in ks :: m <= k
    decreases |ks|
  {
    var x :| x in ks;
    if ks != {x} {
      var rest := ks - {x};
      assert ks == rest + {x};
      MinExists(rest);
      var m :| m in rest && forall k | k in rest :: m <= k;
      var least := Min(m, x);
      assert least in ks;
      forall k | k in ks ensures least <= k {
        assert k == x || k in rest;
      }
    }
  }

  /** Smallest key: what `BTreeMap::pop_first` removes. */
  function MinOf(ks: set<nat>): (m: nat)
    requires ks != {}
    ensures m in ks && forall k | k in ks :: m <= k
  {
    MinExists(ks);
    var m :| m in ks && forall k | k in ks :: m <= k;
    m
  }

  /** Number of entries of `owned` claimed under task `id`. */
  function Count<J>(owned: seq<Claim<J>>, id: nat): nat {
    if owned == [] then 0 else Bit(owned[0].id == id) + Count(owned[1..], id)
  }

  /** The entries of an ordered map in ascending key order. */
  function InOrder<J>(q: map<nat, J>): (r: seq<Claim<J>>)
    ensures |r| == |q|
    ensures forall i | 0 <= i < |r| :: r[i].id in q && r[i].job == q[r[i].id]
    ensures forall i, j | 0 <= i < j < |r| :: r[i].id < r[j].id
    decreases |q|
  {
    if q == map[] then [] else
      var m := MinOf(q.Keys);
      assert (q - {m}).Keys == q.Keys - {m};
      [Claim(m, q[m])] + InOrder(q - {m})
  }

  /** Each key is listed exactly once, and nothing else is. */
  lemma {:induction false} CountInOrder<J>(q: map<nat, J>, id: nat)
    ensures Count(InOrder(q), id) == Bit(id in q)
    decreases |q|
  {
    if q != map[] {
      var m := MinOf(q.Keys);
      assert (q - {m}).Keys == q.Keys - {m};
      CountInOrder(q - {m}, id);
      assert InOrder(q) == [Claim(m, q[m])] + InOrder(q - {m});
      assert InOrder(q)[1..] == InOrder(q - {m});
    }
  }

  /** The ids of a list of claims. */
  function Ids<J>(owned: seq<Claim<J>>): set<nat>
  {
    set i | 0 <= i < |owned| :: owned[i].id
  }

  lemma IdsSnoc<J>(owned: seq<Claim<J>>, c: Claim<J>)
    ensures Ids(owned + [c]) == Ids(owned) + {c.id}
  {
    var longer := owned + [c];
    forall id: nat ensures id in Ids(longer) <==> id in Ids(owned) || id == c.id {
      if id in Ids(owned) {
        var i :| 0 <= i < |owned| && owned[i].id == id;
        assert longer[i].id == id;
      }
      assert longer[|owned|].id == c.id;
    }
  }

  lemma IdsInOrder<J>(q: map<nat, J>)
    ensures Ids(InOrder(q)) == q.Keys
  {
    forall id | id in q ensures id in Ids(InOrder(q)) {
      CountInOrder(q, id);
      CountWitness(InOrder(q), id);
    }
  }

  lemma {:induction false} CountWitness<J>(owned: seq<Claim<J>>, id: nat)
    requires Count(owned, id) > 0
    ensures exists i :: 0 <= i < |owned| && owned[i].id == id
  {
    if owned[0].id != id {
      CountWitness(owned[1..], id);
      var i :| 0 <= i < |owned[1..]| && owned[1..][i].id == id;
      assert owned[i + 1].id == id;
    }
  }

  lemma {:induction false} CountPositive<J>(owned: seq<Claim<J>>, i: nat)
    requires i < |owned|
    ensures Count(owned, owned[i].id) >= 1
  {
    if i > 0 {
      assert owned[i] == owned[1..][i - 1];
      CountPositive(owned[1..], i - 1);
    }
  }
}
