/**
 Counting threads by where they are.

 `Load` is what a thread carries on behalf of the whole service, `Grip` its
 hold on one task. Both are added up over all threads; the protocol's
 invariants are equations between these sums and the shared record.
 */
module Counts {
  import opened Basics
  import opened Threads

  datatype Load = Load(
    promised: nat,    // closures promised by `admit`, not yet spawned
    pooled: nat,      // closures spawned, not yet in `take_next`
    working: nat,     // tasks owned by a worker
    succeeding: nat,  // successors promised by `finish_running`, not yet spawned
    signalling: nat,  // capacity publications owed
    announcing: nat,  // termination publications or repairs owed
    claimed: nat,     // tasks a stop report or an owning cancel answers for
    lag: nat)         // own actions before the thread's next step of work for a task it carries

  datatype Grip = Grip(
    taken: nat,      // owned by a worker that has not entered `run`
    entered: nat,    // ... that is inside `run`
    left: nat,       // ... that has left `run` but not finished
    owed: nat,       // claimed for cancellation, result not published
    withdrawn: nat)  // ... result published, cleanup not released

  const ZERO_LOAD := Load(0, 0, 0, 0, 0, 0, 0, 0)
  const ZERO_GRIP := Grip(0, 0, 0, 0, 0)

  function ClaimsIn(out: Outcome): nat {
    match out
    case StopDone(report) => report.cancelled
    case CancelDone(_, _, owned) => Bit(owned)
    case _ => 0
  }

  function ClaimsAfter(k: Cont): nat {
    match k
    case Return(out) => ClaimsIn(out)
    case Respawn => 0
    case Clean(_, out) => ClaimsIn(out)
  }

  /** Own actions between the termination publication and the next step of work. */
  function LagAfter(k: Cont): nat {
    match k
    case Return(_) => 0
    case Respawn => 1
    case Clean(owned, _) => if owned == [] then 0 else 3
  }

  function LoadOf(a: Act): Load {
    match a
    case Dispatching(_, left) => Load(left, 0, 0, 0, 0, 0, 0, 0)
    case Closure => Load(0, 1, 0, 0, 0, 0, 0, 0)
    case Taken(_) => Load(0, 0, 1, 0, 0, 0, 0, 2)
    case Working(_) => Load(0, 0, 1, 0, 0, 0, 0, 1)
    case Ran(_) => Load(0, 0, 1, 0, 0, 0, 0, 0)
    case Publishing(capacity, terminated, k) =>
      Load(0, 0, 0, Bit(k.Respawn?), Bit(capacity), Bit(terminated), ClaimsAfter(k),
           if LagAfter(k) == 0 then 0 else LagAfter(k) + 1)
    case PublishingEnd(terminated, k) =>
      Load(0, 0, 0, Bit(k.Respawn?), 0, Bit(terminated), ClaimsAfter(k), LagAfter(k))
    case Respawning => Load(0, 0, 0, 1, 0, 0, 0, 0)
    case Cancelling(_, out) => Load(0, 0, 0, 0, 0, 0, ClaimsIn(out), 2)
    case CleaningUp(_, out) => Load(0, 0, 0, 0, 0, 0, ClaimsIn(out), 1)
    case Cleaned(_, out) => Load(0, 0, 0, 0, 0, 0, ClaimsIn(out), 0)
    case Repairing(_) => Load(0, 0, 0, 0, 0, 1, 0, 0)
    case Returned(out) => Load(0, 0, 0, 0, 0, 0, ClaimsIn(out), 0)
    case _ => ZERO_LOAD
  }

  /** Claims on task `id` among those after the first one. */
  function CountRest(owned: seq<Claim<nat>>, id: nat): nat {
    if owned == [] then 0 else Count(owned[1..], id)
  }

  function CountFirst(owned: seq<Claim<nat>>, id: nat): nat {
    Bit(owned != [] && owned[0].id == id)
  }

  function CountAfter(k: Cont, id: nat): nat {
    if k.Clean? then Count(k.owned, id) else 0
  }

  function GripOf(a: Act, id: nat): Grip {
    match a
    case Taken(c) => Grip(Bit(c.id == id), 0, 0, 0, 0)
    case Working(c) => Grip(0, Bit(c.id == id), 0, 0, 0)
    case Ran(c) => Grip(0, 0, Bit(c.id == id), 0, 0)
    case Publishing(_, _, k) => Grip(0, 0, 0, CountAfter(k, id), 0)
    case PublishingEnd(_, k) => Grip(0, 0, 0, CountAfter(k, id), 0)
    case Cancelling(owned, _) => Grip(0, 0, 0, Count(owned, id), 0)
    case CleaningUp(owned, _) => Grip(0, 0, 0, CountRest(owned, id), CountFirst(owned, id))
    case Cleaned(owned, _) => Grip(0, 0, 0, CountRest(owned, id), CountFirst(owned, id))
    case _ => Grip(0, 0, 0, 0, 0)
  }

  function AddLoad(x: Load, y: Load): Load {
    Load(x.promised + y.promised, x.pooled + y.pooled, x.working + y.working, x.succeeding + y.succeeding,
         x.signalling + y.signalling, x.announcing + y.announcing, x.claimed + y.claimed, x.lag + y.lag)
  }

  function AddGrip(x: Grip, y: Grip): Grip {
    Grip(x.taken + y.taken, x.entered + y.entered, x.left + y.left, x.owed + y.owed, x.withdrawn + y.withdrawn)
  }

  function Loads(acts: seq<Act>): Load {
    if acts == [] then ZERO_LOAD
    else AddLoad(Loads(acts[..|acts| - 1]), LoadOf(acts[|acts| - 1]))
  }

  function Grips(acts: seq<Act>, id: nat): Grip {
    if acts == [] then Grip(0, 0, 0, 0, 0)
    else AddGrip(Grips(acts[..|acts| - 1], id), GripOf(acts[|acts| - 1], id))
  }

  /** The totals `p` become `q` when one thread's share changes from `x` to `y`. */
  ghost predicate LoadShift(p: Load, q: Load, x: Load, y: Load) {
    && q.promised - p.promised == y.promised - x.promised
    && q.pooled - p.pooled == y.pooled - x.pooled
    && q.working - p.working == y.working - x.working
    && q.succeeding - p.succeeding == y.succeeding - x.succeeding
    && q.signalling - p.signalling == y.signalling - x.signalling
    && q.announcing - p.announcing == y.announcing - x.announcing
    && q.claimed - p.claimed == y.claimed - x.claimed
    && q.lag - p.lag == y.lag - x.lag
  }

  ghost predicate GripShift(p: Grip, q: Grip, x: Grip, y: Grip) {
    && q.taken - p.taken == y.taken - x.taken
    && q.entered - p.entered == y.entered - x.entered
    && q.left - p.left == y.left - x.left
    && q.owed - p.owed == y.owed - x.owed
    && q.withdrawn - p.withdrawn == y.withdrawn - x.withdrawn
  }

  lemma LoadShiftUnder(p: Load, q: Load, x: Load, y: Load, z: Load)
    requires LoadShift(p, q, x, y)
    ensures LoadShift(AddLoad(p, z), AddLoad(q, z), x, y)
    ensures LoadShift(AddLoad(p, x), AddLoad(p, y), x, y)
  {
  }

  lemma GripShiftUnder(p: Grip, q: Grip, x: Grip, y: Grip, z: Grip)
    requires GripShift(p, q, x, y)
    ensures GripShift(AddGrip(p, z), AddGrip(q, z), x, y)
  {
  }

  lemma {:induction false} LoadsUpdate(acts: seq<Act>, t: nat, a: Act)
    requires t < |acts|
    ensures LoadShift(Loads(acts), Loads(acts[t := a]), LoadOf(acts[t]), LoadOf(a))
    decreases |acts|
  {
    var last := |acts| - 1;
    if t == last {
      assert acts[t := a][..last] == acts[..last];
    } else {
      LoadsUpdate(acts[..last], t, a);
      assert acts[t := a][..last] == acts[..last][t := a];
      LoadShiftUnder(Loads(acts[..last]), Loads(acts[..last][t := a]), LoadOf(acts[t]), LoadOf(a), LoadOf(acts[last]));
    }
  }

  lemma {:induction false} GripsUpdate(acts: seq<Act>, t: nat, a: Act, id: nat)
    requires t < |acts|
    ensures GripShift(Grips(acts, id), Grips(acts[t := a], id), GripOf(acts[t], id), GripOf(a, id))
    decreases |acts|
  {
    var last := |acts| - 1;
    if t == last {
      assert acts[t := a][..last] == acts[..last];
    } else {
      GripsUpdate(acts[..last], t, a, id);
      assert acts[t := a][..last] == acts[..last][t := a];
      GripShiftUnder(Grips(acts[..last], id), Grips(acts[..last][t := a], id), GripOf(acts[t], id), GripOf(a, id),
                     GripOf(acts[last], id));
    }
  }

  lemma LoadsAppend(acts: seq<Act>, a: Act)
    ensures Loads(acts + [a]) == AddLoad(Loads(acts), LoadOf(a))
  {
    assert (acts + [a])[..|acts|] == acts;
  }

  lemma GripsAppend(acts: seq<Act>, a: Act, id: nat)
    ensures Grips(acts + [a], id) == AddGrip(Grips(acts, id), GripOf(a, id))
  {
    assert (acts + [a])[..|acts|] == acts;
  }

  /** How the loads change when thread `t` moves to `a` and perhaps spawns a closure. */
  lemma LoadsStep(acts: seq<Act>, t: nat, a: Act, spawned: bool)
    requires t < |acts|
    ensures var y := LoadOf(a);
            LoadShift(Loads(acts), Loads(Spawn(acts[t := a], spawned)), LoadOf(acts[t]),
                      y.(pooled := y.pooled + Bit(spawned)))
  {
    LoadsUpdate(acts, t, a);
    LoadsAppend(acts[t := a], Closure);
  }

  /** A spawned closure has no grip on any task. */
  lemma GripsStep(acts: seq<Act>, t: nat, a: Act, spawned: bool, id: nat)
    requires t < |acts|
    ensures GripShift(Grips(acts, id), Grips(Spawn(acts[t := a], spawned), id), GripOf(acts[t], id), GripOf(a, id))
  {
    GripsUpdate(acts, t, a, id);
    GripsAppend(acts[t := a], Closure, id);
  }

  lemma AddZero(x: Load, g: Grip)
    ensures AddLoad(x, ZERO_LOAD) == x
    ensures AddGrip(g, ZERO_GRIP) == g
  {
  }

  /** Entering an API call adds no load and no grip. */
  lemma CountsStart(acts: seq<Act>, call: Call, id: nat)
    ensures Loads(acts + [Calling(call)]) == Loads(acts)
    ensures Grips(acts + [Calling(call)], id) == Grips(acts, id)
  {
    LoadsAppend(acts, Calling(call));
    GripsAppend(acts, Calling(call), id);
    assert LoadOf(Calling(call)) == ZERO_LOAD && GripOf(Calling(call), id) == ZERO_GRIP;
    AddZero(Loads(acts), Grips(acts, id));
  }

  ghost predicate LoadCovers(x: Load, y: Load) {
    && x.promised >= y.promised && x.pooled >= y.pooled && x.working >= y.working && x.succeeding >= y.succeeding
    && x.signalling >= y.signalling && x.announcing >= y.announcing && x.claimed >= y.claimed
    && x.lag >= y.lag
  }

  ghost predicate GripCovers(x: Grip, y: Grip) {
    && x.taken >= y.taken && x.entered >= y.entered && x.left >= y.left
    && x.owed >= y.owed && x.withdrawn >= y.withdrawn
  }

  lemma {:induction false} LoadsCover(acts: seq<Act>, t: nat)
    requires t < |acts|
    ensures LoadCovers(Loads(acts), LoadOf(acts[t]))
    decreases |acts|
  {
    if t < |acts| - 1 { LoadsCover(acts[..|acts| - 1], t); }
  }

  lemma {:induction false} GripsCover(acts: seq<Act>, t: nat, id: nat)
    requires t < |acts|
    ensures GripCovers(Grips(acts, id), GripOf(acts[t], id))
    decreases |acts|
  {
    if t < |acts| - 1 { GripsCover(acts[..|acts| - 1], t, id); }
  }
}
