/** Which threads carry work, and that work in the record is always carried by one of them. */
module Carriers {
  import opened Counts
  import opened Invariant
  import opened Threads

  /** The thread holds a reservation: a closure it promised, is, or will spawn. */
  predicate Reserves(a: Act) {
    || a.Dispatching? || a.Closure? || a.Taken? || a.Working? || a.Ran? || a.Respawning?
    || ((a.Publishing? || a.PublishingEnd?) && a.k.Respawn?)
  }

  /** The thread holds a reservation or cleans up a cancelled job. */
  predicate Carries(a: Act) {
    || Reserves(a)
    || Cleaner(a)
    || ((a.Publishing? || a.PublishingEnd?) && a.k.Clean? && a.k.owned != [])
  }

  /** A carrier is never blocked. */
  lemma CarrierAdvances(sh: Shared, a: Act)
    requires Carries(a)
    ensures CanAdvance(sh, a)
  {
  }

  predicate Unreserved(x: Load) {
    x.promised == 0 && x.pooled == 0 && x.working == 0 && x.succeeding == 0
  }

  lemma UnreservedAdd(x: Load, y: Load)
    requires Unreserved(x) && Unreserved(y)
    ensures Unreserved(AddLoad(x, y))
  {
  }

  lemma {:induction false} NoReservation(acts: seq<Act>)
    requires forall t | 0 <= t < |acts| :: !Reserves(acts[t])
    ensures Unreserved(Loads(acts))
    decreases |acts|
  {
    if acts != [] {
      var last := |acts| - 1;
      NoReservation(acts[..last]);
      assert Unreserved(LoadOf(acts[last]));
      UnreservedAdd(Loads(acts[..last]), LoadOf(acts[last]));
    }
  }

  predicate Loose(g: Grip) {
    g == Grip(0, 0, 0, 0, 0)
  }

  lemma NoGripOf(a: Act, id: nat)
    requires !Carries(a)
    ensures Loose(GripOf(a, id))
  {
  }

  lemma {:induction false} NoGrip(acts: seq<Act>, id: nat)
    requires forall t | 0 <= t < |acts| :: Loose(GripOf(acts[t], id))
    ensures Loose(Grips(acts, id))
    decreases |acts|
  {
    if acts != [] {
      var last := |acts| - 1;
      NoGrip(acts[..last], id);
      assert Loose(GripOf(acts[last], id));
    }
  }

  lemma FreeOfTasks(acts: seq<Act>, id: nat)
    requires forall t | 0 <= t < |acts| :: !Carries(acts[t])
    ensures Loose(Grips(acts, id))
  {
    forall t | 0 <= t < |acts| ensures Loose(GripOf(acts[t], id)) {
      NoGripOf(acts[t], id);
    }
    NoGrip(acts, id);
  }

  lemma {:induction false} Announcer(acts: seq<Act>) returns (t: nat)
    requires Loads(acts).announcing > 0
    ensures t < |acts| && LoadOf(acts[t]).announcing > 0
    decreases |acts|
  {
    t := |acts| - 1;
    if LoadOf(acts[t]).announcing == 0 {
      t := Announcer(acts[..t]);
    }
  }

  /** A queued or running task leaves some thread with a reservation. */
  lemma SomeReservation(s: System)
    requires Inv(s) && (s.sh.inner.queue != map[] || s.sh.inner.running > 0)
    ensures exists t :: 0 <= t < |s.acts| && Reserves(s.acts[t])
  {
    if forall t | 0 <= t < |s.acts| :: !Reserves(s.acts[t]) {
      NoReservation(s.acts);
      assert false;
    }
  }

  /** An occupied slot leaves some thread carrying work. */
  lemma SomeCarrier(s: System)
    requires Inv(s) && s.sh.inner.Occupied() > 0
    ensures exists t :: 0 <= t < |s.acts| && Carries(s.acts[t])
  {
    if s.sh.inner.queue != map[] || s.sh.inner.running > 0 {
      SomeReservation(s);
    } else if forall t | 0 <= t < |s.acts| :: !Carries(s.acts[t]) {
      var id :| id in s.sh.inner.cancelling;
      assert Ownership(s.sh, s.acts, id);
      FreeOfTasks(s.acts, id);
      assert false;
    }
  }
}
