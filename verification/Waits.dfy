/**
 The two blocking waits, over what a waiting thread observes each time it holds
 the lock: `terminated(k)` is the predicate at its k-th turn and `clock(k)` the
 time elapsed when it asks for it. Spurious wakeups are extra turns.
 */
module Waits {

  /** The first turn at which the wait can end. */
  ghost predicate EndsAt(terminated: nat -> bool, clock: nat -> nat, timeout: nat, k: nat) {
    && (terminated(k) || clock(k) >= timeout)
    && forall i: nat | i < k :: !terminated(i) && clock(i) < timeout
  }

  /**
   `wait_for_termination`: returns at the first turn that sees termination, and
   does so if some turn does.
   */
  method WaitForTermination(terminated: nat -> bool, ghost limit: nat) returns (turns: nat)
    requires terminated(limit)
    ensures terminated(turns) && turns <= limit
    ensures forall i: nat | i < turns :: !terminated(i)
  {
    turns := 0;
    while !terminated(turns)
      invariant turns <= limit
      invariant forall i: nat | i < turns :: !terminated(i)
      decreases limit - turns
    {
      turns := turns + 1;
    }
  }

  /**
   `wait_for_termination_timeout`: `true` exactly when termination is seen no
   later than the first turn at which the timeout has elapsed; `false` only with
   the timeout fully elapsed and the service not terminated. It returns as soon
   as some turn sees termination or is past the timeout, whatever the wakeups in
   between.
   */
  method WaitForTerminationTimeout(terminated: nat -> bool, clock: nat -> nat, timeout: nat, ghost limit: nat)
    returns (r: bool, turns: nat)
    requires terminated(limit) || clock(limit) >= timeout
    ensures turns <= limit && EndsAt(terminated, clock, timeout, turns)
    ensures r == terminated(turns)
    ensures !r ==> clock(turns) >= timeout
  {
    turns := 0;
    while !terminated(turns)
      invariant turns <= limit
      invariant forall i: nat | i < turns :: !terminated(i) && clock(i) < timeout
      decreases limit - turns
    {
      var elapsed := clock(turns);
      var remaining := if timeout < elapsed then 0 else timeout - elapsed;
      if remaining == 0 {
        return false, turns;
      }
      turns := turns + 1;
    }
    r := true;
  }

  /** A clock that advances at every wakeup ends the wait within `timeout` wakeups. */
  lemma {:induction false} AdvancingClockExpires(clock: nat -> nat, timeout: nat)
    requires forall i: nat :: clock(i) < clock(i + 1)
    ensures clock(timeout) >= timeout
    decreases timeout
  {
    if timeout > 0 {
      AdvancingClockExpires(clock, timeout - 1);
      assert clock(timeout - 1) < clock(timeout - 1 + 1);
    }
  }
}
