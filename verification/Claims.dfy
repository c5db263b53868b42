/**
 Whoever claims a task for cancellation sees it through, whatever the other
 threads do: by the time an owning `cancel` or a `stop` returns, every task it
 claimed has been cancelled exactly once and its slot is free.
 */
module Claims {
  import opened Basics
  import opened Invariant
  import opened Threads

  import Preservation

  /** Thread `t` will return `out`; of the tasks it claimed it has released the first `k` and holds the others. */
  ghost predicate Settling(s: System, t: nat, owned: seq<Claim<nat>>, out: Outcome, k: nat) {
    && t < |s.acts| && !s.acts[t].Calling?
    && k <= |owned| && OwnedBy(s.acts[t]) == owned[k..]
    && OutcomeOf(s.acts[t]) == out && out != WorkerDone
    && forall i | 0 <= i < k :: owned[i].id in s.sh.cancelled
  }

  /** The cleaning thread's own action. */
  lemma OwnAction(sh: Shared, a: Act, completion: TaskStatus, n: Next)
    requires Fits(sh, a) && !a.Calling? && n == Advance(sh, a, completion)
    requires OutcomeOf(a) != WorkerDone
    ensures !n.act.Calling? && OutcomeOf(n.act) == OutcomeOf(a)
    ensures !a.Cleaned? ==> OwnedBy(n.act) == OwnedBy(a)
    ensures a.Cleaned? ==> OwnedBy(n.act) == a.owned[1..] && a.owned[0].id in n.sh.cancelled
  {
  }

  lemma OwnStep(s: System, t: nat, completion: TaskStatus, owned: seq<Claim<nat>>, out: Outcome, k: nat)
    returns (k': nat)
    requires Enabled(s, Go(t, completion)) && Settling(s, t, owned, out, k)
    requires s.sh.cancelled <= Apply(s, Go(t, completion)).sh.cancelled
    ensures Settling(Apply(s, Go(t, completion)), t, owned, out, k')
  {
    var a := s.acts[t];
    OwnAction(s.sh, a, completion, Advance(s.sh, a, completion));
    k' := k;
    if a.Cleaned? {
      k' := k + 1;
      assert owned[k..][1..] == owned[k'..] && owned[k..][0] == owned[k];
    }
  }

  lemma OtherStep(s: System, step: Step, t: nat, owned: seq<Claim<nat>>, out: Outcome, k: nat)
    requires Enabled(s, step) && Settling(s, t, owned, out, k) && (step.Go? ==> step.t != t)
    requires s.sh.cancelled <= Apply(s, step).sh.cancelled
    ensures Settling(Apply(s, step), t, owned, out, k)
  {
    assert Apply(s, step).acts[t] == s.acts[t];
  }

  lemma SettlingStep(s: System, step: Step, t: nat, owned: seq<Claim<nat>>, out: Outcome, k: nat) returns (k': nat)
    requires Inv(s) && Enabled(s, step) && Settling(s, t, owned, out, k)
    ensures Settling(Apply(s, step), t, owned, out, k')
  {
    Preservation.StepKeepsInv(s, step);
    if step.Go? && step.t == t {
      k' := OwnStep(s, t, step.completion, owned, out, k);
    } else {
      OtherStep(s, step, t, owned, out, k);
      k' := k;
    }
  }

  lemma {:induction false} SettlingRun(s: System, steps: seq<Step>, t: nat, owned: seq<Claim<nat>>, out: Outcome,
                                       k: nat)
    returns (k': nat)
    requires Inv(s) && ValidRun(s, steps) && Settling(s, t, owned, out, k)
    ensures Inv(Run(s, steps)) && Settling(Run(s, steps), t, owned, out, k')
    decreases |steps|
  {
    k' := k;
    if steps != [] {
      k' := SettlingStep(s, steps[0], t, owned, out, k);
      Preservation.StepKeepsInv(s, steps[0]);
      k' := SettlingRun(Apply(s, steps[0]), steps[1..], t, owned, out, k');
    }
  }

  /** The task is out of the record, its slot free, and its job was cancelled once and never run. */
  ghost predicate Settled(sh: Shared, id: nat) {
    && id in sh.cancelled && sh.inner.Live(id) == 0
    && Known(sh, id)
    && var r := sh.jobs[sh.admitted[id]];
       r.cancels == 1 && r.runs == 0 && r.status.Cancelled?
  }

  lemma CancelledIsSettled(s: System, id: nat)
    requires Inv(s) && id in s.sh.cancelled
    ensures Settled(s.sh, id)
  {
    PlacesSplit(s.sh, id);
    assert Known(s.sh, id);
    assert Ownership(s.sh, s.acts, id);
    assert JobOk(s.sh, s.acts, id);
  }

  lemma AllSettled(s: System, t: nat, owned: seq<Claim<nat>>, out: Outcome, k: nat)
    requires Inv(s) && Settling(s, t, owned, out, k) && s.acts[t].Returned?
    ensures s.acts[t] == Returned(out) && forall i | 0 <= i < |owned| :: Settled(s.sh, owned[i].id)
  {
    assert owned[k..] == [];
    forall i | 0 <= i < |owned| ensures Settled(s.sh, owned[i].id) {
      CancelledIsSettled(s, owned[i].id);
    }
  }

  /** From a claim to the return: everything the thread claimed is settled when it returns. */
  lemma ReturnSettles(s: System, t: nat, owned: seq<Claim<nat>>, out: Outcome, steps: seq<Step>)
    requires Inv(s) && ValidRun(s, steps) && Settling(s, t, owned, out, 0)
    ensures var s' := Run(s, steps);
            t < |s'.acts| && (s'.acts[t].Returned? ==>
              s'.acts[t] == Returned(out) && forall i | 0 <= i < |owned| :: Settled(s'.sh, owned[i].id))
  {
    var k := SettlingRun(s, steps, t, owned, out, 0);
    if Run(s, steps).acts[t].Returned? {
      AllSettled(Run(s, steps), t, owned, out, k);
    }
  }

  /** Over any run in which a `cancel` that claimed its task returns, the task is settled. */
  lemma CancelSettles(s: System, t: nat, steps: seq<Step>)
    requires Reachable(s) && Enabled(s, Go(t, Pending)) && s.acts[t].Calling? && s.acts[t].call.Cancel?
    requires s.acts[t].call.taskId in s.sh.inner.queue
    requires ValidRun(Apply(s, Go(t, Pending)), steps)
    ensures var s' := Run(Apply(s, Go(t, Pending)), steps);
            var id := s.acts[t].call.taskId;
            t < |s'.acts| && (s'.acts[t].Returned? ==>
              s'.acts[t] == Returned(CancelDone(id, CancelledNow, true)) && Settled(s'.sh, id))
  {
    var id := s.acts[t].call.taskId;
    var owned := CancelClaims(s, t, id);
    Preservation.InvAfter(s, Go(t, Pending));
    ReturnSettles(Apply(s, Go(t, Pending)), t, owned, CancelDone(id, CancelledNow, true), steps);
    assert owned[0].id == id;
  }

  lemma CancelClaims(s: System, t: nat, id: nat) returns (owned: seq<Claim<nat>>)
    requires Enabled(s, Go(t, Pending)) && s.acts[t].Calling? && s.acts[t].call.Cancel?
    requires s.acts[t].call.taskId == id && id in s.sh.inner.queue
    ensures |owned| == 1 && owned[0].id == id
    ensures Settling(Apply(s, Go(t, Pending)), t, owned, CancelDone(id, CancelledNow, true), 0)
  {
    owned := [Claim(id, s.sh.inner.queue[id])];
    assert Advance(s.sh, s.acts[t], Pending).act == Cancelling(owned, CancelDone(id, CancelledNow, true));
  }

  /** Over any run in which a `stop` returns, every task that was queued when it took the lock is settled. */
  lemma StopSettles(s: System, t: nat, steps: seq<Step>)
    requires Reachable(s) && Enabled(s, Go(t, Pending)) && s.acts[t] == Calling(Call.Stop)
    requires ValidRun(Apply(s, Go(t, Pending)), steps)
    ensures var s' := Run(Apply(s, Go(t, Pending)), steps);
            t < |s'.acts| && (s'.acts[t].Returned? ==>
              && s'.acts[t].out == StopDone(StopReport(|s.sh.inner.queue|, s.sh.inner.running, |s.sh.inner.queue|))
              && forall id | id in s.sh.inner.queue :: Settled(s'.sh, id))
  {
    var owned, out := StopClaims(s, t);
    Preservation.InvAfter(s, Go(t, Pending));
    ReturnSettles(Apply(s, Go(t, Pending)), t, owned, out, steps);
  }

  lemma StopClaims(s: System, t: nat) returns (owned: seq<Claim<nat>>, out: Outcome)
    requires Enabled(s, Go(t, Pending)) && s.acts[t] == Calling(Call.Stop)
    ensures Settling(Apply(s, Go(t, Pending)), t, owned, out, 0)
    ensures out == StopDone(StopReport(|s.sh.inner.queue|, s.sh.inner.running, |s.sh.inner.queue|))
    ensures forall id | id in s.sh.inner.queue :: exists i :: 0 <= i < |owned| && owned[i].id == id
  {
    var n := Advance(s.sh, s.acts[t], Pending);
    owned, out := StopTakes(s.sh, n);
    ClaimedBy(s, t, n, owned, out);
  }

  lemma ClaimedBy(s: System, t: nat, n: Next, owned: seq<Claim<nat>>, out: Outcome)
    requires Enabled(s, Go(t, Pending)) && n == Advance(s.sh, s.acts[t], Pending)
    requires n.act.Publishing? && n.act.k == Clean(owned, out) && out != WorkerDone
    ensures Settling(Apply(s, Go(t, Pending)), t, owned, out, 0)
  {
    assert owned[0..] == owned;
  }

  lemma StopTakes(sh: Shared, n: Next) returns (owned: seq<Claim<nat>>, out: Outcome)
    requires n == BeginStop(sh)
    ensures out == StopDone(StopReport(|sh.inner.queue|, sh.inner.running, |sh.inner.queue|))
    ensures n.act == Publishing(true, n.act.terminated, Clean(owned, out)) && !n.spawned
    ensures forall id | id in sh.inner.queue :: exists i :: 0 <= i < |owned| && owned[i].id == id
  {
    owned := InOrder(sh.inner.queue);
    out := StopDone(StopReport(|sh.inner.queue|, sh.inner.running, |owned|));
    IdsInOrder(sh.inner.queue);
    forall id | id in sh.inner.queue ensures exists i :: 0 <= i < |owned| && owned[i].id == id {
      assert id in Ids(owned);
    }
  }
}
