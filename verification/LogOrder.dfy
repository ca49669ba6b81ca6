/**
 Runs that use the cache as the file system does: outside a call and outside commit only some processes, the
 readers, refer to buffers, and each of them to one at a time.
 */
module LogOrder {
  import opened Common
  import opened LogMachine
  import opened LogInvariant
  import opened LogTheorems
  import opened LogBudget

  /** Process p waits for or holds the buffer of block b. */
  predicate Refers(cache: map<nat, Buf>, p: nat, b: nat) {
    b in cache && (p in cache[b].waiters || cache[b].holder == Some(p))
  }

  /** Process p commits, or recovers. */
  predicate Commits(s: Core, p: nat) { p == s.committer && !s.pc.Idle? }

  predicate Busy(s: State, p: nat) { Running(s.calls, p) || Commits(s.core, p) }

  ghost predicate Orderly(s: State, readers: set<nat>) {
    && (forall p: nat, b: nat :: Refers(s.cache, p, b) ==> Busy(s, p) || p in readers)
    && (forall p: nat, a: nat, b: nat :: Refers(s.cache, p, a) && Refers(s.cache, p, b) ==> Busy(s, p) || a == b)
  }

  /** A run within budgets whose states are all orderly. */
  ghost predicate OrderlyRun(c: Params, readers: set<nat>, s: State, steps: seq<Step>, t: State)
    decreases |steps|
  {
    && Orderly(s, readers)
    && if |steps| == 0 then s == t
       else
         && Enabled(c, s, steps[0]) && InBudget(c, s, steps[0])
         && OrderlyRun(c, readers, Do(c, s, steps[0]), steps[1..], t)
  }

  ghost predicate ReachableOrderly(c: Params, readers: set<nat>, s: State) {
    exists s0, steps :: ParamsOk(c) && Init(c, s0) && OrderlyRun(c, readers, s0, steps, s)
  }

  lemma {:induction false} OrderlyIsThrifty(c: Params, readers: set<nat>, s: State, steps: seq<Step>, t: State)
    requires OrderlyRun(c, readers, s, steps, t)
    ensures ThriftyRun(c, s, steps, t) && Orderly(t, readers)
    decreases |steps|
  {
    if |steps| > 0 {
      OrderlyIsThrifty(c, readers, Do(c, s, steps[0]), steps[1..], t);
    }
  }

  lemma OrderlyInv(c: Params, readers: set<nat>, s: State)
    requires ReachableOrderly(c, readers, s)
    ensures ReachableInBudget(c, s) && Orderly(s, readers) && Inv(c, s) && BudgetInv(c, s)
  {
    var s0, steps :| ParamsOk(c) && Init(c, s0) && OrderlyRun(c, readers, s0, steps, s);
    OrderlyIsThrifty(c, readers, s0, steps, s);
    assert ReachableInBudget(c, s);
    InBudgetInv(c, s);
  }

  // ---------- Extending runs ----------

  lemma {:induction false} OrderlySnoc(c: Params, readers: set<nat>, s: State, steps: seq<Step>, t: State, step: Step)
    requires OrderlyRun(c, readers, s, steps, t)
    requires Enabled(c, t, step) && InBudget(c, t, step) && Orderly(Do(c, t, step), readers)
    ensures OrderlyRun(c, readers, s, steps + [step], Do(c, t, step))
    decreases |steps|
  {
    if |steps| == 0 {
      assert (steps + [step])[1..] == [];
    } else {
      OrderlySnoc(c, readers, Do(c, s, steps[0]), steps[1..], t, step);
      assert (steps + [step])[1..] == steps[1..] + [step];
    }
  }

  lemma ReachStep(c: Params, readers: set<nat>, s: State, step: Step) returns (t: State)
    requires ReachableOrderly(c, readers, s)
    requires Enabled(c, s, step) && InBudget(c, s, step) && Orderly(Do(c, s, step), readers)
    ensures t == Do(c, s, step) && ReachableOrderly(c, readers, t)
  {
    t := Do(c, s, step);
    var s0, steps :| ParamsOk(c) && Init(c, s0) && OrderlyRun(c, readers, s0, steps, s);
    OrderlySnoc(c, readers, s0, steps, s, step);
  }

  /** Steps that add references of running calls only. */
  lemma StaysOrderly(s: State, t: State, readers: set<nat>)
    requires Orderly(s, readers) && t.core.pc == s.core.pc && t.core.committer == s.core.committer
    requires forall p: nat :: Running(s.calls, p) ==> Running(t.calls, p)
    requires forall p: nat, b: nat :: Refers(t.cache, p, b) ==> Refers(s.cache, p, b) || Running(t.calls, p)
    ensures Orderly(t, readers)
  {
  }

  predicate OnBuffer(step: Step, p: nat) {
    (step.Bget? || step.Lock? || step.Fill? || step.LogWrite? || step.Brelse?) && step.p == p
  }

  lemma RefersAfter(c: Params, s: State, step: Step, p: nat, q: nat, b: nat)
    requires Enabled(c, s, step) && OnBuffer(step, p) && Refers(Do(c, s, step).cache, q, b)
    ensures Refers(s.cache, q, b) || q == p
  {
  }

  /** A running call takes, locks, reads, logs or releases a buffer. */
  lemma ReachCall(c: Params, readers: set<nat>, s: State, step: Step, p: nat) returns (t: State)
    requires ReachableOrderly(c, readers, s) && Enabled(c, s, step) && InBudget(c, s, step)
    requires OnBuffer(step, p) && Running(s.calls, p)
    ensures t == Do(c, s, step) && ReachableOrderly(c, readers, t)
  {
    OrderlyInv(c, readers, s);
    t := Do(c, s, step);
    assert forall q: nat :: Running(s.calls, q) ==> Running(t.calls, q);
    forall q: nat, b: nat | Refers(t.cache, q, b) ensures Refers(s.cache, q, b) || Running(t.calls, q) {
      RefersAfter(c, s, step, p, q, b);
    }
    StaysOrderly(s, t, readers);
    t := ReachStep(c, readers, s, step);
  }
}
