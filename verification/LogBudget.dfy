/**
 Runs whose calls keep to the MAXOPBLOCKS blocks that begin_op reserves for each of them: the log then has room
 for every running call. What the reservation is worth depends on the size of the log area and of the cache.
 */
module LogBudget {
  import opened Common
  import opened LogMachine
  import opened LogInvariant
  import opened LogTheorems

  // ---------- Reservations ----------

  function OpUnspent(c: Params, op: Op): int { if op.Active? then c.maxOp - |op.spent| else 0 }

  /** Log blocks still promised to the operations in progress. */
  function Unspent(c: Params, ops: seq<Op>): int {
    if |ops| == 0 then 0
    else Unspent(c, ops[..|ops| - 1]) + OpUnspent(c, ops[|ops| - 1])
  }

  /** A call logs no more than maxOp distinct blocks. */
  predicate InBudget(c: Params, s: State, step: Step) {
    step.LogWrite? && Running(s.calls, step.p) ==> |s.calls.ops[step.p].spent + {step.b}| <= c.maxOp
  }

  /** A run all of whose calls keep to their budget. */
  predicate ThriftyRun(c: Params, s: State, steps: seq<Step>, t: State)
    decreases |steps|
  {
    if |steps| == 0 then s == t
    else
      && Enabled(c, s, steps[0]) && InBudget(c, s, steps[0])
      && ThriftyRun(c, Do(c, s, steps[0]), steps[1..], t)
  }

  ghost predicate ReachableInBudget(c: Params, s: State) {
    exists s0, steps :: ParamsOk(c) && Init(c, s0) && ThriftyRun(c, s0, steps, s)
  }

  ghost predicate SpentOk(c: Params, k: Calls) { forall p: nat :: Running(k, p) ==> |k.ops[p].spent| <= c.maxOp }

  ghost predicate BudgetInv(c: Params, s: State) {
    SpentOk(c, s.calls) && (!Recovering(s.core.pc) ==> |s.core.lh| + Unspent(c, s.calls.ops) <= c.logSize)
  }

  lemma {:induction false} UnspentUpdate(c: Params, ops: seq<Op>, p: nat, op: Op)
    requires p < |ops|
    ensures Unspent(c, ops[p := op]) == Unspent(c, ops) - OpUnspent(c, ops[p]) + OpUnspent(c, op)
  {
    var n := |ops| - 1;
    if p == n {
      assert ops[p := op][..n] == ops[..n];
    } else {
      UnspentUpdate(c, ops[..n], p, op);
      assert ops[p := op][..n] == ops[..n][p := op];
    }
  }

  lemma {:induction false} UnspentBounds(c: Params, ops: seq<Op>)
    requires forall p :: 0 <= p < |ops| && ops[p].Active? ==> |ops[p].spent| <= c.maxOp
    ensures 0 <= Unspent(c, ops) <= Count(ops) * c.maxOp
  {
    if |ops| > 0 {
      UnspentBounds(c, ops[..|ops| - 1]);
    }
  }

  /** The reservation of one running operation is part of the total. */
  lemma {:induction false} UnspentCovers(c: Params, ops: seq<Op>, p: nat)
    requires forall q :: 0 <= q < |ops| && ops[q].Active? ==> |ops[q].spent| <= c.maxOp
    requires p < |ops|
    ensures Unspent(c, ops) >= OpUnspent(c, ops[p])
  {
    UnspentBounds(c, ops[..|ops| - 1]);
    if p < |ops| - 1 {
      UnspentCovers(c, ops[..|ops| - 1], p);
    }
  }

  lemma SpentAll(c: Params, k: Calls)
    requires SpentOk(c, k)
    ensures forall p :: 0 <= p < |k.ops| && k.ops[p].Active? ==> |k.ops[p].spent| <= c.maxOp
  {
    forall p | 0 <= p < |k.ops| && k.ops[p].Active? ensures |k.ops[p].spent| <= c.maxOp {
      assert Running(k, p);
    }
  }

  lemma BudgetBeginOp(c: Params, s: State, p: nat)
    requires Inv(c, s) && BudgetInv(c, s) && CanBeginOp(c, s, p)
    ensures BudgetInv(c, DoBeginOp(c, s, p))
  {
    var t := DoBeginOp(c, s, p);
    CountUpdate(s.calls.ops, p, t.calls.ops[p]);
    assert SpentOk(c, t.calls);
    SpentAll(c, t.calls);
    UnspentBounds(c, t.calls.ops);
  }

  lemma BudgetEndOp(c: Params, s: State, p: nat)
    requires BudgetInv(c, s) && CanEndOp(s, p) && !Recovering(s.core.pc)
    ensures BudgetInv(c, DoEndOp(s, p))
  {
    UnspentUpdate(c, s.calls.ops, p, NoOp);
    assert Running(s.calls, p);
    assert forall q: nat :: Running(DoEndOp(s, p).calls, q) ==> Running(s.calls, q);
  }

  /** What a write adds to the log comes out of its call's reservation. */
  lemma SpendKeeps(c: Params, k: Calls, k': Calls, lh: seq<nat>, p: nat, b: nat, op: Op)
    requires SpentOk(c, k) && Running(k, p) && op == k.ops[p].(spent := k.ops[p].spent + {b})
    requires k' == k.(ops := k.ops[p := op]) && |op.spent| <= c.maxOp && (b in k.ops[p].spent ==> b in lh)
    ensures SpentOk(c, k') && |Append(lh, b)| + Unspent(c, k'.ops) <= |lh| + Unspent(c, k.ops)
  {
    UnspentUpdate(c, k.ops, p, op);
    assert b in k.ops[p].spent ==> op.spent == k.ops[p].spent;
    forall q: nat | Running(k', q) ensures |k'.ops[q].spent| <= c.maxOp {
      assert Running(k, q);
    }
  }

  lemma BudgetLogWrite(c: Params, s: State, p: nat, b: nat)
    requires Inv(c, s) && BudgetInv(c, s) && CanLogWrite(c, s, p, b) && InBudget(c, s, LogWrite(p, b))
    ensures BudgetInv(c, DoLogWrite(c, s, p, b))
  {
    var op, t := s.calls.ops[p], DoLogWrite(c, s, p, b);
    assert b in op.spent ==> b in s.core.lh by { assert OpInv(c, s.calls, op, s.core.lh); }
    SpendKeeps(c, s.calls, t.calls, s.core.lh, p, b, t.calls.ops[p]);
  }

  /** Nothing is reserved while no call runs. */
  lemma BudgetIdle(c: Params, t: State)
    requires CallsInv(c, t.calls, t.core.lh) && t.calls.outstanding == 0
    requires Recovering(t.core.pc) || |t.core.lh| <= c.logSize
    ensures BudgetInv(c, t)
  {
    CountZero(t.calls.ops);
    assert forall p: nat :: !Running(t.calls, p);
    UnspentBounds(c, t.calls.ops);
  }

  lemma BudgetSame(c: Params, s: State, t: State)
    requires BudgetInv(c, s) && t.calls.ops == s.calls.ops && |t.core.lh| <= |s.core.lh|
    requires Recovering(s.core.pc) ==> Recovering(t.core.pc)
    ensures BudgetInv(c, t)
  {
    assert forall p: nat :: Running(t.calls, p) <==> Running(s.calls, p);
  }

  predicate Recovery(step: Step) { step.Crash? || step.RecoverHead? || step.RecoverInstall? || step.RecoverClear? }

  lemma BudgetRecovery(c: Params, s: State, step: Step)
    requires Inv(c, s) && Enabled(c, s, step) && Recovery(step)
    ensures BudgetInv(c, Do(c, s, step))
  {
    StepKeepsInv(c, s, step);
    BudgetIdle(c, Do(c, s, step));
  }

  lemma BudgetOthers(c: Params, s: State, step: Step)
    requires BudgetInv(c, s) && Enabled(c, s, step)
    requires !Recovery(step) && !step.BeginOp? && !step.EndOp? && !step.LogWrite?
    ensures BudgetInv(c, Do(c, s, step))
  {
    BudgetSame(c, s, Do(c, s, step));
  }

  lemma StepKeepsBudget(c: Params, s: State, step: Step)
    requires Inv(c, s) && BudgetInv(c, s) && Enabled(c, s, step) && InBudget(c, s, step)
    ensures BudgetInv(c, Do(c, s, step))
  {
    if step.BeginOp? {
      BudgetBeginOp(c, s, step.p);
    } else if step.EndOp? {
      OnlyIdleRuns(c, s.core, s.calls, step.p);
      BudgetEndOp(c, s, step.p);
    } else if step.LogWrite? {
      BudgetLogWrite(c, s, step.p, step.b);
    } else if Recovery(step) {
      BudgetRecovery(c, s, step);
    } else {
      BudgetOthers(c, s, step);
    }
  }

  lemma {:induction false} ThriftyKeeps(c: Params, s: State, steps: seq<Step>, t: State)
    requires Inv(c, s) && BudgetInv(c, s) && ThriftyRun(c, s, steps, t)
    ensures Inv(c, t) && BudgetInv(c, t) && Run(c, s, steps, t)
    decreases |steps|
  {
    if |steps| > 0 {
      StepKeepsInv(c, s, steps[0]);
      StepKeepsBudget(c, s, steps[0]);
      ThriftyKeeps(c, Do(c, s, steps[0]), steps[1..], t);
    }
  }

  lemma InBudgetInv(c: Params, s: State)
    requires ReachableInBudget(c, s)
    ensures Reachable(c, s) && Inv(c, s) && BudgetInv(c, s)
  {
    var s0, steps :| ParamsOk(c) && Init(c, s0) && ThriftyRun(c, s0, steps, s);
    InitInv(c, s0);
    BudgetIdle(c, s0);
    ThriftyKeeps(c, s0, steps, s);
  }

  /** While calls keep to their budget, the log has room for everything the running ones may still write. */
  lemma RoomForRunningCalls(c: Params, s: State)
    requires ReachableInBudget(c, s) && !Recovering(s.core.pc)
    ensures |s.core.lh| + Unspent(c, s.calls.ops) <= c.logSize && Unspent(c, s.calls.ops) >= 0
  {
    InBudgetInv(c, s);
    SpentAll(c, s.calls);
    UnspentBounds(c, s.calls.ops);
  }

  /** With one slot per log block besides the header, log_write never panics for a call with budget left. */
  lemma EnoughLogNoPanic(c: Params, s: State, p: nat)
    requires ReachableInBudget(c, s) && Running(s.calls, p) && |s.calls.ops[p].spent| < c.maxOp
    requires c.size >= c.logSize + 1
    ensures !TooBig(c, s)
  {
    InBudgetInv(c, s);
    OnlyIdleRuns(c, s.core, s.calls, p);
    SpentAll(c, s.calls);
    UnspentCovers(c, s.calls.ops, p);
  }
}
