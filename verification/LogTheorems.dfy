/** Results about every run of the log, for any number of processes, any interleaving and any crashes. */
module LogTheorems {
  import opened Common
  import opened LogMachine
  import opened LogInvariant

  lemma StepBuffers(c: Params, s: State, step: Step)
    requires Inv(c, s) && Enabled(c, s, step)
    requires step.Lock? || step.Fill? || step.Modify? || step.Brelse?
    ensures Inv(c, Do(c, s, step))
  {
    assert BufInv(c, MediaOf(s.core), s.calls, step.b, s.cache[step.b]);
    StepBuf(c, s, step.b, Do(c, s, step).cache[step.b]);
  }

  lemma StepCommits(c: Params, s: State, step: Step)
    requires Inv(c, s) && Enabled(c, s, step)
    requires step.CommitSlot? || step.CommitHead? || step.CommitInstall? || step.CommitClear? || step.CommitDone?
    ensures Inv(c, Do(c, s, step))
  {
    match step
    case CommitSlot => StepCommitSlot(c, s);
    case CommitHead => StepCommitHead(c, s);
    case CommitInstall => StepCommitInstall(c, s);
    case CommitClear => StepCommitClear(c, s);
    case CommitDone => StepCommitDone(c, s);
  }

  lemma StepRecovers(c: Params, s: State, step: Step)
    requires Inv(c, s) && Enabled(c, s, step)
    requires step.Crash? || step.RecoverHead? || step.RecoverInstall? || step.RecoverClear?
    ensures Inv(c, Do(c, s, step))
  {
    match step
    case Crash(rec) => StepCrash(c, s, rec);
    case RecoverHead => StepRecoverHead(c, s);
    case RecoverInstall => StepRecoverInstall(c, s);
    case RecoverClear => StepRecoverClear(c, s);
  }

  lemma StepKeepsInv(c: Params, s: State, step: Step)
    requires Inv(c, s) && Enabled(c, s, step)
    ensures Inv(c, Do(c, s, step))
  {
    if step.Bget? {
      StepBget(c, s, step.p, step.b, step.victim);
    } else if step.Lock? || step.Fill? || step.Modify? || step.Brelse? {
      StepBuffers(c, s, step);
    } else if step.LogWrite? {
      StepLogWrite(c, s, step.p, step.b);
    } else if step.BeginOp? {
      StepBeginOp(c, s, step.p);
    } else if step.EndOp? {
      StepEndOp(c, s, step.p);
    } else if step.Crash? || step.RecoverHead? || step.RecoverInstall? || step.RecoverClear? {
      StepRecovers(c, s, step);
    } else {
      StepCommits(c, s, step);
    }
  }

  lemma InitInv(c: Params, s: State)
    requires ParamsOk(c) && Init(c, s)
    ensures Inv(c, s)
  {
    CountZero(s.calls.ops);
    assert forall p: nat :: !Running(s.calls, p);
  }

  lemma {:induction false} RunKeepsInv(c: Params, s: State, steps: seq<Step>, t: State)
    requires Inv(c, s) && Run(c, s, steps, t)
    ensures Inv(c, t)
    decreases |steps|
  {
    if |steps| > 0 {
      StepKeepsInv(c, s, steps[0]);
      RunKeepsInv(c, Do(c, s, steps[0]), steps[1..], t);
    }
  }

  ghost predicate Reachable(c: Params, s: State) {
    exists s0, steps :: ParamsOk(c) && Init(c, s0) && Run(c, s0, steps, s)
  }

  lemma ReachableInv(c: Params, s: State)
    requires Reachable(c, s)
    ensures Inv(c, s)
  {
    var s0, steps :| ParamsOk(c) && Init(c, s0) && Run(c, s0, steps, s);
    InitInv(c, s0);
    RunKeepsInv(c, s0, steps, s);
  }

  // ---------- Crash atomicity ----------

  /** Whatever the moment of the crash, the disk then holds exactly the effect of a prefix of the logged writes,
      and that prefix contains each operation entirely or not at all. */
  lemma CrashAtomicity(c: Params, s: State)
    requires Reachable(c, s)
    ensures WholeOps(s.hist, s.calls)
    ensures forall b: nat :: !InLog(c, b) ==>
      Replay(c, s.core.disk, b) == Logged(s.hist.base, s.hist.writes[..s.hist.durLen], b)
  {
    ReachableInv(c, s);
  }

  lemma DurableAfterStep(c: Params, s: State, step: Step)
    requires Enabled(c, s, step)
    ensures Do(c, s, step).core.durable == if step.CommitHead? then s.core.latest else s.core.durable
  {
  }

  /** One step replaces all of the recoverable contents by all of the newest ones, and no other step touches them. */
  lemma OnlyHeaderWriteCommits(c: Params, s: State, step: Step, b: nat)
    requires Reachable(c, s) && Enabled(c, s, step) && !InLog(c, b)
    ensures Replay(c, Do(c, s, step).core.disk, b) ==
      if step.CommitHead? then Logged(s.hist.base, s.hist.writes, b) else Replay(c, s.core.disk, b)
  {
    ReachableInv(c, s);
    assert Replay(c, s.core.disk, b) == At(s.core.durable, b);
    assert Logged(s.hist.base, s.hist.writes, b) == At(s.core.latest, b);
    DurableAfterStep(c, s, step);
    ReplayAfterStep(c, s, step, b);
  }

  lemma ReplayAfterStep(c: Params, s: State, step: Step, b: nat)
    requires Inv(c, s) && Enabled(c, s, step) && !InLog(c, b)
    ensures Replay(c, Do(c, s, step).core.disk, b) == At(Do(c, s, step).core.durable, b)
  {
    StepKeepsInv(c, s, step);
  }

  /** Steps a machine takes between a crash and the end of recovery, further crashes included. */
  predicate RecoveryStep(step: Step) {
    || step.Crash? || step.Bget? || step.Lock? || step.Fill? || step.Brelse?
    || step.RecoverHead? || step.RecoverInstall? || step.RecoverClear?
  }

  /** Recovering, or recovered with nothing logged since. */
  ghost predicate Quiet(c: Params, s: State) {
    Inv(c, s) && (Recovering(s.core.pc) || (s.core.pc.Idle? && s.core.lh == []))
  }

  lemma QuietStep(c: Params, s: State, step: Step)
    requires Quiet(c, s) && RecoveryStep(step) && Enabled(c, s, step)
    ensures Quiet(c, Do(c, s, step)) && Do(c, s, step).core.durable == s.core.durable
  {
    StepKeepsInv(c, s, step);
    DurableAfterStep(c, s, step);
    assert step.Bget? || step.Lock? || step.Fill? || step.Brelse? ==> Do(c, s, step).core == s.core;
  }

  lemma {:induction false} QuietRun(c: Params, s: State, steps: seq<Step>, t: State)
    requires Quiet(c, s) && Run(c, s, steps, t)
    requires forall i :: 0 <= i < |steps| ==> RecoveryStep(steps[i])
    ensures Quiet(c, t) && t.core.durable == s.core.durable
    decreases |steps|
  {
    if |steps| > 0 {
      QuietStep(c, s, steps[0]);
      QuietRun(c, Do(c, s, steps[0]), steps[1..], t);
    }
  }

  /** However often the machine crashes while recovering, a completed recovery leaves in every home block
      exactly what the disk promised at the first crash. */
  lemma RecoveryRestores(c: Params, s: State, rec: nat, steps: seq<Step>, t: State)
    requires Reachable(c, s) && Run(c, DoCrash(s, rec), steps, t) && t.core.pc.Idle?
    requires forall i :: 0 <= i < |steps| ==> RecoveryStep(steps[i])
    ensures forall b: nat :: !InLog(c, b) ==> At(t.core.disk, b) == Replay(c, s.core.disk, b)
    ensures HeadOf(At(t.core.disk, c.start)) == []
  {
    ReachableInv(c, s);
    StepCrash(c, s, rec);
    QuietRun(c, DoCrash(s, rec), steps, t);
    NoWritesLeft(t.core, t.calls, t.hist);
  }

  /** When the call that committed returns from end_op, everything logged so far is durable. */
  lemma CommitMakesDurable(c: Params, s: State, b: nat)
    requires Reachable(c, s) && s.core.pc.Finish? && !InLog(c, b)
    ensures At(s.core.disk, b) == Logged(s.hist.base, s.hist.writes, b) && s.hist.durLen == |s.hist.writes|
  {
    ReachableInv(c, s);
  }

  /** Whenever no call runs and nothing commits or recovers, the log is empty and every home block on disk holds what
      was last logged: the last call out has committed before it returned. */
  lemma NothingPending(c: Params, s: State)
    requires Reachable(c, s) && s.calls.outstanding == 0 && !s.calls.committing && !Recovering(s.core.pc)
    ensures s.core.lh == [] && s.hist.durLen == |s.hist.writes|
    ensures forall b: nat :: !InLog(c, b) ==> At(s.core.disk, b) == Logged(s.hist.base, s.hist.writes, b)
  {
    ReachableInv(c, s);
    NoWritesLeft(s.core, s.calls, s.hist);
  }

  /** What a call puts into a buffer and logs becomes the newest contents of that block and of no other, in the name of
      that call. */
  lemma LoggedIsNewest(c: Params, s: State, p: nat, b: nat, data: seq<nat>, x: nat)
    requires Reachable(c, s) && CanModify(c, s, p, b) && !TooBig(c, s)
    ensures Enabled(c, Do(c, s, Modify(p, b, data)), LogWrite(p, b))
    ensures var h := Do(c, Do(c, s, Modify(p, b, data)), LogWrite(p, b)).hist;
      && |h.writes| == |s.hist.writes| + 1 && h.writes[|s.hist.writes|].op == s.calls.ops[p].id
      && Logged(h.base, h.writes, x) == if x == b then Bytes(data) else Logged(s.hist.base, s.hist.writes, x)
  {
    var h := Do(c, Do(c, s, Modify(p, b, data)), LogWrite(p, b)).hist;
    assert h.writes[..|s.hist.writes|] == s.hist.writes;
  }

  /** begin_op makes the caller a running call, and end_op ends it and no other. */
  lemma CallsBeginAndEnd(c: Params, s: State, p: nat, q: nat)
    requires Reachable(c, s)
    ensures CanBeginOp(c, s, p) ==> (Running(DoBeginOp(c, s, p).calls, q) <==> Running(s.calls, q) || q == p)
    ensures CanEndOp(s, p) ==> (Running(DoEndOp(s, p).calls, q) <==> Running(s.calls, q) && q != p)
    ensures CanEndOp(s, p) && s.calls.outstanding == 1 ==>
      DoEndOp(s, p).calls.committing && DoEndOp(s, p).core.committer == p
  {
  }

  // ---------- Commit and recovery come to an end ----------

  /** How many steps of commit or recovery are still to come. */
  function Ahead(s: Core): nat {
    var n := |s.lh|;
    match s.pc
    case Idle => 0
    case WriteLog(tail) => 2 * n - (if tail < n then tail else n) + 3
    case WriteHead => n + 3
    case Install(tail) => n - (if tail < n then tail else n) + 2
    case Clear => 2
    case Finish => 1
    case RecRead => 0
    case RecInstall(tail) => n - (if tail < n then tail else n) + 1
    case RecClear => 1
  }

  predicate CommitStep(step: Step) {
    || step.CommitSlot? || step.CommitHead? || step.CommitInstall? || step.CommitClear? || step.CommitDone?
    || step.RecoverInstall? || step.RecoverClear?
  }

  lemma OwnStepAdvances(c: Params, s: State, step: Step)
    requires PcInv(c, s.core, s.calls) && Enabled(c, s, step) && CommitStep(step)
    ensures Ahead(Do(c, s, step).core) == Ahead(s.core) - 1
  {
    if step.CommitSlot? {
      assert Ahead(DoCommitSlot(c, s).core) == Ahead(s.core) - 1;
    } else if step.CommitInstall? {
      assert Ahead(DoCommitInstall(c, s).core) == Ahead(s.core) - 1;
    } else if step.RecoverInstall? {
      assert Ahead(DoRecoverInstall(c, s).core) == Ahead(s.core) - 1;
    }
  }

  lemma OtherStepWaits(c: Params, s: State, step: Step)
    requires PcInv(c, s.core, s.calls) && s.calls.outstanding == Count(s.calls.ops) && Enabled(c, s, step)
    requires !CommitStep(step) && !step.EndOp? && !step.Crash? && !step.RecoverHead?
    ensures Ahead(Do(c, s, step).core) == Ahead(s.core)
  {
    if step.LogWrite? {
      OnlyIdleRuns(c, s.core, s.calls, step.p);
    } else {
      assert Do(c, s, step).core == s.core;
    }
  }

  /** Each step of commit and, once the header is read, of recovery takes one off what is left; nobody else's step adds
      to it but an end_op that commits; and nothing is left only when the log is idle or recovery has not begun. */
  lemma CommitAdvances(c: Params, s: State, step: Step)
    requires Reachable(c, s) && Enabled(c, s, step) && !step.Crash? && !step.RecoverHead?
    ensures CommitStep(step) ==> Ahead(Do(c, s, step).core) == Ahead(s.core) - 1
    ensures !CommitStep(step) && !step.EndOp? ==> Ahead(Do(c, s, step).core) == Ahead(s.core)
    ensures Ahead(s.core) == 0 <==> s.core.pc.Idle? || s.core.pc.RecRead?
  {
    assert PcInv(c, s.core, s.calls) && s.calls.outstanding == Count(s.calls.ops) by { ReachableInv(c, s); }
    if CommitStep(step) {
      OwnStepAdvances(c, s, step);
    } else if !step.EndOp? {
      OtherStepWaits(c, s, step);
    }
  }

  // ---------- The cache and the log together act as a flat array of blocks ----------

  /** bread, once it returns, shows the contents last logged for the block. */
  lemma BreadReturnsLatest(c: Params, s: State, p: nat, b: nat)
    requires Reachable(c, s) && HoldsValid(s, p, b) && !s.cache[b].dirty && !InLog(c, b) && !Recovering(s.core.pc)
    ensures s.cache[b].data == Logged(s.hist.base, s.hist.writes, b)
  {
    ReachableInv(c, s);
    assert BufInv(c, MediaOf(s.core), s.calls, b, s.cache[b]);
  }

  /** Until it is installed, a logged block stays in the cache, pinned: bget can neither recycle nor lose it. */
  lemma LoggedStaysCached(c: Params, s: State, p: nat, b: nat, x: nat, v: nat)
    requires Reachable(c, s) && x in s.core.lh && !Committed(s.core.pc) && !Recovering(s.core.pc)
    ensures x in s.cache && s.cache[x].valid && s.cache[x].refcnt >= 1
    ensures b !in s.cache && CanBget(c, s, p, b, Some(v)) ==> v != x
  {
    ReachableInv(c, s);
    assert x in s.core.pinned;
    assert BufInv(c, MediaOf(s.core), s.calls, x, s.cache[x]);
  }

  /** Outside the log area only installing a logged block writes to the disk. */
  lemma HomeWrites(c: Params, s: State, step: Step, b: nat)
    requires Enabled(c, s, step) && !InLog(c, b) && c.size >= 1 && |s.core.lh| <= c.size - 1
    requires At(Do(c, s, step).core.disk, b) != At(s.core.disk, b)
    ensures (s.core.pc.Install? || s.core.pc.RecInstall?) && b in s.core.lh
  {
  }

  /** A home block changes on disk only after a header naming it has been written. */
  lemma HomeChangesOnlyAfterCommit(c: Params, s: State, step: Step, b: nat)
    requires Reachable(c, s) && Enabled(c, s, step) && !InLog(c, b)
    requires At(Do(c, s, step).core.disk, b) != At(s.core.disk, b)
    ensures b in HeadOf(At(s.core.disk, c.start))
  {
    ReachableInv(c, s);
    HomeWrites(c, s, step, b);
  }

  /** Commit and recovery write log slots only inside the log area, whatever size mkfs gave it. */
  lemma SlotsStayInLog(c: Params, s: State, tail: nat)
    requires Reachable(c, s) && tail < |s.core.lh|
    ensures InLog(c, Slot(c, tail)) && Slot(c, tail) != c.start && !InLog(c, s.core.lh[tail])
  {
    ReachableInv(c, s);
  }

  // ---------- Group commit ----------

  /** A commit starts only between operations. */
  lemma GroupCommit(c: Params, s: State)
    requires Reachable(c, s)
    ensures s.calls.committing ==> s.calls.outstanding == 0
    ensures forall p: nat :: Running(s.calls, p) ==> !s.calls.committing && s.calls.outstanding >= 1
  {
    ReachableInv(c, s);
    CountZero(s.calls.ops);
  }
}
