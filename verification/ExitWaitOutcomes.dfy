/** What wait comes to: when it returns -1, when it sleeps, and that fork, exit and wait come to an end. */
module ExitWaitOutcomes {
  import opened Common
  import opened ExitWait
  import opened ExitWaitTheorems

  // ---------- Children ----------

  predicate KidAt(s: State, p: nat, z: nat) { z < |s.procs| && ChildOf(s.procs[z], p) }

  ghost predicate HasKid(s: State, p: nat) { exists z: nat :: KidAt(s, p, z) }

  ghost predicate HasKidBelow(s: State, p: nat, k: nat) { exists z: nat :: z < k && KidAt(s, p, z) }

  /** Inside wait, past a scan that found children. */
  predicate Waiting(pc: Pc) {
    pc.Sleep1? || pc.Sleep2? || pc.Sleep3? || pc.Sleep4? || pc.Away? || pc.Back? || pc.Again?
  }

  /** A scan knows whether it has passed a child; who sleeps in wait has one. */
  ghost predicate KidsAt(s: State, p: nat)
    requires p < |s.procs|
  {
    && (s.procs[p].pc.Wait2? ==> (s.procs[p].pc.kids <==> HasKidBelow(s, p, s.procs[p].pc.k)))
    && (Waiting(s.procs[p].pc) ==> HasKid(s, p))
  }

  /** A child has no parent until fork sets it, and reparent's place is in the table. */
  predicate PlaceAt(s: State, p: nat)
    requires p < |s.procs|
  {
    var pc := s.procs[p].pc;
    && (pc.Fork1? || pc.Fork2? ==> pc.c < |s.procs| && s.procs[pc.c].parent.None?)
    && (pc.Exit3? ==> pc.k < |s.procs|)
  }

  ghost predicate Kids(s: State) { forall p: nat :: p < |s.procs| ==> KidsAt(s, p) && PlaceAt(s, p) }

  /** Processes whose place changes only by their own steps. */
  predicate Own(pc: Pc) { !pc.Free? && !pc.New? && !pc.Dead? }

  /** Steps that change somebody's parent. */
  predicate Rewires(s: State, step: Step) {
    || step.Fork? || step.Reap? || (step.ForkGo? && step.p < |s.procs| && s.procs[step.p].pc.Fork2?)
    || (step.ExitGo? && Adopts(s, step.p))
  }

  lemma QuietGo(s: State, step: Step, z: nat)
    requires Enabled(s, step) && !Rewires(s, step) && z < |s.procs|
    requires step.ForkGo? || step.ExitGo? || step.WakeGo? || step.ScanGo? || step.SleepGo?
    ensures |Do(s, step).procs| == |s.procs| && Do(s, step).procs[z].parent == s.procs[z].parent
  {
    match step
    case ForkGo(p) => assert DoForkGo(s, p).procs[z].parent == s.procs[z].parent;
    case ExitGo(p) => assert DoExitGo(s, p).procs[z].parent == s.procs[z].parent;
    case WakeGo(p) => assert DoWakeGo(s, p).procs[z].parent == s.procs[z].parent;
    case ScanGo(p) => assert DoScanGo(s, p).procs[z].parent == s.procs[z].parent;
    case SleepGo(p) => assert DoSleepGo(s, p).procs[z].parent == s.procs[z].parent;
  }

  lemma QuietParents(s: State, step: Step, z: nat)
    requires Enabled(s, step) && !Rewires(s, step) && z < |s.procs|
    ensures |Do(s, step).procs| == |s.procs| && Do(s, step).procs[z].parent == s.procs[z].parent
  {
    if step.ForkGo? || step.ExitGo? || step.WakeGo? || step.ScanGo? || step.SleepGo? {
      QuietGo(s, step, z);
    }
  }

  /** A step that changes the parent of z: fork's, of an orphan, or one of z's parent that holds wait_lock. */
  lemma RewiredParent(s: State, step: Step, z: nat)
    requires Enabled(s, step) && Rewires(s, step) && z < |s.procs| && Local(s.procs[z], z, |s.procs|)
    requires step.p < |s.procs| && PlaceAt(s, step.p)
    ensures |Do(s, step).procs| == |s.procs|
    ensures Do(s, step).procs[z].parent != s.procs[z].parent ==>
      HoldsWait(s.procs[step.p].pc) && (s.procs[step.p].pc == Fork2(z) || ChildOf(s.procs[z], step.p))
  {
  }

  /** The parents that a step of another process leaves alone. */
  lemma OtherStepParents(s: State, step: Step, p: nat, z: nat)
    requires Enabled(s, step) && step.p != p && p < |s.procs| && z < |s.procs| && step.p < |s.procs|
    requires Local(s.procs[z], z, |s.procs|) && LockAt(s, step.p) && PlaceAt(s, step.p)
    ensures |Do(s, step).procs| == |s.procs|
    ensures ChildOf(s.procs[z], p) ==> ChildOf(Do(s, step).procs[z], p)
    ensures s.waitLock == Some(p) ==> Do(s, step).procs[z].parent == s.procs[z].parent
    ensures s.procs[z].parent.None? && s.procs[step.p].pc != Fork2(z) ==> Do(s, step).procs[z].parent.None?
  {
    if Rewires(s, step) {
      RewiredParent(s, step, z);
    } else {
      QuietParents(s, step, z);
    }
  }

  lemma OtherGoPlace(s: State, step: Step, p: nat)
    requires Enabled(s, step) && step.p != p && p < |s.procs| && Own(s.procs[p].pc) && step.p < |s.procs|
    requires KinAt(s, step.p)
    requires step.ForkGo? || step.ExitGo? || step.WakeGo? || step.ScanGo? || step.SleepGo?
    ensures p < |Do(s, step).procs| && Do(s, step).procs[p].pc == s.procs[p].pc
  {
    match step
    case ForkGo(q) => assert DoForkGo(s, q).procs[p].pc == s.procs[p].pc;
    case ExitGo(q) => assert DoExitGo(s, q).procs[p].pc == s.procs[p].pc;
    case WakeGo(q) => assert DoWakeGo(s, q).procs[p].pc == s.procs[p].pc;
    case ScanGo(q) => assert DoScanGo(s, q).procs[p].pc == s.procs[p].pc;
    case SleepGo(q) => assert DoSleepGo(s, q).procs[p].pc == s.procs[p].pc;
  }

  lemma OtherStepPlace(s: State, step: Step, p: nat)
    requires Enabled(s, step) && step.p != p && p < |s.procs| && Own(s.procs[p].pc) && step.p < |s.procs|
    requires KinAt(s, step.p) && Local(s.procs[p], p, |s.procs|)
    ensures p < |Do(s, step).procs| && Do(s, step).procs[p].pc == s.procs[p].pc
  {
    if step.ForkGo? || step.ExitGo? || step.WakeGo? || step.ScanGo? || step.SleepGo? {
      OtherGoPlace(s, step, p);
    }
  }

  /** No parent changes between two states. */
  ghost predicate SameParents(s: State, t: State) {
    |t.procs| == |s.procs| && forall z: nat :: z < |s.procs| ==> t.procs[z].parent == s.procs[z].parent
  }

  lemma SameKids(s: State, t: State, p: nat, k: nat)
    requires SameParents(s, t)
    ensures HasKidBelow(t, p, k) <==> HasKidBelow(s, p, k)
    ensures HasKid(t, p) <==> HasKid(s, p)
  {
    assert forall z: nat :: KidAt(t, p, z) <==> KidAt(s, p, z);
  }

  lemma MoreKids(s: State, t: State, p: nat)
    requires forall z: nat :: KidAt(s, p, z) ==> KidAt(t, p, z)
    ensures HasKid(s, p) ==> HasKid(t, p)
  {
  }

  /** What a step of another process does to the children of p. */
  lemma OtherParents(s: State, step: Step, p: nat)
    requires Inv(s) && Kids(s) && Enabled(s, step) && step.p != p && p < |s.procs|
    ensures |Do(s, step).procs| == |s.procs| && (HasKid(s, p) ==> HasKid(Do(s, step), p))
    ensures s.waitLock == Some(p) ==> SameParents(s, Do(s, step))
  {
    var t, a := Do(s, step), step.p;
    assert LockAt(s, a) && PlaceAt(s, a);
    forall z: nat | z < |s.procs|
      ensures |t.procs| == |s.procs| && (ChildOf(s.procs[z], p) ==> ChildOf(t.procs[z], p))
      ensures s.waitLock == Some(p) ==> t.procs[z].parent == s.procs[z].parent
    {
      assert Local(s.procs[z], z, |s.procs|);
      OtherStepParents(s, step, p, z);
    }
    MoreKids(s, t, p);
  }

  lemma OtherKeepsKids(s: State, step: Step, p: nat)
    requires Inv(s) && Kids(s) && Enabled(s, step) && step.p != p && p < |s.procs|
    ensures |Do(s, step).procs| == |s.procs| && KidsAt(Do(s, step), p)
  {
    OtherParents(s, step, p);
    assert KinAt(s, step.p) && KidsAt(s, p) && LockAt(s, p) && Local(s.procs[p], p, |s.procs|);
    if Own(s.procs[p].pc) {
      OtherStepPlace(s, step, p);
      if s.procs[p].pc.Wait2? {
        SameKids(s, Do(s, step), p, s.procs[p].pc.k);
      }
    } else {
      OtherStart(s, step, p);
    }
  }

  predicate Idle(pc: Pc) { pc.Free? || pc.New? || pc.Dead? || pc.User? }

  lemma OtherGoStart(s: State, step: Step, p: nat)
    requires Enabled(s, step) && step.p != p && p < |s.procs| && !Own(s.procs[p].pc) && step.p < |s.procs|
    requires step.ForkGo? || step.ExitGo? || step.WakeGo? || step.ScanGo? || step.SleepGo?
    ensures p < |Do(s, step).procs| && Idle(Do(s, step).procs[p].pc)
  {
    match step
    case ForkGo(q) => assert Idle(DoForkGo(s, q).procs[p].pc);
    case ExitGo(q) => assert Idle(DoExitGo(s, q).procs[p].pc);
    case WakeGo(q) => assert Idle(DoWakeGo(s, q).procs[p].pc);
    case ScanGo(q) => assert Idle(DoScanGo(s, q).procs[p].pc);
    case SleepGo(q) => assert Idle(DoSleepGo(s, q).procs[p].pc);
  }

  /** A slot not in use, or of a process being set up or dead, does not come to be inside a call. */
  lemma OtherStart(s: State, step: Step, p: nat)
    requires Enabled(s, step) && step.p != p && p < |s.procs| && !Own(s.procs[p].pc) && step.p < |s.procs|
    ensures p < |Do(s, step).procs| && Idle(Do(s, step).procs[p].pc)
  {
    if step.ForkGo? || step.ExitGo? || step.WakeGo? || step.ScanGo? || step.SleepGo? {
      OtherGoStart(s, step, p);
    }
  }

  lemma OtherKeepsPlace(s: State, step: Step, p: nat)
    requires Inv(s) && Kids(s) && Enabled(s, step) && step.p != p && p < |s.procs|
    ensures p < |Do(s, step).procs| == |s.procs| && PlaceAt(Do(s, step), p)
  {
    var pc, a := s.procs[p].pc, step.p;
    assert LockAt(s, a) && PlaceAt(s, a) && KinAt(s, a);
    assert KinAt(s, p) && PlaceAt(s, p) && Local(s.procs[p], p, |s.procs|);
    var c := if pc.Fork1? || pc.Fork2? then pc.c else p;
    assert Local(s.procs[c], c, |s.procs|);
    OtherStepParents(s, step, p, c);
    if Own(pc) {
      OtherStepPlace(s, step, p);
    } else {
      OtherStart(s, step, p);
    }
  }

  // ---------- A process's own steps ----------

  /** Where a step that changes a parent takes its process. */
  lemma RewiresTo(s: State, step: Step)
    requires Inv(s) && Enabled(s, step) && Rewires(s, step)
    ensures step.p < |s.procs| == |Do(s, step).procs|
    ensures var pc := Do(s, step).procs[step.p].pc;
      || (pc.Fork1? && pc.c < |s.procs| && Do(s, step).procs[pc.c].parent.None?)
      || pc.Fork3? || pc.User? || (pc.Exit3? && pc.k < |s.procs|)
  {
    assert KinAt(s, step.p) && Local(s.procs[step.p], step.p, |s.procs|);
  }

  /** Where a step of wait takes its process. */
  predicate WaitMove(f: Pc, g: Pc, n: nat, child: bool, killed: bool) {
    match f
    case Wait1 => g == Wait2(0, false)
    case Again => g == Wait2(0, false)
    case Wait2(k, kids) =>
      if k < n then g == Wait2(k + 1, kids || child) else g == if kids && !killed then Sleep1 else User
    case _ => false
  }

  lemma ScanMoves(s: State, p: nat)
    requires CanScanGo(s, p)
    ensures p < |DoScanGo(s, p).procs|
    ensures var pc := s.procs[p].pc;
      WaitMove(pc, DoScanGo(s, p).procs[p].pc, |s.procs|, pc.Wait2? && KidAt(s, p, pc.k), s.procs[p].killed)
  {
  }

  /** Steps that change no parent and do not scan start no scan, and come to sleep only from sleep. */
  predicate StayMove(f: Pc, g: Pc) {
    && (g.Wait2? ==> g == f) && (Waiting(g) ==> Waiting(f)) && (g.Fork1? ==> g == f)
    && (g.Fork2? ==> f == Fork1(g.c) || g == f) && (g.Exit3? ==> f.Exit3? && f.k == g.k)
  }

  lemma GoMoves(s: State, step: Step)
    requires Enabled(s, step) && !Rewires(s, step) && step.p < |s.procs| && KinAt(s, step.p)
    requires step.ForkGo? || step.ExitGo? || step.WakeGo? || step.SleepGo?
    ensures step.p < |Do(s, step).procs| && StayMove(s.procs[step.p].pc, Do(s, step).procs[step.p].pc)
  {
    match step
    case ForkGo(q) => assert StayMove(s.procs[q].pc, DoForkGo(s, q).procs[q].pc);
    case ExitGo(q) => assert StayMove(s.procs[q].pc, DoExitGo(s, q).procs[q].pc);
    case WakeGo(q) => assert StayMove(s.procs[q].pc, DoWakeGo(s, q).procs[q].pc);
    case SleepGo(q) => assert StayMove(s.procs[q].pc, DoSleepGo(s, q).procs[q].pc);
  }

  lemma OtherMoves(s: State, step: Step)
    requires Enabled(s, step) && !Rewires(s, step) && !step.ScanGo? && step.p < |s.procs| && KinAt(s, step.p)
    ensures step.p < |Do(s, step).procs| && StayMove(s.procs[step.p].pc, Do(s, step).procs[step.p].pc)
  {
    if step.ForkGo? || step.ExitGo? || step.WakeGo? || step.SleepGo? {
      GoMoves(s, step);
    }
  }

  /** One more process looked at. */
  lemma KidBelowNext(s: State, p: nat, k: nat)
    ensures HasKidBelow(s, p, k + 1) <==> HasKidBelow(s, p, k) || KidAt(s, p, k)
  {
  }

  lemma AllKids(s: State, p: nat, k: nat)
    requires |s.procs| <= k
    ensures HasKidBelow(s, p, k) <==> HasKid(s, p)
  {
  }

  lemma QuietStep(s: State, step: Step)
    requires Enabled(s, step) && !Rewires(s, step) && |s.procs| > 0
    ensures SameParents(s, Do(s, step))
  {
    QuietParents(s, step, 0);
    forall z: nat | z < |s.procs| ensures Do(s, step).procs[z].parent == s.procs[z].parent {
      QuietParents(s, step, z);
    }
  }

  lemma ScanKeepsKids(s: State, t: State, p: nat)
    requires p < |s.procs| && SameParents(s, t) && KidsAt(s, p)
    requires var pc := s.procs[p].pc;
      WaitMove(pc, t.procs[p].pc, |s.procs|, pc.Wait2? && KidAt(s, p, pc.k), s.procs[p].killed)
    ensures KidsAt(t, p)
  {
    var pc := s.procs[p].pc;
    if pc.Wait2? {
      KidBelowNext(s, p, pc.k);
      SameKids(s, t, p, pc.k + 1);
      if |s.procs| <= pc.k {
        AllKids(s, p, pc.k);
      }
    }
  }

  lemma StayKeepsKids(s: State, t: State, p: nat)
    requires p < |s.procs| && SameParents(s, t) && KidsAt(s, p) && StayMove(s.procs[p].pc, t.procs[p].pc)
    ensures KidsAt(t, p)
  {
    SameKids(s, t, p, if s.procs[p].pc.Wait2? then s.procs[p].pc.k else 0);
  }

  lemma OwnKeepsKids(s: State, step: Step, p: nat)
    requires Inv(s) && Kids(s) && Enabled(s, step) && p < |s.procs| && step.p == p
    ensures |s.procs| == |Do(s, step).procs| && KidsAt(Do(s, step), p) && PlaceAt(Do(s, step), p)
  {
    if Rewires(s, step) {
      RewiresTo(s, step);
    } else {
      assert KidsAt(s, p) && PlaceAt(s, p) && KinAt(s, p);
      QuietStep(s, step);
      if step.ScanGo? {
        ScanMoves(s, p);
        ScanKeepsKids(s, Do(s, step), p);
      } else {
        OtherMoves(s, step);
        StayKeepsKids(s, Do(s, step), p);
      }
    }
  }

  /** Every step keeps what scans and sleepers know about their children. */
  lemma StepKeepsKids(s: State, step: Step)
    requires Inv(s) && Kids(s) && Enabled(s, step)
    ensures Kids(Do(s, step))
  {
    var t := Do(s, step);
    OwnKeepsKids(s, step, step.p);
    forall p: nat | p < |t.procs| && p != step.p ensures KidsAt(t, p) && PlaceAt(t, p) {
      OtherKeepsKids(s, step, p);
      OtherKeepsPlace(s, step, p);
    }
  }

  lemma {:induction false} RunKeepsKids(s: State, steps: seq<Step>, t: State)
    requires Inv(s) && Kids(s) && Run(s, steps, t)
    ensures Inv(t) && Kids(t)
    decreases |steps|
  {
    if |steps| > 0 {
      StepKeepsInv(s, steps[0]);
      StepKeepsKids(s, steps[0]);
      RunKeepsKids(Do(s, steps[0]), steps[1..], t);
    }
  }

  lemma ReachableKids(s: State)
    requires Reachable(s)
    ensures Inv(s) && Kids(s)
  {
    var s0, steps :| Init(s0) && Run(s0, steps, s);
    InitInv(s0);
    RunKeepsKids(s0, steps, s);
  }

  // ---------- What wait comes to ----------

  /**
   Every step of a scan, in every reachable state: wait returns -1 exactly at the end of the table, when the
   process has no children or was killed, and goes to sleep exactly there, when it has children and was not
   killed; otherwise it looks at the next process.
   */
  lemma ScanOutcome(s: State, p: nat)
    requires Reachable(s) && CanScanGo(s, p) && s.procs[p].pc.Wait2?
    ensures p < |DoScanGo(s, p).procs|
    ensures var end, g := s.procs[p].pc.k >= |s.procs|, DoScanGo(s, p).procs[p].pc;
      && (g.User? <==> end && (!HasKid(s, p) || s.procs[p].killed))
      && (g.Sleep1? <==> end && HasKid(s, p) && !s.procs[p].killed)
      && (!end ==> g.Wait2? && g.k == s.procs[p].pc.k + 1)
    ensures DoScanGo(s, p).waitLock.None? <==> DoScanGo(s, p).procs[p].pc.User?
  {
    ReachableKids(s);
    assert KidsAt(s, p) && LockAt(s, p);
    if s.procs[p].pc.k >= |s.procs| {
      AllKids(s, p, s.procs[p].pc.k);
    }
    ScanMoves(s, p);
  }

  /** Whoever sleeps in wait has a child, so somebody is left to wake them. */
  lemma SleeperHasChild(s: State, p: nat)
    requires Reachable(s) && p < |s.procs| && Waiting(s.procs[p].pc)
    ensures HasKid(s, p)
  {
    ReachableKids(s);
    assert KidsAt(s, p);
  }

  // ---------- Every call comes to an end ----------

  /** How much is left to do before the call returns, the process dies or switches away: a lexicographic pair. */
  function Rank(pc: Pc, n: nat): (nat, nat) {
    match pc
    case Fork1(_) => (0, 4)
    case Fork2(_) => (0, 3)
    case Fork3(_) => (0, 2)
    case Fork4(_) => (0, 1)
    case Exit1 => (n + 4, 0)
    case Exit2(k) => (Left(k, n) + 3, n + 1)
    case Exit3(k, j) => (Left(k, n) + 3, Left(j, n))
    case Exit4(j) => (2, Left(j, n))
    case Exit5 => (1, 0)
    case Exit6 => (0, 2)
    case Exit7 => (0, 1)
    case Back => (2, 1)
    case Again => (2, 0)
    case Wait1 => (2, 0)
    case Wait2(k, _) => (1, Left(k, n))
    case Sleep1 => (0, 4)
    case Sleep2 => (0, 3)
    case Sleep3 => (0, 2)
    case Sleep4 => (0, 1)
    case _ => (0, 0)
  }

  function Left(k: nat, n: nat): nat { if k < n then n - k else 0 }

  predicate Less(a: (nat, nat), b: (nat, nat)) { a.0 < b.0 || (a.0 == b.0 && a.1 < b.1) }

  /** Steps of a process inside fork, exit and wait. */
  predicate Inside(step: Step) {
    || step.ForkGo? || step.ExitGo? || step.WakeGo? || step.ScanGo? || step.SleepGo? || step.Reap? || step.CopyoutFails?
  }

  predicate Descends(s: State, t: State, p: nat)
    requires p < |s.procs| == |t.procs|
  {
    Less(Rank(t.procs[p].pc, |s.procs|), Rank(s.procs[p].pc, |s.procs|))
  }

  lemma ExitDescends(s: State, p: nat)
    requires CanExitGo(s, p)
    ensures |DoExitGo(s, p).procs| == |s.procs| && Descends(s, DoExitGo(s, p), p)
  {
  }

  lemma WakeDescends(s: State, p: nat)
    requires CanWakeGo(s, p) && PlaceAt(s, p)
    ensures |DoWakeGo(s, p).procs| == |s.procs| && Descends(s, DoWakeGo(s, p), p)
  {
  }

  lemma ForkDescends(s: State, p: nat)
    requires CanForkGo(s, p)
    ensures |DoForkGo(s, p).procs| == |s.procs| && Descends(s, DoForkGo(s, p), p)
  {
  }

  lemma ScanDescends(s: State, p: nat)
    requires CanScanGo(s, p)
    ensures |DoScanGo(s, p).procs| == |s.procs| && Descends(s, DoScanGo(s, p), p)
  {
  }

  lemma SleepDescends(s: State, p: nat)
    requires CanSleepGo(s, p)
    ensures |DoSleepGo(s, p).procs| == |s.procs| && Descends(s, DoSleepGo(s, p), p)
  {
  }

  /** Every step inside a call brings its end nearer. */
  lemma StepDescends(s: State, step: Step)
    requires Enabled(s, step) && Inside(step) && step.p < |s.procs| && PlaceAt(s, step.p)
    ensures |Do(s, step).procs| == |s.procs| && Descends(s, Do(s, step), step.p)
  {
    match step
    case ForkGo(q) => ForkDescends(s, q);
    case ExitGo(q) => ExitDescends(s, q);
    case WakeGo(q) => WakeDescends(s, q);
    case ScanGo(q) => ScanDescends(s, q);
    case SleepGo(q) => SleepDescends(s, q);
    case Reap(q) => assert Descends(s, DoReap(s, q), q);
    case CopyoutFails(q) =>
  }

  // ---------- No deadlock ----------

  /** Back from sleep a process runs, and chan is set only around sleep. */
  predicate BackRuns(f: Proc) {
    (f.pc.Back? ==> f.state.Running?) && (f.chan.Some? ==> f.pc.Sleep4? || f.pc.Away? || f.pc.Back?)
  }

  lemma ForkKeepsBack(s: State, q: nat, p: nat)
    requires CanForkGo(s, q) && p < |s.procs| && BackRuns(s.procs[p]) && KinAt(s, q)
    ensures p < |DoForkGo(s, q).procs| == |s.procs| && BackRuns(DoForkGo(s, q).procs[p])
  {
  }

  lemma WakeKeepsBack(s: State, q: nat, p: nat)
    requires CanWakeGo(s, q) && p < |s.procs| && BackRuns(s.procs[p])
    ensures p < |DoWakeGo(s, q).procs| == |s.procs| && BackRuns(DoWakeGo(s, q).procs[p])
  {
  }

  lemma GoKeepsBack(s: State, step: Step, p: nat)
    requires Enabled(s, step) && p < |s.procs| && BackRuns(s.procs[p])
    requires step.ExitGo? || step.WakeGo? || step.ScanGo? || step.SleepGo?
    ensures p < |Do(s, step).procs| == |s.procs| && BackRuns(Do(s, step).procs[p])
  {
    match step
    case ExitGo(q) => assert BackRuns(DoExitGo(s, q).procs[p]);
    case WakeGo(q) => WakeKeepsBack(s, q, p);
    case ScanGo(q) => assert BackRuns(DoScanGo(s, q).procs[p]);
    case SleepGo(q) => assert BackRuns(DoSleepGo(s, q).procs[p]);
  }

  lemma StepKeepsBack(s: State, step: Step, p: nat)
    requires Enabled(s, step) && p < |s.procs| && BackRuns(s.procs[p]) && step.p < |s.procs| && KinAt(s, step.p)
    ensures p < |Do(s, step).procs| == |s.procs| && BackRuns(Do(s, step).procs[p])
  {
    if step.ForkGo? {
      ForkKeepsBack(s, step.p, p);
    } else if step.ExitGo? || step.WakeGo? || step.ScanGo? || step.SleepGo? {
      GoKeepsBack(s, step, p);
    }
  }

  lemma {:induction false} RunKeepsBack(s: State, steps: seq<Step>, t: State, p: nat)
    requires Inv(s) && Run(s, steps, t) && p < |s.procs| && BackRuns(s.procs[p])
    ensures p < |t.procs| == |s.procs| && BackRuns(t.procs[p])
    decreases |steps|
  {
    if |steps| > 0 {
      assert KinAt(s, steps[0].p);
      StepKeepsBack(s, steps[0], p);
      StepKeepsInv(s, steps[0]);
      RunKeepsBack(Do(s, steps[0]), steps[1..], t, p);
    }
  }

  /** In every reachable state a process that is not in sleep has no chan, so no wakeup can be meant for it. */
  lemma ReachableBack(s: State, p: nat)
    requires Reachable(s) && p < |s.procs|
    ensures BackRuns(s.procs[p])
  {
    var s0, steps :| Init(s0) && Run(s0, steps, s);
    InitInv(s0);
    RunLength(s0, steps, s);
    RunKeepsBack(s0, steps, s, p);
  }

  /** A step of process p inside a call is possible. */
  predicate CanGo(s: State, p: nat) {
    CanForkGo(s, p) || CanExitGo(s, p) || CanWakeGo(s, p) || CanScanGo(s, p) || CanSleepGo(s, p) || CanReap(s, p)
  }

  /** On a CPU and inside fork, exit or wait. */
  predicate Busy(f: Proc) {
    && !f.pc.User? && !f.pc.Away?
    && (f.state.Running? || f.pc.Sleep4? || f.pc.Exit6? || f.pc.Exit7?)
  }

  predicate WantsLock(pc: Pc) { pc.Fork1? || pc.Exit1? || pc.Wait1? || pc.Again? }

  /** The process whose p->lock process p needs next. */
  function LooksAt(pc: Pc): Option<nat> {
    match pc
    case Exit3(_, j) => Some(j)
    case Exit4(j) => Some(j)
    case Wait2(k, _) => Some(k)
    case _ => None
  }

  /** Busy, and about to take wait_lock or the lock of a process when somebody has it. */
  predicate Blocked(s: State, p: nat)
    requires p < |s.procs|
  {
    var pc := s.procs[p].pc;
    || (WantsLock(pc) && s.waitLock.Some?)
    || (LooksAt(pc).Some? && LooksAt(pc).value < |s.procs| && HoldsOwn(s.procs[LooksAt(pc).value].pc))
  }

  /** A busy process can take a step unless a lock it needs is held. */
  lemma GoesOrBlocked(s: State, p: nat)
    requires p < |s.procs| && Local(s.procs[p], p, |s.procs|) && KinAt(s, p)
    requires Busy(s.procs[p])
    ensures CanGo(s, p) || Blocked(s, p)
  {
    var pc := s.procs[p].pc;
    if pc.Wait2? {
      assert CanScanGo(s, p) || CanReap(s, p) || Blocked(s, p);
    }
  }

  /** The holder of a p->lock at a switch always goes on. */
  lemma OwnerGoes(s: State, p: nat)
    requires p < |s.procs| && Local(s.procs[p], p, |s.procs|) && HoldsOwn(s.procs[p].pc) && BackRuns(s.procs[p])
    ensures CanGo(s, p)
  {
    var pc := s.procs[p].pc;
    assert pc.Exit6? || pc.Exit7? ==> CanExitGo(s, p);
  }

  /** fork, exit and wait do not deadlock: while a process is busy in one of them, some process can go on. */
  lemma NoDeadlock(s: State, p: nat)
    requires Reachable(s) && p < |s.procs| && Busy(s.procs[p])
    ensures exists q: nat :: q < |s.procs| && CanGo(s, q)
  {
    ReachableKids(s);
    forall q: nat | q < |s.procs| ensures BackRuns(s.procs[q]) {
      ReachableBack(s, q);
    }
    LockOwnerGoes(s, p);
  }

  lemma LockOwnerGoes(s: State, p: nat)
    requires Inv(s) && p < |s.procs| && Busy(s.procs[p])
    requires forall q: nat :: q < |s.procs| ==> BackRuns(s.procs[q])
    ensures exists q: nat :: q < |s.procs| && CanGo(s, q)
  {
    assert Local(s.procs[p], p, |s.procs|) && KinAt(s, p);
    GoesOrBlocked(s, p);
    if !CanGo(s, p) {
      var h := if WantsLock(s.procs[p].pc) then s.waitLock.value else p;
      assert Local(s.procs[h], h, |s.procs|) && KinAt(s, h) && LockAt(s, h);
      GoesOrBlocked(s, h);
      if !CanGo(s, h) {
        var j := LooksAt(s.procs[h].pc).value;
        assert Local(s.procs[j], j, |s.procs|);
        OwnerGoes(s, j);
      }
    }
  }

  lemma {:induction false} RunLength(s: State, steps: seq<Step>, t: State)
    requires Run(s, steps, t)
    ensures |t.procs| == |s.procs|
    decreases |steps|
  {
    if |steps| > 0 {
      RunLength(Do(s, steps[0]), steps[1..], t);
    }
  }

  // ---------- exit, yield and fork ----------

  lemma GoStaysExiting(s: State, step: Step, p: nat)
    requires Enabled(s, step) && p < |s.procs| && Exiting(s.procs[p].pc) && step.p < |s.procs| && KinAt(s, step.p)
    requires step.ForkGo? || step.ExitGo? || step.WakeGo? || step.ScanGo? || step.SleepGo?
    ensures p < |Do(s, step).procs| && Exiting(Do(s, step).procs[p].pc)
  {
    match step
    case ForkGo(q) => assert Exiting(DoForkGo(s, q).procs[p].pc);
    case ExitGo(q) => assert Exiting(DoExitGo(s, q).procs[p].pc);
    case WakeGo(q) => assert Exiting(DoWakeGo(s, q).procs[p].pc);
    case ScanGo(q) => assert Exiting(DoScanGo(s, q).procs[p].pc);
    case SleepGo(q) => assert Exiting(DoSleepGo(s, q).procs[p].pc);
  }

  /** exit does not return: whoever calls it is exiting until a parent frees its slot. */
  lemma ExitNeverReturns(s: State, step: Step, p: nat)
    requires Inv(s) && Enabled(s, step) && p < |s.procs| && (Exiting(s.procs[p].pc) || step == Exit(p))
    ensures p < |Do(s, step).procs|
    ensures Exiting(Do(s, step).procs[p].pc) || (step.Reap? && Do(s, step).procs[p] == EMPTY)
  {
    assert KinAt(s, step.p) && Local(s.procs[p], p, |s.procs|);
    if step.ForkGo? || step.ExitGo? || step.WakeGo? || step.ScanGo? || step.SleepGo? {
      GoStaysExiting(s, step, p);
    }
  }

  /** Being preempted and scheduled again changes nothing. */
  lemma YieldUndone(s: State, p: nat)
    requires Enabled(s, Yield(p))
    ensures Enabled(Do(s, Yield(p)), Schedule(p)) && Do(Do(s, Yield(p)), Schedule(p)) == s
  {
    var t := Do(Do(s, Yield(p)), Schedule(p));
    assert t.procs == s.procs;
  }

  /** Every attempt to fork, successful or not, uses up one pid, and nothing else does. */
  lemma PidsUsedUp(s: State, step: Step)
    requires Enabled(s, step)
    ensures Do(s, step).nextPid == s.nextPid + if step.Fork? || step.ForkFails? then 1 else 0
    ensures step.Fork? ==> step.c < |Do(s, step).procs| && Do(s, step).procs[step.c].pid == s.nextPid
  {
    match step
    case ForkGo(q) => assert DoForkGo(s, q).nextPid == s.nextPid;
    case ExitGo(q) => assert DoExitGo(s, q).nextPid == s.nextPid;
    case WakeGo(q) => assert DoWakeGo(s, q).nextPid == s.nextPid;
    case ScanGo(q) => assert DoScanGo(s, q).nextPid == s.nextPid;
    case SleepGo(q) => assert DoSleepGo(s, q).nextPid == s.nextPid;
    case _ =>
  }

  // ---------- kill ----------

  /** kill marks its victim, takes it out of sleep, and changes nothing else. */
  lemma KillWakes(s: State, p: nat)
    requires Enabled(s, Kill(p))
    ensures var t := Do(s, Kill(p));
      && |t.procs| == |s.procs| && t.procs[p].killed && !t.procs[p].state.Sleeping?
      && t.(procs := s.procs) == s && (forall q: nat :: q < |s.procs| && q != p ==> t.procs[q] == s.procs[q])
      && (!s.procs[p].state.Sleeping? ==> t.procs[p] == s.procs[p].(killed := true))
  {
  }

  /** Past wait's test of killed, and on the way to sleep or asleep. */
  predicate Dozing(f: Proc) {
    f.pc.Sleep1? || f.pc.Sleep2? || f.pc.Sleep3? || f.pc.Sleep4? || (f.pc.Away? && f.state.Sleeping?)
  }

  predicate MissedKill(s: State, p: nat) { p < |s.procs| && s.procs[p].killed && Dozing(s.procs[p]) }

  lemma GoMissesNone(s: State, step: Step, p: nat)
    requires Enabled(s, step) && p < |s.procs|
    requires step.ForkGo? || step.ExitGo? || step.WakeGo? || step.ScanGo? || step.SleepGo?
    ensures MissedKill(Do(s, step), p) ==> MissedKill(s, p)
  {
    match step
    case ForkGo(q) => assert MissedKill(DoForkGo(s, q), p) ==> MissedKill(s, p);
    case ExitGo(q) => assert MissedKill(DoExitGo(s, q), p) ==> MissedKill(s, p);
    case WakeGo(q) => assert MissedKill(DoWakeGo(s, q), p) ==> MissedKill(s, p);
    case ScanGo(q) => assert MissedKill(DoScanGo(s, q), p) ==> MissedKill(s, p);
    case SleepGo(q) => assert MissedKill(DoSleepGo(s, q), p) ==> MissedKill(s, p);
  }

  /**
   wait can miss a kill, in one way only: the kill comes after wait has tested killed and before sleep has
   taken p->lock. The victim then goes to sleep and stays asleep until a child exits.
   */
  lemma KillMissed(s: State, step: Step, p: nat)
    requires Enabled(s, step) && p < |s.procs| && !MissedKill(s, p)
    ensures MissedKill(Do(s, step), p) <==> step == Kill(p) && s.procs[p].pc.Sleep1?
  {
    if step.ForkGo? || step.ExitGo? || step.WakeGo? || step.ScanGo? || step.SleepGo? {
      GoMissesNone(s, step, p);
    }
  }

  lemma {:induction false} RunThen(s: State, steps: seq<Step>, t: State, step: Step)
    requires Run(s, steps, t) && Enabled(t, step)
    ensures Run(s, steps + [step], Do(t, step))
    decreases |steps|
  {
    if |steps| > 0 {
      RunThen(Do(s, steps[0]), steps[1..], t, step);
      assert (steps + [step])[1..] == steps[1..] + [step];
    }
  }

  lemma Reach(s: State, step: Step, t: State)
    requires Reachable(s) && Enabled(s, step) && t == Do(s, step)
    ensures Reachable(t)
  {
    var s0, steps :| Init(s0) && Run(s0, steps, s);
    RunThen(s0, steps, s, step);
  }

  /** initproc with this pc and one child, after fork. */
  function Family(pc: Pc, lock: Option<nat>): State {
    var child := Proc(Runnable, 2, Some(0), None, false, User);
    State([Proc(Running, 1, None, None, false, pc), child], lock, 3, {})
  }

  /** initproc forking its first child. */
  function Making(pc: Pc, parent: Option<nat>, lock: Option<nat>): State {
    State([Proc(Running, 1, None, None, false, pc), Proc(Used, 2, parent, None, false, New(0))], lock, 3, {})
  }

  lemma MakingReachable()
    ensures Reachable(Making(Fork1(1), None, None))
  {
    var s := State([Proc(Runnable, 1, None, None, false, User), EMPTY], None, 2, {});
    assert Run(s, [], s);
    var u := State([Proc(Running, 1, None, None, false, User), EMPTY], None, 2, {});
    Reach(s, Schedule(0), u);
    Reach(u, Fork(0, 1), Making(Fork1(1), None, None));
  }

  lemma ParentReachable()
    ensures Reachable(Making(Fork3(1), Some(0), Some(0)))
  {
    MakingReachable();
    Reach(Making(Fork1(1), None, None), ForkGo(0), Making(Fork2(1), None, Some(0)));
    Reach(Making(Fork2(1), None, Some(0)), ForkGo(0), Making(Fork3(1), Some(0), Some(0)));
  }

  lemma FamilyReachable()
    ensures Reachable(Family(User, None))
  {
    ParentReachable();
    Reach(Making(Fork3(1), Some(0), Some(0)), ForkGo(0), Making(Fork4(1), Some(0), None));
    Reach(Making(Fork4(1), Some(0), None), ForkGo(0), Family(User, None));
  }

  lemma ScanReachable()
    ensures Reachable(Family(Wait2(0, false), Some(0)))
  {
    FamilyReachable();
    Reach(Family(User, None), Wait(0), Family(Wait1, None));
    Reach(Family(Wait1, None), ScanGo(0), Family(Wait2(0, false), Some(0)));
  }

  lemma TestReachable()
    ensures Reachable(Family(Wait2(2, true), Some(0)))
  {
    ScanReachable();
    Reach(Family(Wait2(0, false), Some(0)), ScanGo(0), Family(Wait2(1, false), Some(0)));
    Reach(Family(Wait2(1, false), Some(0)), ScanGo(0), Family(Wait2(2, true), Some(0)));
  }

  /** A kill that wait misses does happen. */
  lemma KillMissedReachable()
    ensures exists s: State, p: nat :: Reachable(s) && MissedKill(s, p)
  {
    TestReachable();
    Reach(Family(Wait2(2, true), Some(0)), ScanGo(0), Family(Sleep1, Some(0)));
    var t := Do(Family(Sleep1, Some(0)), Kill(0));
    Reach(Family(Sleep1, Some(0)), Kill(0), t);
    KillMissed(Family(Sleep1, Some(0)), Kill(0), 0);
    assert Reachable(t) && MissedKill(t, 0);
  }
}
