/** What every step of fork, exit and wait keeps, and what follows for every run. */
module ExitWaitTheorems {
  import opened Common
  import opened ExitWait

  // ---------- The invariant ----------

  predicate Exiting(pc: Pc) {
    pc.Exit1? || pc.Exit2? || pc.Exit3? || pc.Exit4? || pc.Exit5? || pc.Exit6? || pc.Exit7? || pc.Dead?
  }

  /** State, chan and parent fit where the process stands. */
  predicate Local(f: Proc, p: nat, n: nat) {
    && (f.pc.Free? <==> f.state.Unused?) && (f.pc.Free? ==> f == EMPTY.(killed := f.killed))
    && (f.state.Zombie? <==> f.pc.Exit6? || f.pc.Exit7? || f.pc.Dead?)
    && (f.state.Used? <==> f.pc.New?)
    && (f.pc.Sleep4? ==> f.state.Sleeping?) && (f.pc.Away? ==> f.state.Sleeping? || f.state.Runnable?)
    && (f.pc.Sleep4? || f.pc.Away? ==> f.chan == Some(p))
    && (f.state.Sleeping? ==> f.pc.Sleep4? || f.pc.Away?)
    && (HoldsWait(f.pc) && !f.pc.Exit6? ==> f.state.Running?) && (f.pc.Sleep3? ==> f.state.Running?)
    && (p == INIT ==> !Exiting(f.pc) && !f.state.Used? && !f.state.Unused? && f.parent.None?)
    && (p != INIT && !f.state.Used? && !f.state.Unused? ==> f.parent.Some?)
    && (f.parent.Some? ==> f.parent.value < n)
  }

  predicate LockAt(s: State, p: nat)
    requires p < |s.procs|
  {
    HoldsWait(s.procs[p].pc) <==> s.waitLock == Some(p)
  }

  predicate Forking(pc: Pc, c: nat) { pc == Fork1(c) || pc == Fork2(c) || pc == Fork3(c) || pc == Fork4(c) }

  /** A process being set up and the process forking it know each other. */
  predicate KinAt(s: State, p: nat)
    requires p < |s.procs|
  {
    match s.procs[p].pc
    case Fork1(c) => c < |s.procs| && c != p && s.procs[c].pc == New(p)
    case Fork2(c) => c < |s.procs| && c != p && s.procs[c].pc == New(p)
    case Fork3(c) => c < |s.procs| && c != p && s.procs[c].pc == New(p) && s.procs[c].parent == Some(p)
    case Fork4(c) => c < |s.procs| && c != p && s.procs[c].pc == New(p) && s.procs[c].parent == Some(p)
    case New(maker) => maker < |s.procs| && Forking(s.procs[maker].pc, p)
    case _ => true
  }

  /** A process with this pc may still have process c for a child. */
  predicate MayHave(pc: Pc, c: nat) {
    match pc
    case Exit2(k) => c >= k
    case Exit3(k, _) => c > k
    case Free => false
    case New(_) => false
    case Exit4(_) => false
    case Exit5 => false
    case Exit6 => false
    case Exit7 => false
    case Dead => false
    case _ => true
  }

  /** The parent of c has not given its children away. */
  predicate ParentAt(s: State, c: nat)
    requires c < |s.procs|
  {
    s.procs[c].parent.Some? ==>
      s.procs[c].parent.value < |s.procs| && MayHave(s.procs[s.procs[c].parent.value].pc,
        c) && s.procs[c].parent.value != c
  }

  /** initproc is about to be woken by the process that holds wait_lock. */
  predicate InitToWake(s: State) {
    && s.waitLock.Some? && s.waitLock.value < |s.procs| && s.procs[s.waitLock.value].pc.Exit3?
    && s.procs[s.waitLock.value].pc.j <= INIT
  }

  /** A zombie's parent is not asleep in wait nor bound to, unless it is initproc about to be woken. */
  predicate HeardAt(s: State, z: nat)
    requires z < |s.procs|
  {
    var f := s.procs[z];
    f.state.Zombie? && f.parent.Some? && f.parent.value < |s.procs| && Committed(s.procs[f.parent.value]) ==>
      f.parent.value == INIT && InitToWake(s)
  }

  /** An exiting process has woken its parent by the time it becomes a zombie. */
  predicate WokenAt(s: State, h: nat)
    requires h < |s.procs|
  {
    var f := s.procs[h];
    f.parent.Some? && f.parent.value < |s.procs| && ((f.pc.Exit4? && f.parent.value < f.pc.j) || f.pc.Exit5?) ==>
      !Committed(s.procs[f.parent.value])
  }

  /** A scan has passed slot z. */
  predicate Passed(pc: Pc, z: nat) { (pc.Wait2? && z < pc.k) || pc.Sleep1? || pc.Sleep2? }

  /** A scan has passed no zombie child, and a process goes to sleep only with none at all. */
  predicate ScanAt(s: State, p: nat, z: nat)
    requires p < |s.procs| && z < |s.procs|
  {
    ChildOf(s.procs[z], p) && Passed(s.procs[p].pc, z) ==> !s.procs[z].state.Zombie?
  }

  ghost predicate PidsOk(s: State) {
    && (forall p :: 0 <= p < |s.procs| && !s.procs[p].state.Unused? ==>
      s.procs[p].pid < s.nextPid && s.procs[p].pid !in s.reaped)
    && (forall p, q :: 0 <= p < q < |s.procs| && !s.procs[p].state.Unused? && !s.procs[q].state.Unused? ==>
          s.procs[p].pid != s.procs[q].pid)
    && (forall i :: i in s.reaped ==> i < s.nextPid)
  }

  ghost predicate Inv(s: State) {
    && |s.procs| > INIT && PidsOk(s)
    && (forall p: nat :: p < |s.procs| ==> Local(s.procs[p], p, |s.procs|))
    && (forall p: nat :: p < |s.procs| ==> LockAt(s, p))
    && (forall p: nat :: p < |s.procs| ==> KinAt(s, p))
    && (forall c: nat :: c < |s.procs| ==> ParentAt(s, c))
    && (forall z: nat :: z < |s.procs| ==> HeardAt(s, z))
    && (forall h: nat :: h < |s.procs| ==> WokenAt(s, h))
    && (forall p: nat, z: nat :: p < |s.procs| && z < |s.procs| ==> ScanAt(s, p, z))
    && (s.waitLock.Some? ==> s.waitLock.value < |s.procs|)
  }

  // ---------- Moves: steps that change one process and wait_lock ----------

  function Moved(s: State, p: nat, f: Proc, lock: Option<nat>): State
    requires p < |s.procs|
  {
    s.(procs := s.procs[p := f], waitLock := lock)
  }

  /** wait_lock is kept, taken when free, or given up. */
  predicate LockMove(s: State, p: nat, pc: Pc, lock: Option<nat>)
    requires p < |s.procs|
  {
    if HoldsWait(pc)
    then (if HoldsWait(s.procs[p].pc) then lock == s.waitLock else s.waitLock.None? && lock == Some(p))
    else lock == if HoldsWait(s.procs[p].pc) then None else s.waitLock
  }

  predicate KinMove(f: Pc, g: Pc) {
    match g
    case Fork1(c) => f == g
    case Fork2(c) => f == g || f == Fork1(c)
    case Fork3(c) => f == g
    case Fork4(c) => f == g || f == Fork3(c)
    case New(_) => f == g
    case _ => !f.Fork1? && !f.Fork2? && !f.Fork3? && !f.Fork4? && !f.New?
  }

  /** Only a process that holds wait_lock and has no zombie child starts to fall asleep. */
  ghost predicate SleepMove(s: State, p: nat, g: Proc)
    requires p < |s.procs|
  {
    Committed(g) && !Committed(s.procs[p]) ==>
      HoldsWait(s.procs[p].pc) && forall z: nat :: z < |s.procs| ==> NoZombieChild(s, p, z)
  }

  predicate NoZombieChild(s: State, p: nat, z: nat)
    requires z < |s.procs|
  {
    ChildOf(s.procs[z], p) ==> !s.procs[z].state.Zombie?
  }

  /** Only a process that holds wait_lock and whose parent does not sleep in wait becomes a zombie. */
  predicate ZombieMove(s: State, p: nat, g: Proc)
    requires p < |s.procs|
  {
    g.state.Zombie? && !s.procs[p].state.Zombie? ==>
      HoldsWait(s.procs[p].pc) &&
      (g.parent.Some? && g.parent.value < |s.procs| ==> g.parent.value != p && !Committed(s.procs[g.parent.value]))
  }

  predicate ToWake(pc: Pc) { pc.Exit3? && pc.j <= INIT }

  /** initproc stays to be woken, or has been. */
  predicate WakeMove(s: State, p: nat, g: Proc)
    requires p < |s.procs| && INIT < |s.procs|
  {
    ToWake(s.procs[p].pc) ==> ToWake(g.pc) || (p != INIT && !Committed(s.procs[INIT]))
  }

  lemma MoveLock(s: State, p: nat, g: Proc, lock: Option<nat>, q: nat)
    requires p < |s.procs| && q < |s.procs| && LockAt(s, p) && LockAt(s, q) && LockMove(s, p, g.pc, lock)
    ensures LockAt(Moved(s, p, g, lock), q)
  {
  }

  lemma MoveKin(s: State, p: nat, g: Proc, lock: Option<nat>, q: nat)
    requires p < |s.procs| && q < |s.procs| && KinAt(s, p) && KinAt(s, q) && KinMove(s.procs[p].pc, g.pc)
    requires g.parent == s.procs[p].parent
    ensures KinAt(Moved(s, p, g, lock), q)
  {
  }

  lemma MoveParent(s: State, p: nat, g: Proc, lock: Option<nat>, c: nat)
    requires p < |s.procs| && c < |s.procs| && ParentAt(s, c) && (ChildOf(s.procs[c], p) ==> MayHave(g.pc, c))
    requires g.parent == s.procs[p].parent
    ensures ParentAt(Moved(s, p, g, lock), c)
  {
  }

  lemma MoveHeard(s: State, p: nat, g: Proc, lock: Option<nat>, z: nat)
    requires p < |s.procs| && z < |s.procs| && INIT < |s.procs|
    requires HeardAt(s, z) && ParentAt(s, z) && g.parent == s.procs[p].parent
    requires LockAt(s, p) && LockMove(s, p, g.pc, lock)
    requires SleepMove(s, p, g) && ZombieMove(s, p, g) && WakeMove(s, p, g)
    ensures HeardAt(Moved(s, p, g, lock), z)
  {
    assert Committed(g) && !Committed(s.procs[p]) ==> NoZombieChild(s, p, z);
  }

  lemma MoveWoken(s: State, p: nat, g: Proc, lock: Option<nat>, h: nat)
    requires p < |s.procs| && h < |s.procs| && WokenAt(s, h) && LockAt(s, p) && LockAt(s, h) && SleepMove(s, p, g)
    requires g.parent == s.procs[p].parent && ParentAt(s, h) && (h == p ==> WokenAt(Moved(s, p, g, lock), p))
    ensures WokenAt(Moved(s, p, g, lock), h)
  {
  }

  lemma MoveScan(s: State, p: nat, g: Proc, lock: Option<nat>, q: nat, z: nat)
    requires p < |s.procs| && q < |s.procs| && z < |s.procs| && ScanAt(s, q, z) && LockAt(s, p) && LockAt(s, q)
    requires g.parent == s.procs[p].parent && ZombieMove(s, p, g) && (q == p ==> ScanAt(Moved(s, p, g, lock), p, z))
    ensures ScanAt(Moved(s, p, g, lock), q, z)
  {
  }

  ghost predicate MoveOk(s: State, p: nat, g: Proc, lock: Option<nat>) {
    && p < |s.procs| && INIT < |s.procs| && Local(g, p, |s.procs|)
    && g.parent == s.procs[p].parent && g.pid == s.procs[p].pid && g.state.Unused? == s.procs[p].state.Unused?
    && LockMove(s, p, g.pc, lock) && KinMove(s.procs[p].pc, g.pc)
    && SleepMove(s, p, g) && ZombieMove(s, p, g) && WakeMove(s, p, g) && WokenAt(Moved(s, p, g, lock), p)
    && (forall c: nat :: c < |s.procs| && ChildOf(s.procs[c], p) ==> MayHave(g.pc, c))
    && (forall z: nat :: z < |s.procs| ==> ScanAt(Moved(s, p, g, lock), p, z))
  }

  lemma MoveKeepsInv(s: State, p: nat, g: Proc, lock: Option<nat>)
    requires Inv(s) && MoveOk(s, p, g, lock)
    ensures Inv(Moved(s, p, g, lock))
  {
    var t := Moved(s, p, g, lock);
    assert LockAt(s, p) && KinAt(s, p);
    forall q: nat | q < |t.procs|
      ensures Local(t.procs[q], q, |t.procs|) && LockAt(t, q) && KinAt(t, q)
      ensures ParentAt(t, q) && HeardAt(t, q) && WokenAt(t, q)
    {
      assert LockAt(s, q) && KinAt(s, q) && ParentAt(s, q) && HeardAt(s, q) && WokenAt(s, q);
      MoveLock(s, p, g, lock, q);
      MoveKin(s, p, g, lock, q);
      MoveParent(s, p, g, lock, q);
      MoveHeard(s, p, g, lock, q);
      MoveWoken(s, p, g, lock, q);
    }
    forall q: nat, z: nat | q < |t.procs| && z < |t.procs| ensures ScanAt(t, q, z) {
      assert LockAt(s, q) && ScanAt(s, q, z);
      MoveScan(s, p, g, lock, q, z);
    }
  }

  /** What a step of process p needs to know: the invariant at p, its children, and the zombies among them. */
  ghost predicate Around(s: State, p: nat) {
    && p < |s.procs| && INIT < |s.procs|
    && Local(s.procs[p], p, |s.procs|) && LockAt(s, p) && WokenAt(s, p) && ParentAt(s, p)
    && (forall c: nat :: c < |s.procs| && ChildOf(s.procs[c], p) ==> MayHave(s.procs[p].pc, c))
    && (forall z: nat :: z < |s.procs| ==> ScanAt(s, p, z))
  }

  lemma InvAround(s: State, p: nat)
    requires Inv(s) && p < |s.procs|
    ensures Around(s, p)
  {
    forall c: nat | c < |s.procs| && ChildOf(s.procs[c], p) ensures MayHave(s.procs[p].pc, c) { assert ParentAt(s, c); }
  }

  lemma ScanGoOk(s: State, p: nat)
    requires Around(s, p) && CanScanGo(s, p)
    ensures var t := DoScanGo(s, p); t == Moved(s, p, t.procs[p], t.waitLock) && MoveOk(s, p, t.procs[p], t.waitLock)
  {
    var t := DoScanGo(s, p);
    forall z: nat | z < |s.procs| ensures ScanAt(t, p, z) { assert ScanAt(s, p, z); }
  }

  lemma SleepGoOk(s: State, p: nat)
    requires Around(s, p) && CanSleepGo(s, p)
    ensures var t := DoSleepGo(s, p); t == Moved(s, p, t.procs[p], t.waitLock) && MoveOk(s, p, t.procs[p], t.waitLock)
  {
    var t := DoSleepGo(s, p);
    forall z: nat | z < |s.procs| ensures ScanAt(t, p, z) && (s.procs[p].pc.Sleep2? ==> NoZombieChild(s, p, z)) {
      assert ScanAt(s, p, z);
    }
  }

  /** reparent has come to a child. */
  predicate Adopts(s: State, p: nat) {
    p < |s.procs| && s.procs[p].pc.Exit2? && s.procs[p].pc.k < |s.procs| && ChildOf(s.procs[s.procs[p].pc.k], p)
  }

  /** The steps of exit other than handing over a child and waking somebody. */
  lemma ExitGoOk(s: State, p: nat)
    requires Around(s, p) && CanExitGo(s, p) && !Adopts(s, p)
    ensures var t := DoExitGo(s, p); t == Moved(s, p, t.procs[p], t.waitLock) && MoveOk(s, p, t.procs[p], t.waitLock)
  {
  }

  /** wakeup of one process. */
  lemma WakeOk(s: State, j: nat, w: nat)
    requires Around(s, j) && !HoldsOwn(s.procs[j].pc)
    ensures MoveOk(s, j, Woken(s.procs[j], w), s.waitLock) && (j == w ==> !Committed(Woken(s.procs[j], w)))
  {
    forall z: nat | z < |s.procs| ensures ScanAt(Moved(s, j, Woken(s.procs[j], w), s.waitLock), j, z) {
      assert ScanAt(s, j, z);
    }
  }

  /** The loop of wakeup in reparent moves on. */
  lemma Next3Ok(s: State, p: nat, pc: Pc)
    requires Around(s, p) && s.procs[p].pc.Exit3? && s.procs[p].state.Running?
    requires var j := s.procs[p].pc.j;
      || (j < |s.procs| && pc == Exit3(s.procs[p].pc.k, j + 1) && (j == INIT ==> !Committed(s.procs[INIT])))
      || (j >= |s.procs| && pc == Exit2(s.procs[p].pc.k + 1))
    ensures MoveOk(s, p, s.procs[p].(pc := pc), s.waitLock)
  {
  }

  /** The loop that wakes the parent moves on. */
  lemma Next4Ok(s: State, p: nat, pc: Pc)
    requires Around(s, p) && s.procs[p].pc.Exit4? && s.procs[p].state.Running? && s.procs[p].parent.Some?
    requires var j := s.procs[p].pc.j;
      || (j < |s.procs| && pc == Exit4(j + 1) && (j == s.procs[p].parent.value ==> !Committed(s.procs[j])))
      || (j >= |s.procs| && pc == Exit5)
    ensures MoveOk(s, p, s.procs[p].(pc := pc), s.waitLock)
  {
  }

  lemma WakeKeeps(s: State, p: nat, j: nat, w: nat)
    requires Inv(s) && j < |s.procs| && p < |s.procs| && LockFree(s, p, j)
    ensures Inv(WakeOne(s, p, j, w)) && (j == w && j != p ==> !Committed(WakeOne(s, p, j, w).procs[j]))
  {
    InvAround(s, j);
    if j != p {
      WakeOk(s, j, w);
      MoveKeepsInv(s, j, Woken(s.procs[j], w), s.waitLock);
    }
  }

  lemma Next3Keeps(s: State, p: nat, k: nat, j: nat)
    requires Inv(s) && p < |s.procs| && s.procs[p].pc == Exit3(k, j) && s.procs[p].state.Running?
    requires j == INIT ==> !Committed(s.procs[INIT])
    ensures Inv(Jump(s, p, if j < |s.procs| then Exit3(k, j + 1) else Exit2(k + 1)))
  {
    var pc := if j < |s.procs| then Exit3(k, j + 1) else Exit2(k + 1);
    InvAround(s, p);
    Next3Ok(s, p, pc);
    MoveKeepsInv(s, p, s.procs[p].(pc := pc), s.waitLock);
  }

  lemma Next4Keeps(s: State, p: nat, j: nat, w: nat)
    requires Inv(s) && p < |s.procs| && s.procs[p].pc == Exit4(j)
    requires s.procs[p].state.Running? && s.procs[p].parent == Some(w)
    requires j == w && j < |s.procs| ==> !Committed(s.procs[j])
    ensures Inv(Jump(s, p, if j < |s.procs| then Exit4(j + 1) else Exit5))
  {
    var pc := if j < |s.procs| then Exit4(j + 1) else Exit5;
    InvAround(s, p);
    Next4Ok(s, p, pc);
    MoveKeepsInv(s, p, s.procs[p].(pc := pc), s.waitLock);
  }

  lemma StepWake3(s: State, p: nat, k: nat, j: nat)
    requires Inv(s) && CanWakeGo(s, p) && s.procs[p].pc == Exit3(k, j)
    ensures Inv(DoWakeGo(s, p))
  {
    assert p != INIT by { assert Local(s.procs[p], p, |s.procs|); }
    if j < |s.procs| {
      WakeKeeps(s, p, j, INIT);
      var u := WakeOne(s, p, j, INIT);
      assert u.procs[p] == s.procs[p] && |u.procs| == |s.procs| && DoWakeGo(s, p) == Jump(u, p, Exit3(k, j + 1));
      Next3Keeps(u, p, k, j);
    } else {
      Next3Keeps(s, p, k, j);
    }
  }

  lemma StepWake4(s: State, p: nat, j: nat, w: nat)
    requires Inv(s) && CanWakeGo(s, p) && s.procs[p].pc == Exit4(j) && s.procs[p].parent == Some(w)
    ensures Inv(DoWakeGo(s, p))
  {
    assert p != w by { assert ParentAt(s, p); }
    if j < |s.procs| {
      WakeKeeps(s, p, j, w);
      var u := WakeOne(s, p, j, w);
      assert u.procs[p] == s.procs[p] && |u.procs| == |s.procs| && DoWakeGo(s, p) == Jump(u, p, Exit4(j + 1));
      Next4Keeps(u, p, j, w);
    } else {
      Next4Keeps(s, p, j, w);
    }
  }

  /** Entering exit or wait, and wait's return when copyout fails. */
  lemma EnterOk(s: State, step: Step, p: nat)
    requires Around(s, p) && Enabled(s, step) && (step == Exit(p) || step == Wait(p) || step == CopyoutFails(p))
    ensures var t := Do(s, step); t == Moved(s, p, t.procs[p], t.waitLock) && MoveOk(s, p, t.procs[p], t.waitLock)
  {
  }

  /** The scheduler's two moves, and kill. */
  lemma ScheduleOk(s: State, step: Step, p: nat)
    requires Around(s, p) && Enabled(s, step) && (step == Yield(p) || step == Schedule(p) || step == Kill(p))
    ensures var t := Do(s, step); t == Moved(s, p, t.procs[p], t.waitLock) && MoveOk(s, p, t.procs[p], t.waitLock)
  {
    var t := Do(s, step);
    forall z: nat | z < |s.procs| ensures ScanAt(t, p, z) { assert ScanAt(s, p, z); }
  }

  lemma ForkGoOk(s: State, p: nat)
    requires Around(s, p) && CanForkGo(s, p) && (s.procs[p].pc.Fork1? || s.procs[p].pc.Fork3?)
    ensures var t := DoForkGo(s, p); t == Moved(s, p, t.procs[p], t.waitLock) && MoveOk(s, p, t.procs[p], t.waitLock)
  {
  }

  // ---------- Steps that change two processes ----------

  /** The invariant at the processes q and z, but for zombies and their parents. */
  predicate MostAt(s: State, q: nat, z: nat)
    requires q < |s.procs| && z < |s.procs|
  {
    Local(s.procs[q], q, |s.procs|) && LockAt(s, q) && KinAt(s, q) && ParentAt(s, q) && WokenAt(s, q) && ScanAt(s, q, z)
  }

  lemma InvFrom(s: State, t: State)
    requires |t.procs| == |s.procs| > INIT && PidsOk(t) && (t.waitLock.Some? ==> t.waitLock.value < |t.procs|)
    requires forall q: nat, z: nat :: q < |t.procs| && z < |t.procs| ==> MostAt(t, q, z)
    requires forall z: nat :: z < |t.procs| ==> HeardAt(t, z)
    ensures Inv(t)
  {
    forall q: nat | q < |t.procs|
      ensures Local(t.procs[q], q, |t.procs|) && LockAt(t, q) && KinAt(t, q) && ParentAt(t, q) && WokenAt(t, q)
    {
      assert MostAt(t, q, q);
    }
    forall q: nat, z: nat | q < |t.procs| && z < |t.procs| ensures ScanAt(t, q, z) {
      assert MostAt(t, q, z);
    }
  }

  /** The child k of p becomes a child of initproc, which p goes on to wake. */
  lemma AdoptAt(s: State, t: State, p: nat, k: nat, q: nat, z: nat)
    requires CanExitGo(s, p) && Adopts(s, p) && k == s.procs[p].pc.k
    requires t == Jump(Put(s, k, s.procs[k].(parent := Some(INIT))), p, Exit3(k, 0))
    requires q < |s.procs| && z < |s.procs| && INIT < |s.procs|
    requires MostAt(s, q, z) && MostAt(s, p, z) && MostAt(s, k, z) && Local(s.procs[INIT], INIT, |s.procs|)
    ensures MostAt(t, q, z)
  {
  }

  lemma AdoptHeard(s: State, p: nat, q: nat)
    requires CanExitGo(s, p) && Adopts(s, p) && q < |s.procs| && INIT < |s.procs|
    requires HeardAt(s, q) && LockAt(s, p) && ParentAt(s, q) && Local(s.procs[p], p, |s.procs|)
    ensures HeardAt(DoExitGo(s, p), q)
  {
  }

  lemma StepAdopt(s: State, p: nat)
    requires Inv(s) && CanExitGo(s, p) && Adopts(s, p)
    ensures Inv(DoExitGo(s, p))
  {
    var t, k := DoExitGo(s, p), s.procs[p].pc.k;
    forall q: nat, z: nat | q < |t.procs| && z < |t.procs| ensures MostAt(t, q, z) {
      assert MostAt(s, q, z) && MostAt(s, p, z) && MostAt(s, k, z) && Local(s.procs[INIT], INIT, |s.procs|);
      AdoptAt(s, t, p, k, q, z);
    }
    forall z: nat | z < |t.procs| ensures HeardAt(t, z) {
      assert HeardAt(s, z) && MostAt(s, p, z) && MostAt(s, z, z);
      AdoptHeard(s, p, z);
    }
    InvFrom(s, t);
  }

  lemma ForkAt(s: State, t: State, p: nat, c: nat, q: nat, z: nat)
    requires CanFork(s, p, c) && t == DoFork(s, p, c) && q < |s.procs| && z < |s.procs| && INIT < |s.procs|
    requires MostAt(s, q, z) && MostAt(s, p, z) && MostAt(s, c, z)
    ensures MostAt(t, q, z)
  {
  }

  lemma ForkPids(s: State, p: nat, c: nat)
    requires PidsOk(s) && CanFork(s, p, c)
    ensures PidsOk(DoFork(s, p, c))
  {
  }

  lemma StepFork(s: State, p: nat, c: nat)
    requires Inv(s) && CanFork(s, p, c)
    ensures Inv(DoFork(s, p, c))
  {
    var t := DoFork(s, p, c);
    forall q: nat, z: nat | q < |t.procs| && z < |t.procs| ensures MostAt(t, q, z) {
      assert MostAt(s, q, z) && MostAt(s, p, z) && MostAt(s, c, z);
      ForkAt(s, t, p, c, q, z);
    }
    forall z: nat | z < |t.procs| ensures HeardAt(t, z) {
      assert HeardAt(s, z) && MostAt(s, z, z) && MostAt(s, p, z);
    }
    ForkPids(s, p, c);
    InvFrom(s, t);
  }

  /** fork sets the child's parent. */
  lemma AdoptedAt(s: State, p: nat, c: nat, q: nat, z: nat)
    requires CanForkGo(s, p) && s.procs[p].pc == Fork2(c) && c < |s.procs|
    requires q < |s.procs| && z < |s.procs| && INIT < |s.procs| && MostAt(s, q, z) && MostAt(s, p, z) && MostAt(s, c, z)
    ensures MostAt(DoForkGo(s, p), q, z)
  {
  }

  lemma StepParent(s: State, p: nat, c: nat)
    requires Inv(s) && CanForkGo(s, p) && s.procs[p].pc == Fork2(c)
    ensures Inv(DoForkGo(s, p))
  {
    var t := DoForkGo(s, p);
    assert KinAt(s, p) && Local(s.procs[p], p, |s.procs|) && Local(s.procs[c], c, |s.procs|);
    forall q: nat, z: nat | q < |t.procs| && z < |t.procs| ensures MostAt(t, q, z) {
      assert MostAt(s, q, z) && MostAt(s, p, z) && MostAt(s, c, z);
      AdoptedAt(s, p, c, q, z);
    }
    forall z: nat | z < |t.procs| ensures HeardAt(t, z) {
      assert HeardAt(s, z) && MostAt(s, z, z) && LockAt(s, p);
    }
    InvFrom(s, t);
  }

  /** fork makes the child RUNNABLE. */
  predicate CanStart(s: State, p: nat, c: nat) { CanForkGo(s, p) && s.procs[p].pc == Fork4(c) && c < |s.procs| }

  lemma StartAt(s: State, t: State, p: nat, c: nat, q: nat, z: nat)
    requires CanStart(s, p, c) && t == Started(s, p, c)
    requires q < |s.procs| && z < |s.procs| && INIT < |s.procs| && MostAt(s, q, z) && MostAt(s, p, z) && MostAt(s, c, z)
    ensures MostAt(t, q, z)
  {
  }

  lemma StartHeard(s: State, t: State, p: nat, c: nat, z: nat)
    requires CanStart(s, p, c) && t == Started(s, p, c) && z < |s.procs|
    requires HeardAt(s, z) && MostAt(s, z, z) && LockAt(s, p) && Local(s.procs[c], c, |s.procs|) && KinAt(s, p)
    ensures HeardAt(t, z)
  {
  }

  lemma StepStart(s: State, p: nat, c: nat)
    requires Inv(s) && CanForkGo(s, p) && s.procs[p].pc == Fork4(c)
    ensures Inv(DoForkGo(s, p))
  {
    var t := Started(s, p, c);
    assert KinAt(s, p) && Local(s.procs[p], p, |s.procs|) && Local(s.procs[c], c, |s.procs|);
    forall q: nat, z: nat | q < |t.procs| && z < |t.procs| ensures MostAt(t, q, z) {
      assert MostAt(s, q, z) && MostAt(s, p, z) && MostAt(s, c, z);
      StartAt(s, t, p, c, q, z);
    }
    forall z: nat | z < |t.procs| ensures HeardAt(t, z) {
      assert HeardAt(s, z) && MostAt(s, z, z) && LockAt(s, p);
      StartHeard(s, t, p, c, z);
    }
    InvFrom(s, t);
  }

  /** wait frees the slot of a zombie that has left its CPU. */
  lemma ReapAt(s: State, p: nat, k: nat, q: nat, z: nat)
    requires CanReap(s, p) && k == s.procs[p].pc.k && q < |s.procs| && z < |s.procs| && INIT < |s.procs|
    requires MostAt(s, q, z) && MostAt(s, p, z) && MostAt(s, k, z) && MostAt(s, q, k)
    ensures MostAt(DoReap(s, p), q, z)
  {
  }

  lemma ReapPids(s: State, p: nat)
    requires PidsOk(s) && CanReap(s, p)
    ensures PidsOk(DoReap(s, p)) && s.procs[s.procs[p].pc.k].pid !in s.reaped
  {
  }

  lemma StepReap(s: State, p: nat)
    requires Inv(s) && CanReap(s, p)
    ensures Inv(DoReap(s, p))
  {
    var t, k := DoReap(s, p), s.procs[p].pc.k;
    forall q: nat, z: nat | q < |t.procs| && z < |t.procs| ensures MostAt(t, q, z) {
      assert MostAt(s, q, z) && MostAt(s, p, z) && MostAt(s, k, z) && MostAt(s, q, k);
      ReapAt(s, p, k, q, z);
    }
    forall z: nat | z < |t.procs| ensures HeardAt(t, z) {
      assert HeardAt(s, z) && MostAt(s, z, z) && MostAt(s, p, z) && MostAt(s, k, z);
    }
    ReapPids(s, p);
    InvFrom(s, t);
  }

  // ---------- Runs ----------

  lemma StepKeepsInv(s: State, step: Step)
    requires Inv(s) && Enabled(s, step)
    ensures Inv(Do(s, step))
  {
    match step
    case Fork(p, c) => StepFork(s, p, c);
    case ForkFails(_) => NextPid(s);
    case Reap(p) => StepReap(s, p);
    case WakeGo(p) =>
      if s.procs[p].pc.Exit3? {
        StepWake3(s, p, s.procs[p].pc.k, s.procs[p].pc.j);
      } else {
        StepWake4(s, p, s.procs[p].pc.j, s.procs[p].parent.value);
      }
    case ForkGo(p) => StepForkGo(s, p);
    case ExitGo(p) => StepExitGo(s, p);
    case ScanGo(p) => StepGoes(s, step, p);
    case SleepGo(p) => StepGoes(s, step, p);
    case Exit(p) => StepEnters(s, step, p);
    case Wait(p) => StepEnters(s, step, p);
    case CopyoutFails(p) => StepEnters(s, step, p);
    case _ => StepSchedules(s, step, step.p);
  }

  lemma StepForkGo(s: State, p: nat)
    requires Inv(s) && CanForkGo(s, p)
    ensures Inv(DoForkGo(s, p))
  {
    if s.procs[p].pc.Fork2? {
      StepParent(s, p, s.procs[p].pc.c);
    } else if s.procs[p].pc.Fork4? {
      StepStart(s, p, s.procs[p].pc.c);
    } else {
      StepForkLock(s, p);
    }
  }

  lemma StepForkLock(s: State, p: nat)
    requires Inv(s) && CanForkGo(s, p) && (s.procs[p].pc.Fork1? || s.procs[p].pc.Fork3?)
    ensures Inv(DoForkGo(s, p))
  {
    var t := DoForkGo(s, p);
    InvAround(s, p);
    ForkGoOk(s, p);
    MoveKeepsInv(s, p, t.procs[p], t.waitLock);
  }

  lemma StepExitGo(s: State, p: nat)
    requires Inv(s) && CanExitGo(s, p)
    ensures Inv(DoExitGo(s, p))
  {
    if Adopts(s, p) {
      StepAdopt(s, p);
    } else {
      InvAround(s, p);
      ExitGoOk(s, p);
      MoveKeepsInv(s, p, DoExitGo(s, p).procs[p], DoExitGo(s, p).waitLock);
    }
  }

  lemma NextPid(s: State)
    requires Inv(s)
    ensures Inv(s.(nextPid := s.nextPid + 1))
  {
    var t := s.(nextPid := s.nextPid + 1);
    forall q: nat, z: nat | q < |t.procs| && z < |t.procs| ensures MostAt(t, q, z) {
      assert MostAt(s, q, z);
    }
    forall z: nat | z < |t.procs| ensures HeardAt(t, z) {
      assert HeardAt(s, z);
    }
    InvFrom(s, t);
  }

  lemma StepGoes(s: State, step: Step, p: nat)
    requires Inv(s) && Enabled(s, step) && (step == ScanGo(p) || step == SleepGo(p))
    ensures Inv(Do(s, step))
  {
    InvAround(s, p);
    if step.ScanGo? {
      ScanGoOk(s, p);
    } else {
      SleepGoOk(s, p);
    }
    MoveKeepsInv(s, p, Do(s, step).procs[p], Do(s, step).waitLock);
  }

  lemma StepEnters(s: State, step: Step, p: nat)
    requires Inv(s) && Enabled(s, step) && (step == Exit(p) || step == Wait(p) || step == CopyoutFails(p))
    ensures Inv(Do(s, step))
  {
    InvAround(s, p);
    EnterOk(s, step, p);
    MoveKeepsInv(s, p, Do(s, step).procs[p], Do(s, step).waitLock);
  }

  lemma StepSchedules(s: State, step: Step, p: nat)
    requires Inv(s) && Enabled(s, step) && (step == Yield(p) || step == Schedule(p) || step == Kill(p))
    ensures Inv(Do(s, step))
  {
    InvAround(s, p);
    ScheduleOk(s, step, p);
    MoveKeepsInv(s, p, Do(s, step).procs[p], Do(s, step).waitLock);
  }

  lemma InitInv(s: State)
    requires Init(s)
    ensures Inv(s)
  {
    forall q: nat, z: nat | q < |s.procs| && z < |s.procs| ensures MostAt(s, q, z) && HeardAt(s, q) {
    }
    InvFrom(s, s);
  }

  lemma {:induction false} RunKeepsInv(s: State, steps: seq<Step>, t: State)
    requires Inv(s) && Run(s, steps, t)
    ensures Inv(t)
    decreases |steps|
  {
    if |steps| > 0 {
      StepKeepsInv(s, steps[0]);
      RunKeepsInv(Do(s, steps[0]), steps[1..], t);
    }
  }

  ghost predicate Reachable(s: State) { exists s0, steps :: Init(s0) && Run(s0, steps, s) }

  lemma ReachableInv(s: State)
    requires Reachable(s)
    ensures Inv(s)
  {
    var s0, steps :| Init(s0) && Run(s0, steps, s);
    InitInv(s0);
    RunKeepsInv(s0, steps, s);
  }

  // ---------- Results ----------

  /** While wait_lock is free, nobody sleeps in wait, or is bound to, with a zombie child waiting to be reaped. */
  lemma NoSleepOverZombie(s: State, p: nat, z: nat)
    requires Reachable(s) && s.waitLock.None? && p < |s.procs| && z < |s.procs|
    requires ChildOf(s.procs[z], p) && s.procs[z].state.Zombie?
    ensures !Committed(s.procs[p])
  {
    ReachableInv(s);
    assert HeardAt(s, z);
  }

  /** A zombie always has a parent that has not itself exited, so somebody can reap it. */
  lemma ZombieHasParent(s: State, z: nat)
    requires Reachable(s) && z < |s.procs| && s.procs[z].state.Zombie?
    ensures s.procs[z].parent.Some? && s.procs[z].parent.value < |s.procs|
    ensures var f := s.procs[s.procs[z].parent.value]; !f.state.Zombie? && !f.state.Unused? && !f.state.Used?
  {
    ReachableInv(s);
    assert Local(s.procs[z], z, |s.procs|) && ParentAt(s, z);
    var p := s.procs[z].parent.value;
    assert Local(s.procs[p], p, |s.procs|);
  }

  /** A slot is freed only when its process has switched away for good, and no two calls of wait return the same pid. */
  lemma ReapOnce(s: State, p: nat)
    requires Reachable(s) && CanReap(s, p)
    ensures var k := s.procs[p].pc.k;
      s.procs[k].pc.Dead? && s.procs[k].pid !in s.reaped && DoReap(s, p).reaped == s.reaped + {s.procs[k].pid}
  {
    ReachableInv(s);
    var k := s.procs[p].pc.k;
    assert Local(s.procs[k], k, |s.procs|);
    ReapPids(s, p);
  }
}
