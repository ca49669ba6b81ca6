/**
 fork, exit, wait and kill of proc.c, without the thread calls: a state machine over the process table
 whose steps are single lock acquisitions, releases and the updates between them. wait_lock is explicit;
 p->lock is held by its process (or by the scheduler on its behalf) exactly at the points listed in
 HoldsOwn, and taken and released within one step everywhere else.
 */
module ExitWait {
  import opened Common

  datatype ProcState = Unused | Used | Sleeping | Runnable | Running | Zombie

  datatype Pc =
    | Free                          // no process
    | New(maker: nat)               // set up by a fork that has not finished
    | User                          // anywhere outside fork, exit and wait
    | Fork1(c: nat)                 // has child c, about to acquire wait_lock
    | Fork2(c: nat)                 // holds wait_lock, about to set the child's parent
    | Fork3(c: nat)                 // about to release wait_lock
    | Fork4(c: nat)                 // about to make the child RUNNABLE
    | Exit1                         // about to acquire wait_lock
    | Exit2(k: nat)                 // reparent, at process k
    | Exit3(k: nat, j: nat)         // reparent's wakeup(initproc) after process k, at process j
    | Exit4(j: nat)                 // wakeup(p->parent), at process j
    | Exit5                         // about to acquire p->lock and become ZOMBIE
    | Exit6                         // ZOMBIE, holding both locks, about to release wait_lock
    | Exit7                         // about to switch away
    | Dead                          // switched away, p->lock released by the scheduler
    | Wait1                         // about to acquire wait_lock
    | Wait2(k: nat, kids: bool)     // scanning, at process k
    | Sleep1                        // in sleep, about to acquire p->lock
    | Sleep2                        // about to release wait_lock
    | Sleep3                        // about to set chan and state
    | Sleep4                        // SLEEPING, about to switch away
    | Away                          // switched away while sleeping in wait
    | Back                          // scheduled again, holding p->lock
    | Again                         // about to reacquire wait_lock and scan again

  datatype Proc = Proc(state: ProcState, pid: nat, parent: Option<nat>, chan: Option<nat>, killed: bool, pc: Pc)

  /** The table, the holder of wait_lock, nextpid, and the pids wait has returned, which the code does not keep. */
  datatype State = State(procs: seq<Proc>, waitLock: Option<nat>, nextPid: nat, reaped: set<nat>)

  const EMPTY: Proc := Proc(Unused, 0, None, None, false, Free)

  predicate HoldsWait(pc: Pc) {
    || pc.Fork2? || pc.Fork3? || pc.Exit2? || pc.Exit3? || pc.Exit4? || pc.Exit5? || pc.Exit6?
    || pc.Wait2? || pc.Sleep1? || pc.Sleep2?
  }

  predicate HoldsOwn(pc: Pc) { pc.Exit6? || pc.Exit7? || pc.Sleep2? || pc.Sleep3? || pc.Sleep4? || pc.Back? }

  /** Asleep in wait, or past the scan with nothing left to do but fall asleep. */
  predicate Committed(f: Proc) { f.pc.Sleep3? || f.pc.Sleep4? || (f.pc.Away? && f.state.Sleeping?) }

  predicate ChildOf(f: Proc, p: nat) { f.parent == Some(p) }

  // ---------- Steps ----------

  /** initproc, which may not exit, is process 0. */
  const INIT: nat := 0

  datatype Step =
    | ForkGo(p: nat)
    | ExitGo(p: nat)
    | WakeGo(p: nat)
    | ScanGo(p: nat)
    | SleepGo(p: nat)
    | Fork(p: nat, c: nat)
    | ForkFails(p: nat)
    | Exit(p: nat)
    | Wait(p: nat)
    | Reap(p: nat)
    | CopyoutFails(p: nat)
    | Yield(p: nat)
    | Schedule(p: nat)
    | Kill(p: nat)

  predicate At(s: State, p: nat, st: ProcState) { p < |s.procs| && s.procs[p].state == st }

  function Put(s: State, p: nat, f: Proc): State
    requires p < |s.procs|
  {
    s.(procs := s.procs[p := f])
  }

  function Jump(s: State, p: nat, pc: Pc): State
    requires p < |s.procs|
  {
    Put(s, p, s.procs[p].(pc := pc))
  }

  function Woken(f: Proc, w: nat): Proc { if f.state.Sleeping? && f.chan == Some(w) then f.(state := Runnable) else f }

  /** One round of wakeup(w) by process p. */
  function WakeOne(s: State, p: nat, j: nat, w: nat): State
    requires j < |s.procs|
  {
    if j == p then s else Put(s, j, Woken(s.procs[j], w))
  }

  /** wakeup and wait need the lock of the process they look at. */
  predicate LockFree(s: State, p: nat, j: nat) { j >= |s.procs| || j == p || !HoldsOwn(s.procs[j].pc) }

  // fork after allocproc

  predicate CanForkGo(s: State, p: nat) {
    && At(s, p, Running)
    && match s.procs[p].pc
       case Fork1(c) => s.waitLock.None?
       case Fork2(c) => c < |s.procs|
       case Fork3(c) => true
       case Fork4(c) => c < |s.procs|
       case _ => false
  }

  function Started(s: State, p: nat, c: nat): State
    requires p < |s.procs| && c < |s.procs|
  {
    Jump(Put(s, c, s.procs[c].(state := Runnable, pc := User)), p, User)
  }

  function DoForkGo(s: State, p: nat): State
    requires CanForkGo(s, p)
  {
    match s.procs[p].pc
    case Fork1(c) => Jump(s.(waitLock := Some(p)), p, Fork2(c))
    case Fork2(c) => Jump(Put(s, c, s.procs[c].(parent := Some(p))), p, Fork3(c))
    case Fork3(c) => Jump(s.(waitLock := None), p, Fork4(c))
    case Fork4(c) => Started(s, p, c)
    case _ => s
  }

  // exit: reparent, wakeup, becoming a zombie, and leaving the CPU

  predicate CanExitGo(s: State, p: nat) {
    && p < |s.procs|
    && match s.procs[p].pc
       case Exit1 => s.procs[p].state.Running? && s.waitLock.None?
       case Exit2(k) => s.procs[p].state.Running?
       case Exit5 => s.procs[p].state.Running?
       case Exit6 => true
       case Exit7 => true
       case _ => false
  }

  function DoExitGo(s: State, p: nat): State
    requires CanExitGo(s, p)
  {
    match s.procs[p].pc
    case Exit1 => Jump(s.(waitLock := Some(p)), p, Exit2(0))
    case Exit2(k) =>
      if k >= |s.procs| then Jump(s, p, Exit4(0))
      else if ChildOf(s.procs[k], p) then Jump(Put(s, k, s.procs[k].(parent := Some(INIT))), p, Exit3(k, 0))
      else Jump(s, p, Exit2(k + 1))
    case Exit5 => Put(s, p, s.procs[p].(state := Zombie, pc := Exit6))
    case Exit6 => Jump(s.(waitLock := None), p, Exit7)
    case Exit7 => Jump(s, p, Dead)
    case _ => s
  }

  predicate CanWakeGo(s: State, p: nat) {
    && At(s, p, Running)
    && match s.procs[p].pc
       case Exit3(_, j) => LockFree(s, p, j)
       case Exit4(j) => s.procs[p].parent.Some? && LockFree(s, p, j)
       case _ => false
  }

  function DoWakeGo(s: State, p: nat): State
    requires CanWakeGo(s, p)
  {
    match s.procs[p].pc
    case Exit3(k, j) =>
      if j >= |s.procs| then Jump(s, p, Exit2(k + 1)) else Jump(WakeOne(s, p, j, INIT), p, Exit3(k, j + 1))
    case Exit4(j) =>
      if j >= |s.procs| then Jump(s, p, Exit5) else Jump(WakeOne(s, p, j, s.procs[p].parent.value), p, Exit4(j + 1))
    case _ => s
  }

  // wait: the scan, and sleep(p, &wait_lock)

  predicate CanScanGo(s: State, p: nat) {
    && At(s, p, Running)
    && match s.procs[p].pc
       case Wait1 => s.waitLock.None?
       case Wait2(k, kids) =>
         k < |s.procs| && ChildOf(s.procs[k], p) ==> !HoldsOwn(s.procs[k].pc) && !s.procs[k].state.Zombie?
       case Again => s.waitLock.None?
       case _ => false
  }

  function DoScanGo(s: State, p: nat): State
    requires CanScanGo(s, p)
  {
    match s.procs[p].pc
    case Wait1 => Jump(s.(waitLock := Some(p)), p, Wait2(0, false))
    case Wait2(k, kids) =>
      if k < |s.procs| then Jump(s, p, Wait2(k + 1, kids || ChildOf(s.procs[k], p)))
      else if !kids || s.procs[p].killed then Jump(s.(waitLock := None), p, User)
      else Jump(s, p, Sleep1)
    case Again => Jump(s.(waitLock := Some(p)), p, Wait2(0, false))
    case _ => s
  }

  predicate CanSleepGo(s: State, p: nat) {
    && p < |s.procs| && (s.procs[p].state.Running? || s.procs[p].pc.Sleep4?)
    && var pc := s.procs[p].pc; pc.Sleep1? || pc.Sleep2? || pc.Sleep3? || pc.Sleep4? || pc.Back?
  }

  function DoSleepGo(s: State, p: nat): State
    requires CanSleepGo(s, p)
  {
    match s.procs[p].pc
    case Sleep1 => Jump(s, p, Sleep2)
    case Sleep2 => Jump(s.(waitLock := None), p, Sleep3)
    case Sleep3 => Put(s, p, s.procs[p].(chan := Some(p), state := Sleeping, pc := Sleep4))
    case Sleep4 => Jump(s, p, Away)
    case Back => Put(s, p, s.procs[p].(chan := None, pc := Again))
    case _ => s
  }

  predicate CanFork(s: State, p: nat, c: nat) { At(s, p, Running) && s.procs[p].pc.User? && At(s, c, Unused) }

  function DoFork(s: State, p: nat, c: nat): State
    requires CanFork(s, p, c)
  {
    var child := Proc(Used, s.nextPid, None, None, s.procs[c].killed, New(p));
    Jump(Put(s, c, child), p, Fork1(c)).(nextPid := s.nextPid + 1)
  }

  /** wait finds the zombie child k it is looking at. */
  predicate CanReap(s: State, p: nat) {
    && At(s, p, Running) && s.procs[p].pc.Wait2? && s.procs[p].pc.k < |s.procs|
    && var k := s.procs[p].pc.k;
       ChildOf(s.procs[k], p) && !HoldsOwn(s.procs[k].pc) && s.procs[k].state.Zombie? && k != p
  }

  /** freeproc, both releases, and the return of the pid. */
  function DoReap(s: State, p: nat): State
    requires CanReap(s, p)
  {
    var k := s.procs[p].pc.k;
    Jump(Put(s, k, EMPTY), p, User).(waitLock := None, reaped := s.reaped + {s.procs[k].pid})
  }

  /** Points where no spinlock is held and a timer interrupt may yield. */
  predicate Preemptible(pc: Pc) {
    pc.User? || pc.Fork1? || pc.Fork4? || pc.Exit1? || pc.Wait1? || pc.Again?
  }

  predicate Enabled(s: State, step: Step) {
    match step
    case ForkGo(p) => CanForkGo(s, p)
    case ExitGo(p) => CanExitGo(s, p)
    case WakeGo(p) => CanWakeGo(s, p)
    case ScanGo(p) => CanScanGo(s, p)
    case SleepGo(p) => CanSleepGo(s, p)
    case Fork(p, c) => CanFork(s, p, c)
    case ForkFails(p) => At(s, p, Running) && s.procs[p].pc.User?
    case Exit(p) => At(s, p, Running) && s.procs[p].pc.User? && p != INIT
    case Wait(p) => At(s, p, Running) && s.procs[p].pc.User?
    case Reap(p) => CanReap(s, p)
    case CopyoutFails(p) => CanReap(s, p)
    case Yield(p) => At(s, p, Running) && Preemptible(s.procs[p].pc)
    case Schedule(p) => At(s, p, Runnable) && (Preemptible(s.procs[p].pc) || s.procs[p].pc.Away?)
    case Kill(p) => p < |s.procs| && !HoldsOwn(s.procs[p].pc)   // pid 0 reaches slots not in use
  }

  function Do(s: State, step: Step): State
    requires Enabled(s, step)
  {
    match step
    case ForkGo(p) => DoForkGo(s, p)
    case ExitGo(p) => DoExitGo(s, p)
    case WakeGo(p) => DoWakeGo(s, p)
    case ScanGo(p) => DoScanGo(s, p)
    case SleepGo(p) => DoSleepGo(s, p)
    case Fork(p, c) => DoFork(s, p, c)
    case ForkFails(p) => s.(nextPid := s.nextPid + 1)
    case Exit(p) => Jump(s, p, Exit1)
    case Wait(p) => Jump(s, p, Wait1)
    case Reap(p) => DoReap(s, p)
    case CopyoutFails(p) => Jump(s, p, User).(waitLock := None)
    case Yield(p) => Put(s, p, s.procs[p].(state := Runnable))
    case Schedule(p) =>
      Put(s, p, s.procs[p].(state := Running, pc := if s.procs[p].pc.Away? then Back else s.procs[p].pc))
    case Kill(p) =>
      Put(s, p, s.procs[p].(killed := true, state := if s.procs[p].state.Sleeping? then Runnable else s.procs[p].state))
  }

  /** After userinit: one process, initproc. */
  predicate Init(s: State) {
    && |s.procs| > INIT && s.waitLock.None? && s.nextPid == 2 && s.reaped == {}
    && s.procs[INIT] == Proc(Runnable, 1, None, None, false, User)
    && forall p :: 0 <= p < |s.procs| && p != INIT ==> s.procs[p] == EMPTY
  }

  predicate Run(s: State, steps: seq<Step>, t: State)
    decreases |steps|
  {
    if |steps| == 0 then s == t else Enabled(s, steps[0]) && Run(Do(s, steps[0]), steps[1..], t)
  }
}
