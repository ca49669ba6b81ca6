/**
 Sleep locks (sleeplock.c) over sleep, wakeup and kill (proc.c): a state machine whose steps are single
 lock acquisitions, releases and updates of any number of processes, for one sleep lock. acquire and
 release of a spinlock are atomic; swtch is a handover to the scheduler, which then releases p->lock.
 */
module SleepLock {
  import opened Common

  datatype ProcState = Running | Runnable | Sleeping

  /** Where a process stands in acquiresleep, in the sleep it may call, or in releasesleep. */
  datatype Pc =
    | Idle
    | Enter                  // about to acquire lk->lk
    | Test                   // holds lk->lk, about to test locked
    | Got                    // has set locked and pid, about to release lk->lk
    | Sleep1                 // in sleep, about to acquire p->lock
    | Sleep2                 // holds both locks, about to release lk->lk
    | Sleep3                 // holds p->lock, about to set chan and state
    | Sleep4                 // SLEEPING, about to switch away
    | Away                   // switched away; the scheduler has released p->lock
    | Back                   // scheduled again, holding p->lock
    | Again                  // about to reacquire lk->lk and test once more
    | Held                   // acquiresleep has returned
    | Leave                  // in releasesleep, about to acquire lk->lk
    | Clear                  // holds lk->lk, about to clear locked
    | Wake(k: nat)           // in wakeup's loop, process k next
    | Exit                   // about to release lk->lk

  /** onLock says whether p->chan is the sleep lock. */
  datatype Proc = Proc(pc: Pc, state: ProcState, onLock: bool)

  /** inner is the holder of lk->lk; pid the holder recorded in the sleep lock. */
  datatype State = State(procs: seq<Proc>, inner: Option<nat>, locked: bool, pid: Option<nat>)

  predicate HoldsInner(pc: Pc) { pc.Test? || pc.Got? || pc.Sleep1? || pc.Sleep2? || pc.Clear? || pc.Wake? || pc.Exit? }

  /** p->lock is held by p itself, or by the scheduler on its behalf. */
  predicate HoldsOwn(pc: Pc) { pc.Sleep2? || pc.Sleep3? || pc.Sleep4? || pc.Back? }

  /** Between the return of acquiresleep and the store that clears locked. */
  predicate Holder(pc: Pc) { pc.Got? || pc.Held? || pc.Leave? || pc.Clear? }

  /** Asleep on the lock, or past the test with nothing left to do but fall asleep. */
  predicate Committed(f: Proc) { f.pc.Sleep3? || f.pc.Sleep4? || (f.pc.Away? && f.state.Sleeping?) }

  // ---------- Steps ----------

  datatype Step = Go(p: nat) | Schedule(p: nat) | Kill(p: nat)

  /** wakeup and kill see a process only while its lock is free. */
  function Woken(f: Proc): Proc { if f.state.Sleeping? && f.onLock then f.(state := Runnable) else f }

  predicate CanGo(s: State, p: nat) {
    && p < |s.procs| && (s.procs[p].state.Running? || s.procs[p].pc.Sleep4?)
    && match s.procs[p].pc
       case Away => false
       case Enter => s.inner.None?
       case Again => s.inner.None?
       case Leave => s.inner.None?
       case Wake(k) => k >= |s.procs| || k == p || !HoldsOwn(s.procs[k].pc)
       case _ => true
  }

  function Set(s: State, p: nat, pc: Pc): State
    requires p < |s.procs|
  {
    s.(procs := s.procs[p := s.procs[p].(pc := pc)])
  }

  function DoGo(s: State, p: nat): State
    requires CanGo(s, p)
  {
    match s.procs[p].pc
    case Idle => Set(s, p, Enter)
    case Enter => Set(s.(inner := Some(p)), p, Test)
    case Test => if s.locked then Set(s, p, Sleep1) else Set(s.(locked := true, pid := Some(p)), p, Got)
    case Got => Set(s.(inner := None), p, Held)
    case Sleep1 => Set(s, p, Sleep2)
    case Sleep2 => Set(s.(inner := None), p, Sleep3)
    case Sleep3 => s.(procs := s.procs[p := Proc(Sleep4, Sleeping, true)])
    case Sleep4 => Set(s, p, Away)
    case Away => s
    case Back => s.(procs := s.procs[p := Proc(Again, Running, false)])
    case Again => Set(s.(inner := Some(p)), p, Test)
    case Held => Set(s, p, Leave)
    case Leave => Set(s.(inner := Some(p)), p, Clear)
    case Clear => Set(s.(locked := false, pid := None), p, Wake(0))
    case Wake(k) =>
      if k >= |s.procs| then Set(s, p, Exit)
      else if k == p then Set(s, p, Wake(k + 1))
      else Set(s.(procs := s.procs[k := Woken(s.procs[k])]), p, Wake(k + 1))
    case Exit => Set(s.(inner := None), p, Idle)
  }

  predicate CanSchedule(s: State, p: nat) { p < |s.procs| && s.procs[p].pc.Away? && s.procs[p].state.Runnable? }

  function DoSchedule(s: State, p: nat): State
    requires CanSchedule(s, p)
  {
    s.(procs := s.procs[p := s.procs[p].(pc := Back, state := Running)])
  }

  predicate CanKill(s: State, p: nat) { p < |s.procs| && !HoldsOwn(s.procs[p].pc) }

  function DoKill(s: State, p: nat): State
    requires CanKill(s, p)
  {
    s.(procs := s.procs[p := if s.procs[p].state.Sleeping? then s.procs[p].(state := Runnable) else s.procs[p]])
  }

  predicate Enabled(s: State, step: Step) {
    match step
    case Go(p) => CanGo(s, p)
    case Schedule(p) => CanSchedule(s, p)
    case Kill(p) => CanKill(s, p)
  }

  function Do(s: State, step: Step): State
    requires Enabled(s, step)
  {
    match step
    case Go(p) => DoGo(s, p)
    case Schedule(p) => DoSchedule(s, p)
    case Kill(p) => DoKill(s, p)
  }

  predicate Init(s: State) {
    && s.inner.None? && !s.locked && s.pid.None?
    && forall p :: 0 <= p < |s.procs| ==> s.procs[p] == Proc(Idle, Running, false)
  }

  predicate Run(s: State, steps: seq<Step>, t: State)
    decreases |steps|
  {
    if |steps| == 0 then s == t else Enabled(s, steps[0]) && Run(Do(s, steps[0]), steps[1..], t)
  }

  // ---------- The invariant ----------

  ghost predicate LocksOk(s: State) {
    && (s.locked <==> s.pid.Some?)
    && (forall p: nat :: p < |s.procs| ==> LocksAt(s, p))
    && (s.inner.Some? ==> s.inner.value < |s.procs|) && (s.pid.Some? ==> s.pid.value < |s.procs|)
  }

  predicate ProcOk(f: Proc) {
    && (f.pc.Away? ==> !f.state.Running? && f.onLock) && (f.pc.Sleep4? ==> f.state.Sleeping? && f.onLock)
    && (!f.pc.Away? && !f.pc.Sleep4? ==> f.state.Running?)
  }

  /** The process in wakeup's loop has not come to process p yet. */
  predicate StillToWake(s: State, p: nat) {
    && s.inner.Some? && s.inner.value < |s.procs| && p != s.inner.value
    && s.procs[s.inner.value].pc.Wake? && s.procs[s.inner.value].pc.k <= p
  }

  /** While the lock is free, whoever is bound to sleep on it is still to be woken. */
  ghost predicate NobodyForgotten(s: State) {
    forall p: nat :: p < |s.procs| && Committed(s.procs[p]) && !s.locked ==> StillToWake(s, p)
  }

  ghost predicate Inv(s: State) {
    && LocksOk(s) && (forall p :: 0 <= p < |s.procs| ==> ProcOk(s.procs[p])) && NobodyForgotten(s)
    && (s.inner.Some? && (s.procs[s.inner.value].pc.Sleep1? || s.procs[s.inner.value].pc.Sleep2?) ==> s.locked)
    && (s.inner.Some? && (s.procs[s.inner.value].pc.Wake? || s.procs[s.inner.value].pc.Exit?) ==> !s.locked)
  }

  predicate LocksAt(s: State, p: nat)
    requires p < |s.procs|
  {
    (HoldsInner(s.procs[p].pc) <==> s.inner == Some(p)) && (Holder(s.procs[p].pc) <==> s.pid == Some(p))
  }

  lemma GoKeepsLocksAt(s: State, p: nat, q: nat)
    requires CanGo(s, p) && q < |s.procs| && (s.locked <==> s.pid.Some?) && LocksAt(s, p) && LocksAt(s, q)
    ensures LocksAt(DoGo(s, p), q)
  {
  }

  lemma GoKeepsLocks(s: State, p: nat)
    requires LocksOk(s) && CanGo(s, p)
    ensures LocksOk(DoGo(s, p))
  {
    var t := DoGo(s, p);
    forall q: nat | q < |t.procs| ensures LocksAt(t, q) {
      assert LocksAt(s, p) && LocksAt(s, q);
      GoKeepsLocksAt(s, p, q);
    }
  }

  lemma GoKeepsProcs(s: State, p: nat)
    requires (forall q :: 0 <= q < |s.procs| ==> ProcOk(s.procs[q])) && CanGo(s, p)
    ensures forall q :: 0 <= q < |s.procs| ==> ProcOk(DoGo(s, p).procs[q])
  {
  }

  lemma GoKeepsInner(s: State, p: nat)
    requires Inv(s) && CanGo(s, p)
    ensures var t := DoGo(s, p);
      && (t.inner.Some? && (t.procs[t.inner.value].pc.Sleep1? || t.procs[t.inner.value].pc.Sleep2?) ==> t.locked)
      && (t.inner.Some? && (t.procs[t.inner.value].pc.Wake? || t.procs[t.inner.value].pc.Exit?) ==> !t.locked)
  {
    assert LocksAt(s, p);
    if s.inner.Some? {
      assert LocksAt(s, s.inner.value);
    }
  }

  /** Nobody becomes committed while the lock is free, and the waker passes nobody by. */
  lemma GoForgetsNobody(s: State, p: nat, q: nat)
    requires Inv(s) && CanGo(s, p) && q < |s.procs|
    requires var t := DoGo(s, p); Committed(t.procs[q]) && !t.locked
    ensures StillToWake(DoGo(s, p), q)
  {
    assert LocksAt(s, p) && LocksAt(s, q);
    if Committed(s.procs[q]) && !s.locked {
      assert StillToWake(s, q);
    }
  }

  lemma StepKeepsInv(s: State, step: Step)
    requires Inv(s) && Enabled(s, step)
    ensures Inv(Do(s, step))
  {
    match step
    case Go(p) =>
      GoKeepsLocks(s, p);
      GoKeepsProcs(s, p);
      GoKeepsInner(s, p);
      forall q: nat | q < |s.procs| && Committed(DoGo(s, p).procs[q]) && !DoGo(s, p).locked
        ensures StillToWake(DoGo(s, p), q)
      {
        GoForgetsNobody(s, p, q);
      }
    case Schedule(p) => OtherKeepsInv(s, p, DoSchedule(s, p));
    case Kill(p) => OtherKeepsInv(s, p, DoKill(s, p));
  }

  /** The scheduler and kill make one process run again, and nobody sleep. */
  lemma OtherKeepsInv(s: State, p: nat, t: State)
    requires Inv(s) && ((CanSchedule(s, p) && t == DoSchedule(s, p)) || (CanKill(s, p) && t == DoKill(s, p)))
    ensures Inv(t)
  {
    forall q: nat | q < |t.procs| ensures LocksAt(t, q) && (Committed(t.procs[q]) ==> Committed(s.procs[q])) {
      assert LocksAt(s, q);
    }
    forall q: nat | q < |t.procs| && Committed(t.procs[q]) && !t.locked ensures StillToWake(t, q) {
      assert StillToWake(s, q) && LocksAt(s, p);
    }
  }

  lemma {:induction false} RunKeepsInv(s: State, steps: seq<Step>, t: State)
    requires Inv(s) && Run(s, steps, t)
    ensures Inv(t)
    decreases |steps|
  {
    if |steps| > 0 {
      StepKeepsInv(s, steps[0]);
      RunKeepsInv(Do(s, steps[0]), steps[1..], t);
    }
  }

  // ---------- Results ----------

  ghost predicate Reachable(s: State) { exists s0, steps :: Init(s0) && Run(s0, steps, s) }

  lemma ReachableInv(s: State)
    requires Reachable(s)
    ensures Inv(s)
  {
    var s0, steps :| Init(s0) && Run(s0, steps, s);
    RunKeepsInv(s0, steps, s);
  }

  /** At most one process has the sleep lock, and it is the one recorded in it. */
  lemma MutualExclusion(s: State, p: nat, q: nat)
    requires Reachable(s) && p < |s.procs| && q < |s.procs| && Holder(s.procs[p].pc) && Holder(s.procs[q].pc)
    ensures p == q && s.locked && s.pid == Some(p)
  {
    ReachableInv(s);
    assert LocksAt(s, p) && LocksAt(s, q);
  }

  /** No wakeup is lost: with the inner lock free and the sleep lock not held, nobody sleeps on it or is bound to. */
  lemma NoLostWakeup(s: State, p: nat)
    requires Reachable(s) && s.inner.None? && !s.locked && p < |s.procs|
    ensures !Committed(s.procs[p])
  {
    ReachableInv(s);
    assert Committed(s.procs[p]) ==> StillToWake(s, p);
  }

  ghost predicate Taken(s: State) { exists q: nat :: q < |s.procs| && Holder(s.procs[q].pc) }

  /** locked says whether somebody has the lock. */
  lemma LockedIsTaken(s: State)
    requires LocksOk(s)
    ensures s.locked <==> Taken(s)
  {
    if s.locked {
      assert LocksAt(s, s.pid.value);
    }
    if Taken(s) {
      var q: nat :| q < |s.procs| && Holder(s.procs[q].pc);
      assert LocksAt(s, q);
    }
  }

  /** acquiresleep takes the lock exactly when nobody has it, and otherwise goes to sleep. */
  lemma TestOutcome(s: State, p: nat)
    requires Reachable(s) && CanGo(s, p) && s.procs[p].pc.Test?
    ensures p < |DoGo(s, p).procs|
    ensures Holder(DoGo(s, p).procs[p].pc) <==> !Taken(s)
    ensures DoGo(s, p).procs[p].pc.Sleep1? <==> Taken(s)
    ensures DoGo(s, p).locked && (!Taken(s) ==> DoGo(s, p).pid == Some(p)) && (Taken(s) ==> DoGo(s, p).pid == s.pid)
  {
    ReachableInv(s);
    LockedIsTaken(s);
  }

  /** releasesleep leaves the lock to nobody. */
  lemma ClearFrees(s: State, p: nat)
    requires Reachable(s) && CanGo(s, p) && s.procs[p].pc.Clear?
    ensures !Taken(DoGo(s, p)) && !DoGo(s, p).locked
  {
    ReachableInv(s);
    StepKeepsInv(s, Go(p));
    LockedIsTaken(DoGo(s, p));
  }

  // ---------- Every call comes to an end ----------

  /** How many steps of its own a process is from returning, or from switching away to sleep. */
  function Rank(pc: Pc, n: nat): nat {
    match pc
    case Enter => 6
    case Back => 7
    case Again => 6
    case Test => 5
    case Got => 1
    case Sleep1 => 4
    case Sleep2 => 3
    case Sleep3 => 2
    case Sleep4 => 1
    case Leave => n + 4
    case Clear => n + 3
    case Wake(k) => if k < n then n - k + 2 else 2
    case Exit => 1
    case _ => 0
  }

  predicate Inside(pc: Pc) { !pc.Idle? && !pc.Held? && !pc.Away? }

  lemma StepDescends(s: State, p: nat)
    requires CanGo(s, p) && Inside(s.procs[p].pc)
    ensures |DoGo(s, p).procs| == |s.procs|
    ensures Rank(DoGo(s, p).procs[p].pc, |s.procs|) < Rank(s.procs[p].pc, |s.procs|)
  {
  }

  /** A process outside a call can always start one: acquiresleep, or releasesleep if it has the lock. */
  lemma CallsStart(s: State, p: nat)
    requires Reachable(s) && p < |s.procs| && (s.procs[p].pc.Idle? || s.procs[p].pc.Held?)
    ensures CanGo(s, p) && Inside(DoGo(s, p).procs[p].pc)
    ensures Holder(DoGo(s, p).procs[p].pc) <==> Holder(s.procs[p].pc)
  {
    ReachableInv(s);
    assert ProcOk(s.procs[p]);
  }

  /** A process inside a call goes on unless it is about to take lk->lk or the lock of a process, and that is held. */
  lemma GoesOrBlocked(s: State, p: nat)
    requires p < |s.procs| && ProcOk(s.procs[p]) && Inside(s.procs[p].pc) && !CanGo(s, p)
    ensures var pc := s.procs[p].pc;
      || ((pc.Enter? || pc.Again? || pc.Leave?) && s.inner.Some?)
      || (pc.Wake? && pc.k < |s.procs| && HoldsOwn(s.procs[pc.k].pc))
  {
  }

  ghost predicate SomeoneGoes(s: State) { exists q: nat :: q < |s.procs| && Inside(s.procs[q].pc) && CanGo(s, q) }

  lemma InsideGoes(s: State, p: nat)
    requires Inv(s) && p < |s.procs| && Inside(s.procs[p].pc)
    ensures SomeoneGoes(s)
  {
    if !CanGo(s, p) {
      GoesOrBlocked(s, p);
      var h := if s.procs[p].pc.Wake? then p else s.inner.value;
      assert LocksAt(s, h) && ProcOk(s.procs[h]);
      if !CanGo(s, h) {
        GoesOrBlocked(s, h);
        var k := s.procs[h].pc.k;
        assert ProcOk(s.procs[k]) && CanGo(s, k);
      }
    }
  }

  /** No deadlock: while a process is inside acquiresleep or releasesleep and not asleep, some such process goes on. */
  lemma NoDeadlock(s: State, p: nat)
    requires Reachable(s) && p < |s.procs| && Inside(s.procs[p].pc)
    ensures SomeoneGoes(s)
  {
    ReachableInv(s);
    InsideGoes(s, p);
  }

  /** Nobody is stranded: whoever waits for a lock that nobody has can be scheduled, or somebody is still at work. */
  lemma NobodyStranded(s: State, p: nat)
    requires Reachable(s) && p < |s.procs| && s.procs[p].pc.Away? && !Taken(s)
    ensures CanSchedule(s, p) || SomeoneGoes(s)
  {
    ReachableInv(s);
    LockedIsTaken(s);
    assert ProcOk(s.procs[p]);
    if s.procs[p].state.Sleeping? {
      assert StillToWake(s, p);
      InsideGoes(s, s.inner.value);
    }
  }
}
