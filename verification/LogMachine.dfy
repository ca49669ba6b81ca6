/**
 The redo log (log.c) over the pinned buffer cache (bio.c), as a state machine whose steps are the
 lock-granularity steps of any number of processes, of the committing process and of the recovery
 that follows a crash. A crash may fall between any two steps, recovery included.
 */
module LogMachine {
  import opened Common

  // ---------- Disk ----------

  /** Contents of a block: plain bytes, or what `struct logheader` reads out of the header block. */
  datatype Block = Bytes(data: seq<nat>) | Head(blocks: seq<nat>)

  type Image = map<nat, Block>

  /** Blocks that were never written read as zeroes. */
  function At(d: Image, b: nat): Block { if b in d then d[b] else Bytes([]) }

  function HeadOf(block: Block): seq<nat> { if block.Head? then block.blocks else [] }

  /** `start` and `size` come from the superblock; the rest are the constants of param.h. */
  datatype Params = Params(start: nat, size: nat, maxOp: nat, logSize: nat, nbuf: nat, nproc: nat)

  predicate ParamsOk(c: Params) { c.maxOp >= 1 && c.logSize == 3 * c.maxOp && c.nbuf == 3 * c.maxOp && c.size >= 1 }

  predicate InLog(c: Params, b: nat) { c.start <= b < c.start + c.size }

  function Slot(c: Params, tail: nat): nat { c.start + 1 + tail }

  /** What home block b holds once recovery from image d has finished. */
  function Replay(c: Params, d: Image, b: nat): Block {
    var head := HeadOf(At(d, c.start));
    if b in head then At(d, Slot(c, IndexOf(head, b))) else At(d, b)
  }

  predicate GoodHead(c: Params, head: seq<nat>) {
    && Distinct(head)
    && |head| <= c.size - 1
    && forall j :: 0 <= j < |head| ==> !InLog(c, head[j])
  }

  // ---------- State ----------

  /** A cached buffer: `waiters` took a reference and wait for the sleep lock, `holder` has it;
      `dirty` marks data changed by the holder since the last log_write. */
  datatype Buf = Buf(valid: bool, dirty: bool, data: Block, refcnt: nat, waiters: set<nat>, holder: Option<nat>)

  /** A file-system call between begin_op and end_op; `spent` are the distinct blocks it has logged. */
  datatype Op = NoOp | Active(id: nat, spent: set<nat>)

  datatype Pc =
    | Idle
    | WriteLog(tail: nat) | WriteHead | Install(tail: nat) | Clear | Finish
    | RecRead | RecInstall(tail: nat) | RecClear

  /** One log_write: operation, block and the contents logged. */
  datatype Write = Write(op: nat, b: nat, data: Block)

  /** The file-system calls in progress, under log.lock. */
  datatype Calls = Calls(ops: seq<Op>, outstanding: nat, committing: bool, nextId: nat)

  /** The disk, the in-memory log header, the blocks bpin keeps in the cache, and where the committing (or
      recovering) process stands. `latest` holds what log_write last recorded for every block and `durable`
      what survives a crash: nothing in the kernel reads these two. */
  datatype Core = Core(disk: Image, lh: seq<nat>, pinned: set<nat>, pc: Pc, committer: nat,
                       latest: Image, durable: Image)

  /** Every log_write since the disk held `base`, and how many of them are durable. */
  datatype Hist = Hist(base: Image, writes: seq<Write>, durLen: nat)

  datatype State = State(core: Core, calls: Calls, hist: Hist, cache: map<nat, Buf>)

  /** Contents of block b after the given log_writes, starting from base. */
  function Logged(base: Image, writes: seq<Write>, b: nat): Block {
    var n := |writes|;
    if n == 0 then At(base, b)
    else if writes[n - 1].b == b then writes[n - 1].data
    else Logged(base, writes[..n - 1], b)
  }

  function Count(ops: seq<Op>): nat {
    if |ops| == 0 then 0 else Count(ops[..|ops| - 1]) + (if ops[|ops| - 1].Active? then 1 else 0)
  }

  predicate Recovering(pc: Pc) { pc.RecRead? || pc.RecInstall? || pc.RecClear? }

  /** The header is on disk and installation has begun. */
  predicate Committed(pc: Pc) { pc.Install? || pc.Clear? }

  predicate Running(k: Calls, p: nat) { p < |k.ops| && k.ops[p].Active? }

  predicate Holds(s: State, p: nat, b: nat) { b in s.cache && s.cache[b].holder == Some(p) }

  predicate HoldsValid(s: State, p: nat, b: nat) { Holds(s, p, b) && s.cache[b].valid }

  /** The committing or recovering process holds log slot `tail` and the home block it belongs to. */
  predicate HoldsPair(c: Params, s: State, tail: nat) {
    && tail < |s.core.lh|
    && HoldsValid(s, s.core.committer, s.core.lh[tail])
    && HoldsValid(s, s.core.committer, Slot(c, tail))
  }

  // ---------- Steps ----------

  datatype Step =
    | Bget(p: nat, b: nat, victim: Option<nat>)
    | Lock(p: nat, b: nat)
    | Fill(p: nat, b: nat)
    | Modify(p: nat, b: nat, data: seq<nat>)
    | LogWrite(p: nat, b: nat)
    | Brelse(p: nat, b: nat)
    | BeginOp(p: nat)
    | EndOp(p: nat)
    | CommitSlot
    | CommitHead
    | CommitInstall
    | CommitClear
    | CommitDone
    | Crash(rec: nat)
    | RecoverHead
    | RecoverInstall
    | RecoverClear

  function Dec(n: nat): nat { if n > 0 then n - 1 else 0 }

  function SetBuf(s: State, b: nat, f: Buf): State { s.(cache := s.cache[b := f]) }

  // bget: take a reference to the cached buffer, or recycle an unreferenced one.

  predicate CanBget(c: Params, s: State, p: nat, b: nat, victim: Option<nat>) {
    if b in s.cache then victim.None? && s.cache[b].holder != Some(p) && p !in s.cache[b].waiters
    else if victim.None? then |s.cache| < c.nbuf
    else victim.value in s.cache && s.cache[victim.value].refcnt == 0
  }

  function DoBget(s: State, p: nat, b: nat, victim: Option<nat>): State {
    if b in s.cache then
      SetBuf(s, b, s.cache[b].(refcnt := s.cache[b].refcnt + 1, waiters := s.cache[b].waiters + {p}))
    else
      var rest := if victim.None? then s.cache else s.cache - {victim.value};
      SetBuf(s.(cache := rest), b, Buf(false, false, Bytes([]), 1, {p}, None))
  }

  // acquiresleep, the first read, a change to the data, and brelse

  predicate CanLock(s: State, p: nat, b: nat) {
    b in s.cache && p in s.cache[b].waiters && s.cache[b].holder.None?
  }

  function DoLock(s: State, p: nat, b: nat): State
    requires CanLock(s, p, b)
  {
    SetBuf(s, b, s.cache[b].(waiters := s.cache[b].waiters - {p}, holder := Some(p)))
  }

  predicate CanFill(s: State, p: nat, b: nat) { Holds(s, p, b) && !s.cache[b].valid }

  function DoFill(s: State, p: nat, b: nat): State
    requires CanFill(s, p, b)
  {
    SetBuf(s, b, s.cache[b].(valid := true, data := At(s.core.disk, b)))
  }

  predicate CanModify(c: Params, s: State, p: nat, b: nat) {
    HoldsValid(s, p, b) && Running(s.calls, p) && !InLog(c, b)
  }

  function DoModify(c: Params, s: State, p: nat, b: nat, data: seq<nat>): State
    requires CanModify(c, s, p, b)
  {
    SetBuf(s, b, s.cache[b].(dirty := true, data := Bytes(data)))
  }

  predicate CanBrelse(s: State, p: nat, b: nat) { Holds(s, p, b) && !s.cache[b].dirty }

  function DoBrelse(s: State, p: nat, b: nat): State
    requires CanBrelse(s, p, b)
  {
    SetBuf(s, b, s.cache[b].(holder := None, refcnt := Dec(s.cache[b].refcnt)))
  }

  // log_write: append the block and pin it, unless the write is absorbed by an earlier one.

  /** log_write panics with "too big a transaction". */
  predicate TooBig(c: Params, s: State) { |s.core.lh| >= c.logSize || |s.core.lh| >= c.size - 1 }

  predicate CanLogWrite(c: Params, s: State, p: nat, b: nat) {
    CanModify(c, s, p, b) && !TooBig(c, s)
  }

  function Append(lh: seq<nat>, b: nat): seq<nat> { if b in lh then lh else lh + [b] }

  function DoLogWrite(c: Params, s: State, p: nat, b: nat): State
    requires CanLogWrite(c, s, p, b)
  {
    var f := s.cache[b];
    var op := s.calls.ops[p];
    State(s.core.(lh := Append(s.core.lh, b), pinned := s.core.pinned + {b}, latest := s.core.latest[b := f.data]),
          s.calls.(ops := s.calls.ops[p := op.(spent := op.spent + {b})]),
          s.hist.(writes := s.hist.writes + [Write(op.id, b, f.data)]),
          s.cache[b := f.(dirty := false, refcnt := if b in s.core.lh then f.refcnt else f.refcnt + 1)])
  }

  // begin_op and end_op

  predicate CanBeginOp(c: Params, s: State, p: nat) {
    && p < |s.calls.ops| && s.calls.ops[p].NoOp? && !s.calls.committing && !Recovering(s.core.pc)
    && |s.core.lh| + (s.calls.outstanding + 1) * c.maxOp <= c.logSize
  }

  function DoBeginOp(c: Params, s: State, p: nat): State
    requires CanBeginOp(c, s, p)
  {
    var k := s.calls;
    s.(calls := Calls(k.ops[p := Active(k.nextId, {})], k.outstanding + 1, k.committing, k.nextId + 1))
  }

  /** Every block the call changed has been passed to log_write. */
  predicate CanEndOp(s: State, p: nat) {
    && Running(s.calls, p) && s.calls.outstanding >= 1
    && forall b :: b in s.cache && s.cache[b].holder == Some(p) ==> !s.cache[b].dirty
  }

  function DoEndOp(s: State, p: nat): State
    requires CanEndOp(s, p)
  {
    var k := s.calls;
    var last := k.outstanding == 1;
    s.(calls := k.(outstanding := k.outstanding - 1, ops := k.ops[p := NoOp], committing := k.committing || last),
       core := if last
               then s.core.(committer := p, pc := if |s.core.lh| > 0 then WriteLog(0) else Finish)
               else s.core)
  }

  // commit: write_log, write_head, install_trans, write_head

  /** bwrite: the buffer's new contents reach the disk in one atomic block write. */
  function Put(s: State, b: nat, data: Block, core: Core): State
    requires b in s.cache
  {
    s.(cache := s.cache[b := s.cache[b].(data := data)], core := core.(disk := s.core.disk[b := data]))
  }

  function AfterSlot(tail: nat, n: nat): Pc { if tail + 1 < n then WriteLog(tail + 1) else WriteHead }
  function AfterInstall(tail: nat, n: nat): Pc { if tail + 1 < n then Install(tail + 1) else Clear }
  function AfterRecInstall(tail: nat, n: nat): Pc { if tail < n then RecInstall(tail) else RecClear }

  predicate CanCommitSlot(c: Params, s: State) { s.core.pc.WriteLog? && HoldsPair(c, s, s.core.pc.tail) }

  function DoCommitSlot(c: Params, s: State): State
    requires CanCommitSlot(c, s)
  {
    var tail := s.core.pc.tail;
    Put(s, Slot(c, tail), s.cache[s.core.lh[tail]].data, s.core.(pc := AfterSlot(tail, |s.core.lh|)))
  }

  predicate CanCommitHead(c: Params, s: State) { s.core.pc.WriteHead? && HoldsValid(s, s.core.committer, c.start) }

  function DoCommitHead(c: Params, s: State): State
    requires CanCommitHead(c, s)
  {
    Put(s, c.start, Head(s.core.lh), s.core.(pc := Install(0), durable := s.core.latest))
      .(hist := s.hist.(durLen := |s.hist.writes|))
  }

  predicate CanCommitInstall(c: Params, s: State) { s.core.pc.Install? && HoldsPair(c, s, s.core.pc.tail) }

  function DoCommitInstall(c: Params, s: State): State
    requires CanCommitInstall(c, s)
  {
    var tail := s.core.pc.tail;
    var b := s.core.lh[tail];
    var f := s.cache[b].(data := s.cache[Slot(c, tail)].data, refcnt := Dec(s.cache[b].refcnt));   // bunpin
    s.(cache := s.cache[b := f],
       core := s.core.(disk := s.core.disk[b := f.data], pinned := s.core.pinned - {b},
                       pc := AfterInstall(tail, |s.core.lh|)))
  }

  predicate CanCommitClear(c: Params, s: State) { s.core.pc.Clear? && HoldsValid(s, s.core.committer, c.start) }

  function DoCommitClear(c: Params, s: State): State
    requires CanCommitClear(c, s)
  {
    Put(s, c.start, Head([]), s.core.(lh := [], pc := Finish))
  }

  function DoCommitDone(s: State): State {
    s.(core := s.core.(pc := Idle), calls := s.calls.(committing := false))
  }

  // A crash loses everything but the disk; `rec` is the process that then runs initlog.

  function DoCrash(s: State, rec: nat): State {
    State(s.core.(lh := [], pinned := {}, pc := RecRead, committer := rec, latest := s.core.durable),
          Calls(seq(|s.calls.ops|, _ => NoOp), 0, false, s.calls.nextId),
          s.hist.(writes := if s.hist.durLen <= |s.hist.writes| then s.hist.writes[..s.hist.durLen] else s.hist.writes),
          map[])
  }

  // recover_from_log

  predicate CanRecoverHead(c: Params, s: State) { s.core.pc.RecRead? && HoldsValid(s, s.core.committer, c.start) }

  function DoRecoverHead(c: Params, s: State): State
    requires CanRecoverHead(c, s)
  {
    var head := HeadOf(s.cache[c.start].data);
    s.(core := s.core.(lh := head, pc := AfterRecInstall(0, |head|)))
  }

  predicate CanRecoverInstall(c: Params, s: State) { s.core.pc.RecInstall? && HoldsPair(c, s, s.core.pc.tail) }

  function DoRecoverInstall(c: Params, s: State): State
    requires CanRecoverInstall(c, s)
  {
    var tail := s.core.pc.tail;
    Put(s, s.core.lh[tail], s.cache[Slot(c, tail)].data, s.core.(pc := AfterRecInstall(tail + 1, |s.core.lh|)))
  }

  predicate CanRecoverClear(c: Params, s: State) { s.core.pc.RecClear? && HoldsValid(s, s.core.committer, c.start) }

  function DoRecoverClear(c: Params, s: State): State
    requires CanRecoverClear(c, s)
  {
    Put(s, c.start, Head([]), s.core.(lh := [], pc := Idle))
  }

  // ---------- Runs ----------

  predicate Enabled(c: Params, s: State, step: Step) {
    match step
    case Bget(p, b, victim) => CanBget(c, s, p, b, victim)
    case Lock(p, b) => CanLock(s, p, b)
    case Fill(p, b) => CanFill(s, p, b)
    case Modify(p, b, _) => CanModify(c, s, p, b)
    case LogWrite(p, b) => CanLogWrite(c, s, p, b)
    case Brelse(p, b) => CanBrelse(s, p, b)
    case BeginOp(p) => CanBeginOp(c, s, p)
    case EndOp(p) => CanEndOp(s, p)
    case CommitSlot => CanCommitSlot(c, s)
    case CommitHead => CanCommitHead(c, s)
    case CommitInstall => CanCommitInstall(c, s)
    case CommitClear => CanCommitClear(c, s)
    case CommitDone => s.core.pc.Finish?
    case Crash(_) => true
    case RecoverHead => CanRecoverHead(c, s)
    case RecoverInstall => CanRecoverInstall(c, s)
    case RecoverClear => CanRecoverClear(c, s)
  }

  function Do(c: Params, s: State, step: Step): State
    requires Enabled(c, s, step)
  {
    match step
    case Bget(p, b, victim) => DoBget(s, p, b, victim)
    case Lock(p, b) => DoLock(s, p, b)
    case Fill(p, b) => DoFill(s, p, b)
    case Modify(p, b, data) => DoModify(c, s, p, b, data)
    case LogWrite(p, b) => DoLogWrite(c, s, p, b)
    case Brelse(p, b) => DoBrelse(s, p, b)
    case BeginOp(p) => DoBeginOp(c, s, p)
    case EndOp(p) => DoEndOp(s, p)
    case CommitSlot => DoCommitSlot(c, s)
    case CommitHead => DoCommitHead(c, s)
    case CommitInstall => DoCommitInstall(c, s)
    case CommitClear => DoCommitClear(c, s)
    case CommitDone => DoCommitDone(s)
    case Crash(rec) => DoCrash(s, rec)
    case RecoverHead => DoRecoverHead(c, s)
    case RecoverInstall => DoRecoverInstall(c, s)
    case RecoverClear => DoRecoverClear(c, s)
  }

  /** A machine whose log is empty, about to serve its first call. */
  predicate Init(c: Params, s: State) {
    && s.cache == map[]
    && s.calls == Calls(seq(c.nproc, _ => NoOp), 0, false, 0)
    && s.core.lh == [] && s.core.pinned == {} && s.core.pc.Idle?
    && HeadOf(At(s.core.disk, c.start)) == []
    && s.core.latest == s.core.durable == s.core.disk
    && s.hist == Hist(s.core.disk, [], 0)
  }

  /** t is reached from s by the given steps. */
  predicate Run(c: Params, s: State, steps: seq<Step>, t: State)
    decreases |steps|
  {
    if |steps| == 0 then s == t
    else Enabled(c, s, steps[0]) && Run(c, Do(c, s, steps[0]), steps[1..], t)
  }
}
