/** What every step of the log keeps, and the results over whole runs that follow. */
module LogInvariant {
  import opened Common
  import opened LogMachine

  // ---------- The invariant ----------

  ghost predicate CallsInv(c: Params, k: Calls, lh: seq<nat>) {
    && |k.ops| == c.nproc
    && k.outstanding == Count(k.ops)
    && (forall p: nat :: Running(k, p) ==> OpInv(c, k, k.ops[p], lh))
    && (forall p: nat, q: nat :: Running(k, p) && Running(k, q) && p != q ==> k.ops[p].id != k.ops[q].id)
  }

  ghost predicate OpInv(c: Params, k: Calls, op: Op, lh: seq<nat>)
    requires op.Active?
  {
    op.id < k.nextId && forall b :: b in op.spent ==> b in lh
  }

  function Blocks(lh: seq<nat>): set<nat> { set b | b in lh }

  /** Which blocks are pinned at each point of commit and recovery. */
  function PinnedAt(pc: Pc, lh: seq<nat>): set<nat> {
    match pc
    case Install(tail) => if tail <= |lh| then Blocks(lh[tail..]) else {}
    case Idle => Blocks(lh)
    case WriteLog(_) => Blocks(lh)
    case WriteHead => Blocks(lh)
    case _ => {}
  }

  ghost predicate PcInv(c: Params, s: Core, k: Calls) {
    && (!s.pc.Idle? ==> k.outstanding == 0)
    && (k.committing <==> !s.pc.Idle? && !Recovering(s.pc))
    && (s.pc.WriteLog? || s.pc.Install? || s.pc.RecInstall? ==> s.pc.tail < |s.lh|)
    && (s.pc.WriteHead? || s.pc.Clear? ==> s.lh != [])
    && (s.pc.Finish? || s.pc.RecRead? ==> s.lh == [])
    && (s.pc.Idle? && k.outstanding == 0 ==> s.lh == [])
    && GoodHead(c, s.lh)
    && s.pinned == PinnedAt(s.pc, s.lh)
  }

  function Refs(f: Buf): nat { |f.waiters| + (if f.holder.Some? then 1 else 0) }

  /** What the cache has to agree with. */
  datatype Media = Media(disk: Image, latest: Image, pinned: set<nat>)

  function MediaOf(s: Core): Media { Media(s.disk, s.latest, s.pinned) }

  function Newest(s: Media, b: nat): Block { if b in s.pinned then At(s.latest, b) else At(s.disk, b) }

  ghost predicate BufInv(c: Params, s: Media, k: Calls, b: nat, f: Buf) {
    && f.refcnt == Refs(f) + (if b in s.pinned then 1 else 0)
    && (f.dirty ==> f.valid && f.holder.Some? && Running(k, f.holder.value) && !InLog(c, b))
    && (f.valid && !f.dirty ==> f.data == Newest(s, b))
  }

  ghost predicate CacheInv(c: Params, s: Media, k: Calls, cache: map<nat, Buf>) {
    && (forall b :: b in cache ==> BufInv(c, s, k, b, cache[b]))
    && (forall b :: b in s.pinned ==> b in cache && cache[b].valid)
    && |cache| <= c.nbuf
  }

  /** How many log slots hold the newest contents of their home block. */
  function Copied(s: Core): nat {
    if s.pc.WriteLog? then s.pc.tail else if s.pc.WriteHead? || Committed(s.pc) then |s.lh| else 0
  }

  /** How many home blocks recovery has rewritten. */
  function Recovered(s: Core): nat {
    if s.pc.RecInstall? then s.pc.tail else if s.pc.RecClear? then |s.lh| else 0
  }

  ghost predicate Same(d: Image, e: Image) { forall b: nat :: At(d, b) == At(e, b) }

  ghost predicate HeadInv(c: Params, s: Core) {
    var head := HeadOf(At(s.disk, c.start));
    && GoodHead(c, head)
    && (Committed(s.pc) || s.pc.RecInstall? || s.pc.RecClear? ==> head == s.lh)
    && (!Committed(s.pc) && !Recovering(s.pc) ==> head == [])
    && (Committed(s.pc) || Recovering(s.pc) || s.pc.Finish? ==> Same(s.latest, s.durable))
  }

  /** A home block that is not pinned is up to date on disk. */
  ghost predicate HomesInv(c: Params, d: Image, latest: Image, pinned: set<nat>) {
    forall b: nat :: !InLog(c, b) && b !in pinned ==> At(d, b) == At(latest, b)
  }

  /** Recovery from d would leave every home block as in e. */
  ghost predicate Recovers(c: Params, d: Image, e: Image) {
    forall b: nat :: !InLog(c, b) ==> Replay(c, d, b) == At(e, b)
  }

  /** The first n log slots hold the newest contents of their home blocks. */
  ghost predicate SlotsInv(c: Params, d: Image, latest: Image, lh: seq<nat>, n: nat) {
    forall j :: 0 <= j < n && j < |lh| ==> At(d, Slot(c, j)) == At(latest, lh[j])
  }

  /** The first n home blocks equal their log slots. */
  ghost predicate DoneInv(c: Params, d: Image, lh: seq<nat>, n: nat) {
    forall j :: 0 <= j < n && j < |lh| ==> At(d, lh[j]) == At(d, Slot(c, j))
  }

  ghost predicate DiskInv(c: Params, s: Core) {
    && HeadInv(c, s)
    && (!Recovering(s.pc) ==> HomesInv(c, s.disk, s.latest, s.pinned))
    && Recovers(c, s.disk, s.durable)
    && SlotsInv(c, s.disk, s.latest, s.lh, Copied(s))
    && DoneInv(c, s.disk, s.lh, Recovered(s))
  }

  /** No operation has logged writes on both sides of the durable prefix, and none of those inside is still running. */
  ghost predicate WholeOps(h: Hist, k: Calls) {
    && h.durLen <= |h.writes|
    && (forall i, j :: 0 <= i < h.durLen <= j < |h.writes| ==> h.writes[i].op != h.writes[j].op)
    && (forall i, p: nat :: 0 <= i < h.durLen && Running(k, p) ==> h.writes[i].op != k.ops[p].id)
  }

  /** A write that is not durable yet is in the log header. */
  predicate InHeader(lh: seq<nat>, h: Hist, i: int) { 0 <= i && h.durLen <= i < |h.writes| ==> h.writes[i].b in lh }

  ghost predicate HistInv(lh: seq<nat>, latest: Image, durable: Image, k: Calls, h: Hist) {
    && WholeOps(h, k)
    && (forall i :: 0 <= i < |h.writes| ==> h.writes[i].op < k.nextId)
    && (forall i :: InHeader(lh, h, i))
    && (forall b: nat :: At(latest, b) == Logged(h.base, h.writes, b))
    && (forall b: nat :: At(durable, b) == Logged(h.base, h.writes[..h.durLen], b))
  }

  ghost predicate Inv(c: Params, s: State) {
    && ParamsOk(c) && CallsInv(c, s.calls, s.core.lh) && PcInv(c, s.core, s.calls)
    && CacheInv(c, MediaOf(s.core), s.calls, s.cache) && DiskInv(c, s.core) && HistInv(s.core.lh, s.core.latest,
      s.core.durable, s.calls, s.hist)
    && (Committed(s.core.pc) || Recovering(s.core.pc) || s.core.pc.Finish? ==> s.hist.durLen == |s.hist.writes|)
  }

  // ---------- Facts about the counters and the history ----------

  lemma {:induction false} CountUpdate(ops: seq<Op>, p: nat, op: Op)
    requires p < |ops|
    ensures Count(ops[p := op]) == Count(ops) - (if ops[p].Active? then 1 else 0) + (if op.Active? then 1 else 0)
  {
    var n := |ops| - 1;
    if p == n {
      assert ops[p := op][..n] == ops[..n];
    } else {
      CountUpdate(ops[..n], p, op);
      assert ops[p := op][..n] == ops[..n][p := op];
    }
  }

  lemma {:induction false} CountZero(ops: seq<Op>)
    ensures Count(ops) == 0 <==> forall p :: 0 <= p < |ops| ==> ops[p].NoOp?
  {
    if |ops| > 0 {
      CountZero(ops[..|ops| - 1]);
      assert forall p :: 0 <= p < |ops| - 1 ==> ops[..|ops| - 1][p] == ops[p];
    }
  }

  // ---------- Cache steps ----------

  /** Steps of bget, acquiresleep, the first read and brelse move buffers without changing what they hold. */
  lemma ReplaceKeepsCache(c: Params, s: Media, k: Calls, cache: map<nat, Buf>, b: nat, f: Buf)
    requires CacheInv(c, s, k, cache) && b in cache
    requires BufInv(c, s, k, b, f) && (cache[b].valid ==> f.valid)
    ensures CacheInv(c, s, k, cache[b := f])
  {
    assert cache[b := f].Keys == cache.Keys;
  }

  lemma EvictKeepsCache(c: Params, s: Media, k: Calls, cache: map<nat, Buf>, v: nat)
    requires CacheInv(c, s, k, cache) && v in cache && cache[v].refcnt == 0
    ensures CacheInv(c, s, k, cache - {v}) && |cache - {v}| < |cache|
  {
    assert BufInv(c, s, k, v, cache[v]);
    assert (cache - {v}).Keys == cache.Keys - {v};
  }

  lemma InsertKeepsCache(c: Params, s: Media, k: Calls, cache: map<nat, Buf>, b: nat, f: Buf)
    requires CacheInv(c, s, k, cache) && b !in cache && |cache| < c.nbuf
    requires !f.valid && !f.dirty && f.refcnt == Refs(f)
    ensures CacheInv(c, s, k, cache[b := f])
  {
    assert cache[b := f].Keys == cache.Keys + {b};
  }

  lemma CacheAfterBget(c: Params, s: State, p: nat, b: nat, victim: Option<nat>)
    requires CacheInv(c, MediaOf(s.core), s.calls, s.cache) && CanBget(c, s, p, b, victim)
    ensures CacheInv(c, MediaOf(s.core), s.calls, DoBget(s, p, b, victim).cache)
  {
    var f := Buf(false, false, Bytes([]), 1, {p}, None);
    if b in s.cache {
      ReplaceKeepsCache(c, MediaOf(s.core), s.calls, s.cache, b, DoBget(s, p, b, victim).cache[b]);
    } else if victim.Some? {
      EvictKeepsCache(c, MediaOf(s.core), s.calls, s.cache, victim.value);
      InsertKeepsCache(c, MediaOf(s.core), s.calls, s.cache - {victim.value}, b, f);
    } else {
      InsertKeepsCache(c, MediaOf(s.core), s.calls, s.cache, b, f);
    }
  }

  lemma StepBget(c: Params, s: State, p: nat, b: nat, victim: Option<nat>)
    requires Inv(c, s) && CanBget(c, s, p, b, victim)
    ensures Inv(c, DoBget(s, p, b, victim))
  {
    CacheAfterBget(c, s, p, b, victim);
  }

  lemma StepBuf(c: Params, s: State, b: nat, f: Buf)
    requires Inv(c, s) && b in s.cache && BufInv(c, MediaOf(s.core), s.calls, b, f) && (s.cache[b].valid ==> f.valid)
    ensures Inv(c, SetBuf(s, b, f))
  {
    ReplaceKeepsCache(c, MediaOf(s.core), s.calls, s.cache, b, f);
  }

  // ---------- begin_op, end_op, log_write ----------

  lemma CacheCallsFrame(c: Params, s: Media, k: Calls, k': Calls, cache: map<nat, Buf>)
    requires CacheInv(c, s, k, cache)
    requires forall b :: b in cache && cache[b].dirty && cache[b].holder.Some? && Running(k, cache[b].holder.value)
               ==> Running(k', cache[b].holder.value)
    ensures CacheInv(c, s, k', cache)
  {
    forall b | b in cache ensures BufInv(c, s, k', b, cache[b]) {
      assert BufInv(c, s, k, b, cache[b]);
    }
  }

  lemma CallsAfterBeginOp(c: Params, k: Calls, k': Calls, p: nat, lh: seq<nat>)
    requires CallsInv(c, k, lh) && p < |k.ops| && k.ops[p].NoOp?
    requires k'.ops == k.ops[p := Active(k.nextId, {})]
    requires k'.outstanding == k.outstanding + 1 && k'.nextId == k.nextId + 1
    ensures CallsInv(c, k', lh)
  {
    CountUpdate(k.ops, p, Active(k.nextId, {}));
    forall q: nat | Running(k', q) ensures OpInv(c, k', k'.ops[q], lh) {
      if q != p { assert OpInv(c, k, k.ops[q], lh); }
    }
    forall q: nat | Running(k, q) ensures k.ops[q].id < k.nextId { assert OpInv(c, k, k.ops[q], lh); }
  }

  lemma StepBeginOp(c: Params, s: State, p: nat)
    requires Inv(c, s) && CanBeginOp(c, s, p)
    ensures Inv(c, DoBeginOp(c, s, p))
  {
    var t := DoBeginOp(c, s, p);
    CallsAfterBeginOp(c, s.calls, t.calls, p, s.core.lh);
    CacheCallsFrame(c, MediaOf(s.core), s.calls, t.calls, s.cache);
    assert t.calls.committing == s.calls.committing;
  }

  lemma CallsAfterEndOp(c: Params, k: Calls, k': Calls, p: nat, lh: seq<nat>)
    requires CallsInv(c, k, lh) && Running(k, p)
    requires k'.ops == k.ops[p := NoOp] && k'.outstanding == k.outstanding - 1 && k'.nextId == k.nextId
    ensures CallsInv(c, k', lh)
  {
    CountUpdate(k.ops, p, NoOp);
    forall q: nat | Running(k', q) ensures OpInv(c, k', k'.ops[q], lh) {
      assert OpInv(c, k, k.ops[q], lh);
    }
    assert OpInv(c, k, k.ops[p], lh);
  }

  /** A running call means neither commit nor recovery is under way. */
  lemma OnlyIdleRuns(c: Params, s: Core, k: Calls, p: nat)
    requires PcInv(c, s, k) && k.outstanding == Count(k.ops) && Running(k, p)
    ensures s.pc.Idle? && !k.committing && k.outstanding >= 1
  {
    CountZero(k.ops);
  }

  lemma NoWritesLeft(s: Core, k: Calls, h: Hist)
    requires HistInv(s.lh, s.latest, s.durable, k, h) && s.lh == []
    ensures h.durLen == |h.writes| && Same(s.latest, s.durable)
  {
    assert InHeader(s.lh, h, h.durLen);
    assert h.writes[..h.durLen] == h.writes;
  }

  lemma DiskAfterEndOp(c: Params, s: Core, s': Core)
    requires DiskInv(c, s) && s.pc.Idle? && s' == s.(pc := s'.pc, committer := s'.committer)
    requires s'.pc.Idle? || s'.pc == WriteLog(0) || (s'.pc.Finish? && Same(s.latest, s.durable))
    ensures DiskInv(c, s')
  {
  }

  lemma HistAfterEndOp(lh: seq<nat>, latest: Image, durable: Image, k: Calls, k': Calls, h: Hist, p: nat)
    requires HistInv(lh, latest, durable, k, h) && p < |k.ops| && k'.ops == k.ops[p := NoOp] && k'.nextId == k.nextId
    ensures HistInv(lh, latest, durable, k', h)
  {
    assert forall q: nat :: Running(k', q) ==> Running(k, q) && k'.ops[q] == k.ops[q];
  }

  lemma StepEndOp(c: Params, s: State, p: nat)
    requires Inv(c, s) && CanEndOp(s, p)
    ensures Inv(c, DoEndOp(s, p))
  {
    var t := DoEndOp(s, p);
    OnlyIdleRuns(c, s.core, s.calls, p);
    CallsAfterEndOp(c, s.calls, t.calls, p, s.core.lh);
    CacheCallsFrame(c, MediaOf(s.core), s.calls, t.calls, s.cache);
    HistAfterEndOp(s.core.lh, s.core.latest, s.core.durable, s.calls, t.calls, s.hist, p);
    if s.core.lh == [] {
      NoWritesLeft(s.core, s.calls, s.hist);
    }
    DiskAfterEndOp(c, s.core, t.core);
  }

  lemma CallsAfterLogWrite(c: Params, k: Calls, lh: seq<nat>, p: nat, b: nat)
    requires CallsInv(c, k, lh) && Running(k, p)
    ensures CallsInv(c, k.(ops := k.ops[p := k.ops[p].(spent := k.ops[p].spent + {b})]), Append(lh, b))
  {
    var op := k.ops[p];
    var op' := op.(spent := op.spent + {b});
    var k' := k.(ops := k.ops[p := op']);
    CountUpdate(k.ops, p, op');
    assert OpInv(c, k, op, lh);
    forall q: nat | Running(k', q) ensures OpInv(c, k', k'.ops[q], Append(lh, b)) {
      assert OpInv(c, k, k.ops[q], lh);
    }
  }

  lemma HeadAfterLogWrite(c: Params, lh: seq<nat>, b: nat)
    requires GoodHead(c, lh) && |lh| < c.size - 1 && !InLog(c, b)
    ensures GoodHead(c, Append(lh, b)) && Blocks(Append(lh, b)) == Blocks(lh) + {b}
  {
  }

  lemma HistAfterLogWrite(c: Params, s: State, p: nat, w: Write)
    requires HistInv(s.core.lh, s.core.latest, s.core.durable, s.calls, s.hist) && CallsInv(c, s.calls, s.core.lh)
    requires CanLogWrite(c, s, p, w.b) && w.op == s.calls.ops[p].id && w.data == s.cache[w.b].data
    ensures var t := DoLogWrite(c, s, p, w.b); HistInv(t.core.lh, t.core.latest, t.core.durable, t.calls, t.hist)
  {
    var t := DoLogWrite(c, s, p, w.b);
    assert OpInv(c, s.calls, s.calls.ops[p], s.core.lh);
    assert forall q: nat :: Running(t.calls, q) <==> Running(s.calls, q);
    assert t.hist.writes[..t.hist.durLen] == s.hist.writes[..s.hist.durLen];
    assert t.hist.writes[..|s.hist.writes|] == s.hist.writes;
    forall i ensures InHeader(t.core.lh, t.hist, i) {
      assert InHeader(s.core.lh, s.hist, i);
    }
  }

  /** Logging b pins it and changes the newest contents of no other block. */
  lemma CacheAfterLogWrite(c: Params, s: State, p: nat, b: nat)
    requires CacheInv(c, MediaOf(s.core), s.calls, s.cache) && CanLogWrite(c, s, p, b)
    requires s.core.pinned == Blocks(s.core.lh)
    ensures var t := DoLogWrite(c, s, p, b); CacheInv(c, MediaOf(t.core), t.calls, t.cache)
  {
    var t := DoLogWrite(c, s, p, b);
    assert t.cache.Keys == s.cache.Keys;
    forall x | x in t.cache ensures BufInv(c, MediaOf(t.core), t.calls, x, t.cache[x]) {
      assert BufInv(c, MediaOf(s.core), s.calls, x, s.cache[x]);
    }
  }

  lemma DiskAfterLogWrite(c: Params, s: Core, b: nat, v: Block)
    requires DiskInv(c, s) && s.pc.Idle?
    ensures DiskInv(c, s.(lh := Append(s.lh, b), pinned := s.pinned + {b}, latest := s.latest[b := v]))
  {
  }

  lemma StepLogWrite(c: Params, s: State, p: nat, b: nat)
    requires Inv(c, s) && CanLogWrite(c, s, p, b)
    ensures Inv(c, DoLogWrite(c, s, p, b))
  {
    OnlyIdleRuns(c, s.core, s.calls, p);
    CallsAfterLogWrite(c, s.calls, s.core.lh, p, b);
    HeadAfterLogWrite(c, s.core.lh, b);
    HistAfterLogWrite(c, s, p, Write(s.calls.ops[p].id, b, s.cache[b].data));
    CacheAfterLogWrite(c, s, p, b);
    DiskAfterLogWrite(c, s.core, b, s.cache[b].data);
  }

  // ---------- commit ----------

  /** Writing a buffer through to the disk keeps the cache right: an unpinned block's newest copy is the disk's,
      and a pinned one is written only with the contents last logged. */
  lemma CacheAfterPut(c: Params, s: Media, s': Media, k: Calls, cache: map<nat, Buf>, b: nat, v: Block)
    requires CacheInv(c, s, k, cache) && b in cache && k.outstanding == Count(k.ops) && k.outstanding == 0
    requires b !in s.pinned && s' == s.(disk := s.disk[b := v])
    ensures CacheInv(c, s', k, cache[b := cache[b].(data := v)])
  {
    var f := cache[b].(data := v);
    assert cache[b := f].Keys == cache.Keys;
    NothingDirty(c, s, k, cache, b);
    forall x | x in cache ensures BufInv(c, s', k, x, cache[b := f][x]) {
      assert BufInv(c, s, k, x, cache[x]);
    }
  }

  /** No buffer is dirty while nothing runs. */
  lemma NothingDirty(c: Params, s: Media, k: Calls, cache: map<nat, Buf>, b: nat)
    requires CacheInv(c, s, k, cache) && k.outstanding == Count(k.ops) && k.outstanding == 0 && b in cache
    ensures !cache[b].dirty && (cache[b].valid ==> cache[b].data == Newest(s, b))
  {
    CountZero(k.ops);
    assert BufInv(c, s, k, b, cache[b]);
  }

  /** Writing inside the log area, with no header on disk, is invisible to recovery. */
  lemma SlotWrite(c: Params, d: Image, e: Image, latest: Image, pinned: set<nat>, x: nat, v: Block)
    requires InLog(c, x) && x != c.start && HeadOf(At(d, c.start)) == []
    requires Recovers(c, d, e) && HomesInv(c, d, latest, pinned)
    ensures Recovers(c, d[x := v], e) && HomesInv(c, d[x := v], latest, pinned)
  {
    forall b: nat | !InLog(c, b) ensures Replay(c, d[x := v], b) == At(e, b) {
      assert Replay(c, d, b) == At(e, b);
    }
  }

  lemma DiskAfterSlot(c: Params, s: Core, v: Block)
    requires DiskInv(c, s) && GoodHead(c, s.lh) && s.pc.WriteLog? && s.pc.tail < |s.lh|
    requires v == At(s.latest, s.lh[s.pc.tail])
    ensures DiskInv(c, s.(disk := s.disk[Slot(c, s.pc.tail) := v], pc := AfterSlot(s.pc.tail, |s.lh|)))
  {
    SlotWrite(c, s.disk, s.durable, s.latest, s.pinned, Slot(c, s.pc.tail), v);
  }

  lemma StepCommitSlot(c: Params, s: State)
    requires Inv(c, s) && CanCommitSlot(c, s)
    ensures Inv(c, DoCommitSlot(c, s))
  {
    var t := DoCommitSlot(c, s);
    var tail := s.core.pc.tail;
    var v := s.cache[s.core.lh[tail]].data;
    NothingDirty(c, MediaOf(s.core), s.calls, s.cache, s.core.lh[tail]);
    DiskAfterSlot(c, s.core, v);
    CacheAfterPut(c, MediaOf(s.core), MediaOf(t.core), s.calls, s.cache, Slot(c, tail), v);
  }

  /** The header write is the commit point: the replayed disk becomes the newest contents of every block. */
  lemma HeadWrite(c: Params, d: Image, latest: Image, lh: seq<nat>)
    requires GoodHead(c, lh) && InLog(c, c.start)
    requires HomesInv(c, d, latest, Blocks(lh)) && SlotsInv(c, d, latest, lh, |lh|)
    ensures Recovers(c, d[c.start := Head(lh)], latest) && SlotsInv(c, d[c.start := Head(lh)], latest, lh, |lh|)
  {
    var t := d[c.start := Head(lh)];
    forall b: nat | !InLog(c, b) ensures Replay(c, t, b) == At(latest, b) {
      if b in lh {
        var j := IndexOf(lh, b);
        assert At(d, Slot(c, j)) == At(latest, lh[j]);
      }
    }
  }

  lemma DiskAfterHead(c: Params, s: Core)
    requires DiskInv(c, s) && GoodHead(c, s.lh) && c.size >= 1 && s.pc.WriteHead? && s.pinned == Blocks(s.lh)
    ensures DiskInv(c, s.(disk := s.disk[c.start := Head(s.lh)], pc := Install(0), durable := s.latest))
  {
    HeadWrite(c, s.disk, s.latest, s.lh);
  }

  /** With nothing running, all of the history may become durable, or what is not durable may be lost. */
  lemma HistWhenIdle(s: Core, s': Core, k: Calls, k': Calls, h: Hist, h': Hist)
    requires HistInv(s.lh, s.latest, s.durable, k, h) && Count(k'.ops) == 0 && k'.nextId == k.nextId
    requires h'.base == h.base && h'.durLen == |h'.writes|
    requires (h'.writes == h.writes && s'.latest == s.latest) || (h'.writes == h.writes[..h.durLen] && s'.latest ==
      s.durable)
    requires Same(s'.latest, s'.durable)
    ensures HistInv(s'.lh, s'.latest, s'.durable, k', h')
  {
    CountZero(k'.ops);
    assert forall p: nat :: !Running(k', p);
    assert h'.writes[..h'.durLen] == h'.writes;
  }

  lemma StepCommitHead(c: Params, s: State)
    requires Inv(c, s) && CanCommitHead(c, s)
    ensures Inv(c, DoCommitHead(c, s))
  {
    var t := DoCommitHead(c, s);
    DiskAfterHead(c, s.core);
    HistWhenIdle(s.core, t.core, s.calls, t.calls, s.hist, t.hist);
    CacheAfterPut(c, MediaOf(s.core), MediaOf(t.core), s.calls, s.cache, c.start, Head(s.core.lh));
    assert s.core.lh[0..] == s.core.lh;
  }

  lemma PinnedAfterInstall(c: Params, lh: seq<nat>, tail: nat)
    requires GoodHead(c, lh) && tail < |lh|
    ensures lh[tail] in PinnedAt(Install(tail), lh)
    ensures PinnedAt(AfterInstall(tail, |lh|), lh) == PinnedAt(Install(tail), lh) - {lh[tail]}
  {
    assert lh[tail..] == [lh[tail]] + lh[tail + 1..];
  }

  /** Recovery from d' would leave the home blocks as recovery from d. */
  ghost predicate Alike(c: Params, d: Image, d': Image) {
    forall b: nat :: !InLog(c, b) ==> Replay(c, d', b) == Replay(c, d, b)
  }

  /** Rewriting a home block with its own logged copy changes nothing that a recovery would produce. */
  lemma ReplayAfterInstall(c: Params, d: Image, b: nat, v: Block)
    requires InLog(c, c.start) && !InLog(c, b)
    requires GoodHead(c, HeadOf(At(d, c.start))) && b in HeadOf(At(d, c.start)) && v == Replay(c, d, b)
    ensures Alike(c, d, d[b := v]) && At(d[b := v], c.start) == At(d, c.start)
  {
    var head := HeadOf(At(d, c.start));
    forall x: nat | !InLog(c, x) ensures Replay(c, d[b := v], x) == Replay(c, d, x) {
      if x in head {
        assert InLog(c, Slot(c, IndexOf(head, x)));
      }
    }
  }

  /** Writing a home block leaves the log slots alone. */
  lemma SlotsAfterInstall(c: Params, d: Image, latest: Image, lh: seq<nat>, n: nat, b: nat, v: Block)
    requires GoodHead(c, lh) && !InLog(c, b) && SlotsInv(c, d, latest, lh, n)
    ensures SlotsInv(c, d[b := v], latest, lh, n)
  {
    forall j | 0 <= j < n && j < |lh| ensures At(d[b := v], Slot(c, j)) == At(latest, lh[j]) {
      assert InLog(c, Slot(c, j));
    }
  }

  lemma DiskAfterInstall(c: Params, s: Core, v: Block)
    requires DiskInv(c, s) && GoodHead(c, s.lh) && c.size >= 1 && s.pc.Install? && s.pc.tail < |s.lh|
    requires v == At(s.latest, s.lh[s.pc.tail])
    ensures var b := s.lh[s.pc.tail];
      DiskInv(c, s.(disk := s.disk[b := v], pinned := s.pinned - {b}, pc := AfterInstall(s.pc.tail, |s.lh|)))
  {
    var b := s.lh[s.pc.tail];
    ReplayAfterInstall(c, s.disk, b, v);
    SlotsAfterInstall(c, s.disk, s.latest, s.lh, |s.lh|, b, v);
  }

  /** Installing writes the newest contents home, so the buffer needs its pin no longer. */
  lemma CacheAfterInstall(c: Params, s: Media, k: Calls, cache: map<nat, Buf>, b: nat, v: Block)
    requires CacheInv(c, s, k, cache) && b in cache && k.outstanding == Count(k.ops) && k.outstanding == 0
    requires b in s.pinned && v == At(s.latest, b)
    ensures CacheInv(c, s.(disk := s.disk[b := v], pinned := s.pinned - {b}), k,
                     cache[b := cache[b].(data := v, refcnt := Dec(cache[b].refcnt))])
  {
    var f := cache[b].(data := v, refcnt := Dec(cache[b].refcnt));
    var s' := s.(disk := s.disk[b := v], pinned := s.pinned - {b});
    assert cache[b := f].Keys == cache.Keys;
    NothingDirty(c, s, k, cache, b);
    forall x | x in cache ensures BufInv(c, s', k, x, cache[b := f][x]) {
      assert BufInv(c, s, k, x, cache[x]);
    }
  }

  lemma StepCommitInstall(c: Params, s: State)
    requires Inv(c, s) && CanCommitInstall(c, s)
    ensures Inv(c, DoCommitInstall(c, s))
  {
    var tail := s.core.pc.tail;
    var b := s.core.lh[tail];
    var v := s.cache[Slot(c, tail)].data;
    NothingDirty(c, MediaOf(s.core), s.calls, s.cache, Slot(c, tail));
    PinnedAfterInstall(c, s.core.lh, tail);
    assert v == At(s.core.latest, b) by { NotPinned(c, s.core, s.calls, Slot(c, tail)); }
    DiskAfterInstall(c, s.core, v);
    CacheAfterInstall(c, MediaOf(s.core), s.calls, s.cache, b, v);
  }

  lemma NotPinned(c: Params, s: Core, k: Calls, b: nat)
    requires PcInv(c, s, k) && InLog(c, b)
    ensures b !in s.pinned
  {
  }

  lemma DiskAfterClear(c: Params, s: Core)
    requires DiskInv(c, s) && c.size >= 1 && s.pc.Clear? && s.pinned == {}
    ensures DiskInv(c, s.(disk := s.disk[c.start := Head([])], lh := [], pc := Finish))
  {
  }

  lemma CallsWhenIdle(c: Params, k: Calls, k': Calls, lh: seq<nat>, lh': seq<nat>)
    requires CallsInv(c, k, lh) && |k'.ops| == |k.ops| && k'.outstanding == Count(k'.ops) == 0
    ensures CallsInv(c, k', lh')
  {
    CountZero(k'.ops);
    assert forall p: nat :: !Running(k', p);
  }

  lemma StepCommitClear(c: Params, s: State)
    requires Inv(c, s) && CanCommitClear(c, s)
    ensures Inv(c, DoCommitClear(c, s))
  {
    var t := DoCommitClear(c, s);
    DiskAfterClear(c, s.core);
    HistWhenIdle(s.core, t.core, s.calls, t.calls, s.hist, t.hist);
    CallsWhenIdle(c, s.calls, t.calls, s.core.lh, []);
    CacheAfterPut(c, MediaOf(s.core), MediaOf(t.core), s.calls, s.cache, c.start, Head([]));
  }

  lemma StepCommitDone(c: Params, s: State)
    requires Inv(c, s) && s.core.pc.Finish?
    ensures Inv(c, DoCommitDone(s))
  {
    var t := DoCommitDone(s);
    CallsWhenIdle(c, s.calls, t.calls, s.core.lh, s.core.lh);
    CacheCallsFrame(c, MediaOf(s.core), s.calls, t.calls, s.cache);
    HistWhenIdle(s.core, t.core, s.calls, t.calls, s.hist, t.hist);
  }

  // ---------- crash and recovery ----------

  lemma DiskAfterCrash(c: Params, s: Core, s': Core)
    requires DiskInv(c, s)
    requires s' == s.(lh := [], pinned := {}, pc := RecRead, committer := s'.committer, latest := s.durable)
    ensures DiskInv(c, s')
  {
  }

  lemma StepCrash(c: Params, s: State, rec: nat)
    requires Inv(c, s)
    ensures Inv(c, DoCrash(s, rec))
  {
    var t := DoCrash(s, rec);
    CountZero(t.calls.ops);
    DiskAfterCrash(c, s.core, t.core);
    CallsWhenIdle(c, s.calls, t.calls, s.core.lh, []);
    HistWhenIdle(s.core, t.core, s.calls, t.calls, s.hist, t.hist);
  }

  lemma StepRecoverHead(c: Params, s: State)
    requires Inv(c, s) && CanRecoverHead(c, s)
    ensures Inv(c, DoRecoverHead(c, s))
  {
    var t := DoRecoverHead(c, s);
    NothingDirty(c, MediaOf(s.core), s.calls, s.cache, c.start);
    CallsWhenIdle(c, s.calls, t.calls, s.core.lh, t.core.lh);
    HistWhenIdle(s.core, t.core, s.calls, t.calls, s.hist, t.hist);
  }

  /** Recovery copies the next log slot home. */
  lemma DoneNext(c: Params, d: Image, lh: seq<nat>, tail: nat, v: Block)
    requires GoodHead(c, lh) && tail < |lh| && DoneInv(c, d, lh, tail) && v == At(d, Slot(c, tail))
    ensures DoneInv(c, d[lh[tail] := v], lh, tail + 1)
  {
    var t := d[lh[tail] := v];
    forall j | 0 <= j < tail + 1 ensures At(t, lh[j]) == At(t, Slot(c, j)) {
      assert InLog(c, Slot(c, j));
      assert j < tail ==> At(d, lh[j]) == At(d, Slot(c, j));
    }
  }

  lemma DiskAfterRecInstall(c: Params, s: Core, v: Block)
    requires DiskInv(c, s) && GoodHead(c, s.lh) && c.size >= 1 && s.pc.RecInstall? && s.pc.tail < |s.lh|
    requires v == At(s.disk, Slot(c, s.pc.tail))
    ensures DiskInv(c, s.(disk := s.disk[s.lh[s.pc.tail] := v], pc := AfterRecInstall(s.pc.tail + 1, |s.lh|)))
  {
    var tail := s.pc.tail;
    var b := s.lh[tail];
    assert IndexOf(s.lh, b) == tail;
    assert Replay(c, s.disk, b) == v;
    ReplayAfterInstall(c, s.disk, b, v);
    DoneNext(c, s.disk, s.lh, tail, v);
  }

  lemma StepRecoverInstall(c: Params, s: State)
    requires Inv(c, s) && CanRecoverInstall(c, s)
    ensures Inv(c, DoRecoverInstall(c, s))
  {
    var t := DoRecoverInstall(c, s);
    var tail := s.core.pc.tail;
    var v := s.cache[Slot(c, tail)].data;
    assert s.core.pinned == {} && Recovering(t.core.pc);
    NothingDirty(c, MediaOf(s.core), s.calls, s.cache, Slot(c, tail));
    DiskAfterRecInstall(c, s.core, v);
    CacheAfterPut(c, MediaOf(s.core), MediaOf(t.core), s.calls, s.cache, s.core.lh[tail], v);
  }

  /** All home blocks rewritten, the header can go. */
  lemma HeadClear(c: Params, d: Image, e: Image, lh: seq<nat>)
    requires HeadOf(At(d, c.start)) == lh && InLog(c, c.start) && DoneInv(c, d, lh, |lh|) && Recovers(c, d, e)
    ensures Recovers(c, d[c.start := Head([])], e) && forall b: nat :: !InLog(c, b) ==> At(d, b) == At(e, b)
  {
    var t := d[c.start := Head([])];
    forall b: nat | !InLog(c, b) ensures At(d, b) == At(e, b) && Replay(c, t, b) == At(e, b) {
      if b in lh {
        var j := IndexOf(lh, b);
        assert At(d, lh[j]) == At(d, Slot(c, j));
      }
      assert Replay(c, d, b) == At(e, b);
    }
  }

  lemma DiskAfterRecClear(c: Params, s: Core)
    requires DiskInv(c, s) && c.size >= 1 && s.pc.RecClear?
    ensures DiskInv(c, s.(disk := s.disk[c.start := Head([])], lh := [], pc := Idle))
  {
    HeadClear(c, s.disk, s.durable, s.lh);
  }

  lemma StepRecoverClear(c: Params, s: State)
    requires Inv(c, s) && CanRecoverClear(c, s)
    ensures Inv(c, DoRecoverClear(c, s))
  {
    var t := DoRecoverClear(c, s);
    DiskAfterRecClear(c, s.core);
    CallsWhenIdle(c, s.calls, t.calls, s.core.lh, []);
    HistWhenIdle(s.core, t.core, s.calls, t.calls, s.hist, t.hist);
    CacheAfterPut(c, MediaOf(s.core), MediaOf(t.core), s.calls, s.cache, c.start, Head([]));
  }
}
