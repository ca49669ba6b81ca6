/**
 When commit can die in bget with "no buffers": the blocks it has pinned and the buffers of processes that read
 outside calls together fill the cache.
 */
module LogStarve {
  import opened Common
  import opened LogMachine
  import opened LogInvariant
  import opened LogTheorems
  import opened LogBudget
  import opened LogOrder
  import opened LogPanics

  // ---------- When bget fails ----------

  /** Points of commit at which it gets buffers. */
  predicate AtCommit(pc: Pc) { pc.WriteLog? || pc.WriteHead? || pc.Install? || pc.Clear? }

  /** The block of the log area commit needs next; home blocks are pinned, hence cached. */
  function Needs(c: Params, s: Core): nat {
    if s.pc.WriteLog? || s.pc.Install? then Slot(c, s.pc.tail) else c.start
  }

  /** Blocks some process waits for or holds. */
  function InUse(cache: map<nat, Buf>): set<nat> {
    set b | b in cache && (cache[b].waiters != {} || cache[b].holder.Some?)
  }

  /** bget(b) panics: b is not cached, and no buffer is unreferenced. */
  ghost predicate BgetFails(c: Params, s: State, b: nat) {
    b !in s.cache && forall p: nat, v :: !CanBget(c, s, p, b, v)
  }

  lemma NeedsInLog(c: Params, s: State)
    requires Inv(c, s) && AtCommit(s.core.pc)
    ensures InLog(c, Needs(c, s.core)) && Needs(c, s.core) !in s.core.pinned && s.core.lh != []
  {
    assert forall b :: b in s.core.pinned ==> b in s.core.lh;
  }

  lemma Referenced(c: Params, s: State, b: nat)
    requires Inv(c, s) && b in s.cache
    ensures s.cache[b].refcnt > 0 <==> b in s.core.pinned || b in InUse(s.cache)
  {
    assert BufInv(c, MediaOf(s.core), s.calls, b, s.cache[b]);
    assert s.cache[b].waiters != {} ==> |s.cache[b].waiters| > 0;
  }

  lemma FailsMeans(c: Params, s: State, b: nat)
    ensures BgetFails(c, s, b) <==>
      b !in s.cache && |s.cache| >= c.nbuf && forall x :: x in s.cache ==> s.cache[x].refcnt > 0
  {
    if BgetFails(c, s, b) {
      assert !CanBget(c, s, 0, b, None);
      forall x | x in s.cache ensures s.cache[x].refcnt > 0 {
        assert !CanBget(c, s, 0, b, Some(x));
      }
    }
  }

  /** In every reachable state: commit's bget fails exactly when the pinned blocks and those in use fill the cache
      and its block is not among them. */
  lemma BgetFailsExact(c: Params, s: State)
    requires Reachable(c, s) && AtCommit(s.core.pc)
    ensures BgetFails(c, s, Needs(c, s.core)) <==>
      |s.core.pinned + InUse(s.cache)| == c.nbuf && Needs(c, s.core) !in InUse(s.cache)
  {
    ReachableInv(c, s);
    NeedsInLog(c, s);
    var b, taken := Needs(c, s.core), s.core.pinned + InUse(s.cache);
    FailsMeans(c, s, b);
    forall x | x in s.cache ensures s.cache[x].refcnt > 0 <==> x in taken {
      Referenced(c, s, x);
    }
    SubsetSize(taken, s.cache.Keys);
    if BgetFails(c, s, b) {
      assert taken == s.cache.Keys;
    }
  }

  // ---------- How many readers it takes ----------

  /** Commit, holding no buffer, is about to panic in bget. */
  ghost predicate Starved(c: Params, readers: set<nat>, s: State) {
    && ReachableOrderly(c, readers, s) && AtCommit(s.core.pc)
    && (forall b: nat :: !Refers(s.cache, s.core.committer, b)) && BgetFails(c, s, Needs(c, s.core))
  }

  /** With at most k processes reading outside calls. */
  ghost predicate CanStarve(c: Params, k: nat) { exists readers, s :: |readers| <= k && Starved(c, readers, s) }

  /** The most blocks a commit can have pinned. */
  function Capacity(c: Params): int { if c.size - 1 < c.logSize then c.size - 1 else c.logSize }

  lemma BlocksSize(lh: seq<nat>)
    ensures |Blocks(lh)| <= |lh| && (Distinct(lh) ==> |Blocks(lh)| == |lh|)
  {
    if lh != [] {
      var n := |lh| - 1;
      BlocksSize(lh[..n]);
      assert Blocks(lh) == Blocks(lh[..n]) + {lh[n]};
    } else {
      assert Blocks(lh) == {};
    }
  }

  /** Readers with a buffer each: no more buffers than readers. */
  lemma {:induction false} BuffersOfReaders(cache: map<nat, Buf>, used: set<nat>, readers: set<nat>)
    requires forall b :: b in used ==> exists p: nat :: p in readers && Refers(cache, p, b)
    requires forall p: nat, a: nat, b: nat :: p in readers && Refers(cache, p, a) && Refers(cache, p, b) ==> a == b
    ensures |used| <= |readers|
    decreases used
  {
    if used != {} {
      var b :| b in used;
      var p: nat :| p in readers && Refers(cache, p, b);
      forall x | x in used - {b} ensures exists q: nat :: q in readers - {p} && Refers(cache, q, x) {
        var q: nat :| q in readers && Refers(cache, q, x);
        assert q in readers - {p};
      }
      BuffersOfReaders(cache, used - {b}, readers - {p});
    }
  }

  lemma UsedByReaders(c: Params, readers: set<nat>, s: State)
    requires Orderly(s, readers) && Inv(c, s) && !s.core.pc.Idle?
    requires forall b: nat :: !Refers(s.cache, s.core.committer, b)
    ensures |InUse(s.cache)| <= |readers|
  {
    CountZero(s.calls.ops);
    forall b | b in InUse(s.cache) ensures exists p: nat :: p in readers && Refers(s.cache, p, b) {
      var f := s.cache[b];
      var p: nat :| p in f.waiters || f.holder == Some(p);
      assert Refers(s.cache, p, b) && !Busy(s, p);
    }
    forall p: nat, a: nat, b: nat | Refers(s.cache, p, a) && Refers(s.cache, p, b) ensures a == b {
      assert !Busy(s, p);
    }
    BuffersOfReaders(s.cache, InUse(s.cache), readers);
  }

  lemma PinnedSize(c: Params, s: State)
    requires Inv(c, s) && BudgetInv(c, s) && AtCommit(s.core.pc)
    ensures |s.core.pinned| <= Capacity(c) && c.size >= 2
  {
    NeedsInLog(c, s);
    BlocksSize(s.core.lh);
    assert s.core.pinned <= Blocks(s.core.lh);
    SubsetSize(s.core.pinned, Blocks(s.core.lh));
    SpentAll(c, s.calls);
    UnspentBounds(c, s.calls.ops);
  }

  lemma StarvedNeeds(c: Params, readers: set<nat>, s: State)
    requires Starved(c, readers, s)
    ensures c.size >= 2 && Capacity(c) + |readers| >= c.nbuf
  {
    OrderlyInv(c, readers, s);
    InBudgetInv(c, s);
    BgetFailsExact(c, s);
    UsedByReaders(c, readers, s);
    PinnedSize(c, s);
    UnionSize(s.core.pinned, InUse(s.cache));
  }

  // ---------- A run that starves commit ----------

  lemma ReachEnd(c: Params, readers: set<nat>, s: State, p: nat, lo: nat, hi: nat) returns (t: State)
    requires ReachableOrderly(c, readers, s) && Running(s.calls, p) && s.calls.outstanding >= 1
    requires CacheFilled(s.cache, lo, hi)
    ensures ReachableOrderly(c, readers, t) && t == DoEndOp(s, p)
  {
    assert forall q: nat, b: nat :: !Refers(s.cache, q, b);
    t := ReachStep(c, readers, s, EndOp(p));
  }

  /** A call other than the last returns. */
  lemma ReachEndEarly(c: Params, readers: set<nat>, s: State, p: nat, lo: nat, hi: nat, n: nat) returns (t: State)
    requires ReachableOrderly(c, readers, s) && Running(s.calls, p) && s.calls.outstanding == n + 1 && n >= 1
    requires CacheFilled(s.cache, lo, hi)
    ensures ReachableOrderly(c, readers, t) && t.core == s.core && t.cache == s.cache
    ensures t.calls.ops == s.calls.ops[p := NoOp] && t.calls.outstanding == n
  {
    t := ReachEnd(c, readers, s, p, lo, hi);
  }

  /** The last one returns and commits. */
  lemma ReachEndLast(c: Params, readers: set<nat>, s: State, p: nat, lo: nat, hi: nat) returns (t: State)
    requires ReachableOrderly(c, readers, s) && Running(s.calls, p) && s.calls.outstanding == 1
    requires CacheFilled(s.cache, lo, hi) && |s.core.lh| > 0
    ensures ReachableOrderly(c, readers, t) && t.core == s.core.(committer := p, pc := WriteLog(0))
    ensures t.cache == s.cache && t.calls.ops == s.calls.ops[p := NoOp]
  {
    t := ReachEnd(c, readers, s, p, lo, hi);
  }

  /** Every cached block lies in the range and is pinned or waited for, by one of the processes 3 to 3 + i - 1. */
  ghost predicate AllTaken(cache: map<nat, Buf>, pinned: set<nat>, lo: nat, hi: nat, i: nat) {
    && (forall b :: b in cache ==> lo <= b < hi && (b in pinned || cache[b].waiters != {}))
    && (forall p: nat, b: nat :: Refers(cache, p, b) ==> 3 <= p < 3 + i)
  }

  /** Commit has begun with n blocks pinned, and i processes wait for a block each. */
  ghost predicate Reading(s: State, lo: nat, n: nat, i: nat) {
    && s.core.pc == WriteLog(0) && s.core.committer == 2 && |s.cache| == n + i
    && AllTaken(s.cache, s.core.pinned, lo, lo + n + i, i)
  }

  lemma CacheIsPinned(c: Params, s: State, lo: nat, n: nat)
    requires Inv(c, s) && Filled(c, s, lo, n)
    ensures s.cache.Keys == s.core.pinned
  {
    BlocksSize(s.core.lh);
    SubsetSize(s.core.pinned, s.cache.Keys);
  }

  lemma CommitBegins(c: Params, readers: set<nat>, lo: nat, n: nat) returns (t: State)
    requires ParamsOk(c) && c.nproc >= 3 && lo == c.start + c.size && 1 <= n <= Capacity(c)
    ensures ReachableOrderly(c, readers, t) && Reading(t, lo, n, 0)
  {
    var s := FillLog(c, readers, lo, n);
    assert s.cache.Keys == s.core.pinned by {
      OrderlyInv(c, readers, s);
      CacheIsPinned(c, s, lo, n);
    }
    t := ReachEndEarly(c, readers, s, 0, lo, lo + n, 2);
    t := ReachEndEarly(c, readers, t, 1, lo, lo + n, 1);
    t := ReachEndLast(c, readers, t, 2, lo, lo + n);
  }

  /** Reader p, without a buffer so far, takes one for block b. */
  lemma TakeOrderly(s: State, t: State, readers: set<nat>, p: nat, b: nat)
    requires Orderly(s, readers) && p in readers && (forall x: nat :: !Refers(s.cache, p, x)) && b !in s.cache
    requires t == SetBuf(s, b, Buf(false, false, Bytes([]), 1, {p}, None))
    ensures Orderly(t, readers)
  {
    assert forall q: nat, x: nat :: Refers(t.cache, q, x) <==> Refers(s.cache, q, x) || (q == p && x == b);
  }

  lemma TakeTaken(cache: map<nat, Buf>, cache': map<nat, Buf>, pinned: set<nat>, lo: nat, b: nat, hi: nat, i: nat,
      next: nat)
    requires AllTaken(cache, pinned, lo, b, i) && lo <= b && hi == b + 1 && next == i + 1
    requires cache' == cache[b := Buf(false, false, Bytes([]), 1, {3 + i}, None)]
    ensures AllTaken(cache', pinned, lo, hi, next)
  {
    assert 3 + i in cache'[b].waiters;
    forall p: nat, x: nat | Refers(cache', p, x) ensures 3 <= p < 3 + next {
      assert x != b ==> Refers(cache, p, x);
    }
  }

  lemma NextReader(c: Params, readers: set<nat>, s: State, lo: nat, n: nat, i: nat, next: nat) returns (t: State)
    requires ReachableOrderly(c, readers, s) && Reading(s, lo, n, i) && next == i + 1
    requires n + i < c.nbuf && 3 + i in readers
    ensures ReachableOrderly(c, readers, t) && Reading(t, lo, n, next)
  {
    var p, b := 3 + i, lo + n + i;
    var u := SetBuf(s, b, Buf(false, false, Bytes([]), 1, {p}, None));
    OneMore(s.cache, u.cache, b);
    TakeTaken(s.cache, u.cache, s.core.pinned, lo, b, lo + n + next, i, next);
    assert Orderly(u, readers) by {
      OrderlyInv(c, readers, s);
      TakeOrderly(s, u, readers, p, b);
    }
    t := ReachStep(c, readers, s, Bget(p, b, None));
  }

  lemma {:induction false} ManyReaders(c: Params, readers: set<nat>, lo: nat, n: nat, i: nat) returns (t: State)
    requires ParamsOk(c) && c.nproc >= 3 && lo == c.start + c.size && 1 <= n <= Capacity(c) && n + i <= c.nbuf
    requires forall p: nat :: 3 <= p < 3 + i ==> p in readers
    ensures ReachableOrderly(c, readers, t) && Reading(t, lo, n, i)
  {
    if i == 0 {
      t := CommitBegins(c, readers, lo, n);
    } else {
      t := ManyReaders(c, readers, lo, n, i - 1);
      t := NextReader(c, readers, t, lo, n, i - 1, i);
    }
  }

  lemma ReadingStarves(c: Params, readers: set<nat>, s: State, lo: nat, n: nat, i: nat)
    requires ReachableOrderly(c, readers, s) && Reading(s, lo, n, i) && n + i == c.nbuf && lo == c.start + c.size
    ensures Starved(c, readers, s)
  {
    OrderlyInv(c, readers, s);
    NeedsInLog(c, s);
    forall b | b in s.cache ensures s.cache[b].refcnt > 0 {
      Referenced(c, s, b);
    }
    FailsMeans(c, s, Needs(c, s.core));
  }

  lemma ReadersStarve(c: Params, k: nat)
    requires ParamsOk(c) && c.nproc >= 3 + k && c.size >= 2 && Capacity(c) + k >= c.nbuf
    ensures CanStarve(c, k)
  {
    var lo, n := c.start + c.size, Capacity(c);
    var readers := Interval(3, k);
    var s := ManyReaders(c, readers, lo, n, c.nbuf - n);
    ReadingStarves(c, readers, s, lo, n, c.nbuf - n);
  }

  /** Commit can run out of buffers exactly when the blocks it can pin and one buffer per reader fill the cache. */
  lemma StarvesIff(c: Params, k: nat)
    requires ParamsOk(c) && c.nproc >= 3 + k
    ensures CanStarve(c, k) <==> c.size >= 2 && Capacity(c) + k >= c.nbuf
  {
    if c.size >= 2 && Capacity(c) + k >= c.nbuf {
      ReadersStarve(c, k);
    }
    if CanStarve(c, k) {
      var readers, s :| |readers| <= k && Starved(c, readers, s);
      StarvedNeeds(c, readers, s);
    }
  }

  ghost predicate CanPanicEarly(c: Params) { exists s, p: nat, b: nat :: PanicsEarly(c, s, p, b) }

  /** No size of the log area avoids both panics, even without readers; with k of them exactly the listed sizes allow
      both. */
  lemma EverySizePanics(c: Params, k: nat)
    requires ParamsOk(c) && c.nproc >= 3 + k
    ensures CanPanicEarly(c) || CanStarve(c, 0)
    ensures CanPanicEarly(c) && CanStarve(c, k) <==> 2 <= c.size <= c.logSize && c.size - 1 + k >= c.nbuf
  {
    PanicIffSmallLog(c);
    StarvesIff(c, 0);
    StarvesIff(c, k);
  }
}
