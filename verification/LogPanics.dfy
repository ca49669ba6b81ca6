/** When calls that keep to their budget can reach log_write's panic "too big a transaction". */
module LogPanics {
  import opened Common
  import opened LogMachine
  import opened LogInvariant
  import opened LogTheorems
  import opened LogBudget
  import opened LogOrder

  // ---------- Building runs ----------

  lemma EmptyMachine(c: Params, readers: set<nat>) returns (s: State)
    requires ParamsOk(c)
    ensures Init(c, s) && ReachableOrderly(c, readers, s)
  {
    s := State(Core(map[], [], {}, Idle, 0, map[], map[]), Calls(seq(c.nproc, _ => NoOp), 0, false, 0),
               Hist(map[], [], 0), map[]);
    assert OrderlyRun(c, readers, s, [], s);
  }

  /** A buffer nobody uses. */
  predicate Unused(f: Buf) { f.valid && !f.dirty && f.holder.None? && f.waiters == {} }

  /** Calls 0, 1 and 2 have logged the n blocks from `lo` on and nothing else, maxOp at most each and in this order. */
  ghost predicate Filled(c: Params, s: State, lo: nat, n: nat) {
    && s.core.pc.Idle? && |s.core.lh| == n && |s.cache| == n
    && (forall i :: 0 <= i < n ==> lo <= s.core.lh[i] < lo + n)
    && CacheFilled(s.cache, lo, lo + n) && CallsFilled(c, s.calls, s.cache, n)
  }

  ghost predicate CacheFilled(cache: map<nat, Buf>, lo: nat, hi: nat) {
    forall b :: b in cache ==> lo <= b < hi && Unused(cache[b])
  }

  ghost predicate CallsFilled(c: Params, k: Calls, cache: map<nat, Buf>, n: nat) {
    && |k.ops| == c.nproc >= 3 && k.outstanding == 3 && !k.committing
    && (forall p: nat :: p < 3 ==>
          k.ops[p].Active? && |k.ops[p].spent| == Share(c, n, p) && k.ops[p].spent <= cache.Keys)
  }

  /** How many of the first n blocks fall to call p. */
  function Share(c: Params, n: nat, p: nat): nat {
    var before := if p == 0 then 0 else if p == 1 then c.maxOp else c.maxOp + c.maxOp;
    if n <= before then 0 else if n <= before + c.maxOp then n - before else c.maxOp
  }

  /** The call whose turn it is to log block n. */
  lemma Turn(c: Params, n: nat) returns (p: nat)
    requires ParamsOk(c) && n < c.logSize
    ensures p < 3 && Share(c, n, p) < c.maxOp && Share(c, n + 1, p) == Share(c, n, p) + 1
    ensures forall q: nat :: q < 3 && q != p ==> Share(c, n, q) == Share(c, n + 1, q)
  {
    p := if n < c.maxOp then 0 else if n < 2 * c.maxOp then 1 else 2;
  }

  lemma ReachBegin(c: Params, readers: set<nat>, s: State, p: nat, n: nat) returns (t: State)
    requires ReachableOrderly(c, readers, s) && p < |s.calls.ops| && s.calls.ops[p].NoOp?
    requires !s.calls.committing && s.core.pc.Idle?
    requires s.core.lh == [] && s.calls.outstanding + 1 == n && n * c.maxOp <= c.logSize
    ensures ReachableOrderly(c, readers, t) && t.core == s.core && t.cache == s.cache
    ensures t.calls.outstanding == n && !t.calls.committing
    ensures t.calls.ops == s.calls.ops[p := Active(s.calls.nextId, {})]
  {
    OrderlyInv(c, readers, s);
    StaysOrderly(s, DoBeginOp(c, s, p), readers);
    t := ReachStep(c, readers, s, BeginOp(p));
  }

  lemma ThreeCalls(c: Params, readers: set<nat>, lo: nat) returns (t: State)
    requires ParamsOk(c) && c.nproc >= 3
    ensures ReachableOrderly(c, readers, t) && Filled(c, t, lo, 0)
  {
    var s := EmptyMachine(c, readers);
    var u := ReachBegin(c, readers, s, 0, 1);
    var v := ReachBegin(c, readers, u, 1, 2);
    t := ReachBegin(c, readers, v, 2, 3);
  }

  lemma ReachBget(c: Params, readers: set<nat>, s: State, p: nat, b: nat) returns (t: State)
    requires ReachableOrderly(c, readers, s) && Running(s.calls, p) && b !in s.cache && |s.cache| < c.nbuf
    ensures ReachableOrderly(c, readers, t) && t == SetBuf(s, b, Buf(false, false, Bytes([]), 1, {p}, None))
  {
    t := ReachCall(c, readers, s, Bget(p, b, None), p);
  }

  lemma ReachLock(c: Params, readers: set<nat>, s: State, p: nat, b: nat) returns (t: State)
    requires ReachableOrderly(c, readers, s) && Running(s.calls, p)
    requires b in s.cache && s.cache[b].waiters == {p} && s.cache[b].holder.None?
    ensures ReachableOrderly(c, readers, t) && t == SetBuf(s, b, s.cache[b].(waiters := {}, holder := Some(p)))
  {
    t := ReachCall(c, readers, s, Lock(p, b), p);
    assert s.cache[b].waiters - {p} == {};
  }

  /** Call p reads a block that is not cached: bget, acquiresleep and the disk read. */
  lemma ReachHeld(c: Params, readers: set<nat>, s: State, p: nat, b: nat) returns (t: State)
    requires ReachableOrderly(c, readers, s) && Running(s.calls, p) && b !in s.cache && |s.cache| < c.nbuf
    ensures ReachableOrderly(c, readers, t) && t.core == s.core && t.calls == s.calls
    ensures b in t.cache && t.cache == s.cache[b := t.cache[b]]
    ensures HoldsValid(t, p, b) && !t.cache[b].dirty && t.cache[b].waiters == {}
  {
    var u := ReachBget(c, readers, s, p, b);
    var v := ReachLock(c, readers, u, p, b);
    t := ReachCall(c, readers, v, Fill(p, b), p);
  }

  /** Call p takes a cached buffer nobody uses. */
  lemma ReachAgain(c: Params, readers: set<nat>, s: State, p: nat, b: nat) returns (t: State)
    requires ReachableOrderly(c, readers, s) && Running(s.calls, p) && b in s.cache && Unused(s.cache[b])
    ensures ReachableOrderly(c, readers, t) && t.core == s.core && t.calls == s.calls && HoldsValid(t, p, b)
  {
    var u := ReachCall(c, readers, s, Bget(p, b, None), p);
    assert u.cache[b].waiters == {p};
    t := ReachLock(c, readers, u, p, b);
  }

  /** log_write and brelse. */
  lemma ReachLogged(c: Params, readers: set<nat>, s: State, p: nat, b: nat) returns (t: State)
    requires ReachableOrderly(c, readers, s) && CanLogWrite(c, s, p, b) && InBudget(c, s, LogWrite(p, b))
    requires !s.cache[b].dirty && s.cache[b].waiters == {} && b !in s.core.lh
    ensures ReachableOrderly(c, readers, t) && t.core.pc == s.core.pc && t.core.lh == s.core.lh + [b]
    ensures b in t.cache && t.cache == s.cache[b := t.cache[b]] && Unused(t.cache[b])
    ensures t.calls == s.calls.(ops := s.calls.ops[p := s.calls.ops[p].(spent := s.calls.ops[p].spent + {b})])
  {
    var u := ReachCall(c, readers, s, LogWrite(p, b), p);
    assert u == DoLogWrite(c, s, p, b);
    t := ReachCall(c, readers, u, Brelse(p, b), p);
    assert t == DoBrelse(u, p, b);
  }

  lemma ReachBlock(c: Params, readers: set<nat>, s: State, p: nat, b: nat) returns (t: State)
    requires ReachableOrderly(c, readers, s) && b !in s.cache && |s.cache| < c.nbuf && b !in s.core.lh && !InLog(c, b)
    requires Running(s.calls, p) && |s.calls.ops[p].spent| < c.maxOp && !TooBig(c, s)
    ensures ReachableOrderly(c, readers, t) && t.core.pc == s.core.pc && t.core.lh == s.core.lh + [b]
    ensures b in t.cache && t.cache == s.cache[b := t.cache[b]] && Unused(t.cache[b])
    ensures t.calls == s.calls.(ops := s.calls.ops[p := s.calls.ops[p].(spent := s.calls.ops[p].spent + {b})])
  {
    var u := ReachHeld(c, readers, s, p, b);
    t := ReachLogged(c, readers, u, p, b);
  }

  lemma CallsAfter(c: Params, k: Calls, k': Calls, cache: map<nat, Buf>, cache': map<nat, Buf>, n: nat, p: nat, b: nat)
    requires CallsFilled(c, k, cache, n) && p < 3 && Share(c, n + 1, p) == Share(c, n, p) + 1 && b !in cache
    requires forall q: nat :: q < 3 && q != p ==> Share(c, n, q) == Share(c, n + 1, q)
    requires cache'.Keys == cache.Keys + {b} && k' == k.(ops := k.ops[p := k.ops[p].(spent := k.ops[p].spent + {b})])
    ensures CallsFilled(c, k', cache', n + 1)
  {
    assert b !in k.ops[p].spent;
    assert |k'.ops[p].spent| == |k.ops[p].spent| + 1;
  }

  lemma NextBlock(c: Params, s: State, lo: nat, n: nat, p: nat, b: nat)
    requires ParamsOk(c) && Filled(c, s, lo, n) && lo == c.start + c.size && b == lo + n
    requires n + 1 < c.size && n < c.logSize && p < 3 && Share(c, n, p) < c.maxOp
    ensures b !in s.cache && |s.cache| < c.nbuf && b !in s.core.lh && !InLog(c, b)
    ensures Running(s.calls, p) && |s.calls.ops[p].spent| < c.maxOp && !TooBig(c, s)
  {
  }

  lemma OneMore(cache: map<nat, Buf>, cache': map<nat, Buf>, b: nat)
    requires b !in cache && b in cache' && cache' == cache[b := cache'[b]]
    ensures cache'.Keys == cache.Keys + {b} && |cache'| == |cache| + 1
  {
    assert cache'.Keys == cache.Keys + {b};
    assert |cache'.Keys| == |cache.Keys| + 1;
  }

  lemma FilledAfter(c: Params, s: State, t: State, lo: nat, n: nat, p: nat, b: nat, hi: nat)
    requires Filled(c, s, lo, n) && b == lo + n && hi == b + 1 && b !in s.cache
    requires p < 3 && Share(c, n + 1, p) == Share(c, n, p) + 1
    requires forall q: nat :: q < 3 && q != p ==> Share(c, n, q) == Share(c, n + 1, q)
    requires t.core.pc == s.core.pc && t.core.lh == s.core.lh + [b]
    requires b in t.cache && t.cache == s.cache[b := t.cache[b]] && Unused(t.cache[b])
    requires t.calls == s.calls.(ops := s.calls.ops[p := s.calls.ops[p].(spent := s.calls.ops[p].spent + {b})])
    ensures Filled(c, t, lo, n + 1)
  {
    OneMore(s.cache, t.cache, b);
    CallsAfter(c, s.calls, t.calls, s.cache, t.cache, n, p, b);
    assert CacheFilled(t.cache, lo, hi);
  }

  lemma LogOne(c: Params, readers: set<nat>, s: State, lo: nat, n: nat) returns (t: State)
    requires ReachableOrderly(c, readers, s) && ParamsOk(c) && Filled(c, s, lo, n) && lo == c.start + c.size
    requires n + 1 < c.size && n < c.logSize
    ensures ReachableOrderly(c, readers, t) && Filled(c, t, lo, n + 1)
  {
    var p := Turn(c, n);
    var b := lo + n;
    NextBlock(c, s, lo, n, p, b);
    t := ReachBlock(c, readers, s, p, b);
    FilledAfter(c, s, t, lo, n, p, b, b + 1);
  }

  lemma {:induction false} FillLog(c: Params, readers: set<nat>, lo: nat, n: nat) returns (t: State)
    requires ParamsOk(c) && c.nproc >= 3 && lo == c.start + c.size && n + 1 <= c.size && n <= c.logSize
    ensures ReachableOrderly(c, readers, t) && Filled(c, t, lo, n)
  {
    if n == 0 {
      t := ThreeCalls(c, readers, lo);
    } else {
      t := FillLog(c, readers, lo, n - 1);
      t := LogOne(c, readers, t, lo, n - 1);
    }
  }

  // ---------- "too big a transaction" ----------

  /** Call p, within its budget, is about to panic in log_write(b). */
  ghost predicate Panics(c: Params, s: State, p: nat, b: nat) {
    ReachableInBudget(c, s) && CanModify(c, s, p, b) && |s.calls.ops[p].spent + {b}| <= c.maxOp && TooBig(c, s)
  }

  /** And it still has budget left. */
  ghost predicate PanicsEarly(c: Params, s: State, p: nat, b: nat) {
    Panics(c, s, p, b) && |s.calls.ops[p].spent| < c.maxOp
  }

  /** With too small a log area the promise of begin_op is broken: three calls fill it while one has budget left. */
  lemma SmallLogPanics(c: Params)
    requires ParamsOk(c) && c.size <= c.logSize && c.nproc >= 3
    ensures exists s, p: nat, b: nat :: PanicsEarly(c, s, p, b)
  {
    var lo := c.start + c.size;
    var s := FillLog(c, {}, lo, c.size - 1);
    var p := Turn(c, c.size - 1);
    var b := lo + c.size - 1;
    s := ReachHeld(c, {}, s, p, b);
    assert ReachableInBudget(c, s) by { OrderlyInv(c, {}, s); }
    assert PanicsEarly(c, s, p, b);
  }

  /** log_write keeps begin_op's promise to calls with budget left exactly when the log area holds LOGSIZE blocks
      besides its header. */
  lemma PanicIffSmallLog(c: Params)
    requires ParamsOk(c) && c.nproc >= 3
    ensures (exists s, p: nat, b: nat :: PanicsEarly(c, s, p, b)) <==> c.size < c.logSize + 1
  {
    if c.size < c.logSize + 1 {
      SmallLogPanics(c);
    } else {
      forall s, p: nat, b: nat ensures !PanicsEarly(c, s, p, b) {
        if PanicsEarly(c, s, p, b) {
          EnoughLogNoPanic(c, s, p);
        }
      }
    }
  }

  /** Whatever the size, a call can panic on a block it has logged already: the check for room precedes absorption. */
  lemma RelogPanics(c: Params)
    requires ParamsOk(c) && c.size >= c.logSize + 1 && c.nproc >= 3
    ensures exists s, p: nat, b: nat :: Panics(c, s, p, b) && b in s.calls.ops[p].spent
  {
    var lo := c.start + c.size;
    var s := FillLog(c, {}, lo, c.logSize);
    assert |s.calls.ops[0].spent| == c.maxOp;
    var b :| b in s.calls.ops[0].spent;
    var t := ReachAgain(c, {}, s, 0, b);
    assert ReachableInBudget(c, t) by { OrderlyInv(c, {}, t); }
    assert t.calls.ops[0].spent + {b} == t.calls.ops[0].spent;
    assert Panics(c, t, 0, b);
  }

  /** In a large enough log that is the only way: all budgets together are spent, and the block is absorbed. */
  lemma LatePanicOnlyRelogs(c: Params, s: State, p: nat, b: nat)
    requires Panics(c, s, p, b) && c.size >= c.logSize + 1
    ensures |s.calls.ops[p].spent| == c.maxOp && b in s.calls.ops[p].spent && |s.core.lh| == c.logSize
  {
    InBudgetInv(c, s);
    OnlyIdleRuns(c, s.core, s.calls, p);
    RoomForRunningCalls(c, s);
    if |s.calls.ops[p].spent| < c.maxOp {
      EnoughLogNoPanic(c, s, p);
    }
    assert Running(s.calls, p);
  }
}
