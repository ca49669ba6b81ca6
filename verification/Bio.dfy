/**
 The buffer cache of bio.c: NBUF buffers on a doubly linked ring kept in order of use. Buffers are
 numbered from 0 and the list head has number `nbuf`.
 */
module Bio {
  import opened Common

  /** The ring, written out from the list head back to it. */
  function Ring(h: nat, order: seq<nat>): seq<nat> { [h] + order + [h] }

  /** next/prev join the head and the nodes of `order` into one closed doubly linked list. */
  ghost predicate Linked(next: seq<nat>, prev: seq<nat>, h: nat, order: seq<nat>) {
    && |next| == |prev| && h < |next| && h !in order
    && (forall i :: 0 <= i < |order| ==> order[i] < |next|)
    && Distinct(order) && Joined(next, prev, Ring(h, order))
  }

  ghost predicate Joined(next: seq<nat>, prev: seq<nat>, path: seq<nat>) {
    && (forall i :: 0 <= i < |path| ==> path[i] < |next| && path[i] < |prev|)
    && (forall i :: 0 <= i < |path| - 1 ==> next[path[i]] == path[i + 1])
    && (forall i :: 0 < i < |path| ==> prev[path[i]] == path[i - 1])
  }

  function Without(s: seq<nat>, k: int): seq<nat>
    requires 0 <= k < |s|
  {
    s[..k] + s[k + 1..]
  }

  function ToFront(s: seq<nat>, b: nat): seq<nat> {
    [b] + if b in s then Without(s, IndexOf(s, b)) else s
  }

  lemma UnlinkNext(next: seq<nat>, path: seq<nat>, k: nat)
    requires k + 2 < |path| && Distinct(path[..|path| - 1])
    requires forall i :: 0 <= i < |path| ==> path[i] < |next|
    requires forall i :: 0 <= i < |path| - 1 ==> next[path[i]] == path[i + 1]
    ensures var rest := Without(path, k + 1);
      forall i :: 0 <= i < |rest| - 1 ==> rest[i] < |next| && next[path[k] := path[k + 2]][rest[i]] == rest[i + 1]
  {
    var rest, front := Without(path, k + 1), path[..|path| - 1];
    forall i | 0 <= i < |rest| - 1 ensures next[path[k] := path[k + 2]][rest[i]] == rest[i + 1] {
      if i != k {
        var j := if i < k then i else i + 1;
        assert rest[i] == path[j] == front[j] && path[k] == front[k];
        assert next[path[j]] == path[j + 1];
      }
    }
  }

  lemma UnlinkPrev(prev: seq<nat>, path: seq<nat>, k: nat)
    requires k + 2 < |path| && Distinct(path[1..])
    requires forall i :: 0 <= i < |path| ==> path[i] < |prev|
    requires forall i :: 0 < i < |path| ==> prev[path[i]] == path[i - 1]
    ensures var rest := Without(path, k + 1);
      forall i :: 0 < i < |rest| ==> rest[i] < |prev| && prev[path[k + 2] := path[k]][rest[i]] == rest[i - 1]
  {
    var rest, back := Without(path, k + 1), path[1..];
    forall i | 0 < i < |rest| ensures prev[path[k + 2] := path[k]][rest[i]] == rest[i - 1] {
      if i != k + 1 {
        var j := if i <= k then i else i + 1;
        assert rest[i] == path[j] == back[j - 1] && path[k + 2] == back[k + 1];
        assert prev[path[j]] == path[j - 1];
      }
    }
  }

  lemma RingDistinct(h: nat, order: seq<nat>)
    requires h !in order && Distinct(order)
    ensures Ring(h, order)[..|order| + 1] == [h] + order && Distinct([h] + order)
    ensures Ring(h, order)[1..] == order + [h] && Distinct(order + [h])
  {
  }

  lemma RingWithout(h: nat, order: seq<nat>, k: nat)
    requires k < |order|
    ensures Ring(h, Without(order, k)) == Without(Ring(h, order), k + 1) && Ring(h, order)[k + 1] == order[k]
  {
    var path := Ring(h, order);
    assert path[..k + 1] == [h] + order[..k] && path[k + 2..] == order[k + 1..] + [h];
  }

  lemma WithoutFits(order: seq<nat>, k: nat, h: nat, n: nat)
    requires k < |order| && Distinct(order) && h !in order && forall i :: 0 <= i < |order| ==> order[i] < n
    ensures Distinct(Without(order, k)) && h !in Without(order, k)
    ensures forall i :: 0 <= i < |order| - 1 ==> Without(order, k)[i] < n
  {
  }

  /** Taking the node at position k out of the list leaves the others linked in the same order. */
  lemma UnlinkKeeps(next: seq<nat>, prev: seq<nat>, h: nat, order: seq<nat>, k: nat)
    requires Linked(next, prev, h, order) && k < |order|
    ensures var b := order[k]; var p, q := prev[b], next[b];
      && p < |next| && q < |next|
      && Linked(next[p := q], prev[q := p], h, Without(order, k))
  {
    var path := Ring(h, order);
    RingWithout(h, order, k);
    RingDistinct(h, order);
    WithoutFits(order, k, h, |next|);
    var p, q := path[k], path[k + 2];
    assert prev[path[k + 1]] == p && next[path[k + 1]] == q;
    UnlinkNext(next, path, k);
    UnlinkPrev(prev, path, k);
  }

  /** Linking a node that is on no list right after the head. */
  lemma PushKeeps(next: seq<nat>, prev: seq<nat>, h: nat, order: seq<nat>, b: nat)
    requires Linked(next, prev, h, order) && b < |next| && b !in order && b != h
    ensures next[h] < |next| && Linked(next[b := next[h]][h := b], prev[b := h][next[h] := b], h, [b] + order)
  {
    var path := Ring(h, order);
    assert path[0] == h && next[path[0]] == path[1];
    var rest := Ring(h, [b] + order);
    assert rest == [h, b] + path[1..];
  }

  /** Every buffer below |freed| is in the list, which is sorted by the time of release, latest first. */
  ghost predicate ByRelease(order: seq<nat>, freed: seq<int>, clock: int) {
    && |order| == |freed|
    && (forall b: nat :: b < |freed| ==> b in order && freed[b] < clock)
    && (forall i :: 0 <= i < |order| ==> order[i] < |freed|)
    && (forall i, j :: 0 <= i < j < |order| ==> freed[order[i]] > freed[order[j]])
  }

  lemma WithoutAt(order: seq<nat>, k: nat, i: nat)
    requires k < |order| && i < |order| - 1
    ensures Without(order, k)[i] == order[if i < k then i else i + 1]
  {
  }

  lemma RemovedOnce(order: seq<nat>, k: nat)
    requires Distinct(order) && k < |order|
    ensures order[k] !in Without(order, k)
  {
  }

  lemma MovedStillThere(order: seq<nat>, k: nat, a: nat)
    requires k < |order| && a in order
    ensures a in [order[k]] + Without(order, k)
  {
    var order' := [order[k]] + Without(order, k);
    var j :| 0 <= j < |order| && order[j] == a;
    assert a == order'[if j < k then j + 1 else if j == k then 0 else j];
  }

  /** Moving a buffer to the front as it is released keeps the list sorted. */
  lemma MovedOrder(order: seq<nat>, k: nat, freed: seq<int>, clock: int)
    requires ByRelease(order, freed, clock) && k < |order|
    ensures ByRelease([order[k]] + Without(order, k), freed[order[k] := clock], clock + 1)
  {
    var b, rest := order[k], Without(order, k);
    var freed' := freed[b := clock];
    forall i | 0 <= i < |rest| ensures rest[i] < |freed| && rest[i] != b && freed'[rest[i]] < clock {
      WithoutAt(order, k, i);
      assert freed[order[if i < k then i else i + 1]] != freed[order[k]];
    }
    forall i, j | 0 <= i < j < |rest| ensures freed'[rest[i]] > freed'[rest[j]] {
      WithoutAt(order, k, i);
      WithoutAt(order, k, j);
    }
    forall a: nat | a < |freed| ensures a in [b] + rest {
      MovedStillThere(order, k, a);
    }
  }

  /** k distinct buffers leave one of the n over exactly when k < n. */
  lemma Spare(s: seq<nat>, n: nat)
    requires forall i, j :: 0 <= i < j < |s| ==> s[i] != s[j]
    requires forall i :: 0 <= i < |s| ==> s[i] < n
    ensures (exists b: nat :: b < n && b !in s) <==> |s| < n
  {
    ElementsSize(s);
    if forall b: nat :: b < n ==> b in s {
      assert Elements(s) == Interval(0, n);
    } else {
      var b: nat :| b < n && b !in s;
      assert Elements(s) <= Interval(0, n) - {b};
      SubsetSize(Elements(s), Interval(0, n) - {b});
    }
  }

  lemma ElementsFit(s: seq<nat>, n: nat)
    requires forall i, j :: 0 <= i < j < |s| ==> s[i] != s[j]
    requires forall i :: 0 <= i < |s| ==> s[i] < n
    ensures |s| <= n
  {
    ElementsSize(s);
    SubsetSize(Elements(s), Interval(0, n));
  }

  class BufferCache {
    const nbuf: nat
    const next: array<nat>
    const prev: array<nat>
    const dev: array<nat>
    const blockno: array<nat>
    const refcnt: array<nat>
    const valid: array<bool>

    /** The buffers from the most to the least recently used one. */
    ghost var order: seq<nat>
    /** When each buffer's reference count last fell to zero in brelse. */
    ghost var freedAt: seq<int>
    ghost var clock: int

    ghost predicate Shape()
      reads this
    {
      && next.Length == prev.Length == nbuf + 1
      && dev.Length == blockno.Length == refcnt.Length == valid.Length == nbuf
      && next != prev && next != dev && next != blockno && next != refcnt
      && prev != dev && prev != blockno && prev != refcnt
      && dev != blockno && dev != refcnt && blockno != refcnt
    }

    /** One ring over all buffers, in order of the last release to zero. */
    ghost predicate RingOk()
      reads this, next, prev
      requires Shape()
    {
      Linked(next[..], prev[..], nbuf, order) && |freedAt| == nbuf && ByRelease(order, freedAt, clock)
    }

    /** At most one buffer per block; device 0 is what unused buffers start out with. */
    ghost predicate Unique()
      reads this, dev, blockno
      requires Shape()
    {
      forall a, b :: 0 <= a < b < nbuf && dev[a] == dev[b] && blockno[a] == blockno[b] ==> dev[a] == 0
    }

    ghost predicate Valid()
      reads this, next, prev, dev, blockno
    {
      Shape() && RingOk() && Unique()
    }

    ghost predicate Caches(b: nat, d: nat, n: nat)
      reads this, dev, blockno
      requires Shape() && b < nbuf
    {
      dev[b] == d && blockno[b] == n
    }

    method Unlink(b: nat, ghost k: nat)
      requires Shape() && Linked(next[..], prev[..], nbuf, order) && k < |order| && order[k] == b
      modifies next, prev, this`order
      ensures order == Without(old(order), k) && Linked(next[..], prev[..], nbuf, order)
    {
      UnlinkKeeps(next[..], prev[..], nbuf, order, k);
      ghost var nx: seq<nat>, pv: seq<nat> := next[..], prev[..];
      var p, q := prev[b], next[b];
      prev[q] := p;
      next[p] := q;
      assert next[..] == nx[p := q] && prev[..] == pv[q := p];
      order := Without(order, k);
    }

    method PushFront(b: nat)
      requires Shape() && Linked(next[..], prev[..], nbuf, order) && b < nbuf && b !in order
      modifies next, prev, this`order
      ensures order == [b] + old(order) && Linked(next[..], prev[..], nbuf, order)
    {
      PushKeeps(next[..], prev[..], nbuf, order, b);
      ghost var nx: seq<nat>, pv: seq<nat> := next[..], prev[..];
      var first := next[nbuf];
      next[b] := first;
      prev[b] := nbuf;
      prev[first] := b;
      next[nbuf] := b;
      assert next[..] == nx[b := first][nbuf := b] && prev[..] == pv[b := nbuf][first := b];
      order := [b] + order;
    }

    /** binit: an empty ring, then every buffer put at its front. */
    constructor (n: nat)
      ensures Valid() && nbuf == n && fresh(next) && fresh(prev)
      ensures fresh(dev) && fresh(blockno) && fresh(refcnt) && fresh(valid)
      ensures forall b :: 0 <= b < n ==> refcnt[b] == 0 && dev[b] == 0
    {
      nbuf := n;
      next, prev := new nat[n + 1](_ => n), new nat[n + 1](_ => n);
      dev, blockno, refcnt := new nat[n](_ => 0), new nat[n](_ => 0), new nat[n](_ => 0);
      valid := new bool[n](_ => false);
      order, freedAt, clock := [], seq(n, i => i), n;
      new;
      var b := 0;
      while b < nbuf
        invariant 0 <= b <= nbuf == n && Shape()
        invariant |order| == b && forall i :: 0 <= i < b ==> order[i] == b - 1 - i
        invariant Linked(next[..], prev[..], nbuf, order)
        invariant freedAt == seq(n, i => i) && clock == n
        invariant forall a :: 0 <= a < n ==> refcnt[a] == 0 && dev[a] == 0
      {
        PushFront(b);
        b := b + 1;
      }
      forall a: nat | a < nbuf ensures a in order { assert order[nbuf - 1 - a] == a; }
    }

    /** bget's first loop, most recently used first: a buffer of the block, or the list head. */
    method Lookup(d: nat, n: nat) returns (r: nat)
      requires Valid()
      ensures r <= nbuf
      ensures r < nbuf ==> Caches(r, d, n)
      ensures r == nbuf ==> forall b: nat :: b < nbuf ==> !Caches(b, d, n)
    {
      ghost var path, i := Ring(nbuf, order), 1;
      assert path[0] == nbuf && next[path[0]] == path[1];
      r := next[nbuf];
      while r != nbuf
        invariant 1 <= i <= nbuf + 1 && r == path[i]
        invariant forall j :: 1 <= j < i ==> !Caches(path[j], d, n)
        decreases nbuf - i
      {
        if dev[r] == d && blockno[r] == n {
          return r;
        }
        r := next[r];
        i := i + 1;
      }
      assert i == nbuf + 1;
      forall b: nat | b < nbuf ensures !Caches(b, d, n) {
        assert b in order;
        var j :| 0 <= j < |order| && order[j] == b;
        assert path[j + 1] == b;
      }
    }

    /** bget's second loop, least recently used first: the unreferenced buffer released longest ago, or the head. */
    method Victim() returns (r: nat)
      requires Valid()
      ensures r <= nbuf
      ensures r == nbuf <==> forall b :: 0 <= b < nbuf ==> refcnt[b] > 0
      ensures r < nbuf ==> refcnt[r] == 0 && forall b :: 0 <= b < nbuf && refcnt[b] == 0 ==> freedAt[r] <= freedAt[b]
    {
      ghost var path, i := Ring(nbuf, order), nbuf;
      assert path[nbuf + 1] == nbuf && prev[path[nbuf + 1]] == path[nbuf];
      r := prev[nbuf];
      while r != nbuf
        invariant 0 <= i <= nbuf && r == path[i]
        invariant forall j :: i < j <= nbuf ==> refcnt[path[j]] > 0
        decreases i
      {
        if refcnt[r] == 0 {
          break;
        }
        r := prev[r];
        i := i - 1;
      }
      forall b: nat | b < nbuf && refcnt[b] == 0 ensures r < nbuf && freedAt[r] <= freedAt[b] {
        assert b in order;
        var j :| 0 <= j < |order| && order[j] == b;
        assert path[j + 1] == b && j + 1 <= i && path[i] == order[i - 1];
      }
    }

    /** Nothing but buffer r differs from before. */
    twostate predicate OnlyChanged(r: int)
      reads this, dev, blockno, refcnt, valid
      requires Shape()
    {
      forall b :: 0 <= b < nbuf && b != r ==>
        dev[b] == old(dev[b]) && blockno[b] == old(blockno[b]) && refcnt[b] == old(refcnt[b]) && valid[b] ==
          old(valid[b])
    }

    /** Give an unreferenced buffer to a block that no buffer holds. */
    method Claim(r: nat, d: nat, n: nat)
      requires Valid() && r < nbuf && forall b: nat :: b < nbuf ==> !Caches(b, d, n)
      modifies dev, blockno, refcnt, valid
      ensures Valid() && OnlyChanged(r) && dev[r] == d && blockno[r] == n && refcnt[r] == 1 && !valid[r]
    {
      dev[r] := d;
      blockno[r] := n;
      valid[r] := false;
      refcnt[r] := 1;
      forall a, b | 0 <= a < b < nbuf && dev[a] == dev[b] && blockno[a] == blockno[b] ensures dev[a] == 0 {
        assert !old(Caches(a, d, n)) && !old(Caches(b, d, n));
      }
    }

    /** bget: the buffer of the block, or the unreferenced one released longest ago; -1 is "bget: no buffers". */
    method Bget(d: nat, n: nat) returns (r: int)
      requires Valid() && d != 0
      modifies dev, blockno, refcnt, valid
      ensures Valid() && -1 <= r < nbuf && OnlyChanged(r)
      ensures r == -1 ==> forall b: nat :: b < nbuf ==> !old(Caches(b, d, n)) && old(refcnt[b]) > 0
      ensures r >= 0 ==> old(Caches(r, d, n)) || old(refcnt[r]) == 0
      ensures r >= 0 ==> dev[r] == d && blockno[r] == n && refcnt[r] == old(refcnt[r]) + 1
      ensures r >= 0 && old(Caches(r, d, n)) ==> valid[r] == old(valid[r])
      ensures r >= 0 && !old(Caches(r, d, n)) ==> !valid[r] && forall b: nat :: b < nbuf ==> !old(Caches(b, d, n))
      ensures r >= 0 && !old(Caches(r, d, n)) ==>
        old(refcnt[r]) == 0 && forall b :: 0 <= b < nbuf && old(refcnt[b]) == 0 ==> freedAt[r] <= freedAt[b]
    {
      r := Lookup(d, n);
      if r < nbuf {
        assert old(Caches(r, d, n));
        refcnt[r] := refcnt[r] + 1;
        return;
      }
      r := Victim();
      if r < nbuf {
        assert !Caches(r, d, n) && refcnt[r] == 0;
        Claim(r, d, n);
        assert old(refcnt[r]) == 0;
      } else {
        r := -1;
        forall b: nat | b < nbuf ensures !old(Caches(b, d, n)) && old(refcnt[b]) > 0 {
          assert !Caches(b, d, n) && refcnt[b] > 0;
        }
      }
    }

    method MoveToFront(b: nat)
      requires Shape() && RingOk() && b < nbuf
      modifies this`order, this`freedAt, this`clock, next, prev
      ensures RingOk() && freedAt == old(freedAt)[b := old(clock)] && order == ToFront(old(order), b)
    {
      ghost var was: seq<nat>, k := order, IndexOf(order, b);
      ghost var moved, times := [b] + Without(was, k), freedAt[b := clock];
      assert moved == ToFront(was, b) && ByRelease(moved, times, clock + 1) by {
        MovedOrder(was, k, freedAt, clock);
      }
      RemovedOnce(was, k);
      Unlink(b, k);
      PushFront(b);
      freedAt, clock := freedAt[b := clock], clock + 1;
    }

    /** brelse after releasesleep: the last holder moves the buffer to the front of the ring. */
    method Brelse(b: nat)
      requires Valid() && b < nbuf && refcnt[b] > 0
      modifies this`order, this`freedAt, this`clock, next, prev, refcnt
      ensures Valid()
      ensures forall a :: 0 <= a < nbuf ==> refcnt[a] == if a == b then old(refcnt[a]) - 1 else old(refcnt[a])
      ensures if refcnt[b] == 0
              then freedAt == old(freedAt)[b := old(clock)] && order == ToFront(old(order), b)
              else order == old(order) && freedAt == old(freedAt)
    {
      refcnt[b] := refcnt[b] - 1;
      if refcnt[b] == 0 {
        MoveToFront(b);
      }
    }

    method Bpin(b: nat)
      requires Valid() && b < nbuf
      modifies refcnt
      ensures Valid() && refcnt[b] == old(refcnt[b]) + 1
      ensures forall a :: 0 <= a < nbuf && a != b ==> refcnt[a] == old(refcnt[a])
    {
      refcnt[b] := refcnt[b] + 1;
    }

    method Bunpin(b: nat)
      requires Valid() && b < nbuf && refcnt[b] > 0
      modifies refcnt
      ensures Valid() && refcnt[b] == old(refcnt[b]) - 1
      ensures forall a :: 0 <= a < nbuf && a != b ==> refcnt[a] == old(refcnt[a])
    {
      refcnt[b] := refcnt[b] - 1;
    }

    /** Buffer at[j] holds logged block lh[j] with bpin's reference; `held` are the references of bget. */
    ghost predicate Pinned(d: nat, lh: seq<nat>, at: seq<nat>, held: multiset<nat>)
      reads this, dev, blockno, refcnt
      requires Shape()
    {
      && |at| == |lh|
      && (forall i, j :: 0 <= i < j < |lh| ==> lh[i] != lh[j])
      && (forall j :: 0 <= j < |at| ==> at[j] < nbuf && Caches(at[j], d, lh[j]))
      && (forall b: nat :: b < nbuf ==> refcnt[b] == held[b] + if b in at then 1 else 0)
    }

    method Hold(d: nat, n: nat, ghost lh: seq<nat>, ghost at: seq<nat>, ghost held: multiset<nat>) returns (r: int)
      requires Valid() && d != 0 && Pinned(d, lh, at, held)
      modifies dev, blockno, refcnt, valid
      ensures Valid() && -1 <= r < nbuf
      ensures r == -1 ==> forall b: nat :: b < nbuf ==> !old(Caches(b, d, n)) && old(refcnt[b]) > 0
      ensures r >= 0 ==> Caches(r, d, n) && Pinned(d, lh, at, held + multiset{r})
      ensures r >= 0 && n !in lh ==> r !in at
      ensures r >= 0 ==> old(Caches(r, d, n)) || old(refcnt[r]) == 0
    {
      r := Bget(d, n);
    }

    method Drop(b: nat, ghost d: nat, ghost lh: seq<nat>, ghost at: seq<nat>, ghost held: multiset<nat>)
      requires Valid() && b < nbuf && Pinned(d, lh, at, held) && b in held
      modifies this`order, this`freedAt, this`clock, next, prev, refcnt
      ensures Valid() && Pinned(d, lh, at, held - multiset{b})
    {
      Brelse(b);
    }

    /** bread of the log slot by the committing process, which holds nothing yet. */
    method HoldSlot(d: nat, slot: nat, ghost lh: seq<nat>, ghost at: seq<nat>) returns (r: int)
      requires Valid() && d != 0 && Pinned(d, lh, at, multiset{}) && slot !in lh
      modifies dev, blockno, refcnt, valid
      ensures Valid() && -1 <= r < nbuf
      ensures r == -1 <==> |lh| == nbuf
      ensures |lh| <= nbuf
      ensures r >= 0 ==> Pinned(d, lh, at, multiset{r}) && r !in at
    {
      DistinctPins(d, lh, at, multiset{});
      Spare(at, nbuf);
      ElementsFit(at, nbuf);
      r := Hold(d, slot, lh, at, multiset{});
      if r == -1 {
        forall b: nat | b < nbuf ensures b in at { assert old(refcnt[b]) > 0; }
      }
    }

    /** bread of a logged block finds its pinned buffer; install_trans drops the pin of the first one. */
    method HoldHome(d: nat, lh: seq<nat>, tail: nat, ghost at: seq<nat>, ghost held: multiset<nat>) returns (r: nat)
      requires Valid() && d != 0 && Pinned(d, lh, at, held) && tail < |lh|
      modifies dev, blockno, refcnt, valid
      ensures Valid() && r < nbuf && Pinned(d, lh, at, held + multiset{r}) && r == at[tail]
    {
      assert Caches(at[tail], d, lh[tail]);
      var f := Hold(d, lh[tail], lh, at, held);
      r := f;
      assert Caches(at[tail], d, lh[tail]) && Caches(r, d, lh[tail]);
    }

    method UnpinFirst(b: nat, ghost d: nat, ghost lh: seq<nat>, ghost at: seq<nat>, ghost held: multiset<nat>)
      requires Valid() && Pinned(d, lh, at, held) && |lh| > 0 && b == at[0]
      modifies refcnt
      ensures Valid() && Pinned(d, lh[1..], at[1..], held)
    {
      DistinctPins(d, lh, at, held);
      assert forall x: nat :: x in at <==> x == at[0] || x in at[1..];
      Bunpin(b);
    }

    /** One round of write_log: the log slot and the home block are held together. */
    method CopyRound(d: nat, slot: nat, lh: seq<nat>, tail: nat, ghost at: seq<nat>) returns (ok: bool)
      requires Valid() && d != 0 && Pinned(d, lh, at, multiset{}) && tail < |lh| && slot !in lh
      modifies this`order, this`freedAt, this`clock, next, prev, dev, blockno, refcnt, valid
      ensures ok <==> |lh| < nbuf
      ensures ok ==> Valid() && Pinned(d, lh, at, multiset{})
    {
      var to := HoldSlot(d, slot, lh, at);
      if to == -1 {
        return false;
      }
      var from := HoldHome(d, lh, tail, at, multiset{to});
      Drop(from, d, lh, at, multiset{to, from});
      Drop(to, d, lh, at, multiset{to});
      return true;
    }

    /** One round of install_trans: as above, and the pin goes. */
    method InstallRound(d: nat, slot: nat, lh: seq<nat>, ghost at: seq<nat>) returns (ok: bool)
      requires Valid() && d != 0 && Pinned(d, lh, at, multiset{}) && |lh| > 0 && slot !in lh
      modifies this`order, this`freedAt, this`clock, next, prev, dev, blockno, refcnt, valid
      ensures ok <==> |lh| < nbuf
      ensures ok ==> Valid() && Pinned(d, lh[1..], at[1..], multiset{})
    {
      var lbuf := HoldSlot(d, slot, lh, at);
      if lbuf == -1 {
        return false;
      }
      var dbuf := HoldHome(d, lh, 0, at, multiset{lbuf});
      UnpinFirst(dbuf, d, lh, at, multiset{lbuf, dbuf});
      Drop(lbuf, d, lh[1..], at[1..], multiset{lbuf, dbuf});
      Drop(dbuf, d, lh[1..], at[1..], multiset{dbuf});
      return true;
    }

    /** write_head's use of the cache. */
    method HeadRound(d: nat, start: nat, ghost lh: seq<nat>, ghost at: seq<nat>) returns (ok: bool)
      requires Valid() && d != 0 && Pinned(d, lh, at, multiset{}) && start !in lh
      modifies this`order, this`freedAt, this`clock, next, prev, dev, blockno, refcnt, valid
      ensures ok <==> |lh| < nbuf
      ensures ok ==> Valid() && Pinned(d, lh, at, multiset{})
    {
      var buf := HoldSlot(d, start, lh, at);
      if buf == -1 {
        return false;
      }
      Drop(buf, d, lh, at, multiset{buf});
      return true;
    }

    /** All of commit's cache traffic while no other process holds a buffer: it never runs out of buffers
        exactly when the pinned blocks leave one buffer free. */
    method CommitTraffic(d: nat, start: nat, lh: seq<nat>, ghost at: seq<nat>) returns (ok: bool)
      requires Valid() && d != 0 && Pinned(d, lh, at, multiset{}) && |lh| > 0
      requires forall i :: 0 <= i < |lh| ==> !(start <= lh[i] <= start + |lh|)
      modifies this`order, this`freedAt, this`clock, next, prev, dev, blockno, refcnt, valid
      ensures ok <==> |lh| < nbuf
      ensures ok ==> Valid() && forall b :: 0 <= b < nbuf ==> refcnt[b] == 0
    {
      var tail := 0;
      while tail < |lh|
        invariant 0 <= tail <= |lh| && Valid() && Pinned(d, lh, at, multiset{})
        invariant tail > 0 ==> |lh| < nbuf
      {
        ok := CopyRound(d, start + 1 + tail, lh, tail, at);
        if !ok { return; }
        tail := tail + 1;
      }
      ok := HeadRound(d, start, lh, at);
      if !ok { return; }
      tail := 0;
      while tail < |lh|
        invariant 0 <= tail <= |lh| < nbuf && Valid() && Pinned(d, lh[tail..], at[tail..], multiset{})
      {
        ok := InstallRound(d, start + 1 + tail, lh[tail..], at[tail..]);
        assert lh[tail..][1..] == lh[tail + 1..] && at[tail..][1..] == at[tail + 1..];
        tail := tail + 1;
      }
      ok := HeadRound(d, start, lh[tail..], at[tail..]);
    }

    lemma DistinctPins(d: nat, lh: seq<nat>, at: seq<nat>, held: multiset<nat>)
      requires Shape() && Pinned(d, lh, at, held)
      ensures forall i, j :: 0 <= i < j < |at| ==> at[i] != at[j]
    {
      forall i, j | 0 <= i < j < |at| ensures at[i] != at[j] {
        assert Caches(at[i], d, lh[i]) && Caches(at[j], d, lh[j]);
      }
    }
  }
}
