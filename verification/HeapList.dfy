/**
 The free list of umalloc.c as a value: address-ordered blocks of header-sized units, and what
 inserting with coalescing and cutting a block do to it.
 */
module HeapList {

  datatype Blk = Blk(addr: nat, size: nat)

  function End(b: Blk): nat { b.addr + b.size }

  predicate In(b: Blk, u: nat) { b.addr <= u < End(b) }

  /** Unit u lies in one of the blocks. */
  ghost predicate Covers(bs: seq<Blk>, u: nat) { exists i :: 0 <= i < |bs| && In(bs[i], u) }

  /** Address of the static header `base`; it lies below the heap, and 0 is the null pointer. */
  const BASE: nat := 1

  predicate Good(b: Blk) { b.size >= 1 && b.addr > BASE }

  /** Ascending, disjoint, and no block ends where the next one begins. */
  ghost predicate Spaced(bs: seq<Blk>) {
    && (forall i :: 0 <= i < |bs| ==> Good(bs[i]))
    && (forall i, j :: 0 <= i < j < |bs| ==> End(bs[i]) < bs[j].addr)
  }

  // ---------- Insertion with coalescing ----------

  /** b in front of the blocks above it, joined to the first of them if they touch. */
  function Upper(b: Blk, rest: seq<Blk>): seq<Blk> {
    if |rest| > 0 && End(b) == rest[0].addr then [Blk(b.addr, b.size + rest[0].size)] + rest[1..] else [b] + rest
  }

  /** The blocks below in front of the list, its first block joined to the last of them if they touch. */
  function Lower(front: seq<Blk>, list: seq<Blk>): seq<Blk>
    requires |list| > 0
  {
    var k := |front| - 1;
    if k >= 0 && End(front[k]) == list[0].addr then front[..k] + [Blk(front[k].addr,
      front[k].size + list[0].size)] + list[1..]
    else front + list
  }

  /** b belongs at position k of the list. */
  predicate Fits(bs: seq<Blk>, k: nat, b: Blk) {
    && Good(b) && k <= |bs|
    && (k > 0 ==> End(bs[k - 1]) <= b.addr)
    && (k < |bs| ==> End(b) <= bs[k].addr)
  }

  function Insert(bs: seq<Blk>, k: nat, b: Blk): seq<Blk>
    requires k <= |bs|
  {
    Lower(bs[..k], Upper(b, bs[k..]))
  }

  lemma CoversConcat(a: seq<Blk>, b: seq<Blk>, u: nat)
    ensures Covers(a + b, u) <==> Covers(a, u) || Covers(b, u)
  {
    if Covers(a, u) {
      var i :| 0 <= i < |a| && In(a[i], u);
      assert In((a + b)[i], u);
    }
    if Covers(b, u) {
      var i :| 0 <= i < |b| && In(b[i], u);
      assert In((a + b)[|a| + i], u);
    }
  }

  lemma CoversOne(b: Blk, u: nat)
    ensures Covers([b], u) <==> In(b, u)
  {
    assert In(b, u) ==> In([b][0], u);
  }

  lemma UpperSpaced(b: Blk, rest: seq<Blk>)
    requires Good(b) && Spaced(rest) && (|rest| > 0 ==> End(b) <= rest[0].addr)
    ensures Spaced(Upper(b, rest)) && Upper(b, rest)[0].addr == b.addr
  {
  }

  lemma UpperCovers(b: Blk, rest: seq<Blk>, u: nat)
    ensures Covers(Upper(b, rest), u) <==> In(b, u) || Covers(rest, u)
  {
    CoversConcat([b], rest, u);
    CoversOne(b, u);
    if |rest| > 0 && End(b) == rest[0].addr {
      JoinCovers(b, rest[0], u);
      CoversConcat([b, rest[0]], rest[1..], u);
      CoversConcat([Blk(b.addr, b.size + rest[0].size)], rest[1..], u);
      assert [b] + rest == [b, rest[0]] + rest[1..];
    }
  }

  /** Two touching blocks cover what their join covers. */
  lemma JoinCovers(a: Blk, b: Blk, u: nat)
    requires End(a) == b.addr
    ensures Covers([a, b], u) <==> Covers([Blk(a.addr, a.size + b.size)], u)
  {
    CoversConcat([a], [b], u);
    CoversOne(a, u);
    CoversOne(b, u);
    CoversOne(Blk(a.addr, a.size + b.size), u);
    assert [a] + [b] == [a, b];
  }

  lemma LowerSpaced(front: seq<Blk>, list: seq<Blk>)
    requires Spaced(front) && Spaced(list) && |list| > 0 && (|front| > 0 ==> End(front[|front| - 1]) <= list[0].addr)
    ensures Spaced(Lower(front, list))
  {
    var k := |front| - 1;
    var low := Lower(front, list);
    if k >= 0 && End(front[k]) == list[0].addr {
      assert forall i :: 0 <= i < k ==> low[i] == front[i];
      assert forall i :: k < i < |low| ==> low[i] == list[i - k];
      assert End(low[k]) == End(list[0]);
    } else {
      assert forall i, j :: 0 <= i < |front| && 0 <= j < |list| ==>
        End(front[i]) <= End(front[k]) && list[0].addr <= list[j].addr;
    }
  }

  lemma LowerCovers(front: seq<Blk>, list: seq<Blk>, u: nat)
    requires |list| > 0
    ensures Covers(Lower(front, list), u) <==> Covers(front, u) || Covers(list, u)
  {
    var k := |front| - 1;
    CoversConcat(front, list, u);
    if k >= 0 && End(front[k]) == list[0].addr {
      var c := Blk(front[k].addr, front[k].size + list[0].size);
      var mid := [front[k], list[0]];
      JoinCovers(front[k], list[0], u);
      CoversConcat(front[..k] + [c], list[1..], u);
      CoversConcat(front[..k], [c], u);
      CoversConcat(front[..k] + mid, list[1..], u);
      CoversConcat(front[..k], mid, u);
      assert front + list == front[..k] + mid + list[1..];
    }
  }

  lemma InsertCovers(bs: seq<Blk>, k: nat, b: Blk, u: nat)
    requires Spaced(bs) && Fits(bs, k, b)
    ensures Covers(Insert(bs, k, b), u) <==> In(b, u) || Covers(bs, u)
  {
    var front, rest := bs[..k], bs[k..];
    assert bs == front + rest;
    CoversConcat(front, rest, u);
    UpperCovers(b, rest, u);
    LowerCovers(front, Upper(b, rest), u);
  }

  /** Freeing a block leaves a spaced list that covers its units besides the old ones, whichever neighbours it joins. */
  lemma InsertOk(bs: seq<Blk>, k: nat, b: Blk)
    requires Spaced(bs) && Fits(bs, k, b)
    ensures Spaced(Insert(bs, k, b))
    ensures forall u: nat :: Covers(Insert(bs, k, b), u) <==> In(b, u) || Covers(bs, u)
  {
    UpperSpaced(b, bs[k..]);
    LowerSpaced(bs[..k], Upper(b, bs[k..]));
    forall u: nat ensures Covers(Insert(bs, k, b), u) <==> In(b, u) || Covers(bs, u) {
      InsertCovers(bs, k, b, u);
    }
  }

  /** The block that b ends up in is at least as large, and no block has shrunk. */
  lemma InsertBig(bs: seq<Blk>, k: nat, b: Blk) returns (i: nat)
    requires k <= |bs|
    ensures i < |Insert(bs, k, b)| && Insert(bs, k, b)[i].size >= b.size
  {
    i := if k > 0 && End(bs[k - 1]) == b.addr then k - 1 else k;
  }

  /** Where the search of free stops: the number of blocks below address a. */
  function Place(bs: seq<Blk>, a: nat): (k: nat)
    ensures k <= |bs|
  {
    if |bs| == 0 || bs[0].addr >= a then 0 else 1 + Place(bs[1..], a)
  }

  lemma {:induction false} PlaceSplits(bs: seq<Blk>, a: nat)
    requires Spaced(bs)
    ensures forall i :: 0 <= i < |bs| ==> (bs[i].addr < a <==> i < Place(bs, a))
  {
    if |bs| > 0 && bs[0].addr < a {
      PlaceSplits(bs[1..], a);
      assert forall i :: 0 < i < |bs| ==> bs[i] == bs[1..][i - 1];
    }
  }

  // ---------- Cutting ----------

  /** The list after n units were taken from the top of block i. */
  function Cut(bs: seq<Blk>, i: nat, n: nat): seq<Blk>
    requires i < |bs| && n <= bs[i].size
  {
    if bs[i].size == n then bs[..i] + bs[i + 1..] else bs[i := Blk(bs[i].addr, bs[i].size - n)]
  }

  function Piece(bs: seq<Blk>, i: nat, n: nat): Blk
    requires i < |bs| && n <= bs[i].size
  {
    Blk(End(bs[i]) - n, n)
  }

  lemma InOnlyOne(bs: seq<Blk>, i: int, j: int, u: nat)
    requires Spaced(bs) && 0 <= i < |bs| && 0 <= j < |bs| && In(bs[i], u) && In(bs[j], u)
    ensures i == j
  {
  }

  lemma CutShrinks(bs: seq<Blk>, i: nat, n: nat, u: nat)
    requires Spaced(bs) && i < |bs| && 1 <= n <= bs[i].size && Covers(Cut(bs, i, n), u)
    ensures Covers(bs, u) && !In(Piece(bs, i, n), u)
  {
    var cut := Cut(bs, i, n);
    var j :| 0 <= j < |cut| && In(cut[j], u);
    var j' := if bs[i].size == n && j >= i then j + 1 else j;
    assert In(bs[j'], u);
    if In(Piece(bs, i, n), u) {
      InOnlyOne(bs, i, j', u);
    }
  }

  lemma CutKeeps(bs: seq<Blk>, i: nat, n: nat, u: nat)
    requires i < |bs| && 1 <= n <= bs[i].size && Covers(bs, u) && !In(Piece(bs, i, n), u)
    ensures Covers(Cut(bs, i, n), u)
  {
    var j :| 0 <= j < |bs| && In(bs[j], u);
    assert In(Cut(bs, i, n)[if bs[i].size == n && j > i then j - 1 else j], u);
  }

  /** malloc's cut leaves the rest of the free units free, and the list spaced. */
  lemma CutOk(bs: seq<Blk>, i: nat, n: nat)
    requires Spaced(bs) && i < |bs| && 1 <= n <= bs[i].size
    ensures Spaced(Cut(bs, i, n)) && Good(Piece(bs, i, n))
    ensures forall u: nat :: Covers(Cut(bs, i, n), u) <==> Covers(bs, u) && !In(Piece(bs, i, n), u)
  {
    forall u: nat ensures Covers(Cut(bs, i, n), u) <==> Covers(bs, u) && !In(Piece(bs, i, n), u) {
      if Covers(Cut(bs, i, n), u) {
        CutShrinks(bs, i, n, u);
      } else if Covers(bs, u) && !In(Piece(bs, i, n), u) {
        CutKeeps(bs, i, n, u);
      }
    }
  }
}
