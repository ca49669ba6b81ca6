/**
 malloc and free of umalloc.c. Addresses count header-sized units of 16 bytes; every header sits in
 the unit it describes.
 */
module Heap {
  import opened Common
  import opened HeapList

  datatype Header = Header(ptr: nat, size: nat)

  type Memory = map<nat, Header>

  function At(m: Memory, a: nat): Header { if a in m then m[a] else Header(0, 0) }

  function First(bs: seq<Blk>, last: nat): nat { if |bs| > 0 then bs[0].addr else last }

  /** The headers of the blocks hold their sizes and chain them in order, the last one pointing to `last`. */
  predicate Links(m: Memory, bs: seq<Blk>, last: nat) {
    |bs| == 0 || (At(m, bs[0].addr) == Header(First(bs[1..], last), bs[0].size) && Links(m, bs[1..], last))
  }

  /** The free list in memory: one ring through `base` and the blocks. */
  predicate Chain(m: Memory, bs: seq<Blk>) {
    At(m, BASE) == Header(First(bs, BASE), 0) && Links(m, bs, BASE)
  }

  lemma {:induction false} LinksSplit(m: Memory, a: seq<Blk>, b: seq<Blk>, last: nat)
    ensures Links(m, a + b, last) <==> Links(m, a, First(b, last)) && Links(m, b, last)
  {
    if |a| == 0 {
      assert a + b == b;
    } else {
      LinksSplit(m, a[1..], b, last);
      assert (a + b)[1..] == a[1..] + b;
    }
  }

  lemma {:induction false} LinksAt(m: Memory, bs: seq<Blk>, last: nat, i: nat)
    requires Links(m, bs, last) && i < |bs|
    ensures At(m, bs[i].addr) == Header(if i + 1 < |bs| then bs[i + 1].addr else last, bs[i].size)
  {
    if i > 0 {
      LinksAt(m, bs[1..], last, i - 1);
    }
  }

  /** Node 0 of the ring is `base`, node i the i-th block. */
  function Node(bs: seq<Blk>, i: nat): nat
    requires i <= |bs|
  {
    if i == 0 then BASE else bs[i - 1].addr
  }

  function SizeAt(bs: seq<Blk>, i: nat): nat
    requires i <= |bs|
  {
    if i == 0 then 0 else bs[i - 1].size
  }

  function Succ(bs: seq<Blk>, i: nat): nat
    requires i <= |bs|
  {
    if i < |bs| then i + 1 else 0
  }

  lemma ChainNode(m: Memory, bs: seq<Blk>, i: nat)
    requires Chain(m, bs) && i <= |bs|
    ensures At(m, Node(bs, i)) == Header(Node(bs, Succ(bs, i)), SizeAt(bs, i))
  {
    if i > 0 {
      LinksAt(m, bs, BASE, i - 1);
    }
  }

  // ---------- What free writes ----------

  /** bp takes over the link of p, joined to the next block if they touch. */
  function JoinUp(m: Memory, p: nat, bp: nat): Memory {
    var next := At(m, p).ptr;
    m[bp := if bp + At(m, bp).size == next then Header(At(m, next).ptr, At(m, bp).size + At(m, next).size)
            else Header(next, At(m, bp).size)]
  }

  /** p links to bp, or is joined to it if they touch. */
  function JoinDown(m: Memory, p: nat, bp: nat): Memory {
    m[p := if p + At(m, p).size == bp then Header(At(m, bp).ptr, At(m, p).size + At(m, bp).size)
           else Header(bp, At(m, p).size)]
  }

  /** No block starts at address a. */
  ghost predicate Avoids(bs: seq<Blk>, a: nat) { forall i :: 0 <= i < |bs| ==> bs[i].addr != a }

  lemma {:induction false} LinksFrame(m: Memory, bs: seq<Blk>, last: nat, a: nat, h: Header)
    requires Links(m, bs, last) && Avoids(bs, a)
    ensures Links(m[a := h], bs, last)
  {
    if |bs| > 0 {
      LinksFrame(m, bs[1..], last, a, h);
    }
  }

  lemma UpLinks(m: Memory, b: Blk, rest: seq<Blk>, front: seq<Blk>, p: nat)
    requires Spaced(rest) && Spaced(front) && Good(b) && (|rest| > 0 ==> End(b) <= rest[0].addr)
    requires |front| > 0 ==> End(front[|front| - 1]) <= b.addr
    requires Links(m, rest, BASE) && Links(m, front, First(rest, BASE))
    requires At(m, p).ptr == First(rest, BASE) && At(m, b.addr).size == b.size
    ensures var m' := JoinUp(m, p, b.addr);
      Links(m', Upper(b, rest), BASE) && Links(m', front, First(rest, BASE)) && At(m', BASE) == At(m, BASE)
  {
    var h := JoinUp(m, p, b.addr)[b.addr];
    LinksFrame(m, front, First(rest, BASE), b.addr, h);
    LinksFrame(m, rest, BASE, b.addr, h);
  }

  lemma DownBase(m: Memory, list: seq<Blk>)
    requires Spaced(list) && |list| > 0 && Links(m, list, BASE) && At(m, BASE).size == 0
    ensures Chain(JoinDown(m, BASE, list[0].addr), list)
  {
    LinksFrame(m, list, BASE, BASE, JoinDown(m, BASE, list[0].addr)[BASE]);
  }

  lemma ChainAppend(m: Memory, front: seq<Blk>, tail: seq<Blk>)
    requires At(m, BASE) == Header(First(front, First(tail, BASE)), 0)
    requires Links(m, front, First(tail, BASE)) && Links(m, tail, BASE)
    ensures Chain(m, front + tail)
  {
    LinksSplit(m, front, tail, BASE);
  }

  lemma LinksCons(m: Memory, x: Blk, rest: seq<Blk>, last: nat)
    ensures Links(m, [x] + rest, last) <==> At(m, x.addr) == Header(First(rest, last), x.size) && Links(m, rest, last)
  {
    assert ([x] + rest)[1..] == rest;
  }

  /** The block x below the list is linked or joined to it. */
  lemma DownTail(m: Memory, x: Blk, list: seq<Blk>)
    requires Avoids(list, x.addr) && |list| > 0 && Links(m, list, BASE) && At(m, x.addr).size == x.size
    ensures Links(JoinDown(m, x.addr, list[0].addr), Lower([x], list), BASE)
  {
    var m' := JoinDown(m, x.addr, list[0].addr);
    LinksFrame(m, list, BASE, x.addr, m'[x.addr]);
    if End(x) == list[0].addr {
      LinksCons(m', Blk(x.addr, x.size + list[0].size), list[1..], BASE);
      assert Lower([x], list) == [Blk(x.addr, x.size + list[0].size)] + list[1..];
    } else {
      LinksCons(m', x, list, BASE);
    }
  }

  lemma LowerLast(front: seq<Blk>, x: Blk, list: seq<Blk>)
    requires |list| > 0
    ensures Lower(front + [x], list) == front + Lower([x], list) && Lower([x], list)[0].addr == x.addr
  {
    var k, bs := |front|, front + [x];
    assert bs[..k] == front && bs[k] == x && [x][..0] == [];
    if End(x) == list[0].addr {
      var c := Blk(x.addr, x.size + list[0].size);
      assert front + [c] + list[1..] == front + ([c] + list[1..]);
      assert [] + [c] + list[1..] == [c] + list[1..];
    } else {
      assert bs + list == front + ([x] + list);
    }
  }

  lemma DownLinks(m: Memory, front: seq<Blk>, x: Blk, list: seq<Blk>)
    requires Avoids(front, x.addr) && Avoids(list, x.addr) && |list| > 0 && x.addr != BASE
    requires Links(m, list, BASE) && Links(m, front, x.addr) && At(m, BASE) == Header(First(front, x.addr), 0)
    requires At(m, x.addr).size == x.size
    ensures Chain(JoinDown(m, x.addr, list[0].addr), Lower(front + [x], list))
  {
    var m' := JoinDown(m, x.addr, list[0].addr);
    LinksFrame(m, front, x.addr, x.addr, m'[x.addr]);
    DownTail(m, x, list);
    LowerLast(front, x, list);
    ChainAppend(m', front, Lower([x], list));
  }

  lemma FreeUp(m: Memory, bs: seq<Blk>, k: nat, b: Blk)
    requires Spaced(bs) && Fits(bs, k, b) && Chain(m, bs) && At(m, b.addr).size == b.size
    ensures var m' := JoinUp(m, Node(bs, k), b.addr);
      Links(m', Upper(b, bs[k..]), BASE) && Links(m', bs[..k], First(bs[k..], BASE)) && At(m', BASE) == At(m, BASE)
  {
    var front, rest := bs[..k], bs[k..];
    ChainNode(m, bs, k);
    assert bs == front + rest;
    LinksSplit(m, front, rest, BASE);
    UpLinks(m, b, rest, front, Node(bs, k));
  }

  /** In all four cases the two header writes of free produce the list with the block inserted and joined. */
  lemma FreeLinks(m: Memory, bs: seq<Blk>, k: nat, b: Blk)
    requires Spaced(bs) && Fits(bs, k, b) && Chain(m, bs) && At(m, b.addr).size == b.size
    ensures Chain(JoinDown(JoinUp(m, Node(bs, k), b.addr), Node(bs, k), b.addr), Insert(bs, k, b))
  {
    FreeUp(m, bs, k, b);
    UpperSpaced(b, bs[k..]);
    var m' := JoinUp(m, Node(bs, k), b.addr);
    if k == 0 {
      DownBase(m', Upper(b, bs[k..]));
      InsertFront(bs, b);
    } else {
      FreeDown(m', bs, k, b);
    }
  }

  lemma InsertFront(bs: seq<Blk>, b: Blk)
    ensures Insert(bs, 0, b) == Upper(b, bs[0..])
  {
    assert Lower([], Upper(b, bs[0..])) == Upper(b, bs[0..]);
  }

  lemma FreeDown(m: Memory, bs: seq<Blk>, k: nat, b: Blk)
    requires Spaced(bs) && Fits(bs, k, b) && k > 0 && Spaced(Upper(b, bs[k..])) && Upper(b, bs[k..])[0].addr == b.addr
    requires Links(m, Upper(b, bs[k..]), BASE) && Links(m, bs[..k], First(bs[k..], BASE))
    requires At(m, BASE) == Header(First(bs, BASE), 0)
    ensures Chain(JoinDown(m, bs[k - 1].addr, b.addr), Insert(bs, k, b))
  {
    var front, x, list := bs[..k - 1], bs[k - 1], Upper(b, bs[k..]);
    assert bs[..k] == front + [x];
    LinksSplit(m, front, [x], First(bs[k..], BASE));
    assert forall i :: 0 <= i < |list| ==> list[i].addr >= list[0].addr;
    DownLinks(m, front, x, list);
  }

  // ---------- What malloc writes ----------

  /** prevp skips a block that fits exactly; otherwise p keeps its lower part and a new header marks the upper one. */
  function CutMem(m: Memory, prevp: nat, p: nat, n: nat): Memory {
    if At(m, p).size <= n then m[prevp := Header(At(m, p).ptr, At(m, prevp).size)]
    else
      var q := p + At(m, p).size - n;
      m[p := Header(At(m, p).ptr, At(m, p).size - n)][q := Header(At(m, q).ptr, n)]
  }

  lemma SkipLinks(m: Memory, front: seq<Blk>, x: Blk, rest: seq<Blk>, p: nat)
    requires At(m, BASE) == Header(First(front, x.addr), 0) && Links(m, front, x.addr)
    requires At(m, x.addr) == Header(First(rest, BASE), x.size) && Links(m, rest, BASE)
    requires p == (if |front| == 0 then BASE else front[|front| - 1].addr) && Avoids(rest, p) && Avoids(front, BASE)
    requires Avoids(front[..if |front| == 0 then 0 else |front| - 1], p)
    ensures Chain(CutMem(m, p, x.addr, x.size), front + rest)
  {
    var m' := CutMem(m, p, x.addr, x.size);
    LinksFrame(m, rest, BASE, p, m'[p]);
    if |front| > 0 {
      var f, y := front[..|front| - 1], front[|front| - 1];
      assert front == f + [y];
      LinksSplit(m, f, [y], x.addr);
      LinksFrame(m, f, y.addr, p, m'[p]);
      LinksSplit(m', f, [y], First(rest, BASE));
    }
    LinksSplit(m', front, rest, BASE);
  }

  /** Two header writes outside the blocks. */
  lemma LinksFrame2(m: Memory, bs: seq<Blk>, last: nat, a: nat, h: Header, q: nat, g: Header)
    requires Links(m, bs, last) && Avoids(bs, a) && Avoids(bs, q)
    ensures Links(m[a := h][q := g], bs, last)
  {
    LinksFrame(m, bs, last, a, h);
    LinksFrame(m[a := h], bs, last, q, g);
  }

  lemma ShrinkLinks(m: Memory, front: seq<Blk>, x: Blk, rest: seq<Blk>, p: nat, n: nat, q: nat)
    requires At(m, BASE) == Header(First(front, x.addr), 0) && Links(m, front, x.addr)
    requires At(m, x.addr) == Header(First(rest, BASE), x.size) && Links(m, rest, BASE)
    requires 1 <= n < x.size && q == End(x) - n && x.addr > BASE
    requires Avoids(front, x.addr) && Avoids(front, q) && Avoids(rest, x.addr) && Avoids(rest, q)
    ensures Chain(CutMem(m, p, x.addr, n), front + ([Blk(x.addr, x.size - n)] + rest))
  {
    var y, h, g := Blk(x.addr, x.size - n), Header(At(m, x.addr).ptr, x.size - n), Header(At(m, q).ptr, n);
    LinksFrame2(m, rest, BASE, x.addr, h, q, g);
    LinksFrame2(m, front, x.addr, x.addr, h, q, g);
    var m' := m[x.addr := h][q := g];
    LinksCons(m', y, rest, BASE);
    ChainAppend(m', front, [y] + rest);
  }

  lemma SpacedAt(bs: seq<Blk>, i: nat, a: nat)
    requires Spaced(bs) && i < |bs| && In(bs[i], a)
    ensures Avoids(bs[..i], a) && Avoids(bs[i + 1..], a)
  {
  }

  lemma SpacedNode(bs: seq<Blk>, i: nat)
    requires Spaced(bs) && i < |bs|
    ensures Avoids(bs[i + 1..], Node(bs, i)) && Avoids(bs[..i], BASE)
    ensures (i > 0 ==> Avoids(bs[..i][..i - 1], Node(bs, i)))
  {
  }

  lemma ChainAround(m: Memory, bs: seq<Blk>, i: nat)
    requires Chain(m, bs) && i < |bs|
    ensures At(m, BASE) == Header(First(bs[..i], bs[i].addr), 0) && Links(m, bs[..i], bs[i].addr)
    ensures At(m, bs[i].addr) == Header(First(bs[i + 1..], BASE), bs[i].size) && Links(m, bs[i + 1..], BASE)
  {
    assert bs == bs[..i] + ([bs[i]] + bs[i + 1..]);
    LinksSplit(m, bs[..i], [bs[i]] + bs[i + 1..], BASE);
    LinksCons(m, bs[i], bs[i + 1..], BASE);
  }

  lemma CutLinks(m: Memory, bs: seq<Blk>, i: nat, n: nat)
    requires Spaced(bs) && Chain(m, bs) && i < |bs| && 1 <= n <= bs[i].size
    ensures Chain(CutMem(m, Node(bs, i), bs[i].addr, n), Cut(bs, i, n))
    ensures At(CutMem(m, Node(bs, i), bs[i].addr, n), Piece(bs, i, n).addr).size == n
  {
    var front, x, rest := bs[..i], bs[i], bs[i + 1..];
    ChainAround(m, bs, i);
    if n == x.size {
      SpacedNode(bs, i);
      SkipLinks(m, front, x, rest, Node(bs, i));
    } else {
      SpacedAt(bs, i, x.addr);
      SpacedAt(bs, i, End(x) - n);
      ShrinkLinks(m, front, x, rest, Node(bs, i), n, End(x) - n);
      CutPart(bs, i, n);
    }
  }

  lemma CutPart(bs: seq<Blk>, i: nat, n: nat)
    requires i < |bs| && n < bs[i].size
    ensures Cut(bs, i, n) == bs[..i] + ([Blk(bs[i].addr, bs[i].size - n)] + bs[i + 1..])
  {
  }

  // ---------- Units ----------

  /** Unit u lies in a block handed out by malloc and not freed since; `live` maps block addresses to sizes. */
  ghost predicate InLive(live: map<nat, nat>, u: nat) { exists a :: a in live && In(Blk(a, live[a]), u) }

  ghost predicate LiveApart(live: map<nat, nat>) {
    && (forall a :: a in live ==> Good(Blk(a, live[a])))
    && (forall a, b :: a in live && b in live && a < b ==> a + live[a] <= b)
  }

  /** Every unit obtained from sbrk is in exactly one block, free or live. */
  ghost predicate Partition(units: set<nat>, bs: seq<Blk>, live: map<nat, nat>) {
    && LiveApart(live)
    && (forall u: nat :: u in units <==> Covers(bs, u) || InLive(live, u))
    && (forall u: nat :: !(Covers(bs, u) && InLive(live, u)))
  }

  lemma LiveOne(live: map<nat, nat>, a: nat, b: nat, u: nat)
    requires LiveApart(live) && a in live && b in live && In(Blk(a, live[a]), u) && In(Blk(b, live[b]), u)
    ensures a == b
  {
  }

  /** A live block has its place between two free ones. */
  lemma LiveFits(units: set<nat>, bs: seq<Blk>, live: map<nat, nat>, a: nat, k: nat)
    requires Spaced(bs) && Partition(units, bs, live) && a in live && k <= |bs|
    requires (k > 0 ==> bs[k - 1].addr < a) && (k < |bs| ==> a < bs[k].addr)
    ensures Fits(bs, k, Blk(a, live[a]))
  {
    var b := Blk(a, live[a]);
    assert In(b, a) && InLive(live, a);
    assert k > 0 && In(bs[k - 1], a) ==> Covers(bs, a);
    if k < |bs| {
      var u := bs[k].addr;
      assert In(bs[k], u) && Covers(bs, u);
      assert In(b, u) ==> InLive(live, u);
    }
  }

  lemma LessLive(live: map<nat, nat>, a: nat, u: nat)
    requires LiveApart(live) && a in live
    ensures InLive(live - {a}, u) <==> InLive(live, u) && !In(Blk(a, live[a]), u)
  {
    if InLive(live, u) && !In(Blk(a, live[a]), u) {
      var b :| b in live && In(Blk(b, live[b]), u);
      assert b in live - {a};
    }
    if InLive(live - {a}, u) {
      var b :| b in live - {a} && In(Blk(b, live[b]), u);
      if In(Blk(a, live[a]), u) {
        LiveOne(live, a, b, u);
      }
    }
  }

  lemma FreeParts(units: set<nat>, bs: seq<Blk>, live: map<nat, nat>, a: nat, k: nat)
    requires Spaced(bs) && Partition(units, bs, live) && a in live && Fits(bs, k, Blk(a, live[a]))
    ensures Spaced(Insert(bs, k, Blk(a, live[a]))) && Partition(units, Insert(bs, k, Blk(a, live[a])), live - {a})
  {
    var b := Blk(a, live[a]);
    InsertOk(bs, k, b);
    forall u: nat ensures InLive(live - {a}, u) <==> InLive(live, u) && !In(b, u) {
      LessLive(live, a, u);
    }
    assert forall u: nat :: In(b, u) ==> InLive(live, u);
  }

  lemma MoreLive(live: map<nat, nat>, a: nat, n: nat, u: nat)
    requires a !in live
    ensures InLive(live[a := n], u) <==> InLive(live, u) || In(Blk(a, n), u)
  {
    var live' := live[a := n];
    if InLive(live, u) {
      var b :| b in live && In(Blk(b, live[b]), u);
      assert b in live' && In(Blk(b, live'[b]), u);
    }
    if In(Blk(a, n), u) {
      assert In(Blk(a, live'[a]), u);
    }
  }

  /** A block of unused units can become live. */
  lemma AddLive(live: map<nat, nat>, a: nat, n: nat)
    requires LiveApart(live) && Good(Blk(a, n)) && forall u: nat :: In(Blk(a, n), u) ==> !InLive(live, u)
    ensures a !in live && LiveApart(live[a := n])
  {
    assert In(Blk(a, n), a);
    assert a in live && In(Blk(a, live[a]), a) ==> InLive(live, a);
    forall b | b in live ensures b + live[b] <= a || a + n <= b {
      var u := if a <= b then b else a;
      assert In(Blk(b, live[b]), u) ==> InLive(live, u);
      assert In(Blk(a, n), u) ==> !InLive(live, u);
    }
  }

  lemma CutParts(units: set<nat>, bs: seq<Blk>, live: map<nat, nat>, i: nat, n: nat)
    requires Spaced(bs) && Partition(units, bs, live) && i < |bs| && 1 <= n <= bs[i].size
    ensures var p := Piece(bs, i, n);
      p.addr !in live && Spaced(Cut(bs, i, n)) && Partition(units, Cut(bs, i, n), live[p.addr := n])
  {
    var p := Piece(bs, i, n);
    CutOk(bs, i, n);
    forall u: nat ensures In(p, u) ==> Covers(bs, u) {
      assert In(p, u) ==> In(bs[i], u);
    }
    AddLive(live, p.addr, n);
    forall u: nat ensures InLive(live[p.addr := n], u) <==> InLive(live, u) || In(p, u) {
      MoreLive(live, p.addr, n, u);
    }
  }

  /** Fresh units from sbrk, as a block that morecore then frees. */
  lemma GrowParts(units: set<nat>, bs: seq<Blk>, live: map<nat, nat>, a: nat, n: nat)
    requires Partition(units, bs, live) && n >= 1 && a > BASE && forall u :: u in units ==> u < a
    ensures a !in live && Partition(units + Range(a, n), bs, live[a := n])
  {
    forall u: nat ensures In(Blk(a, n), u) ==> !InLive(live, u) && !Covers(bs, u) {
      assert u in units ==> u < a;
    }
    AddLive(live, a, n);
    forall u: nat ensures InLive(live[a := n], u) <==> InLive(live, u) || In(Blk(a, n), u) {
      MoreLive(live, a, n, u);
    }
  }

  function Range(a: nat, n: nat): set<nat> { set u: nat | a <= u < a + n && In(Blk(a, n), u) }

  /** The nodes of the ring lie outside the live blocks. */
  lemma NodeNotLive(units: set<nat>, bs: seq<Blk>, live: map<nat, nat>, k: nat)
    requires Spaced(bs) && Partition(units, bs, live) && k <= |bs|
    ensures !InLive(live, Node(bs, k)) && Node(bs, k) !in live
  {
    var p := Node(bs, k);
    assert k > 0 && In(bs[k - 1], p) ==> Covers(bs, p);
    assert p in live && In(Blk(p, live[p]), p) ==> InLive(live, p);
  }

  lemma InsertNode(bs: seq<Blk>, k: nat, b: Blk)
    requires k <= |bs|
    ensures k <= |Insert(bs, k, b)| && Node(Insert(bs, k, b), k) == Node(bs, k)
  {
  }

  // ---------- States of the allocator ----------

  /** Memory, freep (0 until the first malloc), the free blocks by address, the live ones, and all units from sbrk. */
  datatype State = State(mem: Memory, freep: nat, bs: seq<Blk>, live: map<nat, nat>, units: set<nat>)

  ghost predicate Headers(m: Memory, live: map<nat, nat>) { forall a :: a in live ==> At(m, a).size == live[a] }

  ghost predicate OnRing(bs: seq<Blk>, p: nat) { exists i: nat :: i <= |bs| && p == Node(bs, i) }

  /** One address-ordered ring of free blocks, no two adjacent; free and live blocks partition the units. */
  ghost predicate Sound(s: State) {
    && Spaced(s.bs) && Partition(s.units, s.bs, s.live) && Headers(s.mem, s.live)
    && if s.freep == 0 then s.bs == [] && s.live == map[] else Chain(s.mem, s.bs) && OnRing(s.bs, s.freep)
  }

  /** Nothing inside the live blocks was written. */
  ghost predicate Untouched(m: Memory, m': Memory, live: map<nat, nat>) {
    forall u: nat :: InLive(live, u) ==> At(m', u) == At(m, u)
  }

  lemma HeadersKept(m: Memory, m': Memory, live: map<nat, nat>)
    requires LiveApart(live) && Headers(m, live) && Untouched(m, m', live)
    ensures Headers(m', live)
  {
    forall a | a in live ensures At(m', a).size == live[a] {
      assert In(Blk(a, live[a]), a) && InLive(live, a);
    }
  }

  /** State after free has found the place of bp. */
  function Freed(s: State, bp: nat, k: nat): State
    requires bp in s.live && k <= |s.bs|
  {
    var p := Node(s.bs, k);
    State(JoinDown(JoinUp(s.mem, p, bp), p, bp), p, Insert(s.bs, k, Blk(bp, s.live[bp])), s.live - {bp}, s.units)
  }

  lemma FreedUntouched(s: State, bp: nat, k: nat)
    requires Sound(s) && bp in s.live && k <= |s.bs|
    ensures Untouched(s.mem, Freed(s, bp, k).mem, s.live - {bp})
  {
    NodeNotLive(s.units, s.bs, s.live, k);
    forall u: nat | InLive(s.live - {bp}, u) ensures u != bp && u != Node(s.bs, k) {
      LessLive(s.live, bp, u);
      assert In(Blk(bp, s.live[bp]), bp);
    }
  }

  lemma FreedSound(s: State, bp: nat, k: nat)
    requires Sound(s) && s.freep != 0 && bp in s.live && Fits(s.bs, k, Blk(bp, s.live[bp]))
    ensures Sound(Freed(s, bp, k)) && Untouched(s.mem, Freed(s, bp, k).mem, s.live - {bp})
    ensures HasBlock(Freed(s, bp, k).bs, s.live[bp])
  {
    var b := Blk(bp, s.live[bp]);
    FreeLinks(s.mem, s.bs, k, b);
    FreeParts(s.units, s.bs, s.live, bp, k);
    InsertNode(s.bs, k, b);
    FreedUntouched(s, bp, k);
    HeadersKept(s.mem, Freed(s, bp, k).mem, s.live - {bp});
    var i := InsertBig(s.bs, k, b);
  }

  ghost predicate HasBlock(bs: seq<Blk>, n: nat) { exists i :: 0 <= i < |bs| && bs[i].size >= n }

  /** State after sbrk has granted nu units at a, which morecore marks as a block of that size. */
  function Grown(s: State, a: nat, nu: nat): State {
    State(s.mem[a := Header(At(s.mem, a).ptr, nu)], s.freep, s.bs, s.live[a := nu], s.units + Range(a, nu))
  }

  lemma {:induction false} LinksBelow(m: Memory, bs: seq<Blk>, last: nat, a: nat, h: Header, units: set<nat>)
    requires Links(m, bs, last) && Spaced(bs)
    requires (forall u: nat :: Covers(bs, u) ==> u in units) && forall u :: u in units ==> u < a
    ensures Links(m[a := h], bs, last)
  {
    forall i | 0 <= i < |bs| ensures bs[i].addr != a {
      assert In(bs[i], bs[i].addr) && Covers(bs, bs[i].addr);
    }
    LinksFrame(m, bs, last, a, h);
  }

  lemma GrownUntouched(s: State, a: nat, nu: nat)
    requires Partition(s.units, s.bs, s.live) && forall u :: u in s.units ==> u < a
    ensures Untouched(s.mem, Grown(s, a, nu).mem, s.live)
  {
    assert InLive(s.live, a) ==> a in s.units;
  }

  lemma GrownSound(s: State, a: nat, nu: nat)
    requires Sound(s) && s.freep != 0 && nu >= 1 && a > BASE && forall u :: u in s.units ==> u < a
    ensures Sound(Grown(s, a, nu)) && a !in s.live && Untouched(s.mem, Grown(s, a, nu).mem, s.live)
  {
    GrowParts(s.units, s.bs, s.live, a, nu);
    LinksBelow(s.mem, s.bs, BASE, a, Header(At(s.mem, a).ptr, nu), s.units);
    GrownUntouched(s, a, nu);
    HeadersKept(s.mem, Grown(s, a, nu).mem, s.live);
  }

  /** State after malloc took n units from free block i. */
  function Taken(s: State, i: nat, n: nat): State
    requires i < |s.bs| && n <= s.bs[i].size
  {
    State(CutMem(s.mem, Node(s.bs, i), s.bs[i].addr, n), Node(s.bs, i), Cut(s.bs, i, n),
          s.live[Piece(s.bs, i, n).addr := n], s.units)
  }

  lemma TakenUntouched(s: State, i: nat, n: nat)
    requires Sound(s) && i < |s.bs| && 1 <= n <= s.bs[i].size && At(s.mem, s.bs[i].addr).size == s.bs[i].size
    ensures Untouched(s.mem, Taken(s, i, n).mem, s.live)
  {
    NodeNotLive(s.units, s.bs, s.live, i);
    NodeNotLive(s.units, s.bs, s.live, i + 1);
    var q := Piece(s.bs, i, n).addr;
    assert In(s.bs[i], q) && Covers(s.bs, q);
    var m' := Taken(s, i, n).mem;
    assert forall u: nat :: u != Node(s.bs, i) && u != s.bs[i].addr && u != q ==> At(m', u) == At(s.mem, u);
  }

  lemma CutNode(bs: seq<Blk>, i: nat, n: nat)
    requires i < |bs| && n <= bs[i].size
    ensures i <= |Cut(bs, i, n)| && Node(Cut(bs, i, n), i) == Node(bs, i)
  {
  }

  lemma TakenSound(s: State, i: nat, n: nat)
    requires Sound(s) && s.freep != 0 && i < |s.bs| && 1 <= n <= s.bs[i].size
    ensures Sound(Taken(s, i, n)) && Piece(s.bs, i, n).addr !in s.live && Untouched(s.mem, Taken(s, i, n).mem, s.live)
  {
    CutParts(s.units, s.bs, s.live, i, n);
    CutLinks(s.mem, s.bs, i, n);
    CutNode(s.bs, i, n);
    ChainNode(s.mem, s.bs, i + 1);
    TakenUntouched(s, i, n);
    HeadersKept(s.mem, Taken(s, i, n).mem, s.live);
  }

  // ---------- Requests ----------

  const UNIT: nat := 16   // sizeof(Header)

  /** Units malloc takes for a request: the payload rounded up, and a header. */
  function Nunits(nbytes: nat): nat { (nbytes + UNIT - 1) / UNIT + 1 }

  /** The units after the header hold the request, and one unit fewer would not. */
  lemma PayloadFits(nbytes: nat)
    ensures nbytes <= UNIT * (Nunits(nbytes) - 1) < nbytes + UNIT
  {
  }

  /** The least morecore asks for. */
  function CoreUnits(nu: nat): nat { if nu < 4096 then 4096 else nu }

  /** Conversion of an unsigned amount to the int that sbrk takes. */
  function AsInt(n: nat): int {
    var r := n % 0x1_0000_0000;
    if r < 0x8000_0000 then r else r - 0x1_0000_0000
  }

  /** sbrk is asked for what morecore needs exactly when the request is at most 2^31 - 32 bytes. */
  lemma SbrkExact(nbytes: nat)
    requires nbytes < 0x1_0000_0000
    ensures AsInt(CoreUnits(Nunits(nbytes)) * UNIT) == CoreUnits(Nunits(nbytes)) * UNIT <==> nbytes <= 0x8000_0000 - 32
  {
  }

  /** The largest request asks sbrk for a single unit and takes itself to have got 2^28 + 1 of them. */
  lemma SbrkTruncates()
    ensures AsInt(CoreUnits(Nunits(0xFFFF_FFFF)) * UNIT) == UNIT && Nunits(0xFFFF_FFFF) == 0x1000_0001
  {
  }
}
