/** The allocator itself: the code of umalloc.c, whose states are those of module Heap. */
module Umalloc {
  import opened Common
  import opened HeapList
  import opened Heap

  /** Nodes seen on the way round the ring from the one after f up to, not including, j. */
  predicate Seen(f: nat, j: nat, x: nat) { if j > f then f < x < j else x > f || x < j }

  /** Every node seen so far is too small for n units. */
  ghost predicate TooSmall(bs: seq<Blk>, f: nat, j: nat, n: nat) {
    forall x: nat :: x <= |bs| && Seen(f, j, x) ==> SizeAt(bs, x) < n
  }

  /** Nodes left to look at before the search is back at f. */
  function Ahead(bs: seq<Blk>, f: nat, j: nat): int { if j > f then |bs| + 1 - j + f else f - j }

  lemma PutDrop(live: map<nat, nat>, a: nat, n: nat)
    requires a !in live
    ensures live[a := n] - {a} == live
  {
  }

  function Pred(bs: seq<Blk>, j: nat): nat { if j > 0 then j - 1 else |bs| }

  lemma SameNode(bs: seq<Blk>, f: nat, j: nat)
    requires Spaced(bs) && f <= |bs| && j <= |bs| && Node(bs, f) == Node(bs, j)
    ensures f == j
  {
  }

  /** Once the search is back where it began, no block is large enough. */
  lemma NoneLeft(bs: seq<Blk>, f: nat, n: nat)
    requires f <= |bs| && TooSmall(bs, f, f, n) && SizeAt(bs, f) < n
    ensures !HasBlock(bs, n)
  {
    forall i | 0 <= i < |bs| ensures bs[i].size < n {
      var x: nat := i + 1;
      assert x != f ==> Seen(f, f, x);
      assert SizeAt(bs, x) < n;
    }
  }

  /** malloc's search for n units has come from node f, where freep points, to node j. */
  ghost predicate Searching(s: State, f: nat, j: nat, prevp: nat, p: nat, n: nat) {
    && f <= |s.bs| && j <= |s.bs| && s.freep == Node(s.bs, f) && p == Node(s.bs, j)
    && prevp == Node(s.bs, Pred(s.bs, j)) && At(s.mem, p).size == SizeAt(s.bs, j) && TooSmall(s.bs, f, j, n)
  }

  lemma SearchStarts(s: State, n: nat) returns (f: nat)
    requires Sound(s) && s.freep != 0
    ensures f <= |s.bs| && Searching(s, f, Succ(s.bs, f), s.freep, At(s.mem, s.freep).ptr, n)
  {
    f :| f <= |s.bs| && s.freep == Node(s.bs, f);
    ChainNode(s.mem, s.bs, f);
    ChainNode(s.mem, s.bs, Succ(s.bs, f));
  }

  lemma MovesOn(bs: seq<Blk>, f: nat, j: nat, n: nat)
    requires f <= |bs| && j <= |bs| && j != f && TooSmall(bs, f, j, n) && SizeAt(bs, j) < n
    ensures TooSmall(bs, f, Succ(bs, j), n) && 0 <= Ahead(bs, f, Succ(bs, j)) < Ahead(bs, f, j)
  {
    forall x: nat | x <= |bs| && Seen(f, Succ(bs, j), x) ensures SizeAt(bs, x) < n {
      assert x == j || Seen(f, j, x);
    }
  }

  lemma SearchMoves(s: State, f: nat, j: nat, prevp: nat, p: nat, n: nat)
    requires Sound(s) && s.freep != 0 && Searching(s, f, j, prevp, p, n) && At(s.mem, p).size < n && p != s.freep
    ensures Searching(s, f, Succ(s.bs, j), p, At(s.mem, p).ptr, n)
    ensures 0 <= Ahead(s.bs, f, Succ(s.bs, j)) < Ahead(s.bs, f, j)
  {
    MovesOn(s.bs, f, j, n);
    ChainNode(s.mem, s.bs, j);
    ChainNode(s.mem, s.bs, Succ(s.bs, j));
  }

  lemma SearchEnds(s: State, f: nat, j: nat, prevp: nat, p: nat, n: nat)
    requires Sound(s) && Searching(s, f, j, prevp, p, n) && At(s.mem, p).size < n && p == s.freep
    ensures !HasBlock(s.bs, n)
  {
    SameNode(s.bs, f, j);
    NoneLeft(s.bs, f, n);
  }

  lemma SearchFinds(s: State, f: nat, j: nat, prevp: nat, p: nat, n: nat)
    requires Sound(s) && Searching(s, f, j, prevp, p, n) && At(s.mem, p).size >= n >= 1
    ensures j >= 1 && prevp == Node(s.bs, j - 1) && p == s.bs[j - 1].addr && n <= s.bs[j - 1].size
    ensures HasBlock(s.bs, n)
  {
  }

  /** The units sbrk adds for a request. */
  function Grant(got: Option<nat>, nbytes: nat): set<nat> {
    if got.Some? then Range(got.value, CoreUnits(Nunits(nbytes))) else {}
  }

  function AtLeast(least: nat, n: nat): nat { if n < least then least else n }

  /** Where malloc ends: it returns header + 1, or null; or sbrk granted an amount that is not what morecore counts
      on. */
  datatype Outcome = Block(header: nat) | Null | Truncated

  class Allocator {
    var mem: Memory
    var freep: nat                    // 0 until the first malloc
    ghost var bs: seq<Blk>            // the free blocks, by address
    ghost var live: map<nat, nat>
    ghost var units: set<nat>         // everything obtained from sbrk

    ghost function Snap(): State
      reads this
    {
      State(mem, freep, bs, live, units)
    }

    constructor ()
      ensures Sound(Snap()) && live == map[] && units == {} && bs == []
    {
      mem, freep, bs, live, units := map[], 0, [], map[], {};
    }

    /** The search of free: it stops at the node below bp, whichever node it starts from. */
    method FindBelow(bp: nat) returns (p: nat, ghost k: nat)
      requires Sound(Snap()) && freep != 0 && bp > BASE && forall i :: 0 <= i < |bs| ==> bs[i].addr != bp
      ensures k <= |bs| && p == Node(bs, k) && (k > 0 ==> bs[k - 1].addr < bp) && (k < |bs| ==> bp < bs[k].addr)
    {
      p := freep;
      ghost var goal := Place(bs, bp);
      PlaceSplits(bs, bp);
      k :| k <= |bs| && p == Node(bs, k);
      ChainNode(mem, bs, k);
      while !(bp > p && bp < At(mem, p).ptr)
        invariant k <= |bs| && p == Node(bs, k) && At(mem, p).ptr == Node(bs, Succ(bs, k))
        decreases if k <= goal then goal - k else |bs| + 1 - k + goal
      {
        if p >= At(mem, p).ptr && (bp > p || bp < At(mem, p).ptr) {
          break;
        }
        p, k := At(mem, p).ptr, Succ(bs, k);
        ChainNode(mem, bs, k);
      }
    }

    method WriteUp(p: nat, bp: nat)
      modifies this`mem
      ensures mem == JoinUp(old(mem), p, bp)
    {
      var next := At(mem, p).ptr;
      if bp + At(mem, bp).size == next {
        mem := mem[bp := Header(At(mem, next).ptr, At(mem, bp).size + At(mem, next).size)];
      } else {
        mem := mem[bp := Header(next, At(mem, bp).size)];
      }
    }

    method WriteDown(p: nat, bp: nat)
      modifies this`mem
      ensures mem == JoinDown(old(mem), p, bp)
    {
      if p + At(mem, p).size == bp {
        mem := mem[p := Header(At(mem, bp).ptr, At(mem, p).size + At(mem, bp).size)];
      } else {
        mem := mem[p := Header(bp, At(mem, p).size)];
      }
    }

    /** The end of free, p being the node below bp. */
    method WriteFree(p: nat, bp: nat, ghost k: nat)
      requires bp in live && k <= |bs| && p == Node(bs, k)
      modifies this
      ensures Snap() == Freed(old(Snap()), bp, k)
    {
      WriteUp(p, bp);
      WriteDown(p, bp);
      freep := p;
      bs, live := Insert(bs, k, Blk(bp, live[bp])), live - {bp};
    }

    /** free: the block's units become free, joined to whichever neighbours are free; nothing inside a block still
        in use is written. */
    method Free(ap: nat)
      requires Sound(Snap()) && ap >= 1 && ap - 1 in live
      modifies this
      ensures Sound(Snap()) && freep != 0 && live == old(live) - {ap - 1} && units == old(units)
      ensures HasBlock(bs, old(live)[ap - 1]) && Untouched(old(mem), mem, live)
    {
      var bp := ap - 1;
      forall i | 0 <= i < |bs| ensures bs[i].addr != bp { NodeNotLive(units, bs, live, i + 1); }
      var p, k := FindBelow(bp);
      LiveFits(units, bs, live, bp, k);
      FreedSound(Snap(), bp, k);
      WriteFree(p, bp, k);
    }

    /** morecore: `got` is the address sbrk returns, none when it fails. */
    method Morecore(nunits: nat, got: Option<nat>) returns (p: nat)
      requires Sound(Snap()) && freep != 0
      requires (got.Some? ==> got.value > BASE && forall u :: u in units ==> u < got.value)
      modifies this
      ensures Sound(Snap()) && freep != 0 && live == old(live) && Untouched(old(mem), mem, live)
      ensures got.None? ==> p == 0 && unchanged(this)
      ensures got.Some? ==> p == freep && HasBlock(bs, nunits)
      ensures got.Some? ==> units == old(units) + Range(got.value, CoreUnits(nunits))
    {
      var nu := nunits;
      if nu < 4096 {
        nu := 4096;
      }
      if got.None? {
        return 0;
      }
      var hp := got.value;
      ghost var t := Grown(Snap(), hp, nu);
      GrownSound(Snap(), hp, nu);
      mem := mem[hp := Header(At(mem, hp).ptr, nu)];
      units, live := t.units, t.live;
      assert Snap() == t;
      Free(hp + 1);
      PutDrop(old(live), hp, nu);
      p := freep;
    }

    /** The end of malloc, p being a block that is large enough. */
    method WriteCut(prevp: nat, p: nat, n: nat, ghost i: nat) returns (q: nat)
      requires i < |bs| && prevp == Node(bs, i) && p == bs[i].addr && At(mem, p).size == bs[i].size >= n
      modifies this
      ensures Snap() == Taken(old(Snap()), i, n) && q == Piece(old(bs), i, n).addr
    {
      q := p;
      if At(mem, p).size == n {
        mem := mem[prevp := Header(At(mem, p).ptr, At(mem, prevp).size)];
      } else {
        mem := mem[p := Header(At(mem, p).ptr, At(mem, p).size - n)];
        q := p + At(mem, p).size;
        mem := mem[q := Header(At(mem, q).ptr, n)];
      }
      freep := prevp;
      bs, live := Cut(bs, i, n), live[q := n];
    }

    method Take(prevp: nat, p: nat, n: nat, ghost i: nat) returns (q: nat)
      requires Sound(Snap()) && freep != 0 && i < |bs| && prevp == Node(bs, i)
      requires p == bs[i].addr && 1 <= n <= bs[i].size
      modifies this
      ensures Sound(Snap()) && freep != 0 && q !in old(live) && live == old(live)[q := n]
      ensures units == old(units) && Untouched(old(mem), mem, old(live))
    {
      ChainNode(mem, bs, i + 1);
      TakenSound(Snap(), i, n);
      q := WriteCut(prevp, p, n, i);
    }

    /** The first malloc makes `base` the whole ring. */
    method Start()
      requires Sound(Snap())
      modifies this`mem, this`freep
      ensures Sound(Snap()) && freep != 0 && Untouched(old(mem), mem, live) && (old(freep) != 0 ==> unchanged(this))
    {
      if freep == 0 {
        mem := mem[BASE := Header(BASE, 0)];
        freep := BASE;
        assert Node(bs, 0) == BASE;
      }
    }

    /** malloc's call of morecore; the model stops where sbrk grants a truncated amount. */
    method Refill(nbytes: nat, got: Option<nat>) returns (p: nat)
      requires Sound(Snap()) && freep != 0 && nbytes < 0x1_0000_0000 && !HasBlock(bs, Nunits(nbytes))
      requires got.Some? ==> got.value > BASE && forall u :: u in units ==> u < got.value
      modifies this
      ensures Sound(Snap()) && freep != 0 && live == old(live) && Untouched(old(mem), mem, live)
      ensures p == 0 <==> got.None? || nbytes > 0x8000_0000 - 32
      ensures if p == 0 then unchanged(this) else p == freep && Stocked(old(bs), old(units), got, nbytes, 1)
    {
      SbrkExact(nbytes);
      var amount := CoreUnits(Nunits(nbytes)) * UNIT;
      if AsInt(amount) != amount && got.Some? {
        return 0;
      }
      p := Morecore(Nunits(nbytes), got);
      assert p != 0 ==> OnRing(bs, p);
    }

    /** Once round the ring from freep on: a block that fits, found exactly when there is one. */
    method Search(n: nat) returns (found: bool, prevp: nat, p: nat, ghost i: nat)
      requires Sound(Snap()) && freep != 0 && n >= 1
      ensures found <==> HasBlock(bs, n)
      ensures found ==> i < |bs| && prevp == Node(bs, i) && p == bs[i].addr && n <= bs[i].size
    {
      prevp := freep;
      p, i := At(mem, prevp).ptr, 0;
      ghost var s := Snap();
      ghost var f := SearchStarts(s, n);
      ghost var j := Succ(bs, f);
      while At(mem, p).size < n && p != freep
        invariant Searching(s, f, j, prevp, p, n)
        decreases Ahead(bs, f, j)
      {
        SearchMoves(s, f, j, prevp, p, n);
        j := Succ(bs, j);
        prevp := p;
        p := At(mem, p).ptr;
      }
      found := At(mem, p).size >= n;
      if found {
        SearchFinds(s, f, j, prevp, p, n);
        i := j - 1;
      } else {
        SearchEnds(s, f, j, prevp, p, n);
      }
    }

    /** malloc's loop: once round the ring, and once more after morecore if need be; the second search succeeds, so the
        loop needs no third. */
    method FindBlock(nbytes: nat, got: Option<nat>)
      returns (found: bool, prevp: nat, p: nat, ghost i: nat, ghost cores: nat)
      requires Sound(Snap()) && freep != 0 && nbytes < 0x1_0000_0000
      requires got.Some? ==> got.value > BASE && forall u :: u in units ==> u < got.value
      modifies this
      ensures Sound(Snap()) && freep != 0 && Untouched(old(mem), mem, live) && live == old(live)
      ensures found ==> i < |bs| && prevp == Node(bs, i) && p == bs[i].addr && Nunits(nbytes) <= bs[i].size
      ensures found ==> cores <= 1 && Stocked(old(bs), old(units), got, nbytes, cores) && HasBlock(bs, Nunits(nbytes))
      ensures !found ==> unchanged(this) && !HasBlock(bs, Nunits(nbytes)) && (got.None? || nbytes > 0x8000_0000 - 32)
    {
      cores := 0;
      found, prevp, p, i := Search(Nunits(nbytes));
      if !found {
        var more := Refill(nbytes, got);
        if more != 0 {
          cores := 1;
          found, prevp, p, i := Search(Nunits(nbytes));
        }
      }
    }

    /** malloc: a block of the requested size cut from a free block that is large enough. `got` is what sbrk would
        return; it is asked only if no free block will do. */
    method Malloc(nbytes: nat, got: Option<nat>) returns (r: Outcome, ghost cores: nat)
      requires Sound(Snap()) && nbytes < 0x1_0000_0000
      requires got.Some? ==> got.value > BASE && forall u :: u in units ==> u < got.value
      modifies this
      ensures Sound(Snap()) && Untouched(old(mem), mem, old(live))
      ensures r.Block? ==> r.header !in old(live) && live == old(live)[r.header := Nunits(nbytes)] && cores <= 1
      ensures r.Block? ==> nbytes <= UNIT * (live[r.header] - 1) < nbytes + UNIT
      ensures r.Block? && cores == 0 ==> units == old(units)
      ensures r.Block? && cores == 1 ==>
        got.Some? && units == old(units) + Range(got.value, AtLeast(4096, live[r.header]))
      ensures !r.Block? ==> live == old(live) && bs == old(bs) && units == old(units)
      ensures HasBlock(old(bs), Nunits(nbytes)) ==> r.Block? && cores == 0
      ensures !HasBlock(old(bs), Nunits(nbytes)) ==>
                if got.None? then r.Null? else if nbytes > 0x8000_0000 - 32 then r.Truncated?
                  else r.Block? && cores == 1
    {
      Start();
      var found, prevp, p;
      ghost var i;
      found, prevp, p, i, cores := FindBlock(nbytes, got);
      if found {
        var q := Take(prevp, p, Nunits(nbytes), i);
        PayloadFits(nbytes);
        r := Block(q);
      } else {
        r := if got.None? then Null else Truncated;
      }
    }

    /** Before morecore everything is as at the start; afterwards there is a block where there was none. */
    ghost predicate Stocked(bs0: seq<Blk>, units0: set<nat>, got: Option<nat>, nbytes: nat, cores: nat)
      reads this
    {
      if cores == 0 then units == units0 && bs == bs0
      else
        && got.Some? && units == units0 + Grant(got, nbytes) && nbytes <= 0x8000_0000 - 32
        && HasBlock(bs, Nunits(nbytes)) && !HasBlock(bs0, Nunits(nbytes))
    }
  }
}
