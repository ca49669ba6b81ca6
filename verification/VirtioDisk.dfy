/** The driver code of virtio_disk.c over its arrays; its effects are the driver's steps of module VirtioRing. */
module VirtioDisk {
  import opened Common
  import opened VirtioRing

  /** The free descriptors cleared. */
  function Scrubbed(free: seq<bool>, desc: seq<Desc>): (r: seq<Desc>)
    requires |free| == |desc|
    ensures |r| == |desc| && forall i :: 0 <= i < |r| ==> r[i] == if free[i] then ZERO else desc[i]
  {
    seq(|desc|, i requires 0 <= i < |desc| => if free[i] then ZERO else desc[i])
  }

  class Disk {
    const free: array<bool>
    const desc: array<Desc>
    const ops: array<Op>
    const info: array<Info>
    const slots: array<nat>   // avail->ring
    var idx: nat              // avail->idx
    var usedIdx: nat
    var busy: set<nat>        // buffers b with b->disk == 1

    ghost predicate Shape()
      reads this
    {
      && free.Length == desc.Length == ops.Length == info.Length == slots.Length == NUM
      && idx < WRAP && usedIdx < WRAP
    }

    ghost function Snap(): Driver
      reads this, free, desc, ops, info, slots
    {
      Driver(free[..], desc[..], ops[..], info[..], Ring(idx, slots[..]), usedIdx, busy)
    }

    constructor ()
      ensures Shape() && idx == 0 && usedIdx == 0 && busy == {}
      ensures forall i :: 0 <= i < NUM ==> free[i] && info[i].b.None?
    {
      free := new bool[NUM](_ => true);
      desc := new Desc[NUM](_ => ZERO);
      ops := new Op[NUM](_ => Op(false, 0));
      info := new Info[NUM](_ => Info(None, 0));
      slots := new nat[NUM](_ => 0);
      idx, usedIdx, busy := 0, 0, {};
    }

    method AllocDesc() returns (r: int)
      requires Shape()
      modifies free
      ensures r == -1 <==> FirstFree(old(free[..])) == NUM
      ensures r == -1 ==> free[..] == old(free[..])
      ensures r != -1 ==> r == FirstFree(old(free[..])) && free[..] == old(free[..])[r := false]
    {
      var i := 0;
      while i < NUM
        invariant 0 <= i <= NUM && free[..] == old(free[..]) && forall j :: 0 <= j < i ==> !free[j]
      {
        if free[i] {
          FirstAt(free[..], i);
          free[i] := false;
          return i;
        }
        i := i + 1;
      }
      FirstAt(free[..], NUM);
      r := -1;
    }

    /** free_desc; its panics are excluded by the callers. */
    method FreeDesc(i: nat)
      requires Shape() && i < NUM && !free[i]
      modifies free, desc
      ensures free[..] == old(free[..])[i := true] && desc[..] == old(desc[..])[i := ZERO]
    {
      desc[i] := ZERO;
      free[i] := true;
    }

    /** alloc3_desc: the first three free descriptors; or none, the flags as they were and the free ones cleared. */
    method Alloc3Desc() returns (ok: bool, i0: nat, i1: nat, i2: nat)
      requires Shape()
      modifies free, desc
      ensures ok <==> HasThree(old(free[..]))
      ensures ok ==> (i0, i1, i2) == Three(old(free[..])) && desc[..] == old(desc[..])
      ensures ok ==> free[..] == Without3(old(free[..]), i0, i1, i2)
      ensures !ok ==> free[..] == old(free[..]) && desc[..] == Scrubbed(old(free[..]), old(desc[..]))
    {
      i0, i1, i2 := 0, 0, 0;
      var a := AllocDesc();
      if a < 0 {
        return false, 0, 0, 0;
      }
      var b := AllocDesc();
      if b < 0 {
        FreeDesc(a);
        assert free[..] == old(free[..]);
        return false, 0, 0, 0;
      }
      var c := AllocDesc();
      if c < 0 {
        FreeDesc(a);
        FreeDesc(b);
        assert free[..] == old(free[..]);
        return false, 0, 0, 0;
      }
      return true, a, b, c;
    }

    /** The three descriptors of a request, and what the interrupt handler needs of it. */
    method Format(b: nat, write: bool, sector: nat, x: nat, y: nat, z: nat)
      requires Shape() && x < NUM && y < NUM && z < NUM && x != y && x != z && y != z
      modifies desc, ops, info
      ensures desc[..] == Formatted(old(desc[..]), b, Op(write, sector), x, y, z)
      ensures ops[..] == old(ops[..])[x := Op(write, sector)] && info[..] == old(info[..])[x := Info(Some(b), 0xff)]
    {
      ops[x] := Op(write, sector);
      desc[x] := Desc(Header(x), HEADER, false, true, y);
      desc[y] := Desc(Data(b), BSIZE, !write, true, z);
      info[x] := info[x].(status := 0xff);
      desc[z] := Desc(Status(x), 1, true, false, 0);
      info[x] := info[x].(b := Some(b));
    }

    /** The chain becomes the next entry of the avail ring. */
    method Publish(x: nat)
      requires Shape()
      modifies this`idx, slots
      ensures Shape() && idx == Inc(old(idx)) && slots[..] == old(slots[..])[old(idx) % NUM := x]
    {
      slots[idx % NUM] := x;
      idx := (idx + 1) % WRAP;
    }

    /** virtio_disk_rw up to the wait for the result, for buffer b of block blockno: false means sleeping for
        descriptors. */
    method Submit(b: nat, blockno: nat, write: bool) returns (ok: bool, ghost i0: nat, ghost i1: nat, ghost i2: nat)
      requires Shape()
      modifies this, free, desc, ops, info, slots
      ensures Shape() && (ok <==> HasThree(old(free[..])))
      ensures ok ==> (i0, i1, i2) == Three(old(free[..]))
      ensures ok ==> Snap() == SubmitDriver(old(Snap()), b, Op(write, Sector(blockno)), i0, i1, i2)
      ensures !ok ==> Snap() == old(Snap()).(desc := Scrubbed(old(free[..]), old(desc[..])))
    {
      var x, y, z;
      ok, x, y, z := Alloc3Desc();
      i0, i1, i2 := x, y, z;
      if ok {
        ThreeOk(old(free[..]));
        Format(b, write, blockno * (BSIZE / 512), x, y, z);
        busy := busy + {b};
        Publish(x);
      }
    }

    /** virtio_disk_intr: one round for every entry between used_idx and the device's index; false is a panic. */
    method Intr(used: Ring) returns (ok: bool, ghost n: nat)
      requires Shape() && |used.slots| == NUM && used.idx < WRAP
      modifies this`busy, this`usedIdx
      ensures Shape() && Snap() == Rounds(old(Snap()), used, n)
      ensures if ok then usedIdx == used.idx else RoundPanics(Snap(), used)
    {
      n := 0;
      while usedIdx != used.idx
        invariant Shape() && Snap() == Rounds(old(Snap()), used, n)
        decreases if usedIdx <= used.idx then used.idx - usedIdx else used.idx + WRAP - usedIdx
      {
        var id := used.slots[usedIdx % NUM];
        if id >= NUM || info[id].status != 0 || info[id].b.None? {
          return false, n;
        }
        busy := busy - {info[id].b.value};
        usedIdx := (usedIdx + 1) % WRAP;
        n := n + 1;
      }
      ok := true;
    }

    /** free_chain, following the next fields for as long as the flags say so. */
    method FreeChainFrom(head: nat)
      requires Shape() && !ChainPanics(free[..], desc[..], head, NUM)
      modifies free, desc
      ensures (free[..], desc[..]) == FreeChain(old(free[..]), old(desc[..]), head, NUM)
    {
      var i := head;
      ghost var n := NUM;
      while true
        invariant n > 0 && !ChainPanics(free[..], desc[..], i, n)
        invariant FreeChain(free[..], desc[..], i, n) == FreeChain(old(free[..]), old(desc[..]), head, NUM)
        decreases n
      {
        var d := desc[i];
        FreeDesc(i);
        if !d.more {
          break;
        }
        i, n := d.next, n - 1;
      }
    }

    /** virtio_disk_rw once b->disk is clear. */
    method Finish(head: nat)
      requires Shape() && head < NUM && !ChainPanics(free[..], desc[..], head, NUM)
      modifies free, desc, info
      ensures (free[..], desc[..]) == FreeChain(old(free[..]), old(desc[..]), head, NUM)
      ensures info[..] == old(info[..])[head := old(info[head]).(b := None)]
    {
      info[head] := info[head].(b := None);
      FreeChainFrom(head);
    }
  }

  predicate RoundPanics(v: Driver, used: Ring) {
    |v.info| == NUM && |used.slots| == NUM &&
    var id := used.slots[v.usedIdx % NUM];
    id >= NUM || v.info[id].status != 0 || v.info[id].b.None?
  }

  /** The driver after one round of the interrupt handler. */
  function Round(v: Driver, used: Ring): Driver {
    if |v.info| != NUM || |used.slots| != NUM || RoundPanics(v, used) then v
    else v.(busy := v.busy - {v.info[used.slots[v.usedIdx % NUM]].b.value}, usedIdx := Inc(v.usedIdx))
  }

  function Rounds(v: Driver, used: Ring, n: nat): Driver { if n == 0 then v else Round(Rounds(v, used, n - 1), used) }

  /** The machine's interrupt step is one round of the handler. */
  lemma RoundIsStep(s: State)
    requires CanIntr(s)
    ensures DoIntr(s).v == Round(s.v, s.d.used) && (IntrPanics(s) <==> RoundPanics(s.v, s.d.used))
  {
  }

  lemma {:induction false} FirstAt(free: seq<bool>, i: nat)
    requires i <= |free| && (i < |free| ==> free[i]) && forall j :: 0 <= j < i ==> !free[j]
    ensures FirstFree(free) == i
  {
  }
}
