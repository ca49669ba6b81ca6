/** The file layer of fs.c and file.c: block allocation, bmap, itrunc, readi, writei and filewrite. */
module Fs {
  import opened Common
  import opened FsBlocks

  const BPB: nat := BSIZE * 8
  const IPB: nat := 16

  /** What the log has to carry to the disk. */
  datatype Media = Media(blocks: seq<Block>, bitmap: seq<bool>, inodes: seq<Inode>)

  /** One transaction: what was there before and after, and the blocks passed to log_write. */
  datatype Txn = Txn(before: Media, after: Media, logged: set<nat>)

  class Fs {
    const nblocks: nat      // sb.size
    const dataStart: nat    // first block after the bitmap
    const bmapStart: nat
    const inodeStart: nat
    const maxOp: nat        // MAXOPBLOCKS

    var bitmap: seq<bool>
    var blocks: seq<Block>
    var inodes: seq<Inode>
    /** Blocks passed to log_write since begin_op, and whether some call found the whole reservation spent. */
    var logged: set<nat>
    var overBudget: bool

    ghost var owner: map<nat, (nat, nat)>

    ghost function Snap(): View
      reads this
    {
      View(blocks, inodes, owner)
    }

    ghost predicate Layout()
      reads this
    {
      && 0 < dataStart <= nblocks < UINT
      && |bitmap| == |blocks| == nblocks
      && Shaped(blocks, inodes)
    }

    /** A bit is set exactly when its block is metadata or has its one owner. */
    ghost predicate BitmapOk()
      reads this
      requires Layout()
    {
      && (forall b :: b in owner ==> dataStart <= b < nblocks)
      && (forall b :: 0 <= b < nblocks ==> (bitmap[b] <==> b < dataStart || b in owner))
    }

    ghost predicate Valid()
      reads this
    {
      Layout() && Sound(Snap()) && BitmapOk()
    }

    /** No block is free. */
    ghost predicate Full()
      reads this
    {
      forall b :: 0 <= b < |bitmap| ==> bitmap[b]
    }

    function BBlock(b: nat): nat { b / BPB + bmapStart }

    function IBlock(i: nat): nat { i / IPB + inodeStart }

    /** A fresh file system: only metadata is in use, and every inode is as ialloc leaves it. */
    constructor (nblocks: nat, dataStart: nat, bmapStart: nat, inodeStart: nat, ninodes: nat, maxOp: nat)
      requires 0 < dataStart <= nblocks < UINT
      ensures Valid() && this.maxOp == maxOp && |inodes| == ninodes
      ensures forall i :: 0 <= i < ninodes ==> inodes[i].size == 0
    {
      this.nblocks, this.dataStart, this.bmapStart, this.inodeStart := nblocks, dataStart, bmapStart, inodeStart;
      this.maxOp := maxOp;
      bitmap := seq(nblocks, b => b < dataStart);
      blocks := seq(nblocks, _ => Zeros());
      inodes := seq(ninodes, _ => Inode(seq(NDIRECT + 1, _ => 0), 0));
      logged, overBudget := {}, false;
      owner := map[];
    }

    /** What log_write may do to the accounting: remember blocks, and report a call made with nothing left. */
    twostate predicate Charged()
      reads this
    {
      old(logged) <= logged && (overBudget ==> old(overBudget) || |logged| >= maxOp)
    }

    method LogWrite(b: nat)
      modifies this`logged, this`overBudget
      ensures logged == old(logged) + {b} && Charged()
      ensures overBudget <==> old(overBudget) || |old(logged)| >= maxOp
    {
      overBudget := overBudget || |logged| >= maxOp;
      SubsetSize(logged, logged + {b});
      logged := logged + {b};
    }

    // ---------- What changes is logged ----------

    ghost function Now(): Media
      reads this
    {
      Media(blocks, bitmap, inodes)
    }

    /** Every block and every bitmap block that differs between a and b is in the log. */
    ghost predicate Recorded(a: Media, b: Media, logged: set<nat>) {
      && |b.blocks| == |a.blocks| && |b.bitmap| == |a.bitmap|
      && (forall x :: 0 <= x < |a.blocks| && b.blocks[x] != a.blocks[x] ==> x in logged)
      && (forall x :: 0 <= x < |a.bitmap| && b.bitmap[x] != a.bitmap[x] ==> BBlock(x) in logged)
    }

    lemma RecordedTrans(a: Media, b: Media, c: Media, logged: set<nat>, more: set<nat>)
      requires Recorded(a, b, logged) && Recorded(b, c, more) && logged <= more
      ensures Recorded(a, c, more)
    {
      forall x | 0 <= x < |a.blocks| && c.blocks[x] != a.blocks[x] ensures x in more {
        assert b.blocks[x] != a.blocks[x] || c.blocks[x] != b.blocks[x];
      }
      forall x | 0 <= x < |a.bitmap| && c.bitmap[x] != a.bitmap[x] ensures BBlock(x) in more {
        assert b.bitmap[x] != a.bitmap[x] || c.bitmap[x] != b.bitmap[x];
      }
    }

    lemma RecordedBlock(a: Media, x: nat, block: Block, logged: set<nat>)
      requires x < |a.blocks| && x in logged
      ensures Recorded(a, a.(blocks := a.blocks[x := block]), logged)
    {
    }

    lemma RecordedInodes(a: Media, b: Media, logged: set<nat>)
      requires a.blocks == b.blocks && a.bitmap == b.bitmap
      ensures Recorded(a, b, logged)
    {
    }

    /** And every inode that differs has its block in the log. */
    ghost predicate AllRecorded(t: Txn) {
      && Recorded(t.before, t.after, t.logged) && |t.after.inodes| == |t.before.inodes|
      && forall x: nat :: x < |t.before.inodes| && t.after.inodes[x] != t.before.inodes[x] ==> IBlock(x) in t.logged
    }

    /** Transactions within their reservations, each recording what it changed, that lead from a to z. */
    ghost predicate Leads(txns: seq<Txn>, a: Media, z: Media)
      decreases |txns|
    {
      if |txns| == 0 then z == a
      else
        var n := |txns| - 1;
        AllRecorded(txns[n]) && |txns[n].logged| <= maxOp && txns[n].after == z && Leads(txns[..n], a, txns[n].before)
    }

    /** balloc's two loops: the first clear bit, or nblocks. */
    method FindFree() returns (r: nat)
      requires Layout()
      ensures r <= nblocks && (forall x :: 0 <= x < r ==> bitmap[x]) && (r < nblocks ==> !bitmap[r])
    {
      var b := 0;
      while b < nblocks
        invariant b % BPB == 0
        invariant forall x :: 0 <= x < b && x < nblocks ==> bitmap[x]
      {
        var bi := 0;
        while bi < BPB && b + bi < nblocks
          invariant 0 <= bi <= BPB
          invariant forall x :: 0 <= x < b + bi && x < nblocks ==> bitmap[x]
        {
          if !bitmap[b + bi] {
            return b + bi;
          }
          bi := bi + 1;
        }
        b := b + BPB;
      }
      r := nblocks;
    }

    /** First free block of the bitmap, marked in use and zeroed; 0 when there is none. */
    method Balloc() returns (r: nat)
      requires Valid()
      modifies this`bitmap, this`blocks, this`logged, this`overBudget
      ensures r == 0 ==> bitmap == old(bitmap) && blocks == old(blocks)
      ensures r == 0 ==> forall b :: 0 <= b < nblocks ==> old(bitmap)[b]
      ensures r == 0 ==> logged == old(logged) && overBudget == old(overBudget)
      ensures r != 0 ==> dataStart <= r < nblocks && r !in owner && !old(bitmap)[r]
      ensures r != 0 ==> bitmap == old(bitmap)[r := true] && blocks == old(blocks)[r := Zeros()]
      ensures r != 0 ==> logged == old(logged) + {BBlock(r), r} && Charged()
      ensures Recorded(old(Now()), Now(), logged)
    {
      r := FindFree();
      if r < nblocks {
        bitmap := bitmap[r := true];
        LogWrite(BBlock(r));
        blocks := blocks[r := Zeros()];   // bzero
        LogWrite(r);
        SubsetSize(old(logged) + {BBlock(r)}, logged);
      } else {
        r := 0;
      }
    }

    /** bmap's first half: fill slot k <= NDIRECT if it is empty. */
    method FillSlot(i: nat, k: nat) returns (r: nat)
      requires Valid() && i < |inodes| && k <= NDIRECT
      modifies this
      ensures Valid() && Extends(old(Snap()), Snap(), i)
      ensures r == inodes[i].addrs[k]
      ensures old(inodes)[i].addrs[k] != 0 || r == 0 ==> unchanged(this)
      ensures r == 0 ==> Full()
      ensures r != 0 && old(inodes)[i].addrs[k] == 0 ==>
                r !in old(owner) && r in owner && blocks[r] == Zeros() && r in logged
      ensures Charged() && |logged| <= |old(logged)| + 2 && Recorded(old(Now()), Now(), logged)
    {
      r := inodes[i].addrs[k];
      if r == 0 {
        r := Balloc();
        ghost var mid := Now();
        if r != 0 {
          DirectExtends(old(Snap()), i, k, r);
          inodes := inodes[i := inodes[i].(addrs := inodes[i].addrs[k := r])];
          owner := owner[r := (i, k)];
          assert Snap() == WithDirect(old(Snap()), i, k, r);
          UnionSize(old(logged), {BBlock(r), r});
          RecordedInodes(mid, Now(), logged);
          RecordedTrans(old(Now()), mid, Now(), logged, logged);
        }
      }
    }

    /** Three blocks more in the log, of which the last may have been there. */
    lemma ThreeMore(before: set<nat>, x: nat, y: nat, z: nat)
      ensures |before + {x, y}| <= |before + {x, y} + {z}| <= |before| + if z in before then 2 else 3
    {
      UnionSize(before, {x, y});
      UnionSize(before + {x, y}, {z});
      SubsetSize(before + {x, y}, before + {x, y} + {z});
      assert z in before ==> before + {x, y} + {z} == before + {x, y};
    }

    /** An entry of the indirect block, and the block logged. */
    method PutEntry(ind: nat, j: nat, r: nat, ghost was: Media, ghost before: set<nat>)
      requires ind < |blocks| && |blocks[ind]| == BSIZE && j < NINDIRECT && r < UINT
      requires Recorded(was, Now(), logged) && before <= logged
      modifies this`blocks, this`logged, this`overBudget
      ensures blocks == old(blocks)[ind := PutU32(old(blocks)[ind], j, r)] && logged == old(logged) + {ind}
      ensures Charged() && Recorded(was, Now(), logged)
    {
      blocks := blocks[ind := PutU32(blocks[ind], j, r)];
      LogWrite(ind);
      RecordedBlock(old(Now()), ind, blocks[ind], logged);
      RecordedTrans(was, old(Now()), Now(), old(logged), logged);
    }

    /** bmap's second half: fill entry j of the indirect block if it is empty. */
    method FillEntry(i: nat, j: nat) returns (r: nat)
      requires Valid() && i < |inodes| && j < NINDIRECT && inodes[i].addrs[NDIRECT] != 0
      modifies this
      ensures Valid() && Extends(old(Snap()), Snap(), i)
      ensures inodes == old(inodes) && r == Entry(blocks, inodes[i], NDIRECT + 1 + j)
      ensures Entry(old(blocks), old(inodes)[i], NDIRECT + 1 + j) != 0 || r == 0 ==> unchanged(this)
      ensures r == 0 ==> Full()
      ensures r != 0 && Entry(old(blocks), old(inodes)[i], NDIRECT + 1 + j) == 0 ==>
                r !in old(owner) && r in owner && blocks[r] == Zeros() && {r, inodes[i].addrs[NDIRECT]} <= logged
      ensures Charged() && |logged| <= |old(logged)| + if inodes[i].addrs[NDIRECT] in old(logged) then 2 else 3
      ensures Recorded(old(Now()), Now(), logged)
    {
      var ind := inodes[i].addrs[NDIRECT];
      r := GetU32(blocks[ind], j);
      if r == 0 {
        r := Balloc();
        if r != 0 {
          IndirectExtends(old(Snap()), i, j, r);
          ThreeMore(old(logged), BBlock(r), r, ind);
          PutEntry(ind, j, r, old(Now()), old(logged));
          owner := owner[r := (i, NDIRECT + 1 + j)];
          assert Snap() == WithIndirect(old(Snap()), i, j, r);
        }
      }
    }

    predicate IndirectLogged(i: nat)
      reads this
      requires i < |inodes| && |inodes[i].addrs| == NDIRECT + 1
    {
      inodes[i].addrs[NDIRECT] != 0 && inodes[i].addrs[NDIRECT] in logged
    }

    /** bmap beyond the direct blocks: both fills, of which the second may fail after the first. */
    method FillIndirect(i: nat, j: nat) returns (r: nat)
      requires Valid() && i < |inodes| && j < NINDIRECT
      modifies this
      ensures Valid() && Extends(old(Snap()), Snap(), i)
      ensures r == Entry(blocks, inodes[i], NDIRECT + 1 + j) && (r == 0 ==> Full())
      ensures Entry(old(blocks), old(inodes)[i], NDIRECT + 1 + j) != 0 ==> unchanged(this)
      ensures r != 0 && Entry(old(blocks), old(inodes)[i], NDIRECT + 1 + j) == 0 ==>
                r !in old(owner) && r in owner && blocks[r] == Zeros() && r in logged
      ensures Charged() && (old(IndirectLogged(i)) ==> IndirectLogged(i)) && Recorded(old(Now()), Now(), logged)
      ensures |logged| <= |old(logged)| + (if r != 0 then 2 else 0)
                + (if IndirectLogged(i) && !old(IndirectLogged(i)) then 2 else 0)
    {
      var ind := FillSlot(i, NDIRECT);
      if ind == 0 {
        return 0;
      }
      ghost var mid, midLogged, midNow := Snap(), logged, Now();
      r := FillEntry(i, j);
      RecordedTrans(old(Now()), midNow, Now(), midLogged, logged);
      ExtendsTrans(old(Snap()), mid, Snap(), i);
      SubsetSize(midLogged, logged);
    }

    /** bmap: the block of the n-th block of the file, allocated if need be; 0 when the disk is full. */
    method Bmap(i: nat, n: nat) returns (r: nat)
      requires Valid() && i < |inodes| && n < MAXFILE
      modifies this
      ensures Valid() && Extends(old(Snap()), Snap(), i)
      ensures r == Entry(blocks, inodes[i], SlotOf(n)) && (r == 0 ==> Full())
      ensures Entry(old(blocks), old(inodes)[i], SlotOf(n)) != 0 ==> unchanged(this)
      ensures r != 0 && Entry(old(blocks), old(inodes)[i], SlotOf(n)) == 0 ==>
                r !in old(owner) && r in owner && blocks[r] == Zeros() && r in logged
      ensures Charged() && (old(IndirectLogged(i)) ==> IndirectLogged(i)) && Recorded(old(Now()), Now(), logged)
      ensures |logged| <= |old(logged)| + (if r != 0 then 2 else 0)
                + (if IndirectLogged(i) && !old(IndirectLogged(i)) then 2 else 0)
    {
      if n < NDIRECT {
        assert Entry(blocks, inodes[i], NDIRECT) == inodes[i].addrs[NDIRECT];
        r := FillSlot(i, n);
        assert Entry(blocks, inodes[i], NDIRECT) == inodes[i].addrs[NDIRECT];
      } else {
        r := FillIndirect(i, n - NDIRECT);
      }
    }

    /** Copy data into the buffer of an allocated block and log it. */
    method PutBytes(i: nat, n: nat, at: nat, data: seq<Byte>)
      requires Valid() && Has(Snap(), i, n) && at + |data| <= BSIZE
      modifies this`blocks, this`logged, this`overBudget
      ensures Valid() && Stored(old(Snap()), Snap(), i, n, at, data)
      ensures Charged() && |logged| <= |old(logged)| + 1 && Recorded(old(Now()), Now(), logged)
      ensures Entry(old(blocks), inodes[i], SlotOf(n)) in old(logged) ==> logged == old(logged)
    {
      StoreSound(Snap(), i, n, at, data);
      var addr := Entry(blocks, inodes[i], SlotOf(n));
      blocks := blocks[addr := Splice(blocks[addr], at, data)];
      assert Snap() == Store(old(Snap()), i, n, at, data);
      LogWrite(addr);
      UnionSize(old(logged), {addr});
      assert addr in old(logged) ==> logged == old(logged);
      RecordedBlock(old(Now()), addr, blocks[addr], logged);
    }

    /** One round of writei's loop: false when the disk is full or the source bytes give out. */
    method WriteBlock(i: nat, n: nat, at: nat, data: seq<Byte>, copied: bool) returns (ok: bool, ghost r: Round)
      requires Valid() && i < |inodes| && n < MAXFILE && at + |data| <= BSIZE
      modifies this
      ensures Valid() && |inodes| == |old(inodes)| && r == Round(old(Snap()), r.mid, Snap(), n, at, data)
      ensures ok ==> copied && RoundOk(r, i)
      ensures !ok ==> Extends(old(Snap()), Snap(), i) && (Full() || !copied)
      ensures Charged() && (old(IndirectLogged(i)) ==> IndirectLogged(i)) && Recorded(old(Now()), Now(), logged)
      ensures |logged| <= |old(logged)| + (if old(Has(Snap(), i, n)) then 1 else 2)
                + (if IndirectLogged(i) && !old(IndirectLogged(i)) then 2 else 0)
    {
      var addr := Bmap(i, n);
      ghost var mid, was, midNow := Snap(), logged, Now();
      ok := addr != 0 && copied;
      if ok {
        FilledHas(mid, i, n);
        PutBytes(i, n, at, data);
        SubsetSize(was, logged);
        RecordedTrans(old(Now()), midNow, Now(), was, logged);
      }
      r := Round(old(Snap()), mid, Snap(), n, at, data);
    }

    /** One round of writei's loop, the file having been v before the loop and being u now. */
    method WriteRound(i: nat, off: nat, n: nat, src: seq<Byte>, tot: nat, ghost n0: nat, ghost t: nat, ghost v: View,
        ghost u: View) returns (ok: bool, end: nat, ghost w: View)
      requires Valid() && i < |inodes| && u == Snap() && Sound(v) && i < |v.inodes| && off <= v.inodes[i].size
      requires Written(v, u, i, off, src, tot) && Progress(off, n, tot, n0, t) && (tot == 0 ==> u == v)
      requires tot < n && off + n <= MAXFILE * BSIZE
      modifies this
      ensures Valid() && |inodes| == |old(inodes)| && (n0 + t) * BSIZE < off + n
      ensures ok ==> tot < end <= n && w == Snap()
      ensures ok ==> Written(v, w, i, off, src, end) && Progress(off, n, end, n0, t + 1)
      ensures !ok ==> Extends(u, Snap(), i) && (Full() || |src| < n)
      ensures Charged() && (old(IndirectLogged(i)) ==> IndirectLogged(i)) && Recorded(old(Now()), Now(), logged)
      ensures |logged| <= |old(logged)| + (if t == 0 && off != n0 * BSIZE then 1 else 2)
                + (if IndirectLogged(i) && !old(IndirectLogged(i)) then 2 else 0)
    {
      var b, at, m := Locate(off, n, tot);
      ProgressRound(off, n, tot, n0, t, b, at, m);
      end := tot + m;
      var copied := end <= |src|;
      var data := if copied then src[tot..end] else [];
      if t == 0 && off != n0 * BSIZE {
        HasBelowSize(u, i, b);
      }
      ghost var r;
      ok, r := WriteBlock(i, b, at, data, copied);
      w := r.w;
      if ok {
        WrittenRound(v, r, i, off, src, tot, end);
      }
    }

    /** writei's loop: whatever stops it, at most two log blocks per block touched, one less when the first one was
        there already, and two for the indirect block and its bitmap block. */
    method WriteLoop(i: nat, off: nat, n: nat, src: seq<Byte>, ghost n0: nat)
      returns (tot: nat, ghost u: View, ghost t: nat)
      requires Valid() && i < |inodes| && off <= inodes[i].size && off + n <= MAXFILE * BSIZE && Starts(n0, off)
      modifies this
      ensures Valid() && tot <= n && Sound(u) && Written(old(Snap()), u, i, off, src, tot) && Extends(u, Snap(), i)
      ensures tot < n ==> Full() || |src| < n
      ensures Charged() && (t == 0 || (n0 + t - 1) * BSIZE < off + n)
      ensures |logged| <= |old(logged)| + LoopCost(off, n0, t) + 2 && Recorded(old(Now()), Now(), logged)
    {
      tot, u, t := 0, Snap(), 0;   // t: blocks done
      while tot < n
        invariant Valid() && u == Snap() && Written(old(Snap()), u, i, off, src, tot)
        invariant Progress(off, n, tot, n0, t) && (tot == 0 ==> u == old(Snap()))
        invariant Charged() && |inodes| == |old(inodes)| && Recorded(old(Now()), Now(), logged)
        invariant |logged| <= |old(logged)| + LoopCost(off, n0, t) + (if IndirectLogged(i) then 2 else 0)
      {
        ghost var was, w, mid := logged, u, Now();
        var ok, end;
        ok, end, w := WriteRound(i, off, n, src, tot, n0, t, old(Snap()), u);
        SubsetSize(was, logged);
        RecordedTrans(old(Now()), mid, Now(), was, logged);
        t := t + 1;
        if !ok {
          return;
        }
        u, tot := w, end;
      }
    }

    /** writei: -1 for an offset past the end or a write that cannot fit, else the number of bytes written. A chunk of
        filewrite's size stays within one reservation, and every log_write of it finds some of the reservation left. */
    method Writei(i: nat, off: nat, n: nat, src: seq<Byte>) returns (r: int)
      requires Valid() && i < |inodes|
      modifies this
      ensures Valid() && |inodes| == |old(inodes)| && -1 <= r <= n && r <= |src|
      ensures r == -1 <==> off > old(inodes)[i].size || off + n >= UINT || off + n > MAXFILE * BSIZE
      ensures r == -1 ==> unchanged(this)
      ensures r >= 0 ==> Contents(Snap(), i) == Overlay(old(Contents(Snap(), i)), off, src[..r])
      ensures r >= 0 ==> forall x: nat :: x < |inodes| && x != i ==> Contents(Snap(), x) == old(Contents(Snap(), x))
      ensures 0 <= r < n ==> Full() || |src| < n
      ensures old(logged) == {} && !old(overBudget) && maxOp >= 4 && n <= ChunkMax(maxOp) ==>
                |logged| <= maxOp && !overBudget
      ensures r >= 0 ==> IBlock(i) in logged
      ensures AllRecorded(Txn(old(Now()), Now(), logged))
    {
      if off > inodes[i].size || off + n >= UINT || off + n > MAXFILE * BSIZE {
        return -1;
      }
      ghost var n0 := off / BSIZE;
      var tot, u, t := WriteLoop(i, off, n, src, n0);
      ChunkFits(maxOp, off, n, n0, t);
      ghost var v, mid, media := old(Snap()), Snap(), Now();
      WrittenExtend(v, u, mid, i, off, src, tot);
      WrittenContents(v, mid, Resize(mid, i, SizeAfter(v, i, off, tot)), i, off, src, tot);
      var size := if off + tot > inodes[i].size then off + tot else inodes[i].size;
      inodes := inodes[i := inodes[i].(size := size)];
      assert Snap() == Resize(mid, i, SizeAfter(v, i, off, tot));
      UnionSize(logged, {IBlock(i)});
      ghost var was, midNow := logged, media;
      LogWrite(IBlock(i));   // iupdate
      RecordedInodes(midNow, Now(), logged);
      RecordedTrans(old(Now()), midNow, Now(), was, logged);
      r := tot;
    }

    /** bmap and bread of a block below the size. */
    method ReadBlock(i: nat, n: nat) returns (block: Block)
      requires Valid() && i < |inodes| && n * BSIZE < inodes[i].size
      modifies this
      ensures unchanged(this) && Valid() && block == BlockAt(Snap(), i, n)
    {
      HasBelowSize(Snap(), i, n);
      var addr := Bmap(i, n);
      block := blocks[addr];
    }

    /** readi: 0 past the end or on wrap-around, -1 when the destination has no room, else the bytes of the file from
        off on. Files have no holes, so bmap never allocates here and a reader changes nothing. */
    method Readi(i: nat, off: nat, n: nat, room: nat) returns (r: int, data: seq<Byte>)
      requires Valid() && i < |inodes|
      modifies this
      ensures unchanged(this) && Valid()
      ensures off > inodes[i].size || off + n >= UINT ==> r == 0 && data == []
      ensures off <= inodes[i].size && off + n < UINT ==>
                var end := if off + n > inodes[i].size then inodes[i].size else off + n;
                if end - off <= room then r == end - off && data == Contents(Snap(), i)[off..end] else r == -1
    {
      data := [];
      if off > inodes[i].size || off + n >= UINT {
        return 0, data;
      }
      var n' := if off + n > inodes[i].size then inodes[i].size - off else n;
      ghost var v := Snap();
      ghost var all := Contents(v, i);
      var tot, end := 0, off;
      while tot < n'
        invariant unchanged(this) && tot <= n' && tot <= room && end == off + tot && data == all[off..end]
      {
        var b, at, m := Locate(off, n', tot);
        var from, to := end, end + m;
        var block := ReadBlock(i, b);
        if tot + m > room {
          return -1, data;
        }
        ReadRound(v, i, off, from, to, b, at);
        data := data + block[at..at + m];
        tot, end := tot + m, to;
      }
      r := tot;
    }

    /** Everything but the size of inode i being covered by its blocks. */
    ghost predicate Truncating(i: nat)
      reads this
    {
      && Layout() && Owns(blocks, inodes, owner) && i < |inodes|
      && forall x :: 0 <= x < |inodes| && x != i ==> NoHoles(blocks, inodes[x])
    }

    ghost function OwnedBy(owner: map<nat, (nat, nat)>, i: nat): set<nat> { set b | b in owner && owner[b].0 == i }

    /** The bitmap blocks of the blocks listed. */
    function Marks(bs: seq<nat>): set<nat> { if |bs| == 0 then {} else Marks(bs[..|bs| - 1]) + {BBlock(bs[|bs| - 1])} }

    lemma MarksNext(bs: seq<nat>, b: nat)
      ensures Marks(bs + [b]) == Marks(bs) + Marks([b])
    {
      assert (bs + [b])[..|bs|] == bs;
      assert [b][..0] == [];
    }

    lemma {:induction false} MarksJoin(a: seq<nat>, b: seq<nat>)
      ensures Marks(a + b) == Marks(a) + Marks(b)
      decreases |b|
    {
      if |b| == 0 {
        assert a + b == a;
      } else {
        var n := |b| - 1;
        MarksJoin(a, b[..n]);
        assert (a + b)[..|a| + n] == a + b[..n];
      }
    }

    lemma {:induction false} MarksAre(bs: seq<nat>, x: nat)
      ensures x in Marks(bs) <==> exists b :: b in bs && BBlock(b) == x
    {
      if |bs| > 0 {
        var n := |bs| - 1;
        MarksAre(bs[..n], x);
        assert bs == bs[..n] + [bs[n]];
      }
    }

    function BitmapBlocks(): nat { (nblocks + BPB - 1) / BPB }

    /** The bitmap blocks of a set of blocks, of which there are no more than the disk has. */
    ghost function MarksOf(bs: set<nat>): set<nat> { set b | b in bs :: BBlock(b) }

    lemma MarksFew(bs: set<nat>)
      requires forall b :: b in bs ==> b < nblocks
      ensures |MarksOf(bs)| <= BitmapBlocks()
    {
      var all := Interval(bmapStart, BitmapBlocks());
      forall x | x in MarksOf(bs) ensures x in all {
        var b :| b in bs && BBlock(b) == x;
        assert b / BPB < BitmapBlocks();
      }
      SubsetSize(MarksOf(bs), all);
    }

    lemma MarksExact(bs: seq<nat>, all: set<nat>)
      requires forall b :: b in bs <==> b in all
      ensures Marks(bs) == MarksOf(all)
    {
      forall x ensures x in Marks(bs) <==> x in MarksOf(all) {
        if x >= 0 {
          MarksAre(bs, x);
        }
      }
    }

    /** bfree; "freeing free block" is out of reach because callers own the block. */
    method Bfree(b: nat)
      requires b < |bitmap| && bitmap[b]
      modifies this`bitmap, this`logged, this`overBudget
      ensures bitmap == old(bitmap)[b := false] && logged == old(logged) + Marks([b])
      ensures overBudget <==> old(overBudget) || |old(logged)| >= maxOp
    {
      bitmap := bitmap[b := false];
      LogWrite(BBlock(b));
      assert Marks([b]) == {BBlock(b)} by { assert [b][..0] == []; }
    }

    /** The log since `before`, when the reservation was overdrawn if `was`: the marks of the blocks freed. */
    ghost predicate Tally(before: set<nat>, was: bool, freed: seq<nat>)
      reads this
    {
      logged == before + Marks(freed) && (overBudget ==> was || |logged| >= maxOp) && (was ==> overBudget)
    }

    /** bfree of one more block. */
    method Release(b: nat, ghost before: set<nat>, ghost was: bool, ghost freed: seq<nat>)
      returns (ghost more: seq<nat>)
      requires b < |bitmap| && bitmap[b] && Tally(before, was, freed)
      modifies this`bitmap, this`logged, this`overBudget
      ensures bitmap == old(bitmap)[b := false] && more == freed + [b] && Tally(before, was, more)
    {
      Bfree(b);
      SubsetSize(old(logged), logged);
      MarksNext(freed, b);
      more := freed + [b];
    }

    /** The blocks that lost their owner. */
    ghost predicate Gone(freed: seq<nat>, owner: map<nat, (nat, nat)>, owner': map<nat, (nat, nat)>) {
      owner'.Keys <= owner.Keys && forall b :: b in freed <==> b in owner && b !in owner'
    }

    lemma GoneNext(freed: seq<nat>, owner: map<nat, (nat, nat)>, owner': map<nat, (nat, nat)>, b: nat)
      requires Gone(freed, owner, owner') && b in owner'
      ensures Gone(freed + [b], owner, owner' - {b})
    {
    }

    lemma TallyJoin(before: set<nat>, was: bool, mid: set<nat>, midWas: bool, freed: seq<nat>, more: seq<nat>)
      requires mid == before + Marks(freed) && (midWas ==> was || |mid| >= maxOp) && (was ==> midWas)
      requires Tally(mid, midWas, more)
      ensures Tally(before, was, freed + more)
    {
      MarksJoin(freed, more);
      SubsetSize(mid, logged);
    }

    lemma GoneJoin(freed: seq<nat>, more: seq<nat>, a: map<nat, (nat, nat)>, b: map<nat, (nat, nat)>,
        c: map<nat, (nat, nat)>)
      requires Gone(freed, a, b) && Gone(more, b, c)
      ensures Gone(freed + more, a, c)
    {
    }

    /** One round of itrunc's first loop. */
    method FreeSlot(i: nat, k: nat, ghost before: set<nat>, ghost was: bool, ghost freed: seq<nat>)
      returns (ghost more: seq<nat>)
      requires Truncating(i) && BitmapOk() && k < NDIRECT && Tally(before, was, freed)
      modifies this`bitmap, this`logged, this`overBudget, this`inodes, this`owner
      ensures Truncating(i) && BitmapOk() && Tally(before, was, more) && Less(owner, i) == Less(old(owner), i)
      ensures inodes == old(inodes)[i := old(inodes)[i].(addrs := old(inodes)[i].addrs[k := 0])]
      ensures var b := old(inodes)[i].addrs[k];
        if b == 0 then more == freed && owner == old(owner)
        else b in old(owner) && more == freed + [b] && owner == old(owner) - {b}
    {
      var b := inodes[i].addrs[k];
      more := freed;
      if b != 0 {
        assert Entry(blocks, inodes[i], k) == b;
        DropDirect(blocks, inodes, owner, i, k);
        more := Release(b, before, was, freed);
        inodes := inodes[i := inodes[i].(addrs := inodes[i].addrs[k := 0])];
        owner := owner - {b};
      } else {
        assert inodes[i].addrs[k := 0] == inodes[i].addrs;
        assert inodes == inodes[i := inodes[i].(addrs := inodes[i].addrs[k := 0])];
      }
    }

    method FreeDirect(i: nat) returns (ghost freed: seq<nat>)
      requires Truncating(i) && BitmapOk()
      modifies this`bitmap, this`logged, this`overBudget, this`inodes, this`owner
      ensures Truncating(i) && BitmapOk() && |inodes| == |old(inodes)|
      ensures forall x :: 0 <= x < |inodes| && x != i ==> inodes[x] == old(inodes)[x]
      ensures forall k :: 0 <= k < NDIRECT ==> inodes[i].addrs[k] == 0
      ensures inodes[i].addrs[NDIRECT] == old(inodes)[i].addrs[NDIRECT] && Less(owner, i) == Less(old(owner), i)
      ensures Gone(freed, old(owner), owner) && Tally(old(logged), old(overBudget), freed)
    {
      var k := 0;
      freed := [];
      while k < NDIRECT
        invariant 0 <= k <= NDIRECT && Truncating(i) && BitmapOk() && |inodes| == |old(inodes)|
        invariant forall x :: 0 <= x < |inodes| && x != i ==> inodes[x] == old(inodes)[x]
        invariant forall c :: 0 <= c < k ==> inodes[i].addrs[c] == 0
        invariant inodes[i].addrs[NDIRECT] == old(inodes)[i].addrs[NDIRECT] && Less(owner, i) == Less(old(owner), i)
        invariant Gone(freed, old(owner), owner) && Tally(old(logged), old(overBudget), freed)
      {
        ghost var b, was, mid := inodes[i].addrs[k], freed, owner;
        freed := FreeSlot(i, k, old(logged), old(overBudget), freed);
        if b != 0 {
          GoneNext(was, old(owner), mid, b);
        }
        k := k + 1;
      }
    }

    /** The bitmap while the blocks listed in the indirect block are being freed, and those freed so far. */
    ghost predicate Freeing(i: nat, j: nat, freed: seq<nat>)
      reads this
    {
      && |bitmap| == nblocks
      && (forall b :: 0 <= b < nblocks ==> (bitmap[b] <==> b < dataStart || (b in owner && !Listed(owner, i, j, b))))
      && (forall b :: b in freed <==> Listed(owner, i, j, b))
    }

    /** One round of itrunc's second loop. */
    method FreeNext(i: nat, ind: nat, j: nat, ghost next: nat, ghost before: set<nat>, ghost was: bool,
        ghost freed: seq<nat>) returns (ghost more: seq<nat>)
      requires Truncating(i) && (forall b :: b in owner ==> dataStart <= b < nblocks)
      requires ind == inodes[i].addrs[NDIRECT] != 0 && ind < nblocks && j < NINDIRECT && next == j + 1
      requires Freeing(i, j, freed) && Tally(before, was, freed)
      modifies this`bitmap, this`logged, this`overBudget
      ensures Freeing(i, next, more) && Tally(before, was, more)
    {
      var a := GetU32(blocks[ind], j);
      ListedNext(blocks, inodes, owner, i, j, next, a);
      more := freed;
      if a != 0 {
        more := Release(a, before, was, freed);
      }
    }

    /** The blocks listed in the indirect block are freed one after the other. */
    method FreeListed(i: nat) returns (ghost freed: seq<nat>)
      requires Truncating(i) && BitmapOk() && inodes[i].addrs[NDIRECT] != 0
      modifies this`bitmap, this`logged, this`overBudget
      ensures Layout() && Freeing(i, NINDIRECT, freed) && Tally(old(logged), old(overBudget), freed)
    {
      var ind := inodes[i].addrs[NDIRECT];
      assert Entry(blocks, inodes[i], NDIRECT) == ind;
      var j := 0;
      freed := [];
      while j < NINDIRECT
        invariant 0 <= j <= NINDIRECT && Layout()
        invariant Freeing(i, j, freed) && Tally(old(logged), old(overBudget), freed)
      {
        freed := FreeNext(i, ind, j, j + 1, old(logged), old(overBudget), freed);
        j := j + 1;
      }
    }

    method FreeIndirect(i: nat) returns (ghost freed: seq<nat>)
      requires Truncating(i) && BitmapOk() && inodes[i].addrs[NDIRECT] != 0
      modifies this`bitmap, this`logged, this`overBudget, this`inodes, this`owner
      ensures Truncating(i) && BitmapOk()
      ensures inodes == old(inodes)[i := old(inodes)[i].(addrs := old(inodes)[i].addrs[NDIRECT := 0])]
      ensures owner == LessIndirect(old(owner), i)
      ensures Gone(freed, old(owner), owner) && Tally(old(logged), old(overBudget), freed)
    {
      var ind := inodes[i].addrs[NDIRECT];
      freed := FreeListed(i);
      ListedAll(blocks, inodes, owner, i, ind);
      freed := Release(ind, old(logged), old(overBudget), freed);
      DropIndirect(blocks, inodes, owner, i);
      inodes := inodes[i := inodes[i].(addrs := inodes[i].addrs[NDIRECT := 0])];
      owner := LessIndirect(owner, i);
    }

    method FreeAll(i: nat) returns (ghost freed: seq<nat>)
      requires Truncating(i) && BitmapOk()
      modifies this`bitmap, this`logged, this`overBudget, this`inodes, this`owner
      ensures Truncating(i) && BitmapOk() && |inodes| == |old(inodes)|
      ensures forall x :: 0 <= x < |inodes| && x != i ==> inodes[x] == old(inodes)[x]
      ensures forall k :: 0 <= k <= NDIRECT ==> inodes[i].addrs[k] == 0
      ensures Less(owner, i) == Less(old(owner), i)
      ensures Gone(freed, old(owner), owner) && Tally(old(logged), old(overBudget), freed)
    {
      freed := FreeDirect(i);
      if inodes[i].addrs[NDIRECT] != 0 {
        ghost var mid, midWas, midOwner := logged, overBudget, owner;
        ghost var more := FreeIndirect(i);
        TallyJoin(old(logged), old(overBudget), mid, midWas, freed, more);
        GoneJoin(freed, more, old(owner), midOwner, owner);
        freed := freed + more;
      }
    }

    /** iupdate at the end of itrunc. */
    method Iupdate(i: nat, ghost before: set<nat>, ghost was: bool, ghost freed: seq<nat>, ghost all: set<nat>)
      requires Tally(before, was, freed)
      requires (forall b :: b in freed <==> b in all) && forall b :: b in all ==> b < nblocks
      modifies this`logged, this`overBudget
      ensures logged == before + MarksOf(all) + {IBlock(i)}
      ensures overBudget <==> was || |before + MarksOf(all)| >= maxOp
      ensures before == {} && !was && BitmapBlocks() < maxOp ==> !overBudget
    {
      MarksExact(freed, all);
      MarksFew(all);
      assert before == {} ==> before + MarksOf(all) == MarksOf(all);
      LogWrite(IBlock(i));
    }

    /** itrunc up to the iupdate. */
    method Empty(i: nat) returns (ghost freed: seq<nat>)
      requires Valid() && i < |inodes|
      modifies this`bitmap, this`logged, this`overBudget, this`inodes, this`owner
      ensures Valid() && |inodes| == |old(inodes)| && Emptied(Snap(), i) && owner == Less(old(owner), i)
      ensures forall b :: 0 <= b < nblocks ==>
        (bitmap[b] <==> old(bitmap)[b] && !(b in old(owner) && old(owner)[b].0 == i))
      ensures forall x: nat :: x < |inodes| && x != i ==> inodes[x] == old(inodes)[x]
      ensures forall x: nat :: x < |inodes| && x != i ==> Contents(Snap(), x) == old(Contents(Snap(), x))
      ensures Gone(freed, old(owner), owner) && Tally(old(logged), old(overBudget), freed)
    {
      freed := FreeAll(i);
      ghost var was := Snap();
      inodes := inodes[i := inodes[i].(size := 0)];
      ResizeOwns(was, i, 0);
      Truncated(old(Snap()), Snap(), i);
    }

    lemma GoneOwned(freed: seq<nat>, owner: map<nat, (nat, nat)>, i: nat, b: nat)
      requires Gone(freed, owner, Less(owner, i))
      ensures b in freed <==> b in OwnedBy(owner, i)
    {
    }

    lemma FreedRecorded(a: Media, z: Media, owner: map<nat, (nat, nat)>, i: nat, logged: set<nat>)
      requires z.blocks == a.blocks && |z.bitmap| == |a.bitmap| && |z.inodes| == |a.inodes|
      requires forall x: nat :: x < |a.inodes| && x != i ==> z.inodes[x] == a.inodes[x]
      requires forall b :: 0 <= b < |a.bitmap| && z.bitmap[b] != a.bitmap[b] ==> b in owner && owner[b].0 == i
      requires MarksOf(OwnedBy(owner, i)) <= logged && IBlock(i) in logged
      ensures AllRecorded(Txn(a, z, logged))
    {
      forall b | 0 <= b < |a.bitmap| && z.bitmap[b] != a.bitmap[b] ensures BBlock(b) in logged {
        assert b in OwnedBy(owner, i);
      }
    }

    /** itrunc: the file is empty, exactly its blocks are free again, and every other file is as before. It logs the
        bitmap blocks of what it frees and the inode, and overdraws its reservation exactly when those bitmap blocks,
        with what was logged before, already use it up; with few enough bitmap blocks on the disk it never does. */
    method Itrunc(i: nat)
      requires Valid() && i < |inodes|
      modifies this`bitmap, this`logged, this`overBudget, this`inodes, this`owner
      ensures Valid() && |inodes| == |old(inodes)| && Emptied(Snap(), i) && owner == Less(old(owner), i)
      ensures forall b :: 0 <= b < nblocks ==>
        (bitmap[b] <==> old(bitmap)[b] && !(b in old(owner) && old(owner)[b].0 == i))
      ensures forall x: nat :: x < |inodes| && x != i ==> inodes[x] == old(inodes)[x]
      ensures forall x: nat :: x < |inodes| && x != i ==> Contents(Snap(), x) == old(Contents(Snap(), x))
      ensures logged == old(logged) + MarksOf(OwnedBy(old(owner), i)) + {IBlock(i)}
      ensures overBudget <==> old(overBudget) || |old(logged) + MarksOf(OwnedBy(old(owner), i))| >= maxOp
      ensures old(logged) == {} && !old(overBudget) && BitmapBlocks() < maxOp ==> !overBudget
      ensures AllRecorded(Txn(old(Now()), Now(), logged))
    {
      ghost var freed := Empty(i);
      ghost var v := Snap();
      forall b ensures b in freed <==> b in OwnedBy(old(owner), i) {
        if b >= 0 {
          GoneOwned(freed, old(owner), i, b);
        }
      }
      Iupdate(i, old(logged), old(overBudget), freed, OwnedBy(old(owner), i));
      assert Snap() == v;
      FreedRecorded(old(Now()), Now(), old(owner), i, logged);
    }

    /** begin_op, writei and end_op of one chunk of filewrite, k bytes having been written already. */
    method WriteChunk(i: nat, off: nat, n: nat, src: seq<Byte>, k: nat, ghost v: View)
      returns (r: int, ghost tot: nat)
      requires Valid() && i < |inodes| && !overBudget && maxOp >= 4 && n <= ChunkMax(maxOp)
      requires Shaped(v.blocks, v.inodes) && i < |v.inodes| && Laid(v, Snap(), i, off, src, k)
      modifies this
      ensures Valid() && -1 <= r <= n && !overBudget && tot == if r > 0 then k + r else k
      ensures Laid(v, Snap(), i, off, src, tot)
      ensures r < n ==> Full() || |src| < k + n || off > v.inodes[i].size || off + k + n > MAXFILE * BSIZE
      ensures AllRecorded(Txn(old(Now()), Now(), logged)) && |logged| <= maxOp
    {
      logged, tot := {}, k;
      r := Writei(i, off + k, n, src[k..]);
      tot := if r > 0 then k + r else k;
      LaidChunk(v, old(Snap()), Snap(), i, off, src, k, r, tot);
    }

    /** filewrite on an inode, nobody else writing it meanwhile: n on success and -1 otherwise, f.off moving past what
        was written either way. It is a sequence of transactions, none of which overdraws its reservation or leaves out
        of the log a block, bitmap block or inode it changed. */
    method FileWrite(i: nat, off: nat, n: int, src: seq<Byte>)
      returns (ret: int, off': nat, ghost tot: nat, ghost txns: seq<Txn>)
      requires Valid() && i < |inodes| && !overBudget && maxOp >= 6
      modifies this
      ensures Valid() && !overBudget && off' == off + tot && (tot == 0 || tot <= n)
      ensures ret == (if tot == n then n else -1)
      ensures Laid(old(Snap()), Snap(), i, off, src, tot)
      ensures ret == -1 && n >= 0 ==> Full() || |src| < n || off > old(inodes)[i].size || off + n > MAXFILE * BSIZE
      ensures Leads(txns, old(Now()), Now())
    {
      var max := ChunkMax(maxOp);
      var k := 0;
      off', tot, txns := off, 0, [];
      while k < n
        invariant Valid() && !overBudget && k == tot && (k == 0 || k <= n) && off' == off + k
        invariant Laid(old(Snap()), Snap(), i, off, src, tot) && Leads(txns, old(Now()), Now())
      {
        ghost var was, done := Now(), txns;
        var n1 := if n - k > max then max else n - k;
        var r;
        r, tot := WriteChunk(i, off, n1, src, k, old(Snap()));
        off' := if r > 0 then off' + r else off';
        txns := done + [Txn(was, Now(), logged)];
        assert txns[..|done|] == done;
        if r != n1 {
          break;
        }
        k := k + r;
      }
      ret := if k == n then n else -1;
    }
  }

  /** filewrite's chunk: `((MAXOPBLOCKS-1-1-2) / 2) * BSIZE`. */
  function ChunkMax(maxOp: nat): nat { if maxOp < 4 then 0 else (maxOp - 1 - 1 - 2) / 2 * BSIZE }

  lemma ChunkFits(maxOp: nat, off: nat, n: nat, n0: nat, t: nat)
    requires Starts(n0, off) && (t == 0 || (n0 + t - 1) * BSIZE < off + n)
    ensures n <= ChunkMax(maxOp) && maxOp >= 4 ==> LoopCost(off, n0, t) + 2 < maxOp
  {
  }

  /** Block n0 is the first one touched at offset off. */
  predicate Starts(n0: nat, off: nat) { n0 * BSIZE <= off < n0 * BSIZE + BSIZE }

  /** Block, offset in it and length of the next copy. */
  method Locate(off: nat, n: nat, tot: nat) returns (b: nat, at: nat, m: nat)
    requires tot < n
    ensures off + tot == b * BSIZE + at && at < BSIZE && 0 < m && at + m <= BSIZE && tot + m <= n
    ensures tot + m == n || at + m == BSIZE
  {
    b, at := (off + tot) / BSIZE, (off + tot) % BSIZE;
    m := if n - tot < BSIZE - at then n - tot else BSIZE - at;
  }

  /** Log blocks for t blocks of data: the block and, unless it was there already, its bitmap block. */
  function LoopCost(off: nat, n0: nat, t: nat): nat { if off != n0 * BSIZE && t > 0 then 2 * t - 1 else 2 * t }

  /** tot bytes are written and t blocks done; only the last block may end before its boundary. */
  predicate Progress(off: nat, n: nat, tot: nat, n0: nat, t: nat) {
    && tot <= n && Starts(n0, off)
    && if tot == 0 then t == 0
       else (n0 + t - 1) * BSIZE < off + tot <= (n0 + t) * BSIZE && (tot < n ==> off + tot == (n0 + t) * BSIZE)
  }

  lemma ProgressRound(off: nat, n: nat, tot: nat, n0: nat, t: nat, b: nat, at: nat, m: nat)
    requires Progress(off, n, tot, n0, t) && tot < n && off + tot == b * BSIZE + at && at < BSIZE
    requires 0 < m && at + m <= BSIZE && tot + m <= n && (tot + m == n || at + m == BSIZE)
    ensures b == n0 + t && (n0 + t) * BSIZE < off + n && (off + n <= MAXFILE * BSIZE ==> b < MAXFILE)
    ensures Progress(off, n, tot + m, n0, t + 1)
  {
  }
}
