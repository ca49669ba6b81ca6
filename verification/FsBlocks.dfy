/**
 Blocks, inodes and who owns what (fs.c): the values the file system keeps on disk, read through the
 log as one flat array of blocks.
 */
module FsBlocks {
  const BSIZE: nat := 1024
  const NDIRECT: nat := 12
  const NINDIRECT: nat := 256
  const MAXFILE: nat := NDIRECT + NINDIRECT
  const NSLOT: nat := NDIRECT + 1 + NINDIRECT
  const UINT: nat := 0x1_0000_0000

  type Byte = x: nat | x < 256
  type Block = seq<Byte>

  function Zeros(): Block { seq(BSIZE, _ => 0) }

  /** `((uint*)data)[j]`, little endian. */
  function GetU32(block: Block, j: nat): nat
    requires 4 * j + 3 < |block|
  {
    (block[4 * j] as nat) + 256 * (block[4 * j + 1] as nat) + 65536 * (block[4 * j + 2] as nat)
    + 16777216 * (block[4 * j + 3] as nat)
  }

  function PutU32(block: Block, j: nat, v: nat): (r: Block)
    requires 4 * j + 3 < |block| && v < UINT
    ensures |r| == |block|
  {
    block[4 * j := v % 256][4 * j + 1 := v / 256 % 256][4 * j + 2 := v / 65536 % 256][4 * j + 3 := v / 16777216]
  }

  lemma PutGet(block: Block, j: nat, v: nat)
    requires 4 * j + 3 < |block| && v < UINT
    ensures GetU32(PutU32(block, j, v), j) == v
    ensures forall i: nat :: i != j && 4 * i + 3 < |block| ==> GetU32(PutU32(block, j, v), i) == GetU32(block, i)
  {
    assert v == v % 256 + 256 * (v / 256 % 256) + 65536 * (v / 65536 % 256) + 16777216 * (v / 16777216);
  }

  datatype Inode = Inode(addrs: seq<nat>, size: nat)

  /** Block number in slot k of an inode: the direct slots, the slot of the indirect block, the entries of that
      block. */
  function Entry(blocks: seq<Block>, ino: Inode, k: nat): nat
    requires Sized(blocks) && InodeOk(blocks, ino) && k < NSLOT
  {
    if k <= NDIRECT then ino.addrs[k]
    else if ino.addrs[NDIRECT] == 0 then 0
    else GetU32(blocks[ino.addrs[NDIRECT]], k - NDIRECT - 1)
  }

  predicate Sized(blocks: seq<Block>) { forall b :: 0 <= b < |blocks| ==> |blocks[b]| == BSIZE }

  predicate InodeOk(blocks: seq<Block>, ino: Inode) { |ino.addrs| == NDIRECT + 1 && ino.addrs[NDIRECT] < |blocks| }

  /** Slot of the n-th data block. */
  function SlotOf(n: nat): nat { if n < NDIRECT then n else n + 1 }

  /** Every data block below the size is there. */
  ghost predicate NoHoles(blocks: seq<Block>, ino: Inode)
    requires Sized(blocks) && InodeOk(blocks, ino)
  {
    && ino.size <= MAXFILE * BSIZE
    && forall n: nat :: n < MAXFILE && n * BSIZE < ino.size ==> Entry(blocks, ino, SlotOf(n)) != 0
  }

  lemma NoHolesFrame(blocks: seq<Block>, ino: Inode, blocks': seq<Block>, ino': Inode)
    requires Sized(blocks) && InodeOk(blocks, ino) && Sized(blocks') && InodeOk(blocks', ino')
    requires NoHoles(blocks, ino) && ino'.size == ino.size
    requires forall k: nat :: k < NSLOT && Entry(blocks, ino, k) != 0 ==> Entry(blocks', ino', k) != 0
    ensures NoHoles(blocks', ino')
  {
  }

  predicate Shaped(blocks: seq<Block>, inodes: seq<Inode>) {
    Sized(blocks) && forall i :: 0 <= i < |inodes| ==> InodeOk(blocks, inodes[i])
  }

  /** owner maps exactly the allocated data blocks to the one slot that holds each. */
  ghost predicate Owns(blocks: seq<Block>, inodes: seq<Inode>, owner: map<nat, (nat, nat)>)
    requires Shaped(blocks, inodes)
  {
    && (forall i: nat, k: nat :: i < |inodes| && k < NSLOT && Entry(blocks, inodes[i], k) != 0 ==>
          Entry(blocks, inodes[i], k) in owner && owner[Entry(blocks, inodes[i], k)] == (i, k))
    && (forall b :: b in owner ==> 0 < b < |blocks| && HeldAt(blocks, inodes, owner[b], b))
  }

  predicate HeldAt(blocks: seq<Block>, inodes: seq<Inode>, at: (nat, nat), b: nat)
    requires Shaped(blocks, inodes)
  {
    at.0 < |inodes| && at.1 < NSLOT && Entry(blocks, inodes[at.0], at.1) == b
  }

  /** Putting a fresh zeroed block into an empty direct slot or into the slot of the indirect block. */
  lemma AddDirect(blocks: seq<Block>, inodes: seq<Inode>, owner: map<nat, (nat, nat)>, i: nat, k: nat, b: nat)
    requires Shaped(blocks, inodes) && Owns(blocks, inodes, owner)
    requires i < |inodes| && k <= NDIRECT && inodes[i].addrs[k] == 0 && 0 < b < |blocks| && b !in owner
    ensures var blocks', inodes' := blocks[b := Zeros()], inodes[i := inodes[i].(addrs := inodes[i].addrs[k := b])];
      Shaped(blocks', inodes') && Owns(blocks', inodes', owner[b := (i, k)])
    ensures var blocks', inodes' := blocks[b := Zeros()], inodes[i := inodes[i].(addrs := inodes[i].addrs[k := b])];
      forall i': nat, k': nat :: i' < |inodes| && k' < NSLOT && (i', k') != (i, k) ==>
        Entry(blocks', inodes'[i'], k') == Entry(blocks, inodes[i'], k')
  {
    var blocks', inodes' := blocks[b := Zeros()], inodes[i := inodes[i].(addrs := inodes[i].addrs[k := b])];
    forall i': nat, k': nat | i' < |inodes| && k' < NSLOT && (i', k') != (i, k)
      ensures Entry(blocks', inodes'[i'], k') == Entry(blocks, inodes[i'], k')
    {
      assert Entry(blocks, inodes[i'], NDIRECT) == inodes[i'].addrs[NDIRECT];
    }
  }

  /** Putting a fresh zeroed block into an empty entry of the indirect block. */
  lemma AddIndirect(blocks: seq<Block>, inodes: seq<Inode>, owner: map<nat, (nat, nat)>, i: nat, j: nat, b: nat)
    requires Shaped(blocks, inodes) && Owns(blocks, inodes, owner)
    requires i < |inodes| && j < NINDIRECT && inodes[i].addrs[NDIRECT] != 0
    requires Entry(blocks, inodes[i], NDIRECT + 1 + j) == 0 && 0 < b < |blocks| && b < UINT && b !in owner
    ensures var ind := inodes[i].addrs[NDIRECT];
      var blocks' := blocks[b := Zeros()][ind := PutU32(blocks[ind], j, b)];
      Shaped(blocks', inodes) && Owns(blocks', inodes, owner[b := (i, NDIRECT + 1 + j)])
    ensures var ind := inodes[i].addrs[NDIRECT];
      var blocks' := blocks[b := Zeros()][ind := PutU32(blocks[ind], j, b)];
      && (forall i': nat, k': nat :: i' < |inodes| && k' < NSLOT && (i', k') != (i, NDIRECT + 1 + j) ==>
            Entry(blocks', inodes[i'], k') == Entry(blocks, inodes[i'], k'))
      && Entry(blocks', inodes[i], NDIRECT + 1 + j) == b
  {
    var ind := inodes[i].addrs[NDIRECT];
    var blocks' := blocks[b := Zeros()][ind := PutU32(blocks[ind], j, b)];
    assert Entry(blocks, inodes[i], NDIRECT) == ind;
    PutGet(blocks[ind], j, b);
    forall i': nat, k': nat | i' < |inodes| && k' < NSLOT && (i', k') != (i, NDIRECT + 1 + j)
      ensures Entry(blocks', inodes[i'], k') == Entry(blocks, inodes[i'], k')
    {
      assert Entry(blocks, inodes[i'], NDIRECT) == inodes[i'].addrs[NDIRECT];
    }
  }

  /** Emptying one direct slot. */
  lemma DropDirect(blocks: seq<Block>, inodes: seq<Inode>, owner: map<nat, (nat, nat)>, i: nat, k: nat)
    requires Shaped(blocks, inodes) && Owns(blocks, inodes, owner)
    requires i < |inodes| && k < NDIRECT && inodes[i].addrs[k] != 0
    ensures var inodes' := inodes[i := inodes[i].(addrs := inodes[i].addrs[k := 0])];
      Shaped(blocks, inodes') && Owns(blocks, inodes', owner - {inodes[i].addrs[k]})
    ensures Less(owner - {inodes[i].addrs[k]}, i) == Less(owner, i)
  {
    var inodes' := inodes[i := inodes[i].(addrs := inodes[i].addrs[k := 0])];
    assert Entry(blocks, inodes[i], k) == inodes[i].addrs[k];
    forall i': nat, k': nat | i' < |inodes| && k' < NSLOT && (i', k') != (i, k)
      ensures Entry(blocks, inodes'[i'], k') == Entry(blocks, inodes[i'], k')
    {
    }
    forall b | b in owner && b != inodes[i].addrs[k] ensures HeldAt(blocks, inodes', owner[b], b) {
      assert HeldAt(blocks, inodes, owner[b], b);
    }
  }

  /** Owners left once inode i has lost its indirect block and everything that block lists. */
  function LessIndirect(owner: map<nat, (nat, nat)>, i: nat): map<nat, (nat, nat)> {
    map b | b in owner && !(owner[b].0 == i && owner[b].1 >= NDIRECT) :: owner[b]
  }

  lemma DropIndirect(blocks: seq<Block>, inodes: seq<Inode>, owner: map<nat, (nat, nat)>, i: nat)
    requires Shaped(blocks, inodes) && Owns(blocks, inodes, owner) && i < |inodes| && |blocks| > 0
    ensures var inodes' := inodes[i := inodes[i].(addrs := inodes[i].addrs[NDIRECT := 0])];
      Shaped(blocks, inodes') && Owns(blocks, inodes', LessIndirect(owner, i))
  {
    var inodes' := inodes[i := inodes[i].(addrs := inodes[i].addrs[NDIRECT := 0])];
    forall i': nat, k': nat | i' < |inodes| && k' < NSLOT
      ensures Entry(blocks, inodes'[i'], k') == if i' == i && k' >= NDIRECT then 0 else Entry(blocks, inodes[i'], k')
    {
    }
    forall b | b in LessIndirect(owner, i) ensures HeldAt(blocks, inodes', owner[b], b) {
      assert HeldAt(blocks, inodes, owner[b], b);
    }
  }

  /** Writing a data block changes no slot of any inode. */
  lemma WriteData(blocks: seq<Block>, inodes: seq<Inode>, owner: map<nat, (nat, nat)>, b: nat, data: Block)
    requires Shaped(blocks, inodes) && Owns(blocks, inodes, owner) && |data| == BSIZE
    requires b in owner && owner[b].1 != NDIRECT
    ensures var blocks' := blocks[b := data];
      && Shaped(blocks', inodes) && Owns(blocks', inodes, owner)
      && forall i: nat, k: nat :: i < |inodes| && k < NSLOT ==>
        Entry(blocks', inodes[i], k) == Entry(blocks, inodes[i], k)
  {
    var blocks' := blocks[b := data];
    forall i: nat, k: nat | i < |inodes| && k < NSLOT
      ensures Entry(blocks', inodes[i], k) == Entry(blocks, inodes[i], k)
    {
      assert Entry(blocks, inodes[i], NDIRECT) == inodes[i].addrs[NDIRECT];
    }
    forall x | x in owner ensures HeldAt(blocks', inodes, owner[x], x) {
      assert HeldAt(blocks, inodes, owner[x], x);
    }
  }

  // ---------- Growing files ----------

  /** Blocks, inodes and owners at one moment. */
  datatype View = View(blocks: seq<Block>, inodes: seq<Inode>, owner: map<nat, (nat, nat)>)

  ghost predicate Sound(v: View) {
    && Shaped(v.blocks, v.inodes) && Owns(v.blocks, v.inodes, v.owner)
    && forall i :: 0 <= i < |v.inodes| ==> NoHoles(v.blocks, v.inodes[i])
  }

  /** From v to w, slots once filled stay as they are, data blocks keep their contents, and of the inodes only i
      changes, in its block addresses. */
  ghost predicate Extends(v: View, w: View, i: nat)
    requires Shaped(v.blocks, v.inodes) && Shaped(w.blocks, w.inodes)
  {
    && |w.inodes| == |v.inodes| && |w.blocks| == |v.blocks|
    && (forall x :: 0 <= x < |w.inodes| && x != i ==> w.inodes[x] == v.inodes[x])
    && (i < |w.inodes| ==> w.inodes[i].size == v.inodes[i].size)
    && (forall x: nat, k: nat :: x < |v.inodes| && k < NSLOT && Entry(v.blocks, v.inodes[x], k) != 0 ==>
          Entry(w.blocks, w.inodes[x], k) == Entry(v.blocks, v.inodes[x], k))
    && (forall b :: b in v.owner ==> b in w.owner && w.owner[b] == v.owner[b])
    && (forall b :: b in v.owner && v.owner[b].1 != NDIRECT && b < |v.blocks| ==> w.blocks[b] == v.blocks[b])
  }

  lemma ExtendsTrans(u: View, v: View, w: View, i: nat)
    requires Shaped(u.blocks, u.inodes) && Shaped(v.blocks, v.inodes) && Shaped(w.blocks, w.inodes)
    requires Extends(u, v, i) && Extends(v, w, i)
    ensures Extends(u, w, i)
  {
  }

  lemma ExtendsNoHoles(v: View, w: View, i: nat)
    requires Sound(v) && Shaped(w.blocks, w.inodes) && Extends(v, w, i)
    ensures forall x :: 0 <= x < |w.inodes| ==> NoHoles(w.blocks, w.inodes[x])
  {
    forall x | 0 <= x < |w.inodes| ensures NoHoles(w.blocks, w.inodes[x]) {
      NoHolesFrame(v.blocks, v.inodes[x], w.blocks, w.inodes[x]);
    }
  }

  function WithDirect(v: View, i: nat, k: nat, b: nat): View
    requires i < |v.inodes| && k < |v.inodes[i].addrs| && b < |v.blocks|
  {
    View(v.blocks[b := Zeros()], v.inodes[i := Inode(v.inodes[i].addrs[k := b], v.inodes[i].size)],
         v.owner[b := (i, k)])
  }

  lemma DirectExtends(v: View, i: nat, k: nat, b: nat)
    requires Sound(v) && i < |v.inodes| && k <= NDIRECT
    requires v.inodes[i].addrs[k] == 0 && 0 < b < |v.blocks| && b !in v.owner
    ensures Sound(WithDirect(v, i, k, b)) && Extends(v, WithDirect(v, i, k, b), i)
  {
    AddDirect(v.blocks, v.inodes, v.owner, i, k, b);
    ExtendsNoHoles(v, WithDirect(v, i, k, b), i);
  }

  function WithIndirect(v: View, i: nat, j: nat, b: nat): View
    requires Shaped(v.blocks, v.inodes) && i < |v.inodes| && j < NINDIRECT && b < |v.blocks| && b < UINT
  {
    View(v.blocks[b := Zeros()][v.inodes[i].addrs[NDIRECT] := PutU32(v.blocks[v.inodes[i].addrs[NDIRECT]], j, b)],
         v.inodes, v.owner[b := (i, NDIRECT + 1 + j)])
  }

  lemma IndirectExtends(v: View, i: nat, j: nat, b: nat)
    requires Sound(v) && i < |v.inodes| && j < NINDIRECT && v.inodes[i].addrs[NDIRECT] != 0
    requires Entry(v.blocks, v.inodes[i], NDIRECT + 1 + j) == 0 && 0 < b < |v.blocks| && b < UINT && b !in v.owner
    ensures Sound(WithIndirect(v, i, j, b)) && Extends(v, WithIndirect(v, i, j, b), i)
    ensures Entry(WithIndirect(v, i, j, b).blocks, v.inodes[i], NDIRECT + 1 + j) == b
    ensures v.inodes[i].addrs[NDIRECT] in v.owner
  {
    AddIndirect(v.blocks, v.inodes, v.owner, i, j, b);
    assert Entry(v.blocks, v.inodes[i], NDIRECT) == v.inodes[i].addrs[NDIRECT];
    ExtendsNoHoles(v, WithIndirect(v, i, j, b), i);
  }

  // ---------- File contents ----------

  /** Block n of file x is allocated. */
  predicate Has(v: View, x: nat, n: nat)
    requires Shaped(v.blocks, v.inodes)
  {
    x < |v.inodes| && n < MAXFILE && 0 < Entry(v.blocks, v.inodes[x], SlotOf(n)) < |v.blocks|
  }

  /** Contents of block n of file x. */
  function BlockAt(v: View, x: nat, n: nat): (r: Block)
    requires Shaped(v.blocks, v.inodes)
    ensures |r| == BSIZE
  {
    if Has(v, x, n) then v.blocks[Entry(v.blocks, v.inodes[x], SlotOf(n))] else Zeros()
  }

  lemma FilledHas(v: View, x: nat, n: nat)
    requires Sound(v) && x < |v.inodes| && n < MAXFILE && Entry(v.blocks, v.inodes[x], SlotOf(n)) != 0
    ensures Has(v, x, n)
  {
    assert Entry(v.blocks, v.inodes[x], SlotOf(n)) in v.owner;
  }

  lemma ExtendsBytes(v: View, w: View, i: nat)
    requires Sound(v) && Shaped(w.blocks, w.inodes) && Extends(v, w, i)
    ensures forall x: nat, n: nat :: Has(v, x, n) ==> Has(w, x, n) && BlockAt(w, x, n) == BlockAt(v, x, n)
  {
    forall x: nat, n: nat | Has(v, x, n) ensures Has(w, x, n) && BlockAt(w, x, n) == BlockAt(v, x, n) {
      var e := Entry(v.blocks, v.inodes[x], SlotOf(n));
      assert e in v.owner && v.owner[e] == (x, SlotOf(n));
    }
  }

  function Splice(block: Block, at: nat, data: seq<Byte>): (r: Block)
    requires at + |data| <= |block|
    ensures |r| == |block|
    ensures forall q :: 0 <= q < |r| ==> r[q] == if at <= q < at + |data| then data[q - at] else block[q]
  {
    block[..at] + data + block[at + |data|..]
  }

  /** v with data written into block n of file i. */
  function Store(v: View, i: nat, n: nat, at: nat, data: seq<Byte>): View
    requires Shaped(v.blocks, v.inodes) && Has(v, i, n) && at + |data| <= BSIZE
  {
    View(v.blocks[Entry(v.blocks, v.inodes[i], SlotOf(n)) := Splice(BlockAt(v, i, n), at, data)], v.inodes, v.owner)
  }

  /** w differs from u in the bytes [at, at + |data|) of block n of file i alone, which now hold data. */
  ghost predicate Stored(u: View, w: View, i: nat, n: nat, at: nat, data: seq<Byte>)
    requires Shaped(u.blocks, u.inodes) && Shaped(w.blocks, w.inodes) && at + |data| <= BSIZE
  {
    && w.inodes == u.inodes
    && (forall x: nat, m: nat :: Has(u, x, m) ==>
          Has(w, x, m)
          && BlockAt(w, x, m) == if x == i && m == n then Splice(BlockAt(u, i, n), at, data) else BlockAt(u, x, m))
  }

  lemma StoreSound(v: View, i: nat, n: nat, at: nat, data: seq<Byte>)
    requires Sound(v) && Has(v, i, n) && at + |data| <= BSIZE
    ensures var w := Store(v, i, n, at, data); Sound(w) && Stored(v, w, i, n, at, data)
    ensures var w := Store(v, i, n, at, data); forall x: nat, k: nat :: x < |v.inodes| && k < NSLOT ==>
      Entry(w.blocks, w.inodes[x], k) == Entry(v.blocks, v.inodes[x], k)
  {
    var e := Entry(v.blocks, v.inodes[i], SlotOf(n));
    assert e in v.owner && v.owner[e] == (i, SlotOf(n));
    var w := Store(v, i, n, at, data);
    WriteData(v.blocks, v.inodes, v.owner, e, w.blocks[e]);
    forall x | 0 <= x < |w.inodes| ensures NoHoles(w.blocks, w.inodes[x]) {
      NoHolesFrame(v.blocks, v.inodes[x], w.blocks, w.inodes[x]);
    }
    forall x: nat, m: nat | Has(v, x, m)
      ensures BlockAt(w, x, m) == if x == i && m == n then Splice(BlockAt(v, i, n), at, data) else BlockAt(v, x, m)
    {
      var f := Entry(v.blocks, v.inodes[x], SlotOf(m));
      assert f in v.owner && v.owner[f] == (x, SlotOf(m));
    }
  }

  /** Byte q of block n lies in the written range. */
  predicate Within(n: nat, q: nat, off: nat, tot: nat) { off <= n * BSIZE + q < off + tot }

  /** From v to w, file i received src[..tot] at offset off, and no other byte of any file changed. */
  ghost predicate Written(v: View, w: View, i: nat, off: nat, src: seq<Byte>, tot: nat)
    requires Shaped(v.blocks, v.inodes) && Shaped(w.blocks, w.inodes)
  {
    && tot <= |src| && |w.inodes| == |v.inodes|
    && (forall x :: 0 <= x < |v.inodes| ==> w.inodes[x].size == v.inodes[x].size)
    && (forall x :: 0 <= x < |v.inodes| && x != i ==> w.inodes[x] == v.inodes[x])
    && (forall x: nat, n: nat :: Has(v, x, n) ==> Has(w, x, n) && (x != i ==> BlockAt(w, x, n) == BlockAt(v, x, n)))
    && (forall n: nat, q: nat :: Kept(v, w, i, off, tot, n, q))
    && (forall n: nat, q: nat :: Copied(w, i, off, src, tot, n, q))
  }

  /** If byte q of block n was there and lies outside the written range, it is as before. */
  predicate Kept(v: View, w: View, i: nat, off: nat, tot: nat, n: nat, q: nat)
    requires Shaped(v.blocks, v.inodes) && Shaped(w.blocks, w.inodes)
  {
    q < BSIZE && Has(v, i, n) && !Within(n, q, off, tot) ==> BlockAt(w, i, n)[q] == BlockAt(v, i, n)[q]
  }

  /** If byte q of block n lies in the written range, it holds its source byte. */
  predicate Copied(w: View, i: nat, off: nat, src: seq<Byte>, tot: nat, n: nat, q: nat)
    requires Shaped(w.blocks, w.inodes) && tot <= |src|
  {
    q < BSIZE && Within(n, q, off, tot) ==> Has(w, i, n) && BlockAt(w, i, n)[q] == src[n * BSIZE + q - off]
  }

  lemma WrittenExtend(v: View, u: View, w: View, i: nat, off: nat, src: seq<Byte>, tot: nat)
    requires Shaped(v.blocks, v.inodes) && Sound(u) && Shaped(w.blocks, w.inodes)
    requires Written(v, u, i, off, src, tot) && Extends(u, w, i)
    ensures Written(v, w, i, off, src, tot)
  {
    ExtendsBytes(u, w, i);
    forall n: nat, q: nat ensures Copied(w, i, off, src, tot, n, q) {
      assert Copied(u, i, off, src, tot, n, q);
    }
    forall n: nat, q: nat ensures Kept(v, w, i, off, tot, n, q) {
      assert Kept(v, u, i, off, tot, n, q);
    }
  }

  /** The copy of the bytes from tot to end, all inside block n, extends what has been written. */
  lemma WrittenStore(v: View, u: View, w: View, i: nat, off: nat, src: seq<Byte>, tot: nat, end: nat, n: nat, at: nat)
    requires Shaped(v.blocks, v.inodes) && Shaped(u.blocks, u.inodes) && Shaped(w.blocks, w.inodes)
    requires Written(v, u, i, off, src, tot)
    requires tot <= end <= |src| && off + tot == n * BSIZE + at && at + end - tot <= BSIZE && Has(u, i, n)
    requires Stored(u, w, i, n, at, src[tot..end])
    ensures Written(v, w, i, off, src, end)
  {
    forall x: nat, k: nat | Has(v, x, k) ensures Has(w, x, k) && (x != i ==> BlockAt(w, x, k) == BlockAt(v, x, k)) {
      assert Has(u, x, k);
    }
    forall k: nat, q: nat ensures Copied(w, i, off, src, end, k, q) {
      assert Copied(u, i, off, src, tot, k, q);
      if q < BSIZE && Within(k, q, off, end) {
        assert !Within(k, q, off, tot) ==> k == n && at <= q < at + end - tot;
      }
    }
    forall k: nat, q: nat ensures Kept(v, w, i, off, end, k, q) {
      assert Kept(v, u, i, off, tot, k, q);
      assert q < BSIZE && !Within(k, q, off, end) && k == n ==> !(at <= q < at + end - tot);
    }
  }

  function Contents(v: View, x: nat): (r: seq<Byte>)
    requires Shaped(v.blocks, v.inodes) && x < |v.inodes|
    ensures |r| == v.inodes[x].size && forall p :: 0 <= p < |r| ==> r[p] == BlockAt(v, x, p / BSIZE)[p % BSIZE]
  {
    seq(v.inodes[x].size, p requires 0 <= p => BlockAt(v, x, p / BSIZE)[p % BSIZE])
  }

  /** s with data laid over it from offset off on, growing it if need be. */
  function Overlay(s: seq<Byte>, off: nat, data: seq<Byte>): (r: seq<Byte>)
    requires off <= |s|
    ensures |r| == if off + |data| > |s| then off + |data| else |s|
    ensures forall p :: 0 <= p < |r| ==> r[p] == if off <= p < off + |data| then data[p - off] else s[p]
  {
    s[..off] + data + (if off + |data| < |s| then s[off + |data|..] else [])
  }

  function Resize(v: View, i: nat, size: nat): View
    requires i < |v.inodes|
  {
    View(v.blocks, v.inodes[i := Inode(v.inodes[i].addrs, size)], v.owner)
  }

  lemma ResizeOwns(v: View, i: nat, size: nat)
    requires Shaped(v.blocks, v.inodes) && Owns(v.blocks, v.inodes, v.owner) && i < |v.inodes|
    ensures var w := Resize(v, i, size); Shaped(w.blocks, w.inodes) && Owns(w.blocks, w.inodes, w.owner)
    ensures forall x: nat, n: nat :: BlockAt(Resize(v, i, size), x, n) == BlockAt(v, x, n)
  {
    var w := Resize(v, i, size);
    assert forall x: nat, k: nat :: x < |v.inodes| && k < NSLOT ==>
      Entry(w.blocks, w.inodes[x], k) == Entry(v.blocks, v.inodes[x], k);
    forall b | b in v.owner ensures HeldAt(w.blocks, w.inodes, v.owner[b], b) {
      assert HeldAt(v.blocks, v.inodes, v.owner[b], b);
    }
  }

  /** Growing the size over blocks that are there keeps everything sound. */
  lemma ResizeSound(v: View, i: nat, size: nat)
    requires Sound(v) && i < |v.inodes| && size <= MAXFILE * BSIZE
    requires forall n: nat :: n < MAXFILE && n * BSIZE < size ==> Has(v, i, n)
    ensures Sound(Resize(v, i, size))
    ensures forall x: nat, n: nat :: BlockAt(Resize(v, i, size), x, n) == BlockAt(v, x, n)
  {
    var w := Resize(v, i, size);
    ResizeOwns(v, i, size);
    forall n: nat | n < MAXFILE && n * BSIZE < size ensures Entry(w.blocks, w.inodes[i], SlotOf(n)) != 0 {
      assert Has(v, i, n);
    }
  }

  lemma HasBelowSize(v: View, x: nat, n: nat)
    requires Sound(v) && x < |v.inodes| && n * BSIZE < v.inodes[x].size
    ensures Has(v, x, n)
  {
    assert NoHoles(v.blocks, v.inodes[x]);
    FilledHas(v, x, n);
  }

  /** Size of file i once tot bytes are written at offset off. */
  function SizeAfter(v: View, i: nat, off: nat, tot: nat): nat
    requires i < |v.inodes|
  {
    if off + tot > v.inodes[i].size then off + tot else v.inodes[i].size
  }

  lemma WrittenSound(v: View, u: View, i: nat, off: nat, src: seq<Byte>, tot: nat)
    requires Sound(v) && Sound(u) && Written(v, u, i, off, src, tot) && i < |v.inodes| && off <= v.inodes[i].size
    requires off + tot <= MAXFILE * BSIZE
    ensures Sound(Resize(u, i, SizeAfter(v, i, off, tot)))
    ensures forall x: nat, n: nat :: BlockAt(Resize(u, i, SizeAfter(v, i, off, tot)), x, n) == BlockAt(u, x, n)
  {
    var size := SizeAfter(v, i, off, tot);
    forall n: nat | n < MAXFILE && n * BSIZE < size ensures Has(u, i, n) {
      if n * BSIZE < v.inodes[i].size {
        HasBelowSize(v, i, n);
      } else {
        assert Within(n, 0, off, tot) && Copied(u, i, off, src, tot, n, 0);
      }
    }
    ResizeSound(u, i, size);
  }

  lemma OthersUntouched(v: View, u: View, i: nat, off: nat, src: seq<Byte>, tot: nat, x: nat)
    requires Sound(v) && Shaped(u.blocks, u.inodes) && Written(v, u, i, off, src, tot) && x < |v.inodes| && x != i
    ensures Contents(u, x) == Contents(v, x)
  {
    forall p | 0 <= p < v.inodes[x].size ensures Contents(u, x)[p] == Contents(v, x)[p] {
      HasBelowSize(v, x, p / BSIZE);
    }
  }

  lemma ByteAtPos(v: View, u: View, i: nat, off: nat, src: seq<Byte>, tot: nat, n: nat, q: nat)
    requires Sound(v) && Shaped(u.blocks, u.inodes) && Written(v, u, i, off, src, tot) && i < |v.inodes| && q < BSIZE
    requires n * BSIZE + q < SizeAfter(v, i, off, tot) && off <= v.inodes[i].size
    ensures BlockAt(u, i, n)[q] == if Within(n, q, off, tot) then src[n * BSIZE + q - off] else BlockAt(v, i, n)[q]
  {
    assert Copied(u, i, off, src, tot, n, q) && Kept(v, u, i, off, tot, n, q);
    if !Within(n, q, off, tot) {
      HasBelowSize(v, i, n);
    }
  }

  lemma ByteWritten(v: View, u: View, i: nat, off: nat, src: seq<Byte>, tot: nat, p: nat)
    requires Sound(v) && Sound(u) && Written(v, u, i, off, src, tot) && i < |v.inodes| && off <= v.inodes[i].size
    requires p < SizeAfter(v, i, off, tot)
    ensures BlockAt(u, i, p / BSIZE)[p % BSIZE] == Overlay(Contents(v, i), off, src[..tot])[p]
  {
    ByteAtPos(v, u, i, off, src, tot, p / BSIZE, p % BSIZE);
  }

  /** What writei leaves: the old contents overlaid with the bytes written, and every other file as it was. */
  lemma WrittenContents(v: View, u: View, w: View, i: nat, off: nat, src: seq<Byte>, tot: nat)
    requires Sound(v) && Sound(u) && Written(v, u, i, off, src, tot) && i < |v.inodes| && off <= v.inodes[i].size
    requires off + tot <= MAXFILE * BSIZE && w == Resize(u, i, SizeAfter(v, i, off, tot))
    ensures Sound(w) && Contents(w, i) == Overlay(Contents(v, i), off, src[..tot])
    ensures forall x: nat :: x < |v.inodes| && x != i ==> Contents(w, x) == Contents(v, x)
  {
    WrittenSound(v, u, i, off, src, tot);
    forall x: nat | x < |v.inodes| && x != i ensures Contents(w, x) == Contents(v, x) {
      OthersUntouched(v, u, i, off, src, tot, x);
    }
    forall p | 0 <= p < w.inodes[i].size ensures Contents(w, i)[p] == Overlay(Contents(v, i), off, src[..tot])[p] {
      ByteWritten(v, u, i, off, src, tot, p);
    }
  }

  /** One round of writei: bmap takes the view from u to mid, the copy of data into block n takes it to w. */
  datatype Round = Round(u: View, mid: View, w: View, n: nat, at: nat, data: seq<Byte>)

  ghost predicate RoundOk(r: Round, i: nat) {
    && Sound(r.u) && Sound(r.mid) && Sound(r.w) && r.at + |r.data| <= BSIZE
    && Extends(r.u, r.mid, i) && Has(r.mid, i, r.n) && Stored(r.mid, r.w, i, r.n, r.at, r.data)
  }

  lemma WrittenRound(v: View, r: Round, i: nat, off: nat, src: seq<Byte>, tot: nat, end: nat)
    requires Shaped(v.blocks, v.inodes) && RoundOk(r, i) && Written(v, r.u, i, off, src, tot)
    requires tot <= end <= |src| && r.data == src[tot..end] && off + tot == r.n * BSIZE + r.at
    ensures Written(v, r.w, i, off, src, end)
  {
    WrittenExtend(v, r.u, r.mid, i, off, src, tot);
    WrittenStore(v, r.mid, r.w, i, off, src, tot, end, r.n, r.at);
  }

  /** Every slot of file i is empty. */
  ghost predicate Emptied(v: View, i: nat)
    requires Shaped(v.blocks, v.inodes) && i < |v.inodes|
  {
    v.inodes[i].size == 0 && forall k: nat :: k < NSLOT ==> Entry(v.blocks, v.inodes[i], k) == 0
  }

  /** The bytes copied out of block n are the next ones of the file. */
  lemma ReadRound(v: View, x: nat, off: nat, from: nat, to: nat, n: nat, at: nat)
    requires Shaped(v.blocks, v.inodes) && x < |v.inodes| && from == n * BSIZE + at
    requires off <= from <= to <= v.inodes[x].size && at + (to - from) <= BSIZE
    ensures Contents(v, x)[off..from] + BlockAt(v, x, n)[at..at + (to - from)] == Contents(v, x)[off..to]
  {
    var chunk, part := BlockAt(v, x, n)[at..at + (to - from)], Contents(v, x)[from..to];
    forall q | 0 <= q < |chunk| ensures chunk[q] == part[q] {
      var p := from + q;
      assert p / BSIZE == n && p % BSIZE == at + q;
    }
    assert chunk == part;
  }

  /** From v to w, file i received the first tot bytes of src at off, nothing if off lies past its end; every other
      file is as before. */
  ghost predicate Laid(v: View, w: View, i: nat, off: nat, src: seq<Byte>, tot: nat)
    requires Shaped(v.blocks, v.inodes) && Shaped(w.blocks, w.inodes) && i < |v.inodes|
  {
    && tot <= |src| && |w.inodes| == |v.inodes|
    && (if off <= v.inodes[i].size then Contents(w, i) == Overlay(Contents(v, i), off, src[..tot])
        else Contents(w, i) == Contents(v, i) && tot == 0)
    && forall x: nat :: x < |v.inodes| && x != i ==> Contents(w, x) == Contents(v, x)
  }

  lemma LaidNext(v: View, u: View, w: View, i: nat, off: nat, src: seq<Byte>, tot: nat, end: nat)
    requires Shaped(v.blocks, v.inodes) && Shaped(u.blocks, u.inodes) && Shaped(w.blocks, w.inodes)
    requires i < |v.inodes| && Laid(v, u, i, off, src, tot) && tot <= end <= |src|
    requires off + tot <= u.inodes[i].size && Laid(u, w, i, off + tot, src[tot..], end - tot)
    ensures Laid(v, w, i, off, src, end)
  {
    assert src[..tot] + src[tot..][..end - tot] == src[..end];
    if off <= v.inodes[i].size {
      assert Contents(w, i) == Overlay(Contents(v, i), off, src[..end]);
    }
  }

  /** The same whatever writei returned for the rest. */
  lemma LaidChunk(v: View, u: View, w: View, i: nat, off: nat, src: seq<Byte>, k: nat, r: int, tot: nat)
    requires Shaped(v.blocks, v.inodes) && Shaped(u.blocks, u.inodes) && Shaped(w.blocks, w.inodes)
    requires i < |v.inodes| && Laid(v, u, i, off, src, k) && |w.inodes| == |u.inodes|
    requires k + r <= |src| && tot == if r > 0 then k + r else k
    requires r < 0 ==> w == u
    requires r >= 0 ==> off + k <= u.inodes[i].size && Contents(w, i) == Overlay(Contents(u, i), off + k, src[k..][..r])
    requires forall x: nat :: x < |v.inodes| && x != i ==> Contents(w, x) == Contents(u, x)
    ensures Laid(v, w, i, off, src, tot)
  {
    if r >= 0 {
      assert Laid(u, w, i, off + k, src[k..], r);
      LaidNext(v, u, w, i, off, src, k, k + r);
    }
  }

  // ---------- Truncation ----------

  /** Owners left once inode i has lost everything. */
  function Less(owner: map<nat, (nat, nat)>, i: nat): map<nat, (nat, nat)> {
    map b | b in owner && owner[b].0 != i :: owner[b]
  }

  /** b is one of the first j blocks listed in the indirect block of i. */
  predicate Listed(owner: map<nat, (nat, nat)>, i: nat, j: nat, b: nat) {
    b in owner && owner[b].0 == i && NDIRECT < owner[b].1 <= NDIRECT + j
  }

  /** The next entry of the indirect block is what is listed in addition. */
  lemma ListedNext(blocks: seq<Block>, inodes: seq<Inode>, owner: map<nat, (nat, nat)>, i: nat, j: nat, next: nat,
      a: nat)
    requires Shaped(blocks, inodes) && Owns(blocks, inodes, owner) && i < |inodes| && j < NINDIRECT && next == j + 1
    requires a == Entry(blocks, inodes[i], NDIRECT + next)
    ensures a != 0 ==> a in owner && !Listed(owner, i, j, a)
    ensures forall b :: Listed(owner, i, next, b) <==> Listed(owner, i, j, b) || (a != 0 && b == a)
  {
    forall b ensures Listed(owner, i, next, b) <==> Listed(owner, i, j, b) || (a != 0 && b == a) {
      assert b in owner ==> HeldAt(blocks, inodes, owner[b], b);
    }
  }

  /** With all of them listed, only the indirect block itself is left to free. */
  lemma ListedAll(blocks: seq<Block>, inodes: seq<Inode>, owner: map<nat, (nat, nat)>, i: nat, ind: nat)
    requires Shaped(blocks, inodes) && Owns(blocks, inodes, owner) && i < |inodes|
    requires ind == inodes[i].addrs[NDIRECT] && ind != 0
    ensures ind in owner && !Listed(owner, i, NINDIRECT, ind)
    ensures forall b :: b in owner ==> (b !in LessIndirect(owner, i) <==> b == ind || Listed(owner, i, NINDIRECT, b))
  {
    assert Entry(blocks, inodes[i], NDIRECT) == ind;
    forall b | b in owner ensures b !in LessIndirect(owner, i) <==> b == ind || Listed(owner, i, NINDIRECT, b) {
      assert HeldAt(blocks, inodes, owner[b], b);
    }
  }

  /** v became w by emptying every slot of inode i and nothing else. */
  lemma Truncated(v: View, w: View, i: nat)
    requires Sound(v) && Shaped(w.blocks, w.inodes) && Owns(w.blocks, w.inodes, w.owner)
    requires w.blocks == v.blocks && |w.inodes| == |v.inodes| && i < |v.inodes| && w.inodes[i].size == 0
    requires forall x :: 0 <= x < |v.inodes| && x != i ==> w.inodes[x] == v.inodes[x]
    requires forall k :: 0 <= k <= NDIRECT ==> w.inodes[i].addrs[k] == 0
    requires Less(w.owner, i) == Less(v.owner, i)
    ensures Sound(w) && Emptied(w, i) && w.owner == Less(v.owner, i)
    ensures forall x: nat :: x < |v.inodes| && x != i ==> Contents(w, x) == Contents(v, x)
  {
    forall b | b in w.owner ensures w.owner[b].0 != i {
      assert HeldAt(w.blocks, w.inodes, w.owner[b], b);
    }
    forall x: nat | x < |v.inodes| && x != i ensures Contents(w, x) == Contents(v, x) {
      assert forall n: nat :: BlockAt(w, x, n) == BlockAt(v, x, n);
    }
  }
}
