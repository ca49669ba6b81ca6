/**
 The code of log.c as it runs: an object whose fields the calls update in place, over a disk that
 records the image left by every block write. The images between two calls of `commit` or during
 `recover_from_log` are exactly the states a crash can leave behind.
 */
module Log {
  import opened Common
  import opened LogMachine
  import opened LogInvariant

  // ---------- The disk images commit and recovery pass through ----------

  /** d with the first n log slots holding the newest contents (in cur) of the logged blocks. */
  function WithSlots(c: Params, d: Image, lh: seq<nat>, cur: Image, n: nat): Image
    requires n <= |lh|
  {
    if n == 0 then d else WithSlots(c, d, lh, cur, n - 1)[Slot(c, n - 1) := At(cur, lh[n - 1])]
  }

  /** d with the first n logged blocks copied from their slots to their homes. */
  function WithHomes(c: Params, d: Image, lh: seq<nat>, n: nat): Image
    requires n <= |lh|
  {
    if n == 0 then d else WithHomes(c, d, lh, n - 1)[lh[n - 1] := At(WithHomes(c, d, lh, n - 1), Slot(c, n - 1))]
  }

  function SlotImages(c: Params, d: Image, lh: seq<nat>, cur: Image, n: nat): seq<Image>
    requires n <= |lh|
  {
    seq(n, i requires 0 <= i < n => WithSlots(c, d, lh, cur, i + 1))
  }

  function HomeImages(c: Params, d: Image, lh: seq<nat>, n: nat): seq<Image>
    requires n <= |lh|
  {
    seq(n, i requires 0 <= i < n => WithHomes(c, d, lh, i + 1))
  }

  /** The header write that commits, on top of the written slots. */
  function CommittedImage(c: Params, d: Image, lh: seq<nat>, cur: Image): Image {
    WithSlots(c, d, lh, cur, |lh|)[c.start := Head(lh)]
  }

  function Cleared(c: Params, d: Image, lh: seq<nat>): Image { WithHomes(c, d, lh, |lh|)[c.start := Head([])] }

  function CommitImages(c: Params, d: Image, lh: seq<nat>, cur: Image): seq<Image> {
    if |lh| == 0 then []
    else
      var e := CommittedImage(c, d, lh, cur);
      SlotImages(c, d, lh, cur, |lh|) + [e] + HomeImages(c, e, lh, |lh|) + [Cleared(c, e, lh)]
  }

  function RecoveryImages(c: Params, d: Image): seq<Image> {
    var head := HeadOf(At(d, c.start));
    HomeImages(c, d, head, |head|) + [Cleared(c, d, head)]
  }

  lemma Joined(past: seq<Image>, slots: seq<Image>, e: Image, homes: seq<Image>, f: Image)
    ensures past + slots + [e] + homes + [f] == past + (slots + [e] + homes + [f])
  {
  }

  // ---------- The code ----------

  class Log {
    const c: Params
    var disk: Image
    /** Newest contents of the blocks in the buffer cache. */
    var cache: Image
    var pinned: set<nat>
    var lh: seq<nat>
    var outstanding: nat
    var committing: bool
    ghost var images: seq<Image>   // after each block write, oldest first

    /** initlog: recover from whatever the disk holds. */
    constructor (c: Params, image: Image)
      requires ParamsOk(c) && GoodHead(c, HeadOf(At(image, c.start)))
      ensures Valid() && this.c == c && lh == [] && outstanding == 0 && !committing
      ensures images == RecoveryImages(c, image) && disk == images[|images| - 1]
    {
      this.c, disk, cache, pinned := c, image, map[], {};
      lh, outstanding, committing, images := [], 0, false, [];
      new;
      RecoverFromLog();
    }

    function Bread(b: nat): Block
      reads this
    {
      if b in cache then cache[b] else At(disk, b)
    }

    /** Buffers agree with the disk, except those of logged blocks, which are pinned until installed. */
    ghost predicate Valid()
      reads this
    {
      && ParamsOk(c)
      && GoodHead(c, lh)
      && HeadOf(At(disk, c.start)) == []
      && pinned == Blocks(lh)
      && (forall b :: b in lh ==> b in cache)
      && (forall b :: b in cache && b !in lh ==> cache[b] == At(disk, b))
    }

    method Bwrite(b: nat, data: Block)
      modifies this`disk, this`cache, this`images
      ensures disk == old(disk)[b := data] && cache == old(cache)[b := data] && images == old(images) + [disk]
    {
      disk, cache := disk[b := data], cache[b := data];
      images := images + [disk];
    }

    method WriteHead()
      modifies this`disk, this`cache, this`images
      ensures disk == old(disk)[c.start := Head(lh)] && cache == old(cache)[c.start := Head(lh)]
      ensures images == old(images) + [disk]
    {
      Bwrite(c.start, Head(lh));
    }

    method WriteLog()
      requires Valid()
      modifies this`disk, this`cache, this`images
      ensures Valid() && forall b :: b in lh ==> cache[b] == old(cache)[b]
      ensures disk == WithSlots(c, old(disk), lh, old(cache), |lh|)
      ensures images == old(images) + SlotImages(c, old(disk), lh, old(cache), |lh|)
    {
      var tail := 0;
      while tail < |lh|
        invariant 0 <= tail <= |lh| && Valid()
        invariant forall b :: b in lh ==> cache[b] == old(cache)[b]
        invariant disk == WithSlots(c, old(disk), lh, old(cache), tail)
        invariant images == old(images) + SlotImages(c, old(disk), lh, old(cache), tail)
      {
        assert InLog(c, Slot(c, tail));
        Bwrite(Slot(c, tail), Bread(lh[tail]));
        tail := tail + 1;
      }
    }

    /** install_trans: `recovering` tells whether the buffers were ever pinned. */
    method InstallTrans(recovering: bool)
      requires ParamsOk(c) && GoodHead(c, lh)
      requires forall b :: b in cache && (recovering || b !in lh) ==> cache[b] == At(disk, b)
      modifies this`disk, this`cache, this`images, this`pinned
      ensures disk == WithHomes(c, old(disk), lh, |lh|)
      ensures images == old(images) + HomeImages(c, old(disk), lh, |lh|)
      ensures forall b :: b in cache ==> cache[b] == At(disk, b)
      ensures pinned == if recovering then old(pinned) else old(pinned) - Blocks(lh)
    {
      var tail := 0;
      while tail < |lh|
        invariant 0 <= tail <= |lh|
        invariant disk == WithHomes(c, old(disk), lh, tail)
        invariant images == old(images) + HomeImages(c, old(disk), lh, tail)
        invariant forall b :: b in cache && (recovering || b !in lh[tail..]) ==> cache[b] == At(disk, b)
        invariant pinned == if recovering then old(pinned) else old(pinned) - Blocks(lh[..tail])
      {
        assert InLog(c, Slot(c, tail));
        assert lh[..tail + 1] == lh[..tail] + [lh[tail]];
        assert lh[tail..] == [lh[tail]] + lh[tail + 1..];
        Bwrite(lh[tail], Bread(Slot(c, tail)));
        if !recovering {
          pinned := pinned - {lh[tail]};
        }
        tail := tail + 1;
      }
      assert lh[..|lh|] == lh;
    }

    method Commit()
      requires Valid()
      modifies this`disk, this`cache, this`images, this`lh, this`pinned
      ensures Valid() && lh == []
      ensures images == old(images) + CommitImages(c, old(disk), old(lh), old(cache))
      ensures disk == if |old(images)| < |images| then images[|images| - 1] else old(disk)
    {
      if |lh| > 0 {
        WriteLog();
        WriteHead();
        ghost var e := disk;
        InstallTrans(false);
        lh := [];
        WriteHead();
        Joined(old(images), SlotImages(c, old(disk), old(lh), old(cache), |old(lh)|), e,
               HomeImages(c, e, old(lh), |old(lh)|), disk);
      }
    }

    /** recover_from_log, run by initlog over whatever disk the machine boots with. */
    method RecoverFromLog()
      requires ParamsOk(c) && cache == map[] && pinned == {} && GoodHead(c, HeadOf(At(disk, c.start)))
      modifies this`disk, this`cache, this`images, this`lh, this`pinned
      ensures Valid() && lh == [] && images == old(images) + RecoveryImages(c, old(disk))
      ensures disk == images[|images| - 1]
    {
      lh := HeadOf(Bread(c.start));   // read_head
      InstallTrans(true);
      lh := [];
      WriteHead();
    }

    /** One pass of begin_op's loop: false means the caller goes back to sleep. */
    method BeginOp() returns (admitted: bool)
      modifies this`outstanding
      ensures admitted <==> !committing && |lh| + (old(outstanding) + 1) * c.maxOp <= c.logSize
      ensures outstanding == old(outstanding) + if admitted then 1 else 0
    {
      admitted := false;
      if !committing && |lh| + (outstanding + 1) * c.maxOp <= c.logSize {
        outstanding := outstanding + 1;
        admitted := true;
      }
    }

    /** log_write of a buffer whose holder has put `data` in it: false is a panic. */
    method LogWrite(b: nat, data: Block) returns (ok: bool)
      requires Valid() && !InLog(c, b)
      modifies this`cache, this`lh, this`pinned
      ensures ok <==> !(|old(lh)| >= c.logSize || |old(lh)| >= c.size - 1 || outstanding < 1)
      ensures ok ==> Valid() && lh == Append(old(lh), b) && cache == old(cache)[b := data]
      ensures !ok ==> lh == old(lh) && pinned == old(pinned)
    {
      cache := cache[b := data];
      if |lh| >= c.logSize || |lh| >= c.size - 1 || outstanding < 1 {
        return false;
      }
      var i := 0;
      while i < |lh| && lh[i] != b
        invariant 0 <= i <= |lh| && b !in lh[..i]
      {
        i := i + 1;
      }
      if i == |lh| {
        assert b !in lh by { assert lh[..i] == lh; }
        pinned := pinned + {b};   // bpin
        lh := lh + [b];
      }
      return true;
    }

    /** end_op: the last call out commits before it clears `committing`; false is the "log.committing" panic. */
    method EndOp() returns (ok: bool)
      requires Valid() && outstanding >= 1
      modifies this
      ensures ok <==> !old(committing)
      ensures outstanding == old(outstanding) - 1
      ensures ok && outstanding > 0 ==> lh == old(lh) && images == old(images) && !committing && Valid()
      ensures ok && outstanding == 0 ==> Valid() && lh == [] && !committing
      ensures ok && outstanding == 0 ==> images == old(images) + CommitImages(c, old(disk), old(lh), old(cache))
      ensures ok && outstanding == 0 ==> AllAtomic(c, old(disk), old(lh), old(cache), images, |old(images)|)
    {
      outstanding := outstanding - 1;
      if committing {
        return false;
      }
      if outstanding == 0 {
        committing := true;
        Commit();
        committing := false;
        EveryImageAtomic(c, old(disk), old(lh), old(cache), old(images), images);
      }
      return true;
    }
  }

  // ---------- What a crash among those images recovers to ----------

  /** Home contents after the transaction: what the cache holds for the logged blocks, the rest unchanged. */
  ghost predicate Applies(c: Params, d: Image, before: Image, lh: seq<nat>, cur: Image) {
    forall b: nat :: !InLog(c, b) ==> Replay(c, d, b) == At(if b in lh then cur else before, b)
  }

  lemma {:induction false} SlotsKeep(c: Params, d: Image, lh: seq<nat>, cur: Image, n: nat)
    requires GoodHead(c, lh) && c.size >= 1 && n <= |lh|
    ensures forall b: nat :: !InLog(c, b) || b == c.start ==> At(WithSlots(c, d, lh, cur, n), b) == At(d, b)
    ensures SlotsInv(c, WithSlots(c, d, lh, cur, n), cur, lh, n)
  {
    if n > 0 {
      SlotsKeep(c, d, lh, cur, n - 1);
      assert InLog(c, Slot(c, n - 1));
    }
  }

  /** The home blocks of the first n header entries hold what recovery would give them. */
  ghost predicate HomesDone(c: Params, d: Image, e: Image, head: seq<nat>, n: nat) {
    forall j :: 0 <= j < n && j < |head| ==> At(e, head[j]) == Replay(c, d, head[j])
  }

  lemma {:induction false} HomesKeep(c: Params, d: Image, head: seq<nat>, n: nat)
    requires c.size >= 1 && head == HeadOf(At(d, c.start)) && GoodHead(c, head) && n <= |head|
    ensures At(WithHomes(c, d, head, n), c.start) == At(d, c.start)
    ensures Alike(c, d, WithHomes(c, d, head, n)) && HomesDone(c, d, WithHomes(c, d, head, n), head, n)
  {
    if n > 0 {
      HomesKeep(c, d, head, n - 1);
      var e := WithHomes(c, d, head, n - 1);
      assert IndexOf(head, head[n - 1]) == n - 1;
      ReplayAfterInstall(c, e, head[n - 1], At(e, Slot(c, n - 1)));
    }
  }

  lemma ClearedKeeps(c: Params, d: Image)
    requires c.size >= 1 && GoodHead(c, HeadOf(At(d, c.start)))
    ensures var e := Cleared(c, d, HeadOf(At(d, c.start)));
      && HeadOf(At(e, c.start)) == [] && Alike(c, d, e)
      && forall b: nat :: !InLog(c, b) ==> At(e, b) == Replay(c, d, b)
  {
    var head := HeadOf(At(d, c.start));
    HomesKeep(c, d, head, |head|);
    var w := WithHomes(c, d, head, |head|);
    forall b: nat | !InLog(c, b) ensures At(w, b) == Replay(c, d, b) {
      if b in head {
        assert head[IndexOf(head, b)] == b;
      } else {
        assert Replay(c, w, b) == At(w, b);
      }
    }
  }

  lemma SlotImageRecovers(c: Params, d: Image, lh: seq<nat>, cur: Image, n: nat)
    requires c.size >= 1 && GoodHead(c, lh) && HeadOf(At(d, c.start)) == [] && n <= |lh|
    ensures var e := WithSlots(c, d, lh, cur, n); HeadOf(At(e, c.start)) == [] && Recovers(c, e, d)
  {
    SlotsKeep(c, d, lh, cur, n);
  }

  lemma CommittedImageRecovers(c: Params, d: Image, lh: seq<nat>, cur: Image)
    requires c.size >= 1 && GoodHead(c, lh)
    ensures var e := CommittedImage(c, d, lh, cur); HeadOf(At(e, c.start)) == lh && Applies(c, e, d, lh, cur)
  {
    var w, e := WithSlots(c, d, lh, cur, |lh|), CommittedImage(c, d, lh, cur);
    SlotsKeep(c, d, lh, cur, |lh|);
    forall b: nat | !InLog(c, b) ensures Replay(c, e, b) == At(if b in lh then cur else d, b) {
      if b in lh {
        var j := IndexOf(lh, b);
        assert At(w, Slot(c, j)) == At(cur, lh[j]);
      }
    }
  }

  /** The images up to the last slot recover to the old contents, those from the header write on to the new ones. */
  lemma CommitImageRecovers(c: Params, d: Image, lh: seq<nat>, cur: Image, k: nat)
    requires c.size >= 1 && GoodHead(c, lh) && HeadOf(At(d, c.start)) == [] && k < |CommitImages(c, d, lh, cur)|
    ensures var e := CommitImages(c, d, lh, cur)[k];
      && GoodHead(c, HeadOf(At(e, c.start)))
      && (k < |lh| ==> Recovers(c, e, d))
      && (k >= |lh| ==> Applies(c, e, d, lh, cur))
  {
    if k < |lh| {
      SlotImageRecovers(c, d, lh, cur, k + 1);
    } else {
      var e := CommittedImage(c, d, lh, cur);
      CommittedImageRecovers(c, d, lh, cur);
      if |lh| < k <= 2 * |lh| {
        HomesKeep(c, e, lh, k - |lh|);
      } else if k > 2 * |lh| {
        ClearedKeeps(c, e);
      }
    }
  }

  /** Every image of a recovery, the last included, recovers to the same contents as the image it started from. */
  lemma RecoveryImageRecovers(c: Params, d: Image, k: nat)
    requires c.size >= 1 && GoodHead(c, HeadOf(At(d, c.start))) && k < |RecoveryImages(c, d)|
    ensures var e := RecoveryImages(c, d)[k]; GoodHead(c, HeadOf(At(e, c.start))) && Alike(c, d, e)
  {
    var head := HeadOf(At(d, c.start));
    if k < |head| {
      HomesKeep(c, d, head, k + 1);
    } else {
      ClearedKeeps(c, d);
    }
  }

  /** Where a recovery of d stands after k of its writes, or at its end if it has fewer. */
  function CutShort(c: Params, d: Image, k: nat): Image {
    var images := RecoveryImages(c, d);
    if k == 0 then d else if k <= |images| then images[k - 1] else images[|images| - 1]
  }

  /** The disk after recovery was cut short once for each number in ks, which counts the writes that got through. */
  function AfterCrashes(c: Params, d: Image, ks: seq<nat>): Image
    decreases |ks|
  {
    if |ks| == 0 then d else AfterCrashes(c, CutShort(c, d, ks[0]), ks[1..])
  }

  lemma CutShortKeeps(c: Params, d: Image, k: nat)
    requires c.size >= 1 && GoodHead(c, HeadOf(At(d, c.start)))
    ensures GoodHead(c, HeadOf(At(CutShort(c, d, k), c.start))) && Alike(c, d, CutShort(c, d, k))
  {
    var images := RecoveryImages(c, d);
    if k > 0 {
      RecoveryImageRecovers(c, d, if k <= |images| then k - 1 else |images| - 1);
    }
  }

  lemma {:induction false} CrashesKeep(c: Params, d: Image, ks: seq<nat>)
    requires c.size >= 1 && GoodHead(c, HeadOf(At(d, c.start)))
    ensures GoodHead(c, HeadOf(At(AfterCrashes(c, d, ks), c.start))) && Alike(c, d, AfterCrashes(c, d, ks))
    decreases |ks|
  {
    if |ks| > 0 {
      CutShortKeeps(c, d, ks[0]);
      CrashesKeep(c, CutShort(c, d, ks[0]), ks[1..]);
    }
  }

  /** What the disk holds after those crashes and one recovery that completes. */
  function Final(c: Params, d: Image, ks: seq<nat>): Image {
    var images := RecoveryImages(c, AfterCrashes(c, d, ks));
    images[|images| - 1]
  }

  ghost predicate AsBefore(c: Params, e: Image, d: Image) { forall b: nat :: !InLog(c, b) ==> At(e, b) == At(d, b) }

  ghost predicate AsAfter(c: Params, e: Image, d: Image, lh: seq<nat>, cur: Image) {
    forall b: nat :: !InLog(c, b) ==> At(e, b) == At(if b in lh then cur else d, b)
  }

  /** Crash after any k writes of commit, then after any number of writes of any number of recoveries: once a
      recovery completes, all home blocks are as before the transaction, or all are as after it. */
  lemma CommitIsAtomic(c: Params, d: Image, lh: seq<nat>, cur: Image, k: nat, ks: seq<nat>)
    requires c.size >= 1 && GoodHead(c, lh) && HeadOf(At(d, c.start)) == [] && k <= |CommitImages(c, d, lh, cur)|
    ensures var e := if k == 0 then d else CommitImages(c, d, lh, cur)[k - 1];
      if k <= |lh| then AsBefore(c, Final(c, e, ks), d) else AsAfter(c, Final(c, e, ks), d, lh, cur)
  {
    var e := if k == 0 then d else CommitImages(c, d, lh, cur)[k - 1];
    if k > 0 {
      CommitImageRecovers(c, d, lh, cur, k - 1);
    }
    CrashesKeep(c, e, ks);
    ClearedKeeps(c, AfterCrashes(c, e, ks));
  }

  /** The images from number `from` on, one for each write of a commit, are all-or-nothing under any crashes. */
  ghost predicate AllAtomic(c: Params, d: Image, lh: seq<nat>, cur: Image, images: seq<Image>, from: nat) {
    forall i: nat, ks: seq<nat> :: from <= i < |images| ==>
      if i < from + |lh| then AsBefore(c, Final(c, images[i], ks), d)
      else AsAfter(c, Final(c, images[i], ks), d, lh, cur)
  }

  lemma EveryImageAtomic(c: Params, d: Image, lh: seq<nat>, cur: Image, before: seq<Image>, images: seq<Image>)
    requires c.size >= 1 && GoodHead(c, lh) && HeadOf(At(d, c.start)) == []
    requires images == before + CommitImages(c, d, lh, cur)
    ensures AllAtomic(c, d, lh, cur, images, |before|)
  {
    forall i: nat, ks: seq<nat> | |before| <= i < |images|
      ensures if i < |before| + |lh| then AsBefore(c, Final(c, images[i], ks), d)
              else AsAfter(c, Final(c, images[i], ks), d, lh, cur)
    {
      CommitIsAtomic(c, d, lh, cur, i - |before| + 1, ks);
    }
  }
}
