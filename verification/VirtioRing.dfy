/**
 The split virtqueue between the driver in virtio_disk.c and a block device that completes requests in
 any order (sections 2.6 and 5.2 of OASIS virtio 1.1), as a state machine. Driver steps are the regions
 that virtio_disk.c runs under vdisk_lock; the device takes its steps at any time.
 */
module VirtioRing {
  import opened Common

  const NUM: nat := 8
  const WRAP: nat := 0x10000   // ring indices are 16 bits wide

  /** What a descriptor points at: a request header, a buffer's data, a status byte, or nothing. */
  datatype Addr = Null | Header(i: nat) | Data(b: nat) | Status(i: nat)

  /** write is VRING_DESC_F_WRITE: the device may write there; more is VRING_DESC_F_NEXT. */
  datatype Desc = Desc(addr: Addr, len: nat, write: bool, more: bool, next: nat)

  /** A request header: VIRTIO_BLK_T_OUT or VIRTIO_BLK_T_IN, and the sector. */
  datatype Op = Op(write: bool, sector: nat)

  const BSIZE: nat := 1024

  /** sizeof(struct virtio_blk_req) */
  const HEADER: nat := 16

  function Sector(blockno: nat): nat { blockno * (BSIZE / 512) }

  datatype Info = Info(b: Option<nat>, status: nat)

  datatype Ring = Ring(idx: nat, slots: seq<nat>)

  /** The driver's memory, as virtio_disk.c lays it out; busy are the buffers whose `disk` field is 1. */
  datatype Driver = Driver(free: seq<bool>, desc: seq<Desc>, ops: seq<Op>, info: seq<Info>, avail: Ring, usedIdx: nat,
                           busy: set<nat>)

  /** The used ring, which the device writes, how far it has read the avail ring, and the chains it works on. */
  datatype Device = Device(used: Ring, seen: nat, pending: set<nat>)

  /** Used is the k-th completion, with the status the device gave it. */
  datatype Stage = Queued | Pending | Used(k: nat, status: nat) | Done

  /** A request in flight: its number, its buffer, what it asks, and the descriptors after the first. */
  datatype Req = Req(id: nat, b: nat, op: Op, d1: nat, d2: nat, stage: Stage)

  /** How many requests were ever submitted, fetched, completed and handled. */
  datatype Counts = Counts(submitted: nat, fetched: nat, completed: nat, handled: nat)

  /** History the code does not keep: the requests by first descriptor, which request owns each descriptor, the
      counts, the requests handled but not finished, and the numbers of all that were ever handled. */
  datatype Trace = Trace(reqs: map<nat, Req>, owner: map<nat, nat>, n: Counts, ended: set<nat>, done: set<nat>)

  datatype State = State(v: Driver, d: Device, h: Trace)

  // ---------- Descriptors ----------

  /** alloc_desc: the first free descriptor, NUM if there is none. */
  function FirstFree(free: seq<bool>): (i: nat)
    ensures i <= |free| && (i < |free| ==> free[i]) && forall j :: 0 <= j < i ==> !free[j]
  {
    if |free| == 0 || free[0] then 0 else 1 + FirstFree(free[1..])
  }

  function CountFree(free: seq<bool>): nat {
    if |free| == 0 then 0 else (if free[0] then 1 else 0) + CountFree(free[1..])
  }

  lemma {:induction false} CountUpdate(free: seq<bool>, i: nat, f: bool)
    requires i < |free|
    ensures CountFree(free[i := f]) == CountFree(free) - (if free[i] then 1 else 0) + (if f then 1 else 0)
  {
    if i == 0 {
      assert free[0 := f][1..] == free[1..];
    } else {
      CountUpdate(free[1..], i - 1, f);
      assert free[i := f][1..] == free[1..][i - 1 := f];
    }
  }

  lemma {:induction false} CountSome(free: seq<bool>)
    ensures FirstFree(free) < |free| <==> CountFree(free) > 0
  {
    if |free| > 0 && !free[0] {
      CountSome(free[1..]);
    }
  }

  /** The three descriptors alloc3_desc would take. */
  function Three(free: seq<bool>): (nat, nat, nat) {
    var a := FirstFree(free);
    var f := if a < |free| then free[a := false] else free;
    var b := FirstFree(f);
    var g := if b < |f| then f[b := false] else f;
    (a, b, FirstFree(g))
  }

  predicate HasThree(free: seq<bool>) { Three(free).0 < |free| && Three(free).1 < |free| && Three(free).2 < |free| }

  function Without3(free: seq<bool>, a: nat, b: nat, c: nat): seq<bool>
    requires a < |free| && b < |free| && c < |free|
  {
    free[a := false][b := false][c := false]
  }

  lemma ThreeOk(free: seq<bool>)
    requires HasThree(free)
    ensures var (a, b, c) := Three(free); a != b && a != c && b != c && free[a] && free[b] && free[c]
    ensures var (a, b, c) := Three(free); CountFree(Without3(free, a, b, c)) == CountFree(free) - 3
  {
    var (a, b, c) := Three(free);
    CountUpdate(free, a, false);
    CountUpdate(free[a := false], b, false);
    CountUpdate(free[a := false][b := false], c, false);
  }

  /** alloc3_desc fails exactly when fewer than three descriptors are free. */
  lemma ThreeIffCount(free: seq<bool>)
    ensures HasThree(free) <==> CountFree(free) >= 3
  {
    var (a, b, c) := Three(free);
    CountSome(free);
    if a < |free| {
      CountUpdate(free, a, false);
      CountSome(free[a := false]);
      if b < |free| {
        CountUpdate(free[a := false], b, false);
        CountSome(free[a := false][b := false]);
      }
    }
  }

  // ---------- Steps ----------

  datatype Step = Submit(b: nat, op: Op) | Fetch | Complete(head: nat, status: nat) | Intr | Finish(head: nat)

  predicate Shaped(s: State) {
    && |s.v.free| == |s.v.desc| == |s.v.ops| == |s.v.info| == |s.v.avail.slots| == |s.d.used.slots| == NUM
    && s.v.avail.idx < WRAP && s.d.used.idx < WRAP && s.v.usedIdx < WRAP && s.d.seen < WRAP
  }

  function Inc(i: nat): nat { (i + 1) % WRAP }

  /** virtio_disk_rw up to its first sleep for the result; the caller holds the buffer. */
  predicate CanSubmit(s: State, b: nat) {
    Shaped(s) && HasThree(s.v.free) && forall h :: h in s.h.reqs ==> s.h.reqs[h].b != b
  }

  function HeaderDesc(i0: nat, i1: nat): Desc { Desc(Header(i0), HEADER, false, true, i1) }

  /** The device writes the data of a read. */
  function DataDesc(b: nat, op: Op, i2: nat): Desc { Desc(Data(b), BSIZE, !op.write, true, i2) }

  function StatusDesc(i0: nat): Desc { Desc(Status(i0), 1, true, false, 0) }

  function Formatted(desc: seq<Desc>, b: nat, op: Op, i0: nat, i1: nat, i2: nat): seq<Desc>
    requires i0 < |desc| && i1 < |desc| && i2 < |desc|
  {
    desc[i0 := HeaderDesc(i0, i1)][i1 := DataDesc(b, op, i2)][i2 := StatusDesc(i0)]
  }

  function SubmitDriver(v: Driver, b: nat, op: Op, i0: nat, i1: nat, i2: nat): Driver
    requires |v.free| == |v.desc| == |v.ops| == |v.info| == |v.avail.slots| == NUM && i0 < NUM && i1 < NUM && i2 < NUM
  {
    Driver(Without3(v.free, i0, i1, i2), Formatted(v.desc, b, op, i0, i1, i2), v.ops[i0 := op],
           v.info[i0 := Info(Some(b), 0xff)], Ring(Inc(v.avail.idx), v.avail.slots[v.avail.idx % NUM := i0]),
           v.usedIdx, v.busy + {b})
  }

  function SubmitTrace(h: Trace, b: nat, op: Op, i0: nat, i1: nat, i2: nat): Trace {
    h.(reqs := h.reqs[i0 := Req(h.n.submitted, b, op, i1, i2, Queued)],
       owner := h.owner[i0 := i0][i1 := i0][i2 := i0],
       n := h.n.(submitted := h.n.submitted + 1))
  }

  function DoSubmit(s: State, b: nat, op: Op): State
    requires CanSubmit(s, b)
  {
    var (i0, i1, i2) := Three(s.v.free);
    s.(v := SubmitDriver(s.v, b, op, i0, i1, i2), h := SubmitTrace(s.h, b, op, i0, i1, i2))
  }

  function SetStage(reqs: map<nat, Req>, head: nat, stage: Stage): map<nat, Req> {
    if head in reqs then reqs[head := reqs[head].(stage := stage)] else reqs
  }

  /** The device takes the next chain from the avail ring. */
  predicate CanFetch(s: State) { Shaped(s) && s.d.seen != s.v.avail.idx }

  function DoFetch(s: State): State
    requires CanFetch(s)
  {
    var head := s.v.avail.slots[s.d.seen % NUM];
    s.(d := s.d.(seen := Inc(s.d.seen), pending := s.d.pending + {head}),
       h := s.h.(reqs := SetStage(s.h.reqs, head, Pending), n := s.h.n.(fetched := s.h.n.fetched + 1)))
  }

  /** The second and third descriptor of a chain, ZERO if it has none. */
  function Second(desc: seq<Desc>, head: nat): Desc {
    if head < |desc| && desc[head].more && desc[head].next < |desc| then desc[desc[head].next] else ZERO
  }

  function Third(desc: seq<Desc>, head: nat): Desc {
    var d := Second(desc, head); if d.more && d.next < |desc| then desc[d.next] else ZERO
  }

  /** The status byte a chain ends with, if the device may write it. */
  function StatusOf(desc: seq<Desc>, head: nat): Addr { var d := Third(desc, head); if d.write then d.addr else Null }

  /** The device is done with one of its chains: it writes a status, 0 for success, where the chain says and reports
      the chain. */
  predicate CanComplete(s: State, head: nat) { Shaped(s) && head in s.d.pending }

  function Reported(info: seq<Info>, a: Addr, status: nat): seq<Info> {
    if a.Status? && a.i < |info| then info[a.i := info[a.i].(status := status)] else info
  }

  function DoComplete(s: State, head: nat, status: nat): State
    requires CanComplete(s, head)
  {
    State(s.v.(info := Reported(s.v.info, StatusOf(s.v.desc, head), status)),
          Device(Ring(Inc(s.d.used.idx), s.d.used.slots[s.d.used.idx % NUM := head]), s.d.seen, s.d.pending - {head}),
          s.h.(reqs := SetStage(s.h.reqs, head, Used(s.h.n.completed, status)),
               n := s.h.n.(completed := s.h.n.completed + 1)))
  }

  /** One round of virtio_disk_intr's loop. */
  predicate CanIntr(s: State) { Shaped(s) && s.v.usedIdx != s.d.used.idx }

  /** Chain named by the next entry of the used ring. */
  function NextUsed(s: State): nat
    requires Shaped(s)
  {
    s.d.used.slots[s.v.usedIdx % NUM]
  }

  /** virtio_disk_intr panics, or follows a pointer that is not there. */
  predicate IntrPanics(s: State)
    requires Shaped(s)
  {
    NextUsed(s) >= NUM || s.v.info[NextUsed(s)].status != 0 || s.v.info[NextUsed(s)].b.None?
  }

  function DoIntr(s: State): State
    requires CanIntr(s)
  {
    var id := NextUsed(s);
    if IntrPanics(s) then s
    else
      s.(v := s.v.(busy := s.v.busy - {s.v.info[id].b.value}, usedIdx := Inc(s.v.usedIdx)),
         h := s.h.(reqs := SetStage(s.h.reqs, id, Done), n := s.h.n.(handled := s.h.n.handled + 1),
           ended := s.h.ended + {id},
                   done := s.h.done + (if id in s.h.reqs then {s.h.reqs[id].id} else {})))
  }

  /** virtio_disk_rw wakes up with b->disk clear and frees its chain. */
  predicate CanFinish(s: State, head: nat) {
    Shaped(s) && head in s.h.reqs && head < NUM && s.h.reqs[head].b !in s.v.busy
  }

  const ZERO: Desc := Desc(Null, 0, false, false, 0)

  /** free_chain panics in free_desc on its way down the chain, at most n descriptors long. */
  predicate ChainPanics(free: seq<bool>, desc: seq<Desc>, i: nat, n: nat)
    decreases n
  {
    n == 0 || i >= |free| || i >= |desc| || free[i]
    || (desc[i].more && ChainPanics(free[i := true], desc[i := ZERO], desc[i].next, n - 1))
  }

  function FreeChain(free: seq<bool>, desc: seq<Desc>, i: nat, n: nat): (r: (seq<bool>, seq<Desc>))
    ensures |r.0| == |free| && |r.1| == |desc|
    decreases n
  {
    if n == 0 || i >= |free| || i >= |desc| then (free, desc)
    else if desc[i].more then FreeChain(free[i := true], desc[i := ZERO], desc[i].next, n - 1)
    else (free[i := true], desc[i := ZERO])
  }

  function DoFinish(s: State, head: nat): State
    requires CanFinish(s, head)
  {
    var (free, desc) := FreeChain(s.v.free, s.v.desc, head, NUM);
    var r := s.h.reqs[head];
    s.(v := s.v.(free := free, desc := desc, info := s.v.info[head := s.v.info[head].(b := None)]),
       h := s.h.(reqs := s.h.reqs - {head}, owner := s.h.owner - {head, r.d1, r.d2}, ended := s.h.ended - {head}))
  }

  predicate Enabled(s: State, step: Step) {
    match step
    case Submit(b, _) => CanSubmit(s, b)
    case Fetch => CanFetch(s)
    case Complete(head, _) => CanComplete(s, head)
    case Intr => CanIntr(s)
    case Finish(head) => CanFinish(s, head)
  }

  function Do(s: State, step: Step): State
    requires Enabled(s, step)
  {
    match step
    case Submit(b, op) => DoSubmit(s, b, op)
    case Fetch => DoFetch(s)
    case Complete(head, status) => DoComplete(s, head, status)
    case Intr => DoIntr(s)
    case Finish(head) => DoFinish(s, head)
  }

  predicate Init(s: State) {
    && Shaped(s) && (forall i :: 0 <= i < NUM ==> s.v.free[i] && s.v.info[i].b.None?)
    && s.v.avail.idx == s.v.usedIdx == s.d.used.idx == s.d.seen == 0 && s.v.busy == {} && s.d.pending == {}
    && s.h == Trace(map[], map[], Counts(0, 0, 0, 0), {}, {})
  }

  predicate Run(s: State, steps: seq<Step>, t: State)
    decreases |steps|
  {
    if |steps| == 0 then s == t else Enabled(s, steps[0]) && Run(Do(s, steps[0]), steps[1..], t)
  }
}
