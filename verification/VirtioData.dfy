/**
 What the disk requests do: buffers, blocks and the virtqueue together. The device does with each chain what the
 chain says; every run is as if each request took effect at one instant between its submission and its end.
 */
module VirtioData {
  import opened Common
  import opened VirtioRing
  import opened VirtioTheorems

  // ---------- How each step moves one request along ----------

  /** Requests but for head's stage are as they were. */
  predicate Moves(before: map<nat, Req>, after: map<nat, Req>, head: nat, stage: Stage) {
    head in before && after == before[head := before[head].(stage := stage)]
  }

  lemma SubmitAdvances(s: State, b: nat, op: Op)
    requires Inv(s) && CanSubmit(s, b)
    ensures var (i0, i1, i2) := Three(s.v.free); var t := DoSubmit(s, b, op);
      && i0 !in s.h.reqs && i0 < NUM && t.h.reqs == s.h.reqs[i0 := Req(s.h.n.submitted, b, op, i1, i2, Queued)]
      && t.v.ops == s.v.ops[i0 := op]
  {
    var (i0, i1, i2) := Three(s.v.free);
    ThreeOk(s.v.free);
    assert HeadOwned(s.h.reqs, s.h.owner, i0);
  }

  /** The device takes the oldest request that is queued. */
  lemma FetchAdvances(s: State)
    requires Inv(s) && CanFetch(s)
    ensures var head, t := s.v.avail.slots[s.d.seen % NUM], DoFetch(s);
      head in s.h.reqs && s.h.reqs[head].stage == Queued && s.h.reqs[head].id == s.h.n.fetched
      && Moves(s.h.reqs, t.h.reqs, head, Pending) && t.v == s.v
  {
    var n := s.h.n;
    FewRequests(s);
    WrapSame(n.fetched, n.submitted);
    WrapSlot(n.fetched);
    assert SlotAt(s.v.avail.slots, n.fetched) in s.h.reqs;
  }

  lemma CompleteAdvances(s: State, head: nat, status: nat)
    requires Inv(s) && CanComplete(s, head)
    ensures var t := DoComplete(s, head, status);
      head in s.h.reqs && s.h.reqs[head].stage == Pending && t.v.ops == s.v.ops && t.v.desc == s.v.desc
      && Moves(s.h.reqs, t.h.reqs, head, Used(s.h.n.completed, status))
  {
  }

  /** The interrupt handler takes the oldest completion, a success. */
  lemma IntrAdvances(s: State)
    requires Inv(s) && CanIntr(s) && !IntrPanics(s)
    ensures var head, t := NextUsed(s), DoIntr(s);
      head in s.h.reqs && s.h.reqs[head].stage == Used(s.h.n.handled, 0)
      && Moves(s.h.reqs, t.h.reqs, head, Done) && t.v.ops == s.v.ops && t.h.n.submitted == s.h.n.submitted
  {
    UsedEntryLive(s);
  }

  lemma FinishAdvances(s: State, head: nat)
    requires Inv(s) && CanFinish(s, head)
    ensures var t := DoFinish(s, head);
      s.h.reqs[head].stage == Done && t.h.reqs == s.h.reqs - {head} && t.v.ops == s.v.ops
  {
    FinishSafe(s, head);
  }

  // ---------- Buffers and blocks ----------

  type Block = seq<char>

  /** What was asked for when request i was submitted, with what its buffer held. */
  datatype Ask = Ask(b: nat, op: Op, data: Block)

  /** A request that took effect, with what its buffer then held. */
  datatype Act = Act(id: nat, data: Block)

  /** The queue, the buffers, the blocks by sector, and as history the blocks at the start, the requests in order of
      submission, and those that took effect, in that order. */
  datatype World = World(ring: State, mem: map<nat, Block>, disk: map<nat, Block>, start: map<nat, Block>,
                         asked: seq<Ask>, log: seq<Act>)

  function Get(m: map<nat, Block>, k: nat): Block { if k in m then m[k] else [] }

  /** What the device does with a chain: it goes by the header and the data descriptor, and writes memory only where
      it may. */
  function Transfer(v: Driver, head: nat, mem: map<nat, Block>, disk: map<nat, Block>)
    : (map<nat, Block>, map<nat, Block>)
  {
    if head < |v.desc| && v.desc[head].addr.Header? && v.desc[head].addr.i < |v.ops| then
      var op, d := v.ops[v.desc[head].addr.i], Second(v.desc, head);
      if !d.addr.Data? || d.len != BSIZE then (mem, disk)
      else if op.write then (mem, disk[op.sector := Get(mem, d.addr.b)])
      else if d.write then (mem[d.addr.b := Get(disk, op.sector)], disk)
      else (mem, disk)
    else (mem, disk)
  }

  /** A step of the queue, or the processor changing a buffer that is not in the driver's hands. */
  datatype Move = Queue(step: Step) | Touch(b: nat, data: Block)

  predicate CanMove(w: World, m: Move) {
    match m
    case Queue(step) => Enabled(w.ring, step)
    case Touch(b, _) => forall h :: h in w.ring.h.reqs ==> w.ring.h.reqs[h].b != b
  }

  function AfterComplete(w: World, head: nat, t: State): World {
    var (mem, disk) := Transfer(w.ring.v, head, w.mem, w.disk);
    if head !in w.ring.h.reqs then w.(ring := t, mem := mem, disk := disk)
    else
      var r := w.ring.h.reqs[head];
      World(t, mem, disk, w.start, w.asked, w.log + [Act(r.id, Get(mem, r.b))])
  }

  function DoMove(w: World, m: Move): World
    requires CanMove(w, m)
  {
    if m.Touch? then w.(mem := w.mem[m.b := m.data])
    else
      var t := Do(w.ring, m.step);
      match m.step
      case Submit(b, op) => w.(ring := t, asked := w.asked + [Ask(b, op, Get(w.mem, b))])
      case Complete(head, status) => if status == 0 then AfterComplete(w, head, t) else w.(ring := t)
      case _ => w.(ring := t)
  }

  predicate Start(w: World) { Init(w.ring) && w.disk == w.start && w.asked == [] && w.log == [] }

  predicate RunFrom(w: World, moves: seq<Move>, u: World)
    decreases |moves|
  {
    if |moves| == 0 then w == u else CanMove(w, moves[0]) && RunFrom(DoMove(w, moves[0]), moves[1..], u)
  }

  // ---------- The invariant ----------

  /** The blocks after these requests, one after the other. */
  function Replay(start: map<nat, Block>, asked: seq<Ask>, log: seq<Act>): map<nat, Block> {
    if |log| == 0 then start
    else
      var a, before := log[|log| - 1], Replay(start, asked, log[..|log| - 1]);
      if a.id < |asked| && asked[a.id].op.write then before[asked[a.id].op.sector := a.data] else before
  }

  /** Request log[k]: a write puts what its buffer held at submission; a read gets the block as it then was. */
  predicate ActOk(start: map<nat, Block>, asked: seq<Ask>, log: seq<Act>, k: nat) {
    && k < |log| && log[k].id < |asked|
    && var q := asked[log[k].id];
       log[k].data == if q.op.write then q.data else Get(Replay(start, asked, log[..k]), q.op.sector)
  }

  ghost predicate LogOk(start: map<nat, Block>, asked: seq<Ask>, log: seq<Act>) {
    && (forall k: nat :: k < |log| ==> ActOk(start, asked, log, k))
    && (forall j, k :: 0 <= j < k < |log| ==> log[j].id != log[k].id)
  }

  ghost predicate Logged(log: seq<Act>, id: nat) { exists k :: 0 <= k < |log| && log[k].id == id }

  predicate Waiting(stage: Stage) { stage.Queued? || stage.Pending? || (stage.Used? && stage.status != 0) }

  /** A request has its buffer to itself: it has taken effect once, or not yet. */
  ghost predicate ReqOk(mem: map<nat, Block>, asked: seq<Ask>, log: seq<Act>, r: Req) {
    && r.id < |asked| && asked[r.id].b == r.b && asked[r.id].op == r.op
    && if Waiting(r.stage) then !Logged(log, r.id) && Get(mem, r.b) == asked[r.id].data
       else Act(r.id, Get(mem, r.b)) in log
  }

  ghost predicate OpsOk(ops: seq<Op>, reqs: map<nat, Req>) {
    forall h :: h in reqs ==> h < |ops| && ops[h] == reqs[h].op
  }

  ghost predicate ReqsOk(mem: map<nat, Block>, asked: seq<Ask>, log: seq<Act>, reqs: map<nat, Req>) {
    forall h :: h in reqs ==> ReqOk(mem, asked, log, reqs[h])
  }

  /** What holds beside the invariant of the queue. */
  ghost predicate DataOk(w: World) {
    && |w.asked| == w.ring.h.n.submitted && OpsOk(w.ring.v.ops, w.ring.h.reqs)
    && ReqsOk(w.mem, w.asked, w.log, w.ring.h.reqs) && LogOk(w.start, w.asked, w.log)
    && w.disk == Replay(w.start, w.asked, w.log)
  }

  ghost predicate WorldInv(w: World) { Inv(w.ring) && DataOk(w) }

  // ---------- Every step keeps it ----------

  lemma {:induction false} ReplayMore(start: map<nat, Block>, asked: seq<Ask>, q: Ask, log: seq<Act>)
    requires forall k :: 0 <= k < |log| ==> log[k].id < |asked|
    ensures Replay(start, asked + [q], log) == Replay(start, asked, log)
    decreases |log|
  {
    if |log| > 0 {
      ReplayMore(start, asked, q, log[..|log| - 1]);
    }
  }

  lemma LogMore(start: map<nat, Block>, asked: seq<Ask>, q: Ask, log: seq<Act>)
    requires LogOk(start, asked, log)
    ensures LogOk(start, asked + [q], log) && Replay(start, asked + [q], log) == Replay(start, asked, log)
  {
    forall k: nat | k < |log| ensures log[k].id < |asked| { assert ActOk(start, asked, log, k); }
    ReplayMore(start, asked, q, log);
    forall k: nat | k < |log| ensures ActOk(start, asked + [q], log, k) {
      assert ActOk(start, asked, log, k);
      ReplayMore(start, asked, q, log[..k]);
    }
  }

  lemma NewIsNotLogged(start: map<nat, Block>, asked: seq<Ask>, log: seq<Act>)
    requires LogOk(start, asked, log)
    ensures !Logged(log, |asked|)
  {
    if k: nat :| k < |log| && log[k].id == |asked| {
      assert ActOk(start, asked, log, k);
    }
  }

  lemma SubmitReqs(w: World, t: State, q: Ask, i0: nat, r: Req)
    requires DataOk(w) && i0 !in w.ring.h.reqs && i0 < |w.ring.v.ops| && t.h.reqs == w.ring.h.reqs[i0 := r]
    requires t.v.ops == w.ring.v.ops[i0 := r.op] && r.id == w.ring.h.n.submitted && t.h.n.submitted == r.id + 1
    requires q == Ask(r.b, r.op, Get(w.mem, r.b)) && r.stage == Queued
    ensures DataOk(w.(ring := t, asked := w.asked + [q]))
  {
    LogMore(w.start, w.asked, q, w.log);
    NewIsNotLogged(w.start, w.asked, w.log);
    forall h | h in t.h.reqs ensures ReqOk(w.mem, w.asked + [q], w.log, t.h.reqs[h]) {
      if h != i0 {
        assert ReqOk(w.mem, w.asked, w.log, w.ring.h.reqs[h]);
      }
    }
  }

  lemma SubmitKeeps(w: World, b: nat, op: Op, t: State, q: Ask)
    requires WorldInv(w) && CanSubmit(w.ring, b) && t == DoSubmit(w.ring, b, op) && q == Ask(b, op, Get(w.mem, b))
    ensures WorldInv(w.(ring := t, asked := w.asked + [q]))
  {
    var (i0, i1, i2) := Three(w.ring.v.free);
    SubmitAdvances(w.ring, b, op);
    SubmitReqs(w, t, q, i0, Req(w.ring.h.n.submitted, b, op, i1, i2, Queued));
    StepSubmit(w.ring, b, op);
  }

  /** A request moves on without taking effect. */
  lemma StageKeeps(w: World, t: State, head: nat, stage: Stage)
    requires DataOk(w) && Moves(w.ring.h.reqs, t.h.reqs, head, stage) && t.v.ops == w.ring.v.ops
    requires Waiting(w.ring.h.reqs[head].stage) == Waiting(stage) && t.h.n.submitted == w.ring.h.n.submitted
    ensures DataOk(w.(ring := t))
  {
    forall h | h in t.h.reqs ensures ReqOk(w.mem, w.asked, w.log, t.h.reqs[h]) {
      assert ReqOk(w.mem, w.asked, w.log, w.ring.h.reqs[h]);
    }
  }

  lemma FinishReqs(w: World, t: State, head: nat)
    requires DataOk(w) && t.h.reqs == w.ring.h.reqs - {head} && t.v.ops == w.ring.v.ops
    requires t.h.n.submitted == w.ring.h.n.submitted
    ensures DataOk(w.(ring := t))
  {
  }

  /** What a request asks for. */
  function Asked(r: Req, mem: map<nat, Block>, disk: map<nat, Block>): (map<nat, Block>, map<nat, Block>) {
    if r.op.write then (mem, disk[r.op.sector := Get(mem, r.b)]) else (mem[r.b := Get(disk, r.op.sector)], disk)
  }

  /** The device finds in a chain what the request asked for. */
  lemma TransferIs(v: Driver, owner: map<nat, nat>, head: nat, r: Req, mem: map<nat, Block>, disk: map<nat, Block>)
    requires ChainOk(v.desc, owner, head, r) && head < |v.ops| && v.ops[head] == r.op
    ensures Transfer(v, head, mem, disk) == Asked(r, mem, disk)
  {
  }

  /** One more request takes effect. */
  lemma LogNext(start: map<nat, Block>, asked: seq<Ask>, log: seq<Act>, a: Act)
    requires LogOk(start, asked, log) && !Logged(log, a.id) && a.id < |asked|
    requires a.data == if asked[a.id].op.write then asked[a.id].data
      else Get(Replay(start, asked, log), asked[a.id].op.sector)
    ensures LogOk(start, asked, log + [a])
  {
    var more := log + [a];
    forall k: nat | k < |more| ensures ActOk(start, asked, more, k) {
      assert more[..k] == log[..k];
      if k < |log| {
        assert ActOk(start, asked, log, k);
      } else {
        assert log[..k] == log;
      }
    }
  }

  lemma ReplayNext(start: map<nat, Block>, asked: seq<Ask>, log: seq<Act>, a: Act)
    requires a.id < |asked|
    ensures Replay(start, asked, log + [a]) == if asked[a.id].op.write
      then Replay(start, asked, log)[asked[a.id].op.sector := a.data] else Replay(start, asked, log)
  {
    assert (log + [a])[..|log|] == log;
  }

  lemma OthersKept(mem: map<nat, Block>, mem': map<nat, Block>, asked: seq<Ask>, log: seq<Act>, a: Act, r: Req)
    requires ReqOk(mem, asked, log, r) && r.id != a.id && Get(mem', r.b) == Get(mem, r.b)
    ensures ReqOk(mem', asked, log + [a], r)
  {
    var more := log + [a];
    if Waiting(r.stage) {
      forall k | 0 <= k < |more| ensures more[k].id != r.id {
        assert k < |log| ==> more[k] == log[k];
      }
    } else {
      var k :| 0 <= k < |log| && log[k] == Act(r.id, Get(mem, r.b));
      assert more[k] == log[k];
    }
  }

  ghost predicate Apart(reqs: map<nat, Req>, head: nat) {
    head in reqs && forall h :: h in reqs && h != head ==> reqs[h].b != reqs[head].b && reqs[h].id != reqs[head].id
  }

  lemma EffectLog(w: World, r: Req, mem: map<nat, Block>, disk: map<nat, Block>, a: Act)
    requires LogOk(w.start, w.asked, w.log) && w.disk == Replay(w.start, w.asked, w.log)
    requires ReqOk(w.mem, w.asked, w.log, r) && r.stage == Pending
    requires (mem, disk) == Asked(r, w.mem, w.disk) && a == Act(r.id, Get(mem, r.b))
    ensures LogOk(w.start, w.asked, w.log + [a]) && disk == Replay(w.start, w.asked, w.log + [a])
  {
    LogNext(w.start, w.asked, w.log, a);
    ReplayNext(w.start, w.asked, w.log, a);
  }

  lemma EffectReqs(w: World, t: State, head: nat, mem: map<nat, Block>, a: Act, k: nat)
    requires ReqsOk(w.mem, w.asked, w.log, w.ring.h.reqs) && Apart(w.ring.h.reqs, head)
    requires Moves(w.ring.h.reqs, t.h.reqs, head, Used(k, 0))
    requires var r := w.ring.h.reqs[head];
      a == Act(r.id, Get(mem, r.b)) && forall b: nat :: b != r.b ==> Get(mem, b) == Get(w.mem, b)
    ensures ReqsOk(mem, w.asked, w.log + [a], t.h.reqs)
  {
    forall h | h in t.h.reqs ensures ReqOk(mem, w.asked, w.log + [a], t.h.reqs[h]) {
      assert ReqOk(w.mem, w.asked, w.log, w.ring.h.reqs[h]);
      if h == head {
        assert (w.log + [a])[|w.log|] == a;
      } else {
        OthersKept(w.mem, mem, w.asked, w.log, a, w.ring.h.reqs[h]);
      }
    }
  }

  lemma EffectData(w: World, u: World, head: nat, k: nat, a: Act)
    requires DataOk(w) && Apart(w.ring.h.reqs, head) && w.ring.h.reqs[head].stage == Pending
    requires Moves(w.ring.h.reqs, u.ring.h.reqs, head, Used(k, 0)) && u.ring.v.ops == w.ring.v.ops
    requires u.ring.h.n.submitted == w.ring.h.n.submitted
    requires (u.mem, u.disk) == Asked(w.ring.h.reqs[head], w.mem, w.disk) && u.start == w.start && u.asked == w.asked
    requires a == Act(w.ring.h.reqs[head].id, Get(u.mem, w.ring.h.reqs[head].b)) && u.log == w.log + [a]
    ensures DataOk(u)
  {
    assert ReqOk(w.mem, w.asked, w.log, w.ring.h.reqs[head]);
    EffectLog(w, w.ring.h.reqs[head], u.mem, u.disk, a);
    EffectReqs(w, u.ring, head, u.mem, a, k);
  }

  lemma EffectKeeps(w: World, head: nat, t: State)
    requires WorldInv(w) && CanComplete(w.ring, head) && t == DoComplete(w.ring, head, 0)
    ensures WorldInv(AfterComplete(w, head, t))
  {
    var s, u := w.ring, AfterComplete(w, head, t);
    StepComplete(s, head, 0);
    assert DataOk(u) by {
      CompleteAdvances(s, head, 0);
      assert ChainOk(s.v.desc, s.h.owner, head, s.h.reqs[head]);
      TransferIs(s.v, s.h.owner, head, s.h.reqs[head], w.mem, w.disk);
      assert Apart(s.h.reqs, head);
      EffectData(w, u, head, s.h.n.completed, Act(s.h.reqs[head].id, Get(u.mem, s.h.reqs[head].b)));
    }
  }

  lemma TouchKeeps(w: World, b: nat, data: Block)
    requires DataOk(w) && CanMove(w, Touch(b, data))
    ensures DataOk(DoMove(w, Touch(b, data)))
  {
    var u := DoMove(w, Touch(b, data));
    forall h | h in w.ring.h.reqs ensures ReqOk(u.mem, u.asked, u.log, w.ring.h.reqs[h]) {
      assert ReqOk(w.mem, w.asked, w.log, w.ring.h.reqs[h]);
    }
  }

  lemma FetchKeeps(w: World)
    requires WorldInv(w) && CanFetch(w.ring)
    ensures WorldInv(w.(ring := DoFetch(w.ring)))
  {
    FetchAdvances(w.ring);
    StageKeeps(w, DoFetch(w.ring), w.ring.v.avail.slots[w.ring.d.seen % NUM], Pending);
    StepFetch(w.ring);
  }

  lemma FailKeeps(w: World, head: nat, status: nat)
    requires WorldInv(w) && CanComplete(w.ring, head) && status != 0
    ensures WorldInv(w.(ring := DoComplete(w.ring, head, status)))
  {
    CompleteAdvances(w.ring, head, status);
    StageKeeps(w, DoComplete(w.ring, head, status), head, Used(w.ring.h.n.completed, status));
    StepComplete(w.ring, head, status);
  }

  lemma IntrKeeps(w: World, t: State)
    requires WorldInv(w) && CanIntr(w.ring) && !IntrPanics(w.ring) && t == DoIntr(w.ring)
    ensures WorldInv(w.(ring := t))
  {
    var head := NextUsed(w.ring);
    IntrAdvances(w.ring);
    IntrMoves(w, t, head);
    StepIntr(w.ring);
  }

  lemma IntrMoves(w: World, t: State, head: nat)
    requires DataOk(w) && head in w.ring.h.reqs && w.ring.h.reqs[head].stage == Used(w.ring.h.n.handled, 0)
    requires Moves(w.ring.h.reqs, t.h.reqs, head, Done) && t.v.ops == w.ring.v.ops
    requires t.h.n.submitted == w.ring.h.n.submitted
    ensures DataOk(w.(ring := t))
  {
    StageKeeps(w, t, head, Done);
  }

  /** The handler panics, and nothing moves. */
  lemma IntrStays(w: World)
    requires CanIntr(w.ring) && IntrPanics(w.ring)
    ensures w.(ring := DoIntr(w.ring)) == w
  {
  }

  lemma FinishKeeps(w: World, head: nat)
    requires WorldInv(w) && CanFinish(w.ring, head)
    ensures WorldInv(w.(ring := DoFinish(w.ring, head)))
  {
    FinishAdvances(w.ring, head);
    FinishReqs(w, DoFinish(w.ring, head), head);
    StepFinish(w.ring, head);
  }

  /** Steps of the queue that touch no buffer and no block. */
  lemma QuietMove(w: World, step: Step)
    requires Enabled(w.ring, step) && !step.Submit? && !(step.Complete? && step.status == 0)
    ensures DoMove(w, Queue(step)) == w.(ring := Do(w.ring, step))
  {
  }

  lemma QueueKeeps(w: World, step: Step)
    requires WorldInv(w) && Enabled(w.ring, step) && !step.Submit? && !(step.Complete? && step.status == 0)
    ensures WorldInv(w.(ring := Do(w.ring, step)))
  {
    if step.Fetch? {
      FetchKeeps(w);
    } else if step.Complete? {
      FailKeeps(w, step.head, step.status);
    } else if step.Intr? {
      if IntrPanics(w.ring) {
        IntrStays(w);
      } else {
        IntrKeeps(w, DoIntr(w.ring));
      }
    } else {
      FinishKeeps(w, step.head);
    }
  }

  lemma Grows(w: World, m: Move)
    requires CanMove(w, m)
    ensures w.log <= DoMove(w, m).log && w.asked <= DoMove(w, m).asked && DoMove(w, m).start == w.start
  {
  }

  lemma MoveKeeps(w: World, m: Move)
    requires WorldInv(w) && CanMove(w, m)
    ensures WorldInv(DoMove(w, m))
  {
    if m.Touch? {
      TouchKeeps(w, m.b, m.data);
    } else if m.step.Submit? {
      SubmitKeeps(w, m.step.b, m.step.op, Do(w.ring, m.step), Ask(m.step.b, m.step.op, Get(w.mem, m.step.b)));
    } else if m.step.Complete? && m.step.status == 0 {
      EffectKeeps(w, m.step.head, Do(w.ring, m.step));
    } else {
      QuietMove(w, m.step);
      QueueKeeps(w, m.step);
    }
  }

  lemma StartInv(w: World)
    requires Start(w)
    ensures WorldInv(w)
  {
    assert Run(w.ring, [], w.ring);
    ReachableInv(w.ring);
  }

  lemma {:induction false} RunKeeps(w: World, moves: seq<Move>, u: World)
    requires WorldInv(w) && RunFrom(w, moves, u)
    ensures WorldInv(u) && u.start == w.start && w.log <= u.log && w.asked <= u.asked
    decreases |moves|
  {
    if |moves| > 0 {
      MoveKeeps(w, moves[0]);
      Grows(w, moves[0]);
      RunKeeps(DoMove(w, moves[0]), moves[1..], u);
    }
  }

  // ---------- Results ----------

  ghost predicate Reached(w: World) { exists w0, moves :: Start(w0) && RunFrom(w0, moves, w) }

  lemma ReachedInv(w: World)
    requires Reached(w)
    ensures WorldInv(w)
  {
    var w0, moves :| Start(w0) && RunFrom(w0, moves, w);
    StartInv(w0);
    RunKeeps(w0, moves, w);
  }

  /**
   The disk is linearizable, whatever order the device completes requests in: its blocks are those at the start
   after the requests in the log, one after the other; no request is there twice; a write put what its buffer held
   when it was submitted, and a read got what the requests before it left.
   */
  lemma Linearizable(w: World)
    requires Reached(w)
    ensures w.disk == Replay(w.start, w.asked, w.log)
    ensures forall j, k :: 0 <= j < k < |w.log| ==> w.log[j].id != w.log[k].id
    ensures forall k: nat :: k < |w.log| ==> ActOk(w.start, w.asked, w.log, k)
  {
    ReachedInv(w);
  }

  /**
   A request takes effect while its caller waits: not before it is submitted, as its number is new then, and
   before virtio_disk_rw returns, when its buffer holds what the log says.
   */
  lemma EffectInTime(w: World, head: nat)
    requires Reached(w)
    ensures forall k :: 0 <= k < |w.log| ==> w.log[k].id < |w.asked| == w.ring.h.n.submitted
    ensures CanFinish(w.ring, head) ==> var r := w.ring.h.reqs[head];
      r.id < |w.asked| && w.asked[r.id].b == r.b && w.asked[r.id].op == r.op && Act(r.id, Get(w.mem, r.b)) in w.log
  {
    ReachedInv(w);
    forall k: nat | k < |w.log| ensures w.log[k].id < |w.asked| {
      assert ActOk(w.start, w.asked, w.log, k);
    }
    if CanFinish(w.ring, head) {
      FinishAdvances(w.ring, head);
      assert ReqOk(w.mem, w.asked, w.log, w.ring.h.reqs[head]);
    }
  }
}
