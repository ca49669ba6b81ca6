/** What every step of the virtqueue keeps, and what follows for every run. */
module VirtioTheorems {
  import opened Common
  import opened VirtioRing

  // ---------- The invariant ----------

  /** The chain of request r starts at head and has the form virtio_disk_rw gave it. */
  predicate ChainOk(desc: seq<Desc>, owner: map<nat, nat>, head: nat, r: Req) {
    && |desc| == NUM && head < NUM && r.d1 < NUM && r.d2 < NUM && head != r.d1 && head != r.d2 && r.d1 != r.d2
    && head in owner && r.d1 in owner && r.d2 in owner && owner[head] == owner[r.d1] == owner[r.d2] == head
    && desc[head] == HeaderDesc(head, r.d1) && desc[r.d1] == DataDesc(r.b, r.op, r.d2)
    && desc[r.d2] == StatusDesc(head)
  }

  ghost predicate Chains(desc: seq<Desc>, reqs: map<nat, Req>, owner: map<nat, nat>) {
    forall head :: head in reqs ==> ChainOk(desc, owner, head, reqs[head])
  }

  predicate Member(head: nat, r: Req, i: nat) { i == head || i == r.d1 || i == r.d2 }

  /** A descriptor is in use exactly when it belongs to one chain in flight. */
  ghost predicate Owners(free: seq<bool>, reqs: map<nat, Req>, owner: map<nat, nat>) {
    && |free| == NUM && CountFree(free) + 3 * |reqs| == NUM
    && (forall i: nat :: i in owner <==> i < NUM && !free[i])
    && (forall h :: HeadOwned(reqs, owner, h))
    && (forall i :: i in owner ==> OwnedBy(reqs, owner[i], i))
  }

  predicate HeadOwned(reqs: map<nat, Req>, owner: map<nat, nat>, h: nat) { h in reqs ==> h in owner }

  predicate OwnedBy(reqs: map<nat, Req>, head: nat, i: nat) { head in reqs && Member(head, reqs[head], i) }

  /** The ring slot of count k. */
  function SlotAt(slots: seq<nat>, k: nat): nat
    requires |slots| == NUM
  {
    slots[k % NUM]
  }

  /** The avail ring holds the queued requests in order of submission. */
  ghost predicate AvailOk(slots: seq<nat>, reqs: map<nat, Req>, from: nat, to: nat) {
    && |slots| == NUM && from <= to
    && (forall k: nat :: from <= k < to ==>
          SlotAt(slots, k) in reqs && reqs[SlotAt(slots, k)].id == k && reqs[SlotAt(slots, k)].stage == Queued)
    && (forall h :: h in reqs && reqs[h].stage == Queued ==> from <= reqs[h].id < to && SlotAt(slots, reqs[h].id) == h)
  }

  predicate UsedAs(stage: Stage, k: nat) { stage.Used? && stage.k == k }

  /** The used ring holds the completed requests in order of completion. */
  ghost predicate UsedOk(slots: seq<nat>, reqs: map<nat, Req>, from: nat, to: nat) {
    && |slots| == NUM && from <= to
    && (forall k: nat :: from <= k < to ==> SlotAt(slots, k) in reqs && UsedAs(reqs[SlotAt(slots, k)].stage, k))
    && (forall h :: h in reqs && reqs[h].stage.Used? ==>
      from <= reqs[h].stage.k < to && SlotAt(slots, reqs[h].stage.k) == h)
  }

  ghost predicate StagesOk(pending: set<nat>, ended: set<nat>, reqs: map<nat, Req>, n: Counts) {
    && (forall h :: h in pending <==> h in reqs && reqs[h].stage == Pending)
    && (forall h :: h in ended <==> h in reqs && reqs[h].stage == Done)
    && n.fetched <= n.submitted && n.handled <= n.completed
    && |reqs| == (n.submitted - n.fetched) + |pending| + (n.completed - n.handled) + |ended|
  }

  /** A buffer is busy until its request is handled; no two requests share one. */
  ghost predicate BufsOk(busy: set<nat>, info: seq<Info>, reqs: map<nat, Req>) {
    && |info| == NUM
    && (forall h :: h in reqs && h < NUM ==>
          info[h].b == Some(reqs[h].b) && (reqs[h].stage.Used? ==> info[h].status == reqs[h].stage.status)
          && (reqs[h].b in busy <==> reqs[h].stage != Done))
    && (forall h, g :: h in reqs && g in reqs && h != g ==> reqs[h].b != reqs[g].b)
    && (forall i: nat :: i < NUM && i !in reqs ==> info[i].b.None?)
  }

  ghost predicate InFlight(reqs: map<nat, Req>, id: nat) { exists h :: h in reqs && reqs[h].id == id }

  /** Every request was handled once or is in flight; the handled ones in flight await their process. */
  ghost predicate DoneOk(done: set<nat>, reqs: map<nat, Req>, submitted: nat, handled: nat) {
    && |done| == handled
    && (forall h :: h in reqs ==> reqs[h].id < submitted && (reqs[h].id in done <==> reqs[h].stage == Done))
    && (forall h, g :: h in reqs && g in reqs && h != g ==> reqs[h].id != reqs[g].id)
    && (forall id :: id in done ==> id < submitted)
    && (forall id: nat :: id < submitted && id !in done ==> InFlight(reqs, id))
  }

  predicate IndexOk(s: State) {
    && s.v.avail.idx == s.h.n.submitted % WRAP && s.d.seen == s.h.n.fetched % WRAP
    && s.d.used.idx == s.h.n.completed % WRAP && s.v.usedIdx == s.h.n.handled % WRAP
  }

  ghost predicate Inv(s: State) {
    && Shaped(s) && IndexOk(s)
    && Chains(s.v.desc, s.h.reqs, s.h.owner) && Owners(s.v.free, s.h.reqs, s.h.owner)
    && AvailOk(s.v.avail.slots, s.h.reqs, s.h.n.fetched, s.h.n.submitted)
    && UsedOk(s.d.used.slots, s.h.reqs, s.h.n.handled, s.h.n.completed)
    && StagesOk(s.d.pending, s.h.ended, s.h.reqs, s.h.n) && BufsOk(s.v.busy, s.v.info, s.h.reqs)
    && DoneOk(s.h.done, s.h.reqs, s.h.n.submitted, s.h.n.handled)
  }

  // ---------- Arithmetic of the indices ----------

  lemma WrapSlot(n: nat)
    ensures n % WRAP % NUM == n % NUM
  {
    assert n == WRAP * (n / WRAP) + n % WRAP;
    assert WRAP * (n / WRAP) == NUM * (8192 * (n / WRAP));
  }

  lemma WrapInc(n: nat)
    ensures Inc(n % WRAP) == (n + 1) % WRAP
  {
  }

  /** Two counts fewer than 2^16 apart have equal indices only if they are equal. */
  lemma WrapSame(a: nat, b: nat)
    requires a <= b < a + WRAP
    ensures a % WRAP == b % WRAP <==> a == b
  {
  }

  /** Counts in a window of at most NUM occupy different slots. */
  lemma SlotsDiffer(a: nat, b: nat)
    requires a < b < a + NUM
    ensures a % NUM != b % NUM
  {
  }

  /** At most two requests are in flight, so no ring slot is reused early. */
  lemma FewRequests(s: State)
    requires Inv(s)
    ensures |s.h.reqs| <= 2 && s.h.n.submitted - s.h.n.fetched <= 2 && s.h.n.completed - s.h.n.handled <= 2
  {
  }

  // ---------- Submit ----------

  lemma SubmitChains(desc: seq<Desc>, reqs: map<nat, Req>, owner: map<nat, nat>, i0: nat, r: Req)
    requires Chains(desc, reqs, owner) && |desc| == NUM && i0 < NUM && r.d1 < NUM && r.d2 < NUM
    requires i0 !in owner && r.d1 !in owner && r.d2 !in owner && i0 != r.d1 && i0 != r.d2 && r.d1 != r.d2
    ensures Chains(Formatted(desc, r.b, r.op, i0, r.d1, r.d2), reqs[i0 := r],
      owner[i0 := i0][r.d1 := i0][r.d2 := i0])
  {
    var desc', reqs' := Formatted(desc, r.b, r.op, i0, r.d1, r.d2), reqs[i0 := r];
    forall h | h in reqs' ensures ChainOk(desc', owner[i0 := i0][r.d1 := i0][r.d2 := i0], h, reqs'[h]) {
      if h != i0 {
        assert ChainOk(desc, owner, h, reqs[h]);
      }
    }
  }

  lemma SubmitOwners(free: seq<bool>, free': seq<bool>, reqs: map<nat, Req>, owner: map<nat, nat>, r: Req, i0: nat)
    requires Owners(free, reqs, owner) && i0 < NUM && r.d1 < NUM && r.d2 < NUM && i0 !in reqs
    requires |free'| == NUM && forall i :: 0 <= i < NUM ==> free'[i] == (free[i] && !Member(i0, r, i))
    requires CountFree(free') == CountFree(free) - 3
    ensures Owners(free', reqs[i0 := r], owner[i0 := i0][r.d1 := i0][r.d2 := i0])
  {
    var owner', reqs' := owner[i0 := i0][r.d1 := i0][r.d2 := i0], reqs[i0 := r];
    assert |reqs'| == |reqs| + 1;
    forall i: nat ensures i in owner' <==> i < NUM && !free'[i] {
      assert i in owner' <==> i in owner || Member(i0, r, i);
    }
    forall i | i in owner' ensures OwnedBy(reqs', owner'[i], i) {
      assert i in owner ==> OwnedBy(reqs, owner[i], i);
    }
    forall h ensures HeadOwned(reqs', owner', h) {
      assert HeadOwned(reqs, owner, h);
    }
  }

  lemma SubmitAvail(slots: seq<nat>, reqs: map<nat, Req>, from: nat, to: nat, next: nat, i0: nat, r: Req)
    requires AvailOk(slots, reqs, from, to) && to - from < NUM && i0 !in reqs
    requires r.stage == Queued && r.id == to && next == to + 1
    ensures AvailOk(slots[to % NUM := i0], reqs[i0 := r], from, next)
  {
    var slots', reqs' := slots[to % NUM := i0], reqs[i0 := r];
    forall k: nat | from <= k < next
      ensures SlotAt(slots', k) in reqs' && reqs'[SlotAt(slots', k)].id == k && reqs'[SlotAt(slots', k)].stage == Queued
    {
      if k < to {
        SlotsDiffer(k, to);
        assert SlotAt(slots, k) in reqs;
      }
    }
    forall h | h in reqs' && reqs'[h].stage == Queued
      ensures from <= reqs'[h].id < next && SlotAt(slots', reqs'[h].id) == h
    {
      if h != i0 {
        SlotsDiffer(reqs[h].id, to);
      }
    }
  }

  lemma SubmitDone(done: set<nat>, reqs: map<nat, Req>, submitted: nat, next: nat, handled: nat, i0: nat, r: Req)
    requires DoneOk(done, reqs, submitted, handled) && i0 !in reqs
    requires r.id == submitted && r.stage == Queued && next == submitted + 1
    ensures DoneOk(done, reqs[i0 := r], next, handled)
  {
    var reqs' := reqs[i0 := r];
    forall id: nat | id < next && id !in done ensures InFlight(reqs', id) {
      if id == submitted {
        assert i0 in reqs' && reqs'[i0].id == id;
      } else {
        assert InFlight(reqs, id);
        var h :| h in reqs && reqs[h].id == id;
        assert h in reqs' && reqs'[h].id == id;
      }
    }
  }

  lemma SubmitUsed(slots: seq<nat>, reqs: map<nat, Req>, from: nat, to: nat, i0: nat, r: Req)
    requires UsedOk(slots, reqs, from, to) && i0 !in reqs && r.stage == Queued
    ensures UsedOk(slots, reqs[i0 := r], from, to)
  {
  }

  lemma SubmitStages(pending: set<nat>, ended: set<nat>, reqs: map<nat, Req>, n: Counts, i0: nat, r: Req)
    requires StagesOk(pending, ended, reqs, n) && i0 !in reqs && r.stage == Queued
    ensures StagesOk(pending, ended, reqs[i0 := r], n.(submitted := n.submitted + 1))
  {
    assert |reqs[i0 := r]| == |reqs| + 1;
  }

  lemma SubmitBufs(busy: set<nat>, info: seq<Info>, reqs: map<nat, Req>, i0: nat, r: Req)
    requires BufsOk(busy, info, reqs) && i0 !in reqs && i0 < NUM && r.stage == Queued
    requires forall h :: h in reqs ==> reqs[h].b != r.b
    ensures BufsOk(busy + {r.b}, info[i0 := Info(Some(r.b), 0xff)], reqs[i0 := r])
  {
  }

  lemma IndexSubmit(s: State, b: nat, op: Op)
    requires IndexOk(s) && CanSubmit(s, b)
    ensures Shaped(DoSubmit(s, b, op)) && IndexOk(DoSubmit(s, b, op))
  {
    WrapInc(s.h.n.submitted);
  }

  /** The fields a submission changes. */
  lemma SubmitParts(s: State, t: State, b: nat, op: Op, i0: nat, i1: nat, i2: nat, r: Req)
    requires IndexOk(s) && CanSubmit(s, b) && (i0, i1, i2) == Three(s.v.free) && t == DoSubmit(s, b, op)
    requires r == Req(s.h.n.submitted, b, op, i1, i2, Queued)
    ensures Shaped(t) && IndexOk(t) && t.d == s.d && i0 < NUM && i1 < NUM && i2 < NUM
    ensures t.v.free == Without3(s.v.free, i0, i1, i2) && t.v.desc == Formatted(s.v.desc, b, op, i0, i1, i2)
    ensures t.v.info == s.v.info[i0 := Info(Some(b), 0xff)] && t.v.busy == s.v.busy + {b}
    ensures t.v.avail.slots == s.v.avail.slots[s.h.n.submitted % NUM := i0]
    ensures t.h == s.h.(reqs := s.h.reqs[i0 := r], owner := s.h.owner[i0 := i0][i1 := i0][i2 := i0],
                        n := s.h.n.(submitted := s.h.n.submitted + 1))
  {
    IndexSubmit(s, b, op);
    WrapSlot(s.h.n.submitted);
  }

  /** The descriptors of the new request become a chain of its own. */
  lemma SubmitDescs(v: Driver, h: Trace, v': Driver, h': Trace, i0: nat, r: Req)
    requires Chains(v.desc, h.reqs, h.owner) && Owners(v.free, h.reqs, h.owner) && |v.desc| == NUM
    requires HasThree(v.free) && (i0, r.d1, r.d2) == Three(v.free) && r.stage == Queued
    requires v'.free == Without3(v.free, i0, r.d1, r.d2) && v'.desc == Formatted(v.desc, r.b, r.op, i0, r.d1, r.d2)
    requires h'.reqs == h.reqs[i0 := r] && h'.owner == h.owner[i0 := i0][r.d1 := i0][r.d2 := i0]
    ensures Chains(v'.desc, h'.reqs, h'.owner) && Owners(v'.free, h'.reqs, h'.owner) && i0 !in h.reqs
  {
    ThreeOk(v.free);
    assert HeadOwned(h.reqs, h.owner, i0) && i0 !in h.reqs;
    assert Chains(v'.desc, h'.reqs, h'.owner) by {
      SubmitChains(v.desc, h.reqs, h.owner, i0, r);
    }
    assert Owners(v'.free, h'.reqs, h'.owner) by {
      SubmitOwners(v.free, v'.free, h.reqs, h.owner, r, i0);
    }
  }

  /** It joins the avail ring. */
  lemma SubmitQueues(s: State, t: State, i0: nat, r: Req, next: nat)
    requires Inv(s) && i0 !in s.h.reqs && i0 < NUM && r.stage == Queued && r.id == s.h.n.submitted && next == r.id + 1
    requires forall h :: h in s.h.reqs ==> s.h.reqs[h].b != r.b
    requires t.d == s.d && t.v.avail.slots == s.v.avail.slots[r.id % NUM := i0]
    requires t.v.busy == s.v.busy + {r.b} && t.v.info == s.v.info[i0 := Info(Some(r.b), 0xff)]
    requires t.h.reqs == s.h.reqs[i0 := r] && t.h.n == s.h.n.(submitted := next)
    requires t.h.ended == s.h.ended && t.h.done == s.h.done
    ensures AvailOk(t.v.avail.slots, t.h.reqs, t.h.n.fetched, next)
    ensures UsedOk(t.d.used.slots, t.h.reqs, t.h.n.handled, t.h.n.completed)
    ensures StagesOk(t.d.pending, t.h.ended, t.h.reqs, t.h.n) && BufsOk(t.v.busy, t.v.info, t.h.reqs)
    ensures DoneOk(t.h.done, t.h.reqs, next, t.h.n.handled)
  {
    var n := s.h.n;
    FewRequests(s);
    SubmitAvail(s.v.avail.slots, s.h.reqs, n.fetched, n.submitted, next, i0, r);
    SubmitUsed(s.d.used.slots, s.h.reqs, n.handled, n.completed, i0, r);
    SubmitStages(s.d.pending, s.h.ended, s.h.reqs, n, i0, r);
    SubmitBufs(s.v.busy, s.v.info, s.h.reqs, i0, r);
    SubmitDone(s.h.done, s.h.reqs, n.submitted, next, n.handled, i0, r);
  }

  lemma StepSubmit(s: State, b: nat, op: Op)
    requires Inv(s) && CanSubmit(s, b)
    ensures Inv(DoSubmit(s, b, op))
  {
    var (i0, i1, i2) := Three(s.v.free);
    var t, r := DoSubmit(s, b, op), Req(s.h.n.submitted, b, op, i1, i2, Queued);
    SubmitParts(s, t, b, op, i0, i1, i2, r);
    SubmitDescs(s.v, s.h, t.v, t.h, i0, r);
    SubmitQueues(s, t, i0, r, r.id + 1);
  }

  // ---------- The other steps change one request's stage ----------

  lemma StageChains(desc: seq<Desc>, free: seq<bool>, reqs: map<nat, Req>, owner: map<nat, nat>, head: nat,
      stage: Stage)
    requires Chains(desc, reqs, owner) && Owners(free, reqs, owner) && head in reqs
    ensures Chains(desc, SetStage(reqs, head, stage), owner) && Owners(free, SetStage(reqs, head, stage), owner)
  {
    var reqs' := SetStage(reqs, head, stage);
    assert reqs'.Keys == reqs.Keys;
    forall h | h in reqs' ensures ChainOk(desc, owner, h, reqs'[h]) {
      assert ChainOk(desc, owner, h, reqs[h]);
    }
    forall i | i in owner ensures OwnedBy(reqs', owner[i], i) {
      assert OwnedBy(reqs, owner[i], i);
    }
    forall h ensures HeadOwned(reqs', owner, h) {
      assert HeadOwned(reqs, owner, h);
    }
  }

  lemma StageAvail(slots: seq<nat>, reqs: map<nat, Req>, from: nat, to: nat, head: nat, stage: Stage)
    requires AvailOk(slots, reqs, from, to) && head in reqs && reqs[head].stage != Queued && stage != Queued
    ensures AvailOk(slots, SetStage(reqs, head, stage), from, to)
  {
  }

  lemma StageUsed(slots: seq<nat>, reqs: map<nat, Req>, from: nat, to: nat, head: nat, stage: Stage)
    requires UsedOk(slots, reqs, from, to) && head in reqs && !reqs[head].stage.Used? && !stage.Used?
    ensures UsedOk(slots, SetStage(reqs, head, stage), from, to)
  {
  }

  lemma StageDone(done: set<nat>, reqs: map<nat, Req>, submitted: nat, handled: nat, head: nat, stage: Stage)
    requires DoneOk(done, reqs, submitted, handled) && head in reqs && (reqs[head].stage == Done <==> stage == Done)
    ensures DoneOk(done, SetStage(reqs, head, stage), submitted, handled)
  {
    var reqs' := SetStage(reqs, head, stage);
    forall id: nat | id < submitted && id !in done ensures InFlight(reqs', id) {
      assert InFlight(reqs, id);
      var h :| h in reqs && reqs[h].id == id;
      assert h in reqs' && reqs'[h].id == id;
    }
  }

  lemma StageBufs(busy: set<nat>, info: seq<Info>, reqs: map<nat, Req>, head: nat, stage: Stage)
    requires BufsOk(busy, info, reqs) && head in reqs && !stage.Used? && stage != Done && reqs[head].stage != Done
    ensures BufsOk(busy, info, SetStage(reqs, head, stage))
  {
  }

  /** The first queued request leaves the avail ring. */
  lemma FetchAvail(slots: seq<nat>, reqs: map<nat, Req>, from: nat, next: nat, to: nat, head: nat)
    requires AvailOk(slots, reqs, from, to) && from < to <= from + NUM
    requires next == from + 1 && head == SlotAt(slots, from)
    ensures head in reqs && reqs[head].stage == Queued && AvailOk(slots, SetStage(reqs, head, Pending), next, to)
  {
    var reqs' := SetStage(reqs, head, Pending);
    assert reqs[head].id == from;
    forall k: nat | next <= k < to
      ensures SlotAt(slots, k) in reqs' && reqs'[SlotAt(slots, k)].id == k && reqs'[SlotAt(slots, k)].stage == Queued
    {
      assert reqs[SlotAt(slots, k)].id == k;
    }
    forall h | h in reqs' && reqs'[h].stage == Queued
      ensures next <= reqs'[h].id < to && SlotAt(slots, reqs'[h].id) == h
    {
      assert reqs[h].stage == Queued;
      assert reqs[h].id == from ==> h == head;
    }
  }

  lemma FetchStages(pending: set<nat>, ended: set<nat>, reqs: map<nat, Req>, n: Counts, head: nat)
    requires StagesOk(pending, ended, reqs, n) && head in reqs && reqs[head].stage == Queued && n.fetched < n.submitted
    ensures StagesOk(pending + {head}, ended, SetStage(reqs, head, Pending), n.(fetched := n.fetched + 1))
  {
    assert SetStage(reqs, head, Pending).Keys == reqs.Keys;
  }

  lemma IndexFetch(s: State)
    requires IndexOk(s) && CanFetch(s)
    ensures Shaped(DoFetch(s)) && IndexOk(DoFetch(s))
  {
    WrapInc(s.h.n.fetched);
  }

  lemma StepFetch(s: State)
    requires Inv(s) && CanFetch(s)
    ensures Inv(DoFetch(s))
  {
    FewRequests(s);
    var n := s.h.n;
    WrapSame(n.fetched, n.submitted);
    IndexFetch(s);
    WrapSlot(n.fetched);
    var head, next := s.v.avail.slots[s.d.seen % NUM], n.fetched + 1;
    FetchAvail(s.v.avail.slots, s.h.reqs, n.fetched, next, n.submitted, head);
    FetchStages(s.d.pending, s.h.ended, s.h.reqs, n, head);
    StageChains(s.v.desc, s.v.free, s.h.reqs, s.h.owner, head, Pending);
    StageUsed(s.d.used.slots, s.h.reqs, n.handled, n.completed, head, Pending);
    StageBufs(s.v.busy, s.v.info, s.h.reqs, head, Pending);
    StageDone(s.h.done, s.h.reqs, n.submitted, n.handled, head, Pending);
  }

  lemma CompleteUsed(slots: seq<nat>, reqs: map<nat, Req>, from: nat, to: nat, next: nat, head: nat, status: nat)
    requires UsedOk(slots, reqs, from, to) && to - from < NUM
    requires head in reqs && reqs[head].stage == Pending && next == to + 1
    ensures UsedOk(slots[to % NUM := head], SetStage(reqs, head, Used(to, status)), from, next)
  {
    var slots', reqs' := slots[to % NUM := head], SetStage(reqs, head, Used(to, status));
    forall k: nat | from <= k < next ensures SlotAt(slots', k) in reqs' && UsedAs(reqs'[SlotAt(slots', k)].stage, k) {
      if k < to {
        SlotsDiffer(k, to);
        assert SlotAt(slots, k) in reqs;
      }
    }
    forall h | h in reqs' && reqs'[h].stage.Used?
      ensures from <= reqs'[h].stage.k < next && SlotAt(slots', reqs'[h].stage.k) == h
    {
      if h != head {
        SlotsDiffer(reqs[h].stage.k, to);
      }
    }
  }

  lemma CompleteStages(pending: set<nat>, ended: set<nat>, reqs: map<nat, Req>, n: Counts, head: nat, stage: Stage)
    requires StagesOk(pending, ended, reqs, n) && head in pending && stage.Used?
    ensures StagesOk(pending - {head}, ended, SetStage(reqs, head, stage), n.(completed := n.completed + 1))
  {
    assert SetStage(reqs, head, stage).Keys == reqs.Keys;
  }

  lemma CompleteBufs(busy: set<nat>, info: seq<Info>, reqs: map<nat, Req>, head: nat, k: nat, status: nat)
    requires BufsOk(busy, info, reqs) && head in reqs && head < NUM && reqs[head].stage == Pending
    ensures BufsOk(busy, Reported(info, Status(head), status), SetStage(reqs, head, Used(k, status)))
  {
  }

  lemma IndexComplete(s: State, head: nat, status: nat)
    requires IndexOk(s) && CanComplete(s, head)
    ensures Shaped(DoComplete(s, head, status)) && IndexOk(DoComplete(s, head, status))
  {
    WrapInc(s.h.n.completed);
  }

  /** The fields a completion changes. */
  lemma CompleteParts(s: State, t: State, head: nat, status: nat)
    requires IndexOk(s) && Chains(s.v.desc, s.h.reqs, s.h.owner) && head in s.h.reqs
    requires CanComplete(s, head) && t == DoComplete(s, head, status)
    ensures Shaped(t) && IndexOk(t) && t.v == s.v.(info := Reported(s.v.info, Status(head), status)) && head < NUM
    ensures t.d.used.slots == s.d.used.slots[s.h.n.completed % NUM := head] && t.d.pending == s.d.pending - {head}
    ensures t.h == s.h.(reqs := SetStage(s.h.reqs, head, Used(s.h.n.completed, status)),
                        n := s.h.n.(completed := s.h.n.completed + 1))
  {
    IndexComplete(s, head, status);
    WrapSlot(s.h.n.completed);
    assert ChainOk(s.v.desc, s.h.owner, head, s.h.reqs[head]);
  }

  lemma CompleteKeeps(s: State, t: State, head: nat, stage: Stage, next: nat)
    requires Inv(s) && Shaped(t) && IndexOk(t) && head in s.d.pending && head < NUM
    requires stage.Used? && stage.k == s.h.n.completed && next == stage.k + 1
    requires t.v == s.v.(info := Reported(s.v.info, Status(head), stage.status))
    requires t.d.used.slots == s.d.used.slots[stage.k % NUM := head] && t.d.pending == s.d.pending - {head}
    requires t.h == s.h.(reqs := SetStage(s.h.reqs, head, stage), n := s.h.n.(completed := next))
    ensures Inv(t)
  {
    var n := s.h.n;
    assert UsedOk(t.d.used.slots, t.h.reqs, n.handled, next) by {
      FewRequests(s);
      CompleteUsed(s.d.used.slots, s.h.reqs, n.handled, n.completed, next, head, stage.status);
    }
    assert StagesOk(t.d.pending, t.h.ended, t.h.reqs, t.h.n) by {
      CompleteStages(s.d.pending, s.h.ended, s.h.reqs, n, head, stage);
    }
    assert BufsOk(t.v.busy, t.v.info, t.h.reqs) by {
      CompleteBufs(s.v.busy, s.v.info, s.h.reqs, head, n.completed, stage.status);
    }
    StageChains(s.v.desc, s.v.free, s.h.reqs, s.h.owner, head, stage);
    StageAvail(s.v.avail.slots, s.h.reqs, n.fetched, n.submitted, head, stage);
    StageDone(s.h.done, s.h.reqs, n.submitted, n.handled, head, stage);
  }

  lemma StepComplete(s: State, head: nat, status: nat)
    requires Inv(s) && CanComplete(s, head)
    ensures Inv(DoComplete(s, head, status))
  {
    CompleteParts(s, DoComplete(s, head, status), head, status);
    var next := s.h.n.completed + 1;
    CompleteKeeps(s, DoComplete(s, head, status), head, Used(s.h.n.completed, status), next);
  }

  // ---------- Interrupts ----------

  lemma NextUsedAt(s: State)
    requires IndexOk(s) && CanIntr(s) && s.h.n.handled <= s.h.n.completed <= s.h.n.handled + 2
    ensures s.h.n.handled < s.h.n.completed && NextUsed(s) == SlotAt(s.d.used.slots, s.h.n.handled)
  {
    WrapSame(s.h.n.handled, s.h.n.completed);
    WrapSlot(s.h.n.handled);
  }

  /** Every entry between used_idx and the device's index names a request in flight: its buffer is still busy, its
      status is the one the device gave it, and it has not been handled before. */
  lemma UsedEntryLive(s: State)
    requires Inv(s) && CanIntr(s)
    ensures var h := NextUsed(s);
      && h < NUM && h in s.h.reqs && UsedAs(s.h.reqs[h].stage, s.h.n.handled)
      && (IntrPanics(s) <==> s.h.reqs[h].stage.status != 0)
      && s.v.info[h].b == Some(s.h.reqs[h].b) && s.h.reqs[h].b in s.v.busy && s.h.reqs[h].id !in s.h.done
    ensures s.h.n.handled < s.h.n.completed && NextUsed(s) == SlotAt(s.d.used.slots, s.h.n.handled)
  {
    FewRequests(s);
    NextUsedAt(s);
    var h := NextUsed(s);
    assert h in s.h.reqs && UsedAs(s.h.reqs[h].stage, s.h.n.handled);
    assert ChainOk(s.v.desc, s.h.owner, h, s.h.reqs[h]);
  }

  lemma IntrRing(slots: seq<nat>, reqs: map<nat, Req>, from: nat, next: nat, to: nat, head: nat)
    requires UsedOk(slots, reqs, from, to) && from < to <= from + NUM && next == from + 1 && head == SlotAt(slots, from)
    ensures UsedOk(slots, SetStage(reqs, head, Done), next, to)
  {
    var reqs' := SetStage(reqs, head, Done);
    forall k: nat | next <= k < to ensures SlotAt(slots, k) in reqs' && UsedAs(reqs'[SlotAt(slots, k)].stage, k) {
      assert UsedAs(reqs[SlotAt(slots, k)].stage, k) && UsedAs(reqs[head].stage, from);
    }
    forall h | h in reqs' && reqs'[h].stage.Used?
      ensures next <= reqs'[h].stage.k < to && SlotAt(slots, reqs'[h].stage.k) == h
    {
      assert reqs[h].stage.Used? && h != head;
    }
  }

  lemma IntrStages(pending: set<nat>, ended: set<nat>, reqs: map<nat, Req>, n: Counts, head: nat)
    requires StagesOk(pending, ended, reqs, n) && head in reqs && reqs[head].stage.Used? && n.handled < n.completed
    ensures StagesOk(pending, ended + {head}, SetStage(reqs, head, Done), n.(handled := n.handled + 1))
  {
    assert SetStage(reqs, head, Done).Keys == reqs.Keys;
  }

  lemma IntrBufs(busy: set<nat>, info: seq<Info>, reqs: map<nat, Req>, head: nat)
    requires BufsOk(busy, info, reqs) && head in reqs
    ensures BufsOk(busy - {reqs[head].b}, info, SetStage(reqs, head, Done))
  {
  }

  lemma IntrDone(done: set<nat>, reqs: map<nat, Req>, submitted: nat, handled: nat, next: nat, head: nat)
    requires DoneOk(done, reqs, submitted, handled) && head in reqs && reqs[head].stage.Used? && next == handled + 1
    ensures DoneOk(done + {reqs[head].id}, SetStage(reqs, head, Done), submitted, next)
  {
    var reqs', done' := SetStage(reqs, head, Done), done + {reqs[head].id};
    forall id: nat | id < submitted && id !in done' ensures InFlight(reqs', id) {
      assert InFlight(reqs, id);
      var h :| h in reqs && reqs[h].id == id;
      assert h in reqs' && reqs'[h].id == id;
    }
  }

  lemma IndexIntr(s: State)
    requires IndexOk(s) && CanIntr(s) && !IntrPanics(s)
    ensures Shaped(DoIntr(s)) && IndexOk(DoIntr(s))
  {
    WrapInc(s.h.n.handled);
  }

  lemma StepIntr(s: State)
    requires Inv(s) && CanIntr(s) && !IntrPanics(s)
    ensures Inv(DoIntr(s))
  {
    UsedEntryLive(s);
    FewRequests(s);
    IndexIntr(s);
    var n := s.h.n;
    var head, next := NextUsed(s), n.handled + 1;
    IntrRing(s.d.used.slots, s.h.reqs, n.handled, next, n.completed, head);
    IntrStages(s.d.pending, s.h.ended, s.h.reqs, n, head);
    IntrBufs(s.v.busy, s.v.info, s.h.reqs, head);
    IntrDone(s.h.done, s.h.reqs, n.submitted, n.handled, next, head);
    StageChains(s.v.desc, s.v.free, s.h.reqs, s.h.owner, head, Done);
    StageAvail(s.v.avail.slots, s.h.reqs, n.fetched, n.submitted, head, Done);
  }

  // ---------- Finish ----------

  /** free_chain of an intact chain frees its three descriptors and no other, and meets neither panic of free_desc. */
  lemma FreeChainOk(free: seq<bool>, desc: seq<Desc>, owner: map<nat, nat>, head: nat, r: Req)
    requires ChainOk(desc, owner, head, r) && |free| == NUM && !free[head] && !free[r.d1] && !free[r.d2]
    ensures !ChainPanics(free, desc, head, NUM)
    ensures FreeChain(free, desc, head, NUM) ==
      (free[head := true][r.d1 := true][r.d2 := true], desc[head := ZERO][r.d1 := ZERO][r.d2 := ZERO])
  {
    var f1, g1 := free[head := true], desc[head := ZERO];
    var f2, g2 := f1[r.d1 := true], g1[r.d1 := ZERO];
    assert FreeChain(f2, g2, r.d2, 6) == (f2[r.d2 := true], g2[r.d2 := ZERO]) && !ChainPanics(f2, g2, r.d2, 6);
    assert FreeChain(f1, g1, r.d1, 7) == FreeChain(f2, g2, r.d2, 6) && !ChainPanics(f1, g1, r.d1, 7);
  }

  lemma FinishChains(desc: seq<Desc>, reqs: map<nat, Req>, owner: map<nat, nat>, head: nat, r: Req)
    requires Chains(desc, reqs, owner) && head in reqs && r == reqs[head]
    requires |desc| == NUM && head < NUM && r.d1 < NUM && r.d2 < NUM
    ensures Chains(desc[head := ZERO][r.d1 := ZERO][r.d2 := ZERO], reqs - {head}, owner - {head, r.d1, r.d2})
  {
    var desc', reqs' := desc[head := ZERO][r.d1 := ZERO][r.d2 := ZERO], reqs - {head};
    assert ChainOk(desc, owner, head, r);
    forall h | h in reqs' ensures ChainOk(desc', owner - {head, r.d1, r.d2}, h, reqs'[h]) {
      assert ChainOk(desc, owner, h, reqs[h]);
    }
  }

  lemma CountThree(free: seq<bool>, a: nat, b: nat, c: nat)
    requires a < |free| && b < |free| && c < |free| && a != b && a != c && b != c && !free[a] && !free[b] && !free[c]
    ensures CountFree(free[a := true][b := true][c := true]) == CountFree(free) + 3
  {
    CountUpdate(free, a, true);
    CountUpdate(free[a := true], b, true);
    CountUpdate(free[a := true][b := true], c, true);
  }

  /** The first descriptor of one chain is in no other chain. */
  lemma HeadsApart(desc: seq<Desc>, reqs: map<nat, Req>, owner: map<nat, nat>, head: nat, h: nat)
    requires Chains(desc, reqs, owner) && head in reqs && h in reqs && h != head
    ensures !Member(head, reqs[head], h)
  {
    assert ChainOk(desc, owner, head, reqs[head]) && ChainOk(desc, owner, h, reqs[h]);
  }

  lemma FinishOwners(free: seq<bool>, free': seq<bool>, reqs: map<nat, Req>, owner: map<nat, nat>, head: nat, r: Req)
    requires Owners(free, reqs, owner) && head in reqs && r == reqs[head]
    requires |free'| == NUM && CountFree(free') == CountFree(free) + 3
    requires forall i :: 0 <= i < NUM ==> free'[i] == (free[i] || Member(head, r, i))
    requires forall h :: h in reqs && h != head ==> !Member(head, r, h)
    ensures Owners(free', reqs - {head}, owner - {head, r.d1, r.d2})
  {
    var reqs', owner' := reqs - {head}, owner - {head, r.d1, r.d2};
    assert reqs'.Keys == reqs.Keys - {head};
    forall i: nat ensures i in owner' <==> i < NUM && !free'[i] {
      assert i in owner' <==> i in owner && !Member(head, r, i);
    }
    forall i | i in owner' ensures OwnedBy(reqs', owner'[i], i) {
      assert OwnedBy(reqs, owner[i], i);
    }
    forall h ensures HeadOwned(reqs', owner', h) {
      assert HeadOwned(reqs, owner, h);
    }
  }

  lemma FinishThree(free: seq<bool>, desc: seq<Desc>, reqs: map<nat, Req>, owner: map<nat, nat>, head: nat, r: Req)
    requires Owners(free, reqs, owner) && Chains(desc, reqs, owner) && head in reqs && r == reqs[head]
    requires head < NUM && r.d1 < NUM && r.d2 < NUM
    ensures Owners(free[head := true][r.d1 := true][r.d2 := true], reqs - {head}, owner - {head, r.d1, r.d2})
  {
    assert ChainOk(desc, owner, head, r);
    CountThree(free, head, r.d1, r.d2);
    forall h | h in reqs && h != head ensures !Member(head, r, h) {
      HeadsApart(desc, reqs, owner, head, h);
    }
    FinishOwners(free, free[head := true][r.d1 := true][r.d2 := true], reqs, owner, head, r);
  }

  lemma FinishRings(avail: seq<nat>, used: seq<nat>, reqs: map<nat, Req>, n: Counts, head: nat)
    requires AvailOk(avail, reqs, n.fetched, n.submitted) && UsedOk(used, reqs, n.handled, n.completed)
    requires head in reqs && reqs[head].stage == Done
    ensures AvailOk(avail, reqs - {head}, n.fetched, n.submitted) && UsedOk(used, reqs - {head}, n.handled, n.completed)
  {
  }

  lemma FinishStages(pending: set<nat>, ended: set<nat>, reqs: map<nat, Req>, n: Counts, head: nat)
    requires StagesOk(pending, ended, reqs, n) && head in reqs && reqs[head].stage == Done
    ensures StagesOk(pending, ended - {head}, reqs - {head}, n)
  {
    assert (reqs - {head}).Keys == reqs.Keys - {head};
  }

  lemma FinishDone(done: set<nat>, reqs: map<nat, Req>, submitted: nat, handled: nat, head: nat)
    requires DoneOk(done, reqs, submitted, handled) && head in reqs && reqs[head].stage == Done
    ensures DoneOk(done, reqs - {head}, submitted, handled)
  {
    forall id: nat | id < submitted && id !in done ensures InFlight(reqs - {head}, id) {
      assert InFlight(reqs, id);
      var h :| h in reqs && reqs[h].id == id;
      assert h in reqs - {head};
    }
  }

  /** A process frees only a chain of its own that has been handled, and free_desc does not panic. */
  lemma FinishSafe(s: State, head: nat)
    requires Inv(s) && CanFinish(s, head)
    ensures s.h.reqs[head].stage == Done && s.h.reqs[head].id in s.h.done && !ChainPanics(s.v.free, s.v.desc, head, NUM)
    ensures var r := s.h.reqs[head];
      && r.d1 < NUM && r.d2 < NUM
      && DoFinish(s, head).v.free == s.v.free[head := true][r.d1 := true][r.d2 := true]
      && DoFinish(s, head).v.desc == s.v.desc[head := ZERO][r.d1 := ZERO][r.d2 := ZERO]
  {
    var r := s.h.reqs[head];
    assert ChainOk(s.v.desc, s.h.owner, head, r);
    FreeChainOk(s.v.free, s.v.desc, s.h.owner, head, r);
  }

  lemma FinishBufs(busy: set<nat>, info: seq<Info>, reqs: map<nat, Req>, head: nat)
    requires BufsOk(busy, info, reqs) && head < NUM
    ensures BufsOk(busy, info[head := info[head].(b := None)], reqs - {head})
  {
  }

  lemma IndexFinish(s: State, head: nat)
    requires IndexOk(s) && CanFinish(s, head)
    ensures Shaped(DoFinish(s, head)) && IndexOk(DoFinish(s, head))
  {
  }

  lemma StepFinish(s: State, head: nat)
    requires Inv(s) && CanFinish(s, head)
    ensures Inv(DoFinish(s, head))
  {
    FinishSafe(s, head);
    IndexFinish(s, head);
    FinishBufs(s.v.busy, s.v.info, s.h.reqs, head);
    var r, n := s.h.reqs[head], s.h.n;
    FinishChains(s.v.desc, s.h.reqs, s.h.owner, head, r);
    FinishThree(s.v.free, s.v.desc, s.h.reqs, s.h.owner, head, r);
    FinishRings(s.v.avail.slots, s.d.used.slots, s.h.reqs, n, head);
    FinishStages(s.d.pending, s.h.ended, s.h.reqs, n, head);
    FinishDone(s.h.done, s.h.reqs, n.submitted, n.handled, head);
  }

  // ---------- Runs ----------

  lemma StepKeepsInv(s: State, step: Step)
    requires Inv(s) && Enabled(s, step)
    ensures Inv(Do(s, step))
  {
    match step
    case Submit(b, op) => StepSubmit(s, b, op);
    case Fetch => StepFetch(s);
    case Complete(head, status) => StepComplete(s, head, status);
    case Intr =>
      if !IntrPanics(s) {
        StepIntr(s);
      }
    case Finish(head) => StepFinish(s, head);
  }

  lemma {:induction false} CountAll(free: seq<bool>)
    requires forall i :: 0 <= i < |free| ==> free[i]
    ensures CountFree(free) == |free|
  {
    if |free| > 0 {
      CountAll(free[1..]);
    }
  }

  lemma {:induction false} RunKeepsInv(s: State, steps: seq<Step>, t: State)
    requires Inv(s) && Run(s, steps, t)
    ensures Inv(t)
    decreases |steps|
  {
    if |steps| > 0 {
      StepKeepsInv(s, steps[0]);
      RunKeepsInv(Do(s, steps[0]), steps[1..], t);
    }
  }

  ghost predicate Reachable(s: State) { exists s0, steps :: Init(s0) && Run(s0, steps, s) }

  lemma ReachableInv(s: State)
    requires Reachable(s)
    ensures Inv(s)
  {
    var s0, steps :| Init(s0) && Run(s0, steps, s);
    CountAll(s0.v.free);
    assert Inv(s0);
    RunKeepsInv(s0, steps, s);
  }

  /** The free descriptors and the chains in flight partition the descriptors. */
  lemma DescriptorPartition(s: State, i: nat)
    requires Reachable(s) && i < NUM
    ensures |s.v.free| == NUM
    ensures s.v.free[i] <==> forall h :: h in s.h.reqs ==> !Member(h, s.h.reqs[h], i)
    ensures forall h, g :: h in s.h.reqs && g in s.h.reqs && Member(h, s.h.reqs[h], i) && Member(g, s.h.reqs[g], i) ==>
      h == g
  {
    ReachableInv(s);
    forall h | h in s.h.reqs && Member(h, s.h.reqs[h], i) ensures i in s.h.owner && s.h.owner[i] == h {
      assert ChainOk(s.v.desc, s.h.owner, h, s.h.reqs[h]);
    }
    if i in s.h.owner {
      assert OwnedBy(s.h.reqs, s.h.owner[i], i);
    }
  }

  /** In every run, whatever order the device completes in: the interrupt handler panics exactly on a request that the
      device reported as failed, and free_desc never does. */
  lemma NoPanics(s: State, head: nat)
    requires Reachable(s)
    ensures CanIntr(s) ==> NextUsed(s) < NUM && NextUsed(s) in s.h.reqs && s.h.reqs[NextUsed(s)].stage.Used?
    ensures CanIntr(s) ==> (IntrPanics(s) <==> s.h.reqs[NextUsed(s)].stage.status != 0)
    ensures CanIntr(s) ==>
      s.v.info[NextUsed(s)].b == Some(s.h.reqs[NextUsed(s)].b) && s.h.reqs[NextUsed(s)].b in s.v.busy
    ensures CanFinish(s, head) ==> !ChainPanics(s.v.free, s.v.desc, head, NUM)
  {
    ReachableInv(s);
    if CanIntr(s) {
      UsedEntryLive(s);
    }
    if CanFinish(s, head) {
      FinishSafe(s, head);
    }
  }

  /** Each request is handled once: an interrupt handles one that never was, and a process goes on only after its
      own. */
  lemma CompletesOnce(s: State, head: nat)
    requires Reachable(s)
    ensures CanIntr(s) && !IntrPanics(s) ==>
      exists id: nat :: id < s.h.n.submitted && id !in s.h.done && DoIntr(s).h.done == s.h.done + {id}
    ensures CanFinish(s, head) ==> s.h.reqs[head].id in s.h.done
    ensures |s.h.done| == s.h.n.handled
    ensures forall id: nat :: id < s.h.n.submitted ==> id in s.h.done || InFlight(s.h.reqs, id)
  {
    ReachableInv(s);
    if CanIntr(s) && !IntrPanics(s) {
      UsedEntryLive(s);
      var id := s.h.reqs[NextUsed(s)].id;
      assert DoIntr(s).h.done == s.h.done + {id};
    }
    if CanFinish(s, head) {
      FinishSafe(s, head);
    }
  }
}
