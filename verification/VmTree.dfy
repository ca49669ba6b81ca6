/**
 Page tables and page ownership as values: three-level Sv39 trees (section 4.4 of the RISC-V
 Privileged Architecture, version 20211203) in physical pages, every page having one role.
 */
module VmTree {

  // ---------- Words and virtual page numbers ----------

  /** PTE2PA, PTE_FLAGS and the V bit; physical addresses are page numbers here. */
  function Ppn(w: nat): nat { w / 1024 }
  function Flags(w: nat): nat { w % 1024 }
  predicate Present(w: nat) { w % 2 == 1 }

  /** Some of R, W and X is set. */
  predicate Leaf(w: nat) { w / 2 % 8 != 0 }

  /** PA2PTE(pa) | PTE_V, the entry that points to the table in page p. */
  function TablePte(p: nat): nat { p * 1024 + 1 }

  lemma TablePteOk(p: nat)
    ensures Present(TablePte(p)) && Ppn(TablePte(p)) == p && !Leaf(TablePte(p)) && TablePte(p) != 0
  {
    var w := TablePte(p);
    assert w == 2 * (512 * p) + 1;
    assert w / 2 == 8 * (64 * p);
  }

  /** PX(2), PX(1) and PX(0) of virtual page v. */
  function I(v: nat): nat { v / 262144 % 512 }
  function J(v: nat): nat { v / 512 % 512 }
  function K(v: nat): nat { v % 512 }

  const MAXVPN: nat := 0x400_0000   // MAXVA / PGSIZE

  lemma PxInjective(v: nat, u: nat)
    requires v < MAXVPN && u < MAXVPN && I(v) == I(u) && J(v) == J(u) && K(v) == K(u)
    ensures v == u
  {
    PxParts(v);
    PxParts(u);
  }

  lemma PxSmall(v: nat)
    requires v < MAXVPN
    ensures I(v) < 256
  {
  }

  lemma PxParts(v: nat)
    requires v < MAXVPN
    ensures v == I(v) * 262144 + J(v) * 512 + K(v)
  {
    assert v / 262144 == v / 512 / 512;
  }

  // ---------- Roles of pages ----------

  /** What a page is for: on the free list, held by whoever called kalloc, the page-table page of table t at level 2,
      1 or 0, or the memory of table t at virtual page v. */
  datatype Role = Free | Held | Root(t: nat) | Mid(t: nat, i: nat) | Low(t: nat, i: nat, j: nat) | User(t: nat, v: nat)

  predicate Tracked(r: Role) { !r.Free? && !r.Held? }

  /** A page-table page above level 0. */
  predicate Inner(r: Role) { r.Root? || r.Mid? }

  predicate HasUp(r: Role) { r.Mid? || r.Low? || r.User? }

  /** The page-table page that refers to a page of this role, and its slot there. */
  function Up(r: Role): Role
    requires HasUp(r)
  {
    match r
    case Mid(t, _) => Root(t)
    case Low(t, i, _) => Mid(t, i)
    case User(t, v) => Low(t, I(v), J(v))
  }

  function Slot(r: Role): nat
    requires HasUp(r)
  {
    match r
    case Mid(_, i) => i
    case Low(_, _, j) => j
    case User(_, v) => K(v)
  }

  /** Below MAXVA only half of the level-2 slots are in use. */
  predicate SlotFits(r: Role)
    requires HasUp(r)
  {
    Slot(r) < if r.Mid? then 256 else 512
  }

  function Down(r: Role, k: nat): Role
    requires Inner(r)
  {
    match r
    case Root(t) => Mid(t, k)
    case Mid(t, i) => Low(t, i, k)
  }

  function LowOf(t: nat, v: nat): Role { Low(t, I(v), J(v)) }

  // ---------- Memory ----------

  type Memory = map<nat, seq<nat>>   // page number to its 512 words

  datatype State = State(mem: Memory, head: nat, free: seq<nat>, page: map<Role, nat>, role: map<nat, Role>)

  function Put(words: seq<nat>, k: nat, w: nat): (r: seq<nat>)
    requires k < |words|
    ensures |r| == |words| && forall i :: 0 <= i < |r| ==> r[i] == if i == k then w else words[i]
  {
    words[k := w]
  }

  function Filled(word: nat): seq<nat> { seq(512, _ => word) }

  ghost predicate Paged(mem: Memory, role: map<nat, Role>) {
    && mem.Keys == role.Keys && 0 !in mem
    && forall p :: p in mem ==> |mem[p]| == 512
  }

  /** page and role are inverse to each other on the roles of tables and user memory. */
  ghost predicate Inverse(page: map<Role, nat>, role: map<nat, Role>) {
    && (forall r :: r in page ==> Tracked(r) && page[r] in role && role[page[r]] == r)
    && (forall p :: p in role && Tracked(role[p]) ==> role[p] in page && page[role[p]] == p)
  }

  /** The free list, threaded through the first word of each free page as a byte address. */
  predicate Chain(mem: Memory, head: nat, free: seq<nat>)
    decreases |free|
  {
    if |free| == 0 then head == 0
    else head == free[0] && head in mem && |mem[head]| == 512
         && mem[head][0] % 4096 == 0 && Chain(mem, mem[head][0] / 4096, free[1..])
  }

  ghost predicate FreeOk(free: seq<nat>, role: map<nat, Role>) {
    && (forall i, j :: 0 <= i < j < |free| ==> free[i] != free[j])
    && (forall i :: 0 <= i < |free| ==> free[i] in role && role[free[i]] == Free)
    && (forall p :: p in role && role[p] == Free ==> p in free)
  }

  /** Word k of the page with role r. */
  function Word(mem: Memory, page: map<Role, nat>, r: Role, k: nat): nat {
    if r in page && page[r] in mem && k < |mem[page[r]]| then mem[page[r]][k] else 0
  }

  /** The entry for a page of this role: a pointer to a table, or a leaf. */
  predicate Refers(w: nat, r: Role, p: nat) {
    if r.User? then Ppn(w) == p && Present(w) && Leaf(w) else w == TablePte(p)
  }

  ghost predicate Linked(mem: Memory, page: map<Role, nat>, r: Role)
    requires r in page
  {
    && (r.Root? ==> page[r] == r.t)
    && (r.User? ==> r.v < MAXVPN) && (r.Mid? ==> r.i < 256)
    && (HasUp(r) ==> Up(r) in page && Slot(r) < 512 && Refers(Word(mem, page, Up(r), Slot(r)), r, page[r]))
  }

  predicate SlotOk(w: nat, page: map<Role, nat>, r: Role, k: nat) {
    w == 0 || (if Inner(r) then Down(r, k) in page else Present(w) && Leaf(w))
  }

  /** Every table and user page is referred to by its one slot, and every slot in use refers to such a page, or is a
      leaf. */
  ghost predicate Tree(mem: Memory, page: map<Role, nat>) {
    && (forall r :: r in page ==> Linked(mem, page, r))
    && (forall r, k: nat :: r in page && !r.User? && k < 512 ==> SlotOk(Word(mem, page, r, k), page, r, k))
  }

  ghost predicate Sound(s: State) {
    && Paged(s.mem, s.role) && Inverse(s.page, s.role) && Chain(s.mem, s.head, s.free) && FreeOk(s.free, s.role)
    && Tree(s.mem, s.page)
  }

  // ---------- The flat map a tree stands for ----------

  /** The leaf entry of page v, 0 if there is none. */
  function Lookup(s: State, t: nat, v: nat): nat { Word(s.mem, s.page, LowOf(t, v), K(v)) }

  /** What the hardware and walk find: three loads, each but the last going on only if the entry is present. */
  function Translate(mem: Memory, t: nat, v: nat): nat {
    var w2 := Load(mem, t, I(v));
    if !Present(w2) then 0
    else
      var w1 := Load(mem, Ppn(w2), J(v));
      if !Present(w1) then 0 else Load(mem, Ppn(w1), K(v))
  }

  function Load(mem: Memory, p: nat, k: nat): nat { if p in mem && k < |mem[p]| then mem[p][k] else 0 }

  /** The tree acts as a flat map. */
  lemma TranslateIsLookup(s: State, t: nat, v: nat)
    requires Sound(s) && Root(t) in s.page
    ensures Translate(s.mem, t, v) == Lookup(s, t, v)
  {
    var mid, low := Mid(t, I(v)), LowOf(t, v);
    assert Linked(s.mem, s.page, Root(t));
    assert SlotOk(Word(s.mem, s.page, Root(t), I(v)), s.page, Root(t), I(v));
    assert low in s.page ==> Linked(s.mem, s.page, low);
    if mid in s.page {
      TablePteOk(s.page[mid]);
      if low in s.page {
        TablePteOk(s.page[low]);
      }
      assert Linked(s.mem, s.page, mid);
      assert SlotOk(Word(s.mem, s.page, mid, J(v)), s.page, mid, J(v));
    }
  }

  // ---------- kalloc and kfree ----------

  const JUNK1: nat := 0x0101010101010101
  const JUNK5: nat := 0x0505050505050505

  predicate CanPop(s: State) { |s.free| > 0 && s.head in s.mem && |s.mem[s.head]| > 0 }

  /** kalloc takes the first free page and fills it with junk. */
  function Popped(s: State): State
    requires CanPop(s)
  {
    State(s.mem[s.head := Filled(JUNK5)], s.mem[s.head][0] / 4096, s.free[1..], s.page, s.role[s.head := Held])
  }

  /** kfree fills the page with junk and puts it in front. */
  function Pushed(s: State, p: nat): State {
    State(s.mem[p := Put(Filled(JUNK1), 0, s.head * 4096)], p, [p] + s.free, s.page, s.role[p := Free])
  }

  lemma {:induction false} ChainFrame(mem: Memory, head: nat, free: seq<nat>, p: nat, words: seq<nat>)
    requires Chain(mem, head, free) && p !in free
    ensures Chain(mem[p := words], head, free)
    decreases |free|
  {
    if |free| > 0 {
      ChainFrame(mem, mem[head][0] / 4096, free[1..], p, words);
    }
  }

  /** Writing a page that is neither a table nor the page of a present role changes no tree. */
  lemma TreeFrame(mem: Memory, page: map<Role, nat>, p: nat, words: seq<nat>)
    requires Tree(mem, page) && forall r :: r in page && !r.User? ==> page[r] != p
    ensures Tree(mem[p := words], page)
  {
    var mem' := mem[p := words];
    assert forall r, k: nat :: r in page && !r.User? ==> Word(mem', page, r, k) == Word(mem, page, r, k);
    forall r | r in page ensures Linked(mem', page, r) {
      assert Linked(mem, page, r);
    }
  }

  function FreshPages(lo: nat, hi: nat): (m: Memory)
    ensures forall p :: (p in m <==> lo <= p < hi) && (p in m ==> m[p] == Filled(0))
  {
    if hi <= lo then map[] else FreshPages(lo, hi - 1)[hi - 1 := Filled(0)]
  }

  function HeldPages(lo: nat, hi: nat): (m: map<nat, Role>)
    ensures forall p :: (p in m <==> lo <= p < hi) && (p in m ==> m[p] == Held)
  {
    if hi <= lo then map[] else HeldPages(lo, hi - 1)[hi - 1 := Held]
  }

  lemma PagedWrite(mem: Memory, role: map<nat, Role>, p: nat, words: seq<nat>, r: Role)
    requires Paged(mem, role) && p in mem && |words| == 512
    ensures Paged(mem[p := words], role[p := r])
  {
  }

  lemma PagedRole(mem: Memory, role: map<nat, Role>, p: nat, r: Role)
    requires Paged(mem, role) && p in role
    ensures Paged(mem, role[p := r])
  {
  }

  lemma InverseUntracked(page: map<Role, nat>, role: map<nat, Role>, p: nat, r: Role)
    requires Inverse(page, role) && p in role && !Tracked(role[p]) && !Tracked(r)
    ensures Inverse(page, role[p := r]) && forall q :: q in page ==> page[q] != p
  {
  }

  lemma FreePop(free: seq<nat>, role: map<nat, Role>)
    requires FreeOk(free, role) && |free| > 0
    ensures FreeOk(free[1..], role[free[0] := Held])
  {
    var role' := role[free[0] := Held];
    forall q | q in role' && role'[q] == Free ensures q in free[1..] {
      assert q in free;
    }
  }

  lemma FreePush(free: seq<nat>, role: map<nat, Role>, p: nat)
    requires FreeOk(free, role) && p in role && role[p] == Held
    ensures FreeOk([p] + free, role[p := Free]) && p !in free
  {
    var free', role' := [p] + free, role[p := Free];
    forall q | q in role' && role'[q] == Free ensures q in free' {
      assert q != p ==> q in free;
    }
    assert p !in free;
    assert forall i :: 0 < i < |free'| ==> free'[i] == free[i - 1];
  }

  lemma PoppedSound(s: State)
    requires Sound(s) && |s.free| > 0
    ensures CanPop(s) && Sound(Popped(s)) && s.head in s.role && s.role[s.head] == Free && s.head != 0
  {
    var p := s.head;
    assert p == s.free[0] && s.role[p] == Free;
    FreePop(s.free, s.role);
    PagedWrite(s.mem, s.role, p, Filled(JUNK5), Held);
    InverseUntracked(s.page, s.role, p, Held);
    ChainFrame(s.mem, s.mem[p][0] / 4096, s.free[1..], p, Filled(JUNK5));
    TreeFrame(s.mem, s.page, p, Filled(JUNK5));
  }

  lemma ChainPush(mem: Memory, head: nat, free: seq<nat>, p: nat, words: seq<nat>)
    requires Chain(mem, head, free) && p !in free && |words| == 512 && words[0] == head * 4096
    ensures Chain(mem[p := words], p, [p] + free)
  {
    ChainFrame(mem, head, free, p, words);
    assert ([p] + free)[1..] == free;
  }

  lemma PushedSound(s: State, p: nat)
    requires Sound(s) && p in s.role && s.role[p] == Held
    ensures Sound(Pushed(s, p))
  {
    var words := Put(Filled(JUNK1), 0, s.head * 4096);
    FreePush(s.free, s.role, p);
    PagedWrite(s.mem, s.role, p, words, Free);
    InverseUntracked(s.page, s.role, p, Free);
    ChainPush(s.mem, s.head, s.free, p, words);
    TreeFrame(s.mem, s.page, p, words);
  }

  // ---------- Growing a tree ----------

  predicate CanAdd(s: State, r: Role) {
    HasUp(r) && (r.Mid? ==> r.i < 256) && Up(r) in s.page && s.page[Up(r)] in s.mem && Slot(r) < |s.mem[s.page[Up(r)]]|
  }

  /** The held page p, zeroed, becomes the table with role r, and its parent's slot refers to it. */
  function Added(s: State, r: Role, p: nat): State
    requires CanAdd(s, r)
  {
    var pp := s.page[Up(r)];
    State(s.mem[p := Filled(0)][pp := Put(s.mem[pp], Slot(r), TablePte(p))], s.head, s.free, s.page[r := p],
      s.role[p := r])
  }

  lemma UpSlotInjective(r: Role, q: Role)
    requires HasUp(r) && HasUp(q) && Up(r) == Up(q) && Slot(r) == Slot(q)
    requires (r.User? ==> r.v < MAXVPN) && (q.User? ==> q.v < MAXVPN)
    ensures r == q
  {
    if r.User? {
      PxInjective(r.v, q.v);
    }
  }

  lemma InverseAdd(page: map<Role, nat>, role: map<nat, Role>, p: nat, r: Role)
    requires Inverse(page, role) && p in role && !Tracked(role[p]) && Tracked(r) && r !in page
    ensures Inverse(page[r := p], role[p := r])
  {
  }

  /** A page passes from one use to another without touching the free list. */
  lemma FreeOther(free: seq<nat>, role: map<nat, Role>, p: nat, r: Role)
    requires FreeOk(free, role) && p in role && !role[p].Free? && !r.Free?
    ensures FreeOk(free, role[p := r]) && p !in free
  {
  }

  lemma AddedWords(s: State, r: Role, p: nat, q: Role, k: nat)
    requires Paged(s.mem, s.role) && Inverse(s.page, s.role) && p in s.role
    requires s.role[p] == Held && r !in s.page && CanAdd(s, r)
    ensures var t := Added(s, r, p);
      Word(t.mem, t.page, q, k) == if q == Up(r) && k == Slot(r) then TablePte(p) else Word(s.mem, s.page, q, k)
  {
  }

  lemma AddedLinked(s: State, r: Role, p: nat, q: Role)
    requires Paged(s.mem, s.role) && Inverse(s.page, s.role) && Tree(s.mem, s.page)
    requires p in s.role && s.role[p] == Held && r !in s.page && (r.Mid? || r.Low?) && CanAdd(s, r)
    requires q in Added(s, r, p).page
    ensures Linked(Added(s, r, p).mem, Added(s, r, p).page, q)
  {
    if q == r {
      AddedWords(s, r, p, Up(r), Slot(r));
    } else {
      assert Linked(s.mem, s.page, q);
      if HasUp(q) {
        AddedWords(s, r, p, Up(q), Slot(q));
        if Up(q) == Up(r) && Slot(q) == Slot(r) {
          UpSlotInjective(q, r);
        }
      }
    }
  }

  lemma AddedTree(s: State, r: Role, p: nat)
    requires Paged(s.mem, s.role) && Inverse(s.page, s.role) && Tree(s.mem, s.page)
    requires p in s.role && s.role[p] == Held && r !in s.page && (r.Mid? || r.Low?) && CanAdd(s, r)
    ensures Tree(Added(s, r, p).mem, Added(s, r, p).page)
  {
    var t := Added(s, r, p);
    forall q | q in t.page ensures Linked(t.mem, t.page, q) {
      AddedLinked(s, r, p, q);
    }
    forall q, k: nat | q in t.page && !q.User? && k < 512 ensures SlotOk(Word(t.mem, t.page, q, k), t.page, q, k) {
      AddedWords(s, r, p, q, k);
      if q != r {
        assert SlotOk(Word(s.mem, s.page, q, k), s.page, q, k);
      }
    }
  }

  lemma AddedSound(s: State, r: Role, p: nat)
    requires Sound(s) && p in s.role && s.role[p] == Held && r !in s.page
    requires (r.Mid? || r.Low?) && Up(r) in s.page && SlotFits(r)
    ensures CanAdd(s, r) && Sound(Added(s, r, p)) && SameMaps(s, Added(s, r, p))
  {
    var pp := s.page[Up(r)];
    var words := Put(s.mem[pp], Slot(r), TablePte(p));
    PagedWrite(s.mem, s.role, p, Filled(0), r);
    PagedWrite(s.mem[p := Filled(0)], s.role[p := r], pp, words, Up(r));
    assert s.role[p := r][pp := Up(r)] == s.role[p := r];
    InverseAdd(s.page, s.role, p, r);
    FreeOther(s.free, s.role, p, r);
    FreeOther(s.free, s.role, pp, Up(r));
    ChainFrame(s.mem, s.head, s.free, p, Filled(0));
    ChainFrame(s.mem[p := Filled(0)], s.head, s.free, pp, words);
    AddedTree(s, r, p);
    forall t: nat, v: nat ensures Lookup(Added(s, r, p), t, v) == Lookup(s, t, v) {
      AddedWords(s, r, p, LowOf(t, v), K(v));
    }
  }

  /** Every table maps every page as before. */
  ghost predicate SameMaps(s: State, s': State) { forall t: nat, v: nat :: Lookup(s', t, v) == Lookup(s, t, v) }

  // ---------- Leaves ----------

  function WithLeaf(s: State, t: nat, v: nat, w: nat): State
    requires LowOf(t, v) in s.page && s.page[LowOf(t, v)] in s.mem && K(v) < |s.mem[s.page[LowOf(t, v)]]|
  {
    var p := s.page[LowOf(t, v)];
    var words := Put(s.mem[p], K(v), w);
    s.(mem := s.mem[p := words])
  }

  lemma LeafWords(s: State, t: nat, v: nat, w: nat, q: Role, k: nat)
    requires Paged(s.mem, s.role) && Inverse(s.page, s.role) && LowOf(t, v) in s.page
    ensures Word(WithLeaf(s, t, v, w).mem, s.page, q, k) ==
      if q == LowOf(t, v) && k == K(v) then w else Word(s.mem, s.page, q, k)
  {
  }

  lemma LeafTree(s: State, t: nat, v: nat, w: nat)
    requires Paged(s.mem, s.role) && Inverse(s.page, s.role) && Tree(s.mem, s.page) && LowOf(t, v) in s.page
    requires v < MAXVPN && User(t, v) !in s.page && (w == 0 || (Present(w) && Leaf(w)))
    ensures Tree(WithLeaf(s, t, v, w).mem, s.page)
  {
    var mem' := WithLeaf(s, t, v, w).mem;
    forall q | q in s.page ensures Linked(mem', s.page, q) {
      assert Linked(s.mem, s.page, q);
      if HasUp(q) {
        LeafWords(s, t, v, w, Up(q), Slot(q));
        if Up(q) == LowOf(t, v) && Slot(q) == K(v) {
          UpSlotInjective(q, User(t, v));
        }
      }
    }
    forall q, k: nat | q in s.page && !q.User? && k < 512 ensures SlotOk(Word(mem', s.page, q, k), s.page, q, k) {
      LeafWords(s, t, v, w, q, k);
      assert SlotOk(Word(s.mem, s.page, q, k), s.page, q, k);
    }
  }

  /** Writing the entry of page v changes what v maps to and nothing else. */
  lemma LeafSound(s: State, t: nat, v: nat, w: nat)
    requires Sound(s) && LowOf(t, v) in s.page && v < MAXVPN
    requires User(t, v) !in s.page && (w == 0 || (Present(w) && Leaf(w)))
    ensures Sound(WithLeaf(s, t, v, w)) && Wrote(s, WithLeaf(s, t, v, w), t, v, w)
  {
    var p := s.page[LowOf(t, v)];
    var words := Put(s.mem[p], K(v), w);
    PagedWrite(s.mem, s.role, p, words, LowOf(t, v));
    assert s.role[p := LowOf(t, v)] == s.role;
    FreeOther(s.free, s.role, p, LowOf(t, v));
    ChainFrame(s.mem, s.head, s.free, p, words);
    LeafTree(s, t, v, w);
    forall t': nat, v': nat | v' < MAXVPN
      ensures Lookup(WithLeaf(s, t, v, w), t', v') == if t' == t && v' == v then w else Lookup(s, t', v')
    {
      LeafWords(s, t, v, w, LowOf(t', v'), K(v'));
      if LowOf(t', v') == LowOf(t, v) && K(v') == K(v) {
        PxInjective(v, v');
      }
    }
  }

  // ---------- User pages ----------

  /** The held page that v is mapped to becomes user memory. */
  function Owned(s: State, t: nat, v: nat, p: nat): State {
    s.(page := s.page[User(t, v) := p], role := s.role[p := User(t, v)])
  }

  lemma OwnedTree(mem: Memory, page: map<Role, nat>, r: Role, p: nat)
    requires Tree(mem, page) && r.User? && r !in page && r.v < MAXVPN && Up(r) in page
    requires Refers(Word(mem, page, Up(r), Slot(r)), r, p)
    ensures Tree(mem, page[r := p])
  {
    var page' := page[r := p];
    assert forall q: Role, k: nat :: !q.User? ==> Word(mem, page', q, k) == Word(mem, page, q, k);
    forall q | q in page' ensures Linked(mem, page', q) {
      assert q != r ==> Linked(mem, page, q);
    }
    forall q, k: nat | q in page' && !q.User? && k < 512 ensures SlotOk(Word(mem, page', q, k), page', q, k) {
      assert SlotOk(Word(mem, page, q, k), page, q, k);
    }
  }

  lemma UserPresent(mem: Memory, page: map<Role, nat>, t: nat, v: nat)
    requires Tree(mem, page) && User(t, v) in page
    ensures Refers(Word(mem, page, LowOf(t, v), K(v)), User(t, v), page[User(t, v)]) && LowOf(t, v) in page
  {
    assert Linked(mem, page, User(t, v));
  }

  lemma LeafPresent(s: State, t: nat, v: nat)
    requires Tree(s.mem, s.page) && Lookup(s, t, v) != 0
    ensures LowOf(t, v) in s.page && Present(Lookup(s, t, v)) && Leaf(Lookup(s, t, v))
  {
    assert SlotOk(Word(s.mem, s.page, LowOf(t, v), K(v)), s.page, LowOf(t, v), K(v));
  }

  lemma OwnedSound(s: State, t: nat, v: nat, p: nat)
    requires Sound(s) && p in s.role && s.role[p] == Held && User(t, v) !in s.page && v < MAXVPN
    requires Present(Lookup(s, t, v)) && Ppn(Lookup(s, t, v)) == p
    ensures Sound(Owned(s, t, v, p)) && SameMaps(s, Owned(s, t, v, p))
  {
    PagedRole(s.mem, s.role, p, User(t, v));
    InverseAdd(s.page, s.role, p, User(t, v));
    FreeOther(s.free, s.role, p, User(t, v));
    LeafPresent(s, t, v);
    OwnedTree(s.mem, s.page, User(t, v), p);
  }

  /** User memory goes back into the hands of the kernel; its entry stays for now. */
  function Disowned(s: State, t: nat, v: nat): State
    requires User(t, v) in s.page
  {
    s.(page := s.page - {User(t, v)}, role := s.role[s.page[User(t, v)] := Held])
  }

  lemma InverseDrop(page: map<Role, nat>, role: map<nat, Role>, r: Role)
    requires Inverse(page, role) && r in page
    ensures Inverse(page - {r}, role[page[r] := Held])
  {
  }

  lemma DisownedTree(mem: Memory, page: map<Role, nat>, r: Role)
    requires Tree(mem, page) && r.User? && r in page
    ensures Tree(mem, page - {r})
  {
    var page' := page - {r};
    assert forall q: Role, k: nat :: !q.User? ==> Word(mem, page', q, k) == Word(mem, page, q, k);
    forall q | q in page' ensures Linked(mem, page', q) {
      assert Linked(mem, page, q);
    }
    forall q, k: nat | q in page' && !q.User? && k < 512 ensures SlotOk(Word(mem, page', q, k), page', q, k) {
      assert SlotOk(Word(mem, page, q, k), page, q, k);
    }
  }

  lemma DisownedSound(s: State, t: nat, v: nat)
    requires Sound(s) && User(t, v) in s.page
    ensures Sound(Disowned(s, t, v)) && SameMaps(s, Disowned(s, t, v))
    ensures Present(Lookup(s, t, v)) && Ppn(Lookup(s, t, v)) == s.page[User(t, v)] && Leaf(Lookup(s, t, v))
  {
    assert Linked(s.mem, s.page, User(t, v));
    PagedRole(s.mem, s.role, s.page[User(t, v)], Held);
    InverseDrop(s.page, s.role, User(t, v));
    FreeOther(s.free, s.role, s.page[User(t, v)], Held);
    DisownedTree(s.mem, s.page, User(t, v));
  }

  // ---------- What whole operations do ----------

  /** Page v lies in the range [from, to) of table t. */
  predicate Range(t: nat, from: nat, to: nat, t': nat, v: nat) { t' == t && from <= v < to }

  /** Role r is user memory of table t in the range. */
  predicate UserIn(r: Role, t: nat, from: nat, to: nat) { r.User? && Range(t, from, to, r.t, r.v) }

  /** Roles a growing table may add. */
  predicate NewRole(r: Role, t: nat, from: nat, to: nat) { ((r.Mid? || r.Low?) && r.t == t) || UserIn(r, t, from, to) }

  ghost predicate SameOutside(s: State, s': State, t: nat, from: nat, to: nat) {
    forall t': nat, v: nat :: v < MAXVPN && !Range(t, from, to, t', v) ==> Lookup(s', t', v) == Lookup(s, t', v)
  }

  /** Pages in use keep their role and, if they are no table, their contents. */
  ghost predicate Keeps(s: State, s': State) {
    && s'.role.Keys == s.role.Keys && s'.mem.Keys == s.mem.Keys
    && (forall p :: p in s.role && !s.role[p].Free? ==> s'.role[p] == s.role[p])
    && (forall p :: p in s.role && p in s.mem && (s.role[p].User? || s.role[p].Held?) ==> s'.mem[p] == s.mem[p])
  }

  /** Tables and user memory stay where they are; what is new belongs to table t. */
  ghost predicate PagesGrow(page: map<Role, nat>, page': map<Role, nat>, t: nat, from: nat, to: nat) {
    && (forall r :: r in page ==> r in page' && page'[r] == page[r])
    && (forall r :: r in page' && r !in page ==> NewRole(r, t, from, to))
  }

  lemma PagesGrowTrans(a: map<Role, nat>, b: map<Role, nat>, c: map<Role, nat>, t: nat, from: nat, mid: nat, x: nat,
      y: nat, to: nat)
    requires PagesGrow(a, b, t, from, mid) && PagesGrow(b, c, t, x, y)
    requires from <= mid <= to && (x == y || from <= x <= y <= to)
    ensures PagesGrow(a, c, t, from, to)
  {
    forall r | r in c && r !in a ensures NewRole(r, t, from, to) {
      assert r in b ==> NewRole(r, t, from, mid);
      assert r !in b ==> NewRole(r, t, x, y);
    }
  }

  /** From s to s', table t gained user memory in the range, interior tables of its own, and nothing else changed
      but for free pages taken. */
  ghost predicate Extended(s: State, s': State, t: nat, from: nat, to: nat) {
    && Keeps(s, s') && SameOutside(s, s', t, from, to)
    && PagesGrow(s.page, s'.page, t, from, to)
    && (forall v :: from <= v < to ==> User(t, v) in s'.page)
  }

  lemma ExtendedTrans(s: State, u: State, w: State, t: nat, from: nat, mid: nat, to: nat)
    requires from <= mid <= to && Extended(s, u, t, from, mid) && Extended(u, w, t, mid, to)
    ensures Extended(s, w, t, from, to)
  {
    PagesGrowTrans(s.page, u.page, w.page, t, from, mid, mid, to, to);
    forall t': nat, v: nat | v < MAXVPN && !Range(t, from, to, t', v) ensures Lookup(w, t', v) == Lookup(s, t', v) {
      assert !Range(t, from, mid, t', v) && !Range(t, mid, to, t', v);
    }
    forall v | from <= v < to ensures User(t, v) in w.page {
      assert v < mid ==> User(t, v) in u.page;
    }
  }

  /** From s to s', the user memory of table t in the range went to the free list, its entries are clear, and nothing
      else changed. */
  ghost predicate Shrunk(s: State, s': State, t: nat, from: nat, to: nat) {
    && s'.role.Keys == s.role.Keys && s'.mem.Keys == s.mem.Keys && SameOutside(s, s', t, from, to)
    && (forall v: nat :: from <= v < to ==> Lookup(s', t, v) == 0)
    && (forall r :: r in s'.page <==> r in s.page && !UserIn(r, t, from, to))
    && (forall r :: r in s'.page ==> s'.page[r] == s.page[r])
    && (forall p :: p in s.role ==> s'.role[p] == if UserIn(s.role[p], t, from, to) then Free else s.role[p])
    && (forall p :: p in s.role && p in s.mem && (s.role[p].Held? || s.role[p].User?) ==>
          UserIn(s.role[p], t, from, to) || s'.mem[p] == s.mem[p])
  }

  lemma ShrunkTrans(s: State, u: State, w: State, t: nat, from: nat, mid: nat, to: nat)
    requires from <= mid <= to <= MAXVPN && Shrunk(s, u, t, from, mid) && Shrunk(u, w, t, mid, to)
    ensures Shrunk(s, w, t, from, to)
  {
    forall t': nat, v: nat | v < MAXVPN && !Range(t, from, to, t', v) ensures Lookup(w, t', v) == Lookup(s, t', v) {
      assert !Range(t, from, mid, t', v) && !Range(t, mid, to, t', v);
    }
    forall v: nat | from <= v < to ensures Lookup(w, t, v) == 0 {
      assert v < mid ==> Lookup(u, t, v) == 0 && !Range(t, mid, to, t, v);
    }
    assert forall r :: UserIn(r, t, from, to) <==> UserIn(r, t, from, mid) || UserIn(r, t, mid, to);
  }

  /** Taking back what was added leaves at most some more interior tables. */
  lemma ExtendedShrunk(s: State, u: State, w: State, t: nat, from: nat, to: nat)
    requires from <= to && Extended(s, u, t, from, to) && Shrunk(u, w, t, from, to)
    requires forall v: nat :: from <= v < to ==> User(t, v) !in s.page && Lookup(s, t, v) == 0
    requires Inverse(s.page, s.role)
    ensures Extended(s, w, t, from, from)
  {
    forall t': nat, v: nat | v < MAXVPN ensures Lookup(w, t', v) == Lookup(s, t', v) {
      assert Range(t, from, to, t', v) || Lookup(u, t', v) == Lookup(s, t', v);
    }
    forall r | r in w.page && r !in s.page ensures NewRole(r, t, from, from) {
      assert NewRole(r, t, from, to) && !UserIn(r, t, from, to);
    }
    forall r | r in s.page ensures r in w.page && w.page[r] == s.page[r] {
      assert !UserIn(r, t, from, to);
    }
    forall p | p in s.role && !s.role[p].Free? ensures !UserIn(s.role[p], t, from, to) {
    }
  }

  /** walk's allocation of a missing table. */
  function Sprouted(s: State, r: Role): State
    requires CanPop(s) && CanAdd(Popped(s), r)
  {
    Added(Popped(s), r, s.head)
  }

  lemma CanSprout(s: State, r: Role)
    requires Paged(s.mem, s.role) && Inverse(s.page, s.role) && Chain(s.mem, s.head, s.free)
    requires |s.free| > 0 && HasUp(r) && Up(r) in s.page && SlotFits(r)
    ensures CanPop(s) && CanAdd(Popped(s), r)
  {
  }

  lemma SproutedSound(s: State, r: Role)
    requires Sound(s) && |s.free| > 0 && r !in s.page && (r.Mid? || r.Low?) && Up(r) in s.page && SlotFits(r)
    ensures CanPop(s) && CanAdd(Popped(s), r) && Sound(Sprouted(s, r)) && SameMaps(s, Sprouted(s, r))
  {
    CanSprout(s, r);
    PoppedSound(s);
    AddedSound(Popped(s), r, s.head);
    forall t': nat, v: nat ensures Lookup(Popped(s), t', v) == Lookup(s, t', v) {
      PoppedWord(s, LowOf(t', v), K(v));
    }
  }

  lemma PoppedWord(s: State, r: Role, k: nat)
    requires Sound(s) && |s.free| > 0
    ensures CanPop(s) && Word(Popped(s).mem, s.page, r, k) == Word(s.mem, s.page, r, k)
  {
    assert s.role[s.free[0]] == Free;
  }

  lemma SproutedKeeps(s: State, r: Role)
    requires Paged(s.mem, s.role) && Inverse(s.page, s.role) && FreeOk(s.free, s.role)
    requires |s.free| > 0 && s.head == s.free[0] && !r.User? && CanPop(s) && CanAdd(Popped(s), r)
    ensures Keeps(s, Sprouted(s, r))
  {
    assert s.role[s.free[0]] == Free;
  }

  lemma SproutedOk(s: State, r: Role, x: nat)
    requires Sound(s) && |s.free| > 0 && r !in s.page && (r.Mid? || r.Low?) && Up(r) in s.page && SlotFits(r)
    ensures CanPop(s) && CanAdd(Popped(s), r) && Sound(Sprouted(s, r)) && Extended(s, Sprouted(s, r), r.t, x, x)
  {
    SproutedSound(s, r);
    SproutedKeeps(s, r);
    MapsExtended(s, Sprouted(s, r), r, s.head, x);
  }

  lemma MapsExtended(s: State, s': State, r: Role, p: nat, x: nat)
    requires Keeps(s, s') && SameMaps(s, s') && s'.page == s.page[r := p] && r !in s.page && (r.Mid? || r.Low?)
    ensures Extended(s, s', r.t, x, x)
  {
  }

  /** A slot of an inner table is present exactly when the table below it exists, and then refers to it. */
  lemma SlotBelow(s: State, r: Role, k: nat)
    requires Sound(s) && Inner(r) && r in s.page && k < 512
    ensures s.page[r] in s.mem && |s.mem[s.page[r]]| == 512 && s.page[r] != 0
    ensures Present(s.mem[s.page[r]][k]) <==> Down(r, k) in s.page
    ensures Down(r, k) in s.page ==> Ppn(s.mem[s.page[r]][k]) == s.page[Down(r, k)]
  {
    assert SlotOk(Word(s.mem, s.page, r, k), s.page, r, k);
    if Down(r, k) in s.page {
      assert Linked(s.mem, s.page, Down(r, k));
      TablePteOk(s.page[Down(r, k)]);
    }
  }

  lemma SlotNotNull(s: State, r: Role)
    requires Sound(s) && r in s.page
    ensures s.page[r] != 0
  {
  }

  // ---------- mappages ----------

  /** PA2PTE(pa) | perm | PTE_V for the page with number p. */
  function MakePte(p: nat, perm: nat): nat { p * 1024 + (if perm % 2 == 1 then perm else perm + 1) }

  lemma PteFields(p: nat, f: nat)
    requires f < 1024
    ensures (p * 1024 + f) / 1024 == p && (p * 1024 + f) % 1024 == f
  {
  }

  lemma PteLowBits(p: nat, f: nat, h: nat)
    requires f < 1024 && h == f / 2
    ensures (p * 1024 + f) % 2 == f % 2 && (p * 1024 + f) / 2 % 8 == h % 8
  {
    assert (p * 1024 + f) / 2 == 8 * (64 * p) + h;
  }

  lemma MakePteOk(p: nat, perm: nat)
    requires perm < 1024
    ensures var w := MakePte(p, perm);
      && Present(w) && Ppn(w) == p && Flags(w) == (if perm % 2 == 1 then perm else perm + 1)
      && (Leaf(w) <==> Leaf(perm))
  {
    var flags := if perm % 2 == 1 then perm else perm + 1;
    PteFields(p, flags);
    PteLowBits(p, flags, perm / 2);
  }

  /** From s to s', the pages [from, to) of table t, and no others, came to map to consecutive pages from ppn on;
      t may have gained interior tables. */
  ghost predicate Mapped(s: State, s': State, t: nat, from: nat, to: nat, ppn: nat, perm: nat) {
    && Keeps(s, s') && SameOutside(s, s', t, from, to)
    && PagesGrow(s.page, s'.page, t, from, from)
    && (forall v: nat :: from <= v < to ==> Lookup(s', t, v) == MakePte(ppn + (v - from), perm))
  }

  lemma MappedWalk(s: State, u: State, w: State, t: nat, from: nat, to: nat, ppn: nat, perm: nat)
    requires perm < 1024 && to < MAXVPN && Mapped(s, u, t, from, to, ppn, perm) && Extended(u, w, t, to, to)
    ensures Mapped(s, w, t, from, to, ppn, perm)
  {
    forall t': nat, v: nat | v < MAXVPN ensures Lookup(w, t', v) == Lookup(u, t', v) {
      assert !Range(t, to, to, t', v);
    }
    PagesGrowTrans(s.page, u.page, w.page, t, from, from, to, to, from);
  }

  lemma LeafKeeps(s: State, t: nat, v: nat, w: nat)
    requires Paged(s.mem, s.role) && Inverse(s.page, s.role) && LowOf(t, v) in s.page
    ensures Keeps(s, WithLeaf(s, t, v, w))
  {
  }

  lemma MappedLeaf(s: State, u: State, u': State, t: nat, from: nat, v: nat, to: nat, ppn: nat, perm: nat)
    requires Mapped(s, u, t, from, v, ppn, perm) && Keeps(u, u')
    requires u'.page == u.page && from <= v < MAXVPN && to == v + 1
    requires Wrote(u, u', t, v, MakePte(ppn + (v - from), perm))
    ensures Mapped(s, u', t, from, to, ppn, perm)
  {
    forall t': nat, v': nat | v' < MAXVPN && !Range(t, from, to, t', v')
      ensures Lookup(u', t', v') == Lookup(s, t', v')
    {
      assert !Range(t, from, v, t', v');
    }
    forall v': nat | from <= v' < to ensures Lookup(u', t, v') == MakePte(ppn + (v' - from), perm) {
      assert v' < v ==> Lookup(u, t, v') == MakePte(ppn + (v' - from), perm);
    }
  }

  /** Only page v of table t is mapped otherwise than before, by entry w. */
  ghost predicate Wrote(s: State, s': State, t: nat, v: nat, w: nat) {
    forall t': nat, v': nat :: v' < MAXVPN ==> Lookup(s', t', v') == if t' == t && v' == v then w else Lookup(s, t', v')
  }

  lemma NotUser(s: State, t: nat, v: nat)
    requires Tree(s.mem, s.page) && Lookup(s, t, v) == 0
    ensures User(t, v) !in s.page
  {
    assert User(t, v) in s.page ==> Linked(s.mem, s.page, User(t, v));
  }

  lemma MapStep(s: State, u: State, t: nat, from: nat, v: nat, to: nat, ppn: nat, p: nat, perm: nat)
    requires Sound(u) && perm < 1024 && Leaf(perm) && from <= v < MAXVPN && to == v + 1 && p == ppn + (v - from)
    requires LowOf(t, v) in u.page && Mapped(s, u, t, from, v, ppn, perm) && Lookup(s, t, v) == 0
    ensures Sound(WithLeaf(u, t, v, MakePte(p, perm)))
    ensures Mapped(s, WithLeaf(u, t, v, MakePte(p, perm)), t, from, to, ppn, perm)
  {
    assert !Range(t, from, v, t, v);
    NotUser(u, t, v);
    MakePteOk(p, perm);
    LeafSound(u, t, v, MakePte(p, perm));
    LeafKeeps(u, t, v, MakePte(p, perm));
    MappedLeaf(s, u, WithLeaf(u, t, v, MakePte(p, perm)), t, from, v, to, ppn, perm);
  }

  // ---------- uvmunmap ----------

  /** User page v of table t has gone to the free list; its entry is still there. */
  function Released(s: State, t: nat, v: nat): State
    requires User(t, v) in s.page
  {
    Pushed(Disowned(s, t, v), s.page[User(t, v)])
  }

  lemma PushedMaps(s: State, p: nat)
    requires Inverse(s.page, s.role) && p in s.role && !Tracked(s.role[p])
    ensures SameMaps(s, Pushed(s, p))
  {
    InverseUntracked(s.page, s.role, p, Free);
  }

  lemma ReleasedSound(s: State, t: nat, v: nat)
    requires Sound(s) && User(t, v) in s.page
    ensures Sound(Released(s, t, v)) && SameMaps(s, Released(s, t, v)) && LowOf(t, v) in s.page && v < MAXVPN
    ensures LowOf(t, v) in Released(s, t, v).page && User(t, v) !in Released(s, t, v).page
  {
    var u, p := Disowned(s, t, v), s.page[User(t, v)];
    assert Linked(s.mem, s.page, User(t, v));
    DisownedSound(s, t, v);
    PushedSound(u, p);
    PushedMaps(u, p);
  }

  lemma ReleasedShrinks(s: State, s': State, t: nat, v: nat, to: nat)
    requires Paged(s.mem, s.role) && Inverse(s.page, s.role)
    requires User(t, v) in s.page && to == v + 1 && LowOf(t, v) in s.page
    requires LowOf(t, v) in Released(s, t, v).page && s.page[LowOf(t, v)] != s.page[User(t, v)]
    requires s' == WithLeaf(Released(s, t, v), t, v, 0) && Wrote(s, s', t, v, 0) && v < MAXVPN
    ensures Shrunk(s, s', t, v, to)
  {
    forall t': nat, v': nat | v' < MAXVPN && !Range(t, v, to, t', v') ensures Lookup(s', t', v') == Lookup(s, t', v') {
    }
    assert forall r: Role :: UserIn(r, t, v, to) <==> r == User(t, v);
  }

  /** uvmunmap's step on a page it is to free. */
  lemma FreedPage(s: State, t: nat, v: nat, to: nat)
    requires Sound(s) && User(t, v) in s.page && to == v + 1
    ensures var u := Released(s, t, v);
      LowOf(t, v) in u.page && Sound(u) && Sound(WithLeaf(u, t, v, 0)) && Shrunk(s, WithLeaf(u, t, v, 0), t, v, to)
  {
    ReleasedSound(s, t, v);
    LeafSound(Released(s, t, v), t, v, 0);
    ReleasedShrinks(s, WithLeaf(Released(s, t, v), t, v, 0), t, v, to);
  }

  /** uvmunmap's step on a page that belongs to somebody else. */
  lemma ClearedPage(s: State, t: nat, v: nat, to: nat)
    requires Sound(s) && User(t, v) !in s.page && v < MAXVPN && to == v + 1 && LowOf(t, v) in s.page
    ensures Sound(WithLeaf(s, t, v, 0)) && Shrunk(s, WithLeaf(s, t, v, 0), t, v, to)
  {
    LeafSound(s, t, v, 0);
    LeafKeeps(s, t, v, 0);
    var s' := WithLeaf(s, t, v, 0);
    assert forall r: Role :: UserIn(r, t, v, to) <==> r == User(t, v);
    forall t': nat, v': nat | v' < MAXVPN && !Range(t, v, to, t', v') ensures Lookup(s', t', v') == Lookup(s, t', v') {
    }
  }

  /** No leaf passes for a pointer to a table. */
  lemma LeafNotTable(w: nat)
    requires Leaf(w)
    ensures Flags(w) != 1
  {
  }

  // ---------- A new user page ----------

  /** kalloc's page, filled by its holder. */
  function Fetched(s: State, words: seq<nat>): State
    requires CanPop(s)
  {
    Popped(s).(mem := Popped(s).mem[s.head := words])
  }

  lemma FetchedSound(s: State, words: seq<nat>)
    requires Sound(s) && |s.free| > 0 && |words| == 512
    ensures CanPop(s) && Sound(Fetched(s, words))
    ensures s.head in s.role && s.role[s.head] == Free && Fetched(s, words).role[s.head] == Held && s.head != 0
  {
    var p := s.head;
    PoppedSound(s);
    var u := Popped(s);
    PagedWrite(u.mem, u.role, p, words, Held);
    assert u.role[p := Held] == u.role;
    FreeOther(u.free, u.role, p, Held);
    ChainFrame(u.mem, u.head, u.free, p, words);
    InverseUntracked(u.page, u.role, p, Held);
    TreeFrame(u.mem, u.page, p, words);
  }

  lemma FetchedExtends(s: State, words: seq<nat>, t: nat, x: nat)
    requires Paged(s.mem, s.role) && Inverse(s.page, s.role) && CanPop(s) && s.head in s.role && s.role[s.head] == Free
    ensures Extended(s, Fetched(s, words), t, x, x)
  {
    InverseUntracked(s.page, s.role, s.head, Held);
    var w := Fetched(s, words);
    assert forall r: Role, k: nat :: Word(w.mem, w.page, r, k) == Word(s.mem, s.page, r, k);
  }

  /** Pages in use are kept through a step that only concerns the page p, which was free at the start. */
  lemma KeepsVia(s: State, u: State, w: State, x: State, p: nat, q: Role)
    requires Keeps(s, u) && Keeps(u, w) && p in s.role && s.role[p] == Free
    requires x.role == w.role[p := q] && x.mem.Keys == w.mem.Keys && forall a :: a in w.mem && a != p ==>
      x.mem[a] == w.mem[a]
    ensures Keeps(s, x)
  {
  }

  lemma OutsideVia(s: State, u: State, w: State, x: State, t: nat, v: nat, to: nat)
    requires SameOutside(s, u, t, v, v) && SameOutside(u, w, t, v, to) && SameMaps(w, x)
    ensures SameOutside(s, x, t, v, to)
  {
    forall t': nat, v': nat | v' < MAXVPN && !Range(t, v, to, t', v') ensures Lookup(x, t', v') == Lookup(s, t', v') {
      assert !Range(t, v, v, t', v');
    }
  }

  /** The page is mapped and now belongs to the table. */
  lemma NewPageSound(u: State, w: State, t: nat, v: nat, to: nat, p: nat, perm: nat)
    requires Sound(w) && Mapped(u, w, t, v, to, p, perm) && to == v + 1 && v < MAXVPN && perm < 1024
    requires p in u.role && u.role[p] == Held && User(t, v) !in u.page
    ensures Sound(Owned(w, t, v, p)) && SameMaps(w, Owned(w, t, v, p)) && User(t, v) !in w.page
    ensures Lookup(w, t, v) == MakePte(p, perm)
  {
    MakePteOk(p, perm);
    assert Lookup(w, t, v) == MakePte(p + (v - v), perm);
    assert User(t, v) !in w.page by { assert User(t, v) in w.page ==> NewRole(User(t, v), t, v, v); }
    OwnedSound(w, t, v, p);
  }

  lemma NewPagePages(s: State, u: State, w: State, x: State, t: nat, v: nat, to: nat, p: nat)
    requires PagesGrow(s.page, u.page, t, v, v) && PagesGrow(u.page, w.page, t, v, v) && to == v + 1
    requires User(t, v) !in w.page && x.page == w.page[User(t, v) := p]
    ensures PagesGrow(s.page, x.page, t, v, to) && forall a :: v <= a < to ==> User(t, a) in x.page
  {
    PagesGrowTrans(s.page, u.page, w.page, t, v, v, v, v, v);
    forall r | r in x.page && r !in s.page ensures NewRole(r, t, v, to) {
      assert r in w.page ==> NewRole(r, t, v, v);
    }
  }

  lemma NewPageMapped(s: State, u: State, w: State, t: nat, v: nat, to: nat, p: nat, perm: nat)
    requires Extended(s, u, t, v, v) && p in s.role && s.role[p] == Free && p in u.role && u.role[p] == Held
    requires Sound(w) && Mapped(u, w, t, v, to, p, perm) && to == v + 1
    requires v < MAXVPN && perm < 1024 && User(t, v) !in u.page
    ensures Sound(Owned(w, t, v, p)) && Lookup(Owned(w, t, v, p), t, v) == MakePte(p, perm)
    ensures Extended(s, Owned(w, t, v, p), t, v, to)
  {
    NewPageSound(u, w, t, v, to, p, perm);
    var x := Owned(w, t, v, p);
    assert Keeps(s, x) by { KeepsVia(s, u, w, x, p, User(t, v)); }
    assert SameOutside(s, x, t, v, to) by { OutsideVia(s, u, w, x, t, v, to); }
    NewPagePages(s, u, w, x, t, v, to, p);
  }

  /** mappages ran out of pages, and the page goes back. */
  lemma NewPageFailed(s: State, u: State, w: State, t: nat, v: nat, p: nat, perm: nat)
    requires Extended(s, u, t, v, v) && p in s.role && s.role[p] == Free && p in u.role && u.role[p] == Held
    requires Sound(w) && Mapped(u, w, t, v, v, p, perm)
    ensures w.role[p] == Held && Sound(Pushed(w, p)) && Extended(s, Pushed(w, p), t, v, v)
  {
    var x := Pushed(w, p);
    assert Keeps(s, x) by { KeepsVia(s, u, w, x, p, Free); }
    assert SameOutside(s, x, t, v, v) by {
      PushedMaps(w, p);
      OutsideVia(s, u, w, x, t, v, v);
    }
    PagesGrowTrans(s.page, u.page, w.page, t, v, v, v, v, v);
    PushedSound(w, p);
  }

  /** What uvmunmap demands of a page: it is mapped, and it is user memory of the table if it is to be freed. */
  predicate Unmappable(s: State, t: nat, v: nat, doFree: bool) {
    Lookup(s, t, v) != 0 && (User(t, v) in s.page <==> doFree)
  }

  ghost predicate AllUnmappable(s: State, t: nat, from: nat, to: nat, doFree: bool) {
    forall v: nat :: from <= v < to ==> Unmappable(s, t, v, doFree)
  }

  lemma StillUnmappable(s: State, u: State, t: nat, from: nat, a: nat, to: nat, doFree: bool)
    requires from <= a < to <= MAXVPN && AllUnmappable(s, t, from, to, doFree) && Shrunk(s, u, t, from, a)
    ensures Unmappable(u, t, a, doFree)
  {
    assert Unmappable(s, t, a, doFree) && !Range(t, from, a, t, a);
    assert !UserIn(User(t, a), t, from, a);
  }

  lemma ShrunkNone(s: State, t: nat, x: nat)
    ensures Shrunk(s, s, t, x, x)
  {
  }

  lemma ExtendedNone(s: State, t: nat, x: nat)
    ensures Extended(s, s, t, x, x)
  {
  }

  /** Page v of table t is a page that was free in s, mapped with the given permissions and holding the given words. */
  ghost predicate NewAt(s: State, s': State, t: nat, v: nat, perm: nat, words: seq<nat>) {
    && User(t, v) in s'.page && s'.page[User(t, v)] in s.role && s.role[s'.page[User(t, v)]] == Free
    && Lookup(s', t, v) == MakePte(s'.page[User(t, v)], perm)
    && s'.page[User(t, v)] in s'.mem && s'.mem[s'.page[User(t, v)]] == words
  }

  /** No page of the range is mapped. */
  ghost predicate AllClear(s: State, t: nat, from: nat, to: nat) {
    forall v: nat :: from <= v < to ==> Lookup(s, t, v) == 0
  }

  lemma ClearOne(s: State, t: nat, v: nat, to: nat)
    requires Lookup(s, t, v) == 0 && to == v + 1
    ensures AllClear(s, t, v, to)
  {
  }

  // ---------- uvmalloc and uvmcopy ----------

  lemma NewAtKept(s: State, u: State, w: State, t: nat, v: nat, perm: nat, words: seq<nat>, from: nat, to: nat)
    requires NewAt(s, u, t, v, perm, words) && Extended(u, w, t, from, to) && v < from && v < MAXVPN
    requires u.page[User(t, v)] in u.role && u.role[u.page[User(t, v)]] == User(t, v)
    ensures NewAt(s, w, t, v, perm, words)
  {
    assert !Range(t, from, to, t, v);
  }

  /** A page that was free in u was free in s, if nothing in use in s was given up. */
  lemma NewAtBefore(s: State, u: State, w: State, t: nat, v: nat, perm: nat, words: seq<nat>)
    requires Keeps(s, u) && NewAt(u, w, t, v, perm, words)
    ensures NewAt(s, w, t, v, perm, words)
  {
  }

  /** The pages [from, to) are fresh zeroed pages with the same permissions. */
  ghost predicate AllZero(s: State, s': State, t: nat, from: nat, to: nat, perm: nat) {
    forall v: nat :: from <= v < to ==> NewAt(s, s', t, v, perm, Filled(0))
  }

  lemma AllZeroNext(s: State, u: State, w: State, t: nat, from: nat, v: nat, to: nat, perm: nat)
    requires Sound(u) && AllZero(s, u, t, from, v, perm) && from <= v < MAXVPN && to == v + 1
    requires Keeps(s, u) && Extended(u, w, t, v, to) && NewAt(u, w, t, v, perm, Filled(0))
    ensures AllZero(s, w, t, from, to, perm)
  {
    forall a: nat | from <= a < to ensures NewAt(s, w, t, a, perm, Filled(0)) {
      if a == v {
        NewAtBefore(s, u, w, t, v, perm, Filled(0));
      } else {
        assert NewAt(s, u, t, a, perm, Filled(0));
        NewAtKept(s, u, w, t, a, perm, Filled(0), v, to);
      }
    }
  }

  /** What was added can be unmapped and freed. */
  lemma ExtendedUnmappable(s: State, u: State, t: nat, from: nat, to: nat)
    requires Sound(u) && Extended(s, u, t, from, to)
    ensures AllUnmappable(u, t, from, to, true)
  {
    forall v: nat | from <= v < to ensures Unmappable(u, t, v, true) {
      UserPresent(u.mem, u.page, t, v);
    }
  }

  lemma ClearNotUser(s: State, t: nat, from: nat, to: nat)
    requires Tree(s.mem, s.page) && AllClear(s, t, from, to)
    ensures forall v: nat :: from <= v < to ==> User(t, v) !in s.page && Lookup(s, t, v) == 0
  {
    forall v: nat | from <= v < to ensures User(t, v) !in s.page {
      NotUser(s, t, v);
    }
  }

  /** Contents of the page that v is mapped to. */
  function PageAt(s: State, t: nat, v: nat): seq<nat> {
    if Ppn(Lookup(s, t, v)) in s.mem then s.mem[Ppn(Lookup(s, t, v))] else []
  }

  /** Page v of the child is a fresh page with the flags and contents of the parent's. */
  ghost predicate CopyAt(s: State, s': State, parent: nat, child: nat, v: nat) {
    NewAt(s, s', child, v, Flags(Lookup(s, parent, v)), PageAt(s, parent, v))
  }

  ghost predicate AllCopied(s: State, s': State, parent: nat, child: nat, to: nat) {
    forall v: nat :: v < to ==> CopyAt(s, s', parent, child, v)
  }

  lemma CopyNext(s: State, u: State, w: State, parent: nat, child: nat, v: nat, to: nat)
    requires Sound(u) && AllCopied(s, u, parent, child, v) && v < MAXVPN && to == v + 1
    requires Keeps(s, u) && Extended(u, w, child, v, to)
    requires NewAt(u, w, child, v, Flags(Lookup(s, parent, v)), PageAt(s, parent, v))
    ensures AllCopied(s, w, parent, child, to)
  {
    forall a: nat | a < to ensures CopyAt(s, w, parent, child, a) {
      if a == v {
        NewAtBefore(s, u, w, child, v, Flags(Lookup(s, parent, v)), PageAt(s, parent, v));
      } else {
        assert CopyAt(s, u, parent, child, a);
        NewAtKept(s, u, w, child, a, Flags(Lookup(s, parent, a)), PageAt(s, parent, a), v, to);
      }
    }
  }

  /** The page of user memory v. */
  lemma UserPage(s: State, t: nat, v: nat)
    requires Sound(s) && User(t, v) in s.page
    ensures Lookup(s, t, v) != 0 && Ppn(Lookup(s, t, v)) == s.page[User(t, v)] && s.page[User(t, v)] in s.mem
    ensures PageAt(s, t, v) == s.mem[s.page[User(t, v)]] && |PageAt(s, t, v)| == 512
    ensures s.page[User(t, v)] in s.role && s.role[s.page[User(t, v)]] == User(t, v)
  {
    UserPresent(s.mem, s.page, t, v);
    assert !Present(0);
  }

  /** The parent still reads as at the start while the child grows. */
  lemma ParentKept(s: State, u: State, parent: nat, child: nat, from: nat, to: nat, v: nat)
    requires Sound(s) && Extended(s, u, child, from, to) && parent != child && User(parent, v) in s.page && v < MAXVPN
    ensures Lookup(u, parent, v) == Lookup(s, parent, v) && PageAt(u, parent, v) == PageAt(s, parent, v)
    ensures User(parent, v) in u.page && |PageAt(s, parent, v)| == 512 && Lookup(s, parent, v) != 0
  {
    assert !Range(child, from, to, parent, v);
    UserPage(s, parent, v);
  }

  lemma FlagsOfLeaf(w: nat)
    requires Present(w) && Leaf(w)
    ensures Flags(w) < 1024 && Leaf(Flags(w))
  {
    assert w == 1024 * (w / 1024) + w % 1024;
    assert w / 2 == 512 * (w / 1024) + w % 1024 / 2;
    assert (512 * (w / 1024) + w % 1024 / 2) % 8 == w % 1024 / 2 % 8;
  }
}
