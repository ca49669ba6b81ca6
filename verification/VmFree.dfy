/** What freewalk and uvmfree do to the pages of a table, as relations between states. */
module VmFree {
  import opened VmTree

  /** q is the table r or one below it. */
  predicate Under(r: Role, q: Role) {
    match r
    case Root(t) => (q.Root? || q.Mid? || q.Low?) && q.t == t
    case Mid(t, i) => q == r || (q.Low? && q.t == t && q.i == i)
    case _ => q == r
  }

  /** From s to s', the tables in gone went to the free list; the others, and all pages in use but the one with
      role busy, are as they were. */
  ghost predicate Pruned(s: State, s': State, gone: set<Role>, busy: Role) {
    && s'.role.Keys == s.role.Keys && s'.mem.Keys == s.mem.Keys
    && (forall q :: q in s'.page <==> q in s.page && q !in gone)
    && (forall q :: q in s'.page ==> s'.page[q] == s.page[q])
    && (forall p :: p in s.role ==> s'.role[p] == if s.role[p] in gone then Free else s.role[p])
    && (forall p :: p in s.role && p in s.mem && s.role[p] !in gone && !s.role[p].Free? && s.role[p] != busy ==>
          s'.mem[p] == s.mem[p])
  }

  lemma PrunedTrans(s: State, u: State, w: State, g: set<Role>, h: set<Role>, busy: Role, other: Role)
    requires Pruned(s, u, g, busy) && Pruned(u, w, h, other)
    requires Free !in g && Free !in h && (other == busy || other in h)
    ensures Pruned(s, w, g + h, busy)
  {
  }

  lemma PrunedNone(s: State, busy: Role)
    ensures Pruned(s, s, {}, busy)
  {
  }

  /** No table under r maps anything. */
  ghost predicate Bare(s: State, r: Role) {
    forall q, k: nat :: q in s.page && Under(r, q) && q.Low? && k < 512 ==> Word(s.mem, s.page, q, k) == 0
  }

  function WithSlot(s: State, r: Role, k: nat, w: nat): State
    requires r in s.page && s.page[r] in s.mem && k < |s.mem[s.page[r]]|
  {
    s.(mem := s.mem[s.page[r] := Put(s.mem[s.page[r]], k, w)])
  }

  lemma SlotWords(s: State, r: Role, k: nat, w: nat, q: Role, j: nat)
    requires Paged(s.mem, s.role) && Inverse(s.page, s.role) && r in s.page && k < 512
    ensures Word(WithSlot(s, r, k, w).mem, s.page, q, j) == if q == r && j == k then w else Word(s.mem, s.page, q, j)
  {
  }

  // ---------- Dropping one table ----------

  /** The table r is no more; its page is in the hands of whoever frees it. */
  function Dropped(s: State, r: Role): State
    requires r in s.page
  {
    s.(page := s.page - {r}, role := s.role[s.page[r] := Held])
  }

  /** r has no present slot, hence nothing below it. */
  ghost predicate Empty(s: State, r: Role) { forall k: nat :: k < 512 ==> Word(s.mem, s.page, r, k) == 0 }

  lemma EmptyNothingBelow(s: State, r: Role, q: Role)
    requires Tree(s.mem, s.page) && Empty(s, r) && q in s.page && HasUp(q) && !r.User?
    ensures Up(q) != r
  {
    assert Linked(s.mem, s.page, q);
  }

  /** The tree without r, once the slot that referred to it is cleared. */
  lemma DroppedTree(s: State, r: Role)
    requires Paged(s.mem, s.role) && Inverse(s.page, s.role) && Tree(s.mem, s.page)
    requires r in s.page && (r.Mid? || r.Low?) && Empty(s, r)
    ensures Up(r) in s.page && s.page[Up(r)] in s.mem && Slot(r) < |s.mem[s.page[Up(r)]]| && Up(r) != r
    ensures Tree(WithSlot(s, Up(r), Slot(r), 0).mem, s.page - {r})
  {
    assert Linked(s.mem, s.page, r);
    var mem', page' := WithSlot(s, Up(r), Slot(r), 0).mem, s.page - {r};
    forall q, k: nat | q in page'
      ensures Word(mem', page', q, k) == if q == Up(r) && k == Slot(r) then 0 else Word(s.mem, s.page, q, k)
    {
      SlotWords(s, Up(r), Slot(r), 0, q, k);
    }
    forall q | q in page' ensures Linked(mem', page', q) {
      assert Linked(s.mem, s.page, q);
      if HasUp(q) {
        EmptyNothingBelow(s, r, q);
        if Up(q) == Up(r) && Slot(q) == Slot(r) {
          UpSlotInjective(q, r);
        }
      }
    }
    forall q, k: nat | q in page' && !q.User? && k < 512 ensures SlotOk(Word(mem', page', q, k), page', q, k) {
      assert SlotOk(Word(s.mem, s.page, q, k), s.page, q, k);
      if Inner(q) && Down(q, k) == r {
        assert q == Up(r) && k == Slot(r);
      }
    }
  }

  lemma DroppedRoot(s: State, r: Role)
    requires Tree(s.mem, s.page) && r in s.page && r.Root? && Empty(s, r)
    ensures Tree(s.mem, s.page - {r})
  {
    var page' := s.page - {r};
    assert forall q: Role, k: nat :: q in page' ==> Word(s.mem, page', q, k) == Word(s.mem, s.page, q, k);
    forall q | q in page' ensures Linked(s.mem, page', q) {
      assert Linked(s.mem, s.page, q);
      if HasUp(q) {
        EmptyNothingBelow(s, r, q);
      }
    }
    forall q, k: nat | q in page' && !q.User? && k < 512 ensures SlotOk(Word(s.mem, page', q, k), page', q, k) {
      assert SlotOk(Word(s.mem, s.page, q, k), s.page, q, k);
    }
  }

  /** The state is sound but for the slot that still refers to the freed table r. */
  ghost predicate Settled(s: State, r: Role) {
    if HasUp(r)
    then Up(r) in s.page && s.page[Up(r)] in s.mem && Slot(r) < |s.mem[s.page[Up(r)]]| && Sound(WithSlot(s, Up(r),
      Slot(r), 0))
    else Sound(s)
  }

  lemma DroppedSound(s: State, r: Role)
    requires Sound(s) && r in s.page && !r.User? && Empty(s, r)
    ensures Settled(Dropped(s, r), r)
  {
    var p := s.page[r];
    PagedRole(s.mem, s.role, p, Held);
    InverseDrop(s.page, s.role, r);
    FreeOther(s.free, s.role, p, Held);
    if r.Root? {
      DroppedRoot(s, r);
    } else {
      DroppedTree(s, r);
      var q := s.page[Up(r)];
      var words := Put(s.mem[q], Slot(r), 0);
      FreeOther(s.free, s.role, q, Up(r));
      ChainFrame(s.mem, s.head, s.free, q, words);
      PagedWrite(s.mem, s.role[p := Held], q, words, Up(r));
      assert s.role[p := Held][q := Up(r)] == s.role[p := Held];
    }
  }

  /** freewalk's last act: kfree of the table itself. */
  function Felled(s: State, r: Role): State
    requires r in s.page
  {
    Pushed(Dropped(s, r), s.page[r])
  }

  lemma PushSlot(s: State, p: nat, r: Role, k: nat)
    requires r in s.page && s.page[r] in s.mem && k < |s.mem[s.page[r]]| && s.page[r] != p
    ensures WithSlot(Pushed(s, p), r, k, 0) == Pushed(WithSlot(s, r, k, 0), p)
  {
    var words := Put(Filled(JUNK1), 0, s.head * 4096);
    var words' := Put(s.mem[s.page[r]], k, 0);
    assert s.mem[p := words][s.page[r] := words'] == s.mem[s.page[r] := words'][p := words];
  }

  lemma FelledSettled(s: State, r: Role)
    requires Sound(s) && r in s.page && !r.User? && Empty(s, r)
    ensures Settled(Felled(s, r), r)
  {
    var u, p := Dropped(s, r), s.page[r];
    DroppedSound(s, r);
    if r.Root? {
      PushedSound(u, p);
    } else {
      assert Linked(s.mem, s.page, r);
      PushSlot(u, p, Up(r), Slot(r));
      PushedSound(WithSlot(u, Up(r), Slot(r), 0), p);
    }
  }

  lemma FelledPrunes(s: State, r: Role)
    requires Paged(s.mem, s.role) && Inverse(s.page, s.role) && r in s.page
    ensures Pruned(s, Felled(s, r), {r}, r)
  {
  }

  // ---------- Going through the slots of a table ----------

  /** q is below r, in the first n slots. */
  predicate Below(r: Role, n: nat, q: Role) {
    match r
    case Root(t) => (q.Mid? || q.Low?) && q.t == t && q.i < n
    case Mid(t, i) => q.Low? && q.t == t && q.i == i && q.j < n
    case _ => false
  }

  ghost predicate Gone(s: State, gone: set<Role>, r: Role, n: nat) {
    forall q :: q in gone <==> q in s.page && Below(r, n, q)
  }

  ghost predicate ClearUpTo(s: State, r: Role, n: nat) {
    forall k: nat :: k < n && k < 512 ==> Word(s.mem, s.page, r, k) == 0
  }

  /** A slot that is clear has nothing below it. */
  lemma NothingUnder(s: State, r: Role, k: nat, q: Role)
    requires Tree(s.mem, s.page) && Inner(r) && Down(r, k) !in s.page && q in s.page
    ensures !Under(Down(r, k), q)
  {
    assert Linked(s.mem, s.page, q);
    assert HasUp(q) && Up(q) in s.page ==> Linked(s.mem, s.page, Up(q));
  }

  lemma GoneSkips(s: State, gone: set<Role>, r: Role, n: nat, next: nat)
    requires Tree(s.mem, s.page) && Gone(s, gone, r, n) && next == n + 1 && (Inner(r) ==> Down(r, n) !in s.page)
    ensures Gone(s, gone, r, next)
  {
    forall q | q in s.page && Below(r, next, q) ensures Below(r, n, q) {
      if Inner(r) {
        NothingUnder(s, r, n, q);
      }
    }
  }

  lemma GoneNext(s: State, u: State, gone: set<Role>, more: set<Role>, r: Role, n: nat, next: nat)
    requires Gone(s, gone, r, n) && next == n + 1 && Inner(r)
    requires forall q :: q in u.page <==> q in s.page && q !in gone
    requires forall q :: q in more <==> q in u.page && Under(Down(r, n), q)
    ensures Gone(s, gone + more, r, next)
  {
    forall q ensures q in gone + more <==> q in s.page && Below(r, next, q) {
      assert Below(r, next, q) <==> Below(r, n, q) || Under(Down(r, n), q);
      assert Under(Down(r, n), q) ==> !Below(r, n, q);
    }
  }

  lemma GoneAll(s: State, gone: set<Role>, r: Role, q: Role)
    requires Tree(s.mem, s.page) && Gone(s, gone, r, 512) && r in s.page && !r.User?
    ensures q in gone + {r} <==> q in s.page && Under(r, q)
  {
    if q in s.page {
      assert Linked(s.mem, s.page, q);
      assert HasUp(q) ==> Linked(s.mem, s.page, Up(q));
    }
  }

  /** Clearing the slot of the subtree just freed. */
  lemma SlotCleared(u: State, x: State, g: set<Role>, r: Role, k: nat)
    requires Inner(r) && Pruned(u, x, g, Down(r, k)) && r in u.page && r in x.page && Down(r, k) in g
    requires x.page[r] in x.mem && k < |x.mem[x.page[r]]| && Inverse(u.page, u.role)
    ensures Pruned(u, WithSlot(x, r, k, 0), g, r)
  {
  }

  lemma StillBare(u: State, y: State, g: set<Role>, r: Role)
    requires Pruned(u, y, g, r) && Bare(u, r) && Inner(r) && Inverse(u.page, u.role) && Paged(u.mem, u.role)
    ensures Bare(y, r)
  {
    forall q, k: nat | q in y.page && Under(r, q) && q.Low? && k < 512 ensures Word(y.mem, y.page, q, k) == 0 {
      assert Word(u.mem, u.page, q, k) == 0;
    }
  }

  lemma ClearNext(u: State, x: State, g: set<Role>, r: Role, k: nat, next: nat)
    requires Inner(r) && ClearUpTo(u, r, k) && Pruned(u, x, g, Down(r, k)) && r in u.page && r in x.page && r !in g
    requires Paged(u.mem, u.role) && Inverse(u.page, u.role) && k < 512 && next == k + 1
    requires x.page[r] in x.mem && |x.mem[x.page[r]]| == 512
    ensures ClearUpTo(WithSlot(x, r, k, 0), r, next)
  {
    var y := WithSlot(x, r, k, 0);
    forall j: nat | j < next && j < 512 ensures Word(y.mem, y.page, r, j) == 0 {
      assert j < k ==> Word(u.mem, u.page, r, j) == 0;
    }
  }

  /** The subtree in slot k is freed and the slot cleared. */
  lemma ChildFreed(u: State, x: State, g: set<Role>, r: Role, k: nat, next: nat)
    requires Sound(u) && Inner(r) && r in u.page && k < 512 && next == k + 1 && ClearUpTo(u, r, k) && Bare(u, r)
    requires Pruned(u, x, g, Down(r, k)) && Settled(x, Down(r, k)) && Down(r, k) in u.page
    requires forall q :: q in g <==> q in u.page && Under(Down(r, k), q)
    ensures r in x.page && x.page[r] == u.page[r] && x.page[r] in x.mem && k < |x.mem[x.page[r]]|
    ensures var y := WithSlot(x, r, k, 0); Sound(y) && Pruned(u, y, g, r) && ClearUpTo(y, r, next) && Bare(y, r)
  {
    var y := WithSlot(x, r, k, 0);
    assert Pruned(u, y, g, r) by { SlotCleared(u, x, g, r, k); }
    assert ClearUpTo(y, r, next) by { ClearNext(u, x, g, r, k, next); }
    StillBare(u, y, g, r);
  }

  lemma BareBelow(s: State, r: Role, k: nat)
    requires Bare(s, r) && Inner(r)
    ensures Bare(s, Down(r, k))
  {
    forall q, j: nat | q in s.page && Under(Down(r, k), q) && q.Low? && j < 512 ensures Word(s.mem, s.page, q, j) == 0 {
      assert Under(r, q);
    }
  }

  /** Height of a table above the leaves. */
  function Height(r: Role): nat { if r.Root? then 2 else if r.Mid? then 1 else 0 }

  /** What freewalk finds in a slot of a bare tree: nothing, or a pointer to the table below; never a leaf. */
  lemma BareSlot(s: State, r: Role, k: nat)
    requires Sound(s) && Bare(s, r) && r in s.page && !r.User? && k < 512
    ensures s.page[r] in s.mem && |s.mem[s.page[r]]| == 512
    ensures var w := s.mem[s.page[r]][k];
      if Present(w) then Inner(r) && Down(r, k) in s.page && Ppn(w) == s.page[Down(r, k)] && !Leaf(w)
      else w == 0 && (Inner(r) ==> Down(r, k) !in s.page)
  {
    var w := Word(s.mem, s.page, r, k);
    assert SlotOk(w, s.page, r, k);
    if Inner(r) {
      SlotBelow(s, r, k);
      if Down(r, k) in s.page {
        assert Linked(s.mem, s.page, Down(r, k));
        TablePteOk(s.page[Down(r, k)]);
      }
    } else {
      assert Under(r, r);
    }
  }

  /** All slots are done, and the table itself goes. */
  lemma FelledAll(s: State, u: State, gone: set<Role>, r: Role)
    requires Sound(s) && Sound(u) && r in s.page && r in u.page && !r.User? && Pruned(s, u, gone, r)
    requires ClearUpTo(u, r, 512) && Gone(s, gone, r, 512)
    ensures Settled(Felled(u, r), r) && Pruned(s, Felled(u, r), gone + {r}, r)
    ensures forall q :: q in gone + {r} <==> q in s.page && Under(r, q)
  {
    assert Pruned(s, Felled(u, r), gone + {r}, r) by {
      FelledPrunes(u, r);
      PrunedTrans(s, u, Felled(u, r), gone, {r}, r, r);
    }
    forall q ensures q in gone + {r} <==> q in s.page && Under(r, q) {
      GoneAll(s, gone, r, q);
    }
    FelledSettled(u, r);
  }

  lemma ClearSkips(u: State, r: Role, k: nat, next: nat)
    requires ClearUpTo(u, r, k) && next == k + 1 && Word(u.mem, u.page, r, k) == 0
    ensures ClearUpTo(u, r, next)
  {
  }

  // ---------- uvmfree ----------

  lemma PxOf(i: nat, j: nat, k: nat) returns (v: nat)
    requires i < 256 && j < 512 && k < 512
    ensures v < MAXVPN && I(v) == i && J(v) == j && K(v) == k
  {
    v := i * 262144 + j * 512 + k;
    assert v / 512 == i * 512 + j;
    assert v / 262144 == i;
  }

  lemma BareWhenClear(s: State, t: nat)
    requires Tree(s.mem, s.page) && AllClear(s, t, 0, MAXVPN)
    ensures Bare(s, Root(t))
  {
    forall q, k: nat | q in s.page && Under(Root(t), q) && q.Low? && k < 512 ensures Word(s.mem, s.page, q, k) == 0 {
      assert Linked(s.mem, s.page, q);
      assert Linked(s.mem, s.page, Up(q));
      var v := PxOf(q.i, q.j, k);
      assert Lookup(s, t, v) == 0;
    }
  }

  predicate OfTable(r: Role, t: nat) { Tracked(r) && r.t == t }

  /** Everything table t had is free, and the rest of the world is as before. */
  ghost predicate TableFreed(s: State, s': State, t: nat) {
    && s'.role.Keys == s.role.Keys && s'.mem.Keys == s.mem.Keys
    && (forall q :: q in s'.page <==> q in s.page && !OfTable(q, t))
    && (forall q :: q in s'.page ==> s'.page[q] == s.page[q])
    && (forall p :: p in s.role ==> s'.role[p] == if OfTable(s.role[p], t) then Free else s.role[p])
    && (forall p :: p in s.role && p in s.mem && (s.role[p].User? || s.role[p].Held?) && !OfTable(s.role[p], t) ==>
      s'.mem[p] == s.mem[p])
    && (forall t': nat, v: nat :: t' != t && v < MAXVPN ==> Lookup(s', t', v) == Lookup(s, t', v))
  }

  lemma UsersBelow(s: State, t: nat, n: nat, r: Role)
    requires Tree(s.mem, s.page) && AllClear(s, t, n, MAXVPN) && r in s.page && r.User? && r.t == t
    ensures UserIn(r, t, 0, n)
  {
    assert Linked(s.mem, s.page, r);
    UserPresent(s.mem, s.page, t, r.v);
    assert Lookup(s, t, r.v) != 0;
  }

  lemma FreedMaps(u: State, w: State, gone: set<Role>, t: nat, t': nat, v: nat)
    requires Paged(u.mem, u.role) && Inverse(u.page, u.role) && Pruned(u, w, gone, Root(t)) && t' != t
    requires forall q :: q in gone <==> q in u.page && Under(Root(t), q)
    ensures Lookup(w, t', v) == Lookup(u, t', v)
  {
    assert !Under(Root(t), LowOf(t', v));
  }

  /** The roles of table t are those unmapped and those pruned. */
  lemma TableRoles(s: State, t: nat, n: nat)
    requires Tree(s.mem, s.page) && AllClear(s, t, n, MAXVPN)
    ensures forall q :: q in s.page ==> (OfTable(q, t) <==> UserIn(q, t, 0, n) || Under(Root(t), q))
  {
    forall q | q in s.page ensures OfTable(q, t) <==> UserIn(q, t, 0, n) || Under(Root(t), q) {
      if q.User? && q.t == t {
        UsersBelow(s, t, n, q);
      }
    }
  }

  lemma FreedRoles(s: State, u: State, w: State, gone: set<Role>, t: nat, n: nat, p: nat)
    requires Inverse(s.page, s.role) && Shrunk(s, u, t, 0, n) && Pruned(u, w, gone, Root(t)) && p in s.role
    requires forall q :: q in gone <==> q in u.page && Under(Root(t), q)
    requires forall q :: q in s.page ==> (OfTable(q, t) <==> UserIn(q, t, 0, n) || Under(Root(t), q))
    ensures w.role[p] == if OfTable(s.role[p], t) then Free else s.role[p]
    ensures p in s.mem && (s.role[p].User? || s.role[p].Held?) && !OfTable(s.role[p], t) ==> w.mem[p] == s.mem[p]
  {
    assert Tracked(s.role[p]) ==> s.role[p] in s.page;
  }

  lemma FreedTable(s: State, u: State, w: State, gone: set<Role>, t: nat, n: nat)
    requires Sound(s) && Sound(u) && AllClear(s, t, n, MAXVPN) && Shrunk(s, u, t, 0, n) && Pruned(u, w, gone, Root(t))
    requires forall q :: q in gone <==> q in u.page && Under(Root(t), q)
    ensures TableFreed(s, w, t)
  {
    TableRoles(s, t, n);
    forall p | p in s.role
      ensures w.role[p] == if OfTable(s.role[p], t) then Free else s.role[p]
      ensures p in s.mem && (s.role[p].User? || s.role[p].Held?) && !OfTable(s.role[p], t) ==> w.mem[p] == s.mem[p]
    {
      FreedRoles(s, u, w, gone, t, n, p);
    }
    forall t': nat, v: nat | t' != t && v < MAXVPN ensures Lookup(w, t', v) == Lookup(s, t', v) {
      FreedMaps(u, w, gone, t, t', v);
      assert !Range(t, 0, n, t', v);
    }
  }

  lemma ClearNow(s: State, u: State, t: nat, n: nat)
    requires AllClear(s, t, n, MAXVPN) && Shrunk(s, u, t, 0, n) && n <= MAXVPN
    ensures AllClear(u, t, 0, MAXVPN)
  {
    forall v: nat | v < MAXVPN ensures Lookup(u, t, v) == 0 {
      assert v >= n ==> !Range(t, 0, n, t, v);
    }
  }

  // ---------- uvmcreate ----------

  function Created(s: State): State
    requires CanPop(s)
  {
    var p, u := s.head, Fetched(s, Filled(0));
    u.(page := u.page[Root(p) := p], role := u.role[p := Root(p)])
  }

  /** Every table hangs from its root. */
  lemma HasRoot(s: State, r: Role)
    requires Tree(s.mem, s.page) && (r.Mid? || r.Low?) && r in s.page
    ensures Root(r.t) in s.page
  {
    assert Linked(s.mem, s.page, r);
    assert Linked(s.mem, s.page, Up(r));
  }

  lemma CreatedTree(mem: Memory, page: map<Role, nat>, p: nat)
    requires Tree(mem, page) && Root(p) !in page && p in mem && mem[p] == Filled(0)
    ensures Tree(mem, page[Root(p) := p])
  {
    var page' := page[Root(p) := p];
    assert forall q: Role, k: nat :: q != Root(p) ==> Word(mem, page', q, k) == Word(mem, page, q, k);
    forall q | q in page' ensures Linked(mem, page', q) {
      assert q != Root(p) ==> Linked(mem, page, q);
    }
    forall q, k: nat | q in page' && !q.User? && k < 512 ensures SlotOk(Word(mem, page', q, k), page', q, k) {
      assert q != Root(p) ==> SlotOk(Word(mem, page, q, k), page, q, k);
    }
  }

  lemma CreatedClear(s: State, u: State, p: nat)
    requires Tree(u.mem, u.page) && Root(p) !in u.page && s.mem == u.mem && s.page == u.page[Root(p) := p]
    ensures AllClear(s, p, 0, MAXVPN)
  {
    forall v: nat | v < MAXVPN ensures Lookup(s, p, v) == 0 {
      if LowOf(p, v) in u.page {
        HasRoot(u, LowOf(p, v));
      }
    }
  }

  lemma CreatedSound(s: State)
    requires Sound(s) && |s.free| > 0
    ensures CanPop(s) && Sound(Created(s)) && SameMaps(s, Created(s)) && AllClear(Created(s), s.head, 0, MAXVPN)
    ensures s.head in s.role && s.role[s.head] == Free
  {
    var p := s.head;
    FetchedSound(s, Filled(0));
    var u := Fetched(s, Filled(0));
    assert Root(p) !in u.page by { assert Root(p) in u.page ==> Linked(u.mem, u.page, Root(p)); }
    assert SameMaps(s, Created(s)) by {
      forall t: nat, v: nat ensures Lookup(Created(s), t, v) == Lookup(s, t, v) {
        PoppedWord(s, LowOf(t, v), K(v));
      }
    }
    CreatedClear(Created(s), u, p);
    assert Paged(u.mem, u.role[p := Root(p)]) by { PagedRole(u.mem, u.role, p, Root(p)); }
    assert Inverse(u.page[Root(p) := p], u.role[p := Root(p)]) by { InverseAdd(u.page, u.role, p, Root(p)); }
    assert FreeOk(u.free, u.role[p := Root(p)]) by { FreeOther(u.free, u.role, p, Root(p)); }
    CreatedTree(u.mem, u.page, p);
  }
}
