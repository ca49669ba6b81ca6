/** kalloc.c and vm.c: physical pages and the page tables built from them. */
module Vm {
  import opened VmCount
  import opened VmTree
  import opened VmFree

  /** PX(level, va) of virtual page v. */
  function Px(level: nat, v: nat): nat { if level == 2 then I(v) else if level == 1 then J(v) else K(v) }

  /** Role of the table that walk looks at on a level. */
  function RoleAt(t: nat, v: nat, level: nat): Role {
    if level == 2 then Root(t) else if level == 1 then Mid(t, I(v)) else LowOf(t, v)
  }

  /** The pages below p are free, the others not handed to kfree yet. */
  ghost predicate Handed(role: map<nat, Role>, p: nat) {
    forall q :: q in role ==> role[q] == if q < p then Free else Held
  }

  lemma HandedNext(role: map<nat, Role>, p: nat)
    requires Handed(role, p) && p in role
    ensures Handed(role[p := Free], p + 1)
  {
  }

  lemma LevelBelow(t: nat, v: nat, level: nat, next: nat)
    requires v < MAXVPN && 1 <= level <= 2 && next == level - 1
    ensures var r := RoleAt(t, v, level);
      Inner(r) && r.t == t && Down(r, Px(level, v)) == RoleAt(t, v, next) && SlotFits(Down(r, Px(level, v)))
    ensures Passed(t, v, next) == Passed(t, v, level) + {RoleAt(t, v, next)}
  {
    PxSmall(v);
  }

  lemma PermLeaf(xperm: nat)
    requires xperm in {0, 4, 8, 12}
    ensures 18 + xperm < 1024 && Leaf(18 + xperm)
  {
  }

  lemma CreatedGained(s: State)
    requires CanPop(s)
    ensures Gained(s, Created(s), {Root(s.head)})
  {
    assert Created(s).page == s.page[Root(s.head) := s.head];
  }

  /** With a table missing on the way, there is none at level 0. */
  lemma AboveMissing(s: State, t: nat, v: nat, level: nat)
    requires Sound(s) && 1 <= level <= 2 && Inner(RoleAt(t, v, level))
    requires Down(RoleAt(t, v, level), Px(level, v)) !in s.page
    ensures LowOf(t, v) !in s.page
  {
    assert LowOf(t, v) in s.page ==> Linked(s.mem, s.page, LowOf(t, v));
  }

  function PageOf(a: nat): nat { a / 4096 }

  /** One past the last page of a range. */
  function PageEnd(va: nat, size: nat): (end: nat)
    requires size > 0
    ensures PageOf(va) < end && (va + size <= MAXVPN * 4096 ==> end <= MAXVPN)
  {
    (va + size - 1) / 4096 + 1
  }

  /** PGROUNDUP, as a page number. */
  function PageUp(sz: nat): nat { (sz + 4095) / 4096 }

  class Kernel {
    var mem: Memory
    var head: nat                       // kmem.freelist as a page number, 0 for none
    ghost var free: seq<nat>
    ghost var page: map<Role, nat>
    ghost var role: map<nat, Role>

    ghost function Snap(): State
      reads this
    {
      State(mem, head, free, page, role)
    }

    /** kinit: every page of [lo, hi) goes through kfree. */
    constructor (lo: nat, hi: nat)
      requires 0 < lo <= hi
      ensures Sound(Snap()) && page == map[] && role.Keys == HeldPages(lo, hi).Keys
      ensures forall p :: p in role ==> role[p] == Free
    {
      mem, head := FreshPages(lo, hi), 0;
      free, page, role := [], map[], HeldPages(lo, hi);
      new;
      Freerange(lo, hi);
    }

    method Freerange(lo: nat, hi: nat)
      requires Sound(Snap()) && lo <= hi && Handed(role, lo) && role.Keys == HeldPages(lo, hi).Keys
      modifies this
      ensures Sound(Snap()) && page == old(page) && role.Keys == HeldPages(lo, hi).Keys && Handed(role, hi)
    {
      var p := lo;
      while p < hi
        invariant lo <= p <= hi && Sound(Snap()) && page == old(page)
        invariant role.Keys == HeldPages(lo, hi).Keys && Handed(role, p)
      {
        PushedSound(Snap(), p);
        HandedNext(role, p);
        Kfree(p);
        p := p + 1;
      }
    }

    method SetWord(p: nat, k: nat, w: nat)
      requires p in mem && k < |mem[p]|
      modifies this`mem
      ensures mem == old(mem)[p := Put(old(mem)[p], k, w)]
    {
      mem := mem[p := Put(mem[p], k, w)];
    }

    /** kfree of a page its caller holds. */
    method Kfree(p: nat)
      requires p in role && role[p] == Held
      modifies this
      ensures Snap() == Pushed(old(Snap()), p)
    {
      mem := mem[p := Filled(JUNK1)];
      SetWord(p, 0, head * 4096);
      head := p;
      free, role := [p] + free, role[p := Free];
    }

    /** kalloc: a page nobody uses, or 0 when there is none. */
    method Kalloc() returns (p: nat)
      requires Sound(Snap())
      modifies this
      ensures p == 0 <==> |old(free)| == 0
      ensures p == 0 ==> Snap() == old(Snap())
      ensures p != 0 ==> CanPop(old(Snap())) && Snap() == Popped(old(Snap())) && p == old(head)
    {
      p := head;
      if p != 0 {
        head := mem[p][0] / 4096;
        mem := mem[p := Filled(JUNK5)];
        free, role := free[1..], role[p := Held];
      }
    }

    /** A missing table on the way down: slot k of table p, whose role is r, gets a zeroed page. */
    method NewTable(p: nat, k: nat, ghost r: Role) returns (q: nat)
      requires Sound(Snap()) && Inner(r) && r in page && p == page[r] && SlotFits(Down(r, k)) && Down(r, k) !in page
      modifies this
      ensures q == 0 <==> |old(free)| == 0
      ensures q == 0 ==> Snap() == old(Snap())
      ensures q != 0 ==> CanPop(old(Snap())) && CanAdd(Popped(old(Snap())), Down(r, k)) && q == old(head)
      ensures q != 0 ==> Snap() == Sprouted(old(Snap()), Down(r, k))
    {
      q := Kalloc();
      if q != 0 {
        CanSprout(old(Snap()), Down(r, k));
        Attach(p, k, q, r);
      }
    }

    method Attach(p: nat, k: nat, q: nat, ghost r: Role)
      requires Inner(r) && r in page && p == page[r] && p in mem && k < |mem[p]| && p != q && (r.Root? ==> k < 256)
      modifies this
      ensures Snap() == Added(old(Snap()), Down(r, k), q)
    {
      mem := mem[q := Filled(0)];
      SetWord(p, k, TablePte(q));
      page, role := page[Down(r, k) := q], role[q := Down(r, k)];
    }

    /** One level of walk: from slot k of table p, whose role is r, to the table below, or 0. */
    method Descend(p: nat, k: nat, alloc: bool, ghost r: Role, ghost x: nat) returns (q: nat)
      requires Sound(Snap()) && Inner(r) && r in page && p == page[r] && SlotFits(Down(r, k))
      modifies this
      ensures Sound(Snap()) && Extended(old(Snap()), Snap(), r.t, x, x)
      ensures q != 0 <==> Down(r, k) in page
      ensures q != 0 ==> q == page[Down(r, k)]
      ensures q == 0 || !alloc ==> Snap() == old(Snap())
      ensures q == 0 && alloc ==> |free| == 0
      ensures q != 0 ==> Gained(old(Snap()), Snap(), {Down(r, k)})
    {
      ghost var s := Snap();
      SlotBelow(s, r, k);
      if Present(mem[p][k]) {
        q := Ppn(mem[p][k]);
        SlotNotNull(s, Down(r, k));
        GainedHave(s, {Down(r, k)});
      } else if alloc {
        q := NewTable(p, k, r);
        if q != 0 {
          SproutedOk(s, Down(r, k), x);
          GainedSprouted(s, Down(r, k));
        }
      } else {
        q := 0;
      }
    }

    /** One round of walk's loop, s being the state the walk began in. */
    method Level(p: nat, t: nat, v: nat, level: nat, alloc: bool, ghost next: nat, ghost s: State) returns (q: nat)
      requires Sound(Snap()) && v < MAXVPN && 1 <= level <= 2 && next == level - 1 && (!alloc ==> Snap() == s)
      requires RoleAt(t, v, level) in page && p == page[RoleAt(t, v, level)]
      requires Extended(s, Snap(), t, v, v) && Gained(s, Snap(), Passed(t, v, level))
      modifies this
      ensures Sound(Snap()) && Extended(s, Snap(), t, v, v) && (!alloc ==> Snap() == s)
      ensures q != 0 ==> RoleAt(t, v, next) in page && q == page[RoleAt(t, v, next)]
      ensures q != 0 ==> Gained(s, Snap(), Passed(t, v, next))
      ensures q == 0 ==> Snap() == old(Snap()) && LowOf(t, v) !in page && (alloc ==> |free| == 0)
    {
      ghost var r, d := RoleAt(t, v, level), RoleAt(t, v, next);
      LevelBelow(t, v, level, next);
      q := Descend(p, Px(level, v), alloc, r, v);
      ExtendedTrans(s, old(Snap()), Snap(), t, v, v, v);
      if q == 0 {
        AboveMissing(Snap(), t, v, level);
      } else {
        GainedTrans(s, old(Snap()), Snap(), Passed(t, v, level), {d}, Passed(t, v, next));
      }
    }

    /** walk, for a page below MAXVA: the level-0 table of page v, or 0. Tables may be added on the way, even by a call
        that then fails, but no page is mapped otherwise than before and none is lost. */
    method Walk(t: nat, v: nat, alloc: bool) returns (p: nat)
      requires Sound(Snap()) && Root(t) in page && v < MAXVPN
      modifies this
      ensures Sound(Snap()) && Extended(old(Snap()), Snap(), t, v, v)
      ensures !alloc ==> Snap() == old(Snap())
      ensures p != 0 <==> LowOf(t, v) in page
      ensures p != 0 ==> p == page[LowOf(t, v)]
      ensures alloc ==> Walked(old(Snap()), Snap(), t, v, p != 0)
      ensures alloc ==> (p != 0 <==> Affords(old(Snap()), Tables(t, v)))
    {
      ghost var s := Snap();
      p := Search(t, v, alloc);
      if alloc {
        WalkExact(s, Snap(), t, v, p != 0);
      }
    }

    method Search(t: nat, v: nat, alloc: bool) returns (p: nat)
      requires Sound(Snap()) && Root(t) in page && v < MAXVPN
      modifies this
      ensures Sound(Snap()) && Extended(old(Snap()), Snap(), t, v, v)
      ensures !alloc ==> Snap() == old(Snap())
      ensures p != 0 <==> LowOf(t, v) in page
      ensures p != 0 ==> p == page[LowOf(t, v)]
      ensures alloc ==> Walked(old(Snap()), Snap(), t, v, p != 0)
    {
      ghost var s := Snap();
      p := t;
      var level := 2;
      assert Linked(mem, page, Root(t));
      ExtendedNone(s, t, v);
      GainedHave(s, {});
      while level > 0
        invariant 0 <= level <= 2 && Sound(Snap()) && Extended(s, Snap(), t, v, v) && (!alloc ==> Snap() == s)
        invariant RoleAt(t, v, level) in page && p == page[RoleAt(t, v, level)]
        invariant Gained(s, Snap(), Passed(t, v, level))
      {
        var next := level - 1;
        p := Level(p, t, v, level, alloc, next, s);
        if p == 0 {
          return;
        }
        level := next;
      }
      SlotNotNull(Snap(), LowOf(t, v));
    }

    /** One round of mappages' loop: walk, then the entry. */
    method MapOne(t: nat, ghost first: nat, a: nat, p: nat, perm: nat, ghost s: State, ghost ppn: nat, ghost next: nat,
        ghost end: nat) returns (ok: bool)
      requires Sound(s) && Sound(Snap()) && Root(t) in page && first <= a < end <= MAXVPN && next == a + 1
      requires perm < 1024 && Leaf(perm) && p == ppn + (a - first) && AllClear(s, t, first, end)
      requires Mapped(s, Snap(), t, first, a, ppn, perm) && Gained(s, Snap(), AllTables(t, first, a))
      modifies this
      ensures Sound(Snap()) && Root(t) in page
      ensures ok ==> Mapped(s, Snap(), t, first, next, ppn, perm) && Gained(s, Snap(), AllTables(t, first, next))
      ensures !ok ==> Mapped(s, Snap(), t, first, a, ppn, perm)
      ensures !ok ==> NoLeak(s, Snap()) && |free| == 0 && !Affords(s, AllTables(t, first, end))
    {
      ghost var u := Snap();
      var low := Walk(t, a, true);
      MappedWalk(s, u, Snap(), t, first, a, ppn, perm);
      ok := low != 0;
      if ok {
        ghost var w, all := Snap(), AllTables(t, first, next);
        TablesNext(t, first, a, next);
        GainedTrans(s, u, w, AllTables(t, first, a), Tables(t, a), all);
        MapLeaf(low, t, first, a, p, perm, s, ppn, next);
        SameGained(s, w, Snap(), all);
      } else {
        NoLeakTrans(s, u, Snap());
        TablesShort(s, u, t, first, a, end);
      }
    }

    /** mappages' loop, over page numbers: 0 when all of [first, last] is mapped, -1 when walk ran out of pages. */
    method MapRange(t: nat, first: nat, last: nat, ppn: nat, perm: nat, ghost end: nat) returns (r: int, ghost to: nat)
      requires Sound(Snap()) && Root(t) in page && first <= last < MAXVPN
      requires end == last + 1 && perm < 1024 && Leaf(perm)
      requires AllClear(Snap(), t, first, end)
      modifies this
      ensures Sound(Snap()) && Mapped(old(Snap()), Snap(), t, first, to, ppn, perm)
      ensures r == 0 ==> to == end && Gained(old(Snap()), Snap(), AllTables(t, first, end))
      ensures r != 0 ==> r == -1 && first <= to <= last && |free| == 0 && NoLeak(old(Snap()), Snap())
      ensures r == 0 <==> Affords(old(Snap()), AllTables(t, first, end))
    {
      var a, p := first, ppn;
      ghost var s := Snap();
      to := a;
      GainedHave(s, {});
      while true
        invariant first <= a <= last && a == to && p == ppn + (a - first) && Sound(Snap()) && Root(t) in page
        invariant Mapped(s, Snap(), t, first, to, ppn, perm) && Gained(s, Snap(), AllTables(t, first, a))
        decreases last - a
      {
        var next := a + 1;
        var ok := MapOne(t, first, a, p, perm, s, ppn, next, end);
        if !ok {
          return -1, to;
        }
        to := next;
        if a == last {
          break;
        }
        a, p := next, p + 1;
      }
      assert to == end;
      GainedEnough(s, Snap(), AllTables(t, first, to));
      r := 0;
    }

    /** mappages of any non-empty range below MAXVA whose pages are unmapped. */
    method Mappages(t: nat, va: nat, size: nat, pa: nat, perm: nat) returns (r: int, ghost to: nat)
      requires Sound(Snap()) && Root(t) in page && size > 0 && va + size <= MAXVPN * 4096 && perm < 1024 && Leaf(perm)
      requires AllClear(Snap(), t, PageOf(va), PageEnd(va, size))
      modifies this
      ensures Sound(Snap()) && Mapped(old(Snap()), Snap(), t, PageOf(va), to, PageOf(pa), perm)
      ensures r == 0 ==> to == PageEnd(va, size)
      ensures r != 0 ==> r == -1 && PageOf(va) <= to < PageEnd(va, size)
      ensures r == 0 <==> Affords(old(Snap()), AllTables(t, PageOf(va), PageEnd(va, size)))
      ensures NoLeak(old(Snap()), Snap())
    {
      var first, last := va / 4096, (va + size - 1) / 4096;
      ghost var end := PageEnd(va, size);
      r, to := MapRange(t, first, last, pa / 4096, perm, end);
    }

    method MapLeaf(low: nat, t: nat, ghost first: nat, a: nat, p: nat, perm: nat, ghost s: State, ghost ppn: nat,
                   ghost to: nat)
      requires Sound(Snap()) && perm < 1024 && Leaf(perm) && first <= a < MAXVPN && p == ppn + (a - first)
      requires LowOf(t, a) in page && low == page[LowOf(t, a)] && Mapped(s, Snap(), t, first, a, ppn, perm)
      requires Lookup(s, t, a) == 0 && to == a + 1
      modifies this
      ensures Sound(Snap()) && Mapped(s, Snap(), t, first, to, ppn, perm)
      ensures page == old(page) && role == old(role) && free == old(free)
    {
      MapStep(s, Snap(), t, first, a, to, ppn, p, perm);
      SetWord(low, K(a), MakePte(p, perm));
      assert Snap() == WithLeaf(old(Snap()), t, a, MakePte(p, perm));
    }

    /** kfree of user page v, then its entry is cleared. */
    method ReleaseAndClear(low: nat, t: nat, v: nat, p: nat)
      requires User(t, v) in page && p == page[User(t, v)] && p in role
      requires LowOf(t, v) in page && low == page[LowOf(t, v)] && low in mem && low != p && |mem[low]| == 512
      modifies this
      ensures Snap() == WithLeaf(Released(old(Snap()), t, v), t, v, 0)
    {
      page, role := page - {User(t, v)}, role[p := Held];
      Kfree(p);
      SetWord(low, K(v), 0);
    }

    method FreeLeaf(low: nat, t: nat, v: nat, p: nat, ghost to: nat)
      requires Sound(Snap()) && User(t, v) in page && LowOf(t, v) in page && low == page[LowOf(t, v)] && to == v + 1
      requires p == Ppn(Lookup(Snap(), t, v))
      modifies this
      ensures Sound(Snap()) && Shrunk(old(Snap()), Snap(), t, v, to)
    {
      ghost var s := Snap();
      DisownedSound(s, t, v);
      FreedPage(s, t, v, to);
      ReleaseAndClear(low, t, v, p);
      assert Snap() == WithLeaf(Released(s, t, v), t, v, 0);
    }

    method ClearLeaf(low: nat, t: nat, v: nat, ghost to: nat)
      requires Sound(Snap()) && User(t, v) !in page && LowOf(t, v) in page && low == page[LowOf(t, v)]
      requires v < MAXVPN && to == v + 1
      modifies this
      ensures Sound(Snap()) && Shrunk(old(Snap()), Snap(), t, v, to)
    {
      ghost var s := Snap();
      ClearedPage(s, t, v, to);
      SetWord(low, K(v), 0);
      assert Snap() == WithLeaf(s, t, v, 0);
    }

    /** One page of uvmunmap. */
    method UnmapPage(t: nat, v: nat, doFree: bool, ghost to: nat)
      requires Sound(Snap()) && Root(t) in page && v < MAXVPN && Unmappable(Snap(), t, v, doFree) && to == v + 1
      modifies this
      ensures Sound(Snap()) && Shrunk(old(Snap()), Snap(), t, v, to)
    {
      LeafPresent(Snap(), t, v);
      var low := Walk(t, v, false);
      var w := mem[low][K(v)];
      LeafNotTable(w);   // "uvmunmap: not a leaf" is out of reach
      if doFree {
        FreeLeaf(low, t, v, Ppn(w), to);
      } else {
        ClearLeaf(low, t, v, to);
      }
    }

    /** uvmunmap of the pages [first, end): exactly their mappings go, and the pages themselves if asked for. */
    method Uvmunmap(t: nat, first: nat, end: nat, doFree: bool)
      requires Sound(Snap()) && Root(t) in page && first <= end <= MAXVPN
      requires AllUnmappable(Snap(), t, first, end, doFree)
      modifies this
      ensures Sound(Snap()) && Shrunk(old(Snap()), Snap(), t, first, end)
    {
      ghost var s, u := Snap(), Snap();
      var a := first;
      ShrunkNone(s, t, first);
      while a < end
        invariant first <= a <= end && u == Snap() && Sound(u) && Shrunk(s, u, t, first, a)
      {
        var next := a + 1;
        StillUnmappable(s, u, t, first, a, end, doFree);
        UnmapPage(t, a, doFree, next);
        ShrunkTrans(s, u, Snap(), t, first, a, next);
        u := Snap();
        a := next;
      }
    }

    /** uvmdealloc: the pages from newsz up to oldsz, rounded up, go. */
    method Uvmdealloc(t: nat, oldsz: nat, newsz: nat) returns (r: nat)
      requires Sound(Snap()) && Root(t) in page && PageUp(oldsz) <= MAXVPN
      requires AllUnmappable(Snap(), t, PageUp(newsz), PageUp(oldsz), true)
      modifies this
      ensures Sound(Snap()) && r == (if newsz < oldsz then newsz else oldsz)
      ensures if PageUp(newsz) < PageUp(oldsz) then Shrunk(old(Snap()), Snap(), t, PageUp(newsz), PageUp(oldsz))
              else Snap() == old(Snap())
    {
      if newsz >= oldsz {
        return oldsz;
      }
      if PageUp(newsz) < PageUp(oldsz) {
        Uvmunmap(t, PageUp(newsz), PageUp(oldsz), true);
      }
      r := newsz;
    }

    /** kalloc, and filling the page. */
    method Fetch(words: seq<nat>, ghost t: nat, ghost x: nat) returns (p: nat)
      requires Sound(Snap()) && |words| == 512
      modifies this
      ensures Sound(Snap()) && Extended(old(Snap()), Snap(), t, x, x)
      ensures p != 0 ==> p in old(role) && old(role)[p] == Free && p in role && role[p] == Held
      ensures p != 0 ==> p in mem && mem[p] == words
      ensures p == 0 <==> |old(free)| == 0
      ensures p == 0 ==> Snap() == old(Snap())
      ensures p != 0 ==> page == old(page) && |free| == |old(free)| - 1 && HeldBefore(old(Snap()), Snap(), {p})
    {
      ghost var s := Snap();
      p := Kalloc();
      if p == 0 {
        ExtendedNone(s, t, x);
      } else {
        FetchedSound(s, words);
        FetchedExtends(s, words, t, x);
        mem := mem[p := words];
      }
    }

    ghost method Own(t: nat, v: nat, p: nat)
      modifies this`page, this`role
      ensures Snap() == Owned(old(Snap()), t, v, p)
    {
      page, role := page[User(t, v) := p], role[p := User(t, v)];
    }

    /** mappages of a fetched page at page v; the page is given back if that fails. */
    method MapFetched(t: nat, v: nat, p: nat, perm: nat, ghost to: nat, ghost s: State) returns (ok: bool)
      requires Sound(Snap()) && Root(t) in page && v < MAXVPN && to == v + 1 && Lookup(Snap(), t, v) == 0
      requires perm < 1024 && Leaf(perm) && Extended(s, Snap(), t, v, v)
      requires p in s.role && s.role[p] == Free && p in role && role[p] == Held && p in mem
      requires page == s.page && |free| == |s.free| - 1 && HeldBefore(s, Snap(), {p})
      modifies this
      ensures Sound(Snap()) && Extended(s, Snap(), t, v, if ok then to else v)
      ensures ok ==> NewAt(s, Snap(), t, v, perm, old(mem)[p])
      ensures ok ==> Gained(s, Snap(), Needs(t, v))
      ensures NoLeak(s, Snap()) && (ok <==> Affords(s, Needs(t, v)))
    {
      ghost var u := Snap();
      NotUser(u, t, v);
      ClearOne(u, t, v, to);
      OneTable(t, v, to);
      NeedsOneMore(s, u, t, v);
      var r, done := MapRange(t, v, v, p, perm, to);
      ghost var w := Snap();
      ok := r == 0;
      if ok {
        NewPageMapped(s, u, w, t, v, to, p, perm);
        OwnedGained(s, u, w, t, v, p);
        Own(t, v, p);
      } else {
        NewPageFailed(s, u, w, t, v, p, perm);
        PushedNoLeak(s, u, w, p);
        Kfree(p);
      }
    }

    /** A fresh page with the given contents, mapped at page v, or nothing. */
    method NewPage(t: nat, v: nat, perm: nat, words: seq<nat>, ghost to: nat) returns (ok: bool)
      requires Sound(Snap()) && Root(t) in page && v < MAXVPN && to == v + 1 && Lookup(Snap(), t, v) == 0
      requires perm < 1024 && Leaf(perm) && |words| == 512
      modifies this
      ensures Sound(Snap()) && Extended(old(Snap()), Snap(), t, v, if ok then to else v)
      ensures ok ==> NewAt(old(Snap()), Snap(), t, v, perm, words)
      ensures ok ==> Gained(old(Snap()), Snap(), Needs(t, v))
      ensures NoLeak(old(Snap()), Snap()) && (ok <==> Affords(old(Snap()), Needs(t, v)))
    {
      NotUser(Snap(), t, v);
      var p := Fetch(words, t, v);
      if p == 0 {
        NeedsSome(Snap(), t, v);
        return false;
      }
      assert !Range(t, v, v, t, v);
      ok := MapFetched(t, v, p, perm, to, old(Snap()));
    }

    /** One round of uvmalloc's loop, s being the state it began in. */
    method GrowOne(t: nat, ghost first: nat, a: nat, perm: nat, ghost next: nat, ghost end: nat, ghost s: State)
      returns (ok: bool)
      requires Sound(s) && Sound(Snap()) && Root(t) in page && first <= a < end <= MAXVPN && next == a + 1
      requires perm < 1024 && Leaf(perm) && AllClear(s, t, first, end) && Extended(s, Snap(), t, first, a)
      requires AllZero(s, Snap(), t, first, a, perm) && Gained(s, Snap(), AllNeeds(t, first, a))
      modifies this
      ensures Sound(Snap()) && Root(t) in page && NoLeak(s, Snap())
      ensures ok ==> Extended(s, Snap(), t, first, next) && AllZero(s, Snap(), t, first, next, perm)
      ensures ok ==> Gained(s, Snap(), AllNeeds(t, first, next))
      ensures !ok ==> Extended(s, Snap(), t, first, a) && !Affords(s, AllNeeds(t, first, end))
    {
      ghost var u := Snap();
      assert !Range(t, first, a, t, a);
      ok := NewPage(t, a, perm, Filled(0), next);
      NoLeakTrans(s, u, Snap());
      if ok {
        ExtendedTrans(s, u, Snap(), t, first, a, next);
        AllZeroNext(s, u, Snap(), t, first, a, next, perm);
        NeedsNext(t, first, a, next);
        GainedTrans(s, u, Snap(), AllNeeds(t, first, a), Needs(t, a), AllNeeds(t, first, next));
      } else {
        ExtendedTrans(s, u, Snap(), t, first, a, a);
        NeedsShort(s, u, t, first, a, end);
      }
    }

    /** uvmalloc's loop: how far it comes. */
    method GrowLoop(t: nat, first: nat, end: nat, perm: nat, ghost s: State) returns (a: nat)
      requires s == Snap() && Sound(s) && Root(t) in page && first <= end <= MAXVPN && AllClear(s, t, first, end)
      requires perm < 1024 && Leaf(perm)
      modifies this
      ensures Sound(Snap()) && Root(t) in page && first <= a <= end && NoLeak(s, Snap())
      ensures Extended(s, Snap(), t, first, a)
      ensures a == end ==> AllZero(s, Snap(), t, first, end, perm) && Affords(s, AllNeeds(t, first, end))
      ensures a < end ==> !Affords(s, AllNeeds(t, first, end))
    {
      a := first;
      ghost var u := s;
      ExtendedNone(s, t, first);
      GainedHave(s, {});
      while a < end
        invariant first <= a <= end && u == Snap() && Sound(u) && Root(t) in u.page && Extended(s, u, t, first, a)
        invariant AllZero(s, u, t, first, a, perm) && Gained(s, u, AllNeeds(t, first, a))
      {
        var next := a + 1;
        var ok := GrowOne(t, first, a, perm, next, end, s);
        if !ok {
          return;
        }
        u := Snap();
        a := next;
      }
      GainedEnough(s, u, AllNeeds(t, first, a));
    }

    /** uvmalloc over pages: all of [first, end) with fresh zeroed memory, or no new mapping at all. */
    method GrowRange(t: nat, first: nat, end: nat, perm: nat) returns (ok: bool)
      requires Sound(Snap()) && Root(t) in page && first <= end <= MAXVPN && AllClear(Snap(), t, first, end)
      requires perm < 1024 && Leaf(perm)
      modifies this
      ensures Sound(Snap())
      ensures ok ==> Extended(old(Snap()), Snap(), t, first, end) && AllZero(old(Snap()), Snap(), t, first, end, perm)
      ensures !ok ==> Extended(old(Snap()), Snap(), t, first, first)
      ensures NoLeak(old(Snap()), Snap()) && (ok <==> Affords(old(Snap()), AllNeeds(t, first, end)))
    {
      ghost var s := Snap();
      var a := GrowLoop(t, first, end, perm, s);
      ok := a == end;
      if !ok {
        TakeBack(t, first, a, s, end);
      }
    }

    /** The failure path of uvmalloc and uvmcopy: uvmunmap of what has been added so far. */
    method TakeBack(t: nat, first: nat, a: nat, ghost s: State, ghost end: nat)
      requires Sound(Snap()) && Sound(s) && Root(t) in page && first <= a <= end <= MAXVPN
      requires Extended(s, Snap(), t, first, a) && AllClear(s, t, first, end) && NoLeak(s, Snap())
      modifies this
      ensures Sound(Snap()) && Extended(s, Snap(), t, first, first) && NoLeak(s, Snap())
    {
      ghost var u := Snap();
      ExtendedUnmappable(s, u, t, first, a);
      ClearNotUser(s, t, first, end);
      Uvmunmap(t, first, a, true);
      ExtendedShrunk(s, u, Snap(), t, first, a);
      ShrunkNoLeak(u, Snap(), t, first, a);
      NoLeakTrans(s, u, Snap());
    }

    /** uvmalloc; xperm adds to R and U. */
    method Uvmalloc(t: nat, oldsz: nat, newsz: nat, xperm: nat) returns (r: nat, ghost ok: bool)
      requires Sound(Snap()) && Root(t) in page && PageUp(newsz) <= MAXVPN && xperm in {0, 4, 8, 12}
      requires newsz >= oldsz ==> AllClear(Snap(), t, PageUp(oldsz), PageUp(newsz))
      modifies this
      ensures Sound(Snap()) && r == (if newsz < oldsz then oldsz else if ok then newsz else 0)
      ensures newsz < oldsz ==> Snap() == old(Snap())
      ensures newsz >= oldsz && ok ==> Extended(old(Snap()), Snap(), t, PageUp(oldsz), PageUp(newsz))
      ensures newsz >= oldsz && ok ==> AllZero(old(Snap()), Snap(), t, PageUp(oldsz), PageUp(newsz), 18 + xperm)
      ensures !ok ==> Extended(old(Snap()), Snap(), t, PageUp(oldsz), PageUp(oldsz))
      ensures NoLeak(old(Snap()), Snap())
      ensures newsz >= oldsz ==>
        (ok <==> Affords(old(Snap()), AllNeeds(t, PageUp(oldsz), PageUp(newsz))))
    {
      if newsz < oldsz {
        return oldsz, true;
      }
      var first, end, perm := PageUp(oldsz), PageUp(newsz), 18 + xperm;
      PermLeaf(xperm);
      assert first <= end;
      var done := GrowRange(t, first, end, perm);
      ok := done;
      r := if done then newsz else 0;
    }

    /** uvmcopy: 0 with every page of the parent below sz copied to a fresh page of the child, or -1 and no new mapping;
        -1 exactly when there are fewer free pages than the pages and missing tables of the child take. */
    method Uvmcopy(parent: nat, child: nat, sz: nat) returns (r: int)
      requires Sound(Snap()) && Root(parent) in page && Root(child) in page && parent != child && PageUp(sz) <= MAXVPN
      requires forall v: nat :: v < PageUp(sz) ==> User(parent, v) in page
      requires AllClear(Snap(), child, 0, PageUp(sz))
      modifies this
      ensures Sound(Snap()) && (r == 0 || r == -1)
      ensures r == 0 ==> Extended(old(Snap()), Snap(), child, 0, PageUp(sz))
      ensures r == 0 ==> AllCopied(old(Snap()), Snap(), parent, child, PageUp(sz))
      ensures r == -1 ==> Extended(old(Snap()), Snap(), child, 0, 0)
      ensures NoLeak(old(Snap()), Snap())
      ensures r == 0 <==> Affords(old(Snap()), AllNeeds(child, 0, PageUp(sz)))
    {
      ghost var s, u := Snap(), Snap();
      var v, end := 0, PageUp(sz);
      ExtendedNone(s, child, 0);
      GainedHave(s, {});
      while v < end
        invariant 0 <= v <= end && u == Snap() && Sound(u) && Gained(s, u, AllNeeds(child, 0, v))
        invariant Extended(s, u, child, 0, v) && AllCopied(s, u, parent, child, v)
      {
        var next := v + 1;
        ParentKept(s, u, parent, child, 0, v, v);
        assert !Range(child, 0, v, child, v);
        var ok := CopyPage(parent, child, v, next);
        if !ok {
          ExtendedTrans(s, u, Snap(), child, 0, v, v);
          NoLeakTrans(s, u, Snap());
          NeedsShort(s, u, child, 0, v, end);
          TakeBack(child, 0, v, s, end);
          return -1;
        }
        ExtendedTrans(s, u, Snap(), child, 0, v, next);
        NeedsNext(child, 0, v, next);
        GainedTrans(s, u, Snap(), AllNeeds(child, 0, v), Needs(child, v), AllNeeds(child, 0, next));
        CopyNext(s, u, Snap(), parent, child, v, next);
        u := Snap();
        v := next;
      }
      GainedEnough(s, u, AllNeeds(child, 0, v));
      r := 0;
    }

    /** walk without allocation, and the entry it finds. */
    method ReadPte(t: nat, v: nat) returns (w: nat)
      requires Sound(Snap()) && Root(t) in page && v < MAXVPN && Lookup(Snap(), t, v) != 0
      modifies this
      ensures Snap() == old(Snap()) && w == Lookup(Snap(), t, v) && Flags(w) < 1024 && Leaf(Flags(w))
    {
      LeafPresent(Snap(), t, v);
      var low := Walk(t, v, false);
      w := mem[low][K(v)];
      FlagsOfLeaf(w);
    }

    method CopyPage(parent: nat, child: nat, v: nat, ghost to: nat) returns (ok: bool)
      requires Sound(Snap()) && Root(parent) in page && Root(child) in page && v < MAXVPN && to == v + 1
      requires Lookup(Snap(), parent, v) != 0 && |PageAt(Snap(), parent, v)| == 512
      requires Lookup(Snap(), child, v) == 0
      modifies this
      ensures Sound(Snap()) && Extended(old(Snap()), Snap(), child, v, if ok then to else v)
      ensures ok ==> CopyAt(old(Snap()), Snap(), parent, child, v)
      ensures ok ==> Gained(old(Snap()), Snap(), Needs(child, v))
      ensures NoLeak(old(Snap()), Snap()) && (ok <==> Affords(old(Snap()), Needs(child, v)))
    {
      var w := ReadPte(parent, v);
      ok := NewPage(child, v, Flags(w), mem[Ppn(w)], to);
    }

    // ---------- Freeing a whole table ----------

    /** freewalk of a tree without leaves: each of its tables goes to the free list. */
    method Freewalk(p: nat, ghost r: Role) returns (ghost gone: set<Role>)
      requires Sound(Snap()) && r in page && !r.User? && p == page[r] && Bare(Snap(), r)
      modifies this
      ensures Pruned(old(Snap()), Snap(), gone, r) && Settled(Snap(), r)
      ensures forall q :: q in gone <==> q in old(page) && Under(r, q)
      decreases Height(r)
    {
      ghost var s, u := Snap(), Snap();
      var i := 0;
      gone := {};
      PrunedNone(s, r);
      while i < 512
        invariant 0 <= i <= 512 && u == Snap() && Sound(u) && Pruned(s, u, gone, r) && r in u.page && u.page[r] == p
        invariant ClearUpTo(u, r, i) && Gone(s, gone, r, i) && Bare(u, r)
      {
        var next := i + 1;
        BareSlot(u, r, i);
        if Present(mem[p][i]) {
          ghost var more := FreeChild(p, i, r, next);
          GoneNext(s, u, gone, more, r, i, next);
          PrunedTrans(s, u, Snap(), gone, more, r, r);
          u, gone := Snap(), gone + more;
        } else {
          GoneSkips(s, gone, r, i, next);
          ClearSkips(u, r, i, next);
        }
        i := next;
      }
      FelledAll(s, u, gone, r);
      gone := gone + {r};
      Fell(p, r);
    }

    method Fell(p: nat, ghost r: Role)
      requires r in page && p == page[r] && p in role
      modifies this
      ensures Snap() == Felled(old(Snap()), r)
    {
      page, role := page - {r}, role[p := Held];
      Kfree(p);
    }

    /** One slot of freewalk: the table below, then the slot itself. */
    method FreeChild(p: nat, i: nat, ghost r: Role, ghost next: nat) returns (ghost more: set<Role>)
      requires Sound(Snap()) && Inner(r) && r in page && p == page[r] && Bare(Snap(), r) && i < 512 && next == i + 1
      requires p in mem && |mem[p]| == 512 && Down(r, i) in page
      requires Ppn(mem[p][i]) == page[Down(r, i)] && ClearUpTo(Snap(), r, i)
      modifies this
      ensures Sound(Snap()) && Pruned(old(Snap()), Snap(), more, r) && r in page && page[r] == p
      ensures ClearUpTo(Snap(), r, next) && Bare(Snap(), r)
      ensures forall q :: q in more <==> q in old(page) && Under(Down(r, i), q)
      decreases Height(r), 0
    {
      ghost var u := Snap();
      BareBelow(u, r, i);
      more := Freewalk(Ppn(mem[p][i]), Down(r, i));
      ghost var x := Snap();
      ChildFreed(u, x, more, r, i, next);
      ClearSlot(p, i, r);
    }

    method ClearSlot(p: nat, i: nat, ghost r: Role)
      requires r in page && p == page[r] && p in mem && i < |mem[p]|
      modifies this`mem
      ensures Snap() == WithSlot(old(Snap()), r, i, 0)
    {
      SetWord(p, i, 0);
    }

    /** uvmfree of a table that maps its user memory below sz and nothing else: every page it had is free again. */
    method Uvmfree(t: nat, sz: nat)
      requires Sound(Snap()) && Root(t) in page && PageUp(sz) <= MAXVPN
      requires AllUnmappable(Snap(), t, 0, PageUp(sz), true) && AllClear(Snap(), t, PageUp(sz), MAXVPN)
      modifies this
      ensures Sound(Snap()) && TableFreed(old(Snap()), Snap(), t)
    {
      ghost var s := Snap();
      Uvmunmap(t, 0, PageUp(sz), true);
      ghost var u := Snap();
      ClearNow(s, u, t, PageUp(sz));
      BareWhenClear(u, t);
      assert Linked(u.mem, u.page, Root(t));
      ghost var gone := Freewalk(t, Root(t));
      FreedTable(s, u, Snap(), gone, t, PageUp(sz));
    }

    /** uvmcreate: an empty table in a fresh page, or 0. */
    method Uvmcreate() returns (t: nat)
      requires Sound(Snap())
      modifies this
      ensures Sound(Snap())
      ensures t == 0 <==> |old(free)| == 0
      ensures t == 0 ==> Snap() == old(Snap())
      ensures t != 0 ==> Gained(old(Snap()), Snap(), {Root(t)})
      ensures t != 0 ==> t in old(role) && old(role)[t] == Free && Root(t) in page && AllClear(Snap(), t, 0, MAXVPN)
      ensures t != 0 ==> SameMaps(old(Snap()), Snap())
    {
      ghost var s := Snap();
      t := Kalloc();
      if t != 0 {
        mem := mem[t := Filled(0)];
        page, role := page[Root(t) := t], role[t := Root(t)];
        assert Snap() == Created(s);
        CreatedSound(s);
        CreatedGained(s);
      }
    }
  }
}
