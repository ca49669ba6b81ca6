/** How many pages an address space takes: no page is lost, so what is allocated is what becomes a table or memory. */
module VmCount {
  import opened Common
  import opened VmTree

  // ---------- The census of pages ----------

  function HeldOf(role: map<nat, Role>): set<nat> { set p | p in role && role[p].Held? }

  function FreeOf(role: map<nat, Role>): set<nat> { set p | p in role && role[p].Free? }

  function TrackedOf(role: map<nat, Role>): set<nat> { set p | p in role && Tracked(role[p]) }

  /** There are as many roles as pages that have them. */
  lemma {:induction false} RolesSize(page: map<Role, nat>, pages: set<nat>)
    requires forall r :: r in page ==> page[r] in pages
    requires forall p :: p in pages ==> exists r :: r in page && page[r] == p
    requires forall q, r :: q in page && r in page && page[q] == page[r] ==> q == r
    ensures |page.Keys| == |pages|
    decreases |page.Keys|
  {
    if page.Keys == {} {
      assert pages == {};
    } else {
      var r :| r in page;
      var rest, others := page - {r}, pages - {page[r]};
      forall p | p in others ensures exists q :: q in rest && rest[q] == p {
        var q :| q in page && page[q] == p;
        assert q in rest;
      }
      assert rest.Keys == page.Keys - {r};
      RolesSize(rest, others);
    }
  }

  lemma {:induction false} TrackedSize(page: map<Role, nat>, role: map<nat, Role>)
    requires Inverse(page, role)
    ensures |page.Keys| == |TrackedOf(role)|
  {
    forall p | p in TrackedOf(role) ensures exists r :: r in page && page[r] == p {
      assert role[p] in page;
    }
    RolesSize(page, TrackedOf(role));
  }

  lemma FreeSize(free: seq<nat>, role: map<nat, Role>)
    requires FreeOk(free, role)
    ensures |free| == |FreeOf(role)|
  {
    ElementsSize(free);
    assert Elements(free) == FreeOf(role);
  }

  lemma RolesApart(role: map<nat, Role>)
    ensures |role.Keys| == |FreeOf(role)| + |TrackedOf(role)| + |HeldOf(role)|
  {
    var two := FreeOf(role) + TrackedOf(role);
    assert |two| == |FreeOf(role)| + |TrackedOf(role)|;
    forall p | p in role ensures p in two + HeldOf(role) {
      assert role[p].Free? || Tracked(role[p]) || role[p].Held?;
    }
    assert role.Keys == two + HeldOf(role);
  }

  /** Every page is free, held, or has its one place as a table or as memory. */
  lemma Census(free: seq<nat>, page: map<Role, nat>, role: map<nat, Role>)
    requires FreeOk(free, role) && Inverse(page, role)
    ensures |free| + |page.Keys| + |HeldOf(role)| == |role.Keys|
  {
    assert |free| == |FreeOf(role)| by { FreeSize(free, role); }
    assert |page.Keys| == |TrackedOf(role)| by { TrackedSize(page, role); }
    RolesApart(role);
  }

  // ---------- No page is lost ----------

  /** Pages held afterwards were held before, but for the pages given. */
  ghost predicate HeldBefore(s: State, s': State, but: set<nat>) {
    forall p :: p in s'.role && s'.role[p].Held? && p !in but ==> p in s.role && s.role[p].Held?
  }

  ghost predicate NoLeak(s: State, s': State) { HeldBefore(s, s', {}) }

  lemma NoLeakTrans(s: State, u: State, w: State)
    requires NoLeak(s, u) && NoLeak(u, w)
    ensures NoLeak(s, w)
  {
  }

  lemma ShrunkNoLeak(s: State, s': State, t: nat, from: nat, to: nat)
    requires Shrunk(s, s', t, from, to)
    ensures NoLeak(s, s')
  {
  }

  predicate Balanced(s: State, s': State) { |s'.free| + |s'.page.Keys| == |s.free| + |s.page.Keys| }

  lemma SameHeld(s: State, s': State)
    requires Keeps(s, s') && NoLeak(s, s')
    ensures HeldOf(s'.role) == HeldOf(s.role)
  {
  }

  /** What leaves the free list becomes a table or memory. */
  lemma Conserved(s: State, s': State)
    requires Sound(s) && Sound(s') && Keeps(s, s') && NoLeak(s, s')
    ensures Balanced(s, s')
  {
    assert |s.free| + |s.page.Keys| + |HeldOf(s.role)| == |s.role.Keys| by { Census(s.free, s.page, s.role); }
    assert |s'.free| + |s'.page.Keys| + |HeldOf(s'.role)| == |s'.role.Keys| by { Census(s'.free, s'.page, s'.role); }
    SameHeld(s, s');
  }

  // ---------- What a range of pages needs ----------

  /** The tables on the way to page v below the root. */
  function Tables(t: nat, v: nat): set<Role> { {Mid(t, I(v)), LowOf(t, v)} }

  function AllTables(t: nat, from: nat, to: nat): set<Role>
    requires from <= to
  {
    if from == to then {} else AllTables(t, from, to - 1) + Tables(t, to - 1)
  }

  lemma TablesNext(t: nat, from: nat, v: nat, to: nat)
    requires from <= v && to == v + 1
    ensures AllTables(t, from, to) == AllTables(t, from, v) + Tables(t, v)
  {
  }

  /** The tables and the page itself. */
  function Needs(t: nat, v: nat): set<Role> { Tables(t, v) + {User(t, v)} }

  function AllNeeds(t: nat, from: nat, to: nat): set<Role>
    requires from <= to
  {
    if from == to then {} else AllNeeds(t, from, to - 1) + Needs(t, to - 1)
  }

  /** There are pages enough for those of the roles that are missing. */
  ghost predicate Affords(s: State, roles: set<Role>) { |roles - s.page.Keys| <= |s.free| }

  lemma RoleSubset(a: set<Role>, b: set<Role>)
    requires a <= b
    ensures |a| <= |b| && (a != b ==> |a| < |b|)
  {
    assert b == a + (b - a);
    assert a != b ==> b - a != {};
  }

  lemma {:induction false} NeedsGrow(t: nat, from: nat, mid: nat, to: nat)
    requires from <= mid <= to
    ensures AllNeeds(t, from, mid) <= AllNeeds(t, from, to) && AllTables(t, from, mid) <= AllTables(t, from, to)
  {
    if mid < to {
      NeedsGrow(t, from, mid, to - 1);
    }
  }

  /** Enough pages were free for all that was added. */
  lemma Enough(s: State, s': State, roles: set<Role>)
    requires Balanced(s, s') && s'.page.Keys == s.page.Keys + roles
    ensures |roles - s.page.Keys| == |s.free| - |s'.free|
  {
    assert s'.page.Keys == s.page.Keys + (roles - s.page.Keys);
  }

  /** Out of pages with something still missing: there were not enough. */
  lemma TooFew(s: State, s': State, roles: set<Role>)
    requires Balanced(s, s') && |s'.free| == 0
    requires s'.page.Keys <= s.page.Keys + roles && s'.page.Keys != s.page.Keys + roles
    ensures |roles - s.page.Keys| > |s.free|
  {
    RoleSubset(s'.page.Keys, s.page.Keys + roles);
    assert s.page.Keys + roles == s.page.Keys + (roles - s.page.Keys);
  }

  lemma BothMissing(have: set<Role>, done: set<Role>, more: set<Role>, all: set<Role>)
    requires done + more <= all
    ensures |done - have| + |more - (have + done)| <= |all - have|
  {
    var a, b := done - have, more - (have + done);
    assert |a + b| == |a| + |b|;
    RoleSubset(a + b, all - have);
  }

  /** u has all that the roles `done` ask for and lacks pages for `more`: s lacked pages for both. */
  lemma Short(s: State, u: State, done: set<Role>, more: set<Role>, all: set<Role>)
    requires Balanced(s, u) && u.page.Keys == s.page.Keys + done
    requires |more - u.page.Keys| > |u.free| && done + more <= all
    ensures |all - s.page.Keys| > |s.free|
  {
    Enough(s, u, done);
    BothMissing(s.page.Keys, done, more, all);
  }

  /** Exactly the roles given were added, where they were missing, and no page was lost. */
  ghost predicate Gained(s: State, s': State, roles: set<Role>) {
    NoLeak(s, s') && s'.page.Keys == s.page.Keys + roles
  }

  lemma GainedTrans(s: State, u: State, w: State, a: set<Role>, b: set<Role>, c: set<Role>)
    requires Gained(s, u, a) && Gained(u, w, b) && c == a + b
    ensures Gained(s, w, c)
  {
    NoLeakTrans(s, u, w);
  }

  lemma GainedHave(s: State, roles: set<Role>)
    requires roles <= s.page.Keys
    ensures Gained(s, s, roles)
  {
  }

  lemma GainedSprouted(s: State, r: Role)
    requires CanPop(s) && CanAdd(Popped(s), r) && Tracked(r)
    ensures Gained(s, Sprouted(s, r), {r})
  {
    assert Sprouted(s, r).page == s.page[r := s.head];
  }

  // ---------- walk ----------

  /** The tables a walk has come to at the given level. */
  function Passed(t: nat, v: nat, level: nat): set<Role> {
    if level == 2 then {} else if level == 1 then {Mid(t, I(v))} else Tables(t, v)
  }

  /** What a walk leaves behind: all tables, or those above the level at which pages ran out. */
  ghost predicate Walked(s: State, s': State, t: nat, v: nat, ok: bool) {
    if ok then Gained(s, s', Tables(t, v))
    else |s'.free| == 0 && LowOf(t, v) !in s'.page && (Gained(s, s', {}) || Gained(s, s', {Mid(t, I(v))}))
  }

  /** walk finds or makes the tables exactly when there are pages enough for the missing ones. */
  lemma WalkExact(s: State, s': State, t: nat, v: nat, ok: bool)
    requires Sound(s) && Sound(s') && Keeps(s, s') && Walked(s, s', t, v, ok)
    ensures ok <==> Affords(s, Tables(t, v))
  {
    assert Balanced(s, s') by { Conserved(s, s'); }
    if ok {
      Enough(s, s', Tables(t, v));
    } else {
      assert LowOf(t, v) in s.page.Keys + Tables(t, v);
      TooFew(s, s', Tables(t, v));
    }
  }

  // ---------- mappages, uvmalloc, uvmcopy ----------

  lemma SameGained(s: State, u: State, w: State, roles: set<Role>)
    requires Gained(s, u, roles) && w.page == u.page && w.role == u.role
    ensures Gained(s, w, roles)
  {
  }

  lemma GainedEnough(s: State, s': State, roles: set<Role>)
    requires Sound(s) && Sound(s') && Keeps(s, s') && Gained(s, s', roles)
    ensures Affords(s, roles)
  {
    assert Balanced(s, s') by { Conserved(s, s'); }
    Enough(s, s', roles);
  }

  /** The walk to page a, after those to the pages before it, found too few pages. */
  lemma TablesShort(s: State, u: State, t: nat, first: nat, a: nat, end: nat)
    requires first <= a < end && Sound(s) && Sound(u) && Keeps(s, u) && Gained(s, u, AllTables(t, first, a))
    requires !Affords(u, Tables(t, a))
    ensures !Affords(s, AllTables(t, first, end))
  {
    assert Balanced(s, u) by { Conserved(s, u); }
    NeedsGrow(t, first, a + 1, end);
    Short(s, u, AllTables(t, first, a), Tables(t, a), AllTables(t, first, end));
  }

  lemma NeedsShort(s: State, u: State, t: nat, first: nat, a: nat, end: nat)
    requires first <= a < end && Sound(s) && Sound(u) && Keeps(s, u) && Gained(s, u, AllNeeds(t, first, a))
    requires !Affords(u, Needs(t, a))
    ensures !Affords(s, AllNeeds(t, first, end))
  {
    assert Balanced(s, u) by { Conserved(s, u); }
    NeedsGrow(t, first, a + 1, end);
    Short(s, u, AllNeeds(t, first, a), Needs(t, a), AllNeeds(t, first, end));
  }

  lemma OneTable(t: nat, v: nat, to: nat)
    requires to == v + 1
    ensures AllTables(t, v, to) == Tables(t, v)
  {
    TablesNext(t, v, v, to);
    assert AllTables(t, v, v) == {};
  }

  lemma NeedsNext(t: nat, from: nat, v: nat, to: nat)
    requires from <= v && to == v + 1
    ensures AllNeeds(t, from, to) == AllNeeds(t, from, v) + Needs(t, v)
  {
  }

  /** A new page takes one more than its missing tables. */
  lemma NeedsOneMore(s: State, u: State, t: nat, v: nat)
    requires User(t, v) !in s.page && u.page == s.page && |u.free| + 1 == |s.free|
    ensures Affords(s, Needs(t, v)) <==> Affords(u, Tables(t, v))
  {
    OneMissing(Tables(t, v), User(t, v), s.page.Keys);
  }

  lemma OneMissing(roles: set<Role>, r: Role, have: set<Role>)
    requires r !in have && r !in roles
    ensures |(roles + {r}) - have| == |roles - have| + 1
  {
    assert (roles + {r}) - have == (roles - have) + {r};
  }

  lemma NeedsSome(s: State, t: nat, v: nat)
    requires User(t, v) !in s.page && |s.free| == 0
    ensures !Affords(s, Needs(t, v))
  {
    assert User(t, v) in Needs(t, v) - s.page.Keys;
  }

  /** The page p fetched from the free list became memory. */
  lemma OwnedGained(s: State, u: State, w: State, t: nat, v: nat, p: nat)
    requires u.page == s.page && HeldBefore(s, u, {p}) && Gained(u, w, Tables(t, v))
    ensures Gained(s, Owned(w, t, v, p), Needs(t, v))
  {
    var x := Owned(w, t, v, p);
    assert x.page.Keys == w.page.Keys + {User(t, v)};
    forall q | q in x.role && x.role[q].Held? ensures q in s.role && s.role[q].Held? {
      assert q != p && q in w.role && w.role[q].Held?;
      assert q in u.role && u.role[q].Held?;
    }
  }

  /** Or it went back to the free list. */
  lemma PushedNoLeak(s: State, u: State, w: State, p: nat)
    requires HeldBefore(s, u, {p}) && NoLeak(u, w)
    ensures NoLeak(s, Pushed(w, p))
  {
    var x := Pushed(w, p);
    forall q | q in x.role && x.role[q].Held? ensures q in s.role && s.role[q].Held? {
      assert q != p && q in w.role && w.role[q].Held?;
      assert q in u.role && u.role[q].Held?;
    }
  }
}
