/**
 A run that gives one file as many links as its count can hold. The names fit into two directories of at most
 MAXENTRIES entries each, so a disk of a few hundred blocks is enough.
 */
module LinkWrap {
  import opened LinkTree
  import opened LinkTheorems
  import opened LinkRuns

  const MAXENTRIES: nat := 268 * 1024 / 16   // MAXFILE blocks of BSIZE bytes, 16 bytes an entry
  const HALF: nat := 0x4000

  ghost predicate Reached(s: State) { exists steps :: Run(Fresh(2), steps, s) }

  lemma {:induction false} RunSnoc(s: State, steps: seq<Step>, t: State, st: Step)
    requires Run(s, steps, t) && Enabled(t, st)
    ensures Run(s, steps + [st], Do(t, st))
    decreases |steps|
  {
    if |steps| == 0 {
      assert (steps + [st])[1..] == [];
    } else {
      RunSnoc(Do(s, steps[0]), steps[1..], t, st);
      assert (steps + [st])[1..] == steps[1..] + [st];
    }
  }

  lemma ReachStep(s: State, st: Step) returns (t: State)
    requires Reached(s) && Enabled(s, st)
    ensures t == Do(s, st) && Reached(t)
  {
    t := Do(s, st);
    var steps :| Run(Fresh(2), steps, s);
    RunSnoc(Fresh(2), steps, s, st);
  }

  // ---------- Names ----------

  function Digit(n: nat): (ch: char)
    requires n < 64
    ensures ch as int == '0' as int + n
  {
    ('0' as int + n) as char
  }

  /** Different names for different numbers, none of them containing a slash. */
  function Name(n: nat): seq<char>
    requires n < 0x8000
  {
    ['n', Digit(n / 4096), Digit(n / 64 % 64), Digit(n % 64)]
  }

  function Value(name: seq<char>): int
    requires |name| == 4
  {
    (name[1] as int - '0' as int) * 4096 + (name[2] as int - '0' as int) * 64 + (name[3] as int - '0' as int)
  }

  lemma NameValue(n: nat)
    requires n < 0x8000
    ensures |Name(n)| == 4 && Value(Name(n)) == n
  {
    assert n / 4096 == n / 64 / 64;
    assert n / 64 == n / 64 / 64 * 64 + n / 64 % 64;
  }

  predicate Older(name: seq<char>, m: nat) { |name| < 4 || (|name| == 4 && Value(name) < m) }

  /** The directory holds none of the names from number m on. */
  predicate AllOlder(es: seq<Entry>, m: nat) { forall k :: 0 <= k < |es| ==> Older(es[k].name, m) }

  lemma NameIsNew(es: seq<Entry>, m: nat)
    requires AllOlder(es, m) && m < 0x8000
    ensures Find(es, Name(m)) == |es|
  {
    NameValue(m);
    var k := Find(es, Name(m));
    assert k < |es| ==> Older(es[k].name, m);
  }

  lemma OlderAfter(es: seq<Entry>, m: nat, i: nat, next: nat)
    requires AllOlder(es, m) && m < 0x8000 && next == m + 1
    ensures AllOlder(Enter(es, Entry(i, Name(m))), next) && AllOlder(es, next)
  {
    NameValue(m);
    var r := Enter(es, Entry(i, Name(m)));
    forall k | 0 <= k < |r| ensures Older(r[k].name, next) {
      if k != Slot(es) && k < |es| {
        assert Older(es[k].name, m);
      }
    }
  }

  // ---------- The run ----------

  predicate DirFor(n: Node, m: nat, size: nat) {
    n.kind.Dir? && n.nlink > 0 && AllOlder(n.entries, m) && |n.entries| <= size
  }

  /** Inode 2 is a file with m links, inode 3 the second directory. */
  predicate Linked(s: State, m: nat) {
    && |s.nodes| == 4 && s.nodes[2].kind.File? && s.nodes[2].nlink == m && s.pending == multiset{}
    && DirFor(s.nodes[ROOT], m, 4 + if m <= HALF then m else HALF)
    && DirFor(s.nodes[3], m, 2 + if m <= HALF then 0 else m - HALF)
  }

  lemma ReachFile(s: State, dp: nat, name: seq<char>, i: nat) returns (t: State)
    requires Reached(s) && CanCreate(s, dp, name, i) && s.nodes[dp].nlink > 0
    ensures t == MadeFile(s, dp, name, i, File) && Reached(t)
  {
    t := ReachStep(s, MakeFile(dp, name, i, File));
  }

  lemma ReachDir(s: State, dp: nat, name: seq<char>, i: nat) returns (t: State)
    requires Reached(s) && CanCreate(s, dp, name, i) && 0 < s.nodes[dp].nlink < 0x7FFF
    ensures t == MadeDir(s, dp, name, i) && Reached(t)
  {
    t := ReachStep(s, MakeDir(dp, name, i));
  }

  lemma BegunParts(s: State, i: nat)
    requires CanBegin(s, i) && s.nodes[i].nlink < 0x7FFF
    ensures Do(s, Begin(i)) == State(s.nodes[i := s.nodes[i].(nlink := s.nodes[i].nlink + 1)], s.pending + multiset{i})
  {
    assert Wrap(s.nodes[i].nlink + 1) == s.nodes[i].nlink + 1;
  }

  lemma ReachBegun(s: State, i: nat) returns (t: State)
    requires Reached(s) && CanBegin(s, i) && s.nodes[i].nlink < 0x7FFF
    ensures Reached(t) && t.pending == s.pending + multiset{i}
    ensures t.nodes == s.nodes[i := s.nodes[i].(nlink := s.nodes[i].nlink + 1)]
  {
    BegunParts(s, i);
    t := ReachStep(s, Begin(i));
  }

  lemma ReachCommitted(s: State, i: nat, dp: nat, name: seq<char>) returns (t: State)
    requires Reached(s) && i in s.pending && CanEnter(s, dp, name) && s.nodes[dp].nlink > 0
    ensures Reached(t) && t == Committed(s, i, dp, name)
  {
    t := ReachStep(s, Commit(i, dp, name));
  }

  lemma ReachLink(s: State, i: nat, dp: nat, name: seq<char>) returns (t: State)
    requires Reached(s) && CanBegin(s, i) && s.nodes[i].nlink < 0x7FFF && i != dp && CanEnter(s, dp, name)
    requires s.nodes[dp].nlink > 0 && s.pending == multiset{}
    ensures Reached(t) && t.pending == multiset{}
    ensures t.nodes == s.nodes[i := s.nodes[i].(nlink := s.nodes[i].nlink + 1)]
                              [dp := WithEntry(s.nodes[dp], Entry(i, name))]
  {
    var u := ReachBegun(s, i);
    assert u.nodes[dp] == s.nodes[dp];
    t := ReachCommitted(u, i, dp, name);
  }

  const TWO: seq<Entry> := NewDir(ROOT, ROOT)

  /** What the root holds after each of the first two calls. */
  lemma FirstEntries()
    ensures Find(TWO, "f") == 2 && Enter(TWO, Entry(2, "f")) == TWO + [Entry(2, "f")]
    ensures Find(TWO + [Entry(2, "f")], "d") == 3
    ensures Enter(TWO + [Entry(2, "f")], Entry(3, "d")) == TWO + [Entry(2, "f"), Entry(3, "d")]
  {
  }

  lemma FirstLink() returns (t: State)
    ensures Reached(t) && Linked(t, 1)
  {
    FirstEntries();
    var s := Fresh(2);
    assert Run(s, [], s);
    var u := ReachFile(s, ROOT, "f", 2);
    assert u.nodes[ROOT] == Node(Dir, 1, TWO + [Entry(2, "f")]);
    t := ReachDir(u, ROOT, "d", 3);
    assert t.nodes[ROOT] == Node(Dir, 2, TWO + [Entry(2, "f"), Entry(3, "d")]);
    assert t.nodes[2] == Node(File, 1, []) && t.nodes[3] == Node(Dir, 1, NewDir(3, ROOT));
  }

  lemma DirAfter(n: Node, m: nat, size: nat, more: nat, next: nat)
    requires DirFor(n, m, size) && m < 0x8000 && next == m + 1 && more == size + 1
    ensures DirFor(WithEntry(n, Entry(2, Name(m))), next, more)
  {
    OlderAfter(n.entries, m, 2, next);
  }

  lemma DirKept(n: Node, m: nat, size: nat, next: nat)
    requires DirFor(n, m, size) && m < 0x8000 && next == m + 1
    ensures DirFor(n, next, size)
  {
    OlderAfter(n.entries, m, 2, next);
  }

  lemma NextLink(s: State, m: nat, next: nat) returns (t: State)
    requires Reached(s) && Linked(s, m) && 1 <= m < 0x7FFF && next == m + 1
    ensures Reached(t) && Linked(t, next)
  {
    var dp := if m < HALF then ROOT else 3;
    NameIsNew(s.nodes[dp].entries, m);
    t := ReachLink(s, 2, dp, Name(m));
    assert t.nodes[4 - dp] == s.nodes[4 - dp] && t.nodes[dp] == WithEntry(s.nodes[dp], Entry(2, Name(m)));
    if m < HALF {
      DirAfter(s.nodes[ROOT], m, 4 + m, 4 + next, next);
      DirKept(s.nodes[3], m, 2, next);
    } else {
      DirKept(s.nodes[ROOT], m, 4 + HALF, next);
      DirAfter(s.nodes[3], m, 2 + m - HALF, 2 + next - HALF, next);
    }
  }

  lemma {:induction false} ManyLinks(m: nat) returns (t: State)
    requires 1 <= m <= 0x7FFF
    ensures Reached(t) && Linked(t, m)
  {
    if m == 1 {
      t := FirstLink();
    } else {
      t := ManyLinks(m - 1);
      t := NextLink(t, m - 1, m);
    }
  }

  /** The next link wraps the count of a file that has 0x7FFF names. */
  ghost predicate Wraps(s: State, i: nat) {
    && Reached(s) && CanBegin(s, i) && Total(s.nodes, i) == 0x7FFF
    && Begun(s, i).nodes[i].nlink == -0x8000 && !CountsOk(Begun(s, i))
    && forall d: nat :: d < |s.nodes| && s.nodes[d].kind.Dir? ==> |s.nodes[d].entries| <= MAXENTRIES
  }

  lemma LastLink(s: State)
    requires Reached(s) && Linked(s, 0x7FFF) && CountsOk(s) && s.nodes[0].kind.Free?
    ensures Wraps(s, 2)
  {
    assert Total(s.nodes, 2) == 0x7FFF;
    var t := Begun(s, 2);
    assert t.nodes[2].nlink == -0x8000;
    assert !CountsOk(t);
  }

  lemma LinkCountWraps()
    ensures exists s :: Wraps(s, 2)
  {
    var s := ManyLinks(0x7FFF);
    FreshGood(2);
    var steps :| Run(Fresh(2), steps, s);
    var _ := RunKeepsCounts(Fresh(2), steps, s, map[]);
    LastLink(s);
  }
}
