/**
 What names mean: dirlookup and the path walk of namex (fs.c) over the inodes, what link, unlink and create do
 to the meaning of every name and every path, and that unlink undoes link and create.
 */
module LinkLookup {
  import opened LinkTree
  import opened LinkTheorems
  import opened LinkRuns

  // ---------- Names ----------

  /** The inode a directory's entries give for a name, 0 if none. */
  function Inum(es: seq<Entry>, name: seq<char>): nat { if Find(es, name) < |es| then es[Find(es, name)].inum else 0 }

  /** The inode called name in d: none if d is no directory. */
  function Lookup(nodes: seq<Node>, d: nat, name: seq<char>): nat {
    if d < |nodes| && nodes[d].kind.Dir? then Inum(nodes[d].entries, name) else 0
  }

  /** The entry that dirlookup finds is the only one with that name. */
  lemma FindOnly(es: seq<Entry>, name: seq<char>, k: nat)
    requires UniqueNames(es) && k < |es| && es[k].inum != 0 && Same(name, es[k].name)
    ensures Find(es, name) == k
  {
  }

  /** A new entry is found by its name, and hides no other. */
  lemma InumEnter(es: seq<Entry>, e: Entry, name: seq<char>)
    requires UniqueNames(es) && Find(es, e.name) == |es| && e.inum != 0
    ensures Inum(Enter(es, e), name) == if Same(name, e.name) then e.inum else Inum(es, name)
  {
    UniqueEnter(es, e);
    var r, k := Enter(es, e), Find(es, name);
    if Same(name, e.name) {
      FindOnly(r, name, Slot(es));
    } else if k < |es| {
      assert r[k] == es[k];
      FindOnly(r, name, k);
    }
  }

  /** An erased entry is found no more, and all others as before. */
  lemma InumErase(es: seq<Entry>, k: nat, name: seq<char>)
    requires UniqueNames(es) && k < |es| && es[k].inum != 0
    ensures Inum(es[k := EMPTY], name) == if Same(name, es[k].name) then 0 else Inum(es, name)
  {
    var r := es[k := EMPTY];
    UniqueErase(es, k);
    var j := Find(r, name);
    if j < |r| {
      assert r[j] == es[j];
      FindOnly(es, name, j);
    } else if Find(es, name) < |es| {
      assert r[Find(es, name)].inum == 0 || Find(es, name) != k;
    }
  }

  // ---------- Paths ----------

  /** namex: the inode that the elements of a path lead to from d, 0 if they lead nowhere. */
  function Resolve(nodes: seq<Node>, d: nat, path: seq<seq<char>>): nat
    decreases |path|
  {
    if |path| == 0 || d == 0 then d else Resolve(nodes, Lookup(nodes, d, path[0]), path[1..])
  }

  lemma {:induction false} ResolveLast(nodes: seq<Node>, d: nat, path: seq<seq<char>>, name: seq<char>)
    ensures Resolve(nodes, d, path + [name]) ==
      if Resolve(nodes, d, path) == 0 then 0 else Lookup(nodes, Resolve(nodes, d, path), name)
    decreases |path|
  {
    if |path| > 0 && d != 0 {
      ResolveLast(nodes, Lookup(nodes, d, path[0]), path[1..], name);
      assert (path + [name])[1..] == path[1..] + [name];
    }
  }

  /** Where a path starts: at the root if it is absolute. */
  function Start(path: seq<char>, cwd: nat): nat { if |path| > 0 && path[0] == '/' then ROOT else cwd }

  function Last(path: seq<seq<char>>): seq<char> { if |path| == 0 then "" else path[|path| - 1] }

  /** The directory that holds the last name of a path, 0 if the path before it does not lead to a directory. */
  function ParentOf(nodes: seq<Node>, d: nat, path: seq<seq<char>>): nat {
    if |path| == 0 then 0
    else
      var p := Resolve(nodes, d, path[..|path| - 1]);
      if p < |nodes| && nodes[p].kind.Dir? then p else 0
  }

  /** Both walks come to the same. */
  predicate SameWalk(nodes: seq<Node>, d: nat, path: seq<seq<char>>, d': nat, path': seq<seq<char>>) {
    && Resolve(nodes, d, path) == Resolve(nodes, d', path') && (|path| > 0 && |path'| > 0 ==> Last(path) == Last(path'))
    && (|path'| > 0 ==> ParentOf(nodes, d, path) == ParentOf(nodes, d', path'))
  }

  /** One step along a path. */
  lemma StepAlong(nodes: seq<Node>, d: nat, name: seq<char>, rest: seq<seq<char>>)
    requires 0 < d && |nodes| > 0 && !nodes[0].kind.Dir?
    ensures SameWalk(nodes, d, [name] + rest, Lookup(nodes, d, name), rest)
    ensures Lookup(nodes, d, name) == 0 ==> Resolve(nodes, d, [name] + rest) == 0
    ensures Lookup(nodes, d, name) == 0 && |rest| > 0 ==> ParentOf(nodes, d, [name] + rest) == 0
    ensures ParentOf(nodes, d, [name]) == if d < |nodes| && nodes[d].kind.Dir? then d else 0
  {
    var path := [name] + rest;
    assert path[1..] == rest && [name][..0] == [];
    ResolveZero(nodes, rest);
    if |rest| > 0 {
      assert path[..|path| - 1] == [name] + rest[..|rest| - 1];
      assert path[..|path| - 1][1..] == rest[..|rest| - 1];
    }
  }

  /** Every name that has a meaning before has the same one after. */
  ghost predicate Extends(before: seq<Node>, after: seq<Node>) {
    forall d: nat, name :: Lookup(before, d, name) != 0 ==> Lookup(after, d, name) == Lookup(before, d, name)
  }

  /** Then so has every path. */
  lemma {:induction false} PathsExtend(before: seq<Node>, after: seq<Node>, d: nat, path: seq<seq<char>>)
    requires Extends(before, after) && Resolve(before, d, path) != 0
    ensures Resolve(after, d, path) == Resolve(before, d, path)
    decreases |path|
  {
    if |path| > 0 {
      ResolveZero(before, path[1..]);
      PathsExtend(before, after, Lookup(before, d, path[0]), path[1..]);
    }
  }

  lemma ResolveZero(nodes: seq<Node>, path: seq<seq<char>>)
    ensures Resolve(nodes, 0, path) == 0
  {
  }

  /** All names but this one, and those in a directory of the set, mean what they did. */
  ghost predicate SameNames(before: seq<Node>, after: seq<Node>, dp: nat, name: seq<char>, but: set<nat>) {
    forall d: nat, other :: d !in but && !(d == dp && Same(other, name)) ==>
      Lookup(after, d, other) == Lookup(before, d, other)
  }

  /** A new name for i in dp: found there, nothing else changed, and no path loses its meaning. */
  ghost predicate Named(before: seq<Node>, after: seq<Node>, dp: nat, name: seq<char>, i: nat, but: set<nat>) {
    && Lookup(before, dp, name) == 0 && Lookup(after, dp, name) == i
    && SameNames(before, after, dp, name, but) && Extends(before, after)
  }

  /** The whole path to a new name leads to its inode. */
  lemma PathToNew(before: seq<Node>, after: seq<Node>, dp: nat, name: seq<char>, i: nat, but: set<nat>,
                  d: nat, path: seq<seq<char>>)
    requires Named(before, after, dp, name, i, but) && dp != 0 && Resolve(before, d, path) == dp
    ensures Resolve(before, d, path + [name]) == 0 && Resolve(after, d, path + [name]) == i
  {
    PathsExtend(before, after, d, path);
    ResolveLast(before, d, path, name);
    ResolveLast(after, d, path, name);
  }

  // ---------- What the calls do to them ----------

  lemma EnteredNames(before: seq<Node>, after: seq<Node>, dp: nat, e: Entry)
    requires |after| == |before| && dp < |before| && before[dp].kind.Dir? && UniqueNames(before[dp].entries)
    requires e.inum != 0 && Find(before[dp].entries, e.name) == |before[dp].entries|
    requires after[dp].kind.Dir? && after[dp].entries == Enter(before[dp].entries, e)
    requires forall d: nat :: d < |before| && d != dp && d != e.inum ==>
      after[d].kind == before[d].kind && after[d].entries == before[d].entries
    ensures SameNames(before, after, dp, e.name, if e.inum == dp then {} else {e.inum})
    ensures Lookup(before, dp, e.name) == 0 && Lookup(after, dp, e.name) == e.inum
  {
    forall d: nat, other | !(d == dp && Same(other, e.name)) && (d == dp || d != e.inum)
      ensures Lookup(after, d, other) == Lookup(before, d, other)
    {
      if d == dp {
        InumEnter(before[dp].entries, e, other);
      }
    }
    InumEnter(before[dp].entries, e, e.name);
  }

  /** link's second half: the new name means i, and no other name changes. */
  lemma LinkNames(s: State, i: nat, dp: nat, name: seq<char>, place: map<nat, (nat, nat)>)
    requires Inv(s, place) && i in s.pending && CanEnter(s, dp, name)
    ensures Named(s.nodes, Committed(s, i, dp, name).nodes, dp, name, i, {})
  {
    var t := Committed(s, i, dp, name);
    assert i != 0 && !s.nodes[i].kind.Dir?;
    EnteredNames(s.nodes, t.nodes, dp, Entry(i, name));
    forall d: nat, other | d == i ensures Lookup(t.nodes, d, other) == Lookup(s.nodes, d, other) {
    }
  }

  /** create: the new inode has the type asked for, and its name in dp means it. */
  lemma CreateNames(s: State, dp: nat, name: seq<char>, i: nat, kind: Kind)
    requires CanCreate(s, dp, name, i) && UniqueNames(s.nodes[dp].entries) && !kind.Free?
    ensures var t := MadeNode(s, dp, name, i, kind);
      && Named(s.nodes, t.nodes, dp, name, i, {i}) && t.nodes[i].kind == kind
      && (!kind.Dir? ==> t.nodes[i].entries == [])
  {
    EnteredNames(s.nodes, MadeNode(s, dp, name, i, kind).nodes, dp, Entry(i, name));
  }

  /** mkdir: the new directory holds its own name and its parent's, and no other. */
  lemma MadeDirNames(s: State, dp: nat, name: seq<char>, i: nat, other: seq<char>)
    requires CanCreate(s, dp, name, i) && dp != 0
    ensures Lookup(MadeDir(s, dp, name, i).nodes, i, other) ==
      if Same(other, ".") then i else if Same(other, "..") then dp else 0
  {
    var es := MadeDir(s, dp, name, i).nodes[i].entries;
    assert es == NewDir(i, dp) && UniqueNames(es);
    if Same(other, ".") {
      FindOnly(es, other, 0);
    } else if Same(other, "..") {
      FindOnly(es, other, 1);
    }
  }

  /** unlink: the name means nothing any more, and every other name what it did. */
  lemma UnlinkNames(s: State, dp: nat, name: seq<char>, k: nat)
    requires CanUnlink(s, dp, k) && UniqueNames(s.nodes[dp].entries) && k == Find(s.nodes[dp].entries, name)
    ensures Named(Unlinked(s, dp, k).nodes, s.nodes, dp, name, s.nodes[dp].entries[k].inum, {})
  {
    var t, es := Unlinked(s, dp, k), s.nodes[dp].entries;
    forall d: nat, other
      ensures Lookup(t.nodes, d, other) == if d == dp && Same(other, name) then 0 else Lookup(s.nodes, d, other)
    {
      if d == dp {
        InumErase(es, k, other);
      }
    }
  }

  // ---------- unlink undoes link and create ----------

  /** The same inodes, types and link counts, and every name and so every path with the same meaning. */
  ghost predicate SameTree(before: seq<Node>, after: seq<Node>) {
    && |after| == |before|
    && (forall d: nat :: d < |before| ==> after[d].kind == before[d].kind && after[d].nlink == before[d].nlink)
    && (forall d: nat, name :: Lookup(after, d, name) == Lookup(before, d, name))
  }

  lemma SameTreePaths(before: seq<Node>, after: seq<Node>, d: nat, path: seq<seq<char>>)
    requires SameTree(before, after)
    ensures Resolve(after, d, path) == Resolve(before, d, path)
  {
    if Resolve(before, d, path) != 0 {
      PathsExtend(before, after, d, path);
    } else if Resolve(after, d, path) != 0 {
      PathsExtend(after, before, d, path);
    }
  }

  /** An entry made and erased. */
  lemma EnterErase(es: seq<Entry>, e: Entry, name: seq<char>)
    requires UniqueNames(es) && Find(es, e.name) == |es| && e.inum != 0
    ensures Inum(Enter(es, e)[Slot(es) := EMPTY], name) == Inum(es, name)
  {
    UniqueEnter(es, e);
    InumErase(Enter(es, e), Slot(es), name);
    InumEnter(es, e, name);
    if Same(name, e.name) {
      assert Find(es, name) == Find(es, e.name) by { SameFind(es, name, e.name); }
    }
  }

  lemma SameFind(es: seq<Entry>, a: seq<char>, b: seq<char>)
    requires Same(a, b)
    ensures Find(es, a) == Find(es, b)
  {
  }

  /** The name of a link, in a directory with links, is not "." or "..". */
  lemma NewNameOrdinary(s: State, dp: nat, name: seq<char>, place: map<nat, (nat, nat)>)
    requires Inv(s, place) && CanEnter(s, dp, name) && s.nodes[dp].nlink > 0
    ensures !Same(name, ".") && !Same(name, "..") && dp != 0
  {
    assert Dotted(dp, s.nodes[dp]);
  }

  /** Nothing but an erased entry of dp is left over. */
  lemma ErasedTree(before: seq<Node>, after: seq<Node>, dp: nat, e: Entry)
    requires |after| == |before| && dp < |before| && before[dp].kind.Dir? && UniqueNames(before[dp].entries)
    requires e.inum != 0 && Find(before[dp].entries, e.name) == |before[dp].entries|
    requires forall d: nat :: d < |before| ==> after[d].kind == before[d].kind && after[d].nlink == before[d].nlink
    requires forall d: nat :: d < |before| && d != dp && before[d].kind.Dir? ==> after[d].entries == before[d].entries
    requires after[dp].entries == Enter(before[dp].entries, e)[Slot(before[dp].entries) := EMPTY]
    ensures SameTree(before, after)
  {
    forall d: nat, other ensures Lookup(after, d, other) == Lookup(before, d, other) {
      if d == dp {
        EnterErase(before[dp].entries, e, other);
      }
    }
  }

  lemma LinkUndoneTree(s: State, i: nat, dp: nat, name: seq<char>)
    requires CanBegin(s, i) && 0 <= s.nodes[i].nlink < 0x7FFF && CanEnter(s, dp, name)
    requires !Same(name, ".") && !Same(name, "..") && UniqueNames(s.nodes[dp].entries)
    ensures CanEnter(Begun(s, i), dp, name)
    ensures var t, k := Committed(Begun(s, i), i, dp, name), Slot(s.nodes[dp].entries);
      CanUnlink(t, dp, k) && SameTree(s.nodes, Unlinked(t, dp, k).nodes) && Unlinked(t, dp, k).pending == s.pending
  {
    var t, k := Committed(Begun(s, i), i, dp, name), Slot(s.nodes[dp].entries);
    ErasedTree(s.nodes, Unlinked(t, dp, k).nodes, dp, Entry(i, name));
  }

  /** link and then unlink of the new name leaves everything as it was. */
  lemma LinkUndone(s: State, i: nat, dp: nat, name: seq<char>, place: map<nat, (nat, nat)>)
    requires Inv(s, place) && CanBegin(s, i) && s.nodes[i].nlink < 0x7FFF
    requires CanEnter(s, dp, name) && s.nodes[dp].nlink > 0
    ensures CanEnter(Begun(s, i), dp, name)
    ensures var t, k := Committed(Begun(s, i), i, dp, name), Slot(s.nodes[dp].entries);
      CanUnlink(t, dp, k) && SameTree(s.nodes, Unlinked(t, dp, k).nodes) && Unlinked(t, dp, k).pending == s.pending
  {
    NewNameOrdinary(s, dp, name, place);
    assert s.nodes[i].nlink >= 0 && UniqueNames(s.nodes[dp].entries);
    LinkUndoneTree(s, i, dp, name);
  }

  /** create, unlink of the new name, and the last iput. */
  ghost predicate Undone(s: State, dp: nat, i: nat, t: State, k: nat) {
    && CanUnlink(t, dp, k) && t.nodes[dp].entries[k].inum == i && Unlinked(t, dp, k).nodes[i].nlink == 0
    && SameTree(s.nodes, Replaced(Unlinked(t, dp, k), i, Node(Free, 0, [])).nodes)
  }

  lemma FileUndoneTree(s: State, dp: nat, name: seq<char>, i: nat, kind: Kind)
    requires CanCreate(s, dp, name, i) && (kind.File? || kind.Device?) && s.nodes[i].nlink == 0
    requires !Same(name, ".") && !Same(name, "..") && UniqueNames(s.nodes[dp].entries)
    ensures Undone(s, dp, i, MadeFile(s, dp, name, i, kind), Slot(s.nodes[dp].entries))
  {
    var t, k := MadeFile(s, dp, name, i, kind), Slot(s.nodes[dp].entries);
    ErasedTree(s.nodes, Replaced(Unlinked(t, dp, k), i, Node(Free, 0, [])).nodes, dp, Entry(i, name));
  }

  lemma DirUndoneTree(s: State, dp: nat, name: seq<char>, i: nat)
    requires CanCreate(s, dp, name, i) && s.nodes[i].nlink == 0 && 0 < s.nodes[dp].nlink < 0x7FFF
    requires !Same(name, ".") && !Same(name, "..") && UniqueNames(s.nodes[dp].entries)
    ensures Undone(s, dp, i, MadeDir(s, dp, name, i), Slot(s.nodes[dp].entries))
  {
    var t, k := MadeDir(s, dp, name, i), Slot(s.nodes[dp].entries);
    assert t.nodes[dp].nlink == s.nodes[dp].nlink + 1 && t.nodes[i] == Node(Dir, 1, NewDir(i, dp));
    ErasedTree(s.nodes, Replaced(Unlinked(t, dp, k), i, Node(Free, 0, [])).nodes, dp, Entry(i, name));
  }

  /** create, unlink of the new name, and the last iput leave everything as it was. */
  lemma CreateUndone(s: State, dp: nat, name: seq<char>, i: nat, kind: Kind, place: map<nat, (nat, nat)>)
    requires Inv(s, place) && CanCreate(s, dp, name, i) && !kind.Free? && Counted(s, dp, kind)
    ensures Undone(s, dp, i, MadeNode(s, dp, name, i, kind), Slot(s.nodes[dp].entries))
  {
    NewNameOrdinary(s, dp, name, place);
    assert UniqueNames(s.nodes[dp].entries) && s.nodes[i].nlink == 0;
    if kind.Dir? {
      DirUndoneTree(s, dp, name, i);
    } else {
      FileUndoneTree(s, dp, name, i, kind);
    }
  }
}
