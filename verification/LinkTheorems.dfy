/** Link counts are conserved: every path of link, unlink and create in a directory with links keeps the invariant. */
module LinkTheorems {
  import opened LinkTree

  /** Only the first entry of a directory is called ".". */
  lemma NotDot(nodes: seq<Node>, x: nat, k: nat)
    requires DirsOk(nodes) && x < |nodes| && Live(nodes[x])
    requires 1 <= k < |nodes[x].entries| && nodes[x].entries[k].inum != 0
    ensures NamedAt(nodes, x, k, nodes[x].entries[k].inum)
  {
    assert Dotted(x, nodes[x]) && UniqueNames(nodes[x].entries);
  }

  // ---------- sys_link ----------

  lemma {:induction false} CountKeeps(s: State, s': State, i: nat, m: Short)
    requires i < |s.nodes| && !s.nodes[i].kind.Dir? && s'.nodes == s.nodes[i := s.nodes[i].(nlink := m)]
    ensures forall j: nat :: Total(s'.nodes, j) == Total(s.nodes, j)
  {
    forall j: nat ensures Total(s'.nodes, j) == Total(s.nodes, j) {
      TotalUpdate(s.nodes, i, s'.nodes[i], j);
    }
  }

  /** Nothing about directories changes. */
  lemma SameDirs(nodes: seq<Node>, i: nat, n: Node, place: map<nat, (nat, nat)>)
    requires DirsOk(nodes) && Placed(nodes, place) && i < |nodes|
    requires !nodes[i].kind.Dir? && !n.kind.Dir? && n.entries == nodes[i].entries
    ensures DirsOk(nodes[i := n]) && Placed(nodes[i := n], place)
  {
    var nodes' := nodes[i := n];
    forall x: nat, k: nat, d: nat ensures ChildAt(nodes', x, k, d) <==> ChildAt(nodes, x, k, d) {
    }
    PlacedFrame(nodes, nodes', place);
  }

  /** Changing the count of a file or device along with the links in progress. */
  lemma NlinkKeeps(s: State, s': State, i: nat, m: Short, place: map<nat, (nat, nat)>)
    requires Inv(s, place) && CanBegin(s, i) && s'.nodes == s.nodes[i := s.nodes[i].(nlink := m)]
    requires m == Total(s.nodes, i) + s'.pending[i] && forall j: nat :: j != i ==> s'.pending[j] == s.pending[j]
    ensures Inv(s', place)
  {
    CountKeeps(s, s', i, m);
    SameDirs(s.nodes, i, s'.nodes[i], place);
    forall j: nat | j in s'.pending ensures j == i || j in s.pending {
    }
  }

  lemma BeginKeeps(s: State, i: nat, place: map<nat, (nat, nat)>)
    requires Inv(s, place) && CanBegin(s, i) && s.nodes[i].nlink < 0x7FFF
    ensures Inv(Begun(s, i), place)
  {
    NlinkKeeps(s, Begun(s, i), i, s.nodes[i].nlink + 1, place);
  }

  /** The count wraps: sys_link keeps it right exactly when the inode has fewer than 0x7FFF links. */
  lemma BeginExact(s: State, i: nat, place: map<nat, (nat, nat)>)
    requires Inv(s, place) && CanBegin(s, i)
    ensures CountsOk(Begun(s, i)) <==> s.nodes[i].nlink < 0x7FFF
  {
    if s.nodes[i].nlink < 0x7FFF {
      BeginKeeps(s, i, place);
    } else {
      assert Begun(s, i).nodes[i].nlink == -0x8000;
    }
  }

  lemma AbortKeeps(s: State, i: nat, place: map<nat, (nat, nat)>)
    requires Inv(s, place) && i in s.pending
    ensures i < |s.nodes| && s.nodes[i].nlink > 0 && Inv(Aborted(s, i), place)
  {
    NlinkKeeps(s, Aborted(s, i), i, s.nodes[i].nlink - 1, place);
  }

  /** An entry added to a directory with links counts. */
  lemma EnterCounts(n: Node, e: Entry, m: Short, j: nat)
    requires Live(n) && m > 0 && e.inum != 0 && !Same(e.name, ".")
    ensures From(WithEntry(n, e).(nlink := m), j) == From(n, j) + (if j == e.inum then 1 else 0)
  {
    CountEnter(n.entries, e, j);
  }

  /** It takes a place behind "." and "..", and its name is new. */
  lemma EnterDirs(nodes: seq<Node>, dp: nat, e: Entry, m: Short)
    requires DirsOk(nodes) && dp < |nodes| && Live(nodes[dp]) && 0 < e.inum < |nodes|
    requires Find(nodes[dp].entries, e.name) == |nodes[dp].entries|
    ensures Slot(nodes[dp].entries) >= 2 && !Same(e.name, ".") && Enter(nodes[dp].entries, e)[1] == nodes[dp].entries[1]
    ensures DirsOk(nodes[dp := WithEntry(nodes[dp], e).(nlink := m)])
  {
    var es := nodes[dp].entries;
    assert Dotted(dp, nodes[dp]) && UniqueNames(es) && InRange(es, |nodes|);
    assert es[0].inum != 0 && es[1].inum != 0;
    UniqueEnter(es, e);
    assert InRange(Enter(es, e), |nodes|);
  }

  lemma EnterPlaced(nodes: seq<Node>, dp: nat, e: Entry, place: map<nat, (nat, nat)>)
    requires Placed(nodes, place) && dp < |nodes| && Live(nodes[dp]) && |nodes[dp].entries| >= 2 && 0 < e.inum < |nodes|
    requires Slot(nodes[dp].entries) >= 2 && !nodes[e.inum].kind.Dir?
    ensures Placed(nodes[dp := WithEntry(nodes[dp], e)], place)
  {
    var nodes' := nodes[dp := WithEntry(nodes[dp], e)];
    forall x: nat, k: nat, d: nat ensures ChildAt(nodes', x, k, d) <==> ChildAt(nodes, x, k, d) {
    }
    PlacedFrame(nodes, nodes', place);
  }

  /** One more name of e.inum in the directory dp, whose own count becomes m. */
  lemma EnterTotals(nodes: seq<Node>, dp: nat, e: Entry, m: Short)
    requires dp < |nodes| && Live(nodes[dp]) && m > 0 && e.inum != 0 && !Same(e.name, ".")
    ensures forall j: nat ::
      Total(nodes[dp := WithEntry(nodes[dp], e).(nlink := m)], j) == Total(nodes, j) + (if j == e.inum then 1 else 0)
  {
    var n := WithEntry(nodes[dp], e).(nlink := m);
    forall j: nat ensures Total(nodes[dp := n], j) == Total(nodes, j) + (if j == e.inum then 1 else 0) {
      TotalUpdate(nodes, dp, n, j);
      EnterCounts(nodes[dp], e, m, j);
    }
  }

  lemma CommitCounts(s: State, i: nat, dp: nat, name: seq<char>)
    requires CountsOk(s) && KindsOk(s) && i in s.pending
    requires CanEnter(s, dp, name) && s.nodes[dp].nlink > 0 && !Same(name, ".")
    ensures CountsOk(Committed(s, i, dp, name)) && KindsOk(Committed(s, i, dp, name))
  {
    EnterTotals(s.nodes, dp, Entry(i, name), s.nodes[dp].nlink);
    var t := Committed(s, i, dp, name);
    assert t.nodes[dp] == WithEntry(s.nodes[dp], Entry(i, name)).(nlink := s.nodes[dp].nlink);
    assert forall j: nat :: j in t.pending ==> j in s.pending;
  }

  lemma CommitKeeps(s: State, i: nat, dp: nat, name: seq<char>, place: map<nat, (nat, nat)>)
    requires Inv(s, place) && i in s.pending && CanEnter(s, dp, name) && s.nodes[dp].nlink > 0
    ensures Inv(Committed(s, i, dp, name), place)
  {
    var e := Entry(i, name);
    assert Dotted(dp, s.nodes[dp]);
    EnterDirs(s.nodes, dp, e, s.nodes[dp].nlink);
    EnterPlaced(s.nodes, dp, e, place);
    CommitCounts(s, i, dp, name);
    assert WithEntry(s.nodes[dp], e) == WithEntry(s.nodes[dp], e).(nlink := s.nodes[dp].nlink);
  }

  // ---------- sys_unlink ----------

  /** What sys_unlink finds: an entry behind "." and "..", of an inode with links that is not the directory itself, so
      its panic is out of reach. */
  lemma UnlinkSafe(s: State, dp: nat, k: nat, place: map<nat, (nat, nat)>)
    requires Inv(s, place) && dp < |s.nodes| && Live(s.nodes[dp]) && k < |s.nodes[dp].entries|
    requires var e := s.nodes[dp].entries[k]; e.inum != 0 && !Same(e.name, ".") && !Same(e.name, "..")
    ensures var i := s.nodes[dp].entries[k].inum;
      k >= 2 && i < |s.nodes| && i != dp && s.nodes[i].nlink >= 1 && NamedAt(s.nodes, dp, k, i)
  {
    var i := s.nodes[dp].entries[k].inum;
    assert Dotted(dp, s.nodes[dp]) && InRange(s.nodes[dp].entries, |s.nodes|);
    NotDot(s.nodes, dp, k);
    TotalOne(s.nodes, i, dp, k);
    assert i == dp ==> ChildAt(s.nodes, dp, k, dp);
    assert HomeAt(s.nodes, place, dp);
  }

  /** One name less of inode i in the directory dp, whose own count becomes m. */
  lemma EraseTotals(nodes: seq<Node>, dp: nat, k: nat, m: Short, i: nat)
    requires NamedAt(nodes, dp, k, i) && m > 0
    ensures forall j: nat ::
      Total(nodes[dp := Node(Dir, m, nodes[dp].entries[k := EMPTY])], j) == Total(nodes, j) - (if j == i then 1 else 0)
  {
    var n := Node(Dir, m, nodes[dp].entries[k := EMPTY]);
    forall j: nat ensures Total(nodes[dp := n], j) == Total(nodes, j) - (if j == i then 1 else 0) {
      TotalUpdate(nodes, dp, n, j);
      CountUpdate(nodes[dp].entries, k, EMPTY, j);
    }
  }

  lemma EraseDirs(nodes: seq<Node>, dp: nat, k: nat, m: Short)
    requires DirsOk(nodes) && dp < |nodes| && Live(nodes[dp]) && 2 <= k < |nodes[dp].entries|
    ensures DirsOk(nodes[dp := Node(Dir, m, nodes[dp].entries[k := EMPTY])])
  {
    var es := nodes[dp].entries;
    assert Dotted(dp, nodes[dp]) && UniqueNames(es) && InRange(es, |nodes|);
    UniqueErase(es, k);
    assert InRange(es[k := EMPTY], |nodes|);
  }

  lemma EraseFilePlaced(nodes: seq<Node>, dp: nat, k: nat, place: map<nat, (nat, nat)>)
    requires Placed(nodes, place) && dp < |nodes| && Live(nodes[dp]) && 2 <= k < |nodes[dp].entries|
    requires var i := nodes[dp].entries[k].inum; i < |nodes| && !nodes[i].kind.Dir?
    ensures Placed(nodes[dp := Node(Dir, nodes[dp].nlink, nodes[dp].entries[k := EMPTY])], place)
  {
    var nodes' := nodes[dp := Node(Dir, nodes[dp].nlink, nodes[dp].entries[k := EMPTY])];
    forall x: nat, j: nat, d: nat ensures ChildAt(nodes', x, j, d) <==> ChildAt(nodes, x, j, d) {
    }
    PlacedFrame(nodes, nodes', place);
  }

  lemma UnlinkedParts(s: State, dp: nat, k: nat, i: nat)
    requires CanUnlink(s, dp, k) && i == s.nodes[dp].entries[k].inum
    ensures var m := if s.nodes[i].kind.Dir? then s.nodes[dp].nlink - 1 else s.nodes[dp].nlink;
      Unlinked(s, dp, k) == State(Erased(s.nodes, dp, k, m, i, s.nodes[i].nlink - 1), s.pending)
  {
  }

  function Erased(nodes: seq<Node>, dp: nat, k: nat, m: Short, i: nat, c: Short): seq<Node>
    requires dp < |nodes| && k < |nodes[dp].entries| && i < |nodes|
  {
    nodes[dp := Node(Dir, m, nodes[dp].entries[k := EMPTY])][i := nodes[i].(nlink := c)]
  }

  lemma UnlinkFileShape(nodes: seq<Node>, nodes': seq<Node>, dp: nat, k: nat, i: nat, c: Short, place: map<nat, (nat,
      nat)>)
    requires DirsOk(nodes) && Placed(nodes, place) && dp < |nodes| && Live(nodes[dp]) && 2 <= k < |nodes[dp].entries|
    requires i == nodes[dp].entries[k].inum && i < |nodes| && i != dp && !nodes[i].kind.Dir?
    requires nodes' == Erased(nodes, dp, k, nodes[dp].nlink, i, c)
    ensures DirsOk(nodes') && Placed(nodes', place)
  {
    var mid := nodes[dp := Node(Dir, nodes[dp].nlink, nodes[dp].entries[k := EMPTY])];
    EraseDirs(nodes, dp, k, nodes[dp].nlink);
    EraseFilePlaced(nodes, dp, k, place);
    SameDirs(mid, i, nodes[i].(nlink := c), place);
  }

  lemma UnlinkFileNums(s: State, t: State, dp: nat, k: nat, i: nat)
    requires CountsOk(s) && KindsOk(s) && NamedAt(s.nodes, dp, k, i) && i < |s.nodes|
    requires i != dp && !s.nodes[i].kind.Dir? && s.nodes[i].nlink > 0
    requires t == State(Erased(s.nodes, dp, k, s.nodes[dp].nlink, i, s.nodes[i].nlink - 1), s.pending)
    ensures CountsOk(t) && KindsOk(t)
  {
    var mid := s.nodes[dp := Node(Dir, s.nodes[dp].nlink, s.nodes[dp].entries[k := EMPTY])];
    EraseTotals(s.nodes, dp, k, s.nodes[dp].nlink, i);
    UnlinkFileCounts(s, mid, i, s.nodes[i].(nlink := s.nodes[i].nlink - 1));
  }

  lemma UnlinkFileKeeps(s: State, dp: nat, k: nat, i: nat, place: map<nat, (nat, nat)>)
    requires Inv(s, place) && CanUnlink(s, dp, k) && s.nodes[dp].nlink > 0
    requires i == s.nodes[dp].entries[k].inum && !s.nodes[i].kind.Dir?
    ensures Inv(Unlinked(s, dp, k), place)
  {
    UnlinkSafe(s, dp, k, place);
    UnlinkedParts(s, dp, k, i);
    var t := Unlinked(s, dp, k);
    UnlinkFileShape(s.nodes, t.nodes, dp, k, i, s.nodes[i].nlink - 1, place);
    UnlinkFileNums(s, t, dp, k, i);
  }

  lemma UnlinkFileCounts(s: State, mid: seq<Node>, i: nat, n: Node)
    requires CountsOk(s) && KindsOk(s) && |mid| == |s.nodes| && i < |mid| && !mid[i].kind.Dir? && mid[i] == s.nodes[i]
    requires forall j: nat :: Total(mid, j) == Total(s.nodes, j) - (if j == i then 1 else 0)
    requires forall j: nat :: j < |mid| ==> mid[j].kind == s.nodes[j].kind && mid[j].nlink == s.nodes[j].nlink
    requires mid[i].nlink > 0 && n == mid[i].(nlink := mid[i].nlink - 1)
    ensures CountsOk(State(mid[i := n], s.pending)) && KindsOk(State(mid[i := n], s.pending))
  {
    forall j: nat ensures Total(mid[i := n], j) == Total(mid, j) {
      TotalUpdate(mid, i, n, j);
    }
  }

  /** An empty directory has a single name that counts. */
  lemma EmptyDirNames(nodes: seq<Node>, dp: nat, k: nat, i: nat, place: map<nat, (nat, nat)>, x: nat, m: nat)
    requires DirsOk(nodes) && Placed(nodes, place) && ChildAt(nodes, dp, k, i)
    requires Live(nodes[i]) && NoMore(nodes[i].entries)
    requires NamedAt(nodes, x, m, i)
    ensures x == dp && m == k
  {
    assert Dotted(x, nodes[x]) && HomeAt(nodes, place, x) && DotDotAt(nodes, place, x);
    assert m >= 2 ==> ChildAt(nodes, x, m, i);
  }

  lemma EmptyDirTotal(nodes: seq<Node>, dp: nat, k: nat, i: nat, place: map<nat, (nat, nat)>)
    requires DirsOk(nodes) && Placed(nodes, place) && ChildAt(nodes, dp, k, i)
    requires Live(nodes[i]) && NoMore(nodes[i].entries)
    requires i != dp && NamedAt(nodes, dp, k, i)
    ensures Total(nodes, i) == 1
  {
    var mid := nodes[dp := Node(Dir, nodes[dp].nlink, nodes[dp].entries[k := EMPTY])];
    forall x: nat, m: nat ensures !NamedAt(mid, x, m, i) {
      if NamedAt(nodes, x, m, i) {
        EmptyDirNames(nodes, dp, k, i, place, x, m);
      }
    }
    TotalZero(mid, i);
    EraseTotals(nodes, dp, k, nodes[dp].nlink, i);
  }

  /** An empty directory contributes its ".." alone. */
  lemma {:induction false} EmptyDirFrom(es: seq<Entry>, j: nat)
    requires |es| >= 2 && Same(es[0].name, ".") && NoMore(es)
    ensures CountIn(es, j) == if Names(es[1], j) then 1 else 0
  {
    var n := |es| - 1;
    if n == 1 {
      CountZero(es[..1], j);
    } else {
      EmptyDirFrom(es[..n], j);
    }
  }

  /** The parent of an empty directory has another name: its own, or the root's "..". */
  lemma ParentTotal(nodes: seq<Node>, dp: nat, k: nat, i: nat, place: map<nat, (nat, nat)>)
    requires DirsOk(nodes) && Placed(nodes, place) && ChildAt(nodes, dp, k, i)
    requires Live(nodes[i]) && NoMore(nodes[i].entries) && i != dp
    ensures Total(nodes, dp) >= 2 && nodes[i].entries[1].inum == dp && NamedAt(nodes, i, 1, dp)
  {
    assert Dotted(i, nodes[i]) && Dotted(dp, nodes[dp]) && place[i] == (dp, k);
    assert DotDotAt(nodes, place, i) && DotDotAt(nodes, place, dp) && HomeAt(nodes, place, dp);
    NotDot(nodes, i, 1);
    if dp == ROOT {
      NotDot(nodes, dp, 1);
      TotalTwo(nodes, dp, i, 1, dp, 1);
    } else {
      var (x, m) := place[dp];
      assert ChildAt(nodes, x, m, dp) && x != i;
      NotDot(nodes, x, m);
      TotalTwo(nodes, dp, i, 1, x, m);
    }
  }

  lemma UnlinkDirDirs(nodes: seq<Node>, dp: nat, k: nat, m: Short, i: nat)
    requires DirsOk(nodes) && dp < |nodes| && Live(nodes[dp]) && 2 <= k < |nodes[dp].entries| && i < |nodes| && i != dp
    ensures DirsOk(Erased(nodes, dp, k, m, i, 0))
  {
    EraseDirs(nodes, dp, k, m);
  }

  lemma UnlinkDirChild(nodes: seq<Node>, dp: nat, k: nat, m: Short, i: nat, x: nat, c: nat, d: nat)
    requires dp < |nodes| && Live(nodes[dp]) && k < |nodes[dp].entries|
    requires i < |nodes| && i != dp && m > 0 && NoMore(nodes[i].entries)
    requires nodes[dp].entries[k].inum == i
    ensures ChildAt(Erased(nodes, dp, k, m, i, 0), x, c, d) <==> ChildAt(nodes, x, c, d) && !(x == dp && c == k)
  {
  }

  lemma UnlinkDirPlaced(nodes: seq<Node>, nodes': seq<Node>, dp: nat, k: nat, i: nat, place: map<nat, (nat, nat)>)
    requires Placed(nodes, place) && |nodes'| == |nodes| && ChildAt(nodes, dp, k, i)
    requires forall x: nat, c: nat, d: nat :: ChildAt(nodes', x, c, d) <==>
      ChildAt(nodes, x, c, d) && !(x == dp && c == k)
    requires forall d: nat :: d < |nodes| ==> Live(nodes'[d]) == (Live(nodes[d]) && d != i)
    requires forall d: nat :: d < |nodes| && |nodes'[d].entries| >= 2 ==>
      |nodes[d].entries| >= 2 && nodes'[d].entries[1] == nodes[d].entries[1]
    ensures Placed(nodes', place - {i})
  {
    var place' := place - {i};
    assert place[i] == (dp, k);
    forall d: nat ensures HomeAt(nodes', place', d) && DotDotAt(nodes', place', d) {
      assert HomeAt(nodes, place, d) && DotDotAt(nodes, place, d);
    }
    forall x: nat, c: nat, d: nat | ChildAt(nodes', x, c, d) ensures d != ROOT && d in place' && place'[d] == (x, c) {
      assert ChildAt(nodes, x, c, d);
    }
  }

  lemma UnlinkDirCounts(s: State, t: State, dp: nat, k: nat, i: nat)
    requires CountsOk(s) && KindsOk(s) && NamedAt(s.nodes, dp, k, i) && i < |s.nodes|
    requires i != dp && i != ROOT && Live(s.nodes[i]) && s.nodes[i].nlink == 1
    requires s.nodes[dp].nlink >= 2 && |s.nodes[i].entries| >= 2
    requires Same(s.nodes[i].entries[0].name, ".") && NoMore(s.nodes[i].entries)
    requires forall j: nat :: Names(s.nodes[i].entries[1], j) <==> j == dp
    requires t == State(Erased(s.nodes, dp, k, s.nodes[dp].nlink - 1, i, 0), s.pending)
    ensures CountsOk(t) && KindsOk(t)
  {
    var m := s.nodes[dp].nlink - 1;
    var mid := s.nodes[dp := Node(Dir, m, s.nodes[dp].entries[k := EMPTY])];
    EraseTotals(s.nodes, dp, k, m, i);
    forall j: nat ensures Total(mid[i := s.nodes[i].(nlink := 0)], j) == Total(mid, j) - (if j == dp then 1 else 0) {
      TotalUpdate(mid, i, s.nodes[i].(nlink := 0), j);
      EmptyDirFrom(s.nodes[i].entries, j);
    }
  }

  lemma UnlinkDirShape(nodes: seq<Node>, nodes': seq<Node>, dp: nat, k: nat, m: Short, i: nat, place: map<nat, (nat,
      nat)>)
    requires DirsOk(nodes) && Placed(nodes, place) && ChildAt(nodes, dp, k, i)
    requires i != dp && m > 0 && NoMore(nodes[i].entries)
    requires nodes' == Erased(nodes, dp, k, m, i, 0)
    ensures DirsOk(nodes') && Placed(nodes', place - {i})
  {
    UnlinkDirDirs(nodes, dp, k, m, i);
    forall x: nat, c: nat, d: nat
      ensures ChildAt(nodes', x, c, d) <==> ChildAt(nodes, x, c, d) && !(x == dp && c == k)
    {
      UnlinkDirChild(nodes, dp, k, m, i, x, c, d);
    }
    UnlinkDirPlaced(nodes, nodes', dp, k, i, place);
  }

  lemma UnlinkDirNums(s: State, dp: nat, k: nat, i: nat, place: map<nat, (nat, nat)>)
    requires Inv(s, place) && ChildAt(s.nodes, dp, k, i) && NamedAt(s.nodes, dp, k, i)
    requires i != dp && Live(s.nodes[i]) && NoMore(s.nodes[i].entries)
    ensures s.nodes[i].nlink == 1 && s.nodes[dp].nlink >= 2 && i != ROOT && Dotted(i, s.nodes[i])
    ensures forall j: nat :: Names(s.nodes[i].entries[1], j) <==> j == dp
  {
    assert Dotted(i, s.nodes[i]);
    EmptyDirTotal(s.nodes, dp, k, i, place);
    ParentTotal(s.nodes, dp, k, i, place);
    assert s.pending[i] == 0;
  }

  lemma ErasedDirKeeps(s: State, t: State, dp: nat, k: nat, i: nat, m: Short, place: map<nat, (nat, nat)>)
    requires Inv(s, place) && ChildAt(s.nodes, dp, k, i) && NamedAt(s.nodes, dp, k, i) && i != dp
    requires Live(s.nodes[i]) && NoMore(s.nodes[i].entries)
    requires m == s.nodes[dp].nlink - 1 && t == State(Erased(s.nodes, dp, k, m, i, s.nodes[i].nlink - 1), s.pending)
    ensures Inv(t, place - {i})
  {
    UnlinkDirNums(s, dp, k, i, place);
    UnlinkDirCounts(s, t, dp, k, i);
    UnlinkDirShape(s.nodes, t.nodes, dp, k, m, i, place);
  }

  /** Removing an empty directory takes its ".." out of the count of its parent as well. */
  lemma UnlinkDirKeeps(s: State, dp: nat, k: nat, i: nat, place: map<nat, (nat, nat)>)
    requires Inv(s, place) && CanUnlink(s, dp, k) && s.nodes[dp].nlink > 0
    requires i == s.nodes[dp].entries[k].inum && s.nodes[i].kind.Dir?
    ensures Inv(Unlinked(s, dp, k), place - {i})
  {
    UnlinkSafe(s, dp, k, place);
    UnlinkedParts(s, dp, k, i);
    ErasedDirKeeps(s, Unlinked(s, dp, k), dp, k, i, s.nodes[dp].nlink - 1, place);
  }

  // ---------- create, and inodes nothing names ----------

  /** Nothing in use names an inode without links. */
  lemma Unnamed(s: State, i: nat, x: nat, k: nat, place: map<nat, (nat, nat)>)
    requires Inv(s, place) && 0 < i < |s.nodes| && s.nodes[i].nlink == 0
    requires x < |s.nodes| && Live(s.nodes[x]) && k < |s.nodes[x].entries|
    ensures s.nodes[x].entries[k].inum != i
  {
    assert Dotted(x, s.nodes[x]);
    if s.nodes[x].entries[k].inum == i && k >= 1 {
      NotDot(s.nodes, x, k);
      TotalOne(s.nodes, i, x, k);
    }
  }

  /** An inode without links can be freed, or hold what a failed create left in it. */
  lemma ReplacedKeeps(s: State, i: nat, n: Node, place: map<nat, (nat, nat)>)
    requires Inv(s, place) && 0 < i < |s.nodes| && s.nodes[i].nlink == 0 && n.nlink == 0 && UniqueNames(n.entries)
    ensures Inv(Replaced(s, i, n), place)
  {
    var t := Replaced(s, i, n);
    forall j: nat ensures Total(t.nodes, j) == Total(s.nodes, j) {
      TotalUpdate(s.nodes, i, n, j);
    }
    forall x: nat, k: nat, d: nat ensures ChildAt(t.nodes, x, k, d) <==> ChildAt(s.nodes, x, k, d) {
      if d == i && x < |s.nodes| && Live(s.nodes[x]) && k < |s.nodes[x].entries| {
        Unnamed(s, i, x, k, place);
      }
    }
    PlacedFrame(s.nodes, t.nodes, place);
    assert i !in s.pending;
  }

  /** A new file or device has one name, unless the directory has been removed. */
  lemma MadeFileTotals(s: State, dp: nat, name: seq<char>, i: nat, kind: Kind)
    requires CanCreate(s, dp, name, i) && !kind.Dir? && (s.nodes[dp].nlink == 0 || !Same(name, "."))
    ensures forall j: nat ::
      Total(MadeFile(s, dp, name, i, kind).nodes, j) == Total(s.nodes, j) + (if j ==
        i && s.nodes[dp].nlink > 0 then 1 else 0)
  {
    var n, e := Node(kind, 1, []), Entry(i, name);
    var mid := s.nodes[i := n];
    forall j: nat
      ensures Total(mid[dp := WithEntry(mid[dp], e)], j) == Total(s.nodes, j) + (if j ==
        i && s.nodes[dp].nlink > 0 then 1 else 0)
    {
      TotalUpdate(s.nodes, i, n, j);
      TotalUpdate(mid, dp, WithEntry(mid[dp], e), j);
      CountEnter(mid[dp].entries, e, j);
    }
  }

  lemma MadeFileShape(nodes: seq<Node>, dp: nat, e: Entry, n: Node, place: map<nat, (nat, nat)>)
    requires DirsOk(nodes) && Placed(nodes, place) && dp < |nodes|
    requires Live(nodes[dp]) && 0 < e.inum < |nodes| && e.inum != dp
    requires Find(nodes[dp].entries, e.name) == |nodes[dp].entries|
    requires !nodes[e.inum].kind.Dir? && !n.kind.Dir? && n.entries == []
    ensures DirsOk(nodes[e.inum := n][dp := WithEntry(nodes[dp], e)])
    ensures Placed(nodes[e.inum := n][dp := WithEntry(nodes[dp], e)], place)
  {
    var mid := nodes[e.inum := n];
    assert UniqueNames(n.entries) && Dotted(dp, nodes[dp]);
    assert DirsOk(mid);
    forall x: nat, k: nat, d: nat ensures ChildAt(mid, x, k, d) <==> ChildAt(nodes, x, k, d) {
    }
    PlacedFrame(nodes, mid, place);
    EnterDirs(mid, dp, e, nodes[dp].nlink);
    EnterPlaced(mid, dp, e, place);
    assert WithEntry(nodes[dp], e) == WithEntry(nodes[dp], e).(nlink := nodes[dp].nlink);
  }

  lemma MadeFileNums(s: State, dp: nat, name: seq<char>, i: nat, kind: Kind)
    requires CountsOk(s) && KindsOk(s) && CanCreate(s, dp, name, i) && (kind.File? || kind.Device?)
    requires s.nodes[dp].nlink > 0 && !Same(name, ".")
    ensures CountsOk(MadeFile(s, dp, name, i, kind)) && KindsOk(MadeFile(s, dp, name, i, kind))
  {
    MadeFileTotals(s, dp, name, i, kind);
    assert i !in s.pending;
  }

  lemma MadeFileKeeps(s: State, dp: nat, name: seq<char>, i: nat, kind: Kind, place: map<nat, (nat, nat)>)
    requires Inv(s, place) && CanCreate(s, dp, name, i) && (kind.File? || kind.Device?) && s.nodes[dp].nlink > 0
    ensures Inv(MadeFile(s, dp, name, i, kind), place)
  {
    var t := MadeFile(s, dp, name, i, kind);
    assert DirsOk(t.nodes) && Placed(t.nodes, place) by {
      MadeFileShape(s.nodes, dp, Entry(i, name), Node(kind, 1, []), place);
    }
    assert !Same(name, ".") by {
      assert Dotted(dp, s.nodes[dp]);
      assert s.nodes[dp].entries[0].inum != 0;
    }
    MadeFileNums(s, dp, name, i, kind);
  }

  lemma MadeDirParts(s: State, dp: nat, name: seq<char>, i: nat)
    requires CanCreate(s, dp, name, i) && s.nodes[dp].nlink < 0x7FFF
    ensures MadeDir(s, dp, name, i) == State(WithDir(s.nodes, dp, name, i, s.nodes[dp].nlink + 1), s.pending)
  {
  }

  function WithDir(nodes: seq<Node>, dp: nat, name: seq<char>, i: nat, m: Short): seq<Node>
    requires dp < |nodes| && i < |nodes|
  {
    nodes[i := Node(Dir, 1, NewDir(i, dp))][dp := WithEntry(nodes[dp], Entry(i, name)).(nlink := m)]
  }

  /** A new directory has its name, and its parent the new "..". */
  lemma MadeDirTotals(nodes: seq<Node>, dp: nat, name: seq<char>, i: nat, m: Short)
    requires 0 < dp < |nodes| && 0 < i < |nodes| && nodes[i].kind.Free? && Live(nodes[dp]) && m > 0 && !Same(name, ".")
    ensures forall j: nat ::
      Total(WithDir(nodes, dp, name, i, m), j) == Total(nodes, j) + (if j == i then 1 else 0) + (if j == dp then 1
        else 0)
  {
    var n, e := Node(Dir, 1, NewDir(i, dp)), Entry(i, name);
    var mid := nodes[i := n];
    forall j: nat ensures Total(mid, j) == Total(nodes, j) + (if j == dp then 1 else 0) {
      TotalUpdate(nodes, i, n, j);
      EmptyDirFrom(n.entries, j);
    }
    EnterTotals(mid, dp, e, m);
  }

  lemma MadeDirDirs(nodes: seq<Node>, nodes': seq<Node>, dp: nat, e: Entry, n: Node, m: Short)
    requires DirsOk(nodes) && dp < |nodes| && Live(nodes[dp]) && 0 < e.inum < |nodes| && e.inum != dp
    requires Find(nodes[dp].entries, e.name) == |nodes[dp].entries| && n == Node(Dir, 1, NewDir(e.inum, dp))
    requires nodes' == nodes[e.inum := n][dp := WithEntry(nodes[dp], e).(nlink := m)]
    ensures DirsOk(nodes') && Slot(nodes[dp].entries) >= 2 && !Same(e.name, ".")
    ensures dp != 0 && |nodes[dp].entries| >= 2
  {
    assert Dotted(dp, nodes[dp]) && Dotted(e.inum, n) && InRange(n.entries, |nodes|);
    assert UniqueNames(n.entries);
    assert DirsOk(nodes[e.inum := n]);
    EnterDirs(nodes[e.inum := n], dp, e, m);
  }

  lemma MadeDirPlaced(nodes: seq<Node>, nodes': seq<Node>, dp: nat, k: nat, i: nat, place: map<nat, (nat, nat)>)
    requires Placed(nodes, place) && |nodes'| == |nodes| && dp < |nodes| && i < |nodes| && i != dp && i != ROOT
    requires forall x: nat, c: nat, d: nat :: ChildAt(nodes', x, c, d) <==>
      ChildAt(nodes, x, c, d) || (x == dp && c == k && d == i)
    requires !nodes[i].kind.Dir? && nodes'[i].entries == NewDir(i, dp)
    requires forall d: nat :: d < |nodes| && d != i ==> Live(nodes'[d]) == Live(nodes[d])
    requires forall d: nat :: d < |nodes| && d != i && Live(nodes[d]) && |nodes'[d].entries| >= 2 ==>
      |nodes[d].entries| >= 2 && nodes'[d].entries[1] == nodes[d].entries[1]
    ensures Placed(nodes', place[i := (dp, k)])
  {
    var place' := place[i := (dp, k)];
    forall d: nat ensures HomeAt(nodes', place', d) && DotDotAt(nodes', place', d) {
      assert HomeAt(nodes, place, d) && DotDotAt(nodes, place, d);
      assert ChildAt(nodes', dp, k, i);
    }
  }

  lemma MadeDirChild(s: State, dp: nat, name: seq<char>, i: nat, place: map<nat, (nat, nat)>, x: nat, c: nat, d: nat)
    requires Inv(s, place) && CanCreate(s, dp, name, i)
    requires 0 < s.nodes[dp].nlink < 0x7FFF && Slot(s.nodes[dp].entries) >= 2
    ensures ChildAt(WithDir(s.nodes, dp, name, i, s.nodes[dp].nlink + 1), x, c, d) <==>
      ChildAt(s.nodes, x, c, d) || (x == dp && c == Slot(s.nodes[dp].entries) && d == i)
  {
    if x < |s.nodes| && Live(s.nodes[x]) && c < |s.nodes[x].entries| {
      Unnamed(s, i, x, c, place);
    }
  }

  lemma MadeDirNums(s: State, t: State, dp: nat, name: seq<char>, i: nat)
    requires CountsOk(s) && KindsOk(s) && CanCreate(s, dp, name, i) && 0 < s.nodes[dp].nlink < 0x7FFF
    requires !Same(name, ".") && dp != 0 && t == State(WithDir(s.nodes, dp, name, i, s.nodes[dp].nlink + 1), s.pending)
    ensures CountsOk(t) && KindsOk(t)
  {
    MadeDirTotals(s.nodes, dp, name, i, s.nodes[dp].nlink + 1);
    assert i !in s.pending;
  }

  lemma MadeDirHomes(s: State, t: State, dp: nat, k: nat, name: seq<char>, i: nat, place: map<nat, (nat, nat)>)
    requires Inv(s, place) && CanCreate(s, dp, name, i) && 0 < s.nodes[dp].nlink < 0x7FFF
    requires k == Slot(s.nodes[dp].entries) && k >= 2 && |s.nodes[dp].entries| >= 2
    requires t == State(WithDir(s.nodes, dp, name, i, s.nodes[dp].nlink + 1), s.pending)
    ensures Placed(t.nodes, place[i := (dp, k)])
  {
    forall x: nat, c: nat, d: nat
      ensures ChildAt(t.nodes, x, c, d) <==> ChildAt(s.nodes, x, c, d) || (x == dp && c == k && d == i)
    {
      MadeDirChild(s, dp, name, i, place, x, c, d);
    }
    MadeDirPlaced(s.nodes, t.nodes, dp, k, i, place);
  }

  /** Making a directory: its name is its home from now on. */
  lemma MadeDirKeeps(s: State, dp: nat, name: seq<char>, i: nat, place: map<nat, (nat, nat)>)
    requires Inv(s, place) && CanCreate(s, dp, name, i) && 0 < s.nodes[dp].nlink < 0x7FFF
    ensures Inv(MadeDir(s, dp, name, i), place[i := (dp, Slot(s.nodes[dp].entries))])
  {
    var t := MadeDir(s, dp, name, i);
    MadeDirParts(s, dp, name, i);
    MadeDirDirs(s.nodes, t.nodes, dp, Entry(i, name), Node(Dir, 1, NewDir(i, dp)), s.nodes[dp].nlink + 1);
    MadeDirHomes(s, t, dp, Slot(s.nodes[dp].entries), name, i, place);
    MadeDirNums(s, t, dp, name, i);
  }

  // ---------- How many links a directory can have ----------

  /** Only entries 1 and k name i. */
  lemma {:induction false} CountAtMost(es: seq<Entry>, i: nat, k: nat)
    requires forall j :: 0 <= j < |es| && Names(es[j], i) ==> j == 1 || j == k
    ensures CountIn(es, i) <= (if |es| > 1 then 1 else 0) + (if k < |es| then 1 else 0)
  {
    if |es| > 0 {
      CountAtMost(es[..|es| - 1], i, k);
    }
  }

  lemma {:induction false} TotalAtMost(nodes: seq<Node>, i: nat, h: nat)
    requires forall x :: 0 <= x < |nodes| ==> From(nodes[x], i) <= 1 + (if x == h then 1 else 0)
    ensures Total(nodes, i) <= |nodes| + (if h < |nodes| then 1 else 0)
  {
    if |nodes| > 0 {
      TotalAtMost(nodes[..|nodes| - 1], i, h);
    }
  }

  lemma DirNamesIn(nodes: seq<Node>, d: nat, x: nat, place: map<nat, (nat, nat)>)
    requires DirsOk(nodes) && Placed(nodes, place) && d < |nodes| && nodes[d].kind.Dir? && x < |nodes|
    ensures From(nodes[x], d) <= 1 + (if d in place && x == place[d].0 then 1 else 0)
  {
    var home := d in place && x == place[d].0;
    var k := if home then place[d].1 else |nodes[x].entries|;
    if Live(nodes[x]) {
      assert Dotted(x, nodes[x]);
      forall j | 0 <= j < |nodes[x].entries| && Names(nodes[x].entries[j], d) ensures j == 1 || j == k {
        assert j >= 2 ==> ChildAt(nodes, x, j, d);
      }
      CountAtMost(nodes[x].entries, d, k);
    }
  }

  /** A directory has one name, and one ".." per subdirectory: mkdir cannot wrap its count, as mkfs makes only
      a few hundred inodes. */
  lemma DirLinksBounded(s: State, d: nat, place: map<nat, (nat, nat)>)
    requires Inv(s, place) && d < |s.nodes| && s.nodes[d].kind.Dir?
    ensures s.nodes[d].nlink <= |s.nodes| + 1
  {
    forall x | 0 <= x < |s.nodes|
      ensures From(s.nodes[x], d) <= 1 + (if x == (if d in place then place[d].0 else |s.nodes|) then 1 else 0)
    {
      DirNamesIn(s.nodes, d, x, place);
    }
    TotalAtMost(s.nodes, d, if d in place then place[d].0 else |s.nodes|);
    assert d !in s.pending;
  }

  // ---------- Removed directories ----------

  /** A removed directory that is still open takes new entries, and these do not count: the invariant survives
      create exactly when the directory still has links. */
  lemma MadeFileExact(s: State, dp: nat, name: seq<char>, i: nat, kind: Kind, place: map<nat, (nat, nat)>)
    requires Inv(s, place) && CanCreate(s, dp, name, i) && (kind.File? || kind.Device?)
    ensures CountsOk(MadeFile(s, dp, name, i, kind)) <==> s.nodes[dp].nlink > 0
  {
    if s.nodes[dp].nlink > 0 {
      MadeFileKeeps(s, dp, name, i, kind, place);
    } else {
      MadeFileTotals(s, dp, name, i, kind);
      assert MadeFile(s, dp, name, i, kind).nodes[i].nlink == 1;
    }
  }

  /** The same for the second half of link. */
  lemma CommitExact(s: State, i: nat, dp: nat, name: seq<char>, place: map<nat, (nat, nat)>)
    requires Inv(s, place) && i in s.pending && CanEnter(s, dp, name)
    ensures CountsOk(Committed(s, i, dp, name)) <==> s.nodes[dp].nlink > 0
  {
    if s.nodes[dp].nlink > 0 {
      CommitKeeps(s, i, dp, name, place);
    } else {
      var t := Committed(s, i, dp, name);
      TotalUpdate(s.nodes, dp, t.nodes[dp], i);
      assert t.nodes[i].nlink == s.nodes[i].nlink;
    }
  }

  lemma WrappedCounts(s: State, dp: nat, name: seq<char>, i: nat)
    requires CanCreate(s, dp, name, i) && s.nodes[dp].nlink == 0x7FFF
    ensures !CountsOk(MadeDir(s, dp, name, i))
  {
    assert MadeDir(s, dp, name, i).nodes[dp].nlink == -0x8000;
  }

  lemma RevivedCounts(s: State, dp: nat, name: seq<char>, i: nat, p: nat)
    requires CountsOk(s) && CanCreate(s, dp, name, i) && Dotted(dp, s.nodes[dp]) && s.nodes[dp].nlink == 0
    requires p == s.nodes[dp].entries[1].inum && p < |s.nodes|
    ensures !CountsOk(MadeDir(s, dp, name, i))
  {
    var n, e := Node(Dir, 1, NewDir(i, dp)), Entry(i, name);
    var mid := s.nodes[i := n];
    var d := WithEntry(s.nodes[dp], e).(nlink := 1);
    TotalUpdate(s.nodes, i, n, p);
    EmptyDirFrom(n.entries, p);
    TotalUpdate(mid, dp, d, p);
    CountEnter(s.nodes[dp].entries, e, p);
    CountOne(s.nodes[dp].entries, p, 1);
    assert MadeDir(s, dp, name, i).nodes == mid[dp := d];
    assert Total(mid[dp := d], p) + s.pending[p] != mid[dp := d][p].nlink;
  }

  /** A new directory inside a removed one brings the removed one back to life, and with it a name its parent never
      counted. */
  lemma MadeDirExact(s: State, dp: nat, name: seq<char>, i: nat, place: map<nat, (nat, nat)>)
    requires Inv(s, place) && CanCreate(s, dp, name, i)
    requires Dotted(dp, s.nodes[dp]) && s.nodes[dp].entries[1].inum < |s.nodes|
    ensures CountsOk(MadeDir(s, dp, name, i)) <==> 0 < s.nodes[dp].nlink < 0x7FFF
  {
    if 0 < s.nodes[dp].nlink < 0x7FFF {
      MadeDirKeeps(s, dp, name, i, place);
    } else if s.nodes[dp].nlink > 0 {
      WrappedCounts(s, dp, name, i);
    } else {
      RevivedCounts(s, dp, name, i, s.nodes[dp].entries[1].inum);
    }
  }
}
