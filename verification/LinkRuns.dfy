/** Runs of link, unlink and create by any number of processes, the two halves of link interleaved with anything
    else. */
module LinkRuns {
  import opened LinkTree
  import opened LinkTheorems

  datatype Step =
    | Begin(i: nat)
    | Commit(i: nat, dp: nat, name: seq<char>)
    | Abort(i: nat)
    | Unlink(dp: nat, k: nat)
    | MakeFile(dp: nat, name: seq<char>, i: nat, kind: Kind)
    | MakeDir(dp: nat, name: seq<char>, i: nat)
    | Leave(i: nat, n: Node)

  /** Nothing in use but "." and "..". */
  predicate Bare(es: seq<Entry>) {
    forall k :: 0 <= k < |es| ==> es[k].inum == 0 || Same(es[k].name, ".") || Same(es[k].name, "..")
  }

  /** Removed directories are bare, so unlink finds nothing in them. */
  ghost predicate RemovedBare(nodes: seq<Node>) {
    forall d: nat :: d < |nodes| && nodes[d].kind.Dir? && nodes[d].nlink == 0 ==>
      Bare(nodes[d].entries) && InRange(nodes[d].entries, |nodes|)
  }

  ghost predicate Good(s: State, place: map<nat, (nat, nat)>) { Inv(s, place) && RemovedBare(s.nodes) }

  /** What sys_unlink checks before it erases entry k of dp. */
  predicate MayUnlink(s: State, dp: nat, k: nat) {
    && dp < |s.nodes| && s.nodes[dp].kind.Dir? && k < |s.nodes[dp].entries|
    && var e := s.nodes[dp].entries[k];
       && e.inum != 0 && !Same(e.name, ".") && !Same(e.name, "..")
       && (e.inum < |s.nodes| && s.nodes[e.inum].kind.Dir? ==> NoMore(s.nodes[e.inum].entries))
  }

  /** The checks of the code, and what keeps the counts right: that entries go into directories with links and
      that no count wraps. */
  predicate Enabled(s: State, st: Step) {
    match st
    case Begin(i) => CanBegin(s, i) && s.nodes[i].nlink < 0x7FFF
    case Commit(i, dp, name) => i in s.pending && CanEnter(s, dp, name) && s.nodes[dp].nlink > 0
    case Abort(i) => i in s.pending
    case Unlink(dp, k) => MayUnlink(s, dp, k)
    case MakeFile(dp, name, i, kind) => CanCreate(s, dp, name,
      i) && (kind.File? || kind.Device?) && s.nodes[dp].nlink > 0
    case MakeDir(dp, name, i) => CanCreate(s, dp, name, i) && 0 < s.nodes[dp].nlink < 0x7FFF
    case Leave(i, n) =>
      0 < i < |s.nodes| && s.nodes[i].nlink == 0 && n.nlink == 0 && UniqueNames(n.entries) && Bare(n.entries)
      && InRange(n.entries, |s.nodes|)
  }

  /** The state after a step; out-of-reach cases, where sys_unlink would panic, change nothing. */
  function Do(s: State, st: Step): State
    requires Enabled(s, st)
  {
    match st
    case Begin(i) => Begun(s, i)
    case Commit(i, dp, name) => Committed(s, i, dp, name)
    case Abort(i) => if i < |s.nodes| && s.nodes[i].nlink > 0 then Aborted(s, i) else s
    case Unlink(dp, k) => if CanUnlink(s, dp, k) then Unlinked(s, dp, k) else s
    case MakeFile(dp, name, i, kind) => MadeFile(s, dp, name, i, kind)
    case MakeDir(dp, name, i) => MadeDir(s, dp, name, i)
    case Leave(i, n) => Replaced(s, i, n)
  }

  /** Every name leads to an inode, in removed directories too. */
  lemma FoundInode(s: State, dp: nat, k: nat, place: map<nat, (nat, nat)>)
    requires Good(s, place) && dp < |s.nodes| && s.nodes[dp].kind.Dir? && k < |s.nodes[dp].entries|
    ensures s.nodes[dp].entries[k].inum < |s.nodes|
  {
    assert InRange(s.nodes[dp].entries, |s.nodes|);
  }

  /** unlink's panic is out of reach, and it never works on a removed directory. */
  lemma UnlinkNoPanic(s: State, dp: nat, k: nat, place: map<nat, (nat, nat)>)
    requires Good(s, place) && MayUnlink(s, dp, k)
    ensures CanUnlink(s, dp, k) && s.nodes[dp].nlink > 0
  {
    assert s.nodes[dp].nlink == 0 ==> Bare(s.nodes[dp].entries);
    UnlinkSafe(s, dp, k, place);
  }

  lemma BareUnlinked(s: State, dp: nat, k: nat, place: map<nat, (nat, nat)>)
    requires Good(s, place) && CanUnlink(s, dp, k) && s.nodes[dp].nlink > 0
    ensures RemovedBare(Unlinked(s, dp, k).nodes)
  {
    var i := s.nodes[dp].entries[k].inum;
    UnlinkSafe(s, dp, k, place);
    if s.nodes[i].kind.Dir? {
      assert Dotted(i, s.nodes[i]);
      assert Bare(s.nodes[i].entries);
      UnlinkDirNums(s, dp, k, i, place);
    }
  }

  lemma UnlinkKeeps(s: State, dp: nat, k: nat, place: map<nat, (nat, nat)>) returns (place': map<nat, (nat, nat)>)
    requires Good(s, place) && CanUnlink(s, dp, k) && s.nodes[dp].nlink > 0
    ensures Good(Unlinked(s, dp, k), place')
  {
    var i := s.nodes[dp].entries[k].inum;
    BareUnlinked(s, dp, k, place);
    if s.nodes[i].kind.Dir? {
      UnlinkDirKeeps(s, dp, k, i, place);
      place' := place - {i};
    } else {
      UnlinkFileKeeps(s, dp, k, i, place);
      place' := place;
    }
  }

  lemma BareKept(s: State, st: Step)
    requires KindsOk(s) && RemovedBare(s.nodes) && Enabled(s, st) && !st.Unlink?
    ensures RemovedBare(Do(s, st).nodes)
  {
  }

  lemma StepKeepsInv(s: State, st: Step, place: map<nat, (nat, nat)>) returns (place': map<nat, (nat, nat)>)
    requires Inv(s, place) && Enabled(s, st) && !st.Unlink?
    ensures Inv(Do(s, st), place')
  {
    place' := place;
    if st.Begin? {
      BeginKeeps(s, st.i, place);
    } else if st.Commit? {
      CommitKeeps(s, st.i, st.dp, st.name, place);
    } else if st.Abort? {
      AbortKeeps(s, st.i, place);
    } else if st.MakeFile? {
      MadeFileKeeps(s, st.dp, st.name, st.i, st.kind, place);
    } else if st.MakeDir? {
      MadeDirKeeps(s, st.dp, st.name, st.i, place);
      place' := place[st.i := (st.dp, Slot(s.nodes[st.dp].entries))];
    } else {
      ReplacedKeeps(s, st.i, st.n, place);
    }
  }

  lemma StepKeepsGood(s: State, st: Step, place: map<nat, (nat, nat)>) returns (place': map<nat, (nat, nat)>)
    requires Good(s, place) && Enabled(s, st)
    ensures Good(Do(s, st), place')
  {
    if st.Unlink? {
      UnlinkNoPanic(s, st.dp, st.k, place);
      place' := UnlinkKeeps(s, st.dp, st.k, place);
    } else {
      BareKept(s, st);
      place' := StepKeepsInv(s, st, place);
    }
  }

  /** The second half of link, whatever the directory. */
  lemma CommitGood(s: State, i: nat, dp: nat, name: seq<char>, place: map<nat, (nat, nat)>)
    requires Good(s, place) && i in s.pending && CanEnter(s, dp, name)
    ensures CountsOk(Committed(s, i, dp, name)) <==> s.nodes[dp].nlink > 0
    ensures s.nodes[dp].nlink > 0 ==> Good(Committed(s, i, dp, name), place)
  {
    CommitExact(s, i, dp, name, place);
    if s.nodes[dp].nlink > 0 {
      BareKept(s, Commit(i, dp, name));
      CommitKeeps(s, i, dp, name, place);
    }
  }

  lemma AbortGood(s: State, i: nat, place: map<nat, (nat, nat)>)
    requires Good(s, place) && i in s.pending
    ensures i < |s.nodes| && s.nodes[i].nlink > 0 && Good(Aborted(s, i), place)
  {
    AbortKeeps(s, i, place);
    BareKept(s, Abort(i));
  }

  /** What create makes, whatever the directory. */
  function MadeNode(s: State, dp: nat, name: seq<char>, i: nat, kind: Kind): State
    requires CanCreate(s, dp, name, i)
  {
    if kind.Dir? then MadeDir(s, dp, name, i) else MadeFile(s, dp, name, i, kind)
  }

  /** When create in dp keeps the counts right. */
  predicate Counted(s: State, dp: nat, kind: Kind)
    requires dp < |s.nodes|
  {
    s.nodes[dp].nlink > 0 && (kind.Dir? ==> s.nodes[dp].nlink < 0x7FFF)
  }

  lemma MadeGood(s: State, dp: nat, name: seq<char>, i: nat, kind: Kind, place: map<nat, (nat, nat)>)
    returns (place': map<nat, (nat, nat)>)
    requires Good(s, place) && CanCreate(s, dp, name, i) && !kind.Free?
    ensures Counted(s, dp, kind) ==> Good(MadeNode(s, dp, name, i, kind), place')
  {
    place' := place;
    if Counted(s, dp, kind) {
      place' := StepKeepsGood(s, if kind.Dir? then MakeDir(dp, name, i) else MakeFile(dp, name, i, kind), place);
    }
  }

  lemma BeginGood(s: State, i: nat, place: map<nat, (nat, nat)>)
    requires Good(s, place) && CanBegin(s, i)
    ensures CountsOk(Begun(s, i)) <==> s.nodes[i].nlink < 0x7FFF
    ensures s.nodes[i].nlink < 0x7FFF ==> Good(Begun(s, i), place)
  {
    BeginExact(s, i, place);
    if s.nodes[i].nlink < 0x7FFF {
      BeginKeeps(s, i, place);
      BareKept(s, Begin(i));
    }
  }

  lemma FreedGood(s: State, i: nat, place: map<nat, (nat, nat)>)
    requires Good(s, place) && 0 < i < |s.nodes| && s.nodes[i].nlink == 0
    ensures Good(Replaced(s, i, Node(Free, 0, [])), place)
  {
    ReplacedKeeps(s, i, Node(Free, 0, []), place);
    BareKept(s, Leave(i, Node(Free, 0, [])));
  }

  ghost predicate Run(s: State, steps: seq<Step>, t: State)
    decreases |steps|
  {
    if |steps| == 0 then t == s else Enabled(s, steps[0]) && Run(Do(s, steps[0]), steps[1..], t)
  }

  /** At every point of every run, an inode's link count is the number of its names plus the links in progress. */
  lemma {:induction false} RunKeepsCounts(s: State, steps: seq<Step>, t: State, place: map<nat, (nat, nat)>)
    returns (place': map<nat, (nat, nat)>)
    requires Good(s, place) && Run(s, steps, t)
    ensures Good(t, place')
    decreases |steps|
  {
    place' := place;
    if |steps| > 0 {
      var mid := StepKeepsGood(s, steps[0], place);
      place' := RunKeepsCounts(Do(s, steps[0]), steps[1..], t, mid);
    }
  }

  // ---------- The file system mkfs makes ----------

  const EMPTY_ROOT: Node := Node(Dir, 1, NewDir(ROOT, ROOT))

  /** A root directory and n free inodes. */
  function Fresh(n: nat): State {
    State([Node(Free, 0, []), EMPTY_ROOT] + seq(n, k requires 0 <= k < n => Node(Free, 0, [])), multiset{})
  }

  lemma FreshTotals(n: nat, j: nat)
    ensures Total(Fresh(n).nodes, j) == if j == ROOT then 1 else 0
  {
    var nodes := Fresh(n).nodes;
    var gone := Node(Free, 0, []);
    var others := nodes[ROOT := gone];
    forall d: nat, k: nat ensures !NamedAt(others, d, k, j) {
    }
    TotalZero(others, j);
    TotalUpdate(nodes, ROOT, gone, j);
    EmptyDirFrom(EMPTY_ROOT.entries, j);
  }

  lemma FreshGood(n: nat)
    ensures Good(Fresh(n), map[])
  {
    var s := Fresh(n);
    var none: map<nat, (nat, nat)> := map[];
    forall j: nat ensures Total(s.nodes, j) == (if j == ROOT then 1 else 0) {
      FreshTotals(n, j);
    }
    assert Dotted(ROOT, s.nodes[ROOT]) && InRange(s.nodes[ROOT].entries, |s.nodes|);
    forall d: nat ensures HomeAt(s.nodes, none, d) && DotDotAt(s.nodes, none, d) {
    }
    forall x: nat, k: nat, d: nat ensures !ChildAt(s.nodes, x, k, d) {
    }
  }

  /** In every run from there, link counts are exact and no directory holds a name twice. */
  lemma FreshRunKeepsCounts(n: nat, steps: seq<Step>, t: State, i: nat)
    requires Run(Fresh(n), steps, t) && i < |t.nodes|
    ensures t.nodes[i].nlink == Total(t.nodes, i) + t.pending[i]
    ensures UniqueNames(t.nodes[i].entries)
  {
    FreshGood(n);
    var _ := RunKeepsCounts(Fresh(n), steps, t, map[]);
  }

  /** mkdir d, unlink d while it is open, create d/x: the new file has a link count of one and no name that counts. */
  lemma RemovedDirectoryBreaksCounts()
    ensures var s1 := MadeDir(Fresh(2), ROOT, "d", 2);
      && CanUnlink(s1, ROOT, 2)
      && var s2 := Unlinked(s1, ROOT, 2);
         CanCreate(s2, 2, "x", 3) && !CountsOk(MadeFile(s2, 2, "x", 3, File))
  {
    FreshGood(2);
    var s0 := Fresh(2);
    MadeDirKeeps(s0, ROOT, "d", 2, map[]);
    var s1 := MadeDir(s0, ROOT, "d", 2);
    var place := map[2 := (ROOT, 2)];
    UnlinkDirKeeps(s1, ROOT, 2, 2, place);
    MadeFileExact(Unlinked(s1, ROOT, 2), 2, "x", 3, File, place - {2});
  }
}
