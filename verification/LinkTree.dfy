/**
 Inodes, directories and link counts (sysfile.c, fs.c) as values: what link, unlink and create do to them,
 and the invariant that every link count is the number of names that count.
 */
module LinkTree {

  const DIRSIZ: nat := 14
  const ROOT: nat := 1

  /** A directory entry; inum 0 marks an empty one. */
  datatype Entry = Entry(inum: nat, name: seq<char>)

  const EMPTY: Entry := Entry(0, "")

  datatype Kind = Free | File | Device | Dir

  /** The type of nlink, in memory and on disk. */
  type Short = x: int | -0x8000 <= x <= 0x7FFF

  /** What an assignment to a short keeps of x. */
  function Wrap(x: int): Short { (x + 0x8000) % 0x10000 - 0x8000 }

  datatype Node = Node(kind: Kind, nlink: Short, entries: seq<Entry>)

  /** Links in progress: sys_link has counted them but not entered them yet. */
  datatype State = State(nodes: seq<Node>, pending: multiset<nat>)

  /** namecmp looks at DIRSIZ bytes. */
  function Key(name: seq<char>): seq<char> { if |name| <= DIRSIZ then name else name[..DIRSIZ] }

  predicate Same(a: seq<char>, b: seq<char>) { Key(a) == Key(b) }

  predicate Live(n: Node) { n.kind.Dir? && n.nlink > 0 }

  // ---------- Counting names ----------

  /** The entry is a name of inode i that counts. */
  predicate Names(e: Entry, i: nat) { i != 0 && e.inum == i && !Same(e.name, ".") }

  function CountIn(es: seq<Entry>, i: nat): nat {
    if |es| == 0 then 0 else CountIn(es[..|es| - 1], i) + (if Names(es[|es| - 1], i) then 1 else 0)
  }

  /** Names that a directory contributes: none if it is no directory, or a removed one. */
  function From(n: Node, i: nat): nat { if Live(n) then CountIn(n.entries, i) else 0 }

  function Total(nodes: seq<Node>, i: nat): nat {
    if |nodes| == 0 then 0 else Total(nodes[..|nodes| - 1], i) + From(nodes[|nodes| - 1], i)
  }

  lemma {:induction false} CountUpdate(es: seq<Entry>, k: nat, e: Entry, i: nat)
    requires k < |es|
    ensures CountIn(es[k := e], i) == CountIn(es, i) - (if Names(es[k], i) then 1 else 0) + (if Names(e, i) then 1
      else 0)
  {
    var n := |es| - 1;
    if k == n {
      assert es[k := e][..n] == es[..n];
    } else {
      CountUpdate(es[..n], k, e, i);
      assert es[k := e][..n] == es[..n][k := e];
    }
  }

  lemma CountAppend(es: seq<Entry>, e: Entry, i: nat)
    ensures CountIn(es + [e], i) == CountIn(es, i) + (if Names(e, i) then 1 else 0)
  {
    assert (es + [e])[..|es|] == es;
  }

  lemma {:induction false} TotalUpdate(nodes: seq<Node>, d: nat, n: Node, i: nat)
    requires d < |nodes|
    ensures Total(nodes[d := n], i) == Total(nodes, i) - From(nodes[d], i) + From(n, i)
  {
    var m := |nodes| - 1;
    if d == m {
      assert nodes[d := n][..m] == nodes[..m];
    } else {
      TotalUpdate(nodes[..m], d, n, i);
      assert nodes[d := n][..m] == nodes[..m][d := n];
    }
  }

  lemma {:induction false} CountZero(es: seq<Entry>, i: nat)
    requires forall k :: 0 <= k < |es| ==> !Names(es[k], i)
    ensures CountIn(es, i) == 0
  {
    if |es| > 0 {
      CountZero(es[..|es| - 1], i);
    }
  }

  lemma {:induction false} CountOne(es: seq<Entry>, i: nat, k: nat)
    requires k < |es| && Names(es[k], i)
    ensures CountIn(es, i) >= 1
  {
    if k < |es| - 1 {
      CountOne(es[..|es| - 1], i, k);
    }
  }

  /** Entry k of directory d is a name of i. */
  predicate NamedAt(nodes: seq<Node>, d: nat, k: nat, i: nat) {
    d < |nodes| && Live(nodes[d]) && k < |nodes[d].entries| && Names(nodes[d].entries[k], i)
  }

  lemma {:induction false} TotalZero(nodes: seq<Node>, i: nat)
    requires forall d: nat, k: nat :: !NamedAt(nodes, d, k, i)
    ensures Total(nodes, i) == 0
  {
    if |nodes| > 0 {
      var m := |nodes| - 1;
      forall d: nat, k: nat ensures !NamedAt(nodes[..m], d, k, i) {
        assert !NamedAt(nodes, d, k, i);
      }
      TotalZero(nodes[..m], i);
      if Live(nodes[m]) {
        forall k | 0 <= k < |nodes[m].entries| ensures !Names(nodes[m].entries[k], i) {
          assert !NamedAt(nodes, m, k, i);
        }
        CountZero(nodes[m].entries, i);
      }
    }
  }

  lemma {:induction false} TotalOne(nodes: seq<Node>, i: nat, d: nat, k: nat)
    requires NamedAt(nodes, d, k, i)
    ensures Total(nodes, i) >= 1
  {
    var m := |nodes| - 1;
    if d == m {
      CountOne(nodes[m].entries, i, k);
    } else {
      assert NamedAt(nodes[..m], d, k, i);
      TotalOne(nodes[..m], i, d, k);
    }
  }

  /** Names in two different directories count twice. */
  lemma TotalTwo(nodes: seq<Node>, i: nat, d: nat, k: nat, d': nat, k': nat)
    requires NamedAt(nodes, d, k, i) && NamedAt(nodes, d', k', i) && d != d'
    ensures Total(nodes, i) >= 2
  {
    var gone := Node(Free, 0, []);
    TotalUpdate(nodes, d, gone, i);
    CountOne(nodes[d].entries, i, k);
    assert NamedAt(nodes[d := gone], d', k', i);
    TotalOne(nodes[d := gone], i, d', k');
  }

  // ---------- The invariant ----------

  ghost predicate CountsOk(s: State) {
    forall i: nat :: i < |s.nodes| ==> s.nodes[i].nlink == Total(s.nodes, i) + s.pending[i]
  }

  /** A directory starts with "." and "..", as isdirempty takes for granted. */
  predicate Dotted(d: nat, n: Node) {
    && |n.entries| >= 2 && n.entries[0].inum == d && Same(n.entries[0].name, ".") && Same(n.entries[1].name, "..")
    && d != 0 && n.entries[1].inum != 0
  }

  /** No two entries in use have the same name. */
  predicate UniqueNames(es: seq<Entry>) {
    forall j, k :: 0 <= j < k < |es| && es[j].inum != 0 && es[k].inum != 0 ==> !Same(es[j].name, es[k].name)
  }

  /** Entry k of directory x is an ordinary name of the directory d. */
  predicate ChildAt(nodes: seq<Node>, x: nat, k: nat, d: nat) {
    && x < |nodes| && 0 < d < |nodes| && Live(nodes[x]) && 2 <= k < |nodes[x].entries|
    && nodes[x].entries[k].inum == d && nodes[d].kind.Dir?
  }

  /** Directory d, if it is not the root, has its name where place says, which is not in itself. */
  predicate HomeAt(nodes: seq<Node>, place: map<nat, (nat, nat)>, d: nat) {
    d < |nodes| && Live(nodes[d]) && d != ROOT ==>
      d in place && ChildAt(nodes, place[d].0, place[d].1, d) && place[d].0 != d
  }

  /** The ".." of directory d names the directory that holds its name, and the root's names the root. */
  predicate DotDotAt(nodes: seq<Node>, place: map<nat, (nat, nat)>, d: nat) {
    d < |nodes| && Live(nodes[d]) && |nodes[d].entries| >= 2 ==>
      nodes[d].entries[1].inum == if d == ROOT || d !in place then ROOT else place[d].0
  }

  /** Every directory but the root has one ordinary name, in the directory its ".." names. */
  ghost predicate Placed(nodes: seq<Node>, place: map<nat, (nat, nat)>) {
    && (forall d: nat :: HomeAt(nodes, place, d))
    && (forall x: nat, k: nat, d: nat :: ChildAt(nodes, x, k, d) ==> d != ROOT && d in place && place[d] == (x, k))
    && (forall d: nat :: DotDotAt(nodes, place, d))
  }

  ghost predicate DirsOk(nodes: seq<Node>) {
    && (forall d: nat :: d < |nodes| && Live(nodes[d]) ==> Dotted(d, nodes[d]))
    && (forall d: nat :: d < |nodes| ==> UniqueNames(nodes[d].entries))
    && (forall d: nat :: d < |nodes| && Live(nodes[d]) ==> InRange(nodes[d].entries, |nodes|))
  }

  predicate InRange(es: seq<Entry>, size: nat) { forall k :: 0 <= k < |es| ==> es[k].inum < size }

  ghost predicate KindsOk(s: State) {
    && |s.nodes| > ROOT && Live(s.nodes[ROOT]) && s.nodes[0].kind.Free?
    && (forall i: nat :: i in s.pending ==> i < |s.nodes| && !s.nodes[i].kind.Dir? && !s.nodes[i].kind.Free? && i != 0)
    && (forall i: nat :: i < |s.nodes| && s.nodes[i].kind.Free? ==> s.nodes[i].nlink == 0)
  }

  /** place says where each directory but the root has its name. */
  ghost predicate Inv(s: State, place: map<nat, (nat, nat)>) {
    KindsOk(s) && CountsOk(s) && DirsOk(s.nodes) && Placed(s.nodes, place)
  }

  // ---------- Directories ----------

  /** dirlookup: the entry with this name, |es| if there is none. */
  function Find(es: seq<Entry>, name: seq<char>): (k: nat)
    ensures k <= |es| && (k < |es| ==> es[k].inum != 0 && Same(name, es[k].name))
    ensures forall j :: 0 <= j < k ==> es[j].inum == 0 || !Same(name, es[j].name)
  {
    if |es| == 0 || (es[0].inum != 0 && Same(name, es[0].name)) then 0 else 1 + Find(es[1..], name)
  }

  /** The first empty entry, |es| if there is none. */
  function Slot(es: seq<Entry>): (k: nat)
    ensures k <= |es| && (k < |es| ==> es[k].inum == 0) && forall j :: 0 <= j < k ==> es[j].inum != 0
  {
    if |es| == 0 || es[0].inum == 0 then 0 else 1 + Slot(es[1..])
  }

  /** dirlink's write into the first empty entry, or past the end. */
  function Enter(es: seq<Entry>, e: Entry): (r: seq<Entry>)
    ensures |r| == if Slot(es) < |es| then |es| else |es| + 1
    ensures r[Slot(es)] == e && forall j :: 0 <= j < |es| && j != Slot(es) ==> r[j] == es[j]
  {
    if Slot(es) < |es| then es[Slot(es) := e] else es + [e]
  }

  lemma CountEnter(es: seq<Entry>, e: Entry, i: nat)
    ensures CountIn(Enter(es, e), i) == CountIn(es, i) + (if Names(e, i) then 1 else 0)
  {
    if Slot(es) < |es| {
      CountUpdate(es, Slot(es), e, i);
    } else {
      CountAppend(es, e, i);
    }
  }

  lemma UniqueEnter(es: seq<Entry>, e: Entry)
    requires UniqueNames(es) && Find(es, e.name) == |es|
    ensures UniqueNames(Enter(es, e))
  {
  }

  lemma UniqueErase(es: seq<Entry>, k: nat)
    requires UniqueNames(es) && k < |es|
    ensures UniqueNames(es[k := EMPTY])
  {
  }

  // ---------- What the calls do ----------

  function SetNode(s: State, d: nat, n: Node): State
    requires d < |s.nodes|
  {
    s.(nodes := s.nodes[d := n])
  }

  predicate CanBegin(s: State, i: nat) { 0 < i < |s.nodes| && (s.nodes[i].kind.File? || s.nodes[i].kind.Device?) }

  /** sys_link's first half counts the link, without looking at the count. */
  function Begun(s: State, i: nat): State
    requires CanBegin(s, i)
  {
    State(s.nodes[i := s.nodes[i].(nlink := Wrap(s.nodes[i].nlink + 1))], s.pending + multiset{i})
  }

  predicate CanEnter(s: State, dp: nat, name: seq<char>) {
    dp < |s.nodes| && s.nodes[dp].kind.Dir? && Find(s.nodes[dp].entries, name) == |s.nodes[dp].entries|
  }

  function WithEntry(n: Node, e: Entry): Node { n.(entries := Enter(n.entries, e)) }

  /** sys_link's second half enters it. */
  function Committed(s: State, i: nat, dp: nat, name: seq<char>): State
    requires i in s.pending && CanEnter(s, dp, name)
  {
    State(s.nodes[dp := WithEntry(s.nodes[dp], Entry(i, name))], s.pending - multiset{i})
  }

  /** sys_link's failure path takes the count back. */
  function Aborted(s: State, i: nat): State
    requires i in s.pending && i < |s.nodes| && s.nodes[i].nlink > 0
  {
    State(s.nodes[i := s.nodes[i].(nlink := s.nodes[i].nlink - 1)], s.pending - multiset{i})
  }

  /** Empty but for "." and ".."; looks at entries from the third on. */
  predicate NoMore(es: seq<Entry>) { forall k :: 2 <= k < |es| ==> es[k].inum == 0 }

  predicate CanUnlink(s: State, dp: nat, k: nat) {
    && dp < |s.nodes| && s.nodes[dp].kind.Dir? && k < |s.nodes[dp].entries| && s.nodes[dp].entries[k].inum != 0
    && !Same(s.nodes[dp].entries[k].name, ".") && !Same(s.nodes[dp].entries[k].name, "..")
    && var i := s.nodes[dp].entries[k].inum;
       i < |s.nodes| && i != dp && s.nodes[i].nlink >= 1 && (s.nodes[i].kind.Dir? ==>
         NoMore(s.nodes[i].entries) && s.nodes[dp].nlink >= 1)
  }

  function Unlinked(s: State, dp: nat, k: nat): State
    requires CanUnlink(s, dp, k)
  {
    var d := s.nodes[dp];
    var i := d.entries[k].inum;
    var n := s.nodes[i];
    s.(nodes := s.nodes[dp := Node(d.kind, if n.kind.Dir? then d.nlink - 1 else d.nlink, d.entries[k := EMPTY])]
                       [i := n.(nlink := n.nlink - 1)])
  }

  predicate CanCreate(s: State, dp: nat, name: seq<char>, i: nat) {
    CanEnter(s, dp, name) && 0 < i < |s.nodes| && s.nodes[i].kind.Free? && i != dp
  }

  /** create of a file or device. */
  function MadeFile(s: State, dp: nat, name: seq<char>, i: nat, kind: Kind): State
    requires CanCreate(s, dp, name, i)
  {
    s.(nodes := s.nodes[i := Node(kind, 1, [])][dp := WithEntry(s.nodes[dp], Entry(i, name))])
  }

  function NewDir(i: nat, dp: nat): seq<Entry> { [Entry(i, "."), Entry(dp, "..")] }

  /** create of a directory. */
  function MadeDir(s: State, dp: nat, name: seq<char>, i: nat): State
    requires CanCreate(s, dp, name, i)
  {
    var d := WithEntry(s.nodes[dp], Entry(i, name));
    s.(nodes := s.nodes[i := Node(Dir, 1, NewDir(i, dp))][dp := d.(nlink := Wrap(d.nlink + 1))])
  }

  /** An inode that nothing names becomes whatever a failed create left, or free again. */
  function Replaced(s: State, i: nat, n: Node): State
    requires i < |s.nodes|
  {
    SetNode(s, i, n)
  }

  // ---------- Placed ----------

  lemma PlacedFrame(nodes: seq<Node>, nodes': seq<Node>, place: map<nat, (nat, nat)>)
    requires Placed(nodes, place) && |nodes'| == |nodes|
    requires forall d: nat :: d < |nodes| ==> Live(nodes'[d]) == Live(nodes[d])
    requires forall d: nat :: d < |nodes| && Live(nodes[d]) && |nodes'[d].entries| >= 2 ==>
      |nodes[d].entries| >= 2 && nodes'[d].entries[1] == nodes[d].entries[1]
    requires forall x: nat, k: nat, d: nat :: ChildAt(nodes', x, k, d) <==> ChildAt(nodes, x, k, d)
    ensures Placed(nodes', place)
  {
    forall d: nat ensures HomeAt(nodes', place, d) && DotDotAt(nodes', place, d) {
      assert HomeAt(nodes, place, d) && DotDotAt(nodes, place, d);
    }
  }
}
