/** link, unlink and create (sysfile.c:122-302) over the inodes and directories they change. */
module Links {
  import opened LinkTree
  import opened LinkTheorems
  import opened LinkRuns
  import opened LinkLookup
  import opened LinkPaths
  import opened Common

  datatype Made = Existing(i: nat) | New(i: nat) | Refused(i: nat) | NoInode | NoRoom(i: nat)

  predicate HasRoom(es: seq<Entry>, room: bool) { room || Slot(es) < |es| }

  class Links {
    var nodes: seq<Node>
    ghost var pending: multiset<nat>

    ghost function Snap(): State
      reads this
    {
      State(nodes, pending)
    }

    method Dirlookup(dp: nat, name: seq<char>) returns (k: nat)
      requires dp < |nodes| && nodes[dp].kind.Dir?
      ensures k == Find(nodes[dp].entries, name)
    {
      var es := nodes[dp].entries;
      k := 0;
      while k < |es|
        invariant k <= |es| && forall j :: 0 <= j < k ==> es[j].inum == 0 || !Same(name, es[j].name)
      {
        if es[k].inum != 0 && Same(name, es[k].name) {
          return;
        }
        k := k + 1;
      }
    }

    /** namex from cwd, or from the root for an absolute path; 0 if the path leads nowhere. With parent it stops one
        level early, at the directory that holds the last name. */
    method Namex(path: seq<char>, cwd: nat, parent: bool, ghost place: map<nat, (nat, nat)>)
      returns (ip: nat, name: seq<char>)
      requires Good(Snap(), place) && 0 < cwd < |nodes|
      ensures ip < |nodes|
      ensures !parent ==> ip == Resolve(nodes, Start(path, cwd), Parts(path))
      ensures parent ==> ip == ParentOf(nodes, Start(path, cwd), Parts(path))
      ensures parent && ip != 0 ==> name == Parts(path)[|Parts(path)| - 1]
    {
      ip := if |path| > 0 && path[0] == '/' then ROOT else cwd;
      var at := 0;
      var next;
      next, name := Skipelem(path, at);
      assert path[0..] == path;
      while next.Some?
        invariant 0 < ip < |nodes| && Skipped(path, at, next, name)
        invariant SameWalk(nodes, Start(path, cwd), Parts(path), ip, Parts(path[at..]))
        invariant at > 0 ==> Parts(path) != []
        invariant parent && next.None? ==> Parts(path) == []
        decreases |path| - at
      {
        ghost var rest := Parts(path[next.value..]);
        StepAlong(nodes, ip, name, rest);
        if !nodes[ip].kind.Dir? {
          return 0, name;
        }
        if parent && next.value == |path| {
          return;
        }
        var k := Dirlookup(ip, name);
        if k == |nodes[ip].entries| {
          return 0, name;
        }
        FoundInode(Snap(), ip, k, place);
        ip := nodes[ip].entries[k].inum;
        at := next.value;
        next, name := Skipelem(path, at);
      }
      if parent {
        ip := 0;
      }
    }

    /** room says whether a write past the end finds a block. */
    method Dirlink(dp: nat, name: seq<char>, inum: nat, room: bool) returns (ok: bool)
      requires dp < |nodes| && nodes[dp].kind.Dir?
      modifies this`nodes
      ensures ok <==>
        HasRoom(old(nodes)[dp].entries, room) && Find(old(nodes)[dp].entries, name) == |old(nodes)[dp].entries|
      ensures nodes == if ok then old(nodes)[dp := WithEntry(old(nodes)[dp], Entry(inum, name))] else old(nodes)
    {
      var at := Dirlookup(dp, name);
      var es := nodes[dp].entries;
      if at < |es| {
        return false;
      }
      var k := 0;
      while k < |es| && es[k].inum != 0
        invariant k <= |es| && forall j :: 0 <= j < k ==> es[j].inum != 0
      {
        k := k + 1;
      }
      if k == |es| && !room {
        return false;
      }
      var e := Entry(inum, name);
      var filled := if k < |es| then es[k := e] else es + [e];
      assert k == Slot(es) && filled == Enter(es, e);
      nodes := nodes[dp := nodes[dp].(entries := filled)];
      ok := true;
    }

    method Isdirempty(dp: nat) returns (empty: bool)
      requires dp < |nodes|
      ensures empty <==> NoMore(nodes[dp].entries)
    {
      var es := nodes[dp].entries;
      var k := 2;
      while k < |es|
        invariant 2 <= k && forall j :: 2 <= j < k && j < |es| ==> es[j].inum == 0
      {
        if es[k].inum != 0 {
          return false;
        }
        k := k + 1;
      }
      empty := true;
    }

    method Count(ip: nat)
      requires CanBegin(Snap(), ip)
      modifies this
      ensures Snap() == Begun(old(Snap()), ip)
    {
      nodes := nodes[ip := nodes[ip].(nlink := Wrap(nodes[ip].nlink + 1))];
      pending := pending + multiset{ip};
    }

    /** The part of sys_link up to the unlocking of the inode: directories are refused. */
    method LinkBegin(ip: nat, ghost place: map<nat, (nat, nat)>) returns (ok: bool)
      requires Good(Snap(), place) && 0 < ip < |nodes| && !nodes[ip].kind.Free?
      modifies this
      ensures ok <==> !old(nodes)[ip].kind.Dir?
      ensures ok ==> CanBegin(old(Snap()), ip) && Snap() == Begun(old(Snap()), ip)
      ensures ok ==> (CountsOk(Snap()) <==> old(nodes)[ip].nlink < 0x7FFF)
      ensures !ok ==> Snap() == old(Snap())
      ensures !ok || old(nodes)[ip].nlink < 0x7FFF ==> Good(Snap(), place)
    {
      if nodes[ip].kind.Dir? {
        return false;
      }
      BeginGood(Snap(), ip, place);
      Count(ip);
      ok := true;
    }

    method EnterLink(ip: nat, dp: nat, name: seq<char>, room: bool) returns (ok: bool)
      requires ip in pending && dp < |nodes| && nodes[dp].kind.Dir?
      modifies this
      ensures ok <==> CanEnter(old(Snap()), dp, name) && HasRoom(old(nodes)[dp].entries, room)
      ensures Snap() == if ok then Committed(old(Snap()), ip, dp, name) else old(Snap())
    {
      ok := Dirlink(dp, name, ip, room);
      if ok {
        pending := pending - multiset{ip};
      }
    }

    method TakeBack(ip: nat)
      requires ip in pending && ip < |nodes| && nodes[ip].nlink > 0
      modifies this
      ensures Snap() == Aborted(old(Snap()), ip)
    {
      nodes := nodes[ip := nodes[ip].(nlink := nodes[ip].nlink - 1)];
      pending := pending - multiset{ip};
    }

    /** The rest of sys_link: found says that nameiparent found dp, on the same device. */
    method LinkEnd(ip: nat, found: bool, dp: nat, name: seq<char>, room: bool, ghost place: map<nat, (nat, nat)>)
      returns (ok: bool)
      requires Good(Snap(), place) && ip in pending && (found ==> dp < |nodes| && nodes[dp].kind.Dir?)
      modifies this
      ensures ok <==> found && CanEnter(old(Snap()), dp, name) && HasRoom(old(nodes)[dp].entries, room)
      ensures ok ==> Snap() == Committed(old(Snap()), ip, dp, name)
      ensures !ok ==> ip < |old(nodes)| && old(nodes)[ip].nlink > 0 && Snap() == Aborted(old(Snap()), ip)
      ensures ok ==> Named(old(nodes), nodes, dp, name, ip, {})
      ensures ok ==> (CountsOk(Snap()) <==> old(nodes)[dp].nlink > 0)
      ensures !ok || old(nodes)[dp].nlink > 0 ==> Good(Snap(), place)
    {
      ghost var s := Snap();
      ok := false;
      if found {
        ok := EnterLink(ip, dp, name, room);
      }
      if ok {
        LinkNames(s, ip, dp, name, place);
        CommitGood(s, ip, dp, name, place);
      } else {
        AbortGood(s, ip, place);
        TakeBack(ip);
      }
    }

    method Erase(dp: nat, k: nat)
      requires CanUnlink(Snap(), dp, k)
      modifies this`nodes
      ensures Snap() == Unlinked(old(Snap()), dp, k)
    {
      var d := nodes[dp];
      var ip := d.entries[k].inum;
      nodes := nodes[dp := d.(entries := d.entries[k := EMPTY])];
      if nodes[ip].kind.Dir? {
        nodes := nodes[dp := nodes[dp].(nlink := nodes[dp].nlink - 1)];
      }
      nodes := nodes[ip := nodes[ip].(nlink := nodes[ip].nlink - 1)];
    }

    method Removable(ip: nat) returns (ok: bool)
      requires ip < |nodes|
      ensures ok <==> nodes[ip].kind.Dir? ==> NoMore(nodes[ip].entries)
    {
      ok := true;
      if nodes[ip].kind.Dir? {
        ok := Isdirempty(ip);
      }
    }

    /** sys_unlink of name in dp; the panic for an inode without links is out of reach. */
    method Unlink(dp: nat, name: seq<char>, ghost place: map<nat, (nat, nat)>)
      returns (ok: bool, ghost place': map<nat, (nat, nat)>)
      requires Good(Snap(), place) && dp < |nodes| && nodes[dp].kind.Dir?
      modifies this`nodes
      ensures ok <==> !Same(name, ".") && !Same(name, "..") && MayUnlink(old(Snap()), dp,
        Find(old(nodes)[dp].entries, name))
      ensures ok ==> CanUnlink(old(Snap()), dp, Find(old(nodes)[dp].entries, name))
      ensures ok ==> Snap() == Unlinked(old(Snap()), dp, Find(old(nodes)[dp].entries, name))
      ensures ok ==> Named(nodes, old(nodes), dp, name, Lookup(old(nodes), dp, name), {})
      ensures !ok ==> Snap() == old(Snap())
      ensures Good(Snap(), place')
    {
      if Same(name, ".") || Same(name, "..") {
        return false, place;
      }
      var k := Dirlookup(dp, name);
      if k == |nodes[dp].entries| {
        return false, place;
      }
      ghost var s := Snap();
      FoundInode(s, dp, k, place);
      ok := Removable(nodes[dp].entries[k].inum);
      if !ok {
        return false, place;
      }
      UnlinkNoPanic(s, dp, k, place);
      UnlinkNames(s, dp, name, k);
      place' := UnlinkKeeps(s, dp, k, place);
      Erase(dp, k);
    }

    /** The first free inode, as ialloc finds it; 0 if there is none. */
    method Ialloc() returns (i: nat)
      ensures i == 0 || (i < |nodes| && nodes[i].kind.Free?)
      ensures i == 0 ==> forall j :: 0 < j < |nodes| ==> !nodes[j].kind.Free?
      ensures forall j :: 0 < j < i ==> !nodes[j].kind.Free?
    {
      i := 1;
      while i < |nodes|
        invariant 1 <= i && forall j :: 0 < j < i && j < |nodes| ==> !nodes[j].kind.Free?
      {
        if nodes[i].kind.Free? {
          return;
        }
        i := i + 1;
      }
      i := 0;
    }

    /** create's failure path: no link, and the last reference gone, so iput frees the inode. */
    method Discard(i: nat)
      requires i < |nodes|
      modifies this`nodes
      ensures nodes == old(nodes)[i := Node(Free, 0, [])]
    {
      nodes := nodes[i := nodes[i].(nlink := 0)];
      nodes := nodes[i := Node(Free, 0, [])];
    }

    /** The new inode with its entries, before it has a name. */
    method Prepare(i: nat, kind: Kind, dp: nat, room: bool) returns (ok: bool)
      requires 0 < i < |nodes|
      modifies this`nodes
      ensures ok == (kind.Dir? ==> room)
      ensures |nodes| == |old(nodes)| && nodes == old(nodes)[i := nodes[i]]
      ensures ok ==> nodes[i] == Node(kind, 1, if kind.Dir? then NewDir(i, dp) else [])
    {
      nodes := nodes[i := Node(kind, 1, [])];
      ok := true;
      if kind.Dir? {
        ok := Dirlink(i, ".", i, room);
        if ok {
          assert nodes[i].entries == [Entry(i, ".")];
          ok := Dirlink(i, "..", dp, room);
          assert ok ==> nodes[i].entries == NewDir(i, dp);
        }
      }
    }

    /** The part of create that changes anything: the inode i is free. */
    method Make(dp: nat, name: seq<char>, i: nat, kind: Kind, ownRoom: bool, room: bool) returns (ok: bool)
      requires CanCreate(Snap(), dp, name, i)
      modifies this`nodes
      ensures ok <==> HasRoom(old(nodes)[dp].entries, room) && (kind.Dir? ==> ownRoom)
      ensures Snap() == if ok then MadeNode(old(Snap()), dp, name, i, kind)
        else Replaced(old(Snap()), i, Node(Free, 0, []))
    {
      ok := Prepare(i, kind, dp, ownRoom);
      if ok {
        ok := Dirlink(dp, name, i, room);
      }
      if !ok {
        Discard(i);
      } else if kind.Dir? {
        nodes := nodes[dp := nodes[dp].(nlink := Wrap(nodes[dp].nlink + 1))];
      }
    }

    /** create: ownRoom and room say whether the new directory and dp find a block if they need one. */
    method Create(dp: nat, name: seq<char>, kind: Kind, ownRoom: bool, room: bool, ghost place: map<nat, (nat, nat)>)
      returns (r: Made, ghost place': map<nat, (nat, nat)>)
      requires Good(Snap(), place) && dp < |nodes| && nodes[dp].kind.Dir? && !kind.Free?
      modifies this`nodes
      ensures r.Existing? || r.Refused? <==> Find(old(nodes)[dp].entries, name) < |old(nodes)[dp].entries|
      ensures r.Existing? || r.Refused? || r.NoInode? ==> nodes == old(nodes)
      ensures r.Existing? || r.Refused? ==>
        r.i < |nodes| && r.i == nodes[dp].entries[Find(nodes[dp].entries, name)].inum
      ensures r.Existing? || r.Refused? ==> (r.Existing? <==>
        kind.File? && (nodes[r.i].kind.File? || nodes[r.i].kind.Device?))
      ensures r.NoInode? ==> forall j :: 0 < j < |nodes| ==> !nodes[j].kind.Free?
      ensures r.New? || r.NoRoom? ==> CanCreate(old(Snap()), dp, name, r.i) && forall j :: 0 < j < r.i ==>
        !old(nodes)[j].kind.Free?
      ensures r.New? || r.NoRoom? ==> (r.New? <==> HasRoom(old(nodes)[dp].entries, room) && (kind.Dir? ==> ownRoom))
      ensures r.NoRoom? ==> Snap() == Replaced(old(Snap()), r.i, Node(Free, 0, []))
      ensures r.New? ==> Snap() == MadeNode(old(Snap()), dp, name, r.i, kind)
      ensures r.New? ==> nodes[r.i].kind == kind && Named(old(nodes), nodes, dp, name, r.i, {r.i})
      ensures !r.New? || Counted(old(Snap()), dp, kind) ==> Good(Snap(), place')
    {
      place' := place;
      ghost var s := Snap();
      var k := Dirlookup(dp, name);
      if k < |nodes[dp].entries| {
        var ip := nodes[dp].entries[k].inum;
        FoundInode(s, dp, k, place);
        r := if kind.File? && (nodes[ip].kind.File? || nodes[ip].kind.Device?) then Existing(ip) else Refused(ip);
        return;
      }
      var i := Ialloc();
      if i == 0 {
        return NoInode, place;
      }
      var ok := Make(dp, name, i, kind, ownRoom, room);
      if ok {
        CreateNames(s, dp, name, i, kind);
        place' := MadeGood(s, dp, name, i, kind, place);
        r := New(i);
      } else {
        FreedGood(s, i, place);
        r := NoRoom(i);
      }
    }

    /** iput of the last reference to an inode without links frees it. */
    method IputLast(i: nat, ghost place: map<nat, (nat, nat)>)
      requires Good(Snap(), place) && 0 < i < |nodes|
      modifies this`nodes
      ensures nodes == if old(nodes)[i].nlink == 0 then old(nodes)[i := Node(Free, 0, [])] else old(nodes)
      ensures Good(Snap(), place)
    {
      if nodes[i].nlink == 0 {
        FreedGood(Snap(), i, place);
        nodes := nodes[i := Node(Free, 0, [])];
      }
    }
  }
}
