/** Path names (skipelem, fs.c): the elements of a path, in order, each cut to DIRSIZ characters. */
module LinkPaths {
  import opened Common
  import opened LinkTree

  /** The length of the run of slashes that a path starts with. */
  function Slashes(path: seq<char>): (n: nat)
    ensures n <= |path| && (n < |path| ==> path[n] != '/') && forall j :: 0 <= j < n ==> path[j] == '/'
  {
    if |path| == 0 || path[0] != '/' then 0 else 1 + Slashes(path[1..])
  }

  /** The length of the name that a path starts with. */
  function NameLen(path: seq<char>): (n: nat)
    ensures n <= |path| && (n < |path| ==> path[n] == '/') && forall j :: 0 <= j < n ==> path[j] != '/'
    ensures |path| > 0 && path[0] != '/' ==> n > 0
  {
    if |path| == 0 || path[0] == '/' then 0 else 1 + NameLen(path[1..])
  }

  function Parts(path: seq<char>): (names: seq<seq<char>>)
    ensures forall k :: 0 <= k < |names| ==> Proper(names[k])
    decreases |path|
  {
    var p := path[Slashes(path)..];
    if |p| == 0 then [] else [Key(p[..NameLen(p)])] + Parts(p[NameLen(p)..])
  }

  predicate Proper(name: seq<char>) { 0 < |name| <= DIRSIZ && '/' !in name }

  /** The path that spells these names. */
  function Join(names: seq<seq<char>>): seq<char> { if |names| == 0 then "" else "/" + names[0] + Join(names[1..]) }

  /** A path means the names it spells. */
  lemma {:induction false} PartsOfJoin(names: seq<seq<char>>)
    requires forall k :: 0 <= k < |names| ==> Proper(names[k])
    ensures Parts(Join(names)) == names
  {
    if |names| > 0 {
      var rest := Join(names[1..]);
      PartsOfJoin(names[1..]);
      FirstPart(names[0], rest, Join(names));
      assert names == [names[0]] + names[1..];
    }
  }

  lemma FirstPart(name: seq<char>, rest: seq<char>, path: seq<char>)
    requires Proper(name) && (|rest| > 0 ==> rest[0] == '/') && path == "/" + name + rest
    ensures Parts(path) == [name] + Parts(rest)
  {
    var p := path[1..];
    assert p == name + rest && name[0] in name && forall j :: 0 <= j < |name| ==> p[j] in name;
    SlashesIs(path, 1);
    LengthIs(p, |name|);
    assert p[..|name|] == name && p[|name|..] == rest;
  }

  lemma LengthIs(p: seq<char>, n: nat)
    requires n <= |p| && (n < |p| ==> p[n] == '/') && forall j :: 0 <= j < n ==> p[j] != '/'
    ensures NameLen(p) == n
  {
  }

  /** Slashes in front do not matter. */
  lemma PartsSkip(path: seq<char>, n: nat)
    requires n <= Slashes(path)
    ensures Parts(path[n..]) == Parts(path)
  {
    var p := path[n..];
    assert Slashes(p) == Slashes(path) - n by { SlashesIs(p, Slashes(path) - n); }
    assert p[Slashes(p)..] == path[Slashes(path)..];
  }

  lemma SlashesIs(p: seq<char>, n: nat)
    requires n <= |p| && (n < |p| ==> p[n] != '/') && forall j :: 0 <= j < n ==> p[j] == '/'
    ensures Slashes(p) == n
  {
  }

  predicate AllSlashes(path: seq<char>, i: nat, j: nat)
    requires i <= j <= |path|
  {
    forall k :: i <= k < j ==> path[k] == '/'
  }

  predicate NoSlash(path: seq<char>, i: nat, j: nat)
    requires i <= j <= |path|
  {
    forall k :: i <= k < j ==> path[k] != '/'
  }

  lemma SkipTo(path: seq<char>, i: nat, s: nat)
    requires i <= s <= |path| && AllSlashes(path, i, s) && (s < |path| ==> path[s] != '/')
    ensures Parts(path[i..]) == Parts(path[s..])
    ensures s == |path| <==> Parts(path[s..]) == []
  {
    SlashesIs(path[i..], s - i);
    PartsSkip(path[i..], s - i);
    assert path[i..][s - i..] == path[s..];
  }

  lemma OnePart(path: seq<char>, s: nat, e: nat)
    requires s < e <= |path| && NoSlash(path, s, e) && (e < |path| ==> path[e] == '/')
    ensures Parts(path[s..]) == [Key(path[s..e])] + Parts(path[e..])
  {
    var p := path[s..];
    assert p[0] != '/';
    LengthIs(p, e - s);
    assert p[..e - s] == path[s..e] && p[e - s..] == path[e..];
    SlashesIs(p, 0);
    assert p[0..] == p;
  }

  /** What skipelem finds from position i: the next name and where the rest starts, None if there is no name left. */
  predicate Skipped(path: seq<char>, i: nat, r: Option<nat>, name: seq<char>) {
    && i <= |path| && (r.None? <==> Parts(path[i..]) == [])
    && (r.Some? ==> i < r.value <= |path| && Parts(path[i..]) == [name] + Parts(path[r.value..]))
    && (r.Some? ==> (r.value == |path| <==> Parts(path[r.value..]) == []))
  }

  method SkipSlashes(path: seq<char>, i: nat) returns (s: nat)
    requires i <= |path|
    ensures i <= s <= |path| && AllSlashes(path, i, s) && (s < |path| ==> path[s] != '/')
  {
    s := i;
    while s < |path| && path[s] == '/'
      invariant i <= s <= |path| && AllSlashes(path, i, s)
    {
      s := s + 1;
    }
  }

  method TakeName(path: seq<char>, s: nat) returns (e: nat, name: seq<char>)
    requires s < |path| && path[s] != '/'
    ensures s < e <= |path| && NoSlash(path, s, e) && (e < |path| ==> path[e] == '/') && name == Key(path[s..e])
  {
    e := s;
    while e < |path| && path[e] != '/'
      invariant s <= e <= |path| && NoSlash(path, s, e)
    {
      e := e + 1;
    }
    if e - s >= DIRSIZ {
      name := path[s..s + DIRSIZ];
      assert name == path[s..e][..DIRSIZ];
    } else {
      name := path[s..e];
    }
  }

  lemma PartsAt(path: seq<char>, i: nat, s: nat, e: nat, t: nat)
    requires i <= s < e <= t <= |path| && AllSlashes(path, i, s) && path[s] != '/' && NoSlash(path, s, e)
    requires (e < |path| ==> path[e] == '/') && AllSlashes(path, e, t) && (t < |path| ==> path[t] != '/')
    ensures Skipped(path, i, Some(t), Key(path[s..e]))
  {
    SkipTo(path, i, s);
    OnePart(path, s, e);
    SkipTo(path, e, t);
  }

  /** The rest of a path is empty exactly when it has no more names, so that namex can tell the last one. */
  method Skipelem(path: seq<char>, i: nat) returns (r: Option<nat>, name: seq<char>)
    requires i <= |path|
    ensures Skipped(path, i, r, name)
  {
    var s := SkipSlashes(path, i);
    if s == |path| {
      SkipTo(path, i, s);
      return None, "";
    }
    var e;
    e, name := TakeName(path, s);
    var t := SkipSlashes(path, e);
    PartsAt(path, i, s, e, t);
    r := Some(t);
  }
}
