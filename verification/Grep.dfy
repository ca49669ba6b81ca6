/**
 The line-buffering loop of grep.c: reads of any sizes into a buffer of 1024 bytes, whose complete lines
 are matched and written out, the rest moved to the front.
 */
module Grep {
  import opened Regex

  const SIZE: nat := 1024

  /** Position of the first newline, |s| if there is none. */
  function Newline(s: seq<char>): (i: nat)
    ensures i <= |s| && (i < |s| ==> s[i] == '\n') && forall j :: 0 <= j < i ==> s[j] != '\n'
  {
    if |s| == 0 || s[0] == '\n' then 0 else 1 + Newline(s[1..])
  }

  /** The lines of s that match, each with its newline; an unfinished last line does not count. */
  ghost function Selected(re: seq<char>, s: seq<char>): seq<char>
    decreases |s|
  {
    var i := Newline(s);
    if i == |s| then []
    else (if Matches(re, s[..i]) then s[..i + 1] else []) + Selected(re, s[i + 1..])
  }

  /** What comes after the last newline. */
  function Unfinished(s: seq<char>): seq<char>
    decreases |s|
  {
    var i := Newline(s);
    if i == |s| then s else Unfinished(s[i + 1..])
  }

  /** Every finished line, with its newline, fits the buffer next to a terminating NUL. */
  predicate LinesFit(s: seq<char>)
    decreases |s|
  {
    var i := Newline(s);
    i == |s| || (i + 1 <= SIZE - 1 && LinesFit(s[i + 1..]))
  }

  lemma NewlineAt(s: seq<char>, i: nat)
    requires i < |s| && s[i] == '\n' && forall j :: 0 <= j < i ==> s[j] != '\n'
    ensures Newline(s) == i
  {
  }

  lemma NoNewline(s: seq<char>)
    requires forall j :: 0 <= j < |s| ==> s[j] != '\n'
    ensures Newline(s) == |s|
  {
  }

  /** The first line of s ends at i. */
  lemma {:induction false} FirstLine(re: seq<char>, s: seq<char>, i: nat)
    requires i < |s| && i == Newline(s)
    ensures Selected(re, s) == (if Matches(re, s[..i]) then s[..i + 1] else []) + Selected(re, s[i + 1..])
    ensures Unfinished(s) == Unfinished(s[i + 1..]) && (LinesFit(s) <==> i + 1 <= SIZE - 1 && LinesFit(s[i + 1..]))
  {
  }

  lemma {:induction false} JoinLine(re: seq<char>, a: seq<char>, b: seq<char>, i: nat)
    requires i < |a| && i == Newline(a)
    ensures i == Newline(a + b) && (a + b)[..i] == a[..i]
    ensures (a + b)[..i + 1] == a[..i + 1] && (a + b)[i + 1..] == a[i + 1..] + b
  {
    NewlineAt(a + b, i);
  }

  /** Reading a and then b selects what reading both at once does. */
  lemma {:induction false} SelectedConcat(re: seq<char>, a: seq<char>, b: seq<char>)
    ensures Selected(re, a + b) == Selected(re, a) + Selected(re, Unfinished(a) + b)
    decreases |a|
  {
    var i := Newline(a);
    if i < |a| {
      JoinLine(re, a, b, i);
      FirstLine(re, a, i);
      FirstLine(re, a + b, i);
      SelectedConcat(re, a[i + 1..], b);
      var head := if Matches(re, a[..i]) then a[..i + 1] else [];
      var tail := a[i + 1..];
      assert head + (Selected(re, tail) + Selected(re, Unfinished(tail) + b)) ==
        head + Selected(re, tail) + Selected(re, Unfinished(tail) + b);
    }
  }

  lemma {:induction false} UnfinishedConcat(a: seq<char>, b: seq<char>)
    ensures Unfinished(a + b) == Unfinished(Unfinished(a) + b)
    ensures LinesFit(a + b) ==> LinesFit(Unfinished(a) + b)
    decreases |a|
  {
    var i := Newline(a);
    if i < |a| {
      JoinLine("", a, b, i);
      FirstLine("", a, i);
      FirstLine("", a + b, i);
      UnfinishedConcat(a[i + 1..], b);
    }
  }

  lemma {:induction false} UnfinishedPlain(s: seq<char>)
    ensures Newline(Unfinished(s)) == |Unfinished(s)| && Selected("", Unfinished(s)) == []
    decreases |s|
  {
    if Newline(s) < |s| {
      UnfinishedPlain(s[Newline(s) + 1..]);
    }
  }

  /** Of t, s is still to be looked at, and out was selected from what went before. */
  ghost predicate Progress(re: seq<char>, t: seq<char>, out: seq<char>, s: seq<char>) {
    Selected(re, t) == out + Selected(re, s) && Unfinished(t) == Unfinished(s)
  }

  // ---------- Lines that do not fit ----------

  /** The input up to the first line that does not fit the buffer. */
  function Kept(s: seq<char>): seq<char>
    decreases |s|
  {
    var i := Newline(s);
    if i == |s| then s else if i + 1 > SIZE - 1 then [] else s[..i + 1] + Kept(s[i + 1..])
  }

  lemma {:induction false} ShortFits(s: seq<char>)
    requires |s| <= SIZE - 1
    ensures LinesFit(s)
    decreases |s|
  {
    if Newline(s) < |s| {
      ShortFits(s[Newline(s) + 1..]);
    }
  }

  lemma {:induction false} FitConcat(a: seq<char>, b: seq<char>)
    requires LinesFit(a) && |Unfinished(a)| + |b| <= SIZE - 1
    ensures LinesFit(a + b)
    decreases |a|
  {
    var i := Newline(a);
    if i == |a| {
      ShortFits(a + b);
    } else {
      JoinLine("", a, b, i);
      FirstLine("", a, i);
      FitConcat(a[i + 1..], b);
    }
  }

  lemma {:induction false} KeptFits(s: seq<char>)
    requires LinesFit(s)
    ensures Kept(s) == s
    decreases |s|
  {
    var i := Newline(s);
    if i < |s| {
      KeptFits(s[i + 1..]);
      assert s[..i + 1] + s[i + 1..] == s;
    }
  }

  lemma {:induction false} SelectedLine(re: seq<char>, line: seq<char>, rest: seq<char>, i: nat)
    requires |line| == i + 1 && i == Newline(line)
    ensures Selected(re, line + rest) == (if Matches(re, line[..i]) then line else []) + Selected(re, rest)
  {
    var s := line + rest;
    JoinLine(re, line, rest, i);
    FirstLine(re, s, i);
    assert s[i + 1..] == rest && s[..i + 1] == line;
  }

  /** What is selected from a line that fits and what is kept after it. */
  lemma {:induction false} KeptLine(re: seq<char>, s: seq<char>, i: nat)
    requires i < |s| && i == Newline(s) && i + 1 <= SIZE - 1
    ensures Selected(re, Kept(s)) == (if Matches(re, s[..i]) then s[..i + 1] else []) + Selected(re, Kept(s[i + 1..]))
  {
    var line := s[..i + 1];
    NewlineAt(line, i);
    assert line[..i] == s[..i];
    SelectedLine(re, line, Kept(s[i + 1..]), i);
  }

  /** Where the loop stops, at the end of the input or on a full buffer, it has seen all that is kept. */
  lemma {:induction false} StopsAtMisfit(re: seq<char>, a: seq<char>, b: seq<char>)
    requires LinesFit(a) && (b == [] || |Unfinished(a)| >= SIZE - 1)
    ensures Selected(re, Kept(a + b)) == Selected(re, a)
    ensures LinesFit(a + b) ==> Selected(re, a + b) == Selected(re, a)
    decreases |a|
  {
    var i := Newline(a);
    if i == |a| {
      var s := a + b;
      assert forall j :: 0 <= j < |a| ==> s[j] == a[j];
      assert Newline(s) >= |a|;
      assert b == [] ==> s == a;
    } else {
      JoinLine(re, a, b, i);
      FirstLine(re, a, i);
      FirstLine(re, a + b, i);
      KeptLine(re, a + b, i);
      StopsAtMisfit(re, a[i + 1..], b);
    }
  }

  lemma {:induction false} MisfitLoses(s: seq<char>)
    requires !LinesFit(s)
    ensures |Selected("", Kept(s))| < |Selected("", s)|
    decreases |s|
  {
    var i := Newline(s);
    FirstLine("", s, i);
    EveryLineMatches(s[..i]);
    if i + 1 <= SIZE - 1 {
      KeptLine("", s, i);
      MisfitLoses(s[i + 1..]);
    }
  }

  lemma EveryLineMatches(text: seq<char>)
    ensures Matches("", text)
  {
    AdmitsEmpty(text[0..]);
    assert AdmitsFrom("", text, 0);
  }

  /** The lines that match, an unfinished last line included. */
  ghost function AllSelected(re: seq<char>, s: seq<char>): seq<char> {
    Selected(re, s) + if Matches(re, Unfinished(s)) then Unfinished(s) else []
  }

  /** grep selects every line of its input, whatever the pattern, exactly when all lines fit the buffer and the last
      one ends in a newline. */
  lemma GrepIffLinesFit(input: seq<char>)
    ensures (forall re :: Selected(re, Kept(input)) == AllSelected(re, input)) <==>
      LinesFit(input) && Unfinished(input) == []
  {
    EveryLineMatches(Unfinished(input));
    assert |AllSelected("", input)| == |Selected("", input)| + |Unfinished(input)|;
    if LinesFit(input) {
      KeptFits(input);
      if Unfinished(input) == [] {
        forall re ensures Selected(re, Kept(input)) == AllSelected(re, input) {
        }
      }
    } else {
      MisfitLoses(input);
    }
  }

  /** What one read adds, given what the buffer still holds. */
  lemma {:induction false} AfterRead(re: seq<char>, done: seq<char>, data: seq<char>, next: seq<char>)
    requires next == done + data && LinesFit(done) && |Unfinished(done)| + |data| <= SIZE - 1
    ensures Selected(re, next) == Selected(re, done) + Selected(re, Unfinished(done) + data)
    ensures Unfinished(next) == Unfinished(Unfinished(done) + data) && LinesFit(next)
  {
    SelectedConcat(re, done, data);
    UnfinishedConcat(done, data);
    FitConcat(done, data);
  }

  lemma {:induction false} ProgressLine(re: seq<char>, t: seq<char>, out: seq<char>, s: seq<char>, i: nat,
      more: seq<char>, rest: seq<char>)
    requires Progress(re, t, out, s) && i == Newline(s) && i < |s| && rest == s[i + 1..]
    requires more == if Matches(re, s[..i]) then s[..i + 1] else []
    ensures Progress(re, t, out + more, rest)
  {
    FirstLine(re, s, i);
    assert out + (more + Selected(re, rest)) == (out + more) + Selected(re, rest);
  }

  lemma Parts(b: seq<char>, s: seq<char>, p: nat, q: nat, m: nat, i: nat)
    requires p <= q < m <= |b| && s == b[p..m] && i == q - p
    ensures b[p..q] == s[..i] && b[p..q + 1] == s[..i + 1] && b[q + 1..m] == s[i + 1..] && b[q] == s[i]
  {
  }

  class Grepper {
    const buf: array<char>

    constructor ()
      ensures buf.Length == SIZE && fresh(buf)
    {
      buf := new char[SIZE](_ => '\0');
    }

    /** strchr(buf + p, '\n') in text that ends at m. */
    method Strchr(p: nat, m: nat) returns (q: nat)
      requires p <= m <= buf.Length
      ensures q == p + Newline(buf[p..m])
    {
      q := p;
      while q < m && buf[q] != '\n'
        invariant p <= q <= m && forall j :: p <= j < q ==> buf[j] != '\n'
      {
        q := q + 1;
      }
      ghost var s := buf[p..m];
      assert forall j :: 0 <= j < q - p ==> s[j] != '\n';
      if q < m {
        NewlineAt(s, q - p);
      } else {
        NoNewline(s);
      }
    }

    /** One line, of which buf[q] is the newline: written out if it matches. */
    method Line(re: seq<char>, p: nat, q: nat, ghost m: nat) returns (out: seq<char>)
      requires p <= q < m <= buf.Length && buf[q] == '\n'
      modifies buf
      ensures out == if Matches(re, old(buf[p..q])) then old(buf[p..q + 1]) else []
      ensures buf[q + 1..m] == old(buf[q + 1..m])
    {
      buf[q] := '\0';
      var ok := Match(re, buf[p..q]);
      assert buf[p..q] == old(buf[p..q]);
      out := [];
      if ok {
        buf[q] := '\n';
        out := buf[p..q + 1];
        assert out == old(buf[p..q + 1]);
      }
    }

    /** The inner loop: every finished line in buf[..m] is matched, and written out if it does. */
    method Lines(re: seq<char>, m: nat) returns (p: nat, out: seq<char>)
      requires m <= buf.Length
      modifies buf
      ensures p <= m && buf[p..m] == Unfinished(old(buf[..m])) && out == Selected(re, old(buf[..m]))
    {
      ghost var t, s := buf[..m], buf[..m];   // s: what is left of t
      p, out := 0, [];
      var q := Strchr(p, m);
      while q < m
        invariant p <= q <= m && q == p + Newline(s) && buf[p..m] == s
        invariant Progress(re, t, out, s)
        decreases m - p
      {
        ghost var i := q - p;
        ghost var rest := s[i + 1..];
        Parts(buf[..], s, p, q, m, i);
        var more := Line(re, p, q, m);
        ProgressLine(re, t, out, s, i, more, rest);
        out, p, s := out + more, q + 1, rest;
        q := Strchr(p, m);
      }
    }

    /** memmove(buf, buf + p, m - p) */
    method Shift(p: nat, m: nat)
      requires p <= m <= buf.Length
      modifies buf
      ensures buf[..m - p] == old(buf[p..m])
    {
      forall i | 0 <= i < m - p {
        buf[i] := buf[p + i];
      }
    }

    /** read(fd, buf + m, ...) of n bytes. */
    method Fill(m: nat, data: seq<char>)
      requires m + |data| < buf.Length
      modifies buf
      ensures buf[..m + |data|] == old(buf[..m]) + data
    {
      forall i | 0 <= i < |data| {
        buf[m + i] := data[i];
      }
      buf[m + |data|] := '\0';
    }

    /** What grep does with the bytes of one read. */
    method Chunk(re: seq<char>, m: nat, data: seq<char>, ghost left: seq<char>) returns (p: nat, out: seq<char>)
      requires m + |data| < buf.Length && buf[..m] == left
      modifies buf
      ensures p <= m + |data| && buf[..m + |data| - p] == Unfinished(left + data) && out == Selected(re, left + data)
    {
      Fill(m, data);
      assert buf[..m + |data|] == left + data;
      p, out := Lines(re, m + |data|);
      Shift(p, m + |data|);
    }

    /** One round of grep's loop, `done` being what was read before it. */
    method Round(re: seq<char>, m: nat, data: seq<char>, ghost done: seq<char>, ghost next: seq<char>)
      returns (m': nat, out: seq<char>)
      requires buf.Length == SIZE && m + |data| < SIZE && next == done + data
      requires LinesFit(done) && buf[..m] == Unfinished(done)
      modifies buf
      ensures m' < SIZE && buf[..m'] == Unfinished(next) && LinesFit(next)
      ensures Selected(re, done) + out == Selected(re, next)
    {
      AfterRead(re, done, data, next);
      var p;
      p, out := Chunk(re, m, data, Unfinished(done));
      m' := m + |data| - p;
    }

    /** How many bytes a read returns: it may return fewer than asked for, but none only at the end or without room. */
    method Available(want: nat, room: nat, left: nat) returns (n: nat)
      requires want >= 1
      ensures n <= room && n <= left && (n == 0 <==> room == 0 || left == 0)
    {
      n := if want > room then room else want;
      n := if n > left then left else n;
    }

    /** grep, for an input without NULs: read k returns want(k) bytes if there are as many and there is room. However
        the reads are cut, the lines written are those that match, up to the first that does not fit the buffer. */
    method Grep(re: seq<char>, input: seq<char>, want: nat -> nat) returns (out: seq<char>)
      requires buf.Length == SIZE && '\0' !in input && forall k :: want(k) >= 1
      modifies buf
      ensures out == Selected(re, Kept(input))
      ensures LinesFit(input) ==> out == Selected(re, input)
    {
      var m: nat, pos: nat, k: nat := 0, 0, 0;
      ghost var done: seq<char> := [];
      out := [];
      while true
        invariant m < SIZE && pos <= |input| && done == input[..pos] && buf[..m] == Unfinished(done)
        invariant out == Selected(re, done) && LinesFit(done)
        decreases |input| - pos
      {
        var n := Available(want(k), SIZE - m - 1, |input| - pos);
        if n == 0 {
          break;
        }
        var data := input[pos..pos + n];
        ghost var next := input[..pos + n];
        assert next == done + data;
        var more;
        m, more := Round(re, m, data, done, next);
        out := out + more;
        pos, k, done := pos + n, k + 1, next;
      }
      assert done + input[pos..] == input;
      StopsAtMisfit(re, done, input[pos..]);
    }
  }
}
