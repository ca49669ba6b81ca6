/**
 The pattern matcher of grep.c. A pattern means a sequence of tokens, each taking a piece of the text;
 the matcher is proved to find a match exactly when such a cutting of the text exists. Strings are
 sequences of characters other than NUL, without their terminator.
 */
module Regex {

  // ---------- What a pattern means ----------

  datatype Tok = One(c: char) | Star(c: char)

  predicate Fits(c: char, x: char) { c == '.' || c == x }

  predicate AllFit(c: char, s: seq<char>) { forall i :: 0 <= i < |s| ==> Fits(c, s[i]) }

  predicate Takes(tok: Tok, s: seq<char>) {
    match tok
    case One(c) => |s| == 1 && Fits(c, s[0])
    case Star(c) => AllFit(c, s)
  }

  /** A character before '*' is starred, whatever it is; a '$' that ends the pattern is no token. */
  function Toks(re: seq<char>): seq<Tok> {
    if |re| == 0 || re == "$" then []
    else if |re| >= 2 && re[1] == '*' then [Star(re[0])] + Toks(re[2..])
    else [One(re[0])] + Toks(re[1..])
  }

  /** The pattern ends with a '$' that anchors it. */
  predicate AtEnd(re: seq<char>) {
    |re| > 0 && (re == "$" || if |re| >= 2 && re[1] == '*' then AtEnd(re[2..]) else AtEnd(re[1..]))
  }

  /** Token i takes text[cuts[i]..cuts[i + 1]]. */
  predicate Piece(toks: seq<Tok>, text: seq<char>, cuts: seq<nat>, i: nat)
    requires i < |toks| && |cuts| == |toks| + 1
  {
    cuts[i] <= cuts[i + 1] <= |text| && Takes(toks[i], text[cuts[i]..cuts[i + 1]])
  }

  /** The tokens take consecutive pieces from the start of the text on. */
  predicate Cut(toks: seq<Tok>, text: seq<char>, cuts: seq<nat>) {
    && |cuts| == |toks| + 1 && cuts[0] == 0 && cuts[|toks|] <= |text|
    && forall i: nat :: i < |toks| ==> Piece(toks, text, cuts, i)
  }

  predicate CutAs(re: seq<char>, text: seq<char>, cuts: seq<nat>) {
    Cut(Toks(re), text, cuts) && (AtEnd(re) ==> cuts[|Toks(re)|] == |text|)
  }

  /** The text starts with a match of re. */
  ghost predicate Admits(re: seq<char>, text: seq<char>) { exists cuts :: CutAs(re, text, cuts) }

  /** The text contains a match of re; '^' anchors it to the start. */
  ghost predicate Matches(re: seq<char>, text: seq<char>) {
    if |re| > 0 && re[0] == '^' then Admits(re[1..], text) else exists i: nat :: AdmitsFrom(re, text, i)
  }

  ghost predicate AdmitsFrom(re: seq<char>, text: seq<char>, i: nat) { i <= |text| && Admits(re, text[i..]) }

  // ---------- One token at a time ----------

  function Shift(cuts: seq<nat>, d: nat): (r: seq<nat>)
    ensures |r| == |cuts| && forall i :: 0 <= i < |r| ==> r[i] == cuts[i] + d
  {
    seq(|cuts|, i requires 0 <= i < |cuts| => cuts[i] + d)
  }

  /** The first token takes text[..d], the others the rest. */
  lemma ConsCut(tok: Tok, toks: seq<Tok>, text: seq<char>, d: nat, cuts: seq<nat>)
    requires d <= |text| && Takes(tok, text[..d]) && Cut(toks, text[d..], cuts)
    ensures Cut([tok] + toks, text, [0] + Shift(cuts, d))
  {
    var all, more := [tok] + toks, [0] + Shift(cuts, d);
    forall i: nat | i < |all| ensures Piece(all, text, more, i) {
      if i == 0 {
        assert text[0..d] == text[..d];
      } else {
        assert Piece(toks, text[d..], cuts, i - 1);
        assert text[d..][cuts[i - 1]..cuts[i]] == text[more[i]..more[i + 1]];
      }
    }
  }

  function Unshift(cuts: seq<nat>): (r: seq<nat>)
    requires |cuts| >= 2 && forall i :: 1 <= i < |cuts| ==> cuts[1] <= cuts[i]
    ensures |r| == |cuts| - 1 && forall i :: 0 <= i < |r| ==> r[i] + cuts[1] == cuts[i + 1]
  {
    seq(|cuts| - 1, i requires 0 <= i < |cuts| - 1 => cuts[i + 1] - cuts[1])
  }

  lemma TailPiece(tok: Tok, toks: seq<Tok>, text: seq<char>, cuts: seq<nat>, rest: seq<nat>, i: nat)
    requires |cuts| == |toks| + 2 && i < |toks| && Piece([tok] + toks, text, cuts, i + 1) && cuts[1] <= |text|
    requires |rest| == |toks| + 1 && rest[i] + cuts[1] == cuts[i + 1] && rest[i + 1] + cuts[1] == cuts[i + 2]
    ensures Piece(toks, text[cuts[1]..], rest, i)
  {
    assert ([tok] + toks)[i + 1] == toks[i];
    assert text[cuts[1]..][rest[i]..rest[i + 1]] == text[cuts[i + 1]..cuts[i + 2]];
  }

  lemma TailCut(tok: Tok, toks: seq<Tok>, text: seq<char>, cuts: seq<nat>) returns (rest: seq<nat>)
    requires Cut([tok] + toks, text, cuts)
    ensures cuts[1] <= |text| && Takes(tok, text[..cuts[1]]) && Cut(toks, text[cuts[1]..], rest)
    ensures rest[|toks|] + cuts[1] == cuts[|toks| + 1]
  {
    var all := [tok] + toks;
    assert Piece(all, text, cuts, 0) && text[0..cuts[1]] == text[..cuts[1]];
    Ordered(all, text, cuts, 1);
    rest := Unshift(cuts);
    forall i: nat | i < |toks| ensures Piece(toks, text[cuts[1]..], rest, i) {
      assert Piece(all, text, cuts, i + 1);
      TailPiece(tok, toks, text, cuts, rest, i);
    }
  }

  lemma {:induction false} Ordered(toks: seq<Tok>, text: seq<char>, cuts: seq<nat>, k: nat)
    requires Cut(toks, text, cuts) && k <= |toks|
    ensures forall i :: k <= i <= |toks| ==> cuts[k] <= cuts[i] <= |text|
    decreases |toks| - k
  {
    if k < |toks| {
      assert Piece(toks, text, cuts, k);
      Ordered(toks, text, cuts, k + 1);
    }
  }

  lemma AdmitsEmpty(text: seq<char>)
    ensures Admits("", text)
  {
    assert CutAs("", text, [0]);
  }

  lemma AdmitsDollar(text: seq<char>)
    ensures Admits("$", text) <==> text == ""
  {
    assert Toks("$") == [] && AtEnd("$");
    if text == "" {
      assert CutAs("$", text, [0]);
    }
  }

  lemma AdmitsOne(re: seq<char>, text: seq<char>)
    requires |re| > 0 && re != "$" && !(|re| >= 2 && re[1] == '*')
    ensures Admits(re, text) <==> |text| > 0 && Fits(re[0], text[0]) && Admits(re[1..], text[1..])
  {
    var tok, toks := One(re[0]), Toks(re[1..]);
    if Admits(re, text) {
      var cuts :| CutAs(re, text, cuts);
      var rest := TailCut(tok, toks, text, cuts);
      assert cuts[1] == 1 && CutAs(re[1..], text[1..], rest);
    }
    if |text| > 0 && Fits(re[0], text[0]) && Admits(re[1..], text[1..]) {
      var cuts :| CutAs(re[1..], text[1..], cuts);
      assert Takes(tok, text[..1]);
      ConsCut(tok, toks, text, 1, cuts);
      assert CutAs(re, text, [0] + Shift(cuts, 1));
    }
  }

  /** The star takes the first i characters. */
  ghost predicate StarFrom(c: char, re: seq<char>, text: seq<char>, i: nat) {
    i <= |text| && AllFit(c, text[..i]) && Admits(re, text[i..])
  }

  lemma AdmitsStar(re: seq<char>, text: seq<char>)
    requires |re| >= 2 && re[1] == '*'
    ensures Admits(re, text) <==> exists i: nat :: StarFrom(re[0], re[2..], text, i)
  {
    var tok, toks := Star(re[0]), Toks(re[2..]);
    if Admits(re, text) {
      var cuts :| CutAs(re, text, cuts);
      var rest := TailCut(tok, toks, text, cuts);
      assert CutAs(re[2..], text[cuts[1]..], rest);
      assert StarFrom(re[0], re[2..], text, cuts[1]);
    }
    if i: nat :| StarFrom(re[0], re[2..], text, i) {
      var cuts :| CutAs(re[2..], text[i..], cuts);
      ConsCut(tok, toks, text, i, cuts);
      assert CutAs(re, text, [0] + Shift(cuts, i));
    }
  }

  // ---------- The matcher ----------

  method Matchhere(re: seq<char>, text: seq<char>) returns (r: bool)
    ensures r <==> Admits(re, text)
    decreases |re|, 1
  {
    if |re| == 0 {
      AdmitsEmpty(text);
      return true;
    }
    if |re| >= 2 && re[1] == '*' {
      AdmitsStar(re, text);
      r := Matchstar(re[0], re[2..], text);
      return;
    }
    if re[0] == '$' && |re| == 1 {
      AdmitsDollar(text);
      return text == "";
    }
    AdmitsOne(re, text);
    if |text| > 0 && (re[0] == '.' || re[0] == text[0]) {
      r := Matchhere(re[1..], text[1..]);
      return;
    }
    r := false;
  }

  method Matchstar(c: char, re: seq<char>, text: seq<char>) returns (r: bool)
    ensures r <==> exists i: nat :: StarFrom(c, re, text, i)
    decreases |re|, 2
  {
    var i := 0;
    while true
      invariant 0 <= i <= |text| && AllFit(c, text[..i])
      invariant forall j: nat :: j < i ==> !StarFrom(c, re, text, j)
      decreases |text| - i
    {
      var here := Matchhere(re, text[i..]);
      if here {
        assert StarFrom(c, re, text, i);
        return true;
      }
      if !(i < |text| && (text[i] == c || c == '.')) {
        break;
      }
      i := i + 1;
    }
    forall j: nat ensures !StarFrom(c, re, text, j) {
      assert i < j <= |text| && AllFit(c, text[..j]) ==> Fits(c, text[..j][i]);
    }
    r := false;
  }

  /** grep's match is true exactly when the text contains a match in the sense above. */
  method Match(re: seq<char>, text: seq<char>) returns (r: bool)
    ensures r <==> Matches(re, text)
  {
    if |re| > 0 && re[0] == '^' {
      r := Matchhere(re[1..], text);
      return;
    }
    var i := 0;
    while true
      invariant 0 <= i <= |text| && forall j: nat :: j < i ==> !AdmitsFrom(re, text, j)
      decreases |text| - i
    {
      var here := Matchhere(re, text[i..]);
      if here {
        assert AdmitsFrom(re, text, i);
        return true;
      }
      if i == |text| {
        break;
      }
      i := i + 1;
    }
    r := false;
  }
}
