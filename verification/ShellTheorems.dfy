/** Parsing the printed form of a tree gives the tree back. */
module ShellTheorems {
  import opened ShellGrammar

  // ---------- Trees a command line can denote ----------

  predicate GoodWord(w: string) { |w| > 0 && forall k :: 0 <= k < |w| ==> WordChar(w[k]) }

  predicate GoodWords(ws: seq<string>) { forall k :: 0 <= k < |ws| ==> GoodWord(ws[k]) }

  /** Words are made of word characters, and every command has fewer than MAXARGS of them. */
  predicate GoodTree(t: Tree) {
    match t
    case Exec(words) => |words| < MAXARGS && GoodWords(words)
    case Redir(cmd, _, file) => GoodTree(cmd) && GoodWord(file)
    case Pipe(left, right) => GoodTree(left) && GoodTree(right)
    case List(left, right) => GoodTree(left) && GoodTree(right)
    case Back(cmd) => GoodTree(cmd)
  }

  predicate GoodWraps(ws: seq<Wrapping>) { forall k :: 0 <= k < |ws| ==> GoodWord(ws[k].file) }

  lemma {:induction false} GoodCore(t: Tree)
    requires GoodTree(t)
    ensures GoodTree(Core(t)) && GoodWraps(Wrappings(t))
  {
    if t.Redir? {
      GoodCore(t.cmd);
    }
  }

  // ---------- The parser on printed tokens ----------

  lemma {:induction false} FirstWrap(ws: seq<Wrapping>, rest: seq<Tok>, ts: seq<Tok>)
    requires |ws| > 0 && ts == WrapToks(ws) + rest
    ensures |ts| >= 2 && ts[0] == ModeTok(ws[0].mode)
    ensures ts[1] == Word(ws[0].file) && ts[2..] == WrapToks(ws[1..]) + rest
  {
  }

  lemma {:induction false} RedirsTrip(acc: seq<Wrapping>, ws: seq<Wrapping>, rest: seq<Tok>, ts: seq<Tok>)
    requires !IsRedir(rest) && ts == WrapToks(ws) + rest
    ensures ParseRedirs(acc, ts) == Ok(acc + ws, rest)
    decreases |ws|
  {
    if |ws| == 0 {
      assert ts == rest && acc + ws == acc;
    } else {
      FirstWrap(ws, rest, ts);
      assert acc + ws == acc + [ws[0]] + ws[1..];
      RedirsTrip(acc + [ws[0]], ws[1..], rest, ts[2..]);
    }
  }

  /** Where a command ends. */
  predicate EndsExec(rest: seq<Tok>) { |rest| == 0 || Starts(rest, "|)&;") }

  predicate EndsPipe(rest: seq<Tok>) { |rest| == 0 || Starts(rest, ")&;") }

  predicate EndsLine(rest: seq<Tok>) { |rest| == 0 || Starts(rest, ")") }

  lemma {:induction false} FirstWord(words: seq<string>, w: seq<Tok>, rest: seq<Tok>, ts: seq<Tok>)
    requires |words| > 0 && ts == Words(words) + w + rest
    ensures |ts| > 0 && ts[0] == Word(words[0]) && ts[1..] == Words(words[1..]) + w + rest
    ensures if |words| == 1 then ts[1..] == w + rest else |ts| > 1 && ts[1].Word?
  {
    assert Words(words)[1..] == Words(words[1..]);
  }

  lemma {:induction false} ArgsTrip(done: seq<string>, words: seq<string>, ws: seq<Wrapping>, rest: seq<Tok>,
      ts: seq<Tok>)
    requires |words| > 0 && |done| + |words| < MAXARGS && EndsExec(rest) && ts == Words(words) + WrapToks(ws) + rest
    ensures ParseArgs(done, [], ts) == Ok(Wrap(Exec(done + words), ws), rest)
    decreases |words|
  {
    FirstWord(words, WrapToks(ws), rest, ts);
    if |words| == 1 {
      RedirsTrip([], ws, rest, ts[1..]);
      assert [] + ws == ws && done + words == done + [words[0]];
    } else {
      assert done + words == done + [words[0]] + words[1..];
      ArgsTrip(done + [words[0]], words[1..], ws, rest, ts[1..]);
    }
  }

  lemma {:induction false} SimpleTrip(words: seq<string>, ws: seq<Wrapping>, rest: seq<Tok>, ts: seq<Tok>)
    requires |words| < MAXARGS && EndsExec(rest) && ts == Words(words) + WrapToks(ws) + rest
    ensures ParseExec(ts) == Ok(Wrap(Exec(words), ws), rest)
  {
    if |words| == 0 {
      assert ts == WrapToks(ws) + rest;
      RedirsTrip([], ws, rest, ts);
      assert [] + ws == ws;
      if |ws| > 0 {
        FirstWrap(ws, rest, ts);
      }
    } else {
      FirstWord(words, WrapToks(ws), rest, ts);
      ArgsTrip([], words, ws, rest, ts);
      assert [] + words == words;
    }
  }

  lemma BlockTrip(ts: seq<Tok>, t: Tree, ws: seq<Wrapping>, tail: seq<Tok>, rest: seq<Tok>)
    requires EndsExec(rest) && Starts(ts, "(") && ParseLine(ts[1..]) == Ok(t, tail)
    requires Starts(tail, ")") && tail[1..] == WrapToks(ws) + rest
    ensures ParseExec(ts) == Ok(Wrap(t, ws), rest)
  {
    RedirsTrip([], ws, rest, tail[1..]);
    assert [] + ws == ws;
  }

  lemma InParens(a: seq<Tok>, w: seq<Tok>, rest: seq<Tok>, ts: seq<Tok>, tail: seq<Tok>)
    requires ts == [Sym('(')] + a + [Sym(')')] + w + rest && tail == [Sym(')')] + w + rest
    ensures Starts(ts, "(") && ts[1..] == a + tail && Starts(tail, ")") && tail[1..] == w + rest
  {
  }

  lemma {:induction false} ExecTrip(t: Tree, rest: seq<Tok>)
    requires GoodTree(t) && EndsExec(rest)
    ensures ParseExec(ExecToks(t) + rest) == Ok(t, rest)
    decreases t, if Simple(t) || t.Redir? then 0 else 7
  {
    CoreWraps(t);
    GoodCore(t);
    var c, ws := Core(t), Wrappings(t);
    if Simple(t) {
      SimpleTrip(c.words, ws, rest, ExecToks(t) + rest);
    } else {
      var tail := [Sym(')')] + WrapToks(ws) + rest;
      InParens(LineToks(c), WrapToks(ws), rest, ExecToks(t) + rest, tail);
      LineTrip(c, tail);
      BlockTrip(ExecToks(t) + rest, c, ws, tail, rest);
    }
  }

  lemma Between(a: seq<Tok>, x: Tok, b: seq<Tok>, rest: seq<Tok>, ts: seq<Tok>, tail: seq<Tok>)
    requires ts == a + [x] + b + rest && tail == [x] + b + rest
    ensures ts == a + tail && |tail| > 0 && tail[0] == x && tail[1..] == b + rest
  {
  }

  lemma {:induction false} PipeTrip(t: Tree, rest: seq<Tok>)
    requires GoodTree(t) && EndsPipe(rest)
    ensures ParsePipe(PipeToks(t) + rest) == Ok(t, rest)
    decreases t, if t.List? || t.Back? then 8 else 4
  {
    if t.Pipe? {
      var tail := [Sym('|')] + PipeToks(t.right) + rest;
      Between(ExecToks(t.left), Sym('|'), PipeToks(t.right), rest, PipeToks(t) + rest, tail);
      ExecTrip(t.left, tail);
      PipeTrip(t.right, rest);
    } else {
      ExecTrip(t, rest);
    }
  }

  lemma {:induction false} BackTrip(t: Tree, rest: seq<Tok>)
    requires GoodTree(t) && EndsPipe(rest)
    ensures ParseLine(BackToks(t) + rest) == ParseTail(t, rest)
    decreases t, if t.List? then 9 else 5
  {
    if t.Back? {
      var tail := [Sym('&')] + rest;
      BackTrip(t.cmd, tail);
      assert BackToks(t) + rest == BackToks(t.cmd) + tail;
      assert tail[1..] == rest;
    } else {
      PipeTrip(t, rest);
    }
  }

  lemma {:induction false} LineTrip(t: Tree, rest: seq<Tok>)
    requires GoodTree(t) && EndsLine(rest)
    ensures ParseLine(LineToks(t) + rest) == Ok(t, rest)
    decreases t, 6
  {
    if t.List? {
      var tail := [Sym(';')] + LineToks(t.right) + rest;
      Between(BackToks(t.left), Sym(';'), LineToks(t.right), rest, LineToks(t) + rest, tail);
      BackTrip(t.left, tail);
      LineTrip(t.right, rest);
    } else {
      BackTrip(t, rest);
    }
  }

  // ---------- The lexer on printed tokens ----------

  predicate GoodTok(t: Tok) { match t case Sym(c) => Symbol(c) case Append => true case Word(w) => GoodWord(w) }

  predicate GoodToks(ts: seq<Tok>) { forall k :: 0 <= k < |ts| ==> GoodTok(ts[k]) }

  lemma {:induction false} WordLenOf(w: string, rest: string)
    requires (forall k :: 0 <= k < |w| ==> WordChar(w[k])) && |rest| > 0 && !WordChar(rest[0])
    ensures WordLen(w + rest) == |w|
  {
    var s := w + rest;
    assert s[|w|] == rest[0];
    assert forall k :: 0 <= k < |w| ==> s[k] == w[k];
  }

  lemma FirstTok(t: Tok, rest: string)
    requires GoodTok(t) && |rest| > 0 && White(rest[0])
    ensures var s := ShowTok(t) + rest; |s| > 0 && !White(s[0]) && TokAt(s) == t && s[TokLen(s)..] == rest
  {
    var s := ShowTok(t) + rest;
    if t.Word? {
      WordLenOf(t.w, rest);
    }
  }

  lemma {:induction false} ToksShow(ts: seq<Tok>)
    requires GoodToks(ts)
    ensures Toks(Show(ts)) == ts
    decreases |ts|
  {
    if |ts| > 0 {
      var rest := " " + Show(ts[1..]);
      FirstTok(ts[0], rest);
      assert Show(ts) == ShowTok(ts[0]) + rest;
      assert rest[1..] == Show(ts[1..]);
      ToksShow(ts[1..]);
    }
  }

  lemma {:induction false} WrapToksGood(ws: seq<Wrapping>)
    requires GoodWraps(ws)
    ensures GoodToks(WrapToks(ws))
    decreases |ws|
  {
    if |ws| > 0 {
      WrapToksGood(ws[1..]);
    }
  }

  lemma {:induction false} ExecToksGood(t: Tree)
    requires GoodTree(t)
    ensures GoodToks(ExecToks(t))
    decreases t, if Simple(t) || t.Redir? then 0 else 7
  {
    CoreWraps(t);
    GoodCore(t);
    WrapToksGood(Wrappings(t));
    if !Simple(t) {
      LineToksGood(Core(t));
    }
  }

  lemma {:induction false} PipeToksGood(t: Tree)
    requires GoodTree(t)
    ensures GoodToks(PipeToks(t))
    decreases t, if t.List? || t.Back? then 8 else 4
  {
    if t.Pipe? {
      ExecToksGood(t.left);
      PipeToksGood(t.right);
    } else {
      ExecToksGood(t);
    }
  }

  lemma {:induction false} BackToksGood(t: Tree)
    requires GoodTree(t)
    ensures GoodToks(BackToks(t))
    decreases t, if t.List? then 9 else 5
  {
    if t.Back? {
      BackToksGood(t.cmd);
    } else {
      PipeToksGood(t);
    }
  }

  lemma {:induction false} LineToksGood(t: Tree)
    requires GoodTree(t)
    ensures GoodToks(LineToks(t))
    decreases t, 6
  {
    if t.List? {
      BackToksGood(t.left);
      LineToksGood(t.right);
    } else {
      BackToksGood(t);
    }
  }

  /** For every tree whose commands have fewer than MAXARGS words. */
  lemma RoundTrip(t: Tree)
    requires GoodTree(t)
    ensures Parse(Print(t)) == Ok(t, [])
  {
    LineToksGood(t);
    ToksShow(LineToks(t));
    LineTrip(t, []);
    assert LineToks(t) + [] == LineToks(t);
  }

  // ---------- Nothing else is ever parsed ----------

  lemma {:induction false} ToksGood(s: string)
    ensures GoodToks(Toks(s))
    decreases |s|
  {
    if |s| > 0 {
      if White(s[0]) {
        ToksGood(s[1..]);
      } else {
        ToksGood(s[TokLen(s)..]);
        assert TokAt(s).Word? ==> GoodWord(TokAt(s).w);
      }
    }
  }

  lemma {:induction false} WrapGood(t: Tree, ws: seq<Wrapping>)
    requires GoodTree(t) && GoodWraps(ws)
    ensures GoodTree(Wrap(t, ws))
    decreases |ws|
  {
    if |ws| > 0 {
      WrapGood(t, ws[..|ws| - 1]);
    }
  }

  lemma {:induction false} RedirsGood(ws: seq<Wrapping>, ts: seq<Tok>)
    requires GoodWraps(ws) && GoodToks(ts) && ParseRedirs(ws, ts).Ok?
    ensures GoodWraps(ParseRedirs(ws, ts).value) && GoodToks(ParseRedirs(ws, ts).rest)
    decreases |ts|
  {
    if IsRedir(ts) {
      assert GoodTok(ts[1]);
      RedirsGood(ws + [Wrapping(ModeOf(ts[0]), ts[1].w)], ts[2..]);
    }
  }

  lemma {:induction false} ArgsGood(words: seq<string>, ws: seq<Wrapping>, ts: seq<Tok>)
    requires |words| < MAXARGS && GoodWords(words) && GoodWraps(ws) && GoodToks(ts) && ParseArgs(words, ws, ts).Ok?
    ensures GoodTree(ParseArgs(words, ws, ts).value) && GoodToks(ParseArgs(words, ws, ts).rest)
    decreases |ts|
  {
    if |ts| == 0 || Starts(ts, "|)&;") {
      WrapGood(Exec(words), ws);
    } else {
      assert GoodTok(ts[0]);
      RedirsGood(ws, ts[1..]);
      var r := ParseRedirs(ws, ts[1..]);
      ArgsGood(words + [ts[0].w], r.value, r.rest);
    }
  }

  lemma {:induction false} ExecGood(ts: seq<Tok>)
    requires GoodToks(ts) && ParseExec(ts).Ok?
    ensures GoodTree(ParseExec(ts).value) && GoodToks(ParseExec(ts).rest)
    decreases |ts|, 1
  {
    if Starts(ts, "(") {
      LineGood(ts[1..]);
      var inner := ParseLine(ts[1..]);
      RedirsGood([], inner.rest[1..]);
      WrapGood(inner.value, ParseRedirs([], inner.rest[1..]).value);
    } else {
      RedirsGood([], ts);
      ArgsGood([], ParseRedirs([], ts).value, ParseRedirs([], ts).rest);
    }
  }

  lemma {:induction false} PipeGood(ts: seq<Tok>)
    requires GoodToks(ts) && ParsePipe(ts).Ok?
    ensures GoodTree(ParsePipe(ts).value) && GoodToks(ParsePipe(ts).rest)
    decreases |ts|, 2
  {
    ExecGood(ts);
    if Starts(ParseExec(ts).rest, "|") {
      PipeGood(ParseExec(ts).rest[1..]);
    }
  }

  lemma {:induction false} TailGood(t: Tree, ts: seq<Tok>)
    requires GoodTree(t) && GoodToks(ts) && ParseTail(t, ts).Ok?
    ensures GoodTree(ParseTail(t, ts).value) && GoodToks(ParseTail(t, ts).rest)
    decreases |ts|, 3
  {
    if Starts(ts, "&") {
      TailGood(Back(t), ts[1..]);
    } else if Starts(ts, ";") {
      LineGood(ts[1..]);
    }
  }

  lemma {:induction false} LineGood(ts: seq<Tok>)
    requires GoodToks(ts) && ParseLine(ts).Ok?
    ensures GoodTree(ParseLine(ts).value) && GoodToks(ParseLine(ts).rest)
    decreases |ts|, 4
  {
    PipeGood(ts);
    TailGood(ParsePipe(ts).value, ParsePipe(ts).rest);
  }

  predicate ParsesTo(s: string, t: Tree) { Parse(s) == Ok(t, []) }

  /** The trees some command line parses to are exactly the good ones. */
  lemma ParsedIffGood(t: Tree)
    ensures (exists s :: ParsesTo(s, t)) <==> GoodTree(t)
  {
    if GoodTree(t) {
      RoundTrip(t);
      assert ParsesTo(Print(t), t);
    }
    if s :| ParsesTo(s, t) {
      ToksGood(s);
      LineGood(Toks(s));
    }
  }
}
