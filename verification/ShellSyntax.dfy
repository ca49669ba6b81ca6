/**
 What a command line means, said apart from the parser: the written forms of the language, the tokens each is
 spelled with and the tree each stands for. A line parses to a tree exactly when it spells a form that stands
 for the tree, and the tree's words and redirections are the line's, in order.
 */
module ShellSyntax {
  import opened ShellGrammar
  import opened ShellTheorems

  // ---------- Written forms ----------

  /** Words and redirections of a simple command, in whatever order they are written. */
  datatype Item = Arg(w: string) | File(file: Wrapping)

  datatype Form =
    | Command(items: seq<Item>)
    | Block(inner: Form, files: seq<Wrapping>)
    | Pipeline(left: Form, right: Form)
    | Background(cmd: Form)
    | Sequence(left: Form, right: Form)

  function ArgOf(item: Item): seq<string> { if item.Arg? then [item.w] else [] }

  function FileOf(item: Item): seq<Wrapping> { if item.File? then [item.file] else [] }

  function Args(items: seq<Item>): seq<string> { if |items| == 0 then [] else ArgOf(items[0]) + Args(items[1..]) }

  function Files(items: seq<Item>): seq<Wrapping> { if |items| == 0 then [] else FileOf(items[0]) + Files(items[1..]) }

  /** command: words and redirections, or a line in parentheses */
  predicate IsExec(f: Form)
    decreases f, 0
  {
    if f.Block? then IsLine(f.inner) else f.Command? && |Args(f.items)| < MAXARGS
  }

  /** pipe: command [ "|" pipe ] */
  predicate IsPipe(f: Form)
    decreases f, 1
  {
    if f.Pipeline? then IsExec(f.left) && IsPipe(f.right) else IsExec(f)
  }

  /** background: pipe { "&" } */
  predicate IsBack(f: Form)
    decreases f, 2
  {
    if f.Background? then IsBack(f.cmd) else IsPipe(f)
  }

  /** line: background [ ";" line ] */
  predicate IsLine(f: Form)
    decreases f, 3
  {
    if f.Sequence? then IsBack(f.left) && IsLine(f.right) else IsBack(f)
  }

  function OneItem(item: Item): seq<Tok> {
    match item case Arg(w) => [Word(w)] case File(x) => [ModeTok(x.mode), Word(x.file)]
  }

  function ItemToks(items: seq<Item>): seq<Tok> {
    if |items| == 0 then [] else OneItem(items[0]) + ItemToks(items[1..])
  }

  /** How a form is spelled. */
  function Spelling(f: Form): seq<Tok> {
    match f
    case Command(items) => ItemToks(items)
    case Block(inner, files) => [Sym('(')] + Spelling(inner) + [Sym(')')] + WrapToks(files)
    case Pipeline(left, right) => Spelling(left) + [Sym('|')] + Spelling(right)
    case Background(cmd) => Spelling(cmd) + [Sym('&')]
    case Sequence(left, right) => Spelling(left) + [Sym(';')] + Spelling(right)
  }

  /** What it stands for. */
  function Meaning(f: Form): Tree {
    match f
    case Command(items) => Wrap(Exec(Args(items)), Files(items))
    case Block(inner, files) => Wrap(Meaning(inner), files)
    case Pipeline(left, right) => Pipe(Meaning(left), Meaning(right))
    case Background(cmd) => Back(Meaning(cmd))
    case Sequence(left, right) => List(Meaning(left), Meaning(right))
  }

  // ---------- A simple command, item by item ----------

  function ParseItems(words: seq<string>, ws: seq<Wrapping>, ts: seq<Tok>): Result<Tree>
    decreases |ts|
  {
    if IsRedir(ts) then
      if |ts| < 2 || !ts[1].Word? then Fail(MissingFile)
      else ParseItems(words, ws + [Wrapping(ModeOf(ts[0]), ts[1].w)], ts[2..])
    else if EndsExec(ts) then Ok(Wrap(Exec(words), ws), ts)
    else if !ts[0].Word? then Fail(Syntax)
    else if |words| + 1 >= MAXARGS then Fail(TooManyArgs)
    else ParseItems(words + [ts[0].w], ws, ts[1..])
  }

  lemma {:induction false} ItemsAre(words: seq<string>, ws: seq<Wrapping>, ts: seq<Tok>)
    ensures var r := ParseRedirs(ws, ts);
      ParseItems(words, ws, ts) == if r.Fail? then Fail(r.error) else ParseArgs(words, r.value, r.rest)
    decreases |ts|
  {
    if IsRedir(ts) {
      if |ts| >= 2 && ts[1].Word? {
        ItemsAre(words, ws + [Wrapping(ModeOf(ts[0]), ts[1].w)], ts[2..]);
      }
    } else if !EndsExec(ts) && ts[0].Word? && |words| + 1 < MAXARGS {
      ItemsAre(words + [ts[0].w], ws, ts[1..]);
    }
  }

  lemma ExecIsItems(ts: seq<Tok>)
    requires !Starts(ts, "(")
    ensures ParseExec(ts) == ParseItems([], [], ts)
  {
    ItemsAre([], [], ts);
  }

  lemma Regroup<T>(a: seq<T>, b: seq<T>, c: seq<T>)
    ensures a + b + c == a + (b + c) && (a + (b + c))[|a|..] == b + c
  {
  }

  lemma Drop<T>(a: seq<T>, b: seq<T>, c: seq<T>)
    requires c == a + b
    ensures c[|a|..] == b && c[..|a|] == a
  {
  }

  /** The tokens of the first item. */
  lemma FirstItem(items: seq<Item>, rest: seq<Tok>, ts: seq<Tok>)
    requires |items| > 0 && ts == ItemToks(items) + rest
    ensures |ts| >= |OneItem(items[0])| && ts[|OneItem(items[0])|..] == ItemToks(items[1..]) + rest
    ensures ts[0] == OneItem(items[0])[0] && (items[0].File? ==> ts[1] == Word(items[0].file.file))
  {
    Regroup(OneItem(items[0]), ItemToks(items[1..]), rest);
  }

  /** The words and redirections of a command, one item at a time. */
  lemma OneMore(words: seq<string>, ws: seq<Wrapping>, items: seq<Item>)
    requires |items| > 0
    ensures items[0].Arg? ==> words + Args(items) == words + [items[0].w] + Args(items[1..])
    ensures items[0].Arg? ==> Files(items) == Files(items[1..])
    ensures items[0].File? ==> ws + Files(items) == ws + [items[0].file] + Files(items[1..])
    ensures items[0].File? ==> Args(items) == Args(items[1..])
  {
    var rest, xs := Args(items[1..]), Files(items[1..]);
    Regroup(words, ArgOf(items[0]), rest);
    Regroup(ws, FileOf(items[0]), xs);
    Nothing(rest);
    Nothing(xs);
  }

  lemma Nothing<T>(a: seq<T>)
    ensures [] + a == a && a + [] == a
  {
  }

  /** The parser takes one item. */
  lemma TakesItem(words: seq<string>, ws: seq<Wrapping>, item: Item, ts: seq<Tok>)
    requires |words| + 1 < MAXARGS || item.File?
    requires |ts| >= |OneItem(item)| && ts[0] == OneItem(item)[0] && (item.File? ==> ts[1] == Word(item.file.file))
    ensures item.Arg? ==> ParseItems(words, ws, ts) == ParseItems(words + [item.w], ws, ts[1..])
    ensures item.File? ==> ParseItems(words, ws, ts) == ParseItems(words, ws + [item.file], ts[2..])
  {
  }

  lemma {:induction false} ItemsTrip(words: seq<string>, ws: seq<Wrapping>, items: seq<Item>, rest: seq<Tok>,
                                     ts: seq<Tok>)
    requires |words + Args(items)| < MAXARGS && EndsExec(rest) && ts == ItemToks(items) + rest
    ensures ParseItems(words, ws, ts) == Ok(Wrap(Exec(words + Args(items)), ws + Files(items)), rest)
    decreases |items|
  {
    if |items| == 0 {
      assert ts == rest && words + Args(items) == words && ws + Files(items) == ws;
    } else {
      FirstItem(items, rest, ts);
      OneMore(words, ws, items);
      TakesItem(words, ws, items[0], ts);
      if items[0].Arg? {
        ItemsTrip(words + [items[0].w], ws, items[1..], rest, ts[1..]);
      } else {
        ItemsTrip(words, ws + [items[0].file], items[1..], rest, ts[2..]);
      }
    }
  }

  // ---------- Every form parses to its meaning ----------

  lemma {:induction false} ExecMeans(f: Form, rest: seq<Tok>)
    requires IsExec(f) && EndsExec(rest)
    ensures ParseExec(Spelling(f) + rest) == Ok(Meaning(f), rest)
    decreases f, 0
  {
    var ts := Spelling(f) + rest;
    if f.Command? {
      if |f.items| > 0 {
        FirstItem(f.items, rest, ts);
      }
      ExecIsItems(ts);
      ItemsTrip([], [], f.items, rest, ts);
      assert [] + Args(f.items) == Args(f.items) && [] + Files(f.items) == Files(f.items);
    } else {
      var tail := [Sym(')')] + WrapToks(f.files) + rest;
      InParens(Spelling(f.inner), WrapToks(f.files), rest, ts, tail);
      LineMeans(f.inner, tail);
      BlockTrip(ts, Meaning(f.inner), f.files, tail, rest);
    }
  }

  lemma {:induction false} PipeMeans(f: Form, rest: seq<Tok>)
    requires IsPipe(f) && EndsPipe(rest)
    ensures ParsePipe(Spelling(f) + rest) == Ok(Meaning(f), rest)
    decreases f, 1
  {
    if f.Pipeline? {
      var tail := [Sym('|')] + Spelling(f.right) + rest;
      Between(Spelling(f.left), Sym('|'), Spelling(f.right), rest, Spelling(f) + rest, tail);
      ExecMeans(f.left, tail);
      PipeMeans(f.right, rest);
    } else {
      ExecMeans(f, rest);
    }
  }

  lemma {:induction false} BackMeans(f: Form, rest: seq<Tok>)
    requires IsBack(f) && EndsPipe(rest)
    ensures ParseLine(Spelling(f) + rest) == ParseTail(Meaning(f), rest)
    decreases f, 2
  {
    if f.Background? {
      var tail := [Sym('&')] + rest;
      BackMeans(f.cmd, tail);
      assert Spelling(f) + rest == Spelling(f.cmd) + tail && tail[1..] == rest;
    } else {
      PipeMeans(f, rest);
    }
  }

  lemma {:induction false} LineMeans(f: Form, rest: seq<Tok>)
    requires IsLine(f) && EndsLine(rest)
    ensures ParseLine(Spelling(f) + rest) == Ok(Meaning(f), rest)
    decreases f, 3
  {
    if f.Sequence? {
      var tail := [Sym(';')] + Spelling(f.right) + rest;
      Between(Spelling(f.left), Sym(';'), Spelling(f.right), rest, Spelling(f) + rest, tail);
      BackMeans(f.left, tail);
      LineMeans(f.right, rest);
    } else {
      BackMeans(f, rest);
    }
  }

  // ---------- Everything that parses is a form ----------

  /** What a redirection in front adds to others that spell the rest of ts. */
  lemma WrapFirst(w: Wrapping, others: seq<Wrapping>, ts: seq<Tok>, rest: seq<Tok>)
    requires |ts| >= 2 && ts[0] == ModeTok(w.mode) && ts[1] == Word(w.file) && ts[2..] == WrapToks(others) + rest
    ensures ts == WrapToks([w] + others) + rest
  {
    Drop([w], others, [w] + others);
    Regroup([ts[0], ts[1]], WrapToks(others), rest);
    assert ts == [ts[0], ts[1]] + ts[2..];
  }

  lemma {:induction false} RedirsFound(ws: seq<Wrapping>, ts: seq<Tok>) returns (more: seq<Wrapping>)
    requires ParseRedirs(ws, ts).Ok? && GoodToks(ts)
    ensures ParseRedirs(ws, ts).value == ws + more && ts == WrapToks(more) + ParseRedirs(ws, ts).rest
    decreases |ts|
  {
    more := [];
    Nothing(ws);
    Nothing(ts);
    if IsRedir(ts) {
      assert GoodTok(ts[0]);
      var w := Wrapping(ModeOf(ts[0]), ts[1].w);
      var others := RedirsFound(ws + [w], ts[2..]);
      more := [w] + others;
      Regroup(ws, [w], others);
      assert ModeTok(w.mode) == ts[0];
      WrapFirst(w, others, ts, ParseRedirs(ws, ts).rest);
    }
  }

  /** What an item in front adds to a list of items that spells the rest of ts. */
  lemma ItemFirst(item: Item, others: seq<Item>, ts: seq<Tok>, rest: seq<Tok>)
    requires |ts| >= |OneItem(item)| && ts[..|OneItem(item)|] == OneItem(item)
    requires ts[|OneItem(item)|..] == ItemToks(others) + rest
    ensures ts == ItemToks([item] + others) + rest
  {
    Drop([item], others, [item] + others);
    Regroup(OneItem(item), ItemToks(others), rest);
    assert ts == ts[..|OneItem(item)|] + ts[|OneItem(item)|..];
  }

  lemma {:induction false} ItemsFound(words: seq<string>, ws: seq<Wrapping>, ts: seq<Tok>) returns (items: seq<Item>)
    requires ParseItems(words, ws, ts).Ok? && GoodToks(ts) && |words| < MAXARGS
    ensures ts == ItemToks(items) + ParseItems(words, ws, ts).rest && |words + Args(items)| < MAXARGS
    ensures ParseItems(words, ws, ts).value == Wrap(Exec(words + Args(items)), ws + Files(items))
    decreases |ts|
  {
    items := [];
    if IsRedir(ts) {
      assert GoodTok(ts[0]);
      var item := File(Wrapping(ModeOf(ts[0]), ts[1].w));
      var others := ItemsFound(words, ws + [item.file], ts[2..]);
      items := [item] + others;
      Drop([item], others, items);
      OneMore(words, ws, items);
      ItemFirst(item, others, ts, ParseItems(words, ws, ts).rest);
    } else if !EndsExec(ts) {
      var item := Arg(ts[0].w);
      var others := ItemsFound(words + [item.w], ws, ts[1..]);
      items := [item] + others;
      Drop([item], others, items);
      OneMore(words, ws, items);
      ItemFirst(item, others, ts, ParseItems(words, ws, ts).rest);
    } else {
      assert words + [] == words && ws + [] == ws && ItemToks([]) + ts == ts;
    }
  }

  lemma ParensAround(a: seq<Tok>, w: seq<Tok>, rest: seq<Tok>, ts: seq<Tok>, tail: seq<Tok>)
    requires Starts(ts, "(") && ts[1..] == a + tail && Starts(tail, ")") && tail[1..] == w + rest
    ensures ts == [Sym('(')] + a + [Sym(')')] + w + rest
  {
    assert ts == [ts[0]] + ts[1..] && tail == [tail[0]] + tail[1..];
  }

  lemma {:induction false} ExecFound(ts: seq<Tok>) returns (f: Form)
    requires ParseExec(ts).Ok? && GoodToks(ts)
    ensures IsExec(f) && ts == Spelling(f) + ParseExec(ts).rest && ParseExec(ts).value == Meaning(f)
    decreases |ts|, 1
  {
    if Starts(ts, "(") {
      var inner := LineFound(ts[1..]);
      LineGood(ts[1..]);
      f := BlockFound(inner, ts, ParseLine(ts[1..]).rest);
    } else {
      ExecIsItems(ts);
      var items := ItemsFound([], [], ts);
      f := Command(items);
      assert [] + Args(items) == Args(items) && [] + Files(items) == Files(items);
    }
  }

  lemma BlockFound(inner: Form, ts: seq<Tok>, tail: seq<Tok>) returns (f: Form)
    requires Starts(ts, "(") && ts[1..] == Spelling(inner) + tail && IsLine(inner) && GoodToks(tail)
    requires BlockEnd(Meaning(inner), tail).Ok?
    ensures IsExec(f) && ts == Spelling(f) + BlockEnd(Meaning(inner), tail).rest
    ensures BlockEnd(Meaning(inner), tail).value == Meaning(f)
  {
    var files := RedirsFound([], tail[1..]);
    f := Block(inner, files);
    assert [] + files == files;
    ParensAround(Spelling(inner), WrapToks(files), ParseRedirs([], tail[1..]).rest, ts, tail);
  }

  /** A symbol between two spellings. */
  lemma Joined(a: seq<Tok>, x: Tok, b: seq<Tok>, rest: seq<Tok>, ts: seq<Tok>, tail: seq<Tok>)
    requires ts == a + tail && |tail| > 0 && tail[0] == x && tail[1..] == b + rest
    ensures ts == a + [x] + b + rest
  {
    assert tail == [x] + tail[1..];
  }

  lemma {:induction false} PipeFound(ts: seq<Tok>) returns (f: Form)
    requires ParsePipe(ts).Ok? && GoodToks(ts)
    ensures IsPipe(f) && ts == Spelling(f) + ParsePipe(ts).rest && ParsePipe(ts).value == Meaning(f)
    decreases |ts|, 2
  {
    f := ExecFound(ts);
    var tail := ParseExec(ts).rest;
    if Starts(tail, "|") {
      ExecGood(ts);
      var right := PipeFound(tail[1..]);
      Joined(Spelling(f), Sym('|'), Spelling(right), ParsePipe(ts).rest, ts, tail);
      f := Pipeline(f, right);
    }
  }

  lemma {:induction false} TailFound(f: Form, ts: seq<Tok>) returns (g: Form)
    requires ParseTail(Meaning(f), ts).Ok? && GoodToks(ts) && IsBack(f)
    ensures IsLine(g) && ParseTail(Meaning(f), ts).value == Meaning(g)
    ensures Spelling(f) + ts == Spelling(g) + ParseTail(Meaning(f), ts).rest
    decreases |ts|, 3
  {
    g := f;
    if Starts(ts, "&") {
      g := TailFound(Background(f), ts[1..]);
      Joined(Spelling(f), Sym('&'), [], ts[1..], Spelling(f) + ts, ts);
      assert Spelling(f) + [Sym('&')] + [] == Spelling(Background(f));
    } else if Starts(ts, ";") {
      var right := LineFound(ts[1..]);
      g := Sequence(f, right);
      Joined(Spelling(f), Sym(';'), Spelling(right), ParseLine(ts[1..]).rest, Spelling(f) + ts, ts);
    } else {
      assert f.Sequence? ==> !IsExec(f) && !IsPipe(f);
    }
  }

  lemma {:induction false} LineFound(ts: seq<Tok>) returns (f: Form)
    requires ParseLine(ts).Ok? && GoodToks(ts)
    ensures IsLine(f) && ts == Spelling(f) + ParseLine(ts).rest && ParseLine(ts).value == Meaning(f)
    decreases |ts|, 4
  {
    var left := PipeFound(ts);
    PipeGood(ts);
    f := TailFound(left, ParsePipe(ts).rest);
  }

  ghost predicate Means(s: string, t: Tree) { exists f :: IsLine(f) && Spelling(f) == Toks(s) && Meaning(f) == t }

  /** A line parses to exactly the tree of the form it spells; if it spells none, parsing fails. */
  lemma ParseIsMeaning(s: string, t: Tree)
    ensures ParsesTo(s, t) <==> Means(s, t)
  {
    if ParsesTo(s, t) {
      ToksGood(s);
      var f := LineFound(Toks(s));
      assert Spelling(f) + [] == Spelling(f);
    }
    if f :| IsLine(f) && Spelling(f) == Toks(s) && Meaning(f) == t {
      LineMeans(f, []);
      assert Spelling(f) + [] == Spelling(f);
    }
  }

  /** The language is unambiguous: a line spells one form at most that counts, up to what it means. */
  lemma OneMeaning(s: string, t: Tree, u: Tree)
    requires Means(s, t) && Means(s, u)
    ensures t == u
  {
    ParseIsMeaning(s, t);
    ParseIsMeaning(s, u);
  }

  // ---------- Words and redirections in order ----------

  /** The words of a line but those behind a redirection sign. */
  function LineWords(ts: seq<Tok>): seq<string> {
    if |ts| == 0 then []
    else if IsRedir(ts) then if |ts| < 2 then [] else LineWords(ts[2..])
    else (if ts[0].Word? then [ts[0].w] else []) + LineWords(ts[1..])
  }

  /** Its redirections: each sign with the word behind it. */
  function LineFiles(ts: seq<Tok>): seq<Wrapping> {
    if |ts| == 0 then []
    else if IsRedir(ts) then
      if |ts| < 2 || !ts[1].Word? then [] else [Wrapping(ModeOf(ts[0]), ts[1].w)] + LineFiles(ts[2..])
    else LineFiles(ts[1..])
  }

  /** The words of the commands of a tree, from left to right. */
  function TreeWords(t: Tree): seq<string> {
    match t
    case Exec(words) => words
    case Redir(cmd, _, _) => TreeWords(cmd)
    case Pipe(left, right) => TreeWords(left) + TreeWords(right)
    case List(left, right) => TreeWords(left) + TreeWords(right)
    case Back(cmd) => TreeWords(cmd)
  }

  /** Its redirections, inner ones first. */
  function TreeFiles(t: Tree): seq<Wrapping> {
    match t
    case Exec(_) => []
    case Redir(cmd, mode, file) => TreeFiles(cmd) + [Wrapping(mode, file)]
    case Pipe(left, right) => TreeFiles(left) + TreeFiles(right)
    case List(left, right) => TreeFiles(left) + TreeFiles(right)
    case Back(cmd) => TreeFiles(cmd)
  }

  lemma {:induction false} WrapParts(t: Tree, ws: seq<Wrapping>)
    ensures TreeWords(Wrap(t, ws)) == TreeWords(t) && TreeFiles(Wrap(t, ws)) == TreeFiles(t) + ws
    decreases |ws|
  {
    if |ws| > 0 {
      var n := |ws| - 1;
      WrapParts(t, ws[..n]);
      assert ws == ws[..n] + [ws[n]];
      Regroup(TreeFiles(t), ws[..n], [ws[n]]);
    }
  }

  /** The tokens in front of rest hold these words and these redirections. */
  ghost predicate Carries(ts: seq<Tok>, rest: seq<Tok>, words: seq<string>, files: seq<Wrapping>) {
    LineWords(ts) == words + LineWords(rest) && LineFiles(ts) == files + LineFiles(rest)
  }

  lemma CarriesOn(ts: seq<Tok>, mid: seq<Tok>, rest: seq<Tok>, a: seq<string>, x: seq<Wrapping>, b: seq<string>,
                  y: seq<Wrapping>)
    requires Carries(ts, mid, a, x) && Carries(mid, rest, b, y)
    ensures Carries(ts, rest, a + b, x + y)
  {
    Regroup(a, b, LineWords(rest));
    Regroup(x, y, LineFiles(rest));
  }

  lemma SymbolCarries(c: char, rest: seq<Tok>)
    requires c !in "<>"
    ensures Carries([Sym(c)] + rest, rest, [], [])
  {
    Drop([Sym(c)], rest, [Sym(c)] + rest);
  }

  lemma ItemCarries(item: Item, ts: seq<Tok>)
    requires |ts| >= |OneItem(item)| && ts[0] == OneItem(item)[0] && (item.File? ==> ts[1] == Word(item.file.file))
    ensures Carries(ts, ts[|OneItem(item)|..], ArgOf(item), FileOf(item))
  {
  }

  lemma {:induction false} ItemsCarry(items: seq<Item>, rest: seq<Tok>, ts: seq<Tok>)
    requires ts == ItemToks(items) + rest
    ensures Carries(ts, rest, Args(items), Files(items))
    decreases |items|
  {
    if |items| == 0 {
      assert ts == rest;
    } else {
      var n := |OneItem(items[0])|;
      FirstItem(items, rest, ts);
      ItemsCarry(items[1..], rest, ts[n..]);
      ItemCarries(items[0], ts);
      CarriesOn(ts, ts[n..], rest, ArgOf(items[0]), FileOf(items[0]), Args(items[1..]), Files(items[1..]));
    }
  }

  lemma {:induction false} WrapsCarry(ws: seq<Wrapping>, rest: seq<Tok>, ts: seq<Tok>)
    requires ts == WrapToks(ws) + rest
    ensures Carries(ts, rest, [], ws)
    decreases |ws|
  {
    if |ws| == 0 {
      assert ts == rest;
    } else {
      FirstWrap(ws, rest, ts);
      WrapsCarry(ws[1..], rest, ts[2..]);
      ItemCarries(File(ws[0]), ts);
      CarriesOn(ts, ts[2..], rest, [], [ws[0]], [], ws[1..]);
      assert ws == [ws[0]] + ws[1..];
    }
  }

  lemma BlockCarries(inner: Tree, files: seq<Wrapping>, a: seq<Tok>, tail: seq<Tok>, rest: seq<Tok>, ts: seq<Tok>)
    requires ts == [Sym('(')] + a + [Sym(')')] + WrapToks(files) + rest && tail == [Sym(')')] + WrapToks(files) + rest
    requires Carries(a + tail, tail, TreeWords(inner), TreeFiles(inner))
    ensures Carries(ts, rest, TreeWords(Wrap(inner, files)), TreeFiles(Wrap(inner, files)))
  {
    InParens(a, WrapToks(files), rest, ts, tail);
    assert ts == [Sym('(')] + (a + tail) && tail == [Sym(')')] + (WrapToks(files) + rest);
    SymbolCarries('(', a + tail);
    SymbolCarries(')', WrapToks(files) + rest);
    WrapsCarry(files, rest, WrapToks(files) + rest);
    WrapParts(inner, files);
    Nothing(files);
    CarriesOn(tail, WrapToks(files) + rest, rest, [], [], [], files);
    CarriesOn(a + tail, tail, rest, TreeWords(inner), TreeFiles(inner), [], files);
    Nothing(TreeWords(inner));
  }

  /** Two forms with a symbol between them. */
  lemma PairCarries(a: seq<Tok>, c: char, b: seq<Tok>, rest: seq<Tok>, tail: seq<Tok>, t: Tree, u: Tree)
    requires c !in "<>" && tail == [Sym(c)] + b + rest
    requires Carries(a + tail, tail, TreeWords(t), TreeFiles(t))
    requires Carries(b + rest, rest, TreeWords(u), TreeFiles(u))
    ensures Carries(a + [Sym(c)] + b + rest, rest, TreeWords(t) + TreeWords(u), TreeFiles(t) + TreeFiles(u))
  {
    Between(a, Sym(c), b, rest, a + [Sym(c)] + b + rest, tail);
    Regroup([Sym(c)], b, rest);
    SymbolCarries(c, b + rest);
    CarriesOn(tail, b + rest, rest, [], [], TreeWords(u), TreeFiles(u));
    Nothing(TreeWords(u));
    Nothing(TreeFiles(u));
    CarriesOn(a + tail, tail, rest, TreeWords(t), TreeFiles(t), TreeWords(u), TreeFiles(u));
  }

  lemma BackCarries(a: seq<Tok>, rest: seq<Tok>, t: Tree)
    requires Carries(a + ([Sym('&')] + rest), [Sym('&')] + rest, TreeWords(t), TreeFiles(t))
    ensures Carries(a + [Sym('&')] + rest, rest, TreeWords(t), TreeFiles(t))
  {
    SymbolCarries('&', rest);
    Regroup(a, [Sym('&')], rest);
    CarriesOn(a + [Sym('&')] + rest, [Sym('&')] + rest, rest, TreeWords(t), TreeFiles(t), [], []);
    Nothing(TreeWords(t));
    Nothing(TreeFiles(t));
  }

  lemma CommandCarries(items: seq<Item>, rest: seq<Tok>)
    ensures var t := Wrap(Exec(Args(items)), Files(items));
      Carries(ItemToks(items) + rest, rest, TreeWords(t), TreeFiles(t))
  {
    ItemsCarry(items, rest, ItemToks(items) + rest);
    WrapParts(Exec(Args(items)), Files(items));
    Nothing(Files(items));
  }

  /** A form's tokens hold the words and redirections of its meaning, in order. */
  lemma {:induction false} FormCarries(f: Form, rest: seq<Tok>)
    ensures Carries(Spelling(f) + rest, rest, TreeWords(Meaning(f)), TreeFiles(Meaning(f)))
    decreases f, 1
  {
    if f.Command? {
      CommandCarries(f.items, rest);
    } else if f.Block? {
      var tail := [Sym(')')] + WrapToks(f.files) + rest;
      FormCarries(f.inner, tail);
      BlockCarries(Meaning(f.inner), f.files, Spelling(f.inner), tail, rest, Spelling(f) + rest);
    } else if f.Background? {
      FormCarries(f.cmd, [Sym('&')] + rest);
      BackCarries(Spelling(f.cmd), rest, Meaning(f.cmd));
    } else {
      PairFormCarries(f, if f.Pipeline? then '|' else ';', rest);
    }
  }

  lemma {:induction false} PairFormCarries(f: Form, c: char, rest: seq<Tok>)
    requires (f.Pipeline? && c == '|') || (f.Sequence? && c == ';')
    ensures Carries(Spelling(f) + rest, rest, TreeWords(Meaning(f)), TreeFiles(Meaning(f)))
    decreases f, 0
  {
    var tail := [Sym(c)] + Spelling(f.right) + rest;
    FormCarries(f.left, tail);
    FormCarries(f.right, rest);
    PairCarries(Spelling(f.left), c, Spelling(f.right), rest, tail, Meaning(f.left), Meaning(f.right));
  }

  /** The commands of a parsed line run the line's words, in order, and no word behind a redirection sign; and the
      line's redirections are the tree's, in order. */
  lemma WordsInOrder(s: string, t: Tree)
    requires ParsesTo(s, t)
    ensures TreeWords(t) == LineWords(Toks(s)) && TreeFiles(t) == LineFiles(Toks(s))
  {
    ParseIsMeaning(s, t);
    var f :| IsLine(f) && Spelling(f) == Toks(s) && Meaning(f) == t;
    FormCarries(f, []);
    assert Spelling(f) + [] == Spelling(f);
    assert TreeWords(t) + [] == TreeWords(t) && TreeFiles(t) + [] == TreeFiles(t);
  }
}
