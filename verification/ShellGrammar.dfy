/**
 The shell's command language (sh.c): tokens, the trees they parse to, and the printed form of a tree.
 */
module ShellGrammar {

  const MAXARGS: nat := 10

  // ---------- Tokens ----------

  /** A symbol, `>>`, or a word. */
  datatype Tok = Sym(c: char) | Append | Word(w: string)

  predicate White(c: char) { c in " \t\r\n\U{0B}" }

  predicate Symbol(c: char) { c in "<|>&;()" }

  predicate WordChar(c: char) { !White(c) && !Symbol(c) }

  /** Length of the longest prefix of word characters. */
  function WordLen(s: string): (n: nat)
    ensures n <= |s| && (forall k :: 0 <= k < n ==> WordChar(s[k])) && (n < |s| ==> !WordChar(s[n]))
  {
    if |s| > 0 && WordChar(s[0]) then 1 + WordLen(s[1..]) else 0
  }

  /** Length of the longest prefix of white space. */
  function WhiteLen(s: string): (n: nat)
    ensures n <= |s| && (forall k :: 0 <= k < n ==> White(s[k])) && (n < |s| ==> !White(s[n]))
  {
    if |s| > 0 && White(s[0]) then 1 + WhiteLen(s[1..]) else 0
  }

  /** How many characters the first token of s takes; s starts with no white space. */
  function TokLen(s: string): (n: nat)
    requires |s| > 0 && !White(s[0])
    ensures 0 < n <= |s|
  {
    if s[0] == '>' && |s| > 1 && s[1] == '>' then 2 else if Symbol(s[0]) then 1 else WordLen(s)
  }

  function TokAt(s: string): Tok
    requires |s| > 0 && !White(s[0])
  {
    if s[0] == '>' && |s| > 1 && s[1] == '>' then Append
    else if Symbol(s[0]) then Sym(s[0])
    else Word(s[..WordLen(s)])
  }

  function Toks(s: string): seq<Tok>
    decreases |s|
  {
    if |s| == 0 then []
    else if White(s[0]) then Toks(s[1..])
    else [TokAt(s)] + Toks(s[TokLen(s)..])
  }

  // ---------- Trees ----------

  datatype Mode = Input | Output | OutputAppend

  datatype Wrapping = Wrapping(mode: Mode, file: string)

  datatype Tree =
    | Exec(words: seq<string>)
    | Redir(cmd: Tree, mode: Mode, file: string)
    | Pipe(left: Tree, right: Tree)
    | List(left: Tree, right: Tree)
    | Back(cmd: Tree)

  datatype Error = MissingFile | MissingParen | Syntax | TooManyArgs | Leftovers

  datatype Result<T> = Ok(value: T, rest: seq<Tok>) | Fail(error: Error)

  /** The redirections around a command, the first one innermost. */
  function Wrap(t: Tree, ws: seq<Wrapping>): Tree {
    if |ws| == 0 then t else Redir(Wrap(t, ws[..|ws| - 1]), ws[|ws| - 1].mode, ws[|ws| - 1].file)
  }

  predicate Starts(ts: seq<Tok>, any: string) { |ts| > 0 && ts[0].Sym? && ts[0].c in any }

  // ---------- The grammar, as recursive descent ----------

  predicate IsRedir(ts: seq<Tok>) { Starts(ts, "<>") || (|ts| > 0 && ts[0].Append?) }

  function ModeOf(t: Tok): Mode { if t.Append? then OutputAppend else if t == Sym('<') then Input else Output }

  /** { ("<" | ">" | ">>") word } */
  function ParseRedirs(ws: seq<Wrapping>, ts: seq<Tok>): (r: Result<seq<Wrapping>>)
    ensures r.Ok? ==> |r.rest| <= |ts| && !IsRedir(r.rest)
    decreases |ts|
  {
    if !IsRedir(ts) then Ok(ws, ts)
    else if |ts| < 2 || !ts[1].Word? then Fail(MissingFile)
    else ParseRedirs(ws + [Wrapping(ModeOf(ts[0]), ts[1].w)], ts[2..])
  }

  /** { word redirections }, fewer than MAXARGS words in all */
  function ParseArgs(words: seq<string>, ws: seq<Wrapping>, ts: seq<Tok>): (r: Result<Tree>)
    ensures r.Ok? ==> |r.rest| <= |ts|
    decreases |ts|
  {
    if |ts| == 0 || Starts(ts, "|)&;") then Ok(Wrap(Exec(words), ws), ts)
    else if !ts[0].Word? then Fail(Syntax)
    else if |words| + 1 >= MAXARGS then Fail(TooManyArgs)
    else
      var r := ParseRedirs(ws, ts[1..]);
      if r.Fail? then Fail(r.error) else ParseArgs(words + [ts[0].w], r.value, r.rest)
  }

  /** ")" redirections, after the line t */
  function BlockEnd(t: Tree, ts: seq<Tok>): (r: Result<Tree>)
    ensures r.Ok? ==> |r.rest| <= |ts|
  {
    if !Starts(ts, ")") then Fail(MissingParen)
    else
      var r := ParseRedirs([], ts[1..]);
      if r.Fail? then Fail(r.error) else Ok(Wrap(t, r.value), r.rest)
  }

  function ParseBlock(ts: seq<Tok>): (r: Result<Tree>)
    requires Starts(ts, "(")
    ensures r.Ok? ==> |r.rest| <= |ts|
    decreases |ts|, 0
  {
    var inner := ParseLine(ts[1..]);
    if inner.Fail? then inner else BlockEnd(inner.value, inner.rest)
  }

  function ParseExec(ts: seq<Tok>): (r: Result<Tree>)
    ensures r.Ok? ==> |r.rest| <= |ts|
    decreases |ts|, 1
  {
    if Starts(ts, "(") then ParseBlock(ts)
    else
      var r := ParseRedirs([], ts);
      if r.Fail? then Fail(r.error) else ParseArgs([], r.value, r.rest)
  }

  function ParsePipe(ts: seq<Tok>): (r: Result<Tree>)
    ensures r.Ok? ==> |r.rest| <= |ts|
    decreases |ts|, 2
  {
    var left := ParseExec(ts);
    if left.Fail? || !Starts(left.rest, "|") then left
    else
      var right := ParsePipe(left.rest[1..]);
      if right.Fail? then right else Ok(Pipe(left.value, right.value), right.rest)
  }

  /** What follows a pipeline t in a line: { "&" } [ ";" line ] */
  function ParseTail(t: Tree, ts: seq<Tok>): (r: Result<Tree>)
    ensures r.Ok? ==> |r.rest| <= |ts|
    decreases |ts|, 3
  {
    if Starts(ts, "&") then ParseTail(Back(t), ts[1..])
    else if Starts(ts, ";") then
      var right := ParseLine(ts[1..]);
      if right.Fail? then right else Ok(List(t, right.value), right.rest)
    else Ok(t, ts)
  }

  function ParseLine(ts: seq<Tok>): (r: Result<Tree>)
    ensures r.Ok? ==> |r.rest| <= |ts|
    decreases |ts|, 4
  {
    var left := ParsePipe(ts);
    if left.Fail? then left else ParseTail(left.value, left.rest)
  }

  /** parsecmd: a line and nothing after it. */
  function Parse(s: string): Result<Tree> {
    var r := ParseLine(Toks(s));
    if r.Ok? && |r.rest| > 0 then Fail(Leftovers) else r
  }

  // ---------- The printed form ----------

  function Core(t: Tree): Tree { if t.Redir? then Core(t.cmd) else t }

  function Wrappings(t: Tree): seq<Wrapping> {
    if t.Redir? then Wrappings(t.cmd) + [Wrapping(t.mode, t.file)] else []
  }

  lemma {:induction false} CoreWraps(t: Tree)
    ensures Wrap(Core(t), Wrappings(t)) == t && !Core(t).Redir?
    ensures Core(t) == t || Core(t) < t
  {
    if t.Redir? {
      CoreWraps(t.cmd);
      var ws := Wrappings(t);
      assert ws[..|ws| - 1] == Wrappings(t.cmd);
    }
  }

  function Words(ws: seq<string>): seq<Tok> { seq(|ws|, i requires 0 <= i < |ws| => Word(ws[i])) }

  function ModeTok(m: Mode): Tok { if m.Input? then Sym('<') else if m.Output? then Sym('>') else Append }

  function WrapToks(ws: seq<Wrapping>): seq<Tok> {
    if |ws| == 0 then [] else [ModeTok(ws[0].mode), Word(ws[0].file)] + WrapToks(ws[1..])
  }

  predicate Simple(t: Tree) { Core(t).Exec? }

  /** A command with its redirections; a compound one goes into parentheses. */
  function ExecToks(t: Tree): seq<Tok>
    decreases t, if Simple(t) || t.Redir? then 0 else 7
  {
    CoreWraps(t);
    (if Simple(t) then Words(Core(t).words) else [Sym('(')] + LineToks(Core(t)) + [Sym(')')]) + WrapToks(Wrappings(t))
  }

  function PipeToks(t: Tree): seq<Tok>
    decreases t, if t.List? || t.Back? then 8 else 4
  {
    if t.Pipe? then ExecToks(t.left) + [Sym('|')] + PipeToks(t.right) else ExecToks(t)
  }

  /** Everything but a list, which goes into parentheses. */
  function BackToks(t: Tree): seq<Tok>
    decreases t, if t.List? then 9 else 5
  {
    if t.Back? then BackToks(t.cmd) + [Sym('&')] else PipeToks(t)
  }

  function LineToks(t: Tree): seq<Tok>
    decreases t, 6
  {
    if t.List? then BackToks(t.left) + [Sym(';')] + LineToks(t.right) else BackToks(t)
  }

  function Show(ts: seq<Tok>): string {
    if |ts| == 0 then "" else ShowTok(ts[0]) + " " + Show(ts[1..])
  }

  function ShowTok(t: Tok): string { match t case Sym(c) => [c] case Append => ">>" case Word(w) => w }

  function Print(t: Tree): string { Show(LineToks(t)) }
}
