/** The shell's parser (sh.c): recursive descent over a cursor, then NULs written behind every token. */
module Shell {
  import opened ShellGrammar
  import opened ShellTheorems

  // ---------- Parsed commands, pointing into the line ----------

  /** A token in the line: argv[i] and eargv[i], or file and efile. */
  datatype Span = Span(q: nat, eq: nat)

  datatype Redirect = Redirect(file: Span, mode: Mode)

  datatype Cmd =
    | ExecCmd(argv: seq<Span>)
    | RedirCmd(cmd: Cmd, redirect: Redirect)
    | PipeCmd(left: Cmd, right: Cmd)
    | ListCmd(left: Cmd, right: Cmd)
    | BackCmd(cmd: Cmd)

  function Around(c: Cmd, rs: seq<Redirect>): Cmd {
    if |rs| == 0 then c else RedirCmd(Around(c, rs[..|rs| - 1]), rs[|rs| - 1])
  }

  function Slice(s: string, p: Span): string { if p.q <= p.eq <= |s| then s[p.q..p.eq] else "" }

  function Slices(s: string, ps: seq<Span>): seq<string> { seq(|ps|, i requires 0 <= i < |ps| => Slice(s, ps[i])) }

  /** The tree of a command, each token as the line has it. */
  function Text(s: string, c: Cmd): Tree {
    match c
    case ExecCmd(argv) => Exec(Slices(s, argv))
    case RedirCmd(cmd, r) => Redir(Text(s, cmd), r.mode, Slice(s, r.file))
    case PipeCmd(left, right) => Pipe(Text(s, left), Text(s, right))
    case ListCmd(left, right) => List(Text(s, left), Text(s, right))
    case BackCmd(cmd) => Back(Text(s, cmd))
  }

  /** A whole word of the line. */
  predicate SpanOk(s: string, p: Span) {
    && p.q < p.eq <= |s| && (p.eq < |s| ==> !WordChar(s[p.eq]))
    && forall k :: p.q <= k < p.eq ==> WordChar(s[k])
  }

  predicate SpansOk(s: string, ps: seq<Span>) { forall i :: 0 <= i < |ps| ==> SpanOk(s, ps[i]) }

  predicate CmdOk(s: string, c: Cmd) {
    match c
    case ExecCmd(argv) => SpansOk(s, argv)
    case RedirCmd(cmd, r) => CmdOk(s, cmd) && SpanOk(s, r.file)
    case PipeCmd(left, right) => CmdOk(s, left) && CmdOk(s, right)
    case ListCmd(left, right) => CmdOk(s, left) && CmdOk(s, right)
    case BackCmd(cmd) => CmdOk(s, cmd)
  }

  predicate RedirectsOk(s: string, rs: seq<Redirect>) { forall i :: 0 <= i < |rs| ==> SpanOk(s, rs[i].file) }

  function Wraps(s: string, rs: seq<Redirect>): seq<Wrapping> {
    seq(|rs|, i requires 0 <= i < |rs| => Wrapping(rs[i].mode, Slice(s, rs[i].file)))
  }

  lemma {:induction false} AroundText(s: string, c: Cmd, rs: seq<Redirect>)
    requires CmdOk(s, c) && RedirectsOk(s, rs)
    ensures CmdOk(s, Around(c, rs)) && Text(s, Around(c, rs)) == Wrap(Text(s, c), Wraps(s, rs))
    decreases |rs|
  {
    if |rs| > 0 {
      var n := |rs| - 1;
      AroundText(s, c, rs[..n]);
      assert Wraps(s, rs)[..n] == Wraps(s, rs[..n]);
    }
  }

  datatype Outcome = Good(cmd: Cmd) | Bad(error: Error)

  /** The outcome of a parsing method against the grammar's; ts are the tokens still ahead. */
  predicate Agrees(s: string, ts: seq<Tok>, r: Outcome, spec: Result<Tree>) {
    if r.Good? then CmdOk(s, r.cmd) && spec == Ok(Text(s, r.cmd), ts) else spec == Fail(r.error)
  }

  // ---------- The cursor ----------

  /** What gettoken returns for a token. */
  function Code(t: Tok): char { match t case Sym(c) => c case Append => '+' case Word(_) => 'a' }

  lemma SkipOne(s: string, i: nat)
    requires i < |s| && White(s[i])
    ensures Toks(s[i..]) == Toks(s[i + 1..])
  {
    assert s[i..][1..] == s[i + 1..];
  }

  lemma HeadTok(s: string, i: nat)
    requires i < |s| && !White(s[i])
    ensures var r := s[i..]; Toks(r) == [TokAt(r)] + Toks(s[i + TokLen(r)..])
  {
    var r := s[i..];
    assert r[TokLen(r)..] == s[i + TokLen(r)..];
  }

  class Parser {
    const s: string
    var ps: nat

    constructor (s: string)
      requires '\0' !in s
      ensures this.s == s && ps == 0
    {
      this.s, ps := s, 0;
    }

    /** The tokens ahead of the cursor. */
    function Rest(): seq<Tok>
      requires ps <= |s|
      reads this
    {
      Toks(s[ps..])
    }

    method Skip()
      requires ps <= |s|
      modifies this
      ensures old(ps) <= ps <= |s| && Rest() == old(Rest()) && (ps < |s| ==> !White(s[ps]))
    {
      while ps < |s| && White(s[ps])
        invariant old(ps) <= ps <= |s| && Rest() == old(Rest())
      {
        SkipOne(s, ps);
        ps := ps + 1;
      }
    }

    /** The switch of gettoken: the token at the cursor. */
    method Scan() returns (ret: char)
      requires ps < |s| && !White(s[ps])
      modifies this
      ensures ps == old(ps) + TokLen(s[old(ps)..]) && ret == Code(TokAt(s[old(ps)..]))
      ensures !Symbol(s[old(ps)]) ==> SpanOk(s, Span(old(ps), ps)) && TokAt(s[old(ps)..]) == Word(s[old(ps)..ps])
    {
      ghost var q := ps;
      ret := s[ps];
      if ret in "|();&<" {
        ps := ps + 1;
      } else if ret == '>' {
        ps := ps + 1;
        if ps < |s| && s[ps] == '>' {
          ret := '+';
          ps := ps + 1;
        }
      } else {
        ret := 'a';
        while ps < |s| && !White(s[ps]) && !Symbol(s[ps])
          invariant q <= ps <= |s| && forall k :: q <= k < ps ==> WordChar(s[k])
        {
          ps := ps + 1;
        }
        WordEnds(s, q, ps);
      }
    }

    method Gettoken() returns (ret: char, q: nat, eq: nat)
      requires ps <= |s|
      modifies this
      ensures old(ps) <= ps <= |s|
      ensures |old(Rest())| == 0 ==> ret == '\0' && Rest() == []
      ensures |old(Rest())| > 0 ==> ps > old(ps) && Rest() == old(Rest())[1..] && ret == Code(old(Rest())[0])
      ensures |old(Rest())| > 0 && old(Rest())[0].Word? ==>
        SpanOk(s, Span(q, eq)) && old(Rest())[0] == Word(Slice(s, Span(q, eq)))
    {
      Skip();
      q := ps;
      if ps == |s| {
        return '\0', q, q;
      }
      HeadTok(s, ps);
      ret := Scan();
      eq := ps;
      Skip();
    }

    method Peek(toks: string) returns (found: bool)
      requires ps <= |s| && forall c :: c in toks ==> Symbol(c)
      modifies this
      ensures old(ps) <= ps <= |s| && Rest() == old(Rest())
      ensures found <==> Starts(Rest(), toks) || ('>' in toks && |Rest()| > 0 && Rest()[0].Append?)
      ensures ps == |s| <==> |Rest()| == 0
    {
      Skip();
      if ps == |s| {
        return false;
      }
      HeadTok(s, ps);
      found := s[ps] in toks;
    }

    /** One redirection; false means that the file is missing. */
    method Parseredir() returns (ok: bool, r: Redirect)
      requires ps <= |s| && IsRedir(Rest())
      modifies this
      ensures old(ps) <= ps <= |s|
      ensures ok <==> |old(Rest())| >= 2 && old(Rest())[1].Word?
      ensures ok ==> SpanOk(s, r.file) && Rest() == old(Rest())[2..]
      ensures ok ==> r.mode == ModeOf(old(Rest())[0]) && old(Rest())[1] == Word(Slice(s, r.file))
    {
      ghost var ts := Rest();
      ToksGood(s[ps..]);
      var tok, _, _ := Gettoken();
      var code, q, eq := Gettoken();
      ok := code == 'a';
      r := Redirect(Span(q, eq), if tok == '+' then OutputAppend else if tok == '<' then Input else Output);
      assert |ts| >= 2 ==> GoodTok(ts[1]);
    }

    method Parseredirs(before: seq<Redirect>) returns (ok: bool, rs: seq<Redirect>)
      requires ps <= |s| && RedirectsOk(s, before)
      modifies this
      ensures old(ps) <= ps <= |s|
      ensures ok ==> RedirectsOk(s, rs) && ParseRedirs(Wraps(s, before), old(Rest())) == Ok(Wraps(s, rs), Rest())
      ensures !ok ==> ParseRedirs(Wraps(s, before), old(Rest())) == Fail(MissingFile)
    {
      rs := before;
      var more := Peek("<>");
      while more
        invariant old(ps) <= ps <= |s| && RedirectsOk(s, rs) && (more <==> IsRedir(Rest()))
        invariant ParseRedirs(Wraps(s, before), old(Rest())) == ParseRedirs(Wraps(s, rs), Rest())
        decreases |Rest()|, more
      {
        var r;
        ok, r := Parseredir();
        if !ok {
          return false, rs;
        }
        assert Wraps(s, rs + [r]) == Wraps(s, rs) + [Wrapping(r.mode, Slice(s, r.file))];
        rs := rs + [r];
        more := Peek("<>");
      }
      ok := true;
    }

    method Parseargs(before: seq<Redirect>) returns (r: Outcome)
      requires ps <= |s| && RedirectsOk(s, before)
      modifies this
      ensures old(ps) <= ps <= |s|
      ensures Agrees(s, Rest(), r, ParseArgs([], Wraps(s, before), old(Rest())))
    {
      ghost var spec := ParseArgs([], Wraps(s, before), Rest());
      var argv: seq<Span>, rs := [], before;
      var stop := Peek("|)&;");
      assert Slices(s, argv) == [];
      while !stop
        invariant old(ps) <= ps <= |s| && SpansOk(s, argv) && RedirectsOk(s, rs) && |argv| < MAXARGS
        invariant stop <==> Starts(Rest(), "|)&;")
        invariant spec == ParseArgs(Slices(s, argv), Wraps(s, rs), Rest())
        decreases |Rest()|, !stop
      {
        ghost var ts := Rest();
        ToksGood(s[ps..]);
        var tok, q, eq := Gettoken();
        assert |ts| > 0 ==> GoodTok(ts[0]);
        if tok == '\0' {
          break;
        }
        if tok != 'a' {
          return Bad(Syntax);
        }
        assert Slices(s, argv + [Span(q, eq)]) == Slices(s, argv) + [ts[0].w];
        argv := argv + [Span(q, eq)];
        if |argv| >= MAXARGS {
          return Bad(TooManyArgs);
        }
        var ok;
        ok, rs := Parseredirs(rs);
        if !ok {
          return Bad(MissingFile);
        }
        stop := Peek("|)&;");
      }
      AroundText(s, ExecCmd(argv), rs);
      r := Good(Around(ExecCmd(argv), rs));
    }

    /** The rest of a block: its closing parenthesis and redirections. */
    method Closeblock(cmd: Cmd) returns (r: Outcome)
      requires ps <= |s| && CmdOk(s, cmd)
      modifies this
      ensures old(ps) <= ps <= |s| && Agrees(s, Rest(), r, BlockEnd(Text(s, cmd), old(Rest())))
    {
      var close := Peek(")");
      if !close {
        return Bad(MissingParen);
      }
      var _, _, _ := Gettoken();
      assert Wraps(s, []) == [];
      var ok, rs := Parseredirs([]);
      if !ok {
        return Bad(MissingFile);
      }
      AroundText(s, cmd, rs);
      r := Good(Around(cmd, rs));
    }

    method Parseblock() returns (r: Outcome)
      requires ps <= |s| && Starts(Rest(), "(")
      modifies this
      ensures old(ps) <= ps <= |s| && Agrees(s, Rest(), r, ParseBlock(old(Rest())))
      decreases |s| - ps, 0
    {
      var _, _, _ := Gettoken();
      r := Parseline();
      if r.Good? {
        r := Closeblock(r.cmd);
      }
    }

    method Parseexec() returns (r: Outcome)
      requires ps <= |s|
      modifies this
      ensures old(ps) <= ps <= |s| && Agrees(s, Rest(), r, ParseExec(old(Rest())))
      decreases |s| - ps, 1
    {
      var open := Peek("(");
      if open {
        r := Parseblock();
        return;
      }
      assert Wraps(s, []) == [];
      var ok, rs := Parseredirs([]);
      if !ok {
        return Bad(MissingFile);
      }
      r := Parseargs(rs);
    }

    method Parsepipe() returns (r: Outcome)
      requires ps <= |s|
      modifies this
      ensures old(ps) <= ps <= |s| && Agrees(s, Rest(), r, ParsePipe(old(Rest())))
      decreases |s| - ps, 2
    {
      r := Parseexec();
      if r.Bad? {
        return;
      }
      var bar := Peek("|");
      if bar {
        var _, _, _ := Gettoken();
        var right := Parsepipe();
        r := if right.Bad? then right else Good(PipeCmd(r.cmd, right.cmd));
      }
    }

    method Parseline() returns (r: Outcome)
      requires ps <= |s|
      modifies this
      ensures old(ps) <= ps <= |s| && Agrees(s, Rest(), r, ParseLine(old(Rest())))
      decreases |s| - ps, 4
    {
      r := Parsepipe();
      if r.Bad? {
        return;
      }
      var cmd := r.cmd;
      ghost var spec := ParseTail(Text(s, cmd), Rest());
      var amp := Peek("&");
      while amp
        invariant old(ps) <= ps <= |s| && CmdOk(s, cmd) && (amp <==> Starts(Rest(), "&"))
        invariant spec == ParseTail(Text(s, cmd), Rest())
        decreases |Rest()|, amp
      {
        var _, _, _ := Gettoken();
        cmd := BackCmd(cmd);
        amp := Peek("&");
      }
      var semi := Peek(";");
      r := Good(cmd);
      if semi {
        var _, _, _ := Gettoken();
        var right := Parseline();
        r := if right.Bad? then right else Good(ListCmd(cmd, right.cmd));
      }
    }
  }

  lemma WordEnds(s: string, q: nat, e: nat)
    requires q <= e <= |s| && (forall k :: q <= k < e ==> WordChar(s[k])) && (e < |s| ==> !WordChar(s[e]))
    ensures WordLen(s[q..]) == e - q
  {
    var r := s[q..];
    assert forall k :: 0 <= k < |r| ==> r[k] == s[q + k];
  }

  // ---------- NULs behind the tokens ----------

  /** The string a pointer to b[q] denotes in C. */
  function CString(b: seq<char>, q: nat): string
    decreases |b| - q
  {
    if q >= |b| || b[q] == '\0' then "" else [b[q]] + CString(b, q + 1)
  }

  function CStrings(b: seq<char>, ps: seq<Span>): seq<string> {
    seq(|ps|, i requires 0 <= i < |ps| => CString(b, ps[i].q))
  }

  /** The tree runcmd sees: every argv and file pointer read as a string. */
  function Reads(b: seq<char>, c: Cmd): Tree {
    match c
    case ExecCmd(argv) => Exec(CStrings(b, argv))
    case RedirCmd(cmd, r) => Redir(Reads(b, cmd), r.mode, CString(b, r.file.q))
    case PipeCmd(left, right) => Pipe(Reads(b, left), Reads(b, right))
    case ListCmd(left, right) => List(Reads(b, left), Reads(b, right))
    case BackCmd(cmd) => Back(Reads(b, cmd))
  }

  function EndsOf(ps: seq<Span>): set<nat> { set i | 0 <= i < |ps| :: ps[i].eq }

  function Ends(c: Cmd): set<nat> {
    match c
    case ExecCmd(argv) => EndsOf(argv)
    case RedirCmd(cmd, r) => Ends(cmd) + {r.file.eq}
    case PipeCmd(left, right) => Ends(left) + Ends(right)
    case ListCmd(left, right) => Ends(left) + Ends(right)
    case BackCmd(cmd) => Ends(cmd)
  }

  /** b with NULs at the given places. */
  function Nulled(b: seq<char>, at: set<nat>): (r: seq<char>)
    ensures |r| == |b| && forall k :: 0 <= k < |b| ==> r[k] == if k in at then '\0' else b[k]
  {
    seq(|b|, k requires 0 <= k < |b| => if k in at then '\0' else b[k])
  }

  predicate AllBelow(at: set<nat>, n: nat) { forall e :: e in at ==> e < n }

  predicate EndsFit(c: Cmd, n: nat) { AllBelow(Ends(c), n) }

  method NulArgs(buf: array<char>, argv: seq<Span>)
    requires AllBelow(EndsOf(argv), buf.Length)
    modifies buf
    ensures buf[..] == Nulled(old(buf[..]), EndsOf(argv))
  {
    var i := 0;
    while i < |argv|
      invariant 0 <= i <= |argv| && buf[..] == Nulled(old(buf[..]), EndsOf(argv[..i]))
    {
      assert argv[i].eq in EndsOf(argv);
      EndsNext(argv, i);
      buf[argv[i].eq] := '\0';
      i := i + 1;
    }
    assert argv[..i] == argv;
  }

  lemma EndsNext(argv: seq<Span>, i: nat)
    requires i < |argv|
    ensures EndsOf(argv[..i + 1]) == EndsOf(argv[..i]) + {argv[i].eq}
  {
    var more := argv[..i + 1];
    forall e | e in EndsOf(argv[..i]) + {argv[i].eq} ensures e in EndsOf(more) {
      if e == argv[i].eq {
        assert more[i].eq == e;
      } else {
        var k :| 0 <= k < i && argv[..i][k].eq == e;
        assert more[k].eq == e;
      }
    }
    forall e | e in EndsOf(more) ensures e in EndsOf(argv[..i]) + {argv[i].eq} {
      var k :| 0 <= k < |more| && more[k].eq == e;
      assert k < i ==> argv[..i][k].eq == e;
    }
  }

  lemma PartsFit(c: Cmd, n: nat)
    requires EndsFit(c, n)
    ensures c.ExecCmd? ==> AllBelow(EndsOf(c.argv), n)
    ensures c.RedirCmd? ==> EndsFit(c.cmd, n) && c.redirect.file.eq < n
    ensures c.PipeCmd? || c.ListCmd? ==> EndsFit(c.left, n) && EndsFit(c.right, n)
    ensures c.BackCmd? ==> EndsFit(c.cmd, n)
  {
    assert c.RedirCmd? ==> c.redirect.file.eq in Ends(c);
    if c.RedirCmd? || c.BackCmd? {
      forall e | e in Ends(c.cmd) ensures e < n { assert e in Ends(c); }
    } else if c.PipeCmd? || c.ListCmd? {
      forall e | e in Ends(c.left) || e in Ends(c.right) ensures e < n { assert e in Ends(c); }
    }
  }

  method Nulterminate(buf: array<char>, c: Cmd)
    requires EndsFit(c, buf.Length)
    modifies buf
    ensures buf[..] == Nulled(old(buf[..]), Ends(c))
    decreases c
  {
    PartsFit(c, buf.Length);
    match c
    case ExecCmd(argv) => NulArgs(buf, argv);
    case RedirCmd(cmd, r) =>
      Nulterminate(buf, cmd);
      buf[r.file.eq] := '\0';
    case PipeCmd(left, right) =>
      Nulterminate(buf, left);
      Nulterminate(buf, right);
    case ListCmd(left, right) =>
      Nulterminate(buf, left);
      Nulterminate(buf, right);
    case BackCmd(cmd) => Nulterminate(buf, cmd);
  }

  /** Places where no word has a character. */
  predicate Breaks(s: string, at: set<nat>) { forall e :: e in at ==> e == |s| || (e < |s| && !WordChar(s[e])) }

  lemma {:induction false} CmdBreaks(s: string, c: Cmd)
    requires CmdOk(s, c)
    ensures Breaks(s, Ends(c))
  {
    match c
    case ExecCmd(argv) =>
      forall e | e in EndsOf(argv) ensures e == |s| || (e < |s| && !WordChar(s[e])) {
        var i :| 0 <= i < |argv| && argv[i].eq == e;
        assert SpanOk(s, argv[i]);
      }
    case RedirCmd(cmd, r) => CmdBreaks(s, cmd);
    case PipeCmd(left, right) =>
      CmdBreaks(s, left);
      CmdBreaks(s, right);
    case ListCmd(left, right) =>
      CmdBreaks(s, left);
      CmdBreaks(s, right);
    case BackCmd(cmd) => CmdBreaks(s, cmd);
  }

  lemma {:induction false} CStringIs(b: seq<char>, q: nat, e: nat)
    requires q <= e < |b| && b[e] == '\0' && forall k :: q <= k < e ==> b[k] != '\0'
    ensures CString(b, q) == b[q..e]
    decreases e - q
  {
    if q < e {
      CStringIs(b, q + 1, e);
      assert b[q..e] == [b[q]] + b[q + 1..e];
    }
  }

  /** The line s at the start of a buffer, its end marked. */
  predicate Holds(b: seq<char>, s: string) { |s| < |b| && b[..|s|] == s && '\0' !in s }

  lemma SpanReads(b: seq<char>, s: string, p: Span, at: set<nat>)
    requires Holds(b, s) && SpanOk(s, p) && p.eq in at && Breaks(s, at)
    ensures CString(Nulled(b, at), p.q) == Slice(s, p)
  {
    var r := Nulled(b, at);
    forall k | p.q <= k < p.eq ensures r[k] == s[k] && r[k] != '\0' {
      assert b[..|s|][k] == s[k];
      assert s[k] in s;
    }
    CStringIs(r, p.q, p.eq);
    assert r[p.q..p.eq] == s[p.q..p.eq];
  }

  /** NULs written behind any tokens leave every token of c readable, if its own end is among them. */
  lemma {:induction false} CmdReads(b: seq<char>, s: string, c: Cmd, at: set<nat>)
    requires Holds(b, s) && CmdOk(s, c) && Ends(c) <= at && Breaks(s, at)
    ensures Reads(Nulled(b, at), c) == Text(s, c)
  {
    match c
    case ExecCmd(argv) =>
      forall i | 0 <= i < |argv| ensures CString(Nulled(b, at), argv[i].q) == Slice(s, argv[i]) {
        assert argv[i].eq in EndsOf(argv) && SpanOk(s, argv[i]);
        SpanReads(b, s, argv[i], at);
      }
      assert CStrings(Nulled(b, at), argv) == Slices(s, argv);
    case RedirCmd(cmd, r) =>
      CmdReads(b, s, cmd, at);
      SpanReads(b, s, r.file, at);
    case PipeCmd(left, right) =>
      CmdReads(b, s, left, at);
      CmdReads(b, s, right, at);
    case ListCmd(left, right) =>
      CmdReads(b, s, left, at);
      CmdReads(b, s, right, at);
    case BackCmd(cmd) => CmdReads(b, s, cmd, at);
  }

  method Strlen(buf: array<char>) returns (n: nat)
    requires '\0' in buf[..]
    ensures n < buf.Length && buf[n] == '\0' && Holds(buf[..], buf[..n]) && buf[..n] == CString(buf[..], 0)
  {
    var k :| 0 <= k < buf.Length && buf[k] == '\0';
    n := 0;
    while buf[n] != '\0'
      invariant n <= k && forall j :: 0 <= j < n ==> buf[j] != '\0'
      decreases k - n
    {
      n := n + 1;
    }
    CStringIs(buf[..], 0, n);
    assert buf[..][..n] == buf[..n];
  }

  method ParseText(s: string) returns (r: Outcome)
    requires '\0' !in s
    ensures r.Good? ==> CmdOk(s, r.cmd) && Parse(s) == Ok(Text(s, r.cmd), [])
    ensures r.Bad? ==> Parse(s) == Fail(r.error)
  {
    var p := new Parser(s);
    assert s[0..] == s;
    r := p.Parseline();
    if r.Good? {
      var _ := p.Peek("");
      if p.ps != |s| {
        r := Bad(Leftovers);
      }
    }
  }

  /** parsecmd: a tree whose pointers read as the grammar says, or the grammar's error and the buffer as it was. */
  method Parsecmd(buf: array<char>) returns (r: Outcome)
    requires '\0' in buf[..]
    modifies buf
    ensures r.Good? ==> Parse(CString(old(buf[..]), 0)) == Ok(Reads(buf[..], r.cmd), [])
    ensures r.Bad? ==> Parse(CString(old(buf[..]), 0)) == Fail(r.error) && buf[..] == old(buf[..])
    ensures forall t :: GoodTree(t) && CString(old(buf[..]), 0) == Print(t) ==> r.Good? && Reads(buf[..], r.cmd) == t
  {
    var n := Strlen(buf);
    var s := buf[..n];
    r := ParseText(s);
    if r.Good? {
      CmdBreaks(s, r.cmd);
      CmdReads(buf[..], s, r.cmd, Ends(r.cmd));
      Nulterminate(buf, r.cmd);
    }
    forall t | GoodTree(t) ensures Parse(Print(t)) == Ok(t, []) {
      RoundTrip(t);
    }
  }
}
