/** The language of the shell (user/sh.c): words, operators, and the commands that a line stands for. A line is the
    characters before the terminating NUL; an index stands for a pointer into it. */
module ShellGrammar {

  type Line = s: string | forall k :: 0 <= k < |s| ==> s[k] != '\0' witness []

  const MAXARGS: nat := 10

  predicate IsSpace(c: char) { c == ' ' || c == '\t' || c == '\r' || c == '\n' || c == '\U{B}' }

  predicate IsSymbol(c: char)
  {
    c == '<' || c == '|' || c == '>' || c == '&' || c == ';' || c == '(' || c == ')'
  }

  predicate IsWord(c: char) { !IsSpace(c) && !IsSymbol(c) && c != '\0' }

  function At(s: string, i: nat): char { if i < |s| then s[i] else '\0' }

  /** The two ends of a word. */
  datatype Span = Span(q: nat, eq: nat)

  /** '<', '>' and, for ">>", '+'. */
  datatype Cmd =
    | Exec(argv: seq<Span>)
    | Redir(cmd: Cmd, file: Span, mode: char)
    | Pipe(left: Cmd, right: Cmd)
    | List(left: Cmd, right: Cmd)
    | Back(cmd: Cmd)

  // ---------------------------------------------------------------- words and operators of a line

  ghost predicate Boundary(s: Line, j: nat)
  {
    j == 0 || j >= |s| || !(IsWord(s[j - 1]) && IsWord(s[j]))
  }

  /** [q, e) is a whole word. */
  ghost predicate WholeWord(s: Line, w: Span)
  {
    && w.q < w.eq <= |s| && (forall k :: w.q <= k < w.eq ==> IsWord(s[k]))
    && Boundary(s, w.q) && Boundary(s, w.eq)
  }

  /** The words of s[i..j]. */
  ghost predicate WordIn(s: Line, i: nat, j: nat, w: Span) { i <= w.q && w.eq <= j && WholeWord(s, w) }

  /** The words and redirection files of a command. */
  ghost function Spans(c: Cmd): set<Span>
  {
    match c
    case Exec(argv) => set w | w in argv
    case Redir(d, f, _) => Spans(d) + {f}
    case Pipe(l, r) => Spans(l) + Spans(r)
    case List(l, r) => Spans(l) + Spans(r)
    case Back(d) => Spans(d)
  }

  /** The operators of a command, as the characters that wrote them. */
  ghost function Ops(c: Cmd): multiset<char>
  {
    match c
    case Exec(_) => multiset{}
    case Redir(d, _, m) => Ops(d) + (if m == '+' then multiset{'>', '>'} else multiset{m})
    case Pipe(l, r) => Ops(l) + Ops(r) + multiset{'|'}
    case List(l, r) => Ops(l) + Ops(r) + multiset{';'}
    case Back(d) => Ops(d) + multiset{'&'}
  }

  predicate IsOp(c: char) { c == '<' || c == '|' || c == '>' || c == '&' || c == ';' }

  /** The words `ws` and the operators `ops`, with balanced parentheses, are exactly those of s[i..j]. */
  ghost predicate Covers(s: Line, i: nat, j: nat, ws: set<Span>, ops: multiset<char>)
  {
    && i <= j <= |s| && Boundary(s, i) && Boundary(s, j)
    && (forall w: Span :: w in ws <==> WordIn(s, i, j, w))
    && (forall c: char :: IsOp(c) ==> ops[c] == multiset(s[i..j])[c])
  }

  ghost predicate Balanced(s: Line, i: nat, j: nat)
  {
    i <= j <= |s| && multiset(s[i..j])['('] == multiset(s[i..j])[')']
  }

  lemma InsideWord(s: Line, w: Span, j: nat)
    requires WholeWord(s, w) && w.q < j < w.eq
    ensures !Boundary(s, j)
  {
  }

  lemma CoversJoin(s: Line, i: nat, j: nat, k: nat, ws: set<Span>, vs: set<Span>, ops: multiset<char>,
                   qs: multiset<char>)
    requires Covers(s, i, j, ws, ops) && Covers(s, j, k, vs, qs)
    ensures Covers(s, i, k, ws + vs, ops + qs)
  {
    hide Boundary;
    forall w: Span ensures w in ws + vs <==> WordIn(s, i, k, w) {
      assert w in ws <==> WordIn(s, i, j, w);
      assert w in vs <==> WordIn(s, j, k, w);
      if WholeWord(s, w) && w.q < j < w.eq { InsideWord(s, w, j); }
    }
    assert s[i..k] == s[i..j] + s[j..k];
  }

  lemma BalancedJoin(s: Line, i: nat, j: nat, k: nat)
    requires Balanced(s, i, j) && Balanced(s, j, k)
    ensures Balanced(s, i, k)
  {
    assert s[i..k] == s[i..j] + s[j..k];
  }

  /** Where there are no word characters there are no words. */
  lemma NoWord(s: Line, i: nat, j: nat, w: Span)
    requires i <= j <= |s| && forall k :: i <= k < j ==> !IsWord(s[k])
    ensures !WordIn(s, i, j, w)
  {
  }

  lemma SpacesCover(s: Line, i: nat, j: nat)
    requires i <= j <= |s| && Boundary(s, i) && forall k :: i <= k < j ==> IsSpace(s[k])
    ensures Covers(s, i, j, {}, multiset{}) && Balanced(s, i, j)
  {
    forall w: Span ensures !WordIn(s, i, j, w) { NoWord(s, i, j, w); }
    forall c | !IsSpace(c) ensures multiset(s[i..j])[c] == 0 { NotIn(s[i..j], c); }
  }

  lemma NotIn(s: string, c: char)
    requires forall k :: 0 <= k < |s| ==> s[k] != c
    ensures multiset(s)[c] == 0
  {
    assert c !in s;
  }

  lemma Slices(s: string, i: nat, a: nat, b: nat, j: nat)
    requires i <= a <= b <= j <= |s|
    ensures s[i..j] == s[i..a] + s[a..b] + s[b..j]
    ensures multiset(s[i..j]) == multiset(s[i..a]) + multiset(s[a..b]) + multiset(s[b..j])
  {
    assert s[i..j] == s[i..a] + s[a..b] + s[b..j];
  }

  lemma WordItself(s: Line, w: Span)
    requires WholeWord(s, w)
    ensures Covers(s, w.q, w.eq, {w}, multiset{}) && Balanced(s, w.q, w.eq)
  {
    forall c | IsSymbol(c) ensures multiset(s[w.q..w.eq])[c] == 0 { NotIn(s[w.q..w.eq], c); }
    forall v: Span ensures v == w <==> WordIn(s, w.q, w.eq, v) {
      if WordIn(s, w.q, w.eq, v) { OneWord(s, w.q, w.eq, w, v); }
    }
  }

  lemma OneWord(s: Line, i: nat, j: nat, w: Span, v: Span)
    requires WordIn(s, i, j, v) && WholeWord(s, w) && i <= w.q && w.eq <= j <= |s|
    requires (forall k :: i <= k < w.q ==> IsSpace(s[k])) && (forall k :: w.eq <= k < j ==> IsSpace(s[k]))
    ensures v == w
  {
    assert IsWord(s[v.q]) && IsWord(s[v.eq - 1]);
    if w.q < v.q { InsideWord(s, w, v.q); }
    if v.eq < w.eq { InsideWord(s, w, v.eq); }
  }

  datatype Redirection = Redirection(file: Span, mode: char)

  /** The command with its redirections around it, the first innermost. */
  function Wrap(c: Cmd, rs: seq<Redirection>): Cmd
  {
    if rs == [] then c else Redir(Wrap(c, rs[..|rs| - 1]), rs[|rs| - 1].file, rs[|rs| - 1].mode)
  }

  ghost function Files(rs: seq<Redirection>): set<Span> { set r | r in rs :: r.file }

  ghost function Modes(rs: seq<Redirection>): multiset<char>
  {
    if rs == [] then multiset{}
    else Modes(rs[..|rs| - 1]) + (if rs[|rs| - 1].mode == '+' then multiset{'>', '>'} else multiset{rs[|rs| - 1].mode})
  }

  lemma {:induction false} WrapParts(c: Cmd, rs: seq<Redirection>)
    ensures Spans(Wrap(c, rs)) == Spans(c) + Files(rs) && Ops(Wrap(c, rs)) == Ops(c) + Modes(rs)
  {
    hide Files, Modes;
    if rs == [] {
      NoFiles();
    } else {
      var pre, last := rs[..|rs| - 1], rs[|rs| - 1];
      assert pre + [last] == rs;
      FilesAdd(pre, last);
      WrapParts(c, pre);
    }
  }

  lemma NoFiles()
    ensures Files([]) == {} && Modes([]) == multiset{}
  {
  }

  lemma FilesAdd(rs: seq<Redirection>, r: Redirection)
    ensures Files(rs + [r]) == Files(rs) + {r.file}
    ensures Modes(rs + [r]) == Modes(rs) + (if r.mode == '+' then multiset{'>', '>'} else multiset{r.mode})
  {
    assert (rs + [r])[..|rs + [r]| - 1] == rs;
    forall f | f in Files(rs) + {r.file} ensures f in Files(rs + [r]) {
      if f == r.file { assert r in rs + [r]; }
      else {
        var x :| x in rs && x.file == f;
        assert x in rs + [r];
      }
    }
  }

  lemma {:induction false} FilesJoin(rs: seq<Redirection>, qs: seq<Redirection>)
    ensures Files(rs + qs) == Files(rs) + Files(qs) && Modes(rs + qs) == Modes(rs) + Modes(qs)
    decreases |qs|
  {
    hide Files, Modes;
    NoFiles();
    if qs == [] {
      assert rs + qs == rs;
    } else {
      var pre, last := qs[..|qs| - 1], qs[|qs| - 1];
      FilesJoin(rs, pre);
      assert pre + [last] == qs && rs + qs == (rs + pre) + [last];
      FilesAdd(pre, last);
      FilesAdd(rs + pre, last);
    }
  }

  ghost function Words(args: seq<Span>): set<Span> { set w | w in args }

  lemma WordsAdd(args: seq<Span>, w: Span)
    ensures Words(args + [w]) == Words(args) + {w}
  {
  }

  ghost predicate Seen(s: Line, i: nat, j: nat, ws: set<Span>, ops: multiset<char>)
  {
    Covers(s, i, j, ws, ops) && Balanced(s, i, j)
  }

  lemma SeenJoin(s: Line, i: nat, j: nat, k: nat, ws: set<Span>, vs: set<Span>, ops: multiset<char>, qs: multiset<char>)
    requires Seen(s, i, j, ws, ops) && Seen(s, j, k, vs, qs)
    ensures Seen(s, i, k, ws + vs, ops + qs)
  {
    hide Covers, Balanced;
    CoversJoin(s, i, j, k, ws, vs, ops, qs);
    BalancedJoin(s, i, j, k);
  }

  /** Skipping spaces adds nothing. */
  lemma SeenSpaces(s: Line, i: nat, j: nat, k: nat, ws: set<Span>, ops: multiset<char>)
    requires Seen(s, i, j, ws, ops) && Seen(s, j, k, {}, multiset{})
    ensures Seen(s, i, k, ws, ops)
  {
    hide Seen;
    SeenJoin(s, i, j, k, ws, {}, ops, multiset{});
    assert ws + {} == ws && ops + multiset{} == ops;
  }

  // ---------------------------------------------------------------- the grammar

  ghost predicate Blank(s: Line, i: nat, j: nat) { i <= j <= |s| && forall k :: i <= k < j ==> IsSpace(s[k]) }

  /** The first position from `i` on that is not a space. */
  function Skip(s: Line, i: nat): (j: nat)
    ensures i <= j && (i <= |s| ==> Blank(s, i, j)) && (j < |s| ==> !IsSpace(s[j]))
    decreases |s| - i
  {
    if i < |s| && IsSpace(s[i]) then Skip(s, i + 1) else i
  }

  /** The operator and the file of a redirection at `k`; the file is the word after the operator. */
  ghost predicate RedirAt(s: Line, k: nat, r: Redirection)
  {
    && k < |s| && WholeWord(s, r.file) && r.file.q == Skip(s, k + OpLength(r.mode))
    && match r.mode
       case '<' => s[k] == '<'
       case '>' => s[k] == '>' && At(s, k + 1) != '>'
       case '+' => s[k] == '>' && At(s, k + 1) == '>'
       case _ => false
  }

  function OpLength(mode: char): nat { if mode == '+' then 2 else 1 }

  /** s[i..j] is a list of words and redirections, in some order: the words are `args` and the redirections `rs`,
      each in order. */
  ghost predicate Items(s: Line, i: nat, j: nat, args: seq<Span>, rs: seq<Redirection>)
    decreases |args| + |rs|
  {
    && i <= j <= |s|
    && (|| (args == [] && rs == [] && Blank(s, i, j))
        || (args != [] && WholeWord(s, args[0]) && args[0].q == Skip(s, i) && Items(s, args[0].eq, j, args[1..], rs))
        || (rs != [] && RedirAt(s, Skip(s, i), rs[0]) && Items(s, rs[0].file.eq, j, args, rs[1..])))
  }

  /** A simple command: at most nine words, and redirections. */
  ghost predicate SimpleBy(s: Line, i: nat, j: nat, c: Cmd, args: seq<Span>, rs: seq<Redirection>)
  {
    c == Wrap(Exec(args), rs) && Items(s, i, j, args, rs) && |args| < MAXARGS
  }

  /** A line `d` in parentheses, up to `e`, and redirections. */
  ghost predicate GroupBy(s: Line, i: nat, e: nat, j: nat, c: Cmd, d: Cmd, rs: seq<Redirection>)
    decreases if i <= |s| then |s| - i else 0, 0
  {
    var k, l := Skip(s, i), Skip(s, e);
    && i <= k < |s| && s[k] == '(' && Skip(s, k + 1) <= e <= l < |s| && s[l] == ')' && c == Wrap(d, rs)
    && Sequence(s, Skip(s, k + 1), e, d) && Items(s, Skip(s, l + 1), j, [], rs)
  }

  ghost predicate Command(s: Line, i: nat, j: nat, c: Cmd)
    decreases if i <= |s| then |s| - i else 0, 1
  {
    || (exists args, rs :: SimpleBy(s, i, j, c, args, rs))
    || (exists e, d, rs :: GroupBy(s, i, e, j, c, d, rs))
  }

  /** What may follow the command `l` in a pipeline: nothing, or a bar and another pipeline. */
  ghost predicate PipeRest(s: Line, e: nat, j: nat, l: Cmd, c: Cmd)
    decreases if e <= |s| then |s| - e else 0, 2
  {
    var k := Skip(s, e);
    && e <= j <= |s|
    && (|| (l == c && Blank(s, e, j))
        || (k < |s| && s[k] == '|' && c.Pipe? && c.left == l && Pipeline(s, Skip(s, k + 1), j, c.right)))
  }

  ghost predicate PipeBy(s: Line, i: nat, e: nat, j: nat, l: Cmd, c: Cmd)
    decreases if i <= |s| then |s| - i else 0, 3
  {
    i <= e <= |s| && Command(s, i, e, l) && PipeRest(s, e, j, l, c)
  }

  /** Commands with bars between them; the bar associates to the right. */
  ghost predicate Pipeline(s: Line, i: nat, j: nat, c: Cmd)
    decreases if i <= |s| then |s| - i else 0, 4
  {
    exists e, l :: PipeBy(s, i, e, j, l, c)
  }

  /** What may follow the pipeline `p` in a line: nothing, an ampersand and the same again, or a semicolon and
      another line. The semicolon binds least and associates to the right. */
  ghost predicate LineRest(s: Line, e: nat, j: nat, p: Cmd, c: Cmd)
    decreases if e <= |s| then |s| - e else 0, 5
  {
    var k := Skip(s, e);
    && e <= j <= |s|
    && (|| (p == c && Blank(s, e, j))
        || (k < |s| && s[k] == '&' && LineRest(s, Skip(s, k + 1), j, Back(p), c))
        || (k < |s| && s[k] == ';' && c.List? && c.left == p && Sequence(s, Skip(s, k + 1), j, c.right)))
  }

  ghost predicate LineBy(s: Line, i: nat, e: nat, j: nat, p: Cmd, c: Cmd)
    decreases if i <= |s| then |s| - i else 0, 6
  {
    i <= e <= |s| && Pipeline(s, i, e, p) && LineRest(s, e, j, p, c)
  }

  /** The command that the line s[i..j] stands for. */
  ghost predicate Sequence(s: Line, i: nat, j: nat, c: Cmd)
    decreases if i <= |s| then |s| - i else 0, 7
  {
    exists e, p :: LineBy(s, i, e, j, p, c)
  }

  // ---------------------------------------------------------------- spaces

  lemma SkipIs(s: Line, i: nat, j: nat)
    requires Blank(s, i, j) && (j < |s| ==> !IsSpace(s[j]))
    ensures Skip(s, i) == j
  {
    var k := Skip(s, i);
    assert k >= j;
  }

  /** Spaces may be added at the end. */
  lemma {:induction false} ItemsTrail(s: Line, i: nat, j: nat, k: nat, args: seq<Span>, rs: seq<Redirection>)
    requires Items(s, i, j, args, rs) && Blank(s, j, k)
    ensures Items(s, i, k, args, rs)
    decreases |args| + |rs|
  {
    if args != [] && WholeWord(s, args[0]) && args[0].q == Skip(s, i) && Items(s, args[0].eq, j, args[1..], rs) {
      ItemsTrail(s, args[0].eq, j, k, args[1..], rs);
    } else if rs != [] && RedirAt(s, Skip(s, i), rs[0]) && Items(s, rs[0].file.eq, j, args, rs[1..]) {
      ItemsTrail(s, rs[0].file.eq, j, k, args, rs[1..]);
    }
  }

  lemma CommandTrail(s: Line, i: nat, j: nat, k: nat, c: Cmd)
    requires Command(s, i, j, c) && Blank(s, j, k)
    ensures Command(s, i, k, c)
  {
    if args, rs :| SimpleBy(s, i, j, c, args, rs) {
      ItemsTrail(s, i, j, k, args, rs);
      assert SimpleBy(s, i, k, c, args, rs);
    } else {
      var e, d, rs :| GroupBy(s, i, e, j, c, d, rs);
      ItemsTrail(s, Skip(s, Skip(s, e) + 1), j, k, [], rs);
      assert GroupBy(s, i, e, k, c, d, rs);
    }
  }

  lemma {:induction false} PipeRestTrail(s: Line, e: nat, j: nat, k: nat, l: Cmd, c: Cmd)
    requires PipeRest(s, e, j, l, c) && Blank(s, j, k)
    ensures PipeRest(s, e, k, l, c)
    decreases if e <= |s| then |s| - e else 0, 0
  {
    hide Blank;
    BlankBounds(s, j, k);
    if l == c && Blank(s, e, j) {
      BlankJoin(s, e, j, k);
    } else {
      PipelineTrail(s, Skip(s, Skip(s, e) + 1), j, k, c.right);
    }
  }

  lemma {:induction false} PipelineTrail(s: Line, i: nat, j: nat, k: nat, c: Cmd)
    requires Pipeline(s, i, j, c) && Blank(s, j, k)
    ensures Pipeline(s, i, k, c)
    decreases if i <= |s| then |s| - i else 0, 1
  {
    hide Command, Blank, PipeRest;
    var e, l :| PipeBy(s, i, e, j, l, c);
    PipeRestTrail(s, e, j, k, l, c);
    assert PipeBy(s, i, e, k, l, c);
  }

  lemma BlankJoin(s: Line, i: nat, j: nat, k: nat)
    requires Blank(s, i, j) && Blank(s, j, k)
    ensures Blank(s, i, k)
  {
  }

  lemma BlankBounds(s: Line, i: nat, j: nat)
    requires Blank(s, i, j)
    ensures i <= j <= |s|
  {
  }

  lemma {:induction false} LineRestTrail(s: Line, e: nat, j: nat, k: nat, p: Cmd, c: Cmd)
    requires LineRest(s, e, j, p, c) && Blank(s, j, k)
    ensures LineRest(s, e, k, p, c)
    decreases if e <= |s| then |s| - e else 0, 0
  {
    hide Blank, Pipeline;
    BlankBounds(s, j, k);
    var m := Skip(s, e);
    if p == c && Blank(s, e, j) {
      BlankJoin(s, e, j, k);
    } else if m < |s| && s[m] == '&' {
      LineRestTrail(s, Skip(s, m + 1), j, k, Back(p), c);
    } else {
      SequenceTrail(s, Skip(s, m + 1), j, k, c.right);
    }
  }

  lemma {:induction false} SequenceTrail(s: Line, i: nat, j: nat, k: nat, c: Cmd)
    requires Sequence(s, i, j, c) && Blank(s, j, k)
    ensures Sequence(s, i, k, c)
    decreases if i <= |s| then |s| - i else 0, 1
  {
    hide Pipeline, Blank, LineRest;
    var e, p :| LineBy(s, i, e, j, p, c);
    LineRestTrail(s, e, j, k, p, c);
    assert LineBy(s, i, e, k, p, c);
  }

  // ---------------------------------------------------------------- a command has exactly the words of its text

  ghost function ModeOps(m: char): multiset<char> { if m == '+' then multiset{'>', '>'} else multiset{m} }

  /** An operator of one or two characters, alone in s[k..e]. */
  lemma OperatorSeen(s: Line, k: nat, e: nat, op: char)
    requires k < e <= |s| && s[k..e] == (if op == '+' then ['>', '>'] else [op]) && (op == '+' || IsOp(op))
    ensures Seen(s, k, e, {}, ModeOps(op))
  {
    assert forall m :: k <= m < e ==> s[m] == s[k..e][m - k];
    assert forall m :: k <= m < e ==> IsSymbol(s[m]);
    assert IsSymbol(s[k]) && IsSymbol(s[e - 1]);
    forall w: Span ensures !WordIn(s, k, e, w) { NoWord(s, k, e, w); }
  }

  lemma SpacesSeen(s: Line, i: nat, j: nat)
    requires Blank(s, i, j) && Boundary(s, i)
    ensures Seen(s, i, j, {}, multiset{}) && Boundary(s, j)
  {
    SpacesCover(s, i, j);
  }

  /** Spaces on both sides of what has been seen. */
  lemma SeenWithin(s: Line, i: nat, a: nat, b: nat, j: nat, ws: set<Span>, ops: multiset<char>)
    requires Blank(s, i, a) && Boundary(s, i) && Seen(s, a, b, ws, ops) && Blank(s, b, j) && Boundary(s, b)
    ensures Seen(s, i, j, ws, ops) && Boundary(s, j)
  {
    hide Seen, Blank, Boundary;
    SpacesSeen(s, i, a);
    SpacesSeen(s, b, j);
    SeenJoin(s, i, a, b, {}, ws, multiset{}, ops);
    assert {} + ws == ws && multiset{} + ops == ops;
    SeenSpaces(s, i, b, j, ws, ops);
  }

  lemma WordSeen(s: Line, w: Span)
    requires WholeWord(s, w)
    ensures Seen(s, w.q, w.eq, {w}, multiset{}) && Boundary(s, w.q) && Boundary(s, w.eq)
  {
    WordItself(s, w);
  }

  lemma RedirSeen(s: Line, i: nat, r: Redirection)
    requires i <= |s| && Boundary(s, i) && RedirAt(s, Skip(s, i), r)
    ensures Seen(s, i, r.file.eq, {r.file}, ModeOps(r.mode)) && Boundary(s, r.file.eq)
  {
    var k, e := Skip(s, i), Skip(s, i) + OpLength(r.mode);
    assert s[k..e] == if r.mode == '+' then ['>', '>'] else [r.mode];
    OperatorSeen(s, k, e, r.mode);
    WordSeen(s, r.file);
    assert Boundary(s, e);
    hide Seen, Boundary, RedirAt;
    SeenWithin(s, i, k, e, r.file.q, {}, ModeOps(r.mode));
    SeenJoin(s, i, r.file.q, r.file.eq, {}, {r.file}, ModeOps(r.mode), multiset{});
    assert {} + {r.file} == {r.file} && ModeOps(r.mode) + multiset{} == ModeOps(r.mode);
  }

  lemma {:induction false} ItemsSeen(s: Line, i: nat, j: nat, args: seq<Span>, rs: seq<Redirection>)
    requires Items(s, i, j, args, rs) && Boundary(s, i)
    ensures Seen(s, i, j, Words(args) + Files(rs), Modes(rs)) && Boundary(s, j)
    decreases |args| + |rs|
  {
    hide Seen, Boundary, RedirAt, WholeWord, Words, Files, Modes;
    if args != [] && WholeWord(s, args[0]) && args[0].q == Skip(s, i) && Items(s, args[0].eq, j, args[1..], rs) {
      var w := args[0];
      WordsSeen(s, i, j, args, rs, w);
    } else if rs != [] && RedirAt(s, Skip(s, i), rs[0]) && Items(s, rs[0].file.eq, j, args, rs[1..]) {
      RedirSeen(s, i, rs[0]);
      ItemsSeen(s, rs[0].file.eq, j, args, rs[1..]);
      SeenJoin(s, i, rs[0].file.eq, j, {rs[0].file}, Words(args) + Files(rs[1..]), ModeOps(rs[0].mode), Modes(rs[1..]));
      FirstFile(rs);
      assert {rs[0].file} + (Words(args) + Files(rs[1..])) == Words(args) + Files(rs);
    } else {
      SpacesSeen(s, i, j);
      NothingSeen();
      assert Words(args) + Files(rs) == {};
    }
  }

  lemma {:induction false} WordsSeen(s: Line, i: nat, j: nat, args: seq<Span>, rs: seq<Redirection>, w: Span)
    requires args != [] && w == args[0] && WholeWord(s, w) && w.q == Skip(s, i) && Items(s, w.eq, j, args[1..], rs)
    requires i <= |s| && Boundary(s, i)
    ensures Seen(s, i, j, Words(args) + Files(rs), Modes(rs)) && Boundary(s, j)
    decreases |args| + |rs|, 0
  {
    hide Seen, Boundary, RedirAt, WholeWord, Words, Files, Modes;
    WordSeen(s, w);
    SpacesSeen(s, w.eq, w.eq);
    SeenWithin(s, i, w.q, w.eq, w.eq, {w}, multiset{});
    ItemsSeen(s, w.eq, j, args[1..], rs);
    SeenJoin(s, i, w.eq, j, {w}, Words(args[1..]) + Files(rs), multiset{}, Modes(rs));
    FirstWord(args);
    assert {w} + (Words(args[1..]) + Files(rs)) == Words(args) + Files(rs) && multiset{} + Modes(rs) == Modes(rs);
  }

  lemma NothingSeen()
    ensures Words([]) == {} && Files([]) == {} && Modes([]) == multiset{}
  {
  }

  lemma FirstWord(args: seq<Span>)
    requires args != []
    ensures Words(args) == {args[0]} + Words(args[1..])
  {
    assert args == [args[0]] + args[1..];
  }

  lemma FirstFile(rs: seq<Redirection>)
    requires rs != []
    ensures Files(rs) == {rs[0].file} + Files(rs[1..]) && Modes(rs) == ModeOps(rs[0].mode) + Modes(rs[1..])
  {
    hide Files, Modes;
    assert rs == [rs[0]] + rs[1..];
    FilesJoin([rs[0]], rs[1..]);
    FilesAdd([], rs[0]);
    NothingSeen();
    assert [] + [rs[0]] == [rs[0]];
  }

  lemma ParenCovers(s: Line, k: nat)
    requires k < |s| && (s[k] == '(' || s[k] == ')')
    ensures Covers(s, k, k + 1, {}, multiset{}) && Boundary(s, k) && Boundary(s, k + 1) && s[k..k + 1] == [s[k]]
  {
    var e := k + 1;
    forall w: Span ensures !WordIn(s, k, e, w) { NoWord(s, k, e, w); }
  }

  /** What is between matching parentheses is what the whole holds. */
  lemma ParensSeen(s: Line, k: nat, l: nat, ws: set<Span>, ops: multiset<char>)
    requires k < l < |s| && s[k] == '(' && s[l] == ')' && Seen(s, k + 1, l, ws, ops)
    ensures Seen(s, k, l + 1, ws, ops) && Boundary(s, k) && Boundary(s, l + 1)
  {
    hide Boundary;
    ParenCovers(s, k);
    ParenCovers(s, l);
    Slices(s, k, k + 1, l, l + 1);
    hide Covers;
    CoversJoin(s, k, k + 1, l, {}, ws, multiset{}, ops);
    CoversJoin(s, k, l, l + 1, {} + ws, {}, multiset{} + ops, multiset{});
    assert {} + ws + {} == ws && multiset{} + ops + multiset{} == ops;
  }

  lemma OpSeen(s: Line, i: nat, op: char)
    requires i <= |s| && Boundary(s, i) && Skip(s, i) < |s| && s[Skip(s, i)] == op && IsOp(op)
    ensures var b := Skip(s, Skip(s, i) + 1); Seen(s, i, b, {}, multiset{op}) && Boundary(s, b) && b <= |s|
  {
    var k := Skip(s, i);
    assert s[k..k + 1] == [op] && Boundary(s, k + 1);
    OperatorSeen(s, k, k + 1, op);
    SeenWithin(s, i, k, k + 1, Skip(s, k + 1), {}, multiset{op});
  }

  /** Every command is made of exactly the words and operators of its text, with balanced parentheses. */
  lemma {:induction false} CommandSeen(s: Line, i: nat, j: nat, c: Cmd)
    requires Command(s, i, j, c) && Boundary(s, i) && i <= |s|
    ensures Seen(s, i, j, Spans(c), Ops(c)) && Boundary(s, j)
    decreases if i <= |s| then |s| - i else 0, 1
  {
    hide Seen, Boundary, Items, Sequence, Words, Files, Modes;
    if args, rs :| SimpleBy(s, i, j, c, args, rs) {
      ItemsSeen(s, i, j, args, rs);
      WrapParts(Exec(args), rs);
      ExecWords(args);
      assert multiset{} + Modes(rs) == Modes(rs);
    } else {
      var e, d, rs :| GroupBy(s, i, e, j, c, d, rs);
      GroupSeen(s, i, e, j, c, d, rs);
    }
  }

  lemma ExecWords(args: seq<Span>)
    ensures Spans(Exec(args)) == Words(args) && Ops(Exec(args)) == multiset{}
  {
  }

  lemma {:induction false} GroupSeen(s: Line, i: nat, e: nat, j: nat, c: Cmd, d: Cmd, rs: seq<Redirection>)
    requires GroupBy(s, i, e, j, c, d, rs) && Boundary(s, i)
    ensures Seen(s, i, j, Spans(c), Ops(c)) && Boundary(s, j)
    decreases if i <= |s| then |s| - i else 0, 0
  {
    hide Seen, Boundary, Items, Sequence, Words, Files, Modes;
    var k, l := Skip(s, i), Skip(s, e);
    var a, b := Skip(s, k + 1), Skip(s, l + 1);
    ParenCovers(s, k);
    SpacesSeen(s, k + 1, a);
    SequenceSeen(s, a, e, d);
    SeenWithin(s, k + 1, a, e, l, Spans(d), Ops(d));
    ParensSeen(s, k, l, Spans(d), Ops(d));
    SeenWithin(s, i, k, l + 1, b, Spans(d), Ops(d));
    ItemsSeen(s, b, j, [], rs);
    NothingSeen();
    SeenJoin(s, i, b, j, Spans(d), Words([]) + Files(rs), Ops(d), Modes(rs));
    WrapParts(d, rs);
    assert Words([]) + Files(rs) == Files(rs);
  }

  lemma {:induction false} PipelineSeen(s: Line, i: nat, j: nat, c: Cmd)
    requires Pipeline(s, i, j, c) && Boundary(s, i) && i <= |s|
    ensures Seen(s, i, j, Spans(c), Ops(c)) && Boundary(s, j)
    decreases if i <= |s| then |s| - i else 0, 3
  {
    hide Seen, Boundary, Command, PipeRest;
    var e, l :| PipeBy(s, i, e, j, l, c);
    CommandSeen(s, i, e, l);
    PipeRestSeen(s, i, e, j, l, c);
  }

  lemma {:induction false} PipeRestSeen(s: Line, i: nat, e: nat, j: nat, l: Cmd, c: Cmd)
    requires PipeRest(s, e, j, l, c) && Seen(s, i, e, Spans(l), Ops(l)) && Boundary(s, e)
    ensures Seen(s, i, j, Spans(c), Ops(c)) && Boundary(s, j)
    decreases if e <= |s| then |s| - e else 0, 2
  {
    hide Seen, Boundary, Blank, Pipeline;
    if l == c && Blank(s, e, j) {
      SpacesSeen(s, e, j);
      SeenSpaces(s, i, e, j, Spans(l), Ops(l));
    } else {
      OpSeen(s, e, '|');
      var b := Skip(s, Skip(s, e) + 1);
      PipelineSeen(s, b, j, c.right);
      SeenJoin(s, i, e, b, Spans(l), {}, Ops(l), multiset{'|'});
      assert Spans(l) + {} == Spans(l);
      Sequel(s, i, b, j, l, c.right, '|');
    }
  }

  lemma Sequel(s: Line, i: nat, j: nat, k: nat, a: Cmd, b: Cmd, op: char)
    requires Seen(s, i, j, Spans(a), Ops(a) + multiset{op}) && Seen(s, j, k, Spans(b), Ops(b))
    ensures Seen(s, i, k, Spans(a) + Spans(b), Ops(a) + Ops(b) + multiset{op})
  {
    hide Seen, Spans, Ops;
    SeenJoin(s, i, j, k, Spans(a), Spans(b), Ops(a) + multiset{op}, Ops(b));
    assert Ops(a) + multiset{op} + Ops(b) == Ops(a) + Ops(b) + multiset{op};
  }

  lemma {:induction false} SequenceSeen(s: Line, i: nat, j: nat, c: Cmd)
    requires Sequence(s, i, j, c) && Boundary(s, i) && i <= |s|
    ensures Seen(s, i, j, Spans(c), Ops(c)) && Boundary(s, j)
    decreases if i <= |s| then |s| - i else 0, 5
  {
    hide Seen, Boundary, Pipeline, LineRest;
    var e, p :| LineBy(s, i, e, j, p, c);
    PipelineSeen(s, i, e, p);
    LineRestSeen(s, i, e, j, p, c);
  }

  lemma {:induction false} LineRestSeen(s: Line, i: nat, e: nat, j: nat, p: Cmd, c: Cmd)
    requires LineRest(s, e, j, p, c) && Seen(s, i, e, Spans(p), Ops(p)) && Boundary(s, e)
    ensures Seen(s, i, j, Spans(c), Ops(c)) && Boundary(s, j)
    decreases if e <= |s| then |s| - e else 0, 4
  {
    hide Seen, Boundary, Blank, Sequence;
    var k := Skip(s, e);
    var b := Skip(s, k + 1);
    if p == c && Blank(s, e, j) {
      SpacesSeen(s, e, j);
      SeenSpaces(s, i, e, j, Spans(p), Ops(p));
    } else if k < |s| && s[k] == '&' {
      OpSeen(s, e, '&');
      SeenJoin(s, i, e, b, Spans(p), {}, Ops(p), multiset{'&'});
      assert Spans(p) + {} == Spans(p);
      LineRestSeen(s, i, b, j, Back(p), c);
    } else {
      OpSeen(s, e, ';');
      SequenceSeen(s, b, j, c.right);
      SeenJoin(s, i, e, b, Spans(p), {}, Ops(p), multiset{';'});
      assert Spans(p) + {} == Spans(p);
      Sequel(s, i, b, j, p, c.right, ';');
    }
  }

  /** The command of a whole line has exactly the words of the line and a node for each of its operators. */
  lemma LineHolds(s: Line, c: Cmd)
    requires Sequence(s, 0, |s|, c)
    ensures forall w: Span :: w in Spans(c) <==> WholeWord(s, w)
    ensures (forall o: char :: IsOp(o) ==> Ops(c)[o] == multiset(s)[o]) && multiset(s)['('] == multiset(s)[')']
  {
    hide Sequence;
    SequenceSeen(s, 0, |s|, c);
    assert s[0..|s|] == s;
    forall w: Span ensures w in Spans(c) <==> WholeWord(s, w) { assert w in Spans(c) <==> WordIn(s, 0, |s|, w); }
  }
}
