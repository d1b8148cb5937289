/** The parser of the shell (user/sh.c): it accepts exactly the lines of the grammar, returns their one reading, and
    cuts the words out of the line. */
module Shell {
  import opened ShellGrammar

  datatype Result = Ok(cmd: Cmd, next: nat) | Panic

  // ---------------------------------------------------------------- the lexer

  /** What gettoken returns: past the spaces, the end, a symbol or a whole word. */
  ghost predicate Token(s: Line, i: nat, tok: char, w: Span, j: nat)
  {
    && i <= |s| && w.q == Skip(s, i) && w.q <= w.eq <= |s| && j == Skip(s, w.eq)
    && if w.q == |s| then tok == '\0' && w.eq == w.q
       else if IsSymbol(s[w.q]) then
         if s[w.q] == '>' && At(s, w.q + 1) == '>' then tok == '+' && w.eq == w.q + 2
         else tok == s[w.q] && w.eq == w.q + 1
       else tok == 'a' && WholeWord(s, w)
  }

  method SkipSpace(s: Line, i: nat) returns (j: nat)
    requires i <= |s|
    ensures j == Skip(s, i) <= |s|
  {
    j := i;
    while j < |s| && IsSpace(s[j])
      invariant i <= j <= |s| && Skip(s, i) == Skip(s, j)
    {
      j := j + 1;
    }
  }

  method GetToken(s: Line, i: nat) returns (tok: char, w: Span, j: nat)
    requires i <= |s| && Boundary(s, i)
    ensures Token(s, i, tok, w, j) && j <= |s| && Boundary(s, j) && (tok != '\0' ==> i < j)
  {
    var q := SkipSpace(s, i);
    var e := q;
    tok := At(s, q);
    if q < |s| {
      if IsSymbol(s[q]) {
        e := e + 1;
        if tok == '>' && At(s, e) == '>' {
          tok := '+';
          e := e + 1;
        }
      } else {
        tok := 'a';
        while e < |s| && !IsSpace(s[e]) && !IsSymbol(s[e])
          invariant q <= e <= |s| && forall k :: q <= k < e ==> IsWord(s[k])
        {
          e := e + 1;
        }
      }
    }
    w := Span(q, e);
    j := SkipSpace(s, e);
  }

  /** peek skips spaces and looks for one of `toks`. */
  method Peek(s: Line, i: nat, toks: string) returns (r: bool, j: nat)
    requires i <= |s| && Boundary(s, i)
    ensures j == Skip(s, i) <= |s| && Boundary(s, j) && (r <==> j < |s| && s[j] in toks)
  {
    j := SkipSpace(s, i);
    r := j < |s| && s[j] in toks;
  }

  // ---------------------------------------------------------------- what the parsers promise

  /** A stretch of text ends at `j`: nothing, or one of `toks`, comes next. */
  ghost predicate Ends(s: Line, j: nat, toks: string)
  {
    j <= |s| && Skip(s, j) == j && (j == |s| || s[j] in toks)
  }

  /** parseexec: a command, and the only one that ends where a command can end. */
  ghost predicate ExecDone(s: Line, i: nat, r: Result)
  {
    && (r.Ok? ==>
          i <= r.next <= |s| && Skip(s, r.next) == r.next && Boundary(s, r.next) && Command(s, i, r.next, r.cmd))
    && (forall j, c :: Command(s, i, j, c) && Ends(s, j, "|)&;") ==> r == Ok(c, j))
  }

  ghost predicate PipeDone(s: Line, i: nat, r: Result)
  {
    && (r.Ok? ==>
          i <= r.next <= |s| && Skip(s, r.next) == r.next && Boundary(s, r.next) && Pipeline(s, i, r.next, r.cmd))
    && (forall j, c :: Pipeline(s, i, j, c) && Ends(s, j, ")&;") ==> r == Ok(c, j))
  }

  ghost predicate LineDone(s: Line, i: nat, r: Result)
  {
    && (r.Ok? ==>
          i <= r.next <= |s| && Skip(s, r.next) == r.next && Boundary(s, r.next) && Sequence(s, i, r.next, r.cmd))
    && (forall j, c :: Sequence(s, i, j, c) && Ends(s, j, ")") ==> r == Ok(c, j))
  }

  /** parseredirs takes all redirections that come next, in any list of items. */
  ghost predicate RedirsDone(s: Line, i: nat, ok: bool, rs: seq<Redirection>, n: nat)
  {
    && (ok ==>
          i <= n <= |s| && Skip(s, n) == n && Boundary(s, n) && Items(s, i, n, [], rs) && !(n < |s| && s[n] in "<>"))
    && (forall j, args, more :: Items(s, i, j, args, more) && Ends(s, j, "|)&;") ==>
          ok && rs <= more && Items(s, n, j, args, more[|rs|..]))
  }

  // ---------------------------------------------------------------- redirections

  /** So far `rs` have been taken, up to `k`. */
  ghost predicate Taken(s: Line, i: nat, k: nat, args: seq<Span>, rs: seq<Redirection>)
  {
    && i <= k <= |s| && Skip(s, k) == k && Boundary(s, k) && Items(s, i, k, args, rs)
    && (forall j, all, more :: Items(s, i, j, all, more) && Ends(s, j, "|)&;") ==> Left(s, k, j, args, rs, all, more))
  }

  /** Of the items `all` and `more`, those after `args` and `rs` are in s[k..j]. */
  ghost predicate Left(s: Line, k: nat, j: nat, args: seq<Span>, rs: seq<Redirection>, all: seq<Span>,
                       more: seq<Redirection>)
  {
    args <= all && rs <= more && Items(s, k, j, all[|args|..], more[|rs|..])
  }

  lemma TakenNothing(s: Line, i: nat)
    requires i <= |s| && Boundary(s, i)
    ensures Taken(s, i, Skip(s, i), [], [])
  {
    var k := Skip(s, i);
    SkipIs(s, k, k);
    forall j, all, more | Items(s, i, j, all, more) && Ends(s, j, "|)&;")
      ensures Left(s, k, j, [], [], all, more)
    {
      FromSkip(s, i, j, all, more);
      assert all[0..] == all && more[0..] == more;
    }
  }

  /** Items that end properly can be read from the first nonspace on. */
  lemma FromSkip(s: Line, i: nat, j: nat, args: seq<Span>, rs: seq<Redirection>)
    requires Items(s, i, j, args, rs) && Skip(s, j) == j
    ensures Items(s, Skip(s, i), j, args, rs)
  {
    var k := Skip(s, i);
    SkipIs(s, k, k);
    if args == [] && rs == [] && Blank(s, i, j) {
      SkipIs(s, i, j);
    } else {
      ItemsBounds(s, i, j, args, rs);
    }
  }

  lemma ItemsBounds(s: Line, i: nat, j: nat, args: seq<Span>, rs: seq<Redirection>)
    requires Items(s, i, j, args, rs) && (args != [] || rs != [])
    ensures Skip(s, i) <= j
  {
    var k := Skip(s, i);
    if rs != [] && RedirAt(s, k, rs[0]) && Items(s, rs[0].file.eq, j, args, rs[1..]) {
      assert k <= Skip(s, k + OpLength(rs[0].mode)) < rs[0].file.eq <= j;
    } else {
      assert WholeWord(s, args[0]) && k < args[0].eq <= j;
    }
  }

  lemma SkipThrough(s: Line, i: nat, j: nat)
    requires Blank(s, i, j)
    ensures Skip(s, i) == Skip(s, j)
  {
    assert Blank(s, i, Skip(s, j));
    SkipIs(s, i, Skip(s, j));
  }

  lemma ItemsLead(s: Line, i: nat, j: nat, k: nat, args: seq<Span>, rs: seq<Redirection>)
    requires Blank(s, i, j) && Items(s, j, k, args, rs)
    ensures Items(s, i, k, args, rs)
  {
    SkipThrough(s, i, j);
    if args == [] && rs == [] && Blank(s, j, k) { BlankJoin(s, i, j, k); }
  }

  lemma {:induction false} ItemsJoin(s: Line, i: nat, j: nat, k: nat, a: seq<Span>, r: seq<Redirection>,
                                     b: seq<Span>, q: seq<Redirection>)
    requires Items(s, i, j, a, r) && Items(s, j, k, b, q)
    ensures Items(s, i, k, a + b, r + q)
    decreases |a| + |r|
  {
    hide Blank, RedirAt, WholeWord;
    if a != [] && WholeWord(s, a[0]) && a[0].q == Skip(s, i) && Items(s, a[0].eq, j, a[1..], r) {
      ItemsJoin(s, a[0].eq, j, k, a[1..], r, b, q);
      assert (a + b)[1..] == a[1..] + b && (a + b)[0] == a[0];
    } else if r != [] && RedirAt(s, Skip(s, i), r[0]) && Items(s, r[0].file.eq, j, a, r[1..]) {
      ItemsJoin(s, r[0].file.eq, j, k, a, r[1..], b, q);
      assert (r + q)[1..] == r[1..] + q && (r + q)[0] == r[0];
    } else {
      ItemsLead(s, i, j, k, b, q);
      assert a + b == b && r + q == q;
    }
  }

  /** Words that begin at the same place are the same. */
  lemma SameWord(s: Line, w: Span, v: Span)
    requires WholeWord(s, w) && WholeWord(s, v) && w.q == v.q
    ensures w == v
  {
    if w.eq < v.eq { InsideWord(s, v, w.eq); }
    if v.eq < w.eq { InsideWord(s, w, v.eq); }
  }

  /** Items that begin at a redirection operator begin with a redirection. */
  lemma BeginsRedir(s: Line, k: nat, j: nat, args: seq<Span>, rs: seq<Redirection>)
    requires k < |s| && Skip(s, k) == k && s[k] in "<>" && Items(s, k, j, args, rs) && Ends(s, j, "|)&;")
    ensures rs != [] && RedirAt(s, k, rs[0]) && Items(s, rs[0].file.eq, j, args, rs[1..])
  {
    hide RedirAt;
    if Blank(s, k, j) { SkipIs(s, k, j); }
    assert IsSymbol(s[k]);
  }

  /** The two tokens at a redirection are its operator and its file. */
  lemma RedirTokens(s: Line, k: nat, tok: char, v: Span, m: nat, tok2: char, w: Span, l: nat, r: Redirection)
    requires Skip(s, k) == k && RedirAt(s, k, r) && Token(s, k, tok, v, m) && Token(s, m, tok2, w, l)
    ensures tok2 == 'a' && r == Redirection(w, tok) && l == Skip(s, w.eq)
  {
    assert r.mode == tok && v.eq == k + OpLength(tok);
    SkipThrough(s, v.eq, m);
    assert IsWord(s[w.q]);
    SameWord(s, w, r.file);
  }

  /** A redirection operator comes next: the items begin with that redirection. */
  lemma NextRedir(s: Line, k: nat, tok: char, v: Span, m: nat, tok2: char, w: Span, l: nat,
                  j: nat, args: seq<Span>, rs: seq<Redirection>)
    requires k < |s| && Skip(s, k) == k && s[k] in "<>" && Token(s, k, tok, v, m) && Token(s, m, tok2, w, l)
    requires Items(s, k, j, args, rs) && Ends(s, j, "|)&;")
    ensures tok2 == 'a' && rs != [] && rs[0] == Redirection(w, tok) && Items(s, l, j, args, rs[1..])
  {
    hide Items, Token, RedirAt;
    BeginsRedir(s, k, j, args, rs);
    RedirTokens(s, k, tok, v, m, tok2, w, l, rs[0]);
    FromSkip(s, w.eq, j, args, rs[1..]);
  }

  lemma OneRedir(s: Line, k: nat, tok: char, v: Span, m: nat, w: Span, l: nat)
    requires k < |s| && Skip(s, k) == k && s[k] in "<>" && Token(s, k, tok, v, m) && Token(s, m, 'a', w, l)
    ensures Items(s, k, l, [], [Redirection(w, tok)])
  {
    SkipThrough(s, v.eq, m);
    assert RedirAt(s, k, Redirection(w, tok));
    assert Items(s, w.eq, l, [], []);
  }

  lemma TokenSkips(s: Line, i: nat, tok: char, w: Span, j: nat)
    requires Token(s, i, tok, w, j)
    ensures i <= j <= |s| && Skip(s, j) == j
  {
    SkipIs(s, j, j);
  }

  lemma TakenRedir(s: Line, i: nat, k: nat, args: seq<Span>, rs: seq<Redirection>,
                   tok: char, v: Span, m: nat, w: Span, l: nat)
    requires Taken(s, i, k, args, rs) && k < |s| && s[k] in "<>" && Token(s, k, tok, v, m) && Token(s, m, 'a', w, l)
    requires Boundary(s, l)
    ensures Taken(s, i, l, args, rs + [Redirection(w, tok)])
  {
    hide Items, Token, Boundary, Ends;
    var r, rs' := Redirection(w, tok), rs + [Redirection(w, tok)];
    OneRedir(s, k, tok, v, m, w, l);
    ItemsJoin(s, i, k, l, args, rs, [], [r]);
    assert args + [] == args;
    TokenSkips(s, m, 'a', w, l);
    forall j, all, more | Items(s, i, j, all, more) && Ends(s, j, "|)&;") ensures Left(s, l, j, args, rs', all, more) {
      assert Left(s, k, j, args, rs, all, more);
      NextRedir(s, k, tok, v, m, 'a', w, l, j, all[|args|..], more[|rs|..]);
      assert more[|rs|..][1..] == more[|rs'|..];
    }
  }

  /** No list of items that can end as a command begins at `i`. */
  ghost predicate Hopeless(s: Line, i: nat)
  {
    forall j, args, rs :: Items(s, i, j, args, rs) ==> !Ends(s, j, "|)&;")
  }

  /** parseredirs: it fails only where no redirection can be read. */
  method ParseRedirs(s: Line, i: nat) returns (ok: bool, rs: seq<Redirection>, n: nat)
    requires i <= |s| && Boundary(s, i)
    ensures RedirsDone(s, i, ok, rs, n)
  {
    hide Items, Token, Boundary, Taken, Skip, Ends;
    rs := [];
    TakenNothing(s, i);
    var more;
    more, n := Peek(s, i, "<>");
    while more
      invariant Taken(s, i, n, [], rs) && n <= |s| && Boundary(s, n) && (more <==> n < |s| && s[n] in "<>")
      decreases |s| - n
    {
      var tok, v, m := GetToken(s, n);
      var tok2, w, l := GetToken(s, m);
      if tok2 != 'a' {
        NoFile(s, i, n, [], rs, tok, v, m, tok2, w, l);
        HopelessDone(s, i, rs, n);
        return false, rs, n;
      }
      TakenRedir(s, i, n, [], rs, tok, v, m, w, l);
      assert n < l by { TokenMoves(s, n, tok, v, m); TokenSkips(s, m, tok2, w, l); }
      rs := rs + [Redirection(w, tok)];
      more, n := Peek(s, l, "<>");
      assert n == l by { TokenSkips(s, m, tok2, w, l); }
    }
    TakenDone(s, i, rs, n);
    ok := true;
  }

  lemma TokenMoves(s: Line, i: nat, tok: char, w: Span, j: nat)
    requires Token(s, i, tok, w, j) && i < |s| && Skip(s, i) == i
    ensures i < j <= |s|
  {
  }

  lemma NoFile(s: Line, i: nat, k: nat, args: seq<Span>, rs: seq<Redirection>,
               tok: char, v: Span, m: nat, tok2: char, w: Span, l: nat)
    requires Taken(s, i, k, args, rs) && k < |s| && s[k] in "<>" && Token(s, k, tok, v, m) && Token(s, m, tok2, w, l)
    requires tok2 != 'a'
    ensures Hopeless(s, i)
  {
    hide Items, Token, Boundary, Ends;
    forall j, all, more | Items(s, i, j, all, more) ensures !Ends(s, j, "|)&;") {
      if Ends(s, j, "|)&;") {
        assert Left(s, k, j, args, rs, all, more);
        NextRedir(s, k, tok, v, m, tok2, w, l, j, all[|args|..], more[|rs|..]);
      }
    }
  }

  lemma HopelessDone(s: Line, i: nat, rs: seq<Redirection>, n: nat)
    requires Hopeless(s, i)
    ensures RedirsDone(s, i, false, rs, n)
  {
    hide Items, Ends;
  }

  lemma TakenDone(s: Line, i: nat, rs: seq<Redirection>, n: nat)
    requires Taken(s, i, n, [], rs) && !(n < |s| && s[n] in "<>")
    ensures RedirsDone(s, i, true, rs, n)
  {
    hide Items, Ends, Boundary;
    forall j, args, more | Items(s, i, j, args, more) && Ends(s, j, "|)&;")
      ensures rs <= more && Items(s, n, j, args, more[|rs|..])
    {
      assert Left(s, n, j, [], rs, args, more);
      assert args[0..] == args;
    }
  }

  // ---------------------------------------------------------------- simple commands

  lemma NextWord(s: Line, k: nat, w: Span, l: nat, j: nat, args: seq<Span>, rs: seq<Redirection>)
    requires Skip(s, k) == k && Token(s, k, 'a', w, l) && Items(s, k, j, args, rs) && Ends(s, j, "|)&;")
    ensures args != [] && args[0] == w && Items(s, l, j, args[1..], rs)
  {
    assert IsWord(s[k]);
    assert !(args == [] && rs == [] && Blank(s, k, j)) by { if Blank(s, k, j) { SkipIs(s, k, j); } }
    assert args != [] && WholeWord(s, args[0]) && args[0].q == k && Items(s, args[0].eq, j, args[1..], rs);
    SameWord(s, w, args[0]);
    FromSkip(s, w.eq, j, args[1..], rs);
  }

  lemma TakenWord(s: Line, i: nat, k: nat, args: seq<Span>, rs: seq<Redirection>, w: Span, l: nat)
    requires Taken(s, i, k, args, rs) && Token(s, k, 'a', w, l) && Boundary(s, l)
    ensures Taken(s, i, l, args + [w], rs)
  {
    assert Items(s, k, l, [w], []) by { assert Items(s, w.eq, l, [], []); }
    hide Items, Token, Boundary, Ends;
    ItemsJoin(s, i, k, l, args, rs, [w], []);
    assert rs + [] == rs;
    TokenSkips(s, k, 'a', w, l);
    var args' := args + [w];
    forall j, all, more | Items(s, i, j, all, more) && Ends(s, j, "|)&;") ensures Left(s, l, j, args', rs, all, more) {
      assert Left(s, k, j, args, rs, all, more);
      NextWord(s, k, w, l, j, all[|args|..], more[|rs|..]);
      assert all[|args|..][1..] == all[|args'|..];
    }
  }

  lemma TakenRedirs(s: Line, i: nat, k: nat, n: nat, args: seq<Span>, rs: seq<Redirection>, qs: seq<Redirection>)
    requires Taken(s, i, k, args, rs) && RedirsDone(s, k, true, qs, n)
    ensures Taken(s, i, n, args, rs + qs)
  {
    hide Items, Boundary, Ends;
    ItemsJoin(s, i, k, n, args, rs, [], qs);
    assert args + [] == args;
    var rs' := rs + qs;
    forall j, all, more | Items(s, i, j, all, more) && Ends(s, j, "|)&;") ensures Left(s, n, j, args, rs', all, more) {
      assert Left(s, k, j, args, rs, all, more);
      assert Items(s, k, j, all[|args|..], more[|rs|..]);
      assert more[|rs|..][|qs|..] == more[|rs'|..];
    }
  }

  lemma RedirsFail(s: Line, i: nat, k: nat, args: seq<Span>, rs: seq<Redirection>, qs: seq<Redirection>, n: nat)
    requires Taken(s, i, k, args, rs) && RedirsDone(s, k, false, qs, n)
    ensures Hopeless(s, i)
  {
    hide Items, Boundary, Ends, RedirsDone;
    forall j, all, more | Items(s, i, j, all, more) ensures !Ends(s, j, "|)&;") {
      if Ends(s, j, "|)&;") {
        assert Left(s, k, j, args, rs, all, more);
        NoRedirs(s, k, qs, n, j, all[|args|..], more[|rs|..]);
      }
    }
  }

  lemma NoRedirs(s: Line, k: nat, qs: seq<Redirection>, n: nat, j: nat, args: seq<Span>, rs: seq<Redirection>)
    requires RedirsDone(s, k, false, qs, n) && Ends(s, j, "|)&;")
    ensures !Items(s, k, j, args, rs)
  {
    hide Items, Ends;
  }

  /** Something comes next that neither begins an item nor ends a command. */
  lemma NoItem(s: Line, i: nat, k: nat, args: seq<Span>, rs: seq<Redirection>)
    requires Taken(s, i, k, args, rs) && k < |s| && s[k] == '('
    ensures Hopeless(s, i)
  {
    forall j, all, more | Items(s, i, j, all, more) ensures !Ends(s, j, "|)&;") {
      if Ends(s, j, "|)&;") {
        assert Left(s, k, j, args, rs, all, more);
        NotParen(s, k, j, all[|args|..], more[|rs|..]);
      }
    }
  }

  lemma NotParen(s: Line, k: nat, j: nat, args: seq<Span>, rs: seq<Redirection>)
    requires k < |s| && Skip(s, k) == k && s[k] == '('
    ensures !(Items(s, k, j, args, rs) && Ends(s, j, "|)&;"))
  {
    if Items(s, k, j, args, rs) && Blank(s, k, j) { SkipIs(s, k, j); }
  }

  /** The command ends here: the items taken are all there are. */
  lemma TakenAll(s: Line, i: nat, k: nat, args: seq<Span>, rs: seq<Redirection>,
                 j: nat, all: seq<Span>, more: seq<Redirection>)
    requires Taken(s, i, k, args, rs) && Ends(s, k, "|)&;") && Items(s, i, j, all, more) && Ends(s, j, "|)&;")
    ensures all == args && more == rs && j == k
  {
    assert Left(s, k, j, args, rs, all, more);
    AtEnd(s, k, j, all[|args|..], more[|rs|..]);
    assert all == args + all[|args|..] && more == rs + more[|rs|..];
  }

  lemma AtEnd(s: Line, k: nat, j: nat, args: seq<Span>, rs: seq<Redirection>)
    requires Ends(s, k, "|)&;") && Items(s, k, j, args, rs) && Ends(s, j, "|)&;")
    ensures args == [] && rs == [] && j == k
  {
    if args != [] && WholeWord(s, args[0]) && args[0].q == k { assert IsWord(s[k]); }
    SkipIs(s, k, j);
  }

  lemma RedirsTaken(s: Line, i: nat, rs: seq<Redirection>, n: nat)
    requires i <= |s| && Boundary(s, i) && RedirsDone(s, i, true, rs, n)
    ensures Taken(s, i, n, [], rs)
  {
    hide Items, Boundary, Ends;
    forall j, all, more | Items(s, i, j, all, more) && Ends(s, j, "|)&;") ensures Left(s, n, j, [], rs, all, more) {
      assert all[0..] == all;
    }
  }

  /** A command that does not begin with a parenthesis is simple. */
  lemma IsSimple(s: Line, i: nat, j: nat, c: Cmd) returns (args: seq<Span>, rs: seq<Redirection>)
    requires Command(s, i, j, c) && At(s, Skip(s, i)) != '('
    ensures SimpleBy(s, i, j, c, args, rs)
  {
    hide Items, Sequence, Skip;
    assert !exists e, d, rs :: GroupBy(s, i, e, j, c, d, rs);
    args, rs :| SimpleBy(s, i, j, c, args, rs);
  }

  lemma SimpleDone(s: Line, i: nat, k: nat, args: seq<Span>, rs: seq<Redirection>)
    requires Taken(s, i, k, args, rs) && Ends(s, k, "|)&;") && |args| < MAXARGS && At(s, Skip(s, i)) != '('
    ensures ExecDone(s, i, Ok(Wrap(Exec(args), rs), k))
  {
    hide Items, Ends, Command, Wrap, Boundary;
    var r := Ok(Wrap(Exec(args), rs), k);
    assert Command(s, i, k, r.cmd) by { SimpleCommand(s, i, k, args, rs); }
    forall j, c | Command(s, i, j, c) && Ends(s, j, "|)&;") ensures r == Ok(c, j) {
      var all, more := IsSimple(s, i, j, c);
      TakenAll(s, i, k, args, rs, j, all, more);
    }
  }

  lemma SimpleCommand(s: Line, i: nat, j: nat, args: seq<Span>, rs: seq<Redirection>)
    requires Items(s, i, j, args, rs) && |args| < MAXARGS
    ensures Command(s, i, j, Wrap(Exec(args), rs))
  {
    assert SimpleBy(s, i, j, Wrap(Exec(args), rs), args, rs);
  }

  lemma SimpleFails(s: Line, i: nat)
    requires Hopeless(s, i) && At(s, Skip(s, i)) != '('
    ensures ExecDone(s, i, Panic)
  {
    hide Items, Ends, Command;
    forall j, c | Command(s, i, j, c) ensures !Ends(s, j, "|)&;") {
      var args, rs := IsSimple(s, i, j, c);
    }
  }

  lemma TooMany(s: Line, i: nat, k: nat, args: seq<Span>, rs: seq<Redirection>)
    requires Taken(s, i, k, args, rs) && |args| >= MAXARGS && At(s, Skip(s, i)) != '('
    ensures ExecDone(s, i, Panic)
  {
    hide Items, Ends, Command, Boundary;
    forall j, c | Command(s, i, j, c) ensures !Ends(s, j, "|)&;") {
      var all, more := IsSimple(s, i, j, c);
      assert Ends(s, j, "|)&;") ==> Left(s, k, j, args, rs, all, more);
    }
  }

  lemma TokenKind(s: Line, i: nat, tok: char, w: Span, j: nat)
    requires Token(s, i, tok, w, j) && Skip(s, i) == i && !(i < |s| && s[i] in "<>|)&;")
    ensures (tok == '\0' <==> i == |s|) && (i < |s| && tok != 'a' ==> s[i] == '(')
  {
  }

  /** The words and redirections of parseexec. */
  method ParseArgs(s: Line, i: nat) returns (r: Result)
    requires i <= |s| && Boundary(s, i) && At(s, Skip(s, i)) != '('
    ensures ExecDone(s, i, r)
  {
    hide Items, Token, Boundary, Taken, Skip, Ends, ExecDone, RedirsDone, At, Wrap, Hopeless;
    var args: seq<Span> := [];
    var ok, rs, n := ParseRedirs(s, i);
    if !ok {
      TakenNothing(s, i);
      RedirsHopeless(s, i, rs, n);
      SimpleFails(s, i);
      return Panic;
    }
    RedirsTaken(s, i, rs, n);
    RedirsStop(s, i, rs, n);
    var stop;
    stop, n := Peek(s, n, "|)&;");
    while !stop
      invariant Taken(s, i, n, args, rs) && |args| < MAXARGS && n <= |s| && Boundary(s, n) && Skip(s, n) == n
      invariant !(n < |s| && s[n] in "<>") && (stop <==> n < |s| && s[n] in "|)&;")
      decreases |s| - n
    {
      var tok, w, l := GetToken(s, n);
      TokenKind(s, n, tok, w, l);
      if tok == '\0' {
        break;
      }
      if tok != 'a' {
        NoItem(s, i, n, args, rs);
        SimpleFails(s, i);
        return Panic;
      }
      TakenWord(s, i, n, args, rs, w, l);
      args := args + [w];
      if |args| >= MAXARGS {
        TooMany(s, i, l, args, rs);
        return Panic;
      }
      var qs, m;
      ok, qs, m := ParseRedirs(s, l);
      if !ok {
        RedirsFail(s, i, l, args, rs, qs, m);
        SimpleFails(s, i);
        return Panic;
      }
      TakenRedirs(s, i, l, m, args, rs, qs);
      RedirsStop(s, l, qs, m);
      rs := rs + qs;
      stop, n := Peek(s, m, "|)&;");
    }
    SimpleEnds(s, n);
    SimpleDone(s, i, n, args, rs);
    r := Ok(Wrap(Exec(args), rs), n);
  }

  lemma RedirsStop(s: Line, i: nat, rs: seq<Redirection>, n: nat)
    requires RedirsDone(s, i, true, rs, n)
    ensures i <= n <= |s| && Skip(s, n) == n && Boundary(s, n) && !(n < |s| && s[n] in "<>")
  {
    hide Items, Ends;
  }

  lemma RedirsHopeless(s: Line, i: nat, rs: seq<Redirection>, n: nat)
    requires RedirsDone(s, i, false, rs, n)
    ensures Hopeless(s, i)
  {
    hide Items, Ends;
  }

  lemma SimpleEnds(s: Line, n: nat)
    requires n <= |s| && Skip(s, n) == n && (n == |s| || s[n] in "|)&;")
    ensures Ends(s, n, "|)&;")
  {
  }

  // ---------------------------------------------------------------- blocks

  /** One of the symbols that stand alone. */
  lemma TokenSymbol(s: Line, i: nat, tok: char, w: Span, j: nat)
    requires Token(s, i, tok, w, j) && i < |s| && Skip(s, i) == i && s[i] in "|&;()"
    ensures j == Skip(s, i + 1)
  {
  }

  lemma NoWords(s: Line, n: nat, j: nat, rs: seq<Redirection>)
    requires n <= |s| && Skip(s, n) == n && !(n < |s| && s[n] in "<>") && Items(s, n, j, [], rs) && Skip(s, j) == j
    ensures rs == [] && j == n
  {
    SkipIs(s, n, j);
  }

  /** A command that begins with a parenthesis is a group. */
  lemma IsGroup(s: Line, i: nat, j: nat, c: Cmd) returns (e: nat, d: Cmd, rs: seq<Redirection>)
    requires Command(s, i, j, c) && At(s, Skip(s, i)) == '(' && Ends(s, j, "|)&;")
    ensures GroupBy(s, i, e, j, c, d, rs)
  {
    hide Items, Sequence, Skip;
    forall args, rs ensures !SimpleBy(s, i, j, c, args, rs) {
      if SimpleBy(s, i, j, c, args, rs) { NotGroup(s, i, j, args, rs); }
    }
    e, d, rs :| GroupBy(s, i, e, j, c, d, rs);
  }

  lemma NotGroup(s: Line, i: nat, j: nat, args: seq<Span>, rs: seq<Redirection>)
    requires At(s, Skip(s, i)) == '(' && Ends(s, j, "|)&;")
    ensures !Items(s, i, j, args, rs)
  {
    if Items(s, i, j, args, rs) {
      FromSkip(s, i, j, args, rs);
      SkipIs(s, Skip(s, i), Skip(s, i));
      NotParen(s, Skip(s, i), j, args, rs);
    }
  }

  /** What parseline read inside the parentheses is what any group has there. */
  lemma GroupInner(s: Line, i: nat, e: nat, j: nat, c: Cmd, d: Cmd, rs: seq<Redirection>, r: Result)
    requires GroupBy(s, i, e, j, c, d, rs) && LineDone(s, Skip(s, Skip(s, i) + 1), r)
    ensures r == Ok(d, Skip(s, e))
  {
    hide Items, Sequence;
    var l := Skip(s, e);
    SequenceTrail(s, Skip(s, Skip(s, i) + 1), e, l, d);
    SkipIs(s, l, l);
    assert Ends(s, l, ")");
  }

  lemma GroupPanics(s: Line, i: nat, r: Result)
    requires At(s, Skip(s, i)) == '(' && LineDone(s, Skip(s, Skip(s, i) + 1), r)
    requires r.Ok? ==> At(s, r.next) != ')'
    ensures ExecDone(s, i, Panic)
  {
    hide Items, Sequence, Ends, LineDone, Command;
    forall j, c | Command(s, i, j, c) ensures !Ends(s, j, "|)&;") {
      if Ends(s, j, "|)&;") {
        var e, d, rs := IsGroup(s, i, j, c);
        GroupInner(s, i, e, j, c, d, rs, r);
      }
    }
  }

  lemma GroupFails(s: Line, i: nat, d: Cmd, l: nat, qs: seq<Redirection>, n: nat)
    requires At(s, Skip(s, i)) == '(' && LineDone(s, Skip(s, Skip(s, i) + 1), Ok(d, l))
    requires l < |s| && RedirsDone(s, Skip(s, l + 1), false, qs, n)
    ensures ExecDone(s, i, Panic)
  {
    hide Items, Sequence, Ends, LineDone, Command, RedirsDone;
    forall j, c | Command(s, i, j, c) ensures !Ends(s, j, "|)&;") {
      if Ends(s, j, "|)&;") {
        var e, d', rs := IsGroup(s, i, j, c);
        GroupInner(s, i, e, j, c, d', rs, Ok(d, l));
        NoRedirs(s, Skip(s, l + 1), qs, n, j, [], rs);
      }
    }
  }

  lemma GroupDone(s: Line, i: nat, d: Cmd, l: nat, qs: seq<Redirection>, n: nat)
    requires i <= |s| && At(s, Skip(s, i)) == '(' && LineDone(s, Skip(s, Skip(s, i) + 1), Ok(d, l)) && At(s, l) == ')'
    requires l < |s| && RedirsDone(s, Skip(s, l + 1), true, qs, n)
    ensures ExecDone(s, i, Ok(Wrap(d, qs), n))
  {
    hide Items, Sequence, Ends, Command, RedirsDone, Wrap, LineDone;
    RedirsStop(s, Skip(s, l + 1), qs, n);
    LineNext(s, Skip(s, Skip(s, i) + 1), d, l);
    GroupReads(s, i, d, l, qs, n);
    forall j, c | Command(s, i, j, c) && Ends(s, j, "|)&;") ensures c == Wrap(d, qs) && j == n {
      var e, d', rs := IsGroup(s, i, j, c);
      GroupInner(s, i, e, j, c, d', rs, Ok(d, l));
      GroupTail(s, l, qs, n, j, rs);
    }
  }

  lemma GroupReads(s: Line, i: nat, d: Cmd, l: nat, qs: seq<Redirection>, n: nat)
    requires i <= |s| && At(s, Skip(s, i)) == '(' && LineDone(s, Skip(s, Skip(s, i) + 1), Ok(d, l)) && At(s, l) == ')'
    requires l < |s| && RedirsDone(s, Skip(s, l + 1), true, qs, n)
    ensures Command(s, i, n, Wrap(d, qs))
  {
    hide Items, Sequence, Ends, Wrap, Boundary;
    assert GroupBy(s, i, l, n, Wrap(d, qs), d, qs);
  }

  lemma GroupTail(s: Line, l: nat, qs: seq<Redirection>, n: nat, j: nat, rs: seq<Redirection>)
    requires RedirsDone(s, Skip(s, l + 1), true, qs, n) && Items(s, Skip(s, l + 1), j, [], rs) && Ends(s, j, "|)&;")
    ensures rs == qs && j == n
  {
    hide Items;
    NoWords(s, n, j, rs[|qs|..]);
    assert rs == qs + rs[|qs|..];
  }

  method ParseBlock(s: Line, i: nat) returns (r: Result)
    requires i <= |s| && Boundary(s, i) && At(s, Skip(s, i)) == '('
    ensures ExecDone(s, i, r)
    decreases |s| - i, 0
  {
    hide Items, Token, Boundary, Skip, Ends, ExecDone, LineDone, RedirsDone, Wrap, Hopeless;
    var open, n := Peek(s, i, "(");
    SkipTwice(s, i);
    var tok, w, m := GetToken(s, n);
    TokenSymbol(s, n, tok, w, m);
    TokenMoves(s, n, tok, w, m);
    r := ParseLine(s, m);
    if r.Panic? {
      GroupPanics(s, i, r);
      return;
    }
    var d, l := r.cmd, r.next;
    LineNext(s, m, d, l);
    var close, l' := Peek(s, l, ")");
    if !close {
      GroupPanics(s, i, r);
      return Panic;
    }
    tok, w, m := GetToken(s, l);
    TokenSymbol(s, l, tok, w, m);
    var ok, rs, k := ParseRedirs(s, m);
    if !ok {
      GroupFails(s, i, d, l, rs, k);
      return Panic;
    }
    GroupDone(s, i, d, l, rs, k);
    r := Ok(Wrap(d, rs), k);
  }

  lemma SkipTwice(s: Line, i: nat)
    ensures Skip(s, Skip(s, i)) == Skip(s, i)
  {
  }

  lemma LineNext(s: Line, i: nat, c: Cmd, l: nat)
    requires LineDone(s, i, Ok(c, l))
    ensures i <= l <= |s| && Skip(s, l) == l && Boundary(s, l)
  {
    hide Sequence, Ends;
  }

  lemma PipeNext(s: Line, i: nat, c: Cmd, l: nat)
    requires PipeDone(s, i, Ok(c, l))
    ensures i <= l <= |s| && Skip(s, l) == l && Boundary(s, l)
  {
    hide Pipeline, Ends;
  }

  lemma ExecNext(s: Line, i: nat, c: Cmd, l: nat)
    requires ExecDone(s, i, Ok(c, l))
    ensures i <= l <= |s| && Skip(s, l) == l && Boundary(s, l)
  {
    hide Command, Ends;
  }

  method ParseExec(s: Line, i: nat) returns (r: Result)
    requires i <= |s| && Boundary(s, i)
    ensures ExecDone(s, i, r)
    decreases |s| - i, 1
  {
    hide ExecDone, Boundary, Skip;
    var block, n := Peek(s, i, "(");
    if block {
      r := ParseBlock(s, i);
    } else {
      r := ParseArgs(s, i);
    }
  }

  // ---------------------------------------------------------------- pipelines

  lemma SplitPipe(s: Line, i: nat, j: nat, c: Cmd) returns (e: nat, l: Cmd)
    requires Pipeline(s, i, j, c)
    ensures PipeBy(s, i, e, j, l, c)
  {
    hide PipeBy;
    e, l :| PipeBy(s, i, e, j, l, c);
  }

  /** What parseexec read first is what any pipeline begins with. */
  lemma PipeFirst(s: Line, i: nat, e: nat, j: nat, l: Cmd, c: Cmd, r: Result)
    requires PipeBy(s, i, e, j, l, c) && Ends(s, j, ")&;") && ExecDone(s, i, r)
    ensures r == Ok(l, Skip(s, e))
  {
    hide Command, Pipeline;
    var k := Skip(s, e);
    CommandTrail(s, i, e, k, l);
    SkipIs(s, k, k);
    assert Ends(s, k, "|)&;") by { if Blank(s, e, j) { SkipIs(s, e, j); } }
  }

  lemma PipePanics(s: Line, i: nat)
    requires ExecDone(s, i, Panic)
    ensures PipeDone(s, i, Panic)
  {
    hide PipeBy, Ends, ExecDone;
    forall j, c | Pipeline(s, i, j, c) ensures !Ends(s, j, ")&;") {
      if Ends(s, j, ")&;") {
        var e, l := SplitPipe(s, i, j, c);
        PipeFirst(s, i, e, j, l, c, Panic);
      }
    }
  }

  /** No bar: the pipeline is the command. */
  lemma PipeOne(s: Line, i: nat, a: Cmd, k: nat)
    requires ExecDone(s, i, Ok(a, k)) && At(s, k) != '|'
    ensures PipeDone(s, i, Ok(a, k))
  {
    hide Ends, Command, Boundary;
    assert PipeBy(s, i, k, k, a, a);
    hide PipeBy, ExecDone;
    forall j, c | Pipeline(s, i, j, c) && Ends(s, j, ")&;") ensures c == a && j == k {
      var e, l := SplitPipe(s, i, j, c);
      PipeFirst(s, i, e, j, l, c, Ok(a, k));
      RestOne(s, i, e, j, l, c);
    }
  }

  lemma RestOne(s: Line, i: nat, e: nat, j: nat, l: Cmd, c: Cmd)
    requires PipeBy(s, i, e, j, l, c) && Ends(s, j, ")&;") && At(s, Skip(s, e)) != '|'
    ensures l == c && j == Skip(s, e)
  {
    hide Command, Pipeline;
    SkipIs(s, e, j);
  }

  /** A bar: another pipeline comes after it. */
  lemma RestMore(s: Line, i: nat, e: nat, j: nat, l: Cmd, c: Cmd)
    requires PipeBy(s, i, e, j, l, c) && Ends(s, j, ")&;") && At(s, Skip(s, e)) == '|'
    ensures c.Pipe? && c.left == l && Pipeline(s, Skip(s, Skip(s, e) + 1), j, c.right)
  {
    hide Command, Pipeline;
    if Blank(s, e, j) { SkipIs(s, e, j); }
  }

  lemma PipeFails(s: Line, i: nat, a: Cmd, k: nat)
    requires ExecDone(s, i, Ok(a, k)) && At(s, k) == '|' && PipeDone(s, Skip(s, k + 1), Panic)
    ensures PipeDone(s, i, Panic)
  {
    hide PipeBy, Ends, ExecDone, PipeDone;
    forall j, c | Pipeline(s, i, j, c) ensures !Ends(s, j, ")&;") {
      if Ends(s, j, ")&;") {
        var e, l := SplitPipe(s, i, j, c);
        PipeFirst(s, i, e, j, l, c, Ok(a, k));
        RestMore(s, i, e, j, l, c);
        PipeOnly(s, Skip(s, k + 1), Panic, j, c.right);
      }
    }
    PipeNever(s, i);
  }

  lemma PipeNever(s: Line, i: nat)
    requires forall j, c :: Pipeline(s, i, j, c) ==> !Ends(s, j, ")&;")
    ensures PipeDone(s, i, Panic)
  {
    hide Pipeline, Ends;
  }

  lemma PipeOnly(s: Line, i: nat, r: Result, j: nat, c: Cmd)
    requires PipeDone(s, i, r) && Pipeline(s, i, j, c) && Ends(s, j, ")&;")
    ensures r == Ok(c, j)
  {
    hide Pipeline, Ends;
  }

  lemma PipeMore(s: Line, i: nat, a: Cmd, k: nat, b: Cmd, n: nat)
    requires ExecDone(s, i, Ok(a, k)) && At(s, k) == '|' && PipeDone(s, Skip(s, k + 1), Ok(b, n))
    ensures PipeDone(s, i, Ok(Pipe(a, b), n))
  {
    hide Ends, Command, Boundary, Pipeline;
    PipeNext(s, Skip(s, k + 1), b, n);
    PipeReads(s, i, a, k, b, n);
    hide ExecDone, PipeDone;
    forall j, c | Pipeline(s, i, j, c) && Ends(s, j, ")&;") ensures c == Pipe(a, b) && j == n {
      PipeSplit(s, i, j, c, a, k);
      PipeOnly(s, Skip(s, k + 1), Ok(b, n), j, c.right);
    }
    PipeSure(s, i, Pipe(a, b), n);
  }

  lemma PipeSplit(s: Line, i: nat, j: nat, c: Cmd, a: Cmd, k: nat)
    requires ExecDone(s, i, Ok(a, k)) && At(s, k) == '|' && Pipeline(s, i, j, c) && Ends(s, j, ")&;")
    ensures c.Pipe? && c.left == a && Pipeline(s, Skip(s, k + 1), j, c.right)
  {
    hide Ends, ExecDone, PipeBy;
    var e, l := SplitPipe(s, i, j, c);
    PipeFirst(s, i, e, j, l, c, Ok(a, k));
    RestMore(s, i, e, j, l, c);
  }

  lemma PipeReads(s: Line, i: nat, a: Cmd, k: nat, b: Cmd, n: nat)
    requires ExecDone(s, i, Ok(a, k)) && At(s, k) == '|' && PipeDone(s, Skip(s, k + 1), Ok(b, n))
    ensures i <= k <= n && Pipeline(s, i, n, Pipe(a, b))
  {
    hide Ends, Command, Boundary;
    assert PipeBy(s, i, k, n, a, Pipe(a, b));
  }

  lemma PipeSure(s: Line, i: nat, c: Cmd, n: nat)
    requires i <= n <= |s| && Skip(s, n) == n && Boundary(s, n) && Pipeline(s, i, n, c)
    requires forall j, d :: Pipeline(s, i, j, d) && Ends(s, j, ")&;") ==> d == c && j == n
    ensures PipeDone(s, i, Ok(c, n))
  {
    hide Pipeline, Ends, Boundary;
  }

  method ParsePipe(s: Line, i: nat) returns (r: Result)
    requires i <= |s| && Boundary(s, i)
    ensures PipeDone(s, i, r)
    decreases |s| - i, 2
  {
    hide Token, Boundary, Skip, Ends, ExecDone, PipeDone;
    r := ParseExec(s, i);
    if r.Panic? {
      PipePanics(s, i);
      return;
    }
    var a, k := r.cmd, r.next;
    ExecNext(s, i, a, k);
    var bar, k' := Peek(s, k, "|");
    if bar {
      var tok, w, n := GetToken(s, k);
      TokenSymbol(s, k, tok, w, n);
      TokenMoves(s, k, tok, w, n);
      r := ParsePipe(s, n);
      if r.Panic? {
        PipeFails(s, i, a, k);
        return;
      }
      PipeMore(s, i, a, k, r.cmd, r.next);
      r := Ok(Pipe(a, r.cmd), r.next);
    } else {
      PipeOne(s, i, a, k);
    }
  }

  // ---------------------------------------------------------------- lines

  lemma SplitLine(s: Line, i: nat, j: nat, c: Cmd) returns (e: nat, p: Cmd)
    requires Sequence(s, i, j, c)
    ensures LineBy(s, i, e, j, p, c)
  {
    hide LineBy;
    e, p :| LineBy(s, i, e, j, p, c);
  }

  /** What parsepipe read first is what any line begins with. */
  lemma LineFirst(s: Line, i: nat, e: nat, j: nat, p: Cmd, c: Cmd, r: Result)
    requires LineBy(s, i, e, j, p, c) && Ends(s, j, ")") && PipeDone(s, i, r)
    ensures r == Ok(p, Skip(s, e)) && LineRest(s, Skip(s, e), j, p, c)
  {
    hide Pipeline, Sequence;
    var k := Skip(s, e);
    PipelineTrail(s, i, e, k, p);
    SkipIs(s, k, k);
    assert Ends(s, k, ")&;") by { if Blank(s, e, j) { SkipIs(s, e, j); } }
    RestFromSkip(s, e, j, p, c);
  }

  lemma RestFromSkip(s: Line, e: nat, j: nat, p: Cmd, c: Cmd)
    requires LineRest(s, e, j, p, c) && Skip(s, j) == j
    ensures LineRest(s, Skip(s, e), j, p, c)
  {
    hide Sequence;
    SkipTwice(s, e);
    if p == c && Blank(s, e, j) { SkipIs(s, e, j); } else { RestBounds(s, e, j, p, c); }
  }

  lemma RestBounds(s: Line, e: nat, j: nat, p: Cmd, c: Cmd)
    requires LineRest(s, e, j, p, c) && !(p == c && Blank(s, e, j))
    ensures Skip(s, e) <= j
  {
    hide Pipeline;
    var k := Skip(s, e);
    if s[k] == ';' {
      var m, q := SplitLine(s, Skip(s, k + 1), j, c.right);
    }
  }

  lemma LinePanics(s: Line, i: nat)
    requires PipeDone(s, i, Panic)
    ensures LineDone(s, i, Panic)
  {
    hide LineBy, Ends, PipeDone;
    forall j, c | Sequence(s, i, j, c) ensures !Ends(s, j, ")") {
      if Ends(s, j, ")") {
        var e, p := SplitLine(s, i, j, c);
        LineFirst(s, i, e, j, p, c, Panic);
      }
    }
  }

  /** After the pipeline `p`, ended at `e`, the line goes on as from `n` with `q`. */
  ghost predicate GoesOn(s: Line, e: nat, p: Cmd, n: nat, q: Cmd)
  {
    && e <= n <= |s| && Skip(s, n) == n && Boundary(s, n)
    && (forall j, c :: LineRest(s, n, j, q, c) ==> LineRest(s, e, j, p, c))
    && (forall j, c :: LineRest(s, e, j, p, c) && Ends(s, j, ")") ==> LineRest(s, n, j, q, c))
  }

  lemma GoesOnStart(s: Line, e: nat, p: Cmd)
    requires e <= |s| && Skip(s, e) == e && Boundary(s, e)
    ensures GoesOn(s, e, p, e, p)
  {
    hide LineRest, Ends, Boundary;
  }

  /** An ampersand puts what came before in the background. */
  lemma GoesOnBack(s: Line, e: nat, p: Cmd, n: nat, q: Cmd, m: nat)
    requires GoesOn(s, e, p, n, q) && At(s, n) == '&' && m == Skip(s, n + 1) && m <= |s| && Boundary(s, m)
    ensures GoesOn(s, e, p, m, Back(q))
  {
    hide LineRest, Ends, Boundary;
    SkipTwice(s, n + 1);
    forall j, c | LineRest(s, m, j, Back(q), c) ensures LineRest(s, e, j, p, c) { AmpStep(s, n, j, q, c); }
    forall j, c | LineRest(s, e, j, p, c) && Ends(s, j, ")")
      ensures LineRest(s, m, j, Back(q), c)
    {
      AmpOnly(s, n, j, q, c);
    }
  }

  lemma AmpStep(s: Line, n: nat, j: nat, q: Cmd, c: Cmd)
    requires At(s, n) == '&' && Skip(s, n) == n && LineRest(s, Skip(s, n + 1), j, Back(q), c)
    ensures LineRest(s, n, j, q, c)
  {
    hide Sequence;
  }

  lemma AmpOnly(s: Line, n: nat, j: nat, q: Cmd, c: Cmd)
    requires At(s, n) == '&' && Skip(s, n) == n && LineRest(s, n, j, q, c) && Ends(s, j, ")")
    ensures LineRest(s, Skip(s, n + 1), j, Back(q), c)
  {
    hide Sequence;
    if Blank(s, n, j) { SkipIs(s, n, j); }
  }

  /** Nothing, or a closing parenthesis, comes next: the line is done. */
  lemma RestNone(s: Line, n: nat, j: nat, q: Cmd, c: Cmd)
    requires At(s, n) != '&' && At(s, n) != ';' && Skip(s, n) == n && LineRest(s, n, j, q, c) && Skip(s, j) == j
    ensures c == q && j == n
  {
    hide Sequence;
    SkipIs(s, n, j);
  }

  lemma RestList(s: Line, n: nat, j: nat, q: Cmd, c: Cmd)
    requires At(s, n) == ';' && Skip(s, n) == n && LineRest(s, n, j, q, c) && Ends(s, j, ")")
    ensures c.List? && c.left == q && Sequence(s, Skip(s, n + 1), j, c.right)
  {
    hide Sequence;
    if Blank(s, n, j) { SkipIs(s, n, j); }
  }

  /** Any line from `i` continues with `q` from `n`. */
  lemma LineSplit(s: Line, i: nat, j: nat, c: Cmd, p: Cmd, e: nat, n: nat, q: Cmd)
    requires PipeDone(s, i, Ok(p, e)) && GoesOn(s, e, p, n, q) && Sequence(s, i, j, c) && Ends(s, j, ")")
    ensures LineRest(s, n, j, q, c)
  {
    hide LineBy, LineRest, Ends, PipeDone;
    var e', p' := SplitLine(s, i, j, c);
    LineFirst(s, i, e', j, p', c, Ok(p, e));
  }

  lemma LineReads(s: Line, i: nat, j: nat, c: Cmd, p: Cmd, e: nat, n: nat, q: Cmd)
    requires PipeDone(s, i, Ok(p, e)) && GoesOn(s, e, p, n, q) && LineRest(s, n, j, q, c)
    ensures i <= n && Sequence(s, i, j, c)
  {
    hide LineRest, Ends, Pipeline, Boundary;
    assert LineBy(s, i, e, j, p, c);
  }

  lemma LineSure(s: Line, i: nat, c: Cmd, n: nat)
    requires i <= n <= |s| && Skip(s, n) == n && Boundary(s, n) && Sequence(s, i, n, c)
    requires forall j, d :: Sequence(s, i, j, d) && Ends(s, j, ")") ==> d == c && j == n
    ensures LineDone(s, i, Ok(c, n))
  {
    hide Sequence, Ends, Boundary;
  }

  lemma LineNever(s: Line, i: nat)
    requires forall j, c :: Sequence(s, i, j, c) ==> !Ends(s, j, ")")
    ensures LineDone(s, i, Panic)
  {
    hide Sequence, Ends;
  }

  lemma LineOnly(s: Line, i: nat, r: Result, j: nat, c: Cmd)
    requires LineDone(s, i, r) && Sequence(s, i, j, c) && Ends(s, j, ")")
    ensures r == Ok(c, j)
  {
    hide Sequence, Ends;
  }

  lemma LineOne(s: Line, i: nat, p: Cmd, e: nat, n: nat, q: Cmd)
    requires PipeDone(s, i, Ok(p, e)) && GoesOn(s, e, p, n, q) && At(s, n) != '&' && At(s, n) != ';'
    ensures LineDone(s, i, Ok(q, n))
  {
    hide Sequence, Ends, PipeDone, Boundary;
    assert LineRest(s, n, n, q, q);
    hide LineRest;
    LineReads(s, i, n, q, p, e, n, q);
    forall j, c | Sequence(s, i, j, c) && Ends(s, j, ")") ensures c == q && j == n {
      LineSplit(s, i, j, c, p, e, n, q);
      EndsSkip(s, j);
      RestNone(s, n, j, q, c);
    }
    LineSure(s, i, q, n);
  }

  lemma EndsSkip(s: Line, j: nat)
    requires Ends(s, j, ")")
    ensures Skip(s, j) == j
  {
  }

  lemma LineFails(s: Line, i: nat, p: Cmd, e: nat, n: nat, q: Cmd)
    requires PipeDone(s, i, Ok(p, e)) && GoesOn(s, e, p, n, q) && At(s, n) == ';' && LineDone(s, Skip(s, n + 1), Panic)
    ensures LineDone(s, i, Panic)
  {
    hide Sequence, Ends, PipeDone, LineRest, LineDone, Boundary;
    forall j, c | Sequence(s, i, j, c) ensures !Ends(s, j, ")") {
      if Ends(s, j, ")") {
        LineSplit(s, i, j, c, p, e, n, q);
        RestList(s, n, j, q, c);
        LineOnly(s, Skip(s, n + 1), Panic, j, c.right);
      }
    }
    LineNever(s, i);
  }

  lemma LineMore(s: Line, i: nat, p: Cmd, e: nat, n: nat, q: Cmd, b: Cmd, m: nat)
    requires PipeDone(s, i, Ok(p, e)) && GoesOn(s, e, p, n, q) && At(s, n) == ';'
    requires LineDone(s, Skip(s, n + 1), Ok(b, m))
    ensures LineDone(s, i, Ok(List(q, b), m))
  {
    hide Sequence, Ends, PipeDone, LineRest, LineDone, Boundary;
    LineNext(s, Skip(s, n + 1), b, m);
    ListRest(s, n, q, b, m);
    LineReads(s, i, m, List(q, b), p, e, n, q);
    forall j, c | Sequence(s, i, j, c) && Ends(s, j, ")") ensures c == List(q, b) && j == m {
      LineSplit(s, i, j, c, p, e, n, q);
      RestList(s, n, j, q, c);
      LineOnly(s, Skip(s, n + 1), Ok(b, m), j, c.right);
    }
    LineSure(s, i, List(q, b), m);
  }

  lemma ListRest(s: Line, n: nat, q: Cmd, b: Cmd, m: nat)
    requires At(s, n) == ';' && Skip(s, n) == n && LineDone(s, Skip(s, n + 1), Ok(b, m))
    ensures LineRest(s, n, m, q, List(q, b))
  {
    hide Sequence, Ends, Boundary;
  }

  lemma GoesOnBounds(s: Line, e: nat, p: Cmd, n: nat, q: Cmd)
    requires GoesOn(s, e, p, n, q)
    ensures e <= n <= |s| && Skip(s, n) == n && Boundary(s, n)
  {
    hide LineRest, Ends, Boundary;
  }

  method ParseLine(s: Line, i: nat) returns (r: Result)
    requires i <= |s| && Boundary(s, i)
    ensures LineDone(s, i, r)
    decreases |s| - i, 3
  {
    hide Token, Boundary, Skip, Ends, PipeDone, LineDone, GoesOn;
    r := ParsePipe(s, i);
    if r.Panic? {
      LinePanics(s, i);
      return;
    }
    var p, e := r.cmd, r.next;
    PipeNext(s, i, p, e);
    GoesOnStart(s, e, p);
    var cmd := p;
    var back, n := Peek(s, e, "&");
    while back
      invariant GoesOn(s, e, p, n, cmd) && e <= n <= |s| && Skip(s, n) == n && Boundary(s, n)
      invariant back <==> At(s, n) == '&'
      decreases |s| - n
    {
      var tok, w, m := GetToken(s, n);
      TokenSymbol(s, n, tok, w, m);
      TokenMoves(s, n, tok, w, m);
      GoesOnBack(s, e, p, n, cmd, m);
      GoesOnBounds(s, e, p, m, Back(cmd));
      cmd := Back(cmd);
      back, n := Peek(s, m, "&");
    }
    var list, n' := Peek(s, n, ";");
    if list {
      var tok, w, m := GetToken(s, n);
      TokenSymbol(s, n, tok, w, m);
      TokenMoves(s, n, tok, w, m);
      r := ParseLine(s, m);
      if r.Panic? {
        LineFails(s, i, p, e, n, cmd);
        return;
      }
      LineMore(s, i, p, e, n, cmd, r.cmd, r.next);
      r := Ok(List(cmd, r.cmd), r.next);
    } else {
      LineOne(s, i, p, e, n, cmd);
      r := Ok(cmd, n);
    }
  }

  // ---------------------------------------------------------------- cutting out the words

  ghost function CutEnds(ws: set<Span>): set<nat> { set w | w in ws :: w.eq }

  lemma CutEndsJoin(a: set<Span>, b: set<Span>)
    ensures CutEnds(a + b) == CutEnds(a) + CutEnds(b)
  {
    forall k | k in CutEnds(a) + CutEnds(b) ensures k in CutEnds(a + b) {
      var w :| w in a + b && w.eq == k;
    }
  }

  /** `after` is `before` with a NUL at each of the ends. */
  ghost predicate CutAt(before: seq<char>, after: seq<char>, ends: set<nat>)
  {
    |after| == |before| && forall k :: 0 <= k < |before| ==> after[k] == if k in ends then '\0' else before[k]
  }

  lemma CutJoin(b0: seq<char>, b1: seq<char>, b2: seq<char>, x: set<nat>, y: set<nat>)
    requires CutAt(b0, b1, x) && CutAt(b1, b2, y)
    ensures CutAt(b0, b2, x + y)
  {
  }

  /** nulterminate. */
  method NulTerminate(buf: array<char>, c: Cmd)
    requires forall w :: w in Spans(c) ==> w.eq < buf.Length
    modifies buf
    ensures CutAt(old(buf[..]), buf[..], CutEnds(Spans(c)))
    decreases c
  {
    hide CutEnds, CutAt;
    ghost var b0 := buf[..];
    match c {
      case Exec(argv) =>
        CutWords(buf, argv);
        ExecWords(argv);
      case Redir(d, f, _) =>
        NulTerminate(buf, d);
        ghost var b1 := buf[..];
        buf[f.eq] := '\0';
        CutOne(b1, buf[..], f);
        CutJoin(b0, b1, buf[..], CutEnds(Spans(d)), CutEnds({f}));
        CutEndsJoin(Spans(d), {f});
      case Pipe(l, r) =>
        NulTerminate(buf, l);
        ghost var b1 := buf[..];
        NulTerminate(buf, r);
        CutJoin(b0, b1, buf[..], CutEnds(Spans(l)), CutEnds(Spans(r)));
        CutEndsJoin(Spans(l), Spans(r));
      case List(l, r) =>
        NulTerminate(buf, l);
        ghost var b1 := buf[..];
        NulTerminate(buf, r);
        CutJoin(b0, b1, buf[..], CutEnds(Spans(l)), CutEnds(Spans(r)));
        CutEndsJoin(Spans(l), Spans(r));
      case Back(d) =>
        NulTerminate(buf, d);
    }
  }

  lemma CutOne(before: seq<char>, after: seq<char>, w: Span)
    requires w.eq < |before| && after == before[w.eq := '\0']
    ensures CutAt(before, after, CutEnds({w}))
  {
    assert CutEnds({w}) == {w.eq};
  }

  method CutWords(buf: array<char>, argv: seq<Span>)
    requires forall w :: w in argv ==> w.eq < buf.Length
    modifies buf
    ensures CutAt(old(buf[..]), buf[..], CutEnds(Words(argv)))
  {
    ghost var b0 := buf[..];
    var i := 0;
    assert argv[..0] == [] && Words([]) == {} && CutEnds({}) == {};
    while i < |argv|
      invariant 0 <= i <= |argv| && CutAt(b0, buf[..], CutEnds(Words(argv[..i])))
    {
      ghost var b1 := buf[..];
      assert argv[i] in argv;
      buf[argv[i].eq] := '\0';
      CutOne(b1, buf[..], argv[i]);
      CutJoin(b0, b1, buf[..], CutEnds(Words(argv[..i])), CutEnds({argv[i]}));
      CutEndsJoin(Words(argv[..i]), {argv[i]});
      WordsAdd(argv[..i], argv[i]);
      assert argv[..i] + [argv[i]] == argv[..i + 1];
      i := i + 1;
    }
    assert argv[..|argv|] == argv;
  }

  /** The C string at `q` is `t`. */
  ghost predicate CString(b: seq<char>, q: nat, t: string)
  {
    && q + |t| < |b| && b[q..q + |t|] == t && b[q + |t|] == '\0'
    && forall k :: 0 <= k < |t| ==> t[k] != '\0'
  }

  /** The end of one word is never inside another. */
  lemma EndOutside(s: Line, w: Span, v: Span)
    requires WholeWord(s, w) && WholeWord(s, v)
    ensures !(w.q <= v.eq < w.eq)
  {
  }

  /** The buffer holds the C string `s`. */
  ghost predicate Holds(b: seq<char>, s: Line) { |s| < |b| && b[..|s|] == s && b[|s|] == '\0' }

  /** After the cut each word is a C string of its own in the shared buffer. */
  lemma WordsCut(s: Line, b0: seq<char>, b: seq<char>, ws: set<Span>, w: Span)
    requires Holds(b0, s) && CutAt(b0, b, CutEnds(ws)) && w in ws && forall v :: v in ws ==> WholeWord(s, v)
    ensures w.q <= w.eq <= |s| && CString(b, w.q, s[w.q..w.eq])
  {
    assert w.eq in CutEnds(ws);
    forall k | w.q <= k < w.eq ensures b[k] == s[k] {
      assert b0[..|s|][k] == b0[k];
      if k in CutEnds(ws) {
        var v :| v in ws && v.eq == k;
        EndOutside(s, w, v);
      }
    }
  }

  // ---------------------------------------------------------------- whole lines

  /** The parser accepts exactly the lines of the grammar, and the command it returns is their one reading. */
  method ParseAll(s: Line) returns (r: Result)
    ensures forall c :: Sequence(s, 0, |s|, c) <==> r.Ok? && c == r.cmd
  {
    hide Sequence, LineDone, Skip;
    assert Boundary(s, 0);
    r := ParseLine(s, 0);
    if r.Ok? {
      LineNext(s, 0, r.cmd, r.next);
      var _, n := Peek(s, r.next, "");
      AllRead(s, r);
      if n != |s| {
        r := Panic;
      }
    } else {
      AllRead(s, r);
    }
  }

  lemma AllRead(s: Line, r: Result)
    requires LineDone(s, 0, r)
    ensures forall c :: Sequence(s, 0, |s|, c) <==> r.Ok? && r.next == |s| && c == r.cmd
  {
    hide Sequence;
    assert Ends(s, |s|, ")");
  }

  method StringLength(buf: array<char>) returns (n: nat)
    requires '\0' in buf[..]
    ensures n < buf.Length && buf[n] == '\0' && forall k :: 0 <= k < n ==> buf[k] != '\0'
  {
    n := 0;
    while buf[n] != '\0'
      invariant n < buf.Length && forall k :: 0 <= k < n ==> buf[k] != '\0'
      decreases buf.Length - n
    {
      assert n + 1 < buf.Length by {
        var k :| 0 <= k < buf.Length && buf[..][k] == '\0';
      }
      n := n + 1;
    }
  }

  /** parsecmd: the reading of the line in the buffer, with each word cut out as a C string of its own. */
  method ParseCmd(buf: array<char>) returns (r: Result, s: Line)
    requires '\0' in buf[..]
    modifies buf
    ensures Holds(old(buf[..]), s)
    ensures forall c :: Sequence(s, 0, |s|, c) <==> r.Ok? && c == r.cmd
    ensures r.Ok? ==> CutAt(old(buf[..]), buf[..], CutEnds(Spans(r.cmd)))
    ensures r.Ok? ==> forall w: Span :: WholeWord(s, w) ==> CString(buf[..], w.q, s[w.q..w.eq])
    ensures r.Panic? ==> buf[..] == old(buf[..])
  {
    hide Spans, Ops, CString, CutAt, Sequence, CutEnds;
    var n := StringLength(buf);
    s := buf[..n];
    r := ParseAll(s);
    if r.Ok? {
      ghost var b0 := buf[..];
      assert Holds(b0, s);
      LineHolds(s, r.cmd);
      NulTerminate(buf, r.cmd);
      ghost var b := buf[..];
      forall w: Span | WholeWord(s, w) ensures CString(b, w.q, s[w.q..w.eq]) {
        WordsCut(s, b0, b, Spans(r.cmd), w);
      }
    }
  }
}
