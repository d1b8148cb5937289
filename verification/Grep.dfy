/** The regular-expression matcher of grep (user/grep.c), after chapter 9 of The Practice of Programming. A string
    stands for the characters before the terminating NUL, and an index for a pointer into it. */
module Grep {

  // ---------------------------------------------------------------- what an expression means

  /** A character, a starred character, or the end of the text. */
  datatype Token = One(c: char) | Star(c: char) | End

  /** How the matcher divides an expression: a star binds to the character before it, even to '$'; '$' means the
      end only as the last character. */
  function Tokens(re: string): seq<Token>
  {
    if re == [] then []
    else if |re| >= 2 && re[1] == '*' then [Star(re[0])] + Tokens(re[2..])
    else if re == "$" then [End]
    else [One(re[0])] + Tokens(re[1..])
  }

  predicate Fits(c: char, x: char) { c == '.' || c == x }

  /** Token `t` matches text[p..q]. */
  ghost predicate Segment(t: Token, text: string, p: nat, q: nat)
  {
    && p <= q <= |text|
    && match t
       case One(c) => q == p + 1 && Fits(c, text[p])
       case Star(c) => forall x :: p <= x < q ==> Fits(c, text[x])
       case End => p == q == |text|
  }

  /** The cut points `ps` divide a stretch of the text, from `i` on, among the tokens. */
  ghost predicate Cuts(ts: seq<Token>, text: string, i: nat, ps: seq<nat>)
  {
    && |ps| == |ts| + 1 && ps[0] == i && i <= |text|
    && forall k :: 0 <= k < |ts| ==> Segment(ts[k], text, ps[k], ps[k + 1])
  }

  /** The tokens match some stretch of the text that begins at `i`. */
  ghost predicate MatchesAt(ts: seq<Token>, text: string, i: nat) { exists ps :: Cuts(ts, text, i, ps) }

  /** The meaning of grep's match. */
  ghost predicate Matches(re: string, text: string)
  {
    if re != [] && re[0] == '^' then MatchesAt(Tokens(re[1..]), text, 0)
    else exists i: nat :: i <= |text| && MatchesAt(Tokens(re), text, i)
  }

  lemma MatchesNothing(text: string, i: nat)
    requires i <= |text|
    ensures MatchesAt([], text, i)
  {
    assert Cuts([], text, i, [i]);
  }

  /** The first token takes text[i..q], and the others match from `q` on. */
  ghost predicate First(ts: seq<Token>, text: string, i: nat, q: nat)
    requires ts != []
  {
    Segment(ts[0], text, i, q) && MatchesAt(ts[1..], text, q)
  }

  lemma MatchesStep(ts: seq<Token>, text: string, i: nat)
    requires ts != []
    ensures MatchesAt(ts, text, i) <==> exists q: nat :: First(ts, text, i, q)
  {
    if ps :| Cuts(ts, text, i, ps) {
      assert Segment(ts[0], text, ps[0], ps[1]);
      forall k | 0 <= k < |ts[1..]| ensures Segment(ts[1..][k], text, ps[1..][k], ps[1..][k + 1]) {
        assert Segment(ts[k + 1], text, ps[k + 1], ps[k + 2]);
      }
      assert Cuts(ts[1..], text, ps[1], ps[1..]);
      assert First(ts, text, i, ps[1]);
    }
    if q: nat :| First(ts, text, i, q) {
      var ps :| Cuts(ts[1..], text, q, ps);
      var all := [i] + ps;
      forall k | 0 <= k < |ts| ensures Segment(ts[k], text, all[k], all[k + 1]) {
        if k > 0 { assert Segment(ts[1..][k - 1], text, ps[k - 1], ps[k]); }
      }
      assert Cuts(ts, text, i, all);
    }
  }

  // ---------------------------------------------------------------- the matcher

  /** match: some position of the text, or only its start after '^', begins a match. */
  method Match(re: string, text: string) returns (r: bool)
    ensures r <==> Matches(re, text)
  {
    hide MatchesAt;
    if re != [] && re[0] == '^' {
      r := MatchHere(re[1..], text, 0);
      return;
    }
    var i := 0;
    while true
      invariant 0 <= i <= |text|
      invariant forall j: nat :: j < i ==> !MatchesAt(Tokens(re), text, j)
      decreases |text| - i
    {
      var m := MatchHere(re, text, i);
      if m {
        return true;
      }
      if i == |text| {
        break;
      }
      i := i + 1;
    }
    r := false;
  }

  /** matchhere: the expression matches at the beginning of the text. */
  method MatchHere(re: string, text: string, i: nat) returns (r: bool)
    requires i <= |text|
    ensures r <==> MatchesAt(Tokens(re), text, i)
    decreases |re|, |text| - i, 1
  {
    hide MatchesAt;
    if re == [] {
      MatchesNothing(text, i);
      return true;
    }
    MatchesStep(Tokens(re), text, i);
    if |re| >= 2 && re[1] == '*' {
      r := MatchStar(re[0], re[2..], text, i);
      assert Tokens(re)[1..] == Tokens(re[2..]);
      StarFirst(re[0], re, text, i);
      return;
    }
    if re == "$" {
      MatchesNothing(text, i);
      assert Tokens(re)[1..] == [];
      assert i == |text| ==> First(Tokens(re), text, i, i);
      return i == |text|;
    }
    assert Tokens(re)[1..] == Tokens(re[1..]);
    if i < |text| && Fits(re[0], text[i]) {
      r := MatchHere(re[1..], text, i + 1);
      assert r ==> First(Tokens(re), text, i, i + 1);
      return;
    }
    r := false;
  }

  /** The positions that zero or more `c` from `i` on can reach. */
  ghost predicate Reaches(c: char, text: string, i: nat, q: nat) { Segment(Star(c), text, i, q) }

  lemma StarFirst(c: char, re: string, text: string, i: nat)
    requires |re| >= 2 && re[1] == '*' && c == re[0] && Tokens(re)[1..] == Tokens(re[2..])
    ensures (exists q: nat :: First(Tokens(re), text, i, q))
       <==> (exists q: nat :: Reaches(c, text, i, q) && MatchesAt(Tokens(re[2..]), text, q))
  {
    hide MatchesAt;
    forall q: nat
      ensures First(Tokens(re), text, i, q) <==> Reaches(c, text, i, q) && MatchesAt(Tokens(re[2..]), text, q) { }
  }

  /** matchstar: zero or more `c`, and then the rest of the expression. */
  method MatchStar(c: char, re: string, text: string, i: nat) returns (r: bool)
    requires i <= |text|
    ensures r <==> exists q: nat :: Reaches(c, text, i, q) && MatchesAt(Tokens(re), text, q)
    decreases |re| + 1, |text| - i, 0
  {
    hide MatchesAt;
    var j := i;
    while true
      invariant i <= j <= |text| && Reaches(c, text, i, j)
      invariant forall q: nat :: i <= q < j ==> !MatchesAt(Tokens(re), text, q)
      decreases |text| - j
    {
      var m := MatchHere(re, text, j);
      if m {
        return true;
      }
      if j == |text| || !Fits(c, text[j]) {
        break;
      }
      j := j + 1;
    }
    assert forall q: nat :: Reaches(c, text, i, q) ==> q <= j;
    r := false;
  }
}
