/**
 * What a regular-expression matcher does with the patterns that requests lead to: plain
 * pieces of text with ".*" between them, searched for anywhere in a string.
 */
module Patterns {
  import opened Wrappers

  /** q has no character that means something else in a regular expression. */
  predicate Literal(q: string) {
    forall c :: c in q ==> c !in "\\.+*?()|[]{}^$"
  }

  predicate AllLiteral(pieces: seq<string>) {
    forall i :: 0 <= i < |pieces| ==> Literal(pieces[i])
  }

  /** The pieces with ".*" between them. */
  function JoinStar(pieces: seq<string>): string
    requires pieces != []
  {
    if |pieces| == 1 then pieces[0] else pieces[0] + ".*" + JoinStar(pieces[1..])
  }

  predicate At(q: string, s: string, i: nat) {
    i + |q| <= |s| && s[i..i + |q|] == q
  }

  ghost predicate Occurs(q: string, s: string) {
    exists i: nat :: At(q, s, i)
  }

  /** From position i on, s has the pieces in order; ".*" skips anything but newlines. */
  ghost predicate Follows(pieces: seq<string>, s: string, i: nat) {
    pieces == [] ||
    exists j: nat :: i <= j && At(pieces[0], s, j) && NoNewline(s, i, j) && Follows(pieces[1..], s, j + |pieces[0]|)
  }

  predicate NoNewline(s: string, i: nat, j: nat) {
    forall k :: i <= k < j && k < |s| ==> s[k] != '\n'
  }

  ghost predicate FoundAt(pieces: seq<string>, s: string, i: nat)
    requires pieces != []
  {
    At(pieces[0], s, i) && Follows(pieces[1..], s, i + |pieces[0]|)
  }

  ghost predicate Found(pieces: seq<string>, s: string)
    requires pieces != []
  {
    exists i: nat :: FoundAt(pieces, s, i)
  }

  /**
   * Go's regexp.MatchString on such patterns: a match anywhere in the string is enough,
   * unless the pattern is anchored at its start. Nothing is said of other patterns.
   */
  ghost predicate LikeRegexp(matches: (string, string) -> bool) {
    forall pieces: seq<string>, s: string :: pieces != [] && AllLiteral(pieces) ==>
      && (matches(JoinStar(pieces), s) <==> Found(pieces, s))
      && (matches("^" + JoinStar(pieces), s) <==> FoundAt(pieces, s, 0))
  }

  // ----- There is such a matcher -----------------------------------------------------------

  /** The pattern cut at every ".*". */
  function Pieces(p: string): (r: seq<string>)
    ensures r != []
  {
    if p == "" then [""]
    else if |p| > 1 && p[0] == '.' && p[1] == '*' then [""] + Pieces(p[2..])
    else var rest := Pieces(p[1..]); [[p[0]] + rest[0]] + rest[1..]
  }

  ghost predicate Search(p: string, s: string) {
    if p != "" && p[0] == '^' then FoundAt(Pieces(p[1..]), s, 0) else Found(Pieces(p), s)
  }

  lemma {:induction false} PiecesOfLiteral(q: string, rest: string)
    requires Literal(q) && (rest == "" || rest[0] == '.')
    ensures Pieces(q + rest) == [q + Pieces(rest)[0]] + Pieces(rest)[1..]
    decreases |q|
  {
    if q == "" {
      assert q + rest == rest && q + Pieces(rest)[0] == Pieces(rest)[0];
      assert Pieces(rest) == [Pieces(rest)[0]] + Pieces(rest)[1..];
    } else {
      assert q[0] in q && forall c :: c in q[1..] ==> c in q;
      assert (q + rest)[1..] == q[1..] + rest;
      PiecesOfLiteral(q[1..], rest);
      assert [q[0]] + (q[1..] + Pieces(rest)[0]) == q + Pieces(rest)[0];
    }
  }

  lemma {:induction false} PiecesOfJoin(pieces: seq<string>)
    requires pieces != [] && AllLiteral(pieces)
    ensures Pieces(JoinStar(pieces)) == pieces
    decreases |pieces|
  {
    var q := pieces[0];
    if |pieces| == 1 {
      PiecesOfLiteral(q, "");
      assert q + "" == q;
    } else {
      var rest := ".*" + JoinStar(pieces[1..]);
      PiecesOfJoin(pieces[1..]);
      assert rest[2..] == JoinStar(pieces[1..]);
      PiecesOfLiteral(q, rest);
      assert q + ".*" + JoinStar(pieces[1..]) == q + rest;
      assert Pieces(rest) == [""] + pieces[1..] && q + "" == q;
    }
  }

  lemma NotAnchored(pieces: seq<string>)
    requires pieces != [] && AllLiteral(pieces)
    ensures JoinStar(pieces) == "" || JoinStar(pieces)[0] != '^'
  {
    var q := pieces[0];
    if q != "" {
      assert q[0] in q;
    }
  }

  lemma SearchLikeRegexp(matches: (string, string) -> bool)
    requires forall p, s :: matches(p, s) <==> Search(p, s)
    ensures LikeRegexp(matches)
  {
    hide Found, FoundAt, JoinStar, Pieces;
    forall pieces: seq<string>, s: string | pieces != [] && AllLiteral(pieces)
      ensures matches(JoinStar(pieces), s) <==> Found(pieces, s)
      ensures matches("^" + JoinStar(pieces), s) <==> FoundAt(pieces, s, 0)
    {
      PiecesOfJoin(pieces);
      NotAnchored(pieces);
      assert ("^" + JoinStar(pieces))[1..] == JoinStar(pieces);
    }
  }

  // ----- The patterns of requests -------------------------------------------------------------

  lemma FollowsAtOnce(pieces: seq<string>, s: string, i: nat)
    requires pieces != [] && At(pieces[0], s, i) && Follows(pieces[1..], s, i + |pieces[0]|)
    ensures Follows(pieces, s, i)
  {
    assert NoNewline(s, i, i);
  }

  lemma FoundThenAny(q: string, s: string)
    ensures Found([q, ""], s) <==> Occurs(q, s)
  {
    assert [q, ""][1..] == [""] && [""][1..] == [];
    forall i: nat | At(q, s, i)
      ensures FoundAt([q, ""], s, i)
    {
      assert At("", s, i + |q|);
      FollowsAtOnce([""], s, i + |q|);
    }
    if Found([q, ""], s) {
      var i: nat :| FoundAt([q, ""], s, i);
      assert At(q, s, i);
    }
  }

  lemma AnyThenFound(q: string, s: string)
    ensures Found(["", q], s) <==> Occurs(q, s)
  {
    assert ["", q][1..] == [q] && [q][1..] == [];
    forall i: nat | At(q, s, i)
      ensures FoundAt(["", q], s, i)
    {
      assert At("", s, i);
      FollowsAtOnce([q], s, i);
    }
    if Found(["", q], s) {
      var i: nat :| FoundAt(["", q], s, i);
      var j: nat :| i <= j && At(q, s, j);
    }
  }

  lemma AnyThenFoundThenAny(q: string, s: string)
    ensures Found(["", q, ""], s) <==> Occurs(q, s)
  {
    assert ["", q, ""][1..] == [q, ""] && [q, ""][1..] == [""] && [""][1..] == [];
    forall i: nat | At(q, s, i)
      ensures FoundAt(["", q, ""], s, i)
    {
      assert At("", s, i) && At("", s, i + |q|);
      FollowsAtOnce([""], s, i + |q|);
      FollowsAtOnce([q, ""], s, i);
    }
    if Found(["", q, ""], s) {
      var i: nat :| FoundAt(["", q, ""], s, i);
      var j: nat :| i <= j && At(q, s, j);
    }
  }

  lemma FoundAlone(q: string, s: string)
    ensures (Found([q], s) <==> Occurs(q, s)) && (FoundAt([q], s, 0) <==> At(q, s, 0))
  {
    assert [q][1..] == [];
    forall i: nat
      ensures FoundAt([q], s, i) <==> At(q, s, i)
    {
    }
  }

  /** The four shapes of a request's pattern, for literal parts. */
  lemma RequestShapes(matches: (string, string) -> bool, q: string, s: string)
    requires LikeRegexp(matches) && Literal(q)
    ensures matches(q, s) <==> Occurs(q, s)
    ensures matches(q + ".*", s) <==> Occurs(q, s)
    ensures matches(".*" + q, s) <==> Occurs(q, s)
    ensures matches(".*" + q + ".*", s) <==> Occurs(q, s)
    ensures matches("^" + q, s) <==> At(q, s, 0)
  {
    hide Found, Occurs, At, FoundAt;
    FoundAlone(q, s);
    FoundThenAny(q, s);
    AnyThenFound(q, s);
    AnyThenFoundThenAny(q, s);
    assert [q, ""][1..] == [""] && ["", q][1..] == [q] && ["", q, ""][1..] == [q, ""];
    assert JoinStar([q]) == q;
    assert JoinStar([""]) == "" && JoinStar([q, ""]) == q + ".*" + "" == q + ".*";
    assert JoinStar(["", q]) == "" + ".*" + q == ".*" + q;
    assert JoinStar(["", q, ""]) == "" + ".*" + JoinStar([q, ""]) == ".*" + q + ".*";
    assert AllLiteral([q]) && AllLiteral([q, ""]) && AllLiteral(["", q]) && AllLiteral(["", q, ""]);
  }
}
