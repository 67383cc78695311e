/**
  The blacklist pattern matching of client/client.js: a pattern is turned into a
  regular expression by `pattern.replace('*', '.*')` (only the FIRST star is
  rewritten) and tested, unanchored, against the address.

  The model interprets the regular-expression fragment such patterns produce:
  literal characters, `.` (any character but a line terminator) and `*` (repeat the
  preceding item). A pattern that uses any other regular-expression syntax is judged
  by an oracle the caller supplies.
*/
module Glob {

  /** `p.replace('*', '.*')` with a string first argument: only the first star changes. */
  function ReplaceFirstStar(p: string): string {
    if p == [] then []
    else if p[0] == '*' then ".*" + p[1..]
    else [p[0]] + ReplaceFirstStar(p[1..])
  }

  lemma {:induction false} ReplaceFirstStarShape(p: string, k: nat)
    requires k < |p| && p[k] == '*' && '*' !in p[..k]
    ensures ReplaceFirstStar(p) == p[..k] + ".*" + p[k + 1..]
  {
    if k > 0 {
      assert p[0] != '*' by { assert p[0] == p[..k][0]; }
      assert '*' !in p[1..][..k - 1] by { assert p[1..][..k - 1] == p[..k][1..]; }
      ReplaceFirstStarShape(p[1..], k - 1);
      assert p[1..][..k - 1] == p[1..k];
      assert [p[0]] + p[1..k] == p[..k];
    }
  }

  lemma {:induction false} ReplaceFirstStarNoStar(p: string)
    requires '*' !in p
    ensures ReplaceFirstStar(p) == p
  {
    if p != [] {
      assert p[0] in p;
      assert forall c :: c in p[1..] ==> c in p;
      ReplaceFirstStarNoStar(p[1..]);
      assert [p[0]] + p[1..] == p;
    }
  }

  /** Characters that make a regular expression leave the modelled fragment. */
  const Meta: set<char> := {'\\', '^', '$', '+', '?', '(', ')', '[', ']', '{', '}', '|'}

  predicate LineTerminator(c: char) {
    c == '\n' || c == '\r' || c == '\U{2028}' || c == '\U{2029}'
  }

  datatype Unit = Char(c: char) | Dot
  datatype Atom = One(u: Unit) | Many(u: Unit)

  /** A compiled pattern: a regex of the fragment, a SyntaxError ("nothing to repeat"),
      or a regex outside the fragment. */
  datatype Compiled = Regex(atoms: seq<Atom>) | SyntaxError | Unmodelled

  /** `new RegExp(r)` for the fragment, reading `r` left to right; `acc` holds the items read so far. */
  function Compile(r: string, acc: seq<Atom>): Compiled
    decreases |r|
  {
    if r == [] then Regex(acc)
    else if r[0] in Meta then Unmodelled
    else if r[0] == '*' then
      if |acc| > 0 && acc[|acc| - 1].One? then
        Compile(r[1..], acc[..|acc| - 1] + [Many(acc[|acc| - 1].u)])
      else SyntaxError
    else Compile(r[1..], acc + [One(if r[0] == '.' then Dot else Char(r[0]))])
  }

  predicate UnitMatches(u: Unit, c: char) {
    match u
    case Char(d) => c == d
    case Dot => !LineTerminator(c)
  }

  /** The atoms match the whole of `t`. */
  predicate Matches(atoms: seq<Atom>, t: string)
    decreases |t|, |atoms|
  {
    if atoms == [] then t == []
    else match atoms[0]
      case One(u) => |t| > 0 && UnitMatches(u, t[0]) && Matches(atoms[1..], t[1..])
      case Many(u) =>
        Matches(atoms[1..], t) || (|t| > 0 && UnitMatches(u, t[0]) && Matches(atoms, t[1..]))
  }

  /** `regex.test(s)` for an unanchored regex: some substring of `s` matches. */
  predicate Test(atoms: seq<Atom>, s: string) {
    exists i, j | 0 <= i <= j <= |s| :: Matches(atoms, s[i..j])
  }

  datatype Verdict = Hit | Miss | Invalid

  /** What the try block of the blacklist loop makes of pattern `p` against `address`:
      the regex matches (Hit), does not (Miss), or its construction throws (Invalid). */
  function Judge(oracle: (string, string) -> Verdict, p: string, address: string): Verdict {
    match Compile(ReplaceFirstStar(p), [])
    case Regex(atoms) => if Test(atoms, address) then Hit else Miss
    case SyntaxError => Invalid
    case Unmodelled => oracle(p, address)
  }

  /** Plain text: no star, no dot, no other regular-expression syntax. */
  predicate Literal(p: string) {
    forall i | 0 <= i < |p| :: p[i] != '*' && p[i] != '.' && p[i] !in Meta
  }

  function Lits(p: string): (r: seq<Atom>)
    ensures |r| == |p|
  {
    seq(|p|, i requires 0 <= i < |p| => One(Char(p[i])))
  }

  lemma {:induction false} CompileLiteral(p: string, acc: seq<Atom>)
    requires Literal(p)
    ensures Compile(p, acc) == Regex(acc + Lits(p))
  {
    if p == [] {
      assert acc + Lits(p) == acc;
    } else {
      CompileLiteral(p[1..], acc + [One(Char(p[0]))]);
      assert acc + [One(Char(p[0]))] + Lits(p[1..]) == acc + Lits(p);
    }
  }

  lemma {:induction false} CompileLiteralThen(p: string, rest: string, acc: seq<Atom>)
    requires Literal(p)
    ensures Compile(p + rest, acc) == Compile(rest, acc + Lits(p))
  {
    if p == [] {
      assert p + rest == rest;
      assert acc + Lits(p) == acc;
    } else {
      assert (p + rest)[1..] == p[1..] + rest;
      CompileLiteralThen(p[1..], rest, acc + [One(Char(p[0]))]);
      assert acc + [One(Char(p[0]))] + Lits(p[1..]) == acc + Lits(p);
    }
  }

  /** A literal pattern matches exactly its own text. */
  lemma {:induction false} MatchesLits(p: string, t: string)
    ensures Matches(Lits(p), t) <==> t == p
  {
    if p != [] {
      assert Lits(p)[1..] == Lits(p[1..]);
      if |t| > 0 {
        MatchesLits(p[1..], t[1..]);
        if t[0] == p[0] && t[1..] == p[1..] {
          assert t == [t[0]] + t[1..] && p == [p[0]] + p[1..];
        }
      }
    }
  }

  /** Followed by `.*`, a literal pattern matches exactly the texts that begin with it
      (and have no line terminator after it). */
  lemma {:induction false} MatchesLitsAnyTail(p: string, t: string)
    ensures Matches(Lits(p) + [Many(Dot)], t) ==> |p| <= |t| && t[..|p|] == p
    ensures t == p ==> Matches(Lits(p) + [Many(Dot)], t)
  {
    if p == [] {
      assert Lits(p) + [Many(Dot)] == [Many(Dot)];
      assert [Many(Dot)][1..] == [];
    } else {
      assert (Lits(p) + [Many(Dot)])[1..] == Lits(p[1..]) + [Many(Dot)];
      if |t| > 0 {
        MatchesLitsAnyTail(p[1..], t[1..]);
        if Matches(Lits(p) + [Many(Dot)], t) {
          assert t[..|p|] == [t[0]] + t[1..][..|p| - 1];
        }
        if t == p {
          assert t[1..] == p[1..];
        }
      }
    }
  }

  /** `p` occurs in `s` at position `i`. */
  predicate OccursAt(s: string, p: string, i: int) {
    0 <= i && i + |p| <= |s| && s[i..i + |p|] == p
  }

  predicate Contains(s: string, p: string) {
    exists i | 0 <= i <= |s| :: OccursAt(s, p, i)
  }

  /** A star-free pattern blacklists every address that contains it anywhere: the
      regex is not anchored. */
  lemma LiteralPatternHitsSubstrings(oracle: (string, string) -> Verdict, p: string, address: string)
    requires Literal(p)
    ensures Judge(oracle, p, address) == Hit <==> Contains(address, p)
  {
    assert '*' !in p by {
      forall k | 0 <= k < |p| ensures p[k] != '*' { }
    }
    ReplaceFirstStarNoStar(p);
    CompileLiteral(p, []);
    assert [] + Lits(p) == Lits(p);
    if Test(Lits(p), address) {
      var i, j :| 0 <= i <= j <= |address| && Matches(Lits(p), address[i..j]);
      MatchesLits(p, address[i..j]);
      assert OccursAt(address, p, i);
    }
    if Contains(address, p) {
      var i :| 0 <= i <= |address| && OccursAt(address, p, i);
      MatchesLits(p, address[i..i + |p|]);
    }
  }

  lemma CompileTrailingStar(p: string)
    requires Literal(p)
    ensures Compile(ReplaceFirstStar(p + "*"), []) == Regex(Lits(p) + [Many(Dot)])
  {
    assert '*' !in (p + "*")[..|p|] by {
      assert (p + "*")[..|p|] == p;
      forall k | 0 <= k < |p| ensures p[k] != '*' { }
    }
    ReplaceFirstStarShape(p + "*", |p|);
    assert (p + "*")[..|p|] == p && (p + "*")[|p| + 1..] == [];
    assert ReplaceFirstStar(p + "*") == p + ".*";
    CompileLiteralThen(p, ".*", []);
    var acc := Lits(p) + [One(Dot)];
    assert ".*"[1..] == "*" && "*"[1..] == [];
    assert acc[..|acc| - 1] == Lits(p);
  }

  /** A pattern written as text followed by one star, such as "/avatar/parameters/Secret*",
      blacklists every address that contains that text anywhere. */
  lemma TrailingStarHitsSubstrings(oracle: (string, string) -> Verdict, p: string, address: string)
    requires Literal(p)
    ensures Judge(oracle, p + "*", address) == Hit <==> Contains(address, p)
  {
    CompileTrailingStar(p);
    var atoms := Lits(p) + [Many(Dot)];
    if Test(atoms, address) {
      var i, j :| 0 <= i <= j <= |address| && Matches(atoms, address[i..j]);
      MatchesLitsAnyTail(p, address[i..j]);
      assert address[i..i + |p|] == address[i..j][..|p|];
      assert OccursAt(address, p, i);
    }
    if Contains(address, p) {
      var i :| 0 <= i <= |address| && OccursAt(address, p, i);
      MatchesLitsAnyTail(p, address[i..i + |p|]);
      assert Matches(atoms, address[i..i + |p|]);
    }
  }

  /** A pattern ending in two stars compiles to `....**`: "nothing to repeat". */
  lemma DoubleStarIsInvalid(oracle: (string, string) -> Verdict, p: string, address: string)
    requires Literal(p)
    ensures Judge(oracle, p + "**", address) == Invalid
  {
    assert '*' !in (p + "**")[..|p|] by {
      assert (p + "**")[..|p|] == p;
      forall k | 0 <= k < |p| ensures p[k] != '*' { }
    }
    ReplaceFirstStarShape(p + "**", |p|);
    assert (p + "**")[..|p|] == p && (p + "**")[|p| + 1..] == "*";
    assert ReplaceFirstStar(p + "**") == p + ".**";
    CompileLiteralThen(p, ".**", []);
    var acc := Lits(p) + [One(Dot)];
    assert ".**"[1..] == "**" && "**"[1..] == "*";
    assert acc[..|acc| - 1] == Lits(p);
  }

  /** Only the first star is a wildcard: in "a*b*" the second star repeats the `b`, so the
      pattern blacklists "ac", which has no `b` at all. */
  lemma SecondStarRepeatsPrecedingCharacter(oracle: (string, string) -> Verdict)
    ensures Judge(oracle, "a*b*", "ac") == Hit
  {
    assert ReplaceFirstStar("a*b*") == "a.*b*";
    var atoms := [One(Char('a')), Many(Dot), Many(Char('b'))];
    assert Compile("a.*b*", []) == Regex(atoms);
    assert Matches(atoms[2..], []);
    assert Matches(atoms[1..], []);
    assert Matches(atoms[1..], "c");
    assert Matches(atoms, "ac");
    assert "ac"[0..2] == "ac";
  }
}
