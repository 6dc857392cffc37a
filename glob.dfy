/**
 * `wildcardToRegExp`: a capability-id pattern with `*` and `?` wildcards is
 * turned into the source text of an anchored JavaScript regular expression,
 * which is then compiled and tested against a capability id.
 *
 * The model keeps the three steps apart: the source text is built exactly as
 * the runner builds it (escape, expand `*`, expand `?`, anchor); a parser for
 * the fragment of JavaScript regular-expression syntax that this text uses
 * plays the part of `new RegExp`; and `Test` gives that fragment its
 * matching semantics.
 */
module Glob {
  import opened Wrappers

  /** The character class of the escaping step: each of these gets a backslash. */
  const Escaped: set<char> :=
    {'-', '/', '\\', '^', '$', '+', '.', ',', '(', ')', '|', '[', ']', '{', '}'}

  /** Characters with a syntactic meaning outside a class in a JavaScript regular expression. */
  const Syntax: set<char> :=
    {'^', '$', '\\', '.', '*', '+', '?', '(', ')', '[', ']', '{', '}', '|'}

  /** `.` in a JavaScript regular expression (no `s` flag) matches anything but these. */
  predicate IsLineTerminator(c: char) {
    c in {'\n', '\r', '\U{2028}', '\U{2029}'}
  }

  // ---- Building the source text ----

  /** `pattern.replace(/[-/\\^$+.,()|[\]{}]/g, "\\$&")` */
  function Escape(p: string): string {
    if p == [] then [] else (if p[0] in Escaped then ['\\', p[0]] else [p[0]]) + Escape(p[1..])
  }

  /** `.replace(/\*\/g, ".*")` */
  function ExpandStars(s: string): string {
    if s == [] then [] else (if s[0] == '*' then ".*" else [s[0]]) + ExpandStars(s[1..])
  }

  /** `.replace(/\?/g, ".")` */
  function ExpandMarks(s: string): string {
    if s == [] then [] else (if s[0] == '?' then "." else [s[0]]) + ExpandMarks(s[1..])
  }

  /** The regular-expression source `wildcardToRegExp` builds for `pattern`. */
  function RegexSource(pattern: string): string {
    "^" + ExpandMarks(ExpandStars(Escape(pattern))) + "$"
  }

  // ---- The regular-expression fragment and its parser ----

  datatype Atom =
    | Literal(c: char)   // a character, matched as itself
    | AnyChar            // `.`
    | AnyRun             // `.*`

  function Cons(a: Atom, rest: Option<seq<Atom>>): Option<seq<Atom>> {
    if rest.Some? then Some([a] + rest.value) else None
  }

  /**
   * How `new RegExp` reads the text between the anchors, for the fragment
   * used here: identity escapes, `.`, `.*` and plain characters. Anything
   * else is outside the fragment (None).
   */
  function ParseBody(b: string): Option<seq<Atom>>
    decreases |b|
  {
    if b == [] then Some([])
    else if b[0] == '\\' then
      if |b| >= 2 && b[1] in Escaped then Cons(Literal(b[1]), ParseBody(b[2..])) else None
    else if b[0] == '.' then
      if |b| >= 2 && b[1] == '*' then Cons(AnyRun, ParseBody(b[2..]))
      else Cons(AnyChar, ParseBody(b[1..]))
    else if b[0] in Syntax then None
    else Cons(Literal(b[0]), ParseBody(b[1..]))
  }

  /** `new RegExp(src)` for an anchored source `^...$` of the fragment. */
  function NewRegExp(src: string): Option<seq<Atom>> {
    if |src| >= 2 && src[0] == '^' && src[|src| - 1] == '$' then ParseBody(src[1..|src| - 1])
    else None
  }

  // ---- Matching ----

  /** `re.test(s)` for an expression anchored at both ends. */
  function Test(re: seq<Atom>, s: string): (b: bool)
    ensures b && (forall i :: 0 <= i < |re| ==> re[i] != AnyRun) ==> |s| == |re|
    decreases |re|, |s|
  {
    if re == [] then s == []
    else match re[0]
      case Literal(c) => |s| > 0 && s[0] == c && Test(re[1..], s[1..])
      case AnyChar => |s| > 0 && !IsLineTerminator(s[0]) && Test(re[1..], s[1..])
      case AnyRun => Test(re[1..], s) || (|s| > 0 && !IsLineTerminator(s[0]) && Test(re, s[1..]))
  }

  // ---- What the pattern means, character by character ----

  function AtomOf(c: char): Atom {
    if c == '*' then AnyRun else if c == '?' then AnyChar else Literal(c)
  }

  /** The glob reading of a pattern: `*` any run, `?` one character, anything else itself. */
  function GlobAtoms(p: string): (re: seq<Atom>)
    ensures |re| == |p|
    ensures forall i :: 0 <= i < |p| ==> re[i] == AtomOf(p[i])
  {
    if p == [] then [] else [AtomOf(p[0])] + GlobAtoms(p[1..])
  }

  /** The source text contributed by one pattern character. */
  function Piece(c: char): string {
    if c == '*' then ".*" else if c == '?' then "." else if c in Escaped then ['\\', c] else [c]
  }

  function Pieces(p: string): string {
    if p == [] then [] else Piece(p[0]) + Pieces(p[1..])
  }

  lemma {:induction false} ExpandStarsAppend(a: string, b: string)
    ensures ExpandStars(a + b) == ExpandStars(a) + ExpandStars(b)
  {
    if a != [] {
      assert (a + b)[0] == a[0] && (a + b)[1..] == a[1..] + b;
      ExpandStarsAppend(a[1..], b);
      var h := if a[0] == '*' then ".*" else [a[0]];
      calc {
        ExpandStars(a + b);
        h + ExpandStars(a[1..] + b);
        h + (ExpandStars(a[1..]) + ExpandStars(b));
        (h + ExpandStars(a[1..])) + ExpandStars(b);
      }
    } else {
      assert a + b == b;
    }
  }

  lemma {:induction false} ExpandMarksAppend(a: string, b: string)
    ensures ExpandMarks(a + b) == ExpandMarks(a) + ExpandMarks(b)
  {
    if a != [] {
      assert (a + b)[0] == a[0] && (a + b)[1..] == a[1..] + b;
      ExpandMarksAppend(a[1..], b);
      var h := if a[0] == '?' then "." else [a[0]];
      calc {
        ExpandMarks(a + b);
        h + ExpandMarks(a[1..] + b);
        h + (ExpandMarks(a[1..]) + ExpandMarks(b));
        (h + ExpandMarks(a[1..])) + ExpandMarks(b);
      }
    } else {
      assert a + b == b;
    }
  }

  /** The three rewriting passes amount to replacing each character by its piece. */
  lemma {:induction false} PassesArePieces(p: string)
    ensures ExpandMarks(ExpandStars(Escape(p))) == Pieces(p)
  {
    if p != [] {
      var head := if p[0] in Escaped then ['\\', p[0]] else [p[0]];
      assert Escape(p) == head + Escape(p[1..]);
      ExpandStarsAppend(head, Escape(p[1..]));
      var stars := ExpandStars(head);
      ExpandMarksAppend(stars, ExpandStars(Escape(p[1..])));
      PassesArePieces(p[1..]);
      if p[0] in Escaped {
        assert stars == ['\\', p[0]];
        assert ExpandMarks(stars) == ['\\', p[0]];
      } else if p[0] == '*' {
        assert stars == ".*";
        assert ExpandMarks(stars) == ".*";
      } else if p[0] == '?' {
        assert stars == "?";
        assert ExpandMarks(stars) == ".";
      } else {
        assert stars == [p[0]];
        assert ExpandMarks(stars) == [p[0]];
      }
    }
  }

  lemma PiecesNoLeadingStar(p: string)
    ensures Pieces(p) == [] || Pieces(p)[0] != '*'
  {
    if p != [] {
      assert Pieces(p) == Piece(p[0]) + Pieces(p[1..]);
    }
  }

  /** The source text parses back to the glob reading of the pattern. */
  lemma {:induction false} ParsePieces(p: string)
    ensures ParseBody(Pieces(p)) == Some(GlobAtoms(p))
  {
    if p != [] {
      var c := p[0];
      var rest := Pieces(p[1..]);
      ParsePieces(p[1..]);
      PiecesNoLeadingStar(p[1..]);
      var b := Piece(c) + rest;
      assert Pieces(p) == b;
      if c == '*' {
        assert b[2..] == rest;
      } else if c == '?' {
        assert b[1..] == rest;
        assert |b| >= 2 ==> b[1] != '*';
      } else if c in Escaped {
        assert b[2..] == rest;
      } else {
        assert b[1..] == rest;
      }
    }
  }

  /**
   * `wildcardToRegExp(pattern)`: the compiled expression. Every character
   * other than `*` and `?`, regular-expression metacharacters included, is a
   * literal; `*` is any run and `?` any one character.
   */
  function WildcardToRegExp(pattern: string): (re: seq<Atom>)
    ensures NewRegExp(RegexSource(pattern)) == Some(re)
    ensures re == GlobAtoms(pattern)
  {
    var src := RegexSource(pattern);
    PassesArePieces(pattern);
    ParsePieces(pattern);
    assert src[1..|src| - 1] == Pieces(pattern);
    NewRegExp(src).value
  }

  // ---- Properties of the glob semantics ----

  predicate HasWildcard(p: string) {
    '*' in p || '?' in p
  }

  predicate NoLineTerminator(s: string) {
    forall i :: 0 <= i < |s| ==> !IsLineTerminator(s[i])
  }

  /** Without wildcards, the glob matches exactly the pattern itself. */
  lemma {:induction false} LiteralGlobMatchesItself(p: string, s: string)
    requires !HasWildcard(p)
    ensures Test(GlobAtoms(p), s) <==> s == p
  {
    if p != [] {
      assert !HasWildcard(p[1..]) by {
        assert forall i :: 0 <= i < |p[1..]| ==> p[1..][i] == p[i + 1];
      }
      LiteralGlobMatchesItself(p[1..], if |s| > 0 then s[1..] else s);
      if |s| > 0 && s[0] == p[0] && s[1..] == p[1..] {
        assert s == [s[0]] + s[1..];
        assert p == [p[0]] + p[1..];
      }
    } else {
      assert Test([], s) <==> s == [];
    }
  }

  /** A match of `*` followed by `rest` splits `s` into a line-terminator-free run and a match of `rest`. */
  lemma {:induction false} AnyRunWitness(rest: seq<Atom>, s: string) returns (k: nat)
    requires Test([AnyRun] + rest, s)
    ensures k <= |s| && NoLineTerminator(s[..k]) && Test(rest, s[k..])
    decreases |s|
  {
    var re := [AnyRun] + rest;
    assert re[0] == AnyRun && re[1..] == rest;
    if Test(rest, s) {
      k := 0;
      assert s[0..] == s;
    } else {
      assert |s| > 0 && !IsLineTerminator(s[0]) && Test(re, s[1..]);
      var j := AnyRunWitness(rest, s[1..]);
      k := j + 1;
      assert s[1..][j..] == s[k..];
      assert s[..k] == [s[0]] + s[1..][..j];
    }
  }

  /** Conversely, any such split is a match of `*` followed by `rest`. */
  lemma {:induction false} AnyRunFromSplit(rest: seq<Atom>, s: string, k: nat)
    requires k <= |s| && NoLineTerminator(s[..k]) && Test(rest, s[k..])
    ensures Test([AnyRun] + rest, s)
    decreases k
  {
    var re := [AnyRun] + rest;
    assert re[0] == AnyRun && re[1..] == rest;
    if k == 0 {
      assert s[0..] == s;
    } else {
      assert s[1..][k - 1..] == s[k..];
      assert s[1..][..k - 1] == s[..k][1..];
      assert s[..k][0] == s[0];
      AnyRunFromSplit(rest, s[1..], k - 1);
    }
  }

  /** A literal prefix followed by `*` matches the strings that start with it and continue on one line. */
  lemma {:induction false} PrefixGlob(q: string, s: string)
    requires !HasWildcard(q)
    ensures Test(GlobAtoms(q + "*"), s) <==>
      |q| <= |s| && s[..|q|] == q && NoLineTerminator(s[|q|..])
  {
    if q == [] {
      assert GlobAtoms(q + "*") == [AnyRun] + [];
      if Test([AnyRun] + [], s) {
        var k := AnyRunWitness([], s);
        assert s[..k] == s;
      }
      if NoLineTerminator(s) {
        assert s[..|s|] == s && s[|s|..] == [];
        AnyRunFromSplit([], s, |s|);
      }
    } else {
      assert (q + "*")[1..] == q[1..] + "*";
      assert GlobAtoms(q + "*") == [Literal(q[0])] + GlobAtoms(q[1..] + "*");
      assert !HasWildcard(q[1..]) by {
        assert forall i :: 0 <= i < |q[1..]| ==> q[1..][i] == q[i + 1];
      }
      if |s| > 0 {
        PrefixGlob(q[1..], s[1..]);
        if |q| <= |s| {
          assert s[1..][|q| - 1..] == s[|q|..];
          assert s[..|q|] == [s[0]] + s[1..][..|q| - 1];
          assert q == [q[0]] + q[1..];
        }
      }
    }
  }

  /** `*` alone matches exactly the strings without line terminators. */
  lemma StarMatchesOneLine(s: string)
    ensures Test(WildcardToRegExp("*"), s) <==> NoLineTerminator(s)
  {
    PrefixGlob("", s);
    assert "" + "*" == "*";
    assert s[0..] == s;
  }

  /** `?` alone matches exactly one character other than a line terminator. */
  lemma MarkMatchesOneChar(s: string)
    ensures Test(WildcardToRegExp("?"), s) <==> |s| == 1 && !IsLineTerminator(s[0])
  {
    assert GlobAtoms("?") == [AnyChar];
    if |s| > 0 {
      assert Test([], s[1..]) <==> |s| == 1;
    }
  }
}
