/** Key patterns: a glob with `*` and `?` compiled to an SQL LIKE pattern with escapes. */
module GlobLike {

  type Symbol = nat               // a code point, or a byte of an encoded one

  const STAR: Symbol := 42        // *
  const QUESTION: Symbol := 63    // ?
  const PERCENT: Symbol := 37     // %
  const UNDERSCORE: Symbol := 95  // _
  const BACKSLASH: Symbol := 92   // \

  type Text = seq<Symbol>

  /** How a database compares two characters; SQLite folds ASCII case. */
  type Same = (Symbol, Symbol) -> bool

  /** What the caller means by a pattern. */
  predicate GlobMatch(same: Same, p: Text, k: Text)
    decreases |p| + |k|
  {
    if p == [] then k == []
    else if p[0] == STAR then GlobMatch(same, p[1..], k) || (k != [] && GlobMatch(same, p, k[1..]))
    else k != [] && (p[0] == QUESTION || same(p[0], k[0])) && GlobMatch(same, p[1..], k[1..])
  }

  /** What `LIKE pattern ESCAPE '\'` does; an escape with nothing behind it matches nothing. */
  predicate LikeMatch(same: Same, p: Text, k: Text)
    decreases |p| + |k|
  {
    if p == [] then k == []
    else if p[0] == PERCENT then LikeMatch(same, p[1..], k) || (k != [] && LikeMatch(same, p, k[1..]))
    else if p[0] == UNDERSCORE then k != [] && LikeMatch(same, p[1..], k[1..])
    else if p[0] == BACKSLASH then |p| > 1 && k != [] && same(p[1], k[0]) && LikeMatch(same, p[2..], k[1..])
    else k != [] && same(p[0], k[0]) && LikeMatch(same, p[1..], k[1..])
  }

  function Compiled(c: Symbol): Text {
    if c == STAR then [PERCENT]
    else if c == QUESTION then [UNDERSCORE]
    else if c == PERCENT || c == UNDERSCORE || c == BACKSLASH then [BACKSLASH, c]
    else [c]
  }

  function ToLike(p: Text): Text {
    if p == [] then [] else ToLike(p[..|p| - 1]) + Compiled(p[|p| - 1])
  }

  lemma Assoc(a: Text, b: Text, c: Text)
    ensures a + b + c == a + (b + c)
  {}

  lemma {:induction false} ToLikeConcat(p: Text, q: Text)
    ensures ToLike(p + q) == ToLike(p) + ToLike(q)
    decreases |q|
  {
    if q == [] {
      assert p + q == p;
    } else {
      var n := |q| - 1;
      var last := Compiled(q[n]);
      calc {
        ToLike(p + q);
        { assert (p + q)[..|p + q| - 1] == p + q[..n]; }
        ToLike(p + q[..n]) + last;
        { ToLikeConcat(p, q[..n]); }
        ToLike(p) + ToLike(q[..n]) + last;
        { Assoc(ToLike(p), ToLike(q[..n]), last); }
        ToLike(p) + ToLike(q);
      }
    }
  }

  lemma ToLikeOne(c: Symbol)
    ensures ToLike([c]) == Compiled(c)
  {
    assert [c][..0] == [];
    assert ToLike([c]) == ToLike([]) + Compiled(c);
  }

  lemma ToLikeHead(p: Text)
    requires p != []
    ensures ToLike(p) == Compiled(p[0]) + ToLike(p[1..])
  {
    assert p == [p[0]] + p[1..];
    ToLikeConcat([p[0]], p[1..]);
    ToLikeOne(p[0]);
  }

  /** Compilation preserves meaning: for every pattern, key and way of comparing characters,
      the compiled pattern matches exactly the keys the glob matches. */
  lemma {:induction false} CompilationPreservesMatching(same: Same, p: Text, k: Text)
    ensures LikeMatch(same, ToLike(p), k) <==> GlobMatch(same, p, k)
    decreases |p| + |k|
  {
    if p != [] {
      ToLikeHead(p);
      var c, l, rest := p[0], ToLike(p), ToLike(p[1..]);
      if k != [] { CompilationPreservesMatching(same, p[1..], k[1..]); }
      if c == STAR {
        assert l[1..] == rest;
        CompilationPreservesMatching(same, p[1..], k);
        if k != [] { CompilationPreservesMatching(same, p, k[1..]); }
      } else if c == PERCENT || c == UNDERSCORE || c == BACKSLASH {
        assert l[0] == BACKSLASH && l[1] == c && l[2..] == rest;
      } else {
        assert l[1..] == rest;
      }
    }
  }

  // -- The compiler, on the bytes of the pattern -------------------------------------------

  method GlobToLike(pattern: Text) returns (out: Text)
    ensures out == ToLike(pattern)
  {
    out := [];
    for i := 0 to |pattern|
      invariant out == ToLike(pattern[..i])
    {
      var c := pattern[i];
      assert pattern[..i + 1][..i] == pattern[..i];
      if c == STAR {
        out := out + [PERCENT];
      } else if c == QUESTION {
        out := out + [UNDERSCORE];
      } else if c == PERCENT || c == UNDERSCORE || c == BACKSLASH {
        out := out + [BACKSLASH, c];
      } else {
        out := out + [c];
      }
    }
    assert pattern[..|pattern|] == pattern;
  }

  /** An encoding in which ASCII stands for itself and everything else avoids ASCII bytes, as UTF-8 does. */
  ghost predicate AsciiTransparent(encode: Symbol -> Text) {
    forall c: Symbol :: if c < 128 then encode(c) == [c] else forall i :: 0 <= i < |encode(c)| ==> encode(c)[i] >= 128
  }

  function Encode(encode: Symbol -> Text, s: Text): Text {
    if s == [] then [] else Encode(encode, s[..|s| - 1]) + encode(s[|s| - 1])
  }

  lemma {:induction false} ToLikeKeepsHighBytes(s: Text)
    requires forall i :: 0 <= i < |s| ==> s[i] >= 128
    ensures ToLike(s) == s
    decreases |s|
  {
    if s != [] { ToLikeKeepsHighBytes(s[..|s| - 1]); }
  }

  lemma {:induction false} EncodeConcat(encode: Symbol -> Text, s: Text, t: Text)
    ensures Encode(encode, s + t) == Encode(encode, s) + Encode(encode, t)
    decreases |t|
  {
    if t == [] {
      assert s + t == s;
    } else {
      assert (s + t)[..|s + t| - 1] == s + t[..|t| - 1];
      EncodeConcat(encode, s, t[..|t| - 1]);
    }
  }

  lemma {:induction false} EncodeAscii(encode: Symbol -> Text, s: Text)
    requires AsciiTransparent(encode) && forall i :: 0 <= i < |s| ==> s[i] < 128
    ensures Encode(encode, s) == s
    decreases |s|
  {
    if s != [] {
      EncodeAscii(encode, s[..|s| - 1]);
      assert encode(s[|s| - 1]) == [s[|s| - 1]];
    }
  }

  lemma OneCharacter(encode: Symbol -> Text, c: Symbol)
    requires AsciiTransparent(encode)
    ensures ToLike(encode(c)) == Encode(encode, Compiled(c))
  {
    if c >= 128 {
      ToLikeKeepsHighBytes(encode(c));
      EncodeOne(encode, c);
    } else {
      ToLikeOne(c);
      EncodeAscii(encode, Compiled(c));
    }
  }

  lemma EncodeOne(encode: Symbol -> Text, c: Symbol)
    ensures Encode(encode, [c]) == encode(c)
  {
    assert [c][..0] == [];
    assert Encode(encode, [c]) == Encode(encode, []) + encode(c);
  }

  /** Working byte by byte is as good as working character by character: the bytes of the
      compiled pattern are the compiled bytes of the pattern. */
  lemma {:induction false} BytewiseIsCharacterwise(encode: Symbol -> Text, p: Text)
    requires AsciiTransparent(encode)
    ensures ToLike(Encode(encode, p)) == Encode(encode, ToLike(p))
    decreases |p|
  {
    if p != [] {
      var n := |p| - 1;
      var c := p[n];
      BytewiseIsCharacterwise(encode, p[..n]);
      ToLikeConcat(Encode(encode, p[..n]), encode(c));
      EncodeConcat(encode, ToLike(p[..n]), Compiled(c));
      OneCharacter(encode, c);
    }
  }
}
