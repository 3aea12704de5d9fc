/** The SQL LIKE predicate with ESCAPE '\' (section 8.5 of ISO/IEC 9075-2) and the escaping of key prefixes. */
module Like {

  /** escapeLike replaces each of the three special characters on its own. */
  function EscapeLike(s: string): string {
    if s == [] then []
    else (if s[0] == '\\' || s[0] == '%' || s[0] == '_' then ['\\', s[0]] else [s[0]]) + EscapeLike(s[1..])
  }

  /** Whether a database that compares characters up to `fold` accepts s against the pattern.  A lone escape
      character at the end of a pattern matches nothing. */
  predicate Matches(fold: char -> char, pattern: string, s: string)
    decreases |pattern|, |s|
  {
    if pattern == [] then s == []
    else if pattern[0] == '\\' then
      |pattern| >= 2 && s != [] && fold(pattern[1]) == fold(s[0]) && Matches(fold, pattern[2..], s[1..])
    else if pattern[0] == '%' then
      Matches(fold, pattern[1..], s) || (s != [] && Matches(fold, pattern, s[1..]))
    else if pattern[0] == '_' then
      s != [] && Matches(fold, pattern[1..], s[1..])
    else
      s != [] && fold(pattern[0]) == fold(s[0]) && Matches(fold, pattern[1..], s[1..])
  }

  /** p is a prefix of s, comparing characters up to `fold`. */
  predicate FoldedPrefix(fold: char -> char, p: string, s: string) {
    |p| <= |s| && forall i :: 0 <= i < |p| ==> fold(p[i]) == fold(s[i])
  }

  lemma {:induction false} PercentMatchesAll(fold: char -> char, s: string)
    ensures Matches(fold, "%", s)
  {
    if s != [] {
      PercentMatchesAll(fold, s[1..]);
    } else {
      assert Matches(fold, "%"[1..], s);
    }
  }

  function Escaped(c: char): string {
    if c == '\\' || c == '%' || c == '_' then ['\\', c] else [c]
  }

  /** One escaped character consumes one character, equal to it up to folding. */
  lemma EscapedOne(fold: char -> char, c: char, pattern: string, s: string)
    ensures Matches(fold, Escaped(c) + pattern, s)
           <==> s != [] && fold(c) == fold(s[0]) && Matches(fold, pattern, s[1..])
  {
    assert (Escaped(c) + pattern)[|Escaped(c)|..] == pattern;
  }

  lemma FoldedPrefixOne(fold: char -> char, p: string, s: string)
    requires p != [] && s != []
    ensures FoldedPrefix(fold, p, s) <==> fold(p[0]) == fold(s[0]) && FoldedPrefix(fold, p[1..], s[1..])
  {
    forall i | 0 <= i < |p| && FoldedPrefix(fold, p[1..], s[1..]) && fold(p[0]) == fold(s[0])
      ensures fold(p[i]) == fold(s[i])
    {
      if i > 0 { assert p[1..][i - 1] == p[i] && s[1..][i - 1] == s[i]; }
    }
  }

  /** An escaped string followed by anything consumes exactly its own length. */
  lemma {:induction false} EscapedThen(fold: char -> char, p: string, rest: string, s: string)
    ensures Matches(fold, EscapeLike(p) + rest, s) <==> FoldedPrefix(fold, p, s) && Matches(fold, rest, s[|p|..])
  {
    hide Matches;
    if p == [] {
      assert EscapeLike(p) + rest == rest && s[0..] == s;
    } else {
      assert EscapeLike(p) + rest == Escaped(p[0]) + (EscapeLike(p[1..]) + rest);
      EscapedOne(fold, p[0], EscapeLike(p[1..]) + rest, s);
      if s != [] {
        EscapedThen(fold, p[1..], rest, s[1..]);
        FoldedPrefixOne(fold, p, s);
        if FoldedPrefix(fold, p, s) { assert s[1..][|p[1..]|..] == s[|p|..]; }
      }
    }
  }

  /** The prefix query means what it should: for all strings, the pattern built from p accepts exactly the
      strings that p is a prefix of. */
  lemma PrefixPattern(fold: char -> char, p: string, s: string)
    ensures Matches(fold, EscapeLike(p) + "%", s) <==> FoldedPrefix(fold, p, s)
  {
    EscapedThen(fold, p, "%", s);
    if FoldedPrefix(fold, p, s) { PercentMatchesAll(fold, s[|p|..]); }
  }

  /** Without the trailing percent sign it accepts p alone. */
  lemma ExactPattern(fold: char -> char, p: string, s: string)
    ensures Matches(fold, EscapeLike(p), s) <==> FoldedPrefix(fold, p, s) && |p| == |s|
  {
    EscapedThen(fold, p, "", s);
    assert EscapeLike(p) + "" == EscapeLike(p);
  }

  /** Reads an escaped string back. */
  function UnescapeLike(s: string): string {
    if s == [] then []
    else if s[0] == '\\' && |s| >= 2 then [s[1]] + UnescapeLike(s[2..])
    else [s[0]] + UnescapeLike(s[1..])
  }

  lemma {:induction false} UnescapeEscape(s: string)
    ensures UnescapeLike(EscapeLike(s)) == s
  {
    if s != [] {
      var e := EscapeLike(s);
      var n := if s[0] == '\\' || s[0] == '%' || s[0] == '_' then 2 else 1;
      assert e[n..] == EscapeLike(s[1..]);
      UnescapeEscape(s[1..]);
      assert s == [s[0]] + s[1..];
    }
  }

  /** Distinct prefixes give distinct patterns. */
  lemma EscapeInjective(p: string, q: string)
    requires EscapeLike(p) == EscapeLike(q)
    ensures p == q
  {
    UnescapeEscape(p);
    UnescapeEscape(q);
  }

  // ---------- why the escaping is needed ----------

  predicate Special(c: char) {
    c == '\\' || c == '%' || c == '_'
  }

  /** A short string that the bare pattern p followed by a percent sign accepts. */
  function Sample(p: string): string {
    if p == [] then []
    else if p[0] == '\\' then if |p| >= 2 then [p[1]] + Sample(p[2..]) else "%"
    else if p[0] == '%' then Sample(p[1..])
    else if p[0] == '_' then ['x'] + Sample(p[1..])
    else [p[0]] + Sample(p[1..])
  }

  lemma {:induction false} SampleMatches(fold: char -> char, p: string)
    ensures Matches(fold, p + "%", Sample(p)) && |Sample(p)| <= |p|
  {
    if p == [] {
      PercentMatchesAll(fold, []);
      assert p + "%" == "%";
    } else if p[0] == '\\' {
      if |p| >= 2 {
        SampleMatches(fold, p[2..]);
        assert (p + "%")[2..] == p[2..] + "%";
        assert Sample(p)[1..] == Sample(p[2..]);
      } else {
        assert p + "%" == ['\\', '%'] && (p + "%")[2..] == [] && Sample(p)[1..] == [];
      }
    } else {
      SampleMatches(fold, p[1..]);
      assert (p + "%")[1..] == p[1..] + "%";
      assert p[0] != '%' ==> Sample(p)[1..] == Sample(p[1..]);
    }
  }

  lemma {:induction false} SampleDiffers(fold: char -> char, p: string)
    requires fold('x') != fold('_') && fold('%') != fold('\\')
    requires exists i :: 0 <= i < |p| && Special(p[i])
    ensures !FoldedPrefix(fold, p, Sample(p))
  {
    SampleMatches(fold, p);
    if !Special(p[0]) {
      var i :| 0 <= i < |p| && Special(p[i]);
      assert p[1..][i - 1] == p[i];
      SampleDiffers(fold, p[1..]);
      assert Sample(p)[1..] == Sample(p[1..]);
      FoldedPrefixOne(fold, p, Sample(p));
    } else if p[0] == '%' {
      SampleMatches(fold, p[1..]);
    } else if p[0] == '\\' && |p| >= 2 {
      SampleMatches(fold, p[2..]);
    }
  }

  lemma {:induction false} NothingToEscape(p: string)
    requires forall i :: 0 <= i < |p| ==> !Special(p[i])
    ensures EscapeLike(p) == p
  {
    if p != [] {
      NothingToEscape(p[1..]);
    }
  }

  /** The key followed by a percent sign, unescaped, would mean the prefix search exactly for keys without a special
      character, if the folding tells a letter from an underscore and a percent sign from a backslash. */
  lemma BarePatternExactly(fold: char -> char, p: string)
    requires fold('x') != fold('_') && fold('%') != fold('\\')
    ensures (forall s :: Matches(fold, p + "%", s) <==> FoldedPrefix(fold, p, s))
       <==> forall i :: 0 <= i < |p| ==> !Special(p[i])
  {
    if forall i :: 0 <= i < |p| ==> !Special(p[i]) {
      NothingToEscape(p);
      forall s ensures Matches(fold, p + "%", s) <==> FoldedPrefix(fold, p, s) {
        PrefixPattern(fold, p, s);
      }
    } else {
      SampleMatches(fold, p);
      SampleDiffers(fold, p);
    }
  }
}
