/** Trimming, as JavaScript's `String.prototype.trim` and Java's
    `String.trim` do it. Both strip a prefix and a suffix of "space"
    characters; they differ only in what counts as space. A `char` here
    stands for one UTF-16 code unit. */
module Text {

  /** JavaScript's WhiteSpace and LineTerminator code points (section 12.2
      and 12.3 of ECMA-262): tab, line feed, vertical tab, form feed,
      carriage return, the byte order mark, the line and paragraph
      separators and every space separator (category Zs). */
  predicate IsJsSpace(c: char) {
    || c == '\U{9}' || c == '\U{A}' || c == '\U{B}' || c == '\U{C}'
    || c == '\U{D}' || c == '\U{20}' || c == '\U{A0}' || c == '\U{1680}'
    || ('\U{2000}' <= c <= '\U{200A}')
    || c == '\U{2028}' || c == '\U{2029}' || c == '\U{202F}' || c == '\U{205F}'
    || c == '\U{3000}' || c == '\U{FEFF}'
  }

  /** Java's `String.trim` strips every code unit up to and including U+0020. */
  predicate IsJavaSpace(c: char) {
    c <= '\U{20}'
  }

  /** Every character of `s` is space. */
  predicate Blank(s: string, isSpace: char -> bool) {
    forall i :: 0 <= i < |s| ==> isSpace(s[i])
  }

  /** Drops the longest space prefix. */
  function TrimStart(s: string, isSpace: char -> bool): string
    decreases |s|
  {
    if s != [] && isSpace(s[0]) then TrimStart(s[1..], isSpace) else s
  }

  /** Drops the longest space suffix. */
  function TrimEnd(s: string, isSpace: char -> bool): string
    decreases |s|
  {
    if s != [] && isSpace(s[|s| - 1]) then TrimEnd(s[..|s| - 1], isSpace) else s
  }

  /** `TrimStart` keeps a suffix that does not start with space, and what
      it drops is all space. */
  lemma {:induction false} TrimStartSpec(s: string, isSpace: char -> bool)
    ensures var r := TrimStart(s, isSpace);
      && |r| <= |s| && r == s[|s| - |r|..]
      && (r == [] || !isSpace(r[0]))
      && Blank(s[..|s| - |r|], isSpace)
    decreases |s|
  {
    if s != [] && isSpace(s[0]) {
      TrimStartSpec(s[1..], isSpace);
      var r := TrimStart(s[1..], isSpace);
      assert s[1..][|s| - 1 - |r|..] == s[|s| - |r|..];
      forall i | 0 <= i < |s| - |r| ensures isSpace(s[i]) {
        if i > 0 { assert s[i] == s[1..][..|s| - 1 - |r|][i - 1]; }
      }
    }
  }

  /** `TrimEnd` keeps a prefix that does not end with space, and what it
      drops is all space. */
  lemma {:induction false} TrimEndSpec(s: string, isSpace: char -> bool)
    ensures var r := TrimEnd(s, isSpace);
      && |r| <= |s| && r == s[..|r|]
      && (r == [] || !isSpace(r[|r| - 1]))
      && Blank(s[|r|..], isSpace)
    decreases |s|
  {
    if s != [] && isSpace(s[|s| - 1]) {
      var t := s[..|s| - 1];
      TrimEndSpec(t, isSpace);
      var r := TrimEnd(t, isSpace);
      assert t[..|r|] == s[..|r|];
      forall i | |r| <= i < |s| ensures isSpace(s[i]) {
        if i < |s| - 1 { assert s[i] == t[|r|..][i - |r|]; }
      }
    }
  }

  /** `s.trim()`: the slice of `s` between its space prefix and suffix;
      it never grows the text. */
  function Trim(s: string, isSpace: char -> bool): (r: string)
    ensures |r| <= |s|
  {
    TrimStartSpec(s, isSpace);
    TrimEndSpec(TrimStart(s, isSpace), isSpace);
    TrimEnd(TrimStart(s, isSpace), isSpace)
  }

  /** The trimmed text is empty exactly when the text is all space; this is
      what `!text.trim()` and `text.trim().isEmpty()` test. */
  lemma TrimEmptyIffBlank(s: string, isSpace: char -> bool)
    ensures Trim(s, isSpace) == [] <==> Blank(s, isSpace)
  {
    var t := TrimStart(s, isSpace);
    TrimStartSpec(s, isSpace);
    TrimEndSpec(t, isSpace);
    if Trim(s, isSpace) == [] {
      assert Blank(t[0..], isSpace);
      assert t == [];
      forall i | 0 <= i < |s| ensures isSpace(s[i]) {
        assert s[..|s|][i] == s[i];
      }
    }
  }

  /** Trimming keeps a contiguous slice of the input: what follows the
      space prefix, cut before the space suffix. */
  lemma TrimIsSlice(s: string, isSpace: char -> bool)
    ensures |TrimStart(s, isSpace)| <= |s|
    ensures var lo := |s| - |TrimStart(s, isSpace)|;
      var r := Trim(s, isSpace);
      lo + |r| <= |s| && r == s[lo..lo + |r|]
  {
    var t := TrimStart(s, isSpace);
    var r := TrimEnd(t, isSpace);
    var lo := |s| - |t|;
    TrimStartSpec(s, isSpace);
    TrimEndSpec(t, isSpace);
    assert r == t[..|r|];
    assert s[lo..lo + |r|] == t[..|r|];
  }
}
