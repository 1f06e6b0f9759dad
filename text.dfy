/**
 * Characters and strings as Python's `str` methods and its `re` module see them:
 * the whitespace class, ASCII digits and word characters, the case folding that
 * `re.IGNORECASE` applies to a literal, and the trimming done by `strip`/`rstrip`.
 */
module Text {

  /** `str.isspace()`: the code points `str.strip()` removes and `\s` matches in a str pattern. */
  predicate IsSpace(c: char): (b: bool)
    ensures b ==> !IsWordChar(c)
    ensures c <= '\U{7F}' ==> (b <==> c in " \t\n\r\U{0B}\U{0C}\U{1C}\U{1D}\U{1E}\U{1F}")
  {
    ('\t' <= c <= '\r') || ('\U{1C}' <= c <= ' ') || c == '\U{85}' || c == '\U{A0}'
    || c == '\U{1680}' || ('\U{2000}' <= c <= '\U{200A}') || c == '\U{2028}' || c == '\U{2029}'
    || c == '\U{202F}' || c == '\U{205F}' || c == '\U{3000}'
  }

  /** `\d`, restricted to the ASCII digits. */
  predicate IsDigit(c: char)
  {
    '0' <= c <= '9'
  }

  /** `\w`, restricted to ASCII; it decides where `\b` holds. */
  predicate IsWordChar(c: char)
  {
    'a' <= c <= 'z' || 'A' <= c <= 'Z' || IsDigit(c) || c == '_'
  }

  /**
   * The character a literal is compared through under `re.IGNORECASE`: ASCII capitals
   * become lower case, and so do the four non-ASCII letters that the matcher folds onto
   * ASCII letters (dotted capital I, dotless i, long s and the Kelvin sign).
   */
  function FoldCase(c: char): (f: char)
    ensures 'A' <= c <= 'Z' ==> f as int == c as int + 32
    ensures !('A' <= c <= 'Z') && f != c ==> c in "\U{130}\U{131}\U{17F}\U{212A}" && f in "isk"
  {
    if 'A' <= c <= 'Z' then (c as int + 32) as char
    else if c == '\U{130}' || c == '\U{131}' then 'i'
    else if c == '\U{17F}' then 's'
    else if c == '\U{212A}' then 'k'
    else c
  }

  /** Folding twice folds no further: a folded character is its own fold. */
  lemma FoldCaseIdempotent(c: char)
    ensures FoldCase(FoldCase(c)) == FoldCase(c)
  {
  }

  /** The literal `lit` matches `s` at position `i`, case-insensitively. */
  predicate MatchesIgnoreCaseAt(s: string, i: nat, lit: string)
  {
    i + |lit| <= |s| && forall k | 0 <= k < |lit| :: FoldCase(s[i + k]) == FoldCase(lit[k])
  }

  /** Every character of `s[lo..hi]` satisfies `p`. */
  predicate All(s: string, lo: nat, hi: nat, p: char -> bool)
    requires lo <= hi <= |s|
  {
    forall k | lo <= k < hi :: p(s[k])
  }

  /** Python's `str.lstrip()`: drops the leading whitespace. */
  function TrimStart(s: string): (r: string)
    ensures |r| <= |s| && r == s[|s| - |r|..]
    ensures All(s, 0, |s| - |r|, IsSpace)
    ensures r == [] || !IsSpace(r[0])
    decreases |s|
  {
    if s != [] && IsSpace(s[0]) then TrimStart(s[1..]) else s
  }

  /** Python's `str.rstrip(chars)`: drops the trailing characters for which `drop` holds. */
  function TrimEnd(s: string, drop: char -> bool): (r: string)
    ensures |r| <= |s| && r == s[..|r|]
    ensures All(s, |r|, |s|, drop)
    ensures r == [] || !drop(r[|r| - 1])
    decreases |s|
  {
    if s != [] && drop(s[|s| - 1]) then TrimEnd(s[..|s| - 1], drop) else s
  }

  /** Python's `str.strip()`. */
  function Strip(s: string): (r: string)
    ensures |r| <= |s|
    ensures r == [] || (!IsSpace(r[0]) && !IsSpace(r[|r| - 1]))
  {
    var t := TrimStart(s);
    var r := TrimEnd(t, IsSpace);
    assert r != [] ==> r[0] == t[0];
    r
  }

  /** `Strip` yields nothing exactly when its input is all whitespace. */
  lemma StripIsEmpty(s: string)
    ensures Strip(s) == [] <==> All(s, 0, |s|, IsSpace)
  {
    var t := TrimStart(s);
    if Strip(s) == [] {
      assert All(t, 0, |t|, IsSpace);
      assert t == [];
    }
  }

  /** What `Strip` keeps is a slice of its input, starting where `TrimStart` does. */
  lemma StripIsSlice(s: string)
    ensures var a := |s| - |TrimStart(s)|;
      a + |Strip(s)| <= |s| && Strip(s) == s[a..a + |Strip(s)|]
  {
    var t := TrimStart(s);
    var a := |s| - |t|;
    var r := TrimEnd(t, IsSpace);
    assert Strip(s) == r;
    SliceOfSuffix(s, a, |r|);
  }

  /** A prefix of a suffix is a slice. */
  lemma SliceOfSuffix(s: string, a: nat, n: nat)
    requires a + n <= |s|
    ensures s[a..][..n] == s[a..a + n]
  {
  }

  /** What `Strip` drops on either side of that slice is whitespace. */
  lemma StripDropsSpace(s: string)
    ensures var a := |s| - |TrimStart(s)|;
      a + |Strip(s)| <= |s| && All(s, 0, a, IsSpace) && All(s, a + |Strip(s)|, |s|, IsSpace)
  {
    var t := TrimStart(s);
    var a := |s| - |t|;
    var n := |Strip(s)|;
    assert All(t, n, |t|, IsSpace);
    forall k | a + n <= k < |s| ensures IsSpace(s[k]) {
      assert s[k] == t[k - a];
    }
  }

  /** Text without whitespace at either end is its own `Strip`. */
  lemma StripKeepsTrimmed(s: string)
    requires s != [] && !IsSpace(s[0]) && !IsSpace(s[|s| - 1])
    ensures Strip(s) == s
  {
    assert TrimStart(s) == s;
  }
}
