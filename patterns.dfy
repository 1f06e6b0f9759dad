/**
 * The regular expressions of the drift rules, each written as a scanner that follows
 * the greedy, left-to-right strategy of Python's `re`, beside a definition by
 * decomposition (the language of the pattern) that the scanner is proved to agree with.
 *
 *   phrase search      re.search(<literal>, text, re.IGNORECASE)
 *   URL                https?://[^\s<>"{}|\\^`\[\]]+          (re.findall)
 *   percentage         \b\d+(?:\.\d+)?%                        (re.findall, non-empty?)
 *   ratio              \b\d+\s*(?:out of|of)\s*\d+             (re.findall, non-empty?)
 */
module Patterns {

  import opened Wrappers
  import opened Text

  /**
   * The first position at or after `i` where `lit` matches case-insensitively, found
   * by trying each position from left to right as `re.search` does.
   */
  function FindIgnoreCase(text: string, lit: string, i: nat): (r: Option<nat>)
    requires i <= |text|
    ensures r.Some? ==> i <= r.value && MatchesIgnoreCaseAt(text, r.value, lit)
    ensures forall j | i <= j && (r.None? || j < r.value) :: !MatchesIgnoreCaseAt(text, j, lit)
    decreases |text| - i
  {
    if MatchesIgnoreCaseAt(text, i, lit) then Some(i)
    else if i == |text| then None
    else FindIgnoreCase(text, lit, i + 1)
  }

  /**
   * `re.search(lit, text, re.IGNORECASE)` for a literal without metacharacters: the
   * literal matches somewhere, exactly when the left-to-right search finds it.
   */
  predicate SearchIgnoreCase(text: string, lit: string): (b: bool)
    ensures b <==> FindIgnoreCase(text, lit, 0).Some?
  {
    exists i | 0 <= i <= |text| - |lit| :: MatchesIgnoreCaseAt(text, i, lit)
  }

  /** A case-insensitive search cannot tell two texts apart that differ only in case. */
  lemma SearchIgnoresCase(text: string, other: string, lit: string)
    requires |text| == |other|
    requires forall k | 0 <= k < |text| :: FoldCase(text[k]) == FoldCase(other[k])
    ensures SearchIgnoreCase(text, lit) == SearchIgnoreCase(other, lit)
  {
    forall i | 0 <= i <= |text| - |lit|
      ensures MatchesIgnoreCaseAt(text, i, lit) == MatchesIgnoreCaseAt(other, i, lit)
    {
    }
  }

  /** The end of the maximal run of characters satisfying `p` that starts at `j`. */
  function RunEnd(s: string, j: nat, p: char -> bool): (e: nat)
    requires j <= |s|
    ensures j <= e <= |s|
    ensures All(s, j, e, p)
    ensures e == |s| || !p(s[e])
    decreases |s| - j
  {
    if j < |s| && p(s[j]) then RunEnd(s, j + 1, p) else j
  }

  /** A run of `p`-characters is as long as `RunEnd` says, and no longer. */
  lemma RunEndIsMaximal(s: string, j: nat, x: nat, p: char -> bool)
    requires j <= x <= |s| && All(s, j, x, p)
    ensures x <= RunEnd(s, j, p)
    ensures x == |s| || !p(s[x]) ==> RunEnd(s, j, p) == x
  {
  }

  // ---------------------------------------------------------------------------
  // URLs

  /** Characters allowed after the scheme: not whitespace, not one of `<>"{}|\^`[]`. */
  predicate IsUrlChar(c: char)
  {
    !IsSpace(c) && c !in "<>\"{}|\\^`[]"
  }

  /** Where `https?://` ends when it matches at `i`; `s` is tried before its absence. */
  function SchemeEnd(s: string, i: nat): (p: Option<nat>)
    requires i <= |s|
  {
    if "https://" <= s[i..] then Some(i + 8)
    else if "http://" <= s[i..] then Some(i + 7)
    else None
  }

  /** `s[i..e]` is a match of the URL pattern (by decomposition, not necessarily the longest). */
  predicate UrlSpan(s: string, i: nat, e: nat)
  {
    e <= |s| && i <= |s| &&
    (("https://" <= s[i..] && i + 8 < e && All(s, i + 8, e, IsUrlChar))
     || ("http://" <= s[i..] && i + 7 < e && All(s, i + 7, e, IsUrlChar)))
  }

  /** A whole string that the URL pattern matches. */
  predicate IsUrl(t: string)
  {
    UrlSpan(t, 0, |t|)
  }

  /** The end of the URL match that `re` finds at `i`, if there is one: the greedy one. */
  function UrlMatchAt(s: string, i: nat): (m: Option<nat>)
    requires i <= |s|
    ensures m.Some? ==> i < m.value <= |s|
  {
    match SchemeEnd(s, i)
    case Some(p) =>
      if p < |s| && IsUrlChar(s[p]) then Some(RunEnd(s, p, IsUrlChar)) else None
    case None => None
  }

  /** The scanner's match at `i` is a match of the pattern, and the longest one. */
  lemma UrlMatchAtIsLongest(s: string, i: nat)
    requires i <= |s|
    ensures UrlMatchAt(s, i).Some? ==> UrlSpan(s, i, UrlMatchAt(s, i).value)
    ensures forall e: nat | UrlSpan(s, i, e) :: UrlMatchAt(s, i).Some? && e <= UrlMatchAt(s, i).value
  {
    forall e: nat | UrlSpan(s, i, e)
      ensures UrlMatchAt(s, i).Some? && e <= UrlMatchAt(s, i).value
    {
      if "https://" <= s[i..] {
        assert s[i + 4] == 's';
        assert !("http://" <= s[i..]) by { assert s[i..][4] == 's'; }
        RunEndIsMaximal(s, i + 8, e, IsUrlChar);
      } else {
        RunEndIsMaximal(s, i + 7, e, IsUrlChar);
      }
    }
  }

  /**
   * `re.findall(url_pattern, s[i..])`: non-overlapping greedy matches from left to
   * right, every one of them a URL.
   */
  function UrlTokensFrom(s: string, i: nat): (tokens: seq<string>)
    requires i <= |s|
    ensures forall t | t in tokens :: IsUrl(t)
    decreases |s| - i
  {
    if i == |s| then []
    else match UrlMatchAt(s, i)
      case Some(e) =>
        UrlMatchAtIsLongest(s, i);
        SpanIsUrl(s, i, e);
        [s[i..e]] + UrlTokensFrom(s, e)
      case None => UrlTokensFrom(s, i + 1)
  }

  /** `re.findall(url_pattern, s)`. */
  function UrlTokens(s: string): (tokens: seq<string>)
    ensures forall t | t in tokens :: IsUrl(t)
  {
    UrlTokensFrom(s, 0)
  }

  /** A span that the URL pattern matches, cut out of its text, is a URL on its own. */
  lemma SpanIsUrl(s: string, i: nat, e: nat)
    requires UrlSpan(s, i, e)
    ensures IsUrl(s[i..e])
  {
    var t := s[i..e];
    assert forall k | 0 <= k < |t| :: t[k] == s[i + k];
    if "https://" <= s[i..] {
      assert "https://" <= t by { assert s[i..][..8] == t[..8]; }
    } else {
      assert "http://" <= t by { assert s[i..][..7] == t[..7]; }
    }
  }

  /** The scheme `https?://` consists of URL characters. */
  lemma SchemeIsUrlChars(s: string, i: nat)
    requires i <= |s| && SchemeEnd(s, i).Some?
    ensures SchemeEnd(s, i).value <= |s| && All(s, i, SchemeEnd(s, i).value, IsUrlChar)
  {
    var scheme := if "https://" <= s[i..] then "https://" else "http://";
    forall k | i <= k < i + |scheme| ensures IsUrlChar(s[k]) {
      assert s[k] == s[i..][k - i] == scheme[k - i];
    }
  }

  /**
   * Completeness of `findall`: a URL standing in the text between characters that
   * cannot belong to a URL is one of the tokens returned from any position before it.
   */
  lemma {:induction false} DelimitedUrlFound(s: string, i: nat, j: nat, e: nat)
    requires i <= j && UrlSpan(s, j, e)
    requires j == 0 || !IsUrlChar(s[j - 1])
    requires e == |s| || !IsUrlChar(s[e])
    ensures s[j..e] in UrlTokensFrom(s, i)
    decreases |s| - i
  {
    if i == j {
      UrlMatchAtIsLongest(s, j);
      var m := UrlMatchAt(s, j).value;
      var p := SchemeEnd(s, j).value;
      assert p < e by {
        if "https://" <= s[j..] {
          assert !("http://" <= s[j..]) by { assert s[j..][4] == 's'; }
        }
      }
      RunEndIsMaximal(s, p, e, IsUrlChar);
      assert UrlTokensFrom(s, i) == [s[j..m]] + UrlTokensFrom(s, m);
    } else {
      match UrlMatchAt(s, i)
      case None =>
        DelimitedUrlFound(s, i + 1, j, e);
      case Some(m) =>
        SchemeIsUrlChars(s, i);
        assert m <= j;
        DelimitedUrlFound(s, m, j, e);
        assert UrlTokensFrom(s, i) == [s[i..m]] + UrlTokensFrom(s, m);
    }
  }

  /** A text without the letter `h` holds no URL. */
  lemma {:induction false} NoSchemeNoUrls(s: string, i: nat)
    requires i <= |s|
    requires forall k | i <= k < |s| :: s[k] != 'h'
    ensures UrlTokensFrom(s, i) == []
    decreases |s| - i
  {
    if i < |s| {
      assert s[i..][0] == s[i];
      NoSchemeNoUrls(s, i + 1);
    }
  }

  /** The punctuation that `url.rstrip('.,;:!?')` removes. */
  predicate IsTrailingPunct(c: char)
  {
    c in ".,;:!?"
  }

  /**
   * `url.rstrip('.,;:!?')`: the longest prefix not ending in that punctuation, with
   * only that punctuation after it.
   */
  function CleanUrl(t: string): (u: string)
    ensures u <= t
    ensures forall k | |u| <= k < |t| :: IsTrailingPunct(t[k])
    ensures u == [] || !IsTrailingPunct(u[|u| - 1])
  {
    TrimEnd(t, IsTrailingPunct)
  }

  /** A cleaned URL: still begins with its scheme, and no longer ends in punctuation. */
  predicate IsCleanUrl(u: string)
  {
    ("https://" <= u || "http://" <= u) && !IsTrailingPunct(u[|u| - 1])
  }

  /** Cleaning a URL keeps its scheme (whose `/` stops the stripping) and a prefix of it. */
  lemma CleanUrlShape(t: string)
    requires IsUrl(t)
    ensures IsCleanUrl(CleanUrl(t))
    ensures CleanUrl(t) <= t
  {
    var u := CleanUrl(t);
    var n := if "https://" <= t then 8 else 7;
    assert t[n - 1] == '/';
    assert u[..n] == t[..n];
  }

  /** Punctuation after a URL does not change what it cleans to. */
  lemma {:induction false} CleanIgnoresTrailingPunct(t: string, tail: string)
    requires IsUrl(t)
    requires forall k | 0 <= k < |tail| :: IsTrailingPunct(tail[k])
    ensures CleanUrl(t + tail) == CleanUrl(t)
    decreases |tail|
  {
    if tail != [] {
      var shorter := tail[..|tail| - 1];
      assert (t + tail)[..|t + tail| - 1] == t + shorter;
      CleanIgnoresTrailingPunct(t, shorter);
    } else {
      assert t + tail == t;
    }
  }

  /** `{url.rstrip('.,;:!?') for url in set(re.findall(url_pattern, s))}`. */
  function CleanedUrls(s: string): (urls: set<string>)
    ensures forall u | u in urls :: IsCleanUrl(u)
  {
    forall t | t in UrlTokens(s) ensures IsCleanUrl(CleanUrl(t)) {
      CleanUrlShape(t);
    }
    set t | t in UrlTokens(s) :: CleanUrl(t)
  }

  /** A URL standing delimited in the text is among its cleaned URLs, once cleaned. */
  lemma DelimitedUrlIsCleaned(s: string, j: nat, e: nat)
    requires UrlSpan(s, j, e)
    requires j == 0 || !IsUrlChar(s[j - 1])
    requires e == |s| || !IsUrlChar(s[e])
    ensures CleanUrl(s[j..e]) in CleanedUrls(s)
  {
    DelimitedUrlFound(s, 0, j, e);
  }

  // ---------------------------------------------------------------------------
  // Statistics

  /** `\b` at `i`: a word character on exactly one side. */
  predicate WordBoundary(s: string, i: nat)
    requires i <= |s|
  {
    (0 < i && IsWordChar(s[i - 1])) != (i < |s| && IsWordChar(s[i]))
  }

  /** The percentage pattern matches at `i`, found by following maximal digit runs. */
  predicate PercentAt(s: string, i: nat): (b: bool)
    ensures b ==> i < |s| && IsDigit(s[i]) && WordBoundary(s, i)
  {
    i < |s| && IsDigit(s[i]) && (i == 0 || !IsWordChar(s[i - 1])) &&
    var j := RunEnd(s, i, IsDigit);
    (j < |s| && s[j] == '%')
    || (j + 1 < |s| && s[j] == '.' && IsDigit(s[j + 1]) &&
        var k := RunEnd(s, j + 1, IsDigit);
        k < |s| && s[k] == '%')
  }

  /** `\b\d+(?:\.\d+)?%` matches at `i`, for some split of the digits. */
  ghost predicate PercentMatch(s: string, i: nat)
  {
    i <= |s| && WordBoundary(s, i) &&
    ((exists j | i < j < |s| :: All(s, i, j, IsDigit) && s[j] == '%')
     || (exists j, k | i < j && j + 1 < k < |s| ::
           All(s, i, j, IsDigit) && s[j] == '.' && All(s, j + 1, k, IsDigit) && s[k] == '%'))
  }

  lemma PercentAtIsMatch(s: string, i: nat)
    requires i <= |s|
    ensures PercentAt(s, i) <==> PercentMatch(s, i)
  {
    if PercentAt(s, i) {
      PercentAtGivesMatch(s, i);
    }
    if PercentMatch(s, i) {
      PercentMatchGivesAt(s, i);
    }
  }

  lemma PercentAtGivesMatch(s: string, i: nat)
    requires PercentAt(s, i)
    ensures PercentMatch(s, i)
  {
    var j := RunEnd(s, i, IsDigit);
    if j < |s| && s[j] == '%' {
      assert All(s, i, j, IsDigit) && s[j] == '%';
    } else {
      var k := RunEnd(s, j + 1, IsDigit);
      assert All(s, i, j, IsDigit) && s[j] == '.' && All(s, j + 1, k, IsDigit) && s[k] == '%';
    }
  }

  lemma PercentMatchGivesAt(s: string, i: nat)
    requires PercentMatch(s, i)
    ensures PercentAt(s, i)
  {
    if j :| i < j < |s| && All(s, i, j, IsDigit) && s[j] == '%' {
      WholePercentAt(s, i, j);
    } else {
      var j, k :| i < j && j + 1 < k < |s| &&
        All(s, i, j, IsDigit) && s[j] == '.' && All(s, j + 1, k, IsDigit) && s[k] == '%';
      DecimalPercentAt(s, i, j, k);
    }
  }

  lemma WholePercentAt(s: string, i: nat, j: nat)
    requires i < j < |s| && WordBoundary(s, i)
    requires All(s, i, j, IsDigit) && s[j] == '%'
    ensures PercentAt(s, i)
  {
    assert IsDigit(s[i]);
    RunEndIsMaximal(s, i, j, IsDigit);
  }

  lemma DecimalPercentAt(s: string, i: nat, j: nat, k: nat)
    requires i < j && j + 1 < k < |s| && WordBoundary(s, i)
    requires All(s, i, j, IsDigit) && s[j] == '.' && All(s, j + 1, k, IsDigit) && s[k] == '%'
    ensures PercentAt(s, i)
  {
    assert IsDigit(s[i]);
    RunEndIsMaximal(s, i, j, IsDigit);
    RunEndIsMaximal(s, j + 1, k, IsDigit);
  }

  /** The keyword alternative `(?:out of|of)` matches `s[b..c]`. */
  predicate Keyword(s: string, b: nat, c: nat)
  {
    (c == b + 6 && MatchesIgnoreCaseAt(s, b, "out of"))
    || (c == b + 2 && MatchesIgnoreCaseAt(s, b, "of"))
  }

  /** After the whitespace that starts at `m` there is a digit. */
  predicate DigitAfterSpaces(s: string, m: nat)
    requires m <= |s|
  {
    var n := RunEnd(s, m, IsSpace);
    n < |s| && IsDigit(s[n])
  }

  /** The ratio pattern matches at `i`, found by following maximal runs. */
  predicate RatioAt(s: string, i: nat): (b: bool)
    ensures b ==> i < |s| && IsDigit(s[i]) && WordBoundary(s, i)
  {
    i < |s| && IsDigit(s[i]) && (i == 0 || !IsWordChar(s[i - 1])) &&
    RatioTail(s, RunEnd(s, RunEnd(s, i, IsDigit), IsSpace))
  }

  /** At `k` a keyword, `out of` tried before `of`, is followed by blanks and a digit. */
  predicate RatioTail(s: string, k: nat)
  {
    (MatchesIgnoreCaseAt(s, k, "out of") && DigitAfterSpaces(s, k + 6))
    || (MatchesIgnoreCaseAt(s, k, "of") && DigitAfterSpaces(s, k + 2))
  }

  /** Where the ratio tail holds, some keyword ends at `c` with blanks and a digit after it. */
  lemma RatioTailKeyword(s: string, k: nat) returns (c: nat)
    requires RatioTail(s, k)
    ensures c <= |s| && Keyword(s, k, c) && DigitAfterSpaces(s, c)
  {
    c := if MatchesIgnoreCaseAt(s, k, "out of") && DigitAfterSpaces(s, k + 6) then k + 6 else k + 2;
  }

  /** `\b\d+\s*(?:out of|of)\s*\d+` matches `s[i..e]` with the pieces split at a, b, c, d. */
  predicate RatioSpan(s: string, i: nat, a: nat, b: nat, c: nat, d: nat, e: nat)
  {
    i < a <= b < c <= d < e <= |s| &&
    All(s, i, a, IsDigit) && All(s, a, b, IsSpace) && Keyword(s, b, c)
    && All(s, c, d, IsSpace) && All(s, d, e, IsDigit)
  }

  /** `\b\d+\s*(?:out of|of)\s*\d+` matches at `i`, for some split. */
  ghost predicate RatioMatch(s: string, i: nat)
  {
    i <= |s| && WordBoundary(s, i) &&
    exists a: nat, b: nat, c: nat, d: nat, e: nat :: RatioSpan(s, i, a, b, c, d, e)
  }

  lemma RatioAtIsMatch(s: string, i: nat)
    requires i <= |s|
    ensures RatioAt(s, i) <==> RatioMatch(s, i)
  {
    if RatioAt(s, i) {
      RatioAtGivesSpan(s, i);
    }
    if RatioMatch(s, i) {
      var a: nat, b: nat, c: nat, d: nat, e: nat :| RatioSpan(s, i, a, b, c, d, e);
      RatioSpanGivesAt(s, i, a, b, c, d, e);
    }
  }

  /** Either keyword starts with a letter, which is neither whitespace nor a digit. */
  lemma KeywordStart(s: string, b: nat, c: nat)
    requires Keyword(s, b, c)
    ensures b < |s| && !IsSpace(s[b]) && !IsDigit(s[b])
  {
    if MatchesIgnoreCaseAt(s, b, "out of") {
      assert FoldCase(s[b + 0]) == FoldCase("out of"[0]);
    } else {
      assert FoldCase(s[b + 0]) == FoldCase("of"[0]);
    }
  }

  /** The scanner's maximal runs split a ratio match. */
  lemma RatioAtGivesSpan(s: string, i: nat)
    requires RatioAt(s, i)
    ensures exists a: nat, b: nat, c: nat, d: nat, e: nat :: RatioSpan(s, i, a, b, c, d, e)
  {
    var a := RunEnd(s, i, IsDigit);
    var b := RunEnd(s, a, IsSpace);
    var c := RatioTailKeyword(s, b);
    RunsGiveSpan(s, i, a, b, c);
  }

  /** Maximal runs around a keyword at `b..c` followed by a digit form a ratio match. */
  lemma RunsGiveSpan(s: string, i: nat, a: nat, b: nat, c: nat)
    requires i < a <= b && c <= |s| && Keyword(s, b, c) && DigitAfterSpaces(s, c)
    requires All(s, i, a, IsDigit) && All(s, a, b, IsSpace)
    ensures exists a: nat, b: nat, c: nat, d: nat, e: nat :: RatioSpan(s, i, a, b, c, d, e)
  {
    var d := RunEnd(s, c, IsSpace);
    assert RatioSpan(s, i, a, b, c, d, d + 1);
  }

  /** Every split of a ratio match has its runs maximal, so the scanner finds it. */
  lemma RatioSpanGivesAt(s: string, i: nat, a: nat, b: nat, c: nat, d: nat, e: nat)
    requires RatioSpan(s, i, a, b, c, d, e) && WordBoundary(s, i)
    ensures RatioAt(s, i)
  {
    KeywordStart(s, b, c);
    if a < b {
      assert IsSpace(s[a]);
    }
    assert !IsDigit(s[a]);
    RunEndIsMaximal(s, i, a, IsDigit);
    RunEndIsMaximal(s, a, b, IsSpace);
    RunEndIsMaximal(s, c, d, IsSpace);
    assert IsDigit(s[d]);
  }
}
