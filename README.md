# DriftForce drift scorer, modelled in Dafny

DriftForce is a small web service. It checks an LLM's `response` to a `prompt`
for signs of hallucination. This project models the service's scoring core,
`detect_hallucination`, together with the helper that reads an API key from the
`Authorization` header (`parse_api_key`) and the e-mail check done by `register`.

`detect_hallucination` applies three rules in a fixed order. Each rule adds a
score increment and at most one issue:

1. **AI self-disclosure.** One of six phrases occurs in the response, in any
   letter case. Adds 0.35 and one `high` issue, however many phrases occur.
2. **Fake URL.** The response contains a URL the prompt does not. URLs are
   compared after dropping trailing `.,;:!?`. Adds 0.4 and one `critical`
   issue naming one such URL.
3. **Unsourced statistic.** A percentage, or else a ratio such as
   "3 out of 5", occurs in the response while the prompt has none of that
   kind. Adds 0.25 and one `medium` issue.

`drift_detected` is the unclamped sum compared with 0.3. `drift_score` is the
sum clamped to 1.0.

Layout:

- `wrappers.dfy` (`Wrappers`): `Option`.
- `text.dfy` (`Text`): characters and strings as Python sees them.
  - the `str.isspace` whitespace set;
  - ASCII `\d` and `\w`;
  - the case folding `re.IGNORECASE` applies to the literal phrases;
  - `str.strip` and `str.rstrip`.
- `patterns.dfy` (`Patterns`): the regular expressions of the rules.
  - The URL, percentage and ratio patterns are each written as a scanner that
    follows Python's greedy, left-to-right matching.
  - Each of these scanners is proved equal to a definition by decomposition,
    i.e. the language of the pattern.
  - The phrase search tries each position from left to right. It is proved to
    find a phrase exactly when the phrase occurs somewhere.
  - `re.findall` over URLs and the URL cleaning are also here.
- `drift.dfy` (`Drift`): the rules and the verdict.
  - Pure specification functions (`Analysis` and the per-rule functions).
  - One method per block of `detect_hallucination` (`CheckDisclosure`,
    `CheckUrls`, `CheckStats`) and `DetectHallucination`, which runs them in
    order. The disclosure and statistic blocks keep the source's loops with
    `break`. Each method is proved equal to the specification.
  - Lemmas about the verdict.
- `auth.dfy` (`Auth`): `parse_api_key` and the e-mail check.

Scores are integer hundredths: 0.35 is 35. Every sum of the increments is then
exact. In the source's floating point, the only non-zero sum below 0.3 is 0.25,
and all the other non-zero sums are at least 0.35, so `drift_detected` comes out the same.

## Model

| member | source | states |
|---|---|---|
| Drift.DetectHallucination | app.py:69-132 | The verdict equals `Analysis(prompt, response, url)` for some URL that may be reported. Such a URL is a new response URL, or any string when there is no new URL. |
| Drift.CheckDisclosure | app.py:74-91 | The phrase loop stops at the first phrase found. It yields 35 and the single "AI self-reference detected" issue exactly when some phrase occurs case-insensitively, and 0 and no issue otherwise. |
| Drift.CheckUrls | app.py:93-110 | Yields 40 and one `critical` issue naming a cleaned response URL outside the cleaned prompt URLs, exactly when such a URL exists. Otherwise it yields 0 and no issue. |
| Drift.CheckStats | app.py:112-126 | The family loop stops at the first family present in the response and absent from the prompt. It yields 25 and one "Unverifiable statistic" issue exactly when such a family exists. |
| Drift.Analysis | app.py:128-132 | The score is at most 1.0. Drift is detected exactly when the clamped score is at least 0.3. The score is 0 exactly when no issue is reported. |
| Drift.ScoreIsSumOfIssues | app.py:70-132 | The score is the clamped sum of the increments of the reported issues. Detection compares that unclamped sum with 0.3. Every issue carries its rule's severity. |
| Drift.IssuesInRuleOrder | app.py:83-126 | At most three issues are reported, strictly in rule order: disclosure, fake URL, statistic. |
| Drift.CountKindOfIssues | app.py:83-126 | Each rule contributes exactly one issue of its own kind when it fires, and none otherwise. |
| Drift.DisclosureRule | app.py:83-91 | There is one disclosure issue if and only if some phrase occurs in the response. The prompt plays no part. |
| Drift.FakeUrlRule | app.py:95-110 | There is one fake-URL issue if and only if the cleaned response URLs are not a subset of the cleaned prompt URLs. Its detail is "URL not in prompt: " followed by a cleaned URL of the response that is not in the prompt. |
| Drift.StatRule | app.py:113-126 | There is one statistic issue if and only if the percentage pattern, or else the ratio pattern, matches the response and not the prompt. |
| Drift.EmptyResponseIsClean | app.py:69-132 | An empty response yields no drift, score 0 and no issues, for any prompt. |
| Drift.DisclosureIsDetected | app.py:83-129 | Self-disclosure alone (0.35) is enough for drift to be detected. |
| Drift.StatAloneIsNotDetected | app.py:112-129 | Without disclosure and without new URLs the score is 0.25 or 0, and drift is not detected. |
| Drift.AllRulesFire | app.py:69-132 | When all three rules fire, the verdict is detected, with score exactly 1.0 and the three issues in rule order. |
| Drift.RepeatedUrlsAreNotFake | app.py:95-103 | A response whose URLs all occur in the prompt raises no fake-URL issue. |
| Drift.DisclosureIgnoresCase | app.py:84 | Two responses that differ only in letter case trigger the disclosure rule alike. |
| Drift.CheckWithDemoKeyIsDetected | tests/test_api.py:31-37 | Prompt "Q" with response "As an AI model, see https://example.com" is detected, whichever URL is reported. |
| Patterns.FindIgnoreCase | app.py:84 | The left-to-right search returns a position where the literal matches case-insensitively. No position before it matches. When it returns nothing, no position matches at all. |
| Patterns.SearchIgnoreCase | app.py:84 | `re.search` with `re.IGNORECASE` succeeds, i.e. the literal matches somewhere, exactly when the left-to-right search finds it. |
| Drift.HasAiDisclosure | app.py:83-84 | Some disclosure phrase occurs in the response exactly when the left-to-right search finds one of the six phrases. |
| Drift.HasStat | app.py:113-119 | A family's `findall` is non-empty exactly when its pattern, by decomposition, matches at some position of the text. |
| Drift.TotalIncrementOfIssues | app.py:83-126 | The increments of the reported issues add up to the unclamped score. |
| Drift.DisclosureIgnoresAsciiCase | app.py:84 | Lower-casing any of a response's ASCII capitals does not change the disclosure rule's outcome. |
| Patterns.SearchIgnoresCase | app.py:84 | A case-insensitive literal search gives the same answer on texts that differ only in letter case. |
| Patterns.RunEnd | app.py:94 | A greedy run ends at the first character outside the class, and everything before it is inside. |
| Patterns.UrlMatchAtIsLongest | app.py:94 | Where the URL scanner matches, it finds a span of the URL pattern. It matches wherever the pattern does, and never ends before any other match at that position. |
| Patterns.SpanIsUrl | app.py:94 | A span matched by the URL pattern, cut out of its text, is a URL on its own. |
| Patterns.UrlTokensFrom | app.py:95-96 | `findall` over the URL pattern, from a position on. Every token it returns is a URL. |
| Patterns.UrlTokens | app.py:95-96 | `findall` over the URL pattern on a whole text. Every token it returns is a URL. |
| Patterns.SchemeIsUrlChars | app.py:94 | The characters of `http://` and `https://` are themselves URL characters. |
| Patterns.DelimitedUrlFound | app.py:94-96 | Completeness of `findall`: a URL in the text, with no URL character just before or just after it, is returned as a token by the scan from any earlier position. |
| Patterns.DelimitedUrlIsCleaned | app.py:95-100 | Such a delimited URL, once stripped of trailing punctuation, is among the text's cleaned URLs. |
| Drift.UnseenUrlIsFake | app.py:95-110 | A delimited URL in the response whose cleaned form is not a cleaned prompt URL raises exactly one fake-URL issue. |
| Patterns.UrlMatchAt | app.py:94 | The URL match at a position, when there is one, ends after that position and within the text. |
| Patterns.NoSchemeNoUrls | app.py:95-96 | A text without the letter `h` yields no URL tokens. |
| Patterns.CleanUrl | app.py:99-100 | `rstrip('.,;:!?')` keeps a prefix. Everything dropped is that punctuation, and the remainder does not end in it. |
| Patterns.CleanUrlShape | app.py:99-100 | Stripping trailing `.,;:!?` from a URL keeps a prefix that still starts with its scheme and no longer ends in that punctuation. |
| Patterns.CleanIgnoresTrailingPunct | app.py:99-100 | Trailing punctuation appended to a URL does not change what it cleans to. |
| Patterns.CleanedUrls | app.py:99-100 | Every cleaned URL starts with `http://` or `https://` and does not end in `.,;:!?`. |
| Patterns.PercentAt | app.py:113 | A percentage match found by the scanner starts with a digit at a word boundary. |
| Patterns.PercentAtIsMatch | app.py:113 | The percentage scanner matches at a position exactly when `\b\d+(?:\.\d+)?%` does, for some split of the digits. |
| Patterns.PercentAtGivesMatch | app.py:113 | A scanner match of the percentage pattern is a decomposition match. |
| Patterns.PercentMatchGivesAt | app.py:113 | A decomposition match of the percentage pattern is found by the scanner. |
| Patterns.RatioAt | app.py:113 | A ratio match found by the scanner starts with a digit at a word boundary. |
| Patterns.RatioAtIsMatch | app.py:113 | The ratio scanner matches at a position exactly when `\b\d+\s*` followed by `out of` or `of`, then `\s*\d+`, does, for some split into digits, blanks, keyword, blanks and digits. |
| Patterns.RatioAtGivesSpan | app.py:113 | A scanner match of the ratio pattern yields a word boundary and a split into the five parts. |
| Patterns.RatioSpanGivesAt | app.py:113 | Any split of a ratio match at a word boundary is found by the scanner. |
| Text.FoldCase | app.py:84 | Case folding maps each ASCII capital to its own lower-case letter. Any other character it changes is one of U+0130, U+0131, U+017F or U+212A, and it maps onto `i`, `s` or `k`. |
| Text.FoldCaseIdempotent | app.py:84 | A folded character is its own fold. |
| Text.IsSpace | app.py:94 | Whitespace is never a word character. Within ASCII it is exactly space, tab, line feed, carriage return, vertical tab, form feed and the four separators U+001C to U+001F. |
| Text.TrimStart | app.py:143 | Leading whitespace is dropped: a suffix remains, everything dropped is whitespace, and the remainder does not start with whitespace. |
| Text.TrimEnd | app.py:99-100 | `rstrip(chars)` keeps a prefix. Everything dropped is in the set, and the remainder does not end in the set. |
| Text.Strip | app.py:143-145 | The result has no whitespace at either end. |
| Text.StripIsEmpty | app.py:143-149 | `strip()` is empty if and only if the input is all whitespace. |
| Text.StripIsSlice | app.py:143 | What `strip()` keeps is a contiguous slice of the input. |
| Text.StripDropsSpace | app.py:143 | Everything `strip()` drops on either side of that slice is whitespace. |
| Text.StripKeepsTrimmed | app.py:143 | A string with no whitespace at either end is its own `strip()`. |
| Auth.HasBearerPrefix | app.py:144 | A header with a bearer prefix has its first space at index 6. |
| Auth.AfterFirstSpace | app.py:145 | `split(" ", 1)[1]` is everything after a space that has no space before it. |
| Auth.FirstSpace | app.py:145 | The split point of `split(" ", 1)` holds the first space: no space comes before it. |
| Auth.HeaderKey | app.py:142-147 | The key a header names never has whitespace at either end. |
| Auth.ParseApiKey | app.py:135-152 | The key returned is never empty and never has whitespace at either end. |
| Auth.ApiKeyFallback | app.py:141-152 | An absent, empty or all-whitespace header gives the demo key `df_demo_key_123`. |
| Auth.BearerSplit | app.py:144-145 | After a `Bearer ` or `bearer ` prefix, `split(" ", 1)[1]` is the rest of the header. |
| Auth.BearerRest | app.py:144-145 | In a stripped header with a bearer prefix, what follows the prefix is not blank. |
| Auth.HeaderKeyStripsPrefix | app.py:142-147 | A non-blank header names its stripped text, less a bearer prefix and the whitespace after it. That key is never empty. |
| Auth.ApiKeyPrefixStripping | app.py:141-152 | A header with any non-whitespace yields exactly that key, and the demo key is never substituted. |
| Auth.BearerRoundTrip | app.py:138-145 | `Bearer <key>` or `bearer <key>` reads back as `key` for any key without surrounding whitespace. |
| Auth.BareKeyRoundTrip | app.py:138-147 | A bare key without surrounding whitespace or a bearer prefix reads back unchanged. |
| Auth.BearerDemoKeyHeader | tests/test_api.py:32 | The header `Bearer df_demo_key_123` selects the demo key. |
| Auth.CheckEmail | app.py:232-233 | An e-mail is rejected with status 400 and "Valid email required" exactly when it contains no `@`. This covers the empty e-mail. |

## Left out

- HTTP handling, the SQLite tables, `uuid`, `secrets`, timestamps, the metrics
  endpoints and the web UI are not modelled. The model covers only the pure
  logic they call.
- `register` is modelled only up to its e-mail check. Creating a key and
  handling a duplicate e-mail need the database.
- The `context` argument of the check request is never read by the scorer, so
  it is absent.
- Drift.DetectHallucination: which new URL is reported is left open. The source
  takes the first element of a Python set, and set order depends on string
  hashing. The model promises only that the reported URL is one of the new URLs.
- Drift.Analysis: scores are exact hundredths, not IEEE doubles. The values the
  source can produce are 0, 0.25, 0.35, 0.4, 0.6, 0.65, 0.75 and 1.0, and the
  0.3 comparison comes out the same.
- Text.IsDigit: `\d` and `\w` are ASCII only. Python's Unicode digits and
  letters (for example Arabic-Indic digits) are not modelled as digits or word
  characters.
- Text.FoldCase: only the folds that can affect the six phrases and the
  keywords `of` / `out of` are modelled: ASCII letters and the four non-ASCII
  letters that fold onto `i`, `s` and `k`. Other Unicode case pairs cannot
  match those ASCII literals.
- Patterns: `re.findall` is modelled as a list of tokens for URLs only. The
  statistic rules use only whether some match exists, so for them the model
  decides existence by trying every start position.
- Auth.ParseApiKey: an absent header and an empty header are treated alike.
  Both are falsy in the source and lead to the same fallback.
- `detect_hallucination` has no reference or year rule and no `evidence` /
  `recommendation` fields on issues; neither has the model.
