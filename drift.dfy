/**
 * The rule-based drift scorer: `detect_hallucination(prompt, response)`.
 *
 * Three rules run in a fixed order, each adding a score increment and at most one
 * issue: AI self-disclosure in the response, URLs of the response that the prompt
 * does not contain, and a statistic in the response of a kind the prompt has none of.
 * Scores are kept in hundredths (0.35 is 35), so the sums are exact.
 */
module Drift {

  import opened Text
  import opened Patterns

  datatype IssueType = AiDisclosure | FakeUrl | UnsourcedStat
  {
    /** The `type` string of the issue. */
    function Name(): string
    {
      match this
      case AiDisclosure => "ai_disclosure"
      case FakeUrl => "fake_url"
      case UnsourcedStat => "unsourced_stat"
    }

    /** The position of the rule that emits this issue. */
    function Rank(): nat
    {
      match this
      case AiDisclosure => 0
      case FakeUrl => 1
      case UnsourcedStat => 2
    }

    /** The score, in hundredths, that the rule adds when it fires. */
    function Increment(): nat
    {
      match this
      case AiDisclosure => 35
      case FakeUrl => 40
      case UnsourcedStat => 25
    }

    function Severity(): Severity
    {
      match this
      case AiDisclosure => High
      case FakeUrl => Critical
      case UnsourcedStat => Medium
    }
  }

  datatype Severity = Medium | High | Critical
  {
    /** The `severity` string of the issue. */
    function Name(): string
    {
      match this
      case Medium => "medium"
      case High => "high"
      case Critical => "critical"
    }
  }

  datatype Issue = Issue(kind: IssueType, severity: Severity, detail: string)

  /** The result: `drift_detected`, `drift_score` (hundredths) and `issues`. */
  datatype Verdict = Verdict(detected: bool, score: nat, issues: seq<Issue>)

  /** `drift_score` never exceeds 1.0. */
  const ScoreCap: nat := 100
  /** `drift_detected` is `score >= 0.3`. */
  const DetectionThreshold: nat := 30

  /** The AI self-disclosure patterns, tried in this order. */
  const AiPhrases: seq<string> := [
    "as an AI", "I'm an AI", "I am an AI", "language model", "I cannot browse",
    "I don't have access to"
  ]

  const UrlDetailPrefix := "URL not in prompt: "

  const DisclosureIssue := Issue(AiDisclosure, High, "AI self-reference detected")
  const StatIssue := Issue(UnsourcedStat, Medium, "Unverifiable statistic")

  function FakeUrlIssue(url: string): Issue
  {
    Issue(FakeUrl, Critical, UrlDetailPrefix + url)
  }

  datatype StatFamily = Percentage | Ratio

  /** The statistic pattern families, tried in this order. */
  const StatFamilies: seq<StatFamily> := [Percentage, Ratio]

  /**
   * `re.findall(<family pattern>, s, re.IGNORECASE)` is non-empty: the family's pattern
   * matches at some position.
   */
  predicate HasStat(family: StatFamily, s: string): (b: bool)
    ensures family == Percentage ==> (b <==> exists i | 0 <= i < |s| :: PercentMatch(s, i))
    ensures family == Ratio ==> (b <==> exists i | 0 <= i < |s| :: RatioMatch(s, i))
  {
    forall i | 0 <= i < |s|
      ensures (PercentAt(s, i) <==> PercentMatch(s, i)) && (RatioAt(s, i) <==> RatioMatch(s, i))
    {
      PercentAtIsMatch(s, i);
      RatioAtIsMatch(s, i);
    }
    match family
    case Percentage => exists i | 0 <= i < |s| :: PercentAt(s, i)
    case Ratio => exists i | 0 <= i < |s| :: RatioAt(s, i)
  }

  // ---------------------------------------------------------------------------
  // The rules, one by one

  /** Some disclosure phrase occurs in the response, in any letter case. */
  predicate HasAiDisclosure(response: string): (b: bool)
    ensures b <==> exists k | 0 <= k < |AiPhrases| :: FindIgnoreCase(response, AiPhrases[k], 0).Some?
  {
    exists k | 0 <= k < |AiPhrases| :: SearchIgnoreCase(response, AiPhrases[k])
  }

  /** The cleaned response URLs that are not cleaned prompt URLs. */
  function NewUrls(prompt: string, response: string): set<string>
  {
    CleanedUrls(response) - CleanedUrls(prompt)
  }

  /** Some statistic family matches in the response and not in the prompt. */
  predicate StatFires(prompt: string, response: string)
  {
    exists k | 0 <= k < |StatFamilies| ::
      HasStat(StatFamilies[k], response) && !HasStat(StatFamilies[k], prompt)
  }

  /** `url` may be the one named by a fake-URL issue: any new URL, when there is one. */
  predicate Reportable(prompt: string, response: string, url: string)
  {
    url in NewUrls(prompt, response) || NewUrls(prompt, response) == {}
  }

  function DisclosureIssues(response: string): seq<Issue>
  {
    if HasAiDisclosure(response) then [DisclosureIssue] else []
  }

  function UrlIssues(prompt: string, response: string, url: string): seq<Issue>
  {
    if NewUrls(prompt, response) != {} then [FakeUrlIssue(url)] else []
  }

  function StatIssues(prompt: string, response: string): seq<Issue>
  {
    if StatFires(prompt, response) then [StatIssue] else []
  }

  /** The issues of the three rules, in rule order; `url` is the new URL reported. */
  function Issues(prompt: string, response: string, url: string): seq<Issue>
  {
    DisclosureIssues(response) + UrlIssues(prompt, response, url) + StatIssues(prompt, response)
  }

  function DisclosureIncrement(response: string): nat
  {
    if HasAiDisclosure(response) then AiDisclosure.Increment() else 0
  }

  function UrlIncrement(prompt: string, response: string): nat
  {
    if NewUrls(prompt, response) != {} then FakeUrl.Increment() else 0
  }

  function StatIncrement(prompt: string, response: string): nat
  {
    if StatFires(prompt, response) then UnsourcedStat.Increment() else 0
  }

  /** The sum of the increments of the rules that fire, before clamping. */
  function RawScore(prompt: string, response: string): nat
  {
    DisclosureIncrement(response) + UrlIncrement(prompt, response) + StatIncrement(prompt, response)
  }

  function Min(a: nat, b: nat): nat
  {
    if a <= b then a else b
  }

  /**
   * The verdict `detect_hallucination` returns when the fake-URL issue names `url`.
   * `drift_detected` is computed from the unclamped sum and `drift_score` is clamped;
   * the two still agree with each other.
   */
  function Analysis(prompt: string, response: string, url: string): (v: Verdict)
    ensures v.score <= ScoreCap
    ensures v.detected <==> v.score >= DetectionThreshold
    ensures v.score == 0 <==> v.issues == []
  {
    var raw := RawScore(prompt, response);
    Verdict(raw >= DetectionThreshold, Min(raw, ScoreCap), Issues(prompt, response, url))
  }

  /** The AI self-disclosure block: the first phrase that occurs adds 0.35 and one issue. */
  method CheckDisclosure(response: string) returns (increment: nat, found: seq<Issue>)
    ensures increment == DisclosureIncrement(response)
    ensures found == DisclosureIssues(response)
  {
    increment, found := 0, [];
    for i := 0 to |AiPhrases|
      invariant increment == 0 && found == []
      invariant forall k | 0 <= k < i :: !SearchIgnoreCase(response, AiPhrases[k])
    {
      var hit := FindIgnoreCase(response, AiPhrases[i], 0);
      if hit.Some? {
        increment := increment + AiDisclosure.Increment();
        found := found + [DisclosureIssue];
        break;
      }
    }
  }

  /**
   * The fabricated-URL block: cleaned response URLs that are not cleaned prompt URLs
   * add 0.4 and one issue naming one of them (`url`, ghost: which one is unspecified).
   */
  method CheckUrls(prompt: string, response: string)
    returns (increment: nat, found: seq<Issue>, ghost url: string)
    ensures Reportable(prompt, response, url)
    ensures increment == UrlIncrement(prompt, response)
    ensures found == UrlIssues(prompt, response, url)
  {
    var responseUrls := CleanedUrls(response);
    var promptUrls := CleanedUrls(prompt);
    var newUrls := responseUrls - promptUrls;
    increment, found, url := 0, [], "";
    if newUrls != {} {
      increment := increment + FakeUrl.Increment();
      var reported :| reported in newUrls;
      url := reported;
      found := found + [FakeUrlIssue(reported)];
    }
  }

  /** The statistics block: the first family found in the response but not the prompt adds 0.25. */
  method CheckStats(prompt: string, response: string) returns (increment: nat, found: seq<Issue>)
    ensures increment == StatIncrement(prompt, response)
    ensures found == StatIssues(prompt, response)
  {
    increment, found := 0, [];
    for j := 0 to |StatFamilies|
      invariant increment == 0 && found == []
      invariant forall k | 0 <= k < j ::
        !(HasStat(StatFamilies[k], response) && !HasStat(StatFamilies[k], prompt))
    {
      var responseStats := HasStat(StatFamilies[j], response);
      var promptStats := HasStat(StatFamilies[j], prompt);
      if responseStats && !promptStats {
        increment := increment + UnsourcedStat.Increment();
        found := found + [StatIssue];
        break;
      }
    }
  }

  /** `detect_hallucination(prompt, response)`: the three rules in order, then the totals. */
  method DetectHallucination(prompt: string, response: string) returns (v: Verdict)
    ensures exists url :: Reportable(prompt, response, url) && v == Analysis(prompt, response, url)
  {
    var score: nat := 0;
    var issues: seq<Issue> := [];

    var increment, found := CheckDisclosure(response);
    score, issues := score + increment, issues + found;

    ghost var url;
    increment, found, url := CheckUrls(prompt, response);
    score, issues := score + increment, issues + found;

    increment, found := CheckStats(prompt, response);
    score, issues := score + increment, issues + found;

    v := Verdict(score >= DetectionThreshold, Min(score, ScoreCap), issues);
    assert v == Analysis(prompt, response, url);
  }

  // ---------------------------------------------------------------------------
  // Properties of the verdict

  /** How many issues of `kind` the list holds. */
  function CountKind(issues: seq<Issue>, kind: IssueType): nat
  {
    if issues == [] then 0
    else (if issues[0].kind == kind then 1 else 0) + CountKind(issues[1..], kind)
  }

  /** The sum of the increments of the rules that emitted the issues. */
  function TotalIncrement(issues: seq<Issue>): nat
  {
    if issues == [] then 0 else issues[0].kind.Increment() + TotalIncrement(issues[1..])
  }

  lemma {:induction false} CountKindAppend(a: seq<Issue>, b: seq<Issue>, kind: IssueType)
    ensures CountKind(a + b, kind) == CountKind(a, kind) + CountKind(b, kind)
  {
    if a == [] {
      assert a + b == b;
    } else {
      assert (a + b)[1..] == a[1..] + b;
      CountKindAppend(a[1..], b, kind);
    }
  }

  lemma {:induction false} TotalIncrementAppend(a: seq<Issue>, b: seq<Issue>)
    ensures TotalIncrement(a + b) == TotalIncrement(a) + TotalIncrement(b)
  {
    if a == [] {
      assert a + b == b;
    } else {
      assert (a + b)[1..] == a[1..] + b;
      TotalIncrementAppend(a[1..], b);
    }
  }

  /** The count of `kind` in the issue list is the sum over the three rules. */
  lemma CountKindOfIssues(prompt: string, response: string, url: string, kind: IssueType)
    ensures CountKind(Issues(prompt, response, url), kind)
      == (if HasAiDisclosure(response) && kind == AiDisclosure then 1 else 0)
       + (if NewUrls(prompt, response) != {} && kind == FakeUrl then 1 else 0)
       + (if StatFires(prompt, response) && kind == UnsourcedStat then 1 else 0)
  {
    var a, b, c := DisclosureIssues(response), UrlIssues(prompt, response, url), StatIssues(prompt, response);
    CountKindAppend(a + b, c, kind);
    CountKindAppend(a, b, kind);
  }

  /** The increments of the reported issues add up to the raw score. */
  lemma TotalIncrementOfIssues(prompt: string, response: string, url: string)
    ensures TotalIncrement(Issues(prompt, response, url)) == RawScore(prompt, response)
  {
    var a, b, c := DisclosureIssues(response), UrlIssues(prompt, response, url), StatIssues(prompt, response);
    TotalIncrementAppend(a + b, c);
    TotalIncrementAppend(a, b);
  }

  /**
   * The score is the clamped sum of the increments of the issues reported, one issue
   * per rule that fired, and each issue carries its rule's severity.
   */
  lemma ScoreIsSumOfIssues(prompt: string, response: string, url: string)
    ensures var v := Analysis(prompt, response, url);
      v.score == Min(TotalIncrement(v.issues), ScoreCap)
      && (v.detected <==> TotalIncrement(v.issues) >= DetectionThreshold)
      && forall i | 0 <= i < |v.issues| :: v.issues[i].severity == v.issues[i].kind.Severity()
  {
    TotalIncrementOfIssues(prompt, response, url);
  }

  /** At most three issues, in rule order: disclosure, then fake URL, then statistic. */
  lemma IssuesInRuleOrder(prompt: string, response: string, url: string)
    ensures var issues := Analysis(prompt, response, url).issues;
      |issues| <= 3
      && forall i, j | 0 <= i < j < |issues| :: issues[i].kind.Rank() < issues[j].kind.Rank()
  {
  }

  /**
   * The disclosure rule reports one issue exactly when some phrase occurs in the
   * response, however many do; the prompt plays no part.
   */
  lemma DisclosureRule(prompt: string, response: string, url: string)
    ensures CountKind(Analysis(prompt, response, url).issues, AiDisclosure)
      == if HasAiDisclosure(response) then 1 else 0
  {
    CountKindOfIssues(prompt, response, url, AiDisclosure);
  }

  /**
   * The fake-URL rule reports one issue exactly when some cleaned response URL is not
   * a cleaned prompt URL, and the URL it names is such a URL.
   */
  lemma FakeUrlRule(prompt: string, response: string, url: string)
    requires Reportable(prompt, response, url)
    ensures var issues := Analysis(prompt, response, url).issues;
      (CountKind(issues, FakeUrl) == if CleanedUrls(response) <= CleanedUrls(prompt) then 0 else 1)
      && forall i | 0 <= i < |issues| && issues[i].kind == FakeUrl ::
           issues[i].detail == UrlDetailPrefix + url && IsCleanUrl(url)
           && url in CleanedUrls(response) && url !in CleanedUrls(prompt)
  {
    CountKindOfIssues(prompt, response, url, FakeUrl);
    if !(CleanedUrls(response) <= CleanedUrls(prompt)) {
      var u :| u in CleanedUrls(response) && u !in CleanedUrls(prompt);
      assert u in NewUrls(prompt, response);
    }
  }

  /**
   * The statistic rule reports one issue exactly when the percentage family, or else
   * the ratio family, matches in the response and not in the prompt.
   */
  lemma StatRule(prompt: string, response: string, url: string)
    ensures CountKind(Analysis(prompt, response, url).issues, UnsourcedStat)
      == if (HasStat(Percentage, response) && !HasStat(Percentage, prompt))
            || (HasStat(Ratio, response) && !HasStat(Ratio, prompt)) then 1 else 0
  {
    CountKindOfIssues(prompt, response, url, UnsourcedStat);
    assert StatFamilies[0] == Percentage && StatFamilies[1] == Ratio;
  }

  /** An empty response raises nothing. */
  lemma EmptyResponseIsClean(prompt: string, url: string)
    ensures Analysis(prompt, "", url) == Verdict(false, 0, [])
  {
    assert UrlTokens("") == [];
  }

  /** Self-disclosure alone is enough for drift to be detected. */
  lemma DisclosureIsDetected(prompt: string, response: string, url: string)
    requires HasAiDisclosure(response)
    ensures Analysis(prompt, response, url).detected
  {
  }

  /** An unsourced statistic alone is not enough for drift to be detected. */
  lemma StatAloneIsNotDetected(prompt: string, response: string, url: string)
    requires !HasAiDisclosure(response) && CleanedUrls(response) <= CleanedUrls(prompt)
    ensures var v := Analysis(prompt, response, url);
      !v.detected && v.score == (if StatFires(prompt, response) then 25 else 0)
  {
    assert NewUrls(prompt, response) == {};
  }

  /** When all three rules fire the sum is exactly 1.0 and all three issues are reported. */
  lemma AllRulesFire(prompt: string, response: string, url: string)
    requires HasAiDisclosure(response) && StatFires(prompt, response)
    requires url in CleanedUrls(response) && url !in CleanedUrls(prompt)
    ensures Analysis(prompt, response, url)
      == Verdict(true, 100, [DisclosureIssue, FakeUrlIssue(url), StatIssue])
  {
    AllRulesIssues(prompt, response, url);
  }

  lemma AllRulesIssues(prompt: string, response: string, url: string)
    requires HasAiDisclosure(response) && StatFires(prompt, response)
    requires url in CleanedUrls(response) && url !in CleanedUrls(prompt)
    ensures RawScore(prompt, response) == 100
    ensures Issues(prompt, response, url) == [DisclosureIssue, FakeUrlIssue(url), StatIssue]
  {
    assert url in NewUrls(prompt, response);
    assert UrlIssues(prompt, response, url) == [FakeUrlIssue(url)];
    assert Issues(prompt, response, url) == [DisclosureIssue] + [FakeUrlIssue(url)] + [StatIssue];
  }

  /**
   * A URL standing delimited in the response whose cleaned form the prompt lacks
   * raises the fake-URL issue.
   */
  lemma UnseenUrlIsFake(prompt: string, response: string, url: string, j: nat, e: nat)
    requires UrlSpan(response, j, e)
    requires j == 0 || !IsUrlChar(response[j - 1])
    requires e == |response| || !IsUrlChar(response[e])
    requires CleanUrl(response[j..e]) !in CleanedUrls(prompt)
    ensures CountKind(Analysis(prompt, response, url).issues, FakeUrl) == 1
  {
    DelimitedUrlIsCleaned(response, j, e);
    CountKindOfIssues(prompt, response, url, FakeUrl);
    assert CleanUrl(response[j..e]) in NewUrls(prompt, response);
  }

  /** A response that repeats only the prompt's URLs raises no fake-URL issue. */
  lemma RepeatedUrlsAreNotFake(prompt: string, response: string, url: string)
    requires forall t | t in UrlTokens(response) :: t in UrlTokens(prompt)
    ensures CountKind(Analysis(prompt, response, url).issues, FakeUrl) == 0
  {
    CountKindOfIssues(prompt, response, url, FakeUrl);
    assert NewUrls(prompt, response) == {};
  }

  /** The disclosure rule does not depend on the letter case of the response. */
  lemma DisclosureIgnoresCase(response: string, other: string)
    requires |response| == |other|
    requires forall k | 0 <= k < |response| :: FoldCase(response[k]) == FoldCase(other[k])
    ensures HasAiDisclosure(response) == HasAiDisclosure(other)
  {
    forall k | 0 <= k < |AiPhrases|
      ensures SearchIgnoreCase(response, AiPhrases[k]) == SearchIgnoreCase(other, AiPhrases[k])
    {
      SearchIgnoresCase(response, other, AiPhrases[k]);
    }
  }

  /**
   * Lower-casing any ASCII capitals of the response does not change the disclosure
   * rule's outcome.
   */
  lemma DisclosureIgnoresAsciiCase(response: string, lowered: string)
    requires |response| == |lowered|
    requires forall k | 0 <= k < |response| ::
      lowered[k] == response[k]
      || ('A' <= response[k] <= 'Z' && lowered[k] as int == response[k] as int + 32)
    ensures HasAiDisclosure(response) == HasAiDisclosure(lowered)
  {
    forall k | 0 <= k < |response| ensures FoldCase(response[k]) == FoldCase(lowered[k]) {
      if lowered[k] != response[k] {
        assert 'a' <= lowered[k] <= 'z';
      }
    }
    DisclosureIgnoresCase(response, lowered);
  }

  /** The request made by the `/v1/check` test with the demo key is flagged. */
  lemma CheckWithDemoKeyIsDetected(url: string)
    ensures Analysis("Q", "As an AI model, see https://example.com", url).detected
  {
    var response := "As an AI model, see https://example.com";
    assert MatchesIgnoreCaseAt(response, 0, AiPhrases[0]);
    assert HasAiDisclosure(response);
  }
}
