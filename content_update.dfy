/**
 * The rule-based content update agent: deprecated technologies named anywhere
 * in the lower-cased text, old version numbers (case-insensitive patterns),
 * four-digit years more than five years before the current year, and outdated
 * URL patterns. The current year is the clock reading the agent takes when it
 * is created; here it is a parameter.
 */
module ContentUpdate {
  import opened Wrappers
  import opened Text
  import opened Patterns
  import opened ContentModel

  const Name: string := "Content Update Agent"
  const Description: string := "Detects outdated technology references and deprecated APIs"

  /** One entry of the deprecated-technology table. */
  datatype Deprecation = Deprecation(tech: string, replacement: string, reason: string)

  /** The table, in its dictionary order. */
  const DeprecatedTech: seq<Deprecation> := [
    Deprecation("python 2", "Python 3", "Python 2 reached end-of-life in January 2020"),
    Deprecation("react.createclass", "React.Component or functional components with hooks",
                "React.createClass is deprecated since React 15.5"),
    Deprecation("jquery", "modern JavaScript (ES6+) or frameworks like React/Vue",
                "Modern browsers support native features that replace jQuery"),
    Deprecation("angular.js", "Angular (2+)", "AngularJS reached end-of-life in January 2022"),
    Deprecation("bower", "npm or yarn", "Bower is deprecated since 2017")]

  /** The version patterns (all matched ignoring case) and the technology each names. */
  const VersionRules: seq<(Pattern, string)> := [
    (OldPython, "Python 2"),
    (OldJava, "Java (old version)"),
    (OldNode, "Node.js (old version)"),
    (OldAngular, "AngularJS")]

  /** The URL patterns (matched with case) and what each says about the URL. */
  const UrlRules: seq<(Pattern, string)> := [
    (Literal("http://docs.python.org/2"), "Python 2 documentation"),
    (PlainHttp, "Non-HTTPS URL (security concern)"),
    (Literal("angularjs.org"), "AngularJS documentation (deprecated)")]

  // ------------------------------------------------------ deprecated technology

  /** `tech.lower() in text.lower()`. */
  predicate Mentions(text: string, d: Deprecation) {
    IsSubstring(Lower(d.tech), Lower(text))
  }

  function DeprecatedIssue(contentId: string, d: Deprecation): ReviewIssue {
    ReviewIssue(contentId, DEPRECATED, HIGH, "Deprecated technology: " + d.tech,
                originalText := Some(d.tech), suggestedFix := Some(d.replacement),
                sources := ["Reason: " + d.reason], confidence := 0.90)
  }

  /** The issues of the first `k` table entries, in table order. */
  function DeprecatedIssues(contentId: string, text: string, k: nat): seq<ReviewIssue>
    requires k <= |DeprecatedTech|
  {
    if k == 0 then []
    else
      var d := DeprecatedTech[k - 1];
      DeprecatedIssues(contentId, text, k - 1) + (if Mentions(text, d) then [DeprecatedIssue(contentId, d)] else [])
  }

  // ---------------------------------------------------------- old versions

  function VersionIssue(contentId: string, text: string, techName: string, span: Span): ReviewIssue
    requires span.start <= span.end <= |text|
  {
    ReviewIssue(contentId, OUTDATED, MEDIUM, "Old version reference: " + techName,
                location := Some("Position " + NatToString(span.start)),
                originalText := Some(text[span.start..span.end]),
                suggestedFix := Some("Update to latest version of " + techName), confidence := 0.85)
  }

  /** One issue per match of one version pattern, in match order. */
  function VersionRuleIssues(contentId: string, text: string, rule: (Pattern, string)): seq<ReviewIssue> {
    var m := Matches(rule.0, text);
    seq(|m|, i requires 0 <= i < |m| => VersionIssue(contentId, text, rule.1, m[i]))
  }

  /** The issues of the first `k` version patterns, pattern by pattern. */
  function VersionIssues(contentId: string, text: string, k: nat): seq<ReviewIssue>
    requires k <= |VersionRules|
  {
    if k == 0 then [] else VersionIssues(contentId, text, k - 1) + VersionRuleIssues(contentId, text, VersionRules[k - 1])
  }

  // ---------------------------------------------------------- outdated dates

  /** `int(match.group())` for a span of the year pattern. */
  function YearOf(text: string, m: Span): nat
    requires m.start <= m.end <= |text| && AllDigits(text[m.start..m.end])
  {
    DigitsValue(text[m.start..m.end])
  }

  /** The date check flags a year more than five years before the current year. */
  predicate IsOld(text: string, currentYear: int, m: Span)
    requires m.start <= m.end <= |text| && AllDigits(text[m.start..m.end])
  {
    currentYear - YearOf(text, m) > 5
  }

  function DateIssue(contentId: string, text: string, currentYear: int, m: Span): ReviewIssue
    requires m.start <= m.end <= |text| && AllDigits(text[m.start..m.end]) && IsOld(text, currentYear, m)
  {
    var year := YearOf(text, m);
    var yearsOld: nat := currentYear - year;
    ReviewIssue(contentId, OUTDATED, if yearsOld < 10 then LOW else MEDIUM,
                "Reference to " + NatToString(year) + " is " + NatToString(yearsOld) + " years old",
                location := Some("Position " + NatToString(m.start)),
                originalText := Some(text[m.start..m.end]),
                suggestedFix := Some("Consider updating statistics or examples from " + NatToString(year)),
                confidence := 0.70)
  }

  /** Spans of the year pattern: digit runs inside the text. */
  predicate YearSpans(text: string, spans: seq<Span>) {
    forall i :: 0 <= i < |spans| ==> spans[i].start <= spans[i].end <= |text| && AllDigits(text[spans[i].start..spans[i].end])
  }

  /** One issue per old year among `spans`, in order. */
  function DateIssuesOf(contentId: string, text: string, currentYear: int, spans: seq<Span>): seq<ReviewIssue>
    requires YearSpans(text, spans)
  {
    if spans == [] then []
    else
      var m := spans[|spans| - 1];
      DateIssuesOf(contentId, text, currentYear, spans[..|spans| - 1])
        + (if IsOld(text, currentYear, m) then [DateIssue(contentId, text, currentYear, m)] else [])
  }

  function DateIssues(contentId: string, text: string, currentYear: int): seq<ReviewIssue> {
    YearMatches(text);
    DateIssuesOf(contentId, text, currentYear, Matches(Year, text))
  }

  // ---------------------------------------------------------- outdated URLs

  function UrlIssue(contentId: string, text: string, description: string, span: Span): ReviewIssue
    requires span.start <= span.end <= |text|
  {
    ReviewIssue(contentId, OUTDATED, MEDIUM, "Outdated URL: " + description,
                originalText := Some(text[span.start..span.end]),
                suggestedFix := Some("Update to current documentation URL"), confidence := 0.85)
  }

  function UrlRuleIssues(contentId: string, text: string, rule: (Pattern, string)): seq<ReviewIssue> {
    var m := Matches(rule.0, text);
    seq(|m|, i requires 0 <= i < |m| => UrlIssue(contentId, text, rule.1, m[i]))
  }

  function UrlIssues(contentId: string, text: string, k: nat): seq<ReviewIssue>
    requires k <= |UrlRules|
  {
    if k == 0 then [] else UrlIssues(contentId, text, k - 1) + UrlRuleIssues(contentId, text, UrlRules[k - 1])
  }

  /** What the agent reports: deprecated technologies, old versions, old dates, then outdated URLs. */
  function ReviewSpec(c: Content, currentYear: int): seq<ReviewIssue> {
    DeprecatedIssues(c.contentId, c.text, |DeprecatedTech|)
      + VersionIssues(c.contentId, c.text, |VersionRules|)
      + DateIssues(c.contentId, c.text, currentYear)
      + UrlIssues(c.contentId, c.text, |UrlRules|)
  }

  // ----------------------------------------------------------------- methods

  /** `_check_deprecated_tech`. */
  method CheckDeprecatedTech(c: Content) returns (issues: seq<ReviewIssue>)
    ensures issues == DeprecatedIssues(c.contentId, c.text, |DeprecatedTech|)
  {
    issues := [];
    var textLower := Lower(c.text);
    for k := 0 to |DeprecatedTech|
      invariant issues == DeprecatedIssues(c.contentId, c.text, k)
    {
      var d := DeprecatedTech[k];
      if IsSubstring(Lower(d.tech), textLower) {
        issues := issues + [DeprecatedIssue(c.contentId, d)];
      }
    }
  }

  /** `_check_old_versions`. */
  method CheckOldVersions(c: Content) returns (issues: seq<ReviewIssue>)
    ensures issues == VersionIssues(c.contentId, c.text, |VersionRules|)
  {
    issues := [];
    for k := 0 to |VersionRules|
      invariant issues == VersionIssues(c.contentId, c.text, k)
    {
      var rule := VersionRules[k];
      var matches := Matches(rule.0, c.text);
      ghost var before := issues;
      for j := 0 to |matches|
        invariant issues == before + VersionRuleIssues(c.contentId, c.text, rule)[..j]
      {
        VersionRuleStep(c.contentId, c.text, rule, j);
        issues := issues + [VersionIssue(c.contentId, c.text, rule.1, matches[j])];
      }
      VersionIssuesStep(c.contentId, c.text, k);
    }
  }

  lemma VersionRuleStep(contentId: string, text: string, rule: (Pattern, string), j: nat)
    requires j < |Matches(rule.0, text)|
    ensures VersionRuleIssues(contentId, text, rule)[..j + 1]
      == VersionRuleIssues(contentId, text, rule)[..j] + [VersionIssue(contentId, text, rule.1, Matches(rule.0, text)[j])]
  {
    var r := VersionRuleIssues(contentId, text, rule);
    assert r[..j + 1] == r[..j] + [r[j]];
  }

  lemma VersionIssuesStep(contentId: string, text: string, k: nat)
    requires k < |VersionRules|
    ensures VersionIssues(contentId, text, k + 1)
      == VersionIssues(contentId, text, k)
         + VersionRuleIssues(contentId, text, VersionRules[k])[..|Matches(VersionRules[k].0, text)|]
  {
    var r := VersionRuleIssues(contentId, text, VersionRules[k]);
    assert r[..|r|] == r;
  }

  /** `_check_outdated_dates`. */
  method CheckOutdatedDates(c: Content, currentYear: int) returns (issues: seq<ReviewIssue>)
    ensures issues == DateIssues(c.contentId, c.text, currentYear)
  {
    issues := [];
    var years := Matches(Year, c.text);
    YearMatches(c.text);
    for i := 0 to |years|
      invariant YearSpans(c.text, years[..i])
      invariant issues == DateIssuesOf(c.contentId, c.text, currentYear, years[..i])
    {
      DateIssuesStep(c.contentId, c.text, currentYear, years, i);
      var m := years[i];
      var year := DigitsValue(c.text[m.start..m.end]);
      var yearsOld := currentYear - year;
      if yearsOld > 5 {
        issues := issues + [DateIssue(c.contentId, c.text, currentYear, m)];
      }
    }
    assert years[..|years|] == years;
  }

  /** One more span of the year pattern adds its issue, if it is old, at the end. */
  lemma DateIssuesStep(contentId: string, text: string, currentYear: int, spans: seq<Span>, i: nat)
    requires YearSpans(text, spans) && i < |spans|
    ensures YearSpans(text, spans[..i]) && YearSpans(text, spans[..i + 1])
    ensures DateIssuesOf(contentId, text, currentYear, spans[..i + 1])
      == DateIssuesOf(contentId, text, currentYear, spans[..i])
         + (if IsOld(text, currentYear, spans[i]) then [DateIssue(contentId, text, currentYear, spans[i])] else [])
  {
    assert spans[..i + 1][..i] == spans[..i];
  }

  /** `_check_outdated_urls`. */
  method CheckOutdatedUrls(c: Content) returns (issues: seq<ReviewIssue>)
    ensures issues == UrlIssues(c.contentId, c.text, |UrlRules|)
  {
    issues := [];
    for k := 0 to |UrlRules|
      invariant issues == UrlIssues(c.contentId, c.text, k)
    {
      var rule := UrlRules[k];
      var matches := Matches(rule.0, c.text);
      ghost var before := issues;
      for j := 0 to |matches|
        invariant issues == before + UrlRuleIssues(c.contentId, c.text, rule)[..j]
      {
        UrlRuleStep(c.contentId, c.text, rule, j);
        issues := issues + [UrlIssue(c.contentId, c.text, rule.1, matches[j])];
      }
      UrlIssuesStep(c.contentId, c.text, k);
    }
  }

  lemma UrlRuleStep(contentId: string, text: string, rule: (Pattern, string), j: nat)
    requires j < |Matches(rule.0, text)|
    ensures UrlRuleIssues(contentId, text, rule)[..j + 1]
      == UrlRuleIssues(contentId, text, rule)[..j] + [UrlIssue(contentId, text, rule.1, Matches(rule.0, text)[j])]
  {
    var r := UrlRuleIssues(contentId, text, rule);
    assert r[..j + 1] == r[..j] + [r[j]];
  }

  lemma UrlIssuesStep(contentId: string, text: string, k: nat)
    requires k < |UrlRules|
    ensures UrlIssues(contentId, text, k + 1)
      == UrlIssues(contentId, text, k) + UrlRuleIssues(contentId, text, UrlRules[k])[..|Matches(UrlRules[k].0, text)|]
  {
    var r := UrlRuleIssues(contentId, text, UrlRules[k]);
    assert r[..|r|] == r;
  }

  /** `review`: the four checks' issues, in order. */
  method Review(c: Content, currentYear: int) returns (issues: seq<ReviewIssue>)
    ensures issues == ReviewSpec(c, currentYear)
  {
    var deprecated := CheckDeprecatedTech(c);
    var versions := CheckOldVersions(c);
    var dates := CheckOutdatedDates(c, currentYear);
    var urls := CheckOutdatedUrls(c);
    issues := deprecated + versions + dates + urls;
  }

  // ------------------------------------------------------------------ lemmas

  /** The table's technologies are distinct. */
  lemma DistinctTechs()
    ensures forall i, j :: 0 <= i < j < |DeprecatedTech| ==> DeprecatedTech[i].tech != DeprecatedTech[j].tech
  {
  }

  /**
   * A deprecated technology is reported exactly when the lower-cased text
   * mentions it, and every deprecated issue comes from one such entry.
   */
  lemma {:induction false} DeprecatedIssuesExact(contentId: string, text: string, k: nat)
    requires k <= |DeprecatedTech|
    ensures forall i :: 0 <= i < k ==>
      (DeprecatedIssue(contentId, DeprecatedTech[i]) in DeprecatedIssues(contentId, text, k) <==> Mentions(text, DeprecatedTech[i]))
    ensures forall x | x in DeprecatedIssues(contentId, text, k) ::
      exists i :: 0 <= i < k && Mentions(text, DeprecatedTech[i]) && x == DeprecatedIssue(contentId, DeprecatedTech[i])
  {
    if k > 0 {
      DeprecatedIssuesExact(contentId, text, k - 1);
      DistinctTechs();
    }
  }

  /** Each technology is reported at most once: the issues name pairwise different technologies. */
  lemma {:induction false} DeprecatedIssuesOncePerTech(contentId: string, text: string, k: nat)
    requires k <= |DeprecatedTech|
    ensures forall i, j :: 0 <= i < j < |DeprecatedIssues(contentId, text, k)| ==>
      DeprecatedIssues(contentId, text, k)[i].originalText != DeprecatedIssues(contentId, text, k)[j].originalText
  {
    if k > 0 {
      DeprecatedIssuesOncePerTech(contentId, text, k - 1);
      DeprecatedIssuesExact(contentId, text, k - 1);
      DistinctTechs();
      var prev := DeprecatedIssues(contentId, text, k - 1);
      forall x | x in prev ensures x.originalText != Some(DeprecatedTech[k - 1].tech) {
        var i :| 0 <= i < k - 1 && x == DeprecatedIssue(contentId, DeprecatedTech[i]);
      }
    }
  }

  /** The deprecated-technology check looks at the lower-cased text only, so case does not matter. */
  lemma DeprecatedIgnoresCase(contentId: string, s: string, t: string)
    requires SameIgnoringCase(s, t)
    ensures DeprecatedIssues(contentId, s, |DeprecatedTech|) == DeprecatedIssues(contentId, t, |DeprecatedTech|)
  {
    SameIgnoringCaseLower(s, t);
    DeprecatedSameLower(contentId, s, t, |DeprecatedTech|);
  }

  lemma {:induction false} DeprecatedSameLower(contentId: string, s: string, t: string, k: nat)
    requires k <= |DeprecatedTech| && Lower(s) == Lower(t)
    ensures DeprecatedIssues(contentId, s, k) == DeprecatedIssues(contentId, t, k)
  {
    if k > 0 {
      DeprecatedSameLower(contentId, s, t, k - 1);
    }
  }

  /**
   * The version patterns ignore case: a text and its lower-cased form give
   * issues at the same positions with the same messages, their original
   * texts differing only in case.
   */
  lemma VersionIssuesIgnoreCase(contentId: string, text: string, k: nat)
    requires k <= |VersionRules|
    ensures |VersionIssues(contentId, text, k)| == |VersionIssues(contentId, Lower(text), k)|
    ensures forall i :: 0 <= i < |VersionIssues(contentId, text, k)| ==>
      var x := VersionIssues(contentId, text, k)[i];
      var y := VersionIssues(contentId, Lower(text), k)[i];
      && x.location == y.location && x.description == y.description && x.suggestedFix == y.suggestedFix
      && x.originalText.Some? && y.originalText == Some(Lower(x.originalText.value))
  {
    if k > 0 {
      VersionIssuesIgnoreCase(contentId, text, k - 1);
      VersionRuleIgnoresCase(contentId, text, VersionRules[k - 1]);
    }
  }

  lemma VersionRuleIgnoresCase(contentId: string, text: string, rule: (Pattern, string))
    requires IgnoresCase(rule.0)
    ensures |VersionRuleIssues(contentId, text, rule)| == |VersionRuleIssues(contentId, Lower(text), rule)|
    ensures forall i :: 0 <= i < |VersionRuleIssues(contentId, text, rule)| ==>
      var x := VersionRuleIssues(contentId, text, rule)[i];
      var y := VersionRuleIssues(contentId, Lower(text), rule)[i];
      && x.location == y.location && x.description == y.description && x.suggestedFix == y.suggestedFix
      && x.originalText.Some? && y.originalText == Some(Lower(x.originalText.value))
  {
    MatchesLower(rule.0, text);
    var m := Matches(rule.0, text);
    forall i | 0 <= i < |m| ensures Lower(text)[m[i].start..m[i].end] == Lower(text[m[i].start..m[i].end]) {
      LowerSlice(text, m[i].start, m[i].end);
    }
  }

  lemma LowerSlice(s: string, a: nat, b: nat)
    requires a <= b <= |s|
    ensures Lower(s)[a..b] == Lower(s[a..b])
  {
  }

  /**
   * The date check reports exactly the years the year pattern finds that are
   * more than five years old: every such year gives its issue, and every date
   * issue is the issue of such a year.
   */
  lemma {:induction false} DateIssuesExact(contentId: string, text: string, currentYear: int, spans: seq<Span>)
    requires YearSpans(text, spans)
    ensures forall i :: 0 <= i < |spans| && IsOld(text, currentYear, spans[i]) ==>
      DateIssue(contentId, text, currentYear, spans[i]) in DateIssuesOf(contentId, text, currentYear, spans)
    ensures forall x | x in DateIssuesOf(contentId, text, currentYear, spans) ::
      exists i :: 0 <= i < |spans| && IsOld(text, currentYear, spans[i]) && x == DateIssue(contentId, text, currentYear, spans[i])
  {
    if spans != [] {
      var init := spans[..|spans| - 1];
      DateIssuesExact(contentId, text, currentYear, init);
      forall i | 0 <= i < |init| ensures init[i] == spans[i] { }
    }
  }

  /** Every span of the year pattern is four digits from 1900 to 2022. */
  lemma YearMatches(text: string)
    ensures YearSpans(text, Matches(Year, text))
    ensures forall i :: 0 <= i < |Matches(Year, text)| ==>
      var m := Matches(Year, text)[i];
      m.end == m.start + 4 && 1900 <= YearOf(text, m) <= 2022
  {
    FindAllAreMatches(Year, text, 0);
  }

  /**
   * Severity of a date issue: low for a year six to nine years old, medium for
   * an older one; a year at most five years old is never reported.
   */
  lemma DateSeverity(contentId: string, text: string, currentYear: int, x: ReviewIssue)
    requires x in DateIssues(contentId, text, currentYear)
    ensures exists m ::
      && m in Matches(Year, text) && m.start <= m.end <= |text| && AllDigits(text[m.start..m.end])
      && 1900 <= YearOf(text, m) <= 2022 && currentYear - YearOf(text, m) > 5
      && x.severity == (if currentYear - YearOf(text, m) < 10 then LOW else MEDIUM)
      && x.location == Some("Position " + NatToString(m.start))
  {
    var spans := Matches(Year, text);
    YearMatches(text);
    DateIssuesExact(contentId, text, currentYear, spans);
    var i :| 0 <= i < |spans| && IsOld(text, currentYear, spans[i]) && x == DateIssue(contentId, text, currentYear, spans[i]);
    assert spans[i] in spans;
  }

  /** Before 1906 no year the pattern accepts is old enough to report. */
  lemma NoDateIssuesBefore1906(contentId: string, text: string, currentYear: int)
    requires currentYear <= 1905
    ensures DateIssues(contentId, text, currentYear) == []
  {
    YearMatches(text);
    NoOldYears(contentId, text, currentYear, Matches(Year, text));
  }

  lemma {:induction false} NoOldYears(contentId: string, text: string, currentYear: int, spans: seq<Span>)
    requires YearSpans(text, spans) && currentYear <= 1905
    requires forall i :: 0 <= i < |spans| ==> 1900 <= YearOf(text, spans[i])
    ensures DateIssuesOf(contentId, text, currentYear, spans) == []
  {
    if spans != [] {
      NoOldYears(contentId, text, currentYear, spans[..|spans| - 1]);
    }
  }

  /** An `http://` is matched only where no other match of the non-HTTPS pattern overlaps it. */
  lemma PlainHttpMatchedAt(text: string, p: nat)
    requires p < |text| && At(text, p, "http://") && !At(text, p + 7, "https")
    ensures Span(p, p + 7) in Matches(PlainHttp, text)
  {
    var r := Matches(PlainHttp, text);
    FindAllCovers(PlainHttp, text, 0, p);
    FindAllAreMatches(PlainHttp, text, 0);
    var i :| 0 <= i < |r| && r[i].start <= p < r[i].end;
    var q := r[i].start;
    HttpDoesNotOverlap(text, q, p);
  }

  /** Two occurrences of `http://` never overlap. */
  lemma HttpDoesNotOverlap(text: string, q: nat, p: nat)
    requires q <= p < q + 7 && At(text, q, "http://") && At(text, p, "http://")
    ensures q == p
  {
    assert text[p..p + 7][0] == text[p];
    assert forall d :: q < d < q + 7 ==> text[d] == text[q..q + 7][d - q];
  }

  /** A link to the Python 2 documentation is reported twice: as such and as a non-HTTPS URL. */
  lemma PythonDocsAlsoNotHttps(contentId: string, text: string, p: nat)
    requires At(text, p, "http://docs.python.org/2")
    ensures UrlIssue(contentId, text, "Non-HTTPS URL (security concern)", Span(p, p + 7)) in UrlIssues(contentId, text, |UrlRules|)
  {
    assert text[p..p + 7] == text[p..p + 24][..7];
    assert text[p + 7] == text[p..p + 24][7] == 'd';
    PlainHttpMatchedAt(text, p);
    var m := Matches(PlainHttp, text);
    var i :| 0 <= i < |m| && m[i] == Span(p, p + 7);
    var r := UrlRuleIssues(contentId, text, UrlRules[1]);
    assert r[i] in r;
    assert UrlIssues(contentId, text, 3) == UrlIssues(contentId, text, 1) + r + UrlRuleIssues(contentId, text, UrlRules[2]);
  }

  /** Deprecated issues are high, all others outdated with medium or low severity. */
  lemma ReviewKinds(c: Content, currentYear: int)
    ensures forall x | x in ReviewSpec(c, currentYear) ::
      || (x.issueType == DEPRECATED && x.severity == HIGH)
      || (x.issueType == OUTDATED && (x.severity == MEDIUM || x.severity == LOW))
  {
    DeprecatedKinds(c.contentId, c.text, |DeprecatedTech|);
    VersionKinds(c.contentId, c.text, |VersionRules|);
    YearMatches(c.text);
    DateKinds(c.contentId, c.text, currentYear, Matches(Year, c.text));
    UrlKinds(c.contentId, c.text, |UrlRules|);
  }

  lemma {:induction false} DeprecatedKinds(contentId: string, text: string, k: nat)
    requires k <= |DeprecatedTech|
    ensures forall x | x in DeprecatedIssues(contentId, text, k) :: x.issueType == DEPRECATED && x.severity == HIGH
  {
    if k > 0 {
      DeprecatedKinds(contentId, text, k - 1);
    }
  }

  lemma {:induction false} VersionKinds(contentId: string, text: string, k: nat)
    requires k <= |VersionRules|
    ensures forall x | x in VersionIssues(contentId, text, k) :: x.issueType == OUTDATED && x.severity == MEDIUM
  {
    if k > 0 {
      VersionKinds(contentId, text, k - 1);
    }
  }

  lemma {:induction false} DateKinds(contentId: string, text: string, currentYear: int, spans: seq<Span>)
    requires YearSpans(text, spans)
    ensures forall x | x in DateIssuesOf(contentId, text, currentYear, spans) ::
      x.issueType == OUTDATED && (x.severity == MEDIUM || x.severity == LOW)
  {
    if spans != [] {
      DateKinds(contentId, text, currentYear, spans[..|spans| - 1]);
    }
  }

  lemma {:induction false} UrlKinds(contentId: string, text: string, k: nat)
    requires k <= |UrlRules|
    ensures forall x | x in UrlIssues(contentId, text, k) :: x.issueType == OUTDATED && x.severity == MEDIUM
  {
    if k > 0 {
      UrlKinds(contentId, text, k - 1);
    }
  }
}
