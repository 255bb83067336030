/**
 * The review service: it runs the agents a review type calls for, collects
 * their issues in a fixed order, and fills in a `ReviewResult` with the
 * summary, the recommendations and the quality score computed from those
 * issues, or marks it failed when an agent raises.
 *
 * The two AI agents (comprehension and source verification) call an external
 * model; their outcome on the content, a list of issues or the message of the
 * exception they raised, is an input here. The two rule-based agents are the
 * `ErrorDetection` and `ContentUpdate` models.
 */
module ReviewService {
  import opened Wrappers
  import opened Text
  import opened Seqs
  import opened ContentModel
  import opened ReviewResultModel
  import ErrorDetection
  import ContentUpdate

  // ----------------------------------------------------------------- summary

  const NoIssuesSummary: string := "No issues found. Content looks good!"

  predicate IsMedium(i: ReviewIssue) {
    i.severity == MEDIUM
  }

  predicate IsLow(i: ReviewIssue) {
    i.severity == LOW
  }

  /** `f"{n} {word}"` when `n` is non-zero, nothing otherwise. */
  function CountPart(n: nat, word: string): (r: seq<string>)
    ensures n == 0 <==> r == []
    ensures n > 0 ==> r == [NatToString(n) + " " + word]
  {
    if n > 0 then [NatToString(n) + " " + word] else []
  }

  /** The non-zero severity counts, in the order critical, high, medium, low. */
  function SeverityParts(issues: seq<ReviewIssue>): (parts: seq<string>)
    ensures |parts| <= 4
    ensures Count(issues, IsCritical) > 0 ==> NatToString(Count(issues, IsCritical)) + " critical" in parts
    ensures Count(issues, IsHigh) > 0 ==> NatToString(Count(issues, IsHigh)) + " high" in parts
    ensures Count(issues, IsMedium) > 0 ==> NatToString(Count(issues, IsMedium)) + " medium" in parts
    ensures Count(issues, IsLow) > 0 ==> NatToString(Count(issues, IsLow)) + " low" in parts
    ensures parts == [] <==> forall x | x in issues :: x.severity == INFO
    ensures parts == CountPart(Count(issues, IsCritical), "critical") + CountPart(Count(issues, IsHigh), "high")
                     + CountPart(Count(issues, IsMedium), "medium") + CountPart(Count(issues, IsLow), "low")
  {
    CountsAllZero(issues);
    var c := CountPart(Count(issues, IsCritical), "critical");
    var h := CountPart(Count(issues, IsHigh), "high");
    var m := CountPart(Count(issues, IsMedium), "medium");
    var l := CountPart(Count(issues, IsLow), "low");
    var parts := c + h + m + l;
    assert forall p | p in c || p in h || p in m || p in l :: p in parts;
    assert forall n: nat :: NatToString(n) + " " + "critical" == NatToString(n) + " critical";
    assert forall n: nat :: NatToString(n) + " " + "high" == NatToString(n) + " high";
    assert forall n: nat :: NatToString(n) + " " + "medium" == NatToString(n) + " medium";
    assert forall n: nat :: NatToString(n) + " " + "low" == NatToString(n) + " low";
    parts
  }

  /** `_generate_summary`. */
  function Summary(issues: seq<ReviewIssue>): (r: string)
    ensures r == NoIssuesSummary <==> issues == []
    ensures issues != [] ==> r == "Found " + NatToString(|issues|) + " issue(s): " + Join(SeverityParts(issues), ", ")
  {
    if issues == [] then NoIssuesSummary
    else
      var r := "Found " + NatToString(|issues|) + " issue(s): " + Join(SeverityParts(issues), ", ");
      assert r[0] != NoIssuesSummary[0];
      r
  }

  // --------------------------------------------------------- recommendations

  const SpellingAdvice: string := "Consider running a spell checker before publishing"
  const ComplexityAdvice: string :=
    "Content may be too complex. Consider simplifying language and breaking up long sentences"
  const CitationAdvice: string := "Add citations and references from trusted sources"
  const UpdateAdvice: string := "Update references to current versions and technologies"
  const GoodOverall: string := "Content quality is good overall"

  /** How many issues have type `t`. */
  function CountType(issues: seq<ReviewIssue>, t: IssueType): (n: nat)
    ensures n <= |issues|
  {
    if issues == [] then 0
    else CountType(issues[..|issues| - 1], t) + (if issues[|issues| - 1].issueType == t then 1 else 0)
  }

  /** The threshold messages that fire, in their fixed order. */
  function Advice(issues: seq<ReviewIssue>): seq<string> {
    (if CountType(issues, SPELLING) > 3 then [SpellingAdvice] else [])
      + (if CountType(issues, IssueType.COMPREHENSION) > 5 then [ComplexityAdvice] else [])
      + (if CountType(issues, SOURCE) > 2 then [CitationAdvice] else [])
      + (if CountType(issues, OUTDATED) > 0 then [UpdateAdvice] else [])
  }

  /** What `_generate_recommendations` returns: the messages that fire, or the one message that none did. */
  function Recommendations(issues: seq<ReviewIssue>): seq<string> {
    var a := Advice(issues);
    if a == [] then [GoodOverall] else a
  }

  /** `dict.get(key, 0)`. */
  function Get(counts: map<string, nat>, key: string): nat {
    if key in counts then counts[key] else 0
  }

  /** `_generate_recommendations`: count the issues per type value, then test the thresholds. */
  method GenerateRecommendations(issues: seq<ReviewIssue>) returns (recommendations: seq<string>)
    ensures recommendations == Recommendations(issues)
  {
    recommendations := [];
    var issueTypes: map<string, nat> := map[];
    for i := 0 to |issues|
      invariant forall t: IssueType :: Get(issueTypes, t.Value()) == CountType(issues[..i], t)
    {
      assert issues[..i + 1][..i] == issues[..i];
      var issueType := issues[i].issueType.Value();
      issueTypes := issueTypes[issueType := Get(issueTypes, issueType) + 1];
      forall t: IssueType ensures Get(issueTypes, t.Value()) == CountType(issues[..i + 1], t) {
        IssueTypeValueInjective(t, issues[i].issueType);
      }
    }
    assert issues[..|issues|] == issues;
    if Get(issueTypes, SPELLING.Value()) > 3 {
      recommendations := recommendations + [SpellingAdvice];
    }
    if Get(issueTypes, IssueType.COMPREHENSION.Value()) > 5 {
      recommendations := recommendations + [ComplexityAdvice];
    }
    if Get(issueTypes, SOURCE.Value()) > 2 {
      recommendations := recommendations + [CitationAdvice];
    }
    if Get(issueTypes, OUTDATED.Value()) > 0 {
      recommendations := recommendations + [UpdateAdvice];
    }
    if recommendations == [] {
      recommendations := recommendations + [GoodOverall];
    }
  }

  // ----------------------------------------------------------- quality score

  /** Points deducted for one issue: 10, 5, 2 and 1 for critical, high, medium and low; none for info. */
  function Penalty(i: ReviewIssue): nat {
    match i.severity
    case CRITICAL => 10
    case HIGH => 5
    case MEDIUM => 2
    case LOW => 1
    case INFO => 0
  }

  /** What `_calculate_quality_score` returns: 0 for empty text, else 100 less the penalties, floored at 0. */
  function QualityScore(content: Content, issues: seq<ReviewIssue>): Score {
    if content.text == [] then 0
    else
      var s := 100 - Sum(issues, Penalty);
      if s < 0 then 0 else s
  }

  /** `_calculate_quality_score`. */
  method CalculateQualityScore(content: Content, issues: seq<ReviewIssue>) returns (score: Score)
    ensures score == QualityScore(content, issues)
  {
    if content.text == [] {
      return 0;
    }
    var s := 100;
    for i := 0 to |issues|
      invariant s == 100 - Sum(issues[..i], Penalty)
    {
      assert issues[..i + 1][..i] == issues[..i];
      var severity := issues[i].severity.Value();
      if severity == "critical" {
        s := s - 10;
      } else if severity == "high" {
        s := s - 5;
      } else if severity == "medium" {
        s := s - 2;
      } else if severity == "low" {
        s := s - 1;
      }
    }
    assert issues[..|issues|] == issues;
    score := if s < 0 then 0 else s;
  }

  // --------------------------------------------------------- review_content

  /**
   * What each agent does with the content: the issues it reports, or, for the
   * AI agents, possibly the message of the exception it raises. The rule-based
   * agents never raise.
   */
  datatype AgentOutcomes = AgentOutcomes(
    errors: seq<ReviewIssue>,
    comprehension: Result<seq<ReviewIssue>, string>,
    source: Result<seq<ReviewIssue>, string>,
    updates: seq<ReviewIssue>)

  /** The outcomes for one content: the rule-based agents' reports and the AI agents' given outcomes. */
  function Outcomes(content: Content, currentYear: int, comprehension: Result<seq<ReviewIssue>, string>,
                    source: Result<seq<ReviewIssue>, string>): AgentOutcomes {
    AgentOutcomes(ErrorDetection.ReviewSpec(content), comprehension, source,
                  ContentUpdate.ReviewSpec(content, currentYear))
  }

  /**
   * The issues the agents a review type calls for report, or the message of
   * the first exception raised. A full review runs error detection,
   * comprehension, source verification and content update, in that order.
   */
  function Dispatch(reviewType: ReviewType, o: AgentOutcomes): Result<seq<ReviewIssue>, string> {
    match reviewType
    case FULL_REVIEW =>
      if o.comprehension.Failure? then Failure(o.comprehension.error)
      else if o.source.Failure? then Failure(o.source.error)
      else Success(o.errors + o.comprehension.value + o.source.value + o.updates)
    case ERROR_DETECTION => Success(o.errors)
    case COMPREHENSION => o.comprehension
    case SOURCE_VERIFICATION => o.source
    case CONTENT_UPDATE => Success(o.updates)
  }

  /** The branches of `review_content` before the results are stored, over the agents' outcomes. */
  method DispatchAgents(reviewType: ReviewType, o: AgentOutcomes) returns (outcome: Result<seq<ReviewIssue>, string>)
    ensures outcome == Dispatch(reviewType, o)
  {
    var issues: seq<ReviewIssue> := [];
    match reviewType {
      case FULL_REVIEW =>
        issues := issues + o.errors;
        if o.comprehension.Failure? {
          return Failure(o.comprehension.error);
        }
        issues := issues + o.comprehension.value;
        if o.source.Failure? {
          return Failure(o.source.error);
        }
        issues := issues + o.source.value;
        issues := issues + o.updates;
        assert issues == o.errors + o.comprehension.value + o.source.value + o.updates;
      case ERROR_DETECTION =>
        issues := issues + o.errors;
        assert issues == o.errors;
      case COMPREHENSION =>
        if o.comprehension.Failure? {
          return Failure(o.comprehension.error);
        }
        issues := issues + o.comprehension.value;
        assert issues == o.comprehension.value;
      case SOURCE_VERIFICATION =>
        if o.source.Failure? {
          return Failure(o.source.error);
        }
        issues := issues + o.source.value;
        assert issues == o.source.value;
      case CONTENT_UPDATE =>
        issues := issues + o.updates;
        assert issues == o.updates;
    }
    return Success(issues);
  }

  /**
   * The agent calls of `review_content`: a rule-based agent runs only when the
   * review type calls for it.
   */
  method RunReviewAgents(content: Content, reviewType: ReviewType, currentYear: int,
                         comprehension: Result<seq<ReviewIssue>, string>,
                         source: Result<seq<ReviewIssue>, string>) returns (outcome: Result<seq<ReviewIssue>, string>)
    ensures outcome == Dispatch(reviewType, Outcomes(content, currentYear, comprehension, source))
  {
    var errors: seq<ReviewIssue> := [];
    if reviewType == FULL_REVIEW || reviewType == ERROR_DETECTION {
      errors := ErrorDetection.Review(content);
    }
    var updates: seq<ReviewIssue> := [];
    if reviewType == FULL_REVIEW || reviewType == CONTENT_UPDATE {
      updates := ContentUpdate.Review(content, currentYear);
    }
    outcome := DispatchAgents(reviewType, AgentOutcomes(errors, comprehension, source, updates));
  }

  /**
   * `review_content`. The generated review id and the clock readings for
   * `created_at` and `completed_at` are parameters, and so is the update
   * agent's current year. Issues, summary, recommendations and score are
   * stored only once every agent has finished, so a failed review keeps the
   * defaults for all of them.
   */
  method ReviewContent(content: Content, reviewType: ReviewType, reviewId: string, createdAt: int,
                       completedAt: int, currentYear: int,
                       comprehension: Result<seq<ReviewIssue>, string>,
                       source: Result<seq<ReviewIssue>, string>) returns (result: ReviewResult)
    ensures fresh(result)
    ensures result.reviewId == reviewId && result.contentId == content.contentId
    ensures result.reviewType == reviewType && result.createdAt == createdAt && result.metadata == map[]
    ensures var outcome := Dispatch(reviewType, Outcomes(content, currentYear, comprehension, source));
      if outcome.Success? then
        && result.status == COMPLETED && result.issues == outcome.value
        && result.summary == Summary(outcome.value)
        && result.recommendations == Recommendations(outcome.value)
        && result.qualityScore == Some(QualityScore(content, outcome.value))
        && result.completedAt == Some(completedAt)
      else
        && result.status == FAILED && result.summary == "Review failed: " + outcome.error
        && result.issues == [] && result.recommendations == [] && result.qualityScore == None
        && result.completedAt == None
  {
    result := new ReviewResult(reviewId, content.contentId, reviewType, createdAt, IN_PROGRESS);
    var outcome := RunReviewAgents(content, reviewType, currentYear, comprehension, source);
    StoreOutcome(result, content, completedAt, outcome);
  }

  /** The end of `review_content`: a completed review stores the issues and what is derived from them; a failed one only the message. */
  method StoreOutcome(result: ReviewResult, content: Content, completedAt: int,
                      outcome: Result<seq<ReviewIssue>, string>)
    requires result.issues == [] && result.recommendations == [] && result.qualityScore == None
    requires result.completedAt == None
    modifies result
    ensures result.reviewId == old(result.reviewId) && result.contentId == old(result.contentId)
    ensures result.reviewType == old(result.reviewType) && result.createdAt == old(result.createdAt)
    ensures result.metadata == old(result.metadata)
    ensures if outcome.Success? then
        && result.status == COMPLETED && result.issues == outcome.value
        && result.summary == Summary(outcome.value)
        && result.recommendations == Recommendations(outcome.value)
        && result.qualityScore == Some(QualityScore(content, outcome.value))
        && result.completedAt == Some(completedAt)
      else
        && result.status == FAILED && result.summary == "Review failed: " + outcome.error
        && result.issues == [] && result.recommendations == [] && result.qualityScore == None
        && result.completedAt == None
  {
    if outcome.Success? {
      var issues := outcome.value;
      var recommendations := GenerateRecommendations(issues);
      var score := CalculateQualityScore(content, issues);
      StoreCompleted(result, issues, Summary(issues), recommendations, score, completedAt);
    } else {
      result.status := FAILED;
      result.summary := "Review failed: " + outcome.error;
    }
  }

  /** The success path of `review_content`: the issues, their summary, recommendations and score, then the completion. */
  method StoreCompleted(result: ReviewResult, issues: seq<ReviewIssue>, summary: string, recommendations: seq<string>,
                        score: Score, completedAt: int)
    modifies result
    ensures result.reviewId == old(result.reviewId) && result.contentId == old(result.contentId)
    ensures result.reviewType == old(result.reviewType) && result.createdAt == old(result.createdAt)
    ensures result.metadata == old(result.metadata)
    ensures result.status == COMPLETED && result.issues == issues && result.summary == summary
    ensures result.recommendations == recommendations && result.qualityScore == Some(score)
    ensures result.completedAt == Some(completedAt)
  {
    result.issues := issues;
    result.summary := summary;
    result.recommendations := recommendations;
    result.qualityScore := Some(score);
    result.status := COMPLETED;
    result.completedAt := Some(completedAt);
  }

  // ----------------------------------------------------------- agent info

  /** One entry of `get_agent_info`. */
  datatype AgentInfo = AgentInfo(name: string, description: string, reviewType: string)

  const ComprehensionAgentName: string := "Comprehension Improvement Agent"
  const ComprehensionAgentDescription: string :=
    "Analyzes content clarity and suggests improvements for easier understanding"
  const SourceAgentName: string := "Source Verification Agent"
  const SourceAgentDescription: string := "Verifies sources, citations, and references in content"

  /** `get_agent_info()["agents"]`. */
  function Agents(): seq<AgentInfo> {
    [AgentInfo(ErrorDetection.Name, ErrorDetection.Description, ReviewType.ERROR_DETECTION.Value()),
     AgentInfo(ComprehensionAgentName, ComprehensionAgentDescription, ReviewType.COMPREHENSION.Value()),
     AgentInfo(SourceAgentName, SourceAgentDescription, ReviewType.SOURCE_VERIFICATION.Value()),
     AgentInfo(ContentUpdate.Name, ContentUpdate.Description, ReviewType.CONTENT_UPDATE.Value())]
  }

  // ------------------------------------------------------------------ lemmas

  lemma IssueTypeValueInjective(a: IssueType, b: IssueType)
    ensures a.Value() == b.Value() ==> a == b
  {
  }

  lemma {:induction false} CountsAllZero(issues: seq<ReviewIssue>)
    ensures (Count(issues, IsCritical) == 0 && Count(issues, IsHigh) == 0 && Count(issues, IsMedium) == 0
             && Count(issues, IsLow) == 0) <==> forall x | x in issues :: x.severity == INFO
  {
    if issues != [] {
      var init := issues[..|issues| - 1];
      CountsAllZero(init);
      assert issues == init + [issues[|issues| - 1]];
    }
  }

  /** There are four agents: error detection, comprehension, source verification and content update. */
  lemma AgentsListed()
    ensures |Agents()| == 4
    ensures Agents()[0].reviewType == "error_detection" && Agents()[1].reviewType == "comprehension"
    ensures Agents()[2].reviewType == "source_verification" && Agents()[3].reviewType == "content_update"
    ensures forall i, j :: 0 <= i < j < 4 ==> Agents()[i].name != Agents()[j].name
  {
  }

  /** A full review's issues are the four agents' outputs, concatenated in the order error, comprehension, source, update. */
  lemma FullReviewOrder(o: AgentOutcomes)
    requires o.comprehension.Success? && o.source.Success?
    ensures Dispatch(FULL_REVIEW, o).Success?
    ensures var r := Dispatch(FULL_REVIEW, o).value;
      var e := |o.errors|;
      var c := |o.comprehension.value|;
      var s := |o.source.value|;
      && |r| == e + c + s + |o.updates|
      && r[..e] == o.errors && r[e..e + c] == o.comprehension.value
      && r[e + c..e + c + s] == o.source.value && r[e + c + s..] == o.updates
  {
  }

  /** A single review type runs its one agent only: what the other agents do makes no difference. */
  lemma SingleTypeRunsOneAgent(reviewType: ReviewType, o: AgentOutcomes, p: AgentOutcomes)
    requires reviewType != FULL_REVIEW
    ensures reviewType == ERROR_DETECTION ==> Dispatch(reviewType, o) == Success(o.errors)
    ensures reviewType == CONTENT_UPDATE ==> Dispatch(reviewType, o) == Success(o.updates)
    ensures reviewType == ReviewType.COMPREHENSION ==> Dispatch(reviewType, o) == o.comprehension
    ensures reviewType == SOURCE_VERIFICATION ==> Dispatch(reviewType, o) == o.source
    ensures (reviewType == ERROR_DETECTION && o.errors == p.errors)
         || (reviewType == ReviewType.COMPREHENSION && o.comprehension == p.comprehension)
         || (reviewType == SOURCE_VERIFICATION && o.source == p.source)
         || (reviewType == CONTENT_UPDATE && o.updates == p.updates)
         ==> Dispatch(reviewType, o) == Dispatch(reviewType, p)
  {
  }

  /** A full review fails exactly when an AI agent raises, with the message of the first one that does. */
  lemma FullReviewFailure(o: AgentOutcomes)
    ensures var r := Dispatch(FULL_REVIEW, o);
      && (r.Failure? <==> o.comprehension.Failure? || o.source.Failure?)
      && (o.comprehension.Failure? ==> r == Failure(o.comprehension.error))
      && (o.comprehension.Success? && o.source.Failure? ==> r == Failure(o.source.error))
  {
  }

  /** The summary does not depend on the order of the issues. */
  lemma SummaryOrderFree(a: seq<ReviewIssue>, b: seq<ReviewIssue>)
    requires multiset(a) == multiset(b)
    ensures Summary(a) == Summary(b)
  {
    assert |a| == |multiset(a)| == |multiset(b)| == |b|;
    CountPermutation(a, b, IsCritical);
    CountPermutation(a, b, IsHigh);
    CountPermutation(a, b, IsMedium);
    CountPermutation(a, b, IsLow);
  }

  /** Info issues are counted in the total but have no severity part, so an all-info list ends in an empty list of counts. */
  lemma SummaryAllInfo(issues: seq<ReviewIssue>)
    requires issues != [] && forall x | x in issues :: x.severity == INFO
    ensures Summary(issues) == "Found " + NatToString(|issues|) + " issue(s): "
  {
  }

  /** Two critical issues and a low one. */
  lemma SummaryExample(x: ReviewIssue, y: ReviewIssue, z: ReviewIssue)
    requires x.severity == CRITICAL && y.severity == LOW && z.severity == CRITICAL
    ensures Summary([x, y, z]) == "Found " + "3" + " issue(s): " + ("2 critical" + ", " + "1 low")
  {
    ExampleSeverityParts(x, y, z);
    JoinTwo("2 critical", "1 low", ", ");
    assert NatToString(3) == "3";
  }

  lemma ExampleSeverityParts(x: ReviewIssue, y: ReviewIssue, z: ReviewIssue)
    requires x.severity == CRITICAL && y.severity == LOW && z.severity == CRITICAL
    ensures SeverityParts([x, y, z]) == ["2 critical", "1 low"]
  {
    ExampleCounts(x, y, z);
    ExampleParts();
  }

  lemma ExampleCounts(x: ReviewIssue, y: ReviewIssue, z: ReviewIssue)
    requires x.severity == CRITICAL && y.severity == LOW && z.severity == CRITICAL
    ensures var s := [x, y, z];
      Count(s, IsCritical) == 2 && Count(s, IsHigh) == 0 && Count(s, IsMedium) == 0 && Count(s, IsLow) == 1
  {
    var s := [x, y, z];
    assert s[..2] == [x, y] && [x, y][..1] == [x] && [x][..0] == [];
    assert Count([x], IsCritical) == 1 && Count([x], IsHigh) == 0 && Count([x], IsMedium) == 0 && Count([x], IsLow) == 0;
    assert Count([x, y], IsCritical) == 1 && Count([x, y], IsHigh) == 0 && Count([x, y], IsMedium) == 0 && Count([x, y], IsLow) == 1;
  }

  lemma ExampleParts()
    ensures CountPart(2, "critical") + CountPart(0, "high") + CountPart(0, "medium") + CountPart(1, "low")
         == ["2 critical", "1 low"]
  {
    assert NatToString(2) == "2" && NatToString(1) == "1";
    assert "2" + " " + "critical" == "2 critical";
    assert "1" + " " + "low" == "1 low";
  }

  /** The recommendations are never empty, and "good overall" is given exactly when no threshold fired, alone. */
  lemma RecommendationsShape(issues: seq<ReviewIssue>)
    ensures |Recommendations(issues)| >= 1
    ensures GoodOverall in Recommendations(issues) <==>
      CountType(issues, SPELLING) <= 3 && CountType(issues, IssueType.COMPREHENSION) <= 5
      && CountType(issues, SOURCE) <= 2 && CountType(issues, OUTDATED) == 0
    ensures GoodOverall in Recommendations(issues) ==> Recommendations(issues) == [GoodOverall]
  {
  }

  /** Each threshold message is given exactly when its count exceeds the threshold. */
  lemma RecommendationThresholds(issues: seq<ReviewIssue>)
    ensures SpellingAdvice in Recommendations(issues) <==> CountType(issues, SPELLING) > 3
    ensures ComplexityAdvice in Recommendations(issues) <==> CountType(issues, IssueType.COMPREHENSION) > 5
    ensures CitationAdvice in Recommendations(issues) <==> CountType(issues, SOURCE) > 2
    ensures UpdateAdvice in Recommendations(issues) <==> CountType(issues, OUTDATED) > 0
  {
  }

  /** Deprecated, grammar, syntax, technical and factual issues never change the recommendations. */
  lemma RecommendationsIgnoreOtherTypes(issues: seq<ReviewIssue>, x: ReviewIssue)
    requires x.issueType !in {SPELLING, IssueType.COMPREHENSION, SOURCE, OUTDATED}
    ensures Recommendations(issues + [x]) == Recommendations(issues)
  {
    assert (issues + [x])[..|issues|] == issues;
  }

  lemma {:induction false} CountTypeAppend(a: seq<ReviewIssue>, b: seq<ReviewIssue>, t: IssueType)
    ensures CountType(a + b, t) == CountType(a, t) + CountType(b, t)
    decreases |b|
  {
    if b == [] {
      assert a + b == a;
    } else {
      assert (a + b)[..|a + b| - 1] == a + b[..|b| - 1];
      CountTypeAppend(a, b[..|b| - 1], t);
    }
  }

  /** The recommendations do not depend on the order of the issues. */
  lemma RecommendationsOrderFree(a: seq<ReviewIssue>, b: seq<ReviewIssue>)
    requires multiset(a) == multiset(b)
    ensures Recommendations(a) == Recommendations(b)
  {
    forall t: IssueType ensures CountType(a, t) == CountType(b, t) {
      CountTypePermutation(a, b, t);
    }
  }

  lemma {:induction false} CountTypePermutation(a: seq<ReviewIssue>, b: seq<ReviewIssue>, t: IssueType)
    requires multiset(a) == multiset(b)
    ensures CountType(a, t) == CountType(b, t)
    decreases |a|
  {
    if a == [] {
      assert |b| == |multiset(b)| == 0;
    } else {
      var x := a[|a| - 1];
      assert x in multiset(b);
      var j :| 0 <= j < |b| && b[j] == x;
      MultisetRemove(a, b, j);
      CountTypePermutation(a[..|a| - 1], b[..j] + b[j + 1..], t);
      CountTypeRemove(b, j, t);
    }
  }

  /** Taking one issue out of a list lowers its type's count by one and leaves the others. */
  lemma CountTypeRemove(b: seq<ReviewIssue>, j: nat, t: IssueType)
    requires j < |b|
    ensures CountType(b, t) == CountType(b[..j] + b[j + 1..], t) + (if b[j].issueType == t then 1 else 0)
  {
    var x := b[j];
    SplitAt(b, j);
    CountTypeAppend(b[..j] + [x], b[j + 1..], t);
    CountTypeAppend(b[..j], [x], t);
    CountTypeAppend(b[..j], b[j + 1..], t);
    assert [x][..0] == [];
  }

  /** Empty text scores 0 whatever the issues. */
  lemma EmptyTextScoresZero(content: Content, issues: seq<ReviewIssue>)
    requires content.text == ""
    ensures QualityScore(content, issues) == 0
  {
  }

  /** With text, the score is 100 less 10, 5, 2 and 1 per critical, high, medium and low issue, floored at 0. */
  lemma {:induction false} ScoreByCounts(content: Content, issues: seq<ReviewIssue>)
    requires content.text != ""
    ensures var d := 10 * Count(issues, IsCritical) + 5 * Count(issues, IsHigh)
                     + 2 * Count(issues, IsMedium) + Count(issues, IsLow);
      QualityScore(content, issues) == if d > 100 then 0 else 100 - d
  {
    PenaltyByCounts(issues);
  }

  lemma {:induction false} PenaltyByCounts(issues: seq<ReviewIssue>)
    ensures Sum(issues, Penalty) == 10 * Count(issues, IsCritical) + 5 * Count(issues, IsHigh)
                                   + 2 * Count(issues, IsMedium) + Count(issues, IsLow)
  {
    if issues != [] {
      PenaltyByCounts(issues[..|issues| - 1]);
    }
  }

  /** Info issues cost nothing. */
  lemma InfoIsFree(content: Content, issues: seq<ReviewIssue>, x: ReviewIssue)
    requires x.severity == INFO
    ensures QualityScore(content, issues + [x]) == QualityScore(content, issues)
  {
    assert (issues + [x])[..|issues|] == issues;
  }

  /** Adding issues never raises the score. */
  lemma ScoreMonotone(content: Content, a: seq<ReviewIssue>, b: seq<ReviewIssue>)
    ensures QualityScore(content, a + b) <= QualityScore(content, a)
  {
    SumAppend(a, b, Penalty);
  }

  /** The score does not depend on the order of the issues. */
  lemma ScoreOrderFree(content: Content, a: seq<ReviewIssue>, b: seq<ReviewIssue>)
    requires multiset(a) == multiset(b)
    ensures QualityScore(content, a) == QualityScore(content, b)
  {
    SumPermutation(a, b, Penalty);
  }
}
