/**
 * The content under review and the issues the agents report about it:
 * the `ContentType`, `IssueSeverity` and `IssueType` enumerations with their
 * string values, and the `Content` and `ReviewIssue` records with their
 * field defaults and the [0, 1] bound on an issue's confidence.
 */
module ContentModel {
  import opened Wrappers

  datatype ContentType = TEXT | CODE | MARKDOWN | HTML | SLIDE | PDF
  {
    function Value(): string {
      match this
      case TEXT => "text"
      case CODE => "code"
      case MARKDOWN => "markdown"
      case HTML => "html"
      case SLIDE => "slide"
      case PDF => "pdf"
    }
  }

  datatype IssueSeverity = CRITICAL | HIGH | MEDIUM | LOW | INFO
  {
    function Value(): string {
      match this
      case CRITICAL => "critical"
      case HIGH => "high"
      case MEDIUM => "medium"
      case LOW => "low"
      case INFO => "info"
    }
  }

  datatype IssueType = SPELLING | GRAMMAR | SYNTAX | COMPREHENSION | SOURCE | OUTDATED | DEPRECATED | TECHNICAL | FACTUAL
  {
    function Value(): string {
      match this
      case SPELLING => "spelling"
      case GRAMMAR => "grammar"
      case SYNTAX => "syntax"
      case COMPREHENSION => "comprehension"
      case SOURCE => "source"
      case OUTDATED => "outdated"
      case DEPRECATED => "deprecated"
      case TECHNICAL => "technical"
      case FACTUAL => "factual"
    }
  }

  const AllContentTypes: seq<ContentType> := [TEXT, CODE, MARKDOWN, HTML, SLIDE, PDF]
  const AllSeverities: seq<IssueSeverity> := [CRITICAL, HIGH, MEDIUM, LOW, INFO]
  const AllIssueTypes: seq<IssueType> :=
    [SPELLING, GRAMMAR, SYNTAX, COMPREHENSION, SOURCE, OUTDATED, DEPRECATED, TECHNICAL, FACTUAL]

  /** The enum lookup `ContentType(v)`: the member whose value is `v`, if any. */
  function ParseContentType(v: string): (r: Option<ContentType>)
    ensures r.Some? ==> r.value.Value() == v
    ensures forall t: ContentType :: t.Value() == v ==> r == Some(t)
  {
    if v == "text" then Some(TEXT)
    else if v == "code" then Some(CODE)
    else if v == "markdown" then Some(MARKDOWN)
    else if v == "html" then Some(HTML)
    else if v == "slide" then Some(SLIDE)
    else if v == "pdf" then Some(PDF)
    else None
  }

  /** `IssueSeverity(v)`. */
  function ParseSeverity(v: string): (r: Option<IssueSeverity>)
    ensures r.Some? ==> r.value.Value() == v
    ensures forall s: IssueSeverity :: s.Value() == v ==> r == Some(s)
  {
    if v == "critical" then Some(CRITICAL)
    else if v == "high" then Some(HIGH)
    else if v == "medium" then Some(MEDIUM)
    else if v == "low" then Some(LOW)
    else if v == "info" then Some(INFO)
    else None
  }

  /** `IssueType(v)`. */
  function ParseIssueType(v: string): (r: Option<IssueType>)
    ensures r.Some? ==> r.value.Value() == v
    ensures forall t: IssueType :: t.Value() == v ==> r == Some(t)
  {
    if v == "spelling" then Some(SPELLING)
    else if v == "grammar" then Some(GRAMMAR)
    else if v == "syntax" then Some(SYNTAX)
    else if v == "comprehension" then Some(COMPREHENSION)
    else if v == "source" then Some(SOURCE)
    else if v == "outdated" then Some(OUTDATED)
    else if v == "deprecated" then Some(DEPRECATED)
    else if v == "technical" then Some(TECHNICAL)
    else if v == "factual" then Some(FACTUAL)
    else None
  }

  /** There are exactly six content types, five severities and nine issue types, with distinct values. */
  lemma ClosedSets()
    ensures |AllContentTypes| == 6 && forall t: ContentType :: t in AllContentTypes
    ensures |AllSeverities| == 5 && forall s: IssueSeverity :: s in AllSeverities
    ensures |AllIssueTypes| == 9 && forall t: IssueType :: t in AllIssueTypes
    ensures forall i, j :: 0 <= i < j < |AllContentTypes| ==> AllContentTypes[i].Value() != AllContentTypes[j].Value()
    ensures forall i, j :: 0 <= i < j < |AllSeverities| ==> AllSeverities[i].Value() != AllSeverities[j].Value()
    ensures forall i, j :: 0 <= i < j < |AllIssueTypes| ==> AllIssueTypes[i].Value() != AllIssueTypes[j].Value()
  {
    forall t: ContentType ensures t in AllContentTypes {
      assert t == AllContentTypes[ContentTypeIndex(t)];
    }
    forall s: IssueSeverity ensures s in AllSeverities {
      assert s == AllSeverities[SeverityIndex(s)];
    }
    forall t: IssueType ensures t in AllIssueTypes {
      assert t == AllIssueTypes[IssueTypeIndex(t)];
    }
  }

  /** Declaration order of the enumerations. */
  function ContentTypeIndex(t: ContentType): nat {
    match t
    case TEXT => 0 case CODE => 1 case MARKDOWN => 2 case HTML => 3 case SLIDE => 4 case PDF => 5
  }

  function SeverityIndex(s: IssueSeverity): nat {
    match s
    case CRITICAL => 0 case HIGH => 1 case MEDIUM => 2 case LOW => 3 case INFO => 4
  }

  function IssueTypeIndex(t: IssueType): nat {
    match t
    case SPELLING => 0 case GRAMMAR => 1 case SYNTAX => 2 case COMPREHENSION => 3 case SOURCE => 4
    case OUTDATED => 5 case DEPRECATED => 6 case TECHNICAL => 7 case FACTUAL => 8
  }

  /** A confidence score: pydantic's `ge=0.0, le=1.0` on `ReviewIssue.confidence`. */
  type Confidence = r: real | 0.0 <= r <= 1.0 witness 1.0

  /**
   * Content to review. `metadata` is a free-form dictionary; its values are
   * modelled as strings. `content_id` has a generated default and `created_at`
   * is a clock reading, so neither has a default here.
   */
  datatype Content = Content(
    contentId: string,
    title: string,
    text: string,
    contentType: ContentType := TEXT,
    discipline: Option<string> := None,
    metadata: map<string, string> := map[])

  /** An issue found during review. The generated `issue_id` and `created_at` are not modelled. */
  datatype ReviewIssue = ReviewIssue(
    contentId: string,
    issueType: IssueType,
    severity: IssueSeverity,
    description: string,
    location: Option<string> := None,
    originalText: Option<string> := None,
    suggestedFix: Option<string> := None,
    sources: seq<string> := [],
    confidence: Confidence := 1.0,
    reviewedByAgent: Option<string> := None)

  /** What pydantic reports when a field fails validation. */
  datatype ValidationError = ConfidenceOutOfRange(given: real)

  /**
   * `ReviewIssue(...)` with a confidence that has not been checked yet: the
   * construction fails exactly when the confidence lies outside [0, 1].
   */
  function MakeIssue(
    contentId: string, issueType: IssueType, severity: IssueSeverity, description: string,
    location: Option<string>, originalText: Option<string>, suggestedFix: Option<string>,
    sources: seq<string>, confidence: real, reviewedByAgent: Option<string>): (r: Result<ReviewIssue, ValidationError>)
    ensures r.Success? <==> 0.0 <= confidence <= 1.0
    ensures r.Failure? ==> r.error == ConfidenceOutOfRange(confidence)
    ensures r.Success? ==>
      && r.value.contentId == contentId && r.value.issueType == issueType && r.value.severity == severity
      && r.value.description == description && r.value.location == location
      && r.value.originalText == originalText && r.value.suggestedFix == suggestedFix
      && r.value.sources == sources && r.value.confidence as real == confidence
      && r.value.reviewedByAgent == reviewedByAgent
  {
    if 0.0 <= confidence <= 1.0 then
      Success(ReviewIssue(contentId, issueType, severity, description, location, originalText,
                          suggestedFix, sources, confidence, reviewedByAgent))
    else Failure(ConfidenceOutOfRange(confidence))
  }

  /** A `Content` built from the required fields only has the documented defaults. */
  lemma ContentDefaults(contentId: string, title: string, text: string)
    ensures var c := Content(contentId, title, text);
      c.contentType == TEXT && c.discipline == None && c.metadata == map[]
  {
  }

  /** A `ReviewIssue` built from the required fields only has the documented defaults. */
  lemma ReviewIssueDefaults(contentId: string, issueType: IssueType, severity: IssueSeverity, description: string)
    ensures var i := ReviewIssue(contentId, issueType, severity, description);
      && i.location == None && i.originalText == None && i.suggestedFix == None
      && i.sources == [] && i.confidence == 1.0 && i.reviewedByAgent == None
  {
  }
}
