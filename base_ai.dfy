/**
 * The shared part of the AI-backed review agents: the prompt sent to the
 * model, the handling of an empty reply, and the normaliser that turns the
 * model's untrusted issue records into `ReviewIssue`s. The model call and the
 * JSON validation of its reply are supplied by the caller as functions.
 */
module BaseAI {
  import opened Wrappers
  import opened Text
  import opened Seqs
  import opened ContentModel

  /** The default `google_model_name` setting. */
  const ModelName: string := "gemini-2.5-flash"

  /** An AI agent: its name, description and system prompt, fixed at construction. */
  datatype AIAgent = AIAgent(name: string, description: string, systemPrompt: string)

  /** One issue as the model reports it (the `AIReviewIssue` schema); every string is untrusted. */
  datatype AIIssue = AIIssue(
    kind: string,
    severity: string,
    description: string,
    originalText: Option<string> := None,
    suggestedFix: Option<string> := None,
    confidence: real := 0.85,
    sources: Option<seq<string>> := None)

  /** The type whitelist, keyed by lower-cased type name. */
  const TypeMap: map<string, IssueType> := map[
    "spelling" := SPELLING, "grammar" := GRAMMAR, "syntax" := SYNTAX,
    "comprehension" := COMPREHENSION, "source" := SOURCE,
    "outdated" := OUTDATED, "deprecated" := DEPRECATED]

  /** The severity whitelist, keyed by lower-cased severity name. */
  const SeverityMap: map<string, IssueSeverity> := map[
    "critical" := CRITICAL, "high" := HIGH, "medium" := MEDIUM, "low" := LOW]

  /**
   * `issue_type_map.get(kind.lower(), IssueType.TECHNICAL)`: the issue type
   * whose value is the lower-cased string, unless that type is TECHNICAL or
   * FACTUAL or there is none, in which case TECHNICAL.
   */
  function MapIssueType(kind: string): (r: IssueType)
    ensures var p := ParseIssueType(Lower(kind));
      r == if p.Some? && p.value != TECHNICAL && p.value != FACTUAL then p.value else TECHNICAL
  {
    var k := Lower(kind);
    if k in TypeMap then TypeMap[k] else TECHNICAL
  }

  /**
   * `severity_map.get(severity.lower(), IssueSeverity.MEDIUM)`: the severity
   * whose value is the lower-cased string, unless that is INFO or there is
   * none, in which case MEDIUM.
   */
  function MapSeverity(severity: string): (r: IssueSeverity)
    ensures var p := ParseSeverity(Lower(severity));
      r == if p.Some? && p.value != INFO then p.value else MEDIUM
  {
    var k := Lower(severity);
    if k in SeverityMap then SeverityMap[k] else MEDIUM
  }

  /** The name recorded on every issue the agent creates: its own name and the model's. */
  function AgentName(agent: AIAgent): string {
    agent.name + " (" + ModelName + ")"
  }

  /** `sources or []`. */
  function SourcesOrEmpty(sources: Option<seq<string>>): seq<string> {
    if sources.Some? then sources.value else []
  }

  /** `create_issue`: a `ReviewIssue` for the content, signed with the agent's name; it fails on a bad confidence. */
  function CreateIssue(
    agent: AIAgent, content: Content, issueType: IssueType, severity: IssueSeverity, description: string,
    originalText: Option<string>, suggestedFix: Option<string>, location: Option<string>,
    sources: Option<seq<string>>, confidence: real): (r: Result<ReviewIssue, ValidationError>)
    ensures r.Success? <==> 0.0 <= confidence <= 1.0
    ensures r.Success? ==>
      && r.value.contentId == content.contentId && r.value.issueType == issueType
      && r.value.severity == severity && r.value.description == description
      && r.value.originalText == originalText && r.value.suggestedFix == suggestedFix
      && r.value.location == location && r.value.confidence as real == confidence
      && r.value.sources == (if sources.Some? then sources.value else [])
      && r.value.reviewedByAgent == Some(agent.name + " (" + ModelName + ")")
  {
    MakeIssue(content.contentId, issueType, severity, description, location, originalText,
              suggestedFix, SourcesOrEmpty(sources), confidence, Some(AgentName(agent)))
  }

  /** The body of the conversion loop for one AI issue. */
  function ConvertOne(agent: AIAgent, content: Content, ai: AIIssue): Result<ReviewIssue, ValidationError> {
    CreateIssue(agent, content, MapIssueType(ai.kind), MapSeverity(ai.severity), ai.description,
                ai.originalText, ai.suggestedFix, None, ai.sources, ai.confidence)
  }

  /** What the conversion keeps: every AI issue whose construction succeeds, in order. */
  function Converted(agent: AIAgent, content: Content, ais: seq<AIIssue>): seq<ReviewIssue> {
    if ais == [] then []
    else
      var rest := Converted(agent, content, ais[..|ais| - 1]);
      match ConvertOne(agent, content, ais[|ais| - 1])
      case Success(issue) => rest + [issue]
      case Failure(_) => rest
  }

  predicate HasValidConfidence(ai: AIIssue) {
    0.0 <= ai.confidence <= 1.0
  }

  /** `convert_ai_issues_to_review_issues`: an item that fails validation is skipped and the rest are converted. */
  method ConvertAIIssues(agent: AIAgent, content: Content, ais: seq<AIIssue>) returns (issues: seq<ReviewIssue>)
    ensures issues == Converted(agent, content, ais)
  {
    issues := [];
    for i := 0 to |ais|
      invariant issues == Converted(agent, content, ais[..i])
    {
      assert ais[..i + 1][..i] == ais[..i];
      var result := ConvertOne(agent, content, ais[i]);
      if result.Success? {
        issues := issues + [result.value];
      }
    }
    assert ais[..|ais|] == ais;
  }

  /** The prompt sent to the model: the system prompt, a blank line, then the agent's review prompt. */
  function FullPrompt(agent: AIAgent, userPrompt: string): string {
    agent.systemPrompt + "\n\n" + userPrompt
  }

  /** The model call: it raises, or it replies with a (possibly empty) text. */
  datatype Reply = Raised(error: string) | Replied(text: string)

  /**
   * `review`: call the model with the full prompt; an empty reply gives no
   * issues, otherwise the reply is validated and its issues converted. Errors
   * of the call and of the validation are not caught and reach the caller.
   * `userPrompt` is the subclass's `get_review_prompt(content)`.
   */
  function Review(agent: AIAgent, content: Content, userPrompt: string,
                  call: string -> Reply, validate: string -> Result<seq<AIIssue>, string>): (r: Result<seq<ReviewIssue>, string>)
    ensures call(FullPrompt(agent, userPrompt)).Raised? ==> r == Failure(call(FullPrompt(agent, userPrompt)).error)
    ensures call(FullPrompt(agent, userPrompt)) == Replied("") ==> r == Success([])
    ensures call(FullPrompt(agent, userPrompt)).Replied? && call(FullPrompt(agent, userPrompt)).text != "" ==>
      var v := validate(call(FullPrompt(agent, userPrompt)).text);
      && (v.Failure? ==> r == Failure(v.error))
      && (v.Success? ==> r == Success(Converted(agent, content, v.value))
                         && |r.value| == Count(v.value, HasValidConfidence) <= |v.value|)
  {
    match call(FullPrompt(agent, userPrompt))
    case Raised(e) => Failure(e)
    case Replied(text) =>
      if text == "" then Success([])
      else
        match validate(text)
        case Failure(e) => Failure(e)
        case Success(ais) =>
          ConvertedLength(agent, content, ais);
          Success(Converted(agent, content, ais))
  }

  // ------------------------------------------------------------------ lemmas

  /** "technical" and "factual" are not on the type whitelist, and "info" is not on the severity whitelist. */
  lemma WhitelistDefaults()
    ensures MapIssueType("technical") == TECHNICAL && MapIssueType("factual") == TECHNICAL
    ensures MapIssueType("FACTUAL") == TECHNICAL && MapIssueType("Spelling") == SPELLING
    ensures MapSeverity("info") == MEDIUM && MapSeverity("HIGH") == HIGH
  {
    assert Lower("technical") == "technical";
    assert Lower("factual") == "factual";
    assert Lower("FACTUAL") == "factual";
    assert Lower("Spelling") == "spelling";
    assert Lower("info") == "info";
    assert Lower("HIGH") == "high";
  }

  /** The whitelists never produce FACTUAL or INFO. */
  lemma WhitelistRanges(kind: string, severity: string)
    ensures MapIssueType(kind) != FACTUAL
    ensures MapSeverity(severity) != INFO
  {
  }

  /** The whitelists ignore the case of the strings the model sends. */
  lemma WhitelistsIgnoreCase(s: string, t: string)
    requires SameIgnoringCase(s, t)
    ensures MapIssueType(s) == MapIssueType(t) && MapSeverity(s) == MapSeverity(t)
  {
    SameIgnoringCaseLower(s, t);
  }

  /** Each input yields at most one output, and exactly the inputs with a valid confidence yield one. */
  lemma {:induction false} ConvertedLength(agent: AIAgent, content: Content, ais: seq<AIIssue>)
    ensures |Converted(agent, content, ais)| == Count(ais, HasValidConfidence)
    ensures |Converted(agent, content, ais)| <= |ais|
  {
    if ais != [] {
      ConvertedLength(agent, content, ais[..|ais| - 1]);
    }
  }

  /** Conversion works item by item: converting a concatenation converts each part in turn, so order is kept. */
  lemma {:induction false} ConvertedAppend(agent: AIAgent, content: Content, a: seq<AIIssue>, b: seq<AIIssue>)
    ensures Converted(agent, content, a + b) == Converted(agent, content, a) + Converted(agent, content, b)
    decreases |b|
  {
    if b == [] {
      assert a + b == a;
    } else {
      assert (a + b)[..|a + b| - 1] == a + b[..|b| - 1];
      ConvertedAppend(agent, content, a, b[..|b| - 1]);
    }
  }

  /**
   * Every converted issue carries the content's id and the agent's name, and
   * comes from an input item whose whitelisted type and severity, description
   * and sources it carries.
   */
  lemma {:induction false} ConvertedFields(agent: AIAgent, content: Content, ais: seq<AIIssue>)
    ensures forall x | x in Converted(agent, content, ais) ::
      && x.contentId == content.contentId
      && x.reviewedByAgent == Some(agent.name + " (" + ModelName + ")")
      && exists i :: 0 <= i < |ais| && HasValidConfidence(ais[i])
           && x.issueType == MapIssueType(ais[i].kind) && x.severity == MapSeverity(ais[i].severity)
           && x.description == ais[i].description && x.sources == SourcesOrEmpty(ais[i].sources)
           && x.confidence as real == ais[i].confidence
  {
    if ais != [] {
      var init := ais[..|ais| - 1];
      ConvertedFields(agent, content, init);
      forall i | 0 <= i < |init| ensures init[i] == ais[i] { }
    }
  }
}
