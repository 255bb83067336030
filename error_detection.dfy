/**
 * The rule-based error detection agent: a dictionary lookup of common
 * misspellings over the lower-cased words of the text, four grammar patterns
 * scanned over the original text, and, for code, a line-based check for a
 * control statement that lacks its closing colon.
 */
module ErrorDetection {
  import opened Wrappers
  import opened Text
  import opened Patterns
  import opened Seqs
  import opened ContentModel

  const Name: string := "Error Detection Agent"
  const Description: string := "Detects spelling, grammar, and syntax errors in content"

  /** The table of common misspellings and their corrections. */
  const CommonErrors: map<string, string> := map[
    "recieve" := "receive",
    "occured" := "occurred",
    "seperate" := "separate",
    "definately" := "definitely",
    "accomodate" := "accommodate",
    "untill" := "until",
    "thier" := "their",
    "wierd" := "weird",
    "acheive" := "achieve",
    "beleive" := "believe"]

  predicate IsCommonError(w: string) {
    w in CommonErrors
  }

  /** The grammar patterns and their messages, in the order they are scanned. */
  const GrammarRules: seq<(Pattern, string)> := [
    (AThenVowel, "Use 'an' before vowel sounds"),
    (AnThenNonVowel, "Use 'a' before consonant sounds"),
    (MultipleSpaces, "Multiple consecutive spaces"),
    (LowerAfterStop, "Sentence should start with capital letter")]

  const ControlKeywords: seq<string> := ["if", "for", "while", "def", "class"]

  // ---------------------------------------------------------------- spelling

  function SpellingIssue(contentId: string, w: string): ReviewIssue
    requires IsCommonError(w)
  {
    ReviewIssue(contentId, SPELLING, LOW, "Spelling error: '" + w + "'",
                originalText := Some(w), suggestedFix := Some(CommonErrors[w]), confidence := 0.95)
  }

  /** One issue per misspelt word, in word order. */
  function SpellingIssues(contentId: string, words: seq<string>): seq<ReviewIssue> {
    var bad := Filter(words, IsCommonError);
    seq(|bad|, i requires 0 <= i < |bad| => SpellingIssue(contentId, bad[i]))
  }

  /** The words the spelling check looks up: `\w+` tokens of the lower-cased text. */
  function LowerWords(text: string): seq<string> {
    Words(Lower(text))
  }

  // ----------------------------------------------------------------- grammar

  function Location(span: Span): string {
    "Position " + NatToString(span.start) + "-" + NatToString(span.end)
  }

  function GrammarIssue(contentId: string, text: string, message: string, span: Span): ReviewIssue
    requires span.start <= span.end <= |text|
  {
    ReviewIssue(contentId, GRAMMAR, MEDIUM, message, location := Some(Location(span)),
                originalText := Some(text[span.start..span.end]), confidence := 0.85)
  }

  /** One issue per match of one pattern, in match order. */
  function RuleIssues(contentId: string, text: string, rule: (Pattern, string)): seq<ReviewIssue> {
    var m := Matches(rule.0, text);
    seq(|m|, i requires 0 <= i < |m| => GrammarIssue(contentId, text, rule.1, m[i]))
  }

  /** The issues of the first `k` grammar rules, rule by rule. */
  function GrammarIssues(contentId: string, text: string, k: nat): seq<ReviewIssue>
    requires k <= |GrammarRules|
  {
    if k == 0 then [] else GrammarIssues(contentId, text, k - 1) + RuleIssues(contentId, text, GrammarRules[k - 1])
  }

  // ------------------------------------------------------------------ syntax

  /** `kw\s` occurs at `k`. */
  predicate KeywordSpace(t: string, k: nat, kw: string) {
    At(t, k, kw) && k + |kw| < |t| && IsSpace(t[k + |kw|])
  }

  /** `(if|for|while|def|class)\s` occurs at `k`; no word boundary is required. */
  predicate KeywordThenSpaceAt(t: string, k: nat) {
    || KeywordSpace(t, k, "if") || KeywordSpace(t, k, "for") || KeywordSpace(t, k, "while")
    || KeywordSpace(t, k, "def") || KeywordSpace(t, k, "class")
  }

  /** `re.search` for `(if|for|while|def|class)\s` from position `k` on. */
  function KeywordThenSpaceFrom(t: string, k: nat): (b: bool)
    ensures b <==> exists i :: k <= i < |t| && KeywordThenSpaceAt(t, i)
    decreases |t| - k
  {
    if k >= |t| then false else KeywordThenSpaceAt(t, k) || KeywordThenSpaceFrom(t, k + 1)
  }

  /**
   * The line check: `re.search(r"(if|for|while|def|class)\s+.*[^:]$", t)` on
   * the stripped line `t`, which is non-empty and not a comment. As `t` ends in
   * a non-space, the pattern matches exactly when a keyword is followed by a
   * whitespace character and the last character is not a colon.
   */
  predicate SyntaxFlagged(line: string) {
    var t := Strip(line);
    && |t| > 0
    && t[0] != '#'
    && t[|t| - 1] != ':'
    && KeywordThenSpaceFrom(t, 0)
  }

  function SyntaxIssue(contentId: string, lineNo: nat, line: string): ReviewIssue {
    ReviewIssue(contentId, SYNTAX, HIGH, "Possible missing colon at end of statement",
                location := Some("Line " + NatToString(lineNo)), originalText := Some(Strip(line)),
                confidence := 0.75)
  }

  /** One issue per flagged line, numbering lines from 1. */
  function SyntaxIssues(contentId: string, lines: seq<string>): seq<ReviewIssue> {
    if lines == [] then []
    else
      var n := |lines|;
      SyntaxIssues(contentId, lines[..n - 1])
        + (if SyntaxFlagged(lines[n - 1]) then [SyntaxIssue(contentId, n, lines[n - 1])] else [])
  }

  function Lines(text: string): seq<string> {
    Split(text, '\n')
  }

  /** What the agent reports: spelling issues, grammar issues pattern by pattern, then syntax issues for code. */
  function ReviewSpec(c: Content): seq<ReviewIssue> {
    SpellingIssues(c.contentId, LowerWords(c.text))
      + GrammarIssues(c.contentId, c.text, |GrammarRules|)
      + (if c.contentType.Value() == "code" then SyntaxIssues(c.contentId, Lines(c.text)) else [])
  }

  // ----------------------------------------------------------------- methods

  /** `_check_code_syntax`. */
  method CheckCodeSyntax(c: Content) returns (issues: seq<ReviewIssue>)
    ensures issues == SyntaxIssues(c.contentId, Lines(c.text))
  {
    issues := [];
    var lines := Split(c.text, '\n');
    for i := 0 to |lines|
      invariant issues == SyntaxIssues(c.contentId, lines[..i])
    {
      assert lines[..i + 1][..i] == lines[..i];
      if SyntaxFlagged(lines[i]) {
        issues := issues + [SyntaxIssue(c.contentId, i + 1, lines[i])];
      }
    }
    assert lines[..|lines|] == lines;
  }

  /** The spelling loop of `review`: look up each lower-cased word in the table. */
  method CheckSpelling(c: Content) returns (issues: seq<ReviewIssue>)
    ensures issues == SpellingIssues(c.contentId, LowerWords(c.text))
  {
    issues := [];
    var words := Words(Lower(c.text));
    ghost var bad: seq<string> := [];
    for i := 0 to |words|
      invariant bad == Filter(words[..i], IsCommonError)
      invariant issues == SpellingIssues(c.contentId, words[..i])
    {
      assert words[..i + 1][..i] == words[..i];
      if words[i] in CommonErrors {
        issues := issues + [SpellingIssue(c.contentId, words[i])];
        bad := bad + [words[i]];
      }
    }
    assert words[..|words|] == words;
  }

  /** The grammar loop of `review`: every match of every pattern, pattern by pattern. */
  method CheckGrammar(c: Content) returns (issues: seq<ReviewIssue>)
    ensures issues == GrammarIssues(c.contentId, c.text, |GrammarRules|)
  {
    issues := [];
    for k := 0 to |GrammarRules|
      invariant issues == GrammarIssues(c.contentId, c.text, k)
    {
      var rule := GrammarRules[k];
      var matches := Matches(rule.0, c.text);
      ghost var before := issues;
      for j := 0 to |matches|
        invariant issues == before + RuleIssues(c.contentId, c.text, rule)[..j]
      {
        RuleStep(c.contentId, c.text, rule, j);
        issues := issues + [GrammarIssue(c.contentId, c.text, rule.1, matches[j])];
      }
      GrammarIssuesStep(c.contentId, c.text, k);
    }
  }

  lemma RuleStep(contentId: string, text: string, rule: (Pattern, string), j: nat)
    requires j < |Matches(rule.0, text)|
    ensures RuleIssues(contentId, text, rule)[..j + 1]
      == RuleIssues(contentId, text, rule)[..j] + [GrammarIssue(contentId, text, rule.1, Matches(rule.0, text)[j])]
  {
    var r := RuleIssues(contentId, text, rule);
    assert r[..j + 1] == r[..j] + [r[j]];
  }

  lemma GrammarIssuesStep(contentId: string, text: string, k: nat)
    requires k < |GrammarRules|
    ensures GrammarIssues(contentId, text, k + 1)
      == GrammarIssues(contentId, text, k) + RuleIssues(contentId, text, GrammarRules[k])[..|Matches(GrammarRules[k].0, text)|]
  {
    var r := RuleIssues(contentId, text, GrammarRules[k]);
    assert r[..|r|] == r;
  }

  /** `review`: spelling issues, then grammar issues, then, for code only, syntax issues. */
  method Review(c: Content) returns (issues: seq<ReviewIssue>)
    ensures issues == ReviewSpec(c)
  {
    var spelling := CheckSpelling(c);
    var grammar := CheckGrammar(c);
    issues := spelling + grammar;
    if c.contentType.Value() == "code" {
      var syntax := CheckCodeSyntax(c);
      issues := issues + syntax;
    } else {
      assert issues == issues + [];
    }
  }

  // ------------------------------------------------------------------ lemmas

  /**
   * Every occurrence of a misspelt word gives one issue, repeats included, and
   * no other word gives one.
   */
  lemma SpellingIssuesPerWord(contentId: string, words: seq<string>, w: string)
    ensures |SpellingIssues(contentId, words)| == Count(words, IsCommonError)
    ensures IsCommonError(w) ==> multiset(Filter(words, IsCommonError))[w] == multiset(words)[w]
    ensures !IsCommonError(w) ==> multiset(Filter(words, IsCommonError))[w] == 0
    ensures forall i :: 0 <= i < |SpellingIssues(contentId, words)| ==>
      var x := SpellingIssues(contentId, words)[i];
      && x.issueType == SPELLING && x.severity == LOW && x.confidence == 0.95
      && x.originalText.Some? && x.originalText.value in words && IsCommonError(x.originalText.value)
      && x.suggestedFix == Some(CommonErrors[x.originalText.value])
  {
    FilterLength(words, IsCommonError);
    FilterMultiset(words, IsCommonError, w);
    FilterMembers(words, IsCommonError);
    var bad := Filter(words, IsCommonError);
    forall i | 0 <= i < |bad| ensures bad[i] in words {
      assert bad[i] in bad;
    }
  }

  /** The spelling check sees only the lower-cased text, so the case of the letters does not matter. */
  lemma SpellingIgnoresCase(contentId: string, s: string, t: string)
    requires SameIgnoringCase(s, t)
    ensures SpellingIssues(contentId, LowerWords(s)) == SpellingIssues(contentId, LowerWords(t))
  {
    SameIgnoringCaseLower(s, t);
  }

  /** The original text of every spelling issue is already lower-case. */
  lemma SpellingWordsAreLower(text: string)
    ensures forall i :: 0 <= i < |LowerWords(text)| ==> Lower(LowerWords(text)[i]) == LowerWords(text)[i]
  {
    LowerWordsFrom(Lower(text), 0);
  }

  lemma {:induction false} LowerWordsFrom(s: string, p: nat)
    requires p <= |s| && Lower(s) == s
    ensures forall i :: 0 <= i < |WordsFrom(s, p)| ==> Lower(WordsFrom(s, p)[i]) == WordsFrom(s, p)[i]
    decreases |s| - p
  {
    if p < |s| {
      if IsWordChar(s[p]) {
        var n := WordRun(s, p);
        var w := s[p..p + n];
        assert forall k :: 0 <= k < |w| ==> Lower(w)[k] == LowerChar(s[p + k]) == Lower(s)[p + k] == w[k];
        LowerWordsFrom(s, p + n);
      } else {
        LowerWordsFrom(s, p + 1);
      }
    }
  }

  /** Each match of a grammar pattern gives one issue with its position as `Position start-end`. */
  lemma RuleIssuesAreMatches(contentId: string, text: string, rule: (Pattern, string))
    ensures |RuleIssues(contentId, text, rule)| == |Matches(rule.0, text)|
    ensures forall i :: 0 <= i < |Matches(rule.0, text)| ==>
      var m := Matches(rule.0, text)[i];
      var x := RuleIssues(contentId, text, rule)[i];
      && x.issueType == GRAMMAR && x.severity == MEDIUM && x.description == rule.1
      && x.location == Some("Position " + NatToString(m.start) + "-" + NatToString(m.end))
      && x.originalText == Some(text[m.start..m.end])
  {
  }

  /**
   * Each maximal run of two or more whitespace characters gives exactly one
   * "Multiple consecutive spaces" issue, and every such issue comes from one.
   */
  lemma MultipleSpacesIssues(contentId: string, text: string)
    ensures forall a: nat, b: nat | MaximalSpaceRun(text, a, b) && b - a >= 2 ::
      GrammarIssue(contentId, text, "Multiple consecutive spaces", Span(a, b)) in RuleIssues(contentId, text, GrammarRules[2])
    ensures forall x | x in RuleIssues(contentId, text, GrammarRules[2]) :: exists a: nat, b: nat ::
      MaximalSpaceRun(text, a, b) && b - a >= 2 && x == GrammarIssue(contentId, text, "Multiple consecutive spaces", Span(a, b))
  {
    assert GrammarRules[2] == (MultipleSpaces, "Multiple consecutive spaces");
    SpaceRuleIssues(contentId, text, "Multiple consecutive spaces");
  }

  /** The issues of the `\s\s+` rule, whatever its message, are those of the maximal runs. */
  lemma SpaceRuleIssues(contentId: string, text: string, message: string)
    ensures forall a: nat, b: nat | MaximalSpaceRun(text, a, b) && b - a >= 2 ::
      GrammarIssue(contentId, text, message, Span(a, b)) in RuleIssues(contentId, text, (MultipleSpaces, message))
    ensures forall x | x in RuleIssues(contentId, text, (MultipleSpaces, message)) :: exists a: nat, b: nat ::
      MaximalSpaceRun(text, a, b) && b - a >= 2 && x == GrammarIssue(contentId, text, message, Span(a, b))
  {
    var m := Matches(MultipleSpaces, text);
    var r := RuleIssues(contentId, text, (MultipleSpaces, message));
    MultipleSpacesAreMaximalRuns(text);
    forall a: nat, b: nat | MaximalSpaceRun(text, a, b) && b - a >= 2
      ensures GrammarIssue(contentId, text, message, Span(a, b)) in r
    {
      var i :| 0 <= i < |m| && m[i] == Span(a, b);
      assert r[i] == GrammarIssue(contentId, text, message, Span(a, b));
    }
    forall x | x in r ensures exists a: nat, b: nat ::
      MaximalSpaceRun(text, a, b) && b - a >= 2 && x == GrammarIssue(contentId, text, message, Span(a, b))
    {
      var i :| 0 <= i < |r| && r[i] == x;
      assert m[i] in m;
    }
  }

  /** A stripped line that ends in a colon is never flagged. */
  lemma ColonLinesNotFlagged(line: string)
    requires |Strip(line)| > 0 && Strip(line)[|Strip(line)| - 1] == ':'
    ensures !SyntaxFlagged(line)
  {
  }

  lemma LastLineIssue(contentId: string, lines: seq<string>)
    requires |lines| > 0 && SyntaxFlagged(lines[|lines| - 1])
    ensures SyntaxIssue(contentId, |lines|, lines[|lines| - 1]) in SyntaxIssues(contentId, lines)
  {
  }

  lemma EarlierLineIssue(contentId: string, lines: seq<string>, i: nat)
    requires i + 1 < |lines|
    requires SyntaxIssue(contentId, i + 1, lines[..|lines| - 1][i]) in SyntaxIssues(contentId, lines[..|lines| - 1])
    ensures SyntaxIssue(contentId, i + 1, lines[i]) in SyntaxIssues(contentId, lines)
  {
    assert lines[..|lines| - 1][i] == lines[i];
  }

  /** Line `i` (counted from 1) gives an issue located at `Line i` when it is flagged. */
  lemma {:induction false} SyntaxIssuesComplete(contentId: string, lines: seq<string>, i: nat)
    requires i < |lines| && SyntaxFlagged(lines[i])
    ensures SyntaxIssue(contentId, i + 1, lines[i]) in SyntaxIssues(contentId, lines)
  {
    if i + 1 == |lines| {
      LastLineIssue(contentId, lines);
    } else {
      var init := lines[..|lines| - 1];
      assert init[i] == lines[i];
      SyntaxIssuesComplete(contentId, init, i);
      EarlierLineIssue(contentId, lines, i);
    }
  }

  /** Every syntax issue is the issue of a flagged line, located at its number counted from 1. */
  lemma {:induction false} SyntaxIssuesSound(contentId: string, lines: seq<string>, x: ReviewIssue)
    requires x in SyntaxIssues(contentId, lines)
    ensures exists i :: 0 <= i < |lines| && SyntaxFlagged(lines[i]) && x == SyntaxIssue(contentId, i + 1, lines[i])
  {
    var n := |lines|;
    var init := lines[..n - 1];
    if x in SyntaxIssues(contentId, init) {
      SyntaxIssuesSound(contentId, init, x);
      var i :| 0 <= i < |init| && SyntaxFlagged(init[i]) && x == SyntaxIssue(contentId, i + 1, init[i]);
      assert lines[i] == init[i];
    } else {
      assert x == SyntaxIssue(contentId, n, lines[n - 1]);
    }
  }

  /** Only code gets syntax issues: the review reports one exactly when the content is code and some line is flagged. */
  lemma SyntaxOnlyForCode(c: Content)
    ensures (exists x :: x in ReviewSpec(c) && x.issueType == SYNTAX) <==>
      c.contentType == CODE && exists i :: 0 <= i < |Lines(c.text)| && SyntaxFlagged(Lines(c.text)[i])
  {
    var sp := SpellingIssues(c.contentId, LowerWords(c.text));
    var gr := GrammarIssues(c.contentId, c.text, |GrammarRules|);
    var sy := if c.contentType.Value() == "code" then SyntaxIssues(c.contentId, Lines(c.text)) else [];
    SpellingAndGrammarTypes(c);
    assert ReviewSpec(c) == sp + gr + sy;
    NoSyntaxBefore(sp, gr, sy);
    if c.contentType == CODE {
      SyntaxIssuesFlagged(c.contentId, Lines(c.text));
    }
  }

  /** Neither the spelling nor the grammar part holds a syntax issue. */
  lemma NoSyntaxBefore(sp: seq<ReviewIssue>, gr: seq<ReviewIssue>, sy: seq<ReviewIssue>)
    requires forall x | x in sp :: x.issueType == SPELLING
    requires forall x | x in gr :: x.issueType == GRAMMAR
    ensures (exists x :: x in sp + gr + sy && x.issueType == SYNTAX) <==> (exists x :: x in sy && x.issueType == SYNTAX)
  {
  }

  /** The syntax part holds a syntax issue exactly when some line is flagged. */
  lemma SyntaxIssuesFlagged(contentId: string, lines: seq<string>)
    ensures (exists x :: x in SyntaxIssues(contentId, lines) && x.issueType == SYNTAX) <==>
      exists i :: 0 <= i < |lines| && SyntaxFlagged(lines[i])
  {
    if exists i :: 0 <= i < |lines| && SyntaxFlagged(lines[i]) {
      var i :| 0 <= i < |lines| && SyntaxFlagged(lines[i]);
      SyntaxIssuesComplete(contentId, lines, i);
    }
    if exists x :: x in SyntaxIssues(contentId, lines) && x.issueType == SYNTAX {
      var x :| x in SyntaxIssues(contentId, lines) && x.issueType == SYNTAX;
      SyntaxIssuesSound(contentId, lines, x);
    }
  }

  /** Spelling issues have type SPELLING and grammar issues type GRAMMAR. */
  lemma SpellingAndGrammarTypes(c: Content)
    ensures forall x | x in SpellingIssues(c.contentId, LowerWords(c.text)) :: x.issueType == SPELLING
    ensures forall x | x in GrammarIssues(c.contentId, c.text, |GrammarRules|) :: x.issueType == GRAMMAR
  {
    GrammarTypes(c.contentId, c.text, |GrammarRules|);
  }

  lemma {:induction false} GrammarTypes(contentId: string, text: string, k: nat)
    requires k <= |GrammarRules|
    ensures forall x | x in GrammarIssues(contentId, text, k) :: x.issueType == GRAMMAR
  {
    if k > 0 {
      GrammarTypes(contentId, text, k - 1);
    }
  }

  /** Rank of an issue type in the output: spelling, then grammar, then syntax. */
  function Stage(t: IssueType): nat {
    if t == SPELLING then 0 else if t == GRAMMAR then 1 else 2
  }

  /** The agent's output is grouped: all spelling issues, then all grammar issues, then all syntax issues. */
  lemma ReviewOrder(c: Content)
    ensures forall i, j :: 0 <= i < j < |ReviewSpec(c)| ==>
      Stage(ReviewSpec(c)[i].issueType) <= Stage(ReviewSpec(c)[j].issueType)
  {
    var sp := SpellingIssues(c.contentId, LowerWords(c.text));
    var gr := GrammarIssues(c.contentId, c.text, |GrammarRules|);
    var sy := if c.contentType.Value() == "code" then SyntaxIssues(c.contentId, Lines(c.text)) else [];
    SpellingAndGrammarTypes(c);
    SyntaxTypes(c.contentId, Lines(c.text));
    assert ReviewSpec(c) == sp + gr + sy;
    GroupedByStage(sp, gr, sy);
  }

  lemma GroupedByStage(sp: seq<ReviewIssue>, gr: seq<ReviewIssue>, sy: seq<ReviewIssue>)
    requires forall x | x in sp :: x.issueType == SPELLING
    requires forall x | x in gr :: x.issueType == GRAMMAR
    requires forall x | x in sy :: x.issueType == SYNTAX
    ensures forall i, j :: 0 <= i < j < |sp + gr + sy| ==>
      Stage((sp + gr + sy)[i].issueType) <= Stage((sp + gr + sy)[j].issueType)
  {
    var r := sp + gr + sy;
    forall i | 0 <= i < |r|
      ensures Stage(r[i].issueType) == if i < |sp| then 0 else if i < |sp| + |gr| then 1 else 2
    {
      if i < |sp| {
        assert r[i] in sp;
      } else if i < |sp| + |gr| {
        assert r[i] == gr[i - |sp|];
      } else {
        assert r[i] == sy[i - |sp| - |gr|];
      }
    }
  }

  lemma {:induction false} SyntaxTypes(contentId: string, lines: seq<string>)
    ensures forall x | x in SyntaxIssues(contentId, lines) :: x.issueType == SYNTAX
  {
    if lines != [] {
      SyntaxTypes(contentId, lines[..|lines| - 1]);
    }
  }
}
