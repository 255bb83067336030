/**
 * The fixed regular expressions of the rule-based review agents, each matched
 * by a bespoke scanner that follows Python `re` semantics (greedy quantifiers
 * with backtracking, `\b` word boundaries), and `FindAll`, which enumerates
 * matches the way `re.finditer` does: leftmost first, non-overlapping,
 * resuming at the end of each match.
 */
module Patterns {
  import opened Wrappers
  import opened Text

  datatype Pattern =
    | AThenVowel          // \ba\s+[aeiou]
    | AnThenNonVowel      // \ban\s+[^aeiou]
    | MultipleSpaces      // \s\s+
    | LowerAfterStop      // [.!?]\s*[a-z]
    | OldPython           // python\s+2\.\d+          (re.IGNORECASE)
    | OldJava             // java\s+[1-7](?:\.\d+)?   (re.IGNORECASE)
    | OldNode             // node(?:js)?\s+[0-9]\.x   (re.IGNORECASE)
    | OldAngular          // angular\s+1\.\d+         (re.IGNORECASE)
    | Year                // \b(19\d{2}|20[0-1]\d|202[0-2])\b
    | Literal(text: string)  // a pattern without special characters, such as angularjs\.org
    | PlainHttp           // http://(?!https)

  /** A match: `match.start()` and `match.end()`. */
  datatype Span = Span(start: nat, end: nat)

  /** Length of the greedy `\s*` run starting at `p`. */
  function SpaceRun(s: string, p: nat): (n: nat)
    requires p <= |s|
    ensures p + n <= |s|
    ensures forall k :: p <= k < p + n ==> IsSpace(s[k])
    ensures p + n == |s| || !IsSpace(s[p + n])
    decreases |s| - p
  {
    if p < |s| && IsSpace(s[p]) then 1 + SpaceRun(s, p + 1) else 0
  }

  /** Length of the greedy `\d*` run starting at `p`. */
  function DigitRun(s: string, p: nat): (n: nat)
    requires p <= |s|
    ensures p + n <= |s|
    ensures forall k :: p <= k < p + n ==> IsDigit(s[k])
    ensures p + n == |s| || !IsDigit(s[p + n])
    decreases |s| - p
  {
    if p < |s| && IsDigit(s[p]) then 1 + DigitRun(s, p + 1) else 0
  }

  /** Length of the greedy `\w*` run starting at `p`. */
  function WordRun(s: string, p: nat): (n: nat)
    requires p <= |s|
    ensures p + n <= |s|
    ensures forall k :: p <= k < p + n ==> IsWordChar(s[k])
    ensures p + n == |s| || !IsWordChar(s[p + n])
    decreases |s| - p
  {
    if p < |s| && IsWordChar(s[p]) then 1 + WordRun(s, p + 1) else 0
  }

  /**
   * `re.findall(r"\b\w+\b", s)` resumed at `p`, where `p` is 0 or follows a
   * non-word character: the maximal runs of word characters, in order.
   */
  function WordsFrom(s: string, p: nat): (r: seq<string>)
    requires p <= |s|
    ensures forall i :: 0 <= i < |r| ==> |r[i]| > 0
    ensures forall i, k :: 0 <= i < |r| && 0 <= k < |r[i]| ==> IsWordChar(r[i][k])
    decreases |s| - p
  {
    if p == |s| then []
    else if IsWordChar(s[p]) then
      var n := WordRun(s, p);
      [s[p..p + n]] + WordsFrom(s, p + n)
    else WordsFrom(s, p + 1)
  }

  function Words(s: string): seq<string> {
    WordsFrom(s, 0)
  }

  /** `\b` just before a word character at `p`. */
  predicate WordStart(s: string, p: nat)
    requires p <= |s|
  {
    p == 0 || !IsWordChar(s[p - 1])
  }

  /** `\b` just after a word character ending at `e`. */
  predicate WordEnd(s: string, e: nat)
    requires e <= |s|
  {
    e == |s| || !IsWordChar(s[e])
  }

  predicate IsVowel(c: char) {
    c == 'a' || c == 'e' || c == 'i' || c == 'o' || c == 'u'
  }

  predicate AllDigits(t: string) {
    forall k :: 0 <= k < |t| ==> IsDigit(t[k])
  }

  /** A major version digit, a dot and `\d+`, starting at `q`: the tail of the Python and Angular patterns. */
  function DottedVersion(s: string, q: nat, major: char): (e: Option<nat>)
    requires q <= |s|
    ensures e.Some? ==> q < e.value <= |s|
  {
    if q + 1 < |s| && s[q] == major && s[q + 1] == '.' && DigitRun(s, q + 2) >= 1
    then Some(q + 2 + DigitRun(s, q + 2)) else None
  }

  function MatchAThenVowel(s: string, p: nat): (e: Option<nat>)
    requires p <= |s|
    ensures e.Some? ==> p < e.value <= |s|
  {
    if At(s, p, "a") && WordStart(s, p) then
      var w := SpaceRun(s, p + 1);
      if w >= 1 && p + 1 + w < |s| && IsVowel(s[p + 1 + w]) then Some(p + 2 + w) else None
    else None
  }

  /**
   * `[^aeiou]` also accepts a whitespace character, so when the greedy `\s+`
   * run is followed by a vowel or by the end of the text, backtracking by one
   * space still matches.
   */
  function MatchAnThenNonVowel(s: string, p: nat): (e: Option<nat>)
    requires p <= |s|
    ensures e.Some? ==> p < e.value <= |s|
  {
    if At(s, p, "an") && WordStart(s, p) then
      var w := SpaceRun(s, p + 2);
      if w >= 1 && p + 2 + w < |s| && !IsVowel(s[p + 2 + w]) then Some(p + 3 + w)
      else if w >= 2 then Some(p + 2 + w)
      else None
    else None
  }

  function MatchMultipleSpaces(s: string, p: nat): (e: Option<nat>)
    requires p <= |s|
    ensures e.Some? ==> p < e.value <= |s|
  {
    if SpaceRun(s, p) >= 2 then Some(p + SpaceRun(s, p)) else None
  }

  function MatchLowerAfterStop(s: string, p: nat): (e: Option<nat>)
    requires p <= |s|
    ensures e.Some? ==> p < e.value <= |s|
  {
    if p < |s| && (s[p] == '.' || s[p] == '!' || s[p] == '?') then
      var w := SpaceRun(s, p + 1);
      if p + 1 + w < |s| && IsLowerLetter(s[p + 1 + w]) then Some(p + 2 + w) else None
    else None
  }

  /** A keyword (matched ignoring case) and `\s+`: where the text after the spaces starts. */
  function AfterKeyword(s: string, p: nat, kw: string): (q: Option<nat>)
    requires p <= |s|
    ensures q.Some? ==> p + |kw| < q.value <= |s|
  {
    if AtIgnoreCase(s, p, kw) && SpaceRun(s, p + |kw|) >= 1 then Some(p + |kw| + SpaceRun(s, p + |kw|)) else None
  }

  /** A keyword (matched ignoring case), `\s+`, then a `DottedVersion` with the given major digit. */
  function KeywordThenVersion(s: string, p: nat, kw: string, major: char): (e: Option<nat>)
    requires p <= |s|
    ensures e.Some? ==> p < e.value <= |s|
  {
    match AfterKeyword(s, p, kw)
    case Some(q) => DottedVersion(s, q, major)
    case None => None
  }

  /** `[1-7](?:\.\d+)?` at `q`; the optional group is taken greedily when it matches. */
  function JavaVersion(s: string, q: nat): (e: Option<nat>)
    requires q <= |s|
    ensures e.Some? ==> q < e.value <= |s|
  {
    if q < |s| && '1' <= s[q] <= '7' then
      if q + 1 < |s| && s[q + 1] == '.' && DigitRun(s, q + 2) >= 1
      then Some(q + 2 + DigitRun(s, q + 2)) else Some(q + 1)
    else None
  }

  function MatchOldJava(s: string, p: nat): (e: Option<nat>)
    requires p <= |s|
    ensures e.Some? ==> p < e.value <= |s|
  {
    match AfterKeyword(s, p, "java")
    case Some(q) => JavaVersion(s, q)
    case None => None
  }

  /** `[0-9]\.x` at `q`, the `x` matched ignoring case. */
  function NodeVersion(s: string, q: nat): (e: Option<nat>)
    requires q <= |s|
    ensures e.Some? ==> q < e.value <= |s|
  {
    if q + 2 < |s| && IsDigit(s[q]) && s[q + 1] == '.' && LowerChar(s[q + 2]) == 'x' then Some(q + 3) else None
  }

  /**
   * `(?:js)?` is tried first; without it `\s+` would have to match the `j`,
   * so backtracking over the group never finds another match.
   */
  function MatchOldNode(s: string, p: nat): (e: Option<nat>)
    requires p <= |s|
    ensures e.Some? ==> p < e.value <= |s|
  {
    if AtIgnoreCase(s, p, "node") then
      match AfterKeyword(s, p + 4, if AtIgnoreCase(s, p + 4, "js") then "js" else "")
      case Some(q) => NodeVersion(s, q)
      case None => None
    else None
  }

  /** A word-bounded four-digit year from 1900 to 2022. */
  function MatchYear(s: string, p: nat): (e: Option<nat>)
    requires p <= |s|
    ensures e.Some? ==> e.value == p + 4 <= |s| && AllDigits(s[p..p + 4]) && 1900 <= DigitsValue(s[p..p + 4]) <= 2022
  {
    if p + 4 <= |s| && AllDigits(s[p..p + 4]) && WordStart(s, p) && WordEnd(s, p + 4)
       && 1900 <= DigitsValue(s[p..p + 4]) <= 2022
    then Some(p + 4) else None
  }

  function MatchLiteral(t: string, s: string, p: nat): (e: Option<nat>)
    requires p <= |s|
    ensures e.Some? ==> p < e.value <= |s|
  {
    if |t| > 0 && At(s, p, t) then Some(p + |t|) else None
  }

  function MatchPlainHttp(s: string, p: nat): (e: Option<nat>)
    requires p <= |s|
    ensures e.Some? ==> p < e.value <= |s|
  {
    if At(s, p, "http://") && !At(s, p + 7, "https") then Some(p + 7) else None
  }

  /**
   * Where a match of `pat` that starts at `p` ends, if there is one. Every
   * pattern here consumes at least one character.
   */
  function MatchAt(pat: Pattern, s: string, p: nat): (e: Option<nat>)
    requires p <= |s|
    ensures e.Some? ==> p < e.value <= |s|
  {
    match pat
    case AThenVowel => MatchAThenVowel(s, p)
    case AnThenNonVowel => MatchAnThenNonVowel(s, p)
    case MultipleSpaces => MatchMultipleSpaces(s, p)
    case LowerAfterStop => MatchLowerAfterStop(s, p)
    case OldPython => KeywordThenVersion(s, p, "python", '2')
    case OldJava => MatchOldJava(s, p)
    case OldNode => MatchOldNode(s, p)
    case OldAngular => KeywordThenVersion(s, p, "angular", '1')
    case Year => MatchYear(s, p)
    case Literal(t) => MatchLiteral(t, s, p)
    case PlainHttp => MatchPlainHttp(s, p)
  }

  /** `re.finditer(pat, s)` from position `p`: leftmost, non-overlapping matches in order. */
  function FindAll(pat: Pattern, s: string, p: nat): (r: seq<Span>)
    requires p <= |s|
    ensures forall i :: 0 <= i < |r| ==> p <= r[i].start < r[i].end <= |s|
    ensures forall i :: 0 <= i < |r| - 1 ==> r[i].end <= r[i + 1].start
    decreases |s| - p
  {
    if p == |s| then []
    else
      match MatchAt(pat, s, p)
      case Some(e) => [Span(p, e)] + FindAll(pat, s, e)
      case None => FindAll(pat, s, p + 1)
  }

  /** Each span found is a match of the pattern: it starts where the pattern matches and ends where that match ends. */
  lemma {:induction false} FindAllAreMatches(pat: Pattern, s: string, p: nat)
    requires p <= |s|
    ensures forall i :: 0 <= i < |FindAll(pat, s, p)| ==>
      MatchAt(pat, s, FindAll(pat, s, p)[i].start) == Some(FindAll(pat, s, p)[i].end)
    decreases |s| - p
  {
    if p < |s| {
      match MatchAt(pat, s, p)
      case Some(e) =>
        FindAllSome(pat, s, p, e);
        FindAllAreMatches(pat, s, e);
      case None =>
        FindAllNone(pat, s, p);
        FindAllAreMatches(pat, s, p + 1);
    }
  }

  /** Every match of the source text finds.  */
  function Matches(pat: Pattern, s: string): seq<Span> {
    FindAll(pat, s, 0)
  }

  /** Some span of `r` covers position `q`. */
  predicate Covers(r: seq<Span>, q: nat) {
    exists i :: 0 <= i < |r| && r[i].start <= q < r[i].end
  }

  /** No position where the pattern matches is skipped, unless an earlier match covers it. */
  lemma {:induction false} FindAllCovers(pat: Pattern, s: string, p: nat, q: nat)
    requires p <= q < |s| && MatchAt(pat, s, q).Some?
    ensures Covers(FindAll(pat, s, p), q)
    decreases |s| - p
  {
    match MatchAt(pat, s, p)
    case Some(e) =>
      FindAllSome(pat, s, p, e);
      if e <= q {
        FindAllCovers(pat, s, e, q);
        CoversPrepend(Span(p, e), FindAll(pat, s, e), q);
      } else {
        CoversPrepend(Span(p, e), FindAll(pat, s, e), q);
      }
    case None =>
      assert p != q;
      FindAllNone(pat, s, p);
      FindAllCovers(pat, s, p + 1, q);
  }

  /** A span put in front covers what it spans, and the rest still covers what it did. */
  lemma CoversPrepend(x: Span, r: seq<Span>, q: nat)
    requires Covers(r, q) || x.start <= q < x.end
    ensures Covers([x] + r, q)
  {
    if x.start <= q < x.end {
      assert ([x] + r)[0] == x;
    } else {
      var i :| 0 <= i < |r| && r[i].start <= q < r[i].end;
      assert ([x] + r)[i + 1] == r[i];
    }
  }

  /** Without a match at `p` the scan moves on by one character. */
  lemma FindAllNone(pat: Pattern, s: string, p: nat)
    requires p < |s| && MatchAt(pat, s, p).None?
    ensures FindAll(pat, s, p) == FindAll(pat, s, p + 1)
  {
  }

  /** A match at `p` is the first span, and the scan resumes where it ends. */
  lemma FindAllSome(pat: Pattern, s: string, p: nat, e: nat)
    requires p < |s| && MatchAt(pat, s, p) == Some(e)
    ensures FindAll(pat, s, p) == [Span(p, e)] + FindAll(pat, s, e)
  {
  }

  /** A maximal run of whitespace: `s[a..b]` is all whitespace and cannot be extended. */
  predicate MaximalSpaceRun(s: string, a: nat, b: nat) {
    && a < b <= |s|
    && (forall k :: a <= k < b ==> IsSpace(s[k]))
    && (a == 0 || !IsSpace(s[a - 1]))
    && (b == |s| || !IsSpace(s[b]))
  }

  lemma {:induction false} MultipleSpacesFromRunStart(s: string, p: nat)
    requires p <= |s|
    requires p == 0 || p == |s| || !IsSpace(s[p - 1]) || !IsSpace(s[p])
    ensures forall m | m in FindAll(MultipleSpaces, s, p) :: MaximalSpaceRun(s, m.start, m.end) && m.end - m.start >= 2
    decreases |s| - p
  {
    if p < |s| {
      match MatchAt(MultipleSpaces, s, p)
      case Some(e) =>
        MultipleSpacesFromRunStart(s, e);
      case None =>
        MultipleSpacesFromRunStart(s, p + 1);
    }
  }

  /** Every maximal whitespace run of length two or more is one of the matches. */
  lemma MaximalRunIsMatched(s: string, a: nat, b: nat)
    requires MaximalSpaceRun(s, a, b) && b - a >= 2
    ensures Span(a, b) in Matches(MultipleSpaces, s)
  {
    var r := Matches(MultipleSpaces, s);
    SpaceRunOfMaximal(s, a, b);
    assert MatchAt(MultipleSpaces, s, a) == Some(b);
    FindAllCovers(MultipleSpaces, s, 0, a);
    var i :| 0 <= i < |r| && r[i].start <= a < r[i].end;
    MultipleSpacesFromRunStart(s, 0);
    assert r[i] in r;
    MaximalRunsCoincide(s, a, b, r[i].start, r[i].end);
  }

  /** Two maximal whitespace runs that share a position are the same run. */
  lemma MaximalRunsCoincide(s: string, a: nat, b: nat, c: nat, d: nat)
    requires MaximalSpaceRun(s, a, b) && MaximalSpaceRun(s, c, d) && c <= a < d
    ensures c == a && d == b
  {
  }

  /**
   * The `\s\s+` scan reports exactly the maximal whitespace runs of length at
   * least two, one match per run.
   */
  lemma MultipleSpacesAreMaximalRuns(s: string)
    ensures forall m | m in Matches(MultipleSpaces, s) :: MaximalSpaceRun(s, m.start, m.end) && m.end - m.start >= 2
    ensures forall a: nat, b: nat | MaximalSpaceRun(s, a, b) && b - a >= 2 :: Span(a, b) in Matches(MultipleSpaces, s)
  {
    MultipleSpacesFromRunStart(s, 0);
    forall a: nat, b: nat | MaximalSpaceRun(s, a, b) && b - a >= 2
      ensures Span(a, b) in Matches(MultipleSpaces, s)
    {
      MaximalRunIsMatched(s, a, b);
    }
  }

  lemma {:induction false} SpaceRunOfMaximal(s: string, a: nat, b: nat)
    requires a <= b <= |s|
    requires forall k :: a <= k < b ==> IsSpace(s[k])
    requires b == |s| || !IsSpace(s[b])
    ensures SpaceRun(s, a) == b - a
    decreases b - a
  {
    if a < b {
      SpaceRunOfMaximal(s, a + 1, b);
    }
  }

  /** The case-insensitive patterns see no difference between a text and its lower-cased form. */
  predicate IgnoresCase(pat: Pattern) {
    pat.OldPython? || pat.OldJava? || pat.OldNode? || pat.OldAngular?
  }

  lemma {:induction false} SpaceRunIgnoresCase(s: string, t: string, p: nat)
    requires SameIgnoringCase(s, t) && p <= |s|
    ensures SpaceRun(s, p) == SpaceRun(t, p)
    decreases |s| - p
  {
    if p < |s| {
      assert IsSpace(s[p]) == IsSpace(t[p]) by {
        LowerCharKeepsSpace(s[p]);
        LowerCharKeepsSpace(t[p]);
        assert LowerChar(s[p]) == LowerChar(t[p]);
      }
      SpaceRunIgnoresCase(s, t, p + 1);
    }
  }

  lemma {:induction false} DigitRunIgnoresCase(s: string, t: string, p: nat)
    requires SameIgnoringCase(s, t) && p <= |s|
    ensures DigitRun(s, p) == DigitRun(t, p)
    decreases |s| - p
  {
    if p < |s| {
      assert IsDigit(s[p]) == IsDigit(t[p]) by {
        assert LowerChar(s[p]) == LowerChar(t[p]);
      }
      DigitRunIgnoresCase(s, t, p + 1);
    }
  }

  lemma AtIgnoreCaseIgnoresCase(s: string, t: string, p: nat, pat: string)
    requires SameIgnoringCase(s, t)
    ensures AtIgnoreCase(s, p, pat) == AtIgnoreCase(t, p, pat)
  {
    if p + |pat| <= |s| {
      var x := Lower(s[p..p + |pat|]);
      var y := Lower(t[p..p + |pat|]);
      assert forall i :: 0 <= i < |pat| ==> x[i] == LowerChar(s[p + i]) == LowerChar(t[p + i]) == y[i];
      assert x == y;
    }
  }

  /** A character that `lower` leaves alone and that no other character lowers to. */
  lemma SameIgnoringCaseAt(s: string, t: string, q: nat, d: char)
    requires SameIgnoringCase(s, t) && q < |s|
    requires !('A' <= d <= 'Z') && !IsLowerLetter(d)
    ensures (s[q] == d) == (t[q] == d)
  {
    assert LowerChar(s[q]) == LowerChar(t[q]);
  }

  lemma DottedVersionIgnoresCase(s: string, t: string, q: nat, major: char)
    requires SameIgnoringCase(s, t) && q <= |s| && IsDigit(major)
    ensures DottedVersion(s, q, major) == DottedVersion(t, q, major)
  {
    if q + 1 < |s| {
      SameIgnoringCaseAt(s, t, q, major);
      SameIgnoringCaseAt(s, t, q + 1, '.');
      DigitRunIgnoresCase(s, t, q + 2);
    }
  }

  lemma AfterKeywordIgnoresCase(s: string, t: string, p: nat, kw: string)
    requires SameIgnoringCase(s, t) && p <= |s|
    ensures AfterKeyword(s, p, kw) == AfterKeyword(t, p, kw)
  {
    AtIgnoreCaseIgnoresCase(s, t, p, kw);
    if p + |kw| <= |s| {
      SpaceRunIgnoresCase(s, t, p + |kw|);
    }
  }

  lemma KeywordThenVersionIgnoresCase(s: string, t: string, p: nat, kw: string, major: char)
    requires SameIgnoringCase(s, t) && p <= |s| && IsDigit(major)
    ensures KeywordThenVersion(s, p, kw, major) == KeywordThenVersion(t, p, kw, major)
  {
    AfterKeywordIgnoresCase(s, t, p, kw);
    match AfterKeyword(s, p, kw)
    case Some(q) => DottedVersionIgnoresCase(s, t, q, major);
    case None =>
  }

  lemma JavaVersionIgnoresCase(s: string, t: string, q: nat)
    requires SameIgnoringCase(s, t) && q <= |s|
    ensures JavaVersion(s, q) == JavaVersion(t, q)
  {
    if q < |s| {
      assert ('1' <= s[q] <= '7') == ('1' <= t[q] <= '7') by {
        assert LowerChar(s[q]) == LowerChar(t[q]);
      }
    }
    if q + 1 < |s| {
      SameIgnoringCaseAt(s, t, q + 1, '.');
      DigitRunIgnoresCase(s, t, q + 2);
    }
  }

  lemma MatchOldJavaIgnoresCase(s: string, t: string, p: nat)
    requires SameIgnoringCase(s, t) && p <= |s|
    ensures MatchOldJava(s, p) == MatchOldJava(t, p)
  {
    AfterKeywordIgnoresCase(s, t, p, "java");
    match AfterKeyword(s, p, "java")
    case Some(q) => JavaVersionIgnoresCase(s, t, q);
    case None =>
  }

  lemma NodeVersionIgnoresCase(s: string, t: string, q: nat)
    requires SameIgnoringCase(s, t) && q <= |s|
    ensures NodeVersion(s, q) == NodeVersion(t, q)
  {
    if q + 2 < |s| {
      assert IsDigit(s[q]) == IsDigit(t[q]) by {
        assert LowerChar(s[q]) == LowerChar(t[q]);
      }
      SameIgnoringCaseAt(s, t, q + 1, '.');
      assert LowerChar(s[q + 2]) == LowerChar(t[q + 2]);
    }
  }

  lemma MatchOldNodeIgnoresCase(s: string, t: string, p: nat)
    requires SameIgnoringCase(s, t) && p <= |s|
    ensures MatchOldNode(s, p) == MatchOldNode(t, p)
  {
    AtIgnoreCaseIgnoresCase(s, t, p, "node");
    if AtIgnoreCase(s, p, "node") {
      AtIgnoreCaseIgnoresCase(s, t, p + 4, "js");
      var kw := if AtIgnoreCase(s, p + 4, "js") then "js" else "";
      AfterKeywordIgnoresCase(s, t, p + 4, kw);
      match AfterKeyword(s, p + 4, kw)
      case Some(q) => NodeVersionIgnoresCase(s, t, q);
      case None =>
    }
  }

  lemma MatchAtIgnoresCase(pat: Pattern, s: string, t: string, p: nat)
    requires IgnoresCase(pat) && SameIgnoringCase(s, t) && p <= |s|
    ensures MatchAt(pat, s, p) == MatchAt(pat, t, p)
  {
    match pat
    case OldPython => KeywordThenVersionIgnoresCase(s, t, p, "python", '2');
    case OldJava => MatchOldJavaIgnoresCase(s, t, p);
    case OldNode => MatchOldNodeIgnoresCase(s, t, p);
    case OldAngular => KeywordThenVersionIgnoresCase(s, t, p, "angular", '1');
  }

  /**
   * `re.IGNORECASE`: the version patterns find the same matches in two texts
   * that differ only in the case of their letters.
   */
  lemma {:induction false} FindAllIgnoresCase(pat: Pattern, s: string, t: string, p: nat)
    requires IgnoresCase(pat) && SameIgnoringCase(s, t) && p <= |s|
    ensures FindAll(pat, s, p) == FindAll(pat, t, p)
    decreases |s| - p
  {
    if p < |s| {
      MatchAtIgnoresCase(pat, s, t, p);
      match MatchAt(pat, s, p)
      case Some(e) => FindAllIgnoresCase(pat, s, t, e);
      case None => FindAllIgnoresCase(pat, s, t, p + 1);
    }
  }

  /** In particular, lower-casing the text first changes none of their matches. */
  lemma MatchesLower(pat: Pattern, s: string)
    requires IgnoresCase(pat)
    ensures Matches(pat, Lower(s)) == Matches(pat, s)
  {
    LowerSameIgnoringCase(s);
    FindAllIgnoresCase(pat, Lower(s), s, 0);
  }
}
