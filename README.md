# Content reviewer and auth service, modelled in Dafny

This project models two parts of an educational platform.

The **content reviewer agent** reviews a piece of course content (text, code,
slides and so on) with four agents:

- a rule-based *error detection* agent: misspellings from a fixed table,
  four grammar patterns, and a missing-colon check on code lines;
- two AI-backed agents, *comprehension* and *source verification*, which
  send a prompt to a language model and normalise the issues it reports;
- a rule-based *content update* agent: deprecated technologies, old version
  numbers, years more than five years old, and outdated URLs.

The *review service* runs the agents a review type calls for and collects
their issues in a fixed order. It fills in a `ReviewResult` with a summary,
recommendations and a 0–100 quality score, or marks the review failed when an
agent raises.

The **auth service** covers:

- a token-verification middleware that turns the identity provider's verdict
  on an ID token into an `AuthUser` or an HTTP error, with role, any-role
  and tenant checkers layered on it;
- the custom-claims check;
- the keyword arguments the provider's user calls are given;
- settings with the CORS origin list;
- password hashing and the service's own JSON Web Tokens (access and
  refresh tokens, whose `type` claim keeps them apart);
- the request dependencies that read the bearer token;
- the user table, kept by a repository object whose methods update it in
  place;
- registration, login and token refresh on top of the table;
- the user-management service, which checks a role whitelist before it
  writes.

Each source module is one Dafny module. Code that computes a value becomes a
function, with lemmas about it. Code with loops becomes a method, proved
against a specification function. The two objects whose fields change in
place become classes: `ReviewResult` and the user repository's table.

Clocks, generated ids, the bcrypt salt, the current year, the identity
provider's verifier, the language model's reply and the AI agents' outcomes
are all parameters. Signing and hashing are ideal codecs:

- a token is its payload together with the key and algorithm that signed
  it;
- a bcrypt digest is its salt and secret.

`/` and `%` do not appear on negative operands. Integers in the source are
Python integers and are modelled unbounded.

Regular expressions are modelled by one scanner per fixed pattern, with
`re.finditer`'s leftmost, non-overlapping enumeration in `Patterns.FindAll`.
Greedy matching and backtracking are worked out pattern by pattern. For
example, `an\s+[^aeiou]` can match with its last character being a space.

Python's `==` on claim values follows Python: `True == 1`, and `None` equals
only `None`.

## Model

Paths are relative to the repository root.

| member | source | states |
|---|---|---|
| ContentModel.ParseContentType | packages/content_reviewer_agent/src/content_reviewer_agent/models/content.py:11-19 | the enum lookup gives the content type whose value is the string, and every type with that value is the one returned |
| ContentModel.ParseSeverity | packages/content_reviewer_agent/src/content_reviewer_agent/models/content.py:22-29 | the severity whose value is the string, exactly |
| ContentModel.ParseIssueType | packages/content_reviewer_agent/src/content_reviewer_agent/models/content.py:32-43 | the issue type whose value is the string, exactly |
| ContentModel.ClosedSets | packages/content_reviewer_agent/src/content_reviewer_agent/models/content.py:11-43 | six content types, five severities and nine issue types, each listed once with distinct string values |
| ContentModel.MakeIssue | packages/content_reviewer_agent/src/content_reviewer_agent/models/content.py:87-89 | building an issue fails exactly when the confidence is outside [0, 1], with that error; otherwise it carries the given fields |
| ContentModel.ContentDefaults | packages/content_reviewer_agent/src/content_reviewer_agent/models/content.py:46-58 | content built from the required fields is of type text, with no discipline and empty metadata |
| ContentModel.ReviewIssueDefaults | packages/content_reviewer_agent/src/content_reviewer_agent/models/content.py:73-92 | an issue built from the required fields has no location, texts or agent, no sources and confidence 1.0 |
| ReviewResultModel.ClosedSets | packages/content_reviewer_agent/src/content_reviewer_agent/models/review_result.py:13-29 | five review types and four statuses with distinct values |
| ReviewResultModel.ReviewResult.constructor | packages/content_reviewer_agent/src/content_reviewer_agent/models/review_result.py:32-55 | a new result has the given ids, type and status and every other field at its default |
| ReviewResultModel.ReviewResult.AddIssue | packages/content_reviewer_agent/src/content_reviewer_agent/models/review_result.py:57-59 | the issue is appended at the end, earlier issues and all other fields unchanged, and the critical and high views grow by it exactly when it has that severity |
| ReviewResultModel.ReviewResult.GetCriticalIssues | packages/content_reviewer_agent/src/content_reviewer_agent/models/review_result.py:61-63 | exactly the critical issues of the review in their original order (the filter of the issue list), each with its multiplicity in the review |
| ReviewResultModel.ReviewResult.GetHighIssues | packages/content_reviewer_agent/src/content_reviewer_agent/models/review_result.py:65-67 | exactly the high issues of the review in their original order (the filter of the issue list), each with its multiplicity in the review |
| ReviewResultModel.SeverityFilterKeepsOrder | packages/content_reviewer_agent/src/content_reviewer_agent/models/review_result.py:61-67 | the severity views of a concatenation are the concatenated views, so the original order is kept |
| BaseAI.MapIssueType | packages/content_reviewer_agent/src/content_reviewer_agent/agents/base_ai.py:110-129 | the type whose value is the lower-cased string if it is one of the seven whitelisted types, else TECHNICAL |
| BaseAI.MapSeverity | packages/content_reviewer_agent/src/content_reviewer_agent/agents/base_ai.py:120-132 | the severity whose value is the lower-cased string unless it is INFO or none, else MEDIUM |
| BaseAI.CreateIssue | packages/content_reviewer_agent/src/content_reviewer_agent/agents/base_ai.py:152-194 | succeeds exactly for a confidence in [0, 1]; the issue carries the content id, the agent's name with the model name, the given fields and `sources or []` |
| BaseAI.ConvertAIIssues | packages/content_reviewer_agent/src/content_reviewer_agent/agents/base_ai.py:93-150 | the loop returns the converted issues: each input in order, skipping those whose construction fails |
| BaseAI.Review | packages/content_reviewer_agent/src/content_reviewer_agent/agents/base_ai.py:50-91 | a raising model call fails with its error; an empty reply gives no issues; a validation error is raised; otherwise the result is the conversion of the validated issues, one per issue with a valid confidence |
| BaseAI.WhitelistDefaults | packages/content_reviewer_agent/src/content_reviewer_agent/agents/base_ai.py:110-132 | "technical" and "factual" fall back to TECHNICAL, "info" to MEDIUM, and mixed case is accepted |
| BaseAI.WhitelistRanges | packages/content_reviewer_agent/src/content_reviewer_agent/agents/base_ai.py:110-132 | the whitelists never yield FACTUAL or INFO |
| BaseAI.WhitelistsIgnoreCase | packages/content_reviewer_agent/src/content_reviewer_agent/agents/base_ai.py:127-132 | two strings that differ only in case map to the same type and severity |
| BaseAI.ConvertedLength | packages/content_reviewer_agent/src/content_reviewer_agent/agents/base_ai.py:105-150 | exactly the inputs with a valid confidence yield an issue, so at most one issue per input |
| BaseAI.ConvertedAppend | packages/content_reviewer_agent/src/content_reviewer_agent/agents/base_ai.py:105-150 | conversion works item by item, so the order of the model's issues is kept |
| BaseAI.ConvertedFields | packages/content_reviewer_agent/src/content_reviewer_agent/agents/base_ai.py:127-144 | every converted issue carries the content id and agent name, and comes from an input whose whitelisted type, severity, description and sources it has |
| Patterns.WordsFrom | packages/content_reviewer_agent/src/content_reviewer_agent/agents/error_detection.py:60 | `\b\w+\b` yields non-empty runs of word characters only |
| Patterns.MatchYear | packages/content_reviewer_agent/src/content_reviewer_agent/agents/content_update.py:156 | a year match is four digits whose value lies from 1900 to 2022 |
| Patterns.FindAll | packages/content_reviewer_agent/src/content_reviewer_agent/agents/error_detection.py:77 | every reported span is non-empty and inside the scanned part of the text, and spans are in order and do not overlap |
| Patterns.FindAllAreMatches | packages/content_reviewer_agent/src/content_reviewer_agent/agents/error_detection.py:77 | every reported span is a match of the pattern: it starts where the pattern matches and ends where that match ends |
| Patterns.FindAllCovers | packages/content_reviewer_agent/src/content_reviewer_agent/agents/error_detection.py:77 | no position where the pattern matches is skipped unless a reported match covers it |
| Patterns.MaximalRunIsMatched | packages/content_reviewer_agent/src/content_reviewer_agent/agents/error_detection.py:43 | every maximal whitespace run of length two or more is reported |
| Patterns.MultipleSpacesAreMaximalRuns | packages/content_reviewer_agent/src/content_reviewer_agent/agents/error_detection.py:43 | the `\s\s+` matches are exactly the maximal whitespace runs of length at least two |
| Patterns.MatchAtIgnoresCase | packages/content_reviewer_agent/src/content_reviewer_agent/agents/content_update.py:51-56 | the case-insensitive version patterns match at the same place with the same end in two texts that differ only in case |
| Patterns.FindAllIgnoresCase | packages/content_reviewer_agent/src/content_reviewer_agent/agents/content_update.py:127 | with `re.IGNORECASE` the version patterns find the same matches in texts differing only in case |
| Patterns.MatchesLower | packages/content_reviewer_agent/src/content_reviewer_agent/agents/content_update.py:127 | lower-casing the text first changes none of those matches |
| Text.Lower | packages/content_reviewer_agent/src/content_reviewer_agent/agents/error_detection.py:57 | same length, each character lowered |
| Text.Strip | packages/content_reviewer_agent/src/content_reviewer_agent/agents/error_detection.py:112 | the result is no longer than the input and neither starts nor ends with whitespace |
| Text.StripIsSlice | packages/content_reviewer_agent/src/content_reviewer_agent/agents/error_detection.py:112 | the result is the slice of the input after its leading whitespace, with only whitespace before and after it |
| Text.StripKeepsOut | packages/auth_service/src/auth_service/core/config.py:44 | stripping adds no character, so a comma-free part stays comma-free |
| Text.LowerCharKeepsSpace | packages/content_reviewer_agent/src/content_reviewer_agent/agents/content_update.py:127 | lower-casing a character neither makes nor unmakes whitespace |
| Text.Split | packages/content_reviewer_agent/src/content_reviewer_agent/agents/error_detection.py:109 | one more part than separators, no part holds the separator, and joining the parts gives back the text |
| Text.SplitJoinWith | packages/auth_service/src/auth_service/core/config.py:44 | splitting separator-free parts joined by the separator gives back the parts |
| Text.NatToString | packages/content_reviewer_agent/src/content_reviewer_agent/services/review_service.py:109 | a non-empty run of decimal digits without a leading zero |
| Text.NatToStringRoundTrip | packages/content_reviewer_agent/src/content_reviewer_agent/services/review_service.py:118 | the decimal digits read back as the number |
| ErrorDetection.KeywordThenSpaceFrom | packages/content_reviewer_agent/src/content_reviewer_agent/agents/error_detection.py:112 | true iff some keyword followed by a whitespace character occurs from the position on |
| ErrorDetection.CheckSpelling | packages/content_reviewer_agent/src/content_reviewer_agent/agents/error_detection.py:56-73 | the loop gives one issue per misspelt lower-cased word, in word order |
| ErrorDetection.CheckGrammar | packages/content_reviewer_agent/src/content_reviewer_agent/agents/error_detection.py:75-89 | every match of every grammar pattern, pattern by pattern, one issue each |
| ErrorDetection.CheckCodeSyntax | packages/content_reviewer_agent/src/content_reviewer_agent/agents/error_detection.py:97-126 | one issue per flagged line, numbered from 1 |
| ErrorDetection.Review | packages/content_reviewer_agent/src/content_reviewer_agent/agents/error_detection.py:47-95 | spelling, then grammar, then (for code only) syntax issues |
| ErrorDetection.SpellingIssuesPerWord | packages/content_reviewer_agent/src/content_reviewer_agent/agents/error_detection.py:60-73 | each occurrence of a misspelt word gives one issue, repeats included, none for other words, each with its correction |
| ErrorDetection.SpellingIgnoresCase | packages/content_reviewer_agent/src/content_reviewer_agent/agents/error_detection.py:57-62 | texts differing only in case get the same spelling issues |
| ErrorDetection.SpellingWordsAreLower | packages/content_reviewer_agent/src/content_reviewer_agent/agents/error_detection.py:57-69 | every word looked up is already lower-case |
| ErrorDetection.RuleIssuesAreMatches | packages/content_reviewer_agent/src/content_reviewer_agent/agents/error_detection.py:76-89 | one issue per match, with its text and `Position start-end` |
| ErrorDetection.MultipleSpacesIssues | packages/content_reviewer_agent/src/content_reviewer_agent/agents/error_detection.py:43 | each maximal run of two or more whitespace characters gives exactly one "Multiple consecutive spaces" issue, and each such issue comes from one |
| ErrorDetection.ColonLinesNotFlagged | packages/content_reviewer_agent/src/content_reviewer_agent/agents/error_detection.py:112-113 | a stripped line ending in a colon is never flagged |
| ErrorDetection.SyntaxIssuesComplete | packages/content_reviewer_agent/src/content_reviewer_agent/agents/error_detection.py:109-124 | every flagged line gives its issue at `Line i` |
| ErrorDetection.SyntaxIssuesSound | packages/content_reviewer_agent/src/content_reviewer_agent/agents/error_detection.py:109-124 | every syntax issue is that of a flagged line |
| ErrorDetection.SyntaxOnlyForCode | packages/content_reviewer_agent/src/content_reviewer_agent/agents/error_detection.py:91-93 | the review has a syntax issue iff the content is code and some line is flagged |
| ErrorDetection.SyntaxIssuesFlagged | packages/content_reviewer_agent/src/content_reviewer_agent/agents/error_detection.py:109-124 | the syntax part is non-empty iff some line is flagged |
| ErrorDetection.SpellingAndGrammarTypes | packages/content_reviewer_agent/src/content_reviewer_agent/agents/error_detection.py:63-89 | spelling issues have type SPELLING and grammar issues GRAMMAR |
| ErrorDetection.ReviewOrder | packages/content_reviewer_agent/src/content_reviewer_agent/agents/error_detection.py:56-95 | the output is grouped: all spelling, then all grammar, then all syntax issues |
| ContentUpdate.CheckDeprecatedTech | packages/content_reviewer_agent/src/content_reviewer_agent/agents/content_update.py:86-113 | the loop gives the deprecated-technology issues of the whole table |
| ContentUpdate.CheckOldVersions | packages/content_reviewer_agent/src/content_reviewer_agent/agents/content_update.py:115-142 | every match of every version pattern, pattern by pattern |
| ContentUpdate.CheckOutdatedDates | packages/content_reviewer_agent/src/content_reviewer_agent/agents/content_update.py:144-182 | one issue per year match more than five years old |
| ContentUpdate.CheckOutdatedUrls | packages/content_reviewer_agent/src/content_reviewer_agent/agents/content_update.py:184-217 | every match of every URL pattern, pattern by pattern |
| ContentUpdate.Review | packages/content_reviewer_agent/src/content_reviewer_agent/agents/content_update.py:61-84 | deprecated, version, date, then URL issues |
| ContentUpdate.DistinctTechs | packages/content_reviewer_agent/src/content_reviewer_agent/agents/content_update.py:27-48 | the table's technologies are distinct |
| ContentUpdate.DeprecatedIssuesExact | packages/content_reviewer_agent/src/content_reviewer_agent/agents/content_update.py:96-111 | a technology is reported iff the lower-cased text mentions it, and every issue comes from such an entry |
| ContentUpdate.DeprecatedIssuesOncePerTech | packages/content_reviewer_agent/src/content_reviewer_agent/agents/content_update.py:98-111 | each technology is reported at most once |
| ContentUpdate.DeprecatedIgnoresCase | packages/content_reviewer_agent/src/content_reviewer_agent/agents/content_update.py:96-99 | texts differing only in case get the same deprecated issues |
| ContentUpdate.VersionIssuesIgnoreCase | packages/content_reviewer_agent/src/content_reviewer_agent/agents/content_update.py:126-140 | a text and its lower-cased form give issues at the same positions with the same messages |
| ContentUpdate.DateIssuesExact | packages/content_reviewer_agent/src/content_reviewer_agent/agents/content_update.py:155-180 | every year found that is more than five years old gives its issue, and every date issue is one of these |
| ContentUpdate.YearMatches | packages/content_reviewer_agent/src/content_reviewer_agent/agents/content_update.py:156 | every year match is four digits from 1900 to 2022 |
| ContentUpdate.DateSeverity | packages/content_reviewer_agent/src/content_reviewer_agent/agents/content_update.py:161-173 | a date issue is low for a year six to nine years old and medium if older; five years or fewer is never reported |
| ContentUpdate.NoDateIssuesBefore1906 | packages/content_reviewer_agent/src/content_reviewer_agent/agents/content_update.py:156-164 | with a current year before 1906 no year is old enough |
| ContentUpdate.PlainHttpMatchedAt | packages/content_reviewer_agent/src/content_reviewer_agent/agents/content_update.py:198 | every `http://` not followed by `https` is matched |
| ContentUpdate.HttpDoesNotOverlap | packages/content_reviewer_agent/src/content_reviewer_agent/agents/content_update.py:198 | two occurrences of `http://` never overlap |
| ContentUpdate.PythonDocsAlsoNotHttps | packages/content_reviewer_agent/src/content_reviewer_agent/agents/content_update.py:196-204 | a Python 2 documentation link is also reported as a non-HTTPS URL |
| ContentUpdate.ReviewKinds | packages/content_reviewer_agent/src/content_reviewer_agent/agents/content_update.py:100-214 | deprecated issues are high; all others are outdated and medium or low |
| ContentUpdate.DeprecatedKinds | packages/content_reviewer_agent/src/content_reviewer_agent/agents/content_update.py:100-110 | deprecated issues have type DEPRECATED and severity HIGH |
| ContentUpdate.VersionKinds | packages/content_reviewer_agent/src/content_reviewer_agent/agents/content_update.py:129-139 | version issues are OUTDATED and MEDIUM |
| ContentUpdate.DateKinds | packages/content_reviewer_agent/src/content_reviewer_agent/agents/content_update.py:165-179 | date issues are OUTDATED, LOW or MEDIUM |
| ContentUpdate.UrlKinds | packages/content_reviewer_agent/src/content_reviewer_agent/agents/content_update.py:205-214 | URL issues are OUTDATED and MEDIUM |
| ReviewService.SeverityParts | packages/content_reviewer_agent/src/content_reviewer_agent/services/review_service.py:102-115 | the parts are the critical, high, medium and low counts in that order, each present exactly when non-zero and written as the number and the severity; none iff every issue is info |
| ReviewService.Summary | packages/content_reviewer_agent/src/content_reviewer_agent/services/review_service.py:99-118 | the "no issues" text iff there are no issues; otherwise the total and the joined severity parts |
| ReviewService.CountType | packages/content_reviewer_agent/src/content_reviewer_agent/services/review_service.py:132-135 | a per-type count never exceeds the number of issues |
| ReviewService.GenerateRecommendations | packages/content_reviewer_agent/src/content_reviewer_agent/services/review_service.py:129-157 | the counting loop and threshold tests give the recommendations specified by the thresholds |
| ReviewService.CalculateQualityScore | packages/content_reviewer_agent/src/content_reviewer_agent/services/review_service.py:171-189 | the deduction loop gives the quality score: 0 for empty text, else 100 less the penalties, floored at 0 |
| ReviewService.DispatchAgents | packages/content_reviewer_agent/src/content_reviewer_agent/services/review_service.py:50-70 | the branches give the issues of the agents the review type calls for, or the first agent error |
| ReviewService.RunReviewAgents | packages/content_reviewer_agent/src/content_reviewer_agent/services/review_service.py:54-70 | the rule-based agents run only when called for, and the outcome is the dispatch over all agents' outcomes |
| ReviewService.ReviewContent | packages/content_reviewer_agent/src/content_reviewer_agent/services/review_service.py:30-88 | a fresh result with the given ids and type; completed with the issues, summary, recommendations and score when no agent raises; otherwise failed with "Review failed: " and the message, everything else at its default |
| ReviewService.StoreOutcome | packages/content_reviewer_agent/src/content_reviewer_agent/services/review_service.py:72-86 | the completed or failed fields are written and the ids and metadata are kept |
| ReviewService.IssueTypeValueInjective | packages/content_reviewer_agent/src/content_reviewer_agent/services/review_service.py:134-135 | counting by type value is counting by type |
| ReviewService.CountsAllZero | packages/content_reviewer_agent/src/content_reviewer_agent/services/review_service.py:102-105 | all four counts are zero iff every issue is info |
| ReviewService.AgentsListed | packages/content_reviewer_agent/src/content_reviewer_agent/services/review_service.py:197-220 | four agents with distinct names and the four single review types, in order |
| ReviewService.FullReviewOrder | packages/content_reviewer_agent/src/content_reviewer_agent/services/review_service.py:54-58 | a full review's issues are error, comprehension, source and update issues, concatenated in that order |
| ReviewService.SingleTypeRunsOneAgent | packages/content_reviewer_agent/src/content_reviewer_agent/services/review_service.py:60-70 | a single review type gives its one agent's outcome, whatever the others would do |
| ReviewService.FullReviewFailure | packages/content_reviewer_agent/src/content_reviewer_agent/services/review_service.py:84-86 | a full review fails iff an AI agent raises, with the first message |
| ReviewService.SummaryOrderFree | packages/content_reviewer_agent/src/content_reviewer_agent/services/review_service.py:99-118 | the summary does not depend on the order of the issues |
| ReviewService.SummaryAllInfo | packages/content_reviewer_agent/src/content_reviewer_agent/services/review_service.py:107-118 | all-info issues are counted but give an empty list of counts |
| ReviewService.SummaryExample | packages/content_reviewer_agent/src/content_reviewer_agent/services/review_service.py:99-118 | two critical issues and a low one give "Found 3 issue(s): 2 critical, 1 low" |
| ReviewService.RecommendationsShape | packages/content_reviewer_agent/src/content_reviewer_agent/services/review_service.py:154-157 | never empty; "quality is good overall" appears iff no threshold fired, and then alone |
| ReviewService.RecommendationThresholds | packages/content_reviewer_agent/src/content_reviewer_agent/services/review_service.py:138-152 | each message appears iff its count exceeds its threshold (spelling 3, comprehension 5, source 2, outdated 0) |
| ReviewService.RecommendationsIgnoreOtherTypes | packages/content_reviewer_agent/src/content_reviewer_agent/services/review_service.py:132-152 | an issue of any other type never changes the recommendations |
| ReviewService.RecommendationsOrderFree | packages/content_reviewer_agent/src/content_reviewer_agent/services/review_service.py:132-157 | the recommendations do not depend on the order of the issues |
| ReviewService.EmptyTextScoresZero | packages/content_reviewer_agent/src/content_reviewer_agent/services/review_service.py:171-172 | empty text scores 0 |
| ReviewService.ScoreByCounts | packages/content_reviewer_agent/src/content_reviewer_agent/services/review_service.py:174-189 | the score is the maximum of 0 and 100 less 10, 5, 2 and 1 per critical, high, medium and low issue |
| ReviewService.InfoIsFree | packages/content_reviewer_agent/src/content_reviewer_agent/services/review_service.py:178-186 | info issues cost nothing |
| ReviewService.ScoreMonotone | packages/content_reviewer_agent/src/content_reviewer_agent/services/review_service.py:174-189 | adding issues never raises the score |
| ReviewService.ScoreOrderFree | packages/content_reviewer_agent/src/content_reviewer_agent/services/review_service.py:178-189 | the score does not depend on the order of the issues |
| AuthModel.Get | packages/auth_service/src/auth_service/middleware.py:64-79 | `dict.get`: present iff the key is in the dictionary, with its value |
| AuthModel.EqualIsEquivalence | packages/auth_service/src/auth_service/utils.py:73-82 | Python `==` on claim values is reflexive, symmetric and transitive |
| AuthModel.EqualStrings | packages/auth_service/src/auth_service/utils.py:73-82 | a string equals only the same string; `True == 1` but not `"1"`, and `None != False` |
| AuthModel.OptionValueEqual | packages/auth_service/src/auth_service/utils.py:73-82 | an optional string equals a value iff the value is that string, or null for `None` |
| Middleware.VerifyFirebaseToken | packages/auth_service/src/auth_service/middleware.py:23-111 | missing credentials give 401 before the verifier runs; success iff the token verified and its claims validate, with the user built from them; expired, revoked and invalid tokens give their 401; anything else gives 500 |
| Middleware.RequireRole | packages/auth_service/src/auth_service/middleware.py:132-141 | passes iff the role is the required one or admin, with the same user; else 403 naming the role |
| Middleware.RequireAnyRole | packages/auth_service/src/auth_service/middleware.py:164-175 | passes iff the role is listed or admin; else 403 naming the joined roles |
| Middleware.RequireTenant | packages/auth_service/src/auth_service/middleware.py:196-207 | passes iff the tenant matches or the user is admin; else 403 naming the tenant |
| Middleware.CustomClaimsProjection | packages/auth_service/src/auth_service/middleware.py:72-76 | custom claims are the decoded claims minus the eleven reserved keys, values unchanged, and the projection is idempotent |
| Middleware.NoRoleRejected | packages/auth_service/src/auth_service/middleware.py:132-175 | a user without a role passes no role check |
| Middleware.AdminBypass | packages/auth_service/src/auth_service/middleware.py:132-207 | an admin passes every role and tenant check |
| Middleware.AnyRoleEdgeCases | packages/auth_service/src/auth_service/middleware.py:164-175 | with no roles only admins pass; a single role behaves as the role check |
| Middleware.AnyRoleMonotone | packages/auth_service/src/auth_service/middleware.py:164-175 | listing more roles never turns a pass into a refusal |
| Middleware.DistinctFailures | packages/auth_service/src/auth_service/middleware.py:47-111 | the four 401 responses have distinct details, and the service error is not a 401 |
| Middleware.GuardedMissingCredentials | packages/auth_service/src/auth_service/middleware.py:47-53 | with no credentials every guarded route answers 401 |
| Middleware.GuardedPasses | packages/auth_service/src/auth_service/middleware.py:132-141 | a role-guarded route passes iff the token verified and the role check passed for that user |
| Middleware.VerifiedRole | packages/auth_service/src/auth_service/middleware.py:63-80 | a verified token's role claim becomes the user's role and is not among the custom claims |
| AuthUtils.VerifyCustomClaims | packages/auth_service/src/auth_service/utils.py:55-82 | true iff every required pair holds, whatever order the pairs are visited in |
| AuthUtils.CreateUserArgs | packages/auth_service/src/auth_service/utils.py:179-188 | email and email_verified always; password, display name and photo URL exactly when given and non-empty |
| AuthUtils.UpdateUserArgs | packages/auth_service/src/auth_service/utils.py:220-232 | exactly the arguments that are not `None`, with their values |
| AuthUtils.RefusesIffNotHolds | packages/auth_service/src/auth_service/utils.py:73-82 | the loop's early return fires on a pair iff the pair does not hold |
| AuthUtils.RoleShadowedByCustomClaim | packages/auth_service/src/auth_service/utils.py:73-82 | a matching role still fails when a custom `role` claim disagrees |
| AuthUtils.CustomKeyRequirement | packages/auth_service/src/auth_service/utils.py:73-82 | another key fails when absent and holds iff the claim equals the value |
| AuthUtils.ClaimExamples | packages/auth_service/tests/test_utils.py:11-30 | the role and tenant of the test user hold, "admin" and a missing claim do not |
| AuthUtils.EmptyStringArguments | packages/auth_service/src/auth_service/utils.py:179-232 | an empty password is dropped by create but forwarded by update |
| Config.CorsOriginsList | packages/auth_service/src/auth_service/core/config.py:41-44 | one entry per comma-separated segment, entry i being segment i stripped; no entry holds a comma or starts or ends with whitespace |
| Config.Defaults | packages/auth_service/src/auth_service/core/config.py:16-19 | HS256, 30 minutes and 7 days by default |
| Config.CorsRoundTrip | packages/auth_service/src/auth_service/core/config.py:41-44 | unpadded comma-free origins come back from their comma-joined setting |
| Config.TwoOrigins | packages/auth_service/src/auth_service/core/config.py:41-44 | two unpadded origins come back as the two of them |
| Config.DefaultCorsList | packages/auth_service/src/auth_service/core/config.py:29 | the default gives the two localhost origins |
| Config.EmptyCorsList | packages/auth_service/src/auth_service/core/config.py:41-44 | an empty setting gives one empty origin |
| Security.Decode | packages/auth_service/src/auth_service/core/security.py:104-106 | the payload iff the token was signed with the configured key and algorithm, `exp`, if present, is an integer not yet past, and `sub`, if present, is a string |
| Security.AccessExpiry | packages/auth_service/src/auth_service/core/security.py:56-61 | a non-zero delta from now, else the configured minutes |
| Security.AccessPayload | packages/auth_service/src/auth_service/core/security.py:54-63 | the caller's keys plus `exp` and `type`, which override, and nothing else changed |
| Security.RefreshPayload | packages/auth_service/src/auth_service/core/security.py:81-82 | exactly `sub`, `exp` and `type` "refresh" |
| Security.CreateAccessToken | packages/auth_service/src/auth_service/core/security.py:41-68 | signed with the configured key and algorithm over the access payload |
| Security.CreateRefreshToken | packages/auth_service/src/auth_service/core/security.py:71-87 | signed with the configured key and algorithm over the refresh payload |
| Security.DecodeAccessToken | packages/auth_service/src/auth_service/core/security.py:90-114 | the payload iff it decodes and its type is "access" |
| Security.DecodeRefreshToken | packages/auth_service/src/auth_service/core/security.py:117-141 | the payload iff it decodes and its type is "refresh" |
| Security.HashAxioms | packages/auth_service/src/auth_service/core/security.py:14-38 | a hash verifies its own password and no other; different salts give different hashes |
| Security.ZeroDeltaFallsBack | packages/auth_service/src/auth_service/core/security.py:56-61 | a zero delta is falsy and falls back to the 30 default minutes |
| Security.AccessRoundTrip | packages/auth_service/src/auth_service/core/security.py:41-114 | before expiry an access token decodes to the caller's data with `exp` and type "access" |
| Security.RefreshRoundTrip | packages/auth_service/src/auth_service/core/security.py:71-141 | before expiry a refresh token decodes to exactly its payload: the user id, `exp` and type "refresh", and nothing else |
| Security.TokenTypesDisjoint | packages/auth_service/src/auth_service/core/security.py:109-137 | no token decodes both as an access and as a refresh token |
| Security.WrongTypeRejected | packages/auth_service/src/auth_service/core/security.py:109-137 | access tokens never decode as refresh tokens and vice versa |
| Security.ExpiredOrForeignRejected | packages/auth_service/src/auth_service/core/security.py:90-114 | a token is refused after its expiry and under any other key |
| Dependencies.GetCurrentUserId | packages/auth_service/src/auth_service/core/dependencies.py:27-42 | the `sub` iff the token decodes as an access token with a `sub`; else 401 "Could not validate credentials" |
| Dependencies.GetCurrentUserRole | packages/auth_service/src/auth_service/core/dependencies.py:58-73 | the role iff the access token decodes and has a non-null role; else 401 |
| Dependencies.RequireRole | packages/auth_service/src/auth_service/core/dependencies.py:87-101 | the user id iff both dependencies succeed and the role is admin or the required one; else their 401 or 403 "Insufficient permissions" |
| Dependencies.RefreshTokenRefused | packages/auth_service/src/auth_service/core/dependencies.py:33-42 | a refresh token is refused with 401 by every dependency |
| Dependencies.LoginTokenAuthorizes | packages/auth_service/src/auth_service/core/dependencies.py:87-101 | a fresh login token gives its user id and role, and passes iff the role is admin or the required one |
| Dependencies.AdminPassesEverything | packages/auth_service/src/auth_service/core/dependencies.py:93-94 | an admin token passes every role requirement |
| Users.ToUser | packages/auth_service/src/auth_service/services/auth_service.py:145-168 | the public user keeps every field of the record except the hash and update time |
| Users.NewRecord | packages/auth_service/src/auth_service/repositories/user_repository.py:41-65 | a new record is active, role "user", has no provider, the given hash, and equal creation and update times |
| Users.ProjectionForgetsPassword | packages/auth_service/src/auth_service/services/auth_service.py:145-168 | two records project alike iff they differ at most in hash and update time |
| Users.UpdateKeepsOtherFields | packages/auth_service/src/auth_service/repositories/user_repository.py:160-188 | an update changes only the supplied fields and the update time |
| UserRepositoryModel.UserRepository.constructor | packages/auth_service/src/auth_service/repositories/user_repository.py:16-24 | an empty, valid table |
| UserRepositoryModel.UserRepository.GetUserById | packages/auth_service/src/auth_service/repositories/user_repository.py:67-90 | the stored record iff the id is stored |
| UserRepositoryModel.UserRepository.GetUserByEmail | packages/auth_service/src/auth_service/repositories/user_repository.py:92-121 | a record iff some record holds the email, and it is that stored record |
| UserRepositoryModel.UserRepository.CreateUser | packages/auth_service/src/auth_service/repositories/user_repository.py:41-65 | a taken email is refused with nothing written; otherwise exactly the new record is added, keeping ids and emails unique, and the call still fails with the `TypeError` of the duplicated `created_at` keyword, so it never returns a record |
| UserRepositoryModel.UserRepository.CreateUserAsDocumented | packages/auth_service/src/auth_service/repositories/user_repository.py:26-65 | as documented: the same refusal and the same write, and the stored record is returned |
| UserRepositoryModel.UserRepository.UpdateUser | packages/auth_service/src/auth_service/repositories/user_repository.py:137-188 | unknown id gives `None`; an email held by another record is refused before any write; no fields gives the stored record; otherwise exactly that record is updated |
| UserRepositoryModel.UserRepository.DeleteUser | packages/auth_service/src/auth_service/repositories/user_repository.py:200-211 | a soft delete marks the record inactive with a new update time and answers true |
| UserRepositoryModel.UserRepository.UpdateUserRole | packages/auth_service/src/auth_service/repositories/user_repository.py:224-242 | only the role and update time of the record change; an unknown id raises `KeyError('created_at')` |
| AuthServiceModel.RegisterUser | packages/auth_service/src/auth_service/services/auth_service.py:33-47 | a taken email is refused with nothing written; otherwise the record with the hashed password is stored and the repository's `TypeError` reaches the caller |
| AuthServiceModel.RegisterUserAsDocumented | packages/auth_service/src/auth_service/services/auth_service.py:19-47 | as documented: the same refusal and write, and the projection of the stored record is returned |
| AuthServiceModel.AuthenticateUser | packages/auth_service/src/auth_service/services/auth_service.py:61-78 | the record iff the email is held by an active record with a hash that verifies the password; `None` for each other refusal; an unidentifiable hash raises |
| AuthServiceModel.Login | packages/auth_service/src/auth_service/services/auth_service.py:92-105 | `None` iff authentication gives none; otherwise bearer tokens for the user and stored role |
| AuthServiceModel.RefreshAccessToken | packages/auth_service/src/auth_service/services/auth_service.py:117-143 | new tokens iff the refresh token decodes, has a non-empty string `sub`, and that user is stored and active; they carry the role stored now |
| AuthServiceModel.GetUserById | packages/auth_service/src/auth_service/services/auth_service.py:145-168 | the projection of the stored record iff it exists |
| AuthServiceModel.AuthenticationGuards | packages/auth_service/src/auth_service/services/auth_service.py:61-78 | an unknown email, an inactive user, a missing hash or a wrong password each alone gives `None` |
| AuthServiceModel.RegisteredPasswordAccepted | packages/auth_service/src/auth_service/services/auth_service.py:33-78 | a registered record accepts exactly its password |
| AuthServiceModel.LoginTokensDecode | packages/auth_service/src/auth_service/services/auth_service.py:92-105 | before expiry a login's access token decodes to the user id and role and its refresh token to the user id |
| AuthServiceModel.RefreshAfterLogin | packages/auth_service/src/auth_service/services/auth_service.py:117-143 | a login's refresh token, while valid and the user is active, refreshes to tokens with the current role |
| AuthServiceModel.RefreshRefusals | packages/auth_service/src/auth_service/services/auth_service.py:117-143 | an access token never refreshes, nor does a refresh token of a removed or inactive user |
| UserServiceModel.GetUser | src/apps/auth_service/src/services/user_service.py:15-38 | `None` iff the id is not stored; otherwise the record's projection |
| UserServiceModel.UpdateUser | src/apps/auth_service/src/services/user_service.py:40-69 | the repository update projected: an unknown id gives `None`; a taken email is refused with the table unchanged; otherwise the stored record becomes the updated one (unchanged when nothing is supplied) and its projection is returned; other records are untouched |
| UserServiceModel.DeleteUser | src/apps/auth_service/src/services/user_service.py:71-81 | the repository's soft delete, answering true |
| UserServiceModel.UpdateUserRole | src/apps/auth_service/src/services/user_service.py:95-112 | a role off the whitelist is refused before any write; otherwise the role is written and returned; an unknown id fails with the table unchanged |
| UserServiceModel.RoleWhitelist | src/apps/auth_service/src/services/user_service.py:95-99 | the whitelist is "user", "recruiter" and "admin" and nothing else |

## Code and documentation differ

- `update_user_role` in the repository is documented to return `None` for an
  unknown user. Its code reads `created_at` from the attributes of an item
  that was never stored, which raises `KeyError`. The model follows the code:
  `UserRepository.UpdateUserRole` fails with `'created_at'`.
- `create_user` in the repository is documented to return the created user.
  Its item already holds `created_at` and `updated_at`, and the return
  statement passes both again as keywords to `UserInDB`, which raises
  `TypeError` after `put_item` has stored the record; `register_user` passes
  the error on. The model follows the code in `UserRepository.CreateUser` and
  `AuthServiceModel.RegisterUser`, which store the record and fail, and keeps
  the documented behaviour as `UserRepository.CreateUserAsDocumented` and
  `AuthServiceModel.RegisterUserAsDocumented`. The `TypeError` message is
  written without the module path CPython puts before `UserInDB()`.
- The invalid-role message prints a Python set, whose order depends on string
  hashing. The model fixes the order "user", "recruiter", "admin".

## Left out

- The model call, prompt texts and JSON validation of the AI agents are parameters. The comprehension and source verification agents add only prompt text to the base agent, so they are not part of this model beyond `BaseAI`.
- `asyncio`, logging and `print` have no counterpart; they change no result.
- Regular expressions: `\w`, `\b`, `\d` and `str.lower` are modelled for ASCII letters and digits only (Python's `\d` also matches other Unicode decimal digits); `\s` and `strip()` follow Python's whitespace set.
- `Content.metadata` values are strings; the generated `issue_id`, `content_id` and `created_at` defaults are parameters or omitted.
- Floating point: confidences are `real`, and the quality score is a whole number from 0 to 100, as every penalty is a whole number.
- Patterns.MatchAt and the per-pattern scanners (`MatchAThenVowel`, `MatchOldJava` and the others): their contracts state only that a match lies inside the text and is non-empty; what each matches is its body, one case per regular expression, and the lemmas that state properties of the matches.
- Middleware.VerifyFirebaseToken: pydantic's lax coercions (`email_verified` from 0, 1 or "true", datetimes from ISO strings) and email validation are not modelled; such claims count as failing validation.
- The identity provider's SDK (`verify_id_token`, user and claim administration) is a parameter or not part of this model; the helpers in `utils.py` other than `verify_custom_claims` and the argument building of `create_user` and `update_user` only forward to it.
- Security.Decode: jose's checks of `iat`, `nbf`, `aud`, `iss` and `jti` are not modelled; only `exp` and `sub` are.
- Claim values cover null, booleans, integers and strings; floats, lists and nested objects are not modelled.
- Signing and hashing are ideal: HMAC and bcrypt themselves, and tokens that are well-formed text but signed in some other way, are not modelled.
- DynamoDB: `ClientError` paths are not modelled, so the repository never returns `None` or `False` because the database failed; the upsert that `update_item` performs on an unknown id in `delete_user` and `update_user_role` is not modelled.
- UserRepositoryModel.UserRepository.CreateUser: the generated `uuid4` id is a parameter required to be fresh.
- `models/user.py` and `models/token.py` are not part of this model; the record fields are the ones the repository and services read and write.
