/**
 * The outcome of a review: its type and status enumerations and the mutable
 * `ReviewResult` record, which the review service fills in step by step.
 */
module ReviewResultModel {
  import opened Wrappers
  import opened ContentModel
  import opened Seqs

  datatype ReviewType = ERROR_DETECTION | COMPREHENSION | SOURCE_VERIFICATION | CONTENT_UPDATE | FULL_REVIEW
  {
    function Value(): string {
      match this
      case ERROR_DETECTION => "error_detection"
      case COMPREHENSION => "comprehension"
      case SOURCE_VERIFICATION => "source_verification"
      case CONTENT_UPDATE => "content_update"
      case FULL_REVIEW => "full_review"
    }
  }

  datatype ReviewStatus = PENDING | IN_PROGRESS | COMPLETED | FAILED
  {
    function Value(): string {
      match this
      case PENDING => "pending"
      case IN_PROGRESS => "in_progress"
      case COMPLETED => "completed"
      case FAILED => "failed"
    }
  }

  const AllReviewTypes: seq<ReviewType> :=
    [ReviewType.ERROR_DETECTION, ReviewType.COMPREHENSION, ReviewType.SOURCE_VERIFICATION,
     ReviewType.CONTENT_UPDATE, ReviewType.FULL_REVIEW]
  const AllStatuses: seq<ReviewStatus> := [PENDING, IN_PROGRESS, COMPLETED, FAILED]

  /** Declaration order of the enumerations. */
  function ReviewTypeIndex(t: ReviewType): nat {
    match t
    case ERROR_DETECTION => 0 case COMPREHENSION => 1 case SOURCE_VERIFICATION => 2
    case CONTENT_UPDATE => 3 case FULL_REVIEW => 4
  }

  function StatusIndex(s: ReviewStatus): nat {
    match s
    case PENDING => 0 case IN_PROGRESS => 1 case COMPLETED => 2 case FAILED => 3
  }

  /** Review types form a closed set of five values and statuses one of four, with distinct values. */
  lemma ClosedSets()
    ensures |AllReviewTypes| == 5 && forall t: ReviewType :: t in AllReviewTypes
    ensures |AllStatuses| == 4 && forall s: ReviewStatus :: s in AllStatuses
    ensures forall i, j :: 0 <= i < j < |AllReviewTypes| ==> AllReviewTypes[i].Value() != AllReviewTypes[j].Value()
    ensures forall i, j :: 0 <= i < j < |AllStatuses| ==> AllStatuses[i].Value() != AllStatuses[j].Value()
  {
    forall t: ReviewType ensures t in AllReviewTypes {
      assert t == AllReviewTypes[ReviewTypeIndex(t)];
    }
    forall s: ReviewStatus ensures s in AllStatuses {
      assert s == AllStatuses[StatusIndex(s)];
    }
  }

  /** A quality score: pydantic's `ge=0.0, le=100.0` on `quality_score`; penalties are whole numbers. */
  type Score = n: int | 0 <= n <= 100

  predicate IsCritical(i: ReviewIssue) {
    i.severity == CRITICAL
  }

  predicate IsHigh(i: ReviewIssue) {
    i.severity == HIGH
  }

  /**
   * Result of a content review. The generated `review_id` and the clock
   * readings `created_at` and `completed_at` are supplied by the caller.
   */
  class ReviewResult {
    var reviewId: string
    var contentId: string
    var reviewType: ReviewType
    var status: ReviewStatus
    var issues: seq<ReviewIssue>
    var summary: string
    var recommendations: seq<string>
    var qualityScore: Option<Score>
    var metadata: map<string, string>
    var createdAt: int
    var completedAt: Option<int>

    /** `ReviewResult(content_id=..., review_type=..., status=...)` with every other field at its default. */
    constructor(reviewId: string, contentId: string, reviewType: ReviewType, createdAt: int,
                status: ReviewStatus := PENDING)
      ensures this.reviewId == reviewId && this.contentId == contentId && this.reviewType == reviewType
      ensures this.createdAt == createdAt && this.status == status
      ensures issues == [] && summary == "" && recommendations == [] && qualityScore == None
      ensures metadata == map[] && completedAt == None
    {
      this.reviewId := reviewId;
      this.contentId := contentId;
      this.reviewType := reviewType;
      this.status := status;
      this.issues := [];
      this.summary := "";
      this.recommendations := [];
      this.qualityScore := None;
      this.metadata := map[];
      this.createdAt := createdAt;
      this.completedAt := None;
    }

    /** `add_issue`: append at the end; every other field and every earlier issue is left alone. */
    method AddIssue(issue: ReviewIssue)
      modifies this
      ensures issues == old(issues) + [issue]
      ensures |issues| == |old(issues)| + 1 && issues[..|old(issues)|] == old(issues)
      ensures reviewId == old(reviewId) && contentId == old(contentId) && reviewType == old(reviewType)
      ensures status == old(status) && summary == old(summary) && recommendations == old(recommendations)
      ensures qualityScore == old(qualityScore) && metadata == old(metadata)
      ensures createdAt == old(createdAt) && completedAt == old(completedAt)
      ensures GetCriticalIssues() == old(GetCriticalIssues()) + (if IsCritical(issue) then [issue] else [])
      ensures GetHighIssues() == old(GetHighIssues()) + (if IsHigh(issue) then [issue] else [])
    {
      issues := issues + [issue];
      assert issues[..|issues| - 1] == old(issues);
    }

    /** `get_critical_issues`: exactly the critical issues, in their original order. */
    function GetCriticalIssues(): (r: seq<ReviewIssue>)
      reads this
      ensures forall x :: x in r <==> x in issues && x.severity == CRITICAL
      ensures |r| == Count(issues, IsCritical)
      ensures forall i :: 0 <= i < |r| ==> r[i].severity == CRITICAL
      ensures forall x :: multiset(r)[x] == if x.severity == CRITICAL then multiset(issues)[x] else 0
      ensures r == Filter(issues, IsCritical)
    {
      FilterMembers(issues, IsCritical);
      FilterLength(issues, IsCritical);
      forall x {
        FilterMultiset(issues, IsCritical, x);
      }
      Filter(issues, IsCritical)
    }

    /** `get_high_issues`: exactly the high-severity issues, in their original order. */
    function GetHighIssues(): (r: seq<ReviewIssue>)
      reads this
      ensures forall x :: x in r <==> x in issues && x.severity == HIGH
      ensures |r| == Count(issues, IsHigh)
      ensures forall i :: 0 <= i < |r| ==> r[i].severity == HIGH
      ensures forall x :: multiset(r)[x] == if x.severity == HIGH then multiset(issues)[x] else 0
      ensures r == Filter(issues, IsHigh)
    {
      FilterMembers(issues, IsHigh);
      FilterLength(issues, IsHigh);
      forall x {
        FilterMultiset(issues, IsHigh, x);
      }
      Filter(issues, IsHigh)
    }
  }

  /** Filtering keeps the original order: the filter of a concatenation is the concatenation of the filters. */
  lemma SeverityFilterKeepsOrder(a: seq<ReviewIssue>, b: seq<ReviewIssue>)
    ensures Filter(a + b, IsCritical) == Filter(a, IsCritical) + Filter(b, IsCritical)
    ensures Filter(a + b, IsHigh) == Filter(a, IsHigh) + Filter(b, IsHigh)
  {
    FilterAppend(a, b, IsCritical);
    FilterAppend(a, b, IsHigh);
  }
}
