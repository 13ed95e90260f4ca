// UserInsight: an observation about a user's activity with a recommendation,
// and its display helpers for the type, the priority and expiry.

module UserInsightEntities {
  import opened Common

  datatype InsightType =
    | MatchingImprovement | SkillDevelopment | NetworkingOpportunity | ContentRecommendation | GoalAchievement
    | BehaviorPattern | EngagementOptimization | CareerGrowth | MentorshipSuggestion | ActivityRecommendation

  function InsightTypeName(t: InsightType): string
  {
    match t
    case MatchingImprovement => "MATCHING_IMPROVEMENT"
    case SkillDevelopment => "SKILL_DEVELOPMENT"
    case NetworkingOpportunity => "NETWORKING_OPPORTUNITY"
    case ContentRecommendation => "CONTENT_RECOMMENDATION"
    case GoalAchievement => "GOAL_ACHIEVEMENT"
    case BehaviorPattern => "BEHAVIOR_PATTERN"
    case EngagementOptimization => "ENGAGEMENT_OPTIMIZATION"
    case CareerGrowth => "CAREER_GROWTH"
    case MentorshipSuggestion => "MENTORSHIP_SUGGESTION"
    case ActivityRecommendation => "ACTIVITY_RECOMMENDATION"
  }

  /** `InsightType.valueOf`: the constant of that exact name. */
  function ParseInsightType(s: string): (r: Option<InsightType>)
    ensures r.Some? ==> InsightTypeName(r.value) == s
  {
    if s == "MATCHING_IMPROVEMENT" then Some(MatchingImprovement)
    else if s == "SKILL_DEVELOPMENT" then Some(SkillDevelopment)
    else if s == "NETWORKING_OPPORTUNITY" then Some(NetworkingOpportunity)
    else if s == "CONTENT_RECOMMENDATION" then Some(ContentRecommendation)
    else if s == "GOAL_ACHIEVEMENT" then Some(GoalAchievement)
    else if s == "BEHAVIOR_PATTERN" then Some(BehaviorPattern)
    else if s == "ENGAGEMENT_OPTIMIZATION" then Some(EngagementOptimization)
    else if s == "CAREER_GROWTH" then Some(CareerGrowth)
    else if s == "MENTORSHIP_SUGGESTION" then Some(MentorshipSuggestion)
    else if s == "ACTIVITY_RECOMMENDATION" then Some(ActivityRecommendation)
    else None
  }

  /** Every constant is found under its own name. */
  lemma {:induction false} InsightTypeNameRoundTrip(t: InsightType)
    ensures ParseInsightType(InsightTypeName(t)) == Some(t)
  {
    match t
    case MatchingImprovement =>
    case SkillDevelopment =>
    case NetworkingOpportunity =>
    case ContentRecommendation =>
    case GoalAchievement =>
    case BehaviorPattern =>
    case EngagementOptimization =>
    case CareerGrowth =>
    case MentorshipSuggestion =>
    case ActivityRecommendation =>
  }

  /** An insight row. Times are minutes; the two flags are NOT NULL columns. */
  datatype InsightRecord = InsightRecord(
    id: int,
    userId: int,
    insightType: InsightType,
    title: string,
    description: Option<string>,
    recommendation: Option<string>,
    confidenceScore: Option<real>,
    priorityLevel: Option<int>,
    category: Option<string>,
    tags: Option<string>,
    actionUrl: Option<string>,
    isRead: bool,
    isActioned: bool,
    feedbackRating: Option<int>,
    feedbackComment: Option<string>,
    expiresAt: Option<int>,
    createdAt: Option<int>,
    updatedAt: Option<int>)

  /** The five-argument constructor at time `now`: unread, not acted on,
      both timestamps set, everything else null. The id is the one the
      table later assigns. */
  function NewInsight(id: int, userId: int, t: InsightType, title: string, description: string,
                      recommendation: string, now: int): (i: InsightRecord)
    ensures i.id == id && i.userId == userId && i.insightType == t && i.title == title
    ensures i.description == Some(description) && i.recommendation == Some(recommendation)
    ensures !i.isRead && !i.isActioned && !IsExpired(i, now)
    ensures i.createdAt == Some(now) && i.updatedAt == Some(now)
    ensures i.confidenceScore.None? && i.priorityLevel.None? && i.expiresAt.None? && i.feedbackRating.None?
  {
    InsightRecord(id, userId, t, title, Some(description), Some(recommendation), None, None, None, None, None,
                  false, false, None, None, None, Some(now), Some(now))
  }

  /** getInsightTypeDisplay: underscores become spaces and letters lower
      case, character by character. */
  function InsightTypeDisplay(t: InsightType): (r: string)
    ensures |r| == |InsightTypeName(t)|
    ensures forall i :: 0 <= i < |r| ==> r[i] == LowerChar(if InsightTypeName(t)[i] == '_' then ' ' else InsightTypeName(t)[i])
    ensures forall i :: 0 <= i < |r| ==> r[i] != '_' && !('A' <= r[i] <= 'Z')
  {
    ToLower(ReplaceChar(InsightTypeName(t), '_', ' '))
  }

  /** getIsExpired at time `now`: an expiry is set and lies strictly before
      `now`. */
  predicate IsExpired(i: InsightRecord, now: int)
  {
    i.expiresAt.Some? && now > i.expiresAt.value
  }

  /** Once expired, an insight stays expired; without an expiry it never
      expires. */
  lemma ExpiryIsPermanent(i: InsightRecord, now: int, later: int)
    requires now <= later
    ensures IsExpired(i, now) ==> IsExpired(i, later)
    ensures i.expiresAt.None? ==> !IsExpired(i, later)
    ensures i.expiresAt.Some? ==> (IsExpired(i, later) <==> later > i.expiresAt.value)
  {
  }

  /** getPriorityDisplay: levels 1 to 4 by name, anything else "Normal". */
  function PriorityDisplay(level: Option<int>): (r: string)
    ensures r == "Low" <==> level == Some(1)
    ensures r == "High" <==> level == Some(3)
    ensures r == "Critical" <==> level == Some(4)
    ensures r == "Normal" <==> level !in {Some(1), Some(3), Some(4)}
  {
    if level.None? then "Normal"
    else if level.value == 1 then "Low"
    else if level.value == 2 then "Normal"
    else if level.value == 3 then "High"
    else if level.value == 4 then "Critical"
    else "Normal"
  }
}
