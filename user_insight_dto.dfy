// UserInsightDTO: an insight as the API shows it, with the derived display
// fields fixed when it is built, and the confidence and status displays.

module UserInsightDtos {
  import opened Common
  import opened UserInsightEntities

  /** The DTO; `insightType` is the enum's name. */
  datatype UserInsightDto = UserInsightDto(
    id: int,
    userId: int,
    insightType: string,
    title: string,
    description: Option<string>,
    recommendation: Option<string>,
    confidenceScore: Option<real>,
    priorityLevel: Option<int>,
    category: Option<string>,
    tags: Option<string>,
    actionUrl: Option<string>,
    isRead: bool,
    isActioned: bool,
    feedbackRating: Option<int>,
    feedbackComment: Option<string>,
    expiresAt: Option<int>,
    createdAt: Option<int>,
    updatedAt: Option<int>,
    insightTypeDisplay: string,
    isExpired: bool,
    priorityDisplay: string)

  /** The constructor from an entity at time `now`: every field copied, the
      type by name, and the three displays computed then. */
  function FromInsight(i: InsightRecord, now: int): (d: UserInsightDto)
    ensures ToInsight(d) == Some(i)
  {
    InsightTypeNameRoundTrip(i.insightType);
    UserInsightDto(i.id, i.userId, InsightTypeName(i.insightType), i.title, i.description, i.recommendation,
                   i.confidenceScore, i.priorityLevel, i.category, i.tags, i.actionUrl, i.isRead, i.isActioned,
                   i.feedbackRating, i.feedbackComment, i.expiresAt, i.createdAt, i.updatedAt,
                   InsightTypeDisplay(i.insightType), IsExpired(i, now), PriorityDisplay(i.priorityLevel))
  }

  /** The entity fields a DTO carries, the type parsed back from its name. */
  function ToInsight(d: UserInsightDto): (r: Option<InsightRecord>)
    ensures r.Some? ==> InsightTypeName(r.value.insightType) == d.insightType && r.value.id == d.id
  {
    match ParseInsightType(d.insightType)
    case None => None
    case Some(t) =>
      Some(InsightRecord(d.id, d.userId, t, d.title, d.description, d.recommendation, d.confidenceScore,
                         d.priorityLevel, d.category, d.tags, d.actionUrl, d.isRead, d.isActioned,
                         d.feedbackRating, d.feedbackComment, d.expiresAt, d.createdAt, d.updatedAt))
  }

  /** Nothing of the entity is lost in its DTO, and the derived fields are
      those of the entity at that time. */
  lemma {:induction false} FromInsightRoundTrip(i: InsightRecord, now: int)
    ensures FromInsight(i, now).insightTypeDisplay == InsightTypeDisplay(i.insightType)
    ensures FromInsight(i, now).isExpired == IsExpired(i, now)
    ensures FromInsight(i, now).priorityDisplay == PriorityDisplay(i.priorityLevel)
  {
    InsightTypeNameRoundTrip(i.insightType);
  }

  /** Distinct insights give distinct DTOs at the same time. */
  lemma {:induction false} FromInsightIsInjective(i: InsightRecord, j: InsightRecord, now: int)
    ensures FromInsight(i, now) == FromInsight(j, now) ==> i == j
  {
    FromInsightRoundTrip(i, now);
    FromInsightRoundTrip(j, now);
  }

  /** getConfidenceDisplay. */
  function ConfidenceDisplay(d: UserInsightDto): (r: string)
    ensures r == "Unknown" <==> d.confidenceScore.None?
    ensures r == "High" <==> d.confidenceScore.Some? && d.confidenceScore.value >= 0.8
    ensures r == "Medium" <==> d.confidenceScore.Some? && 0.6 <= d.confidenceScore.value < 0.8
    ensures r == "Low" <==> d.confidenceScore.Some? && d.confidenceScore.value < 0.6
  {
    if d.confidenceScore.None? then "Unknown"
    else if d.confidenceScore.value >= 0.8 then "High"
    else if d.confidenceScore.value >= 0.6 then "Medium"
    else "Low"
  }

  /** The order of the three confidence levels. */
  function ConfidenceRank(display: string): int
  {
    if display == "Low" then 0 else if display == "Medium" then 1 else 2
  }

  /** A higher score never shows a lower confidence. */
  lemma {:induction false} ConfidenceDisplayIsMonotone(d: UserInsightDto, e: UserInsightDto)
    requires d.confidenceScore.Some? && e.confidenceScore.Some?
    requires d.confidenceScore.value <= e.confidenceScore.value
    ensures ConfidenceRank(ConfidenceDisplay(d)) <= ConfidenceRank(ConfidenceDisplay(e))
  {
  }

  /** getStatusDisplay: expired first, then actioned, then read. */
  function StatusDisplay(d: UserInsightDto): (r: string)
    ensures r == "Expired" <==> d.isExpired
    ensures r == "Actioned" <==> !d.isExpired && d.isActioned
    ensures r == "Read" <==> !d.isExpired && !d.isActioned && d.isRead
    ensures r == "New" <==> !d.isExpired && !d.isActioned && !d.isRead
  {
    if d.isExpired then "Expired"
    else if d.isActioned then "Actioned"
    else if d.isRead then "Read"
    else "New"
  }

  /** A freshly generated insight shows as "New" and at the neutral
      priority, with an unknown confidence. */
  lemma {:induction false} FreshInsightIsNew(id: int, userId: int, t: InsightType, title: string, description: string,
                                             recommendation: string, now: int)
    ensures StatusDisplay(FromInsight(NewInsight(id, userId, t, title, description, recommendation, now), now)) == "New"
    ensures FromInsight(NewInsight(id, userId, t, title, description, recommendation, now), now).priorityDisplay == "Normal"
    ensures ConfidenceDisplay(FromInsight(NewInsight(id, userId, t, title, description, recommendation, now), now)) == "Unknown"
  {
    var i := NewInsight(id, userId, t, title, description, recommendation, now);
    assert !IsExpired(i, now) && !i.isRead && !i.isActioned && i.priorityLevel.None?;
  }
}
