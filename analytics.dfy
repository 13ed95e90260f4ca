// AnalyticsService: the per-user summaries built from daily analytics rows,
// the interaction tally of one day, and the recommendation and engagement
// level rules.

module Analytics {
  import opened Common

  // ---------------------------------------------------------------------
  // Interactions and the daily tally

  datatype InteractionType =
    | ProfileView | MatchAccepted | MatchRejected | MessageSent | MeetingCompleted
    | SkillSearch | InterestSearch | LoungeJoined | FeedbackGiven

  /** A user interaction; the type is a NOT NULL column. */
  datatype Interaction = Interaction(id: int, userId: int, targetUserId: Option<int>, interactionType: InteractionType)

  /** A daily analytics row, with the NOT NULL counters the summaries use. */
  datatype DayAnalytics = DayAnalytics(
    userId: int,
    date: int,
    loginCount: int,
    sessionDurationMinutes: int,
    actionsPerformed: int,
    matchesAccepted: int,
    matchesRejected: int,
    messagesSent: int,
    messagesReceived: int,
    conversationsStarted: int,
    loungesJoined: int,
    loungeMessagesSent: int,
    loungesCreated: int,
    feedbackGiven: int,
    profileViews: int)

  /** The interactions of type `t`. */
  function CountOf(xs: seq<Interaction>, t: InteractionType): (n: nat)
    ensures n <= |xs|
  {
    if xs == [] then 0 else CountOf(xs[..|xs| - 1], t) + (if xs[|xs| - 1].interactionType == t then 1 else 0)
  }

  /** The interactions the tally has no counter for. */
  function Untallied(xs: seq<Interaction>): nat
  {
    CountOf(xs, MeetingCompleted) + CountOf(xs, SkillSearch) + CountOf(xs, InterestSearch)
  }

  /** The six counters of calculateUserMetricsFromInteractions. */
  function Tallied(xs: seq<Interaction>): nat
  {
    CountOf(xs, ProfileView) + CountOf(xs, MatchAccepted) + CountOf(xs, MatchRejected)
    + CountOf(xs, MessageSent) + CountOf(xs, LoungeJoined) + CountOf(xs, FeedbackGiven)
  }

  /** Every interaction is of exactly one of the nine types. */
  lemma {:induction false} TalliedAndUntallied(xs: seq<Interaction>)
    ensures Tallied(xs) + Untallied(xs) == |xs|
  {
    if xs != [] {
      TalliedAndUntallied(xs[..|xs| - 1]);
    }
  }

  /** No interaction of type `t` exactly when none is counted. */
  lemma {:induction false} CountOfZero(xs: seq<Interaction>, t: InteractionType)
    ensures CountOf(xs, t) == 0 <==> forall i :: 0 <= i < |xs| ==> xs[i].interactionType != t
  {
    if xs != [] {
      var ys := xs[..|xs| - 1];
      CountOfZero(ys, t);
      assert forall i :: 0 <= i < |ys| ==> ys[i] == xs[i];
    }
  }

  /** The six counters never exceed the number of actions, and they reach it
      exactly when the day has no meeting completion and no search. */
  lemma {:induction false} CountersCoverActions(xs: seq<Interaction>)
    ensures Tallied(xs) <= |xs|
    ensures Tallied(xs) == |xs| <==>
              forall i :: 0 <= i < |xs| ==>
                xs[i].interactionType != MeetingCompleted && xs[i].interactionType != SkillSearch
                && xs[i].interactionType != InterestSearch
  {
    TalliedAndUntallied(xs);
    CountOfZero(xs, MeetingCompleted);
    CountOfZero(xs, SkillSearch);
    CountOfZero(xs, InterestSearch);
  }

  /** calculateUserMetricsFromInteractions: one pass over the interactions
      counting six of the types; actionsPerformed is their number. */
  method CalculateUserMetricsFromInteractions(analytics: DayAnalytics, interactions: seq<Interaction>)
    returns (r: DayAnalytics)
    ensures r == analytics.(profileViews := CountOf(interactions, ProfileView),
                            matchesAccepted := CountOf(interactions, MatchAccepted),
                            matchesRejected := CountOf(interactions, MatchRejected),
                            messagesSent := CountOf(interactions, MessageSent),
                            loungesJoined := CountOf(interactions, LoungeJoined),
                            feedbackGiven := CountOf(interactions, FeedbackGiven),
                            actionsPerformed := |interactions|)
  {
    var profileViews, matchesAccepted, matchesRejected, messagesSent, loungesJoined, feedbackGiven := 0, 0, 0, 0, 0, 0;
    var i := 0;
    while i < |interactions|
      invariant 0 <= i <= |interactions|
      invariant profileViews == CountOf(interactions[..i], ProfileView)
      invariant matchesAccepted == CountOf(interactions[..i], MatchAccepted)
      invariant matchesRejected == CountOf(interactions[..i], MatchRejected)
      invariant messagesSent == CountOf(interactions[..i], MessageSent)
      invariant loungesJoined == CountOf(interactions[..i], LoungeJoined)
      invariant feedbackGiven == CountOf(interactions[..i], FeedbackGiven)
    {
      assert interactions[..i + 1][..i] == interactions[..i];
      match interactions[i].interactionType {
        case ProfileView => profileViews := profileViews + 1;
        case MatchAccepted => matchesAccepted := matchesAccepted + 1;
        case MatchRejected => matchesRejected := matchesRejected + 1;
        case MessageSent => messagesSent := messagesSent + 1;
        case LoungeJoined => loungesJoined := loungesJoined + 1;
        case FeedbackGiven => feedbackGiven := feedbackGiven + 1;
        case MeetingCompleted =>
        case SkillSearch =>
        case InterestSearch =>
      }
      i := i + 1;
    }
    assert interactions[..i] == interactions;
    r := analytics.(profileViews := profileViews, matchesAccepted := matchesAccepted,
                    matchesRejected := matchesRejected, messagesSent := messagesSent,
                    loungesJoined := loungesJoined, feedbackGiven := feedbackGiven,
                    actionsPerformed := |interactions|);
  }

  // ---------------------------------------------------------------------
  // Sums over days

  /** `mapToInt(f).sum()` over the rows. */
  function Total(days: seq<DayAnalytics>, f: DayAnalytics -> int): int
  {
    if days == [] then 0 else f(days[0]) + Total(days[1..], f)
  }

  /** Totals add up over consecutive stretches of days. */
  lemma {:induction false} TotalOfConcat(a: seq<DayAnalytics>, b: seq<DayAnalytics>, f: DayAnalytics -> int)
    ensures Total(a + b, f) == Total(a, f) + Total(b, f)
  {
    if a == [] {
      assert a + b == b;
    } else {
      assert (a + b)[1..] == a[1..] + b;
      TotalOfConcat(a[1..], b, f);
    }
  }

  /** Daily values within `[lo, hi]` give a total within `[lo, hi]` times the
      number of days. */
  lemma {:induction false} TotalBounds(days: seq<DayAnalytics>, f: DayAnalytics -> int, lo: int, hi: int)
    requires forall i :: 0 <= i < |days| ==> lo <= f(days[i]) <= hi
    ensures lo * |days| <= Total(days, f) <= hi * |days|
  {
    if days != [] {
      assert forall i :: 0 <= i < |days[1..]| ==> days[1..][i] == days[i + 1];
      TotalBounds(days[1..], f, lo, hi);
      var n := |days[1..]|;
      assert lo * |days| == lo * n + lo && hi * |days| == hi * n + hi by {
        assert |days| == n + 1;
      }
    }
  }

  function Logins(d: DayAnalytics): int { d.loginCount }
  function SessionMinutes(d: DayAnalytics): int { d.sessionDurationMinutes }
  function Actions(d: DayAnalytics): int { d.actionsPerformed }
  function MessagesSent(d: DayAnalytics): int { d.messagesSent }
  function MessagesReceived(d: DayAnalytics): int { d.messagesReceived }
  function ConversationsStarted(d: DayAnalytics): int { d.conversationsStarted }
  function LoungesJoined(d: DayAnalytics): int { d.loungesJoined }
  function LoungeMessagesSent(d: DayAnalytics): int { d.loungeMessagesSent }
  function LoungesCreated(d: DayAnalytics): int { d.loungesCreated }

  /** The average session length: total minutes divided by the number of
      days, in Java's integer division. */
  function AverageSessionDuration(days: seq<DayAnalytics>): int
    requires days != []
  {
    JavaDiv(Total(days, SessionMinutes), |days|)
  }

  /** The average lies between the shortest and the longest day's minutes,
      for non-negative lengths. */
  lemma {:induction false} AverageIsWithinDailyRange(days: seq<DayAnalytics>, lo: nat, hi: int)
    requires days != []
    requires forall i :: 0 <= i < |days| ==> lo <= days[i].sessionDurationMinutes <= hi
    ensures lo <= AverageSessionDuration(days) <= hi
  {
    assert forall i :: 0 <= i < |days| ==> lo <= SessionMinutes(days[i]) <= hi;
    TotalBounds(days, SessionMinutes, lo, hi);
    DivisionWithin(Total(days, SessionMinutes), |days|, lo, hi);
  }

  lemma DivisionWithin(total: int, n: int, lo: nat, hi: int)
    requires n > 0 && lo * n <= total <= hi * n
    ensures lo <= total / n <= hi
  {
    var q := total / n;
    assert q * n <= total < (q + 1) * n;
  }

  // ---------------------------------------------------------------------
  // The insights report

  /** The fields of UserInsightsDTO the helpers set or read; every boxed
      field starts out null. */
  datatype Report = Report(
    totalLogins: Option<int>,
    totalSessionMinutes: Option<int>,
    averageSessionDuration: Option<int>,
    totalActionsPerformed: Option<int>,
    totalMessagesSent: Option<int>,
    totalMessagesReceived: Option<int>,
    conversationsStarted: Option<int>,
    loungesJoined: Option<int>,
    loungeMessagesPosted: Option<int>,
    loungesCreated: Option<int>,
    communityEngagementScore: Option<real>)

  class UserInsightsDto {
    var totalLogins: Option<int>
    var totalSessionMinutes: Option<int>
    var averageSessionDuration: Option<int>
    var totalActionsPerformed: Option<int>
    var totalMessagesSent: Option<int>
    var totalMessagesReceived: Option<int>
    var conversationsStarted: Option<int>
    var loungesJoined: Option<int>
    var loungeMessagesPosted: Option<int>
    var loungesCreated: Option<int>
    var communityEngagementScore: Option<real>

    /** The DTO's fields as one value. */
    function Fields(): Report
      reads this
    {
      Report(totalLogins, totalSessionMinutes, averageSessionDuration, totalActionsPerformed, totalMessagesSent,
             totalMessagesReceived, conversationsStarted, loungesJoined, loungeMessagesPosted, loungesCreated,
             communityEngagementScore)
    }

    /** `new UserInsightsDTO()`: everything null. */
    constructor ()
      ensures Fields() == Report(None, None, None, None, None, None, None, None, None, None, None)
    {
      totalLogins, totalSessionMinutes, averageSessionDuration, totalActionsPerformed := None, None, None, None;
      totalMessagesSent, totalMessagesReceived, conversationsStarted := None, None, None;
      loungesJoined, loungeMessagesPosted, loungesCreated, communityEngagementScore := None, None, None, None;
    }
  }

  /** calculateActivitySummary: the three totals, and the average session
      length only when there is at least one day. */
  method CalculateActivitySummary(insights: UserInsightsDto, days: seq<DayAnalytics>)
    modifies insights
    ensures insights.Fields() == old(insights.Fields()).(
              totalLogins := Some(Total(days, Logins)),
              totalSessionMinutes := Some(Total(days, SessionMinutes)),
              totalActionsPerformed := Some(Total(days, Actions)),
              averageSessionDuration := if days == [] then old(insights.averageSessionDuration)
                                        else Some(AverageSessionDuration(days)))
  {
    insights.totalLogins := Some(Total(days, Logins));
    insights.totalSessionMinutes := Some(Total(days, SessionMinutes));
    insights.totalActionsPerformed := Some(Total(days, Actions));
    if days != [] {
      insights.averageSessionDuration := Some(AverageSessionDuration(days));
    }
  }

  /** calculateCommunicationStats: three straight sums. */
  method CalculateCommunicationStats(insights: UserInsightsDto, days: seq<DayAnalytics>)
    modifies insights
    ensures insights.Fields() == old(insights.Fields()).(
              totalMessagesSent := Some(Total(days, MessagesSent)),
              totalMessagesReceived := Some(Total(days, MessagesReceived)),
              conversationsStarted := Some(Total(days, ConversationsStarted)))
  {
    insights.totalMessagesSent := Some(Total(days, MessagesSent));
    insights.totalMessagesReceived := Some(Total(days, MessagesReceived));
    insights.conversationsStarted := Some(Total(days, ConversationsStarted));
  }

  /** The community engagement score: joining counts 1, a lounge message 0.5
      and creating a lounge 2, scaled down by 10 and capped at 10. */
  function CommunityEngagementScore(joined: int, posted: int, created: int): (r: real)
    ensures r <= 10.0
    ensures r == 10.0 <==> joined as real + 0.5 * posted as real + 2.0 * created as real >= 100.0
    ensures r < 10.0 ==> 10.0 * r == joined as real + 0.5 * posted as real + 2.0 * created as real
    ensures joined >= 0 && posted >= 0 && created >= 0 ==> r >= 0.0
  {
    var score := (joined as real * 1.0 + posted as real * 0.5 + created as real * 2.0) / 10.0;
    if score <= 10.0 then score else 10.0
  }

  /** More activity of any kind never lowers the score. */
  lemma CommunityEngagementIsMonotone(joined: int, posted: int, created: int, joined': int, posted': int, created': int)
    requires joined <= joined' && posted <= posted' && created <= created'
    ensures CommunityEngagementScore(joined, posted, created) <= CommunityEngagementScore(joined', posted', created')
  {
  }

  /** calculateCommunityEngagement: the three lounge totals and the score
      over them. */
  method CalculateCommunityEngagement(insights: UserInsightsDto, days: seq<DayAnalytics>)
    modifies insights
    ensures insights.Fields() == old(insights.Fields()).(
              loungesJoined := Some(Total(days, LoungesJoined)),
              loungeMessagesPosted := Some(Total(days, LoungeMessagesSent)),
              loungesCreated := Some(Total(days, LoungesCreated)),
              communityEngagementScore := Some(CommunityEngagementScore(Total(days, LoungesJoined),
                                                                        Total(days, LoungeMessagesSent),
                                                                        Total(days, LoungesCreated))))
  {
    var joined := Total(days, LoungesJoined);
    var posted := Total(days, LoungeMessagesSent);
    var created := Total(days, LoungesCreated);
    insights.loungesJoined := Some(joined);
    insights.loungeMessagesPosted := Some(posted);
    insights.loungesCreated := Some(created);
    insights.communityEngagementScore := Some(CommunityEngagementScore(joined, posted, created));
  }

  // ---------------------------------------------------------------------
  // Recommendations and the engagement level

  const NullPointer := "NullPointerException"

  const UpdateProfile := "Consider updating your profile to improve match compatibility."
  const JoinLounges := "Join more topic lounges to expand your network and interests."
  const ProvideFeedback := "Provide feedback on your matches to help improve the platform."

  /** generateUserRecommendations: one line per rule that applies, in rule
      order; unboxing a null field throws. */
  function UserRecommendations(matchSuccessRate: Option<real>, loungesJoined: Option<int>, feedbackGiven: Option<int>)
    : (r: Result<seq<string>>)
    ensures r.Err? <==> matchSuccessRate.None? || loungesJoined.None? || feedbackGiven.None?
    ensures r.Err? ==> r.message == NullPointer
    ensures r.Ok? ==> |r.value| <= 3
    ensures r.Ok? ==> forall s :: s in r.value ==> s == UpdateProfile || s == JoinLounges || s == ProvideFeedback
    ensures r.Ok? ==> forall i, j :: 0 <= i < j < |r.value| ==> r.value[i] != r.value[j]
    ensures r.Ok? ==> (UpdateProfile in r.value <==> matchSuccessRate.value < 50.0)
    ensures r.Ok? ==> (JoinLounges in r.value <==> loungesJoined.value < 3)
    ensures r.Ok? ==> (ProvideFeedback in r.value <==> feedbackGiven.value == 0)
    ensures r.Ok? && |r.value| > 0 && matchSuccessRate.value < 50.0 ==> r.value[0] == UpdateProfile
    ensures r.Ok? && |r.value| > 0 && feedbackGiven.value == 0 ==> r.value[|r.value| - 1] == ProvideFeedback
  {
    if matchSuccessRate.None? then Err(NullPointer)
    else if loungesJoined.None? then Err(NullPointer)
    else if feedbackGiven.None? then Err(NullPointer)
    else
      Ok((if matchSuccessRate.value < 50.0 then [UpdateProfile] else [])
         + (if loungesJoined.value < 3 then [JoinLounges] else [])
         + (if feedbackGiven.value == 0 then [ProvideFeedback] else []))
  }

  function RealMin(a: real, b: real): real { if a <= b then a else b }

  /** The engagement points: four quarters of 25, each the measure over its
      target capped at 1. */
  function EngagementPoints(totalLogins: int, matchSuccessRate: real, communityScore: real, ratingReceived: real): (score: real)
    ensures score <= 100.0
    ensures totalLogins >= 0 && matchSuccessRate >= 0.0 && communityScore >= 0.0 && ratingReceived >= 0.0 ==> score >= 0.0
  {
    RealMin(totalLogins as real / 30.0, 1.0) * 25.0
    + RealMin(matchSuccessRate / 100.0, 1.0) * 25.0
    + RealMin(communityScore / 10.0, 1.0) * 25.0
    + RealMin(ratingReceived / 5.0, 1.0) * 25.0
  }

  /** The level for a score, at thresholds 80, 60 and 40. */
  function LevelOf(score: real): (level: string)
    ensures level == "VERY_HIGH" <==> score >= 80.0
    ensures level == "HIGH" <==> 60.0 <= score < 80.0
    ensures level == "MEDIUM" <==> 40.0 <= score < 60.0
    ensures level == "LOW" <==> score < 40.0
  {
    if score >= 80.0 then "VERY_HIGH"
    else if score >= 60.0 then "HIGH"
    else if score >= 40.0 then "MEDIUM"
    else "LOW"
  }

  function LevelRank(level: string): int
  {
    if level == "LOW" then 0 else if level == "MEDIUM" then 1 else if level == "HIGH" then 2 else 3
  }

  /** A higher score never gives a lower level. */
  lemma LevelIsMonotone(score: real, score': real)
    requires score <= score'
    ensures LevelRank(LevelOf(score)) <= LevelRank(LevelOf(score'))
  {
  }

  /** calculateEngagementLevel: the level of the engagement points; unboxing
      a null field throws. */
  function EngagementLevel(totalLogins: Option<int>, matchSuccessRate: Option<real>, communityScore: Option<real>,
                           ratingReceived: Option<real>): (r: Result<string>)
    ensures r.Err? <==> totalLogins.None? || matchSuccessRate.None? || communityScore.None? || ratingReceived.None?
    ensures r.Err? ==> r.message == NullPointer
    ensures r.Ok? ==> r.value == LevelOf(EngagementPoints(totalLogins.value, matchSuccessRate.value,
                                                           communityScore.value, ratingReceived.value))
  {
    if totalLogins.None? || matchSuccessRate.None? || communityScore.None? || ratingReceived.None? then Err(NullPointer)
    else Ok(LevelOf(EngagementPoints(totalLogins.value, matchSuccessRate.value, communityScore.value, ratingReceived.value)))
  }

  /** Every measure at or past its target is the top level, and nothing at
      all is the bottom one. */
  lemma EngagementLevelExtremes(totalLogins: int, matchSuccessRate: real, communityScore: real, ratingReceived: real)
    ensures totalLogins >= 30 && matchSuccessRate >= 100.0 && communityScore >= 10.0 && ratingReceived >= 5.0 ==>
              EngagementLevel(Some(totalLogins), Some(matchSuccessRate), Some(communityScore), Some(ratingReceived)) == Ok("VERY_HIGH")
    ensures EngagementLevel(Some(0), Some(0.0), Some(0.0), Some(0.0)) == Ok("LOW")
  {
  }
}
