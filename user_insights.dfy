// UserInsightsService: recording what users do, deriving insights and
// recommendations from those records, and the read / actioned / feedback
// updates of stored insights.

module UserInsights {
  import opened Common
  import opened Tables
  import opened UserInsightEntities
  import opened UserInsightDtos

  datatype BehaviorType =
    | Login | Logout | ProfileView | ProfileUpdate | MatchRequest | MatchAccept | MatchReject
    | CoffeeChatStart | CoffeeChatEnd | LoungeJoin | LoungeLeave | LoungeMessage | BadgeEarned
    | StreakMaintained | MentorshipJoin | MentorshipSession | ContentView | ContentLike | ContentShare
    | SearchQuery | NotificationOpen | NotificationDismiss | FeedbackSubmit | RatingGive | PreferenceUpdate

  /** A behaviour row; `timestamp` is in minutes. */
  datatype BehaviorRecord = BehaviorRecord(
    id: int,
    userId: int,
    behaviorType: BehaviorType,
    targetId: Option<int>,
    targetType: Option<string>,
    context: Option<string>,
    timestamp: int,
    durationSeconds: Option<int>,
    intensityScore: Option<real>)

  // ---------------------------------------------------------------------
  // Counting behaviours

  /** `filter(type == t).count()`. */
  function Count(bs: seq<BehaviorRecord>, t: BehaviorType): (n: nat)
    ensures n <= |bs|
  {
    if bs == [] then 0 else (if bs[0].behaviorType == t then 1 else 0) + Count(bs[1..], t)
  }

  /** The number of behaviours whose type is in `ts`. */
  function CountIn(bs: seq<BehaviorRecord>, ts: set<BehaviorType>): (n: nat)
    ensures n <= |bs|
  {
    if bs == [] then 0 else (if bs[0].behaviorType in ts then 1 else 0) + CountIn(bs[1..], ts)
  }

  /** The types that occur. */
  function TypesIn(bs: seq<BehaviorRecord>): (r: set<BehaviorType>)
    ensures forall i :: 0 <= i < |bs| ==> bs[i].behaviorType in r
  {
    if bs == [] then {} else {bs[0].behaviorType} + TypesIn(bs[1..])
  }

  lemma {:induction false} CountInAddsOneType(bs: seq<BehaviorRecord>, t: BehaviorType, ts: set<BehaviorType>)
    requires t !in ts
    ensures CountIn(bs, {t} + ts) == Count(bs, t) + CountIn(bs, ts)
  {
    if bs != [] {
      CountInAddsOneType(bs[1..], t, ts);
    }
  }

  lemma {:induction false} CountInCoveringTypes(bs: seq<BehaviorRecord>, ts: set<BehaviorType>)
    requires TypesIn(bs) <= ts
    ensures CountIn(bs, ts) == |bs|
  {
    if bs != [] {
      CountInCoveringTypes(bs[1..], ts);
    }
  }

  /** The behaviour-type distribution of `analyzeUserBehavior`: each type
      that occurs, with its number of occurrences. The source keys it by the
      constant's name; the names are distinct, so the model keys it by the
      constant. */
  function Distribution(bs: seq<BehaviorRecord>): (m: map<BehaviorType, nat>)
    ensures m.Keys == TypesIn(bs)
    ensures forall t :: t in m ==> m[t] == Count(bs, t)
  {
    map t | t in TypesIn(bs) :: Count(bs, t)
  }

  predicate Distinct(ts: seq<BehaviorType>)
  {
    forall i, j :: 0 <= i < j < |ts| ==> ts[i] != ts[j]
  }

  /** The sum of the map's values over the listed keys. */
  function SumOver(m: map<BehaviorType, nat>, ts: seq<BehaviorType>): nat
  {
    if ts == [] then 0 else (if ts[0] in m then m[ts[0]] else 0) + SumOver(m, ts[1..])
  }

  /** The elements of a list of types. */
  function Elements(ts: seq<BehaviorType>): (r: set<BehaviorType>)
    ensures forall t :: t in r <==> t in ts
  {
    if ts == [] then {} else {ts[0]} + Elements(ts[1..])
  }

  /** Summed over any list of distinct types that includes every key, the
      distribution adds up to the number of behaviours. */
  lemma {:induction false} DistributionSumsToTotal(bs: seq<BehaviorRecord>, ts: seq<BehaviorType>)
    requires Distinct(ts)
    requires forall t :: t in Distribution(bs) ==> t in ts
    ensures SumOver(Distribution(bs), ts) == |bs|
  {
    SumOverIsCount(bs, ts);
    CountInCoveringTypes(bs, Elements(ts));
  }

  lemma {:induction false} SumOverIsCount(bs: seq<BehaviorRecord>, ts: seq<BehaviorType>)
    requires Distinct(ts)
    ensures SumOver(Distribution(bs), ts) == CountIn(bs, Elements(ts))
  {
    var m := Distribution(bs);
    if ts == [] {
      CountInEmpty(bs);
    } else {
      assert Distinct(ts[1..]) by {
        forall i, j | 0 <= i < j < |ts[1..]| ensures ts[1..][i] != ts[1..][j] {
          assert ts[1..][i] == ts[i + 1] && ts[1..][j] == ts[j + 1];
        }
      }
      assert ts[0] !in ts[1..] by {
        forall i | 0 <= i < |ts[1..]| ensures ts[1..][i] != ts[0] {
          assert ts[1..][i] == ts[i + 1];
        }
      }
      SumOverIsCount(bs, ts[1..]);
      CountInAddsOneType(bs, ts[0], Elements(ts[1..]));
      assert (if ts[0] in m then m[ts[0]] else 0) == Count(bs, ts[0]) by {
        if ts[0] !in m { CountAbsentType(bs, ts[0]); }
      }
    }
  }

  lemma {:induction false} CountInEmpty(bs: seq<BehaviorRecord>)
    ensures CountIn(bs, {}) == 0
  {
    if bs != [] {
      CountInEmpty(bs[1..]);
    }
  }

  lemma {:induction false} CountAbsentType(bs: seq<BehaviorRecord>, t: BehaviorType)
    requires t !in TypesIn(bs)
    ensures Count(bs, t) == 0
  {
    if bs != [] {
      CountAbsentType(bs[1..], t);
    }
  }

  /** Behaviours strictly after `since`. */
  function CountAfter(bs: seq<BehaviorRecord>, since: int): (n: nat)
    ensures n <= |bs|
  {
    if bs == [] then 0 else (if bs[0].timestamp > since then 1 else 0) + CountAfter(bs[1..], since)
  }

  // ---------------------------------------------------------------------
  // Insight rules

  /** `String.format("%.1f", x)` for a non-negative value: rounded half up to
      one decimal. */
  function OneDecimal(x: real): (r: string)
    requires x >= 0.0
    ensures |r| >= 3 && r[|r| - 2] == '.'
    ensures forall i :: 0 <= i < |r| && i != |r| - 2 ==> '0' <= r[i] <= '9'
  {
    var tenths := (x * 10.0 + 0.5).Floor;
    NatToString(tenths / 10) + "." + NatToString(tenths % 10)
  }

  /** The matching rule: some requests and some accepts, with an acceptance
      rate below 30%. */
  predicate LowAcceptance(bs: seq<BehaviorRecord>)
  {
    Count(bs, MatchRequest) > 0 && Count(bs, MatchAccept) > 0
    && (Count(bs, MatchAccept) as real / Count(bs, MatchRequest) as real) < 0.3
  }

  /** The rate test in integers: fewer than 3 accepts per 10 requests. */
  lemma {:induction false} LowAcceptanceInIntegers(bs: seq<BehaviorRecord>)
    ensures LowAcceptance(bs) <==>
              Count(bs, MatchRequest) > 0 && Count(bs, MatchAccept) > 0
              && 10 * Count(bs, MatchAccept) < 3 * Count(bs, MatchRequest)
  {
    if Count(bs, MatchRequest) > 0 {
      RatioBelow(Count(bs, MatchAccept) as real, Count(bs, MatchRequest) as real);
    }
  }

  lemma RatioBelow(a: real, q: real)
    requires q > 0.0
    ensures a / q < 0.3 <==> 10.0 * a < 3.0 * q
  {
    var x := a / q;
    assert x * q == a;
    assert (0.3 - x) * q == 0.3 * q - a;
    PositiveFactor(0.3 - x, q);
    assert 0.3 - x > 0.0 ==> (0.3 - x) * q > 0.0;
  }

  lemma PositiveFactor(a: real, c: real)
    requires c > 0.0
    ensures a * c > 0.0 <==> a > 0.0
  {
    assert a <= 0.0 ==> a * c <= 0.0;
    assert a > 0.0 ==> a * c > 0.0;
  }

  /** The four other rules. */
  predicate NoSkillActivity(bs: seq<BehaviorRecord>)
  {
    Count(bs, BadgeEarned) == 0 && Count(bs, MentorshipSession) == 0
  }

  predicate FewCoffeeChats(bs: seq<BehaviorRecord>)
  {
    Count(bs, CoffeeChatStart) < 3
  }

  predicate StaleProfile(bs: seq<BehaviorRecord>)
  {
    Count(bs, Login) > 0 && Count(bs, ProfileUpdate) == 0
  }

  predicate KeptStreak(bs: seq<BehaviorRecord>)
  {
    Count(bs, StreakMaintained) > 0
  }

  /** The rule insight, unsaved (id 0), when its rule fires. */
  // The texts of the five rules.
  const MatchingTitle := "Improve Your Matching Success Rate"
  const MatchingDescriptionStart := "Your match acceptance rate is "
  const MatchingDescriptionEnd := "%. Consider updating your profile or preferences."
  const MatchingRecommendation := "Review and update your profile, adjust matching criteria, and be more selective with match requests."
  const SkillTitle := "Start Your Skill Development Journey"
  const SkillDescription := "You haven't earned any badges or participated in mentorship sessions yet."
  const SkillRecommendation := "Join mentorship programs, participate in skill-building activities, and set learning goals."
  const NetworkingTitle := "Expand Your Network"
  const NetworkingDescriptionStart := "You've only had "
  const NetworkingDescriptionEnd := " coffee chat(s). More connections can lead to better opportunities."
  const NetworkingRecommendation := "Request more matches, join topic lounges, and actively participate in conversations."
  const EngagementTitle := "Keep Your Profile Fresh"
  const EngagementDescription := "You're active on the platform but haven't updated your profile recently."
  const EngagementRecommendation := "Update your profile with recent achievements, skills, and interests to attract better matches."
  const CareerTitle := "Maintain Your Momentum"
  const CareerDescription := "Great job maintaining your activity streak! Consistency is key to career growth."
  const CareerRecommendation := "Keep up the good work, set new goals, and consider mentoring others."

  function RuleInsight(fires: bool, userId: int, t: InsightType, title: string, description: string,
                       recommendation: string, now: int): (r: seq<InsightRecord>)
    ensures |r| == if fires then 1 else 0
    ensures fires ==> r[0] == NewInsight(0, userId, t, title, description, recommendation, now)
  {
    if fires then [NewInsight(0, userId, t, title, description, recommendation, now)] else []
  }

  function MatchingInsights(userId: int, bs: seq<BehaviorRecord>, now: int): (r: seq<InsightRecord>)
    ensures |r| == (if LowAcceptance(bs) then 1 else 0)
    ensures forall i :: 0 <= i < |r| ==> r[i].insightType == MatchingImprovement
    ensures NewFor(r, userId, now)
  {
    RuleInsight(LowAcceptance(bs), userId, MatchingImprovement, MatchingTitle,
                MatchingDescriptionStart + AcceptancePercent(bs)
                + MatchingDescriptionEnd,
                MatchingRecommendation, now)
  }

  /** The acceptance rate in percent with one decimal, for a user with
      requests. */
  function AcceptancePercent(bs: seq<BehaviorRecord>): (r: string)
    ensures r == "" <==> Count(bs, MatchRequest) == 0
    ensures r != "" ==> |r| >= 3 && r[|r| - 2] == '.'
  {
    if Count(bs, MatchRequest) == 0 then ""
    else OneDecimal(Count(bs, MatchAccept) as real / Count(bs, MatchRequest) as real * 100.0)
  }

  function SkillDevelopmentInsights(userId: int, bs: seq<BehaviorRecord>, now: int): (r: seq<InsightRecord>)
    ensures |r| == (if NoSkillActivity(bs) then 1 else 0)
    ensures forall i :: 0 <= i < |r| ==> r[i].insightType == SkillDevelopment
    ensures NewFor(r, userId, now)
  {
    RuleInsight(NoSkillActivity(bs), userId, SkillDevelopment, SkillTitle,
                SkillDescription,
                SkillRecommendation, now)
  }

  function NetworkingInsights(userId: int, bs: seq<BehaviorRecord>, now: int): (r: seq<InsightRecord>)
    ensures |r| == (if FewCoffeeChats(bs) then 1 else 0)
    ensures forall i :: 0 <= i < |r| ==> r[i].insightType == NetworkingOpportunity
    ensures NewFor(r, userId, now)
  {
    RuleInsight(FewCoffeeChats(bs), userId, NetworkingOpportunity, NetworkingTitle,
                NetworkingDescriptionStart + NatToString(Count(bs, CoffeeChatStart))
                + NetworkingDescriptionEnd,
                NetworkingRecommendation, now)
  }

  function EngagementInsights(userId: int, bs: seq<BehaviorRecord>, now: int): (r: seq<InsightRecord>)
    ensures |r| == (if StaleProfile(bs) then 1 else 0)
    ensures forall i :: 0 <= i < |r| ==> r[i].insightType == EngagementOptimization
    ensures NewFor(r, userId, now)
  {
    RuleInsight(StaleProfile(bs), userId, EngagementOptimization, EngagementTitle,
                EngagementDescription,
                EngagementRecommendation, now)
  }

  function CareerGrowthInsights(userId: int, bs: seq<BehaviorRecord>, now: int): (r: seq<InsightRecord>)
    ensures |r| == (if KeptStreak(bs) then 1 else 0)
    ensures forall i :: 0 <= i < |r| ==> r[i].insightType == CareerGrowth
    ensures NewFor(r, userId, now)
  {
    RuleInsight(KeptStreak(bs), userId, CareerGrowth, CareerTitle,
                CareerDescription,
                CareerRecommendation, now)
  }

  /** The position of a rule in the order they are applied. */
  function RuleRank(t: InsightType): nat
  {
    match t
    case MatchingImprovement => 0
    case SkillDevelopment => 1
    case NetworkingOpportunity => 2
    case EngagementOptimization => 3
    case CareerGrowth => 4
    case _ => 5
  }

  predicate HasType(r: seq<InsightRecord>, t: InsightType)
  {
    exists i :: 0 <= i < |r| && r[i].insightType == t
  }

  /** The insights of generateUserInsights before they are saved. */
  function GeneratedInsights(userId: int, bs: seq<BehaviorRecord>, now: int): (r: seq<InsightRecord>)
    ensures |r| <= 5
  {
    MatchingInsights(userId, bs, now) + SkillDevelopmentInsights(userId, bs, now) + NetworkingInsights(userId, bs, now)
    + EngagementInsights(userId, bs, now) + CareerGrowthInsights(userId, bs, now)
  }

  /** At most one insight per rule, in rule order, each present exactly when
      its rule fires, and all of them new and unread for the user. */
  lemma {:induction false} GeneratedInsightsLaws(userId: int, bs: seq<BehaviorRecord>, now: int)
    ensures InRuleOrder(GeneratedInsights(userId, bs, now))
    ensures NewFor(GeneratedInsights(userId, bs, now), userId, now)
    ensures HasType(GeneratedInsights(userId, bs, now), MatchingImprovement) <==> LowAcceptance(bs)
    ensures HasType(GeneratedInsights(userId, bs, now), SkillDevelopment) <==> NoSkillActivity(bs)
    ensures HasType(GeneratedInsights(userId, bs, now), NetworkingOpportunity) <==> FewCoffeeChats(bs)
    ensures HasType(GeneratedInsights(userId, bs, now), EngagementOptimization) <==> StaleProfile(bs)
    ensures HasType(GeneratedInsights(userId, bs, now), CareerGrowth) <==> KeptStreak(bs)
  {
    var m := MatchingInsights(userId, bs, now);
    var s := SkillDevelopmentInsights(userId, bs, now);
    var n := NetworkingInsights(userId, bs, now);
    var e := EngagementInsights(userId, bs, now);
    var c := CareerGrowthInsights(userId, bs, now);
    assert RulePiece(m, MatchingImprovement, userId, now) && RulePiece(s, SkillDevelopment, userId, now);
    assert RulePiece(n, NetworkingOpportunity, userId, now) && RulePiece(e, EngagementOptimization, userId, now);
    assert RulePiece(c, CareerGrowth, userId, now);
    FiveRules(m, s, n, e, c, userId, now);
  }

  /** One rule's contribution: at most one insight, of the rule's type. */
  predicate RulePiece(piece: seq<InsightRecord>, t: InsightType, userId: int, now: int)
  {
    |piece| <= 1 && NewFor(piece, userId, now) && forall i :: 0 <= i < |piece| ==> piece[i].insightType == t
  }

  lemma {:induction false} FiveRules(m: seq<InsightRecord>, s: seq<InsightRecord>, n: seq<InsightRecord>,
                                     e: seq<InsightRecord>, c: seq<InsightRecord>, userId: int, now: int)
    requires RulePiece(m, MatchingImprovement, userId, now) && RulePiece(s, SkillDevelopment, userId, now)
    requires RulePiece(n, NetworkingOpportunity, userId, now) && RulePiece(e, EngagementOptimization, userId, now)
    requires RulePiece(c, CareerGrowth, userId, now)
    ensures InRuleOrder(m + s + n + e + c) && NewFor(m + s + n + e + c, userId, now)
    ensures HasType(m + s + n + e + c, MatchingImprovement) <==> m != []
    ensures HasType(m + s + n + e + c, SkillDevelopment) <==> s != []
    ensures HasType(m + s + n + e + c, NetworkingOpportunity) <==> n != []
    ensures HasType(m + s + n + e + c, EngagementOptimization) <==> e != []
    ensures HasType(m + s + n + e + c, CareerGrowth) <==> c != []
  {
    AddRule([], m, MatchingImprovement, userId, now);
    assert [] + m == m;
    AddRule(m, s, SkillDevelopment, userId, now);
    AddRule(m + s, n, NetworkingOpportunity, userId, now);
    AddRule(m + s + n, e, EngagementOptimization, userId, now);
    AddRule(m + s + n + e, c, CareerGrowth, userId, now);
  }

  /** The insights of the rules before `t`'s: in order, new, and of lower
      rank. */
  predicate EarlierRules(r: seq<InsightRecord>, t: InsightType, userId: int, now: int)
  {
    InRuleOrder(r) && NewFor(r, userId, now) && forall i :: 0 <= i < |r| ==> RuleRank(r[i].insightType) < RuleRank(t)
  }

  /** Appending rule `t`'s contribution. */
  lemma {:induction false} AddRule(r: seq<InsightRecord>, piece: seq<InsightRecord>, t: InsightType, userId: int, now: int)
    requires EarlierRules(r, t, userId, now) && RulePiece(piece, t, userId, now)
    ensures InRuleOrder(r + piece) && NewFor(r + piece, userId, now)
    ensures forall u :: RuleRank(t) < RuleRank(u) ==> EarlierRules(r + piece, u, userId, now)
    ensures HasType(r + piece, t) <==> piece != []
    ensures forall u :: u != t ==> (HasType(r + piece, u) <==> HasType(r, u))
  {
    AppendRule(r, piece, RuleRank(t), userId, now);
    HasTypeOfConcat(r, piece);
    PieceHasType(piece, t);
    forall i | 0 <= i < |r|
      ensures r[i].insightType != t
    {
      assert RuleRank(r[i].insightType) < RuleRank(t);
    }
  }

  lemma PieceHasType(piece: seq<InsightRecord>, t: InsightType)
    requires forall i :: 0 <= i < |piece| ==> piece[i].insightType == t
    ensures forall u :: HasType(piece, u) <==> piece != [] && u == t
  {
    if piece != [] {
      assert piece[0].insightType == t;
    }
  }

  lemma HasTypeOfConcat(r: seq<InsightRecord>, piece: seq<InsightRecord>)
    ensures forall t :: HasType(r + piece, t) <==> HasType(r, t) || HasType(piece, t)
  {
    forall t ensures HasType(r + piece, t) <==> HasType(r, t) || HasType(piece, t) {
      if HasType(r + piece, t) {
        var i :| 0 <= i < |r + piece| && (r + piece)[i].insightType == t;
        if i >= |r| { assert piece[i - |r|].insightType == t; }
      }
      if HasType(r, t) {
        var i :| 0 <= i < |r| && r[i].insightType == t;
        assert (r + piece)[i].insightType == t;
      }
      if HasType(piece, t) {
        var i :| 0 <= i < |piece| && piece[i].insightType == t;
        assert (r + piece)[|r| + i].insightType == t;
      }
    }
  }

  /** Unsaved, unread, not acted on, for the user and stamped `now`. */
  predicate NewFor(r: seq<InsightRecord>, userId: int, now: int)
  {
    forall i :: 0 <= i < |r| ==>
      r[i].id == 0 && r[i].userId == userId && !r[i].isRead && !r[i].isActioned && r[i].createdAt == Some(now)
  }

  /** Each insight's rank is below every later one's. */
  predicate InRuleOrder(r: seq<InsightRecord>)
  {
    forall i, j :: 0 <= i < j < |r| ==> RuleRank(r[i].insightType) < RuleRank(r[j].insightType)
  }

  /** Appending the contribution of rule `k` to those of the earlier rules. */
  lemma AppendRule(r: seq<InsightRecord>, piece: seq<InsightRecord>, k: nat, userId: int, now: int)
    requires InRuleOrder(r) && forall i :: 0 <= i < |r| ==> RuleRank(r[i].insightType) < k
    requires |piece| <= 1 && forall i :: 0 <= i < |piece| ==> RuleRank(piece[i].insightType) == k
    requires NewFor(r, userId, now) && NewFor(piece, userId, now)
    ensures InRuleOrder(r + piece) && NewFor(r + piece, userId, now)
    ensures forall i :: 0 <= i < |r + piece| ==> RuleRank((r + piece)[i].insightType) < k + 1
  {
  }

  // ---------------------------------------------------------------------
  // Engagement score and recommendations

  /** The points one behaviour earns. */
  function Weight(t: BehaviorType): real
  {
    match t
    case CoffeeChatStart => 10.0
    case MentorshipSession => 10.0
    case LoungeJoin => 10.0
    case MatchRequest => 5.0
    case BadgeEarned => 5.0
    case ProfileUpdate => 3.0
    case FeedbackSubmit => 3.0
    case Login => 1.0
    case _ => 0.5
  }

  /** The points of a list of behaviours, summed from the first. */
  function Points(bs: seq<BehaviorRecord>): real
  {
    if bs == [] then 0.0 else Points(bs[..|bs| - 1]) + Weight(bs[|bs| - 1].behaviorType)
  }

  /** calculateEngagementScore: the points, capped at 100. */
  function EngagementScore(bs: seq<BehaviorRecord>): (r: real)
    ensures r <= 100.0
    ensures bs == [] ==> r == 0.0
    ensures bs != [] && r < 100.0 ==> r == Points(bs)
    ensures bs != [] && Points(bs) <= 100.0 ==> r == Points(bs)
  {
    if bs == [] then 0.0 else if Points(bs) < 100.0 then Points(bs) else 100.0
  }

  /** Points add up over concatenation. */
  lemma {:induction false} PointsOfConcat(a: seq<BehaviorRecord>, b: seq<BehaviorRecord>)
    ensures Points(a + b) == Points(a) + Points(b)
    decreases |b|
  {
    if b != [] {
      var b' := b[..|b| - 1];
      assert (a + b)[..|a + b| - 1] == a + b';
      assert (a + b)[|a + b| - 1] == b[|b| - 1];
      assert Points(a + b) == Points(a + b') + Weight(b[|b| - 1].behaviorType);
      PointsOfConcat(a, b');
    } else {
      assert a + b == a;
    }
  }

  /** Every behaviour earns between half a point and ten. */
  lemma {:induction false} PointsBounds(bs: seq<BehaviorRecord>)
    ensures 0.5 * |bs| as real <= Points(bs) <= 10.0 * |bs| as real
  {
    if bs != [] {
      PointsBounds(bs[..|bs| - 1]);
    }
  }

  /** The score lies in [0, 100], is positive for any activity, and never
      drops when more behaviours are recorded. */
  lemma {:induction false} EngagementScoreLaws(a: seq<BehaviorRecord>, b: seq<BehaviorRecord>)
    ensures 0.0 <= EngagementScore(a) <= 100.0
    ensures a != [] ==> EngagementScore(a) > 0.0
    ensures EngagementScore(a) <= EngagementScore(a + b)
  {
    PointsBounds(a);
    PointsBounds(b);
    PointsOfConcat(a, b);
    if b == [] {
      assert a + b == a;
    }
  }

  /** calculateEngagementScore, the loop over the behaviours. */
  method CalculateEngagementScore(bs: seq<BehaviorRecord>) returns (score: real)
    ensures score == EngagementScore(bs)
  {
    if bs == [] {
      return 0.0;
    }
    score := 0.0;
    var i := 0;
    while i < |bs|
      invariant 0 <= i <= |bs|
      invariant score == Points(bs[..i])
    {
      assert bs[..i + 1][..i] == bs[..i];
      score := score + Weight(bs[i].behaviorType);
      i := i + 1;
    }
    assert bs[..i] == bs;
    if score > 100.0 {
      score := 100.0;
    }
  }

  const MoreCoffeeChats := "Try to have more coffee chats to expand your network"
  const JoinMentorship := "Consider joining a mentorship program to accelerate your growth"
  const KeepItUp := "You're doing great! Keep up the excellent work"

  /** generateRecommendations: one or two lines; the encouragement only
      when neither nudge applies. */
  function Recommendations(bs: seq<BehaviorRecord>): (r: seq<string>)
    ensures 1 <= |r| <= 2
    ensures MoreCoffeeChats in r <==> Count(bs, CoffeeChatStart) < 5
    ensures JoinMentorship in r <==> Count(bs, MentorshipSession) == 0
    ensures KeepItUp in r <==> Count(bs, CoffeeChatStart) >= 5 && Count(bs, MentorshipSession) >= 1
    ensures KeepItUp in r ==> r == [KeepItUp]
  {
    var r := (if Count(bs, CoffeeChatStart) < 5 then [MoreCoffeeChats] else [])
             + (if Count(bs, MentorshipSession) == 0 then [JoinMentorship] else []);
    if r == [] then [KeepItUp] else r
  }

  /** The result of analyzeUserBehavior. */
  datatype Analysis = Analysis(
    totalActivities: nat,
    recentActivities: nat,
    behaviorDistribution: map<BehaviorType, nat>,
    engagementScore: real,
    recommendations: seq<string>)

  // ---------------------------------------------------------------------
  // Insight updates

  /** An entity saved after a change: JPA's @PreUpdate stamps it only when
      some field actually changed. */
  function Saved(before: InsightRecord, after: InsightRecord, now: int): (r: InsightRecord)
    ensures r == (if after == before then before else after.(updatedAt := Some(now)))
  {
    if after == before then before else after.(updatedAt := Some(now))
  }

  /** markInsightAsRead's change. */
  function AsRead(i: InsightRecord, now: int): (r: InsightRecord)
    ensures r.isRead && r.(isRead := i.isRead, updatedAt := i.updatedAt) == i
    ensures i.isRead ==> r == i
  {
    Saved(i, i.(isRead := true), now)
  }

  /** markInsightAsActioned's change. */
  function AsActioned(i: InsightRecord, now: int): (r: InsightRecord)
    ensures r.isActioned && r.(isActioned := i.isActioned, updatedAt := i.updatedAt) == i
    ensures i.isActioned ==> r == i
  {
    Saved(i, i.(isActioned := true), now)
  }

  /** addInsightFeedback's change: rating and comment replaced, nulls
      included. */
  function WithFeedback(i: InsightRecord, rating: Option<int>, comment: Option<string>, now: int): (r: InsightRecord)
    ensures r.feedbackRating == rating && r.feedbackComment == comment
    ensures r.(feedbackRating := i.feedbackRating, feedbackComment := i.feedbackComment, updatedAt := i.updatedAt) == i
  {
    Saved(i, i.(feedbackRating := rating, feedbackComment := comment), now)
  }

  /** Marking twice is marking once, whenever the second happens; the two
      marks leave each other's flag alone. */
  lemma {:induction false} MarkingLaws(i: InsightRecord, now: int, later: int)
    ensures AsRead(AsRead(i, now), later) == AsRead(i, now)
    ensures AsActioned(AsActioned(i, now), later) == AsActioned(i, now)
    ensures AsRead(i, now).isActioned == i.isActioned && AsActioned(i, now).isRead == i.isRead
    ensures WithFeedback(WithFeedback(i, None, None, now), None, None, later) == WithFeedback(i, None, None, now)
  {
  }

  /** The rows of `xs`, saved one after the other from id `first`. */
  function Numbered(first: int, xs: seq<InsightRecord>, n: nat): (m: map<int, InsightRecord>)
    requires n <= |xs|
    ensures forall id :: id in m <==> first <= id < first + n
    ensures forall id :: id in m ==> m[id] == xs[id - first].(id := id)
  {
    if n == 0 then map[] else Numbered(first, xs, n - 1)[first + n - 1 := xs[n - 1].(id := first + n - 1)]
  }

  /** The DTOs of `xs` saved from id `first`. */
  function NumberedDtos(first: int, xs: seq<InsightRecord>, now: int): (r: seq<UserInsightDto>)
    ensures |r| == |xs| && forall i :: 0 <= i < |r| ==> r[i] == FromInsight(xs[i].(id := first + i), now)
    decreases |xs|
  {
    if xs == [] then [] else [FromInsight(xs[0].(id := first), now)] + NumberedDtos(first + 1, xs[1..], now)
  }

  /** `d` is the DTO of a stored insight that `keep` selects. */
  ghost predicate DtoOfSelected(d: UserInsightDto, m: map<int, InsightRecord>, keep: InsightRecord -> bool, now: int)
  {
    exists id :: id in m && keep(m[id]) && d == FromInsight(m[id], now)
  }

  lemma DtosOfSelected(ids: seq<int>, r: seq<UserInsightDto>, m: map<int, InsightRecord>, keep: InsightRecord -> bool, now: int)
    requires forall i :: 0 <= i < |ids| ==> ids[i] in m && keep(m[ids[i]])
    requires |r| == |ids| && forall i :: 0 <= i < |r| ==> r[i] == FromInsight(m[ids[i]], now)
    ensures forall i :: 0 <= i < |r| ==> DtoOfSelected(r[i], m, keep, now)
    ensures forall id :: id in ids ==> FromInsight(m[id], now) in r
  {
    forall i | 0 <= i < |r| ensures DtoOfSelected(r[i], m, keep, now) {
      var id := ids[i];
      assert id in m && keep(m[id]) && r[i] == FromInsight(m[id], now);
    }
    forall id | id in ids ensures FromInsight(m[id], now) in r {
      var i :| 0 <= i < |ids| && ids[i] == id;
      assert r[i] == FromInsight(m[id], now);
    }
  }

  /** The sort key of `ORDER BY createdAt DESC`. */
  function CreatedAtOf(d: UserInsightDto): Option<int>
  {
    d.createdAt
  }

  /** Sorting the selected DTOs keeps exactly the selected DTOs. */
  lemma SortingKeepsSelected(byId: seq<UserInsightDto>, m: map<int, InsightRecord>, keep: InsightRecord -> bool, now: int)
    requires forall i :: 0 <= i < |byId| ==> DtoOfSelected(byId[i], m, keep, now)
    ensures forall i :: 0 <= i < |SortDescending(byId, CreatedAtOf)| ==>
              DtoOfSelected(SortDescending(byId, CreatedAtOf)[i], m, keep, now)
    ensures forall d :: d in byId ==> d in SortDescending(byId, CreatedAtOf)
  {
    var r := SortDescending(byId, CreatedAtOf);
    SortedMembers(byId, CreatedAtOf);
    forall i | 0 <= i < |r| ensures DtoOfSelected(r[i], m, keep, now) {
      assert r[i] in byId;
    }
  }

  /** Saving the next row extends the numbered rows by one. */
  lemma NumberedStep(before: map<int, InsightRecord>, first: int, xs: seq<InsightRecord>, i: nat)
    requires i < |xs|
    ensures (before + Numbered(first, xs, i))[first + i := xs[i].(id := first + i)] == before + Numbered(first, xs, i + 1)
  {
    assert Numbered(first, xs, i + 1) == Numbered(first, xs, i)[first + i := xs[i].(id := first + i)];
    UpdateOfUnion(before, Numbered(first, xs, i), first + i, xs[i].(id := first + i));
  }

  /** Updating a union updates its right-hand side. */
  lemma UpdateOfUnion(a: map<int, InsightRecord>, b: map<int, InsightRecord>, k: int, v: InsightRecord)
    ensures (a + b)[k := v] == a + b[k := v]
  {
    assert ((a + b)[k := v]).Keys == (a + b[k := v]).Keys;
  }

  /** Rows stored under their own ids stay so when numbered rows join them. */
  lemma NumberedKeepsIds(before: map<int, InsightRecord>, first: int, xs: seq<InsightRecord>)
    requires forall id :: id in before ==> before[id].id == id
    ensures forall id :: id in before + Numbered(first, xs, |xs|) ==> (before + Numbered(first, xs, |xs|))[id].id == id
  {
  }

  /** Inserts `xs` in order, each under the id it is given. */
  method StoreNumbered(table: Table<InsightRecord>, xs: seq<InsightRecord>)
    requires table.Valid()
    modifies table
    ensures table.Valid() && table.nextId == old(table.nextId) + |xs|
    ensures table.rows == old(table.rows) + Numbered(old(table.nextId), xs, |xs|)
  {
    var first := table.nextId;
    ghost var before := table.rows;
    var i := 0;
    while i < |xs|
      invariant 0 <= i <= |xs|
      invariant table.Valid() && table.nextId == first + i
      invariant table.rows == before + Numbered(first, xs, i)
    {
      ghost var prev := table.rows;
      var row := xs[i].(id := first + i);
      var id := table.Insert(row);
      assert table.rows == prev[first + i := row];
      NumberedStep(before, first, xs, i);
      i := i + 1;
    }
  }

  class UserInsightsService {
    const userBehaviorRepository: Table<BehaviorRecord>
    const userInsightRepository: Table<InsightRecord>

    ghost predicate Valid()
      reads this, userBehaviorRepository, userInsightRepository
    {
      userBehaviorRepository.Valid() && userInsightRepository.Valid()
      && (forall id :: id in userBehaviorRepository.rows ==> userBehaviorRepository.rows[id].id == id)
      && (forall id :: id in userInsightRepository.rows ==> userInsightRepository.rows[id].id == id)
    }

    constructor (userBehaviorRepository: Table<BehaviorRecord>, userInsightRepository: Table<InsightRecord>)
      requires userBehaviorRepository.Valid() && userInsightRepository.Valid()
      requires forall id :: id in userBehaviorRepository.rows ==> userBehaviorRepository.rows[id].id == id
      requires forall id :: id in userInsightRepository.rows ==> userInsightRepository.rows[id].id == id
      ensures Valid()
      ensures this.userBehaviorRepository == userBehaviorRepository && this.userInsightRepository == userInsightRepository
    {
      this.userBehaviorRepository := userBehaviorRepository;
      this.userInsightRepository := userInsightRepository;
    }

    /** findByUserIdOrderByTimestampDesc; every use here only counts, so the
        order does not matter, and the model lists them by id. */
    function BehaviorsOf(userId: int): (r: seq<BehaviorRecord>)
      reads this, userBehaviorRepository
      ensures forall i :: 0 <= i < |r| ==> r[i] in userBehaviorRepository.rows.Values && r[i].userId == userId
    {
      SelectedRows(userBehaviorRepository.rows, (b: BehaviorRecord) => b.userId == userId, Max(userBehaviorRepository.nextId, 0))
    }

    /** trackBehavior, all three overloads: the shorter ones pass null for
        what they leave out. The behaviour is stamped `now`. */
    method TrackBehavior(userId: int, behaviorType: BehaviorType, targetId: Option<int>, targetType: Option<string>,
                         context: Option<string>, durationSeconds: Option<int>, intensityScore: Option<real>, now: int)
      requires Valid()
      modifies userBehaviorRepository
      ensures Valid()
      ensures userBehaviorRepository.rows == old(userBehaviorRepository.rows)[old(userBehaviorRepository.nextId) :=
                BehaviorRecord(old(userBehaviorRepository.nextId), userId, behaviorType, targetId, targetType, context,
                               now, durationSeconds, intensityScore)]
    {
      var b := BehaviorRecord(userBehaviorRepository.nextId, userId, behaviorType, targetId, targetType, context,
                              now, durationSeconds, intensityScore);
      var _ := userBehaviorRepository.Insert(b);
    }

    /** generateUserInsights: the rule insights saved under fresh ids, and
        their DTOs. */
    method GenerateUserInsights(userId: int, now: int) returns (r: seq<UserInsightDto>)
      requires Valid()
      modifies userInsightRepository
      ensures Valid()
      ensures var xs := GeneratedInsights(userId, old(BehaviorsOf(userId)), now);
              && userInsightRepository.rows == old(userInsightRepository.rows) + Numbered(old(userInsightRepository.nextId), xs, |xs|)
              && |r| == |xs|
              && forall i :: 0 <= i < |r| ==> r[i] == FromInsight(xs[i].(id := old(userInsightRepository.nextId) + i), now)
    {
      var xs := GeneratedInsights(userId, BehaviorsOf(userId), now);
      r := SaveAll(xs, now);
    }

    /** Saves `xs` in order under fresh ids and returns their DTOs. */
    method SaveAll(xs: seq<InsightRecord>, now: int) returns (r: seq<UserInsightDto>)
      requires Valid()
      modifies userInsightRepository
      ensures Valid()
      ensures userInsightRepository.rows == old(userInsightRepository.rows) + Numbered(old(userInsightRepository.nextId), xs, |xs|)
      ensures |r| == |xs| && forall i :: 0 <= i < |r| ==> r[i] == FromInsight(xs[i].(id := old(userInsightRepository.nextId) + i), now)
    {
      var first := userInsightRepository.nextId;
      ghost var before := userInsightRepository.rows;
      StoreNumbered(userInsightRepository, xs);
      NumberedKeepsIds(before, first, xs);
      r := NumberedDtos(first, xs, now);
    }

    /** The DTOs of the stored insights that `keep` selects, newest first
        (`ORDER BY createdAt DESC`): ties stay in id order, and an insight
        without a creation time comes last. */
    function InsightDtos(keep: InsightRecord -> bool, now: int): (r: seq<UserInsightDto>)
      reads this, userInsightRepository
      ensures forall i :: 0 <= i < |r| ==> DtoOfSelected(r[i], userInsightRepository.rows, keep, now)
      ensures forall id :: id in userInsightRepository.rows && 0 <= id < userInsightRepository.nextId && keep(userInsightRepository.rows[id]) ==>
                FromInsight(userInsightRepository.rows[id], now) in r
      ensures DescendingBy(r, CreatedAtOf)
    {
      var m := userInsightRepository.rows;
      var ids := SelectedIds(m, keep, Max(userInsightRepository.nextId, 0));
      var byId := seq(|ids|, i requires 0 <= i < |ids| => FromInsight(m[ids[i]], now));
      DtosOfSelected(ids, byId, m, keep, now);
      SortingKeepsSelected(byId, m, keep, now);
      SortDescending(byId, CreatedAtOf)
    }

    /** getUserInsights. */
    function GetUserInsights(userId: int, now: int): (r: seq<UserInsightDto>)
      reads this, userInsightRepository
      ensures forall i :: 0 <= i < |r| ==> r[i].userId == userId
      ensures forall i :: 0 <= i < |r| ==>
                exists id :: id in userInsightRepository.rows && userInsightRepository.rows[id].userId == userId
                             && r[i] == FromInsight(userInsightRepository.rows[id], now)
      ensures forall id :: id in userInsightRepository.rows && 0 <= id < userInsightRepository.nextId && userInsightRepository.rows[id].userId == userId ==>
                FromInsight(userInsightRepository.rows[id], now) in r
      ensures DescendingBy(r, CreatedAtOf)
    {
      InsightDtos((x: InsightRecord) => x.userId == userId, now)
    }

    /** getUnreadInsights. */
    function GetUnreadInsights(userId: int, now: int): (r: seq<UserInsightDto>)
      reads this, userInsightRepository
      ensures forall i :: 0 <= i < |r| ==> r[i].userId == userId && !r[i].isRead && StatusDisplay(r[i]) != "Read"
      ensures forall i :: 0 <= i < |r| ==>
                exists id :: id in userInsightRepository.rows && userInsightRepository.rows[id].userId == userId
                             && !userInsightRepository.rows[id].isRead && r[i] == FromInsight(userInsightRepository.rows[id], now)
      ensures forall id :: id in userInsightRepository.rows && 0 <= id < userInsightRepository.nextId && userInsightRepository.rows[id].userId == userId
                             && !userInsightRepository.rows[id].isRead ==>
                FromInsight(userInsightRepository.rows[id], now) in r
      ensures DescendingBy(r, CreatedAtOf)
    {
      InsightDtos((x: InsightRecord) => x.userId == userId && !x.isRead, now)
    }

    /** getInsightsByType. */
    function GetInsightsByType(userId: int, t: InsightType, now: int): (r: seq<UserInsightDto>)
      reads this, userInsightRepository
      ensures forall i :: 0 <= i < |r| ==> r[i].userId == userId && r[i].insightType == InsightTypeName(t)
      ensures forall i :: 0 <= i < |r| ==>
                exists id :: id in userInsightRepository.rows && userInsightRepository.rows[id].userId == userId
                             && userInsightRepository.rows[id].insightType == t
                             && r[i] == FromInsight(userInsightRepository.rows[id], now)
      ensures forall id :: id in userInsightRepository.rows && 0 <= id < userInsightRepository.nextId && userInsightRepository.rows[id].userId == userId
                             && userInsightRepository.rows[id].insightType == t ==>
                FromInsight(userInsightRepository.rows[id], now) in r
      ensures DescendingBy(r, CreatedAtOf)
    {
      InsightDtos((x: InsightRecord) => x.userId == userId && x.insightType == t, now)
    }

    /** markInsightAsRead: null for an unknown id. */
    method MarkInsightAsRead(insightId: int, now: int) returns (r: Option<UserInsightDto>)
      requires Valid()
      modifies userInsightRepository
      ensures Valid()
      ensures insightId !in old(userInsightRepository.rows) ==>
                r.None? && userInsightRepository.rows == old(userInsightRepository.rows)
      ensures insightId in old(userInsightRepository.rows) ==>
                var n := AsRead(old(userInsightRepository.rows)[insightId], now);
                userInsightRepository.rows == old(userInsightRepository.rows)[insightId := n] && r == Some(FromInsight(n, now))
    {
      if insightId !in userInsightRepository.rows {
        return None;
      }
      var n := AsRead(userInsightRepository.rows[insightId], now);
      userInsightRepository.Update(insightId, n);
      r := Some(FromInsight(n, now));
    }

    /** markInsightAsActioned: null for an unknown id. */
    method MarkInsightAsActioned(insightId: int, now: int) returns (r: Option<UserInsightDto>)
      requires Valid()
      modifies userInsightRepository
      ensures Valid()
      ensures insightId !in old(userInsightRepository.rows) ==>
                r.None? && userInsightRepository.rows == old(userInsightRepository.rows)
      ensures insightId in old(userInsightRepository.rows) ==>
                var n := AsActioned(old(userInsightRepository.rows)[insightId], now);
                userInsightRepository.rows == old(userInsightRepository.rows)[insightId := n] && r == Some(FromInsight(n, now))
    {
      if insightId !in userInsightRepository.rows {
        return None;
      }
      var n := AsActioned(userInsightRepository.rows[insightId], now);
      userInsightRepository.Update(insightId, n);
      r := Some(FromInsight(n, now));
    }

    /** addInsightFeedback: null for an unknown id. */
    method AddInsightFeedback(insightId: int, rating: Option<int>, comment: Option<string>, now: int)
      returns (r: Option<UserInsightDto>)
      requires Valid()
      modifies userInsightRepository
      ensures Valid()
      ensures insightId !in old(userInsightRepository.rows) ==>
                r.None? && userInsightRepository.rows == old(userInsightRepository.rows)
      ensures insightId in old(userInsightRepository.rows) ==>
                var n := WithFeedback(old(userInsightRepository.rows)[insightId], rating, comment, now);
                userInsightRepository.rows == old(userInsightRepository.rows)[insightId := n] && r == Some(FromInsight(n, now))
    {
      if insightId !in userInsightRepository.rows {
        return None;
      }
      var n := WithFeedback(userInsightRepository.rows[insightId], rating, comment, now);
      userInsightRepository.Update(insightId, n);
      r := Some(FromInsight(n, now));
    }

    /** analyzeUserBehavior at time `now`: totals, the last seven days'
        count, the distribution, the score and the recommendations. */
    method AnalyzeUserBehavior(userId: int, now: int) returns (a: Analysis)
      requires Valid()
      ensures var bs := BehaviorsOf(userId);
              && a.totalActivities == |bs|
              && a.recentActivities == CountAfter(bs, PlusDays(now, -7))
              && a.recentActivities <= a.totalActivities
              && a.behaviorDistribution == Distribution(bs)
              && a.engagementScore == EngagementScore(bs)
              && a.recommendations == Recommendations(bs)
    {
      var bs := BehaviorsOf(userId);
      var score := CalculateEngagementScore(bs);
      a := Analysis(|bs|, CountAfter(bs, PlusDays(now, -7)), Distribution(bs), score, Recommendations(bs));
    }
  }
}
