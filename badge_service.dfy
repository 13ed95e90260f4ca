// Badge awarding: which badge a user qualifies for, the one-time award with
// its activity-log entry, the default catalogue, display toggling and the
// progress report.
//
// The criteria look a badge up by its category first and by its exact name
// second, so a badge whose name is known only to another category's checker
// can never be earned.

module Badges {
  import opened Common
  import opened Activities
  import opened UserStreaks
  import opened BadgeEntities
  import opened BadgeProgressDto

  // ---------------------------------------------------------------------
  // Criteria

  /** Whether the user's DAILY_LOGIN streak is at least `n`. */
  predicate StreakAtLeast(daily: Option<StreakRecord>, n: int)
  {
    daily.Some? && daily.value.currentCount >= n
  }

  /** The DAILY_LOGIN streak capped at `cap`, 0 without a streak. */
  function StreakCapped(daily: Option<StreakRecord>, cap: int): int
  {
    if daily.Some? then Min(daily.value.currentCount, cap) else 0
  }

  /** Whether the badge's criterion holds for the user, given the activity
      log and the user's DAILY_LOGIN streak (if any). */
  function MeetsCriteria(b: Badge, log: seq<ActivityLog>, daily: Option<StreakRecord>, userId: int): (ok: bool)
    ensures b.badgeCategory == LeadershipBadge ==> !ok
    ensures ok ==> b.name in {"First Login", "Consistent User", "Login Champion", "First Coffee Chat",
                              "Coffee Enthusiast", "Networking Pro", "Lounge Explorer",
                              "Conversation Starter", "Community Builder", "Well Connected",
                              "Active Participant", "Super Engaged"}
  {
    var count := (t: ActivityType) => CountActivities(log, userId, t);
    var streakAtLeast := (n: int) => StreakAtLeast(daily, n);
    match b.badgeCategory
    case LoginBadge =>
      if b.name == "First Login" then count(Login) >= 1
      else if b.name == "Consistent User" then streakAtLeast(7)
      else if b.name == "Login Champion" then streakAtLeast(30)
      else false
    case CoffeeChatBadge =>
      if b.name == "First Coffee Chat" then count(CoffeeChatCompleted) >= 1
      else if b.name == "Coffee Enthusiast" then count(CoffeeChatCompleted) >= 5
      else if b.name == "Networking Pro" then count(CoffeeChatCompleted) >= 20
      else false
    case LoungeBadge =>
      if b.name == "Lounge Explorer" then count(LoungeJoined) >= 3
      else if b.name == "Conversation Starter" then count(LoungeCreated) >= 1
      else if b.name == "Community Builder" then count(LoungeCreated) >= 5
      else false
    case NetworkingBadge =>
      if b.name == "Well Connected" then count(CoffeeChatAccepted) >= 10 else false
    case EngagementBadge =>
      if b.name == "Active Participant" then count(LoungeMessageSent) >= 50
      else if b.name == "Super Engaged" then count(LoungeMessageSent) >= 200
      else false
    case LeadershipBadge =>
      false
  }

  /** The criteria never count BADGE_EARNED rows, so logging an award does not
      change whether any badge qualifies. */
  lemma {:induction false} CriteriaIgnoreBadgeLogs(b: Badge, log: seq<ActivityLog>, entry: ActivityLog,
                                                   daily: Option<StreakRecord>, userId: int)
    requires entry.activityType == BadgeEarned
    ensures MeetsCriteria(b, log + [entry], daily, userId) == MeetsCriteria(b, log, daily, userId)
  {
    forall t: ActivityType | t != BadgeEarned
      ensures CountActivities(log + [entry], userId, t) == CountActivities(log, userId, t)
    {
      CountActivitiesAppend(log, entry, userId, t);
    }
    SameCountsSameCriteria(b, log + [entry], log, daily, userId);
  }

  /** Two logs with the same counts of every kind but BADGE_EARNED qualify
      the user for the same badges. */
  lemma SameCountsSameCriteria(b: Badge, log: seq<ActivityLog>, log': seq<ActivityLog>,
                               daily: Option<StreakRecord>, userId: int)
    requires forall t: ActivityType :: t != BadgeEarned ==> CountActivities(log, userId, t) == CountActivities(log', userId, t)
    ensures MeetsCriteria(b, log, daily, userId) == MeetsCriteria(b, log', daily, userId)
  {
  }

  // ---------------------------------------------------------------------
  // Progress

  /** calculateCurrentProgress: the count towards the badge, clamped for most
      named badges; 0 for unknown names and for every leadership badge. */
  function CurrentProgress(b: Badge, log: seq<ActivityLog>, daily: Option<StreakRecord>, userId: int): (p: int)
    ensures b.badgeCategory == LeadershipBadge ==> p == 0
    ensures b.name == "Coffee Enthusiast" || b.name == "Community Builder" ==> p <= 5
    ensures b.name == "Community Pillar" ==> p <= 1000
    ensures b.name == "Consistent User" && b.badgeCategory == LoginBadge ==> p <= 7
    ensures b.badgeCategory == LoginBadge && b.name != "First Login" && daily.None? ==> p == 0
  {
    match b.badgeCategory
    case LoginBadge =>
      if b.name == "First Login" then CountActivities(log, userId, Login)
      else if b.name == "Consistent User" then StreakCapped(daily, 7)
      else if b.name == "Login Champion" then StreakCapped(daily, 30)
      else if b.name == "Loyalty Master" then StreakCapped(daily, 100)
      else 0
    case CoffeeChatBadge =>
      if b.name == "First Coffee Chat" then CountActivities(log, userId, CoffeeChatCompleted)
      else if b.name == "Coffee Enthusiast" then Min(CountActivities(log, userId, CoffeeChatCompleted), 5)
      else if b.name == "Networking Pro" then Min(CountActivities(log, userId, CoffeeChatCompleted), 25)
      else if b.name == "Social Butterfly" then Min(CountActivities(log, userId, CoffeeChatCompleted), 50)
      else 0
    case LoungeBadge =>
      if b.name == "Lounge Explorer" then CountActivities(log, userId, LoungeJoined)
      else if b.name == "Discussion Leader" then CountActivities(log, userId, LoungeCreated)
      else if b.name == "Community Builder" then Min(CountActivities(log, userId, LoungeCreated), 5)
      else if b.name == "Lounge Master" then Min(CountActivities(log, userId, LoungeCreated), 10)
      else 0
    case NetworkingBadge =>
      if b.name == "First Connection" then CountActivities(log, userId, MatchFound)
      else if b.name == "Network Builder" then Min(CountActivities(log, userId, MatchFound), 10)
      else if b.name == "Connection Master" then Min(CountActivities(log, userId, MatchFound), 50)
      else 0
    case EngagementBadge =>
      if b.name == "Active Participant" then Min(CountActivities(log, userId, LoungeMessageSent), 100)
      else if b.name == "Conversation Starter" then Min(CountActivities(log, userId, LoungeCreated), 20)
      else if b.name == "Community Pillar" then
        (match TotalPoints(log, userId) case None => 0 case Some(total) => Min(total, 1000))
      else 0
    case LeadershipBadge =>
      0
  }

  /** Every default badge's progress lies between 0 and its required count,
      except First Login, First Coffee Chat, Lounge Explorer, Discussion
      Leader and First Connection, whose raw counts are not clamped, and
      Community Pillar, whose point total may be negative only if logged
      points are. */
  lemma {:induction false} ClampedProgressWithinTarget(i: nat, now: int, log: seq<ActivityLog>,
                                                        daily: Option<StreakRecord>, userId: int)
    requires i < |DefaultBadges(now)|
    requires i !in {0, 4, 8, 9, 12, 17}
    requires daily.Some? ==> daily.value.currentCount >= 0
    ensures var b := DefaultBadges(now)[i];
            b.requiredCount.Some? && 0 <= CurrentProgress(b, log, daily, userId) <= b.requiredCount.value
  {
    if i < 4 {
      LoginProgressWithinTarget(i, now, log, daily, userId);
    } else if i < 8 {
      CoffeeChatProgressWithinTarget(i, now, log, daily, userId);
    } else if i < 12 {
      LoungeProgressWithinTarget(i, now, log, daily, userId);
    } else if i < 15 {
      NetworkingProgressWithinTarget(i, now, log, daily, userId);
    } else {
      EngagementLeadershipProgressWithinTarget(i, now, log, daily, userId);
    }
  }

  /** The clamped login badges. */
  lemma {:induction false} LoginProgressWithinTarget(i: nat, now: int, log: seq<ActivityLog>,
                                                     daily: Option<StreakRecord>, userId: int)
    requires i in {1, 2, 3}
    requires daily.Some? ==> daily.value.currentCount >= 0
    ensures i < |DefaultBadges(now)|
    ensures var b := DefaultBadges(now)[i];
            b.requiredCount.Some? && 0 <= CurrentProgress(b, log, daily, userId) <= b.requiredCount.value
  {
    var b := DefaultBadges(now)[i];
    if i == 1 {
      assert b.badgeCategory == LoginBadge && b.name == "Consistent User" && b.requiredCount == Some(7);
    } else if i == 2 {
      assert b.badgeCategory == LoginBadge && b.name == "Login Champion" && b.requiredCount == Some(30);
    } else {
      assert b.badgeCategory == LoginBadge && b.name == "Loyalty Master" && b.requiredCount == Some(100);
    }
  }

  /** The clamped coffee-chat badges. */
  lemma {:induction false} CoffeeChatProgressWithinTarget(i: nat, now: int, log: seq<ActivityLog>,
                                                          daily: Option<StreakRecord>, userId: int)
    requires i in {5, 6, 7}
    ensures i < |DefaultBadges(now)|
    ensures var b := DefaultBadges(now)[i];
            b.requiredCount.Some? && 0 <= CurrentProgress(b, log, daily, userId) <= b.requiredCount.value
  {
    var b := DefaultBadges(now)[i];
    if i == 5 {
      assert b.badgeCategory == CoffeeChatBadge && b.name == "Coffee Enthusiast" && b.requiredCount == Some(5);
    } else if i == 6 {
      assert b.badgeCategory == CoffeeChatBadge && b.name == "Networking Pro" && b.requiredCount == Some(25);
    } else {
      assert b.badgeCategory == CoffeeChatBadge && b.name == "Social Butterfly" && b.requiredCount == Some(50);
    }
  }

  /** The clamped lounge badges. */
  lemma {:induction false} LoungeProgressWithinTarget(i: nat, now: int, log: seq<ActivityLog>,
                                                      daily: Option<StreakRecord>, userId: int)
    requires i in {10, 11}
    ensures i < |DefaultBadges(now)|
    ensures var b := DefaultBadges(now)[i];
            b.requiredCount.Some? && 0 <= CurrentProgress(b, log, daily, userId) <= b.requiredCount.value
  {
    var b := DefaultBadges(now)[i];
    if i == 10 {
      assert b.badgeCategory == LoungeBadge && b.name == "Community Builder" && b.requiredCount == Some(5);
    } else {
      assert b.badgeCategory == LoungeBadge && b.name == "Lounge Master" && b.requiredCount == Some(10);
    }
  }

  /** The clamped networking badges. */
  lemma {:induction false} NetworkingProgressWithinTarget(i: nat, now: int, log: seq<ActivityLog>,
                                                          daily: Option<StreakRecord>, userId: int)
    requires i in {13, 14}
    ensures i < |DefaultBadges(now)|
    ensures var b := DefaultBadges(now)[i];
            b.requiredCount.Some? && 0 <= CurrentProgress(b, log, daily, userId) <= b.requiredCount.value
  {
    var b := DefaultBadges(now)[i];
    if i == 13 {
      assert b.badgeCategory == NetworkingBadge && b.name == "Network Builder" && b.requiredCount == Some(10);
    } else {
      assert b.badgeCategory == NetworkingBadge && b.name == "Connection Master" && b.requiredCount == Some(50);
    }
  }

  /** The clamped engagement badges, and the leadership badges, whose progress
      is always 0. */
  lemma {:induction false} EngagementLeadershipProgressWithinTarget(i: nat, now: int, log: seq<ActivityLog>,
                                                                    daily: Option<StreakRecord>, userId: int)
    requires i in {15, 16, 18, 19, 20}
    ensures i < |DefaultBadges(now)|
    ensures var b := DefaultBadges(now)[i];
            b.requiredCount.Some? && 0 <= CurrentProgress(b, log, daily, userId) <= b.requiredCount.value
  {
    var b := DefaultBadges(now)[i];
    if i == 15 {
      assert b.badgeCategory == EngagementBadge && b.name == "Active Participant" && b.requiredCount == Some(100);
    } else if i == 16 {
      assert b.badgeCategory == EngagementBadge && b.name == "Conversation Starter" && b.requiredCount == Some(20);
    } else if i == 18 {
      assert b.badgeCategory == LeadershipBadge && b.name == "Mentor" && b.requiredCount == Some(5);
    } else if i == 19 {
      assert b.badgeCategory == LeadershipBadge && b.name == "Team Captain" && b.requiredCount == Some(3);
    } else {
      assert b.badgeCategory == LeadershipBadge && b.name == "Visionary" && b.requiredCount == Some(1);
    }
  }

  // ---------------------------------------------------------------------
  // Default catalogue

  function Seed(id: int, name: string, description: string, category: BadgeCategory, icon: string,
                rarity: int, required: int, now: int): Badge
  {
    Badge(id, name, Some(description), Some(icon), Achievement, category, Some(required), true, rarity, now)
  }

  /** The 21 badges initializeDefaultBadges creates, with identities 0..20. */
  function DefaultBadges(now: int): (bs: seq<Badge>)
    ensures |bs| == 21
    ensures forall i :: 0 <= i < |bs| ==> bs[i].id == i && bs[i].isActive && bs[i].badgeType == Achievement
  {
    [ Seed(0, "First Login", "Welcome to Water Cooler Network!", LoginBadge, "🎉", 1, 1, now),
      Seed(1, "Consistent User", "Logged in for 7 consecutive days", LoginBadge, "📅", 1, 7, now),
      Seed(2, "Login Champion", "Logged in for 30 consecutive days", LoginBadge, "🔥", 2, 30, now),
      Seed(3, "Loyalty Master", "Logged in for 100 consecutive days", LoginBadge, "💎", 3, 100, now),
      Seed(4, "First Coffee Chat", "Completed your first coffee chat", CoffeeChatBadge, "☕", 1, 1, now),
      Seed(5, "Coffee Enthusiast", "Completed 5 coffee chats", CoffeeChatBadge, "💬", 2, 5, now),
      Seed(6, "Networking Pro", "Completed 25 coffee chats", CoffeeChatBadge, "🤝", 3, 25, now),
      Seed(7, "Social Butterfly", "Completed 50 coffee chats", CoffeeChatBadge, "🦋", 4, 50, now),
      Seed(8, "Lounge Explorer", "Joined your first topic lounge", LoungeBadge, "🏠", 1, 1, now),
      Seed(9, "Discussion Leader", "Created your first topic lounge", LoungeBadge, "👑", 2, 1, now),
      Seed(10, "Community Builder", "Created 5 topic lounges", LoungeBadge, "🏗️", 3, 5, now),
      Seed(11, "Lounge Master", "Created 10 topic lounges", LoungeBadge, "🎭", 4, 10, now),
      Seed(12, "First Connection", "Made your first match", NetworkingBadge, "🔗", 1, 1, now),
      Seed(13, "Network Builder", "Made 10 matches", NetworkingBadge, "🌐", 2, 10, now),
      Seed(14, "Connection Master", "Made 50 matches", NetworkingBadge, "🌟", 3, 50, now),
      Seed(15, "Active Participant", "Sent 100 lounge messages", EngagementBadge, "💭", 2, 100, now),
      Seed(16, "Conversation Starter", "Started 20 discussions", EngagementBadge, "🎯", 3, 20, now),
      Seed(17, "Community Pillar", "Earned 1000 total points", EngagementBadge, "🏛️", 4, 1000, now),
      Seed(18, "Mentor", "Helped 5 new users", LeadershipBadge, "🎓", 3, 5, now),
      Seed(19, "Team Captain", "Led 3 successful events", LeadershipBadge, "⚡", 4, 3, now),
      Seed(20, "Visionary", "Created innovative features", LeadershipBadge, "🚀", 4, 1, now) ]
  }

  /** Twelve of the 21 default badges can never be awarded: their names are
      unknown to their category's checker, or the category is leadership. */
  lemma {:induction false} UnawardableDefaults(i: nat, now: int, log: seq<ActivityLog>,
                                               daily: Option<StreakRecord>, userId: int)
    requires i in {3, 7, 9, 11, 12, 13, 14, 16, 17, 18, 19, 20}
    ensures i < |DefaultBadges(now)| && !MeetsCriteria(DefaultBadges(now)[i], log, daily, userId)
  {
    if i < 12 {
      UnawardableLoginCoffeeLoungeDefaults(i, now, log, daily, userId);
    } else if i < 18 {
      UnawardableNetworkingEngagementDefaults(i, now, log, daily, userId);
    } else {
      UnawardableLeadershipDefaults(i, now, log, daily, userId);
    }
  }

  /** Loyalty Master, Social Butterfly, Discussion Leader and Lounge Master
      are unknown to the login, coffee-chat and lounge checkers. */
  lemma {:induction false} UnawardableLoginCoffeeLoungeDefaults(i: nat, now: int, log: seq<ActivityLog>,
                                                                daily: Option<StreakRecord>, userId: int)
    requires i in {3, 7, 9, 11}
    ensures i < |DefaultBadges(now)| && !MeetsCriteria(DefaultBadges(now)[i], log, daily, userId)
  {
    var b := DefaultBadges(now)[i];
    if i == 3 {
      assert b.badgeCategory == LoginBadge && b.name == "Loyalty Master";
    } else if i == 7 {
      assert b.badgeCategory == CoffeeChatBadge && b.name == "Social Butterfly";
    } else if i == 9 {
      assert b.badgeCategory == LoungeBadge && b.name == "Discussion Leader";
    } else {
      assert b.badgeCategory == LoungeBadge && b.name == "Lounge Master";
    }
  }

  /** The networking checker knows only Well Connected, and the engagement
      checker neither Community Pillar nor "Conversation Starter", which is
      seeded as ENGAGEMENT though only the lounge checker knows that name. */
  lemma {:induction false} UnawardableNetworkingEngagementDefaults(i: nat, now: int, log: seq<ActivityLog>,
                                                                   daily: Option<StreakRecord>, userId: int)
    requires i in {12, 13, 14, 16, 17}
    ensures i < |DefaultBadges(now)| && !MeetsCriteria(DefaultBadges(now)[i], log, daily, userId)
  {
    var b := DefaultBadges(now)[i];
    if i == 16 {
      assert b.badgeCategory == EngagementBadge && b.name == "Conversation Starter";
    } else if i == 17 {
      assert b.badgeCategory == EngagementBadge && b.name == "Community Pillar";
    } else {
      assert b.badgeCategory == NetworkingBadge && b.name != "Well Connected";
    }
  }

  /** The leadership badges, which no criterion awards. */
  lemma {:induction false} UnawardableLeadershipDefaults(i: nat, now: int, log: seq<ActivityLog>,
                                                         daily: Option<StreakRecord>, userId: int)
    requires 18 <= i <= 20
    ensures i < |DefaultBadges(now)| && !MeetsCriteria(DefaultBadges(now)[i], log, daily, userId)
  {
    assert DefaultBadges(now)[i].badgeCategory == LeadershipBadge;
  }

  /** "Networking Pro" is seeded with a requirement of 25 chats but qualifies
      at 20. */
  lemma NetworkingProThreshold(now: int, log: seq<ActivityLog>, daily: Option<StreakRecord>, userId: int)
    ensures DefaultBadges(now)[6].requiredCount == Some(25)
    ensures MeetsCriteria(DefaultBadges(now)[6], log, daily, userId)
            <==> CountActivities(log, userId, CoffeeChatCompleted) >= 20
  {
    var b := DefaultBadges(now)[6];
    assert b.badgeCategory == CoffeeChatBadge && b.name == "Networking Pro";
  }

  /** "Lounge Explorer" is seeded with a requirement of 1 but needs 3 joins. */
  lemma LoungeExplorerThreshold(now: int, log: seq<ActivityLog>, daily: Option<StreakRecord>, userId: int)
    ensures DefaultBadges(now)[8].requiredCount == Some(1)
    ensures MeetsCriteria(DefaultBadges(now)[8], log, daily, userId)
            <==> CountActivities(log, userId, LoungeJoined) >= 3
  {
    var b := DefaultBadges(now)[8];
    assert b.badgeCategory == LoungeBadge && b.name == "Lounge Explorer";
  }

  /** "Active Participant" is seeded with a requirement of 100 but needs 50
      messages. */
  lemma ActiveParticipantThreshold(now: int, log: seq<ActivityLog>, daily: Option<StreakRecord>, userId: int)
    ensures DefaultBadges(now)[15].requiredCount == Some(100)
    ensures MeetsCriteria(DefaultBadges(now)[15], log, daily, userId)
            <==> CountActivities(log, userId, LoungeMessageSent) >= 50
  {
    var b := DefaultBadges(now)[15];
    assert b.badgeCategory == EngagementBadge && b.name == "Active Participant";
  }

  // ---------------------------------------------------------------------
  // Awarding, on the value level

  /** The part of the state an award changes. */
  datatype AwardState = AwardState(userBadges: seq<UserBadge>, log: seq<ActivityLog>)

  predicate HoldsBadge(ubs: seq<UserBadge>, userId: int, badgeId: int)
  {
    exists i :: 0 <= i < |ubs| && ubs[i].userId == userId && ubs[i].badgeId == badgeId
  }

  /** No user holds the same badge twice. */
  predicate UniqueHoldings(ubs: seq<UserBadge>)
  {
    forall i, j :: 0 <= i < j < |ubs| ==> !(ubs[i].userId == ubs[j].userId && ubs[i].badgeId == ubs[j].badgeId)
  }

  function EarnedRecord(userId: int, b: Badge, now: int): UserBadge
  {
    UserBadge(userId, b.id, now, b.requiredCount.GetOr(100), true, false)
  }

  function EarnedLogEntry(userId: int, b: Badge, now: int): ActivityLog
  {
    ActivityLog(userId, BadgeEarned, Some(b.id), Some("{\"badgeName\":\"" + b.name + "\"}"), 50, now)
  }

  /** awardBadge: one holding and one BADGE_EARNED log row worth 50 points. */
  function Awarded(st: AwardState, userId: int, b: Badge, now: int): (r: AwardState)
    ensures r.userBadges == st.userBadges + [EarnedRecord(userId, b, now)]
    ensures r.log == st.log + [EarnedLogEntry(userId, b, now)]
  {
    AwardState(st.userBadges + [EarnedRecord(userId, b, now)], st.log + [EarnedLogEntry(userId, b, now)])
  }

  /** checkAndAwardBadges over `candidates`, one badge after the other. */
  function AwardAll(st: AwardState, candidates: seq<Badge>, daily: Option<StreakRecord>, userId: int, now: int)
    : (r: AwardState)
    ensures st.userBadges <= r.userBadges && st.log <= r.log
    ensures |r.userBadges| - |st.userBadges| == |r.log| - |st.log| <= |candidates|
  {
    if candidates == [] then st
    else
      var s := AwardAll(st, candidates[..|candidates| - 1], daily, userId, now);
      var b := candidates[|candidates| - 1];
      if !HoldsBadge(s.userBadges, userId, b.id) && MeetsCriteria(b, s.log, daily, userId)
      then Awarded(s, userId, b, now)
      else s
  }

  /** Extending the candidates by one takes one more award step. */
  lemma AwardAllStep(st: AwardState, candidates: seq<Badge>, i: int, daily: Option<StreakRecord>, userId: int, now: int)
    requires 0 <= i < |candidates|
    ensures var s := AwardAll(st, candidates[..i], daily, userId, now);
            var b := candidates[i];
            AwardAll(st, candidates[..i + 1], daily, userId, now)
              == if !HoldsBadge(s.userBadges, userId, b.id) && MeetsCriteria(b, s.log, daily, userId)
                 then Awarded(s, userId, b, now) else s
  {
    assert candidates[..i + 1][..i] == candidates[..i];
  }

  /** checkAndAwardBadges never gives anyone a badge twice, only appends, and
      appends one log row per new holding, each for this user. */
  lemma {:induction false} AwardAllShape(st: AwardState, candidates: seq<Badge>, daily: Option<StreakRecord>,
                                         userId: int, now: int)
    requires UniqueHoldings(st.userBadges)
    ensures var r := AwardAll(st, candidates, daily, userId, now);
      && UniqueHoldings(r.userBadges)
      && st.userBadges <= r.userBadges && st.log <= r.log
      && |r.log| - |st.log| == |r.userBadges| - |st.userBadges| <= |candidates|
      && (forall k :: |st.userBadges| <= k < |r.userBadges| ==> r.userBadges[k].userId == userId)
      && (forall k :: |st.log| <= k < |r.log| ==> r.log[k].activityType == BadgeEarned)
  {
    if candidates != [] {
      var prefix := candidates[..|candidates| - 1];
      AwardAllShape(st, prefix, daily, userId, now);
      var s := AwardAll(st, prefix, daily, userId, now);
      var last := candidates[|candidates| - 1];
      if !HoldsBadge(s.userBadges, userId, last.id) && MeetsCriteria(last, s.log, daily, userId) {
        AwardKeepsUnique(s.userBadges, userId, last, now);
      }
    }
  }

  /** Appending a badge the user does not hold keeps holdings unique. */
  lemma AwardKeepsUnique(ubs: seq<UserBadge>, userId: int, b: Badge, now: int)
    requires UniqueHoldings(ubs) && !HoldsBadge(ubs, userId, b.id)
    ensures UniqueHoldings(ubs + [EarnedRecord(userId, b, now)])
  {
  }

  /** The criteria are judged the same on the log as the awards grow it. */
  lemma {:induction false} CriteriaStableUnderAwards(st: AwardState, candidates: seq<Badge>, b: Badge,
                                                     daily: Option<StreakRecord>, userId: int, now: int)
    ensures MeetsCriteria(b, AwardAll(st, candidates, daily, userId, now).log, daily, userId)
            == MeetsCriteria(b, st.log, daily, userId)
  {
    if candidates != [] {
      var prefix := candidates[..|candidates| - 1];
      CriteriaStableUnderAwards(st, prefix, b, daily, userId, now);
      var s := AwardAll(st, prefix, daily, userId, now);
      var last := candidates[|candidates| - 1];
      if !HoldsBadge(s.userBadges, userId, last.id) && MeetsCriteria(last, s.log, daily, userId) {
        CriteriaIgnoreBadgeLogs(b, s.log, EarnedLogEntry(userId, last, now), daily, userId);
      }
    }
  }

  /** After checkAndAwardBadges the user holds every candidate badge it
      qualified for, and nothing it held before is lost. */
  lemma {:induction false} AwardAllComplete(st: AwardState, candidates: seq<Badge>, daily: Option<StreakRecord>,
                                            userId: int, now: int)
    ensures forall b :: b in candidates && MeetsCriteria(b, st.log, daily, userId) ==>
              HoldsBadge(AwardAll(st, candidates, daily, userId, now).userBadges, userId, b.id)
    ensures forall u, id :: HoldsBadge(st.userBadges, u, id) ==>
              HoldsBadge(AwardAll(st, candidates, daily, userId, now).userBadges, u, id)
  {
    if candidates != [] {
      var prefix := candidates[..|candidates| - 1];
      AwardAllComplete(st, prefix, daily, userId, now);
      var s := AwardAll(st, prefix, daily, userId, now);
      var r := AwardAll(st, candidates, daily, userId, now);
      var last := candidates[|candidates| - 1];
      assert s.userBadges <= r.userBadges;
      forall u, id | HoldsBadge(s.userBadges, u, id) ensures HoldsBadge(r.userBadges, u, id) {
        var i :| 0 <= i < |s.userBadges| && s.userBadges[i].userId == u && s.userBadges[i].badgeId == id;
        assert r.userBadges[i] == s.userBadges[i];
      }
      forall b | b in candidates && MeetsCriteria(b, st.log, daily, userId)
        ensures HoldsBadge(r.userBadges, userId, b.id)
      {
        if b in prefix {
        } else {
          assert b == last;
          CriteriaStableUnderAwards(st, prefix, b, daily, userId, now);
          if !HoldsBadge(s.userBadges, userId, b.id) {
            assert r.userBadges[|s.userBadges|] == EarnedRecord(userId, b, now);
          }
        }
      }
    }
  }

  /** The holding at index `k` of `r` is one of the candidates, earned now
      by this user, who met its criteria on the log of `st`. */
  ghost predicate QualifiedAt(st: AwardState, r: AwardState, candidates: seq<Badge>,
                              daily: Option<StreakRecord>, userId: int, now: int, k: int)
    requires 0 <= k < |r.userBadges|
  {
    exists b :: b in candidates && r.userBadges[k] == EarnedRecord(userId, b, now)
                && MeetsCriteria(b, st.log, daily, userId)
  }

  /** Every holding added after `st` is one of the candidates, earned now
      by this user, who met its criteria on the log before the run. */
  ghost predicate AddedQualified(st: AwardState, r: AwardState, candidates: seq<Badge>,
                                 daily: Option<StreakRecord>, userId: int, now: int)
  {
    forall k :: |st.userBadges| <= k < |r.userBadges| ==> QualifiedAt(st, r, candidates, daily, userId, now, k)
  }

  /** Widening the candidate list keeps every added holding accounted for. */
  lemma AddedQualifiedWiden(st: AwardState, r: AwardState, prefix: seq<Badge>, candidates: seq<Badge>,
                            daily: Option<StreakRecord>, userId: int, now: int)
    requires AddedQualified(st, r, prefix, daily, userId, now)
    requires forall b :: b in prefix ==> b in candidates
    ensures AddedQualified(st, r, candidates, daily, userId, now)
  {
    forall k | |st.userBadges| <= k < |r.userBadges|
      ensures QualifiedAt(st, r, candidates, daily, userId, now, k)
    {
      assert QualifiedAt(st, r, prefix, daily, userId, now, k);
      var b :| b in prefix && r.userBadges[k] == EarnedRecord(userId, b, now) && MeetsCriteria(b, st.log, daily, userId);
      assert b in candidates;
    }
  }

  /** One more award of a qualifying candidate keeps every added holding
      accounted for. */
  lemma AddedQualifiedAward(st: AwardState, s: AwardState, candidates: seq<Badge>, b: Badge,
                            daily: Option<StreakRecord>, userId: int, now: int)
    requires AddedQualified(st, s, candidates, daily, userId, now)
    requires b in candidates && MeetsCriteria(b, st.log, daily, userId)
    ensures AddedQualified(st, Awarded(s, userId, b, now), candidates, daily, userId, now)
  {
    var r := Awarded(s, userId, b, now);
    forall k | |st.userBadges| <= k < |r.userBadges|
      ensures QualifiedAt(st, r, candidates, daily, userId, now, k)
    {
      if k < |s.userBadges| {
        assert QualifiedAt(st, s, candidates, daily, userId, now, k);
        var c :| c in candidates && s.userBadges[k] == EarnedRecord(userId, c, now) && MeetsCriteria(c, st.log, daily, userId);
        assert r.userBadges[k] == s.userBadges[k];
      } else {
        assert r.userBadges[k] == EarnedRecord(userId, b, now);
      }
    }
    assert AddedQualified(st, r, candidates, daily, userId, now);
  }

  /** checkAndAwardBadges awards only badges whose criteria were met. */
  lemma {:induction false} AwardAllSound(st: AwardState, candidates: seq<Badge>, daily: Option<StreakRecord>,
                                         userId: int, now: int)
    ensures AddedQualified(st, AwardAll(st, candidates, daily, userId, now), candidates, daily, userId, now)
  {
    if candidates != [] {
      var prefix := candidates[..|candidates| - 1];
      var last := candidates[|candidates| - 1];
      AwardAllSound(st, prefix, daily, userId, now);
      var s := AwardAll(st, prefix, daily, userId, now);
      AddedQualifiedWiden(st, s, prefix, candidates, daily, userId, now);
      if !HoldsBadge(s.userBadges, userId, last.id) && MeetsCriteria(last, s.log, daily, userId) {
        CriteriaStableUnderAwards(st, prefix, last, daily, userId, now);
        AddedQualifiedAward(st, s, candidates, last, daily, userId, now);
      }
    }
  }

  /** findByIsActiveTrue. */
  function ActiveBadges(bs: seq<Badge>): (r: seq<Badge>)
    ensures forall b :: b in r <==> b in bs && b.isActive
  {
    if bs == [] then []
    else (if bs[0].isActive then [bs[0]] else []) + ActiveBadges(bs[1..])
  }

  /** The first holding of this badge by this user. */
  function HoldingIndex(ubs: seq<UserBadge>, userId: int, badgeId: int): (k: Option<nat>)
    ensures k.Some? <==> HoldsBadge(ubs, userId, badgeId)
    ensures k.Some? ==> k.value < |ubs| && ubs[k.value].userId == userId && ubs[k.value].badgeId == badgeId
  {
    if ubs == [] then None
    else if ubs[0].userId == userId && ubs[0].badgeId == badgeId then Some(0)
    else
      match HoldingIndex(ubs[1..], userId, badgeId)
      case None => None
      case Some(k) => Some(k + 1)
  }

  /** toggleBadgeDisplay on the value level. */
  function ToggledDisplay(ubs: seq<UserBadge>, userId: int, badgeId: int): (r: seq<UserBadge>)
    ensures |r| == |ubs|
  {
    match HoldingIndex(ubs, userId, badgeId)
    case None => ubs
    case Some(k) => ubs[k := ubs[k].(isDisplayed := !ubs[k].isDisplayed)]
  }

  /** Toggling flips exactly the user's holding of that badge, so toggling
      twice restores every holding; without a holding nothing changes. */
  lemma {:induction false} ToggleTwiceRestores(ubs: seq<UserBadge>, userId: int, badgeId: int)
    ensures !HoldsBadge(ubs, userId, badgeId) ==> ToggledDisplay(ubs, userId, badgeId) == ubs
    ensures ToggledDisplay(ToggledDisplay(ubs, userId, badgeId), userId, badgeId) == ubs
    ensures HoldsBadge(ubs, userId, badgeId) ==>
              var k := HoldingIndex(ubs, userId, badgeId).value;
              ToggledDisplay(ubs, userId, badgeId)[k].isDisplayed == !ubs[k].isDisplayed
  {
    var once := ToggledDisplay(ubs, userId, badgeId);
    match HoldingIndex(ubs, userId, badgeId)
    case None =>
    case Some(k) =>
      HoldingIndexStable(ubs, userId, badgeId, k, once[k]);
  }

  /** Rewriting the fields of a holding other than its owner and badge keeps
      the first-holding position. */
  lemma {:induction false} HoldingIndexStable(ubs: seq<UserBadge>, userId: int, badgeId: int, k: nat, v: UserBadge)
    requires HoldingIndex(ubs, userId, badgeId) == Some(k)
    requires v.userId == userId && v.badgeId == badgeId
    ensures HoldingIndex(ubs[k := v], userId, badgeId) == Some(k)
  {
    if k > 0 {
      assert ubs[k := v][1..] == ubs[1..][k - 1 := v];
      HoldingIndexStable(ubs[1..], userId, badgeId, k - 1, v);
    }
  }

  // ---------------------------------------------------------------------
  // The service

  class BadgeService {
    var badges: seq<Badge>
    var userBadges: seq<UserBadge>
    const activityLogs: ActivityLogRepository
    const streakRepository: UserStreakRepository

    /** Badge identities are their positions; no badge is held twice. */
    ghost predicate Valid()
      reads this
    {
      (forall i :: 0 <= i < |badges| ==> badges[i].id == i) && UniqueHoldings(userBadges)
    }

    constructor (activityLogs: ActivityLogRepository, streakRepository: UserStreakRepository)
      ensures Valid() && badges == [] && userBadges == []
      ensures this.activityLogs == activityLogs && this.streakRepository == streakRepository
    {
      badges := [];
      userBadges := [];
      this.activityLogs := activityLogs;
      this.streakRepository := streakRepository;
    }

    /** The user's DAILY_LOGIN streak, as the login criteria look it up. */
    function DailyLoginStreak(userId: int): Option<StreakRecord>
      reads streakRepository, (set s | s in streakRepository.streaks)
    {
      FindStreak(streakRepository.Records(), userId, DailyLogin)
    }

    /** awardBadge. */
    method AwardBadge(userId: int, b: Badge, now: int)
      modifies this, activityLogs
      ensures AwardState(userBadges, activityLogs.rows)
              == Awarded(AwardState(old(userBadges), old(activityLogs.rows)), userId, b, now)
      ensures badges == old(badges)
    {
      userBadges := userBadges + [EarnedRecord(userId, b, now)];
      activityLogs.Save(EarnedLogEntry(userId, b, now));
    }

    /** One turn of checkAndAwardBadges' loop: the badge is awarded when the
        user does not hold it yet and qualifies for it. */
    method AwardIfQualified(userId: int, b: Badge, daily: Option<StreakRecord>, now: int)
      modifies this, activityLogs
      ensures var st := AwardState(old(userBadges), old(activityLogs.rows));
              AwardState(userBadges, activityLogs.rows)
              == if !HoldsBadge(st.userBadges, userId, b.id) && MeetsCriteria(b, st.log, daily, userId)
                 then Awarded(st, userId, b, now) else st
      ensures badges == old(badges)
    {
      if !HoldsBadge(userBadges, userId, b.id) && MeetsCriteria(b, activityLogs.rows, daily, userId) {
        AwardBadge(userId, b, now);
      }
    }

    /** checkAndAwardBadges. The activity type is passed on by the source but
        unused by the criteria. */
    method CheckAndAwardBadges(userId: int, activityType: ActivityType, now: int)
      requires Valid()
      modifies this, activityLogs
      ensures Valid() && badges == old(badges)
      ensures AwardState(userBadges, activityLogs.rows)
              == AwardAll(AwardState(old(userBadges), old(activityLogs.rows)), ActiveBadges(badges),
                          DailyLoginStreak(userId), userId, now)
    {
      var available := ActiveBadges(badges);
      ghost var start := AwardState(userBadges, activityLogs.rows);
      var daily := DailyLoginStreak(userId);
      var i := 0;
      while i < |available|
        invariant 0 <= i <= |available|
        invariant badges == old(badges)
        invariant AwardState(userBadges, activityLogs.rows) == AwardAll(start, available[..i], daily, userId, now)
      {
        AwardAllStep(start, available, i, daily, userId, now);
        AwardIfQualified(userId, available[i], daily, now);
        i := i + 1;
      }
      assert available[..i] == available;
      AwardAllShape(start, available, daily, userId, now);
    }

    /** initializeDefaultBadges: a no-op once any badge exists. */
    method InitializeDefaultBadges(now: int)
      modifies this
      ensures old(badges) != [] ==> badges == old(badges)
      ensures old(badges) == [] ==> badges == DefaultBadges(now)
      ensures userBadges == old(userBadges)
      ensures old(Valid()) ==> Valid()
    {
      if |badges| > 0 {
        return;
      }
      badges := DefaultBadges(now);
    }

    /** toggleBadgeDisplay. */
    method ToggleBadgeDisplay(userId: int, badgeId: int)
      requires Valid()
      modifies this
      ensures Valid() && badges == old(badges)
      ensures userBadges == ToggledDisplay(old(userBadges), userId, badgeId)
    {
      var k := HoldingIndex(userBadges, userId, badgeId);
      if k.Some? {
        var ub := userBadges[k.value];
        userBadges := userBadges[k.value := ub.(isDisplayed := !ub.isDisplayed)];
      }
    }

    /** getBadgeProgress: absent for an unknown badge; an earned badge reports
        its stored progress and earning time, any other its computed progress. */
    function GetBadgeProgress(userId: int, badgeId: int): (p: Option<BadgeProgress>)
      requires Valid()
      reads this, activityLogs, streakRepository, (set s | s in streakRepository.streaks)
      ensures p.None? <==> !(0 <= badgeId < |badges|)
      ensures p.Some? ==>
        var b := badges[badgeId];
        && p.value.badgeId == badgeId && p.value.badgeName == b.name
        && p.value.badgeDescription == b.description && p.value.iconUrl == b.iconUrl
        && p.value.requiredCount == b.requiredCount && p.value.rarityLevel == b.rarityLevel
        && p.value.currentProgress.Some?
        && (p.value.isEarned <==> HoldsBadge(userBadges, userId, badgeId))
        && (p.value.isEarned ==> p.value.earnedAt.Some?)
        && (!p.value.isEarned ==>
              (p.value.earnedAt.None?
               && p.value.currentProgress.value == CurrentProgress(b, activityLogs.rows, DailyLoginStreak(userId), userId)))
      ensures p.Some? && HoldingIndex(userBadges, userId, badgeId).Some? ==>
        var k := HoldingIndex(userBadges, userId, badgeId).value;
        p.value.currentProgress == Some(userBadges[k].currentProgress) && p.value.earnedAt == Some(userBadges[k].earnedAt)
    {
      if !(0 <= badgeId < |badges|) then None
      else
        var b := badges[badgeId];
        var base := BadgeProgress(badgeId, b.name, b.description, b.iconUrl, b.requiredCount, None,
                                  b.rarityLevel, false, None);
        match HoldingIndex(userBadges, userId, badgeId)
        case Some(k) =>
          Some(base.(isEarned := true, currentProgress := Some(userBadges[k].currentProgress),
                     earnedAt := Some(userBadges[k].earnedAt)))
        case None =>
          Some(base.(currentProgress := Some(CurrentProgress(b, activityLogs.rows, DailyLoginStreak(userId), userId))))
    }
  }
}
