// Points, streak bookkeeping and the per-user summary of the gamification
// layer. The service shares the activity log and the streak table with the
// badge service, as the injected repositories do.

module Gamification {
  import opened Common
  import opened Activities
  import opened UserStreaks
  import opened BadgeEntities
  import opened Badges
  import UserStreakDto
  import opened Tables

  /** calculatePoints. */
  function CalculatePoints(t: ActivityType): (points: int)
    ensures points > 0
    ensures t == Login ==> points == 5
    ensures t == CoffeeChatRequest ==> points == 2
    ensures t == CoffeeChatAccepted ==> points == 5
    ensures t == CoffeeChatCompleted ==> points == 20
    ensures t == LoungeJoined ==> points == 3
    ensures t == LoungeCreated ==> points == 15
    ensures t == LoungeMessageSent ==> points == 1
    ensures t == ProfileUpdated ==> points == 5
    ensures t == MatchFound ==> points == 10
    ensures t == BadgeEarned ==> points == 50
  {
    match t
    case Login => 5
    case CoffeeChatRequest => 2
    case CoffeeChatAccepted => 5
    case CoffeeChatCompleted => 20
    case LoungeJoined => 3
    case LoungeCreated => 15
    case LoungeMessageSent => 1
    case ProfileUpdated => 5
    case MatchFound => 10
    case BadgeEarned => 50
  }

  /** mapActivityToStreakType: four activities feed three streak types; no
      activity feeds MESSAGE_STREAK. */
  function StreakTypeOf(t: ActivityType): (s: Option<StreakType>)
    ensures s.Some? <==> t in {Login, CoffeeChatCompleted, LoungeJoined, LoungeMessageSent}
    ensures t == Login ==> s == Some(DailyLogin)
    ensures t == CoffeeChatCompleted ==> s == Some(CoffeeChat)
    ensures t == LoungeJoined || t == LoungeMessageSent ==> s == Some(LoungeParticipation)
    ensures s != Some(MessageStreak)
  {
    match t
    case Login => Some(DailyLogin)
    case CoffeeChatCompleted => Some(CoffeeChat)
    case LoungeJoined => Some(LoungeParticipation)
    case LoungeMessageSent => Some(LoungeParticipation)
    case _ => None
  }

  /** shouldIncrementStreak; `today` is LocalDate.now(). */
  function ShouldIncrement(last: Option<int>, t: ActivityType, today: int): (inc: bool)
    ensures last.None? ==> inc
    ensures last.Some? && t == Login ==> (inc <==> last.value != today)
    ensures last.Some? && t != Login ==> (inc <==> last.value < today)
  {
    match last
    case None => true
    case Some(d) => if t == Login then d != today else d < today
  }

  /** updateStreaksForActivity on the value level. A new streak takes the
      next free identity. */
  function UpdatedStreaks(rs: seq<StreakRecord>, userId: int, t: ActivityType, today: int): (r: seq<StreakRecord>)
    ensures |rs| <= |r| <= |rs| + 1
    ensures StreakTypeOf(t).None? ==> r == rs
  {
    match StreakTypeOf(t)
    case None => rs
    case Some(st) =>
      match FindIndex(rs, userId, st)
      case Some(k) =>
        if ShouldIncrement(rs[k].lastActivityDate, t, today) then rs[k := Incremented(rs[k], today)] else rs
      case None =>
        rs + [Incremented(FreshStreak(|rs|, userId, st), today)]
  }

  /** Activities that feed no streak leave every streak alone; one that does
      changes only this user's streak of the mapped type, or adds it. */
  lemma {:induction false} UpdateIsLocal(rs: seq<StreakRecord>, userId: int, t: ActivityType, today: int)
    ensures StreakTypeOf(t).None? ==> UpdatedStreaks(rs, userId, t, today) == rs
    ensures var r := UpdatedStreaks(rs, userId, t, today);
      && |rs| <= |r| <= |rs| + 1
      && forall i :: 0 <= i < |rs| && !(StreakTypeOf(t).Some? && IsKey(rs[i], userId, StreakTypeOf(t).value))
           ==> r[i] == rs[i]
  {
  }

  /** A user's first qualifying activity creates its streak at 1, best 1. */
  lemma {:induction false} FirstActivityStartsStreak(rs: seq<StreakRecord>, userId: int, t: ActivityType, today: int)
    requires StreakTypeOf(t).Some? && FindStreak(rs, userId, StreakTypeOf(t).value).None?
    ensures var r := UpdatedStreaks(rs, userId, t, today);
      && |r| == |rs| + 1
      && IsKey(r[|rs|], userId, StreakTypeOf(t).value)
      && r[|rs|].currentCount == 1 && r[|rs|].bestCount == 1 && r[|rs|].lastActivityDate == Some(today)
  {
  }

  /** A second activity of the same kind on the same day changes nothing:
      for LOGIN because the date equals today, for the others because it is
      not before today. */
  lemma {:induction false} SameDayIdempotent(rs: seq<StreakRecord>, userId: int, t: ActivityType, today: int)
    ensures UpdatedStreaks(UpdatedStreaks(rs, userId, t, today), userId, t, today) == UpdatedStreaks(rs, userId, t, today)
  {
    match StreakTypeOf(t)
    case None =>
    case Some(st) =>
      var once := UpdatedStreaks(rs, userId, t, today);
      match FindIndex(rs, userId, st)
      case Some(k) =>
        if ShouldIncrement(rs[k].lastActivityDate, t, today) {
          FindIndexAfterUpdate(rs, userId, st, k, Incremented(rs[k], today));
        }
      case None =>
        FindIndexAfterAppend(rs, userId, st, Incremented(FreshStreak(|rs|, userId, st), today));
  }

  /** Replacing the found streak by one with the same key keeps its position. */
  lemma {:induction false} FindIndexAfterUpdate(rs: seq<StreakRecord>, userId: int, st: StreakType, k: nat, v: StreakRecord)
    requires FindIndex(rs, userId, st) == Some(k) && IsKey(v, userId, st)
    ensures FindIndex(rs[k := v], userId, st) == Some(k)
  {
    if k > 0 {
      assert rs[k := v][1..] == rs[1..][k - 1 := v];
      FindIndexAfterUpdate(rs[1..], userId, st, k - 1, v);
    }
  }

  /** Appending the first streak with a key makes it the one found. */
  lemma {:induction false} FindIndexAfterAppend(rs: seq<StreakRecord>, userId: int, st: StreakType, v: StreakRecord)
    requires FindIndex(rs, userId, st).None? && IsKey(v, userId, st)
    ensures FindIndex(rs + [v], userId, st) == Some(|rs|)
  {
    if rs != [] {
      assert (rs + [v])[1..] == rs[1..] + [v];
      FindIndexAfterAppend(rs[1..], userId, st, v);
    }
  }

  /** The update keeps at most one streak per user and type, and keeps every
      streak well formed. */
  lemma {:induction false} UpdatePreservesInvariants(rs: seq<StreakRecord>, userId: int, t: ActivityType, today: int)
    requires UniqueKeys(rs) && forall i :: 0 <= i < |rs| ==> WellFormed(rs[i])
    ensures var r := UpdatedStreaks(rs, userId, t, today);
      UniqueKeys(r) && forall i :: 0 <= i < |r| ==> WellFormed(r[i])
  {
  }

  /** The condition resetInactiveStreaks tests: a running streak whose last
      activity is before yesterday. */
  predicate IsStale(r: StreakRecord, today: int)
  {
    r.lastActivityDate.Some? && r.lastActivityDate.value < today - 1 && r.currentCount > 0
  }

  function ResetIfStale(r: StreakRecord, today: int): StreakRecord
  {
    if IsStale(r, today) then Reset(r, today) else r
  }

  /** After the nightly reset every running well-formed streak is active, and
      no best count has changed. */
  lemma {:induction false} ResetLeavesOnlyActiveRunningStreaks(r: StreakRecord, today: int)
    requires WellFormed(r)
    ensures var n := ResetIfStale(r, today);
      WellFormed(n) && n.bestCount == r.bestCount && (n.currentCount > 0 ==> IsActive(n, today))
  {
  }

  /** resetInactiveStreaks on the value level: every stale streak is reset. */
  function ResetAll(rs: seq<StreakRecord>, today: int): (r: seq<StreakRecord>)
    ensures |r| == |rs|
    ensures forall i :: 0 <= i < |rs| ==> r[i] == ResetIfStale(rs[i], today)
  {
    seq(|rs|, i requires 0 <= i < |rs| => ResetIfStale(rs[i], today))
  }

  /** The nightly reset keeps the table's invariants. */
  lemma {:induction false} ResetAllPreservesInvariants(rs: seq<StreakRecord>, today: int)
    requires UniqueKeys(rs) && forall i :: 0 <= i < |rs| ==> WellFormed(rs[i])
    ensures var r := ResetAll(rs, today);
      UniqueKeys(r) && forall i :: 0 <= i < |r| ==> WellFormed(r[i])
  {
    var r := ResetAll(rs, today);
    forall i | 0 <= i < |r| ensures WellFormed(r[i]) {
      ResetLeavesOnlyActiveRunningStreaks(rs[i], today);
    }
  }

  /** The reset leaves a streak untouched exactly when it is not stale. */
  lemma {:induction false} ResetTouchesOnlyStale(r: StreakRecord, today: int)
    ensures ResetIfStale(r, today) == r <==> !IsStale(r, today)
  {
  }

  // ---------------------------------------------------------------------
  // Summary

  /** Position of the streak `Stream.max` picks among the user's streaks by
      best count: a maximal one, the first of several. */
  function LongestStreakIndex(rs: seq<StreakRecord>, userId: int): (k: Option<nat>)
    ensures k.None? <==> forall i :: 0 <= i < |rs| ==> rs[i].userId != userId
    ensures k.Some? ==> k.value < |rs| && rs[k.value].userId == userId
    ensures k.Some? ==> forall i :: 0 <= i < |rs| && rs[i].userId == userId ==> rs[i].bestCount <= rs[k.value].bestCount
    ensures k.Some? ==> forall i :: 0 <= i < k.value && rs[i].userId == userId ==> rs[i].bestCount < rs[k.value].bestCount
  {
    if rs == [] then None
    else
      var n := |rs| - 1;
      match LongestStreakIndex(rs[..n], userId)
      case None => if rs[n].userId == userId then Some(n) else None
      case Some(k) => if rs[n].userId == userId && rs[n].bestCount > rs[k].bestCount then Some(n) else Some(k)
  }

  datatype GamificationSummary = GamificationSummary(
    userId: int,
    activeStreaks: seq<UserStreakDto.StreakView>,
    recentBadges: seq<UserBadge>,
    displayedBadges: seq<UserBadge>,
    totalBadges: int,
    totalPoints: int,
    longestStreak: int,
    longestStreakType: string,
    hasNewAchievements: bool)

  /** findActiveStreaksByUserId: the user's streaks with a positive count. */
  function ActiveStreaks(rs: seq<StreakRecord>, userId: int): (r: seq<StreakRecord>)
    ensures forall x :: x in r <==> x in rs && x.userId == userId && x.currentCount > 0
  {
    if rs == [] then []
    else (if rs[0].userId == userId && rs[0].currentCount > 0 then [rs[0]] else []) + ActiveStreaks(rs[1..], userId)
  }

  /** The views of the user's active streaks: one per active streak, in
      table order. */
  function StreakViews(rs: seq<StreakRecord>, userId: int, today: int): (vs: seq<UserStreakDto.StreakView>)
    ensures |vs| == |ActiveStreaks(rs, userId)|
    ensures forall i :: 0 <= i < |vs| ==> vs[i] == UserStreakDto.FromEntity(ActiveStreaks(rs, userId)[i], today)
    ensures forall v :: v in vs ==> v.userId == userId && v.currentCount > 0
    ensures forall i :: 0 <= i < |rs| && rs[i].userId == userId && rs[i].currentCount > 0 ==>
              UserStreakDto.FromEntity(rs[i], today) in vs
  {
    var active := ActiveStreaks(rs, userId);
    var vs := seq(|active|, i requires 0 <= i < |active| => UserStreakDto.FromEntity(active[i], today));
    forall i | 0 <= i < |rs| && rs[i].userId == userId && rs[i].currentCount > 0
      ensures UserStreakDto.FromEntity(rs[i], today) in vs
    {
      assert rs[i] in active;
      var k :| 0 <= k < |active| && active[k] == rs[i];
      assert vs[k] == UserStreakDto.FromEntity(rs[i], today);
    }
    vs
  }

  /** countBadgesByUserId. */
  function CountHoldings(ubs: seq<UserBadge>, userId: int): (n: nat)
    ensures n <= |ubs|
    ensures n == 0 <==> forall i :: 0 <= i < |ubs| ==> ubs[i].userId != userId
  {
    if ubs == [] then 0
    else CountHoldings(ubs[..|ubs| - 1], userId) + (if ubs[|ubs| - 1].userId == userId then 1 else 0)
  }

  /** findByUserIdWithBadge: the user's holdings, in table order. */
  function Holdings(ubs: seq<UserBadge>, userId: int): (r: seq<UserBadge>)
    ensures forall x :: x in r <==> x in ubs && x.userId == userId
    ensures |r| == CountHoldings(ubs, userId)
  {
    if ubs == [] then []
    else
      var n := |ubs| - 1;
      Holdings(ubs[..n], userId) + (if ubs[n].userId == userId then [ubs[n]] else [])
  }

  /** findDisplayedBadgesByUserId: the user's holdings marked displayed. */
  function DisplayedBadges(ubs: seq<UserBadge>, userId: int): (r: seq<UserBadge>)
    ensures forall x :: x in r <==> x in ubs && x.userId == userId && x.isDisplayed
  {
    if ubs == [] then []
    else (if ubs[0].userId == userId && ubs[0].isDisplayed then [ubs[0]] else []) + DisplayedBadges(ubs[1..], userId)
  }

  /** The sort key of the recent badges: when the badge was earned. */
  function EarnedAt(): UserBadge -> Option<int>
  {
    (ub: UserBadge) => Some(ub.earnedAt)
  }

  /** The most recently earned five of the user's badges, newest first. */
  function RecentBadges(ubs: seq<UserBadge>, userId: int): (r: seq<UserBadge>)
    ensures |r| == Min(RecentLimit, CountHoldings(ubs, userId))
    ensures forall x :: x in r ==> x in ubs && x.userId == userId
    ensures forall i, j :: 0 <= i < j < |r| ==> r[i].earnedAt >= r[j].earnedAt
    ensures forall x :: x in ubs && x.userId == userId && x !in r ==>
              |r| == RecentLimit && forall y :: y in r ==> y.earnedAt >= x.earnedAt
  {
    var mine := Holdings(ubs, userId);
    var sorted := SortDescending(mine, EarnedAt());
    SortedMembers(mine, EarnedAt());
    assert |sorted| == |mine| by {
      assert |multiset(sorted)| == |multiset(mine)|;
    }
    var r := Take(sorted, RecentLimit);
    NewestFirst(sorted, RecentLimit, r);
    r
  }

  /** A prefix of holdings sorted newest first is newest first, and, when
      it leaves a holding out, it is full and no older than that holding. */
  lemma NewestFirst(sorted: seq<UserBadge>, n: int, r: seq<UserBadge>)
    requires DescendingBy(sorted, EarnedAt()) && 0 <= n && r == Take(sorted, n)
    ensures forall i, j :: 0 <= i < j < |r| ==> r[i].earnedAt >= r[j].earnedAt
    ensures forall x :: x in sorted && x !in r ==> |r| == n && forall y :: y in r ==> y.earnedAt >= x.earnedAt
  {
    forall i, j | 0 <= i < j < |r| ensures r[i].earnedAt >= r[j].earnedAt {
      assert AtLeast(EarnedAt()(sorted[i]), EarnedAt()(sorted[j]));
    }
    forall x | x in sorted && x !in r
      ensures |r| == n && forall y :: y in r ==> y.earnedAt >= x.earnedAt
    {
      var k :| 0 <= k < |sorted| && sorted[k] == x;
      assert k >= |r|;
      forall y | y in r ensures y.earnedAt >= x.earnedAt {
        var i :| 0 <= i < |r| && r[i] == y;
        assert AtLeast(EarnedAt()(sorted[i]), EarnedAt()(sorted[k]));
      }
    }
  }

  const RecentLimit := 5

  /** getUserGamificationSummary. */
  function Summary(rs: seq<StreakRecord>, ubs: seq<UserBadge>, log: seq<ActivityLog>, userId: int, today: int)
    : (s: GamificationSummary)
    ensures s.userId == userId
    ensures s.totalBadges == CountHoldings(ubs, userId)
    ensures s.recentBadges == RecentBadges(ubs, userId) && s.displayedBadges == DisplayedBadges(ubs, userId)
    ensures s.totalPoints == TotalPoints(log, userId).GetOr(0)
    ensures (forall i :: 0 <= i < |rs| ==> rs[i].userId != userId) ==> s.longestStreak == 0 && s.longestStreakType == "None"
    ensures forall i :: 0 <= i < |rs| && rs[i].userId == userId ==>
              rs[i].bestCount <= s.longestStreak
              && exists j :: 0 <= j < |rs| && rs[j].userId == userId && rs[j].bestCount == s.longestStreak
                             && s.longestStreakType == StreakTypeName(rs[j].streakType)
    ensures s.hasNewAchievements <==> exists i :: 0 <= i < |ubs| && ubs[i].userId == userId && !ubs[i].notificationSent
    ensures forall v :: v in s.activeStreaks ==> v.userId == userId && v.currentCount > 0
    ensures forall i :: 0 <= i < |rs| && rs[i].userId == userId && rs[i].currentCount > 0 ==>
              UserStreakDto.FromEntity(rs[i], today) in s.activeStreaks
    ensures s.activeStreaks == StreakViews(rs, userId, today)
  {
    var views := StreakViews(rs, userId, today);
    var unnotified := exists i :: 0 <= i < |ubs| && ubs[i].userId == userId && !ubs[i].notificationSent;
    var longest := LongestStreakIndex(rs, userId);
    var recent := RecentBadges(ubs, userId);
    var displayed := DisplayedBadges(ubs, userId);
    var total := TotalPoints(log, userId).GetOr(0);
    match longest
    case None => GamificationSummary(userId, views, recent, displayed, CountHoldings(ubs, userId), total, 0, "None", unnotified)
    case Some(k) =>
      GamificationSummary(userId, views, recent, displayed, CountHoldings(ubs, userId), total,
                          rs[k].bestCount, StreakTypeName(rs[k].streakType), unnotified)
  }

  // ---------------------------------------------------------------------
  // The service

  class GamificationService {
    const activityLogs: ActivityLogRepository
    const streakRepository: UserStreakRepository
    const badgeService: BadgeService

    /** The badge service sees the same tables; streaks are stored once per
        user and type and are well formed. */
    ghost predicate Valid()
      reads this, streakRepository, (set s | s in streakRepository.streaks), badgeService
    {
      && badgeService.activityLogs == activityLogs
      && badgeService.streakRepository == streakRepository
      && badgeService.Valid()
      && streakRepository.Valid()
      && UniqueKeys(streakRepository.Records())
      && (forall i :: 0 <= i < |streakRepository.streaks| ==> WellFormed(streakRepository.streaks[i].Record()))
    }

    constructor (activityLogs: ActivityLogRepository, streakRepository: UserStreakRepository, badgeService: BadgeService)
      requires badgeService.activityLogs == activityLogs && badgeService.streakRepository == streakRepository
      requires badgeService.Valid() && streakRepository.Valid()
      requires UniqueKeys(streakRepository.Records())
      requires forall i :: 0 <= i < |streakRepository.streaks| ==> WellFormed(streakRepository.streaks[i].Record())
      ensures Valid()
      ensures this.activityLogs == activityLogs && this.streakRepository == streakRepository
      ensures this.badgeService == badgeService
    {
      this.activityLogs := activityLogs;
      this.streakRepository := streakRepository;
      this.badgeService := badgeService;
    }

    /** updateStreaksForActivity. */
    method UpdateStreaksForActivity(userId: int, t: ActivityType, today: int)
      requires Valid()
      modifies streakRepository, streakRepository.streaks
      ensures Valid()
      ensures streakRepository.Records() == UpdatedStreaks(old(streakRepository.Records()), userId, t, today)
    {
      ghost var before := streakRepository.Records();
      UpdatePreservesInvariants(before, userId, t, today);
      var streakType := StreakTypeOf(t);
      if streakType.None? {
        return;
      }
      var st := streakType.value;
      var existing := FindIndex(streakRepository.Records(), userId, st);
      if existing.Some? {
        var k := existing.value;
        var streak := streakRepository.streaks[k];
        if ShouldIncrement(streak.lastActivityDate, t, today) {
          streak.IncrementStreak(today);
          assert streakRepository.Records() == before[k := Incremented(before[k], today)];
        }
      } else {
        ghost var olds := streakRepository.streaks;
        var streak := new UserStreak(|streakRepository.streaks|, userId, st);
        streak.IncrementStreak(today);
        assert forall i :: 0 <= i < |olds| ==> olds[i].Record() == before[i];
        streakRepository.Add(streak);
        assert streakRepository.streaks == olds + [streak];
        assert streakRepository.Records() == before + [Incremented(FreshStreak(|before|, userId, st), today)];
      }
    }

    /** resetInactiveStreaks; `today` is LocalDate.now(). */
    method ResetInactiveStreaks(today: int)
      requires Valid()
      modifies set s | s in streakRepository.streaks
      ensures Valid()
      ensures streakRepository.Records() == ResetAll(old(streakRepository.Records()), today)
    {
      var all := streakRepository.streaks;
      ghost var before := streakRepository.Records();
      var i := 0;
      while i < |all|
        invariant 0 <= i <= |all| && streakRepository.streaks == all
        invariant forall j :: 0 <= j < i ==> all[j].Record() == ResetIfStale(before[j], today)
        invariant forall j :: i <= j < |all| ==> all[j].Record() == before[j]
      {
        var streak := all[i];
        if IsStale(streak.Record(), today) {
          streak.ResetStreak(today);
        }
        i := i + 1;
      }
      assert streakRepository.Records() == ResetAll(before, today);
      ResetAllPreservesInvariants(before, today);
    }

    /** logActivity: record the activity with its points, update the streak,
        then check every badge against the updated state. */
    method LogActivity(userId: int, t: ActivityType, entityId: Option<int>, activityData: Option<string>, now: int)
      requires Valid()
      modifies activityLogs, streakRepository, streakRepository.streaks, badgeService
      ensures Valid()
      ensures streakRepository.Records() == UpdatedStreaks(old(streakRepository.Records()), userId, t, DateOf(now))
      ensures AwardState(badgeService.userBadges, activityLogs.rows)
              == AwardAll(AwardState(old(badgeService.userBadges),
                                     old(activityLogs.rows) + [ActivityLog(userId, t, entityId, activityData, CalculatePoints(t), now)]),
                          ActiveBadges(badgeService.badges), badgeService.DailyLoginStreak(userId), userId, now)
    {
      var entry := ActivityLog(userId, t, entityId, activityData, CalculatePoints(t), now);
      activityLogs.Save(entry);
      UpdateStreaksForActivity(userId, t, DateOf(now));
      assert badgeService.userBadges == old(badgeService.userBadges);
      assert activityLogs.rows == old(activityLogs.rows) + [entry];
      ghost var records := streakRepository.Records();
      ghost var daily := badgeService.DailyLoginStreak(userId);
      badgeService.CheckAndAwardBadges(userId, t, now);
      assert streakRepository.Records() == records;
      assert badgeService.DailyLoginStreak(userId) == daily;
    }

    /** getUserGamificationSummary. */
    function GetUserGamificationSummary(userId: int, today: int): (s: GamificationSummary)
      reads this, streakRepository, (set s | s in streakRepository.streaks), badgeService, activityLogs
      ensures s.userId == userId && s.activeStreaks == StreakViews(streakRepository.Records(), userId, today)
      ensures s.totalBadges == CountHoldings(badgeService.userBadges, userId)
      ensures s.recentBadges == RecentBadges(badgeService.userBadges, userId)
      ensures s.displayedBadges == DisplayedBadges(badgeService.userBadges, userId)
      ensures s.totalPoints == TotalPoints(activityLogs.rows, userId).GetOr(0)
    {
      Summary(streakRepository.Records(), badgeService.userBadges, activityLogs.rows, userId, today)
    }
  }
}
