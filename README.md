# Water Cooler Network — a verified model of the core

The Water Cooler Network is a platform for workplace networking. People are matched for coffee chats, meet in topic lounges and schedule meetings. They join mentorship programmes and collect badges and streaks. Companies subscribe to plans, invite employees and organise departments. A service worker and a PWA manager make the web client installable and usable offline.

This project models, in Dafny, the core of the Spring backend and the two browser-side pieces:

- the gamification layer: points, streaks, badges and their display helpers;
- notification preferences, with quiet hours and push tokens;
- meeting scheduling and the match life cycle;
- subscriptions and payments, with amounts in integer cents;
- the membership state machines: lounges, match feedback, mentorship, company invitations, departments, companies and users;
- conversation starters;
- the user-insight and analytics rule engines;
- search;
- the service worker's cache and notification handling, and the PWA install state and swipe classifier.

Conventions:

- Every JPA repository is a table of rows keyed by a generated id (`Tables.Table`), or a sequence where order matters.
- Services are classes that hold their tables and state what each operation does to them.
- Entities that update themselves in place (a streak, a notification, the notification preferences, the PWA manager) are classes.
- Values the source returns are datatypes with functions over them, and lemmas relate them.
- "Now" is always a parameter. Times are integer minutes since the epoch, dates are epoch days and money is integer cents.
- Randomness, UUIDs, I/O and the network are parameters as well.

## Model

| member | source | states |
|---|---|---|
| Activities.CountActivities | backend/backend/src/main/java/com/codewithudo/backend/repository/ActivityLogRepository.java:29-30 | the count of a user's rows of one type is at most the log length, and 0 exactly when there is no such row |
| Activities.TotalPoints | backend/backend/src/main/java/com/codewithudo/backend/repository/ActivityLogRepository.java:32-33 | the SQL SUM of a user's points is null exactly when the user has no row |
| Activities.CountActivitiesAppend | backend/backend/src/main/java/com/codewithudo/backend/repository/ActivityLogRepository.java:29-30 | logging one more row raises the count by one exactly when the row has that user and type |
| Activities.TotalPointsAppend | backend/backend/src/main/java/com/codewithudo/backend/repository/ActivityLogRepository.java:32-33 | another user's row leaves the total alone; the user's own row adds its points (starting from its points when the total was null) |
| Activities.ActivityLogRepository.Save | backend/backend/src/main/java/com/codewithudo/backend/service/GamificationService.java:37 | the row is appended and nothing else changes |
| UserStreaks.FreshStreak | backend/backend/src/main/java/com/codewithudo/backend/entity/UserStreak.java:31-38 | a new streak has both counters 0 and no last activity date |
| UserStreaks.Incremented | backend/backend/src/main/java/com/codewithudo/backend/entity/UserStreak.java:55-61 | the current count rises by exactly one; the best count becomes the larger of the old best and the new current; the date becomes today; the identity is kept |
| UserStreaks.Reset | backend/backend/src/main/java/com/codewithudo/backend/entity/UserStreak.java:63-66 | the current count becomes 0, the best count is kept and the date becomes today |
| UserStreaks.IsActive | backend/backend/src/main/java/com/codewithudo/backend/entity/UserStreak.java:68-71 | false with no date; otherwise true exactly when the last activity is at most one day before today |
| UserStreaks.MutatorsPreserveWellFormed | backend/backend/src/main/java/com/codewithudo/backend/entity/UserStreak.java:55-66 | both mutators keep 0 <= current <= best |
| UserStreaks.FindIndex | backend/backend/src/main/java/com/codewithudo/backend/repository/UserStreakRepository.java:17 | the found position holds the user's streak of that type and is the first one; no position is found only when there is none |
| UserStreaks.FindStreak | backend/backend/src/main/java/com/codewithudo/backend/repository/UserStreakRepository.java:17 | the found streak is the one at that position |
| UserStreaks.ActiveAfterActivity | backend/backend/src/main/java/com/codewithudo/backend/entity/UserStreak.java:55-71 | a streak updated today is active today and tomorrow, and not two days later |
| UserStreaks.UserStreak.constructor | backend/backend/src/main/java/com/codewithudo/backend/entity/UserStreak.java:31-35 | the entity starts as a fresh streak |
| UserStreaks.UserStreak.IncrementStreak | backend/backend/src/main/java/com/codewithudo/backend/entity/UserStreak.java:55-61 | the entity's new fields are those of an incremented streak |
| UserStreaks.UserStreak.ResetStreak | backend/backend/src/main/java/com/codewithudo/backend/entity/UserStreak.java:63-66 | the entity's new fields are those of a reset streak |
| UserStreaks.RecordsOf | backend/backend/src/main/java/com/codewithudo/backend/repository/UserStreakRepository.java:15 | the position-by-position values of a list of streak entities |
| UserStreaks.UserStreakRepository.Add | backend/backend/src/main/java/com/codewithudo/backend/service/GamificationService.java:68 | a new entity is appended and no entity is stored twice |
| Gamification.CalculatePoints | backend/backend/src/main/java/com/codewithudo/backend/service/GamificationService.java:213-226 | the fixed points table for all ten activity types, every value positive |
| Gamification.StreakTypeOf | backend/backend/src/main/java/com/codewithudo/backend/service/GamificationService.java:189-196 | exactly LOGIN, COFFEE_CHAT_COMPLETED, LOUNGE_JOINED and LOUNGE_MESSAGE_SENT feed a streak, with their types; MESSAGE_STREAK is never fed |
| Gamification.ShouldIncrement | backend/backend/src/main/java/com/codewithudo/backend/service/GamificationService.java:198-211 | a streak with no date always increments; a login increments when the last date is not today; other activities increment when it is strictly before today |
| Gamification.UpdateIsLocal | backend/backend/src/main/java/com/codewithudo/backend/service/GamificationService.java:49-69 | an activity without a streak type changes nothing; otherwise only the streak of that user and type changes, or one is appended |
| Gamification.UpdatedStreaks | backend/backend/src/main/java/com/codewithudo/backend/service/GamificationService.java:49-69 | at most one streak is added, none is removed, and an activity without a streak type changes nothing |
| Gamification.FirstActivityStartsStreak | backend/backend/src/main/java/com/codewithudo/backend/service/GamificationService.java:61-66 | a first qualifying activity appends a streak with current 1 and best 1 |
| Gamification.SameDayIdempotent | backend/backend/src/main/java/com/codewithudo/backend/service/GamificationService.java:198-211 | repeating the same activity on the same day changes nothing more |
| Gamification.FindIndexAfterUpdate | backend/backend/src/main/java/com/codewithudo/backend/service/GamificationService.java:56-60 | updating the found streak in place keeps it the one found |
| Gamification.FindIndexAfterAppend | backend/backend/src/main/java/com/codewithudo/backend/service/GamificationService.java:61-68 | an appended first streak becomes the one found |
| Gamification.UpdatePreservesInvariants | backend/backend/src/main/java/com/codewithudo/backend/service/GamificationService.java:49-69 | the update keeps at most one streak per user and type, and every streak well formed |
| Gamification.ResetLeavesOnlyActiveRunningStreaks | backend/backend/src/main/java/com/codewithudo/backend/service/GamificationService.java:174-187 | after the reset, a streak with a positive count is active |
| Gamification.ResetAll | backend/backend/src/main/java/com/codewithudo/backend/service/GamificationService.java:174-187 | each streak is reset exactly when it is running and its last activity is before yesterday, and is otherwise kept |
| Gamification.ResetAllPreservesInvariants | backend/backend/src/main/java/com/codewithudo/backend/service/GamificationService.java:174-187 | the nightly reset keeps the table's invariants |
| Gamification.ResetTouchesOnlyStale | backend/backend/src/main/java/com/codewithudo/backend/service/GamificationService.java:178-183 | a streak is left untouched by the reset exactly when it is not stale |
| Gamification.LongestStreakIndex | backend/backend/src/main/java/com/codewithudo/backend/service/GamificationService.java:84-86 | the picked streak is the user's and has the largest best count; among ties it is the first (as Stream.max on a sequential stream keeps the first); none exactly when the user has no streak |
| Gamification.ActiveStreaks | backend/backend/src/main/java/com/codewithudo/backend/repository/UserStreakRepository.java:19-20 | exactly the user's streaks with a positive current count |
| Gamification.CountHoldings | backend/backend/src/main/java/com/codewithudo/backend/repository/UserBadgeRepository.java:25-26 | the number of the user's badges; 0 exactly when there are none |
| Gamification.Summary | backend/backend/src/main/java/com/codewithudo/backend/service/GamificationService.java:71-110 | the badge count, the points (0 when the SUM is null), the longest streak (0 and "None" without streaks, otherwise the maximum best count with its type), the unnotified-badge flag, the views of exactly the active streaks, the five most recent badges and the displayed badges |
| Gamification.Holdings | backend/backend/src/main/java/com/codewithudo/backend/repository/UserBadgeRepository.java:17-18 | exactly the user's holdings, as many as the badge count |
| Gamification.DisplayedBadges | backend/backend/src/main/java/com/codewithudo/backend/repository/UserBadgeRepository.java:20-21 | exactly the user's holdings marked displayed |
| Gamification.RecentBadges | backend/backend/src/main/java/com/codewithudo/backend/service/GamificationService.java:73-77 | the user's holdings newest first, as many as they have up to five; a holding left out means five were kept, none older than it |
| Gamification.NewestFirst | backend/backend/src/main/java/com/codewithudo/backend/service/GamificationService.java:73-77 | a limited prefix of a list sorted by earning time descending is newest first, and is full and no older than anything it leaves out |
| Gamification.StreakViews | backend/backend/src/main/java/com/codewithudo/backend/service/GamificationService.java:72-89 | one view per streak with a positive count, in table order: every view is of an active streak of the user, and every such streak has its view |
| Gamification.GamificationService.GetUserGamificationSummary | backend/backend/src/main/java/com/codewithudo/backend/service/GamificationService.java:71-110 | the summary of the stored streaks, badges and activity log for the user: the active streak views, the badge count, the points, the five most recent and the displayed badges |
| Gamification.GamificationService.UpdateStreaksForActivity | backend/backend/src/main/java/com/codewithudo/backend/service/GamificationService.java:49-69 | the streak table becomes the value-level update |
| Gamification.GamificationService.ResetInactiveStreaks | backend/backend/src/main/java/com/codewithudo/backend/service/GamificationService.java:174-187 | the streak table becomes the value-level reset |
| Gamification.GamificationService.LogActivity | backend/backend/src/main/java/com/codewithudo/backend/service/GamificationService.java:29-46 | one row with the table's points is logged, the streak is updated and the badge check runs |
| Badges.MeetsCriteria | backend/backend/src/main/java/com/codewithudo/backend/service/BadgeService.java:64-142 | a leadership badge never qualifies; a badge qualifies only under a name its own category's criteria method knows |
| Badges.CriteriaIgnoreBadgeLogs | backend/backend/src/main/java/com/codewithudo/backend/service/BadgeService.java:75-142 | the criteria never count BADGE_EARNED rows, so logging an award does not change them |
| Badges.SameCountsSameCriteria | backend/backend/src/main/java/com/codewithudo/backend/service/BadgeService.java:75-142 | two logs with the same count of every activity kind but BADGE_EARNED qualify the user for the same badges |
| Badges.CurrentProgress | backend/backend/src/main/java/com/codewithudo/backend/service/BadgeService.java:286-382 | progress is 0 for leadership, capped at 5, 7 or 1000 for the clamped badges, and 0 for a login badge without a daily-login streak |
| Badges.ClampedProgressWithinTarget | backend/backend/src/main/java/com/codewithudo/backend/service/BadgeService.java:297-382 | every clamped default badge's progress lies between 0 and its required count |
| Badges.DefaultBadges | backend/backend/src/main/java/com/codewithudo/backend/service/BadgeService.java:148-207 | 21 active ACHIEVEMENT badges with identities 0..20 |
| Badges.UnawardableDefaults | backend/backend/src/main/java/com/codewithudo/backend/service/BadgeService.java:64-142 | twelve default badges can never be awarded: their names are unknown to their category's criteria method |
| Badges.NetworkingProThreshold | backend/backend/src/main/java/com/codewithudo/backend/service/BadgeService.java:99-101 | "Networking Pro" is seeded with a required count of 25 but qualifies exactly at 20 coffee chats |
| Badges.LoungeExplorerThreshold | backend/backend/src/main/java/com/codewithudo/backend/service/BadgeService.java:106-108 | "Lounge Explorer" is seeded with a required count of 1 but qualifies exactly at 3 lounge joins |
| Badges.ActiveParticipantThreshold | backend/backend/src/main/java/com/codewithudo/backend/service/BadgeService.java:127-129 | "Active Participant" is seeded with a required count of 100 but qualifies exactly at 50 lounge messages |
| Badges.Awarded | backend/backend/src/main/java/com/codewithudo/backend/service/BadgeService.java:41-62 | one holding (progress = required count, or 100 when absent; displayed; not notified) and one BADGE_EARNED log row worth 50 points are appended |
| Badges.AwardAllShape | backend/backend/src/main/java/com/codewithudo/backend/service/BadgeService.java:28-38 | checkAndAwardBadges only appends, keeps holdings unique (no badge is held twice), and appends one BADGE_EARNED row per new holding, each for this user and at most one per candidate |
| Badges.CriteriaStableUnderAwards | backend/backend/src/main/java/com/codewithudo/backend/service/BadgeService.java:28-38 | the criteria are judged the same on the log as the awards grow it |
| Badges.AwardAllComplete | backend/backend/src/main/java/com/codewithudo/backend/service/BadgeService.java:28-38 | afterwards the user holds every candidate badge it qualified for, and earlier holdings are kept |
| Badges.AwardAll | backend/backend/src/main/java/com/codewithudo/backend/service/BadgeService.java:28-38 | the holdings and the log only grow, by one log row per new holding and at most one holding per candidate |
| Badges.AwardAllSound | backend/backend/src/main/java/com/codewithudo/backend/service/BadgeService.java:28-38 | every holding the run adds is this user's, earned now, of a candidate badge whose criteria the user met before the run |
| Badges.ActiveBadges | backend/backend/src/main/java/com/codewithudo/backend/repository/BadgeRepository.java:14 | exactly the active badges |
| Badges.HoldingIndex | backend/backend/src/main/java/com/codewithudo/backend/repository/UserBadgeRepository.java:23 | the position of the user's holding of the badge, present exactly when the user holds it |
| Badges.ToggledDisplay | backend/backend/src/main/java/com/codewithudo/backend/service/BadgeService.java:243-250 | the same number of holdings |
| Badges.ToggleTwiceRestores | backend/backend/src/main/java/com/codewithudo/backend/service/BadgeService.java:243-250 | without a holding nothing changes; toggling twice restores the holdings; with one only its display flag flips |
| Badges.HoldingIndexStable | backend/backend/src/main/java/com/codewithudo/backend/service/BadgeService.java:243-250 | rewriting a holding's other fields keeps it the one found |
| Badges.BadgeService.AwardBadge | backend/backend/src/main/java/com/codewithudo/backend/service/BadgeService.java:41-62 | the state becomes the value-level award |
| Badges.BadgeService.CheckAndAwardBadges | backend/backend/src/main/java/com/codewithudo/backend/service/BadgeService.java:28-38 | the state becomes the value-level awarding over the active badges the user does not hold |
| Badges.BadgeService.AwardIfQualified | backend/backend/src/main/java/com/codewithudo/backend/service/BadgeService.java:32-36 | one turn of the loop: the value-level award when the user lacks the badge and qualifies, otherwise no change |
| Badges.BadgeService.InitializeDefaultBadges | backend/backend/src/main/java/com/codewithudo/backend/service/BadgeService.java:148-189 | a no-op when any badge exists; otherwise the catalogue becomes the 21 defaults |
| Badges.BadgeService.ToggleBadgeDisplay | backend/backend/src/main/java/com/codewithudo/backend/service/BadgeService.java:243-250 | the holdings become the value-level toggle |
| Badges.BadgeService.GetBadgeProgress | backend/backend/src/main/java/com/codewithudo/backend/service/BadgeService.java:255-281 | absent exactly for an unknown badge; name, description, icon, required count and rarity are the badge's; isEarned mirrors ownership; an earned badge reports the stored progress and earning time of the user's holding; an unearned one has no earning time and reports the computed progress |
| BadgeProgressDto.ProgressPercentage | backend/backend/src/main/java/com/codewithudo/backend/dto/BadgeProgressDTO.java:109-114 | 0 without a non-zero required count; never above 100; otherwise min(100, current*100 div required) |
| BadgeProgressDto.CompleteIsHundred | backend/backend/src/main/java/com/codewithudo/backend/dto/BadgeProgressDTO.java:113 | the percentage is 100 once the required count is reached |
| BadgeProgressDto.PercentageMonotone | backend/backend/src/main/java/com/codewithudo/backend/dto/BadgeProgressDTO.java:113 | more progress towards the same target never lowers the percentage |
| BadgeProgressDto.IsCloseToEarning | backend/backend/src/main/java/com/codewithudo/backend/dto/BadgeProgressDTO.java:119-124 | false when earned or a count is missing; otherwise true exactly when 5*current >= 4*required |
| BadgeProgressDto.CloseIffEightyPercent | backend/backend/src/main/java/com/codewithudo/backend/dto/BadgeProgressDTO.java:119-124 | for an unearned badge with a positive target, close to earning exactly when the percentage is at least 80 |
| BadgeProgressDto.RarityDescription | backend/backend/src/main/java/com/codewithudo/backend/dto/BadgeProgressDTO.java:129-137 | levels 1..4 are Common, Rare, Epic and Legendary; anything else is "Unknown" |
| BadgeProgressDto.RarityDescriptionInjective | backend/backend/src/main/java/com/codewithudo/backend/dto/BadgeProgressDTO.java:129-137 | the four levels have four different descriptions, none "Unknown" |
| BadgeDto.RarityDisplay | backend/backend/src/main/java/com/codewithudo/backend/dto/BadgeDTO.java:40-48 | levels 1..4 are Common, Rare, Epic and Legendary; anything else falls back to "Common" |
| BadgeDto.RarityLabelsAgreeOnDefinedLevels | backend/backend/src/main/java/com/codewithudo/backend/dto/BadgeDTO.java:40-48 | both rarity labels agree on levels 1..4 and disagree everywhere else |
| BadgeDto.FromEntity | backend/backend/src/main/java/com/codewithudo/backend/dto/BadgeDTO.java:25-38 | every field is copied and the rarity display is the level's label |
| BadgeDto.FromEntityInjective | backend/backend/src/main/java/com/codewithudo/backend/dto/BadgeDTO.java:25-38 | two badges with the same view differ at most in the activity flag |
| UserStreakDto.StreakTypeDisplay | backend/backend/src/main/java/com/codewithudo/backend/dto/UserStreakDTO.java:36-43 | the four fixed display names |
| UserStreakDto.StreakTypeDisplayInjective | backend/backend/src/main/java/com/codewithudo/backend/dto/UserStreakDTO.java:37-42 | different types are displayed differently |
| UserStreakDto.FromEntity | backend/backend/src/main/java/com/codewithudo/backend/dto/UserStreakDTO.java:23-34 | every field is copied; the active flag is isStreakActive for today; the display is the type's name |
| UserStreakDto.ViewOfUpdatedStreakIsActive | backend/backend/src/main/java/com/codewithudo/backend/dto/UserStreakDTO.java:31 | the view of a streak incremented or reset today is active |
| LeaderboardEntryDto.RankEmoji | backend/backend/src/main/java/com/codewithudo/backend/dto/LeaderboardEntryDTO.java:98-105 | medals for ranks 1, 2 and 3, the default emoji otherwise |
| LeaderboardEntryDto.RankClass | backend/backend/src/main/java/com/codewithudo/backend/dto/LeaderboardEntryDTO.java:110-117 | gold, silver and bronze for ranks 1..3, "standard" otherwise |
| LeaderboardEntryDto.PodiumAgreement | backend/backend/src/main/java/com/codewithudo/backend/dto/LeaderboardEntryDTO.java:98-117 | emoji and class single out the same podium ranks and tell them apart |
| Notifications.TypeOf | backend/backend/src/main/java/com/codewithudo/backend/service/NotificationPreferencesService.java:78 | NotificationType.valueOf yields only the constant with exactly that name |
| Notifications.TypeOfName | backend/backend/src/main/java/com/codewithudo/backend/entity/Notification.java:164-176 | every constant's own name parses back to it |
| Notifications.TypeName | backend/backend/src/main/java/com/codewithudo/backend/entity/Notification.java:164-176 | `name()`: a non-empty constant name of upper-case letters and underscores |
| Notifications.MarkRead | backend/backend/src/main/java/com/codewithudo/backend/entity/Notification.java:116-121 | the flag takes the new value; a recorded read time is kept; the first read is stamped with now; nothing else changes |
| Notifications.FirstReadTime | backend/backend/src/main/java/com/codewithudo/backend/entity/Notification.java:116-121 | there is a first read time exactly when some call marks it read |
| Notifications.ReadAtIsFirstRead | backend/backend/src/main/java/com/codewithudo/backend/entity/Notification.java:116-121 | from a never-read notification, any run of calls leaves readAt at the time of the first call that marks it read |
| Notifications.ReadAtIsKept | backend/backend/src/main/java/com/codewithudo/backend/entity/Notification.java:118 | once a read time is recorded, no later call changes it |
| Notifications.LastFlagWins | backend/backend/src/main/java/com/codewithudo/backend/entity/Notification.java:117 | after a non-empty run of calls the read flag is the last call's flag |
| Notifications.Notification.constructor | backend/backend/src/main/java/com/codewithudo/backend/entity/Notification.java:50-61 | the five-argument constructor sets the given fields, unread, created now |
| Notifications.Notification.Empty | backend/backend/src/main/java/com/codewithudo/backend/entity/Notification.java:50-52 | the no-argument constructor: unread, never read, created now, every optional field null |
| Notifications.Notification.SetIsRead | backend/backend/src/main/java/com/codewithudo/backend/entity/Notification.java:116-121 | the entity's fields become the value-level MarkRead |
| Preferences.KindOf | backend/backend/src/main/java/com/codewithudo/backend/entity/NotificationPreferences.java:371-378 | exactly MESSAGE_RECEIVED, MEETING_SCHEDULED, FEEDBACK_REQUEST, PROFILE_UPDATE and CONNECTION_REQUEST fall to the default; the other six map to their kinds |
| Preferences.WithKindFlag | backend/backend/src/main/java/com/codewithudo/backend/entity/NotificationPreferences.java:382-404 | one per-type flag is set and every other switch is kept |
| Preferences.Defaults | backend/backend/src/main/java/com/codewithudo/backend/entity/NotificationPreferences.java:18-114 | all 21 switches on, quiet hours off with no bounds, timezone "UTC", language "en", both timestamps now |
| Preferences.FlagsOf | backend/backend/src/main/java/com/codewithudo/backend/entity/NotificationPreferences.java:361-369 | exactly "email", "push" and "in_app" select a channel |
| Preferences.TailDeterminesKind | backend/backend/src/main/java/com/codewithudo/backend/entity/NotificationPreferences.java:382-404 | the last three letters of the kind suffix tell the kinds apart |
| Preferences.KeySplits | backend/backend/src/main/java/com/codewithudo/backend/entity/NotificationPreferences.java:383 | a concatenated key channel + kind determines both parts |
| Preferences.NotAKnownKey | backend/backend/src/main/java/com/codewithudo/backend/entity/NotificationPreferences.java:383 | a key from an unknown channel is none of the known channels' keys |
| Preferences.NotEmailKey | backend/backend/src/main/java/com/codewithudo/backend/entity/NotificationPreferences.java:384-389 | a channel other than "email" builds none of the six "email" keys |
| Preferences.NotPushKey | backend/backend/src/main/java/com/codewithudo/backend/entity/NotificationPreferences.java:390-395 | a channel other than "push" builds none of the six "push" keys |
| Preferences.NotInAppKey | backend/backend/src/main/java/com/codewithudo/backend/entity/NotificationPreferences.java:396-401 | a channel other than "in_app" builds none of the six "in_app" keys |
| Preferences.UnknownChannelPreference | backend/backend/src/main/java/com/codewithudo/backend/entity/NotificationPreferences.java:402 | an unknown channel's key hits the default and answers true |
| Preferences.KnownChannelPreference | backend/backend/src/main/java/com/codewithudo/backend/entity/NotificationPreferences.java:383-401 | a known channel's key selects that channel's flag for the kind |
| Preferences.ChannelPreferenceIsFlagLookup | backend/backend/src/main/java/com/codewithudo/backend/entity/NotificationPreferences.java:382-404 | the string-keyed switch is the lookup "this channel's flag for this kind", and true for any other channel |
| Preferences.IsEnabled | backend/backend/src/main/java/com/codewithudo/backend/entity/NotificationPreferences.java:360-380 | a disabled known channel answers false; an unknown channel answers true; otherwise a kinded type answers its flag and the others true |
| Preferences.WithFlag | backend/backend/src/main/java/com/codewithudo/backend/entity/NotificationPreferences.java:382-404 | only the named channel's flag for the kind changes; other channels are untouched |
| Preferences.FlagChangeIsLocal | backend/backend/src/main/java/com/codewithudo/backend/entity/NotificationPreferences.java:360-404 | changing one per-type flag changes no answer for another channel or another kind |
| Preferences.DefaultsEnableEverything | backend/backend/src/main/java/com/codewithudo/backend/entity/NotificationPreferences.java:18-81 | with the defaults every type is enabled on every channel |
| Preferences.NotificationPreferences.constructor | backend/backend/src/main/java/com/codewithudo/backend/entity/NotificationPreferences.java:106-114 | `new NotificationPreferences(userId)` holds the default record |
| Preferences.NotificationPreferences.Load | backend/backend/src/main/java/com/codewithudo/backend/repository/NotificationPreferencesRepository.java:15 | an entity loaded from a stored row holds exactly that row |
| Preferences.NotificationPreferences.SetUpdatedAt | backend/backend/src/main/java/com/codewithudo/backend/entity/NotificationPreferences.java:353-355 | the argument is ignored: updatedAt becomes the current time and nothing else changes |
| PreferencesService.EmptyDto | backend/backend/src/main/java/com/codewithudo/backend/dto/NotificationPreferencesDto.java:51 | a transfer object with every preference field null |
| PreferencesService.FlagsToDto | backend/backend/src/main/java/com/codewithudo/backend/service/NotificationPreferencesService.java:147-190 | the seven switches of a channel, each boxed |
| PreferencesService.ToDto | backend/backend/src/main/java/com/codewithudo/backend/service/NotificationPreferencesService.java:147-190 | convertToDto copies every field; the four strings keep their nulls |
| PreferencesService.Keep | backend/backend/src/main/java/com/codewithudo/backend/service/NotificationPreferencesService.java:195-229 | a `!= null` guarded setter takes the update when present and keeps the field otherwise |
| PreferencesService.ApplyFlags | backend/backend/src/main/java/com/codewithudo/backend/service/NotificationPreferencesService.java:196-217 | each of the seven channel switches is updated only when the transfer object carries it |
| PreferencesService.ApplyDto | backend/backend/src/main/java/com/codewithudo/backend/service/NotificationPreferencesService.java:195-229 | every preference field the transfer object carries is copied, every null one is kept; user id and timestamps are untouched |
| PreferencesService.NoFlagsChangeNothing | backend/backend/src/main/java/com/codewithudo/backend/service/NotificationPreferencesService.java:196-217 | a channel update with all switches null changes nothing |
| PreferencesService.EmptyUpdateChangesNothing | backend/backend/src/main/java/com/codewithudo/backend/service/NotificationPreferencesService.java:195-229 | a transfer object with every preference null changes nothing |
| PreferencesService.ApplyFlagsIdempotent | backend/backend/src/main/java/com/codewithudo/backend/service/NotificationPreferencesService.java:196-217 | applying the same channel update twice is applying it once |
| PreferencesService.ApplyDtoIdempotent | backend/backend/src/main/java/com/codewithudo/backend/service/NotificationPreferencesService.java:195-229 | applying the same update twice is applying it once |
| PreferencesService.OwnFlagsRestore | backend/backend/src/main/java/com/codewithudo/backend/service/NotificationPreferencesService.java:147-229 | a channel's own transfer flags restore it on any starting channel |
| PreferencesService.ApplyOwnDtoRestores | backend/backend/src/main/java/com/codewithudo/backend/service/NotificationPreferencesService.java:147-229 | sending back the transfer object of a record reproduces its switches and quiet-hours flag, and its strings when none is null |
| PreferencesService.UpdatePreferencesFromDto | backend/backend/src/main/java/com/codewithudo/backend/service/NotificationPreferencesService.java:195-229 | the entity's fields become the value-level update |
| PreferencesService.DigitValue | backend/backend/src/main/java/com/codewithudo/backend/service/NotificationPreferencesService.java:128-129 | a decimal digit's value lies in 0..9 |
| PreferencesService.TwoDigits | backend/backend/src/main/java/com/codewithudo/backend/service/NotificationPreferencesService.java:128-129 | a two-digit field lies in 0..99 |
| PreferencesService.Pow10 | backend/backend/src/main/java/com/codewithudo/backend/service/NotificationPreferencesService.java:128-129 | powers of ten are positive |
| PreferencesService.DigitsValue | backend/backend/src/main/java/com/codewithudo/backend/service/NotificationPreferencesService.java:128-129 | n decimal digits read as a number below 10^n |
| PreferencesService.ParseLocalTime | backend/backend/src/main/java/com/codewithudo/backend/service/NotificationPreferencesService.java:128-129 | LocalTime.parse with the ISO format ("HH:mm", optional seconds and fraction) yields a nanosecond of the day, or fails |
| PreferencesService.Pow10Add | backend/backend/src/main/java/com/codewithudo/backend/service/NotificationPreferencesService.java:128-129 | powers of ten multiply by adding exponents |
| PreferencesService.FractionBound | backend/backend/src/main/java/com/codewithudo/backend/service/NotificationPreferencesService.java:128-129 | a fraction of up to nine digits, scaled to nanoseconds, is below one second |
| PreferencesService.FormatHourMinute | backend/backend/src/main/java/com/codewithudo/backend/entity/NotificationPreferences.java:88-91 | the stored "HH:mm" text is five characters with ':' in the middle |
| PreferencesService.ParseFormattedTime | backend/backend/src/main/java/com/codewithudo/backend/service/NotificationPreferencesService.java:128-129 | parsing an "HH:mm" text reads back exactly the formatted minute |
| PreferencesService.CurrentTimeInQuietHours | backend/backend/src/main/java/com/codewithudo/backend/service/NotificationPreferencesService.java:119-142 | not quiet when disabled, when a bound is missing, or when a bound does not parse; otherwise the strict window test, forward when start < end and wrapping past midnight otherwise |
| PreferencesService.QuietWindowIsForwardArc | backend/backend/src/main/java/com/codewithudo/backend/service/NotificationPreferencesService.java:131-137 | with distinct bounds, quiet exactly when now lies strictly inside the arc from start to end going forward round the clock |
| PreferencesService.EqualBoundsExcludeOnlyStart | backend/backend/src/main/java/com/codewithudo/backend/service/NotificationPreferencesService.java:135-136 | equal bounds are quiet at every instant except the bound itself |
| PreferencesService.NotificationPreferencesService.GetUserPreferences | backend/backend/src/main/java/com/codewithudo/backend/service/NotificationPreferencesService.java:22-33 | the stored row's view; a missing row is first created with the defaults and stored |
| PreferencesService.NotificationPreferencesService.UpdateUserPreferences | backend/backend/src/main/java/com/codewithudo/backend/service/NotificationPreferencesService.java:38-54 | the stored row, or a fresh default one, gets the partial update and a new updatedAt, and is returned |
| PreferencesService.NotificationPreferencesService.ResetToDefaults | backend/backend/src/main/java/com/codewithudo/backend/service/NotificationPreferencesService.java:59-68 | the user's row becomes the defaults whatever was stored, and is returned |
| PreferencesService.NotificationPreferencesService.IsNotificationEnabled | backend/backend/src/main/java/com/codewithudo/backend/service/NotificationPreferencesService.java:73-85 | true with no row; an unknown type name is the valueOf error; otherwise the entity's answer |
| PreferencesService.NotificationPreferencesService.IsInQuietHours | backend/backend/src/main/java/com/codewithudo/backend/service/NotificationPreferencesService.java:90-98 | false with no row or with quiet hours off; otherwise the window test |
| PreferencesService.NotificationPreferencesService.UserTimezone | backend/backend/src/main/java/com/codewithudo/backend/service/NotificationPreferencesService.java:103-106 | the stored timezone, or "UTC" with no row or a null timezone |
| PreferencesService.NotificationPreferencesService.UserLanguage | backend/backend/src/main/java/com/codewithudo/backend/service/NotificationPreferencesService.java:111-114 | the stored language, or "en" with no row or a null language |
| PreferencesService.ResetRowAnswersDefaults | backend/backend/src/main/java/com/codewithudo/backend/service/NotificationPreferencesService.java:59-68 | right after a reset every type is enabled everywhere, quiet hours never apply, and timezone and language are "UTC" and "en" |
| MeetingScheduling.OverlapIsSymmetric | backend/backend/src/main/java/com/codewithudo/backend/service/MeetingSchedulingService.java:286-288 | two slots overlap regardless of which one asks |
| MeetingScheduling.TouchingSlotsDoNotOverlap | backend/backend/src/main/java/com/codewithudo/backend/service/MeetingSchedulingService.java:286-288 | slots are half open: one ending where the other starts do not overlap |
| MeetingScheduling.SlotOverlapsItself | backend/backend/src/main/java/com/codewithudo/backend/service/MeetingSchedulingService.java:286-288 | a slot overlaps itself exactly when it is non-empty |
| MeetingScheduling.ConflictIsStartInWindow | backend/backend/src/main/java/com/codewithudo/backend/service/MeetingSchedulingService.java:94-99 | a meeting of the user starting within 30 minutes before the start to 30 minutes after the end is a conflict, and when it is the user's only meeting nothing else is |
| MeetingScheduling.Participant | backend/backend/src/main/java/com/codewithudo/backend/service/MeetingSchedulingService.java:42-43 | user2 when the organiser is user1, otherwise user1 (also for an organiser outside the match) |
| MeetingScheduling.NewMeeting | backend/backend/src/main/java/com/codewithudo/backend/service/MeetingSchedulingService.java:54-66 | the saved meeting carries the match, both users, the times, "UTC", status SCHEDULED and no reminder sent |
| MeetingScheduling.Title | backend/backend/src/main/java/com/codewithudo/backend/service/MeetingSchedulingService.java:100-102 | "Coffee Chat: " and the organiser's name first, the participant's name last |
| MeetingScheduling.Description | backend/backend/src/main/java/com/codewithudo/backend/service/MeetingSchedulingService.java:104-121 | opens with the heading, the participants line and the organiser's bullet; ends with the participant's bullet, with the industry when set, and the closing sentence |
| MeetingScheduling.ScheduleCheck | backend/backend/src/main/java/com/codewithudo/backend/service/MeetingSchedulingService.java:36-52 | the errors in the source's order (match, organiser, participant not found, then a conflict of either user); success exactly when all exist and neither has a conflict, yielding the participant |
| MeetingScheduling.RescheduleCheck | backend/backend/src/main/java/com/codewithudo/backend/service/MeetingSchedulingService.java:127-134 | "Meeting not found", or a conflict of either user at the new time; success otherwise |
| MeetingScheduling.NearbyRescheduleFails | backend/backend/src/main/java/com/codewithudo/backend/service/MeetingSchedulingService.java:125-134 | the meeting's own row counts as a conflict, so moving it to a window that still covers its old start always fails |
| MeetingScheduling.Moved | backend/backend/src/main/java/com/codewithudo/backend/service/MeetingSchedulingService.java:136-139 | the new times, status RESCHEDULED and the reminder flag cleared; nothing else changes |
| MeetingScheduling.Reminded | backend/backend/src/main/java/com/codewithudo/backend/service/MeetingSchedulingService.java:259-274 | same keys; exactly the unreminded meetings starting within the next hour get the flag, every other row is unchanged |
| MeetingScheduling.RemindersAreSentOnce | backend/backend/src/main/java/com/codewithudo/backend/service/MeetingSchedulingService.java:259-274 | after a round nothing needs a reminder at the same moment, so a second round changes nothing |
| MeetingScheduling.MeetingSchedulingService.ScheduleMeeting | backend/backend/src/main/java/com/codewithudo/backend/service/MeetingSchedulingService.java:32-92 | on a failed check the error and no change; otherwise the new meeting is saved under the next id and the match becomes SCHEDULED at the start time |
| MeetingScheduling.MeetingSchedulingService.RescheduleMeeting | backend/backend/src/main/java/com/codewithudo/backend/service/MeetingSchedulingService.java:125-142 | on a failed check the error and no change; otherwise the row becomes the moved meeting, returned |
| MeetingScheduling.MeetingSchedulingService.SetMatchStatus | backend/backend/src/main/java/com/codewithudo/backend/service/MeetingSchedulingService.java:155-159 | the match, when it exists, gets the status; otherwise nothing changes |
| MeetingScheduling.MeetingSchedulingService.CancelMeeting | backend/backend/src/main/java/com/codewithudo/backend/service/MeetingSchedulingService.java:145-160 | "Meeting not found" with no change; otherwise CANCELLED with the reason as notes, and the match back to ACCEPTED when it exists |
| MeetingScheduling.MeetingSchedulingService.StartMeeting | backend/backend/src/main/java/com/codewithudo/backend/service/MeetingSchedulingService.java:163-178 | "Meeting not found" with no change; otherwise IN_PROGRESS with the actual start now, and the match IN_PROGRESS |
| MeetingScheduling.MeetingSchedulingService.CompleteMeeting | backend/backend/src/main/java/com/codewithudo/backend/service/MeetingSchedulingService.java:181-197 | "Meeting not found" with no change; otherwise COMPLETED with the actual end now and the notes, and the match COMPLETED |
| MeetingScheduling.MeetingSchedulingService.GetUserMeetings | backend/backend/src/main/java/com/codewithudo/backend/service/MeetingSchedulingService.java:199-201 | exactly the stored meetings the user organises or attends that start within the range |
| MeetingScheduling.MeetingSchedulingService.GetUpcomingMeetings | backend/backend/src/main/java/com/codewithudo/backend/service/MeetingSchedulingService.java:203-207 | exactly the user's meetings starting between now and the given number of days ahead |
| MeetingScheduling.MeetingSchedulingService.SendMeetingReminders | backend/backend/src/main/java/com/codewithudo/backend/service/MeetingSchedulingService.java:259-274 | the table becomes the reminded table |
| MeetingScheduling.RemindAll | backend/backend/src/main/java/com/codewithudo/backend/service/MeetingSchedulingService.java:259-274 | marking each meeting due for a reminder in turn leaves exactly the reminded table |
| MeetingScheduling.MeetingSchedulingService.SuggestMeetingTimes | backend/backend/src/main/java/com/codewithudo/backend/service/MeetingSchedulingService.java:209-254 | exactly the first `suggestions` entries of the day-by-day list of free business slots; so at most that many, each of the requested length on a whole hour from nine, ending before five, on a weekday 1 to 14 days ahead, overlapping no meeting of either user in that period, in increasing start order; when fewer are returned every free business slot is among them, and every free business slot earlier than the last one returned is among them |
| MeetingScheduling.AddDaySlots | backend/backend/src/main/java/com/codewithudo/backend/service/MeetingSchedulingService.java:236-250 | one weekday's pass appends exactly that day's free hourly slots, in order, cut at the requested number |
| MeetingScheduling.DaySlotsUnlessWeekend | backend/backend/src/main/java/com/codewithudo/backend/service/MeetingSchedulingService.java:228-251 | one iteration of the day loop: a weekend day adds nothing, a weekday adds its free slots; either way what is left to add is the free slots of the later days, cut at the requested number |
| MeetingScheduling.SuggestSlots | backend/backend/src/main/java/com/codewithudo/backend/service/MeetingSchedulingService.java:228-251 | the day loop returns the list of free slots of days 1 to 14 cut at the requested number |
| MeetingScheduling.BusySlots | backend/backend/src/main/java/com/codewithudo/backend/service/MeetingSchedulingService.java:217-225 | exactly the slots of the meetings of either user starting in the two weeks from now |
| MeetingScheduling.SlotsFromSound | backend/backend/src/main/java/com/codewithudo/backend/service/MeetingSchedulingService.java:236-250 | the hourly slots of a day start no earlier than the first hour, end before five and come in increasing start order |
| MeetingScheduling.SlotsFromHasSlot | backend/backend/src/main/java/com/codewithudo/backend/service/MeetingSchedulingService.java:236-250 | every free slot on the `k`-th hour of a day that ends before five is in that day's list |
| MeetingScheduling.FreeSlotsFromHasDay | backend/backend/src/main/java/com/codewithudo/backend/service/MeetingSchedulingService.java:228-251 | a slot of a weekday's list is in the list of the whole window from any earlier day |
| MeetingScheduling.FreeSlotsComplete | backend/backend/src/main/java/com/codewithudo/backend/service/MeetingSchedulingService.java:228-251 | every free business slot is in the list of free slots |
| MeetingScheduling.FreeSlotsFromOrdered | backend/backend/src/main/java/com/codewithudo/backend/service/MeetingSchedulingService.java:228-251 | the free slots from a day on start no earlier than that day's nine o'clock and, for a non-negative length, in increasing order |
| MeetingScheduling.SlotsFromBusiness | backend/backend/src/main/java/com/codewithudo/backend/service/MeetingSchedulingService.java:236-250 | every slot of a weekday's list is a free business slot |
| MeetingScheduling.DaySlotsBusiness | backend/backend/src/main/java/com/codewithudo/backend/service/MeetingSchedulingService.java:229-250 | on a weekday of the window the day's list holds only free business slots |
| MeetingScheduling.FreeSlotsFromBusiness | backend/backend/src/main/java/com/codewithudo/backend/service/MeetingSchedulingService.java:228-251 | the list of free slots holds only free business slots |
| MeetingScheduling.CutFreeSlotsSound | backend/backend/src/main/java/com/codewithudo/backend/service/MeetingSchedulingService.java:228-251 | a prefix of the free slots holds only free business slots and, for a non-negative length, is in increasing start order |
| MeetingScheduling.CutFreeSlotsComplete | backend/backend/src/main/java/com/codewithudo/backend/service/MeetingSchedulingService.java:228-251 | a cut shorter than the requested number holds every free business slot |
| MeetingScheduling.CutFreeSlotsHasEarlier | backend/backend/src/main/java/com/codewithudo/backend/service/MeetingSchedulingService.java:228-251 | a cut holds every free business slot starting before its last slot |
| MeetingScheduling.PrefixHasEarlierSlots | backend/backend/src/main/java/com/codewithudo/backend/service/MeetingSchedulingService.java:228-251 | in a prefix of the free slots, a free business slot starting before the prefix's last one is there |
| Matches.ActiveMatch | backend/backend/src/main/java/com/codewithudo/backend/repository/MatchRepository.java:31 | found exactly when the row exists and is active, and then it is that row |
| Matches.ChatEntryOf | backend/backend/src/main/java/com/codewithudo/backend/service/MatchingService.java:225-235 | the entry carries the match, user, content, type and time, and is a system message exactly when the type is not TEXT |
| Interactions.InteractionWeight | backend/backend/src/main/java/com/codewithudo/backend/service/SmartMatchingService.java:221-230 | only a rejection weighs negatively; weights lie in -1 to 3 and only a completed meeting weighs 3 |
| Interactions.RecordedInteraction | backend/backend/src/main/java/com/codewithudo/backend/service/SmartMatchingService.java:206-219 | the saved row carries user, target, type, value, the type's weight and the time |
| Matching.ToMatchDto | backend/backend/src/main/java/com/codewithudo/backend/service/MatchingService.java:237-264 | every match field is copied; each user's name and email are present exactly when that user exists |
| Matching.NewMatch | backend/backend/src/main/java/com/codewithudo/backend/service/MatchingService.java:39-47 | requester as user1, target as user2, PENDING, active, with the request's type, time, duration and message and the computed score |
| Matching.Responded | backend/backend/src/main/java/com/codewithudo/backend/service/MatchingService.java:72-77 | the response's status; only an acceptance sets the time and duration; nothing else changes |
| Matching.Respond | backend/backend/src/main/java/com/codewithudo/backend/service/MatchingService.java:60-77 | "Match not found" unless active; "User not authorized to respond to this match" for anyone but user2; "Match is not in pending status" unless pending; success exactly when all three pass, giving the answered match |
| Matching.ResponseLog | backend/backend/src/main/java/com/codewithudo/backend/service/MatchingService.java:82-87 | "Match accepted" for an acceptance, "Match rejected" for anything else |
| Matching.AnsweredMatchIsFinal | backend/backend/src/main/java/com/codewithudo/backend/service/MatchingService.java:59-90 | once answered with a non-pending status, any further response fails |
| Matching.ReverseRequestIsNotChecked | backend/backend/src/main/java/com/codewithudo/backend/service/MatchingService.java:33-36 | a pending request from B to A does not stop A asking B |
| Matching.Eligible | backend/backend/src/main/java/com/codewithudo/backend/service/MatchingService.java:96-109 | exactly the other users scoring above 0.3, each as a pending coffee chat from the user: every suggestion is that of a kept candidate, and every kept candidate has its suggestion |
| Matching.InsertByScore | backend/backend/src/main/java/com/codewithudo/backend/service/MatchingService.java:112 | inserting into a score-descending list keeps it descending, one longer, headed by the new entry or the old head |
| Matching.InsertByScorePermutes | backend/backend/src/main/java/com/codewithudo/backend/service/MatchingService.java:112 | insertion adds exactly the new entry: the multiset grows by it and nothing else |
| Matching.PrependKeepsSorted | backend/backend/src/main/java/com/codewithudo/backend/service/MatchingService.java:112 | an entry scoring at least as much as every entry of a descending list can head it |
| Matching.SortByScore | backend/backend/src/main/java/com/codewithudo/backend/service/MatchingService.java:112 | score-descending and a permutation of the input |
| Matching.MatchingService.CreateMatchRequest | backend/backend/src/main/java/com/codewithudo/backend/service/MatchingService.java:31-57 | "Match request already exists" with no change when a pending request exists; otherwise the new match under the next id and a MATCH_REQUEST chat entry |
| Matching.MatchingService.RespondToMatch | backend/backend/src/main/java/com/codewithudo/backend/service/MatchingService.java:59-90 | the error with no change, or the answered match saved and a response chat entry logged |
| Matching.MatchingService.GetAvailableMatches | backend/backend/src/main/java/com/codewithudo/backend/service/MatchingService.java:92-115 | score-descending, a permutation of the eligible suggestions, every eligible candidate is there, and every entry is the suggestion of an eligible candidate |
| Matching.MatchingService.GetUserPreferences | backend/backend/src/main/java/com/codewithudo/backend/service/MatchingService.java:131-137 | the stored preferences, or the defaults when the user has none |
| Matching.MatchingService.UpdateUserPreferences | backend/backend/src/main/java/com/codewithudo/backend/service/MatchingService.java:139-158 | every field is written from the form, nulls included; reading back gives the form |
| MatchFeedbacks.Filled | backend/backend/src/main/java/com/codewithudo/backend/service/MatchFeedbackService.java:54-60 | the seven rating and text fields come from the form; the ids are kept |
| MatchFeedbacks.FillingTwiceIsFillingOnce | backend/backend/src/main/java/com/codewithudo/backend/service/MatchFeedbackService.java:39-60 | resubmitting overwrites every earlier answer |
| MatchFeedbacks.OtherUser | backend/backend/src/main/java/com/codewithudo/backend/service/MatchFeedbackService.java:65 | the target of the feedback interaction is the other participant |
| MatchFeedbacks.QualitySumBounds | backend/backend/src/main/java/com/codewithudo/backend/service/MatchFeedbackService.java:77-94 | k ratings on the 1 to 5 scale sum to between k and 5k |
| MatchFeedbacks.MatchScoreInRange | backend/backend/src/main/java/com/codewithudo/backend/service/MatchFeedbackService.java:77-94 | the normalised score is between 0.2 and 1 |
| MatchFeedbacks.MatchScore | backend/backend/src/main/java/com/codewithudo/backend/service/MatchFeedbackService.java:85-90 | the score times 5 times the number of ratings is the rating sum: the mean quality over 5 |
| MatchFeedbacks.CompletionUpdate | backend/backend/src/main/java/com/codewithudo/backend/service/MatchFeedbackService.java:77-94 | only this match may change, and only when it is COMPLETED with at least two feedbacks, getting the mean quality over 5 as its score |
| MatchFeedbacks.RateIsFraction | backend/backend/src/main/java/com/codewithudo/backend/service/MatchFeedbackService.java:108-118 | a rate is in [0, 1], and 0 with no feedback |
| MatchFeedbacks.Rate | backend/backend/src/main/java/com/codewithudo/backend/service/MatchFeedbackService.java:113-114 | with feedback, the rate times the total is the count; 0 without feedback |
| MatchFeedbacks.OverallStats | backend/backend/src/main/java/com/codewithudo/backend/service/MatchFeedbackService.java:108-118 | the totals are counts of the feedback table; the rates are those counts over the total, or 0 with no feedback |
| MatchFeedbacks.MatchFeedbackService.SubmitFeedback | backend/backend/src/main/java/com/codewithudo/backend/service/MatchFeedbackService.java:26-75 | "Match not found" or "User not authorized to provide feedback for this match" with no change; otherwise the user's earlier feedback is overwritten or a new one inserted, one per match and user is kept, a FEEDBACK_GIVEN interaction is logged and the completion update applied |
| MatchFeedbacks.MatchFeedbackService.StoreFeedback | backend/backend/src/main/java/com/codewithudo/backend/service/MatchFeedbackService.java:40-62 | the user's earlier feedback for the match is filled in and kept under its id, or a new one is stored under the next id when there is none; one feedback per match and user is kept |
| MatchFeedbacks.MatchFeedbackService.GetOverallMatchQualityStats | backend/backend/src/main/java/com/codewithudo/backend/service/MatchFeedbackService.java:108-118 | the statistics of the stored feedback |
| MatchFeedbacks.SameKeysKeepOne | backend/backend/src/main/java/com/codewithudo/backend/repository/MatchFeedbackRepository.java:19 | overwriting a feedback with one for the same match and user keeps at most one per pair |
| MatchFeedbacks.NewKeyKeepsOne | backend/backend/src/main/java/com/codewithudo/backend/repository/MatchFeedbackRepository.java:19 | adding the first feedback of a pair keeps at most one per pair |
| Companies.CompanyDtoOf | backend/backend/src/main/java/com/codewithudo/backend/dto/CompanyDTO.java:26-36 | id, name, admin, tier and active flag are copied; the admin name and the counts stay null |
| Companies.DefaultSettings | backend/backend/src/main/java/com/codewithudo/backend/service/CompanyService.java:138-148 | the settings of a new company: its id, the two default colours, domain verification on, external matching off, analytics on, nothing else set |
| Companies.CreateCheck | backend/backend/src/main/java/com/codewithudo/backend/service/CompanyService.java:33-46 | "Admin user not found", then "User does not have corporate admin privileges" for a role other than CORPORATE_ADMIN or ADMIN, then "Company with this name already exists"; success exactly when none applies |
| Companies.UpdateCheck | backend/backend/src/main/java/com/codewithudo/backend/service/CompanyService.java:86-92 | "Company not found", or a name conflict only when the name changes to one already taken |
| Companies.Updated | backend/backend/src/main/java/com/codewithudo/backend/service/CompanyService.java:94-97 | the new name, and the new tier unless it is null; nothing else changes |
| Companies.UpdateKeepsNamesUnique | backend/backend/src/main/java/com/codewithudo/backend/service/CompanyService.java:85-101 | a rename that passes the check keeps company names unique |
| Companies.Detached | backend/backend/src/main/java/com/codewithudo/backend/service/CompanyService.java:115-120 | same users; none is attached to the company any more |
| Companies.DetachTouchesOnlyEmployees | backend/backend/src/main/java/com/codewithudo/backend/service/CompanyService.java:115-120 | users of other companies are unchanged, and an employee loses only the company field |
| Companies.CompanyService.CreateCompany | backend/backend/src/main/java/com/codewithudo/backend/service/CompanyService.java:31-66 | on a failed check the error and no change; otherwise a FREE active company under the next id, its default settings, and the admin attached to it, so the admin check holds; names stay unique |
| Companies.CompanyService.GetAllActiveCompanies | backend/backend/src/main/java/com/codewithudo/backend/service/CompanyService.java:68-73 | exactly the DTOs of the active companies |
| Companies.CompanyService.GetCompanyById | backend/backend/src/main/java/com/codewithudo/backend/service/CompanyService.java:75-78 | present exactly when the company exists, as its DTO |
| Companies.CompanyService.UpdateCompany | backend/backend/src/main/java/com/codewithudo/backend/service/CompanyService.java:85-101 | on a failed check the error and no change; otherwise the updated company is saved and returned; names stay unique |
| Companies.CompanyService.DeactivateCompany | backend/backend/src/main/java/com/codewithudo/backend/service/CompanyService.java:103-109 | "Company not found" with no change; otherwise only the active flag is cleared |
| Companies.CompanyService.DeleteCompany | backend/backend/src/main/java/com/codewithudo/backend/service/CompanyService.java:111-127 | "Company not found" with no change; otherwise every employee detached, the company's settings and the company removed |
| Companies.CompanyService.DetachEmployees | backend/backend/src/main/java/com/codewithudo/backend/service/CompanyService.java:116-120 | the user table becomes the detached table |
| Companies.DetachAll | backend/backend/src/main/java/com/codewithudo/backend/service/CompanyService.java:116-120 | clearing the company of each employee in turn leaves exactly the detached table, and rows stay keyed by their ids |
| Companies.CompanyService.DeleteSettingsOf | backend/backend/src/main/java/com/codewithudo/backend/service/CompanyService.java:123 | exactly the settings rows of the company are removed |
| Companies.CompanyService.IsUserCompanyAdmin | backend/backend/src/main/java/com/codewithudo/backend/service/CompanyService.java:129-132 | false for a missing company; otherwise true exactly when the user is its admin |
| Companies.CompanyService.GetCompanyEmployees | backend/backend/src/main/java/com/codewithudo/backend/service/CompanyService.java:134-136 | exactly the stored users whose company is the given one |
| Companies.Employees | backend/backend/src/main/java/com/codewithudo/backend/repository/UserRepository.java:24-25 | findByCompanyId: exactly the users attached to the company |
| Companies.DetachedLeavesNoEmployees | backend/backend/src/main/java/com/codewithudo/backend/service/CompanyService.java:111-127 | after deleteCompany detaches them the company has no employees, and every other company keeps exactly its own |
| CompanyInvitations.FromEntity | backend/backend/src/main/java/com/codewithudo/backend/dto/CompanyInvitationDTO.java:28-40 | every invitation field is copied; the three display names stay null |
| CompanyInvitations.InvitationByToken | backend/backend/src/main/java/com/codewithudo/backend/repository/CompanyInvitationRepository.java:16 | found exactly when some invitation has the token, and then it is that one (tokens are unique) |
| CompanyInvitations.CreateCheck | backend/backend/src/main/java/com/codewithudo/backend/service/CompanyInvitationService.java:29-38 | "User already has a pending invitation for this company", then "User is already part of this company"; success exactly when neither applies |
| CompanyInvitations.NewInvitation | backend/backend/src/main/java/com/codewithudo/backend/service/CompanyInvitationService.java:40-47 | the saved invitation is PENDING with the given token and expires seven days after creation |
| CompanyInvitations.CreatingKeepsInvariants | backend/backend/src/main/java/com/codewithudo/backend/service/CompanyInvitationService.java:28-51 | a new invitation with a fresh token for an address without a pending one keeps tokens unique and one pending invitation per address and company |
| CompanyInvitations.SettlingKeepsInvariants | backend/backend/src/main/java/com/codewithudo/backend/service/CompanyInvitationService.java:99-119 | taking an invitation out of PENDING keeps both invariants |
| CompanyInvitations.AcceptCheck | backend/backend/src/main/java/com/codewithudo/backend/service/CompanyInvitationService.java:76-97 | "Invalid invitation token", "Invitation is no longer valid", "Invitation has expired", "User not found", "Email mismatch" in that order; success exactly when the invitation is pending, not expired and the user's email matches |
| CompanyInvitations.CancelCheck | backend/backend/src/main/java/com/codewithudo/backend/service/CompanyInvitationService.java:111-116 | "Invitation not found", or "Can only cancel pending invitations"; success exactly for a pending invitation |
| CompanyInvitations.ExpiredAmong | backend/backend/src/main/java/com/codewithudo/backend/service/CompanyInvitationService.java:125-128 | same keys; exactly the chosen invitations become EXPIRED |
| CompanyInvitations.ExpiryLaws | backend/backend/src/main/java/com/codewithudo/backend/repository/CompanyInvitationRepository.java:24-25 | expiry marks exactly the pending invitations past their expiry, changes nothing else, and leaves nothing overdue |
| CompanyInvitations.ExpireAll | backend/backend/src/main/java/com/codewithudo/backend/service/CompanyInvitationService.java:122-129 | the same invitations; each overdue one becomes EXPIRED and every other keeps its status |
| CompanyInvitations.ExpiringKeepsInvariants | backend/backend/src/main/java/com/codewithudo/backend/service/CompanyInvitationService.java:122-129 | expiry keeps both invariants |
| CompanyInvitations.SettledIsTerminal | backend/backend/src/main/java/com/codewithudo/backend/service/CompanyInvitationService.java:80-82 | an invitation out of PENDING can no longer be accepted, cancelled or expired |
| CompanyInvitations.CompanyInvitationService.CreateInvitation | backend/backend/src/main/java/com/codewithudo/backend/service/CompanyInvitationService.java:28-51 | on a failed check the error and no change; otherwise the new invitation under the next id, returned as its DTO |
| CompanyInvitations.CompanyInvitationService.GetCompanyInvitations | backend/backend/src/main/java/com/codewithudo/backend/service/CompanyInvitationService.java:53-66 | exactly the DTOs of the company's invitations with the status, or with any status when it is null: each entry is the DTO of such a stored invitation, and each such invitation's DTO is there |
| CompanyInvitations.CompanyInvitationService.GetUserInvitations | backend/backend/src/main/java/com/codewithudo/backend/service/CompanyInvitationService.java:68-73 | a null status matches nothing; otherwise exactly the DTOs of the address's invitations with that status, each entry the DTO of such a stored invitation |
| CompanyInvitations.CompanyInvitationService.AcceptInvitation | backend/backend/src/main/java/com/codewithudo/backend/service/CompanyInvitationService.java:75-108 | on a failed check the error and no change (the EXPIRED write rolls back with the transaction); otherwise the user joins the company and the invitation becomes ACCEPTED at now |
| CompanyInvitations.CompanyInvitationService.CancelInvitation | backend/backend/src/main/java/com/codewithudo/backend/service/CompanyInvitationService.java:110-120 | on a failed check the error and no change; otherwise the invitation becomes CANCELLED |
| CompanyInvitations.CompanyInvitationService.ExpireOldInvitations | backend/backend/src/main/java/com/codewithudo/backend/service/CompanyInvitationService.java:122-129 | the table becomes the expired table |
| CompanyInvitations.ExpireOverdue | backend/backend/src/main/java/com/codewithudo/backend/service/CompanyInvitationService.java:122-129 | marking each overdue invitation EXPIRED in turn leaves exactly the expired table, with the id counter unchanged |
| CompanyInvitations.CompanyInvitationService.GetInvitationByToken | backend/backend/src/main/java/com/codewithudo/backend/service/CompanyInvitationService.java:131-134 | present exactly when the token is in use, and then the DTO of the stored invitation holding that token |
| CompanyInvitations.CompanyInvitationService.GetPendingInvitationCount | backend/backend/src/main/java/com/codewithudo/backend/service/CompanyInvitationService.java:136-138 | the number of the company's pending invitations |
| ConversationStarters.Chunks | backend/backend/src/main/java/com/codewithudo/backend/service/ConversationStarterService.java:117 | the pieces of a split contain no separator and only characters of the text |
| ConversationStarters.TrimStartKeepsChars | backend/backend/src/main/java/com/codewithudo/backend/service/ConversationStarterService.java:118 | stripping leading whitespace only removes characters |
| ConversationStarters.TrimEndKeepsChars | backend/backend/src/main/java/com/codewithudo/backend/service/ConversationStarterService.java:118 | stripping trailing whitespace only removes characters |
| ConversationStarters.TrimKeepsChars | backend/backend/src/main/java/com/codewithudo/backend/service/ConversationStarterService.java:118 | trim only removes characters |
| ConversationStarters.CommonKeywords | backend/backend/src/main/java/com/codewithudo/backend/service/ConversationStarterService.java:114-129 | empty when either text is null; otherwise a keyword is common exactly when it is a keyword of both texts |
| ConversationStarters.CommonKeywordsShape | backend/backend/src/main/java/com/codewithudo/backend/service/ConversationStarterService.java:114-129 | symmetric in the two texts; every common keyword has at least three characters, no separator and no upper-case letter |
| ConversationStarters.ByContext | backend/backend/src/main/java/com/codewithudo/backend/repository/ConversationStarterRepository.java:16 | exactly the active stored starters of that context: only they, and every one of them |
| ConversationStarters.InsertRanked | backend/backend/src/main/java/com/codewithudo/backend/repository/ConversationStarterRepository.java:22 | one element longer |
| ConversationStarters.InsertRankedPermutes | backend/backend/src/main/java/com/codewithudo/backend/repository/ConversationStarterRepository.java:22 | the inserted list holds the old starters and the new one, each as often as before |
| ConversationStarters.InsertRankedKeepsRanked | backend/backend/src/main/java/com/codewithudo/backend/repository/ConversationStarterRepository.java:22 | inserting into a list ordered by success rate descending, then usage ascending keeps it ordered |
| ConversationStarters.InsertRankedLaws | backend/backend/src/main/java/com/codewithudo/backend/repository/ConversationStarterRepository.java:22 | inserting into a list ordered by success rate descending, then usage ascending keeps it ordered and adds exactly that starter |
| ConversationStarters.SortRanked | backend/backend/src/main/java/com/codewithudo/backend/repository/ConversationStarterRepository.java:22 | ordered by success rate descending, then usage ascending, and a permutation of the input |
| ConversationStarters.ByTags | backend/backend/src/main/java/com/codewithudo/backend/repository/ConversationStarterRepository.java:20-25 | ranked by success rate descending, then usage ascending, and a permutation of the active stored starters whose tags match `%tag%` for one of the three tags as a SQL LIKE pattern: only they, and every one of them |
| ConversationStarters.TagLikeIsContains | backend/backend/src/main/java/com/codewithudo/backend/repository/ConversationStarterRepository.java:20-25 | for a tag without `%` or `_` the LIKE match is plain substring containment |
| ConversationStarters.InOrder | backend/backend/src/main/java/com/codewithudo/backend/service/ConversationStarterService.java:64 | only members of the keyword set |
| ConversationStarters.KeywordStarters | backend/backend/src/main/java/com/codewithudo/backend/service/ConversationStarterService.java:54-94 | at most the limit, all active stored starters; without a common keyword a prefix of the active starters of the fallback context; with one a ranked prefix of the tag query on the first three keywords, each starter tagged with one of them |
| ConversationStarters.IndustryStarters | backend/backend/src/main/java/com/codewithudo/backend/service/ConversationStarterService.java:96-108 | at most the limit, all active stored starters, of INDUSTRY_BASED context when the users share an industry and PROFESSIONAL otherwise |
| ConversationStarters.Personalize | backend/backend/src/main/java/com/codewithudo/backend/service/ConversationStarterService.java:131-157 | only the template changes, and a template without an opening brace is kept |
| ConversationStarters.PlaceholderText | backend/backend/src/main/java/com/codewithudo/backend/service/ConversationStarterService.java:131-157 | each placeholder starts with its only opening brace and has an underscore at position six |
| ConversationStarters.PlaceholderBody | backend/backend/src/main/java/com/codewithudo/backend/service/ConversationStarterService.java:135-156 | the placeholder text after the brace holds no brace and has an underscore |
| ConversationStarters.FillSlot | backend/backend/src/main/java/com/codewithudo/backend/service/ConversationStarterService.java:135-156 | filling keeps the number of pieces |
| ConversationStarters.FillAll | backend/backend/src/main/java/com/codewithudo/backend/service/ConversationStarterService.java:135-156 | filling every placeholder keeps the number of pieces |
| ConversationStarters.BracelessIsKept | backend/backend/src/main/java/com/codewithudo/backend/service/ConversationStarterService.java:135-156 | a text without the target's first character is not changed by replacing it |
| ConversationStarters.PlaceholderTail | backend/backend/src/main/java/com/codewithudo/backend/service/ConversationStarterService.java:135-156 | a placeholder's only opening brace is its first character |
| ConversationStarters.DepartingStartSkipped | backend/backend/src/main/java/com/codewithudo/backend/service/ConversationStarterService.java:135 | replacing steps over text that starts like the target but departs from it before the target ends |
| ConversationStarters.PlaceholdersDiffer | backend/backend/src/main/java/com/codewithudo/backend/service/ConversationStarterService.java:135-156 | two different placeholders differ at position five or seven |
| ConversationStarters.OtherSlotSkipped | backend/backend/src/main/java/com/codewithudo/backend/service/ConversationStarterService.java:135-156 | replacing one placeholder steps over another |
| ConversationStarters.PieceFilled | backend/backend/src/main/java/com/codewithudo/backend/service/ConversationStarterService.java:135-156 | replacing one placeholder turns one piece into its filled form and carries on with the rest |
| ConversationStarters.FillSlotBraceFree | backend/backend/src/main/java/com/codewithudo/backend/service/ConversationStarterService.java:135-156 | filling with brace-free text keeps the text brace-free |
| ConversationStarters.ReplaceFillsSlot | backend/backend/src/main/java/com/codewithudo/backend/service/ConversationStarterService.java:135-156 | on brace-free text, replacing a placeholder by a brace-free value fills exactly the occurrences of that placeholder |
| ConversationStarters.FourFills | backend/backend/src/main/java/com/codewithudo/backend/service/ConversationStarterService.java:135-156 | the four replacements in turn fill the four placeholders in turn |
| ConversationStarters.FillingEachSlotFillsAll | backend/backend/src/main/java/com/codewithudo/backend/service/ConversationStarterService.java:135-156 | filling the four placeholders one after another fills every placeholder |
| ConversationStarters.PersonalizeFillsPlaceholders | backend/backend/src/main/java/com/codewithudo/backend/service/ConversationStarterService.java:131-157 | on a brace-free template and brace-free names and industries, every placeholder becomes its user's name or industry, a null industry "your field" or "their field", and nothing else changes |
| ConversationStarters.ReplaceAllWithoutChar | backend/backend/src/main/java/com/codewithudo/backend/service/ConversationStarterService.java:135-140 | text missing a character of the target is left as it is |
| ConversationStarters.TemplateWithoutUnderscoreIsKept | backend/backend/src/main/java/com/codewithudo/backend/service/ConversationStarterService.java:131-157 | a template without an underscore is returned unchanged |
| ConversationStarters.PlaceholderCanSurvive | backend/backend/src/main/java/com/codewithudo/backend/service/ConversationStarterService.java:135 | replacement scans once, so a placeholder can remain after it: "{{user1_name}user1_name}" with an empty name becomes "{user1_name}" |
| ConversationStarters.ScanSkipsOneCharacter | backend/backend/src/main/java/com/codewithudo/backend/service/ConversationStarterService.java:135 | a text holding the target from its second character, followed by less than the target's length, loses just that occurrence and keeps the rest |
| ConversationStarters.WithUsage | backend/backend/src/main/java/com/codewithudo/backend/service/ConversationStarterService.java:164-174 | one more use; the new rate times the new count is the old rate times the old count, plus one for a success |
| ConversationStarters.UsageKeepsRateInRange | backend/backend/src/main/java/com/codewithudo/backend/service/ConversationStarterService.java:164-174 | a rate in [0, 1] stays in [0, 1] |
| ConversationStarters.FromSeed | backend/backend/src/main/java/com/codewithudo/backend/service/ConversationStarterService.java:238-250 | the seed's template, category, tags, context and difficulty, unused, active, with rate 0.5 |
| ConversationStarters.Seeded | backend/backend/src/main/java/com/codewithudo/backend/service/ConversationStarterService.java:187-234 | the seeds are stored under consecutive ids, each as its starter |
| ConversationStarters.SeededSize | backend/backend/src/main/java/com/codewithudo/backend/service/ConversationStarterService.java:187-234 | seeding stores one row per seed |
| ConversationStarters.FifteenDefaults | backend/backend/src/main/java/com/codewithudo/backend/service/ConversationStarterService.java:187-234 | there are fifteen default starters |
| ConversationStarters.Picks | backend/backend/src/main/java/com/codewithudo/backend/service/ConversationStarterService.java:33-40 | the skill, interest and industry starters, each query limited to a third of the count, are at most the count together and all active stored starters |
| ConversationStarters.Candidates | backend/backend/src/main/java/com/codewithudo/backend/service/ConversationStarterService.java:31-45 | the skill, interest and industry picks first, followed by a prefix of the general starters; exactly `count` long when the two together have that many, all of them otherwise; all active stored starters |
| ConversationStarters.PoolAppend | backend/backend/src/main/java/com/codewithudo/backend/service/ConversationStarterService.java:34-44 | concatenating lists of active stored starters gives one |
| ConversationStarters.Personalized | backend/backend/src/main/java/com/codewithudo/backend/service/ConversationStarterService.java:48-51 | each starter personalised, in order |
| ConversationStarters.PersonalizedFromPool | backend/backend/src/main/java/com/codewithudo/backend/service/ConversationStarterService.java:48-51 | each result is an active stored starter personalised for the two users |
| ConversationStarters.ConversationStarterService.GeneratePersonalizedStarters | backend/backend/src/main/java/com/codewithudo/backend/service/ConversationStarterService.java:23-52 | "User not found: " with the first missing id; a negative count fails in the stream limit; otherwise the candidates (picks, then general starters) cut at count, each personalised for the two users; so at most count starters, each an active stored starter personalised for the two users |
| ConversationStarters.ConversationStarterService.RecordStarterUsage | backend/backend/src/main/java/com/codewithudo/backend/service/ConversationStarterService.java:159-177 | "Conversation starter not found" with no change; otherwise the starter with its usage recorded |
| ConversationStarters.ConversationStarterService.InitializeDefaultStarters | backend/backend/src/main/java/com/codewithudo/backend/service/ConversationStarterService.java:179-236 | nothing when any starter exists; otherwise exactly the fifteen seeded starters |
| ConversationStarters.ConversationStarterService.InsertSeeds | backend/backend/src/main/java/com/codewithudo/backend/service/ConversationStarterService.java:234 | the table becomes the seeded table |
| ConversationStarters.StoreSeeds | backend/backend/src/main/java/com/codewithudo/backend/service/ConversationStarterService.java:234 | inserting the seeds in order into an empty table stores each under the next id, and the id counter moves past them |
| Departments.FromEntity | backend/backend/src/main/java/com/codewithudo/backend/dto/DepartmentDTO.java:29-41 | every department field is copied; the display names and member count stay null |
| Departments.ActiveMembership | backend/backend/src/main/java/com/codewithudo/backend/repository/UserDepartmentRepository.java:19 | found exactly when the user has an active row in the department, and then it is that row |
| Departments.AddCheck | backend/backend/src/main/java/com/codewithudo/backend/service/DepartmentService.java:128-131 | "User is already in this department" exactly when a row exists, active or not |
| Departments.NewMembership | backend/backend/src/main/java/com/codewithudo/backend/service/DepartmentService.java:133-138 | the saved membership carries the user, department, role and title and is active |
| Departments.AddingKeepsOneRow | backend/backend/src/main/java/com/codewithudo/backend/service/DepartmentService.java:127-141 | adding a membership the check let through keeps one row per user and department |
| Departments.DeactivatedAmong | backend/backend/src/main/java/com/codewithudo/backend/service/DepartmentService.java:117-120 | same keys; exactly the chosen rows are deactivated |
| Departments.DeactivatingKeepsOneRow | backend/backend/src/main/java/com/codewithudo/backend/service/DepartmentService.java:117-120 | deactivation keeps one row per user and department |
| Departments.Removed | backend/backend/src/main/java/com/codewithudo/backend/service/DepartmentService.java:143-152 | the user's row in the department is deactivated when active; every other row unchanged |
| Departments.RemovalLaws | backend/backend/src/main/java/com/codewithudo/backend/service/DepartmentService.java:143-152 | removal is idempotent and keeps one row per member, and the deactivated row still blocks a re-add |
| Departments.NewDepartment | backend/backend/src/main/java/com/codewithudo/backend/service/DepartmentService.java:32-38 | the saved department carries the given fields and is active |
| Departments.CreateCheck | backend/backend/src/main/java/com/codewithudo/backend/service/DepartmentService.java:28-30 | "Department with this name already exists in the company" when the name is taken (inactive departments included); otherwise the head's add check |
| Departments.FreshDepartmentHasNoMembers | backend/backend/src/main/java/com/codewithudo/backend/service/DepartmentService.java:40-45 | a new department's head can always be added, so only the name check can fail |
| Departments.WithoutOldHead | backend/backend/src/main/java/com/codewithudo/backend/service/DepartmentService.java:92-94 | same keys, one row per member kept |
| Departments.UpdateCheck | backend/backend/src/main/java/com/codewithudo/backend/service/DepartmentService.java:77-97 | "Department not found"; a name conflict only for a changed name; a new head already holding a row fails the add check; success otherwise |
| Departments.UnchangedNameNeverConflicts | backend/backend/src/main/java/com/codewithudo/backend/service/DepartmentService.java:81-84 | keeping the name never conflicts |
| Departments.DeleteCheck | backend/backend/src/main/java/com/codewithudo/backend/service/DepartmentService.java:106-113 | "Department not found", or "Cannot delete department with active sub-departments"; success exactly without active children |
| Departments.DeletionEmptiesDepartment | backend/backend/src/main/java/com/codewithudo/backend/service/DepartmentService.java:115-120 | afterwards the department has no active members and other departments' rows are unchanged |
| Departments.DepartmentService.AddUserToDepartment | backend/backend/src/main/java/com/codewithudo/backend/service/DepartmentService.java:127-141 | the add check's answer; on success the new active row under the next id |
| Departments.DepartmentService.RemoveUserFromDepartment | backend/backend/src/main/java/com/codewithudo/backend/service/DepartmentService.java:143-152 | the table becomes the removed table |
| Departments.DepartmentService.CreateDepartment | backend/backend/src/main/java/com/codewithudo/backend/service/DepartmentService.java:26-48 | on a failed check the error and no change; otherwise the new department, plus a HEAD membership when a head is given |
| Departments.DepartmentService.UpdateDepartment | backend/backend/src/main/java/com/codewithudo/backend/service/DepartmentService.java:76-103 | on a failed check the error and no change; otherwise the new name and description, and for a changed head the old head's row deactivated and a HEAD row added |
| Departments.DepartmentService.DeleteDepartment | backend/backend/src/main/java/com/codewithudo/backend/service/DepartmentService.java:105-125 | the delete check's answer; on success all active memberships deactivated and the department deactivated |
| Departments.DepartmentService.DeactivateMembers | backend/backend/src/main/java/com/codewithudo/backend/service/DepartmentService.java:116-120 | the memberships become the deactivated table |
| Departments.DeactivateAll | backend/backend/src/main/java/com/codewithudo/backend/service/DepartmentService.java:116-120 | deactivating each given membership in turn leaves exactly the deactivated table |
| Departments.DepartmentService.GetCompanyDepartments | backend/backend/src/main/java/com/codewithudo/backend/service/DepartmentService.java:50-55 | exactly the DTOs of the company's active departments: each entry is the DTO of such a stored department, and each such department's DTO is there |
| Departments.DepartmentService.GetRootDepartments | backend/backend/src/main/java/com/codewithudo/backend/service/DepartmentService.java:57-62 | exactly the DTOs of the company's active departments without a parent: each entry is the DTO of such a stored department, and each such department's DTO is there |
| Departments.DepartmentService.GetSubDepartments | backend/backend/src/main/java/com/codewithudo/backend/service/DepartmentService.java:64-69 | exactly the DTOs of the active children: each entry is the DTO of one, each one's DTO is there, and the result is empty exactly when there is none |
| Departments.DepartmentService.GetDepartmentById | backend/backend/src/main/java/com/codewithudo/backend/service/DepartmentService.java:71-74 | present exactly when the department exists, active or not |
| Departments.DepartmentService.GetDepartmentMembers | backend/backend/src/main/java/com/codewithudo/backend/service/DepartmentService.java:154-156 | exactly the department's active rows |
| Departments.DepartmentService.GetUserDepartments | backend/backend/src/main/java/com/codewithudo/backend/service/DepartmentService.java:158-160 | exactly the user's active rows |
| Departments.DepartmentService.GetDepartmentMemberCount | backend/backend/src/main/java/com/codewithudo/backend/service/DepartmentService.java:162-164 | the number of the department's active rows |
| LoungeEntities.RoleName | backend/backend/src/main/java/com/codewithudo/backend/entity/LoungeParticipant.java:56-58 | the role's name is "CREATOR" exactly for the creator |
| LoungeEntities.Pieces | backend/backend/src/main/java/com/codewithudo/backend/service/LoungeService.java:287 | at least one piece, none holding a comma |
| LoungeEntities.DropTrailingEmpty | backend/backend/src/main/java/com/codewithudo/backend/service/LoungeService.java:287 | a prefix of the pieces whose dropped tail is all empty and whose last piece is not |
| LoungeEntities.SplitTags | backend/backend/src/main/java/com/codewithudo/backend/service/LoungeService.java:287 | a text without a comma comes back whole; no piece holds a comma; with a comma no trailing empty piece remains |
| LoungeEntities.PiecesOfCommaFree | backend/backend/src/main/java/com/codewithudo/backend/service/LoungeService.java:287 | a comma-free text is one piece |
| LoungeEntities.PiecesOfJoined | backend/backend/src/main/java/com/codewithudo/backend/service/LoungeService.java:287 | a comma-free head and a comma then the rest split into the head and the rest's pieces |
| LoungeEntities.PiecesOfJoinTags | backend/backend/src/main/java/com/codewithudo/backend/service/LoungeService.java:43 | splitting a join on every comma gives back a non-empty list of comma-free tags |
| LoungeEntities.JoinTagsOfPieces | backend/backend/src/main/java/com/codewithudo/backend/service/LoungeService.java:43 | joining the pieces of a text gives it back |
| LoungeEntities.TagsRoundTrip | backend/backend/src/main/java/com/codewithudo/backend/service/LoungeService.java:43 | split after join returns a non-empty list of non-empty comma-free tags |
| LoungeEntities.TagsRoundTripLimits | backend/backend/src/main/java/com/codewithudo/backend/service/LoungeService.java:43 | outside that domain it fails: the empty list comes back as one empty tag, and a trailing empty tag is dropped |
| Lounges.ParticipationOf | backend/backend/src/main/java/com/codewithudo/backend/repository/LoungeParticipantRepository.java:20 | found exactly when the user is an active participant, and then it is that row |
| Lounges.ActiveLounge | backend/backend/src/main/java/com/codewithudo/backend/repository/LoungeRepository.java:39 | found exactly when the lounge exists and is active |
| Lounges.NewLounge | backend/backend/src/main/java/com/codewithudo/backend/service/LoungeService.java:38-48 | the form's fields, the tags comma-joined, the caller as creator, one participant, active, not featured, active now |
| Lounges.NewParticipant | backend/backend/src/main/java/com/codewithudo/backend/service/LoungeService.java:53-58 | the row carries the lounge, user and role, is active and not muted, joined now |
| Lounges.SystemMessage | backend/backend/src/main/java/com/codewithudo/backend/service/LoungeService.java:257-265 | the message carries the lounge, user, content and type, with no reply and neither edited nor deleted |
| Lounges.JoinCheck | backend/backend/src/main/java/com/codewithudo/backend/service/LoungeService.java:121-133 | "Lounge not found", "User is already a participant in this lounge", "Lounge is at maximum capacity" in order; success leaves room for one more |
| Lounges.Joined | backend/backend/src/main/java/com/codewithudo/backend/service/LoungeService.java:146-147 | one more participant and active now; nothing else changes |
| Lounges.LeaveCheck | backend/backend/src/main/java/com/codewithudo/backend/service/LoungeService.java:160-166 | "User is not a participant in this lounge", or the creator's refusal; success gives a non-creator's active row |
| Lounges.Left | backend/backend/src/main/java/com/codewithudo/backend/service/LoungeService.java:175-176 | one participant fewer but never below zero, active now |
| Lounges.SendCheck | backend/backend/src/main/java/com/codewithudo/backend/service/LoungeService.java:197-208 | not a participant, or "User is currently muted" while the mute lasts; success gives the sender's unmuted row |
| Lounges.DeleteLoungeCheck | backend/backend/src/main/java/com/codewithudo/backend/service/LoungeService.java:237-243 | "Lounge not found", or "Only the creator can delete the lounge"; success exactly for the creator of an active lounge |
| Lounges.WithLoungeClosed | backend/backend/src/main/java/com/codewithudo/backend/service/LoungeService.java:249-254 | same rows; only the active flag changes, every row of the lounge ends, other lounges' rows are kept |
| Lounges.ClosingKeepsInvariants | backend/backend/src/main/java/com/codewithudo/backend/service/LoungeService.java:249-254 | closing keeps the membership invariants and leaves the lounge with no active participant |
| Lounges.AddingParticipantKeepsOne | backend/backend/src/main/java/com/codewithudo/backend/service/LoungeService.java:135-145 | a new membership of a user without one keeps one active membership per user and lounge |
| Lounges.FirstParticipantOfNewLounge | backend/backend/src/main/java/com/codewithudo/backend/service/LoungeService.java:52-60 | the creator's membership of a new lounge is its only active one |
| Lounges.ToLoungeDto | backend/backend/src/main/java/com/codewithudo/backend/service/LoungeService.java:267-302 | the lounge's fields, the tags split, the creator's name and email when the user exists, and the viewer's participation and role |
| Lounges.CreatedLoungeShowsItsTags | backend/backend/src/main/java/com/codewithudo/backend/service/LoungeService.java:31-69 | a new lounge shows the tags it was created with, for non-empty comma-free tags |
| Lounges.ToMessageDto | backend/backend/src/main/java/com/codewithudo/backend/service/LoungeService.java:304-333 | the message's fields, the author's name when the user exists, and the replied-to author's name when that message and user exist |
| Lounges.MessageIdsBelow | backend/backend/src/main/java/com/codewithudo/backend/repository/LoungeMessageRepository.java:16 | exactly the lounge's undeleted message ids, in increasing order |
| Lounges.LoungeService.CreateLounge | backend/backend/src/main/java/com/codewithudo/backend/service/LoungeService.java:31-69 | "Lounge with this title already exists" with no change; otherwise the lounge, its creator's membership and a "Lounge created" message; the creator is its only participant |
| Lounges.LoungeService.GetLoungeById | backend/backend/src/main/java/com/codewithudo/backend/service/LoungeService.java:71-76 | the lounge's DTO exactly when it is active, "Lounge not found" otherwise |
| Lounges.LoungeService.ActiveLoungesWhere | backend/backend/src/main/java/com/codewithudo/backend/service/LoungeService.java:78-118 | exactly the DTOs of the active lounges that satisfy the finder's condition, in id order: each entry is the viewer's `ToLoungeDto` of the stored lounge with its id, and each such lounge's DTO is there |
| Lounges.LoungeDtosOfIds | backend/backend/src/main/java/com/codewithudo/backend/service/LoungeService.java:79-82 | one DTO per id, in the same order, each carrying its lounge's id |
| Lounges.LoungeService.ActiveLoungesWhereAgree | backend/backend/src/main/java/com/codewithudo/backend/repository/LoungeRepository.java:18 | conditions that agree on every stored lounge select the same DTOs |
| Lounges.LoungeService.GetAllLounges | backend/backend/src/main/java/com/codewithudo/backend/service/LoungeService.java:78-83 | exactly the DTOs of the active lounges, most recently active first, a lounge without activity last: each entry is the `ToLoungeDto` of the stored lounge with its id |
| Lounges.LoungeService.SearchLounges | backend/backend/src/main/java/com/codewithudo/backend/service/LoungeService.java:85-90 | exactly the DTOs of the active lounges whose title, description or topic is LIKE the term between two `%`, the term's own `%` and `_` acting as wildcards; each entry is the `ToLoungeDto` of the stored lounge with its id |
| Lounges.LoungeService.SearchWithoutWildcardsIsContains | backend/backend/src/main/java/com/codewithudo/backend/repository/LoungeRepository.java:30-31 | for a term without `%` or `_` the search is a substring search of the title, the description or the topic |
| Lounges.LoungeService.GetLoungesByTopic | backend/backend/src/main/java/com/codewithudo/backend/service/LoungeService.java:92-97 | exactly the DTOs of the active lounges whose topic contains the term ignoring case; each entry is the `ToLoungeDto` of the stored lounge with its id |
| Lounges.LoungeService.GetLoungesByCategory | backend/backend/src/main/java/com/codewithudo/backend/service/LoungeService.java:99-104 | exactly the DTOs of the active lounges with a category that contains the term ignoring case; each entry is the `ToLoungeDto` of the stored lounge with its id |
| Lounges.LoungeService.GetFeaturedLounges | backend/backend/src/main/java/com/codewithudo/backend/service/LoungeService.java:106-111 | exactly the DTOs of the active featured lounges; each entry is the `ToLoungeDto` of the stored lounge with its id |
| Lounges.LoungeService.GetUserLounges | backend/backend/src/main/java/com/codewithudo/backend/service/LoungeService.java:113-118 | exactly the DTOs of the active lounges the user created; each entry is the `ToLoungeDto` of the stored lounge with its id |
| Lounges.PercentMatchesAll | backend/backend/src/main/java/com/codewithudo/backend/repository/LoungeRepository.java:30 | a lone `%` matches every text |
| Lounges.Like | backend/backend/src/main/java/com/codewithudo/backend/repository/LoungeRepository.java:30 | JPQL LIKE with `%` and `_` as wildcards and no escape; a pattern without wildcards matches exactly itself |
| Lounges.LikePrefix | backend/backend/src/main/java/com/codewithudo/backend/repository/LoungeRepository.java:30 | `t%` for a wildcard-free `t` matches exactly the texts that start with `t` |
| Lounges.LikeInfixIsContains | backend/backend/src/main/java/com/codewithudo/backend/repository/LoungeRepository.java:30 | `%t%` for a wildcard-free `t` matches exactly the texts that contain `t` |
| Lounges.UnderscoreMatchesAnyCharacter | backend/backend/src/main/java/com/codewithudo/backend/repository/LoungeRepository.java:30 | an underscore in the term matches any character: `%a_%` finds "ab", which does not contain "a_" |
| Lounges.LoungeService.TopicSearchIgnoresCase | backend/backend/src/main/java/com/codewithudo/backend/repository/LoungeRepository.java:18 | the topic search does not depend on the case of the term |
| Lounges.LoungeService.JoinLounge | backend/backend/src/main/java/com/codewithudo/backend/service/LoungeService.java:120-157 | on a failed check the error and no change; otherwise a MEMBER row, one more participant and a JOIN message, never above the maximum |
| Lounges.LoungeService.LeaveLounge | backend/backend/src/main/java/com/codewithudo/backend/service/LoungeService.java:159-181 | on a failed check the error and no change; otherwise the membership ends, and for an active lounge the counter drops and a LEAVE message is logged, else "Lounge not found" with the membership already ended |
| Lounges.LoungeService.GetLoungeMessages | backend/backend/src/main/java/com/codewithudo/backend/service/LoungeService.java:183-193 | the participant check; then exactly the lounge's undeleted messages in id order, each as the `ToMessageDto` of the stored message |
| Lounges.LiveMessages | backend/backend/src/main/java/com/codewithudo/backend/service/LoungeService.java:189-192 | every listed message is the `ToMessageDto` of a stored message of the lounge that is not deleted, ids strictly increase, and every such message of the table is listed |
| Lounges.LoungeService.SendMessage | backend/backend/src/main/java/com/codewithudo/backend/service/LoungeService.java:195-234 | on a failed check the error and no change; otherwise the message is saved, and for an active lounge the lounge and the sender become active now, else "Lounge not found" with the message kept |
| Lounges.LoungeService.DeleteLounge | backend/backend/src/main/java/com/codewithudo/backend/service/LoungeService.java:236-255 | on a failed check the error and no change; otherwise the lounge becomes inactive and all its memberships end |
| Lounges.LoungeService.CloseParticipations | backend/backend/src/main/java/com/codewithudo/backend/service/LoungeService.java:250-254 | the memberships become the closed table and nobody participates any more |
| Lounges.EndingParticipationKeepsInvariants | backend/backend/src/main/java/com/codewithudo/backend/service/LoungeService.java:169-170 | ending one membership keeps the membership invariants |
| Lounges.TouchingParticipationKeepsInvariants | backend/backend/src/main/java/com/codewithudo/backend/service/LoungeService.java:227-228 | changing a membership's last activity keeps the membership invariants |
| Common.JavaDiv | backend/backend/src/main/java/com/codewithudo/backend/dto/BadgeProgressDTO.java:113 | Java's `/` on `int`: for a positive divisor, Euclidean division of a non-negative dividend and, for a negative dividend, the negated quotient of its size, so rounding toward zero |
| Common.PlusMonths | backend/backend/src/main/java/com/codewithudo/backend/service/SubscriptionService.java:60 | the same time of day, on the date moved by the months with the day clamped to the month's length |
| Common.PlusDays | backend/backend/src/main/java/com/codewithudo/backend/service/MeetingSchedulingService.java:229 | `plusDays`: the date moves by the number of days, the time of day stays |
| Common.DayOfWeek | backend/backend/src/main/java/com/codewithudo/backend/service/MeetingSchedulingService.java:233 | ISO day of week, 1 to 7, Thursday on the epoch day and every seventh day from it |
| Common.PlusYears | backend/backend/src/main/java/com/codewithudo/backend/service/SubscriptionService.java:62 | `plusYears`: the same time of day, the date moved by twelve months per year |
| Common.ToLower | backend/backend/src/main/java/com/codewithudo/backend/repository/LoungeRepository.java:18 | the same length, each character lower-cased |
| Common.Trim | backend/backend/src/main/java/com/codewithudo/backend/service/ConversationStarterService.java:118 | a slice of the input with no code point up to U+0020 at either end |
| Common.TrimStartSlice | backend/backend/src/main/java/com/codewithudo/backend/service/ConversationStarterService.java:118 | stripping the start leaves a suffix not starting with a trimmable code point |
| Common.TrimEndSlice | backend/backend/src/main/java/com/codewithudo/backend/service/ConversationStarterService.java:118 | stripping the end leaves a prefix not ending with a trimmable code point, and keeps a non-trimmable first character |
| Common.BlankIffAllTrimmed | backend/backend/src/main/java/com/codewithudo/backend/service/SearchService.java:33 | a string is blank exactly when every code point of it is one that trim removes |
| Common.TrimStartOfTrimmed | backend/backend/src/main/java/com/codewithudo/backend/service/SearchService.java:33 | stripping the start of an all-trimmable string leaves nothing |
| Common.TrimStartKeepsVisible | backend/backend/src/main/java/com/codewithudo/backend/service/SearchService.java:33 | stripping the start keeps something when a non-trimmable code point exists |
| Common.TrimEndKeepsFirst | backend/backend/src/main/java/com/codewithudo/backend/service/SearchService.java:33 | stripping the end keeps something when the first code point is not trimmable |
| Common.ReplaceAll | backend/backend/src/main/java/com/codewithudo/backend/service/ConversationStarterService.java:135-140 | text shorter than the target is left as it is |
| Common.ReplaceAllWithoutOccurrence | backend/backend/src/main/java/com/codewithudo/backend/service/ConversationStarterService.java:135-140 | text without an occurrence of the target is left as it is |
| Common.ReplaceAllSkips | backend/backend/src/main/java/com/codewithudo/backend/service/ConversationStarterService.java:135-140 | text without the target's first character passes through and replacement goes on after it |
| Common.ReplaceAllSplices | backend/backend/src/main/java/com/codewithudo/backend/service/ConversationStarterService.java:135-140 | an occurrence of the target after text without the target's first character becomes the replacement, and replacement goes on after it |
| Common.Take | backend/backend/src/main/java/com/codewithudo/backend/service/SearchService.java:118 | `limit(n)`: a prefix of length n, or all when shorter, and nothing for n at most 0 |
| Common.LowerIsIdempotent | backend/backend/src/main/java/com/codewithudo/backend/repository/LoungeRepository.java:18 | lower-casing twice is lower-casing once |
| Tables.SelectedIds | backend/backend/src/main/java/com/codewithudo/backend/repository/LoungeRepository.java:18-28 | ids below the bound of exactly the stored rows the condition selects, in increasing order |
| Tables.SelectedIdsAgree | backend/backend/src/main/java/com/codewithudo/backend/repository/LoungeRepository.java:18-28 | conditions that agree on every stored row select the same ids |
| Tables.SelectedRows | backend/backend/src/main/java/com/codewithudo/backend/repository/ConversationStarterRepository.java:16 | only stored rows the condition selects, and every such row below the bound |
| Tables.InsertDescendingPermutes | backend/backend/src/main/java/com/codewithudo/backend/repository/LoungeRepository.java:16 | inserting adds exactly the new element |
| Tables.InsertDescendingKeepsOrder | backend/backend/src/main/java/com/codewithudo/backend/repository/LoungeRepository.java:16 | inserting into a list in descending key order, nulls last, keeps it so |
| Tables.SortDescending | backend/backend/src/main/java/com/codewithudo/backend/repository/LoungeRepository.java:16 | `ORDER BY key DESC`: in descending key order with nulls last, and a permutation of the input |
| Tables.SortedMembers | backend/backend/src/main/java/com/codewithudo/backend/repository/LoungeRepository.java:16 | sorting keeps exactly the elements |
| MentorshipEntities.ParseProgramType | backend/backend/src/main/java/com/codewithudo/backend/entity/MentorshipProgram.java:55-63 | `ProgramType.valueOf`: a parsed type has exactly the given name |
| MentorshipEntities.ProgramTypeNameRoundTrip | backend/backend/src/main/java/com/codewithudo/backend/entity/MentorshipProgram.java:55-63 | every program type parses back from its own `name()` |
| MentorshipEntities.ProgramTypeName | backend/backend/src/main/java/com/codewithudo/backend/entity/MentorshipProgram.java:55-63 | `name()`: a non-empty constant name of upper-case letters and underscores |
| MentorshipEntities.ParseSessionType | backend/backend/src/main/java/com/codewithudo/backend/entity/MentorshipSession.java:59-68 | `SessionType.valueOf`: a parsed type has exactly the given name |
| MentorshipEntities.SessionTypeNameRoundTrip | backend/backend/src/main/java/com/codewithudo/backend/entity/MentorshipSession.java:59-68 | every session type parses back from its own `name()` |
| MentorshipEntities.SessionTypeName | backend/backend/src/main/java/com/codewithudo/backend/entity/MentorshipSession.java:59-68 | `name()`: a non-empty constant name of upper-case letters and underscores |
| MentorshipProgramDtos.FromProgram | backend/backend/src/main/java/com/codewithudo/backend/dto/MentorshipProgramDTO.java:27-41 | the DTO copies each field of the entity, its type as a name that parses back to the entity's type; both participant counts stay null |
| MentorshipProgramDtos.ProgramTypeDisplay | backend/backend/src/main/java/com/codewithudo/backend/dto/MentorshipProgramDTO.java:165-167 | the display keeps the length and holds at each position the name's character lower-cased, an underscore becoming a space; so no underscore or capital remains |
| MentorshipProgramDtos.ProgramTypeDisplayIsInjective | backend/backend/src/main/java/com/codewithudo/backend/dto/MentorshipProgramDTO.java:165-167 | two valid program types with the same display are the same type |
| MentorshipProgramDtos.DisplayCharIsInjective | backend/backend/src/main/java/com/codewithudo/backend/dto/MentorshipProgramDTO.java:165-167 | on capitals and underscores the display's character mapping is one-to-one |
| MentorshipProgramDtos.TechnicalSkillsDisplay | backend/backend/src/main/java/com/codewithudo/backend/dto/MentorshipProgramDTO.java:165-167 | TECHNICAL_SKILLS displays as "technical skills" |
| MentorshipProgramDtos.UpperOrUnderscore | backend/backend/src/main/java/com/codewithudo/backend/entity/MentorshipProgram.java:55-63 | every character of a valid type name is a capital or an underscore |
| MentorshipProgramDtos.StatusDisplay | backend/backend/src/main/java/com/codewithudo/backend/dto/MentorshipProgramDTO.java:169-180 | each of the five labels is shown exactly under its condition, checked in order: inactive, full (both counts set and current ≥ max), not yet started, ended, otherwise active |
| MentorshipProgramDtos.FreshDtoIsNeverFull | backend/backend/src/main/java/com/codewithudo/backend/dto/MentorshipProgramDTO.java:27-41 | a DTO built straight from an entity is never "Full", and is "Active" when active and within its dates |
| Mentorships.ToDto | backend/backend/src/main/java/com/codewithudo/backend/service/MentorshipService.java:259-272 | the entity's fields, plus the program's number of relationships as the current count and ten times the per-mentor cap (null without a cap) as the maximum |
| Mentorships.ProgramFullness | backend/backend/src/main/java/com/codewithudo/backend/service/MentorshipService.java:259-272 | a program's DTO is full exactly when it has a per-mentor cap and at least ten times that many relationships |
| Mentorships.NewProgram | backend/backend/src/main/java/com/codewithudo/backend/service/MentorshipService.java:46-66 | the saved program carries the form's fields and the parsed type, and is active |
| Mentorships.ProgramUpdated | backend/backend/src/main/java/com/codewithudo/backend/service/MentorshipService.java:68-86 | updateProgram sets every editable field from the form, including isActive, and keeps the id and the company |
| Mentorships.RelationshipCheck | backend/backend/src/main/java/com/codewithudo/backend/service/MentorshipService.java:109-123 | no result for an unknown program; unboxing a null cap throws; a mentor holding as many relationships as the cap is refused with "Mentor has reached maximum number of mentees"; otherwise the program is returned |
| Mentorships.NewRelationship | backend/backend/src/main/java/com/codewithudo/backend/service/MentorshipService.java:109-123 | the saved relationship is PENDING, started now, with no end, notes, ratings or feedback |
| Mentorships.NewRelationshipCounts | backend/backend/src/main/java/com/codewithudo/backend/service/MentorshipService.java:109-123 | saving a new relationship adds exactly its id to the mentor's relationships, so the count the cap is checked against grows by one |
| Mentorships.StatusUpdated | backend/backend/src/main/java/com/codewithudo/backend/service/MentorshipService.java:125-138 | the new status is set; ACTIVE also stamps the start and COMPLETED the end; nothing else changes |
| Mentorships.WithFeedback | backend/backend/src/main/java/com/codewithudo/backend/service/MentorshipService.java:140-154 | the mentor's feedback and rating when the user is the mentor, else the mentee's when the user is the mentee, else no change |
| Mentorships.FeedbackIsRouted | backend/backend/src/main/java/com/codewithudo/backend/service/MentorshipService.java:140-154 | feedback never changes the other party's fields or the status |
| Mentorships.NewSession | backend/backend/src/main/java/com/codewithudo/backend/service/MentorshipService.java:161-176 | the saved session carries the form's fields and the parsed type, is SCHEDULED and has no notes |
| Mentorships.SessionUpdated | backend/backend/src/main/java/com/codewithudo/backend/service/MentorshipService.java:178-193 | updateSession sets every editable field from the form, including the notes and action items |
| Mentorships.WithNotes | backend/backend/src/main/java/com/codewithudo/backend/service/MentorshipService.java:205-219 | "mentor" notes go to the mentor's field, "mentee" to the mentee's, anything else to the general notes |
| Mentorships.NotesAreRouted | backend/backend/src/main/java/com/codewithudo/backend/service/MentorshipService.java:205-219 | each call writes exactly one of the three note fields |
| Mentorships.MentorshipService.constructor | backend/backend/src/main/java/com/codewithudo/backend/service/MentorshipService.java:19-32 | the service over its three repositories |
| Mentorships.MentorshipService.GetActivePrograms | backend/backend/src/main/java/com/codewithudo/backend/service/MentorshipService.java:34-39 | the DTOs of exactly the company's active programs: each entry is the DTO of such a stored program, and each such program's DTO is there |
| Mentorships.MentorshipService.GetProgramById | backend/backend/src/main/java/com/codewithudo/backend/service/MentorshipService.java:41-44 | the program's DTO when the id is stored, else null |
| Mentorships.MentorshipService.CreateProgram | backend/backend/src/main/java/com/codewithudo/backend/service/MentorshipService.java:46-66 | an unknown type name throws and saves nothing; otherwise the new program is stored under a fresh id and returned with no participants |
| Mentorships.MentorshipService.UpdateProgram | backend/backend/src/main/java/com/codewithudo/backend/service/MentorshipService.java:68-86 | null and no change for an unknown id; an unknown type name throws with no change; otherwise only that row is replaced by its updated form |
| Mentorships.MentorshipService.DeleteProgram | backend/backend/src/main/java/com/codewithudo/backend/service/MentorshipService.java:88-94 | true exactly when the program existed; the program is removed together with its relationships and their sessions, and nothing else is touched |
| Mentorships.MentorshipService.GetUserRelationships | backend/backend/src/main/java/com/codewithudo/backend/service/MentorshipService.java:97-99 | exactly the relationships where the user is mentor or mentee |
| Mentorships.MentorshipService.GetMentorRelationships | backend/backend/src/main/java/com/codewithudo/backend/service/MentorshipService.java:101-103 | exactly the relationships with that mentor |
| Mentorships.MentorshipService.GetMenteeRelationships | backend/backend/src/main/java/com/codewithudo/backend/service/MentorshipService.java:105-107 | exactly the relationships with that mentee |
| Mentorships.MentorshipService.CreateRelationship | backend/backend/src/main/java/com/codewithudo/backend/service/MentorshipService.java:109-123 | the outcome of the checks; only when they pass is a new PENDING relationship stored under a fresh id |
| Mentorships.MentorshipService.UpdateRelationshipStatus | backend/backend/src/main/java/com/codewithudo/backend/service/MentorshipService.java:125-138 | null and no change for an unknown id; otherwise only that row is replaced by its status update |
| Mentorships.MentorshipService.AddFeedback | backend/backend/src/main/java/com/codewithudo/backend/service/MentorshipService.java:140-154 | null and no change for an unknown id; otherwise only that row is replaced and saved, even when the user is neither party |
| Mentorships.MentorshipService.GetRelationshipSessions | backend/backend/src/main/java/com/codewithudo/backend/service/MentorshipService.java:157-159 | exactly the sessions of that relationship, latest session date first |
| Mentorships.MentorshipService.CreateSession | backend/backend/src/main/java/com/codewithudo/backend/service/MentorshipService.java:161-176 | null for an unknown relationship; an unknown type name throws; otherwise a new SCHEDULED session is stored under a fresh id; only in that case does anything change |
| Mentorships.MentorshipService.UpdateSession | backend/backend/src/main/java/com/codewithudo/backend/service/MentorshipService.java:178-193 | null and no change for an unknown id; the type error leaves everything as it was; otherwise only that row is replaced |
| Mentorships.MentorshipService.UpdateSessionStatus | backend/backend/src/main/java/com/codewithudo/backend/service/MentorshipService.java:195-203 | null and no change for an unknown id; otherwise only that row gets the new status |
| Mentorships.MentorshipService.AddSessionNotes | backend/backend/src/main/java/com/codewithudo/backend/service/MentorshipService.java:205-219 | null and no change for an unknown id; otherwise only that row gets the note, in the field its type selects |
| Payments.NewPayment | backend/backend/src/main/java/com/codewithudo/backend/entity/Payment.java:24-42 | a new payment is PENDING in USD, with the given subscription, company, amount and method, and not yet processed |
| Payments.PaymentStatesExclusive | backend/backend/src/main/java/com/codewithudo/backend/entity/Payment.java:80-94 | successful, failed and pending exclude each other; refundable implies successful; exactly the canceled and refunded payments are none of the three; a new payment is pending |
| Payments.PaymentDisplaysAreInjective | backend/backend/src/main/java/com/codewithudo/backend/entity/Payment.java:96-117 | every status has a non-empty label and a seven-character colour starting with '#', and no two statuses share either |
| Payments.StatusDisplay | backend/backend/src/main/java/com/codewithudo/backend/entity/Payment.java:96-105 | a capitalised label for each payment status |
| Payments.StatusColor | backend/backend/src/main/java/com/codewithudo/backend/entity/Payment.java:107-116 | a `#rrggbb` colour for each payment status |
| Subscriptions.Ordinal | backend/backend/src/main/java/com/codewithudo/backend/entity/Subscription.java:86-90 | the declaration position of a plan lies in 0..3 |
| Subscriptions.PlanTableIsMonotone | backend/backend/src/main/java/com/codewithudo/backend/entity/Subscription.java:86-90 | a later plan costs more and takes more employees and has at least the earlier one's features; no two plans share a price; no price is negative |
| Subscriptions.Details | backend/backend/src/main/java/com/codewithudo/backend/entity/Subscription.java:86-115 | the plan table: non-negative prices, positive employee caps, capitalised names; only FREE costs nothing; priority support comes with the other two features |
| Subscriptions.YearlyDiscount | backend/backend/src/main/java/com/codewithudo/backend/service/SubscriptionService.java:62-68 | a yearly charge is exactly 80 % of twelve monthly ones; the monthly charge is the plan's price in cents (BASIC: 29.00 a month, 278.40 a year) |
| Subscriptions.PlanAmount | backend/backend/src/main/java/com/codewithudo/backend/service/SubscriptionService.java:64-71 | a non-negative charge, zero exactly for FREE; a yearly charge is never more than twelve months |
| Subscriptions.IsActive | backend/backend/src/main/java/com/codewithudo/backend/entity/Subscription.java:126-128 | active exactly for the statuses other than PAST_DUE, CANCELED and UNPAID |
| Subscriptions.IsTrialActive | backend/backend/src/main/java/com/codewithudo/backend/entity/Subscription.java:130-132 | not in trial exactly when there is no trial end or it is not after now |
| Subscriptions.IsCanceled | backend/backend/src/main/java/com/codewithudo/backend/entity/Subscription.java:134-136 | not canceled exactly when the status is not CANCELED and no cancellation at period end is set; canceled without one means neither ACTIVE nor TRIALING |
| Subscriptions.AnnualAmount | backend/backend/src/main/java/com/codewithudo/backend/entity/Subscription.java:149-155 | a monthly amount times a whole twelve; never below a non-negative amount |
| Subscriptions.Fresh | backend/backend/src/main/java/com/codewithudo/backend/entity/Subscription.java:32-63 | a `new Subscription()` with the given fields set keeps the defaults: not set to cancel, USD, no Stripe ids |
| Subscriptions.NextBillingDate | backend/backend/src/main/java/com/codewithudo/backend/entity/Subscription.java:142-147 | no next billing date exactly for a subscription canceled immediately; otherwise the period end |
| Subscriptions.DivideHalfUp | backend/backend/src/main/java/com/codewithudo/backend/entity/Subscription.java:157-163 | `divide(…, ROUND_HALF_UP)`: the quotient is within half a divisor of the exact one, and a tie rounds away from zero |
| Subscriptions.HalfUpMagnitude | backend/backend/src/main/java/com/codewithudo/backend/entity/Subscription.java:157-163 | for a non-negative dividend the result is the nearest quotient, a tie rounding up |
| Subscriptions.MonthlyAmount | backend/backend/src/main/java/com/codewithudo/backend/entity/Subscription.java:157-163 | the amount itself when billed monthly; a yearly amount divided by twelve to the nearest cent |
| Subscriptions.AmountsAgree | backend/backend/src/main/java/com/codewithudo/backend/entity/Subscription.java:149-163 | the annual amount of a monthly subscription is twelve monthly ones, and so is that of a yearly one whose amount divides into twelve |
| Subscriptions.YearlyPlanMonthlyAmount | backend/backend/src/main/java/com/codewithudo/backend/entity/Subscription.java:149-163 | a plan billed yearly shows 80 % of its monthly price as its monthly amount, and its yearly charge as its annual amount |
| SubscriptionDtos.ToDto | backend/backend/src/main/java/com/codewithudo/backend/service/SubscriptionService.java:291-315 | convertToDto copies every field of the subscription |
| SubscriptionDtos.DtoHelpersAgree | backend/backend/src/main/java/com/codewithudo/backend/dto/SubscriptionDTO.java:201-238 | the DTO's own helpers give the same answers as the entity's |
| SubscriptionDtos.StatusDisplaysAreInjective | backend/backend/src/main/java/com/codewithudo/backend/dto/SubscriptionDTO.java:240-258 | every status has a non-empty label and a '#' colour of seven characters, and no two statuses share either |
| SubscriptionDtos.StatusDisplay | backend/backend/src/main/java/com/codewithudo/backend/dto/SubscriptionDTO.java:240-248 | a capitalised label for each subscription status |
| SubscriptionDtos.StatusColor | backend/backend/src/main/java/com/codewithudo/backend/dto/SubscriptionDTO.java:250-258 | a `#rrggbb` colour for each subscription status |
| SubscriptionDtos.PlanGetters | backend/backend/src/main/java/com/codewithudo/backend/dto/SubscriptionDTO.java:260-278 | only the free plan lacks advanced features and analytics; priority support comes only with PREMIUM and ENTERPRISE; the employee cap is between 10 and 1000; only FREE displays as "Free" |
| SubscriptionService.TierOf | backend/backend/src/main/java/com/codewithudo/backend/service/SubscriptionService.java:77-80 | `SubscriptionTier.valueOf(planType.name())`: the free plan and only it maps to the free tier |
| SubscriptionService.TierOfIsInjective | backend/backend/src/main/java/com/codewithudo/backend/service/SubscriptionService.java:77-80 | every plan maps to its own tier |
| SubscriptionService.Created | backend/backend/src/main/java/com/codewithudo/backend/service/SubscriptionService.java:46-70 | the new subscription is TRIALING for 14 days from now, so active and not canceled; its first period starts now and lasts a month or a year; it is charged the plan's amount |
| SubscriptionService.Replanned | backend/backend/src/main/java/com/codewithudo/backend/service/SubscriptionService.java:121-131 | the plan and its amount for the same billing cycle change, and nothing else does |
| SubscriptionService.CancelEffects | backend/backend/src/main/java/com/codewithudo/backend/service/SubscriptionService.java:161-173 | canceling at the period end only raises the flag, so the status and the next billing date stay; an immediate cancel makes the subscription inactive and stamps both times; either way it counts as canceled |
| SubscriptionService.Reactivated | backend/backend/src/main/java/com/codewithudo/backend/service/SubscriptionService.java:196-208 | the subscription is ACTIVE and not canceled, with no cancel or end time and a new period from now; plan, amount and cycle are kept |
| SubscriptionService.RenewalEffects | backend/backend/src/main/java/com/codewithudo/backend/service/SubscriptionService.java:262-280 | renewal leaves an inactive or canceled subscription alone, including one set to cancel at period end; otherwise it opens a new period and ends a trial that is over; activity and cancellation never change |
| SubscriptionService.UpgradeMeansLaterPlan | backend/backend/src/main/java/com/codewithudo/backend/service/SubscriptionService.java:237-248 | with a current plan, an upgrade is exactly a move to a later plan; the same plan is refused; with no active subscription every plan is allowed |
| SubscriptionService.InsertKeepsOneActive | backend/backend/src/main/java/com/codewithudo/backend/repository/SubscriptionRepository.java:16-20 | saving a subscription for a company with no active one keeps at most one active subscription per company |
| SubscriptionService.SameActivityKeepsOneActive | backend/backend/src/main/java/com/codewithudo/backend/repository/SubscriptionRepository.java:16-20 | replacing a row by one of the same company and the same activity keeps at most one active subscription per company |
| SubscriptionService.ReactivationCanDuplicateActive | backend/backend/src/main/java/com/codewithudo/backend/service/SubscriptionService.java:187-218 | reactivating a canceled subscription whose company has since got a new active one leaves two active subscriptions, after which every active lookup fails |
| SubscriptionService.SubscribeCheck | backend/backend/src/main/java/com/codewithudo/backend/service/SubscriptionService.java:34-44 | "Company not found" for an unknown company; a company with one active subscription is refused with "Company already has an active subscription"; several make the lookup throw; otherwise the creation may go ahead |
| SubscriptionService.SmallSetIsSingleton | backend/backend/src/main/java/com/codewithudo/backend/repository/SubscriptionRepository.java:16-20 | a set of at most one element holding x is {x}, the one row a unique-result query returns |
| SubscriptionService.SubscriptionService.constructor | backend/backend/src/main/java/com/codewithudo/backend/service/SubscriptionService.java:21-25 | the service over the subscription and company repositories |
| SubscriptionService.SubscriptionService.FindActiveByCompanyId | backend/backend/src/main/java/com/codewithudo/backend/repository/SubscriptionRepository.java:16-20 | nothing when the company has no ACTIVE or TRIALING subscription, that one when there is exactly one, and the non-unique-result error otherwise |
| SubscriptionService.SubscriptionService.CreateSubscription | backend/backend/src/main/java/com/codewithudo/backend/service/SubscriptionService.java:31-85 | the outcome of the checks; on an error nothing changes; otherwise the new trial subscription is stored under a fresh id and the company's tier follows the plan; at most one active subscription per company is kept |
| SubscriptionService.SubscriptionService.Subscribe | backend/backend/src/main/java/com/codewithudo/backend/service/SubscriptionService.java:46-84 | once the checks have passed, stores the new subscription and sets the company's tier; at most one active subscription per company is kept |
| SubscriptionService.SubscriptionService.GetActiveSubscription | backend/backend/src/main/java/com/codewithudo/backend/service/SubscriptionService.java:90-93 | the DTO of the company's one active subscription, nothing when it has none, a failure when it has several |
| SubscriptionService.SubscriptionService.GetCompanySubscriptions | backend/backend/src/main/java/com/codewithudo/backend/service/SubscriptionService.java:98-103 | the DTOs of exactly the company's subscriptions: each entry is the DTO of one of its stored subscriptions, and each one's DTO is there |
| SubscriptionService.SubscriptionService.UpdateSubscriptionPlan | backend/backend/src/main/java/com/codewithudo/backend/service/SubscriptionService.java:109-146 | "Subscription not found" or "Cannot update inactive subscription" leave everything as it was; otherwise the row is replanned and the company's tier, if the company exists, follows the new plan |
| SubscriptionService.SubscriptionService.CancelSubscription | backend/backend/src/main/java/com/codewithudo/backend/service/SubscriptionService.java:152-181 | "Subscription not found" leaves everything as it was; otherwise the row is canceled as asked, and an immediate cancellation drops the company to the FREE tier |
| SubscriptionService.SubscriptionService.ReactivateSubscription | backend/backend/src/main/java/com/codewithudo/backend/service/SubscriptionService.java:187-218 | "Subscription not found" or "Subscription is not canceled" leave everything as it was; only a CANCELED subscription is reactivated, and the company's tier is left alone |
| SubscriptionService.SubscriptionService.GetAvailablePlanTypes | backend/backend/src/main/java/com/codewithudo/backend/service/SubscriptionService.java:223-225 | the four plans in declaration order, strictly rising in price |
| SubscriptionService.SubscriptionService.CanUpgradeToPlan | backend/backend/src/main/java/com/codewithudo/backend/service/SubscriptionService.java:237-248 | true without an active subscription; with exactly one, whether the plan costs more than the current plan; a failure when the company has several |
| SubscriptionService.SubscriptionService.ProcessSubscriptionRenewal | backend/backend/src/main/java/com/codewithudo/backend/service/SubscriptionService.java:254-286 | an unknown id changes nothing; otherwise only that row is replaced by its renewal; at most one active subscription per company is kept |
| Users.Profile | backend/backend/src/main/java/com/codewithudo/backend/dto/UserProfileDto.java:24-39 | `UserProfileDto.fromUser` copies every field of the user except the password hash |
| Users.NewUser | backend/backend/src/main/java/com/codewithudo/backend/service/UserService.java:48-58 | the registered user has the form's fields, the encoded password, role USER and is active |
| Users.UpdatedProfile | backend/backend/src/main/java/com/codewithudo/backend/service/UserService.java:87-109 | each non-null field of the update among name, industry, skills, interests and linkedinUrl overwrites the user's, and every other field is kept; email, password, company, role and activity are never touched |
| Users.ProfileUpdateLaws | backend/backend/src/main/java/com/codewithudo/backend/service/UserService.java:87-109 | an all-null update leaves the user unchanged, and applying an update twice is applying it once |
| Users.RegisterKeepsEmailsUnique | backend/backend/src/main/java/com/codewithudo/backend/service/UserService.java:43-62 | saving a user whose address is not yet taken keeps addresses unique |
| Users.SameEmailKeepsUnique | backend/backend/src/main/java/com/codewithudo/backend/service/UserService.java:87-116 | replacing a user by one with the same address keeps addresses unique |
| Users.UserService.constructor | backend/backend/src/main/java/com/codewithudo/backend/service/UserService.java:19-25 | the service over the user repository |
| Users.UserService.RegisterUser | backend/backend/src/main/java/com/codewithudo/backend/service/UserService.java:43-62 | "Email already registered" and no change when the address is taken; otherwise the new user is stored under a fresh id and its profile returned; unique addresses are kept |
| Users.UserService.GetUserProfile | backend/backend/src/main/java/com/codewithudo/backend/service/UserService.java:64-67 | the user's profile when the id is stored, else nothing |
| Users.UserService.GetAllActiveUsers | backend/backend/src/main/java/com/codewithudo/backend/service/UserService.java:74-79 | the profiles of exactly the active users |
| Users.UserService.UpdateUserProfile | backend/backend/src/main/java/com/codewithudo/backend/service/UserService.java:87-109 | "User not found" and no change for an unknown id; otherwise only that user is replaced by its updated profile |
| Users.UserService.DeactivateUser | backend/backend/src/main/java/com/codewithudo/backend/service/UserService.java:111-116 | "User not found" and no change for an unknown id; otherwise only that user's active flag is cleared |
| Users.DeactivatedUserLeavesListing | backend/backend/src/main/java/com/codewithudo/backend/service/UserService.java:111-116 | after deactivation exactly the other active users remain active, and deactivating again changes nothing |
| UserInsightEntities.ParseInsightType | backend/backend/src/main/java/com/codewithudo/backend/entity/UserInsight.java:66-77 | a parsed type has exactly the given name |
| UserInsightEntities.InsightTypeNameRoundTrip | backend/backend/src/main/java/com/codewithudo/backend/entity/UserInsight.java:66-77 | every insight type parses back from its own `name()` |
| UserInsightEntities.NewInsight | backend/backend/src/main/java/com/codewithudo/backend/entity/UserInsight.java:82-92 | the five-argument constructor gives an unread, not-actioned insight created and updated now, with no confidence, priority, expiry or feedback, so it is not expired |
| UserInsightEntities.InsightTypeDisplay | backend/backend/src/main/java/com/codewithudo/backend/entity/UserInsight.java:245-247 | the display has the name's length, each underscore becomes a space and each letter is lower-cased, so no underscore or capital remains |
| UserInsightEntities.ExpiryIsPermanent | backend/backend/src/main/java/com/codewithudo/backend/entity/UserInsight.java:249-251 | once expired an insight stays expired; without an expiry it never expires; with one it is expired exactly after that time |
| UserInsightEntities.PriorityDisplay | backend/backend/src/main/java/com/codewithudo/backend/entity/UserInsight.java:253-263 | levels 1, 3 and 4 show as Low, High and Critical; null, 2 and every other level show as Normal |
| UserInsightDtos.ToInsight | backend/backend/src/main/java/com/codewithudo/backend/dto/UserInsightDTO.java:34-56 | reading the entity back from a DTO gives an insight whose type has the DTO's type name and whose id is the DTO's |
| UserInsightDtos.FromInsight | backend/backend/src/main/java/com/codewithudo/backend/dto/UserInsightDTO.java:34-56 | reading the entity back from the DTO gives the insight itself: every field is copied and the type kept by name |
| UserInsightDtos.FromInsightRoundTrip | backend/backend/src/main/java/com/codewithudo/backend/dto/UserInsightDTO.java:34-56 | the DTO's derived fields are the entity's display helpers at that time (the round trip itself is FromInsight's contract) |
| UserInsightDtos.FromInsightIsInjective | backend/backend/src/main/java/com/codewithudo/backend/dto/UserInsightDTO.java:34-56 | distinct insights give distinct DTOs at the same time |
| UserInsightDtos.ConfidenceDisplay | backend/backend/src/main/java/com/codewithudo/backend/dto/UserInsightDTO.java:228-233 | Unknown without a score, High from 0.8 up, Medium from 0.6 to below 0.8, Low below 0.6 |
| UserInsightDtos.ConfidenceDisplayIsMonotone | backend/backend/src/main/java/com/codewithudo/backend/dto/UserInsightDTO.java:228-233 | a higher score never shows a lower confidence |
| UserInsightDtos.StatusDisplay | backend/backend/src/main/java/com/codewithudo/backend/dto/UserInsightDTO.java:235-240 | Expired first, then Actioned, then Read, else New, each exactly under its condition |
| UserInsightDtos.FreshInsightIsNew | backend/backend/src/main/java/com/codewithudo/backend/dto/UserInsightDTO.java:34-56 | a freshly generated insight shows as New, with Normal priority and Unknown confidence |
| UserInsights.Count | backend/backend/src/main/java/com/codewithudo/backend/service/UserInsightsService.java:318-324 | the number of behaviours of one type is at most the number of behaviours |
| UserInsights.Distribution | backend/backend/src/main/java/com/codewithudo/backend/service/UserInsightsService.java:264-270 | the distribution has exactly the types that occur as keys, each mapped to its number of behaviours |
| UserInsights.DistributionSumsToTotal | backend/backend/src/main/java/com/codewithudo/backend/service/UserInsightsService.java:264-270 | summed over all its types, the distribution counts every behaviour exactly once |
| UserInsights.CountAfter | backend/backend/src/main/java/com/codewithudo/backend/service/UserInsightsService.java:258-262 | the number of behaviours strictly after the cut-off is at most the total |
| UserInsights.LowAcceptanceInIntegers | backend/backend/src/main/java/com/codewithudo/backend/service/UserInsightsService.java:129-157 | the matching rule (some requests, some accepts, acceptance rate below 0.3) holds exactly when there are requests and accepts and ten times the accepts is below three times the requests |
| UserInsights.RuleInsight | backend/backend/src/main/java/com/codewithudo/backend/service/UserInsightsService.java:129-245 | a rule contributes one new insight of its texts when it fires and none otherwise |
| UserInsights.MatchingInsights | backend/backend/src/main/java/com/codewithudo/backend/service/UserInsightsService.java:129-157 | one MATCHING_IMPROVEMENT insight exactly when the acceptance rate is low, new and for the user |
| UserInsights.SkillDevelopmentInsights | backend/backend/src/main/java/com/codewithudo/backend/service/UserInsightsService.java:159-179 | one SKILL_DEVELOPMENT insight exactly when there is no skill activity, new and for the user |
| UserInsights.NetworkingInsights | backend/backend/src/main/java/com/codewithudo/backend/service/UserInsightsService.java:181-201 | one NETWORKING_OPPORTUNITY insight exactly when coffee chats are few, new and for the user |
| UserInsights.EngagementInsights | backend/backend/src/main/java/com/codewithudo/backend/service/UserInsightsService.java:203-223 | one ENGAGEMENT_OPTIMIZATION insight exactly when the user is active with a stale profile, new and for the user |
| UserInsights.CareerGrowthInsights | backend/backend/src/main/java/com/codewithudo/backend/service/UserInsightsService.java:225-245 | one CAREER_GROWTH insight exactly when the user kept a streak, new and for the user |
| UserInsights.GeneratedInsights | backend/backend/src/main/java/com/codewithudo/backend/service/UserInsightsService.java:51-63 | generateUserInsights produces at most five insights |
| UserInsights.GeneratedInsightsLaws | backend/backend/src/main/java/com/codewithudo/backend/service/UserInsightsService.java:51-63 | the generated insights come in rule order, are all new and for the user, and each type is present exactly when its rule fires |
| UserInsights.FiveRules | backend/backend/src/main/java/com/codewithudo/backend/service/UserInsightsService.java:57-62 | concatenating the five rules' contributions keeps rule order, and each type is present exactly when its rule contributed |
| UserInsights.AddRule | backend/backend/src/main/java/com/codewithudo/backend/service/UserInsightsService.java:57-62 | appending one rule's contribution keeps the order, adds only that rule's type and leaves the other types as they were |
| UserInsights.PointsOfConcat | backend/backend/src/main/java/com/codewithudo/backend/service/UserInsightsService.java:283-311 | points add up over concatenation |
| UserInsights.PointsBounds | backend/backend/src/main/java/com/codewithudo/backend/service/UserInsightsService.java:283-311 | every behaviour earns between half a point and ten |
| UserInsights.EngagementScoreLaws | backend/backend/src/main/java/com/codewithudo/backend/service/UserInsightsService.java:283-311 | the score lies in 0..100, is positive for any activity and never falls as behaviours are added |
| UserInsights.EngagementScore | backend/backend/src/main/java/com/codewithudo/backend/service/UserInsightsService.java:283-311 | 0 with no behaviours; otherwise the points, capped at 100 |
| UserInsights.OneDecimal | backend/backend/src/main/java/com/codewithudo/backend/service/UserInsightsService.java:151 | `%.1f`: digits with one decimal after the point |
| UserInsights.AcceptancePercent | backend/backend/src/main/java/com/codewithudo/backend/service/UserInsightsService.java:151 | empty exactly when there are no match requests; otherwise a one-decimal percentage |
| UserInsights.CalculateEngagementScore | backend/backend/src/main/java/com/codewithudo/backend/service/UserInsightsService.java:283-311 | the loop's sum, capped at 100, is the engagement score of the behaviours |
| UserInsights.Recommendations | backend/backend/src/main/java/com/codewithudo/backend/service/UserInsightsService.java:313-337 | the coffee-chat line exactly when there are fewer than five chats, the mentorship line exactly when there is no session, and the encouragement alone exactly when neither applies |
| UserInsights.Saved | backend/backend/src/main/java/com/codewithudo/backend/entity/UserInsight.java:239-242 | a save restamps updatedAt only when the row changed |
| UserInsights.AsRead | backend/backend/src/main/java/com/codewithudo/backend/service/UserInsightsService.java:94-103 | the insight becomes read and nothing else changes but the stamp; an insight already read is left as it is |
| UserInsights.AsActioned | backend/backend/src/main/java/com/codewithudo/backend/service/UserInsightsService.java:105-114 | the insight becomes actioned and nothing else changes but the stamp; one already actioned is left as it is |
| UserInsights.WithFeedback | backend/backend/src/main/java/com/codewithudo/backend/service/UserInsightsService.java:116-126 | rating and comment are replaced, nulls included, and nothing else changes but the stamp |
| UserInsights.MarkingLaws | backend/backend/src/main/java/com/codewithudo/backend/service/UserInsightsService.java:94-126 | marking read or actioned twice is marking once; neither touches the other flag; clearing feedback twice is clearing it once |
| UserInsights.Numbered | backend/backend/src/main/java/com/codewithudo/backend/service/UserInsightsService.java:64-65 | saveAll stores the insights in order under consecutive fresh ids |
| UserInsights.NumberedDtos | backend/backend/src/main/java/com/codewithudo/backend/service/UserInsightsService.java:64-69 | the returned DTOs are those of the saved insights, in order |
| UserInsights.UserInsightsService.constructor | backend/backend/src/main/java/com/codewithudo/backend/service/UserInsightsService.java:20-24 | the service over the behaviour and insight repositories |
| UserInsights.UserInsightsService.BehaviorsOf | backend/backend/src/main/java/com/codewithudo/backend/service/UserInsightsService.java:55 | the user's stored behaviours |
| UserInsights.UserInsightsService.TrackBehavior | backend/backend/src/main/java/com/codewithudo/backend/service/UserInsightsService.java:30-48 | each overload stores exactly one new behaviour under a fresh id, the shorter ones with null target and metadata |
| UserInsights.UserInsightsService.GenerateUserInsights | backend/backend/src/main/java/com/codewithudo/backend/service/UserInsightsService.java:51-70 | the generated insights of the user's behaviours are saved under fresh ids and returned as DTOs, in rule order |
| UserInsights.UserInsightsService.SaveAll | backend/backend/src/main/java/com/codewithudo/backend/service/UserInsightsService.java:64-69 | the insights are saved one after the other from the next id and their DTOs returned |
| UserInsights.StoreNumbered | backend/backend/src/main/java/com/codewithudo/backend/service/UserInsightsService.java:64-69 | the save loop: each insight is stored under the next id in turn, and nothing else changes |
| UserInsights.SortingKeepsSelected | backend/backend/src/main/java/com/codewithudo/backend/repository/UserInsightRepository.java:15 | sorting the selected DTOs by creation time keeps exactly them |
| UserInsights.UserInsightsService.InsightDtos | backend/backend/src/main/java/com/codewithudo/backend/service/UserInsightsService.java:72-91 | the DTOs of exactly the stored insights the filter selects, newest first, an insight without a creation time last |
| UserInsights.UserInsightsService.GetUserInsights | backend/backend/src/main/java/com/codewithudo/backend/service/UserInsightsService.java:72-77 | each entry is the DTO of a stored insight of the user, every stored one of them is there, newest first |
| UserInsights.UserInsightsService.GetUnreadInsights | backend/backend/src/main/java/com/codewithudo/backend/service/UserInsightsService.java:79-84 | each entry is the DTO of a stored unread insight of the user, none displayed as Read, every stored one of them is there, newest first |
| UserInsights.UserInsightsService.GetInsightsByType | backend/backend/src/main/java/com/codewithudo/backend/service/UserInsightsService.java:86-91 | each entry is the DTO of a stored insight of the user of that type, every stored one of them is there, newest first |
| UserInsights.UserInsightsService.MarkInsightAsRead | backend/backend/src/main/java/com/codewithudo/backend/service/UserInsightsService.java:94-103 | null and no change for an unknown id; otherwise only that row is replaced by its read form and its DTO returned |
| UserInsights.UserInsightsService.MarkInsightAsActioned | backend/backend/src/main/java/com/codewithudo/backend/service/UserInsightsService.java:105-114 | null and no change for an unknown id; otherwise only that row is replaced by its actioned form |
| UserInsights.UserInsightsService.AddInsightFeedback | backend/backend/src/main/java/com/codewithudo/backend/service/UserInsightsService.java:116-126 | null and no change for an unknown id; otherwise only that row gets the feedback |
| UserInsights.UserInsightsService.AnalyzeUserBehavior | backend/backend/src/main/java/com/codewithudo/backend/service/UserInsightsService.java:248-281 | the total, the count of the last seven days (never above the total), the type distribution, the engagement score and the recommendations of the user's behaviours |
| Analytics.CountOf | backend/backend/src/main/java/com/codewithudo/backend/service/AnalyticsService.java:429-455 | the number of interactions of one type is at most the number of interactions |
| Analytics.TalliedAndUntallied | backend/backend/src/main/java/com/codewithudo/backend/entity/UserInteraction.java:45-55 | every interaction is of exactly one of the nine types, so the six tallied and the three untallied counts add up to the total |
| Analytics.CountOfZero | backend/backend/src/main/java/com/codewithudo/backend/service/AnalyticsService.java:429-455 | a counter is zero exactly when no interaction has its type |
| Analytics.CountersCoverActions | backend/backend/src/main/java/com/codewithudo/backend/service/AnalyticsService.java:420-469 | the six counters never exceed actionsPerformed, and reach it exactly when there is no meeting, skill-search or interest-search interaction |
| Analytics.CalculateUserMetricsFromInteractions | backend/backend/src/main/java/com/codewithudo/backend/service/AnalyticsService.java:420-469 | the loop sets each of the six counters to the number of interactions of its type and actionsPerformed to the number of interactions; every other field is kept |
| Analytics.TotalOfConcat | backend/backend/src/main/java/com/codewithudo/backend/service/AnalyticsService.java:195-246 | the `mapToInt(…).sum()` totals add up over consecutive stretches of days |
| Analytics.TotalBounds | backend/backend/src/main/java/com/codewithudo/backend/service/AnalyticsService.java:195-246 | daily values within [lo, hi] give a total within [lo, hi] times the number of days |
| Analytics.AverageIsWithinDailyRange | backend/backend/src/main/java/com/codewithudo/backend/service/AnalyticsService.java:200-202 | the integer average session length lies between the shortest and the longest day |
| Analytics.DivisionWithin | backend/backend/src/main/java/com/codewithudo/backend/service/AnalyticsService.java:200-202 | integer division of a total within [lo, hi] times n by n lies within [lo, hi] |
| Analytics.UserInsightsDto.constructor | backend/backend/src/main/java/com/codewithudo/backend/dto/UserInsightsDTO.java:11-13 | a new UserInsightsDTO has every field the summaries set still null |
| Analytics.CalculateActivitySummary | backend/backend/src/main/java/com/codewithudo/backend/service/AnalyticsService.java:195-203 | the three totals are set to the sums over the days, the average only when there are days; nothing else changes |
| Analytics.CalculateCommunicationStats | backend/backend/src/main/java/com/codewithudo/backend/service/AnalyticsService.java:222-226 | the three message totals are set to their sums over the days; nothing else changes |
| Analytics.CommunityEngagementScore | backend/backend/src/main/java/com/codewithudo/backend/service/AnalyticsService.java:242-245 | a tenth of joined + half the messages + twice the created lounges, capped at 10; exactly 10 once that weighted sum reaches 100; never negative for non-negative counts |
| Analytics.CommunityEngagementIsMonotone | backend/backend/src/main/java/com/codewithudo/backend/service/AnalyticsService.java:242-245 | more activity of any kind never lowers the score |
| Analytics.CalculateCommunityEngagement | backend/backend/src/main/java/com/codewithudo/backend/service/AnalyticsService.java:236-246 | the three lounge totals are the sums over the days and the score is computed from them; nothing else changes |
| Analytics.UserRecommendations | backend/backend/src/main/java/com/codewithudo/backend/service/AnalyticsService.java:307-323 | unboxing a null measure throws; otherwise each line appears exactly when its rule holds (success rate below 50, fewer than 3 lounges, no feedback), in rule order, at most three; no other line appears and no line appears twice |
| Analytics.EngagementPoints | backend/backend/src/main/java/com/codewithudo/backend/service/AnalyticsService.java:326-333 | four quarters of 25, each capped; the total is at most 100 and never negative for non-negative measures |
| Analytics.LevelOf | backend/backend/src/main/java/com/codewithudo/backend/service/AnalyticsService.java:335-338 | VERY_HIGH from 80, HIGH from 60, MEDIUM from 40, else LOW, each exactly under its condition |
| Analytics.LevelIsMonotone | backend/backend/src/main/java/com/codewithudo/backend/service/AnalyticsService.java:335-338 | a higher score never gives a lower level |
| Analytics.EngagementLevel | backend/backend/src/main/java/com/codewithudo/backend/service/AnalyticsService.java:325-338 | unboxing a null measure throws; otherwise the level of the engagement points |
| Analytics.EngagementLevelExtremes | backend/backend/src/main/java/com/codewithudo/backend/service/AnalyticsService.java:325-338 | every measure at its target gives VERY_HIGH, and all-zero measures give LOW |
| Search.IsNullOrBlank | backend/backend/src/main/java/com/codewithudo/backend/service/SearchService.java:33 | null, or holding no code point that trim keeps |
| Search.HasFilters | backend/backend/src/main/java/com/codewithudo/backend/service/SearchService.java:152-156 | some filter is present and holds a code point that trim keeps |
| Search.FilterPattern | backend/backend/src/main/java/com/codewithudo/backend/service/SearchService.java:56-59 | "%" for a null filter, otherwise the lower-cased value between two "%" wildcards |
| Search.FilterPatternIsInjectiveOnLowerCase | backend/backend/src/main/java/com/codewithudo/backend/service/SearchService.java:56-59 | only a null filter gets the match-anything pattern, and distinct lower-case values give distinct patterns |
| Search.UserQueryFor | backend/backend/src/main/java/com/codewithudo/backend/service/SearchService.java:54-68 | the filtered query with four patterns exactly when some filter is set and not blank; otherwise the name-or-email query with the raw query |
| Search.PageRequestOf | backend/backend/src/main/java/com/codewithudo/backend/service/SearchService.java:51 | a request exactly when the page index is not negative and the size is at least one; otherwise the IllegalArgumentException for the page index, checked first, or for the size |
| Search.NarrowToInt | backend/backend/src/main/java/com/codewithudo/backend/service/SearchService.java:76 | the `(int)` cast of a `long`: a 32-bit value congruent to the input modulo 2^32, the input itself when it fits |
| Search.EmptyResult | backend/backend/src/main/java/com/codewithudo/backend/dto/SearchResultDto.java:7-20 | a fresh result: the query, every counter 0, both flags false, every list null |
| Search.SearchUsers | backend/backend/src/main/java/com/codewithudo/backend/service/SearchService.java:49-83 | an error exactly when the page request is rejected; otherwise the query, the chosen page's users and (narrowed) total, page count, page number and flags, total results left 0 and the other lists null |
| Search.GlobalSearch | backend/backend/src/main/java/com/codewithudo/backend/service/SearchService.java:24-46 | a null or blank query gives total 0 and empty lists without a repository call, whatever the page and size; otherwise the page request's error, or the unfiltered user search's users with its user total as overall total and the page fields 0 and false |
| Search.GlobalSearchOfBlankIgnoresRepository | backend/backend/src/main/java/com/codewithudo/backend/service/SearchService.java:33-35 | for a blank query the answer depends on neither the repository nor the page and size |
| Search.MatchingIgnoresCase | backend/backend/src/main/java/com/codewithudo/backend/service/SearchService.java:105 | lower-casing either side does not change whether an entry matches |
| Search.Matching | backend/backend/src/main/java/com/codewithudo/backend/service/SearchService.java:104-106 | exactly the list entries that contain the query ignoring case |
| Search.MatchingAppend | backend/backend/src/main/java/com/codewithudo/backend/service/SearchService.java:104-106 | filtering a concatenation filters each part and keeps them in order |
| Search.ActiveNames | backend/backend/src/main/java/com/codewithudo/backend/service/SearchService.java:94-97 | exactly the names of active users |
| Search.TopNames | backend/backend/src/main/java/com/codewithudo/backend/service/SearchService.java:94-97 | the first `n` matching active names in repository order (a prefix of all of them, as many as there are up to `n`), each of an active user whose name contains the query |
| Search.FirstIndex | backend/backend/src/main/java/com/codewithudo/backend/service/SearchService.java:118 | the first position holding the element |
| Search.Distinct | backend/backend/src/main/java/com/codewithudo/backend/service/SearchService.java:118 | `distinct()`: no repeats, the same elements, in the order of their first occurrences |
| Search.Candidates | backend/backend/src/main/java/com/codewithudo/backend/service/SearchService.java:93-116 | each candidate is a matching active user's name or a matching industry or skill, and every matching industry and skill is a candidate |
| Search.CandidatesInOrder | backend/backend/src/main/java/com/codewithudo/backend/service/SearchService.java:93-116 | the candidates are the first five matching active names, then the matching industries and skills in list order |
| Search.Suggested | backend/backend/src/main/java/com/codewithudo/backend/service/SearchService.java:118 | the first ten distinct candidates, or all when fewer: a prefix of the distinct candidates, without repeats |
| Search.Utf16Length | backend/backend/src/main/java/com/codewithudo/backend/service/SearchService.java:89 | `length()` counts UTF-16 units: between one and two per code point |
| Search.EmojiIsTwoUnitsLong | backend/backend/src/main/java/com/codewithudo/backend/service/SearchService.java:89 | a one-code-point emoji has length two, so it is looked up |
| Search.SearchSuggestions | backend/backend/src/main/java/com/codewithudo/backend/service/SearchService.java:86-119 | nothing for a null query or one shorter than two UTF-16 units; otherwise the first ten distinct candidates; while there are at most ten, no matching industry or skill is dropped |
| Search.PopularSearches | backend/backend/src/main/java/com/codewithudo/backend/service/SearchService.java:122-133 | the fixed list of eight distinct entries |
| Search.RecentSearches | backend/backend/src/main/java/com/codewithudo/backend/service/SearchService.java:136-143 | the fixed list of three distinct entries |
| Search.FixedListsIgnoreLimit | backend/backend/src/main/java/com/codewithudo/backend/service/SearchService.java:122-143 | neither fixed list depends on the limit |
| PushNotifications.Deliveries | backend/backend/src/main/java/com/codewithudo/backend/service/PushNotificationService.java:50-63 | always the WebSocket message first, then a browser push with the user's token exactly when the user holds one |
| PushNotifications.BulkDeliveries | backend/backend/src/main/java/com/codewithudo/backend/service/PushNotificationService.java:68-76 | between one and two deliveries per user, each to a listed user with the same notification, every browser push with that user's token |
| PushNotifications.BulkReachesEveryUser | backend/backend/src/main/java/com/codewithudo/backend/service/PushNotificationService.java:68-76 | every listed user gets its WebSocket message |
| PushNotifications.Built | backend/backend/src/main/java/com/codewithudo/backend/service/PushNotificationService.java:86-91 | the built notification has the given title, message, type, priority and action URL and is unread |
| PushNotifications.MatchNotification | backend/backend/src/main/java/com/codewithudo/backend/service/PushNotificationService.java:85-91 | a high-priority MATCH_FOUND notification titled "New Match Found!" whose message ends with the match name, linking to /matches |
| PushNotifications.MeetingReminderNotification | backend/backend/src/main/java/com/codewithudo/backend/service/PushNotificationService.java:103-109 | an urgent MEETING_REMINDER notification titled "Meeting Reminder" whose message ends with the meeting time, linking to /meetings |
| PushNotifications.BadgeNotification | backend/backend/src/main/java/com/codewithudo/backend/service/PushNotificationService.java:121-127 | a medium-priority BADGE_EARNED notification titled "Badge Earned!" whose message quotes the badge name, linking to /profile |
| PushNotifications.LoungeInvitationNotification | backend/backend/src/main/java/com/codewithudo/backend/service/PushNotificationService.java:139-145 | a medium-priority LOUNGE_INVITATION notification whose message starts with the inviter's name, linking to /lounges |
| PushNotifications.AnnouncementNotification | backend/backend/src/main/java/com/codewithudo/backend/service/PushNotificationService.java:157-163 | a medium-priority SYSTEM_ANNOUNCEMENT notification with the announcement's own title and content, linking to /announcements |
| PushNotifications.ConvenienceNotifications | backend/backend/src/main/java/com/codewithudo/backend/service/PushNotificationService.java:81-166 | the match notification is HIGH and links to /matches, the meeting reminder is URGENT and links to /meetings, badge and lounge invitations are MEDIUM, and an announcement carries its own title and content |
| PushNotifications.SubscriptionCount | backend/backend/src/main/java/com/codewithudo/backend/service/PushNotificationService.java:34-45 | registering adds a subscription only for a new user, unregistering removes exactly the user's own and is idempotent; the count getRegisteredSubscriptionCount reports follows |
| PushNotifications.PushNotificationService.constructor | backend/backend/src/main/java/com/codewithudo/backend/service/PushNotificationService.java:19-29 | the two configuration values and no subscriptions |
| PushNotifications.PushNotificationService.RegisterPushSubscription | backend/backend/src/main/java/com/codewithudo/backend/service/PushNotificationService.java:34-38 | while push is enabled a null token throws NullPointerException and changes nothing, and any other token is stored or replaced; while disabled nothing changes; nothing is sent |
| PushNotifications.PushNotificationService.UnregisterPushSubscription | backend/backend/src/main/java/com/codewithudo/backend/service/PushNotificationService.java:43-45 | the user's token, if any, is dropped, whether or not push is enabled |
| PushNotifications.PushNotificationService.SendPushNotification | backend/backend/src/main/java/com/codewithudo/backend/service/PushNotificationService.java:50-63 | nothing is sent while push is disabled; otherwise exactly the deliveries for that user are appended |
| PushNotifications.PushNotificationService.SendBulkPushNotification | backend/backend/src/main/java/com/codewithudo/backend/service/PushNotificationService.java:68-76 | nothing while push is disabled; otherwise each user's deliveries, user after user |
| PushNotifications.PushNotificationService.SendMatchPushNotification | backend/backend/src/main/java/com/codewithudo/backend/service/PushNotificationService.java:81-94 | the match notification's deliveries while push is enabled, nothing otherwise |
| PushNotifications.PushNotificationService.SendMeetingReminderPush | backend/backend/src/main/java/com/codewithudo/backend/service/PushNotificationService.java:99-112 | the meeting reminder's deliveries while push is enabled, nothing otherwise |
| PushNotifications.PushNotificationService.SendBadgeEarnedPush | backend/backend/src/main/java/com/codewithudo/backend/service/PushNotificationService.java:117-130 | the badge notification's deliveries while push is enabled, nothing otherwise |
| PushNotifications.PushNotificationService.SendLoungeInvitationPush | backend/backend/src/main/java/com/codewithudo/backend/service/PushNotificationService.java:135-148 | the lounge invitation's deliveries while push is enabled, nothing otherwise |
| PushNotifications.PushNotificationService.SendSystemAnnouncementPush | backend/backend/src/main/java/com/codewithudo/backend/service/PushNotificationService.java:153-166 | the announcement's deliveries while push is enabled, nothing otherwise |
| ServiceWorker.MatchIn | frontend/build/sw.js:28 | `caches.match` finds a response exactly when some cache holds the URL, and then it is that of the first such cache in creation order |
| ServiceWorker.CacheStorage.Match | frontend/build/sw.js:28-53 | the store's answer for a URL: present exactly when some cache holds it, taken from the first such cache |
| ServiceWorker.Lookup | frontend/build/sw.js:28 | `caches.match(request)` answers only a GET request, with what the caches hold for its URL |
| ServiceWorker.Kept | frontend/build/sw.js:64-69 | the names activate keeps are only the current cache's, and it is kept exactly when present |
| ServiceWorker.CacheStorage.constructor | frontend/build/sw.js:17 | an empty cache store |
| ServiceWorker.CacheStorage.Open | frontend/build/sw.js:17 | `caches.open`: an existing cache is returned unchanged; a missing one is created empty at the end of the order |
| ServiceWorker.CacheStorage.Put | frontend/build/sw.js:44-47 | `cache.put` stores the response under the URL in that cache and changes nothing else |
| ServiceWorker.CacheStorage.AddAll | frontend/build/sw.js:20 | `cache.addAll` stores every listed URL's response in that cache when all are acceptable (ok, and not a 206 partial response), and nothing otherwise, and reports rejection exactly when some response is not acceptable; the order of caches is unchanged |
| ServiceWorker.CacheStorage.Delete | frontend/build/sw.js:67 | `caches.delete` removes exactly that cache |
| ServiceWorker.Precached | frontend/build/sw.js:20 | addAll's responses: exactly the listed URLs, each with what the network gave for it |
| ServiceWorker.Install | frontend/build/sw.js:15-23 | the worker is installed exactly when every one of the nine responses is acceptable to `addAll` (ok, not 206); the current cache exists afterwards and holds the nine URLs in that case and gains nothing otherwise; other caches are untouched |
| ServiceWorker.Precache | frontend/build/sw.js:15-23 | install's open-then-addAll for any cache name and URL list, succeeding exactly when every response is acceptable to `addAll`, with the same effect as Install |
| ServiceWorker.AllOk | frontend/build/sw.js:20 | true exactly when every URL's response is acceptable to `addAll`: ok and not 206 |
| ServiceWorker.HandleFetch | frontend/build/sw.js:26-58 | a cached response to a GET request is returned without a network call or change; otherwise the network's response is returned, and stored in the current cache only when the request is a GET and the response a status-200 basic one; on a network failure a document gets the cached offline page and anything else nothing |
| ServiceWorker.Activate | frontend/build/sw.js:61-74 | every cache but the current one is deleted, and the current one is kept as it was |
| ServiceWorker.ActivatedEntries | frontend/build/sw.js:61-74 | the store after activate holds exactly the current cache, unchanged |
| ServiceWorker.ActivateIsIdempotent | frontend/build/sw.js:61-74 | a second activate changes nothing |
| ServiceWorker.PushNotification | frontend/build/sw.js:84-111 | the payload text or the default body under the fixed title, stamped with the arrival time, with the explore and close actions |
| ServiceWorker.NotificationClick | frontend/build/sw.js:114-129 | the notification always closes; explore opens /dashboard, close opens nothing, any other action opens / |
| ServiceWorker.Synced | frontend/build/sw.js:131-144 | a sync sends exactly the pending notifications |
| ServiceWorker.StoredNotifications | frontend/build/sw.js:146-149 | the stored queue is always empty |
| ServiceWorker.BackgroundSync | frontend/build/sw.js:77-81 | the sync sends nothing, whatever the tag, since the stored queue is always empty |
| Pwa.InstallResult | frontend/src/utils/pwa.ts:76-97 | installApp resolves true exactly when a prompt is captured and the user accepts it |
| Pwa.InstallAppLaws | frontend/src/utils/pwa.ts:76-97 | without a prompt installApp is false and changes nothing; an accepted prompt is used up; a dismissed or failed one stays captured; installApp never sets the installed flag |
| Pwa.StepChanges | frontend/src/utils/pwa.ts:55-97 | the installed flag changes only from false to true, on appinstalled or a standalone check; the prompt changes only on beforeinstallprompt or an accepted installApp |
| Pwa.Step | frontend/src/utils/pwa.ts:55-97 | one event: the installed flag is set by appinstalled or a matching standalone check and never cleared; a new prompt replaces the captured one; an accepted installApp uses the prompt up; anything else keeps it |
| Pwa.Run | frontend/src/utils/pwa.ts:55-97 | after a run of events the manager is installed exactly when it was before or some event installs it: once installed always installed, and only the browser's signals install |
| Pwa.RunAppend | frontend/src/utils/pwa.ts:55-97 | running two lists of events one after the other is running their concatenation |
| Pwa.PWAManager.constructor | frontend/src/utils/pwa.ts:12-29 | a new manager has no prompt and is installed exactly when running standalone |
| Pwa.PWAManager.OnBeforeInstallPrompt | frontend/src/utils/pwa.ts:56-60 | the beforeinstallprompt listener keeps the event for later |
| Pwa.PWAManager.OnAppInstalled | frontend/src/utils/pwa.ts:62-66 | the appinstalled listener sets the installed flag |
| Pwa.PWAManager.CheckInstallStatus | frontend/src/utils/pwa.ts:69-74 | the flag is set when the standalone display mode matches, and left alone otherwise |
| Pwa.PWAManager.InstallApp | frontend/src/utils/pwa.ts:76-97 | returns the install result and moves to the state the install step gives |
| Pwa.PWAManager.CanInstall | frontend/src/utils/pwa.ts:184-186 | true exactly while a prompt is captured |
| Pwa.HandleSwipe | frontend/src/utils/pwa.ts:245-269 | right or left exactly when the horizontal displacement dominates, exceeds 50 in that direction and that callback was passed; down or up in the same way when it does not dominate; a fired callback was always passed |
| Pwa.SwipeThresholds | frontend/src/utils/pwa.ts:245-269 | a tie between the two displacements never fires left or right, and no callback fires while the dominant displacement is at most 50 |
| Pwa.SwipeGesture.constructor | frontend/src/utils/pwa.ts:222-233 | the listeners start with all four points at 0 and nothing fired |
| Pwa.SwipeGesture.TouchStart | frontend/src/utils/pwa.ts:234-237 | touchstart records the start point and changes nothing else |
| Pwa.SwipeGesture.TouchEnd | frontend/src/utils/pwa.ts:239-243 | touchend records the end point and fires at most the one callback the swipe selects |
| Activities.ActivityLogRepository.constructor | backend/backend/src/main/java/com/codewithudo/backend/repository/ActivityLogRepository.java:13 | the activity log starts empty |
| UserStreaks.UserStreakRepository.constructor | backend/backend/src/main/java/com/codewithudo/backend/repository/UserStreakRepository.java:13 | the streak repository starts empty |
| Badges.BadgeService.constructor | backend/backend/src/main/java/com/codewithudo/backend/service/BadgeService.java:20-25 | the service starts with no badges and no awarded badges, sharing the activity log and streak repository it is given |
| Companies.CompanyService.constructor | backend/backend/src/main/java/com/codewithudo/backend/service/CompanyService.java:20-29 | the service over the company, company-settings and user repositories, satisfying its invariant |
| CompanyInvitations.CompanyInvitationService.constructor | backend/backend/src/main/java/com/codewithudo/backend/service/CompanyInvitationService.java:20-26 | the service over the invitation and user repositories, satisfying its invariant |
| ConversationStarters.ConversationStarterService.constructor | backend/backend/src/main/java/com/codewithudo/backend/service/ConversationStarterService.java:18-21 | the service over the starter and user repositories, satisfying its invariant |
| Departments.DepartmentService.constructor | backend/backend/src/main/java/com/codewithudo/backend/service/DepartmentService.java:18-24 | the service over the department and membership repositories, satisfying its invariant |
| Gamification.GamificationService.constructor | backend/backend/src/main/java/com/codewithudo/backend/service/GamificationService.java:20-26 | the service shares the activity log, streak repository and badge service it is given |
| Lounges.LoungeService.constructor | backend/backend/src/main/java/com/codewithudo/backend/service/LoungeService.java:14-29 | the service over the lounge, message, participant and user repositories, satisfying its invariant |
| MatchFeedbacks.MatchFeedbackService.constructor | backend/backend/src/main/java/com/codewithudo/backend/service/MatchFeedbackService.java:19-23 | the service over the feedback and match repositories and the interaction log, satisfying its invariant |
| Matching.MatchingService.constructor | backend/backend/src/main/java/com/codewithudo/backend/service/MatchingService.java:17-29 | the service over the match, user and chat-history repositories, with no stored preferences |
| MeetingScheduling.MeetingSchedulingService.constructor | backend/backend/src/main/java/com/codewithudo/backend/service/MeetingSchedulingService.java:23-29 | the service over the meeting, match and user repositories, satisfying its invariant |
| PreferencesService.NotificationPreferencesService.constructor | backend/backend/src/main/java/com/codewithudo/backend/service/NotificationPreferencesService.java:14-17 | the service starts with no stored preferences |

## Left out

General:

- Time: `LocalDateTime.now()`, `LocalDate.now()` and `Date.now()` are parameters. Times are integer minutes and dates integer days, so time zones and seconds are not modelled.
- Integers are unbounded: Java `int` and `long` overflow is not modelled, because no counter in the core comes near it.
- Doubles are `real`: rounding of `double` arithmetic is not modelled. Money is exact integer cents, as `BigDecimal` is exact.
- UserInsights.OneDecimal: the decimal separator is always '.'. `String.format` formats with the JVM's default locale, and a locale whose separator is ',' is not modelled.
- Randomness and UUIDs are parameters: the invitation token, `ORDER BY RAND()` and `HashSet` iteration order.
- The password encoder is a parameter.
- Persistence: JPA repositories are tables keyed by generated id. Where a finder's `ORDER BY` is not relied on, the list order is not modelled and results are stated as sets or in id order.
- Transactions: a failing `@Transactional` call changes nothing. LoungeService is not transactional. When leaveLounge or sendMessage fails on an inactive lounge, the write made before the lookup stays, and the model keeps it.
- Logging (`System.out`, `console.log`), exceptions that are only logged and swallowed, and `@Scheduled` triggers are not modelled.
- Startup initialisers and ScheduledTaskService are not modelled; the initialisation operations they call are.
- E-mail (EmailService), NotificationService, WebSocket delivery, AuthService, JWT and the controllers are not modelled: they are I/O and plumbing.
- SmartMatchingService is not modelled beyond the interaction weights: it is weighted floating-point scoring over JSON vectors.
- Company.java and Department.java are not part of this model. `CompanyRecord` and `DepartmentRecord` hold the fields the services use, and the subscription tiers are assumed to be FREE, BASIC, PREMIUM and ENTERPRISE.

Gamification and badges:

- Gamification.Summary: the recent and displayed badge lists hold the `UserBadge` rows themselves, not their `UserBadgeDTO` views (which add the joined badge's fields); UserBadgeDTO.java is not part of this model.
- getUserStreaks, getUserBadges, getLeaderboard, getUserRank and getTopPerformersByCategory are not modelled: they are repository reads, and the leaderboard and rank are native SQL.
- createBadge, getAllAvailableBadges, getBadgesByCategory and getBadgesByRarity are not modelled: they are plain repository reads and saves.

Matching, feedback and meetings:

- MatchingService.calculateCompatibilityScore is a parameter: it is floating-point scoring.
- getUserMatches and getUserMatchesByStatus are not modelled: they are repository reads mapped through `ToMatchDto`.
- convertToPreferencesDto is not modelled: it copies every field.
- getMatchFeedback, getUserFeedback, getUserAverageMatchQuality and getPopularFeedbackTags are not modelled: they are repository reads.
- The JSON serialisation of conversation starters into a scheduled meeting is not modelled (ObjectMapper).
- MeetingScheduling.MeetingSchedulingService.SuggestMeetingTimes: chronological order is proved only for a non-negative duration. With a negative duration the slots still start on the hour inside business hours, but the day-by-day ordering argument does not apply.
- MeetingScheduling.MeetingSchedulingService.SuggestMeetingTimes: time is counted in whole minutes, so `now` has no seconds or nanoseconds. The source sets seconds to zero but not nanoseconds (MeetingSchedulingService.java:229), so its candidate slots carry the sub-second part of the current instant; a candidate ending exactly where a busy meeting on a whole minute starts then overlaps it by that fraction and is rejected, while the model counts the two as touching and proposes the slot.

Lounges, mentorship, companies and users:

- The gamification `logActivity` calls made by the lounge operations are not modelled; the lounge state is.
- Lounges.LiveMessages: messages are listed in id order, not by `createdAt`. Ids are handed out in insertion order, so the two orders agree while the clock never runs backwards.
- MentorshipProgramDtos.StatusDisplay: `isActive` is modelled as a non-null flag. A DTO built from a stored program always holds one; a request-body DTO whose `Boolean isActive` is null makes `!isActive` throw NullPointerException, which is not modelled.
- MatchFeedbacks.MatchFeedbackService.SubmitFeedback: the three ratings are modelled as non-null integers. submitFeedback's `Integer` parameters may be null; what the stored feedback, the interaction text and the averages do then is not modelled.
- MentorshipService.findMentorsForMentee and findMenteesForMentor are not modelled: both return an empty list whatever their input.
- CompanyService.getCompanyByName is not modelled: it is a single repository lookup.
- CompanyInvitations.CreateCheck: "already a member" asks whether some user with the address belongs to the company. The source looks the address up with `findByEmail`, which returns a single user; the users table is not assumed to keep addresses unique, and what `findByEmail` does with duplicate addresses is not modelled.
- UserService.loadUserByUsername, getUserProfileByEmail and getUsersByIndustry are not modelled: they are repository lookups, and the first is security plumbing.
- SubscriptionService.getPlanDetails is not modelled: it returns its argument.
- MentorshipEntities.ParseProgramType and MentorshipEntities.ParseSessionType: the contract does not state the text of the "No enum constant …" error. The body builds it as `valueOf` does, and the round-trip lemmas say every constant parses.

Conversation starters, insights and analytics:

- ConversationStarters.KeywordStarters: the iteration order of the `HashSet` of common keywords is the parameter `order`; which three keywords are tried first depends on it. The parameter is not required to list each keyword exactly once: the model keeps the keywords in `order` and so also admits orders that skip or repeat a keyword, which no `HashSet` iteration produces; every contract holds for any order.
- ConversationStarters.Personalize: `PersonalizeFillsPlaceholders` proves the four placeholders are filled only for a template written as pieces whose text contains no `{`, with field values free of `{`; a value that itself contains a placeholder is not covered. That `{skill}`, `{industry}` and `{interest}` survive personalisation is proved (`TemplateWithoutUnderscoreIsKept`) only for a template with no underscore at all.
- AnalyticsService.getPlatformOverview, generateDailyAnalytics and the platform and user analytics they build are not modelled: they are repository plumbing.
- AnalyticsService.getUserInsights is not modelled end to end: it unboxes DTO fields that are never set. Its helpers are modelled one by one.
- calculatePlatformRates is not modelled: it is floating-point division.
- calculateMatchingPerformance, calculateMeetingPerformance, calculateFeedbackRatings and calculateStreaksAndAchievements are not modelled: they copy repository counts and averages.
- The trend and weekly-stats builders, the analytics service's generateUserInsights message texts, getMostActiveUsers and getTopRatedUsers are not modelled: they are formatting and SQL.

Search and push:

- Search.SearchSuggestions: the `limit` argument is ignored, as in the source. That no matching industry or skill is dropped is proved only while at most ten distinct candidates exist; beyond that the cut depends on candidate order.
- convertUserToDto is modelled as the identity on user records.
- saveSearchQuery only logs and is not modelled.
- Search.TopNames: `findTop5ByNameContainingIgnoreCaseAndIsActiveTrue` has no `ORDER BY`; the model takes the first five matches in the order of the user list, which is the database's choice in the source.
- PushNotifications.PushNotificationService.GetRegisteredSubscriptionCount carries no contract: it is the size of the token map, whose updates `SubscriptionCount` describes.
- isPushEnabled and getVapidPublicKey are plain getters, and vapidPrivateKey is unused.
- Actual delivery is not modelled: each WebSocket message or browser push is recorded in `sent`. The convenience senders' unused arguments (`matchReason`, `badgeDescription`) are ignored, as in the source.

Case mapping and database behaviour:

- Common.ToLower: lower-cases the ASCII letters `A`–`Z` only. Java's `toLowerCase()` and `equalsIgnoreCase` use full Unicode case mapping, so non-ASCII letters are not folded here. The same limit holds for every member built on it, named below.
- ConversationStarters.Keywords, ConversationStarters.CommonKeywords, ConversationStarters.CommonKeywordsShape: keywords are lower-cased in ASCII only.
- ConversationStarters.SameIndustry, ConversationStarters.IndustryStarters: `equalsIgnoreCase` is modelled as equality after ASCII lower-casing.
- Search.FilterPattern, Search.MatchingIgnoresCase, Search.Matching, Search.TopNames, Search.Candidates, Search.Suggested, Search.SearchSuggestions: "ignore case" means ASCII lower-casing, on both sides.
- Lounges.LoungeService.GetLoungesByTopic, Lounges.LoungeService.GetLoungesByCategory, Lounges.LoungeService.TopicSearchIgnoresCase: `ContainingIgnoreCase` is modelled as containment after ASCII lower-casing; the database's collation is not modelled.
- Lounges.LoungeService.SearchLounges: JPQL `LIKE` is modelled as case-sensitive, with `%` and `_` as wildcards and no escape character; a database with a case-insensitive collation matches more.
- MentorshipProgramDtos.ProgramTypeDisplay: lower-cases ASCII only; the program type is a free string in the DTO.
- UserInsightEntities.InsightTypeDisplay: lower-cases ASCII only, which is exact for the enum constant names it is applied to.
- Tables.SortDescending: `ORDER BY … DESC` puts null keys last, as PostgreSQL and H2 do; other databases may put them first. Ties keep id order, which the database does not promise.
- Lounges.LoungeService.GetLoungesByTopic, Lounges.LoungeService.GetLoungesByCategory, Lounges.LoungeService.GetFeaturedLounges, Lounges.LoungeService.GetUserLounges: these finders have no `ORDER BY`; the model returns id order.

Browser side:

- The service worker's `caches` API is an abstract map of caches. The `clients` API is not modelled: a notification click yields a `ClickOutcome` value, which says whether the notification closes and which URL `clients.openWindow` would be given.
- The network is a parameter, and the cache fill that the fetch handler does not await is modelled as immediate.
- `cache.addAll` is atomic, as the Cache API specifies. A rejected install leaves the worker uninstalled; the model reports that as `installed == false` and does not model the browser retrying later.
- A request is its method, URL and destination. Headers, `Vary` and the matching options of `caches.match` are not modelled.
- The PWA manager's DOM buttons, update banner, service-worker registration, user-agent helpers and viewport handling are not modelled: they are page plumbing.
- Pwa.PWAManager.IsAppInstalled carries no contract: it reads the flag, whose laws `Step`, `StepChanges` and `Run` state.
- Touch coordinates are `real`.
