// The streak as sent to clients: the entity's fields, its activity flag for
// the current day and a display name for its type.

module UserStreakDto {
  import opened Common
  import opened UserStreaks

  datatype StreakView = StreakView(
    id: int,
    userId: int,
    streakType: StreakType,
    currentCount: int,
    bestCount: int,
    lastActivityDate: Option<int>,
    isActive: bool,
    streakTypeDisplay: string)

  /** getStreakTypeDisplay. */
  function StreakTypeDisplay(t: StreakType): (d: string)
    ensures t == DailyLogin ==> d == "Daily Login"
    ensures t == CoffeeChat ==> d == "Coffee Chat"
    ensures t == LoungeParticipation ==> d == "Lounge Participation"
    ensures t == MessageStreak ==> d == "Message Streak"
  {
    match t
    case DailyLogin => "Daily Login"
    case CoffeeChat => "Coffee Chat"
    case LoungeParticipation => "Lounge Participation"
    case MessageStreak => "Message Streak"
  }

  /** Different streak types are displayed differently. */
  lemma StreakTypeDisplayInjective(a: StreakType, b: StreakType)
    requires StreakTypeDisplay(a) == StreakTypeDisplay(b)
    ensures a == b
  {
  }

  /** fromEntity; `today` is the date isStreakActive compares against. */
  function FromEntity(r: StreakRecord, today: int): (v: StreakView)
    ensures v.id == r.id && v.userId == r.userId && v.streakType == r.streakType
    ensures v.currentCount == r.currentCount && v.bestCount == r.bestCount
    ensures v.lastActivityDate == r.lastActivityDate
    ensures v.isActive == IsActive(r, today)
    ensures v.streakTypeDisplay == StreakTypeDisplay(r.streakType)
  {
    StreakView(r.id, r.userId, r.streakType, r.currentCount, r.bestCount, r.lastActivityDate,
               IsActive(r, today), StreakTypeDisplay(r.streakType))
  }

  /** The view of a streak updated today is active, whatever its history. */
  lemma {:induction false} ViewOfUpdatedStreakIsActive(r: StreakRecord, today: int)
    ensures FromEntity(Incremented(r, today), today).isActive
    ensures FromEntity(Reset(r, today), today).isActive
    ensures FromEntity(Incremented(r, today), today).currentCount == r.currentCount + 1
  {
  }
}
