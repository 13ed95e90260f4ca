// A user's streak counter for one kind of activity. The entity updates its own
// counters in place, so it is a class; `StreakRecord` is the value of its
// persistent fields, used to state what the mutators do.

module UserStreaks {
  import opened Common

  datatype StreakType = DailyLogin | CoffeeChat | LoungeParticipation | MessageStreak

  /** Enum constant name, as `StreakType.toString()` prints it. */
  function StreakTypeName(t: StreakType): string
  {
    match t
    case DailyLogin => "DAILY_LOGIN"
    case CoffeeChat => "COFFEE_CHAT"
    case LoungeParticipation => "LOUNGE_PARTICIPATION"
    case MessageStreak => "MESSAGE_STREAK"
  }

  datatype StreakRecord = StreakRecord(
    id: int,
    userId: int,
    streakType: StreakType,
    currentCount: int,
    bestCount: int,
    lastActivityDate: Option<int>)

  /** The best count never falls below the current one. */
  predicate Consistent(r: StreakRecord)
  {
    0 <= r.currentCount <= r.bestCount
  }

  /** A streak as created: both counters 0, no activity yet. */
  function FreshStreak(id: int, userId: int, t: StreakType): (r: StreakRecord)
    ensures r.currentCount == 0 && r.bestCount == 0 && r.lastActivityDate == None
    ensures r.id == id && r.userId == userId && r.streakType == t
    ensures Consistent(r)
  {
    StreakRecord(id, userId, t, 0, 0, None)
  }

  /** incrementStreak on the value level. */
  function Incremented(r: StreakRecord, today: int): (n: StreakRecord)
    ensures n.currentCount == r.currentCount + 1
    ensures n.bestCount >= r.bestCount && n.bestCount >= n.currentCount
    ensures n.bestCount == r.bestCount || n.bestCount == n.currentCount
    ensures n.lastActivityDate == Some(today)
    ensures n.id == r.id && n.userId == r.userId && n.streakType == r.streakType
    ensures Consistent(r) ==> Consistent(n)
  {
    var c := r.currentCount + 1;
    r.(currentCount := c, bestCount := if c > r.bestCount then c else r.bestCount, lastActivityDate := Some(today))
  }

  /** resetStreak on the value level. */
  function Reset(r: StreakRecord, today: int): (n: StreakRecord)
    ensures n.currentCount == 0 && n.bestCount == r.bestCount
    ensures n.lastActivityDate == Some(today)
    ensures n.id == r.id && n.userId == r.userId && n.streakType == r.streakType
    ensures 0 <= r.bestCount ==> Consistent(n)
  {
    r.(currentCount := 0, lastActivityDate := Some(today))
  }

  /** isStreakActive on the value level. */
  function IsActive(r: StreakRecord, today: int): (active: bool)
    ensures r.lastActivityDate.None? ==> !active
    ensures r.lastActivityDate.Some? ==> (active <==> r.lastActivityDate.value >= today - 1)
  {
    match r.lastActivityDate
    case None => false
    case Some(last) => !(last < today - 1)
  }

  /** The invariant every stored streak keeps: counters consistent, and a
      running streak has a last activity date. */
  predicate WellFormed(r: StreakRecord)
  {
    Consistent(r) && (r.currentCount > 0 ==> r.lastActivityDate.Some?)
  }

  /** Both mutators keep a well-formed streak well-formed. */
  lemma {:induction false} MutatorsPreserveWellFormed(r: StreakRecord, today: int)
    requires WellFormed(r)
    ensures WellFormed(Incremented(r, today)) && WellFormed(Reset(r, today))
  {
  }

  /** The streak is the one kept for this user and type. */
  predicate IsKey(r: StreakRecord, userId: int, t: StreakType)
  {
    r.userId == userId && r.streakType == t
  }

  /** `findByUserIdAndStreakType`: the position of the first streak of this
      user and type, if any. */
  function FindIndex(rs: seq<StreakRecord>, userId: int, t: StreakType): (k: Option<nat>)
    ensures k.Some? ==> k.value < |rs| && IsKey(rs[k.value], userId, t)
                        && forall j :: 0 <= j < k.value ==> !IsKey(rs[j], userId, t)
    ensures k.None? ==> forall j :: 0 <= j < |rs| ==> !IsKey(rs[j], userId, t)
  {
    if rs == [] then None
    else if IsKey(rs[0], userId, t) then Some(0)
    else
      match FindIndex(rs[1..], userId, t)
      case None => None
      case Some(k) => Some(k + 1)
  }

  /** The streak of this user and type, if any. */
  function FindStreak(rs: seq<StreakRecord>, userId: int, t: StreakType): (r: Option<StreakRecord>)
    ensures r.Some? <==> FindIndex(rs, userId, t).Some?
    ensures r.Some? ==> r.value == rs[FindIndex(rs, userId, t).value]
  {
    match FindIndex(rs, userId, t)
    case None => None
    case Some(k) => Some(rs[k])
  }

  /** At most one streak per user and type, as the service keeps it. */
  predicate UniqueKeys(rs: seq<StreakRecord>)
  {
    forall i, j :: 0 <= i < j < |rs| ==> !(rs[i].userId == rs[j].userId && rs[i].streakType == rs[j].streakType)
  }

  /** An update on the same day or the day after keeps a streak active; two days later it is not. */
  lemma ActiveAfterActivity(r: StreakRecord, today: int)
    ensures IsActive(Incremented(r, today), today) && IsActive(Incremented(r, today), today + 1)
    ensures !IsActive(Incremented(r, today), today + 2)
    ensures IsActive(Reset(r, today), today + 1) && !IsActive(Reset(r, today), today + 2)
  {
  }

  class UserStreak {
    var id: int
    var userId: int
    var streakType: StreakType
    var currentCount: int
    var bestCount: int
    var lastActivityDate: Option<int>

    function Record(): StreakRecord
      reads this
    {
      StreakRecord(id, userId, streakType, currentCount, bestCount, lastActivityDate)
    }

    /** A new entity with the field defaults, owned by `userId`. */
    constructor (id: int, userId: int, streakType: StreakType)
      ensures Record() == FreshStreak(id, userId, streakType)
    {
      this.id := id;
      this.userId := userId;
      this.streakType := streakType;
      currentCount := 0;
      bestCount := 0;
      lastActivityDate := None;
    }

    /** Counts one more day of activity; `today` is LocalDate.now(). */
    method IncrementStreak(today: int)
      modifies this
      ensures Record() == Incremented(old(Record()), today)
    {
      currentCount := currentCount + 1;
      if currentCount > bestCount {
        bestCount := currentCount;
      }
      lastActivityDate := Some(today);
    }

    /** Breaks the streak; the best count is kept. */
    method ResetStreak(today: int)
      modifies this
      ensures Record() == Reset(old(Record()), today)
    {
      currentCount := 0;
      lastActivityDate := Some(today);
    }

    /** isStreakActive; `today` is LocalDate.now(). */
    function IsStreakActive(today: int): bool
      reads this
    {
      IsActive(Record(), today)
    }
  }

  /** The values of a list of streak entities, position by position. */
  function RecordsOf(ss: seq<UserStreak>): (rs: seq<StreakRecord>)
    reads set s | s in ss
    ensures |rs| == |ss|
    ensures forall i :: 0 <= i < |ss| ==> rs[i] == ss[i].Record()
  {
    if ss == [] then [] else [ss[0].Record()] + RecordsOf(ss[1..])
  }

  /** The user-streak table; it holds the entities themselves, so a streak
      updated in place is updated in the table. */
  class UserStreakRepository {
    var streaks: seq<UserStreak>

    /** No entity is stored twice. */
    ghost predicate Valid()
      reads this
    {
      forall i, j :: 0 <= i < j < |streaks| ==> streaks[i] != streaks[j]
    }

    function Records(): (rs: seq<StreakRecord>)
      reads this, set s | s in streaks
      ensures |rs| == |streaks|
      ensures forall i :: 0 <= i < |streaks| ==> rs[i] == streaks[i].Record()
    {
      RecordsOf(streaks)
    }

    constructor ()
      ensures Valid() && streaks == []
    {
      streaks := [];
    }

    /** Saves a new entity. */
    method Add(s: UserStreak)
      requires Valid() && s !in streaks
      modifies this
      ensures Valid() && streaks == old(streaks) + [s]
    {
      streaks := streaks + [s];
    }
  }
}
