// The notification-preferences service: one stored preferences row per user,
// read with defaults, partially updated, reset, and queried for enabled
// notifications, quiet hours, timezone and language.

module PreferencesService {
  import opened Common
  import opened Notifications
  import opened Preferences

  // ---------------------------------------------------------------------
  // The transfer object and the partial update

  /** The seven switches of one channel as the transfer object carries them;
      `None` is a null Boolean. */
  datatype FlagsDto = FlagsDto(
    enabled: Option<bool>,
    matchNotifications: Option<bool>,
    meetingReminders: Option<bool>,
    badgeNotifications: Option<bool>,
    loungeInvitations: Option<bool>,
    systemAnnouncements: Option<bool>,
    corporateAnnouncements: Option<bool>)

  datatype PreferencesDto = PreferencesDto(
    userId: Option<int>,
    email: FlagsDto,
    push: FlagsDto,
    inApp: FlagsDto,
    quietHoursEnabled: Option<bool>,
    quietHoursStart: Option<string>,
    quietHoursEnd: Option<string>,
    timezone: Option<string>,
    language: Option<string>,
    createdAt: Option<int>,
    updatedAt: Option<int>)

  const NoFlags: FlagsDto := FlagsDto(None, None, None, None, None, None, None)

  /** A transfer object whose every preference field is null. */
  function EmptyDto(): (d: PreferencesDto)
    ensures d.email == NoFlags && d.push == NoFlags && d.inApp == NoFlags
    ensures d.quietHoursEnabled == None && d.quietHoursStart == None && d.quietHoursEnd == None
    ensures d.timezone == None && d.language == None
  {
    PreferencesDto(None, NoFlags, NoFlags, NoFlags, None, None, None, None, None, None, None)
  }

  function FlagsToDto(f: ChannelFlags): (d: FlagsDto)
    ensures d.enabled == Some(f.enabled)
    ensures d.matchNotifications == Some(f.matchNotifications) && d.meetingReminders == Some(f.meetingReminders)
    ensures d.badgeNotifications == Some(f.badgeNotifications) && d.loungeInvitations == Some(f.loungeInvitations)
    ensures d.systemAnnouncements == Some(f.systemAnnouncements) && d.corporateAnnouncements == Some(f.corporateAnnouncements)
  {
    FlagsDto(Some(f.enabled), Some(f.matchNotifications), Some(f.meetingReminders), Some(f.badgeNotifications),
             Some(f.loungeInvitations), Some(f.systemAnnouncements), Some(f.corporateAnnouncements))
  }

  /** convertToDto: every field copied; the strings keep their nulls. */
  function ToDto(r: PreferencesRecord): (d: PreferencesDto)
    ensures d.userId == Some(r.userId) && d.createdAt == Some(r.createdAt) && d.updatedAt == Some(r.updatedAt)
    ensures d.email == FlagsToDto(r.email) && d.push == FlagsToDto(r.push) && d.inApp == FlagsToDto(r.inApp)
    ensures d.quietHoursEnabled == Some(r.quietHoursEnabled)
    ensures d.quietHoursStart == r.quietHoursStart && d.quietHoursEnd == r.quietHoursEnd
    ensures d.timezone == r.timezone && d.language == r.language
  {
    PreferencesDto(Some(r.userId), FlagsToDto(r.email), FlagsToDto(r.push), FlagsToDto(r.inApp),
                   Some(r.quietHoursEnabled), r.quietHoursStart, r.quietHoursEnd, r.timezone, r.language,
                   Some(r.createdAt), Some(r.updatedAt))
  }

  /** The value a setter guarded by `!= null` leaves in a field. */
  function Keep(update: Option<bool>, current: bool): (v: bool)
    ensures update.Some? ==> v == update.value
    ensures update.None? ==> v == current
  {
    match update
    case Some(x) => x
    case None => current
  }

  /** The same for a string field, which may itself be null. */
  function KeepString(update: Option<string>, current: Option<string>): (v: Option<string>)
    ensures update.Some? ==> v == update
    ensures update.None? ==> v == current
  {
    if update.Some? then update else current
  }

  /** The null-keeps update of one channel's switches. */
  function ApplyFlags(f: ChannelFlags, d: FlagsDto): (g: ChannelFlags)
    ensures g.enabled == Keep(d.enabled, f.enabled)
    ensures g.matchNotifications == Keep(d.matchNotifications, f.matchNotifications)
    ensures g.meetingReminders == Keep(d.meetingReminders, f.meetingReminders)
    ensures g.badgeNotifications == Keep(d.badgeNotifications, f.badgeNotifications)
    ensures g.loungeInvitations == Keep(d.loungeInvitations, f.loungeInvitations)
    ensures g.systemAnnouncements == Keep(d.systemAnnouncements, f.systemAnnouncements)
    ensures g.corporateAnnouncements == Keep(d.corporateAnnouncements, f.corporateAnnouncements)
  {
    ChannelFlags(Keep(d.enabled, f.enabled),
                 Keep(d.matchNotifications, f.matchNotifications),
                 Keep(d.meetingReminders, f.meetingReminders),
                 Keep(d.badgeNotifications, f.badgeNotifications),
                 Keep(d.loungeInvitations, f.loungeInvitations),
                 Keep(d.systemAnnouncements, f.systemAnnouncements),
                 Keep(d.corporateAnnouncements, f.corporateAnnouncements))
  }

  /** updatePreferencesFromDto on the value level: every preference field whose
      transfer value is non-null is overwritten, every other one is kept, and
      the owner and timestamps are never touched. */
  function ApplyDto(r: PreferencesRecord, d: PreferencesDto): (n: PreferencesRecord)
    ensures n.userId == r.userId && n.createdAt == r.createdAt && n.updatedAt == r.updatedAt
    ensures n.email == ApplyFlags(r.email, d.email)
    ensures n.push == ApplyFlags(r.push, d.push)
    ensures n.inApp == ApplyFlags(r.inApp, d.inApp)
    ensures n.quietHoursEnabled == Keep(d.quietHoursEnabled, r.quietHoursEnabled)
    ensures d.quietHoursStart.Some? ==> n.quietHoursStart == d.quietHoursStart
    ensures d.quietHoursStart.None? ==> n.quietHoursStart == r.quietHoursStart
    ensures d.quietHoursEnd.Some? ==> n.quietHoursEnd == d.quietHoursEnd
    ensures d.quietHoursEnd.None? ==> n.quietHoursEnd == r.quietHoursEnd
    ensures d.timezone.Some? ==> n.timezone == d.timezone
    ensures d.timezone.None? ==> n.timezone == r.timezone
    ensures d.language.Some? ==> n.language == d.language
    ensures d.language.None? ==> n.language == r.language
  {
    r.(email := ApplyFlags(r.email, d.email),
       push := ApplyFlags(r.push, d.push),
       inApp := ApplyFlags(r.inApp, d.inApp),
       quietHoursEnabled := Keep(d.quietHoursEnabled, r.quietHoursEnabled),
       quietHoursStart := KeepString(d.quietHoursStart, r.quietHoursStart),
       quietHoursEnd := KeepString(d.quietHoursEnd, r.quietHoursEnd),
       timezone := KeepString(d.timezone, r.timezone),
       language := KeepString(d.language, r.language))
  }

  /** A channel update with every switch null changes nothing. */
  lemma NoFlagsChangeNothing(f: ChannelFlags)
    ensures ApplyFlags(f, NoFlags) == f
  {
  }

  /** A transfer object with every preference null changes nothing. */
  lemma {:induction false} EmptyUpdateChangesNothing(r: PreferencesRecord)
    ensures ApplyDto(r, EmptyDto()) == r
  {
    NoFlagsChangeNothing(r.email);
    NoFlagsChangeNothing(r.push);
    NoFlagsChangeNothing(r.inApp);
  }

  /** Applying the same channel update twice is applying it once. */
  lemma ApplyFlagsIdempotent(f: ChannelFlags, d: FlagsDto)
    ensures ApplyFlags(ApplyFlags(f, d), d) == ApplyFlags(f, d)
  {
  }

  /** Applying the same update twice is the same as applying it once. */
  lemma {:induction false} ApplyDtoIdempotent(r: PreferencesRecord, d: PreferencesDto)
    ensures ApplyDto(ApplyDto(r, d), d) == ApplyDto(r, d)
  {
    ApplyFlagsIdempotent(r.email, d.email);
    ApplyFlagsIdempotent(r.push, d.push);
    ApplyFlagsIdempotent(r.inApp, d.inApp);
  }

  /** A channel's own transfer flags restore it on any channel. */
  lemma OwnFlagsRestore(x: ChannelFlags, f: ChannelFlags)
    ensures ApplyFlags(x, FlagsToDto(f)) == f
  {
  }

  /** Sending back the transfer object of a record reproduces that record's
      preferences on any row; only its null strings fall back to the row's. */
  lemma {:induction false} ApplyOwnDtoRestores(x: PreferencesRecord, r: PreferencesRecord)
    ensures ApplyDto(x, ToDto(r)).email == r.email
    ensures ApplyDto(x, ToDto(r)).push == r.push
    ensures ApplyDto(x, ToDto(r)).inApp == r.inApp
    ensures ApplyDto(x, ToDto(r)).quietHoursEnabled == r.quietHoursEnabled
    ensures r.quietHoursStart.Some? && r.quietHoursEnd.Some? && r.timezone.Some? && r.language.Some? ==>
              ApplyDto(x, ToDto(r)) == r.(userId := x.userId, createdAt := x.createdAt, updatedAt := x.updatedAt)
  {
    OwnFlagsRestore(x.email, r.email);
    OwnFlagsRestore(x.push, r.push);
    OwnFlagsRestore(x.inApp, r.inApp);
  }

  /** The entity-level updatePreferencesFromDto: the guarded setters, applied
      field by field to the entity. */
  method UpdatePreferencesFromDto(p: NotificationPreferences, d: PreferencesDto)
    modifies p
    ensures p.Record() == ApplyDto(old(p.Record()), d)
  {
    p.email := ApplyFlags(p.email, d.email);
    p.push := ApplyFlags(p.push, d.push);
    p.inApp := ApplyFlags(p.inApp, d.inApp);
    p.quietHoursEnabled := Keep(d.quietHoursEnabled, p.quietHoursEnabled);
    p.quietHoursStart := KeepString(d.quietHoursStart, p.quietHoursStart);
    p.quietHoursEnd := KeepString(d.quietHoursEnd, p.quietHoursEnd);
    p.timezone := KeepString(d.timezone, p.timezone);
    p.language := KeepString(d.language, p.language);
  }

  // ---------------------------------------------------------------------
  // Quiet hours

  const NanosPerSecond: int := 1_000_000_000
  const NanosPerDay: int := 86400 * NanosPerSecond

  function DigitValue(c: char): (v: Option<int>)
    ensures v.Some? ==> 0 <= v.value <= 9
  {
    if '0' <= c <= '9' then Some(c as int - '0' as int) else None
  }

  /** Two decimal digits as a number 0..99. */
  function TwoDigits(a: char, b: char): (v: Option<int>)
    ensures v.Some? ==> 0 <= v.value <= 99
  {
    match (DigitValue(a), DigitValue(b))
    case (Some(x), Some(y)) => Some(10 * x + y)
    case _ => None
  }

  function Pow10(n: nat): (p: int)
    ensures p >= 1
  {
    if n == 0 then 1 else 10 * Pow10(n - 1)
  }

  /** A run of decimal digits read as a number below 10^|s|. */
  function DigitsValue(s: string): (v: Option<int>)
    ensures v.Some? ==> 0 <= v.value < Pow10(|s|)
  {
    if s == [] then Some(0)
    else
      match (DigitsValue(s[..|s| - 1]), DigitValue(s[|s| - 1]))
      case (Some(x), Some(y)) => Some(10 * x + y)
      case _ => None
  }

  /** LocalTime.parse with the ISO local-time format: "HH:mm", optionally
      ":ss", optionally a '.' and up to nine fraction digits, hours 00-23 and
      minutes and seconds 00-59; the result is the nanosecond of the day. */
  function ParseLocalTime(s: string): (t: Option<int>)
    ensures t.Some? ==> 0 <= t.value < NanosPerDay
  {
    if |s| < 5 || s[2] != ':' || TwoDigits(s[0], s[1]).None? || TwoDigits(s[3], s[4]).None? then None
    else
      var h := TwoDigits(s[0], s[1]).value;
      var m := TwoDigits(s[3], s[4]).value;
      if h > 23 || m > 59 then None
      else
        var base := (h * 60 + m) * 60 * NanosPerSecond;
        if |s| == 5 then Some(base)
        else if |s| < 8 || s[5] != ':' || TwoDigits(s[6], s[7]).None? || TwoDigits(s[6], s[7]).value > 59 then None
        else
          var whole := base + TwoDigits(s[6], s[7]).value * NanosPerSecond;
          if |s| == 8 then Some(whole)
          else if s[8] != '.' || |s| > 18 || DigitsValue(s[9..]).None? then None
          else
            var frac := DigitsValue(s[9..]).value * Pow10(18 - |s|);
            FractionBound(DigitsValue(s[9..]).value, |s| - 9);
            Some(whole + frac)
  }

  /** Powers of ten multiply by adding exponents. */
  lemma {:induction false} Pow10Add(a: nat, b: nat)
    ensures Pow10(a) * Pow10(b) == Pow10(a + b)
  {
    if a > 0 {
      Pow10Add(a - 1, b);
    }
  }

  /** A fraction of n digits scaled to nine digits is below one second. */
  lemma {:induction false} FractionBound(f: int, n: nat)
    requires n <= 9 && 0 <= f < Pow10(n)
    ensures 0 <= f * Pow10(9 - n) < NanosPerSecond
  {
    Pow10Add(n, 9 - n);
    assert Pow10(9) == NanosPerSecond by {
      assert Pow10(3) == 1000;
      Pow10Add(3, 3);
      Pow10Add(6, 3);
    }
    assert f * Pow10(9 - n) < Pow10(n) * Pow10(9 - n);
  }

  function DigitChar(d: int): char
    requires 0 <= d <= 9
  {
    ('0' as int + d) as char
  }

  /** The "HH:mm" text of a minute of the day, the format the preferences store. */
  function FormatHourMinute(minute: int): (s: string)
    requires 0 <= minute < 1440
    ensures |s| == 5 && s[2] == ':'
  {
    var h := minute / 60;
    var m := minute % 60;
    [DigitChar(h / 10), DigitChar(h % 10), ':', DigitChar(m / 10), DigitChar(m % 10)]
  }

  /** Parsing reads back exactly the minute that was formatted. */
  lemma {:induction false} ParseFormattedTime(minute: int)
    requires 0 <= minute < 1440
    ensures ParseLocalTime(FormatHourMinute(minute)) == Some(minute * 60 * NanosPerSecond)
  {
    var s := FormatHourMinute(minute);
    var h := minute / 60;
    var m := minute % 60;
    assert TwoDigits(s[0], s[1]) == Some(h);
    assert TwoDigits(s[3], s[4]) == Some(m);
    assert h * 60 + m == minute;
  }

  /** The comparison of isCurrentTimeInQuietHours: a window that does not
      wrap holds strictly between its bounds; one that wraps (start at or
      after end) holds strictly after start or strictly before end. */
  predicate InQuietWindow(start: int, end: int, now: int)
  {
    if start < end then start < now < end else now > start || now < end
  }

  /** isCurrentTimeInQuietHours; `now` is the nanosecond of the day. */
  function CurrentTimeInQuietHours(r: PreferencesRecord, now: int): (quiet: bool)
    ensures !r.quietHoursEnabled || r.quietHoursStart.None? || r.quietHoursEnd.None? ==> !quiet
    ensures r.quietHoursStart.Some? && ParseLocalTime(r.quietHoursStart.value).None? ==> !quiet
    ensures r.quietHoursEnd.Some? && ParseLocalTime(r.quietHoursEnd.value).None? ==> !quiet
    ensures quiet ==> r.quietHoursEnabled
    ensures r.quietHoursEnabled && r.quietHoursStart.Some? && r.quietHoursEnd.Some? &&
            ParseLocalTime(r.quietHoursStart.value).Some? && ParseLocalTime(r.quietHoursEnd.value).Some? ==>
              (quiet <==> InQuietWindow(ParseLocalTime(r.quietHoursStart.value).value,
                                        ParseLocalTime(r.quietHoursEnd.value).value, now))
  {
    if !r.quietHoursEnabled || r.quietHoursStart.None? || r.quietHoursEnd.None? then false
    else
      match (ParseLocalTime(r.quietHoursStart.value), ParseLocalTime(r.quietHoursEnd.value))
      case (Some(start), Some(end)) => InQuietWindow(start, end, now)
      case _ => false
  }

  /** The window read as an arc of the clock: with distinct bounds, the
      instant is in quiet hours exactly when it lies strictly after start and
      strictly before end, going forward from start around midnight. */
  lemma {:induction false} QuietWindowIsForwardArc(start: int, end: int, now: int)
    requires 0 <= start < NanosPerDay && 0 <= end < NanosPerDay && 0 <= now < NanosPerDay
    requires start != end
    ensures InQuietWindow(start, end, now) <==>
              0 < (now - start) % NanosPerDay < (end - start) % NanosPerDay
  {
    var d := NanosPerDay;
    if start < end {
      assert (end - start) % d == end - start;
      if now >= start {
        assert (now - start) % d == now - start;
      } else {
        assert (now - start) % d == now - start + d;
      }
    } else {
      assert (end - start) % d == end - start + d;
      if now >= start {
        assert (now - start) % d == now - start;
      } else {
        assert (now - start) % d == now - start + d;
      }
    }
  }

  /** Equal bounds are quiet at every instant except the bound itself. */
  lemma EqualBoundsExcludeOnlyStart(start: int, now: int)
    ensures InQuietWindow(start, start, now) <==> now != start
  {
  }

  // ---------------------------------------------------------------------
  // The service

  /** The message NotificationType.valueOf throws for an unknown name. */
  function UnknownTypeMessage(name: string): string
  {
    "No enum constant com.codewithudo.backend.entity.Notification.NotificationType." + name
  }

  class NotificationPreferencesService {
    /** The preferences table, keyed by its unique user id column. */
    var stored: map<int, PreferencesRecord>

    /** Every row is filed under its own user. */
    ghost predicate Valid()
      reads this
    {
      forall u :: u in stored ==> stored[u].userId == u
    }

    constructor ()
      ensures Valid() && stored == map[]
    {
      stored := map[];
    }

    /** getUserPreferences: the stored row, or a default row created and
        stored at `now`; afterwards the user always has a row and the answer
        is that row, so repeated calls agree. */
    method GetUserPreferences(userId: int, now: int) returns (d: PreferencesDto)
      requires Valid()
      modifies this
      ensures Valid()
      ensures userId in stored && d == ToDto(stored[userId])
      ensures userId in old(stored) ==> stored == old(stored)
      ensures userId !in old(stored) ==> stored == old(stored)[userId := Defaults(userId, now)]
    {
      if userId in stored {
        d := ToDto(stored[userId]);
      } else {
        var p := new NotificationPreferences(userId, now);
        stored := stored[userId := p.Record()];
        d := ToDto(p.Record());
      }
    }

    /** updateUserPreferences: the stored row (or a fresh default one) with the
        non-null transfer fields applied and updatedAt stamped with `now`. */
    method UpdateUserPreferences(userId: int, dto: PreferencesDto, now: int) returns (d: PreferencesDto)
      requires Valid()
      modifies this
      ensures Valid()
      ensures var base := if userId in old(stored) then old(stored)[userId] else Defaults(userId, now);
              stored == old(stored)[userId := ApplyDto(base, dto).(updatedAt := now)]
      ensures d == ToDto(stored[userId])
    {
      var p: NotificationPreferences;
      if userId in stored {
        p := new NotificationPreferences.Load(stored[userId]);
      } else {
        p := new NotificationPreferences(userId, now);
      }
      UpdatePreferencesFromDto(p, dto);
      p.SetUpdatedAt(now, now);
      stored := stored[userId := p.Record()];
      d := ToDto(p.Record());
    }

    /** resetToDefaults: whatever was stored, the user's row becomes the
        default row created at `now`; no other user's row changes. */
    method ResetToDefaults(userId: int, now: int) returns (d: PreferencesDto)
      requires Valid()
      modifies this
      ensures Valid()
      ensures stored == old(stored)[userId := Defaults(userId, now)]
      ensures d == ToDto(Defaults(userId, now))
    {
      stored := stored - {userId};
      var p := new NotificationPreferences(userId, now);
      stored := stored[userId := p.Record()];
      d := ToDto(p.Record());
    }

    /** isNotificationEnabled(userId, type, channel): with no row every
        notification is enabled; with a row an unknown type name throws. */
    function IsNotificationEnabled(userId: int, typeName: string, channel: string): (r: Result<bool>)
      reads this
      ensures userId !in stored ==> r == Ok(true)
      ensures userId in stored && TypeOf(typeName).None? ==> r == Err(UnknownTypeMessage(typeName))
      ensures userId in stored && TypeOf(typeName).Some? ==>
                r == Ok(IsEnabled(stored[userId], TypeOf(typeName).value, channel))
    {
      if userId !in stored then Ok(true)
      else
        match TypeOf(typeName)
        case None => Err(UnknownTypeMessage(typeName))
        case Some(t) => Ok(IsEnabled(stored[userId], t, channel))
    }

    /** isInQuietHours; `now` is the current nanosecond of the day. With no
        row, or quiet hours off, the user is never in quiet hours. */
    function IsInQuietHours(userId: int, now: int): (quiet: bool)
      reads this
      ensures userId !in stored ==> !quiet
      ensures quiet ==> userId in stored && stored[userId].quietHoursEnabled
      ensures userId in stored && stored[userId].quietHoursEnabled ==>
                quiet == CurrentTimeInQuietHours(stored[userId], now)
    {
      userId in stored && stored[userId].quietHoursEnabled && CurrentTimeInQuietHours(stored[userId], now)
    }

    /** getUserTimezone: the stored timezone, "UTC" without a row or when the
        stored value is null. */
    function UserTimezone(userId: int): (tz: string)
      reads this
      ensures userId !in stored || stored[userId].timezone.None? ==> tz == "UTC"
      ensures userId in stored && stored[userId].timezone.Some? ==> tz == stored[userId].timezone.value
    {
      if userId in stored then stored[userId].timezone.GetOr("UTC") else "UTC"
    }

    /** getUserLanguage: the stored language, "en" without a row or when the
        stored value is null. */
    function UserLanguage(userId: int): (lang: string)
      reads this
      ensures userId !in stored || stored[userId].language.None? ==> lang == "en"
      ensures userId in stored && stored[userId].language.Some? ==> lang == stored[userId].language.value
    {
      if userId in stored then stored[userId].language.GetOr("en") else "en"
    }
  }

  /** Right after a reset every type is enabled on every channel, quiet hours
      are off, and the timezone and language are "UTC" and "en". */
  lemma {:induction false} ResetRowAnswersDefaults(userId: int, now: int, t: NotificationType, channel: string, time: int)
    ensures IsEnabled(Defaults(userId, now), t, channel)
    ensures !CurrentTimeInQuietHours(Defaults(userId, now), time)
    ensures Defaults(userId, now).timezone.GetOr("UTC") == "UTC" && Defaults(userId, now).language.GetOr("en") == "en"
  {
    DefaultsEnableEverything(userId, now, t, channel);
  }
}
