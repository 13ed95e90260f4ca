// A user's notification preferences: for each delivery channel (email, push,
// in-app) a master switch and six per-type flags, plus quiet hours, timezone
// and language. The entity's setters change it in place, so it is a class;
// `PreferencesRecord` is the value of its fields.

module Preferences {
  import opened Common
  import opened Notifications

  /** The six notification kinds that have their own flag on every channel. */
  datatype Kind = MatchKind | MeetingKind | BadgeKind | LoungeKind | SystemKind | CorporateKind

  /** The suffix isNotificationEnabled passes to getChannelPreference. */
  function KindName(k: Kind): string
  {
    match k
    case MatchKind => "Match"
    case MeetingKind => "Meeting"
    case BadgeKind => "Badge"
    case LoungeKind => "Lounge"
    case SystemKind => "System"
    case CorporateKind => "Corporate"
  }

  /** The `switch (type)` of isNotificationEnabled: which flag governs a type. */
  function KindOf(t: NotificationType): (k: Option<Kind>)
    ensures k.None? <==> t in {MessageReceived, MeetingScheduled, FeedbackRequest, ProfileUpdate, ConnectionRequest}
  {
    match t
    case MatchFound => Some(MatchKind)
    case MeetingReminder => Some(MeetingKind)
    case BadgeEarned => Some(BadgeKind)
    case LoungeInvitation => Some(LoungeKind)
    case SystemAnnouncement => Some(SystemKind)
    case CompanyAnnouncement => Some(CorporateKind)
    case _ => None
  }

  /** The seven switches of one channel. */
  datatype ChannelFlags = ChannelFlags(
    enabled: bool,
    matchNotifications: bool,
    meetingReminders: bool,
    badgeNotifications: bool,
    loungeInvitations: bool,
    systemAnnouncements: bool,
    corporateAnnouncements: bool)

  /** The per-type flag of a channel for one kind. */
  function Flag(f: ChannelFlags, k: Kind): bool
  {
    match k
    case MatchKind => f.matchNotifications
    case MeetingKind => f.meetingReminders
    case BadgeKind => f.badgeNotifications
    case LoungeKind => f.loungeInvitations
    case SystemKind => f.systemAnnouncements
    case CorporateKind => f.corporateAnnouncements
  }

  /** The same flags with the one for `k` set to `v`. */
  function WithKindFlag(f: ChannelFlags, k: Kind, v: bool): (g: ChannelFlags)
    ensures Flag(g, k) == v && g.enabled == f.enabled
    ensures forall j :: j != k ==> Flag(g, j) == Flag(f, j)
  {
    match k
    case MatchKind => f.(matchNotifications := v)
    case MeetingKind => f.(meetingReminders := v)
    case BadgeKind => f.(badgeNotifications := v)
    case LoungeKind => f.(loungeInvitations := v)
    case SystemKind => f.(systemAnnouncements := v)
    case CorporateKind => f.(corporateAnnouncements := v)
  }

  /** Every switch of a channel on: the entity's field initialisers. */
  const AllOn: ChannelFlags := ChannelFlags(true, true, true, true, true, true, true)

  datatype PreferencesRecord = PreferencesRecord(
    userId: int,
    email: ChannelFlags,
    push: ChannelFlags,
    inApp: ChannelFlags,
    quietHoursEnabled: bool,
    quietHoursStart: Option<string>,
    quietHoursEnd: Option<string>,
    timezone: Option<string>,
    language: Option<string>,
    createdAt: int,
    updatedAt: int)

  /** The record `new NotificationPreferences(userId)` creates at time `now`. */
  function Defaults(userId: int, now: int): (r: PreferencesRecord)
    ensures r.userId == userId && r.createdAt == now && r.updatedAt == now
    ensures r.email == AllOn && r.push == AllOn && r.inApp == AllOn
    ensures !r.quietHoursEnabled && r.quietHoursStart == None && r.quietHoursEnd == None
    ensures r.timezone == Some("UTC") && r.language == Some("en")
  {
    PreferencesRecord(userId, AllOn, AllOn, AllOn, false, None, None, Some("UTC"), Some("en"), now, now)
  }

  /** The flags a channel name selects: "email", "push" and "in_app" are the
      three channels; any other name selects none. */
  function FlagsOf(r: PreferencesRecord, channel: string): (f: Option<ChannelFlags>)
    ensures f.Some? <==> channel in {"email", "push", "in_app"}
  {
    if channel == "email" then Some(r.email)
    else if channel == "push" then Some(r.push)
    else if channel == "in_app" then Some(r.inApp)
    else None
  }

  /** getChannelPreference: a switch on the concatenated key channel + kind,
      defaulting to true for a key it does not list. */
  function ChannelPreference(r: PreferencesRecord, channel: string, k: Kind): bool
  {
    var key := channel + KindName(k);
    if key == "emailMatch" then r.email.matchNotifications
    else if key == "emailMeeting" then r.email.meetingReminders
    else if key == "emailBadge" then r.email.badgeNotifications
    else if key == "emailLounge" then r.email.loungeInvitations
    else if key == "emailSystem" then r.email.systemAnnouncements
    else if key == "emailCorporate" then r.email.corporateAnnouncements
    else if key == "pushMatch" then r.push.matchNotifications
    else if key == "pushMeeting" then r.push.meetingReminders
    else if key == "pushBadge" then r.push.badgeNotifications
    else if key == "pushLounge" then r.push.loungeInvitations
    else if key == "pushSystem" then r.push.systemAnnouncements
    else if key == "pushCorporate" then r.push.corporateAnnouncements
    else if key == "in_appMatch" then r.inApp.matchNotifications
    else if key == "in_appMeeting" then r.inApp.meetingReminders
    else if key == "in_appBadge" then r.inApp.badgeNotifications
    else if key == "in_appLounge" then r.inApp.loungeInvitations
    else if key == "in_appSystem" then r.inApp.systemAnnouncements
    else if key == "in_appCorporate" then r.inApp.corporateAnnouncements
    else true
  }

  /** The last three letters of a kind's name tell the kinds apart. */
  lemma TailDeterminesKind(k: Kind, j: Kind)
    requires |KindName(k)| >= 3 && |KindName(j)| >= 3
    requires KindName(k)[|KindName(k)| - 1] == KindName(j)[|KindName(j)| - 1]
    requires KindName(k)[|KindName(k)| - 2] == KindName(j)[|KindName(j)| - 2]
    requires KindName(k)[|KindName(k)| - 3] == KindName(j)[|KindName(j)| - 3]
    ensures k == j
  {
    match k
    case MatchKind =>
    case MeetingKind =>
    case BadgeKind =>
    case LoungeKind =>
    case SystemKind =>
    case CorporateKind =>
  }

  /** A key `channel + kind name` determines both parts. */
  lemma {:induction false} KeySplits(channel: string, k: Kind, c: string, j: Kind)
    requires channel + KindName(k) == c + KindName(j)
    ensures channel == c && k == j
  {
    var key := channel + KindName(k);
    var a, b := KindName(k), KindName(j);
    assert |a| >= 3 && |b| >= 3;
    assert key[|key| - 1] == a[|a| - 1] && key[|key| - 1] == b[|b| - 1];
    assert key[|key| - 2] == a[|a| - 2] && key[|key| - 2] == b[|b| - 2];
    assert key[|key| - 3] == a[|a| - 3] && key[|key| - 3] == b[|b| - 3];
    TailDeterminesKind(k, j);
    assert key[..|channel|] == channel;
    assert key[..|c|] == c;
  }

  /** A key built from an unknown channel is none of the keys built from a known one. */
  lemma NotAKnownKey(channel: string, k: Kind, c: string, j: Kind)
    requires channel != c
    ensures channel + KindName(k) != c + KindName(j)
  {
    if channel + KindName(k) == c + KindName(j) {
      KeySplits(channel, k, c, j);
    }
  }

  /** A channel other than "email" builds none of the "email" keys. */
  lemma {:induction false} NotEmailKey(channel: string, k: Kind)
    requires channel != "email"
    ensures channel + KindName(k) != "emailMatch" &&
            channel + KindName(k) != "emailMeeting" &&
            channel + KindName(k) != "emailBadge" &&
            channel + KindName(k) != "emailLounge" &&
            channel + KindName(k) != "emailSystem" &&
            channel + KindName(k) != "emailCorporate"
  {
    assert "emailMatch" == "email" + KindName(MatchKind);
    NotAKnownKey(channel, k, "email", MatchKind);
    assert "emailMeeting" == "email" + KindName(MeetingKind);
    NotAKnownKey(channel, k, "email", MeetingKind);
    assert "emailBadge" == "email" + KindName(BadgeKind);
    NotAKnownKey(channel, k, "email", BadgeKind);
    assert "emailLounge" == "email" + KindName(LoungeKind);
    NotAKnownKey(channel, k, "email", LoungeKind);
    assert "emailSystem" == "email" + KindName(SystemKind);
    NotAKnownKey(channel, k, "email", SystemKind);
    assert "emailCorporate" == "email" + KindName(CorporateKind);
    NotAKnownKey(channel, k, "email", CorporateKind);
  }

  /** A channel other than "push" builds none of the "push" keys. */
  lemma {:induction false} NotPushKey(channel: string, k: Kind)
    requires channel != "push"
    ensures channel + KindName(k) != "pushMatch" &&
            channel + KindName(k) != "pushMeeting" &&
            channel + KindName(k) != "pushBadge" &&
            channel + KindName(k) != "pushLounge" &&
            channel + KindName(k) != "pushSystem" &&
            channel + KindName(k) != "pushCorporate"
  {
    assert "pushMatch" == "push" + KindName(MatchKind);
    NotAKnownKey(channel, k, "push", MatchKind);
    assert "pushMeeting" == "push" + KindName(MeetingKind);
    NotAKnownKey(channel, k, "push", MeetingKind);
    assert "pushBadge" == "push" + KindName(BadgeKind);
    NotAKnownKey(channel, k, "push", BadgeKind);
    assert "pushLounge" == "push" + KindName(LoungeKind);
    NotAKnownKey(channel, k, "push", LoungeKind);
    assert "pushSystem" == "push" + KindName(SystemKind);
    NotAKnownKey(channel, k, "push", SystemKind);
    assert "pushCorporate" == "push" + KindName(CorporateKind);
    NotAKnownKey(channel, k, "push", CorporateKind);
  }

  /** A channel other than "in_app" builds none of the "in_app" keys. */
  lemma {:induction false} NotInAppKey(channel: string, k: Kind)
    requires channel != "in_app"
    ensures channel + KindName(k) != "in_appMatch" &&
            channel + KindName(k) != "in_appMeeting" &&
            channel + KindName(k) != "in_appBadge" &&
            channel + KindName(k) != "in_appLounge" &&
            channel + KindName(k) != "in_appSystem" &&
            channel + KindName(k) != "in_appCorporate"
  {
    assert "in_appMatch" == "in_app" + KindName(MatchKind);
    NotAKnownKey(channel, k, "in_app", MatchKind);
    assert "in_appMeeting" == "in_app" + KindName(MeetingKind);
    NotAKnownKey(channel, k, "in_app", MeetingKind);
    assert "in_appBadge" == "in_app" + KindName(BadgeKind);
    NotAKnownKey(channel, k, "in_app", BadgeKind);
    assert "in_appLounge" == "in_app" + KindName(LoungeKind);
    NotAKnownKey(channel, k, "in_app", LoungeKind);
    assert "in_appSystem" == "in_app" + KindName(SystemKind);
    NotAKnownKey(channel, k, "in_app", SystemKind);
    assert "in_appCorporate" == "in_app" + KindName(CorporateKind);
    NotAKnownKey(channel, k, "in_app", CorporateKind);
  }

  /** An unknown channel's key matches no case of the switch. */
  lemma {:induction false} UnknownChannelPreference(r: PreferencesRecord, channel: string, k: Kind)
    requires channel !in {"email", "push", "in_app"}
    ensures ChannelPreference(r, channel, k)
  {
    NotEmailKey(channel, k);
    NotPushKey(channel, k);
    NotInAppKey(channel, k);
  }

  /** A known channel's key selects that channel's flag for the kind. */
  lemma {:induction false} KnownChannelPreference(r: PreferencesRecord, channel: string, k: Kind)
    requires channel in {"email", "push", "in_app"}
    ensures ChannelPreference(r, channel, k) == Flag(FlagsOf(r, channel).value, k)
  {
    if channel == "email" {
      EmailChannelPreference(r, channel, k);
    } else if channel == "push" {
      PushChannelPreference(r, channel, k);
    } else {
      InAppChannelPreference(r, channel, k);
    }
  }

  /** The email keys. */
  lemma {:induction false} EmailChannelPreference(r: PreferencesRecord, channel: string, k: Kind)
    requires channel == "email"
    ensures ChannelPreference(r, channel, k) == Flag(FlagsOf(r, channel).value, k)
  {
    var key := channel + KindName(k);
    match k
    case MatchKind => assert key == "emailMatch";
    case MeetingKind => assert key == "emailMeeting";
    case BadgeKind => assert key == "emailBadge";
    case LoungeKind => assert key == "emailLounge";
    case SystemKind => assert key == "emailSystem";
    case CorporateKind => assert key == "emailCorporate";
  }

  /** The push keys. */
  lemma {:induction false} PushChannelPreference(r: PreferencesRecord, channel: string, k: Kind)
    requires channel == "push"
    ensures ChannelPreference(r, channel, k) == Flag(FlagsOf(r, channel).value, k)
  {
    var key := channel + KindName(k);
    match k
    case MatchKind => assert key == "pushMatch";
    case MeetingKind => assert key == "pushMeeting";
    case BadgeKind => assert key == "pushBadge";
    case LoungeKind => assert key == "pushLounge";
    case SystemKind => assert key == "pushSystem";
    case CorporateKind => assert key == "pushCorporate";
  }

  /** The in-app keys. */
  lemma {:induction false} InAppChannelPreference(r: PreferencesRecord, channel: string, k: Kind)
    requires channel == "in_app"
    ensures ChannelPreference(r, channel, k) == Flag(FlagsOf(r, channel).value, k)
  {
    var key := channel + KindName(k);
    match k
    case MatchKind => assert key == "in_appMatch";
    case MeetingKind => assert key == "in_appMeeting";
    case BadgeKind => assert key == "in_appBadge";
    case LoungeKind => assert key == "in_appLounge";
    case SystemKind => assert key == "in_appSystem";
    case CorporateKind => assert key == "in_appCorporate";
  }

  /** The concatenated-key switch is the lookup "this channel's flag for this
      kind", with every unknown channel answering true. */
  lemma {:induction false} ChannelPreferenceIsFlagLookup(r: PreferencesRecord, channel: string, k: Kind)
    ensures FlagsOf(r, channel).Some? ==> ChannelPreference(r, channel, k) == Flag(FlagsOf(r, channel).value, k)
    ensures FlagsOf(r, channel).None? ==> ChannelPreference(r, channel, k)
  {
    if channel in {"email", "push", "in_app"} {
      KnownChannelPreference(r, channel, k);
    } else {
      UnknownChannelPreference(r, channel, k);
    }
  }

  /** isNotificationEnabled on the value level. */
  function IsEnabled(r: PreferencesRecord, t: NotificationType, channel: string): (ok: bool)
    ensures FlagsOf(r, channel).Some? && !FlagsOf(r, channel).value.enabled ==> !ok
    ensures FlagsOf(r, channel).None? ==> ok
    ensures FlagsOf(r, channel).Some? && FlagsOf(r, channel).value.enabled ==>
              (ok <==> (KindOf(t).None? || Flag(FlagsOf(r, channel).value, KindOf(t).value)))
  {
    if channel == "email" && !r.email.enabled then false
    else if channel == "push" && !r.push.enabled then false
    else if channel == "in_app" && !r.inApp.enabled then false
    else
      match KindOf(t)
      case None => true
      case Some(k) => ChannelPreferenceIsFlagLookup(r, channel, k); ChannelPreference(r, channel, k)
  }

  /** The record with the flag for (`channel`, `k`) set to `v`, as the
      matching setter does. */
  function WithFlag(r: PreferencesRecord, channel: string, k: Kind, v: bool): (n: PreferencesRecord)
    requires channel in {"email", "push", "in_app"}
    ensures FlagsOf(n, channel) == Some(WithKindFlag(FlagsOf(r, channel).value, k, v))
    ensures forall c :: c != channel ==> FlagsOf(n, c) == FlagsOf(r, c)
  {
    if channel == "email" then r.(email := WithKindFlag(r.email, k, v))
    else if channel == "push" then r.(push := WithKindFlag(r.push, k, v))
    else r.(inApp := WithKindFlag(r.inApp, k, v))
  }

  /** Changing one per-type flag changes the answer for that (channel, kind)
      pair only: every other channel, and every type of another kind on the
      same channel, is answered as before. */
  lemma {:induction false} FlagChangeIsLocal(r: PreferencesRecord, channel: string, k: Kind, v: bool,
                                             t: NotificationType, c: string)
    requires channel in {"email", "push", "in_app"}
    requires c != channel || KindOf(t) != Some(k)
    ensures IsEnabled(WithFlag(r, channel, k, v), t, c) == IsEnabled(r, t, c)
  {
    var n := WithFlag(r, channel, k, v);
    if FlagsOf(r, c).Some? && c == channel && KindOf(t).Some? {
      assert Flag(FlagsOf(n, c).value, KindOf(t).value) == Flag(FlagsOf(r, c).value, KindOf(t).value);
    }
  }

  /** With the defaults every type is enabled on every channel. */
  lemma {:induction false} DefaultsEnableEverything(userId: int, now: int, t: NotificationType, channel: string)
    ensures IsEnabled(Defaults(userId, now), t, channel)
  {
    var r := Defaults(userId, now);
    if FlagsOf(r, channel).Some? && KindOf(t).Some? {
      assert FlagsOf(r, channel).value == AllOn;
    }
  }

  class NotificationPreferences {
    var userId: int
    var email: ChannelFlags
    var push: ChannelFlags
    var inApp: ChannelFlags
    var quietHoursEnabled: bool
    var quietHoursStart: Option<string>
    var quietHoursEnd: Option<string>
    var timezone: Option<string>
    var language: Option<string>
    var createdAt: int
    var updatedAt: int

    function Record(): PreferencesRecord
      reads this
    {
      PreferencesRecord(userId, email, push, inApp, quietHoursEnabled, quietHoursStart,
                        quietHoursEnd, timezone, language, createdAt, updatedAt)
    }

    /** `new NotificationPreferences(userId)`; `now` is LocalDateTime.now(). */
    constructor (userId: int, now: int)
      ensures Record() == Defaults(userId, now)
    {
      this.userId := userId;
      email := AllOn;
      push := AllOn;
      inApp := AllOn;
      quietHoursEnabled := false;
      quietHoursStart := None;
      quietHoursEnd := None;
      timezone := Some("UTC");
      language := Some("en");
      createdAt := now;
      updatedAt := now;
    }

    /** The entity as loaded from a stored row. */
    constructor Load(r: PreferencesRecord)
      ensures Record() == r
    {
      userId := r.userId;
      email := r.email;
      push := r.push;
      inApp := r.inApp;
      quietHoursEnabled := r.quietHoursEnabled;
      quietHoursStart := r.quietHoursStart;
      quietHoursEnd := r.quietHoursEnd;
      timezone := r.timezone;
      language := r.language;
      createdAt := r.createdAt;
      updatedAt := r.updatedAt;
    }

    /** setUpdatedAt: the argument is ignored and the current time `now` is
        stored; nothing else changes. */
    method SetUpdatedAt(updatedAtArgument: int, now: int)
      modifies this
      ensures Record() == old(Record()).(updatedAt := now)
    {
      updatedAt := now;
    }

    /** isNotificationEnabled. */
    function IsNotificationEnabled(t: NotificationType, channel: string): bool
      reads this
    {
      IsEnabled(Record(), t, channel)
    }
  }
}
