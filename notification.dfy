// A notification addressed to one user. Its read flag is set in place and the
// first time it is marked read the moment is recorded, so it is a class;
// `NotificationRecord` is the value of its fields.

module Notifications {
  import opened Common

  datatype NotificationType =
    | MatchFound
    | MessageReceived
    | MeetingScheduled
    | MeetingReminder
    | FeedbackRequest
    | BadgeEarned
    | LoungeInvitation
    | SystemAnnouncement
    | CompanyAnnouncement
    | ProfileUpdate
    | ConnectionRequest

  /** Enum constant name, as `NotificationType.valueOf` reads it. */
  function TypeName(t: NotificationType): (r: string)
    ensures IsConstantName(r)
  {
    match t
    case MatchFound => "MATCH_FOUND"
    case MessageReceived => "MESSAGE_RECEIVED"
    case MeetingScheduled => "MEETING_SCHEDULED"
    case MeetingReminder => "MEETING_REMINDER"
    case FeedbackRequest => "FEEDBACK_REQUEST"
    case BadgeEarned => "BADGE_EARNED"
    case LoungeInvitation => "LOUNGE_INVITATION"
    case SystemAnnouncement => "SYSTEM_ANNOUNCEMENT"
    case CompanyAnnouncement => "COMPANY_ANNOUNCEMENT"
    case ProfileUpdate => "PROFILE_UPDATE"
    case ConnectionRequest => "CONNECTION_REQUEST"
  }

  /** NotificationType.valueOf: the constant with exactly this name, if any. */
  function TypeOf(name: string): (t: Option<NotificationType>)
    ensures t.Some? ==> TypeName(t.value) == name
  {
    if name == "MATCH_FOUND" then Some(MatchFound)
    else if name == "MESSAGE_RECEIVED" then Some(MessageReceived)
    else if name == "MEETING_SCHEDULED" then Some(MeetingScheduled)
    else if name == "MEETING_REMINDER" then Some(MeetingReminder)
    else if name == "FEEDBACK_REQUEST" then Some(FeedbackRequest)
    else if name == "BADGE_EARNED" then Some(BadgeEarned)
    else if name == "LOUNGE_INVITATION" then Some(LoungeInvitation)
    else if name == "SYSTEM_ANNOUNCEMENT" then Some(SystemAnnouncement)
    else if name == "COMPANY_ANNOUNCEMENT" then Some(CompanyAnnouncement)
    else if name == "PROFILE_UPDATE" then Some(ProfileUpdate)
    else if name == "CONNECTION_REQUEST" then Some(ConnectionRequest)
    else None
  }

  /** valueOf recognises every constant's own name, so the two are inverse. */
  lemma TypeOfName(t: NotificationType)
    ensures TypeOf(TypeName(t)) == Some(t)
  {
  }

  datatype NotificationPriority = Low | Medium | High | Urgent

  datatype NotificationRecord = NotificationRecord(
    userId: int,
    title: string,
    message: string,
    notificationType: Option<NotificationType>,
    priority: Option<NotificationPriority>,
    isRead: bool,
    actionUrl: Option<string>,
    metadata: Option<string>,
    createdAt: int,
    readAt: Option<int>,
    expiresAt: Option<int>)

  /** setIsRead on the value level: the flag takes the new value, and the
      read time is recorded only by the first call that marks it read. */
  function MarkRead(r: NotificationRecord, isRead: bool, now: int): (n: NotificationRecord)
    ensures n.isRead == isRead
    ensures r.readAt.Some? ==> n.readAt == r.readAt
    ensures r.readAt.None? ==> (n.readAt.Some? <==> isRead)
    ensures n.readAt.Some? && r.readAt.None? ==> n.readAt.value == now
    ensures n.(isRead := r.isRead, readAt := r.readAt) == r
  {
    r.(isRead := isRead, readAt := if isRead && r.readAt.None? then Some(now) else r.readAt)
  }

  /** The time of the first call in `calls` that marks the notification read. */
  function FirstReadTime(calls: seq<(bool, int)>): (t: Option<int>)
    ensures t.Some? <==> exists k :: 0 <= k < |calls| && calls[k].0
  {
    if calls == [] then None
    else if calls[0].0 then Some(calls[0].1)
    else FirstReadTime(calls[1..])
  }

  /** A run of setIsRead calls (flag, time), applied left to right. */
  function MarkAll(r: NotificationRecord, calls: seq<(bool, int)>): NotificationRecord
    decreases |calls|
  {
    if calls == [] then r else MarkAll(MarkRead(r, calls[0].0, calls[0].1), calls[1..])
  }

  /** Starting from a notification never read, any run of setIsRead calls
      leaves readAt at the time of the first call that marked it read, and the
      flag at the last call's value. */
  lemma {:induction false} ReadAtIsFirstRead(r: NotificationRecord, calls: seq<(bool, int)>)
    requires r.readAt.None?
    ensures MarkAll(r, calls).readAt == FirstReadTime(calls)
    ensures calls != [] ==> MarkAll(r, calls).isRead == calls[|calls| - 1].0
    decreases |calls|
  {
    if calls != [] {
      var n := MarkRead(r, calls[0].0, calls[0].1);
      if calls[0].0 {
        ReadAtIsKept(n, calls[1..]);
      } else {
        ReadAtIsFirstRead(n, calls[1..]);
      }
      LastFlagWins(r, calls);
    }
  }

  /** Once a read time is recorded no later call changes it. */
  lemma {:induction false} ReadAtIsKept(r: NotificationRecord, calls: seq<(bool, int)>)
    requires r.readAt.Some?
    ensures MarkAll(r, calls).readAt == r.readAt
    decreases |calls|
  {
    if calls != [] {
      ReadAtIsKept(MarkRead(r, calls[0].0, calls[0].1), calls[1..]);
    }
  }

  /** The read flag after a non-empty run is the last call's flag. */
  lemma {:induction false} LastFlagWins(r: NotificationRecord, calls: seq<(bool, int)>)
    requires calls != []
    ensures MarkAll(r, calls).isRead == calls[|calls| - 1].0
    decreases |calls|
  {
    if |calls| > 1 {
      LastFlagWins(MarkRead(r, calls[0].0, calls[0].1), calls[1..]);
    }
  }

  class Notification {
    var userId: int
    var title: string
    var message: string
    var notificationType: Option<NotificationType>
    var priority: Option<NotificationPriority>
    var isRead: bool
    var actionUrl: Option<string>
    var metadata: Option<string>
    var createdAt: int
    var readAt: Option<int>
    var expiresAt: Option<int>

    function Record(): NotificationRecord
      reads this
    {
      NotificationRecord(userId, title, message, notificationType, priority, isRead,
                         actionUrl, metadata, createdAt, readAt, expiresAt)
    }

    /** The no-argument constructor: unread, never read, created now. The
        Java reference fields it leaves null are modelled as 0, "" and None. */
    constructor Empty(now: int)
      ensures !isRead && readAt == None && createdAt == now
      ensures notificationType == None && priority == None
      ensures actionUrl == None && metadata == None && expiresAt == None
    {
      userId := 0;
      title := "";
      message := "";
      notificationType := None;
      priority := None;
      isRead := false;
      actionUrl := None;
      metadata := None;
      createdAt := now;
      readAt := None;
      expiresAt := None;
    }

    /** The five-argument constructor: the given fields plus the defaults. */
    constructor (userId: int, title: string, message: string, t: NotificationType,
                 priority: NotificationPriority, now: int)
      ensures Record() == NotificationRecord(userId, title, message, Some(t), Some(priority),
                                             false, None, None, now, None, None)
    {
      this.userId := userId;
      this.title := title;
      this.message := message;
      notificationType := Some(t);
      this.priority := Some(priority);
      isRead := false;
      actionUrl := None;
      metadata := None;
      createdAt := now;
      readAt := None;
      expiresAt := None;
    }

    /** setIsRead; `now` is LocalDateTime.now(). */
    method SetIsRead(read: bool, now: int)
      modifies this
      ensures Record() == MarkRead(old(Record()), read, now)
    {
      isRead := read;
      if read && readAt.None? {
        readAt := Some(now);
      }
    }
  }
}
