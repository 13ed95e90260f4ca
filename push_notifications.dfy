// PushNotificationService: an in-memory map from user to push token, and
// the sends, which deliver over the WebSocket and, for a user holding a
// token, to the browser. Delivery itself is outside the model: each send is
// recorded in the `sent` log instead.

module PushNotifications {
  import opened Common
  import opened Notifications

  /** One delivery attempt. */
  datatype Delivery =
    | WebSocket(userId: int, notification: NotificationRecord)
    | BrowserPush(userId: int, token: string, notification: NotificationRecord)

  /** What sendPushNotification delivers while push is enabled: always the
      WebSocket message, then the browser push when the user holds a token. */
  function Deliveries(userId: int, n: NotificationRecord, tokens: map<int, string>): (r: seq<Delivery>)
    ensures 1 <= |r| <= 2 && r[0] == WebSocket(userId, n)
    ensures |r| == 2 <==> userId in tokens
    ensures |r| == 2 ==> r[1] == BrowserPush(userId, tokens[userId], n)
  {
    [WebSocket(userId, n)] + (if userId in tokens then [BrowserPush(userId, tokens[userId], n)] else [])
  }

  /** The deliveries of sendBulkPushNotification, user after user. */
  function BulkDeliveries(userIds: seq<int>, n: NotificationRecord, tokens: map<int, string>): (r: seq<Delivery>)
    ensures |userIds| <= |r| <= 2 * |userIds|
    ensures forall i :: 0 <= i < |r| && r[i].BrowserPush? ==> r[i].userId in tokens && r[i].token == tokens[r[i].userId]
    ensures forall i :: 0 <= i < |r| ==> r[i].userId in userIds && r[i].notification == n
  {
    if userIds == [] then []
    else
      var front := BulkDeliveries(userIds[..|userIds| - 1], n, tokens);
      var last := Deliveries(userIds[|userIds| - 1], n, tokens);
      assert forall i :: 0 <= i < |front| ==> front[i].userId in userIds;
      front + last
  }

  /** Every user in the list gets its WebSocket message. */
  lemma {:induction false} BulkReachesEveryUser(userIds: seq<int>, n: NotificationRecord, tokens: map<int, string>, u: int)
    requires u in userIds
    ensures WebSocket(u, n) in BulkDeliveries(userIds, n, tokens)
  {
    var front := userIds[..|userIds| - 1];
    if u == userIds[|userIds| - 1] {
      assert Deliveries(u, n, tokens)[0] == WebSocket(u, n);
    } else {
      assert u in front;
      BulkReachesEveryUser(front, n, tokens, u);
    }
  }

  /** The notification the convenience senders build: `new Notification()`
      at `now` with title, message, type, priority and action URL set; the
      user id is never set. */
  function Built(title: string, message: string, t: NotificationType, p: NotificationPriority, actionUrl: string,
                 now: int): (n: NotificationRecord)
    ensures n.title == title && n.message == message && n.notificationType == Some(t) && n.priority == Some(p)
    ensures n.actionUrl == Some(actionUrl) && !n.isRead && n.readAt.None? && n.createdAt == now
  {
    NotificationRecord(0, title, message, Some(t), Some(p), false, Some(actionUrl), None, now, None, None)
  }

  /** sendMatchPushNotification's notification: a high-priority match
      message ending with the match's name, linking to the matches page. */
  function MatchNotification(matchName: string, now: int): (n: NotificationRecord)
    ensures n.title == "New Match Found!" && n.notificationType == Some(MatchFound) && n.priority == Some(High)
    ensures n.actionUrl == Some("/matches") && n.createdAt == now && !n.isRead
    ensures |n.message| >= |matchName| && n.message[|n.message| - |matchName|..] == matchName
  {
    Built("New Match Found!", "You have a new match with " + matchName, MatchFound, High, "/matches", now)
  }

  /** sendMeetingReminderPush's notification: an urgent reminder ending
      with the meeting time, linking to the meetings page. */
  function MeetingReminderNotification(meetingTitle: string, meetingTime: string, participantName: string, now: int)
    : (n: NotificationRecord)
    ensures n.title == "Meeting Reminder" && n.notificationType == Some(MeetingReminder) && n.priority == Some(Urgent)
    ensures n.actionUrl == Some("/meetings") && n.createdAt == now && !n.isRead
    ensures |n.message| >= |meetingTime| && n.message[|n.message| - |meetingTime|..] == meetingTime
  {
    Built("Meeting Reminder", "Your meeting '" + meetingTitle + "' with " + participantName + " is at " + meetingTime,
          MeetingReminder, Urgent, "/meetings", now)
  }

  /** sendBadgeEarnedPush's notification: a medium-priority message that
      names the badge, linking to the profile page. */
  function BadgeNotification(badgeName: string, now: int): (n: NotificationRecord)
    ensures n.title == "Badge Earned!" && n.notificationType == Some(BadgeEarned) && n.priority == Some(Medium)
    ensures n.actionUrl == Some("/profile") && n.createdAt == now && !n.isRead
    ensures |n.message| == |badgeName| + 43 && n.message[36..36 + |badgeName|] == badgeName
  {
    Built("Badge Earned!", "Congratulations! You've earned the '" + badgeName + "' badge", BadgeEarned, Medium,
          "/profile", now)
  }

  /** sendLoungeInvitationPush's notification: a medium-priority message
      starting with the inviter's name, linking to the lounges page. */
  function LoungeInvitationNotification(loungeName: string, inviterName: string, now: int): (n: NotificationRecord)
    ensures n.title == "Lounge Invitation" && n.notificationType == Some(LoungeInvitation) && n.priority == Some(Medium)
    ensures n.actionUrl == Some("/lounges") && n.createdAt == now && !n.isRead
    ensures |n.message| >= |inviterName| && n.message[..|inviterName|] == inviterName
  {
    Built("Lounge Invitation", inviterName + " invited you to join '" + loungeName + "' lounge", LoungeInvitation,
          Medium, "/lounges", now)
  }

  /** sendSystemAnnouncementPush's notification: the announcement's own
      title and content, at medium priority, linking to the announcements
      page. */
  function AnnouncementNotification(title: string, content: string, now: int): (n: NotificationRecord)
    ensures n.title == title && n.message == content
    ensures n.notificationType == Some(SystemAnnouncement) && n.priority == Some(Medium)
    ensures n.actionUrl == Some("/announcements") && n.createdAt == now && !n.isRead
  {
    Built(title, content, SystemAnnouncement, Medium, "/announcements", now)
  }

  /** The five convenience notifications carry their own type, priority and
      page; the meeting reminder is the only urgent one. */
  lemma ConvenienceNotifications(name: string, other: string, time: string, now: int)
    ensures var n := MeetingReminderNotification(name, time, other, now);
            n.notificationType == Some(MeetingReminder) && n.priority == Some(Urgent) && n.actionUrl == Some("/meetings")
    ensures var n := MatchNotification(name, now);
            n.notificationType == Some(MatchFound) && n.priority == Some(High) && n.actionUrl == Some("/matches")
    ensures BadgeNotification(name, now).priority == Some(Medium)
    ensures LoungeInvitationNotification(name, other, now).priority == Some(Medium)
    ensures AnnouncementNotification(name, other, now).title == name
    ensures AnnouncementNotification(name, other, now).message == other
  {
  }

  /** Registering adds at most one subscription, and only for a new user;
      unregistering removes exactly the user's own. */
  lemma {:induction false} SubscriptionCount(tokens: map<int, string>, userId: int, token: string)
    ensures |tokens[userId := token]| == |tokens| + (if userId in tokens then 0 else 1)
    ensures |tokens - {userId}| == |tokens| - (if userId in tokens then 1 else 0)
    ensures (tokens - {userId}) - {userId} == tokens - {userId}
    ensures forall v :: v in tokens && v != userId ==> v in tokens - {userId} && (tokens - {userId})[v] == tokens[v]
  {
    assert tokens[userId := token].Keys == tokens.Keys + {userId};
    assert (tokens - {userId}).Keys == tokens.Keys - {userId};
    if userId in tokens {
      assert tokens.Keys == (tokens.Keys - {userId}) + {userId};
    } else {
      assert tokens.Keys - {userId} == tokens.Keys;
    }
  }

  class PushNotificationService {
    const pushEnabled: bool
    const vapidPublicKey: string
    var userPushTokens: map<int, string>
    /** Every delivery attempted so far. */
    var sent: seq<Delivery>

    /** The service with its two configuration values and no subscriptions. */
    constructor (pushEnabled: bool, vapidPublicKey: string)
      ensures this.pushEnabled == pushEnabled && this.vapidPublicKey == vapidPublicKey
      ensures userPushTokens == map[] && sent == []
    {
      this.pushEnabled := pushEnabled;
      this.vapidPublicKey := vapidPublicKey;
      userPushTokens := map[];
      sent := [];
    }

    /** registerPushSubscription: stores or replaces the token while push is
        enabled, and otherwise does nothing. The token map is a
        ConcurrentHashMap, whose `put` throws on a null token. */
    method RegisterPushSubscription(userId: int, subscriptionToken: Option<string>) returns (r: Result<Unit>)
      modifies this
      ensures r.Err? <==> pushEnabled && subscriptionToken.None?
      ensures r.Err? ==> r.message == "NullPointerException"
      ensures userPushTokens == if pushEnabled && subscriptionToken.Some?
                                then old(userPushTokens)[userId := subscriptionToken.value] else old(userPushTokens)
      ensures sent == old(sent)
    {
      if pushEnabled {
        if subscriptionToken.None? {
          return Err("NullPointerException");
        }
        userPushTokens := userPushTokens[userId := subscriptionToken.value];
      }
      r := Ok(Unit);
    }

    /** unregisterPushSubscription: drops the user's token, if any. */
    method UnregisterPushSubscription(userId: int)
      modifies this
      ensures userPushTokens == old(userPushTokens) - {userId}
      ensures sent == old(sent)
    {
      userPushTokens := userPushTokens - {userId};
    }

    /** getRegisteredSubscriptionCount. */
    function GetRegisteredSubscriptionCount(): int
      reads this
    {
      |userPushTokens|
    }

    /** sendPushNotification: nothing while push is disabled. */
    method SendPushNotification(userId: int, notification: NotificationRecord)
      modifies this
      ensures sent == old(sent) + (if pushEnabled then Deliveries(userId, notification, userPushTokens) else [])
      ensures userPushTokens == old(userPushTokens)
    {
      if !pushEnabled {
        return;
      }
      sent := sent + [WebSocket(userId, notification)];
      if userId in userPushTokens {
        sent := sent + [BrowserPush(userId, userPushTokens[userId], notification)];
      }
    }

    /** sendBulkPushNotification: each user in turn. */
    method SendBulkPushNotification(userIds: seq<int>, notification: NotificationRecord)
      modifies this
      ensures sent == old(sent) + (if pushEnabled then BulkDeliveries(userIds, notification, userPushTokens) else [])
      ensures userPushTokens == old(userPushTokens)
    {
      if !pushEnabled {
        return;
      }
      var i := 0;
      while i < |userIds|
        invariant 0 <= i <= |userIds|
        invariant userPushTokens == old(userPushTokens)
        invariant sent == old(sent) + BulkDeliveries(userIds[..i], notification, userPushTokens)
      {
        assert userIds[..i + 1][..i] == userIds[..i];
        SendPushNotification(userIds[i], notification);
        i := i + 1;
      }
      assert userIds[..i] == userIds;
    }

    method SendMatchPushNotification(userId: int, matchName: string, matchReason: string, now: int)
      modifies this
      ensures sent == old(sent) + (if pushEnabled then Deliveries(userId, MatchNotification(matchName, now), userPushTokens) else [])
      ensures userPushTokens == old(userPushTokens)
    {
      if !pushEnabled {
        return;
      }
      SendPushNotification(userId, MatchNotification(matchName, now));
    }

    method SendMeetingReminderPush(userId: int, meetingTitle: string, meetingTime: string, participantName: string, now: int)
      modifies this
      ensures sent == old(sent) + (if pushEnabled then
                Deliveries(userId, MeetingReminderNotification(meetingTitle, meetingTime, participantName, now), userPushTokens)
                else [])
      ensures userPushTokens == old(userPushTokens)
    {
      if !pushEnabled {
        return;
      }
      SendPushNotification(userId, MeetingReminderNotification(meetingTitle, meetingTime, participantName, now));
    }

    method SendBadgeEarnedPush(userId: int, badgeName: string, badgeDescription: string, now: int)
      modifies this
      ensures sent == old(sent) + (if pushEnabled then Deliveries(userId, BadgeNotification(badgeName, now), userPushTokens) else [])
      ensures userPushTokens == old(userPushTokens)
    {
      if !pushEnabled {
        return;
      }
      SendPushNotification(userId, BadgeNotification(badgeName, now));
    }

    method SendLoungeInvitationPush(userId: int, loungeName: string, inviterName: string, now: int)
      modifies this
      ensures sent == old(sent) + (if pushEnabled then
                Deliveries(userId, LoungeInvitationNotification(loungeName, inviterName, now), userPushTokens) else [])
      ensures userPushTokens == old(userPushTokens)
    {
      if !pushEnabled {
        return;
      }
      SendPushNotification(userId, LoungeInvitationNotification(loungeName, inviterName, now));
    }

    method SendSystemAnnouncementPush(userId: int, announcementTitle: string, announcementContent: string, now: int)
      modifies this
      ensures sent == old(sent) + (if pushEnabled then
                Deliveries(userId, AnnouncementNotification(announcementTitle, announcementContent, now), userPushTokens) else [])
      ensures userPushTokens == old(userPushTokens)
    {
      if !pushEnabled {
        return;
      }
      SendPushNotification(userId, AnnouncementNotification(announcementTitle, announcementContent, now));
    }
  }
}
