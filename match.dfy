// The match between two users and the chat-history log that records what
// happens to it. Both are stored rows that the services load, change and save.

module Matches {
  import opened Common

  datatype MatchType = CoffeeChat | Mentorship | Networking | TopicDiscussion

  datatype MatchStatus = Pending | Accepted | Rejected | Scheduled | InProgress | Completed | Cancelled

  /** A match; user1 asked, user2 was asked. Times are minutes. */
  datatype MatchRecord = MatchRecord(
    id: int,
    user1Id: int,
    user2Id: int,
    matchType: MatchType,
    status: MatchStatus,
    scheduledTime: Option<int>,
    durationMinutes: Option<int>,
    compatibilityScore: Option<real>,
    matchReason: Option<string>,
    isActive: bool)

  /** Every match is stored under its own id. */
  predicate MatchesKeyedById(rows: map<int, MatchRecord>)
  {
    forall id :: id in rows ==> rows[id].id == id
  }

  /** existsByUser1IdAndUser2IdAndStatusAndIsActiveTrue(user1, user2, PENDING). */
  predicate PendingRequestExists(rows: map<int, MatchRecord>, user1: int, user2: int)
  {
    exists id :: id in rows && rows[id].user1Id == user1 && rows[id].user2Id == user2
                 && rows[id].status == Pending && rows[id].isActive
  }

  /** findByIdAndIsActiveTrue. */
  function ActiveMatch(rows: map<int, MatchRecord>, id: int): (m: Option<MatchRecord>)
    ensures m.Some? <==> id in rows && rows[id].isActive
    ensures m.Some? ==> m.value == rows[id]
  {
    if id in rows && rows[id].isActive then Some(rows[id]) else None
  }

  datatype MessageType =
    | TextMessage
    | SystemMessage
    | MatchRequestMessage
    | MatchAcceptedMessage
    | MatchRejectedMessage
    | ChatStartedMessage
    | ChatEndedMessage

  /** A ChatHistory row; `timestamp` is in minutes. */
  datatype ChatEntry = ChatEntry(
    matchId: int,
    userId: int,
    messageType: MessageType,
    content: string,
    timestamp: int,
    isSystemMessage: bool)

  /** The entry logChatMessage writes: every typed message but plain text is
      a system message. */
  function ChatEntryOf(matchId: int, userId: int, content: string, t: MessageType, now: int): (e: ChatEntry)
    ensures e.matchId == matchId && e.userId == userId && e.content == content
    ensures e.messageType == t && e.timestamp == now
    ensures e.isSystemMessage <==> t != TextMessage
  {
    ChatEntry(matchId, userId, t, content, now, t != TextMessage)
  }
}
