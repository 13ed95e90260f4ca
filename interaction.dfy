// The behaviour log the matching services write to: one row per interaction
// of a user, possibly with a target user, weighted by its kind.

module Interactions {
  import opened Common

  datatype InteractionType =
    | ProfileView
    | MatchAcceptedInteraction
    | MatchRejectedInteraction
    | MessageSent
    | MeetingCompleted
    | SkillSearch
    | InterestSearch
    | LoungeJoined
    | FeedbackGiven

  /** A UserInteraction row; `createdAt` is in minutes. */
  datatype InteractionRecord = InteractionRecord(
    userId: int,
    targetUserId: Option<int>,
    interactionType: InteractionType,
    interactionValue: Option<string>,
    weight: real,
    createdAt: int)

  /** The weight recordInteraction gives each kind: rejections count
      against, completed meetings most, anything unlisted 1. */
  function InteractionWeight(t: InteractionType): (w: real)
    ensures w < 0.0 <==> t == MatchRejectedInteraction
    ensures -1.0 <= w <= 3.0 && (w == 3.0 <==> t == MeetingCompleted)
  {
    match t
    case MatchAcceptedInteraction => 2.0
    case MeetingCompleted => 3.0
    case FeedbackGiven => 1.5
    case ProfileView => 0.5
    case MatchRejectedInteraction => -1.0
    case _ => 1.0
  }

  /** The row recordInteraction saves. */
  function RecordedInteraction(userId: int, targetUserId: int, t: InteractionType, value: string, now: int): (r: InteractionRecord)
    ensures r.userId == userId && r.targetUserId == Some(targetUserId) && r.interactionType == t
    ensures r.interactionValue == Some(value) && r.weight == InteractionWeight(t) && r.createdAt == now
  {
    InteractionRecord(userId, Some(targetUserId), t, Some(value), InteractionWeight(t), now)
  }
}
