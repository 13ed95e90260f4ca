// The activity log entity shared by the gamification services: one record
// per scored user action.

module Activities {
  import opened Common

  datatype ActivityType =
    | Login
    | CoffeeChatRequest
    | CoffeeChatAccepted
    | CoffeeChatCompleted
    | LoungeJoined
    | LoungeCreated
    | LoungeMessageSent
    | ProfileUpdated
    | MatchFound
    | BadgeEarned

  /** A row of the activity log. `pointsEarned` defaults to 0 on the entity. */
  datatype ActivityLog = ActivityLog(
    userId: int,
    activityType: ActivityType,
    entityId: Option<int>,
    activityData: Option<string>,
    pointsEarned: int,
    createdAt: int)

  /** `countByUserIdAndActivityType`: rows of this user with this type. */
  function CountActivities(log: seq<ActivityLog>, userId: int, t: ActivityType): (n: nat)
    ensures n <= |log|
    ensures n == 0 <==> forall i :: 0 <= i < |log| ==> !(log[i].userId == userId && log[i].activityType == t)
  {
    if log == [] then 0
    else CountActivities(log[..|log| - 1], userId, t)
         + (if log[|log| - 1].userId == userId && log[|log| - 1].activityType == t then 1 else 0)
  }

  /** `getTotalPointsByUserId`: SUM over the user's rows, which SQL makes NULL when there are none. */
  function TotalPoints(log: seq<ActivityLog>, userId: int): (total: Option<int>)
    ensures total.None? <==> forall i :: 0 <= i < |log| ==> log[i].userId != userId
  {
    if log == [] then None
    else
      var rest := TotalPoints(log[..|log| - 1], userId);
      var last := log[|log| - 1];
      if last.userId != userId then rest
      else Some(rest.GetOr(0) + last.pointsEarned)
  }

  lemma {:induction false} CountActivitiesAppend(log: seq<ActivityLog>, entry: ActivityLog, userId: int, t: ActivityType)
    ensures CountActivities(log + [entry], userId, t)
            == CountActivities(log, userId, t) + (if entry.userId == userId && entry.activityType == t then 1 else 0)
  {
    assert (log + [entry])[..|log + [entry]| - 1] == log;
  }

  /** The user's total after one more row is logged. */
  lemma {:induction false} TotalPointsAppend(log: seq<ActivityLog>, entry: ActivityLog, userId: int)
    ensures entry.userId != userId ==> TotalPoints(log + [entry], userId) == TotalPoints(log, userId)
    ensures entry.userId == userId ==>
              TotalPoints(log + [entry], userId) == Some(TotalPoints(log, userId).GetOr(0) + entry.pointsEarned)
  {
    assert (log + [entry])[..|log + [entry]| - 1] == log;
  }

  /** The activity log table. Rows are only ever appended. */
  class ActivityLogRepository {
    var rows: seq<ActivityLog>

    constructor ()
      ensures rows == []
    {
      rows := [];
    }

    method Save(entry: ActivityLog)
      modifies this
      ensures rows == old(rows) + [entry]
    {
      rows := rows + [entry];
    }
  }
}
