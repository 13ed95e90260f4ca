// Meeting scheduling: the slot overlap rule, the conflict window around a
// proposed meeting, the meeting and match status transitions, reminders and
// the weekday business-hour slot suggestions. Times are minutes since the
// epoch; `now` is a parameter.

module MeetingScheduling {
  import opened Common
  import opened Tables
  import opened Users
  import Matches

  datatype MeetingType = VirtualMeeting | InPersonMeeting | PhoneCallMeeting | CoffeeChatMeeting

  datatype MeetingStatus = Scheduled | Confirmed | Rescheduled | Cancelled | InProgress | Completed | NoShow

  /** A ScheduledMeeting row (the serialised conversation starters left out). */
  datatype MeetingRecord = MeetingRecord(
    id: int,
    matchId: int,
    organizerId: int,
    participantId: int,
    title: string,
    description: string,
    startTime: int,
    endTime: int,
    timeZone: string,
    meetingType: Option<MeetingType>,
    location: Option<string>,
    reminderSent: bool,
    status: MeetingStatus,
    actualStartTime: Option<int>,
    actualEndTime: Option<int>,
    notes: Option<string>)

  predicate MeetingsKeyedById(rows: map<int, MeetingRecord>)
  {
    forall id :: id in rows ==> rows[id].id == id
  }

  // ----- time slots

  datatype TimeSlot = TimeSlot(startTime: int, endTime: int)

  /** TimeSlot.overlapsWith: each starts before the other ends. */
  predicate Overlaps(a: TimeSlot, b: TimeSlot)
  {
    a.startTime < b.endTime && a.endTime > b.startTime
  }

  /** Overlap does not depend on which slot asks. */
  lemma OverlapIsSymmetric(a: TimeSlot, b: TimeSlot)
    ensures Overlaps(a, b) <==> Overlaps(b, a)
  {
  }

  /** Slots are half open: back-to-back slots do not overlap. */
  lemma TouchingSlotsDoNotOverlap(a: TimeSlot, b: TimeSlot)
    requires a.endTime == b.startTime
    ensures !Overlaps(a, b) && !Overlaps(b, a)
  {
  }

  /** A slot overlaps itself exactly when it is non-empty. */
  lemma SlotOverlapsItself(a: TimeSlot)
    ensures Overlaps(a, a) <==> a.startTime < a.endTime
  {
  }

  function SlotOf(m: MeetingRecord): TimeSlot
  {
    TimeSlot(m.startTime, m.endTime)
  }

  // ----- queries

  /** findUserMeetingsInRange: the user organises or attends it and it
      starts within [from, to], whatever its status. */
  predicate InRange(m: MeetingRecord, userId: int, from: int, to: int)
  {
    (m.organizerId == userId || m.participantId == userId) && from <= m.startTime <= to
  }

  /** The half hour kept free on either side of a meeting. */
  const ConflictMarginMinutes: int := 30

  /** hasSchedulingConflict: some meeting of the user starts within half an
      hour before the start to half an hour after the end. */
  predicate HasConflict(rows: map<int, MeetingRecord>, userId: int, startTime: int, endTime: int)
  {
    exists id :: id in rows && InRange(rows[id], userId, startTime - ConflictMarginMinutes, endTime + ConflictMarginMinutes)
  }

  /** A meeting starting inside the window is a conflict, and one starting
      outside it is not, whatever either meeting's length or status. */
  lemma {:induction false} ConflictIsStartInWindow(rows: map<int, MeetingRecord>, userId: int,
                                                   startTime: int, endTime: int, id: int)
    requires id in rows && (rows[id].organizerId == userId || rows[id].participantId == userId)
    ensures startTime - 30 <= rows[id].startTime <= endTime + 30 ==> HasConflict(rows, userId, startTime, endTime)
    ensures (forall j :: j in rows && j != id ==> !InRange(rows[j], userId, startTime - 30, endTime + 30)) ==>
              (HasConflict(rows, userId, startTime, endTime) <==> startTime - 30 <= rows[id].startTime <= endTime + 30)
  {
    if startTime - 30 <= rows[id].startTime <= endTime + 30 {
      assert InRange(rows[id], userId, startTime - ConflictMarginMinutes, endTime + ConflictMarginMinutes);
    }
  }

  /** The other user of the match: user2 when the organiser is user1, and
      user1 in every other case, even an organiser outside the match. */
  function Participant(m: Matches.MatchRecord, organizerId: int): (p: int)
    ensures organizerId == m.user1Id ==> p == m.user2Id
    ensures organizerId == m.user2Id && m.user1Id != m.user2Id ==> p == m.user1Id
    ensures organizerId != m.user1Id && organizerId != m.user2Id ==> p == m.user1Id
  {
    if m.user1Id == organizerId then m.user2Id else m.user1Id
  }

  /** The calendar title names both people, the organiser first. */
  function Title(organizer: UserRecord, participant: UserRecord): (t: string)
    ensures var head := "Coffee Chat: " + organizer.name;
            |head| + |participant.name| <= |t| && t[..|head|] == head && t[|t| - |participant.name|..] == participant.name
  {
    "Coffee Chat: " + organizer.name + " & " + participant.name
  }

  function IndustrySuffix(industry: Option<string>): string
  {
    if industry.Some? then " (" + industry.value + ")" else ""
  }

  /** The description lists both people, each with an industry when set. */
  function Description(organizer: UserRecord, participant: UserRecord): (d: string)
    ensures "Water Cooler Network Coffee Chat\n\nParticipants:\n\U{2022} " + organizer.name <= d
    ensures var tail := "\U{2022} " + participant.name + IndustrySuffix(participant.industry) + "\n\n" + NetworkingNote;
            |tail| <= |d| && d[|d| - |tail|..] == tail
  {
    "Water Cooler Network Coffee Chat\n\nParticipants:\n"
    + "\U{2022} " + organizer.name + IndustrySuffix(organizer.industry) + "\n"
    + "\U{2022} " + participant.name + IndustrySuffix(participant.industry) + "\n\n"
    + NetworkingNote
  }

  const NetworkingNote := "This is a networking opportunity to connect, share experiences, and learn from each other."

  /** The meeting scheduleMeeting saves. */
  function NewMeeting(id: int, matchId: int, organizer: UserRecord, participant: UserRecord,
                      startTime: int, endTime: int, meetingType: Option<MeetingType>,
                      location: Option<string>): (m: MeetingRecord)
    ensures m.id == id && m.matchId == matchId
    ensures m.organizerId == organizer.id && m.participantId == participant.id
    ensures m.startTime == startTime && m.endTime == endTime && m.timeZone == "UTC"
    ensures m.status == Scheduled && !m.reminderSent
    ensures m.actualStartTime.None? && m.actualEndTime.None? && m.notes.None?
  {
    MeetingRecord(id, matchId, organizer.id, participant.id, Title(organizer, participant),
                  Description(organizer, participant), startTime, endTime, "UTC", meetingType,
                  location, false, Scheduled, None, None, None)
  }

  /** The checks of scheduleMeeting, in order; on success the participant. */
  function ScheduleCheck(matches: map<int, Matches.MatchRecord>, users: map<int, UserRecord>,
                         meetings: map<int, MeetingRecord>, matchId: int, organizerId: int,
                         startTime: int, endTime: int): (r: Result<int>)
    ensures matchId !in matches ==> r == Err("Match not found")
    ensures matchId in matches && organizerId !in users ==> r == Err("Organizer not found")
    ensures matchId in matches && organizerId in users && Participant(matches[matchId], organizerId) !in users ==>
              r == Err("Participant not found")
    ensures r.Ok? <==>
              matchId in matches && organizerId in users && Participant(matches[matchId], organizerId) in users
              && !HasConflict(meetings, organizerId, startTime, endTime)
              && !HasConflict(meetings, Participant(matches[matchId], organizerId), startTime, endTime)
    ensures r.Ok? ==> r.value == Participant(matches[matchId], organizerId)
    ensures r.Err? && matchId in matches && organizerId in users && Participant(matches[matchId], organizerId) in users ==>
              r == Err("Scheduling conflict detected")
  {
    if matchId !in matches then Err("Match not found")
    else if organizerId !in users then Err("Organizer not found")
    else
      var participantId := Participant(matches[matchId], organizerId);
      if participantId !in users then Err("Participant not found")
      else if HasConflict(meetings, organizerId, startTime, endTime)
              || HasConflict(meetings, participantId, startTime, endTime) then
        Err("Scheduling conflict detected")
      else Ok(participantId)
  }

  /** The checks of rescheduleMeeting. */
  function RescheduleCheck(meetings: map<int, MeetingRecord>, meetingId: int,
                           newStart: int, newEnd: int): (r: Result<Unit>)
    ensures meetingId !in meetings ==> r == Err("Meeting not found")
    ensures r.Ok? <==>
              meetingId in meetings
              && !HasConflict(meetings, meetings[meetingId].organizerId, newStart, newEnd)
              && !HasConflict(meetings, meetings[meetingId].participantId, newStart, newEnd)
    ensures r.Err? && meetingId in meetings ==> r == Err("Scheduling conflict with new time")
  {
    if meetingId !in meetings then Err("Meeting not found")
    else if HasConflict(meetings, meetings[meetingId].organizerId, newStart, newEnd)
            || HasConflict(meetings, meetings[meetingId].participantId, newStart, newEnd) then
      Err("Scheduling conflict with new time")
    else Ok(Unit)
  }

  /** The meeting's own row counts against it: moving a meeting to a time
      whose window still covers its old start always fails. */
  lemma {:induction false} NearbyRescheduleFails(meetings: map<int, MeetingRecord>, meetingId: int,
                                                 newStart: int, newEnd: int)
    requires meetingId in meetings
    requires newStart - 30 <= meetings[meetingId].startTime <= newEnd + 30
    ensures RescheduleCheck(meetings, meetingId, newStart, newEnd) == Err("Scheduling conflict with new time")
  {
    assert InRange(meetings[meetingId], meetings[meetingId].organizerId,
                   newStart - ConflictMarginMinutes, newEnd + ConflictMarginMinutes);
  }

  /** The meeting after rescheduleMeeting. */
  function Moved(m: MeetingRecord, newStart: int, newEnd: int): (n: MeetingRecord)
    ensures n.startTime == newStart && n.endTime == newEnd
    ensures n.status == Rescheduled && !n.reminderSent
    ensures n.(startTime := m.startTime, endTime := m.endTime, status := m.status, reminderSent := m.reminderSent) == m
  {
    m.(startTime := newStart, endTime := newEnd, status := Rescheduled, reminderSent := false)
  }

  // ----- reminders

  /** findMeetingsNeedingReminders(now, now + 1 hour). */
  predicate NeedsReminder(m: MeetingRecord, now: int)
  {
    !m.reminderSent && now <= m.startTime <= PlusHours(now, 1)
  }

  /** sendMeetingReminders over the whole table: the meetings starting within
      the hour that were not yet reminded are marked reminded; no other row
      changes. */
  function Reminded(rows: map<int, MeetingRecord>, now: int): (r: map<int, MeetingRecord>)
    ensures r.Keys == rows.Keys
    ensures forall id :: id in rows ==>
              r[id] == (if NeedsReminder(rows[id], now) then rows[id].(reminderSent := true) else rows[id])
  {
    map id | id in rows :: if NeedsReminder(rows[id], now) then rows[id].(reminderSent := true) else rows[id]
  }

  /** Marks each meeting that needs a reminder as reminded, one at a time. */
  method RemindAll(meetings: Table<MeetingRecord>, now: int)
    requires meetings.Valid()
    modifies meetings
    ensures meetings.Valid()
    ensures meetings.rows == Reminded(old(meetings.rows), now)
  {
    ghost var before := meetings.rows;
    var due := set id | id in meetings.rows && NeedsReminder(meetings.rows[id], now);
    PartlyRemindedNone(before, now, due);
    while exists id :: id in due
      invariant meetings.Valid()
      invariant forall id :: id in due ==> id in before && NeedsReminder(before[id], now)
      invariant meetings.rows == PartlyReminded(before, now, due)
      decreases |due|
    {
      var mid :| mid in due;
      PartlyRemindedStep(before, now, due, mid);
      meetings.Update(mid, meetings.rows[mid].(reminderSent := true));
      due := due - {mid};
    }
    PartlyRemindedAll(before, now, due);
  }

  /** The meetings that need a reminder, those in `pending` excepted, marked
      reminded. */
  function PartlyReminded(rows: map<int, MeetingRecord>, now: int, pending: set<int>): map<int, MeetingRecord>
  {
    map id | id in rows :: if NeedsReminder(rows[id], now) && id !in pending then rows[id].(reminderSent := true) else rows[id]
  }

  /** With every due meeting pending, nothing is marked yet. */
  lemma PartlyRemindedNone(rows: map<int, MeetingRecord>, now: int, pending: set<int>)
    requires forall id :: id in rows && NeedsReminder(rows[id], now) ==> id in pending
    ensures PartlyReminded(rows, now, pending) == rows
  {
    var m := PartlyReminded(rows, now, pending);
    assert m.Keys == rows.Keys;
    forall id | id in m
      ensures m[id] == rows[id]
    {
    }
  }

  /** Marking one more pending meeting. */
  lemma PartlyRemindedStep(rows: map<int, MeetingRecord>, now: int, pending: set<int>, id: int)
    requires id in pending && id in rows && NeedsReminder(rows[id], now)
    ensures id in PartlyReminded(rows, now, pending) && PartlyReminded(rows, now, pending)[id] == rows[id]
    ensures PartlyReminded(rows, now, pending)[id := rows[id].(reminderSent := true)]
            == PartlyReminded(rows, now, pending - {id})
  {
  }

  /** With nothing pending, every due meeting is marked. */
  lemma PartlyRemindedAll(rows: map<int, MeetingRecord>, now: int, pending: set<int>)
    requires pending == {}
    ensures PartlyReminded(rows, now, pending) == Reminded(rows, now)
  {
  }

  /** A second round of reminders at the same moment sends nothing. */
  lemma {:induction false} RemindersAreSentOnce(rows: map<int, MeetingRecord>, now: int)
    ensures forall id :: id in rows ==> !NeedsReminder(Reminded(rows, now)[id], now)
    ensures Reminded(Reminded(rows, now), now) == Reminded(rows, now)
  {
    var once := Reminded(rows, now);
    forall id | id in once
      ensures !NeedsReminder(once[id], now)
    {
      if NeedsReminder(rows[id], now) {
        assert once[id].reminderSent;
      }
    }
    assert Reminded(once, now) == once;
  }

  // ----- suggestions

  const SuggestionDays: int := 14

  /** Nine o'clock on the `day`-th day after `now`. */
  function DayStart(now: int, day: int): int
  {
    (DateOf(now) + day) * MinutesPerDay + 9 * MinutesPerHour
  }

  /** Five o'clock the same day. */
  function DayEnd(now: int, day: int): int
  {
    DayStart(now, day) + 8 * MinutesPerHour
  }

  /** The start of the `k`-th hourly slot of that day. */
  function HourlySlotStart(now: int, day: int, k: int): int
  {
    DayStart(now, day) + k * MinutesPerHour
  }

  predicate IsWeekday(day: int)
  {
    DayOfWeek(day) <= 5
  }

  /** A slot suggestMeetingTimes may propose: on a weekday 1 to 14 days
      ahead, starting on a whole hour from nine, ending strictly before five,
      lasting exactly the requested time. */
  ghost predicate IsBusinessSlot(now: int, duration: int, s: TimeSlot)
  {
    s.endTime == s.startTime + duration &&
    exists day, k :: BusinessSlotAt(now, s, day, k)
  }

  /** `s` is the `k`-th hourly slot of the `day`-th day, a weekday within
      the window, and ends before five. */
  predicate BusinessSlotAt(now: int, s: TimeSlot, day: int, k: int)
  {
    1 <= day <= SuggestionDays && IsWeekday(DateOf(now) + day) && 0 <= k
    && s.startTime == HourlySlotStart(now, day, k)
    && s.endTime < DayEnd(now, day)
  }

  /** A meeting of either user starting within the two weeks from now. */
  predicate BusyFor(m: MeetingRecord, user1Id: int, user2Id: int, now: int)
  {
    InRange(m, user1Id, now, PlusDays(now, SuggestionDays)) || InRange(m, user2Id, now, PlusDays(now, SuggestionDays))
  }

  /** A slot overlapping none of the busy ones. */
  predicate Free(busy: set<TimeSlot>, s: TimeSlot)
  {
    forall b :: b in busy ==> !Overlaps(s, b)
  }

  /** The free slots of the requested length starting at `slotStart` and
      every hour after it, while they end before `dayEnd`. */
  function SlotsFrom(busy: set<TimeSlot>, slotStart: int, dayEnd: int, duration: int): seq<TimeSlot>
    decreases dayEnd - duration - slotStart
  {
    if slotStart + duration < dayEnd then
      var proposed := TimeSlot(slotStart, slotStart + duration);
      (if Free(busy, proposed) then [proposed] else []) + SlotsFrom(busy, slotStart + MinutesPerHour, dayEnd, duration)
    else []
  }

  /** Slots starting no earlier than `slotStart`, ending (at the requested
      length) before `dayEnd`, in increasing start order. */
  ghost predicate SoundSlots(r: seq<TimeSlot>, slotStart: int, dayEnd: int, duration: int)
  {
    && (forall i :: 0 <= i < |r| ==> slotStart <= r[i].startTime && r[i].startTime + duration < dayEnd)
    && (forall i, j :: 0 <= i < j < |r| ==> r[i].startTime < r[j].startTime)
  }

  /** The slots from `slotStart` are all of that kind. */
  lemma {:induction false} SlotsFromSound(busy: set<TimeSlot>, slotStart: int, dayEnd: int, duration: int)
    ensures SoundSlots(SlotsFrom(busy, slotStart, dayEnd, duration), slotStart, dayEnd, duration)
    decreases dayEnd - duration - slotStart
  {
    SlotsFromUnfold(busy, slotStart, dayEnd, duration);
    if slotStart + duration < dayEnd {
      var proposed := TimeSlot(slotStart, slotStart + duration);
      var rest := SlotsFrom(busy, slotStart + MinutesPerHour, dayEnd, duration);
      SlotsFromSound(busy, slotStart + MinutesPerHour, dayEnd, duration);
      SoundSlotsCons(proposed, rest, slotStart, dayEnd, duration);
    }
  }

  /** One hourly step of the slots of a day. */
  lemma SlotsFromUnfold(busy: set<TimeSlot>, slotStart: int, dayEnd: int, duration: int)
    ensures !(slotStart + duration < dayEnd) ==> SlotsFrom(busy, slotStart, dayEnd, duration) == []
    ensures slotStart + duration < dayEnd && Free(busy, TimeSlot(slotStart, slotStart + duration)) ==>
              SlotsFrom(busy, slotStart, dayEnd, duration)
              == [TimeSlot(slotStart, slotStart + duration)] + SlotsFrom(busy, slotStart + MinutesPerHour, dayEnd, duration)
    ensures slotStart + duration < dayEnd && !Free(busy, TimeSlot(slotStart, slotStart + duration)) ==>
              SlotsFrom(busy, slotStart, dayEnd, duration) == SlotsFrom(busy, slotStart + MinutesPerHour, dayEnd, duration)
  {
    if slotStart + duration < dayEnd && !Free(busy, TimeSlot(slotStart, slotStart + duration)) {
      EmptyAppend(SlotsFrom(busy, slotStart + MinutesPerHour, dayEnd, duration));
    }
  }

  /** A slot at `start` before slots from the next hour on, or those slots
      alone, keep the shape from `start`. */
  lemma SoundSlotsCons(p: TimeSlot, rest: seq<TimeSlot>, start: int, dayEnd: int, duration: int)
    requires p.startTime == start && start + duration < dayEnd
    requires SoundSlots(rest, start + MinutesPerHour, dayEnd, duration)
    ensures SoundSlots([p] + rest, start, dayEnd, duration) && SoundSlots(rest, start, dayEnd, duration)
  {
    var r := [p] + rest;
    assert forall i :: 1 <= i < |r| ==> r[i] == rest[i - 1];
  }

  /** The free slots of the `day`-th day after `now`, from nine o'clock. */
  function DaySlots(busy: set<TimeSlot>, now: int, day: int, duration: int): seq<TimeSlot>
  {
    SlotsFrom(busy, DayStart(now, day), DayEnd(now, day), duration)
  }

  /** The free slots of the weekdays from the `day`-th day to the
      fourteenth, day by day. */
  function FreeSlotsFrom(busy: set<TimeSlot>, now: int, duration: int, day: int): seq<TimeSlot>
    decreases SuggestionDays + 1 - day
  {
    if day > SuggestionDays then []
    else (if IsWeekday(DateOf(now) + day) then DaySlots(busy, now, day, duration) else [])
         + FreeSlotsFrom(busy, now, duration, day + 1)
  }

  /** Slots starting no earlier than `from` and, for a non-negative length,
      in increasing start order. */
  ghost predicate OrderedFrom(r: seq<TimeSlot>, from: int, duration: int)
  {
    && (forall i :: 0 <= i < |r| ==> from <= r[i].startTime)
    && (duration >= 0 ==> forall i, j :: 0 <= i < j < |r| ==> r[i].startTime < r[j].startTime)
  }

  /** The free slots from the `day`-th day on are of that kind, from that
      day's nine o'clock. */
  lemma {:induction false} FreeSlotsFromOrdered(busy: set<TimeSlot>, now: int, duration: int, day: int)
    ensures OrderedFrom(FreeSlotsFrom(busy, now, duration, day), DayStart(now, day), duration)
    decreases SuggestionDays + 1 - day
  {
    if day <= SuggestionDays {
      var today := if IsWeekday(DateOf(now) + day) then DaySlots(busy, now, day, duration) else [];
      var rest := FreeSlotsFrom(busy, now, duration, day + 1);
      FreeSlotsFromOrdered(busy, now, duration, day + 1);
      assert FreeSlotsFrom(busy, now, duration, day) == today + rest;
      var start := DayStart(now, day);
      assert DayStart(now, day + 1) == start + MinutesPerDay;
      assert DayEnd(now, day) == start + 8 * MinutesPerHour;
      if IsWeekday(DateOf(now) + day) {
        SlotsFromSound(busy, start, DayEnd(now, day), duration);
      }
      OrderedAppend(today, rest, start, DayEnd(now, day), DayStart(now, day + 1), duration);
    }
  }

  /** A day's slots followed by the later days' keep the order. */
  lemma OrderedAppend(today: seq<TimeSlot>, rest: seq<TimeSlot>, start: int, dayEnd: int, next: int, duration: int)
    requires today == [] || SoundSlots(today, start, dayEnd, duration)
    requires OrderedFrom(rest, next, duration)
    requires start <= dayEnd <= next
    ensures OrderedFrom(today + rest, start, duration)
  {
    var r := today + rest;
    forall i | 0 <= i < |r|
      ensures start <= r[i].startTime
    {
      if i >= |today| {
        assert r[i] == rest[i - |today|];
      }
    }
    if duration >= 0 {
      forall i, j | 0 <= i < j < |r|
        ensures r[i].startTime < r[j].startTime
      {
        if i >= |today| {
          assert r[i] == rest[i - |today|] && r[j] == rest[j - |today|];
        } else if j >= |today| {
          assert r[j] == rest[j - |today|];
        }
      }
    }
  }

  /** Every free slot suggestMeetingTimes could propose, in the order it
      tries them. */
  function FreeSlots(busy: set<TimeSlot>, now: int, duration: int): seq<TimeSlot>
  {
    FreeSlotsFrom(busy, now, duration, 1)
  }

  /** Cutting before appending changes nothing once the result is cut again. */
  lemma TakeAppendTake<T>(a: seq<T>, b: seq<T>, n: int)
    ensures Take(Take(a, n) + b, n) == Take(a + b, n)
  {
    if 0 < n < |a| {
      assert (Take(a, n) + b)[..n] == a[..n] == (a + b)[..n];
    }
  }

  /** The free `k`-th hourly slot is among the slots from `slotStart`. */
  lemma {:induction false} SlotsFromHasSlot(busy: set<TimeSlot>, slotStart: int, dayEnd: int, duration: int, k: nat)
    requires slotStart + k * MinutesPerHour + duration < dayEnd
    requires Free(busy, TimeSlot(slotStart + k * MinutesPerHour, slotStart + k * MinutesPerHour + duration))
    ensures TimeSlot(slotStart + k * MinutesPerHour, slotStart + k * MinutesPerHour + duration)
            in SlotsFrom(busy, slotStart, dayEnd, duration)
    decreases k
  {
    SlotsFromUnfold(busy, slotStart, dayEnd, duration);
    if k > 0 {
      var next := slotStart + MinutesPerHour;
      assert next + (k - 1) * MinutesPerHour == slotStart + k * MinutesPerHour;
      assert slotStart + duration < dayEnd;
      SlotsFromHasSlot(busy, next, dayEnd, duration, k - 1);
      assert TimeSlot(slotStart + k * MinutesPerHour, slotStart + k * MinutesPerHour + duration)
             in SlotsFrom(busy, next, dayEnd, duration);
    }
  }

  /** A free slot of a weekday from `from` on is in the later days' list. */
  lemma {:induction false} FreeSlotsFromHasDay(busy: set<TimeSlot>, now: int, duration: int, from: int, day: int, s: TimeSlot)
    requires from <= day <= SuggestionDays && IsWeekday(DateOf(now) + day)
    requires s in DaySlots(busy, now, day, duration)
    ensures s in FreeSlotsFrom(busy, now, duration, from)
    decreases day - from
  {
    var today := if IsWeekday(DateOf(now) + from) then DaySlots(busy, now, from, duration) else [];
    var rest := FreeSlotsFrom(busy, now, duration, from + 1);
    assert FreeSlotsFrom(busy, now, duration, from) == today + rest;
    if from < day {
      FreeSlotsFromHasDay(busy, now, duration, from + 1, day, s);
      assert s in rest;
    } else {
      assert s in today;
    }
  }

  /** One hourly step: appending the slot when it is free leaves the same
      list once the later slots follow. */
  lemma SlotsFromStep(busy: set<TimeSlot>, slotStart: int, dayEnd: int, duration: int, acc: seq<TimeSlot>)
    requires slotStart + duration < dayEnd
    ensures var proposed := TimeSlot(slotStart, slotStart + duration);
            (if Free(busy, proposed) then acc + [proposed] else acc) + SlotsFrom(busy, slotStart + MinutesPerHour, dayEnd, duration)
            == acc + SlotsFrom(busy, slotStart, dayEnd, duration)
  {
    SlotsFromUnfold(busy, slotStart, dayEnd, duration);
    var proposed := TimeSlot(slotStart, slotStart + duration);
    AppendAssoc(acc, [proposed], SlotsFrom(busy, slotStart + MinutesPerHour, dayEnd, duration));
  }

  lemma AppendAssoc<T>(a: seq<T>, b: seq<T>, c: seq<T>)
    ensures (a + b) + c == a + (b + c)
  {
  }

  /** When a pass stops, either nothing is left or the cap is reached: the
      list so far is what cutting the whole at the cap leaves. */
  lemma CutAtStop<T>(r: seq<T>, done: seq<T>, rest: seq<T>, n: int)
    requires rest == [] || |r + done| == Max(n, 0)
    requires |r + done| <= Max(n, 0)
    ensures Take(r + (done + rest), n) == r + done
  {
    assert r + (done + rest) == (r + done) + rest;
    CutFull(r + done, rest, n);
  }

  lemma CutFull<T>(acc: seq<T>, rest: seq<T>, n: int)
    requires rest == [] || |acc| == Max(n, 0)
    requires |acc| <= Max(n, 0)
    ensures Take(acc + rest, n) == acc
  {
    if rest == [] {
      assert acc + rest == acc;
    } else {
      TakeFull(acc, rest, n);
    }
  }

  lemma EmptyAppend<T>(x: seq<T>)
    ensures [] + x == x
  {
  }

  /** Taking one part up to the cap and then the rest leaves what taking
      both at once does. */
  lemma TakeStep<T>(before: seq<T>, today: seq<T>, later: seq<T>, n: int, after: seq<T>)
    requires after == Take(before + today, n)
    ensures Take(after + later, n) == Take(before + (today + later), n)
  {
    TakeAppendTake(before + today, later, n);
    assert (before + today) + later == before + (today + later);
  }

  /** A list already at the cap is what cutting it with anything appended
      leaves. */
  lemma TakeFull<T>(a: seq<T>, b: seq<T>, n: int)
    requires |a| == Max(n, 0)
    ensures Take(a + b, n) == a
  {
    if n > 0 {
      assert (a + b)[..n] == a;
    }
  }

  /** Every free business slot is in the list of free slots. */
  lemma FreeSlotsComplete(busy: set<TimeSlot>, now: int, duration: int, s: TimeSlot)
    requires FreeBusinessSlot(now, duration, busy, s)
    ensures s in FreeSlots(busy, now, duration)
  {
    var day, k :| BusinessSlotAt(now, s, day, k);
    SlotsFromHasSlot(busy, DayStart(now, day), DayEnd(now, day), duration, k);
    FreeSlotsFromHasDay(busy, now, duration, 1, day, s);
  }

  /** In a prefix of a chronological list holding every free business slot,
      a free business slot starting before the prefix's last one is there. */
  lemma PrefixHasEarlierSlots(busy: set<TimeSlot>, now: int, duration: int, r: seq<TimeSlot>, s: TimeSlot)
    requires duration >= 0 && r <= FreeSlots(busy, now, duration) && r != []
    requires FreeBusinessSlot(now, duration, busy, s) && s.startTime < r[|r| - 1].startTime
    ensures s in r
  {
    var all := FreeSlots(busy, now, duration);
    FreeSlotsComplete(busy, now, duration, s);
    FreeSlotsFromOrdered(busy, now, duration, 1);
    assert OrderedFrom(all, DayStart(now, 1), duration);
    var j :| 0 <= j < |all| && all[j] == s;
    EarlierIsInPrefix(all, r, j);
  }

  /** In a prefix of a list in increasing start order, an element starting
      before the prefix's last one lies inside the prefix. */
  lemma EarlierIsInPrefix(all: seq<TimeSlot>, r: seq<TimeSlot>, j: int)
    requires forall a, b :: 0 <= a < b < |all| ==> all[a].startTime < all[b].startTime
    requires r <= all && r != [] && 0 <= j < |all|
    requires all[j].startTime < r[|r| - 1].startTime
    ensures j < |r| - 1 && r[j] == all[j]
  {
    var last := |r| - 1;
    assert all[last] == r[last];
  }

  /** One day of the list of free slots. */
  lemma FreeSlotsFromUnfold(busy: set<TimeSlot>, now: int, duration: int, day: int)
    ensures day > SuggestionDays ==> FreeSlotsFrom(busy, now, duration, day) == []
    ensures day <= SuggestionDays && IsWeekday(DateOf(now) + day) ==>
              FreeSlotsFrom(busy, now, duration, day) == DaySlots(busy, now, day, duration) + FreeSlotsFrom(busy, now, duration, day + 1)
    ensures day <= SuggestionDays && !IsWeekday(DateOf(now) + day) ==>
              FreeSlotsFrom(busy, now, duration, day) == FreeSlotsFrom(busy, now, duration, day + 1)
  {
    if day <= SuggestionDays && !IsWeekday(DateOf(now) + day) {
      assert [] + FreeSlotsFrom(busy, now, duration, day + 1) == FreeSlotsFrom(busy, now, duration, day + 1);
    }
  }

  /** A business slot overlapping none of the busy ones. */
  ghost predicate FreeBusinessSlot(now: int, duration: int, busy: set<TimeSlot>, s: TimeSlot)
  {
    IsBusinessSlot(now, duration, s) && Free(busy, s)
  }

  ghost predicate AllFreeBusiness(r: seq<TimeSlot>, now: int, duration: int, busy: set<TimeSlot>)
  {
    forall i :: 0 <= i < |r| ==> FreeBusinessSlot(now, duration, busy, r[i])
  }

  /** The slots of a weekday from its `k`-th hour on are free business
      slots. */
  lemma {:induction false} SlotsFromBusiness(busy: set<TimeSlot>, now: int, day: int, duration: int, k: nat)
    requires 1 <= day <= SuggestionDays && IsWeekday(DateOf(now) + day)
    ensures AllFreeBusiness(SlotsFrom(busy, HourlySlotStart(now, day, k), DayEnd(now, day), duration), now, duration, busy)
    decreases DayEnd(now, day) - duration - HourlySlotStart(now, day, k)
  {
    var start := HourlySlotStart(now, day, k);
    if start + duration < DayEnd(now, day) {
      assert HourlySlotStart(now, day, k + 1) == start + MinutesPerHour;
      SlotsFromBusiness(busy, now, day, duration, k + 1);
      SlotsFromUnfold(busy, start, DayEnd(now, day), duration);
      var proposed := TimeSlot(start, start + duration);
      var rest := SlotsFrom(busy, start + MinutesPerHour, DayEnd(now, day), duration);
      assert AllFreeBusiness(rest, now, duration, busy);
      if Free(busy, proposed) {
        assert BusinessSlotAt(now, proposed, day, k);
        assert AllFreeBusiness([proposed], now, duration, busy);
        AllFreeBusinessAppend([proposed], rest, now, duration, busy);
      }
    } else {
      SlotsFromUnfold(busy, start, DayEnd(now, day), duration);
    }
  }

  /** The free slots from the `day`-th day on are free business slots. */
  lemma {:induction false} FreeSlotsFromBusiness(busy: set<TimeSlot>, now: int, duration: int, day: int)
    requires 1 <= day
    ensures AllFreeBusiness(FreeSlotsFrom(busy, now, duration, day), now, duration, busy)
    decreases SuggestionDays + 1 - day
  {
    if day <= SuggestionDays {
      FreeSlotsFromBusiness(busy, now, duration, day + 1);
      var today := if IsWeekday(DateOf(now) + day) then DaySlots(busy, now, day, duration) else [];
      DaySlotsBusiness(busy, now, duration, day);
      assert AllFreeBusiness(today, now, duration, busy);
      AllFreeBusinessAppend(today, FreeSlotsFrom(busy, now, duration, day + 1), now, duration, busy);
    }
  }

  /** The slots a day contributes are free business slots. */
  lemma DaySlotsBusiness(busy: set<TimeSlot>, now: int, duration: int, day: int)
    requires 1 <= day <= SuggestionDays
    ensures IsWeekday(DateOf(now) + day) ==> AllFreeBusiness(DaySlots(busy, now, day, duration), now, duration, busy)
  {
    if IsWeekday(DateOf(now) + day) {
      assert HourlySlotStart(now, day, 0) == DayStart(now, day);
      SlotsFromBusiness(busy, now, day, duration, 0);
    }
  }

  lemma AllFreeBusinessAppend(a: seq<TimeSlot>, b: seq<TimeSlot>, now: int, duration: int, busy: set<TimeSlot>)
    requires AllFreeBusiness(a, now, duration, busy) && AllFreeBusiness(b, now, duration, busy)
    ensures AllFreeBusiness(a + b, now, duration, busy)
  {
    var r := a + b;
    forall i | 0 <= i < |r|
      ensures FreeBusinessSlot(now, duration, busy, r[i])
    {
      if i >= |a| {
        assert r[i] == b[i - |a|];
      }
    }
  }

  /** The cut list of free slots holds free business slots only, and for a
      non-negative length in increasing start order. */
  lemma CutFreeSlotsSound(busy: set<TimeSlot>, now: int, duration: int, suggestions: int, r: seq<TimeSlot>)
    requires r == Take(FreeSlots(busy, now, duration), Max(suggestions, 0))
    ensures AllFreeBusiness(r, now, duration, busy)
    ensures duration >= 0 ==> forall i, j :: 0 <= i < j < |r| ==> r[i].startTime < r[j].startTime
  {
    FreeSlotsFromBusiness(busy, now, duration, 1);
    FreeSlotsFromOrdered(busy, now, duration, 1);
    PrefixSound(FreeSlots(busy, now, duration), r, now, duration, busy, DayStart(now, 1));
  }

  lemma PrefixSound(all: seq<TimeSlot>, r: seq<TimeSlot>, now: int, duration: int, busy: set<TimeSlot>, from: int)
    requires r <= all && AllFreeBusiness(all, now, duration, busy) && OrderedFrom(all, from, duration)
    ensures AllFreeBusiness(r, now, duration, busy)
    ensures duration >= 0 ==> forall i, j :: 0 <= i < j < |r| ==> r[i].startTime < r[j].startTime
  {
    assert forall i :: 0 <= i < |r| ==> r[i] == all[i];
  }

  /** The cut list of free slots holds every free business slot when it is
      short of the cap. */
  lemma CutFreeSlotsComplete(busy: set<TimeSlot>, now: int, duration: int, suggestions: int, r: seq<TimeSlot>)
    requires r == Take(FreeSlots(busy, now, duration), Max(suggestions, 0)) && |r| < suggestions
    ensures forall s :: FreeBusinessSlot(now, duration, busy, s) ==> s in r
  {
    assert r == FreeSlots(busy, now, duration);
    forall s | FreeBusinessSlot(now, duration, busy, s)
      ensures s in r
    {
      FreeSlotsComplete(busy, now, duration, s);
    }
  }

  /** For a non-negative length it holds every free business slot starting
      before its last one. */
  lemma CutFreeSlotsHasEarlier(busy: set<TimeSlot>, now: int, duration: int, suggestions: int, r: seq<TimeSlot>)
    requires r == Take(FreeSlots(busy, now, duration), Max(suggestions, 0)) && duration >= 0 && r != []
    ensures forall s :: FreeBusinessSlot(now, duration, busy, s) && s.startTime < r[|r| - 1].startTime ==> s in r
  {
    forall s | FreeBusinessSlot(now, duration, busy, s) && s.startTime < r[|r| - 1].startTime
      ensures s in r
    {
      PrefixHasEarlierSlots(busy, now, duration, r, s);
    }
  }

  /** The slots of the meetings either user has in the two weeks. */
  function BusySlots(rows: map<int, MeetingRecord>, user1Id: int, user2Id: int, now: int): (busy: set<TimeSlot>)
    ensures forall id :: id in rows && BusyFor(rows[id], user1Id, user2Id, now) ==> SlotOf(rows[id]) in busy
    ensures forall s :: s in busy ==> exists id :: id in rows && BusyFor(rows[id], user1Id, user2Id, now) && SlotOf(rows[id]) == s
  {
    set id | id in rows && BusyFor(rows[id], user1Id, user2Id, now) :: SlotOf(rows[id])
  }

  /** The free hourly slots of one weekday appended to `r`, while fewer
      than `suggestions` are found. */
  method AddDaySlots(busy: set<TimeSlot>, now: int, day: int, durationMinutes: int, suggestions: int,
                     r: seq<TimeSlot>) returns (r': seq<TimeSlot>)
    requires |r| <= Max(suggestions, 0)
    ensures r' == Take(r + DaySlots(busy, now, day, durationMinutes), Max(suggestions, 0))
  {
    r' := r;
    var dayStart := DayStart(now, day);
    var dayEnd := DayEnd(now, day);
    var slotStart := dayStart;
    ghost var done := [];
    while slotStart + durationMinutes < dayEnd && |r'| < suggestions
      invariant r' == r + done && done + SlotsFrom(busy, slotStart, dayEnd, durationMinutes) == DaySlots(busy, now, day, durationMinutes)
      invariant |r'| <= Max(suggestions, 0)
      decreases dayEnd - durationMinutes - slotStart
    {
      var proposed := TimeSlot(slotStart, slotStart + durationMinutes);
      SlotsFromStep(busy, slotStart, dayEnd, durationMinutes, done);
      if !(exists b :: b in busy && Overlaps(proposed, b)) {
        r' := r' + [proposed];
        done := done + [proposed];
      }
      slotStart := slotStart + MinutesPerHour;
    }
    assert !(slotStart + durationMinutes < dayEnd) ==> SlotsFrom(busy, slotStart, dayEnd, durationMinutes) == [];
    CutAtStop(r, done, SlotsFrom(busy, slotStart, dayEnd, durationMinutes), suggestions);
  }

  /** One day of suggestMeetingTimes: weekends are skipped. Going on from
      the next day then leaves the same list as going on from this one. */
  method DaySlotsUnlessWeekend(busy: set<TimeSlot>, now: int, day: int, durationMinutes: int, suggestions: int,
                               r: seq<TimeSlot>) returns (r': seq<TimeSlot>)
    requires day <= SuggestionDays && |r| <= Max(suggestions, 0)
    ensures |r'| <= Max(suggestions, 0)
    ensures Take(r' + FreeSlotsFrom(busy, now, durationMinutes, day + 1), Max(suggestions, 0))
            == Take(r + FreeSlotsFrom(busy, now, durationMinutes, day), Max(suggestions, 0))
  {
    FreeSlotsFromUnfold(busy, now, durationMinutes, day);
    r' := r;
    if DayOfWeek(DateOf(now) + day) <= 5 {
      r' := AddDaySlots(busy, now, day, durationMinutes, suggestions, r);
      TakeStep(r, DaySlots(busy, now, day, durationMinutes), FreeSlotsFrom(busy, now, durationMinutes, day + 1),
               Max(suggestions, 0), r');
    }
  }

  /** The day-by-day pass of suggestMeetingTimes over the busy slots: the
      free slots in the order tried, cut at the requested number. */
  method SuggestSlots(busy: set<TimeSlot>, now: int, durationMinutes: int, suggestions: int) returns (r: seq<TimeSlot>)
    ensures r == Take(FreeSlots(busy, now, durationMinutes), Max(suggestions, 0))
  {
    r := [];
    var day := 1;
    EmptyAppend(FreeSlots(busy, now, durationMinutes));
    while day <= SuggestionDays && |r| < suggestions
      invariant 1 <= day <= SuggestionDays + 1
      invariant Take(r + FreeSlotsFrom(busy, now, durationMinutes, day), Max(suggestions, 0))
                == Take(FreeSlots(busy, now, durationMinutes), Max(suggestions, 0))
      invariant |r| <= Max(suggestions, 0)
    {
      r := DaySlotsUnlessWeekend(busy, now, day, durationMinutes, suggestions, r);
      day := day + 1;
    }
    FreeSlotsFromUnfold(busy, now, durationMinutes, day);
    CutFull(r, FreeSlotsFrom(busy, now, durationMinutes, day), suggestions);
  }

  class MeetingSchedulingService {
    const meetingRepository: Table<MeetingRecord>
    const matchRepository: Table<Matches.MatchRecord>
    const userRepository: Table<UserRecord>

    ghost predicate Valid()
      reads this, meetingRepository, matchRepository, userRepository
    {
      meetingRepository.Valid() && matchRepository.Valid() && MeetingsKeyedById(meetingRepository.rows)
      && UsersKeyedById(userRepository.rows)
    }

    constructor (meetingRepository: Table<MeetingRecord>, matchRepository: Table<Matches.MatchRecord>,
                 userRepository: Table<UserRecord>)
      requires meetingRepository.Valid() && matchRepository.Valid() && MeetingsKeyedById(meetingRepository.rows)
      requires UsersKeyedById(userRepository.rows)
      ensures Valid()
      ensures this.meetingRepository == meetingRepository && this.matchRepository == matchRepository
      ensures this.userRepository == userRepository
    {
      this.meetingRepository := meetingRepository;
      this.matchRepository := matchRepository;
      this.userRepository := userRepository;
    }

    /** scheduleMeeting. */
    method ScheduleMeeting(matchId: int, organizerId: int, startTime: int, endTime: int,
                           meetingType: Option<MeetingType>, location: Option<string>)
      returns (r: Result<MeetingRecord>)
      requires Valid()
      modifies meetingRepository, matchRepository
      ensures Valid()
      ensures var check := ScheduleCheck(old(matchRepository.rows), userRepository.rows, old(meetingRepository.rows),
                                         matchId, organizerId, startTime, endTime);
              (check.Err? ==>
                 r == Err(check.message)
                 && meetingRepository.rows == old(meetingRepository.rows)
                 && matchRepository.rows == old(matchRepository.rows))
              && (check.Ok? ==>
                 var id := old(meetingRepository.nextId);
                 var m := NewMeeting(id, matchId, userRepository.rows[organizerId], userRepository.rows[check.value],
                                     startTime, endTime, meetingType, location);
                 r == Ok(m)
                 && meetingRepository.rows == old(meetingRepository.rows)[id := m]
                 && matchRepository.rows == old(matchRepository.rows)[matchId :=
                      old(matchRepository.rows)[matchId].(status := Matches.Scheduled, scheduledTime := Some(startTime))])
    {
      var check := ScheduleCheck(matchRepository.rows, userRepository.rows, meetingRepository.rows,
                                 matchId, organizerId, startTime, endTime);
      if check.Err? {
        return Err(check.message);
      }
      var m := NewMeeting(meetingRepository.nextId, matchId, userRepository.rows[organizerId],
                          userRepository.rows[check.value], startTime, endTime, meetingType, location);
      var _ := meetingRepository.Insert(m);
      var mt := matchRepository.rows[matchId];
      matchRepository.Update(matchId, mt.(status := Matches.Scheduled, scheduledTime := Some(startTime)));
      r := Ok(m);
    }

    /** rescheduleMeeting. */
    method RescheduleMeeting(meetingId: int, newStart: int, newEnd: int) returns (r: Result<MeetingRecord>)
      requires Valid()
      modifies meetingRepository
      ensures Valid()
      ensures var check := RescheduleCheck(old(meetingRepository.rows), meetingId, newStart, newEnd);
              (check.Err? ==> r == Err(check.message) && meetingRepository.rows == old(meetingRepository.rows))
              && (check.Ok? ==>
                    var n := Moved(old(meetingRepository.rows)[meetingId], newStart, newEnd);
                    r == Ok(n) && meetingRepository.rows == old(meetingRepository.rows)[meetingId := n])
    {
      var check := RescheduleCheck(meetingRepository.rows, meetingId, newStart, newEnd);
      if check.Err? {
        return Err(check.message);
      }
      var n := Moved(meetingRepository.rows[meetingId], newStart, newEnd);
      meetingRepository.Update(meetingId, n);
      r := Ok(n);
    }

    /** Sets the meeting's match, when it still exists, to `status`. */
    method SetMatchStatus(matchId: int, status: Matches.MatchStatus)
      requires Valid()
      modifies matchRepository
      ensures Valid()
      ensures matchId in old(matchRepository.rows) ==>
                matchRepository.rows == old(matchRepository.rows)[matchId := old(matchRepository.rows)[matchId].(status := status)]
      ensures matchId !in old(matchRepository.rows) ==> matchRepository.rows == old(matchRepository.rows)
    {
      if matchId in matchRepository.rows {
        var mt := matchRepository.rows[matchId];
        matchRepository.Update(matchId, mt.(status := status));
      }
    }

    /** cancelMeeting: cancelled with the reason as notes; the match goes
        back to ACCEPTED. No earlier status is required. */
    method CancelMeeting(meetingId: int, reason: Option<string>) returns (r: Result<Unit>)
      requires Valid()
      modifies meetingRepository, matchRepository
      ensures Valid()
      ensures meetingId !in old(meetingRepository.rows) ==>
                r == Err("Meeting not found") && meetingRepository.rows == old(meetingRepository.rows)
                && matchRepository.rows == old(matchRepository.rows)
      ensures meetingId in old(meetingRepository.rows) ==>
                var m := old(meetingRepository.rows)[meetingId];
                r == Ok(Unit)
                && meetingRepository.rows == old(meetingRepository.rows)[meetingId := m.(status := Cancelled, notes := reason)]
                && (m.matchId in old(matchRepository.rows) ==>
                      matchRepository.rows == old(matchRepository.rows)[m.matchId :=
                        old(matchRepository.rows)[m.matchId].(status := Matches.Accepted)])
                && (m.matchId !in old(matchRepository.rows) ==> matchRepository.rows == old(matchRepository.rows))
    {
      if meetingId !in meetingRepository.rows {
        return Err("Meeting not found");
      }
      var m := meetingRepository.rows[meetingId];
      meetingRepository.Update(meetingId, m.(status := Cancelled, notes := reason));
      SetMatchStatus(m.matchId, Matches.Accepted);
      r := Ok(Unit);
    }

    /** startMeeting: in progress since `now`, and so is the match. */
    method StartMeeting(meetingId: int, now: int) returns (r: Result<Unit>)
      requires Valid()
      modifies meetingRepository, matchRepository
      ensures Valid()
      ensures meetingId !in old(meetingRepository.rows) ==>
                r == Err("Meeting not found") && meetingRepository.rows == old(meetingRepository.rows)
                && matchRepository.rows == old(matchRepository.rows)
      ensures meetingId in old(meetingRepository.rows) ==>
                var m := old(meetingRepository.rows)[meetingId];
                r == Ok(Unit)
                && meetingRepository.rows == old(meetingRepository.rows)[meetingId := m.(status := InProgress, actualStartTime := Some(now))]
                && (m.matchId in old(matchRepository.rows) ==>
                      matchRepository.rows == old(matchRepository.rows)[m.matchId :=
                        old(matchRepository.rows)[m.matchId].(status := Matches.InProgress)])
                && (m.matchId !in old(matchRepository.rows) ==> matchRepository.rows == old(matchRepository.rows))
    {
      if meetingId !in meetingRepository.rows {
        return Err("Meeting not found");
      }
      var m := meetingRepository.rows[meetingId];
      meetingRepository.Update(meetingId, m.(status := InProgress, actualStartTime := Some(now)));
      SetMatchStatus(m.matchId, Matches.InProgress);
      r := Ok(Unit);
    }

    /** completeMeeting: completed at `now` with the notes; so is the match. */
    method CompleteMeeting(meetingId: int, notes: Option<string>, now: int) returns (r: Result<Unit>)
      requires Valid()
      modifies meetingRepository, matchRepository
      ensures Valid()
      ensures meetingId !in old(meetingRepository.rows) ==>
                r == Err("Meeting not found") && meetingRepository.rows == old(meetingRepository.rows)
                && matchRepository.rows == old(matchRepository.rows)
      ensures meetingId in old(meetingRepository.rows) ==>
                var m := old(meetingRepository.rows)[meetingId];
                r == Ok(Unit)
                && meetingRepository.rows == old(meetingRepository.rows)[meetingId :=
                     m.(status := Completed, actualEndTime := Some(now), notes := notes)]
                && (m.matchId in old(matchRepository.rows) ==>
                      matchRepository.rows == old(matchRepository.rows)[m.matchId :=
                        old(matchRepository.rows)[m.matchId].(status := Matches.Completed)])
                && (m.matchId !in old(matchRepository.rows) ==> matchRepository.rows == old(matchRepository.rows))
    {
      if meetingId !in meetingRepository.rows {
        return Err("Meeting not found");
      }
      var m := meetingRepository.rows[meetingId];
      meetingRepository.Update(meetingId, m.(status := Completed, actualEndTime := Some(now), notes := notes));
      SetMatchStatus(m.matchId, Matches.Completed);
      r := Ok(Unit);
    }

    /** getUserMeetings: the user's meetings starting within [from, to]. The
        repository's order is not modelled. */
    function GetUserMeetings(userId: int, from: int, to: int): (ms: set<MeetingRecord>)
      reads this, meetingRepository
      ensures forall id :: id in meetingRepository.rows && InRange(meetingRepository.rows[id], userId, from, to) ==>
                meetingRepository.rows[id] in ms
      ensures forall m :: m in ms ==> InRange(m, userId, from, to) && m in meetingRepository.rows.Values
    {
      set id | id in meetingRepository.rows && InRange(meetingRepository.rows[id], userId, from, to) :: meetingRepository.rows[id]
    }

    /** getUpcomingMeetings: the same from now to `days` days ahead. */
    function GetUpcomingMeetings(userId: int, days: int, now: int): (ms: set<MeetingRecord>)
      reads this, meetingRepository
      ensures forall m :: m in ms <==> m in meetingRepository.rows.Values && InRange(m, userId, now, PlusDays(now, days))
    {
      GetUserMeetings(userId, now, PlusDays(now, days))
    }

    /** sendMeetingReminders. */
    method SendMeetingReminders(now: int)
      requires Valid()
      modifies meetingRepository
      ensures Valid()
      ensures meetingRepository.rows == Reminded(old(meetingRepository.rows), now)
    {
      RemindAll(meetingRepository, now);
    }

    /** suggestMeetingTimes: hourly slots on the weekdays of the next two
        weeks that overlap no meeting either user has in that period. */
    method SuggestMeetingTimes(user1Id: int, user2Id: int, durationMinutes: int, suggestions: int, now: int)
      returns (r: seq<TimeSlot>)
      requires Valid()
      ensures |r| <= Max(suggestions, 0)
      ensures forall i :: 0 <= i < |r| ==> IsBusinessSlot(now, durationMinutes, r[i])
      ensures forall i, id ::
                (0 <= i < |r| && id in meetingRepository.rows && BusyFor(meetingRepository.rows[id], user1Id, user2Id, now)) ==>
                !Overlaps(r[i], SlotOf(meetingRepository.rows[id]))
      ensures durationMinutes >= 0 ==> forall i, j :: 0 <= i < j < |r| ==> r[i].startTime < r[j].startTime
      ensures r == Take(FreeSlots(BusySlots(meetingRepository.rows, user1Id, user2Id, now), now, durationMinutes),
                        Max(suggestions, 0))
      ensures |r| < suggestions ==>
                forall s :: FreeBusinessSlot(now, durationMinutes, BusySlots(meetingRepository.rows, user1Id, user2Id, now), s) ==>
                  s in r
      ensures durationMinutes >= 0 && r != [] ==>
                forall s :: (FreeBusinessSlot(now, durationMinutes, BusySlots(meetingRepository.rows, user1Id, user2Id, now), s)
                             && s.startTime < r[|r| - 1].startTime) ==> s in r
    {
      var busy := BusySlots(meetingRepository.rows, user1Id, user2Id, now);
      r := SuggestSlots(busy, now, durationMinutes, suggestions);
      CutFreeSlotsSound(busy, now, durationMinutes, suggestions, r);
      assert AllFreeBusiness(r, now, durationMinutes, busy);
      if |r| < suggestions {
        CutFreeSlotsComplete(busy, now, durationMinutes, suggestions, r);
      }
      if durationMinutes >= 0 && r != [] {
        CutFreeSlotsHasEarlier(busy, now, durationMinutes, suggestions, r);
      }
      forall i, id | 0 <= i < |r| && id in meetingRepository.rows
                && BusyFor(meetingRepository.rows[id], user1Id, user2Id, now)
        ensures !Overlaps(r[i], SlotOf(meetingRepository.rows[id]))
      {
        assert SlotOf(meetingRepository.rows[id]) in busy;
      }
    }
  }
}
