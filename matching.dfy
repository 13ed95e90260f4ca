// The matching service: match requests and responses, the list of users one
// could be matched with, and the matching preferences. The compatibility
// score is a floating-point computation outside this model; it arrives as a
// parameter (a `real`).

module Matching {
  import opened Common
  import opened Tables
  import opened Users
  import opened Matches

  /** MatchRequestDto. */
  datatype MatchRequestForm = MatchRequestForm(
    targetUserId: int,
    matchType: MatchType,
    message: Option<string>,
    preferredTime: Option<int>,
    durationMinutes: Option<int>)

  /** MatchResponseDto. */
  datatype MatchResponse = MatchResponse(
    status: MatchStatus,
    scheduledTime: Option<int>,
    durationMinutes: Option<int>)

  /** MatchDto: the match plus the names and addresses of the two users when
      they exist. */
  datatype MatchDto = MatchDto(
    id: int,
    user1Id: int,
    user2Id: int,
    user1Name: Option<string>,
    user2Name: Option<string>,
    user1Email: Option<string>,
    user2Email: Option<string>,
    matchType: MatchType,
    status: MatchStatus,
    scheduledTime: Option<int>,
    durationMinutes: Option<int>,
    compatibilityScore: Option<real>,
    matchReason: Option<string>)

  /** convertToMatchDto. */
  function ToMatchDto(m: MatchRecord, users: map<int, UserRecord>): (d: MatchDto)
    ensures d.id == m.id && d.user1Id == m.user1Id && d.user2Id == m.user2Id
    ensures d.matchType == m.matchType && d.status == m.status
    ensures d.scheduledTime == m.scheduledTime && d.durationMinutes == m.durationMinutes
    ensures d.compatibilityScore == m.compatibilityScore && d.matchReason == m.matchReason
    ensures d.user1Name.Some? <==> m.user1Id in users
    ensures d.user2Name.Some? <==> m.user2Id in users
    ensures m.user1Id in users ==> d.user1Name == Some(users[m.user1Id].name) && d.user1Email == Some(users[m.user1Id].email)
    ensures m.user2Id in users ==> d.user2Name == Some(users[m.user2Id].name) && d.user2Email == Some(users[m.user2Id].email)
  {
    MatchDto(m.id, m.user1Id, m.user2Id,
             if m.user1Id in users then Some(users[m.user1Id].name) else None,
             if m.user2Id in users then Some(users[m.user2Id].name) else None,
             if m.user1Id in users then Some(users[m.user1Id].email) else None,
             if m.user2Id in users then Some(users[m.user2Id].email) else None,
             m.matchType, m.status, m.scheduledTime, m.durationMinutes,
             m.compatibilityScore, m.matchReason)
  }

  /** The match createMatchRequest saves: requester as user1, target as
      user2, pending, with the requested time, duration and message. */
  function NewMatch(id: int, requester: int, form: MatchRequestForm, score: real): (m: MatchRecord)
    ensures m.id == id && m.user1Id == requester && m.user2Id == form.targetUserId
    ensures m.status == Pending && m.isActive && m.matchType == form.matchType
    ensures m.scheduledTime == form.preferredTime && m.durationMinutes == form.durationMinutes
    ensures m.matchReason == form.message && m.compatibilityScore == Some(score)
  {
    MatchRecord(id, requester, form.targetUserId, form.matchType, Pending, form.preferredTime,
                form.durationMinutes, Some(score), form.message, true)
  }

  /** The text of the request's chat entry; Java's string concatenation
      writes a null message as "null". */
  function RequestLogText(message: Option<string>): string
  {
    "Match request sent: " + message.GetOr("null")
  }

  /** The match after a response: the status is the response's; only an
      acceptance also takes the response's time and duration. */
  function Responded(m: MatchRecord, resp: MatchResponse): (n: MatchRecord)
    ensures n.status == resp.status
    ensures resp.status == Accepted ==>
              n.scheduledTime == resp.scheduledTime && n.durationMinutes == resp.durationMinutes
    ensures resp.status != Accepted ==>
              n.scheduledTime == m.scheduledTime && n.durationMinutes == m.durationMinutes
    ensures n.(status := m.status, scheduledTime := m.scheduledTime, durationMinutes := m.durationMinutes) == m
  {
    if resp.status == Accepted then
      m.(status := resp.status, scheduledTime := resp.scheduledTime, durationMinutes := resp.durationMinutes)
    else
      m.(status := resp.status)
  }

  /** The checks of respondToMatch, in order, and the answered match. */
  function Respond(rows: map<int, MatchRecord>, matchId: int, responder: int, resp: MatchResponse): (r: Result<MatchRecord>)
    ensures r.Ok? <==> matchId in rows && rows[matchId].isActive
                       && rows[matchId].user2Id == responder && rows[matchId].status == Pending
    ensures r.Ok? ==> r.value == Responded(rows[matchId], resp)
    ensures ActiveMatch(rows, matchId).None? ==> r == Err("Match not found")
    ensures ActiveMatch(rows, matchId).Some? && rows[matchId].user2Id != responder ==>
              r == Err("User not authorized to respond to this match")
    ensures ActiveMatch(rows, matchId).Some? && rows[matchId].user2Id == responder && rows[matchId].status != Pending ==>
              r == Err("Match is not in pending status")
  {
    var found := ActiveMatch(rows, matchId);
    if found.None? then Err("Match not found")
    else if found.value.user2Id != responder then Err("User not authorized to respond to this match")
    else if found.value.status != Pending then Err("Match is not in pending status")
    else Ok(Responded(found.value, resp))
  }

  /** The text and type of the response's chat entry: anything but an
      acceptance is logged as a rejection. */
  function ResponseLog(status: MatchStatus): (log: (string, MessageType))
    ensures status == Accepted ==> log == ("Match accepted", MatchAcceptedMessage)
    ensures status != Accepted ==> log == ("Match rejected", MatchRejectedMessage)
  {
    if status == Accepted then ("Match accepted", MatchAcceptedMessage)
    else ("Match rejected", MatchRejectedMessage)
  }

  /** A match once answered can never be answered again. */
  lemma {:induction false} AnsweredMatchIsFinal(rows: map<int, MatchRecord>, matchId: int, responder: int,
                                               resp: MatchResponse, again: MatchResponse, who: int)
    requires Respond(rows, matchId, responder, resp).Ok? && resp.status != Pending
    ensures Respond(rows[matchId := Respond(rows, matchId, responder, resp).value], matchId, who, again).Err?
  {
    var n := Respond(rows, matchId, responder, resp).value;
    assert n.status == resp.status;
  }

  /** Only the requester-to-target direction is checked: a pending request in
      the other direction does not stop a new one. */
  lemma ReverseRequestIsNotChecked()
    ensures var rows := map[1 := MatchRecord(1, 2, 3, CoffeeChat, Pending, None, None, None, None, true)];
            PendingRequestExists(rows, 2, 3) && !PendingRequestExists(rows, 3, 2)
  {
    var rows := map[1 := MatchRecord(1, 2, 3, CoffeeChat, Pending, None, None, None, None, true)];
    assert rows[1].user1Id == 2;
  }

  // ----- available matches

  /** An available user with the compatibility score computed for them. */
  datatype Candidate = Candidate(userId: int, score: real)

  /** The MatchDto getAvailableMatches builds: a pending coffee chat. */
  datatype MatchSuggestion = MatchSuggestion(
    user1Id: int,
    user2Id: int,
    score: real,
    matchType: MatchType,
    status: MatchStatus)

  const MinimumCompatibility: real := 0.3

  function SuggestionFor(userId: int, c: Candidate): MatchSuggestion
  {
    MatchSuggestion(userId, c.userId, c.score, CoffeeChat, Pending)
  }

  predicate Keeps(userId: int, c: Candidate)
  {
    c.userId != userId && c.score > MinimumCompatibility
  }

  /** The loop of getAvailableMatches: other users above the threshold, in
      the order the repository lists them. */
  function Eligible(userId: int, cs: seq<Candidate>): (r: seq<MatchSuggestion>)
    ensures forall m :: m in r ==>
              m.user1Id == userId && m.user2Id != userId && m.score > MinimumCompatibility
              && m.matchType == CoffeeChat && m.status == Pending
    ensures forall c :: c in cs && Keeps(userId, c) ==> SuggestionFor(userId, c) in r
    ensures forall m :: m in r ==> exists c :: c in cs && Keeps(userId, c) && m == SuggestionFor(userId, c)
    ensures |r| <= |cs|
    decreases |cs|
  {
    if cs == [] then []
    else
      var last := cs[|cs| - 1];
      var front := Eligible(userId, cs[..|cs| - 1]);
      assert forall c :: c in cs ==> c in cs[..|cs| - 1] || c == last;
      assert forall c :: c in cs[..|cs| - 1] ==> c in cs;
      front + (if Keeps(userId, last) then [SuggestionFor(userId, last)] else [])
  }

  /** Non-increasing compatibility score. */
  predicate SortedByScore(s: seq<MatchSuggestion>)
  {
    forall i, j :: 0 <= i < j < |s| ==> s[i].score >= s[j].score
  }

  /** An entry scoring at least as much as every entry of a sorted list
      can go in front of it. */
  lemma PrependKeepsSorted(h: MatchSuggestion, t: seq<MatchSuggestion>)
    requires SortedByScore(t)
    requires forall j :: 0 <= j < |t| ==> t[j].score <= h.score
    ensures SortedByScore([h] + t)
  {
    var r := [h] + t;
    forall i, j | 0 <= i < j < |r| ensures r[i].score >= r[j].score {
      assert r[j] == t[j - 1];
      if i > 0 {
        assert r[i] == t[i - 1];
      }
    }
  }

  /** Insert behind every entry scoring at least as much, which keeps equal
      scores in their arrival order. */
  function InsertByScore(s: seq<MatchSuggestion>, x: MatchSuggestion): (r: seq<MatchSuggestion>)
    requires SortedByScore(s)
    ensures SortedByScore(r)
    ensures |r| == |s| + 1 && (r[0] == x || (s != [] && r[0] == s[0]))
  {
    if s == [] then [x]
    else if s[0].score < x.score then
      PrependKeepsSorted(x, s);
      [x] + s
    else
      var rest := InsertByScore(s[1..], x);
      assert s == [s[0]] + s[1..];
      forall j | 0 <= j < |rest| ensures rest[j].score <= s[0].score {
        if j > 0 {
          assert rest[0].score >= rest[j].score;
        }
      }
      PrependKeepsSorted(s[0], rest);
      [s[0]] + rest
  }

  /** Insertion adds exactly the new entry. */
  lemma {:induction false} InsertByScorePermutes(s: seq<MatchSuggestion>, x: MatchSuggestion)
    requires SortedByScore(s)
    ensures multiset(InsertByScore(s, x)) == multiset(s) + multiset{x}
  {
    if s != [] && s[0].score >= x.score {
      InsertByScorePermutes(s[1..], x);
      assert s == [s[0]] + s[1..];
      assert InsertByScore(s, x) == [s[0]] + InsertByScore(s[1..], x);
    }
  }

  /** The descending stable sort of `matches.sort`. */
  function SortByScore(s: seq<MatchSuggestion>): (r: seq<MatchSuggestion>)
    ensures SortedByScore(r)
    ensures multiset(r) == multiset(s)
    decreases |s|
  {
    if s == [] then []
    else
      assert s == s[..|s| - 1] + [s[|s| - 1]];
      InsertByScorePermutes(SortByScore(s[..|s| - 1]), s[|s| - 1]);
      InsertByScore(SortByScore(s[..|s| - 1]), s[|s| - 1])
  }

  /** The matching preference fields; UserPreferencesDto carries the same. */
  datatype MatchingPreferences = MatchingPreferences(
    preferredIndustries: Option<string>,
    preferredRoles: Option<string>,
    preferredExperienceLevel: Option<ExperienceLevel>,
    maxMatchDistanceKm: Option<int>,
    preferredChatDuration: Option<int>,
    availabilityStartTime: Option<string>,
    availabilityEndTime: Option<string>,
    preferredTimezone: Option<string>,
    isAvailableForMatching: Option<bool>,
    autoAcceptMatches: Option<bool>,
    notificationPreferences: Option<string>)

  datatype ExperienceLevel = Junior | MidLevel | Senior | Executive

  /** A new UserPreferences: 30-minute chats, available, no auto-accept. */
  const DefaultPreferences: MatchingPreferences :=
    MatchingPreferences(None, None, None, None, Some(30), None, None, None, Some(true), Some(false), None)

  class MatchingService {
    const matchRepository: Table<MatchRecord>
    const userRepository: Table<UserRecord>
    const chatHistoryRepository: Table<ChatEntry>
    /** The UserPreferences rows, by user id. */
    var preferences: map<int, MatchingPreferences>

    ghost predicate Valid()
      reads this, matchRepository, userRepository, chatHistoryRepository
    {
      matchRepository.Valid() && chatHistoryRepository.Valid() && MatchesKeyedById(matchRepository.rows)
    }

    constructor (matchRepository: Table<MatchRecord>, userRepository: Table<UserRecord>,
                 chatHistoryRepository: Table<ChatEntry>)
      requires matchRepository.Valid() && chatHistoryRepository.Valid() && MatchesKeyedById(matchRepository.rows)
      ensures Valid() && preferences == map[]
      ensures this.matchRepository == matchRepository && this.userRepository == userRepository
      ensures this.chatHistoryRepository == chatHistoryRepository
    {
      this.matchRepository := matchRepository;
      this.userRepository := userRepository;
      this.chatHistoryRepository := chatHistoryRepository;
      preferences := map[];
    }

    /** createMatchRequest; `score` is calculateCompatibilityScore's answer
        and `now` the log time. */
    method CreateMatchRequest(requester: int, form: MatchRequestForm, score: real, now: int)
      returns (r: Result<MatchDto>)
      requires Valid()
      modifies matchRepository, chatHistoryRepository
      ensures Valid()
      ensures PendingRequestExists(old(matchRepository.rows), requester, form.targetUserId) ==>
                r == Err("Match request already exists")
                && matchRepository.rows == old(matchRepository.rows)
                && chatHistoryRepository.rows == old(chatHistoryRepository.rows)
      ensures !PendingRequestExists(old(matchRepository.rows), requester, form.targetUserId) ==>
                var id := old(matchRepository.nextId);
                var m := NewMatch(id, requester, form, score);
                matchRepository.rows == old(matchRepository.rows)[id := m]
                && chatHistoryRepository.rows == old(chatHistoryRepository.rows)[old(chatHistoryRepository.nextId) :=
                     ChatEntryOf(id, requester, RequestLogText(form.message), MatchRequestMessage, now)]
                && r == Ok(ToMatchDto(m, userRepository.rows))
    {
      if exists id :: id in matchRepository.rows && matchRepository.rows[id].user1Id == requester
                      && matchRepository.rows[id].user2Id == form.targetUserId
                      && matchRepository.rows[id].status == Pending && matchRepository.rows[id].isActive {
        return Err("Match request already exists");
      }
      var m := NewMatch(matchRepository.nextId, requester, form, score);
      var id := matchRepository.Insert(m);
      var _ := chatHistoryRepository.Insert(
        ChatEntryOf(id, requester, RequestLogText(form.message), MatchRequestMessage, now));
      r := Ok(ToMatchDto(m, userRepository.rows));
    }

    /** respondToMatch. */
    method RespondToMatch(matchId: int, responder: int, resp: MatchResponse, now: int)
      returns (r: Result<MatchDto>)
      requires Valid()
      modifies matchRepository, chatHistoryRepository
      ensures Valid()
      ensures Respond(old(matchRepository.rows), matchId, responder, resp).Err? ==>
                r == Err(Respond(old(matchRepository.rows), matchId, responder, resp).message)
                && matchRepository.rows == old(matchRepository.rows)
                && chatHistoryRepository.rows == old(chatHistoryRepository.rows)
      ensures Respond(old(matchRepository.rows), matchId, responder, resp).Ok? ==>
                var n := Respond(old(matchRepository.rows), matchId, responder, resp).value;
                var log := ResponseLog(resp.status);
                matchRepository.rows == old(matchRepository.rows)[matchId := n]
                && chatHistoryRepository.rows == old(chatHistoryRepository.rows)[old(chatHistoryRepository.nextId) :=
                     ChatEntryOf(matchId, responder, log.0, log.1, now)]
                && r == Ok(ToMatchDto(n, userRepository.rows))
    {
      var outcome := Respond(matchRepository.rows, matchId, responder, resp);
      if outcome.Err? {
        return Err(outcome.message);
      }
      var n := outcome.value;
      matchRepository.Update(matchId, n);
      var log := ResponseLog(resp.status);
      var _ := chatHistoryRepository.Insert(ChatEntryOf(matchId, responder, log.0, log.1, now));
      r := Ok(ToMatchDto(n, userRepository.rows));
    }

    /** getAvailableMatches over the users findAvailableUsersForMatching
        lists, each with its computed score. */
    method GetAvailableMatches(userId: int, candidates: seq<Candidate>) returns (r: seq<MatchSuggestion>)
      ensures SortedByScore(r)
      ensures multiset(r) == multiset(Eligible(userId, candidates))
      ensures forall m :: m in r ==> m.user1Id == userId && m.user2Id != userId && m.score > MinimumCompatibility
      ensures forall c :: c in candidates && Keeps(userId, c) ==> SuggestionFor(userId, c) in r
      ensures forall m :: m in r ==> exists c :: c in candidates && Keeps(userId, c) && m == SuggestionFor(userId, c)
    {
      var matches: seq<MatchSuggestion> := [];
      var i := 0;
      while i < |candidates|
        invariant 0 <= i <= |candidates|
        invariant matches == Eligible(userId, candidates[..i])
      {
        assert candidates[..i + 1][..i] == candidates[..i];
        if candidates[i].userId != userId && candidates[i].score > MinimumCompatibility {
          matches := matches + [SuggestionFor(userId, candidates[i])];
        }
        i := i + 1;
      }
      assert candidates[..i] == candidates;
      r := SortByScore(matches);
      forall m | m in r
        ensures m in matches
      {
        assert m in multiset(matches);
      }
      forall c | c in candidates && Keeps(userId, c)
        ensures SuggestionFor(userId, c) in r
      {
        assert SuggestionFor(userId, c) in multiset(r);
      }
    }

    /** getUserPreferences: the stored preferences or a fresh default set,
        which is not saved. */
    function GetUserPreferences(userId: int): (p: MatchingPreferences)
      reads this
      ensures userId in preferences ==> p == preferences[userId]
      ensures userId !in preferences ==> p == DefaultPreferences
    {
      if userId in preferences then preferences[userId] else DefaultPreferences
    }

    /** updateUserPreferences writes every field from the DTO, nulls
        included, whatever was stored before. */
    method UpdateUserPreferences(userId: int, d: MatchingPreferences) returns (p: MatchingPreferences)
      modifies this
      ensures preferences == old(preferences)[userId := d] && p == d
      ensures GetUserPreferences(userId) == d
    {
      preferences := preferences[userId := d];
      p := d;
    }
  }
}
