// Feedback on a match by its participants: one record per match and user,
// overwritten on resubmission; the match score recomputed from the quality
// ratings of a completed match; and the overall quality statistics.

module MatchFeedbacks {
  import opened Common
  import opened Tables
  import opened Matches
  import opened Interactions

  /** A MatchFeedback row. Ratings are on a 1 to 5 scale by convention; the
      service does not check it. */
  datatype FeedbackRecord = FeedbackRecord(
    id: int,
    matchId: int,
    userId: int,
    qualityRating: int,
    conversationRating: Option<int>,
    relevanceRating: Option<int>,
    wouldMeetAgain: Option<bool>,
    feedbackText: Option<string>,
    improvementSuggestions: Option<string>,
    tags: Option<string>)

  /** The arguments of submitFeedback after the two ids. */
  datatype FeedbackForm = FeedbackForm(
    qualityRating: int,
    conversationRating: Option<int>,
    relevanceRating: Option<int>,
    wouldMeetAgain: Option<bool>,
    feedbackText: Option<string>,
    improvementSuggestions: Option<string>,
    tags: Option<string>)

  predicate FeedbacksKeyedById(rows: map<int, FeedbackRecord>)
  {
    forall id :: id in rows ==> rows[id].id == id
  }

  /** At most one feedback per match and user. */
  predicate OnePerMatchAndUser(rows: map<int, FeedbackRecord>)
  {
    forall a, b ::
      (a in rows && b in rows && rows[a].matchId == rows[b].matchId && rows[a].userId == rows[b].userId) ==> a == b
  }

  predicate IsFeedbackOf(f: FeedbackRecord, matchId: int, userId: int)
  {
    f.matchId == matchId && f.userId == userId
  }

  /** The seven setters of submitFeedback. */
  function Filled(f: FeedbackRecord, form: FeedbackForm): (n: FeedbackRecord)
    ensures n.id == f.id && n.matchId == f.matchId && n.userId == f.userId
    ensures n.qualityRating == form.qualityRating && n.conversationRating == form.conversationRating
    ensures n.relevanceRating == form.relevanceRating && n.wouldMeetAgain == form.wouldMeetAgain
    ensures n.feedbackText == form.feedbackText && n.improvementSuggestions == form.improvementSuggestions
    ensures n.tags == form.tags
  {
    f.(qualityRating := form.qualityRating, conversationRating := form.conversationRating,
       relevanceRating := form.relevanceRating, wouldMeetAgain := form.wouldMeetAgain,
       feedbackText := form.feedbackText, improvementSuggestions := form.improvementSuggestions,
       tags := form.tags)
  }

  /** Filling is idempotent: resubmitting the same form changes nothing. */
  lemma FillingTwiceIsFillingOnce(f: FeedbackRecord, form: FeedbackForm, other: FeedbackForm)
    ensures Filled(Filled(f, other), form) == Filled(f, form)
  {
  }

  /** `%d` of a possibly null Integer. */
  function RatingText(r: Option<int>): string
  {
    if r.Some? then IntToString(r.value) else "null"
  }

  /** The interaction value "quality:%d,conversation:%d,relevance:%d". */
  function RatingsText(form: FeedbackForm): string
  {
    "quality:" + IntToString(form.qualityRating) + ",conversation:" + RatingText(form.conversationRating)
    + ",relevance:" + RatingText(form.relevanceRating)
  }

  /** The other user of the match, as the feedback's interaction target. */
  function OtherUser(m: MatchRecord, userId: int): (t: int)
    requires userId == m.user1Id || userId == m.user2Id
    ensures m.user1Id != m.user2Id ==> t != userId && (t == m.user1Id || t == m.user2Id)
  {
    if m.user1Id == userId then m.user2Id else m.user1Id
  }

  /** The number of feedbacks on the match among the ids below `n`. */
  function CountFor(rows: map<int, FeedbackRecord>, matchId: int, n: int): nat
    decreases n
  {
    if n <= 1 then 0
    else CountFor(rows, matchId, n - 1) + (if n - 1 in rows && rows[n - 1].matchId == matchId then 1 else 0)
  }

  /** The sum of their quality ratings. */
  function QualitySumFor(rows: map<int, FeedbackRecord>, matchId: int, n: int): int
    decreases n
  {
    if n <= 1 then 0
    else QualitySumFor(rows, matchId, n - 1)
         + (if n - 1 in rows && rows[n - 1].matchId == matchId then rows[n - 1].qualityRating else 0)
  }

  /** Every quality rating of the match lies in 1 to 5. */
  predicate RatingsInScale(rows: map<int, FeedbackRecord>, matchId: int)
  {
    forall id :: id in rows && rows[id].matchId == matchId ==> 1 <= rows[id].qualityRating <= 5
  }

  /** The sum of k ratings on the 1 to 5 scale lies between k and 5k. */
  lemma {:induction false} QualitySumBounds(rows: map<int, FeedbackRecord>, matchId: int, n: int)
    requires RatingsInScale(rows, matchId)
    ensures CountFor(rows, matchId, n) <= QualitySumFor(rows, matchId, n) <= 5 * CountFor(rows, matchId, n)
    decreases n
  {
    if n > 1 {
      QualitySumBounds(rows, matchId, n - 1);
    }
  }

  /** The normalised score: the mean quality over 5. */
  function MatchScore(sum: int, count: int): (score: real)
    requires count > 0
    ensures score * 5.0 * count as real == sum as real
  {
    (sum as real / count as real) / 5.0
  }

  /** With ratings on the 1 to 5 scale the score lies in [0.2, 1]. */
  lemma {:induction false} MatchScoreInRange(rows: map<int, FeedbackRecord>, matchId: int, n: int)
    requires RatingsInScale(rows, matchId) && CountFor(rows, matchId, n) > 0
    ensures 0.2 <= MatchScore(QualitySumFor(rows, matchId, n), CountFor(rows, matchId, n)) <= 1.0
  {
    QualitySumBounds(rows, matchId, n);
    var c := CountFor(rows, matchId, n) as real;
    var s := QualitySumFor(rows, matchId, n) as real;
    QuotientBounds(s, c, 1.0, 5.0);
  }

  /** updateMatchCompletionStatus: with two or more feedbacks on a completed
      match its score becomes the mean quality over 5; otherwise nothing. */
  function CompletionUpdate(matches: map<int, MatchRecord>, rows: map<int, FeedbackRecord>,
                            matchId: int, n: int): (r: map<int, MatchRecord>)
    ensures r.Keys == matches.Keys
    ensures forall id :: id in matches && id != matchId ==> r[id] == matches[id]
    ensures matchId in matches && matches[matchId].status == Completed && CountFor(rows, matchId, n) >= 2 ==>
              r[matchId] == matches[matchId].(compatibilityScore :=
                Some(MatchScore(QualitySumFor(rows, matchId, n), CountFor(rows, matchId, n))))
    ensures !(matchId in matches && matches[matchId].status == Completed && CountFor(rows, matchId, n) >= 2) ==>
              r == matches
  {
    var count := CountFor(rows, matchId, n);
    if count >= 2 && matchId in matches && matches[matchId].status == Completed then
      matches[matchId := matches[matchId].(compatibilityScore := Some(MatchScore(QualitySumFor(rows, matchId, n), count)))]
    else matches
  }

  // ----- statistics

  datatype QualityStats = QualityStats(
    totalFeedback: nat,
    positiveFeedback: nat,
    highQualityMatches: nat,
    positiveRate: real,
    highQualityRate: real)

  /** countHighQualityMatches(4). */
  const HighQualityRating: int := 4

  /** The feedbacks that would meet again (countPositiveFeedback). */
  function PositiveIds(rows: map<int, FeedbackRecord>): set<int>
  {
    set id | id in rows && rows[id].wouldMeetAgain == Some(true)
  }

  /** The feedbacks rated at least 4 for quality. */
  function HighQualityIds(rows: map<int, FeedbackRecord>): set<int>
  {
    set id | id in rows && rows[id].qualityRating >= HighQualityRating
  }

  /** count / total, or 0 with no feedback at all. */
  function Rate(count: nat, total: nat): (r: real)
    ensures total > 0 ==> r * total as real == count as real
    ensures total == 0 ==> r == 0.0
  {
    if total > 0 then count as real / total as real else 0.0
  }

  lemma {:induction false} RateIsFraction(count: nat, total: nat)
    requires count <= total
    ensures 0.0 <= Rate(count, total) <= 1.0
    ensures total == 0 ==> Rate(count, total) == 0.0
  {
    if total > 0 {
      QuotientBounds(count as real, total as real, 0.0, 1.0);
    }
  }

  /** getOverallMatchQualityStats: both rates are fractions of the total,
      and 0 when there is no feedback. */
  function OverallStats(rows: map<int, FeedbackRecord>): (s: QualityStats)
    ensures s.totalFeedback == |rows|
    ensures s.positiveFeedback == |PositiveIds(rows)| && s.highQualityMatches == |HighQualityIds(rows)|
    ensures s.positiveFeedback <= s.totalFeedback && s.highQualityMatches <= s.totalFeedback
    ensures 0.0 <= s.positiveRate <= 1.0 && 0.0 <= s.highQualityRate <= 1.0
    ensures |rows| == 0 ==> s.positiveRate == 0.0 && s.highQualityRate == 0.0
    ensures |rows| > 0 ==> s.positiveRate == s.positiveFeedback as real / |rows| as real
    ensures |rows| > 0 ==> s.highQualityRate == s.highQualityMatches as real / |rows| as real
  {
    var positive := PositiveIds(rows);
    var high := HighQualityIds(rows);
    assert rows.Keys == positive + (rows.Keys - positive);
    assert rows.Keys == high + (rows.Keys - high);
    RateIsFraction(|positive|, |rows|);
    RateIsFraction(|high|, |rows|);
    QualityStats(|rows|, |positive|, |high|, Rate(|positive|, |rows|), Rate(|high|, |rows|))
  }

  class MatchFeedbackService {
    const matchFeedbackRepository: Table<FeedbackRecord>
    const matchRepository: Table<MatchRecord>
    const userInteractionRepository: Table<InteractionRecord>

    ghost predicate Valid()
      reads this, matchFeedbackRepository, matchRepository, userInteractionRepository
    {
      matchFeedbackRepository.Valid() && matchRepository.Valid() && userInteractionRepository.Valid()
      && FeedbacksKeyedById(matchFeedbackRepository.rows) && OnePerMatchAndUser(matchFeedbackRepository.rows)
    }

    constructor (matchFeedbackRepository: Table<FeedbackRecord>, matchRepository: Table<MatchRecord>,
                 userInteractionRepository: Table<InteractionRecord>)
      requires matchFeedbackRepository.Valid() && matchRepository.Valid() && userInteractionRepository.Valid()
      requires FeedbacksKeyedById(matchFeedbackRepository.rows) && OnePerMatchAndUser(matchFeedbackRepository.rows)
      ensures Valid()
      ensures this.matchFeedbackRepository == matchFeedbackRepository && this.matchRepository == matchRepository
      ensures this.userInteractionRepository == userInteractionRepository
    {
      this.matchFeedbackRepository := matchFeedbackRepository;
      this.matchRepository := matchRepository;
      this.userInteractionRepository := userInteractionRepository;
    }

    /** submitFeedback: only a participant may give feedback; a second
        submission overwrites the first; the other participant is recorded
        as the interaction's target; then the match score is updated. */
    method SubmitFeedback(matchId: int, userId: int, form: FeedbackForm, now: int)
      returns (r: Result<FeedbackRecord>)
      requires Valid()
      modifies matchFeedbackRepository, matchRepository, userInteractionRepository
      ensures Valid()
      ensures matchId !in old(matchRepository.rows) ==>
                r == Err("Match not found") && matchFeedbackRepository.rows == old(matchFeedbackRepository.rows)
                && matchRepository.rows == old(matchRepository.rows)
                && userInteractionRepository.rows == old(userInteractionRepository.rows)
      ensures matchId in old(matchRepository.rows) && userId != old(matchRepository.rows)[matchId].user1Id
                && userId != old(matchRepository.rows)[matchId].user2Id ==>
                r == Err("User not authorized to provide feedback for this match") && matchFeedbackRepository.rows == old(matchFeedbackRepository.rows)
                && matchRepository.rows == old(matchRepository.rows)
                && userInteractionRepository.rows == old(userInteractionRepository.rows)
      ensures matchId in old(matchRepository.rows) && (userId == old(matchRepository.rows)[matchId].user1Id
                || userId == old(matchRepository.rows)[matchId].user2Id) ==>
                r.Ok? && IsFeedbackOf(r.value, matchId, userId) && r.value.id in matchFeedbackRepository.rows
                && matchFeedbackRepository.rows[r.value.id] == r.value
                && r.value == Filled(r.value, form)
                && matchFeedbackRepository.rows == old(matchFeedbackRepository.rows)[r.value.id := r.value]
                && (r.value.id in old(matchFeedbackRepository.rows) ==>
                      r.value == Filled(old(matchFeedbackRepository.rows)[r.value.id], form))
                && (r.value.id !in old(matchFeedbackRepository.rows) ==>
                      r.value.id == old(matchFeedbackRepository.nextId)
                      && !exists id :: id in old(matchFeedbackRepository.rows)
                                       && IsFeedbackOf(old(matchFeedbackRepository.rows)[id], matchId, userId))
                && userInteractionRepository.rows == old(userInteractionRepository.rows)[old(userInteractionRepository.nextId) :=
                     RecordedInteraction(userId, OtherUser(old(matchRepository.rows)[matchId], userId),
                                         FeedbackGiven, RatingsText(form), now)]
                && matchRepository.rows == CompletionUpdate(old(matchRepository.rows), matchFeedbackRepository.rows,
                                                            matchId, matchFeedbackRepository.nextId)
    {
      if matchId !in matchRepository.rows {
        return Err("Match not found");
      }
      var m := matchRepository.rows[matchId];
      if m.user1Id != userId && m.user2Id != userId {
        return Err("User not authorized to provide feedback for this match");
      }
      var f := StoreFeedback(matchId, userId, form);
      var _ := userInteractionRepository.Insert(
        RecordedInteraction(userId, OtherUser(m, userId), FeedbackGiven, RatingsText(form), now));
      var updated := CompletionUpdate(matchRepository.rows, matchFeedbackRepository.rows, matchId,
                                      matchFeedbackRepository.nextId);
      if updated != matchRepository.rows {
        matchRepository.Update(matchId, updated[matchId]);
      }
      r := Ok(f);
    }

    /** The feedback step of submitFeedback: the user's feedback for the
        match is filled in and saved, replacing an earlier one when there is
        one, else stored under a fresh id. */
    method StoreFeedback(matchId: int, userId: int, form: FeedbackForm) returns (f: FeedbackRecord)
      requires matchFeedbackRepository.Valid()
      requires FeedbacksKeyedById(matchFeedbackRepository.rows) && OnePerMatchAndUser(matchFeedbackRepository.rows)
      modifies matchFeedbackRepository
      ensures matchFeedbackRepository.Valid()
      ensures FeedbacksKeyedById(matchFeedbackRepository.rows) && OnePerMatchAndUser(matchFeedbackRepository.rows)
      ensures IsFeedbackOf(f, matchId, userId) && f == Filled(f, form)
      ensures matchFeedbackRepository.rows == old(matchFeedbackRepository.rows)[f.id := f]
      ensures f.id in old(matchFeedbackRepository.rows) ==> f == Filled(old(matchFeedbackRepository.rows)[f.id], form)
      ensures f.id !in old(matchFeedbackRepository.rows) ==>
                f.id == old(matchFeedbackRepository.nextId)
                && !exists id :: id in old(matchFeedbackRepository.rows)
                                 && IsFeedbackOf(old(matchFeedbackRepository.rows)[id], matchId, userId)
    {
      if exists id :: id in matchFeedbackRepository.rows && IsFeedbackOf(matchFeedbackRepository.rows[id], matchId, userId) {
        var id :| id in matchFeedbackRepository.rows && IsFeedbackOf(matchFeedbackRepository.rows[id], matchId, userId);
        f := Filled(matchFeedbackRepository.rows[id], form);
        SameKeysKeepOne(matchFeedbackRepository.rows, id, f);
        matchFeedbackRepository.Update(id, f);
      } else {
        f := Filled(FeedbackRecord(matchFeedbackRepository.nextId, matchId, userId, 0, None, None, None, None, None, None), form);
        NewKeyKeepsOne(matchFeedbackRepository.rows, f.id, f);
        var _ := matchFeedbackRepository.Insert(f);
      }
    }

    /** getOverallMatchQualityStats. */
    function GetOverallMatchQualityStats(): (s: QualityStats)
      reads this, matchFeedbackRepository
      ensures s == OverallStats(matchFeedbackRepository.rows)
    {
      OverallStats(matchFeedbackRepository.rows)
    }
  }

  /** Overwriting a feedback with one for the same match and user keeps one
      per pair. */
  lemma {:induction false} SameKeysKeepOne(rows: map<int, FeedbackRecord>, id: int, f: FeedbackRecord)
    requires OnePerMatchAndUser(rows) && id in rows
    requires f.matchId == rows[id].matchId && f.userId == rows[id].userId
    ensures OnePerMatchAndUser(rows[id := f])
  {
    var m := rows[id := f];
    forall a, b | a in m && b in m && m[a].matchId == m[b].matchId && m[a].userId == m[b].userId
      ensures a == b
    {
      assert m[a].matchId == rows[a].matchId && m[a].userId == rows[a].userId;
      assert m[b].matchId == rows[b].matchId && m[b].userId == rows[b].userId;
    }
  }

  /** Adding the first feedback of a pair keeps one per pair. */
  lemma {:induction false} NewKeyKeepsOne(rows: map<int, FeedbackRecord>, id: int, f: FeedbackRecord)
    requires OnePerMatchAndUser(rows) && id !in rows
    requires !exists j :: j in rows && IsFeedbackOf(rows[j], f.matchId, f.userId)
    ensures OnePerMatchAndUser(rows[id := f])
  {
    var m := rows[id := f];
    forall a, b | a in m && b in m && m[a].matchId == m[b].matchId && m[a].userId == m[b].userId
      ensures a == b
    {
      assert m[a] == (if a == id then f else rows[a]);
      assert m[b] == (if b == id then f else rows[b]);
    }
  }
}
