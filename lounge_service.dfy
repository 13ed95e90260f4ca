// LoungeService: creating, joining, leaving and deleting lounges, and the
// messages sent in them. Participant rows, the participant counter and the
// message log are updated step by step, as the service saves them.

module Lounges {
  import opened Common
  import opened Tables
  import opened Users
  import opened LoungeEntities

  /** The request body of createLounge. */
  datatype CreateLoungeForm = CreateLoungeForm(
    title: string,
    description: Option<string>,
    topic: string,
    category: Option<string>,
    tags: Option<seq<string>>,
    visibility: Visibility,
    maxParticipants: Option<int>)

  /** The request body of sendMessage. */
  datatype SendMessageForm = SendMessageForm(
    loungeId: int,
    content: string,
    messageType: LoungeMessageType,
    replyToMessageId: Option<int>)

  datatype LoungeDto = LoungeDto(
    id: int,
    title: string,
    description: Option<string>,
    topic: string,
    category: Option<string>,
    tags: Option<string>,
    createdBy: int,
    creatorName: Option<string>,
    creatorEmail: Option<string>,
    visibility: Visibility,
    maxParticipants: Option<int>,
    currentParticipants: int,
    isActive: bool,
    isFeatured: bool,
    lastActivity: Option<int>,
    tagList: Option<seq<string>>,
    isParticipant: bool,
    participantRole: Option<string>)

  datatype LoungeMessageDto = LoungeMessageDto(
    id: int,
    loungeId: int,
    userId: int,
    userName: Option<string>,
    userEmail: Option<string>,
    content: string,
    messageType: LoungeMessageType,
    replyToMessageId: Option<int>,
    replyToUserName: Option<string>,
    isEdited: bool,
    isDeleted: bool)

  const NotParticipant := "User is not a participant in this lounge"
  const LoungeNotFound := "Lounge not found"

  predicate LoungesKeyedById(lounges: map<int, LoungeRecord>)
  {
    forall id :: id in lounges ==> lounges[id].id == id
  }

  predicate ParticipantsKeyedById(parts: map<int, ParticipantRecord>)
  {
    forall id :: id in parts ==> parts[id].id == id
  }

  predicate LoungeMessagesKeyedById(messages: map<int, LoungeMessageRecord>)
  {
    forall id :: id in messages ==> messages[id].id == id
  }

  /** Row `p` is an active membership of `userId` in `loungeId`. */
  predicate Participates(parts: map<int, ParticipantRecord>, p: int, loungeId: int, userId: int)
  {
    p in parts && parts[p].loungeId == loungeId && parts[p].userId == userId && parts[p].isActive
  }

  /** `existsByLoungeIdAndUserIdAndIsActiveTrue`. */
  predicate IsParticipant(parts: map<int, ParticipantRecord>, loungeId: int, userId: int)
  {
    exists p :: p in parts && Participates(parts, p, loungeId, userId)
  }

  /** A user holds at most one active membership per lounge, which is what
      lets `findByLoungeIdAndUserIdAndIsActiveTrue` return a single row. */
  predicate OneActiveParticipation(parts: map<int, ParticipantRecord>)
  {
    forall p, q :: (p in parts && q in parts && parts[p].isActive && parts[q].isActive
                    && parts[p].loungeId == parts[q].loungeId && parts[p].userId == parts[q].userId) ==> p == q
  }

  /** Memberships belong to lounges that exist (lounges are only ever
      deactivated, never deleted). */
  predicate ParticipantsOfKnownLounges(parts: map<int, ParticipantRecord>, lounges: map<int, LoungeRecord>)
  {
    forall p :: p in parts ==> parts[p].loungeId in lounges
  }

  /** `findByLoungeIdAndIsActiveTrue`, as ids. */
  function ActiveParticipantIds(parts: map<int, ParticipantRecord>, loungeId: int): set<int>
  {
    set p | p in parts && parts[p].loungeId == loungeId && parts[p].isActive
  }

  /** `findByLoungeIdAndUserIdAndIsActiveTrue`, as the id of the row. */
  function ParticipationOf(parts: map<int, ParticipantRecord>, loungeId: int, userId: int): (r: Option<int>)
    requires OneActiveParticipation(parts)
    ensures r.Some? <==> IsParticipant(parts, loungeId, userId)
    ensures r.Some? ==> Participates(parts, r.value, loungeId, userId)
    ensures forall p :: Participates(parts, p, loungeId, userId) ==> r == Some(p)
  {
    if exists p :: p in parts && Participates(parts, p, loungeId, userId) then
      var p :| p in parts && Participates(parts, p, loungeId, userId);
      Some(p)
    else None
  }

  /** `findByIdAndIsActiveTrue`. */
  function ActiveLounge(lounges: map<int, LoungeRecord>, id: int): (r: Option<LoungeRecord>)
    ensures r.Some? <==> id in lounges && lounges[id].isActive
    ensures r.Some? ==> r.value == lounges[id]
  {
    if id in lounges && lounges[id].isActive then Some(lounges[id]) else None
  }

  /** `existsByTitleAndIsActiveTrue`. */
  predicate TitleTaken(lounges: map<int, LoungeRecord>, title: string)
  {
    exists id :: id in lounges && lounges[id].isActive && lounges[id].title == title
  }

  /** The lounge createLounge saves: the caller is its creator and first
      participant and the tags are stored comma-joined. */
  function NewLounge(id: int, userId: int, form: CreateLoungeForm, now: int): (l: LoungeRecord)
    ensures l.id == id && l.createdBy == userId && l.title == form.title && l.topic == form.topic
    ensures l.description == form.description && l.category == form.category
    ensures l.visibility == form.visibility && l.maxParticipants == form.maxParticipants
    ensures l.tags.Some? <==> form.tags.Some?
    ensures form.tags.Some? ==> l.tags.value == JoinTags(form.tags.value)
    ensures l.currentParticipants == 1 && l.isActive && !l.isFeatured && l.lastActivity == Some(now)
  {
    LoungeRecord(id, form.title, form.description, form.topic, form.category,
                 if form.tags.Some? then Some(JoinTags(form.tags.value)) else None,
                 userId, form.visibility, form.maxParticipants, 1, true, false, Some(now))
  }

  /** A new participant row: active, not muted. */
  function NewParticipant(id: int, loungeId: int, userId: int, role: ParticipantRole, now: int): (p: ParticipantRecord)
    ensures p.id == id && p.loungeId == loungeId && p.userId == userId && p.role == role
    ensures p.isActive && !p.isMuted && p.mutedUntil.None?
    ensures p.joinedAt == now && p.lastActivity == Some(now)
  {
    ParticipantRecord(id, loungeId, userId, role, now, Some(now), true, false, None)
  }

  /** logSystemMessage: a message with no reply, neither edited nor deleted. */
  function SystemMessage(id: int, loungeId: int, userId: int, content: string, t: LoungeMessageType): (m: LoungeMessageRecord)
    ensures m.id == id && m.loungeId == loungeId && m.userId == userId && m.content == content
    ensures m.messageType == t && m.replyToMessageId.None? && !m.isEdited && !m.isDeleted
  {
    LoungeMessageRecord(id, loungeId, userId, content, t, None, false, false)
  }

  /** A lounge is full only when it has a maximum and has reached it. */
  predicate AtCapacity(l: LoungeRecord)
  {
    l.maxParticipants.Some? && l.currentParticipants >= l.maxParticipants.value
  }

  /** The checks of joinLounge, in the order the service makes them. */
  function JoinCheck(lounges: map<int, LoungeRecord>, parts: map<int, ParticipantRecord>, loungeId: int, userId: int): (r: Result<LoungeRecord>)
    ensures r.Ok? <==> (loungeId in lounges && lounges[loungeId].isActive
                        && !IsParticipant(parts, loungeId, userId) && !AtCapacity(lounges[loungeId]))
    ensures r.Ok? ==> r.value == lounges[loungeId]
    ensures r.Ok? && r.value.maxParticipants.Some? ==> r.value.currentParticipants + 1 <= r.value.maxParticipants.value
    ensures ActiveLounge(lounges, loungeId).None? ==> r == Err(LoungeNotFound)
    ensures ActiveLounge(lounges, loungeId).Some? && IsParticipant(parts, loungeId, userId) ==>
              r == Err("User is already a participant in this lounge")
    ensures ActiveLounge(lounges, loungeId).Some? && !IsParticipant(parts, loungeId, userId) && AtCapacity(lounges[loungeId]) ==>
              r == Err("Lounge is at maximum capacity")
  {
    match ActiveLounge(lounges, loungeId)
    case None => Err(LoungeNotFound)
    case Some(l) =>
      if IsParticipant(parts, loungeId, userId) then Err("User is already a participant in this lounge")
      else if AtCapacity(l) then Err("Lounge is at maximum capacity")
      else Ok(l)
  }

  /** The lounge after a join: one more participant, active now. */
  function Joined(l: LoungeRecord, now: int): (n: LoungeRecord)
    ensures n == l.(currentParticipants := n.currentParticipants, lastActivity := Some(now))
    ensures n.currentParticipants == l.currentParticipants + 1
  {
    l.(currentParticipants := l.currentParticipants + 1, lastActivity := Some(now))
  }

  const CreatorCannotLeave := "Creator cannot leave the lounge. Transfer ownership or delete the lounge instead."

  /** The checks of leaveLounge: the id of the membership to end. */
  function LeaveCheck(parts: map<int, ParticipantRecord>, loungeId: int, userId: int): (r: Result<int>)
    requires OneActiveParticipation(parts)
    ensures r.Ok? ==> Participates(parts, r.value, loungeId, userId) && parts[r.value].role != Creator
    ensures !IsParticipant(parts, loungeId, userId) ==> r == Err(NotParticipant)
    ensures forall p :: Participates(parts, p, loungeId, userId) ==>
              r == if parts[p].role == Creator then Err(CreatorCannotLeave) else Ok(p)
  {
    match ParticipationOf(parts, loungeId, userId)
    case None => Err(NotParticipant)
    case Some(p) => if parts[p].role == Creator then Err(CreatorCannotLeave) else Ok(p)
  }

  /** The lounge after a leave: one participant fewer, never below zero. */
  function Left(l: LoungeRecord, now: int): (n: LoungeRecord)
    ensures n == l.(currentParticipants := n.currentParticipants, lastActivity := Some(now))
    ensures l.currentParticipants > 0 ==> n.currentParticipants == l.currentParticipants - 1
    ensures l.currentParticipants <= 0 ==> n.currentParticipants == 0
  {
    l.(currentParticipants := Max(0, l.currentParticipants - 1), lastActivity := Some(now))
  }

  /** The checks of sendMessage: the id of the sender's membership. */
  function SendCheck(parts: map<int, ParticipantRecord>, loungeId: int, userId: int, now: int): (r: Result<int>)
    requires OneActiveParticipation(parts)
    ensures r.Ok? ==> Participates(parts, r.value, loungeId, userId) && !MutedAt(parts[r.value], now)
    ensures !IsParticipant(parts, loungeId, userId) ==> r == Err(NotParticipant)
    ensures forall p :: Participates(parts, p, loungeId, userId) ==>
              r == if MutedAt(parts[p], now) then Err("User is currently muted") else Ok(p)
    ensures forall p :: Participates(parts, p, loungeId, userId) && parts[p].mutedUntil.None? ==> r == Ok(p)
  {
    match ParticipationOf(parts, loungeId, userId)
    case None => Err(NotParticipant)
    case Some(p) => if MutedAt(parts[p], now) then Err("User is currently muted") else Ok(p)
  }

  /** The checks of deleteLounge. */
  function DeleteLoungeCheck(lounges: map<int, LoungeRecord>, loungeId: int, userId: int): (r: Result<LoungeRecord>)
    ensures r.Ok? <==> loungeId in lounges && lounges[loungeId].isActive && lounges[loungeId].createdBy == userId
    ensures r.Ok? ==> r.value == lounges[loungeId]
    ensures ActiveLounge(lounges, loungeId).None? ==> r == Err(LoungeNotFound)
    ensures ActiveLounge(lounges, loungeId).Some? && lounges[loungeId].createdBy != userId ==>
              r == Err("Only the creator can delete the lounge")
  {
    match ActiveLounge(lounges, loungeId)
    case None => Err(LoungeNotFound)
    case Some(l) => if l.createdBy != userId then Err("Only the creator can delete the lounge") else Ok(l)
  }

  /** The memberships after deleteLounge: every active one of the lounge is
      ended, every other row is as it was. */
  function WithLoungeClosed(parts: map<int, ParticipantRecord>, loungeId: int): (m: map<int, ParticipantRecord>)
    ensures m.Keys == parts.Keys
    ensures forall p :: p in m ==> m[p] == parts[p].(isActive := m[p].isActive)
    ensures forall p :: p in m && m[p].loungeId == loungeId ==> !m[p].isActive
    ensures forall p :: p in m && parts[p].loungeId != loungeId ==> m[p] == parts[p]
  {
    map p | p in parts :: if parts[p].loungeId == loungeId then parts[p].(isActive := false) else parts[p]
  }

  /** Closing a lounge keeps the membership invariants and leaves it with no
      participant. */
  lemma {:induction false} ClosingKeepsInvariants(parts: map<int, ParticipantRecord>, lounges: map<int, LoungeRecord>, loungeId: int)
    requires ParticipantsKeyedById(parts) && OneActiveParticipation(parts) && ParticipantsOfKnownLounges(parts, lounges)
    ensures var m := WithLoungeClosed(parts, loungeId);
            ParticipantsKeyedById(m) && OneActiveParticipation(m) && ParticipantsOfKnownLounges(m, lounges)
            && ActiveParticipantIds(m, loungeId) == {}
            && forall u :: !IsParticipant(m, loungeId, u)
  {
    var m := WithLoungeClosed(parts, loungeId);
    forall p, q | p in m && q in m && m[p].isActive && m[q].isActive
                  && m[p].loungeId == m[q].loungeId && m[p].userId == m[q].userId
      ensures p == q
    {
      assert parts[p].isActive && parts[q].isActive;
    }
    forall p | p in m
      ensures m[p].loungeId in lounges
    {
      assert m[p].loungeId == parts[p].loungeId;
    }
  }

  /** A new membership of someone who had none keeps one membership per
      user and lounge. */
  lemma {:induction false} AddingParticipantKeepsOne(parts: map<int, ParticipantRecord>, id: int, n: ParticipantRecord)
    requires OneActiveParticipation(parts) && id !in parts
    requires !IsParticipant(parts, n.loungeId, n.userId)
    ensures OneActiveParticipation(parts[id := n])
  {
    var m := parts[id := n];
    forall p, q | p in m && q in m && m[p].isActive && m[q].isActive
                  && m[p].loungeId == m[q].loungeId && m[p].userId == m[q].userId
      ensures p == q
    {
      assert p != id ==> Participates(parts, p, m[p].loungeId, m[p].userId);
      assert q != id ==> Participates(parts, q, m[q].loungeId, m[q].userId);
    }
  }

  /** A membership of a lounge no row refers to yet keeps one membership per
      user and lounge, and is then the lounge's only one. */
  lemma {:induction false} FirstParticipantOfNewLounge(parts: map<int, ParticipantRecord>, lounges: map<int, LoungeRecord>,
                                                         id: int, n: ParticipantRecord)
    requires OneActiveParticipation(parts) && ParticipantsOfKnownLounges(parts, lounges)
    requires id !in parts && n.loungeId !in lounges && n.isActive
    ensures OneActiveParticipation(parts[id := n])
    ensures ActiveParticipantIds(parts[id := n], n.loungeId) == {id}
  {
    assert !IsParticipant(parts, n.loungeId, n.userId);
    AddingParticipantKeepsOne(parts, id, n);
    var m := parts[id := n];
    assert forall y :: y in parts ==> parts[y].loungeId != n.loungeId;
    assert forall y :: y in m && y != id ==> m[y] == parts[y];
    assert id in ActiveParticipantIds(m, n.loungeId);
  }

  /** `findById(...).ifPresent(...)` on the user table: a name and an email,
      or neither. */
  function NameOf(users: map<int, UserRecord>, id: int): Option<string>
  {
    if id in users then Some(users[id].name) else None
  }

  function EmailOf(users: map<int, UserRecord>, id: int): Option<string>
  {
    if id in users then Some(users[id].email) else None
  }

  /** convertToLoungeDto, for the viewing user `userId`. */
  function ToLoungeDto(l: LoungeRecord, users: map<int, UserRecord>, parts: map<int, ParticipantRecord>, userId: int): (d: LoungeDto)
    requires OneActiveParticipation(parts)
    ensures d.id == l.id && d.title == l.title && d.description == l.description && d.topic == l.topic
    ensures d.category == l.category && d.tags == l.tags && d.createdBy == l.createdBy
    ensures d.visibility == l.visibility && d.maxParticipants == l.maxParticipants
    ensures d.currentParticipants == l.currentParticipants && d.isActive == l.isActive
    ensures d.isFeatured == l.isFeatured && d.lastActivity == l.lastActivity
    ensures d.tagList.Some? <==> l.tags.Some?
    ensures l.tags.Some? ==> d.tagList.value == SplitTags(l.tags.value)
    ensures d.creatorName.Some? <==> l.createdBy in users
    ensures d.creatorEmail.Some? <==> l.createdBy in users
    ensures d.isParticipant <==> IsParticipant(parts, l.id, userId)
    ensures d.participantRole.Some? <==> d.isParticipant
    ensures forall p :: Participates(parts, p, l.id, userId) ==> d.participantRole == Some(RoleName(parts[p].role))
  {
    var participation := ParticipationOf(parts, l.id, userId);
    LoungeDto(l.id, l.title, l.description, l.topic, l.category, l.tags, l.createdBy,
              NameOf(users, l.createdBy), EmailOf(users, l.createdBy),
              l.visibility, l.maxParticipants, l.currentParticipants, l.isActive, l.isFeatured, l.lastActivity,
              if l.tags.Some? then Some(SplitTags(l.tags.value)) else None,
              participation.Some?,
              if participation.Some? then Some(RoleName(parts[participation.value].role)) else None)
  }

  /** Tags given as a non-empty list of non-empty, comma-free strings are
      shown back in the lounge createLounge returns. */
  lemma {:induction false} CreatedLoungeShowsItsTags(id: int, userId: int, form: CreateLoungeForm, now: int,
                                                       users: map<int, UserRecord>, parts: map<int, ParticipantRecord>)
    requires OneActiveParticipation(parts)
    requires form.tags.Some? && |form.tags.value| >= 1
    requires forall i :: 0 <= i < |form.tags.value| ==> form.tags.value[i] != "" && ',' !in form.tags.value[i]
    ensures ToLoungeDto(NewLounge(id, userId, form, now), users, parts, userId).tagList == form.tags
  {
    TagsRoundTrip(form.tags.value);
  }

  /** convertToMessageDto: the author's name and email, and the name of the
      author of the message replied to, when those rows exist. */
  function ToMessageDto(m: LoungeMessageRecord, users: map<int, UserRecord>, messages: map<int, LoungeMessageRecord>): (d: LoungeMessageDto)
    ensures d.id == m.id && d.loungeId == m.loungeId && d.userId == m.userId && d.content == m.content
    ensures d.messageType == m.messageType && d.replyToMessageId == m.replyToMessageId
    ensures d.isEdited == m.isEdited && d.isDeleted == m.isDeleted
    ensures d.userName.Some? <==> m.userId in users
    ensures d.replyToUserName.Some? <==>
              m.replyToMessageId.Some? && m.replyToMessageId.value in messages
              && messages[m.replyToMessageId.value].userId in users
  {
    LoungeMessageDto(m.id, m.loungeId, m.userId, NameOf(users, m.userId), EmailOf(users, m.userId), m.content,
                     m.messageType, m.replyToMessageId,
                     if m.replyToMessageId.Some? && m.replyToMessageId.value in messages
                     then NameOf(users, messages[m.replyToMessageId.value].userId) else None,
                     m.isEdited, m.isDeleted)
  }

  /** The ids below `n` of the lounge's messages that are not deleted, in
      increasing order. */
  function MessageIdsBelow(messages: map<int, LoungeMessageRecord>, loungeId: int, n: nat): (ids: seq<int>)
    ensures forall i :: 0 <= i < |ids| ==>
              0 <= ids[i] < n && ids[i] in messages && messages[ids[i]].loungeId == loungeId && !messages[ids[i]].isDeleted
    ensures forall i, j :: 0 <= i < j < |ids| ==> ids[i] < ids[j]
    ensures forall id :: 0 <= id < n && id in messages && messages[id].loungeId == loungeId && !messages[id].isDeleted ==>
              id in ids
  {
    if n == 0 then []
    else
      var prefix := MessageIdsBelow(messages, loungeId, n - 1);
      if n - 1 in messages && messages[n - 1].loungeId == loungeId && !messages[n - 1].isDeleted
      then prefix + [n - 1]
      else prefix
  }

  /** The lounge's messages that are not deleted, oldest first, as transfer
      objects; `n` bounds the ids in use. */
  function LiveMessages(messages: map<int, LoungeMessageRecord>, users: map<int, UserRecord>, loungeId: int, n: nat)
    : (r: seq<LoungeMessageDto>)
    requires LoungeMessagesKeyedById(messages)
    requires forall id :: id in messages ==> 0 <= id < n
    ensures forall i :: 0 <= i < |r| ==> r[i].loungeId == loungeId && !r[i].isDeleted && r[i].id in messages
    ensures forall i :: 0 <= i < |r| ==> r[i] == ToMessageDto(messages[r[i].id], users, messages)
    ensures forall i, j :: 0 <= i < j < |r| ==> r[i].id < r[j].id
    ensures forall id :: id in messages && messages[id].loungeId == loungeId && !messages[id].isDeleted ==>
              exists i :: 0 <= i < |r| && r[i].id == id
  {
    var ids := MessageIdsBelow(messages, loungeId, n);
    var dtos := seq(|ids|, i requires 0 <= i < |ids| => ToMessageDto(messages[ids[i]], users, messages));
    assert forall i :: 0 <= i < |dtos| ==> dtos[i].id == ids[i];
    assert forall id :: id in messages && messages[id].loungeId == loungeId && !messages[id].isDeleted ==>
             exists i :: 0 <= i < |dtos| && dtos[i].id == id
      by {
      forall id | id in messages && messages[id].loungeId == loungeId && !messages[id].isDeleted
        ensures exists i :: 0 <= i < |dtos| && dtos[i].id == id
      {
        assert id in ids;
        var i :| 0 <= i < |ids| && ids[i] == id;
        assert dtos[i].id == id;
      }
    }
    dtos
  }

  // ---------------------------------------------------------------------
  // JPQL LIKE

  /** `s LIKE p`: `%` matches any run of characters and `_` any single
      character; there is no escape character. */
  predicate Like(s: string, p: string)
    ensures !HasWildcard(p) ==> (Like(s, p) <==> s == p)
    decreases |s| + |p|
  {
    if p == [] then s == []
    else if p[0] == '%' then Like(s, p[1..]) || (s != [] && Like(s[1..], p))
    else s != [] && (p[0] == '_' || p[0] == s[0]) && Like(s[1..], p[1..])
  }

  predicate HasWildcard(t: string)
  {
    '%' in t || '_' in t
  }

  /** A lone `%` matches everything. */
  lemma {:induction false} PercentMatchesAll(s: string)
    ensures Like(s, "%")
  {
    assert "%"[1..] == [];
    if s != [] {
      PercentMatchesAll(s[1..]);
    }
  }

  /** `t%` for a wildcard-free `t` matches exactly the texts starting with `t`. */
  lemma {:induction false} LikePrefix(s: string, t: string)
    requires !HasWildcard(t)
    ensures Like(s, t + "%") <==> t <= s
  {
    if t == [] {
      assert t + "%" == "%";
      PercentMatchesAll(s);
    } else {
      assert (t + "%")[0] == t[0] && (t + "%")[1..] == t[1..] + "%";
      assert !HasWildcard(t[1..]) by {
        assert forall c :: c in t[1..] ==> c in t;
      }
      if s != [] {
        LikePrefix(s[1..], t[1..]);
      }
    }
  }

  /** `%t%` for a wildcard-free `t` is String.contains. */
  lemma {:induction false} LikeInfixIsContains(s: string, t: string)
    requires !HasWildcard(t)
    ensures Like(s, "%" + t + "%") <==> Contains(s, t)
    decreases |s|
  {
    var p := "%" + t + "%";
    assert p[0] == '%' && p[1..] == t + "%";
    LikePrefix(s, t);
    if s != [] {
      LikeInfixIsContains(s[1..], t);
    }
  }

  /** An underscore in the term matches any character: "%a_%" finds "ab",
      which does not contain "a_". */
  lemma UnderscoreMatchesAnyCharacter(s: string, p: string)
    requires s == "ab" && p == "%a_%"
    ensures Like(s, p) && !Contains(s, "a_")
  {
    assert p[1..] == "a_%" && p[1..][1..] == "_%" && p[1..][1..][1..] == "%";
    assert s[1..] == "b" && s[1..][1..] == [];
    assert Like(s[1..][1..], "%") by { PercentMatchesAll(s[1..][1..]); }
    assert Like(s[1..], "_%");
    assert Like(s, "a_%");
    assert Like(s, p);
    assert "a_"[1] != s[1];
    assert !Contains(s[1..][1..], "a_");
    assert !Contains(s[1..], "a_");
  }

  /** The `searchLounges` condition: the title, the description or the topic
      is LIKE `%term%`; a null description never matches. */
  predicate MatchesSearchTerm(l: LoungeRecord, term: string)
  {
    var p := "%" + term + "%";
    Like(l.title, p) || (l.description.Some? && Like(l.description.value, p)) || Like(l.topic, p)
  }

  /** The sort key of `ORDER BY lastActivity DESC`. */
  function LastActivityOf(d: LoungeDto): Option<int>
  {
    d.lastActivity
  }

  /** The DTOs of the lounges with these ids, in the same order. */
  function LoungeDtosOfIds(rows: map<int, LoungeRecord>, ids: seq<int>, users: map<int, UserRecord>,
                           parts: map<int, ParticipantRecord>, userId: int): (ds: seq<LoungeDto>)
    requires LoungesKeyedById(rows) && OneActiveParticipation(parts)
    requires forall i :: 0 <= i < |ids| ==> ids[i] in rows
    ensures |ds| == |ids|
    ensures forall i :: 0 <= i < |ds| ==> ds[i] == ToLoungeDto(rows[ids[i]], users, parts, userId) && ds[i].id == ids[i]
    ensures forall id :: id in ids ==> ToLoungeDto(rows[id], users, parts, userId) in ds
  {
    var ds := seq(|ids|, i requires 0 <= i < |ids| => ToLoungeDto(rows[ids[i]], users, parts, userId));
    forall id | id in ids ensures ToLoungeDto(rows[id], users, parts, userId) in ds {
      var k :| 0 <= k < |ids| && ids[k] == id;
      assert ds[k] == ToLoungeDto(rows[id], users, parts, userId);
    }
    ds
  }

  class LoungeService {
    const loungeRepository: Table<LoungeRecord>
    const loungeMessageRepository: Table<LoungeMessageRecord>
    const loungeParticipantRepository: Table<ParticipantRecord>
    const userRepository: Table<UserRecord>

    ghost predicate Valid()
      reads this, loungeRepository, loungeMessageRepository, loungeParticipantRepository, userRepository
    {
      loungeRepository.Valid() && loungeMessageRepository.Valid() && loungeParticipantRepository.Valid()
      && userRepository.Valid()
      && LoungesKeyedById(loungeRepository.rows) && LoungeMessagesKeyedById(loungeMessageRepository.rows)
      && ParticipantsKeyedById(loungeParticipantRepository.rows)
      && OneActiveParticipation(loungeParticipantRepository.rows)
      && ParticipantsOfKnownLounges(loungeParticipantRepository.rows, loungeRepository.rows)
    }

    constructor (loungeRepository: Table<LoungeRecord>, loungeMessageRepository: Table<LoungeMessageRecord>,
                 loungeParticipantRepository: Table<ParticipantRecord>, userRepository: Table<UserRecord>)
      requires loungeRepository.Valid() && loungeMessageRepository.Valid() && loungeParticipantRepository.Valid()
      requires userRepository.Valid()
      requires LoungesKeyedById(loungeRepository.rows) && LoungeMessagesKeyedById(loungeMessageRepository.rows)
      requires ParticipantsKeyedById(loungeParticipantRepository.rows)
      requires OneActiveParticipation(loungeParticipantRepository.rows)
      requires ParticipantsOfKnownLounges(loungeParticipantRepository.rows, loungeRepository.rows)
      ensures Valid()
      ensures this.loungeRepository == loungeRepository && this.loungeMessageRepository == loungeMessageRepository
      ensures this.loungeParticipantRepository == loungeParticipantRepository && this.userRepository == userRepository
    {
      this.loungeRepository := loungeRepository;
      this.loungeMessageRepository := loungeMessageRepository;
      this.loungeParticipantRepository := loungeParticipantRepository;
      this.userRepository := userRepository;
    }

    /** createLounge: a lounge with its creator as the only participant and
        a "Lounge created" system message. */
    method CreateLounge(userId: int, form: CreateLoungeForm, now: int) returns (r: Result<LoungeDto>)
      requires Valid()
      modifies loungeRepository, loungeParticipantRepository, loungeMessageRepository
      ensures Valid()
      ensures TitleTaken(old(loungeRepository.rows), form.title) ==>
                r == Err("Lounge with this title already exists")
                && loungeRepository.rows == old(loungeRepository.rows)
                && loungeParticipantRepository.rows == old(loungeParticipantRepository.rows)
                && loungeMessageRepository.rows == old(loungeMessageRepository.rows)
      ensures !TitleTaken(old(loungeRepository.rows), form.title) ==>
                var id := old(loungeRepository.nextId);
                var pid := old(loungeParticipantRepository.nextId);
                var mid := old(loungeMessageRepository.nextId);
                var l := NewLounge(id, userId, form, now);
                loungeRepository.rows == old(loungeRepository.rows)[id := l]
                && loungeParticipantRepository.rows ==
                     old(loungeParticipantRepository.rows)[pid := NewParticipant(pid, id, userId, Creator, now)]
                && loungeMessageRepository.rows ==
                     old(loungeMessageRepository.rows)[mid := SystemMessage(mid, id, userId, "Lounge created", SystemType)]
                && r == Ok(ToLoungeDto(l, userRepository.rows, loungeParticipantRepository.rows, userId))
      ensures r.Ok? ==>
                ActiveParticipantIds(loungeParticipantRepository.rows, r.value.id) == {old(loungeParticipantRepository.nextId)}
                && r.value.currentParticipants == 1 && r.value.participantRole == Some("CREATOR")
    {
      if exists id :: id in loungeRepository.rows && loungeRepository.rows[id].isActive && loungeRepository.rows[id].title == form.title {
        return Err("Lounge with this title already exists");
      }
      var l := NewLounge(loungeRepository.nextId, userId, form, now);
      var id := loungeRepository.Insert(l);
      var p := NewParticipant(loungeParticipantRepository.nextId, id, userId, Creator, now);
      FirstParticipantOfNewLounge(loungeParticipantRepository.rows, old(loungeRepository.rows),
                                  loungeParticipantRepository.nextId, p);
      var pid := loungeParticipantRepository.Insert(p);
      assert Participates(loungeParticipantRepository.rows, pid, id, userId);
      var mid := loungeMessageRepository.Insert(SystemMessage(loungeMessageRepository.nextId, id, userId, "Lounge created", SystemType));
      r := Ok(ToLoungeDto(l, userRepository.rows, loungeParticipantRepository.rows, userId));
    }

    /** getLoungeById. */
    function GetLoungeById(loungeId: int, userId: int): (r: Result<LoungeDto>)
      requires Valid()
      reads this, loungeRepository, loungeMessageRepository, loungeParticipantRepository, userRepository
      ensures r.Ok? <==> loungeId in loungeRepository.rows && loungeRepository.rows[loungeId].isActive
      ensures r.Err? ==> r == Err(LoungeNotFound)
      ensures r.Ok? ==>
                r.value == ToLoungeDto(loungeRepository.rows[loungeId], userRepository.rows,
                                       loungeParticipantRepository.rows, userId)
    {
      match ActiveLounge(loungeRepository.rows, loungeId)
      case None => Err(LoungeNotFound)
      case Some(l) => Ok(ToLoungeDto(l, userRepository.rows, loungeParticipantRepository.rows, userId))
    }

    /** The DTOs of the active lounges that satisfy `keep`, in id order: the
        finders other than getAllLounges' carry no ORDER BY, and the model
        takes the order of the ids. */
    function ActiveLoungesWhere(keep: LoungeRecord -> bool, userId: int): (ds: seq<LoungeDto>)
      requires Valid()
      reads this, loungeRepository, loungeMessageRepository, loungeParticipantRepository, userRepository
      ensures forall id :: id in loungeRepository.rows && loungeRepository.rows[id].isActive && keep(loungeRepository.rows[id]) ==>
                ToLoungeDto(loungeRepository.rows[id], userRepository.rows, loungeParticipantRepository.rows, userId) in ds
      ensures forall d :: d in ds ==>
                d.isActive && d.id in loungeRepository.rows && keep(loungeRepository.rows[d.id])
                && d == ToLoungeDto(loungeRepository.rows[d.id], userRepository.rows, loungeParticipantRepository.rows, userId)
      ensures forall i, j :: 0 <= i < j < |ds| ==> ds[i].id < ds[j].id
    {
      var rows := loungeRepository.rows;
      var ids := SelectedIds(rows, (l: LoungeRecord) => l.isActive && keep(l), loungeRepository.nextId);
      LoungeDtosOfIds(rows, ids, userRepository.rows, loungeParticipantRepository.rows, userId)
    }

    /** Conditions that agree on every stored lounge select the same DTOs. */
    lemma ActiveLoungesWhereAgree(keep: LoungeRecord -> bool, keep': LoungeRecord -> bool, userId: int)
      requires Valid()
      requires forall id :: id in loungeRepository.rows ==> keep(loungeRepository.rows[id]) == keep'(loungeRepository.rows[id])
      ensures ActiveLoungesWhere(keep, userId) == ActiveLoungesWhere(keep', userId)
    {
      SelectedIdsAgree(loungeRepository.rows, (l: LoungeRecord) => l.isActive && keep(l),
                       (l: LoungeRecord) => l.isActive && keep'(l), loungeRepository.nextId);
    }

    /** getAllLounges: every active lounge, most recently active first
        (`ORDER BY lastActivity DESC`); ties stay in id order and a lounge
        without activity comes last. */
    function GetAllLounges(userId: int): (ds: seq<LoungeDto>)
      requires Valid()
      reads this, loungeRepository, loungeMessageRepository, loungeParticipantRepository, userRepository
      ensures forall id :: id in loungeRepository.rows && loungeRepository.rows[id].isActive ==>
                ToLoungeDto(loungeRepository.rows[id], userRepository.rows, loungeParticipantRepository.rows, userId) in ds
      ensures forall d :: d in ds ==> d.isActive && d.id in loungeRepository.rows && d == ToLoungeDto(loungeRepository.rows[d.id], userRepository.rows, loungeParticipantRepository.rows, userId)
      ensures DescendingBy(ds, LastActivityOf)
    {
      var all := ActiveLoungesWhere((l: LoungeRecord) => true, userId);
      SortedMembers(all, LastActivityOf);
      SortDescending(all, LastActivityOf)
    }

    /** searchLounges: the term occurs in the title, the description or the
        topic. */
    function SearchLounges(term: string, userId: int): (ds: seq<LoungeDto>)
      requires Valid()
      reads this, loungeRepository, loungeMessageRepository, loungeParticipantRepository, userRepository
      ensures forall id :: id in loungeRepository.rows && loungeRepository.rows[id].isActive
                           && MatchesSearchTerm(loungeRepository.rows[id], term) ==>
                ToLoungeDto(loungeRepository.rows[id], userRepository.rows, loungeParticipantRepository.rows, userId) in ds
      ensures forall d :: d in ds ==> d.isActive && d.id in loungeRepository.rows
                                      && MatchesSearchTerm(loungeRepository.rows[d.id], term)
                                      && d == ToLoungeDto(loungeRepository.rows[d.id], userRepository.rows, loungeParticipantRepository.rows, userId)
    {
      ActiveLoungesWhere((l: LoungeRecord) => MatchesSearchTerm(l, term), userId)
    }

    /** For a term without `%` or `_`, the search is a plain substring
        search of the three columns. */
    lemma SearchWithoutWildcardsIsContains(term: string, l: LoungeRecord)
      requires !HasWildcard(term)
      ensures MatchesSearchTerm(l, term) <==>
                Contains(l.title, term) || (l.description.Some? && Contains(l.description.value, term)) || Contains(l.topic, term)
    {
      LikeInfixIsContains(l.title, term);
      LikeInfixIsContains(l.topic, term);
      if l.description.Some? {
        LikeInfixIsContains(l.description.value, term);
      }
    }

    /** getLoungesByTopic: the topic contains the term, ignoring case. */
    function GetLoungesByTopic(topic: string, userId: int): (ds: seq<LoungeDto>)
      requires Valid()
      reads this, loungeRepository, loungeMessageRepository, loungeParticipantRepository, userRepository
      ensures forall id :: id in loungeRepository.rows && loungeRepository.rows[id].isActive && Contains(ToLower(loungeRepository.rows[id].topic), ToLower(topic)) ==>
                ToLoungeDto(loungeRepository.rows[id], userRepository.rows, loungeParticipantRepository.rows, userId) in ds
      ensures forall d :: d in ds ==> d.isActive && d.id in loungeRepository.rows && Contains(ToLower(loungeRepository.rows[d.id].topic), ToLower(topic))
                                      && d == ToLoungeDto(loungeRepository.rows[d.id], userRepository.rows, loungeParticipantRepository.rows, userId)
    {
      ActiveLoungesWhere((l: LoungeRecord) => Contains(ToLower(l.topic), ToLower(topic)), userId)
    }

    /** getLoungesByCategory: the category contains the term, ignoring case. */
    function GetLoungesByCategory(category: string, userId: int): (ds: seq<LoungeDto>)
      requires Valid()
      reads this, loungeRepository, loungeMessageRepository, loungeParticipantRepository, userRepository
      ensures forall id :: id in loungeRepository.rows && loungeRepository.rows[id].isActive && loungeRepository.rows[id].category.Some? && Contains(ToLower(loungeRepository.rows[id].category.value), ToLower(category)) ==>
                ToLoungeDto(loungeRepository.rows[id], userRepository.rows, loungeParticipantRepository.rows, userId) in ds
      ensures forall d :: d in ds ==> d.isActive && d.id in loungeRepository.rows && loungeRepository.rows[d.id].category.Some? && Contains(ToLower(loungeRepository.rows[d.id].category.value), ToLower(category))
                                      && d == ToLoungeDto(loungeRepository.rows[d.id], userRepository.rows, loungeParticipantRepository.rows, userId)
    {
      ActiveLoungesWhere((l: LoungeRecord) => l.category.Some? && Contains(ToLower(l.category.value), ToLower(category)), userId)
    }

    /** getFeaturedLounges. */
    function GetFeaturedLounges(userId: int): (ds: seq<LoungeDto>)
      requires Valid()
      reads this, loungeRepository, loungeMessageRepository, loungeParticipantRepository, userRepository
      ensures forall id :: id in loungeRepository.rows && loungeRepository.rows[id].isActive && loungeRepository.rows[id].isFeatured ==>
                ToLoungeDto(loungeRepository.rows[id], userRepository.rows, loungeParticipantRepository.rows, userId) in ds
      ensures forall d :: d in ds ==> d.isActive && d.id in loungeRepository.rows && loungeRepository.rows[d.id].isFeatured
                                      && d == ToLoungeDto(loungeRepository.rows[d.id], userRepository.rows, loungeParticipantRepository.rows, userId)
    {
      ActiveLoungesWhere((l: LoungeRecord) => l.isFeatured, userId)
    }

    /** getUserLounges: the active lounges the user created. */
    function GetUserLounges(userId: int): (ds: seq<LoungeDto>)
      requires Valid()
      reads this, loungeRepository, loungeMessageRepository, loungeParticipantRepository, userRepository
      ensures forall id :: id in loungeRepository.rows && loungeRepository.rows[id].isActive && loungeRepository.rows[id].createdBy == userId ==>
                ToLoungeDto(loungeRepository.rows[id], userRepository.rows, loungeParticipantRepository.rows, userId) in ds
      ensures forall d :: d in ds ==> d.isActive && d.id in loungeRepository.rows && loungeRepository.rows[d.id].createdBy == userId
                                      && d == ToLoungeDto(loungeRepository.rows[d.id], userRepository.rows, loungeParticipantRepository.rows, userId)
    {
      ActiveLoungesWhere((l: LoungeRecord) => l.createdBy == userId, userId)
    }

    /** The topic search does not depend on the case of the term. */
    lemma {:induction false} TopicSearchIgnoresCase(topic: string, userId: int)
      requires Valid()
      ensures GetLoungesByTopic(ToLower(topic), userId) == GetLoungesByTopic(topic, userId)
    {
      LowerIsIdempotent(topic);
      ActiveLoungesWhereAgree((l: LoungeRecord) => Contains(ToLower(l.topic), ToLower(ToLower(topic))),
                              (l: LoungeRecord) => Contains(ToLower(l.topic), ToLower(topic)), userId);
    }

    /** joinLounge: a MEMBER row, one more participant and a JOIN message. */
    method JoinLounge(loungeId: int, userId: int, now: int) returns (r: Result<LoungeDto>)
      requires Valid()
      modifies loungeRepository, loungeParticipantRepository, loungeMessageRepository
      ensures Valid()
      ensures var check := JoinCheck(old(loungeRepository.rows), old(loungeParticipantRepository.rows), loungeId, userId);
              check.Err? ==>
                r == Err(check.message)
                && loungeRepository.rows == old(loungeRepository.rows)
                && loungeParticipantRepository.rows == old(loungeParticipantRepository.rows)
                && loungeMessageRepository.rows == old(loungeMessageRepository.rows)
      ensures var check := JoinCheck(old(loungeRepository.rows), old(loungeParticipantRepository.rows), loungeId, userId);
              check.Ok? ==>
                var pid := old(loungeParticipantRepository.nextId);
                var mid := old(loungeMessageRepository.nextId);
                var l := Joined(check.value, now);
                loungeParticipantRepository.rows ==
                  old(loungeParticipantRepository.rows)[pid := NewParticipant(pid, loungeId, userId, Member, now)]
                && loungeRepository.rows == old(loungeRepository.rows)[loungeId := l]
                && loungeMessageRepository.rows ==
                     old(loungeMessageRepository.rows)[mid := SystemMessage(mid, loungeId, userId, "joined the lounge", JoinType)]
                && r == Ok(ToLoungeDto(l, userRepository.rows, loungeParticipantRepository.rows, userId))
      ensures r.Ok? ==> r.value.isParticipant && r.value.participantRole == Some("MEMBER")
      ensures r.Ok? && old(loungeRepository.rows)[loungeId].maxParticipants.Some? ==>
                loungeRepository.rows[loungeId].currentParticipants <= old(loungeRepository.rows)[loungeId].maxParticipants.value
    {
      var check := JoinCheck(loungeRepository.rows, loungeParticipantRepository.rows, loungeId, userId);
      if check.Err? {
        return Err(check.message);
      }
      var p := NewParticipant(loungeParticipantRepository.nextId, loungeId, userId, Member, now);
      AddingParticipantKeepsOne(loungeParticipantRepository.rows, loungeParticipantRepository.nextId, p);
      var pid := loungeParticipantRepository.Insert(p);
      assert Participates(loungeParticipantRepository.rows, pid, loungeId, userId);
      var l := Joined(check.value, now);
      loungeRepository.Update(loungeId, l);
      var mid := loungeMessageRepository.Insert(SystemMessage(loungeMessageRepository.nextId, loungeId, userId, "joined the lounge", JoinType));
      r := Ok(ToLoungeDto(l, userRepository.rows, loungeParticipantRepository.rows, userId));
    }

    /** leaveLounge: the membership ends, then the counter drops and a LEAVE
        message is logged; with the lounge inactive the membership still
        ends before "Lounge not found" is raised. */
    method LeaveLounge(loungeId: int, userId: int, now: int) returns (r: Result<Unit>)
      requires Valid()
      modifies loungeRepository, loungeParticipantRepository, loungeMessageRepository
      ensures Valid()
      ensures var check := LeaveCheck(old(loungeParticipantRepository.rows), loungeId, userId);
              check.Err? ==>
                r == Err(check.message)
                && loungeRepository.rows == old(loungeRepository.rows)
                && loungeParticipantRepository.rows == old(loungeParticipantRepository.rows)
                && loungeMessageRepository.rows == old(loungeMessageRepository.rows)
      ensures var check := LeaveCheck(old(loungeParticipantRepository.rows), loungeId, userId);
              check.Ok? ==>
                loungeParticipantRepository.rows ==
                  old(loungeParticipantRepository.rows)[check.value := old(loungeParticipantRepository.rows)[check.value].(isActive := false)]
                && !IsParticipant(loungeParticipantRepository.rows, loungeId, userId)
      ensures var check := LeaveCheck(old(loungeParticipantRepository.rows), loungeId, userId);
              check.Ok? && ActiveLounge(old(loungeRepository.rows), loungeId).None? ==>
                r == Err(LoungeNotFound)
                && loungeRepository.rows == old(loungeRepository.rows)
                && loungeMessageRepository.rows == old(loungeMessageRepository.rows)
      ensures var check := LeaveCheck(old(loungeParticipantRepository.rows), loungeId, userId);
              check.Ok? && ActiveLounge(old(loungeRepository.rows), loungeId).Some? ==>
                var mid := old(loungeMessageRepository.nextId);
                r == Ok(Unit)
                && loungeRepository.rows == old(loungeRepository.rows)[loungeId := Left(old(loungeRepository.rows)[loungeId], now)]
                && loungeMessageRepository.rows ==
                     old(loungeMessageRepository.rows)[mid := SystemMessage(mid, loungeId, userId, "left the lounge", LeaveType)]
    {
      var check := LeaveCheck(loungeParticipantRepository.rows, loungeId, userId);
      if check.Err? {
        return Err(check.message);
      }
      var p := check.value;
      ghost var parts0 := loungeParticipantRepository.rows;
      loungeParticipantRepository.Update(p, loungeParticipantRepository.rows[p].(isActive := false));
      EndingParticipationKeepsInvariants(parts0, loungeRepository.rows, p);
      match ActiveLounge(loungeRepository.rows, loungeId)
      case None =>
        r := Err(LoungeNotFound);
      case Some(l) =>
        loungeRepository.Update(loungeId, Left(l, now));
        var _ := loungeMessageRepository.Insert(SystemMessage(loungeMessageRepository.nextId, loungeId, userId, "left the lounge", LeaveType));
        r := Ok(Unit);
    }

    /** getLoungeMessages: for a participant, the lounge's messages that are
        not deleted, oldest first. */
    function GetLoungeMessages(loungeId: int, userId: int): (r: Result<seq<LoungeMessageDto>>)
      requires Valid()
      reads this, loungeRepository, loungeMessageRepository, loungeParticipantRepository, userRepository
      ensures r.Err? <==> !IsParticipant(loungeParticipantRepository.rows, loungeId, userId)
      ensures r.Err? ==> r == Err(NotParticipant)
      ensures r.Ok? ==> forall i :: 0 <= i < |r.value| ==>
                r.value[i].loungeId == loungeId && !r.value[i].isDeleted && r.value[i].id in loungeMessageRepository.rows
                && r.value[i] == ToMessageDto(loungeMessageRepository.rows[r.value[i].id], userRepository.rows,
                                              loungeMessageRepository.rows)
      ensures r.Ok? ==> forall i, j :: 0 <= i < j < |r.value| ==> r.value[i].id < r.value[j].id
      ensures r.Ok? ==> forall id :: id in loungeMessageRepository.rows && loungeMessageRepository.rows[id].loungeId == loungeId
                                     && !loungeMessageRepository.rows[id].isDeleted ==>
                          exists i :: 0 <= i < |r.value| && r.value[i].id == id
    {
      if !IsParticipant(loungeParticipantRepository.rows, loungeId, userId) then Err(NotParticipant)
      else
        Ok(LiveMessages(loungeMessageRepository.rows, userRepository.rows, loungeId, loungeMessageRepository.nextId))
    }

    /** sendMessage: the message is saved before the lounge lookup, so with
        the lounge inactive it stays saved and "Lounge not found" is raised. */
    method SendMessage(userId: int, form: SendMessageForm, now: int) returns (r: Result<LoungeMessageDto>)
      requires Valid()
      modifies loungeRepository, loungeParticipantRepository, loungeMessageRepository
      ensures Valid()
      ensures var check := SendCheck(old(loungeParticipantRepository.rows), form.loungeId, userId, now);
              check.Err? ==>
                r == Err(check.message)
                && loungeRepository.rows == old(loungeRepository.rows)
                && loungeParticipantRepository.rows == old(loungeParticipantRepository.rows)
                && loungeMessageRepository.rows == old(loungeMessageRepository.rows)
      ensures var check := SendCheck(old(loungeParticipantRepository.rows), form.loungeId, userId, now);
              check.Ok? ==>
                var mid := old(loungeMessageRepository.nextId);
                loungeMessageRepository.rows ==
                  old(loungeMessageRepository.rows)[mid := LoungeMessageRecord(mid, form.loungeId, userId, form.content,
                                                                                form.messageType, form.replyToMessageId, false, false)]
      ensures var check := SendCheck(old(loungeParticipantRepository.rows), form.loungeId, userId, now);
              check.Ok? && ActiveLounge(old(loungeRepository.rows), form.loungeId).None? ==>
                r == Err(LoungeNotFound)
                && loungeRepository.rows == old(loungeRepository.rows)
                && loungeParticipantRepository.rows == old(loungeParticipantRepository.rows)
      ensures var check := SendCheck(old(loungeParticipantRepository.rows), form.loungeId, userId, now);
              check.Ok? && ActiveLounge(old(loungeRepository.rows), form.loungeId).Some? ==>
                var mid := old(loungeMessageRepository.nextId);
                var p := check.value;
                loungeRepository.rows ==
                  old(loungeRepository.rows)[form.loungeId := old(loungeRepository.rows)[form.loungeId].(lastActivity := Some(now))]
                && loungeParticipantRepository.rows ==
                     old(loungeParticipantRepository.rows)[p := old(loungeParticipantRepository.rows)[p].(lastActivity := Some(now))]
                && r == Ok(ToMessageDto(loungeMessageRepository.rows[mid], userRepository.rows, loungeMessageRepository.rows))
    {
      var check := SendCheck(loungeParticipantRepository.rows, form.loungeId, userId, now);
      if check.Err? {
        return Err(check.message);
      }
      var p := check.value;
      var m := LoungeMessageRecord(loungeMessageRepository.nextId, form.loungeId, userId, form.content,
                                   form.messageType, form.replyToMessageId, false, false);
      var mid := loungeMessageRepository.Insert(m);
      match ActiveLounge(loungeRepository.rows, form.loungeId)
      case None =>
        r := Err(LoungeNotFound);
      case Some(l) =>
        loungeRepository.Update(form.loungeId, l.(lastActivity := Some(now)));
        ghost var parts0 := loungeParticipantRepository.rows;
        loungeParticipantRepository.Update(p, loungeParticipantRepository.rows[p].(lastActivity := Some(now)));
        TouchingParticipationKeepsInvariants(parts0, loungeRepository.rows, p, Some(now));
        r := Ok(ToMessageDto(m, userRepository.rows, loungeMessageRepository.rows));
    }

    /** deleteLounge: the creator's lounge becomes inactive and every active
        membership of it ends. */
    method DeleteLounge(loungeId: int, userId: int) returns (r: Result<Unit>)
      requires Valid()
      modifies loungeRepository, loungeParticipantRepository
      ensures Valid()
      ensures var check := DeleteLoungeCheck(old(loungeRepository.rows), loungeId, userId);
              check.Err? ==>
                r == Err(check.message)
                && loungeRepository.rows == old(loungeRepository.rows)
                && loungeParticipantRepository.rows == old(loungeParticipantRepository.rows)
      ensures var check := DeleteLoungeCheck(old(loungeRepository.rows), loungeId, userId);
              check.Ok? ==>
                r == Ok(Unit)
                && loungeRepository.rows == old(loungeRepository.rows)[loungeId := check.value.(isActive := false)]
                && loungeParticipantRepository.rows == WithLoungeClosed(old(loungeParticipantRepository.rows), loungeId)
      ensures r.Ok? ==> forall u :: !IsParticipant(loungeParticipantRepository.rows, loungeId, u)
    {
      var check := DeleteLoungeCheck(loungeRepository.rows, loungeId, userId);
      if check.Err? {
        return Err(check.message);
      }
      loungeRepository.Update(loungeId, check.value.(isActive := false));
      CloseParticipations(loungeId);
      r := Ok(Unit);
    }

    /** The loop of deleteLounge over the lounge's active memberships. */
    method CloseParticipations(loungeId: int)
      requires Valid()
      modifies loungeParticipantRepository
      ensures Valid()
      ensures loungeParticipantRepository.rows == WithLoungeClosed(old(loungeParticipantRepository.rows), loungeId)
      ensures forall u :: !IsParticipant(loungeParticipantRepository.rows, loungeId, u)
    {
      ghost var parts0 := loungeParticipantRepository.rows;
      var pending := ActiveParticipantIds(loungeParticipantRepository.rows, loungeId);
      ghost var all := pending;
      while exists p :: p in pending
        invariant loungeParticipantRepository.Valid()
        invariant pending <= all && all == ActiveParticipantIds(parts0, loungeId)
        invariant loungeParticipantRepository.rows.Keys == parts0.Keys
        invariant forall p :: p in parts0 ==>
                    loungeParticipantRepository.rows[p] ==
                      (if p in all && p !in pending then parts0[p].(isActive := false) else parts0[p])
        decreases |pending|
      {
        var p :| p in pending;
        loungeParticipantRepository.Update(p, loungeParticipantRepository.rows[p].(isActive := false));
        pending := pending - {p};
      }
      ghost var closed := WithLoungeClosed(parts0, loungeId);
      assert loungeParticipantRepository.rows.Keys == closed.Keys;
      forall p | p in closed
        ensures loungeParticipantRepository.rows[p] == closed[p]
      {
      }
      ClosingKeepsInvariants(parts0, loungeRepository.rows, loungeId);
    }
  }

  /** Ending one membership keeps the membership invariants. */
  lemma {:induction false} EndingParticipationKeepsInvariants(parts: map<int, ParticipantRecord>, lounges: map<int, LoungeRecord>, p: int)
    requires p in parts && parts[p].isActive
    requires ParticipantsKeyedById(parts) && OneActiveParticipation(parts) && ParticipantsOfKnownLounges(parts, lounges)
    ensures var m := parts[p := parts[p].(isActive := false)];
            ParticipantsKeyedById(m) && OneActiveParticipation(m) && ParticipantsOfKnownLounges(m, lounges)
            && !IsParticipant(m, parts[p].loungeId, parts[p].userId)
  {
    var m := parts[p := parts[p].(isActive := false)];
    forall a, b | a in m && b in m && m[a].isActive && m[b].isActive
                  && m[a].loungeId == m[b].loungeId && m[a].userId == m[b].userId
      ensures a == b
    {
      assert a != p && b != p;
    }
    forall q | q in m
      ensures !Participates(m, q, parts[p].loungeId, parts[p].userId)
    {
      assert q != p ==> m[q] == parts[q];
    }
  }

  /** Changing a membership's last activity keeps the membership invariants. */
  lemma {:induction false} TouchingParticipationKeepsInvariants(parts: map<int, ParticipantRecord>, lounges: map<int, LoungeRecord>,
                                                                  p: int, t: Option<int>)
    requires p in parts
    requires ParticipantsKeyedById(parts) && OneActiveParticipation(parts) && ParticipantsOfKnownLounges(parts, lounges)
    ensures var m := parts[p := parts[p].(lastActivity := t)];
            ParticipantsKeyedById(m) && OneActiveParticipation(m) && ParticipantsOfKnownLounges(m, lounges)
  {
    var m := parts[p := parts[p].(lastActivity := t)];
    forall a, b | a in m && b in m && m[a].isActive && m[b].isActive
                  && m[a].loungeId == m[b].loungeId && m[a].userId == m[b].userId
      ensures a == b
    {
      assert parts[a].isActive && parts[b].isActive && parts[a].loungeId == parts[b].loungeId;
    }
  }
}
