// MentorshipService: programs, mentor–mentee relationships and sessions.
// Each operation looks a row up by id, changes some of its fields and saves
// it; a missing row makes it return null, modelled as None.

module Mentorships {
  import opened Common
  import opened Tables
  import opened MentorshipEntities
  import opened MentorshipProgramDtos

  /** The request body of createSession and updateSession. */
  datatype SessionForm = SessionForm(
    sessionDate: int,
    sessionType: string,
    title: string,
    description: Option<string>,
    durationMinutes: Option<int>,
    agenda: Option<string>,
    notes: Option<string>,
    actionItems: Option<string>)

  /** Unboxing a null Integer throws. */
  const NullUnboxing := "NullPointerException"

  const MentorAtCapacity := "Mentor has reached maximum number of mentees"

  predicate ProgramsKeyedById(programs: map<int, ProgramRecord>)
  {
    forall id :: id in programs ==> programs[id].id == id
  }

  predicate RelationshipsKeyedById(rels: map<int, RelationshipRecord>)
  {
    forall id :: id in rels ==> rels[id].id == id
  }

  predicate SessionsKeyedById(sessions: map<int, SessionRecord>)
  {
    forall id :: id in sessions ==> sessions[id].id == id
  }

  /** Every relationship belongs to a stored program (the foreign key). */
  predicate RelationshipsOfKnownPrograms(rels: map<int, RelationshipRecord>, programs: map<int, ProgramRecord>)
  {
    forall r :: r in rels ==> rels[r].programId in programs
  }

  /** Every session belongs to a stored relationship (the foreign key). */
  predicate SessionsOfKnownRelationships(sessions: map<int, SessionRecord>, rels: map<int, RelationshipRecord>)
  {
    forall s :: s in sessions ==> sessions[s].relationshipId in rels
  }

  /** `findByMentorId`, as ids: every program, every status. */
  function MentorRelationshipIds(rels: map<int, RelationshipRecord>, mentorId: int): set<int>
  {
    set r | r in rels && rels[r].mentorId == mentorId
  }

  /** `findByProgram_Id`, as ids. */
  function ProgramRelationshipIds(rels: map<int, RelationshipRecord>, programId: int): set<int>
  {
    set r | r in rels && rels[r].programId == programId
  }

  /** The sessions of a set of relationships, as ids. */
  function SessionIdsOf(sessions: map<int, SessionRecord>, relIds: set<int>): set<int>
  {
    set s | s in sessions && sessions[s].relationshipId in relIds
  }

  /** convertToDTO: the entity's fields, the number of the program's
      relationships, and ten times the per-mentor cap when there is one. */
  function ToDto(p: ProgramRecord, rels: map<int, RelationshipRecord>): (d: MentorshipProgramDto)
    ensures d == FromProgram(p).(currentParticipants := d.currentParticipants, maxParticipants := d.maxParticipants)
    ensures d.currentParticipants == Some(|ProgramRelationshipIds(rels, p.id)|)
    ensures d.maxParticipants.Some? <==> p.maxMenteesPerMentor.Some?
    ensures d.maxParticipants.Some? ==> d.maxParticipants.value == 10 * p.maxMenteesPerMentor.value
  {
    FromProgram(p).(currentParticipants := Some(|ProgramRelationshipIds(rels, p.id)|),
                    maxParticipants := if p.maxMenteesPerMentor.Some? then Some(p.maxMenteesPerMentor.value * 10) else None)
  }

  /** A program's DTO is full exactly when it has a per-mentor cap and at
      least ten times that many relationships. */
  lemma {:induction false} ProgramFullness(p: ProgramRecord, rels: map<int, RelationshipRecord>)
    ensures IsFull(ToDto(p, rels)) <==>
              p.maxMenteesPerMentor.Some? && |ProgramRelationshipIds(rels, p.id)| >= 10 * p.maxMenteesPerMentor.value
  {
  }

  /** The program createProgram saves: active, with the form's fields. */
  function NewProgram(id: int, form: MentorshipProgramDto, t: ProgramType): (p: ProgramRecord)
    ensures p.id == id && p.companyId == form.companyId && p.programName == form.programName
    ensures p.description == form.description && p.programType == t && p.durationWeeks == form.durationWeeks
    ensures p.maxMenteesPerMentor == form.maxMenteesPerMentor
    ensures p.minMentorExperienceYears == form.minMentorExperienceYears
    ensures p.isActive && p.startDate == form.startDate && p.endDate == form.endDate
  {
    ProgramRecord(id, form.companyId, form.programName, form.description, t, form.durationWeeks,
                  form.maxMenteesPerMentor, form.minMentorExperienceYears, true, form.startDate, form.endDate)
  }

  /** updateProgram's setters: every editable field from the form. */
  function ProgramUpdated(p: ProgramRecord, form: MentorshipProgramDto, t: ProgramType): (n: ProgramRecord)
    ensures n == NewProgram(p.id, form, t).(companyId := p.companyId, isActive := form.isActive)
  {
    p.(programName := form.programName, description := form.description, programType := t,
       durationWeeks := form.durationWeeks, maxMenteesPerMentor := form.maxMenteesPerMentor,
       minMentorExperienceYears := form.minMentorExperienceYears, isActive := form.isActive,
       startDate := form.startDate, endDate := form.endDate)
  }

  /** The checks of createRelationship: None for an unknown program, an
      error once the mentor has as many relationships as the cap (counting
      every program and every status), else the program. */
  function RelationshipCheck(programs: map<int, ProgramRecord>, rels: map<int, RelationshipRecord>,
                             programId: int, mentorId: int): (r: Result<Option<ProgramRecord>>)
    ensures r == Ok(None) <==> programId !in programs
    ensures r.Ok? && r.value.Some? <==>
              programId in programs && programs[programId].maxMenteesPerMentor.Some?
              && |MentorRelationshipIds(rels, mentorId)| < programs[programId].maxMenteesPerMentor.value
    ensures r.Ok? && r.value.Some? ==> r.value.value == programs[programId]
    ensures programId in programs && programs[programId].maxMenteesPerMentor.None? ==> r == Err(NullUnboxing)
    ensures programId in programs && programs[programId].maxMenteesPerMentor.Some?
            && |MentorRelationshipIds(rels, mentorId)| >= programs[programId].maxMenteesPerMentor.value ==>
              r == Err(MentorAtCapacity)
  {
    if programId !in programs then Ok(None)
    else
      var p := programs[programId];
      if p.maxMenteesPerMentor.None? then Err(NullUnboxing)
      else if |MentorRelationshipIds(rels, mentorId)| >= p.maxMenteesPerMentor.value then Err(MentorAtCapacity)
      else Ok(Some(p))
  }

  /** The relationship createRelationship saves: PENDING, started now. */
  function NewRelationship(id: int, programId: int, mentorId: int, menteeId: int, goals: Option<string>, now: int): (r: RelationshipRecord)
    ensures r.id == id && r.programId == programId && r.mentorId == mentorId && r.menteeId == menteeId
    ensures r.goals == goals && r.status == PendingRelationship && r.startDate == Some(now) && r.endDate.None?
    ensures r.notes.None? && r.mentorRating.None? && r.menteeRating.None?
    ensures r.mentorFeedback.None? && r.menteeFeedback.None?
  {
    RelationshipRecord(id, programId, mentorId, menteeId, PendingRelationship, Some(now), None, goals,
                       None, None, None, None, None)
  }

  /** A new relationship of the mentor adds one to the mentor's count. */
  lemma {:induction false} NewRelationshipCounts(rels: map<int, RelationshipRecord>, id: int, r: RelationshipRecord)
    requires id !in rels
    ensures MentorRelationshipIds(rels[id := r], r.mentorId) == MentorRelationshipIds(rels, r.mentorId) + {id}
    ensures |MentorRelationshipIds(rels[id := r], r.mentorId)| == |MentorRelationshipIds(rels, r.mentorId)| + 1
  {
    assert MentorRelationshipIds(rels[id := r], r.mentorId) == MentorRelationshipIds(rels, r.mentorId) + {id};
  }

  /** updateRelationshipStatus: ACTIVE stamps the start, COMPLETED the end,
      and any other status changes the status alone. */
  function StatusUpdated(r: RelationshipRecord, status: RelationshipStatus, now: int): (n: RelationshipRecord)
    ensures n.status == status
    ensures status == ActiveRelationship ==> n == r.(status := status, startDate := Some(now))
    ensures status == CompletedRelationship ==> n == r.(status := status, endDate := Some(now))
    ensures status != ActiveRelationship && status != CompletedRelationship ==> n == r.(status := status)
  {
    if status == ActiveRelationship then r.(status := status, startDate := Some(now))
    else if status == CompletedRelationship then r.(status := status, endDate := Some(now))
    else r.(status := status)
  }

  /** addFeedback: the mentor's fields when the user is the mentor, else
      the mentee's when the user is the mentee, else nothing. */
  function WithFeedback(r: RelationshipRecord, userId: int, feedback: Option<string>, rating: Option<int>): (n: RelationshipRecord)
    ensures userId == r.mentorId ==> n == r.(mentorFeedback := feedback, mentorRating := rating)
    ensures userId != r.mentorId && userId == r.menteeId ==> n == r.(menteeFeedback := feedback, menteeRating := rating)
    ensures userId != r.mentorId && userId != r.menteeId ==> n == r
  {
    if r.mentorId == userId then r.(mentorFeedback := feedback, mentorRating := rating)
    else if r.menteeId == userId then r.(menteeFeedback := feedback, menteeRating := rating)
    else r
  }

  /** Feedback never touches the other party's fields. */
  lemma {:induction false} FeedbackIsRouted(r: RelationshipRecord, userId: int, feedback: Option<string>, rating: Option<int>)
    ensures WithFeedback(r, userId, feedback, rating).menteeFeedback != r.menteeFeedback ==> userId == r.menteeId && userId != r.mentorId
    ensures WithFeedback(r, userId, feedback, rating).mentorFeedback != r.mentorFeedback ==> userId == r.mentorId
    ensures WithFeedback(r, userId, feedback, rating).status == r.status
  {
  }

  /** The session createSession saves: SCHEDULED, with no notes yet. */
  function NewSession(id: int, relationshipId: int, form: SessionForm, t: SessionType): (s: SessionRecord)
    ensures s.id == id && s.relationshipId == relationshipId && s.sessionDate == form.sessionDate
    ensures s.sessionType == t && s.title == form.title && s.description == form.description
    ensures s.durationMinutes == form.durationMinutes && s.agenda == form.agenda && s.status == Scheduled
    ensures s.notes.None? && s.actionItems.None? && s.mentorNotes.None? && s.menteeNotes.None?
  {
    SessionRecord(id, relationshipId, form.sessionDate, form.durationMinutes, t, form.title, form.description,
                  form.agenda, None, None, None, None, Scheduled)
  }

  /** updateSession's setters. */
  function SessionUpdated(s: SessionRecord, form: SessionForm, t: SessionType): (n: SessionRecord)
    ensures n == NewSession(s.id, s.relationshipId, form, t).(notes := form.notes, actionItems := form.actionItems,
                                                               mentorNotes := s.mentorNotes, menteeNotes := s.menteeNotes,
                                                               status := s.status)
  {
    s.(sessionDate := form.sessionDate, sessionType := t, title := form.title, description := form.description,
       durationMinutes := form.durationMinutes, agenda := form.agenda, notes := form.notes,
       actionItems := form.actionItems)
  }

  /** addSessionNotes: "mentor" notes, "mentee" notes, and any other note
      type (null included) into the general notes. */
  function WithNotes(s: SessionRecord, notes: Option<string>, noteType: Option<string>): (n: SessionRecord)
    ensures noteType == Some("mentor") ==> n == s.(mentorNotes := notes)
    ensures noteType == Some("mentee") ==> n == s.(menteeNotes := notes)
    ensures noteType != Some("mentor") && noteType != Some("mentee") ==> n == s.(notes := notes)
  {
    if noteType == Some("mentor") then s.(mentorNotes := notes)
    else if noteType == Some("mentee") then s.(menteeNotes := notes)
    else s.(notes := notes)
  }

  /** Each call writes exactly one of the three note fields. */
  lemma {:induction false} NotesAreRouted(s: SessionRecord, notes: Option<string>, noteType: Option<string>)
    requires s.notes != notes && s.mentorNotes != notes && s.menteeNotes != notes
    ensures var n := WithNotes(s, notes, noteType);
            (if n.notes != s.notes then 1 else 0) + (if n.mentorNotes != s.mentorNotes then 1 else 0)
            + (if n.menteeNotes != s.menteeNotes then 1 else 0) == 1
  {
  }

  /** The sort key of `ORDER BY sessionDate DESC`. */
  function SessionDateOf(s: SessionRecord): Option<int>
  {
    Some(s.sessionDate)
  }

  class MentorshipService {
    const programRepository: Table<ProgramRecord>
    const relationshipRepository: Table<RelationshipRecord>
    const sessionRepository: Table<SessionRecord>

    ghost predicate Valid()
      reads this, programRepository, relationshipRepository, sessionRepository
    {
      programRepository.Valid() && relationshipRepository.Valid() && sessionRepository.Valid()
      && ProgramsKeyedById(programRepository.rows) && RelationshipsKeyedById(relationshipRepository.rows)
      && SessionsKeyedById(sessionRepository.rows)
      && RelationshipsOfKnownPrograms(relationshipRepository.rows, programRepository.rows)
      && SessionsOfKnownRelationships(sessionRepository.rows, relationshipRepository.rows)
    }

    constructor (programRepository: Table<ProgramRecord>, relationshipRepository: Table<RelationshipRecord>,
                 sessionRepository: Table<SessionRecord>)
      requires programRepository.Valid() && relationshipRepository.Valid() && sessionRepository.Valid()
      requires ProgramsKeyedById(programRepository.rows) && RelationshipsKeyedById(relationshipRepository.rows)
      requires SessionsKeyedById(sessionRepository.rows)
      requires RelationshipsOfKnownPrograms(relationshipRepository.rows, programRepository.rows)
      requires SessionsOfKnownRelationships(sessionRepository.rows, relationshipRepository.rows)
      ensures Valid()
      ensures this.programRepository == programRepository && this.relationshipRepository == relationshipRepository
      ensures this.sessionRepository == sessionRepository
    {
      this.programRepository := programRepository;
      this.relationshipRepository := relationshipRepository;
      this.sessionRepository := sessionRepository;
    }

    /** getActivePrograms of a company. */
    function GetActivePrograms(companyId: Option<int>): (ds: set<MentorshipProgramDto>)
      reads this, programRepository, relationshipRepository
      ensures forall id :: id in programRepository.rows && programRepository.rows[id].isActive
                           && programRepository.rows[id].companyId == companyId ==>
                ToDto(programRepository.rows[id], relationshipRepository.rows) in ds
      ensures forall d :: d in ds ==> d.isActive && d.companyId == companyId
      ensures forall d :: d in ds ==>
                exists id :: id in programRepository.rows && programRepository.rows[id].isActive
                             && programRepository.rows[id].companyId == companyId
                             && d == ToDto(programRepository.rows[id], relationshipRepository.rows)
    {
      set id | id in programRepository.rows && programRepository.rows[id].isActive && programRepository.rows[id].companyId == companyId
             :: ToDto(programRepository.rows[id], relationshipRepository.rows)
    }

    /** getProgramById. */
    function GetProgramById(programId: int): (d: Option<MentorshipProgramDto>)
      reads this, programRepository, relationshipRepository
      ensures d.Some? <==> programId in programRepository.rows
      ensures d.Some? ==> d.value == ToDto(programRepository.rows[programId], relationshipRepository.rows)
    {
      if programId in programRepository.rows then Some(ToDto(programRepository.rows[programId], relationshipRepository.rows))
      else None
    }

    /** createProgram: an unknown program type name throws before anything
        is saved; a new program has no relationships yet. */
    method CreateProgram(form: MentorshipProgramDto) returns (r: Result<MentorshipProgramDto>)
      requires Valid()
      modifies programRepository
      ensures Valid()
      ensures ParseProgramType(form.programType).Err? ==>
                r == Err(ParseProgramType(form.programType).message) && programRepository.rows == old(programRepository.rows)
      ensures ParseProgramType(form.programType).Ok? ==>
                var p := NewProgram(old(programRepository.nextId), form, ParseProgramType(form.programType).value);
                programRepository.rows == old(programRepository.rows)[p.id := p]
                && r == Ok(ToDto(p, relationshipRepository.rows))
      ensures r.Ok? ==> r.value.currentParticipants == Some(0) && r.value.isActive
    {
      var t := ParseProgramType(form.programType);
      if t.Err? {
        return Err(t.message);
      }
      var p := NewProgram(programRepository.nextId, form, t.value);
      assert forall x :: x in relationshipRepository.rows ==> relationshipRepository.rows[x].programId != p.id;
      var id := programRepository.Insert(p);
      assert ProgramRelationshipIds(relationshipRepository.rows, id) == {};
      r := Ok(ToDto(p, relationshipRepository.rows));
    }

    /** updateProgram: None for an unknown program. */
    method UpdateProgram(programId: int, form: MentorshipProgramDto) returns (r: Result<Option<MentorshipProgramDto>>)
      requires Valid()
      modifies programRepository
      ensures Valid()
      ensures programId !in old(programRepository.rows) ==> r == Ok(None) && programRepository.rows == old(programRepository.rows)
      ensures programId in old(programRepository.rows) && ParseProgramType(form.programType).Err? ==>
                r == Err(ParseProgramType(form.programType).message) && programRepository.rows == old(programRepository.rows)
      ensures programId in old(programRepository.rows) && ParseProgramType(form.programType).Ok? ==>
                var n := ProgramUpdated(old(programRepository.rows)[programId], form, ParseProgramType(form.programType).value);
                programRepository.rows == old(programRepository.rows)[programId := n]
                && r == Ok(Some(ToDto(n, relationshipRepository.rows)))
    {
      if programId !in programRepository.rows {
        return Ok(None);
      }
      var t := ParseProgramType(form.programType);
      if t.Err? {
        return Err(t.message);
      }
      var n := ProgramUpdated(programRepository.rows[programId], form, t.value);
      programRepository.Update(programId, n);
      r := Ok(Some(ToDto(n, relationshipRepository.rows)));
    }

    /** deleteProgram: true exactly when the program existed; the cascade
        removes its relationships and their sessions with it. */
    method DeleteProgram(programId: int) returns (deleted: bool)
      requires Valid()
      modifies programRepository, relationshipRepository, sessionRepository
      ensures Valid()
      ensures deleted <==> programId in old(programRepository.rows)
      ensures !deleted ==>
                programRepository.rows == old(programRepository.rows)
                && relationshipRepository.rows == old(relationshipRepository.rows)
                && sessionRepository.rows == old(sessionRepository.rows)
      ensures deleted ==>
                var relIds := ProgramRelationshipIds(old(relationshipRepository.rows), programId);
                programRepository.rows == old(programRepository.rows) - {programId}
                && relationshipRepository.rows == old(relationshipRepository.rows) - relIds
                && sessionRepository.rows == old(sessionRepository.rows) - SessionIdsOf(old(sessionRepository.rows), relIds)
    {
      if programId !in programRepository.rows {
        return false;
      }
      var relIds := ProgramRelationshipIds(relationshipRepository.rows, programId);
      ghost var rels0 := relationshipRepository.rows;
      sessionRepository.DeleteAll(SessionIdsOf(sessionRepository.rows, relIds));
      relationshipRepository.DeleteAll(relIds);
      programRepository.Delete(programId);
      assert SessionsOfKnownRelationships(sessionRepository.rows, relationshipRepository.rows) by {
        forall s | s in sessionRepository.rows
          ensures sessionRepository.rows[s].relationshipId in relationshipRepository.rows
        {
          assert sessionRepository.rows[s].relationshipId in rels0;
        }
      }
      assert RelationshipsOfKnownPrograms(relationshipRepository.rows, programRepository.rows) by {
        forall x | x in relationshipRepository.rows
          ensures relationshipRepository.rows[x].programId in programRepository.rows
        {
          assert relationshipRepository.rows[x] == rels0[x];
        }
      }
      deleted := true;
    }

    /** getUserRelationships: those where the user is mentor or mentee. */
    function GetUserRelationships(userId: int): (rs: set<RelationshipRecord>)
      reads this, relationshipRepository
      ensures forall r :: r in rs <==> r in relationshipRepository.rows.Values && (r.mentorId == userId || r.menteeId == userId)
    {
      set r | r in relationshipRepository.rows.Values && (r.mentorId == userId || r.menteeId == userId)
    }

    /** getMentorRelationships. */
    function GetMentorRelationships(mentorId: int): (rs: set<RelationshipRecord>)
      reads this, relationshipRepository
      ensures forall r :: r in rs <==> r in relationshipRepository.rows.Values && r.mentorId == mentorId
    {
      set r | r in relationshipRepository.rows.Values && r.mentorId == mentorId
    }

    /** getMenteeRelationships. */
    function GetMenteeRelationships(menteeId: int): (rs: set<RelationshipRecord>)
      reads this, relationshipRepository
      ensures forall r :: r in rs <==> r in relationshipRepository.rows.Values && r.menteeId == menteeId
    {
      set r | r in relationshipRepository.rows.Values && r.menteeId == menteeId
    }

    /** createRelationship: a PENDING relationship, provided the mentor is
        below the program's cap; the mentor then stays within the cap. */
    method CreateRelationship(programId: int, mentorId: int, menteeId: int, goals: Option<string>, now: int)
      returns (r: Result<Option<RelationshipRecord>>)
      requires Valid()
      modifies relationshipRepository
      ensures Valid()
      ensures var check := RelationshipCheck(programRepository.rows, old(relationshipRepository.rows), programId, mentorId);
              !(check.Ok? && check.value.Some?) ==>
                r == (if check.Err? then Err(check.message) else Ok(None))
                && relationshipRepository.rows == old(relationshipRepository.rows)
      ensures var check := RelationshipCheck(programRepository.rows, old(relationshipRepository.rows), programId, mentorId);
              check.Ok? && check.value.Some? ==>
                var n := NewRelationship(old(relationshipRepository.nextId), programId, mentorId, menteeId, goals, now);
                relationshipRepository.rows == old(relationshipRepository.rows)[n.id := n] && r == Ok(Some(n))
      ensures r.Ok? && r.value.Some? ==>
                |MentorRelationshipIds(relationshipRepository.rows, mentorId)|
                  <= programRepository.rows[programId].maxMenteesPerMentor.value
    {
      var check := RelationshipCheck(programRepository.rows, relationshipRepository.rows, programId, mentorId);
      if check.Err? {
        return Err(check.message);
      } else if check.value.None? {
        return Ok(None);
      }
      var n := NewRelationship(relationshipRepository.nextId, programId, mentorId, menteeId, goals, now);
      NewRelationshipCounts(relationshipRepository.rows, n.id, n);
      var _ := relationshipRepository.Insert(n);
      r := Ok(Some(n));
    }

    /** updateRelationshipStatus: None for an unknown relationship. */
    method UpdateRelationshipStatus(relationshipId: int, status: RelationshipStatus, now: int)
      returns (r: Option<RelationshipRecord>)
      requires Valid()
      modifies relationshipRepository
      ensures Valid()
      ensures relationshipId !in old(relationshipRepository.rows) ==>
                r.None? && relationshipRepository.rows == old(relationshipRepository.rows)
      ensures relationshipId in old(relationshipRepository.rows) ==>
                var n := StatusUpdated(old(relationshipRepository.rows)[relationshipId], status, now);
                relationshipRepository.rows == old(relationshipRepository.rows)[relationshipId := n] && r == Some(n)
    {
      if relationshipId !in relationshipRepository.rows {
        return None;
      }
      var n := StatusUpdated(relationshipRepository.rows[relationshipId], status, now);
      relationshipRepository.Update(relationshipId, n);
      r := Some(n);
    }

    /** addFeedback: None for an unknown relationship; the row is saved even
        when the user is neither party. */
    method AddFeedback(relationshipId: int, userId: int, feedback: Option<string>, rating: Option<int>)
      returns (r: Option<RelationshipRecord>)
      requires Valid()
      modifies relationshipRepository
      ensures Valid()
      ensures relationshipId !in old(relationshipRepository.rows) ==>
                r.None? && relationshipRepository.rows == old(relationshipRepository.rows)
      ensures relationshipId in old(relationshipRepository.rows) ==>
                var n := WithFeedback(old(relationshipRepository.rows)[relationshipId], userId, feedback, rating);
                relationshipRepository.rows == old(relationshipRepository.rows)[relationshipId := n] && r == Some(n)
    {
      if relationshipId !in relationshipRepository.rows {
        return None;
      }
      var n := WithFeedback(relationshipRepository.rows[relationshipId], userId, feedback, rating);
      relationshipRepository.Update(relationshipId, n);
      r := Some(n);
    }

    /** getRelationshipSessions: the relationship's sessions, latest first. */
    function GetRelationshipSessions(relationshipId: int): (ss: seq<SessionRecord>)
      requires Valid()
      reads this, programRepository, relationshipRepository, sessionRepository
      ensures forall s :: s in ss <==> s in sessionRepository.rows.Values && s.relationshipId == relationshipId
      ensures DescendingBy(ss, SessionDateOf)
    {
      var rows := sessionRepository.rows;
      var found := SelectedRows(rows, (s: SessionRecord) => s.relationshipId == relationshipId, sessionRepository.nextId);
      SortedMembers(found, SessionDateOf);
      assert forall s :: s in rows.Values && s.relationshipId == relationshipId ==> s in found by {
        forall s | s in rows.Values && s.relationshipId == relationshipId ensures s in found {
          var id :| id in rows && rows[id] == s;
        }
      }
      SortDescending(found, SessionDateOf)
    }

    /** createSession: None for an unknown relationship, an error for an
        unknown session type. */
    method CreateSession(relationshipId: int, form: SessionForm) returns (r: Result<Option<SessionRecord>>)
      requires Valid()
      modifies sessionRepository
      ensures Valid()
      ensures relationshipId !in relationshipRepository.rows ==>
                r == Ok(None) && sessionRepository.rows == old(sessionRepository.rows)
      ensures relationshipId in relationshipRepository.rows && ParseSessionType(form.sessionType).Err? ==>
                r == Err(ParseSessionType(form.sessionType).message) && sessionRepository.rows == old(sessionRepository.rows)
      ensures relationshipId in relationshipRepository.rows && ParseSessionType(form.sessionType).Ok? ==>
                var s := NewSession(old(sessionRepository.nextId), relationshipId, form, ParseSessionType(form.sessionType).value);
                sessionRepository.rows == old(sessionRepository.rows)[s.id := s] && r == Ok(Some(s))
    {
      if relationshipId !in relationshipRepository.rows {
        return Ok(None);
      }
      var t := ParseSessionType(form.sessionType);
      if t.Err? {
        return Err(t.message);
      }
      var s := NewSession(sessionRepository.nextId, relationshipId, form, t.value);
      var _ := sessionRepository.Insert(s);
      r := Ok(Some(s));
    }

    /** updateSession: None for an unknown session. */
    method UpdateSession(sessionId: int, form: SessionForm) returns (r: Result<Option<SessionRecord>>)
      requires Valid()
      modifies sessionRepository
      ensures Valid()
      ensures sessionId !in old(sessionRepository.rows) ==>
                r == Ok(None) && sessionRepository.rows == old(sessionRepository.rows)
      ensures sessionId in old(sessionRepository.rows) && ParseSessionType(form.sessionType).Err? ==>
                r == Err(ParseSessionType(form.sessionType).message) && sessionRepository.rows == old(sessionRepository.rows)
      ensures sessionId in old(sessionRepository.rows) && ParseSessionType(form.sessionType).Ok? ==>
                var n := SessionUpdated(old(sessionRepository.rows)[sessionId], form, ParseSessionType(form.sessionType).value);
                sessionRepository.rows == old(sessionRepository.rows)[sessionId := n] && r == Ok(Some(n))
    {
      if sessionId !in sessionRepository.rows {
        return Ok(None);
      }
      var t := ParseSessionType(form.sessionType);
      if t.Err? {
        return Err(t.message);
      }
      var n := SessionUpdated(sessionRepository.rows[sessionId], form, t.value);
      sessionRepository.Update(sessionId, n);
      r := Ok(Some(n));
    }

    /** updateSessionStatus. */
    method UpdateSessionStatus(sessionId: int, status: SessionStatus) returns (r: Option<SessionRecord>)
      requires Valid()
      modifies sessionRepository
      ensures Valid()
      ensures sessionId !in old(sessionRepository.rows) ==> r.None? && sessionRepository.rows == old(sessionRepository.rows)
      ensures sessionId in old(sessionRepository.rows) ==>
                var n := old(sessionRepository.rows)[sessionId].(status := status);
                sessionRepository.rows == old(sessionRepository.rows)[sessionId := n] && r == Some(n)
    {
      if sessionId !in sessionRepository.rows {
        return None;
      }
      var n := sessionRepository.rows[sessionId].(status := status);
      sessionRepository.Update(sessionId, n);
      r := Some(n);
    }

    /** addSessionNotes; `userId` is not consulted. */
    method AddSessionNotes(sessionId: int, userId: int, notes: Option<string>, noteType: Option<string>)
      returns (r: Option<SessionRecord>)
      requires Valid()
      modifies sessionRepository
      ensures Valid()
      ensures sessionId !in old(sessionRepository.rows) ==> r.None? && sessionRepository.rows == old(sessionRepository.rows)
      ensures sessionId in old(sessionRepository.rows) ==>
                var n := WithNotes(old(sessionRepository.rows)[sessionId], notes, noteType);
                sessionRepository.rows == old(sessionRepository.rows)[sessionId := n] && r == Some(n)
    {
      if sessionId !in sessionRepository.rows {
        return None;
      }
      var n := WithNotes(sessionRepository.rows[sessionId], notes, noteType);
      sessionRepository.Update(sessionId, n);
      r := Some(n);
    }
  }
}
