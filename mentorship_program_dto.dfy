// MentorshipProgramDTO: a program as the API shows it, with its participant
// counts and the display helpers for its type and its status.

module MentorshipProgramDtos {
  import opened Common
  import opened MentorshipEntities

  /** The DTO, also the request body of createProgram and updateProgram;
      `programType` is the enum's name. */
  datatype MentorshipProgramDto = MentorshipProgramDto(
    id: Option<int>,
    companyId: Option<int>,
    programName: string,
    description: Option<string>,
    programType: string,
    durationWeeks: Option<int>,
    maxMenteesPerMentor: Option<int>,
    minMentorExperienceYears: Option<int>,
    isActive: bool,
    startDate: Option<int>,
    endDate: Option<int>,
    currentParticipants: Option<int>,
    maxParticipants: Option<int>)

  /** The constructor from an entity: a copy of its fields, with both
      participant counts left null. */
  function FromProgram(p: ProgramRecord): (d: MentorshipProgramDto)
    ensures d.id == Some(p.id) && d.companyId == p.companyId && d.programName == p.programName
    ensures d.description == p.description && ParseProgramType(d.programType) == Ok(p.programType)
    ensures d.durationWeeks == p.durationWeeks && d.maxMenteesPerMentor == p.maxMenteesPerMentor
    ensures d.minMentorExperienceYears == p.minMentorExperienceYears && d.isActive == p.isActive
    ensures d.startDate == p.startDate && d.endDate == p.endDate
    ensures d.currentParticipants.None? && d.maxParticipants.None?
  {
    ProgramTypeNameRoundTrip(p.programType);
    MentorshipProgramDto(Some(p.id), p.companyId, p.programName, p.description, ProgramTypeName(p.programType),
                         p.durationWeeks, p.maxMenteesPerMentor, p.minMentorExperienceYears, p.isActive,
                         p.startDate, p.endDate, None, None)
  }

  /** getProgramTypeDisplay: underscores become spaces and letters lower
      case; the display is as long as the name. */
  function ProgramTypeDisplay(d: MentorshipProgramDto): (r: string)
    ensures |r| == |d.programType|
    ensures forall i :: 0 <= i < |r| ==> r[i] == LowerChar(if d.programType[i] == '_' then ' ' else d.programType[i])
    ensures forall i :: 0 <= i < |r| ==> r[i] != '_' && !('A' <= r[i] <= 'Z')
    ensures forall i :: 0 <= i < |r| ==> (r[i] == ' ' <==> d.programType[i] == '_' || d.programType[i] == ' ')
  {
    ToLower(ReplaceChar(d.programType, '_', ' '))
  }

  /** No two program types share a display. */
  lemma {:induction false} ProgramTypeDisplayIsInjective(d: MentorshipProgramDto, e: MentorshipProgramDto)
    requires ParseProgramType(d.programType).Ok? && ParseProgramType(e.programType).Ok?
    ensures ProgramTypeDisplay(d) == ProgramTypeDisplay(e) ==> d.programType == e.programType
  {
    if ProgramTypeDisplay(d) == ProgramTypeDisplay(e) {
      var s, t := d.programType, e.programType;
      forall i | 0 <= i < |s|
        ensures s[i] == t[i]
      {
        assert ProgramTypeDisplay(d)[i] == ProgramTypeDisplay(e)[i];
        UpperOrUnderscore(s, i);
        UpperOrUnderscore(t, i);
        DisplayCharIsInjective(s[i], t[i]);
      }
    }
  }

  /** On capitals and underscores the character mapping of the display is
      one to one. */
  lemma {:induction false} DisplayCharIsInjective(c: char, e: char)
    requires 'A' <= c <= 'Z' || c == '_'
    requires 'A' <= e <= 'Z' || e == '_'
    requires LowerChar(if c == '_' then ' ' else c) == LowerChar(if e == '_' then ' ' else e)
    ensures c == e
  {
  }

  /** The display of the first program type. */
  lemma {:induction false} TechnicalSkillsDisplay(d: MentorshipProgramDto)
    requires d.programType == "TECHNICAL_SKILLS"
    ensures ProgramTypeDisplay(d) == "technical skills"
  {
    TechnicalSkillsLowered(d.programType);
  }

  /** The same, on the bare name, away from the DTO's other facts. */
  lemma TechnicalSkillsLowered(s: string)
    requires s == "TECHNICAL_SKILLS"
    ensures ToLower(ReplaceChar(s, '_', ' ')) == "technical skills"
  {
  }

  /** Enum names are written in capitals and underscores. */
  lemma {:induction false} UpperOrUnderscore(s: string, i: int)
    requires ParseProgramType(s).Ok? && 0 <= i < |s|
    ensures 'A' <= s[i] <= 'Z' || s[i] == '_'
  {
    match ParseProgramType(s).value
    case TechnicalSkills =>
    case LeadershipDevelopment =>
    case CareerGrowth =>
    case SoftSkills =>
    case IndustryKnowledge =>
    case Networking =>
    case GeneralMentorship =>
  }

  /** getIsFull: false when either count is missing. */
  predicate IsFull(d: MentorshipProgramDto)
  {
    d.currentParticipants.Some? && d.maxParticipants.Some? && d.currentParticipants.value >= d.maxParticipants.value
  }

  /** getStatusDisplay at time `now`. */
  function StatusDisplay(d: MentorshipProgramDto, now: int): (r: string)
    ensures r == "Inactive" <==> !d.isActive
    ensures r == "Full" <==> d.isActive && IsFull(d)
    ensures r == "Upcoming" <==> d.isActive && !IsFull(d) && d.startDate.Some? && now < d.startDate.value
    ensures r == "Completed" <==>
              d.isActive && !IsFull(d) && !(d.startDate.Some? && now < d.startDate.value)
              && d.endDate.Some? && now > d.endDate.value
    ensures r in {"Inactive", "Full", "Upcoming", "Completed", "Active"}
  {
    if !d.isActive then "Inactive"
    else if IsFull(d) then "Full"
    else if d.startDate.Some? && now < d.startDate.value then "Upcoming"
    else if d.endDate.Some? && now > d.endDate.value then "Completed"
    else "Active"
  }

  /** A freshly constructed DTO has no counts, so it is never "Full"; an
      active one in its date range is "Active". */
  lemma {:induction false} FreshDtoIsNeverFull(p: ProgramRecord, now: int)
    ensures StatusDisplay(FromProgram(p), now) != "Full"
    ensures p.isActive && (p.startDate.None? || p.startDate.value <= now) && (p.endDate.None? || now <= p.endDate.value) ==>
              StatusDisplay(FromProgram(p), now) == "Active"
  {
  }
}
