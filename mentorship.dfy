// The mentorship entities: programs, mentor–mentee relationships and their
// sessions, with the enum names the service parses with `valueOf`.

module MentorshipEntities {
  import opened Common

  datatype ProgramType = TechnicalSkills | LeadershipDevelopment | CareerGrowth | SoftSkills
                       | IndustryKnowledge | Networking | GeneralMentorship

  datatype RelationshipStatus = PendingRelationship | ActiveRelationship | CompletedRelationship | TerminatedRelationship

  datatype SessionType = OneOnOne | GroupSession | Workshop | Presentation | CodeReview
                       | CareerGuidance | SkillAssessment | NetworkingSession

  datatype SessionStatus = Scheduled | InProgress | SessionCompleted | SessionCancelled | NoShow

  /** A program row; dates are minutes. */
  datatype ProgramRecord = ProgramRecord(
    id: int,
    companyId: Option<int>,
    programName: string,
    description: Option<string>,
    programType: ProgramType,
    durationWeeks: Option<int>,
    maxMenteesPerMentor: Option<int>,
    minMentorExperienceYears: Option<int>,
    isActive: bool,
    startDate: Option<int>,
    endDate: Option<int>)

  /** A mentor–mentee pairing within a program. */
  datatype RelationshipRecord = RelationshipRecord(
    id: int,
    programId: int,
    mentorId: int,
    menteeId: int,
    status: RelationshipStatus,
    startDate: Option<int>,
    endDate: Option<int>,
    goals: Option<string>,
    notes: Option<string>,
    mentorRating: Option<int>,
    menteeRating: Option<int>,
    mentorFeedback: Option<string>,
    menteeFeedback: Option<string>)

  /** A session of a relationship. */
  datatype SessionRecord = SessionRecord(
    id: int,
    relationshipId: int,
    sessionDate: int,
    durationMinutes: Option<int>,
    sessionType: SessionType,
    title: string,
    description: Option<string>,
    agenda: Option<string>,
    notes: Option<string>,
    actionItems: Option<string>,
    mentorNotes: Option<string>,
    menteeNotes: Option<string>,
    status: SessionStatus)

  /** `name()` of a program type. */
  function ProgramTypeName(t: ProgramType): (r: string)
    ensures IsConstantName(r)
  {
    match t
    case TechnicalSkills => "TECHNICAL_SKILLS"
    case LeadershipDevelopment => "LEADERSHIP_DEVELOPMENT"
    case CareerGrowth => "CAREER_GROWTH"
    case SoftSkills => "SOFT_SKILLS"
    case IndustryKnowledge => "INDUSTRY_KNOWLEDGE"
    case Networking => "NETWORKING"
    case GeneralMentorship => "GENERAL_MENTORSHIP"
  }

  /** `ProgramType.valueOf`: the constant of that exact name, or the
      IllegalArgumentException it throws. */
  function ParseProgramType(s: string): (r: Result<ProgramType>)
    ensures r.Ok? ==> ProgramTypeName(r.value) == s
  {
    if s == "TECHNICAL_SKILLS" then Ok(TechnicalSkills)
    else if s == "LEADERSHIP_DEVELOPMENT" then Ok(LeadershipDevelopment)
    else if s == "CAREER_GROWTH" then Ok(CareerGrowth)
    else if s == "SOFT_SKILLS" then Ok(SoftSkills)
    else if s == "INDUSTRY_KNOWLEDGE" then Ok(IndustryKnowledge)
    else if s == "NETWORKING" then Ok(Networking)
    else if s == "GENERAL_MENTORSHIP" then Ok(GeneralMentorship)
    else Err("No enum constant com.codewithudo.backend.entity.MentorshipProgram.ProgramType." + s)
  }

  /** Every constant is found under its own name. */
  lemma {:induction false} ProgramTypeNameRoundTrip(t: ProgramType)
    ensures ParseProgramType(ProgramTypeName(t)) == Ok(t)
  {
    match t
    case TechnicalSkills =>
    case LeadershipDevelopment =>
    case CareerGrowth =>
    case SoftSkills =>
    case IndustryKnowledge =>
    case Networking =>
    case GeneralMentorship =>
  }

  function SessionTypeName(t: SessionType): (r: string)
    ensures IsConstantName(r)
  {
    match t
    case OneOnOne => "ONE_ON_ONE"
    case GroupSession => "GROUP_SESSION"
    case Workshop => "WORKSHOP"
    case Presentation => "PRESENTATION"
    case CodeReview => "CODE_REVIEW"
    case CareerGuidance => "CAREER_GUIDANCE"
    case SkillAssessment => "SKILL_ASSESSMENT"
    case NetworkingSession => "NETWORKING"
  }

  /** `SessionType.valueOf`. */
  function ParseSessionType(s: string): (r: Result<SessionType>)
    ensures r.Ok? ==> SessionTypeName(r.value) == s
  {
    if s == "ONE_ON_ONE" then Ok(OneOnOne)
    else if s == "GROUP_SESSION" then Ok(GroupSession)
    else if s == "WORKSHOP" then Ok(Workshop)
    else if s == "PRESENTATION" then Ok(Presentation)
    else if s == "CODE_REVIEW" then Ok(CodeReview)
    else if s == "CAREER_GUIDANCE" then Ok(CareerGuidance)
    else if s == "SKILL_ASSESSMENT" then Ok(SkillAssessment)
    else if s == "NETWORKING" then Ok(NetworkingSession)
    else Err("No enum constant com.codewithudo.backend.entity.MentorshipSession.SessionType." + s)
  }

  lemma {:induction false} SessionTypeNameRoundTrip(t: SessionType)
    ensures ParseSessionType(SessionTypeName(t)) == Ok(t)
  {
    match t
    case OneOnOne =>
    case GroupSession =>
    case Workshop =>
    case Presentation =>
    case CodeReview =>
    case CareerGuidance =>
    case SkillAssessment =>
    case NetworkingSession =>
  }
}
