// Users of the network and the user service: registration, partial profile
// updates, deactivation and the active-user listing. The user entity itself
// is not part of this model's sources; `UserRecord` holds the fields the
// services read and write.

module Users {
  import opened Common
  import opened Tables

  /** The roles the services test for: USER, CORPORATE_ADMIN and ADMIN. */
  datatype UserRole = RegularUser | CorporateAdmin | Admin

  datatype UserRecord = UserRecord(
    id: int,
    name: string,
    email: string,
    passwordHash: string,
    industry: Option<string>,
    skills: Option<string>,
    interests: Option<string>,
    linkedinUrl: Option<string>,
    companyId: Option<int>,
    role: UserRole,
    isActive: bool)

  /** Every row is stored under its own id. */
  predicate UsersKeyedById(users: map<int, UserRecord>)
  {
    forall id :: id in users ==> users[id].id == id
  }

  /** `existsByEmail`. */
  predicate EmailTaken(users: map<int, UserRecord>, email: string)
  {
    exists id :: id in users && users[id].email == email
  }

  /** No two users share an email address. */
  predicate UniqueEmails(users: map<int, UserRecord>)
  {
    forall a, b :: a in users && b in users && users[a].email == users[b].email ==> a == b
  }

  /** The registration form. */
  datatype Registration = Registration(
    name: string,
    email: string,
    password: string,
    industry: Option<string>,
    skills: Option<string>,
    interests: Option<string>,
    linkedinUrl: Option<string>,
    companyId: Option<int>)

  /** The profile fields updateUserProfile reads; `None` is a null field. */
  datatype ProfileUpdate = ProfileUpdate(
    name: Option<string>,
    industry: Option<string>,
    skills: Option<string>,
    interests: Option<string>,
    linkedinUrl: Option<string>)

  /** UserProfileDto: the user without the password hash. */
  datatype UserProfile = UserProfile(
    id: int,
    name: string,
    email: string,
    role: UserRole,
    industry: Option<string>,
    skills: Option<string>,
    interests: Option<string>,
    companyId: Option<int>,
    linkedinUrl: Option<string>,
    isActive: bool)

  /** UserProfileDto.fromUser. */
  function Profile(u: UserRecord): (p: UserProfile)
    ensures p.id == u.id && p.name == u.name && p.email == u.email && p.role == u.role
    ensures p.industry == u.industry && p.skills == u.skills && p.interests == u.interests
    ensures p.companyId == u.companyId && p.linkedinUrl == u.linkedinUrl && p.isActive == u.isActive
  {
    UserProfile(u.id, u.name, u.email, u.role, u.industry, u.skills, u.interests,
                u.companyId, u.linkedinUrl, u.isActive)
  }

  /** The user registerUser saves: the form's fields, the encoded password,
      role USER, active. */
  function NewUser(id: int, reg: Registration, encodedPassword: string): (u: UserRecord)
    ensures u.id == id && u.name == reg.name && u.email == reg.email && u.passwordHash == encodedPassword
    ensures u.industry == reg.industry && u.skills == reg.skills && u.interests == reg.interests
    ensures u.linkedinUrl == reg.linkedinUrl && u.companyId == reg.companyId
    ensures u.role == RegularUser && u.isActive
  {
    UserRecord(id, reg.name, reg.email, encodedPassword, reg.industry, reg.skills, reg.interests,
               reg.linkedinUrl, reg.companyId, RegularUser, true)
  }

  /** The guarded setters of updateUserProfile: a non-null field overwrites,
      a null one keeps; email, role, company and activity are never touched. */
  function UpdatedProfile(u: UserRecord, p: ProfileUpdate): (n: UserRecord)
    ensures n.name == p.name.GetOr(u.name)
    ensures p.industry.Some? ==> n.industry == p.industry
    ensures p.skills.Some? ==> n.skills == p.skills
    ensures p.interests.Some? ==> n.interests == p.interests
    ensures p.linkedinUrl.Some? ==> n.linkedinUrl == p.linkedinUrl
    ensures p.industry.None? ==> n.industry == u.industry
    ensures p.skills.None? ==> n.skills == u.skills
    ensures p.interests.None? ==> n.interests == u.interests
    ensures p.linkedinUrl.None? ==> n.linkedinUrl == u.linkedinUrl
    ensures n.id == u.id && n.email == u.email && n.passwordHash == u.passwordHash
    ensures n.companyId == u.companyId && n.role == u.role && n.isActive == u.isActive
  {
    u.(name := p.name.GetOr(u.name),
       industry := if p.industry.Some? then p.industry else u.industry,
       skills := if p.skills.Some? then p.skills else u.skills,
       interests := if p.interests.Some? then p.interests else u.interests,
       linkedinUrl := if p.linkedinUrl.Some? then p.linkedinUrl else u.linkedinUrl)
  }

  /** An update with every field null leaves the user as it was, and applying
      an update twice is applying it once. */
  lemma {:induction false} ProfileUpdateLaws(u: UserRecord, p: ProfileUpdate)
    ensures UpdatedProfile(u, ProfileUpdate(None, None, None, None, None)) == u
    ensures UpdatedProfile(UpdatedProfile(u, p), p) == UpdatedProfile(u, p)
  {
  }

  /** Registering an unused address keeps addresses unique. */
  lemma {:induction false} RegisterKeepsEmailsUnique(users: map<int, UserRecord>, id: int, u: UserRecord)
    requires UniqueEmails(users) && id !in users && !EmailTaken(users, u.email)
    ensures UniqueEmails(users[id := u])
  {
    var m := users[id := u];
    forall a, b | a in m && b in m && m[a].email == m[b].email
      ensures a == b
    {
      assert m[a].email == (if a == id then u.email else users[a].email);
      assert m[b].email == (if b == id then u.email else users[b].email);
    }
  }

  /** Replacing a user by one with the same address keeps addresses unique. */
  lemma {:induction false} SameEmailKeepsUnique(users: map<int, UserRecord>, id: int, u: UserRecord)
    requires UniqueEmails(users) && id in users && u.email == users[id].email
    ensures UniqueEmails(users[id := u])
  {
    var m := users[id := u];
    forall a, b | a in m && b in m && m[a].email == m[b].email
      ensures a == b
    {
      assert m[a].email == users[a].email && m[b].email == users[b].email;
    }
  }

  class UserService {
    const userRepository: Table<UserRecord>

    ghost predicate Valid()
      reads this, userRepository
    {
      userRepository.Valid() && UsersKeyedById(userRepository.rows)
    }

    constructor (userRepository: Table<UserRecord>)
      requires userRepository.Valid() && UsersKeyedById(userRepository.rows)
      ensures Valid() && this.userRepository == userRepository
    {
      this.userRepository := userRepository;
    }

    /** registerUser; `encodedPassword` is what the password encoder returns. */
    method RegisterUser(reg: Registration, encodedPassword: string) returns (r: Result<UserProfile>)
      requires Valid()
      modifies userRepository
      ensures Valid()
      ensures EmailTaken(old(userRepository.rows), reg.email) ==>
                r == Err("Email already registered") && userRepository.rows == old(userRepository.rows)
      ensures !EmailTaken(old(userRepository.rows), reg.email) ==>
                var id := old(userRepository.nextId);
                userRepository.rows == old(userRepository.rows)[id := NewUser(id, reg, encodedPassword)]
                && r == Ok(Profile(NewUser(id, reg, encodedPassword)))
      ensures UniqueEmails(old(userRepository.rows)) ==> UniqueEmails(userRepository.rows)
    {
      if exists id :: id in userRepository.rows && userRepository.rows[id].email == reg.email {
        return Err("Email already registered");
      }
      var u := NewUser(userRepository.nextId, reg, encodedPassword);
      ghost var before := userRepository.rows;
      var id := userRepository.Insert(u);
      if UniqueEmails(before) {
        RegisterKeepsEmailsUnique(before, id, u);
      }
      r := Ok(Profile(u));
    }

    /** getUserProfile. */
    function GetUserProfile(userId: int): (p: Option<UserProfile>)
      reads this, userRepository
      ensures p.Some? <==> userId in userRepository.rows
      ensures p.Some? ==> p.value == Profile(userRepository.rows[userId])
    {
      if userId in userRepository.rows then Some(Profile(userRepository.rows[userId])) else None
    }

    /** getAllActiveUsers: the profiles of exactly the active users. The table
        order of findAll is not modelled, so the answer is a set. */
    function GetAllActiveUsers(): (ps: set<UserProfile>)
      reads this, userRepository
      ensures forall id :: id in userRepository.rows && userRepository.rows[id].isActive ==>
                Profile(userRepository.rows[id]) in ps
      ensures forall p :: p in ps ==>
                p.isActive && (exists id :: id in userRepository.rows && Profile(userRepository.rows[id]) == p)
    {
      set id | id in userRepository.rows && userRepository.rows[id].isActive :: Profile(userRepository.rows[id])
    }

    /** updateUserProfile: the non-null fields of the update are written. */
    method UpdateUserProfile(userId: int, p: ProfileUpdate) returns (r: Result<UserProfile>)
      requires Valid()
      modifies userRepository
      ensures Valid()
      ensures userId !in old(userRepository.rows) ==>
                r == Err("User not found") && userRepository.rows == old(userRepository.rows)
      ensures userId in old(userRepository.rows) ==>
                var n := UpdatedProfile(old(userRepository.rows)[userId], p);
                userRepository.rows == old(userRepository.rows)[userId := n] && r == Ok(Profile(n))
      ensures UniqueEmails(old(userRepository.rows)) ==> UniqueEmails(userRepository.rows)
    {
      if userId !in userRepository.rows {
        return Err("User not found");
      }
      var n := UpdatedProfile(userRepository.rows[userId], p);
      if UniqueEmails(userRepository.rows) {
        SameEmailKeepsUnique(userRepository.rows, userId, n);
      }
      userRepository.Update(userId, n);
      r := Ok(Profile(n));
    }

    /** deactivateUser: the user stays stored, inactive. */
    method DeactivateUser(userId: int) returns (r: Result<Unit>)
      requires Valid()
      modifies userRepository
      ensures Valid()
      ensures userId !in old(userRepository.rows) ==>
                r == Err("User not found") && userRepository.rows == old(userRepository.rows)
      ensures userId in old(userRepository.rows) ==>
                r == Ok(Unit) &&
                userRepository.rows == old(userRepository.rows)[userId := old(userRepository.rows)[userId].(isActive := false)]
      ensures UniqueEmails(old(userRepository.rows)) ==> UniqueEmails(userRepository.rows)
    {
      if userId !in userRepository.rows {
        return Err("User not found");
      }
      var n := userRepository.rows[userId].(isActive := false);
      if UniqueEmails(userRepository.rows) {
        SameEmailKeepsUnique(userRepository.rows, userId, n);
      }
      userRepository.Update(userId, n);
      r := Ok(Unit);
    }
  }

  /** A deactivated user drops out of the active listing; no one else does;
      deactivating again changes nothing. */
  lemma {:induction false} DeactivatedUserLeavesListing(users: map<int, UserRecord>, userId: int)
    requires userId in users && UsersKeyedById(users)
    ensures var m := users[userId := users[userId].(isActive := false)];
            forall id :: id in m ==> (m[id].isActive <==> id != userId && users[id].isActive)
    ensures var m := users[userId := users[userId].(isActive := false)];
            m[userId := m[userId].(isActive := false)] == m
  {
  }
}
