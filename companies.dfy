// Companies on the corporate side of the network and the company service:
// creation by a corporate admin, renaming, deactivation, deletion (which
// detaches every employee) and the admin check. The company entity itself is
// not part of this model's sources; `CompanyRecord` holds the fields the
// services read and write.

module Companies {
  import opened Common
  import opened Tables
  import opened Users

  /** Company.SubscriptionTier; its constants carry the plan names. */
  datatype SubscriptionTier = FreeTier | BasicTier | PremiumTier | EnterpriseTier

  datatype CompanyRecord = CompanyRecord(
    id: int,
    name: string,
    adminId: int,
    subscriptionTier: SubscriptionTier,
    isActive: bool)

  /** Every company is stored under its own id. */
  predicate CompaniesKeyedById(rows: map<int, CompanyRecord>)
  {
    forall id :: id in rows ==> rows[id].id == id
  }

  /** `existsByName`. */
  predicate NameTaken(rows: map<int, CompanyRecord>, name: string)
  {
    exists id :: id in rows && rows[id].name == name
  }

  /** No two companies share a name. */
  predicate UniqueNames(rows: map<int, CompanyRecord>)
  {
    forall a, b :: a in rows && b in rows && rows[a].name == rows[b].name ==> a == b
  }

  /** CompanyDTO.fromEntity; the admin name and the counts are left null. */
  datatype CompanyDto = CompanyDto(
    id: int,
    name: string,
    adminId: int,
    adminName: Option<string>,
    subscriptionTier: SubscriptionTier,
    isActive: bool,
    employeeCount: Option<int>,
    departmentCount: Option<int>)

  function CompanyDtoOf(c: CompanyRecord): (d: CompanyDto)
    ensures d.id == c.id && d.name == c.name && d.adminId == c.adminId
    ensures d.subscriptionTier == c.subscriptionTier && d.isActive == c.isActive
    ensures d.adminName.None? && d.employeeCount.None? && d.departmentCount.None?
  {
    CompanyDto(c.id, c.name, c.adminId, None, c.subscriptionTier, c.isActive, None, None)
  }

  datatype CompanySettings = CompanySettings(
    companyId: int,
    logoUrl: Option<string>,
    primaryColor: string,
    secondaryColor: string,
    allowedDomains: Option<string>,
    requireDomainVerification: bool,
    allowExternalMatching: bool,
    maxEmployees: Option<int>,
    enableAnalytics: bool)

  /** createDefaultCompanySettings. */
  function DefaultSettings(companyId: int): (s: CompanySettings)
    ensures s.companyId == companyId
    ensures s.primaryColor == "#007bff" && s.secondaryColor == "#6c757d"
    ensures s.requireDomainVerification && !s.allowExternalMatching && s.enableAnalytics
    ensures s.logoUrl.None? && s.allowedDomains.None? && s.maxEmployees.None?
  {
    CompanySettings(companyId, None, "#007bff", "#6c757d", None, true, false, None, true)
  }

  /** The roles createCompany accepts as a company's admin. */
  predicate IsCorporateAdminRole(r: UserRole)
  {
    r == CorporateAdmin || r == Admin
  }

  /** The checks of createCompany, in order. */
  function CreateCheck(users: map<int, UserRecord>, companies: map<int, CompanyRecord>, name: string, adminId: int): (r: Result<Unit>)
    ensures r.Ok? <==> adminId in users && IsCorporateAdminRole(users[adminId].role) && !NameTaken(companies, name)
    ensures adminId !in users ==> r == Err("Admin user not found")
    ensures adminId in users && !IsCorporateAdminRole(users[adminId].role) ==>
              r == Err("User does not have corporate admin privileges")
    ensures adminId in users && IsCorporateAdminRole(users[adminId].role) && NameTaken(companies, name) ==>
              r == Err("Company with this name already exists")
  {
    if adminId !in users then Err("Admin user not found")
    else if !IsCorporateAdminRole(users[adminId].role) then Err("User does not have corporate admin privileges")
    else if exists id :: id in companies && companies[id].name == name then Err("Company with this name already exists")
    else Ok(Unit)
  }

  /** The checks of updateCompany: only a changed name that another company
      already has is refused. */
  function UpdateCheck(companies: map<int, CompanyRecord>, id: int, name: string): (r: Result<Unit>)
    ensures id !in companies ==> r == Err("Company not found")
    ensures id in companies ==>
              (r.Ok? <==> companies[id].name == name || !NameTaken(companies, name))
    ensures id in companies && r.Err? ==> r == Err("Company with this name already exists")
  {
    if id !in companies then Err("Company not found")
    else if companies[id].name != name && exists c :: c in companies && companies[c].name == name then
      Err("Company with this name already exists")
    else Ok(Unit)
  }

  /** The company after updateCompany: the new name, and the new tier unless
      it is null. */
  function Updated(c: CompanyRecord, name: string, tier: Option<SubscriptionTier>): (n: CompanyRecord)
    ensures n.name == name && n.subscriptionTier == tier.GetOr(c.subscriptionTier)
    ensures n.id == c.id && n.adminId == c.adminId && n.isActive == c.isActive
  {
    c.(name := name, subscriptionTier := tier.GetOr(c.subscriptionTier))
  }

  /** A rename that passes the check keeps company names unique. */
  lemma {:induction false} UpdateKeepsNamesUnique(companies: map<int, CompanyRecord>, id: int, n: CompanyRecord)
    requires UniqueNames(companies) && id in companies
    requires UpdateCheck(companies, id, n.name).Ok?
    ensures UniqueNames(companies[id := n])
  {
    var m := companies[id := n];
    forall a, b | a in m && b in m && m[a].name == m[b].name
      ensures a == b
    {
      assert m[a].name == (if a == id then n.name else companies[a].name);
      assert m[b].name == (if b == id then n.name else companies[b].name);
      if a != id && b != id {
      } else if companies[id].name != n.name {
        assert !NameTaken(companies, n.name);
        assert a == id ==> !(companies[b].name == n.name && b in companies);
      }
    }
  }

  /** Users detached from a company by deleteCompany. */
  function Detached(users: map<int, UserRecord>, companyId: int): (m: map<int, UserRecord>)
    ensures m.Keys == users.Keys
    ensures forall id :: id in m ==> m[id].companyId != Some(companyId)
  {
    map id | id in users :: if users[id].companyId == Some(companyId) then users[id].(companyId := None) else users[id]
  }

  /** findByCompanyId: the users attached to the company. */
  function Employees(users: map<int, UserRecord>, companyId: int): (r: set<UserRecord>)
    ensures forall u :: u in r ==> u in users.Values && u.companyId == Some(companyId)
    ensures forall id :: id in users && users[id].companyId == Some(companyId) ==> users[id] in r
  {
    set id | id in users && users[id].companyId == Some(companyId) :: users[id]
  }

  /** After deleteCompany detaches them, the company has no employees left,
      and every other company keeps exactly its own. */
  lemma {:induction false} DetachedLeavesNoEmployees(users: map<int, UserRecord>, companyId: int, other: int)
    requires other != companyId
    ensures Employees(Detached(users, companyId), companyId) == {}
    ensures Employees(Detached(users, companyId), other) == Employees(users, other)
  {
    var m := Detached(users, companyId);
    forall u | u in Employees(m, other) ensures u in Employees(users, other) {
      var id :| id in m && m[id].companyId == Some(other) && m[id] == u;
    }
    forall u | u in Employees(users, other) ensures u in Employees(m, other) {
      var id :| id in users && users[id].companyId == Some(other) && users[id] == u;
      assert m[id] == u;
    }
  }

  /** Clears the company of every user employed by company `id`, one user
      at a time. */
  method DetachAll(users: Table<UserRecord>, id: int)
    requires users.Valid() && UsersKeyedById(users.rows)
    modifies users
    ensures users.Valid() && UsersKeyedById(users.rows)
    ensures users.rows == Detached(old(users.rows), id)
  {
    ghost var users0 := users.rows;
    var employees := set u | u in users.rows && users.rows[u].companyId == Some(id);
    PartlyDetachedNone(users0, id, employees);
    while exists u :: u in employees
      invariant users.Valid() && UsersKeyedById(users.rows)
      invariant forall u :: u in employees ==> u in users0 && users0[u].companyId == Some(id)
      invariant users.rows == PartlyDetached(users0, id, employees)
      decreases |employees|
    {
      var u :| u in employees;
      PartlyDetachedStep(users0, id, employees, u);
      users.Update(u, users.rows[u].(companyId := None));
      employees := employees - {u};
    }
    PartlyDetachedAll(users0, id, employees);
  }

  /** The users with the employees of `companyId` outside `pending`
      detached. */
  function PartlyDetached(users: map<int, UserRecord>, companyId: int, pending: set<int>): map<int, UserRecord>
  {
    map u | u in users :: if users[u].companyId == Some(companyId) && u !in pending then users[u].(companyId := None) else users[u]
  }

  /** With every employee pending, nobody is detached yet. */
  lemma PartlyDetachedNone(users: map<int, UserRecord>, companyId: int, pending: set<int>)
    requires forall u :: u in users && users[u].companyId == Some(companyId) ==> u in pending
    ensures PartlyDetached(users, companyId, pending) == users
  {
    var m := PartlyDetached(users, companyId, pending);
    assert m.Keys == users.Keys;
    forall u | u in m
      ensures m[u] == users[u]
    {
    }
  }

  /** Detaching one pending employee. */
  lemma PartlyDetachedStep(users: map<int, UserRecord>, companyId: int, pending: set<int>, u: int)
    requires u in pending && u in users && users[u].companyId == Some(companyId)
    ensures u in PartlyDetached(users, companyId, pending) && PartlyDetached(users, companyId, pending)[u] == users[u]
    ensures PartlyDetached(users, companyId, pending)[u := users[u].(companyId := None)]
            == PartlyDetached(users, companyId, pending - {u})
  {
  }

  /** With nothing pending, every employee is detached. */
  lemma PartlyDetachedAll(users: map<int, UserRecord>, companyId: int, pending: set<int>)
    requires pending == {}
    ensures PartlyDetached(users, companyId, pending) == Detached(users, companyId)
  {
  }

  /** Detaching changes only the company field, and only of that company's
      employees; everybody else is untouched. */
  lemma {:induction false} DetachTouchesOnlyEmployees(users: map<int, UserRecord>, companyId: int)
    ensures forall id :: id in users && users[id].companyId != Some(companyId) ==>
              Detached(users, companyId)[id] == users[id]
    ensures forall id :: id in users ==>
              Detached(users, companyId)[id] == users[id].(companyId := Detached(users, companyId)[id].companyId)
  {
  }

  class CompanyService {
    const companyRepository: Table<CompanyRecord>
    const companySettingsRepository: Table<CompanySettings>
    const userRepository: Table<UserRecord>

    ghost predicate Valid()
      reads this, companyRepository, companySettingsRepository, userRepository
    {
      companyRepository.Valid() && companySettingsRepository.Valid() && userRepository.Valid()
      && CompaniesKeyedById(companyRepository.rows) && UsersKeyedById(userRepository.rows)
    }

    constructor (companyRepository: Table<CompanyRecord>, companySettingsRepository: Table<CompanySettings>,
                 userRepository: Table<UserRecord>)
      requires companyRepository.Valid() && companySettingsRepository.Valid() && userRepository.Valid()
      requires CompaniesKeyedById(companyRepository.rows) && UsersKeyedById(userRepository.rows)
      ensures Valid()
      ensures this.companyRepository == companyRepository && this.userRepository == userRepository
      ensures this.companySettingsRepository == companySettingsRepository
    {
      this.companyRepository := companyRepository;
      this.companySettingsRepository := companySettingsRepository;
      this.userRepository := userRepository;
    }

    /** createCompany: a FREE, active company with default settings, and the
        admin now belongs to it. */
    method CreateCompany(name: string, adminId: int) returns (r: Result<CompanyDto>)
      requires Valid()
      modifies companyRepository, companySettingsRepository, userRepository
      ensures Valid()
      ensures var check := CreateCheck(old(userRepository.rows), old(companyRepository.rows), name, adminId);
              check.Err? ==>
                r == Err(check.message) && companyRepository.rows == old(companyRepository.rows)
                && companySettingsRepository.rows == old(companySettingsRepository.rows)
                && userRepository.rows == old(userRepository.rows)
      ensures CreateCheck(old(userRepository.rows), old(companyRepository.rows), name, adminId).Ok? ==>
                var id := old(companyRepository.nextId);
                var c := CompanyRecord(id, name, adminId, FreeTier, true);
                companyRepository.rows == old(companyRepository.rows)[id := c]
                && companySettingsRepository.rows ==
                     old(companySettingsRepository.rows)[old(companySettingsRepository.nextId) := DefaultSettings(id)]
                && userRepository.rows ==
                     old(userRepository.rows)[adminId := old(userRepository.rows)[adminId].(companyId := Some(id))]
                && r == Ok(CompanyDtoOf(c))
      ensures r.Ok? ==> IsUserCompanyAdmin(adminId, r.value.id) && r.value.subscriptionTier == FreeTier
      ensures UniqueNames(old(companyRepository.rows)) ==> UniqueNames(companyRepository.rows)
    {
      var check := CreateCheck(userRepository.rows, companyRepository.rows, name, adminId);
      if check.Err? {
        return Err(check.message);
      }
      ghost var before := companyRepository.rows;
      var c := CompanyRecord(companyRepository.nextId, name, adminId, FreeTier, true);
      var id := companyRepository.Insert(c);
      if UniqueNames(before) {
        forall a, b | a in companyRepository.rows && b in companyRepository.rows
                      && companyRepository.rows[a].name == companyRepository.rows[b].name
          ensures a == b
        {
          assert companyRepository.rows[a].name == (if a == id then name else before[a].name);
          assert companyRepository.rows[b].name == (if b == id then name else before[b].name);
        }
      }
      var _ := companySettingsRepository.Insert(DefaultSettings(id));
      var admin := userRepository.rows[adminId];
      userRepository.Update(adminId, admin.(companyId := Some(id)));
      r := Ok(CompanyDtoOf(c));
    }

    /** getAllActiveCompanies; the table order is not modelled. */
    function GetAllActiveCompanies(): (ds: set<CompanyDto>)
      reads this, companyRepository
      ensures forall id :: id in companyRepository.rows && companyRepository.rows[id].isActive ==>
                CompanyDtoOf(companyRepository.rows[id]) in ds
      ensures forall d :: d in ds ==>
                d.isActive && exists id :: id in companyRepository.rows && CompanyDtoOf(companyRepository.rows[id]) == d
    {
      set id | id in companyRepository.rows && companyRepository.rows[id].isActive :: CompanyDtoOf(companyRepository.rows[id])
    }

    /** getCompanyById. */
    function GetCompanyById(id: int): (d: Option<CompanyDto>)
      reads this, companyRepository
      ensures d.Some? <==> id in companyRepository.rows
      ensures d.Some? ==> d.value == CompanyDtoOf(companyRepository.rows[id])
    {
      if id in companyRepository.rows then Some(CompanyDtoOf(companyRepository.rows[id])) else None
    }

    /** updateCompany. */
    method UpdateCompany(id: int, name: string, tier: Option<SubscriptionTier>) returns (r: Result<CompanyDto>)
      requires Valid()
      modifies companyRepository
      ensures Valid()
      ensures var check := UpdateCheck(old(companyRepository.rows), id, name);
              check.Err? ==> r == Err(check.message) && companyRepository.rows == old(companyRepository.rows)
      ensures UpdateCheck(old(companyRepository.rows), id, name).Ok? ==>
                var n := Updated(old(companyRepository.rows)[id], name, tier);
                companyRepository.rows == old(companyRepository.rows)[id := n] && r == Ok(CompanyDtoOf(n))
      ensures UniqueNames(old(companyRepository.rows)) ==> UniqueNames(companyRepository.rows)
    {
      var check := UpdateCheck(companyRepository.rows, id, name);
      if check.Err? {
        return Err(check.message);
      }
      var n := Updated(companyRepository.rows[id], name, tier);
      if UniqueNames(companyRepository.rows) {
        UpdateKeepsNamesUnique(companyRepository.rows, id, n);
      }
      companyRepository.Update(id, n);
      r := Ok(CompanyDtoOf(n));
    }

    /** deactivateCompany. */
    method DeactivateCompany(id: int) returns (r: Result<Unit>)
      requires Valid()
      modifies companyRepository
      ensures Valid()
      ensures id !in old(companyRepository.rows) ==>
                r == Err("Company not found") && companyRepository.rows == old(companyRepository.rows)
      ensures id in old(companyRepository.rows) ==>
                r == Ok(Unit)
                && companyRepository.rows == old(companyRepository.rows)[id := old(companyRepository.rows)[id].(isActive := false)]
    {
      if id !in companyRepository.rows {
        return Err("Company not found");
      }
      companyRepository.Update(id, companyRepository.rows[id].(isActive := false));
      r := Ok(Unit);
    }

    /** deleteCompany: every employee is detached, the company's settings
        and the company itself are deleted. */
    method DeleteCompany(id: int) returns (r: Result<Unit>)
      requires Valid()
      modifies companyRepository, companySettingsRepository, userRepository
      ensures Valid()
      ensures id !in old(companyRepository.rows) ==>
                r == Err("Company not found") && companyRepository.rows == old(companyRepository.rows)
                && companySettingsRepository.rows == old(companySettingsRepository.rows)
                && userRepository.rows == old(userRepository.rows)
      ensures id in old(companyRepository.rows) ==>
                r == Ok(Unit)
                && userRepository.rows == Detached(old(userRepository.rows), id)
                && companySettingsRepository.rows ==
                     (map s | s in old(companySettingsRepository.rows) && old(companySettingsRepository.rows)[s].companyId != id
                            :: old(companySettingsRepository.rows)[s])
                && companyRepository.rows == old(companyRepository.rows) - {id}
    {
      if id !in companyRepository.rows {
        return Err("Company not found");
      }
      DetachEmployees(id);
      DeleteSettingsOf(id);
      companyRepository.Delete(id);
      r := Ok(Unit);
    }

    /** The loop of deleteCompany over the company's employees. */
    method DetachEmployees(id: int)
      requires Valid()
      modifies userRepository
      ensures Valid()
      ensures userRepository.rows == Detached(old(userRepository.rows), id)
    {
      DetachAll(userRepository, id);
    }

    /** `deleteByCompanyId` on the settings table. */
    method DeleteSettingsOf(id: int)
      requires Valid()
      modifies companySettingsRepository
      ensures Valid()
      ensures companySettingsRepository.rows ==
                (map s | s in old(companySettingsRepository.rows) && old(companySettingsRepository.rows)[s].companyId != id
                       :: old(companySettingsRepository.rows)[s])
    {
      ghost var settings0 := companySettingsRepository.rows;
      var owned := set s | s in companySettingsRepository.rows && companySettingsRepository.rows[s].companyId == id;
      ghost var allOwned := owned;
      while exists s :: s in owned
        invariant companySettingsRepository.Valid()
        invariant owned <= allOwned
        invariant forall s :: s in allOwned <==> s in settings0 && settings0[s].companyId == id
        invariant companySettingsRepository.rows ==
                    (map s | s in settings0 && (s !in allOwned || s in owned) :: settings0[s])
        decreases |owned|
      {
        var s :| s in owned;
        companySettingsRepository.Delete(s);
        owned := owned - {s};
      }
    }

    /** isUserCompanyAdmin. */
    predicate IsUserCompanyAdmin(userId: int, companyId: int): (b: bool)
      reads this, companyRepository
      ensures companyId !in companyRepository.rows ==> !b
      ensures companyId in companyRepository.rows ==> (b <==> companyRepository.rows[companyId].adminId == userId)
    {
      companyId in companyRepository.rows && companyRepository.rows[companyId].adminId == userId
    }

    /** getCompanyEmployees: the users attached to the company. */
    function GetCompanyEmployees(companyId: int): (r: set<UserRecord>)
      reads this, userRepository
      ensures forall u :: u in r ==> u in userRepository.rows.Values && u.companyId == Some(companyId)
      ensures forall id :: id in userRepository.rows && userRepository.rows[id].companyId == Some(companyId) ==>
                userRepository.rows[id] in r
    {
      Employees(userRepository.rows, companyId)
    }
  }
}
