// DepartmentService: a company's departments, their heads and the
// user–department memberships. The service is transactional, so an
// operation that throws leaves both tables as it found them. The department
// entity is not part of this model's sources; `DepartmentRecord` holds the
// fields the service and its DTO read and write.

module Departments {
  import opened Common
  import opened Tables

  datatype DepartmentRole = MemberRole | Lead | Manager | Head

  datatype DepartmentRecord = DepartmentRecord(
    id: int,
    name: string,
    description: Option<string>,
    companyId: int,
    headUserId: Option<int>,
    parentDepartmentId: Option<int>,
    isActive: bool)

  /** A UserDepartment row; removal clears `isActive` and keeps the row. */
  datatype MembershipRecord = MembershipRecord(
    id: int,
    userId: int,
    departmentId: int,
    role: DepartmentRole,
    jobTitle: Option<string>,
    isActive: bool)

  /** DepartmentDTO; the display names and the member count stay null. */
  datatype DepartmentDto = DepartmentDto(
    id: int,
    name: string,
    description: Option<string>,
    companyId: int,
    companyName: Option<string>,
    headUserId: Option<int>,
    headUserName: Option<string>,
    parentDepartmentId: Option<int>,
    parentDepartmentName: Option<string>,
    isActive: bool,
    memberCount: Option<int>)

  const NameInUse := "Department with this name already exists in the company"
  const DepartmentNotFound := "Department not found"
  const HasSubDepartments := "Cannot delete department with active sub-departments"
  const AlreadyInDepartment := "User is already in this department"

  /** DepartmentDTO.fromEntity. */
  function FromEntity(d: DepartmentRecord): (r: DepartmentDto)
    ensures r.id == d.id && r.name == d.name && r.description == d.description && r.companyId == d.companyId
    ensures r.headUserId == d.headUserId && r.parentDepartmentId == d.parentDepartmentId && r.isActive == d.isActive
    ensures r.companyName.None? && r.headUserName.None? && r.parentDepartmentName.None? && r.memberCount.None?
  {
    DepartmentDto(d.id, d.name, d.description, d.companyId, None, d.headUserId, None, d.parentDepartmentId, None,
                  d.isActive, None)
  }

  predicate DepartmentsKeyedById(depts: map<int, DepartmentRecord>)
  {
    forall id :: id in depts ==> depts[id].id == id
  }

  predicate MembershipsKeyedById(ms: map<int, MembershipRecord>)
  {
    forall id :: id in ms ==> ms[id].id == id
  }

  /** `existsByCompanyIdAndName`: inactive departments count too. */
  predicate NameTaken(depts: map<int, DepartmentRecord>, companyId: int, name: string)
  {
    exists id :: id in depts && depts[id].companyId == companyId && depts[id].name == name
  }

  /** `existsByUserIdAndDepartmentId`: inactive memberships count too. */
  predicate MembershipExists(ms: map<int, MembershipRecord>, userId: int, departmentId: int)
  {
    exists id :: id in ms && ms[id].userId == userId && ms[id].departmentId == departmentId
  }

  predicate IsMembership(ms: map<int, MembershipRecord>, id: int, userId: int, departmentId: int)
  {
    id in ms && ms[id].userId == userId && ms[id].departmentId == departmentId
  }

  /** The invariant addUserToDepartment keeps: one row per user and department. */
  predicate OneRowPerMember(ms: map<int, MembershipRecord>)
  {
    forall a, b :: (a in ms && b in ms && ms[a].userId == ms[b].userId && ms[a].departmentId == ms[b].departmentId) ==> a == b
  }

  /** `findByUserIdAndDepartmentIdAndIsActiveTrue`, as the id of the row. */
  function ActiveMembership(ms: map<int, MembershipRecord>, userId: int, departmentId: int): (r: Option<int>)
    requires OneRowPerMember(ms)
    ensures r.Some? <==> exists id :: IsMembership(ms, id, userId, departmentId) && ms[id].isActive
    ensures r.Some? ==> IsMembership(ms, r.value, userId, departmentId) && ms[r.value].isActive
  {
    if exists id :: id in ms && IsMembership(ms, id, userId, departmentId) && ms[id].isActive then
      var id :| id in ms && IsMembership(ms, id, userId, departmentId) && ms[id].isActive;
      Some(id)
    else None
  }

  /** The check of addUserToDepartment. */
  function AddCheck(ms: map<int, MembershipRecord>, userId: int, departmentId: int): (r: Result<Unit>)
    ensures r.Ok? <==> !MembershipExists(ms, userId, departmentId)
    ensures r.Err? ==> r.message == AlreadyInDepartment
  {
    if MembershipExists(ms, userId, departmentId) then Err(AlreadyInDepartment) else Ok(Unit)
  }

  /** The membership addUserToDepartment saves: active. */
  function NewMembership(id: int, userId: int, departmentId: int, role: DepartmentRole, jobTitle: Option<string>): (m: MembershipRecord)
    ensures m.id == id && m.userId == userId && m.departmentId == departmentId
    ensures m.role == role && m.jobTitle == jobTitle && m.isActive
  {
    MembershipRecord(id, userId, departmentId, role, jobTitle, true)
  }

  /** Adding a membership the check let through keeps one row per member. */
  lemma {:induction false} AddingKeepsOneRow(ms: map<int, MembershipRecord>, id: int, m: MembershipRecord)
    requires OneRowPerMember(ms) && id !in ms && !MembershipExists(ms, m.userId, m.departmentId)
    ensures OneRowPerMember(ms[id := m])
  {
    var n := ms[id := m];
    assert forall x :: x in ms ==> !(ms[x].userId == m.userId && ms[x].departmentId == m.departmentId);
    forall a, b | a in n && b in n && n[a].userId == n[b].userId && n[a].departmentId == n[b].departmentId
      ensures a == b
    {
      assert a != id ==> n[a] == ms[a];
      assert b != id ==> n[b] == ms[b];
    }
  }

  /** The memberships with the ids in `ids` deactivated, the rest as they were. */
  function DeactivatedAmong(ms: map<int, MembershipRecord>, ids: set<int>): (n: map<int, MembershipRecord>)
    ensures n.Keys == ms.Keys
    ensures forall id :: id in n ==> n[id] == (if id in ids then ms[id].(isActive := false) else ms[id])
  {
    map id | id in ms :: if id in ids then ms[id].(isActive := false) else ms[id]
  }

  /** Deactivates the memberships with the given ids, one at a time. */
  method DeactivateAll(memberships: Table<MembershipRecord>, ids: set<int>)
    requires memberships.Valid() && ids <= memberships.rows.Keys
    modifies memberships
    ensures memberships.Valid()
    ensures memberships.rows == DeactivatedAmong(old(memberships.rows), ids)
  {
    ghost var start := memberships.rows;
    var pending := ids;
    PartlyDeactivatedNone(start, ids);
    while exists m :: m in pending
      invariant memberships.Valid()
      invariant pending <= ids && ids <= start.Keys
      invariant memberships.rows == PartlyDeactivated(start, ids, pending)
      decreases |pending|
    {
      var m :| m in pending;
      PartlyDeactivatedStep(start, ids, pending, m);
      memberships.Update(m, memberships.rows[m].(isActive := false));
      pending := pending - {m};
    }
    PartlyDeactivatedAll(start, ids, pending);
  }

  /** The memberships with the ids in `ids` but not in `pending`
      deactivated. */
  function PartlyDeactivated(ms: map<int, MembershipRecord>, ids: set<int>, pending: set<int>): map<int, MembershipRecord>
  {
    map id | id in ms :: if id in ids && id !in pending then ms[id].(isActive := false) else ms[id]
  }

  /** With every id pending, nothing is deactivated yet. */
  lemma PartlyDeactivatedNone(ms: map<int, MembershipRecord>, ids: set<int>)
    ensures PartlyDeactivated(ms, ids, ids) == ms
  {
    var n := PartlyDeactivated(ms, ids, ids);
    assert n.Keys == ms.Keys;
    forall id | id in n
      ensures n[id] == ms[id]
    {
    }
  }

  /** Deactivating one more pending membership. */
  lemma PartlyDeactivatedStep(ms: map<int, MembershipRecord>, ids: set<int>, pending: set<int>, id: int)
    requires id in pending && pending <= ids && id in ms
    ensures id in PartlyDeactivated(ms, ids, pending) && PartlyDeactivated(ms, ids, pending)[id] == ms[id]
    ensures PartlyDeactivated(ms, ids, pending)[id := ms[id].(isActive := false)]
            == PartlyDeactivated(ms, ids, pending - {id})
  {
  }

  /** With nothing pending, every id is deactivated. */
  lemma PartlyDeactivatedAll(ms: map<int, MembershipRecord>, ids: set<int>, pending: set<int>)
    requires pending == {}
    ensures PartlyDeactivated(ms, ids, pending) == DeactivatedAmong(ms, ids)
  {
  }

  /** Deactivation changes no user, department or key, so it keeps one row
      per member. */
  lemma {:induction false} DeactivatingKeepsOneRow(ms: map<int, MembershipRecord>, ids: set<int>)
    requires OneRowPerMember(ms)
    ensures OneRowPerMember(DeactivatedAmong(ms, ids))
  {
    var n := DeactivatedAmong(ms, ids);
    forall a, b | a in n && b in n && n[a].userId == n[b].userId && n[a].departmentId == n[b].departmentId
      ensures a == b
    {
      assert n[a].userId == ms[a].userId && n[b].userId == ms[b].userId;
    }
  }

  /** removeUserFromDepartment as a function of the table: the active row,
      if any, deactivated. */
  function Removed(ms: map<int, MembershipRecord>, userId: int, departmentId: int): (n: map<int, MembershipRecord>)
    requires OneRowPerMember(ms)
    ensures n.Keys == ms.Keys
    ensures forall id :: id in ms && !(IsMembership(ms, id, userId, departmentId) && ms[id].isActive) ==> n[id] == ms[id]
    ensures forall id :: IsMembership(ms, id, userId, departmentId) ==> n[id] == ms[id].(isActive := false)
  {
    match ActiveMembership(ms, userId, departmentId)
    case None => ms
    case Some(id) => ms[id := ms[id].(isActive := false)]
  }

  /** Removal is idempotent, keeps one row per member, and leaves the row
      in place, so the same user can never be added back. */
  lemma {:induction false} RemovalLaws(ms: map<int, MembershipRecord>, userId: int, departmentId: int)
    requires OneRowPerMember(ms)
    ensures OneRowPerMember(Removed(ms, userId, departmentId))
    ensures Removed(Removed(ms, userId, departmentId), userId, departmentId) == Removed(ms, userId, departmentId)
    ensures MembershipExists(ms, userId, departmentId) ==> AddCheck(Removed(ms, userId, departmentId), userId, departmentId).Err?
  {
    var n := Removed(ms, userId, departmentId);
    match ActiveMembership(ms, userId, departmentId)
    case None =>
    case Some(id) =>
      assert n == DeactivatedAmong(ms, {id});
      DeactivatingKeepsOneRow(ms, {id});
      assert ActiveMembership(n, userId, departmentId).None?;
    if MembershipExists(ms, userId, departmentId) {
      var id :| IsMembership(ms, id, userId, departmentId);
      assert IsMembership(n, id, userId, departmentId);
    }
  }

  /** The department createDepartment saves: active. */
  function NewDepartment(id: int, name: string, description: Option<string>, companyId: int, head: Option<int>, parent: Option<int>): (d: DepartmentRecord)
    ensures d.id == id && d.name == name && d.description == description && d.companyId == companyId
    ensures d.headUserId == head && d.parentDepartmentId == parent && d.isActive
  {
    DepartmentRecord(id, name, description, companyId, head, parent, true)
  }

  /** The checks of createDepartment for the department that would get id
      `newId`: the name, then the head's membership. */
  function CreateCheck(depts: map<int, DepartmentRecord>, ms: map<int, MembershipRecord>, companyId: int, name: string,
                       head: Option<int>, newId: int): (r: Result<Unit>)
    ensures r.Ok? <==> !NameTaken(depts, companyId, name) && (head.None? || !MembershipExists(ms, head.value, newId))
    ensures NameTaken(depts, companyId, name) ==> r == Err(NameInUse)
    ensures r.Err? && !NameTaken(depts, companyId, name) ==> r == Err(AlreadyInDepartment)
  {
    if NameTaken(depts, companyId, name) then Err(NameInUse)
    else if head.Some? then AddCheck(ms, head.value, newId)
    else Ok(Unit)
  }

  /** Memberships refer to department ids already handed out. */
  predicate MembershipsOfIssuedIds(ms: map<int, MembershipRecord>, nextId: int)
  {
    forall id :: id in ms ==> ms[id].departmentId < nextId
  }

  /** When no membership names an id not yet issued, a new department's head
      is always accepted, and only the name can fail. addUserToDepartment
      does not check that the department exists, so this is not an
      invariant of the service. */
  lemma {:induction false} FreshDepartmentHasNoMembers(depts: map<int, DepartmentRecord>, ms: map<int, MembershipRecord>,
                                                       companyId: int, name: string, head: Option<int>, newId: int)
    requires MembershipsOfIssuedIds(ms, newId)
    ensures CreateCheck(depts, ms, companyId, name, head, newId).Ok? <==> !NameTaken(depts, companyId, name)
  {
    assert forall x :: x in ms ==> ms[x].departmentId != newId;
  }

  /** updateDepartment assigns a new head exactly when one is given and it
      differs from the current one. */
  predicate HeadChanges(d: DepartmentRecord, head: Option<int>)
  {
    head.Some? && head != d.headUserId
  }

  /** The memberships after updateDepartment's head change, before the new
      head's row is added: the old head's active row deactivated. */
  function WithoutOldHead(ms: map<int, MembershipRecord>, d: DepartmentRecord): (n: map<int, MembershipRecord>)
    requires OneRowPerMember(ms)
    ensures n.Keys == ms.Keys
    ensures OneRowPerMember(n)
  {
    if d.headUserId.Some? then
      RemovalLaws(ms, d.headUserId.value, d.id);
      Removed(ms, d.headUserId.value, d.id)
    else ms
  }

  /** The checks of updateDepartment: the department, a changed name already
      in use, and a new head that already has a row in the department. */
  function UpdateCheck(depts: map<int, DepartmentRecord>, ms: map<int, MembershipRecord>, id: int, name: string, head: Option<int>): (r: Result<Unit>)
    ensures id !in depts ==> r == Err(DepartmentNotFound)
    ensures id in depts && depts[id].name != name && NameTaken(depts, depts[id].companyId, name) ==> r == Err(NameInUse)
    ensures r.Ok? <==>
              id in depts && !(depts[id].name != name && NameTaken(depts, depts[id].companyId, name))
              && !(HeadChanges(depts[id], head) && MembershipExists(ms, head.value, id))
  {
    if id !in depts then Err(DepartmentNotFound)
    else if depts[id].name != name && NameTaken(depts, depts[id].companyId, name) then Err(NameInUse)
    else if HeadChanges(depts[id], head) then AddCheck(ms, head.value, id)
    else Ok(Unit)
  }

  /** Keeping the name never conflicts, even though names are compared
      against every department of the company. */
  lemma {:induction false} UnchangedNameNeverConflicts(depts: map<int, DepartmentRecord>, ms: map<int, MembershipRecord>, id: int, head: Option<int>)
    requires id in depts && !HeadChanges(depts[id], head)
    ensures UpdateCheck(depts, ms, id, depts[id].name, head).Ok?
  {
  }

  /** The ids of the active sub-departments of a department. */
  function ActiveChildren(depts: map<int, DepartmentRecord>, parentId: int): set<int>
  {
    set id | id in depts && depts[id].parentDepartmentId == Some(parentId) && depts[id].isActive
  }

  /** The ids of the active memberships of a department. */
  function ActiveMemberIds(ms: map<int, MembershipRecord>, departmentId: int): set<int>
  {
    set id | id in ms && ms[id].departmentId == departmentId && ms[id].isActive
  }

  /** The checks of deleteDepartment. */
  function DeleteCheck(depts: map<int, DepartmentRecord>, id: int): (r: Result<Unit>)
    ensures r.Ok? <==> id in depts && ActiveChildren(depts, id) == {}
    ensures id !in depts ==> r == Err(DepartmentNotFound)
    ensures id in depts && ActiveChildren(depts, id) != {} ==> r == Err(HasSubDepartments)
  {
    if id !in depts then Err(DepartmentNotFound)
    else if ActiveChildren(depts, id) != {} then Err(HasSubDepartments)
    else Ok(Unit)
  }

  /** After deletion the department has no active members. */
  lemma {:induction false} DeletionEmptiesDepartment(ms: map<int, MembershipRecord>, departmentId: int)
    ensures ActiveMemberIds(DeactivatedAmong(ms, ActiveMemberIds(ms, departmentId)), departmentId) == {}
    ensures forall id :: id in ms && ms[id].departmentId != departmentId ==>
              DeactivatedAmong(ms, ActiveMemberIds(ms, departmentId))[id] == ms[id]
  {
    var n := DeactivatedAmong(ms, ActiveMemberIds(ms, departmentId));
    forall id | id in n && n[id].departmentId == departmentId
      ensures !n[id].isActive
    {
    }
  }

  class DepartmentService {
    const departmentRepository: Table<DepartmentRecord>
    const userDepartmentRepository: Table<MembershipRecord>

    ghost predicate Valid()
      reads this, departmentRepository, userDepartmentRepository
    {
      departmentRepository.Valid() && userDepartmentRepository.Valid()
      && DepartmentsKeyedById(departmentRepository.rows) && MembershipsKeyedById(userDepartmentRepository.rows)
      && OneRowPerMember(userDepartmentRepository.rows)
    }

    constructor (departmentRepository: Table<DepartmentRecord>, userDepartmentRepository: Table<MembershipRecord>)
      requires departmentRepository.Valid() && userDepartmentRepository.Valid()
      requires DepartmentsKeyedById(departmentRepository.rows) && MembershipsKeyedById(userDepartmentRepository.rows)
      requires OneRowPerMember(userDepartmentRepository.rows)
      ensures Valid()
      ensures this.departmentRepository == departmentRepository && this.userDepartmentRepository == userDepartmentRepository
    {
      this.departmentRepository := departmentRepository;
      this.userDepartmentRepository := userDepartmentRepository;
    }

    /** addUserToDepartment; the department itself is not looked up. */
    method AddUserToDepartment(userId: int, departmentId: int, role: DepartmentRole, jobTitle: Option<string>)
      returns (r: Result<Unit>)
      requires Valid()
      modifies userDepartmentRepository
      ensures Valid()
      ensures r == AddCheck(old(userDepartmentRepository.rows), userId, departmentId)
      ensures r.Err? ==> userDepartmentRepository.rows == old(userDepartmentRepository.rows)
      ensures r.Ok? ==>
                var m := NewMembership(old(userDepartmentRepository.nextId), userId, departmentId, role, jobTitle);
                userDepartmentRepository.rows == old(userDepartmentRepository.rows)[m.id := m]
    {
      r := AddCheck(userDepartmentRepository.rows, userId, departmentId);
      if r.Err? {
        return;
      }
      var m := NewMembership(userDepartmentRepository.nextId, userId, departmentId, role, jobTitle);
      AddingKeepsOneRow(userDepartmentRepository.rows, m.id, m);
      var _ := userDepartmentRepository.Insert(m);
    }

    /** removeUserFromDepartment: a no-op without an active row. */
    method RemoveUserFromDepartment(userId: int, departmentId: int)
      requires Valid()
      modifies userDepartmentRepository
      ensures Valid()
      ensures userDepartmentRepository.rows == Removed(old(userDepartmentRepository.rows), userId, departmentId)
      ensures userDepartmentRepository.nextId == old(userDepartmentRepository.nextId)
    {
      RemovalLaws(userDepartmentRepository.rows, userId, departmentId);
      var found := ActiveMembership(userDepartmentRepository.rows, userId, departmentId);
      if found.Some? {
        var id := found.value;
        userDepartmentRepository.Update(id, userDepartmentRepository.rows[id].(isActive := false));
      }
    }

    /** createDepartment: a department with a head gets exactly one HEAD
        membership for it. */
    method CreateDepartment(name: string, description: Option<string>, companyId: int, head: Option<int>, parent: Option<int>)
      returns (r: Result<DepartmentDto>)
      requires Valid()
      modifies departmentRepository, userDepartmentRepository
      ensures Valid()
      ensures var check := CreateCheck(old(departmentRepository.rows), old(userDepartmentRepository.rows), companyId, name,
                                       head, old(departmentRepository.nextId));
              check.Err? ==>
                r == Err(check.message) && departmentRepository.rows == old(departmentRepository.rows)
                && userDepartmentRepository.rows == old(userDepartmentRepository.rows)
      ensures var check := CreateCheck(old(departmentRepository.rows), old(userDepartmentRepository.rows), companyId, name,
                                       head, old(departmentRepository.nextId));
              check.Ok? ==>
                var d := NewDepartment(old(departmentRepository.nextId), name, description, companyId, head, parent);
                departmentRepository.rows == old(departmentRepository.rows)[d.id := d] && r == Ok(FromEntity(d))
                && userDepartmentRepository.rows ==
                   (if head.Some?
                    then old(userDepartmentRepository.rows)[old(userDepartmentRepository.nextId) :=
                           NewMembership(old(userDepartmentRepository.nextId), head.value, d.id, Head, None)]
                    else old(userDepartmentRepository.rows))
    {
      var check := CreateCheck(departmentRepository.rows, userDepartmentRepository.rows, companyId, name, head, departmentRepository.nextId);
      if check.Err? {
        return Err(check.message);
      }
      var d := NewDepartment(departmentRepository.nextId, name, description, companyId, head, parent);
      var _ := departmentRepository.Insert(d);
      if head.Some? {
        var _ := AddUserToDepartment(head.value, d.id, Head, None);
      }
      r := Ok(FromEntity(d));
    }

    /** updateDepartment: the name and description always, and a changed
        head by deactivating the old head's row and adding a HEAD row. */
    method UpdateDepartment(id: int, name: string, description: Option<string>, head: Option<int>)
      returns (r: Result<DepartmentDto>)
      requires Valid()
      modifies departmentRepository, userDepartmentRepository
      ensures Valid()
      ensures var check := UpdateCheck(old(departmentRepository.rows), old(userDepartmentRepository.rows), id, name, head);
              check.Err? ==>
                r == Err(check.message) && departmentRepository.rows == old(departmentRepository.rows)
                && userDepartmentRepository.rows == old(userDepartmentRepository.rows)
      ensures var check := UpdateCheck(old(departmentRepository.rows), old(userDepartmentRepository.rows), id, name, head);
              check.Ok? ==>
                var d := old(departmentRepository.rows)[id];
                var n := d.(name := name, description := description,
                            headUserId := if HeadChanges(d, head) then head else d.headUserId);
                departmentRepository.rows == old(departmentRepository.rows)[id := n] && r == Ok(FromEntity(n))
                && userDepartmentRepository.rows ==
                   (if HeadChanges(d, head)
                    then WithoutOldHead(old(userDepartmentRepository.rows), d)[old(userDepartmentRepository.nextId) :=
                           NewMembership(old(userDepartmentRepository.nextId), head.value, id, Head, None)]
                    else old(userDepartmentRepository.rows))
    {
      var check := UpdateCheck(departmentRepository.rows, userDepartmentRepository.rows, id, name, head);
      if check.Err? {
        return Err(check.message);
      }
      var d := departmentRepository.rows[id];
      if HeadChanges(d, head) {
        ghost var before := userDepartmentRepository.rows;
        if d.headUserId.Some? {
          RemoveUserFromDepartment(d.headUserId.value, id);
        }
        assert userDepartmentRepository.rows == WithoutOldHead(before, d);
        assert forall x :: x in userDepartmentRepository.rows ==>
                 userDepartmentRepository.rows[x].userId == before[x].userId
                 && userDepartmentRepository.rows[x].departmentId == before[x].departmentId;
        var _ := AddUserToDepartment(head.value, id, Head, None);
      }
      var n := d.(name := name, description := description, headUserId := if HeadChanges(d, head) then head else d.headUserId);
      departmentRepository.Update(id, n);
      r := Ok(FromEntity(n));
    }

    /** deleteDepartment: every active membership deactivated, one at a
        time, then the department. */
    method DeleteDepartment(id: int) returns (r: Result<Unit>)
      requires Valid()
      modifies departmentRepository, userDepartmentRepository
      ensures Valid()
      ensures r == DeleteCheck(old(departmentRepository.rows), id)
      ensures r.Err? ==>
                departmentRepository.rows == old(departmentRepository.rows)
                && userDepartmentRepository.rows == old(userDepartmentRepository.rows)
      ensures r.Ok? ==>
                departmentRepository.rows == old(departmentRepository.rows)[id := old(departmentRepository.rows)[id].(isActive := false)]
                && userDepartmentRepository.rows
                   == DeactivatedAmong(old(userDepartmentRepository.rows), ActiveMemberIds(old(userDepartmentRepository.rows), id))
    {
      r := DeleteCheck(departmentRepository.rows, id);
      if r.Err? {
        return;
      }
      DeactivateMembers(id);
      departmentRepository.Update(id, departmentRepository.rows[id].(isActive := false));
    }

    /** The loop of deleteDepartment: each active membership of the
        department in turn deactivated. */
    method DeactivateMembers(departmentId: int)
      requires Valid()
      modifies userDepartmentRepository
      ensures Valid()
      ensures userDepartmentRepository.rows
              == DeactivatedAmong(old(userDepartmentRepository.rows), ActiveMemberIds(old(userDepartmentRepository.rows), departmentId))
    {
      ghost var start := userDepartmentRepository.rows;
      DeactivateAll(userDepartmentRepository, ActiveMemberIds(userDepartmentRepository.rows, departmentId));
      DeactivatingKeepsOneRow(start, ActiveMemberIds(start, departmentId));
    }

    /** getCompanyDepartments: the company's active departments. */
    function GetCompanyDepartments(companyId: int): (ds: set<DepartmentDto>)
      reads this, departmentRepository
      ensures forall id :: (id in departmentRepository.rows && departmentRepository.rows[id].companyId == companyId
                            && departmentRepository.rows[id].isActive) ==> FromEntity(departmentRepository.rows[id]) in ds
      ensures forall d :: d in ds ==> d.companyId == companyId && d.isActive
      ensures forall d :: d in ds ==>
                exists id :: id in departmentRepository.rows && departmentRepository.rows[id].companyId == companyId
                             && departmentRepository.rows[id].isActive && d == FromEntity(departmentRepository.rows[id])
    {
      set id | id in departmentRepository.rows && departmentRepository.rows[id].companyId == companyId
               && departmentRepository.rows[id].isActive :: FromEntity(departmentRepository.rows[id])
    }

    /** getRootDepartments: the company's active departments without a parent. */
    function GetRootDepartments(companyId: int): (ds: set<DepartmentDto>)
      reads this, departmentRepository
      ensures forall id :: id in departmentRepository.rows && departmentRepository.rows[id].companyId == companyId
                           && departmentRepository.rows[id].parentDepartmentId.None? && departmentRepository.rows[id].isActive ==>
                FromEntity(departmentRepository.rows[id]) in ds
      ensures forall d :: d in ds ==> d.companyId == companyId && d.parentDepartmentId.None? && d.isActive
      ensures forall d :: d in ds ==>
                exists id :: id in departmentRepository.rows && departmentRepository.rows[id].companyId == companyId
                             && departmentRepository.rows[id].parentDepartmentId.None? && departmentRepository.rows[id].isActive
                             && d == FromEntity(departmentRepository.rows[id])
    {
      set id | id in departmentRepository.rows && departmentRepository.rows[id].companyId == companyId
               && departmentRepository.rows[id].parentDepartmentId.None? && departmentRepository.rows[id].isActive
             :: FromEntity(departmentRepository.rows[id])
    }

    /** getSubDepartments: the active children. */
    function GetSubDepartments(parentId: int): (ds: set<DepartmentDto>)
      reads this, departmentRepository
      ensures forall id :: id in ActiveChildren(departmentRepository.rows, parentId) ==> FromEntity(departmentRepository.rows[id]) in ds
      ensures forall d :: d in ds ==> d.parentDepartmentId == Some(parentId) && d.isActive
      ensures forall d :: d in ds ==>
                exists id :: id in ActiveChildren(departmentRepository.rows, parentId) && d == FromEntity(departmentRepository.rows[id])
      ensures ds == {} <==> ActiveChildren(departmentRepository.rows, parentId) == {}
    {
      set id | id in ActiveChildren(departmentRepository.rows, parentId) :: FromEntity(departmentRepository.rows[id])
    }

    /** getDepartmentById, active or not. */
    function GetDepartmentById(id: int): (d: Option<DepartmentDto>)
      reads this, departmentRepository
      ensures d.Some? <==> id in departmentRepository.rows
      ensures d.Some? ==> d.value == FromEntity(departmentRepository.rows[id])
    {
      if id in departmentRepository.rows then Some(FromEntity(departmentRepository.rows[id])) else None
    }

    /** getDepartmentMembers: the active rows of a department. */
    function GetDepartmentMembers(departmentId: int): (ms: set<MembershipRecord>)
      reads this, userDepartmentRepository
      ensures forall m :: m in ms <==> m in userDepartmentRepository.rows.Values && m.departmentId == departmentId && m.isActive
    {
      set m | m in userDepartmentRepository.rows.Values && m.departmentId == departmentId && m.isActive
    }

    /** getUserDepartments: the active rows of a user. */
    function GetUserDepartments(userId: int): (ms: set<MembershipRecord>)
      reads this, userDepartmentRepository
      ensures forall m :: m in ms <==> m in userDepartmentRepository.rows.Values && m.userId == userId && m.isActive
    {
      set m | m in userDepartmentRepository.rows.Values && m.userId == userId && m.isActive
    }

    /** getDepartmentMemberCount. */
    function GetDepartmentMemberCount(departmentId: int): (n: nat)
      reads this, userDepartmentRepository
      ensures n == |ActiveMemberIds(userDepartmentRepository.rows, departmentId)|
    {
      |ActiveMemberIds(userDepartmentRepository.rows, departmentId)|
    }
  }
}
