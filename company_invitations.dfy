// CompanyInvitationService: inviting an address into a company, accepting
// the invitation by its token, cancelling it and expiring the overdue ones.
// The service is transactional as a whole, so an operation that throws
// leaves every table as it found it.

module CompanyInvitations {
  import opened Common
  import opened Tables
  import opened Users

  datatype InvitationStatus = Pending | Accepted | Expired | Cancelled

  /** An invitation row; times are minutes. */
  datatype InvitationRecord = InvitationRecord(
    id: int,
    companyId: int,
    email: string,
    invitedByUserId: int,
    departmentId: Option<int>,
    status: InvitationStatus,
    invitationToken: string,
    expiresAt: int,
    acceptedAt: Option<int>,
    createdAt: int)

  /** CompanyInvitationDTO; the three display names are never filled in. */
  datatype InvitationDto = InvitationDto(
    id: int,
    companyId: int,
    companyName: Option<string>,
    email: string,
    invitedByUserId: int,
    invitedByUserName: Option<string>,
    departmentId: Option<int>,
    departmentName: Option<string>,
    status: InvitationStatus,
    expiresAt: int,
    acceptedAt: Option<int>,
    createdAt: int)

  const AlreadyInvited := "User already has a pending invitation for this company"
  const AlreadyMember := "User is already part of this company"
  const InvalidToken := "Invalid invitation token"
  const NoLongerValid := "Invitation is no longer valid"
  const HasExpired := "Invitation has expired"
  const UserNotFound := "User not found"
  const EmailMismatch := "Email mismatch"
  const InvitationNotFound := "Invitation not found"
  const OnlyPendingCancel := "Can only cancel pending invitations"

  /** How long an invitation stays open, in days. */
  const ExpiryDays := 7

  /** CompanyInvitationDTO.fromEntity. */
  function FromEntity(i: InvitationRecord): (d: InvitationDto)
    ensures d.id == i.id && d.companyId == i.companyId && d.email == i.email
    ensures d.invitedByUserId == i.invitedByUserId && d.departmentId == i.departmentId && d.status == i.status
    ensures d.expiresAt == i.expiresAt && d.acceptedAt == i.acceptedAt && d.createdAt == i.createdAt
    ensures d.companyName.None? && d.invitedByUserName.None? && d.departmentName.None?
  {
    InvitationDto(i.id, i.companyId, None, i.email, i.invitedByUserId, None, i.departmentId, None,
                  i.status, i.expiresAt, i.acceptedAt, i.createdAt)
  }

  predicate InvitationsKeyedById(invs: map<int, InvitationRecord>)
  {
    forall id :: id in invs ==> invs[id].id == id
  }

  /** The token column is unique. */
  predicate UniqueTokens(invs: map<int, InvitationRecord>)
  {
    forall a, b :: a in invs && b in invs && invs[a].invitationToken == invs[b].invitationToken ==> a == b
  }

  predicate TokenInUse(invs: map<int, InvitationRecord>, token: string)
  {
    exists id :: id in invs && invs[id].invitationToken == token
  }

  /** `existsByEmailAndCompanyIdAndStatus(email, companyId, PENDING)`. */
  predicate PendingFor(invs: map<int, InvitationRecord>, email: string, companyId: int)
  {
    exists id :: id in invs && invs[id].status == Pending && invs[id].email == email && invs[id].companyId == companyId
  }

  /** The invariant createInvitation keeps: at most one pending invitation
      per address and company. */
  predicate OnePendingPerInvitee(invs: map<int, InvitationRecord>)
  {
    forall a, b :: (a in invs && b in invs && invs[a].status == Pending && invs[b].status == Pending
                    && invs[a].email == invs[b].email && invs[a].companyId == invs[b].companyId) ==> a == b
  }

  /** Some user with that address belongs to the company: the source's
      `findByEmail` followed by the company comparison. The service's
      invariant does not require unique addresses; when they are unique the
      two readings agree. */
  predicate MemberByEmail(users: map<int, UserRecord>, email: string, companyId: int)
  {
    exists id :: id in users && users[id].email == email && users[id].companyId == Some(companyId)
  }

  /** `findByInvitationToken`, as the id of the row. */
  function InvitationByToken(invs: map<int, InvitationRecord>, token: string): (r: Option<int>)
    requires UniqueTokens(invs)
    ensures r.Some? <==> TokenInUse(invs, token)
    ensures r.Some? ==> r.value in invs && invs[r.value].invitationToken == token
    ensures forall id :: id in invs && invs[id].invitationToken == token ==> r == Some(id)
  {
    if exists id :: id in invs && invs[id].invitationToken == token then
      var id :| id in invs && invs[id].invitationToken == token;
      Some(id)
    else None
  }

  /** The checks of createInvitation, in the source's order. */
  function CreateCheck(invs: map<int, InvitationRecord>, users: map<int, UserRecord>, email: string, companyId: int): (r: Result<Unit>)
    ensures r.Ok? <==> !PendingFor(invs, email, companyId) && !MemberByEmail(users, email, companyId)
    ensures PendingFor(invs, email, companyId) ==> r == Err(AlreadyInvited)
    ensures !PendingFor(invs, email, companyId) && MemberByEmail(users, email, companyId) ==> r == Err(AlreadyMember)
  {
    if PendingFor(invs, email, companyId) then Err(AlreadyInvited)
    else if MemberByEmail(users, email, companyId) then Err(AlreadyMember)
    else Ok(Unit)
  }

  /** The invitation createInvitation saves: pending, expiring a week later. */
  function NewInvitation(id: int, companyId: int, email: string, invitedBy: int, departmentId: Option<int>,
                         token: string, now: int): (i: InvitationRecord)
    ensures i.id == id && i.companyId == companyId && i.email == email && i.invitedByUserId == invitedBy
    ensures i.departmentId == departmentId && i.invitationToken == token && i.status == Pending
    ensures i.expiresAt == now + ExpiryDays * MinutesPerDay && i.acceptedAt.None? && i.createdAt == now
  {
    InvitationRecord(id, companyId, email, invitedBy, departmentId, Pending, token, PlusDays(now, ExpiryDays), None, now)
  }

  /** A new pending invitation keeps the invariants when the address has no
      pending one for that company and the token is fresh. */
  lemma {:induction false} CreatingKeepsInvariants(invs: map<int, InvitationRecord>, id: int, i: InvitationRecord)
    requires UniqueTokens(invs) && OnePendingPerInvitee(invs) && id !in invs
    requires !PendingFor(invs, i.email, i.companyId) && !TokenInUse(invs, i.invitationToken)
    ensures UniqueTokens(invs[id := i]) && OnePendingPerInvitee(invs[id := i])
  {
    var m := invs[id := i];
    forall a, b | a in m && b in m && m[a].invitationToken == m[b].invitationToken
      ensures a == b
    {
      assert a != id ==> m[a] == invs[a];
      assert b != id ==> m[b] == invs[b];
    }
    forall a, b | a in m && b in m && m[a].status == Pending && m[b].status == Pending
                  && m[a].email == m[b].email && m[a].companyId == m[b].companyId
      ensures a == b
    {
      assert a != id ==> m[a] == invs[a];
      assert b != id ==> m[b] == invs[b];
    }
  }

  /** Moving an invitation out of PENDING, token untouched, keeps the
      invariants. */
  lemma {:induction false} SettlingKeepsInvariants(invs: map<int, InvitationRecord>, id: int, status: InvitationStatus, acceptedAt: Option<int>)
    requires UniqueTokens(invs) && OnePendingPerInvitee(invs) && id in invs && status != Pending
    ensures var m := invs[id := invs[id].(status := status, acceptedAt := acceptedAt)];
            UniqueTokens(m) && OnePendingPerInvitee(m)
  {
    var m := invs[id := invs[id].(status := status, acceptedAt := acceptedAt)];
    forall a, b | a in m && b in m && m[a].invitationToken == m[b].invitationToken
      ensures a == b
    {
      assert m[a].invitationToken == invs[a].invitationToken;
      assert m[b].invitationToken == invs[b].invitationToken;
    }
    forall a, b | a in m && b in m && m[a].status == Pending && m[b].status == Pending
                  && m[a].email == m[b].email && m[a].companyId == m[b].companyId
      ensures a == b
    {
      assert m[a] == invs[a] && m[b] == invs[b];
    }
  }

  /** The checks of acceptInvitation, in the source's order; on success the
      id of the invitation. */
  function AcceptCheck(invs: map<int, InvitationRecord>, users: map<int, UserRecord>, token: string, userId: int, now: int): (r: Result<int>)
    requires UniqueTokens(invs)
    ensures !TokenInUse(invs, token) ==> r == Err(InvalidToken)
    ensures r.Ok? <==>
              TokenInUse(invs, token)
              && var i := invs[InvitationByToken(invs, token).value];
                 i.status == Pending && !(i.expiresAt < now) && userId in users && users[userId].email == i.email
    ensures r.Ok? ==> r.value in invs && invs[r.value].invitationToken == token && invs[r.value].status == Pending
    ensures TokenInUse(invs, token) && invs[InvitationByToken(invs, token).value].status != Pending ==>
              r == Err(NoLongerValid)
    ensures (TokenInUse(invs, token) && invs[InvitationByToken(invs, token).value].status == Pending
             && invs[InvitationByToken(invs, token).value].expiresAt < now) ==> r == Err(HasExpired)
  {
    match InvitationByToken(invs, token)
    case None => Err(InvalidToken)
    case Some(id) =>
      var i := invs[id];
      if i.status != Pending then Err(NoLongerValid)
      else if i.expiresAt < now then Err(HasExpired)
      else if userId !in users then Err(UserNotFound)
      else if users[userId].email != i.email then Err(EmailMismatch)
      else Ok(id)
  }

  /** The checks of cancelInvitation. */
  function CancelCheck(invs: map<int, InvitationRecord>, id: int): (r: Result<Unit>)
    ensures r.Ok? <==> id in invs && invs[id].status == Pending
    ensures id !in invs ==> r == Err(InvitationNotFound)
    ensures id in invs && invs[id].status != Pending ==> r == Err(OnlyPendingCancel)
  {
    if id !in invs then Err(InvitationNotFound)
    else if invs[id].status != Pending then Err(OnlyPendingCancel)
    else Ok(Unit)
  }

  /** `findExpiredInvitations(now)`: pending and expired strictly before now. */
  predicate Overdue(i: InvitationRecord, now: int)
  {
    i.status == Pending && i.expiresAt < now
  }

  function OverdueIds(invs: map<int, InvitationRecord>, now: int): set<int>
  {
    set id | id in invs && Overdue(invs[id], now)
  }

  /** The invitations with the ids in `ids` marked EXPIRED, the rest as they were. */
  function ExpiredAmong(invs: map<int, InvitationRecord>, ids: set<int>): (m: map<int, InvitationRecord>)
    ensures m.Keys == invs.Keys
    ensures forall id :: id in m ==> m[id] == (if id in ids then invs[id].(status := Expired) else invs[id])
  {
    map id | id in invs :: if id in ids then invs[id].(status := Expired) else invs[id]
  }

  /** expireOldInvitations as a function of the table. */
  function ExpireAll(invs: map<int, InvitationRecord>, now: int): (m: map<int, InvitationRecord>)
    ensures m.Keys == invs.Keys
    ensures forall id :: id in invs ==> m[id].status == (if Overdue(invs[id], now) then Expired else invs[id].status)
  {
    ExpiredAmong(invs, OverdueIds(invs, now))
  }

  /** Expiry marks exactly the overdue invitations, changes nothing else,
      leaves none overdue, and a second run changes nothing. */
  lemma {:induction false} ExpiryLaws(invs: map<int, InvitationRecord>, now: int)
    ensures var m := ExpireAll(invs, now);
            m.Keys == invs.Keys
            && (forall id :: id in invs && Overdue(invs[id], now) ==> m[id] == invs[id].(status := Expired))
            && (forall id :: id in invs && !Overdue(invs[id], now) ==> m[id] == invs[id])
            && OverdueIds(m, now) == {}
            && ExpireAll(m, now) == m
  {
    var m := ExpireAll(invs, now);
    assert OverdueIds(m, now) == {} by {
      forall id | id in m
        ensures !Overdue(m[id], now)
      {
      }
    }
    assert ExpiredAmong(m, {}) == m;
  }

  /** Marks the overdue invitations of the table EXPIRED, one at a time. */
  method ExpireOverdue(invitations: Table<InvitationRecord>, now: int)
    requires invitations.Valid()
    modifies invitations
    ensures invitations.Valid() && invitations.nextId == old(invitations.nextId)
    ensures invitations.rows == ExpireAll(old(invitations.rows), now)
  {
    ghost var start := invitations.rows;
    var overdue := OverdueIds(invitations.rows, now);
    var pending := overdue;
    PartlyExpiredNone(start, overdue);
    while exists id :: id in pending
      invariant invitations.Valid() && invitations.nextId == old(invitations.nextId)
      invariant pending <= overdue && overdue <= start.Keys
      invariant invitations.rows == PartlyExpired(start, overdue, pending)
      decreases |pending|
    {
      var id :| id in pending;
      PartlyExpiredStep(start, overdue, pending, id);
      invitations.Update(id, invitations.rows[id].(status := Expired));
      pending := pending - {id};
    }
    PartlyExpiredAll(start, overdue, pending);
  }

  /** The invitations with the ids in `ids` but not in `pending` marked
      EXPIRED. */
  function PartlyExpired(invs: map<int, InvitationRecord>, ids: set<int>, pending: set<int>): map<int, InvitationRecord>
  {
    map id | id in invs :: if id in ids && id !in pending then invs[id].(status := Expired) else invs[id]
  }

  /** With every id pending, nothing is expired yet. */
  lemma PartlyExpiredNone(invs: map<int, InvitationRecord>, ids: set<int>)
    ensures PartlyExpired(invs, ids, ids) == invs
  {
    var m := PartlyExpired(invs, ids, ids);
    assert m.Keys == invs.Keys;
    forall id | id in m
      ensures m[id] == invs[id]
    {
    }
  }

  /** Expiring one more pending invitation. */
  lemma PartlyExpiredStep(invs: map<int, InvitationRecord>, ids: set<int>, pending: set<int>, id: int)
    requires id in pending && pending <= ids && id in invs
    ensures id in PartlyExpired(invs, ids, pending) && PartlyExpired(invs, ids, pending)[id] == invs[id]
    ensures PartlyExpired(invs, ids, pending)[id := invs[id].(status := Expired)]
            == PartlyExpired(invs, ids, pending - {id})
  {
  }

  /** With nothing pending, every id is expired. */
  lemma PartlyExpiredAll(invs: map<int, InvitationRecord>, ids: set<int>, pending: set<int>)
    requires pending == {}
    ensures PartlyExpired(invs, ids, pending) == ExpiredAmong(invs, ids)
  {
  }

  /** Expiry only takes invitations out of PENDING, so it keeps the invariants. */
  lemma {:induction false} ExpiringKeepsInvariants(invs: map<int, InvitationRecord>, ids: set<int>)
    requires UniqueTokens(invs) && OnePendingPerInvitee(invs)
    ensures UniqueTokens(ExpiredAmong(invs, ids)) && OnePendingPerInvitee(ExpiredAmong(invs, ids))
  {
    var m := ExpiredAmong(invs, ids);
    forall a, b | a in m && b in m && m[a].invitationToken == m[b].invitationToken
      ensures a == b
    {
      assert m[a].invitationToken == invs[a].invitationToken;
      assert m[b].invitationToken == invs[b].invitationToken;
    }
    forall a, b | a in m && b in m && m[a].status == Pending && m[b].status == Pending
                  && m[a].email == m[b].email && m[a].companyId == m[b].companyId
      ensures a == b
    {
      assert m[a] == invs[a] && m[b] == invs[b];
    }
  }

  /** Only PENDING changes status: an invitation accepted, expired or
      cancelled is rejected by both accept and cancel. */
  lemma {:induction false} SettledIsTerminal(invs: map<int, InvitationRecord>, users: map<int, UserRecord>, id: int, userId: int, now: int)
    requires UniqueTokens(invs) && id in invs && invs[id].status != Pending
    ensures AcceptCheck(invs, users, invs[id].invitationToken, userId, now) == Err(NoLongerValid)
    ensures CancelCheck(invs, id) == Err(OnlyPendingCancel)
    ensures ExpireAll(invs, now)[id] == invs[id]
  {
  }

  class CompanyInvitationService {
    const invitationRepository: Table<InvitationRecord>
    const userRepository: Table<UserRecord>

    ghost predicate Valid()
      reads this, invitationRepository, userRepository
    {
      invitationRepository.Valid() && userRepository.Valid()
      && InvitationsKeyedById(invitationRepository.rows) && UsersKeyedById(userRepository.rows)
      && UniqueTokens(invitationRepository.rows) && OnePendingPerInvitee(invitationRepository.rows)
    }

    constructor (invitationRepository: Table<InvitationRecord>, userRepository: Table<UserRecord>)
      requires invitationRepository.Valid() && userRepository.Valid()
      requires InvitationsKeyedById(invitationRepository.rows) && UsersKeyedById(userRepository.rows)
      requires UniqueTokens(invitationRepository.rows) && OnePendingPerInvitee(invitationRepository.rows)
      ensures Valid()
      ensures this.invitationRepository == invitationRepository && this.userRepository == userRepository
    {
      this.invitationRepository := invitationRepository;
      this.userRepository := userRepository;
    }

    /** createInvitation; `token` is the random UUID drawn for it. */
    method CreateInvitation(companyId: int, email: string, invitedBy: int, departmentId: Option<int>, token: string, now: int)
      returns (r: Result<InvitationDto>)
      requires Valid()
      requires !TokenInUse(invitationRepository.rows, token)
      modifies invitationRepository
      ensures Valid()
      ensures var check := CreateCheck(old(invitationRepository.rows), userRepository.rows, email, companyId);
              check.Err? ==> r == Err(check.message) && invitationRepository.rows == old(invitationRepository.rows)
      ensures var check := CreateCheck(old(invitationRepository.rows), userRepository.rows, email, companyId);
              check.Ok? ==>
                var i := NewInvitation(old(invitationRepository.nextId), companyId, email, invitedBy, departmentId, token, now);
                invitationRepository.rows == old(invitationRepository.rows)[i.id := i] && r == Ok(FromEntity(i))
    {
      var check := CreateCheck(invitationRepository.rows, userRepository.rows, email, companyId);
      if check.Err? {
        return Err(check.message);
      }
      var i := NewInvitation(invitationRepository.nextId, companyId, email, invitedBy, departmentId, token, now);
      CreatingKeepsInvariants(invitationRepository.rows, i.id, i);
      var _ := invitationRepository.Insert(i);
      r := Ok(FromEntity(i));
    }

    /** getCompanyInvitations: a null status means every status. */
    function GetCompanyInvitations(companyId: int, status: Option<InvitationStatus>): (ds: set<InvitationDto>)
      reads this, invitationRepository
      ensures forall id :: id in invitationRepository.rows && invitationRepository.rows[id].companyId == companyId
                           && (status.None? || invitationRepository.rows[id].status == status.value) ==>
                FromEntity(invitationRepository.rows[id]) in ds
      ensures forall d :: d in ds ==> d.companyId == companyId && (status.None? || d.status == status.value)
      ensures forall d :: d in ds ==>
                exists id :: id in invitationRepository.rows && invitationRepository.rows[id].companyId == companyId
                             && (status.None? || invitationRepository.rows[id].status == status.value)
                             && d == FromEntity(invitationRepository.rows[id])
    {
      set id | id in invitationRepository.rows && invitationRepository.rows[id].companyId == companyId
               && (status.None? || invitationRepository.rows[id].status == status.value)
             :: FromEntity(invitationRepository.rows[id])
    }

    /** getUserInvitations: a derived query compares a null status with IS
        NULL, and no stored status is null, so a null status finds nothing. */
    function GetUserInvitations(email: string, status: Option<InvitationStatus>): (ds: set<InvitationDto>)
      reads this, invitationRepository
      ensures status.None? ==> ds == {}
      ensures status.Some? ==>
                forall id :: id in invitationRepository.rows && invitationRepository.rows[id].email == email
                             && invitationRepository.rows[id].status == status.value ==>
                  FromEntity(invitationRepository.rows[id]) in ds
      ensures forall d :: d in ds ==> d.email == email && status == Some(d.status)
      ensures forall d :: d in ds ==>
                exists id :: id in invitationRepository.rows && invitationRepository.rows[id].email == email
                             && Some(invitationRepository.rows[id].status) == status
                             && d == FromEntity(invitationRepository.rows[id])
    {
      if status.None? then {}
      else
        set id | id in invitationRepository.rows && invitationRepository.rows[id].email == email
                 && invitationRepository.rows[id].status == status.value
               :: FromEntity(invitationRepository.rows[id])
    }

    /** acceptInvitation: the user joins the invitation's company and the
        invitation becomes ACCEPTED; every failure leaves both tables as
        they were, the EXPIRED write before "Invitation has expired"
        included, because the transaction rolls back. */
    method AcceptInvitation(token: string, userId: int, now: int) returns (r: Result<InvitationDto>)
      requires Valid()
      modifies invitationRepository, userRepository
      ensures Valid()
      ensures var check := AcceptCheck(old(invitationRepository.rows), old(userRepository.rows), token, userId, now);
              check.Err? ==>
                r == Err(check.message)
                && invitationRepository.rows == old(invitationRepository.rows) && userRepository.rows == old(userRepository.rows)
      ensures var check := AcceptCheck(old(invitationRepository.rows), old(userRepository.rows), token, userId, now);
              check.Ok? ==>
                var i := old(invitationRepository.rows)[check.value];
                var n := i.(status := Accepted, acceptedAt := Some(now));
                userRepository.rows == old(userRepository.rows)[userId := old(userRepository.rows)[userId].(companyId := Some(i.companyId))]
                && invitationRepository.rows == old(invitationRepository.rows)[i.id := n]
                && r == Ok(FromEntity(n))
    {
      var check := AcceptCheck(invitationRepository.rows, userRepository.rows, token, userId, now);
      if check.Err? {
        return Err(check.message);
      }
      var i := invitationRepository.rows[check.value];
      userRepository.Update(userId, userRepository.rows[userId].(companyId := Some(i.companyId)));
      var n := i.(status := Accepted, acceptedAt := Some(now));
      SettlingKeepsInvariants(invitationRepository.rows, i.id, Accepted, Some(now));
      invitationRepository.Update(i.id, n);
      r := Ok(FromEntity(n));
    }

    /** cancelInvitation: PENDING becomes CANCELLED. */
    method CancelInvitation(invitationId: int) returns (r: Result<Unit>)
      requires Valid()
      modifies invitationRepository
      ensures Valid()
      ensures var check := CancelCheck(old(invitationRepository.rows), invitationId);
              check.Err? ==> r == check && invitationRepository.rows == old(invitationRepository.rows)
      ensures var check := CancelCheck(old(invitationRepository.rows), invitationId);
              check.Ok? ==>
                r == Ok(Unit)
                && invitationRepository.rows
                   == old(invitationRepository.rows)[invitationId := old(invitationRepository.rows)[invitationId].(status := Cancelled)]
    {
      r := CancelCheck(invitationRepository.rows, invitationId);
      if r.Err? {
        return;
      }
      var i := invitationRepository.rows[invitationId];
      SettlingKeepsInvariants(invitationRepository.rows, invitationId, Cancelled, i.acceptedAt);
      invitationRepository.Update(invitationId, i.(status := Cancelled));
    }

    /** expireOldInvitations: each overdue invitation in turn becomes EXPIRED. */
    method ExpireOldInvitations(now: int)
      requires Valid()
      modifies invitationRepository
      ensures Valid()
      ensures invitationRepository.rows == ExpireAll(old(invitationRepository.rows), now)
    {
      ghost var start := invitationRepository.rows;
      ExpireOverdue(invitationRepository, now);
      ExpiringKeepsInvariants(start, OverdueIds(start, now));
    }

    /** getInvitationByToken. */
    function GetInvitationByToken(token: string): (d: Option<InvitationDto>)
      requires Valid()
      reads this, invitationRepository, userRepository
      ensures d.Some? <==> TokenInUse(invitationRepository.rows, token)
      ensures d.Some? ==> d.value.id in invitationRepository.rows
                          && d.value.status == invitationRepository.rows[d.value.id].status
                          && invitationRepository.rows[d.value.id].invitationToken == token
                          && d.value == FromEntity(invitationRepository.rows[d.value.id])
    {
      match InvitationByToken(invitationRepository.rows, token)
      case None => None
      case Some(id) => Some(FromEntity(invitationRepository.rows[id]))
    }

    /** getPendingInvitationCount. */
    function GetPendingInvitationCount(companyId: int): (n: nat)
      reads this, invitationRepository
      ensures n == |set id | id in invitationRepository.rows && invitationRepository.rows[id].companyId == companyId
                                && invitationRepository.rows[id].status == Pending|
    {
      |set id | id in invitationRepository.rows && invitationRepository.rows[id].companyId == companyId
                && invitationRepository.rows[id].status == Pending|
    }
  }
}
