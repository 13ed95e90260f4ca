// The subscription service: creating a company's subscription with a trial,
// changing its plan, cancelling (now or at the end of the period),
// reactivating, renewing, and the upgrade rule. The company's tier follows
// the plan on creation and plan change and drops to FREE on an immediate
// cancellation.

module SubscriptionService {
  import opened Common
  import opened Tables
  import opened Companies
  import opened Subscriptions
  import opened SubscriptionDtos

  /** Every subscription is stored under its own id. */
  predicate SubscriptionsKeyedById(rows: map<int, SubscriptionRecord>)
  {
    forall id :: id in rows ==> rows[id].id == id
  }

  /** The rows findActiveByCompanyId selects: that company's ACTIVE or
      TRIALING subscriptions. */
  function ActiveIds(rows: map<int, SubscriptionRecord>, companyId: int): set<int>
  {
    set id | id in rows && rows[id].companyId == companyId && IsActive(rows[id])
  }

  /** A company has at most one active subscription, which is what the
      Optional result of findActiveByCompanyId presumes. */
  predicate AtMostOneActivePerCompany(rows: map<int, SubscriptionRecord>)
  {
    forall a, b :: (a in rows && b in rows && rows[a].companyId == rows[b].companyId
                    && IsActive(rows[a]) && IsActive(rows[b])) ==> a == b
  }

  /** The message of the exception a single-result query throws when more
      than one row matches. */
  const NonUniqueResult: string := "Query did not return a unique result"

  /** `Company.SubscriptionTier.valueOf(planType.name())`. */
  function TierOf(p: PlanType): (t: SubscriptionTier)
    ensures p == FreePlan <==> t == FreeTier
  {
    match p
    case FreePlan => FreeTier
    case BasicPlan => BasicTier
    case PremiumPlan => PremiumTier
    case EnterprisePlan => EnterpriseTier
  }

  /** Every plan has its own tier. */
  lemma {:induction false} TierOfIsInjective(a: PlanType, b: PlanType)
    ensures TierOf(a) == TierOf(b) ==> a == b
  {
    match a
    case FreePlan =>
    case BasicPlan =>
    case PremiumPlan =>
    case EnterprisePlan =>
  }

  /** The end of a billing period that starts at `start`. */
  function PeriodEnd(start: int, cycle: BillingCycle): int
  {
    if cycle == Monthly then PlusMonths(start, 1) else PlusYears(start, 1)
  }

  /** The subscription createSubscription saves: in trial for fourteen days,
      its first period starting now, charged the plan's amount. */
  function Created(id: int, companyId: int, plan: PlanType, cycle: BillingCycle, now: int): (s: SubscriptionRecord)
    ensures s.id == id && s.companyId == companyId && s.planType == plan && s.billingCycle == cycle
    ensures s.status == Trialing && IsActive(s) && !IsCanceled(s)
    ensures s.trialStart == Some(now) && s.trialEnd == Some(PlusDays(now, TrialDays)) && IsTrialActive(s, now)
    ensures s.currentPeriodStart == now && s.currentPeriodEnd == PeriodEnd(now, cycle)
    ensures s.amount == PlanAmount(plan, cycle) && s.currency == "USD"
    ensures NextBillingDate(s) == Some(PeriodEnd(now, cycle))
  {
    Fresh(companyId, plan, Trialing, cycle, now, PeriodEnd(now, cycle), Some(now), Some(PlusDays(now, TrialDays)),
          PlanAmount(plan, cycle)).(id := id)
  }

  /** The subscription after updateSubscriptionPlan: the new plan, charged
      at its amount for the same billing cycle. */
  function Replanned(s: SubscriptionRecord, plan: PlanType): (n: SubscriptionRecord)
    ensures n.planType == plan && n.amount == PlanAmount(plan, s.billingCycle)
    ensures n.(planType := s.planType, amount := s.amount) == s
  {
    s.(planType := plan, amount := PlanAmount(plan, s.billingCycle))
  }

  /** The subscription after cancelSubscription. */
  function Canceled(s: SubscriptionRecord, atPeriodEnd: bool, now: int): SubscriptionRecord
  {
    if atPeriodEnd then s.(cancelAtPeriodEnd := true)
    else s.(status := CanceledStatus, canceledAt := Some(now), endedAt := Some(now))
  }

  /** A cancellation at the end of the period only raises the flag: the
      subscription stays in its status and is still billed at the period end.
      An immediate one ends it: it is no longer active and has no next
      billing date. Either way it counts as canceled. */
  lemma {:induction false} CancelEffects(s: SubscriptionRecord, now: int)
    ensures IsCanceled(Canceled(s, true, now)) && IsCanceled(Canceled(s, false, now))
    ensures Canceled(s, true, now).status == s.status && IsActive(Canceled(s, true, now)) == IsActive(s)
    ensures NextBillingDate(Canceled(s, true, now)) == Some(s.currentPeriodEnd)
    ensures !IsActive(Canceled(s, false, now))
    ensures NextBillingDate(Canceled(s, false, now)).None? <==> !s.cancelAtPeriodEnd
    ensures Canceled(s, false, now).canceledAt == Some(now) && Canceled(s, false, now).endedAt == Some(now)
  {
  }

  /** The subscription after reactivateSubscription: active again, no trace
      of the cancellation, a new period starting now. */
  function Reactivated(s: SubscriptionRecord, now: int): (n: SubscriptionRecord)
    ensures IsActive(n) && !IsCanceled(n) && n.status == ActiveStatus
    ensures n.canceledAt.None? && n.endedAt.None?
    ensures n.currentPeriodStart == now && n.currentPeriodEnd == PeriodEnd(now, s.billingCycle)
    ensures NextBillingDate(n) == Some(PeriodEnd(now, s.billingCycle))
    ensures n.planType == s.planType && n.amount == s.amount && n.billingCycle == s.billingCycle
    ensures n.companyId == s.companyId && n.trialEnd == s.trialEnd
  {
    s.(status := ActiveStatus, cancelAtPeriodEnd := false, canceledAt := None, endedAt := None,
       currentPeriodStart := now, currentPeriodEnd := PeriodEnd(now, s.billingCycle))
  }

  /** The subscription after processSubscriptionRenewal. */
  function Renewed(s: SubscriptionRecord, now: int): SubscriptionRecord
  {
    if !IsActive(s) || IsCanceled(s) then s
    else
      s.(currentPeriodStart := now, currentPeriodEnd := PeriodEnd(now, s.billingCycle),
         status := if s.status == Trialing && s.trialEnd.Some? && now > s.trialEnd.value then ActiveStatus else s.status)
  }

  /** Renewal leaves an inactive or canceled subscription alone (a scheduled
      cancellation included); otherwise it opens a new period and ends a
      trial that is over. It never changes whether the subscription is
      active. */
  lemma {:induction false} RenewalEffects(s: SubscriptionRecord, now: int)
    ensures !IsActive(s) || IsCanceled(s) ==> Renewed(s, now) == s
    ensures IsActive(Renewed(s, now)) == IsActive(s) && IsCanceled(Renewed(s, now)) == IsCanceled(s)
    ensures IsActive(s) && !IsCanceled(s) ==>
              Renewed(s, now).currentPeriodStart == now
              && Renewed(s, now).currentPeriodEnd == PeriodEnd(now, s.billingCycle)
    ensures IsActive(s) && !IsCanceled(s) ==>
              (Renewed(s, now).status == Trialing <==> s.status == Trialing && !(s.trialEnd.Some? && now > s.trialEnd.value))
    ensures IsCanceled(Canceled(s, true, now)) && Renewed(Canceled(s, true, now), now) == Canceled(s, true, now)
    ensures Renewed(s, now).companyId == s.companyId && Renewed(s, now).amount == s.amount
  {
  }

  /** The upgrade rule of canUpgradeToPlan, given the current plan if any. */
  predicate CanUpgrade(current: Option<PlanType>, plan: PlanType)
  {
    current.None? || Details(plan).price > Details(current.value).price
  }

  /** With a current plan, an upgrade is exactly a move to a later plan of
      the table; "upgrading" to the same plan is refused. */
  lemma {:induction false} UpgradeMeansLaterPlan(current: PlanType, plan: PlanType)
    ensures CanUpgrade(Some(current), plan) <==> Ordinal(current) < Ordinal(plan)
    ensures !CanUpgrade(Some(plan), plan) && CanUpgrade(None, plan)
  {
    PlanTableIsMonotone(current, plan);
    PlanTableIsMonotone(plan, current);
  }

  /** Creating when no active subscription exists keeps at most one active
      subscription per company. */
  lemma {:induction false} InsertKeepsOneActive(rows: map<int, SubscriptionRecord>, id: int, s: SubscriptionRecord)
    requires AtMostOneActivePerCompany(rows) && ActiveIds(rows, s.companyId) == {}
    ensures AtMostOneActivePerCompany(rows[id := s])
  {
    var m := rows[id := s];
    forall a, b | a in m && b in m && m[a].companyId == m[b].companyId && IsActive(m[a]) && IsActive(m[b])
      ensures a == b
    {
      assert a != id ==> m[a] == rows[a] && a in ActiveIds(rows, m[a].companyId);
      assert b != id ==> m[b] == rows[b] && b in ActiveIds(rows, m[b].companyId);
    }
  }

  /** A change that keeps the company and whether the row is active keeps at
      most one active subscription per company. */
  lemma {:induction false} SameActivityKeepsOneActive(rows: map<int, SubscriptionRecord>, id: int, s: SubscriptionRecord)
    requires AtMostOneActivePerCompany(rows) && id in rows
    requires s.companyId == rows[id].companyId && IsActive(s) == IsActive(rows[id])
    ensures AtMostOneActivePerCompany(rows[id := s])
  {
    var m := rows[id := s];
    forall a, b | a in m && b in m && m[a].companyId == m[b].companyId && IsActive(m[a]) && IsActive(m[b])
      ensures a == b
    {
      assert m[a].companyId == rows[a].companyId && IsActive(m[a]) == IsActive(rows[a]);
      assert m[b].companyId == rows[b].companyId && IsActive(m[b]) == IsActive(rows[b]);
    }
  }

  /** reactivateSubscription does not look for another active subscription
      of the company: a company whose canceled subscription was replaced by a
      new one ends up with two active subscriptions, after which every
      lookup of its active subscription fails. */
  lemma ReactivationCanDuplicateActive(now: int)
    ensures var s1 := Fresh(7, BasicPlan, CanceledStatus, Monthly, 0, 100, None, None, 2900).(id := 1);
            var s2 := Fresh(7, PremiumPlan, ActiveStatus, Monthly, 20, 120, None, None, 7900).(id := 2);
            var rows := map[1 := s1, 2 := s2];
            AtMostOneActivePerCompany(rows)
            && !AtMostOneActivePerCompany(rows[1 := Reactivated(s1, now)])
            && |ActiveIds(rows[1 := Reactivated(s1, now)], 7)| == 2
  {
    var s1 := Fresh(7, BasicPlan, CanceledStatus, Monthly, 0, 100, None, None, 2900).(id := 1);
    var s2 := Fresh(7, PremiumPlan, ActiveStatus, Monthly, 20, 120, None, None, 7900).(id := 2);
    var rows := map[1 := s1, 2 := s2];
    var after := rows[1 := Reactivated(s1, now)];
    assert ActiveIds(after, 7) == {1, 2};
  }

  /** The checks of createSubscription, in order; a company with several
      active subscriptions makes the lookup itself fail. */
  function SubscribeCheck(companies: map<int, CompanyRecord>, rows: map<int, SubscriptionRecord>, companyId: int): (r: Result<Unit>)
    ensures r.Ok? <==> companyId in companies && ActiveIds(rows, companyId) == {}
    ensures companyId !in companies ==> r == Err("Company not found")
    ensures companyId in companies && |ActiveIds(rows, companyId)| == 1 ==>
              r == Err("Company already has an active subscription")
  {
    if companyId !in companies then Err("Company not found")
    else if |ActiveIds(rows, companyId)| > 1 then Err(NonUniqueResult)
    else if ActiveIds(rows, companyId) != {} then Err("Company already has an active subscription")
    else Ok(Unit)
  }

  /** A set of at most one element that holds `x` is `{x}`. */
  lemma {:induction false} SmallSetIsSingleton(ids: set<int>, x: int)
    requires x in ids && |ids| <= 1
    ensures ids == {x}
  {
    assert ids == {x} + (ids - {x});
  }

  class SubscriptionService {
    const subscriptionRepository: Table<SubscriptionRecord>
    const companyRepository: Table<CompanyRecord>

    ghost predicate Valid()
      reads this, subscriptionRepository, companyRepository
    {
      subscriptionRepository.Valid() && companyRepository.Valid()
      && SubscriptionsKeyedById(subscriptionRepository.rows) && CompaniesKeyedById(companyRepository.rows)
    }

    constructor (subscriptionRepository: Table<SubscriptionRecord>, companyRepository: Table<CompanyRecord>)
      requires subscriptionRepository.Valid() && companyRepository.Valid()
      requires SubscriptionsKeyedById(subscriptionRepository.rows) && CompaniesKeyedById(companyRepository.rows)
      ensures Valid()
      ensures this.subscriptionRepository == subscriptionRepository && this.companyRepository == companyRepository
    {
      this.subscriptionRepository := subscriptionRepository;
      this.companyRepository := companyRepository;
    }

    /** findActiveByCompanyId: nothing, the one active subscription, or the
        non-unique-result failure when there are several. */
    method FindActiveByCompanyId(companyId: int) returns (r: Result<Option<SubscriptionRecord>>)
      requires Valid()
      ensures r.Err? <==> |ActiveIds(subscriptionRepository.rows, companyId)| > 1
      ensures r.Err? ==> r.message == NonUniqueResult
      ensures r == Ok(None) <==> ActiveIds(subscriptionRepository.rows, companyId) == {}
      ensures r.Ok? && r.value.Some? ==>
                ActiveIds(subscriptionRepository.rows, companyId) == {r.value.value.id}
                && subscriptionRepository.rows[r.value.value.id] == r.value.value
    {
      var ids := ActiveIds(subscriptionRepository.rows, companyId);
      if |ids| > 1 {
        return Err(NonUniqueResult);
      }
      if exists id :: id in ids {
        var id :| id in ids;
        SmallSetIsSingleton(ids, id);
        return Ok(Some(subscriptionRepository.rows[id]));
      }
      r := Ok(None);
    }

    /** createSubscription. */
    method CreateSubscription(companyId: int, plan: PlanType, cycle: BillingCycle, now: int)
      returns (r: Result<SubscriptionDto>)
      requires Valid()
      modifies subscriptionRepository, companyRepository
      ensures Valid()
      ensures var check := SubscribeCheck(old(companyRepository.rows), old(subscriptionRepository.rows), companyId);
              check.Err? ==>
                r == Err(check.message)
                && subscriptionRepository.rows == old(subscriptionRepository.rows)
                && companyRepository.rows == old(companyRepository.rows)
      ensures r.Ok? <==> SubscribeCheck(old(companyRepository.rows), old(subscriptionRepository.rows), companyId).Ok?
      ensures r.Ok? ==>
                var s := Created(old(subscriptionRepository.nextId), companyId, plan, cycle, now);
                subscriptionRepository.rows == old(subscriptionRepository.rows)[s.id := s]
                && companyRepository.rows ==
                     old(companyRepository.rows)[companyId := old(companyRepository.rows)[companyId].(subscriptionTier := TierOf(plan))]
                && r.value == ToDto(s)
      ensures AtMostOneActivePerCompany(old(subscriptionRepository.rows)) ==>
                AtMostOneActivePerCompany(subscriptionRepository.rows)
    {
      if companyId !in companyRepository.rows {
        return Err("Company not found");
      }
      var existing := FindActiveByCompanyId(companyId);
      if existing.Err? {
        return Err(existing.message);
      }
      if existing.value.Some? {
        return Err("Company already has an active subscription");
      }
      var s := Subscribe(companyId, plan, cycle, now);
      r := Ok(ToDto(s));
    }

    /** The saving half of createSubscription, once its checks passed. */
    method Subscribe(companyId: int, plan: PlanType, cycle: BillingCycle, now: int) returns (s: SubscriptionRecord)
      requires Valid() && companyId in companyRepository.rows
      requires ActiveIds(subscriptionRepository.rows, companyId) == {}
      modifies subscriptionRepository, companyRepository
      ensures Valid()
      ensures s == Created(old(subscriptionRepository.nextId), companyId, plan, cycle, now)
      ensures subscriptionRepository.rows == old(subscriptionRepository.rows)[s.id := s]
      ensures companyRepository.rows ==
                old(companyRepository.rows)[companyId := old(companyRepository.rows)[companyId].(subscriptionTier := TierOf(plan))]
      ensures AtMostOneActivePerCompany(old(subscriptionRepository.rows)) ==>
                AtMostOneActivePerCompany(subscriptionRepository.rows)
    {
      s := Created(subscriptionRepository.nextId, companyId, plan, cycle, now);
      ghost var before := subscriptionRepository.rows;
      if AtMostOneActivePerCompany(before) {
        InsertKeepsOneActive(before, s.id, s);
      }
      var _ := subscriptionRepository.Insert(s);
      var company := companyRepository.rows[companyId];
      companyRepository.Update(companyId, company.(subscriptionTier := TierOf(plan)));
    }

    /** getActiveSubscription. */
    method GetActiveSubscription(companyId: int) returns (r: Result<Option<SubscriptionDto>>)
      requires Valid()
      ensures r.Err? <==> |ActiveIds(subscriptionRepository.rows, companyId)| > 1
      ensures r == Ok(None) <==> ActiveIds(subscriptionRepository.rows, companyId) == {}
      ensures r.Ok? && r.value.Some? ==>
                exists id :: ActiveIds(subscriptionRepository.rows, companyId) == {id}
                             && r.value.value == ToDto(subscriptionRepository.rows[id])
    {
      var found := FindActiveByCompanyId(companyId);
      if found.Err? {
        return Err(found.message);
      }
      if found.value.None? {
        return Ok(None);
      }
      r := Ok(Some(ToDto(found.value.value)));
    }

    /** getCompanySubscriptions; the list order is not modelled. */
    function GetCompanySubscriptions(companyId: int): (ds: set<SubscriptionDto>)
      reads this, subscriptionRepository
      ensures forall id :: id in subscriptionRepository.rows && subscriptionRepository.rows[id].companyId == companyId ==>
                ToDto(subscriptionRepository.rows[id]) in ds
      ensures forall d :: d in ds ==> d.companyId == companyId
      ensures forall d :: d in ds ==>
                exists id :: id in subscriptionRepository.rows && subscriptionRepository.rows[id].companyId == companyId
                             && d == ToDto(subscriptionRepository.rows[id])
    {
      set id | id in subscriptionRepository.rows && subscriptionRepository.rows[id].companyId == companyId
             :: ToDto(subscriptionRepository.rows[id])
    }

    /** updateSubscriptionPlan. */
    method UpdateSubscriptionPlan(subscriptionId: int, plan: PlanType) returns (r: Result<SubscriptionDto>)
      requires Valid()
      modifies subscriptionRepository, companyRepository
      ensures Valid()
      ensures subscriptionId !in old(subscriptionRepository.rows) ==> r == Err("Subscription not found")
      ensures subscriptionId in old(subscriptionRepository.rows) && !IsActive(old(subscriptionRepository.rows)[subscriptionId]) ==>
                r == Err("Cannot update inactive subscription")
      ensures r.Err? ==>
                subscriptionRepository.rows == old(subscriptionRepository.rows)
                && companyRepository.rows == old(companyRepository.rows)
      ensures r.Ok? <==> subscriptionId in old(subscriptionRepository.rows) && IsActive(old(subscriptionRepository.rows)[subscriptionId])
      ensures r.Ok? ==>
                var s := old(subscriptionRepository.rows)[subscriptionId];
                subscriptionRepository.rows == old(subscriptionRepository.rows)[subscriptionId := Replanned(s, plan)]
                && companyRepository.rows ==
                     (if s.companyId in old(companyRepository.rows)
                      then old(companyRepository.rows)[s.companyId := old(companyRepository.rows)[s.companyId].(subscriptionTier := TierOf(plan))]
                      else old(companyRepository.rows))
                && r.value == ToDto(Replanned(s, plan))
      ensures AtMostOneActivePerCompany(old(subscriptionRepository.rows)) ==>
                AtMostOneActivePerCompany(subscriptionRepository.rows)
    {
      if subscriptionId !in subscriptionRepository.rows {
        return Err("Subscription not found");
      }
      var s := subscriptionRepository.rows[subscriptionId];
      if !IsActive(s) {
        return Err("Cannot update inactive subscription");
      }
      var n := Replanned(s, plan);
      if AtMostOneActivePerCompany(subscriptionRepository.rows) {
        SameActivityKeepsOneActive(subscriptionRepository.rows, subscriptionId, n);
      }
      subscriptionRepository.Update(subscriptionId, n);
      if s.companyId in companyRepository.rows {
        var company := companyRepository.rows[s.companyId];
        companyRepository.Update(s.companyId, company.(subscriptionTier := TierOf(plan)));
      }
      r := Ok(ToDto(n));
    }

    /** cancelSubscription; an immediate cancellation moves the company to
        the FREE tier. */
    method CancelSubscription(subscriptionId: int, atPeriodEnd: bool, now: int) returns (r: Result<SubscriptionDto>)
      requires Valid()
      modifies subscriptionRepository, companyRepository
      ensures Valid()
      ensures subscriptionId !in old(subscriptionRepository.rows) ==>
                r == Err("Subscription not found")
                && subscriptionRepository.rows == old(subscriptionRepository.rows)
                && companyRepository.rows == old(companyRepository.rows)
      ensures subscriptionId in old(subscriptionRepository.rows) ==>
                var s := old(subscriptionRepository.rows)[subscriptionId];
                var n := Canceled(s, atPeriodEnd, now);
                subscriptionRepository.rows == old(subscriptionRepository.rows)[subscriptionId := n]
                && companyRepository.rows ==
                     (if !atPeriodEnd && s.companyId in old(companyRepository.rows)
                      then old(companyRepository.rows)[s.companyId := old(companyRepository.rows)[s.companyId].(subscriptionTier := FreeTier)]
                      else old(companyRepository.rows))
                && r == Ok(ToDto(n))
    {
      if subscriptionId !in subscriptionRepository.rows {
        return Err("Subscription not found");
      }
      var s := subscriptionRepository.rows[subscriptionId];
      var n := Canceled(s, atPeriodEnd, now);
      if !atPeriodEnd && s.companyId in companyRepository.rows {
        var company := companyRepository.rows[s.companyId];
        companyRepository.Update(s.companyId, company.(subscriptionTier := FreeTier));
      }
      subscriptionRepository.Update(subscriptionId, n);
      r := Ok(ToDto(n));
    }

    /** reactivateSubscription; the company's tier is left as it is. */
    method ReactivateSubscription(subscriptionId: int, now: int) returns (r: Result<SubscriptionDto>)
      requires Valid()
      modifies subscriptionRepository
      ensures Valid()
      ensures subscriptionId !in old(subscriptionRepository.rows) ==> r == Err("Subscription not found")
      ensures subscriptionId in old(subscriptionRepository.rows)
              && old(subscriptionRepository.rows)[subscriptionId].status != CanceledStatus ==>
                r == Err("Subscription is not canceled")
      ensures r.Err? ==> subscriptionRepository.rows == old(subscriptionRepository.rows)
      ensures r.Ok? <==>
                subscriptionId in old(subscriptionRepository.rows)
                && old(subscriptionRepository.rows)[subscriptionId].status == CanceledStatus
      ensures r.Ok? ==>
                var n := Reactivated(old(subscriptionRepository.rows)[subscriptionId], now);
                subscriptionRepository.rows == old(subscriptionRepository.rows)[subscriptionId := n] && r.value == ToDto(n)
    {
      if subscriptionId !in subscriptionRepository.rows {
        return Err("Subscription not found");
      }
      var s := subscriptionRepository.rows[subscriptionId];
      if s.status != CanceledStatus {
        return Err("Subscription is not canceled");
      }
      var n := Reactivated(s, now);
      subscriptionRepository.Update(subscriptionId, n);
      r := Ok(ToDto(n));
    }

    /** getAvailablePlanTypes: the constants in declaration order. */
    function GetAvailablePlanTypes(): (ps: seq<PlanType>)
      ensures |ps| == 4 && forall p: PlanType :: ps[Ordinal(p)] == p
      ensures forall i, j :: 0 <= i < j < |ps| ==> Details(ps[i]).price < Details(ps[j]).price
      ensures forall i :: 0 <= i < |ps| ==> Ordinal(ps[i]) == i
    {
      [FreePlan, BasicPlan, PremiumPlan, EnterprisePlan]
    }

    /** canUpgradeToPlan. */
    method CanUpgradeToPlan(companyId: int, plan: PlanType) returns (r: Result<bool>)
      requires Valid()
      ensures r.Err? <==> |ActiveIds(subscriptionRepository.rows, companyId)| > 1
      ensures ActiveIds(subscriptionRepository.rows, companyId) == {} ==> r == Ok(true)
      ensures forall id :: ActiveIds(subscriptionRepository.rows, companyId) == {id} ==>
                r == Ok(CanUpgrade(Some(subscriptionRepository.rows[id].planType), plan))
    {
      var current := FindActiveByCompanyId(companyId);
      if current.Err? {
        return Err(current.message);
      }
      if current.value.None? {
        return Ok(true);
      }
      r := Ok(Details(plan).price > Details(current.value.value.planType).price);
    }

    /** processSubscriptionRenewal. */
    method ProcessSubscriptionRenewal(subscriptionId: int, now: int)
      requires Valid()
      modifies subscriptionRepository
      ensures Valid()
      ensures subscriptionRepository.rows ==
                if subscriptionId in old(subscriptionRepository.rows)
                then old(subscriptionRepository.rows)[subscriptionId := Renewed(old(subscriptionRepository.rows)[subscriptionId], now)]
                else old(subscriptionRepository.rows)
      ensures AtMostOneActivePerCompany(old(subscriptionRepository.rows)) ==>
                AtMostOneActivePerCompany(subscriptionRepository.rows)
    {
      if subscriptionId !in subscriptionRepository.rows {
        return;
      }
      var s := subscriptionRepository.rows[subscriptionId];
      if !IsActive(s) || IsCanceled(s) {
        assert subscriptionRepository.rows[subscriptionId := Renewed(s, now)] == subscriptionRepository.rows;
        return;
      }
      var n := Renewed(s, now);
      if AtMostOneActivePerCompany(subscriptionRepository.rows) {
        SameActivityKeepsOneActive(subscriptionRepository.rows, subscriptionId, n);
      }
      subscriptionRepository.Update(subscriptionId, n);
    }
  }
}
