// A company's subscription: the plan table, the status and billing-cycle
// enums and the entity's helpers. Money is in integer cents, which is exact
// for the two-decimal BigDecimal amounts the entity stores.

module Subscriptions {
  import opened Common

  datatype PlanType = FreePlan | BasicPlan | PremiumPlan | EnterprisePlan

  /** The constructor arguments of a PlanType constant. */
  datatype PlanDetails = PlanDetails(
    displayName: string,
    price: int,
    maxEmployees: int,
    hasAdvancedFeatures: bool,
    hasAnalytics: bool,
    hasPrioritySupport: bool)

  /** The plan table: price in whole dollars per month, employee cap, features. */
  function Details(p: PlanType): (d: PlanDetails)
    ensures d.price >= 0 && d.maxEmployees > 0 && IsLabel(d.displayName)
    ensures d.price == 0 <==> p == FreePlan
    ensures d.hasPrioritySupport ==> d.hasAnalytics && d.hasAdvancedFeatures
  {
    match p
    case FreePlan => PlanDetails("Free", 0, 10, false, false, false)
    case BasicPlan => PlanDetails("Basic", 29, 50, true, true, false)
    case PremiumPlan => PlanDetails("Premium", 79, 200, true, true, true)
    case EnterprisePlan => PlanDetails("Enterprise", 199, 1000, true, true, true)
  }

  /** The declaration order of the constants. */
  function Ordinal(p: PlanType): (n: int)
    ensures 0 <= n < 4
  {
    match p
    case FreePlan => 0
    case BasicPlan => 1
    case PremiumPlan => 2
    case EnterprisePlan => 3
  }

  /** Plans later in the table cost more and take more employees; every
      feature a plan has, every later plan has too; and a plan is known by
      its price. */
  lemma {:induction false} PlanTableIsMonotone(a: PlanType, b: PlanType)
    ensures Ordinal(a) < Ordinal(b) ==> Details(a).price < Details(b).price
    ensures Ordinal(a) < Ordinal(b) ==> Details(a).maxEmployees < Details(b).maxEmployees
    ensures Ordinal(a) <= Ordinal(b) ==>
              (Details(a).hasAdvancedFeatures ==> Details(b).hasAdvancedFeatures)
              && (Details(a).hasAnalytics ==> Details(b).hasAnalytics)
              && (Details(a).hasPrioritySupport ==> Details(b).hasPrioritySupport)
    ensures Details(a).price == Details(b).price ==> a == b
    ensures Details(a).price >= 0
  {
    match a
    case FreePlan =>
    case BasicPlan =>
    case PremiumPlan =>
    case EnterprisePlan =>
  }

  datatype Status = ActiveStatus | PastDue | CanceledStatus | Unpaid | Trialing

  datatype BillingCycle = Monthly | Yearly

  /** The length of the trial createSubscription grants, in days. */
  const TrialDays: int := 14

  /** The amount createSubscription and updateSubscriptionPlan charge, in
      cents: the monthly price, or twelve months at 80 % for yearly billing. */
  function PlanAmount(p: PlanType, cycle: BillingCycle): (a: int)
    ensures 0 <= a && (a == 0 <==> p == FreePlan)
    ensures cycle == Yearly ==> a <= 12 * 100 * Details(p).price
  {
    if cycle == Yearly then Details(p).price * 100 * 12 * 8 / 10 else Details(p).price * 100
  }

  /** Yearly billing costs exactly four fifths of twelve monthly payments;
      the Basic plan, for one, costs 29.00 a month and 278.40 a year. */
  lemma {:induction false} YearlyDiscount(p: PlanType)
    ensures 10 * PlanAmount(p, Yearly) == 8 * 12 * PlanAmount(p, Monthly)
    ensures PlanAmount(p, Monthly) == 100 * Details(p).price
    ensures PlanAmount(BasicPlan, Monthly) == 2900 && PlanAmount(BasicPlan, Yearly) == 27840
  {
    assert PlanAmount(BasicPlan, Monthly) == 2900 && PlanAmount(BasicPlan, Yearly) == 27840;
    match p
    case FreePlan => assert PlanAmount(p, Monthly) == 0 && PlanAmount(p, Yearly) == 0;
    case BasicPlan =>
    case PremiumPlan => assert PlanAmount(p, Monthly) == 7900 && PlanAmount(p, Yearly) == 75840;
    case EnterprisePlan => assert PlanAmount(p, Monthly) == 19900 && PlanAmount(p, Yearly) == 191040;
  }

  /** A stored subscription; times are minutes, `amount` is cents. */
  datatype SubscriptionRecord = SubscriptionRecord(
    id: int,
    companyId: int,
    planType: PlanType,
    status: Status,
    currentPeriodStart: int,
    currentPeriodEnd: int,
    cancelAtPeriodEnd: bool,
    canceledAt: Option<int>,
    endedAt: Option<int>,
    trialStart: Option<int>,
    trialEnd: Option<int>,
    amount: int,
    currency: string,
    billingCycle: BillingCycle,
    stripeSubscriptionId: Option<string>,
    stripeCustomerId: Option<string>,
    paymentMethodId: Option<string>,
    metadata: Option<string>)

  /** A `new Subscription()` after the setters the service calls on it: the
      field initialisers give cancelAtPeriodEnd false and currency USD. */
  function Fresh(companyId: int, plan: PlanType, status: Status, cycle: BillingCycle, start: int, end: int,
                 trialStart: Option<int>, trialEnd: Option<int>, amount: int): (s: SubscriptionRecord)
    ensures s.companyId == companyId && s.planType == plan && s.status == status && s.billingCycle == cycle
    ensures s.currentPeriodStart == start && s.currentPeriodEnd == end
    ensures s.trialStart == trialStart && s.trialEnd == trialEnd && s.amount == amount
    ensures !s.cancelAtPeriodEnd && s.canceledAt.None? && s.endedAt.None? && s.currency == "USD"
    ensures s.stripeSubscriptionId.None? && s.stripeCustomerId.None? && s.paymentMethodId.None? && s.metadata.None?
  {
    SubscriptionRecord(0, companyId, plan, status, start, end, false, None, None, trialStart, trialEnd,
                       amount, "USD", cycle, None, None, None, None)
  }

  /** isActive: ACTIVE or in trial. */
  predicate IsActive(s: SubscriptionRecord)
    ensures IsActive(s) <==> s.status !in {PastDue, CanceledStatus, Unpaid}
  {
    s.status == ActiveStatus || s.status == Trialing
  }

  /** isTrialActive: a trial end in the future. */
  predicate IsTrialActive(s: SubscriptionRecord, now: int)
    ensures !IsTrialActive(s, now) <==> s.trialEnd.None? || s.trialEnd.value <= now
  {
    s.trialEnd.Some? && now < s.trialEnd.value
  }

  /** isCanceled: canceled, or going to be at the end of the period. */
  predicate IsCanceled(s: SubscriptionRecord)
    ensures !IsCanceled(s) <==> s.status != CanceledStatus && !s.cancelAtPeriodEnd
    ensures IsCanceled(s) && !s.cancelAtPeriodEnd ==> s.status !in {ActiveStatus, Trialing}
  {
    s.status == CanceledStatus || s.cancelAtPeriodEnd
  }

  predicate IsPastDue(s: SubscriptionRecord)
  {
    s.status == PastDue
  }

  /** getNextBillingDate. */
  function NextBillingDate(s: SubscriptionRecord): (d: Option<int>)
    ensures d.None? <==> s.status == CanceledStatus && !s.cancelAtPeriodEnd
    ensures d.Some? ==> d.value == s.currentPeriodEnd
  {
    if IsCanceled(s) && !s.cancelAtPeriodEnd then None else Some(s.currentPeriodEnd)
  }

  /** BigDecimal.divide with ROUND_HALF_UP at the scale of `a`: the nearest
      quotient, ties rounded away from zero. */
  function DivideHalfUp(a: int, d: int): (q: int)
    requires d > 0
    ensures -d <= 2 * (a - q * d) <= d
    ensures 2 * (a - q * d) == d ==> a < 0
    ensures 2 * (a - q * d) == -d ==> a > 0
  {
    if a >= 0 then HalfUpMagnitude(a, d)
    else
      var m := HalfUpMagnitude(-a, d);
      NegatedProduct(m, d);
      -m
  }

  lemma NegatedProduct(m: int, d: int)
    ensures (-m) * d == -(m * d)
  {
  }

  /** Rounding half up of a non-negative quotient. */
  function HalfUpMagnitude(a: int, d: int): (q: int)
    requires a >= 0 && d > 0
    ensures -d <= 2 * (a - q * d) < d
  {
    var q := (2 * a + d) / (2 * d);
    assert q * (2 * d) <= 2 * a + d < q * (2 * d) + 2 * d;
    q
  }

  /** getAnnualAmount, in cents. */
  function AnnualAmount(s: SubscriptionRecord): (a: int)
    ensures s.billingCycle == Monthly ==> a % 12 == 0
    ensures s.amount >= 0 ==> s.amount <= a
  {
    if s.billingCycle == Yearly then s.amount else s.amount * 12
  }

  /** getMonthlyAmount, in cents: a yearly amount is divided by twelve and
      rounded half up to a cent. */
  function MonthlyAmount(s: SubscriptionRecord): (m: int)
    ensures s.billingCycle == Monthly ==> m == s.amount
    ensures s.billingCycle == Yearly ==> -12 <= 2 * (s.amount - 12 * m) <= 12
  {
    if s.billingCycle == Monthly then s.amount else DivideHalfUp(s.amount, 12)
  }

  /** Monthly and annual amounts are inverse on a monthly subscription, and on
      a yearly one whose amount is a whole number of months. */
  lemma {:induction false} AmountsAgree(s: SubscriptionRecord)
    ensures s.billingCycle == Monthly ==> AnnualAmount(s) == 12 * MonthlyAmount(s)
    ensures s.billingCycle == Yearly && s.amount % 12 == 0 ==> 12 * MonthlyAmount(s) == AnnualAmount(s)
  {
    if s.billingCycle == Yearly && s.amount % 12 == 0 {
      var k := s.amount / 12;
      assert s.amount == 12 * k;
      var m := MonthlyAmount(s);
      assert -12 <= 24 * (k - m) <= 12;
      assert k - m == 0;
    }
  }

  /** The monthly amount of a plan billed yearly is 80 % of its monthly price. */
  lemma {:induction false} YearlyPlanMonthlyAmount(s: SubscriptionRecord)
    requires s.billingCycle == Yearly && s.amount == PlanAmount(s.planType, Yearly)
    ensures MonthlyAmount(s) * 10 == 8 * PlanAmount(s.planType, Monthly)
    ensures AnnualAmount(s) == PlanAmount(s.planType, Yearly)
  {
    YearlyDiscount(s.planType);
    var p := Details(s.planType).price;
    assert s.amount == 12 * (80 * p);
    AmountsAgree(s);
  }
}
