// SubscriptionDTO: the subscription as the service returns it, with its own
// copies of the entity's helpers and the status display text and colour.

module SubscriptionDtos {
  import opened Common
  import opened Subscriptions

  /** The DTO as convertToDto fills it; times are minutes, `amount` cents. */
  datatype SubscriptionDto = SubscriptionDto(
    id: int,
    companyId: int,
    planType: PlanType,
    status: Status,
    currentPeriodStart: int,
    currentPeriodEnd: int,
    cancelAtPeriodEnd: bool,
    canceledAt: Option<int>,
    endedAt: Option<int>,
    trialStart: Option<int>,
    trialEnd: Option<int>,
    amount: int,
    currency: string,
    billingCycle: BillingCycle,
    stripeSubscriptionId: Option<string>,
    stripeCustomerId: Option<string>,
    paymentMethodId: Option<string>,
    metadata: Option<string>)

  /** convertToDto: a field-by-field copy. */
  function ToDto(s: SubscriptionRecord): (d: SubscriptionDto)
    ensures d.id == s.id && d.companyId == s.companyId && d.planType == s.planType && d.status == s.status
    ensures d.currentPeriodStart == s.currentPeriodStart && d.currentPeriodEnd == s.currentPeriodEnd
    ensures d.cancelAtPeriodEnd == s.cancelAtPeriodEnd && d.canceledAt == s.canceledAt && d.endedAt == s.endedAt
    ensures d.trialStart == s.trialStart && d.trialEnd == s.trialEnd
    ensures d.amount == s.amount && d.currency == s.currency && d.billingCycle == s.billingCycle
    ensures d.stripeSubscriptionId == s.stripeSubscriptionId && d.stripeCustomerId == s.stripeCustomerId
    ensures d.paymentMethodId == s.paymentMethodId && d.metadata == s.metadata
  {
    SubscriptionDto(s.id, s.companyId, s.planType, s.status, s.currentPeriodStart, s.currentPeriodEnd,
                    s.cancelAtPeriodEnd, s.canceledAt, s.endedAt, s.trialStart, s.trialEnd, s.amount,
                    s.currency, s.billingCycle, s.stripeSubscriptionId, s.stripeCustomerId,
                    s.paymentMethodId, s.metadata)
  }

  predicate DtoIsActive(d: SubscriptionDto)
  {
    d.status == ActiveStatus || d.status == Trialing
  }

  predicate DtoIsTrialActive(d: SubscriptionDto, now: int)
  {
    d.trialEnd.Some? && now < d.trialEnd.value
  }

  predicate DtoIsCanceled(d: SubscriptionDto)
  {
    d.status == CanceledStatus || d.cancelAtPeriodEnd
  }

  predicate DtoIsPastDue(d: SubscriptionDto)
  {
    d.status == PastDue
  }

  function DtoNextBillingDate(d: SubscriptionDto): Option<int>
  {
    if DtoIsCanceled(d) && !d.cancelAtPeriodEnd then None else Some(d.currentPeriodEnd)
  }

  function DtoAnnualAmount(d: SubscriptionDto): int
  {
    if d.billingCycle == Yearly then d.amount else d.amount * 12
  }

  function DtoMonthlyAmount(d: SubscriptionDto): int
  {
    if d.billingCycle == Monthly then d.amount else DivideHalfUp(d.amount, 12)
  }

  /** The DTO's helpers give the entity's answers. */
  lemma {:induction false} DtoHelpersAgree(s: SubscriptionRecord, now: int)
    ensures DtoIsActive(ToDto(s)) == IsActive(s) && DtoIsCanceled(ToDto(s)) == IsCanceled(s)
    ensures DtoIsTrialActive(ToDto(s), now) == IsTrialActive(s, now) && DtoIsPastDue(ToDto(s)) == IsPastDue(s)
    ensures DtoNextBillingDate(ToDto(s)) == NextBillingDate(s)
    ensures DtoAnnualAmount(ToDto(s)) == AnnualAmount(s) && DtoMonthlyAmount(ToDto(s)) == MonthlyAmount(s)
  {
  }

  /** getStatusDisplay. */
  function StatusDisplay(s: Status): (r: string)
    ensures IsLabel(r)
  {
    match s
    case ActiveStatus => "Active"
    case Trialing => "Trial"
    case PastDue => "Past Due"
    case CanceledStatus => "Canceled"
    case Unpaid => "Unpaid"
  }

  /** getStatusColor. */
  function StatusColor(s: Status): (r: string)
    ensures IsHexColor(r)
  {
    match s
    case ActiveStatus => "#28a745"
    case Trialing => "#17a2b8"
    case PastDue => "#ffc107"
    case CanceledStatus => "#6c757d"
    case Unpaid => "#dc3545"
  }

  /** Each status has its own text and its own colour. */
  lemma {:induction false} StatusDisplaysAreInjective(a: Status, b: Status)
    ensures StatusDisplay(a) == StatusDisplay(b) ==> a == b
    ensures StatusColor(a) == StatusColor(b) ==> a == b
    ensures |StatusDisplay(a)| > 0 && |StatusColor(a)| == 7 && StatusColor(a)[0] == '#'
  {
    match a
    case ActiveStatus =>
    case Trialing =>
    case PastDue =>
    case CanceledStatus =>
    case Unpaid =>
  }

  /** The plan-derived getters read the plan table. */
  function PlanDisplayName(d: SubscriptionDto): string { Details(d.planType).displayName }
  function MaxEmployees(d: SubscriptionDto): int { Details(d.planType).maxEmployees }
  predicate HasAdvancedFeatures(d: SubscriptionDto) { Details(d.planType).hasAdvancedFeatures }
  predicate HasAnalytics(d: SubscriptionDto) { Details(d.planType).hasAnalytics }
  predicate HasPrioritySupport(d: SubscriptionDto) { Details(d.planType).hasPrioritySupport }

  /** Only the free plan lacks advanced features; priority support comes with
      Premium and Enterprise alone; the employee cap grows with the plan. */
  lemma {:induction false} PlanGetters(d: SubscriptionDto)
    ensures HasAdvancedFeatures(d) <==> d.planType != FreePlan
    ensures HasAnalytics(d) <==> HasAdvancedFeatures(d)
    ensures HasPrioritySupport(d) <==> d.planType == PremiumPlan || d.planType == EnterprisePlan
    ensures 10 <= MaxEmployees(d) <= 1000
    ensures PlanDisplayName(d) == "Free" <==> d.planType == FreePlan
  {
    match d.planType
    case FreePlan =>
    case BasicPlan =>
    case PremiumPlan =>
    case EnterprisePlan =>
  }
}
