// A payment against a subscription: its status predicates and the display
// text and colour of each status.

module Payments {
  import opened Common

  datatype PaymentStatus = PaymentPending | Processing | Succeeded | Failed | PaymentCanceled | Refunded

  datatype PaymentMethod = CreditCard | DebitCard | BankTransfer | Wallet | Crypto

  /** A payment row; `amount` is cents, `processedAt` minutes. */
  datatype PaymentRecord = PaymentRecord(
    id: int,
    subscriptionId: int,
    companyId: int,
    amount: int,
    currency: string,
    status: PaymentStatus,
    paymentMethod: PaymentMethod,
    stripePaymentIntentId: Option<string>,
    stripeChargeId: Option<string>,
    description: Option<string>,
    failureReason: Option<string>,
    processedAt: Option<int>,
    metadata: Option<string>)

  /** A `new Payment()` given its required columns: the field initialisers
      make it PENDING, in USD. */
  function NewPayment(id: int, subscriptionId: int, companyId: int, amount: int, payMethod: PaymentMethod): (p: PaymentRecord)
    ensures p.status == PaymentPending && p.currency == "USD"
    ensures p.id == id && p.subscriptionId == subscriptionId && p.companyId == companyId
    ensures p.amount == amount && p.paymentMethod == payMethod
    ensures p.processedAt.None? && p.failureReason.None?
  {
    PaymentRecord(id, subscriptionId, companyId, amount, "USD", PaymentPending, payMethod,
                  None, None, None, None, None, None)
  }

  predicate IsSuccessful(p: PaymentRecord) { p.status == Succeeded }

  predicate IsFailed(p: PaymentRecord) { p.status == Failed }

  /** isPending: not yet settled either way. */
  predicate IsPending(p: PaymentRecord) { p.status == PaymentPending || p.status == Processing }

  /** isRefundable: succeeded and processed. */
  predicate IsRefundable(p: PaymentRecord) { p.status == Succeeded && p.processedAt.Some? }

  /** The three outcome predicates exclude each other; a refundable payment
      is a successful one; and a new payment is pending. */
  lemma {:induction false} PaymentStatesExclusive(p: PaymentRecord)
    ensures !(IsSuccessful(p) && IsFailed(p)) && !(IsSuccessful(p) && IsPending(p)) && !(IsFailed(p) && IsPending(p))
    ensures IsRefundable(p) ==> IsSuccessful(p)
    ensures p.status == PaymentCanceled || p.status == Refunded <==> !IsSuccessful(p) && !IsFailed(p) && !IsPending(p)
    ensures IsPending(NewPayment(p.id, p.subscriptionId, p.companyId, p.amount, p.paymentMethod))
  {
  }

  /** getStatusDisplay. */
  function StatusDisplay(s: PaymentStatus): (r: string)
    ensures IsLabel(r)
  {
    match s
    case PaymentPending => "Pending"
    case Processing => "Processing"
    case Succeeded => "Successful"
    case Failed => "Failed"
    case PaymentCanceled => "Canceled"
    case Refunded => "Refunded"
  }

  /** getStatusColor. */
  function StatusColor(s: PaymentStatus): (r: string)
    ensures IsHexColor(r)
  {
    match s
    case PaymentPending => "#ffc107"
    case Processing => "#17a2b8"
    case Succeeded => "#28a745"
    case Failed => "#dc3545"
    case PaymentCanceled => "#6c757d"
    case Refunded => "#fd7e14"
  }

  /** Both mappings are total and tell the six statuses apart. */
  lemma {:induction false} PaymentDisplaysAreInjective(a: PaymentStatus, b: PaymentStatus)
    ensures StatusDisplay(a) == StatusDisplay(b) ==> a == b
    ensures StatusColor(a) == StatusColor(b) ==> a == b
    ensures |StatusDisplay(a)| > 0 && |StatusColor(a)| == 7 && StatusColor(a)[0] == '#'
  {
    match a
    case PaymentPending =>
    case Processing =>
    case Succeeded =>
    case Failed =>
    case PaymentCanceled =>
    case Refunded =>
  }
}
