/** Vocabulary shared by order-service, payment-service and the reconciliation script. */
module Domain {

  datatype Option<+T> = None | Some(value: T)

  /** Row identifiers (UUIDs in the services). Only equality matters. */
  type OrderId = nat

  /** A gateway reference such as "PIZZA-0A1B...". */
  type Ref = string

  datatype OrderStatus = Draft | PendingPayment | Confirmed | Paid | Shipped | Delivered | Cancelled

  datatype PaymentStatus = Pending | Succeeded | Failed

  /** The two terminal verdicts on a charge. */
  datatype Outcome = Success | Failure

  /** The columns of a payment row that the saga reads or writes. */
  datatype Payment = Payment(orderId: OrderId, status: PaymentStatus)

  function Opposite(out: Outcome): Outcome {
    match out
    case Success => Failure
    case Failure => Success
  }

  /** The status a payment row gets when `out` is committed. */
  function StatusOf(out: Outcome): PaymentStatus {
    match out
    case Success => Succeeded
    case Failure => Failed
  }

  /** The outcome that a terminal status shows. */
  function OutcomeOf(status: PaymentStatus): Outcome
    requires status != Pending
  {
    if status == Succeeded then Success else Failure
  }

  /** The order status that a committed outcome must lead to. */
  function Target(out: Outcome): OrderStatus {
    match out
    case Success => Paid
    case Failure => Cancelled
  }

  /** Statuses past 'paid', which reconciliation must never touch. */
  predicate Forwarded(status: OrderStatus) {
    status == Shipped || status == Delivered
  }

  /** Positions listed in order. */
  ghost predicate Increasing(at: seq<nat>) {
    forall a, b :: 0 <= a < b < |at| ==> at[a] < at[b]
  }
}
