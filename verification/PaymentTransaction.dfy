/**
 * The `PaymentTransaction` entity: each transition as a function on the row it holds,
 * and the class whose methods make it in place.
 */
module PaymentEntity {
  import opened Prelude
  import opened Tables

  const DEFAULT_PAYMENT_METHOD := "ONLINE"

  function AfterCapture(p: Payment, paymentId: Nullish<string>, signature: Nullish<string>,
                        metadata: Option<map<string, string>>)
    : Result<Payment, DomainError>
  {
    if p.status == Captured then Ok(p)
    else if p.status == PaymentStatus.Failed then Err(InvalidPaymentStateTransition)
    else Ok(p.(
      status := Captured,
      razorpayPaymentId := if paymentId.Given? then Some(paymentId.value) else p.razorpayPaymentId,
      razorpaySignature := match signature
        case Undefined => p.razorpaySignature
        case Null => None
        case Given(s) => Some(s),
      metadata := if metadata.Some? then Some(p.metadata.GetOr(map[]) + metadata.value) else p.metadata))
  }

  function AfterFailure(p: Payment, reason: string): Payment {
    if p.status == Captured || p.status == Success then p
    else p.(status := PaymentStatus.Failed, failureReason := Some(reason))
  }

  /** The error a refund request is refused with, if any. */
  function RefundRefusal(p: Payment, requestedAmountPaise: Option<int>): Option<DomainError> {
    if p.status == Refunded then Some(PaymentAlreadyRefunded)
    else if p.status != Captured && p.status != Success then Some(CannotRefundUncapturedPayment)
    else if !Truthy(p.razorpayPaymentId) then Some(CannotRefundUncapturedPayment)
    else if requestedAmountPaise.Some?
        && requestedAmountPaise.value > p.amountPaise then Some(RefundAmountExceedsBalance)
    else if requestedAmountPaise.Some? && requestedAmountPaise.value < p.amountPaise then Some(RefundAmountInvalid)
    else None
  }

  function AfterRefund(p: Payment): Result<Payment, DomainError> {
    if p.status != Captured && p.status != Success then Err(InvalidPaymentStateTransition)
    else Ok(p.(status := Refunded))
  }

  function PaymentMethod(p: Payment): Option<string> {
    if p.metadata.Some? && "method" in p.metadata.value then Some(p.metadata.value["method"])
    else if p.status == Captured then Some(DEFAULT_PAYMENT_METHOD)
    else None
  }

  /** The error a caller who does not own the payment gets. */
  function OwnershipRefusal(p: Payment, customerId: Option<Uuid>): Option<DomainError> {
    if p.customerId.Some? && customerId != p.customerId then Some(CustomerUnauthorized) else None
  }

  class PaymentTransaction {
    var props: Payment

    constructor (props: Payment)
      ensures this.props == props
    {
      this.props := props;
    }

    method Capture(paymentId: Nullish<string>, signature: Nullish<string>, metadata: Option<map<string, string>>)
      returns (r: Result<(), DomainError>)
      modifies this
      ensures match AfterCapture(old(props), paymentId, signature, metadata)
              case Ok(p) => r == Ok(()) && props == p
              case Err(e) => r == Err(e) && props == old(props)
    {
      if props.status == Captured {
        return Ok(());
      }
      if props.status == PaymentStatus.Failed {
        return Err(InvalidPaymentStateTransition);
      }
      props := props.(status := Captured);
      if paymentId.Given? {
        props := props.(razorpayPaymentId := Some(paymentId.value));
      }
      if !signature.Undefined? {
        props := props.(razorpaySignature := if signature.Given? then Some(signature.value) else None);
      }
      if metadata.Some? {
        props := props.(metadata := Some(props.metadata.GetOr(map[]) + metadata.value));
      }
      return Ok(());
    }

    method MarkFailed(reason: string)
      modifies this
      ensures props == AfterFailure(old(props), reason)
    {
      if props.status == Captured || props.status == Success {
        return;
      }
      props := props.(status := PaymentStatus.Failed);
      props := props.(failureReason := Some(reason));
    }

    method MarkRefunded() returns (r: Result<(), DomainError>)
      modifies this
      ensures match AfterRefund(old(props))
              case Ok(p) => r == Ok(()) && props == p
              case Err(e) => r == Err(e) && props == old(props)
    {
      if props.status != Captured && props.status != Success {
        return Err(InvalidPaymentStateTransition);
      }
      props := props.(status := Refunded);
      return Ok(());
    }
  }

  /** Every successful transition keeps the payment's identity, and ends where its name says. */
  lemma TransitionsKeepIdentity(p: Payment, paymentId: Nullish<string>, signature: Nullish<string>,
                                metadata: Option<map<string, string>>, reason: string)
    ensures var c := AfterCapture(p, paymentId, signature, metadata);
            (c.Ok? <==> p.status != PaymentStatus.Failed)
            && (c.Ok? ==> SameIdentity(p, c.value) && c.value.status == Captured)
    ensures var f := AfterFailure(p, reason);
            SameIdentity(p, f)
            && (f.status == PaymentStatus.Failed <==> p.status != Captured && p.status != Success)
    ensures var r := AfterRefund(p);
            (r.Ok? <==> p.status == Captured || p.status == Success)
            && (r.Ok? ==> SameIdentity(p, r.value) && r.value.status == Refunded)
  {
  }

  /**
   * A refund is granted exactly for a paid, unrefunded payment with a gateway id and
   * for exactly its full amount; a granted payment can be marked refunded, once.
   */
  lemma RefundsAreFullAndOnce(p: Payment, requestedAmountPaise: Option<int>)
    ensures RefundRefusal(p, requestedAmountPaise).None? <==>
            (p.status == Captured || p.status == Success) && Truthy(p.razorpayPaymentId)
            && requestedAmountPaise.GetOr(p.amountPaise) == p.amountPaise
    ensures RefundRefusal(p, requestedAmountPaise).None? ==>
              AfterRefund(p).Ok?
              && RefundRefusal(AfterRefund(p).value, None) == Some(PaymentAlreadyRefunded)
              && AfterRefund(AfterRefund(p).value).Err?
  {
  }
}
