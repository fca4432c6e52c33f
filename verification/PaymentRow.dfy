/** The payment row written by payment requests and by Stripe webhooks. */
module PaymentRow {
  import opened Common
  import opened PaymentGate

  datatype RefundStatus = NoRefund | Partial | Full

  /** A provider checkout, with the idempotency key and the amount it was created for. */
  datatype Session = Session(id: string, key: string, total: int, currency: string)

  datatype Payment = Payment(
    status: PaymentStatus,
    key: string,
    session: Option<Session>,
    requestedAt: Option<int>,
    expiresAt: Option<int>,
    total: int,
    currency: string,
    refundStatus: RefundStatus,
    refundAmount: Option<int>,
    intent: Option<string>,
    charge: Option<string>,
    version: nat)

  /** The recorded refund lies within the total, and is FULL exactly when it is all of it. */
  predicate RefundBounded(p: Payment) {
    && (p.refundStatus.NoRefund? <==> p.refundAmount.None?)
    && (p.refundAmount.Some? ==>
          0 <= p.refundAmount.value <= p.total && (p.refundStatus.Full? <==> p.refundAmount.value == p.total))
  }

  predicate RefundSound(p: Payment) {
    RefundBounded(p) && (p.refundStatus.Full? ==> p.status.Refunded?)
  }
}
