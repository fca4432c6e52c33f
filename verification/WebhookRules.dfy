/** src/payments/stripe-webhooks.service.ts: which events are accepted and what each of
    them writes, column by column. */
module WebhookRules {
  import opened Common
  import opened PaymentGate
  import opened PaymentRow
  import opened StripeWebhooks

  /** The event names exactly the money that was requested. */
  predicate Names(amount: Option<int>, currency: string, p: Payment) {
    amount.Some? && amount.value == p.total && currency == p.currency
  }

  /** An event is rejected when it moves money and names other money than was requested,
      or refunds less than nothing or more than all; an unpaid completion moves none. */
  lemma RejectedIff(body: Body, p: Payment)
    ensures TransitionOf(body, p) == None <==>
      match body
      case CheckoutCompleted(paid, amount, currency, _) => paid && !Names(amount, currency, p)
      case AsyncSucceeded(amount, currency, _) => !Names(amount, currency, p)
      case ChargeRefunded(amount, currency, refunded, _) =>
        !Names(amount, currency, p) || refunded == None || refunded.value < 0 || refunded.value > p.total
      case AsyncFailed => false
      case IntentFailed => false
      case CheckoutExpired => false
  {
  }

  /** The payment after an accepted event that was not seen before. */
  function Written(p: Payment, body: Body): Payment {
    var next := p.(version := p.version + 1);
    match body
    case CheckoutCompleted(paid, _, _, intent) => if paid then Paid(p, intent) else p
    case AsyncSucceeded(_, _, intent) => Paid(p, intent)
    case AsyncFailed => if p.status == Pending then next.(status := Failed) else p
    case IntentFailed => if p.status == Pending then next.(status := Failed) else p
    case CheckoutExpired => if p.status == Pending then next.(status := Canceled) else p
    case ChargeRefunded(_, _, refunded, charge) =>
      var refund := next.(refundAmount := refunded, charge := if charge == None then p.charge else charge);
      if refunded == Some(p.total) then refund.(status := Refunded, refundStatus := Full)
      else refund.(refundStatus := Partial)
  }

  /** A paid completion: SUCCEEDED, unless refunded, with the intent if it names one. */
  function Paid(p: Payment, intent: Option<string>): Payment {
    if p.status == Refunded then p
    else p.(status := Succeeded, intent := if intent == None then p.intent else intent, version := p.version + 1)
  }

  /** What a webhook writes: nothing when rejected or seen before; otherwise the payment as
      above, the event's id, and one audit of the status before and after if the payment
      was written. */
  lemma ReceiveWrites(l: Ledger, e: Event)
    ensures var t := Receive(l, e);
      if TransitionOf(e.body, l.payment) == None || e.id in l.seen then t == l
      else
        && t.payment == Written(l.payment, e.body)
        && t.seen == l.seen + {e.id}
        && t.audits == if t.payment == l.payment then l.audits
                       else l.audits + [Transitioned(l.payment.status, t.payment.status, t.payment.refundStatus)]
  {
  }
}
