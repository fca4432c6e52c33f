/** src/payments/stripe-webhooks.service.ts: receiving events about one payment,
    after the signature, the tenant and the payment have been established, each
    call taken as one step. */
module StripeWebhooks {
  import opened Common
  import opened PaymentGate
  import opened PaymentRow

  /** The handled event types with the fields each one reads; a field that is not
      of the expected form is None. */
  datatype Body =
    | CheckoutCompleted(paid: bool, amount: Option<int>, currency: string, intent: Option<string>)
    | AsyncSucceeded(amount: Option<int>, currency: string, intent: Option<string>)
    | AsyncFailed
    | IntentFailed
    | CheckoutExpired
    | ChargeRefunded(amount: Option<int>, currency: string, refunded: Option<int>, charge: Option<string>)

  datatype Event = Event(id: string, body: Body)

  datatype Transition = Transition(
    status: Option<PaymentStatus>,
    refundStatus: Option<RefundStatus>,
    refundAmount: Option<int>,
    intent: Option<string>,
    charge: Option<string>)

  const NO_CHANGE := Transition(None, None, None, None, None)

  predicate ExpectedMoney(amount: Option<int>, currency: string, total: int, expected: string) {
    amount == Some(total) && currency == expected
  }

  /** None stands for the UnprocessableEntityException. */
  function TransitionOf(body: Body, p: Payment): Option<Transition> {
    match body
    case CheckoutCompleted(paid, amount, currency, intent) =>
      if !paid then Some(NO_CHANGE) else Completion(amount, currency, intent, p)
    case AsyncSucceeded(amount, currency, intent) => Completion(amount, currency, intent, p)
    case AsyncFailed => Some(if p.status.Pending? then NO_CHANGE.(status := Some(Failed)) else NO_CHANGE)
    case IntentFailed => Some(if p.status.Pending? then NO_CHANGE.(status := Some(Failed)) else NO_CHANGE)
    case CheckoutExpired => Some(if p.status.Pending? then NO_CHANGE.(status := Some(Canceled)) else NO_CHANGE)
    case ChargeRefunded(amount, currency, refunded, charge) =>
      if !ExpectedMoney(amount, currency, p.total, p.currency) then None
      else if refunded.None? || refunded.value < 0 || amount.value < 0 || refunded.value > amount.value then None
      else if refunded == amount then Some(Transition(Some(Refunded), Some(Full), refunded, None, charge))
      else Some(Transition(Some(p.status), Some(Partial), refunded, None, charge))
  }

  function Completion(amount: Option<int>, currency: string, intent: Option<string>, p: Payment): Option<Transition> {
    if !ExpectedMoney(amount, currency, p.total, p.currency) then None
    else if p.status.Refunded? then Some(NO_CHANGE)
    else Some(NO_CHANGE.(status := Some(Succeeded), intent := intent))
  }

  function Or<T>(value: Option<T>, current: T): T {
    if value.Some? then value.value else current
  }

  function PaymentUpdate(p: Payment, t: Transition): Payment {
    p.(status := Or(t.status, p.status),
       refundStatus := Or(t.refundStatus, p.refundStatus),
       refundAmount := if t.refundAmount.Some? then t.refundAmount else p.refundAmount,
       intent := if t.intent.Some? then t.intent else p.intent,
       charge := if t.charge.Some? then t.charge else p.charge,
       version := p.version + 1)
  }

  datatype Audit = Transitioned(previous: PaymentStatus, status: PaymentStatus, refundStatus: RefundStatus)

  /** The payment, the stored event ids and the audit entries. */
  datatype Ledger = Ledger(payment: Payment, seen: set<string>, audits: seq<Audit>)

  /** The transaction of receive, `read` being the payment found before it began. */
  function Commit(l: Ledger, e: Event, read: Payment): Ledger {
    var t := TransitionOf(e.body, read);
    if t.None? || e.id in l.seen then l
    else if t.value == NO_CHANGE then l.(seen := l.seen + {e.id})
    else
      Ledger(PaymentUpdate(l.payment, t.value), l.seen + {e.id},
             l.audits + [Transitioned(read.status, Or(t.value.status, read.status),
                 Or(t.value.refundStatus, read.refundStatus))])
  }

  /** A whole call: nothing is written between its read and its transaction. */
  function Receive(l: Ledger, e: Event): Ledger {
    Commit(l, e, l.payment)
  }

  /** Events in order of delivery. */
  function ReceiveAll(l: Ledger, es: seq<Event>): Ledger {
    if es == [] then l else Receive(ReceiveAll(l, es[..|es| - 1]), es[|es| - 1])
  }

  // ----- deduplication -----

  /** Whether an event is accepted depends on the payment's money alone. */
  predicate Accepted(e: Event, total: int, currency: string) {
    match e.body
    case CheckoutCompleted(paid, amount, cur, _) => !paid || ExpectedMoney(amount, cur, total, currency)
    case AsyncSucceeded(amount, cur, _) => ExpectedMoney(amount, cur, total, currency)
    case ChargeRefunded(amount, cur, refunded, _) =>
      ExpectedMoney(amount, cur, total, currency) && refunded.Some? && 0 <= refunded.value <= total
    case _ => true
  }

  predicate Named(es: seq<Event>, id: string) {
    exists e <- es :: e.id == id
  }

  /** The accepted events, each id kept where it is first accepted. */
  function FirstAccepted(es: seq<Event>, total: int, currency: string): seq<Event> {
    if es == [] then []
    else
      var before, e := FirstAccepted(es[..|es| - 1], total, currency), es[|es| - 1];
      if Accepted(e, total, currency) && !Named(before, e.id) then before + [e] else before
  }

  /** What an unpaid, never refunded request looks like to the webhooks. */
  predicate Open(p: Payment) {
    p.status.Pending? && p.refundStatus.NoRefund? && p.refundAmount.None?
  }

  lemma ReceiveKeepsMoney(l: Ledger, e: Event)
    ensures var t := Receive(l, e);
      && t.payment.total == l.payment.total && t.payment.currency == l.payment.currency
      && (TransitionOf(e.body, l.payment).Some? <==> Accepted(e, l.payment.total, l.payment.currency))
  {
  }

  lemma {:induction false} SeenAreAccepted(l: Ledger, es: seq<Event>)
    requires l.seen == {}
    ensures var t := ReceiveAll(l, es);
      && t.payment.total == l.payment.total && t.payment.currency == l.payment.currency
      && forall id :: id in t.seen <==> Named(FirstAccepted(es, l.payment.total, l.payment.currency), id)
  {
    if es != [] {
      var e, before := es[|es| - 1], es[..|es| - 1];
      SeenAreAccepted(l, before);
      ReceiveKeepsMoney(ReceiveAll(l, before), e);
      var kept := FirstAccepted(before, l.payment.total, l.payment.currency);
      forall id
        ensures Named(kept + [e], id) <==> Named(kept, id) || id == e.id
      {
        if Named(kept, id) {
          var k :| k in kept && k.id == id;
          assert k in kept + [e];
        }
        assert e in kept + [e];
      }
    }
  }

  /** Redelivered events change nothing: any delivery sequence leaves the same
      payment, audit log and ids as the events kept at their first acceptance. */
  lemma {:induction false} RedeliveryChangesNothing(l: Ledger, es: seq<Event>)
    requires l.seen == {}
    ensures ReceiveAll(l, es) == ReceiveAll(l, FirstAccepted(es, l.payment.total, l.payment.currency))
  {
    if es != [] {
      var e, before := es[|es| - 1], es[..|es| - 1];
      RedeliveryChangesNothing(l, before);
      SeenAreAccepted(l, before);
      ReceiveKeepsMoney(ReceiveAll(l, before), e);
      var kept := FirstAccepted(before, l.payment.total, l.payment.currency);
      assert (kept + [e])[..|kept|] == kept;
    }
  }

  // ----- the closed form -----

  predicate FullRefund(e: Event) {
    e.body.ChargeRefunded? && e.body.refunded == e.body.amount
  }

  predicate PaidCompletion(e: Event) {
    (e.body.CheckoutCompleted? && e.body.paid) || e.body.AsyncSucceeded?
  }

  predicate FailureOrExpiry(e: Event) {
    e.body.AsyncFailed? || e.body.IntentFailed? || e.body.CheckoutExpired?
  }

  ghost predicate Any(es: seq<Event>, p: Event -> bool) {
    exists e <- es :: p(e)
  }

  /** The first failure or expiry decides. */
  function Refusal(es: seq<Event>): (r: PaymentStatus)
    ensures r.Pending? || r.Canceled? || r.Failed?
  {
    if es == [] then Pending
    else if FailureOrExpiry(es[0]) then (if es[0].body.CheckoutExpired? then Canceled else Failed)
    else Refusal(es[1..])
  }

  ghost function Verdict(es: seq<Event>): PaymentStatus {
    if Any(es, FullRefund) then Refunded
    else if Any(es, PaidCompletion) then Succeeded
    else Refusal(es)
  }

  function LastRefund(es: seq<Event>): Option<int> {
    if es == [] then None
    else if es[|es| - 1].body.ChargeRefunded? then es[|es| - 1].body.refunded
    else LastRefund(es[..|es| - 1])
  }

  lemma {:induction false} RefusalOfMore(es: seq<Event>, e: Event)
    ensures Refusal(es + [e]) == if Refusal(es) != Pending then Refusal(es) else Refusal([e])
  {
    if es == [] {
      assert [] + [e] == [e];
    } else {
      RefusalOfMore(es[1..], e);
      assert (es + [e])[1..] == es[1..] + [e];
    }
  }

  lemma AnyOfMore(es: seq<Event>, e: Event, p: Event -> bool)
    ensures Any(es + [e], p) <==> Any(es, p) || p(e)
  {
    assert e in es + [e];
    if Any(es, p) {
      var k :| k in es && p(k);
      assert k in es + [e];
    }
  }

  predicate Fresh(es: seq<Event>, total: int, currency: string) {
    && (forall e <- es :: Accepted(e, total, currency))
    && (forall i, j | 0 <= i < j < |es| :: es[i].id != es[j].id)
  }

  lemma {:induction false} KeptAreFresh(es: seq<Event>, total: int, currency: string)
    ensures Fresh(FirstAccepted(es, total, currency), total, currency)
  {
    if es != [] {
      KeptAreFresh(es[..|es| - 1], total, currency);
    }
  }

  lemma VerdictOfMore(es: seq<Event>, e: Event)
    ensures Verdict(es + [e]) ==
      if FullRefund(e) || Verdict(es).Refunded? then Refunded
      else if PaidCompletion(e) || Verdict(es).Succeeded? then Succeeded
      else if !Verdict(es).Pending? then Verdict(es)
      else Refusal([e])
  {
    AnyOfMore(es, e, FullRefund);
    AnyOfMore(es, e, PaidCompletion);
    RefusalOfMore(es, e);
  }

  ghost predicate Decided(p: Payment, es: seq<Event>) {
    p.status == Verdict(es) && p.refundAmount == LastRefund(es) && RefundSound(p)
  }

  lemma StatusAfter(l: Ledger, e: Event)
    requires e.id !in l.seen && Accepted(e, l.payment.total, l.payment.currency)
    ensures Receive(l, e).payment.status ==
      if FullRefund(e) || l.payment.status.Refunded? then Refunded
      else if PaidCompletion(e) || l.payment.status.Succeeded? then Succeeded
      else if !l.payment.status.Pending? then l.payment.status
      else if !FailureOrExpiry(e) then Pending
      else if e.body.CheckoutExpired? then Canceled
      else Failed
  {
  }

  lemma RefundAfter(l: Ledger, e: Event)
    requires e.id !in l.seen && Accepted(e, l.payment.total, l.payment.currency)
    ensures Receive(l, e).payment.refundAmount ==
      if e.body.ChargeRefunded? then e.body.refunded else l.payment.refundAmount
  {
  }

  lemma EventDecides(l: Ledger, es: seq<Event>, e: Event, after: Payment)
    requires Decided(l.payment, es) && e.id !in l.seen && after == Receive(l, e).payment
    requires Accepted(e, l.payment.total, l.payment.currency)
    ensures Decided(after, es + [e])
  {
    StatusAfter(l, e);
    RefundAfter(l, e);
    ReceiveKeepsRefundSound(l, e);
    var status, refund := after.status, after.refundAmount;
    VerdictOfMore(es, e);
    RefusalOne(e);
    assert status == Verdict(es + [e]);
    assert (es + [e])[..|es|] == es;
    assert refund == LastRefund(es + [e]);
  }

  lemma {:induction false} FreshEventsDecide(l: Ledger, es: seq<Event>)
    requires l.seen == {} && Open(l.payment) && Fresh(es, l.payment.total, l.payment.currency)
    ensures Decided(ReceiveAll(l, es).payment, es)
  {
    if es != [] {
      var n := |es| - 1;
      var e, before := es[n], es[..n];
      assert es == before + [e];
      assert Fresh(before, l.payment.total, l.payment.currency) by {
        assert forall k <- before :: k in es;
      }
      FreshEventsDecide(l, before);
      SeenAreAccepted(l, before);
      KeptWhenFresh(before, l.payment.total, l.payment.currency);
      assert !Named(before, e.id);
      assert e in es;
      EventDecides(ReceiveAll(l, before), before, e, ReceiveAll(l, es).payment);
    }
  }

  lemma {:induction false} KeptWhenFresh(es: seq<Event>, total: int, currency: string)
    requires Fresh(es, total, currency)
    ensures FirstAccepted(es, total, currency) == es
  {
    if es != [] {
      var n := |es| - 1;
      assert es == es[..n] + [es[n]];
      assert forall k <- es[..n] :: k in es;
      KeptWhenFresh(es[..n], total, currency);
      assert es[n] in es;
      assert !Named(es[..n], es[n].id);
    }
  }

  lemma RefusalOne(e: Event)
    ensures Refusal([e]) == if !FailureOrExpiry(e) then Pending else if e.body.CheckoutExpired? then Canceled
        else Failed
  {
    assert [e][1..] == [];
  }

  /** From an open request, after any deliveries in any order and multiplicity:
      REFUNDED if a full refund was accepted, else SUCCEEDED if a paid completion
      was, else what the first failure or expiry says, else PENDING. The recorded
      refund is the last one accepted, within the total, and FULL only when all
      of it was refunded. */
  lemma DeliveriesDecide(l: Ledger, es: seq<Event>)
    requires l.seen == {} && Open(l.payment)
    ensures var kept := FirstAccepted(es, l.payment.total, l.payment.currency);
      var p := ReceiveAll(l, es).payment;
      Decided(p, kept)
  {
    RedeliveryChangesNothing(l, es);
    KeptAreFresh(es, l.payment.total, l.payment.currency);
    FreshEventsDecide(l, FirstAccepted(es, l.payment.total, l.payment.currency));
  }

  /** Once money has moved the order of delivery does not matter: two sequences
      that accept the same events end in the same status. */
  lemma MovedMoneyCommutes(l: Ledger, es: seq<Event>, others: seq<Event>)
    requires l.seen == {} && Open(l.payment)
    requires var total, currency := l.payment.total, l.payment.currency;
      forall e :: e in FirstAccepted(es, total, currency) <==> e in FirstAccepted(others, total, currency)
    requires var kept := FirstAccepted(es, l.payment.total, l.payment.currency);
      Any(kept, FullRefund) || Any(kept, PaidCompletion)
    ensures ReceiveAll(l, es).payment.status == ReceiveAll(l, others).payment.status
  {
    DeliveriesDecide(l, es);
    DeliveriesDecide(l, others);
  }

  /** What a dispatcher sees of it: behind required payment the gate opens exactly
      while money was received and not wholly refunded, or an exception is granted. */
  lemma GateFollowsTheMoney(l: Ledger, es: seq<Event>, policy: Policy)
    requires l.seen == {} && Open(l.payment) && (policy.depositRequired || policy.serviceFeeRequired)
    ensures var kept := FirstAccepted(es, l.payment.total, l.payment.currency);
      var excepted := policy.manualOverride && policy.exceptionActive && policy.approvedAt.Some? && policy.reason.Some?;
      EvaluateGate(policy, Some(ReceiveAll(l, es).payment.status)).Unlocked? <==>
        excepted || (Any(kept, PaidCompletion) && !Any(kept, FullRefund))
  {
    DeliveriesDecide(l, es);
  }

  lemma ReceiveKeepsRefundSound(l: Ledger, e: Event)
    requires RefundBounded(l.payment)
    ensures RefundBounded(Receive(l, e).payment)
    ensures RefundSound(l.payment) ==> RefundSound(Receive(l, e).payment)
  {
  }

  // ----- a payment read before the transaction -----

  /** When a webhook that read an older status still writes what it would write now:
      with two calls in flight the read and the transaction are not one step. */
  lemma StaleReadAgreesIff(l: Ledger, e: Event, read: Payment)
    requires e.id !in l.seen && Accepted(e, l.payment.total, l.payment.currency)
    requires read.total == l.payment.total && read.currency == l.payment.currency
    ensures Commit(l, e, read).payment == Receive(l, e).payment <==>
      (PaidCompletion(e) ==> (read.status.Refunded? <==> l.payment.status.Refunded?))
      && (FailureOrExpiry(e) ==> (read.status.Pending? <==> l.payment.status.Pending?))
      && (e.body.ChargeRefunded? && !FullRefund(e) ==> read.status == l.payment.status)
  {
    assert PaymentUpdate(l.payment, NO_CHANGE.(status := Some(Failed))).version != l.payment.version;
  }

  /** A failure read before a completion was recorded, and written after it, takes
      the recorded payment away. */
  lemma RacingEventsLosePayment(l: Ledger, failure: Event, completion: Event)
    requires Open(l.payment) && l.seen == {} && failure.id != completion.id
    requires failure.body.AsyncFailed? && PaidCompletion(completion)
    requires Accepted(completion, l.payment.total, l.payment.currency)
    ensures Commit(Receive(l, completion), failure, l.payment).payment.status.Failed?
    ensures Receive(Receive(l, failure), completion).payment.status.Succeeded?
  {
  }
}
