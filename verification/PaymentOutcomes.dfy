/** What every interleaving of payment requests and webhooks says about the money:
    where the stored total comes from, what the stored checkout charges, how a
    recorded refund is bounded and which rows create calls leave alone. */
module PaymentOutcomes {
  import opened Common
  import opened PaymentRow
  import opened PaymentRequests
  import StripeWebhooks

  // ----- every amount was asked for under its key -----

  ghost predicate Asks(a: Action, key: string, request: Request) {
    a.Load? && a.key == key && RequirementOf(a.job.policy, a.job.pricing) == Required(request)
  }

  ghost predicate Asked(actions: seq<Action>, key: string, request: Request) {
    exists a <- actions :: Asks(a, key, request)
  }

  ghost predicate SessionAsked(session: Session, actions: seq<Action>) {
    Asked(actions, session.key, Request(session.total, session.currency))
  }

  ghost predicate RowAsked(row: Option<Payment>, actions: seq<Action>) {
    row.Some? ==>
      && Asked(actions, row.value.key, Request(row.value.total, row.value.currency))
      && (row.value.session.Some? ==> SessionAsked(row.value.session.value, actions))
  }

  ghost predicate CallAsked(c: Call, actions: seq<Action>) {
    && (c.Loaded? || c.Admitted? || c.Asking? || c.Answered? ==> Asked(actions, c.key, c.request))
    && (c.Answered? && c.checkout.Some? ==> SessionAsked(c.checkout.value.session, actions))
  }

  ghost predicate AllAsked(s: State, actions: seq<Action>) {
    RowAsked(s.row, actions) && forall c <- s.calls :: CallAsked(c, actions)
  }

  lemma RowStaysAsked(s: State, a: Action, actions: seq<Action>)
    requires AllAsked(s, actions)
    ensures RowAsked(Step(s, a).row, actions)
  {
    var i := Mover(s, a);
    if i < |s.calls| {
      assert CallAsked(s.calls[i], actions);
      if a.CommitEvent? && s.calls[i].Noticed? && s.row.Some? {
        CommitKeepsRequest(StripeWebhooks.Ledger(s.row.value, s.seen, []), s.calls[i].event, s.calls[i].read);
      }
    }
  }

  lemma MoverStaysAsked(s: State, a: Action, actions: seq<Action>)
    requires AllAsked(s, actions) && a in actions && Mover(s, a) < |Step(s, a).calls|
    ensures CallAsked(Step(s, a).calls[Mover(s, a)], actions)
  {
    var i := Mover(s, a);
    if i < |s.calls| {
      assert CallAsked(s.calls[i], actions);
    } else if a.Load? {
      var required := RequirementOf(a.job.policy, a.job.pricing);
      if required.Required? {
        assert Asks(a, a.key, required.request);
      }
    }
  }

  lemma StepStaysAsked(s: State, a: Action, actions: seq<Action>)
    requires AllAsked(s, actions) && a in actions
    ensures AllAsked(Step(s, a), actions)
  {
    var t := Step(s, a);
    RowStaysAsked(s, a, actions);
    OtherCallsStay(s, a);
    forall i | 0 <= i < |t.calls|
      ensures CallAsked(t.calls[i], actions)
    {
      if i == Mover(s, a) {
        MoverStaysAsked(s, a, actions);
      } else {
        assert CallAsked(s.calls[i], actions);
      }
    }
  }

  lemma {:induction false} RunStaysAsked(s: State, rest: seq<Action>, actions: seq<Action>)
    requires AllAsked(s, actions) && forall a <- rest :: a in actions
    ensures AllAsked(Run(s, rest), actions)
    decreases |rest|
  {
    if rest != [] {
      StepStaysAsked(s, rest[0], actions);
      RunStaysAsked(Step(s, rest[0]), rest[1..], actions);
    }
  }

  /** In every interleaving the stored total is the sum of the parts required by a job
      loaded under the stored key; it lies between 1 and 200,000,000 and its currency
      is three small letters. */
  lemma StoredTotalIsTheSum(actions: seq<Action>)
    ensures var row := Run(INITIAL, actions).row;
      row.Some? ==>
        Priced(Request(row.value.total, row.value.currency))
        && exists a <- actions ::
             && a.Load? && a.key == row.value.key
             && row.value.total == Part(a.job.policy.depositRequired, a.job.pricing.deposit)
                                 + Part(a.job.policy.serviceFeeRequired, a.job.pricing.serviceFee)
  {
    RunStaysAsked(INITIAL, actions, actions);
    var row := Run(INITIAL, actions).row;
    if row.Some? {
      var a :| a in actions && Asks(a, row.value.key, Request(row.value.total, row.value.currency));
      RequirementIsTheSum(a.job.policy, a.job.pricing);
    }
  }

  /** A caller's discipline: one idempotency key, one amount. */
  ghost predicate OnePricePerKey(actions: seq<Action>) {
    forall a <- actions, b <- actions | a.Load? && b.Load? && a.key == b.key ::
      RequirementOf(a.job.policy, a.job.pricing) == RequirementOf(b.job.policy, b.job.pricing)
  }

  /** Then the checkout a customer is sent always charges the recorded total. */
  lemma CheckoutChargesTheTotal(actions: seq<Action>)
    requires OnePricePerKey(actions)
    ensures var row := Run(INITIAL, actions).row;
      row.Some? && row.value.session.Some? ==>
        row.value.session.value.total == row.value.total && row.value.session.value.currency == row.value.currency
  {
    RunStaysAsked(INITIAL, actions, actions);
    SessionBelongsToKey(INITIAL, actions);
    var row := Run(INITIAL, actions).row;
    if row.Some? && row.value.session.Some? {
      var session := row.value.session.value;
      var a :| a in actions && Asks(a, row.value.key, Request(row.value.total, row.value.currency));
      var b :| b in actions && Asks(b, session.key, Request(session.total, session.currency));
    }
  }

  // ----- refunds -----

  /** Each webhook is written while the payment still has the total it was read with. */
  predicate MoneyHolds(s: State, actions: seq<Action>)
    decreases |actions|
  {
    actions != [] ==>
      var a := actions[0];
      && (a.CommitEvent? && a.call < |s.calls| && s.calls[a.call].Noticed? && s.row.Some? ==>
            s.calls[a.call].read.total == s.row.value.total)
      && MoneyHolds(Step(s, a), actions[1..])
  }

  lemma CommitStaysBounded(l: StripeWebhooks.Ledger, e: StripeWebhooks.Event, read: Payment)
    requires RefundBounded(l.payment) && read.total == l.payment.total
    ensures RefundBounded(StripeWebhooks.Commit(l, e, read).payment)
  {
  }

  lemma StepStaysBounded(s: State, a: Action)
    requires MoneyHolds(s, [a]) && (s.row.Some? ==> RefundBounded(s.row.value))
    ensures Step(s, a).row.Some? ==> RefundBounded(Step(s, a).row.value)
  {
    if a.CommitEvent? && a.call < |s.calls| && s.calls[a.call].Noticed? && s.row.Some? {
      CommitStaysBounded(StripeWebhooks.Ledger(s.row.value, s.seen, []), s.calls[a.call].event, s.calls[a.call].read);
    }
  }

  /** Through requests, retries, failures and webhooks a recorded refund lies between
      zero and the total, and its status is FULL exactly when it is the total. */
  lemma {:induction false} RefundStaysBounded(s: State, actions: seq<Action>)
    requires MoneyHolds(s, actions) && (s.row.Some? ==> RefundBounded(s.row.value))
    ensures var row := Run(s, actions).row;
      row.Some? ==> RefundBounded(row.value)
    decreases |actions|
  {
    if actions != [] {
      StepStaysBounded(s, actions[0]);
      RefundStaysBounded(Step(s, actions[0]), actions[1..]);
    }
  }

  // ----- rows that create calls leave alone -----

  /** Paid through a stored checkout, or waiting for one that is open until after `end`. */
  predicate Closed(p: Payment, end: int) {
    p.session.Some? && (p.status.Succeeded? || (p.status.Pending? && p.expiresAt.Some? && end < p.expiresAt.value))
  }

  predicate Before(a: Action, end: int) {
    !a.CommitEvent? && (a.Tick? ==> a.to <= end)
  }

  /** Whatever create calls are in flight or begin, a paid or live request keeps its
      whole row until its checkout expires. */
  lemma {:induction false} ClosedRequestIsKept(s: State, actions: seq<Action>, end: int)
    requires s.row.Some? && Closed(s.row.value, end) && s.now <= end
    requires forall a <- actions :: Before(a, end)
    ensures Run(s, actions).row == s.row && Run(s, actions).won == s.won
    decreases |actions|
  {
    if actions != [] {
      StepKeepsClosed(s, actions[0], end);
      ClosedRequestIsKept(Step(s, actions[0]), actions[1..], end);
    }
  }

  lemma StepKeepsClosed(s: State, a: Action, end: int)
    requires s.row.Some? && Closed(s.row.value, end) && s.now <= end && Before(a, end)
    ensures var t := Step(s, a);
      t.row == s.row && t.won == s.won && t.now <= end
  {
  }

  // ----- what the code does not promise -----

  predicate Ready(job: Job) {
    && !job.status.Completed? && !job.status.Cancelled? && job.chargesReady
    && RequirementOf(job.policy, job.pricing).Required?
  }

  function Wants(job: Job): Request
    requires Ready(job)
  {
    RequirementOf(job.policy, job.pricing).request
  }

  /** A first request made at time 0, up to its reservation. */
  function First(key: string, job: Job): seq<Action> {
    [Load(key, job, job.version), Decide(0), Reserve(0, 0, false)]
  }

  function FirstRow(key: string, request: Request): Payment {
    Reserved(None, key, request, 0)
  }

  lemma FirstReserves(key: string, job: Job)
    requires Ready(job)
    ensures Run(INITIAL, First(key, job)) ==
      State(Some(FirstRow(key, Wants(job))), [Asking(key, Wants(job), false)], 0, {}, [], [], [key])
  {
    var load, decide, reserve := Load(key, job, job.version), Decide(0), Reserve(0, 0, false);
    var s1 := Step(INITIAL, load);
    assert s1.calls == [Loaded(key, Wants(job), None)];
    var s2 := Step(s1, decide);
    assert s2.calls == [Admitted(key, Wants(job), None, 0)];
    var s3 := Step(s2, reserve);
    assert s3.calls == [Asking(key, Wants(job), false)];
    assert s3.won == [key];
    RunsInTurn(INITIAL, load, decide, reserve);
  }

  lemma RunsInTurn(s: State, a: Action, b: Action, c: Action)
    ensures Run(s, [a, b, c]) == Step(Step(Step(s, a), b), c)
  {
    assert [a, b, c][1..] == [b, c] && [b, c][1..] == [c] && [c][1..] == [];
    assert Run(Step(Step(s, a), b), [c]) == Step(Step(Step(s, a), b), c);
    assert Run(Step(s, a), [b, c]) == Run(Step(Step(s, a), b), [c]);
  }

  /** recordFailure does not look at the status: when a payment is completed before the
      provider's answer is known, a failed answer erases it. */
  lemma FailureErasesPayment(key: string, job: Job, paid: StripeWebhooks.Event)
    requires Ready(job) && StripeWebhooks.PaidCompletion(paid)
    requires StripeWebhooks.Accepted(paid, Wants(job).total, Wants(job).currency)
    ensures var s := Run(INITIAL, First(key, job));
      var t := Step(Step(s, ReadEvent(paid)), CommitEvent(1, false));
      && t.row.Some? && t.row.value.status.Succeeded?
      && var u := Step(Step(t, Provider(0, None)), Record(0, false));
         u.row.Some? && u.row.value.status.Failed?
  {
    FirstReserves(key, job);
  }

  /** The second request under the same key, once the first is abandoned. */
  function Again(i: nat, key: string, job: Job): seq<Action> {
    [Load(key, job, job.version), Decide(i), Reserve(i, RESERVATION_TIMEOUT, false)]
  }

  lemma AgainReserves(s: State, first: string, earlier: Request, key: string, job: Job)
    requires Ready(job)
    requires s.row == Some(FirstRow(first, earlier)) && s.now == RESERVATION_TIMEOUT
    ensures Run(s, Again(|s.calls|, key, job)) == s.(
      row := Some(Reserved(s.row, key, Wants(job), RESERVATION_TIMEOUT)),
      calls := s.calls + [Asking(key, Wants(job), false)],
      won := s.won + [key])
  {
    var i := |s.calls|;
    var load, decide, reserve := Load(key, job, job.version), Decide(i), Reserve(i, RESERVATION_TIMEOUT, false);
    var s1 := Step(s, load);
    assert s1.calls == s.calls + [Loaded(key, Wants(job), s.row)];
    var s2 := Step(s1, decide);
    assert s2.calls == s.calls + [Admitted(key, Wants(job), s.row, s.now)];
    RunsInTurn(s, load, decide, reserve);
  }

  /** A key reused after the price changed: the first call's late checkout is stored
      beside the second call's total. */
  lemma ReusedKeyMisprices(key: string, job: Job, repriced: Job, reply: Reply)
    requires Ready(job) && Ready(repriced)
    ensures var s := Step(Run(INITIAL, First(key, job)), Tick(RESERVATION_TIMEOUT));
      var t := Step(Step(Run(s, Again(1, key, repriced)), Provider(0, Some(reply))), Record(0, false));
      && t.row.Some? && t.row.value.session.Some?
      && t.row.value.session.value.total == Wants(job).total && t.row.value.total == Wants(repriced).total
  {
    FirstReserves(key, job);
    var s := Step(Run(INITIAL, First(key, job)), Tick(RESERVATION_TIMEOUT));
    AgainReserves(s, key, Wants(job), key, repriced);
  }

  /** A refund read before a re-request and written after it is recorded against the
      new total: it stays bounded exactly when it fits the new total as it fitted the old. */
  lemma StaleRefundBoundedIff(l: StripeWebhooks.Ledger, e: StripeWebhooks.Event, read: Payment)
    requires RefundBounded(l.payment) && e.id !in l.seen
    requires e.body.ChargeRefunded? && StripeWebhooks.Accepted(e, read.total, read.currency)
    ensures RefundBounded(StripeWebhooks.Commit(l, e, read).payment) <==>
      var refunded := e.body.refunded.value;
      refunded <= l.payment.total && (refunded == read.total <==> refunded == l.payment.total)
  {
  }

  lemma StaleRefundExceeds(key: string, job: Job, other: string, cheaper: Job, refund: StripeWebhooks.Event)
    requires Ready(job) && Ready(cheaper) && Wants(cheaper).total < Wants(job).total && key != other
    requires StripeWebhooks.FullRefund(refund)
    requires StripeWebhooks.Accepted(refund, Wants(job).total, Wants(job).currency)
    ensures var s := Step(Step(Run(INITIAL, First(key, job)), ReadEvent(refund)), Tick(RESERVATION_TIMEOUT));
      var t := Step(Run(s, Again(2, other, cheaper)), CommitEvent(1, false));
      t.row.Some? && t.row.value.refundAmount.Some? && t.row.value.refundAmount.value > t.row.value.total
  {
    FirstReserves(key, job);
    var s := Step(Step(Run(INITIAL, First(key, job)), ReadEvent(refund)), Tick(RESERVATION_TIMEOUT));
    AgainReserves(s, key, Wants(job), other, cheaper);
  }
}
