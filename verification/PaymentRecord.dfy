/** The payment row as the object its services update. A create call or a webhook is
    a method, proved to take the interleaved machine's steps with nothing between. */
module PaymentRecord {
  import opened Common
  import opened PaymentGate
  import opened PaymentRow
  import opened PaymentRequests
  import StripeWebhooks

  /** One serialized call with the outcomes of its provider call and its two writes. */
  datatype Visit =
    | Create(key: string, job: Job, expected: nat, reply: Option<Reply>, reserveFails: bool, recordFails: bool)
    | Webhook(event: StripeWebhooks.Event, fails: bool)
    | Wait(to: int)

  function Serve(s: State, v: Visit): State {
    var i := |s.calls|;
    match v
    case Create(key, job, expected, reply, reserveFails, recordFails) =>
      var reserved := Step(Step(Step(s, Load(key, job, expected)), Decide(i)), Reserve(i, s.now, reserveFails));
      Step(Step(reserved, Provider(i, reply)), Record(i, recordFails))
    case Webhook(event, fails) => Step(Step(s, ReadEvent(event)), CommitEvent(i, fails))
    case Wait(to) => Step(s, Tick(to))
  }

  function ServeAll(s: State, visits: seq<Visit>): State {
    if visits == [] then s else Serve(ServeAll(s, visits[..|visits| - 1]), visits[|visits| - 1])
  }

  ghost predicate RowSound(row: Option<Payment>) {
    row.Some? ==> RefundSound(row.value)
  }

  datatype Effect = Effect(row: Option<Payment>, entries: seq<Entry>, outcome: Outcome)

  /** What an undisturbed create call does, read off its three writes. */
  function CreateAlone(row: Option<Payment>, now: int, v: Visit): Effect
    requires v.Create?
  {
    var loaded := LoadCall(row, v.key, v.job, v.expected);
    if loaded.Ended? then Effect(row, [], loaded.outcome)
    else
      match Admit(row, v.key, now)
      case Refuse(outcome) => Effect(row, [], outcome)
      case Replay =>
        if v.reply.None? then Effect(row, [], ProviderFailed)
        else Effect(row, [], if v.recordFails || row.None? then DatabaseFailed else Answer(row.value))
      case Proceed =>
        if row.Some? && !Over(row.value, now) then Effect(row, [], RequestActive)
        else if v.reserveFails then Effect(row, [], DatabaseFailed)
        else ReservedAlone(Reserved(row, v.key, loaded.request, now), loaded.request, v)
  }

  function ReservedAlone(p: Payment, request: Request, v: Visit): Effect
    requires v.Create?
  {
    if v.recordFails then Effect(Some(p), [], if v.reply.None? then ProviderFailed else DatabaseFailed)
    else if v.reply.None? then
      Effect(Some(p.(status := Failed, version := p.version + 1)), [RequestFailed(v.key)], ProviderFailed)
    else
      var r := v.reply.value;
      var session := Session(r.id, v.key, request.total, request.currency);
      var stored := p.(session := Some(session), intent := r.intent, expiresAt := Some(r.expiresAt),
          version := p.version + 1);
      Effect(Some(stored), [RequestCreated(v.key)], Answer(stored))
  }

  /** The state when the last call has come to c. */
  function At(s: State, c: Call): State {
    s.(calls := s.calls + [c])
  }

  lemma LastCall(s: State, c: Call, d: Call)
    ensures At(s, c).calls[|s.calls|] == c && Set(At(s, c), |s.calls|, d) == At(s, d)
  {
  }

  function Replied(c: Call, reply: Option<Reply>): Call
    requires c.Asking?
  {
    Answered(c.key, c.request, c.replay,
      if reply.None? then None
      else Some(Checkout(Session(reply.value.id, c.key, c.request.total, c.request.currency), reply.value.intent,
          reply.value.expiresAt)))
  }

  /** The provider's answer and its record, for a call that reserved the row. */
  lemma RecordAlone(s: State, request: Request, v: Visit)
    requires v.Create? && s.row.Some? && s.row.value.key == v.key && s.row.value.session.None?
    ensures var i, c := |s.calls|, Asking(v.key, request, false);
      var t, e := Step(Step(At(s, c), Provider(i, v.reply)), Record(i, v.recordFails)),
          ReservedAlone(s.row.value, request, v);
      t.row == e.row && t.log == s.log + e.entries && t.seen == s.seen && t.calls == s.calls + [Ended(e.outcome)]
  {
    var i, c := |s.calls|, Asking(v.key, request, false);
    var asked := Step(At(s, c), Provider(i, v.reply));
    assert asked == At(s, Replied(c, v.reply)).(issued := asked.issued);
  }

  lemma ReplayAlone(s: State, request: Request, v: Visit)
    requires v.Create? && s.row.Some? && s.row.value.session.Some?
    ensures var i, c := |s.calls|, Asking(v.key, request, true);
      var t := Step(Step(At(s, c), Provider(i, v.reply)), Record(i, v.recordFails));
      t.row == s.row && t.log == s.log && t.seen == s.seen
      && t.calls == s.calls + [Ended(if v.reply.None? then ProviderFailed else if v.recordFails then DatabaseFailed
          else Answer(s.row.value))]
  {
    var i, c := |s.calls|, Asking(v.key, request, true);
    var asked := Step(At(s, c), Provider(i, v.reply));
    assert asked == At(s, Replied(c, v.reply)).(issued := asked.issued);
  }

  lemma ReserveAlone(s: State, key: string, request: Request, fails: bool)
    ensures var i := |s.calls|;
      var t := Step(At(s, Admitted(key, request, s.row, s.now)), Reserve(i, s.now, fails));
      if s.row.Some? && !Over(s.row.value, s.now) then t == At(s, Ended(RequestActive))
      else if fails then t == At(s, Ended(DatabaseFailed))
      else t == At(s.(row := Some(Reserved(s.row, key, request, s.now)), won := s.won + [key]),
          Asking(key, request, false))
  {
    if s.row.Some? {
      GuardsAgree(s.row.value, s.now, s.now);
    }
  }

  lemma EndedStays(s: State, outcome: Outcome, v: Visit)
    requires v.Create?
    ensures var i, t := |s.calls|, At(s, Ended(outcome));
      Step(t, Decide(i)) == t && Step(t, Reserve(i, s.now, v.reserveFails)) == t
      && Step(t, Provider(i, v.reply)) == t && Step(t, Record(i, v.recordFails)) == t
  {
  }

  /** An undisturbed run of the machine's five steps has exactly that effect. */
  lemma CreateIsAlone(s: State, v: Visit)
    requires v.Create?
    ensures var t, e := Serve(s, v), CreateAlone(s.row, s.now, v);
      t.row == e.row && t.log == s.log + e.entries && t.seen == s.seen && t.calls == s.calls + [Ended(e.outcome)]
  {
    var i := |s.calls|;
    var loaded := LoadCall(s.row, v.key, v.job, v.expected);
    var s1 := Step(s, Load(v.key, v.job, v.expected));
    assert s1 == At(s, loaded);
    if loaded.Ended? {
      EndedStays(s, loaded.outcome, v);
    } else {
      var decided := DecideCall(loaded, s.now);
      var s2 := Step(s1, Decide(i));
      LastCall(s, loaded, decided);
      assert s2 == At(s, decided);
      if decided.Ended? {
        EndedStays(s, decided.outcome, v);
      } else if decided.Asking? {
        ReplayAlone(s, loaded.request, v);
        assert Step(s2, Reserve(i, s.now, v.reserveFails)) == s2;
      } else {
        ReserveAlone(s, v.key, loaded.request, v.reserveFails);
        EndedStays(s, RequestActive, v);
        EndedStays(s, DatabaseFailed, v);
        var reserved := s.(row := Some(Reserved(s.row, v.key, loaded.request, s.now)), won := s.won + [v.key]);
        RecordAlone(reserved, loaded.request, v);
      }
    }
  }

  /** An undisturbed webhook is StripeWebhooks.Receive. */
  lemma WebhookIsReceive(s: State, event: StripeWebhooks.Event, fails: bool)
    ensures var t := Serve(s, Webhook(event, fails));
      if s.row.None? || fails then t.row == s.row && t.seen == s.seen && t.log == s.log
      else
        var l := StripeWebhooks.Receive(StripeWebhooks.Ledger(s.row.value, s.seen, []), event);
        t.row == Some(l.payment) && t.seen == l.seen && t.log == s.log + EntryOf(l.audits)
  {
    if s.row.Some? {
      LastCall(s, Noticed(event, s.row.value), Ended(EventHandled));
    }
  }

  /** Across serialized requests, retries, provider and database failures and webhooks,
      a recorded refund is within the total, FULL exactly when it is all of it, and a
      fully refunded payment is REFUNDED. */
  lemma {:induction false} RefundsStaySound(s: State, visits: seq<Visit>)
    requires RowSound(s.row)
    ensures RowSound(ServeAll(s, visits).row)
  {
    if visits != [] {
      var before, v := ServeAll(s, visits[..|visits| - 1]), visits[|visits| - 1];
      RefundsStaySound(s, visits[..|visits| - 1]);
      match v
      case Create(_, _, _, _, _, _) => CreateIsAlone(before, v);
      case Webhook(event, fails) =>
        WebhookIsReceive(before, event, fails);
        if before.row.Some? {
          StripeWebhooks.ReceiveKeepsRefundSound(StripeWebhooks.Ledger(before.row.value, before.seen, []), event);
        }
      case Wait(_) =>
    }
  }

  /** While a stored checkout is open, asking again under the same key answers with the
      stored payment and asking under another is refused; neither changes the row. */
  lemma RepeatedCreate(row: Option<Payment>, now: int, v: Visit, later: int, w: Visit)
    requires v.Create? && w.Create? && LoadCall(row, w.key, w.job, w.expected).Loaded?
    requires var e := CreateAlone(row, now, v);
      e.entries == [RequestCreated(v.key)] && v.reply.value.expiresAt > later
    ensures var e, f := CreateAlone(row, now, v), CreateAlone(CreateAlone(row, now, v).row, later, w);
      f.row == e.row && f.entries == []
      && (w.key != v.key ==> f.outcome == RequestActive)
      && (w.key == v.key && w.reply.Some? && !w.recordFails ==> f.outcome == e.outcome)
  {
  }

  class PaymentService {
    var payment: Option<Payment>
    var seen: set<string>
    var log: seq<Entry>

    constructor ()
      ensures payment.None? && seen == {} && log == []
    {
      payment, seen, log := None, {}, [];
    }

    ghost function Stored(now: int): State
      reads this
    {
      State(payment, [], now, seen, log, [], [])
    }

    ghost predicate Matches(s: State)
      reads this
    {
      payment == s.row && seen == s.seen && log == s.log
    }

    /** The guarded write of reserveRequest. */
    method ReserveRequest(snapshot: Option<Payment>, key: string, request: Request, at: int, fails: bool)
        returns (refusal: Option<Outcome>)
      modifies this
      ensures refusal == ReserveRefusal(snapshot, old(payment), at, fails)
      ensures payment == if refusal.None? then Some(Reserved(old(payment), key, request, at)) else old(payment)
      ensures seen == old(seen) && log == old(log)
    {
      if snapshot.Some? && !Retryable(snapshot.value.status) && !ExpiredOrAbandoned(snapshot.value, at) {
        return Some(RequestActive);
      }
      if fails {
        return Some(DatabaseFailed);
      }
      if snapshot.None? {
        if payment.Some? {
          return Some(RequestRacing);
        }
        payment := Some(Payment(Pending, key, None, Some(at), None, request.total, request.currency, NoRefund,
                                None, None, None, 0));
        return None;
      }
      if payment.None? || payment.value.version != snapshot.value.version || !TakeOver(payment.value, at) {
        return Some(StateChanged);
      }
      var row := payment.value;
      payment := Some(row.(status := Pending, key := key, session := None, requestedAt := Some(at), expiresAt := None,
                           total := request.total, currency := request.currency, refundStatus := NoRefund,
                           refundAmount := None, intent := None, version := row.version + 1));
      return None;
    }

    method RecordFailure(key: string, fails: bool)
      modifies this
      ensures seen == old(seen)
      ensures payment != old(payment) <==> !fails && Awaits(old(payment), key)
      ensures payment != old(payment) ==>
        payment == Some(old(payment).value.(status := Failed, version := old(payment).value.version + 1))
      ensures log == if payment != old(payment) then old(log) + [RequestFailed(key)] else old(log)
    {
      if !fails && payment.Some? && payment.value.key == key && payment.value.session.None? {
        ghost var version := payment.value.version;
        payment := Some(payment.value.(status := Failed, version := payment.value.version + 1));
        assert payment.value.version != version;
        log := log + [RequestFailed(key)];
      }
    }

    method RecordCreated(key: string, checkout: Checkout, fails: bool) returns (outcome: Outcome)
      modifies this
      ensures seen == old(seen)
      ensures payment != old(payment) <==> !fails && Awaits(old(payment), key)
      ensures payment != old(payment) ==>
        payment == Some(old(payment).value.(session := Some(checkout.session), intent := checkout.intent,
                                            expiresAt := Some(checkout.expiresAt),
                                                version := old(payment).value.version + 1))
      ensures log == if payment != old(payment) then old(log) + [RequestCreated(key)] else old(log)
      ensures outcome == if fails || payment.None? then DatabaseFailed else Answer(payment.value)
    {
      if fails || payment.None? {
        return DatabaseFailed;
      }
      if payment.value.key == key && payment.value.session.None? {
        payment := Some(payment.value.(session := Some(checkout.session), intent := checkout.intent,
                                       expiresAt := Some(checkout.expiresAt), version := payment.value.version + 1));
        log := log + [RequestCreated(key)];
      }
      return Answer(payment.value);
    }

    /** create, with the provider's reply and the two writes' outcomes given. */
    method Create(key: string, job: Job, expected: nat, reply: Option<Reply>, reserveFails: bool, recordFails: bool,
        now: int)
      returns (outcome: Outcome)
      modifies this
      ensures var e := CreateAlone(old(payment), now,
          Visit.Create(key, job, expected, reply, reserveFails, recordFails));
        payment == e.row && log == old(log) + e.entries && outcome == e.outcome && seen == old(seen)
    {
      if job.version != expected {
        return JobChanged;
      }
      if job.status.Completed? || job.status.Cancelled? {
        return JobClosed;
      }
      if !job.chargesReady {
        return AccountNotReady;
      }
      var requirement := RequirementOf(job.policy, job.pricing);
      if !requirement.Required? {
        return if requirement.Unneeded? then PaymentNotRequired else PricingInvalid;
      }
      var request := requirement.request;
      var admission := Admit(payment, key, now);
      if admission.Refuse? {
        return admission.outcome;
      }
      if admission.Proceed? {
        var refusal := ReserveRequest(payment, key, request, now, reserveFails);
        if refusal.Some? {
          return refusal.value;
        }
      }
      if reply.None? {
        if admission.Proceed? {
          RecordFailure(key, recordFails);
        }
        return ProviderFailed;
      }
      var session := Session(reply.value.id, key, request.total, request.currency);
      outcome := RecordCreated(key, Checkout(session, reply.value.intent, reply.value.expiresAt), recordFails);
    }

    /** receive, for an event that names this payment. */
    method Receive(event: StripeWebhooks.Event, fails: bool)
      modifies this
      ensures Matches(Serve(old(Stored(0)), Webhook(event, fails)))
    {
      WebhookIsReceive(Stored(0), event, fails);
      if payment.None? {
        return;
      }
      var transition := StripeWebhooks.TransitionOf(event.body, payment.value);
      if transition.None? || fails || event.id in seen {
        return;
      }
      seen := seen + {event.id};
      if transition.value != StripeWebhooks.NO_CHANGE {
        var before := payment.value;
        payment := Some(StripeWebhooks.PaymentUpdate(before, transition.value));
        log := log + [Transitioned(StripeWebhooks.Transitioned(before.status, payment.value.status,
            payment.value.refundStatus))];
      }
    }
  }
}
