/** src/payments/payment-requests.service.ts: what a create call answers, refusal by
    refusal, and what its reservation writes, said on the job and the payment it finds. */
module PaymentRefusals {
  import opened Common
  import opened PaymentGate
  import opened PaymentRow
  import opened PaymentRequests
  import opened PaymentRecord

  // ----- before the payment is looked at -----

  predicate IsAmount(value: Option<int>) {
    value.Some? && 1 <= value.value <= 100_000_000
  }

  predicate HasCurrency(pricing: Pricing) {
    && pricing.currency.Some? && |pricing.currency.value| == 3
    && forall c <- pricing.currency.value :: 'a' <= c <= 'z' || 'A' <= c <= 'Z'
  }

  /** Every required part is an amount, and there is a currency. */
  predicate Payable(job: Job) {
    && (job.policy.depositRequired ==> IsAmount(job.pricing.deposit))
    && (job.policy.serviceFeeRequired ==> IsAmount(job.pricing.serviceFee))
    && HasCurrency(job.pricing)
  }

  predicate Asks(job: Job) {
    job.policy.depositRequired || job.policy.serviceFeeRequired
  }

  /** The job may ask for a payment at all. */
  predicate Admissible(job: Job, expected: nat) {
    && job.version == expected && job.status != JobStatus.Completed && job.status != JobStatus.Cancelled
    && job.chargesReady && Asks(job) && Payable(job)
  }

  lemma CurrencyIff(pricing: Pricing)
    ensures HasCurrency(pricing) <==> pricing.currency.Some? && IsCurrency(pricing.currency.value)
  {
    if pricing.currency.Some? && |pricing.currency.value| == 3 {
      var s := pricing.currency.value;
      assert s[0] in s && s[1] in s && s[2] in s;
    }
  }

  /** The total is the sum of the required parts, in the given currency's small letters. */
  lemma RequirementIs(job: Job)
    ensures var r := RequirementOf(job.policy, job.pricing);
      && (r == Unneeded <==> !Asks(job))
      && (r == Invalid <==> Asks(job) && !Payable(job))
      && (Asks(job) && Payable(job) ==>
            && r.Required?
            && r.request.total == (if job.policy.depositRequired then job.pricing.deposit.value else 0)
                                + (if job.policy.serviceFeeRequired then job.pricing.serviceFee.value else 0)
            && |r.request.currency| == 3)
  {
    CurrencyIff(job.pricing);
    RequirementIsTheSum(job.policy, job.pricing);
  }

  /** A letter becomes the small one of the same place in the alphabet. */
  lemma LowerIs(c: char)
    requires IsLetter(c)
    ensures 'a' <= Lower(c) <= 'z'
    ensures Lower(c) == c || Lower(c) as int - 'a' as int == c as int - 'A' as int
  {
  }

  /** The first check that fails decides. */
  lemma LoadAnswers(row: Option<Payment>, key: string, job: Job, expected: nat)
    ensures var c := LoadCall(row, key, job, expected);
      && (c == Ended(JobChanged) <==> job.version != expected)
      && (c == Ended(JobClosed) <==>
            job.version == expected && (job.status == JobStatus.Completed || job.status == JobStatus.Cancelled))
      && (c == Ended(AccountNotReady) <==>
            && job.version == expected && !job.chargesReady
            && job.status != JobStatus.Completed && job.status != JobStatus.Cancelled)
      && (c == Ended(PaymentNotRequired) <==>
            && job.version == expected && job.status != JobStatus.Completed && job.status != JobStatus.Cancelled
            && job.chargesReady && !Asks(job))
      && (c == Ended(PricingInvalid) <==>
            && job.version == expected && job.status != JobStatus.Completed && job.status != JobStatus.Cancelled
            && job.chargesReady && Asks(job) && !Payable(job))
      && (Admissible(job, expected) <==>
            c.Loaded? && c.key == key && c.snapshot == row
                && c.request == RequirementOf(job.policy, job.pricing).request)
  {
    RequirementIs(job);
  }

  // ----- on the payment -----

  /** Its checkout is open. */
  predicate IsLive(p: Payment, now: int) {
    p.status == Pending && p.session != None && p.expiresAt.Some? && p.expiresAt.value > now
  }

  /** Waiting, and neither expired nor, without an expiry, five minutes old. */
  predicate IsWaiting(p: Payment, now: int) {
    p.status == Pending &&
    if p.expiresAt.Some? then p.expiresAt.value > now
    else p.requestedAt == None || p.requestedAt.value > now - 300_000
  }

  /** What an undisturbed call for an admissible job answers, on the stored payment. */
  lemma CreateAnswers(p: Payment, now: int, v: Visit)
    requires v.Create? && Admissible(v.job, v.expected)
    ensures var e := CreateAlone(Some(p), now, v);
      && (e.outcome == AlreadyPaid <==> p.status == PaymentStatus.Succeeded)
      && (e.outcome == LinkInactive <==>
            p.key == v.key && p.session != None && p.status != PaymentStatus.Succeeded && !IsLive(p, now))
      && (e.outcome == RequestActive <==> IsWaiting(p, now) && (p.key != v.key || p.session == None))
      && (e.outcome in {AlreadyPaid, LinkInactive, RequestActive} ==> e.row == Some(p) && e.entries == [])
      && (p.key == v.key && IsLive(p, now) ==>
            && e.row == Some(p) && e.entries == []
            && e.outcome == if v.reply == None then ProviderFailed
                            else if v.recordFails then DatabaseFailed else Answer(p))
  {
    LoadAnswers(Some(p), v.key, v.job, v.expected);
  }

  /** The row a call may reserve: none yet, or one that is over and was not requested
      under this key with a checkout. */
  predicate Reservable(row: Option<Payment>, key: string, now: int) {
    row.Some? ==>
      && row.value.status != PaymentStatus.Succeeded && !IsWaiting(row.value, now)
      && (row.value.key != key || row.value.session == None)
  }

  function Asked(job: Job): Request
    requires RequirementOf(job.policy, job.pricing).Required?
  {
    RequirementOf(job.policy, job.pricing).request
  }

  /** Column by column, a reserved row: the charge of an earlier payment alone is kept. */
  function FreshRow(row: Option<Payment>, key: string, request: Request, now: int): Payment {
    Payment(Pending, key, None, Some(now), None, request.total, request.currency, NoRefund, None, None,
            if row.Some? then row.value.charge else None, if row.Some? then row.value.version + 1 else 0)
  }

  lemma ReservedIsFresh(row: Option<Payment>, key: string, request: Request, at: int)
    ensures Reserved(row, key, request, at) == FreshRow(row, key, request, at)
  {
  }

  /** What an undisturbed call writes on a reservable row: the reservation, and then the
      checkout in the provider's words, or FAILED. */
  lemma CreateWrites(row: Option<Payment>, now: int, v: Visit)
    requires v.Create? && Admissible(v.job, v.expected) && Reservable(row, v.key, now)
    ensures RequirementOf(v.job.policy, v.job.pricing).Required?
    ensures var e, blank := CreateAlone(row, now, v), FreshRow(row, v.key, Asked(v.job), now);
      if v.reserveFails then e == Effect(row, [], DatabaseFailed)
      else if v.recordFails then
        e == Effect(Some(blank), [], if v.reply == None then ProviderFailed else DatabaseFailed)
      else if v.reply == None then
        e == Effect(Some(blank.(status := PaymentStatus.Failed, version := blank.version + 1)), [RequestFailed(v.key)],
                    ProviderFailed)
      else
        var r := v.reply.value;
        var stored := blank.(session := Some(Session(r.id, v.key, blank.total, blank.currency)), intent := r.intent,
                             expiresAt := Some(r.expiresAt), version := blank.version + 1);
        e == Effect(Some(stored), [RequestCreated(v.key)], Answer(stored))
  {
    RequirementIs(v.job);
    LoadAnswers(row, v.key, v.job, v.expected);
    ReservedIsFresh(row, v.key, Asked(v.job), now);
  }

  /** Nothing is left between the refusals, the replay and the reservation. */
  lemma OneOfFour(p: Payment, key: string, now: int)
    ensures Reservable(Some(p), key, now) <==>
      && p.status != PaymentStatus.Succeeded
      && !(p.key == key && p.session != None && !IsLive(p, now))
      && !(IsWaiting(p, now) && (p.key != key || p.session == None))
      && !(p.key == key && IsLive(p, now))
  {
  }

  /** Why a reservation is refused, on the payment as loaded and as found, in order. */
  lemma ReserveRefusals(snapshot: Option<Payment>, row: Option<Payment>, at: int, fails: bool)
    ensures var refusal := ReserveRefusal(snapshot, row, at, fails);
      var closed := snapshot.Some? && (snapshot.value.status == PaymentStatus.Succeeded
          || IsWaiting(snapshot.value, at));
      && (closed ==> refusal == Some(RequestActive))
      && (!closed && fails ==> refusal == Some(DatabaseFailed))
      && (snapshot == None && !fails ==> refusal == if row == None then None else Some(RequestRacing))
      && (snapshot.Some? && !closed && !fails ==> refusal == None || refusal == Some(StateChanged))
      && (snapshot.Some? && snapshot == row && !fails && !closed ==> refusal == None)
      && (snapshot.Some? && (row == None || row.value.version != snapshot.value.version) ==> refusal != None)
  {
  }

  // ----- in every interleaving -----

  predicate CallIsNew(c: Call) {
    c.Admitted? && c.snapshot.Some? ==> c.snapshot.value.key != c.key || c.snapshot.value.session == None
  }

  ghost predicate AllNew(s: State) {
    forall c <- s.calls :: CallIsNew(c)
  }

  lemma StepKeepsNew(s: State, a: Action)
    requires AllNew(s)
    ensures AllNew(Step(s, a))
  {
    var t := Step(s, a);
    OtherCallsStay(s, a);
    forall i | 0 <= i < |t.calls|
      ensures CallIsNew(t.calls[i])
    {
      if i != Mover(s, a) {
        assert CallIsNew(s.calls[i]);
      }
    }
  }

  lemma {:induction false} RunKeepsNew(s: State, actions: seq<Action>)
    requires AllNew(s)
    ensures AllNew(Run(s, actions))
    decreases |actions|
  {
    if actions != [] {
      StepKeepsNew(s, actions[0]);
      RunKeepsNew(Step(s, actions[0]), actions[1..]);
    }
  }

  /** In every interleaving a reservation is won only on a row that was requested under
      another key or has no checkout: a key whose checkout is spent stays spent until
      another key has taken the row over. */
  lemma SpentKeyIsNeverReserved(actions: seq<Action>, i: nat, at: int)
    ensures var s := Run(INITIAL, actions);
      var t := Step(s, Reserve(i, at, false));
      t.won != s.won && s.row.Some? ==>
        i < |s.calls| && s.calls[i].Admitted?
        && (s.row.value.key != s.calls[i].key || s.row.value.session == None)
  {
    var s := Run(INITIAL, actions);
    RunKeepsNew(INITIAL, actions);
    ReservationWonIff(actions, i, at);
    if i < |s.calls| {
      assert CallIsNew(s.calls[i]);
    }
  }
}
