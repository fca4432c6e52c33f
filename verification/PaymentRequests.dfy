/** src/payments/payment-requests.service.ts: concurrent create calls on one job's
    payment row, with slow or failing providers, racing the Stripe webhooks. Every
    read, guarded write and provider answer is a step of its own. */
module PaymentRequests {
  import opened Common
  import opened PaymentGate
  import opened PaymentRow
  import StripeWebhooks

  // ----- what a job has to pay -----

  const LARGEST_PART: int := 100_000_000
  const RESERVATION_TIMEOUT: int := 5 * 60 * 1000

  /** The fields of pricingSnapshot; an amount that is not an integer, or a currency
      that is not a string, is None. */
  datatype Pricing = Pricing(deposit: Option<int>, serviceFee: Option<int>, currency: Option<string>)

  datatype Request = Request(total: int, currency: string)

  datatype Requirement = Required(request: Request) | Unneeded | Invalid

  predicate IsMoney(value: Option<int>) {
    value.Some? && 0 < value.value <= LARGEST_PART
  }

  predicate IsLetter(c: char) {
    'a' <= c <= 'z' || 'A' <= c <= 'Z'
  }

  predicate IsCurrency(s: string) {
    |s| == 3 && IsLetter(s[0]) && IsLetter(s[1]) && IsLetter(s[2])
  }

  function Lower(c: char): char {
    if 'A' <= c <= 'Z' then ('a' as int + (c as int - 'A' as int)) as char else c
  }

  function ToLower(s: string): string {
    if s == "" then "" else [Lower(s[0])] + ToLower(s[1..])
  }

  function RequirementOf(policy: Policy, pricing: Pricing): Requirement {
    if !policy.depositRequired && !policy.serviceFeeRequired then Unneeded
    else if policy.depositRequired && !IsMoney(pricing.deposit) then Invalid
    else if policy.serviceFeeRequired && !IsMoney(pricing.serviceFee) then Invalid
    else if pricing.currency.None? || !IsCurrency(pricing.currency.value) then Invalid
    else
      var currency := ToLower(pricing.currency.value);
      if policy.depositRequired && policy.serviceFeeRequired then
        Required(Request(pricing.deposit.value + pricing.serviceFee.value, currency))
      else if policy.depositRequired then Required(Request(pricing.deposit.value, currency))
      else Required(Request(pricing.serviceFee.value, currency))
  }

  function Part(required: bool, value: Option<int>): int {
    if required && value.Some? then value.value else 0
  }

  predicate Priced(r: Request) {
    && 1 <= r.total <= 200_000_000
    && |r.currency| == 3 && forall c <- r.currency :: 'a' <= c <= 'z'
  }

  lemma RequirementIsTheSum(policy: Policy, pricing: Pricing)
    ensures RequirementOf(policy, pricing).Required? <==>
      && (policy.depositRequired || policy.serviceFeeRequired)
      && (policy.depositRequired ==> IsMoney(pricing.deposit))
      && (policy.serviceFeeRequired ==> IsMoney(pricing.serviceFee))
      && pricing.currency.Some? && IsCurrency(pricing.currency.value)
    ensures RequirementOf(policy, pricing).Required? ==>
      var r := RequirementOf(policy, pricing).request;
      && Priced(r)
      && r.total == Part(policy.depositRequired, pricing.deposit) + Part(policy.serviceFeeRequired, pricing.serviceFee)
      && forall i | 0 <= i < 3 :: r.currency[i] == Lower(pricing.currency.value[i])
  {
    if RequirementOf(policy, pricing).Required? {
      var s := pricing.currency.value;
      assert ToLower(s) == [Lower(s[0])] + ToLower(s[1..]);
      assert ToLower(s[1..]) == [Lower(s[1])] + ToLower(s[2..]) && s[1..][1..] == s[2..];
      assert ToLower(s[2..]) == [Lower(s[2])] + ToLower(s[3..]) && s[2..][1..] == s[3..];
    }
  }

  // ----- the guards -----

  predicate Retryable(status: PaymentStatus) {
    status.Failed? || status.Canceled? || status.Refunded?
  }

  /** Decided in memory, on the payment as it was loaded. */
  predicate ExpiredOrAbandoned(p: Payment, now: int) {
    && p.status.Pending?
    && if p.expiresAt.Some? then p.expiresAt.value <= now
       else p.requestedAt.Some? && p.requestedAt.value <= now - RESERVATION_TIMEOUT
  }

  /** The status and time clauses of the guarded update. */
  predicate TakeOver(p: Payment, at: int) {
    || Retryable(p.status)
    || (p.status.Pending? && p.expiresAt.Some? && p.expiresAt.value <= at)
    || (p.status.Pending? && p.expiresAt.None? && p.requestedAt.Some?
        && p.requestedAt.value <= at - RESERVATION_TIMEOUT)
  }

  predicate Over(p: Payment, now: int) {
    Retryable(p.status) || ExpiredOrAbandoned(p, now)
  }

  /** On an unchanged row what the memory guard lets through, the database lets
      through at that time and ever after; and nothing else at that time. */
  lemma GuardsAgree(p: Payment, at: int, later: int)
    requires at <= later
    ensures Over(p, at) ==> TakeOver(p, later)
    ensures Over(p, at) <==> TakeOver(p, at)
  {
  }

  datatype Outcome =
    | JobChanged | JobClosed | AccountNotReady | PaymentNotRequired | PricingInvalid
    | AlreadyPaid | LinkInactive | RequestActive | RequestRacing | StateChanged
    | DatabaseFailed | ProviderFailed | Answer(payment: Payment) | EventHandled

  datatype Admission = Refuse(outcome: Outcome) | Replay | Proceed

  function Admit(row: Option<Payment>, key: string, now: int): Admission {
    if row.None? then Proceed
    else
      var p := row.value;
      var same := p.key == key;
      var replay := same && p.status.Pending? && p.session.Some? && p.expiresAt.Some? && p.expiresAt.value > now;
      if p.status.Succeeded? then Refuse(AlreadyPaid)
      else if same && p.session.Some? && !replay then Refuse(LinkInactive)
      else if p.status.Pending? && !same && !ExpiredOrAbandoned(p, now) then Refuse(RequestActive)
      else if replay then Replay
      else Proceed
  }

  // ----- the machine -----

  /** The columns of the job that create reads. */
  datatype Job = Job(status: JobStatus, version: nat, chargesReady: bool, policy: Policy, pricing: Pricing)

  datatype Checkout = Checkout(session: Session, intent: Option<string>, expiresAt: int)

  datatype Call =
    | Loaded(key: string, request: Request, snapshot: Option<Payment>)
    | Admitted(key: string, request: Request, snapshot: Option<Payment>, since: int)
    | Asking(key: string, request: Request, replay: bool)
    | Answered(key: string, request: Request, replay: bool, checkout: Option<Checkout>)
    | Noticed(event: StripeWebhooks.Event, read: Payment)
    | Ended(outcome: Outcome)

  datatype Entry =
    | RequestCreated(key: string)
    | RequestFailed(key: string)
    | Transitioned(audit: StripeWebhooks.Audit)

  /** `issued` lists the checkouts the provider has created, and `won` the keys of
      the reservations made; neither influences a step. */
  datatype State = State(
    row: Option<Payment>,
    calls: seq<Call>,
    now: int,
    seen: set<string>,
    log: seq<Entry>,
    issued: seq<Session>,
    won: seq<string>)

  const INITIAL: State := State(None, [], 0, {}, [], [], [])

  datatype Reply = Reply(id: string, intent: Option<string>, expiresAt: int)

  datatype Action =
    | Tick(to: int)
    | Load(key: string, job: Job, expected: nat)
    | Decide(call: nat)
    | Reserve(call: nat, at: int, fails: bool)
    | Provider(call: nat, reply: Option<Reply>)
    | Record(call: nat, fails: bool)
    | ReadEvent(event: StripeWebhooks.Event)
    | CommitEvent(call: nat, fails: bool)

  function LoadCall(row: Option<Payment>, key: string, job: Job, expected: nat): Call {
    if job.version != expected then Ended(JobChanged)
    else if job.status.Completed? || job.status.Cancelled? then Ended(JobClosed)
    else if !job.chargesReady then Ended(AccountNotReady)
    else
      match RequirementOf(job.policy, job.pricing)
      case Unneeded => Ended(PaymentNotRequired)
      case Invalid => Ended(PricingInvalid)
      case Required(request) => Loaded(key, request, row)
  }

  function DecideCall(c: Call, now: int): Call
    requires c.Loaded?
  {
    match Admit(c.snapshot, c.key, now)
    case Refuse(outcome) => Ended(outcome)
    case Replay => Asking(c.key, c.request, true)
    case Proceed => Admitted(c.key, c.request, c.snapshot, now)
  }

  function Reserved(row: Option<Payment>, key: string, request: Request, at: int): Payment {
    if row.None? then
      Payment(Pending, key, None, Some(at), None, request.total, request.currency, NoRefund, None, None, None, 0)
    else
      row.value.(status := Pending, key := key, session := None, requestedAt := Some(at), expiresAt := None,
                 total := request.total, currency := request.currency, refundStatus := NoRefund,
                 refundAmount := None, intent := None, version := row.value.version + 1)
  }

  function Set(s: State, i: nat, c: Call): State
    requires i < |s.calls|
  {
    s.(calls := s.calls[i := c])
  }

  /** Why reserveRequest does not write, if it does not: the memory guard on the loaded
      payment, the unique key of a first insert, or the guarded update's where clause. */
  function ReserveRefusal(snapshot: Option<Payment>, row: Option<Payment>, at: int, fails: bool): Option<Outcome> {
    if snapshot.Some? && !Over(snapshot.value, at) then Some(RequestActive)
    else if fails then Some(DatabaseFailed)
    else if snapshot.None? && row.Some? then Some(RequestRacing)
    else if snapshot.Some? && !(row.Some? && row.value.version == snapshot.value.version
        && TakeOver(row.value, at)) then
      Some(StateChanged)
    else None
  }

  function ReserveStep(s: State, i: nat, at: int, fails: bool): State
    requires i < |s.calls| && s.calls[i].Admitted?
  {
    var c := s.calls[i];
    match ReserveRefusal(c.snapshot, s.row, at, fails)
    case Some(outcome) => Set(s, i, Ended(outcome))
    case None =>
      Set(s, i, Asking(c.key, c.request, false)).(row := Some(Reserved(s.row, c.key, c.request, at)),
          won := s.won + [c.key])
  }

  function ProviderStep(s: State, i: nat, reply: Option<Reply>): State
    requires i < |s.calls| && s.calls[i].Asking?
  {
    var c := s.calls[i];
    match reply
    case None => Set(s, i, Answered(c.key, c.request, c.replay, None))
    case Some(r) =>
      var session := Session(r.id, c.key, c.request.total, c.request.currency);
      Set(s, i, Answered(c.key, c.request, c.replay,
          Some(Checkout(session, r.intent, r.expiresAt)))).(issued := s.issued + [session])
  }

  /** The where clause of recordCreated and of recordFailure. */
  predicate Awaits(row: Option<Payment>, key: string) {
    row.Some? && row.value.key == key && row.value.session.None?
  }

  /** recordCreated after an answer, recordFailure after none. */
  function RecordStep(s: State, i: nat, fails: bool): State
    requires i < |s.calls| && s.calls[i].Answered?
  {
    var c := s.calls[i];
    if c.checkout.None? then
      if c.replay || fails || !Awaits(s.row, c.key) then Set(s, i, Ended(ProviderFailed))
      else
        Set(s, i, Ended(ProviderFailed)).(
          row := Some(s.row.value.(status := Failed, version := s.row.value.version + 1)),
          log := s.log + [RequestFailed(c.key)])
    else if fails || s.row.None? then Set(s, i, Ended(DatabaseFailed))
    else if !Awaits(s.row, c.key) then Set(s, i, Ended(Answer(s.row.value)))
    else
      var checkout := c.checkout.value;
      var p := s.row.value.(session := Some(checkout.session), intent := checkout.intent,
                            expiresAt := Some(checkout.expiresAt), version := s.row.value.version + 1);
      Set(s, i, Ended(Answer(p))).(row := Some(p), log := s.log + [RequestCreated(c.key)])
  }

  function CommitStep(s: State, i: nat, fails: bool): State
    requires i < |s.calls| && s.calls[i].Noticed?
  {
    var c := s.calls[i];
    if fails || s.row.None? then Set(s, i, Ended(DatabaseFailed))
    else
      var l := StripeWebhooks.Commit(StripeWebhooks.Ledger(s.row.value, s.seen, []), c.event, c.read);
      Set(s, i, Ended(EventHandled)).(row := Some(l.payment), seen := l.seen, log := s.log + EntryOf(l.audits))
  }

  function EntryOf(audits: seq<StripeWebhooks.Audit>): seq<Entry> {
    if audits == [] then [] else [Transitioned(audits[0])]
  }

  function Step(s: State, a: Action): State {
    match a
    case Tick(to) => s.(now := Max(s.now, to))
    case Load(key, job, expected) => s.(calls := s.calls + [LoadCall(s.row, key, job, expected)])
    case Decide(i) => if i < |s.calls| && s.calls[i].Loaded? then Set(s, i, DecideCall(s.calls[i], s.now)) else s
    case Reserve(i, at, fails) =>
      if i < |s.calls| && s.calls[i].Admitted? && s.calls[i].since <= at <= s.now then ReserveStep(s, i, at, fails)
          else s
    case Provider(i, reply) => if i < |s.calls| && s.calls[i].Asking? then ProviderStep(s, i, reply) else s
    case Record(i, fails) => if i < |s.calls| && s.calls[i].Answered? then RecordStep(s, i, fails) else s
    case ReadEvent(e) => if s.row.Some? then s.(calls := s.calls + [Noticed(e, s.row.value)]) else s
    case CommitEvent(i, fails) => if i < |s.calls| && s.calls[i].Noticed? then CommitStep(s, i, fails) else s
  }

  function Run(s: State, actions: seq<Action>): State
    decreases |actions|
  {
    if actions == [] then s else Run(Step(s, actions[0]), actions[1..])
  }

  // ----- a stored checkout belongs to the stored key -----

  predicate Vouched(session: Option<Session>, key: string, issued: seq<Session>) {
    session.Some? ==> session.value.key == key && session.value in issued
  }

  predicate RowBacked(row: Option<Payment>, issued: seq<Session>) {
    row.Some? ==> Vouched(row.value.session, row.value.key, issued)
  }

  predicate CallBacked(c: Call, issued: seq<Session>) {
    c.Answered? && c.checkout.Some? ==> Vouched(Some(c.checkout.value.session), c.key, issued)
  }

  predicate Backed(s: State) {
    RowBacked(s.row, s.issued) && forall c <- s.calls :: CallBacked(c, s.issued)
  }

  /** A webhook writes neither the key, the session nor the money. */
  lemma CommitKeepsRequest(l: StripeWebhooks.Ledger, e: StripeWebhooks.Event, read: Payment)
    ensures var p := StripeWebhooks.Commit(l, e, read).payment;
      p.key == l.payment.key && p.session == l.payment.session && p.expiresAt == l.payment.expiresAt
      && p.total == l.payment.total && p.currency == l.payment.currency && p.version >= l.payment.version
      && (p.version == l.payment.version ==> p == l.payment)
  {
  }

  lemma RowKeepsBacked(s: State, a: Action)
    requires Backed(s)
    ensures RowBacked(Step(s, a).row, Step(s, a).issued)
    ensures s.issued <= Step(s, a).issued
  {
    match a
    case Record(i, fails) =>
      if i < |s.calls| {
        assert CallBacked(s.calls[i], s.issued);
      }
    case CommitEvent(i, fails) =>
      if i < |s.calls| && s.calls[i].Noticed? && s.row.Some? {
        CommitKeepsRequest(StripeWebhooks.Ledger(s.row.value, s.seen, []), s.calls[i].event, s.calls[i].read);
      }
    case _ =>
  }

  /** The call that an action creates or moves on. */
  function Mover(s: State, a: Action): nat {
    match a
    case Decide(i) => i
    case Reserve(i, _, _) => i
    case Provider(i, _) => i
    case Record(i, _) => i
    case CommitEvent(i, _) => i
    case _ => |s.calls|
  }

  lemma OtherCallsStay(s: State, a: Action)
    ensures |s.calls| <= |Step(s, a).calls| <= |s.calls| + 1
    ensures forall i | 0 <= i < |s.calls| && i != Mover(s, a) :: Step(s, a).calls[i] == s.calls[i]
    ensures |Step(s, a).calls| > |s.calls| ==> Mover(s, a) == |s.calls|
  {
  }

  lemma MoverKeepsBacked(s: State, a: Action)
    requires Backed(s) && Mover(s, a) < |Step(s, a).calls|
    ensures CallBacked(Step(s, a).calls[Mover(s, a)], Step(s, a).issued)
  {
    var i := Mover(s, a);
    if i < |s.calls| {
      assert CallBacked(s.calls[i], s.issued);
    }
  }

  lemma StepKeepsBacked(s: State, a: Action)
    requires Backed(s)
    ensures Backed(Step(s, a))
  {
    var t := Step(s, a);
    RowKeepsBacked(s, a);
    OtherCallsStay(s, a);
    forall i | 0 <= i < |t.calls|
      ensures CallBacked(t.calls[i], t.issued)
    {
      if i == Mover(s, a) {
        MoverKeepsBacked(s, a);
      } else {
        assert CallBacked(s.calls[i], s.issued);
      }
    }
  }

  /** In every interleaving of create calls and webhooks a stored checkout is one the
      provider created under the stored key. */
  lemma {:induction false} SessionBelongsToKey(s: State, actions: seq<Action>)
    requires Backed(s)
    ensures var t := Run(s, actions);
      Backed(t) && (t.row.Some? && t.row.value.session.Some? ==>
        t.row.value.session.value in t.issued && t.row.value.session.value.key == t.row.value.key)
    decreases |actions|
  {
    if actions != [] {
      StepKeepsBacked(s, actions[0]);
      SessionBelongsToKey(Step(s, actions[0]), actions[1..]);
    }
  }

  // ----- who may reserve -----

  predicate CallVersioned(c: Call, row: Option<Payment>) {
    (c.Loaded? || c.Admitted?) && c.snapshot.Some? ==>
      row.Some? && c.snapshot.value.version <= row.value.version
      && (c.snapshot.value.version == row.value.version ==> row == c.snapshot)
  }

  /** A call's snapshot is an earlier row, and the row itself when the versions agree. */
  predicate Versioned(s: State) {
    forall c <- s.calls :: CallVersioned(c, s.row)
  }

  lemma RowsMoveOn(s: State, a: Action)
    requires s.row.Some?
    ensures var row := Step(s, a).row;
      row.Some? && row.value.version >= s.row.value.version
          && (row.value.version == s.row.value.version ==> row == s.row)
  {
    match a
    case CommitEvent(i, fails) =>
      if i < |s.calls| && s.calls[i].Noticed? {
        CommitKeepsRequest(StripeWebhooks.Ledger(s.row.value, s.seen, []), s.calls[i].event, s.calls[i].read);
      }
    case _ =>
  }

  lemma MoverKeepsVersioned(s: State, a: Action)
    requires Versioned(s) && Mover(s, a) < |Step(s, a).calls|
    ensures CallVersioned(Step(s, a).calls[Mover(s, a)], Step(s, a).row)
  {
    var i := Mover(s, a);
    if i < |s.calls| {
      assert CallVersioned(s.calls[i], s.row);
    }
  }

  lemma StepKeepsVersioned(s: State, a: Action)
    requires Versioned(s)
    ensures Versioned(Step(s, a))
  {
    var t := Step(s, a);
    OtherCallsStay(s, a);
    if s.row.Some? {
      RowsMoveOn(s, a);
    }
    forall i | 0 <= i < |t.calls|
      ensures CallVersioned(t.calls[i], t.row)
    {
      if i == Mover(s, a) {
        MoverKeepsVersioned(s, a);
      } else {
        assert CallVersioned(s.calls[i], s.row);
      }
    }
  }

  /** In every interleaving a reservation is won exactly when nothing was written since
      the call loaded the payment and the memory guard let it through: the clauses on
      status and time in the database's guard never refuse on their own. */
  lemma ReservationWonIff(actions: seq<Action>, i: nat, at: int)
    ensures var s := Run(INITIAL, actions);
      i < |s.calls| && s.calls[i].Admitted? && s.calls[i].since <= at <= s.now ==>
        var c, t := s.calls[i], Step(s, Reserve(i, at, false));
        (t.won != s.won <==> s.row == c.snapshot && (c.snapshot.Some? ==> Over(c.snapshot.value, at)))
        && (t.won != s.won ==> t.row == Some(Reserved(s.row, c.key, c.request, at)) && t.won == s.won + [c.key])
        && (t.won == s.won ==> t.row == s.row)
  {
    RunKeepsVersioned(INITIAL, actions);
    var s := Run(INITIAL, actions);
    if i < |s.calls| && s.calls[i].Admitted? {
      assert CallVersioned(s.calls[i], s.row);
      if s.calls[i].snapshot.Some? {
        GuardsAgree(s.calls[i].snapshot.value, at, at);
      }
    }
  }

  lemma {:induction false} RunKeepsVersioned(s: State, actions: seq<Action>)
    requires Versioned(s)
    ensures Versioned(Run(s, actions))
    decreases |actions|
  {
    if actions != [] {
      StepKeepsVersioned(s, actions[0]);
      RunKeepsVersioned(Step(s, actions[0]), actions[1..]);
    }
  }

  /** A stored key or checkout gives way only to a reservation, and only when the row
      is retryable, expired or abandoned at that moment. */
  lemma RequestReplacedOnlyWhenOver(s: State, a: Action)
    requires s.row.Some?
    ensures var p, q := s.row.value, Step(s, a).row.value;
      Step(s, a).row.Some? && (q.key != p.key || q.total != p.total || (p.session.Some? && q.session != p.session) ==>
        a.Reserve? && a.call < |s.calls| && s.calls[a.call].Admitted? && q.key == s.calls[a.call].key && Over(p, s.now))
  {
    RowsMoveOn(s, a);
    match a
    case CommitEvent(i, fails) =>
      if i < |s.calls| && s.calls[i].Noticed? {
        CommitKeepsRequest(StripeWebhooks.Ledger(s.row.value, s.seen, []), s.calls[i].event, s.calls[i].read);
      }
    case _ =>
  }

  // ----- a superseded call is silent -----

  /** The answer of a call, good or bad, is written exactly when the row still carries
      the call's key and no checkout; a replay never writes a failure. */
  lemma RecordWritesIff(s: State, i: nat)
    requires i < |s.calls| && s.calls[i].Answered?
    ensures var c, t := s.calls[i], Step(s, Record(i, false));
      && (t.row != s.row || t.log != s.log <==> Awaits(s.row, c.key) && (c.checkout.Some? || !c.replay))
      && (t.log != s.log ==> t.log == s.log + [if c.checkout.Some? then RequestCreated(c.key)
          else RequestFailed(c.key)])
      && (t.row != s.row ==>
            if c.checkout.Some? then t.row.value.session == Some(c.checkout.value.session)
                && t.row.value.status == s.row.value.status
            else t.row.value.session.None? && t.row.value.status.Failed?)
  {
    var c, t := s.calls[i], Step(s, Record(i, false));
    if Awaits(s.row, c.key) && (c.checkout.Some? || !c.replay) {
      assert t.row.value.version == s.row.value.version + 1;
    }
  }

  function OpenFor(row: Option<Payment>, key: string): nat {
    if Awaits(row, key) then 1 else 0
  }

  function IsCreated(key: string): Entry -> bool {
    (e: Entry) => e == RequestCreated(key)
  }

  function IsFailed(key: string): Entry -> bool {
    (e: Entry) => e == RequestFailed(key)
  }

  function IsKey(key: string): string -> bool {
    (k: string) => k == key
  }

  /** Calls that won a reservation under the key and have not recorded its end. */
  function IsPending(key: string): Call -> bool {
    (c: Call) => (c.Asking? || c.Answered?) && !c.replay && c.key == key
  }

  /** Each reservation pays for at most one stored checkout and for at most one
      recorded failure. */
  predicate Accounted(s: State, key: string) {
    && Count(s.log, IsCreated(key)) + OpenFor(s.row, key) <= Count(s.won, IsKey(key))
    && Count(s.log, IsFailed(key)) + Count(s.calls, IsPending(key)) <= Count(s.won, IsKey(key))
  }

  /** A step appends at most one entry, and only recording appends the create entries. */
  lemma LogAppends(s: State, a: Action) returns (added: seq<Entry>)
    ensures Step(s, a).log == s.log + added && |added| <= 1
    ensures added != [] && !added[0].Transitioned? ==>
      a.Record? && a.call < |s.calls| && s.calls[a.call].Answered? && Awaits(s.row, s.calls[a.call].key)
      && added[0] == if s.calls[a.call].checkout.Some? then RequestCreated(s.calls[a.call].key)
          else RequestFailed(s.calls[a.call].key)
  {
    added := Step(s, a).log[|s.log|..];
  }

  lemma LogGrows(log: seq<Entry>, added: seq<Entry>, key: string)
    requires |added| <= 1
    ensures Count(log + added, IsCreated(key))
        == Count(log, IsCreated(key)) + (if added == [RequestCreated(key)] then 1 else 0)
    ensures Count(log + added, IsFailed(key))
        == Count(log, IsFailed(key)) + (if added == [RequestFailed(key)] then 1 else 0)
  {
    if added == [] {
      assert log + [] == log;
    } else {
      CountAppend(log, added[0], IsCreated(key));
      CountAppend(log, added[0], IsFailed(key));
      assert added == [added[0]];
    }
  }

  lemma LastOf<T>(s: seq<T>, x: T)
    ensures (s + [x])[..|s|] == s && (s + [x])[|s|..] == [x] && (s + [x])[|s|] == x && s + [x] != s
  {
    assert |s + [x]| == |s| + 1;
  }

  lemma WonGrows(s: State, a: Action, key: string)
    ensures var t := Step(s, a);
      Count(t.won, IsKey(key)) == Count(s.won, IsKey(key)) + (if t.won == s.won + [key] then 1 else 0)
  {
    LastOf(s.won, key);
    if a.Reserve? && a.call < |s.calls| && s.calls[a.call].Admitted? {
      LastOf(s.won, s.calls[a.call].key);
      CountAppend(s.won, s.calls[a.call].key, IsKey(key));
    }
  }

  lemma PendingMoves(s: State, a: Action, key: string)
    ensures var t, i := Step(s, a), Mover(s, a);
      Count(t.calls, IsPending(key)) + (if i < |s.calls| && IsPending(key)(s.calls[i]) then 1 else 0)
        == Count(s.calls, IsPending(key)) + (if i < |t.calls| && IsPending(key)(t.calls[i]) then 1 else 0)
  {
    var t, i := Step(s, a), Mover(s, a);
    OtherCallsStay(s, a);
    if i < |s.calls| {
      assert |t.calls| == |s.calls|;
      CountUpdate(s.calls, i, t.calls[i], IsPending(key));
      assert t.calls == s.calls[i := t.calls[i]];
    } else if |t.calls| > |s.calls| {
      CountAppend(s.calls, t.calls[i], IsPending(key));
      assert t.calls == s.calls + [t.calls[i]];
    } else {
      assert t.calls == s.calls;
    }
  }

  lemma StepKeepsCreatedAccount(s: State, a: Action, key: string)
    requires Count(s.log, IsCreated(key)) + OpenFor(s.row, key) <= Count(s.won, IsKey(key))
    ensures var t := Step(s, a);
      Count(t.log, IsCreated(key)) + OpenFor(t.row, key) <= Count(t.won, IsKey(key))
  {
    var added := LogAppends(s, a);
    LogGrows(s.log, added, key);
    WonGrows(s, a, key);
    RowAwaits(s, a, key, added);
  }

  lemma RowAwaits(s: State, a: Action, key: string, added: seq<Entry>)
    requires Step(s, a).log == s.log + added
    ensures var t := Step(s, a);
      OpenFor(t.row, key) + (if added == [RequestCreated(key)] then 1 else 0)
        <= OpenFor(s.row, key) + (if t.won == s.won + [key] then 1 else 0)
  {
    LastOf(s.won, key);
    assert (s.log + added)[|s.log|..] == added;
    if a.Record? && a.call < |s.calls| && s.calls[a.call].Answered? {
      LastOf(s.log, RequestCreated(s.calls[a.call].key));
      LastOf(s.log, RequestFailed(s.calls[a.call].key));
    }
    if a.Reserve? && a.call < |s.calls| && s.calls[a.call].Admitted? {
      LastOf(s.won, s.calls[a.call].key);
    }
    match a
    case CommitEvent(i, fails) =>
      if i < |s.calls| && s.calls[i].Noticed? && s.row.Some? {
        CommitKeepsRequest(StripeWebhooks.Ledger(s.row.value, s.seen, []), s.calls[i].event, s.calls[i].read);
      }
    case _ =>
  }

  lemma StepKeepsFailedAccount(s: State, a: Action, key: string)
    requires Count(s.log, IsFailed(key)) + Count(s.calls, IsPending(key)) <= Count(s.won, IsKey(key))
    ensures var t := Step(s, a);
      Count(t.log, IsFailed(key)) + Count(t.calls, IsPending(key)) <= Count(t.won, IsKey(key))
  {
    var added := LogAppends(s, a);
    LogGrows(s.log, added, key);
    WonGrows(s, a, key);
    PendingMoves(s, a, key);
    MoverPending(s, a, key, added);
  }

  lemma MoverPending(s: State, a: Action, key: string, added: seq<Entry>)
    requires Step(s, a).log == s.log + added
    ensures var t, i := Step(s, a), Mover(s, a);
      (if i < |t.calls| && IsPending(key)(t.calls[i]) then 1 else 0) + (if added == [RequestFailed(key)] then 1 else 0)
        <= (if i < |s.calls| && IsPending(key)(s.calls[i]) then 1 else 0) + (if t.won == s.won + [key] then 1 else 0)
  {
    LastOf(s.won, key);
    assert (s.log + added)[|s.log|..] == added;
    if a.Record? && a.call < |s.calls| && s.calls[a.call].Answered? {
      LastOf(s.log, RequestCreated(s.calls[a.call].key));
      LastOf(s.log, RequestFailed(s.calls[a.call].key));
    }
    if a.Reserve? && a.call < |s.calls| && s.calls[a.call].Admitted? {
      LastOf(s.won, s.calls[a.call].key);
    }
  }

  /** In every interleaving, for every key, there are at most as many stored checkouts
      as reservations won under that key, and at most as many recorded failures. */
  lemma {:induction false} ReservationsPay(s: State, actions: seq<Action>, key: string)
    requires Accounted(s, key)
    ensures Accounted(Run(s, actions), key)
    decreases |actions|
  {
    if actions != [] {
      StepKeepsCreatedAccount(s, actions[0], key);
      StepKeepsFailedAccount(s, actions[0], key);
      ReservationsPay(Step(s, actions[0]), actions[1..], key);
    }
  }
}
