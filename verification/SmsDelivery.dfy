/** src/communications/sms-delivery.service.ts: the writes to one outbound SMS
    row, and the machine in which claims, sends, crashes, provider callbacks and
    operator replays interleave with every read split from its write. */
module SmsDelivery {
  import opened Common

  const MAX_ATTEMPTS: nat := 3

  datatype Status = Queued | Sending | Sent | Delivered | Failed | DeadLetter | Received

  datatype Row = Row(
    status: Status,
    attemptCount: nat,
    nextAttemptAt: Option<int>,
    externalId: Option<string>,
    terminalAt: Option<int>,
    lastErrorCode: Option<string>)

  /** The row as `create` inserts it. */
  const FRESH := Row(Queued, 0, None, None, None, None)

  // ----- row writes -----

  predicate Claimable(row: Row) {
    (row.status.Queued? || row.status.Failed?) && row.attemptCount < MAX_ATTEMPTS
  }

  function ClaimWrite(row: Row): Row {
    row.(status := Sending, attemptCount := row.attemptCount + 1, nextAttemptAt := None)
  }

  function SentWrite(row: Row, externalId: string): Row {
    row.(externalId := Some(externalId), status := Sent, lastErrorCode := None)
  }

  /** 60 000 * 2 ** (attempt - 1) milliseconds; a racing replay can make the
      attempt number read back as 0. */
  function Backoff(attempt: nat): nat {
    if attempt == 0 then 30_000
    else if attempt == 1 then 60_000
    else 2 * Backoff(attempt - 1)
  }

  function FailedWrite(row: Row, code: string, attempt: nat, now: int): Row {
    row.(status := Failed, lastErrorCode := Some(code), nextAttemptAt := Some(now + Backoff(attempt)))
  }

  function DeadLetterWrite(row: Row, code: string, now: int): Row {
    row.(status := DeadLetter, lastErrorCode := Some(code), terminalAt := Some(now), nextAttemptAt := None)
  }

  function ReplayWrite(row: Row): Row {
    row.(status := Queued, attemptCount := 0, nextAttemptAt := None,
         terminalAt := None, lastErrorCode := None, externalId := None)
  }

  predicate ReplayAdmitted(row: Row, acknowledged: bool, reason: string) {
    row.status.DeadLetter? && acknowledged && |Trim(reason)| >= 10 && |reason| <= 500
  }

  function MapStatus(providerStatus: string): Option<Status> {
    if providerStatus == "delivered" then Some(Delivered)
    else if providerStatus == "failed" || providerStatus == "undelivered" then Some(DeadLetter)
    else if providerStatus in {"accepted", "queued", "sending", "sent"} then Some(Sent)
    else None
  }

  function StatusRank(status: Status): nat {
    match status
    case Delivered => 4
    case DeadLetter => 3
    case Sent => 2
    case _ => 1
  }

  function CallbackWrite(row: Row, status: Status, errorCode: string, now: int): Row {
    row.(status := status,
         lastErrorCode := if errorCode == "" then None else Some(errorCode),
         terminalAt := if status.Delivered? || status.DeadLetter? then Some(now) else None)
  }

  // ----- the interleaved machine -----

  /** What the provider call did, as `deliver` can tell it apart. */
  datatype SendOutcome =
    | Accept(externalId: string)
    | Reject(code: string, safeToRetry: bool)
    | Unknown(code: string)

  /** Where one `deliver` call stands. A crashed call simply takes no further step. */
  datatype Delivery =
    | Claimed
    | Loaded(attempt: nat)
    | Landed(externalId: string)
    | Retryable(attempt: nat, code: string)
    | Condemned(code: string)
    | Ended

  datatype Callback = Callback(status: Status, errorCode: string)

  datatype State = State(
    row: Row,
    deliveries: seq<Delivery>,
    callbacks: seq<Callback>,  // read the row, not yet written
    replays: nat,              // replay calls that read the row, not yet written
    sends: nat,                // provider calls made
    landed: nat,               // provider calls that were accepted or ambiguous
    replayWrites: nat)

  datatype Action =
    | Claim
    | Load(i: nat)
    | Suppress(i: nat, code: string)
    | Send(i: nat, outcome: SendOutcome)
    | RecordSent(i: nat, stored: bool)
    | RecordFailed(i: nat, now: int)
    | RecordDead(i: nat, now: int)
    | ReadCallback(externalId: string, providerStatus: string, errorCode: string)
    | WriteCallback(k: nat, now: int)
    | ReadReplay(acknowledged: bool, reason: string)
    | WriteReplay

  function Init(row: Row): State {
    State(row, [], [], 0, 0, 0, 0)
  }

  /** The state a delivery enters once the provider has answered. */
  function AfterSend(attempt: nat, outcome: SendOutcome): Delivery {
    match outcome
    case Accept(externalId) => Landed(externalId)
    case Unknown(code) => Condemned(code)
    case Reject(code, safeToRetry) =>
      if !safeToRetry || attempt >= MAX_ATTEMPTS then Condemned(code) else Retryable(attempt, code)
  }

  /** One atomic step; an action whose guard fails changes nothing. */
  function Step(s: State, a: Action): State {
    match a
    case Claim =>
      if Claimable(s.row) then
        s.(row := ClaimWrite(s.row), deliveries := s.deliveries + [Claimed])
      else s
    case Load(i) =>
      if i < |s.deliveries| && s.deliveries[i].Claimed? then
        s.(deliveries := s.deliveries[i := Loaded(s.row.attemptCount)])
      else s
    case Suppress(i, code) =>
      if i < |s.deliveries| && s.deliveries[i].Loaded? then
        s.(deliveries := s.deliveries[i := Condemned(code)])
      else s
    case Send(i, outcome) =>
      if i < |s.deliveries| && s.deliveries[i].Loaded? then
        s.(deliveries := s.deliveries[i := AfterSend(s.deliveries[i].attempt, outcome)],
           sends := s.sends + 1,
           landed := s.landed + (if outcome.Reject? then 0 else 1))
      else s
    case RecordSent(i, stored) =>
      if i < |s.deliveries| && s.deliveries[i].Landed? then
        if stored then
          s.(row := SentWrite(s.row, s.deliveries[i].externalId), deliveries := s.deliveries[i := Ended])
        else
          s.(deliveries := s.deliveries[i := Condemned("unknown")])
      else s
    case RecordFailed(i, now) =>
      if i < |s.deliveries| && s.deliveries[i].Retryable? then
        s.(row := FailedWrite(s.row, s.deliveries[i].code, s.deliveries[i].attempt, now),
           deliveries := s.deliveries[i := Ended])
      else s
    case RecordDead(i, now) =>
      if i < |s.deliveries| && s.deliveries[i].Condemned? then
        s.(row := DeadLetterWrite(s.row, s.deliveries[i].code, now), deliveries := s.deliveries[i := Ended])
      else s
    case ReadCallback(externalId, providerStatus, errorCode) =>
      var status := MapStatus(providerStatus);
      if status.Some? && s.row.externalId == Some(externalId)
          && StatusRank(status.value) > StatusRank(s.row.status) then
        s.(callbacks := s.callbacks + [Callback(status.value, errorCode)])
      else s
    case WriteCallback(k, now) =>
      if k < |s.callbacks| then
        s.(row := CallbackWrite(s.row, s.callbacks[k].status, s.callbacks[k].errorCode, now),
           callbacks := s.callbacks[..k] + s.callbacks[k + 1..])
      else s
    case ReadReplay(acknowledged, reason) =>
      if ReplayAdmitted(s.row, acknowledged, reason) then s.(replays := s.replays + 1) else s
    case WriteReplay =>
      if s.replays > 0 then
        s.(row := ReplayWrite(s.row), replays := s.replays - 1, replayWrites := s.replayWrites + 1)
      else s
  }

  function Run(s: State, actions: seq<Action>): State
    decreases |actions|
  {
    if actions == [] then s else Run(Step(s, actions[0]), actions[1..])
  }

  lemma {:induction false} RunAppend(s: State, first: seq<Action>, second: seq<Action>)
    ensures Run(s, first + second) == Run(Run(s, first), second)
    decreases |first|
  {
    if first == [] {
      assert first + second == second;
    } else {
      RunAppend(Step(s, first[0]), first[1..], second);
      assert (first + second)[1..] == first[1..] + second;
    }
  }

  // ----- no uncontrolled duplicate sends -----

  /** A delivery that may still reach the recipient, or hand its licence back. */
  predicate HoldsLicence(d: Delivery) {
    d.Claimed? || d.Loaded? || d.Retryable?
  }

  /** A delivery that has claimed the row but not called the provider. */
  predicate Unsent(d: Delivery) {
    d.Claimed? || d.Loaded?
  }

  function RowLicence(row: Row): nat {
    if row.status.Queued? || row.status.Failed? then 1 else 0
  }

  /** Licences are conserved: each one is spent on a landed send, carried by a
      delivery in flight or offered by a claimable row, and only a replay write
      issues another. Attempts are conserved in the same way, three a licence. */
  predicate Licensed(s: State) {
    && (forall c <- s.callbacks :: RowLicence(s.row.(status := c.status)) == 0)
    && s.landed + Count(s.deliveries, HoldsLicence) + RowLicence(s.row) <= 1 + s.replayWrites
    && s.row.attemptCount <= MAX_ATTEMPTS
    && s.sends + Count(s.deliveries, Unsent) + (MAX_ATTEMPTS - s.row.attemptCount)
       <= MAX_ATTEMPTS * (1 + s.replayWrites)
  }

  lemma SendKeepsLicences(s: State, i: nat, outcome: SendOutcome)
    requires Licensed(s) && i < |s.deliveries| && s.deliveries[i].Loaded?
    ensures Licensed(Step(s, Send(i, outcome)))
  {
    DeliveryMoves(s.deliveries, i, AfterSend(s.deliveries[i].attempt, outcome));
  }

  lemma StepKeepsLicences(s: State, a: Action)
    requires Licensed(s)
    ensures Licensed(Step(s, a))
  {
    match a {
      case Claim =>
        CountAppend(s.deliveries, Claimed, HoldsLicence);
        CountAppend(s.deliveries, Claimed, Unsent);
      case Load(i) => DeliveryMoves(s.deliveries, i, Loaded(s.row.attemptCount));
      case Suppress(i, code) => DeliveryMoves(s.deliveries, i, Condemned(code));
      case Send(i, outcome) =>
        if i < |s.deliveries| && s.deliveries[i].Loaded? {
          SendKeepsLicences(s, i, outcome);
        }
      case RecordSent(i, stored) => DeliveryMoves(s.deliveries, i, if stored then Ended else Condemned("unknown"));
      case RecordFailed(i, _) => DeliveryMoves(s.deliveries, i, Ended);
      case RecordDead(i, _) => DeliveryMoves(s.deliveries, i, Ended);
      case ReadCallback(_, _, _) =>
      case WriteCallback(_, _) =>
      case ReadReplay(_, _) =>
      case WriteReplay =>
    }
  }

  lemma DeliveryMoves(ds: seq<Delivery>, i: nat, d: Delivery)
    ensures i < |ds| ==>
      && Count(ds[i := d], HoldsLicence) + (if HoldsLicence(ds[i]) then 1 else 0)
         == Count(ds, HoldsLicence) + (if HoldsLicence(d) then 1 else 0)
      && Count(ds[i := d], Unsent) + (if Unsent(ds[i]) then 1 else 0)
         == Count(ds, Unsent) + (if Unsent(d) then 1 else 0)
  {
    if i < |ds| {
      CountUpdate(ds, i, d, HoldsLicence);
      CountUpdate(ds, i, d, Unsent);
    }
  }

  lemma {:induction false} RunKeepsLicences(s: State, actions: seq<Action>)
    requires Licensed(s)
    ensures Licensed(Run(s, actions))
    decreases |actions|
  {
    if actions != [] {
      StepKeepsLicences(s, actions[0]);
      RunKeepsLicences(Step(s, actions[0]), actions[1..]);
    }
  }

  /** In every interleaving the sends that may have reached the recipient number
      at most one more than the replay writes, and the provider is called at
      most three times for each. */
  lemma DuplicatesNeedReplays(actions: seq<Action>)
    ensures var t := Run(Init(FRESH), actions);
      && t.landed <= 1 + t.replayWrites
      && t.sends <= 3 * (1 + t.replayWrites)
  {
    RunKeepsLicences(Init(FRESH), actions);
  }

  /** Once every licence is spent nothing reaches the provider again until a
      replay write: whatever happens next, no claim and no send takes effect. */
  lemma {:induction false} SpentLicencesSilence(actions: seq<Action>, more: seq<Action>)
    requires var t := Run(Init(FRESH), actions); t.landed == 1 + t.replayWrites
    requires var t := Run(Init(FRESH), actions); Run(t, more).replayWrites == t.replayWrites
    ensures var t := Run(Init(FRESH), actions);
      Run(t, more).sends == t.sends && Run(t, more).landed == t.landed
  {
    RunKeepsLicences(Init(FRESH), actions);
    SpentStays(Run(Init(FRESH), actions), more);
  }

  lemma {:induction false} ReplayWritesGrow(s: State, actions: seq<Action>)
    ensures Run(s, actions).replayWrites >= s.replayWrites
    decreases |actions|
  {
    if actions != [] {
      ReplayWritesGrow(Step(s, actions[0]), actions[1..]);
    }
  }

  lemma {:induction false} SpentStays(s: State, actions: seq<Action>)
    requires Licensed(s) && s.landed == 1 + s.replayWrites
    requires Run(s, actions).replayWrites == s.replayWrites
    ensures Run(s, actions).sends == s.sends && Run(s, actions).landed == s.landed
    decreases |actions|
  {
    if actions != [] {
      var a, t := actions[0], Step(s, actions[0]);
      ReplayWritesGrow(t, actions[1..]);
      StepKeepsLicences(s, a);
      if a.Send? && a.i < |s.deliveries| && s.deliveries[a.i].Loaded? {
        CountUpdate(s.deliveries, a.i, Ended, HoldsLicence);
        assert false;
      }
      SpentStays(t, actions[1..]);
    }
  }

  // ----- the bound is reached -----

  function DeliverAccepted(i: nat): seq<Action> {
    [Claim, Load(i), Send(i, Accept("SM")), RecordSent(i, true)]
  }

  function FailAndReplay(i: nat): seq<Action> {
    [ReadCallback("SM", "failed", ""), WriteCallback(0, 0), ReadReplay(true, "customer never got it"), WriteReplay]
    + DeliverAccepted(i)
  }

  function Replayed(n: nat): seq<Action> {
    if n == 0 then DeliverAccepted(0) else Replayed(n - 1) + FailAndReplay(n)
  }

  predicate AcceptedOnly(s: State, n: nat) {
    && s.row.status.Sent? && s.row.externalId == Some("SM") && |s.deliveries| == n + 1
    && s.callbacks == [] && s.replays == 0 && s.landed == n + 1 && s.replayWrites == n
  }

  /** Every value of the bound occurs: n replays, n + 1 accepted sends. */
  lemma {:induction false} BoundIsReached(n: nat)
    ensures AcceptedOnly(Run(Init(FRESH), Replayed(n)), n)
  {
    if n == 0 {
      AcceptedDelivery(Init(FRESH), 0);
    } else {
      BoundIsReached(n - 1);
      var s := Run(Init(FRESH), Replayed(n - 1));
      RunAppend(Init(FRESH), Replayed(n - 1), FailAndReplay(n));
      var again := FailAndReplay(n)[..4];
      assert FailAndReplay(n) == again + DeliverAccepted(n);
      RunAppend(s, again, DeliverAccepted(n));
      Replay(s, n);
      AcceptedDelivery(Run(s, again), n);
    }
  }

  lemma AcceptedDelivery(s: State, i: nat)
    requires i == |s.deliveries| && Claimable(s.row)
    ensures var t := Run(s, DeliverAccepted(i));
      && t.row.status.Sent? && t.row.externalId == Some("SM") && |t.deliveries| == i + 1
      && t.callbacks == s.callbacks && t.replays == s.replays
      && t.landed == s.landed + 1 && t.replayWrites == s.replayWrites
  {
    RunFour(s, Claim, Load(i), Send(i, Accept("SM")), RecordSent(i, true));
  }

  lemma Replay(s: State, n: nat)
    requires n > 0 && AcceptedOnly(s, n - 1)
    ensures var t := Run(s, FailAndReplay(n)[..4]);
      && t.row == FRESH && t.deliveries == s.deliveries && t.callbacks == [] && t.replays == 0
      && t.landed == s.landed && t.replayWrites == n
  {
    var reason := "customer never got it";
    TrimKeeps(reason);
    var fail, written := ReadCallback("SM", "failed", ""), WriteCallback(0, 0);
    assert FailAndReplay(n)[..4] == [fail, written, ReadReplay(true, reason), WriteReplay];
    RunFour(s, fail, written, ReadReplay(true, reason), WriteReplay);
  }

  lemma TrimKeeps(reason: string)
    requires reason != "" && !IsSpace(reason[0]) && !IsSpace(reason[|reason| - 1])
    ensures Trim(reason) == reason
  {
  }

  lemma RunFour(s: State, a: Action, b: Action, c: Action, d: Action)
    ensures Run(s, [a, b, c, d]) == Step(Step(Step(Step(s, a), b), c), d)
  {
    var t := Step(s, a);
    RunAppend(s, [a], [b, c, d]);
    RunAppend(t, [b], [c, d]);
    RunAppend(Step(t, b), [c], [d]);
    assert [a] + [b, c, d] == [a, b, c, d];
    assert [b] + [c, d] == [b, c, d];
    assert [c] + [d] == [c, d];
    RunOne(s, a);
    RunOne(t, b);
    RunOne(Step(t, b), c);
    RunOne(Step(Step(t, b), c), d);
  }

  lemma RunOne(s: State, a: Action)
    ensures Run(s, [a]) == Step(s, a)
  {
    assert [a][1..] == [];
  }
}
