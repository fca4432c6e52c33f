/** src/communications/sms-delivery.service.ts with each call taken as one
    step: the row object and its three mutating calls, each proved to be a run
    of the interleaved machine, and what then holds after every history. */
module SmsSerialized {
  import opened Common
  import opened SmsDelivery

  /** How one `deliver` call went once its claim had succeeded. */
  datatype Attempt =
    | Abandoned                 // the process stopped before recording anything
    | Withheld(code: string)    // content unavailable or consent withdrawn
    | Called(outcome: SendOutcome, stored: bool)

  datatype Call =
    | Deliver(attempt: Attempt, now: int)
    | ApplyStatus(externalId: string, providerStatus: string, errorCode: string, now: int)
    | Replay(acknowledged: bool, reason: string)

  /** The machine steps of one call executed without interference. */
  function Trace(call: Call): seq<Action> {
    match call
    case Deliver(Abandoned, _) => [Claim]
    case Deliver(Withheld(code), now) => [Claim, Load(0), Suppress(0, code), RecordDead(0, now)]
    case Deliver(Called(outcome, stored), now) =>
      [Claim, Load(0), Send(0, outcome), RecordSent(0, stored)] + [RecordFailed(0, now), RecordDead(0, now)]
    case ApplyStatus(externalId, providerStatus, errorCode, now) =>
      [ReadCallback(externalId, providerStatus, errorCode), WriteCallback(0, now)]
    case Replay(acknowledged, reason) => [ReadReplay(acknowledged, reason), WriteReplay]
  }

  function Serialized(row: Row, call: Call): Row {
    Run(Init(row), Trace(call)).row
  }

  function History(row: Row, calls: seq<Call>): Row
    decreases |calls|
  {
    if calls == [] then row else History(Serialized(row, calls[0]), calls[1..])
  }

  // ----- the row object -----

  class CommunicationEvent {
    var status: Status
    var attemptCount: nat
    var nextAttemptAt: Option<int>
    var externalId: Option<string>
    var terminalAt: Option<int>
    var lastErrorCode: Option<string>

    function Columns(): Row
      reads this
    {
      Row(status, attemptCount, nextAttemptAt, externalId, terminalAt, lastErrorCode)
    }

    constructor ()
      ensures Columns() == FRESH
    {
      status, attemptCount := Queued, 0;
      nextAttemptAt, externalId, terminalAt, lastErrorCode := None, None, None, None;
    }

    method DeadLetterRow(code: string, now: int)
      modifies this
      ensures Columns() == DeadLetterWrite(old(Columns()), code, now)
    {
      status, lastErrorCode, terminalAt, nextAttemptAt := DeadLetter, Some(code), Some(now), None;
    }

    /** None stands for the ConflictException of a row that is not claimable,
        and for a call that never returned. */
    method DeliverOnce(attempt: Attempt, now: int) returns (result: Option<Status>)
      modifies this
      ensures Columns() == Serialized(old(Columns()), Deliver(attempt, now))
      ensures !Claimable(old(Columns())) ==> result.None? && Columns() == old(Columns())
      ensures result.Some? ==> result.value == status
      ensures result.Some? <==> Claimable(old(Columns())) && !attempt.Abandoned?
    {
      DeliverIsARun(Columns(), attempt, now);
      if !((status.Queued? || status.Failed?) && attemptCount < MAX_ATTEMPTS) {
        return None;
      }
      status, attemptCount, nextAttemptAt := Sending, attemptCount + 1, None;
      match attempt {
        case Abandoned =>
          return None;
        case Withheld(code) =>
          DeadLetterRow(code, now);
          return Some(DeadLetter);
        case Called(outcome, stored) =>
          var failure := Reject("unknown", false);
          if outcome.Accept? && stored {
            externalId, status, lastErrorCode := Some(outcome.externalId), Sent, None;
            return Some(Sent);
          } else if outcome.Reject? {
            failure := outcome;
          } else if outcome.Unknown? {
            failure := Reject(outcome.code, false);
          }
          var exhausted := attemptCount >= MAX_ATTEMPTS;
          if !failure.safeToRetry || exhausted {
            DeadLetterRow(failure.code, now);
            return Some(DeadLetter);
          }
          status, lastErrorCode, nextAttemptAt := Failed, Some(failure.code), Some(now + Backoff(attemptCount));
          return Some(Failed);
      }
    }

    /** False stands for the BadRequestException of an unknown status or message. */
    method ApplyStatusOnce(id: string, providerStatus: string, errorCode: string, now: int) returns (known: bool)
      modifies this
      ensures Columns() == Serialized(old(Columns()), ApplyStatus(id, providerStatus, errorCode, now))
      ensures known <==> IsReport(providerStatus) && old(externalId) == Some(id)
    {
      ReportsAreMapped(providerStatus);
      ApplyStatusIsARun(Columns(), id, providerStatus, errorCode, now);
      var mapped := MapStatus(providerStatus);
      if mapped.None? || externalId != Some(id) {
        return false;
      }
      if StatusRank(mapped.value) <= StatusRank(status) {
        return true;
      }
      status := mapped.value;
      lastErrorCode := if errorCode == "" then None else Some(errorCode);
      terminalAt := if status.Delivered? || status.DeadLetter? then Some(now) else None;
      return true;
    }

    method ReplayDeadLetter(acknowledged: bool, reason: string) returns (replayed: bool)
      modifies this
      ensures Columns() == Serialized(old(Columns()), Replay(acknowledged, reason))
      ensures replayed <==> ReplayAdmitted(old(Columns()), acknowledged, reason)
      ensures Columns() == if replayed then FRESH else old(Columns())
    {
      ReplayIsARun(Columns(), acknowledged, reason);
      if !status.DeadLetter? || !acknowledged || |Trim(reason)| < 10 || |reason| > 500 {
        return false;
      }
      status, attemptCount := Queued, 0;
      nextAttemptAt, terminalAt, lastErrorCode, externalId := None, None, None, None;
      return true;
    }
  }

  // ----- a call as a run -----

  /** The row one undisturbed delivery leaves behind, column by column. A row is claimed
      when it is QUEUED or FAILED and has made fewer than three attempts; a rejection that
      is safe to retry waits one minute after the first attempt and two after the second. */
  function DeliveredRow(row: Row, attempt: Attempt, now: int): Row {
    if !(row.status == Queued || row.status == Failed) || row.attemptCount >= 3 then row
    else
      var n := row.attemptCount + 1;
      var dead := (code: string) => Row(DeadLetter, n, None, row.externalId, Some(now), Some(code));
      match attempt
      case Abandoned => Row(Sending, n, None, row.externalId, row.terminalAt, row.lastErrorCode)
      case Withheld(code) => dead(code)
      case Called(Accept(id), stored) =>
        if stored then Row(Sent, n, None, Some(id), row.terminalAt, None) else dead("unknown")
      case Called(Unknown(code), _) => dead(code)
      case Called(Reject(code, safeToRetry), _) =>
        if safeToRetry && n < 3
        then Row(Failed, n, Some(now + 60_000 * n), row.externalId, row.terminalAt, Some(code))
        else dead(code)
  }

  /** The same row through the claim and the writes that follow it. */
  lemma DeliveredByWrites(row: Row, attempt: Attempt, now: int)
    ensures DeliveredRow(row, attempt, now) ==
      if !Claimable(row) then row
      else
        var claimed := ClaimWrite(row);
        match attempt
        case Abandoned => claimed
        case Withheld(code) => DeadLetterWrite(claimed, code, now)
        case Called(Accept(id), stored) =>
          if stored then SentWrite(claimed, id) else DeadLetterWrite(claimed, "unknown", now)
        case Called(Unknown(code), _) => DeadLetterWrite(claimed, code, now)
        case Called(Reject(code, safeToRetry), _) =>
          if safeToRetry && claimed.attemptCount < MAX_ATTEMPTS
          then FailedWrite(claimed, code, claimed.attemptCount, now)
          else DeadLetterWrite(claimed, code, now)
  {
    assert Backoff(1) == 60_000 && Backoff(2) == 120_000;
  }

  lemma DeliverIsARun(row: Row, attempt: Attempt, now: int)
    ensures Serialized(row, Deliver(attempt, now)) == DeliveredRow(row, attempt, now)
  {
    DeliveredByWrites(row, attempt, now);
    var s := Init(row);
    match attempt {
      case Abandoned =>
        RunOne(s, Claim);
      case Withheld(code) =>
        RunFour(s, Claim, Load(0), Suppress(0, code), RecordDead(0, now));
      case Called(outcome, stored) =>
        var first := [Claim, Load(0), Send(0, outcome), RecordSent(0, stored)];
        RunAppend(s, first, [RecordFailed(0, now), RecordDead(0, now)]);
        RunFour(s, Claim, Load(0), Send(0, outcome), RecordSent(0, stored));
        RunTwo(Run(s, first), RecordFailed(0, now), RecordDead(0, now));
    }
  }

  /** The provider's words for a message that failed, and for one on its way. */
  predicate SaysFailed(providerStatus: string) {
    providerStatus == "failed" || providerStatus == "undelivered"
  }

  predicate SaysUnderway(providerStatus: string) {
    || providerStatus == "accepted" || providerStatus == "queued"
    || providerStatus == "sending" || providerStatus == "sent"
  }

  predicate IsReport(providerStatus: string) {
    providerStatus == "delivered" || SaysFailed(providerStatus) || SaysUnderway(providerStatus)
  }

  lemma ReportsAreMapped(providerStatus: string)
    ensures MapStatus(providerStatus) ==
      if providerStatus == "delivered" then Some(Delivered)
      else if SaysFailed(providerStatus) then Some(DeadLetter)
      else if SaysUnderway(providerStatus) then Some(Sent)
      else None
  {
  }

  function ErrorOf(errorCode: string): Option<string> {
    if errorCode == "" then None else Some(errorCode)
  }

  /** The row an undisturbed callback leaves behind, in the provider's words: delivered
      always counts, a failure counts until the message is delivered or dead-lettered,
      and a message on its way only until it is known to be sent. */
  function ReportedRow(row: Row, id: string, providerStatus: string, errorCode: string, now: int): Row {
    if row.externalId != Some(id) || row.status == Delivered then row
    else if providerStatus == "delivered" then
      row.(status := Delivered, lastErrorCode := ErrorOf(errorCode), terminalAt := Some(now))
    else if row.status == DeadLetter then row
    else if SaysFailed(providerStatus) then
      row.(status := DeadLetter, lastErrorCode := ErrorOf(errorCode), terminalAt := Some(now))
    else if row.status != Sent && SaysUnderway(providerStatus) then
      row.(status := Sent, lastErrorCode := ErrorOf(errorCode), terminalAt := None)
    else row
  }

  lemma ApplyStatusIsARun(row: Row, id: string, providerStatus: string, errorCode: string, now: int)
    ensures Serialized(row, ApplyStatus(id, providerStatus, errorCode, now))
         == ReportedRow(row, id, providerStatus, errorCode, now)
  {
    ReportsAreMapped(providerStatus);
    RunTwo(Init(row), ReadCallback(id, providerStatus, errorCode), WriteCallback(0, now));
  }

  /** What each word of the provider does to a message known to be sent. */
  lemma SentMessageReports(row: Row, id: string, providerStatus: string, errorCode: string, now: int)
    requires row.status == Sent && row.externalId == Some(id)
    ensures var t := Serialized(row, ApplyStatus(id, providerStatus, errorCode, now));
      && (providerStatus == "delivered" ==> t.status == Delivered && t.terminalAt == Some(now))
      && (providerStatus == "failed" || providerStatus == "undelivered" ==>
            t.status == DeadLetter && t.terminalAt == Some(now))
      && (providerStatus != "delivered" && providerStatus != "failed" && providerStatus != "undelivered" ==> t == row)
    ensures IsReport(providerStatus) <==>
      providerStatus in ["delivered", "failed", "undelivered", "accepted", "queued", "sending", "sent"]
  {
    ApplyStatusIsARun(row, id, providerStatus, errorCode, now);
  }

  /** A replay starts the message afresh iff it is dead-lettered, the duplicate risk is
      acknowledged, and the reason has ten characters and not above five hundred. */
  lemma ReplayIsARun(row: Row, acknowledged: bool, reason: string)
    ensures Serialized(row, Replay(acknowledged, reason)) ==
      if row.status == DeadLetter && acknowledged && 10 <= |Trim(reason)| && |reason| <= 500
      then Row(Queued, 0, None, None, None, None) else row
  {
    RunTwo(Init(row), ReadReplay(acknowledged, reason), WriteReplay);
  }

  lemma RunTwo(s: State, a: Action, b: Action)
    ensures Run(s, [a, b]) == Step(Step(s, a), b)
  {
    RunAppend(s, [a], [b]);
    assert [a] + [b] == [a, b];
    RunOne(s, a);
    RunOne(Step(s, a), b);
  }

  // ----- what every serialized history keeps -----

  predicate Consistent(row: Row) {
    && (row.status.Queued? || row.status.Sending? || row.status.Failed? ==> row.externalId.None?)
    && (row.status.Sent? || row.status.Delivered? ==> row.externalId.Some?)
    && (row.terminalAt.Some? <==> row.status.Delivered? || row.status.DeadLetter?)
    && (row.status.Failed? ==> 1 <= row.attemptCount <= 2 && row.nextAttemptAt.Some?)
    && (row.status.Queued? ==> row.attemptCount == 0)
    && !row.status.Received?
  }

  lemma CallKeepsConsistent(row: Row, call: Call)
    requires Consistent(row)
    ensures Consistent(Serialized(row, call))
  {
    match call
    case Deliver(attempt, now) => DeliverIsARun(row, attempt, now);
    case ApplyStatus(id, providerStatus, errorCode, now) => ApplyStatusIsARun(row, id, providerStatus, errorCode, now);
    case Replay(acknowledged, reason) => ReplayIsARun(row, acknowledged, reason);
  }

  lemma {:induction false} HistoryKeepsConsistent(row: Row, calls: seq<Call>)
    requires Consistent(row)
    ensures Consistent(History(row, calls))
    decreases |calls|
  {
    if calls != [] {
      CallKeepsConsistent(row, calls[0]);
      HistoryKeepsConsistent(Serialized(row, calls[0]), calls[1..]);
    }
  }

  /** The rows `processDue` selects. */
  predicate Due(row: Row, now: int) {
    && (row.status.Queued? || (row.status.Failed? && row.nextAttemptAt.Some? && row.nextAttemptAt.value <= now))
    && row.attemptCount < MAX_ATTEMPTS
  }

  /** A row is due when it has attempts left and waits for none, or has waited enough. */
  lemma DueIff(row: Row, now: int)
    ensures Due(row, now) <==>
      row.attemptCount < 3
      && (row.status == Queued || (row.status == Failed && row.nextAttemptAt.Some? && row.nextAttemptAt.value <= now))
  {
  }

  /** No stuck retry: in any serialized history a QUEUED row is due at once, a
      FAILED row from its recorded instant on, and a delivery then claims it. */
  lemma FailedIsNeverStuck(calls: seq<Call>, now: int, attempt: Attempt)
    requires var row := History(FRESH, calls); row.status.Failed? || row.status.Queued?
    ensures var row := History(FRESH, calls);
      && (row.status.Failed? ==> row.nextAttemptAt.Some? && (Due(row, now) <==> row.nextAttemptAt.value <= now))
      && (row.status.Queued? ==> Due(row, now))
      && Serialized(row, Deliver(attempt, now)).attemptCount == row.attemptCount + 1
  {
    HistoryKeepsConsistent(FRESH, calls);
    DeliverIsARun(History(FRESH, calls), attempt, now);
  }

  // ----- provider callbacks -----

  datatype Report = Report(providerStatus: string, errorCode: string, now: int)

  function Reported(row: Row, id: string, reports: seq<Report>): Row
    decreases |reports|
  {
    if reports == [] then row
    else
      var r := reports[0];
      Reported(Serialized(row, ApplyStatus(id, r.providerStatus, r.errorCode, r.now)), id, reports[1..])
  }

  /** A delivery outranks a failure, and a failure a message on its way. */
  function RankOf(r: Report): nat {
    if r.providerStatus == "delivered" then 4
    else if SaysFailed(r.providerStatus) then 3
    else if SaysUnderway(r.providerStatus) then 2
    else 0
  }

  function TopRank(rank: nat, reports: seq<Report>): nat
    decreases |reports|
  {
    if reports == [] then rank else TopRank(Max(rank, RankOf(reports[0])), reports[1..])
  }

  /** After any reports the row carries the highest-ranked status among its own
      and theirs. */
  lemma {:induction false} ReportsTakeTheHighest(row: Row, id: string, reports: seq<Report>)
    requires Consistent(row) && row.externalId == Some(id)
    ensures var t := Reported(row, id, reports);
      && Consistent(t) && t.externalId == Some(id)
      && StatusRank(t.status) == TopRank(StatusRank(row.status), reports)
    decreases |reports|
  {
    if reports != [] {
      var r := reports[0];
      ApplyStatusIsARun(row, id, r.providerStatus, r.errorCode, r.now);
      ReportsTakeTheHighest(Serialized(row, ApplyStatus(id, r.providerStatus, r.errorCode, r.now)), id, reports[1..]);
    }
  }

  ghost predicate CoversRanks(some: seq<Report>, others: seq<Report>) {
    forall r <- some :: exists q <- others :: RankOf(q) == RankOf(r)
  }

  lemma {:induction false} TopRankIsTheLeastBound(rank: nat, reports: seq<Report>)
    ensures TopRank(rank, reports) >= rank
    ensures forall r <- reports :: RankOf(r) <= TopRank(rank, reports)
    ensures TopRank(rank, reports) == rank || exists r <- reports :: RankOf(r) == TopRank(rank, reports)
    decreases |reports|
  {
    if reports != [] {
      TopRankIsTheLeastBound(Max(rank, RankOf(reports[0])), reports[1..]);
    }
  }

  lemma CoveringRaises(rank: nat, some: seq<Report>, others: seq<Report>)
    requires CoversRanks(some, others)
    ensures TopRank(rank, some) <= TopRank(rank, others)
  {
    TopRankIsTheLeastBound(rank, some);
    TopRankIsTheLeastBound(rank, others);
  }

  /** Order and repetition of reports do not matter: two report sequences with
      the same statuses, in any order and multiplicity, end in the same status. */
  lemma ReportsCommute(row: Row, id: string, some: seq<Report>, others: seq<Report>)
    requires Consistent(row) && row.externalId == Some(id)
    requires CoversRanks(some, others) && CoversRanks(others, some)
    ensures Reported(row, id, some).status == Reported(row, id, others).status
  {
    var rank := StatusRank(row.status);
    ReportsTakeTheHighest(row, id, some);
    ReportsTakeTheHighest(row, id, others);
    CoveringRaises(rank, some, others);
    CoveringRaises(rank, others, some);
  }

  /** A delivery report is never lost, wherever it stands in the sequence. */
  lemma DeliveredIsKept(row: Row, id: string, reports: seq<Report>)
    requires Consistent(row) && row.externalId == Some(id)
    ensures Reported(row, id, reports).status.Delivered?
      <==> row.status.Delivered? || exists r <- reports :: r.providerStatus == "delivered"
  {
    ReportsTakeTheHighest(row, id, reports);
    TopRankIsTheLeastBound(StatusRank(row.status), reports);
    assert forall r <- reports :: RankOf(r) == 4 <==> r.providerStatus == "delivered";
  }

  /** A row ends dead-lettered iff it was, or was not delivered and some report says it
      failed, and no report says it was delivered. */
  lemma DeadLetteredIff(row: Row, id: string, reports: seq<Report>)
    requires Consistent(row) && row.externalId == Some(id)
    ensures Reported(row, id, reports).status == DeadLetter <==>
      && (row.status == DeadLetter || (row.status != Delivered && exists r <- reports :: SaysFailed(r.providerStatus)))
      && !exists r <- reports :: r.providerStatus == "delivered"
  {
    ReportsTakeTheHighest(row, id, reports);
    TopRankIsTheLeastBound(StatusRank(row.status), reports);
    assert forall r <- reports :: RankOf(r) == 4 <==> r.providerStatus == "delivered";
    assert forall r <- reports :: RankOf(r) == 3 <==> SaysFailed(r.providerStatus);
  }

  /** Unserialized, the guarantee is lost: two reports that both read SENT may
      write in the order that replaces DELIVERED. */
  lemma RacingReportsLoseDelivered()
    ensures var sent := SentWrite(ClaimWrite(FRESH), "SM");
      var s := Run(Init(sent), [ReadCallback("SM", "delivered", ""), ReadCallback("SM", "failed", "30003"),
                                WriteCallback(0, 1), WriteCallback(0, 2)]);
      s.row.status.DeadLetter?
  {
    var sent := SentWrite(ClaimWrite(FRESH), "SM");
    RunFour(Init(sent), ReadCallback("SM", "delivered", ""), ReadCallback("SM", "failed", "30003"),
            WriteCallback(0, 1), WriteCallback(0, 2));
  }
}
