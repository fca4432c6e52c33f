/** src/jobs/dispatch-board.service.ts, src/jobs/technician-workflow.service.ts and
    src/jobs/job-lifecycle.service.ts: assigning, releasing, working and completing
    one job row, with every transaction's read split from its guarded write. */
module JobWorkflow {
  import opened Common
  import DispatchBoard

  datatype TechStatus = Assigned | Accepted | EnRoute | InProgress | Completed
  datatype TechAction = Accept | Decline | OnMyWay | StartWork | Complete | CannotTake

  /** `version` stands for updatedAt, which every write changes. */
  datatype Row = Row(
    status: JobStatus,
    holder: Option<string>,
    tech: Option<TechStatus>,
    acceptedAt: Option<int>,
    completedAt: Option<int>,
    version: nat)

  /** The audit entries of the three services, with the metadata they record. */
  datatype Audit =
    | AssignedTo(previousHolder: Option<string>, technician: string, reassigned: bool, override: bool, covered: bool,
        reason: Option<string>)
    | AssignmentCancelled(previousHolder: Option<string>)
    | TechMoved(actor: string, previousTech: TechStatus, target: TechStatus)
    | TechReleased(actor: string, previousTech: TechStatus)
    | JobCompleted(previousStatus: JobStatus, at: int)

  // ----- the technician's transitions -----

  predicate Allowed(current: TechStatus, action: TechAction) {
    match current
    case Assigned => action.Accept? || action.Decline? || action.CannotTake?
    case Accepted => action.OnMyWay? || action.StartWork? || action.Decline? || action.CannotTake?
    case EnRoute => action.StartWork? || action.CannotTake?
    case InProgress => action.Complete?
    case Completed => false
  }

  function Target(action: TechAction): Option<TechStatus> {
    match action
    case Accept => Some(TechStatus.Accepted)
    case OnMyWay => Some(EnRoute)
    case StartWork => Some(TechStatus.InProgress)
    case Complete => Some(TechStatus.Completed)
    case _ => None
  }

  function Current(row: Row): TechStatus {
    if row.tech.Some? then row.tech.value
    else if row.status.Completed? then TechStatus.Completed
    else if row.status.InProgress? then TechStatus.InProgress
    else Assigned
  }

  // ----- row writes -----

  function AssignWrite(row: Row, technician: string): Row {
    row.(holder := Some(technician), tech := Some(Assigned), version := row.version + 1)
  }

  function ReleaseWrite(row: Row): Row {
    row.(holder := None, tech := None, version := row.version + 1)
  }

  /** The update built from the row as it was read, applied to the row as it is. */
  function TechWrite(row: Row, read: Row, action: TechAction, now: int): Row {
    if Target(action).None? then ReleaseWrite(row)
    else
      var moved := row.(tech := Target(action), version := row.version + 1);
      match action
      case StartWork => moved.(status := JobStatus.InProgress)
      case Complete => moved.(status := JobStatus.Completed, completedAt := Some(now))
      case _ =>
        var engaged := if read.status.Created? || read.status.Offered? || read.status.Declined? || read.status.Expired?
                      then moved.(status := JobStatus.Accepted) else moved;
        if read.acceptedAt.None? then engaged.(acceptedAt := Some(now)) else engaged
  }

  function TechAudit(technician: string, read: Row, action: TechAction): Audit {
    if Target(action).Some? then TechMoved(technician, Current(read), Target(action).value)
    else TechReleased(technician, Current(read))
  }

  function CompleteWrite(row: Row, now: int): Row {
    row.(status := JobStatus.Completed, completedAt := Some(now), version := row.version + 1)
  }

  // ----- the interleaved machine -----

  /** Where one call stands: past its read, or ended. */
  datatype Call =
    | Assigning(expected: nat, read: Row, technician: string, override: bool, covered: bool, reason: Option<string>)
    | Cancelling(expected: nat, read: Row)
    | Acting(expected: nat, read: Row, technician: string, action: TechAction)
    | Completing(read: Row)
    | Rereading
    | Wrote(expected: nat)
    | Reported(at: int)      // completeJob's success, with the completedAt it returns
    | Unchanged
    | Refused

  datatype State = State(
    row: Row,
    calls: seq<Call>,
    log: seq<Audit>,
    otherWrites: nat,             // writes of other services: they change the version only
    completions: seq<int>,        // every completedAt written
    operatorCompletions: nat,     // those written by completeJob
    lateTechWrites: nat)          // starts and completions a technician commits on a completed row

  datatype Action =
    | ReadAssign(technician: string, expected: nat, users: seq<DispatchBoard.User>,
                 context: DispatchBoard.Context, collation: DispatchBoard.Collation, reason: Option<string>)
    | ReadCancel(expected: nat)
    | ReadTech(technician: string, action: TechAction, expected: nat)
    | ReadComplete
    | Commit(i: nat, now: int)
    | Reread(i: nat)
    | OtherWrite

  function Init(row: Row): State {
    State(row, [], [], 0, [], 0, 0)
  }

  function AssignCall(row: Row, technician: string, expected: nat, users: seq<DispatchBoard.User>,
                      context: DispatchBoard.Context, collation: DispatchBoard.Collation, reason: Option<string>): Call
  {
    if row.status.Completed? || row.status.Cancelled? then Refused
    else if row.holder == Some(technician) then Unchanged
    else
      var ranked := DispatchBoard.Ranked(users, context, collation);
      match DispatchBoard.Admit(ranked, context, row.holder, technician, reason)
      case Refused => Call.Refused
      case Admitted(override, _) => Assigning(expected, row, technician, override, context.routing.covered, reason)
  }

  function CancelCall(row: Row, expected: nat): Call {
    if row.holder.None? then Unchanged else Cancelling(expected, row)
  }

  function TechCall(row: Row, technician: string, action: TechAction, expected: nat): Call {
    if row.holder != Some(technician) || row.status.Cancelled? then Refused
    else if Target(action) == Some(Current(row)) then Unchanged
    else if !Allowed(Current(row), action) then Refused
    else Acting(expected, row, technician, action)
  }

  function CompleteCall(row: Row): Call {
    if row.status.Completed? then
      if row.completedAt.Some? then Reported(row.completedAt.value) else Refused
    else if row.status.Accepted? || row.status.InProgress? then Completing(row)
    else Refused
  }

  function End(s: State, i: nat, call: Call): State
    requires i < |s.calls|
  {
    s.(calls := s.calls[i := call])
  }

  function Write(s: State, i: nat, row: Row, audit: Audit, call: Call): State
    requires i < |s.calls|
  {
    s.(row := row, log := s.log + [audit], calls := s.calls[i := call])
  }

  /** The guarded write of a call that has read the row. */
  function CommitCall(s: State, i: nat, now: int): State
    requires i < |s.calls|
  {
    match s.calls[i]
    case Assigning(expected, read, technician, override, covered, reason) =>
      if s.row.version != expected then End(s, i, Refused)
      else Write(s, i, AssignWrite(s.row, technician),
                 AssignedTo(read.holder, technician, read.holder.Some?, override, covered, reason), Wrote(expected))
    case Cancelling(expected, read) =>
      if s.row.version != expected then End(s, i, Refused)
      else Write(s, i, ReleaseWrite(s.row), AssignmentCancelled(read.holder), Wrote(expected))
    case Acting(expected, read, technician, action) =>
      if s.row.version != expected || s.row.holder != Some(technician) then End(s, i, Refused)
      else Write(s, i, TechWrite(s.row, read, action, now), TechAudit(technician, read, action), Wrote(expected)).(
             completions := if action.Complete? then s.completions + [now] else s.completions,
             lateTechWrites := s.lateTechWrites + (if s.row.status.Completed?
                 && (action.StartWork? || action.Complete?) then 1 else 0))
    case Completing(read) =>
      if s.row.status != read.status then End(s, i, Rereading)
      else Write(s, i, CompleteWrite(s.row, now), JobCompleted(read.status, now), Reported(now)).(
             completions := s.completions + [now],
             operatorCompletions := s.operatorCompletions + 1)
    case _ => s
  }

  /** One atomic step; an action whose guard fails changes nothing. A caller can
      only name a version that some reader has already seen. */
  ghost function Step(s: State, a: Action): State {
    match a
    case ReadAssign(technician, expected, users, context, collation, reason) =>
      if expected > s.row.version || !DispatchBoard.DistinctUsers(users, collation) then s
      else s.(calls := s.calls + [AssignCall(s.row, technician, expected, users, context, collation, reason)])
    case ReadCancel(expected) =>
      if expected > s.row.version then s else s.(calls := s.calls + [CancelCall(s.row, expected)])
    case ReadTech(technician, action, expected) =>
      if expected > s.row.version then s else s.(calls := s.calls + [TechCall(s.row, technician, action, expected)])
    case ReadComplete => s.(calls := s.calls + [CompleteCall(s.row)])
    case Commit(i, now) => if i < |s.calls| then CommitCall(s, i, now) else s
    case Reread(i) =>
      if i >= |s.calls| || !s.calls[i].Rereading? then s
      else if s.row.status.Completed? && s.row.completedAt.Some? then End(s, i, Reported(s.row.completedAt.value))
      else End(s, i, Refused)
    case OtherWrite => s.(row := s.row.(version := s.row.version + 1), otherWrites := s.otherWrites + 1)
  }

  ghost function Run(s: State, actions: seq<Action>): State
    decreases |actions|
  {
    if actions == [] then s else Run(Step(s, actions[0]), actions[1..])
  }

  lemma {:induction false} RunAppend(s: State, first: seq<Action>, second: seq<Action>)
    ensures Run(s, first + second) == Run(Run(s, first), second)
    decreases |first|
  {
    if first == [] {
      assert first + second == second;
    } else {
      RunAppend(Step(s, first[0]), first[1..], second);
      assert (first + second)[1..] == first[1..] + second;
    }
  }

  // ----- a successful write saw the row it changes -----

  predicate Versioned(call: Call) {
    call.Assigning? || call.Cancelling? || call.Acting?
  }

  /** The call named a version no newer than the one it read, and the row it read
      is the current row for as long as the version has not moved. */
  predicate FreshUntilMoved(call: Call, row: Row) {
    Versioned(call) ==>
      call.expected <= call.read.version <= row.version && (call.read.version == row.version ==> call.read == row)
  }

  // ----- the audit log -----

  datatype View = View(holder: Option<string>, tech: Option<TechStatus>)

  function Replayed(view: View, entry: Audit): View {
    match entry
    case AssignedTo(_, technician, _, _, _, _) => View(Some(technician), Some(Assigned))
    case AssignmentCancelled(_) => View(None, None)
    case TechMoved(_, _, target) => view.(tech := Some(target))
    case TechReleased(_, _) => View(None, None)
    case JobCompleted(_, _) => view
  }

  function Fold(view: View, log: seq<Audit>): View {
    if log == [] then view else Replayed(Fold(view, log[..|log| - 1]), log[|log| - 1])
  }

  /** The entry names the holder or the technician status it replaces, and an
      assignment that needed a reason carries one. */
  predicate Accounts(entry: Audit, before: View) {
    match entry
    case AssignedTo(previous, technician, reassigned, override, covered, reason) =>
      && previous == before.holder && previous != Some(technician) && reassigned == before.holder.Some?
      && ((reassigned || override || !covered) ==> DispatchBoard.GoodReason(reason))
      && (!covered ==> override)
    case AssignmentCancelled(previous) => previous == before.holder && previous.Some?
    case TechMoved(actor, previous, target) =>
      && before.holder == Some(actor) && before.tech == Some(previous)
      && exists action :: Allowed(previous, action) && Target(action) == Some(target)
    case TechReleased(actor, previous) =>
      before.holder == Some(actor) && before.tech == Some(previous)
          && (previous.Assigned? || previous.Accepted? || previous.EnRoute?)
    case JobCompleted(_, _) => true
  }

  ghost predicate Accounted(view: View, log: seq<Audit>) {
    forall k | 0 <= k < |log| :: Accounts(log[k], Fold(view, log[..k]))
  }

  function ViewOf(row: Row): View {
    View(row.holder, row.tech)
  }

  /** A row on which a technician status is set exactly when somebody holds it. */
  predicate Paired(row: Row) {
    row.holder.Some? <==> row.tech.Some?
  }

  /** What the call's read established, as far as the audit entry repeats it. */
  predicate Sound(call: Call) {
    match call
    case Assigning(_, read, technician, override, covered, reason) =>
      && read.holder != Some(technician) && Open(read.status)
      && ((read.holder.Some? || override || !covered) ==> DispatchBoard.GoodReason(reason)) && (!covered ==> override)
    case Cancelling(_, read) => read.holder.Some?
    case Acting(_, read, technician, action) =>
      read.holder == Some(technician) && !read.status.Cancelled? && Allowed(Current(read), action)
    case Completing(read) => read.status.Accepted? || read.status.InProgress?
    case _ => true
  }

  predicate Open(status: JobStatus) {
    !status.Completed? && !status.Cancelled?
  }

  lemma AssignIsSound(row: Row, technician: string, expected: nat, users: seq<DispatchBoard.User>,
                      context: DispatchBoard.Context, collation: DispatchBoard.Collation, reason: Option<string>)
    requires DispatchBoard.DistinctUsers(users, collation)
    ensures Sound(AssignCall(row, technician, expected, users, context, collation, reason))
  {
    DispatchBoard.UncoveredNeedsReason(users, context, collation, row.holder, technician, reason);
  }

  predicate Ready(call: Call, row: Row) {
    FreshUntilMoved(call, row) && Sound(call)
  }

  ghost predicate AllReady(s: State) {
    forall i | 0 <= i < |s.calls| :: Ready(s.calls[i], s.row)
  }

  lemma CallsKeepReady(s: State, t: State, i: nat)
    requires AllReady(s) && i < |s.calls| && |t.calls| == |s.calls|
    requires forall k | 0 <= k < |s.calls| && k != i :: t.calls[k] == s.calls[k]
    requires t.calls[i] == s.calls[i] || (!Versioned(t.calls[i]) && Sound(t.calls[i]))
    requires t.row == s.row || t.row.version > s.row.version
    ensures AllReady(t)
  {
    forall k | 0 <= k < |t.calls|
      ensures Ready(t.calls[k], t.row)
    {
      assert Ready(s.calls[k], s.row);
    }
  }

  lemma NewCallKeepsReady(s: State, call: Call)
    requires AllReady(s) && Ready(call, s.row)
    ensures AllReady(s.(calls := s.calls + [call]))
  {
  }

  lemma CommitKeepsReady(s: State, i: nat, now: int)
    requires AllReady(s) && i < |s.calls|
    ensures AllReady(CommitCall(s, i, now))
  {
    var t := CommitCall(s, i, now);
    assert t.calls == s.calls[i := t.calls[i]];
    CallsKeepReady(s, t, i);
  }

  lemma StepKeepsReady(s: State, a: Action)
    requires AllReady(s)
    ensures AllReady(Step(s, a))
  {
    var t := Step(s, a);
    match a {
      case Commit(i, now) =>
        if i < |s.calls| {
          CommitKeepsReady(s, i, now);
        }
      case Reread(i) =>
        if i < |s.calls| {
          assert t.calls == s.calls[i := t.calls[i]];
          CallsKeepReady(s, t, i);
        }
      case OtherWrite =>
        forall k | 0 <= k < |t.calls|
          ensures Ready(t.calls[k], t.row)
        {
          assert Ready(s.calls[k], s.row);
        }
      case ReadAssign(technician, expected, users, context, collation, reason) =>
        if DispatchBoard.DistinctUsers(users, collation) && expected <= s.row.version {
          AssignIsSound(s.row, technician, expected, users, context, collation, reason);
          NewCallKeepsReady(s, AssignCall(s.row, technician, expected, users, context, collation, reason));
        }
      case ReadCancel(expected) =>
        if expected <= s.row.version {
          NewCallKeepsReady(s, CancelCall(s.row, expected));
        }
      case ReadTech(technician, action, expected) =>
        if expected <= s.row.version {
          NewCallKeepsReady(s, TechCall(s.row, technician, action, expected));
        }
      case ReadComplete => NewCallKeepsReady(s, CompleteCall(s.row));
    }
  }

  /** The log accounts for the row, entry by entry. */
  ghost predicate Logged(s: State, start: Row) {
    && Paired(s.row)
    && Fold(ViewOf(start), s.log) == ViewOf(s.row)
    && Accounted(ViewOf(start), s.log)
    && s.row.version == start.version + |s.log| + s.otherWrites
  }

  lemma FoldAppend(view: View, log: seq<Audit>, entry: Audit)
    ensures Fold(view, log + [entry]) == Replayed(Fold(view, log), entry)
    ensures Accounted(view, log) && Accounts(entry, Fold(view, log)) ==> Accounted(view, log + [entry])
  {
    var longer := log + [entry];
    assert longer[..|longer| - 1] == log;
    forall k | 0 <= k < |longer|
      ensures longer[..k] == if k < |log| then log[..k] else log
    {
    }
  }

  lemma CommitAccounts(s: State, i: nat, now: int)
    requires Paired(s.row) && i < |s.calls| && Ready(s.calls[i], s.row)
    ensures var t := CommitCall(s, i, now);
      (t.log == s.log && t.row == s.row)
      || (&& |t.log| == |s.log| + 1 && t.log == s.log + [t.log[|s.log|]] && t.row.version == s.row.version + 1
          && Paired(t.row) && Accounts(t.log[|s.log|], ViewOf(s.row))
          && Replayed(ViewOf(s.row), t.log[|s.log|]) == ViewOf(t.row))
  {
  }

  lemma LoggedGrows(s: State, t: State, start: Row, entry: Audit)
    requires Logged(s, start) && t.log == s.log + [entry]
    requires Accounts(entry, ViewOf(s.row)) && Replayed(ViewOf(s.row), entry) == ViewOf(t.row) && Paired(t.row)
    requires t.row.version == s.row.version + 1 && t.otherWrites == s.otherWrites
    ensures Logged(t, start)
  {
    FoldAppend(ViewOf(start), s.log, entry);
  }

  lemma CommitKeepsLogged(s: State, i: nat, now: int, start: Row)
    requires Logged(s, start) && i < |s.calls| && Ready(s.calls[i], s.row)
    ensures Logged(CommitCall(s, i, now), start)
  {
    var t := CommitCall(s, i, now);
    CommitAccounts(s, i, now);
    assert t.otherWrites == s.otherWrites;
    if t.log != s.log {
      LoggedGrows(s, t, start, t.log[|s.log|]);
    }
  }

  lemma StepKeepsLogged(s: State, a: Action, start: Row)
    requires Logged(s, start) && AllReady(s)
    ensures Logged(Step(s, a), start)
  {
    if a.Commit? {
      if a.i < |s.calls| {
        CommitKeepsLogged(s, a.i, a.now, start);
      }
    } else {
      var t := Step(s, a);
      assert t.log == s.log && ViewOf(t.row) == ViewOf(s.row);
    }
  }

  lemma {:induction false} RunKeepsLogged(s: State, actions: seq<Action>, start: Row)
    requires Logged(s, start) && AllReady(s)
    ensures Logged(Run(s, actions), start) && AllReady(Run(s, actions))
    decreases |actions|
  {
    if actions != [] {
      StepKeepsLogged(s, actions[0], start);
      StepKeepsReady(s, actions[0]);
      RunKeepsLogged(Step(s, actions[0]), actions[1..], start);
    }
  }

  /** In every interleaving the audit log reconstructs who holds the job and where
      the technician stands; each entry names exactly what it replaces and carries
      the reason it needed; and entries and effective writes are one to one. */
  lemma LogReconstructsTheRow(row: Row, actions: seq<Action>)
    requires Paired(row)
    ensures var t := Run(Init(row), actions);
      && Fold(ViewOf(row), t.log) == ViewOf(t.row)
      && Accounted(ViewOf(row), t.log)
      && t.row.version == row.version + |t.log| + t.otherWrites
      && Paired(t.row)
  {
    RunKeepsLogged(Init(row), actions, row);
  }
}
