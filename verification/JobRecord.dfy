/** The job row as the object its services update: each method is one whole
    transaction, proved to take the interleaved machine's read and commit steps. */
module JobRecord {
  import opened Common
  import opened JobWorkflow
  import DispatchBoard

  /** The read and the guarded write of one call, with nothing in between. */
  ghost function Undisturbed(s: State, read: Action, now: int): State {
    Step(Step(s, read), Commit(|s.calls|, now))
  }

  /** What an undisturbed assignment writes, if its read admits it. */
  lemma AssignUndisturbed(s: State, technician: string, expected: nat, users: seq<DispatchBoard.User>,
      context: DispatchBoard.Context,
                          collation: DispatchBoard.Collation, reason: Option<string>, now: int)
    requires s.calls == [] && DispatchBoard.DistinctUsers(users, collation)
    ensures var call := AssignCall(s.row, technician, expected, users, context, collation, reason);
      var t := Undisturbed(s, ReadAssign(technician, expected, users, context, collation, reason), now);
      if call.Assigning? && expected == s.row.version
      then t.row == s.row.(holder := Some(technician), tech := Some(Assigned), version := s.row.version + 1)
        && t.log == s.log + [AssignedTo(s.row.holder, technician, s.row.holder.Some?, call.override,
            context.routing.covered, reason)]
      else t.row == s.row && t.log == s.log
  {
    var call := AssignCall(s.row, technician, expected, users, context, collation, reason);
    assert s.calls + [call] == [call];
  }

  /** What an undisturbed technician update writes, if its read admits it. */
  lemma UpdateUndisturbed(s: State, technician: string, action: TechAction, expected: nat, now: int)
    requires s.calls == []
    ensures var t := Undisturbed(s, ReadTech(technician, action, expected), now);
      if TechCall(s.row, technician, action, expected).Acting? && expected == s.row.version
      then t.row == TechWrite(s.row, s.row, action, now) && t.log == s.log + [TechAudit(technician, s.row, action)]
      else t.row == s.row && t.log == s.log
  {
    var call := TechCall(s.row, technician, action, expected);
    assert s.calls + [call] == [call];
  }

  datatype Response = Changed | NoChange | Rejected | Conflict

  /** What a call answers that reads `call` and finds the row at `version` at its write. */
  function Answer(call: Call, version: nat): Response {
    match call
    case Unchanged => NoChange
    case Assigning(expected, _, _, _, _, _) => if expected == version then Changed else Conflict
    case Cancelling(expected, _) => if expected == version then Changed else Conflict
    case Acting(expected, _, _, _) => if expected == version then Changed else Conflict
    case _ => Rejected
  }

  class Job {
    var status: JobStatus
    var holder: Option<string>
    var tech: Option<TechStatus>
    var acceptedAt: Option<int>
    var completedAt: Option<int>
    var version: nat
    var log: seq<Audit>

    constructor ()
      ensures Columns() == Row(JobStatus.Created, None, None, None, None, 0) && log == []
    {
      status, holder, tech, acceptedAt, completedAt := JobStatus.Created, None, None, None, None;
      version, log := 0, [];
    }

    function Columns(): Row
      reads this
    {
      Row(status, holder, tech, acceptedAt, completedAt, version)
    }

    ghost function Stored(): State
      reads this
    {
      State(Columns(), [], log, 0, [], 0, 0)
    }

    ghost predicate Matches(s: State)
      reads this
    {
      Columns() == s.row && log == s.log
    }

    method Assign(technician: string, expected: nat, users: seq<DispatchBoard.User>, context: DispatchBoard.Context,
                  collation: DispatchBoard.Collation, reason: Option<string>, now: int) returns (r: Response)
      requires DispatchBoard.DistinctUsers(users, collation)
      modifies this
      ensures Matches(Undisturbed(old(Stored()), ReadAssign(technician, expected, users, context, collation, reason),
          now))
      ensures r == Answer(old(AssignCall(Columns(), technician, expected, users, context, collation, reason)),
          old(version))
      ensures r.Changed? ==> holder == Some(technician) && tech == Some(Assigned) && |log| == |old(log)| + 1
      ensures !r.Changed? ==> Matches(old(Stored()))
    {
      AssignUndisturbed(Stored(), technician, expected, users, context, collation, reason, now);
      if status.Completed? || status.Cancelled? {
        return Rejected;
      }
      if holder == Some(technician) {
        return NoChange;
      }
      var ranked := DispatchBoard.RankCandidates(users, context, collation);
      var admission := DispatchBoard.Admit(ranked, context, holder, technician, reason);
      if admission.Refused? {
        return Rejected;
      }
      if version != expected {
        return Conflict;
      }
      var previous := holder;
      holder, tech, version := Some(technician), Some(Assigned), version + 1;
      log := log + [AssignedTo(previous, technician, previous.Some?, admission.override, context.routing.covered,
          reason)];
      return Changed;
    }

    method CancelAssignment(expected: nat, now: int) returns (r: Response)
      modifies this
      ensures Matches(Undisturbed(old(Stored()), ReadCancel(expected), now))
      ensures r == Answer(old(CancelCall(Columns(), expected)), old(version))
      ensures r.Changed? ==> holder.None? && tech.None? && |log| == |old(log)| + 1
      ensures !r.Changed? ==> Matches(old(Stored()))
    {
      if holder.None? {
        return NoChange;
      }
      if version != expected {
        return Conflict;
      }
      var previous := holder;
      holder, tech, version := None, None, version + 1;
      log := log + [AssignmentCancelled(previous)];
      return Changed;
    }

    method TechnicianUpdate(technician: string, action: TechAction, expected: nat, now: int) returns (r: Response)
      modifies this
      ensures Matches(Undisturbed(old(Stored()), ReadTech(technician, action, expected), now))
      ensures r == Answer(old(TechCall(Columns(), technician, action, expected)), old(version))
      ensures r.Changed? ==> tech == Target(action) && |log| == |old(log)| + 1
      ensures !r.Changed? ==> Matches(old(Stored()))
    {
      UpdateUndisturbed(Stored(), technician, action, expected, now);
      if holder != Some(technician) || status.Cancelled? {
        return Rejected;
      }
      var current := Current(Columns());
      var target := Target(action);
      if target == Some(current) {
        return NoChange;
      }
      if !Allowed(current, action) {
        return Rejected;
      }
      var releaseAssignment := action.Decline? || action.CannotTake?;
      // The update is built up field by field before it is written.
      var newHolder, newStatus, newAcceptedAt, newCompletedAt := holder, status, acceptedAt, completedAt;
      if releaseAssignment {
        newHolder := None;
      }
      if action.Accept? || action.OnMyWay? {
        if status.Created? || status.Offered? || status.Declined? || status.Expired? {
          newStatus := JobStatus.Accepted;
        }
        if acceptedAt.None? {
          newAcceptedAt := Some(now);
        }
      }
      if action.StartWork? {
        newStatus := JobStatus.InProgress;
      }
      if action.Complete? {
        newStatus, newCompletedAt := JobStatus.Completed, Some(now);
      }
      if version != expected {
        return Conflict;
      }
      holder, status, acceptedAt, completedAt := newHolder, newStatus, newAcceptedAt, newCompletedAt;
      tech, version := target, version + 1;
      log := log + [if releaseAssignment then TechReleased(technician, current)
                    else TechMoved(technician, current, target.value)];
      return Changed;
    }

    /** None stands for the exceptions; otherwise the completedAt that is reported. */
    method CompleteJob(now: int) returns (at: Option<int>)
      modifies this
      ensures Matches(Undisturbed(old(Stored()), ReadComplete, now))
      ensures at == if old(status).Completed? then old(completedAt)
                    else if old(status).Accepted? || old(status).InProgress? then Some(now) else None
      ensures at.Some? ==> status.Completed? && completedAt == at
      ensures old(status).Completed? || at.None? ==> Matches(old(Stored()))
    {
      if status.Completed? {
        return completedAt;
      }
      if !status.Accepted? && !status.InProgress? {
        return None;
      }
      var previous := status;
      status, completedAt, version := JobStatus.Completed, Some(now), version + 1;
      log := log + [JobCompleted(previous, now)];
      return Some(now);
    }
  }
}
