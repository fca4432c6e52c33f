/** src/jobs/technician-workflow.service.ts and its neighbours: which calls change a job
    row, from where, and what they answer, said on the row and the answer alone. */
module TechnicianRules {
  import opened Common
  import opened JobWorkflow
  import opened JobRecord
  import DispatchBoard

  // ----- the technician's table -----

  /** A call of the holder, naming the version the row has. */
  function Update(row: Row, technician: string, action: TechAction): Response {
    Answer(TechCall(row, technician, action, row.version), row.version)
  }

  /** For the holder of a job that is not cancelled, each action changes the row from
      exactly these technician statuses. */
  lemma UpdateChangesIff(row: Row, technician: string, action: TechAction, tech: TechStatus)
    requires row.holder == Some(technician) && row.tech == Some(tech) && row.status != JobStatus.Cancelled
    ensures Update(row, technician, action) == Changed <==>
      match action
      case Accept => tech == Assigned
      case OnMyWay => tech == TechStatus.Accepted
      case StartWork => tech == TechStatus.Accepted || tech == EnRoute
      case Complete => tech == TechStatus.InProgress
      case Decline => tech == Assigned || tech == TechStatus.Accepted
      case CannotTake => tech == Assigned || tech == TechStatus.Accepted || tech == EnRoute
  {
  }

  /** Repeating the action that led to a status answers without a change, and everything
      else is rejected. */
  lemma UpdateRepeatsIff(row: Row, technician: string, action: TechAction, tech: TechStatus)
    requires row.holder == Some(technician) && row.tech == Some(tech) && row.status != JobStatus.Cancelled
    ensures Update(row, technician, action) == NoChange <==>
      || (action == Accept && tech == TechStatus.Accepted)
      || (action == OnMyWay && tech == EnRoute)
      || (action == StartWork && tech == TechStatus.InProgress)
      || (action == Complete && tech == TechStatus.Completed)
    ensures Update(row, technician, action) != Conflict
  {
  }

  /** Nobody but the holder, and nobody on a cancelled job, is let through; and a call that
      would change the row under another version is a conflict. */
  lemma UpdateRefusals(row: Row, technician: string, action: TechAction, expected: nat)
    ensures var answer := Answer(TechCall(row, technician, action, expected), row.version);
      && (row.holder != Some(technician) || row.status == JobStatus.Cancelled ==> answer == Rejected)
      && (expected != row.version ==> answer == if Update(row, technician, action) == Changed then Conflict
                                                else Update(row, technician, action))
  {
  }

  /** A held row without a technician status counts by its job status. */
  lemma MissingStatusCounts(row: Row, technician: string, action: TechAction)
    requires row.holder == Some(technician) && row.tech == None && row.status != JobStatus.Cancelled
    ensures var counted := if row.status == JobStatus.Completed then TechStatus.Completed
                           else if row.status == JobStatus.InProgress then TechStatus.InProgress
                           else Assigned;
      Update(row, technician, action) == Update(row.(tech := Some(counted)), technician, action)
  {
  }

  /** The row after an undisturbed update by the holder under the current version. */
  ghost function Updated(row: Row, technician: string, action: TechAction, now: int): Row {
    Undisturbed(Init(row), ReadTech(technician, action, row.version), now).row
  }

  /** What each action writes, column by column. */
  lemma UpdateWrites(row: Row, technician: string, action: TechAction, now: int)
    ensures Updated(row, technician, action, now) ==
      if Update(row, technician, action) != Changed then row
      else
        var next := row.(version := row.version + 1);
        var first := if row.acceptedAt == None then Some(now) else row.acceptedAt;
        var open := if row.status == Created || row.status == Offered || row.status == Declined || row.status == Expired
                    then JobStatus.Accepted else row.status;
        match action
        case Accept => next.(tech := Some(TechStatus.Accepted), acceptedAt := first, status := open)
        case OnMyWay => next.(tech := Some(EnRoute), acceptedAt := first, status := open)
        case StartWork => next.(tech := Some(TechStatus.InProgress), status := JobStatus.InProgress)
        case Complete =>
          next.(tech := Some(TechStatus.Completed), status := JobStatus.Completed, completedAt := Some(now))
        case Decline => next.(tech := None, holder := None)
        case CannotTake => next.(tech := None, holder := None)
  {
    UpdateUndisturbed(Init(row), technician, action, row.version, now);
  }

  /** An effective update leaves one audit of the status before and after. */
  lemma UpdateAudits(row: Row, technician: string, action: TechAction, tech: TechStatus, now: int)
    requires row.holder == Some(technician) && row.tech == Some(tech)
    ensures Undisturbed(Init(row), ReadTech(technician, action, row.version), now).log ==
      if Update(row, technician, action) != Changed then []
      else
        match action
        case Accept => [TechMoved(technician, tech, TechStatus.Accepted)]
        case OnMyWay => [TechMoved(technician, tech, EnRoute)]
        case StartWork => [TechMoved(technician, tech, TechStatus.InProgress)]
        case Complete => [TechMoved(technician, tech, TechStatus.Completed)]
        case Decline => [TechReleased(technician, tech)]
        case CannotTake => [TechReleased(technician, tech)]
  {
    UpdateUndisturbed(Init(row), technician, action, row.version, now);
  }

  // ----- liveness -----

  ghost function UpdatedBy(row: Row, technician: string, actions: seq<TechAction>, now: int): Row
    decreases |actions|
  {
    if actions == [] then row else UpdatedBy(Updated(row, technician, actions[0], now), technician, actions[1..], now)
  }

  lemma OneUpdate(row: Row, technician: string, action: TechAction, rest: seq<TechAction>, now: int)
    ensures UpdatedBy(row, technician, [action] + rest, now)
         == UpdatedBy(Updated(row, technician, action, now), technician, rest, now)
  {
    assert ([action] + rest)[1..] == rest;
  }

  /** From every unfinished status the holder of a job that is not cancelled can bring it
      to COMPLETED by updates alone. */
  lemma HolderCanFinish(row: Row, technician: string, tech: TechStatus, now: int)
    requires row.holder == Some(technician) && row.tech == Some(tech) && row.status != JobStatus.Cancelled
    requires tech != TechStatus.Completed
    ensures exists actions :: var t := UpdatedBy(row, technician, actions, now);
      t.status == JobStatus.Completed && t.tech == Some(TechStatus.Completed) && t.completedAt == Some(now)
  {
    var started := FinishFromStart(row, technician, tech, now);
    assert UpdatedBy(row, technician, started, now).status == JobStatus.Completed;
  }

  lemma FinishFromStart(row: Row, technician: string, tech: TechStatus, now: int) returns (actions: seq<TechAction>)
    requires row.holder == Some(technician) && row.tech == Some(tech) && row.status != JobStatus.Cancelled
    requires tech != TechStatus.Completed
    ensures var t := UpdatedBy(row, technician, actions, now);
      t.status == JobStatus.Completed && t.tech == Some(TechStatus.Completed) && t.completedAt == Some(now)
    decreases if tech == Assigned then 2 else if tech == TechStatus.InProgress then 0 else 1
  {
    var action := if tech == Assigned then Accept else if tech == TechStatus.InProgress then Complete else StartWork;
    UpdateChangesIff(row, technician, action, tech);
    UpdateWrites(row, technician, action, now);
    var next := Updated(row, technician, action, now);
    var rest := [];
    if tech != TechStatus.InProgress {
      rest := FinishFromStart(next, technician, next.tech.value, now);
    }
    actions := [action] + rest;
    OneUpdate(row, technician, action, rest, now);
  }

  // ----- assigning, releasing, completing -----

  /** What an assignment answers, from the row, the gate and the candidates. */
  lemma AssignAnswers(row: Row, technician: string, expected: nat, users: seq<DispatchBoard.User>,
                      context: DispatchBoard.Context, collation: DispatchBoard.Collation, reason: Option<string>)
    requires DispatchBoard.DistinctUsers(users, collation)
    ensures var answer := Answer(AssignCall(row, technician, expected, users, context, collation, reason), row.version);
      var ranked := DispatchBoard.Ranked(users, context, collation);
      if row.status == JobStatus.Completed || row.status == JobStatus.Cancelled then answer == Rejected
      else if row.holder == Some(technician) then answer == NoChange
      else
        (answer == Changed || answer == Conflict <==>
          && !context.gate.Locked?
          && (exists user <- users :: user.id == technician)
          && (DispatchBoard.GoodReason(reason)
              || (row.holder == None && DispatchBoard.Recommend(ranked).Some?
                  && DispatchBoard.Recommend(ranked).value.userId == technician)))
        && answer != NoChange
        && (answer == Changed ==> expected == row.version) && (answer == Conflict ==> expected != row.version)
  {
    DispatchBoard.AdmittedIff(users, context, collation, row.holder, technician, reason);
  }

  /** A release changes any held row under its version. */
  lemma CancelAssignmentAnswers(row: Row, expected: nat, now: int)
    requires expected <= row.version
    ensures Answer(CancelCall(row, expected), row.version) ==
      if row.holder == None then NoChange else if expected == row.version then Changed else Conflict
    ensures var t := Undisturbed(Init(row), ReadCancel(expected), now);
      if row.holder != None && expected == row.version
      then t.row == row.(holder := None, tech := None, version := row.version + 1)
          && t.log == [AssignmentCancelled(row.holder)]
      else t.row == row && t.log == []
  {
    assert Step(Init(row), ReadCancel(expected)) == Init(row).(calls := [CancelCall(row, expected)]);
  }

  /** completeJob completes accepted and started jobs, and those only; its audit names
      the status before. */
  lemma CompleteWrites(row: Row, now: int)
    ensures var t := Undisturbed(Init(row), ReadComplete, now);
      if row.status == JobStatus.Accepted || row.status == JobStatus.InProgress
      then t.row == row.(status := JobStatus.Completed, completedAt := Some(now), version := row.version + 1)
        && t.log == [JobCompleted(row.status, now)]
      else t.row == row && t.log == []
  {
    assert Step(Init(row), ReadComplete) == Init(row).(calls := [CompleteCall(row)]);
  }
}
