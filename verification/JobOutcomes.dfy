/** What every run of the job workflow keeps: one winner per version, work that
    does not go back, and one completion. */
module JobOutcomes {
  import opened Common
  import opened JobWorkflow

  // ----- one winner per version -----

  ghost predicate WonApart(s: State) {
    && (forall i | 0 <= i < |s.calls| && s.calls[i].Wrote? :: s.calls[i].expected < s.row.version)
    && (forall i, j | 0 <= i < j < |s.calls| && s.calls[i].Wrote? && s.calls[j].Wrote? ::
          s.calls[i].expected != s.calls[j].expected)
  }

  lemma CommitKeepsWonApart(s: State, i: nat, now: int)
    requires WonApart(s) && i < |s.calls|
    ensures WonApart(CommitCall(s, i, now))
  {
    var t := CommitCall(s, i, now);
    var call := t.calls[i];
    assert t.calls == s.calls[i := call];
    assert call == s.calls[i] || !call.Wrote? || (call.expected == s.row.version && t.row.version == s.row.version + 1);
    assert t.row.version >= s.row.version;
  }

  lemma StepKeepsWonApart(s: State, a: Action)
    requires WonApart(s)
    ensures WonApart(Step(s, a))
  {
    match a {
      case Commit(i, now) =>
        if i < |s.calls| {
          CommitKeepsWonApart(s, i, now);
        }
      case Reread(i) =>
        if i < |s.calls| {
          assert Step(s, a).calls == s.calls[i := Step(s, a).calls[i]];
        }
      case OtherWrite =>
      case _ =>
        assert Step(s, a).calls == s.calls || !Step(s, a).calls[|s.calls|].Wrote?;
    }
  }

  /** Of the calls that name one version, at most one succeeds. */
  lemma {:induction false} VersionsAreWonOnce(s: State, actions: seq<Action>)
    requires WonApart(s)
    ensures WonApart(Run(s, actions))
    decreases |actions|
  {
    if actions != [] {
      StepKeepsWonApart(s, actions[0]);
      VersionsAreWonOnce(Step(s, actions[0]), actions[1..]);
    }
  }

  // ----- work does not go back -----

  function StatusRank(status: JobStatus): nat {
    match status
    case Accepted => 1
    case InProgress => 2
    case Completed => 3
    case Cancelled => 4
    case _ => 0
  }

  function TechRank(tech: TechStatus): nat {
    match tech
    case Assigned => 0
    case Accepted => 1
    case EnRoute => 2
    case InProgress => 3
    case Completed => 4
  }

  /** A new job: nobody holds it and no work has begun. */
  predicate New(row: Row) {
    row.status.Created? && row.holder.None? && row.tech.None? && row.acceptedAt.None? && row.completedAt.None?
  }

  predicate Working(s: State) {
    && Paired(s.row)
    && (s.row.tech == Some(TechStatus.InProgress) ==>
          s.row.status.InProgress? || (s.row.status.Completed? && s.operatorCompletions > 0))
    && (s.row.tech == Some(TechStatus.Completed) ==> s.row.status.Completed?)
    && (s.row.tech.Some? && s.row.tech != Some(Assigned) ==> s.row.acceptedAt.Some? && StatusRank(s.row.status) >= 1)
    && (s.row.status.Completed? && s.operatorCompletions == 0 ==>
          s.row.tech.None? || s.row.tech == Some(TechStatus.Completed))
  }

  predicate Commits(s: State, a: Action) {
    a.Commit? && a.i < |s.calls| && s.calls[a.i].Acting?
    && s.calls[a.i].expected == s.row.version && s.row.holder == Some(s.calls[a.i].technician)
  }

  /** The one way a status goes back: a technician's start that commits on a row
      an operator has completed. */
  lemma StatusFallsIff(s: State, a: Action)
    requires AllReady(s)
    ensures StatusRank(Step(s, a).row.status) < StatusRank(s.row.status) <==>
      Commits(s, a) && s.calls[a.i].action.StartWork? && s.row.status.Completed?
  {
    if a.Commit? && a.i < |s.calls| {
      assert Ready(s.calls[a.i], s.row);
      CommitRanks(s, a.i, a.now);
    }
  }

  lemma CommitRanks(s: State, i: nat, now: int)
    requires i < |s.calls| && Ready(s.calls[i], s.row)
    ensures StatusRank(CommitCall(s, i, now).row.status) < StatusRank(s.row.status) <==>
      Commits(s, Commit(i, now)) && s.calls[i].action.StartWork? && s.row.status.Completed?
  {
    var call := s.calls[i];
    if call.Acting? && call.expected == s.row.version {
      assert call.read == s.row;
    }
  }

  lemma StepKeepsWorking(s: State, a: Action)
    requires Working(s) && AllReady(s)
    ensures Working(Step(s, a))
  {
    if a.Commit? && a.i < |s.calls| {
      assert Ready(s.calls[a.i], s.row);
      CommitKeepsWorking(s, a.i, a.now);
    }
  }

  lemma CommitKeepsWorking(s: State, i: nat, now: int)
    requires Working(s) && i < |s.calls| && Ready(s.calls[i], s.row)
    ensures Working(CommitCall(s, i, now))
  {
    var call := s.calls[i];
    if (call.Acting? || call.Assigning?) && call.expected == s.row.version {
      assert call.read == s.row;
    }
  }

  lemma {:induction false} RunKeepsWorking(s: State, actions: seq<Action>)
    requires Working(s) && AllReady(s)
    ensures Working(Run(s, actions)) && AllReady(Run(s, actions))
    decreases |actions|
  {
    if actions != [] {
      StepKeepsWorking(s, actions[0]);
      StepKeepsReady(s, actions[0]);
      RunKeepsWorking(Step(s, actions[0]), actions[1..]);
    }
  }

  lemma {:induction false} CompletionsGrow(s: State, actions: seq<Action>)
    ensures Run(s, actions).operatorCompletions >= s.operatorCompletions
    decreases |actions|
  {
    if actions != [] {
      CompletionsGrow(Step(s, actions[0]), actions[1..]);
    }
  }

  lemma StepRises(s: State, a: Action)
    requires Working(s) && AllReady(s) && s.operatorCompletions == 0
    ensures StatusRank(s.row.status) <= StatusRank(Step(s, a).row.status)
  {
    StatusFallsIff(s, a);
    if a.Commit? && a.i < |s.calls| {
      assert Ready(s.calls[a.i], s.row);
    }
  }

  lemma {:induction false} StatusRises(s: State, actions: seq<Action>)
    requires Working(s) && AllReady(s) && Run(s, actions).operatorCompletions == 0
    ensures StatusRank(s.row.status) <= StatusRank(Run(s, actions).row.status)
    decreases |actions|
  {
    if actions != [] {
      CompletionsGrow(s, actions);
      CompletionsGrow(Step(s, actions[0]), actions[1..]);
      StepRises(s, actions[0]);
      StepKeepsWorking(s, actions[0]);
      StepKeepsReady(s, actions[0]);
      StatusRises(Step(s, actions[0]), actions[1..]);
    }
  }

  /** Through any number of releases and reassignments of a new job, in every
      interleaving: its status never goes back while no operator completes it;
      started and finished work show in the status; and work that has begun has
      its acceptedAt. */
  lemma WorkNeverGoesBack(row: Row, first: seq<Action>, later: seq<Action>)
    requires New(row)
    ensures var s, t := Run(Init(row), first), Run(Init(row), first + later);
      && (t.operatorCompletions == 0 ==> StatusRank(s.row.status) <= StatusRank(t.row.status))
      && (t.row.tech.Some? <==> t.row.holder.Some?)
      && (t.operatorCompletions == 0 && t.row.tech == Some(TechStatus.InProgress) ==> t.row.status.InProgress?)
      && (t.row.tech == Some(TechStatus.Completed) ==> t.row.status.Completed?)
      && (t.row.tech.Some? && TechRank(t.row.tech.value) >= 1 ==> t.row.acceptedAt.Some?)
  {
    RunAppend(Init(row), first, later);
    RunKeepsWorking(Init(row), first);
    RunKeepsWorking(Run(Init(row), first), later);
    CompletionsGrow(Run(Init(row), first), later);
    if Run(Init(row), first + later).operatorCompletions == 0 {
      StatusRises(Run(Init(row), first), later);
    }
  }

  /** Every technician entry that is not a release raises the technician's rank. */
  lemma TechnicianMovesUp(row: Row, actions: seq<Action>, k: nat)
    requires Paired(row)
    requires k < |Run(Init(row), actions).log| && Run(Init(row), actions).log[k].TechMoved?
    ensures var log := Run(Init(row), actions).log;
      var before := Fold(ViewOf(row), log[..k]);
      before.tech.Some? && TechRank(log[k].target) > TechRank(before.tech.value)
  {
    LogReconstructsTheRow(row, actions);
    var log := Run(Init(row), actions).log;
    assert Accounts(log[k], Fold(ViewOf(row), log[..k]));
  }

  // ----- one completion -----

  predicate Completion(entry: Audit) {
    entry.JobCompleted? || (entry.TechMoved? && entry.target.Completed?)
  }

  ghost predicate Once(s: State) {
    && |s.completions| == Count(s.log, Completion)
    && (s.lateTechWrites == 0 ==>
          && |s.completions| <= 1
          && (s.row.status.Completed? <==> |s.completions| == 1)
          && (s.row.status.Completed? ==> s.row.completedAt == Some(s.completions[0]))
          && (forall call <- s.calls :: call.Reported? ==> s.completions == [call.at]))
  }

  lemma StepKeepsOnce(s: State, a: Action)
    requires Once(s) && AllReady(s)
    ensures Once(Step(s, a))
  {
    var t := Step(s, a);
    match a {
      case Commit(i, now) =>
        if i < |s.calls| {
          assert Ready(s.calls[i], s.row);
          CommitKeepsOnce(s, i, now);
        }
      case Reread(i) =>
        if i < |s.calls| {
          assert t.calls == s.calls[i := t.calls[i]];
        }
      case _ =>
    }
  }

  lemma CommitKeepsOnce(s: State, i: nat, now: int)
    requires Once(s) && i < |s.calls| && Ready(s.calls[i], s.row)
    ensures Once(CommitCall(s, i, now))
  {
    var t := CommitCall(s, i, now);
    assert t.calls == s.calls[i := t.calls[i]];
    if t.log != s.log {
      var entry := t.log[|s.log|];
      assert t.log == s.log + [entry];
      CountAppend(s.log, entry, Completion);
    }
    if s.calls[i].Acting? && s.calls[i].expected == s.row.version {
      assert s.calls[i].read == s.row;
    }
  }

  lemma {:induction false} RunKeepsOnce(s: State, actions: seq<Action>)
    requires Once(s) && AllReady(s)
    ensures Once(Run(s, actions))
    decreases |actions|
  {
    if actions != [] {
      StepKeepsOnce(s, actions[0]);
      StepKeepsReady(s, actions[0]);
      RunKeepsOnce(Step(s, actions[0]), actions[1..]);
    }
  }

  /** After a late write the completions and the status no longer match. */
  predicate Broken(s: State) {
    |s.completions| >= 2 || (|s.completions| == 1 && !s.row.status.Completed?)
  }

  lemma StepKeepsBroken(s: State, a: Action)
    requires Once(s) && AllReady(s) && (s.lateTechWrites > 0 ==> Broken(s))
    ensures Step(s, a).lateTechWrites > 0 ==> Broken(Step(s, a))
  {
    if a.Commit? && a.i < |s.calls| {
      assert Ready(s.calls[a.i], s.row);
      CommitKeepsBroken(s, a.i, a.now);
    }
  }

  lemma CommitKeepsBroken(s: State, i: nat, now: int)
    requires Once(s) && i < |s.calls| && (s.lateTechWrites > 0 ==> Broken(s))
    ensures CommitCall(s, i, now).lateTechWrites > 0 ==> Broken(CommitCall(s, i, now))
  {
  }

  lemma {:induction false} RunKeepsBroken(s: State, actions: seq<Action>)
    requires Once(s) && AllReady(s) && (s.lateTechWrites > 0 ==> Broken(s))
    ensures Run(s, actions).lateTechWrites > 0 ==> Broken(Run(s, actions))
    decreases |actions|
  {
    if actions != [] {
      StepKeepsBroken(s, actions[0]);
      StepKeepsOnce(s, actions[0]);
      StepKeepsReady(s, actions[0]);
      RunKeepsBroken(Step(s, actions[0]), actions[1..]);
    }
  }

  /** A technician starts or completes a job that the technician read as COMPLETED. */
  predicate Late(s: State, a: Action) {
    && Commits(s, a) && s.calls[a.i].read.status.Completed?
    && (s.calls[a.i].action.StartWork? || s.calls[a.i].action.Complete?)
  }

  ghost predicate LateIn(s: State, actions: seq<Action>)
    decreases |actions|
  {
    actions != [] && (Late(s, actions[0]) || LateIn(Step(s, actions[0]), actions[1..]))
  }

  lemma LateIsCounted(s: State, a: Action)
    requires AllReady(s)
    ensures Step(s, a).lateTechWrites == s.lateTechWrites + (if Late(s, a) then 1 else 0)
  {
    if a.Commit? && a.i < |s.calls| {
      assert Ready(s.calls[a.i], s.row);
    }
  }

  lemma {:induction false} LateInIff(s: State, actions: seq<Action>)
    requires AllReady(s)
    ensures Run(s, actions).lateTechWrites >= s.lateTechWrites
    ensures LateIn(s, actions) <==> Run(s, actions).lateTechWrites > s.lateTechWrites
    decreases |actions|
  {
    if actions != [] {
      LateIsCounted(s, actions[0]);
      StepKeepsReady(s, actions[0]);
      LateInIff(Step(s, actions[0]), actions[1..]);
    }
  }

  /** Any number of completeJob calls race each other and a technician. Exactly when no
      technician starts or completes a job read as COMPLETED, there is at most one
      completion, and one exactly when the row is COMPLETED; then every completeJob that
      succeeds reports it. Completions and their audits are one to one in any case. */
  lemma CompletedOnce(row: Row, actions: seq<Action>)
    requires New(row)
    ensures var t := Run(Init(row), actions);
      && (!LateIn(Init(row), actions) <==>
            |t.completions| <= 1 && (t.row.status.Completed? <==> |t.completions| == 1))
      && |t.completions| == Count(t.log, Completion)
      && (!LateIn(Init(row), actions) ==>
            forall call <- t.calls :: call.Reported? ==>
              t.completions == [call.at] && t.row.completedAt == Some(call.at))
  {
    RunKeepsOnce(Init(row), actions);
    RunKeepsBroken(Init(row), actions);
    LateInIff(Init(row), actions);
  }

  /** A job held by t, at a given point of the work. */
  function Held(status: JobStatus, tech: TechStatus): Row {
    Row(status, Some("t"), Some(tech), Some(0), None, 0)
  }

  lemma OperatorCompletes(row: Row)
    requires row.status.Accepted? || row.status.InProgress?
    ensures Step(Step(Init(row), ReadComplete), Commit(0, 5))
         == Init(row).(row := CompleteWrite(row, 5), calls := [Reported(5)], log := [JobCompleted(row.status, 5)],
                       completions := [5], operatorCompletions := 1)
  {
    assert Step(Init(row), ReadComplete) == Init(row).(calls := [Completing(row)]);
  }

  lemma TechnicianActsLate(row: Row, action: TechAction)
    requires row.holder == Some("t") && row.version == 0 && (row.status.Accepted? || row.status.InProgress?)
    requires row.tech.Some? && Allowed(row.tech.value, action) && (action.StartWork? || action.Complete?)
    ensures var completed := Step(Step(Init(row), ReadComplete), Commit(0, 5));
      var t := Step(Step(completed, ReadTech("t", action, 1)), Commit(1, 6));
      && t.row == TechWrite(CompleteWrite(row, 5), CompleteWrite(row, 5), action, 6)
      && t.calls[0] == Reported(5) && t.completions == if action.Complete? then [5, 6] else [5]
  {
    var completed := Step(Step(Init(row), ReadComplete), Commit(0, 5));
    OperatorCompletes(row);
    assert Step(completed, ReadTech("t", action, 1))
        == completed.(calls := [Reported(5), Acting(1, completed.row, "t", action)]);
  }

  /** COMPLETED is not final: only CANCELLED stops a technician, so a job an
      operator has completed can be started again, or completed a second time with
      another completedAt than the operator was told. */
  lemma TechnicianReopens()
    ensures var completed := Step(Step(Init(Held(JobStatus.Accepted, TechStatus.Accepted)), ReadComplete),
        Commit(0, 5));
      var t := Step(Step(completed, ReadTech("t", StartWork, 1)), Commit(1, 6));
      completed.row.status.Completed? && t.row.status.InProgress?
    ensures var completed := Step(Step(Init(Held(JobStatus.InProgress, TechStatus.InProgress)), ReadComplete),
        Commit(0, 5));
      var t := Step(Step(completed, ReadTech("t", Complete, 1)), Commit(1, 6));
      t.completions == [5, 6] && t.calls[0] == Reported(5) && t.row.completedAt == Some(6)
  {
    var accepted, started := Held(JobStatus.Accepted, TechStatus.Accepted),
        Held(JobStatus.InProgress, TechStatus.InProgress);
    OperatorCompletes(accepted);
    TechnicianActsLate(accepted, StartWork);
    TechnicianActsLate(started, Complete);
  }
}
