/** src/scheduling/scheduling.service.ts: what a finished saga leaves behind when
    each job has one saga at a time and the sagas of all jobs interleave. */
module SagaOutcomes {
  import opened Common
  import opened CalendarSagas

  predicate Live(saga: Saga) {
    !saga.Finished?
  }

  ghost predicate Busy(s: State, j: JobId) {
    exists i | 0 <= i < |s.sagas| :: s.sagas[i].job == j && Live(s.sagas[i])
  }

  predicate Begins(a: Action) {
    a.BeginConfirm? || a.BeginMove? || a.BeginCancel?
  }

  /** No saga begins on a job whose previous saga is still under way. */
  ghost predicate OneSagaPerJob(s: State, actions: seq<Action>)
    decreases |actions|
  {
    actions == [] ||
    ((Begins(actions[0]) ==> !Busy(s, actions[0].job)) && OneSagaPerJob(Step(s, actions[0]), actions[1..]))
  }

  // ----- the appointment of one job -----

  predicate Unbooked(s: State, j: JobId)
    requires j in s.jobs
  {
    s.jobs[j].window.None? && s.jobs[j].event.None?
  }

  /** The row shows window w and event e, and the calendar shows e at window c. */
  predicate Shows(s: State, j: JobId, e: EventId, w: Window, c: Window)
    requires j in s.jobs
  {
    && s.jobs[j].window == Some(w) && s.jobs[j].event == Some(e)
    && e in s.events && s.events[e].window == c
  }

  predicate Settled(s: State, j: JobId)
    requires j in s.jobs
  {
    || Unbooked(s, j)
    || (s.jobs[j].window.Some? && s.jobs[j].event.Some? &&
        Shows(s, j, s.jobs[j].event.value, s.jobs[j].window.value, s.jobs[j].window.value))
  }

  /** What holds of the job while its saga stands at a given step. */
  predicate Midway(s: State, saga: Saga)
    requires saga.job in s.jobs
  {
    var j := saga.job;
    match saga
    case ConfirmReserve(_, _) => Settled(s, j)
    case ConfirmInsert(_, w) => s.jobs[j].window == Some(w) && s.jobs[j].event.None?
    case ConfirmStore(_, w, e) =>
      s.jobs[j].window == Some(w) && s.jobs[j].event.None? && e in s.events && s.events[e].window == w
    case ConfirmUndo(_) => s.jobs[j].event.None?
    case MoveReserve(_, _, _, _, _) => Settled(s, j)
    case MovePatch(_, e, source, _, w) => Shows(s, j, e, w, source)
    case MoveAudit(_, e, _, _, w) => Shows(s, j, e, w, w)
    case MoveRollback(_, e, _, _, w) => Shows(s, j, e, w, w)
    case MoveUndo(_, e, source, _, w) => Shows(s, j, e, w, source)
    case CancelReserve(_, _, _, _) => Settled(s, j)
    case CancelDelete(_, e, source, _) => Unbooked(s, j) && e in s.events && s.events[e].window == source
    case CancelUndo(_, e, source, _) => Unbooked(s, j) && e in s.events && s.events[e].window == source
    case Finished(_) => Settled(s, j)
  }

  ghost predicate Alone(s: State, i: nat)
    requires i < |s.sagas|
  {
    forall k | 0 <= k < |s.sagas| && k != i && Live(s.sagas[k]) :: s.sagas[k].job != s.sagas[i].job
  }

  ghost predicate AllAlone(s: State) {
    forall i | 0 <= i < |s.sagas| && Live(s.sagas[i]) :: Alone(s, i)
  }

  ghost predicate Coherent(s: State) {
    && Owned(s)
    && AllAlone(s)
    && (forall i | 0 <= i < |s.sagas| && Live(s.sagas[i]) && s.sagas[i].job !in s.blurred :: Midway(s, s.sagas[i]))
    && (forall j <- s.jobs :: j !in s.blurred && !Busy(s, j) ==> Settled(s, j))
  }

  /** Job j shows the same booking and the same calendar events in both states. */
  ghost predicate SameView(s: State, t: State, j: JobId) {
    && j in s.jobs && j in t.jobs
    && t.jobs[j].window == s.jobs[j].window && t.jobs[j].event == s.jobs[j].event && t.jobs[j].text == s.jobs[j].text
    && (j in t.blurred <==> j in s.blurred)
    && (forall e <- s.events :: s.events[e].job == j ==> e in t.events && t.events[e] == s.events[e])
    && (forall e <- t.events :: t.events[e].job == j ==> e in s.events && s.events[e] == t.events[e])
  }

  lemma OthersUntouchedByConfirm(s: State, i: nat, outcome: Outcome, j: JobId)
    requires Owned(s) && i < |s.sagas| && j in s.jobs && j != s.sagas[i].job
    ensures SameView(s, ConfirmStep(s, i, outcome), j)
  {
  }

  lemma OthersUntouchedByMove(s: State, i: nat, outcome: Outcome, j: JobId)
    requires Owned(s) && i < |s.sagas| && j in s.jobs && j != s.sagas[i].job && IsMove(s.sagas[i])
    ensures SameView(s, MoveStep(s, i, outcome), j)
  {
    assert Remembers(s.sagas[i], s.sagas[i].event);
  }

  lemma OthersUntouchedByCancel(s: State, i: nat, outcome: Outcome, j: JobId)
    requires Owned(s) && i < |s.sagas| && j in s.jobs && j != s.sagas[i].job
    ensures SameView(s, CancelStep(s, i, outcome), j)
  {
    assert IsCancel(s.sagas[i]) ==> Remembers(s.sagas[i], s.sagas[i].event);
  }

  /** A saga's step leaves every other job's row and events alone. */
  lemma OthersUntouched(s: State, i: nat, outcome: Outcome, j: JobId)
    requires Owned(s) && i < |s.sagas| && j in s.jobs && j != s.sagas[i].job
    ensures SameView(s, Step(s, Advance(i, outcome)), j)
  {
    if IsConfirm(s.sagas[i]) {
      OthersUntouchedByConfirm(s, i, outcome, j);
    } else if IsMove(s.sagas[i]) {
      OthersUntouchedByMove(s, i, outcome, j);
    } else {
      OthersUntouchedByCancel(s, i, outcome, j);
    }
  }

  lemma SettledCarries(s: State, t: State, j: JobId)
    requires Owned(s) && SameView(s, t, j) && Settled(s, j)
    ensures Settled(t, j)
  {
  }

  lemma MidwayCarries(s: State, t: State, i: nat)
    requires Owned(s) && i < |s.sagas| && SameView(s, t, s.sagas[i].job) && Midway(s, s.sagas[i])
    ensures Midway(t, s.sagas[i])
  {
    var saga := s.sagas[i];
    if saga.ConfirmStore? || IsMove(saga) || IsCancel(saga) {
      assert Remembers(saga, saga.event);
    }
  }

  lemma OwnConfirm(s: State, i: nat, outcome: Outcome)
    requires Owned(s) && i < |s.sagas| && IsConfirm(s.sagas[i]) && Midway(s, s.sagas[i])
    requires s.sagas[i].job !in ConfirmStep(s, i, outcome).blurred
    ensures var t := ConfirmStep(s, i, outcome);
      && t.sagas[i].job == s.sagas[i].job && t.sagas[i].job in t.jobs && Midway(t, t.sagas[i])
  {
  }

  lemma OwnMove(s: State, i: nat, outcome: Outcome)
    requires i < |s.sagas| && s.sagas[i].job in s.jobs && IsMove(s.sagas[i]) && Midway(s, s.sagas[i])
    requires s.sagas[i].job !in MoveStep(s, i, outcome).blurred
    ensures var t := MoveStep(s, i, outcome);
      && t.sagas[i].job == s.sagas[i].job && t.sagas[i].job in t.jobs && Midway(t, t.sagas[i])
  {
  }

  lemma OwnCancel(s: State, i: nat, outcome: Outcome)
    requires i < |s.sagas| && s.sagas[i].job in s.jobs && IsCancel(s.sagas[i]) && Midway(s, s.sagas[i])
    requires s.sagas[i].job !in CancelStep(s, i, outcome).blurred
    ensures var t := CancelStep(s, i, outcome);
      && t.sagas[i].job == s.sagas[i].job && t.sagas[i].job in t.jobs && Midway(t, t.sagas[i])
  {
  }

  /** The step of the job's own saga, no other being live. */
  lemma OwnStep(s: State, i: nat, outcome: Outcome)
    requires Coherent(s) && i < |s.sagas| && Live(s.sagas[i])
    requires s.sagas[i].job !in Step(s, Advance(i, outcome)).blurred
    ensures var t := Step(s, Advance(i, outcome));
      && t.sagas[i].job == s.sagas[i].job && t.sagas[i].job in t.jobs && Midway(t, t.sagas[i])
  {
    BlurStays(s, i, outcome);
    assert Midway(s, s.sagas[i]);
    if IsConfirm(s.sagas[i]) {
      OwnConfirm(s, i, outcome);
    } else if IsMove(s.sagas[i]) {
      OwnMove(s, i, outcome);
    } else {
      OwnCancel(s, i, outcome);
    }
  }

  lemma BlurStays(s: State, i: nat, outcome: Outcome)
    ensures s.blurred <= Step(s, Advance(i, outcome)).blurred
  {
  }

  predicate MovesOn(s: State, i: nat, t: State)
    requires i < |s.sagas|
  {
    |t.sagas| == |s.sagas| && t.sagas == s.sagas[i := t.sagas[i]] && t.sagas[i].job == s.sagas[i].job
  }

  lemma ConfirmShape(s: State, i: nat, outcome: Outcome)
    requires i < |s.sagas| && s.sagas[i].job in s.jobs
    ensures MovesOn(s, i, ConfirmStep(s, i, outcome))
  {
  }

  lemma MoveShape(s: State, i: nat, outcome: Outcome)
    requires i < |s.sagas| && s.sagas[i].job in s.jobs
    ensures MovesOn(s, i, MoveStep(s, i, outcome))
  {
  }

  lemma CancelShape(s: State, i: nat, outcome: Outcome)
    requires i < |s.sagas| && s.sagas[i].job in s.jobs
    ensures MovesOn(s, i, CancelStep(s, i, outcome))
  {
  }

  /** A step moves one saga on and keeps its job; a finished one stays. */
  lemma AdvanceShape(s: State, i: nat, outcome: Outcome)
    requires i < |s.sagas|
    ensures var t := Step(s, Advance(i, outcome));
      MovesOn(s, i, t) && (s.sagas[i].Finished? ==> t == s)
  {
    if s.sagas[i].job in s.jobs {
      ConfirmShape(s, i, outcome);
      MoveShape(s, i, outcome);
      CancelShape(s, i, outcome);
    }
  }

  lemma AdvanceKeepsAlone(s: State, i: nat, outcome: Outcome, t: State)
    requires AllAlone(s) && i < |s.sagas| && t == Step(s, Advance(i, outcome))
    ensures AllAlone(t)
  {
    AdvanceShape(s, i, outcome);
    AloneWhenMoved(s, i, t);
  }

  lemma AloneWhenMoved(s: State, i: nat, t: State)
    requires AllAlone(s) && i < |s.sagas| && MovesOn(s, i, t)
    requires s.sagas[i].Finished? ==> t.sagas[i].Finished?
    ensures AllAlone(t)
  {
    forall k | 0 <= k < |t.sagas| && Live(t.sagas[k])
      ensures Alone(t, k)
    {
      assert Live(s.sagas[k]) && Alone(s, k);
      assert Live(t.sagas[i]) ==> Alone(s, i);
    }
  }

  lemma AdvanceKeepsMidway(s: State, i: nat, outcome: Outcome, k: nat, t: State)
    requires Coherent(s) && i < |s.sagas| && k < |s.sagas| && t == Step(s, Advance(i, outcome))
    requires |t.sagas| == |s.sagas| && Live(t.sagas[k]) && t.sagas[k].job !in t.blurred
    ensures t.sagas[k].job in t.jobs && Midway(t, t.sagas[k])
  {
    AdvanceShape(s, i, outcome);
    if k == i {
      OwnStep(s, i, outcome);
    } else if Live(s.sagas[i]) {
      assert Alone(s, i);
      OthersUntouched(s, i, outcome, s.sagas[k].job);
      MidwayCarries(s, t, k);
    }
  }

  lemma OthersStayBusy(s: State, t: State, j: JobId)
    requires |s.sagas| <= |t.sagas|
    requires forall k | 0 <= k < |s.sagas| && s.sagas[k].job == j :: t.sagas[k] == s.sagas[k]
    ensures Busy(s, j) ==> Busy(t, j)
  {
    if Busy(s, j) {
      var k :| 0 <= k < |s.sagas| && s.sagas[k].job == j && Live(s.sagas[k]);
      assert t.sagas[k] == s.sagas[k];
    }
  }

  lemma AdvanceKeepsSettled(s: State, i: nat, outcome: Outcome, j: JobId, t: State)
    requires Coherent(s) && i < |s.sagas| && j in s.jobs && t == Step(s, Advance(i, outcome))
    requires |t.sagas| == |s.sagas| && j !in t.blurred && !Busy(t, j)
    ensures j in t.jobs && Settled(t, j)
  {
    AdvanceShape(s, i, outcome);
    if Live(s.sagas[i]) {
      if j == s.sagas[i].job {
        assert !Live(t.sagas[i]);
        OwnStep(s, i, outcome);
      } else {
        OthersUntouched(s, i, outcome, j);
        OthersStayBusy(s, t, j);
        SettledCarries(s, t, j);
      }
    }
  }

  lemma AdvanceKeepsAllMidway(s: State, i: nat, outcome: Outcome, t: State)
    requires Coherent(s) && i < |s.sagas| && t == Step(s, Advance(i, outcome)) && |t.sagas| == |s.sagas|
    ensures forall k | 0 <= k < |t.sagas| && Live(t.sagas[k]) && t.sagas[k].job !in t.blurred ::
      t.sagas[k].job in t.jobs && Midway(t, t.sagas[k])
  {
    forall k | 0 <= k < |t.sagas| && Live(t.sagas[k]) && t.sagas[k].job !in t.blurred
      ensures t.sagas[k].job in t.jobs && Midway(t, t.sagas[k])
    {
      AdvanceKeepsMidway(s, i, outcome, k, t);
    }
  }

  lemma JobsStay(s: State, a: Action)
    ensures Step(s, a).jobs.Keys == s.jobs.Keys
  {
  }

  lemma AdvanceKeepsAllSettled(s: State, i: nat, outcome: Outcome, t: State)
    requires Coherent(s) && i < |s.sagas| && t == Step(s, Advance(i, outcome)) && |t.sagas| == |s.sagas|
    ensures forall j <- t.jobs :: j !in t.blurred && !Busy(t, j) ==> Settled(t, j)
  {
    JobsStay(s, Advance(i, outcome));
    forall j <- t.jobs | j !in t.blurred && !Busy(t, j)
      ensures Settled(t, j)
    {
      AdvanceKeepsSettled(s, i, outcome, j, t);
    }
  }

  lemma AdvanceKeepsCoherent(s: State, i: nat, outcome: Outcome, t: State)
    requires Coherent(s) && i < |s.sagas| && t == Step(s, Advance(i, outcome)) && Owned(t)
    ensures Coherent(t)
  {
    AdvanceShape(s, i, outcome);
    AdvanceKeepsAlone(s, i, outcome, t);
    AdvanceKeepsAllMidway(s, i, outcome, t);
    AdvanceKeepsAllSettled(s, i, outcome, t);
  }

  lemma BeginKeepsCoherent(s: State, saga: Saga)
    requires Coherent(s) && Owned(s.(sagas := s.sagas + [saga]))
    requires saga.job in s.jobs && !Busy(s, saga.job)
    requires saga.ConfirmReserve? || saga.MoveReserve? || saga.CancelReserve?
    ensures Coherent(s.(sagas := s.sagas + [saga]))
  {
    var t, n := s.(sagas := s.sagas + [saga]), |s.sagas|;
    forall k | 0 <= k < |t.sagas| && Live(t.sagas[k])
      ensures Alone(t, k)
      ensures t.sagas[k].job !in t.blurred ==> Midway(t, t.sagas[k])
    {
      if k < n {
        assert t.sagas[k] == s.sagas[k] && Alone(s, k);
        if s.sagas[k].job !in s.blurred {
          MidwayCarries(s, t, k);
        }
      } else if saga.job !in s.blurred {
        SettledCarries(s, t, saga.job);
      }
    }
    forall j <- t.jobs | j !in t.blurred && !Busy(t, j)
      ensures Settled(t, j)
    {
      OthersStayBusy(s, t, j);
      SettledCarries(s, t, j);
    }
  }

  lemma StatusKeepsCoherent(s: State, j: JobId, status: JobStatus)
    requires Coherent(s) && j in s.jobs
    ensures Coherent(Step(s, OtherServiceSets(j, status)))
  {
    var t := Step(s, OtherServiceSets(j, status));
    StepKeepsOwned(s, OtherServiceSets(j, status));
    forall k | 0 <= k < |t.sagas| && Live(t.sagas[k])
      ensures Alone(t, k)
      ensures t.sagas[k].job !in t.blurred ==> Midway(t, t.sagas[k])
    {
      assert Alone(s, k);
      if s.sagas[k].job !in s.blurred {
        MidwayCarries(s, t, k);
      }
    }
    forall m <- t.jobs | m !in t.blurred && !Busy(t, m)
      ensures Settled(t, m)
    {
      assert Busy(s, m) ==> Busy(t, m);
      SettledCarries(s, t, m);
    }
  }

  lemma StepKeepsCoherent(s: State, a: Action)
    requires Coherent(s) && (Begins(a) ==> !Busy(s, a.job))
    ensures Coherent(Step(s, a))
  {
    var t := Step(s, a);
    StepKeepsOwned(s, a);
    match a {
      case Advance(i, outcome) =>
        if i < |s.sagas| {
          AdvanceKeepsCoherent(s, i, outcome, t);
        }
      case OtherServiceSets(j, status) =>
        if j in s.jobs {
          StatusKeepsCoherent(s, j, status);
        }
      case _ =>
        if t != s {
          BeginKeepsCoherent(s, t.sagas[|s.sagas|]);
        }
    }
  }

  lemma {:induction false} RunKeepsCoherent(s: State, actions: seq<Action>)
    requires Coherent(s) && OneSagaPerJob(s, actions)
    ensures Coherent(Run(s, actions))
    decreases |actions|
  {
    if actions != [] {
      StepKeepsCoherent(s, actions[0]);
      RunKeepsCoherent(Step(s, actions[0]), actions[1..]);
    }
  }

  /** The steps after which row and calendar may disagree: a calendar call that takes
      effect and reports a failure while its event exists, and a compensating row write
      that fails or finds the old window taken by another job of the tenant. */
  predicate Breaks(s: State, a: Action, j: JobId) {
    a.Advance? && a.i < |s.sagas| && s.sagas[a.i].job == j && j in s.jobs &&
    match s.sagas[a.i]
    case ConfirmUndo(_) => !a.outcome.Works?
    case MovePatch(_, e, _, _, _) => a.outcome.FailsAfterEffect? && e in s.events
    case MoveRollback(_, e, _, _, _) => a.outcome.FailsAfterEffect? && e in s.events
    case MoveUndo(_, e, source, _, w) =>
      && s.jobs[j].event == Some(e) && s.jobs[j].window == Some(w)
      && (!a.outcome.Works? || Taken(s.jobs, j, source))
    case CancelDelete(_, _, _, _) => a.outcome.FailsAfterEffect?
    case _ => false
  }

  ghost predicate BrokenIn(s: State, actions: seq<Action>, j: JobId)
    decreases |actions|
  {
    actions != [] && (Breaks(s, actions[0], j) || BrokenIn(Step(s, actions[0]), actions[1..], j))
  }

  lemma BlursWhenItBreaks(s: State, a: Action, j: JobId)
    ensures j in Step(s, a).blurred <==> j in s.blurred || Breaks(s, a, j)
  {
  }

  lemma {:induction false} BlurredIff(s: State, actions: seq<Action>, j: JobId)
    ensures j in Run(s, actions).blurred <==> j in s.blurred || BrokenIn(s, actions, j)
    decreases |actions|
  {
    if actions != [] {
      BlursWhenItBreaks(s, actions[0], j);
      BlurredIff(Step(s, actions[0]), actions[1..], j);
    }
  }

  /** Whatever fails and however the sagas of different jobs interleave, a job with no
      saga under way shows neither window nor event, or an event whose window is its
      own, if no step of the run breaks it. */
  lemma FinishedSagasSettle(s: State, actions: seq<Action>)
    requires Initial(s) && OneSagaPerJob(s, actions)
    ensures var t := Run(s, actions);
      forall j <- t.jobs :: !Busy(t, j) && !BrokenIn(s, actions, j) ==> Settled(t, j)
  {
    RunKeepsCoherent(s, actions);
    forall j <- Run(s, actions).jobs
      ensures j in Run(s, actions).blurred <==> BrokenIn(s, actions, j)
    {
      BlurredIff(s, actions, j);
    }
  }
}
