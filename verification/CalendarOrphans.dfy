/** src/scheduling/scheduling.service.ts: the calendar events that no row and no
    running call knows of, and where each of them comes from. */
module CalendarOrphans {
  import opened Common
  import opened CalendarSagas

  ghost predicate InRow(s: State, e: EventId) {
    exists j <- s.jobs :: s.jobs[j].event == Some(e)
  }

  ghost predicate InHand(s: State, e: EventId) {
    exists i | 0 <= i < |s.sagas| :: Held(s.sagas[i]) == Some(e)
  }

  ghost predicate Orphan(s: State, e: EventId) {
    e in s.events && !InRow(s, e) && !InHand(s, e)
  }

  ghost function Orphans(s: State): set<EventId> {
    set e <- s.events | Orphan(s, e)
  }

  /** The restoring write of a failed cancellation goes through. */
  predicate Restores(s: State, saga: Saga, outcome: Outcome)
    requires saga.CancelUndo? && saga.job in s.jobs
  {
    var row := s.jobs[saga.job];
    outcome.Works? && row.status.Cancelled? && row.event.None? && !Taken(s.jobs, saga.job, saga.source)
  }

  /** The event a step leaves behind: the event of an insertion that took effect and
      reported a failure, of a store that failed, or of a cancellation whose deletion
      failed and whose undo was refused or failed; or the event that a store overwrites. */
  ghost function Leaves(s: State, a: Action): set<EventId> {
    if !a.Advance? || a.i >= |s.sagas| || s.sagas[a.i].job !in s.jobs then {}
    else
      match s.sagas[a.i]
      case ConfirmInsert(_, _) => if a.outcome.FailsAfterEffect? then {s.next} else {}
      case ConfirmStore(j, _, e) =>
        if !a.outcome.Works? then Existing(s, Some(e)) else Existing(s, s.jobs[j].event)
      case CancelUndo(_, e, _, _) => if Restores(s, s.sagas[a.i], a.outcome) then {} else Existing(s, Some(e))
      case _ => {}
  }

  function Existing(s: State, event: Option<EventId>): set<EventId> {
    if event.Some? && event.value in s.events then {event.value} else {}
  }

  // ----- one step -----

  /** The event is named by another job's row or held by another call than saga i. */
  ghost predicate Elsewhere(s: State, i: nat, e: EventId)
    requires i < |s.sagas|
  {
    (exists k <- s.jobs :: k != s.sagas[i].job && s.jobs[k].event == Some(e))
    || (exists m | 0 <= m < |s.sagas| && m != i :: Held(s.sagas[m]) == Some(e))
  }

  /** A state that differs from s in saga i and its row only, the calendar aside. */
  predicate Near(s: State, i: nat, t: State)
    requires i < |s.sagas| && s.sagas[i].job in s.jobs
  {
    var j := s.sagas[i].job;
    && |t.sagas| == |s.sagas| && t.sagas == s.sagas[i := t.sagas[i]]
    && t.jobs.Keys == s.jobs.Keys && t.jobs == s.jobs[j := t.jobs[j]]
  }

  lemma Named(s: State, i: nat, t: State, e: EventId)
    requires i < |s.sagas| && s.sagas[i].job in s.jobs && Near(s, i, t)
    ensures InRow(t, e) || InHand(t, e) <==>
      t.jobs[s.sagas[i].job].event == Some(e) || Held(t.sagas[i]) == Some(e) || Elsewhere(s, i, e)
  {
    var j := s.sagas[i].job;
    assert forall k <- t.jobs | k != j :: t.jobs[k] == s.jobs[k];
    assert forall m | 0 <= m < |s.sagas| && m != i :: t.sagas[m] == s.sagas[m];
    if Elsewhere(s, i, e) {
      if k :| k in s.jobs && k != j && s.jobs[k].event == Some(e) {
        assert t.jobs[k].event == Some(e);
      } else {
        var m :| 0 <= m < |s.sagas| && m != i && Held(s.sagas[m]) == Some(e);
        assert Held(t.sagas[m]) == Some(e);
      }
    }
  }

  /** An event in the saga's row or hand is nowhere else, and a fresh one is nowhere. */
  lemma OnlyHere(s: State, i: nat, e: EventId)
    requires Owned(s) && i < |s.sagas|
    ensures var row := s.jobs[s.sagas[i].job];
      && (Held(s.sagas[i]) == Some(e) ==> !Elsewhere(s, i, e) && row.event != Some(e))
      && (row.event == Some(e) ==> !Elsewhere(s, i, e))
      && (e == s.next ==> !Elsewhere(s, i, e) && row.event != Some(e) && Held(s.sagas[i]) != Some(e))
  {
    assert forall m | 0 <= m < |s.sagas| && Held(s.sagas[m]).Some? :: HeldApart(s, m);
  }

  lemma ConfirmLeaves(s: State, i: nat, outcome: Outcome, e: EventId)
    requires Owned(s) && i < |s.sagas| && IsConfirm(s.sagas[i])
    ensures Orphan(ConfirmStep(s, i, outcome), e) <==> Orphan(s, e) || e in Leaves(s, Advance(i, outcome))
  {
    var t := ConfirmStep(s, i, outcome);
    Named(s, i, s, e);
    Named(s, i, t, e);
    OnlyHere(s, i, e);
  }

  lemma MoveNames(s: State, i: nat, outcome: Outcome)
    requires i < |s.sagas| && s.sagas[i].job in s.jobs && IsMove(s.sagas[i])
    ensures var t := MoveStep(s, i, outcome);
      && Near(s, i, t) && t.events.Keys == s.events.Keys
      && t.jobs[s.sagas[i].job].event == s.jobs[s.sagas[i].job].event && Held(t.sagas[i]).None?
  {
  }

  lemma MoveLeaves(s: State, i: nat, outcome: Outcome, e: EventId)
    requires Owned(s) && i < |s.sagas| && IsMove(s.sagas[i])
    ensures Orphan(MoveStep(s, i, outcome), e) <==> Orphan(s, e)
  {
    var t := MoveStep(s, i, outcome);
    MoveNames(s, i, outcome);
    Named(s, i, s, e);
    Named(s, i, t, e);
    assert e in t.events.Keys <==> e in s.events.Keys;
  }

  lemma CancelNear(s: State, i: nat, outcome: Outcome)
    requires i < |s.sagas| && s.sagas[i].job in s.jobs
    ensures Near(s, i, CancelStep(s, i, outcome))
  {
  }

  lemma CancelLeaves(s: State, i: nat, outcome: Outcome, e: EventId)
    requires Owned(s) && i < |s.sagas|
    ensures Orphan(CancelStep(s, i, outcome), e) <==>
      Orphan(s, e) || (IsCancel(s.sagas[i]) && e in Leaves(s, Advance(i, outcome)))
  {
    var t := CancelStep(s, i, outcome);
    CancelNear(s, i, outcome);
    Named(s, i, s, e);
    Named(s, i, t, e);
    if s.sagas[i].CancelUndo? {
      UndoLeaves(s, i, outcome, e);
    } else {
      OnlyHere(s, i, e);
    }
  }

  lemma UndoLeaves(s: State, i: nat, outcome: Outcome, e: EventId)
    requires Owned(s) && i < |s.sagas| && s.sagas[i].CancelUndo?
    ensures Orphan(CancelStep(s, i, outcome), e) <==> Orphan(s, e) || e in Leaves(s, Advance(i, outcome))
  {
    var t := CancelStep(s, i, outcome);
    CancelNear(s, i, outcome);
    Named(s, i, s, e);
    Named(s, i, t, e);
    OnlyHere(s, i, e);
  }

  lemma BeginLeaves(s: State, saga: Saga, e: EventId)
    requires Held(saga).None?
    ensures Orphan(s.(sagas := s.sagas + [saga]), e) <==> Orphan(s, e)
  {
    var t := s.(sagas := s.sagas + [saga]);
    assert forall i | 0 <= i < |s.sagas| :: t.sagas[i] == s.sagas[i];
    if InHand(s, e) {
      var i :| 0 <= i < |s.sagas| && Held(s.sagas[i]) == Some(e);
      assert Held(t.sagas[i]) == Some(e);
    }
  }

  lemma StatusLeaves(s: State, j: JobId, status: JobStatus, e: EventId)
    requires j in s.jobs
    ensures Orphan(s.(jobs := s.jobs[j := s.jobs[j].(status := status)]), e) <==> Orphan(s, e)
  {
    var t := s.(jobs := s.jobs[j := s.jobs[j].(status := status)]);
    assert forall k <- s.jobs :: k in t.jobs && t.jobs[k].event == s.jobs[k].event;
    if InRow(s, e) {
      var k :| k in s.jobs && s.jobs[k].event == Some(e);
      assert t.jobs[k].event == Some(e);
    }
  }

  lemma StepLeaves(s: State, a: Action, e: EventId)
    requires Owned(s)
    ensures Orphan(Step(s, a), e) <==> Orphan(s, e) || e in Leaves(s, a)
  {
    var t := Step(s, a);
    match a {
      case Advance(i, outcome) =>
        if i < |s.sagas| {
          if IsConfirm(s.sagas[i]) {
            ConfirmLeaves(s, i, outcome, e);
          } else if IsMove(s.sagas[i]) {
            MoveLeaves(s, i, outcome, e);
          } else {
            CancelLeaves(s, i, outcome, e);
          }
        }
      case OtherServiceSets(j, status) =>
        if j in s.jobs {
          StatusLeaves(s, j, status, e);
        }
      case _ =>
        if t != s {
          BeginLeaves(s, t.sagas[|s.sagas|], e);
        }
    }
  }

  lemma LeavesAreNew(s: State, a: Action)
    requires Owned(s)
    ensures Leaves(s, a) !! Orphans(s) && |Leaves(s, a)| <= 1
  {
    if a.Advance? && a.i < |s.sagas| {
      assert Held(s.sagas[a.i]).Some? ==> InHand(s, Held(s.sagas[a.i]).value);
      var row := s.jobs[s.sagas[a.i].job];
      assert row.event.Some? ==> InRow(s, row.event.value);
    }
  }

  lemma StepCounts(s: State, a: Action)
    requires Owned(s)
    ensures var t := Step(s, a);
      Orphans(s) <= Orphans(t) && |Orphans(t)| == |Orphans(s)| + |Leaves(s, a)|
  {
    var t := Step(s, a);
    forall e
      ensures e in Orphans(t) <==> e in Orphans(s) || e in Leaves(s, a)
    {
      StepLeaves(s, a, e);
      StepLeavesInCalendar(s, a, e);
    }
    assert Orphans(t) == Orphans(s) + Leaves(s, a);
    LeavesAreNew(s, a);
  }

  lemma StepLeavesInCalendar(s: State, a: Action, e: EventId)
    ensures e in Orphans(s) <==> Orphan(s, e)
    ensures e in Orphans(Step(s, a)) <==> Orphan(Step(s, a), e)
  {
  }

  // ----- every run -----

  /** How many steps of a run leave an event behind. */
  ghost function Departures(s: State, actions: seq<Action>): nat
    decreases |actions|
  {
    if actions == [] then 0 else |Leaves(s, actions[0])| + Departures(Step(s, actions[0]), actions[1..])
  }

  /** In every interleaving, with failures anywhere, the events that no row and no call
      knows of are those there were and one for each step that leaves one behind; none
      is ever found again. */
  lemma {:induction false} OrphansAreCounted(s: State, actions: seq<Action>)
    requires Owned(s)
    ensures var t := Run(s, actions);
      Orphans(s) <= Orphans(t) && |Orphans(t)| == |Orphans(s)| + Departures(s, actions)
    decreases |actions|
  {
    if actions != [] {
      var a, t := actions[0], Step(s, actions[0]);
      StepCounts(s, a);
      StepKeepsOwned(s, a);
      OrphansAreCounted(t, actions[1..]);
    }
  }

  // ----- lost events -----

  /** A deletion that takes effect and reports a failure. */
  predicate LosesEvent(s: State, a: Action) {
    a.Advance? && a.i < |s.sagas| && s.sagas[a.i].job in s.jobs && s.sagas[a.i].CancelDelete?
        && a.outcome.FailsAfterEffect?
  }

  ghost predicate DeletionsAreHonest(s: State, actions: seq<Action>)
    decreases |actions|
  {
    actions == [] || (!LosesEvent(s, actions[0]) && DeletionsAreHonest(Step(s, actions[0]), actions[1..]))
  }

  lemma LostIff(s: State, a: Action)
    ensures Step(s, a).lost == if LosesEvent(s, a) then s.lost + {s.sagas[a.i].event} else s.lost
  {
  }

  lemma {:induction false} NothingIsLost(s: State, actions: seq<Action>)
    requires DeletionsAreHonest(s, actions)
    ensures Run(s, actions).lost == s.lost
    decreases |actions|
  {
    if actions != [] {
      LostIff(s, actions[0]);
      NothingIsLost(Step(s, actions[0]), actions[1..]);
    }
  }

  /** When no deletion misreports, every event a row names exists and is that job's. */
  lemma RowEventsExist(s: State, actions: seq<Action>)
    requires Initial(s) && DeletionsAreHonest(s, actions)
    ensures var t := Run(s, actions);
      forall j <- t.jobs :: t.jobs[j].event.Some? ==>
        t.jobs[j].event.value in t.events && t.events[t.jobs[j].event.value].job == j
  {
    EventsBelongToOneJob(s, actions);
    NothingIsLost(s, actions);
  }
}
