/** src/scheduling/scheduling.service.ts: one booking call among the calls of all
    other jobs. The call sees the rest of the system only through how its own turns
    go, so where it ends, and when its row and its calendar event disagree, is given
    exactly by them. */
module SagaTurns {
  import opened Common
  import opened CalendarSagas
  import opened SagaOutcomes

  // ----- a job seen alone -----

  /** One step of a call: its outcome, the status the row has by then, whether another
      job of the tenant holds the window it writes, and Google's next fresh id. */
  datatype Turn = Turn(outcome: Outcome, status: JobStatus, taken: bool, nextId: EventId)

  /** What a call and its job look like: the call's next step, the booking columns,
      and the windows of the calendar events created for the job. */
  datatype View = View(
    saga: Saga,
    window: Option<Window>,
    event: Option<EventId>,
    text: Option<Text>,
    calendar: map<EventId, Window>)

  /** One turn of a call on its own job. */
  function Solo(v: View, k: Turn): View {
    var done := v.(saga := Finished(v.saga.job));
    match v.saga
    case ConfirmReserve(j, w) =>
      if k.outcome.Works? && v.window.None? && !k.taken
      then v.(saga := ConfirmInsert(j, w), window := Some(w), text := Some(Formatted(w)))
      else done
    case ConfirmInsert(j, w) =>
      (match k.outcome
       case Works => v.(saga := ConfirmStore(j, w, k.nextId), calendar := v.calendar[k.nextId := w])
       case Fails => v.(saga := ConfirmUndo(j))
       case FailsAfterEffect => v.(saga := ConfirmUndo(j), calendar := v.calendar[k.nextId := w]))
    case ConfirmStore(j, _, e) =>
      if k.outcome.Works? then done.(event := Some(e)) else v.(saga := ConfirmUndo(j))
    case ConfirmUndo(_) =>
      if k.outcome.Works? && v.event.None? then done.(window := None, text := None) else done
    case MoveReserve(j, e, source, text, w) =>
      if k.outcome.Works? && k.status.Accepted? && v.event == Some(e) && v.window == Some(source) && !k.taken
      then v.(saga := MovePatch(j, e, source, text, w), window := Some(w), text := Some(Formatted(w)))
      else done
    case MovePatch(j, e, source, text, w) =>
      var undo := MoveUndo(j, e, source, text, w);
      if k.outcome.Fails? || e !in v.calendar then v.(saga := undo)
      else v.(saga := if k.outcome.Works? then MoveAudit(j, e, source, text, w) else undo,
              calendar := v.calendar[e := w])
    case MoveAudit(j, e, source, text, w) =>
      if k.outcome.Works? then done else v.(saga := MoveRollback(j, e, source, text, w))
    case MoveRollback(j, e, source, text, w) =>
      if k.outcome.Fails? || e !in v.calendar then done
      else v.(saga := if k.outcome.Works? then MoveUndo(j, e, source, text, w) else done.saga,
              calendar := v.calendar[e := source])
    case MoveUndo(_, e, source, text, w) =>
      if k.outcome.Works? && v.event == Some(e) && v.window == Some(w) && !k.taken
      then done.(window := Some(source), text := text)
      else done
    case CancelReserve(j, e, source, text) =>
      if k.outcome.Works? && k.status.Accepted? && v.event == Some(e) && v.window == Some(source)
      then v.(saga := CancelDelete(j, e, source, text), window := None, event := None, text := text)
      else done
    case CancelDelete(j, e, source, text) =>
      (match k.outcome
       case Works => done.(calendar := v.calendar - {e})
       case Fails => v.(saga := CancelUndo(j, e, source, text))
       case FailsAfterEffect => v.(saga := CancelUndo(j, e, source, text), calendar := v.calendar - {e}))
    case CancelUndo(_, e, source, text) =>
      if k.outcome.Works? && k.status.Cancelled? && v.event.None? && !k.taken
      then done.(window := Some(source), event := Some(e), text := text)
      else done
    case Finished(_) => v
  }

  function SoloRun(v: View, turns: seq<Turn>): View
    decreases |turns|
  {
    if turns == [] then v else SoloRun(Solo(v, turns[0]), turns[1..])
  }

  // ----- the view and the turns of an interleaved run -----

  function CalendarOf(s: State, j: JobId): map<EventId, Window> {
    map e <- s.events | s.events[e].job == j :: s.events[e].window
  }

  function ViewOf(s: State, i: nat): View
    requires i < |s.sagas| && s.sagas[i].job in s.jobs
  {
    var row := s.jobs[s.sagas[i].job];
    View(s.sagas[i], row.window, row.event, row.text, CalendarOf(s, s.sagas[i].job))
  }

  /** The window a saga's next row write puts into the row. */
  function Wanted(saga: Saga): Option<Window> {
    match saga
    case ConfirmReserve(_, w) => Some(w)
    case MoveReserve(_, _, _, _, w) => Some(w)
    case MoveUndo(_, _, source, _, _) => Some(source)
    case CancelUndo(_, _, source, _) => Some(source)
    case _ => None
  }

  ghost function TurnOf(s: State, i: nat, outcome: Outcome): Turn
    requires i < |s.sagas| && s.sagas[i].job in s.jobs
  {
    var j, wanted := s.sagas[i].job, Wanted(s.sagas[i]);
    Turn(outcome, s.jobs[j].status, wanted.Some? && Taken(s.jobs, j, wanted.value), s.next)
  }

  predicate Takes(s: State, i: nat, a: Action) {
    a.Advance? && a.i == i && i < |s.sagas| && Live(s.sagas[i]) && s.sagas[i].job in s.jobs
  }

  /** The turns saga i takes in a run. */
  ghost function Turns(s: State, i: nat, actions: seq<Action>): seq<Turn>
    decreases |actions|
  {
    if actions == [] then []
    else
      (if Takes(s, i, actions[0]) then [TurnOf(s, i, actions[0].outcome)] else [])
      + Turns(Step(s, actions[0]), i, actions[1..])
  }

  /** No other call is under way on the job of saga i. */
  ghost predicate Own(s: State, i: nat) {
    i < |s.sagas| && s.sagas[i].job in s.jobs && Alone(s, i)
  }

  predicate LeavesAlone(a: Action, j: JobId) {
    Begins(a) ==> a.job != j
  }

  lemma SameCalendar(s: State, t: State, j: JobId)
    requires SameView(s, t, j)
    ensures CalendarOf(t, j) == CalendarOf(s, j)
  {
  }

  lemma OthersAdvance(s: State, i: nat, k: nat, outcome: Outcome)
    requires Owned(s) && Own(s, i) && k < |s.sagas| && Live(s.sagas[k]) && k != i
    ensures var t := Step(s, Advance(k, outcome));
      Own(t, i) && ViewOf(t, i) == ViewOf(s, i)
  {
    var t := Step(s, Advance(k, outcome));
    AdvanceShape(s, k, outcome);
    OthersUntouched(s, k, outcome, s.sagas[i].job);
    SameCalendar(s, t, s.sagas[i].job);
  }

  /** A step that is not saga i's own, and begins nothing on its job, changes neither
      its view nor that it is the only one. */
  lemma OthersKeepView(s: State, i: nat, a: Action)
    requires Owned(s) && Own(s, i) && !Takes(s, i, a) && LeavesAlone(a, s.sagas[i].job)
    ensures Own(Step(s, a), i) && ViewOf(Step(s, a), i) == ViewOf(s, i)
  {
    match a {
      case Advance(k, outcome) =>
        if k < |s.sagas| && Live(s.sagas[k]) {
          OthersAdvance(s, i, k, outcome);
        } else if k < |s.sagas| {
          AdvanceShape(s, k, outcome);
        }
      case _ =>
        SameCalendar(s, Step(s, a), s.sagas[i].job);
    }
  }

  lemma ConfirmTurn(s: State, i: nat, outcome: Outcome)
    requires Owned(s) && i < |s.sagas| && s.sagas[i].job in s.jobs && IsConfirm(s.sagas[i])
    ensures var t := ConfirmStep(s, i, outcome);
      MovesOn(s, i, t) && t.sagas[i].job in t.jobs && ViewOf(t, i) == Solo(ViewOf(s, i), TurnOf(s, i, outcome))
  {
    var j := s.sagas[i].job;
    assert s.next !in s.events;
    if s.sagas[i].ConfirmInsert? {
      var w := s.sagas[i].window;
      assert CalendarOf(CreateEvent(s, j, w), j) == CalendarOf(s, j)[s.next := w];
    }
  }

  lemma MoveTurn(s: State, i: nat, outcome: Outcome)
    requires Owned(s) && i < |s.sagas| && s.sagas[i].job in s.jobs && IsMove(s.sagas[i])
    ensures var t := MoveStep(s, i, outcome);
      MovesOn(s, i, t) && t.sagas[i].job in t.jobs && ViewOf(t, i) == Solo(ViewOf(s, i), TurnOf(s, i, outcome))
  {
    var j, e := s.sagas[i].job, s.sagas[i].event;
    assert Remembers(s.sagas[i], e);
    if e in s.events {
      PatchShows(s, j, e, s.sagas[i].target);
      PatchShows(s, j, e, s.sagas[i].source);
    }
  }

  lemma PatchShows(s: State, j: JobId, e: EventId, w: Window)
    requires e in s.events && s.events[e].job == j
    ensures CalendarOf(s.(events := s.events[e := s.events[e].(window := w)]), j) == CalendarOf(s, j)[e := w]
  {
  }

  lemma CancelTurn(s: State, i: nat, outcome: Outcome)
    requires Owned(s) && i < |s.sagas| && s.sagas[i].job in s.jobs && IsCancel(s.sagas[i])
    ensures var t := CancelStep(s, i, outcome);
      MovesOn(s, i, t) && t.sagas[i].job in t.jobs && ViewOf(t, i) == Solo(ViewOf(s, i), TurnOf(s, i, outcome))
  {
    var j, e := s.sagas[i].job, s.sagas[i].event;
    assert CalendarOf(s.(events := s.events - {e}), j) == CalendarOf(s, j) - {e};
  }

  /** Saga i's own step is the solo turn. */
  lemma OwnTurn(s: State, i: nat, outcome: Outcome)
    requires Owned(s) && Own(s, i) && Live(s.sagas[i])
    ensures var t := Step(s, Advance(i, outcome));
      Own(t, i) && ViewOf(t, i) == Solo(ViewOf(s, i), TurnOf(s, i, outcome))
  {
    if IsConfirm(s.sagas[i]) {
      ConfirmTurn(s, i, outcome);
    } else if IsMove(s.sagas[i]) {
      MoveTurn(s, i, outcome);
    } else {
      CancelTurn(s, i, outcome);
    }
  }

  /** In every interleaving in which saga i is the only one on its job, what it does to
      the job is the solo run of its turns, whatever the sagas of other jobs, the other
      services and the failures are. */
  lemma {:induction false} CallSeesItsTurns(s: State, i: nat, actions: seq<Action>)
    requires Owned(s) && Own(s, i)
    requires forall a <- actions :: LeavesAlone(a, s.sagas[i].job)
    ensures var t := Run(s, actions);
      Own(t, i) && t.sagas[i].job == s.sagas[i].job && ViewOf(t, i) == SoloRun(ViewOf(s, i), Turns(s, i, actions))
    decreases |actions|
  {
    if actions != [] {
      var a, t := actions[0], Step(s, actions[0]);
      StepKeepsOwned(s, a);
      if Takes(s, i, a) {
        OwnTurn(s, i, a.outcome);
        SoloKeepsJob(ViewOf(s, i), TurnOf(s, i, a.outcome));
        var k, rest := TurnOf(s, i, a.outcome), Turns(t, i, actions[1..]);
        assert ([k] + rest)[0] == k && ([k] + rest)[1..] == rest;
      } else {
        OthersKeepView(s, i, a);
        assert [] + Turns(t, i, actions[1..]) == Turns(t, i, actions[1..]);
      }
      CallSeesItsTurns(t, i, actions[1..]);
    }
  }

  lemma SoloKeepsJob(v: View, k: Turn)
    ensures Solo(v, k).saga.job == v.saga.job
  {
  }

  // ----- where a reschedule ends -----

  predicate Reserved(turns: seq<Turn>) {
    turns != [] && turns[0].outcome.Works? && turns[0].status.Accepted? && !turns[0].taken
  }

  /** The n-th turn, a compensating row write, went through. */
  predicate Undone(turns: seq<Turn>, n: nat) {
    n < |turns| && turns[n].outcome.Works? && !turns[n].taken
  }

  predicate Went(turns: seq<Turn>, n: nat, outcome: Outcome) {
    n < |turns| && turns[n].outcome == outcome
  }

  /** The row ends in the new window: reserve, patch, audit, rollback and undo being
      turns 0 to 4, or reserve, patch and undo turns 0 to 2. */
  predicate RowMoved(turns: seq<Turn>) {
    Reserved(turns) &&
    if Went(turns, 1, Works) then Went(turns, 2, Works) || !Went(turns, 3, Works) || !Undone(turns, 4)
    else !Undone(turns, 2)
  }

  /** The calendar event ends in the new window. */
  predicate CalendarMoved(turns: seq<Turn>) {
    Reserved(turns) &&
    (Went(turns, 1, FailsAfterEffect)
     || (Went(turns, 1, Works) && (Went(turns, 2, Works) || Went(turns, 3, Fails))))
  }

  /** A reschedule about to reserve: its job shows the old window everywhere. */
  predicate Moves(v: View) {
    && v.saga.MoveReserve? && v.window == Some(v.saga.source) && v.event == Some(v.saga.event)
        && v.text == v.saga.sourceText
    && v.saga.event in v.calendar && v.calendar[v.saga.event] == v.saga.source && v.saga.source != v.saga.target
  }

  lemma {:induction false} FinishedRests(v: View, turns: seq<Turn>)
    requires v.saga.Finished?
    ensures SoloRun(v, turns) == v
    decreases |turns|
  {
    if turns != [] {
      FinishedRests(v, turns[1..]);
    }
  }

  lemma UndoRun(v: View, turns: seq<Turn>)
    requires v.saga.MoveUndo? && v.window == Some(v.saga.target) && v.event == Some(v.saga.event)
    requires SoloRun(v, turns).saga.Finished?
    ensures SoloRun(v, turns) ==
      if Undone(turns, 0) then v.(saga := Finished(v.saga.job), window := Some(v.saga.source),
          text := v.saga.sourceText)
      else v.(saga := Finished(v.saga.job))
  {
    FinishedRests(Solo(v, turns[0]), turns[1..]);
  }

  lemma AuditRun(v: View, turns: seq<Turn>)
    requires v.saga.MoveAudit? && v.window == Some(v.saga.target) && v.event == Some(v.saga.event)
    requires v.saga.event in v.calendar && SoloRun(v, turns).saga.Finished?
    ensures var r, m := SoloRun(v, turns), v.saga;
      var back := !Went(turns, 0, Works) && Went(turns, 1, Works) && Undone(turns, 2);
      && r.event == v.event
      && r.window == Some(if back then m.source else m.target)
      && r.text == (if back then m.sourceText else v.text)
      && r.calendar == if Went(turns, 0, Works) || Went(turns, 1, Fails) then v.calendar
          else v.calendar[m.event := m.source]
  {
    var audited := Solo(v, turns[0]);
    if turns[0].outcome.Works? {
      FinishedRests(audited, turns[1..]);
    } else {
      var rolled := Solo(audited, turns[1..][0]);
      assert SoloRun(v, turns) == SoloRun(rolled, turns[1..][1..]);
      assert turns[1..][1..] == turns[2..];
      if turns[1].outcome.Works? {
        UndoRun(rolled, turns[2..]);
      } else {
        FinishedRests(rolled, turns[2..]);
      }
    }
  }

  /** Where a reschedule ends is exactly what its turns say. */
  lemma MoveRun(v: View, turns: seq<Turn>)
    requires Moves(v) && SoloRun(v, turns).saga.Finished?
    ensures var r, m := SoloRun(v, turns), v.saga;
      && r.event == v.event
      && r.window == Some(if RowMoved(turns) then m.target else m.source)
      && r.text == (if RowMoved(turns) then Some(Formatted(m.target)) else m.sourceText)
      && r.calendar == v.calendar[m.event := if CalendarMoved(turns) then m.target else m.source]
  {
    var reserved := Solo(v, turns[0]);
    assert v.calendar[v.saga.event := v.saga.source] == v.calendar;
    if !Reserved(turns) {
      FinishedRests(reserved, turns[1..]);
    } else {
      var patched := Solo(reserved, turns[1..][0]);
      assert SoloRun(v, turns) == SoloRun(patched, turns[1..][1..]);
      assert turns[1..][1..] == turns[2..];
      if turns[1].outcome.Works? {
        AuditRun(patched, turns[2..]);
        assert patched.calendar[v.saga.event := v.saga.source] == v.calendar;
      } else {
        UndoRun(patched, turns[2..]);
      }
    }
  }

  /** What tears row and calendar apart. */
  predicate Torn(turns: seq<Turn>) {
    Reserved(turns) && 1 < |turns| &&
    match turns[1].outcome
    case Fails => !Undone(turns, 2)             // the undo failed, or another job has the old window
    case FailsAfterEffect => Undone(turns, 2)   // the row went back and the event did not
    case Works =>
      && !Went(turns, 2, Works)
      && (Went(turns, 3, FailsAfterEffect) || (Went(turns, 3, Works) && !Undone(turns, 4)))
  }

  lemma TornIff(v: View, turns: seq<Turn>)
    requires Moves(v) && SoloRun(v, turns).saga.Finished?
    ensures Torn(turns) <==> RowMoved(turns) != CalendarMoved(turns)
  {
    TakesTurns(v, turns);
  }

  lemma SecondTurn(v: View, turns: seq<Turn>)
    requires v.saga.MovePatch? && v.saga.event in v.calendar && SoloRun(v, turns).saga.Finished?
    ensures 1 < |turns|
    ensures turns[0].outcome.Works? && !turns[1].outcome.Works?
        ==> 2 < |turns| && (turns[2].outcome.Works? ==> 3 < |turns|)
  {
    var patched := Solo(v, turns[0]);
    assert SoloRun(v, turns) == SoloRun(patched, turns[1..]);
    var third := Solo(patched, turns[1..][0]);
    if turns[0].outcome.Works? && !turns[1].outcome.Works? {
      assert SoloRun(patched, turns[1..]) == SoloRun(third, turns[2..]) by {
        assert turns[1..][1..] == turns[2..];
      }
      assert third.saga.MoveRollback?;
      assert turns[2..] != [];
      if turns[2].outcome.Works? {
        var fourth := Solo(third, turns[2..][0]);
        assert fourth.saga.MoveUndo? && SoloRun(third, turns[2..]) == SoloRun(fourth, turns[2..][1..]);
        assert turns[2..][1..] == turns[3..];
      }
    }
  }

  /** A finished reschedule has taken every turn that decides it. */
  lemma TakesTurns(v: View, turns: seq<Turn>)
    requires Moves(v) && SoloRun(v, turns).saga.Finished?
    ensures turns != [] && (Reserved(turns) ==>
      && 2 < |turns|
      && (turns[1].outcome.Works? && !turns[2].outcome.Works? ==> 3 < |turns|)
      && (turns[1].outcome.Works? && !turns[2].outcome.Works? && turns[3].outcome.Works? ==> 4 < |turns|))
  {
    if Reserved(turns) {
      var reserved := Solo(v, turns[0]);
      assert reserved.saga.MovePatch? && SoloRun(v, turns) == SoloRun(reserved, turns[1..]);
      SecondTurn(reserved, turns[1..]);
      assert turns[1..][1..] == turns[2..];
      assert 4 <= |turns| ==> turns[1..][2] == turns[3];
    }
  }

  /** When no calendar call misreports and no compensating write fails, only the unique
      index can tear a reschedule: another job of the tenant holds the old window at
      the moment of the undo. */
  lemma OnlyTheIndexTears(turns: seq<Turn>)
    requires forall k <- turns :: !k.outcome.FailsAfterEffect?
    requires 2 < |turns| && (Went(turns, 1, Fails) ==> turns[2].outcome.Works?)
    requires Went(turns, 1, Works) && Went(turns, 2, Fails) && Went(turns, 3, Works) ==> Went(turns, 4, Works)
    ensures Torn(turns) <==>
      Reserved(turns) &&
      ((Went(turns, 1, Fails) && turns[2].taken)
       || (Went(turns, 1, Works) && Went(turns, 2, Fails) && Went(turns, 3, Works) && turns[4].taken))
  {
    assert turns[1] in turns && turns[2] in turns;
    assert 3 < |turns| ==> turns[3] in turns;
  }

  /** In every interleaving with the calls of other jobs, other services' writes and
      failures anywhere, a finished reschedule has its row at the new or the old window
      and its event at the new or the old window, which of them is exactly as its turns
      say, and the two disagree exactly when its turns are torn. */
  lemma RescheduleEndsExactly(s: State, j: JobId, w: Window, actions: seq<Action>)
    requires Owned(s) && j in s.jobs && !Busy(s, j) && Active(s.jobs[j])
    requires s.jobs[j].window != Some(w) && w.start < w.end
    requires s.jobs[j].event.value in s.events && Settled(s, j)
    requires forall a <- actions :: LeavesAlone(a, j)
    ensures var begun, i := Step(s, BeginMove(j, w)), |s.sagas|;
      var t, turns := Run(begun, actions), Turns(begun, i, actions);
      var e, source := s.jobs[j].event.value, s.jobs[j].window.value;
      i < |t.sagas| && (t.sagas[i].Finished? ==>
        && j in t.jobs && t.jobs[j].event == Some(e) && e in t.events
        && t.jobs[j].window == Some(if RowMoved(turns) then w else source)
        && t.jobs[j].text == (if RowMoved(turns) then Some(Formatted(w)) else s.jobs[j].text)
        && t.events[e].window == (if CalendarMoved(turns) then w else source)
        && (t.jobs[j].window != Some(t.events[e].window) <==> Torn(turns)))
  {
    var begun, i := Step(s, BeginMove(j, w)), |s.sagas|;
    var t, turns := Run(begun, actions), Turns(begun, i, actions);
    StepKeepsOwned(s, BeginMove(j, w));
    assert Own(begun, i);
    CallSeesItsTurns(begun, i, actions);
    var v := ViewOf(begun, i);
    assert Moves(v);
    if t.sagas[i].Finished? {
      MoveRun(v, turns);
      TornIff(v, turns);
      InCalendar(t, j, s.jobs[j].event.value);
    }
  }

  lemma InCalendar(t: State, j: JobId, e: EventId)
    ensures e in CalendarOf(t, j) ==> e in t.events && t.events[e].window == CalendarOf(t, j)[e]
  {
  }

  // ----- where a confirmation ends -----

  predicate Got(v: View, turns: seq<Turn>) {
    turns != [] && turns[0].outcome.Works? && v.window.None? && !turns[0].taken
  }

  predicate Linked(turns: seq<Turn>) {
    Went(turns, 1, Works) && Went(turns, 2, Works)
  }

  /** The compensating write, turn 2 or turn 3, failed. */
  predicate Stranded(turns: seq<Turn>) {
    !Linked(turns) && !Went(turns, if Went(turns, 1, Works) then 3 else 2, Works)
  }

  predicate Confirms(v: View) {
    v.saga.ConfirmReserve? && (v.window.None? ==> v.event.None?)
  }

  lemma ConfirmUndoRun(v: View, turns: seq<Turn>)
    requires v.saga.ConfirmUndo? && v.event.None? && SoloRun(v, turns).saga.Finished?
    ensures turns != [] && SoloRun(v, turns) ==
      if Went(turns, 0, Works) then v.(saga := Finished(v.saga.job), window := None, text := None)
      else v.(saga := Finished(v.saga.job))
  {
    FinishedRests(Solo(v, turns[0]), turns[1..]);
  }

  /** Where a confirmation ends is exactly what its turns say. */
  lemma ConfirmRun(v: View, turns: seq<Turn>)
    requires Confirms(v) && SoloRun(v, turns).saga.Finished?
    ensures var r, w, done := SoloRun(v, turns), v.saga.window, Finished(v.saga.job);
      if !Got(v, turns) then r == v.(saga := done)
      else
        && 1 < |turns|
        && r.event == (if Linked(turns) then Some(turns[1].nextId) else None)
        && r.window == (if Linked(turns) || Stranded(turns) then Some(w) else None)
        && r.text == (if Linked(turns) || Stranded(turns) then Some(Formatted(w)) else None)
        && r.calendar == if Went(turns, 1, Fails) then v.calendar else v.calendar[turns[1].nextId := w]
  {
    var reserved := Solo(v, turns[0]);
    if !Got(v, turns) {
      FinishedRests(reserved, turns[1..]);
    } else {
      var inserted := Solo(reserved, turns[1..][0]);
      assert SoloRun(v, turns) == SoloRun(inserted, turns[2..]) by {
        assert turns[1..][1..] == turns[2..];
      }
      if turns[1].outcome.Works? {
        var stored := Solo(inserted, turns[2..][0]);
        assert SoloRun(inserted, turns[2..]) == SoloRun(stored, turns[3..]) by {
          assert turns[2..][1..] == turns[3..];
        }
        if turns[2].outcome.Works? {
          FinishedRests(stored, turns[3..]);
        } else {
          ConfirmUndoRun(stored, turns[3..]);
        }
      } else {
        ConfirmUndoRun(inserted, turns[2..]);
      }
    }
  }

  /** In every interleaving with the calls of other jobs a finished confirmation leaves
      the row as it was, or empty, or booked under an event created for it at that
      window; or, exactly when its compensating write failed, with a window and no event. */
  lemma ConfirmEndsExactly(s: State, j: JobId, w: Window, actions: seq<Action>)
    requires Owned(s) && j in s.jobs && !Busy(s, j) && Settled(s, j) && w.start < w.end
    requires !(s.jobs[j].status.Accepted? && s.jobs[j].window == Some(w))
    requires forall a <- actions :: LeavesAlone(a, j)
    ensures var begun, i := Step(s, BeginConfirm(j, w)), |s.sagas|;
      var t, turns := Run(begun, actions), Turns(begun, i, actions);
      i < |t.sagas| && (t.sagas[i].Finished? ==>
        && turns != [] && j in t.jobs
        && var got := turns[0].outcome.Works? && s.jobs[j].window.None? && !turns[0].taken;
           if !got then
             t.jobs[j].window == s.jobs[j].window && t.jobs[j].event == s.jobs[j].event
                 && t.jobs[j].text == s.jobs[j].text
           else if Linked(turns) then t.jobs[j].event.Some? && Shows(t, j, t.jobs[j].event.value, w, w)
           else t.jobs[j].event.None? && t.jobs[j].window == if Stranded(turns) then Some(w) else None)
  {
    var begun, i := Step(s, BeginConfirm(j, w)), |s.sagas|;
    var t, turns := Run(begun, actions), Turns(begun, i, actions);
    StepKeepsOwned(s, BeginConfirm(j, w));
    assert Own(begun, i);
    CallSeesItsTurns(begun, i, actions);
    var v := ViewOf(begun, i);
    assert Confirms(v);
    if t.sagas[i].Finished? {
      ConfirmRun(v, turns);
      if 1 < |turns| {
        InCalendar(t, j, turns[1].nextId);
      }
    }
  }

  // ----- where a cancellation ends -----

  /** The restoring write, turn 2, went through. */
  predicate Restored(turns: seq<Turn>) {
    !Went(turns, 1, Works) && Undone(turns, 2) && turns[2].status.Cancelled?
  }

  predicate Removed(turns: seq<Turn>) {
    turns != [] && turns[0].outcome.Works? && turns[0].status.Accepted?
  }

  predicate Cancels(v: View) {
    v.saga.CancelReserve? && v.window == Some(v.saga.source) && v.event == Some(v.saga.event)
  }

  /** Where a cancellation ends is exactly what its turns say. */
  lemma CancelRun(v: View, turns: seq<Turn>)
    requires Cancels(v) && SoloRun(v, turns).saga.Finished?
    ensures var r, c, done := SoloRun(v, turns), v.saga, Finished(v.saga.job);
      if !Removed(turns) then r == v.(saga := done)
      else
        && r.event == (if Restored(turns) then Some(c.event) else None)
        && r.window == (if Restored(turns) then Some(c.source) else None)
        && r.text == c.text
        && r.calendar == if Went(turns, 1, Fails) then v.calendar else v.calendar - {c.event}
  {
    var removed := Solo(v, turns[0]);
    if !Removed(turns) {
      FinishedRests(removed, turns[1..]);
    } else {
      var deleted := Solo(removed, turns[1..][0]);
      assert SoloRun(v, turns) == SoloRun(deleted, turns[2..]) by {
        assert turns[1..][1..] == turns[2..];
      }
      if turns[1].outcome.Works? {
        FinishedRests(deleted, turns[2..]);
      } else {
        FinishedRests(Solo(deleted, turns[2..][0]), turns[2..][1..]);
      }
    }
  }

  /** In every interleaving with the calls of other jobs a finished cancellation leaves
      the booking as it was or takes it out of the row. The row names a missing event
      exactly when the deletion took effect, reported a failure and was then undone;
      the event outlives the booking exactly when the deletion failed and the undo was
      refused or failed. */
  lemma CancelEndsExactly(s: State, j: JobId, actions: seq<Action>)
    requires Owned(s) && j in s.jobs && !Busy(s, j) && Active(s.jobs[j])
    requires s.jobs[j].event.value in s.events
    requires forall a <- actions :: LeavesAlone(a, j)
    ensures var begun, i := Step(s, BeginCancel(j)), |s.sagas|;
      var t, turns := Run(begun, actions), Turns(begun, i, actions);
      var e, booked := s.jobs[j].event.value, !Removed(turns) || Restored(turns);
      i < |t.sagas| && (t.sagas[i].Finished? ==>
        && j in t.jobs
        && t.jobs[j].window == (if booked then s.jobs[j].window else None)
        && t.jobs[j].event == (if booked then Some(e) else None)
        && (e in CalendarOf(t, j) <==> !Removed(turns) || Went(turns, 1, Fails))
        && ((t.jobs[j].event == Some(e) && e !in CalendarOf(t, j)) <==>
              Removed(turns) && Restored(turns) && !Went(turns, 1, Fails)))
  {
    var begun, i := Step(s, BeginCancel(j)), |s.sagas|;
    var t, turns := Run(begun, actions), Turns(begun, i, actions);
    StepKeepsOwned(s, BeginCancel(j));
    assert Own(begun, i);
    CallSeesItsTurns(begun, i, actions);
    var v := ViewOf(begun, i);
    assert Cancels(v) && s.jobs[j].event.value in v.calendar;
    if t.sagas[i].Finished? {
      CancelRun(v, turns);
    }
  }

  // ----- the vacated window -----

  /** Two jobs of a tenant: job 0 booked under event 0, job 1 perhaps at `other`. */
  function Scene(row: Window, text: Option<Text>, other: Row, calendar: Window, sagas: seq<Saga>): State {
    State(map[0 := Row(0, Accepted, Some(row), Some(0), text), 1 := other],
          map[0 := Event(0, calendar)], sagas, 1, map[0 := 0], {}, {})
  }

  const UNBOOKED := Row(0, Created, None, None, None)

  lemma MoveUntilAudit(home: Window, w: Window)
    requires w.start < w.end && w != home
    ensures Step(Step(Step(Scene(home, None, UNBOOKED, home, []), BeginMove(0, w)), Advance(0, Works)),
        Advance(0, Works))
         == Scene(w, Some(Formatted(w)), UNBOOKED, w, [MoveAudit(0, 0, home, None, w)])
  {
    var s := Scene(home, None, UNBOOKED, home, []);
    var s1 := s.(sagas := [MoveReserve(0, 0, home, None, w)]);
    assert Step(s, BeginMove(0, w)) == s1;
    var s2 := Scene(w, Some(Formatted(w)), UNBOOKED, home, [MovePatch(0, 0, home, None, w)]);
    assert Step(s1, Advance(0, Works)) == s2;
  }

  lemma OtherTakesHome(home: Window, w: Window)
    requires home.start < home.end && w != home
    ensures var s := Scene(w, Some(Formatted(w)), UNBOOKED, w, [MoveAudit(0, 0, home, None, w)]);
      Step(Step(s, BeginConfirm(1, home)), Advance(1, Works))
      == Scene(w, Some(Formatted(w)), ReserveWrite(UNBOOKED, home), w,
          [MoveAudit(0, 0, home, None, w), ConfirmInsert(1, home)])
  {
    var s := Scene(w, Some(Formatted(w)), UNBOOKED, w, [MoveAudit(0, 0, home, None, w)]);
    var s1 := s.(sagas := [MoveAudit(0, 0, home, None, w), ConfirmReserve(1, home)]);
    assert Step(s, BeginConfirm(1, home)) == s1;
    assert !Taken(s1.jobs, 1, home);
  }

  lemma RollsBack(home: Window, w: Window, other: Row, insert: Saga)
    requires w != home && insert.ConfirmInsert?
    ensures var s := Scene(w, Some(Formatted(w)), other, w, [MoveAudit(0, 0, home, None, w), insert]);
      Step(Step(s, Advance(0, Fails)), Advance(0, Works))
      == Scene(w, Some(Formatted(w)), other, home, [MoveUndo(0, 0, home, None, w), insert])
  {
    var s := Scene(w, Some(Formatted(w)), other, w, [MoveAudit(0, 0, home, None, w), insert]);
    var s1 := s.(sagas := [MoveRollback(0, 0, home, None, w), insert]);
    assert Step(s, Advance(0, Fails)) == s1;
  }

  lemma UndoIsRefused(home: Window, w: Window, other: Row, insert: Saga)
    requires w != home && other.tenant == 0 && other.window == Some(home) && insert.ConfirmInsert?
    ensures Step(Scene(w, Some(Formatted(w)), other, home, [MoveUndo(0, 0, home, None, w), insert]), Advance(0, Works))
         == Scene(w, Some(Formatted(w)), other, home, [Finished(0), insert]).(blurred := {0})
  {
    var s := Scene(w, Some(Formatted(w)), other, home, [MoveUndo(0, 0, home, None, w), insert]);
    assert 1 in s.jobs && s.jobs[1].window == Some(home);
  }

  /** The one way without a failing compensation: job 0 has moved to w, row and calendar;
      job 1, for which the calendar now shows the old window free, reserves it; job 0's
      audit write fails and its rollback patch works; its undo is refused by the unique
      index. Row 0 stays at w while its event is back at the old window, which job 1 has. */
  lemma VacatedWindowIsTaken(home: Window, w: Window)
    requires home.start < home.end && w.start < w.end && w != home
    ensures var moved :=
        Step(Step(Step(Scene(home, None, UNBOOKED, home, []), BeginMove(0, w)), Advance(0, Works)), Advance(0, Works));
      var taken := Step(Step(moved, BeginConfirm(1, home)), Advance(1, Works));
      var t := Step(Step(Step(taken, Advance(0, Fails)), Advance(0, Works)), Advance(0, Works));
      && 0 in moved.events && moved.events[0].window == w && !Busy(moved, 1)
      && 0 in t.jobs && 1 in t.jobs && !Busy(t, 0)
      && Shows(t, 0, 0, w, home) && t.jobs[1].window == Some(home)
  {
    MoveUntilAudit(home, w);
    OtherTakesHome(home, w);
    var other, insert := ReserveWrite(UNBOOKED, home), ConfirmInsert(1, home);
    RollsBack(home, w, other, insert);
    UndoIsRefused(home, w, other, insert);
  }
}
