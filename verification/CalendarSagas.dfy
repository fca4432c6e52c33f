/** src/scheduling/scheduling.service.ts: confirm, reschedule and cancel as
    sagas over job rows and an external calendar. Every database write and every
    calendar call is one step, so sagas of the same or of different jobs
    interleave, fail and stop anywhere. */
module CalendarSagas {
  import opened Common

  type JobId = nat
  type EventId = nat

  datatype Window = Window(start: int, end: int)

  /** preferredTimeText: the formatted window, or what the customer once typed. */
  datatype Text = Formatted(window: Window) | Typed(text: string)

  datatype Row = Row(
    tenant: nat,
    status: JobStatus,
    window: Option<Window>,
    event: Option<EventId>,
    text: Option<Text>)

  /** A Google event: its own window and the job named in its private properties. */
  datatype Event = Event(job: JobId, window: Window)

  /** A step of a saga either works, fails without effect, or takes effect and
      still reports a failure (a timeout; calendar calls only). */
  datatype Outcome = Works | Fails | FailsAfterEffect

  /** The next step of each saga, with what it remembers. */
  datatype Saga =
    | ConfirmReserve(job: JobId, window: Window)
    | ConfirmInsert(job: JobId, window: Window)
    | ConfirmStore(job: JobId, window: Window, event: EventId)
    | ConfirmUndo(job: JobId)
    | MoveReserve(job: JobId, event: EventId, source: Window, sourceText: Option<Text>, target: Window)
    | MovePatch(job: JobId, event: EventId, source: Window, sourceText: Option<Text>, target: Window)
    | MoveAudit(job: JobId, event: EventId, source: Window, sourceText: Option<Text>, target: Window)
    | MoveRollback(job: JobId, event: EventId, source: Window, sourceText: Option<Text>, target: Window)
    | MoveUndo(job: JobId, event: EventId, source: Window, sourceText: Option<Text>, target: Window)
    | CancelReserve(job: JobId, event: EventId, source: Window, text: Option<Text>)
    | CancelDelete(job: JobId, event: EventId, source: Window, text: Option<Text>)
    | CancelUndo(job: JobId, event: EventId, source: Window, text: Option<Text>)
    | Finished(job: JobId)

  datatype State = State(
    jobs: map<JobId, Row>,
    events: map<EventId, Event>,
    sagas: seq<Saga>,
    next: EventId,                // Google's next fresh id
    owner: map<EventId, JobId>,   // every event ever created, and for which job
    lost: set<EventId>,           // deleted by a call that reported a failure
    blurred: set<JobId>)          // a calendar call of the job misreported, or its compensation write failed

  datatype Action =
    | BeginConfirm(job: JobId, window: Window)
    | BeginMove(job: JobId, window: Window)
    | BeginCancel(job: JobId)
    | Advance(i: nat, outcome: Outcome)
    | OtherServiceSets(job: JobId, status: JobStatus)

  // ----- row writes -----

  /** The unique index on (tenant, serviceWindowStart, serviceWindowEnd). */
  predicate Taken(jobs: map<JobId, Row>, job: JobId, window: Window)
    requires job in jobs
  {
    exists other <- jobs :: other != job && jobs[other].tenant == jobs[job].tenant && jobs[other].window == Some(window)
  }

  function ReserveWrite(row: Row, window: Window): Row {
    row.(status := Accepted, window := Some(window), text := Some(Formatted(window)))
  }

  function ReleaseWrite(row: Row): Row {
    row.(status := Created, window := None, text := None)
  }

  function MoveWrite(row: Row, window: Window, text: Option<Text>): Row {
    row.(window := Some(window), text := text)
  }

  function CancelWrite(row: Row, text: Option<Text>): Row {
    row.(status := Cancelled, event := None, window := None, text := text)
  }

  function RestoreWrite(row: Row, event: EventId, window: Window, text: Option<Text>): Row {
    row.(status := Accepted, event := Some(event), window := Some(window), text := text)
  }

  /** status ACCEPTED, the remembered event and the remembered window: the guard
      of the reschedule and of the cancellation write. */
  predicate Unchanged(row: Row, event: EventId, window: Window) {
    row.status.Accepted? && row.event == Some(event) && row.window == Some(window)
  }

  // ----- steps -----

  function SetJob(s: State, i: nat, row: Row, saga: Saga): State
    requires i < |s.sagas|
  {
    s.(jobs := s.jobs[s.sagas[i].job := row], sagas := s.sagas[i := saga])
  }

  function Goto(s: State, i: nat, saga: Saga): State
    requires i < |s.sagas|
  {
    s.(sagas := s.sagas[i := saga])
  }

  function Blur(s: State, job: JobId): State {
    s.(blurred := s.blurred + {job})
  }

  function CreateEvent(s: State, job: JobId, window: Window): State {
    s.(events := s.events[s.next := Event(job, window)], owner := s.owner[s.next := job], next := s.next + 1)
  }

  ghost function ConfirmStep(s: State, i: nat, outcome: Outcome): State
    requires i < |s.sagas| && s.sagas[i].job in s.jobs
  {
    var j, row := s.sagas[i].job, s.jobs[s.sagas[i].job];
    match s.sagas[i]
    case ConfirmReserve(_, w) =>
      if outcome.Works? && row.window.None? && !Taken(s.jobs, j, w)
      then SetJob(s, i, ReserveWrite(row, w), ConfirmInsert(j, w))
      else Goto(s, i, Finished(j))
    case ConfirmInsert(_, w) =>
      (match outcome
       case Works => Goto(CreateEvent(s, j, w), i, ConfirmStore(j, w, s.next))
       case Fails => Goto(s, i, ConfirmUndo(j))
       case FailsAfterEffect => Goto(CreateEvent(s, j, w), i, ConfirmUndo(j)))
    case ConfirmStore(_, w, e) =>
      if outcome.Works?
      then SetJob(s, i, row.(event := Some(e)), Finished(j))
      else Goto(s, i, ConfirmUndo(j))
    case ConfirmUndo(_) =>
      if !outcome.Works? then Blur(Goto(s, i, Finished(j)), j)
      else if row.event.None? then SetJob(s, i, ReleaseWrite(row), Finished(j))
      else Goto(s, i, Finished(j))
    case _ => s
  }

  ghost function MoveStep(s: State, i: nat, outcome: Outcome): State
    requires i < |s.sagas| && s.sagas[i].job in s.jobs
  {
    var j, row := s.sagas[i].job, s.jobs[s.sagas[i].job];
    match s.sagas[i]
    case MoveReserve(_, e, source, sourceText, w) =>
      if outcome.Works? && Unchanged(row, e, source) && !Taken(s.jobs, j, w)
      then SetJob(s, i, MoveWrite(row, w, Some(Formatted(w))), MovePatch(j, e, source, sourceText, w))
      else Goto(s, i, Finished(j))
    case MovePatch(_, e, source, sourceText, w) =>
      if outcome.Fails? || e !in s.events then Goto(s, i, MoveUndo(j, e, source, sourceText, w))
      else
        var patched := s.(events := s.events[e := s.events[e].(window := w)]);
        if outcome.Works? then Goto(patched, i, MoveAudit(j, e, source, sourceText, w))
        else Blur(Goto(patched, i, MoveUndo(j, e, source, sourceText, w)), j)
    case MoveAudit(_, e, source, sourceText, w) =>
      if outcome.Works? then Goto(s, i, Finished(j)) else Goto(s, i, MoveRollback(j, e, source, sourceText, w))
    case MoveRollback(_, e, source, sourceText, w) =>
      if outcome.Fails? || e !in s.events then Goto(s, i, Finished(j))
      else
        var restored := s.(events := s.events[e := s.events[e].(window := source)]);
        if outcome.Works? then Goto(restored, i, MoveUndo(j, e, source, sourceText, w))
        else Blur(Goto(restored, i, Finished(j)), j)
    case MoveUndo(_, e, source, sourceText, w) =>
      if row.event != Some(e) || row.window != Some(w) then Goto(s, i, Finished(j))
      else if !outcome.Works? || Taken(s.jobs, j, source) then Blur(Goto(s, i, Finished(j)), j)
      else SetJob(s, i, MoveWrite(row, source, sourceText), Finished(j))
    case _ => s
  }

  ghost function CancelStep(s: State, i: nat, outcome: Outcome): State
    requires i < |s.sagas| && s.sagas[i].job in s.jobs
  {
    var j, row := s.sagas[i].job, s.jobs[s.sagas[i].job];
    match s.sagas[i]
    case CancelReserve(_, e, source, text) =>
      if outcome.Works? && Unchanged(row, e, source)
      then SetJob(s, i, CancelWrite(row, text), CancelDelete(j, e, source, text))
      else Goto(s, i, Finished(j))
    case CancelDelete(_, e, source, text) =>
      (match outcome
       case Works => Goto(s.(events := s.events - {e}), i, Finished(j))
       case Fails => Goto(s, i, CancelUndo(j, e, source, text))
       case FailsAfterEffect =>
         Blur(Goto(s.(events := s.events - {e}, lost := s.lost + {e}), i, CancelUndo(j, e, source, text)), j))
    case CancelUndo(_, e, source, text) =>
      if outcome.Works? && row.status.Cancelled? && row.event.None? && !Taken(s.jobs, j, source)
      then SetJob(s, i, RestoreWrite(row, e, source, text), Finished(j))
      else Goto(s, i, Finished(j))
    case _ => s
  }

  /** One atomic step; an action whose guard fails changes nothing. */
  ghost function Step(s: State, a: Action): State {
    match a
    case BeginConfirm(j, w) =>
      if j !in s.jobs || w.start >= w.end || (s.jobs[j].status.Accepted? && s.jobs[j].window == Some(w)) then s
      else s.(sagas := s.sagas + [ConfirmReserve(j, w)])
    case BeginMove(j, w) =>
      if j !in s.jobs || w.start >= w.end || !Active(s.jobs[j]) || s.jobs[j].window == Some(w) then s
      else
        var row := s.jobs[j];
        s.(sagas := s.sagas + [MoveReserve(j, row.event.value, row.window.value, row.text, w)])
    case BeginCancel(j) =>
      if j !in s.jobs || !Active(s.jobs[j]) then s
      else
        var row := s.jobs[j];
        var text := if row.text.Some? then row.text else Some(Formatted(row.window.value));
        s.(sagas := s.sagas + [CancelReserve(j, row.event.value, row.window.value, text)])
    case Advance(i, outcome) =>
      if i >= |s.sagas| || s.sagas[i].job !in s.jobs then s
      else if IsConfirm(s.sagas[i]) then ConfirmStep(s, i, outcome)
      else if IsMove(s.sagas[i]) then MoveStep(s, i, outcome)
      else CancelStep(s, i, outcome)
    case OtherServiceSets(j, status) =>
      if j in s.jobs then s.(jobs := s.jobs[j := s.jobs[j].(status := status)]) else s
  }

  /** The precondition of every customer-side change of an appointment. */
  predicate Active(row: Row) {
    row.status.Accepted? && row.event.Some? && row.window.Some?
  }

  predicate IsConfirm(saga: Saga) {
    saga.ConfirmReserve? || saga.ConfirmInsert? || saga.ConfirmStore? || saga.ConfirmUndo?
  }

  predicate IsMove(saga: Saga) {
    saga.MoveReserve? || saga.MovePatch? || saga.MoveAudit? || saga.MoveRollback? || saga.MoveUndo?
  }

  predicate IsCancel(saga: Saga) {
    saga.CancelReserve? || saga.CancelDelete? || saga.CancelUndo?
  }

  ghost function Run(s: State, actions: seq<Action>): State
    decreases |actions|
  {
    if actions == [] then s else Run(Step(s, actions[0]), actions[1..])
  }

  /** Jobs before any booking: no window, no event. */
  ghost predicate Initial(s: State) {
    && (forall j <- s.jobs :: s.jobs[j].window.None? && s.jobs[j].event.None?)
    && s.events == map[] && s.sagas == [] && s.owner == map[] && s.lost == {} && s.blurred == {}
  }

  // ----- ownership in every interleaving -----

  /** The event a saga has taken out of every row: created and not yet stored,
      or unlinked and not yet deleted. */
  function Held(saga: Saga): Option<EventId> {
    match saga
    case ConfirmStore(_, _, e) => Some(e)
    case CancelDelete(_, e, _, _) => Some(e)
    case CancelUndo(_, e, _, _) => Some(e)
    case _ => None
  }

  predicate Remembers(saga: Saga, e: EventId) {
    (saga.ConfirmStore? || IsMove(saga) || IsCancel(saga)) && saga.event == e
  }

  /** e was created for job j; it still exists unless a failing call deleted it. */
  predicate OwnedBy(s: State, e: EventId, j: JobId) {
    e in s.owner && s.owner[e] == j && (e in s.events || e in s.lost)
  }

  ghost predicate RowsOwned(s: State) {
    && (forall e <- s.owner :: e < s.next)
    && (forall e <- s.events :: e in s.owner && s.events[e].job == s.owner[e])
    && (forall j <- s.jobs :: s.jobs[j].event.Some? ==> OwnedBy(s, s.jobs[j].event.value, j))
  }

  ghost predicate SagasOwned(s: State) {
    && (forall i | 0 <= i < |s.sagas| :: s.sagas[i].job in s.jobs)
    && (forall i, e | 0 <= i < |s.sagas| && Remembers(s.sagas[i], e) :: e in s.owner && s.owner[e] == s.sagas[i].job)
  }

  ghost predicate AllHeldApart(s: State) {
    forall i | 0 <= i < |s.sagas| && Held(s.sagas[i]).Some? :: HeldApart(s, i)
  }

  ghost predicate Owned(s: State) {
    RowsOwned(s) && SagasOwned(s) && AllHeldApart(s)
  }

  ghost predicate HeldApart(s: State, i: nat)
    requires i < |s.sagas| && Held(s.sagas[i]).Some?
  {
    var e, j := Held(s.sagas[i]).value, s.sagas[i].job;
    && j in s.jobs && OwnedBy(s, e, j) && s.jobs[j].event != Some(e)
    && forall k | 0 <= k < |s.sagas| && k != i :: Held(s.sagas[k]) != Some(e)
  }

  /** A saga moves on without linking, unlinking or creating an event. */
  lemma GotoKeepsOwned(s: State, i: nat, saga: Saga)
    requires Owned(s) && i < |s.sagas| && saga.job == s.sagas[i].job
    requires Held(saga).None? || Held(saga) == Held(s.sagas[i])
    requires forall e: EventId | Remembers(saga, e) :: Remembers(s.sagas[i], e)
    ensures Owned(Goto(s, i, saga))
  {
    GotoKeepsHeld(s, i, saga);
  }

  lemma GotoKeepsHeld(s: State, i: nat, saga: Saga)
    requires AllHeldApart(s) && i < |s.sagas| && saga.job == s.sagas[i].job
    requires Held(saga).None? || Held(saga) == Held(s.sagas[i])
    ensures AllHeldApart(Goto(s, i, saga))
  {
    var t := Goto(s, i, saga);
    forall k | 0 <= k < |t.sagas| && Held(t.sagas[k]).Some?
      ensures HeldApart(t, k)
    {
      assert HeldApart(s, k);
    }
  }

  /** A row changes but keeps its event. */
  lemma RowKeepsOwned(s: State, j: JobId, row: Row)
    requires Owned(s) && j in s.jobs && row.event == s.jobs[j].event
    ensures Owned(s.(jobs := s.jobs[j := row]))
  {
    var t := s.(jobs := s.jobs[j := row]);
    forall k | 0 <= k < |t.sagas| && Held(t.sagas[k]).Some?
      ensures HeldApart(t, k)
    {
      assert HeldApart(s, k);
    }
  }

  /** A saga hands the event it holds to its row. */
  lemma LinkKeepsOwned(s: State, i: nat, row: Row)
    requires Owned(s) && i < |s.sagas|
    requires row.event.Some? && Held(s.sagas[i]) == row.event
    ensures Owned(SetJob(s, i, row, Finished(s.sagas[i].job)))
  {
    LinkKeepsHeld(s, i, row);
    LinkKeepsRows(s, i, row);
  }

  lemma LinkKeepsRows(s: State, i: nat, row: Row)
    requires Owned(s) && i < |s.sagas|
    requires row.event.Some? && Held(s.sagas[i]) == row.event
    ensures RowsOwned(SetJob(s, i, row, Finished(s.sagas[i].job)))
  {
    assert HeldApart(s, i);
  }

  lemma LinkKeepsHeld(s: State, i: nat, row: Row)
    requires SagasOwned(s) && AllHeldApart(s) && i < |s.sagas|
    requires row.event.Some? && Held(s.sagas[i]) == row.event
    ensures AllHeldApart(SetJob(s, i, row, Finished(s.sagas[i].job)))
  {
    var t := SetJob(s, i, row, Finished(s.sagas[i].job));
    assert HeldApart(s, i);
    forall k | 0 <= k < |t.sagas| && Held(t.sagas[k]).Some?
      ensures HeldApart(t, k)
    {
      assert HeldApart(s, k);
    }
  }

  /** A cancellation takes the event out of its row. */
  lemma UnlinkKeepsOwned(s: State, i: nat, row: Row, saga: Saga)
    requires Owned(s) && i < |s.sagas| && row.event.None? && saga.CancelDelete?
    requires saga.job == s.sagas[i].job && s.jobs[saga.job].event == Some(saga.event)
    ensures Owned(SetJob(s, i, row, saga))
  {
    UnlinkKeepsHeld(s, i, row, saga);
  }

  lemma UnlinkKeepsHeld(s: State, i: nat, row: Row, saga: Saga)
    requires Owned(s) && i < |s.sagas| && row.event.None? && saga.CancelDelete?
    requires saga.job == s.sagas[i].job && s.jobs[saga.job].event == Some(saga.event)
    ensures AllHeldApart(SetJob(s, i, row, saga))
  {
    var t := SetJob(s, i, row, saga);
    assert forall m | 0 <= m < |s.sagas| && Held(s.sagas[m]).Some? :: HeldApart(s, m);
    forall k | 0 <= k < |t.sagas| && Held(t.sagas[k]).Some?
      ensures HeldApart(t, k)
    {
      if k != i {
        assert HeldApart(s, k);
      }
    }
  }

  lemma CreateKeepsOwned(s: State, i: nat, window: Window, saga: Saga)
    requires Owned(s) && i < |s.sagas| && s.sagas[i].ConfirmInsert?
    requires saga == ConfirmStore(s.sagas[i].job, window, s.next) || saga == ConfirmUndo(s.sagas[i].job)
    ensures Owned(Goto(CreateEvent(s, s.sagas[i].job, window), i, saga))
  {
    var t := Goto(CreateEvent(s, s.sagas[i].job, window), i, saga);
    forall k | 0 <= k < |t.sagas| && Held(t.sagas[k]).Some?
      ensures HeldApart(t, k)
    {
      if k != i {
        assert HeldApart(s, k);
      } else {
        assert forall m | 0 <= m < |s.sagas| && Held(s.sagas[m]).Some? :: HeldApart(s, m);
      }
    }
  }

  lemma PatchKeepsOwned(s: State, e: EventId, window: Window)
    requires Owned(s) && e in s.events
    ensures Owned(s.(events := s.events[e := s.events[e].(window := window)]))
  {
    var t := s.(events := s.events[e := s.events[e].(window := window)]);
    forall k | 0 <= k < |t.sagas| && Held(t.sagas[k]).Some?
      ensures HeldApart(t, k)
    {
      assert HeldApart(s, k);
    }
  }

  /** An event in no row and in no saga's hands, or recorded as lost, may go. */
  lemma DeleteKeepsOwned(s: State, e: EventId)
    requires Owned(s)
    requires e in s.lost ||
      ((forall j <- s.jobs :: s.jobs[j].event != Some(e))
          && (forall k | 0 <= k < |s.sagas| :: Held(s.sagas[k]) != Some(e)))
    ensures Owned(s.(events := s.events - {e}))
  {
    var t := s.(events := s.events - {e});
    forall k | 0 <= k < |t.sagas| && Held(t.sagas[k]).Some?
      ensures HeldApart(t, k)
    {
      assert HeldApart(s, k);
    }
  }

  lemma NotesKeepOwned(s: State, lost: set<EventId>, blurred: set<JobId>)
    requires Owned(s) && s.lost <= lost
    ensures Owned(s.(lost := lost, blurred := blurred))
  {
    var t := s.(lost := lost, blurred := blurred);
    forall k | 0 <= k < |t.sagas| && Held(t.sagas[k]).Some?
      ensures HeldApart(t, k)
    {
      assert HeldApart(s, k);
    }
  }

  lemma ConfirmKeepsOwned(s: State, i: nat, outcome: Outcome)
    requires Owned(s) && i < |s.sagas|
    ensures Owned(ConfirmStep(s, i, outcome))
  {
    var j, row := s.sagas[i].job, s.jobs[s.sagas[i].job];
    var done := Finished(j);
    match s.sagas[i] {
      case ConfirmReserve(_, w) =>
        GotoKeepsOwned(s, i, done);
        GotoKeepsOwned(s, i, ConfirmInsert(j, w));
        RowKeepsOwned(Goto(s, i, ConfirmInsert(j, w)), j, ReserveWrite(row, w));
      case ConfirmInsert(_, w) =>
        GotoKeepsOwned(s, i, ConfirmUndo(j));
        CreateKeepsOwned(s, i, w, ConfirmStore(j, w, s.next));
        CreateKeepsOwned(s, i, w, ConfirmUndo(j));
      case ConfirmStore(_, w, e) =>
        GotoKeepsOwned(s, i, ConfirmUndo(j));
        LinkKeepsOwned(s, i, row.(event := Some(e)));
      case ConfirmUndo(_) =>
        GotoKeepsOwned(s, i, done);
        NotesKeepOwned(Goto(s, i, done), s.lost, s.blurred + {j});
        if row.event.None? {
          RowKeepsOwned(Goto(s, i, done), j, ReleaseWrite(row));
        }
      case _ =>
    }
  }

  /** The two calendar patches of a reschedule, forwards and back. */
  lemma PatchStepKeepsOwned(s: State, i: nat, window: Window, saga: Saga)
    requires Owned(s) && i < |s.sagas| && IsMove(s.sagas[i]) && s.sagas[i].event in s.events
    requires saga.job == s.sagas[i].job
    requires saga.Finished? || (IsMove(saga) && saga.event == s.sagas[i].event)
    ensures var e := s.sagas[i].event;
      var t := Goto(s.(events := s.events[e := s.events[e].(window := window)]), i, saga);
      Owned(t) && Owned(Blur(t, saga.job))
  {
    var e := s.sagas[i].event;
    PatchKeepsOwned(s, e, window);
    var t := s.(events := s.events[e := s.events[e].(window := window)]);
    GotoKeepsOwned(t, i, saga);
    NotesKeepOwned(Goto(t, i, saga), s.lost, s.blurred + {saga.job});
  }

  lemma MoveRowKeepsOwned(s: State, i: nat, row: Row, saga: Saga)
    requires Owned(s) && i < |s.sagas| && IsMove(s.sagas[i])
    requires row.event == s.jobs[s.sagas[i].job].event && saga.job == s.sagas[i].job
    requires saga.Finished? || (IsMove(saga) && saga.event == s.sagas[i].event)
    ensures Owned(SetJob(s, i, row, saga))
  {
    GotoKeepsOwned(s, i, saga);
    RowKeepsOwned(Goto(s, i, saga), saga.job, row);
  }

  lemma MoveKeepsOwned(s: State, i: nat, outcome: Outcome)
    requires Owned(s) && i < |s.sagas| && IsMove(s.sagas[i])
    ensures Owned(MoveStep(s, i, outcome))
  {
    var j, row := s.sagas[i].job, s.jobs[s.sagas[i].job];
    GotoKeepsOwned(s, i, Finished(j));
    match s.sagas[i] {
      case MoveReserve(_, e, source, sourceText, w) =>
        MoveRowKeepsOwned(s, i, MoveWrite(row, w, Some(Formatted(w))), MovePatch(j, e, source, sourceText, w));
      case MovePatch(_, e, source, sourceText, w) =>
        if outcome.Fails? || e !in s.events {
          GotoKeepsOwned(s, i, MoveUndo(j, e, source, sourceText, w));
        } else {
          PatchStepKeepsOwned(s, i, w, MoveAudit(j, e, source, sourceText, w));
          PatchStepKeepsOwned(s, i, w, MoveUndo(j, e, source, sourceText, w));
        }
      case MoveAudit(_, e, source, sourceText, w) =>
        GotoKeepsOwned(s, i, MoveRollback(j, e, source, sourceText, w));
      case MoveRollback(_, e, source, sourceText, w) =>
        if !outcome.Fails? && e in s.events {
          PatchStepKeepsOwned(s, i, source, MoveUndo(j, e, source, sourceText, w));
          PatchStepKeepsOwned(s, i, source, Finished(j));
        }
      case MoveUndo(_, _, source, sourceText, _) =>
        MoveRowKeepsOwned(s, i, MoveWrite(row, source, sourceText), Finished(j));
        NotesKeepOwned(Goto(s, i, Finished(j)), s.lost, s.blurred + {j});
    }
  }

  lemma CancelKeepsOwned(s: State, i: nat, outcome: Outcome)
    requires Owned(s) && i < |s.sagas|
    ensures Owned(CancelStep(s, i, outcome))
  {
    var j, row := s.sagas[i].job, s.jobs[s.sagas[i].job];
    var done := Finished(j);
    match s.sagas[i] {
      case CancelReserve(_, e, source, text) =>
        GotoKeepsOwned(s, i, done);
        if Unchanged(row, e, source) {
          UnlinkKeepsOwned(s, i, CancelWrite(row, text), CancelDelete(j, e, source, text));
        }
      case CancelDelete(_, e, source, text) =>
        assert HeldApart(s, i);
        GotoKeepsOwned(s, i, CancelUndo(j, e, source, text));
        GotoKeepsOwned(s, i, done);
        DeleteKeepsOwned(Goto(s, i, done), e);
        var noted := Goto(s, i, CancelUndo(j, e, source, text)).(lost := s.lost + {e}, blurred := s.blurred + {j});
        NotesKeepOwned(Goto(s, i, CancelUndo(j, e, source, text)), s.lost + {e}, s.blurred + {j});
        DeleteKeepsOwned(noted, e);
      case CancelUndo(_, e, source, text) =>
        GotoKeepsOwned(s, i, done);
        LinkKeepsOwned(s, i, RestoreWrite(row, e, source, text));
      case _ =>
    }
  }

  lemma BeginKeepsOwned(s: State, saga: Saga)
    requires Owned(s) && saga.job in s.jobs && Held(saga).None?
    requires forall e: EventId | Remembers(saga, e) :: s.jobs[saga.job].event == Some(e)
    ensures Owned(s.(sagas := s.sagas + [saga]))
  {
    var t := s.(sagas := s.sagas + [saga]);
    forall k | 0 <= k < |t.sagas| && Held(t.sagas[k]).Some?
      ensures HeldApart(t, k)
    {
      assert HeldApart(s, k);
    }
  }

  lemma StepKeepsOwned(s: State, a: Action)
    requires Owned(s)
    ensures Owned(Step(s, a))
  {
    var t := Step(s, a);
    match a {
      case Advance(i, outcome) =>
        if i < |s.sagas| {
          if IsConfirm(s.sagas[i]) {
            ConfirmKeepsOwned(s, i, outcome);
          } else if IsMove(s.sagas[i]) {
            MoveKeepsOwned(s, i, outcome);
          } else {
            CancelKeepsOwned(s, i, outcome);
          }
        }
      case OtherServiceSets(j, status) =>
        if j in s.jobs {
          RowKeepsOwned(s, j, s.jobs[j].(status := status));
        }
      case _ =>
        if t != s {
          BeginKeepsOwned(s, t.sagas[|s.sagas|]);
        }
    }
  }

  lemma {:induction false} RunKeepsOwned(s: State, actions: seq<Action>)
    requires Owned(s)
    ensures Owned(Run(s, actions))
    decreases |actions|
  {
    if actions != [] {
      StepKeepsOwned(s, actions[0]);
      RunKeepsOwned(Step(s, actions[0]), actions[1..]);
    }
  }

  /** In every interleaving, with steps failing or misreporting anywhere: a row's
      event was created for that job and still exists, unless a deletion that
      reported a failure took it; no two jobs share an event; and an event some
      saga has yet to store or to delete is in no row. */
  lemma EventsBelongToOneJob(s: State, actions: seq<Action>)
    requires Initial(s)
    ensures var t := Run(s, actions);
      && (forall j <- t.jobs :: t.jobs[j].event.Some? ==>
            var e := t.jobs[j].event.value;
            (e in t.events && t.events[e].job == j) || e in t.lost)
      && (forall j <- t.jobs, k <- t.jobs :: j != k && t.jobs[j].event.Some? ==> t.jobs[j].event != t.jobs[k].event)
      && (forall i, j | 0 <= i < |t.sagas| && Held(t.sagas[i]).Some? && j in t.jobs ::
            t.jobs[j].event != Held(t.sagas[i]))
  {
    RunKeepsOwned(s, actions);
    var t := Run(s, actions);
    forall i, j | 0 <= i < |t.sagas| && Held(t.sagas[i]).Some? && j in t.jobs
      ensures t.jobs[j].event != Held(t.sagas[i])
    {
      assert HeldApart(t, i);
    }
  }

  /** No double booking: two jobs of a tenant never hold the same window. */
  ghost predicate Booked(jobs: map<JobId, Row>) {
    forall j <- jobs, k <- jobs :: j != k && jobs[j].tenant == jobs[k].tenant && jobs[j].window.Some? ==>
      jobs[j].window != jobs[k].window
  }

  lemma WriteKeepsBooked(jobs: map<JobId, Row>, j: JobId, row: Row)
    requires Booked(jobs) && j in jobs && row.tenant == jobs[j].tenant
    requires row.window == jobs[j].window || row.window.None? || !Taken(jobs, j, row.window.value)
    ensures Booked(jobs[j := row])
  {
  }

  lemma StepKeepsBooked(s: State, a: Action)
    requires Booked(s.jobs)
    ensures Booked(Step(s, a).jobs)
  {
    match a {
      case Advance(i, outcome) =>
        if i < |s.sagas| && s.sagas[i].job in s.jobs {
          var j := s.sagas[i].job;
          WriteKeepsBooked(s.jobs, j, ReleaseWrite(s.jobs[j]));
          if Step(s, a).jobs != s.jobs {
            WriteKeepsBooked(s.jobs, j, Step(s, a).jobs[j]);
          }
        }
      case OtherServiceSets(j, status) =>
        if j in s.jobs {
          WriteKeepsBooked(s.jobs, j, s.jobs[j].(status := status));
        }
      case _ =>
    }
  }

  lemma {:induction false} NoDoubleBooking(s: State, actions: seq<Action>)
    requires Booked(s.jobs)
    ensures Booked(Run(s, actions).jobs)
    decreases |actions|
  {
    if actions != [] {
      StepKeepsBooked(s, actions[0]);
      NoDoubleBooking(Step(s, actions[0]), actions[1..]);
    }
  }
}
