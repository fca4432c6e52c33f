/** src/scheduling/scheduling.service.ts: the three booking calls executed one at
    a time, with their flags and catch blocks, on the rows and the calendar they
    update in place. Each is proved to take the saga machine's steps, and where
    those steps end is given exactly. */
module SchedulingStore {
  import opened Common
  import opened CalendarSagas
  import opened SagaOutcomes

  /** How each step of a call goes. */
  datatype ConfirmFaults = ConfirmFaults(reserve: Outcome, insert: Outcome, store: Outcome, undo: Outcome)
  datatype MoveFaults = MoveFaults(reserve: Outcome, patch: Outcome, audit: Outcome, rollback: Outcome, undo: Outcome)
  datatype CancelFaults = CancelFaults(reserve: Outcome, delete: Outcome, undo: Outcome)

  datatype Result = Succeeded | Invalid | Conflict | Unavailable

  // ----- the machine steps of one undisturbed call -----

  ghost function Then(s: State, outcome: Outcome): State {
    Step(s, Advance(0, outcome))
  }

  ghost function ConfirmSteps(s: State, j: JobId, w: Window, f: ConfirmFaults): State {
    var inserted := Then(Then(Step(s, BeginConfirm(j, w)), f.reserve), f.insert);
    if !f.insert.Works? then Then(inserted, f.undo)
    else if f.store.Works? then Then(inserted, f.store)
    else Then(Then(inserted, f.store), f.undo)
  }

  ghost function MoveSteps(s: State, j: JobId, w: Window, f: MoveFaults): State {
    AfterPatch(Then(Then(Step(s, BeginMove(j, w)), f.reserve), f.patch), f)
  }

  /** The try block goes on to the audit write, or its catch block runs. */
  ghost function AfterPatch(s: State, f: MoveFaults): State {
    if s.sagas != [] && s.sagas[0].MoveAudit? then
      var audited := Then(s, f.audit);
      if f.audit.Works? then audited else Then(Then(audited, f.rollback), f.undo)
    else Then(s, f.undo)
  }

  ghost function CancelSteps(s: State, j: JobId, f: CancelFaults): State {
    var deleted := Then(Then(Step(s, BeginCancel(j)), f.reserve), f.delete);
    if f.delete.Works? then deleted else Then(deleted, f.undo)
  }

  // ----- where each call ends -----

  lemma FinishedStays(s: State, outcome: Outcome)
    requires |s.sagas| == 1 && s.sagas[0].Finished?
    ensures Then(s, outcome) == s
  {
  }

  /** With no double booking, the window a job has just left is still free for it. */
  lemma BackIsFree(jobs: map<JobId, Row>, j: JobId, row: Row)
    requires Booked(jobs) && j in jobs && jobs[j].window.Some? && row.tenant == jobs[j].tenant
    ensures !Taken(jobs[j := row], j, jobs[j].window.value)
  {
  }

  /** A confirmation books the window under a fresh event iff its three writes
      worked on an unbooked row and a free window. Otherwise a row it had reserved
      is left as CREATED and without a time text, every other row is untouched, and
      the calendar has at most gained an event no row names. */
  lemma ConfirmEnds(s: State, j: JobId, w: Window, f: ConfirmFaults)
    requires s.sagas == [] && j in s.jobs && Settled(s, j) && w.start < w.end
    requires !(s.jobs[j].status.Accepted? && s.jobs[j].window == Some(w))
    requires f.undo.Works? && s.next !in s.events
    ensures var t := ConfirmSteps(s, j, w, f);
      var reserved := f.reserve.Works? && s.jobs[j].window.None? && !Taken(s.jobs, j, w);
      && (t.events == s.events || t.events == s.events[s.next := Event(j, w)])
      && if reserved && f.insert.Works? && f.store.Works?
         then t.jobs == s.jobs[j := s.jobs[j].(status := Accepted, window := Some(w), text := Some(Formatted(w)),
                                                   event := Some(s.next))] && Shows(t, j, s.next, w, w)
         else if reserved then t.jobs == s.jobs[j := s.jobs[j].(status := Created, window := None, text := None)]
         else t.jobs == s.jobs && t.events == s.events
  {
    var row := s.jobs[j];
    assert Step(s, BeginConfirm(j, w)) == s.(sagas := [ConfirmReserve(j, w)]);
    var s2 := Then(s.(sagas := [ConfirmReserve(j, w)]), f.reserve);
    if !(f.reserve.Works? && row.window.None? && !Taken(s.jobs, j, w)) {
      assert s2 == s.(sagas := [Finished(j)]);
    } else {
      assert s2 == s.(jobs := s.jobs[j := ReserveWrite(row, w)], sagas := [ConfirmInsert(j, w)]);
      ConfirmAfterReserve(s, j, w, f, s2);
      assert ReleaseWrite(row) == row.(status := Created, window := None, text := None);
      assert ReserveWrite(row, w) == row.(status := Accepted, window := Some(w), text := Some(Formatted(w)));
    }
  }

  lemma ConfirmAfterReserve(s: State, j: JobId, w: Window, f: ConfirmFaults, s2: State)
    requires j in s.jobs && Unbooked(s, j) && f.undo.Works? && s.next !in s.events
    requires s2 == s.(jobs := s.jobs[j := ReserveWrite(s.jobs[j], w)], sagas := [ConfirmInsert(j, w)])
    ensures var inserted := Then(s2, f.insert);
      var t := if !f.insert.Works? then Then(inserted, f.undo)
               else if f.store.Works? then Then(inserted, f.store)
               else Then(Then(inserted, f.store), f.undo);
      && (t.events == s.events || t.events == s.events[s.next := Event(j, w)])
      && if f.insert.Works? && f.store.Works?
         then t.jobs == s.jobs[j := ReserveWrite(s.jobs[j], w).(event := Some(s.next))] && Shows(t, j, s.next, w, w)
         else t.jobs == s.jobs[j := ReleaseWrite(s.jobs[j])]
  {
    var inserted := Then(s2, f.insert);
    var reserved := s2.jobs[j];
    if f.insert.Works? {
      assert inserted == Goto(CreateEvent(s2, j, w), 0, ConfirmStore(j, w, s.next));
      var linked := reserved.(event := Some(s.next));
      assert s2.jobs[j := linked] == s.jobs[j := linked];
      assert f.store.Works? ==> Then(inserted, f.store) == SetJob(inserted, 0, linked, Finished(j));
      assert !f.store.Works? ==> Then(inserted, f.store) == Goto(inserted, 0, ConfirmUndo(j));
    }
    var released := ReleaseWrite(reserved);
    assert released == ReleaseWrite(s.jobs[j]) && s2.jobs[j := released] == s.jobs[j := released];
  }

  /** The compensation of a failed confirmation gives the row back as it was
      exactly when the row was CREATED and had no typed preference. */
  lemma ConfirmRestoresIff(s: State, j: JobId, w: Window, f: ConfirmFaults)
    requires s.sagas == [] && j in s.jobs && Settled(s, j) && w.start < w.end
    requires f.undo.Works? && s.next !in s.events
    requires f.reserve.Works? && s.jobs[j].window.None? && !Taken(s.jobs, j, w) && !(f.insert.Works? && f.store.Works?)
    ensures ConfirmSteps(s, j, w, f).jobs == s.jobs <==> s.jobs[j].status.Created? && s.jobs[j].text.None?
  {
    ConfirmEnds(s, j, w, f);
    var released := ReleaseWrite(s.jobs[j]);
    assert s.jobs[j := released][j] == released;
    assert released == s.jobs[j] ==> s.jobs[j := released] == s.jobs;
  }

  /** A reschedule ends exactly in the new state or exactly in the old one; it
      ends in the new one iff its writes worked, or only the audit write failed
      and the rollback patch failed after it. */
  lemma MoveEndsOldOrNew(s: State, j: JobId, w: Window, f: MoveFaults)
    requires s.sagas == [] && Booked(s.jobs) && j in s.jobs && Settled(s, j)
    requires Active(s.jobs[j]) && s.jobs[j].window != Some(w) && w.start < w.end
    requires !f.patch.FailsAfterEffect? && !f.rollback.FailsAfterEffect? && f.undo.Works?
    ensures var t := MoveSteps(s, j, w, f);
      var e := s.jobs[j].event.value;
      if f.reserve.Works? && !Taken(s.jobs, j, w) && f.patch.Works? && (f.audit.Works? || f.rollback.Fails?)
      then t.jobs == s.jobs[j := s.jobs[j].(window := Some(w), text := Some(Formatted(w)))]
        && t.events == s.events[e := s.events[e].(window := w)]
      else t.jobs == s.jobs && t.events == s.events
  {
    var row, e := s.jobs[j], s.jobs[j].event.value;
    var source, text := row.window.value, row.text;
    var s1 := s.(sagas := [MoveReserve(j, e, source, text, w)]);
    assert Step(s, BeginMove(j, w)) == s1;
    if !f.reserve.Works? || Taken(s.jobs, j, w) {
      assert Then(s1, f.reserve) == s.(sagas := [Finished(j)]);
    } else {
      var moved := MoveWrite(row, w, Some(Formatted(w)));
      var s2 := s.(jobs := s.jobs[j := moved], sagas := [MovePatch(j, e, source, text, w)]);
      assert Then(s1, f.reserve) == s2;
      MoveAfterReserve(s, j, w, f, s2);
    }
  }

  /** The database compensation of a reschedule gives the old rows back. */
  lemma UndoRestores(s: State, j: JobId, e: EventId, source: Window, text: Option<Text>, w: Window, outcome: Outcome,
      moved: map<JobId, Row>)
    requires Booked(s.jobs) && j in s.jobs && s.jobs[j].window == Some(source) && s.jobs[j].text == text
        && s.jobs[j].event == Some(e)
    requires moved == s.jobs[j := MoveWrite(s.jobs[j], w, Some(Formatted(w)))] && outcome.Works?
    ensures Then(s.(jobs := moved, sagas := [MoveUndo(j, e, source, text, w)]), outcome) == s.(sagas := [Finished(j)])
  {
    BackIsFree(s.jobs, j, moved[j]);
    assert moved[j := MoveWrite(moved[j], source, text)] == s.jobs;
  }

  lemma MoveAfterReserve(s: State, j: JobId, w: Window, f: MoveFaults, s2: State)
    requires s.sagas == [] && Booked(s.jobs) && j in s.jobs && Settled(s, j) && Active(s.jobs[j])
    requires !f.patch.FailsAfterEffect? && !f.rollback.FailsAfterEffect? && f.undo.Works?
    requires s2 == s.(jobs := s.jobs[j := MoveWrite(s.jobs[j], w, Some(Formatted(w)))],
                      sagas := [MovePatch(j, s.jobs[j].event.value, s.jobs[j].window.value, s.jobs[j].text, w)])
    ensures var t, e := AfterPatch(Then(s2, f.patch), f), s.jobs[j].event.value;
      if f.patch.Works? && (f.audit.Works? || f.rollback.Fails?)
      then t.jobs == s2.jobs && t.events == s.events[e := s.events[e].(window := w)]
      else t.jobs == s.jobs && t.events == s.events
  {
    var e, source, text := s.jobs[j].event.value, s.jobs[j].window.value, s.jobs[j].text;
    var undo := s2.(sagas := [MoveUndo(j, e, source, text, w)]);
    UndoRestores(s, j, e, source, text, w, f.undo, s2.jobs);
    if !f.patch.Works? {
      assert Then(s2, f.patch) == undo;
    } else {
      var patched := s2.(events := s.events[e := s.events[e].(window := w)],
          sagas := [MoveAudit(j, e, source, text, w)]);
      assert Then(s2, f.patch) == patched;
      if !f.audit.Works? {
        RollbackAfterAudit(s, j, e, source, text, w, f, patched);
        FinishedStays(patched.(sagas := [Finished(j)]), f.undo);
      }
    }
  }

  lemma RollbackAfterAudit(s: State, j: JobId, e: EventId, source: Window, text: Option<Text>, w: Window,
      f: MoveFaults, patched: State)
    requires j in s.jobs && j in patched.jobs && e in s.events && s.events[e].window == source
        && !f.rollback.FailsAfterEffect?
    requires patched.events == s.events[e := s.events[e].(window := w)]
    requires patched.sagas == [MoveAudit(j, e, source, text, w)] && !f.audit.Works?
    ensures Then(Then(patched, f.audit), f.rollback) ==
      if f.rollback.Works? then patched.(events := s.events, sagas := [MoveUndo(j, e, source, text, w)])
      else patched.(sagas := [Finished(j)])
  {
    var rolling := patched.(sagas := [MoveRollback(j, e, source, text, w)]);
    assert Then(patched, f.audit) == rolling;
    assert patched.events[e := patched.events[e].(window := source)] == s.events;
  }

  /** A cancellation removes row booking and event together, or leaves both; what
      it restores differs from what it found only by filling in a missing text. */
  lemma CancelEnds(s: State, j: JobId, f: CancelFaults)
    requires s.sagas == [] && Booked(s.jobs) && j in s.jobs && Settled(s, j) && Active(s.jobs[j])
    requires !f.delete.FailsAfterEffect? && f.undo.Works?
    ensures var t, row := CancelSteps(s, j, f), s.jobs[j];
      var text := if row.text.Some? then row.text else Some(Formatted(row.window.value));
      if f.reserve.Works? && f.delete.Works?
      then t.jobs == s.jobs[j := row.(status := Cancelled, event := None, window := None, text := text)]
          && t.events == s.events - {row.event.value}
      else t.events == s.events && t.jobs == if f.reserve.Works? then s.jobs[j := row.(text := text)] else s.jobs
  {
    var row := s.jobs[j];
    var e, source := row.event.value, row.window.value;
    var text := if row.text.Some? then row.text else Some(Formatted(source));
    var s1 := s.(sagas := [CancelReserve(j, e, source, text)]);
    assert Step(s, BeginCancel(j)) == s1;
    if f.reserve.Works? {
      var s2 := s.(jobs := s.jobs[j := CancelWrite(row, text)], sagas := [CancelDelete(j, e, source, text)]);
      assert Then(s1, f.reserve) == s2;
      CancelAfterReserve(s, j, text, f, s2);
    } else {
      var t := s.(sagas := [Finished(j)]);
      assert Then(s1, f.reserve) == t;
      FinishedStays(t, f.delete);
      FinishedStays(t, f.undo);
    }
  }

  lemma CancelAfterReserve(s: State, j: JobId, text: Option<Text>, f: CancelFaults, s2: State)
    requires Booked(s.jobs) && j in s.jobs && Settled(s, j) && Active(s.jobs[j])
    requires !f.delete.FailsAfterEffect? && f.undo.Works?
    requires var row := s.jobs[j];
      s2 == s.(jobs := s.jobs[j := CancelWrite(row, text)],
          sagas := [CancelDelete(j, row.event.value, row.window.value, text)])
    ensures var deleted, row := Then(s2, f.delete), s.jobs[j];
      if f.delete.Works? then deleted.jobs == s2.jobs && deleted.events == s.events - {row.event.value}
      else Then(deleted, f.undo).events == s.events && Then(deleted, f.undo).jobs == s.jobs[j := row.(text := text)]
  {
    var row := s.jobs[j];
    var e, source := row.event.value, row.window.value;
    if !f.delete.Works? {
      BackIsFree(s.jobs, j, s2.jobs[j]);
      assert Then(s2, f.delete) == s2.(sagas := [CancelUndo(j, e, source, text)]);
      assert s2.jobs[j := RestoreWrite(s2.jobs[j], e, source, text)] == s.jobs[j := row.(text := text)];
    }
  }

  // ----- what each call answers -----

  function ConfirmAnswer(jobs: map<JobId, Row>, j: JobId, w: Window, f: ConfirmFaults): Result {
    if j !in jobs || w.start >= w.end then Invalid
    else if jobs[j].status.Accepted? && jobs[j].window == Some(w) then Succeeded
    else if !f.reserve.Works? then Unavailable
    else if jobs[j].window.Some? || Taken(jobs, j, w) then Conflict
    else if f.insert.Works? && f.store.Works? then Succeeded
    else Unavailable
  }

  function MoveAnswer(jobs: map<JobId, Row>, events: map<EventId, Event>, j: JobId, w: Window, f: MoveFaults): Result {
    if j !in jobs then Invalid
    else if !Active(jobs[j]) then Conflict
    else if w.start >= w.end then Invalid
    else if jobs[j].window == Some(w) then Succeeded
    else if !f.reserve.Works? then Unavailable
    else if Taken(jobs, j, w) then Conflict
    else if f.patch.Works? && jobs[j].event.value in events && f.audit.Works? then Succeeded
    else Unavailable
  }

  function CancelAnswer(jobs: map<JobId, Row>, j: JobId, f: CancelFaults): Result {
    if j !in jobs then Invalid
    else if jobs[j].status.Cancelled? then Succeeded
    else if !Active(jobs[j]) then Conflict
    else if f.reserve.Works? && f.delete.Works? then Succeeded
    else Unavailable
  }

  /** A confirmation answers with success exactly when the job then holds the window,
      accepted and with an event. */
  lemma ConfirmAnswersTruly(s: State, j: JobId, w: Window, f: ConfirmFaults)
    requires s.sagas == [] && j in s.jobs && Settled(s, j) && w.start < w.end
    requires f.undo.Works? && s.next !in s.events
    ensures var t := ConfirmSteps(s, j, w, f);
      j in t.jobs && (ConfirmAnswer(s.jobs, j, w, f).Succeeded? <==>
        t.jobs[j].status.Accepted? && t.jobs[j].window == Some(w) && t.jobs[j].event.Some?)
  {
    if s.jobs[j].status.Accepted? && s.jobs[j].window == Some(w) {
      NothingBegins(s, j, w, f);
    } else {
      ConfirmEnds(s, j, w, f);
    }
  }

  lemma NothingBegins(s: State, j: JobId, w: Window, f: ConfirmFaults)
    requires s.sagas == [] && j in s.jobs && s.jobs[j].status.Accepted? && s.jobs[j].window == Some(w)
    ensures ConfirmSteps(s, j, w, f) == s
  {
  }

  /** A reschedule that answers with success has moved row and calendar; one that
      answers with a failure has left both, except in exactly one case: the audit write
      failed and then the rollback patch failed. The customer is told that the original
      time is still reserved, and row and calendar both have the new one. */
  lemma MoveAnswersTrulyBut(s: State, j: JobId, w: Window, f: MoveFaults)
    requires s.sagas == [] && Booked(s.jobs) && j in s.jobs && Settled(s, j)
    requires Active(s.jobs[j]) && s.jobs[j].window != Some(w) && w.start < w.end
    requires !f.patch.FailsAfterEffect? && !f.rollback.FailsAfterEffect? && f.undo.Works?
    ensures var t, answer, e := MoveSteps(s, j, w, f), MoveAnswer(s.jobs, s.events, j, w, f), s.jobs[j].event.value;
      var moved := t.jobs != s.jobs || t.events != s.events;
      && (moved ==> j in t.jobs && Shows(t, j, e, w, w))
      && (answer.Succeeded? ==> moved)
      && (moved && !answer.Succeeded? <==>
            answer.Unavailable? && f.reserve.Works? && !Taken(s.jobs, j, w)
            && f.patch.Works? && !f.audit.Works? && f.rollback.Fails?)
  {
    MoveEndsOldOrNew(s, j, w, f);
    var row := MoveWrite(s.jobs[j], w, Some(Formatted(w)));
    assert s.jobs[j := row][j] == row && row.window != s.jobs[j].window;
  }

  /** A confirmation that does not get its reservation changes nothing. */
  lemma ConfirmRefused(s: State, j: JobId, w: Window, f: ConfirmFaults)
    requires s.sagas == [] && j in s.jobs && w.start < w.end
    requires !(s.jobs[j].status.Accepted? && s.jobs[j].window == Some(w))
    requires !f.reserve.Works? || s.jobs[j].window.Some? || Taken(s.jobs, j, w)
    ensures ConfirmSteps(s, j, w, f) == s.(sagas := [Finished(j)])
  {
    var begun, t := s.(sagas := [ConfirmReserve(j, w)]), s.(sagas := [Finished(j)]);
    assert Step(s, BeginConfirm(j, w)) == begun;
    assert Then(begun, f.reserve) == t;
    FinishedStays(t, f.insert);
    FinishedStays(t, f.store);
    FinishedStays(t, f.undo);
  }

  lemma ConfirmReserved(s: State, j: JobId, w: Window, f: ConfirmFaults)
    requires s.sagas == [] && j in s.jobs && w.start < w.end
    requires f.reserve.Works? && s.jobs[j].window.None? && !Taken(s.jobs, j, w)
    ensures Then(Step(s, BeginConfirm(j, w)), f.reserve)
         == s.(jobs := s.jobs[j := ReserveWrite(s.jobs[j], w)], sagas := [ConfirmInsert(j, w)])
  {
    assert Step(s, BeginConfirm(j, w)) == s.(sagas := [ConfirmReserve(j, w)]);
  }

  // ----- the service object -----

  class Scheduling {
    var jobs: map<JobId, Row>
    var events: map<EventId, Event>
    var next: EventId

    constructor (jobs: map<JobId, Row>)
      ensures this.jobs == jobs && events == map[] && next == 0
    {
      this.jobs, events, next := jobs, map[], 0;
    }

    ghost function Store(): State
      reads this
    {
      State(jobs, events, [], next, map[], {}, {})
    }

    ghost predicate Matches(s: State)
      reads this
    {
      jobs == s.jobs && events == s.events && next == s.next
    }

    method InsertEvent(j: JobId, w: Window, outcome: Outcome) returns (id: Option<EventId>)
      modifies this`events, this`next
      ensures id == if outcome.Works? then Some(old(next)) else None
      ensures outcome.Fails? ==> events == old(events) && next == old(next)
      ensures !outcome.Fails? ==> events == old(events)[old(next) := Event(j, w)] && next == old(next) + 1
    {
      if outcome.Fails? {
        return None;
      }
      id := if outcome.Works? then Some(next) else None;
      events, next := events[next := Event(j, w)], next + 1;
    }

    method PatchEvent(e: EventId, w: Window, outcome: Outcome) returns (ok: bool)
      modifies this`events
      ensures ok <==> outcome.Works? && e in old(events)
      ensures events == if outcome.Fails? || e !in old(events) then old(events)
                        else old(events)[e := old(events)[e].(window := w)]
    {
      if outcome.Fails? || e !in events {
        return false;
      }
      events := events[e := events[e].(window := w)];
      return outcome.Works?;
    }

    method ConfirmAppointment(j: JobId, w: Window, f: ConfirmFaults) returns (r: Result)
      modifies this
      ensures Matches(ConfirmSteps(old(Store()), j, w, f))
      ensures r == ConfirmAnswer(old(jobs), j, w, f)
      ensures r.Succeeded? && j in old(jobs) && old(jobs)[j].window.None? ==>
        j in jobs && jobs[j].window == Some(w) && jobs[j].event == Some(old(next))
    {
      if j !in jobs || w.start >= w.end {
        return Invalid;
      }
      if jobs[j].status.Accepted? && jobs[j].window == Some(w) {
        return Succeeded;
      }
      if !f.reserve.Works? {
        ConfirmRefused(Store(), j, w, f);
        return Unavailable;
      }
      if jobs[j].window.Some? || Taken(jobs, j, w) {
        ConfirmRefused(Store(), j, w, f);
        return Conflict;
      }
      ConfirmReserved(Store(), j, w, f);
      ghost var s2 := Then(Step(Store(), BeginConfirm(j, w)), f.reserve);
      jobs := jobs[j := ReserveWrite(jobs[j], w)];
      var id := InsertEvent(j, w, f.insert);
      r := StoreOrUndo(Then(s2, f.insert), j, w, id, f);
    }

    /** The rest of the try block, and the catch block. */
    method StoreOrUndo(ghost s: State, j: JobId, w: Window, id: Option<EventId>, f: ConfirmFaults) returns (r: Result)
      requires Matches(s) && j in jobs && (id.Some? <==> f.insert.Works?)
      requires s.sagas == [if id.Some? then ConfirmStore(j, w, id.value) else ConfirmUndo(j)]
      modifies this`jobs
      ensures Matches(if !f.insert.Works? then Then(s, f.undo)
                      else if f.store.Works? then Then(s, f.store)
                      else Then(Then(s, f.store), f.undo))
      ensures r == if id.Some? && f.store.Works? then Succeeded else Unavailable
      ensures r.Succeeded? ==> jobs == old(jobs)[j := old(jobs)[j].(event := id)]
    {
      ghost var t := s;
      if id.Some? {
        if f.store.Works? {
          jobs := jobs[j := jobs[j].(event := id)];
          return Succeeded;
        }
        t := Then(s, f.store);
        assert t == s.(sagas := [ConfirmUndo(j)]);
      }
      if f.undo.Works? && jobs[j].event.None? {
        jobs := jobs[j := ReleaseWrite(jobs[j])];
      }
      return Unavailable;
    }

    method ReserveMove(ghost s: State, j: JobId, w: Window, outcome: Outcome) returns (reserved: bool)
      requires Matches(s) && |s.sagas| == 1 && s.sagas[0].MoveReserve? && s.sagas[0].job == j && s.sagas[0].target == w
      requires j in jobs && Unchanged(jobs[j], s.sagas[0].event, s.sagas[0].source)
      modifies this`jobs
      ensures Matches(Then(s, outcome))
      ensures reserved <==> outcome.Works? && !Taken(old(jobs), j, w)
      ensures reserved ==> jobs == old(jobs)[j := MoveWrite(old(jobs)[j], w, Some(Formatted(w)))]
    {
      reserved := outcome.Works? && !Taken(jobs, j, w);
      if reserved {
        jobs := jobs[j := MoveWrite(jobs[j], w, Some(Formatted(w)))];
      }
    }

    method UndoMove(ghost s: State, j: JobId, e: EventId, source: Window, text: Option<Text>, w: Window,
        outcome: Outcome)
      requires Matches(s) && s.sagas == [MoveUndo(j, e, source, text, w)]
      modifies this`jobs
      ensures Matches(Then(s, outcome))
    {
      if j in jobs && outcome.Works? && jobs[j].event == Some(e) && jobs[j].window == Some(w)
          && !Taken(jobs, j, source) {
        jobs := jobs[j := MoveWrite(jobs[j], source, text)];
      }
    }

    method PatchMove(ghost s: State, e: EventId, w: Window, outcome: Outcome) returns (ok: bool)
      requires Matches(s) && |s.sagas| == 1 && s.sagas[0].job in jobs && IsMove(s.sagas[0]) && s.sagas[0].event == e
      requires (s.sagas[0].MovePatch? && w == s.sagas[0].target) || (s.sagas[0].MoveRollback? && w == s.sagas[0].source)
      modifies this`events
      ensures Matches(Then(s, outcome))
      ensures ok <==> outcome.Works? && e in old(events)
    {
      ok := PatchEvent(e, w, outcome);
    }

    method RescheduleAppointment(j: JobId, w: Window, f: MoveFaults) returns (r: Result)
      modifies this
      ensures Matches(MoveSteps(old(Store()), j, w, f))
      ensures r == MoveAnswer(old(jobs), old(events), j, w, f)
      ensures r.Succeeded? ==> j in jobs && jobs[j].window == Some(w)
    {
      if j !in jobs {
        return Invalid;
      }
      if !Active(jobs[j]) {
        return Conflict;
      }
      if w.start >= w.end {
        return Invalid;
      }
      if jobs[j].window == Some(w) {
        return Succeeded;
      }
      var e, source, text := jobs[j].event.value, jobs[j].window.value, jobs[j].text;
      ghost var s1 := Step(Store(), BeginMove(j, w));
      assert s1 == Store().(sagas := [MoveReserve(j, e, source, text, w)]);
      var reservationChanged := ReserveMove(s1, j, w, f.reserve);
      ghost var s2 := Then(s1, f.reserve);
      if !reservationChanged {
        assert s2.sagas == [Finished(j)];
        return if f.reserve.Works? then Conflict else Unavailable;
      }
      assert s2.sagas == [MovePatch(j, e, source, text, w)];
      var calendarChanged := PatchMove(s2, e, w, f.patch);
      r := AuditOrUndo(Then(s2, f.patch), j, e, source, text, w, calendarChanged, f);
    }

    /** The rest of the try block, and the catch block. */
    method AuditOrUndo(ghost s: State, j: JobId, e: EventId, source: Window, text: Option<Text>, w: Window,
                       calendarChanged: bool, f: MoveFaults) returns (r: Result)
      requires Matches(s) && j in jobs && jobs[j].window == Some(w)
      requires s.sagas == [if calendarChanged then MoveAudit(j, e, source, text, w)
          else MoveUndo(j, e, source, text, w)]
      modifies this
      ensures Matches(AfterPatch(s, f))
      ensures r.Succeeded? ==> j in jobs && jobs[j].window == Some(w)
      ensures r == if calendarChanged && f.audit.Works? then Succeeded else Unavailable
    {
      var calendarRestored := !calendarChanged;
      ghost var t := s;
      if calendarChanged {
        t := Then(s, f.audit);
        if f.audit.Works? {
          assert t == s.(sagas := [Finished(j)]);
          return Succeeded;
        }
        assert t == s.(sagas := [MoveRollback(j, e, source, text, w)]);
        calendarRestored := PatchMove(t, e, source, f.rollback);
        t := Then(t, f.rollback);
      }
      if calendarRestored {
        assert t.sagas == [MoveUndo(j, e, source, text, w)];
        UndoMove(t, j, e, source, text, w, f.undo);
      }
      return Unavailable;
    }

    method RestoreCancelled(ghost s: State, j: JobId, e: EventId, source: Window, text: Option<Text>, outcome: Outcome)
      requires Matches(s) && s.sagas == [CancelUndo(j, e, source, text)]
      modifies this`jobs
      ensures Matches(Then(s, outcome))
    {
      if j in jobs && outcome.Works? && jobs[j].status.Cancelled? && jobs[j].event.None? && !Taken(jobs, j, source) {
        jobs := jobs[j := RestoreWrite(jobs[j], e, source, text)];
      }
    }

    method DeleteEvent(ghost s: State, e: EventId, outcome: Outcome) returns (ok: bool)
      requires Matches(s) && |s.sagas| == 1 && s.sagas[0].CancelDelete? && s.sagas[0].event == e
          && s.sagas[0].job in jobs
      modifies this`events
      ensures Matches(Then(s, outcome))
      ensures ok <==> outcome.Works?
    {
      if !outcome.Fails? {
        events := events - {e};
      }
      return outcome.Works?;
    }

    method CancelAppointment(j: JobId, f: CancelFaults) returns (r: Result)
      modifies this
      ensures Matches(CancelSteps(old(Store()), j, f))
      ensures r == CancelAnswer(old(jobs), j, f)
      ensures r.Succeeded? ==> j in jobs && jobs[j].status.Cancelled?
    {
      if j !in jobs {
        return Invalid;
      }
      if jobs[j].status.Cancelled? {
        return Succeeded;
      }
      if !Active(jobs[j]) {
        return Conflict;
      }
      var e, source := jobs[j].event.value, jobs[j].window.value;
      var text := if jobs[j].text.Some? then jobs[j].text else Some(Formatted(source));
      ghost var s1 := Step(Store(), BeginCancel(j));
      assert s1 == Store().(sagas := [CancelReserve(j, e, source, text)]);
      ghost var s2 := Then(s1, f.reserve);
      if !f.reserve.Works? {
        assert s2 == s1.(sagas := [Finished(j)]);
        return Unavailable;
      }
      jobs := jobs[j := CancelWrite(jobs[j], text)];
      assert s2 == s1.(jobs := jobs, sagas := [CancelDelete(j, e, source, text)]);
      r := DeleteOrRestore(s2, j, e, source, text, f);
    }

    /** The rest of the try block, and the catch block. */
    method DeleteOrRestore(ghost s: State, j: JobId, e: EventId, source: Window, text: Option<Text>, f: CancelFaults)
        returns (r: Result)
      requires Matches(s) && j in jobs && jobs[j].status.Cancelled? && s.sagas == [CancelDelete(j, e, source, text)]
      modifies this
      ensures Matches(if f.delete.Works? then Then(s, f.delete) else Then(Then(s, f.delete), f.undo))
      ensures r == if f.delete.Works? then Succeeded else Unavailable
      ensures r.Succeeded? ==> j in jobs && jobs[j].status.Cancelled?
    {
      var deleted := DeleteEvent(s, e, f.delete);
      if deleted {
        return Succeeded;
      }
      ghost var t := Then(s, f.delete);
      assert t.sagas == [CancelUndo(j, e, source, text)];
      RestoreCancelled(t, j, e, source, text, f.undo);
      return Unavailable;
    }
  }
}
