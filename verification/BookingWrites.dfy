/** src/scheduling/scheduling.service.ts: each write to a job row and each calendar call
    of the three sagas, in whatever state it finds the system: when it takes effect, and
    what is then different. */
module BookingWrites {
  import opened Common
  import opened CalendarSagas
  import opened BookingAnswers

  predicate Stands(s: State, i: nat) {
    i < |s.sagas| && s.sagas[i].job in s.jobs
  }

  // ----- reservations -----

  /** A confirmation reserves any row without a window, whatever its status. */
  lemma ConfirmReserves(s: State, i: nat, outcome: Outcome)
    requires Stands(s, i) && s.sagas[i].ConfirmReserve?
    ensures var j, w, t := s.sagas[i].job, s.sagas[i].window, Step(s, Advance(i, outcome));
      && t.events == s.events
      && if outcome == Works && s.jobs[j].window == None && !HasRival(s.jobs, j, w)
         then t.sagas[i] == ConfirmInsert(j, w)
           && t.jobs == s.jobs[j := s.jobs[j].(status := Accepted, window := Some(w), text := Some(Formatted(w)))]
         else t.sagas[i] == Finished(j) && t.jobs == s.jobs
  {
  }

  /** A reschedule and a cancellation need the row they read: accepted, with its event
      and its window. */
  predicate AsRead(row: Row, event: EventId, window: Window) {
    row.status == Accepted && row.event == Some(event) && row.window == Some(window)
  }

  lemma MoveReserves(s: State, i: nat, outcome: Outcome)
    requires Stands(s, i) && s.sagas[i].MoveReserve?
    ensures var m, t := s.sagas[i], Step(s, Advance(i, outcome));
      && t.events == s.events
      && if outcome == Works && AsRead(s.jobs[m.job], m.event, m.source) && !HasRival(s.jobs, m.job, m.target)
         then t.sagas[i] == MovePatch(m.job, m.event, m.source, m.sourceText, m.target)
           && t.jobs == s.jobs[m.job := s.jobs[m.job].(window := Some(m.target), text := Some(Formatted(m.target)))]
         else t.sagas[i] == Finished(m.job) && t.jobs == s.jobs
  {
  }

  lemma CancelReserves(s: State, i: nat, outcome: Outcome)
    requires Stands(s, i) && s.sagas[i].CancelReserve?
    ensures var c, t := s.sagas[i], Step(s, Advance(i, outcome));
      && t.events == s.events
      && if outcome == Works && AsRead(s.jobs[c.job], c.event, c.source)
         then t.sagas[i] == CancelDelete(c.job, c.event, c.source, c.text)
           && t.jobs == s.jobs[c.job := s.jobs[c.job].(status := Cancelled, event := None, window := None,
               text := c.text)]
         else t.sagas[i] == Finished(c.job) && t.jobs == s.jobs
  {
  }

  // ----- compensations -----

  /** The undo of a confirmation spares a row that has an event. */
  lemma ConfirmUndoes(s: State, i: nat, outcome: Outcome)
    requires Stands(s, i) && s.sagas[i].ConfirmUndo?
    ensures var j, t := s.sagas[i].job, Step(s, Advance(i, outcome));
      && t.events == s.events && t.sagas[i] == Finished(j)
      && t.jobs == if outcome == Works && s.jobs[j].event == None
                   then s.jobs[j := s.jobs[j].(status := Created, window := None, text := None)] else s.jobs
  {
  }

  /** The undo of a reschedule writes only over its own window and event, and not against
      the unique index; it leaves the status alone. */
  lemma MoveUndoes(s: State, i: nat, outcome: Outcome)
    requires Stands(s, i) && s.sagas[i].MoveUndo?
    ensures var m, t := s.sagas[i], Step(s, Advance(i, outcome));
      var row := s.jobs[m.job];
      && t.events == s.events && t.sagas[i] == Finished(m.job)
      && t.jobs == if outcome == Works && row.event == Some(m.event) && row.window == Some(m.target)
                      && !HasRival(s.jobs, m.job, m.source)
                   then s.jobs[m.job := row.(window := Some(m.source), text := m.sourceText)] else s.jobs
  {
  }

  /** The undo of a cancellation writes only over a job that is still cancelled. */
  lemma CancelUndoes(s: State, i: nat, outcome: Outcome)
    requires Stands(s, i) && s.sagas[i].CancelUndo?
    ensures var c, t := s.sagas[i], Step(s, Advance(i, outcome));
      var row := s.jobs[c.job];
      && t.events == s.events && t.sagas[i] == Finished(c.job)
      && t.jobs == if outcome == Works && row.status == Cancelled && row.event == None
                      && !HasRival(s.jobs, c.job, c.source)
                   then s.jobs[c.job := row.(status := Accepted, event := Some(c.event), window := Some(c.source),
                       text := c.text)]
                   else s.jobs
  {
  }

  // ----- where each call goes next -----

  /** After an insertion, a store, a patch, an audit, a rollback and a deletion. */
  lemma NextAfter(s: State, i: nat, outcome: Outcome)
    requires Stands(s, i)
    ensures var saga, next := s.sagas[i], Step(s, Advance(i, outcome)).sagas[i];
      match saga
      case ConfirmInsert(j, w) => next == if outcome == Works then ConfirmStore(j, w, s.next) else ConfirmUndo(j)
      case ConfirmStore(j, _, _) => next == if outcome == Works then Finished(j) else ConfirmUndo(j)
      case MovePatch(j, e, source, text, w) =>
        next == if outcome == Works && e in s.events then MoveAudit(j, e, source, text, w)
                else MoveUndo(j, e, source, text, w)
      case MoveAudit(j, e, source, text, w) =>
        next == if outcome == Works then Finished(j) else MoveRollback(j, e, source, text, w)
      case MoveRollback(j, e, source, text, w) =>
        next == if outcome == Works && e in s.events then MoveUndo(j, e, source, text, w) else Finished(j)
      case CancelDelete(j, e, source, text) =>
        next == if outcome == Works then Finished(j) else CancelUndo(j, e, source, text)
      case _ => true
  {
  }

  /** What these steps write: the store the event, the calendar calls an event each. */
  lemma CalendarWrites(s: State, i: nat, outcome: Outcome)
    requires Stands(s, i)
    ensures var saga, t := s.sagas[i], Step(s, Advance(i, outcome));
      match saga
      case ConfirmInsert(j, w) =>
        t.jobs == s.jobs && t.events == if outcome == Fails then s.events else s.events[s.next := Event(j, w)]
      case ConfirmStore(j, _, e) =>
        t.events == s.events && t.jobs == if outcome == Works then s.jobs[j := s.jobs[j].(event := Some(e))] else s.jobs
      case MovePatch(_, e, _, _, w) =>
        t.jobs == s.jobs
        && t.events == if outcome == Fails || e !in s.events then s.events else s.events[e := s.events[e].(window := w)]
      case MoveAudit(_, _, _, _, _) => t.jobs == s.jobs && t.events == s.events
      case MoveRollback(_, e, source, _, _) =>
        t.jobs == s.jobs
        && t.events == if outcome == Fails || e !in s.events then s.events
                       else s.events[e := s.events[e].(window := source)]
      case CancelDelete(_, e, _, _) =>
        t.jobs == s.jobs && t.events == if outcome == Fails then s.events else s.events - {e}
      case _ => true
  {
  }
}
