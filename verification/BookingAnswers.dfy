/** src/scheduling/scheduling.service.ts: what each booking call answers, said from the
    rows, the requested window and the faults alone, and what it has done by then. */
module BookingAnswers {
  import opened Common
  import opened CalendarSagas
  import opened SagaOutcomes
  import opened SchedulingStore

  /** Another job of the same tenant has the window. */
  ghost predicate HasRival(jobs: map<JobId, Row>, j: JobId, w: Window)
    requires j in jobs
  {
    exists k <- jobs :: k != j && jobs[k].tenant == jobs[j].tenant && jobs[k].window == Some(w)
  }

  /** An accepted job with an event and a window. */
  predicate HasBooking(row: Row) {
    row.status == Accepted && row.event != None && row.window != None
  }

  // ----- cancel -----

  /** For every row and every pattern of faults. */
  lemma CancelAnswers(jobs: map<JobId, Row>, j: JobId, f: CancelFaults)
    ensures var answer := CancelAnswer(jobs, j, f);
      && (answer == Invalid <==> j !in jobs)
      && (answer == Conflict <==> j in jobs && jobs[j].status != Cancelled && !HasBooking(jobs[j]))
      && (answer == Unavailable <==> j in jobs && HasBooking(jobs[j]) && !(f.reserve == Works && f.delete == Works))
      && (answer == Succeeded <==>
            j in jobs && (jobs[j].status == Cancelled
                || (HasBooking(jobs[j]) && f.reserve == Works && f.delete == Works)))
  {
  }

  /** A cancellation that is not booked to begin with changes nothing. */
  lemma CancelOfUnbooked(s: State, j: JobId, f: CancelFaults)
    requires s.sagas == [] && (j in s.jobs ==> !HasBooking(s.jobs[j]))
    ensures CancelSteps(s, j, f) == s
  {
  }

  /** Whatever the row and the faults, the job is CANCELLED afterwards exactly when the
      call answers with success, or its event could not be deleted and neither could its
      booking be restored. */
  lemma CancelAnswersTruly(s: State, j: JobId, f: CancelFaults)
    requires s.sagas == [] && Booked(s.jobs) && j in s.jobs
    ensures var t := CancelSteps(s, j, f);
      j in t.jobs && (t.jobs[j].status == Cancelled <==>
        CancelAnswer(s.jobs, j, f) == Succeeded
        || (HasBooking(s.jobs[j]) && f.reserve == Works && f.delete != Works && f.undo != Works))
  {
    if !HasBooking(s.jobs[j]) {
      CancelOfUnbooked(s, j, f);
    } else {
      CancelOfBooked(s, j, f);
    }
  }

  lemma CancelOfBooked(s: State, j: JobId, f: CancelFaults)
    requires s.sagas == [] && Booked(s.jobs) && j in s.jobs && HasBooking(s.jobs[j])
    ensures var t := CancelSteps(s, j, f);
      j in t.jobs && (t.jobs[j].status == Cancelled <==> f.reserve == Works && (f.delete == Works || f.undo != Works))
  {
    var row := s.jobs[j];
    var e, source := row.event.value, row.window.value;
    var text := if row.text.Some? then row.text else Some(Formatted(source));
    var begun, done := s.(sagas := [CancelReserve(j, e, source, text)]), s.(sagas := [Finished(j)]);
    assert Step(s, BeginCancel(j)) == begun;
    if f.reserve.Works? {
      var removed := s.(jobs := s.jobs[j := CancelWrite(row, text)], sagas := [CancelDelete(j, e, source, text)]);
      assert Then(begun, f.reserve) == removed;
      BackIsFree(s.jobs, j, removed.jobs[j]);
      CancelOfRemoved(removed, j, e, source, text, f);
    } else {
      assert Then(begun, f.reserve) == done;
      FinishedStays(done, f.delete);
      FinishedStays(done, f.undo);
    }
  }

  lemma CancelOfRemoved(s: State, j: JobId, e: EventId, source: Window, text: Option<Text>, f: CancelFaults)
    requires s.sagas == [CancelDelete(j, e, source, text)] && j in s.jobs && !Taken(s.jobs, j, source)
    requires s.jobs[j].status == Cancelled && s.jobs[j].event == None
    ensures var deleted := Then(s, f.delete);
      var t := if f.delete == Works then deleted else Then(deleted, f.undo);
      j in t.jobs && (t.jobs[j].status == Cancelled <==> f.delete == Works || f.undo != Works)
  {
    if f.delete != Works {
      var deleted := Then(s, f.delete);
      assert deleted.jobs == s.jobs && deleted.sagas == [CancelUndo(j, e, source, text)];
    }
  }

  // ----- confirm -----

  lemma ConfirmAnswers(jobs: map<JobId, Row>, j: JobId, w: Window, f: ConfirmFaults)
    ensures var answer := ConfirmAnswer(jobs, j, w, f);
      if j !in jobs || w.end <= w.start then answer == Invalid
      else if jobs[j].status == Accepted && jobs[j].window == Some(w) then answer == Succeeded
      else
        && answer != Invalid
        && (answer == Conflict <==> f.reserve == Works && (jobs[j].window != None || HasRival(jobs, j, w)))
        && (answer == Unavailable <==>
              f.reserve != Works
              || (jobs[j].window == None && !HasRival(jobs, j, w) && !(f.insert == Works && f.store == Works)))
        && (answer == Succeeded <==>
              f.reserve == Works && f.insert == Works && f.store == Works
              && jobs[j].window == None && !HasRival(jobs, j, w))
  {
  }

  /** An invalid request and a conflict leave rows and calendar as they were; so does
      confirming once more what is confirmed. */
  lemma RefusedConfirmChangesNothing(s: State, j: JobId, w: Window, f: ConfirmFaults)
    requires s.sagas == []
    requires var answer := ConfirmAnswer(s.jobs, j, w, f);
      answer == Invalid || answer == Conflict || (j in s.jobs && s.jobs[j].status == Accepted
          && s.jobs[j].window == Some(w))
    ensures var t := ConfirmSteps(s, j, w, f);
      t.jobs == s.jobs && t.events == s.events && t.next == s.next
  {
    if j in s.jobs && w.start < w.end && !(s.jobs[j].status.Accepted? && s.jobs[j].window == Some(w)) {
      ConfirmRefused(s, j, w, f);
    }
  }

  // ----- reschedule -----

  lemma MoveAnswers(jobs: map<JobId, Row>, events: map<EventId, Event>, j: JobId, w: Window, f: MoveFaults)
    ensures var answer := MoveAnswer(jobs, events, j, w, f);
      if j !in jobs then answer == Invalid
      else if !HasBooking(jobs[j]) then answer == Conflict
      else if w.end <= w.start then answer == Invalid
      else if jobs[j].window == Some(w) then answer == Succeeded
      else
        && answer != Invalid
        && (answer == Conflict <==> f.reserve == Works && HasRival(jobs, j, w))
        && (answer == Succeeded <==>
              f.reserve == Works && !HasRival(jobs, j, w) && f.patch == Works && f.audit == Works
              && jobs[j].event.value in events)
        && (answer == Unavailable <==>
              f.reserve != Works
              || (!HasRival(jobs, j, w) && !(f.patch == Works && f.audit == Works && jobs[j].event.value in events)))
  {
  }

  lemma RefusedMoveChangesNothing(s: State, j: JobId, w: Window, f: MoveFaults)
    requires s.sagas == []
    requires var answer := MoveAnswer(s.jobs, s.events, j, w, f);
      answer == Invalid || answer == Conflict || (j in s.jobs && HasBooking(s.jobs[j]) && s.jobs[j].window == Some(w))
    ensures var t := MoveSteps(s, j, w, f);
      t.jobs == s.jobs && t.events == s.events
  {
    if j in s.jobs && HasBooking(s.jobs[j]) && w.start < w.end && s.jobs[j].window != Some(w) {
      var row := s.jobs[j];
      var begun := s.(sagas := [MoveReserve(j, row.event.value, row.window.value, row.text, w)]);
      assert Step(s, BeginMove(j, w)) == begun;
      var done := s.(sagas := [Finished(j)]);
      assert Then(begun, f.reserve) == done;
      FinishedStays(done, f.patch);
      FinishedStays(done, f.undo);
    } else {
      assert Step(s, BeginMove(j, w)) == s;
    }
  }
}
