/** src/scheduling/scheduling.service.ts: two reschedules of one job under way at once,
    which nothing in the code prevents. */
module SagaRaces {
  import opened Common
  import opened CalendarSagas
  import opened SagaOutcomes

  /** One job, booked in window home under event 0. */
  function Home(home: Window): State {
    State(map[0 := Row(0, Accepted, Some(home), Some(0), None)], map[0 := Event(0, home)], [], 1, map[0 := 0], {}, {})
  }

  function At(home: Window, row: Window, calendar: Window, sagas: seq<Saga>): State {
    Home(home).(
      jobs := map[0 := Row(0, Accepted, Some(row), Some(0), Some(Formatted(row)))],
      events := map[0 := Event(0, calendar)],
      sagas := sagas)
  }

  lemma FirstReserves(home: Window, first: Window)
    requires first.start < first.end && first != home
    ensures Step(Step(Home(home), BeginMove(0, first)), Advance(0, Works))
         == At(home, first, home, [MovePatch(0, 0, home, None, first)])
  {
    var s := Home(home);
    assert Step(s, BeginMove(0, first)) == s.(sagas := [MoveReserve(0, 0, home, None, first)]);
  }

  lemma SecondReserves(home: Window, first: Window, second: Window, saga: Saga)
    requires second.start < second.end && second != first
    ensures Step(Step(At(home, first, home, [saga]), BeginMove(0, second)), Advance(1, Works))
         == At(home, second, home, [saga, MovePatch(0, 0, first, Some(Formatted(first)), second)])
  {
    var s := At(home, first, home, [saga]);
    assert Step(s, BeginMove(0, second)) == s.(sagas := [saga,
        MoveReserve(0, 0, first, Some(Formatted(first)), second)]);
  }

  lemma PatchesAndAudits(home: Window, row: Window, calendar: Window, sagas: seq<Saga>, i: nat)
    requires i < |sagas| && sagas[i].MovePatch? && sagas[i].job == 0 && sagas[i].event == 0
    ensures Step(Step(At(home, row, calendar, sagas), Advance(i, Works)), Advance(i, Works))
         == At(home, row, sagas[i].target, sagas[i := Finished(0)])
  {
    var s, m := At(home, row, calendar, sagas), sagas[i];
    var audit := MoveAudit(0, 0, m.source, m.sourceText, m.target);
    assert Step(s, Advance(i, Works)) == At(home, row, m.target, sagas[i := audit]);
    assert sagas[i := audit][i := Finished(0)] == sagas[i := Finished(0)];
  }

  /** One saga at a time is needed: of two reschedules of one job, both succeeding,
      the row can keep the second window and the calendar the first. */
  lemma RacingMovesDisagree(home: Window, first: Window, second: Window)
    requires first.start < first.end && second.start < second.end
    requires first != second && first != home && second != home
    ensures var reserved := Step(Step(Home(home), BeginMove(0, first)), Advance(0, Works));
      var moved := Step(Step(reserved, BeginMove(0, second)), Advance(1, Works));
      var audited := Step(Step(moved, Advance(1, Works)), Advance(1, Works));
      var t := Step(Step(audited, Advance(0, Works)), Advance(0, Works));
      !Busy(t, 0) && 0 in t.jobs && t.blurred == {} && Shows(t, 0, 0, second, first)
  {
    var one, two := MovePatch(0, 0, home, None, first), MovePatch(0, 0, first, Some(Formatted(first)), second);
    FirstReserves(home, first);
    SecondReserves(home, first, second, one);
    PatchesAndAudits(home, second, home, [one, two], 1);
    assert [one, two][1 := Finished(0)] == [one, Finished(0)];
    PatchesAndAudits(home, second, second, [one, Finished(0)], 0);
  }

  // ----- every order of two successful moves -----

  /** A move after n of its last two turns, the patch and the audit. */
  function After(move: Saga, n: nat): Saga
    requires move.MovePatch?
  {
    if n == 0 then move
    else if n == 1 then MoveAudit(move.job, move.event, move.source, move.sourceText, move.target)
    else Finished(move.job)
  }

  /** Both moves have reserved, `one` first, and have taken a and b turns since. */
  function Racing(home: Window, first: Window, second: Window, a: nat, b: nat, calendar: Window): State {
    var one, two := MovePatch(0, 0, home, None, first), MovePatch(0, 0, first, Some(Formatted(first)), second);
    At(home, second, calendar, [After(one, a), After(two, b)])
  }

  function Taking(turns: seq<bool>): seq<Action> {
    if turns == [] then [] else [Advance(if turns[0] then 1 else 0, Works)] + Taking(turns[1..])
  }

  /** The window of the last patch among the turns, where true stands for the second move. */
  function LastPatch(first: Window, second: Window, a: nat, b: nat, calendar: Window, turns: seq<bool>): Window
    decreases |turns|
  {
    if turns == [] then calendar
    else if turns[0] then LastPatch(first, second, a, b + 1, if b == 0 then second else calendar, turns[1..])
    else LastPatch(first, second, a + 1, b, if a == 0 then first else calendar, turns[1..])
  }

  function CountOf(turns: seq<bool>, x: bool): nat {
    if turns == [] then 0 else (if turns[0] == x then 1 else 0) + CountOf(turns[1..], x)
  }

  /** Where the first x stands, or the length. */
  function FirstOf(turns: seq<bool>, x: bool): nat {
    if turns == [] || turns[0] == x then 0 else 1 + FirstOf(turns[1..], x)
  }

  lemma OneTurn(home: Window, first: Window, second: Window, a: nat, b: nat, calendar: Window, x: bool)
    ensures Step(Racing(home, first, second, a, b, calendar), Advance(if x then 1 else 0, Works))
         == if x then Racing(home, first, second, a, b + 1, if b == 0 then second else calendar)
            else Racing(home, first, second, a + 1, b, if a == 0 then first else calendar)
  {
    var s := Racing(home, first, second, a, b, calendar);
    var one, two := MovePatch(0, 0, home, None, first), MovePatch(0, 0, first, Some(Formatted(first)), second);
    assert s.sagas[0 := After(one, a + 1)] == [After(one, a + 1), After(two, b)];
    assert s.sagas[1 := After(two, b + 1)] == [After(one, a), After(two, b + 1)];
    assert s.events[0 := s.events[0].(window := first)] == map[0 := Event(0, first)];
    assert s.events[0 := s.events[0].(window := second)] == map[0 := Event(0, second)];
  }

  function Fold<S>(step: (S, bool) -> S, s: S, turns: seq<bool>): S
    decreases |turns|
  {
    if turns == [] then s else Fold(step, step(s, turns[0]), turns[1..])
  }

  /** A turn of either move takes the race to its next state. */
  ghost predicate TakesTurns<S(!new)>(step: (S, bool) -> S, race: (nat, nat, Window) -> S, first: Window,
      second: Window) {
    && (forall a: nat, b: nat, calendar {:trigger step(race(a, b, calendar), true)} ::
          step(race(a, b, calendar), true) == race(a, b + 1, if b == 0 then second else calendar))
    && (forall a: nat, b: nat, calendar {:trigger step(race(a, b, calendar), false)} ::
          step(race(a, b, calendar), false) == race(a + 1, b, if a == 0 then first else calendar))
  }

  lemma {:induction false} AllTurns<S(!new)>(step: (S, bool) -> S, race: (nat, nat, Window) -> S, first: Window,
                                             second: Window, a: nat, b: nat, calendar: Window, turns: seq<bool>)
    requires TakesTurns(step, race, first, second)
    ensures Fold(step, race(a, b, calendar), turns)
         == race(a + CountOf(turns, false), b + CountOf(turns, true), LastPatch(first, second, a, b, calendar, turns))
    decreases |turns|
  {
    if turns != [] {
      if turns[0] {
        AllTurns(step, race, first, second, a, b + 1, if b == 0 then second else calendar, turns[1..]);
      } else {
        AllTurns(step, race, first, second, a + 1, b, if a == 0 then first else calendar, turns[1..]);
      }
    }
  }

  ghost function RaceStep(): (State, bool) -> State {
    (s: State, x: bool) => Step(s, Advance(if x then 1 else 0, Works))
  }

  function RaceOf(home: Window, first: Window, second: Window): (nat, nat, Window) -> State {
    (a: nat, b: nat, calendar: Window) => Racing(home, first, second, a, b, calendar)
  }

  lemma {:induction false} TakingFolds(s: State, turns: seq<bool>)
    ensures Run(s, Taking(turns)) == Fold(RaceStep(), s, turns)
    decreases |turns|
  {
    if turns != [] {
      var next := Advance(if turns[0] then 1 else 0, Works);
      assert Taking(turns)[0] == next && Taking(turns)[1..] == Taking(turns[1..]);
      TakingFolds(Step(s, next), turns[1..]);
    }
  }

  lemma RaceTakesTurns(home: Window, first: Window, second: Window)
    ensures TakesTurns(RaceStep(), RaceOf(home, first, second), first, second)
  {
    var step, race := RaceStep(), RaceOf(home, first, second);
    forall a: nat, b: nat, calendar
      ensures step(race(a, b, calendar), true) == race(a, b + 1, if b == 0 then second else calendar)
      ensures step(race(a, b, calendar), false) == race(a + 1, b, if a == 0 then first else calendar)
    {
      OneTurn(home, first, second, a, b, calendar, true);
      OneTurn(home, first, second, a, b, calendar, false);
    }
  }

  lemma RaceEnds(home: Window, first: Window, second: Window, a: nat, b: nat, calendar: Window)
    requires a >= 2 && b >= 2
    ensures var t := Racing(home, first, second, a, b, calendar);
      !Busy(t, 0) && 0 in t.jobs && t.jobs[0].window == Some(second) && Shows(t, 0, 0, second, calendar)
  {
  }

  lemma {:induction false} SecondPatched(first: Window, second: Window, a: nat, b: nat, calendar: Window,
      turns: seq<bool>)
    requires b > 0
    ensures LastPatch(first, second, a, b, calendar, turns) == if a == 0 && false in turns then first else calendar
    decreases |turns|
  {
    if turns != [] {
      if turns[0] {
        SecondPatched(first, second, a, b + 1, calendar, turns[1..]);
      } else {
        SecondPatched(first, second, a + 1, b, if a == 0 then first else calendar, turns[1..]);
      }
    }
  }

  lemma {:induction false} FirstPatched(first: Window, second: Window, a: nat, b: nat, calendar: Window,
      turns: seq<bool>)
    requires a > 0
    ensures LastPatch(first, second, a, b, calendar, turns) == if b == 0 && true in turns then second else calendar
    decreases |turns|
  {
    if turns != [] {
      if turns[0] {
        FirstPatched(first, second, a, b + 1, if b == 0 then second else calendar, turns[1..]);
      } else {
        FirstPatched(first, second, a + 1, b, calendar, turns[1..]);
      }
    }
  }

  lemma {:induction false} CountedIsIn(turns: seq<bool>, x: bool)
    ensures CountOf(turns, x) > 0 <==> x in turns
  {
    if turns != [] {
      CountedIsIn(turns[1..], x);
    }
  }

  lemma LastPatchIs(home: Window, first: Window, second: Window, a: nat, turns: seq<bool>)
    requires true in turns && (a == 0 ==> false in turns)
    ensures LastPatch(first, second, a, 0, if a == 0 then home else first, turns)
         == if a > 0 || FirstOf(turns, false) < FirstOf(turns, true) then second else first
  {
    if a > 0 {
      FirstPatched(first, second, a, 0, first, turns);
    } else if turns[0] {
      SecondPatched(first, second, 0, 1, second, turns[1..]);
    } else {
      FirstPatched(first, second, 1, 0, first, turns[1..]);
    }
  }

  /** Of two successful reschedules of one job, in whatever order their turns come, the
      row keeps the second window, and the calendar agrees exactly when the patches took
      effect in the order of the reservations. The first move may have taken a turns
      before the second reserved. */
  lemma MovesAgreeIff(home: Window, first: Window, second: Window, a: nat, turns: seq<bool>)
    requires first != second && a + CountOf(turns, false) >= 2 && CountOf(turns, true) >= 2
    ensures var s := Racing(home, first, second, a, 0, if a == 0 then home else first);
      var t := Run(s, Taking(turns));
      && !Busy(t, 0) && 0 in t.jobs && t.jobs[0].window == Some(second)
      && (Shows(t, 0, 0, second, second) <==> a > 0 || FirstOf(turns, false) < FirstOf(turns, true))
      && (!Shows(t, 0, 0, second, second) ==> Shows(t, 0, 0, second, first))
  {
    var calendar := if a == 0 then home else first;
    RaceTakesTurns(home, first, second);
    AllTurns(RaceStep(), RaceOf(home, first, second), first, second, a, 0, calendar, turns);
    TakingFolds(Racing(home, first, second, a, 0, calendar), turns);
    CountedIsIn(turns, true);
    CountedIsIn(turns, false);
    LastPatchIs(home, first, second, a, turns);
    RaceEnds(home, first, second, a + CountOf(turns, false), CountOf(turns, true),
             LastPatch(first, second, a, 0, calendar, turns));
  }
}
