/** src/scheduling/scheduling.service.ts: the slot search. Civil dates are day
    numbers since the epoch; `clock` turns local hours into instants. */
module SlotSearch {
  import opened Common
  import opened TimeZone
  import Sorting

  const OFFERED := 8

  /** The three service windows, by the local hours they open and close. */
  const SERVICE_WINDOWS: nat := 3

  function OpenHour(window: nat): int {
    if window == 0 then 8 else if window == 1 then 11 else 14
  }

  function CloseHour(window: nat): int {
    if window == 0 then 11 else if window == 1 then 14 else 17
  }

  // ----- the candidate grid -----

  datatype Slot = Slot(start: int, end: int)

  /** getUTCDay of a civil day number: day 0 was a Thursday. */
  function Weekday(day: int): int {
    (day + 4) % 7
  }

  predicate Weekend(day: int) {
    Weekday(day) == 0 || Weekday(day) == 6
  }

  /** Monday to Friday: day 4 was Monday, 5 January 1970. */
  predicate Workday(day: int) {
    (day - 4) % 7 <= 4
  }

  lemma WeekendIff(day: int)
    ensures Weekend(day) <==> !Workday(day)
  {
  }

  /** The civil calendar: Saturday 3 and Sunday 4 January 1970 were days 2 and 3, the five
      days after them were working days, and weeks repeat. */
  lemma WeeksRepeat(day: int)
    ensures Weekend(2) && Weekend(3)
    ensures !Weekend(4) && !Weekend(5) && !Weekend(6) && !Weekend(7) && !Weekend(8)
    ensures Weekend(day + 7) <==> Weekend(day)
  {
    assert (day + 11) % 7 == (day + 4) % 7;
  }

  function SlotAt(clock: Clock, day: int, window: nat): Slot
    requires window < SERVICE_WINDOWS
  {
    Slot(clock(24 * day + OpenHour(window)), clock(24 * day + CloseHour(window)))
  }

  function Kept(slot: Slot, minimum: int): seq<Slot> {
    if slot.start < minimum then [] else [slot]
  }

  /** The candidates of the first `windows` service windows of a day. */
  function DaySlots(clock: Clock, day: int, minimum: int, windows: nat): seq<Slot>
    requires windows <= SERVICE_WINDOWS
  {
    if windows == 0 then []
    else DaySlots(clock, day, minimum, windows - 1) + Kept(SlotAt(clock, day, windows - 1), minimum)
  }

  function Day(clock: Clock, minimum: int): int -> seq<Slot> {
    day => if Weekend(day) then [] else DaySlots(clock, day, minimum, SERVICE_WINDOWS)
  }

  function Days(day: int -> seq<Slot>, first: int, count: nat): seq<Slot> {
    if count == 0 then [] else Days(day, first, count - 1) + day(first + (count - 1))
  }

  function Candidates(clock: Clock, firstDay: int, minimum: int, days: nat): seq<Slot> {
    Days(Day(clock, minimum), firstDay, days)
  }

  method BuildCandidates(zone: Zone, now: int, minNoticeMinutes: int, lookaheadDays: nat) returns (slots: seq<Slot>)
    ensures slots == Candidates(ClockOf(zone), LocalDay(zone, now), now + minNoticeMinutes * MINUTE, lookaheadDays)
  {
    slots := BuildDays(ClockOf(zone), LocalDay(zone, now), now + minNoticeMinutes * MINUTE, lookaheadDays);
  }

  method BuildDays(clock: Clock, firstDate: int, minimum: int, lookaheadDays: nat) returns (slots: seq<Slot>)
    ensures slots == Candidates(clock, firstDate, minimum, lookaheadDays)
  {
    slots := [];
    for offset := 0 to lookaheadDays
      invariant slots == Candidates(clock, firstDate, minimum, offset)
    {
      var date := firstDate + offset;
      if Weekend(date) {
        assert slots + [] == slots;
        continue;
      }
      ghost var before := slots;
      for window := 0 to SERVICE_WINDOWS
        invariant slots == before + DaySlots(clock, date, minimum, window)
      {
        var start := clock(24 * date + OpenHour(window));
        var end := clock(24 * date + CloseHour(window));
        if start < minimum {
          continue;
        }
        slots := slots + [Slot(start, end)];
      }
    }
  }

  lemma {:induction false} DaySlotsComplete(clock: Clock, day: int, minimum: int, windows: nat, slot: Slot)
    requires windows <= SERVICE_WINDOWS
    ensures slot in DaySlots(clock, day, minimum, windows) <==>
      exists w: nat | w < windows :: slot == SlotAt(clock, day, w) && slot.start >= minimum
  {
    if windows > 0 {
      DaySlotsComplete(clock, day, minimum, windows - 1, slot);
    }
  }

  /** One of the three windows of a day: 8 to 11, 11 to 14 or 14 to 17 on the local clock. */
  predicate IsWindow(clock: Clock, day: int, slot: Slot) {
    || slot == Slot(clock(24 * day + 8), clock(24 * day + 11))
    || slot == Slot(clock(24 * day + 11), clock(24 * day + 14))
    || slot == Slot(clock(24 * day + 14), clock(24 * day + 17))
  }

  /** The slot is a service window of working day `day`, not before `minimum`. */
  predicate DaySlot(clock: Clock, day: int, minimum: int, slot: Slot) {
    Workday(day) && slot.start >= minimum && IsWindow(clock, day, slot)
  }

  lemma WindowsAreThree(clock: Clock, day: int, slot: Slot)
    ensures IsWindow(clock, day, slot) <==> exists w: nat | w < SERVICE_WINDOWS :: slot == SlotAt(clock, day, w)
  {
    if IsWindow(clock, day, slot) {
      assert slot == SlotAt(clock, day, 0) || slot == SlotAt(clock, day, 1) || slot == SlotAt(clock, day, 2);
    }
  }

  ghost predicate InGrid(clock: Clock, firstDay: int, minimum: int, days: nat, slot: Slot) {
    exists day | firstDay <= day < firstDay + days :: DaySlot(clock, day, minimum, slot)
  }

  lemma {:induction false} DaysHold(day: int -> seq<Slot>, first: int, count: nat, slot: Slot)
    ensures slot in Days(day, first, count) <==> exists d | first <= d < first + count :: slot in day(d)
  {
    if count > 0 {
      DaysHold(day, first, count - 1, slot);
      var last := first + (count - 1);
      assert slot in Days(day, first, count) <==> slot in Days(day, first, count - 1) || slot in day(last);
    }
  }

  /** Complete and sound: a slot is a candidate iff it is a service window of a
      working day within the lookahead that starts no earlier than the notice. */
  lemma CandidatesAreTheGrid(clock: Clock, firstDay: int, minimum: int, days: nat, slot: Slot)
    ensures slot in Candidates(clock, firstDay, minimum, days) <==> InGrid(clock, firstDay, minimum, days, slot)
  {
    DaysHold(Day(clock, minimum), firstDay, days, slot);
    forall d
      ensures slot in Day(clock, minimum)(d) <==> DaySlot(clock, d, minimum, slot)
    {
      DaySlotsComplete(clock, d, minimum, SERVICE_WINDOWS, slot);
      WindowsAreThree(clock, d, slot);
      WeekendIff(d);
    }
  }

  /** Proper periods one after another, none overlapping the next, all within
      [from, to]. */
  predicate Chain(slots: seq<Slot>, from: int, to: int) {
    if slots == [] then from <= to
    else from <= slots[0].start < slots[0].end && Chain(slots[1..], slots[0].end, to)
  }

  lemma {:induction false} ChainAppend(some: seq<Slot>, more: seq<Slot>, from: int, middle: int, to: int)
    requires Chain(some, from, middle) && Chain(more, middle, to)
    ensures Chain(some + more, from, to)
  {
    if some == [] {
      assert some + more == more;
      ChainWidens(more, middle, from, to);
    } else {
      ChainAppend(some[1..], more, some[0].end, middle, to);
      assert (some + more)[1..] == some[1..] + more;
    }
  }

  lemma ChainWidens(slots: seq<Slot>, from: int, earlier: int, to: int)
    requires Chain(slots, from, to) && earlier <= from
    ensures Chain(slots, earlier, to)
  {
  }

  /** What a chain means: every slot proper and in range, every two apart. */
  lemma {:induction false} ChainMeans(slots: seq<Slot>, from: int, to: int)
    requires Chain(slots, from, to)
    ensures forall i | 0 <= i < |slots| :: from <= slots[i].start < slots[i].end <= to
    ensures forall i, j | 0 <= i < j < |slots| :: slots[i].end <= slots[j].start
  {
    if slots != [] {
      ChainMeans(slots[1..], slots[0].end, to);
      assert forall i | 1 <= i < |slots| :: slots[i] == slots[1..][i - 1];
      ChainWidens(slots[1..], slots[0].end, slots[0].end, to);
      assert slots[0].end <= to by {
        if |slots| > 1 {
          assert slots[1..][0].end <= to;
        }
      }
    }
  }

  lemma {:induction false} DayIsAChain(clock: Clock, day: int, minimum: int, windows: nat)
    requires Advances(clock) && windows <= SERVICE_WINDOWS
    ensures Chain(DaySlots(clock, day, minimum, windows), clock(24 * day + 8), clock(24 * day + 8 + 3 * windows))
  {
    if windows > 0 {
      DayIsAChain(clock, day, minimum, windows - 1);
      var opens := 24 * day + 8 + 3 * (windows - 1);
      var slot := SlotAt(clock, day, windows - 1);
      assert slot == Slot(clock(opens), clock(opens + 3)) && clock(opens) < clock(opens + 3);
      assert Chain([], slot.end, clock(opens + 3)) && [slot][1..] == [];
      assert Chain(Kept(slot, minimum), clock(opens), clock(opens + 3));
      ChainAppend(DaySlots(clock, day, minimum, windows - 1), Kept(slot, minimum),
                  clock(24 * day + 8), clock(opens), clock(opens + 3));
    }
  }

  /** Where the first service window of a day opens. */
  function Opens(clock: Clock): int -> int {
    day => clock(24 * day + 8)
  }

  lemma EachDayIsAChain(clock: Clock, minimum: int, day: int)
    requires Advances(clock)
    ensures Chain(Day(clock, minimum)(day), Opens(clock)(day), Opens(clock)(day + 1))
  {
    DayIsAChain(clock, day, minimum, SERVICE_WINDOWS);
    var closes, next := clock(24 * day + 17), clock(24 * (day + 1) + 8);
    assert closes < next && clock(24 * day + 8) < next;
    ChainAppend(DaySlots(clock, day, minimum, SERVICE_WINDOWS), [], clock(24 * day + 8), closes, next);
    assert DaySlots(clock, day, minimum, SERVICE_WINDOWS) + [] == DaySlots(clock, day, minimum, SERVICE_WINDOWS);
  }

  lemma {:induction false} DaysAreAChain(day: int -> seq<Slot>, opens: int -> int, first: int, count: nat)
    requires forall d | first <= d < first + count :: Chain(day(d), opens(d), opens(d + 1))
    ensures Chain(Days(day, first, count), opens(first), opens(first + count))
  {
    if count > 0 {
      var last := first + (count - 1);
      DaysAreAChain(day, opens, first, count - 1);
      ChainAppend(Days(day, first, count - 1), day(last), opens(first), opens(last), opens(last + 1));
    }
  }

  lemma GridIsAChain(clock: Clock, firstDay: int, minimum: int, days: nat)
    requires Advances(clock)
    ensures Chain(Candidates(clock, firstDay, minimum, days), Opens(clock)(firstDay), Opens(clock)(firstDay + days))
  {
    var day, opens := Day(clock, minimum), Opens(clock);
    forall d | firstDay <= d < firstDay + days
      ensures Chain(day(d), opens(d), opens(d + 1))
    {
      EachDayIsAChain(clock, minimum, d);
    }
    DaysAreAChain(day, opens, firstDay, days);
  }

  /** In any zone whose offset varies by less than three hours the candidates are
      strictly ordered proper periods that do not overlap. */
  lemma CandidatesAreOrdered(zone: Zone, firstDay: int, minimum: int, days: nat, low: int, high: int)
    requires WholeMinutes(zone) && Within(zone, low, high) && high - low < 3 * 3_600_000
    ensures var slots := Candidates(ClockOf(zone), firstDay, minimum, days);
      && (forall i | 0 <= i < |slots| :: slots[i].start < slots[i].end)
      && (forall i, j | 0 <= i < j < |slots| :: slots[i].end <= slots[j].start)
  {
    var clock := ClockOf(zone);
    NarrowZonesAdvance(zone, low, high);
    GridIsAChain(clock, firstDay, minimum, days);
    ChainMeans(Candidates(clock, firstDay, minimum, days), Opens(clock)(firstDay), Opens(clock)(firstDay + days));
  }

  // ----- filtering against busy time -----

  datatype Busy = Busy(start: int, end: int)

  predicate Overlaps(slot: Slot, period: Busy) {
    slot.start < period.end && slot.end > period.start
  }

  predicate OverlapsBusy(slot: Slot, busy: seq<Busy>) {
    exists period <- busy :: Overlaps(slot, period)
  }

  predicate Holds(from: int, to: int, t: int) {
    from <= t < to
  }

  /** Two proper periods overlap exactly when they share an instant, ends excluded. */
  lemma OverlapsIff(slot: Slot, period: Busy)
    requires slot.start < slot.end && period.start < period.end
    ensures Overlaps(slot, period) <==>
      exists t :: Holds(slot.start, slot.end, t) && Holds(period.start, period.end, t)
  {
    if Overlaps(slot, period) {
      var t := Max(slot.start, period.start);
      assert Holds(slot.start, slot.end, t) && Holds(period.start, period.end, t);
    }
  }

  function Free(busy: seq<Busy>): Slot -> bool {
    slot => !OverlapsBusy(slot, busy)
  }

  function FreeSlots(slots: seq<Slot>, busy: seq<Busy>): seq<Slot> {
    Sorting.Filter(slots, Free(busy))
  }

  function FirstEight(slots: seq<Slot>): seq<Slot> {
    if |slots| <= OFFERED then slots else slots[..OFFERED]
  }

  /** The calendar answers a free/busy query with the busy time inside the range. */
  function Clip(busy: seq<Busy>, from: int, to: int): seq<Busy> {
    if busy == [] then []
    else
      var b := busy[0];
      (if b.start < to && b.end > from then [Busy(Max(b.start, from), Min(b.end, to))]
          else []) + Clip(busy[1..], from, to)
  }

  /** The accepted reservations whose window meets the range. */
  function Meeting(busy: seq<Busy>, from: int, to: int): seq<Busy> {
    if busy == [] then []
    else
      var b := busy[0];
      (if b.start < to && b.end > from then [b] else []) + Meeting(busy[1..], from, to)
  }

  function AvailableSlots(candidates: seq<Slot>, calendar: seq<Busy>, accepted: seq<Busy>): seq<Slot> {
    if candidates == [] then []
    else
      var from, to := candidates[0].start, candidates[|candidates| - 1].end;
      FirstEight(FreeSlots(candidates, Clip(calendar, from, to) + Meeting(accepted, from, to)))
  }

  /** The offer is exactly the first eight free candidates: the k-th free one
      stands at position k, for each k below eight, and nothing else is offered. */
  lemma OfferIsTheFirstEight(slots: seq<Slot>, busy: seq<Busy>)
    ensures var offer := FirstEight(FreeSlots(slots, busy));
      && |offer| == Min(8, Count(slots, Free(busy)))
      && forall i | 0 <= i < |slots| && !OverlapsBusy(slots[i], busy) ::
           var k := Count(slots[..i], Free(busy)); k < 8 ==> k < |offer| && offer[k] == slots[i]
  {
    FilterCounts(slots, busy);
    forall i | 0 <= i < |slots| && !OverlapsBusy(slots[i], busy)
      ensures var k := Count(slots[..i], Free(busy));
        k < |FreeSlots(slots, busy)| && FreeSlots(slots, busy)[k] == slots[i]
    {
      FilterAt(slots, busy, i);
    }
  }

  lemma {:induction false} FilterCounts(slots: seq<Slot>, busy: seq<Busy>)
    ensures |FreeSlots(slots, busy)| == Count(slots, Free(busy))
  {
    if slots != [] {
      FilterCounts(slots[1..], busy);
    }
  }

  lemma {:induction false} FilterAt(slots: seq<Slot>, busy: seq<Busy>, i: nat)
    requires i < |slots| && !OverlapsBusy(slots[i], busy)
    ensures var k := Count(slots[..i], Free(busy));
      k < |FreeSlots(slots, busy)| && FreeSlots(slots, busy)[k] == slots[i]
  {
    if i > 0 {
      FilterAt(slots[1..], busy, i - 1);
      assert slots[..i][1..] == slots[1..][..i - 1];
    }
  }

  /** Asking only about the range of the candidates loses nothing. */
  lemma RangeQueryLosesNothing(candidates: seq<Slot>, calendar: seq<Busy>, accepted: seq<Busy>)
    requires exists from, to :: Chain(candidates, from, to)
    ensures AvailableSlots(candidates, calendar, accepted) == FirstEight(FreeSlots(candidates, calendar + accepted))
  {
    if candidates != [] {
      var low, high :| Chain(candidates, low, high);
      ChainMeans(candidates, low, high);
      var from, to := candidates[0].start, candidates[|candidates| - 1].end;
      var asked := Clip(calendar, from, to) + Meeting(accepted, from, to);
      forall slot <- candidates
        ensures OverlapsBusy(slot, asked) <==> OverlapsBusy(slot, calendar + accepted)
      {
        ClipKeepsOverlaps(slot, calendar, from, to);
        RestrictKeepsOverlaps(slot, accepted, from, to);
        OverlapsEither(slot, calendar, accepted);
        OverlapsEither(slot, Clip(calendar, from, to), Meeting(accepted, from, to));
      }
      FilterAgrees(candidates, asked, calendar + accepted);
    }
  }

  lemma OverlapsEither(slot: Slot, some: seq<Busy>, more: seq<Busy>)
    ensures OverlapsBusy(slot, some + more) <==> OverlapsBusy(slot, some) || OverlapsBusy(slot, more)
  {
    if OverlapsBusy(slot, some) {
      var period :| period in some && Overlaps(slot, period);
      assert period in some + more;
    }
    if OverlapsBusy(slot, more) {
      var period :| period in more && Overlaps(slot, period);
      assert period in some + more;
    }
  }

  lemma {:induction false} ClipKeepsOverlaps(slot: Slot, busy: seq<Busy>, from: int, to: int)
    requires from <= slot.start < slot.end <= to
    ensures OverlapsBusy(slot, Clip(busy, from, to)) <==> OverlapsBusy(slot, busy)
  {
    if busy != [] {
      ClipKeepsOverlaps(slot, busy[1..], from, to);
      var b := busy[0];
      var clipped := Busy(Max(b.start, from), Min(b.end, to));
      assert Overlaps(slot, b) ==> Overlaps(slot, clipped);
      OverlapsEither(slot, if b.start < to && b.end > from then [clipped] else [], Clip(busy[1..], from, to));
      OverlapsEither(slot, [b], busy[1..]);
      assert busy == [b] + busy[1..];
    }
  }

  lemma {:induction false} RestrictKeepsOverlaps(slot: Slot, busy: seq<Busy>, from: int, to: int)
    requires from <= slot.start < slot.end <= to
    ensures OverlapsBusy(slot, Meeting(busy, from, to)) <==> OverlapsBusy(slot, busy)
  {
    if busy != [] {
      RestrictKeepsOverlaps(slot, busy[1..], from, to);
      var b := busy[0];
      OverlapsEither(slot, if b.start < to && b.end > from then [b] else [], Meeting(busy[1..], from, to));
      OverlapsEither(slot, [b], busy[1..]);
      assert busy == [b] + busy[1..];
    }
  }

  lemma {:induction false} FilterAgrees(slots: seq<Slot>, some: seq<Busy>, others: seq<Busy>)
    requires forall slot <- slots :: OverlapsBusy(slot, some) <==> OverlapsBusy(slot, others)
    ensures FreeSlots(slots, some) == FreeSlots(slots, others)
  {
    if slots != [] {
      assert slots[0] in slots;
      FilterAgrees(slots[1..], some, others);
    }
  }

  lemma {:induction false} FilterKeepsChain(slots: seq<Slot>, busy: seq<Busy>, from: int, to: int)
    requires Chain(slots, from, to)
    ensures Chain(FreeSlots(slots, busy), from, to)
  {
    if slots != [] {
      var rest := FreeSlots(slots[1..], busy);
      FilterKeepsChain(slots[1..], busy, slots[0].end, to);
      ChainWidens(rest, slots[0].end, from, to);
      assert ([slots[0]] + rest)[1..] == rest && [] + rest == rest;
    }
  }

  lemma {:induction false} PrefixKeepsChain(slots: seq<Slot>, n: nat, from: int, to: int)
    requires Chain(slots, from, to) && n <= |slots|
    ensures Chain(slots[..n], from, to)
  {
    if n == 0 {
      ChainMeans(slots, from, to);
    } else {
      PrefixKeepsChain(slots[1..], n - 1, slots[0].end, to);
      assert slots[..n][1..] == slots[1..][..n - 1];
    }
  }

  /** Every slot offered to a customer is a service window of a working day inside
      the lookahead, respects the notice, meets no busy calendar time and no
      accepted reservation, and overlaps no other slot offered. */
  lemma OffersAreBookable(clock: Clock, firstDay: int, minimum: int, days: nat, calendar: seq<Busy>,
      accepted: seq<Busy>)
    requires Advances(clock)
    ensures var offer := AvailableSlots(Candidates(clock, firstDay, minimum, days), calendar, accepted);
      && |offer| <= 8 && Chain(offer, Opens(clock)(firstDay), Opens(clock)(firstDay + days))
      && forall slot <- offer ::
           && InGrid(clock, firstDay, minimum, days, slot)
           && !OverlapsBusy(slot, calendar) && !OverlapsBusy(slot, accepted)
  {
    var candidates := Candidates(clock, firstDay, minimum, days);
    var from, to := Opens(clock)(firstDay), Opens(clock)(firstDay + days);
    GridIsAChain(clock, firstDay, minimum, days);
    RangeQueryLosesNothing(candidates, calendar, accepted);
    var free := FreeSlots(candidates, calendar + accepted);
    FilterKeepsChain(candidates, calendar + accepted, from, to);
    Sorting.FilterHolds(candidates, Free(calendar + accepted));
    PrefixKeepsChain(free, Min(OFFERED, |free|), from, to);
    assert |free| <= OFFERED ==> free[..|free|] == free;
    forall slot <- FirstEight(free)
      ensures InGrid(clock, firstDay, minimum, days, slot)
      ensures !OverlapsBusy(slot, calendar) && !OverlapsBusy(slot, accepted)
    {
      assert slot in free;
      CandidatesAreTheGrid(clock, firstDay, minimum, days, slot);
      OverlapsEither(slot, calendar, accepted);
    }
  }

  /** What a customer is offered by a call at `now`: windows of Monday to Friday, from
      today on the local calendar for the lookahead, not sooner than the notice. */
  lemma OffersAreInTheFuture(zone: Zone, now: int, minNoticeMinutes: int, days: nat, slot: Slot)
    ensures slot in Candidates(ClockOf(zone), LocalDay(zone, now), now + minNoticeMinutes * MINUTE, days) <==>
      InGrid(ClockOf(zone), LocalDay(zone, now), now + 60_000 * minNoticeMinutes, days, slot)
  {
    CandidatesAreTheGrid(ClockOf(zone), LocalDay(zone, now), now + 60_000 * minNoticeMinutes, days, slot);
  }
}
