/** src/scheduling/scheduling.service.ts, zonedTime: from a local date and time to
    an instant. Instants are milliseconds since the epoch, and the time zone is any
    function giving the offset of local time from UTC at an instant. */
module TimeZone {

  const MINUTE := 60_000
  const ITERATIONS: nat := 3

  type Zone = int -> int

  ghost predicate WholeMinutes(zone: Zone) {
    forall t :: zone(t) % MINUTE == 0
  }

  /** The zone's offsets all lie within [low, high]. */
  ghost predicate Within(zone: Zone, low: int, high: int) {
    forall t :: low <= zone(t) <= high
  }

  /** Date.UTC over the local date and time of t, which carry no seconds. */
  function Observed(zone: Zone, t: int): int {
    var shown := t + zone(t);
    shown - shown % MINUTE
  }

  function Refined(zone: Zone, desired: int, guess: int, iterations: nat): int
    decreases iterations
  {
    if iterations == 0 then guess
    else Refined(zone, desired, guess + desired - Observed(zone, guess), iterations - 1)
  }

  method ZonedTime(zone: Zone, desired: int) returns (guess: int)
    ensures guess == Refined(zone, desired, desired, 3)
  {
    guess := desired;
    for iteration := 0 to ITERATIONS
      invariant Refined(zone, desired, guess, ITERATIONS - iteration) == Refined(zone, desired, desired, ITERATIONS)
    {
      var observed := Observed(zone, guess);
      guess := guess + desired - observed;
    }
  }

  /** On whole minutes one refinement subtracts the offset at the guess. */
  lemma RefineOnce(zone: Zone, desired: int, guess: int)
    requires WholeMinutes(zone) && desired % MINUTE == 0 && guess % MINUTE == 0
    ensures guess + desired - Observed(zone, guess) == desired - zone(guess)
    ensures (desired - zone(guess)) % MINUTE == 0
  {
    assert (guess + zone(guess)) % MINUTE == 0;
  }

  /** The loop is exact: if instant t shows the desired local time and the offset
      does not change within `spread` of t, where `spread` bounds how far the
      offset at the first guess is from the offset at t, two iterations reach t
      and the third stays there. */
  lemma ZonedTimeIsExact(zone: Zone, desired: int, t: int, spread: nat)
    requires WholeMinutes(zone) && desired % MINUTE == 0
    requires t + zone(t) == desired
    requires zone(t) - spread <= zone(desired) <= zone(t) + spread
    requires forall u | t - spread <= u <= t + spread :: zone(u) == zone(t)
    ensures Refined(zone, desired, desired, 2) == t
    ensures Refined(zone, desired, desired, ITERATIONS) == t
  {
    var first := desired - zone(desired);
    RefineOnce(zone, desired, desired);
    RefineOnce(zone, desired, first);
    assert zone(first) == zone(t);
    RefineOnce(zone, desired, t);
    assert Refined(zone, desired, t, 0) == t && Refined(zone, desired, t, 1) == t;
    assert Refined(zone, desired, first, 1) == t && Refined(zone, desired, first, 2) == t;
  }

  /** Whatever the zone does, the result is off by one of its offsets. */
  lemma ZonedTimeIsBracketed(zone: Zone, desired: int, low: int, high: int)
    requires WholeMinutes(zone) && Within(zone, low, high) && desired % MINUTE == 0
    ensures desired - high <= Refined(zone, desired, desired, ITERATIONS) <= desired - low
  {
    var first := desired - zone(desired);
    var second := desired - zone(first);
    RefineOnce(zone, desired, desired);
    RefineOnce(zone, desired, first);
    RefineOnce(zone, desired, second);
    assert Refined(zone, desired, second, 1) == Refined(zone, desired, desired - zone(second), 0);
    assert Refined(zone, desired, first, 2) == Refined(zone, desired, second, 1);
  }

  // ----- whole local hours -----

  /** From a local hour, counted since the epoch, to its instant. */
  type Clock = int -> int

  function ClockOf(zone: Zone): Clock {
    hour => Refined(zone, hour * 3_600_000, hour * 3_600_000, ITERATIONS)
  }

  /** The civil day, counted since the epoch, that the zone shows at an instant. */
  function LocalDay(zone: Zone, now: int): int {
    (now + zone(now)) / 86_400_000
  }

  /** The day is the one whose midnight, on the zone's clock, was the last to pass. */
  lemma LocalDayIsToday(zone: Zone, now: int)
    ensures var day := LocalDay(zone, now);
      day * 24 * 3_600_000 <= now + zone(now) < (day + 1) * 24 * 3_600_000
  {
  }

  /** Where the offset holds still, the clock gives the instant that shows the hour, and
      the zone then shows the day the hour belongs to. */
  lemma ClockShowsTheHour(zone: Zone, day: int, hour: int, t: int, spread: nat)
    requires WholeMinutes(zone) && 0 <= hour < 24 && t + zone(t) == (24 * day + hour) * 3_600_000
    requires zone(t) - spread <= zone((24 * day + hour) * 3_600_000) <= zone(t) + spread
    requires forall u | t - spread <= u <= t + spread :: zone(u) == zone(t)
    ensures ClockOf(zone)(24 * day + hour) == t && LocalDay(zone, t) == day
  {
    ZonedTimeIsExact(zone, (24 * day + hour) * 3_600_000, t, spread);
    LocalDayIsToday(zone, t);
  }

  /** Local times three hours apart are told apart, in their order. */
  ghost predicate Advances(clock: Clock) {
    forall h, k | h + 3 <= k :: clock(h) < clock(k)
  }

  lemma HoursApart(zone: Zone, low: int, high: int, h: int, k: int)
    requires WholeMinutes(zone) && Within(zone, low, high) && high - low < 3 * 3_600_000 && h + 3 <= k
    ensures Refined(zone, h * 3_600_000, h * 3_600_000, ITERATIONS)
          < Refined(zone, k * 3_600_000, k * 3_600_000, ITERATIONS)
  {
    var early, late := h * 3_600_000, k * 3_600_000;
    assert early + 3 * 3_600_000 <= late && early % MINUTE == 0 && late % MINUTE == 0;
    ZonedTimeIsBracketed(zone, early, low, high);
    ZonedTimeIsBracketed(zone, late, low, high);
  }

  lemma NarrowZonesAdvance(zone: Zone, low: int, high: int)
    requires WholeMinutes(zone) && Within(zone, low, high) && high - low < 3 * 3_600_000
    ensures Advances(ClockOf(zone))
  {
    forall h, k | h + 3 <= k
      ensures ClockOf(zone)(h) < ClockOf(zone)(k)
    {
      HoursApart(zone, low, high, h, k);
    }
  }
}
