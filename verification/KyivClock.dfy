/**
 * Local time to UTC and the seconds left of a local day
 * (packages/ai/src/kyiv-calendar.ts).  The zone is any function from an instant to
 * its offset, both in milliseconds; nothing is assumed of when it changes.
 */
module KyivClock {
  import opened Wrappers
  import opened CivilDate
  import opened KyivCalendar

  /** The offset of the zone at an instant that is a whole second. */
  type Zone = int -> int

  const DAY_MS := 86_400_000

  /** The offset is read off parts that show no milliseconds. */
  function LocalOf(zone: Zone, instant: int): int {
    instant + zone(instant - instant % 1000)
  }

  /** A guess, an offset at the guess, and one correction; `wanted` is the local time read as UTC. */
  function ZonedLocalToUtcMs(zone: Zone, wanted: int, milli: int): int {
    var offset := zone(wanted);
    var utc := wanted - offset;
    var verified := zone(utc);
    (if verified != offset then wanted - verified else utc) + milli
  }

  /** Two offsets in whole seconds, as a zone with summer time has. */
  ghost predicate TwoOffsets(zone: Zone, a: int, b: int) {
    a % 1000 == 0 && b % 1000 == 0 && forall t: int :: zone(t) == a || zone(t) == b
  }

  /** The local time exists: some instant shows it. */
  ghost predicate Exists(zone: Zone, wanted: int) {
    exists u: int :: u + zone(u) == wanted
  }

  /** The instant found before its milliseconds is a whole second. */
  lemma WholeSecondFound(zone: Zone, a: int, b: int, wanted: int)
    requires TwoOffsets(zone, a, b) && wanted % 1000 == 0
    ensures ZonedLocalToUtcMs(zone, wanted, 0) % 1000 == 0
  {
  }

  lemma LocalOfSecond(zone: Zone, utc: int, milli: int)
    requires utc % 1000 == 0 && 0 <= milli < 1000
    ensures LocalOf(zone, utc + milli) == utc + milli + zone(utc)
  {
    assert (utc + milli) % 1000 == milli;
  }

  /** The instant found shows the local time asked for exactly when any instant does. */
  lemma FoundIffItExists(zone: Zone, a: int, b: int, wanted: int, milli: int)
    requires TwoOffsets(zone, a, b) && wanted % 1000 == 0 && 0 <= milli < 1000
    ensures LocalOf(zone, ZonedLocalToUtcMs(zone, wanted, milli)) == wanted + milli <==> Exists(zone, wanted)
  {
    var utc := ZonedLocalToUtcMs(zone, wanted, milli) - milli;
    WholeSecondFound(zone, a, b, wanted);
    LocalOfSecond(zone, utc, milli);
    hide LocalOf;
    if u :| u + zone(u) == wanted {
      assert u == wanted - zone(u);
    }
    if utc + zone(utc) == wanted {
      assert Exists(zone, wanted);
    }
  }

  /** In a gap, what is found shows a time that is off by the jump. */
  lemma GapIsOffByTheJump(zone: Zone, a: int, b: int, wanted: int, milli: int)
    requires TwoOffsets(zone, a, b) && wanted % 1000 == 0 && 0 <= milli < 1000 && !Exists(zone, wanted)
    ensures var off := LocalOf(zone, ZonedLocalToUtcMs(zone, wanted, milli)) - (wanted + milli); off == a - b || off == b - a
  {
    var utc := ZonedLocalToUtcMs(zone, wanted, milli) - milli;
    WholeSecondFound(zone, a, b, wanted);
    LocalOfSecond(zone, utc, milli);
    hide LocalOf;
    assert utc + zone(utc) != wanted;
  }

  function StartOfDay(zone: Zone, day: int): int {
    ZonedLocalToUtcMs(zone, day * DAY_MS, 0)
  }

  function EndOfDay(zone: Zone, day: int): int {
    ZonedLocalToUtcMs(zone, day * DAY_MS + 86_399_000, 999)
  }

  /** A range of days in order gives instants in order, whichever offsets its ends have. */
  lemma RangeIsInOrder(zone: Zone, a: int, b: int, first: int, last: int)
    requires TwoOffsets(zone, a, b) && -DAY_MS < a - b < DAY_MS && first <= last
    ensures StartOfDay(zone, first) <= EndOfDay(zone, last)
  {
    assert first * DAY_MS <= last * DAY_MS;
  }

  lemma WholeSeconds(day: int)
    ensures (day * DAY_MS) % 1000 == 0 && (day * DAY_MS + 86_399_000) % 1000 == 0
  {
    assert day * DAY_MS == 1000 * (day * 86_400) && day * DAY_MS + 86_399_000 == 1000 * (day * 86_400 + 86_399);
  }

  /** Where both midnights exist, the range holds exactly the local days from the first to the last, end to end. */
  lemma RangeIsWholeDays(zone: Zone, a: int, b: int, first: int, last: int)
    requires TwoOffsets(zone, a, b)
    requires Exists(zone, first * DAY_MS) && Exists(zone, last * DAY_MS + 86_399_000)
    ensures LocalOf(zone, StartOfDay(zone, first)) == first * DAY_MS
    ensures LocalOf(zone, EndOfDay(zone, last)) == last * DAY_MS + DAY_MS - 1
  {
    hide LocalOf, ZonedLocalToUtcMs, Exists;
    WholeSeconds(first);
    WholeSeconds(last);
    FoundIffItExists(zone, a, b, first * DAY_MS, 0);
    FoundIffItExists(zone, a, b, last * DAY_MS + 86_399_000, 999);
  }

  /** Upwards division, as Math.ceil of a quotient. */
  function CeilDiv(n: int, d: int): int
    requires d > 0
  {
    -((-n) / d)
  }

  /** The local day of an instant, counted as days are. */
  function LocalDay(zone: Zone, instant: int): int {
    LocalOf(zone, instant) / DAY_MS
  }

  /** A day after today by the calendar's own arithmetic; None is NaN. */
  function SecondsUntilMidnight(zone: Zone, now: int): Option<int> {
    var tomorrow := AddCalendarDays(CivilOf(LocalDay(zone, now)), 1);
    var day := if tomorrow.None? then None else DayOrdinal(tomorrow.value);
    if day.None? then None
    else
      var left := CeilDiv(StartOfDay(zone, day.value) - now, 1000);
      Some(if left < 1 then 1 else left)
  }

  lemma TomorrowIs(zone: Zone, now: int)
    requires Literal(CivilOf(LocalDay(zone, now))) && Literal(CivilOf(LocalDay(zone, now) + 1))
    ensures AddCalendarDays(CivilOf(LocalDay(zone, now)), 1) == Some(CivilOf(LocalDay(zone, now) + 1))
    ensures DayOrdinal(CivilOf(LocalDay(zone, now) + 1)) == Some(LocalDay(zone, now) + 1)
  {
    hide CivilOf, DayOf, Utc, LocalDay;
    AddingMoves(CivilOf(LocalDay(zone, now)), 1);
    OrdinalIsDay(CivilOf(LocalDay(zone, now) + 1));
  }

  /**
   * The wait is at least a second, and it ends in the first second of the local
   * day after the one that `now` is in, if that midnight exists and is still ahead.
   */
  lemma WaitReachesTomorrow(zone: Zone, a: int, b: int, now: int)
    requires TwoOffsets(zone, a, b)
    requires Literal(CivilOf(LocalDay(zone, now))) && Literal(CivilOf(LocalDay(zone, now) + 1))
    ensures SecondsUntilMidnight(zone, now).Some?
    ensures var seconds := SecondsUntilMidnight(zone, now).value;
            var tomorrow := LocalDay(zone, now) + 1;
            var midnight, woken := StartOfDay(zone, tomorrow), now + 1000 * seconds;
            && seconds >= 1
            && (if now < midnight then midnight <= woken < midnight + 1000 else seconds == 1)
            && (Exists(zone, tomorrow * DAY_MS) ==> LocalOf(zone, midnight) == tomorrow * DAY_MS)
            && (Exists(zone, tomorrow * DAY_MS) && now < midnight ==> LocalDay(zone, woken) == tomorrow)
  {
    hide CivilOf, DayOf, Utc, LocalOf, ZonedLocalToUtcMs, Exists;
    var tomorrow := LocalDay(zone, now) + 1;
    TomorrowIs(zone, now);
    WholeSeconds(tomorrow);
    FoundIffItExists(zone, a, b, tomorrow * DAY_MS, 0);
    WholeSecondFound(zone, a, b, tomorrow * DAY_MS);
    var midnight := StartOfDay(zone, tomorrow);
    var woken := now + 1000 * SecondsUntilMidnight(zone, now).value;
    if Exists(zone, tomorrow * DAY_MS) && now < midnight {
      WokenAt(zone, tomorrow, midnight, woken);
    }
  }

  lemma WokenAt(zone: Zone, day: int, midnight: int, woken: int)
    requires midnight % 1000 == 0 && midnight <= woken < midnight + 1000
    requires LocalOf(zone, midnight) == day * DAY_MS
    ensures LocalDay(zone, woken) == day
  {
    assert woken - woken % 1000 == midnight;
  }
}
