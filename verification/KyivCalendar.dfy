/**
 * Periods and midnights of the assistant's calendar (packages/ai/src/kyiv-calendar.ts).
 *
 * Day arithmetic goes through Date.UTC, so it follows section 21.4.1 of ECMA-262:
 * month and day may be out of their ranges, a year from 0 to 99 means 1900 to
 * 1999, and a day more than a hundred million from the epoch is no date at all.
 */
module KyivCalendar {
  import opened Wrappers
  import opened CivilDate

  const MAX_DAYS := 100_000_000

  /** The day number Date.UTC gives these parts; None is NaN. */
  function Utc(year: int, month: int, day: int): Option<int> {
    var n := MakeDay(if 0 <= year <= 99 then 1900 + year else year, month, day);
    if -MAX_DAYS <= n <= MAX_DAYS then Some(n) else None
  }

  function PartsOf(utc: Option<int>): Option<Date> {
    if utc.Some? then Some(CivilOf(utc.value)) else None
  }

  function DayOrdinal(d: Date): Option<int> {
    Utc(d.year, d.month - 1, d.day)
  }

  function AddCalendarDays(d: Date, days: int): Option<Date> {
    PartsOf(Utc(d.year, d.month - 1, d.day + days))
  }

  /** Sunday is 0; day 0 was a Thursday. */
  function Weekday(n: int): int {
    (n + 4) % 7
  }

  function MondayOfWeek(d: Date): Option<Date> {
    var utc := DayOrdinal(d);
    if utc.None? then None else AddCalendarDays(d, -((Weekday(utc.value) + 6) % 7))
  }

  function LastDayOfMonth(d: Date): Option<Date> {
    PartsOf(Utc(d.year, d.month, 0))
  }

  predicate IsRealDate(d: Date) {
    1 <= d.month <= 12 && PartsOf(DayOrdinal(d)) == Some(d)
  }

  function FirstOfMonth(d: Date): Date {
    Date(d.year, d.month, 1)
  }

  function QuarterStart(month: int): int {
    (month - 1) / 3 * 3 + 1
  }

  function MonthDay(year: int, month: int, day: int): Option<Date> {
    PartsOf(Utc(year, month - 1, day))
  }

  /** A period as its text was read: the two digits of a spoken month and day may be anything. */
  datatype Period =
    | Today
    | Yesterday
    | ThisWeek
    | LastWeek
    | ThisMonth
    | LastMonth
    | ThisQuarter
    | LastQuarter
    | ThisYear
    | LastYear
    | LastDays(days: nat)
    | Spoken(startMonth: nat, startDay: nat, endMonth: nat, endDay: nat)
    | Dated(start: Date, end: Date)
    | Unknown

  datatype Range = Range(first: Option<Date>, last: Option<Date>)

  function Then(d: Option<Date>, days: int): Option<Date> {
    if d.None? then None else AddCalendarDays(d.value, days)
  }

  predicate Later(a: Option<int>, b: Option<int>) {
    a.Some? && b.Some? && a.value > b.value
  }

  function RealRange(first: Date, last: Date): Option<Range> {
    if IsRealDate(first) && IsRealDate(last) then Some(Range(Some(first), Some(last))) else None
  }

  function SpokenRange(p: Period, today: Date): Option<Range>
    requires p.Spoken?
  {
    var startYear :=
      if Later(Utc(today.year, p.startMonth - 1, p.startDay), DayOrdinal(today)) then today.year - 1 else today.year;
    var endYear :=
      if Later(Utc(startYear, p.startMonth - 1, p.startDay), Utc(startYear, p.endMonth - 1, p.endDay))
      then startYear + 1 else startYear;
    RealRange(Date(startYear, p.startMonth, p.startDay), Date(endYear, p.endMonth, p.endDay))
  }

  function PeriodBounds(p: Period, today: Date): Option<Range> {
    match p
    case Today => Some(Range(Some(today), Some(today)))
    case Yesterday => Some(Range(AddCalendarDays(today, -1), AddCalendarDays(today, -1)))
    case ThisWeek => Some(Range(MondayOfWeek(today), Some(today)))
    case LastWeek => Some(Range(Then(MondayOfWeek(today), -7), Then(MondayOfWeek(today), -1)))
    case ThisMonth => Some(Range(Some(FirstOfMonth(today)), Some(today)))
    case LastMonth =>
      var last := AddCalendarDays(FirstOfMonth(today), -1);
      Some(Range(if last.None? then None else Some(FirstOfMonth(last.value)), last))
    case ThisQuarter => Some(Range(MonthDay(today.year, QuarterStart(today.month), 1), Some(today)))
    case LastQuarter =>
      var start := QuarterStart(today.month) - 3;
      Some(Range(MonthDay(today.year, start, 1), MonthDay(today.year, start + 3, 0)))
    case ThisYear => Some(Range(Some(Date(today.year, 1, 1)), Some(today)))
    case LastYear => Some(Range(Some(Date(today.year - 1, 1, 1)), Some(Date(today.year - 1, 12, 31))))
    case LastDays(days) =>
      var first := AddCalendarDays(today, -(days - 1));
      if days < 1 || first.None? || DayOrdinal(first.value).None? then None else Some(Range(first, Some(today)))
    case Spoken(_, _, _, _) => SpokenRange(p, today)
    case Dated(start, end) => RealRange(start, end)
    case Unknown => None
  }

  /** The bounds that are given on, unless they are reversed. */
  function NamedPeriodRange(p: Period, today: Date): Option<Range> {
    var bounds := if IsRealDate(today) then PeriodBounds(p, today) else None;
    if bounds.None? then None
    else
      var first := if bounds.value.first.Some? then DayOrdinal(bounds.value.first.value) else None;
      var last := if bounds.value.last.Some? then DayOrdinal(bounds.value.last.value) else None;
      if Later(first, last) then None else bounds
  }

  // ---------------------------------------------------------------- single dates

  predicate ShortYear(y: int) {
    0 <= y <= 99
  }

  predicate InReach(n: int) {
    -MAX_DAYS <= n <= MAX_DAYS
  }

  /** A date of the calendar within reach, of a year that Date.UTC does not move: it is read as it is written. */
  predicate Literal(d: Date) {
    Real(d) && !ShortYear(d.year) && InReach(DayOf(d))
  }

  /** The check accepts exactly these dates. */
  lemma IsRealDateIff(d: Date)
    ensures IsRealDate(d) <==> Literal(d)
  {
    hide CivilOf, DayFromYear, MonthStart;
    if 1 <= d.month <= 12 {
      var y := if ShortYear(d.year) then 1900 + d.year else d.year;
      MakeDayIsDayOf(y, d.month, d.day);
      DayNumbersAreDates(DayOf(d), d);
      if IsRealDate(d) && ShortYear(d.year) {
        ShortYearsMove(d);
      }
    }
  }

  lemma ShortYearsMove(d: Date)
    requires Real(d) && ShortYear(d.year)
    ensures DayOf(Date(d.year + 1900, d.month, d.day)) > DayOf(d) + 740
  {
    hide DayFromYear;
    WithinItsYear(d);
    NextYear(d.year);
    YearsIncrease(d.year + 1, d.year + 1900);
    MonthsIncrease(Leap(d.year + 1900), 0, d.month - 1);
    assert DayOf(d) == DayFromYear(d.year) + Within(d);
  }

  /** Adding days is moving along the days. */
  lemma AddingMoves(d: Date, days: int)
    requires Literal(d)
    ensures AddCalendarDays(d, days) == if InReach(DayOf(d) + days) then Some(CivilOf(DayOf(d) + days)) else None
  {
    hide CivilOf, DayFromYear, MonthStart;
    IsRealDateIff(d);
    MakeDayIsDayOf(d.year, d.month, d.day + days);
  }

  /** Adding days twice is adding their sum, exactly when the date between is not of a short year. */
  lemma AddingComposes(d: Date, a: int, b: int)
    requires Literal(d) && InReach(DayOf(d) + a) && InReach(DayOf(d) + a + b)
    ensures AddCalendarDays(d, a).Some?
    ensures AddCalendarDays(AddCalendarDays(d, a).value, b) == AddCalendarDays(d, a + b) <==>
            !ShortYear(AddCalendarDays(d, a).value.year)
  {
    hide CivilOf, DayFromYear, MonthStart;
    AddingMoves(d, a);
    AddingMoves(d, a + b);
    var mid := CivilOf(DayOf(d) + a);
    IsRealDateIff(mid);
    if ShortYear(mid.year) {
      ShortYearsMove(mid);
      MakeDayIsDayOf(mid.year + 1900, mid.month, mid.day + b);
    } else {
      AddingMoves(mid, b);
    }
  }

  /** The Monday of a week is the one Monday among the day and the six before it. */
  lemma MondayIsTheMonday(d: Date, n: int)
    requires Literal(d) && InReach(DayOf(d) - 6)
    ensures MondayOfWeek(d).Some? && Real(MondayOfWeek(d).value)
    ensures DayOf(d) - 6 <= n <= DayOf(d) && Weekday(n) == 1 <==> n == DayOf(MondayOfWeek(d).value)
  {
    hide CivilOf, DayOf, Utc, AddCalendarDays;
    OrdinalIsDay(d);
    AddingMoves(d, -((Weekday(DayOf(d)) + 6) % 7));
  }

  /** Day 0 of the month after is the last day of this one. */
  lemma DayZero(d: Date)
    requires Real(d)
    ensures MakeDay(d.year, d.month, 0) == DayOf(Date(d.year, d.month, DaysInMonth(d.year, d.month)))
  {
    hide DayFromYear;
    if d.month < 12 {
      MakeDayIsDayOf(d.year, d.month + 1, 0);
    } else {
      NextYear(d.year);
      YearIsItsMonths(d.year);
      assert d.month / 12 == 1 && d.month % 12 == 0;
    }
  }

  /** The last day of a month is that month's, and the next day starts another. */
  lemma LastDayEndsTheMonth(d: Date)
    requires Literal(d) && InReach(DayOf(d) + 31)
    ensures LastDayOfMonth(d) == Some(Date(d.year, d.month, DaysInMonth(d.year, d.month)))
  {
    hide CivilOf, DayFromYear, MonthStart;
    IsRealDateIff(d);
    var last := Date(d.year, d.month, DaysInMonth(d.year, d.month));
    DayZero(d);
    DayNumbersAreDates(0, last);
  }

  // --------------------------------------------------------------------- periods

  predicate Named(p: Period) {
    !p.LastDays? && !p.Spoken? && !p.Dated? && !p.Unknown?
  }

  /** The Monday on or before a day. */
  function MondayBefore(n: int): (monday: int)
    ensures Weekday(monday) == 1 && n - 7 < monday <= n
  {
    n - (Weekday(n) + 6) % 7
  }

  /** The first of a month of a year, the months before January being those of the year before. */
  function FirstOf(year: int, month: int): (d: Date)
    requires -11 <= month <= 12
    ensures Real(d) && d.day == 1
  {
    if month >= 1 then Date(year, month, 1) else Date(year - 1, month + 12, 1)
  }

  /** The day a named period means to start on, on the calendar. */
  function FirstMeant(p: Period, today: Date): (d: Date)
    requires Named(p) && Real(today)
    ensures Real(d)
  {
    match p
    case Today => today
    case Yesterday => CivilOf(DayOf(today) - 1)
    case ThisWeek => CivilOf(MondayBefore(DayOf(today)))
    case LastWeek => CivilOf(MondayBefore(DayOf(today)) - 7)
    case ThisMonth => FirstOf(today.year, today.month)
    case LastMonth => FirstOf(today.year, today.month - 1)
    case ThisQuarter => FirstOf(today.year, QuarterStart(today.month))
    case LastQuarter => FirstOf(today.year, QuarterStart(today.month) - 3)
    case ThisYear => FirstOf(today.year, 1)
    case LastYear => FirstOf(today.year - 1, 1)
  }

  /** The day number it means to end on: the day before the current such period starts, or today. */
  function LastMeant(p: Period, today: Date): int
    requires Named(p) && Real(today)
  {
    match p
    case Yesterday => DayOf(today) - 1
    case LastWeek => DayOf(FirstMeant(ThisWeek, today)) - 1
    case LastMonth => DayOf(FirstMeant(ThisMonth, today)) - 1
    case LastQuarter => DayOf(FirstMeant(ThisQuarter, today)) - 1
    case LastYear => DayOf(FirstMeant(ThisYear, today)) - 1
    case _ => DayOf(today)
  }

  /** The first of a month of this year, or of the year before. */
  lemma FirstOfIsRecent(today: Date, year: int, month: int)
    requires Real(today) && -11 <= month <= 12
    requires (year == today.year && month <= today.month) || (year == today.year - 1 && month >= 1)
    ensures DayOf(today) - 731 <= DayOf(FirstOf(year, month)) <= DayOf(today)
  {
    hide CivilOf, DayFromYear, MonthStart;
    var d := FirstOf(year, month);
    DatesInOrder(d, today);
    WithinItsYear(d);
    WithinItsYear(today);
    assert DayOf(d) == DayFromYear(d.year) + Within(d) && DayOf(today) == DayFromYear(today.year) + Within(today);
    NextYear(d.year);
  }

  lemma FirstsInOrder(year: int, month: int, later: int)
    requires -11 <= month < later <= 12
    ensures DayOf(FirstOf(year, month)) < DayOf(FirstOf(year, later))
  {
    hide CivilOf, DayFromYear, MonthStart;
    DatesInOrder(FirstOf(year, month), FirstOf(year, later));
  }

  /** The month a quarter starts in. */
  lemma QuarterOf(month: int)
    requires 1 <= month <= 12
    ensures QuarterStart(month) in {1, 4, 7, 10} && QuarterStart(month) <= month <= QuarterStart(month) + 2
  {
  }

  lemma MeantIsRecent(p: Period, today: Date)
    requires Named(p) && Real(today)
    ensures DayOf(today) - 731 <= DayOf(FirstMeant(p, today)) <= LastMeant(p, today) <= DayOf(today)
  {
    hide CivilOf, DayFromYear, MonthStart, DayOf, QuarterStart;
    var y, m, q := today.year, today.month, QuarterStart(today.month);
    QuarterOf(m);
    FirstOfIsRecent(today, y, m);
    FirstOfIsRecent(today, y, m - 1);
    FirstsInOrder(y, m - 1, m);
    FirstOfIsRecent(today, y, q);
    FirstOfIsRecent(today, y, q - 3);
    FirstsInOrder(y, q - 3, q);
    FirstOfIsRecent(today, y, 1);
    FirstOfIsRecent(today, y - 1, 1);
    FirstsInOrder(y, -11, 1);
    assert FirstOf(y, -11) == FirstOf(y - 1, 1);
  }

  /** Date.UTC reads a real date as written when it is between two such dates not far apart. */
  lemma BetweenIsLiteral(a: Date, d: Date, b: Date)
    requires Literal(a) && Literal(b) && Real(d) && DayOf(b) - 740 <= DayOf(a) <= DayOf(d) <= DayOf(b)
    ensures Literal(d)
  {
    hide CivilOf, DayFromYear, MonthStart;
    DatesInOrder(d, a);
    DatesInOrder(b, d);
    if ShortYear(d.year) {
      assert a.year < 0 && b.year >= 100;
      WithinItsYear(a);
      WithinItsYear(b);
      assert DayOf(a) == DayFromYear(a.year) + Within(a) && DayOf(b) == DayFromYear(b.year) + Within(b);
      NextYear(a.year);
      YearsIncrease(a.year + 1, b.year);
    }
  }

  lemma OrdinalIsDay(d: Date)
    requires Literal(d)
    ensures DayOrdinal(d) == Some(DayOf(d))
  {
    IsRealDateIff(d);
    MakeDayIsDayOf(d.year, d.month, d.day);
  }

  lemma MonthTurns(year: int, month: int, day: int)
    requires -11 <= month <= 12
    ensures MakeDay(year, month - 1, day) == DayOf(FirstOf(year, month)) + day - 1
  {
    hide DayFromYear, MonthStart;
    if month >= 1 {
      assert (month - 1) / 12 == 0 && (month - 1) % 12 == month - 1;
    } else {
      assert (month - 1) / 12 == -1 && (month - 1) % 12 == month + 11;
    }
  }

  /** Date.UTC of a day counted from the first of a month, in a year it does not move. */
  lemma UtcFromFirst(year: int, month: int, day: int)
    requires !ShortYear(year) && -11 <= month <= 12
    ensures PartsOf(Utc(year, month - 1, day)) ==
            var n := DayOf(FirstOf(year, month)) + day - 1; if InReach(n) then Some(CivilOf(n)) else None
  {
    hide CivilOf, DayFromYear, MonthStart, MakeDay;
    MonthTurns(year, month, day);
  }

  lemma MonthDayIs(year: int, month: int)
    requires !ShortYear(year) && -11 <= month <= 12
    ensures MonthDay(year, month, 1) == if InReach(DayOf(FirstOf(year, month))) then Some(FirstOf(year, month)) else None
  {
    hide CivilOf, DayFromYear, MonthStart, MakeDay, Utc;
    UtcFromFirst(year, month, 1);
    DayNumbersAreDates(0, FirstOf(year, month));
  }

  lemma YearEnds(year: int)
    ensures DayOf(Date(year, 12, 31)) + 1 == DayOf(Date(year + 1, 1, 1))
  {
    hide DayFromYear;
    NextYear(year);
    YearIsItsMonths(year);
    assert MonthStart(Leap(year), 12) == MonthStart(Leap(year), 11) + 31;
  }

  /** The first of the next month is as many days on as the month has. */
  lemma MonthIsItsDays(year: int, month: int)
    requires -11 <= month < 12
    ensures var d := FirstOf(year, month); DayOf(FirstOf(year, month + 1)) == DayOf(d) + DaysInMonth(d.year, d.month)
  {
    hide CivilOf, DayFromYear;
    var d := FirstOf(year, month);
    if month == 0 {
      YearEnds(year - 1);
    } else {
      DayZero(d);
      MonthTurns(year, month + 1, 0);
    }
  }

  /** The day before a month starts is of the month before. */
  lemma MonthBefore(year: int, month: int)
    requires 1 <= month <= 12
    ensures FirstOfMonth(CivilOf(DayOf(FirstOf(year, month)) - 1)) == FirstOf(year, month - 1)
  {
    hide CivilOf, DayFromYear, MonthStart;
    var first := FirstOf(year, month - 1);
    var last := Date(first.year, first.month, DaysInMonth(first.year, first.month));
    MonthIsItsDays(year, month - 1);
    DayNumbersAreDates(0, last);
  }

  /** Where a period starts: on the day meant, or on none. */
  lemma StartIs(p: Period, today: Date)
    requires Named(p) && !p.LastWeek? && Literal(today)
    ensures PeriodBounds(p, today).Some?
    ensures var first := PeriodBounds(p, today).value.first; first.None? || first.value == FirstMeant(p, today)
    ensures InReach(DayOf(FirstMeant(p, today))) ==> PeriodBounds(p, today).value.first.Some?
  {
    hide CivilOf, DayFromYear, MonthStart, MakeDay, Utc, QuarterStart, DayOf;
    var y, m, q := today.year, today.month, QuarterStart(today.month);
    QuarterOf(m);
    OrdinalIsDay(today);
    match p
    case Yesterday => AddingMoves(today, -1);
    case ThisWeek => AddingMoves(today, MondayBefore(DayOf(today)) - DayOf(today));
    case LastMonth =>
      UtcFromFirst(y, m, 0);
      MonthBefore(y, m);
      FirstsInOrder(y, m - 1, m);
      FirstOfIsRecent(today, y, m);
    case ThisQuarter => MonthDayIs(y, q);
    case LastQuarter => MonthDayIs(y, q - 3);
    case _ =>
  }

  /** Last week is counted from a date already computed. */
  lemma LastWeekIs(today: Date)
    requires Literal(today)
    ensures var monday := CivilOf(MondayBefore(DayOf(today)));
            PeriodBounds(LastWeek, today) ==
            if InReach(DayOf(monday)) then Some(Range(AddCalendarDays(monday, -7), AddCalendarDays(monday, -1)))
            else Some(Range(None, None))
  {
    hide CivilOf, DayFromYear, MonthStart, MakeDay, Utc, DayOf, AddCalendarDays;
    OrdinalIsDay(today);
    AddingMoves(today, MondayBefore(DayOf(today)) - DayOf(today));
  }

  /** A range of dates that Date.UTC reads as written, in order, ending no later than today. */
  ghost predicate Sound(r: Option<Range>, today: Date)
    requires 1 <= today.month <= 12
  {
    && r.Some? && r.value.first.Some? && r.value.last.Some?
    && Literal(r.value.first.value) && Literal(r.value.last.value)
    && DayOf(r.value.first.value) <= DayOf(r.value.last.value) <= DayOf(today)
  }

  /** Both ends of a period that starts on a date Date.UTC reads as written. */
  lemma BoundsAre(p: Period, today: Date)
    requires Named(p) && Literal(today) && Literal(FirstMeant(p, today))
    ensures PeriodBounds(p, today) == Some(Range(Some(FirstMeant(p, today)), Some(CivilOf(LastMeant(p, today)))))
  {
    hide CivilOf, DayFromYear, MonthStart, MakeDay, Utc, QuarterStart, DayOf;
    var y, m, q := today.year, today.month, QuarterStart(today.month);
    QuarterOf(m);
    MeantIsRecent(p, today);
    DayNumbersAreDates(0, today);
    if !p.LastWeek? {
      StartIs(p, today);
    }
    match p
    case Yesterday => AddingMoves(today, -1);
    case LastWeek => LastWeekIsWhole(today);
    case LastMonth => UtcFromFirst(y, m, 0);
    case LastQuarter => UtcFromFirst(y, q, 0);
    case LastYear =>
      YearEnds(y - 1);
      DayNumbersAreDates(0, Date(y - 1, 12, 31));
    case _ =>
  }

  lemma LastWeekIsWhole(today: Date)
    requires Literal(today) && Literal(FirstMeant(LastWeek, today))
    ensures PeriodBounds(LastWeek, today) ==
            Some(Range(Some(FirstMeant(LastWeek, today)), Some(CivilOf(LastMeant(LastWeek, today)))))
  {
    hide CivilOf, DayFromYear, MonthStart, MakeDay, Utc, DayOf;
    var monday := CivilOf(MondayBefore(DayOf(today)));
    BetweenIsLiteral(FirstMeant(LastWeek, today), monday, today);
    LastWeekIs(today);
    AddingMoves(monday, -7);
    AddingMoves(monday, -1);
  }

  /** Only such a start makes it sound: counted from a Monday of a short year it starts nineteen centuries late. */
  lemma LastWeekIsLost(today: Date)
    requires Literal(today)
    ensures Sound(PeriodBounds(LastWeek, today), today) ==> Literal(FirstMeant(LastWeek, today))
  {
    hide CivilOf, DayFromYear, MonthStart, PeriodBounds, MondayBefore;
    var monday := CivilOf(MondayBefore(DayOf(today)));
    LastWeekIs(today);
    if InReach(DayOf(monday)) {
      if ShortYear(monday.year) {
        ShortYearsMove(monday);
        MakeDayIsDayOf(monday.year + 1900, monday.month, monday.day - 7);
      } else {
        AddingMoves(monday, -7);
      }
    }
  }

  /**
   * A named period is a sound range, and is given on as it is, exactly when the day
   * it means to start on is one that Date.UTC reads as written; it then starts on
   * that day and ends on the day it means to.
   */
  lemma NamedPeriodsAreSound(p: Period, today: Date)
    requires Literal(today) && Named(p)
    ensures Sound(PeriodBounds(p, today), today) <==> Literal(FirstMeant(p, today))
    ensures Literal(FirstMeant(p, today)) ==>
              && NamedPeriodRange(p, today) == PeriodBounds(p, today)
              && First(p, today) == DayOf(FirstMeant(p, today)) && Last(p, today) == LastMeant(p, today)
  {
    hide CivilOf, DayFromYear, MonthStart, Utc, MakeDay, PeriodBounds, DayOrdinal, IsRealDate, FirstMeant, LastMeant;
    if Literal(FirstMeant(p, today)) {
      var first, last := FirstMeant(p, today), CivilOf(LastMeant(p, today));
      BoundsAre(p, today);
      MeantIsRecent(p, today);
      BetweenIsLiteral(first, last, today);
      OrdinalIsDay(first);
      OrdinalIsDay(last);
      IsRealDateIff(today);
    } else if p.LastWeek? {
      LastWeekIsLost(today);
    } else {
      StartIs(p, today);
    }
  }

  function First(p: Period, today: Date): int
    requires PeriodBounds(p, today).Some? && PeriodBounds(p, today).value.first.Some?
    requires 1 <= PeriodBounds(p, today).value.first.value.month <= 12
  {
    DayOf(PeriodBounds(p, today).value.first.value)
  }

  function Last(p: Period, today: Date): int
    requires PeriodBounds(p, today).Some? && PeriodBounds(p, today).value.last.Some?
    requires 1 <= PeriodBounds(p, today).value.last.value.month <= 12
  {
    DayOf(PeriodBounds(p, today).value.last.value)
  }

  /** Where the earlier of two periods is sound so is the later, and both start and end as meant. */
  lemma BothSound(earlier: Period, later: Period, today: Date)
    requires Literal(today) && Named(earlier) && Named(later)
    requires Literal(FirstMeant(earlier, today)) && DayOf(FirstMeant(earlier, today)) <= DayOf(FirstMeant(later, today))
    ensures Literal(FirstMeant(later, today))
    ensures Sound(PeriodBounds(earlier, today), today) && Sound(PeriodBounds(later, today), today)
    ensures First(earlier, today) == DayOf(FirstMeant(earlier, today)) && Last(earlier, today) == LastMeant(earlier, today)
    ensures First(later, today) == DayOf(FirstMeant(later, today)) && Last(later, today) == LastMeant(later, today)
  {
    hide PeriodBounds, FirstMeant, LastMeant, DayOf, CivilOf, Sound, First, Last;
    MeantIsRecent(earlier, today);
    MeantIsRecent(later, today);
    BetweenIsLiteral(FirstMeant(earlier, today), FirstMeant(later, today), today);
    NamedPeriodsAreSound(earlier, today);
    NamedPeriodsAreSound(later, today);
  }

  /** This week starts on the Monday at or before today; last week is the seven days before that. */
  lemma Weeks(today: Date)
    requires Literal(today) && Literal(FirstMeant(LastWeek, today))
    ensures Sound(PeriodBounds(LastWeek, today), today) && Sound(PeriodBounds(ThisWeek, today), today)
    ensures Weekday(First(ThisWeek, today)) == 1 && DayOf(today) - 7 < First(ThisWeek, today)
    ensures Last(ThisWeek, today) == DayOf(today)
    ensures Last(LastWeek, today) + 1 == First(ThisWeek, today) == First(LastWeek, today) + 7
  {
    hide PeriodBounds, DayOf, CivilOf, Sound, First, Last;
    BothSound(LastWeek, ThisWeek, today);
  }

  /** Both months start on a first, and last month is the whole of the month before. */
  lemma Months(today: Date)
    requires Literal(today) && Literal(FirstMeant(LastMonth, today))
    ensures Sound(PeriodBounds(LastMonth, today), today) && Sound(PeriodBounds(ThisMonth, today), today)
    ensures PeriodBounds(ThisMonth, today).value.first.value == Date(today.year, today.month, 1)
    ensures Last(ThisMonth, today) == DayOf(today)
    ensures var first := PeriodBounds(LastMonth, today).value.first.value;
            && first.day == 1
            && Last(LastMonth, today) + 1 == First(ThisMonth, today) ==
               First(LastMonth, today) + DaysInMonth(first.year, first.month)
  {
    hide PeriodBounds, DayOf, CivilOf, Sound, MonthStart, DayFromYear;
    FirstsInOrder(today.year, today.month - 1, today.month);
    BothSound(LastMonth, ThisMonth, today);
    BoundsAre(LastMonth, today);
    BoundsAre(ThisMonth, today);
    MonthIsItsDays(today.year, today.month - 1);
  }

  /** Last quarter is the three months before the one that starts this quarter. */
  lemma Quarters(today: Date)
    requires Literal(today) && Literal(FirstMeant(LastQuarter, today))
    ensures Sound(PeriodBounds(LastQuarter, today), today) && Sound(PeriodBounds(ThisQuarter, today), today)
    ensures var first := PeriodBounds(ThisQuarter, today).value.first.value;
            var start := PeriodBounds(LastQuarter, today).value.first.value;
            && first.day == start.day == 1
            && first.month in {1, 4, 7, 10} && first.year == today.year && first.month <= today.month <= first.month + 2
            && 12 * first.year + first.month == 12 * start.year + start.month + 3
    ensures Last(LastQuarter, today) + 1 == First(ThisQuarter, today) && Last(ThisQuarter, today) == DayOf(today)
  {
    hide PeriodBounds, DayOf, CivilOf, Sound, MonthStart, DayFromYear, QuarterStart;
    var q := QuarterStart(today.month);
    QuarterOf(today.month);
    FirstsInOrder(today.year, q - 3, q);
    BothSound(LastQuarter, ThisQuarter, today);
    BoundsAre(LastQuarter, today);
    BoundsAre(ThisQuarter, today);
  }

  /** Last year is the whole of the year before. */
  lemma Years(today: Date)
    requires Literal(today) && Literal(FirstMeant(LastYear, today))
    ensures Sound(PeriodBounds(LastYear, today), today) && Sound(PeriodBounds(ThisYear, today), today)
    ensures First(ThisYear, today) == DayOf(Date(today.year, 1, 1)) && Last(ThisYear, today) == DayOf(today)
    ensures Last(LastYear, today) + 1 == First(ThisYear, today) ==
            First(LastYear, today) + DaysInYear(today.year - 1)
  {
    hide PeriodBounds, CivilOf, Sound;
    FirstsInOrder(today.year, -11, 1);
    BothSound(LastYear, ThisYear, today);
    NextYear(today.year - 1);
  }

  /** The first of the last `days` days, on the calendar. */
  function DaysBack(days: nat, today: Date): (first: Date)
    requires 1 <= today.month <= 12
    ensures Real(first)
  {
    CivilOf(DayOf(today) - (days - 1))
  }

  /** The day number that Date.UTC makes of a date of a short year: the same day nineteen centuries later. */
  function MovedDay(d: Date): int
    requires 1 <= d.month <= 12
  {
    DayOf(Date(d.year + 1900, d.month, d.day))
  }

  lemma MovedIs(d: Date)
    requires Real(d) && ShortYear(d.year)
    ensures DayOrdinal(d) == Some(MovedDay(d))
  {
    hide DayFromYear, MonthStart;
    MakeDayIsDayOf(d.year + 1900, d.month, d.day);
    MovedIsNear(d);
  }

  lemma CenturyIsNear(y: int)
    requires 1900 <= y < 2000
    ensures -30_000 <= DayFromYear(y) <= 30_000
  {
  }

  lemma MonthIsNear(y: int, month: nat)
    requires month < 12
    ensures 0 <= MonthStart(Leap(y), month) <= 366
  {
    hide Leap;
    MonthsIncrease(Leap(y), 0, month);
    MonthsIncrease(Leap(y), month, 12);
    YearIsItsMonths(y);
  }

  /** The twentieth century is well within reach. */
  lemma MovedIsNear(d: Date)
    requires Real(d) && ShortYear(d.year)
    ensures InReach(MovedDay(d))
  {
    hide DayFromYear, MonthStart, Leap;
    CenturyIsNear(d.year + 1900);
    MonthIsNear(d.year + 1900, d.month - 1);
  }

  /**
   * The last `days` days end today, are that many and sound exactly when their first
   * is of no short year.  There is no such period for none or beyond reach; over a
   * short year it is given on just when the first day, read nineteen centuries late,
   * is not after today.
   */
  lemma LastDaysAreThatMany(days: nat, today: Date)
    requires Literal(today)
    ensures days == 0 || !InReach(DayOf(today) - (days - 1)) ==> NamedPeriodRange(LastDays(days), today) == None
    ensures days > 0 && InReach(DayOf(today) - (days - 1)) ==>
              var first := DaysBack(days, today); var given := NamedPeriodRange(LastDays(days), today);
              && PeriodBounds(LastDays(days), today) == Some(Range(Some(first), Some(today)))
              && DayOf(today) - DayOf(first) + 1 == days
              && (Sound(PeriodBounds(LastDays(days), today), today) <==> !ShortYear(first.year))
              && (!ShortYear(first.year) ==> given == PeriodBounds(LastDays(days), today))
              && (ShortYear(first.year) ==>
                    && DayOrdinal(first) == Some(MovedDay(first))
                    && given == if MovedDay(first) <= DayOf(today) then Some(Range(Some(first), Some(today))) else None)
  {
    hide CivilOf, DayFromYear, MonthStart, Utc, MakeDay, AddCalendarDays, DayOrdinal, MovedDay;
    IsRealDateIff(today);
    AddingMoves(today, -(days - 1));
    var first := DaysBack(days, today);
    IsRealDateIff(first);
    OrdinalIsDay(today);
    if Literal(first) {
      OrdinalIsDay(first);
    } else if ShortYear(first.year) {
      MovedIs(first);
    }
  }

  /** One such range: in 2026, so many days that they start in the year 50 are given on from 1950. */
  lemma LastDaysCanStartLate()
    ensures var first, today := Date(50, 1, 1), Date(2026, 1, 1);
            && Literal(today) && DaysBack(721_720, today) == first
            && NamedPeriodRange(LastDays(721_720), today) == Some(Range(Some(first), Some(today)))
            && DayOrdinal(first) == Some(DayOf(Date(1950, 1, 1)))
  {
    hide CivilOf;
    var first, today := Date(50, 1, 1), Date(2026, 1, 1);
    assert DayOf(first) == -701_265 && DayOf(today) == 20_454 && MovedDay(first) == -7_305;
    DayNumbersAreDates(0, first);
    LastDaysAreThatMany(721_720, today);
  }

  /** A day that is not read as it is written gives no range, whatever is asked for. */
  lemma UnreadTodayGivesNothing(p: Period, today: Date)
    requires !Literal(today)
    ensures NamedPeriodRange(p, today).None?
  {
    hide PeriodBounds, CivilOf, DayFromYear, MonthStart;
    IsRealDateIff(today);
  }

  /** A dated range is given on exactly when both dates are real and in order. */
  lemma DatedIsInOrder(a: Date, b: Date, today: Date)
    requires Literal(today)
    ensures NamedPeriodRange(Dated(a, b), today).Some? <==> Literal(a) && Literal(b) && DayOf(a) <= DayOf(b)
    ensures NamedPeriodRange(Dated(a, b), today).Some? ==>
              NamedPeriodRange(Dated(a, b), today) == Some(Range(Some(a), Some(b)))
  {
    hide CivilOf, DayFromYear, MonthStart, Utc, MakeDay, DayOrdinal, IsRealDate;
    IsRealDateIff(today);
    IsRealDateIff(a);
    IsRealDateIff(b);
    if Literal(a) && Literal(b) {
      OrdinalIsDay(a);
      OrdinalIsDay(b);
    }
  }

  /** No date of this month and day lies after `d` and up to the limit. */
  ghost predicate NoneBetween(month: int, day: int, after: int, limit: int) {
    forall y: int :: 1 <= month <= 12 && Real(Date(y, month, day)) ==> !(after < DayOf(Date(y, month, day)) <= limit)
  }

  lemma SameDayEachYear(y: int, z: int, month: int, day: int)
    requires 1 <= month <= 12 && Real(Date(y, month, day)) && Real(Date(z, month, day))
    ensures y < z <==> DayOf(Date(y, month, day)) < DayOf(Date(z, month, day))
  {
    DatesInOrder(Date(y, month, day), Date(z, month, day));
  }

  /** What Date.UTC makes of a month and a day that make a real date in that year. */
  lemma UtcOfReal(year: int, month: int, day: int)
    requires !ShortYear(year) && Real(Date(year, month, day)) && InReach(DayOf(Date(year, month, day)))
    ensures Utc(year, month - 1, day) == Some(DayOf(Date(year, month, day)))
  {
    MakeDayIsDayOf(year, month, day);
  }

  /** A date that Date.UTC reads as written, and not one of the last or the first two years that it can hold. */
  predicate WellInReach(today: Date) {
    Literal(today) && -MAX_DAYS + 740 <= DayOf(today) <= MAX_DAYS - 740
  }

  /**
   * A spoken range starts on the latest such day that is not after today, and ends
   * on the first such day from there on.
   */
  lemma SpokenIsNearest(p: Period, today: Date)
    requires WellInReach(today) && p.Spoken? && PeriodBounds(p, today).Some?
    ensures NamedPeriodRange(p, today) == PeriodBounds(p, today)
    ensures var r := PeriodBounds(p, today).value;
            && r.first.Some? && r.last.Some?
            && var first, last := r.first.value, r.last.value;
            && Real(first) && first.month == p.startMonth && first.day == p.startDay
            && Real(last) && last.month == p.endMonth && last.day == p.endDay
            && DayOf(first) <= DayOf(today) && NoneBetween(p.startMonth, p.startDay, DayOf(first), DayOf(today))
            && DayOf(first) <= DayOf(last) && NoneBetween(p.endMonth, p.endDay, DayOf(first) - 1, DayOf(last) - 1)
  {
    hide CivilOf, DayFromYear, MonthStart, Utc, MakeDay, IsRealDate;
    IsRealDateIff(today);
    IsRealDateIff(Date(StartYear(p, today), p.startMonth, p.startDay));
    IsRealDateIff(Date(EndYear(p, today), p.endMonth, p.endDay));
    SpokenStart(p, today);
    SpokenEnd(p, today);
    var r := PeriodBounds(p, today).value;
    OrdinalIsDay(r.first.value);
    OrdinalIsDay(r.last.value);
  }

  /** The year a spoken range starts in. */
  function StartYear(p: Period, today: Date): int
    requires p.Spoken?
  {
    if Later(Utc(today.year, p.startMonth - 1, p.startDay), DayOrdinal(today)) then today.year - 1 else today.year
  }

  /** And the year it ends in. */
  function EndYear(p: Period, today: Date): int
    requires p.Spoken?
  {
    var y := StartYear(p, today);
    if Later(Utc(y, p.startMonth - 1, p.startDay), Utc(y, p.endMonth - 1, p.endDay)) then y + 1 else y
  }

  /** A month and day that every year has. */
  predicate EveryYear(month: int, day: int) {
    1 <= month <= 12 && 1 <= day <= MonthLength(false, month - 1)
  }

  predicate LeapDay(month: int, day: int) {
    month == 2 && day == 29
  }

  predicate EveryOrLeap(month: int, day: int) {
    EveryYear(month, day) || LeapDay(month, day)
  }

  lemma RealIn(year: int, month: int, day: int)
    ensures Real(Date(year, month, day)) <==> EveryYear(month, day) || (LeapDay(month, day) && Leap(year))
  {
  }

  /** A month and day comes after another in any one year. */
  predicate LaterInYear(month: int, day: int, otherMonth: int, otherDay: int) {
    month > otherMonth || (month == otherMonth && day > otherDay)
  }

  /** Where 29 February falls in a year that has none, Date.UTC reads 1 March. */
  function ReadAs(year: int, month: int, day: int): Date {
    if LeapDay(month, day) && !Leap(year) then Date(year, 3, 1) else Date(year, month, day)
  }

  lemma ReadIs(year: int, month: int, day: int)
    requires EveryOrLeap(month, day)
    ensures Real(ReadAs(year, month, day)) && MakeDay(year, month - 1, day) == DayOf(ReadAs(year, month, day))
  {
    hide DayFromYear;
    MakeDayIsDayOf(year, month, day);
    assert MonthStart(Leap(year), 2) == MonthStart(Leap(year), 1) + MonthLength(Leap(year), 1);
  }

  /** The year a spoken range means to start in. */
  function StartMeant(p: Period, today: Date): int
    requires p.Spoken?
  {
    if LaterInYear(p.startMonth, p.startDay, today.month, today.day) then today.year - 1 else today.year
  }

  function EndMeant(p: Period, today: Date): int
    requires p.Spoken?
  {
    if LaterInYear(p.startMonth, p.startDay, p.endMonth, p.endDay) then StartMeant(p, today) + 1 else StartMeant(p, today)
  }

  lemma WithinAYear(today: Date, d: Date)
    requires WellInReach(today) && Real(d) && today.year - 1 <= d.year <= today.year + 1
    ensures InReach(DayOf(d))
  {
    hide DayFromYear, MonthStart;
    WithinItsYear(today);
    WithinItsYear(d);
    NextYear(today.year - 1);
    NextYear(today.year);
    assert DayOf(d) == DayFromYear(d.year) + Within(d) && DayOf(today) == DayFromYear(today.year) + Within(today);
  }

  lemma StartYearIs(p: Period, today: Date)
    requires WellInReach(today) && p.Spoken?
    requires EveryOrLeap(p.startMonth, p.startDay)
    ensures StartYear(p, today) == StartMeant(p, today)
  {
    hide CivilOf, DayFromYear, MonthStart, MakeDay;
    var read := ReadAs(today.year, p.startMonth, p.startDay);
    ReadIs(today.year, p.startMonth, p.startDay);
    WithinAYear(today, read);
    OrdinalIsDay(today);
    DatesInOrder(today, read);
  }

  /** The year it ends in, except that from 1 March no 29 February is found. */
  lemma EndYearIs(p: Period, today: Date)
    requires WellInReach(today) && p.Spoken?
    requires EveryOrLeap(p.startMonth, p.startDay)
    requires EveryOrLeap(p.endMonth, p.endDay)
    requires !ShortYear(StartYear(p, today))
    ensures EndYear(p, today) ==
            if LeapDay(p.endMonth, p.endDay) && p.startMonth == 3 && p.startDay == 1 && !Leap(StartMeant(p, today))
            then StartMeant(p, today)
            else EndMeant(p, today)
  {
    hide CivilOf, DayFromYear, MonthStart, MakeDay, StartYear;
    var y := StartYear(p, today);
    StartYearIs(p, today);
    var start, end := ReadAs(y, p.startMonth, p.startDay), ReadAs(y, p.endMonth, p.endDay);
    ReadIs(y, p.startMonth, p.startDay);
    ReadIs(y, p.endMonth, p.endDay);
    WithinAYear(today, start);
    WithinAYear(today, end);
    DatesInOrder(end, start);
  }

  /**
   * When a spoken range is given: each end must be a day of the year it means,
   * which fails only for 29 February, in a year that has none and, as an end, after
   * a start on 1 March whatever the year; and neither year one that Date.UTC moves.
   */
  lemma SpokenIsGivenIff(p: Period, today: Date)
    requires WellInReach(today) && p.Spoken?
    ensures PeriodBounds(p, today).Some? <==>
              && (EveryYear(p.startMonth, p.startDay) || (LeapDay(p.startMonth, p.startDay) && Leap(StartMeant(p, today))))
              && (EveryYear(p.endMonth, p.endDay)
                  || (LeapDay(p.endMonth, p.endDay) && Leap(EndMeant(p, today)) && !(p.startMonth == 3 && p.startDay == 1)))
              && !ShortYear(StartMeant(p, today)) && !ShortYear(EndMeant(p, today))
  {
    hide CivilOf, DayFromYear, MonthStart, Utc, MakeDay, IsRealDate, StartYear, EndYear;
    var first := Date(StartYear(p, today), p.startMonth, p.startDay);
    var last := Date(EndYear(p, today), p.endMonth, p.endDay);
    SpokenYears(p, today);
    IsRealDateIff(first);
    IsRealDateIff(last);
    RealIn(first.year, first.month, first.day);
    RealIn(last.year, last.month, last.day);
    if EveryOrLeap(p.startMonth, p.startDay) && EveryOrLeap(p.endMonth, p.endDay) {
      StartYearIs(p, today);
      var y := first.year;
      assert Leap(y) ==> !Leap(y + 1);
      if Real(first) && !ShortYear(y) {
        WithinAYear(today, first);
        EndYearIs(p, today);
        if Real(last) {
          WithinAYear(today, last);
        }
      }
    }
  }

  /** The two ends are looked for in these years. */
  lemma SpokenYears(p: Period, today: Date)
    requires p.Spoken?
    ensures PeriodBounds(p, today) ==
            RealRange(Date(StartYear(p, today), p.startMonth, p.startDay), Date(EndYear(p, today), p.endMonth, p.endDay))
  {
    hide Utc, IsRealDate, CivilOf, DayOrdinal, RealRange;
  }

  lemma SpokenStart(p: Period, today: Date)
    requires WellInReach(today) && p.Spoken?
    requires Literal(Date(StartYear(p, today), p.startMonth, p.startDay))
    ensures var first := Date(StartYear(p, today), p.startMonth, p.startDay);
            Real(first) && DayOf(first) <= DayOf(today) && NoneBetween(p.startMonth, p.startDay, DayOf(first), DayOf(today))
  {
    hide CivilOf, DayFromYear, MonthStart, Utc, MakeDay, IsRealDate;
    var first := Date(StartYear(p, today), p.startMonth, p.startDay);
    IsRealDateIff(first);
    IsRealDateIff(today);
    OrdinalIsDay(today);
    OrdinalIsDay(first);
    if first.year < today.year {
      DatesInOrder(first, today);
    }
    forall y: int | Real(Date(y, p.startMonth, p.startDay))
      ensures !(DayOf(first) < DayOf(Date(y, p.startMonth, p.startDay)) <= DayOf(today))
    {
      var other := Date(y, p.startMonth, p.startDay);
      SameDayEachYear(first.year, y, p.startMonth, p.startDay);
      DatesInOrder(today, other);
      if y == today.year && InReach(DayOf(other)) {
        UtcOfReal(y, p.startMonth, p.startDay);
      }
    }
  }

  lemma SpokenEnd(p: Period, today: Date)
    requires p.Spoken?
    requires Literal(Date(StartYear(p, today), p.startMonth, p.startDay))
    requires Literal(Date(EndYear(p, today), p.endMonth, p.endDay))
    ensures var first := Date(StartYear(p, today), p.startMonth, p.startDay);
            var last := Date(EndYear(p, today), p.endMonth, p.endDay);
            && Real(last) && Real(first) && DayOf(first) <= DayOf(last)
            && NoneBetween(p.endMonth, p.endDay, DayOf(first) - 1, DayOf(last) - 1)
  {
    hide CivilOf, DayFromYear, MonthStart, Utc, MakeDay, IsRealDate, StartYear;
    var first := Date(StartYear(p, today), p.startMonth, p.startDay);
    var last := Date(EndYear(p, today), p.endMonth, p.endDay);
    IsRealDateIff(first);
    IsRealDateIff(last);
    OrdinalIsDay(first);
    OrdinalIsDay(last);
    DatesInOrder(first, last);
    forall y: int | Real(Date(y, p.endMonth, p.endDay))
      ensures !(DayOf(first) - 1 < DayOf(Date(y, p.endMonth, p.endDay)) <= DayOf(last) - 1)
    {
      var other := Date(y, p.endMonth, p.endDay);
      SameDayEachYear(y, last.year, p.endMonth, p.endDay);
      DatesInOrder(other, first);
      if y == first.year && InReach(DayOf(other)) {
        UtcOfReal(y, p.endMonth, p.endDay);
      }
    }
  }
}
