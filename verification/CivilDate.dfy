/**
 * Civil dates and day numbers, as section 21.4.1 of ECMA-262 defines them: the
 * proleptic Gregorian calendar, day 0 being 1 January 1970.
 */
module CivilDate {
  /** A calendar date; the month counts from one. */
  datatype Date = Date(year: int, month: int, day: int)

  predicate Leap(y: int) {
    y % 4 == 0 && (y % 100 != 0 || y % 400 == 0)
  }

  function DaysInYear(y: int): int {
    if Leap(y) then 366 else 365
  }

  /** The day number of 1 January. */
  function DayFromYear(y: int): int {
    365 * (y - 1970) + (y - 1969) / 4 - (y - 1901) / 100 + (y - 1601) / 400
  }

  function MonthLength(leap: bool, m: nat): int
    requires m < 12
  {
    if m == 1 then (if leap then 29 else 28) else if m == 3 || m == 5 || m == 8 || m == 10 then 30 else 31
  }

  /** Days of the year before a month, months counting from zero. */
  function MonthStart(leap: bool, m: nat): int
    requires m <= 12
  {
    if m == 0 then 0 else MonthStart(leap, m - 1) + MonthLength(leap, m - 1)
  }

  function DaysInMonth(y: int, month: int): int
    requires 1 <= month <= 12
  {
    MonthLength(Leap(y), month - 1)
  }

  predicate Real(d: Date) {
    1 <= d.month <= 12 && 1 <= d.day <= DaysInMonth(d.year, d.month)
  }

  /** Any month and day are normal here: a month past December is in a later year. */
  function MakeDay(year: int, month: int, day: int): int {
    DayFromYear(year + month / 12) + MonthStart(Leap(year + month / 12), month % 12) + day - 1
  }

  /** The day number of a date of a named month. */
  function DayOf(d: Date): int
    requires 1 <= d.month <= 12
  {
    DayFromYear(d.year) + MonthStart(Leap(d.year), d.month - 1) + d.day - 1
  }

  lemma MakeDayIsDayOf(year: int, month: int, day: int)
    requires 1 <= month <= 12
    ensures MakeDay(year, month - 1, day) == DayOf(Date(year, month, day))
  {
    assert (month - 1) / 12 == 0 && (month - 1) % 12 == month - 1;
  }

  lemma NextYear(y: int)
    ensures DayFromYear(y + 1) == DayFromYear(y) + DaysInYear(y)
  {
    YearQuarters(y);
    YearCenturies(y);
  }

  lemma YearIsItsMonths(y: int)
    ensures MonthStart(Leap(y), 12) == DaysInYear(y)
  {
    var leap := Leap(y);
    assert MonthStart(leap, 1) == 31;
    assert MonthStart(leap, 2) == if leap then 60 else 59;
    assert MonthStart(leap, 3) == MonthStart(leap, 2) + 31;
    assert MonthStart(leap, 4) == MonthStart(leap, 2) + 61;
    assert MonthStart(leap, 5) == MonthStart(leap, 2) + 92;
    assert MonthStart(leap, 6) == MonthStart(leap, 2) + 122;
    assert MonthStart(leap, 7) == MonthStart(leap, 2) + 153;
    assert MonthStart(leap, 8) == MonthStart(leap, 2) + 184;
    assert MonthStart(leap, 9) == MonthStart(leap, 2) + 214;
    assert MonthStart(leap, 10) == MonthStart(leap, 2) + 245;
    assert MonthStart(leap, 11) == MonthStart(leap, 2) + 275;
  }

  lemma YearQuarters(y: int)
    ensures (y + 1 - 1969) / 4 == (y - 1969) / 4 + if y % 4 == 0 then 1 else 0
  {
  }

  lemma YearCenturies(y: int)
    ensures (y + 1 - 1901) / 100 == (y - 1901) / 100 + if y % 100 == 0 then 1 else 0
    ensures (y + 1 - 1601) / 400 == (y - 1601) / 400 + if y % 400 == 0 then 1 else 0
    ensures y % 400 == 0 ==> y % 100 == 0
    ensures y % 100 == 0 ==> y % 4 == 0
  {
    assert y % 100 == 0 ==> y == 100 * (y / 100) == 4 * (25 * (y / 100));
  }

  lemma {:induction false} YearsIncrease(a: int, b: int)
    requires a <= b
    ensures DayFromYear(b) >= DayFromYear(a) + 365 * (b - a)
    decreases b - a
  {
    if a < b {
      YearsIncrease(a, b - 1);
      NextYear(b - 1);
    }
  }

  // --------------------------------------------------------- day number to date

  /** A year that starts no later than the day. */
  function EarlyYear(n: int): int {
    if n >= 0 then 1970 + n / 366 else 1970 + n / 365
  }

  lemma EarlyYearIsEarly(n: int)
    ensures DayFromYear(EarlyYear(n)) <= n
  {
    var k := EarlyYear(n) - 1970;
    if n >= 0 {
      assert 366 * k <= n;
      assert (k + 1) / 4 - (k + 69) / 100 + (k + 369) / 400 <= k;
    } else {
      assert 365 * k <= n;
      assert (k + 1) / 4 - (k + 69) / 100 + (k + 369) / 400 <= 0;
    }
  }

  function YearFrom(n: int, y: int): (r: int)
    requires DayFromYear(y) <= n
    ensures DayFromYear(r) <= n < DayFromYear(r + 1)
    decreases n - DayFromYear(y)
  {
    NextYear(y);
    if DayFromYear(y + 1) <= n then YearFrom(n, y + 1) else y
  }

  function YearOf(n: int): (y: int)
    ensures DayFromYear(y) <= n < DayFromYear(y) + DaysInYear(y)
  {
    EarlyYearIsEarly(n);
    var y := YearFrom(n, EarlyYear(n));
    NextYear(y);
    y
  }

  /** The month, from one, of a day of the year. */
  function MonthFrom(leap: bool, within: int, m: nat): (month: int)
    requires m < 12 && MonthStart(leap, m) <= within < MonthStart(leap, 12)
    ensures 1 <= month <= 12 && MonthStart(leap, month - 1) <= within < MonthStart(leap, month)
    decreases 12 - m
  {
    if within < MonthStart(leap, m + 1) then m + 1 else MonthFrom(leap, within, m + 1)
  }

  /** The day `within` its year. */
  function DateIn(y: int, within: int, month: int): (d: Date)
    requires 1 <= month <= 12 && MonthStart(Leap(y), month - 1) <= within < MonthStart(Leap(y), month)
    ensures Real(d) && DayOf(d) == DayFromYear(y) + within
  {
    Date(y, month, within - MonthStart(Leap(y), month - 1) + 1)
  }

  function CivilOf(n: int): (d: Date)
    ensures Real(d) && DayOf(d) == n
  {
    var y := YearOf(n);
    YearIsItsMonths(y);
    DateIn(y, n - DayFromYear(y), MonthFrom(Leap(y), n - DayFromYear(y), 0))
  }

  lemma {:induction false} MonthsIncrease(leap: bool, a: nat, b: nat)
    requires a <= b <= 12
    ensures MonthStart(leap, a) <= MonthStart(leap, b)
    decreases b - a
  {
    if a < b {
      MonthsIncrease(leap, a, b - 1);
    }
  }

  /** The day of a year that a date is. */
  function Within(d: Date): int
    requires Real(d)
  {
    MonthStart(Leap(d.year), d.month - 1) + d.day - 1
  }

  lemma WithinItsYear(d: Date)
    requires Real(d)
    ensures 0 <= Within(d) < DaysInYear(d.year)
  {
    MonthsIncrease(Leap(d.year), 0, d.month - 1);
    MonthsIncrease(Leap(d.year), d.month, 12);
    YearIsItsMonths(d.year);
  }

  lemma WithinInOrder(a: Date, b: Date)
    requires Real(a) && Real(b) && a.year == b.year && a.month < b.month
    ensures Within(a) < Within(b)
  {
    MonthsIncrease(Leap(a.year), a.month, b.month - 1);
  }

  ghost predicate Before(a: Date, b: Date) {
    a.year < b.year || (a.year == b.year && (a.month < b.month || (a.month == b.month && a.day < b.day)))
  }

  lemma EarlierIsLess(a: Date, b: Date)
    requires Real(a) && Real(b) && Before(a, b)
    ensures DayOf(a) < DayOf(b)
  {
    WithinItsYear(a);
    WithinItsYear(b);
    assert DayOf(a) == DayFromYear(a.year) + Within(a) && DayOf(b) == DayFromYear(b.year) + Within(b);
    if a.year < b.year {
      NextYear(a.year);
      YearsIncrease(a.year + 1, b.year);
    } else if a.month < b.month {
      WithinInOrder(a, b);
    }
  }

  /** Real dates are ordered as their day numbers are. */
  lemma DatesInOrder(a: Date, b: Date)
    requires Real(a) && Real(b)
    ensures DayOf(a) < DayOf(b) <==> Before(a, b)
    ensures DayOf(a) == DayOf(b) <==> a == b
  {
    if Before(a, b) {
      EarlierIsLess(a, b);
    } else if Before(b, a) {
      EarlierIsLess(b, a);
    }
  }

  /** Day numbers and real dates are two names of the same days. */
  lemma DayNumbersAreDates(n: int, d: Date)
    ensures Real(CivilOf(n)) && DayOf(CivilOf(n)) == n
    ensures Real(d) ==> CivilOf(DayOf(d)) == d
  {
    if Real(d) {
      DatesInOrder(CivilOf(DayOf(d)), d);
    }
  }
}
