/** Proleptic Gregorian civil dates in UTC, counted in days from 1970-01-01,
    and the strict "2006-01-02" layout of Go's time.Parse. */
module Calendar {
  import opened Common

  const SecondsPerDay: int := 86400

  predicate IsLeap(y: int) {
    y % 4 == 0 && (y % 100 != 0 || y % 400 == 0)
  }

  function YearDays(y: int): int {
    if IsLeap(y) then 366 else 365
  }

  function DaysInMonth(y: int, m: int): (n: int)
    requires 1 <= m <= 12
    ensures 28 <= n <= 31
  {
    if m == 2 then (if IsLeap(y) then 29 else 28)
    else if m == 4 || m == 6 || m == 9 || m == 11 then 30
    else 31
  }

  /** Days from 1970-01-01 to January 1 of year y. */
  function DaysBeforeYear(y: int): int
    decreases if y >= 1970 then y - 1970 else 1970 - y
  {
    if y == 1970 then 0
    else if y > 1970 then DaysBeforeYear(y - 1) + YearDays(y - 1)
    else DaysBeforeYear(y + 1) - YearDays(y)
  }

  lemma NextYear(y: int)
    ensures DaysBeforeYear(y + 1) == DaysBeforeYear(y) + YearDays(y)
  {
  }

  lemma {:induction false} YearsIncrease(a: int, b: int)
    requires a < b
    ensures DaysBeforeYear(a + 1) <= DaysBeforeYear(b)
    decreases b - a
  {
    NextYear(a);
    if a + 1 < b {
      YearsIncrease(a + 1, b);
      NextYear(a + 1);
    }
  }

  /** Days from January 1 to the first day of month m of year y (m = 13 gives the year length). */
  function DaysBeforeMonth(y: int, m: int): (n: int)
    requires 1 <= m <= 13
    ensures n >= 0
  {
    if m == 1 then 0 else DaysBeforeMonth(y, m - 1) + DaysInMonth(y, m - 1)
  }

  lemma MonthsFillYear(y: int)
    ensures DaysBeforeMonth(y, 13) == YearDays(y)
  {
    assert DaysBeforeMonth(y, 2) == 31;
    assert DaysBeforeMonth(y, 3) == 31 + DaysInMonth(y, 2);
    assert DaysBeforeMonth(y, 4) == DaysBeforeMonth(y, 3) + 31;
    assert DaysBeforeMonth(y, 5) == DaysBeforeMonth(y, 4) + 30;
    assert DaysBeforeMonth(y, 6) == DaysBeforeMonth(y, 5) + 31;
    assert DaysBeforeMonth(y, 7) == DaysBeforeMonth(y, 6) + 30;
    assert DaysBeforeMonth(y, 8) == DaysBeforeMonth(y, 7) + 31;
    assert DaysBeforeMonth(y, 9) == DaysBeforeMonth(y, 8) + 31;
    assert DaysBeforeMonth(y, 10) == DaysBeforeMonth(y, 9) + 30;
    assert DaysBeforeMonth(y, 11) == DaysBeforeMonth(y, 10) + 31;
    assert DaysBeforeMonth(y, 12) == DaysBeforeMonth(y, 11) + 30;
    assert DaysBeforeMonth(y, 13) == DaysBeforeMonth(y, 12) + 31;
  }

  lemma {:induction false} MonthsIncrease(y: int, a: int, b: int)
    requires 1 <= a < b <= 13
    ensures DaysBeforeMonth(y, a + 1) <= DaysBeforeMonth(y, b)
    decreases b - a
  {
    if a + 1 < b {
      MonthsIncrease(y, a + 1, b);
    }
  }

  /** The day number of y-m-d. */
  function DaysFromCivil(y: int, m: int, d: int): int
    requires 1 <= m <= 12
  {
    DaysBeforeYear(y) + DaysBeforeMonth(y, m) + d - 1
  }

  function YearFrom(days: int, y: int): (r: int)
    requires DaysBeforeYear(y) <= days
    ensures DaysBeforeYear(r) <= days < DaysBeforeYear(r + 1)
    decreases days - DaysBeforeYear(y)
  {
    NextYear(y);
    if days < DaysBeforeYear(y + 1) then y else YearFrom(days, y + 1)
  }

  function YearAtOrBelow(days: int, y: int): (r: int)
    ensures DaysBeforeYear(r) <= days < DaysBeforeYear(r + 1)
    decreases if DaysBeforeYear(y) > days then DaysBeforeYear(y) - days else 0
  {
    if DaysBeforeYear(y) > days then
      NextYear(y - 1);
      YearAtOrBelow(days, y - 1)
    else YearFrom(days, y)
  }

  /** The year that contains day number `days`. */
  function YearOf(days: int): (y: int)
    ensures DaysBeforeYear(y) <= days < DaysBeforeYear(y + 1)
  {
    YearAtOrBelow(days, 1970)
  }

  /** The year containing a day is the only one whose span holds it. */
  lemma YearOfUnique(days: int, y: int)
    requires DaysBeforeYear(y) <= days < DaysBeforeYear(y + 1)
    ensures YearOf(days) == y
  {
    var r := YearOf(days);
    if r < y {
      YearsIncrease(r, y);
    } else if y < r {
      YearsIncrease(y, r);
    }
  }

  function MonthFrom(y: int, doy: int, m: int): (r: int)
    requires 1 <= m <= 12
    requires DaysBeforeMonth(y, m) <= doy < YearDays(y)
    ensures m <= r <= 12
    ensures DaysBeforeMonth(y, r) <= doy < DaysBeforeMonth(y, r + 1)
    decreases 12 - m
  {
    MonthsFillYear(y);
    if doy < DaysBeforeMonth(y, m + 1) then m
    else
      if m == 12 then assert false; m
      else MonthFrom(y, doy, m + 1)
  }

  datatype Date = Date(year: int, month: int, day: int)

  predicate ValidDate(dt: Date) {
    1 <= dt.month <= 12 && 1 <= dt.day <= DaysInMonth(dt.year, dt.month)
  }

  /** The civil date of day number `days`. */
  function CivilFromDays(days: int): (dt: Date)
    ensures ValidDate(dt)
    ensures DaysFromCivil(dt.year, dt.month, dt.day) == days
  {
    var y := YearOf(days);
    NextYear(y);
    MonthsFillYear(y);
    var m := MonthFrom(y, days - DaysBeforeYear(y), 1);
    Date(y, m, days - DaysBeforeYear(y) - DaysBeforeMonth(y, m) + 1)
  }

  /** The month holding a day of the year is the only one whose span holds it. */
  lemma MonthFromUnique(y: int, doy: int, m: int)
    requires 1 <= m <= 12
    requires DaysBeforeMonth(y, m) <= doy < DaysBeforeMonth(y, m + 1)
    requires doy < YearDays(y)
    ensures MonthFrom(y, doy, 1) == m
  {
    MonthsFillYear(y);
    if m < 12 {
      MonthsIncrease(y, m, 13);
    }
    var r := MonthFrom(y, doy, 1);
    if r < m {
      MonthsIncrease(y, r, m);
    } else if m < r {
      MonthsIncrease(y, m, r);
    }
  }

  /** Day numbers and valid dates correspond one to one. */
  lemma CivilFromDaysOf(dt: Date)
    requires ValidDate(dt)
    ensures CivilFromDays(DaysFromCivil(dt.year, dt.month, dt.day)) == dt
  {
    var n := DaysFromCivil(dt.year, dt.month, dt.day);
    var y := dt.year;
    NextYear(y);
    MonthsFillYear(y);
    if dt.month < 12 {
      MonthsIncrease(y, dt.month, 13);
    }
    YearOfUnique(n, y);
    MonthFromUnique(y, n - DaysBeforeYear(y), dt.month);
  }

  /** The day number of an instant (floor division: instants before 1970 fall on earlier days). */
  function DayOf(t: int): int {
    t / SecondsPerDay
  }

  /** time.Weekday: 0 is Sunday; 1970-01-01 was a Thursday. */
  function Weekday(days: int): (wd: int)
    ensures 0 <= wd < 7
  {
    (days + 4) % 7
  }

  // ---------------------------------------------------------------------------
  // time.Parse("2006-01-02", s)
  // ---------------------------------------------------------------------------

  /** A parsed date, as time.Parse returns it, stands for midnight UTC of that day;
      time.Time{} is midnight of January 1 of year 1. */
  const ZeroDate := Date(1, 1, 1)

  /** Dates in time order (the lexicographic order of year, month, day). */
  predicate DateBefore(a: Date, b: Date) {
    a.year < b.year || (a.year == b.year && (a.month < b.month || (a.month == b.month && a.day < b.day)))
  }

  /** A number that orders valid dates as DateBefore does. */
  function DateOrdinal(dt: Date): (n: int)
    ensures ValidDate(dt) ==> n == dt.year * 10000 + dt.month * 100 + dt.day
  {
    dt.year * 10000 + dt.month * 100 + dt.day
  }

  lemma DateOrdinalOrders(a: Date, b: Date)
    requires ValidDate(a) && ValidDate(b)
    ensures DateBefore(a, b) <==> DateOrdinal(a) < DateOrdinal(b)
  {
  }

  /** Midnight UTC of a date, in seconds since the epoch. */
  function DateSeconds(dt: Date): int
    requires ValidDate(dt)
  {
    DaysFromCivil(dt.year, dt.month, dt.day) * SecondsPerDay
  }

  /** time.Parse("2006-01-02", s): exactly four year digits, a dash, two month
      digits, a dash and two day digits, the month in 1..12 and the day inside
      that month; nothing may follow. */
  function ParseDate(s: string): (r: Option<Date>)
    ensures r.Some? ==> ValidDate(r.value) && 0 <= r.value.year <= 9999
    ensures r.Some? ==> |s| == 10 && s[4] == '-' && s[7] == '-'
  {
    if |s| == 10 && s[4] == '-' && s[7] == '-'
       && IsDigit(s[0]) && IsDigit(s[1]) && IsDigit(s[2]) && IsDigit(s[3])
       && IsDigit(s[5]) && IsDigit(s[6]) && IsDigit(s[8]) && IsDigit(s[9])
    then
      var y := DigitValue(s[0]) * 1000 + DigitValue(s[1]) * 100 + DigitValue(s[2]) * 10 + DigitValue(s[3]);
      var m := DigitValue(s[5]) * 10 + DigitValue(s[6]);
      var d := DigitValue(s[8]) * 10 + DigitValue(s[9]);
      if 1 <= m <= 12 && 1 <= d <= DaysInMonth(y, m) then Some(Date(y, m, d)) else None
    else None
  }
}
