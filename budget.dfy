/** Budget checks (internal/analytics/budget.go): the current week or month,
    the spend so far projected over the whole period, and an ok / warning /
    exceeded status. Instants are whole seconds since 1970-01-01 00:00 UTC. */
module Budget {
  import opened Common
  import opened Calendar

  datatype BudgetStatus = OK | Warning | Exceeded

  datatype BudgetResult = BudgetResult(
    status: BudgetStatus,
    thresholdUSD: real,
    actualUSD: real,
    projectedUSD: real,
    percentageUsed: real,
    periodStart: int,
    periodEnd: int,
    checkType: string)

  // ---------------------------------------------------------------------------
  // Period bounds
  // ---------------------------------------------------------------------------

  /** The Monday on or before a day (Sunday counts as the seventh day of the week). */
  function WeekStartDay(days: int): (s: int)
    ensures s <= days < s + 7
    ensures Weekday(s) == 1
  {
    var wd := Weekday(days);
    var wd := if wd == 0 then 7 else wd;
    days - (wd - 1)
  }

  /** The first day of the month holding a day. */
  function MonthStartDay(days: int): int {
    var dt := CivilFromDays(days);
    DaysFromCivil(dt.year, dt.month, 1)
  }

  /** The first day of the month after the one holding a day. */
  function NextMonthStartDay(days: int): int {
    var dt := CivilFromDays(days);
    if dt.month == 12 then DaysFromCivil(dt.year + 1, 1, 1) else DaysFromCivil(dt.year, dt.month + 1, 1)
  }

  lemma MonthHoldsDay(days: int)
    ensures MonthStartDay(days) <= days < NextMonthStartDay(days)
  {
    var dt := CivilFromDays(days);
    var y, m := dt.year, dt.month;
    var first := DaysBeforeYear(y) + DaysBeforeMonth(y, m);
    assert MonthStartDay(days) == first;
    assert first <= days < first + DaysInMonth(y, m);
    assert DaysBeforeMonth(y, m + 1) == DaysBeforeMonth(y, m) + DaysInMonth(y, m);
    if m == 12 {
      NextYear(y);
      MonthsFillYear(y);
      assert NextMonthStartDay(days) == DaysBeforeYear(y + 1);
    } else {
      assert NextMonthStartDay(days) == DaysBeforeYear(y) + DaysBeforeMonth(y, m + 1);
    }
  }

  /** The period as day numbers: the first day and the day after the last. */
  function PeriodDays(days: int, checkType: string): (b: (int, int))
    ensures b.0 <= days < b.1
  {
    if checkType == "weekly" then
      var start := WeekStartDay(days);
      (start, start + 7)
    else
      MonthHoldsDay(days);
      (MonthStartDay(days), NextMonthStartDay(days))
  }

  /** Midnights of the days around an instant enclose it. */
  lemma MidnightsEnclose(now: int, first: int, next: int)
    requires first <= DayOf(now) < next
    ensures first * SecondsPerDay <= now < next * SecondsPerDay
    ensures (first * SecondsPerDay) % SecondsPerDay == 0 && (next * SecondsPerDay) % SecondsPerDay == 0
    ensures next * SecondsPerDay - first * SecondsPerDay >= SecondsPerDay
  {
  }

  /** periodBounds: a week from Monday midnight for "weekly", otherwise the
      calendar month; either way the period holds the instant and starts and
      ends at midnight. */
  function PeriodBounds(now: int, checkType: string): (b: (int, int))
    ensures b.0 <= now < b.1
    ensures b.0 % SecondsPerDay == 0 && b.1 % SecondsPerDay == 0
    ensures b.1 - b.0 >= SecondsPerDay
  {
    var (first, next) := PeriodDays(DayOf(now), checkType);
    MidnightsEnclose(now, first, next);
    (first * SecondsPerDay, next * SecondsPerDay)
  }

  /** A weekly period starts on the Monday of the instant's week and lasts seven days. */
  lemma WeeklyBounds(now: int)
    ensures var (start, end) := PeriodBounds(now, "weekly");
      && Weekday(start / SecondsPerDay) == 1
      && DayOf(now) - 7 < start / SecondsPerDay <= DayOf(now)
      && end == start + 7 * SecondsPerDay
  {
  }

  /** A monthly period runs from the first of the instant's month to the first
      of the next month. */
  lemma MonthlyBounds(now: int, checkType: string)
    requires checkType != "weekly"
    ensures var dt := CivilFromDays(DayOf(now));
      var (start, end) := PeriodBounds(now, checkType);
      && CivilFromDays(start / SecondsPerDay) == Date(dt.year, dt.month, 1)
      && CivilFromDays(end / SecondsPerDay)
         == (if dt.month == 12 then Date(dt.year + 1, 1, 1) else Date(dt.year, dt.month + 1, 1))
  {
    var days := DayOf(now);
    assert PeriodBounds(now, checkType) == (MonthStartDay(days) * SecondsPerDay, NextMonthStartDay(days) * SecondsPerDay);
    WholeDays(MonthStartDay(days));
    WholeDays(NextMonthStartDay(days));
    MonthStartCivil(days);
    NextMonthStartCivil(days);
  }

  lemma MonthStartCivil(days: int)
    ensures var dt := CivilFromDays(days);
      CivilFromDays(MonthStartDay(days)) == Date(dt.year, dt.month, 1)
  {
    var dt := CivilFromDays(days);
    CivilFromDaysOf(Date(dt.year, dt.month, 1));
  }

  lemma NextMonthStartCivil(days: int)
    ensures var dt := CivilFromDays(days);
      CivilFromDays(NextMonthStartDay(days))
      == (if dt.month == 12 then Date(dt.year + 1, 1, 1) else Date(dt.year, dt.month + 1, 1))
  {
    var dt := CivilFromDays(days);
    var next := if dt.month == 12 then Date(dt.year + 1, 1, 1) else Date(dt.year, dt.month + 1, 1);
    assert NextMonthStartDay(days) == DaysFromCivil(next.year, next.month, next.day);
    CivilFromDaysOf(next);
  }

  lemma WholeDays(k: int)
    ensures (k * SecondsPerDay) / SecondsPerDay == k
  {
  }

  // ---------------------------------------------------------------------------
  // Projection and status
  // ---------------------------------------------------------------------------

  /** Days elapsed since the start of the period, at least one. */
  function ElapsedDays(now: int, start: int): (d: real)
    ensures d >= 1.0
  {
    var e := (now - start) as real / SecondsPerDay as real;
    if e < 1.0 then 1.0 else e
  }

  function TotalDays(start: int, end: int): real {
    (end - start) as real / SecondsPerDay as real
  }

  function Scale(actual: real, ratio: real): real { actual * ratio }

  /** The spend extrapolated linearly over the whole period. */
  function Projected(now: int, actual: real, checkType: string): real {
    var (start, end) := PeriodBounds(now, checkType);
    var total := TotalDays(start, end);
    if total > 0.0 then Scale(actual, total / ElapsedDays(now, start)) else actual
  }

  /** EvaluateBudget. */
  function EvaluateBudget(now: int, actual: real, threshold: real, checkType: string): (r: BudgetResult)
    ensures r.status == Exceeded <==> threshold > 0.0 && actual > threshold
    ensures r.status == Warning <==>
      threshold > 0.0 && actual <= threshold && Projected(now, actual, checkType) > threshold
    ensures threshold <= 0.0 ==> r.status == OK && r.percentageUsed == 0.0
    ensures threshold > 0.0 ==> r.percentageUsed == PercentOf(actual, threshold)
    ensures r.periodStart <= now < r.periodEnd
    ensures (r.periodStart, r.periodEnd) == PeriodBounds(now, checkType)
    ensures r.thresholdUSD == Round2(threshold) && r.actualUSD == Round2(actual)
    ensures r.projectedUSD == Round2(Projected(now, actual, checkType)) && r.checkType == checkType
  {
    var (start, end) := PeriodBounds(now, checkType);
    var projected := Projected(now, actual, checkType);
    var status :=
      if threshold > 0.0 && actual > threshold then Exceeded
      else if threshold > 0.0 && projected > threshold then Warning
      else OK;
    BudgetResult(status, Round2(threshold), Round2(actual), Round2(projected),
                 if threshold > 0.0 then PercentOf(actual, threshold) else 0.0,
                 start, end, checkType)
  }

  /** The elapsed part of a period never exceeds the period, so a non-negative
      spend never projects below itself. */
  lemma ProjectionAtLeastActual(now: int, actual: real, checkType: string)
    requires actual >= 0.0
    ensures Projected(now, actual, checkType) >= actual
  {
    var (start, end) := PeriodBounds(now, checkType);
    var total := TotalDays(start, end);
    var elapsed := ElapsedDays(now, start);
    assert total >= 1.0;
    assert elapsed <= total;
    RatioAtLeastOne(total, elapsed);
    ScaleGrows(actual, total / elapsed);
  }

  lemma RatioAtLeastOne(total: real, elapsed: real)
    requires 0.0 < elapsed <= total
    ensures total / elapsed >= 1.0
  {
  }

  lemma ScaleGrows(actual: real, ratio: real)
    requires actual >= 0.0 && ratio >= 1.0
    ensures Scale(actual, ratio) >= actual
  {
    assert actual * ratio == actual + actual * (ratio - 1.0);
    assert actual * (ratio - 1.0) >= 0.0;
  }

  /** An exceeded budget is projected over the threshold too, so the status
      grows with the spend: ok, then warning, then exceeded. */
  lemma ExceededImpliesProjectedOver(now: int, actual: real, threshold: real, checkType: string)
    requires EvaluateBudget(now, actual, threshold, checkType).status == Exceeded
    ensures Projected(now, actual, checkType) > threshold
  {
    ProjectionAtLeastActual(now, actual, checkType);
  }

  /** At noon on 26 February 2026 the month is 28 days long and 25.5 of them have passed. */
  lemma FebruaryPeriod(now: int)
    requires now == DateSeconds(Date(2026, 2, 26)) + 43200
    ensures var (start, end) := PeriodBounds(now, "monthly");
      TotalDays(start, end) == 28.0 && ElapsedDays(now, start) == 25.5
  {
    var d := DaysFromCivil(2026, 2, 26);
    assert DayOf(now) == d;
    CivilFromDaysOf(Date(2026, 2, 26));
    assert MonthStartDay(d) == d - 25;
    assert NextMonthStartDay(d) == d + 3;
    var (start, end) := PeriodBounds(now, "monthly");
    assert start == (d - 25) * SecondsPerDay && end == (d + 3) * SecondsPerDay;
  }

  /** At noon on 26 February 2026 a monthly budget of 100 is ok at 30, exceeded
      at 120 and in warning at 95. */
  lemma FebruaryExample(now: int)
    requires now == DateSeconds(Date(2026, 2, 26)) + 43200
    ensures EvaluateBudget(now, 30.0, 100.0, "monthly").status == OK
    ensures EvaluateBudget(now, 120.0, 100.0, "monthly").status == Exceeded
    ensures EvaluateBudget(now, 95.0, 100.0, "monthly").status == Warning
  {
    FebruaryPeriod(now);
    assert Projected(now, 30.0, "monthly") == Scale(30.0, 28.0 / 25.5);
    assert Projected(now, 95.0, "monthly") == Scale(95.0, 28.0 / 25.5);
  }
}
