/**
 * Day arithmetic of ECMA-262 section 21.4.1, in UTC and over unbounded integers.
 *
 * A day is a number of days since 1970-01-01, an instant a number of milliseconds.
 * Months count from 0 as they do in JavaScript. Dafny's `/` and `%` floor for a
 * positive divisor, which is what the standard's floor and modulo do.
 */
module Calendar {

  const MS_PER_DAY := 24 * 60 * 60 * 1000

  predicate Leap(y: int) {
    y % 4 == 0 && (y % 100 != 0 || y % 400 == 0)
  }

  /** DayFromYear of section 21.4.1.3: the day number of January 1st. */
  function DayFromYear(y: int): int {
    365 * (y - 1970) + (y - 1969) / 4 - (y - 1901) / 100 + (y - 1601) / 400
  }

  function DaysBeforeMonth(leap: bool, m: int): int
    requires 0 <= m <= 12
  {
    var extra := if leap then 1 else 0;
    if m == 0 then 0
    else if m == 1 then 31
    else if m == 2 then 59 + extra
    else if m == 3 then 90 + extra
    else if m == 4 then 120 + extra
    else if m == 5 then 151 + extra
    else if m == 6 then 181 + extra
    else if m == 7 then 212 + extra
    else if m == 8 then 243 + extra
    else if m == 9 then 273 + extra
    else if m == 10 then 304 + extra
    else if m == 11 then 334 + extra
    else 365 + extra
  }

  function DaysInMonth(y: int, m: int): int
    requires 0 <= m < 12
  {
    DaysBeforeMonth(Leap(y), m + 1) - DaysBeforeMonth(Leap(y), m)
  }

  lemma DaysInMonthTable(y: int, m: int)
    requires 0 <= m < 12
    ensures DaysInMonth(y, m) ==
            if m == 1 then (if Leap(y) then 29 else 28)
            else if m == 3 || m == 5 || m == 8 || m == 10 then 30
            else 31
  {
  }

  /** MakeDay of section 21.4.1.28: months and days outside their ranges roll over. */
  function MakeDay(year: int, month: int, date: int): int {
    var y, m := year + month / 12, month % 12;
    DayFromYear(y) + DaysBeforeMonth(Leap(y), m) + date - 1
  }

  lemma LeapsEveryFour(y: int)
    ensures (y - 1968) / 4 - (y - 1969) / 4 == if y % 4 == 0 then 1 else 0
  {
  }

  lemma LeapsEveryHundred(y: int)
    ensures (y - 1900) / 100 - (y - 1901) / 100 == if y % 100 == 0 then 1 else 0
  {
  }

  lemma LeapsEveryFourHundred(y: int)
    ensures (y - 1600) / 400 - (y - 1601) / 400 == if y % 400 == 0 then 1 else 0
  {
  }

  lemma HundredsAreFours(y: int)
    ensures y % 400 == 0 ==> y % 100 == 0
    ensures y % 100 == 0 ==> y % 4 == 0
  {
  }

  lemma YearLength(y: int)
    ensures DayFromYear(y + 1) - DayFromYear(y) == DaysBeforeMonth(Leap(y), 12)
  {
    LeapsEveryFour(y);
    LeapsEveryHundred(y);
    LeapsEveryFourHundred(y);
    HundredsAreFours(y);
  }

  lemma {:induction false} YearsAscend(y: int, z: int)
    requires y < z
    ensures DayFromYear(y) < DayFromYear(z)
    decreases z - y
  {
    YearLength(z - 1);
    if y < z - 1 {
      YearsAscend(y, z - 1);
    }
  }

  lemma YearsHoldDays(k: int)
    ensures DayFromYear(1970 + k) <= if k >= 0 then 366 * k else 365 * k
  {
    var fours, hundreds, fourHundreds := (k + 1) / 4, (k + 69) / 100, (k + 369) / 400;
    assert 4 * fours <= k + 1 && k + 69 < 100 * hundreds + 100 && 400 * fourHundreds <= k + 369;
    assert 400 * (fours - hundreds + fourHundreds) <= 97 * k + 589;
  }

  /** A year that starts on or before day `d`, from which the search below climbs. */
  function YearBelow(d: int): (y: int)
    ensures DayFromYear(y) <= d
  {
    var k := if d >= 0 then d / 366 else d / 365;
    YearsHoldDays(k);
    1970 + k
  }

  function ClimbToYear(d: int, y: int): (r: int)
    requires DayFromYear(y) <= d
    ensures DayFromYear(r) <= d < DayFromYear(r + 1)
    decreases d - DayFromYear(y)
  {
    YearLength(y);
    if d < DayFromYear(y + 1) then y else ClimbToYear(d, y + 1)
  }

  /** YearFromTime of section 21.4.1.3: the year that holds day `d`. */
  function YearFromDay(d: int): (y: int)
    ensures DayFromYear(y) <= d < DayFromYear(y + 1)
  {
    ClimbToYear(d, YearBelow(d))
  }

  function DayWithinYear(d: int): (n: int)
    ensures 0 <= n < DaysBeforeMonth(Leap(YearFromDay(d)), 12)
  {
    YearLength(YearFromDay(d));
    d - DayFromYear(YearFromDay(d))
  }

  /** MonthFromTime of section 21.4.1.11. */
  function MonthFromDay(d: int): (m: int)
    ensures 0 <= m < 12
    ensures DaysBeforeMonth(Leap(YearFromDay(d)), m) <= DayWithinYear(d)
            < DaysBeforeMonth(Leap(YearFromDay(d)), m + 1)
  {
    var leap, n := Leap(YearFromDay(d)), DayWithinYear(d);
    if n < DaysBeforeMonth(leap, 1) then 0
    else if n < DaysBeforeMonth(leap, 2) then 1
    else if n < DaysBeforeMonth(leap, 3) then 2
    else if n < DaysBeforeMonth(leap, 4) then 3
    else if n < DaysBeforeMonth(leap, 5) then 4
    else if n < DaysBeforeMonth(leap, 6) then 5
    else if n < DaysBeforeMonth(leap, 7) then 6
    else if n < DaysBeforeMonth(leap, 8) then 7
    else if n < DaysBeforeMonth(leap, 9) then 8
    else if n < DaysBeforeMonth(leap, 10) then 9
    else if n < DaysBeforeMonth(leap, 11) then 10
    else 11
  }

  /** DateFromTime of section 21.4.1.12: the day of the month, from 1. */
  function DateFromDay(d: int): (date: int)
    ensures 1 <= date <= DaysInMonth(YearFromDay(d), MonthFromDay(d))
  {
    DayWithinYear(d) - DaysBeforeMonth(Leap(YearFromDay(d)), MonthFromDay(d)) + 1
  }

  predicate IsGregorian(y: int, m: int, date: int) {
    0 <= m < 12 && 1 <= date <= DaysInMonth(y, m)
  }

  /** Reading a day back as a calendar date and making the day again is the identity. */
  lemma MakeDayReadsBack(d: int)
    ensures IsGregorian(YearFromDay(d), MonthFromDay(d), DateFromDay(d))
    ensures MakeDay(YearFromDay(d), MonthFromDay(d), DateFromDay(d)) == d
  {
    var m := MonthFromDay(d);
    assert m / 12 == 0 && m % 12 == m;
  }

  lemma MakeDayCountsDays(y: int, m: int, date: int)
    requires 0 <= m < 12
    ensures MakeDay(y, m, date) == DayFromYear(y) + DaysBeforeMonth(Leap(y), m) + date - 1
  {
    assert m / 12 == 0 && m % 12 == m;
  }

  /** Making a day from a calendar date and reading it back is the identity. */
  lemma CalendarReadsBack(y: int, m: int, date: int)
    requires IsGregorian(y, m, date)
    ensures YearFromDay(MakeDay(y, m, date)) == y
    ensures MonthFromDay(MakeDay(y, m, date)) == m
    ensures DateFromDay(MakeDay(y, m, date)) == date
  {
    hide MakeDay, YearFromDay, MonthFromDay;
    var d := MakeDay(y, m, date);
    MakeDayCountsDays(y, m, date);
    YearLength(y);
    DaysBeforeMonthAscends(Leap(y), m + 1, 12);
    assert DayFromYear(y) <= d < DayFromYear(y + 1);
    YearIsUnique(d, YearFromDay(d), y);
    MonthIsUnique(Leap(y), DayWithinYear(d), MonthFromDay(d), m);
  }

  lemma YearIsUnique(d: int, y: int, z: int)
    requires DayFromYear(y) <= d < DayFromYear(y + 1)
    requires DayFromYear(z) <= d < DayFromYear(z + 1)
    ensures y == z
  {
    if y + 1 < z {
      YearsAscend(y + 1, z);
    } else if z + 1 < y {
      YearsAscend(z + 1, y);
    }
  }

  lemma MonthIsUnique(leap: bool, n: int, m: int, k: int)
    requires 0 <= m < 12 && DaysBeforeMonth(leap, m) <= n < DaysBeforeMonth(leap, m + 1)
    requires 0 <= k < 12 && DaysBeforeMonth(leap, k) <= n < DaysBeforeMonth(leap, k + 1)
    ensures m == k
  {
    if m < k {
      DaysBeforeMonthAscends(leap, m + 1, k);
    } else if k < m {
      DaysBeforeMonthAscends(leap, k + 1, m);
    }
  }

  lemma DaysBeforeMonthAscends(leap: bool, m: int, k: int)
    requires 0 <= m <= k <= 12
    ensures DaysBeforeMonth(leap, m) <= DaysBeforeMonth(leap, k)
  {
  }

  /** Day(t) and TimeWithinDay(t) of section 21.4.1.2, and MakeDate of 21.4.1.29. */
  function Day(t: int): int { t / MS_PER_DAY }

  function TimeWithinDay(t: int): int { t % MS_PER_DAY }

  function MakeDate(day: int, time: int): int { day * MS_PER_DAY + time }

  lemma MakeDateSplits(day: int, time: int)
    requires 0 <= time < MS_PER_DAY
    ensures Day(MakeDate(day, time)) == day
    ensures TimeWithinDay(MakeDate(day, time)) == time
  {
  }
}
