/**
 * Billing periods: `SubscriptionPlan.calculatePeriodEnd` and the JavaScript Date it
 * mutates. Local time is taken to be UTC.
 */
module BillingPeriod {
  import opened Calendar

  datatype BillingCycle = Monthly | Yearly

  /** What setMonth(month) of ECMA-262 section 21.4.4.25 leaves in a date at `t`. */
  function WithMonth(t: int, month: int): int {
    var d := Day(t);
    MakeDate(MakeDay(YearFromDay(d), month, DateFromDay(d)), TimeWithinDay(t))
  }

  /** What setFullYear(year) of section 21.4.4.21 leaves in a date at `t`. */
  function WithFullYear(t: int, year: int): int {
    var d := Day(t);
    MakeDate(MakeDay(year, MonthFromDay(d), DateFromDay(d)), TimeWithinDay(t))
  }

  function PeriodEnd(cycle: BillingCycle, start: int): int {
    if cycle.Yearly? then WithFullYear(start, YearFromDay(Day(start)) + 1)
    else WithMonth(start, MonthFromDay(Day(start)) + 1)
  }

  class JsDate {
    var time: int

    constructor (time: int)
      ensures this.time == time
    {
      this.time := time;
    }

    function GetMonth(): int
      reads this
    {
      MonthFromDay(Day(time))
    }

    function GetFullYear(): int
      reads this
    {
      YearFromDay(Day(time))
    }

    method SetMonth(month: int)
      modifies this
      ensures time == WithMonth(old(time), month)
    {
      var d := Day(time);
      time := MakeDate(MakeDay(YearFromDay(d), month, DateFromDay(d)), TimeWithinDay(time));
    }

    method SetFullYear(year: int)
      modifies this
      ensures time == WithFullYear(old(time), year)
    {
      var d := Day(time);
      time := MakeDate(MakeDay(year, MonthFromDay(d), DateFromDay(d)), TimeWithinDay(time));
    }
  }

  /** The caller's date is copied, never moved. */
  method CalculatePeriodEnd(cycle: BillingCycle, startDate: JsDate) returns (periodEnd: JsDate)
    ensures fresh(periodEnd)
    ensures periodEnd.time == PeriodEnd(cycle, startDate.time)
  {
    hide MakeDay, MakeDate, YearFromDay, MonthFromDay, DateFromDay;
    periodEnd := new JsDate(startDate.time);
    if cycle == Yearly {
      periodEnd.SetFullYear(periodEnd.GetFullYear() + 1);
    } else {
      periodEnd.SetMonth(periodEnd.GetMonth() + 1);
    }
  }

  /** Rolling to the next month moves a day by the length of the month it leaves. */
  lemma NextMonthIsMonthLengthLater(y: int, m: int, date: int)
    requires 0 <= m < 12
    ensures MakeDay(y, m + 1, date) == MakeDay(y, m, date) + DaysInMonth(y, m)
  {
    assert m / 12 == 0 && m % 12 == m;
    if m == 11 {
      assert (m + 1) / 12 == 1 && (m + 1) % 12 == 0;
      YearLength(y);
    } else {
      assert (m + 1) / 12 == 0 && (m + 1) % 12 == m + 1;
    }
  }

  /**
   * A monthly period lasts exactly as long as the month it starts in, whatever the
   * start day: an overflow such as January 31st to March 3rd is covered too.
   */
  lemma MonthlyPeriodLength(start: int)
    ensures var d := Day(start);
            PeriodEnd(Monthly, start) - start == DaysInMonth(YearFromDay(d), MonthFromDay(d)) * MS_PER_DAY
    ensures 28 * MS_PER_DAY <= PeriodEnd(Monthly, start) - start <= 31 * MS_PER_DAY
  {
    hide MakeDay, DaysInMonth, YearFromDay, MonthFromDay, DateFromDay, Leap;
    var d := Day(start);
    MakeDayReadsBack(d);
    NextMonthIsMonthLengthLater(YearFromDay(d), MonthFromDay(d), DateFromDay(d));
    DaysInMonthTable(YearFromDay(d), MonthFromDay(d));
  }

  /** The same month and date one year on, in days. */
  lemma NextYearIsYearLater(y: int, m: int, date: int)
    requires 0 <= m < 12
    ensures MakeDay(y + 1, m, date) - MakeDay(y, m, date) ==
            if Leap(if m <= 1 then y else y + 1) then 366 else 365
  {
    assert m / 12 == 0 && m % 12 == m;
    YearLength(y);
    NoTwoLeapYearsInARow(y);
  }

  lemma NoTwoLeapYearsInARow(y: int)
    ensures !(Leap(y) && Leap(y + 1))
  {
  }

  /** A yearly period has 366 days exactly when the next February 29th lies ahead in it. */
  lemma YearlyPeriodLength(start: int)
    ensures var d := Day(start);
            var february := if MonthFromDay(d) <= 1 then YearFromDay(d) else YearFromDay(d) + 1;
            PeriodEnd(Yearly, start) - start == (if Leap(february) then 366 else 365) * MS_PER_DAY
  {
    hide MakeDay, YearFromDay, MonthFromDay, DateFromDay, Leap;
    var d := Day(start);
    MakeDayReadsBack(d);
    NextYearIsYearLater(YearFromDay(d), MonthFromDay(d), DateFromDay(d));
  }

  /** `n` monthly renewals, each starting where the one before ended. */
  function Renewed(start: int, n: nat): int {
    if n == 0 then start else PeriodEnd(Monthly, Renewed(start, n - 1))
  }

  lemma MakeDayCarries(y: int, m: int, date: int)
    ensures MakeDay(y, m, date) == MakeDay(y + m / 12, m % 12, date)
  {
    assert (m % 12) / 12 == 0 && (m % 12) % 12 == m % 12;
  }

  lemma MonthCarry(k: int)
    ensures (k + 1) / 12 == k / 12 + (k % 12 + 1) / 12
    ensures (k + 1) % 12 == (k % 12 + 1) % 12
  {
  }

  /** Length of the k-th month counted from January of year `y`. */
  function MonthLength(y: int, k: int): int {
    DaysInMonth(y + k / 12, k % 12)
  }

  /** Every month from the k-th up to the n-th is long enough to have day `date`. */
  ghost predicate MonthsHave(y: int, k: int, n: int, date: int) {
    forall i :: k <= i < n ==> date <= MonthLength(y, i)
  }

  /** One renewal of a date that exists in its month. */
  lemma RenewalStep(y: int, k: int, date: int, time: int)
    requires 1 <= date <= MonthLength(y, k) && 0 <= time < MS_PER_DAY
    ensures PeriodEnd(Monthly, MakeDate(MakeDay(y, k, date), time)) == MakeDate(MakeDay(y, k + 1, date), time)
  {
    hide MakeDay, MakeDate, Day, TimeWithinDay, YearFromDay, MonthFromDay, DateFromDay, Leap;
    var year, month := y + k / 12, k % 12;
    MakeDayCarries(y, k, date);
    CalendarReadsBack(year, month, date);
    MakeDateSplits(MakeDay(y, k, date), time);
    MonthCarry(k);
    MakeDayCarries(y, k + 1, date);
    MakeDayCarries(year, month + 1, date);
    assert year + (month + 1) / 12 == y + (k + 1) / 12;
    assert MakeDay(y, k + 1, date) == MakeDay(year, month + 1, date);
  }

  /** Renewals keep the day of the month for as long as the months they leave have it. */
  lemma {:induction false} RenewalsKeepDate(y: int, k: int, date: int, time: int, n: nat)
    requires 1 <= date && 0 <= time < MS_PER_DAY
    requires MonthsHave(y, k, k + n, date)
    ensures Renewed(MakeDate(MakeDay(y, k, date), time), n) == MakeDate(MakeDay(y, k + n, date), time)
  {
    hide MakeDay, MonthLength, PeriodEnd;
    if n > 0 {
      RenewalsKeepDate(y, k, date, time, n - 1);
      assert date <= MonthLength(y, k + n - 1);
      RenewalStep(y, k + n - 1, date, time);
    }
  }

  lemma {:induction false} RenewalsCompose(start: int, a: nat, b: nat)
    ensures Renewed(start, a + b) == Renewed(Renewed(start, a), b)
  {
    hide PeriodEnd;
    if b > 0 {
      RenewalsCompose(start, a, b - 1);
    }
  }

  /**
   * When the j-th month is the first too short for the date, the overflow moves the
   * series one month ahead for good, so a year of renewals misses the yearly period.
   */
  lemma OverflowBreaksTheYear(y: int, m: int, date: int, time: int, j: nat)
    requires 0 <= m < 12 && m != 1 && 1 <= j < 12 && 29 <= date && 0 <= time < MS_PER_DAY
    requires MonthsHave(y, m, m + j, date)
    requires MonthLength(y, m + j) < date
    ensures Renewed(MakeDate(MakeDay(y, m, date), time), 12) != MakeDate(MakeDay(y, m + 12, date), time)
  {
    hide MakeDay, MonthLength, PeriodEnd;
    var e := date - MonthLength(y, m + j);
    assert 1 <= e <= 3 by { MonthLengthBounds(y, m); MonthLengthBounds(y, m + j); }
    RenewalsKeepDate(y, m, date, time, j);
    MonthsAdvance(y, m + j, date);
    MonthsAdvance(y, m + j, e);
    MonthsAdvance(y, m + 12, e);
    MakeDayIsLinear(y, m + j + 1, date, e);
    MakeDayIsLinear(y, m + j, date, e);
    MakeDayIsLinear(y, m + 12, date, e);
    assert MakeDay(y, m + j, date) == MakeDay(y, m + j + 1, e);
    forall k | m + j + 1 <= k < m + 13
      ensures e <= MonthLength(y, k)
    {
      MonthLengthBounds(y, k);
    }
    RenewalsKeepDate(y, m + j + 1, e, time, 12 - j);
    RenewalsCompose(MakeDate(MakeDay(y, m, date), time), j, 12 - j);
    assert (m + j + 1) + (12 - j) == m + 12 + 1;
    assert MonthLength(y, m + 12) == MonthLength(y, m) by { MonthLengthRepeats(y, m); }
  }

  lemma MonthLengthBounds(y: int, k: int)
    ensures 28 <= MonthLength(y, k) <= 31
  {
    DaysInMonthTable(y + k / 12, k % 12);
  }

  lemma MonthLengthRepeats(y: int, m: int)
    requires 0 <= m < 12 && m != 1
    ensures MonthLength(y, m + 12) == MonthLength(y, m)
  {
    assert (m + 12) / 12 == 1 && (m + 12) % 12 == m && m / 12 == 0 && m % 12 == m;
    DaysInMonthTable(y, m);
    DaysInMonthTable(y + 1, m);
  }

  lemma MakeDayIsLinear(y: int, k: int, a: int, b: int)
    ensures MakeDay(y, k, a) - MakeDay(y, k, b) == a - b
  {
  }

  lemma MonthsAdvance(y: int, k: int, date: int)
    ensures MakeDay(y, k + 1, date) == MakeDay(y, k, date) + MonthLength(y, k)
  {
    hide MakeDay, DaysInMonth;
    MakeDayCarries(y, k, date);
    MonthCarry(k);
    MakeDayCarries(y, k + 1, date);
    MakeDayCarries(y + k / 12, k % 12 + 1, date);
    NextMonthIsMonthLengthLater(y + k / 12, k % 12, date);
    assert y + k / 12 + (k % 12 + 1) / 12 == y + (k + 1) / 12;
  }

  /** The February that a year counted from month `m` of year `y` runs through. */
  function FebruaryAhead(y: int, m: int): int {
    if m <= 1 then y else y + 1
  }

  /**
   * Twelve monthly renewals end when one yearly period does for start days up to the
   * 28th, for the 29th when the February ahead has one, and for no other start.
   */
  lemma TwelveMonthsMakeAYear(start: int)
    ensures var d := Day(start);
            Renewed(start, 12) == PeriodEnd(Yearly, start) <==>
            DateFromDay(d) <= 28
            || (DateFromDay(d) == 29 && Leap(FebruaryAhead(YearFromDay(d), MonthFromDay(d))))
  {
    hide MakeDay, YearFromDay, MonthFromDay, DateFromDay, Leap, DaysInMonth, MonthLength, Renewed, IsGregorian;
    var d := Day(start);
    MakeDayReadsBack(d);
    YearOfRenewals(YearFromDay(d), MonthFromDay(d), DateFromDay(d), TimeWithinDay(start));
  }

  lemma YearOfRenewals(y: int, m: int, date: int, time: int)
    requires IsGregorian(y, m, date) && 0 <= time < MS_PER_DAY
    ensures Renewed(MakeDate(MakeDay(y, m, date), time), 12) == MakeDate(MakeDay(y + 1, m, date), time) <==>
            date <= 28 || (date == 29 && Leap(FebruaryAhead(y, m)))
  {
    hide MakeDay, PeriodEnd, Renewed, Leap;
    assert m / 12 == 0 && m % 12 == m && (m + 12) / 12 == 1 && (m + 12) % 12 == m;
    MakeDayCarries(y, m + 12, date);
    var j := 0;
    while j < 12 && date <= MonthLength(y, m + j)
      invariant 0 <= j <= 12
      invariant MonthsHave(y, m, m + j, date)
    {
      j := j + 1;
    }
    ShortMonthAhead(y, m, date, j);
    if j == 12 {
      RenewalsKeepDate(y, m, date, time, 12);
    } else {
      OverflowBreaksTheYear(y, m, date, time, j);
    }
  }

  lemma ShortMonthAhead(y: int, m: int, date: int, j: nat)
    requires IsGregorian(y, m, date) && j <= 12
    requires MonthsHave(y, m, m + j, date)
    requires j < 12 ==> MonthLength(y, m + j) < date
    ensures j == 12 <==> date <= 28 || (date == 29 && Leap(FebruaryAhead(y, m)))
    ensures j < 12 ==> 1 <= j && m != 1 && 29 <= date
  {
    hide Leap, DaysInMonth;
    assert m / 12 == 0 && m % 12 == m;
    var f := (13 - m) % 12;
    assert (m + f) % 12 == 1 && y + (m + f) / 12 == FebruaryAhead(y, m);
    DaysInMonthTable(FebruaryAhead(y, m), 1);
    DaysInMonthTable(y, m);
    if j == 12 {
      assert date <= MonthLength(y, m + f);
    } else {
      DaysInMonthTable(y + (m + j) / 12, (m + j) % 12);
    }
  }
}
