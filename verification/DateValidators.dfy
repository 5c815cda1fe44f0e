/**
 * The two validators of YYYY-MM-DD query dates, and the two ways in which a pair of
 * accepted dates is compared.
 */
module DateValidators {
  import opened Prelude
  import opened Calendar

  predicate IsDigit(c: char) { '0' <= c <= '9' }

  predicate AllDigits(s: string) {
    forall i :: 0 <= i < |s| ==> IsDigit(s[i])
  }

  function Pow10(n: nat): (p: nat)
    ensures p >= 1
  {
    if n == 0 then 1 else 10 * Pow10(n - 1)
  }

  /** JavaScript's `Number` on a string of decimal digits. */
  function Number(s: string): (n: nat)
    requires AllDigits(s)
    ensures n < Pow10(|s|)
  {
    if s == "" then 0 else 10 * Number(s[..|s| - 1]) + (s[|s| - 1] as int - '0' as int)
  }

  /** A number below 10^width in exactly `width` digits. */
  function Padded(n: nat, width: nat): (s: string)
    requires n < Pow10(width)
    ensures |s| == width && AllDigits(s) && Number(s) == n
  {
    if width == 0 then "" else
      var front := Padded(n / 10, width - 1);
      var s := front + [('0' as int + n % 10) as char];
      assert s[..width - 1] == front;
      s
  }

  lemma {:induction false} NumberIsInjective(s: string, t: string)
    requires AllDigits(s) && AllDigits(t) && |s| == |t|
    requires Number(s) == Number(t)
    ensures s == t
  {
    if s != "" {
      var n := |s| - 1;
      NumberIsInjective(s[..n], t[..n]);
      assert s == s[..n] + [s[n]] && t == t[..n] + [t[n]];
    }
  }

  /** The first digit in which two numbers of equal width differ orders them. */
  lemma {:induction false} FirstDigitOrdersNumbers(s: string, t: string, i: nat)
    requires AllDigits(s) && AllDigits(t) && |s| == |t|
    requires i < |s| && s[..i] == t[..i] && s[i] < t[i]
    ensures Number(s) < Number(t)
  {
    var n := |s| - 1;
    if i < n {
      assert s[..n][..i] == s[..i] && t[..n][..i] == t[..i];
      assert s[..n][i] == s[i] && t[..n][i] == t[i];
      FirstDigitOrdersNumbers(s[..n], t[..n], i);
    }
  }

  /** The regular expression `^\d{4}-\d{2}-\d{2}$`. */
  predicate MatchesYmd(s: string) {
    && |s| == 10
    && AllDigits(s[0..4]) && s[4] == '-' && AllDigits(s[5..7]) && s[7] == '-' && AllDigits(s[8..10])
  }

  function YearOf(s: string): nat
    requires MatchesYmd(s)
  {
    Number(s[0..4])
  }

  /** The month as written, from 1. */
  function MonthOf(s: string): nat
    requires MatchesYmd(s)
  {
    Number(s[5..7])
  }

  function DateOf(s: string): nat
    requires MatchesYmd(s)
  {
    Number(s[8..10])
  }

  lemma YmdIsInjective(s: string, t: string)
    requires MatchesYmd(s) && MatchesYmd(t)
    requires YearOf(s) == YearOf(t) && MonthOf(s) == MonthOf(t) && DateOf(s) == DateOf(t)
    ensures s == t
  {
    hide Number;
    NumberIsInjective(s[0..4], t[0..4]);
    NumberIsInjective(s[5..7], t[5..7]);
    NumberIsInjective(s[8..10], t[8..10]);
    assert s == s[0..4] + [s[4]] + s[5..7] + [s[7]] + s[8..10];
    assert t == t[0..4] + [t[4]] + t[5..7] + [t[7]] + t[8..10];
  }

  /** The proleptic Gregorian dates of the years 0 to 9999, written YYYY-MM-DD. */
  predicate IsGregorianDate(s: string) {
    MatchesYmd(s) && IsGregorian(YearOf(s), MonthOf(s) - 1, DateOf(s))
  }

  /** The day a written date names. */
  function DayOf(s: string): int
    requires MatchesYmd(s)
  {
    MakeDay(YearOf(s), MonthOf(s) - 1, DateOf(s))
  }

  /** Date.UTC of ECMA-262 section 21.4.3.4, with MakeFullYear, as a day. */
  function DateUtc(year: int, month: int, date: int): int {
    MakeDay(if 0 <= year <= 99 then 1900 + year else year, month, date)
  }

  predicate IsValidCalendarDate(s: string) {
    MatchesYmd(s) &&
    var year, month, date := YearOf(s), MonthOf(s), DateOf(s);
    var day := DateUtc(year, month - 1, date);
    YearFromDay(day) == year && MonthFromDay(day) == month - 1 && DateFromDay(day) == date
  }

  /**
   * The Date constructor on `${value}T00:00:00.000Z`. Section 21.4.1.32 makes a date
   * outside the calendar an illegal value and leaves its parsing to the engine:
   * engines either refuse a day beyond the end of its month or roll it over.
   */
  function ParseUtcMidnight(s: string, rollsOver: bool): (day: Option<int>)
    requires MatchesYmd(s)
  {
    var year, month, date := YearOf(s), MonthOf(s), DateOf(s);
    if 1 <= month <= 12 && 1 <= date <= 31 && (date <= DaysInMonth(year, month - 1) || rollsOver) then
      Some(MakeDay(year, month - 1, date))
    else None
  }

  /** `toISOString().slice(0, 10)`; other years print a sign and six digits first. */
  function IsoDate(day: int): string {
    hide YearFromDay, MonthFromDay, DateFromDay, Leap;
    var y, m, d := YearFromDay(day), MonthFromDay(day) + 1, DateFromDay(day);
    DaysInMonthTable(y, m - 1);
    assert Pow10(2) == 100 && Pow10(4) == 10000;
    if 0 <= y <= 9999 then Padded(y, 4) + "-" + Padded(m, 2) + "-" + Padded(d, 2)
    else [if y < 0 then '-' else '+'] + Padded((if y < 0 then -y else y) % Pow10(6), 6) + "-" + Padded(m, 2)
  }

  predicate DateSchema(s: string, rollsOver: bool) {
    MatchesYmd(s) &&
    var date := ParseUtcMidnight(s, rollsOver);
    date.Some? && IsoDate(date.value) == s
  }

  lemma IsoDateReadsBack(day: int)
    requires 0 <= YearFromDay(day) <= 9999
    ensures var s := IsoDate(day);
            && MatchesYmd(s)
            && YearOf(s) == YearFromDay(day) && MonthOf(s) == MonthFromDay(day) + 1 && DateOf(s) == DateFromDay(day)
  {
    hide YearFromDay, MonthFromDay, DateFromDay, Leap, Padded, Number;
    var y, m, d := YearFromDay(day), MonthFromDay(day) + 1, DateFromDay(day);
    DaysInMonthTable(y, m - 1);
    assert Pow10(2) == 100 && Pow10(4) == 10000;
    var s := Padded(y, 4) + "-" + Padded(m, 2) + "-" + Padded(d, 2);
    assert s[0..4] == Padded(y, 4) && s[5..7] == Padded(m, 2) && s[8..10] == Padded(d, 2);
  }

  lemma MonthStaysInYear(y: int, m: int, date: int)
    requires 0 <= m < 12 && 1 <= date <= 31
    ensures YearFromDay(MakeDay(y, m, date)) == y
  {
    hide YearFromDay, MakeDay;
    MakeDayCountsDays(y, m, date);
    YearLength(y);
    YearIsUnique(MakeDay(y, m, date), YearFromDay(MakeDay(y, m, date)), y);
  }

  /** `dateSchema` accepts exactly the Gregorian dates, on engines of either kind. */
  lemma DateSchemaIsGregorian(s: string, rollsOver: bool)
    ensures DateSchema(s, rollsOver) <==> IsGregorianDate(s)
  {
    hide YearOf, MonthOf, DateOf, YearFromDay, MonthFromDay, DateFromDay, IsoDate, MakeDay, DaysInMonth;
    if MatchesYmd(s) {
      FieldBounds(s);
      var date := ParseUtcMidnight(s, rollsOver);
      if date.Some? {
        MonthStaysInYear(YearOf(s), MonthOf(s) - 1, DateOf(s));
        IsoDateReadsBack(date.value);
      }
      if IsGregorianDate(s) {
        DaysInMonthTable(YearOf(s), MonthOf(s) - 1);
        CalendarReadsBack(YearOf(s), MonthOf(s) - 1, DateOf(s));
        YmdIsInjective(s, IsoDate(date.value));
      }
    }
  }

  lemma FieldBounds(s: string)
    requires MatchesYmd(s)
    ensures YearOf(s) <= 9999 && MonthOf(s) <= 99 && DateOf(s) <= 99
  {
    hide Number;
    assert Pow10(2) == 100 && Pow10(4) == 10000;
  }

  /**
   * `isValidCalendarDate` accepts exactly the Gregorian dates from the year 100 on.
   * Date.UTC moves the years 0 to 99 to the twentieth century, and the year read
   * back then differs from the one written.
   */
  lemma IsValidCalendarDateIsGregorian(s: string)
    ensures IsValidCalendarDate(s) <==> IsGregorianDate(s) && YearOf(s) >= 100
  {
    hide YearOf, MonthOf, DateOf, YearFromDay, MonthFromDay, DateFromDay, MakeDay, DaysInMonth;
    if MatchesYmd(s) {
      if YearOf(s) < 100 {
        LandsAfter(1900 + YearOf(s), MonthOf(s) - 1, DateOf(s));
      } else if IsGregorianDate(s) {
        CalendarReadsBack(YearOf(s), MonthOf(s) - 1, DateOf(s));
      }
    }
  }

  lemma LandsAfter(y: int, m: int, date: int)
    requires -1 <= m && 0 <= date
    ensures YearFromDay(MakeDay(y, m, date)) >= y - 2
  {
    hide YearFromDay, Leap;
    var d := MakeDay(y, m, date);
    assert m / 12 >= -1;
    YearsAscend(y - 2, y - 1);
    if y - 1 < y + m / 12 {
      YearsAscend(y - 1, y + m / 12);
    }
    DaysBeforeMonthAscends(Leap(y + m / 12), 0, m % 12);
    if YearFromDay(d) + 1 < y - 2 {
      YearsAscend(YearFromDay(d) + 1, y - 2);
    }
  }

  /** The validators agree on a string unless it names a date of the years 0 to 99. */
  lemma ValidatorsAgree(s: string, rollsOver: bool)
    ensures IsValidCalendarDate(s) == DateSchema(s, rollsOver) <==> !(IsGregorianDate(s) && YearOf(s) < 100)
  {
    hide DateSchema, IsValidCalendarDate;
    DateSchemaIsGregorian(s, rollsOver);
    IsValidCalendarDateIsGregorian(s);
  }

  /** JavaScript's `<=` on strings: lexicographic order of code units. */
  predicate StringAtMost(s: string, t: string) {
    s == "" || (t != "" && (s[0] < t[0] || (s[0] == t[0] && StringAtMost(s[1..], t[1..]))))
  }

  lemma {:induction false} FirstDifferenceDecides(s: string, t: string, i: nat)
    requires i < |s| && i < |t| && s[..i] == t[..i] && s[i] != t[i]
    ensures StringAtMost(s, t) <==> s[i] < t[i]
  {
    if i > 0 {
      assert s[0] == s[..i][0] == t[..i][0] == t[0];
      assert s[1..][..i - 1] == s[..i][1..] && t[1..][..i - 1] == t[..i][1..];
      FirstDifferenceDecides(s[1..], t[1..], i - 1);
    }
  }

  lemma {:induction false} StringAtMostIsReflexive(s: string)
    ensures StringAtMost(s, s)
  {
    if s != "" {
      StringAtMostIsReflexive(s[1..]);
    }
  }

  lemma DatesAscend(y: int, m: int, d: int, y': int, m': int, d': int)
    requires IsGregorian(y, m, d) && IsGregorian(y', m', d')
    requires y < y' || (y == y' && (m < m' || (m == m' && d < d')))
    ensures MakeDay(y, m, d) < MakeDay(y', m', d')
  {
    hide Leap, DaysBeforeMonth, DayFromYear;
    assert m / 12 == 0 && m % 12 == m && m' / 12 == 0 && m' % 12 == m';
    if y < y' {
      DaysBeforeMonthAscends(Leap(y), m + 1, 12);
      DaysBeforeMonthAscends(Leap(y'), 0, m');
      YearLength(y);
      if y + 1 < y' { YearsAscend(y + 1, y'); }
      JanuaryIsFirst(Leap(y'));
    } else if m < m' {
      DaysBeforeMonthAscends(Leap(y), m + 1, m');
    }
  }

  lemma JanuaryIsFirst(leap: bool)
    ensures DaysBeforeMonth(leap, 0) == 0
  {
  }

  /** The digit in which two dates first differ orders their years, months or days. */
  lemma FirstDifferenceOrdersDates(s: string, t: string, i: nat)
    requires IsGregorianDate(s) && IsGregorianDate(t)
    requires i < 10 && s[..i] == t[..i] && s[i] < t[i]
    ensures DayOf(s) < DayOf(t)
  {
    hide MakeDay, IsGregorian, Number;
    assert forall j :: 0 <= j < i ==> s[j] == s[..i][j] == t[j];
    if i < 4 {
      assert s[0..4][..i] == t[0..4][..i];
      FirstDigitOrdersNumbers(s[0..4], t[0..4], i);
    } else if 5 <= i < 7 {
      assert s[0..4] == t[0..4] && s[5..7][..i - 5] == t[5..7][..i - 5];
      FirstDigitOrdersNumbers(s[5..7], t[5..7], i - 5);
    } else if 8 <= i {
      assert s[0..4] == t[0..4] && s[5..7] == t[5..7];
      assert s[8..10][..i - 8] == t[8..10][..i - 8];
      FirstDigitOrdersNumbers(s[8..10], t[8..10], i - 8);
    }
    DatesAscend(YearOf(s), MonthOf(s) - 1, DateOf(s), YearOf(t), MonthOf(t) - 1, DateOf(t));
  }

  /** On accepted dates, comparing the strings is comparing the days they name. */
  lemma StringOrderIsChronological(s: string, t: string)
    requires IsGregorianDate(s) && IsGregorianDate(t)
    ensures StringAtMost(s, t) <==> DayOf(s) <= DayOf(t)
  {
    hide IsGregorian, YearOf, MonthOf, DateOf, StringAtMost, DayOf;
    var i := 0;
    while i < 10 && s[i] == t[i]
      invariant 0 <= i <= 10 && s[..i] == t[..i]
    {
      i := i + 1;
    }
    if i == 10 {
      assert s == s[..10] == t[..10] == t;
      StringAtMostIsReflexive(s);
    } else {
      FirstDifferenceDecides(s, t, i);
      if s[i] < t[i] {
        FirstDifferenceOrdersDates(s, t, i);
      } else {
        FirstDifferenceOrdersDates(t, s, i);
      }
    }
  }
}
