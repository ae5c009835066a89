/** Gregorian calendar dates: the leap rule, the ordinal date, the extended
    calendar-date text form YYYY-MM-DD of ISO 8601 (section 4.1.2.2 of
    ISO 8601:2004) and the range of pandas' nanosecond timestamps. */
module Calendar {
  import opened Digits

  datatype CalDate = CalDate(year: int, month: int, day: int)

  /** The Gregorian leap rule. */
  predicate IsLeapYear(y: int) {
    y % 4 == 0 && (y % 100 != 0 || y % 400 == 0)
  }

  function DaysInMonth(y: int, m: int): (n: int)
    requires 1 <= m <= 12
    ensures 28 <= n <= 31
    ensures n == 29 <==> m == 2 && IsLeapYear(y)
  {
    if m == 2 then (if IsLeapYear(y) then 29 else 28)
    else if m == 4 || m == 6 || m == 9 || m == 11 then 30
    else 31
  }

  predicate IsCalendarDate(d: CalDate) {
    1 <= d.month <= 12 && 1 <= d.day <= DaysInMonth(d.year, d.month)
  }

  /** Reference definition of the days of the year before month m: the sum
      of the lengths of months 1 .. m-1. */
  function DaysBeforeMonth(y: int, m: int): nat
    requires 1 <= m <= 13
  {
    if m == 1 then 0 else DaysBeforeMonth(y, m - 1) + DaysInMonth(y, m - 1)
  }

  /** Days before each month in a common year, the table strftime's %j uses. */
  const CumulativeDays: seq<int> := [0, 31, 59, 90, 120, 151, 181, 212, 243, 273, 304, 334]

  /** The ordinal date (section 4.1.3 of ISO 8601:2004), computed the way
      strftime computes %j: a table lookup plus one after February in a leap year. */
  function DayOfYear(d: CalDate): int
    requires IsCalendarDate(d)
  {
    CumulativeDays[d.month - 1] + (if d.month > 2 && IsLeapYear(d.year) then 1 else 0) + d.day
  }

  lemma {:induction false} DaysBeforeMonthTable(y: int, m: int)
    requires 1 <= m <= 12
    ensures DaysBeforeMonth(y, m) == CumulativeDays[m - 1] + (if m > 2 && IsLeapYear(y) then 1 else 0)
  {
    if m > 1 {
      DaysBeforeMonthTable(y, m - 1);
    }
  }

  /** The day of year is the days in the preceding months plus the day of
      month, and lies in 1..366 (1..365 outside leap years). */
  lemma DayOfYearIsOrdinal(d: CalDate)
    requires IsCalendarDate(d)
    ensures DayOfYear(d) == DaysBeforeMonth(d.year, d.month) + d.day
    ensures 1 <= DayOfYear(d) <= (if IsLeapYear(d.year) then 366 else 365)
  {
    DaysBeforeMonthTable(d.year, d.month);
  }

  /** The text shape YYYY-MM-DD: ten characters, digits and two hyphens. */
  predicate HasIsoShape(s: string) {
    |s| == 10 && s[4] == '-' && s[7] == '-'
    && AllDigits(s[..4]) && AllDigits(s[5..7]) && AllDigits(s[8..])
  }

  function ReadIsoDate(s: string): CalDate
    requires HasIsoShape(s)
  {
    CalDate(Decimal(s[..4]), Decimal(s[5..7]), Decimal(s[8..]))
  }

  /** What `%Y-%m-%d` accepts: the shape, a month 01..12 and a day that
      exists in that month of that year. */
  predicate IsIsoDateText(s: string) {
    HasIsoShape(s) && IsCalendarDate(ReadIsoDate(s))
  }

  function FormatIsoDate(d: CalDate): (s: string)
    requires 0 <= d.year <= 9999 && IsCalendarDate(d)
    ensures HasIsoShape(s)
  {
    var s := Pad(d.year, 4) + "-" + Pad(d.month, 2) + "-" + Pad(d.day, 2);
    assert s[..4] == Pad(d.year, 4) && s[5..7] == Pad(d.month, 2) && s[8..] == Pad(d.day, 2);
    s
  }

  /** Writing a date and reading it back gives the same date. */
  lemma ReadFormat(d: CalDate)
    requires 0 <= d.year <= 9999 && IsCalendarDate(d)
    ensures IsIsoDateText(FormatIsoDate(d)) && ReadIsoDate(FormatIsoDate(d)) == d
  {
    assert Pow10(2) == 100 && Pow10(4) == 10000;
    DecimalOfPad(d.year, 4);
    DecimalOfPad(d.month, 2);
    DecimalOfPad(d.day, 2);
    var s := FormatIsoDate(d);
    assert s[..4] == Pad(d.year, 4) && s[5..7] == Pad(d.month, 2) && s[8..] == Pad(d.day, 2);
  }

  /** Reading an accepted text and writing it back gives the same text. */
  lemma FormatRead(s: string)
    requires IsIsoDateText(s)
    ensures var d := ReadIsoDate(s); 0 <= d.year <= 9999 && FormatIsoDate(d) == s
  {
    DecimalBound(s[..4]);
    PadOfDecimal(s[..4]);
    PadOfDecimal(s[5..7]);
    PadOfDecimal(s[8..]);
    var d := ReadIsoDate(s);
    assert FormatIsoDate(d) == s[..4] + "-" + s[5..7] + "-" + s[8..];
  }

  predicate NotAfter(a: CalDate, b: CalDate) {
    a.year < b.year || (a.year == b.year && (a.month < b.month || (a.month == b.month && a.day <= b.day)))
  }

  /** The midnights a nanosecond pandas Timestamp can hold: the first one
      after 1677-09-21 00:12:43 up to the last one before 2262-04-11 23:47:16. */
  predicate InTimestampRange(d: CalDate) {
    NotAfter(CalDate(1677, 9, 22), d) && NotAfter(d, CalDate(2262, 4, 11))
  }
}
