/**
 * Calendar dates as Python's datetime.date holds them: the proleptic Gregorian
 * calendar for years 1 to 9999, the day number ("ordinal", 0001-01-01 is day 1)
 * that date subtraction works on, the ordering that date comparison uses, and
 * the "%Y%m%d" text form the instrument records carry.
 */
module Dates {
  import opened Wrappers

  /** A (year, month, day) triple, not yet known to name a real day. */
  datatype YearMonthDay = YearMonthDay(year: int, month: int, day: int)

  predicate IsLeap(year: int) {
    year % 4 == 0 && (year % 100 != 0 || year % 400 == 0)
  }

  function DaysInMonth(year: int, month: int): (n: int)
    requires 1 <= month <= 12
    ensures 28 <= n <= 31
    ensures month == 2 ==> (n == 29 <==> IsLeap(year))
  {
    if month == 2 then (if IsLeap(year) then 29 else 28)
    else if month == 4 || month == 6 || month == 9 || month == 11 then 30
    else 31
  }

  predicate IsCalendarDate(d: YearMonthDay) {
    && 1 <= d.year <= 9999
    && 1 <= d.month <= 12
    && 1 <= d.day <= DaysInMonth(d.year, d.month)
  }

  /** A day that datetime.date can represent; no other value is a Date. */
  type Date = d: YearMonthDay | IsCalendarDate(d) witness YearMonthDay(1, 1, 1)

  function DaysInYear(year: int): int {
    if IsLeap(year) then 366 else 365
  }

  /** Days in the years 1 .. year - 1. */
  function DaysBeforeYear(year: int): int
    requires year >= 1
  {
    var y := year - 1;
    y * 365 + y / 4 - y / 100 + y / 400
  }

  /** Days in the months 1 .. month - 1 of the given year. */
  function DaysBeforeMonth(year: int, month: int): int
    requires 1 <= month <= 12
  {
    var common :=
      if month <= 6 then
        if month == 1 then 0 else if month == 2 then 31 else if month == 3 then 59
        else if month == 4 then 90 else if month == 5 then 120 else 151
      else
        if month == 7 then 181 else if month == 8 then 212 else if month == 9 then 243
        else if month == 10 then 273 else if month == 11 then 304 else 334;
    common + if month > 2 && IsLeap(year) then 1 else 0
  }

  /** The day number of d; date.toordinal() in Python. */
  function Ordinal(d: Date): int {
    DaysBeforeYear(d.year) + DaysBeforeMonth(d.year, d.month) + d.day
  }

  /** Python's `a < b` on dates: lexicographic on (year, month, day). */
  predicate Before(a: Date, b: Date) {
    || a.year < b.year
    || (a.year == b.year && a.month < b.month)
    || (a.year == b.year && a.month == b.month && a.day < b.day)
  }

  /** `(end - start).days` in Python: whole days from start to end, negative when end is earlier. */
  function DaysBetween(start: Date, end: Date): int {
    Ordinal(end) - Ordinal(start)
  }

  lemma DaysBeforeYearStep(year: int)
    requires year >= 1
    ensures DaysBeforeYear(year + 1) == DaysBeforeYear(year) + DaysInYear(year)
  {
    var y := year - 1;
    assert (y + 1) / 4 - y / 4 == if year % 4 == 0 then 1 else 0;
    assert (y + 1) / 100 - y / 100 == if year % 100 == 0 then 1 else 0;
    assert (y + 1) / 400 - y / 400 == if year % 400 == 0 then 1 else 0;
  }

  lemma {:induction false} DaysBeforeYearGrows(y1: int, y2: int)
    requires 1 <= y1 < y2
    ensures DaysBeforeYear(y1) + DaysInYear(y1) <= DaysBeforeYear(y2)
  {
    DaysBeforeYearStep(y2 - 1);
    if y1 < y2 - 1 {
      DaysBeforeYearGrows(y1, y2 - 1);
    }
  }

  lemma DaysBeforeMonthStep(year: int, month: int)
    requires 1 <= month < 12
    ensures DaysBeforeMonth(year, month + 1) == DaysBeforeMonth(year, month) + DaysInMonth(year, month)
  {
  }

  lemma MonthsFitInYear(year: int, m1: int, m2: int)
    requires 1 <= m1 < m2 <= 13
    ensures m2 <= 12 ==> DaysBeforeMonth(year, m1) + DaysInMonth(year, m1) <= DaysBeforeMonth(year, m2)
    ensures m2 == 13 ==> DaysBeforeMonth(year, m1) + DaysInMonth(year, m1) <= DaysInYear(year)
  {
  }

  lemma BeforeHasSmallerOrdinal(a: Date, b: Date)
    requires Before(a, b)
    ensures Ordinal(a) < Ordinal(b)
  {
    if a.year < b.year {
      MonthsFitInYear(a.year, a.month, 13);
      DaysBeforeYearGrows(a.year, b.year);
    } else if a.month < b.month {
      MonthsFitInYear(a.year, a.month, b.month);
    }
  }

  /** Day numbers order dates exactly as Python's date comparison does. */
  lemma OrdinalOrder(a: Date, b: Date)
    ensures Ordinal(a) < Ordinal(b) <==> Before(a, b)
    ensures Ordinal(a) == Ordinal(b) <==> a == b
  {
    if Before(a, b) {
      BeforeHasSmallerOrdinal(a, b);
    } else if Before(b, a) {
      BeforeHasSmallerOrdinal(b, a);
    }
  }

  // ---- the "%Y%m%d" text form ----

  predicate IsDigit(c: char) {
    '0' <= c <= '9'
  }

  predicate AllDigits(s: string) {
    forall i :: 0 <= i < |s| ==> IsDigit(s[i])
  }

  function Pow10(n: nat): (p: nat)
    ensures p >= 1
  {
    if n == 0 then 1 else 10 * Pow10(n - 1)
  }

  /** The value of a string of decimal digits, most significant first. */
  function Number(s: string): (n: nat)
    requires AllDigits(s)
    ensures n < Pow10(|s|)
  {
    if s == [] then 0
    else Number(s[..|s| - 1]) * 10 + (s[|s| - 1] as int - '0' as int)
  }

  /** n written with exactly `width` decimal digits, zero-padded on the left. */
  function Digits(n: nat, width: nat): (s: string)
    ensures |s| == width && AllDigits(s)
  {
    if width == 0 then []
    else Digits(n / 10, width - 1) + [('0' as int + n % 10) as char]
  }

  lemma {:induction false} NumberOfDigits(n: nat, width: nat)
    requires n < Pow10(width)
    ensures Number(Digits(n, width)) == n
  {
    if width > 0 {
      var s := Digits(n, width);
      assert s[..width - 1] == Digits(n / 10, width - 1);
      NumberOfDigits(n / 10, width - 1);
    }
  }

  lemma {:induction false} DigitsOfNumber(s: string)
    requires AllDigits(s)
    ensures Digits(Number(s), |s|) == s
  {
    if s != [] {
      var init := s[..|s| - 1];
      var n := Number(s);
      assert n / 10 == Number(init) && n % 10 == s[|s| - 1] as int - '0' as int;
      DigitsOfNumber(init);
      assert s == init + [s[|s| - 1]];
    }
  }

  /** The eight-character "%Y%m%d" form of d. */
  function FormatYyyymmdd(d: Date): (s: string)
    ensures |s| == 8 && AllDigits(s)
  {
    Digits(d.year, 4) + Digits(d.month, 2) + Digits(d.day, 2)
  }

  /**
   * datetime.strptime(s, "%Y%m%d").date() for an eight-digit s: four digits of
   * year, two of month, two of day; anything that is not a real date is a
   * ValueError, modelled as None.
   */
  function ParseYyyymmdd(s: string): (r: Option<Date>)
    ensures r.Some? ==> FormatYyyymmdd(r.value) == s
  {
    if |s| == 8 && AllDigits(s) then
      var ymd := YearMonthDay(Number(s[..4]), Number(s[4..6]), Number(s[6..]));
      if IsCalendarDate(ymd) then
        DigitsOfNumber(s[..4]);
        DigitsOfNumber(s[4..6]);
        DigitsOfNumber(s[6..]);
        assert s == s[..4] + s[4..6] + s[6..];
        Some(ymd)
      else None
    else None
  }

  /** Every date's text form parses back to that date, so parsing is exactly the inverse of formatting. */
  lemma ParseFormat(d: Date, s: string)
    ensures ParseYyyymmdd(FormatYyyymmdd(d)) == Some(d)
    ensures ParseYyyymmdd(s) == Some(d) <==> FormatYyyymmdd(d) == s
  {
    var t := FormatYyyymmdd(d);
    assert Pow10(4) == 10000 && Pow10(2) == 100;
    assert t[..4] == Digits(d.year, 4);
    assert t[4..6] == Digits(d.month, 2);
    assert t[6..] == Digits(d.day, 2);
    NumberOfDigits(d.year, 4);
    NumberOfDigits(d.month, 2);
    NumberOfDigits(d.day, 2);
  }
}
