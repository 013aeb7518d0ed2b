/**
 * Calendar dates as Python's `datetime.date` handles them: the proleptic
 * Gregorian calendar over years 1 to 9999, day arithmetic through the
 * ordinal day number, and the `strftime` / `strptime` formats the feeds use.
 */
module Dates {
  import opened Wrappers
  import opened Arith

  const MinYear: int := 1
  const MaxYear: int := 9999

  datatype Date = Date(year: int, month: int, day: int)

  predicate IsLeapYear(y: int) {
    y % 4 == 0 && (y % 100 != 0 || y % 400 == 0)
  }

  function DaysInMonth(y: int, m: int): (n: int)
    requires 1 <= m <= 12
    ensures 28 <= n <= 31
    ensures n == 29 <==> m == 2 && IsLeapYear(y)
  {
    if m == 2 then (if IsLeapYear(y) then 29 else 28)
    else if m == 4 || m == 6 || m == 9 || m == 11 then 30
    else 31
  }

  function DaysInYear(y: int): int {
    if IsLeapYear(y) then 366 else 365
  }

  /** A date `datetime.date` can represent. */
  predicate Valid(d: Date) {
    && MinYear <= d.year <= MaxYear
    && 1 <= d.month <= 12
    && 1 <= d.day <= DaysInMonth(d.year, d.month)
  }

  /** Days in the years before `y`, in CPython's closed form. */
  function DaysBeforeYear(y: int): int
    requires y >= 1
  {
    var p := y - 1;
    p * 365 + p / 4 - p / 100 + p / 400
  }

  /** Days in the months of year `y` before month `m`. */
  function DaysBeforeMonth(y: int, m: int): int
    requires 1 <= m <= 12
  {
    if m == 1 then 0 else DaysBeforeMonth(y, m - 1) + DaysInMonth(y, m - 1)
  }

  /** The proleptic Gregorian ordinal (`date.toordinal()`): 0001-01-01 is day 1. */
  function Ordinal(d: Date): int
    requires Valid(d)
  {
    DaysBeforeYear(d.year) + DaysBeforeMonth(d.year, d.month) + d.day
  }

  lemma YearStep(y: int)
    requires y >= 1
    ensures DaysBeforeYear(y + 1) == DaysBeforeYear(y) + DaysInYear(y)
  {
    DivStep(y, 4);
    DivStep(y, 100);
    DivStep(y, 400);
    if y % 100 == 0 {
      MultipleOfFactor(y, 25, 4);
    }
    if y % 400 == 0 {
      MultipleOfFactor(y, 4, 100);
    }
  }

  lemma {:induction false} DecemberEnd(y: int)
    ensures DaysBeforeMonth(y, 12) + 31 == DaysInYear(y)
  {
    var feb := DaysInMonth(y, 2);
    assert DaysBeforeMonth(y, 2) == 31;
    assert DaysBeforeMonth(y, 3) == 31 + feb;
    assert DaysBeforeMonth(y, 4) == 62 + feb;
    assert DaysBeforeMonth(y, 5) == 92 + feb;
    assert DaysBeforeMonth(y, 6) == 123 + feb;
    assert DaysBeforeMonth(y, 7) == 153 + feb;
    assert DaysBeforeMonth(y, 8) == 184 + feb;
    assert DaysBeforeMonth(y, 9) == 215 + feb;
    assert DaysBeforeMonth(y, 10) == 245 + feb;
    assert DaysBeforeMonth(y, 11) == 276 + feb;
    assert DaysBeforeMonth(y, 12) == 306 + feb;
  }

  /**
   * `today - timedelta(days=1)`: the valid date whose ordinal is one less;
   * None for 0001-01-01, where Python raises OverflowError.
   */
  function PrevDay(d: Date): (r: Option<Date>)
    requires Valid(d)
    ensures r.None? <==> d == Date(MinYear, 1, 1)
    ensures r.Some? ==> Valid(r.value) && Ordinal(r.value) == Ordinal(d) - 1
  {
    if d.day > 1 then
      DayStep(Date(d.year, d.month, d.day - 1));
      Some(Date(d.year, d.month, d.day - 1))
    else if d.month > 1 then
      MonthStep(Date(d.year, d.month - 1, DaysInMonth(d.year, d.month - 1)));
      Some(Date(d.year, d.month - 1, DaysInMonth(d.year, d.month - 1)))
    else if d.year > MinYear then
      YearEnd(d.year - 1);
      Some(Date(d.year - 1, 12, 31))
    else None
  }

  /** `d + timedelta(days=1)`; None for 9999-12-31, where Python raises OverflowError. */
  function NextDay(d: Date): (r: Option<Date>)
    requires Valid(d)
    ensures r.None? <==> d == Date(MaxYear, 12, 31)
    ensures r.Some? ==> Valid(r.value) && Ordinal(r.value) == Ordinal(d) + 1
  {
    if d.day < DaysInMonth(d.year, d.month) then
      DayStep(d);
      Some(Date(d.year, d.month, d.day + 1))
    else if d.month < 12 then
      MonthStep(d);
      Some(Date(d.year, d.month + 1, 1))
    else if d.year < MaxYear then
      YearEnd(d.year);
      Some(Date(d.year + 1, 1, 1))
    else None
  }

  /** The next day within a month. */
  lemma DayStep(d: Date)
    requires Valid(d) && d.day < DaysInMonth(d.year, d.month)
    ensures Valid(Date(d.year, d.month, d.day + 1))
    ensures Ordinal(Date(d.year, d.month, d.day + 1)) == Ordinal(d) + 1
  {
  }

  /** The last day of a month is the day before the first of the next month. */
  lemma MonthStep(d: Date)
    requires Valid(d) && d.month < 12 && d.day == DaysInMonth(d.year, d.month)
    ensures Valid(Date(d.year, d.month + 1, 1))
    ensures Ordinal(Date(d.year, d.month + 1, 1)) == Ordinal(d) + 1
  {
    assert DaysBeforeMonth(d.year, d.month + 1) == DaysBeforeMonth(d.year, d.month) + d.day;
  }

  /** December 31 is the day before January 1 of the next year. */
  lemma YearEnd(y: int)
    requires MinYear <= y < MaxYear
    ensures Valid(Date(y, 12, 31))
    ensures Ordinal(Date(y + 1, 1, 1)) == Ordinal(Date(y, 12, 31)) + 1
  {
    YearStep(y);
    DecemberEnd(y);
  }

  /** Stepping back a day and forward again returns to the same date. */
  lemma PrevThenNext(d: Date)
    requires Valid(d) && d != Date(MinYear, 1, 1)
    ensures PrevDay(d).Some? && NextDay(PrevDay(d).value) == Some(d)
  {
    var p := PrevDay(d).value;
    if d.day > 1 {
      assert p == Date(d.year, d.month, d.day - 1);
    } else if d.month > 1 {
      assert p == Date(d.year, d.month - 1, DaysInMonth(d.year, d.month - 1));
    } else {
      assert p == Date(d.year - 1, 12, 31);
    }
  }

  // ---------------------------------------------------------------------
  // Decimal digits

  function Pow10(n: nat): (p: nat)
    ensures p >= 1
  {
    if n == 0 then 1 else 10 * Pow10(n - 1)
  }

  predicate IsDigit(c: char) {
    '0' <= c <= '9'
  }

  predicate AllDigits(s: string) {
    forall i :: 0 <= i < |s| ==> IsDigit(s[i])
  }

  function Digit(n: int): (c: char)
    requires 0 <= n < 10
    ensures IsDigit(c) && c as int - '0' as int == n
  {
    ('0' as int + n) as char
  }

  /** The number written by a string of decimal digits. */
  function DigitsValue(s: string): nat
    requires AllDigits(s)
  {
    if s == [] then 0 else 10 * DigitsValue(s[..|s| - 1]) + (s[|s| - 1] as int - '0' as int)
  }

  /** `n` written in exactly `width` digits with leading zeros (strftime's `%d`, `%m`, `%Y`). */
  function Pad(n: nat, width: nat): (s: string)
    ensures |s| == width && AllDigits(s)
  {
    if width == 0 then "" else Pad(n / 10, width - 1) + [Digit(n % 10)]
  }

  /** Reading back a zero-padded number gives the number, when it fits the width. */
  lemma {:induction false} PadRoundTrip(n: nat, width: nat)
    requires n < Pow10(width)
    ensures DigitsValue(Pad(n, width)) == n
  {
    if width > 0 {
      var s := Pad(n, width);
      assert s[..|s| - 1] == Pad(n / 10, width - 1);
      assert n / 10 < Pow10(width - 1);
      PadRoundTrip(n / 10, width - 1);
    }
  }

  // ---------------------------------------------------------------------
  // Formats

  /** `strftime("%d-%m-%Y")`. */
  function FormatDMY(d: Date): (s: string)
    requires Valid(d)
    ensures |s| == 10 && s[2] == '-' && s[5] == '-'
  {
    Pad(d.day as nat, 2) + "-" + Pad(d.month as nat, 2) + "-" + Pad(d.year as nat, 4)
  }

  /** `strftime("%Y-%m-%d")`. */
  function FormatYMD(d: Date): (s: string)
    requires Valid(d)
    ensures |s| == 10 && s[4] == '-' && s[7] == '-'
  {
    Pad(d.year as nat, 4) + "-" + Pad(d.month as nat, 2) + "-" + Pad(d.day as nat, 2)
  }

  /** `strptime(s, '%Y-%m-%d')` restricted to the zero-padded form; None where it raises ValueError. */
  function ParseYMD(s: string): (r: Option<Date>)
    ensures r.Some? ==> Valid(r.value)
  {
    if |s| == 10 && s[4] == '-' && s[7] == '-'
       && AllDigits(s[..4]) && AllDigits(s[5..7]) && AllDigits(s[8..])
    then
      var d := Date(DigitsValue(s[..4]), DigitsValue(s[5..7]), DigitsValue(s[8..]));
      if Valid(d) then Some(d) else None
    else None
  }

  /** Parsing a date written with `%Y-%m-%d` gives the date back. */
  lemma ParseFormatYMD(d: Date)
    requires Valid(d)
    ensures ParseYMD(FormatYMD(d)) == Some(d)
  {
    var s := FormatYMD(d);
    assert s[..4] == Pad(d.year as nat, 4);
    assert s[5..7] == Pad(d.month as nat, 2);
    assert s[8..] == Pad(d.day as nat, 2);
    PadRoundTrip(d.year as nat, 4);
    PadRoundTrip(d.month as nat, 2);
    PadRoundTrip(d.day as nat, 2);
  }

  /** Two dates written the same way with `%d-%m-%Y` are the same date. */
  lemma FormatDMYInjective(d1: Date, d2: Date)
    requires Valid(d1) && Valid(d2) && FormatDMY(d1) == FormatDMY(d2)
    ensures d1 == d2
  {
    var s1, s2 := FormatDMY(d1), FormatDMY(d2);
    assert s1[..2] == Pad(d1.day as nat, 2) && s2[..2] == Pad(d2.day as nat, 2);
    assert s1[3..5] == Pad(d1.month as nat, 2) && s2[3..5] == Pad(d2.month as nat, 2);
    assert s1[6..] == Pad(d1.year as nat, 4) && s2[6..] == Pad(d2.year as nat, 4);
    PadRoundTrip(d1.day as nat, 2);
    PadRoundTrip(d2.day as nat, 2);
    PadRoundTrip(d1.month as nat, 2);
    PadRoundTrip(d2.month as nat, 2);
    PadRoundTrip(d1.year as nat, 4);
    PadRoundTrip(d2.year as nat, 4);
  }

  // ---------------------------------------------------------------------
  // Query ranges and file names

  /** The `from_date` / `to_date` pair of a query, both `dd-mm-YYYY`. */
  datatype DateRange = DateRange(from: string, to: string)

  /** A query for today only: `from_date = to_date = today`. */
  function SameDayRange(today: Date): (r: DateRange)
    requires Valid(today)
    ensures r.from == r.to == FormatDMY(today)
  {
    DateRange(FormatDMY(today), FormatDMY(today))
  }

  /** A query from yesterday to today; None where `today - timedelta(days=1)` overflows. */
  function PreviousDayRange(today: Date): (r: Option<DateRange>)
    requires Valid(today)
    ensures r.None? <==> today == Date(MinYear, 1, 1)
    ensures r.Some? ==> r.value.to == FormatDMY(today)
    ensures r.Some? ==> exists y :: Valid(y) && Ordinal(y) == Ordinal(today) - 1 && r.value.from == FormatDMY(y)
  {
    match PrevDay(today)
    case None => None
    case Some(y) => Some(DateRange(FormatDMY(y), FormatDMY(today)))
  }

  /** `f"{prefix}_{to_date}.json"`. */
  function JsonName(prefix: string, to: string): string {
    prefix + "_" + to + ".json"
  }

  /** `f"{prefix}_{to_date}_summary.txt"`. */
  function SummaryName(prefix: string, to: string): string {
    prefix + "_" + to + "_summary.txt"
  }

  /** Runs on different days write different summary files. */
  lemma SummaryNamesDistinct(prefix: string, d1: Date, d2: Date)
    requires Valid(d1) && Valid(d2) && d1 != d2
    ensures SummaryName(prefix, FormatDMY(d1)) != SummaryName(prefix, FormatDMY(d2))
  {
    var n1, n2 := SummaryName(prefix, FormatDMY(d1)), SummaryName(prefix, FormatDMY(d2));
    if n1 == n2 {
      var k := |prefix| + 1;
      assert n1[k..k + 10] == FormatDMY(d1);
      assert n2[k..k + 10] == FormatDMY(d2);
      FormatDMYInjective(d1, d2);
    }
  }
}
