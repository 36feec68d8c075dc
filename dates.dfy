/** Calendar dates as whole day numbers (days since 1970-01-01 in the
    proleptic Gregorian calendar), the JavaScript `Date` constructor's
    month/day overflow rules on top of them, and the digit patterns
    `DD/MM/YYYY` and `YYYY-MM-DD` that the pages recognise. */
module Dates {

  predicate IsLeap(y: int)
  {
    y % 4 == 0 && (y % 100 != 0 || y % 400 == 0)
  }

  function DaysInMonth(y: int, m: int): (n: int)
    requires 1 <= m <= 12
    ensures 28 <= n <= 31
  {
    if m == 2 then (if IsLeap(y) then 29 else 28)
    else if m == 4 || m == 6 || m == 9 || m == 11 then 30
    else 31
  }

  /** Year `y`, month `m` and day `d` name a day of the calendar. */
  predicate IsCalendarDate(y: int, m: int, d: int)
  {
    1 <= m <= 12 && 1 <= d <= DaysInMonth(y, m)
  }

  /** Day number of year `y`, month `m` (1-12), day `d`; `d` may run past
      the month, as JavaScript's date arithmetic lets it. Dafny's `/` on a
      positive divisor is floor division, which the era computation needs. */
  function DaysFromCivil(y: int, m: int, d: int): int
    requires 1 <= m <= 12
  {
    var y' := if m <= 2 then y - 1 else y;
    var era := y' / 400;
    var yoe := y' - era * 400;
    var mp := (m + 9) % 12;
    var doy := (153 * mp + 2) / 5 + d - 1;
    var doe := yoe * 365 + yoe / 4 - yoe / 100 + doy;
    era * 146097 + doe - 719468
  }

  /** `new Date(year, monthIndex, date)` at local midnight: the month index
      is 0-based and overflows into neighbouring years, the date overflows
      into neighbouring months, and a year from 0 to 99 means 1900 + year. */
  function JsLocalDate(year: int, monthIndex: int, date: int): (day: int)
    ensures 1 <= monthIndex + 1 <= 12 && 100 <= year ==> day == DaysFromCivil(year, monthIndex + 1, date)
    ensures 1 <= monthIndex + 1 <= 12 && 0 <= year <= 99 ==> day == DaysFromCivil(1900 + year, monthIndex + 1, date)
  {
    var fullYear := if 0 <= year <= 99 then 1900 + year else year;
    var y := fullYear + monthIndex / 12;
    var m0 := monthIndex % 12;
    DaysFromCivil(y, m0 + 1, 1) + date - 1
  }

  /** `setDate(getDate() + k)` moves a date by exactly `k` day numbers. */
  lemma SetDateShifts(year: int, monthIndex: int, date: int, k: int)
    ensures JsLocalDate(year, monthIndex, date + k) == JsLocalDate(year, monthIndex, date) + k
  {
  }

  predicate IsDigit(c: char)
  {
    '0' <= c <= '9'
  }

  predicate AllDigits(s: string)
  {
    forall i :: 0 <= i < |s| ==> IsDigit(s[i])
  }

  /** Decimal value of a digit string, as `Number("08")` reads it. */
  function DigitsValue(s: string): (v: nat)
    requires AllDigits(s)
  {
    if s == [] then 0
    else DigitsValue(s[..|s| - 1]) * 10 + (s[|s| - 1] as int - '0' as int)
  }

  /** A digit string of exactly `width` digits, left-padded with zeros. */
  function PadDigits(v: nat, width: nat): (s: string)
    ensures |s| == width && AllDigits(s)
  {
    if width == 0 then []
    else PadDigits(v / 10, width - 1) + [('0' as int + v % 10) as char]
  }

  lemma {:induction false} PadDigitsValue(v: nat, width: nat)
    requires v < Pow10(width)
    ensures DigitsValue(PadDigits(v, width)) == v
  {
    if width > 0 {
      var s := PadDigits(v, width);
      assert s[..|s| - 1] == PadDigits(v / 10, width - 1);
      PadDigitsValue(v / 10, width - 1);
    }
  }

  function Pow10(n: nat): (p: nat)
    ensures p >= 1
  {
    if n == 0 then 1 else 10 * Pow10(n - 1)
  }

  /** Matches the regular expression `^\d{2}\/\d{2}\/\d{4}$`. */
  predicate IsDayMonthYear(s: string)
  {
    |s| == 10 && s[2] == '/' && s[5] == '/'
    && AllDigits(s[0..2]) && AllDigits(s[3..5]) && AllDigits(s[6..10])
  }

  /** Matches the regular expression `^\d{4}-\d{2}-\d{2}$`. */
  predicate IsYearMonthDay(s: string)
  {
    |s| == 10 && s[4] == '-' && s[7] == '-'
    && AllDigits(s[0..4]) && AllDigits(s[5..7]) && AllDigits(s[8..10])
  }

  /** `DD/MM/YYYY` as the pages write a date. */
  function FormatDayMonthYear(y: nat, m: nat, d: nat): (s: string)
    requires y < 10000 && m < 100 && d < 100
    ensures IsDayMonthYear(s)
  {
    PadDigits(d, 2) + "/" + PadDigits(m, 2) + "/" + PadDigits(y, 4)
  }

  /** Reading back a formatted `DD/MM/YYYY` string gives the same fields. */
  lemma FormatDayMonthYearRoundTrip(y: nat, m: nat, d: nat)
    requires y < 10000 && m < 100 && d < 100
    ensures var s := FormatDayMonthYear(y, m, d);
      DigitsValue(s[0..2]) == d && DigitsValue(s[3..5]) == m && DigitsValue(s[6..10]) == y
  {
    var s := FormatDayMonthYear(y, m, d);
    assert s[0..2] == PadDigits(d, 2);
    assert s[3..5] == PadDigits(m, 2);
    assert s[6..10] == PadDigits(y, 4);
    PadDigitsValue(d, 2);
    PadDigitsValue(m, 2);
    PadDigitsValue(y, 4);
  }
}
