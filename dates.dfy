/** Calendar-day keys `YYYY-MM-DD`, as `toISOString().split('T')[0]` writes them for a
    UTC midnight built with `Date.UTC(year, monthIndex, day)`. */
module Dates {

  predicate IsDigit(c: char) {
    '0' <= c <= '9'
  }

  function DigitValue(c: char): nat
    requires IsDigit(c)
  {
    c as int - '0' as int
  }

  function Digit(n: nat): (c: char)
    requires n < 10
    ensures IsDigit(c) && DigitValue(c) == n
  {
    ('0' as int + n) as char
  }

  /** Zero-padded two-digit decimal. */
  function Pad2(n: nat): string
    requires n < 100
  {
    [Digit(n / 10), Digit(n % 10)]
  }

  /** Zero-padded four-digit decimal. */
  function Pad4(n: nat): string
    requires n < 10000
  {
    [Digit(n / 1000), Digit(n / 100 % 10), Digit(n / 10 % 10), Digit(n % 10)]
  }

  /** Years `Date.UTC` takes literally and `toISOString` writes with four digits
      (`Date.UTC` reads 0..99 as 1900..1999). */
  predicate ValidYear(y: nat) {
    100 <= y <= 9999
  }

  /** Gregorian leap years, as `Date` computes them. */
  predicate IsLeapYear(y: nat) {
    (y % 4 == 0 && y % 100 != 0) || y % 400 == 0
  }

  /** `new Date(Date.UTC(year, m, 0)).getUTCDate()` for a 1-based month `m`: the number
      of days in that month. */
  function DaysInMonth(y: nat, m: nat): (n: nat)
    requires 1 <= m <= 12
    ensures 28 <= n <= 31
  {
    if m == 2 then (if IsLeapYear(y) then 29 else 28)
    else if m == 4 || m == 6 || m == 9 || m == 11 then 30
    else 31
  }

  /** The shape `^\d{4}-\d{2}-\d{2}$` with a month 01..12 and a day 01..31. */
  predicate WellFormedDateKey(k: string) {
    && |k| == 10
    && IsDigit(k[0]) && IsDigit(k[1]) && IsDigit(k[2]) && IsDigit(k[3])
    && k[4] == '-'
    && IsDigit(k[5]) && IsDigit(k[6])
    && k[7] == '-'
    && IsDigit(k[8]) && IsDigit(k[9])
    && 1 <= 10 * DigitValue(k[5]) + DigitValue(k[6]) <= 12
    && 1 <= 10 * DigitValue(k[8]) + DigitValue(k[9]) <= 31
  }

  /** The key of day `d` of month `m` (1-based) of year `y`. */
  function FormatDateKey(y: nat, m: nat, d: nat): (k: string)
    requires ValidYear(y) && 1 <= m <= 12 && 1 <= d <= 31
    ensures WellFormedDateKey(k)
  {
    Pad4(y) + "-" + Pad2(m) + "-" + Pad2(d)
  }
}
