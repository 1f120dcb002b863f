/**
  Calendar dates as the booking forms use them: the `YYYY-MM-DD` strings an
  `<input type="date">` produces, their comparison, and the age in whole
  years that the passenger page derives from a birth date and today's date.
 */
module Dates {
  import opened Options
  import opened Text

  datatype Date = Date(year: int, month: int, day: int)

  /** `a > b` for dates: `a` is a strictly later calendar day. */
  predicate After(a: Date, b: Date) {
    || a.year > b.year
    || (a.year == b.year && a.month > b.month)
    || (a.year == b.year && a.month == b.month && a.day > b.day)
  }

  predicate IsLeapYear(y: int) {
    (y % 4 == 0 && y % 100 != 0) || y % 400 == 0
  }

  function DaysInMonth(y: int, m: int): (n: int)
    requires 1 <= m <= 12
    ensures 28 <= n <= 31
  {
    if m == 2 then (if IsLeapYear(y) then 29 else 28)
    else if m == 4 || m == 6 || m == 9 || m == 11 then 30
    else 31
  }

  predicate IsCalendarDate(d: Date) {
    1 <= d.month <= 12 && 1 <= d.day <= DaysInMonth(d.year, d.month)
  }

  /** The ISO `YYYY-MM-DD` rendering of a date with a four-digit year. */
  function IsoString(d: Date): (s: string)
    requires 0 <= d.year <= 9999 && 1 <= d.month <= 12 && 1 <= d.day <= 31
    ensures |s| == 10
  {
    Pad(d.year, 4) + "-" + Pad(d.month, 2) + "-" + Pad(d.day, 2)
  }

  function Pad(n: nat, width: nat): (s: string)
    ensures |s| == width && AllDigits(s)
    ensures n < Pow10(width) ==> DecimalValue(s) == n
  {
    if width == 0 then ""
    else
      var s := Pad(n / 10, width - 1) + [DigitChar(n % 10)];
      assert s[..|s| - 1] == Pad(n / 10, width - 1);
      s
  }

  /** `new Date(s)` for a date-only ISO string: `Some` date when `s` has the
      shape `YYYY-MM-DD` and names a real calendar day, `None` (an Invalid
      Date) otherwise. */
  function ParseIsoDate(s: string): (r: Option<Date>)
    ensures r.Some? ==> IsCalendarDate(r.value) && 0 <= r.value.year <= 9999
    ensures r.Some? ==> |s| == 10 && s[4] == '-' && s[7] == '-'
  {
    if |s| == 10 && s[4] == '-' && s[7] == '-'
       && AllDigits(s[..4]) && AllDigits(s[5..7]) && AllDigits(s[8..])
    then
      var d := Date(DecimalValue(s[..4]), DecimalValue(s[5..7]), DecimalValue(s[8..]));
      if IsCalendarDate(d) then Some(d) else None
    else None
  }

  /** Parsing the rendering of a calendar date gives the date back. */
  lemma ParseIsoString(d: Date)
    requires IsCalendarDate(d) && 0 <= d.year <= 9999
    ensures ParseIsoDate(IsoString(d)) == Some(d)
  {
    var s := IsoString(d);
    assert s[..4] == Pad(d.year, 4);
    assert s[5..7] == Pad(d.month, 2);
    assert s[8..] == Pad(d.day, 2);
    assert Pow10(4) == 10000 && Pow10(2) == 100;
  }

  /** The `n`-th birthday of someone born on `birth` has come by `today`. */
  predicate AnniversaryReached(birth: Date, today: Date, n: int) {
    !After(Date(birth.year + n, birth.month, birth.day), today)
  }

  /** The age computation of the passenger page: the year difference, less one
      when this year's month/day anniversary is still ahead. It is the number of
      whole years: the last anniversary reached. */
  function Age(birth: Date, today: Date): (age: int)
    ensures AnniversaryReached(birth, today, age)
    ensures !AnniversaryReached(birth, today, age + 1)
  {
    var age := today.year - birth.year;
    var monthDiff := today.month - birth.month;
    var dayDiff := today.day - birth.day;
    if monthDiff < 0 || (monthDiff == 0 && dayDiff < 0) then age - 1 else age
  }

  /** Anniversaries are reached in order: the property `Age` relies on. */
  lemma AnniversaryMonotone(birth: Date, today: Date, m: int, n: int)
    requires m <= n && AnniversaryReached(birth, today, n)
    ensures AnniversaryReached(birth, today, m)
  {
  }

  /** Nobody born after today has a non-negative age. */
  lemma FutureBirthNegativeAge(birth: Date, today: Date)
    requires After(birth, today)
    ensures Age(birth, today) < 0
  {
  }
}
