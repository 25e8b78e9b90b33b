/**
 * A proleptic Gregorian calendar in a single time zone, on the lines of
 * the `Date` arithmetic of ECMAScript: day numbers count days since
 * 1970-01-01, months are 0-based, `MakeDay` normalises an out-of-range
 * month by floor division and an out-of-range date by plain addition, and
 * times are milliseconds.
 */
module Calendar {

  import opened Strings

  /** Milliseconds in a day (24 * 60 * 60 * 1000). */
  const DayMs: int := 86400000

  predicate IsLeap(y: int) {
    y % 4 == 0 && (y % 100 != 0 || y % 400 == 0)
  }

  function YearLength(y: int): int {
    if IsLeap(y) then 366 else 365
  }

  /** Days in month `m` (0 = January) of year `y`. */
  function DaysInMonth(y: int, m: int): int
    requires 0 <= m < 12
  {
    if m == 1 then (if IsLeap(y) then 29 else 28)
    else if m == 3 || m == 5 || m == 8 || m == 10 then 30
    else 31
  }

  /** Leap years among 1 .. x, shifted so that differences count leap years. */
  function LeapCount(x: int): int {
    x / 4 - x / 100 + x / 400
  }

  /** Day number of January 1st of year `y`. */
  function YearStart(y: int): int {
    365 * (y - 1970) + LeapCount(y - 1) - LeapCount(1969)
  }

  lemma FloorStep4(x: int)
    ensures x / 4 - (x - 1) / 4 == if x % 4 == 0 then 1 else 0
  {
  }

  lemma FloorStep100(x: int)
    ensures x / 100 - (x - 1) / 100 == if x % 100 == 0 then 1 else 0
  {
  }

  lemma FloorStep400(x: int)
    ensures x / 400 - (x - 1) / 400 == if x % 400 == 0 then 1 else 0
  {
  }

  /** Consecutive years start `YearLength` days apart. */
  lemma YearStartStep(y: int)
    ensures YearStart(y + 1) == YearStart(y) + YearLength(y)
  {
    LeapCountStep(y);
  }

  /** Year `y` adds one to the leap count exactly when it is a leap year. */
  lemma LeapCountStep(y: int)
    ensures LeapCount(y) == LeapCount(y - 1) + if IsLeap(y) then 1 else 0
  {
    FloorStep4(y);
    FloorStep100(y);
    FloorStep400(y);
    if y % 400 == 0 {
      CenturyOf400(y);
      LeapOfCentury(y);
    } else if y % 100 == 0 {
      LeapOfCentury(y);
    }
  }

  lemma LeapOfCentury(y: int)
    requires y % 100 == 0
    ensures y % 4 == 0
  {
    assert y == 4 * (25 * (y / 100));
  }

  lemma CenturyOf400(y: int)
    requires y % 400 == 0
    ensures y % 100 == 0
  {
    assert y == 100 * (4 * (y / 400));
  }

  /** Days of year `y` before month `m`; `m == 12` gives the whole year. */
  function DaysBeforeMonth(y: int, m: int): int
    requires 0 <= m <= 12
  {
    (if m == 0 then 0 else if m == 1 then 31 else if m == 2 then 59 else if m == 3 then 90
     else if m == 4 then 120 else if m == 5 then 151 else if m == 6 then 181 else if m == 7 then 212
     else if m == 8 then 243 else if m == 9 then 273 else if m == 10 then 304 else if m == 11 then 334
     else 365)
    + (if IsLeap(y) && m >= 2 then 1 else 0)
  }

  /** Each month starts where the previous one ends, and the twelve fill the year. */
  lemma MonthStep(y: int, m: int)
    requires 0 <= m < 12
    ensures DaysBeforeMonth(y, m + 1) == DaysBeforeMonth(y, m) + DaysInMonth(y, m)
  {
  }

  lemma MonthsFillYear(y: int)
    ensures DaysBeforeMonth(y, 12) == YearLength(y)
  {
  }

  /** Day number of the first day of month `m` (0-based) of year `y`. */
  function MonthStart(y: int, m: int): int
    requires 0 <= m < 12
  {
    YearStart(y) + DaysBeforeMonth(y, m)
  }

  /**
   * `MakeDay(year, month, date)` of ECMAScript: the month is normalised by
   * floor division into the year, the date is added to the month's first
   * day.
   */
  function MakeDay(year: int, month: int, date: int): int {
    MonthStart(year + month / 12, month % 12) + date - 1
  }

  /** `MakeTime` followed by `MakeDate`: milliseconds since the epoch. */
  function MakeDate(day: int, h: int, min: int, s: int, ms: int): int {
    day * 86400000 + h * 3600000 + min * 60000 + s * 1000 + ms
  }

  /** The day of the week, 0 for Sunday: 1970-01-01 was a Thursday. */
  function WeekDay(day: int): (r: int)
    ensures 0 <= r < 7
  {
    (day + 4) % 7
  }

  /** The first day of the month after month `m` is `DaysInMonth` days later. */
  lemma NextMonthStart(y: int, m: int)
    ensures MakeDay(y, m + 1, 1) == MakeDay(y, m, 1) + DaysInMonth(y + m / 12, m % 12)
  {
    if m % 12 == 11 {
      assert (m + 1) / 12 == m / 12 + 1 && (m + 1) % 12 == 0;
      YearStartStep(y + m / 12);
      MonthStep(y + m / 12, 11);
      MonthsFillYear(y + m / 12);
    } else {
      assert (m + 1) / 12 == m / 12 && (m + 1) % 12 == m % 12 + 1;
      MonthStep(y + m / 12, m % 12);
    }
  }

  /** Twelve months back is the same month of the year before. */
  lemma MakeDayYearBack(y: int, m: int, d: int)
    ensures MakeDay(y, m - 12, d) == MakeDay(y - 1, m, d)
  {
    assert (m - 12) / 12 == m / 12 - 1 && (m - 12) % 12 == m % 12;
  }

  /** The first millisecond of a day. */
  function Midnight(day: int): int {
    MakeDate(day, 0, 0, 0, 0)
  }

  /** `23:59:59.999` of a day: its last millisecond. */
  function EndOfDay(day: int): int {
    MakeDate(day, 23, 59, 59, 999)
  }

  /** Days are `DayMs` apart, and a day's first and last millisecond fall on it. */
  lemma DayTimes(day: int)
    ensures EndOfDay(day) == Midnight(day + 1) - 1
    ensures Midnight(day) + DayMs == Midnight(day + 1)
    ensures Midnight(day) - DayMs == Midnight(day - 1)
    ensures Midnight(day) + 7 * DayMs == Midnight(day + 7)
    ensures DayOfTime(Midnight(day)) == day && DayOfTime(EndOfDay(day)) == day
  {
  }

  /** A date of month `m` (0..11) counts from that month's first day. */
  lemma MakeDayInYear(y: int, m: int, d: int)
    requires 0 <= m < 12
    ensures MakeDay(y, m, d) == MonthStart(y, m) + d - 1
  {
  }

  /** The day before the first of the month after `m`: its last day. */
  lemma MonthEnd(y: int, m: int)
    requires 0 <= m < 12
    ensures MakeDay(y, m + 1, 0) == MonthStart(y, m) + DaysInMonth(y, m) - 1
  {
    NextMonthStart(y, m);
    assert m / 12 == 0 && m % 12 == m;
    assert MakeDay(y, m + 1, 0) == MakeDay(y, m + 1, 1) - 1;
  }

  /** The first of month `m` in 0..12, where month 12 is January of the next year. */
  lemma MakeDayFirst(y: int, m: int)
    requires 0 <= m <= 12
    ensures MakeDay(y, m, 1) == YearStart(y) + DaysBeforeMonth(y, m)
  {
    if m == 12 {
      YearStartStep(y);
      MonthsFillYear(y);
      assert MakeDay(y, 12, 1) == YearStart(y + 1);
    } else {
      MakeDayInYear(y, m, 1);
    }
  }

  /** A date within a year: month 0..11 and day 1..DaysInMonth. */
  datatype Civil = Civil(year: int, month: int, day: int)

  predicate ValidCivil(c: Civil) {
    0 <= c.month < 12 && 1 <= c.day <= DaysInMonth(c.year, c.month)
  }

  function DayOf(c: Civil): int
    requires ValidCivil(c)
  {
    MonthStart(c.year, c.month) + c.day - 1
  }

  lemma YearStartIncreasing(a: int, b: int)
    requires a < b
    ensures YearStart(a) + YearLength(a) <= YearStart(b)
    decreases b - a
  {
    YearStartStep(a);
    if a + 1 < b {
      YearStartIncreasing(a + 1, b);
      YearStartStep(a + 1);
    }
  }

  /** The year holding day `z`, searching down from `y`. */
  function YearDown(z: int, y: int): (r: int)
    requires z < YearStart(y + 1)
    ensures YearStart(r) <= z < YearStart(r + 1)
    decreases YearStart(y) - z
  {
    YearStartStep(y);
    YearStartStep(y - 1);
    if YearStart(y) <= z then y else YearDown(z, y - 1)
  }

  /** The year holding day `z`, searching up from `y`. */
  function YearUp(z: int, y: int): (r: int)
    requires YearStart(y) <= z
    ensures YearStart(r) <= z < YearStart(r + 1)
    decreases z - YearStart(y)
  {
    YearStartStep(y);
    if z < YearStart(y + 1) then y else YearUp(z, y + 1)
  }

  function YearOf(z: int): (r: int)
    ensures YearStart(r) <= z < YearStart(r + 1)
  {
    YearStartStep(1970);
    if z < YearStart(1970) then YearDown(z, 1970) else YearUp(z, 1970)
  }

  /** The month of year `y` holding its `k`-th day (0-based), searching from `m`. */
  function MonthOf(y: int, k: int, m: nat): (r: nat)
    requires m < 12 && DaysBeforeMonth(y, m) <= k < YearLength(y)
    ensures m <= r < 12 && DaysBeforeMonth(y, r) <= k < DaysBeforeMonth(y, r) + DaysInMonth(y, r)
    decreases 12 - m
  {
    MonthStep(y, m);
    MonthsFillYear(y);
    if k < DaysBeforeMonth(y, m) + DaysInMonth(y, m) then m
    else MonthOf(y, k, m + 1)
  }

  /** The calendar date of day number `z`. */
  function CivilOf(z: int): (c: Civil)
    ensures ValidCivil(c) && DayOf(c) == z
  {
    var y := YearOf(z);
    YearStartStep(y);
    var m := MonthOf(y, z - YearStart(y), 0);
    Civil(y, m, z - MonthStart(y, m) + 1)
  }

  /** Distinct valid dates have distinct day numbers. */
  lemma DayOfInjective(a: Civil, b: Civil)
    requires ValidCivil(a) && ValidCivil(b) && DayOf(a) == DayOf(b)
    ensures a == b
  {
    DayWithinYear(a);
    DayWithinYear(b);
    if a.year < b.year {
      YearStartIncreasing(a.year, b.year);
    } else if b.year < a.year {
      YearStartIncreasing(b.year, a.year);
    }
    if a.month < b.month {
      MonthsIncreasing(a.year, a.month, b.month);
    } else if b.month < a.month {
      MonthsIncreasing(a.year, b.month, a.month);
    }
  }

  lemma DayWithinYear(c: Civil)
    requires ValidCivil(c)
    ensures YearStart(c.year) <= DayOf(c) < YearStart(c.year) + YearLength(c.year)
  {
    MonthsIncreasing(c.year, c.month, 12);
    MonthsFillYear(c.year);
  }

  lemma MonthsIncreasing(y: int, a: int, b: int)
    requires 0 <= a < b <= 12
    ensures DaysBeforeMonth(y, a) + DaysInMonth(y, a) <= DaysBeforeMonth(y, b)
    decreases b - a
  {
    MonthStep(y, a);
    if a + 1 < b {
      MonthsIncreasing(y, a + 1, b);
    }
  }

  /** Reading a valid date back from its day number gives the date. */
  lemma CivilRoundTrip(c: Civil)
    requires ValidCivil(c)
    ensures CivilOf(DayOf(c)) == c
  {
    DayOfInjective(CivilOf(DayOf(c)), c);
  }

  /** `n` in decimal, left-padded with zeros to `width` digits. */
  function PadDigits(n: nat, width: nat): (r: string)
    ensures |r| == if |NatToString(n)| >= width then |NatToString(n)| else width
    ensures forall k :: 0 <= k < |r| ==> IsDigit(r[k])
    ensures RunValue(r, 10) == n
  {
    var s := NatToString(n);
    NatToStringValue(n);
    if |s| >= width then s
    else
      var zeros := seq(width - |s|, _ => '0');
      LeadingZerosValue(zeros, s);
      zeros + s
  }

  /** A run of zeros is worth nothing. */
  lemma {:induction false} ZerosValue(zeros: string)
    requires forall k :: 0 <= k < |zeros| ==> zeros[k] == '0'
    ensures RunValue(zeros, 10) == 0
    decreases |zeros|
  {
    if |zeros| > 0 {
      ZerosValue(zeros[..|zeros| - 1]);
    }
  }

  /** Zeros put in front of a run of digits do not change its value. */
  lemma {:induction false} LeadingZerosValue(zeros: string, s: string)
    requires forall k :: 0 <= k < |zeros| ==> zeros[k] == '0'
    requires forall k :: 0 <= k < |s| ==> IsDigit(s[k])
    ensures RunValue(zeros + s, 10) == RunValue(s, 10)
    decreases |s|
  {
    if |s| == 0 {
      assert zeros + s == zeros;
      ZerosValue(zeros);
    } else {
      LeadingZerosValue(zeros, s[..|s| - 1]);
      assert (zeros + s)[..|zeros + s| - 1] == zeros + s[..|s| - 1];
    }
  }

  function Pow10(k: nat): nat {
    if k == 0 then 1 else 10 * Pow10(k - 1)
  }

  /** A number below `10^w` has at most `w` decimal digits. */
  lemma {:induction false} NatToStringLength(n: nat, w: nat)
    requires 0 < w && n < Pow10(w)
    ensures |NatToString(n)| <= w
    decreases w
  {
    if n >= 10 {
      assert w > 1;
      NatToStringLength(n / 10, w - 1);
    }
  }

  /** `toISOString().split('T')[0]` of a time on day `z`, for years 0..9999. */
  function IsoDate(z: int): string {
    var c := CivilOf(z);
    var y := if c.year < 0 then 0 else c.year;
    PadDigits(y, 4) + "-" + PadDigits(c.month + 1, 2) + "-" + PadDigits(c.day, 2)
  }

  /**
   * For a day of the years 0..9999 the text is `YYYY-MM-DD`: four, two and
   * two digits around two dashes, reading back as the year, the month
   * counted from 1 and the day of the month.
   */
  lemma IsoDateFields(z: int)
    requires 0 <= CivilOf(z).year <= 9999
    ensures var r := IsoDate(z); var c := CivilOf(z);
      |r| == 10 && r[4] == '-' && r[7] == '-'
      && (forall k :: 0 <= k < 10 && k != 4 && k != 7 ==> IsDigit(r[k]))
      && RunValue(r[..4], 10) == c.year
      && RunValue(r[5..7], 10) == c.month + 1
      && RunValue(r[8..], 10) == c.day
  {
    var c := CivilOf(z);
    assert Pow10(4) == 10000 by {
      assert Pow10(1) == 10 && Pow10(2) == 100 && Pow10(3) == 1000;
    }
    assert Pow10(2) == 100 by { assert Pow10(1) == 10; }
    NatToStringLength(c.year, 4);
    NatToStringLength(c.month + 1, 2);
    assert DaysInMonth(c.year, c.month) <= 31;
    NatToStringLength(c.day, 2);
    var yy := PadDigits(c.year, 4);
    var mm := PadDigits(c.month + 1, 2);
    var dd := PadDigits(c.day, 2);
    var r := IsoDate(z);
    assert r == yy + "-" + mm + "-" + dd;
    assert r[..4] == yy;
    assert r[5..7] == mm;
    assert r[8..] == dd;
    forall k | 0 <= k < 10 && k != 4 && k != 7
      ensures IsDigit(r[k])
    {
      if k < 4 {
        assert r[k] == yy[k];
      } else if k < 7 {
        assert r[k] == mm[k - 5];
      } else {
        assert r[k] == dd[k - 8];
      }
    }
  }

  /** The day number of a time in milliseconds. */
  function DayOfTime(t: int): int {
    t / 86400000
  }
}
