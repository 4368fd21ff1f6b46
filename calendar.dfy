/**
 * Gregorian calendar facts the shift code relies on: the shape of the
 * "YYYY-MM" and "YYYY-MM-DD" strings it builds and checks, their field
 * values, the length of a month, and when a date string names a real day
 * (the test a DATE column applies to a literal).
 */
module Calendar {
  import opened Common

  predicate IsLeapYear(y: int) {
    y % 4 == 0 && (y % 100 != 0 || y % 400 == 0)
  }

  /** The number of days in month `m` (1-based) of year `y`: `new Date(y, m, 0).getDate()`. */
  function DaysInMonth(y: int, m: int): (n: nat)
    requires 1 <= m <= 12
    ensures 28 <= n <= 31
    ensures n == 29 <==> m == 2 && IsLeapYear(y)
  {
    if m == 2 then (if IsLeapYear(y) then 29 else 28)
    else if m == 4 || m == 6 || m == 9 || m == 11 then 30
    else 31
  }

  /** The value of a string of ASCII digits. */
  function DigitsValue(s: string): (v: nat)
    requires forall i :: 0 <= i < |s| ==> IsAsciiDigit(s[i])
  {
    if s == [] then 0
    else
      assert IsAsciiDigit(s[|s| - 1]);
      DigitsValue(s[..|s| - 1]) * 10 + (s[|s| - 1] as int - '0' as int)
  }

  predicate AllDigits(s: string) {
    forall i :: 0 <= i < |s| ==> IsAsciiDigit(s[i])
  }

  /** `/^\d{4}-\d{2}$/`. */
  predicate YearMonthShape(s: string) {
    |s| == 7 && AllDigits(s[..4]) && s[4] == '-' && AllDigits(s[5..])
  }

  /** `/^\d{4}-\d{2}-\d{2}$/`. */
  predicate DateShape(s: string) {
    |s| == 10 && YearMonthShape(s[..7]) && s[7] == '-' && AllDigits(s[8..])
  }

  function YearOf(ym: string): nat
    requires YearMonthShape(ym)
  {
    DigitsValue(ym[..4])
  }

  function MonthOf(ym: string): nat
    requires YearMonthShape(ym)
  {
    DigitsValue(ym[5..])
  }

  function DayOf(d: string): nat
    requires DateShape(d)
  {
    DigitsValue(d[8..])
  }

  /** A year and month a DATE can hold: year 1 to 9999, month 1 to 12. */
  predicate RealMonth(ym: string) {
    YearMonthShape(ym) && YearOf(ym) >= 1 && 1 <= MonthOf(ym) <= 12
  }

  /** A date string that names a real day of a real month. */
  predicate RealDate(d: string) {
    DateShape(d) && RealMonth(d[..7]) && 1 <= DayOf(d) <= DaysInMonth(YearOf(d[..7]), MonthOf(d[..7]))
  }

  /** The value of two digits is their decimal number, and `Pad2` of a number below 100 reads back as it. */
  lemma TwoDigits(s: string)
    requires |s| == 2 && AllDigits(s)
    ensures DigitsValue(s) == (s[0] as int - '0' as int) * 10 + (s[1] as int - '0' as int)
  {
    var head := s[..1];
    assert head[..0] == [] && head[0] == s[0] && s[..|s| - 1] == head;
    assert DigitsValue(head) == s[0] as int - '0' as int;
  }

  lemma Pad2Value(n: nat)
    requires n < 100
    ensures AllDigits(Pad2(n)) && |Pad2(n)| == 2 && DigitsValue(Pad2(n)) == n
  {
    TwoDigits(Pad2(n));
  }

  /** On two-digit strings, string order is numeric order. */
  lemma TwoDigitOrder(a: string, b: string)
    requires |a| == 2 && |b| == 2 && AllDigits(a) && AllDigits(b)
    ensures StrLess(a, b) <==> DigitsValue(a) < DigitsValue(b)
  {
    TwoDigits(a);
    TwoDigits(b);
    if a[0] == b[0] {
      var a1, b1 := a[1..], b[1..];
      assert StrLess(a, b) == StrLess(a1, b1);
      assert a1[1..] == [] && b1[1..] == [];
      if a1[0] == b1[0] {
        assert StrLess(a1, b1) == StrLess(a1[1..], b1[1..]);
      }
    }
  }

  /** A common prefix does not change string order. */
  lemma {:induction false} StrLessPrefix(p: string, a: string, b: string)
    ensures StrLess(p + a, p + b) <==> StrLess(a, b)
    decreases |p|
  {
    if p != [] {
      assert (p + a)[1..] == p[1..] + a && (p + b)[1..] == p[1..] + b;
      StrLessPrefix(p[1..], a, b);
    } else {
      assert p + a == a && p + b == b;
    }
  }

  /** `String(year)`. */
  function YearString(year: int): string {
    if year < 0 then "-" + NatToString(-year) else NatToString(year)
  }

  /** The decimal digits of `n` read back as `n`. */
  lemma {:induction false} NatToStringValue(n: nat)
    ensures AllDigits(NatToString(n)) && DigitsValue(NatToString(n)) == n
    decreases n
  {
    var s := NatToString(n);
    if n >= 10 {
      NatToStringValue(n / 10);
      assert s[..|s| - 1] == NatToString(n / 10);
    } else {
      assert s[..0] == [];
    }
  }

  /** A year from 1000 to 9999 is written with four digits. */
  lemma FourDigitYear(year: int)
    requires 1000 <= year <= 9999
    ensures |YearString(year)| == 4 && AllDigits(YearString(year)) && DigitsValue(YearString(year)) == year
  {
    NatToStringValue(year);
    assert NatToString(year) == NatToString(year / 10) + [Digit(year % 10)];
    assert NatToString(year / 10) == NatToString(year / 100) + [Digit(year / 10 % 10)];
    assert NatToString(year / 100) == NatToString(year / 1000) + [Digit(year / 100 % 10)];
  }

  /** A calendar day. */
  datatype Date = Date(year: int, month: int, day: int)

  predicate ValidDay(d: Date) {
    1 <= d.month <= 12 && 1 <= d.day <= DaysInMonth(d.year, d.month)
  }

  /** Four digits of a year, as `toISOString` writes years 0 to 9999. */
  function Pad4(n: nat): (r: string)
    requires n < 10000
    ensures |r| == 4 && AllDigits(r)
  {
    [Digit(n / 1000), Digit(n / 100 % 10), Digit(n / 10 % 10), Digit(n % 10)]
  }

  /** `toISOString().split('T')[0]` of an instant on that (UTC) day. */
  function IsoDate(d: Date): (r: string)
    requires 0 <= d.year < 10000 && 1 <= d.month <= 12 && 1 <= d.day <= 31
    ensures DateShape(r)
  {
    Pad2Value(d.month);
    Pad2Value(d.day);
    var r := Pad4(d.year) + "-" + Pad2(d.month) + "-" + Pad2(d.day);
    assert r[..7] == Pad4(d.year) + "-" + Pad2(d.month);
    assert r[..7][..4] == Pad4(d.year) && r[..7][5..] == Pad2(d.month) && r[8..] == Pad2(d.day);
    r
  }

  /**
   * `setFullYear(getFullYear() + n)`: the same month and day `n` years on, where a 29 February whose target
   * year is not a leap year rolls over to 1 March.
   */
  function AddYears(d: Date, n: int): (r: Date)
    requires ValidDay(d)
    ensures ValidDay(r) && r.year == d.year + n
    ensures !(d.month == 2 && d.day == 29) ==> r == Date(d.year + n, d.month, d.day)
    ensures d.month == 2 && d.day == 29 ==> r == if IsLeapYear(d.year + n) then d.(year := d.year + n) else Date(d.year + n, 3, 1)
  {
    if d.month == 2 && d.day == 29 && !IsLeapYear(d.year + n) then Date(d.year + n, 3, 1)
    else d.(year := d.year + n)
  }

  /**
   * The number of days from 1970-01-01 (day 0) to `d` in the proleptic
   * Gregorian calendar: years are counted from March in 400-year eras of
   * 146097 days, as in the usual days-from-civil conversion.
   */
  function DayNumber(d: Date): (r: int)
    requires 1 <= d.month <= 12
    ensures d == Date(1970, 1, 1) ==> r == 0
  {
    var y1 := if d.month <= 2 then d.year - 1 else d.year;
    var era := y1 / 400;
    var yoe := y1 - era * 400;
    var mp := if d.month > 2 then d.month - 3 else d.month + 9;
    var doy := (153 * mp + 2) / 5 + d.day - 1;
    var doe := yoe * 365 + yoe / 4 - yoe / 100 + doy;
    era * 146097 + doe - 719468
  }

  /** The day after `d`. */
  function NextDay(d: Date): (r: Date)
    requires ValidDay(d)
    ensures ValidDay(r)
  {
    if d.day < DaysInMonth(d.year, d.month) then d.(day := d.day + 1)
    else if d.month < 12 then Date(d.year, d.month + 1, 1)
    else Date(d.year + 1, 1, 1)
  }

  /** `getDay()`: 0 for Sunday to 6 for Saturday; 1970-01-01 was a Thursday. */
  function Weekday(d: Date): (r: nat)
    requires 1 <= d.month <= 12
    ensures r < 7
  {
    (DayNumber(d) + 4) % 7
  }

  lemma QuarterStep(t: int)
    ensures t / 4 - (t - 1) / 4 == if t % 4 == 0 then 1 else 0
  {
  }

  lemma CenturyStep(t: int)
    ensures t / 100 - (t - 1) / 100 == if t % 100 == 0 then 1 else 0
  {
  }

  lemma Mod4(q: int, r: int)
    requires 0 <= r < 4
    ensures (4 * q + r) % 4 == r
  {
  }

  lemma Mod100(q: int, r: int)
    requires 0 <= r < 100
    ensures (100 * q + r) % 100 == r
  {
  }

  lemma Mod400(q: int, r: int)
    requires 0 <= r < 400
    ensures (400 * q + r) % 400 == r
  {
  }

  lemma Mod7(q: int, r: int)
    requires 0 <= r < 7
    ensures (7 * q + r) % 7 == r
  {
  }

  /** A year `t` years into a 400-year era is a leap year exactly when `t` is divisible by 4 and not by 100. */
  lemma LeapInEra(y: int, era: int, t: int)
    requires y == era * 400 + t && 1 <= t < 400
    ensures IsLeapYear(y) <==> t % 4 == 0 && t % 100 != 0
  {
    var q4 := t / 4;
    assert t == 4 * q4 + t % 4;
    assert y == 4 * (era * 100 + q4) + t % 4;
    Mod4(era * 100 + q4, t % 4);
    var q100 := t / 100;
    assert t == 100 * q100 + t % 100;
    assert y == 100 * (era * 4 + q100) + t % 100;
    Mod100(era * 4 + q100, t % 100);
    Mod400(era, t);
  }

  /** A year that starts an era is a leap year. */
  lemma EraStartLeap(y: int, era: int)
    requires y == era * 400
    ensures IsLeapYear(y)
  {
    Mod4(era * 100, 0);
    Mod400(era, 0);
  }

  /** Within an era, the day count of the March-based years grows by February's length plus 337, less the 365 of a year. */
  lemma StepWithinEra(t: int, len: int)
    requires 1 <= t < 400
    requires len == if t % 4 == 0 && t % 100 != 0 then 29 else 28
    ensures t * 365 + t / 4 - t / 100 == (t - 1) * 365 + (t - 1) / 4 - (t - 1) / 100 + 336 + len + 1
  {
    QuarterStep(t);
    CenturyStep(t);
    if t % 100 == 0 {
      var k := t / 100;
      assert t == 4 * (25 * k) + 0;
      Mod4(25 * k, 0);
    }
  }

  /** `(x + 1) % 7` is one step on from `x % 7`. */
  lemma Mod7Step(x: int)
    ensures (x + 1) % 7 == (x % 7 + 1) % 7
  {
    var q := x / 7;
    var r := x % 7;
    assert x == 7 * q + r;
    if r < 6 {
      Mod7(q, r + 1);
      Mod7(0, r + 1);
    } else {
      assert x + 1 == 7 * (q + 1) + 0;
      Mod7(q + 1, 0);
    }
  }

  lemma FebruaryNumber(y: int, len: int)
    requires 1 <= len <= 29
    ensures var era := (y - 1) / 400; var yoe := (y - 1) - era * 400;
      DayNumber(Date(y, 2, len)) == era * 146097 + (yoe * 365 + yoe / 4 - yoe / 100 + 336 + len) - 719468
  {
  }

  lemma MarchNumber(y: int)
    ensures var era := y / 400; var yoe := y - era * 400;
      DayNumber(Date(y, 3, 1)) == era * 146097 + (yoe * 365 + yoe / 4 - yoe / 100) - 719468
  {
  }

  lemma SameEra(y: int)
    requires (y - 1) - ((y - 1) / 400) * 400 < 399
    ensures y / 400 == (y - 1) / 400
  {
  }

  lemma NewEra(y: int)
    requires (y - 1) - ((y - 1) / 400) * 400 == 399
    ensures y / 400 == (y - 1) / 400 + 1 && y % 400 == 0
  {
  }

  /** The last of February and the first of March are consecutive, leap year or not. */
  lemma MarchFollowsFebruary(y: int)
    ensures DayNumber(Date(y, 3, 1)) == DayNumber(Date(y, 2, DaysInMonth(y, 2))) + 1
  {
    var era := (y - 1) / 400;
    var yoe := (y - 1) - era * 400;
    var len := DaysInMonth(y, 2);
    FebruaryNumber(y, len);
    MarchNumber(y);
    if yoe < 399 {
      SameEra(y);
      LeapInEra(y, era, yoe + 1);
      StepWithinEra(yoe + 1, len);
    } else {
      NewEra(y);
      EraStartLeap(y, era + 1);
    }
  }

  /** `DayNumber` counts days: the next day has the next number, across months, leap days and years. */
  lemma DayNumberCounts(d: Date)
    requires ValidDay(d)
    ensures DayNumber(NextDay(d)) == DayNumber(d) + 1
  {
    var len := DaysInMonth(d.year, d.month);
    if d.day < len {
      assert NextDay(d) == d.(day := d.day + 1);
      SameMonthStep(d);
    } else if d.month == 2 {
      assert d == Date(d.year, 2, len) && NextDay(d) == Date(d.year, 3, 1);
      MarchFollowsFebruary(d.year);
    } else if d.month < 12 {
      assert d == Date(d.year, d.month, len) && NextDay(d) == Date(d.year, d.month + 1, 1);
      MonthEndStep(d.year, d.month);
    } else {
      assert d == Date(d.year, 12, 31) && NextDay(d) == Date(d.year + 1, 1, 1);
      YearEndStep(d.year);
    }
  }

  lemma SameMonthStep(d: Date)
    requires ValidDay(d) && d.day < DaysInMonth(d.year, d.month)
    ensures DayNumber(d.(day := d.day + 1)) == DayNumber(d) + 1
  {
  }

  /** The last day of a month other than February and December is followed by the first of the next. */
  lemma MonthEndStep(y: int, m: int)
    requires 1 <= m < 12 && m != 2
    ensures DayNumber(Date(y, m + 1, 1)) == DayNumber(Date(y, m, DaysInMonth(y, m))) + 1
  {
  }

  /** 31 December is followed by 1 January of the next year. */
  lemma YearEndStep(y: int)
    ensures DayNumber(Date(y + 1, 1, 1)) == DayNumber(Date(y, 12, 31)) + 1
  {
  }

  /** So the weekday moves on by one each day, Saturday (6) being followed by Sunday (0). */
  lemma WeekdayAdvances(d: Date)
    requires ValidDay(d)
    ensures Weekday(NextDay(d)) == (Weekday(d) + 1) % 7
  {
    DayNumberCounts(d);
    Mod7Step(DayNumber(d) + 4);
  }
}
