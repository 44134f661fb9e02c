/** Proleptic Gregorian UTC calendar (section 21.4.1 of ECMA-262). Days count from 1970-01-01 and
    months from year 0, so that month m of the count is month m % 12 + 1 of year m / 12. */
module Calendar {

  const MS_PER_DAY: int := 86_400_000

  /** The UTC day an instant falls on. */
  function Day(ms: int): (d: int)
    ensures 86_400_000 * d <= ms < 86_400_000 * (d + 1)
  {
    ms / MS_PER_DAY
  }

  const EPOCH_MONTH: int := 12 * 1970

  /** Days before January 1 of year y. */
  function DayFromYear(y: int): int {
    365 * (y - 1970) + (y - 1969) / 4 - (y - 1901) / 100 + (y - 1601) / 400
  }

  predicate IsLeap(y: int) {
    y % 4 == 0 && (y % 100 != 0 || y % 400 == 0)
  }

  function DaysInMonth(m: int): (d: nat)
    ensures 28 <= d <= 31
  {
    var month := m % 12;
    if month == 1 then (if IsLeap(m / 12) then 29 else 28)
    else if month == 3 || month == 5 || month == 8 || month == 10 then 30
    else 31
  }

  /** Days of the year before the given month, 0 for January. */
  function DaysBefore(m: int): nat {
    var month := m % 12;
    var leap := if IsLeap(m / 12) then 1 else 0;
    if month == 0 then 0
    else if month == 1 then 31
    else if month == 2 then 59 + leap
    else if month == 3 then 90 + leap
    else if month == 4 then 120 + leap
    else if month == 5 then 151 + leap
    else if month == 6 then 181 + leap
    else if month == 7 then 212 + leap
    else if month == 8 then 243 + leap
    else if month == 9 then 273 + leap
    else if month == 10 then 304 + leap
    else 334 + leap
  }

  /** The first day of a month: months abut, and January 1970 starts on day 0. */
  function FirstDay(m: int): int
    decreases if m >= EPOCH_MONTH then m - EPOCH_MONTH else EPOCH_MONTH - m
  {
    if m == EPOCH_MONTH then 0
    else if m > EPOCH_MONTH then FirstDay(m - 1) + DaysInMonth(m - 1)
    else FirstDay(m + 1) - DaysInMonth(m)
  }

  lemma MonthLength(m: int)
    ensures FirstDay(m + 1) == FirstDay(m) + DaysInMonth(m)
  {
  }

  lemma YearLength(y: int)
    ensures DayFromYear(y + 1) == DayFromYear(y) + (if IsLeap(y) then 366 else 365)
  {
    assert (y - 1969 + 1) / 4 == (y - 1969) / 4 + (if (y - 1969 + 1) % 4 == 0 then 1 else 0);
    assert (y - 1901 + 1) / 100 == (y - 1901) / 100 + (if (y - 1901 + 1) % 100 == 0 then 1 else 0);
    assert (y - 1601 + 1) / 400 == (y - 1601) / 400 + (if (y - 1601 + 1) % 400 == 0 then 1 else 0);
    assert (y - 1969 + 1) % 4 == 0 <==> y % 4 == 0;
    assert (y - 1901 + 1) % 100 == 0 <==> y % 100 == 0;
    assert (y - 1601 + 1) % 400 == 0 <==> y % 400 == 0;
  }

  /** The closed form has the same month lengths. */
  lemma ClosedFormStep(m: int)
    ensures DayFromYear((m + 1) / 12) + DaysBefore(m + 1) == DayFromYear(m / 12) + DaysBefore(m) + DaysInMonth(m)
  {
    if m % 12 == 11 {
      assert (m + 1) / 12 == m / 12 + 1 && (m + 1) % 12 == 0;
      YearLength(m / 12);
    } else {
      assert (m + 1) / 12 == m / 12 && (m + 1) % 12 == m % 12 + 1;
    }
  }

  /** The first day of a month is what the day-from-year formula says. */
  lemma {:induction false} FirstDayIsClosedForm(m: int)
    ensures FirstDay(m) == DayFromYear(m / 12) + DaysBefore(m)
    decreases if m >= EPOCH_MONTH then m - EPOCH_MONTH else EPOCH_MONTH - m
  {
    assert DayFromYear(EPOCH_MONTH / 12) + DaysBefore(EPOCH_MONTH) == 0;
    hide DayFromYear, DaysBefore, DaysInMonth;
    if m > EPOCH_MONTH {
      FirstDayIsClosedForm(m - 1);
      ClosedFormStep(m - 1);
    } else if m < EPOCH_MONTH {
      FirstDayIsClosedForm(m + 1);
      ClosedFormStep(m);
    }
  }

  lemma {:induction false} FirstDayMonotone(m: int, n: int)
    requires m <= n
    ensures FirstDay(n) >= FirstDay(m) + 28 * (n - m)
    decreases n - m
  {
    if m < n {
      FirstDayMonotone(m, n - 1);
      MonthLength(n - 1);
    }
  }

  /** The month a day lies in, searched upwards from m. */
  function MonthFrom(m: int, day: int): (r: int)
    requires FirstDay(m) <= day
    ensures FirstDay(r) <= day < FirstDay(r + 1)
    decreases day - FirstDay(m)
  {
    MonthLength(m);
    if day < FirstDay(m + 1) then m else MonthFrom(m + 1, day)
  }

  function MonthOf(day: int): (m: int)
    ensures FirstDay(m) <= day < FirstDay(m + 1)
  {
    var back: nat := if day >= 0 then 0 else (-day + 27) / 28;
    FirstDayMonotone(EPOCH_MONTH - back, EPOCH_MONTH);
    MonthFrom(EPOCH_MONTH - back, day)
  }

  lemma MonthUnique(day: int, m: int)
    requires FirstDay(m) <= day < FirstDay(m + 1)
    ensures MonthOf(day) == m
  {
    var r := MonthOf(day);
    if r < m {
      FirstDayMonotone(r + 1, m);
    } else if m < r {
      FirstDayMonotone(m + 1, r);
    }
  }

  lemma MonthMonotone(a: int, b: int)
    requires a <= b
    ensures MonthOf(a) <= MonthOf(b)
  {
    if MonthOf(b) < MonthOf(a) {
      FirstDayMonotone(MonthOf(b) + 1, MonthOf(a));
    }
  }

  function YearOfMonth(m: int): int {
    m / 12
  }

  function MonthNumber(m: int): (r: int)
    ensures 1 <= r <= 12
  {
    m % 12 + 1
  }

  /** The day of the month, from 1. */
  function DateOf(day: int): (d: int)
    ensures 1 <= d <= 31
  {
    MonthLength(MonthOf(day));
    day - FirstDay(MonthOf(day)) + 1
  }

  // ---------------------------------------------------------------------------------------
  // Date.UTC
  // ---------------------------------------------------------------------------------------

  /** Date.UTC takes the years 0 to 99 for 1900 to 1999 (MakeFullYear of section 21.4.1 of ECMA-262). */
  function MakeFullYear(y: int): int {
    if 0 <= y <= 99 then 1900 + y else y
  }

  /** Date.UTC(year, month, 1) for a month given by its true number: the month it lies in. */
  function UtcMonth(m: int): int {
    12 * MakeFullYear(YearOfMonth(m)) + m % 12
  }

  /** Date.UTC(year, month, date) for a true day. A date past the end of its month runs into the next. */
  function StartOfDay(day: int): int {
    FirstDay(UtcMonth(MonthOf(day))) + DateOf(day) - 1
  }

  predicate TwoDigitYear(day: int) {
    0 <= YearOfMonth(MonthOf(day)) <= 99
  }

  /** January of the year 1900. */
  const M1900: int := 12 * 1900

  lemma UtcMonthIs(m: int)
    ensures UtcMonth(m) == if 0 <= m < 1200 then m + M1900 else m
  {
  }

  lemma TwoDigitMonth(day: int)
    ensures TwoDigitYear(day) <==> 0 <= MonthOf(day) < 1200
  {
    hide MonthOf;
  }

  lemma StartsAsGiven(day: int)
    requires !TwoDigitYear(day)
    ensures UtcMonth(MonthOf(day)) == MonthOf(day) && StartOfDay(day) == day
  {
    hide MonthOf, FirstDay;
    UtcMonthIs(MonthOf(day));
    TwoDigitMonth(day);
  }

  /** 1900 was no leap year, and 0 was. */
  lemma SameLength(m: int)
    requires 0 <= m < 1200
    ensures DaysInMonth(m) == DaysInMonth(m + M1900) + (if m == 1 then 1 else 0)
  {
    assert (m + M1900) % 12 == m % 12 && (m + M1900) / 12 == m / 12 + 1900;
    var y := m / 12;
    assert (y + 1900) % 4 == y % 4;
    if y > 0 {
      assert y % 100 != 0 && (y + 1900) % 100 != 0;
    }
  }

  /** February 29 of the year 0. */
  const LEAP_DAY: int := FirstDay(1) + 28

  /** The day Date.UTC makes of a day of the years 0 to 99 is in the month it makes of its month, except
      that February 29 of the year 0 becomes March 1, 1900. */
  lemma StartsInTheNineteens(day: int)
    requires TwoDigitYear(day)
    ensures UtcMonth(MonthOf(day)) == MonthOf(day) + M1900
    ensures MonthOf(StartOfDay(day)) == UtcMonth(MonthOf(day)) + (if day == LEAP_DAY then 1 else 0)
    ensures FirstDay(UtcMonth(MonthOf(day))) <= StartOfDay(day) <= FirstDay(UtcMonth(MonthOf(day)) + 1)
  {
    hide MonthOf, FirstDay, DaysInMonth;
    var m := MonthOf(day);
    UtcMonthIs(m);
    TwoDigitMonth(day);
    SameLength(m);
    MonthLength(m);
    MonthLength(m + M1900);
    MonthLength(m + M1900 + 1);
    LeapDayIs(day);
    MonthUnique(StartOfDay(day), m + M1900 + (if day == LEAP_DAY then 1 else 0));
  }

  lemma LeapDayIs(day: int)
    ensures day == LEAP_DAY <==> MonthOf(day) == 1 && day == FirstDay(1) + DaysInMonth(1) - 1
  {
    assert DaysInMonth(1) == 29;
    hide FirstDay, MonthOf;
    MonthLength(1);
    if day == LEAP_DAY {
      MonthUnique(day, 1);
    }
  }

  /** Date.UTC never moves a day or a month back. */
  lemma NeverEarlier(day: int)
    ensures StartOfDay(day) >= day && UtcMonth(MonthOf(day)) >= MonthOf(day)
    ensures MonthOf(StartOfDay(day)) >= UtcMonth(MonthOf(day))
  {
    hide MonthOf, FirstDay, StartOfDay;
    if TwoDigitYear(day) {
      StartsInTheNineteens(day);
      FirstDayMonotone(MonthOf(day) + 1, UtcMonth(MonthOf(day)));
    } else {
      StartsAsGiven(day);
    }
  }

  /** Among the years 0 to 99 it keeps the order. */
  lemma StartsInOrder(a: int, b: int)
    requires a <= b && TwoDigitYear(a) && TwoDigitYear(b)
    ensures StartOfDay(a) <= StartOfDay(b) && UtcMonth(MonthOf(a)) <= UtcMonth(MonthOf(b))
  {
    hide MonthOf, FirstDay;
    MonthMonotone(a, b);
    StartsInTheNineteens(a);
    StartsInTheNineteens(b);
    if MonthOf(a) < MonthOf(b) {
      FirstDayMonotone(UtcMonth(MonthOf(a)) + 1, UtcMonth(MonthOf(b)));
    }
  }

  // ---------------------------------------------------------------------------------------
  // Formatting
  // ---------------------------------------------------------------------------------------

  function Digit(d: nat): (c: char)
    requires d < 10
    ensures '0' <= c <= '9'
  {
    '0' + d as char
  }

  /** Decimal digits without leading zeros. */
  function Decimal(n: nat): (s: string)
    ensures s != [] && forall i :: 0 <= i < |s| ==> '0' <= s[i] <= '9'
    ensures n >= 10 <==> |s| >= 2
  {
    if n < 10 then [Digit(n)] else Decimal(n / 10) + [Digit(n % 10)]
  }

  /** Made of digits and hyphens. */
  predicate DateChars(s: string) {
    forall i :: 0 <= i < |s| ==> s[i] == '-' || '0' <= s[i] <= '9'
  }

  /** String(y) for an integer. */
  function YearText(y: int): (s: string)
    ensures DateChars(s)
  {
    if y < 0 then "-" + Decimal(-y) else Decimal(y)
  }

  /** padStart(2, '0') of a number below 100. */
  function TwoDigits(n: nat): (s: string)
    requires n < 100
    ensures |s| == 2 && DateChars(s)
  {
    [Digit(n / 10), Digit(n % 10)]
  }

  lemma TwoDigitsInjective(a: nat, b: nat)
    requires a < 100 && b < 100 && TwoDigits(a) == TwoDigits(b)
    ensures a == b
  {
    assert TwoDigits(a)[0] == TwoDigits(b)[0] && TwoDigits(a)[1] == TwoDigits(b)[1];
    DigitInjective(a / 10, b / 10);
    DigitInjective(a % 10, b % 10);
  }

  lemma DigitInjective(a: nat, b: nat)
    requires a < 10 && b < 10 && Digit(a) == Digit(b)
    ensures a == b
  {
    assert Digit(a) as int == 48 + a && Digit(b) as int == 48 + b;
  }

  lemma {:induction false} DecimalInjective(a: nat, b: nat)
    requires Decimal(a) == Decimal(b)
    ensures a == b
  {
    var s, t := Decimal(a), Decimal(b);
    assert s[|s| - 1] == Digit(a % 10) && t[|t| - 1] == Digit(b % 10);
    DigitInjective(a % 10, b % 10);
    if a >= 10 && b >= 10 {
      assert Decimal(a / 10) == s[..|s| - 1] && Decimal(b / 10) == t[..|t| - 1];
      DecimalInjective(a / 10, b / 10);
    }
  }

  /** The YYYY-MM text of a month. */
  function MonthText(m: int): (s: string)
    ensures DateChars(s)
  {
    YearText(YearOfMonth(m)) + "-" + TwoDigits(MonthNumber(m))
  }

  /** The YYYY-MM-DD text of a day. */
  function DayText(day: int): (s: string)
    ensures DateChars(s)
  {
    MonthText(MonthOf(day)) + "-" + TwoDigits(DateOf(day))
  }

  /** Only its first character can be a hyphen in the text of a year. */
  lemma HyphenInYear(y: int)
    ensures forall i :: 0 <= i < |YearText(y)| ==> (YearText(y)[i] == '-' <==> y < 0 && i == 0)
  {
  }

  lemma YearTextInjective(y: int, x: int)
    requires YearText(y) == YearText(x)
    ensures y == x
  {
    HyphenInYear(y);
    HyphenInYear(x);
    assert YearText(y)[0] == YearText(x)[0];
    if y < 0 {
      assert YearText(y)[1..] == Decimal(-y) && YearText(x)[1..] == Decimal(-x);
      DecimalInjective(-y, -x);
    } else {
      DecimalInjective(y, x);
    }
  }

  lemma FirstHyphen(y: int, rest: string)
    ensures var s, k := YearText(y) + "-" + rest, |YearText(y)|;
            k >= 1 && s[k] == '-' && forall i :: 1 <= i < k ==> s[i] != '-'
  {
    HyphenInYear(y);
    var s := YearText(y) + "-" + rest;
    forall i | 1 <= i < |YearText(y)| ensures s[i] != '-' {
      assert s[i] == YearText(y)[i];
    }
  }

  /** The hyphen after the year marks where it ends. */
  lemma YearEnds(y: int, rest: string, x: int, rest': string)
    requires YearText(y) + "-" + rest <= YearText(x) + "-" + rest'
    ensures |YearText(y)| == |YearText(x)|
  {
    FirstHyphen(y, rest);
    FirstHyphen(x, rest');
  }

  lemma YearHyphen(y: int, rest: string, x: int, rest': string)
    requires YearText(y) + "-" + rest <= YearText(x) + "-" + rest'
    ensures y == x && rest <= rest'
  {
    var s, t := YearText(y) + "-" + rest, YearText(x) + "-" + rest';
    var k := |YearText(y)|;
    YearEnds(y, rest, x, rest');
    assert YearText(y) == s[..k] == t[..k] == YearText(x);
    YearTextInjective(y, x);
    assert rest == s[k + 1..] && rest' == t[k + 1..];
    assert t[..|s|] == s;
  }

  /** A month's text is a prefix of a day's text only if the day lies in the month. */
  lemma MonthTextTells(m: int, day: int)
    ensures MonthText(m) <= DayText(day) <==> m == MonthOf(day)
  {
    if MonthText(m) <= DayText(day) {
      var mine, its := TwoDigits(MonthNumber(m)), TwoDigits(MonthNumber(MonthOf(day)));
      assert DayText(day) == YearText(YearOfMonth(MonthOf(day))) + "-" + (its + "-" + TwoDigits(DateOf(day)));
      YearHyphen(YearOfMonth(m), mine, YearOfMonth(MonthOf(day)), its + "-" + TwoDigits(DateOf(day)));
      assert mine[0] == its[0] && mine[1] == its[1];
      TwoDigitsInjective(MonthNumber(m), MonthNumber(MonthOf(day)));
    }
  }
}
