/** The proleptic Gregorian calendar as ECMAScript dates compute it, on whole
    day numbers (day 0 is 1970-01-01): DayFromYear, YearFromTime,
    MonthFromTime, DateFromTime, MakeDay and WeekDay of section 21.4.1 of
    ECMA-262. Months count from 0 (January) as in JavaScript. */
module Calendar {

  /** Days from 1970-01-01 to January 1 of `y` */
  function DayFromYear(y: int): int {
    365 * (y - 1970) + (y - 1969) / 4 - (y - 1901) / 100 + (y - 1601) / 400
  }

  predicate InLeapYear(y: int) {
    (y % 4 == 0 && y % 100 != 0) || y % 400 == 0
  }

  function DaysInYear(y: int): int {
    if InLeapYear(y) then 366 else 365
  }

  /** Consecutive years start exactly one year's length apart */
  lemma DayFromYearStep(y: int)
    ensures DayFromYear(y + 1) == DayFromYear(y) + DaysInYear(y)
  {
    var a := (y + 1 - 1969) / 4 - (y - 1969) / 4;
    var b := (y + 1 - 1901) / 100 - (y - 1901) / 100;
    var c := (y + 1 - 1601) / 400 - (y - 1601) / 400;
    assert DayFromYear(y + 1) - DayFromYear(y) == 365 + a - b + c;
    Quadrennial(y);
    Centennial(y);
    Quadricentennial(y);
    LeapRulesNest(y);
  }

  /** Every fourth century is a century, and every century a fourth year */
  lemma LeapRulesNest(y: int)
    ensures y % 400 == 0 ==> y % 100 == 0
    ensures y % 100 == 0 ==> y % 4 == 0
  {
  }

  /** The three leap-year counters of DayFromYear each step by one exactly
      in the years their rule names */
  lemma Quadrennial(y: int)
    ensures (y + 1 - 1969) / 4 - (y - 1969) / 4 == (if y % 4 == 0 then 1 else 0)
  {
  }

  lemma Centennial(y: int)
    ensures (y + 1 - 1901) / 100 - (y - 1901) / 100 == (if y % 100 == 0 then 1 else 0)
  {
  }

  lemma Quadricentennial(y: int)
    ensures (y + 1 - 1601) / 400 - (y - 1601) / 400 == (if y % 400 == 0 then 1 else 0)
  {
  }

  /** Later years start later */
  lemma {:induction false} DayFromYearMonotone(a: int, b: int)
    requires a <= b
    ensures DayFromYear(a) + 365 * (b - a) <= DayFromYear(b)
    decreases b - a
  {
    if a < b {
      DayFromYearMonotone(a, b - 1);
      DayFromYearStep(b - 1);
    }
  }

  /** Day `t` falls in year `y` */
  predicate InYear(y: int, t: int) {
    DayFromYear(y) <= t < DayFromYear(y + 1)
  }

  /** Searches upwards from `y` for the year holding day `t` */
  function YearUp(t: int, y: int): (r: int)
    requires DayFromYear(y) <= t
    ensures InYear(r, t)
    decreases t - DayFromYear(y)
  {
    DayFromYearStep(y);
    if t < DayFromYear(y + 1) then y else YearUp(t, y + 1)
  }

  /** Searches downwards from `y` for the year holding day `t` */
  function YearDown(t: int, y: int): (r: int)
    requires t < DayFromYear(y + 1)
    ensures InYear(r, t)
    decreases DayFromYear(y + 1) - t
  {
    DayFromYearStep(y);
    if DayFromYear(y) <= t then y else YearDown(t, y - 1)
  }

  /** YearFromTime: the year whose span contains day `t` */
  function YearFromDay(t: int): (y: int)
    ensures InYear(y, t)
  {
    if 0 <= t then YearUp(t, 1970) else YearDown(t, 1969)
  }

  /** A day lies in only one year */
  lemma YearOfDayUnique(y1: int, y2: int, t: int)
    ensures InYear(y1, t) && InYear(y2, t) ==> y1 == y2
  {
    if !(InYear(y1, t) && InYear(y2, t)) {
      return;
    }
    if y1 < y2 {
      DayFromYearMonotone(y1 + 1, y2);
    } else if y1 > y2 {
      DayFromYearMonotone(y2 + 1, y1);
    }
  }

  /** YearFromDay finds that year */
  lemma YearFromDayUnique(t: int, y: int)
    requires InYear(y, t)
    ensures YearFromDay(t) == y
  {
    YearOfDayUnique(YearFromDay(t), y, t);
  }

  /** Length of month `m` in a common year: thirty days hath September,
      April, June and November, February has 28 */
  function CommonMonthLength(m: int): int
    requires 0 <= m < 12
  {
    if m == 1 then 28 else if m == 3 || m == 5 || m == 8 || m == 10 then 30 else 31
  }

  /** Days before month `m` in a common year */
  function CumulativeDays(m: int): int
    requires 0 <= m <= 12
  {
    if m == 0 then 0 else CumulativeDays(m - 1) + CommonMonthLength(m - 1)
  }

  /** Days from January 1 of `y` to the first of month `m` (m = 12 is the
      end of the year) */
  function MonthStart(y: int, m: int): (r: int)
    requires 0 <= m <= 12
    ensures m == 0 ==> r == 0
    ensures m == 12 ==> r == DaysInYear(y)
  {
    CumulativeDays(m) + (if m >= 2 && InLeapYear(y) then 1 else 0)
  }

  /** Length of month `m` of year `y` */
  function DaysInMonth(y: int, m: int): (r: int)
    requires 0 <= m < 12
    ensures 28 <= r <= 31
  {
    MonthStart(y, m + 1) - MonthStart(y, m)
  }

  /** The month lengths: February has 29 days in leap years and 28 in
      common ones */
  lemma MonthLengths(y: int, m: int)
    requires 0 <= m < 12
    ensures m == 1 ==> DaysInMonth(y, m) == (if InLeapYear(y) then 29 else 28)
    ensures m != 1 ==> DaysInMonth(y, m) == [31, 28, 31, 30, 31, 30, 31, 31, 30, 31, 30, 31][m]
  {
  }

  lemma {:induction false} MonthStartMonotone(y: int, a: int, b: int)
    requires 0 <= a <= b <= 12
    ensures MonthStart(y, a) <= MonthStart(y, b)
    decreases b - a
  {
    if a < b {
      MonthStartMonotone(y, a, b - 1);
      assert DaysInMonth(y, b - 1) >= 28;
    }
  }

  /** Day `d` of year `y`, counted from 0, falls in month `m` */
  predicate InMonth(y: int, m: int, d: int) {
    0 <= m < 12 && MonthStart(y, m) <= d < MonthStart(y, m + 1)
  }

  /** Searches upwards from month `m` for the month holding day-of-year `d` */
  function MonthSearch(y: int, d: int, m: int): (r: int)
    requires 0 <= m < 12
    requires MonthStart(y, m) <= d < DaysInYear(y)
    ensures m <= r < 12
    ensures InMonth(y, r, d)
    decreases 12 - m
  {
    if d < MonthStart(y, m + 1) then m else MonthSearch(y, d, m + 1)
  }

  /** A calendar date: year, month 0-11, day of month from 1 */
  datatype Civil = Civil(year: int, month: int, day: int) {
    predicate Valid() {
      0 <= month < 12 && 1 <= day <= DaysInMonth(year, month)
    }
  }

  /** The day number of a date; a day beyond the month's end runs on into
      the following months */
  function DayNumber(c: Civil): int
    requires 0 <= c.month < 12
  {
    DayFromYear(c.year) + MonthStart(c.year, c.month) + c.day - 1
  }

  /** YearFromTime, MonthFromTime and DateFromTime together */
  function ToCivil(t: int): (c: Civil)
    ensures c.Valid()
    ensures DayNumber(c) == t
  {
    var y := YearFromDay(t);
    DayFromYearStep(y);
    var d := t - DayFromYear(y);
    var m := MonthSearch(y, d, 0);
    Civil(y, m, d - MonthStart(y, m) + 1)
  }

  /** A valid date's day number lies in its year, and within that year in
      its month */
  lemma WithinYearAndMonth(c: Civil)
    requires c.Valid()
    ensures InYear(c.year, DayNumber(c))
    ensures InMonth(c.year, c.month, DayNumber(c) - DayFromYear(c.year))
    ensures c.day == DayNumber(c) - DayFromYear(c.year) - MonthStart(c.year, c.month) + 1
  {
    var y := c.year;
    var d := MonthStart(y, c.month) + c.day - 1;
    assert DayNumber(c) == DayFromYear(y) + d;
    assert d < MonthStart(y, c.month + 1);
    MonthStartMonotone(y, c.month + 1, 12);
    assert d < DaysInYear(y);
    DayFromYearStep(y);
  }

  /** A day of the year lies in only one month */
  lemma MonthOfDayUnique(y: int, m1: int, m2: int, d: int)
    requires InMonth(y, m1, d) && InMonth(y, m2, d)
    ensures m1 == m2
  {
    if m1 < m2 {
      MonthStartMonotone(y, m1 + 1, m2);
    } else if m1 > m2 {
      MonthStartMonotone(y, m2 + 1, m1);
    }
  }

  /** Distinct valid dates have distinct day numbers */
  lemma DayNumberInjective(a: Civil, b: Civil)
    requires a.Valid() && b.Valid()
    ensures DayNumber(a) == DayNumber(b) ==> a == b
  {
    if DayNumber(a) != DayNumber(b) {
      return;
    }
    var t := DayNumber(a);
    WithinYearAndMonth(a);
    WithinYearAndMonth(b);
    YearOfDayUnique(a.year, b.year, t);
    MonthOfDayUnique(a.year, a.month, b.month, t - DayFromYear(a.year));
  }

  /** Every valid date is recovered from its day number */
  lemma RoundTrip(c: Civil)
    requires c.Valid()
    ensures ToCivil(DayNumber(c)) == c
  {
    DayNumberInjective(ToCivil(DayNumber(c)), c);
  }

  /** MakeDay: a year, a month that may lie outside 0-11 and a day that may
      lie outside the month, normalised the way the Date constructor and
      `setDate` normalise them */
  function MakeDay(year: int, month: int, date: int): (t: int)
    ensures 0 <= month < 12 ==> t == DayNumber(Civil(year, month, date))
  {
    var ym := year + month / 12;
    var mn := month % 12;
    DayFromYear(ym) + MonthStart(ym, mn) + date - 1
  }

  /** WeekDay: 0 is Sunday (1970-01-01 was a Thursday) */
  function WeekDay(t: int): (r: int)
    ensures 0 <= r < 7
  {
    (t + 4) % 7
  }

  /** Consecutive days have consecutive weekdays, Saturday (6) wrapping to
      Sunday (0) */
  lemma WeekDayStep(t: int)
    ensures WeekDay(t + 1) == (WeekDay(t) + 1) % 7
  {
  }

  /** The anchor of the week: day 0 is 1970-01-01, a Thursday, so 1970-01-04
      is a Sunday. With `WeekDayStep` this fixes the weekday of every day. */
  lemma EpochSunday()
    ensures DayNumber(Civil(1970, 0, 1)) == 0
    ensures WeekDay(DayNumber(Civil(1970, 0, 1))) == 4
    ensures WeekDay(DayNumber(Civil(1970, 0, 4))) == 0
  {
    assert (1970 - 1969) / 4 == 0 && (1970 - 1901) / 100 == 0 && (1970 - 1601) / 400 == 0;
    assert DayFromYear(1970) == 0;
    assert MonthStart(1970, 0) == 0;
  }

  /** Stepping back from a day to the preceding Sunday lands on a Sunday
      less than a week earlier */
  lemma BackToSunday(t: int)
    ensures WeekDay(t - WeekDay(t)) == 0
  {
  }

  /** Moving the day of month by `k` moves the day number by `k` */
  lemma ShiftDay(c: Civil, k: int)
    requires 0 <= c.month < 12
    ensures DayNumber(Civil(c.year, c.month, c.day + k)) == DayNumber(c) + k
  {
  }

  /** A day past the end of a month is the matching day of the next month */
  lemma RunOn(y: int, m: int, d: int)
    requires 0 <= m < 11
    ensures DayNumber(Civil(y, m, d)) == DayNumber(Civil(y, m + 1, d - DaysInMonth(y, m)))
  {
  }

  /** Month -1 of a year is December of the year before */
  lemma MakeDayPreviousDecember(y: int, d: int)
    ensures MakeDay(y, -1, d) == DayNumber(Civil(y - 1, 11, d))
  {
    assert -1 / 12 == -1 && -1 % 12 == 11;
  }

  /** The month before `month` of `year`, wrapping into December */
  function PreviousMonth(year: int, month: int): (r: (int, int))
    requires 0 <= month < 12
    ensures 0 <= r.1 < 12
    ensures month == 0 ==> r == (year - 1, 11)
    ensures month != 0 ==> r == (year, month - 1)
  {
    if month == 0 then (year - 1, 11) else (year, month - 1)
  }

  /** `new Date(year, -1, day)`: the day of December of the year before */
  lemma BackIntoDecember(year: int, day: int)
    requires 1 <= day <= 31
    ensures ToCivil(MakeDay(year, -1, day)) == Civil(year - 1, 11, day)
  {
    MakeDayPreviousDecember(year, day);
    MonthLengths(year - 1, 11);
    RoundTrip(Civil(year - 1, 11, day));
  }

  /** `new Date(year, month - 1, day)` for a day the previous month has */
  lemma BackWithinYear(year: int, month: int, day: int)
    requires 1 <= month < 12 && 1 <= day <= DaysInMonth(year, month - 1)
    ensures ToCivil(MakeDay(year, month - 1, day)) == Civil(year, month - 1, day)
  {
    RoundTrip(Civil(year, month - 1, day));
  }

  /** `new Date(year, month - 1, day)` for a day the previous month lacks:
      the excess is counted into `month` */
  lemma BackRunsOn(year: int, month: int, day: int)
    requires 1 <= month < 12 && DaysInMonth(year, month - 1) < day <= 31
    ensures ToCivil(MakeDay(year, month - 1, day)) == Civil(year, month, day - DaysInMonth(year, month - 1))
  {
    var c := Civil(year, month, day - DaysInMonth(year, month - 1));
    assert c.Valid() by {
      assert DaysInMonth(year, month) >= 28;
    }
    RunOn(year, month - 1, day);
    assert MakeDay(year, month - 1, day) == DayNumber(c);
    RoundTrip(c);
  }

  /** `new Date(year, month - 1, day)` for a day of `month`: that day of the
      previous month, or, when the previous month is too short, the excess
      counted into `month` */
  lemma OneMonthBack(year: int, month: int, day: int)
    requires 0 <= month < 12 && 1 <= day <= 31
    ensures var (py, pm) := PreviousMonth(year, month);
      && (day <= DaysInMonth(py, pm) ==> ToCivil(MakeDay(year, month - 1, day)) == Civil(py, pm, day))
      && (day > DaysInMonth(py, pm) ==>
            ToCivil(MakeDay(year, month - 1, day)) == Civil(year, month, day - DaysInMonth(py, pm)))
  {
    if month == 0 {
      BackIntoDecember(year, day);
    } else if day <= DaysInMonth(year, month - 1) {
      BackWithinYear(year, month, day);
    } else {
      BackRunsOn(year, month, day);
    }
  }

  /** `new Date(year, month, 1)` for a month 0-11 is the first of that month */
  lemma FirstDay(year: int, month: int)
    requires 0 <= month < 12
    ensures ToCivil(MakeDay(year, month, 1)) == Civil(year, month, 1)
  {
    RoundTrip(Civil(year, month, 1));
  }

  /** `setDate(getDate() - k)` moves the date back by exactly `k` days */
  lemma DaysBack(t: int, k: int)
    ensures var c := ToCivil(t); MakeDay(c.year, c.month, c.day - k) == t - k
  {
    var c := ToCivil(t);
    ShiftDay(c, -k);
  }
}
