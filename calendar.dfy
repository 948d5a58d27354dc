/**
 * Time as integer milliseconds since 1970-01-01T00:00:00.000 on a UTC clock
 * (the device's time zone is not modelled). `setHours(0, 0, 0, 0)`,
 * `setHours(23, 59, 59, 999)`, `new Date(year, monthIndex)` and the date part
 * of `toISOString()` are stated here, on the proleptic Gregorian calendar.
 */
module Calendar {
  import opened Text

  const DayMs: int := 1000 * 60 * 60 * 24

  /** `setHours(0, 0, 0, 0)`: the first millisecond of the day containing `t`. */
  function DayStart(t: int): (r: int)
    ensures r <= t < r + DayMs
    ensures r % DayMs == 0
  {
    t - t % DayMs
  }

  /** `setHours(23, 59, 59, 999)`: the last millisecond of the day containing `t`. */
  function DayEnd(t: int): (r: int)
    ensures DayStart(t) <= t <= r
    ensures r == DayStart(t) + DayMs - 1
  {
    DayStart(t) + DayMs - 1
  }

  /** Both ends of a day lie in that same day, and normalising twice changes nothing. */
  lemma DayBoundsStable(t: int)
    ensures DayStart(DayStart(t)) == DayStart(t)
    ensures DayStart(DayEnd(t)) == DayStart(t)
  {
    var d := DayStart(t);
    assert d % DayMs == 0;
    assert (d + DayMs - 1) % DayMs == DayMs - 1;
  }

  predicate IsLeapYear(y: int) {
    y % 4 == 0 && (y % 100 != 0 || y % 400 == 0)
  }

  function YearLength(y: int): nat {
    if IsLeapYear(y) then 366 else 365
  }

  /** Days from 1970-01-01 to January 1 of year `y` (negative before 1970). */
  function DaysBeforeYear(y: int): int
    decreases if y >= 1970 then y - 1970 else 1970 - y
  {
    if y == 1970 then 0
    else if y > 1970 then DaysBeforeYear(y - 1) + YearLength(y - 1)
    else DaysBeforeYear(y + 1) - YearLength(y)
  }

  /** Each year lasts exactly its length, on both sides of 1970. */
  lemma YearStep(y: int)
    ensures DaysBeforeYear(y + 1) == DaysBeforeYear(y) + YearLength(y)
  {
  }

  /** Length of month `m` (0 = January) of year `y`. */
  function MonthLength(y: int, m: int): (r: nat)
    requires 0 <= m < 12
    ensures 28 <= r <= 31
  {
    if m == 1 then (if IsLeapYear(y) then 29 else 28)
    else [31, 28, 31, 30, 31, 30, 31, 31, 30, 31, 30, 31][m]
  }

  /** Days from January 1 to the first of month `m` of year `y`; `m == 12` gives the year's length. */
  function DaysBeforeMonth(y: int, m: int): (r: nat)
    requires 0 <= m <= 12
    ensures m == 12 ==> r == YearLength(y)
  {
    [0, 31, 59, 90, 120, 151, 181, 212, 243, 273, 304, 334, 365][m] + (if IsLeapYear(y) && m >= 2 then 1 else 0)
  }

  /** Each month lasts exactly its length. */
  lemma MonthDaysStep(y: int, m: int)
    requires 0 <= m < 12
    ensures DaysBeforeMonth(y, m + 1) == DaysBeforeMonth(y, m) + MonthLength(y, m)
  {
  }

  /** `new Date(y, m).getTime()`: the first millisecond of month `m` (0 = January) of year `y`. */
  function MonthStart(y: int, m: int): int
    requires 0 <= m < 12
  {
    (DaysBeforeYear(y) + DaysBeforeMonth(y, m)) * DayMs
  }

  /** Months counted from January 1970, so that calendar order is integer order. */
  function MonthNumber(y: int, m: int): int { 12 * y + m }

  /** One month later, the next month starts: each month lasts exactly its length in days. */
  lemma MonthStartStep(y: int, m: int)
    requires 0 <= m < 12
    ensures m < 11 ==> MonthStart(y, m + 1) == MonthStart(y, m) + MonthLength(y, m) * DayMs
    ensures m == 11 ==> MonthStart(y + 1, 0) == MonthStart(y, m) + MonthLength(y, m) * DayMs
  {
    YearStep(y);
    MonthDaysStep(y, m);
  }

  /** Month starts are strictly increasing in calendar order. */
  lemma {:induction false} MonthStartIncreasing(y: int, m: int, y2: int, m2: int)
    requires 0 <= m < 12 && 0 <= m2 < 12
    requires MonthNumber(y, m) < MonthNumber(y2, m2)
    ensures MonthStart(y, m) < MonthStart(y2, m2)
    decreases MonthNumber(y2, m2) - MonthNumber(y, m)
  {
    var (py, pm) := if m2 == 0 then (y2 - 1, 11) else (y2, m2 - 1);
    MonthStartStep(py, pm);
    if MonthNumber(y, m) < MonthNumber(py, pm) {
      MonthStartIncreasing(y, m, py, pm);
    } else {
      assert y == py && m == pm;
    }
  }

  /** Earlier or equal calendar months start no later. */
  lemma MonthStartMonotone(y: int, m: int, y2: int, m2: int)
    requires 0 <= m < 12 && 0 <= m2 < 12
    ensures MonthNumber(y, m) <= MonthNumber(y2, m2) <==> MonthStart(y, m) <= MonthStart(y2, m2)
  {
    if MonthNumber(y, m) < MonthNumber(y2, m2) {
      MonthStartIncreasing(y, m, y2, m2);
    } else if MonthNumber(y2, m2) < MonthNumber(y, m) {
      MonthStartIncreasing(y2, m2, y, m);
    } else {
      assert y == y2 && m == m2;
    }
  }

  /** The year whose days contain day number `days`, searching upward from `y`. */
  function YearFrom(days: int, y: int): (r: int)
    requires DaysBeforeYear(y) <= days
    ensures DaysBeforeYear(r) <= days < DaysBeforeYear(r + 1)
    decreases days - DaysBeforeYear(y)
  {
    YearStep(y);
    if days < DaysBeforeYear(y + 1) then y else YearFrom(days, y + 1)
  }

  /** The year whose days contain day number `days`, searching downward from `y`. */
  function YearDownFrom(days: int, y: int): (r: int)
    requires days < DaysBeforeYear(y + 1)
    ensures DaysBeforeYear(r) <= days < DaysBeforeYear(r + 1)
    decreases DaysBeforeYear(y + 1) - days
  {
    YearStep(y);
    YearStep(y - 1);
    if DaysBeforeYear(y) <= days then y else YearDownFrom(days, y - 1)
  }

  /** The year of day number `days` (day 0 is 1970-01-01). */
  function YearOfDay(days: int): (r: int)
    ensures DaysBeforeYear(r) <= days < DaysBeforeYear(r + 1)
  {
    YearStep(1969);
    if days >= 0 then YearFrom(days, 1970) else YearDownFrom(days, 1969)
  }

  /** The month (0 = January) containing day `doy` of year `y`, searching from month `m`. */
  function MonthFrom(y: int, doy: int, m: nat): (r: nat)
    requires m < 12 && DaysBeforeMonth(y, m) <= doy < YearLength(y)
    ensures m <= r < 12
    ensures DaysBeforeMonth(y, r) <= doy < DaysBeforeMonth(y, r + 1)
    decreases 12 - m
  {
    if doy < DaysBeforeMonth(y, m + 1) then m else MonthFrom(y, doy, m + 1)
  }

  /** A calendar date: `month` runs from 1 to 12 and `day` from 1, as printed. */
  datatype CivilDate = CivilDate(year: int, month: int, day: int)

  /** Day `days` counted from 1970-01-01 starts at `days * DayMs`. */
  lemma DayNumber(t: int)
    ensures DayStart(t) == (t / DayMs) * DayMs
  {
  }

  /** The calendar date of day number `days`. */
  function CivilOfDay(days: int): (c: CivilDate)
    ensures 1 <= c.month <= 12 && 1 <= c.day <= MonthLength(c.year, c.month - 1)
    ensures DaysBeforeYear(c.year) + DaysBeforeMonth(c.year, c.month - 1) + c.day - 1 == days
  {
    var y := YearOfDay(days);
    var doy := days - DaysBeforeYear(y);
    YearStep(y);
    var m := MonthFrom(y, doy, 0);
    MonthDaysStep(y, m);
    CivilDate(y, m + 1, doy - DaysBeforeMonth(y, m) + 1)
  }

  /** The UTC calendar date of instant `t`. */
  function CivilOf(t: int): (c: CivilDate)
    ensures 1 <= c.month <= 12 && 1 <= c.day <= MonthLength(c.year, c.month - 1)
    ensures MonthStart(c.year, c.month - 1) + (c.day - 1) * DayMs == DayStart(t)
  {
    var days := t / DayMs;
    var c := CivilOfDay(days);
    DayNumber(t);
    DayCount(c, days);
    c
  }

  /** A date that is day number `days` starts at `days * DayMs`. */
  lemma DayCount(c: CivilDate, days: int)
    requires 1 <= c.month <= 12
    requires DaysBeforeYear(c.year) + DaysBeforeMonth(c.year, c.month - 1) + c.day - 1 == days
    ensures MonthStart(c.year, c.month - 1) + (c.day - 1) * DayMs == days * DayMs
  {
  }

  /** Two instants have the same calendar date exactly when they fall on the same day. */
  lemma CivilOfSameDay(t1: int, t2: int)
    ensures CivilOf(t1) == CivilOf(t2) <==> DayStart(t1) == DayStart(t2)
  {
    var c1, c2 := CivilOf(t1), CivilOf(t2);
    if c1 == c2 {
      assert DayStart(t1) == MonthStart(c1.year, c1.month - 1) + (c1.day - 1) * DayMs == DayStart(t2);
    }
    if DayStart(t1) == DayStart(t2) {
      DayNumber(t1);
      DayNumber(t2);
      CancelDayMs(t1 / DayMs, t2 / DayMs);
      assert c1 == CivilOfDay(t1 / DayMs) && c2 == CivilOfDay(t2 / DayMs);
    }
  }

  lemma CancelDayMs(a: int, b: int)
    requires a * DayMs == b * DayMs
    ensures a == b
  {
  }

  /** An instant lies between the start of its calendar month and the start of the next. */
  lemma InstantInMonth(t: int)
    ensures var c := CivilOf(t);
      var m := c.month - 1;
      && MonthStart(c.year, m) <= t
      && t < (if m == 11 then MonthStart(c.year + 1, 0) else MonthStart(c.year, m + 1))
  {
    var c := CivilOf(t);
    MonthStartStep(c.year, c.month - 1);
    DayWithinMonth(MonthStart(c.year, c.month - 1), c.day, MonthLength(c.year, c.month - 1), t);
  }

  /** Day `day` of a month of `length` days starting at `start` lies inside that month. */
  lemma DayWithinMonth(start: int, day: int, length: int, t: int)
    requires 1 <= day <= length
    requires start + (day - 1) * DayMs == DayStart(t)
    ensures start <= t < start + length * DayMs
  {
  }

  /** `n` in decimal, left-padded with zeros to `width` characters. */
  function PadNumber(n: nat, width: nat): (r: string)
    ensures |r| >= width && AllDigits(r)
    ensures |NatToString(n)| <= width ==> |r| == width
  {
    var digits := NatToString(n);
    if |digits| >= width then digits else seq(width - |digits|, _ => '0') + digits
  }

  /** The year as `toISOString` writes it: four digits, or a sign and six digits outside 0..9999. */
  function YearText(y: int): (r: string)
    ensures 0 <= y <= 9999 ==> |r| == 4 && AllDigits(r)
  {
    if 0 <= y <= 9999 then PadNumber(y, 4)
    else (if y < 0 then "-" else "+") + PadNumber(if y < 0 then -y else y, 6)
  }

  /** `new Date(t).toISOString().split('T')[0]`: `YYYY-MM-DD`. */
  function IsoDate(t: int): (r: string)
    ensures var c := CivilOf(t); 0 <= c.year <= 9999 ==> |r| == 10 && r[4] == '-' && r[7] == '-'
  {
    CivilText(CivilOf(t))
  }

  /** The `YYYY-MM-DD` text of a calendar date. */
  function CivilText(c: CivilDate): (r: string)
    requires 1 <= c.month <= 12 && 1 <= c.day <= 31
    ensures 0 <= c.year <= 9999 ==> |r| == 10 && r[4] == '-' && r[7] == '-'
  {
    var month := PadNumber(c.month, 2);
    var day := PadNumber(c.day, 2);
    YearText(c.year) + "-" + month + "-" + day
  }
}
