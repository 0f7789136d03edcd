/** Naive date-times as Python's `datetime` holds them (no offset), the
    instant each denotes in seconds since 1970-01-01 00:00, and the weekday. */
module Calendar {

  datatype DateTime = DateTime(year: int, month: int, day: int, hour: int, minute: int, second: int)

  predicate IsLeap(y: int) {
    y % 4 == 0 && (y % 100 != 0 || y % 400 == 0)
  }

  function DaysInMonth(y: int, m: int): int
    requires 1 <= m <= 12
  {
    if m == 2 then (if IsLeap(y) then 29 else 28)
    else if m == 4 || m == 6 || m == 9 || m == 11 then 30
    else 31
  }

  /** The field ranges `datetime` enforces. */
  predicate Valid(t: DateTime) {
    1 <= t.year <= 9999 && 1 <= t.month <= 12 && 1 <= t.day <= DaysInMonth(t.year, t.month) &&
    0 <= t.hour < 24 && 0 <= t.minute < 60 && 0 <= t.second < 60
  }

  /** Days from 1970-01-01 to 1 March of year `y1`: whole 400-year eras of
      146097 days, then 365 days a year plus the leap days of the era so far. */
  function MarchFirst(y1: int): int {
    var era := y1 / 400;
    var yoe := y1 % 400;
    era * 146097 + yoe * 365 + yoe / 4 - yoe / 100 - 719468
  }

  /** Days from 1 March to the first of the month `mp` months later. */
  function MonthOffset(mp: int): int {
    (153 * mp + 2) / 5
  }

  /** Days from 1970-01-01 to the given proleptic Gregorian date, counting
      years that start on 1 March so that February comes last. */
  function DaysFromCivil(y: int, m: int, d: int): int
    requires 1 <= m <= 12
  {
    var y1 := if m <= 2 then y - 1 else y;
    MarchFirst(y1) + MonthOffset((m + 9) % 12) + d - 1
  }

  function DayNumber(t: DateTime): int
    requires 1 <= t.month <= 12
  {
    DaysFromCivil(t.year, t.month, t.day)
  }

  /** Seconds since 1970-01-01 00:00:00 of the same (offset-free) clock. */
  function Instant(t: DateTime): int
    requires 1 <= t.month <= 12
  {
    DayNumber(t) * 86400 + t.hour * 3600 + t.minute * 60 + t.second
  }

  /** `t.weekday()`: Monday is 0 and Sunday is 6 (1970-01-01 was a Thursday). */
  function Weekday(t: DateTime): (r: int)
    requires 1 <= t.month <= 12
    ensures 0 <= r < 7
  {
    (DayNumber(t) + 3) % 7
  }

  /** The day after `(y, m, d)`. */
  function NextDay(y: int, m: int, d: int): (int, int, int)
    requires 1 <= m <= 12
  {
    if d < DaysInMonth(y, m) then (y, m, d + 1)
    else if m < 12 then (y, m + 1, 1)
    else (y + 1, 1, 1)
  }

  /** Month lengths from March to January, as the offsets table gives them. */
  lemma MonthOffsets(y: int, m: int)
    requires 3 <= m <= 12
    ensures MonthOffset((m + 1 + 9) % 12) == MonthOffset((m + 9) % 12) + DaysInMonth(y, m)
  {
  }

  /** Within a month, and across a month's end other than February's, the day
      number grows by one. */
  lemma NextDayInYear(y: int, m: int, d: int)
    requires 1 <= m <= 12 && 1 <= d <= DaysInMonth(y, m)
    requires d < DaysInMonth(y, m) || m != 2
    ensures var (y2, m2, d2) := NextDay(y, m, d); DaysFromCivil(y2, m2, d2) == DaysFromCivil(y, m, d) + 1
  {
    if d < DaysInMonth(y, m) {
      assert NextDay(y, m, d) == (y, m, d + 1);
    } else if m == 12 {
      assert NextDay(y, m, d) == (y + 1, 1, 1);
      assert DaysFromCivil(y + 1, 1, 1) == MarchFirst(y) + MonthOffset(10);
      assert DaysFromCivil(y, 12, 31) == MarchFirst(y) + MonthOffset(9) + 30;
    } else if m == 1 {
      assert NextDay(y, m, d) == (y, 2, 1);
      assert DaysFromCivil(y, 2, 1) == MarchFirst(y - 1) + MonthOffset(11);
      assert DaysFromCivil(y, 1, 31) == MarchFirst(y - 1) + MonthOffset(10) + 30;
    } else {
      assert NextDay(y, m, d) == (y, m + 1, 1);
      MonthOffsets(y, m);
    }
  }

  lemma DivMod400(a: int, q: int, r: int)
    requires a == q * 400 + r && 0 <= r < 400
    ensures a / 400 == q && a % 400 == r
  {
  }

  lemma DivStep(k: int)
    requires k >= 0
    ensures (k + 1) / 4 - k / 4 == if (k + 1) % 4 == 0 then 1 else 0
    ensures (k + 1) / 100 - k / 100 == if (k + 1) % 100 == 0 then 1 else 0
  {
  }

  lemma ModEra(q: int, k: int)
    ensures (q * 400 + k) % 4 == k % 4 && (q * 400 + k) % 100 == k % 100
  {
    ModShift4(q * 100, k);
    ModShift100(q * 4, k);
  }

  lemma ModShift4(x: int, k: int)
    ensures (x * 4 + k) % 4 == k % 4
  {
  }

  lemma ModShift100(x: int, k: int)
    ensures (x * 100 + k) % 100 == k % 100
  {
  }

  /** A March-to-February year has 366 days exactly when its February is a
      leap February. */
  lemma {:induction false} MarchYearLength(y: int)
    ensures MarchFirst(y) - MarchFirst(y - 1) == if IsLeap(y) then 366 else 365
  {
    var y1 := y - 1;
    var era := y1 / 400;
    var yoe := y1 % 400;
    assert y1 == era * 400 + yoe;
    if yoe == 399 {
      DivMod400(y, era + 1, 0);
      assert y % 400 == 0 && y % 4 == 0 by { ModEra(era + 1, 0); }
      assert MarchFirst(y) == (era + 1) * 146097 - 719468;
      assert MarchFirst(y1) == era * 146097 + 399 * 365 + 99 - 3 - 719468;
    } else {
      var k := yoe + 1;
      DivMod400(y, era, k);
      ModEra(era, k);
      DivStep(yoe);
      assert MarchFirst(y) - MarchFirst(y1) == 365 + (k / 4 - yoe / 4) - (k / 100 - yoe / 100);
    }
  }

  /** From the last day of February to 1 March the day number grows by one,
      whether or not the year is a leap year. */
  lemma NextDayMarch(y: int)
    ensures DaysFromCivil(y, 3, 1) == DaysFromCivil(y, 2, DaysInMonth(y, 2)) + 1
  {
    MarchYearLength(y);
    assert MonthOffset(11) == 337 && MonthOffset(0) == 0;
  }

  /** The day number counts days: the next day's is one more. */
  lemma NextDayNumber(y: int, m: int, d: int)
    requires 1 <= m <= 12 && 1 <= d <= DaysInMonth(y, m)
    ensures var (y2, m2, d2) := NextDay(y, m, d); DaysFromCivil(y2, m2, d2) == DaysFromCivil(y, m, d) + 1
  {
    if m == 2 && d == DaysInMonth(y, m) {
      NextDayMarch(y);
    } else {
      NextDayInYear(y, m, d);
    }
  }

  /** The epoch itself is day 0. */
  lemma EpochIsDayZero()
    ensures DaysFromCivil(1970, 1, 1) == 0
  {
  }
}
