/** Timestamps and the calendar fields derived from them.

    A timestamp is a whole number of hours since Monday 1970-01-05 00:00, so the
    hour of the day and the day of the week are modular arithmetic, and the civil
    date (day of the month, month) follows from the number of days since
    1970-01-01 by the proleptic Gregorian conversion of Howard Hinnant's
    `civil_from_days`. */
module Calendar {

  /** Hours since Monday 1970-01-05 00:00 (may be negative). */
  type Timestamp = int

  const HoursPerDay: int := 24
  const DaysPerWeek: int := 7

  /** `Timestamp.hour` */
  function Hour(t: Timestamp): (h: int)
    ensures 0 <= h < 24
    ensures (t - h) % 24 == 0
  {
    t % HoursPerDay
  }

  /** Whole days since the anchor Monday. */
  function DayNumber(t: Timestamp): int {
    t / HoursPerDay
  }

  /** `Timestamp.dayofweek`, Monday = 0 ... Sunday = 6. */
  function DayOfWeek(t: Timestamp): (d: int)
    ensures 0 <= d < 7
  {
    DayNumber(t) % DaysPerWeek
  }

  /** Moving a timestamp by whole days keeps its hour. */
  lemma HourPeriodic(t: Timestamp, days: int)
    ensures Hour(t + 24 * days) == Hour(t)
  {
  }

  /** Moving a timestamp by whole weeks keeps its hour and its weekday. */
  lemma {:induction false} WeekPeriodic(t: Timestamp, weeks: int)
    ensures Hour(t + 168 * weeks) == Hour(t)
    ensures DayOfWeek(t + 168 * weeks) == DayOfWeek(t)
  {
    assert (t + 168 * weeks) / 24 == t / 24 + 7 * weeks;
  }

  /** The day of the year counted from March 1st (0 .. 365) of day `z`, where `z`
      counts days from 0000-03-01: a 400-year era is three centuries of 36524
      days and a last one of 36525, a century is four-year blocks of 1461 days
      (the last one of the first three centuries is a day shorter), and a block
      is three years of 365 days and one of 366. */
  function DayOfShiftedYear(z: int): (doy: int)
    ensures 0 <= doy <= 365
  {
    var doe := z % 146097;
    var c := if doe / 36524 < 3 then doe / 36524 else 3;
    var r1 := doe - 36524 * c;
    var r2 := r1 % 1461;
    var y := if r2 / 365 < 3 then r2 / 365 else 3;
    r2 - 365 * y
  }

  /** Days since 0000-03-01 of a timestamp. */
  function ShiftedDay(t: Timestamp): int {
    DayNumber(t) + 4 + 719468
  }

  /** The month counted from March (0 .. 11) of a day of the shifted year. */
  function ShiftedMonth(doy: int): (mp: int)
    requires 0 <= doy <= 365
    ensures 0 <= mp <= 11
  {
    (5 * doy + 2) / 153
  }

  /** `Timestamp.day`, the day of the month. */
  function DayOfMonth(t: Timestamp): (d: int)
    ensures 1 <= d <= 31
  {
    var doy := DayOfShiftedYear(ShiftedDay(t));
    var mp := ShiftedMonth(doy);
    doy - (153 * mp + 2) / 5 + 1
  }

  /** `Timestamp.month`, January = 1 ... December = 12. */
  function Month(t: Timestamp): (m: int)
    ensures 1 <= m <= 12
  {
    var mp := ShiftedMonth(DayOfShiftedYear(ShiftedDay(t)));
    if mp < 10 then mp + 3 else mp - 9
  }

  /** `dayofweek >= 5` */
  predicate IsWeekend(t: Timestamp) {
    DayOfWeek(t) >= 5
  }

  /** `dayofweek == 6` */
  predicate IsSunday(t: Timestamp) {
    DayOfWeek(t) == 6
  }

  /** A (weekday, hour) pair, the key of the weekly profile tables. */
  datatype CalendarKey = CalendarKey(day: int, hour: int)

  function KeyOf(t: Timestamp): (k: CalendarKey)
    ensures 0 <= k.day < 7 && 0 <= k.hour < 24
  {
    CalendarKey(DayOfWeek(t), Hour(t))
  }

  /** A 0/1 indicator as used for the boolean feature columns. */
  function Indicator(b: bool): real {
    if b then 1.0 else 0.0
  }
}
