/**
 * The local calendar and clock both front ends read through their date
 * libraries (JavaScript's `Date`, Foundation's `Calendar`). Time is counted on
 * one uniform local clock: day 0 is 1970-01-01, a day has 86400 seconds, and
 * there is no time zone offset and no daylight-saving shift.
 */
module Calendar {

  const SecondsPerDay := 86400
  const MillisPerDay := 86_400_000

  predicate IsLeapYear(y: int) {
    y % 4 == 0 && (y % 100 != 0 || y % 400 == 0)
  }

  function DaysInYear(y: int): int {
    if IsLeapYear(y) then 366 else 365
  }

  /** Days in month `m` (1 = January) of year `y`. */
  function DaysInMonth(y: int, m: int): (n: int)
    requires 1 <= m <= 12
    ensures 28 <= n <= 31
  {
    if m == 2 then (if IsLeapYear(y) then 29 else 28)
    else if m == 4 || m == 6 || m == 9 || m == 11 then 30
    else 31
  }

  /** Days of year `y` before the first of month `m`. */
  function DaysBeforeMonth(y: int, m: int): int
    requires 1 <= m <= 12
  {
    [0, 31, 59, 90, 120, 151, 181, 212, 243, 273, 304, 334][m - 1]
      + (if m > 2 && IsLeapYear(y) then 1 else 0)
  }

  /** Days from 1970-01-01 to January 1 of year `y` (negative before 1970). */
  function DaysBeforeYear(y: int): int
    decreases if y < 1970 then 1970 - y else y - 1970
  {
    if y == 1970 then 0
    else if y > 1970 then DaysBeforeYear(y - 1) + DaysInYear(y - 1)
    else DaysBeforeYear(y + 1) - DaysInYear(y)
  }

  /** A calendar day; `month` is 1-based. */
  datatype Date = Date(year: int, month: int, day: int)

  predicate ValidDate(d: Date) {
    1 <= d.month <= 12 && 1 <= d.day <= DaysInMonth(d.year, d.month)
  }

  /**
   * The day number of `d` counted from 1970-01-01. Like the date libraries'
   * constructors it is linear in `day`, so a day past the end of the month
   * lands in the next month.
   */
  function DayNumber(d: Date): int
    requires 1 <= d.month <= 12
  {
    DaysBeforeYear(d.year) + DaysBeforeMonth(d.year, d.month) + d.day - 1
  }

  /** The calendar day after `d`. */
  function NextDay(d: Date): (r: Date)
    requires ValidDate(d)
    ensures ValidDate(r)
  {
    if d.day < DaysInMonth(d.year, d.month) then Date(d.year, d.month, d.day + 1)
    else if d.month < 12 then Date(d.year, d.month + 1, 1)
    else Date(d.year + 1, 1, 1)
  }

  /** `NextDay` is one day number further on, also across month and year ends. */
  lemma NextDayNumber(d: Date)
    requires ValidDate(d)
    ensures DayNumber(NextDay(d)) == DayNumber(d) + 1
  {
    if d.day == DaysInMonth(d.year, d.month) && d.month == 12 {
      assert DaysBeforeYear(d.year + 1) == DaysBeforeYear(d.year) + DaysInYear(d.year);
    }
  }

  /** The calendar day `n` days after `d`. */
  function AddDays(d: Date, n: nat): (r: Date)
    requires ValidDate(d)
    ensures ValidDate(r)
    decreases n
  {
    if n == 0 then d else AddDays(NextDay(d), n - 1)
  }

  /** `AddDays` moves the day number by exactly `n`. */
  lemma {:induction false} AddDaysNumber(d: Date, n: nat)
    requires ValidDate(d)
    ensures DayNumber(AddDays(d, n)) == DayNumber(d) + n
    decreases n
  {
    if n > 0 {
      NextDayNumber(d);
      AddDaysNumber(NextDay(d), n - 1);
    }
  }

  /** Day of the week, 0 = Sunday (1970-01-01 was a Thursday). */
  function Weekday(d: Date): (w: int)
    requires 1 <= d.month <= 12
    ensures 0 <= w < 7
  {
    (DayNumber(d) + 4) % 7
  }

  /** A local wall-clock reading, as a `Date` object's getters return it. */
  datatype DateTime = DateTime(date: Date, hour: int, minute: int, second: int, millis: int)

  predicate ValidDateTime(t: DateTime) {
    && ValidDate(t.date)
    && 0 <= t.hour < 24 && 0 <= t.minute < 60 && 0 <= t.second < 60
    && 0 <= t.millis < 1000
  }

  /** Seconds since the epoch of day `d` at `h:m:s`; out-of-range fields carry over. */
  function EpochSeconds(d: Date, h: int, m: int, s: int): int
    requires 1 <= d.month <= 12
  {
    DayNumber(d) * SecondsPerDay + h * 3600 + m * 60 + s
  }

  /** The instant of a clock reading in whole seconds. */
  function Seconds(t: DateTime): int
    requires 1 <= t.date.month <= 12
  {
    EpochSeconds(t.date, t.hour, t.minute, t.second)
  }

  /** The instant of a clock reading in milliseconds, JavaScript's time value. */
  function Millis(t: DateTime): int
    requires 1 <= t.date.month <= 12
  {
    Seconds(t) * 1000 + t.millis
  }

  /** The seconds since local midnight of instant `t` (Euclidean remainder). */
  function SecondOfDay(t: int): (s: int)
    ensures 0 <= s < SecondsPerDay
  {
    t % SecondsPerDay
  }

  /** The time of day of `day` at `h:m:s` is `h:m:s` when those are in range. */
  lemma {:induction false} SecondOfDayAt(d: Date, h: int, m: int, s: int)
    requires 1 <= d.month <= 12
    requires 0 <= h < 24 && 0 <= m < 60 && 0 <= s < 60
    ensures SecondOfDay(EpochSeconds(d, h, m, s)) == h * 3600 + m * 60 + s
  {
    var n := DayNumber(d);
    var r := h * 3600 + m * 60 + s;
    assert 0 <= r < SecondsPerDay;
    var t := n * SecondsPerDay + r;
    assert t / SecondsPerDay == n;
  }

  /** Division with remainder is unique. */
  lemma DivModOf(a: int, d: int, q: int, r: int)
    requires 0 <= r < d && a == q * d + r
    ensures a / d == q && a % d == r
  {
    var q0, r0 := a / d, a % d;
    assert (q - q0) * d == r0 - r;
    if q > q0 {
      MulAtLeast(q - q0, d);
    } else if q < q0 {
      MulAtLeast(q0 - q, d);
    }
  }

  lemma MulAtLeast(k: int, d: int)
    requires k >= 1 && d >= 0
    ensures k * d >= d
  {
  }

  /** The clock fields of instant `t`: its day, then hour, minute and second within that day. */
  lemma ClockFields(t: int)
    ensures var s := SecondOfDay(t);
      && t == (t / SecondsPerDay) * SecondsPerDay + s
      && s == (s / 3600) * 3600 + (s % 3600 / 60) * 60 + t % 60
      && 0 <= s / 3600 < 24 && 0 <= s % 3600 / 60 < 60
  {
    var s := t % SecondsPerDay;
    var q := t / SecondsPerDay;
    var r := s % 3600;
    assert s == (s / 3600) * 3600 + r;
    assert r == (r / 60) * 60 + r % 60;
    DivModOf(t, 60, q * 1440 + (s / 3600) * 60 + r / 60, r % 60);
  }
}
