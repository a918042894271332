/**
 * The arithmetic of ECMAScript `Date` values on a host whose local time zone is UTC.
 *
 * A `Date` is a number of milliseconds since 1970-01-01T00:00:00Z. On a UTC host the
 * local getters and setters (`getDate`, `setHours`, ...) coincide with their UTC
 * counterparts, so one set of definitions serves both. Months are 0-based as in
 * JavaScript; dates (days of the month) are 1-based. The calendar is the proleptic
 * Gregorian one, with ECMAScript's `DayFromYear` formula.
 */
module JsDate {

  const MsPerSecond := 1000
  const MsPerMinute := 60_000
  const MsPerHour := 3_600_000
  const MsPerDay := 86_400_000

  /** `Date.prototype.getTimezoneOffset()` on the host: zero minutes, the host runs in UTC. */
  const HostOffsetMinutes := 0

  // ---------------------------------------------------------------- years

  predicate IsLeapYear(y: int) {
    y % 4 == 0 && (y % 100 != 0 || y % 400 == 0)
  }

  function YearLength(y: int): int {
    if IsLeapYear(y) then 366 else 365
  }

  /** ECMAScript `DayFromYear`: the day number of January 1st of year `y`. */
  function DayFromYear(y: int): int {
    365 * (y - 1970) + (y - 1969) / 4 - (y - 1901) / 100 + (y - 1601) / 400
  }

  /** Consecutive years start exactly one year length apart. */
  lemma DayFromYearStep(y: int)
    ensures DayFromYear(y + 1) == DayFromYear(y) + YearLength(y)
  {
    DivStep(y - 1969, 4);
    DivStep(y - 1901, 100);
    DivStep(y - 1601, 400);
    assert (y - 1968) % 4 == 0 <==> y % 4 == 0;
    assert (y - 1900) % 100 == 0 <==> y % 100 == 0;
    assert (y - 1600) % 400 == 0 <==> y % 400 == 0;
  }

  /** Counting up by one adds a whole quotient exactly when it reaches a multiple of `d`. */
  lemma DivStep(x: int, d: int)
    requires d > 0
    ensures (x + 1) / d - x / d == if (x + 1) % d == 0 then 1 else 0
  {
    var q, r := x / d, x % d;
    if r == d - 1 {
      DivModUnique(x + 1, d, q + 1, 0);
    } else {
      DivModUnique(x + 1, d, q, r + 1);
    }
  }

  lemma {:induction false} DayFromYearMonotone(a: int, b: int)
    requires a <= b
    ensures DayFromYear(a) + 365 * (b - a) <= DayFromYear(b)
    decreases b - a
  {
    if a < b {
      DayFromYearMonotone(a, b - 1);
      DayFromYearStep(b - 1);
    }
  }

  function YearUp(y: int, day: int): (r: int)
    requires DayFromYear(y) <= day
    ensures DayFromYear(r) <= day < DayFromYear(r + 1)
    decreases day - DayFromYear(y)
  {
    DayFromYearStep(y);
    if day < DayFromYear(y + 1) then y else YearUp(y + 1, day)
  }

  function YearDown(y: int, day: int): (r: int)
    requires day < DayFromYear(y + 1)
    ensures DayFromYear(r) <= day < DayFromYear(r + 1)
    decreases DayFromYear(y + 1) - day
  {
    DayFromYearStep(y);
    if DayFromYear(y) <= day then y else YearDown(y - 1, day)
  }

  /** ECMAScript `YearFromTime`, on day numbers: the year whose days include `day`. */
  function YearOfDay(day: int): (y: int)
    ensures DayFromYear(y) <= day < DayFromYear(y + 1)
  {
    if day >= DayFromYear(1970) then YearUp(1970, day) else YearDown(1969, day)
  }

  /** Years do not overlap: a day belongs to exactly one year. */
  lemma YearOfDayUnique(y: int, day: int)
    requires DayFromYear(y) <= day < DayFromYear(y + 1)
    ensures YearOfDay(day) == y
  {
    var r := YearOfDay(day);
    if r < y {
      DayFromYearMonotone(r + 1, y);
    } else if r > y {
      DayFromYearMonotone(y + 1, r);
    }
  }

  // ---------------------------------------------------------------- months

  /** Days of year `y` before the first of month `m` (0-based); `m == 12` gives the year length. */
  function DaysBeforeMonth(y: int, m: int): (r: int)
    requires 0 <= m <= 12
    ensures m == 12 ==> r == YearLength(y)
  {
    [0, 31, 59, 90, 120, 151, 181, 212, 243, 273, 304, 334, 365][m]
      + (if m >= 2 && IsLeapYear(y) then 1 else 0)
  }

  function DaysInMonth(y: int, m: int): (r: int)
    requires 0 <= m < 12
    ensures 28 <= r <= 31
  {
    DaysBeforeMonth(y, m + 1) - DaysBeforeMonth(y, m)
  }

  lemma DaysBeforeMonthMonotone(y: int, m: int, n: int)
    requires 0 <= m <= n <= 12
    ensures DaysBeforeMonth(y, m) + 28 * (n - m) <= DaysBeforeMonth(y, n)
  {
  }

  /** The month (0-based) in which the `doy`-th day of year `y` falls, searching down from `m`. */
  function MonthDown(y: int, doy: int, m: int): (r: int)
    requires 0 <= m < 12 && 0 <= doy < DaysBeforeMonth(y, m + 1)
    ensures 0 <= r <= m && DaysBeforeMonth(y, r) <= doy < DaysBeforeMonth(y, r + 1)
    decreases m
  {
    if m == 0 || DaysBeforeMonth(y, m) <= doy then m else MonthDown(y, doy, m - 1)
  }

  /** ECMAScript `MakeDay`: the day number of `date` of `month` in `year`, months and dates normalised. */
  function MakeDay(year: int, month: int, date: int): int {
    var ym := year + month / 12;
    var mn := month % 12;
    DayFromYear(ym) + DaysBeforeMonth(ym, mn) + date - 1
  }

  datatype Civil = Civil(year: int, month: int, date: int)

  predicate ValidCivil(c: Civil) {
    0 <= c.month < 12 && 1 <= c.date <= DaysInMonth(c.year, c.month)
  }

  /** `MakeDay` with a month already in range needs no normalisation. */
  lemma MakeDayInYear(year: int, month: int, date: int)
    requires 0 <= month < 12
    ensures MakeDay(year, month, date) == DayFromYear(year) + DaysBeforeMonth(year, month) + date - 1
  {
    assert month / 12 == 0 && month % 12 == month;
  }

  /** The calendar date of a day number: ECMAScript `YearFromTime`, `MonthFromTime`, `DateFromTime`. */
  function CivilOfDay(day: int): (c: Civil)
    ensures ValidCivil(c)
    ensures MakeDay(c.year, c.month, c.date) == day
  {
    var y := YearOfDay(day);
    DayFromYearStep(y);
    var doy := day - DayFromYear(y);
    var m := MonthDown(y, doy, 11);
    var c := Civil(y, m, doy - DaysBeforeMonth(y, m) + 1);
    MakeDayInYear(y, m, c.date);
    c
  }

  /** Reading the date back from a valid calendar date's day number gives that date. */
  lemma CivilRoundTrip(c: Civil)
    requires ValidCivil(c)
    ensures CivilOfDay(MakeDay(c.year, c.month, c.date)) == c
  {
    var day := MakeDay(c.year, c.month, c.date);
    MakeDayInYear(c.year, c.month, c.date);
    DayFromYearStep(c.year);
    DaysBeforeMonthMonotone(c.year, c.month + 1, 12);
    YearOfDayUnique(c.year, day);
    var r := CivilOfDay(day);
    if r.month < c.month {
      DaysBeforeMonthMonotone(c.year, r.month + 1, c.month);
    } else if r.month > c.month {
      DaysBeforeMonthMonotone(c.year, c.month + 1, r.month);
    }
  }

  // ---------------------------------------------------------------- instants

  /** ECMAScript `Day(t)` and `TimeWithinDay(t)`. */
  function Day(t: int): int {
    t / MsPerDay
  }

  function TimeWithinDay(t: int): (r: int)
    ensures 0 <= r < MsPerDay && t == Day(t) * MsPerDay + r
  {
    t % MsPerDay
  }

  function MakeTime(hour: int, min: int, sec: int, ms: int): int {
    hour * MsPerHour + min * MsPerMinute + sec * MsPerSecond + ms
  }

  function MakeDate(day: int, time: int): int {
    day * MsPerDay + time
  }

  /** `getFullYear()`. */
  function YearOf(t: int): int {
    YearOfDay(Day(t))
  }

  /** `getMonth()`, 0-based. */
  function MonthOf(t: int): (m: int)
    ensures 0 <= m < 12
  {
    CivilOfDay(Day(t)).month
  }

  /** `getDate()`, the 1-based day of the month. */
  function DateOf(t: int): (d: int)
    ensures 1 <= d <= 31
  {
    CivilOfDay(Day(t)).date
  }

  /** `getDay()`: 0 is Sunday, 1 is Monday; 1970-01-01 was a Thursday. */
  function WeekDay(t: int): (w: int)
    ensures 0 <= w < 7
  {
    (Day(t) + 4) % 7
  }

  /** `getHours()`. */
  function HoursOf(t: int): (h: int)
    ensures 0 <= h < 24
  {
    TimeWithinDay(t) / MsPerHour
  }

  /** `getMinutes()`. */
  function MinutesOf(t: int): (m: int)
    ensures 0 <= m < 60
  {
    (t / MsPerMinute) % 60
  }

  function SecondsOf(t: int): int {
    (t / MsPerSecond) % 60
  }

  function MillisecondsOf(t: int): int {
    t % MsPerSecond
  }

  /** `new Date(year, month, date)`: local midnight, month and date normalised (years 0 to 99 taken literally). */
  function NewDate(year: int, month: int, date: int): int {
    MakeDate(MakeDay(year, month, date), 0)
  }

  /**
   * `d.setDate(date)`: same year, month and time of day, the given day of the month
   * (normalised into the neighbouring months); on a UTC host this moves the instant by
   * whole days.
   */
  function SetDate(t: int, date: int): (r: int)
    ensures r == t + (date - DateOf(t)) * MsPerDay
  {
    var c := CivilOfDay(Day(t));
    MakeDayInYear(c.year, c.month, date);
    MakeDayInYear(c.year, c.month, c.date);
    MakeDate(MakeDay(YearOf(t), MonthOf(t), date), TimeWithinDay(t))
  }

  /** `d.setHours(h, m, s, ms)`; on a UTC host also `d.setUTCHours(h, m, s, ms)`. */
  function SetHours(t: int, hour: int, min: int, sec: int, ms: int): int {
    MakeDate(Day(t), MakeTime(hour, min, sec, ms))
  }

  /** `d.setMinutes(min)`: keeps the hour, seconds and milliseconds. */
  function SetMinutes(t: int, min: int): int {
    MakeDate(Day(t), MakeTime(HoursOf(t), min, SecondsOf(t), MillisecondsOf(t)))
  }

  lemma MulMonotone(x: int, y: int, d: int)
    requires x <= y && d > 0
    ensures x * d <= y * d
  {
    assert y * d - x * d == (y - x) * d;
  }

  /** Euclidean division is determined by its quotient-remainder equation. */
  lemma DivModUnique(a: int, d: int, q: int, r: int)
    requires d > 0 && 0 <= r < d && a == q * d + r
    ensures a / d == q && a % d == r
  {
    var q' := a / d;
    if q' > q {
      MulMonotone(q + 1, q', d);
      assert false;
    } else if q' < q {
      MulMonotone(q' + 1, q, d);
      assert false;
    }
  }

  /** An instant is its day plus the time of day its getters report. */
  lemma InstantDecomposes(t: int)
    ensures t == MakeDate(Day(t), MakeTime(HoursOf(t), MinutesOf(t), SecondsOf(t), MillisecondsOf(t)))
  {
    var a, ms := t / 1000, t % 1000;
    var b, s := a / 60, a % 60;
    var c, m := b / 60, b % 60;
    var d, h := c / 24, c % 24;
    DivModUnique(t, MsPerMinute, b, s * 1000 + ms);
    assert MinutesOf(t) == m;
    var time := h * MsPerHour + m * MsPerMinute + s * 1000 + ms;
    assert t == d * MsPerDay + time;
    DivModUnique(t, MsPerDay, d, time);
    DivModUnique(time, MsPerHour, h, m * MsPerMinute + s * 1000 + ms);
  }

  /** `d.setMinutes(d.getMinutes() + k)` moves the instant by exactly `k` minutes. */
  lemma SetMinutesAddsMinutes(t: int, k: int)
    ensures SetMinutes(t, MinutesOf(t) + k) == t + k * MsPerMinute
  {
    InstantDecomposes(t);
  }

  /** With an in-range time of day, `setHours` keeps the day and reads back the hour and minute set. */
  lemma SetHoursReadsBack(t: int, hour: int, min: int, sec: int, ms: int)
    requires 0 <= hour < 24 && 0 <= min < 60 && 0 <= sec < 60 && 0 <= ms < 1000
    ensures var r := SetHours(t, hour, min, sec, ms);
      Day(r) == Day(t) && HoursOf(r) == hour && MinutesOf(r) == min
      && TimeWithinDay(r) == MakeTime(hour, min, sec, ms)
  {
    var r := SetHours(t, hour, min, sec, ms);
    var time := MakeTime(hour, min, sec, ms);
    DivModUnique(r, MsPerDay, Day(t), time);
    DivModUnique(time, MsPerHour, hour, min * MsPerMinute + sec * 1000 + ms);
    DivModUnique(r, MsPerMinute, Day(t) * 1440 + hour * 60 + min, sec * 1000 + ms);
    DivModUnique(Day(t) * 1440 + hour * 60 + min, 60, Day(t) * 24 + hour, min);
  }
}
