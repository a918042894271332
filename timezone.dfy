/**
 * Europe/Warsaw civil time as `backend/cron/timezone.ts` computes it.
 *
 * The UTC offset follows the EU summer-time rule (Directive 2000/84/EC, Articles 2 and 3):
 * summer time runs from the last Sunday of March, 01:00 UTC, to the last Sunday of
 * October, 01:00 UTC. A "Warsaw time" value is an instant shifted forward by that offset,
 * so that its UTC getters read the Warsaw wall clock; the reminder windows are built by
 * `setDate`/`setHours` on such shifted values, exactly as the source does.
 */
module Timezone {
  import opened JsDate
  import opened Text

  datatype TimeWindow = TimeWindow(start: int, end: int, code: string)

  datatype AppointmentWindows = AppointmentWindows(d2: TimeWindow, d1: TimeWindow, d0: TimeWindow)

  datatype DepositWindows = DepositWindows(before: TimeWindow, after: TimeWindow)

  /** Going back `getDay()` days from any day lands on a Sunday. */
  lemma BackToSunday(day: int)
    ensures (day - (day + 4) % 7 + 4) % 7 == 0
  {
    var q := (day + 4) / 7;
    DivModUnique(day - (day + 4) % 7 + 4, 7, q, 0);
  }

  /** `getLastSundayOfMonth(year, month)`: month is 0-based. */
  function LastSundayOfMonth(year: int, month: int): int {
    var lastDay := NewDate(year, month + 1, 0);
    BackToSundayAtOne(lastDay)
  }

  /** The second half of `getLastSundayOfMonth`: back `getDay()` days, then `setUTCHours(1, 0, 0, 0)`. */
  function BackToSundayAtOne(lastDay: int): (r: int)
    ensures Day(r) == Day(lastDay) - WeekDay(lastDay)
    ensures TimeWithinDay(r) == MsPerHour && WeekDay(r) == 0
  {
    var wd := WeekDay(lastDay);
    var lastSunday := SetDate(lastDay, DateOf(lastDay) - wd);
    DivModUnique(lastSunday, MsPerDay, Day(lastDay) - wd, TimeWithinDay(lastDay));
    SetHoursReadsBack(lastSunday, 1, 0, 0, 0);
    BackToSunday(Day(lastDay));
    SetHours(lastSunday, 1, 0, 0, 0)
  }

  /** Day 0 of the next month is the last day of this one, also across the year end. */
  lemma DayZeroIsLastDay(year: int, month: int)
    requires 0 <= month < 12
    ensures MakeDay(year, month + 1, 0) == MakeDay(year, month, DaysInMonth(year, month))
  {
    MakeDayInYear(year, month, DaysInMonth(year, month));
    if month == 11 {
      DayFromYearStep(year);
      assert (month + 1) / 12 == 1 && (month + 1) % 12 == 0;
    } else {
      MakeDayInYear(year, month + 1, 0);
    }
  }

  /** An instant whose day number is that of a valid calendar date reads that date back. */
  lemma GettersOfCivil(t: int, c: Civil)
    requires ValidCivil(c) && Day(t) == MakeDay(c.year, c.month, c.date)
    ensures CivilOfDay(Day(t)) == c
    ensures YearOf(t) == c.year && MonthOf(t) == c.month && DateOf(t) == c.date
  {
    CivilRoundTrip(c);
  }

  /** `new Date(year, month + 1, 0)` is midnight of the month's last day. */
  lemma LastDayOfMonth(year: int, month: int)
    requires 0 <= month < 12
    ensures var t := NewDate(year, month + 1, 0);
      && Day(t) == MakeDay(year, month, DaysInMonth(year, month)) && TimeWithinDay(t) == 0
      && CivilOfDay(Day(t)) == Civil(year, month, DaysInMonth(year, month))
      && DateOf(t) == DaysInMonth(year, month)
  {
    var t := NewDate(year, month + 1, 0);
    DayZeroIsLastDay(year, month);
    DivModUnique(t, MsPerDay, MakeDay(year, month, DaysInMonth(year, month)), 0);
    GettersOfCivil(t, Civil(year, month, DaysInMonth(year, month)));
  }

  /**
   * `getLastSundayOfMonth` returns 01:00 UTC of a Sunday that lies in the given month
   * of the given year, within the month's last seven days: the month's last Sunday.
   */
  lemma LastSundayOfMonthIsLastSunday(year: int, month: int)
    requires 0 <= month < 12
    ensures var t := LastSundayOfMonth(year, month);
      var c := CivilOfDay(Day(t));
      && TimeWithinDay(t) == MsPerHour
      && WeekDay(t) == 0
      && c.year == year && c.month == month
      && DaysInMonth(year, month) - 7 < c.date <= DaysInMonth(year, month)
  {
    var dim := DaysInMonth(year, month);
    var lastDay := NewDate(year, month + 1, 0);
    LastDayOfMonth(year, month);
    var wd := WeekDay(lastDay);
    var t := BackToSundayAtOne(lastDay);
    MakeDayInYear(year, month, dim - wd);
    MakeDayInYear(year, month, dim);
    assert ValidCivil(Civil(year, month, dim - wd));
    GettersOfCivil(t, Civil(year, month, dim - wd));
  }

  /** Start of summer time in `year`: last Sunday of March, 01:00 UTC. */
  function SummerTimeStart(year: int): int {
    LastSundayOfMonth(year, 2)
  }

  /** End of summer time in `year`: last Sunday of October, 01:00 UTC. */
  function SummerTimeEnd(year: int): int {
    LastSundayOfMonth(year, 9)
  }

  /** `getWarsawOffset(date)`: the Warsaw UTC offset in minutes, 120 in summer time, 60 otherwise. */
  function WarsawOffset(t: int): (minutes: int)
    ensures minutes == 60 || minutes == 120
  {
    var year := YearOf(t);
    var dstStart := LastSundayOfMonth(year, 2);
    var dstEnd := LastSundayOfMonth(year, 9);
    var utcDate := t + HostOffsetMinutes * MsPerMinute;
    if dstStart <= utcDate < dstEnd then 120 else 60
  }

  /**
   * For an instant in calendar year `y`, the offset is the summer one exactly between the
   * last Sunday of March and the last Sunday of October (both 01:00 UTC) of that year.
   */
  lemma WarsawOffsetFollowsEuRule(y: int, t: int)
    requires DayFromYear(y) <= Day(t) < DayFromYear(y + 1)
    ensures WarsawOffset(t) == if SummerTimeStart(y) <= t < SummerTimeEnd(y) then 120 else 60
  {
    YearOfDayUnique(y, Day(t));
  }

  /** The last Sunday of a month of year `y`, at 01:00 UTC, lies inside year `y`. */
  lemma LastSundayInYear(y: int, month: int)
    requires 0 <= month < 12
    ensures DayFromYear(y) <= Day(LastSundayOfMonth(y, month)) < DayFromYear(y + 1)
    ensures TimeWithinDay(LastSundayOfMonth(y, month)) == MsPerHour
  {
    var t := LastSundayOfMonth(y, month);
    LastSundayOfMonthIsLastSunday(y, month);
    var c := CivilOfDay(Day(t));
    MakeDayInYear(y, month, c.date);
    DayFromYearStep(y);
    DaysBeforeMonthMonotone(y, month + 1, 12);
  }

  /** Summer time spans more than a day: March's last Sunday precedes October's. */
  lemma SummerTimeIsOrdered(y: int)
    ensures SummerTimeStart(y) + MsPerDay <= SummerTimeEnd(y)
  {
    LastSundayOfMonthIsLastSunday(y, 2);
    LastSundayOfMonthIsLastSunday(y, 9);
    LastSundayInYear(y, 2);
    LastSundayInYear(y, 9);
    var s, e := CivilOfDay(Day(SummerTimeStart(y))), CivilOfDay(Day(SummerTimeEnd(y)));
    MakeDayInYear(y, 2, s.date);
    MakeDayInYear(y, 9, e.date);
    DaysBeforeMonthMonotone(y, 3, 9);
  }

  /**
   * The offset switches to summer time at the spring change: in the hour before it the
   * offset is still 60, from the change and for the hour after it it is 120.
   */
  lemma WarsawOffsetSpringForward(y: int, t: int)
    requires SummerTimeStart(y) - MsPerHour <= t <= SummerTimeStart(y) + MsPerHour
    ensures WarsawOffset(t) == if t < SummerTimeStart(y) then 60 else 120
  {
    var s := SummerTimeStart(y);
    LastSundayInYear(y, 2);
    SummerTimeIsOrdered(y);
    DivModUnique(t, MsPerDay, Day(s), MsPerHour + t - s);
    WarsawOffsetFollowsEuRule(y, t);
  }

  /**
   * The offset switches back at the autumn change: in the hour before it the offset is
   * still 120, from the change and for the hour after it it is 60.
   */
  lemma WarsawOffsetFallBack(y: int, t: int)
    requires SummerTimeEnd(y) - MsPerHour <= t <= SummerTimeEnd(y) + MsPerHour
    ensures WarsawOffset(t) == if t < SummerTimeEnd(y) then 120 else 60
  {
    var e := SummerTimeEnd(y);
    LastSundayInYear(y, 9);
    SummerTimeIsOrdered(y);
    DivModUnique(t, MsPerDay, Day(e), MsPerHour + t - e);
    WarsawOffsetFollowsEuRule(y, t);
  }

  /** `toWarsawTime(date)`: the instant moved forward by the Warsaw offset, one or two hours. */
  function ToWarsawTime(t: int): (w: int)
    ensures w - t == WarsawOffset(t) * MsPerMinute
    ensures w - t == MsPerHour || w - t == 2 * MsPerHour
  {
    var utc := t + HostOffsetMinutes * MsPerMinute;
    utc + WarsawOffset(t) * MsPerMinute
  }

  /** `nowInWarsaw()`, with the clock reading `clock` passed in. */
  function NowInWarsaw(clock: int): int {
    ToWarsawTime(clock)
  }

  /** `createWarsawDateTime(date, hour, minute)`. */
  function CreateWarsawDateTime(date: int, hour: int, minute: int): int {
    var warsawDate := SetHours(date, hour, minute, 0, 0);
    var offset := WarsawOffset(warsawDate);
    warsawDate - offset * MsPerMinute
  }

  /** A change instant (01:00 UTC of its day) lies on the same side of two instants of one day from 01:00 on. */
  lemma SameSideOfChange(a: int, b: int, c: int)
    requires Day(a) == Day(b) && TimeWithinDay(a) >= MsPerHour && TimeWithinDay(b) >= MsPerHour
    requires TimeWithinDay(c) == MsPerHour
    ensures c <= a <==> c <= b
  {
    var da, dc := Day(a), Day(c);
    if dc < da {
      MulMonotone(dc + 1, da, MsPerDay);
    } else if dc > da {
      MulMonotone(da + 1, dc, MsPerDay);
    }
  }

  /** Two instants of one UTC day, both from 01:00 UTC on, have the same Warsaw offset. */
  lemma SameDaySameOffset(a: int, b: int)
    requires Day(a) == Day(b) && TimeWithinDay(a) >= MsPerHour && TimeWithinDay(b) >= MsPerHour
    ensures WarsawOffset(a) == WarsawOffset(b)
  {
    var y := YearOfDay(Day(a));
    SameSideOfLastSunday(a, b, y, 2);
    SameSideOfLastSunday(a, b, y, 9);
    WarsawOffsetFollowsEuRule(y, a);
    WarsawOffsetFollowsEuRule(y, b);
  }

  /** The change instant of a month lies on the same side of two instants of one day from 01:00 on. */
  lemma SameSideOfLastSunday(a: int, b: int, y: int, month: int)
    requires 0 <= month < 12
    requires Day(a) == Day(b) && TimeWithinDay(a) >= MsPerHour && TimeWithinDay(b) >= MsPerHour
    ensures LastSundayOfMonth(y, month) <= a <==> LastSundayOfMonth(y, month) <= b
  {
    LastSundayInYear(y, month);
    SameSideOfChange(a, b, LastSundayOfMonth(y, month));
  }

  /**
   * `createWarsawDateTime` returns the instant at which the Warsaw wall clock would read
   * `hour:minute` on `date`'s day: that reading moved back by the offset in force at it,
   * so one or two hours earlier. From 03:00 on, the result moved to Warsaw time reads
   * exactly `hour:minute` on `date`'s day.
   */
  lemma CreateWarsawDateTimeReadsBack(date: int, hour: int, minute: int)
    requires 0 <= hour < 24 && 0 <= minute < 60
    ensures var wall := SetHours(date, hour, minute, 0, 0);
      && Day(wall) == Day(date) && HoursOf(wall) == hour && MinutesOf(wall) == minute
      && wall - 2 * MsPerHour <= CreateWarsawDateTime(date, hour, minute) <= wall - MsPerHour
      && CreateWarsawDateTime(date, hour, minute) == wall - WarsawOffset(wall) * MsPerMinute
    ensures 3 <= hour ==> ToWarsawTime(CreateWarsawDateTime(date, hour, minute)) == SetHours(date, hour, minute, 0, 0)
  {
    SetHoursReadsBack(date, hour, minute, 0, 0);
    if 3 <= hour {
      var wall := SetHours(date, hour, minute, 0, 0);
      var r := CreateWarsawDateTime(date, hour, minute);
      var tw := TimeWithinDay(wall);
      assert tw >= 3 * MsPerHour;
      DivModUnique(r, MsPerDay, Day(wall), tw - (wall - r));
      SameDaySameOffset(r, wall);
    }
  }

  /** `getAppointmentReminderWindows(now)`. */
  function AppointmentReminderWindows(now: int): AppointmentWindows {
    AppointmentWindowsFrom(ToWarsawTime(now))
  }

  /** The rest of `getAppointmentReminderWindows`, once `now` has been moved to Warsaw time. */
  function AppointmentWindowsFrom(warsawNow: int): AppointmentWindows {
    var d2Start := SetHours(SetDate(warsawNow, DateOf(warsawNow) + 2), 0, 0, 0, 0);
    var d2End := SetDate(d2Start, DateOf(d2Start) + 1);

    var d1Start := SetHours(SetDate(warsawNow, DateOf(warsawNow) + 1), 0, 0, 0, 0);
    var d1End := SetDate(d1Start, DateOf(d1Start) + 1);

    var d0Start := SetHours(warsawNow, 0, 0, 0, 0);
    var d0End := SetDate(d0Start, DateOf(d0Start) + 1);

    AppointmentWindows(
      TimeWindow(d2Start, d2End, "SMS_D2"),
      TimeWindow(d1Start, d1End, "SMS_D1"),
      TimeWindow(d0Start, d0End, "SMS_D0"))
  }

  /** `setHours(0, 0, 0, 0)` after `setDate(getDate() + k)` is midnight `k` days later. */
  lemma MidnightAfterDays(t: int, k: int)
    ensures SetHours(SetDate(t, DateOf(t) + k), 0, 0, 0, 0) == (Day(t) + k) * MsPerDay
  {
    DivModUnique(t + k * MsPerDay, MsPerDay, Day(t) + k, TimeWithinDay(t));
  }

  /** The appointment windows computed from a Warsaw reading `w` are the days of `w`, `w` + 1, `w` + 2. */
  lemma AppointmentWindowsFromAreDays(w: int)
    ensures var ws := AppointmentWindowsFrom(w);
      && ws.d0.start == Day(w) * MsPerDay
      && ws.d1.start == (Day(w) + 1) * MsPerDay
      && ws.d2.start == (Day(w) + 2) * MsPerDay
      && ws.d0.end == ws.d1.start && ws.d1.end == ws.d2.start && ws.d2.end == (Day(w) + 3) * MsPerDay
      && ws.d2.code == "SMS_D2" && ws.d1.code == "SMS_D1" && ws.d0.code == "SMS_D0"
  {
    var d2Start := SetHours(SetDate(w, DateOf(w) + 2), 0, 0, 0, 0);
    var d1Start := SetHours(SetDate(w, DateOf(w) + 1), 0, 0, 0, 0);
    var d0Start := SetHours(w, 0, 0, 0, 0);
    MidnightAfterDays(w, 2);
    MidnightAfterDays(w, 1);
    assert SetDate(d2Start, DateOf(d2Start) + 1) == d2Start + MsPerDay;
    assert SetDate(d1Start, DateOf(d1Start) + 1) == d1Start + MsPerDay;
    assert SetDate(d0Start, DateOf(d0Start) + 1) == d0Start + MsPerDay;
  }

  /**
   * The D-2, D-1 and D-0 windows are the whole Warsaw calendar days two, one and zero days
   * after `now`'s: each starts at midnight and ends one day later, D-0 ends where D-1 starts
   * and D-1 ends where D-2 starts, D-0 contains the Warsaw reading of `now`, and they carry
   * the template codes.
   */
  lemma AppointmentWindowsAreWarsawDays(now: int)
    ensures var w := ToWarsawTime(now);
      var ws := AppointmentReminderWindows(now);
      && ws.d0.start == Day(w) * MsPerDay
      && ws.d1.start == (Day(w) + 1) * MsPerDay
      && ws.d2.start == (Day(w) + 2) * MsPerDay
      && ws.d0.end == ws.d1.start && ws.d1.end == ws.d2.start && ws.d2.end == (Day(w) + 3) * MsPerDay
      && ws.d0.start <= w < ws.d0.end
      && ws.d2.code == "SMS_D2" && ws.d1.code == "SMS_D1" && ws.d0.code == "SMS_D0"
  {
    AppointmentWindowsFromAreDays(ToWarsawTime(now));
  }

  /** Two Warsaw readings on the same day give the same appointment windows. */
  lemma AppointmentWindowsFromSameDay(w1: int, w2: int)
    requires Day(w1) == Day(w2)
    ensures AppointmentWindowsFrom(w1) == AppointmentWindowsFrom(w2)
  {
    AppointmentWindowsFromAreDays(w1);
    AppointmentWindowsFromAreDays(w2);
    var a, b := AppointmentWindowsFrom(w1), AppointmentWindowsFrom(w2);
    assert a.d0 == b.d0 && a.d1 == b.d1 && a.d2 == b.d2;
  }

  /** The appointment windows depend only on the Warsaw calendar day of `now`. */
  lemma AppointmentWindowsSameDay(now1: int, now2: int)
    requires Day(ToWarsawTime(now1)) == Day(ToWarsawTime(now2))
    ensures AppointmentReminderWindows(now1) == AppointmentReminderWindows(now2)
  {
    AppointmentWindowsFromSameDay(ToWarsawTime(now1), ToWarsawTime(now2));
  }

  /** `getDepositReminderWindows(now)`. */
  function DepositReminderWindows(now: int): DepositWindows {
    DepositWindowsFrom(ToWarsawTime(now))
  }

  /** The rest of `getDepositReminderWindows`, once `now` has been moved to Warsaw time. */
  function DepositWindowsFrom(warsawNow: int): DepositWindows {
    var beforeStart := SetHours(SetDate(warsawNow, DateOf(warsawNow) + 1), 0, 0, 0, 0);
    var beforeEnd := SetDate(beforeStart, DateOf(beforeStart) + 1);

    var afterEnd := SetHours(warsawNow, 23, 59, 59, 999);
    var afterStart := SetHours(SetDate(warsawNow, DateOf(warsawNow) - 90), 0, 0, 0, 0);

    DepositWindows(
      TimeWindow(beforeStart, beforeEnd, "SMS_DEPOSIT_BEFORE"),
      TimeWindow(afterStart, afterEnd, "SMS_DEPOSIT_AFTER"))
  }

  /** The deposit windows computed from a Warsaw reading `w`. */
  lemma DepositWindowsFromSpan(w: int)
    ensures var dw := DepositWindowsFrom(w);
      && dw.before.start == (Day(w) + 1) * MsPerDay && dw.before.end == (Day(w) + 2) * MsPerDay
      && dw.after.start == (Day(w) - 90) * MsPerDay && dw.after.end == (Day(w) + 1) * MsPerDay - 1
  {
    MidnightAfterDays(w, 1);
    MidnightAfterDays(w, -90);
  }

  /**
   * The deposit "before" window is tomorrow's whole Warsaw day, the same interval as the
   * D-1 window; the "after" window runs from midnight ninety days back to 23:59:59.999
   * today, so it contains the Warsaw reading of `now`.
   */
  lemma DepositWindowsSpan(now: int)
    ensures var w := ToWarsawTime(now);
      var dw := DepositReminderWindows(now);
      var ws := AppointmentReminderWindows(now);
      && dw.before.start == ws.d1.start && dw.before.end == ws.d1.end
      && dw.after.start == (Day(w) - 90) * MsPerDay
      && dw.after.end == (Day(w) + 1) * MsPerDay - 1
      && dw.after.start <= w <= dw.after.end
      && dw.before.code == "SMS_DEPOSIT_BEFORE" && dw.after.code == "SMS_DEPOSIT_AFTER"
  {
    AppointmentWindowsFromAreDays(ToWarsawTime(now));
    DepositWindowsFromSpan(ToWarsawTime(now));
  }

  /** `getPostServiceSendTime(appointmentEndTime)`. */
  function PostServiceSendTime(appointmentEnd: int): int {
    PostServiceSendTimeFrom(ToWarsawTime(appointmentEnd))
  }

  /** The rest of `getPostServiceSendTime`, once the end time has been moved to Warsaw time. */
  function PostServiceSendTimeFrom(warsawEndTime: int): int {
    var cutoffHour := 18;
    if HoursOf(warsawEndTime) >= cutoffHour then
      var tomorrow := SetDate(warsawEndTime, DateOf(warsawEndTime) + 1);
      CreateWarsawDateTime(tomorrow, 9, 0)
    else
      CreateWarsawDateTime(warsawEndTime, 19, 0)
  }

  /** From 18:00 Warsaw time on, the message is due at 09:00 Warsaw time the next day. */
  lemma PostServiceSendTimeLate(w: int)
    requires HoursOf(w) >= 18
    ensures HoursOf(MakeDate(Day(w) + 1, 9 * MsPerHour)) == 9
    ensures MakeDate(Day(w) + 1, 9 * MsPerHour) - 2 * MsPerHour <= PostServiceSendTimeFrom(w)
    ensures PostServiceSendTimeFrom(w) <= MakeDate(Day(w) + 1, 9 * MsPerHour) - MsPerHour
    ensures w < PostServiceSendTimeFrom(w)
    ensures ToWarsawTime(PostServiceSendTimeFrom(w)) == MakeDate(Day(w) + 1, 9 * MsPerHour)
  {
    var tomorrow := SetDate(w, DateOf(w) + 1);
    DivModUnique(tomorrow, MsPerDay, Day(w) + 1, TimeWithinDay(w));
    CreateWarsawDateTimeReadsBack(tomorrow, 9, 0);
    assert SetHours(tomorrow, 9, 0, 0, 0) == MakeDate(Day(w) + 1, 9 * MsPerHour);
  }

  /** Before 18:00 Warsaw time, the message is due at 19:00 Warsaw time the same day. */
  lemma PostServiceSendTimeEarly(w: int)
    requires HoursOf(w) < 18
    ensures HoursOf(MakeDate(Day(w), 19 * MsPerHour)) == 19
    ensures MakeDate(Day(w), 19 * MsPerHour) - 2 * MsPerHour <= PostServiceSendTimeFrom(w)
    ensures PostServiceSendTimeFrom(w) <= MakeDate(Day(w), 19 * MsPerHour) - MsPerHour
    ensures w - MsPerHour < PostServiceSendTimeFrom(w)
    ensures ToWarsawTime(PostServiceSendTimeFrom(w)) == MakeDate(Day(w), 19 * MsPerHour)
  {
    CreateWarsawDateTimeReadsBack(w, 19, 0);
    assert SetHours(w, 19, 0, 0, 0) == MakeDate(Day(w), 19 * MsPerHour);
    assert TimeWithinDay(w) < 18 * MsPerHour;
  }

  /** The send time computed from a reading `w` taken one or two hours after the end `t`. */
  lemma PostServiceSendTimeFromReading(t: int, w: int)
    requires w - t == MsPerHour || w - t == 2 * MsPerHour
    ensures HoursOf(w) >= 18 ==>
        var wall := MakeDate(Day(w) + 1, 9 * MsPerHour);
        HoursOf(wall) == 9 && wall - 2 * MsPerHour <= PostServiceSendTimeFrom(w) <= wall - MsPerHour
    ensures HoursOf(w) < 18 ==>
        var wall := MakeDate(Day(w), 19 * MsPerHour);
        HoursOf(wall) == 19 && wall - 2 * MsPerHour <= PostServiceSendTimeFrom(w) <= wall - MsPerHour
    ensures t < PostServiceSendTimeFrom(w)
    ensures var s := ToWarsawTime(PostServiceSendTimeFrom(w));
      && (HoursOf(w) >= 18 ==> Day(s) == Day(w) + 1 && TimeWithinDay(s) == 9 * MsPerHour)
      && (HoursOf(w) < 18 ==> Day(s) == Day(w) && TimeWithinDay(s) == 19 * MsPerHour)
  {
    if HoursOf(w) >= 18 {
      PostServiceSendTimeLate(w);
      DivModUnique(MakeDate(Day(w) + 1, 9 * MsPerHour), MsPerDay, Day(w) + 1, 9 * MsPerHour);
    } else {
      PostServiceSendTimeEarly(w);
      DivModUnique(MakeDate(Day(w), 19 * MsPerHour), MsPerDay, Day(w), 19 * MsPerHour);
    }
  }

  /**
   * When the appointment ends at 18:00 Warsaw time or later the message is due at 09:00
   * Warsaw time the next day, otherwise at 19:00 the same day: the send time, moved to
   * Warsaw time, reads exactly that day and hour. Either way it is after the appointment's end.
   */
  lemma PostServiceSendTimeSpec(appointmentEnd: int)
    ensures var w := ToWarsawTime(appointmentEnd);
      HoursOf(w) >= 18 ==>
        var wall := MakeDate(Day(w) + 1, 9 * MsPerHour);
        HoursOf(wall) == 9 && wall - 2 * MsPerHour <= PostServiceSendTime(appointmentEnd) <= wall - MsPerHour
    ensures var w := ToWarsawTime(appointmentEnd);
      HoursOf(w) < 18 ==>
        var wall := MakeDate(Day(w), 19 * MsPerHour);
        HoursOf(wall) == 19 && wall - 2 * MsPerHour <= PostServiceSendTime(appointmentEnd) <= wall - MsPerHour
    ensures appointmentEnd < PostServiceSendTime(appointmentEnd)
    ensures var w := ToWarsawTime(appointmentEnd);
      var s := ToWarsawTime(PostServiceSendTime(appointmentEnd));
      && (HoursOf(w) >= 18 ==> Day(s) == Day(w) + 1 && TimeWithinDay(s) == 9 * MsPerHour)
      && (HoursOf(w) < 18 ==> Day(s) == Day(w) && TimeWithinDay(s) == 19 * MsPerHour)
  {
    PostServiceSendTimeFromReading(appointmentEnd, ToWarsawTime(appointmentEnd));
  }

  /** Two two-digit numbers around a separator: `DD.MM` or `HH:MM`. */
  function TwoDigitPair(a: nat, sep: char, b: nat): (s: string)
    requires a < 100 && b < 100
    ensures |s| == 5 && s[2] == sep
    ensures IsDigit(s[0]) && IsDigit(s[1]) && IsDigit(s[3]) && IsDigit(s[4])
    ensures DigitValue(s[0]) * 10 + DigitValue(s[1]) == a
    ensures DigitValue(s[3]) * 10 + DigitValue(s[4]) == b
  {
    TwoDigits(a) + [sep] + TwoDigits(b)
  }

  /** `formatPolishDate(date)`: `DD.MM` of the Warsaw calendar date. */
  function FormatPolishDate(t: int): (s: string)
    ensures |s| == 5 && s[2] == '.'
    ensures IsDigit(s[0]) && IsDigit(s[1]) && IsDigit(s[3]) && IsDigit(s[4])
    ensures var c := CivilOfDay(Day(ToWarsawTime(t)));
      && DigitValue(s[0]) * 10 + DigitValue(s[1]) == c.date
      && DigitValue(s[3]) * 10 + DigitValue(s[4]) == c.month + 1
      && 1 <= c.date <= 31 && 1 <= c.month + 1 <= 12
  {
    var warsawDate := ToWarsawTime(t);
    TwoDigitPair(DateOf(warsawDate), '.', MonthOf(warsawDate) + 1)
  }

  /** `formatPolishTime(date)`: `HH:MM` of the Warsaw wall clock. */
  function FormatPolishTime(t: int): (s: string)
    ensures |s| == 5 && s[2] == ':'
    ensures IsDigit(s[0]) && IsDigit(s[1]) && IsDigit(s[3]) && IsDigit(s[4])
    ensures var w := ToWarsawTime(t);
      && DigitValue(s[0]) * 10 + DigitValue(s[1]) == HoursOf(w)
      && DigitValue(s[3]) * 10 + DigitValue(s[4]) == MinutesOf(w)
      && 0 <= HoursOf(w) < 24 && 0 <= MinutesOf(w) < 60
  {
    var warsawDate := ToWarsawTime(t);
    TwoDigitPair(HoursOf(warsawDate), ':', MinutesOf(warsawDate))
  }
}
