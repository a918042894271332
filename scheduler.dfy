/**
 * The schedule and the manual trigger: when each job runs next, and running a job by name.
 *
 * The daily jobs run at 09:00, 10:00 and 11:00 Warsaw time, the client refresh on Mondays
 * at 07:00. `now` is `nowInWarsaw()`, the clock reading moved forward by the Warsaw offset;
 * a run time is `createWarsawDateTime(now, hour, minute)`, the instant at which the Warsaw
 * wall clock reads `hour:minute` on `now`'s day.
 */
module Scheduler {
  import opened Wrappers
  import opened JsDate
  import opened Timezone
  import opened SmsSender
  import opened Jobs

  const AppointmentHour := 9
  const DepositHour := 10
  const PostServiceHour := 11
  const ClientRefreshHour := 7

  /** `getDay()` of a Monday. */
  const Monday := 1

  // ---------------------------------------------------------------------------------------
  // Day arithmetic

  /** Moving an instant by whole days moves its day number by as many and keeps its time of day. */
  lemma ShiftByDays(t: int, k: int)
    ensures Day(t + k * MsPerDay) == Day(t) + k
    ensures TimeWithinDay(t + k * MsPerDay) == TimeWithinDay(t)
    ensures WeekDay(t + k * MsPerDay) == (WeekDay(t) + k) % 7
  {
    DivModUnique(t + k * MsPerDay, MsPerDay, Day(t) + k, TimeWithinDay(t));
    var q := (Day(t) + 4) / 7;
    DivModUnique(Day(t) + k + 4, 7, q + (WeekDay(t) + k) / 7, (WeekDay(t) + k) % 7);
  }

  /** `(8 - next.getDay()) % 7`: how many days ahead the next Monday is, none on a Monday. */
  function DaysUntilMonday(weekDay: int): (days: int)
    requires 0 <= weekDay < 7
    ensures 0 <= days < 7 && (weekDay + days) % 7 == Monday
    ensures days == 0 <==> weekDay == Monday
  {
    (8 - weekDay) % 7
  }

  /**
   * Where a run time of `now`'s Warsaw day lies: between one and two hours before the wall
   * reading `hour:minute` on `now`'s day; from 02:00 on that is on the same day, and never
   * more than a day ahead of `now`.
   */
  lemma RunTimeToday(now: int, hour: int, minute: int)
    requires 0 <= hour < 24 && 0 <= minute < 60
    ensures var today := CreateWarsawDateTime(now, hour, minute);
      && Day(now) * MsPerDay + MakeTime(hour, minute, 0, 0) - 2 * MsPerHour <= today
      && today <= Day(now) * MsPerDay + MakeTime(hour, minute, 0, 0) - MsPerHour
      && today < now + MsPerDay - MsPerHour
      && (hour >= 2 ==> Day(today) == Day(now))
  {
    CreateWarsawDateTimeReadsBack(now, hour, minute);
    SetHoursReadsBack(now, hour, minute, 0, 0);
    var today := CreateWarsawDateTime(now, hour, minute);
    if hour >= 2 {
      DivModUnique(today, MsPerDay, Day(now), today - Day(now) * MsPerDay);
    }
  }

  // ---------------------------------------------------------------------------------------
  // `getNextRunTime`

  /** `getNextRunTime(hour, minute)` as written: today's run time, a day later when it is not after `now`. */
  function NextRun(clock: int, hour: int, minute: int): int {
    var now := NowInWarsaw(clock);
    var next := CreateWarsawDateTime(now, hour, minute);
    if next <= now then SetDate(next, DateOf(next) + 1) else next
  }

  /** `getNextRunTime`: the local `next` is moved on a day in place when it has passed. */
  method NextRunTime(clock: int, hour: int, minute: int) returns (next: int)
    ensures next == NextRun(clock, hour, minute)
  {
    var now := NowInWarsaw(clock);
    next := CreateWarsawDateTime(now, hour, minute);
    if next <= now {
      next := SetDate(next, DateOf(next) + 1);
    }
  }

  /**
   * For the daily hours (from 02:00 on) the next run is after `now` and at most a day later:
   * today's run time if that is after `now`, otherwise the same time a day later.
   */
  lemma NextRunBounds(clock: int, hour: int, minute: int)
    requires 2 <= hour < 24 && 0 <= minute < 60
    ensures var now := NowInWarsaw(clock);
      var today := CreateWarsawDateTime(now, hour, minute);
      var r := NextRun(clock, hour, minute);
      && now < r <= now + MsPerDay
      && (r == today <==> today > now)
      && (r != today ==> r == today + MsPerDay)
  {
    var now := NowInWarsaw(clock);
    RunTimeToday(now, hour, minute);
    assert now == Day(now) * MsPerDay + TimeWithinDay(now);
  }

  /**
   * As written, the run time (a true instant) is compared with `now` (the clock moved forward
   * by the offset): in the hour or two before today's run, while it is still ahead of the
   * clock, the next run is reported a day later.
   */
  lemma NextRunSkipsPendingRun(clock: int, hour: int, minute: int)
    requires var today := CreateWarsawDateTime(NowInWarsaw(clock), hour, minute);
      clock < today <= NowInWarsaw(clock)
    ensures var today := CreateWarsawDateTime(NowInWarsaw(clock), hour, minute);
      NextRun(clock, hour, minute) == today + MsPerDay
  {
  }

  /** January and February take at least 59 days. */
  lemma MarchStartsLate(y: int)
    ensures DaysBeforeMonth(y, 2) >= 59
  {
  }

  /** In January and February the offset is the winter one. */
  lemma WinterOffset(y: int, t: int)
    requires DayFromYear(y) <= Day(t) < DayFromYear(y) + 59
    ensures WarsawOffset(t) == 60
  {
    DayFromYearStep(y);
    var s := SummerTimeStart(y);
    LastSundayOfMonthIsLastSunday(y, 2);
    var c := CivilOfDay(Day(s));
    assert MakeDay(c.year, c.month, c.date) == Day(s);
    MakeDayInYear(y, 2, c.date);
    MarchStartsLate(y);
    assert Day(s) >= DayFromYear(y) + 59;
    var ts, tt := TimeWithinDay(s), TimeWithinDay(t);
    MulMonotone(Day(t) + 1, Day(s), MsPerDay);
    assert t < s;
    WarsawOffsetFollowsEuRule(y, t);
  }

  /**
   * On any January or February day, at 07:30 UTC (08:30 in Warsaw) the 09:00 run is half an
   * hour ahead, but the next run is reported for the following day.
   */
  lemma NextRunSkipsInWinter(y: int, day: int)
    requires DayFromYear(y) <= day < DayFromYear(y) + 59
    ensures var clock := day * MsPerDay + 7 * MsPerHour + 30 * MsPerMinute;
      var today := day * MsPerDay + 8 * MsPerHour;
      && CreateWarsawDateTime(NowInWarsaw(clock), AppointmentHour, 0) == today
      && clock < today
      && NextRun(clock, AppointmentHour, 0) == today + MsPerDay
  {
    var clock := day * MsPerDay + 7 * MsPerHour + 30 * MsPerMinute;
    DivModUnique(clock, MsPerDay, day, 7 * MsPerHour + 30 * MsPerMinute);
    WinterOffset(y, clock);
    var now := NowInWarsaw(clock);
    assert now == day * MsPerDay + 8 * MsPerHour + 30 * MsPerMinute;
    DivModUnique(now, MsPerDay, day, 8 * MsPerHour + 30 * MsPerMinute);
    var wall := SetHours(now, AppointmentHour, 0, 0, 0);
    assert wall == day * MsPerDay + 9 * MsPerHour;
    DivModUnique(wall, MsPerDay, day, 9 * MsPerHour);
    WinterOffset(y, wall);
    NextRunSkipsPendingRun(clock, AppointmentHour, 0);
  }

  /** The intended `getNextRunTime`: today's run time unless the clock has reached it. */
  function NextRunAfter(clock: int, hour: int, minute: int): int {
    var today := CreateWarsawDateTime(NowInWarsaw(clock), hour, minute);
    if today <= clock then SetDate(today, DateOf(today) + 1) else today
  }

  /**
   * The intended next run is after the clock and at most a day and an hour ahead (the hour
   * for a change of offset), and it is today's run exactly when that is still ahead.
   */
  lemma NextRunAfterIsNext(clock: int, hour: int, minute: int)
    requires 1 <= hour < 24 && 0 <= minute < 60
    ensures var today := CreateWarsawDateTime(NowInWarsaw(clock), hour, minute);
      var r := NextRunAfter(clock, hour, minute);
      && clock < r < clock + MsPerDay + MsPerHour
      && (r == today <==> today > clock)
      && (r != today ==> r == today + MsPerDay)
  {
    var now := NowInWarsaw(clock);
    RunTimeToday(now, hour, minute);
    assert now == Day(now) * MsPerDay + TimeWithinDay(now);
  }

  /**
   * The intended next run differs from the code as written exactly in the window where
   * today's run is ahead of the clock but not of `now`.
   */
  lemma NextRunDivergence(clock: int, hour: int, minute: int)
    ensures var today := CreateWarsawDateTime(NowInWarsaw(clock), hour, minute);
      NextRunAfter(clock, hour, minute) != NextRun(clock, hour, minute) <==> clock < today <= NowInWarsaw(clock)
  {
  }

  // ---------------------------------------------------------------------------------------
  // `getNextMonday`

  /**
   * The step of `getNextMonday` after the run time is set: `next` moved on to the coming
   * Monday, or on a Monday a week on once `next` is not after `until`.
   */
  function MondayFrom(next: int, until: int): int {
    var daysUntilMonday := DaysUntilMonday(WeekDay(next));
    if daysUntilMonday == 0 && next <= until then SetDate(next, DateOf(next) + 7)
    else if daysUntilMonday > 0 then SetDate(next, DateOf(next) + daysUntilMonday)
    else next
  }

  /** `getNextMonday(hour, minute)` as written: the passed test compares with `now`. */
  function NextMonday(clock: int, hour: int, minute: int): int {
    var now := NowInWarsaw(clock);
    MondayFrom(CreateWarsawDateTime(now, hour, minute), now)
  }

  /** `getNextMonday`: the local `next` is moved on in place by a week or to the coming Monday. */
  method NextMondayTime(clock: int, hour: int, minute: int) returns (next: int)
    ensures next == NextMonday(clock, hour, minute)
  {
    var now := NowInWarsaw(clock);
    next := CreateWarsawDateTime(now, hour, minute);
    var daysUntilMonday := DaysUntilMonday(WeekDay(next));
    if daysUntilMonday == 0 && next <= now {
      next := SetDate(next, DateOf(next) + 7);
    } else if daysUntilMonday > 0 {
      next := SetDate(next, DateOf(next) + daysUntilMonday);
    }
  }

  /** The days from a run time to the Monday run: up to the coming Monday, or a week once a Monday's run has passed. */
  function WeekAhead(weekDay: int, passed: bool): (k: int)
    requires 0 <= weekDay < 7
    ensures 0 <= k <= 7 && (weekDay + k) % 7 == Monday
    ensures k == 0 <==> weekDay == Monday && !passed
  {
    var d := DaysUntilMonday(weekDay);
    if d == 0 && passed then 7 else d
  }

  /** Moving an instant on by the days to a Monday lands on that Monday, at the same time of day. */
  lemma ShiftToMonday(t: int, k: int)
    requires (WeekDay(t) + k) % 7 == Monday
    ensures WeekDay(t + k * MsPerDay) == Monday
    ensures TimeWithinDay(t + k * MsPerDay) == TimeWithinDay(t)
  {
    ShiftByDays(t, k);
  }

  /** The Monday step moves `next` on by `WeekAhead` whole days. */
  lemma MondayFromMovesDays(next: int, until: int)
    ensures MondayFrom(next, until) == next + WeekAhead(WeekDay(next), next <= until) * MsPerDay
  {
    var d := DaysUntilMonday(WeekDay(next));
    if d == 0 && next <= until {
      assert MondayFrom(next, until) == SetDate(next, DateOf(next) + 7);
    } else if d > 0 {
      assert MondayFrom(next, until) == SetDate(next, DateOf(next) + d);
    }
  }

  /**
   * Where the Monday step lands when `next` lies within a day of `until` (up to `slack` more
   * ahead): on a Monday after `until` and at most a week after it; on a Monday it stays at
   * `next` while that is after `until` and moves a week on otherwise.
   */
  lemma MondayFromWithinWeek(next: int, until: int, slack: int)
    requires 0 <= slack && until - MsPerDay < next < until + MsPerDay + slack
    ensures var r := MondayFrom(next, until);
      && WeekDay(r) == Monday
      && until < r <= until + 7 * MsPerDay + slack
      && (slack > 0 ==> r < until + 7 * MsPerDay + slack)
      && (WeekDay(next) == Monday && next > until ==> r == next)
      && (WeekDay(next) == Monday && next <= until ==> r == next + 7 * MsPerDay)
  {
    var k := WeekAhead(WeekDay(next), next <= until);
    MondayFromMovesDays(next, until);
    WeekAheadLands(MondayFrom(next, until), next, until, slack, k);
  }

  /** The arithmetic of `MondayFromWithinWeek`, on a landing point `r` `k` days after `next`. */
  lemma WeekAheadLands(r: int, next: int, until: int, slack: int, k: int)
    requires 0 <= slack && until - MsPerDay < next < until + MsPerDay + slack
    requires k == WeekAhead(WeekDay(next), next <= until) && r == next + k * MsPerDay
    ensures && WeekDay(r) == Monday
      && until < r <= until + 7 * MsPerDay + slack
      && (slack > 0 ==> r < until + 7 * MsPerDay + slack)
      && (WeekDay(next) == Monday && next > until ==> r == next)
      && (WeekDay(next) == Monday && next <= until ==> r == next + 7 * MsPerDay)
  {
    ShiftToMonday(next, k);
    if k != 0 && k != 7 {
      MulMonotone(1, k, MsPerDay);
      MulMonotone(k, 6, MsPerDay);
    }
  }

  /**
   * For run hours from 02:00 on, the weekly run falls on a Monday, after `now` and at most a
   * week later, a whole number of days after today's run time; on a Monday it is today's
   * run time while that is after `now`, and the same time a week later once it is not.
   */
  lemma NextMondayBounds(clock: int, hour: int, minute: int)
    requires 2 <= hour < 24 && 0 <= minute < 60
    ensures var now := NowInWarsaw(clock);
      var today := CreateWarsawDateTime(now, hour, minute);
      var r := NextMonday(clock, hour, minute);
      && WeekDay(r) == Monday
      && now < r <= now + 7 * MsPerDay
      && r == today + WeekAhead(WeekDay(today), today <= now) * MsPerDay
      && (WeekDay(today) == Monday && today > now ==> r == today)
      && (WeekDay(today) == Monday && today <= now ==> r == today + 7 * MsPerDay)
  {
    var now := NowInWarsaw(clock);
    var today := CreateWarsawDateTime(now, hour, minute);
    RunTimeToday(now, hour, minute);
    assert now == Day(now) * MsPerDay + TimeWithinDay(now);
    MondayFromMovesDays(today, now);
    MondayFromWithinWeek(today, now, 0);
  }

  /** As written, a Monday's run still ahead of the clock but not of `now` is reported a week later. */
  lemma NextMondaySkipsPendingRun(clock: int, hour: int, minute: int)
    requires var today := CreateWarsawDateTime(NowInWarsaw(clock), hour, minute);
      WeekDay(today) == Monday && clock < today <= NowInWarsaw(clock)
    ensures var today := CreateWarsawDateTime(NowInWarsaw(clock), hour, minute);
      NextMonday(clock, hour, minute) == today + 7 * MsPerDay
  {
    var today := CreateWarsawDateTime(NowInWarsaw(clock), hour, minute);
    ShiftByDays(today, 7);
  }

  /** The intended `getNextMonday`: on a Monday, today's run time unless the clock has reached it. */
  function NextMondayAfter(clock: int, hour: int, minute: int): int {
    MondayFrom(CreateWarsawDateTime(NowInWarsaw(clock), hour, minute), clock)
  }

  /**
   * The intended weekly run falls on a Monday after the clock, at most a week and an hour
   * ahead; on a Monday it is today's run time exactly when that is still ahead of the clock.
   */
  lemma NextMondayAfterIsNext(clock: int, hour: int, minute: int)
    requires 2 <= hour < 24 && 0 <= minute < 60
    ensures var today := CreateWarsawDateTime(NowInWarsaw(clock), hour, minute);
      var r := NextMondayAfter(clock, hour, minute);
      && WeekDay(r) == Monday
      && clock < r < clock + 7 * MsPerDay + MsPerHour
      && (WeekDay(today) == Monday ==> (r == today <==> today > clock))
  {
    var now := NowInWarsaw(clock);
    var today := CreateWarsawDateTime(now, hour, minute);
    RunTimeToday(now, hour, minute);
    assert now == Day(now) * MsPerDay + TimeWithinDay(now);
    MondayFromWithinWeek(today, clock, MsPerHour);
  }

  /**
   * The intended weekly run differs from the code as written exactly on a Monday in the
   * window where today's run is ahead of the clock but not of `now`.
   */
  lemma NextMondayDivergence(clock: int, hour: int, minute: int)
    requires 2 <= hour < 24 && 0 <= minute < 60
    ensures var now := NowInWarsaw(clock);
      var today := CreateWarsawDateTime(now, hour, minute);
      (NextMondayAfter(clock, hour, minute) != NextMonday(clock, hour, minute)) ==
        (WeekDay(today) == Monday && clock < today <= now)
  {
    var now := NowInWarsaw(clock);
    var today := CreateWarsawDateTime(now, hour, minute);
    MondayFromMovesDays(today, clock);
    MondayFromMovesDays(today, now);
    var kc, kn := WeekAhead(WeekDay(today), today <= clock), WeekAhead(WeekDay(today), today <= now);
    if kc != kn {
      MulMonotone(1, if kc < kn then kn - kc else kc - kn, MsPerDay);
      assert kc * MsPerDay != kn * MsPerDay;
    }
  }

  // ---------------------------------------------------------------------------------------
  // `getSchedule`

  /** `ScheduleStatus`; the run times and `currentTime` are the instants themselves. */
  datatype ScheduleStatus = ScheduleStatus(
    appointmentReminders: int,
    depositReminders: int,
    postServiceReminders: int,
    clientStatusRefresh: int,
    timezone: string,
    currentTime: int)

  /**
   * `getSchedule` as written: every run time is compared with the shifted `now`, so each
   * daily run is within a day after `now` and the weekly one is a Monday within a week
   * after it; `currentTime` is the shifted `now` itself.
   */
  function ScheduleAsWritten(clock: int): (s: ScheduleStatus)
    ensures var now := NowInWarsaw(clock);
      && now < s.appointmentReminders <= now + MsPerDay
      && now < s.depositReminders <= now + MsPerDay
      && now < s.postServiceReminders <= now + MsPerDay
      && now < s.clientStatusRefresh <= now + 7 * MsPerDay
      && WeekDay(s.clientStatusRefresh) == Monday
    ensures s.timezone == "Europe/Warsaw" && s.currentTime == NowInWarsaw(clock)
  {
    NextRunBounds(clock, AppointmentHour, 0);
    NextRunBounds(clock, DepositHour, 0);
    NextRunBounds(clock, PostServiceHour, 0);
    NextMondayBounds(clock, ClientRefreshHour, 0);
    ScheduleStatus(
      NextRun(clock, AppointmentHour, 0),
      NextRun(clock, DepositHour, 0),
      NextRun(clock, PostServiceHour, 0),
      NextMonday(clock, ClientRefreshHour, 0),
      "Europe/Warsaw",
      NowInWarsaw(clock))
  }

  /**
   * `getSchedule` corrected, with the run times compared against the clock: every next run is still
   * ahead, the daily ones within a day and an hour, the weekly one on a Monday within a week
   * and an hour.
   */
  function Schedule(clock: int): (s: ScheduleStatus)
    ensures clock < s.appointmentReminders < clock + MsPerDay + MsPerHour
    ensures clock < s.depositReminders < clock + MsPerDay + MsPerHour
    ensures clock < s.postServiceReminders < clock + MsPerDay + MsPerHour
    ensures clock < s.clientStatusRefresh < clock + 7 * MsPerDay + MsPerHour
    ensures WeekDay(s.clientStatusRefresh) == Monday
    ensures s.timezone == "Europe/Warsaw" && s.currentTime == NowInWarsaw(clock)
  {
    NextRunAfterIsNext(clock, AppointmentHour, 0);
    NextRunAfterIsNext(clock, DepositHour, 0);
    NextRunAfterIsNext(clock, PostServiceHour, 0);
    NextMondayAfterIsNext(clock, ClientRefreshHour, 0);
    ScheduleStatus(
      NextRunAfter(clock, AppointmentHour, 0),
      NextRunAfter(clock, DepositHour, 0),
      NextRunAfter(clock, PostServiceHour, 0),
      NextMondayAfter(clock, ClientRefreshHour, 0),
      "Europe/Warsaw",
      NowInWarsaw(clock))
  }

  // ---------------------------------------------------------------------------------------
  // `triggerJob`

  /** `ManualTriggerResponse`. */
  datatype TriggerResponse = TriggerResponse(success: bool, message: string, jobResult: Option<CronJobResponse>)

  /** The four job names a trigger accepts. */
  predicate KnownJob(job: string) {
    job == "appointment-reminders" || job == "deposit-reminders"
    || job == "post-service-reminders" || job == "client-status-refresh"
  }

  /** What a handler run leaves, wrapped in the trigger's success response. */
  function Ran(job: string, run: (Store, CronJobResponse)): (Store, TriggerResponse) {
    (run.0, TriggerResponse(true, "Job " + job + " executed successfully", Some(run.1)))
  }

  /** `triggerJob`: the handler the name selects, or the unknown-name answer. */
  function Trigger(st: Store, job: string, clock: int, events: seq<EventRow>, clientCount: nat, env: JobEnv)
    : (Store, TriggerResponse)
  {
    var now := NowInWarsaw(clock);
    if job == "appointment-reminders" then
      Ran(job, Job(st, AppointmentHandler, now, AppointmentBatches(now), events, clock, env))
    else if job == "deposit-reminders" then
      Ran(job, Job(st, DepositHandler, now, DepositBatches(now), events, clock, env))
    else if job == "post-service-reminders" then
      Ran(job, Job(st, PostServiceHandler, now, PostServiceBatches(now), events, clock, env))
    else if job == "client-status-refresh" then
      Ran(job, ClientRefreshJob(st, now, clientCount, env))
    else (st, TriggerResponse(false, "Unknown job: " + job, None))
  }

  /** The `triggerJob` endpoint. */
  method TriggerJob(b: Backend, job: string, clock: int, events: seq<EventRow>, clientCount: nat, env: JobEnv)
    returns (response: TriggerResponse)
    modifies b
    ensures (b.State(), response) == Trigger(old(b.State()), job, clock, events, clientCount, env)
  {
    var result: CronJobResponse;
    if job == "appointment-reminders" {
      result := AppointmentReminders(b, clock, events, env);
    } else if job == "deposit-reminders" {
      result := DepositReminders(b, clock, events, env);
    } else if job == "post-service-reminders" {
      result := PostServiceReminders(b, clock, events, env);
    } else if job == "client-status-refresh" {
      result := ClientStatusRefresh(b, clock, clientCount, env);
    } else {
      return TriggerResponse(false, "Unknown job: " + job, None);
    }
    response := TriggerResponse(true, "Job " + job + " executed successfully", Some(result));
  }

  /**
   * A trigger succeeds exactly for the four job names, and then reports the job by name and
   * carries the response of the handler of that name, whatever that response says; for any
   * other name it runs nothing and changes nothing.
   */
  lemma TriggerOutcome(st: Store, job: string, clock: int, events: seq<EventRow>, clientCount: nat, env: JobEnv)
    ensures var (st2, r) := Trigger(st, job, clock, events, clientCount, env);
      && (r.success <==> KnownJob(job))
      && (r.success ==> r.message == "Job " + job + " executed successfully"
                        && r.jobResult.Some? && r.jobResult.value.jobName == job
                        && r.jobResult.value.executedAt == NowInWarsaw(clock))
      && (!r.success ==> r.message == "Unknown job: " + job && r.jobResult.None? && st2 == st)
  {
    var now := NowInWarsaw(clock);
    if job == "appointment-reminders" {
      var run := Job(st, AppointmentHandler, now, AppointmentBatches(now), events, clock, env);
      JobReportsItself(st, AppointmentHandler, now, AppointmentBatches(now), events, clock, env);
      RanReportsJob(job, run, now);
    } else if job == "deposit-reminders" {
      var run := Job(st, DepositHandler, now, DepositBatches(now), events, clock, env);
      JobReportsItself(st, DepositHandler, now, DepositBatches(now), events, clock, env);
      RanReportsJob(job, run, now);
    } else if job == "post-service-reminders" {
      var run := Job(st, PostServiceHandler, now, PostServiceBatches(now), events, clock, env);
      JobReportsItself(st, PostServiceHandler, now, PostServiceBatches(now), events, clock, env);
      RanReportsJob(job, run, now);
    } else if job == "client-status-refresh" {
      RanReportsJob(job, ClientRefreshJob(st, now, clientCount, env), now);
    }
  }

  /** A job run reports itself under its handler's name, at `now`. */
  lemma JobReportsItself(st: Store, h: Handler, now: int, batches: seq<Batch>, events: seq<EventRow>, clock: int,
                         env: JobEnv)
    ensures Job(st, h, now, batches, events, clock, env).1.jobName == h.name
    ensures Job(st, h, now, batches, events, clock, env).1.executedAt == now
  {
    JobOutcome(st, h, now, batches, events, clock, env);
  }

  /** A run reported under the job's name and at `now` makes a successful trigger response that carries it. */
  lemma RanReportsJob(job: string, run: (Store, CronJobResponse), now: int)
    requires run.1.jobName == job && run.1.executedAt == now
    ensures var r := Ran(job, run).1;
      && r.success && r.message == "Job " + job + " executed successfully"
      && r.jobResult.Some? && r.jobResult.value.jobName == job && r.jobResult.value.executedAt == now
  {
  }
}
