# SMS reminder scheduler — a Dafny model

This project models the cron core of a tattoo-studio booking backend. The core sends SMS
reminders for appointments and deposits, and aftercare messages after a visit. It covers:

- **Warsaw time** (`timezone.dfy`):
  - the Europe/Warsaw offset under the EU summer-time rule;
  - the shift of an instant by that offset (`toWarsawTime`, `nowInWarsaw`);
  - `createWarsawDateTime`;
  - the appointment, deposit and post-service send windows;
  - the Polish date and time formats.

  `jsdate.dfy` writes out the JavaScript `Date` arithmetic these rely on: the day, month and
  year decomposition of ECMAScript, `setDate`, `setHours`, `setMinutes` and
  `new Date(y, m, d)`, all on a UTC host.
- **The idempotent sender** (`sms_sender.dfy`):
  - phone-number normalisation to `+48…`;
  - `sendIdempotentSMS` over a ledger keyed by (phone, template, scheduled slot);
  - the audit log `logCronRun`.

  `class Backend` holds the `sms_history` ledger, the `cron_runs` log and the messages handed
  to the gateway, and its methods update them in place. `template.dfy` and
  `substitution.dfy` model the message templates and the `{KEY}` substitution of
  `generateSMSBody`.
- **The four handlers** (`jobs.dfy`):
  - appointment reminders (D-2, D-1, D-0);
  - deposit reminders (before the due date, and overdue);
  - post-service aftercare;
  - the client status refresh.

  Each handler writes a start row, runs its candidate queries in order, dispatches one
  message per candidate, counts sent messages and failures, and writes a finish row. A
  query that throws sends it to its `catch` path.
- **The preview** (`preview.dfy`): the same queries and messages, answered read-only.
  For every candidate it gives the body and whether the ledger would let it go out.
- **The schedule and the manual trigger** (`scheduler.dfy`).

**How the world is represented.** Everything outside the code is an explicit input:
- The `events` table is a sequence of rows. Each query is the selection of rows matching
  its `WHERE` clause.
- The clock is an integer instant in milliseconds.
- The database and gateway answers for each dispatch are an `Attempt`: the lookup, the
  claim insert, the transport and the final update. A query that throws is a `QueryFault`.
- Generated ids are part of these inputs.

**Operations are proved against specification functions.** Each operation is a method
proved against a specification function over the old state. Examples:
- `SendIdempotentSms` against `DispatchIn`;
- `AppointmentReminders` against `Job`;
- `Preview` against `PreviewAll`.

The lemmas are stated about those functions. They cover:
- idempotence of a handler re-run;
- which ledger keys a run may create;
- the response rule (`success` exactly when there are no errors);
- agreement between the preview and the dispatcher;
- the shape of the windows;
- the bounds of the schedule.

**Kept as written.** The model follows the code's own composition in five places:
- **Double Warsaw shift.** Handlers pass `nowInWarsaw()` into window functions that shift
  again, so windows are UTC midnights of the doubly shifted reading.
- **Raw number in the preview.** The preview checks the ledger under the raw phone number,
  while the dispatcher claims under the normalised one. `Preview.RawNumberMissesClaim`
  shows the consequence: for national numbers the preview misses existing claims.
- **Failed slot blocks retries.** A slot whose send failed stays claimed, and later runs
  report it as already sent.
- **Overdue slot is `now`.** The overdue-deposit loop claims its slot at `now`, so it sends
  again on every run (`Jobs.DepositAfterSendsAgain`).
- **Aftercare gate against the shifted `now`.** The aftercare handler
  (backend/cron/jobs.ts:360) and its preview (backend/cron/preview.ts:367) compare the
  shifted `now` with the send time, which is a true instant. A message can therefore go out
  up to the offset early. Example: a January visit ending at 17:00 Warsaw time has its send
  time at 19:00 Warsaw time (18:00 UTC); a run at 17:30 UTC reads `now` as 18:30 and sends
  it half an hour early.

On a UTC host the D-0/D-1/D-2 windows are exactly 24 hours long, also on a change of
offset (`Timezone.AppointmentWindowsAreWarsawDays`).

## Model

| member | source | states |
|---|---|---|
| Timezone.BackToSundayAtOne | backend/cron/timezone.ts:46-48 | stepping back from the month's last day by its weekday lands on the Sunday on or before it, at 01:00 UTC |
| Timezone.LastSundayOfMonthIsLastSunday | backend/cron/timezone.ts:44-50 | the result is a Sunday at 01:00 UTC in the given month and year, within the month's last seven days |
| Timezone.WarsawOffset | backend/cron/timezone.ts:24-39 | the offset is 60 or 120 minutes |
| Timezone.WarsawOffsetFollowsEuRule | backend/cron/timezone.ts:24-39 | within a year, the offset is 120 exactly from the last Sunday of March 01:00 UTC to the last Sunday of October 01:00 UTC, else 60 |
| Timezone.SummerTimeIsOrdered | backend/cron/timezone.ts:28-29 | summer time starts at least a day before it ends |
| Timezone.WarsawOffsetSpringForward | backend/cron/timezone.ts:34-38 | within an hour of the spring change, the offset is 60 before it and 120 from it on |
| Timezone.WarsawOffsetFallBack | backend/cron/timezone.ts:34-38 | within an hour of the autumn change, the offset is 120 before it and 60 from it on |
| Timezone.ToWarsawTime | backend/cron/timezone.ts:14-18 | the instant is moved forward by exactly the Warsaw offset, one or two hours |
| Timezone.SameDaySameOffset | backend/cron/timezone.ts:24-39 | two instants of one UTC day, both from 01:00 UTC on, have the same Warsaw offset, since every change falls at 01:00 UTC |
| Timezone.CreateWarsawDateTimeReadsBack | backend/cron/timezone.ts:55-64 | the result is one to two hours before the wall-clock hour:minute on the given day; for hours from 03:00 on, moved to Warsaw time it reads exactly that hour:minute on that day |
| Timezone.AppointmentWindowsAreWarsawDays | backend/cron/timezone.ts:76-111 | the D-0, D-1 and D-2 windows are the consecutive whole days from the Warsaw reading's day, D-0 holds that reading, and each window has its template code |
| Timezone.AppointmentWindowsSameDay | backend/cron/timezone.ts:76-111 | two instants with the same Warsaw day get the same windows |
| Timezone.DepositWindowsSpan | backend/cron/timezone.ts:116-142 | the "before" window equals the D-1 window; "after" runs from midnight 90 days back to 23:59:59.999 today and holds the reading |
| Timezone.PostServiceSendTimeSpec | backend/cron/timezone.ts:148-161 | moved to Warsaw time, the send time reads exactly 09:00 on the day after the visit's Warsaw end when that end is from 18:00 on, and 19:00 on the same day otherwise; either way it is after the visit |
| Timezone.FormatPolishDate | backend/cron/timezone.ts:166-171 | the text is "DD.MM" with two digits each, the day and month of the Warsaw date |
| Timezone.FormatPolishTime | backend/cron/timezone.ts:176-181 | the text is "HH:MM" with two digits each, the Warsaw hour and minute |
| Text.TwoDigits | backend/cron/timezone.ts:168-169 | `padStart(2, '0')` of a number below 100 gives two digits that read back as that number |
| SmsSender.KeepDialCharsDropsSeparator | backend/cron/sms_sender.ts:118 | a character other than a digit or plus sign makes no difference to the cleaned number |
| SmsSender.FormatPhoneNumber | backend/cron/sms_sender.ts:117-137 | an accepted number starts with "+", has at least ten characters, and holds only digits and plus signs |
| SmsSender.FormatPhoneNumberAccepts | backend/cron/sms_sender.ts:117-137 | a number is accepted exactly when its cleaned form has nine characters, or eleven starting with "48", or ten or more starting with "+"; the result is then "+48" + cleaned, "+" + cleaned, or the cleaned form |
| SmsSender.FormatPhoneNumberIdempotent | backend/cron/sms_sender.ts:117-137 | normalising an accepted number again gives it back unchanged |
| SmsSender.PolishNumberForms | backend/cron/sms_sender.ts:123-129 | a nine-digit number, the same with "48" in front and with "+48" in front all normalise to "+48" and the nine digits |
| SmsSender.FormatPhoneNumberExamples | backend/run-tests.js:49-53 | the three example forms of 123456789 normalise to +48123456789 |
| SmsSender.DispatchRejectsInvalidPhone | backend/cron/sms_sender.ts:28-31 | an invalid number fails with "Invalid phone number format" and touches neither ledger nor gateway |
| SmsSender.DispatchExistingRow | backend/cron/sms_sender.ts:40-53 | an existing row answers "already sent", succeeding only if its status is sent, and changes nothing |
| SmsSender.DispatchFreshKey | backend/cron/sms_sender.ts:55-103 | a won claim adds exactly one row under the key and hands the rendered body to the gateway once; the row ends sent with the provider id, failed with the error, or queued when the final update fails; the call succeeds exactly when the row ends sent |
| SmsSender.DispatchLostClaim | backend/cron/sms_sender.ts:68-72 | a unique violation on the claim answers "already sent" and sends nothing |
| SmsSender.DispatchFrame | backend/cron/sms_sender.ts:23-112 | no existing row changes; at most one row is added, under the request's key, and at most one message goes to the normalised number; a fresh success always sent one; an "already sent" answer changes nothing |
| SmsSender.DispatchClaimedKey | backend/cron/sms_sender.ts:28-53 | a request whose key is already claimed, or whose number is invalid, leaves the ledger as it was, sends nothing and is never a fresh success |
| SmsSender.DispatchTwice | backend/cron/sms_sender.ts:37-103 | once a call has claimed the key or found it claimed, the same request again answers "already sent" with the same success, sends nothing and changes nothing |
| SmsSender.DispatchIn | backend/cron/sms_sender.ts:23-112 | dispatching never touches the audit log |
| SmsSender.LogIn | backend/cron/sms_sender.ts:218-237 | a successful log write appends exactly one row; a failing one leaves the log as it was; the ledger never changes |
| SmsSender.Backend.SendIdempotentSms | backend/cron/sms_sender.ts:23-112 | the result and the new backend state are those of the dispatch specification on the old state |
| SmsSender.Backend.LogCronRun | backend/cron/sms_sender.ts:218-237 | the new state is the old one with the run logged, or unchanged when the write fails |
| Template.TemplateForSelects | backend/cron/sms_sender.ts:143-153 | a known code selects its non-empty template; an unknown code is used as the template itself |
| Template.PlaceholderIsToken | backend/cron/sms_sender.ts:157 | the placeholder of a brace-free key is a brace token that matches only itself |
| Template.GenerateSmsBody | backend/cron/sms_sender.ts:142-162 | the loop's body equals the template with every variable substituted in turn |
| Template.RenderSlot | backend/cron/sms_sender.ts:155-161 | a placeholder followed by brace-free text takes the value of the first variable naming it; the text before it is rendered on its own |
| Template.UnmatchedPlaceholderStays | backend/cron/sms_sender.ts:155-161 | a placeholder no variable names is left in the text as it is |
| Template.UnknownCodeIsSentVerbatim | backend/cron/sms_sender.ts:153 | an unknown template code without placeholders is sent as the code itself |
| Template.ReminderMatches | backend/cron/jobs.ts:60-65 | each placeholder the jobs' templates use is filled from its own variable: name, date, time, studio and, for deposits, the amount |
| Template.TwoDaysBeforeMessage | backend/cron/sms_sender.ts:144 | the D-2 message reads "Cześć {name}! Wizyta {date} o {time} w {studio} – widzimy się pojutrze" |
| Template.DayBeforeMessage | backend/cron/sms_sender.ts:145 | the D-1 message reads "Hej {name}! Jutro {date} o {time} w {studio}" |
| Template.SameDayMessage | backend/cron/sms_sender.ts:146 | the D-0 message reads "To dziś, {name}! {time} w {studio}" |
| Template.DepositBeforeMessage | backend/cron/sms_sender.ts:149 | the deposit message before the due date reads "Prosimy o zadatek {amount}zł za wizytę {date} {time} w {studio}"; the name is not used |
| Template.DepositAfterMessage | backend/cron/sms_sender.ts:150 | the overdue-deposit message reads "{name}, prosimy o zadatek {amount}zł za wizytę {date} {time} w {studio}" |
| Template.TwoDaysBeforeExample | backend/__tests__/utils.test.ts:25-29 | the D-2 example renders to the expected text |
| Template.DayBeforeExample | backend/__tests__/utils.test.ts:30-34 | the D-1 example renders to the expected text |
| Jobs.Select | backend/cron/jobs.ts:36-50 | a query returns exactly the rows that match its conditions |
| Jobs.AppointmentEnd | backend/cron/jobs.ts:353-354 | the visit ends its duration in minutes after it starts, 60 when the duration is unset |
| Jobs.RequestForNamesSlot | backend/cron/jobs.ts:349-376 | a row makes a request exactly when the loop does not skip it, with the row's number, the loop's template and slot (aftercare: the send time) |
| Jobs.ProcessRow | backend/cron/jobs.ts:53-72 | one pass of the loop body leaves the backend and the counters of one step of the loop specification: a skipped row changes nothing, a dispatched one is counted or recorded as an error |
| Jobs.ProcessBatch | backend/cron/jobs.ts:52-73 | the loop leaves the backend and the counters the loop specification gives for the rows in order |
| Jobs.RunQueryStep | backend/cron/jobs.ts:36-73 | a query that throws records the crash and runs nothing; otherwise the loop runs over the selected rows |
| Jobs.StepBookkeeping | backend/cron/jobs.ts:68-72 | each row adds one to the count when the message was sent fresh, one labelled error when it failed fresh, and nothing when already sent |
| Jobs.BatchBookkeeping | backend/cron/jobs.ts:52-73 | a loop only appends to errors and gateway log, never touches the audit log, and counts no more messages than it handed the gateway |
| Jobs.BatchKeys | backend/cron/jobs.ts:55-66 | every ledger row a loop adds carries the loop's template and slot |
| Jobs.BatchOnClaimed | backend/cron/jobs.ts:52-73 | a loop over rows whose keys are all claimed sends nothing, counts nothing and leaves the ledger as it was |
| Jobs.BatchClaims | backend/cron/jobs.ts:52-73 | after a loop in which every claim went through, every row's key is claimed |
| Jobs.BatchRerun | backend/cron/jobs.ts:52-73 | re-running a loop after such a run sends nothing and leaves the ledger as it was |
| Jobs.BatchKeepsCrash | backend/cron/jobs.ts:52-73 | a dispatch loop never throws, whatever the dispatches answer |
| Jobs.FinishJob | backend/cron/jobs.ts:155-177 | the finish row and the response are those of the finish specification |
| Jobs.FinishResponse | backend/cron/jobs.ts:155-177 | `success` exactly when there are no errors; on the catch path the error is the prefixed message; the finish row records the verdict at `now` |
| Jobs.QueryFrame | backend/cron/jobs.ts:36-73 | one query's loop keeps old ledger rows, appends only, and adds only its own keys |
| Jobs.BatchesFrame | backend/cron/jobs.ts:32-153 | a handler's queries together keep old ledger rows, only append, and add keys of their own loops |
| Jobs.BatchesCrash | backend/cron/jobs.ts:166-177 | a handler fails over exactly when one of its queries throws, with that query's message |
| Jobs.JobOutcome | backend/cron/jobs.ts:22-179 | a run's response rule, its start and finish rows at `now`, old ledger rows kept, and new rows only from its loops |
| Jobs.AppointmentReminders | backend/cron/jobs.ts:22-179 | the handler's new state and response are those of the job specification with the three reminder loops |
| Jobs.DepositReminders | backend/cron/jobs.ts:182-310 | the handler's new state and response are those of the job specification with the two deposit loops |
| Jobs.PostServiceReminders | backend/cron/jobs.ts:313-409 | the handler's new state and response are those of the job specification with the aftercare loop |
| Jobs.ClientStatusRefresh | backend/cron/jobs.ts:412-454 | the handler's new state and response are those of the refresh specification |
| Jobs.AppointmentJobKeys | backend/cron/jobs.ts:33-153 | every ledger row a run adds is a D-2, D-1 or D-0 reminder at its window's start |
| Jobs.DepositJobKeys | backend/cron/jobs.ts:193-284 | every ledger row a run adds is a "before" reminder at tomorrow's start or an overdue one at `now` |
| Jobs.PostServiceJobKeys | backend/cron/jobs.ts:325-383 | every ledger row a run adds is an aftercare message at a send time not after the handler's shifted `now` |
| Jobs.ClientRefreshNeverDispatches | backend/cron/jobs.ts:412-454 | the refresh sends and counts nothing, and fails exactly when its query throws |
| Jobs.BatchesClaim | backend/cron/jobs.ts:32-153 | after a run in which every claim went through, every candidate's key is claimed |
| Jobs.BatchesOnClaimed | backend/cron/jobs.ts:32-153 | queries whose candidates are all claimed send nothing and change no ledger row |
| Jobs.JobRerun | backend/cron/jobs.ts:22-179 | after a clean run, a second run over the same events sends nothing and leaves the ledger as it was |
| Jobs.AppointmentRerunSameDay | backend/cron/jobs.ts:33-153 | a second appointment run on the same Warsaw day sends nothing more |
| Jobs.UnclaimedSlotSends | backend/cron/jobs.ts:214-237 | a deposit candidate with an unclaimed slot and an accepting gateway is sent and counted once |
| Jobs.DepositAfterSendsAgain | backend/cron/jobs.ts:261-284 | an overdue-deposit candidate already reminded at another `now` is sent again |
| Preview.CheckWouldSend | backend/cron/preview.ts:80-100 | the answer is the ledger check of exactly the given key |
| Preview.WouldSendAgreesWithDispatch | backend/cron/preview.ts:80-100 | for a normalised number the preview says "would send" exactly when the dispatcher would not answer "already sent", with matching reasons |
| Preview.RawNumberMissesClaim | backend/cron/preview.ts:133 | a number that normalises differently hides the dispatcher's claim from the preview |
| Preview.NationalNumberIsMissed | backend/cron/preview.ts:133 | every nine-digit national number is such a number |
| Preview.PreviewAgreesWithJob | backend/cron/preview.ts:102-391 | a preview entry exists exactly when the handler would make a request, with its number, template, rendered body and the ledger check of its slot |
| Preview.PreviewRow | backend/cron/preview.ts:123-146 | one row's entry is the preview specification of that row |
| Preview.PreviewRowsMatchRequests | backend/cron/preview.ts:123-146 | a loop's entries show, one for one and in order, the requests the handler's loop would make |
| Preview.PreviewBatch | backend/cron/preview.ts:106-146 | the loop's entries are those of the loop specification |
| Preview.PreviewListsShowRequests | backend/cron/preview.ts:102-391 | each of the lists shows its batch's requests in order |
| Preview.PreviewLoops | backend/cron/preview.ts:102-391 | the loops stop exactly at a throwing query; otherwise their lists are those of the specification |
| Preview.Preview | backend/cron/preview.ts:52-423 | the outcome is that of the preview specification, and the backend is not modified |
| Preview.PreviewOutcome | backend/cron/preview.ts:55-421 | a preview fails exactly when one of its seven queries throws; otherwise it describes the date asked for (or now) and each list shows its loop's requests |
| Scheduler.DaysUntilMonday | backend/cron/scheduler.ts:36 | `(8 - day) % 7` days lead to a Monday within the week, zero exactly on a Monday |
| Scheduler.NextRunTime | backend/cron/scheduler.ts:22-31 | the method computes the as-written next run |
| Scheduler.NextRunBounds | backend/cron/scheduler.ts:22-31 | the next run is after `now` and at most a day later: today's time if that is after `now`, otherwise the same time a day later |
| Scheduler.NextRunSkipsPendingRun | backend/cron/scheduler.ts:23-28 | a run still ahead of the clock but not of `now` is reported a day later |
| Scheduler.NextRunSkipsInWinter | backend/cron/scheduler.ts:22-31 | on any January or February day at 07:30 UTC the 09:00 run is still ahead, yet the next run is reported for the next day |
| Scheduler.NextRunAfterIsNext | backend/cron/scheduler.ts:22-31 | the corrected next run is after the clock, within a day and an hour, and is today's run exactly when that is still ahead |
| Scheduler.NextRunDivergence | backend/cron/scheduler.ts:26 | the corrected and as-written results differ exactly when today's run is ahead of the clock but not of `now` |
| Scheduler.NextMondayTime | backend/cron/scheduler.ts:34-47 | the method computes the as-written next Monday run |
| Scheduler.WeekAhead | backend/cron/scheduler.ts:36-44 | the days added reach a Monday within a week, none only on a Monday whose run is ahead |
| Scheduler.NextMondayBounds | backend/cron/scheduler.ts:34-47 | the weekly run is on a Monday, after `now` and at most a week later, a whole number of days after today's run time |
| Scheduler.NextMondaySkipsPendingRun | backend/cron/scheduler.ts:38-40 | on a Monday, a run still ahead of the clock but not of `now` is reported a week later |
| Scheduler.NextMondayAfterIsNext | backend/cron/scheduler.ts:34-47 | the corrected weekly run is on a Monday after the clock, within a week and an hour, and on a Monday is today's run exactly when that is still ahead |
| Scheduler.NextMondayDivergence | backend/cron/scheduler.ts:38 | the corrected and as-written weekly runs differ exactly on a Monday whose run is ahead of the clock but not of `now` |
| Scheduler.ScheduleAsWritten | backend/cron/scheduler.ts:16-60 | every reported next run is after the shifted `now`: the daily ones within a day of it, the weekly one on a Monday within a week of it; the time zone is Europe/Warsaw and the current time is the shifted `now` |
| Scheduler.Schedule | backend/cron/scheduler.ts:49-58 | the corrected schedule: every reported next run is ahead of the clock, the daily ones within a day and an hour, the weekly one on a Monday within a week and an hour |
| Scheduler.TriggerJob | backend/cron/scheduler.ts:73-115 | the new state and the response are those of the trigger specification |
| Scheduler.TriggerOutcome | backend/cron/scheduler.ts:82-106 | a trigger succeeds exactly for the four job names and carries that job's response; any other name changes nothing and answers "Unknown job" |

## Left out

- `sendViaSMSAPI` (backend/cron/sms_sender.ts:167-213) is the HTTP call to the SMS gateway. Its answer, including the missing-credentials refusal, is the `transport` part of each `Attempt`.
- The SQL of the queries is modelled by its `WHERE` conditions over an input sequence of rows. Ordering clauses, joins and column conversions are not modelled.
- Statement atomicity is not modelled: the ledger lookup and the claim insert are separate steps with separate answers. Concurrent runs are not modelled; a run that loses a race shows up as the `UniqueViolation` answer to its claim.
- `crypto.randomUUID()` and the generated ids are inputs. The columns filled by `CURRENT_TIMESTAMP` (`sent_at`, `created_at`) are not stored.
- `toISOString()` is not modelled: instants stay integers in the ledger keys, the schedule and the preview response.
- Only a UTC host is modelled: the host offset is zero.
- The range limit of JavaScript dates and `NaN` dates are not modelled. `new Date(y, m, d)` maps the years 0 to 99 to 1900 to 1999; `JsDate.NewDate` does not, so for instants in the years 0 to 99 the model's change dates differ from the code's. A malformed `date` in a preview request is not modelled either; the date arrives as an optional instant.
- The replacement patterns of `String.prototype.replace` (`$&`, `$1`, …) are not modelled. Keys with regular-expression metacharacters are not modelled either: keys are taken as brace-free text.
- `Text.ToUpperAscii` upper-cases ASCII letters only. Every key the jobs pass is ASCII.
- `Text.LowerChar` lower-cases ASCII and the Polish capitals only. That is enough to match "tatuaż" and "tattoo" in service names.
- Deposit amounts are integers; fractional amounts and their decimal text are not modelled.
- The `catch` of `triggerJob` (backend/cron/scheduler.ts:108-113) is left out. The handlers catch their own failures and `logCronRun` swallows its own, so no exception reaches it.
- The cron registrations and the API framework wrappers are not part of this model.
- Timezone.CreateWarsawDateTimeReadsBack: the exact Warsaw reading is stated for hours from 03:00 on, which covers every hour the code asks for (07:00 to 19:00). Before 03:00 the result can fall on the other side of a 01:00 UTC change, so only the one-to-two-hour band is stated.
- Scheduler.Schedule: not what `getSchedule` returns, but its corrected version (see Findings); `Scheduler.ScheduleAsWritten` is the as-written endpoint.
- Scheduler.NextRunBounds: stated for run hours from 02:00 on, the hours the schedule uses. At 00:00 or 01:00 the shifted run time can fall before `now`'s day.
- Scheduler.NextMondayBounds: stated for run hours from 02:00 on, for the same reason.
- Scheduler.NextMondayAfterIsNext: stated for run hours from 02:00 on, for the same reason.
- Scheduler.NextMondayDivergence: stated for run hours from 02:00 on, for the same reason.

## Findings

| source | as written | input that shows it | evidently intended | confidence | as-written member | corrected member |
|---|---|---|---|---|---|---|
| backend/cron/scheduler.ts:26 | the run time from `createWarsawDateTime` is a true instant, but it is compared with `now`, which is the clock moved forward by the Warsaw offset | any January or February day at 07:30 UTC (08:30 in Warsaw): the 09:00 run is 30 minutes ahead, but the next run is reported for the following day | report today's run while it is still ahead of the clock | not executed | Scheduler.NextRunSkipsInWinter | Scheduler.NextRunAfterIsNext |
| backend/cron/scheduler.ts:38 | the same comparison of a true instant with the shifted `now` on a Monday | a Monday in January at 05:30 UTC (06:30 in Warsaw): the 07:00 run is 30 minutes ahead, but the next run is reported a week later | report the Monday run while it is still ahead of the clock | not executed | Scheduler.NextMondaySkipsPendingRun | Scheduler.NextMondayAfterIsNext |

`Scheduler.Schedule` is `getSchedule` built on the corrected functions;
`Scheduler.ScheduleAsWritten` is built on the as-written ones, `Scheduler.NextRun` and
`Scheduler.NextMonday`. `Scheduler.NextRunDivergence` and
`Scheduler.NextMondayDivergence` prove that the two versions differ exactly in these windows.
