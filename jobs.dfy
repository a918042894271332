/**
 * The four cron handlers. Each logs a start row, runs its candidate queries one after the
 * other, dispatches one message per candidate through the idempotent sender, counts the
 * messages sent and the failures, and logs a finish row.
 *
 * The `events` table is an input sequence and each query is its selection; a query that
 * throws is named by a `QueryFault`.
 */
module Jobs {
  import opened Wrappers
  import opened Text
  import opened JsDate
  import opened Timezone
  import opened Template
  import opened SmsSender

  const Studio := "Studio Tatuażu"
  const Unpaid := "niezapłacony"

  /**
   * A row of `events` with the columns the jobs read. A NULL phone is the empty string,
   * a NULL or zero `duration_minutes` or `deposit_amount` is 0.
   */
  datatype EventRow = EventRow(
    id: int,
    firstName: string,
    lastName: string,
    phone: string,
    eventTime: int,
    service: string,
    durationMinutes: int,
    depositAmount: int,
    depositDueDate: Option<int>,
    depositStatus: string)

  // ---------------------------------------------------------------------------------------
  // Candidate queries

  /** The `WHERE` clauses of the candidate queries. */
  datatype Query =
    | EventsBetween(start: int, end: int)
    | DepositsDueBetween(start: int, end: int)
    | DepositsDueBy(cutoff: int)
    | EventsAround(from: int, to: int)

  predicate Matches(q: Query, e: EventRow) {
    && e.phone != ""
    && match q
      case EventsBetween(s, t) => s <= e.eventTime < t
      case DepositsDueBetween(s, t) =>
        e.depositStatus == Unpaid && e.depositDueDate.Some? && s <= e.depositDueDate.value < t
      case DepositsDueBy(c) =>
        e.depositStatus == Unpaid && e.depositDueDate.Some? && e.depositDueDate.value <= c
      case EventsAround(f, t) => f <= e.eventTime <= t
  }

  /** The rows a query returns: exactly the matching rows. */
  function Select(events: seq<EventRow>, q: Query): (rows: seq<EventRow>)
    ensures forall e :: e in rows <==> e in events && Matches(q, e)
    ensures |rows| <= |events|
  {
    if events == [] then []
    else
      assert forall e :: e in events <==> e == events[0] || e in events[1..];
      (if Matches(q, events[0]) then [events[0]] else []) + Select(events[1..], q)
  }

  // ---------------------------------------------------------------------------------------
  // One message per candidate

  /** What a loop dispatches: a template at a fixed slot, or the post-service choice. */
  datatype BatchSpec =
    | Reminder(code: string, slot: int, prefix: string)
    | DepositReminder(code: string, slot: int, prefix: string)
    | Aftercare(now: int)

  function Label(spec: BatchSpec): string {
    if spec.Aftercare? then "Post-service SMS failed for " else spec.prefix
  }

  /** `event_time` plus `duration_minutes || 60`, by `setMinutes(getMinutes() + …)`. */
  function AppointmentEnd(e: EventRow): (t: int)
    ensures t == e.eventTime + (if e.durationMinutes == 0 then 60 else e.durationMinutes) * MsPerMinute
  {
    var minutes := if e.durationMinutes == 0 then 60 else e.durationMinutes;
    SetMinutesAddsMinutes(e.eventTime, minutes);
    SetMinutes(e.eventTime, MinutesOf(e.eventTime) + minutes)
  }

  /** Tattoo aftercare when the service names a tattoo, piercing aftercare otherwise. */
  function AftercareCode(service: string): string {
    var s := ToLower(service);
    if Contains(s, "tatuaż") || Contains(s, "tattoo") then "SMS_AFTER_TATTOO" else "SMS_AFTER_PIERCING"
  }

  /** The request a loop makes for a row, or `None` where the loop `continue`s. */
  function RequestFor(spec: BatchSpec, e: EventRow): Option<SmsRequest> {
    var clientId := Some(IntToString(e.id));
    match spec
    case Reminder(code, slot, _) =>
      if e.phone == "" then None
      else
        var vars := ReminderVars(e.firstName, FormatPolishDate(e.eventTime), FormatPolishTime(e.eventTime), Studio);
        Some(SmsRequest(e.phone, code, clientId, Some(slot), vars))
    case DepositReminder(code, slot, _) =>
      if e.phone == "" || e.depositAmount == 0 then None
      else
        var vars := DepositVars(e.firstName, FormatPolishDate(e.eventTime), FormatPolishTime(e.eventTime), Studio,
                                IntToString(e.depositAmount));
        Some(SmsRequest(e.phone, code, clientId, Some(slot), vars))
    case Aftercare(now) =>
      var sendTime := PostServiceSendTime(AppointmentEnd(e));
      if e.phone == "" || now < sendTime then None
      else Some(SmsRequest(e.phone, AftercareCode(e.service), clientId, Some(sendTime), AftercareVars(e.firstName, Studio)))
  }

  /**
   * Which rows make a request, and the request's number, template and slot: the loop's own
   * for reminders, the send time for aftercare.
   */
  lemma RequestForNamesSlot(spec: BatchSpec, e: EventRow)
    ensures RequestFor(spec, e).Some? <==>
      match spec
      case Reminder(_, _, _) => e.phone != ""
      case DepositReminder(_, _, _) => e.phone != "" && e.depositAmount != 0
      case Aftercare(now) => e.phone != "" && PostServiceSendTime(AppointmentEnd(e)) <= now
    ensures RequestFor(spec, e).Some? ==>
      var req := RequestFor(spec, e).value;
      && req.phone == e.phone && req.clientId == Some(IntToString(e.id))
      && match spec
        case Reminder(code, slot, _) => req.templateCode == code && req.scheduledFor == Some(slot)
        case DepositReminder(code, slot, _) => req.templateCode == code && req.scheduledFor == Some(slot)
        case Aftercare(_) =>
          req.templateCode == AftercareCode(e.service)
          && req.scheduledFor == Some(PostServiceSendTime(AppointmentEnd(e)))
  {
  }

  /** `${result.error}` in a template string. */
  function ErrorText(error: Option<string>): string {
    error.GetOr("undefined")
  }

  /** A job's running state: the store, `messagesSent`, `errors`, and the message of a thrown error. */
  datatype Progress = Progress(store: Store, sent: nat, errors: seq<string>, crash: Option<string>)

  /** The bookkeeping after a dispatch: count a fresh success, record a fresh failure. */
  function Tally(p: Progress, spec: BatchSpec, e: EventRow, r: SmsResult, st: Store): Progress {
    if r.success && !r.alreadySent then Progress(st, p.sent + 1, p.errors, p.crash)
    else if !r.success && !r.alreadySent then
      Progress(st, p.sent, p.errors + [Label(spec) + e.firstName + ": " + ErrorText(r.error)], p.crash)
    else Progress(st, p.sent, p.errors, p.crash)
  }

  /** One loop iteration: skip the row, or dispatch its request and tally the result. */
  function Step(p: Progress, spec: BatchSpec, e: EventRow, clock: int, at: Attempt): Progress {
    StepWith(p, spec, e, RequestFor(spec, e), clock, at)
  }

  /** One loop iteration once the row's request is known (`None`: the row is skipped). */
  function StepWith(p: Progress, spec: BatchSpec, e: EventRow, request: Option<SmsRequest>, clock: int, at: Attempt)
    : Progress
  {
    match request
    case None => p
    case Some(req) =>
      var d := DispatchIn(p.store, req, clock, at);
      Tally(p, spec, e, d.0, d.1)
  }

  /** The loop over the rows of query `q`; attempt `oracle(q, i)` answers the dispatch of row `i`. */
  function RunBatch(p: Progress, spec: BatchSpec, rows: seq<EventRow>, clock: int, q: nat,
                    oracle: (nat, nat) -> Attempt): Progress
    decreases |rows|
  {
    if rows == [] then p
    else
      var n := |rows| - 1;
      Step(RunBatch(p, spec, rows[..n], clock, q, oracle), spec, rows[n], clock, oracle(q, n))
  }

  /** A query that throws (the `catch` path), named by its position in the handler. */
  datatype QueryFault = QueryFault(query: nat, message: string)

  predicate Fails(fault: Option<QueryFault>, q: nat) {
    fault.Some? && fault.value.query == q
  }

  /** Query `q` and its loop, unless an earlier query has thrown. */
  function RunQuery(p: Progress, q: nat, fault: Option<QueryFault>, spec: BatchSpec, rows: seq<EventRow>,
                    clock: int, oracle: (nat, nat) -> Attempt): Progress
  {
    if p.crash.Some? then p
    else if Fails(fault, q) then p.(crash := Some(fault.value.message))
    else RunBatch(p, spec, rows, clock, q, oracle)
  }

  /** One pass of a loop's body once the row's request is known: skip, or dispatch and count the result. */
  method ProcessRow(b: Backend, spec: BatchSpec, event: EventRow, req: Option<SmsRequest>, clock: int, at: Attempt,
                    sent0: nat, errors0: seq<string>)
    returns (sent: nat, errors: seq<string>)
    modifies b
    ensures Progress(b.State(), sent, errors, None)
         == StepWith(Progress(old(b.State()), sent0, errors0, None), spec, event, req, clock, at)
  {
    sent, errors := sent0, errors0;
    if req.None? {
      return;
    }
    var result := b.SendIdempotentSms(req.value, clock, at);
    if result.success && !result.alreadySent {
      sent := sent + 1;
    } else if !result.success && !result.alreadySent {
      errors := errors + [Label(spec) + event.firstName + ": " + ErrorText(result.error)];
    }
  }

  /** The loop over a query's rows. */
  method ProcessBatch(b: Backend, spec: BatchSpec, rows: seq<EventRow>, clock: int, q: nat,
                      oracle: (nat, nat) -> Attempt, sent0: nat, errors0: seq<string>)
    returns (sent: nat, errors: seq<string>)
    modifies b
    ensures Progress(b.State(), sent, errors, None)
         == RunBatch(Progress(old(b.State()), sent0, errors0, None), spec, rows, clock, q, oracle)
  {
    sent, errors := sent0, errors0;
    for i := 0 to |rows|
      invariant Progress(b.State(), sent, errors, None)
             == RunBatch(Progress(old(b.State()), sent0, errors0, None), spec, rows[..i], clock, q, oracle)
    {
      assert rows[..i + 1][..i] == rows[..i];
      var req := RequestFor(spec, rows[i]);
      sent, errors := ProcessRow(b, spec, rows[i], req, clock, oracle(q, i), sent, errors);
    }
    assert rows[..|rows|] == rows;
  }

  /** The query of each loop and its rows as a method: `db.queryAll` then the loop, or the throw. */
  method RunQueryStep(b: Backend, q: nat, fault: Option<QueryFault>, spec: BatchSpec, rows: seq<EventRow>,
                      clock: int, oracle: (nat, nat) -> Attempt, sent0: nat, errors0: seq<string>, crash0: Option<string>)
    returns (sent: nat, errors: seq<string>, crash: Option<string>)
    modifies b
    ensures Progress(b.State(), sent, errors, crash)
         == RunQuery(Progress(old(b.State()), sent0, errors0, crash0), q, fault, spec, rows, clock, oracle)
  {
    sent, errors, crash := sent0, errors0, crash0;
    if crash.Some? {
      return;
    }
    if Fails(fault, q) {
      crash := Some(fault.value.message);
      return;
    }
    sent, errors := ProcessBatch(b, spec, rows, clock, q, oracle, sent, errors);
  }

  // ---------------------------------------------------------------------------------------
  // What a loop does to the store and the counters

  /** The frame of one loop iteration. */
  lemma StepBookkeeping(p: Progress, spec: BatchSpec, e: EventRow, clock: int, at: Attempt)
    ensures var f := Step(p, spec, e, clock, at);
      && f.crash == p.crash && f.store.cronRuns == p.store.cronRuns
      && p.errors <= f.errors && p.store.outbox <= f.store.outbox
      && p.sent <= f.sent <= p.sent + 1 && |p.errors| <= |f.errors| <= |p.errors| + 1
      && |f.store.outbox| <= |p.store.outbox| + 1
      && f.sent - p.sent <= |f.store.outbox| - |p.store.outbox|
      && (f.sent - p.sent) + (|f.errors| - |p.errors|) <= 1
      && (forall k :: k in p.store.smsHistory ==> k in f.store.smsHistory && f.store.smsHistory[k] == p.store.smsHistory[k])
  {
    match RequestFor(spec, e)
    case None =>
    case Some(req) =>
      DispatchFrame(p.store.smsHistory, req, clock, at);
  }

  /**
   * What a whole loop does: it keeps the crash state and the audit log, only appends to the
   * errors and to the gateway's log, keeps every ledger row it found, and counts a message
   * as sent only if one went to the gateway, with at most one message, success or error
   * per candidate.
   */
  lemma {:induction false} BatchBookkeeping(p: Progress, spec: BatchSpec, rows: seq<EventRow>, clock: int, q: nat,
                                            oracle: (nat, nat) -> Attempt)
    ensures var f := RunBatch(p, spec, rows, clock, q, oracle);
      && f.crash == p.crash && f.store.cronRuns == p.store.cronRuns
      && p.errors <= f.errors && p.store.outbox <= f.store.outbox && p.sent <= f.sent
      && f.sent - p.sent <= |f.store.outbox| - |p.store.outbox| <= |rows|
      && (f.sent - p.sent) + (|f.errors| - |p.errors|) <= |rows|
      && (forall k :: k in p.store.smsHistory ==> k in f.store.smsHistory && f.store.smsHistory[k] == p.store.smsHistory[k])
    decreases |rows|
  {
    if rows != [] {
      var n := |rows| - 1;
      var mid := RunBatch(p, spec, rows[..n], clock, q, oracle);
      BatchBookkeeping(p, spec, rows[..n], clock, q, oracle);
      StepBookkeeping(mid, spec, rows[n], clock, oracle(q, n));
    }
  }

  // ---------------------------------------------------------------------------------------
  // Which ledger rows a loop claims

  /** A key a loop may claim: a normalised number, with the loop's template and slot. */
  predicate KeyFits(spec: BatchSpec, k: SlotKey) {
    && |k.phone| >= 10 && k.phone[0] == '+'
    && match spec
      case Reminder(code, slot, _) => k.templateCode == code && k.scheduledFor == slot
      case DepositReminder(code, slot, _) => k.templateCode == code && k.scheduledFor == slot
      case Aftercare(now) =>
        k.scheduledFor <= now && (k.templateCode == "SMS_AFTER_TATTOO" || k.templateCode == "SMS_AFTER_PIERCING")
  }

  lemma StepKeys(p: Progress, spec: BatchSpec, e: EventRow, clock: int, at: Attempt)
    ensures var f := Step(p, spec, e, clock, at);
      forall k :: k in f.store.smsHistory && k !in p.store.smsHistory ==> KeyFits(spec, k)
  {
    RequestForNamesSlot(spec, e);
    StepWithKeys(p, spec, e, RequestFor(spec, e), clock, at);
  }

  /** A request with the loop's template and slot (for aftercare: a post-service template and a passed send time). */
  predicate RequestFits(spec: BatchSpec, req: SmsRequest) {
    match spec
    case Reminder(code, slot, _) => req.templateCode == code && req.scheduledFor == Some(slot)
    case DepositReminder(code, slot, _) => req.templateCode == code && req.scheduledFor == Some(slot)
    case Aftercare(now) =>
      && req.scheduledFor.Some? && req.scheduledFor.value <= now
      && (req.templateCode == "SMS_AFTER_TATTOO" || req.templateCode == "SMS_AFTER_PIERCING")
  }

  lemma StepWithKeys(p: Progress, spec: BatchSpec, e: EventRow, request: Option<SmsRequest>, clock: int, at: Attempt)
    requires request.Some? ==> RequestFits(spec, request.value)
    ensures var f := StepWith(p, spec, e, request, clock, at);
      forall k :: k in f.store.smsHistory && k !in p.store.smsHistory ==> KeyFits(spec, k)
  {
    match request
    case None =>
    case Some(req) =>
      DispatchFrame(p.store.smsHistory, req, clock, at);
  }

  /**
   * Every row a loop adds to the ledger is keyed by a normalised number, the loop's
   * template and the loop's slot; the post-service rows carry a send time that has passed.
   */
  lemma {:induction false} BatchKeys(p: Progress, spec: BatchSpec, rows: seq<EventRow>, clock: int, q: nat,
                                     oracle: (nat, nat) -> Attempt)
    ensures var f := RunBatch(p, spec, rows, clock, q, oracle);
      forall k :: k in f.store.smsHistory && k !in p.store.smsHistory ==> KeyFits(spec, k)
    decreases |rows|
  {
    if rows != [] {
      var n := |rows| - 1;
      var mid := RunBatch(p, spec, rows[..n], clock, q, oracle);
      BatchKeys(p, spec, rows[..n], clock, q, oracle);
      StepKeys(mid, spec, rows[n], clock, oracle(q, n));
    }
  }

  /** The ledger already holds the key of the row's request (or the row makes none that can be sent). */
  predicate Claimed(ledger: Ledger, spec: BatchSpec, e: EventRow, clock: int) {
    RequestClaimed(ledger, RequestFor(spec, e), clock)
  }

  predicate RequestClaimed(ledger: Ledger, request: Option<SmsRequest>, clock: int) {
    match request
    case None => true
    case Some(req) =>
      FormatPhoneNumber(req.phone).Some? ==> KeyOf(FormatPhoneNumber(req.phone).value, req, clock) in ledger
  }

  /** A claimed row changes nothing and is not counted as sent; at most an error is recorded. */
  lemma StepOnClaimed(p: Progress, spec: BatchSpec, e: EventRow, clock: int, at: Attempt)
    requires Claimed(p.store.smsHistory, spec, e, clock)
    ensures var f := Step(p, spec, e, clock, at);
      f.store == p.store && f.sent == p.sent
  {
    StepWithOnClaimed(p, spec, e, RequestFor(spec, e), clock, at);
  }

  lemma StepWithOnClaimed(p: Progress, spec: BatchSpec, e: EventRow, request: Option<SmsRequest>, clock: int,
                          at: Attempt)
    requires RequestClaimed(p.store.smsHistory, request, clock)
    ensures var f := StepWith(p, spec, e, request, clock, at);
      f.store == p.store && f.sent == p.sent
  {
    match request
    case None =>
    case Some(req) =>
      DispatchClaimedKey(p.store.smsHistory, req, clock, at);
      assert p.store.outbox + [] == p.store.outbox;
  }

  /**
   * A loop whose candidates are all claimed already sends nothing and leaves the store as
   * it was, whatever the database answers.
   */
  lemma {:induction false} BatchOnClaimed(p: Progress, spec: BatchSpec, rows: seq<EventRow>, clock: int, q: nat,
                                          oracle: (nat, nat) -> Attempt)
    requires forall i :: 0 <= i < |rows| ==> Claimed(p.store.smsHistory, spec, rows[i], clock)
    ensures var f := RunBatch(p, spec, rows, clock, q, oracle);
      f.store == p.store && f.sent == p.sent
    decreases |rows|
  {
    if rows != [] {
      var n := |rows| - 1;
      var mid := RunBatch(p, spec, rows[..n], clock, q, oracle);
      assert forall i :: 0 <= i < n ==> rows[..n][i] == rows[i];
      BatchOnClaimed(p, spec, rows[..n], clock, q, oracle);
      StepOnClaimed(mid, spec, rows[n], clock, oracle(q, n));
    }
  }

  /** Claims survive any later step, because no row is ever removed. */
  lemma ClaimedGrows(small: Ledger, large: Ledger, spec: BatchSpec, e: EventRow, clock: int)
    requires Claimed(small, spec, e, clock) && forall k :: k in small ==> k in large
    ensures Claimed(large, spec, e, clock)
  {
  }

  lemma ClaimsPersist(small: Ledger, large: Ledger, spec: BatchSpec, rows: seq<EventRow>, clock: int)
    requires forall i :: 0 <= i < |rows| ==> Claimed(small, spec, rows[i], clock)
    requires forall k :: k in small ==> k in large
    ensures forall i :: 0 <= i < |rows| ==> Claimed(large, spec, rows[i], clock)
  {
    forall i | 0 <= i < |rows| {
      ClaimedGrows(small, large, spec, rows[i], clock);
    }
  }

  /** A dispatch whose lookup and claim go through leaves the row claimed. */
  lemma StepClaims(p: Progress, spec: BatchSpec, e: EventRow, clock: int, at: Attempt)
    requires at.lookup.Done? && at.insert.Inserted?
    ensures Claimed(Step(p, spec, e, clock, at).store.smsHistory, spec, e, clock)
  {
    StepWithClaims(p, spec, e, RequestFor(spec, e), clock, at);
  }

  lemma StepWithClaims(p: Progress, spec: BatchSpec, e: EventRow, request: Option<SmsRequest>, clock: int,
                       at: Attempt)
    requires at.lookup.Done? && at.insert.Inserted?
    ensures RequestClaimed(StepWith(p, spec, e, request, clock, at).store.smsHistory, request, clock)
  {
    match request
    case None =>
    case Some(req) =>
      if FormatPhoneNumber(req.phone).Some? && KeyOf(FormatPhoneNumber(req.phone).value, req, clock) !in p.store.smsHistory {
        DispatchFreshKey(p.store.smsHistory, req, clock, at);
      } else {
        DispatchFrame(p.store.smsHistory, req, clock, at);
      }
  }

  /** No step removes a ledger row. */
  lemma StepKeepsKeys(p: Progress, spec: BatchSpec, e: EventRow, clock: int, at: Attempt)
    ensures forall k :: k in p.store.smsHistory ==> k in Step(p, spec, e, clock, at).store.smsHistory
  {
    StepBookkeeping(p, spec, e, clock, at);
  }

  /** A loop whose lookups and claims all go through leaves every candidate claimed. */
  lemma {:induction false} BatchClaims(p: Progress, spec: BatchSpec, rows: seq<EventRow>, clock: int, q: nat,
                                       oracle: (nat, nat) -> Attempt)
    requires forall i :: 0 <= i < |rows| ==> oracle(q, i).lookup.Done? && oracle(q, i).insert.Inserted?
    ensures var f := RunBatch(p, spec, rows, clock, q, oracle);
      forall i :: 0 <= i < |rows| ==> Claimed(f.store.smsHistory, spec, rows[i], clock)
    decreases |rows|
  {
    if rows != [] {
      var n := |rows| - 1;
      var mid := RunBatch(p, spec, rows[..n], clock, q, oracle);
      var f := Step(mid, spec, rows[n], clock, oracle(q, n));
      assert f == RunBatch(p, spec, rows, clock, q, oracle);
      BatchClaims(p, spec, rows[..n], clock, q, oracle);
      StepKeepsKeys(mid, spec, rows[n], clock, oracle(q, n));
      StepClaims(mid, spec, rows[n], clock, oracle(q, n));
      ClaimsPersist(mid.store.smsHistory, f.store.smsHistory, spec, rows[..n], clock);
      forall i | 0 <= i < |rows|
        ensures Claimed(f.store.smsHistory, spec, rows[i], clock)
      {
        if i < n {
          assert rows[..n][i] == rows[i];
        } else {
          assert i == n;
        }
      }
    }
  }

  /**
   * Running the same loop again over the same rows sends nothing and changes nothing:
   * each candidate's key was claimed by the first run.
   */
  lemma BatchRerun(p: Progress, spec: BatchSpec, rows: seq<EventRow>, clock: int, q: nat,
                   first: (nat, nat) -> Attempt, second: (nat, nat) -> Attempt)
    requires forall i :: 0 <= i < |rows| ==> first(q, i).lookup.Done? && first(q, i).insert.Inserted?
    ensures var f1 := RunBatch(p, spec, rows, clock, q, first);
      var f2 := RunBatch(f1, spec, rows, clock, q, second);
      f2.store == f1.store && f2.sent == f1.sent
  {
    BatchClaims(p, spec, rows, clock, q, first);
    BatchOnClaimed(RunBatch(p, spec, rows, clock, q, first), spec, rows, clock, q, second);
  }

  // ---------------------------------------------------------------------------------------
  // The handlers

  /** A `logCronRun` call: the row id it generates and how the insert answers. */
  datatype LogWrite = LogWrite(id: string, reply: StoreReply)

  /**
   * What the outside world answers during one run of a handler: the two audit writes, the
   * query that throws (if any), and the attempt for each dispatch.
   */
  datatype JobEnv = JobEnv(startLog: LogWrite, finishLog: LogWrite, fault: Option<QueryFault>,
                           attempt: (nat, nat) -> Attempt)

  /** `CronJobResponse`; `executedAt` is the instant `now` itself. */
  datatype CronJobResponse = CronJobResponse(success: bool, jobName: string, executedAt: int, messagesSent: nat,
                                             errors: seq<string>)

  /** A handler's name and the fixed texts it logs. */
  datatype Handler = Handler(name: string, startDetails: string, failPrefix: string)

  const AppointmentHandler := Handler("appointment-reminders", "Started appointment reminders job",
                                      "Appointment reminders job failed: ")
  const DepositHandler := Handler("deposit-reminders", "Started deposit reminders job",
                                  "Deposit reminders job failed: ")
  const PostServiceHandler := Handler("post-service-reminders", "Started post-service reminders job",
                                      "Post-service reminders job failed: ")
  const ClientRefreshHandler := Handler("client-status-refresh", "Started client status refresh job",
                                        "Client status refresh job failed: ")

  /** One query of a handler and the loop over its rows. */
  datatype Batch = Batch(spec: BatchSpec, query: Query)

  /** The D-2, D-1 and D-0 loops, each over its day window with the window start as slot. */
  function AppointmentBatches(now: int): seq<Batch> {
    var w := AppointmentReminderWindows(now);
    [ Batch(Reminder("SMS_D2", w.d2.start, "D2 SMS failed for "), EventsBetween(w.d2.start, w.d2.end)),
      Batch(Reminder("SMS_D1", w.d1.start, "D1 SMS failed for "), EventsBetween(w.d1.start, w.d1.end)),
      Batch(Reminder("SMS_D0", w.d0.start, "D0 SMS failed for "), EventsBetween(w.d0.start, w.d0.end)) ]
  }

  /** 23:59:59.999 three days before `now`, by `setDate(getDate() - 3)` and `setHours`. */
  function ThreeDaysAgo(now: int): int {
    SetHours(SetDate(now, DateOf(now) - 3), 23, 59, 59, 999)
  }

  /** The overdue-deposit loop: its slot is `now` itself. */
  function DepositAfterSpec(now: int): BatchSpec {
    DepositReminder("SMS_DEPOSIT_AFTER", now, "Deposit AFTER SMS failed for ")
  }

  /** The deposit loops: due tomorrow (slot: the window start), and overdue (slot: `now`). */
  function DepositBatches(now: int): seq<Batch> {
    var w := DepositReminderWindows(now);
    [ Batch(DepositReminder("SMS_DEPOSIT_BEFORE", w.before.start, "Deposit BEFORE SMS failed for "),
            DepositsDueBetween(w.before.start, w.before.end)),
      Batch(DepositAfterSpec(now), DepositsDueBy(ThreeDaysAgo(now))) ]
  }

  /** The post-service loop over events from yesterday 00:00 to today 23:59:59.999. */
  function PostServiceBatches(now: int): seq<Batch> {
    var yesterday := SetHours(SetDate(now, DateOf(now) - 1), 0, 0, 0, 0);
    var todayEnd := SetHours(now, 23, 59, 59, 999);
    [ Batch(Aftercare(now), EventsAround(yesterday, todayEnd)) ]
  }

  /** The handler's state after its start row. */
  function Begin(st: Store, h: Handler, now: int, log: LogWrite): Progress {
    Progress(LogIn(st, CronRun(log.id, h.name, now, true, h.startDetails), log.reply), 0, [], None)
  }

  /** The queries in order, query `n` being the `n`-th batch. */
  function RunBatches(p: Progress, batches: seq<Batch>, events: seq<EventRow>, clock: int, fault: Option<QueryFault>,
                      oracle: (nat, nat) -> Attempt): Progress
    decreases |batches|
  {
    if batches == [] then p
    else
      var n := |batches| - 1;
      RunQuery(RunBatches(p, batches[..n], events, clock, fault, oracle), n, fault, batches[n].spec,
               Select(events, batches[n].query), clock, oracle)
  }

  /** The queries of `batches + [b]` are those of `batches`, then that of `b`. */
  lemma RunBatchesSnoc(p: Progress, batches: seq<Batch>, b: Batch, events: seq<EventRow>, clock: int,
                       fault: Option<QueryFault>, oracle: (nat, nat) -> Attempt)
    ensures RunBatches(p, batches + [b], events, clock, fault, oracle)
         == RunQuery(RunBatches(p, batches, events, clock, fault, oracle), |batches|, fault, b.spec,
                     Select(events, b.query), clock, oracle)
  {
    assert (batches + [b])[..|batches|] == batches;
  }

  /** Three queries in order. */
  lemma RunThreeBatches(p: Progress, b0: Batch, b1: Batch, b2: Batch, events: seq<EventRow>, clock: int,
                        fault: Option<QueryFault>, oracle: (nat, nat) -> Attempt)
    ensures RunBatches(p, [b0, b1, b2], events, clock, fault, oracle)
         == RunQuery(RunQuery(RunQuery(p, 0, fault, b0.spec, Select(events, b0.query), clock, oracle),
                              1, fault, b1.spec, Select(events, b1.query), clock, oracle),
                     2, fault, b2.spec, Select(events, b2.query), clock, oracle)
  {
    RunBatchesSnoc(p, [], b0, events, clock, fault, oracle);
    RunBatchesSnoc(p, [b0], b1, events, clock, fault, oracle);
    RunBatchesSnoc(p, [b0, b1], b2, events, clock, fault, oracle);
    assert [] + [b0] == [b0] && [b0] + [b1] == [b0, b1] && [b0, b1] + [b2] == [b0, b1, b2];
  }

  /** Two queries in order. */
  lemma RunTwoBatches(p: Progress, b0: Batch, b1: Batch, events: seq<EventRow>, clock: int,
                      fault: Option<QueryFault>, oracle: (nat, nat) -> Attempt)
    ensures RunBatches(p, [b0, b1], events, clock, fault, oracle)
         == RunQuery(RunQuery(p, 0, fault, b0.spec, Select(events, b0.query), clock, oracle),
                     1, fault, b1.spec, Select(events, b1.query), clock, oracle)
  {
    RunBatchesSnoc(p, [], b0, events, clock, fault, oracle);
    RunBatchesSnoc(p, [b0], b1, events, clock, fault, oracle);
    assert [] + [b0] == [b0] && [b0] + [b1] == [b0, b1];
  }

  /** The finish row and the response: the summary, or the `catch` path. */
  function Finish(p: Progress, h: Handler, now: int, log: LogWrite): (Store, CronJobResponse) {
    match p.crash
    case Some(m) =>
      var errorMsg := h.failPrefix + m;
      (LogIn(p.store, CronRun(log.id, h.name, now, false, errorMsg), log.reply),
       CronJobResponse(false, h.name, now, p.sent, [errorMsg]))
    case None =>
      var ok := |p.errors| == 0;
      var details := "Sent " + NatToString(p.sent) + " messages, " + NatToString(|p.errors|) + " errors";
      (LogIn(p.store, CronRun(log.id, h.name, now, ok, details), log.reply),
       CronJobResponse(ok, h.name, now, p.sent, p.errors))
  }

  /** A whole run of a handler that dispatches: start row, the batches, finish row. */
  function Job(st: Store, h: Handler, now: int, batches: seq<Batch>, events: seq<EventRow>, clock: int,
               env: JobEnv): (Store, CronJobResponse)
  {
    Finish(RunBatches(Begin(st, h, now, env.startLog), batches, events, clock, env.fault, env.attempt), h, now,
           env.finishLog)
  }

  /** The finish row and the response, as the handlers write them. */
  method FinishJob(b: Backend, h: Handler, now: int, log: LogWrite, sent: nat, errors: seq<string>,
                   crash: Option<string>)
    returns (response: CronJobResponse)
    modifies b
    ensures (b.State(), response) == Finish(Progress(old(b.State()), sent, errors, crash), h, now, log)
  {
    if crash.Some? {
      var errorMsg := h.failPrefix + crash.value;
      b.LogCronRun(h.name, now, false, errorMsg, log.id, log.reply);
      response := CronJobResponse(false, h.name, now, sent, [errorMsg]);
    } else {
      var details := "Sent " + NatToString(sent) + " messages, " + NatToString(|errors|) + " errors";
      b.LogCronRun(h.name, now, |errors| == 0, details, log.id, log.reply);
      response := CronJobResponse(|errors| == 0, h.name, now, sent, errors);
    }
  }

  /** `appointmentReminders`: D-2, D-1 and D-0 reminders. */
  method AppointmentReminders(b: Backend, clock: int, events: seq<EventRow>, env: JobEnv)
    returns (response: CronJobResponse)
    modifies b
    ensures var now := NowInWarsaw(clock);
      (b.State(), response) == Job(old(b.State()), AppointmentHandler, now, AppointmentBatches(now), events, clock, env)
  {
    var h := AppointmentHandler;
    var now := NowInWarsaw(clock);
    b.LogCronRun(h.name, now, true, h.startDetails, env.startLog.id, env.startLog.reply);
    ghost var p0 := Begin(old(b.State()), h, now, env.startLog);
    assert Progress(b.State(), 0, [], None) == p0;
    var batches := AppointmentBatches(now);
    var sent: nat, errors: seq<string>, crash: Option<string> := 0, [], None;
    sent, errors, crash := RunQueryStep(b, 0, env.fault, batches[0].spec, Select(events, batches[0].query), clock,
                                        env.attempt, sent, errors, crash);
    sent, errors, crash := RunQueryStep(b, 1, env.fault, batches[1].spec, Select(events, batches[1].query), clock,
                                        env.attempt, sent, errors, crash);
    sent, errors, crash := RunQueryStep(b, 2, env.fault, batches[2].spec, Select(events, batches[2].query), clock,
                                        env.attempt, sent, errors, crash);
    RunThreeBatches(p0, batches[0], batches[1], batches[2], events, clock, env.fault, env.attempt);
    assert [batches[0], batches[1], batches[2]] == batches;
    response := FinishJob(b, h, now, env.finishLog, sent, errors, crash);
  }

  /** `depositReminders`: reminders before the due date and after it. */
  method DepositReminders(b: Backend, clock: int, events: seq<EventRow>, env: JobEnv)
    returns (response: CronJobResponse)
    modifies b
    ensures var now := NowInWarsaw(clock);
      (b.State(), response) == Job(old(b.State()), DepositHandler, now, DepositBatches(now), events, clock, env)
  {
    var h := DepositHandler;
    var now := NowInWarsaw(clock);
    b.LogCronRun(h.name, now, true, h.startDetails, env.startLog.id, env.startLog.reply);
    ghost var p0 := Begin(old(b.State()), h, now, env.startLog);
    assert Progress(b.State(), 0, [], None) == p0;
    var batches := DepositBatches(now);
    var sent: nat, errors: seq<string>, crash: Option<string> := 0, [], None;
    sent, errors, crash := RunQueryStep(b, 0, env.fault, batches[0].spec, Select(events, batches[0].query), clock,
                                        env.attempt, sent, errors, crash);
    sent, errors, crash := RunQueryStep(b, 1, env.fault, batches[1].spec, Select(events, batches[1].query), clock,
                                        env.attempt, sent, errors, crash);
    RunTwoBatches(p0, batches[0], batches[1], events, clock, env.fault, env.attempt);
    assert [batches[0], batches[1]] == batches;
    response := FinishJob(b, h, now, env.finishLog, sent, errors, crash);
  }

  /** `postServiceReminders`: aftercare messages once their send time has come. */
  method PostServiceReminders(b: Backend, clock: int, events: seq<EventRow>, env: JobEnv)
    returns (response: CronJobResponse)
    modifies b
    ensures var now := NowInWarsaw(clock);
      (b.State(), response) == Job(old(b.State()), PostServiceHandler, now, PostServiceBatches(now), events, clock, env)
  {
    var h := PostServiceHandler;
    var now := NowInWarsaw(clock);
    b.LogCronRun(h.name, now, true, h.startDetails, env.startLog.id, env.startLog.reply);
    ghost var p0 := Begin(old(b.State()), h, now, env.startLog);
    assert Progress(b.State(), 0, [], None) == p0;
    var batches := PostServiceBatches(now);
    var sent: nat, errors: seq<string>, crash: Option<string> := 0, [], None;
    sent, errors, crash := RunQueryStep(b, 0, env.fault, batches[0].spec, Select(events, batches[0].query), clock,
                                        env.attempt, sent, errors, crash);
    RunBatchesSnoc(p0, [], batches[0], events, clock, env.fault, env.attempt);
    assert [] + [batches[0]] == batches;
    response := FinishJob(b, h, now, env.finishLog, sent, errors, crash);
  }

  /**
   * `clientStatusRefresh`: counts the clients (a NULL count is 0) and logs the count, or
   * logs the failure when the count query throws; it dispatches nothing.
   */
  function ClientRefreshJob(st: Store, now: int, clientCount: nat, env: JobEnv): (Store, CronJobResponse) {
    var h := ClientRefreshHandler;
    var p0 := Begin(st, h, now, env.startLog);
    if Fails(env.fault, 0) then
      var errorMsg := h.failPrefix + env.fault.value.message;
      (LogIn(p0.store, CronRun(env.finishLog.id, h.name, now, false, errorMsg), env.finishLog.reply),
       CronJobResponse(false, h.name, now, 0, [errorMsg]))
    else
      var message := "Client status refresh completed for " + NatToString(clientCount) + " clients";
      (LogIn(p0.store, CronRun(env.finishLog.id, h.name, now, true, message), env.finishLog.reply),
       CronJobResponse(true, h.name, now, 0, []))
  }

  method ClientStatusRefresh(b: Backend, clock: int, clientCount: nat, env: JobEnv) returns (response: CronJobResponse)
    modifies b
    ensures (b.State(), response) == ClientRefreshJob(old(b.State()), NowInWarsaw(clock), clientCount, env)
  {
    var h := ClientRefreshHandler;
    var now := NowInWarsaw(clock);
    b.LogCronRun(h.name, now, true, h.startDetails, env.startLog.id, env.startLog.reply);
    if Fails(env.fault, 0) {
      var errorMsg := h.failPrefix + env.fault.value.message;
      b.LogCronRun(h.name, now, false, errorMsg, env.finishLog.id, env.finishLog.reply);
      response := CronJobResponse(false, h.name, now, 0, [errorMsg]);
    } else {
      var message := "Client status refresh completed for " + NatToString(clientCount) + " clients";
      b.LogCronRun(h.name, now, true, message, env.finishLog.id, env.finishLog.reply);
      response := CronJobResponse(true, h.name, now, 0, []);
    }
  }

  // ---------------------------------------------------------------------------------------
  // What a run of a handler guarantees

  /**
   * The response rule: `success` exactly when `errors` is empty; on the `catch` path the
   * errors are exactly the prefixed message, and the count reached so far is kept; the
   * finish row records the same verdict at `now`, and nothing else changes.
   */
  lemma FinishResponse(p: Progress, h: Handler, now: int, log: LogWrite)
    ensures var (st, r) := Finish(p, h, now, log);
      && r.jobName == h.name && r.executedAt == now && r.messagesSent == p.sent
      && (r.success <==> r.errors == [])
      && (p.crash.Some? ==> !r.success && r.errors == [h.failPrefix + p.crash.value])
      && (p.crash.None? ==> r.errors == p.errors)
      && st.smsHistory == p.store.smsHistory && st.outbox == p.store.outbox
      && (log.reply.Done? ==>
            && |st.cronRuns| == |p.store.cronRuns| + 1 && st.cronRuns[..|p.store.cronRuns|] == p.store.cronRuns
            && var run := st.cronRuns[|p.store.cronRuns|];
            run.jobName == h.name && run.plannedAt == now && run.ok == r.success && run.id == log.id)
      && (log.reply.Fault? ==> st.cronRuns == p.store.cronRuns)
  {
  }

  /** What one query and its loop do to the store and the counters. */
  lemma QueryFrame(p: Progress, q: nat, fault: Option<QueryFault>, spec: BatchSpec, rows: seq<EventRow>,
                   clock: int, oracle: (nat, nat) -> Attempt)
    ensures var f := RunQuery(p, q, fault, spec, rows, clock, oracle);
      && f.store.cronRuns == p.store.cronRuns
      && p.errors <= f.errors && p.store.outbox <= f.store.outbox && p.sent <= f.sent
      && f.sent - p.sent <= |f.store.outbox| - |p.store.outbox|
      && (forall k :: k in p.store.smsHistory ==> k in f.store.smsHistory && f.store.smsHistory[k] == p.store.smsHistory[k])
      && (forall k :: k in f.store.smsHistory && k !in p.store.smsHistory ==> KeyFits(spec, k))
      && f.crash == (if p.crash.Some? then p.crash else if Fails(fault, q) then Some(fault.value.message) else None)
  {
    if p.crash.None? && !Fails(fault, q) {
      BatchBookkeeping(p, spec, rows, clock, q, oracle);
      BatchKeys(p, spec, rows, clock, q, oracle);
    }
  }

  /**
   * What the queries of a handler do together: the audit log is untouched, errors and the
   * gateway log are only appended to, every counted message went to the gateway, no ledger
   * row changes, and every new row belongs to one of the loops.
   */
  lemma {:induction false} BatchesFrame(p: Progress, batches: seq<Batch>, events: seq<EventRow>, clock: int,
                                        fault: Option<QueryFault>, oracle: (nat, nat) -> Attempt)
    ensures var f := RunBatches(p, batches, events, clock, fault, oracle);
      && f.store.cronRuns == p.store.cronRuns
      && p.errors <= f.errors && p.store.outbox <= f.store.outbox && p.sent <= f.sent
      && f.sent - p.sent <= |f.store.outbox| - |p.store.outbox|
      && (forall k :: k in p.store.smsHistory ==> k in f.store.smsHistory && f.store.smsHistory[k] == p.store.smsHistory[k])
      && (forall k :: k in f.store.smsHistory && k !in p.store.smsHistory ==>
            exists j :: 0 <= j < |batches| && KeyFits(batches[j].spec, k))
    decreases |batches|
  {
    if batches != [] {
      var n := |batches| - 1;
      var mid := RunBatches(p, batches[..n], events, clock, fault, oracle);
      var f := RunQuery(mid, n, fault, batches[n].spec, Select(events, batches[n].query), clock, oracle);
      BatchesFrame(p, batches[..n], events, clock, fault, oracle);
      QueryFrame(mid, n, fault, batches[n].spec, Select(events, batches[n].query), clock, oracle);
      forall k | k in f.store.smsHistory && k !in p.store.smsHistory
        ensures exists j :: 0 <= j < |batches| && KeyFits(batches[j].spec, k)
      {
        if k in mid.store.smsHistory {
          var j :| 0 <= j < n && KeyFits(batches[..n][j].spec, k);
          assert batches[..n][j] == batches[j];
        } else {
          assert KeyFits(batches[n].spec, k);
        }
      }
    }
  }

  /** A handler fails over exactly when one of its queries throws, with that query's message. */
  lemma {:induction false} BatchesCrash(p: Progress, batches: seq<Batch>, events: seq<EventRow>, clock: int,
                                        fault: Option<QueryFault>, oracle: (nat, nat) -> Attempt)
    requires p.crash.None?
    ensures var f := RunBatches(p, batches, events, clock, fault, oracle);
      && (f.crash.Some? <==> fault.Some? && fault.value.query < |batches|)
      && (f.crash.Some? ==> f.crash == Some(fault.value.message))
    decreases |batches|
  {
    if batches != [] {
      var n := |batches| - 1;
      var mid := RunBatches(p, batches[..n], events, clock, fault, oracle);
      BatchesCrash(p, batches[..n], events, clock, fault, oracle);
      if mid.crash.None? && !Fails(fault, n) {
        BatchKeepsCrash(mid, batches[n].spec, Select(events, batches[n].query), clock, n, oracle);
      }
    }
  }

  /** A loop never throws: whatever the dispatches answer, the crash state stays as it was. */
  lemma {:induction false} BatchKeepsCrash(p: Progress, spec: BatchSpec, rows: seq<EventRow>, clock: int, q: nat,
                                           oracle: (nat, nat) -> Attempt)
    ensures RunBatch(p, spec, rows, clock, q, oracle).crash == p.crash
    decreases |rows|
  {
    if rows != [] {
      BatchKeepsCrash(p, spec, rows[..|rows| - 1], clock, q, oracle);
    }
  }

  /**
   * A run of a handler: the response rule, one start row and one finish row at `now` (when
   * both writes succeed), the ledger rows it found unchanged, every counted message sent to
   * the gateway, and every new ledger row belonging to one of its loops.
   */
  lemma JobOutcome(st: Store, h: Handler, now: int, batches: seq<Batch>, events: seq<EventRow>, clock: int, env: JobEnv)
    ensures var (st2, r) := Job(st, h, now, batches, events, clock, env);
      && r.jobName == h.name && r.executedAt == now
      && (r.success <==> r.errors == [])
      && (env.fault.Some? && env.fault.value.query < |batches| ==>
            !r.success && r.errors == [h.failPrefix + env.fault.value.message])
      && st.outbox <= st2.outbox && r.messagesSent <= |st2.outbox| - |st.outbox|
      && (forall k :: k in st.smsHistory ==> k in st2.smsHistory && st2.smsHistory[k] == st.smsHistory[k])
      && (forall k :: k in st2.smsHistory && k !in st.smsHistory ==>
            exists j :: 0 <= j < |batches| && KeyFits(batches[j].spec, k))
      && (env.startLog.reply.Done? && env.finishLog.reply.Done? ==>
            && |st2.cronRuns| == |st.cronRuns| + 2 && st2.cronRuns[..|st.cronRuns|] == st.cronRuns
            && st2.cronRuns[|st.cronRuns|] == CronRun(env.startLog.id, h.name, now, true, h.startDetails)
            && var last := st2.cronRuns[|st.cronRuns| + 1];
            last.id == env.finishLog.id && last.jobName == h.name && last.plannedAt == now && last.ok == r.success)
  {
    var p0 := Begin(st, h, now, env.startLog);
    var f := RunBatches(p0, batches, events, clock, env.fault, env.attempt);
    BatchesFrame(p0, batches, events, clock, env.fault, env.attempt);
    BatchesCrash(p0, batches, events, clock, env.fault, env.attempt);
    FinishResponse(f, h, now, env.finishLog);
  }

  /** The rows a run of a handler with three loops adds belong to one of them. */
  lemma JobNewKeys(st: Store, h: Handler, now: int, batches: seq<Batch>, events: seq<EventRow>, clock: int,
                   env: JobEnv, k: SlotKey)
    requires k in Job(st, h, now, batches, events, clock, env).0.smsHistory && k !in st.smsHistory
    ensures exists j :: 0 <= j < |batches| && KeyFits(batches[j].spec, k)
  {
    JobOutcome(st, h, now, batches, events, clock, env);
  }

  /** A key that fits one of three loops fits the first, the second or the third. */
  lemma FitsOneOfThree(batches: seq<Batch>, k: SlotKey)
    requires |batches| == 3 && exists j :: 0 <= j < |batches| && KeyFits(batches[j].spec, k)
    ensures KeyFits(batches[0].spec, k) || KeyFits(batches[1].spec, k) || KeyFits(batches[2].spec, k)
  {
  }

  /** A key that fits the only loop fits it. */
  lemma FitsTheOnlyOne(batches: seq<Batch>, k: SlotKey)
    requires |batches| == 1 && exists j :: 0 <= j < |batches| && KeyFits(batches[j].spec, k)
    ensures KeyFits(batches[0].spec, k)
  {
  }

  /** A key that fits one of two loops fits the first or the second. */
  lemma FitsOneOfTwo(batches: seq<Batch>, k: SlotKey)
    requires |batches| == 2 && exists j :: 0 <= j < |batches| && KeyFits(batches[j].spec, k)
    ensures KeyFits(batches[0].spec, k) || KeyFits(batches[1].spec, k)
  {
  }

  /** Every appointment reminder is claimed under one of the three windows' codes and starts. */
  lemma AppointmentJobKeys(st: Store, clock: int, events: seq<EventRow>, env: JobEnv)
    ensures var now := NowInWarsaw(clock);
      var w := AppointmentReminderWindows(now);
      var (st2, _) := Job(st, AppointmentHandler, now, AppointmentBatches(now), events, clock, env);
      forall k :: k in st2.smsHistory && k !in st.smsHistory ==>
        || (k.templateCode == "SMS_D2" && k.scheduledFor == w.d2.start)
        || (k.templateCode == "SMS_D1" && k.scheduledFor == w.d1.start)
        || (k.templateCode == "SMS_D0" && k.scheduledFor == w.d0.start)
  {
    var now := NowInWarsaw(clock);
    var w := AppointmentReminderWindows(now);
    var batches := AppointmentBatches(now);
    var r := Job(st, AppointmentHandler, now, batches, events, clock, env);
    forall k | k in r.0.smsHistory && k !in st.smsHistory
      ensures || (k.templateCode == "SMS_D2" && k.scheduledFor == w.d2.start)
              || (k.templateCode == "SMS_D1" && k.scheduledFor == w.d1.start)
              || (k.templateCode == "SMS_D0" && k.scheduledFor == w.d0.start)
    {
      JobNewKeys(st, AppointmentHandler, now, batches, events, clock, env, k);
      FitsOneOfThree(batches, k);
    }
  }

  /** Deposit reminders are claimed under the "before" window's start or under `now`. */
  lemma DepositJobKeys(st: Store, clock: int, events: seq<EventRow>, env: JobEnv)
    ensures var now := NowInWarsaw(clock);
      var w := DepositReminderWindows(now);
      var (st2, _) := Job(st, DepositHandler, now, DepositBatches(now), events, clock, env);
      forall k :: k in st2.smsHistory && k !in st.smsHistory ==>
        || (k.templateCode == "SMS_DEPOSIT_BEFORE" && k.scheduledFor == w.before.start)
        || (k.templateCode == "SMS_DEPOSIT_AFTER" && k.scheduledFor == now)
  {
    var now := NowInWarsaw(clock);
    var w := DepositReminderWindows(now);
    var batches := DepositBatches(now);
    var r := Job(st, DepositHandler, now, batches, events, clock, env);
    forall k | k in r.0.smsHistory && k !in st.smsHistory
      ensures || (k.templateCode == "SMS_DEPOSIT_BEFORE" && k.scheduledFor == w.before.start)
              || (k.templateCode == "SMS_DEPOSIT_AFTER" && k.scheduledFor == now)
    {
      JobNewKeys(st, DepositHandler, now, batches, events, clock, env, k);
      FitsOneOfTwo(batches, k);
    }
  }

  /** Aftercare messages are claimed under an aftercare template at a send time already reached. */
  lemma PostServiceJobKeys(st: Store, clock: int, events: seq<EventRow>, env: JobEnv)
    ensures var now := NowInWarsaw(clock);
      var (st2, _) := Job(st, PostServiceHandler, now, PostServiceBatches(now), events, clock, env);
      forall k :: k in st2.smsHistory && k !in st.smsHistory ==>
        && (k.templateCode == "SMS_AFTER_TATTOO" || k.templateCode == "SMS_AFTER_PIERCING")
        && k.scheduledFor <= now
  {
    var now := NowInWarsaw(clock);
    var batches := PostServiceBatches(now);
    var r := Job(st, PostServiceHandler, now, batches, events, clock, env);
    forall k | k in r.0.smsHistory && k !in st.smsHistory
      ensures && (k.templateCode == "SMS_AFTER_TATTOO" || k.templateCode == "SMS_AFTER_PIERCING")
              && k.scheduledFor <= now
    {
      JobNewKeys(st, PostServiceHandler, now, batches, events, clock, env, k);
      FitsTheOnlyOne(batches, k);
    }
  }

  /** `clientStatusRefresh` sends nothing, counts nothing, and fails exactly when its query throws. */
  lemma ClientRefreshNeverDispatches(st: Store, now: int, clientCount: nat, env: JobEnv)
    ensures var (st2, r) := ClientRefreshJob(st, now, clientCount, env);
      && st2.smsHistory == st.smsHistory && st2.outbox == st.outbox && r.messagesSent == 0
      && (r.success <==> !Fails(env.fault, 0)) && (r.success <==> r.errors == [])
      && (env.startLog.reply.Done? && env.finishLog.reply.Done? ==>
            |st2.cronRuns| == |st.cronRuns| + 2 && st2.cronRuns[|st.cronRuns| + 1].ok == r.success)
  {
  }

  // ---------------------------------------------------------------------------------------
  // Running a handler again

  /** Every candidate of the loop is claimed in the ledger. */
  predicate BatchClaimed(ledger: Ledger, b: Batch, events: seq<EventRow>, clock: int) {
    var rows := Select(events, b.query);
    forall i :: 0 <= i < |rows| ==> Claimed(ledger, b.spec, rows[i], clock)
  }

  /** Every candidate of every loop is claimed in the ledger. */
  predicate AllClaimed(ledger: Ledger, batches: seq<Batch>, events: seq<EventRow>, clock: int) {
    forall j :: 0 <= j < |batches| ==> BatchClaimed(ledger, batches[j], events, clock)
  }

  /** The reading of the clock plays no part in a claim: every request names its slot. */
  lemma ClaimedAnyClock(ledger: Ledger, spec: BatchSpec, e: EventRow, clock1: int, clock2: int)
    ensures Claimed(ledger, spec, e, clock1) == Claimed(ledger, spec, e, clock2)
  {
  }

  lemma AllClaimedAnyClock(ledger: Ledger, batches: seq<Batch>, events: seq<EventRow>, clock1: int, clock2: int)
    requires AllClaimed(ledger, batches, events, clock1)
    ensures AllClaimed(ledger, batches, events, clock2)
  {
    forall j | 0 <= j < |batches|
      ensures BatchClaimed(ledger, batches[j], events, clock2)
    {
      var rows := Select(events, batches[j].query);
      forall i | 0 <= i < |rows|
        ensures Claimed(ledger, batches[j].spec, rows[i], clock2)
      {
        ClaimedAnyClock(ledger, batches[j].spec, rows[i], clock1, clock2);
      }
    }
  }

  /** Claims survive later steps, because no row is ever removed. */
  lemma AllClaimedPersist(small: Ledger, large: Ledger, batches: seq<Batch>, events: seq<EventRow>, clock: int)
    requires AllClaimed(small, batches, events, clock) && forall k :: k in small ==> k in large
    ensures AllClaimed(large, batches, events, clock)
  {
    forall j | 0 <= j < |batches|
      ensures BatchClaimed(large, batches[j], events, clock)
    {
      ClaimsPersist(small, large, batches[j].spec, Select(events, batches[j].query), clock);
    }
  }

  /** Queries that all succeed, with lookups and claims that all go through, leave every candidate claimed. */
  lemma {:induction false} BatchesClaim(p: Progress, batches: seq<Batch>, events: seq<EventRow>, clock: int,
                                        oracle: (nat, nat) -> Attempt)
    requires p.crash.None?
    requires forall q: nat, i: nat :: oracle(q, i).lookup.Done? && oracle(q, i).insert.Inserted?
    ensures AllClaimed(RunBatches(p, batches, events, clock, None, oracle).store.smsHistory, batches, events, clock)
    decreases |batches|
  {
    if batches != [] {
      var n := |batches| - 1;
      var mid := RunBatches(p, batches[..n], events, clock, None, oracle);
      var rows := Select(events, batches[n].query);
      var f := RunBatches(p, batches, events, clock, None, oracle);
      BatchesClaim(p, batches[..n], events, clock, oracle);
      BatchesCrash(p, batches[..n], events, clock, None, oracle);
      assert f == RunBatch(mid, batches[n].spec, rows, clock, n, oracle);
      assert forall i :: 0 <= i < |rows| ==> oracle(n, i).lookup.Done? && oracle(n, i).insert.Inserted?;
      BatchClaims(mid, batches[n].spec, rows, clock, n, oracle);
      assert BatchClaimed(f.store.smsHistory, batches[n], events, clock);
      BatchBookkeeping(mid, batches[n].spec, rows, clock, n, oracle);
      AllClaimedPersist(mid.store.smsHistory, f.store.smsHistory, batches[..n], events, clock);
      forall j | 0 <= j < |batches|
        ensures BatchClaimed(f.store.smsHistory, batches[j], events, clock)
      {
        if j < n {
          assert batches[..n][j] == batches[j];
        } else {
          assert j == n;
        }
      }
    }
  }

  /** Queries whose candidates are all claimed already send nothing and change nothing. */
  lemma {:induction false} BatchesOnClaimed(p: Progress, batches: seq<Batch>, events: seq<EventRow>, clock: int,
                                            fault: Option<QueryFault>, oracle: (nat, nat) -> Attempt)
    requires AllClaimed(p.store.smsHistory, batches, events, clock)
    ensures var f := RunBatches(p, batches, events, clock, fault, oracle);
      f.store == p.store && f.sent == p.sent
    decreases |batches|
  {
    if batches != [] {
      var n := |batches| - 1;
      var mid := RunBatches(p, batches[..n], events, clock, fault, oracle);
      var rows := Select(events, batches[n].query);
      assert forall j :: 0 <= j < n ==> batches[..n][j] == batches[j];
      BatchesOnClaimed(p, batches[..n], events, clock, fault, oracle);
      if mid.crash.None? && !Fails(fault, n) {
        assert BatchClaimed(p.store.smsHistory, batches[n], events, clock);
        BatchOnClaimed(mid, batches[n].spec, rows, clock, n, oracle);
      }
    }
  }

  /**
   * Idempotence of a handler: after a run in which every query succeeded and every claim
   * went through, running it again over the same events (at any clock reading, whatever the
   * database and the gateway answer) sends nothing, counts nothing and leaves the ledger
   * as it was.
   */
  lemma JobRerun(st: Store, h: Handler, now1: int, now2: int, batches: seq<Batch>, events: seq<EventRow>,
                 clock1: int, clock2: int, env1: JobEnv, env2: JobEnv)
    requires env1.fault.None?
    requires forall q: nat, i: nat :: env1.attempt(q, i).lookup.Done? && env1.attempt(q, i).insert.Inserted?
    ensures var (st1, _) := Job(st, h, now1, batches, events, clock1, env1);
      var (st2, r2) := Job(st1, h, now2, batches, events, clock2, env2);
      st2.smsHistory == st1.smsHistory && st2.outbox == st1.outbox && r2.messagesSent == 0
  {
    var p0 := Begin(st, h, now1, env1.startLog);
    var f1 := RunBatches(p0, batches, events, clock1, None, env1.attempt);
    BatchesClaim(p0, batches, events, clock1, env1.attempt);
    var st1 := Finish(f1, h, now1, env1.finishLog).0;
    var q0 := Begin(st1, h, now2, env2.startLog);
    AllClaimedAnyClock(q0.store.smsHistory, batches, events, clock1, clock2);
    BatchesOnClaimed(q0, batches, events, clock2, env2.fault, env2.attempt);
  }

  /**
   * Appointment reminders are sent once per window: a second run on the same Warsaw day
   * (as the handler computes it) sends nothing more.
   */
  lemma AppointmentRerunSameDay(st: Store, clock1: int, clock2: int, events: seq<EventRow>, env1: JobEnv, env2: JobEnv)
    requires Day(ToWarsawTime(NowInWarsaw(clock1))) == Day(ToWarsawTime(NowInWarsaw(clock2)))
    requires env1.fault.None?
    requires forall q: nat, i: nat :: env1.attempt(q, i).lookup.Done? && env1.attempt(q, i).insert.Inserted?
    ensures var now1 := NowInWarsaw(clock1);
      var now2 := NowInWarsaw(clock2);
      var (st1, _) := Job(st, AppointmentHandler, now1, AppointmentBatches(now1), events, clock1, env1);
      var (st2, r2) := Job(st1, AppointmentHandler, now2, AppointmentBatches(now2), events, clock2, env2);
      st2.smsHistory == st1.smsHistory && st2.outbox == st1.outbox && r2.messagesSent == 0
  {
    var now1 := NowInWarsaw(clock1);
    var now2 := NowInWarsaw(clock2);
    AppointmentWindowsSameDay(now1, now2);
    JobRerun(st, AppointmentHandler, now1, now2, AppointmentBatches(now1), events, clock1, clock2, env1, env2);
  }

  /**
   * A candidate of a deposit loop whose slot no ledger row of its template carries is
   * claimed afresh: when the gateway accepts, one more message is sent and counted.
   */
  lemma UnclaimedSlotSends(p: Progress, spec: BatchSpec, e: EventRow, clock: int, at: Attempt)
    requires spec.DepositReminder?
    requires forall k :: k in p.store.smsHistory && k.templateCode == spec.code ==> k.scheduledFor != spec.slot
    requires e.phone != "" && e.depositAmount != 0 && FormatPhoneNumber(e.phone).Some?
    requires at.lookup.Done? && at.insert.Inserted? && at.transport.Delivered? && at.update.Done?
    ensures var f := Step(p, spec, e, clock, at);
      f.sent == p.sent + 1 && |f.store.outbox| == |p.store.outbox| + 1
  {
    RequestForNamesSlot(spec, e);
    var req := RequestFor(spec, e).value;
    var key := KeyOf(FormatPhoneNumber(req.phone).value, req, clock);
    assert key !in p.store.smsHistory;
    DispatchFreshKey(p.store.smsHistory, req, clock, at);
  }

  /**
   * The overdue-deposit loop is not idempotent across runs: its slot is `now`, so a
   * candidate whose earlier reminders were claimed at another `now` is claimed and sent again.
   */
  lemma DepositAfterSendsAgain(p: Progress, e: EventRow, now1: int, now2: int, clock: int, at: Attempt)
    requires now1 != now2
    requires forall k :: k in p.store.smsHistory && k.templateCode == "SMS_DEPOSIT_AFTER" ==> k.scheduledFor == now1
    requires e.phone != "" && e.depositAmount != 0 && FormatPhoneNumber(e.phone).Some?
    requires at.lookup.Done? && at.insert.Inserted? && at.transport.Delivered? && at.update.Done?
    ensures var f := Step(p, DepositAfterSpec(now2), e, clock, at);
      f.sent == p.sent + 1 && |f.store.outbox| == |p.store.outbox| + 1
  {
    UnclaimedSlotSends(p, DepositAfterSpec(now2), e, clock, at);
  }
}
