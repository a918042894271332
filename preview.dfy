/**
 * The preview endpoint: the handlers' queries and messages, without sending anything.
 * For every candidate it renders the message and looks the ledger up, read-only, to say
 * whether the message would go out.
 */
module Preview {
  import opened Wrappers
  import opened Text
  import opened Timezone
  import opened Template
  import opened SmsSender
  import opened Jobs

  // ---------------------------------------------------------------------------------------
  // The ledger check

  /** `checkWouldSend`'s answer. */
  datatype SendCheck = SendCheck(wouldSend: bool, reason: Option<string>)

  /**
   * `checkWouldSend(phone, templateCode, scheduledFor)`: the row under exactly that key, or
   * the storage error (`lookup`).
   */
  function WouldSend(ledger: Ledger, phone: string, code: string, slot: int, lookup: StoreReply): SendCheck {
    var key := SlotKey(phone, code, slot);
    if lookup.Fault? then SendCheck(false, Some("Database error"))
    else if key in ledger then
      SendCheck(false, Some(if ledger[key].status == Sent then "Already sent" else "Previously failed"))
    else SendCheck(true, None)
  }

  /** The ledger query of `checkWouldSend`; it only reads the backend. */
  method CheckWouldSend(b: Backend, phone: string, code: string, slot: int, lookup: StoreReply)
    returns (check: SendCheck)
    ensures check == WouldSend(b.smsHistory, phone, code, slot, lookup)
  {
    if lookup.Fault? {
      return SendCheck(false, Some("Database error"));
    }
    var key := SlotKey(phone, code, slot);
    if key in b.smsHistory {
      var reason := if b.smsHistory[key].status == Sent then "Already sent" else "Previously failed";
      check := SendCheck(false, Some(reason));
    } else {
      check := SendCheck(true, None);
    }
  }

  /**
   * With a number already in canonical form, a preview says a message would go out exactly
   * when the dispatcher would not report it as already sent, "Already sent" exactly when
   * the dispatcher would report a success from the ledger, and "Previously failed" exactly
   * when the dispatcher would report the ledger's failure or a claim still in progress.
   */
  lemma WouldSendAgreesWithDispatch(ledger: Ledger, req: SmsRequest, clock: int, at: Attempt)
    requires FormatPhoneNumber(req.phone) == Some(req.phone) && req.scheduledFor.Some?
    requires at.lookup.Done? && !at.insert.UniqueViolation?
    ensures var check := WouldSend(ledger, req.phone, req.templateCode, req.scheduledFor.value, Done);
      var d := Dispatch(ledger, req, clock, at);
      && (check.wouldSend <==> !d.result.alreadySent)
      && (check.reason == Some("Already sent") <==> d.result.alreadySent && d.result.success)
      && (check.reason == Some("Previously failed") <==> d.result.alreadySent && !d.result.success)
  {
    var key := KeyOf(req.phone, req, clock);
    assert key == SlotKey(req.phone, req.templateCode, req.scheduledFor.value);
    if key in ledger {
      DispatchExistingRow(ledger, req, clock, at);
    }
  }

  /**
   * The preview looks the raw number up, the dispatcher the normalised one: for a number
   * that normalises to a different text, a row claimed by the dispatcher is not seen and
   * the preview says "would send" while the dispatcher reports the message as already sent.
   */
  lemma RawNumberMissesClaim(ledger: Ledger, req: SmsRequest, clock: int, at: Attempt)
    requires FormatPhoneNumber(req.phone).Some? && req.scheduledFor.Some? && at.lookup.Done?
    requires KeyOf(FormatPhoneNumber(req.phone).value, req, clock) in ledger
    requires SlotKey(req.phone, req.templateCode, req.scheduledFor.value) !in ledger
    ensures WouldSend(ledger, req.phone, req.templateCode, req.scheduledFor.value, Done).wouldSend
    ensures Dispatch(ledger, req, clock, at).result.alreadySent
  {
    DispatchExistingRow(ledger, req, clock, at);
  }

  /**
   * Every nine-digit national number is one such number: the dispatcher claims it under
   * "+48…", the preview looks it up as written.
   */
  lemma NationalNumberIsMissed(national: string, code: string, slot: int, vars: seq<(string, string)>,
                               clock: int, at: Attempt, record: SmsRecord)
    requires |national| == 9 && forall i :: 0 <= i < 9 ==> IsDigit(national[i])
    requires at.lookup.Done?
    ensures var req := SmsRequest(national, code, None, Some(slot), vars);
      var ledger := map[SlotKey("+48" + national, code, slot) := record];
      && WouldSend(ledger, national, code, slot, Done).wouldSend
      && Dispatch(ledger, req, clock, at).result.alreadySent
  {
    PolishNumberForms(national);
    var req := SmsRequest(national, code, None, Some(slot), vars);
    var ledger := map[SlotKey("+48" + national, code, slot) := record];
    assert |national| != |"+48" + national|;
    RawNumberMissesClaim(ledger, req, clock, at);
  }

  // ---------------------------------------------------------------------------------------
  // One entry per candidate

  /** A `PreviewSMS` entry. */
  datatype PreviewSms = PreviewSms(
    phone: string,
    templateCode: string,
    clientName: string,
    eventDate: Option<string>,
    eventTime: Option<string>,
    service: Option<string>,
    depositAmount: Option<int>,
    body: string,
    wouldSend: bool,
    reason: Option<string>)

  /** The entry a preview loop pushes for a row, or `None` where it `continue`s. */
  function PreviewFor(ledger: Ledger, spec: BatchSpec, e: EventRow, lookup: StoreReply): Option<PreviewSms> {
    var clientName := e.firstName + " " + e.lastName;
    var date := FormatPolishDate(e.eventTime);
    var time := FormatPolishTime(e.eventTime);
    match spec
    case Reminder(code, slot, _) =>
      if e.phone == "" then None
      else
        var vars := ReminderVars(e.firstName, date, time, Studio);
        var check := WouldSend(ledger, e.phone, code, slot, lookup);
        Some(PreviewSms(e.phone, code, clientName, Some(date), Some(time), Some(e.service), None,
                        SmsBody(code, vars), check.wouldSend, check.reason))
    case DepositReminder(code, slot, _) =>
      if e.phone == "" || e.depositAmount == 0 then None
      else
        var vars := DepositVars(e.firstName, date, time, Studio, IntToString(e.depositAmount));
        var check := WouldSend(ledger, e.phone, code, slot, lookup);
        Some(PreviewSms(e.phone, code, clientName, Some(date), Some(time), None, Some(e.depositAmount),
                        SmsBody(code, vars), check.wouldSend, check.reason))
    case Aftercare(previewDate) =>
      var optimalSendTime := PostServiceSendTime(AppointmentEnd(e));
      if e.phone == "" || previewDate < optimalSendTime then None
      else
        var code := AftercareCode(e.service);
        var check := WouldSend(ledger, e.phone, code, optimalSendTime, lookup);
        Some(PreviewSms(e.phone, code, clientName, Some(date), Some(time), Some(e.service), None,
                        SmsBody(code, AftercareVars(e.firstName, Studio)), check.wouldSend, check.reason))
  }

  /**
   * The preview and the handler agree on every candidate: an entry exists exactly when the
   * handler would make a request, with the same number and template, the body the
   * dispatcher would render, and the ledger checked under the request's slot.
   */
  lemma PreviewAgreesWithJob(ledger: Ledger, spec: BatchSpec, e: EventRow, lookup: StoreReply)
    ensures PreviewFor(ledger, spec, e, lookup).Some? <==> RequestFor(spec, e).Some?
    ensures PreviewFor(ledger, spec, e, lookup).Some? ==>
      var entry := PreviewFor(ledger, spec, e, lookup).value;
      var req := RequestFor(spec, e).value;
      && req.scheduledFor.Some?
      && entry.phone == req.phone && entry.templateCode == req.templateCode
      && entry.body == SmsBody(req.templateCode, req.variables)
      && var check := WouldSend(ledger, req.phone, req.templateCode, req.scheduledFor.value, lookup);
      entry.wouldSend == check.wouldSend && entry.reason == check.reason
  {
    match spec
    case Reminder(_, _, _) => ReminderPreviewAgrees(ledger, spec, e, lookup);
    case DepositReminder(_, _, _) => DepositPreviewAgrees(ledger, spec, e, lookup);
    case Aftercare(_) => AftercarePreviewAgrees(ledger, spec, e, lookup);
  }

  lemma ReminderPreviewAgrees(ledger: Ledger, spec: BatchSpec, e: EventRow, lookup: StoreReply)
    requires spec.Reminder?
    ensures PreviewFor(ledger, spec, e, lookup).Some? <==> RequestFor(spec, e).Some?
    ensures PreviewFor(ledger, spec, e, lookup).Some? ==>
      var entry := PreviewFor(ledger, spec, e, lookup).value;
      var req := RequestFor(spec, e).value;
      && req.scheduledFor.Some?
      && entry.phone == req.phone && entry.templateCode == req.templateCode
      && entry.body == SmsBody(req.templateCode, req.variables)
      && var check := WouldSend(ledger, req.phone, req.templateCode, req.scheduledFor.value, lookup);
      entry.wouldSend == check.wouldSend && entry.reason == check.reason
  {
    if e.phone != "" {
      var vars := ReminderVars(e.firstName, FormatPolishDate(e.eventTime), FormatPolishTime(e.eventTime), Studio);
      assert RequestFor(spec, e) == Some(SmsRequest(e.phone, spec.code, Some(IntToString(e.id)), Some(spec.slot), vars));
      assert PreviewFor(ledger, spec, e, lookup).value.body == SmsBody(spec.code, vars);
    }
  }

  lemma DepositPreviewAgrees(ledger: Ledger, spec: BatchSpec, e: EventRow, lookup: StoreReply)
    requires spec.DepositReminder?
    ensures PreviewFor(ledger, spec, e, lookup).Some? <==> RequestFor(spec, e).Some?
    ensures PreviewFor(ledger, spec, e, lookup).Some? ==>
      var entry := PreviewFor(ledger, spec, e, lookup).value;
      var req := RequestFor(spec, e).value;
      && req.scheduledFor.Some?
      && entry.phone == req.phone && entry.templateCode == req.templateCode
      && entry.body == SmsBody(req.templateCode, req.variables)
      && var check := WouldSend(ledger, req.phone, req.templateCode, req.scheduledFor.value, lookup);
      entry.wouldSend == check.wouldSend && entry.reason == check.reason
  {
    if e.phone != "" && e.depositAmount != 0 {
      var vars := DepositVars(e.firstName, FormatPolishDate(e.eventTime), FormatPolishTime(e.eventTime), Studio,
                              IntToString(e.depositAmount));
      assert RequestFor(spec, e) == Some(SmsRequest(e.phone, spec.code, Some(IntToString(e.id)), Some(spec.slot), vars));
      assert PreviewFor(ledger, spec, e, lookup).value.body == SmsBody(spec.code, vars);
    }
  }

  lemma AftercarePreviewAgrees(ledger: Ledger, spec: BatchSpec, e: EventRow, lookup: StoreReply)
    requires spec.Aftercare?
    ensures PreviewFor(ledger, spec, e, lookup).Some? <==> RequestFor(spec, e).Some?
    ensures PreviewFor(ledger, spec, e, lookup).Some? ==>
      var entry := PreviewFor(ledger, spec, e, lookup).value;
      var req := RequestFor(spec, e).value;
      && req.scheduledFor.Some?
      && entry.phone == req.phone && entry.templateCode == req.templateCode
      && entry.body == SmsBody(req.templateCode, req.variables)
      && var check := WouldSend(ledger, req.phone, req.templateCode, req.scheduledFor.value, lookup);
      entry.wouldSend == check.wouldSend && entry.reason == check.reason
  {
    var sendTime := PostServiceSendTime(AppointmentEnd(e));
    if e.phone != "" && sendTime <= spec.now {
      var code := AftercareCode(e.service);
      var vars := AftercareVars(e.firstName, Studio);
      assert RequestFor(spec, e) == Some(SmsRequest(e.phone, code, Some(IntToString(e.id)), Some(sendTime), vars));
      assert PreviewFor(ledger, spec, e, lookup).value.body == SmsBody(code, vars);
    }
  }

  /** The entry for one row, as the loop body computes it. */
  method PreviewRow(b: Backend, spec: BatchSpec, e: EventRow, lookup: StoreReply) returns (entry: Option<PreviewSms>)
    ensures entry == PreviewFor(b.smsHistory, spec, e, lookup)
  {
    var clientName := e.firstName + " " + e.lastName;
    var date := FormatPolishDate(e.eventTime);
    var time := FormatPolishTime(e.eventTime);
    match spec
    case Reminder(code, slot, _) =>
      if e.phone == "" {
        return None;
      }
      var check := CheckWouldSend(b, e.phone, code, slot, lookup);
      var body := GenerateSmsBody(code, ReminderVars(e.firstName, date, time, Studio));
      entry := Some(PreviewSms(e.phone, code, clientName, Some(date), Some(time), Some(e.service), None,
                               body, check.wouldSend, check.reason));
    case DepositReminder(code, slot, _) =>
      if e.phone == "" || e.depositAmount == 0 {
        return None;
      }
      var check := CheckWouldSend(b, e.phone, code, slot, lookup);
      var body := GenerateSmsBody(code, DepositVars(e.firstName, date, time, Studio, IntToString(e.depositAmount)));
      entry := Some(PreviewSms(e.phone, code, clientName, Some(date), Some(time), None, Some(e.depositAmount),
                               body, check.wouldSend, check.reason));
    case Aftercare(previewDate) =>
      var optimalSendTime := PostServiceSendTime(AppointmentEnd(e));
      if e.phone == "" || previewDate < optimalSendTime {
        return None;
      }
      var code := AftercareCode(e.service);
      var check := CheckWouldSend(b, e.phone, code, optimalSendTime, lookup);
      var body := GenerateSmsBody(code, AftercareVars(e.firstName, Studio));
      entry := Some(PreviewSms(e.phone, code, clientName, Some(date), Some(time), Some(e.service), None,
                               body, check.wouldSend, check.reason));
  }

  // ---------------------------------------------------------------------------------------
  // The preview loops

  /** What a loop appends for one row: the value if there is one. */
  function AsList<T>(o: Option<T>): (s: seq<T>)
    ensures |s| <= 1 && (o.Some? <==> |s| == 1) && (o.Some? ==> s[0] == o.value)
  {
    if o.Some? then [o.value] else []
  }

  /** The entries of a loop over query `q`'s rows; `lookups(q, i)` answers row `i`'s ledger check. */
  function PreviewRows(ledger: Ledger, spec: BatchSpec, rows: seq<EventRow>, q: nat,
                       lookups: (nat, nat) -> StoreReply): seq<PreviewSms>
    decreases |rows|
  {
    if rows == [] then []
    else
      var n := |rows| - 1;
      PreviewRows(ledger, spec, rows[..n], q, lookups) + AsList(PreviewFor(ledger, spec, rows[n], lookups(q, n)))
  }

  /** The requests a handler's loop makes, in order. */
  function Requests(spec: BatchSpec, rows: seq<EventRow>): seq<SmsRequest>
    decreases |rows|
  {
    if rows == [] then []
    else
      var n := |rows| - 1;
      Requests(spec, rows[..n]) + AsList(RequestFor(spec, rows[n]))
  }

  /** An entry shows a request: its number, its template and the body the dispatcher renders. */
  predicate Shows(entry: PreviewSms, req: SmsRequest) {
    entry.phone == req.phone && entry.templateCode == req.templateCode
    && entry.body == SmsBody(req.templateCode, req.variables)
  }

  /** A list of entries shows a list of requests one for one, in order. */
  predicate ShowsAll(entries: seq<PreviewSms>, reqs: seq<SmsRequest>) {
    |entries| == |reqs| && forall i :: 0 <= i < |entries| ==> Shows(entries[i], reqs[i])
  }

  /** A loop's entries show the requests a batch makes over the events its query selects. */
  predicate ShowsBatch(entries: seq<PreviewSms>, batch: Batch, events: seq<EventRow>) {
    ShowsAll(entries, Requests(batch.spec, Select(events, batch.query)))
  }

  /**
   * A preview loop lists exactly one entry per request the handler's loop would make, in
   * the same order, each with the request's number, template and body.
   */
  lemma {:induction false} PreviewRowsMatchRequests(ledger: Ledger, spec: BatchSpec, rows: seq<EventRow>, q: nat,
                                                    lookups: (nat, nat) -> StoreReply)
    ensures ShowsAll(PreviewRows(ledger, spec, rows, q, lookups), Requests(spec, rows))
    decreases |rows|
  {
    if rows != [] {
      var n := |rows| - 1;
      var prev := PreviewRows(ledger, spec, rows[..n], q, lookups);
      var reqs := Requests(spec, rows[..n]);
      PreviewRowsMatchRequests(ledger, spec, rows[..n], q, lookups);
      EntryShowsRequest(ledger, spec, rows[n], lookups(q, n));
      ShowsAllConcat(prev, AsList(PreviewFor(ledger, spec, rows[n], lookups(q, n))), reqs, AsList(RequestFor(spec, rows[n])));
    }
  }

  lemma EntryShowsRequest(ledger: Ledger, spec: BatchSpec, e: EventRow, lookup: StoreReply)
    ensures ShowsAll(AsList(PreviewFor(ledger, spec, e, lookup)), AsList(RequestFor(spec, e)))
  {
    PreviewAgreesWithJob(ledger, spec, e, lookup);
  }

  lemma ShowsAllConcat(a: seq<PreviewSms>, b: seq<PreviewSms>, x: seq<SmsRequest>, y: seq<SmsRequest>)
    requires ShowsAll(a, x) && ShowsAll(b, y)
    ensures ShowsAll(a + b, x + y)
  {
    forall i | 0 <= i < |a + b|
      ensures Shows((a + b)[i], (x + y)[i])
    {
      if i < |a| {
        assert (a + b)[i] == a[i] && (x + y)[i] == x[i];
      } else {
        assert (a + b)[i] == b[i - |a|] && (x + y)[i] == y[i - |a|];
      }
    }
  }

  lemma PreviewRowsSnoc(ledger: Ledger, spec: BatchSpec, rows: seq<EventRow>, i: nat, q: nat,
                        lookups: (nat, nat) -> StoreReply)
    requires i < |rows|
    ensures PreviewRows(ledger, spec, rows[..i + 1], q, lookups)
      == PreviewRows(ledger, spec, rows[..i], q, lookups) + AsList(PreviewFor(ledger, spec, rows[i], lookups(q, i)))
  {
    assert rows[..i + 1][..i] == rows[..i];
    assert rows[..i + 1][i] == rows[i];
  }

  /** A preview loop, pushing one entry per candidate. */
  method PreviewBatch(b: Backend, spec: BatchSpec, rows: seq<EventRow>, q: nat, lookups: (nat, nat) -> StoreReply)
    returns (previews: seq<PreviewSms>)
    ensures previews == PreviewRows(b.smsHistory, spec, rows, q, lookups)
  {
    previews := [];
    for i := 0 to |rows|
      invariant previews == PreviewRows(b.smsHistory, spec, rows[..i], q, lookups)
    {
      PreviewRowsSnoc(b.smsHistory, spec, rows, i, q, lookups);
      var entry := PreviewRow(b, spec, rows[i], lookups(q, i));
      if entry.Some? {
        previews := previews + [entry.value];
      }
    }
    assert rows[..|rows|] == rows;
  }

  // ---------------------------------------------------------------------------------------
  // The whole preview

  /** `PreviewResponse`; `previewDate` is the instant itself. */
  datatype PreviewResponse = PreviewResponse(
    previewDate: int,
    d2: seq<PreviewSms>, d1: seq<PreviewSms>, d0: seq<PreviewSms>,
    before: seq<PreviewSms>, after: seq<PreviewSms>,
    postService: seq<PreviewSms>,
    clientCount: nat, wouldExecute: bool)

  /** A preview either answers or throws "Preview failed: …". */
  datatype Outcome = Answered(response: PreviewResponse) | Rejected(message: string)

  /** The preview's six loops, in order: the appointment, deposit and post-service handlers' batches. */
  function PreviewBatches(previewDate: int): (bs: seq<Batch>)
    ensures |bs| == 6
  {
    AppointmentBatches(previewDate) + DepositBatches(previewDate) + PostServiceBatches(previewDate)
  }

  /** The client count is query 6, after the six candidate queries. */
  const CountQuery: nat := 6

  /** The entries of one loop: query `j` selects the rows, its lookups check the ledger. */
  function BatchPreview(ledger: Ledger, batch: Batch, events: seq<EventRow>, j: nat,
                        lookups: (nat, nat) -> StoreReply): seq<PreviewSms>
  {
    PreviewRows(ledger, batch.spec, Select(events, batch.query), j, lookups)
  }

  /** The entries of each loop in turn, loop `j` running query `j`. */
  function PreviewLists(ledger: Ledger, bs: seq<Batch>, events: seq<EventRow>,
                        lookups: (nat, nat) -> StoreReply): (lists: seq<seq<PreviewSms>>)
    ensures |lists| == |bs|
    decreases |bs|
  {
    if bs == [] then []
    else
      var n := |bs| - 1;
      PreviewLists(ledger, bs[..n], events, lookups) + [BatchPreview(ledger, bs[n], events, n, lookups)]
  }

  /**
   * Every loop's list shows, one for one and in order, the requests its batch would make
   * in a handler run.
   */
  lemma PreviewListsShowRequests(ledger: Ledger, bs: seq<Batch>, events: seq<EventRow>,
                                 lookups: (nat, nat) -> StoreReply)
    ensures var lists := PreviewLists(ledger, bs, events, lookups);
      && |lists| == |bs|
      && forall j :: 0 <= j < |bs| ==> ShowsBatch(lists[j], bs[j], events)
  {
    forall j | 0 <= j < |bs|
      ensures ShowsBatch(PreviewLists(ledger, bs, events, lookups)[j], bs[j], events)
    {
      PreviewListsAt(ledger, bs, j, events, lookups);
      PreviewRowsMatchRequests(ledger, bs[j].spec, Select(events, bs[j].query), j, lookups);
    }
  }

  /** Loop `j`'s list sits at position `j`. */
  lemma {:induction false} PreviewListsAt(ledger: Ledger, bs: seq<Batch>, j: nat, events: seq<EventRow>,
                                          lookups: (nat, nat) -> StoreReply)
    requires j < |bs|
    ensures PreviewLists(ledger, bs, events, lookups)[j] == BatchPreview(ledger, bs[j], events, j, lookups)
    decreases |bs|
  {
    var n := |bs| - 1;
    var prev := PreviewLists(ledger, bs[..n], events, lookups);
    assert PreviewLists(ledger, bs, events, lookups) == prev + [BatchPreview(ledger, bs[n], events, n, lookups)];
    if j == n {
    } else {
      PreviewListsAt(ledger, bs[..n], j, events, lookups);
      assert bs[..n][j] == bs[j];
    }
  }

  lemma PreviewListsSnoc(ledger: Ledger, bs: seq<Batch>, j: nat, events: seq<EventRow>,
                         lookups: (nat, nat) -> StoreReply)
    requires j < |bs|
    ensures PreviewLists(ledger, bs[..j + 1], events, lookups)
      == PreviewLists(ledger, bs[..j], events, lookups) + [BatchPreview(ledger, bs[j], events, j, lookups)]
  {
    assert bs[..j + 1][..j] == bs[..j];
    assert bs[..j + 1][j] == bs[j];
  }

  /** The candidate loops in order; the first query that throws ends them. */
  method PreviewLoops(b: Backend, bs: seq<Batch>, events: seq<EventRow>, fault: Option<QueryFault>,
                      lookups: (nat, nat) -> StoreReply)
    returns (lists: Option<seq<seq<PreviewSms>>>)
    ensures lists.None? <==> fault.Some? && fault.value.query < |bs|
    ensures lists.Some? ==> lists.value == PreviewLists(b.smsHistory, bs, events, lookups)
  {
    var done: seq<seq<PreviewSms>> := [];
    for j := 0 to |bs|
      invariant done == PreviewLists(b.smsHistory, bs[..j], events, lookups)
      invariant !(fault.Some? && fault.value.query < j)
    {
      if fault.Some? && fault.value.query == j {
        return None;
      }
      var entries := PreviewBatch(b, bs[j].spec, Select(events, bs[j].query), j, lookups);
      PreviewListsSnoc(b.smsHistory, bs, j, events, lookups);
      done := done + [entries];
    }
    assert bs[..|bs|] == bs;
    return Some(done);
  }

  /**
   * `preview`: the instant asked for (or `nowInWarsaw()`), the six loops and the client
   * count, or the message of the query that throws.
   */
  function PreviewAll(ledger: Ledger, date: Option<int>, clock: int, events: seq<EventRow>, clientCount: nat,
                      fault: Option<QueryFault>, lookups: (nat, nat) -> StoreReply): Outcome
  {
    var previewDate := date.GetOr(NowInWarsaw(clock));
    if fault.Some? && fault.value.query <= CountQuery then Rejected("Preview failed: " + fault.value.message)
    else
      var lists := PreviewLists(ledger, PreviewBatches(previewDate), events, lookups);
      Answered(PreviewResponse(previewDate, lists[0], lists[1], lists[2], lists[3], lists[4], lists[5],
                               clientCount, true))
  }

  /** The `preview` handler; it reads the ledger and writes nothing. */
  method Preview(b: Backend, date: Option<int>, clock: int, events: seq<EventRow>, clientCount: nat,
                 fault: Option<QueryFault>, lookups: (nat, nat) -> StoreReply)
    returns (outcome: Outcome)
    ensures outcome == PreviewAll(b.smsHistory, date, clock, events, clientCount, fault, lookups)
  {
    var previewDate := date.GetOr(NowInWarsaw(clock));
    var lists := PreviewLoops(b, PreviewBatches(previewDate), events, fault, lookups);
    if lists.None? || (fault.Some? && fault.value.query == CountQuery) {
      return Rejected("Preview failed: " + fault.value.message);
    }
    var l := lists.value;
    assert !(fault.Some? && fault.value.query <= CountQuery);
    assert l == PreviewLists(b.smsHistory, PreviewBatches(previewDate), events, lookups);
    outcome := Answered(PreviewResponse(previewDate, l[0], l[1], l[2], l[3], l[4], l[5], clientCount, true));
  }

  /**
   * A preview fails exactly when one of its seven queries throws, with that query's message;
   * otherwise it describes the instant asked for (or now in Warsaw), would execute, and each
   * of its six lists shows, one for one and in order, the requests the handlers' batches
   * would make at that instant.
   */
  lemma PreviewOutcome(ledger: Ledger, date: Option<int>, clock: int, events: seq<EventRow>, clientCount: nat,
                       fault: Option<QueryFault>, lookups: (nat, nat) -> StoreReply)
    ensures var o := PreviewAll(ledger, date, clock, events, clientCount, fault, lookups);
      && (o.Rejected? <==> fault.Some? && fault.value.query <= CountQuery)
      && (o.Rejected? ==> o.message == "Preview failed: " + fault.value.message)
      && (o.Answered? ==>
           var r := o.response;
           var now := date.GetOr(NowInWarsaw(clock));
           var bs := PreviewBatches(now);
           && r.previewDate == now && r.clientCount == clientCount && r.wouldExecute
           && ShowsBatch(r.d2, bs[0], events)
           && ShowsBatch(r.d1, bs[1], events)
           && ShowsBatch(r.d0, bs[2], events)
           && ShowsBatch(r.before, bs[3], events)
           && ShowsBatch(r.after, bs[4], events)
           && ShowsBatch(r.postService, bs[5], events))
  {
    PreviewListsShowRequests(ledger, PreviewBatches(date.GetOr(NowInWarsaw(clock))), events, lookups);
  }
}
