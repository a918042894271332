/**
 * The idempotent dispatcher: phone normalisation, the `sms_history` ledger keyed by
 * (phone, template code, scheduled instant), the claim / send / finalise sequence, and the
 * `cron_runs` audit log.
 *
 * The database and the SMS gateway are outside the model. Each dispatch is given an
 * `Attempt` that says how the storage calls and the transport answer on that occasion, and
 * the random row identifiers come in the same way.
 */
module SmsSender {
  import opened Wrappers
  import opened Text
  import opened Template

  // ---------------------------------------------------------------------------------------
  // Phone numbers

  /** A character the cleaning regular expression `[^\d+]` keeps. */
  predicate IsDialChar(c: char) {
    IsDigit(c) || c == '+'
  }

  predicate IsDialString(s: string) {
    forall i :: 0 <= i < |s| ==> IsDialChar(s[i])
  }

  /** `phone.replace(/[^\d+]/g, '')`: the digits and plus signs of `s`, in order. */
  function KeepDialChars(s: string): (r: string)
    ensures IsDialString(r) && |r| <= |s|
  {
    if s == [] then [] else (if IsDialChar(s[0]) then [s[0]] else []) + KeepDialChars(s[1..])
  }

  /** Cleaning a piece of text cleans each part of it. */
  lemma {:induction false} KeepDialCharsSplits(a: string, b: string)
    ensures KeepDialChars(a + b) == KeepDialChars(a) + KeepDialChars(b)
    decreases |a|
  {
    if a == [] {
      assert a + b == b;
    } else {
      var s := a + b;
      var head := if IsDialChar(a[0]) then [a[0]] else [];
      assert s[0] == a[0] && s[1..] == a[1..] + b;
      assert KeepDialChars(s) == head + KeepDialChars(a[1..] + b);
      KeepDialCharsSplits(a[1..], b);
      assert head + (KeepDialChars(a[1..]) + KeepDialChars(b)) == head + KeepDialChars(a[1..]) + KeepDialChars(b);
    }
  }

  /** A string of digits and plus signs is already clean. */
  lemma {:induction false} KeepDialCharsOfDialString(s: string)
    requires IsDialString(s)
    ensures KeepDialChars(s) == s
    decreases |s|
  {
    if s != [] {
      KeepDialCharsOfDialString(s[1..]);
      assert s == [s[0]] + s[1..];
    }
  }

  /** Spaces, dashes, brackets and other separators disappear wherever they stand. */
  lemma KeepDialCharsDropsSeparator(a: string, c: char, b: string)
    requires !IsDialChar(c)
    ensures KeepDialChars(a + [c] + b) == KeepDialChars(a + b)
  {
    KeepDialCharsSplits(a + [c], b);
    KeepDialCharsSplits(a, [c]);
    KeepDialCharsSplits(a, b);
    assert KeepDialChars([c]) == [] by {
      assert [c][1..] == [];
    }
  }

  /** `formatPhoneNumber(phone)`: the number in international form, or `None` (`null`). */
  function FormatPhoneNumber(phone: string): (r: Option<string>)
    ensures r.Some? ==> |r.value| >= 10 && r.value[0] == '+' && IsDialString(r.value)
  {
    var cleanPhone := KeepDialChars(phone);
    if cleanPhone == [] then None
    else if "+48" <= cleanPhone && |cleanPhone| == 12 then Some(cleanPhone)
    else if "48" <= cleanPhone && |cleanPhone| == 11 then Some("+" + cleanPhone)
    else if |cleanPhone| == 9 then Some("+48" + cleanPhone)
    else if "+" <= cleanPhone && |cleanPhone| >= 10 then Some(cleanPhone)
    else None
  }

  /**
   * Which numbers are accepted and what they become: after cleaning, nine characters get
   * `+48` in front, eleven starting with `48` get `+`, and ten or more starting with `+`
   * are kept; everything else, the empty string included, is rejected.
   */
  lemma FormatPhoneNumberAccepts(phone: string)
    ensures var c := KeepDialChars(phone);
      FormatPhoneNumber(phone).Some? <==> (|c| == 9 || (|c| == 11 && "48" <= c) || (|c| >= 10 && c[0] == '+'))
    ensures var c := KeepDialChars(phone);
      && (|c| == 9 ==> FormatPhoneNumber(phone) == Some("+48" + c))
      && (|c| == 11 && "48" <= c ==> FormatPhoneNumber(phone) == Some("+" + c))
      && (|c| >= 10 && c[0] == '+' ==> FormatPhoneNumber(phone) == Some(c))
  {
    var c := KeepDialChars(phone);
    if |c| >= 10 && c[0] == '+' {
      assert "+" <= c;
      assert !("48" <= c);
    }
    assert "+48" <= c ==> c[0] == '+';
  }

  /** Formatting a formatted number gives it back. */
  lemma FormatPhoneNumberIdempotent(phone: string)
    ensures var r := FormatPhoneNumber(phone);
      r.Some? ==> FormatPhoneNumber(r.value) == r
  {
    var r := FormatPhoneNumber(phone);
    if r.Some? {
      var v := r.value;
      KeepDialCharsOfDialString(v);
      FormatPhoneNumberAccepts(v);
    }
  }

  lemma DialStringsConcat(a: string, b: string)
    requires IsDialString(a) && IsDialString(b)
    ensures IsDialString(a + b)
  {
    assert forall i :: |a| <= i < |a + b| ==> (a + b)[i] == b[i - |a|];
  }

  /** What the formatter does with a number that is already clean. */
  lemma FormatCleanNumber(c: string)
    requires IsDialString(c)
    ensures FormatPhoneNumber(c) == (
      if c == [] then None
      else if "+48" <= c && |c| == 12 then Some(c)
      else if "48" <= c && |c| == 11 then Some("+" + c)
      else if |c| == 9 then Some("+48" + c)
      else if "+" <= c && |c| >= 10 then Some(c)
      else None)
  {
    KeepDialCharsOfDialString(c);
  }

  /** A nine-digit national number, with or without `48` or `+48` in front, gives one international number. */
  lemma PolishNumberForms(national: string)
    requires |national| == 9 && forall i :: 0 <= i < 9 ==> IsDigit(national[i])
    ensures FormatPhoneNumber(national) == Some("+48" + national)
    ensures FormatPhoneNumber("48" + national) == Some("+48" + national)
    ensures FormatPhoneNumber("+48" + national) == Some("+48" + national)
  {
    assert IsDialString(national);
    assert IsDialString("48") && IsDialString("+48");
    DialStringsConcat("48", national);
    DialStringsConcat("+48", national);
    FormatCleanNumber(national);
    FormatCleanNumber("48" + national);
    FormatCleanNumber("+48" + national);
    assert !("+48" <= "48" + national);
    assert "+" + ("48" + national) == "+48" + national;
    assert "48" <= "48" + national;
    assert "+48" <= "+48" + national;
  }

  /** The three phone formatting cases of the repository's test script. */
  lemma FormatPhoneNumberExamples()
    ensures FormatPhoneNumber("123456789") == Some("+48123456789")
    ensures FormatPhoneNumber("+48123456789") == Some("+48123456789")
    ensures FormatPhoneNumber("48123456789") == Some("+48123456789")
  {
    ExampleNumberIsNational();
    PolishNumberForms("123456789");
  }

  lemma ExampleNumberIsNational()
    ensures forall i :: 0 <= i < 9 ==> IsDigit("123456789"[i])
    ensures "+48" + "123456789" == "+48123456789" && "48" + "123456789" == "48123456789"
  {
  }

  // ---------------------------------------------------------------------------------------
  // The ledger and the dispatch

  datatype Status = Queued | Sent | Failed

  /** The unique key of `sms_history`: `(phone, template_code, scheduled_for)`. */
  datatype SlotKey = SlotKey(phone: string, templateCode: string, scheduledFor: int)

  /** The rest of an `sms_history` row. */
  datatype SmsRecord = SmsRecord(
    id: string,
    clientId: Option<string>,
    body: string,
    status: Status,
    providerId: Option<string>,
    errorMessage: Option<string>)

  type Ledger = map<SlotKey, SmsRecord>

  datatype SmsRequest = SmsRequest(
    phone: string,
    templateCode: string,
    clientId: Option<string>,
    scheduledFor: Option<int>,
    variables: seq<(string, string)>)

  /** `SMSResult`; an absent `alreadySent` is `false`. */
  datatype SmsResult = SmsResult(success: bool, messageId: Option<string>, error: Option<string>, alreadySent: bool)

  /** How a storage statement answers: it completes, or it throws with a message. */
  datatype StoreReply = Done | Fault(message: string)

  /** How the claiming `INSERT` answers. */
  datatype InsertReply = Inserted | UniqueViolation | InsertFault(message: string)

  /** What `sendViaSMSAPI` reports. */
  datatype TransportReply = Delivered(messageId: Option<string>) | Refused(error: string)

  /** How the world answers one call of `sendIdempotentSMS`, and the random row id it draws. */
  datatype Attempt = Attempt(
    smsId: string,
    lookup: StoreReply,
    insert: InsertReply,
    transport: TransportReply,
    update: StoreReply)

  /** A message handed to the gateway. */
  datatype Outbound = Outbound(phone: string, body: string)

  datatype Dispatched = Dispatched(result: SmsResult, ledger: Ledger, sent: seq<Outbound>)

  const InvalidPhone := SmsResult(false, None, Some("Invalid phone number format"), false)

  /** The outer `catch` of `sendIdempotentSMS`. */
  function Crashed(message: string): SmsResult {
    SmsResult(false, None, Some("SMS sending failed: " + message), false)
  }

  /** The ledger key of a request whose number normalises to `cleanPhone`; `clock` stands in for `new Date()`. */
  function KeyOf(cleanPhone: string, req: SmsRequest, clock: int): SlotKey {
    SlotKey(cleanPhone, req.templateCode, req.scheduledFor.GetOr(clock))
  }

  /** What one call of `sendIdempotentSMS` returns, and the ledger and outbox it leaves. */
  function Dispatch(ledger: Ledger, req: SmsRequest, clock: int, at: Attempt): Dispatched {
    match FormatPhoneNumber(req.phone)
    case None => Dispatched(InvalidPhone, ledger, [])
    case Some(cleanPhone) =>
      var body := SmsBody(req.templateCode, req.variables);
      var key := KeyOf(cleanPhone, req, clock);
      if at.lookup.Fault? then Dispatched(Crashed(at.lookup.message), ledger, [])
      else if key in ledger then
        var status := ledger[key].status;
        var result := SmsResult(status == Sent, None, if status == Failed then Some("Previously failed") else None, true);
        Dispatched(result, ledger, [])
      else match at.insert
        case UniqueViolation =>
          Dispatched(SmsResult(false, None, Some("SMS already queued by another process"), true), ledger, [])
        case InsertFault(m) => Dispatched(Crashed(m), ledger, [])
        case Inserted =>
          var queued := SmsRecord(at.smsId, req.clientId, body, Queued, None, None);
          var out := [Outbound(cleanPhone, body)];
          match at.transport
          case Delivered(messageId) =>
            if at.update.Fault? then Dispatched(Crashed(at.update.message), ledger[key := queued], out)
            else
              var row := queued.(status := Sent, providerId := messageId);
              Dispatched(SmsResult(true, messageId, None, false), ledger[key := row], out)
          case Refused(e) =>
            if at.update.Fault? then Dispatched(Crashed(at.update.message), ledger[key := queued], out)
            else
              var row := queued.(status := Failed, errorMessage := Some(e));
              Dispatched(SmsResult(false, None, Some(e), false), ledger[key := row], out)
  }

  /** An unusable number is reported at once: the ledger is not touched and nothing is sent. */
  lemma DispatchRejectsInvalidPhone(ledger: Ledger, req: SmsRequest, clock: int, at: Attempt)
    requires FormatPhoneNumber(req.phone).None?
    ensures var d := Dispatch(ledger, req, clock, at);
      && !d.result.success && !d.result.alreadySent && d.result.error == Some("Invalid phone number format")
      && d.ledger == ledger && d.sent == []
  {
  }

  /**
   * A key already in the ledger is reported as already sent: successful exactly when the
   * row is `sent`, with "Previously failed" exactly when it is `failed`; the ledger stays as
   * it was and nothing goes to the gateway.
   */
  lemma DispatchExistingRow(ledger: Ledger, req: SmsRequest, clock: int, at: Attempt)
    requires FormatPhoneNumber(req.phone).Some? && at.lookup.Done?
    requires KeyOf(FormatPhoneNumber(req.phone).value, req, clock) in ledger
    ensures var d := Dispatch(ledger, req, clock, at);
      var status := ledger[KeyOf(FormatPhoneNumber(req.phone).value, req, clock)].status;
      && d.result.alreadySent
      && (d.result.success <==> status == Sent)
      && (d.result.error == Some("Previously failed") <==> status == Failed)
      && d.ledger == ledger && d.sent == []
  {
  }

  /**
   * A fresh key is claimed with one new row and the rendered message goes to the gateway
   * once. The row ends `sent` with the provider id when the gateway accepts, `failed` with
   * its error when it refuses, and stays `queued` when the final update fails; the call
   * succeeds exactly when the row ends `sent`. Every other row is unchanged.
   */
  lemma DispatchFreshKey(ledger: Ledger, req: SmsRequest, clock: int, at: Attempt)
    requires FormatPhoneNumber(req.phone).Some? && at.lookup.Done? && at.insert.Inserted?
    requires KeyOf(FormatPhoneNumber(req.phone).value, req, clock) !in ledger
    ensures var phone := FormatPhoneNumber(req.phone).value;
      var key := KeyOf(phone, req, clock);
      var d := Dispatch(ledger, req, clock, at);
      && d.sent == [Outbound(phone, SmsBody(req.templateCode, req.variables))]
      && key in d.ledger && d.ledger.Keys == ledger.Keys + {key}
      && (forall k :: k in ledger ==> d.ledger[k] == ledger[k])
      && d.ledger[key].id == at.smsId && d.ledger[key].body == SmsBody(req.templateCode, req.variables)
      && !d.result.alreadySent
      && (d.result.success <==> d.ledger[key].status == Sent)
      && (at.update.Fault? ==> d.ledger[key].status == Queued)
      && (at.update.Done? && at.transport.Delivered? ==>
            d.ledger[key].status == Sent && d.ledger[key].providerId == at.transport.messageId
            && d.result.messageId == at.transport.messageId)
      && (at.update.Done? && at.transport.Refused? ==>
            d.ledger[key].status == Failed && d.ledger[key].errorMessage == Some(at.transport.error)
            && d.result.error == Some(at.transport.error))
  {
  }

  /** A claim lost to another process is reported as already sent and sends nothing. */
  lemma DispatchLostClaim(ledger: Ledger, req: SmsRequest, clock: int, at: Attempt)
    requires FormatPhoneNumber(req.phone).Some? && at.lookup.Done? && at.insert.UniqueViolation?
    requires KeyOf(FormatPhoneNumber(req.phone).value, req, clock) !in ledger
    ensures var d := Dispatch(ledger, req, clock, at);
      && !d.result.success && d.result.alreadySent && d.ledger == ledger && d.sent == []
  {
  }

  /**
   * What any call may do: existing rows are never changed or removed, at most one row is
   * added (under the request's key), at most one message is sent (to the normalised
   * number), and a call counts as a fresh success only if it sent one.
   */
  lemma DispatchFrame(ledger: Ledger, req: SmsRequest, clock: int, at: Attempt)
    ensures var d := Dispatch(ledger, req, clock, at);
      && (forall k :: k in ledger ==> k in d.ledger && d.ledger[k] == ledger[k])
      && |d.sent| <= 1
      && (d.ledger.Keys != ledger.Keys || d.sent != [] ==>
            FormatPhoneNumber(req.phone).Some?
            && var key := KeyOf(FormatPhoneNumber(req.phone).value, req, clock);
            && d.ledger.Keys == ledger.Keys + {key} && key !in ledger
            && d.sent == [Outbound(key.phone, SmsBody(req.templateCode, req.variables))])
      && (d.result.success && !d.result.alreadySent ==> |d.sent| == 1)
      && (d.result.alreadySent ==> d.sent == [] && d.ledger == ledger)
  {
  }

  /** A request whose key is already claimed (or that cannot be sent) leaves the ledger as it was and sends nothing. */
  lemma DispatchClaimedKey(ledger: Ledger, req: SmsRequest, clock: int, at: Attempt)
    requires FormatPhoneNumber(req.phone).Some? ==> KeyOf(FormatPhoneNumber(req.phone).value, req, clock) in ledger
    ensures var d := Dispatch(ledger, req, clock, at);
      && d.ledger == ledger && d.sent == [] && !(d.result.success && !d.result.alreadySent)
  {
  }

  /**
   * Idempotence: once a call has claimed the key (or found it claimed), the same request
   * again is reported as already sent, with the same success, and sends nothing.
   */
  lemma DispatchTwice(ledger: Ledger, req: SmsRequest, clock: int, first: Attempt, second: Attempt)
    requires FormatPhoneNumber(req.phone).Some? && first.lookup.Done? && second.lookup.Done?
    requires KeyOf(FormatPhoneNumber(req.phone).value, req, clock) in ledger || first.insert.Inserted?
    ensures var d1 := Dispatch(ledger, req, clock, first);
      var d2 := Dispatch(d1.ledger, req, clock, second);
      && d2.result.alreadySent && d2.sent == [] && d2.ledger == d1.ledger
      && d2.result.success == d1.result.success
  {
    var key := KeyOf(FormatPhoneNumber(req.phone).value, req, clock);
    if key !in ledger {
      DispatchFreshKey(ledger, req, clock, first);
    }
  }

  // ---------------------------------------------------------------------------------------
  // The stored state

  /** A `cron_runs` row. */
  datatype CronRun = CronRun(id: string, jobName: string, plannedAt: int, ok: bool, details: string)

  /** The database tables and the gateway's log, as one value. */
  datatype Store = Store(smsHistory: Ledger, cronRuns: seq<CronRun>, outbox: seq<Outbound>)

  /** `sendIdempotentSMS` applied to a store. */
  function DispatchIn(st: Store, req: SmsRequest, clock: int, at: Attempt): (r: (SmsResult, Store))
    ensures r.1.cronRuns == st.cronRuns
  {
    var d := Dispatch(st.smsHistory, req, clock, at);
    (d.result, Store(d.ledger, st.cronRuns, st.outbox + d.sent))
  }

  /** `logCronRun` applied to a store: one row, or none when the insert fails (the error is swallowed). */
  function LogIn(st: Store, run: CronRun, write: StoreReply): (r: Store)
    ensures r.smsHistory == st.smsHistory && r.outbox == st.outbox
    ensures write.Done? ==> r.cronRuns == st.cronRuns + [run]
    ensures write.Fault? ==> r.cronRuns == st.cronRuns
  {
    if write.Done? then st.(cronRuns := st.cronRuns + [run]) else st
  }

  /** The database and the gateway as the cron handlers see them. */
  class Backend {
    var smsHistory: Ledger
    var cronRuns: seq<CronRun>
    var outbox: seq<Outbound>

    function State(): Store
      reads this
    {
      Store(smsHistory, cronRuns, outbox)
    }

    constructor (history: Ledger)
      ensures smsHistory == history && cronRuns == [] && outbox == []
    {
      smsHistory := history;
      cronRuns := [];
      outbox := [];
    }

    /** `sendIdempotentSMS(request)`: check the ledger, claim the key, send, record the outcome. */
    method SendIdempotentSms(req: SmsRequest, clock: int, at: Attempt) returns (result: SmsResult)
      modifies this
      ensures (result, State()) == DispatchIn(old(State()), req, clock, at)
    {
      ghost var d := Dispatch(smsHistory, req, clock, at);
      assert outbox + [] == outbox;
      var cleanPhone := FormatPhoneNumber(req.phone);
      if cleanPhone.None? {
        return InvalidPhone;
      }
      var body := GenerateSmsBody(req.templateCode, req.variables);
      var key := SlotKey(cleanPhone.value, req.templateCode, req.scheduledFor.GetOr(clock));

      if at.lookup.Fault? {
        assert d == Dispatched(Crashed(at.lookup.message), smsHistory, []);
        return Crashed(at.lookup.message);
      }
      if key in smsHistory {
        var existing := smsHistory[key];
        result := SmsResult(existing.status == Sent, None,
                            if existing.status == Failed then Some("Previously failed") else None, true);
        assert d == Dispatched(result, smsHistory, []);
        return;
      }

      match at.insert {
        case UniqueViolation =>
          result := SmsResult(false, None, Some("SMS already queued by another process"), true);
          assert d == Dispatched(result, smsHistory, []);
          return;
        case InsertFault(m) =>
          assert d == Dispatched(Crashed(m), smsHistory, []);
          return Crashed(m);
        case Inserted =>
      }
      ghost var before := smsHistory;
      var queued := SmsRecord(at.smsId, req.clientId, body, Queued, None, None);
      smsHistory := smsHistory[key := queued];

      outbox := outbox + [Outbound(cleanPhone.value, body)];

      match at.transport {
        case Delivered(messageId) =>
          if at.update.Fault? {
            assert d == Dispatched(Crashed(at.update.message), smsHistory, [Outbound(cleanPhone.value, body)]);
            return Crashed(at.update.message);
          }
          smsHistory := smsHistory[key := smsHistory[key].(status := Sent, providerId := messageId)];
          result := SmsResult(true, messageId, None, false);
          assert smsHistory == before[key := queued.(status := Sent, providerId := messageId)];
        case Refused(e) =>
          if at.update.Fault? {
            assert d == Dispatched(Crashed(at.update.message), smsHistory, [Outbound(cleanPhone.value, body)]);
            return Crashed(at.update.message);
          }
          smsHistory := smsHistory[key := smsHistory[key].(status := Failed, errorMessage := Some(e))];
          result := SmsResult(false, None, Some(e), false);
          assert smsHistory == before[key := queued.(status := Failed, errorMessage := Some(e))];
      }
    }

    /** `logCronRun(jobName, plannedAt, success, details)` with the row id `runId`. */
    method LogCronRun(jobName: string, plannedAt: int, success: bool, details: string, runId: string, write: StoreReply)
      modifies this
      ensures State() == LogIn(old(State()), CronRun(runId, jobName, plannedAt, success, details), write)
    {
      if write.Done? {
        cronRuns := cronRuns + [CronRun(runId, jobName, plannedAt, success, details)];
      }
    }
  }
}
