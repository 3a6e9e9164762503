/** The background worker: the sweep over stored checks, their validation, the probe with its
    three completion events, the up/down state machine with its alert rule, the outcome log,
    and log rotation. */
module Workers {
  import opened Js
  import Data
  import Logs

  /** A stored check as the worker holds it: the properties of the parsed object. */
  type CheckData = map<string, JsValue>

  const ChecksDir := "checks"

  // ---------------------------------------------------------------------------
  // validateCheckData

  predicate ValidId(v: JsValue) { v.Str? && |Trim(v.s)| == 20 }
  predicate ValidUserPhone(v: JsValue) { v.Str? && |Trim(v.s)| == 10 }
  predicate ValidProtocol(v: JsValue) { v == Str("http") || v == Str("https") }
  predicate ValidUrl(v: JsValue) { v.Str? && |Trim(v.s)| > 0 }
  predicate ValidMethod(v: JsValue) { v == Str("post") || v == Str("get") || v == Str("put") || v == Str("delete") }
  predicate ValidSuccessCodes(v: JsValue) { v.Arr? && |v.items| > 0 }
  predicate ValidTimeout(v: JsValue) { v.Num? && v.n.Floor as real == v.n && 1.0 <= v.n <= 5.0 }

  /** The condition under which a stored check is handed to performCheck. */
  predicate WellFormed(c: CheckData) {
    && ValidId(Prop(c, "id"))
    && ValidProtocol(Prop(c, "protocol"))
    && ValidUrl(Prop(c, "url"))
    && ValidMethod(Prop(c, "method"))
    && ValidSuccessCodes(Prop(c, "successCodes"))
    && ValidTimeout(Prop(c, "timeoutSeconds"))
  }

  /** The properties validation looks at. */
  predicate SameValidatedFields(a: CheckData, b: CheckData) {
    && Prop(a, "id") == Prop(b, "id") && Prop(a, "protocol") == Prop(b, "protocol")
    && Prop(a, "url") == Prop(b, "url") && Prop(a, "method") == Prop(b, "method")
    && Prop(a, "successCodes") == Prop(b, "successCodes")
    && Prop(a, "timeoutSeconds") == Prop(b, "timeoutSeconds")
  }

  lemma SameValidatedFieldsSameVerdict(a: CheckData, b: CheckData)
    requires SameValidatedFields(a, b)
    ensures WellFormed(a) == WellFormed(b)
  {
  }

  /** A check's own properties; anything but an object is replaced by `{}`, on which every
      field is missing. */
  function RecordOf(original: JsValue): CheckData {
    if original.Obj? then original.props else map[]
  }

  function DefaultState(v: JsValue): JsValue {
    if v == Str("up") || v == Str("down") then v else Str("down")
  }

  function DefaultLastChecked(v: JsValue): JsValue {
    if v.Num? && v.n > 0.0 then v else Bool(false)
  }

  /** The record after validation: `state` is "up" or "down" (kept if it already was one of
      them, "down" otherwise), `lastChecked` is a positive number (kept) or `false`, and every
      other property is exactly as stored. */
  function WithDefaults(c: CheckData): (r: CheckData)
    ensures r.Keys == c.Keys + {"state", "lastChecked"}
    ensures forall k :: k in c && k != "state" && k != "lastChecked" ==> r[k] == c[k]
    ensures r["state"] == Str("up") || r["state"] == Str("down")
    ensures Prop(c, "state") == Str("up") || Prop(c, "state") == Str("down") ==> r["state"] == c["state"]
    ensures Prop(c, "state") != Str("up") && Prop(c, "state") != Str("down") ==> r["state"] == Str("down")
    ensures r["lastChecked"] == Bool(false) || (r["lastChecked"].Num? && r["lastChecked"].n > 0.0)
    ensures Prop(c, "lastChecked").Num? && Prop(c, "lastChecked").n > 0.0 ==> r["lastChecked"] == c["lastChecked"]
    ensures SameValidatedFields(r, c)
  {
    c["state" := DefaultState(Prop(c, "state"))]["lastChecked" := DefaultLastChecked(Prop(c, "lastChecked"))]
  }

  /** `typeof x == 'string' && <valid> ? x.trim() : false`: the trimmed text exactly when the
      field is valid, `false` otherwise. */
  function TrimmedIfValid(v: JsValue, valid: bool): (r: JsValue)
    requires valid ==> v.Str? && Trim(v.s) != ""
    ensures Truthy(r) <==> valid
  {
    if valid then Str(Trim(v.s)) else Bool(false)
  }

  /** `typeof x == … && <valid> ? x : false`. */
  function KeptIfValid(v: JsValue, valid: bool): (r: JsValue)
    requires valid ==> Truthy(v)
    ensures Truthy(r) <==> valid
  {
    if valid then v else Bool(false)
  }

  /** A valid protocol or method is one of a few unpadded words, so its trim is not empty. */
  lemma WordsTrimToThemselves(v: JsValue)
    requires ValidProtocol(v) || ValidMethod(v)
    ensures Trim(v.s) == v.s && v.s != ""
  {
    StripOfUnpadded(v.s, IsSpace);
  }

  /** validateCheckData: the trimmed copies of the fields are local and are not written back;
      only the defaults for `state` and `lastChecked` change the record that is forwarded. */
  method ValidateCheckData(original: JsValue) returns (check: CheckData, forward: bool)
    ensures check == WithDefaults(RecordOf(original))
    ensures forward <==> WellFormed(RecordOf(original))
  {
    var data := RecordOf(original);
    ghost var withDefaults := WithDefaults(data);
    assert withDefaults == data["state" := DefaultState(Prop(data, "state"))]["lastChecked" := DefaultLastChecked(Prop(data, "lastChecked"))];
    var idField, phoneField, protocolField := Prop(data, "id"), Prop(data, "userPhone"), Prop(data, "protocol");
    var urlField, methodField := Prop(data, "url"), Prop(data, "method");
    var validProtocol, validMethod := ValidProtocol(protocolField), ValidMethod(methodField);
    if validProtocol {
      WordsTrimToThemselves(protocolField);
    }
    if validMethod {
      WordsTrimToThemselves(methodField);
    }
    var id := TrimmedIfValid(idField, ValidId(idField));
    var userPhone := TrimmedIfValid(phoneField, ValidUserPhone(phoneField));
    var protocol := TrimmedIfValid(protocolField, validProtocol);
    var url := TrimmedIfValid(urlField, ValidUrl(urlField));
    var httpMethod := TrimmedIfValid(methodField, validMethod);
    var successCodes := KeptIfValid(Prop(data, "successCodes"), ValidSuccessCodes(Prop(data, "successCodes")));
    var timeoutSeconds := KeptIfValid(Prop(data, "timeoutSeconds"), ValidTimeout(Prop(data, "timeoutSeconds")));

    forward := Truthy(id) && Truthy(protocol) && Truthy(url) && Truthy(httpMethod)
               && Truthy(successCodes) && Truthy(timeoutSeconds);
    assert forward == WellFormed(data);
    data := data["state" := DefaultState(Prop(data, "state"))];
    data := data["lastChecked" := DefaultLastChecked(Prop(data, "lastChecked"))];
    check := data;
  }

  /** The phone number is checked but never decides whether a check is probed. */
  lemma UserPhoneNeverBlocksProbing(c: CheckData, phone: JsValue)
    ensures WellFormed(c["userPhone" := phone]) == WellFormed(c)
  {
    SameValidatedFieldsSameVerdict(c["userPhone" := phone], c);
  }

  /** Validating a validated record again changes nothing. */
  lemma ValidationIdempotent(c: CheckData)
    ensures WithDefaults(WithDefaults(c)) == WithDefaults(c)
  {
    var r := WithDefaults(c);
    assert WithDefaults(r).Keys == r.Keys;
  }

  // ---------------------------------------------------------------------------
  // performCheck: one request, three completion events, one outcome

  /** The `error` field of a check outcome: `{error: true, value: err}` for a request error,
      `{error: true, value: 'timeout'}` for a timeout. */
  datatype ProbeFailure = RequestFailed(err: JsValue) | TimedOut

  /** The mutable `checkOutcome` object; `None` stands for the initial `false`. */
  datatype CheckOutcome = CheckOutcome(error: Option<ProbeFailure>, responseCode: Option<int>)

  const NoOutcomeYet := CheckOutcome(None, None)

  datatype ProbeEvent = Response(statusCode: int) | RequestError(err: JsValue) | Timeout

  /** What an event handler writes into `checkOutcome` before it looks at `outcomeSent`. */
  function Observe(o: CheckOutcome, e: ProbeEvent): CheckOutcome {
    match e
    case Response(code) => o.(responseCode := Some(code))
    case RequestError(err) => o.(error := Some(RequestFailed(err)))
    case Timeout => o.(error := Some(TimedOut))
  }

  datatype ProbeState = ProbeState(outcome: CheckOutcome, outcomeSent: bool)

  /** The probe's `checkOutcome` and `outcomeSent` after a sequence of events. */
  function Run(events: seq<ProbeEvent>): ProbeState {
    if events == [] then ProbeState(NoOutcomeYet, false)
    else
      var s := Run(events[..|events| - 1]);
      ProbeState(Observe(s.outcome, events[|events| - 1]), true)
  }

  /** The outcomes handed to processCheckOutcome by a sequence of events, in order. */
  function Deliveries(events: seq<ProbeEvent>): seq<CheckOutcome> {
    if events == [] then []
    else
      var prior := events[..|events| - 1];
      var s := Run(prior);
      Deliveries(prior) + (if s.outcomeSent then [] else [Observe(s.outcome, events[|events| - 1])])
  }

  /** Whatever the order and number of response, error and timeout events, the outcome is
      processed at most once, exactly once after the first event, and it is the outcome the
      first event wrote. */
  lemma {:induction false} ExactlyOnce(events: seq<ProbeEvent>)
    ensures Run(events).outcomeSent <==> events != []
    ensures |Deliveries(events)| == if events == [] then 0 else 1
    ensures events != [] ==> Deliveries(events)[0] == Observe(NoOutcomeYet, events[0])
  {
    if events != [] {
      var prior := events[..|events| - 1];
      ExactlyOnce(prior);
      if prior != [] {
        assert prior[0] == events[0];
      }
    }
  }

  /** The delivered outcome carries a response code or an error, never both. */
  lemma DeliveredOutcomeIsExclusive(e: ProbeEvent)
    ensures var o := Observe(NoOutcomeYet, e);
            (o.error.Some? && o.responseCode.None? && !e.Response?)
            || (o.error.None? && o.responseCode == Some(e.statusCode))
  {
  }

  /** The request performCheck builds: `<protocol>:`, the upper-cased method and the timeout in
      milliseconds; the https module is used exactly for "https". */
  datatype RequestDetails = RequestDetails(protocol: string, httpMethod: string, timeoutMs: int, secure: bool)

  function RequestFor(c: CheckData): (r: RequestDetails)
    requires WellFormed(c)
    ensures 1000 <= r.timeoutMs <= 5000 && r.timeoutMs % 1000 == 0
    ensures r.secure <==> Prop(c, "protocol") == Str("https")
    ensures r.httpMethod in {"POST", "GET", "PUT", "DELETE"}
    ensures r.protocol == Prop(c, "protocol").s + ":"
    ensures r.httpMethod == ToUpper(Prop(c, "method").s)
    ensures r.timeoutMs as real == 1000.0 * Prop(c, "timeoutSeconds").n
  {
    UpperCaseMethods(Prop(c, "method"));
    var protocol := Prop(c, "protocol").s;
    RequestDetails(protocol + ":", ToUpper(Prop(c, "method").s),
                   Prop(c, "timeoutSeconds").n.Floor * 1000, protocol == "https")
  }

  /** The four accepted methods upper-case to the HTTP request methods. */
  lemma UpperCaseMethods(v: JsValue)
    requires ValidMethod(v)
    ensures ToUpper(v.s) in {"POST", "GET", "PUT", "DELETE"}
  {
    var u := ToUpper(v.s);
    if v.s == "post" {
      assert u == "POST";
    } else if v.s == "get" {
      assert u == "GET";
    } else if v.s == "put" {
      assert u == "PUT";
    } else {
      assert u == "DELETE";
    }
  }

  // ---------------------------------------------------------------------------
  // processCheckOutcome: the up/down decision and the alert rule

  /** "up" exactly when there is no error and a truthy response code listed in successCodes. */
  function NewState(check: CheckData, outcome: CheckOutcome): (s: string)
    ensures s == "up" || s == "down"
  {
    var codes := Prop(check, "successCodes");
    if && outcome.error.None?
       && outcome.responseCode.Some? && outcome.responseCode.value != 0
       && codes.Arr? && Num(outcome.responseCode.value as real) in codes.items
    then "up" else "down"
  }

  /** An alert needs a truthy `lastChecked` and a stored state other than the new one. */
  predicate AlertWarranted(check: CheckData, state: string)
    ensures !Truthy(Prop(check, "lastChecked")) ==> !AlertWarranted(check, state)
    ensures Truthy(Prop(check, "lastChecked")) ==> (AlertWarranted(check, state) <==> Prop(check, "state") != Str(state))
  {
    Truthy(Prop(check, "lastChecked")) && Prop(check, "state") != Str(state)
  }

  /** The record as persisted: `state` and `lastChecked` replaced, nothing else changed. */
  function WithOutcome(check: CheckData, state: string, time: nat): (r: CheckData)
    ensures r.Keys == check.Keys + {"state", "lastChecked"}
    ensures r["state"] == Str(state) && r["lastChecked"] == Num(time as real)
    ensures forall k :: k in check && k != "state" && k != "lastChecked" ==> r[k] == check[k]
    ensures SameValidatedFields(r, check)
  {
    check["state" := Str(state)]["lastChecked" := Num(time as real)]
  }

  /** Only a response (never a request error or a timeout) can make a check "up", and it does
      so exactly when its code is non-zero and listed in successCodes. */
  lemma UpOnlyOnListedResponse(check: CheckData, e: ProbeEvent)
    ensures NewState(check, Observe(NoOutcomeYet, e)) == "up" <==>
              e.Response? && e.statusCode != 0 && Prop(check, "successCodes").Arr?
              && Num(e.statusCode as real) in Prop(check, "successCodes").items
  {
  }

  /** The first classification of a check (no positive `lastChecked` stored) never alerts. */
  lemma FirstClassificationNeverAlerts(stored: CheckData, outcome: CheckOutcome)
    requires !(Prop(stored, "lastChecked").Num? && Prop(stored, "lastChecked").n > 0.0)
    ensures var c := WithDefaults(stored); !AlertWarranted(c, NewState(c, outcome))
  {
  }

  /** Once a check has been classified, an alert is raised exactly on a change of state. */
  lemma AlertExactlyOnChange(stored: CheckData, outcome: CheckOutcome)
    requires Prop(stored, "lastChecked").Num? && Prop(stored, "lastChecked").n > 0.0
    ensures var c := WithDefaults(stored); var s := NewState(c, outcome);
            AlertWarranted(c, s) <==> c["state"] != Str(s)
  {
  }

  /** The persisted record passes validation unchanged when the time is positive. */
  lemma PersistedRecordRevalidates(check: CheckData, outcome: CheckOutcome, time: nat)
    requires WellFormed(check) && time > 0
    ensures var r := WithOutcome(check, NewState(check, outcome), time);
            WellFormed(r) && WithDefaults(r) == r
  {
    var r := WithOutcome(check, NewState(check, outcome), time);
    SameValidatedFieldsSameVerdict(r, check);
    assert WithDefaults(r).Keys == r.Keys;
  }

  /** Classifying the same outcome again right after it was persisted never alerts. */
  lemma RepeatedOutcomeNeverAlerts(check: CheckData, outcome: CheckOutcome, time: nat)
    ensures var r := WithOutcome(check, NewState(check, outcome), time);
            NewState(r, outcome) == NewState(check, outcome) && !AlertWarranted(r, NewState(r, outcome))
  {
    var r := WithOutcome(check, NewState(check, outcome), time);
    assert Prop(r, "successCodes") == Prop(check, "successCodes");
  }

  /** After a classification persisted at a positive time, a different state alerts. */
  lemma ChangeAfterClassificationAlerts(check: CheckData, first: CheckOutcome, second: CheckOutcome, time: nat)
    requires time > 0
    requires NewState(check, second) != NewState(check, first)
    ensures var r := WithOutcome(check, NewState(check, first), time);
            AlertWarranted(r, NewState(r, second))
  {
    var r := WithOutcome(check, NewState(check, first), time);
    assert Prop(r, "successCodes") == Prop(check, "successCodes");
  }

  // ---------------------------------------------------------------------------
  // log line and alert text

  function OutcomeJson(o: CheckOutcome): JsValue {
    var error := match o.error
      case None => Bool(false)
      case Some(RequestFailed(err)) => Obj(map["error" := Bool(true), "value" := err])
      case Some(TimedOut) => Obj(map["error" := Bool(true), "value" := Str("timeout")]);
    var code := match o.responseCode
      case None => Bool(false)
      case Some(c) => Num(c as real);
    Obj(map["error" := error, "responseCode" := code])
  }

  /** The object workers.log serialises: `{check, outcome, state, alert, time}`. */
  function LogRecord(check: CheckData, outcome: CheckOutcome, state: string, alert: bool, time: nat): (r: JsValue)
    ensures r.Obj? && r.props.Keys == {"check", "outcome", "state", "alert", "time"}
    ensures r.props["check"] == Obj(check) && r.props["outcome"] == OutcomeJson(outcome)
    ensures r.props["state"] == Str(state) && r.props["alert"] == Bool(alert) && r.props["time"] == Num(time as real)
  {
    Obj(map["check" := Obj(check), "outcome" := OutcomeJson(outcome), "state" := Str(state),
            "alert" := Bool(alert), "time" := Num(time as real)])
  }

  /** The log (and the stored file) a check is written to: its `id` as stored, untrimmed. */
  function IdOf(check: CheckData): string
    requires WellFormed(check)
  {
    Prop(check, "id").s
  }

  /** The SMS text: it opens with the upper-cased method and closes with the new state. */
  function AlertMessage(check: CheckData): (r: string)
    requires WellFormed(check) && Prop(check, "state").Str?
    ensures var prefix := "Alert: Your check for " + ToUpper(Prop(check, "method").s) + " ";
            |prefix| <= |r| && r[..|prefix|] == prefix
    ensures var suffix := " is currently " + Prop(check, "state").s;
            |suffix| <= |r| && r[|r| - |suffix|..] == suffix
  {
    "Alert: Your check for " + ToUpper(Prop(check, "method").s) + " " + Prop(check, "protocol").s
    + "://" + Prop(check, "url").s + " is currently " + Prop(check, "state").s
  }

  /** An SMS handed to the alert transport: the check's `userPhone` as stored, and the text. */
  datatype Sms = Sms(phone: JsValue, message: string)

  // ---------------------------------------------------------------------------
  // rotateLogs

  /** One listed log: compress `<logId>.log` into `<logId>-<now>.gz.b64`, then truncate the
      live log only when compress reported no error. */
  function RotateOne(files: map<string, string>, logId: string, now: nat, codec: Logs.Codec): (r: map<string, string>)
    ensures files.Keys <= r.Keys <= files.Keys + {Logs.ArchiveName(logId + "-" + NatToString(now))}
  {
    var c := Logs.CompressSpec(files, logId, logId + "-" + NatToString(now), codec);
    if c.err.None? then Logs.TruncateSpec(c.files, logId).files else c.files
  }

  /** The listed names in order, each with its first ".log" removed once more. */
  function RotateAll(files: map<string, string>, names: seq<string>, now: nat, codec: Logs.Codec): (r: map<string, string>)
    ensures files.Keys <= r.Keys
    ensures names == [] ==> r == files
  {
    if names == [] then files
    else RotateOne(RotateAll(files, names[..|names| - 1], now, codec),
                   ReplaceFirst(names[|names| - 1], ".log", ""), now, codec)
  }

  /** Rotating one more listed name extends the rotation of the names before it. */
  lemma RotateAllStep(files: map<string, string>, names: seq<string>, i: nat, now: nat, codec: Logs.Codec)
    requires i < |names|
    ensures RotateAll(files, names[..i + 1], now, codec) ==
            RotateOne(RotateAll(files, names[..i], now, codec), ReplaceFirst(names[i], ".log", ""), now, codec)
  {
    assert names[..i + 1][..i] == names[..i];
  }

  /** The names rotateLogs works through: the live logs `list(false)` reports. */
  function RotationNames(listing: DirRead): seq<string> {
    match listing
    case ReadDirFailed(_) => []
    case DirEntries(names) => Logs.LogNames(names, false)
  }

  predicate IsLogName(n: string) { |n| >= 4 && n[|n| - 4..] == ".log" }

  predicate IsArchiveName(n: string) { |n| >= 7 && n[|n| - 7..] == ".gz.b64" }

  /** Rotation deletes nothing and overwrites nothing: every file stays, unchanged unless it is
      a live log that was emptied, and every new file is an archive. */
  lemma {:induction false} RotationKeepsFiles(files: map<string, string>, names: seq<string>, now: nat, codec: Logs.Codec)
    ensures var r := RotateAll(files, names, now, codec);
            && (forall n :: n in files ==> n in r && (r[n] == files[n] || (IsLogName(n) && r[n] == "")))
            && (forall n :: n in r && n !in files ==> IsArchiveName(n))
  {
    if names != [] {
      var prior := RotateAll(files, names[..|names| - 1], now, codec);
      RotationKeepsFiles(files, names[..|names| - 1], now, codec);
      var logId := ReplaceFirst(names[|names| - 1], ".log", "");
      var archive := Logs.ArchiveName(logId + "-" + NatToString(now));
      var live := Logs.LogName(logId);
      assert IsArchiveName(archive) by { assert archive[|archive| - 7..] == ".gz.b64"; }
      assert IsLogName(live) by { assert live[|live| - 4..] == ".log"; }
    }
  }

  /** Every case of one rotation step: a present, non-empty log whose archive name is free is
      archived and emptied; otherwise the directory is left as it was. */
  lemma RotateOneCases(files: map<string, string>, logId: string, now: nat, codec: Logs.Codec)
    ensures var r := RotateOne(files, logId, now, codec);
            var log := Logs.LogName(logId);
            var a := Logs.ArchiveName(logId + "-" + NatToString(now));
            && (log in files && files[log] != "" && a !in files ==>
                  r == files[a := codec.gzipBase64(files[log])][log := ""])
            && (log !in files || files[log] == "" || a in files ==> r == files)
  {
    var log := Logs.LogName(logId);
    Logs.LiveAndArchiveNamesDiffer(logId, logId + "-" + NatToString(now));
    if log in files && files[log] == "" {
      assert files[log := ""] == files;
    }
  }

  /** Distinct ids name distinct live logs and, for one timestamp, distinct archives. */
  lemma RotationNamesDistinct(x: string, y: string, stamp: string)
    requires x != y
    ensures Logs.LogName(x) != Logs.LogName(y)
    ensures Logs.ArchiveName(x + "-" + stamp) != Logs.ArchiveName(y + "-" + stamp)
  {
    assert Logs.LogName(x)[..|x|] == x && Logs.LogName(y)[..|y|] == y;
    assert Logs.ArchiveName(x + "-" + stamp)[..|x|] == x && Logs.ArchiveName(y + "-" + stamp)[..|y|] == y;
  }

  /** No log text is lost by a rotation sweep: a non-empty live log either keeps its text or is
      empty with its archive `<id>-<now>.gz.b64` holding the encoded text; it is emptied only
      once that archive was written; and when its id is listed and the archive name was free,
      it is archived. */
  lemma {:induction false} RotationArchivesBeforeEmptying(files: map<string, string>, names: seq<string>, now: nat,
                                                          codec: Logs.Codec, id: string)
    requires Logs.LogName(id) in files && files[Logs.LogName(id)] != ""
    ensures var r := RotateAll(files, names, now, codec);
            var log := Logs.LogName(id);
            var a := Logs.ArchiveName(id + "-" + NatToString(now));
            && log in r
            && (r[log] == files[log] || (r[log] == "" && a in r && r[a] == codec.gzipBase64(files[log])))
            && (a !in files && r[log] == files[log] ==> a !in r)
    ensures var r := RotateAll(files, names, now, codec);
            var log := Logs.LogName(id);
            var a := Logs.ArchiveName(id + "-" + NatToString(now));
            forall k :: 0 <= k < |names| && ReplaceFirst(names[k], ".log", "") == id && a !in files ==>
              r[log] == "" && a in r && r[a] == codec.gzipBase64(files[log])
  {
    if names != [] {
      var init := names[..|names| - 1];
      var stamp := NatToString(now);
      var log, a := Logs.LogName(id), Logs.ArchiveName(id + "-" + stamp);
      RotationArchivesBeforeEmptying(files, init, now, codec, id);
      var prior := RotateAll(files, init, now, codec);
      var last := ReplaceFirst(names[|names| - 1], ".log", "");
      var r := RotateOne(prior, last, now, codec);
      assert r == RotateAll(files, names, now, codec);
      RotateOneCases(prior, last, now, codec);
      Logs.LiveAndArchiveNamesDiffer(id, last + "-" + stamp);
      Logs.LiveAndArchiveNamesDiffer(last, id + "-" + stamp);
      if last != id {
        RotationNamesDistinct(last, id, stamp);
      }
      forall k | 0 <= k < |names| && ReplaceFirst(names[k], ".log", "") == id && a !in files
        ensures r[log] == "" && a in r && r[a] == codec.gzipBase64(files[log])
      {
        if k < |names| - 1 {
          assert init[k] == names[k];
        }
      }
    }
  }

  /** A directory with one non-empty live log: rotation leaves the log present but empty and
      adds the archive `<id>-<now>.gz.b64` holding the encoded text. */
  lemma RotationOfOneLiveLog(id: string, text: string, now: nat, codec: Logs.Codec)
    requires '.' !in id && text != ""
    ensures var files := map[Logs.LogName(id) := text];
            RotateAll(files, RotationNames(DirEntries([Logs.LogName(id)])), now, codec)
            == map[Logs.LogName(id) := "", Logs.ArchiveName(id + "-" + NatToString(now)) := codec.gzipBase64(text)]
  {
    Logs.LiveLogListed(id, false);
    assert Logs.LogNames([Logs.LogName(id)], false) == [id] by {
      assert [Logs.LogName(id)][..0] == [];
    }
    assert IndexOf(id, ".log") == -1 by {
      if IndexOf(id, ".log") != -1 {
        NoDotNoEarlyOccurrence(id, "", ".log", IndexOf(id, ".log"));
      }
    }
    assert [id][..0] == [];
    Logs.LiveAndArchiveNamesDiffer(id, id + "-" + NatToString(now));
  }

  // ---------------------------------------------------------------------------
  // timers

  datatype Task = SweepTask | RotationTask

  /** A setInterval timer: the task it runs and its period in milliseconds. */
  datatype Timer = Timer(intervalMs: nat, task: Task)

  /** workers.loop: the sweep, once per minute. */
  const SweepTimer := Timer(1000 * 60, SweepTask)

  /** workers.logRotationLoop: once per day, and it runs the sweep, not rotation. */
  const LogRotationTimer := Timer(1000 * 60 * 60 * 24, SweepTask)

  // ---------------------------------------------------------------------------
  // the stateful part

  /** processCheckOutcome's effects, in its order: the log line with the record as it was before
      the update, the store update of `checks/<id>` (which fails for an id with no stored file),
      and an SMS only when the update succeeded and an alert was warranted. */
  twostate predicate OutcomeProcessed(w: Worker, check: CheckData, outcome: CheckOutcome, now: nat, newCheckData: CheckData)
    requires WellFormed(check)
    reads w, w.store, w.logs
  {
    var state := NewState(check, outcome);
    var alert := AlertWarranted(check, state);
    var path := Data.Path(ChecksDir, IdOf(check));
    && newCheckData == WithOutcome(check, state, now)
    && w.logs.files == Logs.AppendSpec(old(w.logs.files), IdOf(check), w.stringify(LogRecord(check, outcome, state, alert, now)))
    && w.store.files == (if path in old(w.store.files) then old(w.store.files)[path := Data.Json(Obj(newCheckData))] else old(w.store.files))
    && w.alerts == old(w.alerts) + (if path in old(w.store.files) && alert then [Sms(Prop(check, "userPhone"), AlertMessage(newCheckData))] else [])
  }

  class Worker {
    const store: Data.FileStore
    const logs: Logs.LogDir
    /** JSON.stringify, of which nothing is assumed. */
    const stringify: JsValue -> string
    /** The SMS messages handed to the alert transport, oldest first. */
    var alerts: seq<Sms>

    constructor (store: Data.FileStore, logs: Logs.LogDir, stringify: JsValue -> string)
      ensures this.store == store && this.logs == logs && this.stringify == stringify && alerts == []
    {
      this.store, this.logs, this.stringify := store, logs, stringify;
      alerts := [];
    }

    /** workers.log: one serialised line appended to the log named by the check's id. */
    method Log(check: CheckData, outcome: CheckOutcome, state: string, alert: bool, timeOfCheck: nat)
      requires WellFormed(check)
      modifies logs
      ensures logs.files == Logs.AppendSpec(old(logs.files), IdOf(check), stringify(LogRecord(check, outcome, state, alert, timeOfCheck)))
    {
      var logString := stringify(LogRecord(check, outcome, state, alert, timeOfCheck));
      logs.Append(IdOf(check), logString);
    }

    /** alertUserToStatusChange: the SMS to the stored phone with the alert text. */
    method AlertUserToStatusChange(newCheckData: CheckData)
      requires WellFormed(newCheckData) && Prop(newCheckData, "state").Str?
      modifies this
      ensures alerts == old(alerts) + [Sms(Prop(newCheckData, "userPhone"), AlertMessage(newCheckData))]
    {
      alerts := alerts + [Sms(Prop(newCheckData, "userPhone"), AlertMessage(newCheckData))];
    }

    /** processCheckOutcome, with Date.now() passed in as `now`. */
    method ProcessCheckOutcome(check: CheckData, outcome: CheckOutcome, now: nat) returns (newCheckData: CheckData)
      requires WellFormed(check)
      modifies this, store, logs
      ensures OutcomeProcessed(this, check, outcome, now, newCheckData)
    {
      var state := NewState(check, outcome);
      var alertWarranted := AlertWarranted(check, state);
      var timeOfCheck := now;
      Log(check, outcome, state, alertWarranted, timeOfCheck);
      newCheckData := WithOutcome(check, state, timeOfCheck);
      SameValidatedFieldsSameVerdict(newCheckData, check);
      var err := store.Update(ChecksDir, IdOf(newCheckData), Obj(newCheckData));
      if err.None? && alertWarranted {
        AlertUserToStatusChange(newCheckData);
      }
    }

    /** gatherAllChecks over the given readdir result of the checks directory: every listed
        check that reads as a truthy value and passes validation gets a fresh probe; nothing
        is written anywhere. */
    method GatherAllChecks(listing: DirRead) returns (probes: seq<Probe>)
      ensures Started(this, probes, Forwarded(store.files, SweepKeys(listing)))
      ensures forall j :: 0 <= j < |probes| ==> fresh(probes[j])
    {
      var checks := Data.List(listing);
      probes := [];
      if checks.ReadDirFailed? || |checks.names| == 0 {
        return;
      }
      var keys := checks.names;
      var i := 0;
      while i < |keys|
        invariant 0 <= i <= |keys|
        invariant Started(this, probes, Forwarded(store.files, keys[..i]))
        invariant forall j :: 0 <= j < |probes| ==> fresh(probes[j])
      {
        assert keys[..i + 1][..i] == keys[..i];
        var started := SweepOne(keys[i]);
        StartedConcat(this, probes, started, Forwarded(store.files, keys[..i]), ForwardedOne(store.files, keys[i]));
        probes := probes + started;
        i := i + 1;
      }
      assert keys[..i] == keys;
    }

    /** The read callback inside gatherAllChecks: a truthy stored value is validated and, when
        it passes, performCheck starts a probe on it. */
    method SweepOne(key: string) returns (started: seq<Probe>)
      ensures Started(this, started, ForwardedOne(store.files, key))
      ensures forall j :: 0 <= j < |started| ==> fresh(started[j])
    {
      started := [];
      var originalCheckData := store.Read(ChecksDir, key);
      if originalCheckData.Loaded? && Truthy(originalCheckData.data) {
        var check, forward := ValidateCheckData(originalCheckData.data);
        if forward {
          var probe := new Probe(this, check);
          started := [probe];
          assert ForwardedOne(store.files, key) == [check];
        } else {
          assert ForwardedOne(store.files, key) == [];
        }
      } else {
        assert ForwardedOne(store.files, key) == [];
      }
    }

    /** rotateLogs over the given readdir result of the log directory, with Date.now() as `now`. */
    method RotateLogs(listing: DirRead, now: nat)
      modifies logs
      ensures logs.files == RotateAll(old(logs.files), RotationNames(listing), now, logs.codec)
    {
      var listed := Logs.List(listing, false);
      if listed.ReadDirFailed? || |listed.names| == 0 {
        assert RotationNames(listing) == [];
        return;
      }
      var names := listed.names;
      assert names == RotationNames(listing);
      var start := logs.files;
      var i := 0;
      while i < |names|
        invariant 0 <= i <= |names|
        invariant logs.files == RotateAll(start, names[..i], now, logs.codec)
      {
        RotateAllStep(start, names, i, now, logs.codec);
        RotateLog(names[i], now);
        i := i + 1;
      }
      assert names[..i] == names;
    }

    /** The body rotateLogs runs for one listed name: compress the live log into a timestamped
        archive, and truncate it only when compress reported no error. */
    method RotateLog(logName: string, now: nat)
      modifies logs
      ensures logs.files == RotateOne(old(logs.files), ReplaceFirst(logName, ".log", ""), now, logs.codec)
    {
      var logId := ReplaceFirst(logName, ".log", "");
      var newFileId := logId + "-" + NatToString(now);
      var err := logs.Compress(logId, newFileId);
      if err.None? {
        var truncateErr := logs.Truncate(logId);
      }
    }

    /** init: a sweep and a rotation at start-up, then the two timers, both of which run the
        sweep. */
    method Init(checksListing: DirRead, logsListing: DirRead, now: nat) returns (probes: seq<Probe>, timers: seq<Timer>)
      modifies logs
      ensures Started(this, probes, Forwarded(store.files, SweepKeys(checksListing)))
      ensures logs.files == RotateAll(old(logs.files), RotationNames(logsListing), now, logs.codec)
      ensures timers == [SweepTimer, LogRotationTimer]
      ensures forall t :: t in timers ==> t.task == SweepTask
    {
      probes := GatherAllChecks(checksListing);
      timers := [SweepTimer];
      RotateLogs(logsListing, now);
      timers := timers + [LogRotationTimer];
    }
  }

  /** The probes a sweep started: one per forwarded record, in order, each fresh from
      performCheck (no event yet) and bound to the worker. */
  ghost predicate Started(w: Worker, probes: seq<Probe>, checks: seq<CheckData>)
    reads probes
  {
    && |probes| == |checks|
    && forall j :: 0 <= j < |probes| ==>
         probes[j].worker == w && probes[j].events == [] && probes[j].check == checks[j] && probes[j].Valid()
  }

  lemma StartedConcat(w: Worker, a: seq<Probe>, b: seq<Probe>, ca: seq<CheckData>, cb: seq<CheckData>)
    requires Started(w, a, ca) && Started(w, b, cb)
    ensures Started(w, a + b, ca + cb)
  {
    var probes, checks := a + b, ca + cb;
    forall j | 0 <= j < |probes|
      ensures probes[j].worker == w && probes[j].events == [] && probes[j].check == checks[j] && probes[j].Valid()
    {
      if j < |a| {
        assert probes[j] == a[j] && checks[j] == ca[j];
      } else {
        assert probes[j] == b[j - |a|] && checks[j] == cb[j - |a|];
      }
    }
  }

  /** The keys gatherAllChecks works through: those `list("checks")` reports. */
  function SweepKeys(listing: DirRead): seq<string> {
    match listing
    case ReadDirFailed(_) => []
    case DirEntries(names) => Data.KeysOfNames(names)
  }

  /** What the sweep hands to performCheck for one key. */
  function ForwardedOne(files: map<Data.Path, Data.FileText>, key: string): seq<CheckData> {
    match Data.ReadFile(files, Data.Path(ChecksDir, key))
    case Loaded(v) => if Truthy(v) && WellFormed(RecordOf(v)) then [WithDefaults(RecordOf(v))] else []
    case Missing => []
    case Empty => []
  }

  function Forwarded(files: map<Data.Path, Data.FileText>, keys: seq<string>): seq<CheckData> {
    if keys == [] then []
    else Forwarded(files, keys[..|keys| - 1]) + ForwardedOne(files, keys[|keys| - 1])
  }

  /** Everything the sweep forwards is well formed, with `state` "up" or "down". */
  lemma {:induction false} ForwardedAreWellFormed(files: map<Data.Path, Data.FileText>, keys: seq<string>)
    ensures forall c :: c in Forwarded(files, keys) ==>
              WellFormed(c) && (Prop(c, "state") == Str("up") || Prop(c, "state") == Str("down"))
  {
    if keys != [] {
      ForwardedAreWellFormed(files, keys[..|keys| - 1]);
    }
  }

  /** Every listed check stored as a well-formed object is forwarded, with its defaults. */
  lemma {:induction false} WellFormedChecksAreForwarded(files: map<Data.Path, Data.FileText>, keys: seq<string>, k: nat)
    requires k < |keys|
    requires Data.Path(ChecksDir, keys[k]) in files
    requires files[Data.Path(ChecksDir, keys[k])].Json? && files[Data.Path(ChecksDir, keys[k])].value.Obj?
    requires WellFormed(files[Data.Path(ChecksDir, keys[k])].value.props)
    ensures WithDefaults(files[Data.Path(ChecksDir, keys[k])].value.props) in Forwarded(files, keys)
  {
    var prior := keys[..|keys| - 1];
    var last := keys[|keys| - 1];
    assert Forwarded(files, keys) == Forwarded(files, prior) + ForwardedOne(files, last);
    if k < |keys| - 1 {
      assert prior[k] == keys[k];
      WellFormedChecksAreForwarded(files, prior, k);
    } else {
      var v := files[Data.Path(ChecksDir, last)].value;
      assert Data.ReadFile(files, Data.Path(ChecksDir, last)) == Data.Loaded(v);
      assert RecordOf(v) == v.props && Truthy(v);
    }
  }


  class Probe {
    const worker: Worker
    const request: RequestDetails
    /** The record performCheck received; processCheckOutcome updates it in place. */
    var check: CheckData
    var outcome: CheckOutcome
    var outcomeSent: bool
    /** The events seen so far, and the outcomes handed to processCheckOutcome. */
    ghost var events: seq<ProbeEvent>
    ghost var delivered: seq<CheckOutcome>

    ghost predicate Valid()
      reads this
    {
      && WellFormed(check)
      && ProbeState(outcome, outcomeSent) == Run(events)
      && delivered == Deliveries(events)
    }

    /** performCheck: the request is built and sent; no outcome yet. */
    constructor (worker: Worker, check: CheckData)
      requires WellFormed(check)
      ensures Valid() && this.worker == worker && this.check == check
      ensures request == RequestFor(check) && events == [] && !outcomeSent
    {
      this.worker := worker;
      this.check := check;
      request := RequestFor(check);
      outcome := NoOutcomeYet;
      outcomeSent := false;
      events := [];
      delivered := [];
    }

    /** The response callback: the status code becomes the response code. */
    method OnResponse(statusCode: int, now: nat)
      requires Valid()
      modifies this, worker, worker.store, worker.logs
      ensures Valid() && Settled(Response(statusCode), now)
    {
      Handle(Response(statusCode), now);
    }

    /** The 'error' listener: `{error: true, value: err}`. */
    method OnError(err: JsValue, now: nat)
      requires Valid()
      modifies this, worker, worker.store, worker.logs
      ensures Valid() && Settled(RequestError(err), now)
    {
      Handle(RequestError(err), now);
    }

    /** The 'timeout' listener: `{error: true, value: 'timeout'}`. */
    method OnTimeout(now: nat)
      requires Valid()
      modifies this, worker, worker.store, worker.logs
      ensures Valid() && Settled(Timeout, now)
    {
      Handle(Timeout, now);
    }

    /** After an event: the outcome holds what the event wrote, exactly one outcome has been
        delivered (the one written by the first event), and only the first event processed it. */
    twostate predicate Settled(e: ProbeEvent, now: nat)
      reads this, worker, worker.store, worker.logs
    {
      && WellFormed(old(check))
      && events == old(events) + [e]
      && outcome == Observe(old(outcome), e) && outcomeSent
      && |delivered| == 1 && delivered[0] == Observe(NoOutcomeYet, events[0])
      && (old(outcomeSent) ==>
            && check == old(check) && delivered == old(delivered)
            && worker.alerts == old(worker.alerts)
            && worker.store.files == old(worker.store.files)
            && worker.logs.files == old(worker.logs.files))
      && (!old(outcomeSent) ==>
            && delivered == [outcome]
            && OutcomeProcessed(worker, old(check), outcome, now, check))
    }

    /** The body shared by the three listeners: write the outcome, then process it unless it
        was already sent. processCheckOutcome updates the check record in place. */
    method Handle(e: ProbeEvent, now: nat)
      requires Valid()
      modifies this, worker, worker.store, worker.logs
      ensures Valid() && Settled(e, now)
    {
      ExactlyOnce(events + [e]);
      assert (events + [e])[..|events|] == events;
      if |events| > 0 {
        assert (events + [e])[0] == events[0];
      }
      outcome := Observe(outcome, e);
      events := events + [e];
      if !outcomeSent {
        outcomeSent := true;
        delivered := delivered + [outcome];
        var newCheckData := worker.ProcessCheckOutcome(check, outcome, now);
        SameValidatedFieldsSameVerdict(newCheckData, check);
        check := newCheckData;
      }
    }
  }
}
