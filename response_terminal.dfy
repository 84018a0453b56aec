/**
 * The result presenter (src/app/response-terminal/response-terminal.ts):
 * classifies the `status` of whatever response object it is given and turns
 * the log it finds into a list of entries, following JavaScript's
 * truthiness, `??` and comparison rules.
 */
module ResponseTerminal {
  import opened Optional
  import opened JsValue

  const STATUS_DEFAULT := "status-default"
  const STATUS_SUCCESS := "status-success"
  const STATUS_ERROR := "status-error"

  /** The classification of a numeric status code, as the terminal means it. */
  function ClassifyCode(code: int): string {
    if 200 <= code < 300 then STATUS_SUCCESS
    else if code >= 400 then STATUS_ERROR
    else STATUS_DEFAULT
  }

  /** `getStatusClass()`. */
  function StatusClass(response: Value): (c: string)
    ensures c == STATUS_DEFAULT || c == STATUS_SUCCESS || c == STATUS_ERROR
    ensures !Truthy(Get(response, "status")) ==> c == STATUS_DEFAULT
    ensures Truthy(Get(response, "status")) && ToNumber(Get(response, "status")).None? ==> c == STATUS_DEFAULT
    ensures Truthy(Get(response, "status")) && ToNumber(Get(response, "status")).Some? ==>
      c == ClassifyCode(ToNumber(Get(response, "status")).value)
  {
    var status := Get(response, "status");
    if !Truthy(status) then STATUS_DEFAULT
    else if AtLeast(status, 200) && Below(status, 300) then STATUS_SUCCESS
    else if AtLeast(status, 400) then STATUS_ERROR
    else STATUS_DEFAULT
  }

  /** `hasLog()`: a present response whose `log` or `payload.log` is truthy. */
  function HasLog(response: Value): (b: bool)
    ensures b <==> Truthy(response) && (Truthy(Get(response, "log")) || Truthy(Get(Get(response, "payload"), "log")))
  {
    Truthy(response) &&
      (Truthy(Get(response, "log")) || Truthy(Get(Get(response, "payload"), "log")) || Truthy(Get(response, "log")))
  }

  /** `response?.log ?? response?.payload?.log ?? response`. */
  function LogCandidate(response: Value): (candidate: Value)
    ensures !Nullish(Get(response, "log")) ==> candidate == Get(response, "log")
    ensures Nullish(Get(response, "log")) && !Nullish(Get(Get(response, "payload"), "log")) ==>
      candidate == Get(Get(response, "payload"), "log")
    ensures Nullish(Get(response, "log")) && Nullish(Get(Get(response, "payload"), "log")) ==> candidate == response
  {
    Coalesce(Get(response, "log"), Coalesce(Get(Get(response, "payload"), "log"), response))
  }

  /** The normalisation `getLogEntries` applies to its candidate. */
  function Entries(candidate: Value): (entries: seq<Value>)
    ensures !Truthy(candidate) ==> entries == []
    ensures candidate.Arr? ==> entries == candidate.items
    ensures candidate.Obj? && Get(candidate, "entries").Arr? ==> entries == Get(candidate, "entries").items
    ensures candidate.Obj? && !Get(candidate, "entries").Arr? ==> entries == [candidate]
    ensures candidate.Bool? || candidate.Num? || candidate.Str? ==> entries == []
  {
    if !Truthy(candidate) then []
    else if candidate.Arr? then candidate.items
    else if Truthy(Get(candidate, "entries")) && Get(candidate, "entries").Arr? then Get(candidate, "entries").items
    else if candidate.Obj? then [candidate]
    else []
  }

  /** `getLogEntries()`. */
  function LogEntries(response: Value): (entries: seq<Value>)
    ensures !Nullish(Get(response, "log")) ==> entries == Entries(Get(response, "log"))
    ensures Nullish(Get(response, "log")) && !Nullish(Get(Get(response, "payload"), "log")) ==>
      entries == Entries(Get(Get(response, "payload"), "log"))
    ensures Nullish(Get(response, "log")) && Nullish(Get(Get(response, "payload"), "log")) ==> entries == Entries(response)
  {
    Entries(LogCandidate(response))
  }

  /** A plain numeric status is classified by its code, 0 included (it is falsy, hence default). */
  lemma NumericStatusClass(fields: map<string, Value>, code: int)
    requires "status" in fields && fields["status"] == Num(code)
    ensures StatusClass(Obj(fields)) == ClassifyCode(code)
    ensures 200 <= code < 300 <==> StatusClass(Obj(fields)) == STATUS_SUCCESS
    ensures code >= 400 <==> StatusClass(Obj(fields)) == STATUS_ERROR
  {
  }

  /**
   * The string statuses the client itself sets, 'done' and 'error', never
   * compare as numbers, so both show as default.
   */
  lemma ClientStatusStringsAreDefault(fields: map<string, Value>)
    requires "status" in fields && (fields["status"] == Str("done") || fields["status"] == Str("error"))
    ensures StatusClass(Obj(fields)) == STATUS_DEFAULT
  {
    assert !AllDigits("done") by { assert !IsDigit("done"[0]); }
    assert !AllDigits("error") by { assert !IsDigit("error"[0]); }
  }

  /** A status sent as a decimal string is compared by its number: "204" is a success. */
  lemma DecimalStringStatus(fields: map<string, Value>, code: nat)
    requires "status" in fields && fields["status"] == Str(DecimalString(code))
    ensures StatusClass(Obj(fields)) == ClassifyCode(code)
  {
    DecimalStringRoundTrip(code);
    if code == 0 {
      assert DecimalString(0) == "0";
    }
  }

  /** An array log is shown as it is: the same entries in the same order. */
  lemma ArrayLogShownAsIs(fields: map<string, Value>, log: seq<Value>)
    requires "log" in fields && fields["log"] == Arr(log)
    ensures LogEntries(Obj(fields)) == log
  {
  }

  /** A log object holding an `entries` array shows that array. */
  lemma EntriesKeyShown(fields: map<string, Value>, logFields: map<string, Value>, entries: seq<Value>)
    requires "log" in fields && fields["log"] == Obj(logFields)
    requires "entries" in logFields && logFields["entries"] == Arr(entries)
    ensures LogEntries(Obj(fields)) == entries
  {
  }

  /**
   * Any other log object is one entry, even when it holds arrays under other
   * keys: `{"calls": [...]}` is shown as the single entry `{"calls": [...]}`.
   */
  lemma OtherLogObjectWrapped(fields: map<string, Value>, logFields: map<string, Value>)
    requires "log" in fields && fields["log"] == Obj(logFields)
    requires !("entries" in logFields && logFields["entries"].Arr?)
    ensures LogEntries(Obj(fields)) == [Obj(logFields)]
  {
  }

  /** Without `log`, the log nested under `payload` is used. */
  lemma PayloadLogUsed(fields: map<string, Value>, log: Value)
    requires "log" !in fields || Nullish(fields["log"])
    requires "payload" in fields && Get(fields["payload"], "log") == log && !Nullish(log)
    ensures LogEntries(Obj(fields)) == Entries(log)
  {
  }

  /**
   * A response object with no log at either place is itself the candidate:
   * it is shown as one entry (or as its own `entries` array), not as nothing.
   */
  lemma ResponseWithoutLogWrapped(fields: map<string, Value>)
    requires "log" !in fields || Nullish(fields["log"])
    requires "payload" !in fields || Nullish(Get(fields["payload"], "log"))
    requires !("entries" in fields && fields["entries"].Arr?)
    ensures LogEntries(Obj(fields)) == [Obj(fields)]
    ensures !HasLog(Obj(fields))
  {
  }

  /** Nothing to show for an absent response or a falsy candidate. */
  lemma AbsentResponseShowsNothing(response: Value)
    requires Nullish(response)
    ensures LogEntries(response) == [] && !HasLog(response) && StatusClass(response) == STATUS_DEFAULT
  {
  }

  /**
   * When `hasLog()` holds, the entries come from the log itself — `log` or
   * `payload.log` — and never from the surrounding response object.
   */
  lemma HasLogMeansEntriesFromLog(response: Value)
    requires HasLog(response)
    ensures LogCandidate(response) == Get(response, "log") || LogCandidate(response) == Get(Get(response, "payload"), "log")
    ensures !Nullish(LogCandidate(response))
  {
  }

  /**
   * The two queries can disagree: a falsy but present `log` (here `false`)
   * hides a truthy `payload.log`, so `hasLog()` holds while no entry is shown.
   */
  lemma HasLogWithoutEntries(entries: seq<Value>)
    ensures var response := Obj(map["log" := Bool(false), "payload" := Obj(map["log" := Arr(entries)])]);
            HasLog(response) && LogEntries(response) == []
  {
  }

  /**
   * In general: a present but falsy `log` (false, 0 or "") is the candidate
   * and shows no entry, whatever `payload.log` holds.
   */
  lemma FalsyLogHidesPayload(response: Value)
    requires !Nullish(Get(response, "log")) && !Truthy(Get(response, "log"))
    ensures LogEntries(response) == []
    ensures HasLog(response) <==> Truthy(response) && Truthy(Get(Get(response, "payload"), "log"))
  {
  }
}
