/**
 * The root component of the browser client (src/app/app.component.ts). It
 * holds the imported texts and the response shown in the terminal. A run
 * calls `/run-script`, then prefers the log served by `/api/logs` and falls
 * back to whatever the run returned. `fetch` and `Response.json` are
 * replaced by their outcomes.
 */
module AppComponent {
  import opened Optional
  import opened JsValue
  import opened RunOutcome
  import ResponseTerminal

  /** `await fetch('/run-script')` then `await runResp.json()`: a rejection, or the parsed body (any status). */
  datatype RunFetch = RunRejected(error: string) | RunJson(json: Value)

  /** `await fetch('/api/logs')`, its `ok` flag and `await resp.json()`. */
  datatype LogsFetch =
    | LogsRejected(error: string)
    | LogsNotOk(status: nat)
    | LogsJson(json: Value)
    | LogsBodyNotJson(error: string)

  /** `{ status: 'error', error: String(err) }`. */
  function ErrorView(error: string): Value {
    Obj(map["status" := Str("error"), "error" := Str(error)])
  }

  /** `{ log, debugPaths, source }`. */
  function LogView(log: Value, debugPaths: Value, source: Value): Value {
    Obj(map["log" := log, "debugPaths" := debugPaths, "source" := source])
  }

  /** `{ status: 'done', raw, debugPaths }`. */
  function DoneView(raw: Value, debugPaths: Value): Value {
    Obj(map["status" := Str("done"), "raw" := raw, "debugPaths" := debugPaths])
  }

  /** `{ payload, debugPaths }`. */
  function PayloadView(payload: Value, debugPaths: Value): Value {
    Obj(map["payload" := payload, "debugPaths" := debugPaths])
  }

  /** `runJson?.debugPaths ?? null`. */
  function DebugPathsOf(runJson: Value): Value {
    Coalesce(Get(runJson, "debugPaths"), Null)
  }

  /** `runJson?.success && runJson?.source === 'logFile' && runJson?.log`. */
  predicate CarriesLog(runJson: Value) {
    Truthy(Get(runJson, "success")) && Get(runJson, "source") == Str("logFile") && Truthy(Get(runJson, "log"))
  }

  /** `runJson?.success && runJson?.stdout`. */
  predicate CarriesStdout(runJson: Value) {
    Truthy(Get(runJson, "success")) && Truthy(Get(runJson, "stdout"))
  }

  /** The fallback to the run's own body when the logs step gave no JSON. */
  function RunFallback(runJson: Value): (v: Value)
    ensures CarriesLog(runJson) ==> v == LogView(Get(runJson, "log"), DebugPathsOf(runJson), Str("logFile"))
    ensures !CarriesLog(runJson) && CarriesStdout(runJson) ==> v == DoneView(Get(runJson, "stdout"), DebugPathsOf(runJson))
    ensures !CarriesLog(runJson) && !CarriesStdout(runJson) ==> v == PayloadView(runJson, DebugPathsOf(runJson))
  {
    var debugPaths := DebugPathsOf(runJson);
    if Truthy(Get(runJson, "success")) && Get(runJson, "source") == Str("logFile") && Truthy(Get(runJson, "log")) then
      LogView(Get(runJson, "log"), debugPaths, Get(runJson, "source"))
    else if Truthy(Get(runJson, "success")) && Truthy(Get(runJson, "stdout")) then
      DoneView(Get(runJson, "stdout"), debugPaths)
    else
      PayloadView(runJson, debugPaths)
  }

  /** The `apiResponse` that `runTests()` leaves. */
  function RunTestsResponse(run: RunFetch, logs: LogsFetch): (v: Value)
    ensures run.RunRejected? ==> v == ErrorView(run.error)
    ensures run.RunJson? && logs.LogsJson? ==> v == LogView(logs.json, DebugPathsOf(run.json), Str("logFile"))
    ensures run.RunJson? && !logs.LogsJson? ==> v == RunFallback(run.json)
  {
    match run
    case RunRejected(error) => ErrorView(error)
    case RunJson(runJson) =>
      if logs.LogsJson? then LogView(logs.json, DebugPathsOf(runJson), Str("logFile"))
      else RunFallback(runJson)
  }

  /** `String(new Error(\`Failed to fetch logs (${resp.status})\`))`. */
  const FETCH_FAILURE_PREFIX := "Error: Failed to fetch logs ("

  /**
   * The text holds `String(status)` between the prefix and the closing
   * parenthesis, so the status can be read back from it.
   */
  function FetchFailureText(status: nat): (text: string)
    ensures |text| > |FETCH_FAILURE_PREFIX| + 1 && text[..|FETCH_FAILURE_PREFIX|] == FETCH_FAILURE_PREFIX
    ensures text[|text| - 1] == ')'
    ensures text[|FETCH_FAILURE_PREFIX|..|text| - 1] == DecimalString(status)
    ensures StringToNumber(text[|FETCH_FAILURE_PREFIX|..|text| - 1]) == Some(status)
  {
    var digits := DecimalString(status);
    var text := FETCH_FAILURE_PREFIX + digits + ")";
    assert text[|FETCH_FAILURE_PREFIX|..|text| - 1] == digits;
    DecimalStringRoundTrip(status);
    text
  }

  /** The `apiResponse` that `fetchLogs()` leaves. */
  function FetchLogsResponse(logs: LogsFetch): (v: Value)
    ensures logs.LogsJson? ==> v == LogView(logs.json, Null, Str("logFile"))
    ensures logs.LogsRejected? || logs.LogsBodyNotJson? ==> v == ErrorView(logs.error)
    ensures logs.LogsNotOk? ==> v == ErrorView(FetchFailureText(logs.status))
  {
    match logs
    case LogsRejected(error) => ErrorView(error)
    case LogsNotOk(status) => ErrorView(FetchFailureText(status))
    case LogsJson(json) => LogView(json, Null, Str("logFile"))
    case LogsBodyNotJson(error) => ErrorView(error)
  }

  class App {
    var swaggerContent: Option<string>
    var paramsContent: Option<string>
    /** The response handed to the terminal; undefined until the first run or fetch. */
    var apiResponse: Value

    constructor ()
      ensures swaggerContent.None? && paramsContent.None? && apiResponse == Undefined
    {
      swaggerContent := None;
      paramsContent := None;
      apiResponse := Undefined;
    }

    method OnSwaggerImported(content: string)
      modifies this`swaggerContent
      ensures swaggerContent == Some(content)
      ensures paramsContent == old(paramsContent) && apiResponse == old(apiResponse)
    {
      swaggerContent := Some(content);
    }

    method OnParamsImported(content: string)
      modifies this`paramsContent
      ensures paramsContent == Some(content)
      ensures swaggerContent == old(swaggerContent) && apiResponse == old(apiResponse)
    {
      paramsContent := Some(content);
    }

    /**
     * `runTests()`. The logs outcome is consulted only once the run returned
     * JSON; the imported texts are neither changed nor sent.
     */
    method RunTests(run: RunFetch, logs: LogsFetch)
      modifies this`apiResponse
      ensures apiResponse == RunTestsResponse(run, logs)
      ensures swaggerContent == old(swaggerContent) && paramsContent == old(paramsContent)
    {
      match run {
        case RunRejected(error) =>
          apiResponse := ErrorView(error);
        case RunJson(runJson) =>
          var debugPaths := Coalesce(Get(runJson, "debugPaths"), Null);
          if logs.LogsJson? {
            apiResponse := LogView(logs.json, debugPaths, Str("logFile"));
            return;
          }
          if Truthy(Get(runJson, "success")) && Get(runJson, "source") == Str("logFile") && Truthy(Get(runJson, "log")) {
            apiResponse := LogView(Get(runJson, "log"), debugPaths, Get(runJson, "source"));
          } else if Truthy(Get(runJson, "success")) && Truthy(Get(runJson, "stdout")) {
            apiResponse := DoneView(Get(runJson, "stdout"), debugPaths);
          } else {
            apiResponse := PayloadView(runJson, debugPaths);
          }
      }
    }

    /** `fetchLogs()`. */
    method FetchLogs(logs: LogsFetch)
      modifies this`apiResponse
      ensures apiResponse == FetchLogsResponse(logs)
      ensures swaggerContent == old(swaggerContent) && paramsContent == old(paramsContent)
    {
      match logs {
        case LogsJson(json) =>
          apiResponse := LogView(json, Null, Str("logFile"));
        case LogsNotOk(status) =>
          apiResponse := ErrorView(FetchFailureText(status));
        case LogsRejected(error) =>
          apiResponse := ErrorView(error);
        case LogsBodyNotJson(error) =>
          apiResponse := ErrorView(error);
      }
    }
  }

  /**
   * After a run whose logs fetch returns JSON, the terminal shows that log,
   * whatever the run itself returned; a null log leaves only the wrapper.
   */
  lemma RunShowsServedLog(runJson: Value, log: Value)
    ensures var v := RunTestsResponse(RunJson(runJson), LogsJson(log));
            && Get(v, "log") == log
            && ResponseTerminal.LogEntries(v) == (if Nullish(log) then [v] else ResponseTerminal.Entries(log))
  {
  }

  /**
   * A failed run shows as an error object whose class is nevertheless the
   * default one: the string 'error' is not a status code.
   */
  lemma FailedRunShownAsDefault(error: string, logs: LogsFetch)
    ensures var v := RunTestsResponse(RunRejected(error), logs);
            && ResponseTerminal.StatusClass(v) == ResponseTerminal.STATUS_DEFAULT
            && ResponseTerminal.LogEntries(v) == [v]
            && !ResponseTerminal.HasLog(v)
  {
    var v := RunTestsResponse(RunRejected(error), logs);
    ResponseTerminal.ClientStatusStringsAreDefault(v.fields);
  }

  /**
   * Without JSON from `/api/logs`, a run the server resolved from a parsed
   * log file is shown by that log, with the server's paths.
   */
  lemma FallbackShowsServerLog(r: RunResponse, logs: LogsFetch)
    requires !logs.LogsJson? && r.LogFileJson? && Truthy(r.log)
    ensures var v := RunTestsResponse(RunJson(r.Body()), logs);
            && v == LogView(r.log, PathsJson(r.debugPaths), Str("logFile"))
            && ResponseTerminal.LogEntries(v) == ResponseTerminal.Entries(r.log)
  {
  }

  /**
   * Without JSON from `/api/logs`, a run resolved from non-empty stdout is
   * shown as 'done' with the raw output, classified as default.
   */
  lemma FallbackShowsServerStdout(r: RunResponse, logs: LogsFetch)
    requires !logs.LogsJson? && r.StdoutOnly? && r.stdout != ""
    ensures var v := RunTestsResponse(RunJson(r.Body()), logs);
            && v == DoneView(Str(r.stdout), PathsJson(r.debugPaths))
            && ResponseTerminal.StatusClass(v) == ResponseTerminal.STATUS_DEFAULT
  {
    var v := RunTestsResponse(RunJson(r.Body()), logs);
    ResponseTerminal.ClientStatusStringsAreDefault(v.fields);
  }

  /**
   * Every other server response — a raw-text log, an unreadable log, a
   * process failure, a missing script, empty stdout — is wrapped whole as
   * the payload, and the terminal shows the wrapper as its single entry.
   */
  lemma FallbackWrapsOtherResponses(r: RunResponse, logs: LogsFetch)
    requires !logs.LogsJson?
    requires r.LogFileText? || r.ReadFailure? || r.ProcessFailure? || r.ScriptNotFound? || (r.StdoutOnly? && r.stdout == "")
    ensures var v := RunTestsResponse(RunJson(r.Body()), logs);
            && v == PayloadView(r.Body(), if r.ScriptNotFound? then Null else PathsJson(r.debugPaths))
            && ResponseTerminal.LogEntries(v) == [v]
  {
    var body := r.Body();
    assert "log" !in body.fields;
    assert !CarriesLog(body);
    assert !CarriesStdout(body);
    PayloadWithoutLogShownWhole(body, DebugPathsOf(body));
  }

  /** A payload without a log is shown as its wrapper, one entry. */
  lemma PayloadWithoutLogShownWhole(payload: Value, debugPaths: Value)
    requires payload.Obj? && "log" !in payload.fields
    ensures ResponseTerminal.LogEntries(PayloadView(payload, debugPaths)) == [PayloadView(payload, debugPaths)]
  {
  }

  /** A refused logs request names its HTTP status in the error shown. */
  lemma FetchLogsNotOkNamesStatus(status: nat)
    ensures Get(FetchLogsResponse(LogsNotOk(status)), "error") == Str("Error: Failed to fetch logs (" + DecimalString(status) + ")")
    ensures ResponseTerminal.StatusClass(FetchLogsResponse(LogsNotOk(status))) == ResponseTerminal.STATUS_DEFAULT
  {
    ResponseTerminal.ClientStatusStringsAreDefault(FetchLogsResponse(LogsNotOk(status)).fields);
  }
}
