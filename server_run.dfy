/**
 * The `/run-script` and `/api/logs` handlers of the Express server
 * (src/server.ts). The file system, the child process and `JSON.parse` are
 * inputs: whether the script and the log file exist, the process launcher,
 * the outcome of reading the log, and a parse oracle (None: the text is not
 * JSON).
 */
module ServerRun {
  import opened Optional
  import opened JsValue
  import opened RunOutcome
  import opened ServerPaths

  const READ_FAILURE_MESSAGE := "Failed to read output file"

  /** A handled run: the response, and the process launched for it, if any. */
  datatype RunHandled = RunHandled(response: RunResponse, launched: Option<Invocation>)

  /**
   * Result resolution once the process has exited: the log file wins over the
   * exit status whenever it exists, and a failed read of an existing log is a
   * 500 of its own.
   */
  function ResolveRun(paths: DebugPaths, exec: ExecOutcome, logExists: bool, read: ReadResult,
                      parse: string -> Option<Value>): (r: RunResponse)
    ensures !r.ScriptNotFound? && r.debugPaths == paths
    ensures logExists && read.ReadOk? && parse(read.text).Some? ==>
      r == LogFileJson(parse(read.text).value, exec.stdout, exec.stderr, ExitOf(exec.error), paths)
    ensures logExists && read.ReadOk? && parse(read.text).None? ==>
      r == LogFileText(read.text, exec.stdout, exec.stderr, ExitOf(exec.error), paths)
    ensures logExists && read.ReadFailed? ==>
      r == ReadFailure(READ_FAILURE_MESSAGE, read.reason, exec.stdout, exec.stderr, ExitOf(exec.error), paths)
    ensures !logExists && exec.error.Some? ==>
      r == ProcessFailure(exec.error.value.text, exec.stdout, exec.stderr,
                          ScriptExit(FailureCode(exec.error.value), None), paths)
    ensures !logExists && exec.error.None? ==> r == StdoutOnly(exec.stdout, exec.stderr, paths)
  {
    if logExists then
      match read
      case ReadFailed(reason) =>
        ReadFailure(READ_FAILURE_MESSAGE, reason, exec.stdout, exec.stderr, ExitOf(exec.error), paths)
      case ReadOk(text) =>
        match parse(text)
        case Some(json) => LogFileJson(json, exec.stdout, exec.stderr, ExitOf(exec.error), paths)
        case None => LogFileText(text, exec.stdout, exec.stderr, ExitOf(exec.error), paths)
    else
      match exec.error
      case Some(e) => ProcessFailure(e.text, exec.stdout, exec.stderr, ScriptExit(FailureCode(e), None), paths)
      case None => StdoutOnly(exec.stdout, exec.stderr, paths)
  }

  /**
   * `GET /run-script`: resolve the paths, refuse with 404 when the script is
   * missing, otherwise launch the interpreter once and resolve the result.
   */
  function RunScript(query: map<string, string>, env: map<string, string>, platform: string,
                     scriptExists: bool, launch: Invocation -> ExecOutcome,
                     logExists: bool, read: ReadResult, parse: string -> Option<Value>): (h: RunHandled)
    ensures h.launched.None? <==> !scriptExists
    ensures !scriptExists ==> h.response == ScriptNotFound("Script not found at " + DEFAULT_SCRIPT)
    ensures scriptExists ==>
      var paths := RunPaths(query, env);
      && h.launched == Some(Invocation(Executable(platform), ArgVector(paths)))
      && h.response == ResolveRun(paths, launch(h.launched.value), logExists, read, parse)
  {
    var paths := RunPaths(query, env);
    if !scriptExists then
      RunHandled(ScriptNotFound("Script not found at " + paths.scriptPath), None)
    else
      var invocation := Invocation(Executable(platform), ArgVector(paths));
      RunHandled(ResolveRun(paths, launch(invocation), logExists, read, parse), Some(invocation))
  }

  /** `GET /api/logs` for the chosen path. */
  function ServeLogs(path: string, logExists: bool, read: ReadResult, parse: string -> Option<Value>): (r: LogsResponse)
    ensures !logExists ==> r == LogNotFound("Log file not found at " + path)
    ensures logExists && read.ReadFailed? ==> r == LogReadError(read.reason)
    ensures logExists && read.ReadOk? && parse(read.text).Some? ==> r == LogJson(parse(read.text).value)
    ensures logExists && read.ReadOk? && parse(read.text).None? ==> r == LogText(read.text)
  {
    if !logExists then LogNotFound("Log file not found at " + path)
    else
      match read
      case ReadFailed(reason) => LogReadError(reason)
      case ReadOk(text) =>
        match parse(text)
        case Some(json) => LogJson(json)
        case None => LogText(text)
  }

  /** `GET /api/logs` as a whole: the path comes from the query, `LOG_OUTPUT` or the default. */
  function ApiLogs(query: map<string, string>, env: map<string, string>, onDisk: string -> bool,
                   readFile: string -> ReadResult, parse: string -> Option<Value>): (r: LogsResponse)
    ensures var p := LogsPath(query, env);
      && (!onDisk(p) ==> r == LogNotFound("Log file not found at " + p))
      && (onDisk(p) && readFile(p).ReadFailed? ==> r == LogReadError(readFile(p).reason))
      && (onDisk(p) && readFile(p).ReadOk? && parse(readFile(p).text).Some? ==> r == LogJson(parse(readFile(p).text).value))
      && (onDisk(p) && readFile(p).ReadOk? && parse(readFile(p).text).None? ==> r == LogText(readFile(p).text))
  {
    var path := LogsPath(query, env);
    ServeLogs(path, onDisk(path), readFile(path), parse)
  }

  /**
   * The log file is authoritative: once it exists and reads, the logged
   * content and the success flag do not depend on how the process ended.
   */
  lemma LogFileOverridesExitStatus(paths: DebugPaths, e1: ExecOutcome, e2: ExecOutcome, text: string,
                                   parse: string -> Option<Value>)
    ensures var r1 := ResolveRun(paths, e1, true, ReadOk(text), parse);
            var r2 := ResolveRun(paths, e2, true, ReadOk(text), parse);
            && r1.Success() && r2.Success() && r1.Status() == 200 && r2.Status() == 200
            && r1.LogFileJson? == r2.LogFileJson?
            && (r1.LogFileJson? ==> r1.log == r2.log)
            && (r1.LogFileText? ==> r1.logText == r2.logText)
  {
  }

  /**
   * A 500 arises exactly when an existing log cannot be read, or when there
   * is no log and the process reported an error.
   */
  lemma ServerErrorCases(paths: DebugPaths, exec: ExecOutcome, logExists: bool, read: ReadResult,
                         parse: string -> Option<Value>)
    ensures ResolveRun(paths, exec, logExists, read, parse).Status() == 500 <==>
      (logExists && read.ReadFailed?) || (!logExists && exec.error.Some?)
  {
  }
}
