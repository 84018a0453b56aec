/**
 * The standalone demo server (demo-server.js): the same `/run-script` and
 * `/api/logs` endpoints over constant paths, with one difference in result
 * resolution — a log file that exists but cannot be read is passed over, and
 * the result is decided as if there were no log file.
 */
module DemoRun {
  import opened Optional
  import opened JsValue
  import opened RunOutcome
  import ServerRun

  const SCRIPT_PATH := "C:\\tool task\\API-Automation-tool\\Automation - Swagger input\\callapi.ps1"
  const AUTOMATION_FOLDER := "Automation - Swagger input"

  /** `path.join`, which the model does not compute. */
  type Join = (string, seq<string>) -> string

  /** The constant paths, built from the server's own directory (`__dirname`). */
  function DemoPaths(join: Join, serverDir: string): (paths: DebugPaths)
    ensures paths.scriptPath == SCRIPT_PATH
    ensures paths.swaggerPath == join(join(serverDir, [AUTOMATION_FOLDER]), ["swagger.json"])
    ensures paths.parametersPath == join(join(serverDir, [AUTOMATION_FOLDER]), ["overrides.json"])
    ensures paths.logOutput == join(join(serverDir, [AUTOMATION_FOLDER]), ["get_api_logs.json"])
  {
    var automationDir := join(serverDir, [AUTOMATION_FOLDER]);
    DebugPaths(SCRIPT_PATH, join(automationDir, ["swagger.json"]), join(automationDir, ["overrides.json"]),
               join(automationDir, ["get_api_logs.json"]))
  }

  /** Result resolution inside the `execFile` callback. */
  function ResolveRun(paths: DebugPaths, exec: ExecOutcome, logExists: bool, read: ReadResult,
                      parse: string -> Option<Value>): (r: RunResponse)
    ensures !r.ScriptNotFound? && !r.ReadFailure? && r.debugPaths == paths
    ensures logExists && read.ReadOk? && parse(read.text).Some? ==>
      r == LogFileJson(parse(read.text).value, exec.stdout, exec.stderr, ExitOf(exec.error), paths)
    ensures logExists && read.ReadOk? && parse(read.text).None? ==>
      r == LogFileText(read.text, exec.stdout, exec.stderr, ExitOf(exec.error), paths)
    ensures (!logExists || read.ReadFailed?) && exec.error.Some? ==>
      r == ProcessFailure(exec.error.value.text, exec.stdout, exec.stderr,
                          ScriptExit(FailureCode(exec.error.value), None), paths)
    ensures (!logExists || read.ReadFailed?) && exec.error.None? ==> r == StdoutOnly(exec.stdout, exec.stderr, paths)
  {
    if logExists && read.ReadOk? then
      match parse(read.text)
      case Some(json) => LogFileJson(json, exec.stdout, exec.stderr, ExitOf(exec.error), paths)
      case None => LogFileText(read.text, exec.stdout, exec.stderr, ExitOf(exec.error), paths)
    else
      // a failed read is only logged; control continues below
      match exec.error
      case Some(e) => ProcessFailure(e.text, exec.stdout, exec.stderr, ScriptExit(FailureCode(e), None), paths)
      case None => StdoutOnly(exec.stdout, exec.stderr, paths)
  }

  /** `GET /run-script` of the demo server. */
  function RunScript(join: Join, serverDir: string, platform: string, scriptExists: bool,
                     launch: Invocation -> ExecOutcome, logExists: bool, read: ReadResult,
                     parse: string -> Option<Value>): (h: ServerRun.RunHandled)
    ensures h.launched.None? <==> !scriptExists
    ensures !scriptExists ==> h.response == ScriptNotFound("Script not found at " + SCRIPT_PATH)
    ensures scriptExists ==>
      var paths := DemoPaths(join, serverDir);
      && h.launched == Some(Invocation(Executable(platform), ArgVector(paths)))
      && h.response == ResolveRun(paths, launch(h.launched.value), logExists, read, parse)
  {
    if !scriptExists then
      ServerRun.RunHandled(ScriptNotFound("Script not found at " + SCRIPT_PATH), None)
    else
      var paths := DemoPaths(join, serverDir);
      var invocation := Invocation(Executable(platform), ArgVector(paths));
      ServerRun.RunHandled(ResolveRun(paths, launch(invocation), logExists, read, parse), Some(invocation))
  }

  /** `GET /api/logs` of the demo server for the given log file. */
  function ServeLogs(logPath: string, logExists: bool, read: ReadResult, parse: string -> Option<Value>): (r: LogsResponse)
    ensures !logExists ==> r == LogNotFound("log not found at " + logPath)
    ensures logExists && read.ReadFailed? ==> r == LogReadError(read.reason)
    ensures logExists && read.ReadOk? && parse(read.text).Some? ==> r == LogJson(parse(read.text).value)
    ensures logExists && read.ReadOk? && parse(read.text).None? ==> r == LogText(read.text)
  {
    if !logExists then LogNotFound("log not found at " + logPath)
    else
      match read
      case ReadFailed(reason) => LogReadError(reason)
      case ReadOk(text) =>
        match parse(text)
        case Some(json) => LogJson(json)
        case None => LogText(text)
  }

  /**
   * `GET /api/logs` of the demo server as a whole: the query is ignored and
   * the endpoint always serves the file the run's script writes.
   */
  function ApiLogs(join: Join, serverDir: string, onDisk: string -> bool, readFile: string -> ReadResult,
                   parse: string -> Option<Value>): (r: LogsResponse)
    ensures var p := DemoPaths(join, serverDir).logOutput;
      && (!onDisk(p) ==> r == LogNotFound("log not found at " + p))
      && (onDisk(p) && readFile(p).ReadFailed? ==> r == LogReadError(readFile(p).reason))
      && (onDisk(p) && readFile(p).ReadOk? && parse(readFile(p).text).Some? ==> r == LogJson(parse(readFile(p).text).value))
      && (onDisk(p) && readFile(p).ReadOk? && parse(readFile(p).text).None? ==> r == LogText(readFile(p).text))
  {
    var logPath := DemoPaths(join, serverDir).logOutput;
    ServeLogs(logPath, onDisk(logPath), readFile(logPath), parse)
  }

  /** In the demo server an unreadable log file counts as no log file at all. */
  lemma ReadFailureFallsThrough(paths: DebugPaths, exec: ExecOutcome, reason: string, read: ReadResult,
                                parse: string -> Option<Value>)
    ensures ResolveRun(paths, exec, true, ReadFailed(reason), parse) == ResolveRun(paths, exec, false, read, parse)
  {
  }

  /** Whenever the log read does not fail, the two servers resolve a run identically. */
  lemma ServersAgreeUnlessReadFails(paths: DebugPaths, exec: ExecOutcome, logExists: bool, read: ReadResult,
                                    parse: string -> Option<Value>)
    requires !(logExists && read.ReadFailed?)
    ensures ResolveRun(paths, exec, logExists, read, parse) == ServerRun.ResolveRun(paths, exec, logExists, read, parse)
  {
  }

  /**
   * Where they differ: an unreadable log after a clean run is a 500 "Failed
   * to read output file" from the Express server and a 200 stdout success
   * from the demo server.
   */
  lemma ServersDifferOnReadFailure(paths: DebugPaths, stdout: string, stderr: string, reason: string,
                                   parse: string -> Option<Value>)
    ensures var exec := ExecOutcome(stdout, stderr, None);
            && ServerRun.ResolveRun(paths, exec, true, ReadFailed(reason), parse).Status() == 500
            && ServerRun.ResolveRun(paths, exec, true, ReadFailed(reason), parse).error == ServerRun.READ_FAILURE_MESSAGE
            && ResolveRun(paths, exec, true, ReadFailed(reason), parse) == StdoutOnly(stdout, stderr, paths)
  {
  }

  /** Both log endpoints answer alike for the same file; only the wording of the 404 differs. */
  lemma LogEndpointsAgree(path: string, logExists: bool, read: ReadResult, parse: string -> Option<Value>)
    ensures ServeLogs(path, logExists, read, parse).Status() == ServerRun.ServeLogs(path, logExists, read, parse).Status()
    ensures logExists ==> ServeLogs(path, logExists, read, parse) == ServerRun.ServeLogs(path, logExists, read, parse)
  {
  }
}
