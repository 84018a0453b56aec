/**
 * What both servers share around the `/run-script` and `/api/logs`
 * handlers: the abstract outcome of running the PowerShell script and of
 * reading the log file, the fixed command line, the exit descriptor, and the
 * responses together with the JSON bodies the browser receives.
 */
module RunOutcome {
  import opened Optional
  import opened JsValue

  /** The `code` of a Node child-process error: an exit status, or a system error name such as ENOENT. */
  datatype ErrorCode = ExitStatus(status: int) | SystemError(name: string)

  /** A failed execution; `text` stands for `String(error)`, which the model keeps opaque. */
  datatype ExecError = ExecError(code: Option<ErrorCode>, text: string)

  /** What `execFile` hands to its callback: captured output and an optional error. */
  datatype ExecOutcome = ExecOutcome(stdout: string, stderr: string, error: Option<ExecError>)

  /** The outcome of `readFile` on the log file; `reason` stands for `String(error)`. */
  datatype ReadResult = ReadFailed(reason: string) | ReadOk(text: string)

  /** The `scriptExit` object of a response. */
  datatype ScriptExit = ScriptExit(code: ErrorCode, message: Option<string>)

  /** The four resolved paths reported for diagnosis. */
  datatype DebugPaths = DebugPaths(scriptPath: string, swaggerPath: string, parametersPath: string, logOutput: string)

  /** One process launch: the executable and its argument vector (no shell). */
  datatype Invocation = Invocation(executable: string, args: seq<string>)

  const FIXED_FLAGS: seq<string> := ["-NoProfile", "-ExecutionPolicy", "Bypass", "-File"]

  /** `error.code ?? 1`. */
  function FailureCode(e: ExecError): (c: ErrorCode)
    ensures e.code.Some? ==> c == e.code.value
    ensures e.code.None? ==> c == ExitStatus(1)
  {
    e.code.GetOr(ExitStatus(1))
  }

  /**
   * `execError ? { code: execError.code ?? 1, message: String(execError) } : { code: 0 }`:
   * a clean run is exactly the descriptor with code 0 and no message.
   */
  function ExitOf(error: Option<ExecError>): (x: ScriptExit)
    ensures error.None? <==> x.message.None?
    ensures error.None? ==> x.code == ExitStatus(0)
    ensures error.Some? ==> x.code == FailureCode(error.value) && x.message == Some(error.value.text)
  {
    match error
    case None => ScriptExit(ExitStatus(0), None)
    case Some(e) => ScriptExit(FailureCode(e), Some(e.text))
  }

  /** `process.platform === 'win32' ? 'powershell.exe' : 'pwsh'`. */
  function Executable(platform: string): (exe: string)
    ensures exe == "powershell.exe" <==> platform == "win32"
    ensures exe != "powershell.exe" ==> exe == "pwsh"
  {
    if platform == "win32" then "powershell.exe" else "pwsh"
  }

  /** The argument vector handed to the interpreter: four fixed flags, then the script and its three paths. */
  function ArgVector(paths: DebugPaths): (args: seq<string>)
    ensures |args| == 8 && args[..4] == FIXED_FLAGS
  {
    FIXED_FLAGS + [paths.scriptPath, paths.swaggerPath, paths.parametersPath, paths.logOutput]
  }

  /** Reads the four paths back out of elements 4 to 7 of an argument vector of the fixed shape. */
  function PathsOfArgs(args: seq<string>): (p: Option<DebugPaths>)
    ensures p.Some? <==> |args| == 8 && args[..4] == FIXED_FLAGS
  {
    if |args| == 8 && args[..4] == FIXED_FLAGS then Some(DebugPaths(args[4], args[5], args[6], args[7]))
    else None
  }

  /**
   * The vector holds script, swagger, parameters and log as its elements 4
   * to 7, whatever their text: it decodes back to the same paths.
   */
  lemma ArgVectorRoundTrip(paths: DebugPaths)
    ensures PathsOfArgs(ArgVector(paths)) == Some(paths)
  {
  }

  /** The response of `/run-script`, one variant per distinct JSON shape the handlers send. */
  datatype RunResponse =
    | ScriptNotFound(error: string)
    | LogFileJson(log: Value, rawStdout: string, rawStderr: string, scriptExit: ScriptExit, debugPaths: DebugPaths)
    | LogFileText(logText: string, rawStdout: string, rawStderr: string, scriptExit: ScriptExit, debugPaths: DebugPaths)
    | ReadFailure(error: string, details: string, rawStdout: string, rawStderr: string, scriptExit: ScriptExit, debugPaths: DebugPaths)
    | ProcessFailure(error: string, rawStdout: string, rawStderr: string, scriptExit: ScriptExit, debugPaths: DebugPaths)
    | StdoutOnly(stdout: string, rawStderr: string, debugPaths: DebugPaths)
  {
    /** The HTTP status the handler sets. */
    function Status(): (code: int)
      ensures code == 404 <==> ScriptNotFound?
      ensures code == 500 <==> ReadFailure? || ProcessFailure?
      ensures code == 200 || code == 404 || code == 500
    {
      match this
      case ScriptNotFound(_) => 404
      case ReadFailure(_, _, _, _, _, _) => 500
      case ProcessFailure(_, _, _, _, _) => 500
      case _ => 200
    }

    /** Whether the body carries `success: true`. */
    predicate Success() {
      LogFileJson? || LogFileText? || StdoutOnly?
    }

    /** The JSON body, as `res.json` sends it and the client's `runResp.json()` reads it back. */
    function Body(): (body: Value)
      ensures body.Obj?
      ensures Get(body, "error").Str? <==> Status() != 200
      ensures Get(body, "source") == Str("logFile") <==> LogFileJson? || LogFileText?
      ensures Get(body, "source") == Str("stdout") <==> StdoutOnly?
      ensures !ScriptNotFound? ==> Get(body, "rawStderr") == Str(rawStderr)
    {
      match this
      case ScriptNotFound(error) =>
        Obj(map["error" := Str(error)])
      case LogFileJson(log, out, err, exit, paths) =>
        Obj(map["success" := Bool(true), "source" := Str("logFile"), "log" := log,
                "rawStdout" := Str(out), "rawStderr" := Str(err),
                "scriptExit" := ExitJson(exit), "debugPaths" := PathsJson(paths)])
      case LogFileText(text, out, err, exit, paths) =>
        Obj(map["success" := Bool(true), "source" := Str("logFile"), "logText" := Str(text),
                "rawStdout" := Str(out), "rawStderr" := Str(err),
                "scriptExit" := ExitJson(exit), "debugPaths" := PathsJson(paths)])
      case ReadFailure(error, details, out, err, exit, paths) =>
        Obj(map["error" := Str(error), "details" := Str(details),
                "rawStdout" := Str(out), "rawStderr" := Str(err),
                "scriptExit" := ExitJson(exit), "debugPaths" := PathsJson(paths)])
      case ProcessFailure(error, out, err, exit, paths) =>
        Obj(map["error" := Str(error), "rawStdout" := Str(out), "rawStderr" := Str(err),
                "scriptExit" := ExitJson(exit), "debugPaths" := PathsJson(paths)])
      case StdoutOnly(out, err, paths) =>
        Obj(map["success" := Bool(true), "source" := Str("stdout"), "stdout" := Str(out),
                "rawStderr" := Str(err), "debugPaths" := PathsJson(paths)])
    }
  }

  function CodeJson(c: ErrorCode): Value {
    match c
    case ExitStatus(n) => Num(n)
    case SystemError(name) => Str(name)
  }

  function ExitJson(x: ScriptExit): Value {
    match x.message
    case None => Obj(map["code" := CodeJson(x.code)])
    case Some(m) => Obj(map["code" := CodeJson(x.code), "message" := Str(m)])
  }

  function PathsJson(p: DebugPaths): Value {
    Obj(map["scriptPath" := Str(p.scriptPath), "swaggerPath" := Str(p.swaggerPath),
            "parametersPath" := Str(p.parametersPath), "logOutput" := Str(p.logOutput)])
  }

  /** The response of `/api/logs`. */
  datatype LogsResponse =
    | LogNotFound(error: string)
    | LogJson(json: Value)
    | LogText(text: string)
    | LogReadError(error: string)
  {
    function Status(): int {
      match this
      case LogNotFound(_) => 404
      case LogReadError(_) => 500
      case _ => 200
    }
  }

  /**
   * The body says `success: true` exactly when the status is 200; every
   * other body has no `success` field at all.
   */
  lemma SuccessIsStatus200(r: RunResponse)
    ensures Get(r.Body(), "success") == Bool(true) <==> r.Status() == 200
    ensures r.Status() != 200 ==> Get(r.Body(), "success") == Undefined
  {
  }

  /** Every response past the script check carries the resolved paths in its body. */
  lemma BodyCarriesDebugPaths(r: RunResponse)
    requires !r.ScriptNotFound?
    ensures Get(r.Body(), "debugPaths") == PathsJson(r.debugPaths)
  {
  }
}
