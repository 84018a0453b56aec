/**
 * How the Express server (src/server.ts) picks the files a run uses and the
 * file `/api/logs` serves: a non-empty query value, else a non-empty
 * environment variable, else a fixed absolute default. The script itself is
 * always the fixed default.
 */
module ServerPaths {
  import opened RunOutcome

  const DEFAULT_SCRIPT := "C:\\tool task\\API-Automation-tool\\Automation - Swagger input\\callapi.ps1"
  const DEFAULT_SWAGGER := "C:\\tool task\\API-Automation-tool\\Automation - Swagger input\\swagger.json"
  const DEFAULT_PARAMETERS := "C:\\tool task\\API-Automation-tool\\Automation - Swagger input\\overrides.json"
  const DEFAULT_LOG_OUTPUT := "C:\\tool task\\API-Automation-tool\\Automation - Swagger input\\get_api_logs.json"
  /** The `String.raw` default of `/api/logs`, written out separately as the handler does. */
  const DEFAULT_LOGS_PATH := @"C:\tool task\API-Automation-tool\Automation - Swagger input\get_api_logs.json"

  /** A query string or the process environment; a missing key reads as "", which `||` treats alike. */
  function Lookup(m: map<string, string>, key: string): string {
    if key in m then m[key] else ""
  }

  /** `first || second || fallback` on strings. */
  function ChoosePath(first: string, second: string, fallback: string): (p: string)
    ensures first != "" ==> p == first
    ensures first == "" && second != "" ==> p == second
    ensures first == "" && second == "" ==> p == fallback
  {
    if first != "" then first else if second != "" then second else fallback
  }

  /** The four paths of a `/run-script` call. */
  function RunPaths(query: map<string, string>, env: map<string, string>): (paths: DebugPaths)
    ensures paths.scriptPath == DEFAULT_SCRIPT
    ensures paths.swaggerPath == ChoosePath(Lookup(query, "swaggerPath"), Lookup(env, "SWAGGER_PATH"), DEFAULT_SWAGGER)
    ensures paths.parametersPath == ChoosePath(Lookup(query, "parametersPath"), Lookup(env, "PARAMETERS_PATH"), DEFAULT_PARAMETERS)
    ensures paths.logOutput == ChoosePath(Lookup(query, "logOutput"), Lookup(env, "LOG_OUTPUT"), DEFAULT_LOG_OUTPUT)
    ensures paths.swaggerPath != "" && paths.parametersPath != "" && paths.logOutput != ""
  {
    DebugPaths(
      DEFAULT_SCRIPT,
      ChoosePath(Lookup(query, "swaggerPath"), Lookup(env, "SWAGGER_PATH"), DEFAULT_SWAGGER),
      ChoosePath(Lookup(query, "parametersPath"), Lookup(env, "PARAMETERS_PATH"), DEFAULT_PARAMETERS),
      ChoosePath(Lookup(query, "logOutput"), Lookup(env, "LOG_OUTPUT"), DEFAULT_LOG_OUTPUT))
  }

  /** The file `/api/logs` serves. */
  function LogsPath(query: map<string, string>, env: map<string, string>): (p: string)
    ensures p == ChoosePath(Lookup(query, "path"), Lookup(env, "LOG_OUTPUT"), DEFAULT_LOGS_PATH)
    ensures p != ""
  {
    ChoosePath(Lookup(query, "path"), Lookup(env, "LOG_OUTPUT"), DEFAULT_LOGS_PATH)
  }

  /** Neither a `scriptPath` query value nor `SCRIPT_PATH` has any effect on the paths of a run. */
  lemma ScriptOverridesIgnored(query: map<string, string>, env: map<string, string>, q: string, e: string)
    ensures RunPaths(query["scriptPath" := q], env["SCRIPT_PATH" := e]) == RunPaths(query, env)
  {
    assert Lookup(query["scriptPath" := q], "swaggerPath") == Lookup(query, "swaggerPath");
    assert Lookup(query["scriptPath" := q], "parametersPath") == Lookup(query, "parametersPath");
    assert Lookup(query["scriptPath" := q], "logOutput") == Lookup(query, "logOutput");
    assert Lookup(env["SCRIPT_PATH" := e], "SWAGGER_PATH") == Lookup(env, "SWAGGER_PATH");
    assert Lookup(env["SCRIPT_PATH" := e], "PARAMETERS_PATH") == Lookup(env, "PARAMETERS_PATH");
    assert Lookup(env["SCRIPT_PATH" := e], "LOG_OUTPUT") == Lookup(env, "LOG_OUTPUT");
  }

  /**
   * Unless a query value says otherwise, `/api/logs` serves the very file a
   * run writes: both fall back to `LOG_OUTPUT`, and the two defaults are the
   * same path written in two notations.
   */
  lemma LogsEndpointServesRunLog(query: map<string, string>, env: map<string, string>)
    requires Lookup(query, "path") == "" && Lookup(query, "logOutput") == ""
    ensures LogsPath(query, env) == RunPaths(query, env).logOutput
  {
    assert DEFAULT_LOGS_PATH == DEFAULT_LOG_OUTPUT;
  }
}
