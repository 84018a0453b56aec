# API-Automation-tool run/report workflow in Dafny

This project models the decision logic of a small tool. The tool runs a PowerShell
API-exercising script from a web page and shows the log the script writes. The
model covers five parts:

- **Run orchestrator.** The `/run-script` handler of the Express server
  (`src/server.ts`) and of the standalone demo server (`demo-server.js`). It refuses
  with 404 when the script is missing. Otherwise it launches the interpreter once with
  a fixed argument vector. It then resolves the response from the log file first,
  then the process error, then stdout. Every response past the
  script check carries the four resolved paths (`debugPaths`).
- **Log reader.** The `/api/logs` handler of both servers, and the
  query → environment → default choice of every path. The bounded parent-directory
  search `findRepoRoot` and `resolveCandidates` are written as loops.
- **Result presenter** (`response-terminal.ts`). It classifies `status` and
  normalises the log into entries. It follows JavaScript truthiness, `??`, `?.` and
  the number conversion done by `>=` and `<`.
- **File importer** (`file-import.ts`). It strips the extension, compares the base
  name without regard to case, and updates its fields.
- **Root component** (`app.component.ts`). Its `runTests` fallback chain (logs
  endpoint first, then the run's own body) and `fetchLogs`.

The file system, the child process, `JSON.parse`, `fetch` and `FileReader` are
inputs. File existence is a boolean or an abstract `exists` predicate, and
`path.join` is an abstract function. A read is `ReadFailed | ReadOk(text)` and
parsing is an oracle `string -> Option<Value>`. The process launcher maps an
`Invocation` (executable and argument vector) to an `ExecOutcome` (stdout, stderr,
and an optional error with an optional code). A `RunHandled` records the
invocation it launched. `None` means no process was started.

Modules, one per file: `Optional`, `JsValue` (JavaScript values),
`RunOutcome` (types and JSON bodies shared by both servers), `ServerPaths`,
`RepoRoot`, `ServerRun`, `DemoRun`, `ResponseTerminal`, `FileImport`,
`AppComponent`.

Four behaviours of the code are easy to get wrong when reading it, and the model states each of them:

- A response object with no log anywhere and no `entries` array is shown as a
  one-entry list holding the response itself, not as an empty list
  (`ResponseTerminal.ResponseWithoutLogWrapped`).
- There are three status classes: `status-success` for 200–299, `status-error`
  for every status from 400 up (client and server errors alike), and
  `status-default` for everything else (`ResponseTerminal.NumericStatusClass`).
- An existing log file that cannot be read is handled differently by the two
  servers. `src/server.ts` answers 500 "Failed to read output file", while
  `demo-server.js` passes over it and decides by the process error and stdout
  (`DemoRun.ServersDifferOnReadFailure`).
- The log shown is the first non-nullish of `log`, `payload.log` and the response
  itself, not the first truthy one. A falsy but present `log` therefore hides
  `payload.log` (`ResponseTerminal.FalsyLogHidesPayload`).

## Model

| member | source | states |
|---|---|---|
| `RunOutcome.FailureCode` | src/server.ts:163 | the code reported for a failed run is the error's own code (exit status or system error name), or 1 when it has none |
| `RunOutcome.ExitOf` | src/server.ts:129 | `scriptExit` has code 0 and no message exactly when the process reported no error; otherwise it has the error's code (`?? 1`) and its message |
| `RunOutcome.Executable` | src/server.ts:94 | the interpreter is `powershell.exe` exactly on win32 and `pwsh` everywhere else |
| `RunOutcome.ArgVector` | src/server.ts:95 | the argument vector has exactly eight entries and starts with `-NoProfile -ExecutionPolicy Bypass -File` |
| `RunOutcome.PathsOfArgs` | src/server.ts:95 | an argument vector is read back into four paths (its elements 4 to 7) exactly when it has the fixed eight-entry shape |
| `RunOutcome.ArgVectorRoundTrip` | src/server.ts:95 | the vector holds script, swagger, parameters and log path as its elements 4 to 7, in that order, whatever their text |
| `RunOutcome.RunResponse.Status` | src/server.ts:89-168 | 404 exactly for a missing script, 500 exactly for a read failure or a process failure, 200 for everything else |
| `RunOutcome.RunResponse.Body` | src/server.ts:89-168 | every body is an object; it has an `error` string exactly when the status is not 200; `source` is `logFile` exactly for the two log-file bodies and `stdout` exactly for the stdout body; every body past the script check carries the raw stderr |
| `RunOutcome.SuccessIsStatus200` | src/server.ts:123-168 | the body's `success` field is `true` exactly when the HTTP status is 200, and it is absent from every other body |
| `RunOutcome.BodyCarriesDebugPaths` | src/server.ts:130 | every response past the script check carries the four resolved paths in its JSON body |
| `JsValue.DecimalString` | src/app/app.component.ts:61 | the decimal text of a status code is non-empty, all digits, denotes that code, and starts with `0` only for the code 0 itself |
| `JsValue.DecimalStringRoundTrip` | src/app/app.component.ts:61 | converting the decimal text of a status code back to a number gives the code |
| `ServerPaths.ChoosePath` | src/server.ts:70-72 | a path is the query value if non-empty, else the environment value if non-empty, else the default |
| `ServerPaths.RunPaths` | src/server.ts:70-86 | swagger, parameters and log paths each follow query → environment → default; the script path is always the fixed default; no path is empty |
| `ServerPaths.LogsPath` | src/server.ts:179-180 | the logs endpoint reads the `path` query value, else `LOG_OUTPUT`, else its fixed default, and never an empty path |
| `ServerPaths.ScriptOverridesIgnored` | src/server.ts:69-83 | neither a `scriptPath` query value nor `SCRIPT_PATH` changes any path of a run |
| `ServerPaths.LogsEndpointServesRunLog` | src/server.ts:81-86 | with no query override, `/api/logs` reads exactly the file the run's script writes (the two defaults name the same path) |
| `RepoRoot.FindRepoRoot` | src/server.ts:24-35 | the loop returns what the bounded search specification returns: undefined for an empty start, else the search from the start with ten steps |
| `RepoRoot.SearchFromSound` | src/server.ts:27-33 | a directory the search returns has `package.json` and is the k-th ancestor (k below the step budget) reached only through directories without one that are not their own parent |
| `RepoRoot.SearchFromComplete` | src/server.ts:27-33 | the first ancestor with `package.json` within the step budget, reached without hitting a fixed point, is the one returned |
| `RepoRoot.SearchLooksAtMostSteps` | src/server.ts:27 | the search examines at most `steps` directories: file systems that agree on the first `steps` ancestors give the same answer |
| `RepoRoot.RepoRootOf` | src/server.ts:37 | the root found from the working directory wins; failing that, the root found from the module directory; failing both, the working directory itself; whatever is chosen is the working directory itself or a directory holding `package.json` that is at most nine levels above the working directory or the module directory |
| `RepoRoot.FirstExistingIndex` | src/server.ts:48-50 | the index found is that of the first existing candidate; every earlier one is missing, and it equals the length when none exists |
| `RepoRoot.ResolveCandidates` | src/server.ts:37-53 | the loop returns the first existing candidate under the repository root, then the module directory, then the working directory, and otherwise the repository-rooted join |
| `RepoRoot.ResolvedPathPreference` | src/server.ts:39-53 | the order of preference in all four cases: root candidate, module-directory candidate, working-directory candidate, fallback to the root join |
| `ServerRun.ResolveRun` | src/server.ts:117-168 | an existing, readable, parseable log gives 200 `logFile` with the parsed log whatever the exit; unparseable gives `logText`; an unreadable existing log gives 500 and never falls through; without a log, an error gives 500 with code `?? 1` and no message, no error gives 200 `stdout`; all carry the paths |
| `ServerRun.RunScript` | src/server.ts:67-168 | a missing script gives 404 naming the fixed script path and launches nothing; otherwise exactly one launch of the platform interpreter with the fixed argument vector, and the response is the resolution of its outcome |
| `ServerRun.ServeLogs` | src/server.ts:182-197 | an absent log gives 404 naming the path; a read error gives 500; parseable text gives the JSON; other text is sent as raw text |
| `ServerRun.ApiLogs` | src/server.ts:176-198 | for the path chosen by query → `LOG_OUTPUT` → default: 404 naming it when absent, 500 with the reason on a read error, the parsed JSON when it parses, the raw text otherwise |
| `ServerRun.LogFileOverridesExitStatus` | src/server.ts:118-143 | once the log exists and reads, the success flag, the source and the logged content do not depend on how the process ended |
| `ServerRun.ServerErrorCases` | src/server.ts:144-166 | a run answers 500 exactly when an existing log cannot be read, or when there is no log and the process reported an error |
| `DemoRun.DemoPaths` | demo-server.js:10-14 | the demo's paths are the fixed script path and three files under `<server dir>/Automation - Swagger input` |
| `DemoRun.ResolveRun` | demo-server.js:27-72 | as in the Express server, except that an unreadable log is passed over: the result then follows the error/stdout rule and is never a read-failure response |
| `DemoRun.RunScript` | demo-server.js:16-74 | a missing script gives 404 and no launch; otherwise one launch with the fixed eight-entry vector ending script, swagger, parameters, log |
| `DemoRun.ServeLogs` | demo-server.js:76-89 | 404 when absent, JSON when parseable, raw text otherwise, 500 on a read error |
| `DemoRun.ApiLogs` | demo-server.js:76-89 | the demo endpoint ignores the query and serves the run's own log file: 404 naming it when absent, 500 with the reason on a read error, the JSON when it parses, the raw text otherwise |
| `DemoRun.ReadFailureFallsThrough` | demo-server.js:55-58 | in the demo server an existing but unreadable log file is treated exactly as no log file |
| `DemoRun.ServersAgreeUnlessReadFails` | demo-server.js:29-72 | the two servers resolve every run identically unless an existing log fails to read |
| `DemoRun.ServersDifferOnReadFailure` | src/server.ts:144-154 | after a clean run with an unreadable log, the Express server answers 500 "Failed to read output file" and the demo server answers 200 with stdout |
| `DemoRun.LogEndpointsAgree` | demo-server.js:76-89 | both log endpoints give the same status for the same file, and the same response whenever the file exists |
| `ResponseTerminal.StatusClass` | src/app/response-terminal/response-terminal.ts:14-21 | a falsy status is default, a status that is not a number (NaN) is default, and a numeric one is classified by its code (200–299 success, ≥400 error, otherwise default) |
| `ResponseTerminal.HasLog` | src/app/response-terminal/response-terminal.ts:23-25 | true exactly when the response is present and its `log` or `payload.log` is truthy |
| `ResponseTerminal.Entries` | src/app/response-terminal/response-terminal.ts:29-34 | falsy gives nothing; an array is kept as is; an object with an `entries` array gives that array; any other object becomes one entry; a truthy primitive gives nothing |
| `ResponseTerminal.LogCandidate` | src/app/response-terminal/response-terminal.ts:28 | the candidate is `log` when it is not nullish, else `payload.log` when that is not nullish, else the response itself |
| `ResponseTerminal.LogEntries` | src/app/response-terminal/response-terminal.ts:27-35 | a non-nullish `log` is what gets normalised, falsy or not; otherwise a non-nullish `payload.log`; otherwise the response itself |
| `ResponseTerminal.NumericStatusClass` | src/app/response-terminal/response-terminal.ts:15-20 | for a numeric status, success exactly for 200–299, error exactly for ≥400, and default for 0, 1–199, 300–399 and negatives |
| `ResponseTerminal.ClientStatusStringsAreDefault` | src/app/app.component.ts:49 | the client's own statuses 'done' and 'error' both show as default |
| `ResponseTerminal.DecimalStringStatus` | src/app/response-terminal/response-terminal.ts:18-19 | a status sent as a decimal string is compared by its number |
| `ResponseTerminal.ArrayLogShownAsIs` | src/app/response-terminal/response-terminal.ts:31 | an array log is shown with the same entries in the same order |
| `ResponseTerminal.EntriesKeyShown` | src/app/response-terminal/response-terminal.ts:32 | a log object with an `entries` array shows that array |
| `ResponseTerminal.OtherLogObjectWrapped` | src/app/response-terminal/response-terminal.ts:33 | any other log object, such as `{"calls": [...]}`, is shown as one entry |
| `ResponseTerminal.PayloadLogUsed` | src/app/response-terminal/response-terminal.ts:28 | without a `log`, the `payload.log` is what gets normalised |
| `ResponseTerminal.ResponseWithoutLogWrapped` | src/app/response-terminal/response-terminal.ts:28-33 | a response object with no non-nullish `log` or `payload.log` and no `entries` array is shown as the single entry `[response]`, and `hasLog` is false for it |
| `ResponseTerminal.AbsentResponseShowsNothing` | src/app/response-terminal/response-terminal.ts:15-29 | a null or undefined response shows no entries, no log and the default class |
| `ResponseTerminal.HasLogMeansEntriesFromLog` | src/app/response-terminal/response-terminal.ts:24-28 | when `hasLog` holds, the candidate is `log` or `payload.log`, never the surrounding response |
| `ResponseTerminal.HasLogWithoutEntries` | src/app/response-terminal/response-terminal.ts:24-29 | a falsy present `log` hides a truthy `payload.log`: `hasLog` holds while no entry is shown |
| `ResponseTerminal.FalsyLogHidesPayload` | src/app/response-terminal/response-terminal.ts:24-29 | any present but falsy `log` shows no entry whatever `payload.log` holds, while `hasLog` then depends on `payload.log` alone |
| `FileImport.BaseName` | src/app/file-import/file-import.ts:27 | the result is the name cut at the one dot that starts an extension (one or more characters without `.` or `/` up to the end), and the whole name when no dot does |
| `FileImport.RejectionMessage` | src/app/file-import/file-import.ts:32 | the error is the configured message if non-empty, else one naming the required base name |
| `FileImport.Accepts` | src/app/file-import/file-import.ts:27-30 | without a required base name (absent or empty) every file is accepted; with one, a file is accepted exactly when its extension-stripped name equals it without regard to case |
| `FileImport.AcceptsAnyExtension` | src/app/file-import/file-import.ts:27-30 | the required name followed by a dot and any extension is accepted, whatever the case of either |
| `FileImport.NoExtensionComparedWhole` | src/app/file-import/file-import.ts:27-30 | a name with no strippable extension is compared whole against the required name |
| `FileImport.AcceptsIgnoresCaseOfRequirement` | src/app/file-import/file-import.ts:30 | required names that differ only in case accept the same files |
| `FileImport.SwaggerExamples` | src/app/file-import/file-import.ts:27-30 | `Swagger.JSON` passes for 'swagger'; `swagger.` and `noext` keep their names and `swagger.` fails; `a.tar.gz` loses only `.gz` |
| `FileImport.FileImportComponent.constructor` | src/app/file-import/file-import.ts:12-18 | a new importer has no selected file, no error and has emitted nothing; an unbound validation message is "Invalid file name." |
| `FileImport.FileImportComponent.OnFileChange` | src/app/file-import/file-import.ts:20-43 | no file changes nothing; an accepted file clears the error, records its full name and emits its text; a rejected one clears the selection, sets the message, clears the input and emits nothing |
| `AppComponent.RunFallback` | src/app/app.component.ts:45-52 | a successful `logFile` body with a truthy log shows that log; else a successful body with truthy stdout shows 'done' with the raw output; else the whole body is the payload |
| `AppComponent.RunTestsResponse` | src/app/app.component.ts:26-56 | a failed run shows an error; JSON from the logs endpoint wins whatever the run returned; otherwise the run's own body decides |
| `AppComponent.FetchFailureText` | src/app/app.component.ts:61 | the error text is `Error: Failed to fetch logs (`, then exactly the decimal text of the status (no sign, no leading zero), then `)`; the status reads back from it |
| `AppComponent.FetchLogsResponse` | src/app/app.component.ts:58-67 | JSON logs show as a `logFile` log with null paths; a rejection, a non-JSON body or a non-ok status (named in the text) show as an error |
| `AppComponent.App.constructor` | src/app/app.component.ts:14-16 | nothing imported and no response at start |
| `AppComponent.App.OnSwaggerImported` | src/app/app.component.ts:18-20 | only the swagger text changes |
| `AppComponent.App.OnParamsImported` | src/app/app.component.ts:22-24 | only the parameters text changes |
| `AppComponent.App.RunTests` | src/app/app.component.ts:26-56 | only `apiResponse` is assigned, to the fallback-chain result; the imported texts are untouched |
| `AppComponent.App.FetchLogs` | src/app/app.component.ts:58-67 | only `apiResponse` is assigned, to the logs-fetch result |
| `AppComponent.RunShowsServedLog` | src/app/app.component.ts:35-39 | after a run whose logs fetch returns JSON, the terminal shows that log's entries whatever the run returned |
| `AppComponent.FailedRunShownAsDefault` | src/app/app.component.ts:53-54 | a failed run is shown as one error entry whose class is default, not error |
| `AppComponent.FallbackShowsServerLog` | src/app/app.component.ts:46-47 | without logs JSON, a server response from a parsed log file is shown by that log, with the server's paths |
| `AppComponent.FallbackShowsServerStdout` | src/app/app.component.ts:48-49 | without logs JSON, a non-empty stdout response is shown as 'done' with the raw output, classified default |
| `AppComponent.FallbackWrapsOtherResponses` | src/app/app.component.ts:50-51 | without logs JSON, text logs, read failures, process failures, a missing script and empty stdout are shown as the wrapped payload, one entry |
| `AppComponent.FetchLogsNotOkNamesStatus` | src/app/app.component.ts:61 | a refused logs request shows an error naming the HTTP status, classified default |

## Left out

- Express routing, static serving, the Angular server-side rendering handler and `app.listen`: server plumbing with no decision in it.
- `execFile` itself, its five-minute timeout, `windowsHide` and the working directory: the process is the abstract launcher. A timeout appears only as an error outcome.
- ServerRun.RunScript: the launcher is taken always to start the process. `execFile` can instead throw before spawning, for example when a query-supplied path holds a NUL character. The outer `catch` of `/run-script` in `src/server.ts` (lines 169-171) then answers 500 with only `{error}` and no `debugPaths`. Neither the refused launch nor that 500 is modelled, and for such input the contract's single launch and resolved response do not describe the server.
- RunOutcome.ArgVectorRoundTrip: it proves only where the paths sit in the argument vector. How PowerShell binds `-File` arguments is not modelled. A path starting with `-` may be bound as a parameter name, so the script need not receive it as the positional value.
- Logging (`console.*`) and the check whether stderr is blank. They only log.
- `String(error)` formatting: error texts are opaque strings carried in the outcomes.
- `JSON.parse` is an oracle. Serialisation by `res.json` and `runResp.json()` is taken to read a body back unchanged (`RunResponse.Body`).
- The file system changing between the existence check and the read, and two runs racing on the shared log file: concurrency.
- Query values given more than once (arrays) and non-string query values: a query is a map from names to strings.
- `resolveCandidates` is never called by the handlers in `src/server.ts`. It is modelled on its own.
- `JsValue.ToNumber`: numbers are integers. NaN, the infinities and fractions are not values. Strings other than the empty string and an optional sign followed by decimal digits read as NaN, so leading/trailing whitespace, fractions, exponents, hexadecimal and `Infinity` are not converted as JavaScript would.
- `JsValue.Get`: only own properties of objects are seen. Built-in members such as `Array.prototype.entries` are not, and they are never consulted by the code modelled.
- `FileImport.ToLower`: folds only the ASCII letters. JavaScript's `toLowerCase` folds all of Unicode.
- `FileImport.FileImportComponent.OnFileChange`: the `FileReader` read is taken to succeed at once and append the file's text to `emitted`. The asynchronous load, and a read error after which nothing is emitted, are not modelled. The `try` around clearing the input is taken never to fail.
- The `label` input of the importer and the HTML/CSS templates: display only.
- `src/app/api-parameters/api-parameters.ts` (`onSend`) packages form fields into an emitted object and has no logic to verify.
- `fetch` and `Response.json` in the root component are outcomes (`RunFetch`, `LogsFetch`). The run request carries no body, so the imported texts are never sent.
