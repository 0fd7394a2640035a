/** The SourceAFIS external tool: the per-platform execution plan, the
    process adapter's verdict on a finished run, the JSON output checks and
    the order `run` takes them in. The platform name, the process output,
    the files' existence and the parsed JSON are inputs; the race against
    the timer is an input too (the process either finished or timed out),
    and logging is not modelled. */
module SourceafisTool {
  import opened Wrappers
  import opened Json
  import opened ExternalToolErrors

  const SidecarName: string := "bin/sourceafis_cli"
  const DefaultTimeoutMs: int := 30000
  const MaxLogTextLength: nat := 500
  const TruncatedMarker: string := "...(truncated)"

  // ---- Log truncation ----------------------------------------------------

  /** `truncateLogText`. */
  function TruncateLogText(text: string): (r: string)
    ensures |text| <= MaxLogTextLength ==> r == text
    ensures |text| > MaxLogTextLength ==> r == text[..MaxLogTextLength] + TruncatedMarker
  {
    if |text| <= MaxLogTextLength then text else text[..MaxLogTextLength] + TruncatedMarker
  }

  /** The result is bounded, starts with the text's first 500 characters,
      and truncating again changes nothing. */
  lemma TruncateProperties(text: string)
    ensures |TruncateLogText(text)| <= MaxLogTextLength + |TruncatedMarker|
    ensures var n := if |text| <= MaxLogTextLength then |text| else MaxLogTextLength;
      TruncateLogText(text)[..n] == text[..n]
    ensures TruncateLogText(TruncateLogText(text)) == TruncateLogText(text)
  {
    if |text| > MaxLogTextLength {
      var r := TruncateLogText(text);
      assert r[..MaxLogTextLength] == text[..MaxLogTextLength];
    }
  }

  // ---- Strategies and plans --------------------------------------------

  datatype RunRequest = RunRequest(imagePath: string, outTemplatePath: string, outJsonPath: string)

  datatype ExecutionPlan = ExecutionPlan(command: string, args: seq<string>)

  datatype Strategy = WindowsStrategy | NotImplementedStrategy(currentOs: string)

  /** `resolveSourceAfisStrategy` on the platform name. */
  function ResolveStrategy(currentOs: string): (s: Strategy)
    ensures s.WindowsStrategy? <==> currentOs == "windows"
    ensures s.NotImplementedStrategy? ==> s.currentOs == currentOs
  {
    if currentOs == "windows" then WindowsStrategy else NotImplementedStrategy(currentOs)
  }

  /** `buildExecutionPlan` of either strategy. */
  function BuildExecutionPlan(s: Strategy, request: RunRequest): (r: Result<ExecutionPlan, ToolError>)
    ensures s.WindowsStrategy? <==> r.Ok?
    ensures r.Ok? ==> r.value.command == SidecarName && |r.value.args| == 6
    ensures r.Err? ==> r.error.NotImplementedError?
  {
    match s
    case WindowsStrategy =>
      Ok(ExecutionPlan(SidecarName, ["--image", request.imagePath, "--out-template", request.outTemplatePath,
                                     "--out-json", request.outJsonPath]))
    case NotImplementedStrategy(os) =>
      Err(NotImplementedError("SourceAFIS external tool for \"" + os + "\" not implemented yet"))
  }

  /** How the command line reads back: flag/value pairs, a later flag
      overriding an earlier one. */
  function FlagValues(args: seq<string>): map<string, string>
    decreases |args|
  {
    if |args| < 2 then map[] else FlagValues(args[..|args| - 2])[args[|args| - 2] := args[|args| - 1]]
  }

  /** The Windows plan hands the tool exactly the three request paths,
      each under its own flag. */
  lemma PlanCarriesRequest(request: RunRequest)
    ensures var plan := BuildExecutionPlan(WindowsStrategy, request).value;
      FlagValues(plan.args) ==
        map["--image" := request.imagePath, "--out-template" := request.outTemplatePath,
            "--out-json" := request.outJsonPath]
  {
    var args := BuildExecutionPlan(WindowsStrategy, request).value.args;
    var a4 := ["--image", request.imagePath, "--out-template", request.outTemplatePath];
    var a2 := ["--image", request.imagePath];
    assert args[..|args| - 2] == a4;
    assert a4[..|a4| - 2] == a2;
    assert a2[..|a2| - 2] == [];
    assert FlagValues(a2) == map["--image" := request.imagePath];
    assert FlagValues(a4) == map["--image" := request.imagePath, "--out-template" := request.outTemplatePath];
  }

  /** Only Windows has a plan; every other platform fails at planning,
      naming the platform. */
  lemma OnlyWindowsPlans(currentOs: string, request: RunRequest)
    ensures BuildExecutionPlan(ResolveStrategy(currentOs), request).Ok? <==> currentOs == "windows"
    ensures currentOs != "windows" ==>
      BuildExecutionPlan(ResolveStrategy(currentOs), request)
        == Err(NotImplementedError("SourceAFIS external tool for \"" + currentOs + "\" not implemented yet"))
  {
  }

  // ---- The process adapter ----------------------------------------------

  /** What `Promise.race` settled with. `code` None is a null exit code. */
  datatype ProcessOutput =
    | Finished(code: Option<int>, stdout: string, stderr: string, durationMs: int)
    | TimedOut

  datatype ProcessResult = ProcessResult(code: int, stdout: string, stderr: string, durationMs: int)

  function TimeoutOf(timeoutMs: Option<int>): (t: int)
    ensures timeoutMs.None? ==> t == DefaultTimeoutMs
    ensures timeoutMs.Some? ==> t == timeoutMs.value
  {
    timeoutMs.GetOr(DefaultTimeoutMs)
  }

  /** `TauriProcessAdapter.execute`. */
  function Execute(plan: ExecutionPlan, timeoutMs: Option<int>, output: ProcessOutput): (r: Result<ProcessResult, ToolError>)
    ensures output.TimedOut? ==> r == Err(TimeoutError(plan.command, TimeoutOf(timeoutMs), None))
    ensures output.Finished? ==> (r.Ok? <==> output.code == Some(0))
    ensures output.Finished? && r.Err? ==> r.error == ProcessError(plan.command, output.code, output.stderr, None)
    ensures r.Ok? ==>
      r.value == ProcessResult(0, output.stdout, output.stderr, output.durationMs)
  {
    match output
    case TimedOut => Err(TimeoutError(plan.command, TimeoutOf(timeoutMs), None))
    case Finished(code, stdout, stderr, d) =>
      if code != Some(0) then Err(ProcessError(plan.command, code, stderr, None))
      else Ok(ProcessResult(0, stdout, stderr, d))
  }

  // ---- The JSON output adapter -------------------------------------------

  /** What reading the output file gave: whether it exists and, if so,
      `JSON.parse`'s value or the error it threw. */
  datatype JsonFile = Missing | Present(parsed: Result<Json, Cause>)

  /** `typeof parsed === "object"` for a truthy value. */
  predicate IsObject(v: Json) { v.JObj? || v.JArr? }

  /** `SourceAfisJsonOutputAdapter.read`. */
  function ReadJson(path: string, file: JsonFile): (r: Result<Json, ToolError>)
    ensures file.Missing? ==> r == Err(ExternalToolError("SourceAFIS output JSON missing: " + path, None))
    ensures file.Present? && file.parsed.Err? ==>
      r == Err(ExternalToolError("SourceAFIS output JSON parse failed", Some(file.parsed.error)))
    ensures r.Ok? <==>
      file.Present? && file.parsed.Ok? && IsObject(file.parsed.value)
      && (Get(file.parsed.value, "minutiae").None? || IsArray(Get(file.parsed.value, "minutiae").value))
    ensures r.Ok? ==> r.value == file.parsed.value
  {
    match file
    case Missing => Err(ExternalToolError("SourceAFIS output JSON missing: " + path, None))
    case Present(Err(e)) => Err(ExternalToolError("SourceAFIS output JSON parse failed", Some(e)))
    case Present(Ok(v)) =>
      if !IsObject(v) then Err(ExternalToolError("SourceAFIS output JSON root is not an object", None))
      else if Get(v, "minutiae").Some? && !IsArray(Get(v, "minutiae").value) then
        Err(ExternalToolError("SourceAFIS output JSON field \"minutiae\" is not an array", None))
      else Ok(v)
  }

  /** A `null` minutiae field is rejected (it is not `undefined`). */
  lemma NullMinutiaeRejected(path: string)
    ensures ReadJson(path, Present(Ok(JObj(map["minutiae" := JNull]))))
      == Err(ExternalToolError("SourceAFIS output JSON field \"minutiae\" is not an array", None))
  {
  }

  // ---- run ---------------------------------------------------------------

  datatype RunResult = RunResult(processResult: ProcessResult, json: Json)

  /** `SourceAfisExternalTool.run`: plan, process, template check, JSON,
      each step's error ending the run. */
  function Run(s: Strategy, request: RunRequest, timeoutMs: Option<int>, output: ProcessOutput,
               templateExists: bool, file: JsonFile): (r: Result<RunResult, ToolError>)
    ensures BuildExecutionPlan(s, request).Err? ==> r == Err(BuildExecutionPlan(s, request).error)
    ensures BuildExecutionPlan(s, request).Ok? && Execute(BuildExecutionPlan(s, request).value, timeoutMs, output).Err? ==>
      r == Err(Execute(BuildExecutionPlan(s, request).value, timeoutMs, output).error)
    ensures r.Ok? <==>
      && BuildExecutionPlan(s, request).Ok?
      && Execute(BuildExecutionPlan(s, request).value, timeoutMs, output).Ok?
      && templateExists && ReadJson(request.outJsonPath, file).Ok?
    ensures r.Ok? ==>
      r.value == RunResult(Execute(BuildExecutionPlan(s, request).value, timeoutMs, output).value,
                           ReadJson(request.outJsonPath, file).value)
  {
    match BuildExecutionPlan(s, request)
    case Err(e) => Err(e)
    case Ok(plan) =>
      match Execute(plan, timeoutMs, output)
      case Err(e) => Err(e)
      case Ok(processResult) =>
        if !templateExists then
          Err(ExternalToolError("SourceAFIS output template missing: " + request.outTemplatePath, None))
        else
          match ReadJson(request.outJsonPath, file)
          case Err(e) => Err(e)
          case Ok(json) => Ok(RunResult(processResult, json))
  }

  /** A missing template fails the run even after exit code 0, whatever the
      JSON file holds: the JSON is not read. */
  lemma MissingTemplateIgnoresJson(request: RunRequest, timeoutMs: Option<int>, stdout: string, stderr: string,
                                   d: int, f1: JsonFile, f2: JsonFile)
    ensures var output := Finished(Some(0), stdout, stderr, d);
      && Run(WindowsStrategy, request, timeoutMs, output, false, f1) == Run(WindowsStrategy, request, timeoutMs, output, false, f2)
      && Run(WindowsStrategy, request, timeoutMs, output, false, f1)
           == Err(ExternalToolError("SourceAFIS output template missing: " + request.outTemplatePath, None))
  {
  }

  /** Off Windows nothing is executed: the outcome does not depend on the
      process or the files. */
  lemma NonWindowsFailsFirst(os: string, request: RunRequest, timeoutMs: Option<int>,
                             o1: ProcessOutput, o2: ProcessOutput, t1: bool, t2: bool, f1: JsonFile, f2: JsonFile)
    requires os != "windows"
    ensures Run(ResolveStrategy(os), request, timeoutMs, o1, t1, f1) == Run(ResolveStrategy(os), request, timeoutMs, o2, t2, f2)
    ensures Run(ResolveStrategy(os), request, timeoutMs, o1, t1, f1).error.NotImplementedError?
  {
  }
}
