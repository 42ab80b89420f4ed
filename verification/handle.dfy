/** The plugin's entry point (internal/plugin/handle.go): parse the plugin,
    stop early in test mode or without working directories, and otherwise
    run the orchestrator on every working directory and map the outcome to
    an exit status. */
module Handle {
  import opened Wrappers
  import opened Strings
  import Common
  import BuildkiteAgent
  import Config
  import WorkingDir
  import Initiator
  import Orchestrator

  /** `ExitStatus`, the process exit code. */
  type ExitStatus = int

  const Success: ExitStatus := 0
  const UnexpectedFailure: ExitStatus := 1
  const HandledFailure: ExitStatus := 2
  const NoWorkingDirectories: ExitStatus := 3
  const TestModeEarlyExit: ExitStatus := 10

  const KnownStatuses: set<ExitStatus> :=
    {Success, UnexpectedFailure, HandledFailure, NoWorkingDirectories, TestModeEarlyExit}
  const KnownNames: set<string> :=
    {"Success", "UnexpectedFailure", "HandledFailure", "NoWorkingDirectories", "TestModeEarlyExit"}

  /** `(ExitStatus).GetName`: the constant's name for the five statuses,
      "Unknown(n)" for any other value. */
  function GetName(e: ExitStatus): (name: string)
    ensures e in KnownStatuses <==> name in KnownNames
    ensures e !in KnownStatuses ==> name == "Unknown(" + IntToString(e) + ")"
  {
    if e == Success then "Success"
    else if e == UnexpectedFailure then "UnexpectedFailure"
    else if e == HandledFailure then "HandledFailure"
    else if e == NoWorkingDirectories then "NoWorkingDirectories"
    else if e == TestModeEarlyExit then "TestModeEarlyExit"
    else
      var name := "Unknown(" + IntToString(e) + ")";
      assert name[2] == 'k';
      name
  }

  /** Distinct known statuses have distinct names. */
  lemma KnownNamesDistinct(a: ExitStatus, b: ExitStatus)
    requires a in KnownStatuses && b in KnownStatuses && a != b
    ensures GetName(a) != GetName(b)
  {
  }

  /** `Context`: the plugin's name and version. */
  datatype Context = Context(name: string, version: string)

  /** `handlerConfig`. */
  datatype Handler = Handler(execPath: string, agent: BuildkiteAgent.Agent, initiator: Initiator.Initiator)

  /** The handler options; `None` stands for a nil interface. */
  datatype HandlerOption =
    | WithTerraformExecPath(path: string)
    | WithAgentInterface(agent: Option<BuildkiteAgent.Agent>)
    | WithInitatorInterface(initiator: Option<Initiator.Initiator>)

  /** An empty path or a nil interface leaves the setting as it was. */
  function ApplyHandlerOption(h: Handler, opt: HandlerOption): Handler {
    match opt
    case WithTerraformExecPath(path) => if path != "" then h.(execPath := path) else h
    case WithAgentInterface(a) => if a.Some? then h.(agent := a.value) else h
    case WithInitatorInterface(i) => if i.Some? then h.(initiator := i.value) else h
  }

  function ApplyHandlerOptions(h: Handler, opts: seq<HandlerOption>): Handler {
    if opts == [] then h
    else ApplyHandlerOption(ApplyHandlerOptions(h, opts[..|opts| - 1]), opts[|opts| - 1])
  }

  /** The defaults: no exec path (found on PATH later), the default agent
      and an initiator reading "BUILDKITE_PLUGINS". */
  function DefaultHandler(defaultAgent: BuildkiteAgent.Agent): Handler {
    Handler("", defaultAgent, Initiator.Initiator(Config.Loader(Config.DefaultPluginsEnv)))
  }

  /** `NewHandler`. */
  method NewHandler(opts: seq<HandlerOption>, defaultAgent: BuildkiteAgent.Agent) returns (h: Handler)
    ensures h == ApplyHandlerOptions(DefaultHandler(defaultAgent), opts)
  {
    var initiator := Initiator.NewInitiator([]);
    h := Handler("", defaultAgent, initiator);
    var i := 0;
    while i < |opts|
      invariant 0 <= i <= |opts|
      invariant h == ApplyHandlerOptions(DefaultHandler(defaultAgent), opts[..i])
    {
      assert opts[..i + 1][..i] == opts[..i];
      match opts[i] {
        case WithTerraformExecPath(path) =>
          if path != "" { h := h.(execPath := path); }
        case WithAgentInterface(a) =>
          if a.Some? { h := h.(agent := a.value); }
        case WithInitatorInterface(ini) =>
          if ini.Some? { h := h.(initiator := ini.value); }
      }
      i := i + 1;
    }
    assert opts[..i] == opts;
  }

  /** Everything `Handle` consults outside the model: what loading the
      configuration and resolving directories consult, strcase's
      SCREAMING_SNAKE conversion, `exec.LookPath("terraform")`, a workspace
      run's runtime, and the agent `NewAgent()` builds. */
  datatype World = World(
    config: Config.Host,
    dirs: WorkingDir.Host,
    screamingSnake: string -> string,
    lookPath: Result<string>,
    runtime: Orchestrator.Runtime,
    defaultAgent: BuildkiteAgent.Agent)

  // ---------------------------------------------------- running workspaces

  /** A workspace run as a function of the directory. */
  function RunOf(o: Orchestrator.Orchestrator, rt: Orchestrator.Runtime): string -> Orchestrator.WorkspaceResult {
    d => Orchestrator.RunResult(o, d, rt)
  }

  /** The results of the workspaces that failed, in order. */
  function FailedRuns(dirs: seq<string>, run: string -> Orchestrator.WorkspaceResult)
    : seq<Orchestrator.WorkspaceResult>
  {
    if dirs == [] then []
    else FailedRuns(dirs[..|dirs| - 1], run) + if run(dirs[|dirs| - 1]).success then [] else [run(dirs[|dirs| - 1])]
  }

  /** No failure is recorded exactly when every workspace succeeds, and
      every recorded failure is an unsuccessful result. */
  lemma {:induction false} FailedRunsEmpty(dirs: seq<string>, run: string -> Orchestrator.WorkspaceResult)
    ensures FailedRuns(dirs, run) == [] <==> forall i :: 0 <= i < |dirs| ==> run(dirs[i]).success
    ensures forall k :: 0 <= k < |FailedRuns(dirs, run)| ==> !FailedRuns(dirs, run)[k].success
    ensures |FailedRuns(dirs, run)| <= |dirs|
  {
    if dirs != [] {
      var init := dirs[..|dirs| - 1];
      FailedRunsEmpty(init, run);
      assert forall i :: 0 <= i < |init| ==> init[i] == dirs[i];
    }
  }

  /** The workspace loop with one run per workspace: `runs` lists the
      directories the orchestrator ran on, in order. */
  method RunWorkspaces(o: Orchestrator.Orchestrator, dirs: seq<string>, rt: Orchestrator.Runtime)
    returns (failures: seq<Orchestrator.WorkspaceResult>, runs: seq<string>)
    ensures failures == FailedRuns(dirs, RunOf(o, rt))
    ensures runs == dirs
  {
    failures := [];
    runs := [];
    var i := 0;
    while i < |dirs|
      invariant 0 <= i <= |dirs|
      invariant failures == FailedRuns(dirs[..i], RunOf(o, rt))
      invariant runs == dirs[..i]
    {
      assert dirs[..i + 1][..i] == dirs[..i];
      var result := Orchestrator.Run(o, dirs[i], rt);
      runs := runs + [dirs[i]];
      if !result.success {
        failures := failures + [result];
      }
      i := i + 1;
    }
    assert dirs[..i] == dirs;
  }

  /** The directories the workspace loop as written runs on: a failing
      workspace is run a second time to record its failure. */
  function RunsAsWritten(dirs: seq<string>, run: string -> Orchestrator.WorkspaceResult): seq<string> {
    if dirs == [] then []
    else
      var d := dirs[|dirs| - 1];
      RunsAsWritten(dirs[..|dirs| - 1], run) + [d] + if run(d).success then [] else [d]
  }

  /** The workspace loop as written: after a failed run it appends the
      result of running the workspace again. */
  method RunWorkspacesAsWritten(o: Orchestrator.Orchestrator, dirs: seq<string>, rt: Orchestrator.Runtime)
    returns (failures: seq<Orchestrator.WorkspaceResult>, runs: seq<string>)
    ensures failures == FailedRuns(dirs, RunOf(o, rt))
    ensures runs == RunsAsWritten(dirs, RunOf(o, rt))
  {
    failures := [];
    runs := [];
    var i := 0;
    while i < |dirs|
      invariant 0 <= i <= |dirs|
      invariant failures == FailedRuns(dirs[..i], RunOf(o, rt))
      invariant runs == RunsAsWritten(dirs[..i], RunOf(o, rt))
    {
      assert dirs[..i + 1][..i] == dirs[..i];
      var result := Orchestrator.Run(o, dirs[i], rt);
      runs := runs + [dirs[i]];
      if !result.success {
        var again := Orchestrator.Run(o, dirs[i], rt);
        runs := runs + [dirs[i]];
        failures := failures + [again];
      }
      i := i + 1;
    }
    assert dirs[..i] == dirs;
  }

  /** One failing workspace is run twice by the loop as written: in apply
      mode a failed `terraform apply` is attempted again. */
  lemma FailingWorkspaceRunsTwice(d: string, run: string -> Orchestrator.WorkspaceResult)
    requires !run(d).success
    ensures RunsAsWritten([d], run) == [d, d]
  {
    assert [d][..0] == [];
  }

  // ----------------------------------------------------------------- Handle

  /** The options `Handle` builds the orchestrator with. */
  function OrchestratorOptions(h: Handler): seq<Orchestrator.OrchestratorOption> {
    [Orchestrator.WithAgentInterface(Some(h.agent)), Orchestrator.WithTerraformExecPath(h.execPath)]
  }

  /** An exit status together with the error `Handle` returns. */
  datatype Exit = Exit(status: ExitStatus, err: Option<string>)

  /** What `Handle` returns. */
  function HandleResult(h: Handler, context: Context, w: World): (r: Exit)
    requires !Initiator.ParsePanics(h.initiator, context.name, w.config, w.dirs, w.defaultAgent)
    ensures r.status in KnownStatuses
    ensures r.err.Some? <==> r.status == UnexpectedFailure
  {
    match Initiator.ParseResult(h.initiator, context.name, w.config, w.dirs, w.defaultAgent)
    case Err(e) => Exit(UnexpectedFailure, Some(e))
    case Ok(payload) =>
      if Common.IsTestMode(w.config.env, context.name, w.screamingSnake) then Exit(TestModeEarlyExit, None)
      else if payload.workingDirectories == [] then Exit(NoWorkingDirectories, None)
      else
        match Orchestrator.Built(payload.plugin, payload.validators, payload.outputers,
                                 OrchestratorOptions(h), w.defaultAgent, w.lookPath)
        case Err(e) => Exit(UnexpectedFailure, Some(e))
        case Ok(o) =>
          if FailedRuns(payload.workingDirectories, RunOf(o, w.runtime)) != [] then Exit(HandledFailure, None)
          else Exit(Success, None)
  }

  /** `(*handlerConfig).Handle`, with the workspace loop running each
      workspace once. */
  method Handle(h: Handler, context: Context, w: World) returns (status: ExitStatus, err: Option<string>)
    requires !Initiator.ParsePanics(h.initiator, context.name, w.config, w.dirs, w.defaultAgent)
    ensures Exit(status, err) == HandleResult(h, context, w)
  {
    var payload := Initiator.ParsePlugin(h.initiator, context.name, w.config, w.dirs, w.defaultAgent);
    if payload.Err? {
      return UnexpectedFailure, Some(payload.msg);
    }
    if Common.IsTestMode(w.config.env, context.name, w.screamingSnake) {
      return TestModeEarlyExit, None;
    }
    var parsed := payload.value;
    if |parsed.workingDirectories| == 0 {
      return NoWorkingDirectories, None;
    }
    var orchestrator := Orchestrator.NewOrchestrator(parsed.plugin, parsed.validators, parsed.outputers,
                                                     OrchestratorOptions(h), w.defaultAgent, w.lookPath);
    if orchestrator.Err? {
      return UnexpectedFailure, Some(orchestrator.msg);
    }
    var failures, runs := RunWorkspaces(orchestrator.value, parsed.workingDirectories, w.runtime);
    if |failures| > 0 {
      return HandledFailure, None;
    }
    return Success, None;
  }

  /** `Handle` exits with `Success` exactly when the plugin parses, test
      mode is off, there is at least one directory, Terraform is found and
      every workspace run succeeds. */
  lemma SuccessMeansEveryWorkspaceSucceeded(h: Handler, context: Context, w: World)
    requires !Initiator.ParsePanics(h.initiator, context.name, w.config, w.dirs, w.defaultAgent)
    ensures var parsed := Initiator.ParseResult(h.initiator, context.name, w.config, w.dirs, w.defaultAgent);
            HandleResult(h, context, w).status == Success <==>
              && parsed.Ok?
              && !Common.IsTestMode(w.config.env, context.name, w.screamingSnake)
              && parsed.value.workingDirectories != []
              && var built := Orchestrator.Built(parsed.value.plugin, parsed.value.validators, parsed.value.outputers,
                                                 OrchestratorOptions(h), w.defaultAgent, w.lookPath);
                 && built.Ok?
                 && forall i :: 0 <= i < |parsed.value.workingDirectories| ==>
                      Orchestrator.RunResult(built.value, parsed.value.workingDirectories[i], w.runtime).success
  {
    var parsed := Initiator.ParseResult(h.initiator, context.name, w.config, w.dirs, w.defaultAgent);
    if parsed.Ok? {
      var built := Orchestrator.Built(parsed.value.plugin, parsed.value.validators, parsed.value.outputers,
                                      OrchestratorOptions(h), w.defaultAgent, w.lookPath);
      if built.Ok? {
        FailedRunsEmpty(parsed.value.workingDirectories, RunOf(built.value, w.runtime));
      }
    }
  }

  /** Test mode is decided after parsing and before anything else: a
      parsed plugin in test mode exits early even without directories. */
  lemma TestModeExitsEarly(h: Handler, context: Context, w: World)
    requires !Initiator.ParsePanics(h.initiator, context.name, w.config, w.dirs, w.defaultAgent)
    requires Initiator.ParseResult(h.initiator, context.name, w.config, w.dirs, w.defaultAgent).Ok?
    requires Common.IsTestMode(w.config.env, context.name, w.screamingSnake)
    ensures HandleResult(h, context, w) == Exit(TestModeEarlyExit, None)
  {
  }

  /** The orchestrator `Handle` builds carries the parsed plugin, whose
      mode is valid, so every workspace run is a plan or an apply and none
      reports an unsupported mode. */
  lemma NoUnsupportedModeAfterParse(h: Handler, context: Context, w: World, dir: string)
    requires !Initiator.ParsePanics(h.initiator, context.name, w.config, w.dirs, w.defaultAgent)
    requires Initiator.ParseResult(h.initiator, context.name, w.config, w.dirs, w.defaultAgent).Ok?
    ensures var parsed := Initiator.ParseResult(h.initiator, context.name, w.config, w.dirs, w.defaultAgent).value;
            var built := Orchestrator.Built(parsed.plugin, parsed.validators, parsed.outputers,
                                            OrchestratorOptions(h), w.defaultAgent, w.lookPath);
            built.Ok? ==>
              && built.value.plugin == parsed.plugin
              && Orchestrator.RunResult(built.value, dir, w.runtime)
                 == if parsed.plugin.mode == Config.ModePlan then Orchestrator.PlanResult(built.value, dir, w.runtime)
                    else Orchestrator.ApplyResult(built.value, dir, w.runtime)
  {
    var parsed := Initiator.ParseResult(h.initiator, context.name, w.config, w.dirs, w.defaultAgent).value;
    Orchestrator.OptionsKeepPayload(
      Orchestrator.Orchestrator(Orchestrator.ConfiguredExecPath(parsed.plugin), w.defaultAgent, parsed.plugin,
                                parsed.validators, parsed.outputers),
      OrchestratorOptions(h));
  }
}
