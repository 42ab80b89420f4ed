/** The workspace orchestrator (internal/plugin/orchestrator/orchestrator.go):
    for one working directory, run `terraform init` and `terraform plan`,
    show the plan, run every validator on it and, in apply mode, apply it.

    Terraform itself (terraform-exec) is a `TerraformHost` whose answers the
    model takes as given; `path.Join` is a parameter too. */
module Orchestrator {
  import opened Wrappers
  import opened Json
  import opened Strings
  import BuildkiteAgent
  import Config
  import Outputs
  import Validators
  import Rego

  /** `WorkspaceResult`; a nil `Error` is `None`, and every error it holds
      is text. */
  datatype WorkspaceResult = WorkspaceResult(success: bool, stage: string, workingDir: string, error: Option<string>)

  const StageInitialization: string := "initialization"
  const StagePlanning: string := "planning"
  const StageShowingPlan: string := "showing plan"
  const StageValidation: string := "validation"
  const StageApplying: string := "applying"
  const StageApply: string := "apply"

  /** The `tfexec` init options the orchestrator passes. */
  datatype InitArg = GetArg(get: bool) | PluginDirArg(dir: string)

  /** A Terraform runner, `tfexec.NewTerraform(workingDir, execPath)`. */
  datatype Runner = Runner(workingDir: string, execPath: string)

  /** What terraform-exec answers: creating a runner, `Init`, `Plan` with
      an output file (whether the plan has changes), `ShowPlanFile` (the
      plan as JSON) and `Apply` of a plan file. */
  datatype TerraformHost = TerraformHost(
    create: Runner -> Outcome,
    init: (Runner, seq<InitArg>) -> Outcome,
    plan: (Runner, string) -> Result<bool>,
    show: (Runner, string) -> Result<Json>,
    apply: (Runner, string) -> Outcome)

  /** Everything a workspace run consults outside the model: Terraform, the
      policy engine and value formatting the validators use, and
      `path.Join`. */
  datatype Runtime = Runtime(
    terraform: TerraformHost,
    engine: Rego.Engine,
    show: Validators.Show,
    joinPath: (string, string) -> string)

  /** `orchestratorConfig`. */
  datatype Orchestrator = Orchestrator(
    execPath: string,
    agent: BuildkiteAgent.Agent,
    plugin: Config.Plugin,
    validators: seq<Validators.Validator>,
    outputers: seq<Outputs.Annotator>)

  // ---------------------------------------------------------- construction

  /** `WithTerraformExecPath` and `WithAgentInterface` (`None` is a nil
      agent). */
  datatype OrchestratorOption = WithTerraformExecPath(path: string) | WithAgentInterface(agent: Option<BuildkiteAgent.Agent>)

  /** The plugin's `terraform.exec_path`, or "" when unset. */
  function ConfiguredExecPath(p: Config.Plugin): string {
    if p.terraform.Some? && p.terraform.value.execPath.Some? then p.terraform.value.execPath.value else ""
  }

  /** An empty path and a nil agent leave the setting as it was. */
  function ApplyOrchestratorOption(o: Orchestrator, opt: OrchestratorOption): Orchestrator {
    match opt
    case WithTerraformExecPath(path) => if path != "" then o.(execPath := path) else o
    case WithAgentInterface(a) => if a.Some? then o.(agent := a.value) else o
  }

  function ApplyOrchestratorOptions(o: Orchestrator, opts: seq<OrchestratorOption>): Orchestrator {
    if opts == [] then o
    else ApplyOrchestratorOption(ApplyOrchestratorOptions(o, opts[..|opts| - 1]), opts[|opts| - 1])
  }

  /** The orchestrator before the PATH lookup: the plugin's exec path, the
      default agent, then the options. */
  function Configured(plugin: Config.Plugin, validators: seq<Validators.Validator>, outputers: seq<Outputs.Annotator>,
                      opts: seq<OrchestratorOption>, defaultAgent: BuildkiteAgent.Agent): Orchestrator
  {
    ApplyOrchestratorOptions(Orchestrator(ConfiguredExecPath(plugin), defaultAgent, plugin, validators, outputers), opts)
  }

  const TerraformNotFound: string := "terraform binary not found in PATH: "

  /** What `NewOrchestrator` returns; `lookPath` is `exec.LookPath("terraform")`.
      It fails exactly when no exec path is configured and the lookup
      fails. */
  function Built(plugin: Config.Plugin, validators: seq<Validators.Validator>, outputers: seq<Outputs.Annotator>,
                 opts: seq<OrchestratorOption>, defaultAgent: BuildkiteAgent.Agent, lookPath: Result<string>)
    : (r: Result<Orchestrator>)
    ensures r.Err? <==> Configured(plugin, validators, outputers, opts, defaultAgent).execPath == "" && lookPath.Err?
    ensures r.Err? ==> r.msg == TerraformNotFound + lookPath.msg
    ensures r.Ok? ==> r.value.execPath != "" || (lookPath.Ok? && r.value.execPath == lookPath.value)
  {
    var o := Configured(plugin, validators, outputers, opts, defaultAgent);
    if o.execPath != "" then Ok(o)
    else
      match lookPath
      case Err(e) => Err(TerraformNotFound + e)
      case Ok(p) => Ok(o.(execPath := p))
  }

  /** `NewOrchestrator`: apply the options to the defaults, then look
      Terraform up on PATH when no exec path is set. */
  method NewOrchestrator(plugin: Config.Plugin, validators: seq<Validators.Validator>,
                         outputers: seq<Outputs.Annotator>, opts: seq<OrchestratorOption>,
                         defaultAgent: BuildkiteAgent.Agent, lookPath: Result<string>)
    returns (r: Result<Orchestrator>)
    ensures r == Built(plugin, validators, outputers, opts, defaultAgent, lookPath)
  {
    var o := Orchestrator(ConfiguredExecPath(plugin), defaultAgent, plugin, validators, outputers);
    var i := 0;
    while i < |opts|
      invariant 0 <= i <= |opts|
      invariant o == ApplyOrchestratorOptions(
                       Orchestrator(ConfiguredExecPath(plugin), defaultAgent, plugin, validators, outputers), opts[..i])
    {
      assert opts[..i + 1][..i] == opts[..i];
      match opts[i] {
        case WithTerraformExecPath(path) =>
          if path != "" { o := o.(execPath := path); }
        case WithAgentInterface(a) =>
          if a.Some? { o := o.(agent := a.value); }
      }
      i := i + 1;
    }
    assert opts[..i] == opts;
    if o.execPath == "" {
      if lookPath.Err? {
        return Err(TerraformNotFound + lookPath.msg);
      }
      o := o.(execPath := lookPath.value);
    }
    return Ok(o);
  }

  /** Options change only the exec path and the agent: the plugin, the
      validators and the outputers are kept. */
  lemma {:induction false} OptionsKeepPayload(o: Orchestrator, opts: seq<OrchestratorOption>)
    ensures ApplyOrchestratorOptions(o, opts).plugin == o.plugin
    ensures ApplyOrchestratorOptions(o, opts).validators == o.validators
    ensures ApplyOrchestratorOptions(o, opts).outputers == o.outputers
  {
    if opts != [] {
      OptionsKeepPayload(o, opts[..|opts| - 1]);
    }
  }

  /** Options that set no non-empty exec path leave the exec path alone. */
  lemma {:induction false} ExecPathUntouched(o: Orchestrator, opts: seq<OrchestratorOption>)
    requires forall i :: 0 <= i < |opts| ==> !(opts[i].WithTerraformExecPath? && opts[i].path != "")
    ensures ApplyOrchestratorOptions(o, opts).execPath == o.execPath
  {
    if opts != [] {
      ExecPathUntouched(o, opts[..|opts| - 1]);
    }
  }

  /** A non-empty exec path option overrides the plugin's exec path and
      every earlier option, unless a later non-empty one follows. */
  lemma ExecPathOptionWins(o: Orchestrator, before: seq<OrchestratorOption>, path: string,
                           after: seq<OrchestratorOption>)
    requires path != ""
    requires forall i :: 0 <= i < |after| ==> !(after[i].WithTerraformExecPath? && after[i].path != "")
    ensures ApplyOrchestratorOptions(o, before + [WithTerraformExecPath(path)] + after).execPath == path
  {
    var upTo := before + [WithTerraformExecPath(path)];
    assert upTo[..|upTo| - 1] == before;
    ApplyOptionsAppend(o, upTo, after);
    ExecPathUntouched(ApplyOrchestratorOptions(o, upTo), after);
  }

  /** Applying two runs of options is applying their concatenation. */
  lemma {:induction false} ApplyOptionsAppend(o: Orchestrator, a: seq<OrchestratorOption>, b: seq<OrchestratorOption>)
    ensures ApplyOrchestratorOptions(o, a + b) == ApplyOrchestratorOptions(ApplyOrchestratorOptions(o, a), b)
  {
    if b == [] {
      assert a + b == a;
    } else {
      ApplyOptionsAppend(o, a, b[..|b| - 1]);
      assert (a + b)[..|a + b| - 1] == a + b[..|b| - 1];
    }
  }

  // -------------------------------------------------------------- initSteps

  /** The init options a plugin asks for: `Get` before `PluginDir`, each
      only when set. */
  function InitArgs(p: Config.Plugin): (args: seq<InitArg>)
    ensures |args| <= 2
    ensures |args| == 2 ==> args[0].GetArg? && args[1].PluginDirArg?
    ensures forall b :: GetArg(b) in args <==>
              p.terraform.Some? && p.terraform.value.initOptions.Some? && p.terraform.value.initOptions.value.get == Some(b)
    ensures forall d :: PluginDirArg(d) in args <==>
              p.terraform.Some? && p.terraform.value.initOptions.Some? && p.terraform.value.initOptions.value.pluginDir == Some(d)
  {
    if p.terraform.Some? && p.terraform.value.initOptions.Some? then
      var opts := p.terraform.value.initOptions.value;
      (if opts.get.Some? then [GetArg(opts.get.value)] else [])
      + (if opts.pluginDir.Some? then [PluginDirArg(opts.pluginDir.value)] else [])
    else []
  }

  /** A step that either hands a value on or ends the run with a result. */
  datatype Step<T> = Continue(value: T) | Stop(result: WorkspaceResult)

  const InitFailed: string := "failed to initialize Terraform: "
  const CreateFailed: string := "failed to create Terraform runner: "
  const InitRunFailed: string := "failed to run terraform init: "

  /** `initSteps`: create a runner for the directory with the exec path and
      run `terraform init` with the plugin's init options. */
  function InitSteps(o: Orchestrator, workingDir: string, tf: TerraformHost): (s: Step<Runner>)
    ensures s.Stop? ==> !s.result.success && s.result.stage == StageInitialization
                        && s.result.workingDir == workingDir && s.result.error.Some?
    ensures s.Continue? <==> tf.create(Runner(workingDir, o.execPath)).Pass?
                             && tf.init(Runner(workingDir, o.execPath), InitArgs(o.plugin)).Pass?
    ensures s.Continue? ==> s.value == Runner(workingDir, o.execPath)
  {
    var runner := Runner(workingDir, o.execPath);
    match tf.create(runner)
    case Fail(e) => Stop(WorkspaceResult(false, StageInitialization, workingDir, Some(InitFailed + CreateFailed + e)))
    case Pass =>
      match tf.init(runner, InitArgs(o.plugin))
      case Fail(e) => Stop(WorkspaceResult(false, StageInitialization, workingDir, Some(InitRunFailed + e)))
      case Pass => Continue(runner)
  }

  // -------------------------------------------------------------- planSteps

  const PlanRunFailed: string := "failed to run terraform plan: "
  const NoChanges: string := "no changes detected in the Terraform plan"
  const ShowFailed: string := "failed to show plan file: "

  /** The result of a plan without changes: a success that still carries an
      error text. */
  function NoChangesResult(workingDir: string): WorkspaceResult {
    WorkspaceResult(true, StagePlanning, workingDir, Some(NoChanges))
  }

  /** `planSteps`: plan into the plan file; a plan without changes ends the
      run successfully, otherwise the plan file is shown as JSON. */
  function PlanSteps(runner: Runner, planFile: string, workingDir: string, tf: TerraformHost): (s: Step<Json>)
    ensures s.Stop? ==> s.result.workingDir == workingDir && s.result.stage in {StagePlanning, StageShowingPlan}
    ensures s.Stop? && s.result.success <==> tf.plan(runner, planFile) == Ok(false)
    ensures s.Stop? && s.result.success ==> s.result == NoChangesResult(workingDir)
    ensures s.Continue? <==> tf.plan(runner, planFile) == Ok(true) && tf.show(runner, planFile).Ok?
  {
    match tf.plan(runner, planFile)
    case Err(e) => Stop(WorkspaceResult(false, StagePlanning, workingDir, Some(PlanRunFailed + e)))
    case Ok(hasChanges) =>
      if !hasChanges then Stop(NoChangesResult(workingDir))
      else
        match tf.show(runner, planFile)
        case Err(e) => Stop(WorkspaceResult(false, StageShowingPlan, workingDir, Some(ShowFailed + e)))
        case Ok(plan) => Continue(plan)
  }

  // ---------------------------------------------------------- validateSteps

  /** Where the validators leave the run: stopped by the first validator
      that errs, or having counted the results that did not pass. */
  datatype Tally = Stopped(error: string) | Counted(failures: nat)

  function TallyStep(t: Tally, result: Result<Validators.ValidationResult>): Tally {
    match t
    case Stopped(_) => t
    case Counted(n) =>
      match result
      case Err(e) => Stopped(e)
      case Ok(res) => Counted(n + if res.passed then 0 else 1)
  }

  /** A validator run on a plan: its result or its error. */
  type Check = Validators.Validator -> Result<Validators.ValidationResult>

  /** Running a validator on `plan` with the runtime's policy engine. */
  function CheckOn(plan: Json, rt: Runtime): Check {
    v => Validators.ValidateResult(v, plan, rt.engine, rt.show)
  }

  /** The validators run in order with `check`. */
  function TallyOf(vs: seq<Validators.Validator>, check: Check): Tally {
    if vs == [] then Counted(0)
    else TallyStep(TallyOf(vs[..|vs| - 1], check),
                   check(vs[|vs| - 1]))
  }

  const ValidationFailed: string := "validation failed: "

  function FailedWithIssues(n: nat): string {
    "validation failed with " + NatToString(n) + " issues"
  }

  /** The result `validateSteps` ends the run with, if any: nothing exactly
      when every validator ran and passed. */
  function ValidationVerdict(t: Tally, workingDir: string): (r: Option<WorkspaceResult>)
    ensures r.None? <==> t == Counted(0)
    ensures r.Some? ==> !r.value.success && r.value.stage == StageValidation && r.value.workingDir == workingDir
    ensures t.Stopped? ==> r.Some? && r.value.error == Some(ValidationFailed + t.error)
  {
    match t
    case Stopped(e) => Some(WorkspaceResult(false, StageValidation, workingDir, Some(ValidationFailed + e)))
    case Counted(n) =>
      if n == 0 then None
      else Some(WorkspaceResult(false, StageValidation, workingDir, Some(FailedWithIssues(n))))
  }

  /** `validateSteps`: run each validator on the plan; the first error
      stops the run, otherwise the failed results are counted. */
  method ValidateSteps(o: Orchestrator, plan: Json, workingDir: string, rt: Runtime)
    returns (r: Option<WorkspaceResult>)
    ensures r == ValidationVerdict(TallyOf(o.validators, CheckOn(plan, rt)), workingDir)
  {
    var vs := o.validators;
    ghost var check := CheckOn(plan, rt);
    var failures: seq<Validators.ValidationResult> := [];
    var i := 0;
    while i < |vs|
      invariant 0 <= i <= |vs|
      invariant TallyOf(vs[..i], check) == Counted(|failures|)
    {
      var result := Validators.Validate(vs[i], plan, rt.engine, rt.show);
      TallyNext(vs, i, check);
      if result.Err? {
        StoppedPersists(vs, i + 1, check);
        return Some(WorkspaceResult(false, StageValidation, workingDir, Some(ValidationFailed + result.msg)));
      }
      if !result.value.passed {
        failures := failures + [result.value];
      }
      i := i + 1;
    }
    assert vs[..i] == vs;
    if |failures| > 0 {
      return Some(WorkspaceResult(false, StageValidation, workingDir, Some(FailedWithIssues(|failures|))));
    }
    return None;
  }

  /** One more validator is one more step. */
  lemma TallyNext(vs: seq<Validators.Validator>, i: nat, check: Check)
    requires i < |vs|
    ensures TallyOf(vs[..i + 1], check)
            == TallyStep(TallyOf(vs[..i], check), check(vs[i]))
  {
    assert vs[..i + 1][..i] == vs[..i];
  }

  /** Once a validator has erred, the later ones change nothing. */
  lemma {:induction false} StoppedPersists(vs: seq<Validators.Validator>, n: nat, check: Check)
    requires n <= |vs|
    requires TallyOf(vs[..n], check).Stopped?
    ensures TallyOf(vs, check) == TallyOf(vs[..n], check)
    decreases |vs| - n
  {
    if n == |vs| {
      assert vs[..n] == vs;
    } else {
      var init := vs[..|vs| - 1];
      assert init[..n] == vs[..n];
      StoppedPersists(init, n, check);
    }
  }

  /** When no validator errs, the count is the number of results that did
      not pass: zero exactly when all passed, never more than there are
      validators. */
  lemma {:induction false} TallyWithoutErrors(vs: seq<Validators.Validator>, check: Check)
    requires forall i :: 0 <= i < |vs| ==> check(vs[i]).Ok?
    ensures TallyOf(vs, check).Counted?
    ensures TallyOf(vs, check).failures <= |vs|
    ensures TallyOf(vs, check).failures == 0 <==>
              forall i :: 0 <= i < |vs| ==> check(vs[i]).value.passed
  {
    if vs != [] {
      var init := vs[..|vs| - 1];
      forall i | 0 <= i < |init|
        ensures check(init[i]).Ok?
      {
        assert init[i] == vs[i];
      }
      TallyWithoutErrors(init, check);
      if TallyOf(vs, check).failures == 0 {
        forall i | 0 <= i < |vs|
          ensures check(vs[i]).value.passed
        {
          if i < |init| {
            assert init[i] == vs[i];
          }
        }
      } else if TallyOf(init, check).failures != 0 {
        var j :| 0 <= j < |init| && !check(init[j]).value.passed;
        assert init[j] == vs[j];
      }
    }
  }

  /** The first validator that errs decides the error, whatever follows. */
  lemma FirstErrorStops(vs: seq<Validators.Validator>, i: nat, check: Check)
    requires i < |vs|
    requires forall j :: 0 <= j < i ==> check(vs[j]).Ok?
    requires check(vs[i]).Err?
    ensures TallyOf(vs, check) == Stopped(check(vs[i]).msg)
  {
    var upTo := vs[..i + 1];
    assert upTo[..i] == vs[..i];
    forall j | 0 <= j < i ensures check(vs[..i][j]).Ok? {
      assert vs[..i][j] == vs[j];
    }
    TallyWithoutErrors(vs[..i], check);
    StoppedPersists(vs, i + 1, check);
  }

  // ------------------------------------------------------------ Plan, Apply

  /** The plan file of a directory. */
  function PlanFile(workingDir: string, rt: Runtime): string {
    rt.joinPath(workingDir, "plan.binary")
  }

  /** The steps Plan and Apply share: init, plan and validate. It either
      ends the run or yields the runner and plan file of a validated plan
      with changes. */
  function Prepared(o: Orchestrator, workingDir: string, rt: Runtime): (s: Step<Runner>)
    ensures s.Stop? ==> s.result.workingDir == workingDir
    ensures s.Stop? ==> s.result.stage in {StageInitialization, StagePlanning, StageShowingPlan, StageValidation}
  {
    match InitSteps(o, workingDir, rt.terraform)
    case Stop(res) => Stop(res)
    case Continue(runner) =>
      match PlanSteps(runner, PlanFile(workingDir, rt), workingDir, rt.terraform)
      case Stop(res) => Stop(res)
      case Continue(plan) =>
        match ValidationVerdict(TallyOf(o.validators, CheckOn(plan, rt)), workingDir)
        case Some(res) => Stop(res)
        case None => Continue(runner)
  }

  /** The result of a validated plan with changes. */
  function Planned(workingDir: string): WorkspaceResult {
    WorkspaceResult(true, StagePlanning, workingDir, None)
  }

  /** What `Plan` returns. */
  function PlanResult(o: Orchestrator, workingDir: string, rt: Runtime): (r: WorkspaceResult)
    ensures r.workingDir == workingDir
    ensures r.success ==> r == Planned(workingDir) || r == NoChangesResult(workingDir)
  {
    match Prepared(o, workingDir, rt)
    case Stop(res) => res
    case Continue(_) => Planned(workingDir)
  }

  const ApplyFailed: string := "failed to apply Terraform plan: "

  /** What `Apply` returns. */
  function ApplyResult(o: Orchestrator, workingDir: string, rt: Runtime): (r: WorkspaceResult)
    ensures r.workingDir == workingDir
  {
    match Prepared(o, workingDir, rt)
    case Stop(res) => res
    case Continue(runner) =>
      match rt.terraform.apply(runner, PlanFile(workingDir, rt))
      case Fail(e) => WorkspaceResult(false, StageApplying, workingDir, Some(ApplyFailed + e))
      case Pass => WorkspaceResult(true, StageApply, workingDir, None)
  }

  /** `(*orchestratorConfig).Plan`: init, plan, show and validate. */
  method Plan(o: Orchestrator, workingDir: string, rt: Runtime) returns (r: WorkspaceResult)
    ensures r == PlanResult(o, workingDir, rt)
  {
    var planFile := PlanFile(workingDir, rt);
    var initialised := InitSteps(o, workingDir, rt.terraform);
    if initialised.Stop? {
      return initialised.result;
    }
    var planned := PlanSteps(initialised.value, planFile, workingDir, rt.terraform);
    if planned.Stop? {
      return planned.result;
    }
    var verdict := ValidateSteps(o, planned.value, workingDir, rt);
    if verdict.Some? {
      return verdict.value;
    }
    return Planned(workingDir);
  }

  /** `(*orchestratorConfig).Apply`: the same steps as `Plan`, then apply
      the plan file. */
  method Apply(o: Orchestrator, workingDir: string, rt: Runtime) returns (r: WorkspaceResult)
    ensures r == ApplyResult(o, workingDir, rt)
  {
    var planFile := PlanFile(workingDir, rt);
    var initialised := InitSteps(o, workingDir, rt.terraform);
    if initialised.Stop? {
      return initialised.result;
    }
    var tf := initialised.value;
    var planned := PlanSteps(tf, planFile, workingDir, rt.terraform);
    if planned.Stop? {
      return planned.result;
    }
    var verdict := ValidateSteps(o, planned.value, workingDir, rt);
    if verdict.Some? {
      return verdict.value;
    }
    var applied := rt.terraform.apply(tf, planFile);
    if applied.Fail? {
      return WorkspaceResult(false, StageApplying, workingDir, Some(ApplyFailed + applied.error));
    }
    return WorkspaceResult(true, StageApply, workingDir, None);
  }

  /** Apply differs from Plan only after a validated plan with changes,
      and only then does it run `terraform apply`. */
  lemma ApplyExtendsPlan(o: Orchestrator, workingDir: string, rt: Runtime)
    ensures PlanResult(o, workingDir, rt) != Planned(workingDir) ==>
              ApplyResult(o, workingDir, rt) == PlanResult(o, workingDir, rt)
    ensures PlanResult(o, workingDir, rt) == Planned(workingDir) ==>
              ApplyResult(o, workingDir, rt).stage in {StageApplying, StageApply}
  {
    if Prepared(o, workingDir, rt).Stop? {
      var res := Prepared(o, workingDir, rt).result;
      assert res.success ==> res.error.Some? by {
        var init := InitSteps(o, workingDir, rt.terraform);
        if init.Continue? {
          var planned := PlanSteps(init.value, PlanFile(workingDir, rt), workingDir, rt.terraform);
          if planned.Stop? && planned.result.success {
            assert planned.result == NoChangesResult(workingDir);
          }
        }
      }
    }
  }

  /** A plan is applied only when the plan had changes and every validator
      ran and passed on it; the file applied is the one planned and shown,
      and the apply's outcome decides the result. */
  lemma AppliedOnlyWhenValidated(o: Orchestrator, workingDir: string, rt: Runtime)
    requires ApplyResult(o, workingDir, rt).stage in {StageApplying, StageApply}
    ensures var runner := Runner(workingDir, o.execPath);
            && rt.terraform.plan(runner, PlanFile(workingDir, rt)) == Ok(true)
            && rt.terraform.show(runner, PlanFile(workingDir, rt)).Ok?
            && var plan := rt.terraform.show(runner, PlanFile(workingDir, rt)).value;
               forall i :: 0 <= i < |o.validators| ==>
                 && Validators.ValidateResult(o.validators[i], plan, rt.engine, rt.show).Ok?
                 && Validators.ValidateResult(o.validators[i], plan, rt.engine, rt.show).value.passed
    ensures ApplyResult(o, workingDir, rt).success
            <==> rt.terraform.apply(Runner(workingDir, o.execPath), PlanFile(workingDir, rt)).Pass?
  {
    assert Prepared(o, workingDir, rt).Continue?;
    {
      var runner := Runner(workingDir, o.execPath);
      var plan := rt.terraform.show(runner, PlanFile(workingDir, rt)).value;
      var vs := o.validators;
      var check := CheckOn(plan, rt);
      assert TallyOf(vs, check) == Counted(0);
      forall i | 0 <= i < |vs|
        ensures check(vs[i]).Ok?
      {
        if check(vs[i]).Err? {
          var first := FirstErr(vs, check, i);
          FirstErrorStops(vs, first, check);
        }
      }
      TallyWithoutErrors(vs, check);
    }
  }

  /** The first validator at or before `i` that errs. */
  function FirstErr(vs: seq<Validators.Validator>, check: Check, i: nat): (j: nat)
    requires i < |vs| && check(vs[i]).Err?
    ensures j <= i && check(vs[j]).Err?
    ensures forall k :: 0 <= k < j ==> check(vs[k]).Ok?
  {
    if i == 0 || forall k :: 0 <= k < i ==> check(vs[k]).Ok? then i
    else
      var k :| 0 <= k < i && check(vs[k]).Err?;
      FirstErr(vs, check, k)
  }

  // ------------------------------------------------------------------- Run

  const UnsupportedMode: string := "unsupported plugin mode: "

  /** What `Run` returns: the plugin's mode picks Plan or Apply. */
  function RunResult(o: Orchestrator, workingDir: string, rt: Runtime): (r: WorkspaceResult)
    ensures r.workingDir == workingDir
    ensures o.plugin.mode !in Config.Modes ==>
              r == WorkspaceResult(false, StageValidation, workingDir, Some(UnsupportedMode + o.plugin.mode))
  {
    if o.plugin.mode == Config.ModePlan then PlanResult(o, workingDir, rt)
    else if o.plugin.mode == Config.ModeApply then ApplyResult(o, workingDir, rt)
    else WorkspaceResult(false, StageValidation, workingDir, Some(UnsupportedMode + o.plugin.mode))
  }

  /** `(*orchestratorConfig).Run`. */
  method Run(o: Orchestrator, workingDir: string, rt: Runtime) returns (r: WorkspaceResult)
    ensures r == RunResult(o, workingDir, rt)
  {
    if o.plugin.mode == Config.ModePlan {
      r := Plan(o, workingDir, rt);
    } else if o.plugin.mode == Config.ModeApply {
      r := Apply(o, workingDir, rt);
    } else {
      r := WorkspaceResult(false, StageValidation, workingDir, Some(UnsupportedMode + o.plugin.mode));
    }
  }

  /** A successful run ends at one of three points: a validated plan, a plan
      without changes, or an applied plan; a plan-mode run never applies. */
  lemma SuccessfulRunStages(o: Orchestrator, workingDir: string, rt: Runtime)
    requires RunResult(o, workingDir, rt).success
    ensures var r := RunResult(o, workingDir, rt);
            r == Planned(workingDir) || r == NoChangesResult(workingDir)
            || (o.plugin.mode == Config.ModeApply && r == WorkspaceResult(true, StageApply, workingDir, None))
  {
    if o.plugin.mode == Config.ModeApply {
      ApplyExtendsPlan(o, workingDir, rt);
    }
  }
}
