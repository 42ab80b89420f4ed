/** The plugin initiator (internal/plugin/initiator/init.go): load the
    plugin's configuration and turn it into everything a run needs, the
    outputers, the validators and the working directories. */
module Initiator {
  import opened Wrappers
  import BuildkiteAgent
  import Config
  import Outputs
  import Validators
  import WorkingDir

  /** `ParsedPayload`. */
  datatype ParsedPayload = ParsedPayload(
    plugin: Config.Plugin,
    outputers: seq<Outputs.Annotator>,
    validators: seq<Validators.Validator>,
    workingDirectories: seq<string>)

  /** `initiatorConfig`: the configuration loader it uses. */
  datatype Initiator = Initiator(config: Config.Loader)

  /** `NewInitiator` with `WithConfigInterface` options (`None` stands for
      a nil loader, which an option ignores). */
  method NewInitiator(opts: seq<Option<Config.Loader>>) returns (i: Initiator)
    ensures i.config == LastSet(Config.Loader(Config.DefaultPluginsEnv), opts)
  {
    var loader := Config.NewConfig([]);
    i := Initiator(loader);
    var k := 0;
    while k < |opts|
      invariant 0 <= k <= |opts|
      invariant i.config == LastSet(Config.Loader(Config.DefaultPluginsEnv), opts[..k])
    {
      assert opts[..k + 1][..k] == opts[..k];
      if opts[k].Some? {
        i := i.(config := opts[k].value);
      }
      k := k + 1;
    }
    assert opts[..k] == opts;
  }

  const ConvertOutputsFailed: string := "failed to convert outputs: "
  const ConvertValidationsFailed: string := "failed to convert validations: "
  const ParseDirectoriesFailed: string := "failed to parse working directories: "

  /** `ParsePlugin` reaches `(*Working).Parse` with a configuration on
      which that panics. */
  predicate ParsePanics(i: Initiator, pluginName: string, host: Config.Host, dirHost: WorkingDir.Host,
                        defaultAgent: BuildkiteAgent.Agent)
  {
    var loaded := Config.LoadPlugin(i.config, pluginName, host);
    && loaded.Ok?
    && Outputs.OutputersOf(loaded.value.outputs, defaultAgent).Ok?
    && Validators.ValidatorsOf(loaded.value.validations).Ok?
    && WorkingDir.ParsePanics(loaded.value.working, dirHost)
  }

  /** What `ParsePlugin` returns: the loader's error as it is, or the
      first later stage's error under that stage's prefix, or the payload. */
  function ParseResult(i: Initiator, pluginName: string, host: Config.Host, dirHost: WorkingDir.Host,
                       defaultAgent: BuildkiteAgent.Agent): (r: Result<ParsedPayload>)
    requires !ParsePanics(i, pluginName, host, dirHost, defaultAgent)
    ensures r.Ok? ==> Config.PluginValid(r.value.plugin, host.fs)
  {
    var plugin :- Config.LoadPlugin(i.config, pluginName, host);
    match Outputs.OutputersOf(plugin.outputs, defaultAgent)
    case Err(e) => Err(ConvertOutputsFailed + e)
    case Ok(outputers) =>
      match Validators.ValidatorsOf(plugin.validations)
      case Err(e) => Err(ConvertValidationsFailed + e)
      case Ok(validators) =>
        match WorkingDir.Parse(plugin.working, dirHost)
        case Err(e) => Err(ParseDirectoriesFailed + e)
        case Ok(dirs) => Ok(ParsedPayload(plugin, outputers, validators, dirs))
  }

  /** `(*initiatorConfig).ParsePlugin`: load the plugin, then convert its
      outputs and validations and resolve its working directories, stopping
      at the first error. A configuration on which directory resolution
      panics is excluded. */
  method ParsePlugin(i: Initiator, pluginName: string, host: Config.Host, dirHost: WorkingDir.Host,
                     defaultAgent: BuildkiteAgent.Agent)
    returns (r: Result<ParsedPayload>)
    requires !ParsePanics(i, pluginName, host, dirHost, defaultAgent)
    ensures r == ParseResult(i, pluginName, host, dirHost, defaultAgent)
  {
    var loaded := Config.LoadPlugin(i.config, pluginName, host);
    if loaded.Err? {
      return Err(loaded.msg);
    }
    var plugin := loaded.value;
    var outputers := Outputs.ToOutputers(plugin.outputs, defaultAgent);
    if outputers.Err? {
      return Err(ConvertOutputsFailed + outputers.msg);
    }
    var validators := Validators.ToValidators(plugin.validations);
    if validators.Err? {
      return Err(ConvertValidationsFailed + validators.msg);
    }
    var dirs := WorkingDir.Parse(plugin.working, dirHost);
    if dirs.Err? {
      return Err(ParseDirectoriesFailed + dirs.msg);
    }
    return Ok(ParsedPayload(plugin, outputers.value, validators.value, dirs.value));
  }

  /** A payload pairs every output with an annotator holding its
      configuration and every validation with an OPA adapter, and its
      plugin is valid, so its mode is "plan" or "apply". */
  lemma PayloadMatchesPlugin(i: Initiator, pluginName: string, host: Config.Host, dirHost: WorkingDir.Host,
                             defaultAgent: BuildkiteAgent.Agent)
    requires !ParsePanics(i, pluginName, host, dirHost, defaultAgent)
    requires ParseResult(i, pluginName, host, dirHost, defaultAgent).Ok?
    ensures var p := ParseResult(i, pluginName, host, dirHost, defaultAgent).value;
            && p.plugin.mode in Config.Modes
            && |p.outputers| == |p.plugin.outputs.outputs|
            && (forall k :: 0 <= k < |p.outputers| ==>
                  && p.outputers[k].agent == defaultAgent
                  && p.outputers[k].config == p.plugin.outputs.outputs[k].buildkiteAnnotation
                  && p.outputers[k].config.Some?)
            && |p.validators| == |p.plugin.validations.validations|
            && (forall k :: 0 <= k < |p.validators| ==>
                  p.validators[k].config == p.plugin.validations.validations[k].opa.value)
  {
  }

  /** The loader's error is passed on unchanged; every later error names
      the stage that failed. */
  lemma ErrorsNameTheirStage(i: Initiator, pluginName: string, host: Config.Host, dirHost: WorkingDir.Host,
                             defaultAgent: BuildkiteAgent.Agent)
    requires !ParsePanics(i, pluginName, host, dirHost, defaultAgent)
    ensures var loaded := Config.LoadPlugin(i.config, pluginName, host);
            var r := ParseResult(i, pluginName, host, dirHost, defaultAgent);
            && (loaded.Err? ==> r == Err(loaded.msg))
            && (loaded.Ok? && r.Err? ==>
                  || r.msg == ConvertOutputsFailed + Outputs.UnknownOutputType
                  || r.msg == ConvertValidationsFailed + Validators.UnknownValidationType
                  || (exists e :: r.msg == ParseDirectoriesFailed + e))
  {
  }

  /** A plugin without working-directory settings runs on no directories,
      and that is not an error. */
  lemma NoWorkingNoDirectories(i: Initiator, pluginName: string, host: Config.Host, dirHost: WorkingDir.Host,
                               defaultAgent: BuildkiteAgent.Agent)
    requires Config.LoadPlugin(i.config, pluginName, host).Ok?
    requires Config.LoadPlugin(i.config, pluginName, host).value.working.None?
    requires Outputs.OutputersOf(Config.LoadPlugin(i.config, pluginName, host).value.outputs, defaultAgent).Ok?
    requires Validators.ValidatorsOf(Config.LoadPlugin(i.config, pluginName, host).value.validations).Ok?
    ensures !ParsePanics(i, pluginName, host, dirHost, defaultAgent)
    ensures ParseResult(i, pluginName, host, dirHost, defaultAgent).Ok?
    ensures ParseResult(i, pluginName, host, dirHost, defaultAgent).value.workingDirectories == []
  {
  }
}
