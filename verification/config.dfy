/** Loading the plugin's configuration (internal/config: plugin.go,
    parse.go, initialize.go).

    The configuration arrives as JSON in an environment variable: a list of
    objects, each mapping a plugin reference to that plugin's settings.
    Loading runs four stages: decode the list, find this plugin's entry,
    build the `Plugin` (environment first, then the JSON on top), and
    validate it. JSON decoding, URL parsing, integer parsing, the file
    system and the validator's error text are supplied by a `Host`. */
module Config {
  import opened Wrappers
  import opened Json
  import opened Strings
  import opened Common
  import opened WorkingDir
  import Terraform
  import Outputs
  import Validators

  // ---------------------------------------------------------------- plugin.go

  /** `Mode` values. */
  const ModePlan: string := "plan"
  const ModeApply: string := "apply"
  const Modes: set<string> := {ModePlan, ModeApply}

  /** There are exactly two modes. */
  lemma TwoModes()
    ensures |Modes| == 2
  {
    assert Modes == {ModePlan} + {ModeApply};
  }

  /** `Plugin`. The embedded `Outputs` and `Validations` contribute the
      top-level keys "outputs" and "validations". */
  datatype Plugin = Plugin(
    mode: string,
    working: Option<Working>,
    terraform: Option<Terraform.Options>,
    outputs: Outputs.Outputs,
    validations: Validators.Validations)

  /** The zero `Plugin`. */
  const EmptyPlugin: Plugin := Plugin("", None, None, Outputs.Outputs([]), Validators.Validations([]))

  /** The validation tags reachable from `Plugin`: a mode that is "plan" or
      "apply", and the tags of the working and Terraform options when they
      are set. The output and validation lists are not descended into. */
  predicate PluginValid(p: Plugin, fs: FileSystem) {
    && p.mode in Modes
    && (p.working.Some? ==> WorkingValid(p.working.value, fs))
    && (p.terraform.Some? ==> Terraform.OptionsValid(p.terraform.value, fs))
  }

  /** A plugin with only a mode is valid exactly when the mode is "plan" or
      "apply". */
  lemma ModeAloneDecides(mode: string, fs: FileSystem)
    ensures PluginValid(EmptyPlugin.(mode := mode), fs) <==> mode == ModePlan || mode == ModeApply
  {
  }

  // ---------------------------------------------------------------- parse.go

  /** The reference `getPluginName` parses: a scheme-less "github.com/"
      reference gets "https://" in front. */
  function PluginReference(s: string): string {
    if HasPrefix(s, "github.com/") && !Contains(s, "://") then "https://" + s else s
  }

  /** `getPluginName`: the last segment of the reference's URL path (which
      excludes the host and the "#version" fragment); a reference that does
      not parse as a URL is returned unchanged. `urlPath` is `url.Parse`
      followed by `.Path`. */
  function GetPluginName(s: string, urlPath: string -> Option<string>): (name: string)
    ensures urlPath(PluginReference(s)).None? ==> name == s
    ensures urlPath(PluginReference(s)).Some? ==>
              var path := urlPath(PluginReference(s)).value;
              && '/' !in name && |name| <= |path| && path[|path| - |name|..] == name
              && (|name| < |path| ==> path[|path| - |name| - 1] == '/')
  {
    match urlPath(PluginReference(s))
    case None => s
    case Some(p) => AfterLastSlash(p)
  }

  /** The plugin references the Buildkite documentation uses: with or
      without the scheme, and with or without a version fragment (which the
      URL parser leaves out of the path), they name the same plugin. */
  lemma GithubReferenceNames(rest: string, org: string, name: string, urlPath: string -> Option<string>)
    requires ':' !in rest && '/' !in name
    requires urlPath("https://github.com/" + rest) == Some("/" + org + "/" + name)
    ensures GetPluginName("github.com/" + rest, urlPath) == name
    ensures GetPluginName("https://github.com/" + rest, urlPath) == name
  {
    var host := "github.com/";
    assert (host + rest)[..|host|] == host;
    NotContainsWithoutFirstChar(host + rest, "://");
    var withScheme := "https://github.com/" + rest;
    assert "https://" + (host + rest) == withScheme;
    assert PluginReference(host + rest) == withScheme;
    assert !HasPrefix(withScheme, host) by { assert withScheme[0] == 'h'; }
    assert PluginReference(withScheme) == withScheme;
    AfterLastSlashOf("/" + org, name);
    assert "/" + org + "/" + name == ("/" + org) + "/" + name;
  }

  /** A bare plugin name names itself, and a reference that is not a URL is
      kept as it is. */
  lemma PlainReferenceNames(name: string, urlPath: string -> Option<string>)
    requires '/' !in name && !HasPrefix(name, "github.com/")
    requires urlPath(name) == Some(name) && urlPath("://invalid-url").None?
    ensures GetPluginName(name, urlPath) == name
    ensures GetPluginName("://invalid-url", urlPath) == "://invalid-url"
  {
    BareNameKept(name, urlPath);
    UnparsableKept("://invalid-url", urlPath);
  }

  lemma BareNameKept(name: string, urlPath: string -> Option<string>)
    requires '/' !in name && !HasPrefix(name, "github.com/")
    requires urlPath(name) == Some(name)
    ensures GetPluginName(name, urlPath) == name
  {
    assert PluginReference(name) == name;
    AfterLastSlashNone(name);
  }

  lemma UnparsableKept(ref: string, urlPath: string -> Option<string>)
    requires |ref| > 0 && ref[0] != 'g' && urlPath(ref).None?
    ensures GetPluginName(ref, urlPath) == ref
  {
    assert !HasPrefix(ref, "github.com/") by {
      assert "github.com/"[0] == 'g';
    }
    assert PluginReference(ref) == ref;
  }

  /** One object of the configuration list, keys in document order. */
  type RawEntry = seq<(string, Json)>

  const ParseConfigFailed: string := "failed to parse plugin configuration"
  const PluginNotFound: string := "could not initialize plugin"
  const ParseEnvFailed: string := "failed to parse environment variables"
  const ValidateFailed: string := "failed to validate config: "

  /** What loading consults outside the model. `decodeList` and
      `decodePatch` are `json.Unmarshal` into the list and into a `Plugin`
      (`None` on any JSON error); `urlPath` is `url.Parse` and `.Path`;
      `atoi` is the environment parser's integer conversion; `describe` is
      the validator's error text for an invalid plugin. */
  datatype Host = Host(
    env: Env,
    decodeList: string -> Option<seq<RawEntry>>,
    decodePatch: Json -> Option<PluginPatch>,
    urlPath: string -> Option<string>,
    atoi: string -> Option<int>,
    fs: FileSystem,
    describe: Plugin -> string)

  /** `unmarshalPlugins`: any JSON error becomes one fixed message. */
  function UnmarshalPlugins(data: string, decodeList: string -> Option<seq<RawEntry>>): (r: Result<seq<RawEntry>>)
    ensures r.Err? <==> decodeList(data).None?
    ensures r.Err? ==> r.msg == ParseConfigFailed
    ensures r.Ok? ==> r.value == decodeList(data).value
  {
    match decodeList(data)
    case None => Err(ParseConfigFailed)
    case Some(entries) => Ok(entries)
  }

  /** Every key/value pair of the list, entry by entry. */
  function Flatten(data: seq<RawEntry>): seq<(string, Json)> {
    if data == [] then [] else Flatten(data[..|data| - 1]) + data[|data| - 1]
  }

  lemma {:induction false} FlattenAppend(a: seq<RawEntry>, b: seq<RawEntry>)
    ensures Flatten(a + b) == Flatten(a) + Flatten(b)
    decreases |b|
  {
    if b == [] {
      assert a + b == a;
    } else {
      var init := b[..|b| - 1];
      var last := b[|b| - 1];
      assert Flatten(a + b) == Flatten(a + init) + last by {
        assert (a + b)[..|a + b| - 1] == a + init;
        assert (a + b)[|a + b| - 1] == last;
      }
      FlattenAppend(a, init);
      assert Flatten(a) + Flatten(init) + last == Flatten(a) + (Flatten(init) + last);
    }
  }

  /** A key names the plugin when the plugin's name is a prefix of the
      key's plugin name. */
  predicate KeyMatches(key: string, pluginName: string, urlPath: string -> Option<string>) {
    HasPrefix(GetPluginName(key, urlPath), pluginName)
  }

  /** The value of the first key that `matches` accepts. */
  function FirstMatch(pairs: seq<(string, Json)>, matches: string -> bool): Option<Json> {
    if pairs == [] then None
    else if matches(pairs[0].0) then Some(pairs[0].1)
    else FirstMatch(pairs[1..], matches)
  }

  lemma {:induction false} FirstMatchAppend(a: seq<(string, Json)>, b: seq<(string, Json)>,
                                            matches: string -> bool)
    ensures FirstMatch(a + b, matches)
            == if FirstMatch(a, matches).Some? then FirstMatch(a, matches) else FirstMatch(b, matches)
  {
    if a == [] {
      assert a + b == b;
    } else {
      assert (a + b)[0] == a[0] && (a + b)[1..] == a[1..] + b;
      FirstMatchAppend(a[1..], b, matches);
    }
  }

  /** `FirstMatch` finds a value exactly when some key matches, and then it
      is the value of the earliest matching key. */
  lemma {:induction false} FirstMatchIsFirst(pairs: seq<(string, Json)>, matches: string -> bool)
    ensures FirstMatch(pairs, matches).None? <==> forall i :: 0 <= i < |pairs| ==> !matches(pairs[i].0)
    ensures FirstMatch(pairs, matches).Some? ==>
              exists i :: 0 <= i < |pairs| && matches(pairs[i].0)
                          && FirstMatch(pairs, matches) == Some(pairs[i].1)
                          && forall j :: 0 <= j < i ==> !matches(pairs[j].0)
  {
    if pairs != [] && !matches(pairs[0].0) {
      var rest := pairs[1..];
      FirstMatchIsFirst(rest, matches);
      if FirstMatch(rest, matches).Some? {
        var i :| 0 <= i < |rest| && matches(rest[i].0)
                 && FirstMatch(rest, matches) == Some(rest[i].1)
                 && forall j :: 0 <= j < i ==> !matches(rest[j].0);
        assert pairs[i + 1] == rest[i];
        forall j | 0 <= j < i + 1
          ensures !matches(pairs[j].0)
        {
          if j > 0 { assert pairs[j] == rest[j - 1]; }
        }
      } else {
        forall i | 0 <= i < |pairs|
          ensures !matches(pairs[i].0)
        {
          if i > 0 { assert pairs[i] == rest[i - 1]; }
        }
      }
    }
  }

  /** The key test of `findRawPlugin`. */
  function PluginKey(pluginName: string, urlPath: string -> Option<string>): string -> bool {
    key => KeyMatches(key, pluginName, urlPath)
  }

  /** The entry `findRawPlugin` finds. */
  function RawPluginFor(data: seq<RawEntry>, pluginName: string, urlPath: string -> Option<string>): Result<Json> {
    match FirstMatch(Flatten(data), PluginKey(pluginName, urlPath))
    case Some(raw) => Ok(raw)
    case None => Err(PluginNotFound)
  }

  /** `findRawPlugin`: scan the entries in order, and each entry's keys in
      order, for the first key whose plugin name starts with `pluginName`. */
  method FindRawPlugin(data: seq<RawEntry>, pluginName: string, urlPath: string -> Option<string>)
    returns (r: Result<Json>)
    ensures r == RawPluginFor(data, pluginName, urlPath)
  {
    var matches := PluginKey(pluginName, urlPath);
    var i := 0;
    while i < |data|
      invariant 0 <= i <= |data|
      invariant FirstMatch(Flatten(data[..i]), matches).None?
    {
      var found := FindInEntry(data[i], pluginName, urlPath);
      if found.Some? {
        FoundInEntry(data, i, matches);
        return Ok(found.value);
      }
      FlattenStep(data, i);
      FirstMatchAppend(Flatten(data[..i]), data[i], matches);
      i := i + 1;
    }
    assert data[..i] == data;
    return Err(PluginNotFound);
  }

  /** The inner loop of `findRawPlugin`: one entry's keys in order, stopping
      at the first whose plugin name starts with `pluginName`. */
  method FindInEntry(entry: RawEntry, pluginName: string, urlPath: string -> Option<string>)
    returns (found: Option<Json>)
    ensures found == FirstMatch(entry, PluginKey(pluginName, urlPath))
  {
    var j := 0;
    while j < |entry|
      invariant 0 <= j <= |entry|
      invariant FirstMatch(entry[j..], PluginKey(pluginName, urlPath)) == FirstMatch(entry, PluginKey(pluginName, urlPath))
    {
      if HasPrefix(GetPluginName(entry[j].0, urlPath), pluginName) {
        return Some(entry[j].1);
      }
      assert entry[j..][1..] == entry[j + 1..];
      j := j + 1;
    }
    return None;
  }

  lemma FlattenStep(data: seq<RawEntry>, i: nat)
    requires i < |data|
    ensures Flatten(data[..i + 1]) == Flatten(data[..i]) + data[i]
  {
    assert data[..i + 1][..i] == data[..i];
  }

  /** A match in entry `i`, after no match in the entries before it, is the
      first match of the whole list. */
  lemma FoundInEntry(data: seq<RawEntry>, i: nat, matches: string -> bool)
    requires i < |data|
    requires FirstMatch(Flatten(data[..i]), matches).None?
    requires FirstMatch(data[i], matches).Some?
    ensures FirstMatch(Flatten(data), matches) == FirstMatch(data[i], matches)
  {
    assert data == data[..i + 1] + data[i + 1..];
    FlattenAppend(data[..i + 1], data[i + 1..]);
    FlattenStep(data, i);
    FirstMatchAppend(Flatten(data[..i]), data[i], matches);
    FirstMatchAppend(Flatten(data[..i + 1]), Flatten(data[i + 1..]), matches);
  }

  /** A JSON field as `json.Unmarshal` sees it: not in the document, an
      explicit null, or a value. */
  datatype Field<T> = Absent | Null | Value(v: T)

  /** The JSON document of a plugin, field by field. */
  datatype ParallelismPatch = ParallelismPatch(parallelJob: Field<int>, parallelJobCount: Field<int>)
  datatype DirectoriesPatch = DirectoriesPatch(
    parentDirectory: Field<string>, artifact: Field<string>, nameRegex: Field<string>)
  datatype WorkingPatch = WorkingPatch(
    directory: Field<string>, directories: Field<DirectoriesPatch>, parallelism: Field<ParallelismPatch>)
  datatype InitOptionsPatch = InitOptionsPatch(pluginDir: Field<string>, get: Field<bool>)
  datatype TerraformPatch = TerraformPatch(execPath: Field<string>, initOptions: Field<InitOptionsPatch>)
  datatype PluginPatch = PluginPatch(
    mode: Field<string>,
    working: Field<WorkingPatch>,
    terraform: Field<TerraformPatch>,
    outputs: Field<seq<Outputs.Output>>,
    validations: Field<seq<Validators.Validation>>)

  /** Decoding into a pointer to a scalar: null clears it, a value
      replaces it. */
  function SetPointer<T>(cur: Option<T>, f: Field<T>): Option<T> {
    match f
    case Absent => cur
    case Null => None
    case Value(v) => Some(v)
  }

  /** Decoding into a string: null leaves it as it was. */
  function SetString(cur: string, f: Field<string>): string {
    if f.Value? then f.v else cur
  }

  /** Decoding into a slice: null empties it, a value replaces it whole. */
  function SetSlice<T>(cur: seq<T>, f: Field<seq<T>>): seq<T> {
    match f
    case Absent => cur
    case Null => []
    case Value(v) => v
  }

  function MergeParallelism(p: Parallelism, patch: ParallelismPatch): Parallelism {
    Parallelism(SetPointer(p.parallelJob, patch.parallelJob), SetPointer(p.parallelJobCount, patch.parallelJobCount))
  }

  function MergeDirectories(d: Directories, patch: DirectoriesPatch): Directories {
    Directories(SetString(d.parentDirectory, patch.parentDirectory),
                SetString(d.artifact, patch.artifact),
                SetString(d.nameRegex, patch.nameRegex))
  }

  /** Decoding an object into a struct pointer: null clears it; an object
      decodes into the struct already there (a zero one if there is none). */
  function MergeWorking(w: Working, patch: WorkingPatch): Working {
    Working(
      SetPointer(w.directory, patch.directory),
      match patch.directories
      case Absent => w.directories
      case Null => None
      case Value(dp) => Some(MergeDirectories(w.directories.GetOr(Directories("", "", "")), dp)),
      match patch.parallelism
      case Absent => w.parallelism
      case Null => None
      case Value(pp) => Some(MergeParallelism(w.parallelism.GetOr(Parallelism(None, None)), pp)))
  }

  function MergeInitOptions(o: Terraform.InitOptions, patch: InitOptionsPatch): Terraform.InitOptions {
    Terraform.InitOptions(SetPointer(o.pluginDir, patch.pluginDir), SetPointer(o.get, patch.get))
  }

  function MergeTerraform(o: Terraform.Options, patch: TerraformPatch): Terraform.Options {
    Terraform.Options(
      SetPointer(o.execPath, patch.execPath),
      match patch.initOptions
      case Absent => o.initOptions
      case Null => None
      case Value(ip) => Some(MergeInitOptions(o.initOptions.GetOr(Terraform.InitOptions(None, None)), ip)))
  }

  /** `json.Unmarshal` of a plugin's settings onto a `Plugin` that already
      holds values. */
  function Overlay(p: Plugin, patch: PluginPatch): Plugin {
    Plugin(
      SetString(p.mode, patch.mode),
      match patch.working
      case Absent => p.working
      case Null => None
      case Value(wp) => Some(MergeWorking(p.working.GetOr(Working(None, None, None)), wp)),
      match patch.terraform
      case Absent => p.terraform
      case Null => None
      case Value(tp) => Some(MergeTerraform(p.terraform.GetOr(Terraform.Options(None, None)), tp)),
      Outputs.Outputs(SetSlice(p.outputs.outputs, patch.outputs)),
      Validators.Validations(SetSlice(p.validations.validations, patch.validations)))
  }

  /** Overlaying keeps what the document does not mention and takes what it
      does: the parallel-job fields set from the environment survive a
      document without them, and a document value wins over them. */
  lemma OverlayKeepsAndOverrides(p: Plugin, patch: PluginPatch)
    ensures patch.working.Absent? ==> Overlay(p, patch).working == p.working
    ensures patch.mode.Value? ==> Overlay(p, patch).mode == patch.mode.v
    ensures !patch.mode.Value? ==> Overlay(p, patch).mode == p.mode
    ensures patch.working.Value? && patch.working.v.parallelism.Value? && p.working.Some?
            && p.working.value.parallelism.Some? ==>
              var par := Overlay(p, patch).working.value.parallelism.value;
              var pp := patch.working.v.parallelism.v;
              var old_ := p.working.value.parallelism.value;
              && (pp.parallelJob.Absent? ==> par.parallelJob == old_.parallelJob)
              && (pp.parallelJob.Value? ==> par.parallelJob == Some(pp.parallelJob.v))
              && (pp.parallelJobCount.Absent? ==> par.parallelJobCount == old_.parallelJobCount)
              && (pp.parallelJobCount.Value? ==> par.parallelJobCount == Some(pp.parallelJobCount.v))
  {
  }

  /** The `Plugin` `parseRawPlugin` starts from: a working configuration
      holding an empty parallelism exists only when either parallel-job
      variable is non-empty, so that the environment parser has somewhere
      to put them. */
  function PreInit(env: Env): (p: Plugin)
    ensures p.working.Some? <==>
              FetchEnv(env, ParallelJobEnv, "") != "" || FetchEnv(env, ParallelJobCountEnv, "") != ""
    ensures p.working.Some? ==> p.working.value == Working(None, None, Some(Parallelism(None, None)))
    ensures p.(working := None) == EmptyPlugin
  {
    if FetchEnv(env, ParallelJobEnv, "") != "" || FetchEnv(env, ParallelJobCountEnv, "") != "" then
      EmptyPlugin.(working := Some(Working(None, None, Some(Parallelism(None, None)))))
    else EmptyPlugin
  }

  /** One `env`-tagged integer: an unset or empty variable leaves the field
      as it was; otherwise the value must parse. */
  function EnvInt(env: Env, key: string, cur: Option<int>, atoi: string -> Option<int>): Result<Option<int>> {
    var text := FetchEnv(env, key, "");
    if text == "" then Ok(cur)
    else
      match atoi(text)
      case Some(n) => Ok(Some(n))
      case None => Err(ParseEnvFailed)
  }

  /** `env.Parse`: only the parallel-job fields carry `env` tags, and they
      are reached only through an existing working configuration and
      parallelism. */
  function EnvFill(p: Plugin, env: Env, atoi: string -> Option<int>): Result<Plugin> {
    if p.working.Some? && p.working.value.parallelism.Some? then
      var par := p.working.value.parallelism.value;
      var job :- EnvInt(env, ParallelJobEnv, par.parallelJob, atoi);
      var count :- EnvInt(env, ParallelJobCountEnv, par.parallelJobCount, atoi);
      Ok(p.(working := Some(p.working.value.(parallelism := Some(Parallelism(job, count))))))
    else Ok(p)
  }

  /** `parseRawPlugin`: pre-create, fill from the environment, then decode
      the plugin's JSON on top. */
  function ParseRawPlugin(raw: Json, host: Host): Result<Plugin> {
    var filled :- EnvFill(PreInit(host.env), host.env, host.atoi);
    match host.decodePatch(raw)
    case None => Err(ParseConfigFailed)
    case Some(patch) => Ok(Overlay(filled, patch))
  }

  /** The environment's parallel-job values reach the plugin when the
      document leaves parallelism alone, and an environment value that is
      not a number fails the stage. */
  lemma EnvBeforeJson(raw: Json, host: Host, job: int, count: int)
    requires FetchEnv(host.env, ParallelJobEnv, "") == "2" && host.atoi("2") == Some(job)
    requires FetchEnv(host.env, ParallelJobCountEnv, "") == "5" && host.atoi("5") == Some(count)
    requires host.decodePatch(raw) == Some(PluginPatch(Value(ModePlan), Absent, Absent, Absent, Absent))
    ensures ParseRawPlugin(raw, host)
            == Ok(EmptyPlugin.(mode := ModePlan,
                               working := Some(Working(None, None, Some(Parallelism(Some(job), Some(count)))))))
  {
  }

  lemma EnvNotANumber(raw: Json, host: Host)
    requires FetchEnv(host.env, ParallelJobEnv, "") != ""
    requires host.atoi(FetchEnv(host.env, ParallelJobEnv, "")).None?
    ensures ParseRawPlugin(raw, host) == Err(ParseEnvFailed)
  {
  }

  /** `validatePlugin`: a plugin that breaks a tag fails with the
      validator's description under a fixed prefix. */
  function ValidatePlugin(p: Plugin, host: Host): (r: Outcome)
    ensures r.Pass? <==> PluginValid(p, host.fs)
    ensures r.Fail? ==> HasPrefix(r.error, ValidateFailed)
  {
    if PluginValid(p, host.fs) then Pass else Fail(ValidateFailed + host.describe(p))
  }

  // ----------------------------------------------------------- initialize.go

  /** `config`: the variable holding the plugins' JSON. */
  datatype Loader = Loader(pluginsEnv: string)

  const DefaultPluginsEnv: string := "BUILDKITE_PLUGINS"

  /** `NewConfig` with `WithPluginsEnv` options: each option replaces the
      variable name, so the last one wins. */
  method NewConfig(pluginsEnvs: seq<string>) returns (c: Loader)
    ensures pluginsEnvs == [] ==> c.pluginsEnv == DefaultPluginsEnv
    ensures pluginsEnvs != [] ==> c.pluginsEnv == pluginsEnvs[|pluginsEnvs| - 1]
  {
    c := Loader(DefaultPluginsEnv);
    var i := 0;
    while i < |pluginsEnvs|
      invariant 0 <= i <= |pluginsEnvs|
      invariant c.pluginsEnv == if i == 0 then DefaultPluginsEnv else pluginsEnvs[i - 1]
    {
      c := c.(pluginsEnv := pluginsEnvs[i]);
      i := i + 1;
    }
  }

  /** `LoadPlugin`: decode, find, parse, validate; the first stage to fail
      decides the error. */
  function LoadPlugin(c: Loader, pluginName: string, host: Host): (r: Result<Plugin>)
    ensures r.Ok? ==> PluginValid(r.value, host.fs)
  {
    var entries :- UnmarshalPlugins(FetchEnv(host.env, c.pluginsEnv, ""), host.decodeList);
    var raw :- RawPluginFor(entries, pluginName, host.urlPath);
    var plugin :- ParseRawPlugin(raw, host);
    match ValidatePlugin(plugin, host)
    case Fail(e) => Err(e)
    case Pass => Ok(plugin)
  }

  /** A loaded plugin has a known mode, and every path it sets names an
      existing directory or file: a set but empty `directory`, `exec_path`
      or `plugin_dir` never gets through. */
  lemma LoadedPathsExist(c: Loader, pluginName: string, host: Host)
    requires LoadPlugin(c, pluginName, host).Ok?
    ensures var p := LoadPlugin(c, pluginName, host).value;
            && p.mode in Modes
            && (p.working.Some? && p.working.value.directory.Some? ==>
                  var d := p.working.value.directory.value; d != "" && host.fs.isDir(d))
            && (p.terraform.Some? && p.terraform.value.execPath.Some? ==>
                  var e := p.terraform.value.execPath.value; e != "" && host.fs.isFile(e))
            && (p.terraform.Some? && p.terraform.value.initOptions.Some?
                && p.terraform.value.initOptions.value.pluginDir.Some? ==>
                  var d := p.terraform.value.initOptions.value.pluginDir.value; d != "" && host.fs.isDir(d))
  {
    var p := LoadPlugin(c, pluginName, host).value;
    if p.working.Some? {
      WorkingModesExclusive(p.working.value, host.fs);
    }
    if p.terraform.Some? {
      Terraform.SetPathsMustExist(p.terraform.value, host.fs, None);
    }
  }

  /** A plugin that sets `exec_path`, `plugin_dir` or `directory` to ""
      fails validation with the validator's message. */
  lemma EmptyPathsFailValidation(p: Plugin, host: Host)
    requires || (p.terraform.Some? && p.terraform.value.execPath == Some(""))
             || (p.terraform.Some? && p.terraform.value.initOptions.Some?
                 && p.terraform.value.initOptions.value.pluginDir == Some(""))
             || (p.working.Some? && p.working.value.directory == Some(""))
    ensures ValidatePlugin(p, host) == Fail(ValidateFailed + host.describe(p))
  {
  }

  /** Each stage's error is returned as the stage produced it, and a plugin
      is returned only once all four stages pass. */
  lemma LoadPluginStages(c: Loader, pluginName: string, host: Host)
    ensures var listed := UnmarshalPlugins(FetchEnv(host.env, c.pluginsEnv, ""), host.decodeList);
            && (listed.Err? ==> LoadPlugin(c, pluginName, host) == Err(ParseConfigFailed))
            && (listed.Ok? && RawPluginFor(listed.value, pluginName, host.urlPath).Err? ==>
                  LoadPlugin(c, pluginName, host) == Err(PluginNotFound))
            && (listed.Ok? && RawPluginFor(listed.value, pluginName, host.urlPath).Ok? ==>
                  var parsed := ParseRawPlugin(RawPluginFor(listed.value, pluginName, host.urlPath).value, host);
                  && (parsed.Err? ==> LoadPlugin(c, pluginName, host) == Err(parsed.msg))
                  && (parsed.Ok? && !PluginValid(parsed.value, host.fs) ==>
                        LoadPlugin(c, pluginName, host) == Err(ValidateFailed + host.describe(parsed.value)))
                  && (parsed.Ok? && PluginValid(parsed.value, host.fs) ==>
                        LoadPlugin(c, pluginName, host) == Ok(parsed.value)))
  {
  }

  /** An unset variable reads as "", which is not JSON; an empty list has
      no entry for the plugin. */
  lemma LoadPluginNothingConfigured(c: Loader, pluginName: string, host: Host)
    ensures host.env(c.pluginsEnv).None? && host.decodeList("").None? ==>
              LoadPlugin(c, pluginName, host) == Err(ParseConfigFailed)
    ensures host.decodeList(FetchEnv(host.env, c.pluginsEnv, "")) == Some([]) ==>
              LoadPlugin(c, pluginName, host) == Err(PluginNotFound)
  {
  }
}
