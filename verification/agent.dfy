/** The `buildkite-agent` client (pkg/buildkite/agent): annotation options,
    the argument vector of `buildkite-agent annotate`, annotating with a
    rendered template, and pipeline upload.

    Running a command and rendering a template are outside the model: the
    agent's command function answers with the command's standard output or
    an error, and rendering is a parameter. */
module BuildkiteAgent {
  import opened Wrappers
  import opened Json

  /** `AnnotationStyle` values. */
  const StyleSuccess: string := "success"
  const StyleInfo: string := "info"
  const StyleWarning: string := "warning"
  const StyleError: string := "error"

  const Styles: set<string> := {StyleSuccess, StyleInfo, StyleWarning, StyleError}

  /** The four styles are distinct. */
  lemma FourStyles()
    ensures |Styles| == 4
  {
    assert StyleSuccess != StyleInfo && StyleSuccess != StyleWarning && StyleSuccess != StyleError;
    assert StyleInfo != StyleWarning && StyleInfo != StyleError && StyleWarning != StyleError;
    assert Styles == {StyleSuccess} + {StyleInfo} + {StyleWarning} + {StyleError};
  }

  /** `CommandFn` together with `runCommand`: what running a command with
      its arguments prints, or why it failed. */
  type CommandFn = (string, seq<string>) -> Result<string>

  /** The agent's `config`. */
  datatype Agent = Agent(command: CommandFn)

  /** `WithCommandFn`: `None` stands for a nil function. */
  type ConfigOption = Option<CommandFn>

  /** `NewAgent`: start from the default command function and apply the
      options in order; a nil function leaves the current one, so the last
      function given wins. */
  method NewAgent(default: CommandFn, opts: seq<ConfigOption>) returns (a: Agent)
    ensures a.command == LastSet(default, opts)
  {
    a := Agent(default);
    var i := 0;
    while i < |opts|
      invariant 0 <= i <= |opts|
      invariant a.command == LastSet(default, opts[..i])
    {
      assert opts[..i + 1][..i] == opts[..i];
      if opts[i].Some? {
        a := a.(command := opts[i].value);
      }
      i := i + 1;
    }
    assert opts[..i] == opts;
  }

  /** `annotateConfig` as a value. */
  datatype AnnotateSettings = AnnotateSettings(
    message: string, style: string, context: string, artifact: string, append: bool)

  /** The `With*` annotation options. */
  datatype AnnotateOption =
    | WithMessage(m: string)
    | WithStyle(s: string)
    | WithContext(c: string)
    | WithArtifact(a: string)
    | WithAppend(b: bool)

  /** What one option does to the settings. */
  function ApplyOption(s: AnnotateSettings, opt: AnnotateOption): AnnotateSettings {
    match opt
    case WithMessage(m) => s.(message := m)
    case WithStyle(st) => s.(style := st)
    case WithContext(c) => s.(context := c)
    case WithArtifact(a) => s.(artifact := a)
    case WithAppend(b) => s.(append := b)
  }

  /** The options applied in order. */
  function ApplyOptions(s: AnnotateSettings, opts: seq<AnnotateOption>): AnnotateSettings {
    if opts == [] then s
    else ApplyOption(ApplyOptions(s, opts[..|opts| - 1]), opts[|opts| - 1])
  }

  /** The settings `Annotate` starts from: style "info", everything else
      empty. */
  const DefaultSettings: AnnotateSettings := AnnotateSettings("", StyleInfo, "", "", false)

  /** `annotateConfig`, which each option closure updates in place. */
  class AnnotateConfig {
    var message: string
    var style: string
    var context: string
    var artifact: string
    var append: bool

    function Settings(): AnnotateSettings
      reads this
    {
      AnnotateSettings(message, style, context, artifact, append)
    }

    constructor ()
      ensures Settings() == DefaultSettings
    {
      message := "";
      style := StyleInfo;
      context := "";
      artifact := "";
      append := false;
    }

    /** Applying an option sets its own field and nothing else. */
    method Apply(opt: AnnotateOption)
      modifies this
      ensures opt.WithMessage? ==> message == opt.m
      ensures opt.WithStyle? ==> style == opt.s
      ensures opt.WithContext? ==> context == opt.c
      ensures opt.WithArtifact? ==> artifact == opt.a
      ensures opt.WithAppend? ==> append == opt.b
      ensures !opt.WithMessage? ==> message == old(message)
      ensures !opt.WithStyle? ==> style == old(style)
      ensures !opt.WithContext? ==> context == old(context)
      ensures !opt.WithArtifact? ==> artifact == old(artifact)
      ensures !opt.WithAppend? ==> append == old(append)
      ensures Settings() == ApplyOption(old(Settings()), opt)
    {
      match opt
      case WithMessage(m) => message := m;
      case WithStyle(s) => style := s;
      case WithContext(c) => context := c;
      case WithArtifact(a) => artifact := a;
      case WithAppend(b) => append := b;
    }
  }

  /** The argument vector of `buildkite-agent annotate`. */
  function AnnotateArgs(s: AnnotateSettings): (args: seq<string>)
    ensures |args| == 6 + (if s.artifact != "" then 2 else 0) + (if s.append then 1 else 0)
    ensures args[..6] == ["annotate", s.message, "--style", s.style, "--context", s.context]
    ensures s.artifact != "" ==> args[6..8] == ["--artifact", s.artifact]
    ensures s.append ==> args[|args| - 1] == "--append "
  {
    var base := ["annotate", s.message, "--style", s.style, "--context", s.context];
    var withArtifact := if s.artifact != "" then base + ["--artifact", s.artifact] else base;
    if s.append then withArtifact + ["--append "] else withArtifact
  }

  const AgentBinary: string := "buildkite-agent"

  /** `(*config).Annotate`: apply the options in order to a fresh
      configuration and run `buildkite-agent annotate` with its arguments. */
  method Annotate(agent: Agent, opts: seq<AnnotateOption>) returns (r: Result<string>)
    ensures r == agent.command(AgentBinary, AnnotateArgs(ApplyOptions(DefaultSettings, opts)))
  {
    var config := new AnnotateConfig();
    var i := 0;
    while i < |opts|
      invariant 0 <= i <= |opts|
      invariant config.Settings() == ApplyOptions(DefaultSettings, opts[..i])
    {
      assert opts[..i + 1][..i] == opts[..i];
      config.Apply(opts[i]);
      i := i + 1;
    }
    assert opts[..i] == opts;
    r := agent.command(AgentBinary, AnnotateArgs(config.Settings()));
  }

  /** Options of other kinds leave the message as it was. */
  lemma {:induction false} MessageUnaffected(s: AnnotateSettings, opts: seq<AnnotateOption>)
    requires forall i :: 0 <= i < |opts| ==> !opts[i].WithMessage?
    ensures ApplyOptions(s, opts).message == s.message
  {
    if opts != [] {
      MessageUnaffected(s, opts[..|opts| - 1]);
    }
  }

  /** For any list of options, the message is the text of the last
      `WithMessage` among them, whatever follows it. */
  lemma {:induction false} LastMessageWins(s: AnnotateSettings, opts: seq<AnnotateOption>, i: nat)
    requires i < |opts| && opts[i].WithMessage?
    requires forall j :: i < j < |opts| ==> !opts[j].WithMessage?
    ensures ApplyOptions(s, opts).message == opts[i].m
  {
    if i < |opts| - 1 {
      var init := opts[..|opts| - 1];
      assert init[i] == opts[i];
      forall j | i < j < |init|
        ensures !init[j].WithMessage?
      {
        assert init[j] == opts[j];
      }
      LastMessageWins(s, init, i);
    }
  }

  /** The style of an annotation is "info" unless an option set it. */
  lemma {:induction false} StyleDefaultsToInfo(opts: seq<AnnotateOption>)
    requires forall i :: 0 <= i < |opts| ==> !opts[i].WithStyle?
    ensures ApplyOptions(DefaultSettings, opts).style == StyleInfo
  {
    if opts != [] {
      StyleDefaultsToInfo(opts[..|opts| - 1]);
    }
  }

  /** A later option of the same kind overrides an earlier one. */
  lemma LaterOptionWins(s: AnnotateSettings, opts: seq<AnnotateOption>, m1: string, m2: string)
    ensures ApplyOptions(s, opts + [WithMessage(m1), WithMessage(m2)]).message == m2
  {
    var all := opts + [WithMessage(m1), WithMessage(m2)];
    assert all[..|all| - 1] == opts + [WithMessage(m1)];
  }

  const RenderFailed: string := "failed to render template: "

  /** `AnnotateWithTemplate`: render the template; on success annotate with
      the caller's options followed by the rendered message. */
  method AnnotateWithTemplate(agent: Agent, templatePath: string, data: Json, opts: seq<AnnotateOption>,
                              render: (string, Json) -> Result<string>)
    returns (r: Result<string>)
    ensures render(templatePath, data).Err? ==> r == Err(RenderFailed + render(templatePath, data).msg)
    ensures render(templatePath, data).Ok? ==>
              r == agent.command(AgentBinary,
                                 AnnotateArgs(ApplyOptions(DefaultSettings,
                                                           opts + [WithMessage(render(templatePath, data).value)])))
  {
    var rendered := render(templatePath, data);
    if rendered.Err? {
      return Err(RenderFailed + rendered.msg);
    }
    r := Annotate(agent, opts + [WithMessage(rendered.value)]);
  }

  /** The rendered message always reaches the command line, whatever
      message the caller's options carried. */
  lemma RenderedMessageWins(s: AnnotateSettings, opts: seq<AnnotateOption>, rendered: string)
    ensures AnnotateArgs(ApplyOptions(s, opts + [WithMessage(rendered)]))[1] == rendered
  {
    var all := opts + [WithMessage(rendered)];
    assert all[..|all| - 1] == opts;
  }

  /** `UploadPipeline`: `buildkite-agent pipeline upload <pipeline>`. */
  function UploadPipeline(agent: Agent, pipeline: string): Result<string> {
    agent.command(AgentBinary, UploadArgs(pipeline))
  }

  function UploadArgs(pipeline: string): seq<string> {
    ["pipeline", "upload", pipeline]
  }

  /** The pipeline is passed as one argument, unsplit, and an upload
      command line can never be taken for an annotation's. */
  lemma UploadNeverAnnotates(pipeline: string, s: AnnotateSettings)
    ensures |UploadArgs(pipeline)| == 3 && UploadArgs(pipeline)[2] == pipeline
    ensures UploadArgs(pipeline) != AnnotateArgs(s)
  {
    assert UploadArgs(pipeline)[0] != AnnotateArgs(s)[0];
  }

  /** Example: an annotation with an artifact and append; the artifact pair follows
      the context, and "--append " comes last. */
  lemma AnnotateArgsExample()
    ensures AnnotateArgs(ApplyOptions(DefaultSettings,
                                      [WithMessage("hi"), WithArtifact("plan.txt"), WithAppend(true)]))
            == ["annotate", "hi", "--style", "info", "--context", "", "--artifact", "plan.txt", "--append "]
  {
    var opts := [WithMessage("hi"), WithArtifact("plan.txt"), WithAppend(true)];
    assert opts[..2] == [WithMessage("hi"), WithArtifact("plan.txt")];
    assert opts[..2][..1] == [WithMessage("hi")] && opts[..2][..1][..0] == [];
    assert ApplyOptions(DefaultSettings, opts[..2][..1][..0]) == DefaultSettings;
    var s1 := ApplyOptions(DefaultSettings, opts[..2][..1]);
    assert s1 == AnnotateSettings("hi", StyleInfo, "", "", false);
    var s2 := ApplyOptions(DefaultSettings, opts[..2]);
    assert s2 == AnnotateSettings("hi", StyleInfo, "", "plan.txt", false);
    assert ApplyOptions(DefaultSettings, opts) == AnnotateSettings("hi", StyleInfo, "", "plan.txt", true);
  }
}
