/** The outputs package (internal/adapters/outputs): output stages, the
    Buildkite annotation output and the conversion of the configured
    outputs into outputers. */
module Outputs {
  import opened Wrappers
  import opened Json
  import opened BuildkiteAgent

  /** `Stage` values. */
  const PlanFailure: string := "plan_failure"
  const ApplyFailure: string := "apply_failure"
  const ValidationFailure: string := "validation_failure"
  const UnexpectedFailure: string := "unexpected_failure"
  const PlanSuccessNoChanges: string := "plan_success_no_changes"
  const PlanSuccessWithChanges: string := "plan_success_with_changes"
  const ValidationSuccess: string := "validation_success"
  const ApplySuccess: string := "apply_success"

  const FailureStages: set<string> := {PlanFailure, ApplyFailure, ValidationFailure, UnexpectedFailure}
  const SuccessStages: set<string> := {PlanSuccessWithChanges, ValidationSuccess, ApplySuccess}

  /** `Stage.toBuildkiteAnnotationStyle`: failures are errors, successes
      with an effect are successes, and everything else (the no-change plan
      and any unlisted stage) is informational. */
  function AnnotationStyle(stage: string): (style: string)
    ensures style == StyleError <==> stage in FailureStages
    ensures style == StyleSuccess <==> stage in SuccessStages
    ensures style == StyleInfo <==> stage !in FailureStages && stage !in SuccessStages
    ensures style in Styles && style != StyleWarning
  {
    if stage in FailureStages then StyleError
    else if stage in SuccessStages then StyleSuccess
    else StyleInfo
  }

  /** No stage is both a failure and a success. */
  lemma StagesDisjoint()
    ensures FailureStages * SuccessStages == {}
  {
  }

  /** `ComputedVar`. */
  datatype ComputedVar = ComputedVar(name: string, from: string, regex: string)

  /** `BuildkiteAnnotation`. */
  datatype BuildkiteAnnotation = BuildkiteAnnotation(
    template: string, context: string, vars: seq<map<string, string>>, computedVars: seq<ComputedVar>)

  /** `Output`: only the Buildkite annotation exists. */
  datatype Output = Output(buildkiteAnnotation: Option<BuildkiteAnnotation>)

  /** `Outputs`. */
  datatype Outputs = Outputs(outputs: seq<Output>)

  /** `buildkiteAnnotatorConfig`, the only `Outputer`. */
  datatype Annotator = Annotator(agent: Agent, config: Option<BuildkiteAnnotation>)

  /** `WithAgent` and `WithConfig`; `None` stands for nil. */
  datatype AnnotatorOption = WithAgent(a: Option<Agent>) | WithConfig(c: Option<BuildkiteAnnotation>)

  /** What one option does: a nil argument changes nothing. */
  function ApplyAnnotatorOption(an: Annotator, opt: AnnotatorOption): Annotator {
    match opt
    case WithAgent(a) => if a.Some? then an.(agent := a.value) else an
    case WithConfig(c) => if c.Some? then an.(config := c) else an
  }

  function ApplyAnnotatorOptions(an: Annotator, opts: seq<AnnotatorOption>): Annotator {
    if opts == [] then an
    else ApplyAnnotatorOption(ApplyAnnotatorOptions(an, opts[..|opts| - 1]), opts[|opts| - 1])
  }

  /** `NewBuildkiteAnnotator`: the default agent and no configuration, then
      the options in order. */
  method NewBuildkiteAnnotator(defaultAgent: Agent, opts: seq<AnnotatorOption>) returns (an: Annotator)
    ensures an == ApplyAnnotatorOptions(Annotator(defaultAgent, None), opts)
  {
    an := Annotator(defaultAgent, None);
    var i := 0;
    while i < |opts|
      invariant 0 <= i <= |opts|
      invariant an == ApplyAnnotatorOptions(Annotator(defaultAgent, None), opts[..i])
    {
      assert opts[..i + 1][..i] == opts[..i];
      match opts[i] {
        case WithAgent(a) =>
          if a.Some? { an := an.(agent := a.value); }
        case WithConfig(c) =>
          if c.Some? { an := an.(config := c); }
      }
      i := i + 1;
    }
    assert opts[..i] == opts;
  }

  /** Nil options are no-ops: an annotator built only from them has the
      defaults. */
  lemma {:induction false} NilOptionsKeepDefaults(an: Annotator, opts: seq<AnnotatorOption>)
    requires forall i :: 0 <= i < |opts| ==>
               (opts[i].WithAgent? ==> opts[i].a.None?) && (opts[i].WithConfig? ==> opts[i].c.None?)
    ensures ApplyAnnotatorOptions(an, opts) == an
  {
    if opts != [] {
      NilOptionsKeepDefaults(an, opts[..|opts| - 1]);
    }
  }

  const AnnotationFailed: string := "failed to create Buildkite annotation: "

  /** The options `Ouput` annotates with. */
  function OutputOptions(config: BuildkiteAnnotation, stage: string): seq<AnnotateOption> {
    [WithAppend(false), WithStyle(AnnotationStyle(stage)), WithContext(config.context)]
  }

  /** `(*buildkiteAnnotatorConfig).Ouput` (sic): annotate with the
      configured template and context, the stage's style and append off.
      The plan is not used. A missing configuration is dereferenced by the
      source, so it is required here. */
  method Ouput(an: Annotator, stage: string, data: Json, render: (string, Json) -> Result<string>)
    returns (r: Outcome)
    requires an.config.Some?
    ensures var rendered := render(an.config.value.template, data);
            && (rendered.Err? ==> r == Fail(AnnotationFailed + RenderFailed + rendered.msg))
            && (rendered.Ok? ==>
                  var ran := an.agent.command(AgentBinary,
                               ["annotate", rendered.value, "--style", AnnotationStyle(stage),
                                "--context", an.config.value.context]);
                  r == if ran.Err? then Fail(AnnotationFailed + ran.msg) else Pass)
  {
    var config := an.config.value;
    var annotated := AnnotateWithTemplate(an.agent, config.template, data, OutputOptions(config, stage), render);
    if render(config.template, data).Ok? {
      OutputArgs(config, stage, render(config.template, data).value);
    }
    if annotated.Err? {
      return Fail(AnnotationFailed + annotated.msg);
    }
    return Pass;
  }

  /** The annotation `Ouput` makes has exactly the six leading arguments:
      no artifact and no append flag. */
  lemma OutputArgs(config: BuildkiteAnnotation, stage: string, rendered: string)
    ensures AnnotateArgs(ApplyOptions(DefaultSettings, OutputOptions(config, stage) + [WithMessage(rendered)]))
            == ["annotate", rendered, "--style", AnnotationStyle(stage), "--context", config.context]
  {
    var opts := OutputOptions(config, stage) + [WithMessage(rendered)];
    assert opts[..3] == OutputOptions(config, stage);
    assert opts[..3][..2] == [WithAppend(false), WithStyle(AnnotationStyle(stage))];
    assert opts[..3][..2][..1] == [WithAppend(false)] && opts[..3][..2][..1][..0] == [];
    assert ApplyOptions(DefaultSettings, opts[..3][..2][..1][..0]) == DefaultSettings;
    assert ApplyOptions(DefaultSettings, opts[..3][..2][..1]) == DefaultSettings;
    assert ApplyOptions(DefaultSettings, opts[..3][..2]) == DefaultSettings.(style := AnnotationStyle(stage));
    assert ApplyOptions(DefaultSettings, opts[..3])
           == AnnotateSettings("", AnnotationStyle(stage), config.context, "", false);
    assert ApplyOptions(DefaultSettings, opts)
           == AnnotateSettings(rendered, AnnotationStyle(stage), config.context, "", false);
  }

  /** `%v` of an `Output` whose annotation is nil prints its only field. */
  const UnknownOutputType: string := "unknown output type: {<nil>}"

  /** The annotators `ToOutputers` builds: one per entry with the default
      agent and that entry's configuration, unless an entry has none. */
  function OutputersOf(o: Outputs, defaultAgent: Agent): Result<seq<Annotator>> {
    if exists i :: 0 <= i < |o.outputs| && o.outputs[i].buildkiteAnnotation.None? then Err(UnknownOutputType)
    else Ok(seq(|o.outputs|, i requires 0 <= i < |o.outputs| => Annotator(defaultAgent, o.outputs[i].buildkiteAnnotation)))
  }

  /** `(Outputs).ToOutputers`: one annotator per entry, carrying that
      entry's configuration and the default agent; the first entry without
      an annotation stops the conversion with an error. */
  method ToOutputers(o: Outputs, defaultAgent: Agent) returns (r: Result<seq<Annotator>>)
    ensures r == OutputersOf(o, defaultAgent)
    ensures r.Err? <==> exists i :: 0 <= i < |o.outputs| && o.outputs[i].buildkiteAnnotation.None?
    ensures r.Err? ==> r.msg == UnknownOutputType
    ensures r.Ok? ==> |r.value| == |o.outputs|
    ensures r.Ok? ==> forall i :: 0 <= i < |r.value| ==>
              r.value[i] == Annotator(defaultAgent, o.outputs[i].buildkiteAnnotation)
  {
    var outs := o.outputs;
    if |outs| == 0 {
      assert |OutputersOf(o, defaultAgent).value| == 0;
      return Ok([]);
    }
    var result: seq<Annotator> := [];
    var i := 0;
    while i < |outs|
      invariant 0 <= i <= |outs|
      invariant |result| == i
      invariant forall k :: 0 <= k < i ==> outs[k].buildkiteAnnotation.Some?
      invariant forall k :: 0 <= k < i ==> result[k] == Annotator(defaultAgent, outs[k].buildkiteAnnotation)
    {
      if outs[i].buildkiteAnnotation.None? {
        return Err(UnknownOutputType);
      }
      var opts := [WithConfig(outs[i].buildkiteAnnotation)];
      var annotator := NewBuildkiteAnnotator(defaultAgent, opts);
      assert opts[..0] == [];
      result := result + [annotator];
      i := i + 1;
    }
    assert !exists k :: 0 <= k < |outs| && outs[k].buildkiteAnnotation.None?;
    var expected := OutputersOf(o, defaultAgent);
    assert expected.Ok? && |expected.value| == |result|;
    assert forall k :: 0 <= k < |result| ==> expected.value[k] == result[k];
    assert expected.value == result;
    return Ok(result);
  }
}
