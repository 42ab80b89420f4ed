/** The plugin schema generator (pkg/schema/schema): check the plugin's
    properties and the Go type of its configuration, then reflect that type
    into a JSON schema. Go's reflection and `encoding/json` are parameters
    of the model: only the type's kind and its `%T` name are seen here. */
module Schema {
  import opened Wrappers
  import opened Json

  /** The Go type of a value, as far as the generator inspects it. */
  datatype GoType =
    | Struct(name: string)
    | Pointer(elem: GoType)
    | Other(name: string)

  /** `%T` of a value of this type. */
  function TypeName(t: GoType): string {
    match t
    case Struct(name) => name
    case Pointer(elem) => "*" + TypeName(elem)
    case Other(name) => name
  }

  /** The `any` the generator is given: nil, or a value of some type (a
      typed nil pointer is a value of pointer type). */
  datatype Input = NilInput | Value(t: GoType)

  /** `PluginProperties`. */
  datatype PluginProperties = PluginProperties(
    name: string,
    description: string,
    author: string,
    requirements: seq<string>)

  /** `config`: the properties (nil or not), the schema value and the
      caller's path. */
  datatype Config = Config(properties: Option<PluginProperties>, schema: Input, caller: string)

  /** `PluginSchema`. */
  datatype PluginSchema = PluginSchema(
    name: string,
    description: string,
    author: string,
    requirements: seq<string>,
    configuration: map<string, Json>)

  const InputNil: string := "input cannot be nil"
  const ExpectedStruct: string := "expected struct, got "
  const PropertiesNil: string := "properties cannot be nil"
  const ValidationHeader: string := "validation errors:"
  const Bullet: string := "\n - "

  /** A struct, or a pointer to one; the pointer is followed once only. */
  predicate IsStructLike(t: GoType) {
    t.Struct? || (t.Pointer? && t.elem.Struct?)
  }

  /** `validateInputSchema`. */
  function ValidateInputSchema(input: Input): (r: Outcome)
    ensures r.Pass? <==> input.Value? && IsStructLike(input.t)
    ensures input.NilInput? ==> r == Fail(InputNil)
    ensures input.Value? && !IsStructLike(input.t) ==> r == Fail(ExpectedStruct + TypeName(input.t))
  {
    match input
    case NilInput => Fail(InputNil)
    case Value(t) =>
      var deref := if t.Pointer? then t.elem else t;
      if !deref.Struct? then Fail(ExpectedStruct + TypeName(t)) else Pass
  }

  /** A pointer to a pointer to a struct is refused, and its `%T` name has
      both stars. */
  lemma DoublePointerRefused(name: string)
    ensures ValidateInputSchema(Value(Pointer(Pointer(Struct(name))))) == Fail(ExpectedStruct + "**" + name)
  {
    assert TypeName(Pointer(Struct(name))) == "*" + name;
    assert TypeName(Pointer(Pointer(Struct(name)))) == "*" + ("*" + name);
    assert "*" + ("*" + name) == "**" + name;
    assert ExpectedStruct + ("**" + name) == ExpectedStruct + "**" + name;
  }

  /** `validateProperties`. */
  function ValidateProperties(properties: Option<PluginProperties>): (r: Outcome)
    ensures r.Pass? <==> properties.Some?
    ensures r.Fail? ==> r.error == PropertiesNil
  {
    if properties.None? then Fail(PropertiesNil) else Pass
  }

  /** The errors `Validate` collects, the schema's first. */
  function ValidationErrors(c: Config): (errs: seq<string>)
    ensures errs == [] <==> ValidateInputSchema(c.schema).Pass? && ValidateProperties(c.properties).Pass?
    ensures |errs| <= 2
  {
    var schemaErr := ValidateInputSchema(c.schema);
    var propertiesErr := ValidateProperties(c.properties);
    (if schemaErr.Fail? then [schemaErr.error] else [])
      + (if propertiesErr.Fail? then [propertiesErr.error] else [])
  }

  /** The errors listed one per line, each after " - ". */
  function Bullets(errs: seq<string>): string {
    if errs == [] then "" else Bullets(errs[..|errs| - 1]) + Bullet + errs[|errs| - 1]
  }

  /** The aggregated error of `Validate`. */
  function Aggregated(errs: seq<string>): (r: Outcome)
    ensures r.Pass? <==> errs == []
  {
    if errs == [] then Pass else Fail(ValidationHeader + Bullets(errs))
  }

  /** Listing one more error appends one line and changes nothing before. */
  lemma {:induction false} BulletsPrefix(errs: seq<string>, more: seq<string>)
    ensures |Bullets(errs)| <= |Bullets(errs + more)|
    ensures Bullets(errs + more)[..|Bullets(errs)|] == Bullets(errs)
  {
    if more != [] {
      var init := errs + more[..|more| - 1];
      assert errs + more == init + [more[|more| - 1]];
      assert (errs + more)[..|errs + more| - 1] == init;
      BulletsPrefix(errs, more[..|more| - 1]);
      assert more[..|more| - 1] + [] == more[..|more| - 1];
    } else {
      assert errs + more == errs;
    }
  }

  /** The aggregated message opens with the header and the first error. */
  lemma FirstErrorFirst(errs: seq<string>)
    requires errs != []
    ensures var first := ValidationHeader + Bullet + errs[0];
            && Aggregated(errs).Fail?
            && |first| <= |Aggregated(errs).error|
            && Aggregated(errs).error[..|first|] == first
  {
    BulletsPrefix([errs[0]], errs[1..]);
    assert [errs[0]] + errs[1..] == errs;
    assert [errs[0]][..0] == [];
    assert Bullets([errs[0]]) == Bullet + errs[0];
  }

  /** `(*config).Validate`: collect both checks' errors and join them under
      one header. */
  method Validate(c: Config) returns (r: Outcome)
    ensures r == Aggregated(ValidationErrors(c))
    ensures r.Pass? <==> ValidateInputSchema(c.schema).Pass? && c.properties.Some?
  {
    var errs := ValidationErrors(c);
    if |errs| == 0 {
      return Pass;
    }
    var msg := JoinErrors(errs);
    return Fail(msg);
  }

  /** The message loop of `Validate`: the header, then one bullet line per
      error, in order. */
  method JoinErrors(errs: seq<string>) returns (msg: string)
    ensures msg == ValidationHeader + Bullets(errs)
  {
    msg := ValidationHeader;
    var i := 0;
    while i < |errs|
      invariant 0 <= i <= |errs|
      invariant msg == ValidationHeader + Bullets(errs[..i])
    {
      assert errs[..i + 1][..i] == errs[..i];
      msg := msg + Bullet + errs[i];
      i := i + 1;
    }
    assert errs[..i] == errs;
  }

  /** With neither a struct nor properties, both errors are reported, the
      schema's first. */
  lemma BothErrorsReported(c: Config)
    requires c.schema.NilInput? && c.properties.None?
    ensures Aggregated(ValidationErrors(c)) == Fail(ValidationHeader + Bullet + InputNil + Bullet + PropertiesNil)
  {
    var errs := ValidationErrors(c);
    assert errs == [InputNil, PropertiesNil];
    assert errs[..1] == [InputNil];
    assert errs[..1][..0] == [];
    assert Bullets(errs[..1]) == Bullet + InputNil;
    assert Bullets(errs) == Bullet + InputNil + Bullet + PropertiesNil;
  }

  /** `ConfigOption`: `WithProperties` and `WithSchema` ignore nil,
      `WithCaller` always sets. */
  datatype ConfigOption =
    | WithProperties(properties: Option<PluginProperties>)
    | WithSchema(schema: Input)
    | WithCaller(caller: string)

  function ApplyOption(c: Config, o: ConfigOption): Config {
    match o
    case WithProperties(p) => if p.Some? then c.(properties := p) else c
    case WithSchema(s) => if s.Value? then c.(schema := s) else c
    case WithCaller(caller) => c.(caller := caller)
  }

  /** The configuration the options build, in order, from the zero one. */
  function Configured(opts: seq<ConfigOption>): Config {
    if opts == [] then Config(None, NilInput, "")
    else ApplyOption(Configured(opts[..|opts| - 1]), opts[|opts| - 1])
  }

  /** `New`. */
  method New(opts: seq<ConfigOption>) returns (c: Config)
    ensures c == Configured(opts)
  {
    c := Config(None, NilInput, "");
    var i := 0;
    while i < |opts|
      invariant 0 <= i <= |opts|
      invariant c == Configured(opts[..i])
    {
      assert opts[..i + 1][..i] == opts[..i];
      c := ApplyOption(c, opts[i]);
      i := i + 1;
    }
    assert opts[..i] == opts;
  }

  /** A nil properties or nil schema option, wherever it stands, leaves
      the configuration as the other options build it. */
  lemma {:induction false} NilOptionIgnored(a: seq<ConfigOption>, o: ConfigOption, b: seq<ConfigOption>)
    requires o == WithProperties(None) || o == WithSchema(NilInput)
    ensures Configured(a + [o] + b) == Configured(a + b)
  {
    if b == [] {
      assert a + [o] + b == a + [o];
      assert (a + [o])[..|a + [o]| - 1] == a;
      assert a + b == a;
    } else {
      var b' := b[..|b| - 1];
      assert (a + [o] + b)[..|a + [o] + b| - 1] == a + [o] + b';
      assert (a + b)[..|a + b| - 1] == a + b';
      NilOptionIgnored(a, o, b');
    }
  }

  /** An empty caller path is still set: the caller option has no nil
      check. */
  lemma CallerAlwaysSet(opts: seq<ConfigOption>, caller: string)
    ensures Configured(opts + [WithCaller(caller)]).caller == caller
    ensures Configured(opts + [WithCaller(caller)]).properties == Configured(opts).properties
  {
    assert (opts + [WithCaller(caller)])[..|opts|] == opts;
  }

  /** The reflection of a Go type into a JSON schema and its round trip
      through `encoding/json`: `marshal` reflects the type (with the
      version cleared) and encodes it, `unmarshal` decodes the text into a
      map. */
  datatype Reflector = Reflector(
    marshal: GoType -> Result<string>,
    unmarshal: string -> Result<map<string, Json>>)

  const MarshalFailed: string := "failed to marshal schema to JSON: "
  const UnmarshalFailed: string := "failed to unmarshal JSON schema: "
  const GenerateFailed: string := "failed to generate configuration schema: "

  /** `GenerateJSONSchema`. */
  function GenerateJSONSchema(input: Input, reflector: Reflector): (r: Result<map<string, Json>>)
    ensures ValidateInputSchema(input).Fail? ==> r == Err(ValidateInputSchema(input).error)
    ensures r.Ok? ==> input.Value? && IsStructLike(input.t)
                      && reflector.marshal(input.t).Ok?
                      && r == reflector.unmarshal(reflector.marshal(input.t).value)
    ensures r.Err? && ValidateInputSchema(input).Pass? ==>
              || (reflector.marshal(input.t).Err? && r.msg == MarshalFailed + reflector.marshal(input.t).msg)
              || (reflector.marshal(input.t).Ok?
                  && var u := reflector.unmarshal(reflector.marshal(input.t).value);
                  u.Err? && r.msg == UnmarshalFailed + u.msg)
  {
    match ValidateInputSchema(input)
    case Fail(e) => Err(e)
    case Pass =>
      match reflector.marshal(input.t)
      case Err(e) => Err(MarshalFailed + e)
      case Ok(text) =>
        match reflector.unmarshal(text)
        case Err(e) => Err(UnmarshalFailed + e)
        case Ok(m) => Ok(m)
  }

  /** What `GeneratePluginSchema` returns. */
  function Generated(c: Config, reflector: Reflector): Result<PluginSchema> {
    match Aggregated(ValidationErrors(c))
    case Fail(e) => Err(e)
    case Pass =>
      match GenerateJSONSchema(c.schema, reflector)
      case Err(e) => Err(GenerateFailed + e)
      case Ok(configuration) =>
        var p := c.properties.value;
        Ok(PluginSchema(p.name, p.description, p.author, p.requirements, configuration))
  }

  /** `(*config).GeneratePluginSchema`: validate, then generate, copying
      the properties into the result. */
  method GeneratePluginSchema(c: Config, reflector: Reflector) returns (r: Result<PluginSchema>)
    ensures r == Generated(c, reflector)
  {
    var valid := Validate(c);
    if valid.Fail? {
      return Err(valid.error);
    }
    var configuration := GenerateJSONSchema(c.schema, reflector);
    if configuration.Err? {
      return Err(GenerateFailed + configuration.msg);
    }
    var p := c.properties.value;
    return Ok(PluginSchema(p.name, p.description, p.author, p.requirements, configuration.value));
  }

  /** A generated schema carries the properties unchanged and the decoded
      reflection of a struct type; a validation failure is reported as it
      is, and the generator's own check of the input never fires after it
      passed, so a later error is an encoding one. */
  lemma GeneratedSchemaContents(c: Config, reflector: Reflector)
    ensures var r := Generated(c, reflector);
            && (r.Ok? ==>
                  && c.properties.Some?
                  && r.value.name == c.properties.value.name
                  && r.value.description == c.properties.value.description
                  && r.value.author == c.properties.value.author
                  && r.value.requirements == c.properties.value.requirements
                  && c.schema.Value? && IsStructLike(c.schema.t)
                  && reflector.marshal(c.schema.t).Ok?
                  && Ok(r.value.configuration) == reflector.unmarshal(reflector.marshal(c.schema.t).value))
            && (ValidationErrors(c) != [] ==> r == Err(Aggregated(ValidationErrors(c)).error))
            && (ValidationErrors(c) == [] && r.Err? ==>
                  || (reflector.marshal(c.schema.t).Err?
                      && r.msg == GenerateFailed + MarshalFailed + reflector.marshal(c.schema.t).msg)
                  || (reflector.marshal(c.schema.t).Ok?
                      && r.msg == GenerateFailed + UnmarshalFailed
                                  + reflector.unmarshal(reflector.marshal(c.schema.t).value).msg))
  {
  }
}
