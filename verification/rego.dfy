/** The OPA policy evaluator (internal/adapters/validators/opa/rego.go).

    OPA itself (loading the bundle, `PrepareForEval`, `Eval`) and gjson's
    path lookup are outside the model: an `Engine` supplies their answers.
    What the model keeps is how the evaluator turns OPA's result set into a
    flat list of violations. */
module Rego {
  import opened Wrappers
  import opened Json

  /** An expression value as OPA hands it over: nil, a value `json.Marshal`
      can encode, or one it rejects (with the marshaller's error text). */
  datatype ExprValue = NilValue | JsonValue(value: Json) | Unencodable(reason: string)

  /** One element of OPA's result set, with its expressions in order. */
  datatype EvalResult = EvalResult(expressions: seq<ExprValue>)

  /** What OPA and gjson answer: preparing the query from the bundle, running
      the prepared query on an input, and looking a gjson path up in a value
      (`None` when the path does not exist). */
  datatype Engine = Engine(
    prepare: (string, string) -> Outcome,
    eval: (string, string, Json) -> Result<seq<EvalResult>>,
    lookup: (Json, string) -> Option<Json>)

  /** `regoEvaluator`: the bundle and query it loads and the gjson path that
      filters each expression value. */
  datatype Evaluator = Evaluator(bundle: string, query: string, condition: string)

  /** `NewRego`. */
  function NewRego(bundle: string, query: string, condition: string): (e: Evaluator)
    ensures e.bundle == bundle && e.query == query && e.condition == condition
  {
    Evaluator(bundle, query, condition)
  }

  /** The elements of a value: an array gives its elements, anything else
      gives itself (`extractAllValues` and `extractValues`). */
  function Elements(v: Json): seq<Json> {
    if v.JArray? then v.items else [v]
  }

  /** `extractAllValues` and `extractValues` (identical in the source): walk
      an array's elements appending each, or append the single value. */
  method ExtractValues(v: Json) returns (values: seq<Json>)
    ensures values == Elements(v)
    ensures v.JArray? ==> |values| == |v.items|
    ensures !v.JArray? ==> values == [v]
  {
    values := [];
    if v.JArray? {
      var i := 0;
      while i < |v.items|
        invariant 0 <= i <= |v.items|
        invariant values == v.items[..i]
      {
        values := values + [v.items[i]];
        i := i + 1;
      }
    } else {
      values := values + [v];
    }
  }

  const MarshalFailed: string := "failed to marshal expression value to JSON: "

  /** `filterResult`: nil gives nothing; an unencodable value is an error;
      with no condition the whole value is flattened; with a condition only
      the value found at that path is, and a missing path gives nothing. */
  function FilterResult(value: ExprValue, condition: string,
                        lookup: (Json, string) -> Option<Json>): Result<seq<Json>>
  {
    match value
    case NilValue => Ok([])
    case Unencodable(reason) => Err(MarshalFailed + reason)
    case JsonValue(v) =>
      if condition == "" then Ok(Elements(v))
      else
        match lookup(v, condition)
        case None => Ok([])
        case Some(found) => Ok(Elements(found))
  }

  /** Without a condition, an array value yields its elements one by one and
      any other value yields itself. */
  lemma FilterWithoutCondition(v: Json, lookup: (Json, string) -> Option<Json>)
    ensures v.JArray? ==> FilterResult(JsonValue(v), "", lookup) == Ok(v.items)
    ensures !v.JArray? ==> FilterResult(JsonValue(v), "", lookup) == Ok([v])
  {
  }

  /** A nil value is skipped without an error, and only a value that cannot
      be encoded makes filtering fail, whatever the condition. */
  lemma FilterErrorsOnlyWhenUnencodable(value: ExprValue, condition: string,
                                        lookup: (Json, string) -> Option<Json>)
    ensures value.NilValue? ==> FilterResult(value, condition, lookup) == Ok([])
    ensures FilterResult(value, condition, lookup).Err? <==> value.Unencodable?
    ensures value.Unencodable? ==> FilterResult(value, condition, lookup) == Err(MarshalFailed + value.reason)
  {
  }

  /** A condition path that does not exist filters everything out, without
      an error. */
  lemma FilterMissingPath(v: Json, condition: string, lookup: (Json, string) -> Option<Json>)
    requires condition != "" && lookup(v, condition).None?
    ensures FilterResult(JsonValue(v), condition, lookup) == Ok([])
  {
  }

  /** All the expressions of a result set, results in order and each
      result's expressions in order. */
  function Expressions(results: seq<EvalResult>): seq<ExprValue> {
    if results == [] then []
    else Expressions(results[..|results| - 1]) + results[|results| - 1].expressions
  }

  function FilterFailed(condition: string, cause: string): string {
    "failed to filter result with condition " + condition + ": " + cause
  }

  /** One step of the gathering loop: a nil expression adds nothing, any
      other is filtered and its values appended; an error stops the loop and
      is kept from then on. */
  function AddExpression(found: Result<seq<Json>>, e: ExprValue, condition: string,
                         lookup: (Json, string) -> Option<Json>): Result<seq<Json>>
  {
    match found
    case Err(_) => found
    case Ok(values) =>
      if e.NilValue? then found
      else
        match FilterResult(e, condition, lookup)
        case Ok(more) => Ok(values + more)
        case Err(cause) => Err(FilterFailed(condition, cause))
  }

  /** The violations gathered from `exprs`, in order; the first filter error
      aborts. */
  function Violations(exprs: seq<ExprValue>, condition: string,
                      lookup: (Json, string) -> Option<Json>): Result<seq<Json>>
  {
    if exprs == [] then Ok([])
    else AddExpression(Violations(exprs[..|exprs| - 1], condition, lookup), exprs[|exprs| - 1], condition, lookup)
  }

  /** The inner loop of `Eval` over one result's expressions, continuing
      from the violations gathered so far. */
  method GatherExpressions(exprs: seq<ExprValue>, condition: string,
                           lookup: (Json, string) -> Option<Json>,
                           ghost prior: seq<ExprValue>, found: seq<Json>)
    returns (r: Result<seq<Json>>)
    requires Violations(prior, condition, lookup) == Ok(found)
    ensures r == Violations(prior + exprs, condition, lookup)
  {
    var violations := found;
    var j := 0;
    assert prior + exprs[..0] == prior;
    while j < |exprs|
      invariant 0 <= j <= |exprs|
      invariant Violations(prior + exprs[..j], condition, lookup) == Ok(violations)
    {
      assert (prior + exprs[..j + 1])[..|prior + exprs[..j + 1]| - 1] == prior + exprs[..j];
      assert (prior + exprs[..j + 1])[|prior + exprs[..j + 1]| - 1] == exprs[j];
      if !exprs[j].NilValue? {
        var filtered := FilterResult(exprs[j], condition, lookup);
        if filtered.Err? {
          ViolationsAbort(prior + exprs[..j + 1], exprs[j + 1..], condition, lookup);
          assert prior + exprs[..j + 1] + exprs[j + 1..] == prior + exprs;
          return Err(FilterFailed(condition, filtered.msg));
        }
        violations := violations + filtered.value;
      }
      j := j + 1;
    }
    assert exprs[..j] == exprs;
    return Ok(violations);
  }

  const PrepareFailed: string := "failed to prepare OPA query: "
  const EvaluateFailed: string := "failed to evaluate OPA query: "

  /** What `Eval` returns for an input. */
  function EvalResultOf(ev: Evaluator, input: Json, engine: Engine): Result<seq<Json>> {
    match engine.prepare(ev.bundle, ev.query)
    case Fail(e) => Err(PrepareFailed + e)
    case Pass =>
      match engine.eval(ev.bundle, ev.query, input)
      case Err(e) => Err(EvaluateFailed + e)
      case Ok(results) => Violations(Expressions(results), ev.condition, engine.lookup)
  }

  /** `(*regoEvaluator).Eval`: prepare, evaluate, then walk every result and
      every expression, appending the filtered values of the non-nil ones. */
  method Eval(ev: Evaluator, input: Json, engine: Engine) returns (r: Result<seq<Json>>)
    ensures r == EvalResultOf(ev, input, engine)
  {
    var prepared := engine.prepare(ev.bundle, ev.query);
    if prepared.Fail? {
      return Err(PrepareFailed + prepared.error);
    }
    var evaluated := engine.eval(ev.bundle, ev.query, input);
    if evaluated.Err? {
      return Err(EvaluateFailed + evaluated.msg);
    }
    var results := evaluated.value;
    var violations: seq<Json> := [];
    var i := 0;
    while i < |results|
      invariant 0 <= i <= |results|
      invariant Violations(Expressions(results[..i]), ev.condition, engine.lookup) == Ok(violations)
    {
      assert results[..i + 1][..i] == results[..i];
      var gathered := GatherExpressions(results[i].expressions, ev.condition, engine.lookup,
                                        Expressions(results[..i]), violations);
      assert Expressions(results[..i + 1]) == Expressions(results[..i]) + results[i].expressions;
      if gathered.Err? {
        AbortAcrossResults(results, i + 1, ev.condition, engine.lookup);
        return gathered;
      }
      violations := gathered.value;
      i := i + 1;
    }
    assert results[..i] == results;
    return Ok(violations);
  }

  /** Once gathering has failed, more expressions do not change the error. */
  lemma {:induction false} ViolationsAbort(exprs: seq<ExprValue>, more: seq<ExprValue>, condition: string,
                                           lookup: (Json, string) -> Option<Json>)
    requires Violations(exprs, condition, lookup).Err?
    ensures Violations(exprs + more, condition, lookup) == Violations(exprs, condition, lookup)
    decreases |more|
  {
    if more == [] {
      assert exprs + more == exprs;
    } else {
      var init := more[..|more| - 1];
      assert (exprs + more)[..|exprs + more| - 1] == exprs + init;
      ViolationsAbort(exprs, init, condition, lookup);
    }
  }

  lemma {:induction false} ExpressionsAppend(a: seq<EvalResult>, b: seq<EvalResult>)
    ensures Expressions(a + b) == Expressions(a) + Expressions(b)
    decreases |b|
  {
    if b == [] {
      assert a + b == a;
    } else {
      var init := b[..|b| - 1];
      assert (a + b)[..|a + b| - 1] == a + init;
      ExpressionsAppend(a, init);
    }
  }

  lemma AbortAcrossResults(results: seq<EvalResult>, k: nat, condition: string,
                           lookup: (Json, string) -> Option<Json>)
    requires k <= |results|
    requires Violations(Expressions(results[..k]), condition, lookup).Err?
    ensures Violations(Expressions(results), condition, lookup)
            == Violations(Expressions(results[..k]), condition, lookup)
  {
    assert results == results[..k] + results[k..];
    ExpressionsAppend(results[..k], results[k..]);
    ViolationsAbort(Expressions(results[..k]), Expressions(results[k..]), condition, lookup);
  }

  /** When no filter fails, the violations of two runs of expressions are the
      violations of each, in order. */
  lemma {:induction false} ViolationsAppend(a: seq<ExprValue>, b: seq<ExprValue>, condition: string,
                                            lookup: (Json, string) -> Option<Json>)
    requires Violations(a, condition, lookup).Ok? && Violations(b, condition, lookup).Ok?
    ensures Violations(a + b, condition, lookup)
            == Ok(Violations(a, condition, lookup).value + Violations(b, condition, lookup).value)
    decreases |b|
  {
    if b == [] {
      assert a + b == a;
      assert Violations(a, condition, lookup).value + [] == Violations(a, condition, lookup).value;
    } else {
      var init := b[..|b| - 1];
      assert (a + b)[..|a + b| - 1] == a + init;
      assert (a + b)[|a + b| - 1] == b[|b| - 1];
      assert Violations(init, condition, lookup).Ok?;
      ViolationsAppend(a, init, condition, lookup);
      var last := b[|b| - 1];
      var va := Violations(a, condition, lookup).value;
      var vi := Violations(init, condition, lookup).value;
      if !last.NilValue? && FilterResult(last, condition, lookup).Ok? {
        var more := FilterResult(last, condition, lookup).value;
        assert va + vi + more == va + (vi + more);
      }
    }
  }

  /** Nil expression values contribute nothing: a result set whose
      expressions are all nil has no violations (an empty list, not an
      error). */
  lemma {:induction false} AllNilNoViolations(exprs: seq<ExprValue>, condition: string,
                                              lookup: (Json, string) -> Option<Json>)
    requires forall i :: 0 <= i < |exprs| ==> exprs[i].NilValue?
    ensures Violations(exprs, condition, lookup) == Ok([])
  {
    if exprs != [] {
      AllNilNoViolations(exprs[..|exprs| - 1], condition, lookup);
    }
  }

  /** A preparation failure is reported before anything is evaluated, and an
      evaluation failure before anything is filtered. */
  lemma EvalStageErrors(ev: Evaluator, input: Json, engine: Engine)
    ensures engine.prepare(ev.bundle, ev.query).Fail? ==>
              EvalResultOf(ev, input, engine) == Err(PrepareFailed + engine.prepare(ev.bundle, ev.query).error)
    ensures engine.prepare(ev.bundle, ev.query).Pass? && engine.eval(ev.bundle, ev.query, input).Err? ==>
              EvalResultOf(ev, input, engine) == Err(EvaluateFailed + engine.eval(ev.bundle, ev.query, input).msg)
  {
  }

  /** Example: two results each holding one array of violations, no condition; the
      arrays are flattened and concatenated in result order. */
  lemma EvalExample(engine: Engine)
    requires engine.prepare("policy", "data.deny").Pass?
    requires engine.eval("policy", "data.deny", JNull)
             == Ok([EvalResult([JsonValue(JArray([JString("a"), JString("b")]))]),
                    EvalResult([NilValue, JsonValue(JString("c"))])])
    ensures EvalResultOf(Evaluator("policy", "data.deny", ""), JNull, engine)
            == Ok([JString("a"), JString("b"), JString("c")])
  {
    var r1 := EvalResult([JsonValue(JArray([JString("a"), JString("b")]))]);
    var r2 := EvalResult([NilValue, JsonValue(JString("c"))]);
    assert [r1, r2][..1] == [r1] && [r1][..0] == [];
    assert Expressions([r1]) == r1.expressions;
    var es := Expressions([r1, r2]);
    assert es == r1.expressions + r2.expressions;
    var a := JsonValue(JArray([JString("a"), JString("b")]));
    var c := JsonValue(JString("c"));
    assert es == [a, NilValue, c];
    assert es[..2] == [a, NilValue] && es[..2][..1] == [a] && [a][..0] == [];
    assert FilterResult(a, "", engine.lookup) == Ok([JString("a"), JString("b")]);
    assert [] + [JString("a"), JString("b")] == [JString("a"), JString("b")];
    assert Violations([a], "", engine.lookup) == Ok([JString("a"), JString("b")]);
    assert Violations([a, NilValue], "", engine.lookup) == Ok([JString("a"), JString("b")]);
    assert FilterResult(c, "", engine.lookup) == Ok([JString("c")]);
    assert [JString("a"), JString("b")] + [JString("c")] == [JString("a"), JString("b"), JString("c")];
  }
}
