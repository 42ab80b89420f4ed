/** The validators package (internal/adapters/validators): the plugin's
    `validations` configuration, its conversion into validators, and the
    OPA adapter that turns policy violations into structured failures.

    `fmt`'s `%v` rendering of a JSON value is a parameter (`show`): Go's
    formatting of maps and floats is outside the model. */
module Validators {
  import opened Wrappers
  import opened Json
  import opened Strings
  import Rego

  /** `OpaValidation`: the bundle, the query and the optional gjson
      condition. */
  datatype OpaValidation = OpaValidation(bundle: string, query: string, condition: string)

  /** `Validation`: one entry of `validations`; only OPA exists, and an
      entry without it is of unknown type. */
  datatype Validation = Validation(opa: Option<OpaValidation>)

  /** `Validations`: the list as the plugin configuration holds it. */
  datatype Validations = Validations(validations: seq<Validation>)

  /** `ValidationFailure`: `kind` is the source's `Type`; `details` is
      `None` where the source leaves the map nil. */
  datatype ValidationFailure = ValidationFailure(
    kind: string, message: string, path: string, details: Option<map<string, Json>>)

  /** `ValidationResult`. */
  datatype ValidationResult = ValidationResult(passed: bool, failures: seq<ValidationFailure>)

  /** `OpaValidatorAdapter`, the only implementation of `Validator`. */
  datatype Validator = OpaValidatorAdapter(evaluator: Rego.Evaluator, name: string, config: OpaValidation)

  /** `fmt.Sprintf("%v", ·)` on a JSON value. */
  type Show = Json -> string

  /** `NewOpaValidatorAdapter`: a nil configuration is replaced by an empty
      one, an empty name by "opa-" and the query. */
  function NewOpaValidatorAdapter(config: Option<OpaValidation>, name: string): (v: Validator)
    ensures config.Some? ==> v.config == config.value
    ensures config.None? ==> v.config == OpaValidation("", "", "")
    ensures v.name == if name != "" then name else "opa-" + v.config.query
    ensures v.evaluator == Rego.NewRego(v.config.bundle, v.config.query, v.config.condition)
  {
    var c := if config.Some? then config.value else OpaValidation("", "", "");
    OpaValidatorAdapter(Rego.NewRego(c.bundle, c.query, c.condition),
                        if name != "" then name else "opa-" + c.query, c)
  }

  const OpaValidatorName: string := "opa-validator"

  /** `%v` of a `Validation` whose `Opa` is nil prints its only field. */
  const UnknownValidationType: string := "unknown validation type: {<nil>}"

  /** The validators `ToValidators` builds: one OPA adapter per entry,
      unless an entry has no OPA configuration. */
  function ValidatorsOf(v: Validations): Result<seq<Validator>> {
    if exists i :: 0 <= i < |v.validations| && v.validations[i].opa.None? then Err(UnknownValidationType)
    else Ok(seq(|v.validations|, i requires 0 <= i < |v.validations| =>
                  NewOpaValidatorAdapter(v.validations[i].opa, OpaValidatorName)))
  }

  /** `(Validations).ToValidators`: one OPA adapter per entry, all named
      "opa-validator"; the first entry without an OPA configuration stops
      the conversion with an error. */
  method ToValidators(v: Validations) returns (r: Result<seq<Validator>>)
    ensures r == ValidatorsOf(v)
    ensures r.Err? <==> exists i :: 0 <= i < |v.validations| && v.validations[i].opa.None?
    ensures r.Err? ==> r.msg == UnknownValidationType
    ensures r.Ok? ==> |r.value| == |v.validations|
    ensures r.Ok? ==> forall i :: 0 <= i < |r.value| ==>
              r.value[i] == NewOpaValidatorAdapter(v.validations[i].opa, OpaValidatorName)
  {
    var vs := v.validations;
    if |vs| == 0 {
      return Ok([]);
    }
    var result: seq<Validator> := [];
    var i := 0;
    while i < |vs|
      invariant 0 <= i <= |vs|
      invariant |result| == i
      invariant forall k :: 0 <= k < i ==> vs[k].opa.Some?
      invariant forall k :: 0 <= k < i ==> result[k] == NewOpaValidatorAdapter(vs[k].opa, OpaValidatorName)
    {
      if vs[i].opa.None? {
        return Err(UnknownValidationType);
      }
      result := result + [NewOpaValidatorAdapter(vs[i].opa, OpaValidatorName)];
      i := i + 1;
    }
    assert !exists k :: 0 <= k < |vs| && vs[k].opa.None?;
    var expected := ValidatorsOf(v);
    assert expected.Ok? && |expected.value| == |result|;
    assert forall k :: 0 <= k < |result| ==> expected.value[k] == result[k];
    assert expected.value == result;
    return Ok(result);
  }

  /** Whether `key` holds a non-empty string in a violation object. */
  predicate NonEmptyStringAt(m: map<string, Json>, key: string) {
    key in m && m[key].JString? && m[key].s != ""
  }

  /** The first of `keys` that holds a non-empty string, and that string. */
  function FirstNonEmpty(m: map<string, Json>, keys: seq<string>): Option<string> {
    if keys == [] then None
    else if NonEmptyStringAt(m, keys[0]) then Some(m[keys[0]].s)
    else FirstNonEmpty(m, keys[1..])
  }

  /** `FirstNonEmpty` finds a string exactly when some key holds one, and
      then it is the one held by the earliest such key. */
  lemma {:induction false} FirstNonEmptyPriority(m: map<string, Json>, keys: seq<string>)
    ensures FirstNonEmpty(m, keys).None? <==> forall i :: 0 <= i < |keys| ==> !NonEmptyStringAt(m, keys[i])
    ensures FirstNonEmpty(m, keys).Some? ==>
              exists i :: 0 <= i < |keys| && NonEmptyStringAt(m, keys[i])
                          && FirstNonEmpty(m, keys).value == m[keys[i]].s
                          && forall j :: 0 <= j < i ==> !NonEmptyStringAt(m, keys[j])
  {
    if keys != [] && !NonEmptyStringAt(m, keys[0]) {
      FirstNonEmptyPriority(m, keys[1..]);
      if FirstNonEmpty(m, keys).Some? {
        var i :| 0 <= i < |keys[1..]| && NonEmptyStringAt(m, keys[1..][i])
                 && FirstNonEmpty(m, keys[1..]).value == m[keys[1..][i]].s
                 && forall j :: 0 <= j < i ==> !NonEmptyStringAt(m, keys[1..][j]);
        assert NonEmptyStringAt(m, keys[i + 1]);
        forall j | 0 <= j < i + 1
          ensures !NonEmptyStringAt(m, keys[j])
        {
          if j > 0 { assert keys[j] == keys[1..][j - 1]; }
        }
      } else {
        forall i | 0 <= i < |keys|
          ensures !NonEmptyStringAt(m, keys[i])
        {
          if i > 0 { assert keys[i] == keys[1..][i - 1]; }
        }
      }
    }
  }

  /** The loops of `extractMessage` and `extractPath`: try the keys in
      order and stop at the first non-empty string. */
  method FindNonEmpty(m: map<string, Json>, keys: seq<string>) returns (r: Option<string>)
    ensures r == FirstNonEmpty(m, keys)
  {
    var i := 0;
    while i < |keys|
      invariant 0 <= i <= |keys|
      invariant FirstNonEmpty(m, keys) == FirstNonEmpty(m, keys[i..])
    {
      assert keys[i..][1..] == keys[i + 1..];
      if keys[i] in m && m[keys[i]].JString? && m[keys[i]].s != "" {
        return Some(m[keys[i]].s);
      }
      i := i + 1;
    }
    return None;
  }

  const MessageKeys: seq<string> := ["message", "msg", "description", "error", "reason"]
  const PathKeys: seq<string> := ["path", "location", "resource", "field", "attribute"]

  /** `extractMessage`: the first non-empty string among the message keys,
      otherwise the whole object rendered after "Policy violation: ". */
  function MessageOf(m: map<string, Json>, show: Show): (r: string)
    ensures r != ""
    ensures FirstNonEmpty(m, MessageKeys).Some? ==> r == FirstNonEmpty(m, MessageKeys).value
    ensures FirstNonEmpty(m, MessageKeys).None? ==> r == "Policy violation: " + show(JObject(m))
  {
    match FirstNonEmpty(m, MessageKeys)
    case Some(s) =>
      FirstNonEmptyPriority(m, MessageKeys);
      s
    case None => "Policy violation: " + show(JObject(m))
  }

  /** `extractPath`: the first non-empty string among the path keys;
      failing that, a string `resource` (joined with a string `action` by a
      dot when there is one); failing that, "". */
  function PathOf(m: map<string, Json>): string {
    match FirstNonEmpty(m, PathKeys)
    case Some(s) => s
    case None =>
      if "resource" in m && m["resource"].JString? then
        if "action" in m && m["action"].JString? then m["resource"].s + "." + m["action"].s
        else m["resource"].s
      else ""
  }

  /** "message" wins over "msg", whatever "msg" holds. */
  lemma MessageKeyFirst(m: map<string, Json>, show: Show)
    requires "message" in m && m["message"].JString? && m["message"].s != ""
    ensures MessageOf(m, show) == m["message"].s
  {
  }

  /** Looking in `a` then `b` finds what `a` finds, or else what `b`
      finds. */
  lemma {:induction false} FirstNonEmptyAppend(m: map<string, Json>, a: seq<string>, b: seq<string>)
    ensures FirstNonEmpty(m, a + b)
            == if FirstNonEmpty(m, a).Some? then FirstNonEmpty(m, a) else FirstNonEmpty(m, b)
  {
    if a == [] {
      assert a + b == b;
    } else {
      assert (a + b)[0] == a[0] && (a + b)[1..] == a[1..] + b;
      FirstNonEmptyAppend(m, a[1..], b);
    }
  }

  /** The resource/action fallback of `extractPath` is reached only when
      `resource` is the empty string (a non-empty one is found by the key
      loop first), so it can only ever produce "" or "." and the action. */
  lemma PathFallbackOnlyForEmptyResource(m: map<string, Json>)
    requires "resource" in m && m["resource"].JString?
    ensures m["resource"].s != "" ==>
              FirstNonEmpty(m, PathKeys).Some? && PathOf(m) == FirstNonEmpty(m, PathKeys).value
    ensures m["resource"].s != "" && FirstNonEmpty(m, ["path", "location"]).None? ==>
              PathOf(m) == m["resource"].s
    ensures m["resource"].s == "" && FirstNonEmpty(m, PathKeys).None? ==>
              PathOf(m) == (if "action" in m && m["action"].JString? then "." + m["action"].s else "")
  {
    FirstNonEmptyPriority(m, PathKeys);
    assert PathKeys[2] == "resource";
    assert PathKeys == ["path", "location"] + ["resource", "field", "attribute"];
    FirstNonEmptyAppend(m, ["path", "location"], ["resource", "field", "attribute"]);
  }

  function IndexPath(index: nat): string {
    "violation[" + IntToString(index) + "]"
  }

  /** `convertViolationToFailure`: a string is its own message; an object
      gives its message, its path and itself as details; anything else is
      rendered after "Policy violation: " and kept under "raw_violation".
      An empty message becomes "Policy violation" and the 1-based index. */
  function FailureOf(violation: Json, index: nat, query: string, show: Show): (f: ValidationFailure)
    ensures f.kind == query
    ensures f.message != ""
    ensures violation.JString? && violation.s != "" ==> f.message == violation.s
    ensures violation.JString? && violation.s == "" ==> f.message == "Policy violation " + IntToString(index + 1)
    ensures violation.JObject? ==>
              f.message == MessageOf(violation.fields, show) && f.path == PathOf(violation.fields)
              && f.details == Some(violation.fields)
    ensures !violation.JObject? ==> f.path == IndexPath(index)
    ensures violation.JString? ==> f.details.None?
    ensures !violation.JString? && !violation.JObject? ==>
              f.details == Some(map["raw_violation" := violation])
              && f.message == "Policy violation: " + show(violation)
  {
    var f := match violation
      case JString(s) => ValidationFailure(query, s, IndexPath(index), None)
      case JObject(m) => ValidationFailure(query, MessageOf(m, show), PathOf(m), Some(m))
      case _ => ValidationFailure(query, "Policy violation: " + show(violation), IndexPath(index),
                                  Some(map["raw_violation" := violation]));
    if f.message == "" then f.(message := "Policy violation " + IntToString(index + 1)) else f
  }

  /** The failures of a list of violations, one per violation in order. */
  function FailuresOf(violations: seq<Json>, query: string, show: Show): (r: seq<ValidationFailure>)
    ensures |r| == |violations|
    ensures forall i :: 0 <= i < |r| ==> r[i] == FailureOf(violations[i], i, query, show)
  {
    if violations == [] then []
    else
      var n := |violations| - 1;
      FailuresOf(violations[..n], query, show) + [FailureOf(violations[n], n, query, show)]
  }

  /** `convertViolationsToResult`: no violations passes with no failures;
      otherwise it fails with one failure per violation. */
  method ConvertViolationsToResult(v: Validator, violations: seq<Json>, show: Show)
    returns (r: ValidationResult)
    ensures r.passed <==> |violations| == 0
    ensures r.failures == FailuresOf(violations, v.config.query, show)
  {
    if |violations| == 0 {
      return ValidationResult(true, []);
    }
    var failures: seq<ValidationFailure> := [];
    var i := 0;
    while i < |violations|
      invariant 0 <= i <= |violations|
      invariant failures == FailuresOf(violations[..i], v.config.query, show)
    {
      assert violations[..i + 1][..i] == violations[..i];
      failures := failures + [FailureOf(violations[i], i, v.config.query, show)];
      i := i + 1;
    }
    assert violations[..i] == violations;
    return ValidationResult(false, failures);
  }

  function EvaluationFailed(name: string, cause: string): string {
    "OPA policy evaluation failed for " + name + ": " + cause
  }

  /** What `Validate` returns for a plan. */
  function ValidateResult(v: Validator, plan: Json, engine: Rego.Engine, show: Show): Result<ValidationResult> {
    match Rego.EvalResultOf(v.evaluator, plan, engine)
    case Err(e) => Err(EvaluationFailed(v.name, e))
    case Ok(violations) =>
      Ok(ValidationResult(|violations| == 0, FailuresOf(violations, v.config.query, show)))
  }

  /** `(*OpaValidatorAdapter).Validate`: evaluate the policy on the plan and
      convert the violations, or report the evaluation error under the
      validator's name. */
  method Validate(v: Validator, plan: Json, engine: Rego.Engine, show: Show)
    returns (r: Result<ValidationResult>)
    ensures r == ValidateResult(v, plan, engine, show)
  {
    var violations := Rego.Eval(v.evaluator, plan, engine);
    if violations.Err? {
      return Err(EvaluationFailed(v.name, violations.msg));
    }
    var converted := ConvertViolationsToResult(v, violations.value, show);
    return Ok(converted);
  }

  /** A validation result passes exactly when it has no failures, and every
      failure carries the query as its type and a non-empty message. */
  lemma ValidateResultShape(v: Validator, plan: Json, engine: Rego.Engine, show: Show)
    requires ValidateResult(v, plan, engine, show).Ok?
    ensures var res := ValidateResult(v, plan, engine, show).value;
            (res.passed <==> res.failures == [])
            && forall i :: 0 <= i < |res.failures| ==>
                 res.failures[i].kind == v.config.query && res.failures[i].message != ""
  {
  }

  /** Example: a mixed list of violations, namely a string, an object with a message and a
      resource, and a number. */
  lemma FailuresExample(show: Show)
    requires show(JNumber(3.0)) == "3"
    ensures var m := map["msg" := JString("bucket is public"), "resource" := JString("aws_s3_bucket.b")];
            FailuresOf([JString("no tags"), JObject(m), JNumber(3.0)], "data.deny", show)
            == [ValidationFailure("data.deny", "no tags", "violation[0]", None),
                ValidationFailure("data.deny", "bucket is public", "aws_s3_bucket.b", Some(m)),
                ValidationFailure("data.deny", "Policy violation: 3", "violation[2]",
                                  Some(map["raw_violation" := JNumber(3.0)]))]
  {
    var m := map["msg" := JString("bucket is public"), "resource" := JString("aws_s3_bucket.b")];
    var vs := [JString("no tags"), JObject(m), JNumber(3.0)];
    var f0 := ValidationFailure("data.deny", "no tags", "violation[0]", None);
    var f1 := ValidationFailure("data.deny", "bucket is public", "aws_s3_bucket.b", Some(m));
    var f2 := ValidationFailure("data.deny", "Policy violation: 3", "violation[2]",
                                Some(map["raw_violation" := JNumber(3.0)]));
    assert FailureOf(vs[0], 0, "data.deny", show) == f0 by {
      assert IntToString(0) == "0";
    }
    assert FailureOf(vs[1], 1, "data.deny", show) == f1 by {
      assert MessageKeys[1..] == ["msg", "description", "error", "reason"];
      assert FirstNonEmpty(m, MessageKeys) == FirstNonEmpty(m, MessageKeys[1..]);
      assert FirstNonEmpty(m, MessageKeys[1..]) == Some("bucket is public");
      assert PathKeys[1..] == ["location", "resource", "field", "attribute"];
      assert PathKeys[1..][1..] == ["resource", "field", "attribute"];
      assert FirstNonEmpty(m, PathKeys[1..][1..]) == Some("aws_s3_bucket.b");
      assert FirstNonEmpty(m, PathKeys) == Some("aws_s3_bucket.b");
    }
    assert FailureOf(vs[2], 2, "data.deny", show) == f2 by {
      assert IntToString(2) == "2";
    }
    assert vs[..2] == [JString("no tags"), JObject(m)] && vs[..2][..1] == [JString("no tags")];
    assert [JString("no tags")][..0] == [];
  }
}
