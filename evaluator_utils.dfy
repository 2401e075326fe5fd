/**
 * The signature rules of experiment evaluators (src/phoenix/experiments/evaluators/utils.py):
 * which Python function signatures may serve as an evaluator, which of the run's `input`,
 * `output`, `expected` and `metadata` is passed to which parameter, and how a plain result is
 * turned into an evaluation result.
 *
 * A signature is its parameter list, in order; Python guarantees that the names are distinct.
 */
module EvaluatorUtils {
  import opened Wrappers
  import opened Json

  /** `unwrap_json`: the sole value of a one-entry object; anything else unchanged. */
  function UnwrapJson(obj: Json): (r: Json)
    ensures obj.Object? && |obj.fields| == 1 ==> r == obj.fields[0].1 && Lookup(obj.fields, obj.fields[0].0) == Some(r)
    ensures r == obj <==> !(obj.Object? && |obj.fields| == 1)
  {
    if obj.Object? && |obj.fields| == 1 then
      assert obj.fields[0] in obj.fields;
      obj.fields[0].1
    else obj
  }

  /** Wrapping a value under any one key and unwrapping it gives the value back. */
  lemma UnwrapWrapped(key: string, v: Json)
    ensures UnwrapJson(Object([(key, v)])) == v
  {
  }

  /** A parameter of a signature: its name, whether it is `**kwargs`, and whether it has a default. */
  datatype Parameter = Parameter(name: string, isVarKeyword: bool, hasDefault: bool)

  const ValidNamedParams: set<string> := {"input", "output", "expected", "metadata"}

  /** A parameter that a multi-parameter evaluator cannot have: an unknown name that must be passed. */
  predicate Offending(p: Parameter) {
    p.name !in ValidNamedParams && !p.isVarKeyword && !p.hasDefault
  }

  /** The signatures `validate_signature` lets through. */
  predicate SignatureAccepted(params: seq<Parameter>) {
    |params| == 1 || (|params| > 1 && forall i :: 0 <= i < |params| ==> !Offending(params[i]))
  }

  /** The two `ValueError`s of `validate_signature`; the second names a parameter at fault. */
  datatype SignatureError = NoParameters | InvalidParameterName(name: string)

  /** `validate_signature`: no parameters is an error, one is always fine, and with more every unknown name must be `**kwargs` or defaulted. */
  method ValidateSignature(params: seq<Parameter>) returns (r: Result<(), SignatureError>)
    ensures r.Ok? <==> SignatureAccepted(params)
    ensures r == Err(NoParameters) <==> |params| == 0
    ensures r.Err? && r.error.InvalidParameterName? ==>
      exists i :: 0 <= i < |params| && Offending(params[i]) && params[i].name == r.error.name
  {
    if |params| == 0 {
      return Err(NoParameters);
    }
    if |params| > 1 {
      for i := 0 to |params|
        invariant forall k :: 0 <= k < i ==> !Offending(params[k])
      {
        if Offending(params[i]) {
          return Err(InvalidParameterName(params[i].name));
        }
      }
    }
    return Ok(());
  }

  /** `kwargs.get(name)`: `None` when the run did not supply it. */
  function KwargValue(kwargs: map<string, Json>, name: string): Json {
    if name in kwargs then kwargs[name] else Null
  }

  function ParameterNames(params: seq<Parameter>): set<string> {
    set i | 0 <= i < |params| :: params[i].name
  }

  /**
   * `_bind_signature`, as the names bound and their values. A lone parameter receives the value
   * of its own name when that is one of the four, and the `output` otherwise; with several
   * parameters, each of the four names that is a parameter is bound to its own value.
   */
  function BindSignature(params: seq<Parameter>, kwargs: map<string, Json>): (bound: map<string, Json>)
    ensures |params| == 1 ==> bound.Keys == {params[0].name}
    ensures |params| == 1 && params[0].name in ValidNamedParams ==> bound[params[0].name] == KwargValue(kwargs, params[0].name)
    ensures |params| == 1 && params[0].name !in ValidNamedParams ==> bound[params[0].name] == KwargValue(kwargs, "output")
    ensures |params| != 1 ==> bound.Keys == ValidNamedParams * ParameterNames(params)
    ensures |params| != 1 ==> bound.Keys <= ValidNamedParams
    ensures |params| != 1 ==> forall i :: 0 <= i < |params| ==> (params[i].name in bound <==> params[i].name in ValidNamedParams)
    ensures |params| != 1 ==> forall n :: n in bound ==> bound[n] == KwargValue(kwargs, n)
  {
    if |params| == 1 then
      var name := params[0].name;
      if name in ValidNamedParams then map[name := KwargValue(kwargs, name)]
      else map[name := KwargValue(kwargs, "output")]
    else
      assert forall i :: 0 <= i < |params| ==> params[i].name in ParameterNames(params);
      map n | n in ValidNamedParams * ParameterNames(params) :: KwargValue(kwargs, n)
  }

  /** Every parameter that binding leaves unbound is `**kwargs` or has a default, once the signature is accepted: the call cannot miss an argument. */
  lemma AcceptedSignatureIsCallable(params: seq<Parameter>, kwargs: map<string, Json>)
    requires SignatureAccepted(params)
    ensures forall i :: 0 <= i < |params| && params[i].name !in BindSignature(params, kwargs) ==>
      params[i].isVarKeyword || params[i].hasDefault
  {
    if |params| > 1 {
      forall i | 0 <= i < |params| && params[i].name !in BindSignature(params, kwargs)
        ensures params[i].isVarKeyword || params[i].hasDefault
      {
        assert params[i].name !in ValidNamedParams;
        assert !Offending(params[i]);
      }
    }
  }

  /** The result of an evaluation: `EvaluationResult(score=..., label=...)`, other fields left at their defaults. */
  datatype EvaluationResult = EvaluationResult(score: Option<real>, labelText: Option<string>, explanation: Option<string>)

  /** What an evaluator function may return, by Python type. */
  datatype PyValue =
    | PyBool(b: bool)
    | PyInt(i: int)
    | PyFloat(f: real)
    | PyEvaluationResult(result: EvaluationResult)
    | PyOther(typeName: string)

  /** `isinstance(v, int)`: `bool` is a subclass of `int`. */
  predicate IsInstanceOfInt(v: PyValue) {
    v.PyBool? || v.PyInt?
  }

  /** The `ValueError` of `_default_eval_scorer`, naming the type it does not support. */
  datatype ScorerError = UnsupportedResultType(typeName: string)

  function BoolText(b: bool): string {
    if b then "True" else "False"
  }

  /**
   * `_default_eval_scorer`: a `bool` is tested before `int`, so it is scored 1 or 0 and labelled
   * "True" or "False"; a number is scored; an evaluation result is returned unchanged; any other
   * type is an error.
   */
  function DefaultEvalScorer(v: PyValue): (r: Result<EvaluationResult, ScorerError>)
    ensures r.Err? <==> v.PyOther?
    ensures r.Err? ==> r.error == UnsupportedResultType(v.typeName)
    ensures v.PyEvaluationResult? ==> r == Ok(v.result)
    ensures r.Ok? && r.value.labelText.Some? && !v.PyEvaluationResult? ==> v.PyBool? && r.value.labelText == Some(BoolText(v.b))
    ensures v.PyBool? ==> r.Ok? && r.value.score == Some(if v.b then 1.0 else 0.0) && r.value.labelText.Some?
    ensures IsInstanceOfInt(v) && !v.PyBool? ==> r == Ok(EvaluationResult(Some(v.i as real), None, None))
    ensures v.PyFloat? ==> r == Ok(EvaluationResult(Some(v.f), None, None))
  {
    match v
    case PyBool(b) => Ok(EvaluationResult(Some(if b then 1.0 else 0.0), Some(BoolText(b)), None))
    case PyInt(i) => Ok(EvaluationResult(Some(i as real), None, None))
    case PyFloat(f) => Ok(EvaluationResult(Some(f), None, None))
    case PyEvaluationResult(result) => Ok(result)
    case PyOther(typeName) => Err(UnsupportedResultType(typeName))
  }
}
