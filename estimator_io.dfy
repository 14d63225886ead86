/**
 * `EstimatorIO.to_json` and `EstimatorIO.__contains__`: an estimator's
 * document is its shallow parameters, each estimator-valued one replaced by
 * that estimator's own document as a string, next to its class name.
 */
module EstimatorIO {
  import opened Wrappers
  import opened Json

  /** A parameter or attribute value: a plain value (`JNull` is None), or
      another estimator. */
  datatype Value = Plain(json: Json) | Est(est: Estimator)

  /** An estimator: its class name, whether its class has `to_json` (every
      estimator built on `EstimatorIO` does; other scikit-learn estimators do
      not), `get_params(deep=False)` in its own order, and `__dict__`. */
  datatype Estimator = Estimator(
    className: string,
    hasToJson: bool,
    params: seq<(string, Value)>,
    fields: map<string, Value>)

  /** `get_params` returns a dict, so no parameter name repeats. */
  predicate WellFormed(e: Estimator) {
    Distinct(Names(e.params))
  }

  /** One entry of the comprehension on lines 112-113: an estimator becomes
      the string its `to_json()` returns, anything else stays as it is. */
  function ParamJson(v: Value): Result<Json, EncodeError>
    decreases v, 0
  {
    match v
    case Plain(j) => Ok(j)
    case Est(e) =>
      if !e.hasToJson then Err(AttributeError("to_json"))
      else
        match EstimatorJson(e)
        case Err(x) => Err(x)
        case Ok(doc) => Ok(JDoc(doc))
  }

  /** Lines 112-113: the `params` dict over the first n parameters, built
      entry by entry in order; the first entry that raises ends the
      comprehension with its error. */
  function ParamsUpTo(e: Estimator, n: nat): Result<seq<(Key, Json)>, EncodeError>
    requires n <= |e.params|
    decreases e, n
  {
    if n == 0 then Ok([])
    else
      match ParamsUpTo(e, n - 1)
      case Err(x) => Err(x)
      case Ok(ms) =>
        match ParamJson(e.params[n - 1].1)
        case Err(x) => Err(x)
        case Ok(j) => Ok(Put(ms, Name(e.params[n - 1].0), j))
  }

  /** Lines 104-116: `EstimatorIO.to_json` up to the final `json.dumps`, which
      fails when a value it cannot write is left in the document. */
  function EstimatorJson(e: Estimator): Result<Json, EncodeError>
    decreases e, |e.params| + 1
  {
    match ParamsUpTo(e, |e.params|)
    case Err(x) => Err(x)
    case Ok(ms) =>
      var doc := JObj([(Name("params"), JObj(ms)), (Name("__class__"), JStr(e.className))]);
      if Encodable(doc) then Ok(doc) else Err(NotSerializable)
  }

  /** Lines 112-113: the `params` dict has one entry per parameter, in order,
      under the parameter's own name. */
  lemma {:induction false} ParamsKeys(e: Estimator, n: nat)
    requires WellFormed(e) && n <= |e.params| && ParamsUpTo(e, n).Ok?
    ensures Keys(ParamsUpTo(e, n).value) == NameKeys(Names(e.params[..n]))
  {
    if n > 0 {
      var ms := ParamsUpTo(e, n - 1).value;
      ParamsKeys(e, n - 1);
      ParamsSnoc(e, n);
      KeysAppend(ms, [(Name(e.params[n - 1].0), ParamJson(e.params[n - 1].1).value)]);
      assert Names(e.params[..n - 1]) + [e.params[n - 1].0] == Names(e.params[..n]);
    }
  }

  /** Since names never repeat, each parameter's name is new to the dict
      built from the parameters before it, so its entry goes at the end. */
  lemma ParamsSnoc(e: Estimator, n: nat)
    requires WellFormed(e) && 0 < n <= |e.params| && ParamsUpTo(e, n).Ok?
    requires Keys(ParamsUpTo(e, n - 1).value) == NameKeys(Names(e.params[..n - 1]))
    ensures ParamsUpTo(e, n).value ==
      ParamsUpTo(e, n - 1).value + [(Name(e.params[n - 1].0), ParamJson(e.params[n - 1].1).value)]
  {
    var ms := ParamsUpTo(e, n - 1).value;
    var k := Name(e.params[n - 1].0);
    forall j | 0 <= j < |ms|
      ensures Keys(ms)[j] != k
    {
      assert Names(e.params)[j] != Names(e.params)[n - 1];
    }
    PutFresh(ms, k, ParamJson(e.params[n - 1].1).value);
  }

  /** Lines 112-113: entry i of the `params` dict is parameter i, with an
      estimator replaced by its document and any other value unchanged. */
  lemma {:induction false} ParamsAt(e: Estimator, n: nat, i: nat)
    requires WellFormed(e) && n <= |e.params| && ParamsUpTo(e, n).Ok? && i < n
    ensures ParamJson(e.params[i].1).Ok?
    ensures |ParamsUpTo(e, n).value| == n
    ensures ParamsUpTo(e, n).value[i] == (Name(e.params[i].0), ParamJson(e.params[i].1).value)
  {
    ParamsKeys(e, n);
    ParamsKeys(e, n - 1);
    ParamsSnoc(e, n);
    if i < n - 1 {
      ParamsAt(e, n - 1, i);
    }
  }

  /** Lines 112-113: the comprehension succeeds exactly when every entry
      does. */
  lemma {:induction false} ParamsOk(e: Estimator, n: nat)
    requires n <= |e.params|
    ensures ParamsUpTo(e, n).Ok? <==> forall i :: 0 <= i < n ==> ParamJson(e.params[i].1).Ok?
  {
    if n > 0 {
      ParamsOk(e, n - 1);
    }
  }

  /** Lines 112-113: when it fails, it fails with the error of the first
      entry that raises. */
  lemma {:induction false} ParamsFirstError(e: Estimator, n: nat, i: nat)
    requires n <= |e.params| && i < n && ParamJson(e.params[i].1).Err?
    requires forall j :: 0 <= j < i ==> ParamJson(e.params[j].1).Ok?
    ensures ParamsUpTo(e, n) == Err(ParamJson(e.params[i].1).error)
  {
    if i < n - 1 {
      ParamsFirstError(e, n - 1, i);
    } else {
      ParamsOk(e, n - 1);
    }
  }

  /** The `params` dict of the whole estimator. */
  function Params(e: Estimator): Result<seq<(Key, Json)>, EncodeError> {
    ParamsUpTo(e, |e.params|)
  }

  /** Lines 114-116: a document that encodes holds exactly `params` and
      `__class__`; `__class__` is the class name, and `params` has exactly
      the parameter names, in order, each holding its parameter: an
      estimator as its own document, any other value unchanged. */
  lemma EstimatorFields(e: Estimator, i: nat)
    requires WellFormed(e) && EstimatorJson(e).Ok? && i < |e.params|
    ensures var doc := EstimatorJson(e).value;
      doc.JObj? && Keys(doc.members) == [Name("params"), Name("__class__")] &&
      Get(doc.members, Name("__class__")) == Some(JStr(e.className)) &&
      Get(doc.members, Name("params")) == Some(JObj(Params(e).value))
    ensures Keys(Params(e).value) == NameKeys(Names(e.params))
    ensures ParamJson(e.params[i].1).Ok?
    ensures Get(Params(e).value, Name(e.params[i].0)) ==
      Some(match e.params[i].1
           case Plain(j) => j
           case Est(c) => JDoc(EstimatorJson(c).value))
  {
    EstimatorDoc(e);
    ParamEntry(e, i);
  }

  /** A document that encodes is `{'params': ..., '__class__': ...}`. */
  lemma EstimatorDoc(e: Estimator)
    requires EstimatorJson(e).Ok?
    ensures Params(e).Ok?
    ensures EstimatorJson(e).value ==
      JObj([(Name("params"), JObj(Params(e).value)), (Name("__class__"), JStr(e.className))])
  {
  }

  /** With unique names, `params` lists exactly the parameter names and
      holds each parameter under its own name. */
  lemma ParamEntry(e: Estimator, i: nat)
    requires WellFormed(e) && Params(e).Ok? && i < |e.params|
    ensures Keys(Params(e).value) == NameKeys(Names(e.params))
    ensures ParamJson(e.params[i].1).Ok?
    ensures Get(Params(e).value, Name(e.params[i].0)) == Some(ParamJson(e.params[i].1).value)
  {
    var ms := Params(e).value;
    ParamsKeys(e, |e.params|);
    assert e.params[..|e.params|] == e.params;
    ParamsAt(e, |e.params|, i);
    forall a, b | 0 <= a < b < |ms|
      ensures Keys(ms)[a] != Keys(ms)[b]
    {
      assert Names(e.params)[a] != Names(e.params)[b];
    }
    GetAt(ms, i);
  }

  /** Lines 111-116: the encoding succeeds exactly when every estimator
      parameter has `to_json` and encodes, and every other parameter is a
      value json.dumps can write. */
  lemma EstimatorOutcome(e: Estimator)
    requires WellFormed(e)
    ensures EstimatorJson(e).Ok? <==>
      forall i :: 0 <= i < |e.params| ==>
        ParamJson(e.params[i].1).Ok? && (e.params[i].1.Plain? ==> Encodable(e.params[i].1.json))
  {
    ParamsOk(e, |e.params|);
    if Params(e).Ok? {
      var ms := Params(e).value;
      var doc := JObj([(Name("params"), JObj(ms)), (Name("__class__"), JStr(e.className))]);
      ParamsEncodable(e);
      assert Encodable(doc) <==> Encodable(JObj(ms)) by {
        assert doc.members[0].1 == JObj(ms);
        assert doc.members[1].1 == JStr(e.className);
      }
    }
  }

  /** A `params` dict is writable exactly when every plain parameter is;
      the documents of estimator parameters are strings already. */
  lemma ParamsEncodable(e: Estimator)
    requires WellFormed(e) && Params(e).Ok?
    ensures Encodable(JObj(Params(e).value)) <==>
      forall i :: 0 <= i < |e.params| ==> e.params[i].1.Plain? ==> Encodable(e.params[i].1.json)
  {
    var ms := Params(e).value;
    forall i | 0 <= i < |e.params|
      ensures |ms| == |e.params|
      ensures Encodable(ms[i].1) <==> (e.params[i].1.Plain? ==> Encodable(e.params[i].1.json))
    {
      ParamsAt(e, |e.params|, i);
    }
  }

  /** `self.__dict__.get(value, None)` */
  function GetField(e: Estimator, name: string): Value {
    if name in e.fields then e.fields[name] else Plain(JNull)
  }

  /** Lines 118-121: `name in estimator`. */
  function Contains(e: Estimator, name: string): (r: bool)
    ensures r <==> name in e.fields && e.fields[name] != Plain(JNull)
  {
    GetField(e, name) != Plain(JNull)
  }

  /** Lines 118-121: the test is `is None`, not truthiness: an attribute
      holding a falsy value such as 0, False, "" or [] is contained; a
      missing one and one holding None are not. */
  lemma ContainsCases(e: Estimator, name: string)
    ensures name !in e.fields ==> !Contains(e, name)
    ensures name in e.fields && e.fields[name] == Plain(JNull) ==> !Contains(e, name)
    ensures name in e.fields && e.fields[name] in {Plain(JInt(0)), Plain(JBool(false)), Plain(JStr("")), Plain(JArr([]))}
      ==> Contains(e, name)
  {
  }
}
