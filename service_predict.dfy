/**
  Result assembly of the inference service (model_service/src/predict.py).

  The fitted pipeline's predict and predict_proba calls are taken as an
  oracle, `classify`, that returns the class index and the probability row
  for the request's features or raises. From those, the target names and the
  feature names of the model configuration, `MakePrediction` builds the
  response dict by index lookups and two dict comprehensions; nothing in it
  computes on the probability or feature values.
 */
module ServicePredict {
  import opened PyJson

  /** The two name lists of the model configuration that the assembly reads. */
  datatype Config = Config(featureNames: seq<string>, targetNames: seq<string>)

  /** `int(prediction[0])` and `prediction_proba[0]` */
  datatype Classification = Classification(classIndex: int, probabilities: seq<real>)

  const ResultKeys: set<string> := {"prediction_index", "prediction_name", "probabilities", "features"}

  /**
    The exception, if any, raised by entry i of
    `{names[i]: float(v) for i, v in enumerate(values)}`: the key
    `names[i]` is evaluated first, then `float(v)`.
   */
  function EntryError(names: seq<string>, i: nat, value: Json, parseFloat: string -> Option<real>): Option<PyError> {
    if i >= |names| then Some(IndexError)
    else match ToFloat(value, parseFloat)
      case Err(e) => Some(e)
      case Ok(_) => None
  }

  /** The value entry i stores when it does not raise: `float(v)`. */
  function EntryValue(value: Json, parseFloat: string -> Option<real>): Json {
    match ToFloat(value, parseFloat)
    case Ok(x) => JFloat(x)
    case Err(_) => JNull
  }

  /**
    `{names[i]: float(values[i]) for i in range(len(values))}`: entries are
    evaluated left to right and the first one that raises ends the
    comprehension. Its properties are the lemmas below.
   */
  function FloatDict(names: seq<string>, values: seq<Json>, parseFloat: string -> Option<real>): Result<map<string, Json>>
    decreases |values|
  {
    if values == [] then Ok(map[])
    else
      var n := |values| - 1;
      match FloatDict(names, values[..n], parseFloat)
      case Err(e) => Err(e)
      case Ok(m) =>
        match EntryError(names, n, values[n], parseFloat)
        case Some(e) => Err(e)
        case None => Ok(m[names[n] := EntryValue(values[n], parseFloat)])
  }

  /** The comprehension succeeds iff no entry raises. */
  lemma {:induction false} FloatDictSucceeds(names: seq<string>, values: seq<Json>, parseFloat: string -> Option<real>)
    decreases |values|
    ensures FloatDict(names, values, parseFloat).Ok?
            <==> forall i :: 0 <= i < |values| ==> EntryError(names, i, values[i], parseFloat).None?
  {
    if values != [] {
      var n := |values| - 1;
      FloatDictSucceeds(names, values[..n], parseFloat);
      assert forall i :: 0 <= i < n ==> values[..n][i] == values[i];
    }
  }

  /** When it raises, the exception is that of the first entry that raises. */
  lemma {:induction false} FloatDictFirstError(names: seq<string>, values: seq<Json>, parseFloat: string -> Option<real>)
    decreases |values|
    requires FloatDict(names, values, parseFloat).Err?
    ensures exists i :: 0 <= i < |values|
                        && EntryError(names, i, values[i], parseFloat) == Some(FloatDict(names, values, parseFloat).error)
                        && forall j :: 0 <= j < i ==> EntryError(names, j, values[j], parseFloat).None?
  {
    var n := |values| - 1;
    var prefix := values[..n];
    assert forall i :: 0 <= i < n ==> prefix[i] == values[i];
    if FloatDict(names, prefix, parseFloat).Err? {
      FloatDictFirstError(names, prefix, parseFloat);
      var i :| 0 <= i < |prefix| && EntryError(names, i, prefix[i], parseFloat) == Some(FloatDict(names, prefix, parseFloat).error)
               && forall j :: 0 <= j < i ==> EntryError(names, j, prefix[j], parseFloat).None?;
      assert EntryError(names, i, values[i], parseFloat) == Some(FloatDict(names, values, parseFloat).error);
    } else {
      FloatDictSucceeds(names, prefix, parseFloat);
      assert EntryError(names, n, values[n], parseFloat) == Some(FloatDict(names, values, parseFloat).error);
    }
  }

  /** No position after i and before n carries the name at i: a dict comprehension keeps position i's value. */
  predicate LastOccurrence(names: seq<string>, n: nat, i: nat)
    requires i < n <= |names|
  {
    forall j :: i < j < n ==> names[j] != names[i]
  }

  /** A successful comprehension has one key per name it used. */
  lemma {:induction false} FloatDictKeys(names: seq<string>, values: seq<Json>, parseFloat: string -> Option<real>)
    decreases |values|
    requires FloatDict(names, values, parseFloat).Ok?
    ensures |values| <= |names|
    ensures FloatDict(names, values, parseFloat).value.Keys == set i | 0 <= i < |values| :: names[i]
  {
    if values != [] {
      var n := |values| - 1;
      FloatDictKeys(names, values[..n], parseFloat);
      assert (set i | 0 <= i < |values| :: names[i]) == (set i | 0 <= i < n :: names[i]) + {names[n]};
    }
  }

  /** Each name maps to the float of the last position that carries it. */
  lemma {:induction false} FloatDictValues(names: seq<string>, values: seq<Json>, parseFloat: string -> Option<real>)
    decreases |values|
    requires FloatDict(names, values, parseFloat).Ok?
    ensures |values| <= |names|
    ensures forall i :: 0 <= i < |values| && LastOccurrence(names, |values|, i)
                        ==> names[i] in FloatDict(names, values, parseFloat).value
                            && FloatDict(names, values, parseFloat).value[names[i]] == EntryValue(values[i], parseFloat)
  {
    if values != [] {
      var n := |values| - 1;
      var prefix := values[..n];
      FloatDictValues(names, prefix, parseFloat);
      var m := FloatDict(names, prefix, parseFloat).value;
      var r := FloatDict(names, values, parseFloat).value;
      assert EntryError(names, n, values[n], parseFloat).None?;
      assert r == m[names[n] := EntryValue(values[n], parseFloat)];
      forall i | 0 <= i < |values| && LastOccurrence(names, |values|, i)
        ensures names[i] in r && r[names[i]] == EntryValue(values[i], parseFloat)
      {
        if i < n {
          assert names[n] != names[i];
          assert LastOccurrence(names, n, i);
          assert prefix[i] == values[i];
        }
      }
    }
  }

  /** The probability row as the values `float(prob)` reads; a numpy float always converts. */
  lemma ProbabilityRowConverts(row: seq<real>, parseFloat: string -> Option<real>)
    ensures forall i :: 0 <= i < |row| ==> ToFloat(FloatValues(row)[i], parseFloat) == Ok(row[i])
  {
  }

  /**
    `make_prediction(pipeline_model, features, config)`: the result dict, or
    the exception it raises (an error of the classifier, an out-of-range
    class index, a probability row longer than the target names, more
    features than feature names, or a feature `float()` rejects). When it
    succeeds and what the two inner dicts hold are the lemmas below.
   */
  function MakePrediction(features: seq<Json>, config: Config, classify: seq<Json> -> Result<Classification>,
                          parseFloat: string -> Option<real>): (r: Result<Json>)
    ensures classify(features).Err? ==> r == Err(classify(features).error)
    ensures classify(features).Ok? && PyIndex(config.targetNames, classify(features).value.classIndex).Err?
            ==> r == Err(IndexError)
    ensures r.Ok? ==> r.value.JObject? && r.value.fields.Keys == ResultKeys
    ensures r.Ok? ==>
              var c := classify(features).value;
              && r.value.fields["prediction_index"] == JInt(c.classIndex)
              && r.value.fields["prediction_name"] == JStr(PyIndex(config.targetNames, c.classIndex).value)
              && r.value.fields["probabilities"].JObject?
              && FloatDict(config.targetNames, FloatValues(c.probabilities), parseFloat) == Ok(r.value.fields["probabilities"].fields)
              && r.value.fields["features"].JObject?
              && FloatDict(config.featureNames, features, parseFloat) == Ok(r.value.fields["features"].fields)
  {
    match classify(features)
    case Err(e) => Err(e)
    case Ok(c) =>
      match PyIndex(config.targetNames, c.classIndex)
      case Err(e) => Err(e)
      case Ok(name) =>
        match FloatDict(config.targetNames, FloatValues(c.probabilities), parseFloat)
        case Err(e) => Err(e)
        case Ok(probabilities) =>
          match FloatDict(config.featureNames, features, parseFloat)
          case Err(e) => Err(e)
          case Ok(featureMap) =>
            Ok(JObject(map[
              "prediction_index" := JInt(c.classIndex),
              "prediction_name" := JStr(name),
              "probabilities" := JObject(probabilities),
              "features" := JObject(featureMap)]))
  }

  /**
    The assembly succeeds iff the classifier answers, its class index is a
    valid Python index into the target names, the probability row fits the
    target names, the features fit the feature names and every feature
    converts.
   */
  lemma MakePredictionSucceeds(features: seq<Json>, config: Config, classify: seq<Json> -> Result<Classification>,
                               parseFloat: string -> Option<real>)
    ensures MakePrediction(features, config, classify, parseFloat).Ok? <==>
              && classify(features).Ok?
              && PyIndex(config.targetNames, classify(features).value.classIndex).Ok?
              && |classify(features).value.probabilities| <= |config.targetNames|
              && |features| <= |config.featureNames|
              && forall i :: 0 <= i < |features| ==> ToFloat(features[i], parseFloat).Ok?
  {
    if classify(features).Ok? {
      var row := classify(features).value.probabilities;
      ProbabilityRowConverts(row, parseFloat);
      FloatDictSucceeds(config.targetNames, FloatValues(row), parseFloat);
      FloatDictSucceeds(config.featureNames, features, parseFloat);
    }
  }

  /**
    The probabilities dict of a result is keyed by the target names the row
    reaches, and each name holds the probability of its last position.
   */
  lemma ResultProbabilities(features: seq<Json>, config: Config, classify: seq<Json> -> Result<Classification>,
                            parseFloat: string -> Option<real>)
    requires MakePrediction(features, config, classify, parseFloat).Ok?
    ensures var r := MakePrediction(features, config, classify, parseFloat).value;
            var row := classify(features).value.probabilities;
            var names := config.targetNames;
            && r.fields["probabilities"].JObject?
            && r.fields["probabilities"].fields.Keys == (set i | 0 <= i < |row| :: names[i])
            && forall i :: 0 <= i < |row| && LastOccurrence(names, |row|, i)
                           ==> r.fields["probabilities"].fields[names[i]] == JFloat(row[i])
  {
    var row := classify(features).value.probabilities;
    ProbabilityRowConverts(row, parseFloat);
    FloatDictKeys(config.targetNames, FloatValues(row), parseFloat);
    FloatDictValues(config.targetNames, FloatValues(row), parseFloat);
  }

  /**
    The features dict of a result is keyed by the feature names the request
    reaches, and each name holds `float()` of its last position.
   */
  lemma ResultFeatures(features: seq<Json>, config: Config, classify: seq<Json> -> Result<Classification>,
                       parseFloat: string -> Option<real>)
    requires MakePrediction(features, config, classify, parseFloat).Ok?
    ensures var r := MakePrediction(features, config, classify, parseFloat).value;
            var names := config.featureNames;
            && r.fields["features"].JObject?
            && r.fields["features"].fields.Keys == (set i | 0 <= i < |features| :: names[i])
            && forall i :: 0 <= i < |features| && LastOccurrence(names, |features|, i)
                           ==> r.fields["features"].fields[names[i]] == EntryValue(features[i], parseFloat)
  {
    FloatDictKeys(config.featureNames, features, parseFloat);
    FloatDictValues(config.featureNames, features, parseFloat);
  }
}
