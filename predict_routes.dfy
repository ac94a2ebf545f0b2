/**
  The gateway's prediction routes (api/src/routes/predict_routes.py).

  POST /api/predict validates the body, derives a cache key from the coerced
  feature list, and either answers from the cache or calls the inference
  service and then saves a record, fills the cache and bumps the prediction
  counter, in that order. The three stores (the Redis cache, the Mongo record
  collection and the Redis counter) are the fields of a `Gateway` object; each
  store call may fail, and a failure is swallowed the way the service modules
  swallow it (a miss, no id, no change).

  The read routes only map what the record store returned to an HTTP status.
 */
module PredictRoutes {
  import opened PyJson

  const MissingFeaturesMessage := "Campo features é obrigatório"
  const NotFourListMessage := "Features deve ser uma lista com 4 valores numéricos"
  const NotNumericMessage := "Todas as features devem ser números"
  const NotFoundMessage := "Predição não encontrada"
  const StatsErrorMessage := "Erro ao buscar estatísticas"

  /** What POST /api/predict answers. */
  datatype Reply =
    | BadRequest(message: string)
      /** An exception the handler does not catch, answered by the app's 500 handler. */
    | InternalError
      /** 'Erro no modelo: {error}' */
    | ModelError(error: Json)
    | FromCache(result: Json)
    | FromModel(result: Json, predictionId: Option<string>)

  function StatusCode(r: Reply): int {
    match r
    case BadRequest(_) => 400
    case InternalError => 500
    case ModelError(_) => 500
    case FromCache(_) => 200
    case FromModel(_, _) => 200
  }

  /** A status code with a JSON body, for the read routes. */
  datatype Response = Response(code: int, body: Json)

  /** The pair `(result, error)` that the inference client returns. */
  datatype InferenceReply = InferenceReply(result: Json, error: Json)

  /** Which of the store calls of one request fail (and are swallowed). */
  datatype Faults = Faults(cacheGetFails: bool, saveFails: bool, cacheSetFails: bool, incrementFails: bool)

  /** A document of the record store; its timestamp is not modelled. */
  datatype Record = Record(id: string, features: seq<real>, predictionIndex: Json, predictionName: Json, probabilities: Json)

  /** An external call the handler makes, in the order it makes it. */
  datatype Call =
    | GetCached(key: string)
    | Predict(features: seq<real>)
    | Save(features: seq<real>, result: Json)
    | SetCached(key: string, result: Json)
    | Increment

  datatype Validation = Accept(features: seq<real>) | Reject(reply: Reply)

  /** `[float(f) for f in items]`: stops at the first element that raises. */
  function CoerceAll(items: seq<Json>, parseFloat: string -> Option<real>): (r: Result<seq<real>>)
    ensures r.Ok? <==> forall i :: 0 <= i < |items| ==> ToFloat(items[i], parseFloat).Ok?
    ensures r.Ok? ==> |r.value| == |items|
    ensures r.Ok? ==> forall i :: 0 <= i < |items| ==> ToFloat(items[i], parseFloat) == Ok(r.value[i])
    ensures r.Err? ==> exists i :: 0 <= i < |items| && ToFloat(items[i], parseFloat) == Err(r.error)
                                && forall j :: 0 <= j < i ==> ToFloat(items[j], parseFloat).Ok?
  {
    if items == [] then Ok([])
    else
      match ToFloat(items[0], parseFloat)
      case Err(e) => Err(e)
      case Ok(x) =>
        match CoerceAll(items[1..], parseFloat)
        case Err(e) =>
          ghost var i :| 0 <= i < |items[1..]| && ToFloat(items[1..][i], parseFloat) == Err(e)
                         && forall j :: 0 <= j < i ==> ToFloat(items[1..][j], parseFloat).Ok?;
          assert ToFloat(items[i + 1], parseFloat) == Err(e);
          assert forall j :: 0 <= j < i + 1 ==> ToFloat(items[j], parseFloat).Ok? by {
            forall j | 0 <= j < i + 1 ensures ToFloat(items[j], parseFloat).Ok? {
              if j > 0 { assert items[j] == items[1..][j - 1]; }
            }
          }
          Err(e)
        case Ok(xs) =>
          assert forall i :: 1 <= i < |items| ==> items[i] == items[1..][i - 1];
          Ok([x] + xs)
  }

  /**
    The guard chain of `make_prediction` before any store is touched. `body`
    is `request.json`; None stands for a body that decodes to None, and
    `Some(JNull)` is treated the same way (both are falsy). A truthy body that is
    not a dict reaches `'features' in ...` or `...['features']` and raises,
    which the handler does not catch.
   */
  function ValidateRequest(body: Option<Json>, parseFloat: string -> Option<real>): (v: Validation)
    ensures v.Accept? ==> |v.features| == 4 && HasFeatureList(body) && |FeatureList(body)| == 4
    ensures v.Accept? ==> forall i :: 0 <= i < 4 ==> ToFloat(FeatureList(body)[i], parseFloat) == Ok(v.features[i])
    ensures (HasFeatureList(body) && |FeatureList(body)| == 4
             && forall i :: 0 <= i < 4 ==> ToFloat(FeatureList(body)[i], parseFloat).Ok?) ==> v.Accept?
    ensures body.None? || !Truthy(body.value) ==> v == Reject(BadRequest(MissingFeaturesMessage))
    ensures body.Some? && body.value.JObject? && "features" !in body.value.fields
            ==> v == Reject(BadRequest(MissingFeaturesMessage))
    ensures body.Some? && body.value.JObject? && "features" in body.value.fields
            && !(body.value.fields["features"].JArray? && |body.value.fields["features"].items| == 4)
            ==> v == Reject(BadRequest(NotFourListMessage))
    ensures HasFeatureList(body) && |FeatureList(body)| == 4
            && (exists i :: 0 <= i < 4 && ToFloat(FeatureList(body)[i], parseFloat).Err?)
            ==> v == Reject(BadRequest(NotNumericMessage))
    ensures v.Reject? ==> v.reply.BadRequest? || v.reply.InternalError?
    // only a truthy body that is not a dict is answered 500 rather than 400
    ensures v.Reject? && StatusCode(v.reply) == 500 ==> body.Some? && Truthy(body.value) && !body.value.JObject?
    // a truthy string or list body is searched for "features"; a truthy bool or number makes `in` raise
    ensures body.Some? && body.value.JStr? && body.value.s != "" ==>
              v == if IsSubstring("features", body.value.s) then Reject(InternalError)
                   else Reject(BadRequest(MissingFeaturesMessage))
    ensures body.Some? && body.value.JArray? && body.value.items != [] ==>
              v == if JStr("features") in body.value.items then Reject(InternalError)
                   else Reject(BadRequest(MissingFeaturesMessage))
    ensures body.Some? && (body.value.JBool? || body.value.JInt? || body.value.JFloat?) && Truthy(body.value) ==>
              v == Reject(InternalError)
  {
    if body.None? || !Truthy(body.value) then Reject(BadRequest(MissingFeaturesMessage))
    else
      match Contains(body.value, "features")
      case Err(_) => Reject(InternalError)
      case Ok(present) =>
        if !present then Reject(BadRequest(MissingFeaturesMessage))
        else
          match GetItem(body.value, "features")
          case Err(_) => Reject(InternalError)
          case Ok(features) =>
            if !features.JArray? || |features.items| != 4 then Reject(BadRequest(NotFourListMessage))
            else
              match CoerceAll(features.items, parseFloat)
              case Err(_) => Reject(BadRequest(NotNumericMessage))
              case Ok(fs) => Accept(fs)
  }

  /**
    The document `save_prediction` builds: features plus three entries of the
    result. Taking an entry of anything but a dict holding all three raises,
    and the store call then returns None.
   */
  function NewRecord(id: string, features: seq<real>, result: Json): (r: Option<Record>)
    ensures r.Some? <==> result.JObject? && "prediction_index" in result.fields
                         && "prediction_name" in result.fields && "probabilities" in result.fields
    ensures r.Some? ==> r.value.id == id && r.value.features == features
                        && r.value.predictionIndex == result.fields["prediction_index"]
                        && r.value.predictionName == result.fields["prediction_name"]
                        && r.value.probabilities == result.fields["probabilities"]
  {
    match result
    case JObject(f) =>
      if "prediction_index" in f && "prediction_name" in f && "probabilities" in f
      then Some(Record(id, features, f["prediction_index"], f["prediction_name"], f["probabilities"]))
      else None
    case _ => None
  }

  /** What `get_cached_prediction` returns: the cached value, or None on a missing key or a failed call. */
  function CachedValue(cache: map<string, Json>, key: string, fails: bool): Json {
    if !fails && key in cache then cache[key] else JNull
  }

  function Bump(fails: bool): int {
    if fails then 0 else 1
  }

  /** The gateway's view of its three stores, plus a ghost trace of the calls made to them and to inference. */
  class Gateway {
    /** `generate_features_key`: MD5 of the JSON text of the coerced list; only its determinism is used. */
    const featuresKey: seq<real> -> string
    var cache: map<string, Json>
    var records: seq<Record>
    var counter: int
    ghost var calls: seq<Call>

    /** Every record the handler writes holds a validated 4-feature vector. */
    ghost predicate Valid()
      reads this
    {
      forall r :: r in records ==> |r.features| == 4
    }

    constructor (featuresKey: seq<real> -> string, cache: map<string, Json>, records: seq<Record>, counter: int)
      requires forall r :: r in records ==> |r.features| == 4
      ensures Valid()
      ensures this.featuresKey == featuresKey && this.cache == cache && this.records == records
      ensures this.counter == counter && calls == []
    {
      this.featuresKey := featuresKey;
      this.cache := cache;
      this.records := records;
      this.counter := counter;
      calls := [];
    }

    /** `get_cached_prediction(key)` */
    method GetCachedPrediction(key: string, fails: bool) returns (cached: Json)
      modifies this`calls
      ensures calls == old(calls) + [GetCached(key)]
      ensures cached == CachedValue(cache, key, fails)
    {
      calls := calls + [GetCached(key)];
      cached := CachedValue(cache, key, fails);
    }

    /** `save_prediction(features, result)`: the new document's id, or None when the insert raised. */
    method SavePrediction(features: seq<real>, result: Json, newId: string, fails: bool) returns (id: Option<string>)
      modifies this`records, this`calls
      ensures calls == old(calls) + [Save(features, result)]
      ensures id == (if !fails && NewRecord(newId, features, result).Some? then Some(newId) else None)
      ensures records == old(records) + (if id.Some? then [NewRecord(newId, features, result).value] else [])
      ensures old(Valid()) && |features| == 4 ==> Valid()
    {
      calls := calls + [Save(features, result)];
      var doc := NewRecord(newId, features, result);
      if !fails && doc.Some? {
        records := records + [doc.value];
        id := Some(newId);
      } else {
        id := None;
      }
    }

    /** `cache_prediction(key, result)` */
    method CachePrediction(key: string, result: Json, fails: bool) returns (ok: bool)
      modifies this`cache, this`calls
      ensures calls == old(calls) + [SetCached(key, result)]
      ensures ok == !fails
      ensures cache == if fails then old(cache) else old(cache)[key := result]
    {
      calls := calls + [SetCached(key, result)];
      ok := !fails;
      if ok {
        cache := cache[key := result];
      }
    }

    /** `increment_prediction_count()`: the new count, or None when the call failed. */
    method IncrementPredictionCount(fails: bool) returns (count: Option<int>)
      modifies this`counter, this`calls
      ensures calls == old(calls) + [Increment]
      ensures counter == old(counter) + Bump(fails)
      ensures count == if fails then None else Some(counter)
    {
      calls := calls + [Increment];
      if fails {
        count := None;
      } else {
        counter := counter + 1;
        count := Some(counter);
      }
    }

    /**
      POST /api/predict. `predict` is the inference client, `newId` the id
      the record store would assign, `faults` which store calls fail.
     */
    method MakePrediction(body: Option<Json>, parseFloat: string -> Option<real>,
                          predict: seq<real> -> InferenceReply, newId: string, faults: Faults)
      returns (reply: Reply)
      requires Valid()
      modifies this`cache, this`records, this`counter, this`calls
      ensures Valid()
      // a rejected request touches no store and calls nothing
      ensures ValidateRequest(body, parseFloat).Reject? ==>
                reply == ValidateRequest(body, parseFloat).reply
                && cache == old(cache) && records == old(records) && counter == old(counter) && calls == old(calls)
      // a hit answers from the cache and only bumps the counter
      ensures ValidateRequest(body, parseFloat).Accept? ==>
                var fs := ValidateRequest(body, parseFloat).features;
                var key := featuresKey(fs);
                var cached := CachedValue(old(cache), key, faults.cacheGetFails);
                Truthy(cached) ==>
                  reply == FromCache(cached)
                  && cache == old(cache) && records == old(records)
                  && counter == old(counter) + Bump(faults.incrementFails)
                  && calls == old(calls) + [GetCached(key), Increment]
      // a miss whose inference reports an error changes no store
      ensures ValidateRequest(body, parseFloat).Accept? ==>
                var fs := ValidateRequest(body, parseFloat).features;
                var key := featuresKey(fs);
                var cached := CachedValue(old(cache), key, faults.cacheGetFails);
                !Truthy(cached) && Truthy(predict(fs).error) ==>
                  reply == ModelError(predict(fs).error)
                  && cache == old(cache) && records == old(records) && counter == old(counter)
                  && calls == old(calls) + [GetCached(key), Predict(fs)]
      // any other miss saves, then caches, then counts
      ensures ValidateRequest(body, parseFloat).Accept? ==>
                var fs := ValidateRequest(body, parseFloat).features;
                var key := featuresKey(fs);
                var cached := CachedValue(old(cache), key, faults.cacheGetFails);
                var result := predict(fs).result;
                var saved := !faults.saveFails && NewRecord(newId, fs, result).Some?;
                !Truthy(cached) && !Truthy(predict(fs).error) ==>
                  reply == FromModel(result, if saved then Some(newId) else None)
                  && records == old(records) + (if saved then [NewRecord(newId, fs, result).value] else [])
                  && cache == (if faults.cacheSetFails then old(cache) else old(cache)[key := result])
                  && counter == old(counter) + Bump(faults.incrementFails)
                  && calls == old(calls) + [GetCached(key), Predict(fs), Save(fs, result), SetCached(key, result), Increment]
    {
      var validation := ValidateRequest(body, parseFloat);
      if validation.Reject? {
        return validation.reply;
      }
      var features := validation.features;
      var key := featuresKey(features);
      var cached := GetCachedPrediction(key, faults.cacheGetFails);
      if Truthy(cached) {
        var _ := IncrementPredictionCount(faults.incrementFails);
        return FromCache(cached);
      }
      calls := calls + [Predict(features)];
      var inference := predict(features);
      if Truthy(inference.error) {
        return ModelError(inference.error);
      }
      var predictionId := SavePrediction(features, inference.result, newId, faults.saveFails);
      var _ := CachePrediction(key, inference.result, faults.cacheSetFails);
      var _ := IncrementPredictionCount(faults.incrementFails);
      return FromModel(inference.result, predictionId);
    }
  }

  /** The result a successful reply carries. */
  function ServedResult(r: Reply): Json {
    match r
    case FromCache(result) => result
    case FromModel(result, _) => result
    case _ => JNull
  }

  /**
    Two requests whose feature lists coerce to the same reals (say 5 and
    "5.0"): once the first has been answered and, on a miss, cached, the
    second is answered from the cache with the same result and makes no
    inference call. Floats are reals here, so -0.0 and 0.0 are one value,
    although the JSON text the program hashes tells them apart.
   */
  method RepeatedRequestIsServedFromCache(g: Gateway, body: Option<Json>, again: Option<Json>,
                                          parseFloat: string -> Option<real>, predict: seq<real> -> InferenceReply,
                                          firstId: string, secondId: string, first: Faults, second: Faults)
    returns (reply1: Reply, reply2: Reply)
    requires g.Valid()
    requires ValidateRequest(body, parseFloat).Accept?
    requires ValidateRequest(again, parseFloat) == ValidateRequest(body, parseFloat)
    // the first request is a hit, or a miss whose result is truthy and gets cached
    requires var fs := ValidateRequest(body, parseFloat).features;
             || Truthy(CachedValue(g.cache, g.featuresKey(fs), first.cacheGetFails))
             || (Truthy(predict(fs).result) && !Truthy(predict(fs).error) && !first.cacheSetFails)
    requires !second.cacheGetFails
    modifies g
    ensures g.Valid()
    ensures reply1.FromCache? || reply1.FromModel?
    ensures reply2 == FromCache(ServedResult(reply1))
    ensures var fs := ValidateRequest(body, parseFloat).features;
            var key := g.featuresKey(fs);
            var result := predict(fs).result;
            g.calls == old(g.calls)
                       + (if Truthy(CachedValue(old(g.cache), key, first.cacheGetFails)) then [GetCached(key), Increment]
                          else [GetCached(key), Predict(fs), Save(fs, result), SetCached(key, result), Increment])
                       + [GetCached(key), Increment]
  {
    reply1 := g.MakePrediction(body, parseFloat, predict, firstId, first);
    reply2 := g.MakePrediction(again, parseFloat, predict, secondId, second);
  }

  /** GET /api/predictions: `fetched` is what `get_predictions` returned ([] when the store failed). */
  function ListPredictions(fetched: seq<Json>): (r: Response)
    ensures r.code == 200
    ensures r.body.JObject? && r.body.fields.Keys == {"predictions", "count"}
    ensures r.body.fields["predictions"] == JArray(fetched)
    ensures r.body.fields["count"] == JInt(|r.body.fields["predictions"].items|)
  {
    Response(200, JObject(map["predictions" := JArray(fetched), "count" := JInt(|fetched|)]))
  }

  /** GET /api/predictions/<id>: `found` is what `get_prediction_by_id` returned (None when absent or on failure). */
  function PredictionDetail(found: Json): (r: Response)
    ensures r.code == 404 <==> !Truthy(found)
    ensures r.code == 404 || r.code == 200
    ensures r.code == 200 ==> r.body == found
    ensures r.code == 404 ==> r.body == ErrorBody(NotFoundMessage)
  {
    if !Truthy(found) then Response(404, ErrorBody(NotFoundMessage)) else Response(200, found)
  }

  /** GET /api/stats: `stats` is what `get_stats` returned (None on failure). */
  function Statistics(stats: Json): (r: Response)
    ensures r.code == 500 <==> !Truthy(stats)
    ensures r.code == 500 || r.code == 200
    ensures r.code == 200 ==> r.body == stats
    ensures r.code == 500 ==> r.body == ErrorBody(StatsErrorMessage)
  {
    if !Truthy(stats) then Response(500, ErrorBody(StatsErrorMessage)) else Response(200, stats)
  }
}
