/**
  POST /predict of the inference service (model_service/src/app.py).

  An ordered chain of guards over the request body, then the result
  assembly; any exception raised on the way, including one from the guards
  themselves, is caught and answered with 500 and its message. The route
  does not check that the features are numbers: a non-numeric feature is
  rejected only when the classifier or `float()` raises.
 */
module ServiceApp {
  import opened PyJson
  import ServicePredict

  const InvalidFormatMessage := "Formato inválido: esperado JSON com chave \"features\"."
  const NotAListMessage := "As features devem ser uma lista."
  const NotFourMessage := "Esperado um vetor com exatamente 4 features."

  datatype ServiceReply =
    | Ok200(body: Json)
    | BadRequest400(message: string)
      /** `{'error': str(e)}` for the exception caught */
    | Error500(error: PyError)

  function Code(r: ServiceReply): int {
    match r
    case Ok200(_) => 200
    case BadRequest400(_) => 400
    case Error500(_) => 500
  }

  /**
    The route. `data` is `request.get_json(force=True, silent=True)`. None
    stands for a body that does not parse as JSON, which `silent=True` turns
    into None; a literal `null` parses to `Some(JNull)`. The guards treat the
    two alike.
   */
  function Predict(data: Option<Json>, config: ServicePredict.Config,
                   classify: seq<Json> -> Result<ServicePredict.Classification>,
                   parseFloat: string -> Option<real>): (r: ServiceReply)
    ensures data.None? || !Truthy(data.value) ==> r == BadRequest400(InvalidFormatMessage)
    ensures data.Some? && data.value.JObject? && "features" !in data.value.fields ==> r == BadRequest400(InvalidFormatMessage)
    ensures (data.Some? && data.value.JObject? && "features" in data.value.fields
             && !data.value.fields["features"].JArray?) ==> r == BadRequest400(NotAListMessage)
    ensures HasFeatureList(data) && |FeatureList(data)| != 4 ==> r == BadRequest400(NotFourMessage)
    ensures HasFeatureList(data) && |FeatureList(data)| == 4 ==>
              r == match ServicePredict.MakePrediction(FeatureList(data), config, classify, parseFloat)
                   case Ok(result) => Ok200(result)
                   case Err(e) => Error500(e)
    ensures r.Ok200? ==> HasFeatureList(data) && |FeatureList(data)| == 4
    // there is no numeric check: an element `float()` rejects surfaces as a caught exception
    ensures (HasFeatureList(data) && |FeatureList(data)| == 4
             && exists k :: 0 <= k < 4 && ToFloat(FeatureList(data)[k], parseFloat).Err?) ==> r.Error500?
    // truthy bodies that are not dicts: `in` or the subscription raises TypeError, or "features" is absent
    ensures data.Some? && Truthy(data.value) && !data.value.JObject? ==>
              r == Error500(TypeError) || r == BadRequest400(InvalidFormatMessage)
    // a truthy string or list body is searched for "features"; only one containing it reaches the subscription
    ensures data.Some? && data.value.JStr? && data.value.s != "" ==>
              r == if IsSubstring("features", data.value.s) then Error500(TypeError)
                   else BadRequest400(InvalidFormatMessage)
    ensures data.Some? && data.value.JArray? && data.value.items != [] ==>
              r == if JStr("features") in data.value.items then Error500(TypeError)
                   else BadRequest400(InvalidFormatMessage)
    ensures data.Some? && (data.value.JBool? || data.value.JInt? || data.value.JFloat?) && Truthy(data.value) ==>
              r == Error500(TypeError)
  {
    if data.None? || !Truthy(data.value) then BadRequest400(InvalidFormatMessage)
    else
      match Contains(data.value, "features")
      case Err(e) => Error500(e)
      case Ok(present) =>
        if !present then BadRequest400(InvalidFormatMessage)
        else
          match GetItem(data.value, "features")
          case Err(e) => Error500(e)
          case Ok(features) =>
            if !features.JArray? then BadRequest400(NotAListMessage)
            else if |features.items| != 4 then BadRequest400(NotFourMessage)
            else
              ServicePredict.MakePredictionSucceeds(features.items, config, classify, parseFloat);
              match ServicePredict.MakePrediction(features.items, config, classify, parseFloat)
              case Ok(result) => Ok200(result)
              case Err(e) => Error500(e)
  }
}
