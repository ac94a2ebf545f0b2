/**
  How the two services fit together. On a cache miss the gateway sends the
  inference service `{"features": fs}`, where fs is the list of floats its own
  guards produced; the service's guards then never reject it, and the
  features dict of the service's answer holds exactly those floats.
  The HTTP transport between the two (api/src/services/ml_service.py) is not
  part of this model.
 */
module Pipeline {
  import opened PyJson
  import PredictRoutes
  import ServicePredict
  import ServiceApp

  /** The body the inference client posts for the coerced features. */
  function ForwardedBody(features: seq<real>): Json {
    JObject(map["features" := JArray(FloatValues(features))])
  }

  lemma ForwardedRequestPassesServiceGuards(body: Option<Json>, parseFloat: string -> Option<real>,
                                            config: ServicePredict.Config,
                                            classify: seq<Json> -> Result<ServicePredict.Classification>)
    requires PredictRoutes.ValidateRequest(body, parseFloat).Accept?
    ensures var fs := PredictRoutes.ValidateRequest(body, parseFloat).features;
            var reply := ServiceApp.Predict(Some(ForwardedBody(fs)), config, classify, parseFloat);
            && ServiceApp.Code(reply) != 400
            && (reply.Ok200? <==>
                  && classify(FloatValues(fs)).Ok?
                  && PyIndex(config.targetNames, classify(FloatValues(fs)).value.classIndex).Ok?
                  && |classify(FloatValues(fs)).value.probabilities| <= |config.targetNames|
                  && 4 <= |config.featureNames|)
            && (reply.Ok200? ==>
                  && reply.body.JObject? && "features" in reply.body.fields
                  && reply.body.fields["features"].JObject?
                  && forall i :: 0 <= i < 4 && ServicePredict.LastOccurrence(config.featureNames, 4, i)
                                 ==> && config.featureNames[i] in reply.body.fields["features"].fields
                                     && reply.body.fields["features"].fields[config.featureNames[i]] == JFloat(fs[i]))
  {
    var fs := PredictRoutes.ValidateRequest(body, parseFloat).features;
    var sent := Some(ForwardedBody(fs));
    assert HasFeatureList(sent) && FeatureList(sent) == FloatValues(fs);
    forall i | 0 <= i < 4 ensures ServicePredict.EntryValue(FloatValues(fs)[i], parseFloat) == JFloat(fs[i]) {
    }
    ServicePredict.MakePredictionSucceeds(FloatValues(fs), config, classify, parseFloat);
    if ServicePredict.MakePrediction(FloatValues(fs), config, classify, parseFloat).Ok? {
      ServicePredict.ResultFeatures(FloatValues(fs), config, classify, parseFloat);
    }
  }
}
