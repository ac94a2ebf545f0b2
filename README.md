# Kadupul prediction pipeline, modelled in Dafny

Kadupul serves a four-feature flower classifier through two HTTP services.
The gateway validates a request, derives a cache key from the feature list,
and answers from its Redis cache or calls the inference service. On a miss
it then saves a record in MongoDB, fills the cache and bumps a prediction
counter. The inference service checks the request again and assembles the
classifier's answer into a result dict. This project models the four pieces
of that flow that contain logic:

- `predict_routes.dfy`, module `PredictRoutes`: the gateway's
  `POST /api/predict`. It is a `Gateway` class whose fields are the three
  stores: the cache map, the record sequence and the counter. A ghost trace
  `calls` records every store and inference call in order. The module also
  holds the read routes (`/api/predictions`, `/api/predictions/<id>`,
  `/api/stats`), which map a store answer to a status code.
- `health_routes.dfy`, module `HealthRoutes`: the gateway's `GET /health`.
  The status dict is updated in place, and an `all(...)` loop derives the
  composite status. `ApiProcess` models which client objects the handler can
  see in the running process.
- `service_predict.dfy`, module `ServicePredict`: result assembly in
  `make_prediction` of the inference service.
- `service_app.dfy`, module `ServiceApp`: the inference service's
  `POST /predict` guard chain.
- `py_json.dfy`, module `PyJson`: decoded JSON values and the Python
  built-ins the handlers use on them. These are truth testing, `in`,
  subscription with `[...]`, `float()` and list indexing with negative
  indices. Each built-in that can raise returns a `Result` naming the
  exception.
- `pipeline.dfy`, module `Pipeline`: the gateway forwards a request to the
  inference service, and this module shows the request passes the service's
  guards.

External collaborators are parameters:
- `featuresKey` stands for the MD5 of `json.dumps` and is only assumed
  deterministic.
- `parseFloat` is Python's float-literal grammar.
- `predict` is the inference client. It returns the `(result, error)` pair.
- `classify` is scikit-learn's `predict`/`predict_proba`.
- `newId` is the id Mongo would assign.
- `Faults` says which store call fails. A failed call acts as the service
  modules' `except` clauses do: a miss, a `None` id, or no change.

Behaviours of the code that are easy to miss, and which the
model follows:
- A truthy body that is not a dict reaches `'features' in ...` or
  `...['features']`. A number or bool there makes `in` raise, and so does a
  list or string that contains `"features"` at the subscription. The gateway
  does not catch this, so the app's 500 handler answers.
- The gateway tests `if error:` with Python truthiness. A falsy error (an
  empty message, whose result is None) therefore goes down the success path:
  the save fails, a `null` is cached, and `null` is served with source model.
- A cache hit needs a truthy cached value. A cached `{}` or `null` counts as
  a miss.
- A bool feature coerces to 1.0 or 0.0. Strings go through `float()`, and
  the code does not check for finite values, so it accepts "nan" and "inf".
  The model's floats are reals, which have no NaN or infinity, so what
  `parseFloat` gives for those strings is left open (see "## Left out").
- `target_names[class_index]` with a negative index wraps around. An index
  out of range raises IndexError, and the route turns that into 500. Neither
  is a precondition.
- A repeated target or feature name keeps the value of its last position.
- The health endpoint answers 503, not 200, when any dependency is down.
- The health dict's keys are `mongodb` and `redis`, not "cache" and
  "persistence".

The `Gateway` methods change state, so they are specified with
`old(...)`. The stores, the key function and the trace are abstract. The
pure routes are functions, so it is immediate that they do not modify their
inputs.

## Model

| member | source | states |
|---|---|---|
| PredictRoutes.CoerceAll | api/src/routes/predict_routes.py:25-28 | `[float(f) for f in features]` succeeds iff every element converts; the result has the same length and holds each element's float; otherwise the error is that of the first element that raises |
| PredictRoutes.ValidateRequest | api/src/routes/predict_routes.py:17-28 | accepts exactly the dict bodies whose `features` is a 4-element list of convertible values, returning their floats; a missing or falsy body or no `features` gives 400 "Campo features é obrigatório"; a non-list or wrong length gives 400 "Features deve ser uma lista com 4 valores numéricos"; an unconvertible element gives 400 "Todas as features devem ser números"; only a truthy non-dict body can raise, so only it is answered 500, with the case split for strings, lists and numbers |
| PredictRoutes.NewRecord | api/src/services/mongo_service.py:34-48 | `save_prediction` builds a document iff the result is a dict holding `prediction_index`, `prediction_name` and `probabilities`; the record carries the given id, the coerced features and the result's `prediction_index`, `prediction_name` and `probabilities` |
| PredictRoutes.Gateway.constructor | api/src/services/redis_service.py:10-31 | the gateway starts with the given cache and counter (Redis), records (the Mongo collection that `init_mongo` opens, api/src/services/mongo_service.py:12-32) and an empty call trace; it requires every initial record to hold 4 features, so the records start valid |
| PredictRoutes.Gateway.GetCachedPrediction | api/src/services/redis_service.py:33-42 | returns the cached value, or None when the key is absent or the call fails; records the call |
| PredictRoutes.Gateway.SavePrediction | api/src/services/mongo_service.py:34-48 | appends exactly one record and returns its id when the call succeeds and the document can be built; otherwise returns None and leaves the records unchanged; a 4-feature save keeps every record a 4-feature vector |
| PredictRoutes.Gateway.CachePrediction | api/src/services/redis_service.py:44-54 | maps the key to the result unless the call fails; returns whether it succeeded |
| PredictRoutes.Gateway.IncrementPredictionCount | api/src/services/redis_service.py:56-61 | adds 1 to the counter and returns the new count, or leaves it and returns None on failure |
| PredictRoutes.Gateway.MakePrediction | api/src/routes/predict_routes.py:14-55 | a rejected request returns its 400/500 reply with no store or inference call and no change; a truthy cached value is returned with source cache, the counter grows by 1 (unless that call fails) and nothing else changes; a miss with a truthy inference error gives ModelError (500) with no store changed; any other miss appends at most one record, then caches the result, then counts, with calls in exactly that order, and returns source model with the save's id or None; the records keep holding 4-feature vectors |
| PredictRoutes.RepeatedRequestIsServedFromCache | api/src/routes/predict_routes.py:30-47 | after a first request that is a hit, or a miss whose truthy result the cache accepts, a second request whose features coerce to the same reals (and so the same key) gets FromCache with the same result and makes no inference call; both traces are given in full |
| PredictRoutes.ListPredictions | api/src/routes/predict_routes.py:57-66 | always 200; the body has exactly `predictions` and `count`, and `count` is the length of the returned list |
| PredictRoutes.PredictionDetail | api/src/routes/predict_routes.py:68-76 | 404 with the not-found message iff the lookup is falsy, otherwise 200 with the record |
| PredictRoutes.Statistics | api/src/routes/predict_routes.py:78-86 | 500 with the error message iff the stats value is falsy, otherwise 200 with the stats |
| HealthRoutes.HealthCheck | api/src/routes/health_routes.py:8-40 | the dict has exactly the keys api, mongodb, redis and ml_service; api is always healthy; mongodb and redis are healthy iff the client is set and its ping returns, and a raised ping leaves only that entry disconnected; ml_service is healthy iff the probe says so; the status is healthy and the code 200 iff every entry is healthy, otherwise degraded and 503 |
| HealthRoutes.ApiProcess.constructor | api/src/routes/health_routes.py:2-3 | importing the route module copies both service clients while they are still None |
| HealthRoutes.ApiProcess.InitServices | api/src/app.py:17-18 | `init_mongo` and `init_redis` set the service modules' clients; the route module's names are not rebound |
| HealthRoutes.ApiProcess.HealthAsWritten | api/src/routes/health_routes.py:2-40 | in the running app, mongodb and redis are always disconnected, and the answer is always degraded with 503 |
| HealthRoutes.ApiProcess.HealthCorrected | api/src/routes/health_routes.py:18-40 | if the live clients were read, every entry would follow its client and probe. The answer would be 200 and healthy iff both live clients are set, both pings return and the inference service is healthy; otherwise it would be 503 and degraded |
| HealthRoutes.AllDependenciesUp | api/src/app.py:17-18 | with both clients created and every check passing, the handler as written answers 503 and the corrected one 200 |
| ServicePredict.FloatDictSucceeds | model_service/src/predict.py:25-32 | a name/float dict comprehension succeeds iff no entry raises, either on the name lookup or on `float()` |
| ServicePredict.FloatDictFirstError | model_service/src/predict.py:25-32 | when the comprehension raises, it raises the exception of the first entry that raises |
| ServicePredict.FloatDictKeys | model_service/src/predict.py:25-32 | a successful comprehension uses no more positions than there are names, and its keys are exactly the names at the positions it enumerated |
| ServicePredict.FloatDictValues | model_service/src/predict.py:25-32 | each name maps to the float of the last position carrying it, so with distinct names position i's name maps to position i's value |
| ServicePredict.MakePrediction | model_service/src/predict.py:3-35 | a classifier error is passed on; an invalid class index raises IndexError; a result has exactly the four keys, `prediction_index` is the class index, `prediction_name` is `target_names[index]` with Python's negative indexing, and the probabilities and features entries are the two dict comprehensions' results |
| ServicePredict.MakePredictionSucceeds | model_service/src/predict.py:3-35 | the result exists iff the classifier answers, the class index is a valid Python index into the target names, the probability row fits the target names, the features fit the feature names and every feature converts |
| ServicePredict.ResultProbabilities | model_service/src/predict.py:25-28 | the probabilities dict is keyed by exactly the target names the row reaches, and each name holds the probability of its last position |
| ServicePredict.ResultFeatures | model_service/src/predict.py:29-32 | the features dict is keyed by exactly the feature names the request reaches, and each name holds `float()` of its last position |
| ServiceApp.Predict | model_service/src/app.py:29-51 | an empty, unparseable or falsy body, or one without `features`, gives 400; a non-list gives 400 before the length check; a length other than 4 gives 400; a 4-element list gives exactly the assembly's result with 200, or its exception with 500; a non-numeric element therefore gives 500; a truthy bool or number body raises TypeError (500); a truthy string or list body gets 400 unless it contains `"features"` (as a substring or an element), in which case the subscription raises TypeError (500) |
| Pipeline.ForwardedRequestPassesServiceGuards | api/src/services/ml_service.py:24-35 | the body the gateway forwards for an accepted request never gets status 400; it gets 200 iff the classifier succeeds and the config's names cover its index, its row and the four features; the answer's features dict holds the gateway's floats |

## Left out

- TTL expiry of cache entries, the `prediction:` key prefix, `flushdb`, `get_prediction_count`, `clear_cache` and closing the clients: the cache is a map with no expiry, and the key function's result is used as the key.
- MD5 hashing and `json.dumps`: `featuresKey` is an arbitrary deterministic function. Its injectivity is not assumed, so two feature lists may share a key, as they may in the source.
- The JSON round trip of a cached result is taken as the identity.
- Record timestamps, the `limit` query argument (`request.args.get(..., type=int)`), the recency sort and `limit` of `get_predictions`, ObjectId parsing in `get_prediction_by_id`, and the `$group` aggregation of `get_stats`: the read routes take what the store returned as input.
- Uniqueness of Mongo ids: `newId` is an input.
- Flask body parsing: in the gateway the model's None stands for a request body that decodes to None (a literal `null`; on older Werkzeug, also a missing JSON body); in the inference service it stands for a body that does not parse, and a literal `null` is `Some(JNull)`. Both guard chains treat None and `Some(JNull)` alike. Flask's own 400/415 answers for a malformed or non-JSON body are not modelled.
- PredictRoutes.ValidateRequest: `float()` of an int too large for a double raises OverflowError, which the gateway does not catch. The model converts every int.
- PredictRoutes.ValidateRequest: Python floats are modelled as exact reals, which loses three things. First, -0.0 and 0.0 are the same real, but `json.dumps` writes them differently, so the program gives them different cache keys and the model does not. The repeated-request property is therefore stated for equal reals, not for equal JSON text. Second, `float()` of an int above 2^53 rounds, and the model converts it exactly. Third, there is no NaN or infinity, so what `parseFloat` returns for "nan" or "inf" is left open.
- Python's float-literal grammar: `parseFloat` is a parameter.
- The inference client's HTTP call, its timeouts and its status-code handling (api/src/services/ml_service.py): inference is an oracle returning the `(result, error)` pair. `check_ml_health` is a boolean input.
- The text of `'Erro no modelo: {error}'` and of `str(e)`: replies carry the error value, not the formatted string.
- scikit-learn's `predict`/`predict_proba` and numpy array conversion: `classify` is an oracle. Probability and feature values are opaque reals, and nothing computes on them.
- The inference service's `/health` and `/model-info`, which return constant payloads. Model loading (model_service/src/load_model.py) and offline training (ia.py) are not part of this model.
- Flask app setup, blueprint registration, `atexit` cleanup and logging.
- Concurrent requests, including duplicate inference on simultaneous misses.

## Findings

| source | as written | input that shows it | evidently intended | confidence | as-written member | corrected member |
|---|---|---|---|---|---|---|
| api/src/routes/health_routes.py:2-3 | `from services.mongo_service import mongo_client` and the Redis import copy the clients once, when api/src/app.py:2 imports the routes. At that time both are still None, because `init_mongo`/`init_redis` run later, at api/src/app.py:17-18. So `if mongo_client:` and `if redis_client:` are always false. | MongoDB, Redis and the inference service all up: the endpoint answers 503 "degraded", with mongodb and redis "disconnected" | read the service modules' current clients (for example `mongo_service.mongo_client`), making the endpoint 200 "healthy" when every dependency answers | high (not executed) | HealthRoutes.ApiProcess.HealthAsWritten | HealthRoutes.ApiProcess.HealthCorrected |
