/**
  The gateway's GET /health (api/src/routes/health_routes.py).

  The handler starts from a status dict in which only the API itself is
  healthy, marks MongoDB and Redis healthy when the client it holds is set
  and its ping does not raise, marks the inference service healthy when its
  health probe says so, and answers 200 with "healthy" only when every entry
  is healthy, 503 with "degraded" otherwise. A raised ping is caught per
  dependency, so the handler itself never fails.

  `ApiProcess` models which client objects the handler can see: the route
  module binds the names `mongo_client` and `redis_client` when the app
  imports it, before the app initialises the two service modules.
 */
module HealthRoutes {

  const Healthy := "healthy"
  const Disconnected := "disconnected"
  const Degraded := "degraded"

  /** The keys of the status dict, in insertion order. */
  const ServiceNames: seq<string> := ["api", "mongodb", "redis", "ml_service"]

  datatype HealthReply = HealthReply(status: string, services: map<string, string>, code: int)

  predicate AllHealthy(services: map<string, string>) {
    forall name :: name in services ==> services[name] == Healthy
  }

  /**
    The body of `health_check`. `mongoClient` and `redisClient` say whether
    the client name the handler reads is set; `mongoPingOk` and `redisPingOk`
    whether that client's ping returns instead of raising; `mlHealthy` is
    what `check_ml_health()` returns (it catches its own errors).
   */
  method HealthCheck(mongoClient: bool, mongoPingOk: bool, redisClient: bool, redisPingOk: bool, mlHealthy: bool)
    returns (reply: HealthReply)
    ensures reply.services.Keys == {"api", "mongodb", "redis", "ml_service"}
    ensures reply.services["api"] == Healthy
    ensures reply.services["mongodb"] == if mongoClient && mongoPingOk then Healthy else Disconnected
    ensures reply.services["redis"] == if redisClient && redisPingOk then Healthy else Disconnected
    ensures reply.services["ml_service"] == if mlHealthy then Healthy else Disconnected
    ensures reply.status == (if AllHealthy(reply.services) then Healthy else Degraded)
    ensures reply.code == (if AllHealthy(reply.services) then 200 else 503)
    ensures reply.code == 200 <==> mongoClient && mongoPingOk && redisClient && redisPingOk && mlHealthy
  {
    var status := map["api" := Healthy, "mongodb" := Disconnected, "redis" := Disconnected, "ml_service" := Disconnected];
    // try: if mongo_client: ping, then mark healthy; except: pass
    if mongoClient && mongoPingOk {
      status := status["mongodb" := Healthy];
    }
    // try: if redis_client: ping, then mark healthy; except: pass
    if redisClient && redisPingOk {
      status := status["redis" := Healthy];
    }
    if mlHealthy {
      status := status["ml_service" := Healthy];
    }
    // all(v == 'healthy' for v in status.values())
    var allHealthy := true;
    var i := 0;
    while i < |ServiceNames|
      invariant 0 <= i <= |ServiceNames|
      invariant allHealthy <==> forall j :: 0 <= j < i ==> status[ServiceNames[j]] == Healthy
    {
      if status[ServiceNames[i]] != Healthy {
        allHealthy := false;
      }
      i := i + 1;
    }
    assert status.Keys == {ServiceNames[0], ServiceNames[1], ServiceNames[2], ServiceNames[3]};
    reply := HealthReply(if allHealthy then Healthy else Degraded, status, if allHealthy then 200 else 503);
  }

  /**
    The client names as the running gateway holds them. `mongoClient` and
    `redisClient` are the globals of the two service modules, which
    `init_mongo` and `init_redis` assign; `routesMongoClient` and
    `routesRedisClient` are the route module's own names, bound once by its
    `from ... import` lines.
   */
  class ApiProcess {
    var mongoClient: bool
    var redisClient: bool
    const routesMongoClient: bool
    const routesRedisClient: bool

    /** The route module was imported while both service globals were still None. */
    ghost predicate Valid()
      reads this
    {
      !routesMongoClient && !routesRedisClient
    }

    /** Importing the route module loads both service modules (clients None) and copies their clients. */
    constructor ()
      ensures Valid() && !mongoClient && !redisClient
    {
      var mongoAtImport, redisAtImport := false, false;
      mongoClient := mongoAtImport;
      redisClient := redisAtImport;
      routesMongoClient := mongoAtImport;
      routesRedisClient := redisAtImport;
    }

    /**
      `init_mongo()` then `init_redis()`: each assigns its module's client
      when the client constructor returns, even if the startup ping then
      fails. The route module's names are not rebound.
     */
    method InitServices(mongoCreated: bool, redisCreated: bool)
      requires Valid()
      modifies this
      ensures Valid()
      ensures mongoClient == mongoCreated && redisClient == redisCreated
    {
      mongoClient := mongoCreated;
      redisClient := redisCreated;
    }

    /** GET /health as written: it reads the route module's names, which are None. */
    method HealthAsWritten(mongoPingOk: bool, redisPingOk: bool, mlHealthy: bool) returns (reply: HealthReply)
      requires Valid()
      ensures reply.services.Keys == {"api", "mongodb", "redis", "ml_service"}
      ensures reply.services["mongodb"] == Disconnected && reply.services["redis"] == Disconnected
      ensures reply.status == Degraded && reply.code == 503
    {
      reply := HealthCheck(routesMongoClient, mongoPingOk, routesRedisClient, redisPingOk, mlHealthy);
    }

    /** GET /health reading the service modules' current clients. */
    method HealthCorrected(mongoPingOk: bool, redisPingOk: bool, mlHealthy: bool) returns (reply: HealthReply)
      ensures reply.services.Keys == {"api", "mongodb", "redis", "ml_service"}
      ensures reply.services["mongodb"] == if mongoClient && mongoPingOk then Healthy else Disconnected
      ensures reply.services["redis"] == if redisClient && redisPingOk then Healthy else Disconnected
      ensures reply.services["api"] == Healthy
      ensures reply.services["ml_service"] == if mlHealthy then Healthy else Disconnected
      ensures reply.code == 200 <==> mongoClient && mongoPingOk && redisClient && redisPingOk && mlHealthy
      ensures reply.status == Healthy <==> reply.code == 200
      ensures reply.code == 200 || (reply.code == 503 && reply.status == Degraded)
    {
      reply := HealthCheck(mongoClient, mongoPingOk, redisClient, redisPingOk, mlHealthy);
    }
  }

  /** With every dependency up, the handler as written still answers 503; reading the live clients it answers 200. */
  method AllDependenciesUp() returns (asWritten: HealthReply, corrected: HealthReply)
    ensures asWritten.code == 503 && asWritten.status == Degraded
    ensures corrected.code == 200 && corrected.status == Healthy
  {
    var process := new ApiProcess();
    process.InitServices(true, true);
    asWritten := process.HealthAsWritten(true, true, true);
    corrected := process.HealthCorrected(true, true, true);
  }
}
