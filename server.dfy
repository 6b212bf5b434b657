/**
 * The program's wiring: the startup configuration read from the environment
 * and the three fixed instance routes, each served by the responder with its
 * own bounds and service name.
 */
module Server {
  import opened Wrappers
  import opened Decimal
  import opened Env
  import opened Responder

  /** A route registered with `createInstanceHandler(serviceName, min, max)`. */
  datatype Route = Route(serviceName: string, min: int, max: int)

  /** The route table: the handler registered for a GET path, if any. */
  function RouteFor(path: string): (route: Option<Route>)
    ensures route.Some? ==> path in {"/instance1", "/instance2", "/instance3"}
    ensures route.Some? ==> 0 <= route.value.min < route.value.max
    ensures route.Some? ==> path == "/" + route.value.serviceName
  {
    if path == "/instance1" then Some(Route("instance1", 500, 1000))
    else if path == "/instance2" then Some(Route("instance2", 1000, 2000))
    else if path == "/instance3" then Some(Route("instance3", 2000, 4000))
    else None
  }

  /** Exactly the three instance paths are registered, with these bounds and names. */
  lemma RouteTable(path: string)
    ensures RouteFor("/instance1") == Some(Route("instance1", 500, 1000))
    ensures RouteFor("/instance2") == Some(Route("instance2", 1000, 2000))
    ensures RouteFor("/instance3") == Some(Route("instance3", 2000, 4000))
    ensures RouteFor(path).Some? <==> path in {"/instance1", "/instance2", "/instance3"}
  {
  }

  /** The draws the route's handler can see. */
  predicate ValidRouteDraw(path: string, r: int) {
    RouteFor(path).Some? ==> ValidDraw(RouteFor(path).value.min, RouteFor(path).value.max, r)
  }

  /**
   * A GET request to `path` at time `now` with draw `r`: the registered
   * handler's response, or `None` when no handler is registered there.
   */
  function Serve(path: string, r: int, now: string): (resp: Option<HealthResponse>)
    requires ValidRouteDraw(path, r)
    ensures resp.Some? <==> path in {"/instance1", "/instance2", "/instance3"}
    ensures resp.Some? ==> var route := RouteFor(path).value;
              && resp.value.status == "ok"
              && resp.value.timestamp == now
              && resp.value.serviceName == route.serviceName
              && route.min <= resp.value.delayMs <= route.max
    ensures resp.Some? ==> var route := RouteFor(path).value;
              resp.value == Handle(route.serviceName, route.min, route.max, r, now)
  {
    match RouteFor(path)
    case Some(route) => Some(Handle(route.serviceName, route.min, route.max, r, now))
    case None => None
  }

  /** `GET /instance2` waits between 1000 and 2000 ms and reports `instance2`. */
  lemma ServeInstance2(r: int, now: string)
    requires 0 <= r <= 1000
    ensures var resp := Serve("/instance2", r, now);
            resp.Some? && resp.value.serviceName == "instance2" && 1000 <= resp.value.delayMs <= 2000
  {
  }

  /** Every delay a fixed route allows is produced by some draw. */
  lemma RouteDelayReachable(path: string, delay: int, now: string)
    requires RouteFor(path).Some?
    requires RouteFor(path).value.min <= delay <= RouteFor(path).value.max
    ensures exists r :: ValidRouteDraw(path, r) && Serve(path, r, now).Some? && Serve(path, r, now).value.delayMs == delay
  {
    var route := RouteFor(path).value;
    DrawReaches(route.min, route.max, delay);
    assert ValidRouteDraw(path, delay - route.min) && Serve(path, delay - route.min, now).value.delayMs == delay;
  }

  /** The settings read at startup: the logged timeout range and the port. */
  datatype Config = Config(minTimeout: int, maxTimeout: int, port: string)

  /** `MIN_TIMEOUT` (default 1000), `MAX_TIMEOUT` (default 10000) and `PORT` (default "8081"). */
  function StartupConfig(env: Environment): (c: Config)
    ensures c.port != ""
    ensures IsSet(env, "PORT") ==> c.port == env["PORT"]
    ensures !IsSet(env, "PORT") ==> c.port == "8081"
    ensures IsSet(env, "MIN_TIMEOUT") && Atoi(env["MIN_TIMEOUT"]).Some? ==> c.minTimeout == Atoi(env["MIN_TIMEOUT"]).value
    ensures !IsSet(env, "MIN_TIMEOUT") || Atoi(env["MIN_TIMEOUT"]).None? ==> c.minTimeout == 1000
    ensures IsSet(env, "MAX_TIMEOUT") && Atoi(env["MAX_TIMEOUT"]).Some? ==> c.maxTimeout == Atoi(env["MAX_TIMEOUT"]).value
    ensures !IsSet(env, "MAX_TIMEOUT") || Atoi(env["MAX_TIMEOUT"]).None? ==> c.maxTimeout == 10000
  {
    GetEnvNonEmpty(env, "PORT", "8081");
    Config(GetEnvAsInt(env, "MIN_TIMEOUT", 1000), GetEnvAsInt(env, "MAX_TIMEOUT", 10000), GetEnv(env, "PORT", "8081"))
  }

  /** An empty environment gives the built-in defaults. */
  lemma DefaultConfig()
    ensures StartupConfig(map[]) == Config(1000, 10000, "8081")
  {
  }

  /** Timeouts written in decimal are read back as written. */
  lemma ConfigOfRenderedTimeouts(env: Environment, lo: int, hi: int)
    requires InIntRange(lo) && InIntRange(hi)
    requires "MIN_TIMEOUT" in env && env["MIN_TIMEOUT"] == IntToString(lo)
    requires "MAX_TIMEOUT" in env && env["MAX_TIMEOUT"] == IntToString(hi)
    ensures StartupConfig(env).minTimeout == lo && StartupConfig(env).maxTimeout == hi
  {
    GetEnvAsIntOfRendering(env, "MIN_TIMEOUT", lo, 1000);
    GetEnvAsIntOfRendering(env, "MAX_TIMEOUT", hi, 10000);
  }
}
