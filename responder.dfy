/**
 * The handler built by `createInstanceHandler(serviceName, min, max)`: it
 * picks a delay in milliseconds from the bounds, waits that long and answers
 * with a health record. The random draw and the clock reading are inputs:
 * `r` stands for the value `rand.Intn(max - min + 1)` returns, `now` for the
 * RFC 3339 text of the current time.
 */
module Responder {

  /** The `HealthResponse` record sent as the JSON body. */
  datatype HealthResponse = HealthResponse(status: string, timestamp: string, delayMs: int, serviceName: string)

  /**
   * The draws `rand.Intn(max - min + 1)` can return: `0 <= r <= max - min`.
   * The generator is consulted only when `max > min`; otherwise any `r` will do.
   */
  predicate ValidDraw(min: int, max: int, r: int) {
    max > min ==> 0 <= r <= max - min
  }

  /** The delay for bounds `(min, max)` and draw `r`; no reordering of the bounds. */
  function ChooseDelay(min: int, max: int, r: int): (delay: int)
    requires ValidDraw(min, max, r)
    ensures max > min ==> min <= delay <= max
    ensures max <= min ==> delay == min
  {
    if max > min then min + r else min
  }

  /** Each delay in `[min, max]` is reached by a draw (namely `delay - min`). */
  lemma DrawReaches(min: int, max: int, delay: int)
    requires max > min && min <= delay <= max
    ensures ValidDraw(min, max, delay - min) && ChooseDelay(min, max, delay - min) == delay
  {
  }

  /** Different draws give different delays. */
  lemma DrawInjective(min: int, max: int, r1: int, r2: int)
    requires max > min && ValidDraw(min, max, r1) && ValidDraw(min, max, r2)
    requires ChooseDelay(min, max, r1) == ChooseDelay(min, max, r2)
    ensures r1 == r2
  {
  }

  /** The set of delays the valid draws produce. */
  function DelayRange(min: int, max: int): set<int>
    requires max > min
  {
    set r | 0 <= r <= max - min :: ChooseDelay(min, max, r)
  }

  /** The draws cover the closed interval `[min, max]` exactly. */
  lemma DelayImage(min: int, max: int)
    requires max > min
    ensures forall d :: d in DelayRange(min, max) <==> min <= d <= max
  {
    forall d | min <= d <= max
      ensures d in DelayRange(min, max)
    {
      DrawReaches(min, max, d);
    }
  }

  /**
   * Exactly one draw leads to each delay in `[min, max]`; since `rand.Intn`
   * draws uniformly, the delay is uniform over the interval.
   */
  lemma DelayPreimage(min: int, max: int, delay: int)
    requires max > min && min <= delay <= max
    ensures (set r | 0 <= r <= max - min && ChooseDelay(min, max, r) == delay) == {delay - min}
    ensures |set r | 0 <= r <= max - min && ChooseDelay(min, max, r) == delay| == 1
  {
  }

  /** One request to the handler for `(serviceName, min, max)`. */
  function Handle(serviceName: string, min: int, max: int, r: int, now: string): (resp: HealthResponse)
    requires ValidDraw(min, max, r)
    ensures resp.status == "ok"
    ensures resp.timestamp == now
    ensures resp.serviceName == serviceName
    ensures resp.delayMs == ChooseDelay(min, max, r)
    ensures max > min ==> min <= resp.delayMs <= max
    ensures max <= min ==> resp.delayMs == min
  {
    var delay := ChooseDelay(min, max, r);
    HealthResponse("ok", now, delay, serviceName)
  }

  /** The JSON keys of the body; `service_name` is `omitempty`. */
  function JsonKeys(resp: HealthResponse): (keys: seq<string>)
    ensures "status" in keys && "timestamp" in keys && "delay_ms" in keys
    ensures "service_name" in keys <==> resp.serviceName != ""
    ensures forall k :: k in keys ==> k in {"status", "timestamp", "delay_ms", "service_name"}
    ensures |keys| == if resp.serviceName == "" then 3 else 4
  {
    ["status", "timestamp", "delay_ms"] + if resp.serviceName != "" then ["service_name"] else []
  }
}
