/** The `ServiceHealthIndicator` component: how the health URL is built
    and how the answer of the health endpoint becomes a status. */
module ServiceHealth {
  import opened Wrappers
  import opened JsString
  import opened Decimal

  const TimeoutMs: nat := 5000
  const BypassedMessage := "Health check bypassed - Always healthy"
  const HealthyMessage := "Service is healthy"
  const TimedOutMessage := "Health check timed out"
  const UnknownErrorMessage := "Unknown error"

  datatype HealthStatus = HealthStatus(isHealthy: bool, latency: Option<nat>, lastChecked: int, message: string)

  /** A thrown value: an `Error` carries its message. */
  datatype Thrown = ErrorObject(message: string) | OtherValue

  /** The body of an answer: its `message` field ("" when absent or
      falsy), or the error `response.json()` throws. */
  datatype Body = Parsed(message: string) | Unparsable(error: Thrown)

  /** What the request did: an answer after `elapsed` milliseconds, or a
      rejected fetch. */
  datatype Exchange = Answered(elapsed: nat, status: nat, body: Body) | Rejected(error: Thrown)

  /** The endpoint with at most one trailing '/' removed, then "/health". */
  function HealthUrl(endpoint: string): (r: string)
    ensures EndsWith(r, "/health")
    ensures r == endpoint + "/health" || endpoint == r[..|r| - 7] + "/"
    ensures !EndsWith(endpoint, "/") ==> r == endpoint + "/health"
  {
    var base := if EndsWith(endpoint, "/") then endpoint[..|endpoint| - 1] else endpoint;
    assert endpoint == base || endpoint == base + "/";
    var r := base + "/health";
    assert r[..|r| - 7] == base;
    r
  }

  /** A single trailing slash makes no difference to the URL. */
  lemma OneTrailingSlashIgnored(base: string)
    requires !EndsWith(base, "/")
    ensures HealthUrl(base + "/") == HealthUrl(base)
  {
    assert (base + "/")[..|base|] == base;
  }

  /** `error instanceof Error ? error.message : "Unknown error"`. */
  function ErrorText(e: Thrown): string
  {
    match e
    case ErrorObject(m) => m
    case OtherValue => UnknownErrorMessage
  }

  function HttpOk(status: nat): bool { 200 <= status <= 299 }

  /** The status `checkHealth` records for one exchange that settled at `now`;
      a request that takes the full timeout or longer loses the race against the timer. */
  function StatusFor(exchange: Exchange, now: int): (r: HealthStatus)
    ensures r.lastChecked == now
    ensures r.isHealthy <==> exchange.Answered? && exchange.elapsed < TimeoutMs && HttpOk(exchange.status) && exchange.body.Parsed?
    ensures r.isHealthy ==> r.latency == Some(exchange.elapsed) && r.message != ""
    ensures r.isHealthy && exchange.body.message != "" ==> r.message == exchange.body.message
    ensures exchange.Answered? && exchange.elapsed < TimeoutMs && !HttpOk(exchange.status) ==>
      r.latency == Some(exchange.elapsed) && r.message == "Error: HTTP " + NatToString(exchange.status)
    ensures exchange.Answered? && exchange.elapsed >= TimeoutMs ==> r.latency.None? && r.message == TimedOutMessage
    ensures exchange.Rejected? ==> r.latency.None? && r.message == ErrorText(exchange.error)
  {
    match exchange
    case Rejected(e) => HealthStatus(false, None, now, ErrorText(e))
    case Answered(elapsed, status, body) =>
      if elapsed >= TimeoutMs then HealthStatus(false, None, now, TimedOutMessage)
      else if HttpOk(status) then
        match body
        case Parsed(m) => HealthStatus(true, Some(elapsed), now, if m != "" then m else HealthyMessage)
        case Unparsable(e) => HealthStatus(false, None, now, ErrorText(e))
      else HealthStatus(false, Some(elapsed), now, "Error: HTTP " + NatToString(status))
  }

  /** A status with a latency came from an answer within the timeout. */
  lemma LatencyOnlyFromAnswers(exchange: Exchange, now: int)
    ensures StatusFor(exchange, now).latency.Some? <==>
      exchange.Answered? && exchange.elapsed < TimeoutMs && (!HttpOk(exchange.status) || exchange.body.Parsed?)
  {
  }

  class Indicator {
    var healthStatus: Option<HealthStatus>
    var isLoading: bool

    constructor ()
      ensures healthStatus.None? && isLoading
    {
      healthStatus := None;
      isLoading := true;
    }

    /** `checkHealth`: loading while the request runs, then the status of
        the exchange. It returns the URL requested. */
    method CheckHealth(endpoint: string, exchange: Exchange, now: int) returns (requested: string)
      modifies this
      ensures requested == HealthUrl(endpoint)
      ensures !isLoading && healthStatus == Some(StatusFor(exchange, now))
    {
      isLoading := true;
      requested := HealthUrl(endpoint);
      healthStatus := Some(StatusFor(exchange, now));
      isLoading := false;
    }

    /** The effect for an endpoint: a bypass answers at once without a
        request; otherwise a non-empty endpoint is checked. It returns the
        URL requested, if any. */
    method CheckEndpoint(endpoint: string, bypass: bool, exchange: Exchange, now: int)
      returns (requested: Option<string>)
      modifies this
      ensures bypass ==> (requested.None? && !isLoading
        && healthStatus == Some(HealthStatus(true, None, now, BypassedMessage)))
      ensures !bypass && endpoint == "" ==> (requested.None? && healthStatus == old(healthStatus) && isLoading == old(isLoading))
      ensures !bypass && endpoint != "" ==> (requested == Some(HealthUrl(endpoint)) && !isLoading
        && healthStatus == Some(StatusFor(exchange, now)))
    {
      requested := None;
      if bypass {
        healthStatus := Some(HealthStatus(true, None, now, BypassedMessage));
        isLoading := false;
        return;
      }
      if endpoint != "" {
        var url := CheckHealth(endpoint, exchange, now);
        requested := Some(url);
      }
    }

    /** One tick of the 30-second interval the effect sets up when there is
        no bypass. Unlike the first check it does not test the endpoint: an
        empty endpoint requests "/health" of the page's own origin. With a
        bypass the effect returned before setting up the interval, so no
        tick happens. */
    method IntervalTick(endpoint: string, bypass: bool, exchange: Exchange, now: int)
      returns (requested: Option<string>)
      modifies this
      ensures bypass ==> requested.None? && healthStatus == old(healthStatus) && isLoading == old(isLoading)
      ensures !bypass ==> (requested == Some(HealthUrl(endpoint)) && !isLoading
        && healthStatus == Some(StatusFor(exchange, now)))
      ensures !bypass && endpoint == "" ==> requested == Some("/health")
    {
      requested := None;
      if !bypass {
        var url := CheckHealth(endpoint, exchange, now);
        requested := Some(url);
      }
    }
  }
}
