/**
 * The location-ping endpoint's decision procedure and the telemetry health
 * probe. A ping is first checked against the per-device rate limit, then
 * its coordinates are validated, then it is stored; each outcome, and each
 * kind of exception, maps to one fixed error code and HTTP status.
 */
module TelemetryApi {
  import opened Wrappers
  import opened GeoBounds
  import opened PyValue
  import ServerErrors
  import RateLimiting
  import Clock
  import Telemetry
  import TelemetrySchema

  const RateLimitMessage: string := "Rate limit exceeded. Maximum 100 requests per minute allowed."
  const CacheFailureMessage: string := "Failed to store location ping. Please try again."
  const InternalFailureMessage: string := "Failed to process location ping"

  /** What the endpoint answers: the success body, or an error envelope. */
  datatype PingResponse =
    | Accepted(status: string, nextPingInterval: int)
    | Rejected(response: ServerErrors.ErrorResponse)

  /** What the rate-limiter call produced: a decision, or an exception with its text. */
  datatype LimiterOutcome = Decided(admission: RateLimiting.Admission) | LimiterRaised(text: string)

  /** The `details` dictionary of a 429: `{"retry_after": retry_after}`. */
  function RetryDetails(retryAfter: Option<int>): seq<Field>
  {
    [Field("retry_after", if retryAfter.Some? then Int(retryAfter.value) else Null)]
  }

  /** Whether the endpoint gets as far as calling the store. */
  predicate ReachesStore(req: TelemetrySchema.LocationPingRequest, limiter: LimiterOutcome)
  {
    && limiter.Decided? && limiter.admission.allowed
    && ServerErrors.ValidateCoordinates(Numeric(req.latitude), Numeric(req.longitude)).isValid
  }

  /**
   * `submit_location_ping` as a function of what its callees produce:
   * `limiter` is the rate-limit decision and `store` what the store returns
   * or raises (consulted only when the store is reached); `now` is the
   * envelope timestamp and `show` Python's `str()` of a float. The client
   * never sees the text of a cache or internal failure.
   */
  function SubmitLocationPing(req: TelemetrySchema.LocationPingRequest, requestId: Option<string>,
                              now: string, show: real -> string,
                              limiter: LimiterOutcome,
                              store: Result<Telemetry.PingReceipt, Telemetry.StoreError>): (r: PingResponse)
    ensures limiter.LimiterRaised? ==>
              r == Rejected(ServerErrors.CreateErrorResponse("INTERNAL_SERVER_ERROR", InternalFailureMessage,
                                                             500, None, requestId, now))
    ensures (limiter.Decided? && !limiter.admission.allowed) ==>
              && r.Rejected? && r.response.statusCode == 429
              && r.response.error.code == "RATE_LIMIT_EXCEEDED"
              && r.response.error.message == RateLimitMessage
              && r.response.error.details == Some(RetryDetails(limiter.admission.retryAfter))
    ensures (limiter.Decided? && limiter.admission.allowed && !ReachesStore(req, limiter)) ==>
              && r.Rejected? && r.response.statusCode == 400
              && r.response.error.code == "INVALID_COORDINATES"
    ensures ReachesStore(req, limiter) ==>
              match store
              case Ok(receipt) => r == Accepted(receipt.status, receipt.nextPingInterval)
              case Err(ValueError(e)) =>
                r.Rejected? && r.response.statusCode == 400 && r.response.error.code == "INVALID_LOCATION_DATA"
                && r.response.error.message == ServerErrors.CoordErrorText(e, show)
              case Err(CacheError(_)) =>
                r.Rejected? && r.response.statusCode == 500 && r.response.error.code == "CACHE_ERROR"
                && r.response.error.message == CacheFailureMessage
    ensures r.Rejected? ==> r.response.error.timestamp == now
                            && r.response.error.requestId == (if requestId == Some("") then None else requestId)
  {
    match limiter
    case LimiterRaised(_) =>
      Rejected(ServerErrors.CreateErrorResponse("INTERNAL_SERVER_ERROR", InternalFailureMessage,
                                                500, None, requestId, now))
    case Decided(admission) =>
      if !admission.allowed then
        Rejected(ServerErrors.CreateErrorResponse("RATE_LIMIT_EXCEEDED", RateLimitMessage, 429,
                                                  Some(RetryDetails(admission.retryAfter)), requestId, now))
      else
        var check := ServerErrors.ValidateCoordinates(Numeric(req.latitude), Numeric(req.longitude));
        if !check.isValid then
          Rejected(ServerErrors.CreateErrorResponse("INVALID_COORDINATES",
                                                    ServerErrors.CoordErrorText(check.error.value, show),
                                                    400, None, requestId, now))
        else
          match store
          case Ok(receipt) => Accepted(receipt.status, receipt.nextPingInterval)
          case Err(ValueError(e)) =>
            Rejected(ServerErrors.CreateErrorResponse("INVALID_LOCATION_DATA", ServerErrors.CoordErrorText(e, show),
                                                      400, None, requestId, now))
          case Err(CacheError(_)) =>
            Rejected(ServerErrors.CreateErrorResponse("CACHE_ERROR", CacheFailureMessage,
                                                      500, None, requestId, now))
  }

  /**
   * A request that is refused, or whose coordinates are invalid, gets the
   * same answer whatever the store would have done: the store is not reached.
   */
  lemma StoreUnreachedIsIrrelevant(req: TelemetrySchema.LocationPingRequest, requestId: Option<string>,
                                   now: string, show: real -> string, limiter: LimiterOutcome,
                                   s1: Result<Telemetry.PingReceipt, Telemetry.StoreError>,
                                   s2: Result<Telemetry.PingReceipt, Telemetry.StoreError>)
    requires !ReachesStore(req, limiter)
    ensures SubmitLocationPing(req, requestId, now, show, limiter, s1)
            == SubmitLocationPing(req, requestId, now, show, limiter, s2)
  {
  }

  /**
   * The text of a Redis failure, in the store or in the limiter, never reaches
   * the client: the answer depends only on the kind of failure.
   */
  lemma FailureTextHidden(req: TelemetrySchema.LocationPingRequest, requestId: Option<string>,
                          now: string, show: real -> string, t1: string, t2: string)
    ensures SubmitLocationPing(req, requestId, now, show, LimiterRaised(t1), Ok(Telemetry.PingReceipt("success", true, 30)))
            == SubmitLocationPing(req, requestId, now, show, LimiterRaised(t2), Ok(Telemetry.PingReceipt("success", true, 30)))
    ensures forall limiter :: ReachesStore(req, limiter) ==>
              SubmitLocationPing(req, requestId, now, show, limiter, Err(Telemetry.CacheError(t1)))
              == SubmitLocationPing(req, requestId, now, show, limiter, Err(Telemetry.CacheError(t2)))
  {
  }

  /**
   * A request the schema accepted is never answered INVALID_COORDINATES: the
   * schema's bounds are the validator's.
   */
  lemma SchemaValidRequestsPassCoordinates(req: TelemetrySchema.LocationPingRequest, limiter: LimiterOutcome)
    requires TelemetrySchema.WellFormed(req)
    requires limiter.Decided? && limiter.admission.allowed
    ensures ReachesStore(req, limiter)
  {
  }

  /**
   * The endpoint wired to a rate limiter and a store: `now` is the
   * limiter's clock reading and `nowText` the envelope timestamp. A refused
   * request, or one with invalid coordinates, leaves the store untouched; an
   * admitted valid ping whose store succeeds is readable at once.
   */
  method HandleLocationPing(limiter: RateLimiting.RateLimiter, service: Telemetry.TelemetryService,
                            req: TelemetrySchema.LocationPingRequest, requestId: Option<string>,
                            now: Clock.Time, nowText: string, show: real -> string,
                            choice: nat, fault: Option<Telemetry.StoreFault>)
    returns (r: PingResponse)
    modifies limiter`windows, service`geo, service`markers, service`meta
    ensures var admission := RateLimiting.Admit(old(limiter.Entries(req.deviceId)), now,
                                                limiter.maxRequests, limiter.windowSeconds).0;
            && (!admission.allowed ==>
                  && r.Rejected? && r.response.statusCode == 429
                  && unchanged(service))
            && (admission.allowed && !(LatitudeInRange(req.latitude) && LongitudeInRange(req.longitude)) ==>
                  && r.Rejected? && r.response.statusCode == 400
                  && unchanged(service))
            && (admission.allowed && LatitudeInRange(req.latitude) && LongitudeInRange(req.longitude)
                && fault.None? ==>
                  && r.Accepted? && r.status == "success" && 30 <= r.nextPingInterval <= 60
                  && service.LocationPing(req.deviceId, false)
                     == Some(Telemetry.PingRecord(req.deviceId, req.latitude, req.longitude,
                                                  req.accuracy, req.timestamp)))
            && (admission.allowed && LatitudeInRange(req.latitude) && LongitudeInRange(req.longitude)
                && fault.Some? ==>
                  && r.Rejected? && r.response.statusCode == 500
                  && r.response.error.code == "CACHE_ERROR" && r.response.error.message == CacheFailureMessage
                  && service.geo == (if Telemetry.Completed(fault, Telemetry.GeoAdd)
                                     then old(service.geo)[req.deviceId := Telemetry.Position(req.longitude, req.latitude)]
                                     else old(service.geo))
                  && service.markers == (if Telemetry.Completed(fault, Telemetry.SetMarker)
                                         then old(service.markers) + {req.deviceId} else old(service.markers))
                  && service.meta == (if Telemetry.Completed(fault, Telemetry.SetMeta)
                                      then old(service.meta)[req.deviceId := Telemetry.Metadata(req.accuracy, req.timestamp,
                                                                                                req.latitude, req.longitude)]
                                      else old(service.meta)))
    ensures limiter.windows == old(limiter.windows)[req.deviceId := RateLimiting.Admit(old(limiter.Entries(req.deviceId)), now,
                                                                                       limiter.maxRequests, limiter.windowSeconds).1]
  {
    var allowed, retryAfter := limiter.IsAllowed(req.deviceId, now);
    var decision := Decided(RateLimiting.Admission(allowed, retryAfter));
    if !ReachesStore(req, decision) {
      return SubmitLocationPing(req, requestId, nowText, show, decision, Ok(Telemetry.PingReceipt("", false, 0)));
    }
    var stored := service.StorePing(req.deviceId, req.latitude, req.longitude, req.timestamp,
                                    req.accuracy, choice, fault);
    r := SubmitLocationPing(req, requestId, nowText, show, decision, stored);
  }

  /** The result of `ping_redis()`: a boolean, or an exception with its text. */
  datatype PingOutcome = Pong(healthy: bool) | PingRaised(text: string)

  datatype HealthReport = HealthReport(service: string, status: string,
                                       redis: Option<string>, error: Option<string>)

  /**
   * `telemetry_health`: healthy exactly when Redis answers the ping,
   * degraded when the ping reports failure, unhealthy when it raises.
   */
  function TelemetryHealth(ping: PingOutcome): (h: HealthReport)
    ensures h.service == "telemetry"
    ensures h.status == "healthy" <==> ping == Pong(true)
    ensures h.status == "degraded" <==> ping == Pong(false)
    ensures h.status == "unhealthy" <==> ping.PingRaised?
    ensures h.redis.Some? <==> ping.Pong?
    ensures h.redis == Some("connected") <==> ping == Pong(true)
    ensures h.error.Some? <==> ping.PingRaised?
    ensures ping.PingRaised? ==> h.error == Some(ping.text)
  {
    match ping
    case Pong(ok) =>
      HealthReport("telemetry", if ok then "healthy" else "degraded",
                   Some(if ok then "connected" else "disconnected"), None)
    case PingRaised(text) => HealthReport("telemetry", "unhealthy", None, Some(text))
  }
}
