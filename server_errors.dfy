/**
 * Server-side error utilities: the standard error envelope, request and
 * coordinate validators, the connection-pool monitor with its throttle,
 * PII redaction of log contexts, and the attempt logic of the retry and
 * fallback combinators.
 */
module ServerErrors {
  import opened Wrappers
  import opened PyText
  import opened PyValue
  import opened GeoBounds
  import opened Attempts
  import opened Clock

  // ---------------------------------------------------------------------------
  // Error envelope

  datatype ErrorBody = ErrorBody(
    code: string,
    message: string,
    timestamp: string,
    details: Option<seq<Field>>,
    requestId: Option<string>)

  /** The JSON response: its HTTP status and its `{"error": {...}}` body. */
  datatype ErrorResponse = ErrorResponse(statusCode: int, error: ErrorBody)

  /**
   * `create_error_response`: code, message and timestamp are always present;
   * `details` and `request_id` only when given and truthy (a non-empty dict,
   * a non-empty string). `now` is the `datetime.utcnow()` reading.
   */
  function CreateErrorResponse(code: string, message: string, statusCode: int,
                               details: Option<seq<Field>>, requestId: Option<string>,
                               now: string): (r: ErrorResponse)
    ensures r.statusCode == statusCode
    ensures r.error.code == code && r.error.message == message && r.error.timestamp == now
    ensures r.error.details.Some? <==> details.Some? && details.value != []
    ensures r.error.details.Some? ==> r.error.details == details
    ensures r.error.requestId.Some? <==> requestId.Some? && requestId.value != ""
    ensures r.error.requestId.Some? ==> r.error.requestId == requestId
  {
    var d := if details.Some? && details.value != [] then details else None;
    var rid := if requestId.Some? && requestId.value != "" then requestId else None;
    ErrorResponse(statusCode, ErrorBody(code, message, now, d, rid))
  }

  // ---------------------------------------------------------------------------
  // Required-field validation

  /** A field counts as missing when it is absent or holds None. */
  predicate IsMissing(data: map<string, Value>, field: string)
  {
    field !in data || data[field] == Null
  }

  /** The required fields that are missing, in the order they are required. */
  function MissingFields(data: map<string, Value>, required: seq<string>): (m: seq<string>)
    ensures forall f :: f in m <==> f in required && IsMissing(data, f)
    ensures forall f :: multiset(m)[f] == if IsMissing(data, f) then multiset(required)[f] else 0
  {
    if required == [] then []
    else
      var init, last := required[..|required| - 1], required[|required| - 1];
      assert required == init + [last];
      MissingFields(data, init) + (if IsMissing(data, last) then [last] else [])
  }

  /** `", ".join(xs)`. */
  function Join(xs: seq<string>, sep: string): string
  {
    if xs == [] then "" else if |xs| == 1 then xs[0] else xs[0] + sep + Join(xs[1..], sep)
  }

  datatype MissingReport = MissingReport(missingFields: seq<string>, message: string)

  /**
   * `validate_request_data`: walks `required` once, collecting the missing
   * fields; valid exactly when none is missing.
   */
  method ValidateRequestData(data: map<string, Value>, required: seq<string>)
    returns (v: Verdict<MissingReport>)
    ensures v.isValid <==> forall f :: f in required ==> !IsMissing(data, f)
    ensures v.isValid ==> v.error == None
    ensures !v.isValid ==> v.error == Some(MissingReport(MissingFields(data, required),
                                             "Missing required fields: " + Join(MissingFields(data, required), ", ")))
  {
    var missing: seq<string> := [];
    var i := 0;
    while i < |required|
      invariant 0 <= i <= |required|
      invariant missing == MissingFields(data, required[..i])
    {
      assert required[..i + 1][..i] == required[..i];
      if required[i] !in data || data[required[i]] == Null {
        missing := missing + [required[i]];
      }
      i := i + 1;
    }
    assert required[..i] == required;
    if missing != [] {
      assert missing[0] in required;
      return Verdict(false, Some(MissingReport(missing, "Missing required fields: " + Join(missing, ", "))));
    }
    return Verdict(true, None);
  }

  // ---------------------------------------------------------------------------
  // Coordinate validation

  datatype CoordError =
    | InvalidLatitude(lat: real)
    | InvalidLongitude(lng: real)
    | InvalidFormat(reason: string)

  /**
   * `validate_coordinates`: both arguments are converted with `float()` first,
   * so a conversion error wins over any range error; then latitude is checked
   * before longitude, both bounds inclusive.
   */
  function ValidateCoordinates(lat: CoordInput, lng: CoordInput): (v: Verdict<CoordError>)
    ensures v.isValid <==> v.error.None?
    ensures v.isValid <==> lat.Numeric? && lng.Numeric?
                           && LatitudeInRange(lat.value) && LongitudeInRange(lng.value)
    ensures lat.NonNumeric? ==> v.error == Some(InvalidFormat(lat.reason))
    ensures (lat.Numeric? && lng.NonNumeric?) ==> v.error == Some(InvalidFormat(lng.reason))
    ensures (lat.Numeric? && lng.Numeric? && !LatitudeInRange(lat.value))
              ==> v.error == Some(InvalidLatitude(lat.value))
    ensures (lat.Numeric? && lng.Numeric? && LatitudeInRange(lat.value) && !LongitudeInRange(lng.value))
              ==> v.error == Some(InvalidLongitude(lng.value))
  {
    match (lat, lng)
    case (Numeric(a), Numeric(b)) =>
      if !(-90.0 <= a <= 90.0) then Verdict(false, Some(InvalidLatitude(a)))
      else if !(-180.0 <= b <= 180.0) then Verdict(false, Some(InvalidLongitude(b)))
      else Verdict(true, None)
    case (NonNumeric(e), _) => Verdict(false, Some(InvalidFormat(e)))
    case (_, NonNumeric(e)) => Verdict(false, Some(InvalidFormat(e)))
  }

  /**
   * The message text of a coordinate error; `show` is Python's `str()` of a
   * float, which this model does not spell out.
   */
  function CoordErrorText(e: CoordError, show: real -> string): string
  {
    match e
    case InvalidLatitude(lat) => "Invalid latitude: " + show(lat) + ". Must be between -90 and 90"
    case InvalidLongitude(lng) => "Invalid longitude: " + show(lng) + ". Must be between -180 and 180"
    case InvalidFormat(reason) => "Invalid coordinate format: " + reason
  }

  // ---------------------------------------------------------------------------
  // Resource monitor

  datatype ResourceStatus =
    | Available
    | Throttled(remaining: int)      // "Service temporarily throttled. Retry in {remaining} seconds"
    | PoolExhausted                  // "Service temporarily unavailable. Please try again later"

  /**
   * `ResourceMonitor`: a connection counter bounded by `maxConnections` and a
   * throttle deadline. Clock readings are passed in by callers.
   */
  class ResourceMonitor {
    const maxCpuPercent: real
    const maxMemoryPercent: real
    const maxConnections: int
    var currentConnections: int
    var throttleUntil: real

    /** The counter never goes negative nor above the pool size (0 if that is negative). */
    ghost predicate Valid()
      reads this
    {
      0 <= currentConnections <= Max(maxConnections, 0)
    }

    constructor (maxCpuPercent: real, maxMemoryPercent: real, maxConnections: int)
      ensures Valid()
      ensures this.maxCpuPercent == maxCpuPercent && this.maxMemoryPercent == maxMemoryPercent
      ensures this.maxConnections == maxConnections
      ensures currentConnections == 0 && throttleUntil == 0.0
    {
      this.maxCpuPercent := maxCpuPercent;
      this.maxMemoryPercent := maxMemoryPercent;
      this.maxConnections := maxConnections;
      currentConnections := 0;
      throttleUntil := 0.0;
    }

    /**
     * `check_resources`: unavailable while the throttle runs (reported first)
     * or when the pool is full; available otherwise. The clock is read twice:
     * `now` decides whether the throttle runs, `later` gives the remaining
     * time, truncated to whole seconds, so less than a second before the
     * deadline it reads 0.
     */
    method CheckResources(now: Time, later: Time) returns (available: bool, status: ResourceStatus)
      ensures available <==> status == Available
      ensures available <==> now >= throttleUntil && currentConnections < maxConnections
      ensures now < throttleUntil ==> status == Throttled(Truncate(throttleUntil - later))
      ensures now < throttleUntil && later <= throttleUntil ==>
                && 0 <= status.remaining
                && status.remaining as real <= throttleUntil - later < status.remaining as real + 1.0
      ensures now >= throttleUntil && currentConnections >= maxConnections ==> status == PoolExhausted
    {
      if now < throttleUntil {
        return false, Throttled(Truncate(throttleUntil - later));
      }
      if currentConnections >= maxConnections {
        return false, PoolExhausted;
      }
      return true, Available;
    }

    /** `acquire_connection`: succeeds exactly when below the maximum, and then adds one. */
    method AcquireConnection() returns (acquired: bool)
      requires Valid()
      modifies this`currentConnections
      ensures Valid()
      ensures acquired <==> old(currentConnections) < maxConnections
      ensures currentConnections == old(currentConnections) + (if acquired then 1 else 0)
    {
      if currentConnections < maxConnections {
        currentConnections := currentConnections + 1;
        return true;
      }
      return false;
    }

    /** `release_connection`: removes one connection; a no-op at zero. */
    method ReleaseConnection()
      requires Valid()
      modifies this`currentConnections
      ensures Valid()
      ensures currentConnections == Max(old(currentConnections) - 1, 0)
    {
      if currentConnections > 0 {
        currentConnections := currentConnections - 1;
      }
    }

    /** `enable_throttle`: requests are refused until `now + durationSeconds`. */
    method EnableThrottle(now: Time, durationSeconds: int)
      requires Valid()
      modifies this`throttleUntil
      ensures Valid()
      ensures throttleUntil == now + durationSeconds as real
    {
      throttleUntil := now + durationSeconds as real;
    }
  }

  /** A fresh pool of two admits exactly two acquisitions, then reports exhaustion. */
  method PoolExhaustionScenario()
  {
    var now := 0.0;
    var m := new ResourceMonitor(90.0, 90.0, 2);
    var a1 := m.AcquireConnection();
    var a2 := m.AcquireConnection();
    var a3 := m.AcquireConnection();
    assert a1 && a2 && !a3 && m.currentConnections == 2;
    var available, status := m.CheckResources(now, now);
    assert !available && status == PoolExhausted;
    m.ReleaseConnection();
    var a4 := m.AcquireConnection();
    assert a4 && m.currentConnections == 2;
  }

  /**
   * A throttle of one second, checked half a second later: the request is
   * refused, the message says to retry in 0 seconds, and once the deadline
   * has passed the service is available again.
   */
  method ThrottleScenario()
  {
    var m := new ResourceMonitor(90.0, 90.0, 10);
    m.EnableThrottle(100.0, 1);
    var available, status := m.CheckResources(100.5, 100.5);
    assert !available && status == Throttled(0);
    available, status := m.CheckResources(101.0, 101.0);
    assert available;
  }

  // ---------------------------------------------------------------------------
  // PII redaction

  const Redacted: string := "[REDACTED]"

  /** Keys whose lower-cased form is one of these are personal data. */
  predicate IsPiiKey(key: string)
  {
    Lower(key) in ["phone_number", "phone", "email", "name", "address"]
  }

  /** `ErrorLogger.sanitize_pii`. */
  function Sanitize(v: Value): (r: Value)
    ensures v.List? <==> r.List?
    ensures v.Dict? <==> r.Dict?
    ensures v.List? ==> |r.items| == |v.items|
    ensures v.Dict? ==> Keys(r.fields) == Keys(v.fields)
    ensures !v.List? && !v.Dict? ==> r == v
  {
    match v
    case Dict(fields) =>
      Dict(seq(|fields|, i requires 0 <= i < |fields| => SanitizeField(fields[i])))
    case List(items) =>
      List(seq(|items|, i requires 0 <= i < |items| => Sanitize(items[i])))
    case _ => v
  }

  /** A PII-keyed field is redacted; any other field keeps its value, with containers redacted inside. */
  function SanitizeField(f: Field): (g: Field)
    ensures g.key == f.key
    ensures IsPiiKey(f.key) ==> g.value == Str(Redacted)
    ensures !IsPiiKey(f.key) && !f.value.Dict? && !f.value.List? ==> g == f
    ensures !IsPiiKey(f.key) ==> g.value.Dict? == f.value.Dict? && g.value.List? == f.value.List?
    decreases f, 0
  {
    if IsPiiKey(f.key) then Field(f.key, Str(Redacted))
    else if f.value.Dict? || f.value.List? then Field(f.key, Sanitize(f.value))
    else f
  }

  /**
   * Next to PII keys, every other field of a dictionary survives: its value
   * is the redacted form of the original, so a scalar is kept as it was.
   */
  lemma SanitizeKeepsOtherFields(fields: seq<Field>, i: nat)
    requires i < |fields| && !IsPiiKey(fields[i].key)
    ensures Sanitize(Dict(fields)).fields[i].key == fields[i].key
    ensures Sanitize(Dict(fields)).fields[i].value == Sanitize(fields[i].value)
    ensures !fields[i].value.Dict? && !fields[i].value.List? ==> Sanitize(Dict(fields)).fields[i] == fields[i]
  {
  }

  /** A dictionary mixing PII and other keys: the PII values are redacted and the others kept. */
  method SanitizeMixedScenario()
  {
    var data := Dict([Field("phone_number", Str("+1234567890")), Field("email", Str("user@example.com")),
                      Field("name", Str("John Doe")), Field("latitude", Float(37.7749)),
                      Field("device_id", Str("device123"))]);
    var clean := Sanitize(data);
    LowerKeepsLowercase("phone_number");
    LowerKeepsLowercase("email");
    LowerKeepsLowercase("name");
    LowerKeepsLowercase("latitude");
    LowerKeepsLowercase("device_id");
    SanitizeKeepsOtherFields(data.fields, 3);
    SanitizeKeepsOtherFields(data.fields, 4);
    assert clean.fields[0].value == Str(Redacted) && clean.fields[1].value == Str(Redacted);
    assert clean.fields[2].value == Str(Redacted);
    assert clean.fields[3] == Field("latitude", Float(37.7749)) && clean.fields[4] == Field("device_id", Str("device123"));
  }

  /** Every PII-keyed field, at any depth, holds the redaction marker. */
  ghost predicate NoPii(v: Value)
  {
    match v
    case Dict(fields) =>
      forall i :: 0 <= i < |fields| ==>
        (if IsPiiKey(fields[i].key) then fields[i].value == Str(Redacted) else NoPii(fields[i].value))
    case List(items) => forall i :: 0 <= i < |items| ==> NoPii(items[i])
    case _ => true
  }

  /** No dictionary, at any depth, has a PII key. */
  ghost predicate PiiFree(v: Value)
  {
    match v
    case Dict(fields) =>
      forall i :: 0 <= i < |fields| ==> !IsPiiKey(fields[i].key) && PiiFree(fields[i].value)
    case List(items) => forall i :: 0 <= i < |items| ==> PiiFree(items[i])
    case _ => true
  }

  /** After redaction no personal value survives anywhere in the structure. */
  lemma {:induction false} SanitizeRemovesPii(v: Value)
    ensures NoPii(Sanitize(v))
  {
    match v
    case Dict(fields) =>
      var r := Sanitize(v);
      forall i | 0 <= i < |fields|
        ensures if IsPiiKey(r.fields[i].key) then r.fields[i].value == Str(Redacted)
                else NoPii(r.fields[i].value)
      {
        assert r.fields[i] == SanitizeField(fields[i]);
        if !IsPiiKey(fields[i].key) && (fields[i].value.Dict? || fields[i].value.List?) {
          SanitizeRemovesPii(fields[i].value);
        }
      }
    case List(items) =>
      forall i | 0 <= i < |items| ensures NoPii(Sanitize(v).items[i]) {
        SanitizeRemovesPii(items[i]);
      }
    case _ =>
  }

  /** Data without personal keys passes through redaction unchanged. */
  lemma {:induction false} SanitizeKeepsPiiFree(v: Value)
    requires PiiFree(v)
    ensures Sanitize(v) == v
  {
    match v
    case Dict(fields) =>
      forall i | 0 <= i < |fields| ensures SanitizeField(fields[i]) == fields[i] {
        if fields[i].value.Dict? || fields[i].value.List? {
          SanitizeKeepsPiiFree(fields[i].value);
        }
      }
      assert Sanitize(v).fields == fields;
    case List(items) =>
      forall i | 0 <= i < |items| ensures Sanitize(items[i]) == items[i] {
        SanitizeKeepsPiiFree(items[i]);
      }
      assert Sanitize(v).items == items;
    case _ =>
  }

  /** Redacting twice is redacting once. */
  lemma {:induction false} SanitizeIdempotent(v: Value)
    ensures Sanitize(Sanitize(v)) == Sanitize(v)
  {
    match v
    case Dict(fields) =>
      var r := Sanitize(v);
      forall i | 0 <= i < |fields| ensures SanitizeField(r.fields[i]) == r.fields[i] {
        assert r.fields[i] == SanitizeField(fields[i]);
        if !IsPiiKey(fields[i].key) && (fields[i].value.Dict? || fields[i].value.List?) {
          SanitizeIdempotent(fields[i].value);
        }
      }
      assert Sanitize(r).fields == r.fields;
    case List(items) =>
      var r := Sanitize(v);
      forall i | 0 <= i < |items| ensures Sanitize(r.items[i]) == r.items[i] {
        SanitizeIdempotent(items[i]);
      }
      assert Sanitize(r).items == r.items;
    case _ =>
  }

  // ---------------------------------------------------------------------------
  // Retry and fallback combinators (attempt counts only; sleeps are not modelled)

  /** One call to an external API: it returns a value or raises. */
  datatype CallOutcome<T> = Returned(value: T) | Raised

  /** The cache function, when one is given: returns a value (possibly None) or raises. */
  datatype CacheOutcome<T> = CacheReturned(value: Option<T>) | CacheRaised

  datatype ExternalApiError = ExternalApiError(service: string, statusCode: Option<int>)

  /**
   * `with_external_api_retry`: calls `api` until it returns, at most
   * `max_retries + 1` times; when every call raised, a non-None cached value
   * is returned, and otherwise ExternalAPIError for `service` is raised.
   * `calls` is how many times `api` was invoked.
   */
  method WithExternalApiRetry<T>(api: nat -> CallOutcome<T>, service: string,
                                 cache: Option<CacheOutcome<T>>, maxRetries: int)
    returns (r: Result<T, ExternalApiError>, calls: nat)
    ensures calls <= AttemptBudget(maxRetries)
    ensures var first := FirstIndex((j: nat) => api(j).Returned?, AttemptBudget(maxRetries));
            first.Some? ==> calls == first.value + 1 && r == Ok(api(first.value).value)
    ensures var first := FirstIndex((j: nat) => api(j).Returned?, AttemptBudget(maxRetries));
            first.None? ==> calls == AttemptBudget(maxRetries)
                            && r == (if cache.Some? && cache.value.CacheReturned? && cache.value.value.Some?
                                     then Ok(cache.value.value.value)
                                     else Err(ExternalApiError(service, None)))
  {
    var budget := AttemptBudget(maxRetries);
    calls := 0;
    while calls < budget
      invariant calls <= budget
      invariant FirstIndex((j: nat) => api(j).Returned?, calls) == None
    {
      var outcome := api(calls);
      calls := calls + 1;
      if outcome.Returned? {
        FirstIndexStable((j: nat) => api(j).Returned?, calls, budget);
        return Ok(outcome.value), calls;
      }
    }
    if cache.Some? && cache.value.CacheReturned? && cache.value.value.Some? {
      return Ok(cache.value.value.value), calls;
    }
    return Err(ExternalApiError(service, None)), calls;
  }

  /** One call to the database. */
  datatype DbOutcome<T> =
    | DbReturned(value: T)
    | OperationalError          // psycopg2.OperationalError: connection trouble, retried
    | TransactionRollback       // TransactionRollbackError: deadlock, retried
    | OtherDbError              // anything else: re-raised at once

  predicate Retryable<T>(o: DbOutcome<T>)
  {
    o.OperationalError? || o.TransactionRollback?
  }

  datatype DbFailure =
    | NonRetryable              // the original exception, re-raised
    | DatabaseError             // "Database operation failed: ..."

  /**
   * The wrapper `with_database_retry` installs: retryable errors are retried up
   * to `max_retries + 1` calls in all, then DatabaseError; the first call that
   * returns, or raises anything else, decides the result.
   */
  method WithDatabaseRetry<T>(db: nat -> DbOutcome<T>, maxRetries: int)
    returns (r: Result<T, DbFailure>, calls: nat)
    ensures calls <= AttemptBudget(maxRetries)
    ensures var first := FirstIndex((j: nat) => !Retryable(db(j)), AttemptBudget(maxRetries));
            first.Some? ==> calls == first.value + 1
                            && r == (if db(first.value).DbReturned? then Ok(db(first.value).value)
                                     else Err(NonRetryable))
    ensures var first := FirstIndex((j: nat) => !Retryable(db(j)), AttemptBudget(maxRetries));
            first.None? ==> calls == AttemptBudget(maxRetries) && r == Err(DatabaseError)
  {
    var budget := AttemptBudget(maxRetries);
    calls := 0;
    while calls < budget
      invariant calls <= budget
      invariant FirstIndex((j: nat) => !Retryable(db(j)), calls) == None
    {
      var outcome := db(calls);
      calls := calls + 1;
      if !Retryable(outcome) {
        FirstIndexStable((j: nat) => !Retryable(db(j)), calls, budget);
        if outcome.DbReturned? {
          return Ok(outcome.value), calls;
        }
        return Err(NonRetryable), calls;
      }
    }
    return Err(DatabaseError), calls;
  }

  /** The Redis call of `with_redis_fallback`. */
  datatype RedisOutcome<T> = RedisReturned(value: T) | RedisFailed | OtherFailure
  /** The fallback call, made only after a RedisError. */
  datatype FallbackOutcome<T> = FallbackReturned(value: T) | FallbackFailed

  datatype RedisFallbackError = CacheError | Reraised

  /**
   * `with_redis_fallback`: the Redis result when it returns; after a RedisError
   * the fallback's result, or CacheError when the fallback fails too; any other
   * exception propagates.
   */
  function WithRedisFallback<T>(primary: RedisOutcome<T>, fallback: FallbackOutcome<T>)
    : (r: Result<T, RedisFallbackError>)
    ensures primary.RedisReturned? ==> r == Ok(primary.value)
    ensures primary.OtherFailure? ==> r == Err(Reraised)
    ensures primary.RedisFailed? && fallback.FallbackReturned? ==> r == Ok(fallback.value)
    ensures primary.RedisFailed? && fallback.FallbackFailed? ==> r == Err(CacheError)
  {
    match primary
    case RedisReturned(v) => Ok(v)
    case OtherFailure => Err(Reraised)
    case RedisFailed =>
      match fallback
      case FallbackReturned(v) => Ok(v)
      case FallbackFailed => Err(CacheError)
  }

  /**
   * The fallback is consulted only after a RedisError: otherwise the result
   * is the same whatever the fallback would do; and CacheError is raised only
   * when both the Redis call and the fallback failed.
   */
  lemma FallbackOnlyAfterRedisError<T>(primary: RedisOutcome<T>, f1: FallbackOutcome<T>, f2: FallbackOutcome<T>)
    ensures !primary.RedisFailed? ==> WithRedisFallback(primary, f1) == WithRedisFallback(primary, f2)
    ensures WithRedisFallback(primary, f1) == Err(CacheError) <==> primary.RedisFailed? && f1.FallbackFailed?
  {
  }
}
