/**
 * The request schema of the location-ping endpoint: the device id must not
 * be blank and is kept stripped; latitude and longitude are bounded
 * inclusively; accuracy must be positive. Every failing field is reported,
 * in the order the fields are declared.
 */
module TelemetrySchema {
  import opened Wrappers
  import opened PyText
  import opened GeoBounds

  const EmptyDeviceIdMessage: string := "device_id cannot be empty"

  /**
   * `validate_device_id`: an empty or whitespace-only id is refused; any
   * other id is accepted with its surrounding whitespace removed.
   */
  function ValidateDeviceId(v: string): (r: Result<string, string>)
    ensures r.Err? <==> AllSpace(v)
    ensures r.Err? ==> r.error == EmptyDeviceIdMessage
    ensures r.Ok? ==> r.value != [] && !IsSpace(r.value[0]) && !IsSpace(r.value[|r.value| - 1])
  {
    StripEmptyIffAllSpace(v);
    StripEnds(v);
    if v == [] || Strip(v) == [] then Err(EmptyDeviceIdMessage) else Ok(Strip(v))
  }

  /** An accepted id is the input with only whitespace cut away from its two ends. */
  lemma ValidateDeviceIdTrims(v: string)
    requires ValidateDeviceId(v).Ok?
    ensures exists i, j :: 0 <= i <= j <= |v| && ValidateDeviceId(v).value == v[i..j]
                           && AllSpace(v[..i]) && AllSpace(v[j..])
  {
    StripSpec(v);
  }

  /** Re-validating an accepted id accepts it unchanged. */
  lemma ValidateDeviceIdIdempotent(v: string)
    requires ValidateDeviceId(v).Ok?
    ensures ValidateDeviceId(ValidateDeviceId(v).value) == ValidateDeviceId(v)
  {
    StripIdempotent(v);
    StripEmptyIffAllSpace(Strip(v));
  }

  /** `LocationPingRequest` once validated; `timestamp` is the parsed datetime, kept abstract. */
  datatype LocationPingRequest = LocationPingRequest(
    deviceId: string, latitude: real, longitude: real, timestamp: string, accuracy: real)

  /** The field constraints a request can violate, in declaration order. */
  datatype FieldError = BlankDeviceId | LatitudeOutOfRange | LongitudeOutOfRange | AccuracyNotPositive

  function FieldRank(e: FieldError): nat
  {
    match e
    case BlankDeviceId => 0
    case LatitudeOutOfRange => 1
    case LongitudeOutOfRange => 2
    case AccuracyNotPositive => 3
  }

  /** `Field(..., gt=0)` on accuracy. */
  predicate AccuracyValid(accuracy: real)
  {
    accuracy > 0.0
  }

  /** A request every constraint of the schema accepts. */
  predicate WellFormed(req: LocationPingRequest)
  {
    && ValidateDeviceId(req.deviceId) == Ok(req.deviceId)
    && LatitudeInRange(req.latitude) && LongitudeInRange(req.longitude)
    && AccuracyValid(req.accuracy)
  }

  /** Strictly increasing in declaration order, hence also without repetition. */
  predicate InFieldOrder(errors: seq<FieldError>)
  {
    forall i, j :: 0 <= i < j < |errors| ==> FieldRank(errors[i]) < FieldRank(errors[j])
  }

  /** `errors`, followed by `e` when `failed`; order is kept when `e` ranks after all of `errors`. */
  function ReportIf(errors: seq<FieldError>, failed: bool, e: FieldError): (r: seq<FieldError>)
    requires InFieldOrder(errors) && forall x :: x in errors ==> FieldRank(x) < FieldRank(e)
    ensures InFieldOrder(r)
    ensures forall x :: x in r <==> x in errors || (failed && x == e)
    ensures forall x :: x in r ==> FieldRank(x) <= FieldRank(e)
  {
    if failed then errors + [e] else errors
  }

  /**
   * The constraint violations of a request: each failing field reported
   * once, in declaration order, and nothing else.
   */
  function FieldErrors(deviceId: string, latitude: real, longitude: real, accuracy: real): (r: seq<FieldError>)
    ensures InFieldOrder(r)
    ensures BlankDeviceId in r <==> AllSpace(deviceId)
    ensures LatitudeOutOfRange in r <==> !LatitudeInRange(latitude)
    ensures LongitudeOutOfRange in r <==> !LongitudeInRange(longitude)
    ensures AccuracyNotPositive in r <==> !AccuracyValid(accuracy)
  {
    var e0 := ReportIf([], ValidateDeviceId(deviceId).Err?, BlankDeviceId);
    var e1 := ReportIf(e0, !(-90.0 <= latitude <= 90.0), LatitudeOutOfRange);
    var e2 := ReportIf(e1, !(-180.0 <= longitude <= 180.0), LongitudeOutOfRange);
    ReportIf(e2, !(accuracy > 0.0), AccuracyNotPositive)
  }

  /**
   * Validation of a whole request: accepted exactly when every field is,
   * with the stripped device id; otherwise all the violations are reported.
   */
  function ValidateRequest(deviceId: string, latitude: real, longitude: real,
                           timestamp: string, accuracy: real): (r: Result<LocationPingRequest, seq<FieldError>>)
    ensures r.Ok? <==> !AllSpace(deviceId) && LatitudeInRange(latitude) && LongitudeInRange(longitude)
                       && AccuracyValid(accuracy)
    ensures r.Ok? ==> r.value == LocationPingRequest(Strip(deviceId), latitude, longitude, timestamp, accuracy)
                      && WellFormed(r.value)
    ensures r.Err? ==> r.error != [] && r.error == FieldErrors(deviceId, latitude, longitude, accuracy)
  {
    var errors := FieldErrors(deviceId, latitude, longitude, accuracy);
    if errors == [] then
      ValidateDeviceIdIdempotent(deviceId);
      Ok(LocationPingRequest(ValidateDeviceId(deviceId).value, latitude, longitude, timestamp, accuracy))
    else
      Err(errors)
  }

  /** Validating the fields of an accepted request accepts it unchanged. */
  lemma ValidateRequestIdempotent(req: LocationPingRequest)
    requires WellFormed(req)
    ensures ValidateRequest(req.deviceId, req.latitude, req.longitude, req.timestamp, req.accuracy) == Ok(req)
  {
    var r := ValidateRequest(req.deviceId, req.latitude, req.longitude, req.timestamp, req.accuracy);
    assert !AllSpace(req.deviceId);
    StripIdempotent(req.deviceId);
    assert r.Ok?;
  }
}
