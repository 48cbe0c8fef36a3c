/**
 * The mobile client's error handler: input validators, the classification
 * of API, GPS and network errors into user-facing messages, per-type error
 * counters, and the retry-then-fallback wrapper.
 */
module ClientErrors {
  import opened Wrappers
  import opened PyText
  import opened PyValue
  import opened GeoBounds
  import opened Attempts
  import ServerErrors

  // ---------------------------------------------------------------------------
  // Classification

  datatype ErrorType = Network | Gps | Api | Validation | Permission | Unknown

  /** `ErrorType.value`. */
  function TypeValue(t: ErrorType): string
  {
    match t
    case Network => "network"
    case Gps => "gps"
    case Api => "api"
    case Validation => "validation"
    case Permission => "permission"
    case Unknown => "unknown"
  }

  /** `ErrorType(value)`: the type whose value is `s`, if there is one. */
  function TypeOfValue(s: string): (t: Option<ErrorType>)
    ensures t.Some? ==> TypeValue(t.value) == s
  {
    if s == "network" then Some(Network)
    else if s == "gps" then Some(Gps)
    else if s == "api" then Some(Api)
    else if s == "validation" then Some(Validation)
    else if s == "permission" then Some(Permission)
    else if s == "unknown" then Some(Unknown)
    else None
  }

  /**
   * Every type is recovered from its value, so distinct types have distinct
   * values and statistics keyed by value lose nothing.
   */
  lemma TypeValueRoundTrip(t: ErrorType)
    ensures TypeOfValue(TypeValue(t)) == Some(t)
  {
  }

  lemma TypeValueInjective(a: ErrorType, b: ErrorType)
    ensures TypeValue(a) == TypeValue(b) ==> a == b
  {
    TypeValueRoundTrip(a);
    TypeValueRoundTrip(b);
  }

  datatype Severity = Info | Warning | Error | Critical

  // ---------------------------------------------------------------------------
  // Validators

  const PhoneRequired: string := "Phone number is required"
  const PhoneOnlyDigits: string := "Phone number must contain only digits"
  const PhoneLength: string := "Phone number must be between 10 and 15 digits"

  /** `s[1:]` when `s` starts with '+', else `s`: only one '+' can go. */
  function DropLeadingPlus(s: string): (c: string)
    ensures |c| <= |s|
    ensures forall x :: x != '+' ==> multiset(c)[x] == multiset(s)[x]
    ensures multiset(c)['+'] <= multiset(s)['+'] <= multiset(c)['+'] + 1
    ensures |s| > 0 && s[0] == '+' ==> c == s[1..]
    ensures !(|s| > 0 && s[0] == '+') ==> c == s
  {
    if |s| > 0 && s[0] == '+' then
      assert s == [s[0]] + s[1..];
      s[1..]
    else s
  }

  /**
   * The phone number with spaces and dashes deleted and one leading '+'
   * dropped: no space or dash is left, every other character keeps its
   * number of occurrences except '+', which loses at most one.
   */
  function CleanPhone(phone: string): (c: string)
    ensures |c| <= |phone|
    ensures ' ' !in c && '-' !in c
    ensures forall x :: x != ' ' && x != '-' && x != '+' ==> multiset(c)[x] == multiset(phone)[x]
    ensures multiset(c)['+'] <= multiset(phone)['+'] <= multiset(c)['+'] + 1
  {
    var spaceless := Remove(phone, ' ');
    var stripped := Remove(spaceless, '-');
    assert multiset(stripped)[' '] == multiset(spaceless)[' '] == 0;
    DropLeadingPlus(stripped)
  }

  /**
   * `validate_phone_number`: a non-empty number whose cleaned form is all
   * digits, 10 to 15 of them. An empty input is reported as missing; a
   * non-digit is reported before a bad length.
   */
  function ValidatePhoneNumber(phone: string): (v: Verdict<string>)
    ensures v.isValid <==> v.error.None?
    ensures v.isValid <==> phone != [] && IsDigits(CleanPhone(phone)) && 10 <= |CleanPhone(phone)| <= 15
    ensures phone == [] ==> v.error == Some(PhoneRequired)
    ensures (phone != [] && !IsDigits(CleanPhone(phone))) ==> v.error == Some(PhoneOnlyDigits)
    ensures (phone != [] && IsDigits(CleanPhone(phone)) && !(10 <= |CleanPhone(phone)| <= 15))
              ==> v.error == Some(PhoneLength)
  {
    if phone == [] then Verdict(false, Some(PhoneRequired))
    else
      var cleaned := CleanPhone(phone);
      if !IsDigits(cleaned) then Verdict(false, Some(PhoneOnlyDigits))
      else if |cleaned| < 10 || |cleaned| > 15 then Verdict(false, Some(PhoneLength))
      else Verdict(true, None)
  }

  /** Deleting a character that does not occur changes nothing. */
  lemma {:induction false} RemoveAbsent(s: string, c: char)
    requires c !in s
    ensures Remove(s, c) == s
  {
    if s != [] {
      RemoveAbsent(s[1..], c);
    }
  }

  /**
   * A '+' that follows anything but a space or a dash is still there once
   * spaces and dashes are deleted, and not in first position.
   */
  lemma {:induction false} PlusAfterContentSurvives(s: string)
    ensures forall i, j :: 0 <= i < j < |s| && s[i] !in " -" && s[j] == '+' ==>
              |Remove(Remove(s, ' '), '-')| > 1 && '+' in Remove(Remove(s, ' '), '-')[1..]
  {
    if s != [] {
      PlusAfterContentSurvives(s[1..]);
      var r := Remove(Remove(s, ' '), '-');
      var t := Remove(Remove(s[1..], ' '), '-');
      assert s == [s[0]] + s[1..];
      if s[0] !in " -" {
        assert Remove(s, ' ') == [s[0]] + Remove(s[1..], ' ');
        assert ([s[0]] + Remove(s[1..], ' '))[1..] == Remove(s[1..], ' ');
        assert r == [s[0]] + t;
        forall i, j | 0 <= i < j < |s| && s[i] !in " -" && s[j] == '+' ensures |r| > 1 && '+' in r[1..] {
          assert s[1..][j - 1] == '+';
          assert multiset(t)['+'] == multiset(s[1..])['+'] > 0;
          assert r[1..] == t;
        }
      } else {
        assert r == t by {
          if s[0] == '-' {
            assert Remove(s, ' ') == ['-'] + Remove(s[1..], ' ');
            assert (['-'] + Remove(s[1..], ' '))[1..] == Remove(s[1..], ' ');
          }
        }
        forall i, j | 0 <= i < j < |s| && s[i] !in " -" && s[j] == '+' ensures |r| > 1 && '+' in r[1..] {
          assert s[1..][i - 1] == s[i] && s[1..][j - 1] == s[j];
        }
      }
    }
  }

  /**
   * An accepted number is made of digits, spaces, dashes and at most one '+',
   * and a '+' is preceded by nothing but spaces and dashes.
   */
  lemma AcceptedPhoneAlphabet(phone: string)
    requires ValidatePhoneNumber(phone).isValid
    ensures forall i :: 0 <= i < |phone| ==> IsDigit(phone[i]) || phone[i] in " -+"
    ensures multiset(phone)['+'] <= 1
    ensures forall i, j :: 0 <= i < j < |phone| && phone[j] == '+' ==> phone[i] in " -"
  {
    var cleaned := CleanPhone(phone);
    assert '+' !in cleaned;
    var r := Remove(Remove(phone, ' '), '-');
    assert |r| > 1 ==> '+' !in r[1..] by {
      if |r| > 1 && r[0] != '+' {
        assert cleaned == r;
        assert forall x :: x in r[1..] ==> x in r;
      }
    }
    PlusAfterContentSurvives(phone);
    forall i | 0 <= i < |phone| ensures IsDigit(phone[i]) || phone[i] in " -+" {
      var x := phone[i];
      if x !in " -+" {
        assert multiset(cleaned)[x] == multiset(phone)[x] > 0;
        var k :| 0 <= k < |cleaned| && cleaned[k] == x;
      }
    }
  }

  /** A plain string of 10 to 15 digits is accepted. */
  lemma DigitStringsAccepted(phone: string)
    requires IsDigits(phone) && 10 <= |phone| <= 15
    ensures ValidatePhoneNumber(phone).isValid
  {
    assert ' ' !in phone by {
      forall i | 0 <= i < |phone| ensures phone[i] != ' ' { assert IsDigit(phone[i]); }
    }
    RemoveAbsent(phone, ' ');
    assert '-' !in phone by {
      forall i | 0 <= i < |phone| ensures phone[i] != '-' { assert IsDigit(phone[i]); }
    }
    RemoveAbsent(phone, '-');
    assert phone[0] != '+' by { assert IsDigit(phone[0]); }
  }

  /** A 10-to-15-digit number behind a single leading '+' is accepted. */
  lemma PlusPrefixedAccepted(d: string)
    requires IsDigits(d) && 10 <= |d| <= 15
    ensures ValidatePhoneNumber(['+'] + d).isValid
  {
    var phone := ['+'] + d;
    assert ' ' !in d by {
      forall i | 0 <= i < |d| ensures d[i] != ' ' { assert IsDigit(d[i]); }
    }
    assert '-' !in d by {
      forall i | 0 <= i < |d| ensures d[i] != '-' { assert IsDigit(d[i]); }
    }
    RemoveAbsent(d, ' ');
    RemoveAbsent(d, '-');
    assert phone[1..] == d;
    assert Remove(phone, ' ') == phone;
    assert Remove(phone, '-') == phone;
    assert CleanPhone(phone) == d;
  }

  /** The client's coordinate complaints. */
  datatype CoordComplaint =
    | LatitudeOutOfRange(lat: real)
    | LongitudeOutOfRange(lng: real)
    | NotNumbers

  /**
   * The client's `validate_coordinates`: a conversion failure of either
   * argument is reported first, then latitude, then longitude; both bounds
   * inclusive.
   */
  function ValidateCoordinates(lat: CoordInput, lng: CoordInput): (v: Verdict<CoordComplaint>)
    ensures v.isValid <==> v.error.None?
    ensures v.isValid <==> lat.Numeric? && lng.Numeric?
                           && LatitudeInRange(lat.value) && LongitudeInRange(lng.value)
    ensures (lat.NonNumeric? || lng.NonNumeric?) ==> v.error == Some(NotNumbers)
    ensures (lat.Numeric? && lng.Numeric? && !LatitudeInRange(lat.value))
              ==> v.error == Some(LatitudeOutOfRange(lat.value))
    ensures (lat.Numeric? && lng.Numeric? && LatitudeInRange(lat.value) && !LongitudeInRange(lng.value))
              ==> v.error == Some(LongitudeOutOfRange(lng.value))
  {
    if lat.NonNumeric? || lng.NonNumeric? then Verdict(false, Some(NotNumbers))
    else if !(-90.0 <= lat.value <= 90.0) then Verdict(false, Some(LatitudeOutOfRange(lat.value)))
    else if !(-180.0 <= lng.value <= 180.0) then Verdict(false, Some(LongitudeOutOfRange(lng.value)))
    else Verdict(true, None)
  }

  /**
   * The client and the server accept exactly the same coordinates, and
   * complain about the same coordinate first.
   */
  lemma CoordinateValidatorsAgree(lat: CoordInput, lng: CoordInput)
    ensures ValidateCoordinates(lat, lng).isValid == ServerErrors.ValidateCoordinates(lat, lng).isValid
    ensures ValidateCoordinates(lat, lng).error == Some(NotNumbers)
            <==> ServerErrors.ValidateCoordinates(lat, lng).error.Some?
                 && ServerErrors.ValidateCoordinates(lat, lng).error.value.InvalidFormat?
    ensures ValidateCoordinates(lat, lng).error.Some? && ValidateCoordinates(lat, lng).error.value.LatitudeOutOfRange?
            <==> ServerErrors.ValidateCoordinates(lat, lng).error.Some?
                 && ServerErrors.ValidateCoordinates(lat, lng).error.value.InvalidLatitude?
  {
  }

  /**
   * `validate_required_field`: None and strings that are blank after
   * stripping are refused with "<field> is required"; everything else,
   * including other falsy values, is accepted.
   */
  function ValidateRequiredField(value: Value, fieldName: string): (v: Verdict<string>)
    ensures v.isValid <==> v.error.None?
    ensures !v.isValid <==> value.Null? || (value.Str? && AllSpace(value.s))
    ensures !v.isValid ==> v.error == Some(fieldName + " is required")
  {
    match value
    case Null => Verdict(false, Some(fieldName + " is required"))
    case Str(s) =>
      StripEmptyIffAllSpace(s);
      if Strip(s) == [] then Verdict(false, Some(fieldName + " is required")) else Verdict(true, None)
    case _ => Verdict(true, None)
  }

  // ---------------------------------------------------------------------------
  // Message tables

  /** The dictionary `handle_api_error` returns. */
  datatype ApiErrorReport = ApiErrorReport(
    error: bool, message: string, statusCode: Option<int>, canRetry: bool, useCache: bool, severity: Severity)

  /**
   * The classification of an API error by status code: a retry is advised
   * for everything except authentication failures (401, 403) and 404.
   */
  function ClassifyApiError(statusCode: Option<int>, useCache: bool): (r: ApiErrorReport)
    ensures r.error && r.statusCode == statusCode && r.useCache == useCache
    ensures !r.canRetry <==> statusCode == Some(401) || statusCode == Some(403) || statusCode == Some(404)
    ensures r.severity == Error <==> statusCode.Some? && (statusCode.value in {401, 403}
                                                          || 500 <= statusCode.value < 600)
    ensures (statusCode.Some? && 500 <= statusCode.value < 600) ==> r.message == "Server error. Please try again later."
    ensures statusCode == Some(429) ==> r.message == "Too many requests. Please wait a moment and try again."
  {
    if statusCode == Some(429) then
      ApiErrorReport(true, "Too many requests. Please wait a moment and try again.", statusCode, true, useCache, Warning)
    else if statusCode == Some(401) || statusCode == Some(403) then
      ApiErrorReport(true, "Authentication failed. Please log in again.", statusCode, false, useCache, Error)
    else if statusCode == Some(404) then
      ApiErrorReport(true, "Requested resource not found.", statusCode, false, useCache, Warning)
    else if statusCode.Some? && statusCode.value != 0 && 500 <= statusCode.value < 600 then
      ApiErrorReport(true, "Server error. Please try again later.", statusCode, true, useCache, Error)
    else
      ApiErrorReport(true, "Unable to connect to server. Using cached data if available.",
                     statusCode, true, useCache, Warning)
  }

  /** The message and severity of a GPS error, by its optional error code. */
  function ClassifyGpsError(errorCode: Option<string>): (r: (string, Severity))
    ensures r.1 == Error <==> errorCode == Some("PERMISSION_DENIED")
    ensures r.1 == Info <==> errorCode == Some("LOW_ACCURACY")
    ensures r.1 != Critical
    ensures !(errorCode.Some? && errorCode.value in {"PERMISSION_DENIED", "GPS_UNAVAILABLE", "LOW_ACCURACY", "TIMEOUT"})
            ==> r == ("Unable to determine your location. Please try again.", Warning)
  {
    if errorCode == Some("PERMISSION_DENIED") then
      ("Location permission denied. Please enable location access in settings.", Error)
    else if errorCode == Some("GPS_UNAVAILABLE") then
      ("GPS is currently unavailable. Please ensure location services are enabled.", Warning)
    else if errorCode == Some("LOW_ACCURACY") then
      ("GPS accuracy is low. Some features may be degraded.", Info)
    else if errorCode == Some("TIMEOUT") then
      ("Location request timed out. Retrying...", Warning)
    else
      ("Unable to determine your location. Please try again.", Warning)
  }

  const NetworkMessage: string := "Network connection unavailable. Please check your internet connection."

  // ---------------------------------------------------------------------------
  // Counters and the retry wrapper

  /** An entry of `last_errors`. */
  datatype LastError = LastError(message: string, timestamp: string, count: int)

  /** What `get_error_stats` returns: both maps re-keyed by the type's string value. */
  datatype ErrorStats = ErrorStats(errorCounts: map<string, int>, lastErrors: map<string, LastError>)

  /** One call of the wrapped function: its result, or the text of what it raised. */
  datatype Attempt<T> = Succeeded(value: T) | Failed(message: string)

  /** The fallback, when one is given: its result, or a failure. */
  datatype Fallback<T> = FallbackReturned(value: T) | FallbackFailed

  /**
   * How `with_retry` ends without a result: re-raising the last exception,
   * or, when no attempt was made at all (a negative retry count), raising
   * `None`, which Python turns into a TypeError.
   */
  datatype RetryFailure = Reraised(message: string) | RaisedNothing

  /** A map over error types re-keyed by each type's value. */
  function ByValue<V>(m: map<ErrorType, V>): (r: map<string, V>)
    ensures forall t :: TypeValue(t) in r <==> t in m
    ensures forall t :: t in m ==> r[TypeValue(t)] == m[t]
    ensures forall k :: k in r ==> TypeOfValue(k).Some? && TypeOfValue(k).value in m
  {
    var r := map t | t in m :: TypeValue(t) := m[t];
    forall t | t in m ensures r[TypeValue(t)] == m[t] {
      forall u | u in m && TypeValue(u) == TypeValue(t) ensures u == t {
        TypeValueInjective(u, t);
      }
    }
    forall t | TypeValue(t) in r ensures t in m {
      var u :| u in m && TypeValue(u) == TypeValue(t);
      TypeValueInjective(u, t);
    }
    forall k | k in r ensures TypeOfValue(k).Some? && TypeOfValue(k).value in m {
      var u :| u in m && TypeValue(u) == k;
      TypeValueRoundTrip(u);
    }
    r
  }

  /** The counter of `t` in `counts`, 0 when it has none. */
  function CountOf(counts: map<ErrorType, int>, t: ErrorType): int
  {
    if t in counts then counts[t] else 0
  }

  /** The text of a failed call, "" for a successful one. */
  function FailureText<T>(a: Attempt<T>): string
  {
    if a.Failed? then a.message else ""
  }

  /** The counters after `k` failures of type `t` have been tracked. */
  function CountsAfter(counts: map<ErrorType, int>, t: ErrorType, k: nat): map<ErrorType, int>
  {
    if k == 0 then counts else counts[t := CountOf(counts, t) + k]
  }

  /** The last errors after the failures of calls `0..k-1` of `func` have been tracked as type `t`. */
  function LastAfter<T>(last: map<ErrorType, LastError>, counts: map<ErrorType, int>, t: ErrorType,
                        func: nat -> Attempt<T>, clock: nat -> string, k: nat): map<ErrorType, LastError>
  {
    if k == 0 then last
    else last[t := LastError(FailureText(func(k - 1)), clock(k - 1), CountOf(counts, t) + k)]
  }

  /** Tracking an error of type `t` raises its counter by exactly one and leaves the others alone. */
  lemma TrackedCount(counts: map<ErrorType, int>, t: ErrorType)
    ensures CountOf(counts[t := CountOf(counts, t) + 1], t) == CountOf(counts, t) + 1
    ensures forall u :: u != t ==> CountOf(counts[t := CountOf(counts, t) + 1], u) == CountOf(counts, u)
  {
  }

  /** Every type with a last error has a counter, and no counter is negative. */
  ghost predicate Consistent(counts: map<ErrorType, int>, last: map<ErrorType, LastError>)
  {
    && (forall t :: t in last ==> t in counts)
    && (forall t :: t in counts ==> counts[t] >= 0)
  }

  /** Tracking failures, and then resetting a counter to 0, keep the maps consistent. */
  lemma TrackingKeepsConsistent<T>(last: map<ErrorType, LastError>, counts: map<ErrorType, int>, t: ErrorType,
                                   func: nat -> Attempt<T>, clock: nat -> string, k: nat)
    requires Consistent(counts, last)
    ensures var c := CountsAfter(counts, t, k);
            && Consistent(c, LastAfter(last, counts, t, func, clock, k))
            && (t in c ==> Consistent(c[t := 0], LastAfter(last, counts, t, func, clock, k)))
  {
  }

  /** Tracking one more failure advances both maps by one call. */
  lemma TrackStep<T>(last: map<ErrorType, LastError>, counts: map<ErrorType, int>, t: ErrorType,
                     func: nat -> Attempt<T>, clock: nat -> string, k: nat)
    requires func(k).Failed?
    ensures var c := CountsAfter(counts, t, k);
            c[t := CountOf(c, t) + 1] == CountsAfter(counts, t, k + 1)
    ensures var c := CountsAfter(counts, t, k);
            LastAfter(last, counts, t, func, clock, k)[t := LastError(func(k).message, clock(k), CountOf(c, t) + 1)]
            == LastAfter(last, counts, t, func, clock, k + 1)
  {
  }

  class ErrorHandler {
    var errorCounts: map<ErrorType, int>
    var lastErrors: map<ErrorType, LastError>

    ghost predicate Valid()
      reads this
    {
      Consistent(errorCounts, lastErrors)
    }

    constructor ()
      ensures errorCounts == map[] && lastErrors == map[]
      ensures Valid()
    {
      errorCounts := map[];
      lastErrors := map[];
    }

    /**
     * `_track_error`: the counter of `t` goes up by exactly one and the last
     * error of `t` records the message, the time and the new count; other
     * types are untouched.
     */
    method TrackError(t: ErrorType, message: string, now: string)
      modifies this`errorCounts, this`lastErrors
      ensures errorCounts == old(errorCounts)[t := CountOf(old(errorCounts), t) + 1]
      ensures lastErrors == old(lastErrors)[t := LastError(message, now, CountOf(old(errorCounts), t) + 1)]
      ensures old(Valid()) ==> Valid()
    {
      if t !in errorCounts {
        errorCounts := errorCounts[t := 0];
      }
      errorCounts := errorCounts[t := errorCounts[t] + 1];
      lastErrors := lastErrors[t := LastError(message, now, errorCounts[t])];
    }

    /** `get_error_stats`: the same counters and last errors, keyed by the type's value. */
    function ErrorStatistics(): (s: ErrorStats)
      reads this
      ensures forall t :: TypeValue(t) in s.errorCounts <==> t in errorCounts
      ensures forall t :: t in errorCounts ==> s.errorCounts[TypeValue(t)] == errorCounts[t]
      ensures forall t :: TypeValue(t) in s.lastErrors <==> t in lastErrors
      ensures forall t :: t in lastErrors ==> s.lastErrors[TypeValue(t)] == lastErrors[t]
      ensures forall k :: k in s.errorCounts ==> TypeOfValue(k).Some?
    {
      ErrorStats(ByValue(errorCounts), ByValue(lastErrors))
    }

    /** `reset_error_stats`: both maps emptied. */
    method ResetErrorStats()
      modifies this`errorCounts, this`lastErrors
      ensures errorCounts == map[] && lastErrors == map[]
      ensures Valid()
      ensures forall t :: CountOf(errorCounts, t) == 0
    {
      errorCounts := map[];
      lastErrors := map[];
    }

    /** `handle_network_error`: tracked as a network error; a fixed message. */
    method HandleNetworkError(errorText: string, now: string) returns (message: string)
      modifies this`errorCounts, this`lastErrors
      ensures message == NetworkMessage
      ensures errorCounts == old(errorCounts)[Network := CountOf(old(errorCounts), Network) + 1]
      ensures lastErrors == old(lastErrors)[Network := LastError(errorText, now, CountOf(old(errorCounts), Network) + 1)]
    {
      TrackError(Network, errorText, now);
      message := NetworkMessage;
    }

    /** `handle_gps_error`: tracked as a GPS error; the message its code selects. */
    method HandleGpsError(errorText: string, errorCode: Option<string>, now: string) returns (message: string)
      modifies this`errorCounts, this`lastErrors
      ensures message == ClassifyGpsError(errorCode).0
      ensures errorCounts == old(errorCounts)[Gps := CountOf(old(errorCounts), Gps) + 1]
      ensures lastErrors == old(lastErrors)[Gps := LastError(errorText, now, CountOf(old(errorCounts), Gps) + 1)]
    {
      TrackError(Gps, errorText, now);
      message := ClassifyGpsError(errorCode).0;
    }

    /** `handle_api_error`: tracked as an API error; the report its status code selects. */
    method HandleApiError(errorText: string, statusCode: Option<int>, useCache: bool, now: string)
      returns (report: ApiErrorReport)
      modifies this`errorCounts, this`lastErrors
      ensures report == ClassifyApiError(statusCode, useCache)
      ensures errorCounts == old(errorCounts)[Api := CountOf(old(errorCounts), Api) + 1]
      ensures lastErrors == old(lastErrors)[Api := LastError(errorText, now, CountOf(old(errorCounts), Api) + 1)]
    {
      TrackError(Api, errorText, now);
      report := ClassifyApiError(statusCode, useCache);
    }

    /**
     * `with_retry`: calls `func` until it succeeds, at most `max_retries + 1`
     * times, tracking every failure as an error of type `t` (at time
     * `clock(i)` for call `i`). A success returns the result and resets the
     * counter of `t` if it has one. When every call failed, the fallback's
     * result is returned if a fallback is given and succeeds; otherwise the
     * last exception is re-raised. `calls` is how many times `func` ran.
     */
    method WithRetry<T>(func: nat -> Attempt<T>, maxRetries: int, fallback: Option<Fallback<T>>,
                        t: ErrorType, clock: nat -> string)
      returns (r: Result<T, RetryFailure>, calls: nat)
      modifies this`errorCounts, this`lastErrors
      ensures calls <= AttemptBudget(maxRetries)
      ensures var first := FirstIndex((j: nat) => func(j).Succeeded?, AttemptBudget(maxRetries));
              first.Some? ==>
                && calls == first.value + 1
                && r == Ok(func(first.value).value)
                && lastErrors == LastAfter(old(lastErrors), old(errorCounts), t, func, clock, first.value)
                && errorCounts == (var c := CountsAfter(old(errorCounts), t, first.value);
                                   if t in c then c[t := 0] else c)
      ensures var first := FirstIndex((j: nat) => func(j).Succeeded?, AttemptBudget(maxRetries));
              first.None? ==>
                && calls == AttemptBudget(maxRetries)
                && r == (if fallback.Some? && fallback.value.FallbackReturned? then Ok(fallback.value.value)
                         else if calls > 0 then Err(Reraised(FailureText(func(calls - 1))))
                         else Err(RaisedNothing))
                && errorCounts == CountsAfter(old(errorCounts), t, calls)
                && lastErrors == LastAfter(old(lastErrors), old(errorCounts), t, func, clock, calls)
    {
      var budget := AttemptBudget(maxRetries);
      var last: Option<string> := None;
      calls := 0;
      while calls < budget
        invariant calls <= budget
        invariant forall j :: 0 <= j < calls ==> func(j).Failed?
        invariant last == (if calls > 0 then Some(FailureText(func(calls - 1))) else None)
        invariant errorCounts == CountsAfter(old(errorCounts), t, calls)
        invariant lastErrors == LastAfter(old(lastErrors), old(errorCounts), t, func, clock, calls)
      {
        var outcome := func(calls);
        if outcome.Succeeded? {
          FirstIndexAt((j: nat) => func(j).Succeeded?, calls, budget);
          if t in errorCounts {
            errorCounts := errorCounts[t := 0];
          }
          return Ok(outcome.value), calls + 1;
        }
        TrackStep(old(lastErrors), old(errorCounts), t, func, clock, calls);
        TrackError(t, outcome.message, clock(calls));
        last := Some(outcome.message);
        calls := calls + 1;
      }
      if fallback.Some? && fallback.value.FallbackReturned? {
        return Ok(fallback.value.value), calls;
      }
      if last.Some? {
        return Err(Reraised(last.value)), calls;
      }
      return Err(RaisedNothing), calls;
    }
  }

  /** Two network errors and one GPS error: counted 2 and 1, reported under "network" and "gps". */
  method ErrorStatsScenario()
  {
    var handler := new ErrorHandler();
    handler.TrackError(Network, "Error 1", "t1");
    handler.TrackError(Network, "Error 2", "t2");
    handler.TrackError(Gps, "Error 3", "t3");
    assert handler.errorCounts[Network] == 2 && handler.errorCounts[Gps] == 1;
    var stats := handler.ErrorStatistics();
    assert stats.errorCounts[TypeValue(Network)] == 2 && stats.errorCounts[TypeValue(Gps)] == 1;
    assert TypeValue(Network) in stats.lastErrors && TypeValue(Gps) in stats.lastErrors;
    assert stats.errorCounts["network"] == 2 && stats.errorCounts["gps"] == 1;
  }
}
