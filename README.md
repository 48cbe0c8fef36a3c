# NIRBHAYA telemetry and offline-sync core, modelled in Dafny

NIRBHAYA is a personal-safety system. A mobile client reports its position as
*location pings*. A backend stores them in Redis as a short-lived presence
store, and other clients query that store for nearby devices. This project
models the logic that decides admission, presence and queueing on both sides:

- **Rate limiter** (`RateLimiting`): the per-key sliding-window limiter, with a
  sorted set of request timestamps per key. A check purges what fell out of the
  window, counts the rest, records the current request whatever the outcome,
  and admits when the count was below the limit.
- **Presence store** (`Telemetry`): three Redis tables — the geo set, one
  expiring TTL marker per device, and one expiring metadata hash per device.
  Stores, reads, the nearby-device search and the cleanup that emulates a TTL
  for geo members.
- **Ingestion endpoint and request schema** (`TelemetryApi`,
  `TelemetrySchema`): rate check, then coordinate check, then store. Each
  outcome or exception kind maps to a fixed error code and HTTP status. Also
  the health probe, and the schema's device-id trimming and field bounds.
- **Server error utilities** (`ServerErrors`):
  - the error envelope;
  - the required-field and coordinate validators;
  - the connection-pool monitor with its throttle;
  - recursive PII redaction;
  - the attempt logic of the database, external-API and Redis-fallback
    combinators.
- **Client error handler** (`ClientErrors`):
  - the phone, coordinate and required-field validators;
  - the API and GPS error classification tables;
  - per-type error counters;
  - the retry-then-fallback wrapper.
- **Client queues** (`OfflineSync`, `LocationTracking`, with the shared
  `BoundedQueue`):
  - the offline queue's three capped lists, which drop the oldest item first;
  - their drains, which pop only on success and give up after a run of
    consecutive failures;
  - the re-entrancy flag of a synchronisation;
  - the location service's own 100-ping queue and its send-or-queue logic;
  - the battery-based ping-interval table.

Small shared modules model what the code borrows from Python:

- `Wrappers`: `None`, results and the `(is_valid, error)` pair.
- `PyText`: `strip`, `lower`, `isdigit` and character removal, over ASCII.
- `PyValue`: JSON-like values and insertion-ordered dictionaries.
- `GeoBounds`: the inclusive coordinate bounds and the result of `float()`.
- `Attempts`: first-success and counting over a sequence of calls.
- `Clock`: non-negative `time.time()` readings and Python's `int()` on them.

**Where the code's state lives, the model has classes:**

- `RateLimiter`: a map from key to timestamp set.
- `TelemetryService`: the geo map, the marker set and the metadata map.
- `ResourceMonitor`.
- The client `ErrorHandler`: its two counter maps.
- `OfflineQueue`.
- `LocationService`.
- `BatteryOptimizer`.

Loops in the source are `while` loops with invariants, proved against a
specification function or predicate. Pure decision procedures are functions.

**Every outside party is an oracle, indexed by call number:**

- an API function;
- a database call;
- a send callback;
- the backend send of a ping.

So every schedule of successes, failures and exceptions is covered.

**Other outside inputs become parameters:**

- Redis failures are fault parameters: which call raises, and with what text.
- Clock readings and random draws are parameters.
- The radius search is an oracle whose ordered hits are given.
- The member list ZRANGE returns to the cleanup is given.

Time in the rate limiter and the resource monitor is a non-negative real
number of seconds, as `time.time()` returns. Integer ticks would make it impossible to express
requests that are distinct but less than a second apart. That case matters,
because the sorted-set member is the clock reading itself.

Methods whose names end in `Scenario` replay concrete cases, such as a
cleanup whose DEL fails, on the model's own operations. They carry no
contract of their own.

Where the code and its description differ, the model follows the code:

- The 429 answer carries `retry_after` only in its `details`. The code sets no
  `Retry-After` header.
- The bound of at most `max_requests` admissions per window holds only for
  requests at pairwise distinct instants. Two requests at one instant share a
  sorted-set member, so they count once. `WindowAdmitsAtMostMax` states the
  bound under that premise.
- The retry delay of `_sync_queue` is capped at 60 s in the code. The cap is
  never reached, because at most five failures come in a row, so the delay
  never exceeds 16 s. `SyncQueue` proves that bound.
- Consider a ping whose every send attempt raised a `NetworkError`.
  `with_retry` tracks each failure as a network error. `_send_ping` then tracks
  the re-raised exception once more. `SendPing` states this double count.

## Model

| member | source | states |
|---|---|---|
| `Clock.Truncate` | backend/utils/rate_limiter.py:69 | Python's `int()` on a float truncates toward zero: a non-negative `x` gives the `n` with `n <= x < n + 1`, a negative one the `n` with `x <= n < x + 1`. |
| `RateLimiting.Admit` | backend/utils/rate_limiter.py:28-73 | One check: the entries left are the purged entries plus `now`, all within the window. It admits iff the purged count is below the limit. An admission has no delay and leaves at most `max_requests` entries. A refusal has a delay in `1..window+1`, and at most `window` when an older entry is still live. |
| `RateLimiting.Remaining` | backend/utils/rate_limiter.py:75-96 | Never negative. It is 0 iff the live count reaches the limit; otherwise the remaining count plus the live count is the limit. |
| `RateLimiting.RemainingPredictsAdmission` | backend/utils/rate_limiter.py:61-96 | `get_remaining` is positive exactly when a check at the same instant would be admitted. |
| `RateLimiting.RunChecksCount` | backend/utils/rate_limiter.py:48-64 | The checks are strictly increasing in time, within one window, over settled entries. Check `i` is admitted iff the entries live at the first check, plus `i`, stay below the limit. |
| `RateLimiting.WindowAdmitsAtMostMax` | backend/utils/rate_limiter.py:48-64 | Boundedness: from an empty window, requests at distinct instants within one window are admitted for the first `max_requests` and refused for all later ones. |
| `RateLimiting.RateLimiter.constructor` | backend/utils/rate_limiter.py:16-26 | A missing or zero limit falls back to the default of 100. The window is the given one, and no key has entries. |
| `RateLimiting.RateLimiter.IsAllowed` | backend/utils/rate_limiter.py:28-73 | Decision and new entries as `Admit` describes. `now` is recorded whether admitted or not, every other recorded time is inside the window, and no other key changes. |
| `RateLimiting.RateLimiter.GetRemaining` | backend/utils/rate_limiter.py:75-96 | Reports `Remaining` of the old entries. It purges the key, records nothing and touches no other key. |
| `Telemetry.NextPingInterval` | backend/services/telemetry_service.py:100 | The interval hint is always in 30..60, and every value of that range is produced by some draw. |
| `Telemetry.LiveHits` | backend/services/telemetry_service.py:228-244 | Only hits with a live marker are kept, each converted from a hit. Every live hit is kept, and all are kept when all are live. |
| `Telemetry.TelemetryService.constructor` | backend/services/telemetry_service.py:28-30 | The three tables start empty. |
| `Telemetry.TelemetryService.StorePing` | backend/services/telemetry_service.py:32-118 | Latitude, then longitude, outside the inclusive bounds raises ValueError before any write. Geo entry, marker and metadata are written in that order; a Redis fault keeps the earlier writes and raises CacheError with the Redis text. On success `stored` is true iff the device was new, the interval is in 30..60, the ping reads back exactly, and no other device changes (last write wins). |
| `Telemetry.TelemetryService.LocationPing` | backend/services/telemetry_service.py:120-160 | None without a marker, whatever the geo and metadata state. A record exists iff nothing raises and the marker, geo entry and metadata all exist. Its position comes from the geo set; its accuracy and timestamp come from the metadata. |
| `Telemetry.TelemetryService.CleanupExpiredPings` | backend/services/telemetry_service.py:162-196 | Walks the ZRANGE result in order. Each marker-less member is removed from the geo set and then its hash is dropped. Without a fault every expired member goes from both tables, the count is their number and nothing expired remains. A fault at ZRANGE removes nothing. A fault on the marker check of member `k`, or on its ZREM or DEL, keeps the removals of the first `k` members. A failing DEL also leaves that member out of the geo set but keeps its hash. The count is then 0. |
| `Telemetry.CleanupRemovesOnlyExpired` | backend/services/telemetry_service.py:175-187 | Whatever the fault, everything removed from either table was expired (listed and marker-less). Without a fault reached, what is removed is exactly the expired set. |
| `Telemetry.ExpiredPrefixAll` | backend/services/telemetry_service.py:172-187 | Once the whole ZRANGE result is examined, the marker-less members found are exactly the geo members without a marker. |
| `Telemetry.NextUnexamined` | backend/services/telemetry_service.py:172-175 | ZRANGE lists each member once, so the member examined next is never among those already removed. The count therefore goes up by one per removal. |
| `Telemetry.TelemetryService.GetNearbyDevices` | backend/services/telemetry_service.py:198-248 | Exactly the radius hits that have a live marker, in search order. An empty list when Redis raises. |
| `Telemetry.TelemetryService.LapseMarker` | backend/services/telemetry_service.py:73-79 | The marker's TTL elapsing removes that device's marker and nothing else. |
| `Telemetry.TelemetryService.LapseMetadata` | backend/services/telemetry_service.py:81-93 | The metadata TTL elapsing removes that device's hash and nothing else. |
| `TelemetrySchema.ValidateDeviceId` | backend/schemas/telemetry.py:17-23 | Refused iff empty or all whitespace, with the fixed message. Otherwise the result is non-empty and neither starts nor ends with whitespace. |
| `TelemetrySchema.ValidateDeviceIdTrims` | backend/schemas/telemetry.py:17-23 | An accepted id is a slice of the input; only whitespace was cut away at either end. |
| `TelemetrySchema.ValidateDeviceIdIdempotent` | backend/schemas/telemetry.py:17-23 | Re-validating an accepted id accepts it unchanged. |
| `TelemetrySchema.FieldErrors` | backend/schemas/telemetry.py:11-15 | Each violated field constraint is reported once, in declaration order, and nothing else: blank id, latitude outside [-90,90], longitude outside [-180,180], accuracy not > 0. |
| `TelemetrySchema.ValidateRequest` | backend/schemas/telemetry.py:9-23 | Accepted iff every field is. The accepted request carries the stripped id and is well-formed. A refusal lists all violations. |
| `TelemetrySchema.ValidateRequestIdempotent` | backend/schemas/telemetry.py:9-23 | A well-formed request re-validates to itself. |
| `TelemetryApi.SubmitLocationPing` | backend/api/telemetry.py:26-131 | A limiter exception gives 500 INTERNAL_SERVER_ERROR; a refusal 429 RATE_LIMIT_EXCEEDED with `retry_after` in `details`; invalid coordinates 400 INVALID_COORDINATES. Once the store is reached, its status and interval pass unchanged, ValueError gives 400 INVALID_LOCATION_DATA and CacheError 500 CACHE_ERROR with a fixed message. Every error carries `now`, and the request id only when non-empty. |
| `TelemetryApi.StoreUnreachedIsIrrelevant` | backend/api/telemetry.py:58-82 | A refused request, or one with invalid coordinates, gets the same answer whatever the store would do: the store is not reached. |
| `TelemetryApi.FailureTextHidden` | backend/api/telemetry.py:103-131 | The client's answer does not depend on the text of a limiter exception or of a CacheError. |
| `TelemetryApi.SchemaValidRequestsPassCoordinates` | backend/api/telemetry.py:74-82 | An admitted request that the schema accepted always reaches the store. The endpoint's coordinate check never refuses it. |
| `TelemetryApi.HandleLocationPing` | backend/api/telemetry.py:26-101 | Wired to a real limiter and store: a refusal (429) or an invalid coordinate (400) leaves the store unchanged. An admitted valid ping with no fault is accepted with an interval in 30..60 and is readable at once. When a Redis write raises, the answer is 500 CACHE_ERROR, and only the writes issued before the failing one have taken effect. Whatever the answer, the limiter records the request in the device's window, exactly as `IsAllowed` does. |
| `TelemetryApi.TelemetryHealth` | backend/api/telemetry.py:134-158 | "healthy" iff the Redis ping returns true, "degraded" iff it returns false, "unhealthy" iff it raises. The error text appears only when it raises. |
| `ServerErrors.CreateErrorResponse` | backend/utils/error_handler.py:51-88 | Status, code, message and timestamp are always present. `details` and `request_id` appear iff given and non-empty, and then unchanged. |
| `ServerErrors.MissingFields` | backend/utils/error_handler.py:281-293 | Exactly the required fields that are absent or None, each as often as it is required. |
| `ServerErrors.ValidateRequestData` | backend/utils/error_handler.py:270-293 | Valid iff no required field is missing. Otherwise it reports the missing fields in required order and the joined message. |
| `ServerErrors.ValidateCoordinates` | backend/utils/error_handler.py:296-320 | Valid iff both convert and lie in the inclusive bounds. A conversion error is reported first, then latitude, then longitude. |
| `ServerErrors.ResourceMonitor.constructor` | backend/utils/error_handler.py:328-347 | No connections, no throttle, and the given limits. The pool invariant holds. |
| `ServerErrors.ResourceMonitor.CheckResources` | backend/utils/error_handler.py:349-369 | Available iff not throttled and the pool is not full. The throttle test uses the first clock reading and is reported first. The remaining time is the second reading's distance to the deadline, truncated to whole seconds, so it is 0 in the last second. Exhaustion is reported next. |
| `ServerErrors.ResourceMonitor.AcquireConnection` | backend/utils/error_handler.py:371-381 | Succeeds iff below the maximum, and then adds exactly one. It keeps `0 <= connections <= max`. |
| `ServerErrors.ResourceMonitor.ReleaseConnection` | backend/utils/error_handler.py:383-386 | Removes one connection; a no-op at zero. It keeps the pool invariant. |
| `ServerErrors.ResourceMonitor.EnableThrottle` | backend/utils/error_handler.py:388-396 | The throttle runs until `now + duration`. |
| `ServerErrors.Sanitize` | backend/utils/error_handler.py:414-441 | Keeps the shape: lists stay lists of the same length, dictionaries keep their keys in order, and scalars are unchanged. |
| `ServerErrors.SanitizeField` | backend/utils/error_handler.py:428-434 | A field keeps its key. A PII-keyed field holds "[REDACTED]". Any other field with a scalar value is kept exactly; a container value stays the same kind of container. |
| `ServerErrors.SanitizeKeepsOtherFields` | backend/utils/error_handler.py:428-434 | In a dictionary that also holds PII keys, every other field survives at its position, with its key and the redacted form of its value; a scalar is kept exactly. |
| `ServerErrors.SanitizeRemovesPii` | backend/utils/error_handler.py:414-441 | After redaction, every PII-keyed field at any depth holds "[REDACTED]". |
| `ServerErrors.SanitizeKeepsPiiFree` | backend/utils/error_handler.py:414-441 | Data without PII keys passes through unchanged. |
| `ServerErrors.SanitizeIdempotent` | backend/utils/error_handler.py:414-441 | Redacting twice equals redacting once. |
| `ServerErrors.WithExternalApiRetry` | backend/utils/error_handler.py:200-267 | At most `max_retries + 1` calls, and the first that returns wins, with its call count. When all raise: a non-None cache value, else ExternalAPIError. |
| `ServerErrors.WithDatabaseRetry` | backend/utils/error_handler.py:91-158 | Retryable errors are retried within `max_retries + 1` calls, then DatabaseError. The first call that returns, or raises anything else, decides at once. |
| `ServerErrors.WithRedisFallback` | backend/utils/error_handler.py:161-197 | Redis's value when it returns. After a RedisError, the fallback's value, or CacheError when that fails too. Other exceptions propagate. |
| `ServerErrors.FallbackOnlyAfterRedisError` | backend/utils/error_handler.py:179-197 | The fallback matters only after a RedisError. CacheError arises iff both calls failed. |
| `ClientErrors.TypeOfValue` | mobile/utils/error_handler.py:21-28 | A parsed type has the parsed value. |
| `ClientErrors.TypeValueRoundTrip` | mobile/utils/error_handler.py:21-28 | Every error type is recovered from its string value. |
| `ClientErrors.TypeValueInjective` | mobile/utils/error_handler.py:21-28 | Distinct types have distinct values, so statistics keyed by value lose nothing. |
| `ClientErrors.CleanPhone` | mobile/utils/error_handler.py:319-324 | No space or dash is left. Every other character keeps its number of occurrences, except '+', which loses at most one. The result is never longer. |
| `ClientErrors.DropLeadingPlus` | mobile/utils/error_handler.py:322-324 | A string starting with '+' loses exactly that first character; any other string is returned unchanged. So every other character keeps its count, and '+' loses at most one. |
| `ClientErrors.PlusAfterContentSurvives` | mobile/utils/error_handler.py:319-324 | A '+' that follows anything other than a space or a dash is still there after spaces and dashes are deleted, and not in first position, so the cleaning does not drop it. |
| `ClientErrors.ValidatePhoneNumber` | mobile/utils/error_handler.py:306-334 | Accepts iff non-empty and, after cleaning, 10 to 15 digits. Missing is reported first, then non-digits, then length. |
| `ClientErrors.AcceptedPhoneAlphabet` | mobile/utils/error_handler.py:306-334 | An accepted number contains only digits, spaces, dashes and at most one '+'. Only spaces and dashes may come before a '+', so "12345+67890" is refused. |
| `ClientErrors.DigitStringsAccepted` | mobile/utils/error_handler.py:306-334 | Any plain string of 10 to 15 digits is accepted. |
| `ClientErrors.PlusPrefixedAccepted` | mobile/utils/error_handler.py:316-334 | Any 10 to 15 digits behind one leading '+' are accepted, "+1234567890" among them. |
| `ClientErrors.ValidateCoordinates` | mobile/utils/error_handler.py:336-364 | Valid iff both numeric and in the inclusive bounds. Non-numeric input is reported first, then latitude, then longitude. |
| `ClientErrors.CoordinateValidatorsAgree` | mobile/utils/error_handler.py:336-364 | The client and the server validators accept the same coordinates. Both blame a conversion failure, or the latitude, on the same inputs. |
| `ClientErrors.ValidateRequiredField` | mobile/utils/error_handler.py:366-384 | Refused iff None or a whitespace-only string, with "<field> is required". Anything else is accepted. |
| `ClientErrors.ClassifyApiError` | mobile/utils/error_handler.py:251-304 | Always an error, echoing the status code. A retry is advised unless the code is 401, 403 or 404. Severity is Error iff 401, 403 or 5xx. 5xx and 429 have fixed messages. |
| `ClientErrors.ClassifyGpsError` | mobile/utils/error_handler.py:215-249 | Error iff permission was denied, Info iff accuracy is low, never Critical. Unknown codes get the generic warning. |
| `ClientErrors.ByValue` | mobile/utils/error_handler.py:406-416 | Re-keying by value keeps exactly the same entries. |
| `ClientErrors.TrackedCount` | mobile/utils/error_handler.py:395-404 | Tracking raises one type's count by exactly one and no other. |
| `ClientErrors.TrackingKeepsConsistent` | mobile/utils/error_handler.py:138-174 | Tracking failures, and then resetting a count to 0, keep every last-error type counted and no count negative. |
| `ClientErrors.TrackStep` | mobile/utils/error_handler.py:148-152 | One more tracked failure advances both maps by one call. |
| `ClientErrors.ErrorHandler.constructor` | mobile/utils/error_handler.py:92-103 | Both maps start empty. |
| `ClientErrors.ErrorHandler.TrackError` | mobile/utils/error_handler.py:386-404 | The type's count rises by one. Its last error records the message, the time and the new count. Other types are untouched, and consistency is kept. |
| `ClientErrors.ErrorHandler.ErrorStatistics` | mobile/utils/error_handler.py:406-416 | The same counts and last errors, keyed by each type's value, and no other keys. |
| `ClientErrors.ErrorHandler.ResetErrorStats` | mobile/utils/error_handler.py:418-421 | Both maps are emptied, so every count reads 0. |
| `ClientErrors.ErrorHandler.HandleNetworkError` | mobile/utils/error_handler.py:195-213 | Tracked as one network error, with the fixed message. |
| `ClientErrors.ErrorHandler.HandleGpsError` | mobile/utils/error_handler.py:215-249 | Tracked as one GPS error, with the message its code selects. |
| `ClientErrors.ErrorHandler.HandleApiError` | mobile/utils/error_handler.py:251-304 | Tracked as one API error, with the report its status code selects. |
| `ClientErrors.ErrorHandler.WithRetry` | mobile/utils/error_handler.py:106-193 | At most `max_retries + 1` calls, each failure tracked. The first success returns its value and resets that type's count if present. When all fail: the fallback's value if it succeeds, else the last exception re-raised (or the TypeError of raising None when no call was made). |
| `BoundedQueue.Enqueue` | mobile/services/offline_queue.py:88-92 | The result is a suffix of the queue plus the new item. At most the one oldest item is dropped. The new item is last, and a queue within its cap stays within it. |
| `BoundedQueue.EnqueueAllKeepsNewest` | mobile/services/offline_queue.py:88-92 | From empty, enqueueing a run of items keeps exactly the `cap` most recent, in arrival order. |
| `BoundedQueue.DrainStep` | mobile/services/offline_queue.py:176-204 | A drain that may go on makes one more call. A success resets the failure streak; a failure extends it. The drain has not been allowed to stop earlier. |
| `OfflineSync.Get` | mobile/services/offline_queue.py:221-222 | `get` returns the default for a missing key, else that key's value. |
| `OfflineSync.Stamp` | mobile/services/offline_queue.py:85-86 | Afterwards the item has `queued_at`. An item that had one is unchanged; otherwise the stamp is appended. |
| `OfflineSync.StampedValue` | mobile/services/offline_queue.py:85-86 | A stamped item reads back the time it was stamped with. |
| `OfflineSync.AddToQueue` | mobile/services/offline_queue.py:76-92 | The stamped item goes last and at most the oldest item is dropped. The cap is kept. |
| `OfflineSync.OtherPayload` | mobile/services/offline_queue.py:220-222 | A missing type defaults to "unknown" and missing data to `{}`. |
| `OfflineSync.WrappedPayload` | mobile/services/offline_queue.py:61-74 | An item built by `queue_data` is sent back as exactly its type and data. |
| `OfflineSync.SyncQueue` | mobile/services/offline_queue.py:150-212 | Stops at the first point where the queue is empty or five sends in a row have failed, within `(n+1)*5` sends. `sent` counts the successes, `failed` the other calls, and what remains is the queue less its first `sent` items. Each sleep is 0 after a success; after a failure 1 s following a success (or at the start), else double the previous capped at 60 s; never above 16 s. |
| `OfflineSync.SyncOtherData` | mobile/services/offline_queue.py:214-238 | Sends front to back and stops at the first failure, which counts once and stays at the front. Each item is sent as its type and data. |
| `OfflineSync.StampAll` | mobile/services/offline_queue.py:85-86 | Every item is stamped, in order. |
| `OfflineSync.OfflineQueue.constructor` | mobile/services/offline_queue.py:21-41 | Empty queues, not syncing, never synced, the given size, 1000 when none is given. |
| `OfflineSync.OfflineQueue.QueueLocationPing` | mobile/services/offline_queue.py:43-50 | The ping queue becomes `AddToQueue` of the ping. Queue bounds are kept. |
| `OfflineSync.OfflineQueue.QueueIncidentReport` | mobile/services/offline_queue.py:52-59 | The report queue becomes `AddToQueue` of the report. Queue bounds are kept. |
| `OfflineSync.OfflineQueue.QueueData` | mobile/services/offline_queue.py:61-74 | The wrapped item, already stamped, joins the other-data queue. Queue bounds are kept. |
| `OfflineSync.OfflineQueue.Synchronize` | mobile/services/offline_queue.py:94-148 | While a sync runs, answers "already_syncing" and changes nothing. Otherwise drains the pings, then the reports, then the other data (each drain continuing the call numbering), records the sync time and leaves the flag false. Queue bounds are kept. |
| `OfflineSync.OfflineQueue.Sizes` | mobile/services/offline_queue.py:240-252 | Each queue's length, and `total` is their sum. |
| `OfflineSync.OfflineQueue.HasPendingData` | mobile/services/offline_queue.py:260-262 | Pending iff the total size is positive. |
| `OfflineSync.OfflineQueue.ClearAll` | mobile/services/offline_queue.py:254-258 | All queues emptied: total 0 and nothing pending. |
| `LocationTracking.PingOf` | mobile/services/location_service.py:141-147 | The ping copies the device id and every field of the reading. |
| `LocationTracking.PingInterval` | mobile/services/location_service.py:119-123 | The ping-loop interval is always in 30..60, and every value is drawn by some choice. |
| `LocationTracking.Delivered` | mobile/services/location_service.py:151-162 | Delivered only if some attempt returned true, and never when all four raised. |
| `LocationTracking.LocationService.constructor` | mobile/services/location_service.py:31-58 | Not running, sharing enabled, no reading, an empty queue, and a fresh handler with empty counters. |
| `LocationTracking.LocationService.Start` | mobile/services/location_service.py:60-66 | Running afterwards, whether or not it was before. |
| `LocationTracking.LocationService.Stop` | mobile/services/location_service.py:68-76 | Not running afterwards. |
| `LocationTracking.LocationService.EnableLocationSharing` | mobile/services/location_service.py:78-80 | Only the sharing flag changes, to true. |
| `LocationTracking.LocationService.DisableLocationSharing` | mobile/services/location_service.py:82-88 | Only the sharing flag changes, to false. |
| `LocationTracking.LocationService.UpdateLocation` | mobile/services/location_service.py:90-104 | The reading becomes exactly the given position and accuracy, at the given time. |
| `LocationTracking.LocationService.QueuePing` | mobile/services/location_service.py:206-216 | The ping joins the back and past 100 pings the oldest is dropped. At most 100 are kept. |
| `LocationTracking.LocationService.ProcessOfflineQueue` | mobile/services/location_service.py:218-245 | Pops only the front, only on success. It stops exactly when the queue empties or three sends in a row fail, within `(n+1)*3` sends. At most 100 pings remain. |
| `LocationTracking.LocationService.SendPing` | mobile/services/location_service.py:133-181 | Without a reading nothing changes. Otherwise delivered iff the retry wrapper returned true; a delivered ping drains the offline queue, otherwise the ping is queued. The network counter is reset on a success; when no attempt succeeds it rises once per failed attempt, plus once more when the last exception was a `NetworkError`. |
| `LocationTracking.LocationService.PingLoopStep` | mobile/services/location_service.py:106-131 | The next interval is in 30..60. Nothing is sent or changed unless sharing is on and a reading exists. When a ping is sent, it is delivered iff some attempt succeeds. A delivered ping drains the offline queue as `Drained` describes; an undelivered one is queued at the bounded queue's tail. The error counts after a send are `SendCounts` of the old ones: one network failure per failed attempt, reset on success, and one more for a re-raised `NetworkError`. The queue bound is kept. |
| `LocationTracking.BatteryOptimizer.constructor` | mobile/services/location_service.py:284-286 | Full battery, not charging. |
| `LocationTracking.BatteryOptimizer.UpdateBatteryStatus` | mobile/services/location_service.py:288-297 | Both fields take the given values. |
| `LocationTracking.BatteryOptimizer.RecommendedInterval` | mobile/services/location_service.py:299-317 | 30 iff charging or above 50%, 45 iff on battery at 21..50%, 60 iff on battery at 20% or less. Always within the ping bounds. |
| `LocationTracking.BatteryOptimizer.ShouldReduceFrequency` | mobile/services/location_service.py:319-326 | True iff below 20% and not charging. |
| `LocationTracking.ReductionMeansLongestInterval` | mobile/services/location_service.py:299-326 | A reduction always comes with the longest interval. At exactly 20% on battery the interval is already 60 but no reduction is reported. |

## Left out

- I/O and side channels are not modelled:
  - logging;
  - the `on_error`, `on_ping_success`, `on_ping_failure` and `on_sync_complete` callbacks;
  - the error notification of the location service.
- Sleeps and jitter are not modelled, except where noted:
  - the random jitter and float backoff of `with_retry`, `with_database_retry` and `with_external_api_retry` are out; only attempt counts are modelled;
  - the `2 ** retry_count` sleeps of `_process_offline_queue` are out;
  - the sleeps of `_sync_queue` are recorded as values (`waits`) but not slept.
- Async tasks, cancellation of `_ping_loop`, Redis pipelines and atomicity are out: each operation is one sequential step. The ping loop is modelled one turn at a time (`PingLoopStep`); its 5-second pause after an exception is left out.
- Redis geo arithmetic is out (GEORADIUS distances, geohash precision, radius filtering, Redis's own latitude limit). The radius search is an oracle returning ordered hits. Any Redis rejection is the generic fault that raises CacheError.
- `OfflineQueue.save_to_disk` / `load_from_disk` (JSON file I/O) and `total_time_seconds` of a synchronisation are out.
- The location service's `get_queue_size` and `is_location_sharing_enabled` are one-line field reads and are not separate members. `_send_ping_to_backend` is the send oracle. As written it is a placeholder that waits 0.1 s and always returns true (mobile/services/location_service.py:193-204), the oracle `k => Succeeded(true)`; in the program as it stands, the failure paths of `_send_ping` and `_process_offline_queue` are reached only when a callback raises.
- Python's `str()` of a float in coordinate messages is a parameter (`show`). Wall-clock readings are parameters, as strings or seconds.
- The `data_type` argument passed to the send callback is not an input of the send oracle. The oracle decides by call number alone.
- Dictionaries are modelled as values, so aliasing is not modelled. `_add_to_queue` stamps the caller's dictionary in place; the model stamps a copy, and the caller does not see the stamp.
- `backend/main.py` (the FastAPI handlers, including the HTTP status of schema failures), `backend/redis_client.py` (beyond the ping result) and configuration files are not part of this model. Their constants are inlined: TTL 60 s, limit 100 per 60 s, interval 30–60 s.
- `ResourceMonitor` reads no CPU or memory figures; the code does not check them either. Its clock readings are non-negative real parameters: `check_resources` reads `time.time()` twice, once for the throttle test and once for the remaining time, and the model takes both readings.
- `Telemetry.TelemetryService.CleanupExpiredPings`: the ZRANGE result is a parameter, `members`. Its order, which Redis takes from the geohash scores, is not modelled. The model requires only that it lists every geo member exactly once.
- `LocationTracking.LocationService.SendPing`: the contract does not state the `last_errors` entries written by the retry wrapper. Those are stated by `ClientErrors.ErrorHandler.WithRetry`.
- `LocationTracking.LocationService.PingLoopStep`: for the same reason, the `last_errors` entries written while a ping is sent are not stated. The error counts are stated, through `SendCounts`.
- `ClientErrors.ErrorHandler.WithRetry`: does not state that the handler's consistency invariant is kept. That is stated separately by `ClientErrors.TrackingKeepsConsistent` over the same new maps.
- `PyText`: `strip`, `lower`, `isdigit` and `isspace` are modelled for ASCII only.
- Coordinates and other Python floats are exact reals. `float()` also yields NaN and the infinities (from strings such as "nan" or "inf"), which the source then rejects through its range checks with the out-of-range message. The model has no such values, so those inputs and float rounding are not represented.
- `PyValue.Dict` is a sequence of fields and does not forbid a repeated key, which a Python dict cannot hold. Values built from parsed JSON or dict literals have distinct keys; the model does not require it, and its lemmas hold either way.
