/**
 * The mobile client's background location service: it keeps the latest
 * GPS reading, sends it as a location ping when sharing is enabled, queues
 * pings it could not send (at most 100, oldest dropped first), and drains
 * that queue once a send succeeds. A battery helper recommends a ping
 * interval from the battery level and the charging state.
 *
 * The backend call is an oracle indexed by call number; the retry wrapper
 * around it is the error handler's `with_retry`.
 */
module LocationTracking {
  import opened Wrappers
  import opened Attempts
  import opened BoundedQueue
  import opened ClientErrors

  const PingIntervalMin: int := 30
  const PingIntervalMax: int := 60
  /** The offline queue's cap in `_queue_ping`. */
  const QueueLimit: int := 100
  /** `max_retries` of `_process_offline_queue`: failures in a row before it gives up. */
  const DrainFailureLimit: nat := 3
  /** `max_retries` of the `RetryConfig` that `_send_ping` passes to `with_retry`. */
  const SendRetries: int := 3

  /** `current_location`: the last reading and when it was taken. */
  datatype Reading = Reading(latitude: real, longitude: real, accuracy: real, timestamp: string)

  /** The `ping_data` dictionary `_send_ping` builds. */
  datatype PingData = PingData(deviceId: string, latitude: real, longitude: real, accuracy: real, timestamp: string)

  /** The ping for a device at a reading: every field copied from the two. */
  function PingOf(deviceId: string, reading: Reading): (p: PingData)
    ensures p.deviceId == deviceId && p.timestamp == reading.timestamp
    ensures p.latitude == reading.latitude && p.longitude == reading.longitude && p.accuracy == reading.accuracy
  {
    PingData(deviceId, reading.latitude, reading.longitude, reading.accuracy, reading.timestamp)
  }

  /** `random.randint(30, 60)` with the random draw as `choice`. */
  function PingInterval(choice: nat): (n: int)
    ensures PingIntervalMin <= n <= PingIntervalMax
    ensures choice <= 30 ==> n == PingIntervalMin + choice
  {
    PingIntervalMin + choice % (PingIntervalMax - PingIntervalMin + 1)
  }

  /** Whether `with_retry` came back with a true result: the first call that did not raise returned true. */
  function Delivered(attempt: nat -> Attempt<bool>): (b: bool)
    ensures b ==> exists k :: 0 <= k < AttemptBudget(SendRetries) && attempt(k) == Succeeded(true)
    ensures (forall k :: 0 <= k < AttemptBudget(SendRetries) ==> attempt(k).Failed?) ==> !b
  {
    var first := FirstIndex((j: nat) => attempt(j).Succeeded?, AttemptBudget(SendRetries));
    first.Some? && attempt(first.value).value
  }

  /**
   * The error counts after one `_send_ping` that has a reading: each failed
   * attempt is tracked as a network error, and a success resets the
   * network count; when every attempt fails, a re-raised `NetworkError`
   * (`networkKind` of the last attempt) is tracked once more.
   */
  function SendCounts(before: map<ErrorType, int>, attempt: nat -> Attempt<bool>,
                      networkKind: nat -> bool): map<ErrorType, int>
  {
    var first := FirstIndex((j: nat) => attempt(j).Succeeded?, AttemptBudget(SendRetries));
    if first.Some? then
      var c := CountsAfter(before, Network, first.value);
      if Network in c then c[Network := 0] else c
    else
      var c := CountsAfter(before, Network, AttemptBudget(SendRetries));
      if networkKind(AttemptBudget(SendRetries) - 1) then c[Network := CountOf(c, Network) + 1] else c
  }

  class LocationService {
    const deviceId: string
    const errors: ErrorHandler
    var isRunning: bool
    var isEnabled: bool
    var currentLocation: Option<Reading>
    var offlineQueue: seq<PingData>

    /** The offline queue never holds more than 100 pings. */
    ghost predicate Valid()
      reads this
    {
      |offlineQueue| <= QueueLimit
    }

    constructor (deviceId: string)
      ensures this.deviceId == deviceId
      ensures !isRunning && isEnabled && currentLocation == None && offlineQueue == []
      ensures fresh(errors) && errors.errorCounts == map[] && errors.lastErrors == map[]
      ensures Valid()
    {
      this.deviceId := deviceId;
      errors := new ErrorHandler();
      isRunning := false;
      isEnabled := true;
      currentLocation := None;
      offlineQueue := [];
    }

    /** `start`: the service is running afterwards, whether or not it was before. */
    method Start()
      modifies this`isRunning
      ensures isRunning
    {
      if isRunning {
        return;
      }
      isRunning := true;
    }

    /** `stop`: the service is no longer running. */
    method Stop()
      modifies this`isRunning
      ensures !isRunning
    {
      isRunning := false;
    }

    /** `enable_location_sharing`: only the sharing flag changes, to true. */
    method EnableLocationSharing()
      modifies this`isEnabled
      ensures isEnabled
    {
      isEnabled := true;
    }

    /** `disable_location_sharing`: only the sharing flag changes, to false. */
    method DisableLocationSharing()
      modifies this`isEnabled
      ensures !isEnabled
    {
      isEnabled := false;
    }

    /** `update_location`: the current reading becomes exactly the given one, taken at `now`. */
    method UpdateLocation(latitude: real, longitude: real, accuracy: real, now: string)
      modifies this`currentLocation
      ensures currentLocation == Some(Reading(latitude, longitude, accuracy, now))
    {
      currentLocation := Some(Reading(latitude, longitude, accuracy, now));
    }

    /** `_queue_ping`: the ping joins the back; past 100 pings the oldest is dropped. */
    method QueuePing(ping: PingData)
      modifies this`offlineQueue
      ensures offlineQueue == Enqueue(old(offlineQueue), ping, QueueLimit)
      ensures old(Valid()) ==> Valid()
    {
      offlineQueue := Enqueue(offlineQueue, ping, QueueLimit);
    }

    /**
     * `_process_offline_queue`: sends the front ping until the queue is
     * empty or three sends in a row have failed (a false result or an
     * exception); a ping leaves the queue, from the front, only when its
     * send succeeds. `calls` is how many sends were made.
     */
    method ProcessOfflineQueue(send: nat -> bool) returns (calls: nat)
      modifies this`offlineQueue
      ensures Drained(old(offlineQueue), send, 0, DrainFailureLimit, calls, offlineQueue)
      ensures calls <= (|old(offlineQueue)| + 1) * DrainFailureLimit
      ensures old(Valid()) ==> Valid()
    {
      ghost var queue := offlineQueue;
      calls := 0;
      var sent: nat := 0;
      var retryCount: nat := 0;
      while offlineQueue != [] && retryCount < DrainFailureLimit
        invariant sent <= |queue| && offlineQueue == queue[sent..]
        invariant sent == CountIn(send, 0, calls) && sent <= calls
        invariant DrainProgress(|queue|, send, 0, DrainFailureLimit, calls, retryCount)
        invariant calls - sent <= 2 * sent + retryCount
        decreases |offlineQueue|, DrainFailureLimit - retryCount
      {
        DrainStep(|queue|, send, 0, DrainFailureLimit, calls, retryCount);
        if send(calls) {
          offlineQueue := offlineQueue[1..];
          sent := sent + 1;
          retryCount := 0;
        } else {
          retryCount := retryCount + 1;
        }
        calls := calls + 1;
      }
      DrainStops(|queue|, send, 0, DrainFailureLimit, calls, retryCount);
    }

    /**
     * `_send_ping`: with no reading, nothing happens. Otherwise the ping is
     * sent through `with_retry` (four attempts, failures tracked as network
     * errors at `clock(i)`). If the result is true, the offline queue is
     * drained; if it is false, or every attempt raised, the ping is queued
     * instead. When the re-raised exception is a `NetworkError`
     * (`networkKind` of the last attempt), it is tracked once more as a
     * network error at `now`.
     */
    method SendPing(attempt: nat -> Attempt<bool>, networkKind: nat -> bool, drain: nat -> bool,
                    clock: nat -> string, now: string)
      returns (delivered: bool, ghost drainCalls: nat)
      modifies this`offlineQueue, errors`errorCounts, errors`lastErrors
      ensures currentLocation.None? ==>
                && !delivered && offlineQueue == old(offlineQueue)
                && errors.errorCounts == old(errors.errorCounts) && errors.lastErrors == old(errors.lastErrors)
      ensures currentLocation.Some? ==> delivered == Delivered(attempt)
      ensures currentLocation.Some? && delivered ==>
                Drained(old(offlineQueue), drain, 0, DrainFailureLimit, drainCalls, offlineQueue)
      ensures currentLocation.Some? && !delivered ==>
                offlineQueue == Enqueue(old(offlineQueue), PingOf(deviceId, currentLocation.value), QueueLimit)
      ensures currentLocation.Some? ==> errors.errorCounts == SendCounts(old(errors.errorCounts), attempt, networkKind)
      ensures old(Valid()) ==> Valid()
    {
      drainCalls := 0;
      if currentLocation.None? {
        return false, 0;
      }
      var ping := PingOf(deviceId, currentLocation.value);
      var r, calls := errors.WithRetry(attempt, SendRetries, None, Network, clock);
      if r.Ok? && r.value {
        delivered := true;
        drainCalls := ProcessOfflineQueue(drain);
      } else {
        delivered := false;
        QueuePing(ping);
        if r.Err? && r.error.Reraised? && networkKind(calls - 1) {
          var _ := errors.HandleNetworkError(r.error.message, now);
        }
      }
    }

    /**
     * One turn of `_ping_loop`: a ping is sent only when sharing is enabled
     * and there is a reading; then the next interval, between 30 and 60
     * seconds, is drawn. A ping sent is delivered exactly when some attempt
     * succeeds; then the offline queue is drained, otherwise the ping is
     * queued. With sharing disabled nothing is sent and nothing changes.
     */
    method PingLoopStep(choice: nat, attempt: nat -> Attempt<bool>, networkKind: nat -> bool,
                        drain: nat -> bool, clock: nat -> string, now: string)
      returns (interval: int, delivered: bool, ghost drainCalls: nat)
      modifies this`offlineQueue, errors`errorCounts, errors`lastErrors
      ensures PingIntervalMin <= interval <= PingIntervalMax
      ensures !(isEnabled && currentLocation.Some?) ==>
                && !delivered && offlineQueue == old(offlineQueue)
                && errors.errorCounts == old(errors.errorCounts) && errors.lastErrors == old(errors.lastErrors)
      ensures isEnabled && currentLocation.Some? ==> delivered == Delivered(attempt)
      ensures isEnabled && currentLocation.Some? && delivered ==>
                Drained(old(offlineQueue), drain, 0, DrainFailureLimit, drainCalls, offlineQueue)
      ensures isEnabled && currentLocation.Some? && !delivered ==>
                offlineQueue == Enqueue(old(offlineQueue), PingOf(deviceId, currentLocation.value), QueueLimit)
      ensures isEnabled && currentLocation.Some? ==>
                errors.errorCounts == SendCounts(old(errors.errorCounts), attempt, networkKind)
      ensures old(Valid()) ==> Valid()
    {
      delivered, drainCalls := false, 0;
      if isEnabled && currentLocation.Some? {
        delivered, drainCalls := SendPing(attempt, networkKind, drain, clock, now);
      }
      interval := PingInterval(choice);
    }
  }

  /**
   * The battery helper: the recommended ping interval lengthens as the
   * battery drains, unless the device is charging.
   */
  class BatteryOptimizer {
    var batteryLevel: int
    var isCharging: bool

    constructor ()
      ensures batteryLevel == 100 && !isCharging
    {
      batteryLevel := 100;
      isCharging := false;
    }

    /** `update_battery_status`: both fields take the given values. */
    method UpdateBatteryStatus(level: int, charging: bool)
      modifies this
      ensures batteryLevel == level && isCharging == charging
    {
      batteryLevel := level;
      isCharging := charging;
    }

    /**
     * `get_recommended_interval`: 30 seconds when charging or above half
     * charge, 45 above 20%, 60 otherwise; always within the ping bounds.
     */
    function RecommendedInterval(): (n: int)
      reads this
      ensures PingIntervalMin <= n <= PingIntervalMax
      ensures n == 30 <==> isCharging || batteryLevel > 50
      ensures n == 45 <==> !isCharging && 20 < batteryLevel <= 50
      ensures n == 60 <==> !isCharging && batteryLevel <= 20
    {
      if isCharging then PingIntervalMin
      else if batteryLevel > 50 then PingIntervalMin
      else if batteryLevel > 20 then (PingIntervalMin + PingIntervalMax) / 2
      else PingIntervalMax
    }

    /** `should_reduce_frequency`: below 20% and not charging. */
    function ShouldReduceFrequency(): (b: bool)
      reads this
      ensures b <==> batteryLevel < 20 && !isCharging
    {
      batteryLevel < 20 && !isCharging
    }
  }

  /**
   * A reduction is only ever reported together with the longest interval,
   * but not conversely: at exactly 20% on battery the interval is already
   * the longest while no reduction is reported.
   */
  lemma ReductionMeansLongestInterval(b: BatteryOptimizer)
    ensures b.ShouldReduceFrequency() ==> b.RecommendedInterval() == PingIntervalMax
    ensures b.batteryLevel == 20 && !b.isCharging ==>
              b.RecommendedInterval() == PingIntervalMax && !b.ShouldReduceFrequency()
  {
  }
}
