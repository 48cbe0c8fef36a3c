/**
 * The mobile client's offline queue: three lists (location pings, incident
 * reports, other data) that collect what could not be sent, each capped at
 * `max_size` items with the oldest dropped first, and a synchronisation
 * that drains them through a send callback, guarded by an `is_syncing` flag.
 *
 * The send callback is an oracle: call number `i` of a synchronisation
 * succeeds exactly when `send(i)` holds. A callback that returns a false
 * value and one that raises are handled alike (a failed attempt); only the
 * log line differs.
 */
module OfflineSync {
  import opened Wrappers
  import opened PyValue
  import opened Attempts
  import opened BoundedQueue

  /** `max_size`'s default in `OfflineQueue.__init__`. */
  const DefaultMaxSize: int := 1000
  /** `max_consecutive_failures` of `_sync_queue`. */
  const MaxConsecutiveFailures: nat := 5
  /** `max_retry_delay` of `_sync_queue`, in seconds. */
  const MaxRetryDelay: nat := 60

  /** A queued item: a dictionary, in insertion order. */
  type Item = seq<Field>

  /** `item.get(key, default)` on a dictionary with distinct keys. */
  function Get(item: Item, key: string, default: Value): (v: Value)
    ensures key !in Keys(item) ==> v == default
    ensures key in Keys(item) ==> exists i :: 0 <= i < |item| && item[i] == Field(key, v)
  {
    if item == [] then default
    else if item[0].key == key then item[0].value
    else
      var v := Get(item[1..], key, default);
      assert key in Keys(item[1..]) ==> exists i :: 0 <= i < |item[1..]| && item[1..][i] == Field(key, v);
      v
  }

  /**
   * The timestamp `_add_to_queue` puts on an item that has none: the item
   * gains a "queued_at" entry at its end; an item that already has one is
   * left exactly as it is.
   */
  function Stamp(item: Item, now: string): (r: Item)
    ensures "queued_at" in Keys(r)
    ensures item <= r && |r| <= |item| + 1
    ensures "queued_at" in Keys(item) ==> r == item
  {
    if "queued_at" in Keys(item) then item
    else
      var r := item + [Field("queued_at", Str(now))];
      assert Keys(r) == Keys(item) + ["queued_at"];
      r
  }

  /** An item stamped by `_add_to_queue` reads back the time it was stamped with. */
  lemma {:induction false} StampedValue(item: Item, now: string)
    requires "queued_at" !in Keys(item)
    ensures Get(Stamp(item, now), "queued_at", Null) == Str(now)
    decreases |item|
  {
    if item != [] {
      assert (item + [Field("queued_at", Str(now))])[1..] == item[1..] + [Field("queued_at", Str(now))];
      assert Keys(item)[1..] == Keys(item[1..]);
      StampedValue(item[1..], now);
    }
  }

  /**
   * `_add_to_queue`: the stamped item goes to the back; when that makes the
   * queue longer than `cap`, the single front item is dropped.
   */
  function AddToQueue(q: seq<Item>, item: Item, now: string, cap: int): (r: seq<Item>)
    ensures |r| == (if |q| + 1 > cap then |q| else |q| + 1)
    ensures |q| <= Max(cap, 0) ==> |r| <= Max(cap, 0)
    ensures cap >= 1 ==> r[|r| - 1] == Stamp(item, now) && "queued_at" in Keys(r[|r| - 1])
    ensures r == (q + [Stamp(item, now)])[|q| + 1 - |r|..]
  {
    Enqueue(q, Stamp(item, now), cap)
  }

  /** The item `queue_data` builds around a payload. */
  function Wrapped(dataType: string, data: Item, now: string): Item
  {
    [Field("type", Str(dataType)), Field("data", Dict(data)), Field("queued_at", Str(now))]
  }

  /** What `_sync_other_data` hands to the callback: the item's type and data, with their defaults. */
  function OtherPayload(item: Item): (p: (Value, Value))
    ensures "type" !in Keys(item) ==> p.0 == Str("unknown")
    ensures "data" !in Keys(item) ==> p.1 == Dict([])
  {
    (Get(item, "type", Str("unknown")), Get(item, "data", Dict([])))
  }

  /** A wrapped item hands back exactly the type and data it was built from. */
  lemma WrappedPayload(dataType: string, data: Item, now: string)
    ensures OtherPayload(Wrapped(dataType, data, now)) == (Str(dataType), Dict(data))
  {
    var w := Wrapped(dataType, data, now);
    assert w[0] == Field("type", Str(dataType));
    assert w[1..][0] == Field("data", Dict(data));
  }

  function Pow2(k: nat): nat
  {
    if k == 0 then 1 else 2 * Pow2(k - 1)
  }

  /** Below five failures in a row the delay is at most 16 seconds. */
  lemma Pow2AtMost16(k: nat)
    requires k < MaxConsecutiveFailures
    ensures Pow2(k) <= 16
  {
    if k == 4 {
      assert Pow2(4) == 16;
    } else if k == 3 {
      assert Pow2(3) == 8;
    } else if k == 2 {
      assert Pow2(2) == 4;
    }
  }

  /**
   * The sleep after call `j` of a drain: none after a success; after a
   * failure, 1 second when the call before it succeeded (or there was
   * none), and otherwise twice the sleep before it, capped at 60 seconds.
   */
  ghost predicate Backoff(waits: seq<nat>, send: nat -> bool, start: nat, j: nat)
    requires j < |waits|
  {
    if send(start + j) then waits[j] == 0
    else waits[j] == (if j == 0 || send(start + j - 1) then 1 else Min(2 * waits[j - 1], MaxRetryDelay))
  }

  /**
   * `_sync_queue`: sends the front item until the queue is empty or five
   * sends in a row have failed; an item leaves the queue (from the front)
   * only when its send succeeds. Call `j` is numbered `start + j`.
   * `waits[j]` is the sleep after call `j` (0 after a success): 1 second
   * after a first failure, doubling after each further failure, back to 1
   * after a success, never above 60; since at most five failures come in a
   * row, it never exceeds 16.
   */
  method SyncQueue(queue: seq<Item>, send: nat -> bool, start: nat)
    returns (rest: seq<Item>, sent: nat, failed: nat, calls: nat, waits: seq<nat>)
    ensures QueueDrained(queue, send, start, calls, SyncCounts(sent, failed), rest)
    ensures calls <= (|queue| + 1) * MaxConsecutiveFailures
    ensures |waits| == calls
    ensures forall j :: 0 <= j < calls ==> Backoff(waits, send, start, j)
    ensures forall j :: 0 <= j < calls ==> waits[j] <= 16
  {
    rest, sent, failed, calls, waits := queue, 0, 0, 0, [];
    var delay: nat := 1;
    var consecutive: nat := 0;
    while rest != [] && consecutive < MaxConsecutiveFailures
      invariant sent <= |queue| && rest == queue[sent..]
      invariant sent == CountIn(send, start, start + calls)
      invariant failed == calls - sent
      invariant DrainProgress(|queue|, send, start, MaxConsecutiveFailures, calls, consecutive)
      invariant failed <= 4 * sent + consecutive
      invariant delay == Pow2(consecutive)
      invariant |waits| == calls
      invariant forall j :: 0 <= j < calls ==> Backoff(waits, send, start, j)
      invariant forall j :: 0 <= j < calls ==> waits[j] <= 16
      invariant calls > 0 && !send(start + calls - 1) ==> 2 * waits[calls - 1] == delay
      invariant (calls == 0 || send(start + calls - 1)) ==> delay == 1
      decreases |rest|, MaxConsecutiveFailures - consecutive
    {
      DrainStep(|queue|, send, start, MaxConsecutiveFailures, calls, consecutive);
      ghost var before := waits;
      if send(start + calls) {
        rest := rest[1..];
        sent := sent + 1;
        waits := waits + [0];
        delay := 1;
        consecutive := 0;
      } else {
        failed := failed + 1;
        consecutive := consecutive + 1;
        Pow2AtMost16(consecutive - 1);
        assert delay == (if calls == 0 || send(start + calls - 1) then 1 else Min(2 * waits[calls - 1], MaxRetryDelay));
        waits := waits + [delay];
        delay := Min(delay * 2, MaxRetryDelay);
      }
      forall j | 0 <= j < calls
        ensures Backoff(waits, send, start, j)
      {
        assert Backoff(before, send, start, j);
        assert waits[j] == before[j] && (j > 0 ==> waits[j - 1] == before[j - 1]);
      }
      assert Backoff(waits, send, start, calls);
      calls := calls + 1;
    }
    DrainStops(|queue|, send, start, MaxConsecutiveFailures, calls, consecutive);
  }

  /**
   * `_sync_other_data`: sends the items front to back, each as its type and
   * data, and stops at the first failure, which leaves that item at the
   * front. Call `j` is numbered `start + j`.
   */
  method SyncOtherData(other: seq<Item>, send: nat -> bool, start: nat)
    returns (rest: seq<Item>, sent: nat, failed: nat, payloads: seq<(Value, Value)>)
    ensures sent <= |other| && rest == other[sent..]
    ensures sent + failed <= |other| && |payloads| == sent + failed
    ensures forall k :: 0 <= k < |payloads| ==> payloads[k] == OtherPayload(other[k])
    ensures OtherDrained(other, send, start, SyncCounts(sent, failed), rest)
  {
    ghost var p := (j: nat) => !send(start + j);
    rest, sent, failed, payloads := other, 0, 0, [];
    while rest != []
      invariant sent <= |other| && rest == other[sent..]
      invariant forall j :: 0 <= j < sent ==> !p(j)
      invariant |payloads| == sent
      invariant forall k :: 0 <= k < |payloads| ==> payloads[k] == OtherPayload(other[k])
    {
      payloads := payloads + [OtherPayload(rest[0])];
      if send(start + sent) {
        rest := rest[1..];
        sent := sent + 1;
      } else {
        failed := 1;
        FirstIndexAt(p, sent, |other|);
        return;
      }
    }
  }

  /** The `{"sent": …, "failed": …}` counts of one queue. */
  datatype SyncCounts = SyncCounts(sent: nat, failed: nat)

  /**
   * What `_sync_queue` guarantees about one drain of `queue` over calls
   * `start..start+calls-1`: it stopped at the first point where it may stop,
   * `sent` counts the successful calls, `failed` the others, and what is
   * left is the original queue less its `sent` front items.
   */
  ghost predicate QueueDrained(queue: seq<Item>, send: nat -> bool, start: nat, calls: nat,
                               counts: SyncCounts, rest: seq<Item>)
  {
    && Drained(queue, send, start, MaxConsecutiveFailures, calls, rest)
    && counts.sent == CountIn(send, start, start + calls)
    && counts.failed == calls - counts.sent
  }

  /**
   * What `_sync_other_data` guarantees: the items before the first failed
   * call were sent, the failed one (if any) counted once, and the rest kept.
   */
  ghost predicate OtherDrained(other: seq<Item>, send: nat -> bool, start: nat, counts: SyncCounts, rest: seq<Item>)
  {
    var first := FirstIndex((j: nat) => !send(start + j), |other|);
    && counts == (if first.Some? then SyncCounts(first.value, 1) else SyncCounts(|other|, 0))
    && rest == other[counts.sent..]
  }

  /** What `synchronize` returns; the elapsed time is not modelled. */
  datatype SyncResult =
    | AlreadySyncing
    | Synced(locationPings: SyncCounts, incidentReports: SyncCounts, otherData: SyncCounts)

  /** What `get_queue_sizes` returns. */
  datatype QueueSizes = QueueSizes(locationPings: nat, incidentReports: nat, otherData: nat, total: nat)

  class OfflineQueue {
    var maxSize: int
    var locationPings: seq<Item>
    var incidentReports: seq<Item>
    var otherData: seq<Item>
    var isSyncing: bool
    var lastSyncTime: Option<string>

    /** No queue holds more than `max_size` items (none at all when it is not positive). */
    ghost predicate Valid()
      reads this
    {
      && |locationPings| <= Max(maxSize, 0)
      && |incidentReports| <= Max(maxSize, 0)
      && |otherData| <= Max(maxSize, 0)
    }

    constructor (maxSize: int := DefaultMaxSize)
      ensures this.maxSize == maxSize
      ensures locationPings == [] && incidentReports == [] && otherData == []
      ensures !isSyncing && lastSyncTime == None
      ensures Valid()
    {
      this.maxSize := maxSize;
      locationPings, incidentReports, otherData := [], [], [];
      isSyncing := false;
      lastSyncTime := None;
    }

    /** `queue_location_ping`: the stamped ping joins the back of the ping queue. */
    method QueueLocationPing(ping: Item, now: string)
      modifies this`locationPings
      ensures locationPings == AddToQueue(old(locationPings), ping, now, maxSize)
      ensures old(Valid()) ==> Valid()
    {
      locationPings := AddToQueue(locationPings, ping, now, maxSize);
    }

    /** `queue_incident_report`: the stamped report joins the back of the report queue. */
    method QueueIncidentReport(report: Item, now: string)
      modifies this`incidentReports
      ensures incidentReports == AddToQueue(old(incidentReports), report, now, maxSize)
      ensures old(Valid()) ==> Valid()
    {
      incidentReports := AddToQueue(incidentReports, report, now, maxSize);
    }

    /**
     * `queue_data`: the payload, wrapped with its type and the time, joins
     * the back of the other-data queue; it is already stamped, so the stamp
     * is the wrapping's.
     */
    method QueueData(dataType: string, data: Item, now: string)
      modifies this`otherData
      ensures otherData == Enqueue(old(otherData), Wrapped(dataType, data, now), maxSize)
      ensures old(Valid()) ==> Valid()
    {
      assert Keys(Wrapped(dataType, data, now))[2] == "queued_at";
      otherData := AddToQueue(otherData, Wrapped(dataType, data, now), now, maxSize);
    }

    /**
     * `synchronize`: while another synchronisation is running, answers
     * "already_syncing" and touches nothing. Otherwise drains the ping
     * queue (calls `0..c1-1`), then the report queue (calls `c1..c1+c2-1`),
     * then the other data, records `now` as the last sync time, and
     * clears the flag whatever happened.
     */
    method Synchronize(send: nat -> bool, now: string) returns (r: SyncResult, ghost c1: nat, ghost c2: nat)
      modifies this`locationPings, this`incidentReports, this`otherData, this`isSyncing, this`lastSyncTime
      ensures old(isSyncing) ==>
                && r == AlreadySyncing && isSyncing
                && locationPings == old(locationPings) && incidentReports == old(incidentReports)
                && otherData == old(otherData) && lastSyncTime == old(lastSyncTime)
      ensures !old(isSyncing) ==> r.Synced? && !isSyncing && lastSyncTime == Some(now)
      ensures !old(isSyncing) ==>
                && r.Synced?
                && QueueDrained(old(locationPings), send, 0, c1, r.locationPings, locationPings)
                && QueueDrained(old(incidentReports), send, c1, c2, r.incidentReports, incidentReports)
                && OtherDrained(old(otherData), send, c1 + c2, r.otherData, otherData)
      ensures old(Valid()) ==> Valid()
    {
      if isSyncing {
        return AlreadySyncing, 0, 0;
      }
      isSyncing := true;
      var pingsLeft, pingsSent, pingsFailed, calls1, _ := SyncQueue(locationPings, send, 0);
      locationPings := pingsLeft;
      var reportsLeft, reportsSent, reportsFailed, calls2, _ := SyncQueue(incidentReports, send, calls1);
      incidentReports := reportsLeft;
      var otherLeft, otherSent, otherFailed, _ := SyncOtherData(otherData, send, calls1 + calls2);
      otherData := otherLeft;
      lastSyncTime := Some(now);
      isSyncing := false;
      r := Synced(SyncCounts(pingsSent, pingsFailed), SyncCounts(reportsSent, reportsFailed),
                  SyncCounts(otherSent, otherFailed));
      c1, c2 := calls1, calls2;
    }

    /** `get_queue_sizes`: each queue's length and their sum. */
    function Sizes(): (s: QueueSizes)
      reads this
      ensures s.locationPings == |locationPings| && s.incidentReports == |incidentReports|
      ensures s.otherData == |otherData|
      ensures s.total == s.locationPings + s.incidentReports + s.otherData
    {
      QueueSizes(|locationPings|, |incidentReports|, |otherData|,
                 |locationPings| + |incidentReports| + |otherData|)
    }

    /** `has_pending_data`: some queue is non-empty, which is the total size being positive. */
    function HasPendingData(): (b: bool)
      reads this
      ensures b <==> Sizes().total > 0
    {
      locationPings != [] || incidentReports != [] || otherData != []
    }

    /** `clear_all`: every queue emptied, so nothing is pending. */
    method ClearAll()
      modifies this`locationPings, this`incidentReports, this`otherData
      ensures locationPings == [] && incidentReports == [] && otherData == []
      ensures Sizes().total == 0 && !HasPendingData()
      ensures Valid()
    {
      locationPings, incidentReports, otherData := [], [], [];
    }
  }

  /**
   * Queueing more pings than a queue's size keeps the most recent ones, as
   * many as the size, in the order they came.
   */
  method OverflowScenario(pings: seq<Item>, now: string, size: nat)
    requires 1 <= size < |pings|
  {
    var q := new OfflineQueue(size);
    ghost var stamped := StampAll(pings, now);
    var i := 0;
    while i < |pings|
      invariant 0 <= i <= |pings|
      invariant q.maxSize == size
      invariant q.locationPings == EnqueueAll([], stamped[..i], size)
    {
      StampedStep(pings, now, size, i);
      q.QueueLocationPing(pings[i], now);
      i := i + 1;
    }
    assert i == |pings|;
    OverflowKeepsNewest(pings, now, size);
    assert q.locationPings == stamped[|pings| - size..];
  }

  /** After all the pings, the queue holds the last `size` of them, stamped. */
  lemma OverflowKeepsNewest(pings: seq<Item>, now: string, size: nat)
    requires size < |pings|
    ensures EnqueueAll([], StampAll(pings, now)[..|pings|], size) == StampAll(pings, now)[|pings| - size..]
  {
    var stamped := StampAll(pings, now);
    assert stamped[..|pings|] == stamped;
    EnqueueAllKeepsNewest(stamped, size);
  }

  /** Queueing the next ping extends the run of stamped pings queued so far by one. */
  lemma StampedStep(pings: seq<Item>, now: string, size: nat, i: nat)
    requires i < |pings|
    ensures EnqueueAll([], StampAll(pings, now)[..i + 1], size)
            == AddToQueue(EnqueueAll([], StampAll(pings, now)[..i], size), pings[i], now, size)
  {
    var stamped := StampAll(pings, now);
    assert stamped[..i + 1][..i] == stamped[..i];
  }

  /** Every item of `items`, stamped. */
  function StampAll(items: seq<Item>, now: string): (r: seq<Item>)
    ensures |r| == |items| && forall k :: 0 <= k < |items| ==> r[k] == Stamp(items[k], now)
  {
    seq(|items|, k requires 0 <= k < |items| => Stamp(items[k], now))
  }
}
