/**
 * The sliding-window rate limiter. Each key owns a sorted set of request
 * timestamps; a check purges what fell out of the window, counts what is
 * left, records the current request whatever the decision, and admits when
 * the count was below the limit. The member and the score of the sorted set
 * are the same clock reading, so two requests at one instant share one entry.
 */
module RateLimiting {
  import opened Wrappers
  import opened Clock

  /** `settings.RATE_LIMIT_PER_MINUTE`. */
  const DefaultMaxRequests: int := 100
  const DefaultWindowSeconds: nat := 60

  /** What `zremrangebyscore(key, 0, now - window)` leaves of a key's entries. */
  function Purge(entries: set<Time>, now: Time, window: nat): set<Time>
  {
    set t | t in entries && t > now - window as real
  }

  /** Every non-empty finite set of readings has a least element. */
  lemma HasOldest(s: set<Time>)
    requires s != {}
    ensures exists m :: m in s && forall t :: t in s ==> m <= t
  {
    var m := LeastReading(s);
  }

  /** A least element of a non-empty finite set of readings, found by removing one element at a time. */
  lemma {:induction false} LeastReading(s: set<Time>) returns (m: Time)
    requires s != {}
    ensures m in s && forall t :: t in s ==> m <= t
    decreases |s|
  {
    var x :| x in s;
    var rest := s - {x};
    if rest == {} {
      assert s == {x};
      return x;
    }
    assert |rest| < |s|;
    var r := LeastReading(rest);
    m := if x < r then x else r;
    forall t | t in s
      ensures m <= t
    {
      if t != x {
        assert t in rest;
      }
    }
  }

  /** The score `zrange(key, 0, 0, withscores=True)` reports. */
  function Oldest(s: set<Time>): (m: Time)
    requires s != {}
    ensures m in s && forall t :: t in s ==> m <= t
  {
    HasOldest(s);
    var m :| m in s && forall t :: t in s ==> m <= t;
    m
  }

  /** The decision `is_allowed` returns: admitted, or refused with a retry delay. */
  datatype Admission = Admission(allowed: bool, retryAfter: Option<int>)

  /**
   * One admission check against a key's entries at time `now`: the decision
   * and the entries left behind. The delay of a refusal is
   * `int(oldest + window - now) + 1`, the oldest entry being read after the
   * current one was recorded.
   */
  function Admit(entries: set<Time>, now: Time, maxRequests: int, window: nat): (r: (Admission, set<Time>))
    ensures r.1 == Purge(entries, now, window) + {now}
    ensures now in r.1 && forall t :: t in r.1 && t != now ==> t > now - window as real
    ensures r.0.allowed <==> |Purge(entries, now, window)| < maxRequests
    ensures r.0.allowed ==> r.0.retryAfter == None && |r.1| <= maxRequests
    ensures !r.0.allowed ==> r.0.retryAfter.Some? && 0 < r.0.retryAfter.value <= window + 1
    ensures (!r.0.allowed && exists t :: t in Purge(entries, now, window) && t < now)
              ==> r.0.retryAfter.value <= window
  {
    var kept := Purge(entries, now, window);
    var after := kept + {now};
    assert |after| <= |kept| + 1;
    if |kept| >= maxRequests then
      if after != {} then
        var oldest := Oldest(after);
        assert oldest == now || oldest in kept;
        (Admission(false, Some(Truncate(oldest + window as real - now) + 1)), after)
      else
        (Admission(false, Some(window)), after)
    else
      (Admission(true, None), after)
  }

  /** What `get_remaining` reports for a key's entries at time `now`. */
  function Remaining(entries: set<Time>, now: Time, maxRequests: int, window: nat): (n: int)
    ensures n >= 0
    ensures n == 0 <==> |Purge(entries, now, window)| >= maxRequests
    ensures n > 0 ==> n + |Purge(entries, now, window)| == maxRequests
  {
    Max(0, maxRequests - |Purge(entries, now, window)|)
  }

  /** `get_remaining` predicts the decision of a check made at the same instant. */
  lemma RemainingPredictsAdmission(entries: set<Time>, now: Time, maxRequests: int, window: nat)
    ensures Remaining(entries, now, maxRequests, window) > 0
            <==> Admit(entries, now, maxRequests, window).0.allowed
  {
  }

  /** The decisions of successive checks on one key at the given times. */
  function RunChecks(entries: set<Time>, times: seq<Time>, maxRequests: int, window: nat): (out: seq<bool>)
    ensures |out| == |times|
    decreases |times|
  {
    if times == [] then []
    else
      var (a, next) := Admit(entries, times[0], maxRequests, window);
      [a.allowed] + RunChecks(next, times[1..], maxRequests, window)
  }

  predicate StrictlyIncreasing(times: seq<Time>)
  {
    forall i, j :: 0 <= i < j < |times| ==> times[i] < times[j]
  }

  /** All times lie in one window: the last is less than `window` after the first. */
  predicate WithinOneWindow(times: seq<Time>, window: nat)
  {
    times != [] ==> times[|times| - 1] - times[0] < window as real
  }

  /**
   * The entries of a key as seen by a run of checks at `times`: each is
   * either already out of the window at the first check, or stays in it for
   * the whole run and is older than the first check.
   */
  predicate SettledBefore(entries: set<Time>, times: seq<Time>, window: nat)
  {
    times != [] ==>
      forall t :: t in entries ==>
        t <= times[0] - window as real || (times[|times| - 1] - window as real < t < times[0])
  }

  lemma {:induction false} RunChecksCount(entries: set<Time>, times: seq<Time>, maxRequests: int, window: nat)
    requires StrictlyIncreasing(times) && WithinOneWindow(times, window)
    requires SettledBefore(entries, times, window)
    ensures forall i :: 0 <= i < |times| ==>
      (RunChecks(entries, times, maxRequests, window)[i]
       <==> |Purge(entries, times[0], window)| + i < maxRequests)
    decreases |times|
  {
    if times != [] {
      var t0 := times[0];
      var live := Purge(entries, t0, window);
      var next := Admit(entries, t0, maxRequests, window).1;
      var rest := times[1..];
      assert next == live + {t0};
      if rest != [] {
        var t1 := rest[0];
        assert t0 < t1;
        assert SettledBefore(next, rest, window);
        assert Purge(next, t1, window) == next;
        assert t0 !in live;
        assert |next| == |live| + 1;
        RunChecksCount(next, rest, maxRequests, window);
      }
    }
  }

  /**
   * Boundedness: when a key has no entry in the window and requests arrive at
   * distinct instants all within one window, the first `maxRequests` are
   * admitted and every later one is refused.
   */
  lemma WindowAdmitsAtMostMax(entries: set<Time>, times: seq<Time>, maxRequests: int, window: nat)
    requires StrictlyIncreasing(times) && WithinOneWindow(times, window)
    requires times != [] ==> forall t :: t in entries ==> t <= times[0] - window as real
    ensures forall i :: 0 <= i < |times| ==>
      (RunChecks(entries, times, maxRequests, window)[i] <==> i < maxRequests)
  {
    if times != [] {
      assert Purge(entries, times[0], window) == {};
    }
    RunChecksCount(entries, times, maxRequests, window);
  }

  /** `RateLimiter`: the per-key timestamp sets, keyed by the limiter key. */
  class RateLimiter {
    const maxRequests: int
    const windowSeconds: nat
    var windows: map<string, set<Time>>

    /** The entries recorded for `key` (none when Redis holds no such key). */
    function Entries(key: string): set<Time>
      reads this
    {
      if key in windows then windows[key] else {}
    }

    /** `RateLimiter(max_requests, window_seconds)`: a missing or zero limit means the default. */
    constructor (maxRequests: Option<int>, windowSeconds: nat)
      ensures this.maxRequests == (if maxRequests.None? || maxRequests.value == 0
                                   then DefaultMaxRequests else maxRequests.value)
      ensures this.windowSeconds == windowSeconds
      ensures windows == map[]
    {
      this.maxRequests := if maxRequests.None? || maxRequests.value == 0
                          then DefaultMaxRequests else maxRequests.value;
      this.windowSeconds := windowSeconds;
      windows := map[];
    }

    /**
     * `is_allowed`: the check `Admit` describes, applied to `key`'s entries;
     * the current reading is recorded whether or not the request is admitted,
     * and no other key is touched.
     */
    method IsAllowed(key: string, now: Time) returns (allowed: bool, retryAfter: Option<int>)
      modifies this`windows
      ensures var (a, after) := Admit(old(Entries(key)), now, maxRequests, windowSeconds);
              allowed == a.allowed && retryAfter == a.retryAfter && windows == old(windows)[key := after]
      ensures now in Entries(key)
      ensures forall t :: t in Entries(key) && t != now ==> t > now - windowSeconds as real
      ensures forall k :: k != key ==> Entries(k) == old(Entries(k))
    {
      var kept := set t | t in Entries(key) && t > now - windowSeconds as real;
      var count := |kept|;
      var after := kept + {now};
      windows := windows[key := after];
      if count >= maxRequests {
        if after != {} {
          var oldest := Oldest(after);
          return false, Some(Truncate(oldest + windowSeconds as real - now) + 1);
        }
        return false, Some(windowSeconds);
      }
      return true, None;
    }

    /**
     * `get_remaining`: purges `key`'s expired entries and reports how many
     * more requests the window admits; it records nothing.
     */
    method GetRemaining(key: string, now: Time) returns (remaining: int)
      modifies this`windows
      ensures remaining == Remaining(old(Entries(key)), now, maxRequests, windowSeconds)
      ensures Entries(key) == Purge(old(Entries(key)), now, windowSeconds)
      ensures key !in old(windows) ==> windows == old(windows)
      ensures forall k :: k != key ==> Entries(k) == old(Entries(k))
    {
      var kept := set t | t in Entries(key) && t > now - windowSeconds as real;
      if key in windows {
        windows := windows[key := kept];
      }
      remaining := Max(0, maxRequests - |kept|);
    }
  }

  /**
   * One hundred requests half a second apart are all admitted by the default
   * limiter, and the hundred-and-first, still inside the minute, is refused
   * with a retry delay of at most a minute.
   */
  method HundredAndOneScenario()
  {
    var limiter := new RateLimiter(None, 60);
    var k := 0;
    while k < 100
      invariant 0 <= k <= 100
      invariant limiter.maxRequests == 100 && limiter.windowSeconds == 60
      invariant forall u :: u in limiter.Entries("d1") ==> 1000.0 <= u < 1000.0 + k as real / 2.0
      invariant |limiter.Entries("d1")| == k
      invariant k > 0 ==> 1000.0 in limiter.Entries("d1")
    {
      var t: Time := 1000.0 + k as real / 2.0;
      ghost var before := limiter.Entries("d1");
      assert Purge(before, t, 60) == before;
      var allowed, _ := limiter.IsAllowed("d1", t);
      assert allowed;
      assert t !in before;
      assert limiter.Entries("d1") == before + {t};
      k := k + 1;
    }
    ghost var full := limiter.Entries("d1");
    assert Purge(full, 1050.0, 60) == full;
    var allowed, retryAfter := limiter.IsAllowed("d1", 1050.0);
    assert 1000.0 in Purge(full, 1050.0, 60);
    assert !allowed && retryAfter.Some? && 0 < retryAfter.value <= 60;
  }
}
