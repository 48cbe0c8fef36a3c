/**
 * The two shapes the client's offline queues share: appending to a list
 * that drops its single oldest item once it grows past a cap, and draining
 * a list front to back through a send call that may fail, giving up after a
 * run of consecutive failures.
 */
module BoundedQueue {
  import opened Wrappers
  import opened Attempts

  /**
   * `queue.append(x)` followed by `if len(queue) > cap: queue.pop(0)`. The
   * result is always a suffix of `q + [x]`; one item at most is dropped, and
   * it is the oldest; a queue within the cap stays within it.
   */
  function Enqueue<T>(q: seq<T>, x: T, cap: int): (r: seq<T>)
    ensures |r| == (if |q| + 1 > cap then |q| else |q| + 1)
    ensures r == (q + [x])[|q| + 1 - |r|..]
    ensures |q| <= Max(cap, 0) ==> |r| <= Max(cap, 0)
    ensures cap >= 1 ==> r[|r| - 1] == x
  {
    var appended := q + [x];
    if |appended| > cap then appended[1..] else appended
  }

  /** The queue after enqueueing every item of `xs` in order. */
  function EnqueueAll<T>(q: seq<T>, xs: seq<T>, cap: int): seq<T>
    decreases |xs|
  {
    if xs == [] then q else Enqueue(EnqueueAll(q, xs[..|xs| - 1], cap), xs[|xs| - 1], cap)
  }

  /**
   * Starting from an empty queue, the queue holds exactly the `cap` most
   * recent items (all of them while there are fewer), in arrival order.
   */
  lemma {:induction false} EnqueueAllKeepsNewest<T>(xs: seq<T>, cap: nat)
    ensures EnqueueAll([], xs, cap) == xs[|xs| - Min(|xs|, cap)..]
    decreases |xs|
  {
    if xs != [] {
      EnqueueAllKeepsNewest(xs[..|xs| - 1], cap);
      KeepNewestStep(xs, cap);
    }
  }

  /** Enqueueing the next item onto the newest items so far keeps the newest items. */
  lemma KeepNewestStep<T>(xs: seq<T>, cap: nat)
    requires xs != []
    ensures var n := |xs|;
            Enqueue(xs[..n - 1][n - 1 - Min(n - 1, cap)..], xs[n - 1], cap) == xs[n - Min(n, cap)..]
  {
    var n := |xs|;
    var x := xs[n - 1];
    if n - 1 < cap {
      assert xs[..n - 1][0..] + [x] == xs;
    } else {
      var kept := xs[..n - 1][n - 1 - cap..];
      assert kept + [x] == xs[n - 1 - cap..];
      assert xs[n - 1 - cap..][1..] == xs[n - cap..];
    }
  }

  /**
   * Whether a drain of a `n`-item queue is over after `m` send calls
   * numbered from `start`: every item has been sent, or the last `limit`
   * calls all failed (failures do not advance the queue, so they form the
   * run of consecutive failures the drain counts).
   */
  ghost predicate DrainOver(n: nat, send: nat -> bool, start: nat, limit: nat, m: nat)
  {
    || CountIn(send, start, start + m) == n
    || (m >= limit && forall j :: start + m - limit <= j < start + m ==> !send(j))
  }

  /**
   * A drain of `queue` that made `calls` send calls numbered from `start`
   * stopped at the first point where it may stop, and what is left is the
   * queue less the items whose send succeeded, all taken from the front.
   */
  ghost predicate Drained<T>(queue: seq<T>, send: nat -> bool, start: nat, limit: nat, calls: nat, rest: seq<T>)
  {
    && DrainOver(|queue|, send, start, limit, calls)
    && (forall m :: 0 <= m < calls ==> !DrainOver(|queue|, send, start, limit, m))
    && CountIn(send, start, start + calls) <= |queue|
    && rest == queue[CountIn(send, start, start + calls)..]
  }

  /**
   * The state of a drain of an `n`-item queue after `calls` calls numbered
   * from `start`, `streak` of them the failures since the last success: it
   * has not yet been over at any earlier call.
   */
  ghost predicate DrainProgress(n: nat, send: nat -> bool, start: nat, limit: nat, calls: nat, streak: nat)
  {
    && streak <= limit && streak <= calls
    && CountIn(send, start, start + calls) <= n
    && (forall j :: start + calls - streak <= j < start + calls ==> !send(j))
    && (streak < calls ==> send(start + calls - streak - 1))
    && (forall m :: 0 <= m < calls ==> !DrainOver(n, send, start, limit, m))
  }

  /**
   * While items remain and fewer than `limit` failures have come in a row,
   * the drain makes one more call: a success ends the streak, a failure
   * lengthens it.
   */
  lemma DrainStep(n: nat, send: nat -> bool, start: nat, limit: nat, calls: nat, streak: nat)
    requires DrainProgress(n, send, start, limit, calls, streak)
    requires streak < limit && CountIn(send, start, start + calls) < n
    ensures DrainProgress(n, send, start, limit, calls + 1, if send(start + calls) then 0 else streak + 1)
  {
    if calls >= limit {
      assert send(start + calls - streak - 1);
    }
    assert !DrainOver(n, send, start, limit, calls);
  }

  /** A drain that has sent everything, or has reached `limit` failures in a row, is over. */
  lemma DrainStops(n: nat, send: nat -> bool, start: nat, limit: nat, calls: nat, streak: nat)
    requires DrainProgress(n, send, start, limit, calls, streak)
    requires CountIn(send, start, start + calls) == n || streak >= limit
    ensures DrainOver(n, send, start, limit, calls)
  {
  }
}
