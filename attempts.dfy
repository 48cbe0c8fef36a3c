/**
 * Bookkeeping over a sequence of calls to an outside party (an API, a
 * database, a send callback). The party is an oracle: call number `i`
 * has outcome `p(i)`, so every schedule of successes and failures is covered.
 */
module Attempts {
  import opened Wrappers

  /** How many times `range(max_retries + 1)` runs. */
  function AttemptBudget(maxRetries: int): (n: nat)
    ensures maxRetries >= 0 ==> n == maxRetries + 1
    ensures maxRetries < 0 ==> n == 0
  {
    Max(maxRetries + 1, 0)
  }

  /** The first call number below `n` at which `p` holds, if any. */
  function FirstIndex(p: nat -> bool, n: nat): (k: Option<nat>)
    ensures k.Some? ==> k.value < n && p(k.value) && forall j :: 0 <= j < k.value ==> !p(j)
    ensures k.None? <==> forall j :: 0 <= j < n ==> !p(j)
  {
    if n == 0 then None
    else
      var earlier := FirstIndex(p, n - 1);
      if earlier.Some? then earlier
      else if p(n - 1) then Some(n - 1)
      else None
  }

  /** Once a hit exists below `n`, looking further does not change which one is first. */
  lemma {:induction false} FirstIndexStable(p: nat -> bool, n: nat, m: nat)
    requires n <= m
    requires FirstIndex(p, n).Some?
    ensures FirstIndex(p, m) == FirstIndex(p, n)
  {
    if m > n {
      FirstIndexStable(p, n, m - 1);
    }
  }

  /** A hit at `k` with none before it is the first hit in any longer range. */
  lemma {:induction false} FirstIndexAt(p: nat -> bool, k: nat, n: nat)
    requires k < n && p(k)
    requires forall j :: 0 <= j < k ==> !p(j)
    ensures FirstIndex(p, n) == Some(k)
  {
    FirstIndexStable(p, k + 1, n);
  }

  /** How many call numbers in `[lo, hi)` satisfy `p`. */
  function CountIn(p: nat -> bool, lo: nat, hi: nat): (c: nat)
    requires lo <= hi
    ensures c <= hi - lo
    decreases hi - lo
  {
    if lo == hi then 0 else CountIn(p, lo, hi - 1) + (if p(hi - 1) then 1 else 0)
  }

  /** The count is the whole range exactly when every call qualifies, and 0 exactly when none does. */
  lemma {:induction false} CountInExtremes(p: nat -> bool, lo: nat, hi: nat)
    requires lo <= hi
    ensures CountIn(p, lo, hi) == hi - lo <==> forall j :: lo <= j < hi ==> p(j)
    ensures CountIn(p, lo, hi) == 0 <==> forall j :: lo <= j < hi ==> !p(j)
    decreases hi - lo
  {
    if lo < hi {
      CountInExtremes(p, lo, hi - 1);
    }
  }

  /** Counting over adjacent ranges adds up. */
  lemma {:induction false} CountInSplit(p: nat -> bool, lo: nat, mid: nat, hi: nat)
    requires lo <= mid <= hi
    ensures CountIn(p, lo, hi) == CountIn(p, lo, mid) + CountIn(p, mid, hi)
    decreases hi - mid
  {
    if hi > mid {
      CountInSplit(p, lo, mid, hi - 1);
    }
  }
}
