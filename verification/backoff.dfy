/** `DefaultReconnectBackoffCounter`: the delay before the next reconnect
    attempt grows as a power of twice the configured base and is capped at
    30 minutes. Delays are whole seconds held in unbounded integers, so a
    power too large for the source's `Decimal` simply lands on the cap. */
module Backoff {

  /** 30 minutes, in seconds. */
  const MaxTimeLimitInSecs: int := 1800
  const RetryExponentialBase: int := 2

  function Pow(x: int, n: nat): int {
    if n == 0 then 1 else x * Pow(x, n - 1)
  }

  /** The delay returned by the call made when `attempt` calls have already
      been made since construction or the last reset. */
  function RetryTime(backoffBase: int, attempt: nat): (r: int)
    ensures r <= MaxTimeLimitInSecs
    ensures r < MaxTimeLimitInSecs <==> Pow(backoffBase * RetryExponentialBase, attempt) < MaxTimeLimitInSecs
    ensures r < MaxTimeLimitInSecs ==> r == Pow(backoffBase * RetryExponentialBase, attempt)
  {
    var p := Pow(backoffBase * RetryExponentialBase, attempt);
    if p < MaxTimeLimitInSecs then p else MaxTimeLimitInSecs
  }

  /** For a base of at least 1 the powers start at 1 and never decrease. */
  lemma {:induction false} PowMonotone(x: int, n: nat)
    requires x >= 1
    ensures 1 <= Pow(x, n) <= Pow(x, n + 1)
  {
    if n > 0 {
      PowMonotone(x, n - 1);
    }
  }

  lemma {:induction false} PowMonotoneRange(x: int, m: nat, n: nat)
    requires x >= 1 && m <= n
    ensures Pow(x, m) <= Pow(x, n)
    decreases n - m
  {
    if m < n {
      PowMonotone(x, m);
      PowMonotoneRange(x, m + 1, n);
    }
  }

  /** The counter's state: the configured base and the number of delays
      handed out since construction or the last reset. */
  datatype BackoffCounter = BackoffCounter(backoffBase: int, attemptCount: nat)

  /** `init(backoffBase:)`. */
  function NewBackoffCounter(backoffBase: int): (c: BackoffCounter)
    ensures c.backoffBase == backoffBase && c.attemptCount == 0
  {
    BackoffCounter(backoffBase, 0)
  }

  /** `getNextRetryTime`: the delay for the current attempt, and the counter
      with one more attempt recorded. */
  function NextRetryTime(c: BackoffCounter): (r: (int, BackoffCounter))
    ensures r.0 <= MaxTimeLimitInSecs
    ensures r.0 == RetryTime(c.backoffBase, c.attemptCount)
    ensures r.1.backoffBase == c.backoffBase && r.1.attemptCount == c.attemptCount + 1
  {
    (RetryTime(c.backoffBase, c.attemptCount), c.(attemptCount := c.attemptCount + 1))
  }

  /** `resetCounter`: forget every attempt; the base is untouched. */
  function Reset(c: BackoffCounter): (r: BackoffCounter)
    ensures r.backoffBase == c.backoffBase && r.attemptCount == 0
  {
    c.(attemptCount := 0)
  }

  /** The delays of `k` successive calls, with no reset in between. */
  function Delays(c: BackoffCounter, k: nat): (r: seq<int>)
    ensures |r| == k
    ensures forall i :: 0 <= i < k ==> r[i] == RetryTime(c.backoffBase, c.attemptCount + i)
    ensures forall i :: 0 <= i < k ==> r[i] <= MaxTimeLimitInSecs
    decreases k
  {
    if k == 0 then []
    else
      var (d, next) := NextRetryTime(c);
      [d] + Delays(next, k - 1)
  }

  /** The first delay after construction or after a reset is always 1: any
      base raised to the power 0. */
  lemma FirstDelayIsOne(backoffBase: int, c: BackoffCounter)
    ensures NextRetryTime(NewBackoffCounter(backoffBase)).0 == 1
    ensures NextRetryTime(Reset(c)).0 == 1
  {
  }

  /** With a base of at least 1, successive delays never decrease. */
  lemma {:induction false} DelaysNonDecreasing(c: BackoffCounter, k: nat)
    requires c.backoffBase >= 1
    ensures forall i, j :: 0 <= i <= j < k ==> Delays(c, k)[i] <= Delays(c, k)[j]
  {
    var ds := Delays(c, k);
    var x := c.backoffBase * RetryExponentialBase;
    forall i, j | 0 <= i <= j < k
      ensures ds[i] <= ds[j]
    {
      PowMonotoneRange(x, c.attemptCount + i, c.attemptCount + j);
    }
  }

  /** With base 1 the delays run 1, 2, 4, ..., 1024 and then stay at 1800. */
  lemma {:induction false} BaseOneDelays(n: nat)
    ensures RetryTime(1, n) == if n <= 10 then Pow(2, n) else MaxTimeLimitInSecs
  {
    if n <= 10 {
      PowMonotoneRange(2, n, 10);
      assert Pow(2, 10) == 1024;
    } else {
      assert Pow(2, 11) == 2048;
      PowMonotoneRange(2, 11, n);
    }
  }

  /** The same capped power as `RetryTime`, computed iteratively: multiply up
      to the attempt count, but stop early once a base of at least 1 has
      reached the cap, since later factors cannot bring it back down. */
  method ComputeRetryTime(backoffBase: int, attempt: nat) returns (t: int)
    ensures t == RetryTime(backoffBase, attempt)
  {
    var x := backoffBase * RetryExponentialBase;
    var p := 1;
    var i := 0;
    while i < attempt && (x < 1 || p < MaxTimeLimitInSecs)
      invariant 0 <= i <= attempt
      invariant p == Pow(x, i)
    {
      p := p * x;
      i := i + 1;
    }
    if i < attempt {
      PowMonotoneRange(x, i, attempt);
    }
    t := if p < MaxTimeLimitInSecs then p else MaxTimeLimitInSecs;
  }

  /** The counter as the object the source allocates once per reconnect
      timer. */
  class ReconnectBackoffCounter {
    const backoffBase: int
    var attemptCount: nat

    constructor(backoffBase: int)
      ensures this.backoffBase == backoffBase && attemptCount == 0
    {
      this.backoffBase := backoffBase;
      attemptCount := 0;
    }

    method GetNextRetryTime() returns (t: int)
      modifies this
      ensures (t, BackoffCounter(backoffBase, attemptCount))
           == NextRetryTime(BackoffCounter(backoffBase, old(attemptCount)))
    {
      t := ComputeRetryTime(backoffBase, attemptCount);
      attemptCount := attemptCount + 1;
    }

    method ResetCounter()
      modifies this
      ensures attemptCount == 0
    {
      attemptCount := 0;
    }
  }
}
