/** The delivery decision and the retry delay of the service layer. */
module Delivery {
  import opened Domain

  const INT64_MAX: int := 0x7FFF_FFFF_FFFF_FFFF

  predicate Accepted(r: Response) {
    r.err.None? && 200 <= r.statusCode < 300
  }

  predicate ShouldRetryDelivery(statusCode: int, err: Option<string>) {
    err.Some? || statusCode == 408 || statusCode == 429 || statusCode >= 500
  }

  /** The status a worker writes for the answer `r` to a notification whose
      snapshot says `attempts` of `maxAttempts`. */
  function Decide(attempts: int, maxAttempts: int, r: Response): Status {
    var attempt := attempts + 1;
    if Accepted(r) then Delivered
    else if ShouldRetryDelivery(r.statusCode, r.err) && attempt < maxAttempts then Scheduled
    else if ShouldRetryDelivery(r.statusCode, r.err) then DeadLetter
    else Failed
  }

  // ---------------------------------------------------------------- delay

  function Pow2(n: nat): nat {
    if n == 0 then 1 else 2 * Pow2(n - 1)
  }

  /** The exponent of the delay: no delay grows past attempt 5. */
  function Capped(attempts: int): nat {
    if attempts <= 0 then 0 else if attempts > 5 then 5 else attempts
  }

  /** `addJitter` with the random byte as an input; None when reading it fails. */
  function AddJitter(delay: Time, jitter: Option<Byte>): Time {
    match jitter
    case None => delay
    case Some(b) => delay + b * delay / 1024
  }

  /** `backoff` with the random byte as an input. */
  function Backoff(attempts: int, jitter: Option<Byte>): Time {
    var base := 2 * SECOND;
    if attempts <= 0 then AddJitter(base, jitter)
    else AddJitter(base * Pow2(if attempts > 5 then 5 else attempts), jitter)
  }

  /** The least delay that can follow a failed attempt made at count `attempts`. */
  function LeastDelay(attempts: int): Time {
    Pow2(Capped(attempts) + 1) * SECOND
  }

  lemma SmallPowers()
    ensures Pow2(0) == 1 && Pow2(1) == 2 && Pow2(2) == 4 && Pow2(3) == 8
    ensures Pow2(4) == 16 && Pow2(5) == 32 && Pow2(6) == 64 && Pow2(7) == 128
  {
    assert Pow2(3) == 8;
    assert Pow2(5) == 32;
  }

  lemma JitterRange(delay: Time, b: int)
    requires 0 < delay && 0 <= b < 256
    ensures 0 <= b * delay / 1024
    ensures 4 * (b * delay / 1024) < delay
  {
    assert 0 <= b * delay <= 255 * delay;
  }

  /** Every jittered delay lies in [2^(c+1), 1.25 * 2^(c+1)) seconds for the
      capped count c, under 80 seconds, and neither it nor the product it is
      computed from leaves the 64-bit range. */
  lemma BackoffRange(attempts: int, jitter: Option<Byte>)
    ensures LeastDelay(attempts) <= Backoff(attempts, jitter)
    ensures 4 * Backoff(attempts, jitter) < 5 * LeastDelay(attempts)
    ensures Backoff(attempts, jitter) < 80 * SECOND
    ensures jitter.Some? ==> jitter.value * LeastDelay(attempts) <= INT64_MAX
    ensures 2 * SECOND <= LeastDelay(attempts) <= 64 * SECOND
  {
    SmallPowers();
    var c := Capped(attempts);
    assert c == 0 || c == 1 || c == 2 || c == 3 || c == 4 || c == 5;
    if jitter.Some? {
      JitterRange(LeastDelay(attempts), jitter.value);
    }
  }

  /** The jitter adds b/1024 of the least delay, rounded down, and without a random byte
      nothing. */
  lemma BackoffExact(attempts: int, b: Byte)
    ensures Backoff(attempts, None) == LeastDelay(attempts)
    ensures var extra := Backoff(attempts, Some(b)) - LeastDelay(attempts);
            1024 * extra <= b * LeastDelay(attempts) < 1024 * (extra + 1)
  {
    SmallPowers();
    var c := Capped(attempts);
    assert c == 0 || c == 1 || c == 2 || c == 3 || c == 4 || c == 5;
  }

  /** Below the cap the worst delay of one attempt is shorter than the best of
      the next; from the cap on, the range no longer moves. */
  lemma BackoffGrows(attempts: int, j: Option<Byte>, k: Option<Byte>)
    requires 0 <= attempts
    ensures attempts < 5 ==> Backoff(attempts, j) < Backoff(attempts + 1, k)
    ensures attempts >= 5 ==> LeastDelay(attempts) == LeastDelay(5)
  {
    BackoffRange(attempts, j);
    BackoffRange(attempts + 1, k);
    SmallPowers();
  }

  // -------------------------------------------------------------- waiting

  /** The least total delay over `n` consecutive failed attempts from count `first`. */
  function LeastWait(first: int, n: nat): Time {
    if n == 0 then 0 else LeastWait(first, n - 1) + LeastDelay(first + n - 1)
  }

  /** From count 0: 2^(n+1) - 2 seconds for up to six retries, then 64 more each. */
  lemma {:induction false} LeastWaitClosed(n: nat)
    ensures n <= 6 ==> LeastWait(0, n) == (Pow2(n + 1) - 2) * SECOND
    ensures n >= 6 ==> LeastWait(0, n) == (126 + 64 * (n - 6)) * SECOND
  {
    SmallPowers();
    if n > 0 {
      LeastWaitClosed(n - 1);
    }
  }
}
