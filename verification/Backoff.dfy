/** The retry delay: Go's 64-bit shift, the cap, full jitter and the clamp on a
    server-supplied Retry-After. Durations are nanoseconds. */
module Backoff {
  const MAX_BACKOFF := 30_000_000_000
  const MAX_RETRY_AFTER := 300_000_000_000
  const TWO63 := 0x8000_0000_0000_0000
  const TWO64 := 0x1_0000_0000_0000_0000

  function Pow2(k: nat): (p: nat)
    ensures p > 0
  {
    if k == 0 then 1 else 2 * Pow2(k - 1)
  }

  /** A 64-bit two's-complement register holding n. */
  function Wrap64(n: int): (r: int)
    ensures -TWO63 <= r < TWO63
    ensures (n - r) % TWO64 == 0
  {
    var m := n % TWO64;
    if m < TWO63 then m else m - TWO64
  }

  /** baseDelay << shift on int64. */
  function Shift(base: nat, shift: nat): int {
    Wrap64(base * Pow2(shift))
  }

  /** The jitter ceiling before retry `attempt` (1-based). */
  function Ceiling(base: nat, attempt: nat): (d: nat)
    requires attempt >= 1
    ensures 0 < d <= MAX_BACKOFF
  {
    var ceiling := Shift(base, attempt - 1);
    if ceiling > MAX_BACKOFF || ceiling <= 0 then MAX_BACKOFF else ceiling
  }

  /** rnd.Int63n(ceiling + 1) for a draw of the generator. */
  function Jitter(base: nat, attempt: nat, draw: nat): (d: nat)
    requires attempt >= 1
    ensures d <= Ceiling(base, attempt) <= MAX_BACKOFF
  {
    draw % (Ceiling(base, attempt) + 1)
  }

  /** Full jitter: every delay up to the ceiling can be drawn. */
  lemma JitterIsFull(base: nat, attempt: nat, d: nat)
    requires attempt >= 1 && d <= Ceiling(base, attempt)
    ensures Jitter(base, attempt, d) == d
  {
    hide Ceiling;
  }

  /** The documented ceiling: the doubling, capped at 30 s. */
  function CappedDoubling(base: nat, attempt: nat): nat
    requires attempt >= 1
  {
    var full := base * Pow2(attempt - 1);
    if full < MAX_BACKOFF then full else MAX_BACKOFF
  }

  predicate Overflows(base: nat, attempt: nat)
    requires attempt >= 1
  {
    base * Pow2(attempt - 1) >= TWO63
  }

  /** The code's ceiling is the documented one exactly when the doubling did not
      run off the register and wrap round to a small positive value. */
  lemma CeilingMatchesDocumentation(base: nat, attempt: nat)
    requires base > 0 && attempt >= 1
    ensures Ceiling(base, attempt) == CappedDoubling(base, attempt)
      <==> !(Overflows(base, attempt) && 0 < Shift(base, attempt - 1) < MAX_BACKOFF)
  {
    var full := base * Pow2(attempt - 1);
    assert full > 0;
    if full < TWO63 {
      assert full % TWO64 == full;
    }
  }

  lemma PowSum(a: nat, b: nat)
    ensures Pow2(a + b) == Pow2(a) * Pow2(b)
  {
    if a > 0 {
      PowSum(a - 1, b);
    }
  }

  lemma Pow2Monotone(a: nat, b: nat)
    requires a <= b
    ensures Pow2(a) <= Pow2(b)
  {
    if a < b {
      Pow2Monotone(a, b - 1);
    }
  }

  /** A base delay of 2^30 + 1 ns, a little over a second, is a legal setting;
      its 35th retry draws from [0, 17.2 s] although the doubling passed 30 s
      long before. */
  lemma WrapUndercutsTheCap()
    ensures Ceiling(0x4000_0001, 35) == 0x4_0000_0000 < MAX_BACKOFF
    ensures CappedDoubling(0x4000_0001, 35) == MAX_BACKOFF
  {
    assert Pow2(4) == 16;
    PowSum(4, 4); PowSum(8, 8); PowSum(16, 16); PowSum(2, 32);
    assert Pow2(34) == 0x4_0000_0000;
    assert 0x4000_0001 * Pow2(34) == TWO64 + 0x4_0000_0000;
    assert (TWO64 + 0x4_0000_0000) % TWO64 == 0x4_0000_0000;
  }

  /** No wrap is possible on any of the first 29 retries of a base delay of at
      most 30 s, far beyond the default of three retries. */
  lemma NoOverflowInPractice(base: nat, attempt: nat)
    requires 0 < base <= MAX_BACKOFF && 1 <= attempt <= 29
    ensures Ceiling(base, attempt) == CappedDoubling(base, attempt)
  {
    Pow2Monotone(attempt - 1, 28);
    assert Pow2(4) == 16;
    PowSum(4, 4); PowSum(8, 8); PowSum(12, 16); PowSum(4, 8);
    assert Pow2(28) == 0x1000_0000;
    assert base * Pow2(attempt - 1) <= MAX_BACKOFF * Pow2(28) by {
      ProductMonotone(base, MAX_BACKOFF, Pow2(attempt - 1), Pow2(28));
    }
    CeilingMatchesDocumentation(base, attempt);
  }

  lemma ProductMonotone(a: nat, b: nat, x: nat, y: nat)
    requires a <= b && x <= y
    ensures a * x <= b * y
  {
    assert (b - a) * x >= 0 && b * (y - x) >= 0;
  }

  /** clampRetryAfter. */
  function ClampRetryAfter(d: int): (r: int)
    ensures r <= MAX_RETRY_AFTER && r <= d && (r == d || r == MAX_RETRY_AFTER)
  {
    if d > MAX_RETRY_AFTER then MAX_RETRY_AFTER else d
  }

  /** A Retry-After header (section 10.2.3 of RFC 9110): none, a decimal number, a
      date so many nanoseconds from now, or neither. */
  datatype RetryAfter = Absent | Seconds(secs: int) | Date(until: int) | Unreadable

  /** parseRetryAfter. A number that does not fit 64 bits is no number to Atoi,
      and no date either; the product of one that does is taken on 64 bits. */
  function ParseRetryAfter(h: RetryAfter): (d: int)
    ensures d <= MAX_RETRY_AFTER
  {
    match h
    case Absent | Unreadable => 0
    case Seconds(secs) =>
      if secs <= 0 || secs >= TWO63 then 0 else ClampRetryAfter(Wrap64(secs * 1_000_000_000))
    case Date(until) => if until > 0 then ClampRetryAfter(until) else 0
  }

  /** A positive number of seconds is honoured up to five minutes, exactly unless
      it does not fit 64 bits, or its conversion to nanoseconds runs off the
      register and lands below the cap. */
  lemma RetryAfterHonoured(secs: int)
    requires secs > 0
    ensures ParseRetryAfter(Seconds(secs)) == (if secs < 300 then secs * 1_000_000_000 else MAX_RETRY_AFTER)
      <==> !(secs >= TWO63 || (secs * 1_000_000_000 >= TWO63 && Wrap64(secs * 1_000_000_000) < MAX_RETRY_AFTER))
  {
    var full := secs * 1_000_000_000;
    if full < TWO63 {
      assert full % TWO64 == full;
    }
  }

  /** A date is waited for, up to five minutes; one that has passed, a header that
      is absent or unreadable, and a number that is not positive ask for nothing. */
  lemma OtherFormsHonoured(until: int, secs: int)
    ensures ParseRetryAfter(Date(until)) ==
      if until <= 0 then 0 else if until < 300_000_000_000 then until else 300_000_000_000
    ensures ParseRetryAfter(Absent) == ParseRetryAfter(Unreadable) == 0
    ensures secs <= 0 ==> ParseRetryAfter(Seconds(secs)) == 0
  {
  }

  /** A number one thousand above what 64 bits hold is ignored, although its
      product would have come out long enough. */
  lemma UnparsableSecondsIgnored()
    ensures ParseRetryAfter(Seconds(9_223_372_036_854_776_808)) == 0
    ensures Wrap64(9_223_372_036_854_776_808 * 1_000_000_000) >= MAX_RETRY_AFTER
  {
    assert 9_223_372_036_854_776_808 * 1_000_000_000 == 500_000_000 * TWO64 + 1_000_000_000_000;
    assert (500_000_000 * TWO64 + 1_000_000_000_000) % TWO64 == 1_000_000_000_000;
  }

  /** A header of about 585 years shortens the wait to 0.29 s. */
  lemma HugeRetryAfterWraps()
    ensures ParseRetryAfter(Seconds(18_446_744_074)) == 290_448_384
  {
    assert 18_446_744_074 * 1_000_000_000 == TWO64 + 290_448_384;
    assert (TWO64 + 290_448_384) % TWO64 == 290_448_384;
  }

  /** retryableStatus: 408, 429 and every 5xx. */
  predicate RetryableStatus(code: int) {
    code == 408 || code == 429 || code >= 500
  }

  /** Of the client errors only a request timeout and a rate limit (section 4 of
      RFC 6585) are worth another attempt; every server error is, and nothing
      below 400. */
  lemma WhatIsRetried(code: int)
    ensures 400 <= code < 500 ==> (RetryableStatus(code) <==> code in {408, 429})
    ensures code >= 500 ==> RetryableStatus(code)
    ensures code < 400 ==> !RetryableStatus(code)
  {
  }
}
