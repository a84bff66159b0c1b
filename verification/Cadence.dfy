/** Which cycles the cadenced phases sample on. */
module Cadence {
  import opened Arithmetic

  const LOG_DIRS_OFFSET := 0
  const MAX_TS_OFFSET := 2
  const CONFIGS_OFFSET := 5

  /** A period below one would divide by nothing. */
  function EveryNth(every: int): (p: nat)
    ensures p >= 1 && (every >= 1 ==> p == every)
  {
    if every < 1 then 1 else every
  }

  predicate RunsThisCycle(enabled: bool, every: int, offset: nat, n: nat) {
    enabled && (n + offset) % EveryNth(every) == 0
  }

  /** An enabled phase samples exactly once in any stretch of as many cycles as
      its period, wherever the stretch starts. */
  lemma OncePerPeriod(every: int, offset: nat, start: nat) returns (n: nat)
    ensures start <= n < start + EveryNth(every) && RunsThisCycle(true, every, offset, n)
    ensures forall m: nat :: start <= m < start + EveryNth(every) && RunsThisCycle(true, every, offset, m) ==> m == n
  {
    var p, a := EveryNth(every), start + offset;
    var r := a % p;
    n := if r == 0 then start else start + (p - r);
    NextMultiple(a, p);
    forall m: nat | start <= m < start + p && RunsThisCycle(true, every, offset, m) ensures m == n {
      if m <= n {
        SameRemainder(m + offset, n + offset, p);
      } else {
        SameRemainder(n + offset, m + offset, p);
      }
    }
  }

  lemma NextMultiple(a: nat, p: nat)
    requires p >= 1
    ensures a % p != 0 ==> (a + (p - a % p)) % p == 0
  {
    if a % p != 0 {
      var q := a / p;
      assert a + (p - a % p) == p * (q + 1);
      Multiple(p, q + 1);
    }
  }

  /** Two phases whose periods share a divisor d never sample on one cycle if
      their offsets differ modulo d. */
  lemma NeverCoincide(d: nat, j: nat, k: nat, a: nat, b: nat, n: nat)
    requires d >= 1 && j >= 1 && k >= 1 && a <= b && (b - a) % d != 0
    ensures !(RunsThisCycle(true, d * j, a, n) && RunsThisCycle(true, d * k, b, n))
  {
    assert d * j >= 1 && d * k >= 1;
    if (n + a) % (d * j) == 0 && (n + b) % (d * k) == 0 {
      RemainderOf(n + a, d, j);
      RemainderOf(n + b, d, k);
      var x, y := (n + a) / d, (n + b) / d;
      assert b - a == d * y - d * x == d * (y - x);
      MulStep(d, y, x);
      Multiple(d, y - x);
      assert false;
    }
  }

  /** At the shipped periods no two of log dirs, max timestamp and configs ever
      sample on the same cycle. */
  lemma ShippedCadencesNeverCoincide(n: nat)
    ensures !(RunsThisCycle(true, 24, LOG_DIRS_OFFSET, n) && RunsThisCycle(true, 12, MAX_TS_OFFSET, n))
    ensures !(RunsThisCycle(true, 24, LOG_DIRS_OFFSET, n) && RunsThisCycle(true, 360, CONFIGS_OFFSET, n))
    ensures !(RunsThisCycle(true, 12, MAX_TS_OFFSET, n) && RunsThisCycle(true, 360, CONFIGS_OFFSET, n))
  {
    NeverCoincide(12, 2, 1, LOG_DIRS_OFFSET, MAX_TS_OFFSET, n);
    NeverCoincide(12, 2, 30, LOG_DIRS_OFFSET, CONFIGS_OFFSET, n);
    NeverCoincide(12, 1, 30, MAX_TS_OFFSET, CONFIGS_OFFSET, n);
  }

  /** A phase that is off never samples; one that is on at the shipped periods
      first does on cycle 0, 10 and 355. */
  lemma FirstSamples(every: int, offset: nat, n: nat)
    ensures !RunsThisCycle(false, every, offset, n)
    ensures RunsThisCycle(true, 24, LOG_DIRS_OFFSET, 0)
    ensures RunsThisCycle(true, 12, MAX_TS_OFFSET, 10) && (n < 10 ==> !RunsThisCycle(true, 12, MAX_TS_OFFSET, n))
    ensures RunsThisCycle(true, 360, CONFIGS_OFFSET, 355) && (n < 355 ==> !RunsThisCycle(true, 360, CONFIGS_OFFSET, n))
  {
  }
}
