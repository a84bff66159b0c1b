/** Latency as counts, a sum, a maximum and fixed buckets, so that histograms add
    exactly across cycles, brokers and agents. */
module Histogram {
  import opened Wrappers

  /** Inclusive upper bounds in microseconds; one more bucket lies above the
      last. */
  const BOUNDS: seq<int> := [500, 1000, 2500, 5000, 10000, 25000, 50000, 100000, 500000, 1000000, 5000000]

  const BUCKETS := 12

  datatype Hist = Hist(count: nat, sumUs: nat, maxUs: Option<nat>, counts: seq<nat>)

  function Zeros(n: nat): (r: seq<nat>)
    ensures |r| == n && forall i :: 0 <= i < n ==> r[i] == 0
  {
    seq(n, _ => 0)
  }

  const EMPTY := Hist(0, 0, None, Zeros(BUCKETS))

  /** A duration in nanoseconds, in whole microseconds, negative ones as none. */
  function Micros(ns: int): (us: nat)
    ensures ns >= 0 ==> 1000 * us <= ns < 1000 * us + 1000
    ensures ns < 0 ==> us == 0
  {
    if ns < 0 then 0 else ns / 1000
  }

  predicate InBucket(us: int, i: nat) {
    && i < BUCKETS
    && (i > 0 ==> us > BOUNDS[i - 1])
    && (i < |BOUNDS| ==> us <= BOUNDS[i])
  }

  lemma BoundsAscend(i: nat, j: nat)
    requires i < j < |BOUNDS|
    ensures BOUNDS[i] < BOUNDS[j]
  {
  }

  /** Every value lies in exactly one bucket. */
  lemma BucketUnique(us: int, i: nat, j: nat)
    requires InBucket(us, i) && InBucket(us, j)
    ensures i == j
  {
    if i < j {
      BoundsAscendWeakly(i, j - 1);
    } else if j < i {
      BoundsAscendWeakly(j, i - 1);
    }
  }

  lemma BoundsAscendWeakly(i: nat, j: nat)
    requires i <= j < |BOUNDS|
    ensures BOUNDS[i] <= BOUNDS[j]
  {
    if i < j {
      BoundsAscend(i, j);
    }
  }

  function BucketFrom(us: int, i: nat): (r: nat)
    requires i < BUCKETS && (i > 0 ==> us > BOUNDS[i - 1])
    ensures InBucket(us, r)
    decreases BUCKETS - i
  {
    if i < |BOUNDS| && us > BOUNDS[i] then BucketFrom(us, i + 1) else i
  }

  function BucketOf(us: int): (r: nat)
    ensures InBucket(us, r)
  {
    BucketFrom(us, 0)
  }

  predicate Shaped(h: Hist) {
    |h.counts| == BUCKETS
  }

  function Later(m: Option<nat>, us: nat): Option<nat> {
    if m.None? || us > m.value then Some(us) else m
  }

  function Observed(h: Hist, us: nat): (r: Hist)
    requires Shaped(h)
    ensures Shaped(r)
  {
    var i := BucketOf(us);
    Hist(h.count + 1, h.sumUs + us, Later(h.maxUs, us), h.counts[i := h.counts[i] + 1])
  }

  // ---------------------------------------------------------------------------
  // The histogram as the agent holds it
  // ---------------------------------------------------------------------------

  /** Its arrays appear with the first observation, each histogram's own copy. */
  class LatencyHistogram {
    var count: nat
    var sumUs: nat
    var maxUs: Option<nat>
    var bounds: array?<int>
    var counts: array?<nat>

    ghost predicate Valid()
      reads this, bounds, counts
    {
      && (bounds == null <==> counts == null)
      && (counts == null ==> count == 0 && sumUs == 0 && maxUs == None)
      && (counts != null ==> bounds[..] == BOUNDS && counts.Length == BUCKETS)
    }

    ghost function View(): (r: Hist)
      requires Valid()
      reads this, bounds, counts
      ensures Shaped(r)
    {
      if counts == null then EMPTY else Hist(count, sumUs, maxUs, counts[..])
    }

    constructor ()
      ensures Valid() && View() == EMPTY && counts == null
    {
      count, sumUs, maxUs := 0, 0, None;
      bounds, counts := null, null;
    }

    /** Installs the bucket layout on a histogram never observed. The arrays are
        new: no other histogram can be re-bucketed through this one. */
    method EnsureBuckets()
      requires Valid()
      modifies this`bounds, this`counts
      ensures Valid() && View() == old(View())
      ensures counts != null && bounds != null
      ensures if old(counts) == null then fresh(counts) && fresh(bounds) else counts == old(counts) && bounds == old(bounds)
    {
      if counts == null {
        bounds := new int[|BOUNDS|](i requires 0 <= i < |BOUNDS| => BOUNDS[i]);
        counts := new nat[BUCKETS](i => 0);
        assert bounds[..] == BOUNDS;
        assert counts[..] == EMPTY.counts;
      }
    }

    /** The bucket of us: the first bound it does not exceed. */
    method Find(us: nat) returns (i: nat)
      requires Valid() && bounds != null
      ensures i == BucketOf(us) && i < BUCKETS
    {
      i := 0;
      while i < bounds.Length && us > bounds[i]
        invariant 0 <= i <= bounds.Length
        invariant i > 0 ==> us > BOUNDS[i - 1]
      {
        assert bounds[i] == bounds[..][i];
        i := i + 1;
      }
      assert i < bounds.Length ==> bounds[i] == bounds[..][i];
      BucketUnique(us, i, BucketOf(us));
    }

    method Observe(ns: int)
      requires Valid()
      modifies this, counts
      ensures Valid() && View() == Observed(old(View()), Micros(ns))
      ensures counts != null && (counts == old(counts) || fresh(counts))
      ensures bounds == old(bounds) || fresh(bounds)
    {
      hide BucketOf;
      EnsureBuckets();
      ghost var before := counts[..];
      var us := Micros(ns);
      count := count + 1;
      sumUs := sumUs + us;
      if maxUs.None? || us > maxUs.value {
        maxUs := Some(us);
      }
      var i := Find(us);
      counts[i] := counts[i] + 1;
      assert counts[..] == before[i := before[i] + 1];
    }
  }

  // ---------------------------------------------------------------------------
  // What the numbers mean
  // ---------------------------------------------------------------------------

  function HistOf(us: seq<nat>): (r: Hist)
    ensures Shaped(r)
  {
    if us == [] then EMPTY else Observed(HistOf(us[..|us| - 1]), us[|us| - 1])
  }

  function Sum(xs: seq<nat>): nat {
    if xs == [] then 0 else Sum(xs[..|xs| - 1]) + xs[|xs| - 1]
  }

  function CountIn(us: seq<nat>, i: nat): nat {
    if us == [] then 0 else CountIn(us[..|us| - 1], i) + if InBucket(us[|us| - 1], i) then 1 else 0
  }

  lemma {:induction false} SumBumped(xs: seq<nat>, i: nat)
    requires i < |xs|
    ensures Sum(xs[i := xs[i] + 1]) == Sum(xs) + 1
  {
    var n := |xs| - 1;
    var ys := xs[i := xs[i] + 1];
    if i < n {
      SumBumped(xs[..n], i);
      assert ys[..n] == xs[..n][i := xs[i] + 1];
    } else {
      assert ys[..n] == xs[..n];
    }
  }

  lemma {:induction false} SumOfZeros(n: nat)
    ensures Sum(Zeros(n)) == 0
  {
    if n > 0 {
      SumOfZeros(n - 1);
      assert Zeros(n)[..n - 1] == Zeros(n - 1);
    }
  }

  lemma {:induction false} CountsMeaning(us: seq<nat>, i: nat)
    requires i < BUCKETS
    ensures HistOf(us).counts[i] == CountIn(us, i)
  {
    if us != [] {
      var n := |us| - 1;
      CountsMeaning(us[..n], i);
      if InBucket(us[n], i) {
        BucketUnique(us[n], i, BucketOf(us[n]));
      }
    }
  }

  lemma {:induction false} TotalsMeaning(us: seq<nat>)
    ensures HistOf(us).count == |us| == Sum(HistOf(us).counts) && HistOf(us).sumUs == Sum(us)
  {
    hide Observed;
    if us == [] {
      SumOfZeros(BUCKETS);
    } else {
      var n := |us| - 1;
      TotalsMeaning(us[..n]);
      ObservedTotals(HistOf(us[..n]), us[n]);
    }
  }

  lemma ObservedTotals(h: Hist, us: nat)
    requires Shaped(h)
    ensures var g := Observed(h, us);
            g.count == h.count + 1 && g.sumUs == h.sumUs + us && Sum(g.counts) == Sum(h.counts) + 1
  {
    var i := BucketOf(us);
    hide BucketOf;
    SumBumped(h.counts, i);
  }

  lemma {:induction false} MaxMeaning(us: seq<nat>)
    ensures HistOf(us).maxUs.None? <==> us == []
    ensures HistOf(us).maxUs.Some? ==> HistOf(us).maxUs.value in us && forall u :: u in us ==> u <= HistOf(us).maxUs.value
  {
    hide InBucket;
    if us != [] {
      var n := |us| - 1;
      MaxMeaning(us[..n]);
      assert us == us[..n] + [us[n]];
    }
  }

  /** A histogram of any observations: the bucket counts sum to Count, each bucket
      holds exactly the observations that lie in it, Count and SumUs are theirs,
      and MaxUs is one of them and above none, absent exactly when there are
      none. */
  lemma HistogramMeaning(us: seq<nat>)
    ensures var h := HistOf(us);
            && h.count == |us| == Sum(h.counts)
            && h.sumUs == Sum(us)
            && (forall i :: 0 <= i < BUCKETS ==> h.counts[i] == CountIn(us, i))
            && (h.maxUs.None? <==> us == [])
            && (h.maxUs.Some? ==> h.maxUs.value in us && forall u :: u in us ==> u <= h.maxUs.value)
  {
    hide HistOf, Sum, CountIn;
    TotalsMeaning(us);
    MaxMeaning(us);
    forall i: nat | i < BUCKETS ensures HistOf(us).counts[i] == CountIn(us, i) {
      CountsMeaning(us, i);
    }
  }

  /** Two windows of one series, added bucket by bucket. */
  function Merged(a: Hist, b: Hist): (r: Hist)
    requires Shaped(a) && Shaped(b)
    ensures Shaped(r)
  {
    Hist(a.count + b.count, a.sumUs + b.sumUs, if b.maxUs.Some? then Later(a.maxUs, b.maxUs.value) else a.maxUs,
         seq(BUCKETS, i requires 0 <= i < BUCKETS => a.counts[i] + b.counts[i]))
  }

  lemma MergedEmpty(a: Hist)
    requires Shaped(a)
    ensures Merged(a, EMPTY) == a
  {
    assert Merged(a, EMPTY).counts == a.counts;
  }

  lemma MergedObserved(a: Hist, b: Hist, us: nat)
    requires Shaped(a) && Shaped(b)
    ensures Merged(a, Observed(b, us)) == Observed(Merged(a, b), us)
  {
    hide BucketOf;
    assert Merged(a, Observed(b, us)).counts == Observed(Merged(a, b), us).counts;
  }
}
