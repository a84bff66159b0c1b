/** Remainders and multiples. */
module Arithmetic {

  lemma {:induction false} MulStep(p: nat, x: int, y: int)
    ensures x < y ==> p * x + p <= p * y
    decreases y - x
  {
    if x < y {
      assert p * (y - 1) == p * y - p;
      MulStep(p, x, y - 1);
    }
  }

  /** Quotient and remainder are unique. */
  lemma DivModUnique(n: nat, p: nat, q: nat, r: nat)
    requires p >= 1 && n == p * q + r && r < p
    ensures n / p == q && n % p == r
  {
    assert n == p * (n / p) + n % p;
    MulStep(p, q, n / p);
    MulStep(p, n / p, q);
  }

  /** Two values less than p apart with the same remainder are equal. */
  lemma SameRemainder(a: nat, b: nat, p: nat)
    requires p >= 1 && a % p == b % p && a <= b < a + p
    ensures a == b
  {
    var x, y := a / p, b / p;
    assert a == p * x + a % p && b == p * y + b % p;
    MulStep(p, x, y);
    MulStep(p, y, x);
  }

  lemma Multiple(p: nat, k: nat)
    requires p >= 1
    ensures (p * k) % p == 0
  {
    DivModUnique(p * k, p, k, 0);
  }

  /** Whole multiples of p do not change a remainder. */
  lemma PlusMultiple(p: nat, k: nat, r: nat)
    requires p >= 1
    ensures (p * k + r) % p == r % p
  {
    assert r == p * (r / p) + r % p;
    assert p * k + r == p * (k + r / p) + r % p;
    DivModUnique(p * k + r, p, k + r / p, r % p);
  }

  /** A multiple of a multiple of d is a multiple of d. */
  lemma RemainderOf(a: nat, d: nat, k: nat)
    requires d >= 1 && k >= 1 && a % (d * k) == 0
    ensures a % d == 0
  {
    var q := a / (d * k);
    assert a == (d * k) * q;
    assert a == d * (k * q);
    Multiple(d, k * q);
  }

  lemma {:induction false} AtLeastItself(x: nat, k: nat)
    requires k > 0
    ensures x * k >= x
  {
    if k > 1 {
      AtLeastItself(x, k - 1);
      assert x * k == x * (k - 1) + x;
    }
  }
}
