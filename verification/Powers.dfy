/** Powers of two and the extents aligned to them. */
module Powers {

  /** What `(n & (n - 1)) == 0` tests for a positive n. */
  predicate Pow2(n: int)
  {
    n == 1 || (n > 1 && n % 2 == 0 && Pow2(n / 2))
  }

  lemma {:induction false} Pow2Divides(a: int, b: int)
    requires Pow2(a) && Pow2(b) && a <= b
    ensures b % a == 0
    decreases b
  {
    if a < b {
      HalfBelow(a, b);
      Pow2Divides(a, b / 2);
      Doubled(b / 2, a);
    } else {
      Multiple(a, 1);
    }
  }

  lemma Doubled(s: int, a: int)
    requires a > 0 && s % a == 0
    ensures (2 * s) % a == 0
  {
    var k := s / a;
    assert s == a * k;
    Scaled(a, k, 2);
    Multiple(a, 2 * k);
  }

  lemma Scaled(a: int, k: int, m: int)
    ensures (a * k) * m == a * (m * k)
  {
  }

  /** a times k is a multiple of a. */
  lemma Multiple(a: int, k: int)
    requires a > 0
    ensures (a * k) % a == 0
  {
    var q, r := (a * k) / a, (a * k) % a;
    assert a * k == a * q + r;
    Distribute(a, k, q);
    Magnitude(a, k - q);
  }

  lemma Distribute(a: int, x: int, y: int)
    ensures a * (x - y) == a * x - a * y
  {
  }

  lemma Magnitude(a: int, d: int)
    requires a > 0
    ensures d >= 1 ==> a * d >= a
    ensures d <= -1 ==> a * d <= -a
  {
  }

  /** No power of two lies strictly between b / 2 and b. */
  lemma {:induction false} HalfBelow(a: int, b: int)
    requires Pow2(a) && Pow2(b) && a < b
    ensures a <= b / 2
    decreases b
  {
    if a > 1 {
      HalfBelow(a / 2, b / 2);
    }
  }

  /** Two powers of two add up to one only when they are equal. */
  lemma Pow2Sum(a: int, b: int)
    requires Pow2(a) && Pow2(b) && Pow2(a + b)
    ensures a == b
  {
    if a < b {
      HalfBelow(b, a + b);
    } else if b < a {
      HalfBelow(a, a + b);
    }
  }

  lemma {:induction false} Pow2Double(a: int)
    requires Pow2(a)
    ensures Pow2(2 * a)
  {
  }

  lemma ModSplit(s: int, a: int, m: int)
    requires a > 0 && m > 0 && s % m == 0 && m % a == 0
    ensures s % a == 0
  {
    var k, l := s / m, m / a;
    assert s == m * k && m == a * l;
    Associate(a, l, k);
    Multiple(a, l * k);
  }

  lemma Associate(a: int, l: int, k: int)
    ensures (a * l) * k == a * (l * k)
  {
  }

  /** Multiples of a that are less than a apart are equal. */
  lemma Close(s: int, t: int, a: int)
    requires a > 0 && s % a == 0 && t % a == 0
    ensures s < t + a ==> s <= t
  {
    var p, q := s / a, t / a;
    assert s == a * p && t == a * q;
    Distribute(a, p, q);
    Magnitude(a, p - q);
  }

  lemma ModSum(s: int, t: int, a: int)
    requires a > 0 && s % a == 0 && t % a == 0
    ensures (s + t) % a == 0 && (s - t) % a == 0
  {
    var p, q := s / a, t / a;
    assert s == a * p && t == a * q;
    Distribute(a, p, q);
    Distribute(a, p, -q);
    Multiple(a, p - q);
    Multiple(a, p + q);
  }

  /** Aligned power-of-two extents that overlap are nested. */
  lemma Dyadic(s: int, a: int, e: int, m: int)
    requires Pow2(a) && Pow2(m) && a <= m && s % a == 0 && e % m == 0
    requires s < e + m && e < s + a
    ensures e <= s && s + a <= e + m
  {
    Pow2Divides(a, m);
    ModSplit(e, a, m);
    ModSum(e, m, a);
    Close(e, s, a);
    Multiple(a, 1);
    ModSum(s, a, a);
    if s + a > e + m {
      Close(s + a, e + m, a);
    }
  }
}
