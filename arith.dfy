/** Integer facts about Euclidean division that the codec and the scheduler proofs rely on. */
module Arith {

  /** 256 to the power k: the weight of the k-th byte from the right in a big-endian number. */
  function Pow256(k: nat): (p: nat)
    ensures p >= 1
  {
    if k == 0 then 1 else 256 * Pow256(k - 1)
  }

  /** Quotient and remainder are determined by any decomposition n == d*q + r with 0 <= r < d. */
  lemma DivModUnique(n: int, d: int, q: int, r: int)
    requires d > 0 && 0 <= r < d && n == d * q + r
    ensures n / d == q && n % d == r
  {
    var t := q - n / d;
    assert d * t == n % d - r;
  }

  /** A multiple of n leaves no remainder. */
  lemma MultipleMod(n: int, x: int)
    requires n > 0
    ensures (n * x) % n == 0
  {
    DivModUnique(n * x, n, x, 0);
  }

  /** The only multiple of d strictly between -d and d is zero. */
  lemma SmallMultipleIsZero(d: int, k: int)
    requires d > 0 && -d < d * k < d
    ensures k == 0
  {
  }

  /** A multiple of m is a multiple of every divisor of m. */
  lemma MultipleOfDivisor(n: int, d: int, m: int)
    requires d > 0 && m > 0 && n % m == 0 && m % d == 0
    ensures n % d == 0
  {
    var x := n / m;
    var y := m / d;
    assert n == m * x;
    assert m == d * y;
    assert n == d * (y * x);
    MultipleMod(d, y * x);
  }

  /** The sum of two multiples of d is a multiple of d. */
  lemma SumOfMultiples(a: int, b: int, d: int)
    requires d > 0 && a % d == 0 && b % d == 0
    ensures (a + b) % d == 0
  {
    assert a == d * (a / d);
    assert b == d * (b / d);
    assert a + b == d * (a / d + b / d);
    MultipleMod(d, a / d + b / d);
  }

  /** Dividing twice is dividing by the product. */
  lemma DivDiv(n: int, a: int, b: int)
    requires a > 0 && b > 0
    ensures n / a / b == n / (a * b)
  {
    var q1 := n / a;
    var q2 := q1 / b;
    var r := (q1 % b) * a + n % a;
    NestedDecomposition(n, a, b, q1, q2);
    RemainderBelowProduct(a, b, q1 % b, n % a);
    DivModUnique(n, a * b, q2, r);
  }

  /** n = a*q1 + r1 and q1 = b*q2 + r2 combine into n = (a*b)*q2 + (r2*a + r1). */
  lemma NestedDecomposition(n: int, a: int, b: int, q1: int, q2: int)
    requires a > 0 && b > 0 && q1 == n / a && q2 == q1 / b
    ensures n == (a * b) * q2 + ((q1 % b) * a + n % a)
  {
    var r2 := q1 % b;
    assert n == a * q1 + n % a;
    assert q1 == b * q2 + r2;
    calc {
      a * q1;
      a * (b * q2 + r2);
      a * (b * q2) + a * r2;
      (a * b) * q2 + r2 * a;
    }
  }

  /** A digit below b scaled by a, plus a digit below a, stays below a*b. */
  lemma RemainderBelowProduct(a: int, b: int, r2: int, r1: int)
    requires a > 0 && b > 0 && 0 <= r2 < b && 0 <= r1 < a
    ensures 0 <= r2 * a + r1 < a * b
  {
    assert r2 * a <= (b - 1) * a;
    assert (b - 1) * a + a == a * b;
  }

  /** Splitting off the lowest base-b digit: n mod (b*p) is b times (n div b) mod p plus n mod b. */
  lemma ModOfProduct(n: int, b: int, p: int)
    requires b > 0 && p > 0
    ensures n % (b * p) == b * (n / b % p) + n % b
  {
    var q := n / b / p;
    var r := n / b % p;
    assert n / b == p * q + r;
    assert n == b * (n / b) + n % b;
    assert n == (b * p) * q + (b * r + n % b) by {
      assert b * (n / b) == b * (p * q) + b * r;
      assert b * (p * q) == (b * p) * q;
    }
    assert b * r + n % b < b * p by {
      assert r <= p - 1;
      assert b * r <= b * (p - 1);
      assert b * (p - 1) + b == b * p;
    }
    DivModUnique(n, b * p, q, b * r + n % b);
  }
}
