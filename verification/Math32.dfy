/** Exact-arithmetic model of pkg/math32: the integer helpers used by every replica computation. */
module Math32 {

  function Max(x: int, y: int): int { if x < y then y else x }

  function Min(x: int, y: int): int { if x > y then y else x }

  /** The value of x capped to [a, b]; when a > b the lower bound wins. */
  function Cap(x: int, a: int, b: int): int { Max(a, Min(x, b)) }

  function Floor(a: real): int { a.Floor }

  function Ceil(a: real): int { -(-a).Floor }

  /** Remainder with the sign of x, as Go's math.Mod computes it. */
  function Mod(x: int, y: int): int
    requires y > 0
  {
    if x >= 0 then x % y else -((-x) % y)
  }

  /** Go's integer division truncates toward zero. */
  function TruncDiv(x: int, y: int): int
    requires y > 0
  {
    if x >= 0 then x / y else -((-x) / y)
  }

  ghost predicate MultipleAtLeast(k: int, m: int, x: real)
    requires m > 0
  {
    k % m == 0 && k as real >= x
  }

  /** t is the least multiple of m that is no smaller than x. */
  ghost predicate IsLeastMultiple(t: int, m: int, x: real)
    requires m > 0
  {
    && MultipleAtLeast(t, m, x)
    && forall k: int :: MultipleAtLeast(k, m, x) ==> t <= k
  }

  lemma CeilIsLeast(a: real, k: int)
    ensures Ceil(a) as real >= a
    ensures k as real >= a <==> k >= Ceil(a)
  {
    var f := (-a).Floor;
    assert f as real <= -a < (f + 1) as real;
  }

  lemma FloorIsGreatest(a: real, k: int)
    ensures k as real <= a <==> k <= Floor(a)
  {
    var f := a.Floor;
    assert f as real <= a < (f + 1) as real;
  }

  lemma ProductIsMonotone(a: int, b: int, n: int)
    requires a <= b && n >= 0
    ensures a * n <= b * n
  {
  }

  lemma QuotientIsBounded(x: int, w: int, b: int)
    requires w > 0 && 0 <= x <= b * w
    ensures 0 <= x / w <= b
  {
    var q := x / w;
    assert q * w <= x < (q + 1) * w;
    if q > b {
      ProductIsMonotone(b + 1, q, w);
    } else if q < 0 {
      ProductIsMonotone(q + 1, 0, w);
    }
  }

  lemma QuotientReaches(k: int, w: int, x: int)
    requires w > 0 && k * w <= x
    ensures k <= x / w
  {
    var q := x / w;
    assert x < (q + 1) * w;
    if k > q {
      ProductIsMonotone(q + 1, k, w);
    }
  }

  lemma QuotientIsExact(a: nat, n: int)
    requires n > 0
    ensures a * n / n == a
  {
    ProductIsMonotone(0, a, n);
    QuotientIsBounded(a * n, n, a);
    QuotientReaches(a, n, a * n);
  }

  lemma MultipleHasNoRemainder(m: int, q: int)
    requires m > 0
    ensures (m * q) % m == 0
  {
    var x := m * q;
    var d, r := x / m, x % m;
    assert x == m * d + r;
    assert m * (q - d) == r;
    assert q - d >= 1 ==> m * (q - d) >= m;
    assert q - d <= -1 ==> m * (q - d) <= -m;
  }

  /** Multiples of m are at least m apart. */
  lemma MultiplesApart(a: int, b: int, m: int)
    requires m > 0 && a % m == 0 && b % m == 0 && a < b
    ensures a + m <= b
  {
    var p, q := a / m, b / m;
    assert a == m * p && b == m * q;
    assert q <= p ==> m * q <= m * p;
    assert m * q >= m * (p + 1) == m * p + m;
  }

  /** n * h >= s exactly when n reaches the real quotient s / h, rounded up. */
  lemma CeilQuotient(s: real, h: int, n: int)
    requires h > 0
    ensures n >= Ceil(s / h as real) <==> n as real * h as real >= s
  {
    var q := s / h as real;
    assert q * h as real == s;
    CeilIsLeast(q, n);
    if n as real >= q {
      assert n as real * h as real >= q * h as real;
    } else {
      assert n as real * h as real < q * h as real;
    }
  }

  /** n * l <= s exactly when n does not pass the real quotient s / l, rounded down. */
  lemma FloorQuotient(s: real, l: int, n: int)
    requires l > 0
    ensures n <= Floor(s / l as real) <==> n as real * l as real <= s
  {
    var q := s / l as real;
    assert q * l as real == s;
    FloorIsGreatest(q, n);
    if n as real <= q {
      assert n as real * l as real <= q * l as real;
    } else {
      assert n as real * l as real > q * l as real;
    }
  }
}
