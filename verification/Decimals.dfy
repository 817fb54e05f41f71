/** Four-place decimal scores, held as integers in units of 0.0001, and the
    half-even rounding that `Decimal.quantize` applies under the default context. */
module Decimals {

  /** 1.0000 */
  const ONE: int := 10000

  /** The integer nearest to n/d; a tie goes to the even neighbour. */
  function RoundHalfEven(n: int, d: int): (q: int)
    requires d > 0
    ensures -d <= 2 * (q * d - n) <= d
    ensures 2 * (q * d - n) == d || 2 * (q * d - n) == -d ==> q % 2 == 0
  {
    var q := n / d;
    var r := n % d;
    DivisionFacts(n, d);
    if 2 * r < d || (2 * r == d && q % 2 == 0) then q else q + 1
  }

  lemma DivisionFacts(n: int, d: int)
    requires d > 0
    ensures n == n / d * d + n % d && 0 <= n % d < d
    ensures (n / d + 1) * d == n / d * d + d
  {
  }

  /** `RoundHalfEven` is pinned down by being nearest and even on a tie. */
  lemma RoundUnique(n: int, d: int, q: int)
    requires d > 0
    requires -d <= 2 * (q * d - n) <= d
    requires 2 * (q * d - n) == d || 2 * (q * d - n) == -d ==> q % 2 == 0
    ensures q == RoundHalfEven(n, d)
  {
    var p := RoundHalfEven(n, d);
    if p < q {
      StepUp(p, q, d);
    } else if q < p {
      StepUp(q, p, d);
    }
  }

  /** Two candidates are at least d apart, and d apart only when they are neighbours. */
  lemma StepUp(p: int, q: int, d: int)
    requires d > 0 && p < q
    ensures p * d + d <= q * d
    ensures q * d == p * d + d ==> q == p + 1
  {
    var k := q - p;
    assert q * d == p * d + k * d;
    assert k * d >= d by { MulAtLeast(k, d); }
    if k >= 2 {
      assert k * d > d by { MulAtLeast(k - 1, d); assert k * d == (k - 1) * d + d; }
    }
  }

  lemma MulAtLeast(k: int, d: int)
    requires k >= 1 && d >= 0
    ensures k * d >= d
  {
    assert (k - 1) * d >= 0;
    assert k * d == (k - 1) * d + d;
  }

  /** Rounding never reverses an order. */
  lemma RoundMonotone(n: int, m: int, d: int)
    requires d > 0 && n <= m
    ensures RoundHalfEven(n, d) <= RoundHalfEven(m, d)
  {
    var p, q := RoundHalfEven(n, d), RoundHalfEven(m, d);
    if q < p {
      StepUp(q, p, d);
    }
  }

  /** Taking away whole units takes them off the rounded value, but for a tie that an odd number
      of units turns to the other neighbour. */
  lemma RoundShift(n: int, d: int, k: int)
    requires d > 0
    ensures RoundHalfEven(n, d) - k - 1 <= RoundHalfEven(n - k * d, d) <= RoundHalfEven(n, d) - k + 1
    ensures k % 2 == 0 || 2 * (n % d) != d ==> RoundHalfEven(n - k * d, d) == RoundHalfEven(n, d) - k
  {
    hide RoundHalfEven;
    ShiftBound(n, d, k);
    if k % 2 == 0 || 2 * (n % d) != d {
      ShiftExact(n, d, k);
    }
  }

  lemma ShiftExact(n: int, d: int, k: int)
    requires d > 0 && (k % 2 == 0 || 2 * (n % d) != d)
    ensures RoundHalfEven(n - k * d, d) == RoundHalfEven(n, d) - k
  {
    var q := RoundHalfEven(n, d);
    hide RoundHalfEven;
    Moved(q, d, n, k);
    if k % 2 == 0 {
      ShiftedUnique(n, d, q, k);
    } else {
      NoTie(n, d, q);
      ShiftedUnique(n, d, q, k);
    }
  }

  lemma ShiftedUnique(n: int, d: int, q: int, k: int)
    requires d > 0 && -d <= 2 * (q * d - n) <= d
    requires 2 * (q * d - n) == d || 2 * (q * d - n) == -d ==> q % 2 == 0 && k % 2 == 0
    ensures RoundHalfEven(n - k * d, d) == q - k
  {
    Moved(q, d, n, k);
    hide RoundHalfEven;
    RoundUnique(n - k * d, d, q - k);
  }

  lemma Moved(q: int, d: int, n: int, k: int)
    ensures 2 * ((q - k) * d - (n - k * d)) == 2 * (q * d - n)
  {
  }

  lemma ShiftBound(n: int, d: int, k: int)
    requires d > 0
    ensures -1 <= RoundHalfEven(n - k * d, d) - (RoundHalfEven(n, d) - k) <= 1
  {
    var q, r := RoundHalfEven(n, d), RoundHalfEven(n - k * d, d);
    assert (q - k) * d == q * d - k * d;
    hide RoundHalfEven;
    Neighbours(r, q - k, d);
  }

  lemma Neighbours(a: int, b: int, d: int)
    requires d > 0 && -2 * d <= 2 * (a * d - b * d) <= 2 * d
    ensures -1 <= a - b <= 1
  {
    if a - b > 1 {
      StepUp(b + 1, a, d);
    } else if b - a > 1 {
      StepUp(a + 1, b, d);
    }
  }

  /** A remainder other than half of the divisor leaves no tie. */
  lemma NoTie(n: int, d: int, q: int)
    requires d > 0 && 2 * (n % d) != d
    ensures 2 * (q * d - n) != d && 2 * (q * d - n) != -d
  {
    DivisionFacts(n, d);
    var k, r := n / d, n % d;
    if q <= k - 1 {
      MulOrder(d, q, k - 1);
    } else if q >= k + 2 {
      MulOrder(d, k + 2, q);
    }
    assert (k - 1) * d == k * d - d && (k + 1) * d == k * d + d && (k + 2) * d == k * d + 2 * d;
  }

  /** Rounding stays at or below an even bound exactly up to half a unit above it. */
  lemma RoundAtMost(n: int, d: int, bound: int)
    requires d > 0 && bound % 2 == 0
    ensures RoundHalfEven(n, d) <= bound <==> 2 * (n - bound * d) <= d
  {
    var q := RoundHalfEven(n, d);
    if q < bound {
      StepUp(q, bound, d);
    } else if bound < q {
      StepUp(bound, q, d);
    }
  }

  /** A value that already has four places is kept as it is. */
  lemma RoundExact(k: int, d: int)
    requires d > 0
    ensures RoundHalfEven(k * d, d) == k
  {
    RoundUnique(k * d, d, k);
  }

  /** Rounding depends on the rational n/d and not on how it is written. */
  lemma RoundScaled(n: int, d: int, k: int)
    requires d > 0 && k > 0
    ensures k * d > 0
    ensures RoundHalfEven(k * n, k * d) == RoundHalfEven(n, d)
  {
    MulPositive(k, d);
    var q := RoundHalfEven(n, d);
    var e := 2 * (q * d - n);
    ScaledError(q, n, d, k);
    MulOrder(k, -d, e);
    MulOrder(k, e, d);
    RoundUnique(k * n, k * d, q);
  }

  lemma ScaledError(q: int, n: int, d: int, k: int)
    ensures 2 * (q * (k * d) - k * n) == k * (2 * (q * d - n))
    ensures k * (-d) == -(k * d)
  {
    assert q * (k * d) == k * (q * d);
  }

  lemma MulPositive(a: int, b: int)
    requires a > 0 && b > 0
    ensures a * b > 0
  {
  }

  /** Multiplying by a positive factor keeps the order and reflects equality. */
  lemma MulOrder(k: int, a: int, b: int)
    requires k > 0 && a <= b
    ensures k * a <= k * b
    ensures k * a == k * b ==> a == b
  {
    var c := b - a;
    assert k * b == k * a + k * c;
    if c > 0 {
      MulPositive(k, c);
    }
  }

  /** A value within [0, 1] stays within [0, 1]. */
  lemma RoundWithinUnit(n: int, d: int)
    requires d > 0 && 0 <= n <= ONE * d
    ensures 0 <= RoundHalfEven(n, d) <= ONE
  {
    RoundMonotone(0, n, d);
    RoundMonotone(n, ONE * d, d);
    RoundExact(0, d);
    RoundExact(ONE, d);
  }

  function Clamp(value: int, top: int): (r: int)
    requires top >= 0
    ensures 0 <= r <= top
    ensures 0 <= value <= top ==> r == value
  {
    if value < 0 then 0 else if value > top then top else value
  }

  function Min(a: int, b: int): int { if a <= b then a else b }

  function Max(a: int, b: int): int { if a >= b then a else b }

  /** An exact rational, for values the source keeps unrounded until `quantize`. */
  datatype Ratio = Ratio(num: int, den: int) {
    ghost predicate Valid() { den > 0 }

    function Times(other: Ratio): Ratio { Ratio(num * other.num, den * other.den) }

    function Plus(other: Ratio): Ratio {
      Ratio(num * other.den + other.num * den, den * other.den)
    }

    function Over(other: Ratio): Ratio { Ratio(num * other.den, den * other.num) }

    /** `value.quantize(Decimal("0.0001"))` */
    function Quantize(): int
      requires Valid()
    {
      RoundHalfEven(num * ONE, den)
    }
  }
}
