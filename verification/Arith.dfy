/** Integer arithmetic of the micro-unit engine: powers, floor and ceiling
    division, and fractions compared by cross-multiplication. */
module Arith {

  const SCALE := 1_000_000

  datatype Result<+T> = Ok(value: T) | Err(error: string)

  datatype Option<+T> = None | Some(value: T)

  function Min(a: int, b: int): int { if a <= b then a else b }

  function Max(a: int, b: int): int { if a >= b then a else b }

  function Pow(b: int, e: nat): int { if e == 0 then 1 else b * Pow(b, e - 1) }

  function CeilDiv(n: int, d: int): int
    requires d > 0
  {
    (n + d - 1) / d
  }

  /** A nonnegative fraction; two representations of one value are told apart only by `==`. */
  datatype Fraction = Fraction(num: nat, den: nat) {
    predicate Valid() { den > 0 }

    predicate Le(other: Fraction) { num * other.den <= other.num * den }
  }

  predicate SameValue(a: Fraction, b: Fraction) { a.Le(b) && b.Le(a) }

  // ---------------------------------------------------------------- products

  lemma MulLe(a: int, b: int, c: int)
    requires a <= b && 0 <= c
    ensures a * c <= b * c
  {
  }

  lemma MulCancelLe(a: int, b: int, c: int)
    requires a * c <= b * c && 0 < c
    ensures a <= b
  {
    if b < a {
      MulLe(b + 1, a, c);
    }
  }

  lemma MulNonneg(a: int, b: int)
    requires 0 <= a && 0 <= b
    ensures 0 <= a * b
  {
  }

  lemma Interchange(a: int, b: int, x: int, y: int)
    ensures a * b * (x * y) == (a * x) * (b * y)
  {
  }

  lemma FractionLeTransitive(a: Fraction, b: Fraction, c: Fraction)
    requires a.Valid() && b.Valid() && c.Valid()
    requires a.Le(b) && b.Le(c)
    ensures a.Le(c)
  {
    MulLe(a.num * b.den, b.num * a.den, c.den);
    MulLe(b.num * c.den, c.num * b.den, a.den);
    assert (a.num * c.den) * b.den <= (c.num * a.den) * b.den by {
      assert (a.num * c.den) * b.den == (a.num * b.den) * c.den;
      assert (b.num * a.den) * c.den == (b.num * c.den) * a.den;
      assert (c.num * b.den) * a.den == (c.num * a.den) * b.den;
    }
    MulCancelLe(a.num * c.den, c.num * a.den, b.den);
  }

  // ---------------------------------------------------------------- division

  /** The two bounds that characterise floor division. */
  lemma FloorBounds(x: int, d: int)
    requires d > 0
    ensures x / d * d <= x < x / d * d + d
  {
    assert x == x / d * d + x % d;
  }

  lemma FloorAtLeast(x: int, d: int, q: int)
    requires d > 0
    ensures q <= x / d <==> q * d <= x
  {
    FloorBounds(x, d);
    if q <= x / d {
      MulLe(q, x / d, d);
    } else {
      MulLe(x / d + 1, q, d);
      assert (x / d + 1) * d == x / d * d + d;
    }
  }

  lemma FloorMonotone(x: int, y: int, d: int)
    requires d > 0 && x <= y
    ensures x / d <= y / d
  {
    FloorBounds(x, d);
    FloorAtLeast(y, d, x / d);
  }

  lemma CeilAtMost(x: int, d: int, q: int)
    requires d > 0
    ensures CeilDiv(x, d) <= q <==> x <= q * d
  {
    FloorAtLeast(x + d - 1, d, q + 1);
    assert (q + 1) * d == q * d + d;
  }

  /** `x / d * d` is a multiple of `d`, and `x` itself when `x` is one. */
  lemma FloorMultiple(x: int, d: int)
    requires d > 0
    ensures (x / d * d) % d == 0 && x / d * d <= x
    ensures x % d == 0 ==> x / d * d == x
  {
    FloorBounds(x, d);
    MultipleMod(x / d, d);
    if x % d == 0 {
      assert x == x / d * d + x % d;
    }
  }

  /** No multiple of `d` lies strictly between `x / d * d` and `x`. */
  lemma GreatestMultiple(m: int, x: int, d: int)
    requires d > 0 && m % d == 0 && m <= x
    ensures m <= x / d * d
  {
    FloorMultiple(m, d);
    FloorMonotone(m, x, d);
    MulLe(m / d, x / d, d);
  }

  lemma MultipleSum(a: int, b: int, d: int)
    requires d > 0 && a % d == 0 && b % d == 0
    ensures (a + b) % d == 0 && (a - b) % d == 0
  {
    FloorMultiple(a, d);
    FloorMultiple(b, d);
    MultipleMod(a / d + b / d, d);
    MultipleMod(a / d - b / d, d);
    assert (a / d + b / d) * d == a + b;
    assert (a / d - b / d) * d == a - b;
  }

  lemma MultipleMod(k: int, d: int)
    requires d > 0
    ensures (k * d) % d == 0 && (k * d) / d == k
  {
    FloorAtLeast(k * d, d, k);
    FloorAtLeast(k * d, d, k + 1);
    assert (k + 1) * d == k * d + d;
    assert k * d == (k * d) / d * d + (k * d) % d;
  }

  // ---------------------------------------------------------------- powers

  lemma {:induction false} PowNonneg(b: int, e: nat)
    requires b >= 0
    ensures Pow(b, e) >= 0
    ensures b > 0 ==> Pow(b, e) > 0
  {
    if e > 0 {
      PowNonneg(b, e - 1);
      MulNonneg(b, Pow(b, e - 1));
    }
  }

  lemma {:induction false} PowProduct(a: int, b: int, e: nat)
    ensures Pow(a * b, e) == Pow(a, e) * Pow(b, e)
  {
    if e > 0 {
      PowProduct(a, b, e - 1);
      Interchange(a, b, Pow(a, e - 1), Pow(b, e - 1));
    }
  }

  lemma {:induction false} PowDouble(b: int, e: nat)
    ensures Pow(b * b, e) == Pow(b, 2 * e)
  {
    if e > 0 {
      PowDouble(b, e - 1);
      var x := Pow(b, 2 * e - 2);
      assert Pow(b, 2 * e) == b * Pow(b, 2 * e - 1) == b * (b * x);
      assert b * b * x == b * (b * x);
    }
  }
}
