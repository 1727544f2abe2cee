/** The weighted inequality of arithmetic and geometric means, for two values
    with whole weights, carried from the reals to integers. */
module AmGm {
  import opened Arith

  function RealPow(x: real, n: nat): real { if n == 0 then 1.0 else x * RealPow(x, n - 1) }

  function RealSum(x: real, n: nat): real { if n == 0 then 0.0 else x + RealSum(x, n - 1) }

  lemma {:induction false} RealSumTimes(x: real, n: nat)
    ensures RealSum(x, n) == n as real * x
  {
    if n > 0 {
      RealSumTimes(x, n - 1);
      assert (n - 1) as real == n as real - 1.0;
    }
  }

  lemma {:induction false} RealPowNonneg(x: real, n: nat)
    requires x >= 0.0
    ensures RealPow(x, n) >= 0.0
  {
    if n > 0 {
      RealPowNonneg(x, n - 1);
    }
  }

  lemma {:induction false} RealPowProduct(x: real, y: real, n: nat)
    ensures RealPow(x * y, n) == RealPow(x, n) * RealPow(y, n)
  {
    if n > 0 {
      RealPowProduct(x, y, n - 1);
      RealInterchange(x, y, RealPow(x, n - 1), RealPow(y, n - 1));
    }
  }

  lemma {:induction false} RealPowOfInt(x: int, n: nat)
    ensures RealPow(x as real, n) == Pow(x, n) as real
  {
    if n > 0 {
      RealPowOfInt(x, n - 1);
      var p := Pow(x, n - 1);
      assert (x * p) as real == x as real * p as real;
    }
  }

  lemma RealInterchange(a: real, b: real, x: real, y: real)
    ensures a * b * (x * y) == (a * x) * (b * y)
  {
  }

  /** A product of factors in `[0, 1]` is at most 1. */
  lemma UnitProduct(a: real, b: real)
    requires 0.0 <= a <= 1.0 && 0.0 <= b <= 1.0
    ensures 0.0 <= a * b <= 1.0
  {
    RealMulLe(b, 1.0, a);
    assert b * a <= a;
    assert a * b <= a;
  }

  lemma RealMulLe(a: real, b: real, c: real)
    requires a <= b && 0.0 <= c
    ensures a * c <= b * c
  {
  }

  lemma RealCancelLe(a: real, b: real, c: real)
    requires a * c <= b * c && 0.0 < c
    ensures a <= b
  {
  }

  predicate OppositeSides(s: real, c: real) { s <= 1.0 <= c || c <= 1.0 <= s }

  /** Replacing two values on opposite sides of 1 by their sum less 1 does not lower the product. */
  lemma Merge(s: real, c: real)
    requires s >= 0.0 && c >= 0.0 && OppositeSides(s, c)
    ensures 0.0 <= s * c <= s + c - 1.0
  {
    RealMulLe(0.0, s, c);
    if s <= 1.0 <= c {
      RealMulLe(1.0, c, 1.0 - s);
    } else {
      RealMulLe(c, 1.0, s - 1.0);
    }
  }

  /** `a` copies of `s`, `b` copies of `t` and one `c` whose sum is at most their
      number have a product of at most 1. */
  lemma {:induction false} ThreeValues(s: real, a: nat, t: real, b: nat, c: real)
    requires s >= 0.0 && t >= 0.0 && c >= 0.0
    requires RealSum(s, a) + RealSum(t, b) + c <= a as real + b as real + 1.0
    ensures RealPow(s, a) * RealPow(t, b) * c <= 1.0
    decreases a + b
  {
    if a > 0 && OppositeSides(s, c) {
      MergeFirst(s, a, t, b, c);
    } else if b > 0 && OppositeSides(t, c) {
      MergeFirst(t, b, s, a, c);
    } else {
      if c > 1.0 {
        AboveMean(s, a);
        AboveMean(t, b);
      }
      AllSmall(s, a);
      AllSmall(t, b);
      UnitProduct(RealPow(s, a), RealPow(t, b));
      UnitProduct(RealPow(s, a) * RealPow(t, b), c);
    }
  }

  lemma {:induction false} AboveMean(s: real, a: nat)
    requires a == 0 || s >= 1.0
    ensures RealSum(s, a) >= a as real
  {
    if a > 0 {
      AboveMean(s, a - 1);
    }
  }

  lemma {:induction false} MergeFirst(s: real, a: nat, t: real, b: nat, c: real)
    requires s >= 0.0 && t >= 0.0 && c >= 0.0 && a > 0
    requires RealSum(s, a) + RealSum(t, b) + c <= a as real + b as real + 1.0
    requires OppositeSides(s, c)
    ensures RealPow(s, a) * RealPow(t, b) * c <= 1.0
    decreases a + b, 0
  {
    ThreeValues(s, a - 1, t, b, s + c - 1.0);
    Merge(s, c);
    RealPowNonneg(s, a - 1);
    RealPowNonneg(t, b);
    MergedProduct(s, c, RealPow(s, a), RealPow(s, a - 1), RealPow(t, b));
  }

  lemma MergedProduct(s: real, c: real, sx: real, x: real, y: real)
    requires x >= 0.0 && y >= 0.0 && sx == s * x
    requires s * c <= s + c - 1.0
    requires x * y * (s + c - 1.0) <= 1.0
    ensures sx * y * c <= 1.0
  {
    var m, xy := s + c - 1.0, x * y;
    assert xy >= 0.0;
    RealMulLe(s * c, m, xy);
    RealInterchange(s, c, x, y);
    assert s * c * xy == (s * x) * (c * y);
    assert sx * y * c == sx * (c * y);
  }

  lemma {:induction false} AllSmall(s: real, a: nat)
    requires s >= 0.0 && (a == 0 || s <= 1.0)
    ensures 0.0 <= RealPow(s, a) <= 1.0
  {
    if a > 0 {
      AllSmall(s, a - 1);
      UnitProduct(s, RealPow(s, a - 1));
    }
  }

  /** Weighted means: scaling `x` against `u` and `y` against `v`, if the weighted
      mean of the two ratios is at most 1 then so is their weighted product. */
  lemma WeightedMeans(x: nat, u: nat, a: nat, y: nat, v: nat, b: nat)
    requires u > 0 && v > 0
    requires a * x * v + b * y * u <= (a + b) * u * v
    ensures Pow(x, a) * Pow(y, b) <= Pow(u, a) * Pow(v, b)
  {
    MeanOfRatios(x, u, a, y, v, b);
    TwoValues(x as real / u as real, a, y as real / v as real, b);
    ProductOfRatios(x as real / u as real, x, u, a, y as real / v as real, y, v, b);
  }

  lemma ProductOfRatios(s: real, x: nat, u: nat, a: nat, t: real, y: nat, v: nat, b: nat)
    requires s * u as real == x as real && t * v as real == y as real
    requires RealPow(s, a) * RealPow(t, b) <= 1.0
    ensures Pow(x, a) * Pow(y, b) <= Pow(u, a) * Pow(v, b)
  {
    hide Pow, RealPow;
    ScaledPower(s, x, u, a);
    ScaledPower(t, y, v, b);
    RealPowNonneg(u as real, a);
    RealPowNonneg(v as real, b);
    ScaledProduct(RealPow(s, a), RealPow(t, b), RealPow(u as real, a), RealPow(v as real, b),
                  RealPow(x as real, a), RealPow(y as real, b));
    RealPowOfInt(x, a);
    RealPowOfInt(u, a);
    RealPowOfInt(y, b);
    RealPowOfInt(v, b);
    IntProductLe(Pow(u, a), Pow(v, b), Pow(x, a), Pow(y, b));
  }

  lemma TwoValues(s: real, a: nat, t: real, b: nat)
    requires s >= 0.0 && t >= 0.0
    requires a as real * s + b as real * t <= a as real + b as real
    ensures RealPow(s, a) * RealPow(t, b) <= 1.0
  {
    RealSumTimes(s, a);
    RealSumTimes(t, b);
    ThreeValues(s, a, t, b, 1.0);
  }

  lemma ScaledPower(s: real, x: nat, u: nat, a: nat)
    requires s * u as real == x as real
    ensures RealPow(s, a) * RealPow(u as real, a) == RealPow(x as real, a)
  {
    RealPowProduct(s, u as real, a);
  }

  lemma ScaledProduct(s: real, t: real, u: real, v: real, x: real, y: real)
    requires s * t <= 1.0 && u >= 0.0 && v >= 0.0
    requires s * u == x && t * v == y
    ensures x * y <= u * v
  {
    assert u * v >= 0.0;
    RealMulLe(s * t, 1.0, u * v);
    RealInterchange(s, t, u, v);
  }

  lemma IntProductLe(u: int, v: int, x: int, y: int)
    requires x as real * y as real <= u as real * v as real
    ensures x * y <= u * v
  {
    assert (x * y) as real == x as real * y as real;
    assert (u * v) as real == u as real * v as real;
  }

  lemma TripleAsReal(a: int, b: int, c: int)
    ensures (a * b * c) as real == a as real * b as real * c as real
  {
    assert (a * b * c) as real == (a * b) as real * c as real;
    assert (a * b) as real == a as real * b as real;
  }

  lemma ScaledTerm(a: real, s: real, u: real, x: real, v: real)
    requires s * u == x
    ensures a * s * (u * v) == a * x * v && a * s * (v * u) == a * x * v
  {
    assert a * s * (u * v) == a * (s * u) * v;
  }

  lemma MeanOfRatios(x: nat, u: nat, a: nat, y: nat, v: nat, b: nat)
    requires u > 0 && v > 0
    requires a * x * v + b * y * u <= (a + b) * u * v
    ensures a as real * (x as real / u as real) + b as real * (y as real / v as real)
            <= a as real + b as real
  {
    var s, t := x as real / u as real, y as real / v as real;
    var uv := u as real * v as real;
    assert uv > 0.0;
    TripleAsReal(a, x, v);
    TripleAsReal(b, y, u);
    TripleAsReal(a + b, u, v);
    ScaledTerm(a as real, s, u as real, x as real, v as real);
    ScaledTerm(b as real, t, v as real, y as real, u as real);
    var left, right := a as real * s + b as real * t, a as real + b as real;
    assert left * uv == a as real * s * uv + b as real * t * uv;
    RealCancelLe(left, right, uv);
  }
}
