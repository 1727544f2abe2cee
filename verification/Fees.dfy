/** Cash fees, the worst fee ratio over a price grid, and the largest signed BUY
    amount whose all-in cost fits a budget. */
module FeeRules {
  import opened Arith
  import AmGm

  const CENT := 10_000

  predicate SupportedTick(tick: int) { tick == 100_000 || tick == 10_000 || tick == 1_000 || tick == 100 }

  function Cost(price: int, qty: int): int { price * qty / SCALE }

  /** `x / d` truncated to a multiple of ten. */
  function Truncated(x: int, d: int): int
    requires d > 0
  {
    x / (d * 10) * 10
  }

  datatype Fees = Fees(enabled: bool, rate: nat, exponent: nat) {
    /** What construction accepts. */
    predicate Valid() { rate <= SCALE && exponent <= 10 && (!enabled ==> rate == 0) }

    function Curve(price: int): int { Pow(price * (SCALE - price), exponent) }

    function CurveScale(): int { SCALE * Pow(SCALE * SCALE, exponent) }

    /** The fee on `qty` shares at `price`, truncated to ten micro-units. */
    function Fee(qty: int, price: int): int {
      if !enabled || qty == 0 || !(0 < price < SCALE) then 0
      else
        PowNonneg(SCALE * SCALE, exponent);
        Truncated(qty * rate * Curve(price), CurveScale())
    }

    /** Fee over cash paid, before any truncation, at one price. */
    function RatioAt(price: int): (r: Fraction)
      requires 0 < price < SCALE
      ensures r.Valid()
    {
      if exponent == 0 then Fraction(rate, price)
      else
        PowNonneg(SCALE, 2 * exponent);
        PowNonneg(price, exponent - 1);
        PowNonneg(SCALE - price, exponent);
        MulNonneg(rate, Pow(price, exponent - 1));
        MulNonneg(rate * Pow(price, exponent - 1), Pow(SCALE - price, exponent));
        Fraction(rate * Pow(price, exponent - 1) * Pow(SCALE - price, exponent),
                 Pow(SCALE, 2 * exponent))
    }
  }

  /** A price at which a BUY limited to `limit` may execute. */
  predicate ExecutablePrice(price: int, tick: int, limit: int) {
    0 < tick <= price <= Min(limit, SCALE - tick) && price % tick == 0
  }

  // ------------------------------------------------- the worst ratio, by scan

  function Larger(a: Fraction, b: Fraction): Fraction { if a.Le(b) then b else a }

  /** The reference answer: the largest ratio among the first `count` ticks. */
  function ScanRatio(fees: Fees, tick: int, count: nat): (r: Fraction)
    requires 0 < tick && 0 < count && count * tick < SCALE
    ensures r.Valid()
  {
    if count == 1 then fees.RatioAt(tick)
    else
      assert (count - 1) * tick == count * tick - tick;
      MulLe(1, count - 1, tick);
      Larger(ScanRatio(fees, tick, count - 1), fees.RatioAt(count * tick))
  }

  /** How many ticks a BUY limited to `limit` may execute at. */
  function TickCount(tick: int, limit: int): (n: nat)
    requires SupportedTick(tick) && tick <= limit
    ensures n > 0 && n * tick < SCALE
  {
    var high := Min(limit, SCALE - tick);
    FloorBounds(high, tick);
    FloorAtLeast(high, tick, 1);
    high / tick
  }

  function WorstRatio(fees: Fees, tick: int, limit: int): (r: Result<Fraction>)
    ensures r.Ok? ==> r.value.Valid()
  {
    if !fees.enabled || fees.rate == 0 then Ok(Fraction(0, 1))
    else if !SupportedTick(tick) || limit < tick then Err("no executable price")
    else Ok(ScanRatio(fees, tick, TickCount(tick, limit)))
  }

  ghost predicate AtMost(fees: Fees, tick: int, limit: int, r: Fraction)
    requires SupportedTick(tick)
  {
    forall p :: ExecutablePrice(p, tick, limit) ==> fees.RatioAt(p).Le(r)
  }

  ghost predicate Attained(fees: Fees, tick: int, limit: int, r: Fraction)
    requires SupportedTick(tick)
  {
    exists p :: ExecutablePrice(p, tick, limit) && SameValue(fees.RatioAt(p), r)
  }

  lemma {:induction false} ScanCovers(fees: Fees, tick: int, count: nat, k: nat)
    requires 0 < tick && 0 < k <= count && count * tick < SCALE
    ensures 0 < k * tick < SCALE
    ensures fees.RatioAt(k * tick).Le(ScanRatio(fees, tick, count))
    decreases count
  {
    MulLe(k, count, tick);
    MulLe(1, k, tick);
    if k < count {
      MulLe(k, count - 1, tick);
      assert (count - 1) * tick == count * tick - tick;
      ScanCovers(fees, tick, count - 1, k);
      var before := ScanRatio(fees, tick, count - 1);
      FractionLeTransitive(fees.RatioAt(k * tick), before, ScanRatio(fees, tick, count));
    }
  }

  lemma {:induction false} ScanAttained(fees: Fees, tick: int, count: nat) returns (k: nat)
    requires 0 < tick && 0 < count && count * tick < SCALE
    ensures 0 < k <= count && 0 < k * tick < SCALE
    ensures ScanRatio(fees, tick, count) == fees.RatioAt(k * tick)
  {
    k := count;
    MulLe(1, count, tick);
    if count > 1 {
      assert (count - 1) * tick == count * tick - tick;
      MulLe(1, count - 1, tick);
      if ScanRatio(fees, tick, count) != fees.RatioAt(count * tick) {
        k := ScanAttained(fees, tick, count - 1);
      }
    }
  }

  /** The scan is what it should be: an upper bound over every executable tick,
      reached at one of them. */
  lemma WorstRatioIsMaximum(fees: Fees, tick: int, limit: int)
    requires fees.enabled && fees.rate > 0 && SupportedTick(tick) && tick <= limit
    ensures AtMost(fees, tick, limit, WorstRatio(fees, tick, limit).value)
    ensures Attained(fees, tick, limit, WorstRatio(fees, tick, limit).value)
  {
    var n := TickCount(tick, limit);
    forall p | ExecutablePrice(p, tick, limit)
      ensures fees.RatioAt(p).Le(ScanRatio(fees, tick, n))
    {
      FloorBounds(p, tick);
      FloorMonotone(p, Min(limit, SCALE - tick), tick);
      FloorAtLeast(p, tick, 1);
      ScanCovers(fees, tick, n, p / tick);
    }
    var k := ScanAttained(fees, tick, n);
    MultipleMod(k, tick);
    MulLe(k, n, tick);
    MulLe(1, k, tick);
    FloorBounds(Min(limit, SCALE - tick), tick);
    assert ExecutablePrice(k * tick, tick, limit);
  }

  /** Any two answers with both properties have one value. */
  lemma MaximumIsUnique(fees: Fees, tick: int, limit: int, a: Fraction, b: Fraction)
    requires SupportedTick(tick) && a.Valid() && b.Valid()
    requires AtMost(fees, tick, limit, a) && Attained(fees, tick, limit, a)
    requires AtMost(fees, tick, limit, b) && Attained(fees, tick, limit, b)
    ensures SameValue(a, b)
  {
    var p :| ExecutablePrice(p, tick, limit) && SameValue(fees.RatioAt(p), a);
    var q :| ExecutablePrice(q, tick, limit) && SameValue(fees.RatioAt(q), b);
    FractionLeTransitive(a, fees.RatioAt(p), b);
    FractionLeTransitive(b, fees.RatioAt(q), a);
  }

  // --------------------------------------- rising and falling sides of the curve

  /** The price-dependent factor of the ratio for exponent `m + 1`. */
  function Shape(p: int, m: nat): int { Pow(p, m) * Pow(SCALE - p, m + 1) }

  /** Up to the peak m/(2m+1) the factor rises. */
  lemma ShapeRises(p: nat, q: nat, m: nat)
    requires p <= q < SCALE && q > 0 && q * (2 * m + 1) <= m * SCALE
    ensures Shape(p, m) <= Shape(q, m)
  {
    var d, v := q - p, SCALE - q;
    MeanAtPeak(q, v, m, d);
    AmGm.WeightedMeans(p, q, m, SCALE - p, v, m + 1);
  }

  /** Scaling p against q and S-p against S-q: the mean condition, by d = q - p. */
  lemma MeanAtPeak(q: nat, v: nat, m: nat, d: nat)
    requires d <= q && (m + 1) * q <= m * v + 0
    ensures m * (q - d) * v + (m + 1) * (v + d) * q <= (m + (m + 1)) * q * v
  {
    assert m * (q - d) * v + (m + 1) * (v + d) * q
        == (m + (m + 1)) * q * v + d * ((m + 1) * q - m * v);
    MulLe((m + 1) * q - m * v, 0, d);
  }

  /** From the peak on it falls. */
  lemma ShapeFalls(p: nat, q: nat, m: nat)
    requires 0 < p <= q <= SCALE && p < SCALE && p * (2 * m + 1) >= m * SCALE
    ensures Shape(q, m) <= Shape(p, m)
  {
    var d, v := q - p, SCALE - p;
    MeanPastPeak(p, v, m, d);
    AmGm.WeightedMeans(q, p, m, SCALE - q, v, m + 1);
  }

  lemma MeanPastPeak(p: nat, v: nat, m: nat, d: nat)
    requires d <= v && m * v <= (m + 1) * p
    ensures m * (p + d) * v + (m + 1) * (v - d) * p <= (m + (m + 1)) * p * v
  {
    assert m * (p + d) * v + (m + 1) * (v - d) * p
        == (m + (m + 1)) * p * v + d * (m * v - (m + 1) * p);
    MulLe(m * v - (m + 1) * p, 0, d);
  }

  lemma RatioFollowsShape(fees: Fees, p: int, q: int)
    requires fees.exponent > 0 && 0 < p < SCALE && 0 < q < SCALE
    requires Shape(p, fees.exponent - 1) <= Shape(q, fees.exponent - 1)
    ensures fees.RatioAt(p).Le(fees.RatioAt(q))
  {
    var m, D := fees.exponent - 1, Pow(SCALE, 2 * fees.exponent);
    PowNonneg(SCALE, 2 * fees.exponent);
    MulLe(Shape(p, m), Shape(q, m), fees.rate);
    TripleProduct(fees.rate, Pow(p, m), Pow(SCALE - p, m + 1));
    TripleProduct(fees.rate, Pow(q, m), Pow(SCALE - q, m + 1));
    MulLe(fees.RatioAt(p).num, fees.RatioAt(q).num, D);
  }

  lemma TripleProduct(r: int, a: int, b: int)
    ensures r * a * b == a * b * r
  {
  }

  // ---------------------------------------------------------- the candidate ticks

  /** The tick at or below the peak of the curve, for exponents of at least two. */
  function PeakTick(exponent: nat, tick: int): int
    requires exponent >= 2 && 0 < tick
  {
    MulLe(1, 2 * exponent - 1, tick);
    SCALE * (exponent - 1) / ((2 * exponent - 1) * tick) * tick
  }

  function Candidates(fees: Fees, tick: int, high: int): set<int>
    requires 0 < tick
  {
    if fees.exponent < 2 then {tick}
    else
      var below := PeakTick(fees.exponent, tick);
      {tick, high, Max(tick, Min(high, below)), Max(tick, Min(high, below + tick))}
  }

  lemma PeakTickBounds(exponent: nat, tick: int)
    requires exponent >= 2 && 0 < tick
    ensures var m, below := exponent - 1, PeakTick(exponent, tick);
            && 0 <= below && below % tick == 0
            && below * (2 * m + 1) <= m * SCALE < (below + tick) * (2 * m + 1)
  {
    var w, x := 2 * exponent - 1, SCALE * (exponent - 1);
    MulLe(1, w, tick);
    var k := x / (w * tick);
    FloorBounds(x, w * tick);
    FloorAtLeast(x, w * tick, 0);
    MultipleMod(k, tick);
    MulNonneg(k, tick);
    assert k * (w * tick) == k * tick * w;
    assert (k * tick + tick) * w == k * tick * w + tick * w;
  }

  /** The highest executable tick. */
  function HighTick(tick: int, limit: int): int
    requires 0 < tick
  {
    Min(limit, SCALE - tick) / tick * tick
  }

  lemma HighTickBounds(tick: int, limit: int)
    requires SupportedTick(tick) && tick <= limit
    ensures ExecutablePrice(HighTick(tick, limit), tick, limit)
  {
    var top := Min(limit, SCALE - tick);
    FloorMultiple(top, tick);
    FloorAtLeast(top, tick, 1);
    MulLe(1, top / tick, tick);
  }

  lemma ClampExecutable(c: int, tick: int, limit: int)
    requires SupportedTick(tick) && tick <= limit && c % tick == 0
    ensures ExecutablePrice(Max(tick, Min(HighTick(tick, limit), c)), tick, limit)
  {
    HighTickBounds(tick, limit);
  }

  lemma CandidatesExecutable(fees: Fees, tick: int, limit: int)
    requires SupportedTick(tick) && tick <= limit
    ensures forall c :: c in Candidates(fees, tick, HighTick(tick, limit)) ==> ExecutablePrice(c, tick, limit)
  {
    HighTickBounds(tick, limit);
    if fees.exponent >= 2 {
      var below := PeakTick(fees.exponent, tick);
      PeakTickBounds(fees.exponent, tick);
      MultipleSum(below, tick, tick);
      ClampExecutable(below, tick, limit);
      ClampExecutable(below + tick, tick, limit);
    }
  }

  /** Every executable tick is dominated by one of the candidates. */
  lemma CandidatesDominate(fees: Fees, tick: int, limit: int, p: int) returns (c: int)
    requires SupportedTick(tick) && ExecutablePrice(p, tick, limit)
    ensures c in Candidates(fees, tick, HighTick(tick, limit))
    ensures 0 < c < SCALE && fees.RatioAt(p).Le(fees.RatioAt(c))
  {
    HighTickBounds(tick, limit);
    if fees.exponent < 2 {
      c := tick;
      DominatedByFirst(fees, tick, p);
    } else {
      var high, below := HighTick(tick, limit), PeakTick(fees.exponent, tick);
      PeakTickBounds(fees.exponent, tick);
      GreatestMultiple(p, Min(limit, SCALE - tick), tick);
      if p <= below {
        c := Max(tick, Min(high, below));
        DominatedBelowPeak(fees, p, c, below);
      } else {
        c := Max(tick, Min(high, below + tick));
        NextMultiple(p, below, tick);
        DominatedAbovePeak(fees, p, c);
      }
    }
  }

  lemma DominatedByFirst(fees: Fees, first: int, p: int)
    requires fees.exponent < 2 && 0 < first <= p < SCALE
    ensures fees.RatioAt(p).Le(fees.RatioAt(first))
  {
    if fees.exponent == 0 {
      MulLe(first, p, fees.rate);
    } else {
      ShapeFalls(first, p, 0);
      RatioFollowsShape(fees, p, first);
    }
  }

  lemma DominatedAbovePeak(fees: Fees, p: int, c: int)
    requires fees.exponent >= 2 && 0 < c <= p < SCALE
    ensures c * (2 * (fees.exponent - 1) + 1) >= (fees.exponent - 1) * SCALE ==> fees.RatioAt(p).Le(fees.RatioAt(c))
  {
    if c * (2 * (fees.exponent - 1) + 1) >= (fees.exponent - 1) * SCALE {
      ShapeFalls(c, p, fees.exponent - 1);
      RatioFollowsShape(fees, p, c);
    }
  }

  lemma DominatedBelowPeak(fees: Fees, p: int, c: int, below: int)
    requires fees.exponent >= 2 && 0 < p <= c <= below && c < SCALE
    requires below * (2 * (fees.exponent - 1) + 1) <= (fees.exponent - 1) * SCALE
    ensures fees.RatioAt(p).Le(fees.RatioAt(c))
  {
    var m := fees.exponent - 1;
    MulLe(c, below, 2 * m + 1);
    ShapeRises(p, c, m);
    RatioFollowsShape(fees, p, c);
  }

  lemma NextMultiple(p: int, q: int, tick: int)
    requires 0 < tick && p % tick == 0 && q % tick == 0 && q < p
    ensures q + tick <= p
  {
    MultipleSum(p, q, tick);
    FloorMultiple(p - q, tick);
    FloorAtLeast(p - q, tick, 1);
  }

  /** The handful of candidate ticks give the maximum over every executable tick. */
  method WorstBuyFeeRatio(fees: Fees, tick: int, limit: int) returns (r: Result<Fraction>)
    ensures r.Ok? <==> WorstRatio(fees, tick, limit).Ok?
    ensures r.Ok? ==> r.value.Valid() && SameValue(r.value, WorstRatio(fees, tick, limit).value)
    ensures r.Ok? && fees.enabled && fees.rate > 0 ==>
              AtMost(fees, tick, limit, r.value) && Attained(fees, tick, limit, r.value)
  {
    if !fees.enabled || fees.rate == 0 {
      return Ok(Fraction(0, 1));
    }
    if !SupportedTick(tick) || limit < tick {
      return Err("no executable price");
    }
    var high := HighTick(tick, limit);
    var candidates := {tick};
    if fees.exponent >= 2 {
      var below := PeakTick(fees.exponent, tick);
      candidates := candidates + {high, Max(tick, Min(high, below)), Max(tick, Min(high, below + tick))};
    }
    assert candidates == Candidates(fees, tick, high);
    CandidatesExecutable(fees, tick, limit);
    var worst, todo := Fraction(0, 1), candidates;
    ghost var best := tick;
    while todo != {}
      invariant todo <= candidates && worst.Valid()
      invariant Dominates(fees, candidates - todo, worst)
      invariant if todo == candidates then worst == Fraction(0, 1)
                else best in candidates && fees.RatioAt(best) == worst
      decreases todo
    {
      var p :| p in todo;
      var ratio := fees.RatioAt(p);
      RatioPositive(fees, p);
      DominatesMore(fees, candidates - todo, p, worst);
      if !ratio.Le(worst) {
        worst, best := ratio, p;
      }
      assert candidates - (todo - {p}) == (candidates - todo) + {p};
      todo := todo - {p};
    }
    assert tick in candidates && candidates - todo == candidates;
    CandidatesDecide(fees, tick, limit, best);
    r := Ok(worst);
  }

  ghost predicate Dominates(fees: Fees, prices: set<int>, r: Fraction) {
    forall p :: p in prices ==> 0 < p < SCALE && fees.RatioAt(p).Le(r)
  }

  lemma DominatesMore(fees: Fees, prices: set<int>, p: int, r: Fraction)
    requires Dominates(fees, prices, r) && r.Valid() && 0 < p < SCALE
    ensures Dominates(fees, prices + {p}, if fees.RatioAt(p).Le(r) then r else fees.RatioAt(p))
  {
    var ratio := fees.RatioAt(p);
    if !ratio.Le(r) {
      forall c | c in prices
        ensures fees.RatioAt(c).Le(ratio)
      {
        FractionLeTransitive(fees.RatioAt(c), r, ratio);
      }
    }
  }

  /** A candidate that dominates the others dominates every executable tick. */
  lemma CandidatesDecide(fees: Fees, tick: int, limit: int, best: int)
    requires fees.enabled && fees.rate > 0 && SupportedTick(tick) && tick <= limit
    requires best in Candidates(fees, tick, HighTick(tick, limit)) && 0 < best < SCALE
    requires Dominates(fees, Candidates(fees, tick, HighTick(tick, limit)), fees.RatioAt(best))
    ensures var worst := fees.RatioAt(best);
            && AtMost(fees, tick, limit, worst) && Attained(fees, tick, limit, worst)
            && SameValue(worst, WorstRatio(fees, tick, limit).value)
  {
    var worst := fees.RatioAt(best);
    forall p | ExecutablePrice(p, tick, limit)
      ensures fees.RatioAt(p).Le(worst)
    {
      var c := CandidatesDominate(fees, tick, limit, p);
      FractionLeTransitive(fees.RatioAt(p), fees.RatioAt(c), worst);
    }
    CandidatesExecutable(fees, tick, limit);
    assert ExecutablePrice(best, tick, limit);
    WorstRatioIsMaximum(fees, tick, limit);
    MaximumIsUnique(fees, tick, limit, worst, WorstRatio(fees, tick, limit).value);
  }

  lemma RatioPositive(fees: Fees, p: int)
    requires fees.rate > 0 && 0 < p < SCALE
    ensures fees.RatioAt(p).num > 0
  {
    if fees.exponent > 0 {
      PowNonneg(p, fees.exponent - 1);
      PowNonneg(SCALE - p, fees.exponent);
      MulLe(1, fees.rate, Pow(p, fees.exponent - 1));
      MulLe(1, fees.rate * Pow(p, fees.exponent - 1), Pow(SCALE - p, fees.exponent));
    }
  }

  // ------------------------------------------------------ the fee-safe notional

  /** `notional` and its worst fee, rounded up, fit the budget. */
  predicate Fits(notional: int, ratio: Fraction, budget: int)
    requires ratio.Valid()
  {
    notional + CeilDiv(notional * ratio.num, ratio.den) <= budget
  }

  function NotionalFor(budget: int, ratio: Fraction): int
    requires ratio.Valid()
  {
    if budget <= 0 then 0
    else budget * ratio.den / (CENT * (ratio.den + ratio.num)) * CENT
  }

  function SignedNotional(budget: int, fees: Fees, tick: int, limit: int): Result<int> {
    if budget <= 0 then Ok(0)
    else
      match WorstRatio(fees, tick, limit)
      case Err(e) => Err(e)
      case Ok(ratio) => Ok(NotionalFor(budget, ratio))
  }

  lemma FitsByCrossProduct(notional: int, ratio: Fraction, budget: int)
    requires ratio.Valid()
    ensures Fits(notional, ratio, budget) <==> notional * (ratio.den + ratio.num) <= budget * ratio.den
  {
    CeilAtMost(notional * ratio.num, ratio.den, budget - notional);
    assert (budget - notional) * ratio.den == budget * ratio.den - notional * ratio.den;
    assert notional * (ratio.den + ratio.num) == notional * ratio.den + notional * ratio.num;
  }

  /** The notional is the largest whole-cent amount that fits: a whole-cent amount
      fits if and only if it is at most the notional. */
  lemma NotionalIsLargest(budget: int, ratio: Fraction, notional: int)
    requires ratio.Valid() && budget > 0 && notional % CENT == 0
    ensures NotionalFor(budget, ratio) >= 0 && NotionalFor(budget, ratio) % CENT == 0
    ensures Fits(notional, ratio, budget) <==> notional <= NotionalFor(budget, ratio)
  {
    var whole := ratio.den + ratio.num;
    var cents := budget * ratio.den / (CENT * whole);
    MulNonneg(budget, ratio.den);
    FloorAtLeast(budget * ratio.den, CENT * whole, 0);
    FitsByCrossProduct(notional, ratio, budget);
    var k := notional / CENT;
    assert notional == k * CENT;
    FloorAtLeast(budget * ratio.den, CENT * whole, k);
    assert k * (CENT * whole) == notional * whole;
    assert k <= cents <==> notional <= cents * CENT;
  }

  /** Only the value of the ratio matters, not how the fraction is written. */
  lemma NotionalByValue(budget: int, a: Fraction, b: Fraction)
    requires a.Valid() && b.Valid() && a.Le(b)
    ensures NotionalFor(budget, b) <= NotionalFor(budget, a)
  {
    if budget > 0 {
      var n := NotionalFor(budget, b);
      NotionalIsLargest(budget, b, n);
      NotionalIsLargest(budget, a, n);
      FitsByCrossProduct(n, a, budget);
      FitsByCrossProduct(n, b, budget);
      FitsUnderSmallerRatio(n, a, b, budget);
    }
  }

  lemma FitsUnderSmallerRatio(n: int, a: Fraction, b: Fraction, budget: int)
    requires a.Valid() && b.Valid() && a.Le(b) && n >= 0
    requires n * (b.den + b.num) <= budget * b.den
    ensures n * (a.den + a.num) <= budget * a.den
  {
    MulLe(n * (b.den + b.num), budget * b.den, a.den);
    MulLe(a.num * b.den, b.num * a.den, n);
    assert (n * (a.den + a.num)) * b.den == n * a.den * b.den + (a.num * b.den) * n;
    assert (n * (b.den + b.num)) * a.den == n * a.den * b.den + (b.num * a.den) * n;
    assert (budget * b.den) * a.den == (budget * a.den) * b.den;
    MulCancelLe(n * (a.den + a.num), budget * a.den, b.den);
  }

  /** The signed notional is the largest whole-cent amount that fits its budget with the
      largest fee ratio of any executable tick, nothing for no budget, and defined wherever
      there is a fee-free order or an executable tick. */
  lemma SignedNotionalIs(budget: int, fees: Fees, tick: int, limit: int, worst: Fraction, notional: int)
    requires SupportedTick(tick) && tick <= limit && worst.Valid() && notional % CENT == 0
    requires AtMost(fees, tick, limit, worst) && Attained(fees, tick, limit, worst) && fees.enabled && fees.rate > 0
    ensures SignedNotional(budget, fees, tick, limit).Ok?
    ensures var signed := SignedNotional(budget, fees, tick, limit).value;
            && signed >= 0 && signed % CENT == 0 && (budget <= 0 ==> signed == 0)
            && (budget > 0 ==> (Fits(notional, worst, budget) <==> notional <= signed))
  {
    if budget > 0 {
      var ratio := WorstRatio(fees, tick, limit).value;
      WorstRatioIsMaximum(fees, tick, limit);
      MaximumIsUnique(fees, tick, limit, ratio, worst);
      NotionalByValue(budget, ratio, worst);
      NotionalByValue(budget, worst, ratio);
      NotionalIsLargest(budget, worst, notional);
      NotionalIsLargest(budget, ratio, 0);
    }
  }

  lemma SignedNotionalExists(budget: int, fees: Fees, tick: int, limit: int)
    ensures SignedNotional(budget, fees, tick, limit).Ok?
            <==> budget <= 0 || !fees.enabled || fees.rate == 0 || (SupportedTick(tick) && tick <= limit)
  {
  }

  method SignedBuyNotional(budget: int, fees: Fees, tick: int, limit: int) returns (r: Result<int>)
    ensures r.Ok? <==> SignedNotional(budget, fees, tick, limit).Ok?
    ensures r.Ok? ==> r.value == SignedNotional(budget, fees, tick, limit).value
  {
    if budget <= 0 {
      return Ok(0);
    }
    var worst := WorstBuyFeeRatio(fees, tick, limit);
    if worst.Err? {
      return Err(worst.error);
    }
    var ratio := worst.value;
    var cents := budget * ratio.den / (CENT * (ratio.den + ratio.num));
    NotionalByValue(budget, ratio, WorstRatio(fees, tick, limit).value);
    NotionalByValue(budget, WorstRatio(fees, tick, limit).value, ratio);
    r := Ok(cents * CENT);
  }

  /** Lowering the limit never lowers the notional. */
  lemma LowerLimitLargerNotional(budget: int, fees: Fees, tick: int, lower: int, limit: int)
    requires SupportedTick(tick) && tick <= lower <= limit
    ensures SignedNotional(budget, fees, tick, limit).Ok? && SignedNotional(budget, fees, tick, lower).Ok?
    ensures SignedNotional(budget, fees, tick, limit).value
         <= SignedNotional(budget, fees, tick, lower).value
  {
    if fees.enabled && fees.rate > 0 {
      WorstRatioIsMaximum(fees, tick, lower);
      WorstRatioIsMaximum(fees, tick, limit);
      var a, b := WorstRatio(fees, tick, lower).value, WorstRatio(fees, tick, limit).value;
      var p :| ExecutablePrice(p, tick, lower) && SameValue(fees.RatioAt(p), a);
      assert ExecutablePrice(p, tick, limit);
      FractionLeTransitive(a, fees.RatioAt(p), b);
      NotionalByValue(budget, a, b);
    }
  }

  // ------------------------------------------- safety of every split of a BUY

  /** One execution of a signed order: so many shares at a price. */
  datatype Execution = Execution(price: int, qty: nat)

  /** Cash times SCALE, before truncation. */
  function ExactCash(executions: seq<Execution>): int {
    if executions == [] then 0
    else executions[0].price * executions[0].qty + ExactCash(executions[1..])
  }

  function TotalFees(fees: Fees, executions: seq<Execution>): int {
    if executions == [] then 0
    else fees.Fee(executions[0].qty, executions[0].price) + TotalFees(fees, executions[1..])
  }

  function TotalCost(executions: seq<Execution>): int {
    if executions == [] then 0
    else Cost(executions[0].price, executions[0].qty) + TotalCost(executions[1..])
  }

  /** One execution's fee is at most its exact cash times the ratio at its price. */
  lemma FeeAtMostRatio(fees: Fees, qty: nat, price: int)
    requires 0 < price < SCALE
    ensures fees.Fee(qty, price) >= 0
    ensures fees.Fee(qty, price) * (SCALE * fees.RatioAt(price).den)
            <= price * qty * fees.RatioAt(price).num
  {
    var e, S := fees.exponent, SCALE;
    var ratio := fees.RatioAt(price);
    MulNonneg(price * qty, ratio.num);
    if fees.enabled && qty > 0 {
      PowNonneg(S * S, e);
      var x, d := qty * fees.rate * fees.Curve(price), fees.CurveScale();
      PowProduct(price, S - price, e);
      PowDouble(S, e);
      PowNonneg(price * (S - price), e);
      MulNonneg(qty, fees.rate);
      MulNonneg(qty * fees.rate, fees.Curve(price));
      TruncatedDown(x, d);
      var u, v := Pow(price, e), Pow(S - price, e);
      assert x == qty * fees.rate * (u * v);
      if e == 0 {
        assert x == qty * fees.rate && d == S;
        ExponentZero(fees.Fee(qty, price), S, price, qty, fees.rate, x);
      } else {
        assert d == S * ratio.den;
        Regroup(price, qty, fees.rate, Pow(price, e - 1), v);
      }
    }
  }

  /** What a fee is: the exact product of quantity, rate and curve, cut down to ten
      micro-units. */
  lemma FeeIs(fees: Fees, qty: nat, price: int)
    ensures var fee := fees.Fee(qty, price);
            && fee % 10 == 0 && fee >= 0
            && (!fees.enabled || qty == 0 || price <= 0 || SCALE <= price ==> fee == 0)
            && (fees.enabled && 0 < price < SCALE ==>
                  var exact, unit := qty * fees.rate * Pow(price * (SCALE - price), fees.exponent),
                                     SCALE * Pow(SCALE * SCALE, fees.exponent);
                  fee * unit <= exact < (fee + 10) * unit)
  {
    if fees.enabled && 0 < price < SCALE {
      MulNonneg(price, SCALE - price);
      PowNonneg(price * (SCALE - price), fees.exponent);
      PowNonneg(SCALE * SCALE, fees.exponent);
      var curve, unit := Pow(price * (SCALE - price), fees.exponent), SCALE * Pow(SCALE * SCALE, fees.exponent);
      MulNonneg(qty, fees.rate);
      MulNonneg(qty * fees.rate, curve);
      TruncatedIs(qty * fees.rate * curve, unit);
    }
  }

  lemma TruncatedIs(x: int, d: int)
    requires d > 0 && x >= 0
    ensures var t := Truncated(x, d);
            t % 10 == 0 && t >= 0 && t * d <= x < (t + 10) * d
  {
    var k := x / (d * 10);
    FloorBounds(x, d * 10);
    FloorAtLeast(x, d * 10, 0);
    assert k * 10 * d == k * (d * 10) && (k * 10 + 10) * d == k * (d * 10) + d * 10;
  }

  /** Cash is the exact product cut down to a micro-unit. */
  lemma CostIs(price: int, qty: int)
    ensures Cost(price, qty) * SCALE <= price * qty < (Cost(price, qty) + 1) * SCALE
  {
    FloorBounds(price * qty, SCALE);
  }

  /** With an exponent the fee never exceeds the truncated cash it is charged on. */
  lemma FeeWithinCost(fees: Fees, qty: nat, price: int)
    requires fees.Valid() && fees.exponent > 0 && 0 < price < SCALE
    ensures fees.Fee(qty, price) <= Cost(price, qty)
  {
    hide Cost, Fees.Fee, Fees.RatioAt;
    var r, fee := fees.RatioAt(price), fees.Fee(qty, price);
    FeeAtMostRatio(fees, qty, price);
    RatioWithinOne(fees, price);
    MulNonneg(price, qty);
    RatioOut(fee, SCALE, price * qty, r.num, r.den);
    CostAtLeast(price, qty, fee);
  }

  lemma RatioOut(fee: int, unit: int, cash: int, num: int, den: int)
    requires fee * (unit * den) <= cash * num && num <= den && den > 0 && cash >= 0
    ensures fee * unit <= cash
  {
    MulLe(num, den, cash);
    assert fee * (unit * den) == (fee * unit) * den;
    MulCancelLe(fee * unit, cash, den);
  }

  lemma CostAtLeast(price: int, qty: int, fee: int)
    requires fee * SCALE <= price * qty
    ensures fee <= Cost(price, qty)
  {
    FloorAtLeast(price * qty, SCALE, fee);
  }

  lemma RatioWithinOne(fees: Fees, price: int)
    requires fees.Valid() && fees.exponent > 0 && 0 < price < SCALE
    ensures fees.RatioAt(price).num <= fees.RatioAt(price).den
  {
    var e := fees.exponent;
    var a, b := Pow(price, e - 1), Pow(SCALE - price, e);
    PowNonneg(price, e - 1);
    PowNonneg(SCALE - price, e);
    PowWithin(price, SCALE, e - 1);
    PowWithin(SCALE - price, SCALE, e);
    PowSum(SCALE, e - 1, e);
    var A, B := Pow(SCALE, e - 1), Pow(SCALE, e);
    MulLe(fees.rate, SCALE, a);
    MulLe(a, A, SCALE);
    MulLe(fees.rate * a, SCALE * A, b);
    MulNonneg(SCALE, A);
    MulLe(b, B, SCALE * A);
    PowSum(SCALE, e, e);
    assert Pow(SCALE, e) == SCALE * Pow(SCALE, e - 1);
    assert Pow(SCALE, 2 * e) == B * B;
    assert b * (SCALE * A) == SCALE * A * b;
  }

  lemma {:induction false} PowWithin(b: int, c: int, e: nat)
    requires 0 <= b <= c
    ensures Pow(b, e) <= Pow(c, e)
  {
    if e > 0 {
      PowWithin(b, c, e - 1);
      PowNonneg(b, e - 1);
      PowNonneg(c, e - 1);
      MulLe(Pow(b, e - 1), Pow(c, e - 1), b);
      MulLe(b, c, Pow(c, e - 1));
    }
  }

  lemma {:induction false} PowSum(b: int, m: nat, n: nat)
    ensures Pow(b, m + n) == Pow(b, m) * Pow(b, n)
  {
    if m > 0 {
      PowSum(b, m - 1, n);
      assert b * Pow(b, m - 1) * Pow(b, n) == b * (Pow(b, m - 1) * Pow(b, n));
    }
  }

  lemma ExponentZero(fee: int, S: int, price: int, qty: int, rate: int, x: int)
    requires fee * S <= x == qty * rate && 0 < price
    ensures fee * (S * price) <= price * qty * rate
  {
    MulLe(fee * S, x, price);
    assert fee * S * price == fee * (S * price);
    assert qty * rate * price == price * qty * rate;
  }

  lemma Regroup(p: int, q: int, r: int, a: int, v: int)
    ensures q * r * (p * a * v) == p * q * (r * a * v)
  {
    assert q * r * (p * a * v) == p * q * r * (a * v);
    assert p * q * (r * a * v) == p * q * r * (a * v);
  }

  lemma TruncatedDown(x: int, d: int)
    requires x >= 0 && d > 0
    ensures 0 <= Truncated(x, d) && Truncated(x, d) * d <= x
  {
    FloorBounds(x, d * 10);
    FloorAtLeast(x, d * 10, 0);
    assert x / (d * 10) * (d * 10) == x / (d * 10) * 10 * d;
  }

  lemma FeeUnderBound(fees: Fees, bound: Fraction, qty: nat, price: int)
    requires bound.Valid() && 0 < price < SCALE && fees.RatioAt(price).Le(bound)
    ensures fees.Fee(qty, price) >= 0
    ensures fees.Fee(qty, price) * SCALE * bound.den <= price * qty * bound.num
  {
    FeeAtMostRatio(fees, qty, price);
    var f, r, w := fees.Fee(qty, price), fees.RatioAt(price), price * qty;
    MulNonneg(price, qty);
    ScaleBound(f, SCALE, r.num, r.den, bound.num, bound.den, w);
  }

  lemma ScaleBound(f: int, S: int, n: int, d: int, N: int, D: int, w: int)
    requires f * (S * d) <= w * n && n * D <= N * d && d > 0 && D > 0 && w >= 0
    ensures f * S * D <= w * N
  {
    MulLe(f * (S * d), w * n, D);
    MulLe(n * D, N * d, w);
    assert (f * S * D) * d == f * (S * d) * D;
    assert w * n * D == n * D * w;
    assert N * d * w == (w * N) * d;
    MulCancelLe(f * S * D, w * N, d);
  }

  ghost predicate AllExecutable(executions: seq<Execution>, tick: int, limit: int) {
    forall i :: 0 <= i < |executions| ==> ExecutablePrice(executions[i].price, tick, limit)
  }

  lemma ExecutableInside(price: int, tick: int, limit: int)
    requires ExecutablePrice(price, tick, limit)
    ensures 0 < price < SCALE
  {
  }

  lemma {:induction false} FeesUnderBound(fees: Fees, bound: Fraction, tick: int, limit: int,
                                          executions: seq<Execution>)
    requires SupportedTick(tick) && bound.Valid() && AtMost(fees, tick, limit, bound)
    requires AllExecutable(executions, tick, limit)
    ensures 0 <= TotalFees(fees, executions)
    ensures TotalFees(fees, executions) * SCALE * bound.den <= ExactCash(executions) * bound.num
  {
    hide Fees.Fee, Fees.RatioAt, ExecutablePrice;
    if executions != [] {
      var x := executions[0];
      assert ExecutablePrice(x.price, tick, limit);
      ExecutableInside(x.price, tick, limit);
      FeeUnderBound(fees, bound, x.qty, x.price);
      FeesUnderBound(fees, bound, tick, limit, executions[1..]);
      var f, g := fees.Fee(x.qty, x.price), TotalFees(fees, executions[1..]);
      AddProducts(f, g, SCALE * bound.den);
      AddProducts(x.price * x.qty, ExactCash(executions[1..]), bound.num);
    }
  }

  lemma AddProducts(a: int, b: int, c: int)
    ensures (a + b) * c == a * c + b * c
  {
  }

  lemma {:induction false} CostAtMostCash(executions: seq<Execution>)
    ensures TotalCost(executions) * SCALE <= ExactCash(executions)
  {
    if executions != [] {
      FloorBounds(executions[0].price * executions[0].qty, SCALE);
      CostAtMostCash(executions[1..]);
    }
  }

  lemma NoFeeRatio(fees: Fees, p: int)
    requires fees.rate == 0 && 0 < p < SCALE
    ensures fees.RatioAt(p).num == 0
  {
  }

  /** With or without fees, the worst ratio bounds every executable tick. */
  lemma WorstRatioBounds(fees: Fees, tick: int, limit: int)
    requires fees.Valid() && SupportedTick(tick) && tick <= limit
    ensures WorstRatio(fees, tick, limit).Ok?
    ensures AtMost(fees, tick, limit, WorstRatio(fees, tick, limit).value)
  {
    if fees.enabled && fees.rate > 0 {
      WorstRatioIsMaximum(fees, tick, limit);
    } else {
      forall p | ExecutablePrice(p, tick, limit)
        ensures fees.RatioAt(p).Le(WorstRatio(fees, tick, limit).value)
      {
        NoFeeRatio(fees, p);
      }
    }
  }

  /** However a signed BUY is split into executions at legal ticks up to its limit,
      as long as they take no more cash than the notional, the notional and all the
      fees together stay within the budget, and so does the truncated spend. */
  lemma EverySplitFitsBudget(budget: int, fees: Fees, tick: int, limit: int, executions: seq<Execution>)
    requires budget > 0 && fees.Valid() && SupportedTick(tick) && tick <= limit
    requires AllExecutable(executions, tick, limit)
    requires ExactCash(executions) <= SignedNotional(budget, fees, tick, limit).value * SCALE
    ensures SignedNotional(budget, fees, tick, limit).value + TotalFees(fees, executions) <= budget
    ensures TotalCost(executions) + TotalFees(fees, executions) <= budget
  {
    var bound := WorstRatio(fees, tick, limit).value;
    var n := SignedNotional(budget, fees, tick, limit).value;
    NotionalIsLargest(budget, bound, n);
    WorstRatioBounds(fees, tick, limit);
    FeesUnderBound(fees, bound, tick, limit, executions);
    CostAtMostCash(executions);
    FeesFitNotional(n, bound, TotalFees(fees, executions), ExactCash(executions), budget);
    MulCancelLe(TotalCost(executions), n, SCALE);
  }

  lemma FeesFitNotional(n: int, bound: Fraction, total: int, cash: int, budget: int)
    requires bound.Valid() && Fits(n, bound, budget)
    requires total * SCALE * bound.den <= cash * bound.num && cash <= n * SCALE
    ensures n + total <= budget
  {
    MulLe(cash, n * SCALE, bound.num);
    assert n * SCALE * bound.num == n * bound.num * SCALE;
    assert total * SCALE * bound.den == total * bound.den * SCALE;
    MulCancelLe(total * bound.den, n * bound.num, SCALE);
    CeilAtMost(n * bound.num, bound.den, CeilDiv(n * bound.num, bound.den));
    MulCancelLe(total, CeilDiv(n * bound.num, bound.den), bound.den);
  }
}
