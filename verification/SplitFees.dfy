/** What the fees of a split order can reach when its cash is counted as the program
    counts it, truncated execution by execution. */
module SplitFees {
  import opened Arith
  import opened FeeRules
  import opened OrderTerms
  import Ladder

  // ------------------------------------------------------------ one execution

  /** The most shares at a price whose truncated cost is at most `cost`. */
  function MostShares(price: int, cost: nat): (q: nat)
    requires price > 0
  {
    FloorAtLeast(cost * SCALE + SCALE - 1, price, 0);
    (cost * SCALE + SCALE - 1) / price
  }

  lemma MostSharesIs(price: int, cost: nat, qty: nat)
    requires price > 0
    ensures Cost(price, qty) <= cost <==> qty <= MostShares(price, cost)
  {
    FloorAtLeast(price * qty, SCALE, cost + 1);
    FloorAtLeast(cost * SCALE + SCALE - 1, price, qty);
  }

  /** The largest fee that one execution of truncated cost at most `cost` can bear, over
      the first `count` ticks. */
  function PeakFee(fees: Fees, tick: int, count: nat, cost: nat): int
    requires 0 < tick
  {
    if count == 0 then 0
    else
      MulLe(1, count, tick);
      Max(PeakFee(fees, tick, count - 1, cost), fees.Fee(MostShares(count * tick, cost), count * tick))
  }

  lemma {:induction false} PeakFeeCovers(fees: Fees, tick: int, count: nat, cost: nat, k: nat, qty: nat)
    requires 0 < tick && 0 < k <= count && Cost(k * tick, qty) <= cost
    ensures 0 <= fees.Fee(qty, k * tick) <= PeakFee(fees, tick, count, cost)
  {
    MulLe(1, k, tick);
    if k == count {
      MostSharesIs(k * tick, cost, qty);
      Ladder.FeeMonotone(fees, k * tick, qty, MostShares(k * tick, cost));
    } else {
      PeakFeeCovers(fees, tick, count - 1, cost, k, qty);
    }
  }

  lemma {:induction false} PeakFeeAttained(fees: Fees, tick: int, count: nat, cost: nat) returns (k: nat)
    requires 0 < tick && 0 < count
    ensures 0 < k <= count && k * tick > 0
    ensures PeakFee(fees, tick, count, cost) == fees.Fee(MostShares(k * tick, cost), k * tick)
  {
    k := count;
    MulLe(1, count, tick);
    Ladder.FeeMonotone(fees, count * tick, 0, MostShares(count * tick, cost));
    if count > 1 {
      var j := PeakFeeAttained(fees, tick, count - 1, cost);
      if PeakFee(fees, tick, count - 1, cost) > fees.Fee(MostShares(count * tick, cost), count * tick) {
        k := j;
      }
    }
  }

  /** The executable ticks are the first `TickCount` multiples of the tick. */
  lemma TickIndex(tick: int, limit: int, price: int) returns (k: nat)
    requires SupportedTick(tick) && tick <= limit && ExecutablePrice(price, tick, limit)
    ensures 0 < k <= TickCount(tick, limit) && price == k * tick
  {
    k := price / tick;
    FloorMultiple(price, tick);
    FloorAtLeast(price, tick, 1);
    FloorMonotone(price, Min(limit, SCALE - tick), tick);
  }

  lemma IndexedTick(tick: int, limit: int, k: nat)
    requires SupportedTick(tick) && tick <= limit && 0 < k <= TickCount(tick, limit)
    ensures ExecutablePrice(k * tick, tick, limit)
  {
    var high := Min(limit, SCALE - tick);
    MulLe(1, k, tick);
    MulLe(k, high / tick, tick);
    FloorBounds(high, tick);
    MultipleMod(k, tick);
  }

  // ------------------------------------------------------------ several executions

  /** The largest total of fees over `k` executions whose truncated costs add up to at
      most `n`: the first takes some part of it, the rest share what is left. */
  function WorstFees(fees: Fees, tick: int, count: nat, k: nat, n: nat): int
    requires 0 < tick
    decreases k, n + 1
  {
    if k == 0 then 0 else BestFirst(fees, tick, count, k, n, n)
  }

  /** The same with the first execution costing at most `c`. */
  function BestFirst(fees: Fees, tick: int, count: nat, k: nat, n: nat, c: nat): int
    requires 0 < tick && 0 < k && c <= n
    decreases k, c
  {
    var here := PeakFee(fees, tick, count, c) + WorstFees(fees, tick, count, k - 1, n - c);
    if c == 0 then here else Max(here, BestFirst(fees, tick, count, k, n, c - 1))
  }

  lemma {:induction false} FirstCovered(fees: Fees, tick: int, count: nat, k: nat, n: nat, c: nat, first: nat)
    requires 0 < tick && 0 < k && first <= c <= n
    ensures PeakFee(fees, tick, count, first) + WorstFees(fees, tick, count, k - 1, n - first)
            <= BestFirst(fees, tick, count, k, n, c)
    decreases c
  {
    if first < c {
      FirstCovered(fees, tick, count, k, n, c - 1, first);
    }
  }

  lemma {:induction false} BestFirstAt(fees: Fees, tick: int, count: nat, k: nat, n: nat, c: nat) returns (first: nat)
    requires 0 < tick && 0 < k && c <= n
    ensures first <= c
    ensures BestFirst(fees, tick, count, k, n, c)
            == PeakFee(fees, tick, count, first) + WorstFees(fees, tick, count, k - 1, n - first)
    decreases c
  {
    first := c;
    if c > 0 {
      var less := BestFirstAt(fees, tick, count, k, n, c - 1);
      if BestFirst(fees, tick, count, k, n, c - 1)
         > PeakFee(fees, tick, count, c) + WorstFees(fees, tick, count, k - 1, n - c) {
        first := less;
      }
    }
  }

  lemma {:induction false} WorstFeesNonneg(fees: Fees, tick: int, count: nat, k: nat, n: nat)
    requires 0 < tick
    ensures WorstFees(fees, tick, count, k, n) >= 0
    decreases k
  {
    if k > 0 {
      FirstCovered(fees, tick, count, k, n, n, 0);
      WorstFeesNonneg(fees, tick, count, k - 1, n);
      PeakFeeNonneg(fees, tick, count, 0);
    }
  }

  lemma {:induction false} PeakFeeNonneg(fees: Fees, tick: int, count: nat, cost: nat)
    requires 0 < tick
    ensures PeakFee(fees, tick, count, cost) >= 0
  {
    if count > 0 {
      PeakFeeNonneg(fees, tick, count - 1, cost);
    }
  }

  lemma {:induction false} CostNonneg(executions: seq<Execution>, tick: int, limit: int)
    requires AllExecutable(executions, tick, limit)
    ensures 0 <= TotalCost(executions)
  {
    if executions != [] {
      var x := executions[0];
      assert ExecutablePrice(x.price, tick, limit);
      MulNonneg(x.price, x.qty);
      FloorAtLeast(x.price * x.qty, SCALE, 0);
      CostNonneg(executions[1..], tick, limit);
    }
  }

  /** No split bears more. */
  lemma {:induction false} SplitBearsAtMost(fees: Fees, tick: int, limit: int, k: nat, n: nat, executions: seq<Execution>)
    requires SupportedTick(tick) && tick <= limit && AllExecutable(executions, tick, limit)
    requires |executions| <= k && TotalCost(executions) <= n
    ensures TotalFees(fees, executions) <= WorstFees(fees, tick, TickCount(tick, limit), k, n)
    decreases k
  {
    var count := TickCount(tick, limit);
    if executions == [] {
      WorstFeesNonneg(fees, tick, count, k, n);
    } else {
      var x, rest := executions[0], executions[1..];
      assert ExecutablePrice(x.price, tick, limit);
      var cost := Cost(x.price, x.qty);
      MulNonneg(x.price, x.qty);
      FloorAtLeast(x.price * x.qty, SCALE, 0);
      CostNonneg(rest, tick, limit);
      var j := TickIndex(tick, limit, x.price);
      PeakFeeCovers(fees, tick, count, cost, j, x.qty);
      SplitBearsAtMost(fees, tick, limit, k - 1, n - cost, rest);
      FirstCovered(fees, tick, count, k, n, n, cost);
    }
  }

  /** Some split bears it. */
  lemma {:induction false} SplitBears(fees: Fees, tick: int, limit: int, k: nat, n: nat)
    returns (executions: seq<Execution>)
    requires SupportedTick(tick) && tick <= limit
    ensures |executions| == k && AllExecutable(executions, tick, limit) && TotalCost(executions) <= n
    ensures TotalFees(fees, executions) == WorstFees(fees, tick, TickCount(tick, limit), k, n)
    decreases k
  {
    executions := [];
    if k > 0 {
      var count := TickCount(tick, limit);
      var first := BestFirstAt(fees, tick, count, k, n, n);
      var j := PeakFeeAttained(fees, tick, count, first);
      IndexedTick(tick, limit, j);
      var x := Execution(j * tick, MostShares(j * tick, first));
      MostSharesIs(j * tick, first, x.qty);
      var rest := SplitBears(fees, tick, limit, k - 1, n - first);
      executions := [x] + rest;
      assert executions[1..] == rest;
    }
  }

  // ------------------------------------------------------------ when every split fits

  /** The notional stays within the budget with the fees of any split into at most `k`
      executions whose truncated costs add up to at most the notional. */
  ghost predicate EverySplitFits(budget: int, notional: int, fees: Fees, tick: int, limit: int, k: nat) {
    forall executions :: |executions| <= k && AllExecutable(executions, tick, limit)
                         && TotalCost(executions) <= notional ==>
      notional + TotalFees(fees, executions) <= budget
  }

  /** The same for any number of executions. */
  ghost predicate AnySplitFits(budget: int, notional: int, fees: Fees, tick: int, limit: int) {
    forall executions :: AllExecutable(executions, tick, limit) && TotalCost(executions) <= notional ==>
      notional + TotalFees(fees, executions) <= budget
  }

  /** With truncated cash the budget holds for every split into at most `k` executions if
      and only if it holds for the worst distribution of the notional over them. */
  lemma SplitsFitExactly(budget: int, fees: Fees, tick: int, limit: int, k: nat)
    requires SupportedTick(tick) && tick <= limit
    ensures var n := SignedNotional(budget, fees, tick, limit);
            && n.Ok? && n.value >= 0
            && (EverySplitFits(budget, n.value, fees, tick, limit, k)
                <==> n.value + WorstFees(fees, tick, TickCount(tick, limit), k, n.value) <= budget)
  {
    SignedNotionalNonneg(budget, fees, tick, limit);
    var n := SignedNotional(budget, fees, tick, limit).value;
    var worst := SplitBears(fees, tick, limit, k, n);
    forall executions | |executions| <= k && AllExecutable(executions, tick, limit) && TotalCost(executions) <= n
      ensures TotalFees(fees, executions) <= WorstFees(fees, tick, TickCount(tick, limit), k, n)
    {
      SplitBearsAtMost(fees, tick, limit, k, n, executions);
    }
  }

  lemma SignedNotionalNonneg(budget: int, fees: Fees, tick: int, limit: int)
    requires SupportedTick(tick) && tick <= limit
    ensures SignedNotional(budget, fees, tick, limit).Ok? && SignedNotional(budget, fees, tick, limit).value >= 0
    ensures budget <= 0 ==> SignedNotional(budget, fees, tick, limit).value == 0
  {
    if budget > 0 {
      NotionalIsLargest(budget, WorstRatio(fees, tick, limit).value, 0);
    }
  }

  /** With truncated cash the budget holds for every split whatsoever if and only if an
      execution that costs nothing bears no fee and the worst distribution of the
      notional over executions that cost something fits. */
  lemma AllSplitsFitExactly(budget: int, fees: Fees, tick: int, limit: int)
    requires SupportedTick(tick) && tick <= limit
    ensures var n, count := SignedNotional(budget, fees, tick, limit), TickCount(tick, limit);
            && n.Ok? && n.value >= 0
            && (AnySplitFits(budget, n.value, fees, tick, limit)
                <==> PeakFee(fees, tick, count, 0) == 0 && n.value + WorstFees(fees, tick, count, n.value, n.value) <= budget)
  {
    SignedNotionalNonneg(budget, fees, tick, limit);
    var n, count := SignedNotional(budget, fees, tick, limit).value, TickCount(tick, limit);
    PeakFeeNonneg(fees, tick, count, 0);
    if PeakFee(fees, tick, count, 0) > 0 {
      FreeFeesAddUp(budget, n, fees, tick, limit);
    } else {
      var worst := SplitBears(fees, tick, limit, n, n);
      forall executions | AllExecutable(executions, tick, limit) && TotalCost(executions) <= n
        ensures TotalFees(fees, executions) <= WorstFees(fees, tick, count, n, n)
      {
        CostlyBearsAll(fees, tick, limit, executions);
        SplitBearsAtMost(fees, tick, limit, n, n, Costly(executions));
      }
    }
  }

  function Repeat(k: nat, x: Execution): seq<Execution> { if k == 0 then [] else [x] + Repeat(k - 1, x) }

  lemma {:induction false} RepeatTotals(fees: Fees, k: nat, x: Execution)
    ensures |Repeat(k, x)| == k && forall i :: 0 <= i < k ==> Repeat(k, x)[i] == x
    ensures TotalCost(Repeat(k, x)) == k * Cost(x.price, x.qty)
    ensures TotalFees(fees, Repeat(k, x)) == k * fees.Fee(x.qty, x.price)
    ensures ExactCash(Repeat(k, x)) == k * (x.price * x.qty)
  {
    if k > 0 {
      RepeatTotals(fees, k - 1, x);
      assert Repeat(k, x)[1..] == Repeat(k - 1, x);
      OneMore(k, Cost(x.price, x.qty));
      OneMore(k, fees.Fee(x.qty, x.price));
      OneMore(k, x.price * x.qty);
    }
  }

  lemma OneMore(k: int, x: int)
    ensures k * x == x + (k - 1) * x
  {
  }

  /** Executions that cost nothing but bear a fee exhaust any budget. */
  lemma FreeFeesAddUp(budget: int, notional: int, fees: Fees, tick: int, limit: int)
    requires SupportedTick(tick) && tick <= limit && notional >= 0
    requires PeakFee(fees, tick, TickCount(tick, limit), 0) > 0
    ensures !AnySplitFits(budget, notional, fees, tick, limit)
  {
    var j := PeakFeeAttained(fees, tick, TickCount(tick, limit), 0);
    IndexedTick(tick, limit, j);
    var x, many := Execution(j * tick, MostShares(j * tick, 0)), Max(budget, 0) + 1;
    MostSharesIs(j * tick, 0, x.qty);
    MulNonneg(x.price, x.qty);
    FloorAtLeast(x.price * x.qty, SCALE, 0);
    RepeatTotals(fees, many, x);
    MulLe(1, fees.Fee(x.qty, x.price), many);
    assert AllExecutable(Repeat(many, x), tick, limit) && TotalCost(Repeat(many, x)) == 0;
  }

  /** The executions that cost something. */
  function Costly(executions: seq<Execution>): seq<Execution> {
    if executions == [] then []
    else (if Cost(executions[0].price, executions[0].qty) > 0 then [executions[0]] else []) + Costly(executions[1..])
  }

  lemma {:induction false} CostlyBearsAll(fees: Fees, tick: int, limit: int, executions: seq<Execution>)
    requires SupportedTick(tick) && tick <= limit && AllExecutable(executions, tick, limit)
    requires PeakFee(fees, tick, TickCount(tick, limit), 0) == 0
    ensures AllExecutable(Costly(executions), tick, limit)
    ensures |Costly(executions)| <= TotalCost(executions) == TotalCost(Costly(executions))
    ensures TotalFees(fees, Costly(executions)) == TotalFees(fees, executions)
  {
    if executions != [] {
      var x, rest := executions[0], executions[1..];
      assert ExecutablePrice(x.price, tick, limit);
      CostlyBearsAll(fees, tick, limit, rest);
      MulNonneg(x.price, x.qty);
      FloorAtLeast(x.price * x.qty, SCALE, 0);
      if Cost(x.price, x.qty) > 0 {
        assert Costly(executions)[1..] == Costly(rest);
      } else {
        var j := TickIndex(tick, limit, x.price);
        PeakFeeCovers(fees, tick, TickCount(tick, limit), 0, j, x.qty);
        assert Costly(executions) == Costly(rest);
      }
    }
  }

  // ------------------------------------------------------------ the slack in closed form

  /** Each execution hides less than one unit of cash, short of it by at least a tick. */
  lemma {:induction false} HiddenCash(executions: seq<Execution>, tick: int, limit: int)
    requires SupportedTick(tick) && AllExecutable(executions, tick, limit)
    ensures ExactCash(executions) <= TotalCost(executions) * SCALE + |executions| * (SCALE - tick)
  {
    if executions != [] {
      var x := executions[0];
      assert ExecutablePrice(x.price, tick, limit);
      HiddenCash(executions[1..], tick, limit);
      var cash := x.price * x.qty;
      FloorBounds(cash, SCALE);
      CashOnTick(x.price, x.qty, tick);
      CeilingOnTick(cash, (cash / SCALE + 1) * SCALE, tick);
      OneMore(|executions|, SCALE - tick);
    }
  }

  lemma CashOnTick(price: int, qty: int, tick: int)
    requires tick > 0 && price % tick == 0
    ensures (price * qty) % tick == 0
  {
    FloorMultiple(price, tick);
    MultipleMod(price / tick * qty, tick);
    assert price / tick * qty * tick == price / tick * tick * qty;
  }

  /** A multiple of a tick below a whole unit is at least a tick below it. */
  lemma CeilingOnTick(cash: int, unit: int, tick: int)
    requires SupportedTick(tick) && cash % tick == 0 && unit % SCALE == 0 && cash < unit
    ensures cash <= unit - tick
  {
    FloorMultiple(unit, SCALE);
    assert SCALE % tick == 0;
    FloorMultiple(SCALE, tick);
    MultipleMod(unit / SCALE * (SCALE / tick), tick);
    assert unit / SCALE * (SCALE / tick) * tick == unit / SCALE * (SCALE / tick * tick);
    MultipleSum(unit, cash, tick);
    FloorMultiple(unit - cash, tick);
    FloorAtLeast(unit - cash, tick, 0);
    FloorAtLeast(unit - cash, tick, 1);
    if (unit - cash) / tick == 0 {
      assert false;
    }
  }

  /** With truncated cash a split into `k` executions exceeds the budget by less than the
      worst ratio of one unit of cash per execution. */
  lemma SplitWithinSlack(budget: int, fees: Fees, tick: int, limit: int, executions: seq<Execution>)
    requires budget > 0 && fees.Valid() && SupportedTick(tick) && tick <= limit
    requires AllExecutable(executions, tick, limit)
    requires SignedNotional(budget, fees, tick, limit).Ok?
    requires TotalCost(executions) <= SignedNotional(budget, fees, tick, limit).value
    ensures WorstRatio(fees, tick, limit).Ok?
    ensures var ratio := WorstRatio(fees, tick, limit).value;
            SignedNotional(budget, fees, tick, limit).value + TotalFees(fees, executions)
            <= budget + CeilDiv(|executions| * (SCALE - tick) * ratio.num, SCALE * ratio.den)
  {
    WorstRatioBounds(fees, tick, limit);
    var ratio, n := WorstRatio(fees, tick, limit).value, SignedNotional(budget, fees, tick, limit).value;
    NotionalIsLargest(budget, ratio, n);
    FeesUnderBound(fees, ratio, tick, limit, executions);
    HiddenCash(executions, tick, limit);
    MulLe(TotalCost(executions), n, SCALE);
    SlackArithmetic(n, |executions| * (SCALE - tick), TotalFees(fees, executions), ExactCash(executions), ratio, budget);
  }

  lemma SlackArithmetic(n: int, hidden: int, total: int, cash: int, ratio: Fraction, budget: int)
    requires ratio.Valid() && Fits(n, ratio, budget)
    requires total * SCALE * ratio.den <= cash * ratio.num && cash <= n * SCALE + hidden
    ensures n + total <= budget + CeilDiv(hidden * ratio.num, SCALE * ratio.den)
  {
    var a, b := CeilDiv(n * ratio.num, ratio.den), CeilDiv(hidden * ratio.num, SCALE * ratio.den);
    CeilAtMost(n * ratio.num, ratio.den, a);
    MulLe(1, ratio.den, SCALE);
    CeilAtMost(hidden * ratio.num, SCALE * ratio.den, b);
    MulLe(cash, n * SCALE + hidden, ratio.num);
    MulLe(n * ratio.num, a * ratio.den, SCALE);
    SlackSum(n, hidden, a, b, ratio.num, ratio.den, total, SCALE);
  }

  lemma SlackSum(n: int, hidden: int, a: int, b: int, num: int, den: int, total: int, S: int)
    requires den > 0 && S > 0
    requires total * S * den <= (n * S + hidden) * num
    requires n * num * S <= a * den * S && hidden * num <= b * (S * den)
    ensures total <= a + b
  {
    MulLe(1, den, S);
    assert (n * S + hidden) * num == n * num * S + hidden * num;
    assert (a + b) * (S * den) == a * den * S + b * (S * den);
    assert total * S * den == total * (S * den);
    MulCancelLe(total, a + b, S * den);
  }

  // ------------------------------------------------------------ the slack is used

  /** One execution's fee is short of its exact cash times the ratio by less than ten units. */
  lemma FeeAboveRatio(fees: Fees, qty: nat, price: int)
    requires fees.Valid() && 0 < price < SCALE
    ensures price * qty * fees.RatioAt(price).num
            < (fees.Fee(qty, price) + 10) * (SCALE * fees.RatioAt(price).den)
  {
    var e, S := fees.exponent, SCALE;
    var ratio := fees.RatioAt(price);
    if fees.enabled && qty > 0 {
      PowNonneg(S * S, e);
      var x, d := qty * fees.rate * fees.Curve(price), fees.CurveScale();
      PowProduct(price, S - price, e);
      PowDouble(S, e);
      TruncatedUp(x, d);
      var u, v := Pow(price, e), Pow(S - price, e);
      assert x == qty * fees.rate * (u * v);
      if e == 0 {
        assert x == qty * fees.rate && d == S;
        MulLess(x, (fees.Fee(qty, price) + 10) * S, price);
        assert qty * fees.rate * price == price * qty * fees.rate;
        assert (fees.Fee(qty, price) + 10) * S * price == (fees.Fee(qty, price) + 10) * (S * price);
      } else {
        assert d == S * ratio.den;
        Regroup(price, qty, fees.rate, Pow(price, e - 1), v);
      }
    } else {
      NothingOwed(fees, qty, price);
      MulLe(1, ratio.den, S);
    }
  }

  lemma NothingOwed(fees: Fees, qty: nat, price: int)
    requires fees.Valid() && 0 < price < SCALE && (!fees.enabled || qty == 0)
    ensures price * qty * fees.RatioAt(price).num == 0
  {
    if !fees.enabled {
      NoFeeRatio(fees, price);
    }
  }

  lemma TruncatedUp(x: int, d: int)
    requires d > 0
    ensures x < (Truncated(x, d) + 10) * d
  {
    FloorBounds(x, d * 10);
    assert (x / (d * 10) * 10 + 10) * d == x / (d * 10) * (d * 10) + d * 10;
  }

  lemma MulLess(a: int, b: int, c: int)
    requires a < b && c > 0
    ensures a * c < b * c
  {
  }

  /** Shares that just fail to cost another unit pay almost another unit. */
  lemma AlmostAnotherUnit(fees: Fees, price: int, cost: nat)
    requires fees.Valid() && 0 < price < SCALE
    ensures var q, r := MostShares(price, cost), fees.RatioAt(price);
            && Cost(price, q) <= cost
            && (cost * SCALE + SCALE - price) * r.num < (fees.Fee(q, price) + 10) * (SCALE * r.den)
  {
    var q, r := MostShares(price, cost), fees.RatioAt(price);
    MostSharesIs(price, cost, q);
    FloorBounds(cost * SCALE + SCALE - 1, price);
    MulLe(cost * SCALE + SCALE - price, price * q, r.num);
    FeeAboveRatio(fees, q, price);
  }

  lemma {:induction false} ManyUnits(fees: Fees, k: nat, price: int)
    requires fees.Valid() && 0 < price < SCALE
    ensures var x, r := Repeat(k, Execution(price, MostShares(price, 0))), fees.RatioAt(price);
            && |x| == k && TotalCost(x) <= 0 && (forall i :: 0 <= i < k ==> x[i].price == price)
            && k * (SCALE - price) * r.num <= (TotalFees(fees, x) + 10 * k) * (SCALE * r.den)
  {
    var one := Execution(price, MostShares(price, 0));
    RepeatTotals(fees, k, one);
    AlmostAnotherUnit(fees, price, 0);
    var f, r := fees.Fee(one.qty, price), fees.RatioAt(price);
    MulLe(Cost(price, one.qty), 0, k);
    MulLe((SCALE - price) * r.num, (f + 10) * (SCALE * r.den), k);
    Multiplied(k, SCALE - price, r.num, f, SCALE * r.den);
  }

  lemma Multiplied(k: int, a: int, num: int, f: int, den: int)
    ensures (a * num) * k == k * a * num && ((f + 10) * den) * k == (k * f + 10 * k) * den
  {
    assert ((f + 10) * den) * k == (f + 10) * k * den;
    assert (f + 10) * k == k * f + 10 * k;
  }

  /** The slack is used: at the tick of the worst ratio some split into `k` executions
      bears fees on almost one more unit of cash per execution, short of it only by the
      tick and by less than ten units of fee truncation each. */
  lemma SlackIsUsed(budget: int, fees: Fees, tick: int, limit: int, k: nat)
    returns (price: int, executions: seq<Execution>)
    requires budget > 0 && fees.Valid() && SupportedTick(tick) && tick <= limit && k > 0
    ensures ExecutablePrice(price, tick, limit) && WorstRatio(fees, tick, limit).Ok?
    ensures SameValue(fees.RatioAt(price), WorstRatio(fees, tick, limit).value)
    ensures |executions| == k && AllExecutable(executions, tick, limit)
    ensures SignedNotional(budget, fees, tick, limit).Ok?
    ensures var n, r := SignedNotional(budget, fees, tick, limit).value, fees.RatioAt(price);
            && TotalCost(executions) <= n
            && (n * SCALE + k * (SCALE - price)) * r.num < (TotalFees(fees, executions) + 10 * k) * (SCALE * r.den)
  {
    SignedNotionalNonneg(budget, fees, tick, limit);
    var n := SignedNotional(budget, fees, tick, limit).value;
    price := WorstTick(fees, tick, limit);
    var r := fees.RatioAt(price);
    var first, rest := Execution(price, MostShares(price, n)), Repeat(k - 1, Execution(price, MostShares(price, 0)));
    AlmostAnotherUnit(fees, price, n);
    ManyUnits(fees, k - 1, price);
    executions := [first] + rest;
    assert executions[1..] == rest;
    AddUp(n * SCALE + SCALE - price, (k - 1) * (SCALE - price), r.num,
          fees.Fee(first.qty, price) + 10, TotalFees(fees, rest) + 10 * (k - 1), SCALE * r.den);
    OneMore(k, SCALE - price);
  }

  lemma AddUp(a: int, b: int, num: int, x: int, y: int, den: int)
    requires a * num < x * den && b * num <= y * den
    ensures (a + b) * num < (x + y) * den
  {
    assert (a + b) * num == a * num + b * num && (x + y) * den == x * den + y * den;
  }

  lemma WorstTick(fees: Fees, tick: int, limit: int) returns (price: int)
    requires fees.Valid() && SupportedTick(tick) && tick <= limit
    ensures ExecutablePrice(price, tick, limit) && WorstRatio(fees, tick, limit).Ok?
    ensures SameValue(fees.RatioAt(price), WorstRatio(fees, tick, limit).value)
  {
    if fees.enabled && fees.rate > 0 {
      WorstRatioIsMaximum(fees, tick, limit);
      price :| ExecutablePrice(price, tick, limit)
               && SameValue(fees.RatioAt(price), WorstRatio(fees, tick, limit).value);
    } else {
      price := tick;
      NoFeeRatio(fees, tick);
    }
  }

  // ------------------------------------------------------------ an order that fails

  /** A one-dollar order that every signing check accepts, at a fee rate of seven per
      cent: split into 7042 executions of truncated cost 142 it stays within its notional
      and passes its budget. */
  lemma TruncatedCashIsNotEnough(minSize: int)
    requires minSize <= 10_000_000_000
    ensures var fees, budget, notional := Fees(true, 70_000, 1), 1_069_993, 1_000_000;
            var executions := Repeat(7_042, Execution(100, 1_429_999));
            && fees.Valid() && SignedNotional(budget, fees, 100, 100) == Ok(notional)
            && CheckSignedBuy(notional, BuyTaker(notional, 100, 100), notional, 100, minSize, 100).Ok?
            && AllExecutable(executions, 100, 100)
            && TotalCost(executions) <= notional
            && notional + TotalFees(fees, executions) > budget
  {
    var fees := Fees(true, 70_000, 1);
    SevenPerCent();
    RepeatTotals(fees, 7_042, Execution(100, 1_429_999));
    ExactBuyPassesCheck(1_000_000, 1_000_000, 100, minSize, 100);
  }

  lemma SevenPerCent()
    ensures var fees := Fees(true, 70_000, 1);
            && SignedNotional(1_069_993, fees, 100, 100) == Ok(1_000_000)
            && fees.Fee(1_429_999, 100) == 10 && Cost(100, 1_429_999) == 142
  {
    var fees := Fees(true, 70_000, 1);
    assert Pow(100, 0) == 1;
    assert Pow(999_900, 1) == 999_900 * Pow(999_900, 0);
    assert Pow(SCALE, 2) == SCALE * Pow(SCALE, 1) && Pow(SCALE, 1) == SCALE * Pow(SCALE, 0);
    assert fees.RatioAt(100) == Fraction(70_000 * 999_900, SCALE * SCALE);
    assert TickCount(100, 100) == 1;
    assert Pow(100 * 999_900, 1) == 100 * 999_900 * Pow(100 * 999_900, 0);
    assert Pow(SCALE * SCALE, 1) == SCALE * SCALE * Pow(SCALE * SCALE, 0);
    assert fees.Curve(100) == 99_990_000 && fees.CurveScale() == SCALE * SCALE * SCALE;
  }
}
