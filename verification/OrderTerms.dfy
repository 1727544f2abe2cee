/** Outbound order terms: whole-hundredth shares, legal ticks, and the checks a
    signed order must pass before it may be posted. */
module OrderTerms {
  import opened Arith
  import opened FeeRules

  const SHARE_STEP := 10_000

  const MIN_MARKETABLE_BUY_NOTIONAL := 1_000_000

  // ---------------------------------------------------------------- sells

  datatype SellTerms = SellTerms(quantity: int, limit: int, tick: int)

  function SellMinimum(minSize: int): int { (minSize + SHARE_STEP - 1) / SHARE_STEP * SHARE_STEP }

  function NormalizeSell(quantity: int, limit: int, tick: int, minSize: int): (r: Result<SellTerms>) {
    if !SupportedTick(tick) then Err("unsupported tick")
    else
      var q := quantity / SHARE_STEP * SHARE_STEP;
      var l := (Max(1, limit) + tick - 1) / tick * tick;
      if q <= 0 || q < minSize then Err("below minimum size")
      else if !(0 < l <= SCALE - tick) then Err("no legal price")
      else Ok(SellTerms(q, l, tick))
  }

  /** The minimum of a sell is the least whole number of steps that reaches the market's. */
  lemma SellMinimumIs(minSize: int)
    ensures SellMinimum(minSize) % SHARE_STEP == 0 && minSize <= SellMinimum(minSize)
    ensures forall m :: m % SHARE_STEP == 0 && minSize <= m ==> SellMinimum(minSize) <= m
  {
    FloorMultiple(minSize + SHARE_STEP - 1, SHARE_STEP);
    FloorBounds(minSize + SHARE_STEP - 1, SHARE_STEP);
    forall m | m % SHARE_STEP == 0 && minSize <= m
      ensures SellMinimum(minSize) <= m
    {
      CeilOfMultiple(m, SHARE_STEP);
      FloorMonotone(minSize + SHARE_STEP - 1, m + SHARE_STEP - 1, SHARE_STEP);
      MulLe((minSize + SHARE_STEP - 1) / SHARE_STEP, (m + SHARE_STEP - 1) / SHARE_STEP, SHARE_STEP);
    }
  }

  /** A sell has legal terms exactly when, on a supported tick, it reaches one step and the
      minimum and its floor is within the highest tick. */
  lemma NormalizeSellAccepts(quantity: int, limit: int, tick: int, minSize: int)
    ensures NormalizeSell(quantity, limit, tick, minSize).Ok?
            <==> SupportedTick(tick) && quantity >= SHARE_STEP && quantity >= SellMinimum(minSize) && limit <= SCALE - tick
  {
    if SupportedTick(tick) {
      FloorAtLeast(quantity, SHARE_STEP, 1);
      SellMinimumIs(minSize);
      FloorMultiple(quantity, SHARE_STEP);
      if quantity >= SellMinimum(minSize) {
        GreatestMultiple(SellMinimum(minSize), quantity, SHARE_STEP);
      }
      var l := (Max(1, limit) + tick - 1) / tick * tick;
      FloorBounds(Max(1, limit) + tick - 1, tick);
      assert (SCALE - tick) % tick == 0;
      if Max(1, limit) <= SCALE - tick {
        CeilOfMultiple(SCALE - tick, tick);
        FloorMonotone(Max(1, limit) + tick - 1, SCALE - 1, tick);
        MulLe((Max(1, limit) + tick - 1) / tick, (SCALE - 1) / tick, tick);
      }
    }
  }

  /** A normalised sell gives up less than one hundredth of a share, never lowers
      its price floor and raises it by less than a tick. */
  lemma NormalizedSellBounds(quantity: int, limit: int, tick: int, minSize: int)
    requires NormalizeSell(quantity, limit, tick, minSize).Ok?
    ensures var t := NormalizeSell(quantity, limit, tick, minSize).value;
            && quantity - SHARE_STEP < t.quantity <= quantity && minSize <= t.quantity
            && t.quantity % SHARE_STEP == 0 && 0 < t.quantity
            && limit <= t.limit < Max(1, limit) + tick && t.limit % tick == 0
            && ExecutablePrice(t.limit, tick, SCALE)
  {
    FloorMultiple(quantity, SHARE_STEP);
    FloorMultiple(Max(1, limit) + tick - 1, tick);
    FloorBounds(Max(1, limit) + tick - 1, tick);
    var l := NormalizeSell(quantity, limit, tick, minSize).value.limit;
    GreatestMultiple(tick, l, tick) by {
      FloorAtLeast(Max(1, limit) + tick - 1, tick, 1);
      MulLe(1, (Max(1, limit) + tick - 1) / tick, tick);
    }
  }

  /** Normalising terms that are already normalised changes nothing, also under a
      smaller minimum size. */
  lemma NormalizeSellIdempotent(quantity: int, limit: int, tick: int, minSize: int)
    requires NormalizeSell(quantity, limit, tick, minSize).Ok?
    ensures var t := NormalizeSell(quantity, limit, tick, minSize).value;
            NormalizeSell(t.quantity, t.limit, tick, minSize) == Ok(t)
  {
    var t := NormalizeSell(quantity, limit, tick, minSize).value;
    NormalizedSellBounds(quantity, limit, tick, minSize);
    FloorMultiple(t.quantity, SHARE_STEP);
    CeilOfMultiple(t.limit, tick);
  }

  lemma CeilOfMultiple(x: int, d: int)
    requires d > 0 && x % d == 0
    ensures (x + d - 1) / d * d == x
  {
    FloorMultiple(x, d);
    FloorBounds(x + d - 1, d);
    FloorAtLeast(x + d - 1, d, x / d);
    FloorAtLeast(x + d - 1, d, x / d + 1);
    assert (x / d + 1) * d == x + d;
  }

  /** The amounts of a signed SELL: shares given, cash asked. */
  function CheckSignedSell(maker: int, taker: int, terms: SellTerms): Result<(int, int)> {
    if maker <= 0 || taker <= 0 then Err("invalid amounts")
    else if maker != terms.quantity || taker * SCALE < maker * terms.limit then Err("below price floor")
    else if taker * SCALE > maker * (SCALE - terms.tick) then Err("above highest tick")
    else Ok((maker, taker))
  }

  /** The amounts of a normalised sell asked at a multiple of the tick pass the signed check
      exactly from its floor up to the highest tick, and another quantity never does. */
  lemma SellAmountsPassCheck(terms: SellTerms, price: int)
    requires SupportedTick(terms.tick) && price > 0 && price % terms.tick == 0
    requires terms.quantity > 0 && terms.quantity % SHARE_STEP == 0
    ensures Cost(price, terms.quantity) * SCALE == price * terms.quantity
    ensures CheckSignedSell(terms.quantity, Cost(price, terms.quantity), terms).Ok?
            <==> terms.limit <= price <= SCALE - terms.tick
    ensures forall maker, taker :: CheckSignedSell(maker, taker, terms).Ok? ==> maker == terms.quantity && taker > 0
  {
    hide Cost;
    var q, tick := terms.quantity, terms.tick;
    WholeCash(price, tick, q);
    var k := Cost(price, q);
    MulLe(1, price, q);
    PriceOrder(price, terms.limit, q);
    PriceOrder(SCALE - tick, price, q);
    assert q * terms.limit == terms.limit * q && q * (SCALE - tick) == (SCALE - tick) * q;
  }

  lemma PriceOrder(a: int, b: int, q: int)
    requires q > 0
    ensures b * q <= a * q <==> b <= a
  {
    if b <= a {
      MulLe(b, a, q);
    } else {
      MulLe(a + 1, b, q);
      assert (a + 1) * q == a * q + q;
    }
  }

  /** Whole steps of shares at a legal tick cost a whole number of micro-units. */
  lemma WholeCash(price: int, tick: int, q: int)
    requires SupportedTick(tick) && price % tick == 0 && q % SHARE_STEP == 0
    ensures Cost(price, q) * SCALE == price * q
  {
    FloorMultiple(q, SHARE_STEP);
    FloorMultiple(price, tick);
    var a, b := price / tick * (tick / 100), q / SHARE_STEP;
    HundredsOf(price / tick, tick);
    RegroupSteps(a, b);
    MultipleMod(a * b, SCALE);
  }

  lemma HundredsOf(k: int, tick: int)
    requires SupportedTick(tick)
    ensures k * (tick / 100) * 100 == k * tick
  {
  }

  lemma RegroupSteps(a: int, b: int)
    ensures (a * 100) * (b * SHARE_STEP) == a * b * SCALE
  {
  }

  // ---------------------------------------------------------------- buys

  /** Whether the SDK's BUY division accepts this limit. */
  predicate OnTick(limit: int, tick: int) { SupportedTick(tick) && limit > 0 && limit % tick == 0 }

  /** Shares asked for `maker` cash at `limit`, floored to the tick's share precision. */
  function BuyTaker(maker: int, limit: int, tick: int): int
    requires OnTick(limit, tick)
  {
    var step := tick / 100;
    MulLe(1, limit, step);
    maker * SCALE / (limit * step) * step
  }

  function CanonicalBuyTaker(maker: int, limit: int, tick: int): Result<int> {
    if OnTick(limit, tick) then Ok(BuyTaker(maker, limit, tick)) else Err("off tick")
  }

  /** One unit in the last of `priceDigits` decimals. */
  function TickOf(priceDigits: nat): (t: int)
    requires priceDigits <= 6
    ensures t > 0
  {
    PowNonneg(10, 6 - priceDigits);
    Pow(10, 6 - priceDigits)
  }

  /** The exact BUY arithmetic, from an amount and a price in micro-units. */
  function ExactBuyAmounts(amount: int, limit: int, priceDigits: nat, amountDigits: nat): Result<(int, int)> {
    if amount <= 0 || limit <= 0 || priceDigits > 6 then Err("invalid amount or price")
    else
      var tick := TickOf(priceDigits);
      if amountDigits != priceDigits + 2 || limit >= SCALE || !OnTick(limit, tick) then Err("invalid amount or price")
      else
        var maker := amount / CENT * CENT;
        Ok((maker, BuyTaker(maker, limit, tick)))
  }

  function CheckSignedBuy(maker: int, taker: int, notional: int, limit: int, minSize: int, tick: int): Result<(int, int)> {
    if maker <= 0 || taker <= 0 then Err("invalid amounts")
    else
      var priceOk :=
        || maker * SCALE <= taker * limit
        || (&& CanonicalBuyTaker(maker, limit, tick) == Ok(taker)
            && maker * SCALE < taker * (limit + tick));
      if maker > notional || maker % SHARE_STEP != 0 || taker < minSize || !priceOk then Err("outside the fee budget")
      else Ok((maker, taker))
  }

  /** BUY amounts are built exactly for a positive amount and a legal tick below one dollar,
      at the share precision of that tick. */
  lemma ExactBuyExists(amount: int, limit: int, priceDigits: nat, amountDigits: nat)
    ensures ExactBuyAmounts(amount, limit, priceDigits, amountDigits).Ok?
            <==> amount > 0 && 0 < limit < SCALE && 1 <= priceDigits <= 4 && amountDigits == priceDigits + 2
                 && limit % TickOf(priceDigits) == 0
    ensures TickOf(1) == 100_000 && TickOf(2) == 10_000 && TickOf(3) == 1_000 && TickOf(4) == 100
  {
    PowersOfTen();
  }

  lemma PowersOfTen()
    ensures Pow(10, 0) == 1 && Pow(10, 1) == 10 && Pow(10, 2) == 100 && Pow(10, 3) == 1_000
    ensures Pow(10, 4) == 10_000 && Pow(10, 5) == 100_000 && Pow(10, 6) == 1_000_000
  {
    assert Pow(10, 0) == 1 && Pow(10, 1) == 10;
    assert Pow(10, 2) == 10 * Pow(10, 1) && Pow(10, 3) == 10 * Pow(10, 2);
    assert Pow(10, 4) == 10 * Pow(10, 3) && Pow(10, 5) == 10 * Pow(10, 4) && Pow(10, 6) == 10 * Pow(10, 5);
  }

  /** Shares asked lie within one precision step below the exact quotient. */
  lemma BuyTakerBounds(maker: int, limit: int, tick: int)
    requires OnTick(limit, tick)
    ensures var t := BuyTaker(maker, limit, tick);
            t % (tick / 100) == 0 && t * limit <= maker * SCALE < t * limit + limit * (tick / 100)
  {
    var step := tick / 100;
    MulLe(1, limit, step);
    var k := maker * SCALE / (limit * step);
    FloorBounds(maker * SCALE, limit * step);
    MultipleMod(k, step);
    assert k * (limit * step) == k * step * limit;
  }

  /** An accepted buy is funded by its notional in whole cents, reaches the minimum size and
      pays less than the next tick; at its limit or better it needs nothing else. */
  lemma SignedBuyPrice(maker: int, taker: int, notional: int, limit: int, minSize: int, tick: int)
    requires tick > 0
    ensures var funded := 0 < maker <= notional && maker % CENT == 0 && taker > 0 && minSize <= taker;
            var ok := CheckSignedBuy(maker, taker, notional, limit, minSize, tick).Ok?;
            && (ok ==> funded && maker * SCALE < taker * (limit + tick))
            && (funded && maker * SCALE <= taker * limit ==> ok)
  {
    if taker > 0 {
      MulLe(1, tick, taker);
      assert taker * (limit + tick) == taker * limit + tick * taker;
    }
  }

  lemma BuyTakerMonotone(less: int, more: int, limit: int, tick: int)
    requires OnTick(limit, tick) && less <= more
    ensures BuyTaker(less, limit, tick) <= BuyTaker(more, limit, tick)
  {
    var step := tick / 100;
    MulLe(1, limit, step);
    FloorMonotone(less * SCALE, more * SCALE, limit * step);
    MulLe(less * SCALE / (limit * step), more * SCALE / (limit * step), step);
  }

  /** A legal limit below one dollar leaves at least `limit / 100` shares per cent of cash. */
  lemma EnoughShares(maker: int, limit: int, tick: int)
    requires OnTick(limit, tick) && limit < SCALE && maker >= CENT
    ensures limit <= 100 * BuyTaker(maker, limit, tick)
  {
    var t := BuyTaker(maker, limit, tick);
    BuyTakerBounds(maker, limit, tick);
    MultipleSum(SCALE, limit, tick) by {
      assert SCALE % 100_000 == 0 && SCALE % 10_000 == 0 && SCALE % 1_000 == 0 && SCALE % 100 == 0;
    }
    FloorMultiple(SCALE - limit, tick);
    FloorAtLeast(SCALE - limit, tick, 1);
    MulLe(1, (SCALE - limit) / tick, tick);
    if 100 * t < limit {
      TooFewShares(maker, limit, t, tick);
    }
  }

  lemma TooFewShares(maker: int, limit: int, t: int, tick: int)
    requires 0 < limit <= SCALE - tick && 0 < tick && tick % 100 == 0
    requires maker >= CENT && 100 * t < limit
    ensures t * limit + limit * (tick / 100) <= maker * SCALE
  {
    var step := tick / 100;
    assert tick == 100 * step;
    assert 100 * (t + step) <= SCALE;
    MulLe(100 * (t + step), SCALE, limit);
    assert 100 * (t * limit + limit * step) == 100 * (t + step) * limit;
    MulLe(limit, SCALE, SCALE);
    MulLe(CENT, maker, SCALE);
  }

  /** The amounts built for a cent or more at an on-tick limit always leave the next
      tick strictly out of reach, so within its notional the order is rejected if and
      only if it asks for fewer shares than the minimum. */
  lemma ExactBuyPassesCheck(maker: int, notional: int, limit: int, minSize: int, tick: int)
    requires OnTick(limit, tick) && limit < SCALE
    requires CENT <= maker <= notional && maker % CENT == 0
    ensures var t := BuyTaker(maker, limit, tick);
            && t > 0 && maker * SCALE < t * (limit + tick)
            && (CheckSignedBuy(maker, t, notional, limit, minSize, tick).Ok? <==> minSize <= t)
  {
    var t, step := BuyTaker(maker, limit, tick), tick / 100;
    BuyTakerBounds(maker, limit, tick);
    EnoughShares(maker, limit, tick);
    assert tick == 100 * step;
    MulLe(limit, 100 * t, step);
    assert limit * step <= t * tick by {
      assert 100 * t * step == t * tick;
    }
    assert t * (limit + tick) == t * limit + t * tick;
  }

  /** The amounts produced from an amount of at least one cent pass the signed check
      up to the minimum size, for each supported precision. */
  lemma BuiltAmountsPassCheck(amount: int, limit: int, priceDigits: nat, minSize: int)
    requires 1 <= priceDigits <= 4 && amount >= CENT
    requires 0 < limit < SCALE && limit % TickOf(priceDigits) == 0
    ensures var r := ExactBuyAmounts(amount, limit, priceDigits, priceDigits + 2);
            && r.Ok?
            && amount - CENT < r.value.0 <= amount
            && (CheckSignedBuy(r.value.0, r.value.1, amount, limit, minSize, TickOf(priceDigits)).Ok?
                <==> minSize <= r.value.1)
  {
    PowersOfTen();
    var tick := TickOf(priceDigits);
    var maker := amount / CENT * CENT;
    FloorMultiple(amount, CENT);
    FloorAtLeast(amount, CENT, 1);
    ExactBuyPassesCheck(maker, amount, limit, minSize, tick);
  }
}
