/** The greedy walk of a BUY over the ask ladder, under an all-in budget and a
    signed quote budget. */
module Ladder {
  import opened Arith
  import opened FeeRules
  import opened OrderTerms
  import opened Sorting

  datatype Level = Level(price: int, qty: int)

  /** Quantities by price; the last one listed for a price is the one that holds. */
  function ByPrice(levels: seq<Level>): map<int, int> {
    if levels == [] then map[]
    else ByPrice(levels[..|levels| - 1])[levels[|levels| - 1].price := levels[|levels| - 1].qty]
  }

  ghost predicate LastListed(levels: seq<Level>, i: nat) {
    i < |levels| && forall j :: i < j < |levels| ==> levels[j].price != levels[i].price
  }

  lemma {:induction false} ByPriceIs(levels: seq<Level>)
    ensures forall p :: p in ByPrice(levels) <==> exists l :: l in levels && l.price == p
    ensures forall p :: p in ByPrice(levels) ==> exists i: nat :: LastListed(levels, i) && levels[i].price == p
    ensures forall i: nat :: LastListed(levels, i) ==>
              levels[i].price in ByPrice(levels) && ByPrice(levels)[levels[i].price] == levels[i].qty
  {
    if levels != [] {
      var n := |levels| - 1;
      var prefix := levels[..n];
      assert levels == prefix + [levels[n]];
      ByPriceIs(prefix);
      assert LastListed(levels, n) && levels[n] in levels;
      forall i: nat | LastListed(levels, i) && i < n
        ensures LastListed(prefix, i)
      {
      }
      forall p | p in ByPrice(prefix) && p != levels[n].price
        ensures exists i: nat :: LastListed(levels, i) && levels[i].price == p
      {
        var i: nat :| LastListed(prefix, i) && prefix[i].price == p;
        assert LastListed(levels, i);
      }
    }
  }

  /** The two preferences that set a target sell price. */
  datatype Markup = Markup(increase: int, multiplier: int)

  datatype Fill = Fill(price: int, gross: int, net: int, amount: int, fee: int, target: int)

  const TARGET_CAP := 990_000

  function TargetPrice(price: int, tick: int, markup: Markup): int
    requires tick > 0
  {
    var raw := Max(price + markup.increase, CeilDiv(price * markup.multiplier, SCALE));
    Min(TARGET_CAP, CeilDiv(raw, tick) * tick)
  }

  /** A price that honours both preferences. */
  predicate Honours(target: int, price: int, markup: Markup) {
    target >= price + markup.increase && target * SCALE >= price * markup.multiplier
  }

  /** The target is the least multiple of the tick that honours both preferences, up to the cap. */
  lemma TargetIsLeast(price: int, tick: int, markup: Markup) returns (least: int)
    requires tick > 0
    ensures least % tick == 0 && Honours(least, price, markup)
    ensures forall other :: other % tick == 0 && Honours(other, price, markup) ==> least <= other
    ensures TargetPrice(price, tick, markup) == if least < TARGET_CAP then least else TARGET_CAP
  {
    var marked := CeilDiv(price * markup.multiplier, SCALE);
    var raw := Max(price + markup.increase, marked);
    var k := CeilDiv(raw, tick);
    least := k * tick;
    MultipleMod(k, tick);
    CeilAtMost(price * markup.multiplier, SCALE, least);
    CeilAtMost(raw, tick, k);
    forall other | other % tick == 0 && Honours(other, price, markup)
      ensures least <= other
    {
      CeilAtMost(price * markup.multiplier, SCALE, other);
      FloorMultiple(other, tick);
      CeilAtMost(raw, tick, other / tick);
      MulLe(k, other / tick, tick);
    }
  }

  predicate LevelLe(a: Level, b: Level) { a.price < b.price || (a.price == b.price && a.qty <= b.qty) }

  function LevelOrder(): (Level, Level) -> bool { (a, b) => LevelLe(a, b) }

  /** The levels a BUY may take, cheapest first. */
  function TakeableLevels(asks: seq<Level>, limit: int): seq<Level> {
    Sort(LevelOrder(), Takeable(asks, limit))
  }

  function Takeable(asks: seq<Level>, limit: int): seq<Level> {
    if asks == [] then []
    else if 0 < asks[0].price <= limit && asks[0].qty > 0 then [asks[0]] + Takeable(asks[1..], limit)
    else Takeable(asks[1..], limit)
  }

  /** All-in cash for `qty` shares at `price`. */
  function AllIn(fees: Fees, price: int, qty: int): int { Cost(price, qty) + fees.Fee(qty, price) }

  /** The greatest quantity up to `cap` whose all-in cash fits, by scanning down. */
  function Greatest(fees: Fees, price: int, cap: int, budget: int): int {
    if cap <= 0 then 0
    else if AllIn(fees, price, cap) <= budget then cap
    else Greatest(fees, price, cap - 1, budget)
  }

  function LevelFill(level: Level, budget: int, quote: int, fees: Fees, tick: int, markup: Markup): Fill
    requires OnTick(level.price, tick)
  {
    var q := Greatest(fees, level.price, Min(level.qty, BuyTaker(quote, level.price, tick)), budget);
    Fill(level.price, q, q, AllIn(fees, level.price, q), fees.Fee(q, level.price),
         TargetPrice(level.price, tick, markup))
  }

  /** The reference walk: one scan per level, in order. */
  function Walk(levels: seq<Level>, budget: int, quote: int, fees: Fees, tick: int, markup: Markup): Result<seq<Fill>> {
    if levels == [] then Ok([])
    else if !OnTick(levels[0].price, tick) then Err("off tick")
    else
      var fill := LevelFill(levels[0], budget, quote, fees, tick, markup);
      if Cost(fill.price, fill.net) <= 0 || fill.net <= 0 then
        Walk(levels[1..], budget, quote, fees, tick, markup)
      else
        var budget', quote' := budget - fill.amount, quote - Cost(fill.price, fill.net);
        if budget' <= 0 || quote' <= 0 then Ok([fill])
        else
          match Walk(levels[1..], budget', quote', fees, tick, markup)
          case Err(e) => Err(e)
          case Ok(rest) => Ok([fill] + rest)
  }

  function Plan(asks: seq<Level>, budget: int, limit: int, minimum: int, fees: Fees, tick: int,
                markup: Markup, quoteBudget: Option<int>): Result<seq<Fill>> {
    var quote := if quoteBudget.Some? then Ok(quoteBudget.value) else SignedNotional(budget, fees, tick, limit);
    if quote.Err? then Err(quote.error)
    else
      var levels := TakeableLevels(asks, limit);
      if levels == [] then Ok([])
      else if !OnTick(levels[0].price, tick) then Err("off tick")
      else if BuyTaker(quote.value, levels[0].price, tick) < minimum then Ok([])
      else Walk(levels, budget, quote.value, fees, tick, markup)
  }

  // ------------------------------------------------------ the binary search

  lemma AllInMonotone(fees: Fees, price: int, less: int, more: int)
    requires price > 0 && 0 <= less <= more
    ensures 0 <= AllIn(fees, price, less) <= AllIn(fees, price, more)
  {
    MulLe(less, more, price);
    MulNonneg(less, price);
    FloorMonotone(price * less, price * more, SCALE);
    FloorAtLeast(price * less, SCALE, 0);
    FeeMonotone(fees, price, less, more);
  }

  lemma FeeMonotone(fees: Fees, price: int, less: int, more: int)
    requires 0 <= less <= more
    ensures 0 <= fees.Fee(less, price) <= fees.Fee(more, price)
  {
    if fees.enabled && 0 < price < SCALE && more > 0 {
      CurvePositive(fees, price);
      TruncatedProductMonotone(less, more, fees.rate, fees.Curve(price), fees.CurveScale());
    }
  }

  lemma CurvePositive(fees: Fees, price: int)
    requires 0 < price < SCALE
    ensures fees.Curve(price) >= 0 && fees.CurveScale() > 0
  {
    MulNonneg(price, SCALE - price);
    PowNonneg(price * (SCALE - price), fees.exponent);
    PowNonneg(SCALE * SCALE, fees.exponent);
  }

  lemma TruncatedProductMonotone(less: int, more: int, r: int, c: int, d: int)
    requires 0 <= less <= more && 0 <= r && 0 <= c && 0 < d
    ensures 0 <= Truncated(less * r * c, d) <= Truncated(more * r * c, d)
  {
    MulLe(less, more, r);
    MulLe(less * r, more * r, c);
    MulNonneg(less, r);
    MulNonneg(less * r, c);
    FloorMonotone(less * r * c, more * r * c, d * 10);
    FloorAtLeast(less * r * c, d * 10, 0);
  }

  /** What the scan returns: it fits, and nothing larger up to the cap does. */
  lemma {:induction false} GreatestFits(fees: Fees, price: int, cap: int, budget: int)
    ensures var q := Greatest(fees, price, cap, budget);
            && 0 <= q <= Max(cap, 0)
            && (q > 0 ==> AllIn(fees, price, q) <= budget)
            && (forall more :: q < more <= cap ==> AllIn(fees, price, more) > budget)
    decreases Max(cap, 0)
  {
    if cap > 0 && AllIn(fees, price, cap) > budget {
      GreatestFits(fees, price, cap - 1, budget);
    }
  }

  lemma GreatestUnique(fees: Fees, price: int, cap: int, budget: int, q: int)
    requires 0 <= q <= cap && (q > 0 ==> AllIn(fees, price, q) <= budget)
    requires forall more :: q < more <= cap ==> AllIn(fees, price, more) > budget
    ensures q == Greatest(fees, price, cap, budget)
  {
    GreatestFits(fees, price, cap, budget);
  }

  /** Halving finds what scanning down finds, because all-in cash never falls as
      the quantity grows. */
  method SearchGreatest(fees: Fees, price: int, cap: int, budget: int) returns (q: int)
    requires price > 0
    ensures q > 0 || Greatest(fees, price, cap, budget) > 0 ==> q == Greatest(fees, price, cap, budget)
  {
    if AllIn(fees, price, cap) <= budget {
      if cap >= 0 {
        GreatestUnique(fees, price, cap, budget, cap);
      }
      return cap;
    }
    var lo, hi := 0, cap;
    while lo < hi
      invariant cap >= 0 ==> 0 <= lo <= hi <= cap
      invariant cap < 0 ==> lo == 0 && hi == cap
      invariant lo > 0 ==> AllIn(fees, price, lo) <= budget
      invariant forall more :: hi < more <= cap ==> AllIn(fees, price, more) > budget
    {
      var candidate := (lo + hi + 1) / 2;
      if AllIn(fees, price, candidate) <= budget {
        lo := candidate;
      } else {
        forall more | candidate <= more <= cap
          ensures AllIn(fees, price, more) > budget
        {
          AllInMonotone(fees, price, candidate, more);
        }
        hi := candidate - 1;
      }
    }
    if cap >= 0 {
      GreatestUnique(fees, price, cap, budget, lo);
    }
    q := lo;
  }

  /** A level that the buy may take. */
  predicate Takes(asks: seq<Level>, limit: int, l: Level) { l in asks && 0 < l.price <= limit && l.qty > 0 }

  /** The cheapest price at which the buy may take anything. */
  ghost predicate Cheapest(asks: seq<Level>, limit: int, price: int) {
    && (exists l :: Takes(asks, limit, l) && l.price == price)
    && (forall l :: Takes(asks, limit, l) ==> price <= l.price)
  }

  /** What a plan buys. Prices never fall, both budgets hold, each fill is the greatest that
      its level, the quote and the cash left at that point admit, and every level passed by,
      cheaper than a fill or with cash left over at the end, could sell nothing then. */
  ghost predicate Buys(asks: seq<Level>, limit: int, budget: int, quote: int, fees: Fees, tick: int, markup: Markup,
                       fills: seq<Fill>)
  {
    && (forall i, j :: 0 <= i < j < |fills| ==> fills[i].price <= fills[j].price)
    && 0 <= Quoted(fills) <= Max(quote, 0) && Spent(fills) <= Max(budget, 0)
    && (forall i: nat :: i < |fills| ==> GreatestOfSome(asks, limit, fills, i, budget, quote, fees, tick, markup))
    && (forall l, i: nat :: Takes(asks, limit, l) && i <= |fills| ==> PassedRightly(fills, i, budget, quote, fees, tick, l))
  }

  ghost predicate GreatestOfSome(asks: seq<Level>, limit: int, fills: seq<Fill>, i: nat, budget: int, quote: int,
                                 fees: Fees, tick: int, markup: Markup)
    requires i < |fills|
  {
    exists l :: Takes(asks, limit, l) && GreatestAt(fills, i, l, budget, quote, fees, tick, markup)
  }

  ghost predicate PassedRightly(fills: seq<Fill>, i: nat, budget: int, quote: int, fees: Fees, tick: int, l: Level)
    requires i <= |fills|
  {
    Passed(fills, i, budget, quote, l) ==>
      BuysNothing(l, budget - Spent(fills[..i]), quote - Quoted(fills[..i]), fees, tick)
  }

  /** The whole answer. Nothing is bought where no level may be taken, and where the shares
      that the quote buys at the cheapest price are below the minimum; otherwise the plan
      buys, and it fails only over a level that is off the tick grid. */
  ghost predicate PlanIs(asks: seq<Level>, budget: int, limit: int, minimum: int, fees: Fees, tick: int, markup: Markup,
                         quote: Result<int>, r: Result<seq<Fill>>)
  {
    && (quote.Err? ==> r.Err?)
    && (quote.Ok? && (forall l :: !Takes(asks, limit, l)) ==> r == Ok([]))
    && (forall p :: quote.Ok? && Cheapest(asks, limit, p) ==>
          if !OnTick(p, tick) then r.Err?
          else if BuyTaker(quote.value, p, tick) < minimum then r == Ok([])
          else if r.Ok? then Buys(asks, limit, budget, quote.value, fees, tick, markup, r.value)
          else exists l :: Takes(asks, limit, l) && !OnTick(l.price, tick))
  }

  method PlanBuy(asks: seq<Level>, budget: int, limit: int, minimum: int, fees: Fees, tick: int,
                 markup: Markup, quoteBudget: Option<int>) returns (r: Result<seq<Fill>>)
    ensures r.Ok? <==> Plan(asks, budget, limit, minimum, fees, tick, markup, quoteBudget).Ok?
    ensures r.Ok? ==> r == Plan(asks, budget, limit, minimum, fees, tick, markup, quoteBudget)
    ensures PlanIs(asks, budget, limit, minimum, fees, tick, markup,
                   if quoteBudget.Some? then Ok(quoteBudget.value) else SignedNotional(budget, fees, tick, limit), r)
  {
    hide PlanIs;
    PlanTells(asks, budget, limit, minimum, fees, tick, markup, quoteBudget);
    var quote: int;
    match quoteBudget {
      case Some(given) => quote := given;
      case None =>
        var signed := SignedBuyNotional(budget, fees, tick, limit);
        if signed.Err? {
          AnyFailure(asks, budget, limit, minimum, fees, tick, markup, SignedNotional(budget, fees, tick, limit),
                     SignedNotional(budget, fees, tick, limit).error, signed.error);
          return Err(signed.error);
        }
        quote := signed.value;
    }
    var levels := TakeableLevels(asks, limit);
    TakeableSorted(asks, limit);
    if levels == [] {
      return Ok([]);
    }
    if !OnTick(levels[0].price, tick) {
      return Err("off tick");
    }
    if BuyTaker(quote, levels[0].price, tick) < minimum {
      return Ok([]);
    }
    r := WalkLevels(levels, budget, quote, fees, tick, markup);
  }

  /** The loop over the sorted levels. */
  method WalkLevels(levels: seq<Level>, allIn: int, signed: int, fees: Fees, tick: int, markup: Markup)
    returns (r: Result<seq<Fill>>)
    requires forall i :: 0 <= i < |levels| ==> levels[i].price > 0
    ensures r == Walk(levels, allIn, signed, fees, tick, markup)
  {
    var budget, quote, fills, i := allIn, signed, [], 0;
    ghost var whole := Walk(levels, budget, quote, fees, tick, markup);
    assert levels[0..] == levels;
    assert whole.Ok? ==> [] + whole.value == whole.value;
    while i < |levels|
      invariant 0 <= i <= |levels|
      invariant Prefixed(fills, Walk(levels[i..], budget, quote, fees, tick, markup)) == whole
    {
      var p, depth := levels[i].price, levels[i].qty;
      assert levels[i..][0] == levels[i] && levels[i..][1..] == levels[i + 1..];
      if !OnTick(p, tick) {
        return Err("off tick");
      }
      var q := SearchGreatest(fees, p, Min(depth, BuyTaker(quote, p, tick)), budget);
      var amount, fee := Cost(p, q), fees.Fee(q, p);
      var total := amount + fee;
      ghost var rest := levels[i..];
      i := i + 1;
      if amount <= 0 || q <= 0 {
        WalkSkips(rest, budget, quote, fees, tick, markup);
        continue;
      }
      var fill := Fill(p, q, q, total, fee, TargetPrice(p, tick, markup));
      assert fill == LevelFill(rest[0], budget, quote, fees, tick, markup);
      WalkTakes(rest, budget, quote, fees, tick, markup, fills);
      fills := fills + [fill];
      budget := budget - total;
      quote := quote - amount;
      if budget <= 0 || quote <= 0 {
        return Ok(fills);
      }
    }
    assert levels[i..] == [] && fills + [] == fills;
    r := Ok(fills);
  }

  lemma WalkSkips(levels: seq<Level>, budget: int, quote: int, fees: Fees, tick: int, markup: Markup)
    requires levels != [] && OnTick(levels[0].price, tick)
    requires var f := LevelFill(levels[0], budget, quote, fees, tick, markup);
             f.net <= 0 || Cost(f.price, f.net) <= 0
    ensures Walk(levels, budget, quote, fees, tick, markup) == Walk(levels[1..], budget, quote, fees, tick, markup)
  {
  }

  lemma WalkTakes(levels: seq<Level>, budget: int, quote: int, fees: Fees, tick: int, markup: Markup,
                  fills: seq<Fill>)
    requires levels != [] && OnTick(levels[0].price, tick)
    requires var f := LevelFill(levels[0], budget, quote, fees, tick, markup);
             f.net > 0 && Cost(f.price, f.net) > 0
    ensures var f := LevelFill(levels[0], budget, quote, fees, tick, markup);
            var budget', quote' := budget - f.amount, quote - Cost(f.price, f.net);
            Prefixed(fills, Walk(levels, budget, quote, fees, tick, markup))
            == if budget' <= 0 || quote' <= 0 then Ok(fills + [f])
               else Prefixed(fills + [f], Walk(levels[1..], budget', quote', fees, tick, markup))
  {
    var f := LevelFill(levels[0], budget, quote, fees, tick, markup);
    var tail := Walk(levels[1..], budget - f.amount, quote - Cost(f.price, f.net), fees, tick, markup);
    if tail.Ok? {
      assert fills + ([f] + tail.value) == fills + [f] + tail.value;
    }
  }

  ghost function Prefixed(fills: seq<Fill>, rest: Result<seq<Fill>>): Result<seq<Fill>> {
    match rest
    case Err(e) => Err(e)
    case Ok(more) => Ok(fills + more)
  }

  lemma NoSharesNoCost(price: int, qty: int)
    requires price > 0 && qty <= 0
    ensures Cost(price, qty) <= 0
  {
    MulLe(qty, 0, price);
    FloorMonotone(price * qty, 0, SCALE);
  }

  // ------------------------------------------------------ what a plan keeps

  lemma LevelOrderIsTotal()
    ensures TotalPreorder(LevelOrder())
  {
  }

  lemma {:induction false} TakeableElements(asks: seq<Level>, limit: int)
    ensures forall l :: l in Takeable(asks, limit) <==> l in asks && 0 < l.price <= limit && l.qty > 0
  {
    if asks != [] {
      assert asks == [asks[0]] + asks[1..];
      TakeableElements(asks[1..], limit);
    }
  }

  lemma TakeableSorted(asks: seq<Level>, limit: int)
    ensures SortedBy(LevelOrder(), TakeableLevels(asks, limit))
    ensures forall l :: l in TakeableLevels(asks, limit) <==> l in asks && 0 < l.price <= limit && l.qty > 0
  {
    LevelOrderIsTotal();
    SortSorts(LevelOrder(), Takeable(asks, limit));
    SortKeepsElements(LevelOrder(), Takeable(asks, limit));
    TakeableElements(asks, limit);
  }

  function Spent(fills: seq<Fill>): int { if fills == [] then 0 else fills[0].amount + Spent(fills[1..]) }

  function Quoted(fills: seq<Fill>): int {
    if fills == [] then 0 else Cost(fills[0].price, fills[0].net) + Quoted(fills[1..])
  }

  predicate DistinctPrices(levels: seq<Level>) {
    forall i, j :: 0 <= i < j < |levels| ==> levels[i].price != levels[j].price
  }

  ghost predicate PositiveLevels(levels: seq<Level>) {
    forall i :: 0 <= i < |levels| ==> levels[i].price > 0 && levels[i].qty > 0
  }

  lemma LevelFillBounds(level: Level, budget: int, quote: int, fees: Fees, tick: int, markup: Markup)
    requires OnTick(level.price, tick)
    ensures var f := LevelFill(level, budget, quote, fees, tick, markup);
            f.net > 0 ==>
              && f.net <= level.qty && f.amount <= budget && Cost(f.price, f.net) <= quote
              && 0 <= f.fee && 0 <= Cost(f.price, f.net)
  {
    var p, taker := level.price, BuyTaker(quote, level.price, tick);
    var f := LevelFill(level, budget, quote, fees, tick, markup);
    GreatestFits(fees, p, Min(level.qty, taker), budget);
    if f.net > 0 {
      BuyTakerBounds(quote, p, tick);
      MulLe(f.net, taker, p);
      FloorMonotone(p * f.net, quote * SCALE, SCALE);
      MultipleMod(quote, SCALE);
      AllInMonotone(fees, p, 0, f.net);
      FeeMonotone(fees, p, 0, f.net);
      MulNonneg(p, f.net);
      FloorAtLeast(p * f.net, SCALE, 0);
    }
  }

  /** A walk never spends more than its all-in budget nor more than its quote. */
  lemma {:induction false} WalkWithinBudgets(levels: seq<Level>, budget: int, quote: int, fees: Fees,
                                             tick: int, markup: Markup)
    requires Walk(levels, budget, quote, fees, tick, markup).Ok?
    ensures var fills := Walk(levels, budget, quote, fees, tick, markup).value;
            && 0 <= Quoted(fills) <= Spent(fills)
            && Spent(fills) <= Max(budget, 0) && Quoted(fills) <= Max(quote, 0)
            && (forall i :: 0 <= i < |fills| ==> fills[i].net > 0 && fills[i].amount > 0)
  {
    if levels != [] {
      var fill := LevelFill(levels[0], budget, quote, fees, tick, markup);
      LevelFillBounds(levels[0], budget, quote, fees, tick, markup);
      var amount := Cost(fill.price, fill.net);
      if amount <= 0 || fill.net <= 0 {
        WalkWithinBudgets(levels[1..], budget, quote, fees, tick, markup);
      } else if budget - fill.amount > 0 && quote - amount > 0 {
        WalkWithinBudgets(levels[1..], budget - fill.amount, quote - amount, fees, tick, markup);
        var rest := Walk(levels[1..], budget - fill.amount, quote - amount, fees, tick, markup).value;
        assert ([fill] + rest)[1..] == rest;
      } else {
        assert [fill][1..] == [];
      }
    }
  }

  /** The level that a fill came from, with what is left after the fills before it:
      the fill takes the greatest quantity that the level's depth, the remaining
      quote's share division and the remaining budget allow together. */
  ghost predicate GreatestAt(fills: seq<Fill>, i: nat, level: Level, budget: int, quote: int, fees: Fees,
                             tick: int, markup: Markup)
    requires i < |fills|
  {
    var f, left, leftQuote := fills[i], budget - Spent(fills[..i]), quote - Quoted(fills[..i]);
    && OnTick(level.price, tick) && f.price == level.price
    && f.gross == f.net && f.fee == fees.Fee(f.net, f.price) && f.amount == Cost(f.price, f.net) + f.fee
    && f.target == TargetPrice(f.price, tick, markup) && Cost(f.price, f.net) > 0
    && 0 < f.net <= level.qty && f.net <= BuyTaker(leftQuote, f.price, tick) && f.amount <= left
    && forall more :: f.net < more <= Min(level.qty, BuyTaker(leftQuote, f.price, tick)) ==>
         AllIn(fees, f.price, more) > left
  }

  lemma {:induction false} EveryFillIsGreatest(levels: seq<Level>, budget: int, quote: int, fees: Fees,
                                               tick: int, markup: Markup, i: nat) returns (k: nat)
    ensures var walk := Walk(levels, budget, quote, fees, tick, markup);
            walk.Ok? && i < |walk.value| ==>
              i <= k < |levels| && GreatestAt(walk.value, i, levels[k], budget, quote, fees, tick, markup)
    decreases |levels|
  {
    hide Fees.Fee, Cost, BuyTaker;
    k := 0;
    var walk := Walk(levels, budget, quote, fees, tick, markup);
    if walk.Ok? && i < |walk.value| {
      var fill := LevelFill(levels[0], budget, quote, fees, tick, markup);
      var amount := Cost(fill.price, fill.net);
      if amount <= 0 || fill.net <= 0 {
        k := EveryFillIsGreatest(levels[1..], budget, quote, fees, tick, markup, i);
        k := k + 1;
      } else if i == 0 {
        assert walk.value[..0] == [];
        GreatestFits(fees, fill.price, Min(levels[0].qty, BuyTaker(quote, fill.price, tick)), budget);
      } else {
        k := EveryFillIsGreatest(levels[1..], budget - fill.amount, quote - amount, fees, tick, markup, i - 1);
        k := k + 1;
        var rest := Walk(levels[1..], budget - fill.amount, quote - amount, fees, tick, markup).value;
        GreatestBehind(fill, rest, i, levels[k], budget, quote, fees, tick, markup);
      }
    }
  }

  lemma GreatestBehind(fill: Fill, rest: seq<Fill>, i: nat, level: Level, budget: int, quote: int, fees: Fees,
                       tick: int, markup: Markup)
    requires 0 < i <= |rest|
    requires GreatestAt(rest, i - 1, level, budget - fill.amount, quote - Cost(fill.price, fill.net),
                        fees, tick, markup)
    ensures GreatestAt([fill] + rest, i, level, budget, quote, fees, tick, markup)
  {
    var fills := [fill] + rest;
    assert fills[..i] == [fill] + rest[..i - 1];
    assert fills[..i][1..] == rest[..i - 1];
    assert fills[i] == rest[i - 1];
  }

  /** Fills come from ever later levels, so over distinct ascending prices they ascend strictly. */
  lemma {:induction false} WalkAscends(levels: seq<Level>, budget: int, quote: int, fees: Fees, tick: int,
                                       markup: Markup)
    requires Walk(levels, budget, quote, fees, tick, markup).Ok?
    requires SortedBy(LevelOrder(), levels) && DistinctPrices(levels)
    ensures var fills := Walk(levels, budget, quote, fees, tick, markup).value;
            && (forall i :: 0 <= i < |fills| ==> exists l :: l in levels && l.price == fills[i].price)
            && (forall i, j :: 0 <= i < j < |fills| ==> fills[i].price < fills[j].price)
  {
    if levels != [] {
      var fills := Walk(levels, budget, quote, fees, tick, markup).value;
      var fill := LevelFill(levels[0], budget, quote, fees, tick, markup);
      var amount := Cost(fill.price, fill.net);
      forall l | l in levels[1..]
        ensures levels[0].price < l.price
      {
        var k :| 0 <= k < |levels[1..]| && levels[1..][k] == l;
        assert levels[k + 1] == l;
        assert LevelOrder()(levels[0], levels[k + 1]);
      }
      if amount <= 0 || fill.net <= 0 {
        WalkAscends(levels[1..], budget, quote, fees, tick, markup);
      } else if budget - fill.amount > 0 && quote - amount > 0 {
        WalkAscends(levels[1..], budget - fill.amount, quote - amount, fees, tick, markup);
        var rest := Walk(levels[1..], budget - fill.amount, quote - amount, fees, tick, markup).value;
        assert fills == [fill] + rest;
      } else {
        assert fills == [fill];
      }
      assert levels[0] in levels;
    }
  }

  lemma GreatestMonotone(fees: Fees, price: int, cap: int, cap': int, budget: int, budget': int)
    requires price > 0 && cap <= cap' && budget <= budget'
    ensures Greatest(fees, price, cap, budget) <= Greatest(fees, price, cap', budget')
  {
    GreatestFits(fees, price, cap, budget);
    GreatestFits(fees, price, cap', budget');
  }

  /** Whether a level could still sell something that costs at least one micro-unit. */
  ghost predicate CanBuy(level: Level, budget: int, quote: int, fees: Fees, tick: int)
    requires OnTick(level.price, tick)
  {
    Cost(level.price, Greatest(fees, level.price, Min(level.qty, BuyTaker(quote, level.price, tick)), budget)) > 0
  }

  lemma CanBuyMonotone(level: Level, budget: int, quote: int, budget': int, quote': int, fees: Fees, tick: int)
    requires OnTick(level.price, tick) && budget <= budget' && quote <= quote'
    requires CanBuy(level, budget, quote, fees, tick)
    ensures CanBuy(level, budget', quote', fees, tick)
  {
    var p := level.price;
    BuyTakerMonotone(quote, quote', p, tick);
    var cap, cap' := Min(level.qty, BuyTaker(quote, p, tick)), Min(level.qty, BuyTaker(quote', p, tick));
    GreatestMonotone(fees, p, cap, cap', budget, budget');
    var q, q' := Greatest(fees, p, cap, budget), Greatest(fees, p, cap', budget');
    MulLe(q, q', p);
    FloorMonotone(p * q, p * q', SCALE);
  }

  /** A level that takes nothing could take nothing with less cash either. */
  lemma SkippedCannotBuy(level: Level, budget: int, quote: int, spent: int, quoted: int, fees: Fees, tick: int,
                         markup: Markup)
    requires OnTick(level.price, tick) && 0 <= spent && 0 <= quoted
    ensures var fill := LevelFill(level, budget, quote, fees, tick, markup);
            Cost(fill.price, fill.net) <= 0 || fill.net <= 0 ==> !CanBuy(level, budget - spent, quote - quoted, fees, tick)
  {
    var fill := LevelFill(level, budget, quote, fees, tick, markup);
    if CanBuy(level, budget - spent, quote - quoted, fees, tick) {
      CanBuyMonotone(level, budget - spent, quote - quoted, budget, quote, fees, tick);
      NoSharesNoCost(fill.price, Min(fill.net, 0));
    }
  }

  lemma LevelFillPrice(level: Level, budget: int, quote: int, fees: Fees, tick: int, markup: Markup)
    requires OnTick(level.price, tick)
    ensures LevelFill(level, budget, quote, fees, tick, markup).price == level.price
  {
  }

  /** A level the fills do not touch and that was passed by: cheaper than the fill at `i`,
      or with cash and quote left over once all fills are done. */
  ghost predicate Passed(fills: seq<Fill>, i: nat, budget: int, quote: int, level: Level) {
    && i <= |fills| && (forall j :: 0 <= j < |fills| ==> fills[j].price != level.price)
    && if i < |fills| then level.price < fills[i].price else budget - Spent(fills) > 0 && quote - Quoted(fills) > 0
  }

  /** No quantity of the level that quote and cash admit costs anything. */
  ghost predicate BuysNothing(level: Level, budget: int, quote: int, fees: Fees, tick: int) {
    && OnTick(level.price, tick)
    && forall q :: 0 < q <= Min(level.qty, BuyTaker(quote, level.price, tick)) && AllIn(fees, level.price, q) <= budget ==>
         Cost(level.price, q) <= 0
  }

  lemma CannotBuy(level: Level, budget: int, quote: int, fees: Fees, tick: int)
    requires OnTick(level.price, tick) && !CanBuy(level, budget, quote, fees, tick)
    ensures BuysNothing(level, budget, quote, fees, tick)
  {
    hide BuyTaker, AllIn;
    var p, cap := level.price, Min(level.qty, BuyTaker(quote, level.price, tick));
    var g := Greatest(fees, p, cap, budget);
    GreatestFits(fees, p, cap, budget);
    forall q | 0 < q <= cap && AllIn(fees, p, q) <= budget
      ensures Cost(p, q) <= 0
    {
      MulLe(q, g, p);
      FloorMonotone(p * q, p * g, SCALE);
    }
  }

  lemma TotalsBehind(fill: Fill, rest: seq<Fill>, i: nat)
    requires 0 < i <= |rest| + 1
    ensures var fills := [fill] + rest;
            && Spent(fills[..i]) == fill.amount + Spent(rest[..i - 1])
            && Quoted(fills[..i]) == Cost(fill.price, fill.net) + Quoted(rest[..i - 1])
  {
    hide Cost;
    assert ([fill] + rest)[..i] == [fill] + rest[..i - 1];
    assert ([fill] + rest[..i - 1])[1..] == rest[..i - 1];
  }

  lemma {:induction false} TotalsNonneg(fills: seq<Fill>)
    requires forall i :: 0 <= i < |fills| ==> fills[i].net > 0 && fills[i].price > 0 && fills[i].amount > 0
    ensures 0 <= Spent(fills) && 0 <= Quoted(fills)
  {
    if fills != [] {
      MulNonneg(fills[0].price, fills[0].net);
      FloorAtLeast(fills[0].price * fills[0].net, SCALE, 0);
      TotalsNonneg(fills[1..]);
    }
  }

  lemma {:induction false} WalkPrices(levels: seq<Level>, budget: int, quote: int, fees: Fees, tick: int, markup: Markup)
    requires Walk(levels, budget, quote, fees, tick, markup).Ok?
    ensures forall f :: f in Walk(levels, budget, quote, fees, tick, markup).value ==>
              f.price > 0 && exists l :: l in levels && l.price == f.price
  {
    hide Cost, Greatest, BuyTaker, AllIn, Fees.Fee, TargetPrice;
    if levels != [] {
      var fill := LevelFill(levels[0], budget, quote, fees, tick, markup);
      assert levels == [levels[0]] + levels[1..];
      if Cost(fill.price, fill.net) <= 0 || fill.net <= 0 {
        WalkPrices(levels[1..], budget, quote, fees, tick, markup);
      } else if budget - fill.amount > 0 && quote - Cost(fill.price, fill.net) > 0 {
        WalkPrices(levels[1..], budget - fill.amount, quote - Cost(fill.price, fill.net), fees, tick, markup);
      }
    }
  }

  /** A level that is passed by could sell nothing for what is left at that point; at the
      end cash is left over only when no untouched level could have taken any of it. */
  lemma {:induction false} LeftoverBuysNothing(levels: seq<Level>, budget: int, quote: int, fees: Fees,
                                               tick: int, markup: Markup, level: Level, i: nat)
    requires SortedBy(LevelOrder(), levels) && level in levels
    requires Walk(levels, budget, quote, fees, tick, markup).Ok?
    requires i <= |Walk(levels, budget, quote, fees, tick, markup).value|
    requires Passed(Walk(levels, budget, quote, fees, tick, markup).value, i, budget, quote, level)
    ensures var fills := Walk(levels, budget, quote, fees, tick, markup).value;
            BuysNothing(level, budget - Spent(fills[..i]), quote - Quoted(fills[..i]), fees, tick)
  {
    hide Fees.Fee, CanBuy, LevelFill, BuyTaker, Cost, BuysNothing, Greatest, OnTick, Passed, Spent, Quoted, SortedBy;
    var fills := Walk(levels, budget, quote, fees, tick, markup).value;
    var fill := LevelFill(levels[0], budget, quote, fees, tick, markup);
    var amount := Cost(fill.price, fill.net);
    LevelFillPrice(levels[0], budget, quote, fees, tick, markup);
    assert levels == [levels[0]] + levels[1..];
    if amount <= 0 || fill.net <= 0 {
      if level == levels[0] {
        WalkWithinBudgets(levels, budget, quote, fees, tick, markup);
        WalkPrices(levels, budget, quote, fees, tick, markup);
        TotalsNonneg(fills[..i]);
        SkippedCannotBuy(level, budget, quote, Spent(fills[..i]), Quoted(fills[..i]), fees, tick, markup);
        CannotBuy(level, budget - Spent(fills[..i]), quote - Quoted(fills[..i]), fees, tick);
      } else {
        SortedRest(levels);
        LeftoverBuysNothing(levels[1..], budget, quote, fees, tick, markup, level, i);
      }
    } else {
      assert fills[0] == fill && fills == [fill] + fills[1..];
      NotCheaper(levels, level);
      PassedBehind(fill, fills[1..], i, budget, quote, level);
      if budget - fill.amount > 0 && quote - amount > 0 {
        SortedRest(levels);
        LeftoverBuysNothing(levels[1..], budget - fill.amount, quote - amount, fees, tick, markup, level, i - 1);
        TotalsBehind(fill, fills[1..], i);
      }
    }
  }

  lemma PassedBehind(fill: Fill, rest: seq<Fill>, i: nat, budget: int, quote: int, level: Level)
    requires Passed([fill] + rest, i, budget, quote, level) && fill.price <= level.price
    ensures i > 0 && level.price != fill.price
    ensures Passed(rest, i - 1, budget - fill.amount, quote - Cost(fill.price, fill.net), level)
    ensures rest == [] ==> budget - fill.amount > 0 && quote - Cost(fill.price, fill.net) > 0
  {
    hide Cost;
    var fills := [fill] + rest;
    assert fills[0] == fill && fills[1..] == rest;
    assert forall j :: 0 <= j < |rest| ==> rest[j] == fills[j + 1];
  }

  lemma SortedRest(levels: seq<Level>)
    requires SortedBy(LevelOrder(), levels) && levels != []
    ensures SortedBy(LevelOrder(), levels[1..])
  {
  }

  lemma NotCheaper(levels: seq<Level>, level: Level)
    requires SortedBy(LevelOrder(), levels) && level in levels
    ensures levels[0].price <= level.price
  {
    var k :| 0 <= k < |levels| && levels[k] == level;
    assert k > 0 ==> LevelOrder()(levels[0], levels[k]);
  }

  lemma {:induction false} SpentPrefix(fills: seq<Fill>, n: nat)
    requires n <= |fills| && forall i :: 0 <= i < |fills| ==> fills[i].amount > 0
    ensures 0 <= Spent(fills[..n]) <= Spent(fills)
    decreases n
  {
    if fills != [] && n > 0 {
      assert fills[..n][1..] == fills[1..][..n - 1];
      SpentPrefix(fills[1..], n - 1);
    } else if fills != [] {
      assert fills[1..][..0] == [];
      SpentRest(fills);
    }
  }

  lemma {:induction false} SpentRest(fills: seq<Fill>)
    requires forall i :: 0 <= i < |fills| ==> fills[i].amount > 0
    ensures 0 <= Spent(fills)
  {
    if fills != [] {
      SpentRest(fills[1..]);
    }
  }

  lemma {:induction false} WalkFails(levels: seq<Level>, budget: int, quote: int, fees: Fees, tick: int, markup: Markup)
    requires Walk(levels, budget, quote, fees, tick, markup).Err?
    ensures exists l :: l in levels && !OnTick(l.price, tick)
  {
    hide Cost, Greatest, BuyTaker, AllIn, Fees.Fee, TargetPrice;
    assert levels == [levels[0]] + levels[1..];
    if OnTick(levels[0].price, tick) {
      var fill := LevelFill(levels[0], budget, quote, fees, tick, markup);
      if Cost(fill.price, fill.net) <= 0 || fill.net <= 0 {
        WalkFails(levels[1..], budget, quote, fees, tick, markup);
      } else {
        WalkFails(levels[1..], budget - fill.amount, quote - Cost(fill.price, fill.net), fees, tick, markup);
      }
    }
  }

  /** Over levels in order the prices of the fills never fall. */
  lemma {:induction false} WalkNeverFalls(levels: seq<Level>, budget: int, quote: int, fees: Fees, tick: int, markup: Markup)
    requires Walk(levels, budget, quote, fees, tick, markup).Ok? && SortedBy(LevelOrder(), levels)
    ensures var fills := Walk(levels, budget, quote, fees, tick, markup).value;
            forall i, j :: 0 <= i < j < |fills| ==> fills[i].price <= fills[j].price
  {
    hide Cost, Greatest, BuyTaker, AllIn, Fees.Fee, TargetPrice, SortedBy;
    if levels != [] {
      SortedRest(levels);
      var fill := LevelFill(levels[0], budget, quote, fees, tick, markup);
      var amount := Cost(fill.price, fill.net);
      if amount <= 0 || fill.net <= 0 {
        WalkNeverFalls(levels[1..], budget, quote, fees, tick, markup);
      } else if budget - fill.amount > 0 && quote - amount > 0 {
        var rest := Walk(levels[1..], budget - fill.amount, quote - amount, fees, tick, markup).value;
        WalkNeverFalls(levels[1..], budget - fill.amount, quote - amount, fees, tick, markup);
        WalkPrices(levels[1..], budget - fill.amount, quote - amount, fees, tick, markup);
        forall f | f in rest
          ensures levels[0].price <= f.price
        {
          var l :| l in levels[1..] && l.price == f.price;
          NotCheaper(levels, l);
        }
      }
    }
  }

  lemma WalkBuys(asks: seq<Level>, limit: int, budget: int, quote: int, fees: Fees, tick: int, markup: Markup)
    requires Walk(TakeableLevels(asks, limit), budget, quote, fees, tick, markup).Ok?
    ensures Buys(asks, limit, budget, quote, fees, tick, markup,
                 Walk(TakeableLevels(asks, limit), budget, quote, fees, tick, markup).value)
  {
    hide Walk, GreatestAt, Passed, BuysNothing, TakeableLevels, SortedBy;
    var levels := TakeableLevels(asks, limit);
    var fills := Walk(levels, budget, quote, fees, tick, markup).value;
    TakeableSorted(asks, limit);
    WalkNeverFalls(levels, budget, quote, fees, tick, markup);
    WalkWithinBudgets(levels, budget, quote, fees, tick, markup);
    forall i: nat | i < |fills|
      ensures GreatestOfSome(asks, limit, fills, i, budget, quote, fees, tick, markup)
    {
      var k := EveryFillIsGreatest(levels, budget, quote, fees, tick, markup, i);
      assert Takes(asks, limit, levels[k]);
    }
    forall l, i: nat | Takes(asks, limit, l) && i <= |fills|
      ensures PassedRightly(fills, i, budget, quote, fees, tick, l)
    {
      if Passed(fills, i, budget, quote, l) {
        LeftoverBuysNothing(levels, budget, quote, fees, tick, markup, l, i);
      }
    }
  }

  lemma AnyFailure(asks: seq<Level>, budget: int, limit: int, minimum: int, fees: Fees, tick: int, markup: Markup,
                   quote: Result<int>, one: string, other: string)
    requires PlanIs(asks, budget, limit, minimum, fees, tick, markup, quote, Err(one))
    ensures PlanIs(asks, budget, limit, minimum, fees, tick, markup, quote, Err(other))
  {
    hide Buys;
  }

  /** The reference plan is what a plan should be. */
  lemma PlanTells(asks: seq<Level>, budget: int, limit: int, minimum: int, fees: Fees, tick: int, markup: Markup,
                  quoteBudget: Option<int>)
    ensures PlanIs(asks, budget, limit, minimum, fees, tick, markup,
                   if quoteBudget.Some? then Ok(quoteBudget.value) else SignedNotional(budget, fees, tick, limit),
                   Plan(asks, budget, limit, minimum, fees, tick, markup, quoteBudget))
  {
    hide Walk, Buys, TakeableLevels, SortedBy, SignedNotional, BuyTaker, OnTick;
    var quote := if quoteBudget.Some? then Ok(quoteBudget.value) else SignedNotional(budget, fees, tick, limit);
    var levels := TakeableLevels(asks, limit);
    TakeableSorted(asks, limit);
    if quote.Ok? && levels != [] {
      assert Takes(asks, limit, levels[0]);
      forall p | Cheapest(asks, limit, p)
        ensures p == levels[0].price
      {
        var l :| Takes(asks, limit, l) && l.price == p;
        NotCheaper(levels, l);
      }
      var walk := Walk(levels, budget, quote.value, fees, tick, markup);
      if walk.Ok? {
        WalkBuys(asks, limit, budget, quote.value, fees, tick, markup);
      } else {
        WalkFails(levels, budget, quote.value, fees, tick, markup);
        var l :| l in levels && !OnTick(l.price, tick);
        assert Takes(asks, limit, l);
      }
    }
  }

  /** A plan executed one fill after the other stays within the cash at every fill. */
  lemma PlanFitsFillByFill(asks: seq<Level>, budget: int, limit: int, minimum: int, fees: Fees, tick: int,
                           markup: Markup, quoteBudget: Option<int>, n: nat)
    ensures var plan := Plan(asks, budget, limit, minimum, fees, tick, markup, quoteBudget);
            plan.Ok? && n <= |plan.value| ==> 0 <= Spent(plan.value[..n]) <= Max(budget, 0)
  {
    var plan := Plan(asks, budget, limit, minimum, fees, tick, markup, quoteBudget);
    if plan.Ok? && n <= |plan.value| && plan.value != [] {
      var quote := if quoteBudget.Some? then quoteBudget.value else SignedNotional(budget, fees, tick, limit).value;
      WalkWithinBudgets(TakeableLevels(asks, limit), budget, quote, fees, tick, markup);
      SpentPrefix(plan.value, n);
    }
  }

  /** Everything a caller of `PlanBuy` relies on, with the quote left to the fee-safe rule. */
  lemma PlanKeepsBudget(asks: seq<Level>, budget: int, limit: int, minimum: int, fees: Fees, tick: int, markup: Markup)
    requires Plan(asks, budget, limit, minimum, fees, tick, markup, None).Ok?
    ensures var fills := Plan(asks, budget, limit, minimum, fees, tick, markup, None).value;
            && Spent(fills) <= Max(budget, 0)
            && Quoted(fills) <= Max(0, SignedNotional(budget, fees, tick, limit).value)
            && forall i :: 0 <= i < |fills| ==>
                 && fills[i].net > 0 && fills[i].amount > 0 && 0 < fills[i].price <= limit
                 && exists l :: l in asks && l.price == fills[i].price && fills[i].net <= l.qty
  {
    var fills := Plan(asks, budget, limit, minimum, fees, tick, markup, None).value;
    if fills != [] {
      var quote, levels := SignedNotional(budget, fees, tick, limit).value, TakeableLevels(asks, limit);
      WalkWithinBudgets(levels, budget, quote, fees, tick, markup);
      TakeableSorted(asks, limit);
      forall i | 0 <= i < |fills|
        ensures 0 < fills[i].price <= limit
        ensures exists l :: l in asks && l.price == fills[i].price && fills[i].net <= l.qty
      {
        var k := EveryFillIsGreatest(levels, budget, quote, fees, tick, markup, i);
        assert levels[k] in asks;
      }
    }
  }
}
