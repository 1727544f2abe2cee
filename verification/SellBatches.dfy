/** Grouping of target sells over shared bid depth, for the decision and for the
    simulated execution of the order it submits. */
module SellBatching {
  import opened Arith
  import opened FeeRules
  import opened OrderTerms
  import opened Sorting
  import opened Ladder

  datatype Target = Target(id: string, price: int, qty: int, created: int)

  datatype SellBatch = SellBatch(targets: seq<Target>, limit: int, quantity: int, fills: seq<Fill>)

  type Depth = map<int, int>

  // ---------------------------------------------------------------- orders

  predicate TargetLe(a: Target, b: Target) {
    || a.price < b.price
    || (a.price == b.price && (a.created < b.created || (a.created == b.created && TextLe(a.id, b.id))))
  }

  function TargetOrder(): (Target, Target) -> bool { (a, b) => TargetLe(a, b) }

  lemma TargetOrderIsTotal()
    ensures TotalPreorder(TargetOrder())
  {
    forall a, b
      ensures TargetOrder()(a, b) || TargetOrder()(b, a)
    {
      TextLeTotal(a.id, b.id);
    }
    forall a, b, c | TargetOrder()(a, b) && TargetOrder()(b, c)
      ensures TargetOrder()(a, c)
    {
      if TextLe(a.id, b.id) && TextLe(b.id, c.id) {
        TextLeTransitive(a.id, b.id, c.id);
      }
    }
  }

  function Descending(): (int, int) -> bool { (a, b) => a >= b }

  // ---------------------------------------------------------------- depth

  function DistinctOnly(bids: seq<Level>): (r: seq<int>)
    ensures forall p :: p in r <==> exists l :: l in bids && l.price == p
    ensures Distinct(r)
  {
    if bids == [] then []
    else
      assert bids == [bids[0]] + bids[1..];
      var rest := DistinctOnly(bids[1..]);
      if bids[0].price in rest then rest else [bids[0].price] + rest
  }

  function PricesDown(bids: seq<Level>): seq<int> { Sort(Descending(), DistinctOnly(bids)) }

  ghost predicate Falling(prices: seq<int>) {
    forall i, j :: 0 <= i < j < |prices| ==> prices[i] > prices[j]
  }

  lemma PricesDownCoverDepth(bids: seq<Level>)
    ensures Falling(PricesDown(bids))
    ensures forall p :: p in PricesDown(bids) <==> p in ByPrice(bids)
  {
    var keys := DistinctOnly(bids);
    SortSorts(Descending(), keys);
    SortKeepsElements(Descending(), keys);
    ByPriceIs(bids);
    PermutationDistinct(keys, PricesDown(bids));
    forall i, j | 0 <= i < j < |PricesDown(bids)|
      ensures PricesDown(bids)[i] > PricesDown(bids)[j]
    {
      assert Descending()(PricesDown(bids)[i], PricesDown(bids)[j]);
    }
  }

  // ---------------------------------------------------------------- one batch

  function SellFill(fees: Fees, price: int, qty: int): Fill {
    var fee := fees.Fee(qty, price);
    Fill(price, qty, qty, Max(0, Cost(price, qty) - fee), fee, 0)
  }

  /** Takes up to `remain` shares from the bids at or above `limit`, best first. */
  function TakeFills(prices: seq<int>, depth: Depth, limit: int, remain: int, fees: Fees): (seq<Fill>, Depth)
    requires forall p :: p in prices ==> p in depth
  {
    if prices == [] || prices[0] < limit then ([], depth)
    else
      var p := prices[0];
      var q := Min(remain, depth[p]);
      if !(0 < p < SCALE) || q <= 0 then TakeFills(prices[1..], depth, limit, remain, fees)
      else
        var left := depth[p := depth[p] - q];
        if remain == q then ([SellFill(fees, p, q)], left)
        else
          var (fills, rest) := TakeFills(prices[1..], left, limit, remain - q, fees);
          ([SellFill(fees, p, q)] + fills, rest)
  }

  /** The cash of one sale: its cost less its fee, and never below nothing. */
  predicate Priced(fees: Fees, f: Fill) {
    && f.gross == f.net && f.target == 0 && f.fee == fees.Fee(f.net, f.price)
    && (f.fee <= Cost(f.price, f.net) ==> f.amount + f.fee == Cost(f.price, f.net))
    && (f.fee > Cost(f.price, f.net) ==> f.amount == 0)
  }

  predicate AllPriced(fees: Fees, fills: seq<Fill>) { forall i :: 0 <= i < |fills| ==> Priced(fees, fills[i]) }

  predicate Sellable(prices: seq<int>, depth: Depth, limit: int, p: int) {
    p in prices && p in depth && depth[p] > 0 && limit <= p && 0 < p < SCALE
  }

  /** What taking a quantity out of the bids gives: priced fills at falling prices, within
      the bids and the quantity. Depth stays behind at a takeable price only if the whole
      quantity is sold and nothing of it at a worse price. */
  ghost predicate FilledBest(prices: seq<int>, depth: Depth, limit: int, quantity: int, fees: Fees, fills: seq<Fill>) {
    && AllPriced(fees, fills)
    && (forall i :: 0 <= i < |fills| ==> fills[i].net > 0 && Sellable(prices, depth, limit, fills[i].price))
    && (forall i, j :: 0 <= i < j < |fills| ==> fills[i].price > fills[j].price)
    && Sold(fills) <= quantity
    && (forall p :: Sellable(prices, depth, limit, p) ==> 0 <= SoldAt(fills, p) <= depth[p])
    && (forall p :: Sellable(prices, depth, limit, p) && SoldAt(fills, p) < depth[p] ==>
          Sold(fills) == quantity && forall i :: 0 <= i < |fills| ==> p <= fills[i].price)
  }

  /** The depth that fills leave. */
  function Without(depth: Depth, fills: seq<Fill>): Depth { map p | p in depth :: depth[p] - SoldAt(fills, p) }

  lemma Appended(before: seq<Fill>, fill: Fill, rest: seq<Fill>)
    ensures before + ([fill] + rest) == before + [fill] + rest
  {
  }

  method TakeDepth(prices: seq<int>, bids: Depth, limit: int, executable: int, fees: Fees)
    returns (fills: seq<Fill>, depth: Depth)
    requires forall p :: p in prices ==> p in bids
    ensures (fills, depth) == TakeFills(prices, bids, limit, executable, fees)
    ensures AllPriced(fees, fills) && depth == Without(bids, fills)
    ensures Falling(prices) && executable > 0 ==> FilledBest(prices, bids, limit, executable, fees, fills)
  {
    hide Fees.Fee, Cost, AllPriced, Without, FilledBest, Falling;
    TakeTells(prices, bids, limit, executable, fees);
    depth, fills := bids, [];
    var remain, i := executable, 0;
    ghost var whole := TakeFills(prices, bids, limit, executable, fees);
    assert prices[0..] == prices && [] + whole.0 == whole.0;
    while i < |prices|
      invariant 0 <= i <= |prices|
      invariant forall p :: p in prices ==> p in depth
      invariant forall p :: p in prices[i..] ==> p in depth
      invariant var rest := TakeFills(prices[i..], depth, limit, remain, fees);
                (fills + rest.0, rest.1) == whole
    {
      var p := prices[i];
      assert prices[i..][0] == p && prices[i..][1..] == prices[i + 1..];
      if p < limit {
        break;
      }
      i := i + 1;
      if !(0 < p < SCALE) {
        continue;
      }
      var q := Min(remain, depth[p]);
      if q <= 0 {
        continue;
      }
      var fee := fees.Fee(q, p);
      ghost var before := fills;
      var fill := Fill(p, q, q, Max(0, Cost(p, q) - fee), fee, 0);
      fills := fills + [fill];
      depth := depth[p := depth[p] - q];
      remain := remain - q;
      if remain == 0 {
        return;
      }
      Appended(before, fill, TakeFills(prices[i..], depth, limit, remain, fees).0);
    }
    assert fills + [] == fills;
  }

  // ---------------------------------------------------------------- grouping

  function MaxPrice(targets: seq<Target>): int
    requires targets != []
  {
    if |targets| == 1 then targets[0].price else Max(targets[0].price, MaxPrice(targets[1..]))
  }

  /** What a full group may put on the book: its terms, or nothing when it cannot be signed. */
  function GroupTerms(grouped: seq<Target>, quantity: int, minimum: int, tick: Option<int>): Option<(int, int)>
    requires grouped != []
  {
    if tick.None? then Some((quantity, MaxPrice(grouped)))
    else
      match NormalizeSell(quantity, MaxPrice(grouped), tick.value, minimum)
      case Err(_) => None
      case Ok(terms) => Some((terms.quantity, terms.limit))
  }

  predicate GroupFull(quantity: int, minimum: int, tick: Option<int>) {
    quantity >= if tick.Some? then SellMinimum(minimum) else minimum
  }

  /** The reference grouping over targets already in order. */
  function Group(targets: seq<Target>, grouped: seq<Target>, quantity: int, prices: seq<int>, depth: Depth,
                 minimum: int, fees: Fees, tick: Option<int>, firstOnly: bool): seq<SellBatch>
    requires forall p :: p in prices ==> p in depth
    decreases |targets|
  {
    if targets == [] then []
    else if targets[0].qty <= 0 then
      Group(targets[1..], grouped, quantity, prices, depth, minimum, fees, tick, firstOnly)
    else
      var grouped', quantity' := grouped + [targets[0]], quantity + targets[0].qty;
      if !GroupFull(quantity', minimum, tick) then
        Group(targets[1..], grouped', quantity', prices, depth, minimum, fees, tick, firstOnly)
      else
        match GroupTerms(grouped', quantity', minimum, tick)
        case None => Group(targets[1..], [], 0, prices, depth, minimum, fees, tick, firstOnly)
        case Some((executable, limit)) =>
          var (fills, left) := TakeFills(prices, depth, limit, executable, fees);
          TakeKeepsPrices(prices, depth, limit, executable, fees);
          if fills == [] then Group(targets[1..], [], 0, prices, left, minimum, fees, tick, firstOnly)
          else
            var batch := SellBatch(grouped', limit, executable, fills);
            if firstOnly then [batch]
            else [batch] + Group(targets[1..], [], 0, prices, left, minimum, fees, tick, firstOnly)
  }

  function Batches(bids: seq<Level>, targets: seq<Target>, minimum: int, fees: Fees, tick: Option<int>,
                   firstOnly: bool): seq<SellBatch> {
    PricesDownCoverDepth(bids);
    Group(Sort(TargetOrder(), targets), [], 0, PricesDown(bids), ByPrice(bids), minimum, fees, tick, firstOnly)
  }

  lemma {:induction false} TakeKeepsPrices(prices: seq<int>, depth: Depth, limit: int, remain: int, fees: Fees)
    requires forall p :: p in prices ==> p in depth
    ensures TakeFills(prices, depth, limit, remain, fees).1.Keys == depth.Keys
  {
    if prices != [] && prices[0] >= limit {
      var p := prices[0];
      var q := Min(remain, depth[p]);
      if !(0 < p < SCALE) || q <= 0 {
        TakeKeepsPrices(prices[1..], depth, limit, remain, fees);
      } else {
        TakeKeepsPrices(prices[1..], depth[p := depth[p] - q], limit, remain - q, fees);
      }
    }
  }

  method SellBatches(bids: seq<Level>, targets: seq<Target>, minimum: int, fees: Fees, tick: Option<int>,
                     firstOnly: bool) returns (batches: seq<SellBatch>)
    ensures batches == Batches(bids, targets, minimum, fees, tick, firstOnly)
    ensures forall k :: 0 <= k < |batches| ==> AllPriced(fees, batches[k].fills)
  {
    hide AllPriced, ByPrice, PricesDown, Sort, GroupTerms, GroupFull, TakeFills;
    var depth, prices := ByPrice(bids), PricesDown(bids);
    BatchesPriced(bids, targets, minimum, fees, tick, firstOnly);
    PricesDownCoverDepth(bids);
    var ordered := Sort(TargetOrder(), targets);
    batches := [];
    var grouped, quantity, i := [], 0, 0;
    ghost var whole := Batches(bids, targets, minimum, fees, tick, firstOnly);
    assert ordered[0..] == ordered && [] + whole == whole;
    while i < |ordered|
      invariant 0 <= i <= |ordered|
      invariant forall p :: p in prices ==> p in depth
      invariant batches + Group(ordered[i..], grouped, quantity, prices, depth, minimum, fees, tick, firstOnly) == whole
    {
      var t := ordered[i];
      assert ordered[i..][0] == t && ordered[i..][1..] == ordered[i + 1..];
      i := i + 1;
      if t.qty <= 0 {
        continue;
      }
      grouped := grouped + [t];
      quantity := quantity + t.qty;
      if !GroupFull(quantity, minimum, tick) {
        continue;
      }
      var terms := GroupTerms(grouped, quantity, minimum, tick);
      if terms.None? {
        grouped, quantity := [], 0;
        continue;
      }
      var executable, limit := terms.value.0, terms.value.1;
      TakeKeepsPrices(prices, depth, limit, executable, fees);
      var fills;
      fills, depth := TakeDepth(prices, depth, limit, executable, fees);
      if fills != [] {
        ghost var before := batches;
        var batch := SellBatch(grouped, limit, executable, fills);
        batches := batches + [batch];
        if firstOnly {
          return;
        }
        ghost var rest := Group(ordered[i..], [], 0, prices, depth, minimum, fees, tick, firstOnly);
        assert before + ([batch] + rest) == batches + rest;
      }
      grouped, quantity := [], 0;
    }
    assert ordered[i..] == [] && batches + [] == batches;
  }

  // --------------------------------------------------- shared depth is conserved

  function SoldAt(fills: seq<Fill>, price: int): int {
    if fills == [] then 0
    else (if fills[0].price == price then fills[0].net else 0) + SoldAt(fills[1..], price)
  }

  function Sold(fills: seq<Fill>): int { if fills == [] then 0 else fills[0].net + Sold(fills[1..]) }

  function BatchesSoldAt(batches: seq<SellBatch>, price: int): int {
    if batches == [] then 0 else SoldAt(batches[0].fills, price) + BatchesSoldAt(batches[1..], price)
  }

  lemma SellFillIs(fees: Fees, price: int, qty: int)
    ensures SellFill(fees, price, qty).price == price && SellFill(fees, price, qty).net == qty
  {
  }

  /** Fills move exactly the sold quantity out of the depth, never below zero, only at
      prices inside (0, 1) that meet the limit, and no more than asked. */
  ghost predicate Conserved(prices: seq<int>, depth: Depth, limit: int, remain: int, fees: Fees, fills: seq<Fill>,
                            left: Depth)
  {
    && left.Keys == depth.Keys
    && (forall p :: p in depth ==> depth[p] == left[p] + SoldAt(fills, p) && Min(depth[p], 0) <= left[p] <= depth[p])
    && (forall i :: 0 <= i < |fills| ==>
         && 0 < fills[i].net && 0 < fills[i].price < SCALE && limit <= fills[i].price
         && fills[i].price in prices && fills[i] == SellFill(fees, fills[i].price, fills[i].net))
    && 0 <= Sold(fills) <= Max(remain, 0)
    && (fills == [] ==> left == depth)
  }

  lemma NothingSold(prices: seq<int>, depth: Depth, limit: int, remain: int, fees: Fees)
    ensures Conserved(prices, depth, limit, remain, fees, [], depth)
  {
  }

  lemma OneMoreSold(prices: seq<int>, depth: Depth, limit: int, remain: int, fees: Fees, q: int, rest: seq<Fill>,
                    left: Depth)
    requires prices != [] && prices[0] in depth && limit <= prices[0] && 0 < prices[0] < SCALE
    requires 0 < q <= Min(remain, depth[prices[0]])
    requires Conserved(prices[1..], depth[prices[0] := depth[prices[0]] - q], limit, remain - q, fees, rest, left)
    ensures Conserved(prices, depth, limit, remain, fees, [SellFill(fees, prices[0], q)] + rest, left)
  {
    hide SellFill;
    var p := prices[0];
    SellFillIs(fees, p, q);
    var fills := [SellFill(fees, p, q)] + rest;
    assert fills[1..] == rest && prices == [p] + prices[1..];
    forall x | x in depth
      ensures depth[x] == left[x] + SoldAt(fills, x) && Min(depth[x], 0) <= left[x] <= depth[x]
    {
      assert SoldAt(fills, x) == (if p == x then q else 0) + SoldAt(rest, x);
    }
  }

  lemma {:induction false} TakeConserves(prices: seq<int>, depth: Depth, limit: int, remain: int, fees: Fees)
    requires forall p :: p in prices ==> p in depth
    ensures var (fills, left) := TakeFills(prices, depth, limit, remain, fees);
            Conserved(prices, depth, limit, remain, fees, fills, left)
  {
    hide SellFill, Conserved;
    NothingSold(prices, depth, limit, remain, fees);
    if prices != [] && prices[0] >= limit {
      var p := prices[0];
      var q := Min(remain, depth[p]);
      if !(0 < p < SCALE) || q <= 0 {
        TakeConserves(prices[1..], depth, limit, remain, fees);
        MorePrices(prices, depth, limit, remain, fees);
      } else if remain == q {
        var middle := depth[p := depth[p] - q];
        NothingSold(prices[1..], middle, limit, 0, fees);
        OneMoreSold(prices, depth, limit, remain, fees, q, [], middle);
        assert [SellFill(fees, p, q)] + [] == [SellFill(fees, p, q)];
      } else {
        var middle := depth[p := depth[p] - q];
        TakeConserves(prices[1..], middle, limit, remain - q, fees);
        var (rest, left) := TakeFills(prices[1..], middle, limit, remain - q, fees);
        OneMoreSold(prices, depth, limit, remain, fees, q, rest, left);
      }
    }
  }

  lemma SellFillPriced(fees: Fees, price: int, qty: int)
    ensures Priced(fees, SellFill(fees, price, qty))
  {
  }

  /** What taking gives, whatever the order of the prices. */
  lemma TakeTells(prices: seq<int>, depth: Depth, limit: int, remain: int, fees: Fees)
    requires forall p :: p in prices ==> p in depth
    ensures var (fills, left) := TakeFills(prices, depth, limit, remain, fees);
            && AllPriced(fees, fills) && left == Without(depth, fills)
            && (Falling(prices) && remain > 0 ==> FilledBest(prices, depth, limit, remain, fees, fills))
  {
    hide TakeFills, FilledBest, Falling, SellFill, Priced;
    TakeConserves(prices, depth, limit, remain, fees);
    var (fills, left) := TakeFills(prices, depth, limit, remain, fees);
    forall i | 0 <= i < |fills|
      ensures Priced(fees, fills[i])
    {
      SellFillPriced(fees, fills[i].price, fills[i].net);
    }
    if Falling(prices) && remain > 0 {
      TakesBest(prices, depth, limit, remain, fees);
    }
  }

  lemma FallingRest(prices: seq<int>)
    requires Falling(prices) && prices != []
    ensures Falling(prices[1..]) && forall p :: p in prices[1..] ==> p < prices[0]
    ensures forall p :: p in prices <==> p == prices[0] || p in prices[1..]
  {
    assert prices == [prices[0]] + prices[1..];
    forall p | p in prices[1..]
      ensures p < prices[0]
    {
      var k :| 0 <= k < |prices[1..]| && prices[1..][k] == p;
      assert prices[k + 1] == p;
    }
  }

  lemma {:induction false} NothingSoldAt(fills: seq<Fill>, price: int)
    requires forall i :: 0 <= i < |fills| ==> fills[i].price != price
    ensures SoldAt(fills, price) == 0
  {
    if fills != [] {
      NothingSoldAt(fills[1..], price);
    }
  }

  /** With falling prices the best bids go first and nothing takeable is left over. */
  lemma {:induction false} TakesBest(prices: seq<int>, depth: Depth, limit: int, remain: int, fees: Fees)
    requires (forall p :: p in prices ==> p in depth) && Falling(prices) && remain > 0
    ensures FilledBest(prices, depth, limit, remain, fees, TakeFills(prices, depth, limit, remain, fees).0)
  {
    hide SellFill, FilledBest, Falling, Priced;
    if prices == [] || prices[0] < limit {
      NothingTakeable(prices, depth, limit, remain, fees);
    } else {
      FallingRest(prices);
      var p := prices[0];
      var q := Min(remain, depth[p]);
      if !(0 < p < SCALE) || q <= 0 {
        TakesBest(prices[1..], depth, limit, remain, fees);
        BestSkips(prices, depth, limit, remain, fees, TakeFills(prices[1..], depth, limit, remain, fees).0);
      } else if remain == q {
        BestEnds(prices, depth, limit, remain, fees);
      } else {
        var middle := depth[p := depth[p] - q];
        TakesBest(prices[1..], middle, limit, remain - q, fees);
        BestGoesOn(prices, depth, limit, remain, fees, TakeFills(prices[1..], middle, limit, remain - q, fees).0);
      }
    }
  }

  lemma NothingTakeable(prices: seq<int>, depth: Depth, limit: int, remain: int, fees: Fees)
    requires Falling(prices) && remain > 0 && (prices == [] || prices[0] < limit)
    ensures FilledBest(prices, depth, limit, remain, fees, [])
  {
    if prices != [] {
      FallingRest(prices);
    }
  }

  lemma BestSkips(prices: seq<int>, depth: Depth, limit: int, remain: int, fees: Fees, fills: seq<Fill>)
    requires Falling(prices) && prices != [] && prices[0] in depth && !Sellable(prices, depth, limit, prices[0])
    requires FilledBest(prices[1..], depth, limit, remain, fees, fills)
    ensures FilledBest(prices, depth, limit, remain, fees, fills)
  {
    hide AllPriced, Falling;
    FallingRest(prices);
    forall p | Sellable(prices, depth, limit, p)
      ensures Sellable(prices[1..], depth, limit, p)
    {
    }
    forall i | 0 <= i < |fills|
      ensures Sellable(prices, depth, limit, fills[i].price)
    {
      assert Sellable(prices[1..], depth, limit, fills[i].price);
    }
  }

  lemma BestEnds(prices: seq<int>, depth: Depth, limit: int, remain: int, fees: Fees)
    requires Falling(prices) && prices != [] && Sellable(prices, depth, limit, prices[0])
    requires 0 < remain <= depth[prices[0]]
    ensures FilledBest(prices, depth, limit, remain, fees, [SellFill(fees, prices[0], remain)])
  {
    hide SellFill, Falling, Priced;
    FallingRest(prices);
    SellFillIs(fees, prices[0], remain);
    SellFillPriced(fees, prices[0], remain);
    var fills := [SellFill(fees, prices[0], remain)];
    assert fills[1..] == [];
    FirstSold(fills);
    assert SoldAt([], prices[0]) == 0 && Sold([]) == 0;
    assert forall p :: SoldAt(fills, p) == if p == prices[0] then remain else 0;
  }

  lemma FirstSold(fills: seq<Fill>)
    requires fills != []
    ensures forall p :: SoldAt(fills, p) == (if p == fills[0].price then fills[0].net else 0) + SoldAt(fills[1..], p)
    ensures Sold(fills) == fills[0].net + Sold(fills[1..])
  {
  }

  lemma PricedBehind(fees: Fees, f: Fill, rest: seq<Fill>)
    requires Priced(fees, f) && AllPriced(fees, rest)
    ensures AllPriced(fees, [f] + rest)
  {
  }

  lemma BestGoesOn(prices: seq<int>, depth: Depth, limit: int, remain: int, fees: Fees, rest: seq<Fill>)
    requires Falling(prices) && prices != [] && Sellable(prices, depth, limit, prices[0])
    requires depth[prices[0]] < remain
    requires FilledBest(prices[1..], depth[prices[0] := 0], limit, remain - depth[prices[0]], fees, rest)
    ensures FilledBest(prices, depth, limit, remain, fees, [SellFill(fees, prices[0], depth[prices[0]])] + rest)
  {
    hide SellFill, Falling, Priced, SoldAt, AllPriced;
    var p0 := prices[0];
    var middle := depth[p0 := 0];
    FallingRest(prices);
    SellFillIs(fees, p0, depth[p0]);
    SellFillPriced(fees, p0, depth[p0]);
    var fills := [SellFill(fees, p0, depth[p0])] + rest;
    assert fills[1..] == rest;
    FirstSold(fills);
    forall i | 0 <= i < |rest|
      ensures Sellable(prices, depth, limit, rest[i].price) && rest[i].price < p0
    {
      assert Sellable(prices[1..], middle, limit, rest[i].price);
    }
    NothingSoldAt(rest, p0);
    PricedBehind(fees, fills[0], rest);
    assert forall p :: SoldAt(fills, p) == (if p == p0 then depth[p0] else 0) + SoldAt(rest, p);
    assert forall p :: Sellable(prices, depth, limit, p) ==> p == p0 || Sellable(prices[1..], middle, limit, p);
  }

  lemma MorePrices(prices: seq<int>, depth: Depth, limit: int, remain: int, fees: Fees)
    requires prices != [] && forall p :: p in prices ==> p in depth
    ensures var (fills, left) := TakeFills(prices[1..], depth, limit, remain, fees);
            Conserved(prices[1..], depth, limit, remain, fees, fills, left) ==>
              Conserved(prices, depth, limit, remain, fees, fills, left)
  {
    hide SellFill, TakeFills;
    assert prices == [prices[0]] + prices[1..];
  }

  /** Every fill of every batch is priced. */
  lemma {:induction false} GroupsPriced(targets: seq<Target>, grouped: seq<Target>, quantity: int, prices: seq<int>,
                                        depth: Depth, minimum: int, fees: Fees, tick: Option<int>, firstOnly: bool)
    requires forall p :: p in prices ==> p in depth
    ensures forall b :: b in Group(targets, grouped, quantity, prices, depth, minimum, fees, tick, firstOnly) ==>
              AllPriced(fees, b.fills)
    decreases |targets|
  {
    hide TakeFills, GroupTerms, GroupFull, AllPriced;
    if targets != [] {
      if targets[0].qty <= 0 {
        GroupsPriced(targets[1..], grouped, quantity, prices, depth, minimum, fees, tick, firstOnly);
      } else {
        var grouped', quantity' := grouped + [targets[0]], quantity + targets[0].qty;
        var terms := GroupTerms(grouped', quantity', minimum, tick);
        if !GroupFull(quantity', minimum, tick) {
          GroupsPriced(targets[1..], grouped', quantity', prices, depth, minimum, fees, tick, firstOnly);
        } else if terms.None? {
          GroupsPriced(targets[1..], [], 0, prices, depth, minimum, fees, tick, firstOnly);
        } else {
          var (executable, limit) := terms.value;
          TakeKeepsPrices(prices, depth, limit, executable, fees);
          TakeTells(prices, depth, limit, executable, fees);
          var left := TakeFills(prices, depth, limit, executable, fees).1;
          GroupsPriced(targets[1..], [], 0, prices, left, minimum, fees, tick, firstOnly);
        }
      }
    }
  }

  lemma BatchesPriced(bids: seq<Level>, targets: seq<Target>, minimum: int, fees: Fees, tick: Option<int>, firstOnly: bool)
    ensures var batches := Batches(bids, targets, minimum, fees, tick, firstOnly);
            forall k :: 0 <= k < |batches| ==> AllPriced(fees, batches[k].fills)
  {
    hide Group, AllPriced, ByPrice, PricesDown;
    PricesDownCoverDepth(bids);
    GroupsPriced(Sort(TargetOrder(), targets), [], 0, PricesDown(bids), ByPrice(bids), minimum, fees, tick, firstOnly);
  }

  /** Over all batches together no bid is sold into beyond its size. */
  lemma {:induction false} GroupsShareDepth(targets: seq<Target>, grouped: seq<Target>, quantity: int, prices: seq<int>,
                                            depth: Depth, minimum: int, fees: Fees, tick: Option<int>, price: int)
    requires forall p :: p in prices ==> p in depth
    requires price in depth && depth[price] >= 0
    ensures 0 <= BatchesSoldAt(Group(targets, grouped, quantity, prices, depth, minimum, fees, tick, false), price)
            <= depth[price]
    decreases |targets|
  {
    if targets != [] {
      if targets[0].qty <= 0 {
        GroupsShareDepth(targets[1..], grouped, quantity, prices, depth, minimum, fees, tick, price);
      } else {
        var grouped', quantity' := grouped + [targets[0]], quantity + targets[0].qty;
        if !GroupFull(quantity', minimum, tick) {
          GroupsShareDepth(targets[1..], grouped', quantity', prices, depth, minimum, fees, tick, price);
        } else if GroupTerms(grouped', quantity', minimum, tick).None? {
          GroupsShareDepth(targets[1..], [], 0, prices, depth, minimum, fees, tick, price);
        } else {
          var (executable, limit) := GroupTerms(grouped', quantity', minimum, tick).value;
          var (fills, left) := TakeFills(prices, depth, limit, executable, fees);
          TakeConserves(prices, depth, limit, executable, fees);
          GroupsShareDepth(targets[1..], [], 0, prices, left, minimum, fees, tick, price);
        }
      }
    }
  }

  lemma BatchesShareDepth(bids: seq<Level>, targets: seq<Target>, minimum: int, fees: Fees, tick: Option<int>, price: int)
    requires price in ByPrice(bids) && ByPrice(bids)[price] >= 0
    ensures 0 <= BatchesSoldAt(Batches(bids, targets, minimum, fees, tick, false), price) <= ByPrice(bids)[price]
  {
    PricesDownCoverDepth(bids);
    GroupsShareDepth(Sort(TargetOrder(), targets), [], 0, PricesDown(bids), ByPrice(bids), minimum, fees, tick, price);
  }

  // --------------------------------------------- what the first batch promises

  function TotalQty(targets: seq<Target>): int {
    if targets == [] then 0 else targets[0].qty + TotalQty(targets[1..])
  }

  lemma {:induction false} TotalQtyAppend(targets: seq<Target>, t: Target)
    ensures TotalQty(targets + [t]) == TotalQty(targets) + t.qty
  {
    if targets == [] {
      assert [] + [t] == [t];
    } else {
      assert (targets + [t])[1..] == targets[1..] + [t];
      TotalQtyAppend(targets[1..], t);
    }
  }

  lemma {:induction false} MaxPriceCovers(targets: seq<Target>)
    requires targets != []
    ensures forall t :: t in targets ==> t.price <= MaxPrice(targets)
  {
    if |targets| > 1 {
      assert targets == [targets[0]] + targets[1..];
      MaxPriceCovers(targets[1..]);
    }
  }

  /** A decided batch: signable terms no lower than any of its targets, for no more
      than they hold together, filled against depth that nothing has touched. */
  ghost predicate Decided(batch: SellBatch, prices: seq<int>, depth: Depth, minimum: int, fees: Fees, tick: int)
    requires forall p :: p in prices ==> p in depth
  {
    && batch.targets != [] && (forall t :: t in batch.targets ==> t.qty > 0 && t.price <= batch.limit)
    && 0 < batch.quantity <= TotalQty(batch.targets) && batch.quantity >= minimum
    && NormalizeSell(batch.quantity, batch.limit, tick, minimum) == Ok(SellTerms(batch.quantity, batch.limit, tick))
    && batch.fills != [] && batch.fills == TakeFills(prices, depth, batch.limit, batch.quantity, fees).0
  }

  lemma {:induction false} FirstBatchDecided(targets: seq<Target>, grouped: seq<Target>, quantity: int, prices: seq<int>,
                                             depth: Depth, minimum: int, fees: Fees, tick: int)
    requires forall p :: p in prices ==> p in depth
    requires quantity == TotalQty(grouped) && forall t :: t in grouped ==> t.qty > 0
    ensures var found := Group(targets, grouped, quantity, prices, depth, minimum, fees, Some(tick), true);
            |found| <= 1 && (found != [] ==> Decided(found[0], prices, depth, minimum, fees, tick))
    decreases |targets|
  {
    if targets != [] {
      if targets[0].qty <= 0 {
        FirstBatchDecided(targets[1..], grouped, quantity, prices, depth, minimum, fees, tick);
      } else {
        var grouped', quantity' := grouped + [targets[0]], quantity + targets[0].qty;
        TotalQtyAppend(grouped, targets[0]);
        var terms := GroupTerms(grouped', quantity', minimum, Some(tick));
        if !GroupFull(quantity', minimum, Some(tick)) {
          FirstBatchDecided(targets[1..], grouped', quantity', prices, depth, minimum, fees, tick);
        } else if terms.None? {
          FirstBatchDecided(targets[1..], [], 0, prices, depth, minimum, fees, tick);
        } else {
          var (executable, limit) := terms.value;
          TakeConserves(prices, depth, limit, executable, fees);
          NormalizedSellBounds(quantity', MaxPrice(grouped'), tick, minimum);
          NormalizeSellIdempotent(quantity', MaxPrice(grouped'), tick, minimum);
          MaxPriceCovers(grouped');
          if TakeFills(prices, depth, limit, executable, fees).0 == [] {
            FirstBatchDecided(targets[1..], [], 0, prices, depth, minimum, fees, tick);
          }
        }
      }
    }
  }

  /** Asking for the first batch only gives the first of all batches. */
  lemma {:induction false} FirstOnlyIsFirst(targets: seq<Target>, grouped: seq<Target>, quantity: int, prices: seq<int>,
                                            depth: Depth, minimum: int, fees: Fees, tick: Option<int>)
    requires forall p :: p in prices ==> p in depth
    ensures var all := Group(targets, grouped, quantity, prices, depth, minimum, fees, tick, false);
            Group(targets, grouped, quantity, prices, depth, minimum, fees, tick, true)
            == if all == [] then [] else [all[0]]
    decreases |targets|
  {
    if targets != [] {
      if targets[0].qty <= 0 {
        FirstOnlyIsFirst(targets[1..], grouped, quantity, prices, depth, minimum, fees, tick);
      } else {
        var grouped', quantity' := grouped + [targets[0]], quantity + targets[0].qty;
        var terms := GroupTerms(grouped', quantity', minimum, tick);
        if !GroupFull(quantity', minimum, tick) {
          FirstOnlyIsFirst(targets[1..], grouped', quantity', prices, depth, minimum, fees, tick);
        } else if terms.None? {
          FirstOnlyIsFirst(targets[1..], [], 0, prices, depth, minimum, fees, tick);
        } else {
          var (executable, limit) := terms.value;
          var (fills, left) := TakeFills(prices, depth, limit, executable, fees);
          TakeKeepsPrices(prices, depth, limit, executable, fees);
          if fills == [] {
            FirstOnlyIsFirst(targets[1..], [], 0, prices, left, minimum, fees, tick);
          }
        }
      }
    }
  }

  // -------------------------------------- the submitted order executes as decided

  function AllFills(batches: seq<SellBatch>): seq<Fill> {
    if batches == [] then [] else batches[0].fills + AllFills(batches[1..])
  }

  /** What simulated execution does with a SELL intent for `quantity` at `limit`. */
  function ExecuteSell(bids: seq<Level>, quantity: int, limit: int, tick: int, minimum: int, fees: Fees): seq<Fill> {
    match NormalizeSell(quantity, limit, tick, minimum)
    case Err(_) => []
    case Ok(terms) =>
      AllFills(Batches(bids, [Target("batch", terms.limit, terms.quantity, 0)], minimum, fees, None, false))
  }

  /** Submitting the first fillable batch executes exactly the fills the decision
      computed: submission and execution normalise again to the same terms, and the
      groups skipped before it left the depth as it was. */
  lemma DecisionIsExecuted(bids: seq<Level>, targets: seq<Target>, minimum: int, fees: Fees, tick: int)
    ensures var found := Batches(bids, targets, minimum, fees, Some(tick), true);
            && |found| <= 1
            && (found != [] ==>
                 && NormalizeSell(found[0].quantity, found[0].limit, tick, minimum)
                    == Ok(SellTerms(found[0].quantity, found[0].limit, tick))
                 && ExecuteSell(bids, found[0].quantity, found[0].limit, tick, minimum, fees) == found[0].fills
                 && found[0].quantity <= TotalQty(found[0].targets)
                 && forall t :: t in found[0].targets ==> t.qty > 0 && t.price <= found[0].limit)
  {
    PricesDownCoverDepth(bids);
    var prices, depth := PricesDown(bids), ByPrice(bids);
    FirstBatchDecided(Sort(TargetOrder(), targets), [], 0, prices, depth, minimum, fees, tick);
    var found := Batches(bids, targets, minimum, fees, Some(tick), true);
    if found != [] {
      SingleTargetExecutes(bids, found[0].quantity, found[0].limit, minimum, fees);
    }
  }

  lemma SingleTargetExecutes(bids: seq<Level>, quantity: int, limit: int, minimum: int, fees: Fees)
    requires quantity > 0 && quantity >= minimum
    ensures (forall p :: p in PricesDown(bids) ==> p in ByPrice(bids))
    ensures AllFills(Batches(bids, [Target("batch", limit, quantity, 0)], minimum, fees, None, false))
            == TakeFills(PricesDown(bids), ByPrice(bids), limit, quantity, fees).0
  {
    PricesDownCoverDepth(bids);
    var t := Target("batch", limit, quantity, 0);
    var fills := TakeFills(PricesDown(bids), ByPrice(bids), limit, quantity, fees).0;
    assert [t][1..] == [] && Sort(TargetOrder(), [t]) == [t];
    assert [] + [t] == [t];
    assert GroupTerms([t], quantity, minimum, None) == Some((quantity, limit));
    var prices, depth := PricesDown(bids), ByPrice(bids);
    var left := TakeFills(prices, depth, limit, quantity, fees).1;
    TakeKeepsPrices(prices, depth, limit, quantity, fees);
    assert Group([t][1..], [], 0, prices, left, minimum, fees, None, false) == [];
    var batches := Batches(bids, [t], minimum, fees, None, false);
    assert batches == Group([t], [], 0, prices, depth, minimum, fees, None, false);
    assert GroupFull(0 + t.qty, minimum, None);
    if fills == [] {
      assert batches == [];
    } else {
      assert batches == [SellBatch([t], limit, quantity, fills)];
      assert batches[1..] == [] && fills + [] == fills;
    }
  }
}
