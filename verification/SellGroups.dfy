/** What grouping targets for sale gives, told without the loop: which targets are grouped,
    on which terms each group is offered, and what it brings. */
module SellGroups {
  import opened Arith
  import opened FeeRules
  import opened OrderTerms
  import opened Sorting
  import opened Ladder
  import opened SellBatching

  // ------------------------------------------------------------ groups

  /** The least total that makes a group. */
  function Threshold(minimum: int, tick: Option<int>): int { if tick.Some? then SellMinimum(minimum) else minimum }

  /** No stretch of the targets from the first on reaches the threshold. */
  ghost predicate TooSmall(targets: seq<Target>, minimum: int, tick: Option<int>) {
    forall n :: 0 < n <= |targets| ==> TotalQty(targets[..n]) < Threshold(minimum, tick)
  }

  /** A group reaches the threshold with its last target and not before. */
  ghost predicate JustFull(group: seq<Target>, minimum: int, tick: Option<int>) {
    && group != [] && TotalQty(group) >= Threshold(minimum, tick)
    && TooSmall(group[..|group| - 1], minimum, tick)
  }

  function Together(groups: seq<seq<Target>>): seq<Target> {
    if groups == [] then [] else groups[0] + Together(groups[1..])
  }

  function Positive(targets: seq<Target>): seq<Target> {
    if targets == [] then []
    else if targets[0].qty > 0 then [targets[0]] + Positive(targets[1..])
    else Positive(targets[1..])
  }

  /** The group may be offered on these terms: for all it holds, at its highest target
      price, both brought onto the order grid where there is one. */
  predicate OfferedOn(group: seq<Target>, minimum: int, tick: Option<int>, quantity: int, limit: int)
    requires group != []
  {
    if tick.None? then quantity == TotalQty(group) && limit == MaxPrice(group)
    else NormalizeSell(TotalQty(group), MaxPrice(group), tick.value, minimum) == Ok(SellTerms(quantity, limit, tick.value))
  }

  /** What becomes of the groups one after the other: a group without legal terms, or with
      nothing to sell into at its limit, is skipped and leaves the bids alone; any other is
      a batch that takes the best of the bids that the batches before it left. */
  ghost predicate Sells(groups: seq<seq<Target>>, prices: seq<int>, depth: Depth, minimum: int, fees: Fees,
                        tick: Option<int>, batches: seq<SellBatch>)
    decreases |groups|
  {
    if groups == [] then batches == []
    else
      var skipped := Sells(groups[1..], prices, depth, minimum, fees, tick, batches);
      groups[0] != [] &&
      if forall q, l :: !OfferedOn(groups[0], minimum, tick, q, l) then skipped
      else
        forall q, l :: OfferedOn(groups[0], minimum, tick, q, l) ==>
          q > 0 &&
          if forall p :: !Sellable(prices, depth, l, p) then skipped
          else
            && batches != [] && batches[0].targets == groups[0] && batches[0].quantity == q && batches[0].limit == l
            && FilledBest(prices, depth, l, q, fees, batches[0].fills) && batches[0].fills != []
            && Sells(groups[1..], prices, Without(depth, batches[0].fills), minimum, fees, tick, batches[1..])
  }

  lemma {:induction false} MaxPriceIs(targets: seq<Target>)
    requires targets != []
    ensures forall t :: t in targets ==> t.price <= MaxPrice(targets)
    ensures exists t :: t in targets && t.price == MaxPrice(targets)
  {
    MaxPriceCovers(targets);
    if |targets| > 1 {
      assert targets == [targets[0]] + targets[1..];
      MaxPriceIs(targets[1..]);
    }
    assert targets[0] in targets;
  }

  lemma TermsOffered(group: seq<Target>, minimum: int, tick: Option<int>)
    requires group != [] && TotalQty(group) > 0
    ensures var terms := GroupTerms(group, TotalQty(group), minimum, tick);
            && (forall q, l :: OfferedOn(group, minimum, tick, q, l) <==> terms == Some((q, l)))
            && (terms.Some? ==> terms.value.0 > 0)
  {
    hide TotalQty, MaxPrice;
    if tick.Some? && NormalizeSell(TotalQty(group), MaxPrice(group), tick.value, minimum).Ok? {
      NormalizedSellBounds(TotalQty(group), MaxPrice(group), tick.value, minimum);
    }
  }

  lemma SomethingSold(prices: seq<int>, depth: Depth, limit: int, quantity: int, fees: Fees, fills: seq<Fill>)
    requires FilledBest(prices, depth, limit, quantity, fees, fills) && quantity > 0
    ensures fills == [] <==> forall p :: !Sellable(prices, depth, limit, p)
    ensures fills == [] ==> Without(depth, fills) == depth
  {
    if fills == [] {
      assert forall p :: SoldAt([], p) == 0;
      if p :| Sellable(prices, depth, limit, p) {
        assert false;
      }
    } else {
      assert Sellable(prices, depth, limit, fills[0].price);
    }
  }

  lemma SellsSkipped(groups: seq<seq<Target>>, prices: seq<int>, depth: Depth, minimum: int, fees: Fees,
                     tick: Option<int>, batches: seq<SellBatch>)
    requires groups != [] && groups[0] != [] && TotalQty(groups[0]) > 0
    requires Sells(groups[1..], prices, depth, minimum, fees, tick, batches)
    requires var terms := GroupTerms(groups[0], TotalQty(groups[0]), minimum, tick);
             terms.Some? ==> forall p :: !Sellable(prices, depth, terms.value.1, p)
    ensures Sells(groups, prices, depth, minimum, fees, tick, batches)
  {
    hide OfferedOn, FilledBest, GroupTerms, Sellable;
    TermsOffered(groups[0], minimum, tick);
  }

  lemma SellsBatch(groups: seq<seq<Target>>, prices: seq<int>, depth: Depth, minimum: int, fees: Fees,
                   tick: Option<int>, batch: SellBatch, rest: seq<SellBatch>)
    requires groups != [] && groups[0] != [] && TotalQty(groups[0]) > 0 && batch.targets == groups[0]
    requires GroupTerms(groups[0], TotalQty(groups[0]), minimum, tick) == Some((batch.quantity, batch.limit))
    requires FilledBest(prices, depth, batch.limit, batch.quantity, fees, batch.fills) && batch.fills != []
    requires Sells(groups[1..], prices, Without(depth, batch.fills), minimum, fees, tick, rest)
    ensures Sells(groups, prices, depth, minimum, fees, tick, [batch] + rest)
  {
    hide OfferedOn, FilledBest, GroupTerms, Sellable, Without;
    TermsOffered(groups[0], minimum, tick);
    SomethingSold(prices, depth, batch.limit, batch.quantity, fees, batch.fills);
    assert ([batch] + rest)[1..] == rest;
  }

  lemma {:induction false} TotalPositive(targets: seq<Target>)
    requires forall t :: t in targets ==> t.qty > 0
    ensures targets != [] ==> TotalQty(targets) > 0
  {
    if |targets| > 1 {
      TotalPositive(targets[1..]);
    }
  }

  lemma StillTooSmall(grouped: seq<Target>, t: Target, minimum: int, tick: Option<int>)
    requires TooSmall(grouped, minimum, tick) && TotalQty(grouped + [t]) < Threshold(minimum, tick)
    ensures TooSmall(grouped + [t], minimum, tick)
  {
    forall n | 0 < n <= |grouped + [t]|
      ensures TotalQty((grouped + [t])[..n]) < Threshold(minimum, tick)
    {
      if n <= |grouped| {
        assert (grouped + [t])[..n] == grouped[..n];
      } else {
        assert (grouped + [t])[..n] == grouped + [t];
      }
    }
  }

  lemma FullOrNot(grouped: seq<Target>, t: Target, minimum: int, tick: Option<int>)
    requires TooSmall(grouped, minimum, tick)
    ensures var group := grouped + [t];
            if GroupFull(TotalQty(group), minimum, tick) then JustFull(group, minimum, tick) else TooSmall(group, minimum, tick)
  {
    hide TooSmall, TotalQty;
    assert (grouped + [t])[..|grouped|] == grouped;
    if !GroupFull(TotalQty(grouped + [t]), minimum, tick) {
      StillTooSmall(grouped, t, minimum, tick);
    }
  }

  lemma OneMoreGroup(group: seq<Target>, groups: seq<seq<Target>>, rest: seq<Target>, grouped: seq<Target>, t: Target,
                     more: seq<Target>)
    requires group == grouped + [t] && Together(groups) + rest == more
    ensures Together([group] + groups) + rest == grouped + ([t] + more)
  {
    assert ([group] + groups)[1..] == groups;
  }

  /** The grouping loop from any point on: what is grouped so far, and the targets to come,
      fall into groups and a remainder, and the groups sell as they should. */
  lemma {:induction false} GroupsSell(targets: seq<Target>, grouped: seq<Target>, prices: seq<int>, depth: Depth,
                                      minimum: int, fees: Fees, tick: Option<int>)
    returns (groups: seq<seq<Target>>, rest: seq<Target>)
    requires (forall p :: p in prices ==> p in depth) && Falling(prices)
    requires (forall t :: t in grouped ==> t.qty > 0) && TooSmall(grouped, minimum, tick)
    ensures Together(groups) + rest == grouped + Positive(targets)
    ensures (forall k :: 0 <= k < |groups| ==> JustFull(groups[k], minimum, tick)) && TooSmall(rest, minimum, tick)
    ensures Sells(groups, prices, depth, minimum, fees, tick,
                  Group(targets, grouped, TotalQty(grouped), prices, depth, minimum, fees, tick, false))
    decreases |targets|
  {
    hide Sells, TakeFills, GroupTerms, FilledBest, Falling, TooSmall, Without, Sellable, SellMinimum, TotalQty, Together,
         JustFull, AllPriced, GroupFull;
    if targets == [] {
      groups, rest := [], grouped;
      NothingTooSmall(minimum, tick);
      NoGroups(prices, depth, minimum, fees, tick);
    } else if targets[0].qty <= 0 {
      groups, rest := GroupsSell(targets[1..], grouped, prices, depth, minimum, fees, tick);
    } else {
      var group := grouped + [targets[0]];
      var total := TotalQty(grouped) + targets[0].qty;
      TotalQtyAppend(grouped, targets[0]);
      FullOrNot(grouped, targets[0], minimum, tick);
      if !GroupFull(total, minimum, tick) {
        groups, rest := GroupsSell(targets[1..], group, prices, depth, minimum, fees, tick);
        assert group + Positive(targets[1..]) == grouped + Positive(targets);
      } else {
        TotalPositive(group);
        NothingTooSmall(minimum, tick);
        var terms := GroupTerms(group, total, minimum, tick);
        if terms.None? {
          var more;
          more, rest := GroupsSell(targets[1..], [], prices, depth, minimum, fees, tick);
          groups := [group] + more;
          assert groups[1..] == more;
          SellsSkipped(groups, prices, depth, minimum, fees, tick,
                       Group(targets[1..], [], 0, prices, depth, minimum, fees, tick, false));
          OneMoreGroup(group, more, rest, grouped, targets[0], Positive(targets[1..]));
        } else {
          var (executable, limit) := terms.value;
          TermsOffered(group, minimum, tick);
          TakeKeepsPrices(prices, depth, limit, executable, fees);
          TakeTells(prices, depth, limit, executable, fees);
          var (fills, left) := TakeFills(prices, depth, limit, executable, fees);
          SomethingSold(prices, depth, limit, executable, fees, fills);
          var more;
          more, rest := GroupsSell(targets[1..], [], prices, left, minimum, fees, tick);
          groups := [group] + more;
          assert groups[1..] == more;
          var others := Group(targets[1..], [], 0, prices, left, minimum, fees, tick, false);
          if fills == [] {
            SellsSkipped(groups, prices, depth, minimum, fees, tick, others);
          } else {
            SellsBatch(groups, prices, depth, minimum, fees, tick, SellBatch(group, limit, executable, fills), others);
          }
          OneMoreGroup(group, more, rest, grouped, targets[0], Positive(targets[1..]));
        }
      }
    }
  }

  lemma NoGroups(prices: seq<int>, depth: Depth, minimum: int, fees: Fees, tick: Option<int>)
    ensures Sells([], prices, depth, minimum, fees, tick, [])
  {
  }

  lemma NothingTooSmall(minimum: int, tick: Option<int>)
    ensures TooSmall([], minimum, tick) && TotalQty([]) == 0 && Together([]) == []
  {
  }

  /** The whole answer. The targets that hold something, ordered by price, age and identity,
      fall from the first on into groups that have just reached the minimum, and a remainder
      that does not; the groups sell one after the other into the listed bids, best first. */
  lemma BatchesAreGroups(bids: seq<Level>, targets: seq<Target>, minimum: int, fees: Fees, tick: Option<int>)
    returns (ordered: seq<Target>, groups: seq<seq<Target>>, rest: seq<Target>, prices: seq<int>)
    ensures multiset(ordered) == multiset(targets)
    ensures forall i, j :: 0 <= i < j < |ordered| ==>
              var a, b := ordered[i], ordered[j];
              a.price <= b.price
              && (a.price == b.price ==> a.created <= b.created && (a.created == b.created ==> TextLe(a.id, b.id)))
    ensures Together(groups) + rest == Positive(ordered)
    ensures (forall k :: 0 <= k < |groups| ==> JustFull(groups[k], minimum, tick)) && TooSmall(rest, minimum, tick)
    ensures Falling(prices) && forall p :: p in prices <==> p in ByPrice(bids)
    ensures Sells(groups, prices, ByPrice(bids), minimum, fees, tick, Batches(bids, targets, minimum, fees, tick, false))
  {
    hide Sells, Group, ByPrice, PricesDown;
    TargetOrderIsTotal();
    SortSorts(TargetOrder(), targets);
    PricesDownCoverDepth(bids);
    NothingTooSmall(minimum, tick);
    ordered, prices := Sort(TargetOrder(), targets), PricesDown(bids);
    groups, rest := GroupsSell(ordered, [], prices, ByPrice(bids), minimum, fees, tick);
    assert [] + Positive(ordered) == Positive(ordered);
    forall i, j | 0 <= i < j < |ordered|
      ensures TargetLe(ordered[i], ordered[j])
    {
      assert TargetOrder()(ordered[i], ordered[j]);
    }
  }

  // ------------------------------------------------------------ what the sales bring

  function FeesOf(fills: seq<Fill>): int { if fills == [] then 0 else fills[0].fee + FeesOf(fills[1..]) }

  lemma {:induction false} AllFillsPriced(batches: seq<SellBatch>, fees: Fees)
    requires forall k :: 0 <= k < |batches| ==> AllPriced(fees, batches[k].fills)
    ensures AllPriced(fees, AllFills(batches))
  {
    if batches != [] {
      assert AllPriced(fees, batches[0].fills);
      AllFillsPriced(batches[1..], fees);
    }
  }

  /** Where fees stay within their fills' cost, what is credited and what is charged are
      together exactly what the shares cost. */
  lemma {:induction false} ProceedsAddUp(fills: seq<Fill>, fees: Fees)
    requires AllPriced(fees, fills) && forall f :: f in fills ==> f.fee <= Cost(f.price, f.net)
    ensures Spent(fills) + FeesOf(fills) == Quoted(fills)
  {
    hide Cost, Fees.Fee;
    if fills != [] {
      assert Priced(fees, fills[0]) && fills[0] in fills;
      ProceedsAddUp(fills[1..], fees);
    }
  }

  /** Over all batches together, with any fee that has an exponent. */
  lemma BatchesBring(bids: seq<Level>, targets: seq<Target>, minimum: int, fees: Fees, tick: Option<int>)
    requires fees.Valid() && fees.exponent > 0
    ensures var fills := AllFills(Batches(bids, targets, minimum, fees, tick, false));
            AllPriced(fees, fills) && Spent(fills) + FeesOf(fills) == Quoted(fills)
  {
    hide Batches, Cost, Fees.Fee, ByPrice;
    var batches := Batches(bids, targets, minimum, fees, tick, false);
    BatchesPriced(bids, targets, minimum, fees, tick, false);
    AllFillsPriced(batches, fees);
    BatchesInRange(bids, targets, minimum, fees, tick);
    forall f | f in AllFills(batches)
      ensures f.fee <= Cost(f.price, f.net)
    {
      var k :| 0 <= k < |AllFills(batches)| && AllFills(batches)[k] == f;
      assert Priced(fees, f);
      FeeWithinCost(fees, f.net, f.price);
    }
    ProceedsAddUp(AllFills(batches), fees);
  }

  lemma {:induction false} SalesInRange(groups: seq<seq<Target>>, prices: seq<int>, depth: Depth, minimum: int, fees: Fees,
                                        tick: Option<int>, batches: seq<SellBatch>)
    requires Sells(groups, prices, depth, minimum, fees, tick, batches)
    ensures forall f :: f in AllFills(batches) ==> f.net > 0 && 0 < f.price < SCALE
    decreases |groups|
  {
    hide OfferedOn, AllPriced, Without;
    if groups != [] {
      if q, l :| OfferedOn(groups[0], minimum, tick, q, l) {
        if forall p :: !Sellable(prices, depth, l, p) {
          SalesInRange(groups[1..], prices, depth, minimum, fees, tick, batches);
        } else {
          var fills := batches[0].fills;
          SalesInRange(groups[1..], prices, Without(depth, fills), minimum, fees, tick, batches[1..]);
          forall f | f in fills
            ensures f.net > 0 && 0 < f.price < SCALE
          {
            var i :| 0 <= i < |fills| && fills[i] == f;
            assert Sellable(prices, depth, l, fills[i].price);
          }
        }
      } else {
        SalesInRange(groups[1..], prices, depth, minimum, fees, tick, batches);
      }
    }
  }

  lemma BatchesInRange(bids: seq<Level>, targets: seq<Target>, minimum: int, fees: Fees, tick: Option<int>)
    ensures forall f :: f in AllFills(Batches(bids, targets, minimum, fees, tick, false)) ==> f.net > 0 && 0 < f.price < SCALE
  {
    hide Batches, ByPrice, Sells;
    var _, groups, _, prices := BatchesAreGroups(bids, targets, minimum, fees, tick);
    SalesInRange(groups, prices, ByPrice(bids), minimum, fees, tick, Batches(bids, targets, minimum, fees, tick, false));
  }
}
