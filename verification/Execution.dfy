/** The simulated venue: it plans the fills of a submitted order again, journals and
    delivers them one by one, and drives the order to its end. What it does is a run that
    the rules of simulated trading allow. */
module TestExecution {
  import opened Arith
  import opened FeeRules
  import opened Ledger
  import opened LedgerRuns
  import opened LedgerSteps
  import opened LedgerTheorems
  import opened OrderTerms
  import opened TestRuns
  import L = Ladder
  import S = SellBatching

  /** The token's book and terms when the order is executed. */
  datatype Market = Market(ready: bool, asks: seq<L.Level>, bids: seq<L.Level>, tick: int, minSize: int, fees: Fees,
                           markup: L.Markup)

  /** What the order adds to its intent: its price bounds, the identities its events will
      get, and the preferences that its first buy freezes. */
  datatype Order = Order(id: Id, limit: int, executionLimit: int, trades: seq<Id>, end: Id, rules: Rules, at: int)

  /** The fills an order gets; planning a buy over off-tick levels fails. */
  function VenueFills(o: Order, i: Intent, m: Market): Result<seq<L.Fill>> {
    if i.kind == Settlement then Ok([L.Fill(o.limit, i.quantity, i.quantity, Cost(o.limit, i.quantity), 0, 0)])
    else if !m.ready then Ok([])
    else if i.side == Buy then L.Plan(m.asks, i.cash, o.executionLimit, m.minSize, m.fees, m.tick, m.markup, None)
    else Ok(S.ExecuteSell(m.bids, i.quantity, o.limit, m.tick, m.minSize, m.fees))
  }

  /** What the venue fills, order by order. A settlement pays out what its shares are worth;
      without a ready book nothing is filled; a buy gets what a plan buys; another sale gets
      nothing without legal terms and otherwise the best of the bids. */
  ghost predicate FillsAre(o: Order, i: Intent, m: Market, r: Result<seq<L.Fill>>) {
    if i.kind == Settlement then
      && r.Ok? && |r.value| == 1 && r.value[0].net == i.quantity && r.value[0].price == o.limit
      && r.value[0].amount * SCALE <= o.limit * i.quantity < (r.value[0].amount + 1) * SCALE
    else if !m.ready then r == Ok([])
    else if i.side == Buy then
      L.PlanIs(m.asks, i.cash, o.executionLimit, m.minSize, m.fees, m.tick, m.markup,
               SignedNotional(i.cash, m.fees, m.tick, o.executionLimit), r)
    else
      && r.Ok?
      && var terms := NormalizeSell(i.quantity, o.limit, m.tick, m.minSize);
      if terms.Err? then r.value == []
      else
        exists prices ::
          && S.Falling(prices) && (forall p :: p in prices <==> p in L.ByPrice(m.bids))
          && S.FilledBest(prices, L.ByPrice(m.bids), terms.value.limit, terms.value.quantity, m.fees, r.value)
  }

  lemma VenueFillsAre(o: Order, i: Intent, m: Market)
    ensures FillsAre(o, i, m, VenueFills(o, i, m))
  {
    hide L.Plan, L.PlanIs, L.ByPrice, S.Falling, S.FilledBest, S.ExecuteSell, NormalizeSell;
    if i.kind == Settlement {
      CostIs(o.limit, i.quantity);
    } else if m.ready && i.side == Buy {
      L.PlanTells(m.asks, i.cash, o.executionLimit, m.minSize, m.fees, m.tick, m.markup, None);
    } else if m.ready {
      SaleFills(o, i, m);
    }
  }

  lemma SaleFills(o: Order, i: Intent, m: Market)
    ensures var terms, fills := NormalizeSell(i.quantity, o.limit, m.tick, m.minSize),
                                S.ExecuteSell(m.bids, i.quantity, o.limit, m.tick, m.minSize, m.fees);
            if terms.Err? then fills == []
            else
              var prices := S.PricesDown(m.bids);
              && S.Falling(prices) && (forall p :: p in prices <==> p in L.ByPrice(m.bids))
              && S.FilledBest(prices, L.ByPrice(m.bids), terms.value.limit, terms.value.quantity, m.fees, fills)
  {
    hide L.ByPrice, S.FilledBest, S.Falling, S.PricesDown, S.Batches, NormalizeSell;
    var terms := NormalizeSell(i.quantity, o.limit, m.tick, m.minSize);
    if terms.Ok? {
      NormalizedSellBounds(i.quantity, o.limit, m.tick, m.minSize);
      S.PricesDownCoverDepth(m.bids);
      S.SingleTargetExecutes(m.bids, terms.value.quantity, terms.value.limit, m.minSize, m.fees);
      S.TakeTells(S.PricesDown(m.bids), L.ByPrice(m.bids), terms.value.limit, terms.value.quantity, m.fees);
    }
  }

  /** The quantity at which the order closes by itself: a buy is sized to its fills. */
  function OrderQuantity(o: Order, i: Intent, m: Market, fills: seq<L.Fill>): int {
    if i.side == Buy then S.Sold(fills)
    else if i.kind == Settlement then i.quantity
    else
      match NormalizeSell(i.quantity, o.limit, m.tick, m.minSize)
      case Ok(terms) => terms.quantity
      case Err(_) => i.quantity
  }

  function Entered(o: Order, i: Intent, f: L.Fill, trade: Id): Event {
    Filled(Fill(o.id, trade, i.side, if f.net >= 0 then f.net else 0, f.price, f.gross, f.amount, o.rules, o.at))
  }

  function FillEvents(o: Order, i: Intent, fills: seq<L.Fill>): (r: seq<Event>)
    requires |fills| <= |o.trades|
    ensures |r| == |fills| && forall k :: 0 <= k < |fills| ==> r[k] == Entered(o, i, fills[k], o.trades[k])
  {
    seq(|fills|, k requires 0 <= k < |fills| => Entered(o, i, fills[k], o.trades[k]))
  }

  predicate Closes(o: Order, i: Intent, m: Market, fills: seq<L.Fill>) {
    fills != [] && S.Sold(fills) == OrderQuantity(o, i, m, fills)
  }

  /** An event that enters one planned fill under its own trade. */
  predicate Tells(o: Order, i: Intent, f: L.Fill, trade: Id, e: Event) {
    && e.Filled? && e.fill.order == o.id && e.fill.trade == trade && e.fill.side == i.side
    && (f.net >= 0 ==> e.fill.qty == f.net) && e.fill.price == f.price && e.fill.gross == f.gross
    && e.fill.amount == f.amount && e.fill.rules == o.rules && e.fill.at == o.at
  }

  /** The fills leave nothing of the order: a buy is as large as its fills, a settlement
      sells what is owed, and another sale what its legal terms offer. */
  predicate Complete(o: Order, i: Intent, m: Market, fills: seq<L.Fill>) {
    && fills != []
    && (i.side == Sell && i.kind == Settlement ==> S.Sold(fills) == i.quantity)
    && (i.side == Sell && i.kind != Settlement ==>
          var terms := NormalizeSell(i.quantity, o.limit, m.tick, m.minSize);
          S.Sold(fills) == if terms.Ok? then terms.value.quantity else i.quantity)
  }

  /** The loop that emits an order's events, in order: its fills, then its cancellation
      unless they filled it. */
  method EmitEvents(o: Order, i: Intent, m: Market, fills: seq<L.Fill>) returns (events: seq<Event>)
    requires |fills| <= |o.trades|
    ensures events == FillEvents(o, i, fills) + if Closes(o, i, m, fills) then [] else [Ended(o.id, o.end)]
    ensures |fills| <= |events| && forall k :: 0 <= k < |fills| ==> Tells(o, i, fills[k], o.trades[k], events[k])
    ensures events[|fills|..] == if Complete(o, i, m, fills) then [] else [Ended(o.id, o.end)]
  {
    events := [];
    var filled, index := 0, 0;
    while index < |fills|
      invariant 0 <= index <= |fills|
      invariant events == FillEvents(o, i, fills)[..index]
      invariant filled == S.Sold(fills[..index])
    {
      SoldNext(fills, index);
      filled := filled + fills[index].net;
      events := events + [Entered(o, i, fills[index], o.trades[index])];
      index := index + 1;
    }
    assert fills[..index] == fills;
    if fills == [] || filled != OrderQuantity(o, i, m, fills) {
      events := events + [Ended(o.id, o.end)];
    }
  }

  // ------------------------------------------------------------ what the fills keep to

  lemma {:induction false} SoldNext(fills: seq<L.Fill>, k: nat)
    requires k < |fills|
    ensures S.Sold(fills[..k + 1]) == S.Sold(fills[..k]) + fills[k].net
    decreases k
  {
    if k == 0 {
      assert fills[..1] == [fills[0]] && fills[..0] == [];
    } else {
      assert fills[..k + 1][1..] == fills[1..][..k] && fills[..k][1..] == fills[1..][..k - 1];
      SoldNext(fills[1..], k - 1);
    }
  }

  lemma {:induction false} SpentNext(fills: seq<L.Fill>, k: nat)
    requires k < |fills|
    ensures L.Spent(fills[..k + 1]) == L.Spent(fills[..k]) + fills[k].amount
    decreases k
  {
    if k == 0 {
      assert fills[..1] == [fills[0]] && fills[..0] == [];
    } else {
      assert fills[..k + 1][1..] == fills[1..][..k] && fills[..k][1..] == fills[1..][..k - 1];
      SpentNext(fills[1..], k - 1);
    }
  }

  /** Positive quantities, no negative amounts, a buy within its cash at every fill and a
      sale within its quantity. */
  ghost predicate Proper(i: Intent, fills: seq<L.Fill>) {
    && (forall k :: 0 <= k < |fills| ==> fills[k].net > 0 && fills[k].amount >= 0)
    && (i.side == Buy ==> forall n :: 0 <= n <= |fills| ==> L.Spent(fills[..n]) <= i.cash)
    && (i.side == Sell ==> S.Sold(fills) <= i.quantity)
  }

  lemma BuyProper(o: Order, i: Intent, m: Market)
    requires i.side == Buy && i.kind == Entry && i.cash >= 0 && m.ready && VenueFills(o, i, m).Ok?
    ensures Proper(i, VenueFills(o, i, m).value)
  {
    var fills := VenueFills(o, i, m).value;
    if fills != [] {
      var quote := SignedNotional(i.cash, m.fees, m.tick, o.executionLimit).value;
      L.WalkWithinBudgets(L.TakeableLevels(m.asks, o.executionLimit), i.cash, quote, m.fees, m.tick, m.markup);
    }
    forall n | 0 <= n <= |fills|
      ensures L.Spent(fills[..n]) <= i.cash
    {
      L.PlanFitsFillByFill(m.asks, i.cash, o.executionLimit, m.minSize, m.fees, m.tick, m.markup, None, n);
    }
  }

  lemma SaleProper(o: Order, i: Intent, m: Market)
    requires i.side == Sell && i.kind != Settlement && i.quantity > 0 && m.ready
    ensures VenueFills(o, i, m).Ok? && Proper(i, VenueFills(o, i, m).value)
  {
    match NormalizeSell(i.quantity, o.limit, m.tick, m.minSize) {
      case Err(_) =>
      case Ok(terms) =>
        NormalizedSellBounds(i.quantity, o.limit, m.tick, m.minSize);
        S.SingleTargetExecutes(m.bids, terms.quantity, terms.limit, m.minSize, m.fees);
        S.TakeConserves(S.PricesDown(m.bids), L.ByPrice(m.bids), terms.limit, terms.quantity, m.fees);
    }
  }

  lemma FillsAreProper(o: Order, i: Intent, m: Market)
    requires VenueFills(o, i, m).Ok? && i.quantity > 0 && (i.side == Buy ==> i.kind == Entry && i.cash >= 0)
    requires i.kind == Settlement ==> i.side == Sell && o.limit >= 0
    ensures Proper(i, VenueFills(o, i, m).value)
  {
    if i.kind == Settlement {
      MulNonneg(o.limit, i.quantity);
      FloorAtLeast(o.limit * i.quantity, SCALE, 0);
    } else if !m.ready {
      assert VenueFills(o, i, m).value == [];
    } else if i.side == Buy {
      BuyProper(o, i, m);
    } else {
      SaleProper(o, i, m);
    }
  }

  // ------------------------------------------------------------ the whole submission is a run

  /** `k` fills of the order are journaled and projected, and nothing else is open. */
  ghost predicate Filling(s: State, o: Order, i: Intent, fills: seq<L.Fill>, k: nat) {
    && Inv(s) && s.b.cursor == |s.journal| && k <= |fills| <= |o.trades|
    && o.id in s.intents && SameOrder(s.intents[o.id], i) && !s.intents[o.id].terminal
    && (forall p :: p in s.intents && p != o.id ==> s.intents[p].terminal)
    && FilledQty(s.journal, o.id) == S.Sold(fills[..k]) && Paid(s.journal, o.id) == L.Spent(fills[..k])
    && s.budget == o.rules.budget
    && (forall j :: 0 <= j < |s.journal| && s.journal[j].Filled? && s.journal[j].fill.order == o.id ==>
          Before(o, s.journal[j].fill.trade, k))
  }

  /** The trade is one of the order's first `k`. */
  predicate Before(o: Order, trade: Id, k: nat) { k <= |o.trades| && trade in o.trades[..k] }

  ghost predicate DistinctTrades(o: Order) {
    forall j, k :: 0 <= j < k < |o.trades| ==> o.trades[j] != o.trades[k]
  }

  lemma DeliveredOrders(s: State, closed: bool)
    requires Inv(s) && s.b.cursor < |s.journal|
    ensures var e := Upcoming(s);
            var t := Delivered(s, closed);
            && Inv(t) && t.b.cursor == s.b.cursor + 1
            && t.journal == s.journal && t.budget == s.budget && t.initial == s.initial
            && e.Order() in s.intents
            && t.intents == s.intents[e.Order() := Advanced(s.intents[e.Order()], e, closed)]
  {
    hide Core, ApplyFill, Released, Active;
    NextApplies(s, closed);
    DeliverKeeps(s, closed);
  }

  lemma SaleWithin(fills: seq<L.Fill>, k: nat)
    requires k < |fills| && forall j :: 0 <= j < |fills| ==> fills[j].net > 0
    ensures S.Sold(fills[..k]) + fills[k].net <= S.Sold(fills)
  {
    SoldNext(fills, k);
    SoldGrows(fills, k + 1);
  }

  lemma {:induction false} SoldGrows(fills: seq<L.Fill>, k: nat)
    requires k <= |fills| && forall j :: 0 <= j < |fills| ==> fills[j].net > 0
    ensures S.Sold(fills[..k]) <= S.Sold(fills)
    decreases |fills| - k
  {
    if k == |fills| {
      assert fills[..k] == fills;
    } else {
      SoldNext(fills, k);
      SoldGrows(fills, k + 1);
    }
  }

  /** The next fill may be journaled: it is new, positive and within what the order has left. */
  lemma FillMayBeRecorded(s: State, o: Order, i: Intent, fills: seq<L.Fill>, k: nat)
    requires Filling(s, o, i, fills, k) && k < |fills| && Proper(i, fills) && DistinctTrades(o)
    ensures TestEnabled(s, Record(Entered(o, i, fills[k], o.trades[k])))
  {
    hide Core, AllKept, Pending;
    var e := Entered(o, i, fills[k], o.trades[k]);
    forall j | 0 <= j < |s.journal| && s.journal[j].Filled?
      ensures TargetKey(s.journal[j].fill) != TargetKey(e.fill)
    {
      assert s.journal[j].fill.order == o.id ==> Before(o, s.journal[j].fill.trade, k);
    }
    SpentNext(fills, k);
    assert i.side == Buy ==> L.Spent(fills[..k + 1]) <= i.cash;
    SaleWithin(fills, k);
  }

  /** One fill journaled and projected. */
  lemma OneFill(s: State, o: Order, i: Intent, fills: seq<L.Fill>, k: nat, closed: bool) returns (t: State)
    requires Filling(s, o, i, fills, k) && k < |fills| && Proper(i, fills) && DistinctTrades(o)
    ensures var e := Entered(o, i, fills[k], o.trades[k]);
            && TestReaches(s, [Record(e), Deliver(closed)], t) && t.journal == s.journal + [e]
    ensures if closed then Inv(t) && Idle(t) else Filling(t, o, i, fills, k + 1)
  {
    hide Inv, TestEnabled, Delivered;
    var e := Entered(o, i, fills[k], o.trades[k]);
    FillMayBeRecorded(s, o, i, fills, k);
    TestStepEnabled(s, Record(e));
    StepKeeps(s, Record(e));
    var r := s.(journal := s.journal + [e]);
    assert Next(s, Record(e)) == r;
    DeliveredOrders(r, closed);
    t := Delivered(r, closed);
    TwoSteps(s, Record(e), Deliver(closed), t);
    FilledAppend(s.journal, e, o.id);
    PaidAppend(s.journal, e, o.id);
    SoldNext(fills, k);
    SpentNext(fills, k);
    forall j | 0 <= j < |t.journal| && t.journal[j].Filled? && t.journal[j].fill.order == o.id
      ensures Before(o, t.journal[j].fill.trade, k + 1)
    {
      if j < |s.journal| {
        assert s.journal[j] == t.journal[j];
        assert Before(o, s.journal[j].fill.trade, k);
      } else {
        assert o.trades[..k + 1][k] == o.trades[k];
      }
    }
  }

  lemma TwoSteps(s: State, a: Action, b: Action, t: State)
    requires TestEnabled(s, a) && b.Deliver? && Next(s, a).b.cursor < |Next(s, a).journal|
    requires t == Delivered(Next(s, a), b.closed)
    ensures TestReaches(s, [a, b], t)
  {
    var r := Next(s, a);
    assert TestEnabled(r, b) && Next(r, b) == t;
    assert [a, b][1..] == [b] && [b][1..] == [];
    assert TestReaches(t, [], t);
    assert TestReaches(r, [b], t);
  }

  lemma {:induction false} ReachesOn(s: State, first: seq<Action>, r: State, more: seq<Action>, t: State)
    requires TestReaches(s, first, r) && TestReaches(r, more, t)
    ensures TestReaches(s, first + more, t)
    decreases |first|
  {
    if first == [] {
      assert first + more == more;
    } else {
      ReachesOn(Next(s, first[0]), first[1..], r, more, t);
      assert (first + more)[1..] == first[1..] + more;
    }
  }

  /** The order's cancellation, journaled and projected, finishes it. */
  lemma Cancelled(s: State, o: Order, i: Intent, fills: seq<L.Fill>, k: nat) returns (t: State)
    requires Filling(s, o, i, fills, k)
    ensures TestReaches(s, [Record(Ended(o.id, o.end)), Deliver(false)], t)
    ensures t.journal == s.journal + [Ended(o.id, o.end)] && Inv(t) && Idle(t)
  {
    hide Core, AllKept, Delivered;
    var e := Ended(o.id, o.end);
    assert TestEnabled(s, Record(e));
    StepKeeps(s, Record(e));
    var r := s.(journal := s.journal + [e]);
    assert Next(s, Record(e)) == r;
    DeliveredOrders(r, false);
    t := Delivered(r, false);
    TwoSteps(s, Record(e), Deliver(false), t);
  }

  /** From the k-th fill on: the rest of the order's events are allowed one by one, and
      the order ends with everything projected. */
  lemma {:induction false} RestOfOrder(s: State, o: Order, i: Intent, m: Market, fills: seq<L.Fill>, k: nat)
    returns (actions: seq<Action>, t: State)
    requires Filling(s, o, i, fills, k) && Proper(i, fills) && DistinctTrades(o)
    requires k == |fills| ==> !Closes(o, i, m, fills)
    ensures TestReaches(s, actions, t) && Inv(t) && Idle(t)
    ensures t.journal == s.journal + FillEvents(o, i, fills)[k..]
                         + if Closes(o, i, m, fills) then [] else [Ended(o.id, o.end)]
    decreases |fills| - k
  {
    hide Inv, TestReaches, Filling, Proper, DistinctTrades, Idle, Closes, Entered;
    FillingBounds(s, o, i, fills, k);
    var events := FillEvents(o, i, fills);
    if k == |fills| {
      t := Cancelled(s, o, i, fills, k);
      actions := [Record(Ended(o.id, o.end)), Deliver(false)];
      assert events[k..] == [];
    } else {
      var closed := Closes(o, i, m, fills) && k == |fills| - 1;
      var r := OneFill(s, o, i, fills, k, closed);
      actions := [Record(Entered(o, i, fills[k], o.trades[k])), Deliver(closed)];
      assert events[k..] == [events[k]] + events[k + 1..];
      if closed {
        t := r;
        assert events[k + 1..] == [];
      } else {
        var more, last := RestOfOrder(r, o, i, m, fills, k + 1);
        ReachesOn(s, actions, r, more, last);
        actions, t := actions + more, last;
        assert s.journal + ([events[k]] + events[k + 1..]) == s.journal + [events[k]] + events[k + 1..];
      }
    }
  }

  lemma FillingBounds(s: State, o: Order, i: Intent, fills: seq<L.Fill>, k: nat)
    requires Filling(s, o, i, fills, k)
    ensures k <= |fills| <= |o.trades|
  {
  }

  /** A submission allowed by the decision rules, executed by the simulated venue: every
      event it journals is allowed when it comes, the journal grows by exactly the events
      the venue emits, and afterwards the books are idle again. So what simulated trading
      assumes of its venue is what the venue does. */
  lemma SubmissionIsARun(s: State, o: Order, i: Intent, m: Market) returns (actions: seq<Action>, t: State)
    requires Inv(s) && TestEnabled(s, Submit(o.id, i)) && VenueFills(o, i, m).Ok?
    requires |VenueFills(o, i, m).value| <= |o.trades| && DistinctTrades(o) && o.rules.budget == s.budget
    requires i.kind == Settlement ==> o.limit >= 0
    ensures TestReaches(s, actions, t) && Inv(t) && Idle(t)
    ensures var fills := VenueFills(o, i, m).value;
            t.journal == s.journal + FillEvents(o, i, fills)
                         + if Closes(o, i, m, fills) then [] else [Ended(o.id, o.end)]
  {
    var fills := VenueFills(o, i, m).value;
    SubmitIsEnabled(s, o, i);
    FillsAreProper(o, i, m);
    var r := Submitted(s, o, i, fills);
    var rest;
    rest, t := RestOfOrder(r, o, i, m, fills, 0);
    ReachesOn(s, [Submit(o.id, i)], r, rest, t);
    actions := [Submit(o.id, i)] + rest;
    assert FillEvents(o, i, fills)[0..] == FillEvents(o, i, fills);
  }

  lemma SubmitIsEnabled(s: State, o: Order, i: Intent)
    requires TestEnabled(s, Submit(o.id, i))
    ensures i.quantity > 0 && Idle(s) && (i.side == Buy ==> i.kind == Entry && i.cash >= 0)
    ensures i.kind == Settlement ==> i.side == Sell
  {
  }

  lemma Submitted(s: State, o: Order, i: Intent, fills: seq<L.Fill>) returns (r: State)
    requires Inv(s) && TestEnabled(s, Submit(o.id, i)) && |fills| <= |o.trades| && o.rules.budget == s.budget
    ensures TestReaches(s, [Submit(o.id, i)], r) && r.journal == s.journal && Filling(r, o, i, fills, 0)
  {
    hide Core, AllKept, Listed, Caught;
    r := s.(intents := s.intents[o.id := i]);
    StepKeeps(s, Submit(o.id, i));
    CoreJournaled(s);
    FilledNothing(s.journal, o.id);
    PaidNothing(s.journal, o.id);
    assert fills[..0] == [];
    assert [Submit(o.id, i)][1..] == [];
    assert TestReaches(r, [], r);
  }
}
