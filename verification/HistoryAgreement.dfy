/** The history's own replay and the strategy's cycles are computed apart; in every
    reachable state they tell the same positions, costs and profit. */
module HistoryAgreement {
  import opened Arith
  import opened History
  import opened Ledger
  import opened LedgerRuns
  import opened LedgerSteps
  import opened LedgerTheorems
  import opened MapSum

  function HeldQty(b: Business, t: Token): int {
    if t.event in b.cycles && b.cycles[t.event].token == t then b.cycles[t.event].quantity else 0
  }

  function HeldCost(b: Business, t: Token): int {
    if t.event in b.cycles && b.cycles[t.event].token == t then b.cycles[t.event].cost else 0
  }

  function Profits(rows: Groups): map<Id, int> { map o | o in rows :: rows[o].pnl }

  ghost predicate SamePositions(p: Positions, b: Business) {
    forall t: Token :: At(p.qty, t) == HeldQty(b, t) && At(p.basis, t) == HeldCost(b, t)
  }

  ghost predicate Agrees(r: Replay, b: Business) {
    !r.incomplete && SamePositions(r.held, b) && Sum(Profits(r.rows)) == b.realized
  }

  ghost predicate HistoryAgrees(s: State) {
    s.b.cursor <= |s.journal| && Agrees(Replayed(s.journal[..s.b.cursor], s.intents), s.b)
  }

  /** The replay looks at nothing of an order but its token and kind. */
  lemma {:induction false} ReplayedSame(js: seq<Event>, intents: Intents, intents': Intents)
    requires forall k :: 0 <= k < |js| ==> js[k].Order() in intents && js[k].Order() in intents'
                                           && SameOrder(intents'[js[k].Order()], intents[js[k].Order()])
    ensures Replayed(js, intents') == Replayed(js, intents)
  {
    if js != [] {
      var e := js[|js| - 1];
      assert SameOrder(intents'[e.Order()], intents[e.Order()]);
      ReplayedSame(js[..|js| - 1], intents, intents');
    }
  }

  lemma RowProfit(r: Replay, i: Intent, f: Fill, seqno: nat)
    ensures var row := RowAfter(r.rows, r.held, i, f, seqno);
            Sum(Profits(r.rows[f.order := row])) == Sum(Profits(r.rows)) + ValueOf(Profit(r.held, i.token, f))
  {
    var row := RowAfter(r.rows, r.held, i, f, seqno);
    assert Profits(r.rows[f.order := row]) == Profits(r.rows)[f.order := row.pnl];
    SumUpdate(Profits(r.rows), f.order, row.pnl);
  }

  lemma UsedIsAllocated(p: Positions, t: Token, c: Cycle, qty: int)
    requires At(p.qty, t) == c.quantity && At(p.basis, t) == c.cost && 0 < qty <= c.quantity
    ensures Used(p, t, qty) == Allocated(c, qty)
  {
    assert Max(At(p.qty, t), 1) == c.quantity;
  }

  lemma AllAllocated(c: Cycle)
    requires c.quantity >= 0
    ensures Allocated(c, c.quantity) == c.cost
  {
  }

  /** A fill moves the history's position and the strategy's cycle alike. */
  lemma FillMovesAlike(r: Replay, b: Business, i: Intent, f: Fill)
    requires Agrees(r, b) && ApplyFill(b, i, f).Ok? && f.qty > 0
    requires i.token.event in b.cycles ==> CycleOk(b, i.token.event) && b.cycles[i.token.event].token == i.token
    ensures SamePositions(Moved(r.held, i.token, f), ApplyFill(b, i, f).value)
    ensures ApplyFill(b, i, f).value.realized == b.realized + ValueOf(Profit(r.held, i.token, f))
  {
    hide TargetSum, Exempt, TakeTargets, Profits, Sum, Used, Allocated;
    var t, b1, p1 := i.token, ApplyFill(b, i, f).value, Moved(r.held, i.token, f);
    assert At(r.held.qty, t) == HeldQty(b, t) && At(r.held.basis, t) == HeldCost(b, t);
    if f.side == Sell {
      UsedIsAllocated(r.held, t, b.cycles[t.event], f.qty);
      if f.qty == b.cycles[t.event].quantity {
        AllAllocated(b.cycles[t.event]);
      }
    }
    forall x: Token
      ensures At(p1.qty, x) == HeldQty(b1, x) && At(p1.basis, x) == HeldCost(b1, x)
    {
      assert At(r.held.qty, x) == HeldQty(b, x) && At(r.held.basis, x) == HeldCost(b, x);
    }
  }

  /** The upcoming fill is of the token its Event's cycle holds. */
  lemma UpcomingToken(s: State)
    requires Core(s) && s.b.cursor < |s.journal| && Upcoming(s).Filled?
    ensures var i := s.intents[Upcoming(s).fill.order];
            i.token.event in s.b.cycles ==>
              CycleOk(s.b, i.token.event) && s.b.cycles[i.token.event].token == i.token
  {
    hide TargetSum, Listed, ClaimsOk, FilledQty, TargetsOk, Alone, Known, Exempt, Left, CycleOk;
    var o := Upcoming(s).fill.order;
    UpcomingOwned(s);
    assert Pending(s, o);
    assert OrderOk(s, o);
  }

  lemma MidwayAgrees(s: State, s1: State, closed: bool)
    requires Core(s) && Midway(s, s1, closed) && HistoryAgrees(s)
    ensures HistoryAgrees(s1)
  {
    hide Live, Pending, Known, TargetSum, Listed, OrdersOk, ClaimsOk, Alone, FilledQty, TargetsOk, Moved, Profit,
         ApplyFill, SamePositions, RowAfter, CycleOk;
    MidwayOrders(s, s1, closed);
    UpcomingOwned(s);
    var js := s.journal[..s.b.cursor + 1];
    assert js[..s.b.cursor] == s.journal[..s.b.cursor];
    assert forall p :: p in s.intents ==> SameOrder(s1.intents[p], s.intents[p]);
    ReplayedSame(js, s.intents, s1.intents);
    var e := Upcoming(s);
    var r := Replayed(s.journal[..s.b.cursor], s.intents);
    if e.Filled? {
      var i := s.intents[e.fill.order];
      UpcomingToken(s);
      FillMovesAlike(r, s.b, i, e.fill);
      RowProfit(r, i, e.fill, s.b.cursor + 1);
      SameHeld(Moved(r.held, i.token, e.fill), ApplyFill(s.b, i, e.fill).value, s1.b);
    } else {
      SameHeld(r.held, s.b, s1.b);
    }
  }

  lemma SameHeld(p: Positions, b: Business, b': Business)
    requires SamePositions(p, b)
    requires forall t: Token :: HeldQty(b', t) == HeldQty(b, t) && HeldCost(b', t) == HeldCost(b, t)
    ensures SamePositions(p, b')
  {
  }

  lemma ReleaseAgrees(s: State, event: Id, active: bool)
    requires Core(s) && HistoryAgrees(s)
    ensures HistoryAgrees(s.(b := Released(s.b, event, active)))
  {
    hide SamePositions, Replayed, TargetSum, Exempt;
    var b := Released(s.b, event, active);
    if event in s.b.cycles {
      assert CycleOk(s.b, event);
    }
    SameHeld(Replayed(s.journal[..s.b.cursor], s.intents).held, s.b, b);
  }

  lemma DeliverAgrees(s: State, closed: bool)
    requires Inv(s) && s.b.cursor < |s.journal| && HistoryAgrees(s)
    ensures HistoryAgrees(Delivered(s, closed))
  {
    hide Core, ApplyEvent, Active, Released, HistoryAgrees;
    NextApplies(s, closed);
    CoreJournaled(s);
    var r := ApplyEvent(s.b, s.intents, Upcoming(s), s.b.cursor + 1, closed).value;
    var s1 := s.(b := r.0, intents := r.1);
    var event := s.intents[Upcoming(s).Order()].token.event;
    assert Midway(s, s1, closed);
    MidwayKeeps(s, s1, closed);
    MidwayAgrees(s, s1, closed);
    ReleaseAgrees(s1, event, Active(s1.intents, event));
    assert Delivered(s, closed) == s1.(b := Released(s1.b, event, Active(s1.intents, event)));
  }

  lemma RetireAgrees(s: State, o: Id)
    requires Inv(s) && HistoryAgrees(s) && o in s.intents
    ensures HistoryAgrees(Retired(s, o))
  {
    hide Core, Active, Released, SamePositions, Replayed;
    var t, event := Finished(s, o), s.intents[o].token.event;
    FinishKeeps(s, o);
    CoreJournaled(s);
    ReplayedSame(s.journal[..s.b.cursor], s.intents, t.intents);
    ReleaseAgrees(t, event, Active(t.intents, event));
  }

  lemma StepAgrees(s: State, a: Action)
    requires Inv(s) && Enabled(s, a) && HistoryAgrees(s)
    ensures HistoryAgrees(Next(s, a))
  {
    hide SamePositions, Delivered, Observed, Identified, Retired, MayRecord, Core, Replayed, Active, Caught;
    var r := Replayed(s.journal[..s.b.cursor], s.intents);
    match a
    case Submit(o, i) =>
      CoreJournaled(s);
      ReplayedSame(s.journal[..s.b.cursor], s.intents, s.intents[o := i]);
    case Record(e) => assert (s.journal + [e])[..s.b.cursor] == s.journal[..s.b.cursor];
    case Deliver(closed) => DeliverAgrees(s, closed);
    case Observe(event, bid, seen, now, ready) =>
      ObserveHolds(s.b, event, bid, seen, now, ready);
      SameHeld(r.held, s.b, Next(s, a).b);
    case Identify(t, amount) =>
      IdentifyHolds(s.b, t, amount);
      SameHeld(r.held, s.b, Next(s, a).b);
    case Configure(_) =>
    case Retire(o) => RetireAgrees(s, o);
  }

  ghost predicate HoldsAlike(b: Business, b': Business) {
    && b'.cursor == b.cursor && b'.realized == b.realized
    && forall t: Token :: HeldQty(b', t) == HeldQty(b, t) && HeldCost(b', t) == HeldCost(b, t)
  }

  lemma ObserveHolds(b: Business, event: Id, bid: Option<int>, seen: string, now: int, ready: bool)
    requires event in b.cycles
    ensures HoldsAlike(b, Observed(b, event, bid, seen, now, ready))
  {
  }

  lemma IdentifyHolds(b: Business, t: Token, amount: int)
    requires t.event in b.cycles
    ensures HoldsAlike(b, Identified(b, t, amount))
  {
  }

  lemma {:induction false} RunAgrees(s: State, actions: seq<Action>, t: State)
    requires Inv(s) && Reaches(s, actions, t) && HistoryAgrees(s)
    ensures HistoryAgrees(t)
    decreases |actions|
  {
    hide Inv, Enabled, Next, HistoryAgrees;
    if actions != [] {
      StepKeeps(s, actions[0]);
      StepAgrees(s, actions[0]);
      RunAgrees(Next(s, actions[0]), actions[1..], t);
    }
  }

  /** In every reachable state the replay of the projected journal holds, per token, the
      cycle's quantity at the cycle's cost, and its rows' profits add up to the realized
      profit. */
  lemma HistoryTellsTheLedger(initial: int, budget: int, actions: seq<Action>, t: State)
    requires Reaches(Start(initial, budget), actions, t)
    ensures t.b.cursor <= |t.journal|
    ensures var r := Replayed(t.journal[..t.b.cursor], t.intents);
            && (forall x: Token :: At(r.held.qty, x) == HeldQty(t.b, x) && At(r.held.basis, x) == HeldCost(t.b, x))
            && Sum(Profits(r.rows)) == t.b.realized && !r.incomplete
  {
    StartInv(initial, budget);
    var s := Start(initial, budget);
    assert Profits(Replayed([], s.intents).rows) == map[];
    RunAgrees(s, actions, t);
  }
}
