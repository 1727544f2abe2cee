/** What holds in every state that a run can reach. */
module LedgerTheorems {
  import opened Arith
  import opened Ledger
  import opened LedgerRuns
  import opened LedgerSteps
  import opened MapSum

  function Start(initial: int, budget: int): State {
    State(EmptyBusiness, map[], [], budget, initial)
  }

  ghost predicate Reaches(s: State, actions: seq<Action>, t: State)
    decreases |actions|
  {
    if actions == [] then s == t
    else Enabled(s, actions[0]) && Reaches(Next(s, actions[0]), actions[1..], t)
  }

  // ------------------------------------------------------------ nothing gets stuck

  /** The next journaled event can always be applied: no sibling conflict, no oversold
      position, no missing claim. */
  lemma NextApplies(s: State, closed: bool)
    requires Core(s) && s.b.cursor < |s.journal|
    ensures Upcoming(s).Order() in s.intents
    ensures ApplyEvent(s.b, s.intents, Upcoming(s), s.b.cursor + 1, closed).Ok?
  {
    hide TargetSum, Listed, ClaimsOk, FilledQty, TargetsOk, CyclesOk, Alone, Known, Exempt, Left;
    UpcomingOwned(s);
    var e := Upcoming(s);
    if e.Filled? {
      assert Pending(s, e.fill.order);
      assert OrderOk(s, e.fill.order);
      if e.fill.side == Sell {
        PendingWithin(s, s.b.cursor);
      }
    }
  }

  lemma DeliverKeeps(s: State, closed: bool)
    requires Inv(s) && s.b.cursor < |s.journal|
    ensures Inv(Delivered(s, closed))
    ensures Delivered(s, closed).b.cursor == s.b.cursor + 1
  {
    hide Core, ApplyEvent, Active, Released;
    NextApplies(s, closed);
    var r := ApplyEvent(s.b, s.intents, Upcoming(s), s.b.cursor + 1, closed).value;
    var s1 := s.(b := r.0, intents := r.1);
    var event := s.intents[Upcoming(s).Order()].token.event;
    CoreJournaled(s);
    assert Midway(s, s1, closed);
    MidwayKeeps(s, s1, closed);
    MidwayOrders(s, s1, closed);
    MidwayKept(s, s1, closed);
    ReleaseKeeps(s1, event);
    assert Delivered(s, closed) == s1.(b := Released(s1.b, event, Active(s1.intents, event)));
    ReleasedCursor(s1.b, event, Active(s1.intents, event));
  }

  lemma ReleasedCursor(b: Business, event: Id, active: bool)
    ensures Released(b, event, active).cursor == b.cursor
  {
  }

  lemma CoreJournaled(s: State)
    requires Core(s)
    ensures Journaled(s)
  {
  }

  /** Applying an event can empty only its own Event's cycle. */
  lemma MidwayKept(s: State, s1: State, closed: bool)
    requires Midway(s, s1, closed) && AllKept(s)
    ensures forall x :: x != s.intents[Upcoming(s).Order()].token.event ==> Kept(s1, x)
  {
    MidwayOrders(s, s1, closed);
    var o := Upcoming(s).Order();
    forall x | x != s.intents[o].token.event && x in s1.b.cycles && s1.b.cycles[x].quantity == 0
      ensures Kept(s1, x)
    {
      assert Kept(s, x);
      var p :| p in s.intents && s.intents[p].token.event == x && !s.intents[p].terminal;
      assert s1.intents[p] == s.intents[p];
    }
  }

  lemma StepKeeps(s: State, a: Action)
    requires Inv(s) && Enabled(s, a)
    ensures Inv(Next(s, a))
  {
    hide Core, Active, MayRecord, Delivered, Observed, Identified, Retired, Kept, Caught;
    match a
    case Submit(o, i) =>
      SubmitKeeps(s, o, i);
      SubmitKept(s, o, i);
    case Record(e) =>
      RecordKeeps(s, e);
      SameKept(s, Next(s, a));
    case Deliver(closed) => DeliverKeeps(s, closed);
    case Observe(event, bid, seen, now, ready) =>
      ObserveKeeps(s, event, bid, seen, now, ready);
      ObserveKept(s, event, bid, seen, now, ready);
    case Identify(t, amount) =>
      IdentifyKeeps(s, t, amount);
      IdentifyKept(s, t, amount);
    case Configure(budget) =>
      ConfigureKeeps(s, budget);
      SameKept(s, Next(s, a));
    case Retire(o) => RetireKeeps(s, o);
  }

  lemma RetireKeeps(s: State, o: Id)
    requires Inv(s) && o in s.intents
    ensures Inv(Retired(s, o))
  {
    hide Core;
    var t, event := Finished(s, o), s.intents[o].token.event;
    FinishKeeps(s, o);
    forall x | x != event && x in t.b.cycles && t.b.cycles[x].quantity == 0
      ensures Kept(t, x)
    {
      assert Kept(s, x);
      var p :| p in s.intents && s.intents[p].token.event == x && !s.intents[p].terminal;
      assert t.intents[p] == s.intents[p];
    }
    ReleaseKeeps(t, event);
  }

  lemma SameKept(s: State, t: State)
    requires t.intents == s.intents && t.b == s.b && AllKept(s)
    ensures AllKept(t)
  {
    forall x
      ensures Kept(t, x)
    {
      assert Kept(s, x);
    }
  }

  lemma SubmitKept(s: State, o: Id, i: Intent)
    requires o !in s.intents && AllKept(s)
    ensures AllKept(s.(intents := s.intents[o := i]))
  {
    var t := s.(intents := s.intents[o := i]);
    forall x | Active(s.intents, x)
      ensures Active(t.intents, x)
    {
      var p :| p in s.intents && s.intents[p].token.event == x && !s.intents[p].terminal;
      assert t.intents[p] == s.intents[p];
    }
    forall x
      ensures Kept(t, x)
    {
      assert Kept(s, x);
    }
  }

  lemma ObserveKept(s: State, event: Id, bid: Option<int>, seen: string, now: int, ready: bool)
    requires event in s.b.cycles && AllKept(s)
    ensures AllKept(s.(b := Observed(s.b, event, bid, seen, now, ready)))
  {
    hide Active;
    forall x
      ensures Kept(s.(b := Observed(s.b, event, bid, seen, now, ready)), x)
    {
      assert Kept(s, x);
    }
  }

  lemma IdentifyKept(s: State, t: Token, amount: int)
    requires t.event in s.b.cycles && AllKept(s)
    ensures AllKept(s.(b := Identified(s.b, t, amount)))
  {
    hide Active;
    forall x
      ensures Kept(s.(b := Identified(s.b, t, amount)), x)
    {
      assert Kept(s, x);
    }
  }

  lemma ConfigureKeeps(s: State, budget: int)
    requires Core(s)
    ensures Core(s.(budget := budget))
  {
    hide TargetSum, Listed, FilledQty, Known, Live, Exempt;
    var s' := s.(budget := budget);
    forall p
      ensures Live(s', p) <==> Live(s, p)
    {
      BudgetAside(s, budget, p);
    }
    forall p | Live(s', p)
      ensures OrderOk(s', p)
    {
      assert OrderOk(s, p);
    }
    forall k | k in s'.b.targets
      ensures TargetOk(s', k)
    {
      assert TargetOk(s, k);
    }
    forall k | k in s'.b.claims
      ensures ClaimOk(s', k)
    {
      assert ClaimOk(s, k);
    }
  }

  lemma BudgetAside(s: State, budget: int, p: Id)
    ensures Live(s.(budget := budget), p) <==> Live(s, p)
  {
    assert Pending(s.(budget := budget), p) <==> Pending(s, p);
  }

  lemma StartInv(initial: int, budget: int)
    ensures Inv(Start(initial, budget))
  {
  }

  lemma {:induction false} RunKeeps(s: State, actions: seq<Action>, t: State)
    requires Inv(s) && Reaches(s, actions, t)
    ensures Inv(t)
    decreases |actions|
  {
    hide Inv, Enabled, Next;
    if actions != [] {
      StepKeeps(s, actions[0]);
      RunKeeps(Next(s, actions[0]), actions[1..], t);
    }
  }

  // ------------------------------------------------------------ conservation of money

  /** Cash up to the cursor and the cost still held are what was paid in and earned. */
  ghost predicate Balanced(s: State) {
    && s.b.cursor <= |s.journal|
    && Cash(s.initial, s.journal[..s.b.cursor]) + Sum(Costs(s.b.cycles)) == s.initial + s.b.realized
  }

  lemma CashNext(s: State)
    requires s.b.cursor < |s.journal|
    ensures var e := Upcoming(s);
            Cash(s.initial, s.journal[..s.b.cursor + 1])
            == Cash(s.initial, s.journal[..s.b.cursor])
               + if !e.Filled? then 0 else if e.fill.side == Buy then -e.fill.amount else e.fill.amount
  {
    assert s.journal[..s.b.cursor + 1][..s.b.cursor] == s.journal[..s.b.cursor];
  }

  lemma CostOfUpdate(cycles: map<Id, Cycle>, event: Id, c: Cycle)
    ensures Sum(Costs(cycles[event := c]))
            == Sum(Costs(cycles)) + c.cost - if event in cycles then cycles[event].cost else 0
  {
    assert Costs(cycles[event := c]) == Costs(cycles)[event := c.cost];
    SumUpdate(Costs(cycles), event, c.cost);
  }

  /** A buy moves its amount from cash into cost, a sale moves the allocated cost out and
      books the rest as profit, however the allocation was rounded. */
  lemma MidwayBalanced(s: State, s1: State, closed: bool)
    requires Core(s) && Midway(s, s1, closed) && Balanced(s)
    ensures Balanced(s1)
  {
    hide Live, Pending, Known, TargetSum, Listed, OrdersOk, ClaimsOk, Alone, FilledQty, TargetsOk, CyclesOk, TakeTargets;
    CashNext(s);
    var e := Upcoming(s);
    if e.Filled? {
      var event := s.intents[e.fill.order].token.event;
      CostOfUpdate(s.b.cycles, event, s1.b.cycles[event]);
    }
  }

  lemma ReleaseBalanced(s: State, event: Id, active: bool)
    requires Core(s) && Balanced(s)
    ensures Balanced(s.(b := Released(s.b, event, active)))
  {
    hide Live, Pending, Known, TargetSum, Listed, OrdersOk, ClaimsOk, Alone, FilledQty, TargetsOk;
    if event in s.b.cycles && s.b.cycles[event].quantity == 0 && !active {
      assert CycleOk(s.b, event);
      assert Costs(s.b.cycles - {event}) == Costs(s.b.cycles) - {event};
      SumWithout(Costs(s.b.cycles), event);
    }
  }

  lemma StepBalanced(s: State, a: Action)
    requires Inv(s) && Enabled(s, a) && Balanced(s)
    ensures Balanced(Next(s, a))
  {
    hide Core, Active, Delivered, Observed, MaySubmit, MayRecord, MayIdentify, Costs, AllKept;
    match a
    case Submit(_, _) =>
    case Record(e) =>
      assert Next(s, a).journal[..s.b.cursor] == s.journal[..s.b.cursor];
    case Deliver(closed) => DeliverBalanced(s, closed);
    case Observe(event, bid, seen, now, ready) =>
      ObservedCosts(s.b, event, bid, seen, now, ready);
    case Identify(_, _) =>
    case Configure(_) =>
    case Retire(o) =>
      FinishKeeps(s, o);
      var t, event := Finished(s, o), s.intents[o].token.event;
      ReleaseBalanced(t, event, Active(t.intents, event));
  }

  lemma ObservedCosts(b: Business, event: Id, bid: Option<int>, seen: string, now: int, ready: bool)
    requires event in b.cycles
    ensures var o := Observed(b, event, bid, seen, now, ready);
            Costs(o.cycles) == Costs(b.cycles) && o.cursor == b.cursor && o.realized == b.realized
  {
  }

  lemma DeliverBalanced(s: State, closed: bool)
    requires Inv(s) && s.b.cursor < |s.journal| && Balanced(s)
    ensures Balanced(Delivered(s, closed))
  {
    hide Core, ApplyEvent, Active, Released, Balanced;
    NextApplies(s, closed);
    CoreJournaled(s);
    var r := ApplyEvent(s.b, s.intents, Upcoming(s), s.b.cursor + 1, closed).value;
    var s1 := s.(b := r.0, intents := r.1);
    var event := s.intents[Upcoming(s).Order()].token.event;
    assert Midway(s, s1, closed);
    MidwayKeeps(s, s1, closed);
    MidwayBalanced(s, s1, closed);
    ReleaseBalanced(s1, event, Active(s1.intents, event));
    assert Delivered(s, closed) == s1.(b := Released(s1.b, event, Active(s1.intents, event)));
  }

  lemma {:induction false} RunBalanced(s: State, actions: seq<Action>, t: State)
    requires Inv(s) && Reaches(s, actions, t) && Balanced(s)
    ensures Balanced(t)
    decreases |actions|
  {
    hide Inv, Enabled, Next, Balanced;
    if actions != [] {
      StepKeeps(s, actions[0]);
      StepBalanced(s, actions[0]);
      RunBalanced(Next(s, actions[0]), actions[1..], t);
    }
  }

  lemma {:induction false} InitialKept(s: State, actions: seq<Action>, t: State)
    requires Reaches(s, actions, t)
    ensures t.initial == s.initial
    decreases |actions|
  {
    if actions != [] {
      InitialKept(Next(s, actions[0]), actions[1..], t);
    }
  }

  // ------------------------------------------------------------ the theorems

  /** While an Event is not settled and its stop is not exiting, the targets of its cycle
      add up to exactly what the cycle holds; without a cycle there are none. */
  lemma TargetsCover(initial: int, budget: int, actions: seq<Action>, t: State, event: Id)
    requires Reaches(Start(initial, budget), actions, t)
    ensures event in t.b.cycles && !Exempt(t.b, event) ==>
              TargetSum(t.b.targets, event) == t.b.cycles[event].quantity
    ensures event !in t.b.cycles ==> Of(t.b.targets, event) == {}
  {
    StartInv(initial, budget);
    RunKeeps(Start(initial, budget), actions, t);
    assert event in t.b.cycles ==> CycleOk(t.b, event);
  }

  /** The bookkeeping neither makes nor loses money, whatever was rounded or released. */
  lemma MoneyIsConserved(initial: int, budget: int, actions: seq<Action>, t: State)
    requires Reaches(Start(initial, budget), actions, t)
    ensures t.b.cursor <= |t.journal|
    ensures Cash(initial, t.journal[..t.b.cursor]) + Sum(Costs(t.b.cycles)) == initial + t.b.realized
  {
    StartInv(initial, budget);
    assert Costs(Start(initial, budget).b.cycles) == map[];
    RunBalanced(Start(initial, budget), actions, t);
    InitialKept(Start(initial, budget), actions, t);
  }

  /** However an exit, a stop or a settlement sells, the sold shares leave with their share
      of the cost, the last ones with all of it, and the rest of the proceeds is profit. */
  lemma SalesBookTheirShare(initial: int, budget: int, actions: seq<Action>, t: State, closed: bool)
    requires Reaches(Start(initial, budget), actions, t)
    requires t.b.cursor < |t.journal| && Upcoming(t).Filled? && Upcoming(t).fill.side == Sell
    ensures var f, u := Upcoming(t).fill, Delivered(t, closed);
            && f.order in t.intents && t.intents[f.order].token.event in t.b.cycles
            && var event := t.intents[f.order].token.event;
            var was := t.b.cycles[event];
            && (event in u.b.cycles ==> SoldOff(was, u.b.cycles[event], t.b.realized, u.b.realized, f))
            && (event !in u.b.cycles ==> f.qty == was.quantity && u.b.realized == t.b.realized + f.amount - was.cost)
  {
    hide Core, Active, SoldOff;
    StartInv(initial, budget);
    RunKeeps(Start(initial, budget), actions, t);
    NextApplies(t, closed);
    var f := Upcoming(t).fill;
    SaleTakesItsShare(t.b, t.intents[f.order], f);
    SoldOut(t.b, t.intents[f.order], f);
  }

  lemma SoldOut(b: Business, i: Intent, f: Fill)
    requires ApplySell(b, i, f).Ok? && i.token.event in b.cycles
    ensures var event, now := i.token.event, ApplySell(b, i, f).value;
            && event in now.cycles && now.cycles[event].quantity == b.cycles[event].quantity - f.qty
            && (f.qty == b.cycles[event].quantity ==> now.realized == b.realized + f.amount - b.cycles[event].cost)
  {
  }

  /** No journaled event can block the ledger: the next one always projects, and the
      cursor moves over it alone. */
  lemma EveryEventProjects(initial: int, budget: int, actions: seq<Action>, t: State, closed: bool)
    requires Reaches(Start(initial, budget), actions, t)
    requires t.b.cursor < |t.journal|
    ensures Project(t.b, t.intents, t.journal[t.b.cursor], t.b.cursor + 1, closed).Ok?
    ensures Delivered(t, closed).b.cursor == t.b.cursor + 1
    ensures Delivered(t, closed).journal == t.journal
  {
    StartInv(initial, budget);
    RunKeeps(Start(initial, budget), actions, t);
    NextApplies(t, closed);
    DeliverKeeps(t, closed);
  }

  /** Two orders that can both still fill never compete for one position: they are on
      different Events, or one buys while the other sells, and nothing runs beside a
      settlement. */
  lemma LiveOrdersDoNotCompete(initial: int, budget: int, actions: seq<Action>, t: State, o: Id, p: Id)
    requires Reaches(Start(initial, budget), actions, t)
    requires Live(t, o) && Live(t, p) && o != p && t.intents[o].token.event == t.intents[p].token.event
    ensures t.intents[o].side != t.intents[p].side
    ensures t.intents[o].kind != Settlement && t.intents[p].kind != Settlement
  {
    StartInv(initial, budget);
    RunKeeps(Start(initial, budget), actions, t);
    assert !Rivals(t.intents[o], t.intents[p]) && !Rivals(t.intents[p], t.intents[o]);
  }

  /** A live sale is covered: its position exists and holds what is left to sell. */
  lemma LiveSaleIsHeld(initial: int, budget: int, actions: seq<Action>, t: State, o: Id)
    requires Reaches(Start(initial, budget), actions, t)
    requires Live(t, o) && t.intents[o].side == Sell
    ensures t.intents[o].token.event in t.b.cycles && t.b.cursor <= |t.journal|
    ensures 0 <= Left(t, o) <= t.b.cycles[t.intents[o].token.event].quantity
  {
    StartInv(initial, budget);
    RunKeeps(Start(initial, budget), actions, t);
    assert OrderOk(t, o);
    FilledPrefix(t.journal, t.b.cursor, o);
  }

  /** An empty cycle is kept only for an order that is still open. */
  lemma FinishedCyclesAreReleased(initial: int, budget: int, actions: seq<Action>, t: State, event: Id)
    requires Reaches(Start(initial, budget), actions, t)
    requires event in t.b.cycles && !Active(t.intents, event)
    ensures t.b.cycles[event].quantity > 0
  {
    StartInv(initial, budget);
    RunKeeps(Start(initial, budget), actions, t);
    assert Kept(t, event) && CycleOk(t.b, event);
  }
}
