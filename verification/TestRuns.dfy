/** Simulated trading: decisions are made only between finished orders, and an order pays
    at most the cash it was given. Cash never goes negative and no cycle outspends the
    budget frozen at its first buy, even when the preferences change meanwhile. */
module TestRuns {
  import opened Arith
  import opened Ledger
  import opened LedgerRuns
  import opened LedgerSteps
  import opened LedgerTheorems

  function Paid(js: seq<Event>, o: Id): int {
    if js == [] then 0
    else
      var e := js[|js| - 1];
      Paid(js[..|js| - 1], o) + if e.Filled? && e.fill.order == o then e.fill.amount else 0
  }

  /** Everything journaled is projected and every order is finished. */
  predicate Idle(s: State) {
    s.b.cursor == |s.journal| && forall o :: o in s.intents ==> s.intents[o].terminal
  }

  /** The simulated venue runs an order to its end inside the submission, and its fills
      stay within the order's cash. */
  ghost predicate TestEnabled(s: State, a: Action) {
    && Enabled(s, a)
    && match a
       case Submit(_, i) => Idle(s) && (i.kind == Entry ==> 0 <= i.cash <= Cash(s.initial, s.journal))
       case Record(e) =>
         e.Filled? ==>
           && e.fill.amount >= 0
           && (e.fill.side == Buy ==>
                 Paid(s.journal, e.fill.order) + e.fill.amount <= s.intents[e.fill.order].cash)
       case Deliver(_) => true
       case Observe(_, _, _, _, _) => true
       case Identify(_, _) => true
       case Configure(_) => Idle(s)
       case Retire(_) => true
  }

  ghost predicate TestReaches(s: State, actions: seq<Action>, t: State)
    decreases |actions|
  {
    if actions == [] then s == t
    else TestEnabled(s, actions[0]) && TestReaches(Next(s, actions[0]), actions[1..], t)
  }

  // ------------------------------------------------------------ what every step keeps

  ghost predicate Single(s: State) {
    forall o, p :: Live(s, o) && Live(s, p) ==> o == p
  }

  ghost predicate PaymentsOk(s: State) {
    && (forall k :: 0 <= k < |s.journal| && s.journal[k].Filled? ==> s.journal[k].fill.amount >= 0)
    && (forall o :: o in s.intents && s.intents[o].side == Buy ==> Paid(s.journal, o) <= s.intents[o].cash)
    && (forall k :: s.b.cursor <= k < |s.journal| && s.journal[k].Filled? && s.journal[k].fill.side == Buy ==>
          s.journal[k].fill.rules.budget == s.budget)
  }

  /** Cash covers what the live buy may still spend. */
  ghost predicate CashOk(s: State) {
    && Cash(s.initial, s.journal) >= 0
    && (forall o :: Live(s, o) && s.intents[o].side == Buy ==>
          Cash(s.initial, s.journal) >= s.intents[o].cash - Paid(s.journal, o))
  }

  function Room(s: State, o: Id): int
    requires o in s.intents && s.b.cursor <= |s.journal|
  {
    s.intents[o].cash - Paid(s.journal[..s.b.cursor], o)
  }

  predicate SpendOk(b: Business) {
    && !b.recoveryError
    && (forall e :: e in b.cycles ==>
          && b.cycles[e].spent <= b.cycles[e].budget && b.cycles[e].cost >= 0
          && (!b.cycles[e].sold ==> b.cycles[e].quantity > 0))
  }

  /** The live buy fits what is left of its cycle's budget, or of the budget that its
      first fill will freeze. */
  ghost predicate RoomOk(s: State) {
    && s.b.cursor <= |s.journal|
    && (forall o :: Live(s, o) && s.intents[o].side == Buy ==>
          var e := s.intents[o].token.event;
          if e in s.b.cycles then !s.b.cycles[e].sold && s.b.cycles[e].spent + Room(s, o) <= s.b.cycles[e].budget
          else Room(s, o) <= s.budget)
  }

  ghost predicate Afford(s: State) {
    Single(s) && PaymentsOk(s) && CashOk(s) && SpendOk(s.b) && RoomOk(s)
  }

  /** Simulated cash kept up to date: each call adds only what was journaled since the
      last one, and a changed initial capital starts over. */
  class CashCache {
    var initial: Option<int>
    var seqno: nat
    var value: int

    constructor ()
      ensures initial == None
    {
      initial, seqno, value := None, 0, 0;
    }

    /** What the cache holds is the cash after a stretch of this journal. */
    predicate Fits(js: seq<Event>)
      reads this
    {
      initial.Some? ==> seqno <= |js| && value == Cash(initial.value, js[..seqno])
    }

    method TestCash(capital: int, js: seq<Event>) returns (cash: int)
      requires Fits(js)
      modifies this
      ensures cash == Cash(capital, js)
      ensures Fits(js) && initial == Some(capital) && seqno == |js|
    {
      if initial != Some(capital) {
        initial, seqno, value := Some(capital), 0, capital;
      }
      cash := value;
      while seqno < |js|
        invariant initial == Some(capital) && seqno <= |js| && cash == Cash(capital, js[..seqno])
        modifies this`seqno
      {
        var e := js[seqno];
        assert js[..seqno + 1][..seqno] == js[..seqno];
        if e.Filled? {
          cash := cash + if e.fill.side == Buy then -e.fill.amount else e.fill.amount;
        }
        seqno := seqno + 1;
      }
      assert js[..seqno] == js;
      value := cash;
    }
  }

  /** A journal only grows, so the cache of a shorter journal still fits. */
  lemma CacheStillFits(c: CashCache, js: seq<Event>, more: seq<Event>)
    requires c.Fits(js)
    ensures c.Fits(js + more)
  {
    if c.initial.Some? {
      assert (js + more)[..c.seqno] == js[..c.seqno];
    }
  }

  // ------------------------------------------------------------ sums of payments

  lemma PaidAppend(js: seq<Event>, e: Event, o: Id)
    ensures Paid(js + [e], o) == Paid(js, o) + if e.Filled? && e.fill.order == o then e.fill.amount else 0
  {
    assert (js + [e])[..|js|] == js;
  }

  lemma PaidNext(js: seq<Event>, n: nat, o: Id)
    requires n < |js|
    ensures Paid(js[..n + 1], o)
            == Paid(js[..n], o) + if js[n].Filled? && js[n].fill.order == o then js[n].fill.amount else 0
  {
    assert js[..n + 1] == js[..n] + [js[n]];
    PaidAppend(js[..n], js[n], o);
  }

  lemma {:induction false} PaidPrefix(js: seq<Event>, n: nat, o: Id)
    requires n <= |js|
    requires forall k :: 0 <= k < |js| && js[k].Filled? ==> js[k].fill.amount >= 0
    ensures Paid(js[..n], o) <= Paid(js, o)
    decreases |js| - n
  {
    if n < |js| {
      PaidNext(js, n, o);
      PaidPrefix(js, n + 1, o);
    } else {
      assert js[..n] == js;
    }
  }

  lemma {:induction false} PaidNothing(js: seq<Event>, o: Id)
    requires forall k :: 0 <= k < |js| ==> js[k].Order() != o
    ensures Paid(js, o) == 0
  {
    if js != [] {
      var e := js[|js| - 1];
      assert e.Order() != o;
      PaidNothing(js[..|js| - 1], o);
    }
  }

  lemma CashAppend(initial: int, js: seq<Event>, e: Event)
    ensures Cash(initial, js + [e])
            == Cash(initial, js) + if !e.Filled? then 0 else if e.fill.side == Buy then -e.fill.amount else e.fill.amount
  {
    assert (js + [e])[..|js|] == js;
  }

  // ------------------------------------------------------------ steps

  lemma IdleNobody(s: State)
    requires Idle(s)
    ensures forall o :: !Live(s, o)
  {
  }

  lemma SubmitAffords(s: State, o: Id, i: Intent)
    requires Inv(s) && Afford(s) && TestEnabled(s, Submit(o, i))
    ensures Afford(s.(intents := s.intents[o := i]))
  {
    hide Live, Pending, Caught, Active, ActiveSell, OrdersOk, CyclesOk, TargetsOk, ClaimsOk, Alone, AllKept, Listed;
    var s' := s.(intents := s.intents[o := i]);
    IdleNobody(s);
    SubmitLive(s, o, i);
    PaidNothing(s.journal, o);
    PaidNothing(s.journal[..s.b.cursor], o);
  }

  lemma RecordAffords(s: State, e: Event)
    requires Inv(s) && Afford(s) && TestEnabled(s, Record(e))
    ensures Afford(s.(journal := s.journal + [e]))
  {
    hide Pending, OrdersOk, CyclesOk, TargetsOk, ClaimsOk, Alone, AllKept, Known;
    var s' := s.(journal := s.journal + [e]);
    RecordLive(s, e);
    CashAppend(s.initial, s.journal, e);
    forall o
      ensures Paid(s'.journal, o) == Paid(s.journal, o) + if e.Filled? && e.fill.order == o then e.fill.amount else 0
    {
      PaidAppend(s.journal, e, o);
    }
  }

  lemma ConfigureAffords(s: State, budget: int)
    requires Inv(s) && Afford(s) && Idle(s)
    ensures Afford(s.(budget := budget))
  {
    IdleNobody(s);
    IdleNobody(s.(budget := budget));
  }

  lemma ObserveAffords(s: State, event: Id, bid: Option<int>, seen: string, now: int, ready: bool)
    requires Inv(s) && Afford(s) && event in s.b.cycles
    ensures Afford(s.(b := Observed(s.b, event, bid, seen, now, ready)))
  {
    hide Live, OrdersOk, CyclesOk, TargetsOk, ClaimsOk, Alone, AllKept, Journaled;
    SameLive(s, Observed(s.b, event, bid, seen, now, ready));
  }

  lemma IdentifyAffords(s: State, t: Token, amount: int)
    requires Inv(s) && Afford(s) && t.event in s.b.cycles
    ensures Afford(s.(b := Identified(s.b, t, amount)))
  {
    hide Live, OrdersOk, CyclesOk, TargetsOk, ClaimsOk, Alone, AllKept, Journaled;
    SameLive(s, Identified(s.b, t, amount));
  }

  /** The upcoming buy fits its order's room. */
  lemma UpcomingRoom(s: State)
    requires Journaled(s) && PaymentsOk(s) && s.b.cursor < |s.journal| && Upcoming(s).Filled?
    requires Upcoming(s).fill.side == Buy
    ensures 0 <= Upcoming(s).fill.amount <= Room(s, Upcoming(s).fill.order)
  {
    var o := Upcoming(s).fill.order;
    PaidNext(s.journal, s.b.cursor, o);
    PaidPrefix(s.journal, s.b.cursor + 1, o);
  }

  lemma BuySpends(s: State, s1: State, closed: bool)
    requires Buying(s, s1, closed) && Afford(s)
    ensures SpendOk(s1.b)
    ensures var f := Upcoming(s).fill;
            var e := s.intents[f.order].token.event;
            && e in s1.b.cycles && !s1.b.cycles[e].sold
            && s1.b.cycles[e].spent + Room(s, f.order) - f.amount <= s1.b.cycles[e].budget
            && forall x :: x != e ==> (x in s1.b.cycles <==> x in s.b.cycles)
                                      && (x in s.b.cycles ==> s1.b.cycles[x] == s.b.cycles[x])
  {
    hide Live, Pending, Known, TargetSum, Listed, OrdersOk, ClaimsOk, Alone, FilledQty, TargetsOk, Paid, Cash;
    UpcomingRoom(s);
    MidwayLive(s, s1, closed);
    var e := s.intents[Upcoming(s).fill.order].token.event;
    if e in s.b.cycles {
      assert CycleOk(s.b, e);
    }
  }

  lemma SellSpends(s: State, s1: State, closed: bool)
    requires Selling(s, s1, closed) && Afford(s)
    ensures SpendOk(s1.b)
    ensures var e := s.intents[Upcoming(s).fill.order].token.event;
            && s1.b.cycles.Keys == s.b.cycles.Keys
            && forall x :: x != e && x in s.b.cycles ==> s1.b.cycles[x] == s.b.cycles[x]
  {
    hide Live, Pending, Known, TargetSum, Listed, OrdersOk, ClaimsOk, Alone, FilledQty, TargetsOk, Paid, Cash, CyclesOk,
         Allocated, TakeTargets;
    var f := Upcoming(s).fill;
    AllocatedWithin(s.b.cycles[s.intents[f.order].token.event], f.qty);
  }

  /** The cost that leaves with sold shares is part of the cycle's cost. */
  lemma AllocatedWithin(c: Cycle, qty: int)
    requires c.cost >= 0 && 0 <= qty <= c.quantity
    ensures 0 <= Allocated(c, qty) <= c.cost
  {
    if qty != c.quantity {
      MulNonneg(c.cost, qty);
      MulLe(qty, c.quantity, c.cost);
      FloorAtLeast(c.cost * qty, c.quantity, 0);
      FloorBounds(c.cost * qty, c.quantity);
      FloorMonotone(c.cost * qty, c.cost * c.quantity, c.quantity);
      FloorMultiple(c.cost * c.quantity, c.quantity);
    }
  }

  lemma RoomNext(s: State, s1: State, closed: bool, p: Id)
    requires Midway(s, s1, closed) && p in s.intents && p in s1.intents && s1.b.cursor <= |s1.journal|
    ensures var e := Upcoming(s);
            Room(s1, p) == Room(s, p) - if e.Filled? && e.fill.order == p then e.fill.amount else 0
  {
    MidwayOrders(s, s1, closed);
    PaidNext(s.journal, s.b.cursor, p);
  }

  lemma MidwayRooms(s: State, s1: State, closed: bool)
    requires Core(s) && Midway(s, s1, closed) && Afford(s)
    ensures RoomOk(s1) && SpendOk(s1.b)
  {
    hide Live, Pending, Known, TargetSum, Listed, OrdersOk, ClaimsOk, Alone, FilledQty, TargetsOk, Paid, Cash, CyclesOk,
         ApplyFill, Room;
    MidwayOrders(s, s1, closed);
    MidwayLive(s, s1, closed);
    CursorWithin(s1);
    UpcomingOwned(s);
    var e := Upcoming(s);
    if e.Filled? && e.fill.side == Buy {
      BuySpends(s, s1, closed);
    } else if e.Filled? {
      SellSpends(s, s1, closed);
    }
    forall p | Live(s1, p)
      ensures Live(s, p) && Room(s1, p) == Room(s, p) - if e.Filled? && e.fill.order == p then e.fill.amount else 0
    {
      RoomNext(s, s1, closed, p);
    }
  }

  lemma MidwayAffords(s: State, s1: State, closed: bool)
    requires Core(s) && Midway(s, s1, closed) && Afford(s)
    ensures Afford(s1)
  {
    hide Live, Pending, Known, TargetSum, Listed, OrdersOk, ClaimsOk, Alone, FilledQty, TargetsOk, Paid, Cash, CyclesOk,
         Room, RoomOk, SpendOk, Midway;
    MidwayOrders(s, s1, closed);
    MidwayLive(s, s1, closed);
    MidwayRooms(s, s1, closed);
    assert forall p :: p in s1.intents ==> SameOrder(s1.intents[p], s.intents[p]);
  }

  lemma ReleaseAffords(s: State, event: Id, active: bool)
    requires Afford(s)
    ensures Afford(s.(b := Released(s.b, event, active)))
  {
    hide Live, Paid, Cash;
    SameLive(s, Released(s.b, event, active));
  }

  lemma DeliverAffords(s: State, closed: bool)
    requires Inv(s) && s.b.cursor < |s.journal| && Afford(s)
    ensures Afford(Delivered(s, closed))
  {
    hide Core, ApplyEvent, Active, Released, Afford;
    NextApplies(s, closed);
    CoreJournaled(s);
    var r := ApplyEvent(s.b, s.intents, Upcoming(s), s.b.cursor + 1, closed).value;
    var s1 := s.(b := r.0, intents := r.1);
    var event := s.intents[Upcoming(s).Order()].token.event;
    assert Midway(s, s1, closed);
    MidwayAffords(s, s1, closed);
    ReleaseAffords(s1, event, Active(s1.intents, event));
    assert Delivered(s, closed) == s1.(b := Released(s1.b, event, Active(s1.intents, event)));
  }

  lemma RetireAffords(s: State, o: Id)
    requires Inv(s) && Afford(s) && o in s.intents
    ensures Afford(Retired(s, o))
  {
    hide Live, Core, AllKept, Paid, Cash, Active, Released;
    var t, event := Finished(s, o), s.intents[o].token.event;
    FinishedLive(s, o);
    assert forall p :: p in t.intents ==> SameOrder(t.intents[p], s.intents[p]);
    assert Afford(t);
    ReleaseAffords(t, event, Active(t.intents, event));
  }

  lemma StepAffords(s: State, a: Action)
    requires Inv(s) && Afford(s) && TestEnabled(s, a)
    ensures Afford(Next(s, a))
  {
    hide Core, Afford, Delivered, Observed, Identified, Retired, MaySubmit, MayRecord, Idle;
    match a
    case Submit(o, i) => SubmitAffords(s, o, i);
    case Record(e) => RecordAffords(s, e);
    case Deliver(closed) => DeliverAffords(s, closed);
    case Observe(event, bid, seen, now, ready) => ObserveAffords(s, event, bid, seen, now, ready);
    case Identify(t, amount) => IdentifyAffords(s, t, amount);
    case Configure(budget) => ConfigureAffords(s, budget);
    case Retire(o) => RetireAffords(s, o);
  }

  lemma {:induction false} RunAffords(s: State, actions: seq<Action>, t: State)
    requires Inv(s) && Afford(s) && TestReaches(s, actions, t)
    ensures Inv(t) && Afford(t)
    decreases |actions|
  {
    hide Inv, Afford, Enabled, Next;
    if actions != [] {
      TestStepEnabled(s, actions[0]);
      StepKeeps(s, actions[0]);
      StepAffords(s, actions[0]);
      RunAffords(Next(s, actions[0]), actions[1..], t);
    }
  }

  lemma TestStepEnabled(s: State, a: Action)
    requires TestEnabled(s, a)
    ensures Enabled(s, a)
  {
  }

  // ------------------------------------------------------------ the theorem

  /** In every reachable simulated state cash is nonnegative, every open cycle has spent
      at most the budget frozen at its first buy and holds a nonnegative cost, and no
      breach was recorded: what the ledger's validation looks for cannot be found. */
  lemma TestCashAndBudgetsHold(initial: int, budget: int, actions: seq<Action>, t: State)
    requires initial >= 0
    requires TestReaches(Start(initial, budget), actions, t)
    ensures Cash(initial, t.journal) >= 0
    ensures forall e :: e in t.b.cycles ==> t.b.cycles[e].spent <= t.b.cycles[e].budget && t.b.cycles[e].cost >= 0
    ensures !t.b.recoveryError
  {
    StartInv(initial, budget);
    var s := Start(initial, budget);
    assert Afford(s);
    RunAffords(s, actions, t);
    TestInitial(s, actions, t);
  }

  lemma {:induction false} TestInitial(s: State, actions: seq<Action>, t: State)
    requires TestReaches(s, actions, t)
    ensures t.initial == s.initial
    decreases |actions|
  {
    if actions != [] {
      TestInitial(Next(s, actions[0]), actions[1..], t);
    }
  }
}
