/** That the ledger's runs are not empty promises: a holding can be bought, offered at its
    target and sold, and what remains is its profit. */
module RoundTrip {
  import opened Arith
  import opened Ledger
  import opened LedgerRuns
  import opened LedgerSteps
  import opened LedgerTheorems
  import opened MapSum
  import opened StopLossRules

  datatype Trip = Trip(token: Token, entry: Id, exit: Id, bought: Fill, sold: Fill)

  /** One order buys some shares within the budget and another sells them all. */
  predicate Fair(trip: Trip, budget: int) {
    && trip.entry != trip.exit
    && trip.bought.order == trip.entry && trip.bought.side == Buy && trip.bought.qty > 0
    && trip.bought.rules.budget == budget
    && trip.sold.order == trip.exit && trip.sold.side == Sell && trip.sold.qty == trip.bought.qty
  }

  function EntryOf(trip: Trip, cash: int): Intent {
    Intent(trip.token, Buy, Entry, cash, 0, trip.bought.qty, [], false)
  }

  function ExitOf(trip: Trip): Intent {
    Intent(trip.token, Sell, TargetExit, 0, 0, trip.bought.qty, [TargetKey(trip.bought)], false)
  }

  function HeldCycle(trip: Trip): Cycle {
    Bought(FreshCycle(EntryOf(trip, 0), trip.bought), trip.bought)
  }

  /** The books while the shares are held. */
  function Holding(trip: Trip): Business {
    var f := trip.bought;
    EmptyBusiness.(cursor := 1, cycles := map[trip.token.event := HeldCycle(trip)],
                   targets := map[TargetKey(f) := Target(trip.token.event, trip.token, f.rules.target, f.qty, f.at)],
                   recoveryError := f.amount > f.rules.budget)
  }

  lemma BuyingWorks(trip: Trip, cash: int, budget: int, initial: int)
    requires Fair(trip, budget) && cash <= budget
    ensures var i := EntryOf(trip, cash);
            var s1 := Start(initial, budget).(intents := map[trip.entry := i]);
            var s2 := s1.(journal := [Filled(trip.bought)]);
            var s3 := s2.(b := Holding(trip), intents := map[trip.entry := Advanced(i, Filled(trip.bought), true)]);
            && Enabled(Start(initial, budget), Submit(trip.entry, i)) && Next(Start(initial, budget), Submit(trip.entry, i)) == s1
            && Enabled(s1, Record(Filled(trip.bought))) && Next(s1, Record(Filled(trip.bought))) == s2
            && Enabled(s2, Deliver(true)) && Next(s2, Deliver(true)) == s3
  {
    hide Stop.Add, NewStop;
  }

  /** The one target is everything that may be offered. */
  lemma AllListed(trip: Trip, budget: int)
    requires Fair(trip, budget)
    ensures Listed(Holding(trip).targets, [TargetKey(trip.bought)], trip.token.event) == trip.bought.qty
  {
    var targets, key := Holding(trip).targets, TargetKey(trip.bought);
    var m := Sizes(targets, set k | k in Of(targets, trip.token.event) && k in [key]);
    assert m == map[key := trip.bought.qty];
    SumWithout(m, key);
    assert m - {key} == map[];
  }

  function Held(trip: Trip, done: Intent, budget: int, initial: int): State {
    State(Holding(trip), map[trip.entry := done], [Filled(trip.bought)], budget, initial)
  }

  function Offered(trip: Trip, done: Intent, budget: int, initial: int): State {
    Held(trip, done, budget, initial).(intents := map[trip.entry := done, trip.exit := ExitOf(trip)])
  }

  function Sold(trip: Trip, done: Intent, budget: int, initial: int): State {
    Offered(trip, done, budget, initial).(journal := [Filled(trip.bought), Filled(trip.sold)])
  }

  predicate Done(trip: Trip, done: Intent) { done.token == trip.token && done.side == Buy && done.terminal }

  lemma OfferWorks(trip: Trip, done: Intent, budget: int, initial: int)
    requires Fair(trip, budget) && Done(trip, done)
    ensures var s := Held(trip, done, budget, initial);
            && Enabled(s, Submit(trip.exit, ExitOf(trip)))
            && Next(s, Submit(trip.exit, ExitOf(trip))) == Offered(trip, done, budget, initial)
  {
    hide Stop.Add, NewStop, Listed;
    AllListed(trip, budget);
    var s := Held(trip, done, budget, initial);
    assert !Pending(s, trip.entry);
    assert HeldCycle(trip).stop.phase == Watching by { FreshWatches(trip); }
  }

  lemma FreshWatches(trip: Trip)
    ensures HeldCycle(trip).stop.phase == Watching
    ensures HeldCycle(trip).quantity == trip.bought.qty && HeldCycle(trip).cost == trip.bought.amount
  {
  }

  lemma SaleIsFilled(trip: Trip, done: Intent, budget: int, initial: int)
    requires Fair(trip, budget) && Done(trip, done)
    ensures var s := Offered(trip, done, budget, initial);
            && Enabled(s, Record(Filled(trip.sold)))
            && Next(s, Record(Filled(trip.sold))) == Sold(trip, done, budget, initial)
  {
    hide Stop.Add, NewStop;
    var s := Offered(trip, done, budget, initial);
    assert FilledQty([Filled(trip.bought)], trip.exit) == 0 by {
      assert [Filled(trip.bought)][..0] == [];
    }
    assert s.journal + [Filled(trip.sold)] == [Filled(trip.bought), Filled(trip.sold)];
  }

  lemma SaleIsProjected(trip: Trip, done: Intent, budget: int, initial: int)
    requires Fair(trip, budget) && Done(trip, done)
    ensures var s := Sold(trip, done, budget, initial);
            && Enabled(s, Deliver(true))
            && var u := Next(s, Deliver(true));
               && u.b.cursor == 2 && u.journal == s.journal && u.b.cycles == map[] && u.b.targets == map[]
               && u.b.realized == trip.sold.amount - trip.bought.amount
               && !Active(u.intents, trip.token.event)
  {
    hide Stop.Add, NewStop;
    FreshWatches(trip);
    var s := Sold(trip, done, budget, initial);
    var e := s.journal[1];
    var intents' := s.intents[trip.exit := Advanced(s.intents[trip.exit], e, true)];
    assert !Active(intents', trip.token.event);
  }

  /** A buy of some shares within the budget and a sale of them all at their target is a run
      of the ledger, and leaves nothing but its profit, whatever the prices were. */
  lemma BuyAndSell(trip: Trip, cash: int, budget: int, initial: int) returns (actions: seq<Action>, t: State)
    requires Fair(trip, budget) && cash <= budget
    ensures Reaches(Start(initial, budget), actions, t)
    ensures t.journal == [Filled(trip.bought), Filled(trip.sold)] && t.b.cursor == 2
    ensures t.b.cycles == map[] && t.b.targets == map[] && t.b.realized == trip.sold.amount - trip.bought.amount
  {
    hide Enabled, Next, Reaches;
    var i, e, f := EntryOf(trip, cash), Filled(trip.bought), Filled(trip.sold);
    var done := Advanced(i, e, true);
    BuyingWorks(trip, cash, budget, initial);
    OfferWorks(trip, done, budget, initial);
    SaleIsFilled(trip, done, budget, initial);
    SaleIsProjected(trip, done, budget, initial);
    var s0 := Start(initial, budget);
    var s1 := Next(s0, Submit(trip.entry, i));
    var s2 := Next(s1, Record(e));
    var s3 := Held(trip, done, budget, initial);
    var s4 := Offered(trip, done, budget, initial);
    var s5 := Sold(trip, done, budget, initial);
    t := Next(s5, Deliver(true));
    StayHere(t);
    OneMore(s5, Deliver(true), [], t);
    OneMore(s4, Record(f), [Deliver(true)] + [], t);
    OneMore(s3, Submit(trip.exit, ExitOf(trip)), [Record(f)] + ([Deliver(true)] + []), t);
    var rest := [Submit(trip.exit, ExitOf(trip))] + ([Record(f)] + ([Deliver(true)] + []));
    OneMore(s2, Deliver(true), rest, t);
    OneMore(s1, Record(e), [Deliver(true)] + rest, t);
    OneMore(s0, Submit(trip.entry, i), [Record(e)] + ([Deliver(true)] + rest), t);
    actions := [Submit(trip.entry, i)] + ([Record(e)] + ([Deliver(true)] + rest));
  }

  lemma StayHere(t: State)
    ensures Reaches(t, [], t)
  {
  }

  lemma OneMore(s: State, a: Action, more: seq<Action>, t: State)
    requires Enabled(s, a) && Reaches(Next(s, a), more, t)
    ensures Reaches(s, [a] + more, t)
  {
    assert ([a] + more)[1..] == more;
  }

  // ------------------------------------------------------------ held until the market resolves

  function PayoutOf(trip: Trip): Intent {
    Intent(trip.token, Sell, Settlement, 0, 0, trip.bought.qty, [], false)
  }

  function Resolved(trip: Trip, done: Intent, amount: int, budget: int, initial: int): State {
    var s := Held(trip, done, budget, initial);
    s.(b := s.b.(claims := map[trip.token.condition := Claim(trip.token, trip.bought.qty, amount, trip.bought.amount, None)],
                 settled := [trip.token.condition], targets := map[]))
  }

  function Claimed(trip: Trip, done: Intent, amount: int, budget: int, initial: int): State {
    Resolved(trip, done, amount, budget, initial).(intents := map[trip.entry := done, trip.exit := PayoutOf(trip)])
  }

  function PaidOut(trip: Trip, done: Intent, amount: int, budget: int, initial: int): State {
    Claimed(trip, done, amount, budget, initial).(journal := [Filled(trip.bought), Filled(trip.sold)])
  }

  lemma ResolvingWorks(trip: Trip, done: Intent, amount: int, budget: int, initial: int)
    requires Fair(trip, budget) && Done(trip, done)
    ensures var s := Held(trip, done, budget, initial);
            && Enabled(s, Identify(trip.token, amount))
            && Next(s, Identify(trip.token, amount)) == Resolved(trip, done, amount, budget, initial)
  {
    hide Stop.Add, NewStop;
    FreshWatches(trip);
    assert !Pending(Held(trip, done, budget, initial), trip.entry);
  }

  lemma ClaimingWorks(trip: Trip, done: Intent, amount: int, budget: int, initial: int)
    requires Fair(trip, budget) && Done(trip, done)
    ensures var s := Resolved(trip, done, amount, budget, initial);
            && Enabled(s, Submit(trip.exit, PayoutOf(trip)))
            && Next(s, Submit(trip.exit, PayoutOf(trip))) == Claimed(trip, done, amount, budget, initial)
  {
    hide Stop.Add, NewStop, Listed;
    assert !Pending(Resolved(trip, done, amount, budget, initial), trip.entry);
  }

  lemma PayoutIsFilled(trip: Trip, done: Intent, amount: int, budget: int, initial: int)
    requires Fair(trip, budget) && Done(trip, done)
    ensures var s := Claimed(trip, done, amount, budget, initial);
            && Enabled(s, Record(Filled(trip.sold)))
            && Next(s, Record(Filled(trip.sold))) == PaidOut(trip, done, amount, budget, initial)
  {
    hide Stop.Add, NewStop;
    assert FilledQty([Filled(trip.bought)], trip.exit) == 0 by {
      assert [Filled(trip.bought)][..0] == [];
    }
    assert [Filled(trip.bought)] + [Filled(trip.sold)] == [Filled(trip.bought), Filled(trip.sold)];
  }

  lemma PayoutIsProjected(trip: Trip, done: Intent, amount: int, budget: int, initial: int)
    requires Fair(trip, budget) && Done(trip, done)
    ensures var s := PaidOut(trip, done, amount, budget, initial);
            && Enabled(s, Deliver(true))
            && var u := Next(s, Deliver(true));
               && u.b.cursor == 2 && u.journal == s.journal && u.b.cycles == map[] && u.b.targets == map[]
               && u.b.realized == trip.sold.amount - trip.bought.amount
               && trip.token.condition in u.b.claims
               && u.b.claims[trip.token.condition].credited == Some(trip.sold.trade)
  {
    hide Stop.Add, NewStop;
    FreshWatches(trip);
    var s := PaidOut(trip, done, amount, budget, initial);
    var intents' := s.intents[trip.exit := Advanced(s.intents[trip.exit], s.journal[1], true)];
    assert !Active(intents', trip.token.event);
  }

  /** Held to the end, the shares become a claim, the claim is credited by its settlement,
      and again what is left is the payout less the cost. */
  lemma BuyAndSettle(trip: Trip, cash: int, amount: int, budget: int, initial: int)
    returns (actions: seq<Action>, t: State)
    requires Fair(trip, budget) && cash <= budget
    ensures Reaches(Start(initial, budget), actions, t)
    ensures t.journal == [Filled(trip.bought), Filled(trip.sold)] && t.b.cursor == 2
    ensures t.b.cycles == map[] && t.b.targets == map[] && t.b.realized == trip.sold.amount - trip.bought.amount
    ensures trip.token.condition in t.b.claims && t.b.claims[trip.token.condition].credited == Some(trip.sold.trade)
  {
    hide Enabled, Next, Reaches;
    var i, e, f := EntryOf(trip, cash), Filled(trip.bought), Filled(trip.sold);
    var done := Advanced(i, e, true);
    BuyingWorks(trip, cash, budget, initial);
    ResolvingWorks(trip, done, amount, budget, initial);
    ClaimingWorks(trip, done, amount, budget, initial);
    PayoutIsFilled(trip, done, amount, budget, initial);
    PayoutIsProjected(trip, done, amount, budget, initial);
    var s0 := Start(initial, budget);
    var s1 := Next(s0, Submit(trip.entry, i));
    var s2 := Next(s1, Record(e));
    var s3 := Held(trip, done, budget, initial);
    t := Next(PaidOut(trip, done, amount, budget, initial), Deliver(true));
    StayHere(t);
    OneMore(PaidOut(trip, done, amount, budget, initial), Deliver(true), [], t);
    OneMore(Claimed(trip, done, amount, budget, initial), Record(f), [Deliver(true)] + [], t);
    var rest := [Record(f)] + ([Deliver(true)] + []);
    OneMore(Resolved(trip, done, amount, budget, initial), Submit(trip.exit, PayoutOf(trip)), rest, t);
    rest := [Submit(trip.exit, PayoutOf(trip))] + rest;
    OneMore(s3, Identify(trip.token, amount), rest, t);
    rest := [Identify(trip.token, amount)] + rest;
    OneMore(s2, Deliver(true), rest, t);
    OneMore(s1, Record(e), [Deliver(true)] + rest, t);
    OneMore(s0, Submit(trip.entry, i), [Record(e)] + ([Deliver(true)] + rest), t);
    actions := [Submit(trip.entry, i)] + ([Record(e)] + ([Deliver(true)] + rest));
  }
}
