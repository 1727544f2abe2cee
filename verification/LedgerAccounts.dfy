/** What the figures of a cycle, a target, an order and a claim are worth: in every reachable
    state each can be told from the journaled fills alone. */
module LedgerAccounts {
  import opened Arith
  import opened Ledger
  import opened LedgerRuns
  import opened LedgerSteps
  import opened LedgerTheorems
  import opened StopLossRules
  import H = History

  // ------------------------------------------------------------ sums over a stretch of the journal

  predicate Concerns(e: Event, intents: Intents, event: Id, side: Side) {
    e.Filled? && e.fill.side == side && e.fill.order in intents && intents[e.fill.order].token.event == event
  }

  /** A measure summed over the fills of an Event on one side. */
  function EventTotal(js: seq<Event>, intents: Intents, event: Id, side: Side, m: H.Measure): int {
    if js == [] then 0
    else
      var e := js[|js| - 1];
      EventTotal(js[..|js| - 1], intents, event, side, m) + if Concerns(e, intents, event, side) then H.Measured(m, e.fill) else 0
  }

  /** What an order has spent on its buys. */
  function SpentBy(js: seq<Event>, o: Id): int {
    if js == [] then 0
    else
      var e := js[|js| - 1];
      SpentBy(js[..|js| - 1], o) + if e.Filled? && e.fill.order == o && e.fill.side == Buy then e.fill.amount else 0
  }

  lemma TotalNext(js: seq<Event>, j: nat, n: nat, intents: Intents, event: Id, side: Side, m: H.Measure)
    requires j <= n < |js|
    ensures EventTotal(js[j..n + 1], intents, event, side, m)
            == EventTotal(js[j..n], intents, event, side, m)
               + if Concerns(js[n], intents, event, side) then H.Measured(m, js[n].fill) else 0
  {
    assert js[j..n + 1][..n - j] == js[j..n];
  }

  lemma SpentNext(js: seq<Event>, n: nat, o: Id)
    requires n < |js|
    ensures SpentBy(js[..n + 1], o)
            == SpentBy(js[..n], o)
               + if js[n].Filled? && js[n].fill.order == o && js[n].fill.side == Buy then js[n].fill.amount else 0
  {
    assert js[..n + 1][..n] == js[..n];
  }

  /** Orders that the journal knows keep their tokens. */
  ghost predicate SameTokens(js: seq<Event>, intents: Intents, intents': Intents) {
    forall k :: 0 <= k < |js| ==>
      js[k].Order() in intents && js[k].Order() in intents' && intents'[js[k].Order()].token == intents[js[k].Order()].token
  }

  lemma {:induction false} TotalSame(js: seq<Event>, intents: Intents, intents': Intents, event: Id, side: Side, m: H.Measure)
    requires SameTokens(js, intents, intents')
    ensures EventTotal(js, intents', event, side, m) == EventTotal(js, intents, event, side, m)
  {
    if js != [] {
      assert js[|js| - 1].Order() in intents;
      TotalSame(js[..|js| - 1], intents, intents', event, side, m);
    }
  }

  lemma {:induction false} NothingSpent(js: seq<Event>, o: Id)
    requires forall k :: 0 <= k < |js| ==> js[k].Order() != o
    ensures SpentBy(js, o) == 0
  {
    if js != [] {
      assert js[|js| - 1].Order() != o;
      NothingSpent(js[..|js| - 1], o);
    }
  }

  // ------------------------------------------------------------ what is told

  /** The cycle was opened by the fill at `j`, which froze its budget and its stop, and adds
      up all fills of its Event from there to the cursor. */
  ghost predicate OpenedBy(s: State, event: Id, j: nat)
    requires event in s.b.cycles
  {
    && j < s.b.cursor <= |s.journal|
    && Concerns(s.journal[j], s.intents, event, Buy)
    && var c, f, js := s.b.cycles[event], s.journal[j].fill, s.journal[j..s.b.cursor];
    && c.id == f.trade && c.budget == f.rules.budget
    && c.stop.enabled == f.rules.stopEnabled && c.stop.multiplier == f.rules.stopMultiplier
    && c.spent == EventTotal(js, s.intents, event, Buy, H.Measure.Cash)
    && c.quantity == EventTotal(js, s.intents, event, Buy, H.Measure.Shares) - EventTotal(js, s.intents, event, Sell, H.Measure.Shares)
    && c.stop.gross == EventTotal(js, s.intents, event, Buy, H.Measure.Gross)
    && c.stop.weighted == EventTotal(js, s.intents, event, Buy, H.Measure.Weighted)
    && (c.sold <==> exists k :: j < k < s.b.cursor && Concerns(s.journal[k], s.intents, event, Sell))
  }

  ghost predicate CycleTold(s: State, event: Id) {
    event in s.b.cycles ==>
      && (exists j: nat :: OpenedBy(s, event, j))
      && (s.b.cycles[event].spent > s.b.cycles[event].budget ==> s.b.recoveryError)
      && (s.b.cycles[event].stop.phase == Exiting ==> event in s.b.banned)
  }

  /** The target was set by the buy at `j`, at the price frozen with it, and has shrunk at most. */
  ghost predicate SetBy(s: State, k: TargetId, j: nat)
    requires k in s.b.targets
  {
    && j < s.b.cursor <= |s.journal|
    && s.journal[j].Filled? && s.journal[j].fill.side == Buy && TargetKey(s.journal[j].fill) == k
    && k.order in s.intents
    && var t, f := s.b.targets[k], s.journal[j].fill;
    && t.event == s.intents[k.order].token.event && t.token == s.intents[k.order].token
    && t.price == f.rules.target && t.created == f.at && 0 < t.qty <= f.qty
  }

  ghost predicate TargetTold(s: State, k: TargetId) { k in s.b.targets ==> exists j: nat :: SetBy(s, k, j) }

  ghost predicate OrderTold(s: State, o: Id) {
    o in s.intents ==> s.b.cursor <= |s.journal| && s.intents[o].spent == SpentBy(s.journal[..s.b.cursor], o)
  }

  /** The claim was credited by the settlement fill at `j`. */
  ghost predicate CreditedBy(s: State, condition: Id, j: nat)
    requires condition in s.b.claims
  {
    && j < s.b.cursor <= |s.journal| && s.journal[j].Filled? && s.journal[j].fill.order in s.intents
    && var i := s.intents[s.journal[j].fill.order];
    && i.kind == Settlement && i.token.condition == condition
    && s.b.claims[condition].credited == Some(s.journal[j].fill.trade)
  }

  predicate Untargeted(targets: Targets, event: Id) { forall k :: k in targets ==> targets[k].event != event }

  ghost predicate ClaimTold(s: State, condition: Id) {
    condition in s.b.claims ==>
      var c := s.b.claims[condition];
      && (c.credited.Some? ==> exists j: nat :: CreditedBy(s, condition, j))
      && (c.credited.None? && c.token.event in s.b.cycles ==> c.cost == s.b.cycles[c.token.event].cost)
      && (c.credited.None? ==> Untargeted(s.b.targets, c.token.event))
  }

  ghost predicate Told(s: State) {
    && (forall event :: CycleTold(s, event))
    && (forall k :: TargetTold(s, k))
    && (forall o :: OrderTold(s, o))
    && (forall condition :: ClaimTold(s, condition))
  }

  // ------------------------------------------------------------ steps that move no fill

  predicate SameStop(a: Stop, b: Stop) {
    a.enabled == b.enabled && a.multiplier == b.multiplier && a.gross == b.gross && a.weighted == b.weighted
  }

  /** Nothing is projected: orders may come, finish and be let go with their cycles, stops
      may move and targets may go. */
  ghost predicate Aside(s: State, t: State) {
    && t.b.cursor == s.b.cursor <= |s.journal| && s.journal <= t.journal
    && t.b.claims == s.b.claims && t.b.recoveryError == s.b.recoveryError && s.b.banned <= t.b.banned
    && (forall o :: o in s.intents ==> o in t.intents && t.intents[o] == s.intents[o].(terminal := t.intents[o].terminal))
    && (forall o :: o in t.intents && o !in s.intents ==> t.intents[o].spent == 0)
    && (forall e :: e in t.b.cycles ==>
          && e in s.b.cycles && SameStop(t.b.cycles[e].stop, s.b.cycles[e].stop)
          && t.b.cycles[e] == s.b.cycles[e].(stop := t.b.cycles[e].stop)
          && (t.b.cycles[e].stop.phase == Exiting ==> s.b.cycles[e].stop.phase == Exiting || e in t.b.banned))
    && (forall k :: k in t.b.targets ==> k in s.b.targets && t.b.targets[k] == s.b.targets[k])
  }

  lemma TokensAside(s: State, t: State, j: nat)
    requires Journaled(s) && Aside(s, t) && j <= s.b.cursor
    ensures SameTokens(s.journal[j..s.b.cursor], s.intents, t.intents) && t.journal[j..t.b.cursor] == s.journal[j..s.b.cursor]
  {
  }

  lemma CycleAside(s: State, t: State, event: Id)
    requires Journaled(s) && Aside(s, t) && CycleTold(s, event)
    ensures CycleTold(t, event)
  {
    hide FilledQty, EventTotal, SameTokens;
    if event in t.b.cycles {
      var j: nat :| OpenedBy(s, event, j);
      TokensAside(s, t, j);
      forall side, m
        ensures EventTotal(s.journal[j..s.b.cursor], t.intents, event, side, m)
                == EventTotal(s.journal[j..s.b.cursor], s.intents, event, side, m)
      {
        TotalSame(s.journal[j..s.b.cursor], s.intents, t.intents, event, side, m);
      }
      forall k | j <= k < s.b.cursor
        ensures Concerns(t.journal[k], t.intents, event, Sell) <==> Concerns(s.journal[k], s.intents, event, Sell)
        ensures Concerns(t.journal[k], t.intents, event, Buy) <==> Concerns(s.journal[k], s.intents, event, Buy)
      {
        assert s.journal[k].Order() in s.intents;
      }
      assert OpenedBy(t, event, j);
    }
  }

  lemma AsideTold(s: State, t: State)
    requires Journaled(s) && Aside(s, t) && Told(s)
    ensures Told(t)
  {
    hide CycleTold, FilledQty, SpentBy;
    forall event
      ensures CycleTold(t, event)
    {
      CycleAside(s, t, event);
    }
    forall k
      ensures TargetTold(t, k)
    {
      assert TargetTold(s, k);
      if k in t.b.targets {
        var j: nat :| SetBy(s, k, j);
        assert SetBy(t, k, j);
      }
    }
    forall o
      ensures OrderTold(t, o)
    {
      assert OrderTold(s, o);
      assert t.journal[..t.b.cursor] == s.journal[..s.b.cursor];
      if o in t.intents && o !in s.intents {
        NothingSpent(s.journal[..s.b.cursor], o);
      }
    }
    forall condition
      ensures ClaimTold(t, condition)
    {
      assert ClaimTold(s, condition);
      if condition in t.b.claims && t.b.claims[condition].credited.Some? {
        var j: nat :| CreditedBy(s, condition, j);
        assert CreditedBy(t, condition, j);
      }
    }
  }

  // ------------------------------------------------------------ projecting a fill

  /** What a buy adds to its cycle, or opens it with. */
  ghost predicate BuysInto(s: State, s1: State, event: Id, f: Fill) {
    && event in s1.b.cycles
    && var now := s1.b.cycles[event];
    && (now.spent > now.budget ==> s1.b.recoveryError)
    && if event in s.b.cycles then
         var was := s.b.cycles[event];
         && now.id == was.id && now.budget == was.budget && now.sold == was.sold
         && now.spent == was.spent + f.amount && now.quantity == was.quantity + f.qty && now.cost == was.cost + f.amount
         && now.stop.enabled == was.stop.enabled && now.stop.multiplier == was.stop.multiplier
         && now.stop.gross == was.stop.gross + f.gross && now.stop.weighted == was.stop.weighted + f.price * f.gross
         && (now.stop.phase == Exiting ==> was.stop.phase == Exiting)
       else
         && now.id == f.trade && now.budget == f.rules.budget && !now.sold
         && now.spent == f.amount && now.quantity == f.qty && now.cost == f.amount
         && now.stop.enabled == f.rules.stopEnabled && now.stop.multiplier == f.rules.stopMultiplier
         && now.stop.gross == f.gross && now.stop.weighted == f.price * f.gross && now.stop.phase != Exiting
  }

  lemma BuyAddsUp(s: State, s1: State, closed: bool)
    requires Buying(s, s1, closed)
    ensures var f := Upcoming(s).fill;
            && f.order in s.intents && BuysInto(s, s1, s.intents[f.order].token.event, f)
            && s1.b.targets == s.b.targets[TargetKey(f) := s1.b.targets[TargetKey(f)]]
            && s1.b.targets[TargetKey(f)]
               == Target(s.intents[f.order].token.event, s.intents[f.order].token, f.rules.target, f.qty, f.at)
            && s1.b.banned == s.b.banned && (s.b.recoveryError ==> s1.b.recoveryError) && s1.b.claims == s.b.claims
  {
    hide Core, FilledQty, Known;
  }

  lemma SellMovesOnly(s: State, s1: State, closed: bool)
    requires Selling(s, s1, closed)
    ensures s1.b.banned == s.b.banned && s1.b.recoveryError == s.b.recoveryError
  {
    hide Core, FilledQty, Known, TakeTargets;
  }

  lemma OtherMovesNothing(s: State, s1: State, closed: bool)
    requires Midway(s, s1, closed) && !Upcoming(s).Filled?
    ensures s1.b == s.b.(cursor := s.b.cursor + 1)
    ensures forall o :: o in s.intents ==> o in s1.intents && s1.intents[o].spent == s.intents[o].spent
  {
  }

  lemma SpentMidway(s: State, s1: State, closed: bool, o: Id)
    requires Midway(s, s1, closed) && o in s.intents
    ensures o in s1.intents
    ensures var e := Upcoming(s);
            s1.intents[o].spent
            == s.intents[o].spent + if e.Filled? && e.fill.order == o && e.fill.side == Buy then e.fill.amount else 0
  {
  }

  /** Any other cycle than the fill's own, and all of them when no fill is projected. */
  lemma CycleUnmoved(s: State, s1: State, closed: bool, event: Id)
    requires Core(s) && Midway(s, s1, closed) && event in s1.b.cycles
    requires Upcoming(s).Filled? ==> Upcoming(s).fill.order in s.intents
    requires Upcoming(s).Filled? ==> s.intents[Upcoming(s).fill.order].token.event != event
    ensures event in s.b.cycles && s1.b.cycles[event] == s.b.cycles[event]
    ensures s.b.recoveryError ==> s1.b.recoveryError
    ensures s1.b.banned == s.b.banned
  {
    hide Core, Grown, FilledQty, Known, TakeTargets;
  }

  lemma TokensMidway(s: State, s1: State, closed: bool)
    requires Midway(s, s1, closed)
    ensures SameTokens(s.journal, s.intents, s1.intents)
    ensures forall e, event, side :: Concerns(e, s1.intents, event, side) <==> Concerns(e, s.intents, event, side)
  {
    hide FilledQty;
    MidwayOrders(s, s1, closed);
    assert forall p :: p in s.intents ==> SameOrder(s1.intents[p], s.intents[p]);
  }

  /** The totals of a cycle's stretch after one more event. */
  lemma StretchNext(s: State, s1: State, closed: bool, event: Id, j: nat)
    requires Midway(s, s1, closed) && j <= s.b.cursor
    ensures s1.b.cursor == s.b.cursor + 1 && s1.journal == s.journal && s.b.cursor < |s.journal|
    ensures forall side, m ::
              EventTotal(s1.journal[j..s1.b.cursor], s1.intents, event, side, m)
              == EventTotal(s.journal[j..s.b.cursor], s.intents, event, side, m)
                 + if Concerns(Upcoming(s), s.intents, event, side) then H.Measured(m, Upcoming(s).fill) else 0
  {
    hide FilledQty, EventTotal, ApplyEvent;
    MidwayOrders(s, s1, closed);
    TokensMidway(s, s1, closed);
    var n := s.b.cursor;
    forall side, m
      ensures EventTotal(s.journal[j..n + 1], s1.intents, event, side, m)
              == EventTotal(s.journal[j..n], s.intents, event, side, m)
                 + if Concerns(Upcoming(s), s.intents, event, side) then H.Measured(m, Upcoming(s).fill) else 0
    {
      TotalNext(s.journal, j, n, s.intents, event, side, m);
      TotalSame(s.journal[j..n + 1], s.intents, s1.intents, event, side, m);
    }
  }

  lemma SoldNext(s: State, s1: State, closed: bool, event: Id, j: nat)
    requires Midway(s, s1, closed) && j < s.b.cursor
    ensures (exists k :: j < k < s1.b.cursor && Concerns(s1.journal[k], s1.intents, event, Sell))
            <==> (exists k :: j < k < s.b.cursor && Concerns(s.journal[k], s.intents, event, Sell))
                 || Concerns(Upcoming(s), s.intents, event, Sell)
  {
    hide FilledQty, Concerns, ApplyEvent;
    MidwayOrders(s, s1, closed);
    TokensMidway(s, s1, closed);
    if Concerns(Upcoming(s), s.intents, event, Sell) {
      assert Concerns(s1.journal[s.b.cursor], s1.intents, event, Sell);
    }
  }

  lemma MidwayWithin(s: State, s1: State, closed: bool)
    requires Core(s) && Midway(s, s1, closed)
    ensures s.b.cursor < |s.journal| && s1.b.cursor == s.b.cursor + 1 && s1.journal == s.journal && Upcoming(s).Order() in s.intents
    ensures Upcoming(s).Filled? ==> Upcoming(s).fill.qty > 0
  {
    hide FilledQty, ApplyEvent, OrdersOk, CyclesOk, ClaimsOk, TargetsOk, Alone;
    MidwayOrders(s, s1, closed);
    UpcomingOwned(s);
  }

  /** The cycle after the event, by the totals of its stretch: each moves by what concerns it. */
  ghost predicate MovedOn(s: State, s1: State, event: Id)
    requires s.b.cursor < |s.journal|
  {
    && event in s.b.cycles && event in s1.b.cycles
    && var was, now, e := s.b.cycles[event], s1.b.cycles[event], Upcoming(s);
    var bought, sold := Concerns(e, s.intents, event, Buy), Concerns(e, s.intents, event, Sell);
    && now.id == was.id && now.budget == was.budget
    && now.stop.enabled == was.stop.enabled && now.stop.multiplier == was.stop.multiplier
    && now.spent == was.spent + (if bought then e.fill.amount else 0)
    && now.quantity == was.quantity + (if bought then e.fill.qty else 0) - (if sold then e.fill.qty else 0)
    && now.stop.gross == was.stop.gross + (if bought then e.fill.gross else 0)
    && now.stop.weighted == was.stop.weighted + (if bought then e.fill.price * e.fill.gross else 0)
    && (now.sold <==> was.sold || sold)
    && (now.spent > now.budget ==> s1.b.recoveryError || (was.spent > was.budget))
    && (s.b.recoveryError ==> s1.b.recoveryError) && s.b.banned <= s1.b.banned
    && (now.stop.phase == Exiting ==> was.stop.phase == Exiting)
  }

  lemma CycleMovesOn(s: State, s1: State, closed: bool, event: Id)
    requires Core(s) && Midway(s, s1, closed) && event in s1.b.cycles && event in s.b.cycles && s.b.cursor < |s.journal|
    ensures MovedOn(s, s1, event)
  {
    hide Core, Midway, FilledQty, Known, TakeTargets, H.Grown;
    MidwayWithin(s, s1, closed);
    var e := Upcoming(s);
    if !e.Filled? || s.intents[e.fill.order].token.event != event {
      CycleUnmoved(s, s1, closed, event);
    } else if e.fill.side == Buy {
      BuyAddsUp(s, s1, closed);
    } else {
      SellShrinks(s, s1, closed);
      SellMovesOnly(s, s1, closed);
    }
  }

  lemma StillOpened(s: State, s1: State, closed: bool, event: Id, j: nat)
    requires Core(s) && Midway(s, s1, closed) && s.b.cursor < |s.journal| && MovedOn(s, s1, event)
    requires OpenedBy(s, event, j)
    ensures OpenedBy(s1, event, j)
  {
    hide Core, Midway, EventTotal, SameTokens;
    MidwayWithin(s, s1, closed);
    TokensMidway(s, s1, closed);
    StretchNext(s, s1, closed, event, j);
    SoldNext(s, s1, closed, event, j);
  }

  lemma CycleMidway(s: State, s1: State, closed: bool, event: Id)
    requires Core(s) && Midway(s, s1, closed) && CycleTold(s, event)
    ensures CycleTold(s1, event)
  {
    hide Core, Midway, OpenedBy, Known, TakeTargets, H.Grown;
    MidwayWithin(s, s1, closed);
    if event in s1.b.cycles {
      if event in s.b.cycles {
        CycleMovesOn(s, s1, closed, event);
        var j: nat :| OpenedBy(s, event, j);
        StillOpened(s, s1, closed, event, j);
      } else {
        NewCycle(s, s1, closed, event);
        OpensHere(s, s1, closed, event);
      }
    }
  }

  /** Only a buy of its own Event opens a cycle. */
  lemma NewCycle(s: State, s1: State, closed: bool, event: Id)
    requires Core(s) && Midway(s, s1, closed) && event in s1.b.cycles && event !in s.b.cycles && s.b.cursor < |s.journal|
    ensures Concerns(Upcoming(s), s.intents, event, Buy) && BuysInto(s, s1, event, Upcoming(s).fill)
  {
    hide Core, Midway, FilledQty, Known, TakeTargets, H.Grown;
    MidwayWithin(s, s1, closed);
    var e := Upcoming(s);
    if !e.Filled? || s.intents[e.fill.order].token.event != event {
      CycleUnmoved(s, s1, closed, event);
    } else if e.fill.side == Buy {
      BuyAddsUp(s, s1, closed);
    } else {
      SellShrinks(s, s1, closed);
    }
  }

  lemma OpensHere(s: State, s1: State, closed: bool, event: Id)
    requires Core(s) && Midway(s, s1, closed) && event in s1.b.cycles && event !in s.b.cycles
    requires Concerns(Upcoming(s), s.intents, event, Buy) && BuysInto(s, s1, event, Upcoming(s).fill)
    ensures OpenedBy(s1, event, s.b.cursor)
  {
    hide Core, Midway, FilledQty, Known, TakeTargets, Grown;
    MidwayOrders(s, s1, closed);
    TokensMidway(s, s1, closed);
    StretchNext(s, s1, closed, event, s.b.cursor);
    assert s.journal[s.b.cursor..s.b.cursor] == [];
  }

  lemma TargetMidway(s: State, s1: State, closed: bool, k: TargetId)
    requires Core(s) && Midway(s, s1, closed) && TargetTold(s, k)
    ensures TargetTold(s1, k)
  {
    hide Core, Midway, FilledQty, Known, TakeTargets, H.Grown;
    MidwayWithin(s, s1, closed);
    MidwayOrders(s, s1, closed);
    assert forall p :: p in s.intents ==> SameOrder(s1.intents[p], s.intents[p]);
    var e := Upcoming(s);
    if k in s1.b.targets {
      if !e.Filled? {
        OtherMovesNothing(s, s1, closed);
      } else if e.fill.side == Buy {
        BuyAddsUp(s, s1, closed);
      } else {
        SellShrinks(s, s1, closed);
        TakenOnly(s.b.targets, s.intents[e.fill.order].targets, s.intents[e.fill.order].token.event, e.fill.qty);
        OnlyShrunk(s, s1, k);
      }
      if e.Filled? && e.fill.side == Buy && TargetKey(e.fill) == k {
        assert SetBy(s1, k, s.b.cursor);
      } else {
        var j: nat :| SetBy(s, k, j);
        assert SetBy(s1, k, j);
      }
    }
  }

  lemma OnlyShrunk(s: State, s1: State, k: TargetId)
    requires Shrunk(s, s1) && k in s1.b.targets && TargetTold(s, k)
    requires var i := s.intents[Upcoming(s).fill.order];
             OnlyTaken(s.b.targets, TakeTargets(s.b.targets, i.targets, i.token.event, Upcoming(s).fill.qty), i.token.event)
    ensures k in s.b.targets && s1.b.targets[k] == s.b.targets[k].(qty := s1.b.targets[k].qty) && s1.b.targets[k].qty > 0
    ensures s1.b.targets[k].qty <= s.b.targets[k].qty
  {
    hide TakeTargets;
    var i := s.intents[Upcoming(s).fill.order];
    NeverMore(s.b.targets, i.targets, i.token.event, Upcoming(s).fill.qty);
  }

  /** Taking never adds to a target. */
  lemma {:induction false} NeverMore(targets: Targets, ids: seq<TargetId>, event: Id, remain: int)
    requires remain >= 0
    ensures var now := TakeTargets(targets, ids, event, remain);
            forall k :: k in now ==> k in targets && (targets[k].qty > 0 ==> now[k].qty <= targets[k].qty)
    decreases |ids|
  {
    if ids != [] {
      if ids[0] !in targets || targets[ids[0]].event != event {
        NeverMore(targets, ids[1..], event, remain);
      } else {
        var used := Min(remain, targets[ids[0]].qty);
        var left := targets[ids[0]].qty - used;
        var next := if left == 0 then targets - {ids[0]} else targets[ids[0] := targets[ids[0]].(qty := left)];
        if remain - used != 0 {
          TakenOnly(next, ids[1..], event, remain - used);
          NeverMore(next, ids[1..], event, remain - used);
        }
      }
    }
  }

  lemma OrderMidway(s: State, s1: State, closed: bool, o: Id)
    requires Core(s) && Midway(s, s1, closed) && OrderTold(s, o)
    ensures OrderTold(s1, o)
  {
    hide Core, Midway, FilledQty, SpentBy;
    MidwayWithin(s, s1, closed);
    MidwayOrders(s, s1, closed);
    if o in s1.intents {
      SpentMidway(s, s1, closed, o);
      SpentNext(s.journal, s.b.cursor, o);
    }
  }

  /** A fill in an Event whose claim is still owed is the settlement of that claim. */
  lemma OwedOnlySettles(s: State, condition: Id)
    requires Core(s) && s.b.cursor < |s.journal| && Upcoming(s).Filled? && Upcoming(s).fill.order in s.intents
    requires condition in s.b.claims && s.b.claims[condition].credited.None?
    requires s.intents[Upcoming(s).fill.order].token.event == s.b.claims[condition].token.event
    ensures var i := s.intents[Upcoming(s).fill.order];
            i.kind == Settlement && i.token.condition == condition && Upcoming(s).fill.side == Sell
  {
    hide FilledQty, Known, TargetSum, Listed, Exempt, CyclesOk, TargetsOk, Alone, Left;
    var o := Upcoming(s).fill.order;
    UpcomingOwned(s);
    assert Pending(s, o) && ClaimOk(s, condition) && OrderOk(s, o);
  }

  lemma ClaimMidway(s: State, s1: State, closed: bool, condition: Id)
    requires Core(s) && Midway(s, s1, closed) && ClaimTold(s, condition)
    ensures ClaimTold(s1, condition)
  {
    hide Core, Midway, FilledQty, Known, TakeTargets, H.Grown;
    MidwayWithin(s, s1, closed);
    MidwayOrders(s, s1, closed);
    assert forall p :: p in s.intents ==> SameOrder(s1.intents[p], s.intents[p]);
    var e := Upcoming(s);
    if condition in s1.b.claims {
      if !e.Filled? {
        OtherMovesNothing(s, s1, closed);
      } else if e.fill.side == Buy {
        BuyAddsUp(s, s1, closed);
        BuyGrows(s, s1, closed);
      } else {
        SellShrinks(s, s1, closed);
        TakenOnly(s.b.targets, s.intents[e.fill.order].targets, s.intents[e.fill.order].token.event, e.fill.qty);
      }
      var was := s.b.claims[condition];
      if was.credited.None? && e.Filled? && s.intents[e.fill.order].token.event == was.token.event {
        OwedOnlySettles(s, condition);
      }
      if e.Filled? && e.fill.side == Sell && s.intents[e.fill.order].kind == Settlement
         && s.intents[e.fill.order].token.condition == condition {
        assert CreditedBy(s1, condition, s.b.cursor);
      } else if was.credited.Some? {
        var j: nat :| CreditedBy(s, condition, j);
        assert CreditedBy(s1, condition, j);
      }
    }
  }

  lemma MidwayTold(s: State, s1: State, closed: bool)
    requires Core(s) && Midway(s, s1, closed) && Told(s)
    ensures Told(s1)
  {
    hide Core, Midway, CycleTold, TargetTold, OrderTold, ClaimTold;
    forall event
      ensures CycleTold(s1, event)
    {
      CycleMidway(s, s1, closed, event);
    }
    forall k
      ensures TargetTold(s1, k)
    {
      TargetMidway(s, s1, closed, k);
    }
    forall o
      ensures OrderTold(s1, o)
    {
      OrderMidway(s, s1, closed, o);
    }
    forall condition
      ensures ClaimTold(s1, condition)
    {
      ClaimMidway(s, s1, closed, condition);
    }
  }

  // ------------------------------------------------------------ every step

  lemma ReleasedAside(s: State, event: Id, active: bool)
    requires s.b.cursor <= |s.journal|
    ensures Aside(s, s.(b := Released(s.b, event, active)))
  {
  }

  lemma ObservedAside(s: State, event: Id, bid: Option<int>, seen: string, now: int, ready: bool)
    requires s.b.cursor <= |s.journal| && event in s.b.cycles
    ensures Aside(s, s.(b := Observed(s.b, event, bid, seen, now, ready)))
  {
    ObservedStop(s.b.cycles[event].stop, bid, seen, now, ready);
    hide Stop.Observe;
  }

  lemma ObservedStop(stop: Stop, bid: Option<int>, seen: string, now: int, ready: bool)
    ensures SameStop(stop.Observe(bid, seen, now, ready), stop)
  {
  }

  lemma IdentifyTold(s: State, t: Token, amount: int)
    requires Inv(s) && MayIdentify(s, t) && Told(s)
    ensures Told(s.(b := Identified(s.b, t, amount)))
  {
    hide Core, AllKept, CycleTold, FilledQty, Active, Caught, SpentBy;
    CoreJournaled(s);
    var s' := s.(b := Identified(s.b, t, amount));
    var aside := s'.(b := s'.b.(claims := s.b.claims));
    AsideTold(s, aside);
    forall event
      ensures CycleTold(s', event)
    {
      SameCycleTold(aside, s', event);
    }
    forall k
      ensures TargetTold(s', k)
    {
      assert TargetTold(aside, k);
      if k in s'.b.targets {
        var j: nat :| SetBy(aside, k, j);
        assert SetBy(s', k, j);
      }
    }
    forall o
      ensures OrderTold(s', o)
    {
      assert OrderTold(aside, o);
    }
    forall condition
      ensures ClaimTold(s', condition)
    {
      assert ClaimTold(aside, condition);
      if condition in s.b.claims && s.b.claims[condition].credited.Some? {
        var j: nat :| CreditedBy(aside, condition, j);
        assert CreditedBy(s', condition, j);
      }
    }
  }

  lemma SameCycleTold(s: State, t: State, event: Id)
    requires t.b.cycles == s.b.cycles && t.b.cursor == s.b.cursor && t.journal == s.journal && t.intents == s.intents
    requires t.b.recoveryError == s.b.recoveryError && t.b.banned == s.b.banned && CycleTold(s, event)
    ensures CycleTold(t, event)
  {
    if event in s.b.cycles {
      var j: nat :| OpenedBy(s, event, j);
      assert OpenedBy(t, event, j);
    }
  }

  lemma DeliverTold(s: State, closed: bool)
    requires Inv(s) && s.b.cursor < |s.journal| && Told(s)
    ensures Told(Delivered(s, closed))
  {
    hide Core, ApplyEvent, Active, Released, Told;
    NextApplies(s, closed);
    CoreJournaled(s);
    var r := ApplyEvent(s.b, s.intents, Upcoming(s), s.b.cursor + 1, closed).value;
    var s1 := s.(b := r.0, intents := r.1);
    var event := s.intents[Upcoming(s).Order()].token.event;
    assert Midway(s, s1, closed);
    MidwayKeeps(s, s1, closed);
    MidwayTold(s, s1, closed);
    MidwayOrders(s, s1, closed);
    ReleasedAside(s1, event, Active(s1.intents, event));
    AsideTold(s1, s1.(b := Released(s1.b, event, Active(s1.intents, event))));
    assert Delivered(s, closed) == s1.(b := Released(s1.b, event, Active(s1.intents, event)));
  }

  lemma RetireTold(s: State, o: Id)
    requires Inv(s) && o in s.intents && Told(s)
    ensures Told(Retired(s, o))
  {
    hide Core, Active, Released, Told;
    var t, event := Finished(s, o), s.intents[o].token.event;
    CoreJournaled(s);
    FinishKeeps(s, o);
    CoreJournaled(t);
    AsideTold(s, t);
    ReleasedAside(t, event, Active(t.intents, event));
    AsideTold(t, t.(b := Released(t.b, event, Active(t.intents, event))));
  }

  lemma StepTold(s: State, a: Action)
    requires Inv(s) && Enabled(s, a) && Told(s)
    ensures Told(Next(s, a))
  {
    hide Core, AllKept, Told, Delivered, Observed, Identified, Retired, Active, MayRecord, MayIdentify, Listed, Caught,
         Journaled, FilledQty;
    CoreJournaled(s);
    CursorWithin(s);
    match a
    case Submit(o, i) => AsideTold(s, Next(s, a));
    case Record(e) => AsideTold(s, Next(s, a));
    case Deliver(closed) => DeliverTold(s, closed);
    case Observe(event, bid, seen, now, ready) =>
      ObservedAside(s, event, bid, seen, now, ready);
      AsideTold(s, Next(s, a));
    case Identify(t, amount) => IdentifyTold(s, t, amount);
    case Configure(_) => AsideTold(s, Next(s, a));
    case Retire(o) => RetireTold(s, o);
  }

  lemma {:induction false} RunTold(s: State, actions: seq<Action>, t: State)
    requires Inv(s) && Told(s) && Reaches(s, actions, t)
    ensures Inv(t) && Told(t)
    decreases |actions|
  {
    hide Inv, Told, Enabled, Next;
    if actions != [] {
      StepKeeps(s, actions[0]);
      StepTold(s, actions[0]);
      RunTold(Next(s, actions[0]), actions[1..], t);
    }
  }

  lemma Reachable(initial: int, budget: int, actions: seq<Action>, t: State)
    requires Reaches(Start(initial, budget), actions, t)
    ensures Inv(t) && Told(t)
  {
    StartInv(initial, budget);
    assert Told(Start(initial, budget));
    RunTold(Start(initial, budget), actions, t);
  }

  // ------------------------------------------------------------ the theorems

  /** Every open cycle can be told from the journal: some buy opened it and froze its budget
      and its stop, and spent cash, holding, average and the sold mark are those of the fills
      from there on. Whatever was spent beyond the frozen budget is flagged. */
  lemma CyclesAreTold(initial: int, budget: int, actions: seq<Action>, t: State, event: Id) returns (j: nat)
    requires Reaches(Start(initial, budget), actions, t) && event in t.b.cycles
    ensures OpenedBy(t, event, j)
    ensures t.b.cycles[event].spent > t.b.cycles[event].budget ==> t.b.recoveryError
  {
    Reachable(initial, budget, actions, t);
    assert CycleTold(t, event);
    j :| OpenedBy(t, event, j);
  }

  /** Every target stands at the price that its own buy froze and holds no more than that buy. */
  lemma TargetsAreTold(initial: int, budget: int, actions: seq<Action>, t: State, k: TargetId) returns (j: nat)
    requires Reaches(Start(initial, budget), actions, t) && k in t.b.targets
    ensures SetBy(t, k, j)
  {
    Reachable(initial, budget, actions, t);
    assert TargetTold(t, k);
    j :| SetBy(t, k, j);
  }

  /** An order has spent exactly the amounts of its projected buys. */
  lemma SpendingIsTold(initial: int, budget: int, actions: seq<Action>, t: State, o: Id)
    requires Reaches(Start(initial, budget), actions, t) && o in t.intents
    ensures t.b.cursor <= |t.journal| && t.intents[o].spent == SpentBy(t.journal[..t.b.cursor], o)
  {
    Reachable(initial, budget, actions, t);
    assert OrderTold(t, o);
  }

  /** A claim still owed carries the holding and the cost of its cycle; a credited one was
      credited by a settlement fill of its own. */
  lemma ClaimsAreTold(initial: int, budget: int, actions: seq<Action>, t: State, condition: Id)
    requires Reaches(Start(initial, budget), actions, t) && condition in t.b.claims
    ensures var c := t.b.claims[condition];
            && (c.credited.None? ==>
                  && c.token.event in t.b.cycles && c.rights == t.b.cycles[c.token.event].quantity
                  && c.cost == t.b.cycles[c.token.event].cost && Untargeted(t.b.targets, c.token.event))
            && (c.credited.Some? ==> exists j: nat :: CreditedBy(t, condition, j))
  {
    Reachable(initial, budget, actions, t);
    assert ClaimTold(t, condition) && ClaimOk(t, condition);
  }

  lemma {:induction false} BansStay(s: State, actions: seq<Action>, t: State)
    requires Inv(s) && Told(s) && Reaches(s, actions, t)
    ensures s.b.banned <= t.b.banned
    decreases |actions|
  {
    hide Inv, Told, Enabled, Next;
    if actions != [] {
      StepKeeps(s, actions[0]);
      StepTold(s, actions[0]);
      StepBans(s, actions[0]);
      BansStay(Next(s, actions[0]), actions[1..], t);
    }
  }

  lemma StepBans(s: State, a: Action)
    requires Inv(s) && Enabled(s, a)
    ensures s.b.banned <= Next(s, a).b.banned
  {
    hide Core, AllKept, Active, MayRecord, MayIdentify, Caught, Stop.Observe, TakeTargets;
  }

  /** An Event whose stop exits is banned, and from then on no run ever enters it again. */
  lemma NoEntryAfterExit(initial: int, budget: int, before: seq<Action>, s: State, after: seq<Action>, t: State,
                         event: Id, o: Id, i: Intent)
    requires Reaches(Start(initial, budget), before, s) && Reaches(s, after, t)
    requires event in s.b.cycles && s.b.cycles[event].stop.phase == Exiting
    requires Enabled(t, Submit(o, i)) && i.token.event == event
    ensures i.kind != Entry
  {
    Reachable(initial, budget, before, s);
    assert CycleTold(s, event);
    BansStay(s, after, t);
  }

  /** A look that finds the stop exiting bans the Event and leaves none of its targets. */
  lemma ExitClears(s: State, event: Id, bid: Option<int>, seen: string, now: int, ready: bool)
    requires Enabled(s, Observe(event, bid, seen, now, ready))
    ensures var t := Next(s, Observe(event, bid, seen, now, ready));
            && event in t.b.cycles && t.b.cycles[event].quantity == s.b.cycles[event].quantity
            && (t.b.cycles[event].stop.phase == Exiting ==> event in t.b.banned && Untargeted(t.b.targets, event))
            && (t.b.cycles[event].stop.phase != Exiting ==> t.b.banned == s.b.banned && t.b.targets == s.b.targets)
  {
    hide Stop.Observe;
  }
}
