/** Every step of a run keeps the ledger's invariant. */
module LedgerSteps {
  import opened Arith
  import opened Ledger
  import opened LedgerRuns
  import opened MapSum
  import opened StopLossRules

  // ------------------------------------------------------------ sums over the journal

  lemma FilledAppend(js: seq<Event>, e: Event, o: Id)
    ensures FilledQty(js + [e], o) == FilledQty(js, o) + if e.Filled? && e.fill.order == o then e.fill.qty else 0
  {
    assert (js + [e])[..|js|] == js;
  }

  lemma FilledNext(js: seq<Event>, n: nat, o: Id)
    requires n < |js|
    ensures FilledQty(js[..n + 1], o)
            == FilledQty(js[..n], o) + if js[n].Filled? && js[n].fill.order == o then js[n].fill.qty else 0
  {
    assert js[..n + 1] == js[..n] + [js[n]];
    FilledAppend(js[..n], js[n], o);
  }

  lemma {:induction false} FilledPrefix(js: seq<Event>, n: nat, o: Id)
    requires n <= |js|
    ensures FilledQty(js[..n], o) <= FilledQty(js, o)
    decreases |js| - n
  {
    if n < |js| {
      FilledNext(js, n, o);
      FilledPrefix(js, n + 1, o);
    } else {
      assert js[..n] == js;
    }
  }

  lemma {:induction false} FilledNothing(js: seq<Event>, o: Id)
    requires forall k :: 0 <= k < |js| ==> js[k].Order() != o
    ensures FilledQty(js, o) == 0
  {
    if js != [] {
      var e := js[|js| - 1];
      assert e.Order() != o;
      FilledNothing(js[..|js| - 1], o);
    }
  }

  // ------------------------------------------------------------ sums over the targets

  /** A target under a new key adds its quantity to its own Event and to no other. */
  lemma AddTarget(targets: Targets, k: TargetId, t: Target, event: Id)
    requires k !in targets
    ensures TargetSum(targets[k := t], event) == TargetSum(targets, event) + if t.event == event then t.qty else 0
  {
    var after := targets[k := t];
    var was := Sizes(targets, Of(targets, event));
    if t.event == event {
      assert Sizes(after, Of(after, event)) == was[k := t.qty];
      SumUpdate(was, k, t.qty);
    } else {
      assert Sizes(after, Of(after, event)) == was;
    }
  }

  lemma AddListed(targets: Targets, k: TargetId, t: Target, ids: seq<TargetId>, event: Id)
    requires k !in targets && t.qty >= 0
    ensures Listed(targets[k := t], ids, event) >= Listed(targets, ids, event)
  {
    var after := targets[k := t];
    var was := Sizes(targets, set x | x in Of(targets, event) && x in ids);
    var now := Sizes(after, set x | x in Of(after, event) && x in ids);
    if t.event == event && k in ids {
      assert now == was[k := t.qty];
      SumUpdate(was, k, t.qty);
    } else {
      assert now == was;
    }
  }

  /** Only quantities of an Event's own targets shrink, and no emptied target stays. */
  ghost predicate OnlyTaken(was: Targets, now: Targets, event: Id) {
    && now.Keys <= was.Keys
    && (forall k :: k in now ==> now[k] == was[k].(qty := now[k].qty) && (was[k].qty > 0 ==> now[k].qty > 0))
    && (forall k :: k in was && was[k].event != event ==> k in now && now[k] == was[k])
  }

  lemma {:induction false} TakenOnly(targets: Targets, ids: seq<TargetId>, event: Id, remain: int)
    requires remain >= 0
    ensures OnlyTaken(targets, TakeTargets(targets, ids, event, remain), event)
    decreases |ids|
  {
    if ids != [] {
      if ids[0] !in targets || targets[ids[0]].event != event {
        TakenOnly(targets, ids[1..], event, remain);
      } else {
        var used := Min(remain, targets[ids[0]].qty);
        var left := targets[ids[0]].qty - used;
        var next := if left == 0 then targets - {ids[0]} else targets[ids[0] := targets[ids[0]].(qty := left)];
        if remain - used != 0 {
          TakenOnly(next, ids[1..], event, remain - used);
        }
      }
    }
  }

  function Lowered(targets: Targets, k: TargetId, used: int): Targets
    requires k in targets
  {
    var left := targets[k].qty - used;
    if left == 0 then targets - {k} else targets[k := targets[k].(qty := left)]
  }

  lemma LoweredSum(targets: Targets, k: TargetId, used: int, keep: set<TargetId>)
    requires k in targets && k in keep
    ensures Sum(Sizes(Lowered(targets, k, used), keep)) == Sum(Sizes(targets, keep)) - used
  {
    var sizes := Sizes(targets, keep);
    if targets[k].qty == used {
      assert Sizes(targets - {k}, keep) == sizes - {k};
      SumWithout(sizes, k);
    } else {
      assert Sizes(Lowered(targets, k, used), keep) == sizes[k := targets[k].qty - used];
      SumUpdate(sizes, k, targets[k].qty - used);
    }
  }

  /** What the rest of the list holds once its first target has been emptied. */
  lemma ListedRest(targets: Targets, ids: seq<TargetId>, event: Id)
    requires ids != []
    ensures ids[0] !in Of(targets, event) ==> Listed(targets, ids, event) == Listed(targets, ids[1..], event)
    ensures ids[0] in Of(targets, event) ==>
              Listed(targets, ids, event) == targets[ids[0]].qty + Listed(targets - {ids[0]}, ids[1..], event)
  {
    var listed := set k | k in Of(targets, event) && k in ids;
    if ids[0] in Of(targets, event) {
      var next := targets - {ids[0]};
      assert Sizes(next, set k | k in Of(next, event) && k in ids[1..]) == Sizes(targets, listed) - {ids[0]};
      SumWithout(Sizes(targets, listed), ids[0]);
    } else {
      assert Sizes(targets, listed) == Sizes(targets, set k | k in Of(targets, event) && k in ids[1..]);
    }
  }

  lemma ListedNothing(targets: Targets, event: Id)
    ensures Listed(targets, [], event) == 0
  {
    var none: seq<TargetId> := [];
    assert Sizes(targets, set k | k in Of(targets, event) && k in none) == map[];
  }

  /** Taking from listed targets lowers any sum that counts all of them by what was taken. */
  lemma {:induction false} TakenSum(targets: Targets, ids: seq<TargetId>, event: Id, remain: int, keep: set<TargetId>)
    requires 0 <= remain <= Listed(targets, ids, event)
    requires forall k :: k in targets ==> targets[k].qty > 0
    requires forall k :: k in Of(targets, event) && k in ids ==> k in keep
    ensures Sum(Sizes(TakeTargets(targets, ids, event, remain), keep)) == Sum(Sizes(targets, keep)) - remain
    decreases |ids|
  {
    hide Sum, Sizes;
    if ids == [] {
      ListedNothing(targets, event);
    } else {
      ListedRest(targets, ids, event);
      var k := ids[0];
      if k !in Of(targets, event) {
        TakenSum(targets, ids[1..], event, remain, keep);
      } else {
        var used := Min(remain, targets[k].qty);
        LoweredSum(targets, k, used, keep);
        if remain - used != 0 {
          TakenSum(targets - {k}, ids[1..], event, remain - used, keep);
        }
      }
    }
  }

  /** A sale from listed targets lowers the Event's sum and the list's by what was sold. */
  lemma TakenCovers(targets: Targets, ids: seq<TargetId>, event: Id, qty: int)
    requires 0 <= qty <= Listed(targets, ids, event)
    requires forall k :: k in targets ==> targets[k].qty > 0
    ensures TargetSum(TakeTargets(targets, ids, event, qty), event) == TargetSum(targets, event) - qty
    ensures Listed(TakeTargets(targets, ids, event, qty), ids, event) == Listed(targets, ids, event) - qty
  {
    var now := TakeTargets(targets, ids, event, qty);
    TakenOnly(targets, ids, event, qty);
    var all := Of(targets, event);
    TakenSum(targets, ids, event, qty, all);
    assert Sizes(now, all) == Sizes(now, Of(now, event));
    var listed := set k | k in Of(targets, event) && k in ids;
    TakenSum(targets, ids, event, qty, listed);
    assert Sizes(now, listed) == Sizes(now, set k | k in Of(now, event) && k in ids);
  }

  /** Other Events' sums do not notice. */
  lemma TakenElsewhere(was: Targets, now: Targets, event: Id, other: Id)
    requires OnlyTaken(was, now, event) && other != event
    ensures TargetSum(now, other) == TargetSum(was, other)
    ensures forall ids :: Listed(now, ids, other) == Listed(was, ids, other)
  {
    assert Sizes(now, Of(now, other)) == Sizes(was, Of(was, other));
    forall ids
      ensures Listed(now, ids, other) == Listed(was, ids, other)
    {
      assert Sizes(now, set k | k in Of(now, other) && k in ids) == Sizes(was, set k | k in Of(was, other) && k in ids);
    }
  }

  lemma ListedWithin(targets: Targets, ids: seq<TargetId>, event: Id)
    requires forall k :: k in targets ==> targets[k].qty > 0
    ensures Listed(targets, ids, event) <= TargetSum(targets, event)
  {
    SumPart(Sizes(targets, set k | k in Of(targets, event) && k in ids), Sizes(targets, Of(targets, event)));
  }

  // ------------------------------------------------------------ submitting

  /** An order taking listed targets of a covered cycle offers no more than the cycle holds. */
  lemma ExitWithinCycle(s: State, i: Intent)
    requires Core(s) && TargetExitAllowed(s, i, Listed(s.b.targets, i.targets, i.token.event))
    ensures i.quantity <= s.b.cycles[i.token.event].quantity
  {
    assert forall k :: k in s.b.targets ==> TargetOk(s, k);
    ListedWithin(s.b.targets, i.targets, i.token.event);
    assert CycleOk(s.b, i.token.event);
  }

  lemma NobodyLive(s: State, event: Id)
    requires !Active(s.intents, event) && Caught(s, event)
    ensures forall p :: Live(s, p) ==> s.intents[p].token.event != event
  {
  }

  lemma NoSellLive(s: State, event: Id)
    requires !ActiveSell(s.intents, event) && Caught(s, event)
    ensures forall p :: Live(s, p) && s.intents[p].token.event == event ==> s.intents[p].side == Buy
  {
  }

  lemma SubmitLive(s: State, o: Id, i: Intent)
    requires Journaled(s) && MaySubmit(s, o, i)
    ensures var s' := s.(intents := s.intents[o := i]);
            && (forall p :: Live(s', p) <==> (p == o || Live(s, p)))
            && (forall p :: Live(s, p) ==> p != o)
            && Journaled(s')
            && s.b.cursor <= |s.journal| && FilledQty(s.journal[..s.b.cursor], o) == 0
  {
    FilledNothing(s.journal, o);
    FilledNothing(s.journal[..s.b.cursor], o);
    var s' := s.(intents := s.intents[o := i]);
    forall p
      ensures Pending(s', p) <==> Pending(s, p)
    {
    }
  }

  lemma SubmitKeeps(s: State, o: Id, i: Intent)
    requires Core(s) && MaySubmit(s, o, i)
    ensures Core(s.(intents := s.intents[o := i]))
  {
    hide Live, Pending, Caught, Active, ActiveSell, Listed, TargetSum, FilledQty, Known, Sizes, Of, Journaled, CycleOk;
    var s' := s.(intents := s.intents[o := i]);
    SubmitLive(s, o, i);
    if i.kind == Settlement {
      assert ClaimOk(s, i.token.condition);
    } else if i.kind == TargetExit {
      ExitWithinCycle(s, i);
    }
    if i.kind == Entry || i.kind == Settlement {
      NobodyLive(s, i.token.event);
    } else {
      NoSellLive(s, i.token.event);
    }
    assert OrderOk(s', o);
    forall p | Live(s', p)
      ensures OrderOk(s', p)
    {
      if p != o {
        assert OrderOk(s, p);
      }
    }
    forall k | k in s'.b.claims
      ensures ClaimOk(s', k)
    {
      assert ClaimOk(s, k);
    }
    forall k | k in s'.b.targets
      ensures TargetOk(s', k)
    {
      assert TargetOk(s, k);
    }
  }

  // ------------------------------------------------------------ journaling

  lemma RecordLive(s: State, e: Event)
    requires Journaled(s) && MayRecord(s, e)
    ensures var s' := s.(journal := s.journal + [e]);
            && (forall p :: Live(s', p) <==> Live(s, p))
            && s'.journal[..s.b.cursor] == s.journal[..s.b.cursor]
  {
    var s' := s.(journal := s.journal + [e]);
    forall p | Pending(s', p)
      ensures Pending(s, p) || Live(s, p)
    {
    }
    forall p | Pending(s, p)
      ensures Pending(s', p)
    {
      var k :| s.b.cursor <= k < |s.journal| && s.journal[k].Filled? && s.journal[k].fill.order == p;
      assert s'.journal[k] == s.journal[k];
    }
  }

  lemma RecordJournaled(s: State, e: Event)
    requires Journaled(s) && MayRecord(s, e)
    ensures Journaled(s.(journal := s.journal + [e]))
  {
    hide Live;
    var s' := s.(journal := s.journal + [e]);
    forall o | o in s'.intents && s'.intents[o].side == Sell
      ensures FilledQty(s'.journal, o) <= s'.intents[o].quantity
    {
      FilledAppend(s.journal, e, o);
    }
    if e.Filled? {
      assert !Known(s.journal, TargetKey(e.fill));
    }
  }

  lemma RecordKeeps(s: State, e: Event)
    requires Core(s) && MayRecord(s, e)
    ensures Core(s.(journal := s.journal + [e]))
  {
    hide Live, Listed, TargetSum, FilledQty, Known, Journaled, CycleOk, MayRecord;
    var s' := s.(journal := s.journal + [e]);
    RecordJournaled(s, e);
    RecordLive(s, e);
    CursorWithin(s);
    forall p | Live(s', p)
      ensures OrderOk(s', p)
    {
      assert OrderOk(s, p);
    }
    forall k | k in s'.b.targets
      ensures TargetOk(s', k)
    {
      assert TargetOk(s, k);
    }
    forall k | k in s'.b.claims
      ensures ClaimOk(s', k)
    {
      assert ClaimOk(s, k);
    }
  }

  lemma CursorWithin(s: State)
    requires Journaled(s)
    ensures s.b.cursor <= |s.journal|
  {
  }

  // ------------------------------------------------------------ observing and identifying

  lemma ClearedOnlyTaken(targets: Targets, event: Id)
    ensures OnlyTaken(targets, WithoutEvent(targets, event), event)
    ensures TargetSum(WithoutEvent(targets, event), event) == 0
  {
    var now := WithoutEvent(targets, event);
    assert Sizes(now, Of(now, event)) == map[];
  }

  /** Orders and their progress do not depend on what an observation or a claim changes. */
  lemma SameLive(s: State, b: Business)
    requires b.cursor == s.b.cursor
    ensures forall p :: Live(s.(b := b), p) <==> Live(s, p)
  {
    forall p
      ensures Pending(s.(b := b), p) <==> Pending(s, p)
    {
    }
  }

  /** What an observation may change: its own cycle's stop, and the targets of a
      cycle that leaves coverage. */
  ghost predicate OnlyObserved(was: Business, b: Business, event: Id) {
    && event in was.cycles && event in b.cycles
    && b == was.(cycles := was.cycles[event := was.cycles[event].(stop := b.cycles[event].stop)], banned := b.banned,
                 targets := b.targets)
    && (was.cycles[event].stop.phase == Exiting ==> b.cycles[event].stop.phase == Exiting)
    && (forall x :: Exempt(was, x) ==> Exempt(b, x))
    && OnlyTaken(was.targets, b.targets, event)
    && (!Exempt(b, event) ==> b.targets == was.targets)
  }

  lemma ObservedOnly(b: Business, event: Id, bid: Option<int>, seen: string, now: int, ready: bool)
    requires event in b.cycles
    ensures OnlyObserved(b, Observed(b, event, bid, seen, now, ready), event)
  {
    hide Listed, TargetSum;
    ClearedOnlyTaken(b.targets, event);
  }

  lemma ObserveKeeps(s: State, event: Id, bid: Option<int>, seen: string, now: int, ready: bool)
    requires Core(s) && event in s.b.cycles
    ensures Core(s.(b := Observed(s.b, event, bid, seen, now, ready)))
  {
    hide Live, Listed, TargetSum, FilledQty, Known, Observed, Exempt;
    var b := Observed(s.b, event, bid, seen, now, ready);
    var s' := s.(b := b);
    ObservedOnly(s.b, event, bid, seen, now, ready);
    SameLive(s, b);
    forall x | x in b.cycles
      ensures CycleOk(b, x)
    {
      assert CycleOk(s.b, x);
      if x != event {
        TakenElsewhere(s.b.targets, b.targets, event, x);
        ExemptAlike(s.b, b, x);
      }
    }
    forall p | Live(s', p)
      ensures OrderOk(s', p)
    {
      assert OrderOk(s, p);
      if s.intents[p].token.event != event {
        TakenElsewhere(s.b.targets, b.targets, event, s.intents[p].token.event);
      }
    }
    forall k | k in b.targets
      ensures TargetOk(s', k)
    {
      assert TargetOk(s, k);
    }
    forall k | k in b.claims
      ensures ClaimOk(s', k)
    {
      assert ClaimOk(s, k);
    }
  }

  lemma ExemptAlike(was: Business, b: Business, x: Id)
    requires x in was.cycles && x in b.cycles && was.cycles[x] == b.cycles[x] && was.settled == b.settled
    ensures Exempt(was, x) <==> Exempt(b, x)
  {
  }

  lemma IdentifyKeeps(s: State, t: Token, amount: int)
    requires Core(s) && MayIdentify(s, t) && Kept(s, t.event)
    ensures Core(s.(b := Identified(s.b, t, amount)))
  {
    hide Live, Listed, TargetSum, FilledQty, Known, Caught, Active;
    var b := Identified(s.b, t, amount);
    var s' := s.(b := b);
    SameLive(s, b);
    NobodyLive(s, t.event);
    ClearedOnlyTaken(s.b.targets, t.event);
    forall x | x in b.cycles
      ensures CycleOk(b, x)
    {
      assert CycleOk(s.b, x);
      if x != t.event {
        TakenElsewhere(s.b.targets, b.targets, t.event, x);
      }
    }
    forall p | Live(s', p)
      ensures OrderOk(s', p)
    {
      assert OrderOk(s, p);
      TakenElsewhere(s.b.targets, b.targets, t.event, s.intents[p].token.event);
    }
    forall k | k in b.targets
      ensures TargetOk(s', k)
    {
      assert TargetOk(s, k);
    }
    forall k | k in b.claims
      ensures ClaimOk(s', k)
    {
      if k in s.b.claims {
        assert ClaimOk(s, k);
      }
    }
  }

  // ------------------------------------------------------------ projecting: what is shared

  /** The journal's next event, its order, and the state once it is applied but before
      any cycle is released. */
  function Upcoming(s: State): Event
    requires s.b.cursor < |s.journal|
  {
    s.journal[s.b.cursor]
  }

  ghost predicate Midway(s: State, s1: State, closed: bool) {
    && Journaled(s) && s.b.cursor < |s.journal| && Upcoming(s).Order() in s.intents
    && var r := ApplyEvent(s.b, s.intents, Upcoming(s), s.b.cursor + 1, closed);
       r.Ok? && s1 == s.(b := r.value.0, intents := r.value.1)
  }

  predicate SameOrder(i: Intent, j: Intent) {
    i == j.(spent := i.spent, terminal := i.terminal)
  }

  lemma MidwayOrders(s: State, s1: State, closed: bool)
    requires Midway(s, s1, closed)
    ensures s1.b.cursor == s.b.cursor + 1 && s1.journal == s.journal && s1.b.settled == s.b.settled
    ensures s1.initial == s.initial && s1.budget == s.budget
    ensures s1.intents.Keys == s.intents.Keys
    ensures forall p :: p in s.intents ==> SameOrder(s1.intents[p], s.intents[p])
    ensures forall p :: p in s.intents && p != Upcoming(s).Order() ==> s1.intents[p] == s.intents[p]
    ensures Journaled(s1)
  {
  }

  lemma MidwayLive(s: State, s1: State, closed: bool)
    requires Midway(s, s1, closed)
    ensures forall p :: Live(s1, p) ==> Live(s, p) && p in s.intents && p in s1.intents
    ensures Upcoming(s).Filled? ==> Live(s, Upcoming(s).fill.order)
  {
    hide FilledQty, Known;
    var e := Upcoming(s);
    forall p | Pending(s1, p)
      ensures Pending(s, p)
    {
    }
    if e.Filled? {
      assert Pending(s, e.fill.order);
    }
  }

  /** An order's remaining quantity moves only by its own fill. */
  lemma MidwayLeft(s: State, s1: State, closed: bool, p: Id)
    requires Midway(s, s1, closed) && p in s.intents && p in s1.intents
    requires s1.b.cursor <= |s1.journal|
    ensures var e := Upcoming(s);
            Left(s1, p) == Left(s, p) - if e.Filled? && e.fill.order == p then e.fill.qty else 0
  {
    MidwayOrders(s, s1, closed);
    FilledNext(s.journal, s.b.cursor, p);
  }

  /** A journaled sale that awaits projection is within what its order has left. */
  lemma PendingWithin(s: State, k: nat)
    requires Journaled(s) && s.b.cursor <= k < |s.journal| && s.journal[k].Filled?
    requires s.intents[s.journal[k].fill.order].side == Sell
    ensures s.journal[k].fill.qty <= Left(s, s.journal[k].fill.order)
  {
    var o := s.journal[k].fill.order;
    FilledNext(s.journal, k, o);
    FilledPrefix(s.journal, k + 1, o);
    FilledPrefix(s.journal[..k], s.b.cursor, o);
    assert s.journal[..k][..s.b.cursor] == s.journal[..s.b.cursor];
  }

  lemma MidwayTargets(s: State, s1: State, closed: bool, k: TargetId)
    requires Midway(s, s1, closed) && TargetsOk(s) && k in s.b.targets
    requires s1.b.cursor <= |s1.journal|
    ensures Known(s1.journal[..s1.b.cursor], k)
  {
    MidwayOrders(s, s1, closed);
    assert TargetOk(s, k);
    var j :| 0 <= j < |s.journal[..s.b.cursor]| && s.journal[..s.b.cursor][j].Filled?
             && TargetKey(s.journal[..s.b.cursor][j].fill) == k;
    assert s1.journal[..s1.b.cursor][j] == s.journal[..s.b.cursor][j];
  }

  lemma MidwayAlone(s: State, s1: State, closed: bool)
    requires Midway(s, s1, closed) && Alone(s)
    ensures Alone(s1)
  {
    hide Live, Midway;
    MidwayOrders(s, s1, closed);
    MidwayLive(s, s1, closed);
    assert forall o :: Live(s1, o) ==> Live(s, o) && SameOrder(s1.intents[o], s.intents[o]);
  }

  // ------------------------------------------------------------ projecting a buy

  ghost predicate Buying(s: State, s1: State, closed: bool) {
    Core(s) && s.b.cursor < |s.journal| && Midway(s, s1, closed) && Upcoming(s).Filled? && Upcoming(s).fill.side == Buy
  }

  lemma UpcomingOwned(s: State)
    requires Journaled(s) && s.b.cursor < |s.journal|
    ensures var e := Upcoming(s);
            && e.Order() in s.intents
            && (e.Filled? ==> e.fill.qty > 0 && e.fill.side == s.intents[e.fill.order].side)
    ensures forall o :: o in s.intents ==> (s.intents[o].side == Buy <==> s.intents[o].kind == Entry)
  {
  }

  /** The new target's key is not in use. */
  lemma FreshKey(s: State)
    requires Core(s) && s.b.cursor < |s.journal| && Upcoming(s).Filled?
    ensures TargetKey(Upcoming(s).fill) !in s.b.targets
  {
    var key := TargetKey(Upcoming(s).fill);
    assert !Known(s.journal[..s.b.cursor], key);
    assert key in s.b.targets ==> TargetOk(s, key);
  }

  lemma BuyCycles(s: State, s1: State, closed: bool)
    requires Buying(s, s1, closed)
    ensures CyclesOk(s1.b)
  {
    hide Live, Pending, Known, TargetSum, Listed, OrdersOk, ClaimsOk, Alone, FilledQty;
    var f := Upcoming(s).fill;
    var t := s.intents[f.order].token;
    FreshKey(s);
    forall x | x in s1.b.cycles
      ensures CycleOk(s1.b, x)
    {
      AddTarget(s.b.targets, TargetKey(f), s1.b.targets[TargetKey(f)], x);
      if x in s.b.cycles {
        assert CycleOk(s.b, x);
      } else {
        NoTargets(s.b.targets, x);
      }
    }
  }

  lemma NoTargets(targets: Targets, event: Id)
    requires forall k :: k in targets ==> targets[k].event != event
    ensures TargetSum(targets, event) == 0
  {
    assert Sizes(targets, Of(targets, event)) == map[];
  }

  lemma BuyListed(s: State, s1: State, closed: bool, ids: seq<TargetId>, event: Id)
    requires Buying(s, s1, closed)
    ensures Listed(s1.b.targets, ids, event) >= Listed(s.b.targets, ids, event)
  {
    hide Live, Pending, Known, TargetSum, Listed, OrdersOk, ClaimsOk, Alone, FilledQty;
    FreshKey(s);
    var f := Upcoming(s).fill;
    AddListed(s.b.targets, TargetKey(f), s1.b.targets[TargetKey(f)], ids, event);
  }

  /** What a projected buy does to the cycles and targets. */
  ghost predicate Grown(s: State, s1: State) {
    && s.b.cursor < |s.journal| && Upcoming(s).Filled? && Upcoming(s).fill.order in s.intents
    && var f := Upcoming(s).fill;
       var t := s.intents[f.order].token;
       && s1.b.claims == s.b.claims && s1.b.settled == s.b.settled
       && t.event in s1.b.cycles && s1.b.cycles[t.event].token == t
       && s1.b.cycles.Keys == s.b.cycles.Keys + {t.event}
       && (forall x :: x in s.b.cycles && x != t.event ==> s1.b.cycles[x] == s.b.cycles[x])
       && (t.event in s.b.cycles ==>
             && s.b.cycles[t.event].token == t
             && s1.b.cycles[t.event].quantity == s.b.cycles[t.event].quantity + f.qty
             && (s.b.cycles[t.event].stop.phase == Exiting <==> s1.b.cycles[t.event].stop.phase == Exiting)
             && (s.b.cycles[t.event].stop.phase == Stopped <==> s1.b.cycles[t.event].stop.phase == Stopped))
  }

  lemma BuyGrows(s: State, s1: State, closed: bool)
    requires Buying(s, s1, closed)
    ensures Grown(s, s1)
  {
    hide Live, Pending, Known, TargetSum, Listed, OrdersOk, ClaimsOk, Alone, FilledQty, TargetsOk, CyclesOk;
  }

  lemma BuyOrders(s: State, s1: State, closed: bool)
    requires Buying(s, s1, closed)
    ensures OrdersOk(s1)
  {
    hide Live, Pending, Known, TargetSum, Listed, ClaimsOk, FilledQty, TargetsOk, CyclesOk, Midway, Journaled;
    var f := Upcoming(s).fill;
    BuyGrows(s, s1, closed);
    MidwayOrders(s, s1, closed);
    MidwayLive(s, s1, closed);
    CursorWithin(s1);
    UpcomingOwned(s);
    forall p | Live(s1, p)
      ensures OrderOk(s1, p)
    {
      assert OrderOk(s, p);
      assert SameOrder(s1.intents[p], s.intents[p]);
      MidwayLeft(s, s1, closed, p);
      var event := s.intents[p].token.event;
      BuyListed(s, s1, closed, s.intents[p].targets, event);
      if event == s.intents[f.order].token.event && s.intents[p].side == Buy {
        assert Rivals(s.intents[p], s.intents[f.order]);
      }
    }
  }

  lemma BuyClaims(s: State, s1: State, closed: bool)
    requires Buying(s, s1, closed)
    ensures ClaimsOk(s1)
  {
    hide Live, Pending, Known, TargetSum, Listed, FilledQty, TargetsOk, CyclesOk, Midway, OrdersOk, Alone;
    BuyGrows(s, s1, closed);
    MidwayOrders(s, s1, closed);
    MidwayLive(s, s1, closed);
    forall k | k in s1.b.claims
      ensures ClaimOk(s1, k)
    {
      assert ClaimOk(s, k);
      assert forall p :: p in s.intents ==> SameOrder(s1.intents[p], s.intents[p]);
    }
  }

  lemma BuyTargets(s: State, s1: State, closed: bool)
    requires Buying(s, s1, closed)
    ensures s1.b.cursor <= |s1.journal| && TargetsOk(s1)
  {
    hide Live, Pending, TargetSum, Listed, FilledQty, CyclesOk, OrdersOk, ClaimsOk, Alone, Known;
    MidwayOrders(s, s1, closed);
    forall k | k in s1.b.targets
      ensures TargetOk(s1, k)
    {
      if k in s.b.targets {
        assert TargetOk(s, k);
        MidwayTargets(s, s1, closed, k);
      }
      UpcomingKnown(s);
    }
  }

  lemma UpcomingKnown(s: State)
    requires s.b.cursor < |s.journal| && Upcoming(s).Filled?
    ensures Known(s.journal[..s.b.cursor + 1], TargetKey(Upcoming(s).fill))
  {
    assert s.journal[..s.b.cursor + 1][s.b.cursor] == Upcoming(s);
  }

  // ------------------------------------------------------------ projecting a sale

  ghost predicate Selling(s: State, s1: State, closed: bool) {
    Core(s) && s.b.cursor < |s.journal| && Midway(s, s1, closed) && Upcoming(s).Filled? && Upcoming(s).fill.side == Sell
  }

  /** What a projected sale does to the cycles, targets and claims. */
  ghost predicate Shrunk(s: State, s1: State) {
    && s.b.cursor < |s.journal| && Upcoming(s).Filled? && Upcoming(s).fill.order in s.intents
    && var f := Upcoming(s).fill;
       var i := s.intents[f.order];
       var event := i.token.event;
       && event in s.b.cycles && s1.b.cycles.Keys == s.b.cycles.Keys
       && (forall x :: x in s.b.cycles && x != event ==> s1.b.cycles[x] == s.b.cycles[x])
       && var c, c1 := s.b.cycles[event], s1.b.cycles[event];
          && f.qty <= c.quantity && c1 == c.(quantity := c.quantity - f.qty, cost := c1.cost, sold := true)
          && (c1.quantity == 0 ==> c1.cost == 0)
          && s1.b.settled == s.b.settled
          && s1.b.targets == TakeTargets(s.b.targets, i.targets, event, f.qty)
          && s1.b.claims.Keys == s.b.claims.Keys
          && (forall k :: k in s.b.claims && !(i.kind == Settlement && k == i.token.condition) ==>
                s1.b.claims[k] == s.b.claims[k])
          && (i.kind == Settlement && i.token.condition in s.b.claims ==>
                s1.b.claims[i.token.condition] == s.b.claims[i.token.condition].(credited := Some(f.trade)))
  }

  lemma SellShrinks(s: State, s1: State, closed: bool)
    requires Selling(s, s1, closed)
    ensures Shrunk(s, s1)
  {
    hide Live, Pending, Known, TargetSum, Listed, OrdersOk, ClaimsOk, Alone, FilledQty, TargetsOk, CyclesOk;
  }

  /** A sale's order is live and takes no more than it has left; out of a covered cycle it
      takes exactly the listed targets. */
  lemma SellCovers(s: State, s1: State, closed: bool)
    requires Selling(s, s1, closed)
    ensures var f := Upcoming(s).fill;
            var i := s.intents[f.order];
            var event := i.token.event;
            && Live(s, f.order) && OrderOk(s, f.order) && f.qty <= Left(s, f.order)
            && OnlyTaken(s.b.targets, s1.b.targets, event)
            && (!Exempt(s.b, event) ==>
                  && TargetSum(s1.b.targets, event) == TargetSum(s.b.targets, event) - f.qty
                  && Listed(s1.b.targets, i.targets, event) == Listed(s.b.targets, i.targets, event) - f.qty)
  {
    hide Pending, Known, TargetSum, Listed, ClaimsOk, Alone, FilledQty, CyclesOk, Midway;
    var f := Upcoming(s).fill;
    var i := s.intents[f.order];
    SellShrinks(s, s1, closed);
    MidwayLive(s, s1, closed);
    UpcomingOwned(s);
    assert OrderOk(s, f.order);
    PendingWithin(s, s.b.cursor);
    TakenOnly(s.b.targets, i.targets, i.token.event, f.qty);
    if !Exempt(s.b, i.token.event) {
      assert forall k :: k in s.b.targets ==> TargetOk(s, k);
      TakenCovers(s.b.targets, i.targets, i.token.event, f.qty);
    }
  }

  lemma SellCycles(s: State, s1: State, closed: bool)
    requires Selling(s, s1, closed)
    ensures CyclesOk(s1.b)
  {
    hide Live, Pending, Known, TargetSum, Listed, OrdersOk, ClaimsOk, Alone, FilledQty, Midway, OrderOk;
    var event := s.intents[Upcoming(s).fill.order].token.event;
    SellShrinks(s, s1, closed);
    SellCovers(s, s1, closed);
    forall x | x in s1.b.cycles
      ensures CycleOk(s1.b, x)
    {
      assert CycleOk(s.b, x);
      if x != event {
        TakenElsewhere(s.b.targets, s1.b.targets, event, x);
      }
    }
  }

  lemma SellOrders(s: State, s1: State, closed: bool)
    requires Selling(s, s1, closed)
    ensures OrdersOk(s1)
  {
    hide Live, Pending, Known, TargetSum, Listed, ClaimsOk, FilledQty, TargetsOk, CyclesOk, Midway, Journaled;
    var f := Upcoming(s).fill;
    UpcomingOwned(s);
    var event := s.intents[f.order].token.event;
    SellShrinks(s, s1, closed);
    SellCovers(s, s1, closed);
    MidwayOrders(s, s1, closed);
    MidwayLive(s, s1, closed);
    CursorWithin(s1);
    forall p | Live(s1, p)
      ensures OrderOk(s1, p)
    {
      assert OrderOk(s, p);
      assert SameOrder(s1.intents[p], s.intents[p]);
      MidwayLeft(s, s1, closed, p);
      if s.intents[p].token.event != event {
        TakenElsewhere(s.b.targets, s1.b.targets, event, s.intents[p].token.event);
      } else if p != f.order {
        assert !Rivals(s.intents[f.order], s.intents[p]);
      }
    }
  }

  lemma SellClaims(s: State, s1: State, closed: bool)
    requires Selling(s, s1, closed)
    ensures ClaimsOk(s1)
  {
    hide Live, Pending, Known, TargetSum, Listed, FilledQty, TargetsOk, CyclesOk, Midway, Alone, OrdersOk;
    SellShrinks(s, s1, closed);
    SellCovers(s, s1, closed);
    MidwayOrders(s, s1, closed);
    MidwayLive(s, s1, closed);
    forall k | k in s1.b.claims
      ensures ClaimOk(s1, k)
    {
      assert ClaimOk(s, k);
      assert forall p :: p in s.intents ==> SameOrder(s1.intents[p], s.intents[p]);
    }
  }

  lemma SellTargets(s: State, s1: State, closed: bool)
    requires Selling(s, s1, closed)
    ensures s1.b.cursor <= |s1.journal| && TargetsOk(s1)
  {
    hide Live, Pending, TargetSum, Listed, FilledQty, CyclesOk, OrdersOk, ClaimsOk, Alone, Known, Midway, OrderOk;
    MidwayOrders(s, s1, closed);
    SellShrinks(s, s1, closed);
    SellCovers(s, s1, closed);
    forall k | k in s1.b.targets
      ensures TargetOk(s1, k)
    {
      assert TargetOk(s, k);
      MidwayTargets(s, s1, closed, k);
    }
  }

  // ------------------------------------------------------------ projecting anything else

  lemma OtherKeeps(s: State, s1: State, closed: bool)
    requires Core(s) && s.b.cursor < |s.journal| && Midway(s, s1, closed) && !Upcoming(s).Filled?
    ensures Core(s1)
  {
    hide Live, Pending, TargetSum, Listed, FilledQty, Known;
    MidwayOrders(s, s1, closed);
    MidwayLive(s, s1, closed);
    MidwayAlone(s, s1, closed);
    assert s1.b == s.b.(cursor := s1.b.cursor);
    forall p | Live(s1, p)
      ensures OrderOk(s1, p)
    {
      assert OrderOk(s, p);
      assert SameOrder(s1.intents[p], s.intents[p]);
      MidwayLeft(s, s1, closed, p);
    }
    forall k | k in s1.b.claims
      ensures ClaimOk(s1, k)
    {
      assert ClaimOk(s, k);
    }
    forall k | k in s1.b.targets
      ensures TargetOk(s1, k)
    {
      assert TargetOk(s, k);
      MidwayTargets(s, s1, closed, k);
    }
    forall x | x in s1.b.cycles
      ensures CycleOk(s1.b, x)
    {
      assert CycleOk(s.b, x);
    }
  }

  lemma MidwayKeeps(s: State, s1: State, closed: bool)
    requires Core(s) && Midway(s, s1, closed)
    ensures Core(s1)
  {
    hide Midway, Core;
    MidwayBasics(s, s1, closed);
    if !Upcoming(s).Filled? {
      OtherKeeps(s, s1, closed);
    } else if Upcoming(s).fill.side == Buy {
      BuyCycles(s, s1, closed);
      BuyOrders(s, s1, closed);
      BuyClaims(s, s1, closed);
      BuyTargets(s, s1, closed);
      MakeCore(s1);
    } else {
      SellCycles(s, s1, closed);
      SellOrders(s, s1, closed);
      SellClaims(s, s1, closed);
      SellTargets(s, s1, closed);
      MakeCore(s1);
    }
  }

  lemma MidwayBasics(s: State, s1: State, closed: bool)
    requires Core(s) && Midway(s, s1, closed)
    ensures s.b.cursor < |s.journal| && s1.b.cursor <= |s1.journal| && Journaled(s1) && Alone(s1)
  {
    hide Live, Pending, FilledQty, OrdersOk, ClaimsOk, CyclesOk, TargetsOk, Alone;
    MidwayOrders(s, s1, closed);
    MidwayAlone(s, s1, closed);
  }

  lemma MakeCore(s: State)
    requires Journaled(s) && s.b.cursor <= |s.journal| && Alone(s)
    requires TargetsOk(s) && CyclesOk(s.b) && OrdersOk(s) && ClaimsOk(s)
    ensures Core(s)
  {
  }

  // ------------------------------------------------------------ finishing an order without an event

  lemma FinishedLive(s: State, o: Id)
    requires o in s.intents
    ensures forall p :: Live(Finished(s, o), p) ==> Live(s, p)
    ensures forall p :: p in s.intents ==> SameOrder(Finished(s, o).intents[p], s.intents[p])
  {
    forall p
      ensures Pending(Finished(s, o), p) <==> Pending(s, p)
    {
    }
  }

  /** Marking an order finished keeps everything but the empty cycle it may leave behind. */
  lemma FinishKeeps(s: State, o: Id)
    requires Core(s) && o in s.intents
    ensures Core(Finished(s, o))
  {
    hide Live, Pending, TargetSum, Listed, FilledQty, Known;
    var t := Finished(s, o);
    FinishedLive(s, o);
    forall p | Live(t, p)
      ensures OrderOk(t, p)
    {
      assert OrderOk(s, p);
    }
    forall k | k in t.b.claims
      ensures ClaimOk(t, k)
    {
      assert ClaimOk(s, k);
    }
    forall k | k in t.b.targets
      ensures TargetOk(t, k)
    {
      assert TargetOk(s, k);
    }
  }

  // ------------------------------------------------------------ releasing a finished cycle

  lemma NobodySelling(s: State, event: Id)
    requires Core(s) && event in s.b.cycles && s.b.cycles[event].quantity == 0 && !Active(s.intents, event)
    ensures forall p :: Live(s, p) && s.intents[p].token.event == event ==> s.intents[p].side == Buy
  {
    hide TargetSum, Listed, ClaimsOk, FilledQty, TargetsOk, CyclesOk, Alone, Known, Exempt, Left;
    forall p | Live(s, p) && s.intents[p].token.event == event && s.intents[p].side == Sell
      ensures false
    {
      assert OrderOk(s, p);
      var k :| s.b.cursor <= k < |s.journal| && s.journal[k].Filled? && s.journal[k].fill.order == p;
      PendingWithin(s, k);
    }
  }

  lemma ReleaseKeeps(s: State, event: Id)
    requires Core(s) && forall x :: x != event ==> Kept(s, x)
    ensures Inv(s.(b := Released(s.b, event, Active(s.intents, event))))
  {
    hide Live, Pending, TargetSum, Listed, FilledQty, Known, Active;
    var b := Released(s.b, event, Active(s.intents, event));
    var s' := s.(b := b);
    if event !in s.b.cycles || s.b.cycles[event].quantity != 0 || Active(s.intents, event) {
      assert s' == s;
      assert Kept(s', event);
    } else {
      SameLive(s, b);
      NobodySelling(s, event);
      ClearedOnlyTaken(s.b.targets, event);
      forall x | x in b.cycles
        ensures CycleOk(b, x)
      {
        assert CycleOk(s.b, x);
        TakenElsewhere(s.b.targets, b.targets, event, x);
      }
      forall p | Live(s', p)
        ensures OrderOk(s', p)
      {
        assert OrderOk(s, p);
        if s.intents[p].token.event != event {
          TakenElsewhere(s.b.targets, b.targets, event, s.intents[p].token.event);
        }
      }
      forall k | k in b.targets
        ensures TargetOk(s', k)
      {
        assert TargetOk(s, k);
      }
      forall k | k in b.claims
        ensures ClaimOk(s', k)
      {
        assert ClaimOk(s, k);
      }
      forall x
        ensures Kept(s', x)
      {
        assert x != event ==> Kept(s, x);
      }
      assert TargetsOk(s') && CyclesOk(b) && ClaimsOk(s');
    }
  }
}
