/** The runtime's projections are steps of the ledger's runs. */
module RuntimeRefinement {
  import opened Arith
  import opened Ledger
  import opened LedgerRuns
  import opened LedgerTheorems
  import opened MapSum
  import opened RuntimeProjection

  function Deliveries(js: seq<Event>, first: nat, last: nat, finished: set<Id>): seq<Action>
    requires first <= last <= |js|
    decreases last
  {
    if first == last then []
    else Deliveries(js, first, last - 1, finished) + [Deliver(js[last - 1].Order() in finished)]
  }

  lemma {:induction false} ReachesThen(s: State, actions: seq<Action>, t: State, a: Action)
    requires Reaches(s, actions, t) && Enabled(t, a)
    ensures Reaches(s, actions + [a], Next(t, a))
    decreases |actions|
  {
    if actions == [] {
      assert Reaches(Next(s, a), [], Next(s, a));
      assert ([a])[1..] == [];
    } else {
      ReachesThen(Next(s, actions[0]), actions[1..], t, a);
      assert (actions + [a])[1..] == actions[1..] + [a];
    }
  }

  /** From a reachable state a replay over any stretch of the journal succeeds: nothing
      but the store can stop a recovery. What it leaves is what the ledger's run of
      deliveries leaves, so every property of those runs holds of the runtime. */
  lemma {:induction false} ReplayIsARun(s: State, last: nat, finished: set<Id>)
    requires Inv(s) && s.b.cursor <= last <= |s.journal|
    ensures var r := Replay(s.b, s.intents, s.journal, s.b.cursor, last, finished);
            && r.Ok? && r.value.0.cursor == last
            && var t := s.(b := r.value.0, intents := r.value.1);
               Inv(t) && Reaches(s, Deliveries(s.journal, s.b.cursor, last, finished), t)
    decreases last
  {
    hide Inv, Project;
    if last != s.b.cursor {
      ReplayIsARun(s, last - 1, finished);
      var r := Replay(s.b, s.intents, s.journal, s.b.cursor, last - 1, finished).value;
      var mid := s.(b := r.0, intents := r.1);
      var closed := s.journal[last - 1].Order() in finished;
      ProjectOk(mid, closed);
      DeliverKeeps(mid, closed);
      ReachesThen(s, Deliveries(s.journal, s.b.cursor, last - 1, finished), mid, Deliver(closed));
    }
  }

  lemma ProjectOk(s: State, closed: bool)
    requires Inv(s) && s.b.cursor < |s.journal|
    ensures Project(s.b, s.intents, s.journal[s.b.cursor], s.b.cursor + 1, closed).Ok?
  {
    hide Core, ApplyEvent;
    NextApplies(s, closed);
  }

  // ------------------------------------------------------------ whole lives of the program

  /** What can happen to the program. `calls` is how many calls the store answers before
      one raises. */
  datatype Happening =
    | Delivery(event: Event, finished: set<Id>, calls: nat)
    | Submission(order: Id, intent: Intent, first: Id, calls: nat)
    | Glance(id: Id, bid: Option<int>, seen: string, now: int, ready: bool, calls: nat)
    | Resolution(token: Token, amount: int, calls: nat)
    | Closing(order: Id, calls: nat)
    | Preferences(budget: int)
    | Death
    | Recovery(finished: set<Id>, calls: nat)

  /** The committed rows as a state of the ledger's runs. */
  function StoredState(rt: Runtime, budget: int, initial: int): State
    reads rt
  {
    State(rt.rows.b, rt.rows.intents, rt.rows.journal, budget, initial)
  }

  function Recorded(s: State, t: State, e: Event): seq<Action> {
    if t.journal == s.journal then [] else [Record(e)]
  }

  /** The steps a happening takes: those it stands for whenever the program's checks admit
      it and the store answers, the projection of what became pending, or nothing. */
  ghost predicate Answers(s: State, h: Happening, actions: seq<Action>, t: State)
    requires s.b.cursor <= t.b.cursor <= |t.journal|
  {
    match h
    case Delivery(e, finished, calls) =>
      && actions == Recorded(s, t, e) + Deliveries(t.journal, s.b.cursor, t.b.cursor, finished)
      && (Unseen(s, e) && MayRecord(s, e) && calls > 0 ==> t.journal == s.journal + [e])
    case Submission(o, i, first, calls) =>
      if MaySubmit(s, o, i) && calls > 0 then actions == [Submit(o, i)] + Recorded(s, t, Noted(o, first))
      else actions == []
    case Glance(id, bid, seen, now, ready, calls) =>
      var a := Observe(id, bid, seen, now, ready);
      (actions == [] || actions == [a]) && (Enabled(s, a) && calls >= 3 ==> actions == [a])
    case Resolution(token, amount, calls) =>
      var a := Identify(token, amount);
      (actions == [] || actions == [a]) && (Enabled(s, a) && calls >= 3 ==> actions == [a])
    case Closing(o, calls) =>
      (actions == [] || actions == [Retire(o)]) && (o in s.intents && calls >= 4 ==> actions == [Retire(o)])
    case Preferences(budget) => actions == [Configure(budget)]
    case Death => actions == []
    case Recovery(finished, _) => actions == Deliveries(t.journal, s.b.cursor, t.b.cursor, finished)
  }

  predicate Unseen(s: State, e: Event) {
    e.Order() in s.intents && Find(s.journal, e) == |s.journal|
  }

  lemma OneStep(s: State, a: Action)
    requires Enabled(s, a)
    ensures Reaches(s, [a], Next(s, a))
  {
    assert [a][1..] == [];
    assert Reaches(Next(s, a), [], Next(s, a));
  }

  lemma {:induction false} ReachesOn(s: State, first: seq<Action>, t: State, second: seq<Action>, u: State)
    requires Reaches(s, first, t) && Reaches(t, second, u)
    ensures Reaches(s, first + second, u)
    decreases |first|
  {
    if first == [] {
      assert first + second == second;
    } else {
      ReachesOn(Next(s, first[0]), first[1..], t, second, u);
      assert (first + second)[1..] == first[1..] + second;
    }
  }

  /** Nothing journaled or projected is ever taken back. */
  lemma {:induction false} RunsGrow(s: State, actions: seq<Action>, t: State)
    requires Reaches(s, actions, t)
    ensures s.journal <= t.journal && s.b.cursor <= t.b.cursor
    decreases |actions|
  {
    hide Enabled, Next;
    if actions != [] {
      StepGrows(s, actions[0]);
      RunsGrow(Next(s, actions[0]), actions[1..], t);
    }
  }

  lemma StepGrows(s: State, a: Action)
    requires Enabled(s, a)
    ensures s.journal <= Next(s, a).journal && s.b.cursor <= Next(s, a).b.cursor
  {
    hide MaySubmit, MayRecord, MayIdentify, ApplyFill, Active;
  }

  method ListedNow(targets: Targets, ids: seq<TargetId>, event: Id) returns (n: int)
    ensures n == Listed(targets, ids, event)
  {
    var todo := Sizes(targets, set k | k in Of(targets, event) && k in ids);
    ghost var whole := Sum(todo);
    n := 0;
    while todo != map[]
      invariant n + Sum(todo) == whole
      decreases |todo|
    {
      var k :| k in todo;
      SumWithout(todo, k);
      n, todo := n + todo[k], todo - {k};
    }
  }

  method Admits(s: State, o: Id, i: Intent) returns (ok: bool)
    ensures ok == MaySubmit(s, o, i)
  {
    hide MayOffer;
    var listed := ListedNow(s.b.targets, i.targets, i.token.event);
    ok := MayOffer(s, o, i, listed);
  }

  /** The replay that a delivery or a recovery did is a run of deliveries. */
  lemma Replayed(s: State, r: State, finished: set<Id>)
    requires Inv(s) && s.b.cursor <= r.b.cursor <= |s.journal|
    requires Replay(s.b, s.intents, s.journal, s.b.cursor, r.b.cursor, finished) == Ok((r.b, r.intents))
    requires r == s.(b := r.b, intents := r.intents)
    ensures Reaches(s, Deliveries(s.journal, s.b.cursor, r.b.cursor, finished), r)
  {
    hide Inv, Reaches, Replay;
    ReplayIsARun(s, r.b.cursor, finished);
  }

  /** A delivered event: journaled, if it is ours and new, and whatever is pending projected. */
  method TakeIn(rt: Runtime, e: Event, finished: set<Id>, calls: nat, budget: int, initial: int)
    returns (ghost actions: seq<Action>)
    requires rt.Valid() && Inv(StoredState(rt, budget, initial))
    requires Unseen(StoredState(rt, budget, initial), e) ==> MayRecord(StoredState(rt, budget, initial), e)
    modifies rt
    ensures rt.Valid() && old(rt.cursor) <= rt.cursor <= |rt.rows.journal|
    ensures Reaches(old(StoredState(rt, budget, initial)), actions, StoredState(rt, budget, initial))
    ensures Answers(old(StoredState(rt, budget, initial)), Delivery(e, finished, calls), actions,
                    StoredState(rt, budget, initial))
  {
    hide Inv, Reaches, Replay, Find, MayRecord, Once, Homes;
    ghost var s := StoredState(rt, budget, initial);
    rt.fuse := calls;
    var _ := rt.OnNative(e, finished);
    ghost var t := StoredState(rt, budget, initial);
    ghost var mid := s.(journal := t.journal);
    if t.journal != s.journal {
      OneStep(s, Record(e));
      StepKeeps(s, Record(e));
      assert Next(s, Record(e)) == mid;
    } else {
      StaysPut(s);
      assert mid == s;
    }
    Replayed(mid, t, finished);
    ReachesOn(s, Recorded(s, t, e), mid, Deliveries(t.journal, s.b.cursor, t.b.cursor, finished), t);
    actions := Recorded(s, t, e) + Deliveries(t.journal, s.b.cursor, t.b.cursor, finished);
  }

  lemma StaysPut(s: State)
    ensures Reaches(s, [], s)
  {
  }

  method Offer(rt: Runtime, o: Id, i: Intent, first: Id, calls: nat, budget: int, initial: int)
    returns (ghost actions: seq<Action>)
    requires rt.Valid() && Inv(StoredState(rt, budget, initial)) && MaySubmit(StoredState(rt, budget, initial), o, i)
    modifies rt
    ensures rt.Valid() && old(rt.cursor) <= rt.cursor <= |rt.rows.journal|
    ensures Reaches(old(StoredState(rt, budget, initial)), actions, StoredState(rt, budget, initial))
    ensures Answers(old(StoredState(rt, budget, initial)), Submission(o, i, first, calls), actions,
                    StoredState(rt, budget, initial))
  {
    hide Inv, Reaches, Find, Homes, Once;
    ghost var s := StoredState(rt, budget, initial);
    rt.fuse := calls;
    var _ := rt.Submit(o, i, Noted(o, first));
    ghost var t := StoredState(rt, budget, initial);
    if calls == 0 {
      StaysPut(s);
      actions := [];
    } else {
      ghost var mid := Next(s, Submit(o, i));
      OneStep(s, Submit(o, i));
      if t.journal == s.journal {
        StaysPut(mid);
      } else {
        OneStep(mid, Record(Noted(o, first)));
      }
      ReachesOn(s, [Submit(o, i)], mid, Recorded(s, t, Noted(o, first)), t);
      actions := [Submit(o, i)] + Recorded(s, t, Noted(o, first));
    }
  }

  /** A step of one action, or none when the store failed and the program starts again
      from its rows. */
  ghost predicate OneOrNone(s: State, a: Action, actions: seq<Action>, t: State) {
    if actions == [] then t == s else actions == [a] && Enabled(s, a) && t == Next(s, a)
  }

  lemma OneOrNoneReaches(s: State, a: Action, actions: seq<Action>, t: State)
    requires OneOrNone(s, a, actions, t)
    ensures Reaches(s, actions, t)
  {
    if actions == [] {
      StaysPut(s);
    } else {
      OneStep(s, a);
    }
  }

  method Look(rt: Runtime, a: Action, calls: nat, budget: int, initial: int) returns (ghost actions: seq<Action>)
    requires rt.Valid() && a.Observe? && Enabled(StoredState(rt, budget, initial), a)
    modifies rt
    ensures rt.Valid() && OneOrNone(old(StoredState(rt, budget, initial)), a, actions, StoredState(rt, budget, initial))
    ensures calls >= 3 ==> actions == [a]
  {
    hide Durable, Observed;
    rt.fuse := calls;
    var ok := rt.Look(a.id, a.bid, a.seen, a.now, a.ready);
    actions := if ok then [a] else [];
    if !ok {
      rt.Restart();
    }
  }

  method Resolve(rt: Runtime, t: Token, amount: int, calls: nat, budget: int, initial: int)
    returns (ghost actions: seq<Action>)
    requires rt.Valid() && MayIdentify(StoredState(rt, budget, initial), t)
    modifies rt
    ensures rt.Valid()
    ensures OneOrNone(old(StoredState(rt, budget, initial)), Identify(t, amount), actions, StoredState(rt, budget, initial))
    ensures calls >= 3 ==> actions == [Identify(t, amount)]
  {
    hide Durable, Identified, Active, Caught;
    rt.fuse := calls;
    var ok := rt.Identify(t, amount);
    actions := if ok then [Identify(t, amount)] else [];
  }

  method Close(rt: Runtime, o: Id, calls: nat, budget: int, initial: int) returns (ghost actions: seq<Action>)
    requires rt.Valid() && o in rt.rows.intents
    modifies rt
    ensures rt.Valid()
    ensures OneOrNone(old(StoredState(rt, budget, initial)), Retire(o), actions, StoredState(rt, budget, initial))
    ensures calls >= 4 ==> actions == [Retire(o)]
  {
    hide Durable, Active, Released;
    rt.fuse := calls;
    var ok := rt.Retire(o);
    actions := if ok then [Retire(o)] else [];
    if !ok {
      rt.Restart();
    }
  }

  method Recover(rt: Runtime, finished: set<Id>, calls: nat, budget: int, initial: int)
    returns (ghost actions: seq<Action>)
    requires rt.Valid() && Inv(StoredState(rt, budget, initial))
    modifies rt
    ensures rt.Valid() && old(rt.cursor) <= rt.cursor <= |rt.rows.journal| && rt.rows.journal == old(rt.rows).journal
    ensures Reaches(old(StoredState(rt, budget, initial)), actions, StoredState(rt, budget, initial))
    ensures actions == Deliveries(rt.rows.journal, old(rt.cursor), rt.cursor, finished)
  {
    hide Inv, Reaches, Replay, Once, Homes;
    ghost var s := StoredState(rt, budget, initial);
    rt.fuse := calls;
    var _ := rt.Recover(finished);
    Replayed(s, StoredState(rt, budget, initial), finished);
    actions := Deliveries(s.journal, s.b.cursor, rt.cursor, finished);
  }

  /** One happening. What the program's checks or the venue's terms exclude does nothing. */
  method Happen(rt: Runtime, h: Happening, budget: int, initial: int) returns (ghost actions: seq<Action>, next: int)
    requires rt.Valid() && Inv(StoredState(rt, budget, initial))
    modifies rt
    ensures rt.Valid() && old(rt.cursor) <= rt.cursor <= |rt.rows.journal|
    ensures Reaches(old(StoredState(rt, budget, initial)), actions, StoredState(rt, next, initial))
    ensures Answers(old(StoredState(rt, budget, initial)), h, actions, StoredState(rt, next, initial))
    ensures next == if h.Preferences? then h.budget else budget
  {
    hide Inv, Reaches, MayRecord, MayIdentify, MaySubmit, Observed, Identified, Released, Active, Durable;
    var s := StoredState(rt, budget, initial);
    Cursor(rt);
    StaysPut(s);
    actions, next := [], budget;
    match h {
      case Delivery(e, finished, calls) =>
        if !Unseen(s, e) || MayRecord(s, e) {
          actions := TakeIn(rt, e, finished, calls, budget, initial);
        } else {
          NoDeliveries(s, finished);
        }
      case Submission(o, i, first, calls) =>
        var admitted := Admits(s, o, i);
        if admitted {
          actions := Offer(rt, o, i, first, calls, budget, initial);
        }
      case Glance(id, bid, seen, now, ready, calls) =>
        var a := Observe(id, bid, seen, now, ready);
        if id in s.b.cycles && s.b.cycles[id].token.condition !in s.b.settled {
          actions := Look(rt, a, calls, budget, initial);
          OneOrNoneReaches(s, a, actions, StoredState(rt, budget, initial));
        }
      case Resolution(token, amount, calls) =>
        if MayIdentify(s, token) {
          actions := Resolve(rt, token, amount, calls, budget, initial);
          OneOrNoneReaches(s, Identify(token, amount), actions, StoredState(rt, budget, initial));
        }
      case Closing(o, calls) =>
        if o in rt.rows.intents {
          actions := Close(rt, o, calls, budget, initial);
          OneOrNoneReaches(s, Retire(o), actions, StoredState(rt, budget, initial));
        }
      case Preferences(limit) =>
        actions, next := [Configure(limit)], limit;
        OneStep(s, Configure(limit));
      case Death => rt.Restart();
      case Recovery(finished, calls) =>
        actions := Recover(rt, finished, calls, budget, initial);
    }
    RunsGrow(s, actions, StoredState(rt, next, initial));
    Cursor(rt);
  }

  lemma Cursor(rt: Runtime)
    requires rt.Valid()
    ensures rt.cursor == rt.rows.b.cursor <= |rt.rows.journal|
  {
  }

  lemma NoDeliveries(s: State, finished: set<Id>)
    requires s.b.cursor <= |s.journal|
    ensures Deliveries(s.journal, s.b.cursor, s.b.cursor, finished) == []
  {
  }

  /** The program refines the ledger: over every run of submissions, deliveries (repeated
      and refused ones too), looks, settlements, closings, changed preferences, failures at
      any store call, deaths and recoveries, its committed rows are a run of the ledger, so
      every property of those runs holds of them. The journal only grows and holds each
      event once, and the projected events are always its start. */
  method Happens(rt: Runtime, run: seq<Happening>, budget: int, initial: int)
    returns (ghost actions: seq<Action>, last: int)
    requires rt.Valid() && Inv(StoredState(rt, budget, initial))
    modifies rt
    ensures rt.Valid() && rt.projected == rt.rows.journal[..rt.cursor] && Once(rt.rows.journal)
    ensures Reaches(old(StoredState(rt, budget, initial)), actions, StoredState(rt, last, initial))
    ensures Inv(StoredState(rt, last, initial))
    ensures old(rt.rows).journal <= rt.rows.journal && old(rt.projected) <= rt.projected
    decreases |run|
  {
    hide Inv, Reaches, Answers, Homes, Once;
    ghost var s := StoredState(rt, budget, initial);
    ghost var start := rt.projected;
    if run == [] {
      StaysPut(s);
      actions, last := [], budget;
    } else {
      ghost var first, rest;
      var next;
      first, next := Happen(rt, run[0], budget, initial);
      ghost var mid := StoredState(rt, next, initial);
      RunKeeps(s, first, mid);
      rest, last := Happens(rt, run[1..], next, initial);
      actions := first + rest;
      ReachesOn(s, first, mid, rest, StoredState(rt, last, initial));
      RunsGrow(s, actions, StoredState(rt, last, initial));
    }
  }

  /** A program started on empty rows only ever commits what the ledger can reach. */
  method Lives(test: bool, run: seq<Happening>, budget: int, initial: int)
    returns (rt: Runtime, ghost actions: seq<Action>, last: int)
    ensures rt.Valid() && Reaches(Start(initial, budget), actions, StoredState(rt, last, initial))
  {
    hide Inv, Reaches;
    rt := new Runtime(test);
    StartInv(initial, budget);
    actions, last := Happens(rt, run, budget, initial);
  }
}
