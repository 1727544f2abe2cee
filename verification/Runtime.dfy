/** The projection as the program runs it: in-memory maps changed one statement at a time
    inside a store transaction that can fail at any call, with the undo that follows, and
    the replay after a crash. */
module RuntimeProjection {
  import opened Arith
  import opened Ledger
  import opened StopLossRules
  import Books
  import LedgerRuns

  datatype Depth = Depth(bid: Books.Shadow, ask: Books.Shadow)

  const NoDepth := Depth(Books.Shadow(map[], map[]), Books.Shadow(map[], map[]))

  /** What is durable: the business rows, the intents, the journal and the shadow books. */
  datatype Rows = Rows(b: Business, intents: Intents, journal: seq<Event>, books: map<Id, Depth>)

  function ReloadedDepth(d: Depth): Depth { Depth(Books.Reloaded(d.bid), Books.Reloaded(d.ask)) }

  /** A book that is not in memory is the one its row gives back. */
  function DepthOf(books: map<Id, Depth>, rows: map<Id, Depth>, token: Id): Depth {
    if token in books then books[token] else if token in rows then ReloadedDepth(rows[token]) else NoDepth
  }

  /** A book restored from its row has the row's sizes and consumption at every price. */
  lemma RestoredBook(books: map<Id, Depth>, rows: map<Id, Depth>, token: Id)
    requires token !in books && token in rows && rows[token].bid.Sound() && rows[token].ask.Sound()
    ensures var was, now := rows[token], DepthOf(books, rows, token);
            && now.bid.external == was.bid.external && now.ask.external == was.ask.external
            && forall p :: Books.At(now.bid.consumed, p) == Books.At(was.bid.consumed, p)
                           && Books.At(now.ask.consumed, p) == Books.At(was.ask.consumed, p)
  {
    Books.ReloadedAt(rows[token].bid);
    Books.ReloadedAt(rows[token].ask);
  }

  function SideOf(d: Depth, side: Side): Books.Shadow { if side == Buy then d.ask else d.bid }

  predicate Fits(d: Depth, f: Fill) { 0 <= f.gross <= SideOf(d, f.side).Free(f.price) }

  function Taken(d: Depth, f: Fill): Depth {
    if f.side == Buy then d.(ask := Books.Consumed(d.ask, f.price, f.gross))
    else d.(bid := Books.Consumed(d.bid, f.price, f.gross))
  }

  /** Out of this side's free depth, at the fill's price and nowhere else. */
  ghost predicate TookAt(was: Books.Shadow, now: Books.Shadow, f: Fill) {
    && now.external == was.external
    && 0 <= f.gross <= Books.At(was.external, f.price) - Books.At(was.consumed, f.price)
    && Books.At(now.consumed, f.price) == Books.At(was.consumed, f.price) + f.gross
    && forall p :: p != f.price ==> Books.At(now.consumed, p) == Books.At(was.consumed, p)
  }

  /** A buy takes from the asks and a sale from the bids; the other side stays. */
  ghost predicate OutOfDepth(was: Depth, now: Depth, f: Fill) {
    if f.side == Buy then now.bid == was.bid && TookAt(was.ask, now.ask, f)
    else now.ask == was.ask && TookAt(was.bid, now.bid, f)
  }

  lemma TakenIs(d: Depth, f: Fill)
    requires Fits(d, f)
    ensures OutOfDepth(d, Taken(d, f), f)
  {
  }

  // ------------------------------------------------------------ what one Event's projection may touch

  /** Everything outside one Event's cycle and targets, one claim, the scalars and the
      end of the banned list is as it was. */
  ghost predicate OnlyTouched(was: Business, now: Business, event: Id, condition: Id) {
    && (forall x :: x != event ==> (x in was.cycles <==> x in now.cycles))
    && (forall x :: x != event && x in was.cycles ==> now.cycles[x] == was.cycles[x])
    && WithoutEvent(now.targets, event) == WithoutEvent(was.targets, event)
    && (forall x :: x != condition ==> (x in was.claims <==> x in now.claims))
    && (forall x :: x != condition && x in was.claims ==> now.claims[x] == was.claims[x])
    && was.settled == now.settled
    && was.banned <= now.banned
  }

  lemma TouchedOnward(a: Business, b: Business, c: Business, event: Id, condition: Id)
    requires OnlyTouched(a, b, event, condition) && OnlyTouched(b, c, event, condition)
    ensures OnlyTouched(a, c, event, condition)
  {
  }

  function OwnTargets(targets: Targets, event: Id): Targets {
    map k | k in targets && targets[k].event == event :: targets[k]
  }

  /** The rows after only one Event's cycle and targets, one claim and the scalars are saved. */
  function EventSaved(rows: Business, now: Business, event: Id, condition: Id): Business {
    now.(cycles := if event in now.cycles then rows.cycles[event := now.cycles[event]] else rows.cycles - {event},
         targets := WithoutEvent(rows.targets, event) + OwnTargets(now.targets, event),
         claims := if condition in now.claims then rows.claims[condition := now.claims[condition]]
                   else rows.claims - {condition},
         settled := rows.settled)
  }

  lemma SplitTargets(targets: Targets, event: Id)
    ensures WithoutEvent(targets, event) + OwnTargets(targets, event) == targets
  {
  }

  /** Saving one Event saves everything, when nothing else was touched. */
  lemma EventSavedIsWhole(was: Business, now: Business, event: Id, condition: Id)
    requires OnlyTouched(was, now, event, condition)
    ensures EventSaved(was, now, event, condition) == now
  {
    SplitTargets(now.targets, event);
    var saved := EventSaved(was, now, event, condition);
    assert saved.cycles == now.cycles;
    assert saved.claims == now.claims;
  }

  /** Where the journal already has an event, or its end. */
  function Find(js: seq<Event>, e: Event): (n: nat)
    ensures n <= |js|
    ensures n < |js| ==> js[n].Same(e)
    ensures forall k :: 0 <= k < n ==> !js[k].Same(e)
  {
    if js == [] then 0 else if js[0].Same(e) then 0 else 1 + Find(js[1..], e)
  }

  /** The same native fact again: a fill of the same trade of the same order, or another
      event with the same identity. */
  predicate Repeats(a: Event, b: Event) {
    || (a.Filled? && b.Filled? && a.fill.order == b.fill.order && a.fill.trade == b.fill.trade)
    || (!a.Filled? && !b.Filled? && a.id == b.id)
  }

  ghost predicate Known(js: seq<Event>, e: Event) { exists k :: 0 <= k < |js| && Repeats(js[k], e) }

  lemma FoundIfKnown(js: seq<Event>, e: Event)
    ensures Find(js, e) < |js| <==> Known(js, e)
    ensures Find(js, e) < |js| ==> Repeats(js[Find(js, e)], e)
  {
    var n := Find(js, e);
    assert forall k :: 0 <= k < |js| ==> (js[k].Same(e) <==> Repeats(js[k], e));
  }

  /** Projecting the journal from one cursor to another, in order and one by one; a fill
      closes the orders that the venue reports as finished. */
  function Replay(b: Business, intents: Intents, js: seq<Event>, first: nat, last: nat, finished: set<Id>)
    : Result<(Business, Intents)>
    requires first <= last <= |js|
    decreases last
  {
    if first == last then Ok((b, intents))
    else
      match Replay(b, intents, js, first, last - 1, finished)
      case Err(x) => Err(x)
      case Ok(r) => Ledger.Project(r.0, r.1, js[last - 1], last, js[last - 1].Order() in finished)
  }

  /** Every target's key names an order of its own Event. */
  ghost predicate Homes(targets: Targets, intents: Intents) {
    forall k :: k in targets ==> k.order in intents && intents[k.order].token.event == targets[k].event
  }

  lemma CycleTouched(was: Business, c: Cycle, breached: bool, event: Id, condition: Id)
    ensures OnlyTouched(was, was.(cycles := was.cycles[event := c], recoveryError := breached), event, condition)
  {
  }

  lemma BoughtInSteps(c: Cycle, f: Fill)
    ensures c.(spent := c.spent + f.amount, quantity := c.quantity + f.qty, cost := c.cost + f.amount,
               stop := c.stop.Add(f.price, f.gross)) == Bought(c, f)
    ensures Bought(c, f).spent == c.spent + f.amount && Bought(c, f).budget == c.budget
  {
  }

  lemma SellTouched(was: Business, now: Business, event: Id, condition: Id)
    requires event in now.cycles && now.cycles == was.cycles[event := now.cycles[event]]
    requires WithoutEvent(now.targets, event) == WithoutEvent(was.targets, event)
    requires condition in now.claims ==> now.claims == was.claims[condition := now.claims[condition]]
    requires condition !in now.claims ==> now.claims == was.claims
    requires now.settled == was.settled && now.banned == was.banned
    ensures OnlyTouched(was, now, event, condition)
  {
  }

  lemma TargetTouched(was: Business, c: Cycle, breached: bool, k: TargetId, t: Target, event: Id, condition: Id)
    requires t.event == event && (k !in was.targets || was.targets[k].event == event)
    ensures OnlyTouched(was, was.(cycles := was.cycles[event := c], recoveryError := breached,
                                  targets := was.targets[k := t]), event, condition)
  {
    assert WithoutEvent(was.targets[k := t], event) == WithoutEvent(was.targets, event);
  }

  /** The undo snapshot: one Event's cycle and targets, one claim, the scalars, the length
      of the banned list and one book. */
  datatype Snapshot = Snapshot(cycle: Option<Cycle>, targets: Targets, claim: Option<Claim>, cursor: nat, realized: int,
                               recoveryError: bool, banned: nat)

  function SnapshotOf(b: Business, event: Id, condition: Id): Snapshot {
    Snapshot(if event in b.cycles then Some(b.cycles[event]) else None, OwnTargets(b.targets, event),
             if condition in b.claims then Some(b.claims[condition]) else None, b.cursor, b.realized, b.recoveryError,
             |b.banned|)
  }

  function Restored(now: Business, p: Snapshot, event: Id, condition: Id): Business
    requires p.banned <= |now.banned|
  {
    Business(p.cursor,
             if p.cycle.None? then now.cycles - {event} else now.cycles[event := p.cycle.value],
             WithoutEvent(now.targets, event) + p.targets,
             now.banned[..p.banned],
             now.settled,
             if p.claim.None? then now.claims - {condition} else now.claims[condition := p.claim.value],
             p.realized, p.recoveryError)
  }

  /** Putting back one Event's cycle and targets, one claim and the scalars undoes
      everything a projection may have touched. */
  lemma UndoRestores(was: Business, now: Business, event: Id, condition: Id)
    requires OnlyTouched(was, now, event, condition)
    ensures SnapshotOf(was, event, condition).banned <= |now.banned|
    ensures Restored(now, SnapshotOf(was, event, condition), event, condition) == was
  {
    SplitTargets(was.targets, event);
    var back := Restored(now, SnapshotOf(was, event, condition), event, condition);
    assert back.cycles == was.cycles;
    assert back.claims == was.claims;
  }

  /** A projected event leaves every target with an order of its own Event. */
  lemma ProjectHomes(b: Business, intents: Intents, e: Event, seqno: nat, closed: bool)
    requires Homes(b.targets, intents) && e.Order() in intents && Ledger.Project(b, intents, e, seqno, closed).Ok?
    ensures var r := Ledger.Project(b, intents, e, seqno, closed).value;
            && Homes(r.0.targets, r.1) && r.0.cursor == seqno && r.1.Keys == intents.Keys
  {
    var i := intents[e.Order()];
    if e.Filled? && e.fill.side == Sell && ApplySell(b, i, e.fill).Ok? {
      TakenHomes(b.targets, i.targets, i.token.event, e.fill.qty);
    }
  }

  lemma {:induction false} TakenHomes(targets: Targets, ids: seq<TargetId>, event: Id, remain: int)
    ensures var now := TakeTargets(targets, ids, event, remain);
            forall k :: k in now ==> k in targets && now[k].event == targets[k].event
    decreases |ids|
  {
    if ids != [] {
      if ids[0] !in targets || targets[ids[0]].event != event {
        TakenHomes(targets, ids[1..], event, remain);
      } else {
        var used := Min(remain, targets[ids[0]].qty);
        var left := targets[ids[0]].qty - used;
        var next := if left == 0 then targets - {ids[0]} else targets[ids[0] := targets[ids[0]].(qty := left)];
        TakenHomes(next, ids[1..], event, remain - used);
      }
    }
  }

  lemma RetiredHomes(b: Business, intents: Intents, o: Id)
    requires Homes(b.targets, intents) && o in intents
    ensures var event, now := intents[o].token.event, intents[o := intents[o].(terminal := true)];
            var r := Released(b, event, Active(now, event));
            Homes(r.targets, now) && r.cursor == b.cursor
  {
    hide Active;
  }

  /** An event that the journal does not have yet, of an order of ours. */
  predicate New(rows: Rows, e: Event) {
    e.Order() in rows.intents && Find(rows.journal, e) == |rows.journal|
  }

  /** No event is stored twice. */
  ghost predicate Once(js: seq<Event>) {
    forall j, k :: 0 <= j < k < |js| ==> !js[j].Same(js[k])
  }

  /** The committed rows: the cursor counts exactly the projected events, which are the
      start of the journal, and the journal holds only own orders. */
  ghost predicate Durable(rows: Rows, projected: seq<Event>) {
    && rows.b.cursor <= |rows.journal| && projected == rows.journal[..rows.b.cursor]
    && Homes(rows.b.targets, rows.intents) && Once(rows.journal)
    && (forall k :: 0 <= k < |rows.journal| ==> rows.journal[k].Order() in rows.intents)
  }

  /** Rows with other business, up to the same event and with fewer targets, are as durable. */
  lemma StillDurable(rows: Rows, b: Business, projected: seq<Event>)
    requires Durable(rows, projected) && b.cursor == rows.b.cursor
    requires forall k :: k in b.targets ==> k in rows.b.targets && b.targets[k].event == rows.b.targets[k].event
    ensures Durable(rows.(b := b), projected)
  {
    hide Once;
  }

  /** Looking a book up changes what no token's depth is. */
  lemma LookingUpChangesNothing(books: map<Id, Depth>, rows: map<Id, Depth>, looked: Id, token: Id)
    ensures DepthOf(books[looked := DepthOf(books, rows, looked)], rows, token) == DepthOf(books, rows, token)
  {
  }

  lemma NothingTouched(b: Business, event: Id, condition: Id)
    ensures OnlyTouched(b, b, event, condition)
  {
  }

  lemma ScalarTouched(was: Business, b: Business, seqno: nat, event: Id, condition: Id)
    requires OnlyTouched(was, b, event, condition)
    ensures OnlyTouched(was, b.(cursor := seqno), event, condition)
  {
  }

  lemma ReleaseTouched(b: Business, event: Id, active: bool, condition: Id)
    ensures OnlyTouched(b, Released(b, event, active), event, condition)
  {
    assert WithoutEvent(WithoutEvent(b.targets, event), event) == WithoutEvent(b.targets, event);
  }

  lemma ObservedTouched(b: Business, event: Id, bid: Option<int>, seen: string, now: int, ready: bool, condition: Id)
    requires event in b.cycles
    ensures OnlyTouched(b, LedgerRuns.Observed(b, event, bid, seen, now, ready), event, condition)
  {
    hide Stop.Observe;
    assert WithoutEvent(WithoutEvent(b.targets, event), event) == WithoutEvent(b.targets, event);
  }

  lemma ObservedTargets(b: Business, event: Id, bid: Option<int>, seen: string, now: int, ready: bool)
    requires event in b.cycles
    ensures var o := LedgerRuns.Observed(b, event, bid, seen, now, ready);
            o.cursor == b.cursor && forall k :: k in o.targets ==> k in b.targets && o.targets[k].event == b.targets[k].event
  {
    hide Stop.Observe;
  }

  lemma IdentifiedTargets(b: Business, t: Token, amount: int)
    requires t.event in b.cycles
    ensures var now := LedgerRuns.Identified(b, t, amount);
            now.cursor == b.cursor && forall k :: k in now.targets ==> k in b.targets && now.targets[k].event == b.targets[k].event
  {
  }

  lemma PartLeaves(c: Cycle, qty: int)
    requires 0 <= qty < c.quantity
    ensures Share(c.cost, c.quantity, qty, c.cost * qty / c.quantity)
  {
    FloorBounds(c.cost * qty, c.quantity);
  }

  class Runtime {
    const test: bool
    // business, in memory
    var cursor: nat
    var cycles: map<Id, Cycle>
    var targets: Targets
    var banned: seq<Id>
    var settled: seq<Id>
    var claims: map<Id, Claim>
    var realized: int
    var recoveryError: bool
    var books: map<Id, Depth>
    var faulted: bool
    // the store: committed rows, the rows of an open transaction, and how many more
    // calls it answers before one raises
    var rows: Rows
    var open: Rows
    var fuse: nat
    // the events whose effects are committed, in the order they were projected
    ghost var projected: seq<Event>

    constructor (test: bool)
      ensures Valid() && rows == Rows(EmptyBusiness, map[], [], map[]) && projected == []
    {
      this.test := test;
      cursor, cycles, targets, banned, settled, claims, realized, recoveryError := 0, map[], map[], [], [], map[], 0, false;
      books, faulted, fuse, projected := map[], false, 0, [];
      rows, open := Rows(EmptyBusiness, map[], [], map[]), Rows(EmptyBusiness, map[], [], map[]);
    }

    function Mem(): Business
      reads this
    {
      Business(cursor, cycles, targets, banned, settled, claims, realized, recoveryError)
    }

    ghost predicate Valid()
      reads this
    {
      Mem() == rows.b && Durable(rows, projected)
    }

    method Call() returns (ok: bool)
      modifies this`fuse
      ensures ok == (old(fuse) > 0) && fuse == if ok then old(fuse) - 1 else 0
    {
      ok := fuse > 0;
      if ok {
        fuse := fuse - 1;
      }
    }

    /** The cycle's part of a buy; a breached budget is also noted in the store. */
    method BookBuy(f: Fill, i: Intent) returns (ok: bool)
      modifies this`cycles, this`recoveryError, this`fuse
      ensures i.token.event in cycles
      ensures Mem() == old(Mem()).(cycles := old(cycles)[i.token.event := cycles[i.token.event]],
                                   recoveryError := recoveryError)
      ensures var first := if i.token.event in old(cycles) then old(cycles)[i.token.event] else FreshCycle(i, f);
              && (ok ==> first.token == i.token && cycles[i.token.event] == Bought(first, f)
                         && recoveryError == (old(recoveryError) || Bought(first, f).spent > Bought(first, f).budget))
              && (first.token == i.token && old(fuse) > 0 ==> ok)
      ensures fuse <= old(fuse) <= fuse + 1
    {
      hide Stop.Add, FreshCycle, NewStop, Bought;
      var event := i.token.event;
      var c := if event in cycles then cycles[event] else FreshCycle(i, f);
      cycles := cycles[event := c];
      if c.token != i.token {
        return false;
      }
      BoughtInSteps(c, f);
      c := c.(spent := c.spent + f.amount, quantity := c.quantity + f.qty, cost := c.cost + f.amount);
      cycles := cycles[event := c];
      if c.spent > c.budget {
        recoveryError := true;
        ok := Call();
        if !ok {
          return;
        }
      }
      cycles := cycles[event := c.(stop := c.stop.Add(f.price, f.gross))];
      return true;
    }

    method ApplyBuy(f: Fill, i: Intent) returns (ok: bool)
      requires TargetKey(f) !in targets || targets[TargetKey(f)].event == i.token.event
      modifies this`cycles, this`targets, this`recoveryError, this`fuse
      ensures OnlyTouched(old(Mem()), Mem(), i.token.event, i.token.condition)
      ensures ok ==> Ledger.ApplyBuy(old(Mem()), i, f) == Ok(Mem())
      ensures Ledger.ApplyBuy(old(Mem()), i, f).Ok? && old(fuse) > 0 ==> ok
      ensures fuse <= old(fuse) <= fuse + 1
    {
      hide OnlyTouched, Stop.Add, FreshCycle, NewStop;
      var event := i.token.event;
      ghost var was := Mem();
      ok := BookBuy(f, i);
      CycleTouched(was, cycles[event], recoveryError, event, i.token.condition);
      if ok {
        var t := Target(event, i.token, f.rules.target, f.qty, f.at);
        TargetTouched(was, cycles[event], recoveryError, TargetKey(f), t, event, i.token.condition);
        targets := targets[TargetKey(f) := t];
      }
    }

    method ApplySell(f: Fill, i: Intent) returns (ok: bool)
      modifies this`cycles, this`targets, this`claims, this`realized
      ensures OnlyTouched(old(Mem()), Mem(), i.token.event, i.token.condition)
      ensures ok ==> Ledger.ApplySell(old(Mem()), i, f) == Ok(Mem())
      ensures ok == Ledger.ApplySell(old(Mem()), i, f).Ok?
      ensures ok ==> i.token.event in old(cycles) && i.token.event in cycles
                     && SoldOff(old(cycles)[i.token.event], cycles[i.token.event], old(realized), realized, f)
    {
      hide OnlyTouched, TakeTargets, WithoutEvent;
      var event := i.token.event;
      if event !in cycles || f.qty > cycles[event].quantity {
        NothingTouched(Mem(), event, i.token.condition);
        return false;
      }
      var c := cycles[event];
      var used := if f.qty == c.quantity then c.cost else c.cost * f.qty / c.quantity;
      ghost var was := Mem();
      cycles := cycles[event := c.(quantity := c.quantity - f.qty, cost := c.cost - used, sold := true)];
      if f.qty != c.quantity {
        PartLeaves(c, f.qty);
      }
      realized := realized + f.amount - used;
      if i.kind == Settlement {
        if i.token.condition !in claims {
          SellTouched(was, Mem(), event, i.token.condition);
          return false;
        }
        claims := claims[i.token.condition := claims[i.token.condition].(credited := Some(f.trade))];
      }
      TakeFrom(i.targets, event, f.qty);
      SellTouched(was, Mem(), event, i.token.condition);
      return true;
    }

    /** Takes a sale out of the listed targets of its Event. */
    method TakeFrom(ids: seq<TargetId>, event: Id, qty: nat)
      modifies this`targets
      ensures targets == TakeTargets(old(targets), ids, event, qty)
      ensures WithoutEvent(targets, event) == WithoutEvent(old(targets), event)
    {
      ghost var was := targets;
      var remain: int := qty;
      var k := 0;
      while k < |ids|
        invariant 0 <= k <= |ids|
        invariant TakeTargets(was, ids, event, qty) == TakeTargets(targets, ids[k..], event, remain)
        invariant WithoutEvent(targets, event) == WithoutEvent(was, event)
        invariant remain >= 0
      {
        var key := ids[k];
        assert ids[k..][1..] == ids[k + 1..];
        ghost var before := targets;
        k := k + 1;
        if key !in targets || targets[key].event != event {
          continue;
        }
        var used := Min(remain, targets[key].qty);
        targets := targets[key := targets[key].(qty := targets[key].qty - used)];
        remain := remain - used;
        if targets[key].qty == 0 {
          targets := targets - {key};
          assert targets == before - {key};
        }
        if remain == 0 {
          return;
        }
      }
    }

    /** Simulated trading takes the fill out of the shadow book and saves that book. */
    method ConsumeDepth(f: Fill, token: Id) returns (ok: bool)
      requires token in books
      modifies this`books, this`open, this`fuse
      ensures open == old(open).(books := open.books)
      ensures token in books && books == old(books)[token := books[token]]
      ensures ok ==>
                && Fits(old(books)[token], f) && OutOfDepth(old(books)[token], books[token], f)
                && books[token] == Taken(old(books)[token], f)
                && open.books == old(open).books[token := books[token]]
      ensures Fits(old(books)[token], f) && old(fuse) > 0 ==> ok
      ensures fuse <= old(fuse) <= fuse + 1
    {
      var d := books[token];
      if f.gross < 0 || f.gross > SideOf(d, f.side).Free(f.price) {
        return false;
      }
      TakenIs(d, f);
      books := books[token := Taken(d, f)];
      ok := Call();
      if ok {
        open := open.(books := open.books[token := Taken(d, f)]);
      }
    }

    predicate TakesDepth(e: Event, i: Intent) { test && e.Filled? && i.kind != Settlement }

    method ApplyFill(f: Fill, i: Intent) returns (ok: bool)
      requires TargetKey(f) !in targets || targets[TargetKey(f)].event == i.token.event
      requires i.token.id in books
      modifies this`cycles, this`targets, this`claims, this`realized, this`recoveryError, this`books, this`open, this`fuse
      ensures OnlyTouched(old(Mem()), Mem(), i.token.event, i.token.condition)
      ensures open == old(open).(books := open.books)
      ensures i.token.id in books && books == old(books)[i.token.id := books[i.token.id]]
      ensures ok ==> Ledger.ApplyFill(old(Mem()), i, f) == Ok(Mem())
      ensures ok && TakesDepth(Filled(f), i) ==>
                && Fits(old(books)[i.token.id], f)
                && books[i.token.id] == Taken(old(books)[i.token.id], f)
                && open.books == old(open).books[i.token.id := books[i.token.id]]
      ensures !TakesDepth(Filled(f), i) ==> books == old(books) && open == old(open)
      ensures (&& Ledger.ApplyFill(old(Mem()), i, f).Ok? && old(fuse) >= 2
               && (TakesDepth(Filled(f), i) ==> Fits(old(books)[i.token.id], f))) ==> ok
      ensures fuse <= old(fuse) <= fuse + 2
    {
      hide OnlyTouched, Ledger.ApplyBuy, Ledger.ApplySell, Fits, Taken;
      if f.side == Buy {
        ok := ApplyBuy(f, i);
      } else {
        ok := ApplySell(f, i);
      }
      if ok && test && i.kind != Settlement {
        ok := ConsumeDepth(f, i.token.id);
      }
    }

    /** Closes the Event's finished cycle, unless an order of it is still open. */
    method ReleaseCycle(event: Id, condition: Id)
      modifies this`cycles, this`targets, this`banned
      ensures Mem() == Released(old(Mem()), event, Active(open.intents, event))
      ensures OnlyTouched(old(Mem()), Mem(), event, condition)
    {
      hide OnlyTouched;
      ReleaseTouched(Mem(), event, Active(open.intents, event), condition);
      if event !in cycles || cycles[event].quantity != 0 {
        return;
      }
      if exists o :: o in open.intents && open.intents[o].token.event == event && !open.intents[o].terminal {
        assert Active(open.intents, event);
        return;
      }
      if cycles[event].stop.phase == Exiting && event !in banned {
        banned := banned + [event];
      }
      cycles := cycles - {event};
      targets := WithoutEvent(targets, event);
    }

    /** Opens the transaction and applies one event: its fill, its order's state and the
        cursor. */
    method ApplyEvent(seqno: nat, e: Event, closed: bool) returns (ok: bool)
      requires Valid() && e.Order() in rows.intents && rows.intents[e.Order()].token.id in books
      modifies this`cursor, this`cycles, this`targets, this`claims, this`realized, this`recoveryError,
               this`books, this`open, this`fuse
      ensures var i := rows.intents[e.Order()];
              && OnlyTouched(old(Mem()), Mem(), i.token.event, i.token.condition)
              && i.token.id in books && books == old(books)[i.token.id := books[i.token.id]]
              && (!TakesDepth(e, i) ==> books == old(books))
              && (ok && TakesDepth(e, i) ==>
                    && Fits(old(books)[i.token.id], e.fill)
                    && books[i.token.id] == Taken(old(books)[i.token.id], e.fill))
      ensures ok ==> Ledger.ApplyEvent(rows.b, rows.intents, e, seqno, closed) == Ok((Mem(), open.intents))
      ensures ok ==> open == rows.(intents := open.intents, books := open.books)
      ensures ok ==> var i := rows.intents[e.Order()];
                open.books == if TakesDepth(e, i) then rows.books[i.token.id := books[i.token.id]] else rows.books
      ensures CanApply(rows, old(books), seqno, e, closed) && old(fuse) >= 4 ==> ok
      ensures fuse <= old(fuse) <= fuse + 4
    {
      hide OnlyTouched, Ledger.ApplyFill, Fits, Taken, Advanced;
      var i := rows.intents[e.Order()];
      NothingTouched(Mem(), i.token.event, i.token.condition);
      ghost var was := Mem();
      ok := Call();
      if !ok {
        return;
      }
      open := rows;
      if e.Filled? {
        HomeKey(i, e.fill);
        ok := ApplyFill(e.fill, i);
        if !ok {
          return;
        }
      }
      ok := Call();
      if ok {
        open := open.(intents := open.intents[e.Order() := Advanced(i, e, closed)]);
        ScalarTouched(was, Mem(), seqno, i.token.event, i.token.condition);
        cursor := seqno;
      }
    }

    /** One event inside one transaction: what it applies, its Event's finished cycle and
        the save of that Event. The commit makes all of it durable. */
    method ProjectTransaction(seqno: nat, e: Event, closed: bool) returns (ok: bool)
      requires Valid() && e.Order() in rows.intents && rows.intents[e.Order()].token.id in books
      modifies this`cursor, this`cycles, this`targets, this`banned, this`claims, this`realized, this`recoveryError,
               this`books, this`open, this`rows, this`fuse
      ensures var i := old(rows).intents[e.Order()];
              && OnlyTouched(old(Mem()), Mem(), i.token.event, i.token.condition)
              && i.token.id in books && books == old(books)[i.token.id := books[i.token.id]]
      ensures !ok ==> rows == old(rows)
      ensures ok ==> Committed(old(rows), rows, old(books), books, seqno, e, closed) && Mem() == rows.b
      ensures CanApply(old(rows), old(books), seqno, e, closed) && old(fuse) >= 6 ==> ok
      ensures fuse <= old(fuse) <= fuse + 6
    {
      hide OnlyTouched, Ledger.ApplyEvent, Fits, Taken, Released, Active, EventSaved;
      var i := rows.intents[e.Order()];
      ghost var was := Mem();
      ok := ApplyEvent(seqno, e, closed);
      if !ok {
        return;
      }
      ghost var applied := Mem();
      ReleaseCycle(i.token.event, i.token.condition);
      TouchedOnward(was, applied, Mem(), i.token.event, i.token.condition);
      EventSavedIsWhole(was, Mem(), i.token.event, i.token.condition);
      ok := Call();
      if !ok {
        return;
      }
      open := open.(b := EventSaved(open.b, Mem(), i.token.event, i.token.condition));
      ok := Call();
      if ok {
        rows := open;
      }
    }

    lemma HomeKey(i: Intent, f: Fill)
      requires Valid() && f.order in rows.intents && rows.intents[f.order] == i
      ensures TargetKey(f) !in targets || targets[TargetKey(f)].event == i.token.event
    {
    }

    /** The rows and books that a committed projection leaves. */
    ghost predicate Committed(was: Rows, now: Rows, books: map<Id, Depth>, books': map<Id, Depth>, seqno: nat, e: Event,
                              closed: bool)
      requires e.Order() in was.intents
    {
      var i := was.intents[e.Order()];
      && Ledger.Project(was.b, was.intents, e, seqno, closed) == Ok((now.b, now.intents))
      && now.journal == was.journal
      && (TakesDepth(e, i) ==>
            && i.token.id in books && Fits(books[i.token.id], e.fill)
            && books' == books[i.token.id := Taken(books[i.token.id], e.fill)]
            && now.books == was.books[i.token.id := Taken(books[i.token.id], e.fill)])
      && (!TakesDepth(e, i) ==> books' == books && now.books == was.books)
    }

    /** What a committed projection took out of the books, and when. */
    lemma CommittedTakes(was: Rows, now: Rows, books: map<Id, Depth>, books': map<Id, Depth>, seqno: nat, e: Event,
                         closed: bool)
      requires e.Order() in was.intents && Committed(was, now, books, books', seqno, e, closed)
      ensures var i := was.intents[e.Order()];
              if test && e.Filled? && i.kind != Settlement then
                && i.token.id in books && i.token.id in books'
                && OutOfDepth(books[i.token.id], books'[i.token.id], e.fill)
                && now.books == was.books[i.token.id := books'[i.token.id]]
              else books' == books && now.books == was.books
    {
      hide Ledger.Project, OutOfDepth, Fits, Taken;
      var i := was.intents[e.Order()];
      if TakesDepth(e, i) {
        TakenIs(books[i.token.id], e.fill);
      }
    }

    ghost predicate CanApply(was: Rows, books: map<Id, Depth>, seqno: nat, e: Event, closed: bool)
      requires e.Order() in was.intents
    {
      var i := was.intents[e.Order()];
      && Ledger.ApplyEvent(was.b, was.intents, e, seqno, closed).Ok?
      && (TakesDepth(e, i) ==> i.token.id in books && Fits(books[i.token.id], e.fill))
    }

    /** The books in memory once a token's book has been looked up. */
    function Loaded(token: Id): map<Id, Depth>
      reads this
    {
      books[token := DepthOf(books, rows.books, token)]
    }

    method Undo(previous: Snapshot, event: Id, condition: Id, ghost was: Business)
      requires previous == SnapshotOf(was, event, condition) && OnlyTouched(was, Mem(), event, condition)
      modifies this`cursor, this`cycles, this`targets, this`banned, this`claims, this`realized, this`recoveryError
      ensures Mem() == was
    {
      hide OnlyTouched, SnapshotOf;
      UndoRestores(was, Mem(), event, condition);
      var back := Restored(Mem(), previous, event, condition);
      cycles, targets, claims, banned := back.cycles, back.targets, back.claims, back.banned;
      cursor, realized, recoveryError := back.cursor, back.realized, back.recoveryError;
    }

    /** Projects the next journaled event. When anything fails, memory is put back exactly
        as it was, nothing becomes durable, and the runtime stops projecting. */
    method Project(seqno: nat, e: Event, closed: bool) returns (ok: bool)
      requires Valid() && cursor < |rows.journal| && seqno == cursor + 1 && e == rows.journal[cursor]
      modifies this
      ensures Valid() && rows.journal == old(rows).journal
      ensures ok ==>
                && Ledger.Project(old(Mem()), old(rows).intents, e, seqno, closed) == Ok((Mem(), rows.intents))
                && cursor == old(cursor) + 1 && projected == old(projected) + [e] && faulted == old(faulted)
      ensures ok ==> Committed(old(rows), rows, old(Loaded(rows.intents[e.Order()].token.id)), books, seqno, e, closed)
      ensures ok ==>
                var token := old(rows).intents[e.Order()].token.id;
                && token in books
                && if test && e.Filled? && old(rows).intents[e.Order()].kind != Settlement then
                     && OutOfDepth(old(Loaded(rows.intents[e.Order()].token.id))[token], books[token], e.fill)
                     && rows.books == old(rows).books[token := books[token]]
                   else books == old(Loaded(rows.intents[e.Order()].token.id)) && rows.books == old(rows).books
      ensures !ok ==>
                && Mem() == old(Mem()) && rows == old(rows) && projected == old(projected) && faulted
                && books == old(Loaded(rows.intents[e.Order()].token.id))
      ensures CanApply(old(rows), old(Loaded(rows.intents[e.Order()].token.id)), seqno, e, closed) && old(fuse) >= 6 ==> ok
    {
      hide OnlyTouched, Ledger.ApplyEvent, Fits, Taken, Ledger.Project, Homes, DepthOf, SnapshotOf, CanApply, OutOfDepth;
      var i := rows.intents[e.Order()];
      var token := i.token.id;
      books := Loaded(token);
      ghost var was := Mem();
      var previous := SnapshotOf(Mem(), i.token.event, i.token.condition);
      var previousBook := books[token];
      ok := ProjectTransaction(seqno, e, closed);
      if ok {
        ProjectHomes(was, old(rows).intents, e, seqno, closed);
        CommittedTakes(old(rows), rows, old(Loaded(rows.intents[e.Order()].token.id)), books, seqno, e, closed);
        projected := projected + [e];
      } else {
        Undo(previous, i.token.event, i.token.condition, was);
        books := books[token := previousBook];
        faulted := true;
      }
    }

    /** Stores an event once: a known event keeps its place, and a failing store adds nothing. */
    method Journal(e: Event) returns (ok: bool, seqno: nat)
      requires Valid() && e.Order() in rows.intents
      modifies this`rows, this`fuse
      ensures Valid()
      ensures var n := Find(old(rows).journal, e);
              && rows == old(rows).(journal := rows.journal)
              && rows.journal == (if ok && n == |old(rows).journal| then old(rows).journal + [e] else old(rows).journal)
              && (ok ==> seqno == n + 1 && seqno <= |rows.journal|)
              && (n < |old(rows).journal| ==> ok)
      ensures Known(old(rows).journal, e) ==> ok && rows == old(rows)
      ensures !Known(old(rows).journal, e) && ok ==> rows.journal == old(rows).journal + [e]
      ensures ok ==> 0 < seqno <= |rows.journal| && Repeats(rows.journal[seqno - 1], e)
      ensures fuse <= old(fuse) && (old(fuse) > 0 ==> ok)
    {
      FoundIfKnown(rows.journal, e);
      var n := Find(rows.journal, e);
      if n < |rows.journal| {
        return true, n + 1;
      }
      ok := Call();
      seqno := n + 1;
      if ok {
        rows := rows.(journal := rows.journal + [e]);
      }
    }

    /** Projects the journal up to a position, one event after the other. */
    method ProjectUntil(seqno: nat, finished: set<Id>) returns (ok: bool)
      requires Valid() && seqno <= |rows.journal|
      modifies this
      ensures Valid() && rows.journal == old(rows).journal
      ensures old(cursor) <= cursor
      ensures Replay(old(Mem()), old(rows).intents, rows.journal, old(cursor), cursor, finished) == Ok((Mem(), rows.intents))
      ensures projected == old(projected) + rows.journal[old(cursor)..cursor]
      ensures cursor <= if old(cursor) <= seqno then seqno else old(cursor)
      ensures ok ==> seqno <= cursor && faulted == old(faulted)
      ensures !ok ==> cursor < seqno && faulted
    {
      hide Ledger.Project, Homes;
      while cursor < seqno
        invariant Valid() && rows.journal == old(rows).journal && faulted == old(faulted)
        invariant old(cursor) <= cursor
        invariant cursor <= if old(cursor) <= seqno then seqno else old(cursor)
        invariant Replay(old(Mem()), old(rows).intents, rows.journal, old(cursor), cursor, finished)
                  == Ok((Mem(), rows.intents))
        invariant projected == old(projected) + rows.journal[old(cursor)..cursor]
        decreases seqno - cursor
      {
        var e := rows.journal[cursor];
        ok := Project(cursor + 1, e, e.Order() in finished);
        if !ok {
          return;
        }
      }
      ok := true;
    }

    /** A delivered native event: somebody else's is ignored; ours is stored once, and all
        that is stored and not yet projected is projected up to it. */
    method OnNative(e: Event, finished: set<Id>) returns (ok: bool)
      requires Valid()
      modifies this
      ensures Valid() && old(rows).journal <= rows.journal <= old(rows).journal + [e]
      ensures rows.journal != old(rows).journal ==> New(old(rows), e)
      ensures New(old(rows), e) && old(fuse) > 0 ==> rows.journal == old(rows).journal + [e]
      ensures old(cursor) <= cursor
      ensures Replay(old(Mem()), old(rows).intents, rows.journal, old(cursor), cursor, finished) == Ok((Mem(), rows.intents))
      ensures projected == old(projected) + rows.journal[old(cursor)..cursor]
      ensures e.Order() !in old(rows).intents || Find(old(rows).journal, e) < old(cursor) || old(faulted) ==>
                Mem() == old(Mem()) && rows.b == old(rows).b && rows.intents == old(rows).intents && cursor == old(cursor)
      ensures ok && e.Order() in old(rows).intents && !old(faulted) ==> Find(rows.journal, e) < cursor
    {
      ok := true;
      if e.Order() !in rows.intents {
        return;
      }
      ghost var n := Find(rows.journal, e);
      var seqno;
      ok, seqno := Journal(e);
      if !ok {
        return;
      }
      FindAppended(old(rows).journal, e);
      if seqno > cursor && !faulted {
        ok := ProjectUntil(seqno, finished);
      }
    }

    /** A new order is stored before anything is sent for it, then its first event. */
    method Submit(o: Id, i: Intent, first: Event) returns (ok: bool)
      requires Valid() && o !in rows.intents && first.Order() == o
      modifies this`rows, this`fuse
      ensures Valid()
      ensures var unseen := Find(old(rows).journal, first) == |old(rows).journal|;
              && rows == old(rows).(intents := rows.intents, journal := rows.journal)
              && rows.intents == (if old(fuse) > 0 then old(rows).intents[o := i] else old(rows).intents)
              && rows.journal == (if ok && unseen then old(rows).journal + [first] else old(rows).journal)
              && (old(fuse) == 0 ==> !ok)
      ensures old(fuse) >= 2 ==> ok
    {
      hide Find;
      ok := Call();
      if ok {
        rows := rows.(intents := rows.intents[o := i]);
        var seqno;
        ok, seqno := Journal(first);
      }
    }

    /** One look at the holding's price: the observer, and when it says so the end of the
        Event's entries and targets. Memory moves first; a failing save leaves the rows. */
    method Look(event: Id, bid: Option<int>, seen: string, now: int, ready: bool) returns (ok: bool)
      requires Valid() && event in cycles && cycles[event].token.condition !in settled
      modifies this`cycles, this`targets, this`banned, this`rows, this`open, this`fuse
      ensures Mem() == LedgerRuns.Observed(old(Mem()), event, bid, seen, now, ready)
      ensures rows == if ok then old(rows).(b := Mem()) else old(rows)
      ensures ok ==> Valid()
      ensures old(fuse) >= 3 ==> ok
    {
      hide OnlyTouched, EventSaved, Durable, Stop.Observe;
      ghost var was := Mem();
      ObservedTouched(was, event, bid, seen, now, ready, cycles[event].token.condition);
      ObservedTargets(was, event, bid, seen, now, ready);
      var condition := cycles[event].token.condition;
      var before := cycles[event].stop;
      var stop := before.Observe(bid, seen, now, ready);
      cycles := cycles[event := cycles[event].(stop := stop)];
      if stop.phase == Exiting {
        if event !in banned {
          banned := banned + [event];
        }
        targets := WithoutEvent(targets, event);
      }
      ok := true;
      if stop == before && stop.phase != Exiting {
        assert cycles == was.cycles;
        return;
      }
      EventSavedIsWhole(was, Mem(), event, condition);
      StillDurable(rows, Mem(), projected);
      ok := SaveEvent(event, condition);
    }

    /** One Event's rows in a transaction of their own. */
    method SaveEvent(event: Id, condition: Id) returns (ok: bool)
      modifies this`rows, this`open, this`fuse
      ensures rows == if ok then old(rows).(b := EventSaved(old(rows).b, Mem(), event, condition)) else old(rows)
      ensures old(fuse) >= 3 ==> ok
    {
      ok := Call();
      if !ok {
        return;
      }
      open := rows;
      ok := Call();
      if !ok {
        return;
      }
      open := open.(b := EventSaved(open.b, Mem(), event, condition));
      ok := Call();
      if ok {
        rows := open;
      }
    }

    /** A resolved holding without open orders becomes a claim, once; a failing save takes
        the claim, the settled mark and the dropped targets back. */
    method Identify(t: Token, amount: int) returns (ok: bool)
      requires Valid()
      modifies this`cycles, this`targets, this`settled, this`claims, this`rows, this`open, this`fuse
      ensures Valid()
      ensures var may := t.event in old(cycles) && old(cycles)[t.event].token == t && t.condition !in old(claims)
                         && !Active(old(rows).intents, t.event);
              && rows == (if ok && may then old(rows).(b := LedgerRuns.Identified(old(rows).b, t, amount)) else old(rows))
              && (!may || old(fuse) >= 3 ==> ok)
    {
      hide Durable, LedgerRuns.Identified;
      ok := true;
      if t.event !in cycles || cycles[t.event].token != t || t.condition in claims {
        return;
      }
      if exists o :: o in rows.intents && rows.intents[o].token.event == t.event && !rows.intents[o].terminal {
        assert Active(rows.intents, t.event);
        return;
      }
      ok := SaveClaim(t, amount);
    }

    /** The claim in memory and, in one transaction, in the rows; or in neither. */
    method SaveClaim(t: Token, amount: int) returns (ok: bool)
      requires Valid() && t.event in cycles && t.condition !in claims
      modifies this`targets, this`settled, this`claims, this`rows, this`open, this`fuse
      ensures Valid()
      ensures rows == if ok then old(rows).(b := LedgerRuns.Identified(old(rows).b, t, amount)) else old(rows)
      ensures old(fuse) >= 3 ==> ok
    {
      hide Durable, LedgerRuns.Identified;
      IdentifiedTargets(rows.b, t, amount);
      StillDurable(rows, LedgerRuns.Identified(rows.b, t, amount), projected);
      ghost var was := Mem();
      var previous, count := targets, |settled|;
      ok := Call();
      if !ok {
        return;
      }
      open := rows;
      PutClaim(t, amount);
      ok := Call();
      if ok {
        open := open.(b := Mem());
        ok := Call();
      }
      if ok {
        rows := open;
      } else {
        TakeClaimBack(t, amount, previous, count, was);
      }
    }

    method PutClaim(t: Token, amount: int)
      requires t.event in cycles
      modifies this`targets, this`settled, this`claims
      ensures Mem() == LedgerRuns.Identified(old(Mem()), t, amount)
    {
      var c := cycles[t.event];
      claims := claims[t.condition := Claim(t, c.quantity, amount, c.cost, None)];
      settled := settled + [t.condition];
      targets := WithoutEvent(targets, t.event);
    }

    method TakeClaimBack(t: Token, amount: int, previous: Targets, count: nat, ghost was: Business)
      requires t.event in was.cycles && t.condition !in was.claims && previous == was.targets && count == |was.settled|
      requires Mem() == LedgerRuns.Identified(was, t, amount)
      modifies this`targets, this`settled, this`claims
      ensures Mem() == was
    {
      claims, settled, targets := claims - {t.condition}, settled[..count], previous;
      assert claims == was.claims && settled == was.settled;
    }

    /** An order that the venue's answer finished, when its native events are over: marked
        and its cycle released in one transaction, without a journaled event. Memory moves
        inside the transaction; a failing store leaves the rows. */
    method Retire(o: Id) returns (ok: bool)
      requires Valid() && o in rows.intents
      modifies this`cycles, this`targets, this`banned, this`rows, this`open, this`fuse
      ensures ok ==> Valid()
      ensures var intents := old(rows).intents[o := old(rows).intents[o].(terminal := true)];
              var event := old(rows).intents[o].token.event;
              rows == if ok then old(rows).(intents := intents, b := Released(old(rows).b, event, Active(intents, event)))
                      else old(rows)
      ensures old(fuse) >= 4 ==> ok
    {
      hide OnlyTouched, Homes, Active;
      ghost var was := Mem();
      var i := rows.intents[o];
      ok := Call();
      if !ok {
        return;
      }
      open := rows;
      ok := Call();
      if !ok {
        return;
      }
      open := open.(intents := open.intents[o := i.(terminal := true)]);
      ReleaseCycle(i.token.event, i.token.condition);
      ok := Call();
      if !ok {
        return;
      }
      open := open.(b := Mem());
      ok := Call();
      if ok {
        RetiredHomes(was, rows.intents, o);
        rows := open;
      }
    }

    /** The process dies at any point: what was only in memory, including an open
        transaction, is gone. */
    method Restart()
      requires Durable(rows, projected)
      modifies this
      ensures Valid() && rows == old(rows) && projected == old(projected) && !faulted && fuse == old(fuse)
    {
      hide Durable;
      Load(rows.b);
      books, faulted, open := map[], false, rows;
    }

    method Load(b: Business)
      modifies this`cursor, this`cycles, this`targets, this`banned, this`settled, this`claims, this`realized,
               this`recoveryError
      ensures Mem() == b
    {
      cursor, cycles, targets, banned := b.cursor, b.cycles, b.targets, b.banned;
      settled, claims, realized, recoveryError := b.settled, b.claims, b.realized, b.recoveryError;
    }

    /** Recovery projects whatever the journal has beyond the cursor. */
    method Recover(finished: set<Id>) returns (ok: bool)
      requires Valid()
      modifies this
      ensures Valid() && rows.journal == old(rows).journal
      ensures old(cursor) <= cursor
      ensures Replay(old(Mem()), old(rows).intents, rows.journal, old(cursor), cursor, finished) == Ok((Mem(), rows.intents))
      ensures ok ==> cursor == |rows.journal| && projected == rows.journal
    {
      ok := ProjectUntil(|rows.journal|, finished);
    }
  }

  lemma {:induction false} FindAppended(js: seq<Event>, e: Event)
    ensures Find(js + [e], e) == Find(js, e)
  {
    if js != [] && !js[0].Same(e) {
      assert (js + [e])[1..] == js[1..] + [e];
      FindAppended(js[1..], e);
    }
  }
}
