/** The trade history: an incremental projection of the journal that forgets old orders,
    against the unbounded replay of the whole journal. */
module History {
  import opened Arith
  import opened Ledger
  import opened MapSum

  datatype Tag = Opened | Added | Closed | PartlyClosed | Settled

  /** One order's row: what its fills add up to. */
  datatype Group = Group(first: nat, token: Token, kind: Kind, tag: Tag, qty: int, amount: int, gross: int,
                         weighted: int, pnl: int, shown: Option<int>)

  /** What is held of each token and at which cost; nothing held is not listed. */
  datatype Positions = Positions(qty: map<Token, int>, basis: map<Token, int>)

  datatype Replay = Replay(rows: map<Id, Group>, orders: seq<Id>, held: Positions, incomplete: bool)

  type Groups = map<Id, Group>

  function At(m: map<Token, int>, t: Token): int { if t in m then m[t] else 0 }

  function Used(p: Positions, t: Token, qty: int): int {
    if qty == At(p.qty, t) then At(p.basis, t) else At(p.basis, t) * qty / Max(At(p.qty, t), 1)
  }

  function Profit(p: Positions, t: Token, f: Fill): Option<int> {
    if f.side == Buy then None else Some(f.amount - Used(p, t, f.qty))
  }

  function Moved(p: Positions, t: Token, f: Fill): Positions {
    var qty := if f.side == Buy then At(p.qty, t) + f.qty else At(p.qty, t) - f.qty;
    var basis := if f.side == Buy then At(p.basis, t) + f.amount else At(p.basis, t) - Used(p, t, f.qty);
    if qty == 0 then Positions(p.qty - {t}, p.basis - {t}) else Positions(p.qty[t := qty], p.basis[t := basis])
  }

  /** What one fill does to what is held: a buy adds its shares and its cost, a sale takes
      its shares and their share of the cost and earns what it brought beyond that; no
      other token is touched. */
  ghost predicate HeldAfter(was: Positions, now: Positions, t: Token, f: Fill, profit: Option<int>) {
    var (quantity, cost) := (At(was.qty, t), At(was.basis, t));
    && (f.side == Buy && quantity + f.qty != 0 ==>
          At(now.qty, t) == quantity + f.qty && At(now.basis, t) == cost + f.amount && profit == None)
    && (f.side == Sell && f.qty <= quantity ==>
          && At(now.qty, t) == quantity - f.qty && Share(cost, quantity, f.qty, cost - At(now.basis, t))
          && profit == Some(f.amount - (cost - At(now.basis, t))))
    && (forall x: Token :: x != t ==> At(now.qty, x) == At(was.qty, x) && At(now.basis, x) == At(was.basis, x))
  }

  /** How a fill shows: a buy opens or adds, a settlement settles, and another sale closes
      the position exactly when nothing is left of it. */
  predicate ShownAs(was: Positions, now: Positions, t: Token, kind: Kind, f: Fill, tag: Tag) {
    match tag
    case Opened => f.side == Buy && At(was.qty, t) == 0
    case Added => f.side == Buy && At(was.qty, t) != 0
    case Settled => f.side == Sell && kind == Settlement
    case Closed => f.side == Sell && kind != Settlement && At(now.qty, t) == 0
    case PartlyClosed => f.side == Sell && kind != Settlement && At(now.qty, t) != 0
  }

  /** Nothing held is not listed, and what is listed has a cost. */
  ghost predicate Tidy(p: Positions) { p.qty.Keys == p.basis.Keys && forall t :: t in p.qty ==> p.qty[t] != 0 }

  /** The reference move is all of that. */
  lemma MovedIs(p: Positions, t: Token, kind: Kind, f: Fill)
    ensures HeldAfter(p, Moved(p, t, f), t, f, Profit(p, t, f))
    ensures ShownAs(p, Moved(p, t, f), t, kind, f, TagOf(p, t, kind, f))
    ensures Tidy(p) ==> Tidy(Moved(p, t, f))
  {
    if f.side == Sell && f.qty < At(p.qty, t) {
      FloorBounds(At(p.basis, t) * f.qty, At(p.qty, t));
    }
  }

  function TagOf(p: Positions, t: Token, kind: Kind, f: Fill): Tag {
    if f.side == Buy then (if At(p.qty, t) == 0 then Opened else Added)
    else if kind == Settlement then Settled
    else if f.qty == At(p.qty, t) then Closed
    else PartlyClosed
  }

  function ValueOf(profit: Option<int>): int { if profit.Some? then profit.value else 0 }

  function FirstRow(t: Token, kind: Kind, tag: Tag, f: Fill, profit: Option<int>, seqno: nat): Group {
    Group(seqno, t, kind, tag, f.qty, f.amount, f.gross, f.price * f.gross, ValueOf(profit), profit)
  }

  function Grown(g: Group, tag: Tag, f: Fill, profit: Option<int>): Group {
    g.(tag := if f.side == Sell then tag else g.tag, qty := g.qty + f.qty, amount := g.amount + f.amount,
       gross := g.gross + f.gross, weighted := g.weighted + f.price * f.gross, pnl := g.pnl + ValueOf(profit),
       shown := if profit.Some? then Some(g.pnl + ValueOf(profit)) else None)
  }

  /** The row of a fill's order after the fill. */
  function RowAfter(rows: Groups, held: Positions, i: Intent, f: Fill, seqno: nat): Group {
    var tag := TagOf(held, i.token, i.kind, f);
    var profit := Profit(held, i.token, f);
    if f.order in rows then Grown(rows[f.order], tag, f, profit)
    else FirstRow(i.token, i.kind, tag, f, profit, seqno)
  }

  /** What a row shows after a fill: the profit so far beside a sale and none beside a buy,
      and the mark of the latest sale, or of the order's first fill. */
  lemma RowShows(rows: Groups, held: Positions, i: Intent, f: Fill, seqno: nat)
    requires f.side == Sell ==> f.qty <= At(held.qty, i.token)
    ensures var row, now := RowAfter(rows, held, i, f, seqno), Moved(held, i.token, f);
            var left := At(held.basis, i.token) - At(now.basis, i.token);
            && row.pnl == (if f.order in rows then rows[f.order].pnl else 0) + (if f.side == Sell then f.amount - left else 0)
            && row.shown == (if f.side == Sell then Some(row.pnl) else None)
            && (f.side == Sell || f.order !in rows ==> ShownAs(held, now, i.token, i.kind, f, row.tag))
            && (f.side == Buy && f.order in rows ==> row.tag == rows[f.order].tag)
  {
    hide Moved, Used, TagOf;
    MovedIs(held, i.token, i.kind, f);
  }

  function Extended(r: Replay, e: Event, intents: Intents, seqno: nat): Replay {
    if !e.Filled? then r
    else if e.fill.order !in intents then r.(incomplete := true)
    else
      var f := e.fill;
      var i := intents[f.order];
      Replay(r.rows[f.order := RowAfter(r.rows, r.held, i, f, seqno)],
             if f.order in r.rows then r.orders else r.orders + [f.order],
             Moved(r.held, i.token, f), r.incomplete)
  }

  /** The unbounded replay of a journal: every order's row, in the order of first fills. */
  function Replayed(js: seq<Event>, intents: Intents): Replay {
    if js == [] then Replay(map[], [], Positions(map[], map[]), false)
    else Extended(Replayed(js[..|js| - 1], intents), js[|js| - 1], intents, |js|)
  }

  // ------------------------------------------------------------ what a row adds up

  datatype Measure = Shares | Cash | Gross | Weighted

  function Measured(m: Measure, f: Fill): int {
    match m
    case Shares => f.qty
    case Cash => f.amount
    case Gross => f.gross
    case Weighted => f.price * f.gross
  }

  /** A measure summed over the journaled fills of one order. */
  function Total(js: seq<Event>, o: Id, m: Measure): int {
    if js == [] then 0
    else
      var e := js[|js| - 1];
      Total(js[..|js| - 1], o, m) + if e.Filled? && e.fill.order == o then Measured(m, e.fill) else 0
  }

  /** The journal's first fill of an order stands at this place, counted from one. */
  ghost predicate FirstFill(js: seq<Event>, o: Id, place: nat) {
    && 0 < place <= |js| && js[place - 1].Filled? && js[place - 1].fill.order == o
    && forall k :: 0 <= k < place - 1 && js[k].Filled? ==> js[k].fill.order != o
  }

  lemma FirstStays(js: seq<Event>, o: Id, place: nat)
    requires js != [] && FirstFill(js[..|js| - 1], o, place)
    ensures FirstFill(js, o, place)
  {
    assert forall k :: 0 <= k < |js| - 1 ==> js[..|js| - 1][k] == js[k];
  }

  /** A row adds up exactly the fills of its order, whatever came in between. */
  ghost predicate AddsUp(g: Group, i: Intent, js: seq<Event>, o: Id) {
    && g.token == i.token && g.kind == i.kind && FirstFill(js, o, g.first)
    && g.qty == Total(js, o, Shares) && g.amount == Total(js, o, Cash)
    && g.gross == Total(js, o, Gross) && g.weighted == Total(js, o, Weighted)
  }

  predicate NoFills(js: seq<Event>, o: Id) {
    Total(js, o, Shares) == Total(js, o, Cash) == Total(js, o, Gross) == Total(js, o, Weighted) == 0
  }

  lemma {:induction false} RowsAddUp(js: seq<Event>, intents: Intents, o: Id)
    requires o in intents
    ensures var r := Replayed(js, intents);
            if o in r.rows then AddsUp(r.rows[o], intents[o], js, o) else NoFills(js, o)
  {
    hide FirstFill, Moved, TagOf, Profit, AddsUp, RowAfter, Total, NoFills;
    if js == [] {
      NothingTotal(o);
    } else {
      var prefix, e := js[..|js| - 1], js[|js| - 1];
      RowsAddUp(prefix, intents, o);
      var r := Replayed(prefix, intents);
      if e.Filled? && e.fill.order == o {
        if o !in r.rows {
          FirstHere(js, intents, o);
        }
        OwnFillAdds(js, r, intents[o], o);
      } else {
        OtherEvent(js, intents[o], o);
      }
    }
  }

  lemma NothingTotal(o: Id)
    ensures NoFills([], o)
  {
  }

  lemma OtherEvent(js: seq<Event>, i: Intent, o: Id)
    requires js != [] && !(js[|js| - 1].Filled? && js[|js| - 1].fill.order == o)
    ensures NoFills(js[..|js| - 1], o) ==> NoFills(js, o)
    ensures forall g :: AddsUp(g, i, js[..|js| - 1], o) ==> AddsUp(g, i, js, o)
  {
    hide FirstFill;
    forall g | AddsUp(g, i, js[..|js| - 1], o)
      ensures AddsUp(g, i, js, o)
    {
      FirstStays(js, o, g.first);
    }
  }

  lemma OwnFillAdds(js: seq<Event>, r: Replay, i: Intent, o: Id)
    requires js != [] && js[|js| - 1].Filled? && js[|js| - 1].fill.order == o
    requires if o in r.rows then AddsUp(r.rows[o], i, js[..|js| - 1], o)
             else FirstFill(js, o, |js|) && NoFills(js[..|js| - 1], o)
    ensures AddsUp(RowAfter(r.rows, r.held, i, js[|js| - 1].fill, |js|), i, js, o)
  {
    hide FirstFill, Moved, TagOf, Profit;
    if o in r.rows {
      FirstStays(js, o, r.rows[o].first);
    }
  }

  lemma FirstHere(js: seq<Event>, intents: Intents, o: Id)
    requires js != [] && js[|js| - 1].Filled? && js[|js| - 1].fill.order == o && o in intents
    requires o !in Replayed(js[..|js| - 1], intents).rows
    ensures FirstFill(js, o, |js|)
  {
    hide Replayed;
    var prefix := js[..|js| - 1];
    ReplayLists(prefix, intents);
    forall k | 0 <= k < |js| - 1 && js[k].Filled?
      ensures js[k].fill.order != o
    {
      assert prefix[k] == js[k];
    }
  }

  // ------------------------------------------------------------ the bounded window

  function Tail(orders: seq<Id>, capacity: nat): seq<Id> {
    if |orders| <= capacity then orders else orders[|orders| - capacity..]
  }

  function Rows(rows: Groups, orders: seq<Id>): Groups { map o | o in rows && o in orders :: rows[o] }

  datatype Window = Window(groups: Groups, orders: seq<Id>, total: nat, held: Positions, incomplete: bool)

  /** The last orders of a replay, with everything that is counted over all of it. */
  function Shown(r: Replay, capacity: nat): Window {
    var orders := Tail(r.orders, capacity);
    Window(Rows(r.rows, orders), orders, |r.orders|, r.held, r.incomplete)
  }

  ghost predicate Ordered(r: Replay) {
    && (forall j, k :: 0 <= j < k < |r.orders| ==> r.orders[j] != r.orders[k])
    && (forall o :: o in r.orders <==> o in r.rows)
  }

  lemma {:induction false} ReplayLists(js: seq<Event>, intents: Intents)
    ensures Ordered(Replayed(js, intents))
    ensures forall o :: o in Replayed(js, intents).rows <==>
              o in intents && exists k :: 0 <= k < |js| && js[k].Filled? && js[k].fill.order == o
  {
    if js != [] {
      var prefix := js[..|js| - 1];
      ReplayLists(prefix, intents);
      forall o
        ensures o in Replayed(js, intents).rows <==>
                  o in intents && exists k :: 0 <= k < |js| && js[k].Filled? && js[k].fill.order == o
      {
        if o in Replayed(prefix, intents).rows {
          var k :| 0 <= k < |prefix| && prefix[k].Filled? && prefix[k].fill.order == o;
          assert js[k] == prefix[k];
        }
        if o in intents && exists k :: 0 <= k < |js| && js[k].Filled? && js[k].fill.order == o {
          var k :| 0 <= k < |js| && js[k].Filled? && js[k].fill.order == o;
          if k < |prefix| {
            assert prefix[k] == js[k];
          }
        }
      }
    }
  }

  class RecordProjection {
    const capacity: nat
    var cursor: nat
    var groups: Groups
    var orders: seq<Id>
    var total: nat
    var qty: map<Token, int>
    var basis: map<Token, int>
    var incomplete: bool

    constructor (capacity: nat)
      ensures this.capacity == capacity && cursor == 0
      ensures State() == Shown(Replayed([], map[]), capacity)
    {
      this.capacity, cursor, groups, orders, total := capacity, 0, map[], [], 0;
      qty, basis, incomplete := map[], map[], false;
    }

    function State(): Window
      reads this
    {
      Window(groups, orders, total, Positions(qty, basis), incomplete)
    }

    /** Moves the token's position by one fill. */
    method Move(f: Fill, t: Token, kind: Kind) returns (tag: Tag, profit: Option<int>)
      modifies this`qty, this`basis
      ensures Positions(qty, basis) == Moved(old(Positions(qty, basis)), t, f)
      ensures tag == TagOf(old(Positions(qty, basis)), t, kind, f)
      ensures profit == Profit(old(Positions(qty, basis)), t, f)
      ensures Tidy(old(Positions(qty, basis))) ==> Tidy(Positions(qty, basis))
      ensures HeldAfter(old(Positions(qty, basis)), Positions(qty, basis), t, f, profit)
      ensures ShownAs(old(Positions(qty, basis)), Positions(qty, basis), t, kind, f, tag)
    {
      hide HeldAfter, ShownAs, Tidy;
      MovedIs(Positions(qty, basis), t, kind, f);
      var before := At(qty, t);
      if f.side == Buy {
        tag := if before == 0 then Opened else Added;
        profit := None;
        qty := qty[t := before + f.qty];
        basis := basis[t := At(basis, t) + f.amount];
      } else {
        tag := if kind == Settlement then Settled else if f.qty == before then Closed else PartlyClosed;
        var used := if f.qty == before then At(basis, t) else At(basis, t) * f.qty / Max(before, 1);
        profit := Some(f.amount - used);
        qty := qty[t := before - f.qty];
        basis := basis[t := At(basis, t) - used];
      }
      if qty[t] == 0 {
        qty := qty - {t};
        basis := basis - {t};
      }
    }

    /** Adds one fill; a retired one moves the position but gets no row. */
    method Apply(f: Fill, i: Intent, retired: bool, seqno: nat)
      requires 0 < capacity && |orders| <= capacity
      modifies this`groups, this`orders, this`total, this`qty, this`basis
      ensures Positions(qty, basis) == Moved(old(Positions(qty, basis)), i.token, f)
      ensures var row := RowAfter(old(groups), old(Positions(qty, basis)), i, f, seqno);
              var was := old(orders);
              if retired then groups == old(groups) && orders == was && total == old(total)
              else if f.order in old(groups) then groups == old(groups)[f.order := row] && orders == was && total == old(total)
              else
                && orders == Tail(was + [f.order], capacity) && total == old(total) + 1
                && groups == (if |was| == capacity then old(groups) - {was[0]} else old(groups))[f.order := row]
    {
      hide Moved, TagOf, Profit;
      var tag, profit := Move(f, i.token, i.kind);
      if retired {
        return;
      }
      if f.order in groups {
        groups := groups[f.order := Grown(groups[f.order], tag, f, profit)];
        return;
      }
      if |orders| == capacity {
        groups := groups - {orders[0]};
        orders := orders[1..];
      }
      groups := groups[f.order := FirstRow(i.token, i.kind, tag, f, profit, seqno)];
      orders := orders + [f.order];
      total := total + 1;
    }

    ghost predicate Shows(js: seq<Event>, intents: Intents)
      reads this
    {
      0 < capacity && State() == Shown(Replayed(js, intents), capacity)
    }

    /** Adds the journal's next row. An order that has left the window keeps out of it. */
    method ApplyPayload(js: seq<Event>, n: nat, intents: Intents)
      requires n < |js| && Shows(js[..n], intents)
      modifies this`groups, this`orders, this`total, this`qty, this`basis, this`incomplete
      ensures Shows(js[..n + 1], intents)
    {
      var e := js[n];
      assert js[..n + 1][..n] == js[..n];
      ghost var r := Replayed(js[..n], intents);
      ReplayLists(js[..n], intents);
      if e.Filled? {
        if e.fill.order in intents {
          var retired := e.fill.order !in groups && total >= capacity
                         && exists k :: 0 <= k < n && js[k].Filled? && js[k].fill.order == e.fill.order;
          SeenBefore(js, n, intents, e.fill.order);
          if e.fill.order in groups {
            RowGrows(r, e, intents, n + 1, capacity);
          } else if e.fill.order in r.rows {
            RowStaysOut(r, e, intents, n + 1, capacity);
          } else {
            RowEnters(r, e, intents, n + 1, capacity);
          }
          Apply(e.fill, intents[e.fill.order], retired, n + 1);
        } else {
          incomplete := true;
        }
      }
    }

    /** Catches up with the journal's head, however much was appended. */
    method Update(js: seq<Event>, head: nat, intents: Intents)
      requires cursor <= head <= |js| && Shows(js[..cursor], intents)
      modifies this
      ensures cursor == head && Shows(js[..head], intents)
    {
      while cursor < head
        invariant cursor <= head && Shows(js[..cursor], intents)
      {
        ApplyPayload(js, cursor, intents);
        cursor := cursor + 1;
      }
    }

    /** Catches up in bounded batches, the way a reader that yields between them does. */
    method UpdateInBatches(js: seq<Event>, head: nat, batch: nat, intents: Intents)
      requires cursor <= head <= |js| && 0 < batch && Shows(js[..cursor], intents)
      modifies this
      ensures cursor == head && Shows(js[..head], intents)
    {
      while cursor < head
        invariant cursor <= head && Shows(js[..cursor], intents)
      {
        var stop := Min(cursor + batch, head);
        var n := cursor;
        while n < stop
          invariant cursor <= n <= stop <= head && Shows(js[..n], intents)
          modifies this`groups, this`orders, this`total, this`qty, this`basis, this`incomplete
        {
          ApplyPayload(js, n, intents);
          n := n + 1;
        }
        cursor := stop;
      }
    }

    /** Adds the journal's next row while only the rows of chosen orders are kept. */
    method ApplySelected(js: seq<Event>, n: nat, intents: Intents, selected: set<Id>)
      requires n < |js| && ShowsSelected(js[..n], intents, selected)
      modifies this`groups, this`orders, this`total, this`qty, this`basis
      ensures ShowsSelected(js[..n + 1], intents, selected)
    {
      var e := js[n];
      assert js[..n + 1][..n] == js[..n];
      ghost var r := Replayed(js[..n], intents);
      ReplayLists(js[..n], intents);
      ChosenBounds(r, selected);
      if e.Filled? && e.fill.order in intents {
        if e.fill.order !in selected {
          NotChosen(r, e, intents, n + 1, selected);
        } else if e.fill.order in r.rows {
          ChosenGrows(r, e, intents, n + 1, selected);
        } else {
          ChosenEnters(r, e, intents, n + 1, selected);
        }
        Apply(e.fill, intents[e.fill.order], e.fill.order !in selected, n + 1);
      }
    }

    ghost predicate ShowsSelected(js: seq<Event>, intents: Intents, selected: set<Id>)
      reads this
    {
      && 0 < capacity && |selected| <= capacity
      && State().(incomplete := false) == Selected(Replayed(js, intents), selected)
    }

    /** The newest rows, newest first. */
    method View(limit: nat) returns (rows: seq<Group>)
      requires forall o :: o in orders ==> o in groups
      ensures |rows| == Min(limit, |orders|)
      ensures forall k :: 0 <= k < |rows| ==> rows[k] == groups[orders[|orders| - 1 - k]]
    {
      rows := [];
      while |rows| < limit && |rows| < |orders|
        invariant |rows| <= limit && |rows| <= |orders|
        invariant forall k :: 0 <= k < |rows| ==> rows[k] == groups[orders[|orders| - 1 - k]]
      {
        rows := rows + [groups[orders[|orders| - 1 - |rows|]]];
      }
    }
  }

  lemma SeenBefore(js: seq<Event>, n: nat, intents: Intents, o: Id)
    requires n <= |js| && o in intents
    ensures o in Replayed(js[..n], intents).rows <==> exists k :: 0 <= k < n && js[k].Filled? && js[k].fill.order == o
  {
    ReplayLists(js[..n], intents);
    if exists k :: 0 <= k < n && js[k].Filled? && js[k].fill.order == o {
      var k :| 0 <= k < n && js[k].Filled? && js[k].fill.order == o;
      assert js[..n][k] == js[k];
    }
    if o in Replayed(js[..n], intents).rows {
      var k :| 0 <= k < n && js[..n][k].Filled? && js[..n][k].fill.order == o;
      assert js[k] == js[..n][k];
    }
  }

  lemma RowsPlus(rows: Groups, orders: seq<Id>, o: Id, row: Group)
    requires o !in rows
    ensures Rows(rows[o := row], orders + [o]) == Rows(rows, orders)[o := row]
  {
  }

  lemma RowsWithoutFirst(rows: Groups, orders: seq<Id>)
    requires orders != [] && forall k :: 0 < k < |orders| ==> orders[k] != orders[0]
    ensures Rows(rows, orders[1..]) == Rows(rows, orders) - {orders[0]}
  {
    assert orders == [orders[0]] + orders[1..];
  }

  /** The orders kept when one more is added: the oldest goes when the window is full. */
  function Kept(window: seq<Id>, capacity: nat): seq<Id> {
    if |window| == capacity && window != [] then window[1..] else window
  }

  lemma TailPlus(orders: seq<Id>, o: Id, capacity: nat)
    requires 0 < capacity
    ensures Tail(orders + [o], capacity) == Kept(Tail(orders, capacity), capacity) + [o]
    ensures Tail(Tail(orders, capacity) + [o], capacity) == Kept(Tail(orders, capacity), capacity) + [o]
  {
  }

  /** The rows of a window after a new order entered it. */
  lemma NewRow(r: Replay, o: Id, row: Group, capacity: nat)
    requires Ordered(r) && 0 < capacity && o !in r.rows
    ensures var w := Tail(r.orders, capacity);
            && Tail(r.orders + [o], capacity) == Tail(w + [o], capacity)
            && Rows(r.rows[o := row], Tail(r.orders + [o], capacity))
               == (if |w| == capacity then Rows(r.rows, w) - {w[0]} else Rows(r.rows, w))[o := row]
  {
    var w := Tail(r.orders, capacity);
    TailPlus(r.orders, o, capacity);
    RowsPlus(r.rows, Kept(w, capacity), o, row);
    if |w| == capacity {
      RowsWithoutFirst(r.rows, w);
    }
  }

  ghost predicate OwnFill(r: Replay, e: Event, intents: Intents, capacity: nat) {
    Ordered(r) && 0 < capacity && e.Filled? && e.fill.order in intents
  }

  /** A row in the window grows in its place. */
  lemma RowGrows(r: Replay, e: Event, intents: Intents, seqno: nat, capacity: nat)
    requires OwnFill(r, e, intents, capacity) && e.fill.order in Shown(r, capacity).groups
    ensures var f, w := e.fill, Shown(r, capacity);
            Shown(Extended(r, e, intents, seqno), capacity)
            == w.(groups := w.groups[f.order := RowAfter(w.groups, r.held, intents[f.order], f, seqno)],
                  held := Moved(r.held, intents[f.order].token, f))
  {
    hide Moved, TagOf, Profit, Grown, RowAfter, Tail;
    var f := e.fill;
    var next := Extended(r, e, intents, seqno);
    var orders := Tail(r.orders, capacity);
    RowFromWindow(r.rows, orders, r.held, intents[f.order], f, seqno);
    assert Rows(next.rows, orders) == Rows(r.rows, orders)[f.order := next.rows[f.order]];
  }

  /** An order that left the window moves the position only. */
  lemma RowStaysOut(r: Replay, e: Event, intents: Intents, seqno: nat, capacity: nat)
    requires OwnFill(r, e, intents, capacity) && e.fill.order in r.rows && e.fill.order !in Shown(r, capacity).groups
    ensures |r.orders| >= capacity
    ensures Shown(Extended(r, e, intents, seqno), capacity)
            == Shown(r, capacity).(held := Moved(r.held, intents[e.fill.order].token, e.fill))
  {
    hide Moved, TagOf, Profit, Grown, RowAfter;
    var orders := Tail(r.orders, capacity);
    assert Rows(Extended(r, e, intents, seqno).rows, orders) == Rows(r.rows, orders);
  }

  /** A new order enters and pushes out the oldest of a full window. */
  lemma RowEnters(r: Replay, e: Event, intents: Intents, seqno: nat, capacity: nat)
    requires OwnFill(r, e, intents, capacity) && e.fill.order !in r.rows
    ensures var f, w := e.fill, Shown(r, capacity);
            && f.order !in w.groups
            && Shown(Extended(r, e, intents, seqno), capacity)
               == w.(groups := (if |w.orders| == capacity then w.groups - {w.orders[0]} else w.groups)
                                 [f.order := RowAfter(w.groups, r.held, intents[f.order], f, seqno)],
                     orders := Tail(w.orders + [f.order], capacity), total := w.total + 1,
                     held := Moved(r.held, intents[f.order].token, f))
  {
    hide Moved, TagOf, Profit, Grown, RowAfter, Rows;
    var f := e.fill;
    RowFromWindow(r.rows, Tail(r.orders, capacity), r.held, intents[f.order], f, seqno);
    NewRow(r, f.order, Extended(r, e, intents, seqno).rows[f.order], capacity);
    NotShown(r.rows, Tail(r.orders, capacity), f.order);
  }

  lemma NotShown(rows: Groups, orders: seq<Id>, o: Id)
    requires o !in rows
    ensures o !in Rows(rows, orders)
  {
  }

  lemma RowFromWindow(rows: Groups, orders: seq<Id>, held: Positions, i: Intent, f: Fill, seqno: nat)
    requires f.order in rows ==> f.order in orders
    ensures RowAfter(Rows(rows, orders), held, i, f, seqno) == RowAfter(rows, held, i, f, seqno)
  {
  }

  // ------------------------------------------------------------ one page of chosen orders

  function Chosen(orders: seq<Id>, selected: set<Id>): seq<Id> {
    if orders == [] then []
    else
      var last := orders[|orders| - 1];
      Chosen(orders[..|orders| - 1], selected) + if last in selected then [last] else []
  }

  /** The replay's rows of the chosen orders, with the positions of all orders. */
  function Selected(r: Replay, selected: set<Id>): Window {
    var orders := Chosen(r.orders, selected);
    Window(Rows(r.rows, orders), orders, |orders|, r.held, false)
  }

  lemma {:induction false} ChosenIs(orders: seq<Id>, selected: set<Id>)
    ensures forall o :: o in Chosen(orders, selected) <==> o in orders && o in selected
  {
    if orders != [] {
      var prefix, last := orders[..|orders| - 1], orders[|orders| - 1];
      ChosenIs(prefix, selected);
      assert orders == prefix + [last];
    }
  }

  function Both(orders: seq<Id>, selected: set<Id>): set<Id> { set o | o in orders && o in selected }

  lemma {:induction false} ChosenCount(orders: seq<Id>, selected: set<Id>)
    requires forall j, k :: 0 <= j < k < |orders| ==> orders[j] != orders[k]
    ensures |Chosen(orders, selected)| == |Both(orders, selected)|
  {
    if orders == [] {
      assert Both(orders, selected) == {};
    } else {
      var prefix, last := orders[..|orders| - 1], orders[|orders| - 1];
      ChosenCount(prefix, selected);
      assert orders == prefix + [last];
      assert last !in prefix;
      assert Both(orders, selected) == if last in selected then Both(prefix, selected) + {last} else Both(prefix, selected);
    }
  }

  lemma SubsetSize(a: set<Id>, b: set<Id>)
    requires a <= b
    ensures |a| <= |b|
  {
    assert b == a + (b - a);
  }

  lemma ChosenBounds(r: Replay, selected: set<Id>)
    requires Ordered(r)
    ensures |Chosen(r.orders, selected)| <= |selected|
    ensures forall o :: o in selected && o !in r.rows ==> |Chosen(r.orders, selected)| < |selected|
    ensures forall o :: o in Chosen(r.orders, selected) <==> o in r.rows && o in selected
  {
    ChosenIs(r.orders, selected);
    ChosenCount(r.orders, selected);
    var chosen := Both(r.orders, selected);
    SubsetSize(chosen, selected);
    forall o | o in selected && o !in r.rows
      ensures |Chosen(r.orders, selected)| < |selected|
    {
      SubsetSize(chosen + {o}, selected);
    }
  }

  lemma NotChosen(r: Replay, e: Event, intents: Intents, seqno: nat, selected: set<Id>)
    requires Ordered(r) && e.Filled? && e.fill.order in intents && e.fill.order !in selected
    ensures Selected(Extended(r, e, intents, seqno), selected)
            == Selected(r, selected).(held := Moved(r.held, intents[e.fill.order].token, e.fill))
  {
    hide Moved, RowAfter;
    ChosenBounds(r, selected);
    var next := Extended(r, e, intents, seqno);
    ChosenPlus(r.orders, e.fill.order, selected);
    assert Rows(next.rows, Chosen(r.orders, selected)) == Rows(r.rows, Chosen(r.orders, selected));
  }

  lemma ChosenPlus(orders: seq<Id>, o: Id, selected: set<Id>)
    ensures Chosen(orders + [o], selected) == Chosen(orders, selected) + if o in selected then [o] else []
  {
    assert (orders + [o])[..|orders|] == orders;
  }

  lemma ChosenGrows(r: Replay, e: Event, intents: Intents, seqno: nat, selected: set<Id>)
    requires Ordered(r) && e.Filled? && e.fill.order in intents && e.fill.order in selected && e.fill.order in r.rows
    ensures var f, w := e.fill, Selected(r, selected);
            && f.order in w.groups
            && Selected(Extended(r, e, intents, seqno), selected)
               == w.(groups := w.groups[f.order := RowAfter(w.groups, r.held, intents[f.order], f, seqno)],
                     held := Moved(r.held, intents[f.order].token, f))
  {
    hide Moved, RowAfter;
    ChosenBounds(r, selected);
    var f, next, orders := e.fill, Extended(r, e, intents, seqno), Chosen(r.orders, selected);
    RowFromWindow(r.rows, orders, r.held, intents[f.order], f, seqno);
    assert Rows(next.rows, orders) == Rows(r.rows, orders)[f.order := next.rows[f.order]];
  }

  lemma ChosenEnters(r: Replay, e: Event, intents: Intents, seqno: nat, selected: set<Id>)
    requires Ordered(r) && e.Filled? && e.fill.order in intents && e.fill.order in selected && e.fill.order !in r.rows
    ensures var f, w := e.fill, Selected(r, selected);
            && f.order !in w.groups
            && Selected(Extended(r, e, intents, seqno), selected)
               == w.(groups := w.groups[f.order := RowAfter(w.groups, r.held, intents[f.order], f, seqno)],
                     orders := w.orders + [f.order], total := w.total + 1,
                     held := Moved(r.held, intents[f.order].token, f))
  {
    hide Moved, RowAfter;
    var f, orders := e.fill, Chosen(r.orders, selected);
    ChosenPlus(r.orders, f.order, selected);
    RowFromWindow(r.rows, orders, r.held, intents[f.order], f, seqno);
    RowsPlus(r.rows, orders, f.order, Extended(r, e, intents, seqno).rows[f.order]);
  }
}
