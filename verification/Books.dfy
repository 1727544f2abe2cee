/** Public depth that is replaced or edited while simulated consumption persists,
    over whole histories with restarts. */
module Books {
  import opened Arith
  import opened Ladder

  type Quantities = map<int, int>

  function At(m: Quantities, price: int): int { if price in m then m[price] else 0 }

  /** One side of a book, as a value. */
  datatype Shadow = Shadow(external: Quantities, consumed: Quantities) {
    function Free(price: int): int { At(external, price) - At(consumed, price) }

    /** Only positive public sizes are kept and consumption stays within them. */
    ghost predicate Sound() {
      && (forall p :: p in external ==> external[p] > 0)
      && (forall p {:trigger At(consumed, p)} :: 0 <= At(consumed, p) <= At(external, p))
    }
  }

  lemma SameEntries(a: Quantities, b: Quantities)
    requires forall p :: (p in a <==> p in b) && At(a, p) == At(b, p)
    ensures a == b
  {
    forall p | p in a
      ensures p in b && a[p] == b[p]
    {
      assert At(a, p) == At(b, p);
    }
    forall p | p in b
      ensures p in a
    {
      assert At(a, p) == At(b, p);
    }
  }

  predicate ValidSizes(incoming: Quantities) {
    forall p :: p in incoming ==> 0 < p < SCALE && incoming[p] >= 0
  }

  // ------------------------------------------------------------ what an update says, level by level

  /** What holds of every price, after the last level listed for it. */
  ghost predicate Sized(levels: seq<Level>) {
    forall i: nat :: LastListed(levels, i) ==> 0 < levels[i].price < SCALE && levels[i].qty >= 0
  }

  ghost predicate Unlisted(levels: seq<Level>, p: int) { forall l :: l in levels ==> l.price != p }

  /** The size becomes public at this price, or the price goes; consumption is cut to it. */
  predicate SizedAt(was: Shadow, now: Shadow, p: int, qty: int) {
    if qty == 0 then p !in now.external && p !in now.consumed
    else p in now.external && now.external[p] == qty && At(now.consumed, p) == Min(At(was.consumed, p), qty)
  }

  /** The last level listed for a price gives its size. A snapshot drops every other price
      that was public, a delta leaves all others alone. */
  ghost predicate Applied(was: Shadow, levels: seq<Level>, snapshot: bool, now: Shadow) {
    && (forall i: nat :: LastListed(levels, i) ==> SizedAt(was, now, levels[i].price, levels[i].qty))
    && (forall p :: Unlisted(levels, p) ==>
          if snapshot && p in was.external then p !in now.external && p !in now.consumed else Agree(was, now, p))
  }

  lemma SizedIsValid(levels: seq<Level>)
    ensures ValidSizes(ByPrice(levels)) <==> Sized(levels)
  {
    hide ByPrice;
    ByPriceIs(levels);
    if Sized(levels) {
      forall p | p in ByPrice(levels)
        ensures 0 < p < SCALE && ByPrice(levels)[p] >= 0
      {
        var i: nat :| LastListed(levels, i) && levels[i].price == p;
      }
    }
  }

  lemma UpdatedHere(was: Shadow, incoming: Quantities, snapshot: bool, p: int)
    ensures p in incoming && incoming[p] >= 0 ==> SizedAt(was, Updated(was, incoming, snapshot), p, incoming[p])
    ensures p !in incoming ==>
              var now := Updated(was, incoming, snapshot);
              if snapshot && p in was.external then p !in now.external && p !in now.consumed else Agree(was, now, p)
  {
  }

  lemma UpdateApplies(was: Shadow, levels: seq<Level>, snapshot: bool)
    ensures Sized(levels) ==> Applied(was, levels, snapshot, Updated(was, ByPrice(levels), snapshot))
  {
    hide ByPrice, Updated, SizedAt, Agree;
    ByPriceIs(levels);
    forall i: nat | Sized(levels) && LastListed(levels, i)
      ensures SizedAt(was, Updated(was, ByPrice(levels), snapshot), levels[i].price, levels[i].qty)
    {
      UpdatedHere(was, ByPrice(levels), snapshot, levels[i].price);
    }
    forall p | Unlisted(levels, p)
      ensures var now := Updated(was, ByPrice(levels), snapshot);
              if snapshot && p in was.external then p !in now.external && p !in now.consumed else Agree(was, now, p)
    {
      UpdatedHere(was, ByPrice(levels), snapshot, p);
    }
  }

  /** The prices an update speaks about: a snapshot speaks about every known price. */
  function Touched(s: Shadow, incoming: Quantities, snapshot: bool): set<int> {
    if snapshot then s.external.Keys + incoming.Keys else incoming.Keys
  }

  /** New public sizes replace old ones and cut consumption down to what is left. */
  function Updated(s: Shadow, incoming: Quantities, snapshot: bool): Shadow {
    var touched := Touched(s, incoming, snapshot);
    Shadow(
      map p | p in s.external.Keys + touched && (p in touched ==> At(incoming, p) != 0)
        :: if p in touched then At(incoming, p) else s.external[p],
      map p | p in s.consumed.Keys && (p in touched ==> At(incoming, p) != 0 && Min(s.consumed[p], At(incoming, p)) != 0)
        :: if p in touched then Min(s.consumed[p], At(incoming, p)) else s.consumed[p])
  }

  function Consumed(s: Shadow, price: int, qty: int): Shadow {
    s.(consumed := s.consumed[price := At(s.consumed, price) + qty])
  }

  ghost predicate Agree(a: Shadow, b: Shadow, p: int) {
    && (p in a.external <==> p in b.external) && At(a.external, p) == At(b.external, p)
    && (p in a.consumed <==> p in b.consumed) && At(a.consumed, p) == At(b.consumed, p)
  }

  lemma AgreeEverywhere(a: Shadow, b: Shadow)
    requires forall p :: Agree(a, b, p)
    ensures a == b
  {
    forall p
      ensures (p in a.external <==> p in b.external) && At(a.external, p) == At(b.external, p)
      ensures (p in a.consumed <==> p in b.consumed) && At(a.consumed, p) == At(b.consumed, p)
    {
      assert Agree(a, b, p);
    }
    SameEntries(a.external, b.external);
    SameEntries(a.consumed, b.consumed);
  }

  function Put(s: Shadow, p: int, qty: int): Shadow {
    var left := Min(At(s.consumed, p), qty);
    Shadow(if qty == 0 then s.external - {p} else s.external[p := qty],
           if qty == 0 || left == 0 then s.consumed - {p} else s.consumed[p := left])
  }

  lemma PutElsewhere(s: Shadow, p: int, qty: int, t: Shadow, other: int)
    requires other != p
    ensures Agree(s, t, other) ==> Agree(Put(s, p, qty), t, other)
  {
  }

  /** Putting an update's size at a price it speaks about makes that price final. */
  lemma PutHere(before: Shadow, s: Shadow, levels: Quantities, snapshot: bool, p: int)
    requires ValidSizes(levels) && p in Touched(s, levels, snapshot) && Agree(before, s, p)
    ensures Agree(Put(before, p, At(levels, p)), Updated(s, levels, snapshot), p)
  {
  }

  class Side {
    var external: Quantities
    var consumed: Quantities

    function State(): Shadow
      reads this
    {
      Shadow(external, consumed)
    }

    constructor ()
      ensures State() == Shadow(map[], map[])
    {
      external, consumed := map[], map[];
    }

    /** One price's new public size; a reduction takes public depth first. */
    method SetLevel(p: int, qty: int)
      requires qty >= 0
      modifies this
      ensures State() == Put(old(State()), p, qty)
    {
      var left := Min(At(consumed, p), qty);
      if left != 0 {
        consumed := consumed[p := left];
      } else {
        consumed := consumed - {p};
      }
      external := external[p := qty];
      if qty == 0 {
        external := external - {p};
        consumed := consumed - {p};
      }
    }

    /** The whole update is validated before anything changes; a bad level changes nothing. */
    method Update(levels: seq<Level>, snapshot: bool) returns (ok: bool)
      modifies this
      ensures ok == ValidSizes(ByPrice(levels)) == Sized(levels)
      ensures ok ==> Applied(old(State()), levels, snapshot, State())
      ensures State() == if ok then Updated(old(State()), ByPrice(levels), snapshot) else old(State())
    {
      hide Applied, Sized, ByPrice;
      SizedIsValid(levels);
      UpdateApplies(State(), levels, snapshot);
      var incoming := ByPrice(levels);
      if !ValidSizes(incoming) {
        return false;
      }
      ghost var s, u := State(), Updated(State(), incoming, snapshot);
      ghost var given := incoming;
      if snapshot {
        incoming := map p | p in external.Keys + incoming.Keys :: At(incoming, p);
      }
      var todo := incoming.Keys;
      while todo != {}
        invariant todo <= incoming.Keys
        invariant forall p :: p in todo ==> Agree(State(), s, p)
        invariant forall p :: p !in todo ==> Agree(State(), u, p)
        decreases todo
      {
        var p :| p in todo;
        var qty := incoming[p];
        assert p in Touched(s, given, snapshot) && qty == At(given, p) && qty >= 0;
        ghost var before := State();
        SetLevel(p, qty);
        PutHere(before, s, given, snapshot, p);
        forall other | other != p
          ensures Agree(before, s, other) ==> Agree(State(), s, other)
          ensures Agree(before, u, other) ==> Agree(State(), u, other)
        {
          PutElsewhere(before, p, qty, s, other);
          PutElsewhere(before, p, qty, u, other);
        }
        todo := todo - {p};
      }
      assert todo == {};
      AgreeEverywhere(State(), u);
      ok := true;
    }

    method Consume(price: int, qty: int) returns (ok: bool)
      modifies this
      ensures ok == (0 <= qty <= old(State()).Free(price))
      ensures State() == if ok then Consumed(old(State()), price, qty) else old(State())
    {
      if qty < 0 || qty > At(external, price) - At(consumed, price) {
        return false;
      }
      consumed := consumed[price := At(consumed, price) + qty];
      ok := true;
    }
  }

  class Book {
    const bid: Side
    const ask: Side
    var ready: bool
    var timestamp: int
    var revision: int

    ghost predicate Valid()
      reads this
    {
      bid != ask
    }

    constructor ()
      ensures Valid() && fresh(bid) && fresh(ask) && !ready
      ensures bid.State() == ask.State() == Shadow(map[], map[])
    {
      bid := new Side();
      ask := new Side();
      ready, timestamp, revision := false, 0, 0;
    }

    /** Both sides change or neither does; time never runs back while ready. */
    method Snapshot(bids: seq<Level>, asks: seq<Level>, at: int) returns (accepted: bool)
      requires Valid()
      modifies this, bid, ask
      ensures Valid()
      ensures accepted == (!(old(ready) && at < old(timestamp)) && Sized(bids) && Sized(asks))
      ensures accepted ==>
                && Applied(old(bid.State()), bids, true, bid.State())
                && Applied(old(ask.State()), asks, true, ask.State())
                && ready && timestamp == at && revision == old(revision) + 1
                && bid.State() == Updated(old(bid.State()), ByPrice(bids), true)
                && ask.State() == Updated(old(ask.State()), ByPrice(asks), true)
      ensures !accepted ==>
                && ready == old(ready) && timestamp == old(timestamp) && revision == old(revision)
                && bid.State() == old(bid.State()) && ask.State() == old(ask.State())
    {
      hide Applied, Sized, ByPrice, Updated, ValidSizes;
      SizedIsValid(bids);
      SizedIsValid(asks);
      UpdateApplies(bid.State(), bids, true);
      UpdateApplies(ask.State(), asks, true);
      if ready && at < timestamp {
        return false;
      }
      if !ValidSizes(ByPrice(bids)) || !ValidSizes(ByPrice(asks)) {
        return false;
      }
      var _ := bid.Update(bids, true);
      var _ := ask.Update(asks, true);
      timestamp, ready := at, true;
      revision := revision + 1;
      accepted := true;
    }

    method Delta(isBid: bool, levels: seq<Level>, at: int) returns (accepted: bool)
      requires Valid()
      modifies this, bid, ask
      ensures Valid() && ready == old(ready)
      ensures accepted == (old(ready) && at >= old(timestamp) && Sized(levels))
      ensures accepted ==>
                Applied(if isBid then old(bid.State()) else old(ask.State()), levels, false,
                        if isBid then bid.State() else ask.State())
      ensures bid.State() == if accepted && isBid then Updated(old(bid.State()), ByPrice(levels), false) else old(bid.State())
      ensures ask.State() == if accepted && !isBid then Updated(old(ask.State()), ByPrice(levels), false) else old(ask.State())
      ensures timestamp == (if accepted then at else old(timestamp))
      ensures revision == old(revision) + if accepted then 1 else 0
    {
      hide Applied, Sized, ByPrice, Updated, ValidSizes;
      if !ready || at < timestamp {
        return false;
      }
      if isBid {
        accepted := bid.Update(levels, false);
      } else {
        accepted := ask.Update(levels, false);
      }
      if accepted {
        timestamp := at;
        revision := revision + 1;
      }
    }

    method Disconnect()
      modifies this
      ensures !ready && timestamp == old(timestamp) && revision == old(revision)
    {
      ready := false;
    }
  }

  // ------------------------------------------------ one side through its history

  /** A side with its durable row and the public size an onlooker saw last. */
  datatype World = World(side: Shadow, ready: bool, row: Shadow, seen: Quantities)

  datatype Take = Take(price: int, qty: int)

  datatype Action =
    | Snapshot(levels: seq<Level>, otherSideChanged: bool)
    | Delta(levels: seq<Level>, otherSideChanged: bool)
    | Disconnect
    | Reload
      // A simulated order: a checkpoint of the depth, then its fills.
    | Order(fills: seq<Take>)
      // The same with a crash once `done` fills are projected: the rest is replayed on the reloaded row.
    | CrashedOrder(fills: seq<Take>, done: nat)

  const Empty := Shadow(map[], map[])

  const Start := World(Empty, false, Empty, map[])

  function NonZero(m: Quantities): Quantities { map p | p in m && m[p] != 0 :: m[p] }

  function Reloaded(row: Shadow): Shadow { Shadow(NonZero(row.external), NonZero(row.consumed)) }

  function ConsumeAll(s: Shadow, fills: seq<Take>): Shadow
    decreases |fills|
  {
    if fills == [] then s else ConsumeAll(Consumed(s, fills[0].price, fills[0].qty), fills[1..])
  }

  /** Every consumption in turn passes the depth check. */
  predicate Fit(s: Shadow, fills: seq<Take>)
    decreases |fills|
  {
    fills == [] || (0 <= fills[0].qty <= s.Free(fills[0].price)
                    && Fit(Consumed(s, fills[0].price, fills[0].qty), fills[1..]))
  }

  /** The public sizes after an observation. */
  function Observed(seen: Quantities, levels: Quantities, snapshot: bool): Quantities {
    Updated(Shadow(seen, map[]), levels, snapshot).external
  }

  function Observe(w: World, levels: Quantities, snapshot: bool, otherSideChanged: bool): World {
    var side := Updated(w.side, levels, snapshot);
    World(side, true,
          if side.consumed != w.side.consumed || otherSideChanged then side else w.row,
          Observed(w.seen, levels, snapshot))
  }

  function ReloadWorld(w: World): World { w.(side := Reloaded(w.row), ready := false) }

  predicate Enabled(w: World, a: Action) {
    match a
    case Snapshot(levels, _) => ValidSizes(ByPrice(levels))
    case Delta(levels, _) => w.ready && ValidSizes(ByPrice(levels))
    case Disconnect => true
    case Reload => true
    case Order(fills) => w.ready && Fit(w.side, fills)
    case CrashedOrder(fills, done) => w.ready && Fit(w.side, fills) && done <= |fills|
  }

  function Step(w: World, a: Action): World
    requires Enabled(w, a)
  {
    match a
    case Snapshot(levels, other) => Observe(w, ByPrice(levels), true, other)
    case Delta(levels, other) => Observe(w, ByPrice(levels), false, other)
    case Disconnect => w.(ready := false)
    case Reload => ReloadWorld(w)
    case Order(fills) => var side := ConsumeAll(w.side, fills); w.(side := side, row := side)
    case CrashedOrder(fills, done) =>
      var before := ConsumeAll(w.side, fills[..done]);
      var side := ConsumeAll(Reloaded(before), fills[done..]);
      World(side, false, side, w.seen)
  }

  predicate Possible(history: seq<Action>)
    decreases |history|, 0
  {
    history == [] ||
    (var n := |history| - 1; Possible(history[..n]) && Enabled(Run(history[..n]), history[n]))
  }

  function Run(history: seq<Action>): World
    requires Possible(history)
    decreases |history|, 1
  {
    if history == [] then Start
    else var n := |history| - 1; Step(Run(history[..n]), history[n])
  }

  /** Size observed to be added at a price. */
  function Added(history: seq<Action>, price: int): int
    requires Possible(history)
  {
    if history == [] then 0
    else
      var n := |history| - 1;
      Added(history[..n], price)
      + Max(0, At(Run(history).seen, price) - At(Run(history[..n]).seen, price))
  }

  function TakenIn(fills: seq<Take>, price: int): int {
    if fills == [] then 0
    else (if fills[0].price == price then fills[0].qty else 0) + TakenIn(fills[1..], price)
  }

  /** Simulated quantity ever taken at a price. */
  function Taken(history: seq<Action>, price: int): int
    requires Possible(history)
  {
    if history == [] then 0
    else
      var n := |history| - 1;
      Taken(history[..n], price) + TakenBy(history[n], price)
  }

  function TakenBy(a: Action, price: int): int {
    match a
    case Order(fills) => TakenIn(fills, price)
    case CrashedOrder(fills, _) => TakenIn(fills, price)
    case _ => 0
  }

  /** What every reachable world keeps. */
  ghost predicate Kept(w: World) {
    && w.side.Sound() && w.row.Sound()
    && (forall p {:trigger At(w.row.consumed, p)} :: At(w.row.consumed, p) == At(w.side.consumed, p))
    && (forall p :: p in w.seen ==> w.seen[p] > 0)
    && (forall p {:trigger At(w.seen, p)} :: At(w.side.consumed, p) <= At(w.seen, p))
    && (w.ready ==> w.side.external == w.seen)
  }

  lemma UpdatedAt(s: Shadow, levels: Quantities, snapshot: bool, p: int)
    requires s.Sound() && ValidSizes(levels)
    ensures var t := p in Touched(s, levels, snapshot);
            var u := Updated(s, levels, snapshot);
            && At(u.external, p) == (if t then At(levels, p) else if snapshot then 0 else At(s.external, p))
            && At(u.consumed, p) == Min(At(s.consumed, p), At(u.external, p))
  {
    assert At(s.consumed, p) <= At(s.external, p);
  }

  lemma UpdatedSound(s: Shadow, levels: Quantities, snapshot: bool)
    requires s.Sound() && ValidSizes(levels)
    ensures Updated(s, levels, snapshot).Sound()
  {
    var u := Updated(s, levels, snapshot);
    forall p
      ensures 0 <= At(u.consumed, p) <= At(u.external, p)
    {
      UpdatedAt(s, levels, snapshot, p);
      assert 0 <= At(s.consumed, p) <= At(s.external, p);
    }
    forall p | p in u.external
      ensures u.external[p] > 0
    {
      if p in Touched(s, levels, snapshot) && p in levels {
        assert levels[p] >= 0;
      }
    }
  }

  lemma ObserveKeeps(w: World, levels: Quantities, snapshot: bool, other: bool)
    requires Kept(w) && ValidSizes(levels) && (snapshot || w.ready)
    ensures Kept(Observe(w, levels, snapshot, other))
    ensures forall p :: At(Observe(w, levels, snapshot, other).side.consumed, p)
                        == Min(At(w.side.consumed, p), At(Observe(w, levels, snapshot, other).seen, p))
  {
    var w' := Observe(w, levels, snapshot, other);
    UpdatedSound(w.side, levels, snapshot);
    SeenIsSound(w.seen);
    UpdatedSound(Shadow(w.seen, map[]), levels, snapshot);
    forall p
      ensures At(w'.side.external, p) == At(w'.seen, p)
    {
      UpdatedAt(w.side, levels, snapshot, p);
      UpdatedAt(Shadow(w.seen, map[]), levels, snapshot, p);
    }
    SameSizes(w'.side.external, w'.seen);
    forall p
      ensures At(w'.side.consumed, p) == Min(At(w.side.consumed, p), At(w'.seen, p))
    {
      UpdatedAt(w.side, levels, snapshot, p);
    }
  }

  lemma SeenIsSound(seen: Quantities)
    requires forall p :: p in seen ==> seen[p] > 0
    ensures Shadow(seen, map[]).Sound()
  {
  }

  lemma SameSizes(a: Quantities, b: Quantities)
    requires forall p :: p in a ==> a[p] > 0
    requires forall p :: p in b ==> b[p] > 0
    requires forall p {:trigger At(a, p)} :: At(a, p) == At(b, p)
    ensures a == b
  {
    forall p | p in a
      ensures p in b && a[p] == b[p]
    {
      assert At(a, p) == At(b, p);
    }
    forall p | p in b
      ensures p in a
    {
      assert At(a, p) == At(b, p);
    }
  }

  lemma {:induction false} ConsumeAllAt(s: Shadow, fills: seq<Take>)
    requires s.Sound() && Fit(s, fills)
    ensures ConsumeAll(s, fills).Sound() && ConsumeAll(s, fills).external == s.external
    ensures forall p :: At(ConsumeAll(s, fills).consumed, p) == At(s.consumed, p) + TakenIn(fills, p)
    ensures forall p :: TakenIn(fills, p) >= 0
    decreases |fills|
  {
    if fills != [] {
      var next := Consumed(s, fills[0].price, fills[0].qty);
      forall p
        ensures 0 <= At(next.consumed, p) <= At(next.external, p)
      {
        assert 0 <= At(s.consumed, p) <= At(s.external, p);
      }
      ConsumeAllAt(next, fills[1..]);
    }
  }

  /** Whether fills fit, and what they leave, depends on the sizes alone. */
  lemma {:induction false} FitBySizes(s: Shadow, t: Shadow, fills: seq<Take>)
    requires forall p {:trigger s.Free(p)} :: s.Free(p) == t.Free(p)
    ensures Fit(s, fills) == Fit(t, fills)
    decreases |fills|
  {
    if fills != [] {
      var s', t' := Consumed(s, fills[0].price, fills[0].qty), Consumed(t, fills[0].price, fills[0].qty);
      forall p
        ensures s'.Free(p) == t'.Free(p)
      {
        assert s.Free(p) == t.Free(p);
      }
      FitBySizes(s', t', fills[1..]);
    }
  }

  lemma {:induction false} FitSplits(s: Shadow, fills: seq<Take>, done: nat)
    requires Fit(s, fills) && done <= |fills|
    ensures Fit(s, fills[..done]) && Fit(ConsumeAll(s, fills[..done]), fills[done..])
    ensures ConsumeAll(s, fills) == ConsumeAll(ConsumeAll(s, fills[..done]), fills[done..])
    decreases |fills|
  {
    if done == 0 {
      assert fills[..0] == [] && fills[0..] == fills;
    } else {
      var next := Consumed(s, fills[0].price, fills[0].qty);
      FitSplits(next, fills[1..], done - 1);
      assert fills[..done][0] == fills[0] && fills[..done][1..] == fills[1..][..done - 1];
      assert fills[done..] == fills[1..][done - 1..];
    }
  }

  lemma ReloadedAt(row: Shadow)
    requires row.Sound()
    ensures Reloaded(row).Sound() && Reloaded(row).external == row.external
    ensures forall p :: At(Reloaded(row).external, p) == At(row.external, p)
                     && At(Reloaded(row).consumed, p) == At(row.consumed, p)
  {
    forall p | p in row.external
      ensures p in NonZero(row.external)
    {
      assert row.external[p] > 0;
    }
    SameEntries(NonZero(row.external), row.external);
    forall p
      ensures 0 <= At(Reloaded(row).consumed, p) <= At(Reloaded(row).external, p)
    {
      assert 0 <= At(row.consumed, p) <= At(row.external, p);
    }
  }

  /** A crash part way through an order loses nothing: every remaining fill is
      accepted on the reloaded row, and the depth ends as it would have. */
  lemma CrashedOrderCompletes(w: World, fills: seq<Take>, done: nat)
    requires Kept(w) && Fit(w.side, fills) && done <= |fills|
    ensures var before := ConsumeAll(w.side, fills[..done]);
            && Fit(Reloaded(before), fills[done..])
            && ConsumeAll(Reloaded(before), fills[done..]).Sound()
            && ConsumeAll(Reloaded(before), fills[done..]).external == ConsumeAll(w.side, fills).external
            && forall p :: At(ConsumeAll(Reloaded(before), fills[done..]).consumed, p)
                           == At(ConsumeAll(w.side, fills).consumed, p)
  {
    FitSplits(w.side, fills, done);
    var before := ConsumeAll(w.side, fills[..done]);
    ConsumeAllAt(w.side, fills[..done]);
    ReloadedAt(before);
    FitBySizes(Reloaded(before), before, fills[done..]);
    ConsumeAllAt(Reloaded(before), fills[done..]);
    ConsumeAllAt(before, fills[done..]);
  }

  lemma OrderKeeps(w: World, side: Shadow, fills: seq<Take>, ready: bool)
    requires Kept(w) && w.ready && Fit(w.side, fills)
    requires side.Sound() && side.external == w.side.external
    requires forall p {:trigger At(side.consumed, p)} :: At(side.consumed, p) == At(w.side.consumed, p) + TakenIn(fills, p)
    ensures Kept(World(side, ready, side, w.seen))
  {
    forall p
      ensures At(side.consumed, p) <= At(w.seen, p)
    {
      assert At(side.consumed, p) <= At(side.external, p);
    }
  }

  lemma StepKept(w: World, a: Action)
    requires Kept(w) && Enabled(w, a)
    ensures Kept(Step(w, a))
  {
    hide ByPrice, ConsumeAll, Fit, ValidSizes, Updated;
    match a {
      case Snapshot(levels, other) => ObserveKeeps(w, ByPrice(levels), true, other);
      case Delta(levels, other) => ObserveKeeps(w, ByPrice(levels), false, other);
      case Disconnect =>
      case Reload => ReloadedAt(w.row);
      case Order(fills) =>
        ConsumeAllAt(w.side, fills);
        OrderKeeps(w, Step(w, a).side, fills, true);
      case CrashedOrder(fills, done) =>
        ConsumeAllAt(w.side, fills);
        CrashedOrderCompletes(w, fills, done);
        OrderKeeps(w, Step(w, a).side, fills, false);
    }
  }

  /** What a step takes and leaves free at a price is covered by what was free before and
      what it adds. */
  lemma StepCovered(w: World, a: Action, p: int)
    requires Kept(w) && Enabled(w, a)
    ensures var w' := Step(w, a);
            TakenBy(a, p) + At(w'.seen, p) - At(w'.side.consumed, p)
            <= At(w.seen, p) - At(w.side.consumed, p) + Max(0, At(w'.seen, p) - At(w.seen, p))
  {
    hide ByPrice, ConsumeAll, Fit, ValidSizes, Updated, Shadow.Sound, Shadow.Free;
    assert At(w.row.consumed, p) == At(w.side.consumed, p);
    assert At(w.side.consumed, p) <= At(w.seen, p);
    match a {
      case Snapshot(levels, other) => ObserveKeeps(w, ByPrice(levels), true, other);
      case Delta(levels, other) => ObserveKeeps(w, ByPrice(levels), false, other);
      case Disconnect =>
      case Reload => ReloadedAt(w.row);
      case Order(fills) => ConsumeAllAt(w.side, fills);
      case CrashedOrder(fills, done) =>
        ConsumeAllAt(w.side, fills);
        CrashedOrderCompletes(w, fills, done);
    }
  }

  /** Over every history: the world stays sound, and at each price what was ever
      taken plus what is still free never exceeds what was seen to be added. */
  lemma {:induction false} HistoryKeeps(history: seq<Action>)
    requires Possible(history)
    ensures Kept(Run(history))
    ensures forall p :: Taken(history, p) + At(Run(history).seen, p) - At(Run(history).side.consumed, p)
                        <= Added(history, p)
  {
    hide Kept, Step, Enabled, TakenBy;
    if history == [] {
      assert Kept(Start) by { StartKept(); }
    } else {
      var n := |history| - 1;
      HistoryKeeps(history[..n]);
      StepKept(Run(history[..n]), history[n]);
      forall p
        ensures Taken(history, p) + At(Run(history).seen, p) - At(Run(history).side.consumed, p) <= Added(history, p)
      {
        StepCovered(Run(history[..n]), history[n], p);
      }
    }
  }

  lemma StartKept()
    ensures Kept(Start)
  {
  }

  /** The bound itself, with the free depth that a ready side offers. */
  lemma TakenNeverExceedsAdded(history: seq<Action>, price: int)
    requires Possible(history)
    ensures Taken(history, price) <= Added(history, price)
    ensures Run(history).ready ==> Taken(history, price) + Run(history).side.Free(price) <= Added(history, price)
    ensures 0 <= At(Run(history).side.consumed, price) <= At(Run(history).side.external, price)
  {
    HistoryKeeps(history);
    var w := Run(history);
    assert At(w.side.consumed, price) <= At(w.seen, price);
    assert 0 <= At(w.side.consumed, price) <= At(w.side.external, price);
  }

  /** The same public sizes and the same consumption; zero entries carry nothing. */
  ghost predicate SameDepth(a: Shadow, b: Shadow) {
    a.external == b.external && NonZero(a.consumed) == NonZero(b.consumed)
  }

  /** Reloading the durable row and then accepting a snapshot gives the same depth and
      consumption as accepting it without the restart. */
  lemma RestartIsInvisible(history: seq<Action>, levels: seq<Level>, other: bool)
    requires Possible(history) && ValidSizes(ByPrice(levels))
    ensures var w := Run(history);
            SameDepth(Step(Step(w, Reload), Snapshot(levels, other)).side, Step(w, Snapshot(levels, other)).side)
  {
    HistoryKeeps(history);
    var w := Run(history);
    ReloadedAt(w.row);
    forall p
      ensures At(Reloaded(w.row).consumed, p) == At(w.side.consumed, p)
    {
      assert At(w.row.consumed, p) == At(w.side.consumed, p);
    }
    SnapshotForgetsSizes(Reloaded(w.row), w.side, ByPrice(levels));
  }

  /** What a snapshot leaves depends on the consumption before it, not on the old public sizes. */
  lemma SnapshotForgetsSizes(s: Shadow, t: Shadow, levels: Quantities)
    requires s.Sound() && t.Sound() && ValidSizes(levels)
    requires forall p {:trigger At(s.consumed, p)} :: At(s.consumed, p) == At(t.consumed, p)
    ensures SameDepth(Updated(s, levels, true), Updated(t, levels, true))
  {
    var a, b := Updated(s, levels, true), Updated(t, levels, true);
    UpdatedSound(s, levels, true);
    UpdatedSound(t, levels, true);
    forall p
      ensures At(a.external, p) == At(b.external, p) && At(a.consumed, p) == At(b.consumed, p)
    {
      UpdatedAt(s, levels, true, p);
      UpdatedAt(t, levels, true, p);
      assert At(s.consumed, p) == At(t.consumed, p);
    }
    SameSizes(a.external, b.external);
    SameNonZero(a.consumed, b.consumed);
  }

  lemma SameNonZero(a: Quantities, b: Quantities)
    requires forall p {:trigger At(a, p)} :: At(a, p) == At(b, p)
    ensures NonZero(a) == NonZero(b)
  {
    forall p
      ensures (p in NonZero(a) <==> p in NonZero(b)) && At(NonZero(a), p) == At(NonZero(b), p)
    {
      assert At(a, p) == At(b, p);
    }
    SameEntries(NonZero(a), NonZero(b));
  }
}
