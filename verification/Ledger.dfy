/** The projection of native fills onto cycles, targets, claims and realized profit,
    as a machine over its committed states. */
module Ledger {
  import opened Arith
  import opened StopLossRules

  type Id = string

  /** A tradeable outcome: its market's condition and the Event it belongs to. */
  datatype Token = Token(id: Id, condition: Id, event: Id)

  datatype Side = Buy | Sell

  datatype Kind = Entry | TargetExit | StopExit | Settlement

  /** What a BUY fill froze of the preferences when it was journaled. */
  datatype Rules = Rules(budget: int, stopEnabled: bool, stopMultiplier: int, target: int)

  datatype Fill = Fill(order: Id, trade: Id, side: Side, qty: nat, price: int, gross: int, amount: int,
                       rules: Rules, at: int)

  /** A journaled native event: a fill, the end of an order, or any other of its events. */
  datatype Event = Filled(fill: Fill) | Ended(order: Id, id: Id) | Noted(order: Id, id: Id) {
    function Order(): Id { if Filled? then fill.order else order }

    /** A fill is known by its order and trade, any other event by its own id. */
    predicate Same(other: Event) {
      if Filled? then other.Filled? && TargetKey(fill) == TargetKey(other.fill)
      else !other.Filled? && id == other.id
    }
  }

  datatype Intent = Intent(token: Token, side: Side, kind: Kind, cash: int, spent: int, quantity: int,
                           targets: seq<TargetId>, terminal: bool)

  datatype Cycle = Cycle(id: Id, token: Token, budget: int, spent: int, quantity: int, cost: int, sold: bool, stop: Stop)

  datatype Target = Target(event: Id, token: Token, price: int, qty: int, created: int)

  datatype Claim = Claim(token: Token, rights: int, amount: int, cost: int, credited: Option<Id>)

  /** A target is named by the buy fill that created it. */
  datatype TargetId = TargetId(order: Id, trade: Id)

  type Targets = map<TargetId, Target>

  datatype Business = Business(cursor: nat, cycles: map<Id, Cycle>, targets: Targets, banned: seq<Id>,
                               settled: seq<Id>, claims: map<Id, Claim>, realized: int, recoveryError: bool)

  const EmptyBusiness := Business(0, map[], map[], [], [], map[], 0, false)

  // ------------------------------------------------------------ applying one fill

  function TargetKey(f: Fill): TargetId { TargetId(f.order, f.trade) }

  function FreshCycle(i: Intent, f: Fill): Cycle {
    Cycle(f.trade, i.token, f.rules.budget, 0, 0, 0, false, NewStop(f.rules.stopEnabled, f.rules.stopMultiplier))
  }

  function Bought(c: Cycle, f: Fill): Cycle {
    c.(spent := c.spent + f.amount, quantity := c.quantity + f.qty, cost := c.cost + f.amount,
       stop := c.stop.Add(f.price, f.gross))
  }

  function ApplyBuy(b: Business, i: Intent, f: Fill): Result<Business> {
    var cycle := if i.token.event in b.cycles then b.cycles[i.token.event] else FreshCycle(i, f);
    if cycle.token != i.token then Err("sibling token already held")
    else
      var bought := Bought(cycle, f);
      Ok(b.(cycles := b.cycles[i.token.event := bought],
            targets := b.targets[TargetKey(f) := Target(i.token.event, i.token, f.rules.target, f.qty, f.at)],
            recoveryError := b.recoveryError || bought.spent > bought.budget))
  }

  /** The cost that leaves with `qty` shares: all of it with the last share. */
  function Allocated(c: Cycle, qty: int): int
    requires 0 <= qty <= c.quantity
  {
    if qty == c.quantity then c.cost else c.cost * qty / c.quantity
  }

  /** `part` is the share of `whole` that falls to `qty` out of `quantity`, cut down to a
      micro-unit; all of it falls to the last share. */
  predicate Share(whole: int, quantity: int, qty: int, part: int) {
    if qty == quantity then part == whole else part * quantity <= whole * qty < (part + 1) * quantity
  }

  /** What a sale does to its cycle and to the realized profit: the sold shares leave with
      their share of the cost, and what they brought beyond it is profit. */
  ghost predicate SoldOff(was: Cycle, now: Cycle, realized: int, realized': int, f: Fill) {
    && now.quantity == was.quantity - f.qty && now.sold
    && Share(was.cost, was.quantity, f.qty, was.cost - now.cost)
    && realized' == realized + f.amount - (was.cost - now.cost)
    && now == was.(quantity := now.quantity, cost := now.cost, sold := true)
  }

  lemma SaleTakesItsShare(b: Business, i: Intent, f: Fill)
    requires ApplySell(b, i, f).Ok? && i.token.event in b.cycles
    ensures var event, now := i.token.event, ApplySell(b, i, f).value;
            event in now.cycles && SoldOff(b.cycles[event], now.cycles[event], b.realized, now.realized, f)
  {
    var c := b.cycles[i.token.event];
    if f.qty != c.quantity {
      FloorBounds(c.cost * f.qty, c.quantity);
    }
  }

  /** Takes `remain` shares from an Event's listed targets in order, dropping emptied ones. */
  function TakeTargets(targets: Targets, ids: seq<TargetId>, event: Id, remain: int): Targets {
    if ids == [] then targets
    else if ids[0] !in targets || targets[ids[0]].event != event then TakeTargets(targets, ids[1..], event, remain)
    else
      var used := Min(remain, targets[ids[0]].qty);
      var left := targets[ids[0]].qty - used;
      var targets' := if left == 0 then targets - {ids[0]} else targets[ids[0] := targets[ids[0]].(qty := left)];
      if remain - used == 0 then targets' else TakeTargets(targets', ids[1..], event, remain - used)
  }

  function ApplySell(b: Business, i: Intent, f: Fill): Result<Business> {
    if i.token.event !in b.cycles || f.qty > b.cycles[i.token.event].quantity then Err("more sold than held")
    else if i.kind == Settlement && i.token.condition !in b.claims then Err("no claim")
    else
      var c := b.cycles[i.token.event];
      var used := Allocated(c, f.qty);
      Ok(b.(cycles := b.cycles[i.token.event := c.(quantity := c.quantity - f.qty, cost := c.cost - used, sold := true)],
            realized := b.realized + f.amount - used,
            claims := if i.kind == Settlement then b.claims[i.token.condition := b.claims[i.token.condition].(credited := Some(f.trade))]
                      else b.claims,
            targets := TakeTargets(b.targets, i.targets, i.token.event, f.qty)))
  }

  function ApplyFill(b: Business, i: Intent, f: Fill): Result<Business> {
    if f.side == Buy then ApplyBuy(b, i, f) else ApplySell(b, i, f)
  }

  /** The targets that do not belong to an Event. */
  function WithoutEvent(targets: Targets, event: Id): Targets {
    map k | k in targets && targets[k].event != event :: targets[k]
  }

  /** Closes an empty cycle that no open order can refill. */
  function Released(b: Business, event: Id, active: bool): Business {
    if event !in b.cycles || b.cycles[event].quantity != 0 || active then b
    else
      b.(banned := if b.cycles[event].stop.phase == Exiting && event !in b.banned then b.banned + [event] else b.banned,
         cycles := b.cycles - {event}, targets := WithoutEvent(b.targets, event))
  }

  type Intents = map<Id, Intent>

  predicate Active(intents: Intents, event: Id) {
    exists o :: o in intents && intents[o].token.event == event && !intents[o].terminal
  }

  /** An order after one of its events; a fill leaves it as finished as the venue reports. */
  function Advanced(i: Intent, e: Event, closed: bool): Intent {
    i.(spent := if e.Filled? && e.fill.side == Buy then i.spent + e.fill.amount else i.spent,
       terminal := if e.Ended? then true else if e.Filled? then closed else i.terminal)
  }

  /** The fill, the order's own state and the cursor of one journaled event. */
  function ApplyEvent(b: Business, intents: Intents, e: Event, seqno: nat, closed: bool): Result<(Business, Intents)>
    requires e.Order() in intents
  {
    var i := intents[e.Order()];
    var applied := if e.Filled? then ApplyFill(b, i, e.fill) else Ok(b);
    match applied
    case Err(x) => Err(x)
    case Ok(b1) =>
      Ok((b1.(cursor := seqno), intents[e.Order() := Advanced(i, e, closed)]))
  }

  /** The whole projection of one journaled event: what it applies, then the release of
      its Event's finished cycle. An event of somebody else's order changes nothing. */
  function Project(b: Business, intents: Intents, e: Event, seqno: nat, closed: bool): Result<(Business, Intents)> {
    if e.Order() !in intents then Ok((b, intents))
    else
      match ApplyEvent(b, intents, e, seqno, closed)
      case Err(x) => Err(x)
      case Ok(r) =>
        var event := intents[e.Order()].token.event;
        Ok((Released(r.0, event, Active(r.1, event)), r.1))
  }
}
