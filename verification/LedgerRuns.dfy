/** Whole runs of submissions, journaled fills and their projection. In every reachable
    state the next journaled event can be projected, the targets of an open cycle cover
    exactly what it holds, and no money is made or lost by the bookkeeping. */
module LedgerRuns {
  import opened Arith
  import opened Ledger
  import opened MapSum
  import opened StopLossRules

  datatype State = State(b: Business, intents: Intents, journal: seq<Event>, budget: int, initial: int)

  // ------------------------------------------------------------ measures

  function FilledQty(js: seq<Event>, o: Id): nat {
    if js == [] then 0
    else
      var e := js[|js| - 1];
      FilledQty(js[..|js| - 1], o) + if e.Filled? && e.fill.order == o then e.fill.qty else 0
  }

  /** Simulated cash after the fills of a journal. */
  function Cash(initial: int, js: seq<Event>): int {
    if js == [] then initial
    else
      var e := js[|js| - 1];
      Cash(initial, js[..|js| - 1])
      + if !e.Filled? then 0 else if e.fill.side == Buy then -e.fill.amount else e.fill.amount
  }

  predicate Known(js: seq<Event>, k: TargetId) {
    exists j :: 0 <= j < |js| && js[j].Filled? && TargetKey(js[j].fill) == k
  }

  function Of(targets: Targets, event: Id): set<TargetId> {
    set k | k in targets && targets[k].event == event
  }

  function Sizes(targets: Targets, keep: set<TargetId>): map<TargetId, int> {
    map k | k in targets && k in keep :: targets[k].qty
  }

  /** What an Event's targets add up to. */
  ghost function TargetSum(targets: Targets, event: Id): int {
    Sum(Sizes(targets, Of(targets, event)))
  }

  /** What an Event's targets in a list add up to. */
  ghost function Listed(targets: Targets, ids: seq<TargetId>, event: Id): int {
    Sum(Sizes(targets, set k | k in Of(targets, event) && k in ids))
  }

  function Costs(cycles: map<Id, Cycle>): map<Id, int> {
    map e | e in cycles :: cycles[e].cost
  }

  predicate Pending(s: State, o: Id) {
    exists k :: s.b.cursor <= k < |s.journal| && s.journal[k].Filled? && s.journal[k].fill.order == o
  }

  /** An order that may still change the books. */
  predicate Live(s: State, o: Id) {
    o in s.intents && (!s.intents[o].terminal || Pending(s, o))
  }

  function Left(s: State, o: Id): int
    requires o in s.intents && s.b.cursor <= |s.journal|
  {
    s.intents[o].quantity - FilledQty(s.journal[..s.b.cursor], o)
  }

  /** Settlement and a confirmed stop take an Event out of target coverage. */
  predicate Exempt(b: Business, event: Id) {
    event in b.cycles && (b.cycles[event].token.condition in b.settled || b.cycles[event].stop.phase == Exiting
                          || b.cycles[event].stop.phase == Stopped)
  }

  // ------------------------------------------------------------ steps

  datatype Action =
    | Submit(order: Id, intent: Intent)
    | Record(event: Event)
    | Deliver(closed: bool)
    | Observe(id: Id, bid: Option<int>, seen: string, now: int, ready: bool)
    | Identify(token: Token, amount: int)
    | Configure(budget: int)
    | Retire(order: Id)

  predicate ActiveSell(intents: Intents, event: Id) {
    exists o :: o in intents && intents[o].token.event == event && !intents[o].terminal && intents[o].side == Sell
  }

  /** No finished order of the Event still awaits the projection of a fill. */
  predicate Caught(s: State, event: Id) {
    forall o :: o in s.intents && s.intents[o].token.event == event && s.intents[o].terminal ==> !Pending(s, o)
  }

  predicate EntryAllowed(s: State, i: Intent) {
    && i.side == Buy && i.targets == []
    && !Active(s.intents, i.token.event)
    && i.token.event !in s.b.banned && i.token.condition !in s.b.settled
    && if i.token.event in s.b.cycles then
         var c := s.b.cycles[i.token.event];
         c.token == i.token && !c.sold && c.stop.phase == Watching && i.cash <= c.budget - c.spent
       else i.cash <= s.budget
  }

  predicate TargetExitAllowed(s: State, i: Intent, listed: int) {
    && i.side == Sell
    && !ActiveSell(s.intents, i.token.event)
    && i.token.event in s.b.cycles && s.b.cycles[i.token.event].token == i.token
    && !Exempt(s.b, i.token.event)
    && i.quantity <= listed
  }

  predicate StopExitAllowed(s: State, i: Intent) {
    && i.side == Sell && i.targets == []
    && !ActiveSell(s.intents, i.token.event)
    && i.token.event in s.b.cycles
    && var c := s.b.cycles[i.token.event];
       c.token == i.token && i.token.condition !in s.b.settled && c.stop.phase == Exiting && i.quantity <= c.quantity
  }

  predicate SettlementAllowed(s: State, i: Intent) {
    && i.side == Sell && i.targets == []
    && !Active(s.intents, i.token.event)
    && i.token.condition in s.b.claims
    && var c := s.b.claims[i.token.condition];
       c.token == i.token && c.credited.None? && i.quantity == c.rights
  }

  predicate MayOffer(s: State, o: Id, i: Intent, listed: int) {
    && o !in s.intents && i.spent == 0 && !i.terminal && i.quantity > 0 && Caught(s, i.token.event)
    && match i.kind
       case Entry => EntryAllowed(s, i)
       case TargetExit => TargetExitAllowed(s, i, listed)
       case StopExit => StopExitAllowed(s, i)
       case Settlement => SettlementAllowed(s, i)
  }

  /** An exit offers no more than its listed targets hold. */
  ghost predicate MaySubmit(s: State, o: Id, i: Intent) {
    MayOffer(s, o, i, Listed(s.b.targets, i.targets, i.token.event))
  }

  /** The venue fills an order that is not finished, on its own side, a positive quantity
      and never more shares than it offers; the journal keeps one copy of each fill. */
  predicate MayRecord(s: State, e: Event) {
    && e.Order() in s.intents
    && (e.Filled? ==>
          && Live(s, e.fill.order) && e.fill.qty > 0 && e.fill.side == s.intents[e.fill.order].side
          && !Known(s.journal, TargetKey(e.fill))
          && (e.fill.side == Buy ==> e.fill.rules.budget == s.budget)
          && (e.fill.side == Sell ==>
                FilledQty(s.journal, e.fill.order) + e.fill.qty <= s.intents[e.fill.order].quantity))
  }

  predicate MayIdentify(s: State, t: Token) {
    && t.event in s.b.cycles && s.b.cycles[t.event].token == t
    && t.condition !in s.b.claims
    && !Active(s.intents, t.event) && Caught(s, t.event)
  }

  ghost predicate Enabled(s: State, a: Action) {
    match a
    case Submit(o, i) => MaySubmit(s, o, i)
    case Record(e) => MayRecord(s, e)
    case Deliver(_) => s.b.cursor < |s.journal|
    case Observe(event, _, _, _, _) =>
      event in s.b.cycles && s.b.cycles[event].token.condition !in s.b.settled
    case Identify(t, _) => MayIdentify(s, t)
    case Configure(_) => true
    case Retire(o) => o in s.intents
  }

  function Observed(b: Business, event: Id, bid: Option<int>, seen: string, now: int, ready: bool): Business
    requires event in b.cycles
  {
    var stop := b.cycles[event].stop.Observe(bid, seen, now, ready);
    var b1 := b.(cycles := b.cycles[event := b.cycles[event].(stop := stop)]);
    if stop.phase != Exiting then b1
    else b1.(banned := if event in b.banned then b.banned else b.banned + [event],
             targets := WithoutEvent(b.targets, event))
  }

  function Identified(b: Business, t: Token, amount: int): Business
    requires t.event in b.cycles
  {
    var c := b.cycles[t.event];
    b.(claims := b.claims[t.condition := Claim(t, c.quantity, amount, c.cost, None)],
       settled := b.settled + [t.condition],
       targets := WithoutEvent(b.targets, t.event))
  }

  /** A failed projection leaves everything as it was. */
  function Delivered(s: State, closed: bool): State
    requires s.b.cursor < |s.journal|
  {
    match Project(s.b, s.intents, s.journal[s.b.cursor], s.b.cursor + 1, closed)
    case Ok(r) => s.(b := r.0, intents := r.1)
    case Err(_) => s
  }

  /** The order finished by the venue's answer alone, no event of it being journaled. */
  function Finished(s: State, o: Id): State
    requires o in s.intents
  {
    s.(intents := s.intents[o := s.intents[o].(terminal := true)])
  }

  /** A finished order whose cycle is released with it. */
  function Retired(s: State, o: Id): State
    requires o in s.intents
  {
    var t := Finished(s, o);
    var event := s.intents[o].token.event;
    t.(b := Released(t.b, event, Active(t.intents, event)))
  }

  ghost function Next(s: State, a: Action): State
    requires Enabled(s, a)
  {
    match a
    case Submit(o, i) => s.(intents := s.intents[o := i])
    case Record(e) => s.(journal := s.journal + [e])
    case Deliver(closed) => Delivered(s, closed)
    case Observe(event, bid, seen, now, ready) => s.(b := Observed(s.b, event, bid, seen, now, ready))
    case Identify(t, amount) => s.(b := Identified(s.b, t, amount))
    case Configure(budget) => s.(budget := budget)
    case Retire(o) => Retired(s, o)
  }

  // ------------------------------------------------------------ what every step keeps

  ghost predicate Journaled(s: State) {
    && s.b.cursor <= |s.journal|
    && (forall k :: 0 <= k < |s.journal| ==>
          && s.journal[k].Order() in s.intents
          && (s.journal[k].Filled? ==>
                s.journal[k].fill.qty > 0 && s.journal[k].fill.side == s.intents[s.journal[k].fill.order].side))
    && (forall j, k :: 0 <= j < k < |s.journal| && s.journal[j].Filled? && s.journal[k].Filled? ==>
          TargetKey(s.journal[j].fill) != TargetKey(s.journal[k].fill))
    && (forall o :: o in s.intents ==>
          && (s.intents[o].side == Buy <==> s.intents[o].kind == Entry)
          && (s.intents[o].side == Sell ==> FilledQty(s.journal, o) <= s.intents[o].quantity))
  }

  ghost predicate TargetOk(s: State, k: TargetId)
    requires k in s.b.targets && s.b.cursor <= |s.journal|
  {
    s.b.targets[k].qty > 0 && Known(s.journal[..s.b.cursor], k)
  }

  ghost predicate CycleOk(b: Business, event: Id)
    requires event in b.cycles
  {
    var c := b.cycles[event];
    && c.token.event == event && c.quantity >= 0
    && (c.quantity == 0 ==> c.cost == 0)
    && (!Exempt(b, event) ==> TargetSum(b.targets, event) == c.quantity)
  }

  ghost predicate OrderOk(s: State, o: Id) {
    && o in s.intents && s.b.cursor <= |s.journal|
    && var i := s.intents[o];
    var event := i.token.event;
    && (event in s.b.cycles ==> s.b.cycles[event].token == i.token)
    && (i.side == Sell ==> event in s.b.cycles && Left(s, o) <= s.b.cycles[event].quantity)
    && (i.kind == TargetExit && !Exempt(s.b, event) ==> Left(s, o) <= Listed(s.b.targets, i.targets, event))
    && (i.kind == StopExit ==> event in s.b.cycles && s.b.cycles[event].stop.phase == Exiting)
    && (i.kind == Settlement ==> i.token.condition in s.b.claims && i.token.condition in s.b.settled)
  }

  ghost predicate ClaimOk(s: State, k: Id)
    requires k in s.b.claims
  {
    var c := s.b.claims[k];
    && c.token.condition == k && k in s.b.settled
    && (c.credited.None? ==>
          && c.token.event in s.b.cycles && s.b.cycles[c.token.event].token == c.token
          && s.b.cycles[c.token.event].quantity == c.rights > 0
          && forall o :: Live(s, o) && s.intents[o].token.event == c.token.event ==> s.intents[o].kind == Settlement)
  }

  predicate Rivals(i: Intent, j: Intent) {
    i.token.event == j.token.event && (i.side == j.side || i.kind == Settlement)
  }

  /** At most one live order of an Event and side, and nothing beside a settlement. */
  ghost predicate Alone(s: State) {
    forall o, p :: Live(s, o) && Live(s, p) && Rivals(s.intents[o], s.intents[p]) ==> o == p
  }

  ghost predicate TargetsOk(s: State)
    requires s.b.cursor <= |s.journal|
  {
    && (forall k :: k in s.b.targets ==> TargetOk(s, k))
    && (forall k :: k in s.b.targets ==> s.b.targets[k].event in s.b.cycles)
  }

  ghost predicate CyclesOk(b: Business) {
    forall event :: event in b.cycles ==> CycleOk(b, event)
  }

  ghost predicate OrdersOk(s: State) {
    forall o :: Live(s, o) ==> OrderOk(s, o)
  }

  ghost predicate ClaimsOk(s: State) {
    forall k :: k in s.b.claims ==> ClaimOk(s, k)
  }

  ghost predicate Core(s: State) {
    Journaled(s) && TargetsOk(s) && CyclesOk(s.b) && OrdersOk(s) && ClaimsOk(s) && Alone(s)
  }

  /** Only an open order keeps an empty cycle. */
  predicate Kept(s: State, event: Id) {
    event in s.b.cycles && s.b.cycles[event].quantity == 0 ==> Active(s.intents, event)
  }

  ghost predicate AllKept(s: State) {
    forall event :: Kept(s, event)
  }

  ghost predicate Inv(s: State) {
    Core(s) && AllKept(s)
  }
}
