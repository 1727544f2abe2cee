/** One live order between the reports of its venue trades and the release of its
    reservation: reports arrive repeated, reordered and stale, saves and deliveries fail,
    the process dies anywhere. */
module LiveTrades {
  import opened Arith
  import opened MapSum

  type Id = string

  datatype Status = Matched | Mined | Retrying | Confirmed | Failed

  predicate Final(s: Status) { s == Confirmed || s == Failed }

  datatype Trade = Trade(id: Id, qty: int)

  /** The order as stored and as held in memory. */
  datatype Order = Order(
    pending: set<Id>, failed: map<Id, int>, venueTerminal: bool, verified: bool, terminal: bool,
    journal: seq<Trade>,
    inFlight: set<Id>, undelivered: map<Id, Trade>, delivered: seq<Id>)

  const Unreported := Order({}, map[], false, false, false, [], {}, map[], [])

  predicate Journaled(journal: seq<Trade>, id: Id) { exists k :: 0 <= k < |journal| && journal[k].id == id }

  function Ids(journal: seq<Trade>): set<Id> { set k | 0 <= k < |journal| :: journal[k].id }

  function Gross(journal: seq<Trade>): int {
    if journal == [] then 0 else Gross(journal[..|journal| - 1]) + journal[|journal| - 1].qty
  }

  function Open(failed: map<Id, int>, confirmed: set<Id>): map<Id, int> {
    map k | k in failed && k !in confirmed :: failed[k]
  }

  // ------------------------------------------------------------ steps

  datatype Action =
    | Report(trade: Trade, status: Status, saved: bool, journaled: bool)
    | Retry(id: Id)
    | Sent(id: Id, ok: bool)
    | VenueCancel(saved: bool)
    | Answer(associated: set<Id>, matched: int, closed: bool, saved: bool, sent: bool)
    | Crash

  /** After a start the native engine is rebuilt from the journal, fill by fill. */
  function Rebuilt(journal: seq<Trade>): seq<Id> { seq(|journal|, k requires 0 <= k < |journal| => journal[k].id) }

  /** What a report makes of the pending and failed trades. */
  function Noted(o: Order, t: Trade, status: Status): Order {
    o.(pending := if Final(status) then o.pending - {t.id} else o.pending + {t.id},
       failed := if status == Failed then o.failed[t.id := t.qty]
                 else if status == Confirmed then o.failed - {t.id}
                 else o.failed)
  }

  function Reported(o: Order, t: Trade, status: Status, saved: bool, journaled: bool, maximum: int): Order {
    if status == Failed && t.qty > maximum then o
    else if Journaled(o.journal, t.id) && status != Confirmed then o
    else if Noted(o, t, status) != o && !saved then o
    else
      var noted := Noted(o, t, status);
      if status != Confirmed || t.id in o.inFlight || Journaled(o.journal, t.id) || !journaled then noted
      else
        noted.(journal := o.journal + [t], undelivered := o.undelivered[t.id := t], inFlight := o.inFlight + {t.id})
  }

  /** Whether an answer of the venue is enough to let the order go. */
  ghost predicate Settles(o: Order, associated: set<Id>, matched: int, closed: bool, maximum: int) {
    var confirmed := Ids(o.journal);
    var sum := Gross(o.journal) + Sum(Open(o.failed, confirmed));
    && matched <= maximum && sum <= maximum
    && o.pending == {} && associated <= confirmed + Open(o.failed, confirmed).Keys && matched <= sum
    && closed
  }

  ghost function Answered(o: Order, associated: set<Id>, matched: int, closed: bool, saved: bool, sent: bool, maximum: int)
    : Order
  {
    if o.terminal || !Settles(o, associated, matched, closed, maximum) || !saved then o
    else o.(verified := true, terminal := sent)
  }

  ghost function Step(o: Order, a: Action, maximum: int): Order {
    match a
    case Report(t, status, saved, journaled) => Reported(o, t, status, saved, journaled, maximum)
    case Retry(id) => if id in o.undelivered then o.(inFlight := o.inFlight + {id}) else o
    case Sent(id, ok) =>
      if id !in o.inFlight || id !in o.undelivered then o
      else if !ok then o.(inFlight := o.inFlight - {id})
      else o.(inFlight := o.inFlight - {id}, undelivered := o.undelivered - {id}, delivered := o.delivered + [id])
    case VenueCancel(saved) => if saved then o.(venueTerminal := true) else o
    case Answer(associated, matched, closed, saved, sent) =>
      Answered(o, associated, matched, closed, saved, sent, maximum)
    case Crash => o.(inFlight := {}, undelivered := map[], delivered := Rebuilt(o.journal))
  }

  // ------------------------------------------------------------ the order as the program holds it

  class LiveOrder {
    const maximum: int
    // stored with the intent
    var pending: set<Id>
    var failed: map<Id, int>
    var venueTerminal: bool
    var verified: bool
    var terminal: bool
    // journaled fills
    var journal: seq<Trade>
    // in memory only
    var inFlight: set<Id>
    var undelivered: map<Id, Trade>
    // fills the native engine took
    var delivered: seq<Id>

    constructor (maximum: int)
      ensures this.maximum == maximum && State() == Unreported
    {
      this.maximum, pending, failed, venueTerminal, verified, terminal := maximum, {}, map[], false, false, false;
      journal, inFlight, undelivered, delivered := [], {}, map[], [];
    }

    function State(): Order
      reads this
    {
      Order(pending, failed, venueTerminal, verified, terminal, journal, inFlight, undelivered, delivered)
    }

    /** Stores what a report says about its trade, unless nothing changes. */
    method Note(t: Trade, status: Status, saved: bool) returns (ok: bool)
      modifies this`pending, this`failed
      ensures ok == (Noted(old(State()), t, status) == old(State()) || saved)
      ensures State() == if ok then Noted(old(State()), t, status) else old(State())
    {
      var nowPending := if Final(status) then pending - {t.id} else pending + {t.id};
      var nowFailed := failed;
      if status == Failed {
        nowFailed := failed[t.id := t.qty];
      } else if status == Confirmed {
        nowFailed := failed - {t.id};
      }
      ok := (nowPending == pending && nowFailed == failed) || saved;
      if ok {
        pending, failed := nowPending, nowFailed;
      }
    }

    /** Takes one trade report in, up to the point where its fill is being delivered. */
    method Ingest(t: Trade, status: Status, saved: bool, journaled: bool)
      modifies this`pending, this`failed, this`journal, this`undelivered, this`inFlight
      ensures State() == Step(old(State()), Report(t, status, saved, journaled), maximum)
      ensures forall v :: Sound(v, old(State())) && Honest(v, Report(t, status, saved, journaled)) ==> Sound(v, State())
    {
      hide Sound, Honest, Noted;
      SoundNext(State(), Report(t, status, saved, journaled), maximum);
      if status == Failed && t.qty > maximum {
        return;
      }
      var committed := exists k :: 0 <= k < |journal| && journal[k].id == t.id;
      if committed && status != Confirmed {
        return;
      }
      var noted := Note(t, status, saved);
      if !noted {
        return;
      }
      if status != Confirmed || t.id in inFlight || committed || !journaled {
        return;
      }
      journal := journal + [t];
      undelivered := undelivered[t.id := t];
      inFlight := inFlight + {t.id};
    }

    /** A journaled fill that was not delivered is handed over again, never journaled again. */
    method RetryDelivery(id: Id)
      modifies this`inFlight
      ensures State() == Step(old(State()), Retry(id), maximum)
      ensures forall v :: Sound(v, old(State())) ==> Sound(v, State())
    {
      hide Sound;
      SoundNext(State(), Retry(id), maximum);
      if id in undelivered {
        inFlight := inFlight + {id};
      }
    }

    /** The native engine has taken the fill, or raised. */
    method FinishDelivery(id: Id, ok: bool)
      modifies this`inFlight, this`undelivered, this`delivered
      ensures State() == Step(old(State()), Sent(id, ok), maximum)
      ensures forall v :: Sound(v, old(State())) ==> Sound(v, State())
    {
      hide Sound;
      SoundNext(State(), Sent(id, ok), maximum);
      if id in inFlight && id in undelivered {
        inFlight := inFlight - {id};
        if ok {
          undelivered := undelivered - {id};
          delivered := delivered + [id];
        }
      }
    }

    /** A cancellation by itself settles nothing: it only asks for an answer. */
    method OnVenueCancel(saved: bool)
      modifies this`venueTerminal
      ensures State() == Step(old(State()), VenueCancel(saved), maximum)
      ensures venueTerminal == (old(venueTerminal) || saved)
      ensures forall v :: Sound(v, old(State())) ==> Sound(v, State())
    {
      hide Sound;
      SoundNext(State(), VenueCancel(saved), maximum);
      if saved {
        venueTerminal := true;
      }
    }

    /** Applies the venue's answer about the order. */
    method ApplyAnswer(associated: set<Id>, matched: int, closed: bool, saved: bool, sent: bool)
      modifies this`verified, this`terminal
      ensures State() == Step(old(State()), Answer(associated, matched, closed, saved, sent), maximum)
      ensures forall v :: Sound(v, old(State())) && Honest(v, Answer(associated, matched, closed, saved, sent)) ==> Sound(v, State())
    {
      hide Sound, Honest;
      SoundNext(State(), Answer(associated, matched, closed, saved, sent), maximum);
      if terminal {
        return;
      }
      var confirmed := set k | 0 <= k < |journal| :: journal[k].id;
      var gross := 0;
      for k := 0 to |journal|
        invariant gross == Gross(journal[..k])
      {
        assert journal[..k + 1][..k] == journal[..k];
        gross := gross + journal[k].qty;
      }
      assert journal[..|journal|] == journal;
      var open := map k | k in failed && k !in confirmed :: failed[k];
      var lost := SumOf(open);
      if matched > maximum || gross + lost > maximum {
        return;
      }
      if pending != {} || !(associated <= confirmed + open.Keys) || gross + lost < matched {
        return;
      }
      if closed && saved {
        verified := true;
        terminal := sent;
      }
    }

    static method SumOf(m: map<Id, int>) returns (sum: int)
      ensures sum == Sum(m)
    {
      sum := 0;
      var rest := m;
      while rest != map[]
        invariant sum + Sum(rest) == Sum(m)
        decreases |rest|
      {
        var k :| k in rest;
        SumWithout(rest, k);
        sum := sum + rest[k];
        rest := rest - {k};
      }
    }

    /** What was only in memory is gone; a new native engine takes the stored fills. */
    method Restart()
      modifies this`inFlight, this`undelivered, this`delivered
      ensures State() == Step(old(State()), Crash, maximum)
      ensures forall v :: Sound(v, old(State())) ==> Sound(v, State())
    {
      hide Sound;
      SoundNext(State(), Crash, maximum);
      inFlight, undelivered, delivered := {}, map[], [];
      for k := 0 to |journal|
        invariant inFlight == {} && undelivered == map[] && delivered == Rebuilt(journal)[..k]
        modifies this`delivered
      {
        delivered := delivered + [journal[k].id];
      }
    }
  }

  // ------------------------------------------------------------ the venue

  /** A trade of the order as it finally turns out. */
  datatype Truth = Truth(qty: int, confirmed: bool)

  type Venue = map<Id, Truth>

  /** Final statuses never change, and an answer that closes the order lists all of its trades. */
  predicate Honest(v: Venue, a: Action) {
    match a
    case Report(t, status, _, _) =>
      && t.id in v && t.qty == v[t.id].qty
      && (status == Confirmed ==> v[t.id].confirmed) && (status == Failed ==> !v[t.id].confirmed)
    case Answer(associated, _, closed, _, _) => associated <= v.Keys && (closed ==> associated == v.Keys)
    case Retry(_) => true
    case Sent(_, _) => true
    case VenueCancel(_) => true
    case Crash => true
  }

  ghost function Run(o: Order, history: seq<Action>, maximum: int): Order {
    if history == [] then o else Step(Run(o, history[..|history| - 1], maximum), history[|history| - 1], maximum)
  }

  predicate HonestAll(v: Venue, history: seq<Action>) {
    forall k :: 0 <= k < |history| ==> Honest(v, history[k])
  }

  function ConfirmedBy(v: Venue): set<Id> { set k | k in v && v[k].confirmed }

  // ------------------------------------------------------------ what every step keeps

  ghost predicate JournalOk(v: Venue, o: Order) {
    && (forall j, k :: 0 <= j < k < |o.journal| ==> o.journal[j].id != o.journal[k].id)
    && (forall k :: 0 <= k < |o.journal| ==>
          o.journal[k].id in v && v[o.journal[k].id].confirmed && o.journal[k].qty == v[o.journal[k].id].qty)
  }

  ghost predicate NotesOk(v: Venue, o: Order) {
    && (forall k :: k in o.failed ==> k in v && !v[k].confirmed && o.failed[k] == v[k].qty)
    && o.pending <= v.Keys
  }

  ghost predicate DeliveryOk(o: Order) {
    && o.undelivered.Keys <= Ids(o.journal) && o.inFlight <= o.undelivered.Keys
    && (forall j, k :: 0 <= j < k < |o.delivered| ==> o.delivered[j] != o.delivered[k])
    && (forall k :: 0 <= k < |o.delivered| ==> o.delivered[k] in Ids(o.journal) && o.delivered[k] !in o.undelivered)
  }

  ghost predicate ReleaseOk(v: Venue, o: Order) {
    (o.verified || o.terminal) ==> o.verified && Ids(o.journal) == ConfirmedBy(v)
  }

  ghost predicate Sound(v: Venue, o: Order) {
    JournalOk(v, o) && NotesOk(v, o) && DeliveryOk(o) && ReleaseOk(v, o)
  }

  lemma IdsPlus(journal: seq<Trade>, t: Trade)
    ensures Ids(journal + [t]) == Ids(journal) + {t.id}
    ensures Journaled(journal, t.id) <==> t.id in Ids(journal)
  {
    var more := journal + [t];
    assert forall k :: 0 <= k < |journal| ==> more[k] == journal[k];
    assert more[|journal|] == t;
  }

  lemma ReportKeeps(v: Venue, o: Order, a: Action, maximum: int)
    requires Sound(v, o) && a.Report? && Honest(v, a)
    ensures Sound(v, Step(o, a, maximum))
  {
    IdsPlus(o.journal, a.trade);
  }

  lemma AnswerKeeps(v: Venue, o: Order, a: Action, maximum: int)
    requires Sound(v, o) && a.Answer? && Honest(v, a)
    ensures Sound(v, Step(o, a, maximum))
  {
    if Step(o, a, maximum) != o {
      forall k | k in ConfirmedBy(v)
        ensures k in Ids(o.journal)
      {
        assert k in a.associated;
      }
    }
  }

  lemma StepKeeps(v: Venue, o: Order, a: Action, maximum: int)
    requires Sound(v, o) && Honest(v, a)
    ensures Sound(v, Step(o, a, maximum))
  {
    match a
    case Report(_, _, _, _) => ReportKeeps(v, o, a, maximum);
    case Answer(_, _, _, _, _) => AnswerKeeps(v, o, a, maximum);
    case Retry(_) =>
    case Sent(_, _) =>
    case VenueCancel(_) =>
    case Crash =>
  }

  lemma SoundNext(o: Order, a: Action, maximum: int)
    ensures forall v :: Sound(v, o) && Honest(v, a) ==> Sound(v, Step(o, a, maximum))
  {
    hide Sound, Step, Honest;
    forall v | Sound(v, o) && Honest(v, a)
      ensures Sound(v, Step(o, a, maximum))
    {
      StepKeeps(v, o, a, maximum);
    }
  }

  lemma {:induction false} RunSound(v: Venue, history: seq<Action>, maximum: int)
    requires HonestAll(v, history)
    ensures Sound(v, Run(Unreported, history, maximum))
  {
    hide Sound, Step, Honest;
    if history == [] {
      StartSound(v);
    } else {
      RunSound(v, history[..|history| - 1], maximum);
      StepKeeps(v, Run(Unreported, history[..|history| - 1], maximum), history[|history| - 1], maximum);
    }
  }

  lemma StartSound(v: Venue)
    ensures Sound(v, Unreported)
  {
  }

  // ------------------------------------------------------------ the theorems

  /** Whatever was repeated, reordered, stale or lost: every venue trade is journaled and
      delivered at most once, and only a confirmed one with its true quantity. */
  lemma TradesJournaledAtMostOnce(v: Venue, history: seq<Action>, maximum: int)
    requires HonestAll(v, history)
    ensures var o := Run(Unreported, history, maximum);
            && (forall j, k :: 0 <= j < k < |o.journal| ==> o.journal[j].id != o.journal[k].id)
            && (forall k :: 0 <= k < |o.journal| ==>
                  o.journal[k].id in v && v[o.journal[k].id] == Truth(o.journal[k].qty, true))
            && (forall j, k :: 0 <= j < k < |o.delivered| ==> o.delivered[j] != o.delivered[k])
            && (forall k :: 0 <= k < |o.delivered| ==> o.delivered[k] in Ids(o.journal))
  {
    RunSound(v, history, maximum);
  }

  /** When an order has been released its journaled fills are exactly the venue's
      confirmed trades. */
  lemma ReleasedIsExact(v: Venue, history: seq<Action>, maximum: int)
    requires HonestAll(v, history)
    requires var o := Run(Unreported, history, maximum); o.verified || o.terminal
    ensures Ids(Run(Unreported, history, maximum).journal) == ConfirmedBy(v)
  {
    RunSound(v, history, maximum);
  }

  /** A release is final: nothing the venue may still report moves the journal. */
  lemma ReleaseIsFinal(v: Venue, history: seq<Action>, a: Action, maximum: int)
    requires HonestAll(v, history) && Honest(v, a)
    requires Run(Unreported, history, maximum).verified
    ensures var o := Run(Unreported, history, maximum);
            Step(o, a, maximum).verified && Step(o, a, maximum).journal == o.journal
  {
    RunSound(v, history, maximum);
    var o := Run(Unreported, history, maximum);
    if a.Report? && a.status == Confirmed {
      assert a.trade.id in Ids(o.journal);
      IdsPlus(o.journal, a.trade);
    }
  }

  /** A fill that waits is delivered by the next retry that succeeds. */
  lemma RetryDelivers(v: Venue, history: seq<Action>, id: Id, maximum: int)
    requires HonestAll(v, history) && id in Run(Unreported, history, maximum).undelivered
    ensures var o := Run(Unreported, history, maximum);
            var now := Step(Step(o, Retry(id), maximum), Sent(id, true), maximum);
            && id !in now.undelivered && now.delivered == o.delivered + [id] && now.journal == o.journal
            && (forall k :: 0 <= k < |o.delivered| ==> o.delivered[k] != id)
  {
    RunSound(v, history, maximum);
  }

  ghost predicate Accounted(o: Order) {
    Ids(o.journal) == (set k | 0 <= k < |o.delivered| :: o.delivered[k]) + o.undelivered.Keys
  }

  /** A journaled fill was delivered or waits for a retry; after a crash the engine that
      is rebuilt from the journal has them all. */
  lemma {:induction false} FillsAreNotLost(v: Venue, history: seq<Action>, maximum: int)
    requires HonestAll(v, history)
    ensures Accounted(Run(Unreported, history, maximum))
  {
    if history != [] {
      var prefix, a := history[..|history| - 1], history[|history| - 1];
      FillsAreNotLost(v, prefix, maximum);
      AccountedStep(Run(Unreported, prefix, maximum), a, maximum);
    }
  }

  lemma AccountedStep(o: Order, a: Action, maximum: int)
    requires Accounted(o)
    ensures Accounted(Step(o, a, maximum))
  {
    if a.Crash? {
      var now := Step(o, a, maximum);
      assert forall k :: 0 <= k < |o.journal| ==> now.delivered[k] == o.journal[k].id;
    } else if a.Report? {
      IdsPlus(o.journal, a.trade);
    } else if a.Sent? {
      var now := Step(o, a, maximum);
      if now.delivered != o.delivered {
        assert now.delivered[|o.delivered|] == a.id;
        assert forall k :: 0 <= k < |o.delivered| ==> now.delivered[k] == o.delivered[k];
      }
    }
  }

  // ------------------------------------------------------------ when an order is released

  function Sizes(v: Venue, keys: set<Id>): map<Id, int> { map k | k in v && k in keys :: v[k].qty }

  ghost function Total(v: Venue): int { Sum(Sizes(v, v.Keys)) }

  lemma {:induction false} GrossIsSum(v: Venue, journal: seq<Trade>)
    requires forall j, k :: 0 <= j < k < |journal| ==> journal[j].id != journal[k].id
    requires forall k :: 0 <= k < |journal| ==> journal[k].id in v && journal[k].qty == v[journal[k].id].qty
    ensures Gross(journal) == Sum(Sizes(v, Ids(journal)))
  {
    if journal == [] {
      assert Sizes(v, Ids(journal)) == map[];
    } else {
      var prefix, t := journal[..|journal| - 1], journal[|journal| - 1];
      GrossIsSum(v, prefix);
      IdsPlus(prefix, t);
      assert journal == prefix + [t];
      assert t.id !in Ids(prefix);
      assert Sizes(v, Ids(journal)) == Sizes(v, Ids(prefix))[t.id := t.qty];
      SumUpdate(Sizes(v, Ids(prefix)), t.id, t.qty);
    }
  }

  lemma {:induction false} SizesSplit(v: Venue, a: set<Id>, b: set<Id>)
    requires a !! b && b <= v.Keys
    ensures Sum(Sizes(v, a + b)) == Sum(Sizes(v, a)) + Sum(Sizes(v, b))
    decreases |b|
  {
    if b == {} {
      assert a + b == a;
      assert Sizes(v, b) == map[];
    } else {
      var k :| k in b;
      SizesSplit(v, a, b - {k});
      assert Sizes(v, a + b) == Sizes(v, a + (b - {k}))[k := v[k].qty];
      SumUpdate(Sizes(v, a + (b - {k})), k, v[k].qty);
      assert Sizes(v, b) == Sizes(v, b - {k})[k := v[k].qty];
      SumUpdate(Sizes(v, b - {k}), k, v[k].qty);
    }
  }

  ghost predicate AllFinal(v: Venue, o: Order) {
    o.pending == {} && forall k :: k in v ==> k in Ids(o.journal) || k in o.failed
  }

  /** Once every trade has turned out, what was filled and what failed is the venue's total. */
  lemma FinalTotal(v: Venue, o: Order)
    requires Sound(v, o) && AllFinal(v, o)
    ensures Gross(o.journal) + Sum(Open(o.failed, Ids(o.journal))) == Total(v)
    ensures v.Keys <= Ids(o.journal) + Open(o.failed, Ids(o.journal)).Keys
  {
    var ids := Ids(o.journal);
    GrossIsSum(v, o.journal);
    assert Open(o.failed, ids) == Sizes(v, o.failed.Keys);
    SizesSplit(v, ids, o.failed.Keys);
    assert Sizes(v, v.Keys) == Sizes(v, ids + o.failed.Keys);
  }

  /** An answer releases an open order exactly when it closes the order, the release can be
      saved, every trade of the venue has finally been reported and none is pending again,
      and the venue's total reaches what it says was matched without exceeding the order. */
  lemma ReleasedExactlyWhenAllFinal(v: Venue, history: seq<Action>, matched: int, closed: bool, saved: bool, sent: bool,
                                    maximum: int)
    requires HonestAll(v, history)
    ensures var o := Run(Unreported, history, maximum);
            var now := Step(o, Answer(v.Keys, matched, closed, saved, sent), maximum);
            !o.terminal ==>
              var released := closed && saved && AllFinal(v, o) && matched <= Total(v) <= maximum;
              && (now.verified <==> o.verified || released)
              && (now.terminal <==> released && sent)
              && now == o.(verified := now.verified, terminal := now.terminal)
  {
    RunSound(v, history, maximum);
    var o := Run(Unreported, history, maximum);
    if AllFinal(v, o) {
      FinalTotal(v, o);
    }
  }

  /** The last status that counts for a trade: a confirmation is never taken back, and an
      impossible failure does not count. */
  function Word(history: seq<Action>, id: Id, maximum: int): Option<Status> {
    if history == [] then None
    else
      var was, a := Word(history[..|history| - 1], id, maximum), history[|history| - 1];
      if a.Report? && a.trade.id == id && was != Some(Confirmed) && !(a.status == Failed && a.trade.qty > maximum)
      then Some(a.status) else was
  }

  predicate Clean(history: seq<Action>) {
    forall k :: 0 <= k < |history| && history[k].Report? ==> history[k].saved && history[k].journaled
  }

  ghost predicate WordKept(o: Order, word: Option<Status>, id: Id) {
    && (id in o.pending <==> word.Some? && !Final(word.value))
    && (id in Ids(o.journal) <==> word == Some(Confirmed))
    && (id in o.failed ==> word.Some?) && (word == Some(Failed) ==> id in o.failed)
  }

  /** Without lost writes, an order waits for exactly the trades whose last word is not final. */
  lemma {:induction false} PendingIsTheLastWord(v: Venue, history: seq<Action>, id: Id, maximum: int)
    requires HonestAll(v, history) && Clean(history)
    ensures WordKept(Run(Unreported, history, maximum), Word(history, id, maximum), id)
  {
    if history != [] {
      var prefix, a := history[..|history| - 1], history[|history| - 1];
      PendingIsTheLastWord(v, prefix, id, maximum);
      RunSound(v, prefix, maximum);
      WordStep(v, Run(Unreported, prefix, maximum), a, Word(prefix, id, maximum), id, maximum);
    }
  }

  lemma WordStep(v: Venue, o: Order, a: Action, word: Option<Status>, id: Id, maximum: int)
    requires Sound(v, o) && Honest(v, a) && WordKept(o, word, id)
    requires a.Report? ==> a.saved && a.journaled
    ensures var counts := a.Report? && a.trade.id == id && word != Some(Confirmed)
                          && !(a.status == Failed && a.trade.qty > maximum);
            WordKept(Step(o, a, maximum), if counts then Some(a.status) else word, id)
  {
    if a.Report? {
      IdsPlus(o.journal, a.trade);
    }
  }

  /** So the releasing condition can be read off the reports: the last word on every trade
      is final. A stale match after a failure holds the order back until the failure is
      reported again. */
  lemma ReleasedExactlyOnFinalWords(v: Venue, history: seq<Action>, matched: int, sent: bool, maximum: int)
    requires HonestAll(v, history) && Clean(history) && matched <= Total(v) <= maximum
    ensures var o := Run(Unreported, history, maximum);
            !o.terminal && !o.verified ==>
              (Step(o, Answer(v.Keys, matched, true, true, sent), maximum).verified
               <==> forall k :: k in v ==> Word(history, k, maximum).Some? && Final(Word(history, k, maximum).value))
  {
    ReleasedExactlyWhenAllFinal(v, history, matched, true, true, sent, maximum);
    RunSound(v, history, maximum);
    var o := Run(Unreported, history, maximum);
    forall k
      ensures WordKept(o, Word(history, k, maximum), k)
    {
      PendingIsTheLastWord(v, history, k, maximum);
    }
    if forall k :: k in v ==> Word(history, k, maximum).Some? && Final(Word(history, k, maximum).value) {
      assert forall k :: k in o.pending ==> k in v && WordKept(o, Word(history, k, maximum), k);
      assert o.pending == {};
    }
  }

  lemma StaleMatchHoldsBack(t: Trade)
    requires 0 < t.qty
    ensures var v: Venue := map[t.id := Truth(t.qty, false)];
            var late := [Report(t, Failed, true, true), Report(t, Matched, true, true)];
            var closing := Answer(v.Keys, 0, true, true, true);
            && HonestAll(v, late)
            && !Step(Run(Unreported, late, t.qty), closing, t.qty).verified
            && Step(Run(Unreported, late[..1], t.qty), closing, t.qty).verified
  {
    var late := [Report(t, Failed, true, true), Report(t, Matched, true, true)];
    var one := Run(Unreported, late[..1], t.qty);
    assert late[..1] == [late[0]] && [late[0]][..0] == [];
    assert Run(Unreported, [], t.qty) == Unreported;
    assert one == Step(Unreported, late[0], t.qty);
    assert one == Unreported.(failed := map[t.id := t.qty]);
    assert Ids(one.journal) == {};
    assert Open(one.failed, {}) == map[t.id := t.qty];
    SumWithout(Open(one.failed, {}), t.id);
    assert Open(one.failed, {}) - {t.id} == map[];
    assert Settles(one, {t.id}, 0, true, t.qty);
    assert Run(Unreported, late, t.qty).pending == {t.id};
  }
}
