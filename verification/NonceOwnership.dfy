/** One signing account shared by claim redemptions and adapter approvals: durable
    signed transactions own its nonce, across crashes and cancellations at every await. */
module NonceOwnership {
  import opened Arith

  /** A signed transaction; its bytes are opaque. */
  datatype Tx = Tx(nonce: nat, raw: string)

  datatype ClaimState = Identified | Retry | Submitted | Confirmed | Failed | Credited

  datatype Claim = Claim(state: ClaimState, tx: Option<Tx>)

  datatype ApprovalStatus = Active | Complete | Stopped

  /** Which adapters are still to be approved, and the transaction that is out. */
  datatype Approval = Approval(status: ApprovalStatus, remaining: seq<bool>, pending: Option<Tx>)

  datatype Owner = ClaimOwner(key: string) | ApprovalOwner

  /** Who holds the account mutex, and how far a claim has come under it. */
  datatype Holder = Free | ClaimHolds(key: string, preparing: bool) | ApprovalHolds

  datatype Outcome = Pending | Approved | Reverted | Paid(matches: bool)

  datatype Account = Account(
    claims: map<string, Claim>,
    approval: Option<Approval>,
    floor: Option<nat>,
    holder: Holder,
    adopted: seq<Tx>,     // every transaction made durable, in order
    broadcasts: seq<Tx>)  // every submission to the network, in order

  // ------------------------------------------------------------ ownership checks

  /** Who owns the account's nonce: submitted claims, and an active approval even
      before it has a transaction. */
  predicate IsOwner(a: Account, o: Owner) {
    match o
    case ClaimOwner(k) => k in a.claims && a.claims[k].state == Submitted
    case ApprovalOwner => a.approval.Some? && a.approval.value.status == Active
  }

  function OwnerTx(a: Account, o: Owner): Option<Tx>
    requires IsOwner(a, o)
  {
    match o
    case ClaimOwner(k) => a.claims[k].tx
    case ApprovalOwner => a.approval.value.pending
  }

  /** Nobody else owns the account. */
  predicate MayPrepare(a: Account, me: Owner) {
    && (forall k :: k in a.claims && IsOwner(a, ClaimOwner(k)) ==> ClaimOwner(k) == me)
    && (IsOwner(a, ApprovalOwner) ==> me == ApprovalOwner)
  }

  predicate NoConflict(other: Option<Tx>, tx: Tx) { other.Some? && other.value.nonce != tx.nonce }

  /** Every other owner has a transaction, with another nonce. */
  predicate MaySend(a: Account, me: Owner, tx: Tx) {
    && (forall k :: k in a.claims && IsOwner(a, ClaimOwner(k)) && ClaimOwner(k) != me ==>
          NoConflict(OwnerTx(a, ClaimOwner(k)), tx))
    && (IsOwner(a, ApprovalOwner) && me != ApprovalOwner ==> NoConflict(OwnerTx(a, ApprovalOwner), tx))
  }

  /** A freshly signed nonce must lie above every nonce known to be consumed. */
  predicate AboveFloor(floor: Option<nat>, tx: Tx) { floor.Some? ==> tx.nonce > floor.value }

  function Consume(floor: Option<nat>, tx: Tx): Option<nat> {
    Some(if floor.Some? && floor.value >= tx.nonce then floor.value else tx.nonce)
  }

  // ------------------------------------------------------------ steps

  datatype Action =
    | Identify(key: string)
    | LockClaim(key: string)
    | BeginPrepare
      // The signed result arrives, also when the waiting task was cancelled meanwhile.
    | AdoptClaim(tx: Tx)
    | ClaimReceipt(outcome: Outcome)
    | Settle(key: string)
    | LockApproval
    | StartApproval(missing: seq<bool>)
    | SkipApproved
    | AdoptApproval(tx: Tx)
    | SendApproval
    | ApprovalReceipt(outcome: Outcome)
    | FailPreparation
    | CompleteApproval
      // The mutex is released: a normal return, an error, a cancellation or a crash.
    | Leave

  predicate HeldClaim(a: Account, state: ClaimState) {
    a.holder.ClaimHolds? && a.holder.key in a.claims && a.claims[a.holder.key].state == state
  }

  predicate ActiveApproval(a: Account) {
    a.holder == ApprovalHolds && a.approval.Some? && a.approval.value.status == Active
  }

  predicate Enabled(a: Account, x: Action) {
    match x
    case Identify(k) => k !in a.claims
    case LockClaim(k) => a.holder == Free && k in a.claims
    case BeginPrepare =>
      && (HeldClaim(a, Identified) || HeldClaim(a, Retry)) && !a.holder.preparing
      && MayPrepare(a, ClaimOwner(a.holder.key))
    case AdoptClaim(tx) => a.holder.ClaimHolds? && a.holder.preparing && AboveFloor(a.floor, tx)
    case ClaimReceipt(outcome) =>
      && HeldClaim(a, Submitted) && a.claims[a.holder.key].tx.Some?
      && (outcome == Pending ==> MaySend(a, ClaimOwner(a.holder.key), a.claims[a.holder.key].tx.value))
    case Settle(k) => k in a.claims && a.claims[k].state == Confirmed
    case LockApproval => a.holder == Free
    case StartApproval(_) =>
      && a.holder == ApprovalHolds && MayPrepare(a, ApprovalOwner)
      && !(a.approval.Some? && a.approval.value.status == Active)
    case SkipApproved => ActiveApproval(a) && a.approval.value.pending.None? && a.approval.value.remaining != []
    case AdoptApproval(tx) =>
      && ActiveApproval(a) && a.approval.value.pending.None? && a.approval.value.remaining != []
      && MayPrepare(a, ApprovalOwner) && AboveFloor(a.floor, tx)
    case SendApproval =>
      && ActiveApproval(a) && a.approval.value.pending.Some?
      && MaySend(a, ApprovalOwner, a.approval.value.pending.value)
    case ApprovalReceipt(outcome) =>
      && ActiveApproval(a) && a.approval.value.pending.Some? && (outcome == Approved || outcome == Reverted)
      && a.approval.value.remaining != []
    case FailPreparation => ActiveApproval(a) && a.approval.value.pending.None? && MayPrepare(a, ApprovalOwner)
    case CompleteApproval => ActiveApproval(a) && a.approval.value.pending.None? && a.approval.value.remaining == []
    case Leave => true
  }

  function WithClaim(a: Account, key: string, claim: Claim): Account { a.(claims := a.claims[key := claim]) }

  /** A claim after a final receipt; the transaction's record stays except when the
      approval it needed went through and it is prepared again. */
  function AfterReceipt(claim: Claim, outcome: Outcome): Claim {
    match outcome
    case Pending => claim
    case Approved => Claim(Identified, None)
    case Reverted => claim.(state := Failed)
    case Paid(matches) => claim.(state := if matches then Confirmed else Failed)
  }

  function Step(a: Account, x: Action): Account
    requires Enabled(a, x)
  {
    match x
    case Identify(k) => WithClaim(a, k, Claim(Identified, None))
    case LockClaim(k) => a.(holder := ClaimHolds(k, false))
    case BeginPrepare => a.(holder := ClaimHolds(a.holder.key, true))
    case AdoptClaim(tx) =>
      WithClaim(a, a.holder.key, Claim(Submitted, Some(tx)))
        .(holder := ClaimHolds(a.holder.key, false), adopted := a.adopted + [tx])
    case ClaimReceipt(outcome) =>
      var claim := a.claims[a.holder.key];
      if outcome == Pending then a.(broadcasts := a.broadcasts + [claim.tx.value])
      else WithClaim(a, a.holder.key, AfterReceipt(claim, outcome)).(floor := Consume(a.floor, claim.tx.value))
    case Settle(k) => WithClaim(a, k, a.claims[k].(state := Credited))
    case LockApproval => a.(holder := ApprovalHolds)
    case StartApproval(missing) =>
      a.(approval := Some(Approval(if missing == [] then Complete else Active, missing, None)))
    case SkipApproved => a.(approval := Some(a.approval.value.(remaining := a.approval.value.remaining[1..])))
    case AdoptApproval(tx) =>
      a.(approval := Some(a.approval.value.(pending := Some(tx))), adopted := a.adopted + [tx])
    case SendApproval => a.(broadcasts := a.broadcasts + [a.approval.value.pending.value])
    case ApprovalReceipt(outcome) =>
      var record := a.approval.value;
      a.(approval := Some(if outcome == Reverted then record.(status := Stopped)
                          else record.(pending := None, remaining := record.remaining[1..])),
         floor := Consume(a.floor, record.pending.value))
    case FailPreparation => a.(approval := Some(a.approval.value.(status := Stopped)))
    case CompleteApproval => a.(approval := Some(a.approval.value.(status := Complete)))
    case Leave => a.(holder := Free)
  }

  const Fresh := Account(map[], None, None, Free, [], [])

  // ------------------------------------------------------------ the account object

  /** The durable record and the mutex, changed in place one atomic segment at a time. */
  class Ledger {
    var claims: map<string, Claim>
    var approval: Option<Approval>
    var floor: Option<nat>
    var holder: Holder
    ghost var adopted: seq<Tx>
    ghost var broadcasts: seq<Tx>

    ghost function State(): Account
      reads this
    {
      Account(claims, approval, floor, holder, adopted, broadcasts)
    }

    constructor ()
      ensures State() == Fresh
    {
      claims, approval, floor, holder, adopted, broadcasts := map[], None, None, Free, [], [];
    }

    /** What the ownership checks read. */
    function Seen(): Account
      reads this
    {
      Account(claims, approval, floor, holder, [], [])
    }

    /** The owner check before anything is signed; refusing leaves everything as it was. */
    method TryBeginPrepare() returns (ok: bool)
      requires holder.ClaimHolds? && !holder.preparing && holder.key in claims
      requires claims[holder.key].state in {Identified, Retry}
      modifies this`holder
      ensures ok <==> old(Enabled(State(), BeginPrepare))
      ensures State() == if ok then Step(old(State()), BeginPrepare) else old(State())
      ensures old(Safe(State())) ==> Safe(State())
    {
      hide Safe;
      SafeNext(State(), BeginPrepare);
      ok := MayPrepare(Seen(), ClaimOwner(holder.key));
      if ok {
        holder := ClaimHolds(holder.key, true);
      }
    }

    /** Adoption of a signed transaction. A nonce at or below the floor, or a save
        that fails, leaves the claim as it was and the mutex is given up. */
    method Adopt(tx: Tx, saves: bool) returns (ok: bool)
      requires holder.ClaimHolds? && holder.preparing
      modifies this
      ensures ok <==> saves && old(Enabled(State(), AdoptClaim(tx)))
      ensures State() == Step(old(State()), if ok then AdoptClaim(tx) else Leave)
      ensures old(Safe(State())) ==> Safe(State())
    {
      hide Safe;
      SafeNext(State(), AdoptClaim(tx));
      SafeNext(State(), Leave);
      if !AboveFloor(floor, tx) || !saves {
        holder := Free;
        return false;
      }
      claims := claims[holder.key := Claim(Submitted, Some(tx))];
      holder := ClaimHolds(holder.key, false);
      adopted := adopted + [tx];
      ok := true;
    }

    /** What a receipt query means for the held claim: no receipt yet sends the same
        bytes again, a final one consumes the nonce together with the claim's change. */
    method OnClaimReceipt(outcome: Outcome, saves: bool) returns (ok: bool)
      requires HeldClaim(State(), Submitted) && claims[holder.key].tx.Some?
      modifies this
      ensures ok <==> old(Enabled(State(), ClaimReceipt(outcome))) && (outcome == Pending || saves)
      ensures State() == if ok then Step(old(State()), ClaimReceipt(outcome)) else old(State())
      ensures holder == old(holder) && holder.key in claims
      ensures ok && outcome != Pending ==>
                var claim := claims[holder.key];
                && (claim.state == Confirmed <==> outcome == Paid(true))
                && (claim.state == Failed <==> outcome == Reverted || outcome == Paid(false))
                && (claim.state == Identified <==> outcome == Approved)
                && claim.tx == (if outcome == Approved then None else old(claims)[holder.key].tx)
                && floor.Some? && old(claims)[holder.key].tx.value.nonce <= floor.value
      ensures !(ok && outcome != Pending) ==> claims == old(claims)
      ensures old(Safe(State())) ==> Safe(State())
    {
      hide Safe;
      SafeNext(State(), ClaimReceipt(outcome));
      var claim := claims[holder.key];
      var tx := claim.tx.value;
      if outcome == Pending {
        if !MaySend(Seen(), ClaimOwner(holder.key), tx) {
          return false;
        }
        broadcasts := broadcasts + [tx];
        return true;
      }
      if !saves {
        return false;
      }
      match outcome {
        case Approved => claim := Claim(Identified, None);
        case Reverted => claim := claim.(state := Failed);
        case Paid(matches) => claim := claim.(state := if matches then Confirmed else Failed);
      }
      claims := claims[holder.key := claim];
      floor := Consume(floor, tx);
      ok := true;
    }

    /** A new approval may start only when no claim owns the account. */
    method TryStartApproval(missing: seq<bool>) returns (ok: bool)
      requires holder == ApprovalHolds && !(approval.Some? && approval.value.status == Active)
      modifies this`approval
      ensures ok <==> old(Enabled(State(), StartApproval(missing)))
      ensures State() == if ok then Step(old(State()), StartApproval(missing)) else old(State())
      ensures ok ==>
                && approval.Some? && approval.value.remaining == missing && approval.value.pending == None
                && approval.value.status == if missing == [] then Complete else Active
      ensures old(Safe(State())) ==> Safe(State())
    {
      hide Safe;
      SafeNext(State(), StartApproval(missing));
      ok := MayPrepare(Seen(), ApprovalOwner);
      if ok {
        approval := Some(Approval(if missing == [] then Complete else Active, missing, None));
      }
    }

    method TryAdoptApproval(tx: Tx) returns (ok: bool)
      requires ActiveApproval(State()) && approval.value.pending.None? && approval.value.remaining != []
      modifies this`approval, this`adopted
      ensures ok <==> old(Enabled(State(), AdoptApproval(tx)))
      ensures State() == if ok then Step(old(State()), AdoptApproval(tx)) else old(State())
      ensures old(Safe(State())) ==> Safe(State())
    {
      hide Safe;
      SafeNext(State(), AdoptApproval(tx));
      ok := MayPrepare(Seen(), ApprovalOwner) && AboveFloor(floor, tx);
      if ok {
        approval := Some(approval.value.(pending := Some(tx)));
        adopted := adopted + [tx];
      }
    }

    method OnApprovalReceipt(approved: bool)
      requires Enabled(State(), ApprovalReceipt(if approved then Approved else Reverted))
      modifies this`approval, this`floor
      ensures State() == Step(old(State()), ApprovalReceipt(if approved then Approved else Reverted))
      ensures approval.Some? && floor.Some? && old(approval).value.pending.value.nonce <= floor.value
      ensures var was, now := old(approval).value, approval.value;
              && (approved ==> now.status == Active && now.pending == None && was.remaining == [was.remaining[0]] + now.remaining)
              && (!approved ==> now.status == Stopped && now.pending == was.pending && now.remaining == was.remaining)
      ensures old(Safe(State())) ==> Safe(State())
    {
      hide Safe;
      SafeNext(State(), ApprovalReceipt(if approved then Approved else Reverted));
      var record := approval.value;
      floor := Consume(floor, record.pending.value);
      if approved {
        approval := Some(record.(pending := None, remaining := record.remaining[1..]));
      } else {
        approval := Some(record.(status := Stopped));
      }
    }
  }

  // ------------------------------------------------------------ what every run keeps

  ghost predicate Increasing(txs: seq<Tx>) {
    forall i, j :: 0 <= i < j < |txs| ==> txs[i].nonce < txs[j].nonce
  }

  /** The transaction owns the account. */
  ghost predicate Owns(a: Account, tx: Tx) { exists o :: IsOwner(a, o) && OwnerTx(a, o) == Some(tx) }

  ghost predicate OneOwner(a: Account) { forall o, p :: IsOwner(a, o) && IsOwner(a, p) ==> o == p }

  ghost predicate NoOwner(a: Account) { forall o :: !IsOwner(a, o) }

  ghost predicate ClaimsSigned(a: Account) {
    forall k :: k in a.claims && a.claims[k].state == Submitted ==> a.claims[k].tx.Some?
  }

  /** The nonce is settled for everything adopted but the owner's transaction, which is the last. */
  ghost predicate NoncesSettled(a: Account) {
    && Increasing(a.adopted)
    && (forall tx :: tx in a.adopted ==> Owns(a, tx) || (a.floor.Some? && tx.nonce <= a.floor.value))
    && (forall tx :: Owns(a, tx) ==> |a.adopted| > 0 && tx == a.adopted[|a.adopted| - 1] && AboveFloor(a.floor, tx))
  }

  /** Under the mutex a preparing claim has no rival. */
  ghost predicate PreparingAlone(a: Account) {
    a.holder.ClaimHolds? && a.holder.preparing ==>
      a.holder.key in a.claims && a.claims[a.holder.key].state in {Identified, Retry} && NoOwner(a)
  }

  /** Every submission was of an adopted transaction, in nonce order. */
  ghost predicate SubmissionsOrdered(a: Account) {
    && (forall i :: 0 <= i < |a.broadcasts| ==> a.broadcasts[i] in a.adopted)
    && (forall i, j :: 0 <= i < j < |a.broadcasts| ==> a.broadcasts[i].nonce <= a.broadcasts[j].nonce)
  }

  ghost predicate Safe(a: Account) {
    OneOwner(a) && ClaimsSigned(a) && NoncesSettled(a) && PreparingAlone(a) && SubmissionsOrdered(a)
  }

  /** Ownership is the same in both accounts, and so is everything about nonces. */
  ghost predicate SameOwnership(a: Account, b: Account) {
    && (forall o :: IsOwner(a, o) <==> IsOwner(b, o))
    && (forall o :: IsOwner(a, o) ==> OwnerTx(a, o) == OwnerTx(b, o))
    && b.adopted == a.adopted && b.floor == a.floor && b.broadcasts == a.broadcasts
  }

  lemma UnrelatedStep(a: Account, b: Account)
    requires Safe(a) && SameOwnership(a, b) && ClaimsSigned(b) && PreparingAlone(b)
    ensures Safe(b)
  {
    forall tx
      ensures Owns(b, tx) <==> Owns(a, tx)
    {
    }
  }

  /** Only this owner can exist, with this transaction. */
  ghost predicate OnlyOwner(a: Account, me: Owner, tx: Option<Tx>) {
    forall o :: IsOwner(a, o) ==> o == me && OwnerTx(a, o) == tx
  }

  /** Making a transaction above the floor durable when nobody else owns the account. */
  lemma AdoptionSafe(a: Account, b: Account, me: Owner, tx: Tx)
    requires Safe(a) && AboveFloor(a.floor, tx) && OnlyOwner(a, me, None)
    requires IsOwner(b, me) && OnlyOwner(b, me, Some(tx)) && ClaimsSigned(b)
    requires b.adopted == a.adopted + [tx] && b.floor == a.floor && b.broadcasts == a.broadcasts
    requires b.holder.ClaimHolds? ==> !b.holder.preparing
    ensures Safe(b)
  {
    forall past | past in a.adopted
      ensures a.floor.Some? && past.nonce <= a.floor.value && past.nonce < tx.nonce
    {
      assert !Owns(a, past);
    }
    assert Owns(b, tx);
  }

  /** Consuming the owner's nonce while the owner lets go of the account or prepares again. */
  lemma ConsumptionSafe(a: Account, b: Account, me: Owner, tx: Tx)
    requires Safe(a) && IsOwner(a, me) && OwnerTx(a, me) == Some(tx)
    requires OnlyOwner(b, me, None) && ClaimsSigned(b)
    requires b.floor == Consume(a.floor, tx) && b.adopted == a.adopted && b.broadcasts == a.broadcasts
    requires b.holder.ClaimHolds? ==> !b.holder.preparing
    ensures Safe(b)
  {
    forall t | t in a.adopted
      ensures t.nonce <= b.floor.value
    {
      if Owns(a, t) {
        assert t == tx;
      }
    }
  }

  /** Sending the owner's own bytes is allowed and keeps the order of submissions. */
  lemma SubmissionSafe(a: Account, me: Owner, tx: Tx)
    requires Safe(a) && IsOwner(a, me) && OwnerTx(a, me) == Some(tx)
    ensures Safe(a.(broadcasts := a.broadcasts + [tx])) && MaySend(a, me, tx)
    ensures tx in a.adopted && AboveFloor(a.floor, tx)
  {
    var b := a.(broadcasts := a.broadcasts + [tx]);
    assert Owns(a, tx);
    forall i | 0 <= i < |a.broadcasts|
      ensures a.broadcasts[i].nonce <= tx.nonce
    {
      var k :| 0 <= k < |a.adopted| && a.adopted[k] == a.broadcasts[i];
    }
    forall o
      ensures IsOwner(a, o) <==> IsOwner(b, o)
      ensures IsOwner(a, o) ==> OwnerTx(a, o) == OwnerTx(b, o)
    {
    }
    forall t
      ensures Owns(b, t) <==> Owns(a, t)
    {
    }
  }

  /** Changing one claim leaves the ownership of everyone else as it was. */
  lemma ClaimChanged(a: Account, b: Account, k: string, claim: Claim)
    requires OneOwner(a) && (IsOwner(a, ClaimOwner(k)) || NoOwner(a))
    requires b.claims == a.claims[k := claim] && b.approval == a.approval
    ensures if claim.state == Submitted then IsOwner(b, ClaimOwner(k)) && OnlyOwner(b, ClaimOwner(k), claim.tx)
            else OnlyOwner(b, ClaimOwner(k), None)
  {
    forall o | IsOwner(b, o)
      ensures o == ClaimOwner(k)
    {
      if o != ClaimOwner(k) {
        assert IsOwner(a, o);
      }
    }
  }

  lemma ApprovalChanged(a: Account, b: Account)
    requires OneOwner(a) && (IsOwner(a, ApprovalOwner) || NoOwner(a))
    requires b.claims == a.claims && b.approval.Some?
    ensures OnlyOwner(b, ApprovalOwner, if b.approval.value.status == Active then b.approval.value.pending else None)
  {
    forall o | IsOwner(b, o)
      ensures o == ApprovalOwner
    {
      if o != ApprovalOwner {
        assert IsOwner(a, o);
      }
    }
  }

  predicate ClaimAction(x: Action) {
    x.Identify? || x.LockClaim? || x.BeginPrepare? || x.AdoptClaim? || x.ClaimReceipt? || x.Settle? || x.Leave?
  }

  /** Steps that change a claim without touching ownership, and the mutex. */
  lemma QuietClaimStepSafe(a: Account, x: Action)
    requires Safe(a) && Enabled(a, x)
    requires x.Identify? || x.LockClaim? || x.BeginPrepare? || x.Settle? || x.Leave?
    ensures Safe(Step(a, x))
  {
    var b := Step(a, x);
    forall o
      ensures IsOwner(a, o) <==> IsOwner(b, o)
      ensures IsOwner(a, o) ==> OwnerTx(a, o) == OwnerTx(b, o)
    {
    }
    if x.BeginPrepare? {
      forall o
        ensures !IsOwner(a, o)
      {
        assert o.ClaimOwner? ==> !IsOwner(a, o);
      }
    }
    UnrelatedStep(a, b);
  }

  lemma ClaimStepSafe(a: Account, x: Action)
    requires Safe(a) && Enabled(a, x) && ClaimAction(x)
    ensures Safe(Step(a, x))
  {
    var b := Step(a, x);
    match x {
      case AdoptClaim(tx) =>
        var k := a.holder.key;
        ClaimChanged(a, b, k, Claim(Submitted, Some(tx)));
        AdoptionSafe(a, b, ClaimOwner(k), tx);
      case ClaimReceipt(outcome) =>
        var k := a.holder.key;
        var claim := a.claims[k];
        assert IsOwner(a, ClaimOwner(k)) && OwnerTx(a, ClaimOwner(k)) == claim.tx;
        if outcome == Pending {
          SubmissionSafe(a, ClaimOwner(k), claim.tx.value);
        } else {
          ClaimChanged(a, b, k, AfterReceipt(claim, outcome));
          ConsumptionSafe(a, b, ClaimOwner(k), claim.tx.value);
        }
      case _ => QuietClaimStepSafe(a, x);
    }
  }

  lemma ApprovalStepSafe(a: Account, x: Action)
    requires Safe(a) && Enabled(a, x) && !ClaimAction(x)
    ensures Safe(Step(a, x))
  {
    var b := Step(a, x);
    if x.LockApproval? {
      forall o
        ensures IsOwner(a, o) <==> IsOwner(b, o)
        ensures IsOwner(a, o) ==> OwnerTx(a, o) == OwnerTx(b, o)
      {
      }
      UnrelatedStep(a, b);
    } else if x.SendApproval? {
      SubmissionSafe(a, ApprovalOwner, a.approval.value.pending.value);
    } else if x.StartApproval? {
      forall o
        ensures !IsOwner(a, o)
      {
        assert o.ClaimOwner? ==> !IsOwner(a, o);
      }
      ApprovalChanged(a, b);
      NoTransactionOwner(a, b);
    } else {
      assert IsOwner(a, ApprovalOwner) && OwnerTx(a, ApprovalOwner) == a.approval.value.pending;
      ApprovalChanged(a, b);
      match x {
        case AdoptApproval(tx) => AdoptionSafe(a, b, ApprovalOwner, tx);
        case ApprovalReceipt(_) => ConsumptionSafe(a, b, ApprovalOwner, a.approval.value.pending.value);
        case _ => NoTransactionOwner(a, b);
      }
    }
  }

  /** No transaction owned the account before and none does after. */
  lemma NoTransactionOwner(a: Account, b: Account)
    requires Safe(a) && a.holder == b.holder == ApprovalHolds && b.claims == a.claims
    requires OnlyOwner(a, ApprovalOwner, None) && OnlyOwner(b, ApprovalOwner, None)
    requires b.adopted == a.adopted && b.floor == a.floor && b.broadcasts == a.broadcasts
    ensures Safe(b)
  {
    forall tx
      ensures !Owns(a, tx) && !Owns(b, tx)
    {
    }
  }

  lemma StepSafe(a: Account, x: Action)
    requires Safe(a) && Enabled(a, x)
    ensures Safe(Step(a, x))
  {
    if ClaimAction(x) {
      ClaimStepSafe(a, x);
    } else {
      ApprovalStepSafe(a, x);
    }
  }

  lemma SafeNext(a: Account, x: Action)
    ensures Safe(a) && Enabled(a, x) ==> Safe(Step(a, x))
  {
    hide Safe;
    if Safe(a) && Enabled(a, x) {
      StepSafe(a, x);
    }
  }

  predicate Possible(a: Account, run: seq<Action>)
    decreases |run|
  {
    run == [] || (Enabled(a, run[0]) && Possible(Step(a, run[0]), run[1..]))
  }

  function Run(a: Account, run: seq<Action>): Account
    requires Possible(a, run)
    decreases |run|
  {
    if run == [] then a else Run(Step(a, run[0]), run[1..])
  }

  lemma {:induction false} RunSafe(a: Account, run: seq<Action>)
    requires Safe(a) && Possible(a, run)
    ensures Safe(Run(a, run))
    decreases |run|
  {
    if run != [] {
      StepSafe(a, run[0]);
      RunSafe(Step(a, run[0]), run[1..]);
    }
  }

  // ------------------------------------------------------------ what a final state tells

  lemma {:induction false} RunLast(a: Account, run: seq<Action>)
    requires run != [] && Possible(a, run)
    ensures var prefix := run[..|run| - 1];
            && Possible(a, prefix) && Enabled(Run(a, prefix), run[|run| - 1])
            && Run(a, run) == Step(Run(a, prefix), run[|run| - 1])
    decreases |run|
  {
    hide Enabled, Step;
    if |run| > 1 {
      RunLast(Step(a, run[0]), run[1..]);
      assert run[..|run| - 1][1..] == run[1..][..|run| - 2];
    }
  }

  /** Whether a receipt of this outcome puts a claim into this state, settled later or not. */
  predicate Leads(outcome: Outcome, state: ClaimState) {
    match state
    case Confirmed => outcome == Paid(true)
    case Credited => outcome == Paid(true)
    case Failed => outcome == Reverted || outcome == Paid(false)
    case _ => false
  }

  /** At this point of the run a final receipt of the claim's transaction arrived. */
  ghost predicate ReceivedAt(run: seq<Action>, i: nat, key: string, tx: Tx, state: ClaimState) {
    && i < |run| && run[i].ClaimReceipt? && Leads(run[i].outcome, state)
    && Possible(Fresh, run[..i])
    && var a := Run(Fresh, run[..i]);
       HeldClaim(a, Submitted) && a.holder.key == key && a.claims[key].tx == Some(tx)
  }

  ghost predicate Told(run: seq<Action>, key: string, claim: Claim) {
    claim.state in {Confirmed, Credited, Failed} ==>
      claim.tx.Some? && exists i: nat :: ReceivedAt(run, i, key, claim.tx.value, claim.state)
  }

  lemma StaysTold(run: seq<Action>, key: string, claim: Claim, now: ClaimState)
    requires run != [] && Told(run[..|run| - 1], key, claim)
    requires claim.state == now || (claim.state == Confirmed && now == Credited)
    ensures Told(run, key, claim.(state := now))
  {
    if now in {Confirmed, Credited, Failed} {
      var prefix := run[..|run| - 1];
      var i: nat :| ReceivedAt(prefix, i, key, claim.tx.value, claim.state);
      assert prefix[..i] == run[..i];
      assert ReceivedAt(run, i, key, claim.tx.value, now);
    }
  }

  lemma {:induction false} ClaimsTold(run: seq<Action>, key: string)
    requires Possible(Fresh, run) && key in Run(Fresh, run).claims
    ensures Told(run, key, Run(Fresh, run).claims[key])
    decreases |run|
  {
    hide Enabled, Told;
    if run != [] {
      var prefix, x := run[..|run| - 1], run[|run| - 1];
      RunLast(Fresh, run);
      var a, b := Run(Fresh, prefix), Run(Fresh, run);
      if key in a.claims {
        ClaimsTold(prefix, key);
      }
      ClaimMoves(a, x, key);
      if key in a.claims && (b.claims[key] == a.claims[key] || x == Settle(key)) {
        StaysTold(run, key, a.claims[key], b.claims[key].state);
      } else {
        JustTold(run, key);
      }
    }
  }

  /** A step leaves a claim alone, settles it, or is its own receipt, signing or discovery. */
  lemma ClaimMoves(a: Account, x: Action, key: string)
    requires Enabled(a, x) && key in Step(a, x).claims
    ensures var c := Step(a, x).claims[key];
            || (key in a.claims && c == a.claims[key])
            || (x == Settle(key) && key in a.claims && a.claims[key].state == Confirmed
                && c == a.claims[key].(state := Credited))
            || (a.holder.ClaimHolds? && a.holder.key == key && x.AdoptClaim? && c.state == Submitted)
            || c == Claim(Identified, None)
            || (HeldClaim(a, Submitted) && a.holder.key == key && x.ClaimReceipt? && Leads(x.outcome, c.state)
                && a.claims[key].tx.Some? && c.tx == a.claims[key].tx)
  {
  }

  lemma JustTold(run: seq<Action>, key: string)
    requires run != [] && Possible(Fresh, run) && Possible(Fresh, run[..|run| - 1]) && key in Run(Fresh, run).claims
    requires var a, x, c := Run(Fresh, run[..|run| - 1]), run[|run| - 1], Run(Fresh, run).claims[key];
             || (HeldClaim(a, Submitted) && a.holder.key == key && x.ClaimReceipt? && Leads(x.outcome, c.state)
                 && a.claims[key].tx.Some? && c.tx == a.claims[key].tx)
             || c.state in {Identified, Submitted}
    ensures Told(run, key, Run(Fresh, run).claims[key])
  {
    var c := Run(Fresh, run).claims[key];
    if c.state in {Confirmed, Credited, Failed} {
      assert ReceivedAt(run, |run| - 1, key, c.tx.value, c.state);
    }
  }

  /** Only a receipt that paid the amount due confirms a claim, and only a confirmed one is
      credited: over every run there is such a receipt for the transaction the claim adopted. */
  lemma CreditedWasPaid(run: seq<Action>, key: string) returns (i: nat)
    requires Possible(Fresh, run) && key in Run(Fresh, run).claims
    requires Run(Fresh, run).claims[key].state in {Confirmed, Credited}
    ensures var claim := Run(Fresh, run).claims[key];
            && i < |run| && run[i] == ClaimReceipt(Paid(true)) && claim.tx.Some?
            && Possible(Fresh, run[..i])
            && var a := Run(Fresh, run[..i]);
               && a.holder.ClaimHolds? && a.holder.key == key && key in a.claims
               && a.claims[key] == Claim(Submitted, claim.tx) && claim.tx.value in a.adopted
  {
    ClaimsTold(run, key);
    var claim := Run(Fresh, run).claims[key];
    i :| ReceivedAt(run, i, key, claim.tx.value, claim.state);
    OwnerAdopted(run[..i], key);
  }

  /** A failed claim had a receipt that reverted or did not pay the amount due. */
  lemma FailedWasNotPaid(run: seq<Action>, key: string) returns (i: nat)
    requires Possible(Fresh, run) && key in Run(Fresh, run).claims && Run(Fresh, run).claims[key].state == Failed
    ensures var claim := Run(Fresh, run).claims[key];
            && i < |run| && (run[i] == ClaimReceipt(Reverted) || run[i] == ClaimReceipt(Paid(false))) && claim.tx.Some?
            && Possible(Fresh, run[..i])
            && var a := Run(Fresh, run[..i]);
               && a.holder.ClaimHolds? && a.holder.key == key && key in a.claims
               && a.claims[key] == Claim(Submitted, claim.tx) && claim.tx.value in a.adopted
  {
    ClaimsTold(run, key);
    var claim := Run(Fresh, run).claims[key];
    i :| ReceivedAt(run, i, key, claim.tx.value, claim.state);
    OwnerAdopted(run[..i], key);
  }

  lemma OwnerAdopted(run: seq<Action>, key: string)
    requires Possible(Fresh, run) && IsOwner(Run(Fresh, run), ClaimOwner(key))
    ensures var a := Run(Fresh, run);
            a.claims[key].tx.Some? && a.claims[key].tx.value in a.adopted
  {
    assert Safe(Fresh);
    RunSafe(Fresh, run);
    var a := Run(Fresh, run);
    SubmissionSafe(a, ClaimOwner(key), a.claims[key].tx.value);
  }

  /** Adapters approved or found approved in a stretch of a run. */
  function Advances(run: seq<Action>): nat {
    if run == [] then 0
    else
      var x := run[|run| - 1];
      Advances(run[..|run| - 1]) + if x == ApprovalReceipt(Approved) || x == SkipApproved then 1 else 0
  }

  /** What the last start of an approval was asked for, and how far it has come since. */
  ghost predicate ProgressSince(run: seq<Action>, i: nat, record: Approval) {
    && i < |run| && run[i].StartApproval?
    && (forall k :: i < k < |run| ==> !run[k].StartApproval?)
    && |run[i].missing| == |record.remaining| + Advances(run[i + 1..])
    && record.remaining == run[i].missing[|run[i].missing| - |record.remaining|..]
  }

  lemma OneMoreAction(run: seq<Action>, i: nat)
    requires i + 1 < |run|
    ensures Advances(run[i + 1..]) == Advances(run[..|run| - 1][i + 1..])
              + if run[|run| - 1] == ApprovalReceipt(Approved) || run[|run| - 1] == SkipApproved then 1 else 0
  {
    assert run[i + 1..][..|run| - i - 2] == run[..|run| - 1][i + 1..];
  }

  lemma ApprovalMoves(a: Account, x: Action)
    requires Enabled(a, x) && Step(a, x).approval.Some? && !x.StartApproval?
    ensures a.approval.Some?
    ensures var was, now := a.approval.value.remaining, Step(a, x).approval.value.remaining;
            if x == ApprovalReceipt(Approved) || x == SkipApproved then was != [] && now == was[1..] else now == was
  {
  }

  lemma {:induction false} ApprovalProgress(run: seq<Action>) returns (i: nat)
    requires Possible(Fresh, run) && Run(Fresh, run).approval.Some?
    ensures ProgressSince(run, i, Run(Fresh, run).approval.value)
    decreases |run|
  {
    hide Enabled, Step;
    var prefix, x := run[..|run| - 1], run[|run| - 1];
    RunLast(Fresh, run);
    var a := Run(Fresh, prefix);
    if x.StartApproval? {
      StartedApproval(a, x);
      i := |run| - 1;
      assert run[i + 1..] == [];
    } else {
      ApprovalMoves(a, x);
      i := ApprovalProgress(prefix);
      OneMoreAction(run, i);
      assert run[i] == prefix[i];
    }
  }

  lemma StartedApproval(a: Account, x: Action)
    requires Enabled(a, x) && x.StartApproval?
    ensures Step(a, x).approval.Some? && Step(a, x).approval.value.remaining == x.missing
  {
  }

  lemma {:induction false} CompleteIsEmpty(run: seq<Action>)
    requires Possible(Fresh, run)
    ensures var a := Run(Fresh, run);
            a.approval.Some? && a.approval.value.status == Complete ==> a.approval.value.remaining == []
    decreases |run|
  {
    if run != [] {
      RunLast(Fresh, run);
      CompleteIsEmpty(run[..|run| - 1]);
    }
  }

  /** An approval is complete only when every adapter it was started for was approved by a
      receipt of its own or found approved, since that start. */
  lemma CompleteMeansApproved(run: seq<Action>) returns (i: nat)
    requires Possible(Fresh, run)
    requires Run(Fresh, run).approval.Some? && Run(Fresh, run).approval.value.status == Complete
    ensures i < |run| && run[i].StartApproval? && (forall k :: i < k < |run| ==> !run[k].StartApproval?)
    ensures Advances(run[i + 1..]) == |run[i].missing|
  {
    CompleteIsEmpty(run);
    i := ApprovalProgress(run);
  }

  /** Submissions of one nonce are all of one transaction, byte for byte. */
  ghost predicate OneTransactionPerNonce(txs: seq<Tx>) {
    forall i, j :: 0 <= i < |txs| && 0 <= j < |txs| && txs[i].nonce == txs[j].nonce ==> txs[i] == txs[j]
  }

  /** Over every run from a fresh account: at most one transaction owns it, adopted
      nonces strictly increase, and every submission of one nonce is of one adopted
      transaction. */
  lemma AccountIsOwnedOnce(run: seq<Action>)
    requires Possible(Fresh, run)
    ensures var a := Run(Fresh, run);
            OneOwner(a) && Increasing(a.adopted) && SubmissionsOrdered(a) && OneTransactionPerNonce(a.broadcasts)
  {
    assert Safe(Fresh);
    RunSafe(Fresh, run);
    SubmissionsOfOneNonce(Run(Fresh, run));
  }

  lemma SubmissionsOfOneNonce(a: Account)
    requires Safe(a)
    ensures OneTransactionPerNonce(a.broadcasts)
  {
    forall i, j | 0 <= i < |a.broadcasts| && 0 <= j < |a.broadcasts| && a.broadcasts[i].nonce == a.broadcasts[j].nonce
      ensures a.broadcasts[i] == a.broadcasts[j]
    {
      var m :| 0 <= m < |a.adopted| && a.adopted[m] == a.broadcasts[i];
      var n :| 0 <= n < |a.adopted| && a.adopted[n] == a.broadcasts[j];
      assert a.adopted[m].nonce == a.adopted[n].nonce;
      assert !(m < n) && !(n < m);
    }
  }

  /** A nonce known to be consumed is never submitted again, in any continuation. */
  lemma {:induction false} ConsumedStaysSilent(a: Account, run: seq<Action>, nonce: nat)
    requires Safe(a) && Possible(a, run) && a.floor.Some? && nonce <= a.floor.value
    ensures var b := Run(a, run);
            && |a.broadcasts| <= |b.broadcasts| && a.broadcasts == b.broadcasts[..|a.broadcasts|]
            && forall i :: |a.broadcasts| <= i < |b.broadcasts| ==> b.broadcasts[i].nonce != nonce
    decreases |run|
  {
    if run != [] {
      var x, c := run[0], Step(a, run[0]);
      StepSafe(a, x);
      var sent := NewSubmissions(a, x);
      ConsumedStaysSilent(c, run[1..], nonce);
      var b := Run(a, run);
      assert c.broadcasts[..|a.broadcasts|] == a.broadcasts;
      forall i | |a.broadcasts| <= i < |b.broadcasts|
        ensures b.broadcasts[i].nonce != nonce
      {
        if i < |c.broadcasts| {
          assert b.broadcasts[i] == c.broadcasts[i] == sent[i - |a.broadcasts|];
        }
      }
    }
  }

  /** A step submits nothing, or the owner's transaction, whose nonce lies above the floor. */
  lemma NewSubmissions(a: Account, x: Action) returns (sent: seq<Tx>)
    requires Safe(a) && Enabled(a, x)
    ensures Step(a, x).broadcasts == a.broadcasts + sent
    ensures forall i :: 0 <= i < |sent| ==> AboveFloor(a.floor, sent[i])
    ensures a.floor.Some? ==> Step(a, x).floor.Some? && a.floor.value <= Step(a, x).floor.value
  {
    sent := [];
    if x.SendApproval? {
      sent := [a.approval.value.pending.value];
      SubmissionSafe(a, ApprovalOwner, sent[0]);
    } else if x.ClaimReceipt? && x.outcome == Pending {
      sent := [a.claims[a.holder.key].tx.value];
      SubmissionSafe(a, ClaimOwner(a.holder.key), sent[0]);
    }
  }

  /** After a crash the owner's bytes can always be sent again: the check that guards
      a submission never refuses the transaction that owns the account. */
  lemma OwnerMayAlwaysSend(run: seq<Action>, key: string)
    requires Possible(Fresh, run)
    requires IsOwner(Run(Fresh, run), ClaimOwner(key))
    ensures Possible(Run(Fresh, run), [Leave, LockClaim(key), ClaimReceipt(Pending)])
  {
    assert Safe(Fresh);
    RunSafe(Fresh, run);
    var a := Run(Fresh, run);
    SubmissionSafe(a, ClaimOwner(key), a.claims[key].tx.value);
    LockedSend(a, key);
  }

  /** An account that nobody owns is not stuck: after any run a claim that waits can be
      signed with any fresh nonce, sent, confirmed by a receipt and credited. */
  lemma WaitingClaimCanBePaid(run: seq<Action>, key: string, tx: Tx)
    requires Possible(Fresh, run)
    requires var a := Run(Fresh, run);
             NoOwner(a) && key in a.claims && a.claims[key].state == Identified && AboveFloor(a.floor, tx)
    ensures var more := [Leave, LockClaim(key), BeginPrepare, AdoptClaim(tx), ClaimReceipt(Paid(true)), Settle(key)];
            var a := Run(Fresh, run);
            && Possible(a, more) && key in Run(a, more).claims && Run(a, more).claims[key] == Claim(Credited, Some(tx))
            && Run(a, more).floor == Some(tx.nonce) && Run(a, more).adopted == a.adopted + [tx]
  {
    hide Possible, Run;
    var a := Run(Fresh, run);
    var a1 := Step(a, Leave);
    var a2 := Step(a1, LockClaim(key));
    NobodyInTheWay(a, a2, key);
    var a3 := Step(a2, BeginPrepare);
    var a4 := Step(a3, AdoptClaim(tx));
    var a5 := Step(a4, ClaimReceipt(Paid(true)));
    var a6 := Step(a5, Settle(key));
    var r5 := [Settle(key)] + [];
    var r4 := [ClaimReceipt(Paid(true))] + r5;
    var r3 := [AdoptClaim(tx)] + r4;
    var r2 := [BeginPrepare] + r3;
    var r1 := [LockClaim(key)] + r2;
    FirstStep(a5, Settle(key), [], a6);
    FirstStep(a4, ClaimReceipt(Paid(true)), r5, a6);
    FirstStep(a3, AdoptClaim(tx), r4, a6);
    FirstStep(a2, BeginPrepare, r3, a6);
    FirstStep(a1, LockClaim(key), r2, a6);
    FirstStep(a, Leave, r1, a6);
    assert [Leave, LockClaim(key), BeginPrepare, AdoptClaim(tx), ClaimReceipt(Paid(true)), Settle(key)] == [Leave] + r1;
  }

  lemma NobodyInTheWay(a: Account, b: Account, key: string)
    requires NoOwner(a) && b.claims == a.claims && b.approval == a.approval
    ensures MayPrepare(b, ClaimOwner(key)) && MayPrepare(b, ApprovalOwner)
  {
    forall o
      ensures !IsOwner(b, o)
    {
      assert !IsOwner(a, o);
    }
  }

  lemma FirstStep(a: Account, x: Action, more: seq<Action>, b: Account)
    requires Enabled(a, x)
    requires more == [] ==> b == Step(a, x)
    requires more != [] ==> Possible(Step(a, x), more) && Run(Step(a, x), more) == b
    ensures Possible(a, [x] + more) && Run(a, [x] + more) == b
  {
    assert ([x] + more)[1..] == more;
  }

  /** Nor is an approval: it can start, and its next adapter can be signed and approved. */
  lemma ApprovalCanGoOn(run: seq<Action>, missing: seq<bool>, tx: Tx)
    requires Possible(Fresh, run) && missing != []
    requires var a := Run(Fresh, run); NoOwner(a) && AboveFloor(a.floor, tx)
    ensures var more := [Leave, LockApproval, StartApproval(missing), AdoptApproval(tx), ApprovalReceipt(Approved)];
            var a := Run(Fresh, run);
            && Possible(a, more) && Run(a, more).approval == Some(Approval(Active, missing[1..], None))
            && Run(a, more).floor == Some(tx.nonce)
  {
    hide Possible, Run;
    var a := Run(Fresh, run);
    var a1 := Step(a, Leave);
    var a2 := Step(a1, LockApproval);
    NobodyInTheWay(a, a2, "");
    var a3 := Step(a2, StartApproval(missing));
    var a4 := Step(a3, AdoptApproval(tx));
    var a5 := Step(a4, ApprovalReceipt(Approved));
    var r4 := [ApprovalReceipt(Approved)] + [];
    var r3 := [AdoptApproval(tx)] + r4;
    var r2 := [StartApproval(missing)] + r3;
    var r1 := [LockApproval] + r2;
    FirstStep(a4, ApprovalReceipt(Approved), [], a5);
    FirstStep(a3, AdoptApproval(tx), r4, a5);
    FirstStep(a2, StartApproval(missing), r3, a5);
    FirstStep(a1, LockApproval, r2, a5);
    FirstStep(a, Leave, r1, a5);
    assert [Leave, LockApproval, StartApproval(missing), AdoptApproval(tx), ApprovalReceipt(Approved)] == [Leave] + r1;
  }

  lemma LockedSend(a: Account, key: string)
    requires IsOwner(a, ClaimOwner(key)) && a.claims[key].tx.Some?
    requires MaySend(a, ClaimOwner(key), a.claims[key].tx.value)
    ensures Possible(a, [Leave, LockClaim(key), ClaimReceipt(Pending)])
  {
    var run := [Leave, LockClaim(key), ClaimReceipt(Pending)];
    var b := Step(Step(a, Leave), LockClaim(key));
    assert MaySend(b, ClaimOwner(key), a.claims[key].tx.value);
    assert run[1..] == [LockClaim(key), ClaimReceipt(Pending)];
    assert run[1..][1..] == [ClaimReceipt(Pending)];
    assert Possible(b, [ClaimReceipt(Pending)]);
    assert Possible(Step(a, Leave), run[1..]);
  }
}
