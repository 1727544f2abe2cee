/** One live submission and the boundary after which its request may have reached the
    venue: without an answer of the venue an order is let go only if it cannot have. */
module PostBoundary {

  /** Where the submitting task is; after `Posting` began the order's identity is stored. */
  datatype Stage = Absent | Preparing | Posting

  datatype Order = Order(
    identity: bool,   // stored: the signed order's venue identity
    released: bool,   // stored: finished without evidence of the venue
    settled: bool,    // stored: finished by an answer of the venue
    started: bool,    // in memory: submitted in this process
    boot: bool,       // in memory: already stored when this process began
    stage: Stage,     // in memory
    possible: bool,   // in memory: a request may be under way
    crossed: bool,    // the boundary was crossed in some process
    reached: bool)    // a request may have reached the venue
  {
    predicate Terminal() { released || settled }
  }

  const Stored := Order(false, false, false, false, false, Absent, false, false, false)

  datatype Action =
    | Start
    | Deny
    | Persist
    | Cross(ready: bool)
      // Also by a worker that outlives its cancelled task.
    | Attempt(ready: bool)
    | Fail
    | Return
    | Reconcile
    | Answer
    | Restart

  predicate Enabled(o: Order, a: Action) {
    match a
    case Start => !o.started && !o.boot && !o.Terminal()
    case Deny => o.stage == Preparing
    case Persist => o.stage == Preparing && !o.Terminal()
    case Cross(_) => o.stage == Posting
    case Attempt(_) => o.crossed
    case Fail => o.stage != Absent
    case Return => o.stage != Absent
    case Reconcile => !o.Terminal()
    case Answer => o.identity && !o.Terminal()
    case Restart => true
  }

  /** An order is let go without evidence when the task ends before a request was possible. */
  function Failed(o: Order): Order {
    o.(released := o.released || (!o.Terminal() && !o.possible), stage := Absent, possible := false)
  }

  function Reconciled(o: Order): Order {
    if o.identity || !o.boot then o else o.(released := true)
  }

  function Step(o: Order, a: Action): Order {
    match a
    case Start => o.(started := true, stage := Preparing)
    case Deny => o.(released := o.released || !o.settled)
    case Persist => o.(identity := true, stage := Posting)
    case Cross(ready) => if ready && !o.Terminal() then o.(possible := true, crossed := true) else Failed(o)
    case Attempt(ready) => if ready && !o.Terminal() then o.(reached := true) else o
    case Fail => Failed(o)
    case Return => o.(stage := Absent, possible := false)
    case Reconcile => Reconciled(o)
    case Answer => o.(settled := true)
    case Restart => o.(started := false, boot := true, stage := Absent, possible := false)
  }

  // ------------------------------------------------------------ the submission as the program holds it

  class Submission {
    var identity: bool
    var released: bool
    var settled: bool
    var started: bool
    var boot: bool
    var stage: Stage
    var possible: bool
    ghost var crossed: bool
    ghost var reached: bool

    ghost function State(): Order
      reads this
    {
      Order(identity, released, settled, started, boot, stage, possible, crossed, reached)
    }

    constructor ()
      ensures State() == Stored && Sound(State())
    {
      identity, released, settled, started, boot, stage, possible := false, false, false, false, false, Absent, false;
      crossed, reached := false, false;
    }

    /** The identity is stored before anything can be sent. */
    method PersistIdentity()
      requires Enabled(State(), Persist)
      modifies this`identity, this`stage
      ensures State() == Step(old(State()), Persist)
      ensures old(Sound(State())) ==> Sound(State())
    {
      identity, stage := true, Posting;
    }

    /** The last check before the first attempt; the boundary is noted before anything runs. */
    method EnterPost(ready: bool)
      requires Enabled(State(), Cross(ready))
      modifies this
      ensures State() == Step(old(State()), Cross(ready))
      ensures old(Sound(State())) ==> Sound(State())
    {
      if ready && !released && !settled {
        possible, crossed := true, true;
      } else {
        FinishFailed();
      }
    }

    /** A submission that failed or was cancelled lets its order go only before the boundary. */
    method FinishFailed()
      requires stage != Absent
      modifies this`released, this`stage, this`possible
      ensures State() == Step(old(State()), Fail)
      ensures released <==> old(released) || (!old(settled) && !old(possible))
      ensures old(Sound(State())) ==> Sound(State())
    {
      if !released && !settled && !possible {
        released := true;
      }
      stage, possible := Absent, false;
    }

    /** Reconciliation lets go what was stored before this process without an identity. */
    method SyncOwned()
      requires !released && !settled
      modifies this`released
      ensures State() == Step(old(State()), Reconcile)
      ensures released <==> old(released) || (!identity && boot)
      ensures old(Sound(State())) ==> Sound(State())
    {
      if !identity && boot {
        released := true;
      }
    }

    method Reboot()
      modifies this`started, this`boot, this`stage, this`possible
      ensures State() == Step(old(State()), Restart)
      ensures old(Sound(State())) ==> Sound(State())
    {
      started, boot, stage, possible := false, true, Absent, false;
    }
  }

  // ------------------------------------------------------------ what every run keeps

  /** A request needs the boundary, the boundary needs the stored identity, a running task
      knows whether it crossed, and what was let go without evidence never crossed. */
  ghost predicate Sound(o: Order) {
    && (o.reached ==> o.crossed) && (o.crossed ==> o.identity)
    && (o.stage == Posting ==> o.identity) && (o.stage == Preparing ==> !o.identity)
    && (o.stage != Absent ==> o.started && !o.boot && (o.crossed <==> o.possible))
    && (o.identity ==> o.started || o.boot)
    && (o.possible ==> o.stage == Posting)
    && (o.released ==> !o.crossed)
  }

  lemma StepSound(o: Order, a: Action)
    requires Sound(o) && Enabled(o, a)
    ensures Sound(Step(o, a))
  {
  }

  ghost predicate Possible(o: Order, run: seq<Action>)
    decreases |run|
  {
    run == [] || (Enabled(o, run[0]) && Possible(Step(o, run[0]), run[1..]))
  }

  function Run(o: Order, run: seq<Action>): Order
    decreases |run|
  {
    if run == [] then o else Run(Step(o, run[0]), run[1..])
  }

  lemma {:induction false} RunSound(o: Order, run: seq<Action>)
    requires Sound(o) && Possible(o, run)
    ensures Sound(Run(o, run))
    decreases |run|
  {
    if run != [] {
      StepSound(o, run[0]);
      RunSound(Step(o, run[0]), run[1..]);
    }
  }

  lemma {:induction false} RunTogether(o: Order, first: seq<Action>, more: seq<Action>)
    requires Possible(o, first) && Possible(Run(o, first), more)
    ensures Possible(o, first + more) && Run(o, first + more) == Run(Run(o, first), more)
    decreases |first|
  {
    if first == [] {
      assert first + more == more;
    } else {
      RunTogether(Step(o, first[0]), first[1..], more);
      assert (first + more)[1..] == first[1..] + more;
    }
  }

  /** Whatever fails, is cancelled, outlives its task or is restarted: an order that was let
      go without an answer of the venue has sent no request, and none is ever sent later. */
  lemma ReleasedMeansUnsent(run: seq<Action>, more: seq<Action>)
    requires Possible(Stored, run) && Run(Stored, run).released && Possible(Run(Stored, run), more)
    ensures !Run(Stored, run).reached
    ensures Run(Stored, run + more).released && !Run(Stored, run + more).reached
  {
    RunSound(Stored, run);
    StaysReleased(Run(Stored, run), more);
    RunTogether(Stored, run, more);
    RunSound(Stored, run + more);
  }

  lemma {:induction false} StaysReleased(o: Order, run: seq<Action>)
    requires o.released && Possible(o, run)
    ensures Run(o, run).released
    decreases |run|
  {
    if run != [] {
      StaysReleased(Step(o, run[0]), run[1..]);
    }
  }

  /** A submission that ends in an error lets its order go exactly when no request was
      possible and nothing had finished the order before. */
  lemma FailureReleasesExactly(run: seq<Action>)
    requires Possible(Stored, run) && Run(Stored, run).stage != Absent && !Run(Stored, run).Terminal()
    ensures Step(Run(Stored, run), Fail).released <==> !Run(Stored, run).crossed
  {
    RunSound(Stored, run);
  }

  /** After a restart an order without a stored identity can always be let go, and one with
      an identity never is without an answer. */
  lemma RestartDecides(run: seq<Action>)
    requires Possible(Stored, run) && !Run(Stored, run).Terminal()
    ensures var o := Step(Run(Stored, run), Restart);
            Step(o, Reconcile).released <==> !o.identity
  {
  }
}
