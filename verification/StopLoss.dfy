/** The stop-loss observer of one cycle, and what a run of observations can make it do. */
module StopLossRules {
  import opened Arith

  datatype Phase = Watching | Armed | Exiting | Stopped

  const CONFIRM_NS := 30_000_000_000

  datatype Stop = Stop(enabled: bool, multiplier: int, phase: Phase, gross: int, weighted: int,
                       first: Option<int>, last: Option<int>, version: Option<string>) {
    function Threshold(): int {
      if gross == 0 then 0 else Max(1, weighted / gross * multiplier / SCALE)
    }

    /** A further buy raises the average and restarts the watch. */
    function Add(price: int, bought: int): Stop {
      var s := this.(gross := gross + bought, weighted := weighted + price * bought);
      if phase == Exiting || phase == Stopped then s
      else s.(phase := Watching, first := None, last := None, version := None)
    }

    function Observe(bid: Option<int>, seen: string, now: int, ready: bool): Stop {
      if !enabled || phase == Exiting || phase == Stopped || !ready then this
      else if bid.None? || bid.value <= 0 || seen == "" then this
      else if last.Some? && now < last.value then this
      else if bid.value >= Threshold() then this.(phase := Watching, first := None, last := None, version := None)
      else if version == Some(seen) then this
      else
        var s := this.(last := Some(now), version := Some(seen));
        if first.None? then s.(first := Some(now), phase := Armed)
        else if now - first.value >= CONFIRM_NS then s.(phase := Exiting)
        else s
    }
  }

  function NewStop(enabled: bool, multiplier: int): Stop {
    Stop(enabled, multiplier, Watching, 0, 0, None, None, None)
  }

  /** The observer as the program updates it. */
  class StopLoss {
    const enabled: bool
    const multiplier: int
    var phase: Phase
    var gross: int
    var weighted: int
    var first: Option<int>
    var last: Option<int>
    var version: Option<string>

    constructor (enabled: bool, multiplier: int)
      ensures State() == NewStop(enabled, multiplier)
    {
      this.enabled, this.multiplier, phase, gross, weighted := enabled, multiplier, Watching, 0, 0;
      first, last, version := None, None, None;
    }

    function State(): Stop
      reads this
    {
      Stop(enabled, multiplier, phase, gross, weighted, first, last, version)
    }

    method Add(price: int, bought: int)
      modifies this
      ensures State() == old(State()).Add(price, bought)
      ensures old(Regular(State())) ==> Regular(State())
    {
      gross := gross + bought;
      weighted := weighted + price * bought;
      if phase != Exiting && phase != Stopped {
        phase, first, last, version := Watching, None, None, None;
      }
    }

    method Observe(bid: Option<int>, seen: string, now: int, ready: bool)
      modifies this
      ensures State() == old(State()).Observe(bid, seen, now, ready)
      ensures old(Regular(State())) ==> Regular(State())
    {
      if !enabled || phase == Exiting || phase == Stopped || !ready {
        return;
      }
      if bid.None? || bid.value <= 0 || seen == "" {
        return;
      }
      if last.Some? && now < last.value {
        return;
      }
      if bid.value >= State().Threshold() {
        phase, first, last, version := Watching, None, None, None;
        return;
      }
      if version == Some(seen) {
        return;
      }
      if first.None? {
        first := Some(now);
        phase := Armed;
      } else if now - first.value >= CONFIRM_NS {
        phase := Exiting;
      }
      last, version := Some(now), Some(seen);
    }
  }

  // ------------------------------------------------------------ whole runs

  datatype Op = Grow(price: int, bought: int) | Look(bid: Option<int>, seen: string, now: int, ready: bool)

  function Do(s: Stop, op: Op): Stop {
    match op
    case Grow(price, bought) => s.Add(price, bought)
    case Look(bid, seen, now, ready) => s.Observe(bid, seen, now, ready)
  }

  function After(s: Stop, ops: seq<Op>): Stop {
    if ops == [] then s else Do(After(s, ops[..|ops| - 1]), ops[|ops| - 1])
  }

  /** A usable look at a bid: at a ready book, in order of time. */
  predicate Usable(s: Stop, op: Op) {
    op.Look? && op.ready && op.bid.Some? && op.bid.value > 0 && op.seen != "" && (s.last.Some? ==> op.now >= s.last.value)
  }

  predicate Low(s: Stop, op: Op) { Usable(s, op) && op.bid.value < s.Threshold() }

  predicate Recovers(s: Stop, op: Op) { op.Grow? || (Usable(s, op) && op.bid.value >= s.Threshold()) }

  /** A low look opened the watch at `m`, and nothing recovered from it since. */
  ghost predicate LowSince(s: Stop, ops: seq<Op>, m: nat) {
    && m < |ops| && Low(After(s, ops[..m]), ops[m])
    && forall k :: m < k < |ops| ==> !Recovers(After(s, ops[..k]), ops[k])
  }

  /** The running watch was opened by a low look at the given time. */
  ghost predicate Watched(s: Stop, ops: seq<Op>, at: int) {
    exists m: nat :: LowSince(s, ops, m) && ops[m].now == at
  }

  ghost predicate Regular(s: Stop) {
    && (s.phase == Watching ==> s.first.None? && s.last.None? && s.version.None?)
    && (s.phase == Armed ==> s.first.Some? && s.last.Some? && s.enabled && s.first.value <= s.last.value)
    && s.phase != Stopped
  }

  /** What one operation can do to the phase, and when. */
  lemma OneStep(s: Stop, op: Op)
    requires Regular(s)
    ensures var t := Do(s, op);
            && Regular(t)
            && (t.phase == Armed && s.phase == Armed ==> t.first == s.first && !Recovers(s, op))
            && (t.phase == Armed && s.phase != Armed ==> Low(s, op) && t.first == Some(op.now))
            && (t.phase == Exiting && s.phase != Exiting ==>
                  && s.phase == Armed && s.enabled && Low(s, op) && s.version != Some(op.seen)
                  && op.now - s.first.value >= CONFIRM_NS)
  {
  }

  lemma WatchGoesOn(s: Stop, ops: seq<Op>, op: Op, at: int)
    requires Watched(s, ops, at) && !Recovers(After(s, ops), op)
    ensures Watched(s, ops + [op], at)
  {
    var m: nat :| LowSince(s, ops, m) && ops[m].now == at;
    var more := ops + [op];
    assert more[..|ops|] == ops;
    assert forall k :: 0 <= k < |ops| ==> more[..k] == ops[..k] && more[k] == ops[k];
    assert LowSince(s, more, m);
  }

  lemma WatchOpens(s: Stop, ops: seq<Op>, op: Op)
    requires Low(After(s, ops), op)
    ensures Watched(s, ops + [op], op.now)
  {
    var more := ops + [op];
    assert more[..|ops|] == ops && more[|ops|] == op;
    assert LowSince(s, more, |ops|);
  }

  lemma {:induction false} WatchStarts(enabled: bool, multiplier: int, ops: seq<Op>)
    ensures var start := NewStop(enabled, multiplier);
            var s := After(start, ops);
            Regular(s) && (s.phase == Armed ==> Watched(start, ops, s.first.value))
  {
    hide Do, Low, Recovers, Watched;
    if ops != [] {
      var start := NewStop(enabled, multiplier);
      var prefix, op := ops[..|ops| - 1], ops[|ops| - 1];
      WatchStarts(enabled, multiplier, prefix);
      var was, s := After(start, prefix), After(start, ops);
      OneStep(was, op);
      assert ops == prefix + [op];
      if s.phase == Armed && was.phase == Armed {
        WatchGoesOn(start, prefix, op, was.first.value);
      } else if s.phase == Armed {
        WatchOpens(start, prefix, op);
      }
    }
  }

  /** A stop begins to exit only on a low look at least thirty seconds after another low
      look of the same watch, with neither a recovered bid nor a further buy in between. */
  lemma ExitIsConfirmed(enabled: bool, multiplier: int, ops: seq<Op>)
    requires ops != []
    requires var start := NewStop(enabled, multiplier);
             After(start, ops).phase == Exiting && After(start, ops[..|ops| - 1]).phase != Exiting
    ensures var start := NewStop(enabled, multiplier);
            var prefix, op := ops[..|ops| - 1], ops[|ops| - 1];
            && enabled && Low(After(start, prefix), op) && After(start, prefix).version != Some(op.seen)
            && exists m: nat :: LowSince(start, prefix, m) && op.now - prefix[m].now >= CONFIRM_NS
  {
    hide Do, Recovers, After, NewStop, Usable;
    var start := NewStop(enabled, multiplier);
    var prefix, op := ops[..|ops| - 1], ops[|ops| - 1];
    WatchStarts(enabled, multiplier, prefix);
    StartsEnabled(enabled, multiplier, prefix);
    AfterLast(start, ops);
    OneStep(After(start, prefix), op);
  }

  lemma AfterLast(s: Stop, ops: seq<Op>)
    requires ops != []
    ensures After(s, ops) == Do(After(s, ops[..|ops| - 1]), ops[|ops| - 1])
  {
  }

  lemma {:induction false} StartsEnabled(enabled: bool, multiplier: int, ops: seq<Op>)
    ensures After(NewStop(enabled, multiplier), ops).enabled == enabled
  {
    if ops != [] {
      StartsEnabled(enabled, multiplier, ops[..|ops| - 1]);
    }
  }

  /** An exiting stop exits for good, whatever is bought or seen. */
  lemma {:induction false} ExitIsForGood(s: Stop, ops: seq<Op>)
    requires s.phase == Exiting
    ensures After(s, ops).phase == Exiting
  {
    if ops != [] {
      ExitIsForGood(s, ops[..|ops| - 1]);
    }
  }

  /** A low look arms a watching stop, and a low look at another version thirty seconds
      after the first one exits. */
  lemma LowLooksCount(s: Stop, op: Op)
    requires Regular(s) && s.enabled && Low(s, op)
    ensures var t := Do(s, op);
            && t.enabled && (t.phase == Armed || t.phase == Exiting)
            && (t.phase == Armed ==> t.first.Some? && t.first.value <= op.now)
            && (s.phase == Armed && s.version != Some(op.seen) && op.now - s.first.value >= 30_000_000_000 ==>
                  t.phase == Exiting)
  {
  }

  /** A look at the version seen last is no second look. */
  lemma RepeatedLookIsNothing(s: Stop, op: Op)
    requires Low(s, op) && s.version == Some(op.seen)
    ensures Do(s, op) == s
  {
  }

  lemma ExitStays(s: Stop, op: Op)
    requires s.phase == Exiting
    ensures Do(s, op).phase == Exiting
  {
  }

  lemma NothingRecovers(s: Stop, op: Op)
    requires Regular(s) && s.phase == Armed && !Recovers(s, op)
    ensures var t := Do(s, op); t.phase == Exiting || (t.phase == Armed && t.first == s.first)
  {
  }

  lemma {:induction false} StaysArmed(enabled: bool, multiplier: int, ops: seq<Op>, m: nat)
    requires enabled && LowSince(NewStop(enabled, multiplier), ops, m)
    ensures var s := After(NewStop(enabled, multiplier), ops);
            s.phase == Exiting || (s.phase == Armed && s.first.Some? && s.first.value <= ops[m].now)
  {
    hide Do, Recovers, NewStop, Low;
    var start := NewStop(enabled, multiplier);
    var prefix, op := ops[..|ops| - 1], ops[|ops| - 1];
    var was := After(start, prefix);
    WatchStarts(enabled, multiplier, prefix);
    StartsEnabled(enabled, multiplier, prefix);
    if was.phase == Exiting {
      ExitStays(was, op);
    } else if m == |ops| - 1 {
      LowLooksCount(was, op);
    } else {
      assert forall k :: 0 <= k <= |prefix| ==> prefix[..k] == ops[..k];
      assert forall k :: 0 <= k < |prefix| ==> prefix[k] == ops[k];
      assert LowSince(start, prefix, m);
      StaysArmed(enabled, multiplier, prefix, m);
      NothingRecovers(was, op);
    }
  }

  /** The converse of a confirmed exit: a low look thirty seconds after another one, at
      another version than the last one seen and with no recovery or buy in between, always
      exits. */
  lemma ConfirmedExits(multiplier: int, ops: seq<Op>, m: nat, op: Op)
    requires var start := NewStop(true, multiplier);
             && LowSince(start, ops, m) && Low(After(start, ops), op)
             && After(start, ops).version != Some(op.seen) && op.now - ops[m].now >= 30_000_000_000
    ensures After(NewStop(true, multiplier), ops + [op]).phase == Exiting
  {
    hide Do, Recovers, NewStop, Low;
    var start := NewStop(true, multiplier);
    StaysArmed(true, multiplier, ops, m);
    WatchStarts(true, multiplier, ops);
    StartsEnabled(true, multiplier, ops);
    AfterLast(start, ops + [op]);
    assert (ops + [op])[..|ops|] == ops;
    if After(start, ops).phase == Exiting {
      ExitStays(After(start, ops), op);
    } else {
      LowLooksCount(After(start, ops), op);
    }
  }

  // ------------------------------------------------------------ where the threshold lies

  /** The threshold is the whole average price times the multiplier, cut down to a
      micro-unit but never below one. */
  lemma ThresholdIs(s: Stop, average: int)
    requires s.gross > 0 && average * s.gross <= s.weighted < (average + 1) * s.gross
    ensures var t := s.Threshold();
            && t >= 1 && average * s.multiplier < (t + 1) * SCALE
            && (t > 1 ==> t * SCALE <= average * s.multiplier)
  {
    FloorAtLeast(s.weighted, s.gross, average);
    FloorAtLeast(s.weighted, s.gross, average + 1);
    FloorBounds(average * s.multiplier, SCALE);
  }

  /** So it lies within one unit and one share's rounding below the exact average price
      times the multiplier. */
  lemma ThresholdBounds(s: Stop)
    requires s.gross > 0 && s.multiplier > 0
    ensures var t := s.Threshold();
            && (t > 1 ==> t * SCALE * s.gross <= s.weighted * s.multiplier)
            && s.weighted * s.multiplier < ((t + 1) * SCALE + s.multiplier) * s.gross
  {
    hide Stop.Threshold;
    var t, average := s.Threshold(), s.weighted / s.gross;
    FloorBounds(s.weighted, s.gross);
    assert (average + 1) * s.gross == average * s.gross + s.gross;
    ThresholdIs(s, average);
    AverageBounds(s.weighted, s.gross, average, s.multiplier, t * SCALE, (t + 1) * SCALE);
  }

  lemma AverageBounds(weighted: int, gross: int, average: int, multiplier: int, low: int, high: int)
    requires gross > 0 && multiplier > 0 && average * gross <= weighted < (average + 1) * gross
    requires average * multiplier < high
    ensures low <= average * multiplier ==> low * gross <= weighted * multiplier
    ensures weighted * multiplier < (high + multiplier) * gross
  {
    MulLe(average * gross, weighted, multiplier);
    MulLe(weighted + 1, (average + 1) * gross, multiplier);
    MulLe(average * multiplier, high, gross);
    assert average * gross * multiplier == average * multiplier * gross;
    assert (average + 1) * gross * multiplier == average * multiplier * gross + multiplier * gross;
    assert (high + multiplier) * gross == high * gross + multiplier * gross;
    if low <= average * multiplier {
      MulLe(low, average * multiplier, gross);
    }
  }

  function BoughtIn(ops: seq<Op>): int {
    if ops == [] then 0
    else BoughtIn(ops[..|ops| - 1]) + if ops[|ops| - 1].Grow? then ops[|ops| - 1].bought else 0
  }

  function PaidIn(ops: seq<Op>): int {
    if ops == [] then 0
    else PaidIn(ops[..|ops| - 1]) + if ops[|ops| - 1].Grow? then ops[|ops| - 1].price * ops[|ops| - 1].bought else 0
  }

  /** The average is over every buy, whatever was seen in between. */
  lemma {:induction false} AverageOfBuys(enabled: bool, multiplier: int, ops: seq<Op>)
    ensures var s := After(NewStop(enabled, multiplier), ops);
            s.gross == BoughtIn(ops) && s.weighted == PaidIn(ops) && s.multiplier == multiplier
  {
    if ops != [] {
      AverageOfBuys(enabled, multiplier, ops[..|ops| - 1]);
    }
  }
}
