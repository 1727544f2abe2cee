/** The gate between full ledger checks and venue submissions, with a step at every
    point where a task may be suspended, woken or cancelled. */
module LedgerGate {

  type Task = nat

  /** Where a task is; a task that is not at the gate has no phase. */
  datatype Phase =
    | CheckWaiting(awake: bool)
    | CheckLeaving    // cancelled while waiting, still counted
    | Checking
    | CheckReleasing  // the body has ended, the release has not run yet
    | PostWaiting(awake: bool)
    | Posting
    | PostReleasing

  type Tasks = map<Task, Phase>

  datatype Gate = Gate(checking: bool, waitingChecks: int, posts: int, tasks: Tasks) {
    predicate CheckMayPass() { !checking && posts == 0 }

    predicate PostMayPass() { !checking && waitingChecks == 0 }
  }

  function Woken(p: Phase): Phase {
    match p
    case CheckWaiting(_) => CheckWaiting(true)
    case PostWaiting(_) => PostWaiting(true)
    case _ => p
  }

  /** `notify_all`: everyone waiting will look at its condition again. */
  function NotifyAll(tasks: Tasks): Tasks { map t | t in tasks :: Woken(tasks[t]) }

  datatype Action =
    | EnterCheck(t: Task) | WakeCheck(t: Task) | CancelCheck(t: Task) | LeaveCheck(t: Task)
    | EndCheck(t: Task) | ReleaseCheck(t: Task)
    | EnterPost(t: Task) | WakePost(t: Task) | CancelPost(t: Task) | EndPost(t: Task) | ReleasePost(t: Task)

  predicate Enabled(g: Gate, a: Action) {
    if a.EnterCheck? || a.EnterPost? then a.t !in g.tasks
    else
      && a.t in g.tasks
      && match a
         case WakeCheck(t) => g.tasks[t] == CheckWaiting(true)
         case CancelCheck(t) => g.tasks[t].CheckWaiting?
         case LeaveCheck(t) => g.tasks[t].CheckLeaving?
         case EndCheck(t) => g.tasks[t].Checking?
         case ReleaseCheck(t) => g.tasks[t].CheckReleasing?
         case WakePost(t) => g.tasks[t] == PostWaiting(true)
         case CancelPost(t) => g.tasks[t].PostWaiting?
         case EndPost(t) => g.tasks[t].Posting?
         case ReleasePost(t) => g.tasks[t].PostReleasing?
         case _ => false
  }

  /** A counted check looks at its condition: it takes the gate, or sleeps. */
  function TryCheck(g: Gate, t: Task): Gate {
    if g.CheckMayPass() then Gate(true, g.waitingChecks - 1, g.posts, NotifyAll(g.tasks[t := Checking]))
    else g.(tasks := g.tasks[t := CheckWaiting(false)])
  }

  function TryPost(g: Gate, t: Task): Gate {
    if g.PostMayPass() then g.(posts := g.posts + 1, tasks := g.tasks[t := Posting])
    else g.(tasks := g.tasks[t := PostWaiting(false)])
  }

  function Step(g: Gate, a: Action): Gate
    requires Enabled(g, a)
  {
    match a
    case EnterCheck(t) => TryCheck(g.(waitingChecks := g.waitingChecks + 1), t)
    case WakeCheck(t) => TryCheck(g, t)
    case CancelCheck(t) => g.(tasks := g.tasks[t := CheckLeaving])
    case LeaveCheck(t) => g.(waitingChecks := g.waitingChecks - 1, tasks := NotifyAll(g.tasks - {t}))
    case EndCheck(t) => g.(tasks := g.tasks[t := CheckReleasing])
    case ReleaseCheck(t) => g.(checking := false, tasks := NotifyAll(g.tasks - {t}))
    case EnterPost(t) => TryPost(g, t)
    case WakePost(t) => TryPost(g, t)
    case CancelPost(t) => g.(tasks := g.tasks - {t})
    case EndPost(t) => g.(tasks := g.tasks[t := PostReleasing])
    case ReleasePost(t) => g.(posts := g.posts - 1, tasks := NotifyAll(g.tasks - {t}))
  }

  const Open := Gate(false, 0, 0, map[])

  // ------------------------------------------------------------ the gate object

  /** The counters as the source keeps them; the tasks are what the event loop knows. */
  class Counters {
    var checking: bool
    var waitingChecks: int
    var posts: int
    ghost var tasks: Tasks

    ghost function State(): Gate
      reads this
    {
      Gate(checking, waitingChecks, posts, tasks)
    }

    constructor ()
      ensures State() == Open
    {
      checking, waitingChecks, posts, tasks := false, 0, 0, map[];
    }

    /** Entry to a full check up to its first suspension. */
    method EnterCheck(t: Task) returns (holds: bool)
      requires Enabled(State(), Action.EnterCheck(t))
      modifies this
      ensures State() == Step(old(State()), Action.EnterCheck(t))
      ensures old(Exact(State())) ==> Exact(State())
      ensures holds == (tasks[t] == Checking)
    {
      hide Exact;
      ExactNext(State(), Action.EnterCheck(t));
      waitingChecks := waitingChecks + 1;
      holds := LookForCheck(t);
    }

    /** A waiting check woken by a notification. */
    method WakeCheck(t: Task) returns (holds: bool)
      requires Enabled(State(), Action.WakeCheck(t))
      modifies this
      ensures State() == Step(old(State()), Action.WakeCheck(t))
      ensures old(Exact(State())) ==> Exact(State())
      ensures holds == (tasks[t] == Checking)
    {
      hide Exact;
      ExactNext(State(), Action.WakeCheck(t));
      holds := LookForCheck(t);
    }

    method LookForCheck(t: Task) returns (holds: bool)
      modifies this
      ensures State() == TryCheck(old(State()), t)
      ensures holds == (tasks[t] == Checking)
    {
      holds := !checking && posts == 0;
      if holds {
        checking := true;
        waitingChecks := waitingChecks - 1;
        tasks := NotifyAll(tasks[t := Checking]);
      } else {
        tasks := tasks[t := CheckWaiting(false)];
      }
    }

    /** The cleanup of a check cancelled while it waited. */
    method LeaveCheck(t: Task)
      requires Enabled(State(), Action.LeaveCheck(t))
      modifies this
      ensures State() == Step(old(State()), Action.LeaveCheck(t))
      ensures old(Exact(State())) ==> Exact(State())
    {
      hide Exact;
      ExactNext(State(), Action.LeaveCheck(t));
      waitingChecks := waitingChecks - 1;
      tasks := NotifyAll(tasks - {t});
    }

    method EnterPost(t: Task) returns (holds: bool)
      requires Enabled(State(), Action.EnterPost(t))
      modifies this
      ensures State() == Step(old(State()), Action.EnterPost(t))
      ensures old(Exact(State())) ==> Exact(State())
      ensures holds == (tasks[t] == Posting)
    {
      hide Exact;
      ExactNext(State(), Action.EnterPost(t));
      holds := LookForPost(t);
    }

    method WakePost(t: Task) returns (holds: bool)
      requires Enabled(State(), Action.WakePost(t))
      modifies this
      ensures State() == Step(old(State()), Action.WakePost(t))
      ensures old(Exact(State())) ==> Exact(State())
      ensures holds == (tasks[t] == Posting)
    {
      hide Exact;
      ExactNext(State(), Action.WakePost(t));
      holds := LookForPost(t);
    }

    method LookForPost(t: Task) returns (holds: bool)
      modifies this
      ensures State() == TryPost(old(State()), t)
      ensures holds == (tasks[t] == Posting)
    {
      holds := !checking && waitingChecks == 0;
      if holds {
        posts := posts + 1;
        tasks := tasks[t := Posting];
      } else {
        tasks := tasks[t := PostWaiting(false)];
      }
    }

    /** The shielded cleanup that ends a check or a post. */
    method Release(t: Task, check: bool)
      requires Enabled(State(), if check then Action.ReleaseCheck(t) else Action.ReleasePost(t))
      modifies this
      ensures State() == Step(old(State()), if check then Action.ReleaseCheck(t) else Action.ReleasePost(t))
      ensures old(Exact(State())) ==> Exact(State())
    {
      hide Exact;
      ExactNext(State(), if check then Action.ReleaseCheck(t) else Action.ReleasePost(t));
      if check {
        checking := false;
      } else {
        posts := posts - 1;
      }
      tasks := NotifyAll(tasks - {t});
    }
  }

  // ------------------------------------------------------------ what always holds

  function Checkers(tasks: Tasks): set<Task> {
    set t | t in tasks && (tasks[t].Checking? || tasks[t].CheckReleasing?)
  }

  function Counted(tasks: Tasks): set<Task> {
    set t | t in tasks && (tasks[t].CheckWaiting? || tasks[t].CheckLeaving?)
  }

  function Posters(tasks: Tasks): set<Task> {
    set t | t in tasks && (tasks[t].Posting? || tasks[t].PostReleasing?)
  }

  ghost predicate CountsHold(checking: bool, waiting: int, posts: int, c: set<Task>, w: set<Task>, p: set<Task>) {
    && waiting == |w| && posts == |p| && (checking <==> c != {}) && |c| <= 1 && (c == {} || p == {})
  }

  /** Nobody sleeps through a condition that holds. */
  ghost predicate NoneOversleeps(g: Gate) {
    && (forall t :: t in g.tasks && g.tasks[t] == CheckWaiting(false) ==> !g.CheckMayPass())
    && (forall t :: t in g.tasks && g.tasks[t] == PostWaiting(false) ==> !g.PostMayPass())
  }

  ghost predicate Counts(g: Gate) {
    CountsHold(g.checking, g.waitingChecks, g.posts, Checkers(g.tasks), Counted(g.tasks), Posters(g.tasks))
  }

  /** The counters equal the tasks in each phase, a check excludes every other check
      and every post, and nobody sleeps through a condition that holds. */
  ghost predicate Exact(g: Gate) {
    Counts(g) && NoneOversleeps(g)
  }

  lemma NotifyKeepsHolders(tasks: Tasks)
    ensures Checkers(NotifyAll(tasks)) == Checkers(tasks)
    ensures Counted(NotifyAll(tasks)) == Counted(tasks)
    ensures Posters(NotifyAll(tasks)) == Posters(tasks)
  {
  }

  /** How moving one task changes the three sets. */
  lemma MoveTask(tasks: Tasks, t: Task, p: Phase)
    ensures Checkers(tasks[t := p]) == if p.Checking? || p.CheckReleasing? then Checkers(tasks) + {t} else Checkers(tasks) - {t}
    ensures Counted(tasks[t := p]) == if p.CheckWaiting? || p.CheckLeaving? then Counted(tasks) + {t} else Counted(tasks) - {t}
    ensures Posters(tasks[t := p]) == if p.Posting? || p.PostReleasing? then Posters(tasks) + {t} else Posters(tasks) - {t}
  {
  }

  lemma DropTask(tasks: Tasks, t: Task)
    ensures Checkers(tasks - {t}) == Checkers(tasks) - {t}
    ensures Counted(tasks - {t}) == Counted(tasks) - {t}
    ensures Posters(tasks - {t}) == Posters(tasks) - {t}
  {
  }

  lemma Membership(tasks: Tasks, t: Task)
    ensures t in Checkers(tasks) <==> t in tasks && (tasks[t].Checking? || tasks[t].CheckReleasing?)
    ensures t in Counted(tasks) <==> t in tasks && (tasks[t].CheckWaiting? || tasks[t].CheckLeaving?)
    ensures t in Posters(tasks) <==> t in tasks && (tasks[t].Posting? || tasks[t].PostReleasing?)
  {
  }

  /** Adding to or taking from one of the three sets. */
  ghost predicate SetFact(s: set<Task>, t: Task) {
    && (t !in s ==> s - {t} == s && |s + {t}| == |s| + 1)
    && (t in s ==> s + {t} == s && |s - {t}| == |s| - 1)
    && (|s| <= 1 && t in s ==> s - {t} == {})
  }

  lemma SetFacts(s: set<Task>, t: Task)
    ensures SetFact(s, t)
  {
    if |s| <= 1 && t in s {
      assert |s - {t}| == 0;
    }
  }

  lemma TaskFacts(tasks: Tasks, t: Task)
    ensures t in Checkers(tasks) <==> t in tasks && (tasks[t].Checking? || tasks[t].CheckReleasing?)
    ensures t in Counted(tasks) <==> t in tasks && (tasks[t].CheckWaiting? || tasks[t].CheckLeaving?)
    ensures t in Posters(tasks) <==> t in tasks && (tasks[t].Posting? || tasks[t].PostReleasing?)
    ensures SetFact(Checkers(tasks), t) && SetFact(Counted(tasks), t) && SetFact(Posters(tasks), t)
  {
    Membership(tasks, t);
    SetFacts(Checkers(tasks), t);
    SetFacts(Counted(tasks), t);
    SetFacts(Posters(tasks), t);
  }

  lemma LeaveCounts(g: Gate, a: Action)
    requires Counts(g) && Enabled(g, a) && (a.LeaveCheck? || a.ReleaseCheck? || a.ReleasePost? || a.CancelPost?)
    ensures Counts(Step(g, a))
  {
    hide Checkers, Counted, Posters;
    TaskFacts(g.tasks, a.t);
    DropTask(g.tasks, a.t);
    NotifyKeepsHolders(g.tasks - {a.t});
  }

  lemma MoveCounts(g: Gate, a: Action)
    requires Counts(g) && Enabled(g, a) && (a.CancelCheck? || a.EndCheck? || a.EndPost?)
    ensures Counts(Step(g, a))
  {
    hide Checkers, Counted, Posters;
    TaskFacts(g.tasks, a.t);
    MoveTask(g.tasks, a.t, if a.CancelCheck? then CheckLeaving else if a.EndCheck? then CheckReleasing else PostReleasing);
  }

  lemma CheckCounts(g: Gate, a: Action)
    requires Counts(g) && Enabled(g, a) && (a.EnterCheck? || a.WakeCheck?)
    ensures Counts(Step(g, a))
  {
    hide Checkers, Counted, Posters;
    TaskFacts(g.tasks, a.t);
    if g.CheckMayPass() {
      MoveTask(g.tasks, a.t, Checking);
      NotifyKeepsHolders(g.tasks[a.t := Checking]);
    } else {
      MoveTask(g.tasks, a.t, CheckWaiting(false));
    }
  }

  lemma PostCounts(g: Gate, a: Action)
    requires Counts(g) && Enabled(g, a) && (a.EnterPost? || a.WakePost?)
    ensures Counts(Step(g, a))
  {
    hide Checkers, Counted, Posters;
    TaskFacts(g.tasks, a.t);
    MoveTask(g.tasks, a.t, if g.PostMayPass() then Posting else PostWaiting(false));
  }

  /** A condition turns true only in a step that notifies everyone. */
  lemma StepWakes(g: Gate, a: Action)
    requires Exact(g) && Enabled(g, a)
    ensures NoneOversleeps(Step(g, a))
  {
  }

  /** Every step keeps the gate exact. */
  lemma StepExact(g: Gate, a: Action)
    requires Exact(g) && Enabled(g, a)
    ensures Exact(Step(g, a))
  {
    if a.EnterCheck? || a.WakeCheck? {
      CheckCounts(g, a);
    } else if a.EnterPost? || a.WakePost? {
      PostCounts(g, a);
    } else if a.CancelCheck? || a.EndCheck? || a.EndPost? {
      MoveCounts(g, a);
    } else {
      LeaveCounts(g, a);
    }
    StepWakes(g, a);
  }

  lemma ExactNext(g: Gate, a: Action)
    requires Enabled(g, a)
    ensures Exact(g) ==> Exact(Step(g, a))
  {
    hide Exact;
    if Exact(g) {
      StepExact(g, a);
    }
  }

  predicate Possible(g: Gate, run: seq<Action>)
    decreases |run|
  {
    run == [] || (Enabled(g, run[0]) && Possible(Step(g, run[0]), run[1..]))
  }

  function Run(g: Gate, run: seq<Action>): Gate
    requires Possible(g, run)
    decreases |run|
  {
    if run == [] then g else Run(Step(g, run[0]), run[1..])
  }

  /** For any tasks, cancelled anywhere: a check never overlaps a post or another check. */
  lemma {:induction false} RunExact(g: Gate, run: seq<Action>)
    requires Exact(g) && Possible(g, run)
    ensures Exact(Run(g, run))
    decreases |run|
  {
    if run != [] {
      StepExact(g, run[0]);
      RunExact(Step(g, run[0]), run[1..]);
    }
  }

  lemma ChecksExclude(run: seq<Action>, t: Task, u: Task)
    requires Possible(Open, run)
    requires var tasks := Run(Open, run).tasks; t in tasks && tasks[t].Checking? && u in tasks && t != u
    ensures var p := Run(Open, run).tasks[u]; !p.Checking? && !p.CheckReleasing? && !p.Posting? && !p.PostReleasing?
  {
    assert Exact(Open);
    RunExact(Open, run);
    var g := Run(Open, run);
    Membership(g.tasks, t);
    Membership(g.tasks, u);
    SetFacts(Checkers(g.tasks), t);
  }

  // ------------------------------------------- a waiting check is not overtaken

  /** The check `t` is at the gate, waiting or leaving, at every state of the run. */
  predicate StaysCounted(g: Gate, run: seq<Action>, t: Task)
    requires Possible(g, run)
    decreases |run|
  {
    t in Counted(g.tasks) && (run == [] || StaysCounted(Step(g, run[0]), run[1..], t))
  }

  /** While a check waits, no post is admitted: the posts under way can only end. */
  lemma {:induction false} NoPostOvertakes(g: Gate, run: seq<Action>, t: Task)
    requires Exact(g) && Possible(g, run) && StaysCounted(g, run, t)
    ensures Posters(Run(g, run).tasks) <= Posters(g.tasks)
    decreases |run|
  {
    if run != [] {
      var g' := Step(g, run[0]);
      StepExact(g, run[0]);
      assert g.waitingChecks > 0;
      assert Posters(g'.tasks) <= Posters(g.tasks);
      NoPostOvertakes(g', run[1..], t);
    }
  }

  // ------------------------------------------- nobody is stuck, everything is released

  /** Steps that need no new arrival and no cancellation. */
  predicate Forward(a: Action) { !a.EnterCheck? && !a.EnterPost? && !a.CancelCheck? && !a.CancelPost? }

  function Distance(p: Phase): nat {
    if p.CheckWaiting? || p.PostWaiting? then 3 else if p.Checking? || p.Posting? then 2 else 1
  }

  /** Tasks at distance at least `d` from leaving. */
  function Beyond(tasks: Tasks, d: nat): set<Task> { set t | t in tasks && Distance(tasks[t]) >= d }

  function Remaining(tasks: Tasks): nat { |Beyond(tasks, 1)| + |Beyond(tasks, 2)| + |Beyond(tasks, 3)| }

  lemma NotifyKeepsDistance(tasks: Tasks)
    ensures Remaining(NotifyAll(tasks)) == Remaining(tasks)
  {
    forall d
      ensures Beyond(NotifyAll(tasks), d) == Beyond(tasks, d)
    {
    }
  }

  lemma CloserTask(tasks: Tasks, t: Task, p: Phase)
    requires t in tasks && Distance(p) < Distance(tasks[t])
    ensures Remaining(tasks[t := p]) < Remaining(tasks)
  {
    var after := tasks[t := p];
    forall d: nat
      ensures |Beyond(after, d)| <= |Beyond(tasks, d)|
      ensures Distance(p) < d <= Distance(tasks[t]) ==> |Beyond(after, d)| < |Beyond(tasks, d)|
    {
      assert Beyond(after, d) == if Distance(p) >= d then Beyond(tasks, d) else Beyond(tasks, d) - {t};
      if Distance(p) < d <= Distance(tasks[t]) {
        assert t in Beyond(tasks, d);
      }
    }
  }

  lemma GoneTask(tasks: Tasks, t: Task)
    requires t in tasks
    ensures Remaining(tasks - {t}) < Remaining(tasks)
  {
    forall d: nat
      ensures |Beyond(tasks - {t}, d)| <= |Beyond(tasks, d)|
      ensures d == 1 ==> |Beyond(tasks - {t}, d)| < |Beyond(tasks, d)|
    {
      assert Beyond(tasks - {t}, d) == Beyond(tasks, d) - {t};
      if d == 1 {
        assert t in Beyond(tasks, d);
      }
    }
  }

  /** Whenever a task is at the gate, some task can move forward, nearer to leaving. */
  lemma NeverStuck(g: Gate) returns (a: Action)
    requires Exact(g) && g.tasks != map[]
    ensures Forward(a) && Enabled(g, a)
    ensures Remaining(Step(g, a).tasks) < Remaining(g.tasks)
  {
    if u :| u in g.tasks && !g.tasks[u].CheckWaiting? && !g.tasks[u].PostWaiting? {
      match g.tasks[u] {
        case CheckLeaving => a := LeaveCheck(u);
        case Checking => a := EndCheck(u);
        case CheckReleasing => a := ReleaseCheck(u);
        case Posting => a := EndPost(u);
        case PostReleasing => a := ReleasePost(u);
      }
      if a.EndCheck? || a.EndPost? {
        CloserTask(g.tasks, u, if a.EndCheck? then CheckReleasing else PostReleasing);
      } else {
        GoneTask(g.tasks, u);
        NotifyKeepsDistance(g.tasks - {u});
      }
    } else {
      assert Checkers(g.tasks) == {} && Posters(g.tasks) == {};
      if u :| u in g.tasks && g.tasks[u].CheckWaiting? {
        assert g.tasks[u] != CheckWaiting(false);
        a := WakeCheck(u);
        CloserTask(g.tasks, u, Checking);
        NotifyKeepsDistance(g.tasks[u := Checking]);
      } else {
        var t :| t in g.tasks;
        assert Counted(g.tasks) == {};
        assert g.tasks[t] != PostWaiting(false);
        a := WakePost(t);
        CloserTask(g.tasks, t, Posting);
      }
    }
  }

  /** From every reachable state the tasks at the gate can all finish with no new
      arrival or cancellation, and the gate is then open again. */
  lemma {:induction false} AlwaysDrains(g: Gate) returns (run: seq<Action>)
    requires Exact(g)
    ensures Possible(g, run) && (forall i :: 0 <= i < |run| ==> Forward(run[i]))
    ensures Run(g, run) == Open
    decreases Remaining(g.tasks)
  {
    if g.tasks == map[] {
      run := [];
      assert Checkers(g.tasks) == {} && Counted(g.tasks) == {} && Posters(g.tasks) == {};
    } else {
      var a := NeverStuck(g);
      StepExact(g, a);
      var rest := AlwaysDrains(Step(g, a));
      run := [a] + rest;
      assert run[1..] == rest;
    }
  }

  /** A gate that everyone has left is open again, whatever was cancelled on the way. */
  lemma EveryExitReleases(run: seq<Action>)
    requires Possible(Open, run) && Run(Open, run).tasks == map[]
    ensures Run(Open, run) == Open
  {
    assert Exact(Open);
    RunExact(Open, run);
    var g := Run(Open, run);
    assert Checkers(g.tasks) == {} && Counted(g.tasks) == {} && Posters(g.tasks) == {};
  }
}
