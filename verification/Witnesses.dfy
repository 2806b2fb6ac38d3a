/** Short runs from an empty authority that show where the guards stop short. */
module Witnesses {
  import opened Basics
  import opened Graphs
  import opened Records
  import opened Review
  import opened Waiting
  import opened Lifecycle
  import opened Definition
  import opened GatesAndPlans
  import opened Invariants
  import opened Settlement
  import opened Deadlock
  import opened Focus
  import opened Runs
  import opened Stepping

  function Row(status: Status, replacement: Option<nat>): Task {
    Task(0, None, replacement, "t", "", Feature, None, status, Next, None, [])
  }

  const ACTIVE_PLAN := Plan("p", "p", "", PlanActive)

  const PLAIN := Creation("t", "", Feature, None, [], Next, None)

  ghost predicate NoReviews(log: seq<Event>) {
    forall i :: 0 <= i < |log| ==> !log[i].payload.Reviewed?
  }

  /** What these runs need to know of a state: its tables, all rows roots of the one plan, and no review in the log. */
  ghost predicate Holding(s: State, rows: map<nat, Task>, deps: Graph) {
    && s.plans == [ACTIVE_PLAN] && s.tasks == rows && s.deps == deps && NoReviews(s.log)
    && forall x :: x in rows ==> rows[x] == Row(rows[x].status, rows[x].replacement)
  }

  lemma {:induction false} Unreviewed(log: seq<Event>, x: nat, filer: Option<Author>)
    requires NoReviews(log)
    ensures var r := Fold(log, x, filer).result; r.Some? ==> !r.value.1.state.Disputed?
    decreases |log|
  {
    if log != [] { Unreviewed(log[..|log| - 1], x, filer); }
  }

  lemma NothingDisputed(s: State, x: nat)
    requires NoReviews(s.log)
    ensures Undisputed(s, x)
  {
    forall r | r in s.tasks ensures !ResultDisputed(s, r) { Unreviewed(s.log, r, Filer(s.log, r)); }
  }

  lemma RootsWaitByDeps(s: State, rows: map<nat, Task>, deps: Graph)
    requires Holding(s, rows, deps)
    ensures Waits(s) == deps && forall x :: NoLiveChild(s, x)
  {
    assert ChildWaits(s) == {};
  }

  lemma NothingFrom(g: Graph, a: nat, b: nat)
    requires a != b && forall e :: e in g ==> e.0 != a
    ensures !Reach(g, a, b)
  {
    if Reach(g, a, b) { var n := ReachFirstHop(g, a, b); }
  }

  // ---- the calls ----

  lemma PlanMade(step: (State, Call) -> State, c: Caller)
    requires IsStep(step)
    ensures Holding(step(EMPTY, Call(c, DoAddPlan("p", "p", ""))), map[], {})
  {
    assert Trim("p") == "p";
    assert Holding(Step(EMPTY, Call(c, DoAddPlan("p", "p", ""))), map[], {});
  }

  lemma TaskMade(step: (State, Call) -> State, s: State, c: Caller, rows: map<nat, Task>, deps: Graph, n: nat)
    requires IsStep(step) && Holding(s, rows, deps) && n !in rows && (n == 1 || (n > 1 && n - 1 in rows))
    requires forall x :: x in rows ==> x < n
    ensures Holding(step(s, Call(c, DoAdd(ById(0), PLAIN, false, None))), rows[n := Row(Proposed, None)], deps)
  {
    assert Trim("t") == "t";
    assert NextTask(s) == n by { assert n > 1 ==> n - 1 in s.tasks.Keys; }
    assert Holding(Step(s, Call(c, DoAdd(ById(0), PLAIN, false, None))), rows[n := Row(Proposed, None)], deps);
  }

  lemma DepMade(step: (State, Call) -> State, s: State, c: Caller, rows: map<nat, Task>, deps: Graph, x: nat, on: nat)
    requires IsStep(step) && Holding(s, rows, deps) && x in rows && on in rows && x != on
    requires Live(rows[x].status) && Live(rows[on].status) && (x, on) !in deps
    requires forall e :: e in deps ==> e.0 != on
    ensures Holding(step(s, Call(c, DoAddDep(x, on, None))), rows, deps + {(x, on)})
  {
    RootsWaitByDeps(s, rows, deps);
    NothingFrom(deps, on, x);
    assert Holding(Step(s, Call(c, DoAddDep(x, on, None))), rows, deps + {(x, on)});
  }

  lemma ReplacedBy(step: (State, Call) -> State, s: State, c: Caller, rows: map<nat, Task>, deps: Graph, x: nat,
                   into: nat)
    requires IsStep(step) && Holding(s, rows, deps) && x in rows && into in rows && x != into
    requires rows[x] == Row(Proposed, None) && Live(rows[into].status)
    requires forall y :: y in rows ==> rows[y].replacement.None? && !rows[y].status.Done?
    ensures Holding(step(s, Call(c, DoRetire(x, Some(into), None))), rows[x := Row(Retired, Some(into))], deps)
  {
    RootsWaitByDeps(s, rows, deps);
    var closed := Transition(s, c, x, Retired, None, None, Some(into), None);
    assert Replacements(closed) == {(x, into)};
    RankAcyclic({(x, into)}, map[x := 1, into := 0]);
    assert Holding(Step(s, Call(c, DoRetire(x, Some(into), None))), rows[x := Row(Retired, Some(into))], deps);
  }

  lemma Completed(step: (State, Call) -> State, s: State, c: Caller, rows: map<nat, Task>, deps: Graph, x: nat)
    requires IsStep(step) && Holding(s, rows, deps) && x in rows && rows[x] == Row(Proposed, None) && DepsSettled(s, x)
    ensures Holding(step(s, Call(c, DoComplete(x, None))), rows[x := Row(Done, None)], deps)
  {
    RootsWaitByDeps(s, rows, deps);
    NothingDisputed(s, x);
    assert Holding(Step(s, Call(c, DoComplete(x, None))), rows[x := Row(Done, None)], deps);
  }

  // ---- reopening can unsettle a done task ----

  /** Add 1, 2 and 3; let 1 depend on 2; retire 2 into 3; complete 3 and then 1. */
  function Chained(c: Caller): seq<Call> {
    [Call(c, DoAddPlan("p", "p", "")),
     Call(c, DoAdd(ById(0), PLAIN, false, None)), Call(c, DoAdd(ById(0), PLAIN, false, None)),
     Call(c, DoAdd(ById(0), PLAIN, false, None)),
     Call(c, DoAddDep(1, 2, None)), Call(c, DoRetire(2, Some(3), None)),
     Call(c, DoComplete(3, None)), Call(c, DoComplete(1, None))]
  }

  const PROPOSED := Row(Proposed, None)

  const THREE := map[1 := PROPOSED, 2 := PROPOSED, 3 := PROPOSED]

  lemma NextCall(step: (State, Call) -> State, calls: seq<Call>, n: nat)
    requires n < |calls|
    ensures Run(step, EMPTY, calls[..n + 1]) == step(Run(step, EMPTY, calls[..n]), calls[n])
  {
    TakeNext(calls, n);
    RunLast(step, EMPTY, calls[..n], calls[n]);
  }

  lemma TwoTasks(step: (State, Call) -> State, calls: seq<Call>, c: Caller)
    requires IsStep(step) && |calls| >= 3 && calls[0] == Call(c, DoAddPlan("p", "p", ""))
    requires calls[1] == calls[2] == Call(c, DoAdd(ById(0), PLAIN, false, None))
    ensures Holding(Run(step, EMPTY, calls[..3]), map[1 := PROPOSED, 2 := PROPOSED], {})
  {
    NextCall(step, calls, 0);
    NextCall(step, calls, 1);
    NextCall(step, calls, 2);
    PlanMade(step, c);
    TaskMade(step, Run(step, EMPTY, calls[..1]), c, map[], {}, 1);
    TaskMade(step, Run(step, EMPTY, calls[..2]), c, map[1 := PROPOSED], {}, 2);
    assert map[1 := PROPOSED][2 := PROPOSED] == map[1 := PROPOSED, 2 := PROPOSED];
  }

  lemma FirstEdge()
    ensures var none: Graph := {}; none + {(1, 2)} == {(1, 2)}
  {
  }

  lemma ThreeTasks(step: (State, Call) -> State, c: Caller)
    requires IsStep(step)
    ensures Holding(Run(step, EMPTY, Chained(c)[..4]), THREE, {})
  {
    var calls, two := Chained(c), map[1 := PROPOSED, 2 := PROPOSED];
    TwoTasks(step, calls, c);
    NextCall(step, calls, 3);
    TaskMade(step, Run(step, EMPTY, calls[..3]), c, two, {}, 3);
    assert two[3 := PROPOSED] == THREE;
  }

  lemma ThreeTasksLinked(step: (State, Call) -> State, c: Caller)
    requires IsStep(step)
    ensures Holding(Run(step, EMPTY, Chained(c)[..5]), THREE, {(1, 2)})
  {
    var calls := Chained(c);
    ThreeTasks(step, c);
    NextCall(step, calls, 4);
    DepMade(step, Run(step, EMPTY, calls[..4]), c, THREE, {}, 1, 2);
    FirstEdge();
  }

  lemma ReplacedInRun(step: (State, Call) -> State, c: Caller)
    requires IsStep(step)
    ensures Holding(Run(step, EMPTY, Chained(c)[..6]),
                    map[1 := PROPOSED, 2 := Row(Retired, Some(3)), 3 := PROPOSED], {(1, 2)})
  {
    var calls := Chained(c);
    ThreeTasksLinked(step, c);
    NextCall(step, calls, 5);
    ReplacedBy(step, Run(step, EMPTY, calls[..5]), c, THREE, {(1, 2)}, 2, 3);
    assert THREE[2 := Row(Retired, Some(3))] == map[1 := PROPOSED, 2 := Row(Retired, Some(3)), 3 := PROPOSED];
  }

  lemma ReplacedAndFinished(step: (State, Call) -> State, c: Caller)
    requires IsStep(step)
    ensures Holding(Run(step, EMPTY, Chained(c)[..7]),
                    map[1 := PROPOSED, 2 := Row(Retired, Some(3)), 3 := Row(Done, None)], {(1, 2)})
  {
    var calls := Chained(c);
    var retired := map[1 := PROPOSED, 2 := Row(Retired, Some(3)), 3 := PROPOSED];
    ReplacedInRun(step, c);
    NextCall(step, calls, 6);
    Completed(step, Run(step, EMPTY, calls[..6]), c, retired, {(1, 2)}, 3);
    assert retired[3 := Row(Done, None)] == map[1 := PROPOSED, 2 := Row(Retired, Some(3)), 3 := Row(Done, None)];
  }

  lemma ChainedHolds(step: (State, Call) -> State, c: Caller)
    requires IsStep(step)
    ensures Holding(Run(step, EMPTY, Chained(c)),
                    map[1 := Row(Done, None), 2 := Row(Retired, Some(3)), 3 := Row(Done, None)], {(1, 2)})
  {
    var calls := Chained(c);
    var rows := map[1 := PROPOSED, 2 := Row(Retired, Some(3)), 3 := Row(Done, None)];
    ReplacedAndFinished(step, c);
    NextCall(step, calls, 7);
    var s := Run(step, EMPTY, calls[..7]);
    SettledUnfold(s, 2);
    SettledUnfold(s, 3);
    Completed(step, s, c, rows, {(1, 2)}, 1);
    assert rows[1 := Row(Done, None)] == map[1 := Row(Done, None), 2 := Row(Retired, Some(3)), 3 := Row(Done, None)];
    TakeAll(calls);
  }

  lemma ChainedMayReopen(s: State, c: Caller, why: Option<string>)
    requires Holding(s, map[1 := Row(Done, None), 2 := Row(Retired, Some(3)), 3 := Row(Done, None)], {(1, 2)})
    ensures AllSettled(s) && HeldThroughChain(s, 3) && Reopen(s, c, 3, why).Committed?
  {
    SettledUnfold(s, 2);
    SettledUnfold(s, 3);
    LeadsToSelf(s, 3);
    LeadsToStep(s, 2, 3, 3);
    assert HeldThroughChain(s, 3) by { assert (1, 2) in s.deps; }
  }

  /** Reopening 3 at the end of that run is admitted and leaves done task 1 with an unsettled prerequisite. */
  lemma ReopenCanUnsettle(c: Caller, why: Option<string>)
    ensures var before := After(EMPTY, Chained(c));
            AllSettled(before) && Reopen(before, c, 3, why).Committed?
            && !AllSettled(After(EMPTY, Chained(c) + [Call(c, DoReopen(3, why))]))
  {
    var calls := Chained(c);
    var s := After(EMPTY, calls);
    var step := (u: State, call: Call) => Step(u, call);
    ChainedHolds(step, c);
    RunIsAfter(step, EMPTY, calls);
    ChainedMayReopen(s, c, why);
    EmptyInv();
    RunSafe(EMPTY, calls);
    ReopenSettlesExactly(s, c, 3, why);
    OneMoreCall(EMPTY, calls, Call(c, DoReopen(3, why)));
  }

  // ---- a replacement link can deadlock ----

  /** Add 1 and 2 and let 1 depend on 2. */
  function Depending(c: Caller): seq<Call> {
    [Call(c, DoAddPlan("p", "p", "")),
     Call(c, DoAdd(ById(0), PLAIN, false, None)), Call(c, DoAdd(ById(0), PLAIN, false, None)),
     Call(c, DoAddDep(1, 2, None))]
  }

  lemma DependingHolds(step: (State, Call) -> State, c: Caller)
    requires IsStep(step)
    ensures Holding(Run(step, EMPTY, Depending(c)), map[1 := PROPOSED, 2 := PROPOSED], {(1, 2)})
  {
    var calls := Depending(c);
    TwoTasks(step, calls, c);
    NextCall(step, calls, 3);
    DepMade(step, Run(step, EMPTY, calls[..3]), c, map[1 := PROPOSED, 2 := PROPOSED], {}, 1, 2);
    FirstEdge();
    TakeAll(calls);
  }

  lemma DependingDrains(s: State)
    requires Inv(s) && Holding(s, map[1 := PROPOSED, 2 := PROPOSED], {(1, 2)})
    ensures exists order :: Drains(s, order)
  {
    DeadlockFree(s);
  }

  lemma KnotMade(s: State, c: Caller)
    requires Holding(s, map[1 := PROPOSED, 2 := PROPOSED], {(1, 2)})
    ensures Retire(s, c, 2, Some(1), None).Committed?
    ensures var u := Step(s, Call(c, DoRetire(2, Some(1), None)));
            && u == Retire(s, c, 2, Some(1), None).state
            && LiveTasks(u) == {1} && !LiveOnRejected(u) && forall x :: !Unheld(u, x)
  {
    var both := map[1 := PROPOSED, 2 := PROPOSED];
    ReplacedBy((v: State, call: Call) => Step(v, call), s, c, both, {(1, 2)}, 2, 1);
    assert both[2 := Row(Retired, Some(1))] == map[1 := PROPOSED, 2 := Row(Retired, Some(1))];
    KnotHolds(Step(s, Call(c, DoRetire(2, Some(1), None))));
  }

  /** The replacement hypothesis of deadlock freedom is needed: after that run everything can be finished; retiring 2
      into its own dependent 1 is admitted, and then 1 is live and nothing can finish. */
  lemma ReplacementCanDeadlock(c: Caller)
    ensures var before := After(EMPTY, Depending(c));
            var knotted := After(EMPTY, Depending(c) + [Call(c, DoRetire(2, Some(1), None))]);
            && (exists order :: Drains(before, order)) && Retire(before, c, 2, Some(1), None) == Committed(knotted)
            && LiveTasks(knotted) == {1} && !LiveOnRejected(knotted) && forall x :: !Unheld(knotted, x)
  {
    var calls := Depending(c);
    var s := After(EMPTY, calls);
    var step := (u: State, call: Call) => Step(u, call);
    DependingHolds(step, c);
    RunIsAfter(step, EMPTY, calls);
    EmptyInv();
    RunSafe(EMPTY, calls);
    DependingDrains(s);
    KnotMade(s, c);
    OneMoreCall(EMPTY, calls, Call(c, DoRetire(2, Some(1), None)));
  }

  lemma KnotHolds(u: State)
    requires Holding(u, map[1 := PROPOSED, 2 := Row(Retired, Some(1))], {(1, 2)})
    ensures LiveTasks(u) == {1} && !LiveOnRejected(u) && forall x :: !Unheld(u, x)
  {
    SettledUnfold(u, 2);
    SettledUnfold(u, 1);
    assert (1, 2) in u.deps && !Settled(u, 2);
  }

  // ---- the unlock count misses a dependent that waits twice for the same work ----

  /** Add 1, 2 and 3; let 1 depend on 2 and on 3; retire 2 into 3. */
  function WaitingTwice(c: Caller): seq<Call> {
    [Call(c, DoAddPlan("p", "p", "")),
     Call(c, DoAdd(ById(0), PLAIN, false, None)), Call(c, DoAdd(ById(0), PLAIN, false, None)),
     Call(c, DoAdd(ById(0), PLAIN, false, None)),
     Call(c, DoAddDep(1, 2, None)), Call(c, DoAddDep(1, 3, None)), Call(c, DoRetire(2, Some(3), None))]
  }

  lemma SecondEdge()
    ensures var one: Graph := {(1, 2)}; one + {(1, 3)} == {(1, 2), (1, 3)}
  {
  }

  lemma WaitingTwiceHolds(step: (State, Call) -> State, c: Caller)
    requires IsStep(step)
    ensures Holding(Run(step, EMPTY, WaitingTwice(c)),
                    map[1 := PROPOSED, 2 := Row(Retired, Some(3)), 3 := PROPOSED], {(1, 2), (1, 3)})
  {
    var calls := WaitingTwice(c);
    assert calls[..5] == Chained(c)[..5];
    ThreeTasksLinked(step, c);
    NextCall(step, calls, 5);
    NextCall(step, calls, 6);
    DepMade(step, Run(step, EMPTY, calls[..5]), c, THREE, {(1, 2)}, 1, 3);
    SecondEdge();
    ReplacedBy(step, Run(step, EMPTY, calls[..6]), c, THREE, {(1, 2), (1, 3)}, 2, 3);
    assert THREE[2 := Row(Retired, Some(3))] == map[1 := PROPOSED, 2 := Row(Retired, Some(3)), 3 := PROPOSED];
    TakeAll(calls);
  }

  /** After that run finishing 3 leaves 1 without open dependencies, and 1 is not counted as unlocked by 3. */
  lemma UnlockIsMissed(c: Caller)
    ensures var s := After(EMPTY, WaitingTwice(c));
            && Entry(s, 3, 1) && !Counted(s, 3, 1)
            && Complete(s, c, 3, None).Committed? && DepsSettled(Complete(s, c, 3, None).state, 1)
  {
    var s := After(EMPTY, WaitingTwice(c));
    var step := (u: State, call: Call) => Step(u, call);
    WaitingTwiceHolds(step, c);
    RunIsAfter(step, EMPTY, WaitingTwice(c));
    WaitsTwice(s, c);
  }

  lemma WaitsTwice(s: State, c: Caller)
    requires Holding(s, map[1 := PROPOSED, 2 := Row(Retired, Some(3)), 3 := PROPOSED], {(1, 2), (1, 3)})
    ensures Entry(s, 3, 1) && !Counted(s, 3, 1)
    ensures Complete(s, c, 3, None).Committed? && DepsSettled(Complete(s, c, 3, None).state, 1)
  {
    RootsWaitByDeps(s, s.tasks, s.deps);
    NothingDisputed(s, 3);
    SettledUnfold(s, 2);
    SettledUnfold(s, 3);
    assert (1, 2) in s.deps && OpenDep(s, 1, 2);
    LeadsToSelf(s, 3);
    LeadsToStep(s, 2, 3, 3);
    CompletionSettles(s, c, 3, None, 2);
    CompletionSettles(s, c, 3, None, 3);
  }
}
