/** A loop of unfinished tasks stays unfinished until an edge goes or a task leaves the loop. */
module StuckLoops {
  import opened Basics
  import opened Graphs
  import opened Records
  import opened Waiting
  import opened Lifecycle
  import opened Definition
  import opened DefinitionSafety
  import opened GatesAndPlans
  import opened Outlines
  import opened OutlineSoundness
  import opened Runs

  predicate LiveTask(s: State, x: nat) { x in s.tasks && Live(s.tasks[x].status) }

  /** The dependency edges between unfinished tasks and every wait for an unfinished child. */
  ghost function UnfinishedWaits(s: State): (g: Graph)
    ensures forall e :: e in g <==>
              (e in s.deps && LiveTask(s, e.0) && LiveTask(s, e.1)) || e in ChildWaits(s)
  {
    (set e | e in s.deps && LiveTask(s, e.0) && LiveTask(s, e.1)) + ChildWaits(s)
  }

  /** A reported loop: every task on it is live and waits for the next. */
  ghost predicate StuckLoop(s: State, w: seq<nat>) {
    ClosedWalk(UnfinishedWaits(s), w) && forall i :: 0 <= i < |w| ==> LiveTask(s, w[i])
  }

  /** Every task on a closed walk of unfinished waits is itself unfinished. */
  lemma LoopTasksAreLive(s: State, w: seq<nat>)
    requires ClosedWalk(UnfinishedWaits(s), w)
    ensures StuckLoop(s, w)
  {
    forall i | 0 <= i < |w| ensures LiveTask(s, w[i]) {
      var y := HopIn(UnfinishedWaits(s), w, i);
      assert (y, w[i]) in UnfinishedWaits(s);
    }
  }

  /** Everything live in s, except perhaps one task, is live in u with the same parent, and no edge is gone. */
  ghost predicate Persists(s: State, u: State, except: set<nat>) {
    && s.deps <= u.deps
    && forall x :: LiveTask(s, x) && x !in except ==> LiveTask(u, x) && u.tasks[x].parent == s.tasks[x].parent
  }

  lemma LoopPersists(s: State, u: State, except: set<nat>, w: seq<nat>)
    requires StuckLoop(s, w) && Persists(s, u, except)
    requires forall i :: 0 <= i < |w| ==> w[i] !in except
    ensures StuckLoop(u, w)
  {
    forall i | 0 < i < |w| ensures (w[i - 1], w[i]) in UnfinishedWaits(u) {
      assert (w[i - 1], w[i]) in UnfinishedWaits(s);
    }
  }

  /** A task on the loop has an open dependency or an unfinished child, so its completion is refused. */
  lemma LoopRefusesCompletion(s: State, c: Caller, w: seq<nat>, i: nat, result: Option<string>)
    requires StuckLoop(s, w) && i < |w|
    ensures Complete(s, c, w[i], result).Refused?
  {
    var y := HopOut(UnfinishedWaits(s), w, i);
    var x := w[i];
    if (x, y) in s.deps && LiveTask(s, y) {
      SettledUnfold(s, y);
      assert OpenDep(s, x, y);
    } else {
      assert (x, y) in ChildWaits(s);
      assert LiveChild(s, x, y);
    }
  }

  lemma PersistsTrans(s: State, u: State, v: State)
    requires Persists(s, u, {}) && Persists(u, v, {})
    ensures Persists(s, v, {})
  {
  }

  lemma RowsPersist(s: State, u: State, x: nat)
    requires s.deps <= u.deps && s.tasks.Keys <= u.tasks.Keys
    requires forall y :: y in s.tasks && y != x ==>
               u.tasks[y].parent == s.tasks[y].parent && (Live(s.tasks[y].status) ==> Live(u.tasks[y].status))
    requires x in s.tasks ==> u.tasks[x].parent == s.tasks[x].parent && Live(u.tasks[x].status)
    ensures Persists(s, u, {})
  {
  }

  lemma SameRowsPersist(s: State, u: State)
    requires s.deps <= u.deps && s.tasks.Keys == u.tasks.Keys
    requires forall y :: y in s.tasks ==>
               u.tasks[y].parent == s.tasks[y].parent && u.tasks[y].status == s.tasks[y].status
    ensures Persists(s, u, {})
  {
  }

  lemma StartPersists(s: State, c: Caller, x: nat, why: Option<string>, session: Option<string>)
    requires Start(s, c, x, why, session).Committed?
    ensures Persists(s, Start(s, c, x, why, session).state, {})
  {
    RowsPersist(s, Start(s, c, x, why, session).state, x);
  }

  lemma ReopenPersists(s: State, c: Caller, x: nat, why: Option<string>)
    requires Reopen(s, c, x, why).Committed?
    ensures Persists(s, Reopen(s, c, x, why).state, {})
  {
    RowsPersist(s, Reopen(s, c, x, why).state, x);
  }

  lemma CompletePersists(s: State, c: Caller, x: nat, result: Option<string>)
    requires Complete(s, c, x, result).Committed?
    ensures Persists(s, Complete(s, c, x, result).state, {x})
  {
  }

  lemma CreateRowPersists(s: State, c: Caller, plan: nat, n: Creation)
    requires CreateRow(s, c, plan, n).Committed?
    ensures Persists(s, CreateRow(s, c, plan, n).state, {})
  {
    var u := CreateRow(s, c, plan, n).state;
    assert u.tasks.Keys == s.tasks.Keys + {NextTask(s)};
    RowsPersist(s, u, NextTask(s));
  }

  lemma {:induction false} AddDepsPersist(s: State, c: Caller, x: nat, deps: seq<nat>, why: Option<string>)
    requires AddDeps(s, c, x, deps, why).Committed?
    ensures Persists(s, AddDeps(s, c, x, deps, why).state, {})
    decreases |deps|
  {
    if deps != [] {
      var u := AddDep(s, c, x, deps[0], why).state;
      SameRowsPersist(s, u);
      AddDepsPersist(u, c, x, deps[1..], why);
      PersistsTrans(s, u, AddDeps(u, c, x, deps[1..], why).state);
    }
  }

  lemma AddTaskPersists(s: State, c: Caller, selector: PlanSelector, n: Creation, start: bool, session: Option<string>)
    requires AddTask(s, c, selector, n, start, session).Committed?
    ensures Persists(s, AddTask(s, c, selector, n, start, session).state, {})
  {
    var plan := SelectedPlan(s, selector, n.parent);
    var row := CreateRow(s, c, plan, n).state;
    var created := Create(s, c, plan, n).state;
    CreateRowPersists(s, c, plan, n);
    AddDepsPersist(row, c, NextTask(s), n.deps, n.why);
    PersistsTrans(s, row, created);
    if start {
      StartPersists(created, c, NextTask(s), n.why, session);
      PersistsTrans(s, created, AddTask(s, c, selector, n, start, session).state);
    }
  }

  lemma EditPersists(s: State, c: Caller, x: nat, edit: TaskEdit, why: Option<string>, visit: seq<nat>)
    requires Edit(s, c, x, edit, why, visit).Committed? && edit.parent.None?
    ensures Persists(s, Edit(s, c, x, edit, why, visit).state, {})
  {
    EditedShape(s, c, x, edit, why, visit);
    SameRowsPersist(s, Edit(s, c, x, edit, why, visit).state);
  }

  lemma MovePlanPersists(s: State, c: Caller, sequences: seq<nat>, slug: string, why: Option<string>)
    requires MovePlan(s, c, sequences, slug, why).Committed?
    ensures Persists(s, MovePlan(s, c, sequences, slug, why).state, {})
  {
    RelocateIsRehomed(s, c, Sorted(sequences), PlanOfSlug(s, slug), Given(why));
    SameRowsPersist(s, MovePlan(s, c, sequences, slug, why).state);
  }

  /** Steps that each persist persist together. */
  lemma StepsPersist(step: (State, nat) -> Outcome, s: State, n: nat)
    requires Steps(step, s, 0, n).Committed?
    requires forall u, j: nat :: step(u, j).Committed? ==> Persists(u, step(u, j).state, {})
    ensures Persists(s, Steps(step, s, 0, n).state, {})
  {
    var keeps := (u: State) => Persists(s, u, {});
    forall u, j: nat | keeps(u) && step(u, j).Committed? ensures keeps(step(u, j).state) {
      PersistsTrans(s, u, step(u, j).state);
    }
    StepsKeep(step, keeps, s, 0, n);
  }

  lemma DecomposePersists(s: State, c: Caller, parent: nat, o: Outline, startReady: bool, session: Option<string>)
    requires parent in s.tasks && Apply(s, c, parent, o, startReady, session).Committed?
    ensures Persists(s, Apply(s, c, parent, o, startReady, session).state, {})
  {
    var plan, base := s.tasks[parent].plan, NextTask(s);
    var make: (State, nat) -> Outcome := (u: State, i: nat) => MakeChild(u, c, plan, parent, o, i);
    forall u, j: nat | make(u, j).Committed? ensures Persists(u, make(u, j).state, {}) {
      if j < |o.children| { CreateRowPersists(u, c, plan, ChildOf(o, j, parent)); }
    }
    StepsPersist(make, s, |o.children|);
    var made := MakeChildren(s, c, plan, parent, o).state;
    LinkingPersists(made, c, base, o);
    var linked := LinkChildren(made, c, base, o).state;
    PersistsTrans(s, made, linked);
    if startReady {
      StartingPersists(s, linked, c, base, o, session);
      PersistsTrans(s, linked, StartChildren(s, linked, c, base, o, session).state);
    }
  }

  lemma LinkingPersists(s: State, c: Caller, base: nat, o: Outline)
    requires LinkChildren(s, c, base, o).Committed?
    ensures Persists(s, LinkChildren(s, c, base, o).state, {})
  {
    var step: (State, nat) -> Outcome := (u: State, i: nat) => LinkChild(u, c, base, o, i);
    forall u, j: nat | step(u, j).Committed? ensures Persists(u, step(u, j).state, {}) {
      if j < |o.children| { AddDepsPersist(u, c, base + j, Targets(o, base, o.children[j].deps), WhyFor(o, j)); }
    }
    StepsPersist(step, s, |o.children|);
  }

  lemma StartChildPersists(before: State, u: State, c: Caller, base: nat, o: Outline, session: Option<string>, j: nat)
    requires StartChild(before, u, c, base, o, session, j).Committed?
    ensures Persists(u, StartChild(before, u, c, base, o, session, j).state, {})
  {
    if j < |o.children| && Ready(before, o, j) { StartPersists(u, c, base + j, WhyFor(o, j), session); }
  }

  lemma StartingPersists(before: State, s: State, c: Caller, base: nat, o: Outline, session: Option<string>)
    requires StartChildren(before, s, c, base, o, session).Committed?
    ensures Persists(s, StartChildren(before, s, c, base, o, session).state, {})
  {
    var step: (State, nat) -> Outcome := (u: State, i: nat) => StartChild(before, u, c, base, o, session, i);
    forall u, j: nat | step(u, j).Committed? ensures Persists(u, step(u, j).state, {}) {
      StartChildPersists(before, u, c, base, o, session, j);
    }
    StepsPersist(step, s, |o.children|);
  }

  /** Mutations that neither remove an edge, move a task to another parent, retire nor reject. */
  predicate KeepsEdges(a: Action) {
    !a.DoRemoveDep? && !a.DoRetire? && !a.DoReject? && (a.DoEdit? ==> a.edit.parent.None?)
  }

  lemma StatusChangePersists(s: State, c: Caller, a: Action)
    requires StatusAction(a) && PerformStatus(s, c, a).Committed? && KeepsEdges(a) && !a.DoComplete?
    ensures Persists(s, PerformStatus(s, c, a).state, {})
  {
    match a
    case DoStart(x, why, session) => StartPersists(s, c, x, why, session);
    case DoReopen(x, why) => ReopenPersists(s, c, x, why);
  }

  lemma DefinitionChangePersists(s: State, c: Caller, a: Action)
    requires DefinitionAction(a) && PerformDefinition(s, c, a).Committed? && KeepsEdges(a)
    ensures Persists(s, PerformDefinition(s, c, a).state, {})
  {
    match a
    case DoAdd(selector, n, start, session) => AddTaskPersists(s, c, selector, n, start, session);
    case DoEdit(x, edit, why, visit) => EditPersists(s, c, x, edit, why, visit);
    case DoDecompose(x, o, startReady, session) => DecomposePersists(s, c, x, o, startReady, session);
  }

  lemma LinkChangePersists(s: State, c: Caller, a: Action)
    requires LinkAction(a) && PerformLink(s, c, a).Committed? && KeepsEdges(a)
    ensures Persists(s, PerformLink(s, c, a).state, {})
  {
    match a
    case DoAddDep(x, on, why) => SameRowsPersist(s, AddDep(s, c, x, on, why).state);
    case DoMovePlan(sequences, slug, why) => MovePlanPersists(s, c, sequences, slug, why);
  }

  lemma GateChangePersists(s: State, c: Caller, a: Action)
    requires GateAction(a) && PerformGate(s, c, a).Committed?
    ensures Persists(s, PerformGate(s, c, a).state, {})
  {
    GateCallRow(s, c, a);
    SameRowsPersist(s, PerformGate(s, c, a).state);
  }

  lemma PlanChangePersists(s: State, c: Caller, a: Action)
    requires PlanAction(a) && PerformPlan(s, c, a).Committed?
    ensures Persists(s, PerformPlan(s, c, a).state, {})
  {
    SameRowsPersist(s, PerformPlan(s, c, a).state);
  }

  lemma OthersPersist(s: State, call: Call)
    requires Perform(s, call).Committed? && KeepsEdges(call.action) && !call.action.DoComplete?
    ensures Persists(s, Perform(s, call).state, {})
  {
    var c, a := call.caller, call.action;
    if StatusAction(a) { StatusChangePersists(s, c, a); }
    else if DefinitionAction(a) { DefinitionChangePersists(s, c, a); }
    else if LinkAction(a) { LinkChangePersists(s, c, a); }
    else if GateAction(a) { GateChangePersists(s, c, a); }
    else { PlanChangePersists(s, c, a); }
  }

  lemma StepKeepsLoop(s: State, call: Call, w: seq<nat>)
    requires StuckLoop(s, w) && KeepsEdges(call.action)
    ensures StuckLoop(Step(s, call), w)
  {
    if Perform(s, call).Committed? {
      var u, a := Perform(s, call).state, call.action;
      if a.DoComplete? {
        forall i | 0 <= i < |w| ensures w[i] != a.x {
          LoopRefusesCompletion(s, call.caller, w, i, a.result);
        }
        CompletePersists(s, call.caller, a.x, a.result);
        LoopPersists(s, u, {a.x}, w);
      } else {
        OthersPersist(s, call);
        LoopPersists(s, u, {}, w);
      }
    }
  }

  /** In any state at all, imported or not: the tasks of an unfinished wait loop stay unfinished through every
      sequence of calls that removes no edge, moves no task to another parent, retires none and rejects none. */
  lemma {:induction false} LoopNeverFinishes(s: State, calls: seq<Call>, w: seq<nat>)
    requires StuckLoop(s, w)
    requires forall i :: 0 <= i < |calls| ==> KeepsEdges(calls[i].action)
    ensures StuckLoop(After(s, calls), w)
    decreases |calls|
  {
    if calls != [] {
      LoopNeverFinishes(s, calls[..|calls| - 1], w);
      StepKeepsLoop(After(s, calls[..|calls| - 1]), calls[|calls| - 1], w);
    }
  }
}
