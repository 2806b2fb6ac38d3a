/** Every mutation but reopening a closed task keeps done tasks settled. */
module SettlementRuns {
  import opened Basics
  import opened Graphs
  import opened Records
  import opened Waiting
  import opened Lifecycle
  import opened Definition
  import opened DefinitionSafety
  import opened GatesAndPlans
  import opened Outlines
  import opened OutlineSoundness
  import opened Invariants
  import opened Settlement
  import opened Runs

  /** Statuses, links and at most the old dependencies. */
  lemma SameStatusesGentle(s: State, u: State)
    requires u.tasks.Keys == s.tasks.Keys && u.deps <= s.deps
    requires forall y :: y in s.tasks ==>
               u.tasks[y].status == s.tasks[y].status && u.tasks[y].replacement == s.tasks[y].replacement
    ensures Gentle(s, u)
  {
  }

  lemma LiveChangeGentle(s: State, u: State, x: nat)
    requires x in s.tasks && Live(s.tasks[x].status) && u.deps == s.deps
    requires x in u.tasks && !u.tasks[x].status.Done? && u.tasks.Keys == s.tasks.Keys
    requires forall y :: y in s.tasks && y != x ==> u.tasks[y] == s.tasks[y]
    ensures Gentle(s, u)
  {
  }

  lemma CreateRowGentle(s: State, c: Caller, plan: nat, n: Creation)
    requires Inv(s) && CreateRow(s, c, plan, n).Committed?
    ensures Gentle(s, CreateRow(s, c, plan, n).state)
  {
    var u := CreateRow(s, c, plan, n).state;
    NewRowGentle(s, u, NextTask(s));
  }

  lemma NewRowGentle(s: State, u: State, x: nat)
    requires x !in s.tasks && x in u.tasks && !u.tasks[x].status.Done? && u.deps == s.deps
    requires u.tasks.Keys == s.tasks.Keys + {x} && forall y :: y in s.tasks ==> u.tasks[y] == s.tasks[y]
    ensures Gentle(s, u)
  {
  }

  lemma AddDepGentle(s: State, c: Caller, x: nat, on: nat, why: Option<string>)
    requires AddDep(s, c, x, on, why).Committed?
    ensures Gentle(s, AddDep(s, c, x, on, why).state)
  {
  }

  lemma RemoveDepGentle(s: State, c: Caller, x: nat, on: nat, why: Option<string>)
    requires RemoveDep(s, c, x, on, why).Committed?
    ensures Gentle(s, RemoveDep(s, c, x, on, why).state)
  {
    SameStatusesGentle(s, RemoveDep(s, c, x, on, why).state);
  }

  lemma {:induction false} AddDepsGentle(s: State, c: Caller, x: nat, deps: seq<nat>, why: Option<string>)
    requires AddDeps(s, c, x, deps, why).Committed?
    ensures Gentle(s, AddDeps(s, c, x, deps, why).state)
    decreases |deps|
  {
    if deps != [] {
      var u := AddDep(s, c, x, deps[0], why).state;
      AddDepGentle(s, c, x, deps[0], why);
      AddDepsGentle(u, c, x, deps[1..], why);
      GentleTrans(s, u, AddDeps(u, c, x, deps[1..], why).state);
    }
  }

  lemma StartGentle(s: State, c: Caller, x: nat, why: Option<string>, session: Option<string>)
    requires Start(s, c, x, why, session).Committed?
    ensures Gentle(s, Start(s, c, x, why, session).state)
  {
    LiveChangeGentle(s, Start(s, c, x, why, session).state, x);
  }

  lemma TerminateGentle(s: State, c: Caller, x: nat, to: Status, into: Option<nat>, why: Option<string>)
    requires to.Retired? || (to.Rejected? && into.None?)
    requires Terminate(s, c, x, to, into, why).Committed?
    ensures Gentle(s, Terminate(s, c, x, to, into, why).state)
  {
    LiveChangeGentle(s, Terminate(s, c, x, to, into, why).state, x);
  }

  lemma AddTaskGentle(s: State, c: Caller, selector: PlanSelector, n: Creation, start: bool, session: Option<string>)
    requires Inv(s) && AddTask(s, c, selector, n, start, session).Committed?
    ensures Gentle(s, AddTask(s, c, selector, n, start, session).state)
  {
    var plan := SelectedPlan(s, selector, n.parent);
    var row := CreateRow(s, c, plan, n).state;
    var created := Create(s, c, plan, n).state;
    CreateRowGentle(s, c, plan, n);
    AddDepsGentle(row, c, NextTask(s), n.deps, n.why);
    GentleTrans(s, row, created);
    if start {
      StartGentle(created, c, NextTask(s), n.why, session);
      GentleTrans(s, created, AddTask(s, c, selector, n, start, session).state);
    }
  }

  lemma EditGentle(s: State, c: Caller, x: nat, edit: TaskEdit, why: Option<string>, visit: seq<nat>)
    requires Edit(s, c, x, edit, why, visit).Committed?
    ensures Gentle(s, Edit(s, c, x, edit, why, visit).state)
  {
    EditedShape(s, c, x, edit, why, visit);
    SameStatusesGentle(s, Edit(s, c, x, edit, why, visit).state);
  }

  lemma MovePlanGentle(s: State, c: Caller, sequences: seq<nat>, slug: string, why: Option<string>)
    requires MovePlan(s, c, sequences, slug, why).Committed?
    ensures Gentle(s, MovePlan(s, c, sequences, slug, why).state)
  {
    RelocateIsRehomed(s, c, Sorted(sequences), PlanOfSlug(s, slug), Given(why));
    SameStatusesGentle(s, MovePlan(s, c, sequences, slug, why).state);
  }

  lemma MakeChildrenGentle(s: State, c: Caller, plan: nat, parent: nat, o: Outline)
    requires Inv(s) && MakeChildren(s, c, plan, parent, o).Committed?
    ensures Gentle(s, MakeChildren(s, c, plan, parent, o).state)
  {
    var step: (State, nat) -> Outcome := (u: State, i: nat) => MakeChild(u, c, plan, parent, o, i);
    var keeps := (u: State) => Gentle(s, u) && Inv(u);
    forall u, j: nat | keeps(u) && step(u, j).Committed? ensures keeps(step(u, j).state) {
      if j < |o.children| {
        CreateRowSafe(u, c, plan, ChildOf(o, j, parent));
        CreateRowGentle(u, c, plan, ChildOf(o, j, parent));
        GentleTrans(s, u, step(u, j).state);
      }
    }
    assert Gentle(s, s);
    StepsKeep(step, keeps, s, 0, |o.children|);
  }

  lemma LinkChildrenGentle(s: State, c: Caller, base: nat, o: Outline)
    requires LinkChildren(s, c, base, o).Committed?
    ensures Gentle(s, LinkChildren(s, c, base, o).state)
  {
    var step: (State, nat) -> Outcome := (u: State, i: nat) => LinkChild(u, c, base, o, i);
    var keeps := (u: State) => Gentle(s, u);
    forall u, j: nat | keeps(u) && step(u, j).Committed? ensures keeps(step(u, j).state) {
      if j < |o.children| {
        AddDepsGentle(u, c, base + j, Targets(o, base, o.children[j].deps), WhyFor(o, j));
        GentleTrans(s, u, step(u, j).state);
      }
    }
    assert Gentle(s, s);
    StepsKeep(step, keeps, s, 0, |o.children|);
  }

  lemma StartChildrenGentle(before: State, s: State, c: Caller, base: nat, o: Outline, session: Option<string>)
    requires StartChildren(before, s, c, base, o, session).Committed?
    ensures Gentle(s, StartChildren(before, s, c, base, o, session).state)
  {
    var step: (State, nat) -> Outcome := (u: State, i: nat) => StartChild(before, u, c, base, o, session, i);
    var keeps := (u: State) => Gentle(s, u);
    forall u, j: nat | keeps(u) && step(u, j).Committed? ensures keeps(step(u, j).state) {
      if j < |o.children| && Ready(before, o, j) {
        StartGentle(u, c, base + j, WhyFor(o, j), session);
        GentleTrans(s, u, step(u, j).state);
      }
    }
    assert Gentle(s, s);
    StepsKeep(step, keeps, s, 0, |o.children|);
  }

  lemma ApplyGentle(s: State, c: Caller, parent: nat, o: Outline, startReady: bool, session: Option<string>)
    requires Inv(s) && parent in s.tasks && Apply(s, c, parent, o, startReady, session).Committed?
    ensures Gentle(s, Apply(s, c, parent, o, startReady, session).state)
  {
    var made := MakeChildren(s, c, s.tasks[parent].plan, parent, o);
    MakeChildrenGentle(s, c, s.tasks[parent].plan, parent, o);
    var linked := LinkChildren(made.state, c, NextTask(s), o);
    LinkChildrenGentle(made.state, c, NextTask(s), o);
    GentleTrans(s, made.state, linked.state);
    if startReady {
      StartChildrenGentle(s, linked.state, c, NextTask(s), o, session);
      GentleTrans(s, linked.state, Apply(s, c, parent, o, startReady, session).state);
    }
  }

  lemma GateChangeGentle(s: State, c: Caller, a: Action)
    requires GateAction(a) && PerformGate(s, c, a).Committed?
    ensures Gentle(s, PerformGate(s, c, a).state)
  {
    GateCallRow(s, c, a);
    SameStatusesGentle(s, PerformGate(s, c, a).state);
  }

  lemma PlanChangeGentle(s: State, c: Caller, a: Action)
    requires PlanAction(a) && PerformPlan(s, c, a).Committed?
    ensures Gentle(s, PerformPlan(s, c, a).state)
  {
    SameStatusesGentle(s, PerformPlan(s, c, a).state);
  }

  lemma StatusChangeGentle(s: State, c: Caller, a: Action)
    requires StatusAction(a) && PerformStatus(s, c, a).Committed? && !a.DoComplete? && !a.DoReopen?
    ensures Gentle(s, PerformStatus(s, c, a).state)
  {
    match a
    case DoStart(x, why, session) => StartGentle(s, c, x, why, session);
    case DoRetire(x, into, why) => TerminateGentle(s, c, x, Retired, into, why);
    case DoReject(x, why) => TerminateGentle(s, c, x, Rejected, None, why);
  }

  lemma DecomposeGentle(s: State, c: Caller, x: nat, o: Outline, startReady: bool, session: Option<string>)
    requires Inv(s) && Decompose(s, c, x, o, startReady, session).Committed?
    ensures Gentle(s, Decompose(s, c, x, o, startReady, session).state)
  {
    ApplyGentle(s, c, x, o, startReady, session);
  }

  lemma DefinitionChangeGentle(s: State, c: Caller, a: Action)
    requires Inv(s) && DefinitionAction(a) && PerformDefinition(s, c, a).Committed?
    ensures Gentle(s, PerformDefinition(s, c, a).state)
  {
    match a
    case DoAdd(selector, n, start, session) => AddTaskGentle(s, c, selector, n, start, session);
    case DoEdit(x, edit, why, visit) => EditGentle(s, c, x, edit, why, visit);
    case DoDecompose(x, o, startReady, session) => DecomposeGentle(s, c, x, o, startReady, session);
  }

  lemma LinkChangeGentle(s: State, c: Caller, a: Action)
    requires LinkAction(a) && PerformLink(s, c, a).Committed?
    ensures Gentle(s, PerformLink(s, c, a).state)
  {
    match a
    case DoAddDep(x, on, why) => AddDepGentle(s, c, x, on, why);
    case DoRemoveDep(x, on, why) => RemoveDepGentle(s, c, x, on, why);
    case DoMovePlan(sequences, slug, why) => MovePlanGentle(s, c, sequences, slug, why);
  }

  /** Every mutation but reopening and completing is gentle. */
  lemma OthersGentle(s: State, call: Call)
    requires Inv(s) && Perform(s, call).Committed? && !call.action.DoReopen? && !call.action.DoComplete?
    ensures Gentle(s, Perform(s, call).state)
  {
    var c, a := call.caller, call.action;
    if StatusAction(a) { StatusChangeGentle(s, c, a); }
    else if DefinitionAction(a) { DefinitionChangeGentle(s, c, a); }
    else if LinkAction(a) { LinkChangeGentle(s, c, a); }
    else if GateAction(a) { GateChangeGentle(s, c, a); }
    else { PlanChangeGentle(s, c, a); }
  }

  /** Only reopening a closed task can unsettle a done one. */
  lemma SettlementKept(s: State, call: Call)
    requires Inv(s) && AllSettled(s)
    ensures AllSettled(Step(s, call)) <==>
            !(call.action.DoReopen? && Perform(s, call).Committed? && HeldThroughChain(s, call.action.x))
  {
    if Perform(s, call).Committed? {
      var a := call.action;
      if a.DoReopen? {
        ReopenSettlesExactly(s, call.caller, a.x, a.why);
      } else if a.DoComplete? {
        CompleteKeepsSettled(s, call.caller, a.x, a.result);
      } else {
        OthersGentle(s, call);
        GentleKeepsSettled(s, Step(s, call));
      }
    }
  }
}
