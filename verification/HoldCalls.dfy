/** Exactly which admitted calls tie a knot in an acyclic hold graph. */
module HoldCalls {
  import opened Basics
  import opened Graphs
  import opened Records
  import opened Waiting
  import opened Lifecycle
  import opened Definition
  import opened DefinitionSafety
  import opened GatesAndPlans
  import opened Outlines
  import opened OutlineSoundness
  import opened OutlineStart
  import opened Invariants
  import opened Settlement
  import opened Deadlock
  import opened HoldChanges
  import opened HoldGrowth
  import opened Finishing
  import opened Runs

  // ---- the calls ----

  lemma StartLive(s: State, c: Caller, x: nat, why: Option<string>, session: Option<string>) returns (u: State)
    requires Start(s, c, x, why, session).Committed? && x in s.tasks && s.tasks[x].replacement.None?
    ensures Start(s, c, x, why, session) == Committed(u) && Alike(s, u)
  {
    u := Start(s, c, x, why, session).state;
  }

  lemma AlikeGrown(s: State, u: State, v: State, N: set<nat>, p: Option<nat>, edges: Graph)
    requires Grown(s, u, N, p, edges) && Alike(u, v)
    ensures Grown(s, v, N, p, edges)
  {
  }

  lemma {:induction false} AddDepsLinks(s: State, c: Caller, x: nat, deps: seq<nat>, why: Option<string>)
    returns (v: State)
    requires AddDeps(s, c, x, deps, why).Committed?
    ensures AddDeps(s, c, x, deps, why) == Committed(v)
    ensures v.tasks == s.tasks && v.deps == s.deps + EdgesFrom(x, deps)
    ensures forall d :: d in deps ==> d in s.tasks && !s.tasks[d].status.Retired? && d != x
    decreases |deps|
  {
    if deps == [] {
      v := s;
    } else {
      var u := AddDep(s, c, x, deps[0], why).state;
      v := AddDepsLinks(u, c, x, deps[1..], why);
      assert EdgesFrom(x, deps) == {(x, deps[0])} + EdgesFrom(x, deps[1..]);
    }
  }

  lemma RowGrown(s: State, c: Caller, plan: nat, n: Creation) returns (u: State)
    requires CreateRow(s, c, plan, n).Committed?
    ensures CreateRow(s, c, plan, n) == Committed(u) && Grown(s, u, {NextTask(s)}, n.parent, {})
  {
    u := CreateRow(s, c, plan, n).state;
    assert Inside({}, {NextTask(s)}) == {};
    RankAcyclic({}, map[]);
  }

  lemma CreateGrown(s: State, c: Caller, plan: nat, n: Creation) returns (u: State)
    requires Create(s, c, plan, n).Committed?
    ensures Create(s, c, plan, n) == Committed(u)
    ensures Grown(s, u, {NextTask(s)}, n.parent, EdgesFrom(NextTask(s), n.deps))
  {
    var x := NextTask(s);
    var row := RowGrown(s, c, plan, n);
    u := AddDepsLinks(row, c, x, n.deps, n.why);
    assert Inside(EdgesFrom(x, n.deps), {x}) == {};
    RankAcyclic({}, map[]);
  }

  lemma AddGrown(s: State, c: Caller, selector: PlanSelector, n: Creation, start: bool, session: Option<string>)
    returns (u: State)
    requires AddTask(s, c, selector, n, start, session).Committed?
    ensures AddTask(s, c, selector, n, start, session) == Committed(u)
    ensures Grown(s, u, {NextTask(s)}, n.parent, EdgesFrom(NextTask(s), n.deps))
  {
    var x := NextTask(s);
    u := CreateGrown(s, c, SelectedPlan(s, selector, n.parent), n);
    if start {
      var v := StartLive(u, c, x, n.why, session);
      AlikeGrown(s, u, v, {x}, n.parent, EdgesFrom(x, n.deps));
      u := v;
    }
  }

  /** An edge of a valid outline starts at a child and ends at another child or at a task that is not retired. */
  lemma WantedEdge(s: State, parent: nat, o: Outline, base: nat, e: Edge)
    requires Snapshot(s, base) && KeysValid(o) && DepsValid(s, parent, o) && Wanted(o, base, e.0, e.1)
    ensures e.0 in Range(base, |o.children|)
    ensures e.1 in s.tasks ==> e.1 !in Range(base, |o.children|) && !s.tasks[e.1].status.Retired?
    ensures e.1 in Range(base, |o.children|) ==> (e.0 - base, e.1 - base) in SiblingGraph(o)
  {
    WantedKinds(s, parent, o, base, e.0, e.1);
  }

  lemma SiblingsInside(s: State, parent: nat, o: Outline, base: nat)
    requires Snapshot(s, base) && KeysValid(o) && DepsValid(s, parent, o) && Acyclic(SiblingGraph(o))
    ensures var edges := WantedEdges(o, base, AllNodes(s, o, base));
            && Acyclic(Inside(edges, Range(base, |o.children|)))
            && forall e :: e in edges ==> e.0 in Range(base, |o.children|)
                                          && (e.1 in s.tasks ==> !s.tasks[e.1].status.Retired?)
  {
    var edges, N := WantedEdges(o, base, AllNodes(s, o, base)), Range(base, |o.children|);
    forall e | e in edges
      ensures e.0 in N && (e.1 in s.tasks ==> !s.tasks[e.1].status.Retired?)
      ensures e.1 in N ==> (e.0 - base, e.1 - base) in SiblingGraph(o)
    {
      WantedEdge(s, parent, o, base, e);
    }
    var f := map x | x in N :: x - base;
    MapAcyclic(Inside(edges, N), SiblingGraph(o), f);
  }

  lemma LinkedGrown(s: State, u: State, parent: nat, o: Outline, base: nat)
    requires parent in s.tasks && Live(s.tasks[parent].status) && Starting(s, u, parent, o, base, 0)
    requires Acyclic(SiblingGraph(o))
    ensures Grown(s, u, Range(base, |o.children|), Some(parent), WantedEdges(o, base, AllNodes(s, o, base)))
  {
    SiblingsInside(s, parent, o, base);
    assert u.tasks.Keys == AllNodes(s, o, base);
    forall x | x in Range(base, |o.children|) ensures NewChild(u.tasks[x], parent, s.tasks[parent].plan) { }
  }

  lemma StartedChildAlike(s: State, u: State, v: State, c: Caller, o: Outline, base: nat, session: Option<string>,
                          j: nat)
    requires StartChild(s, v, c, base, o, session, j).Committed? && Alike(u, v)
    requires j < |o.children| ==> base + j in u.tasks && u.tasks[base + j].replacement.None?
    ensures Alike(u, StartChild(s, v, c, base, o, session, j).state)
  {
    if j < |o.children| && Ready(s, o, j) {
      var w := StartLive(v, c, base + j, WhyFor(o, j), session);
      AlikeTrans(u, v, w);
    }
  }

  lemma StartedChildrenAlike(s: State, u: State, c: Caller, o: Outline, base: nat, session: Option<string>)
    requires StartChildren(s, u, c, base, o, session).Committed?
    requires forall x :: x in Range(base, |o.children|) ==> x in u.tasks && u.tasks[x].replacement.None?
    ensures Alike(u, StartChildren(s, u, c, base, o, session).state)
  {
    var step: (State, nat) -> Outcome := (v: State, i: nat) => StartChild(s, v, c, base, o, session, i);
    var keeps := (v: State) => Alike(u, v);
    forall v, j: nat | keeps(v) && step(v, j).Committed? ensures keeps(step(v, j).state) {
      if j < |o.children| { assert base + j in Range(base, |o.children|); }
      StartedChildAlike(s, u, v, c, o, base, session, j);
    }
    AlikeItself(u);
    StepsKeep(step, keeps, u, 0, |o.children|);
  }

  lemma ChildrenGrown(s: State, u: State, c: Caller, parent: nat, o: Outline, base: nat, session: Option<string>)
    returns (v: State)
    requires parent in s.tasks && Live(s.tasks[parent].status) && Starting(s, u, parent, o, base, 0)
    requires Acyclic(SiblingGraph(o)) && StartChildren(s, u, c, base, o, session).Committed?
    ensures StartChildren(s, u, c, base, o, session) == Committed(v)
    ensures Grown(s, v, Range(base, |o.children|), Some(parent), WantedEdges(o, base, AllNodes(s, o, base)))
  {
    v := StartChildren(s, u, c, base, o, session).state;
    LinkedGrown(s, u, parent, o, base);
    StartedChildrenAlike(s, u, c, o, base, session);
    AlikeGrown(s, u, v, Range(base, |o.children|), Some(parent), WantedEdges(o, base, AllNodes(s, o, base)));
  }

  /** A decomposition that goes through was valid, and leaves the children with their edges in place. */
  lemma DecomposeGrown(s: State, c: Caller, parent: nat, o: Outline, startReady: bool, session: Option<string>)
    returns (u: State)
    requires Inv(s) && Decompose(s, c, parent, o, startReady, session).Committed?
    ensures Decompose(s, c, parent, o, startReady, session) == Committed(u) && ValidFor(s, parent, o, NextTask(s))
    ensures Grown(s, u, Range(NextTask(s), |o.children|), Some(parent),
                  WantedEdges(o, NextTask(s), AllNodes(s, o, NextTask(s))))
  {
    var base := NextTask(s);
    InvSnapshot(s);
    ApplicationCommits(s, c, parent, o, startReady);
    var made := MakeChildren(s, c, s.tasks[parent].plan, parent, o).state;
    u := LinkChildren(made, c, base, o).state;
    if startReady {
      u := ChildrenGrown(s, u, c, parent, o, base, session);
    } else {
      LinkedGrown(s, u, parent, o, base);
    }
  }

  ghost predicate ValidFor(s: State, parent: nat, o: Outline, base: nat) {
    Snapshot(s, base) && KeysValid(o) && DepsValid(s, parent, o)
  }

  // ---- which calls tie a knot ----

  ghost predicate AddingKnots(s: State, n: Creation) {
    && n.parent.Some?
    && exists d :: d in n.deps && d in s.tasks && Live(s.tasks[d].status) && Reach(HoldGraph(s), d, n.parent.value)
  }

  ghost predicate DecomposingKnots(s: State, parent: nat, o: Outline) {
    exists i, d :: 0 <= i < |o.children| && TaskNumber(d) in o.children[i].deps && d in s.tasks
                   && Live(s.tasks[d].status) && Reach(HoldGraph(s), d, parent)
  }

  ghost predicate EditingKnots(s: State, x: nat, edit: TaskEdit) {
    && x in s.tasks && Live(s.tasks[x].status) && edit.parent.Some? && edit.parent.value.Some?
    && Reach(HoldGraph(s), x, edit.parent.value.value)
  }

  ghost predicate LinkingKnots(s: State, x: nat, on: nat) {
    on in s.tasks && Live(s.tasks[on].status) && Reach(HoldGraph(s), on, x)
  }

  ghost predicate ReplacingKnots(s: State, x: nat, r: nat) {
    r in s.tasks && Live(s.tasks[r].status) && exists a :: a in HeldBy(s, x) && Reach(HoldGraph(s), r, a)
  }

  /** In every case the call makes something wait for what already waits for it: through held tasks, where the guards
      of the planner ask about waiting tasks. */
  ghost predicate TiesKnot(s: State, a: Action) {
    match a
    case DoAdd(_, n, _, _) => AddingKnots(s, n)
    case DoDecompose(parent, o, _, _) => DecomposingKnots(s, parent, o)
    case DoEdit(x, edit, _, _) => EditingKnots(s, x, edit)
    case DoAddDep(x, on, _) => LinkingKnots(s, x, on)
    case DoReopen(x, _) => x in s.tasks && Closed(s.tasks[x].status) && ReopeningKnots(s, x)
    case DoRetire(x, Some(r), _) => ReplacingKnots(s, x, r)
    case _ => false
  }

  lemma AddingIsBack(s: State, n: Creation, x: nat)
    ensures AddingKnots(s, n) <==> n.parent.Some? && EdgeBack(s, EdgesFrom(x, n.deps), n.parent.value)
  {
    if AddingKnots(s, n) {
      var d :| d in n.deps && d in s.tasks && Live(s.tasks[d].status) && Reach(HoldGraph(s), d, n.parent.value);
      var e: Edge := (x, d);
      assert e in EdgesFrom(x, n.deps) && Reach(HoldGraph(s), e.1, n.parent.value);
    }
  }

  lemma AddKnots(s: State, c: Caller, selector: PlanSelector, n: Creation, start: bool, session: Option<string>)
    returns (u: State)
    requires Inv(s) && AddTask(s, c, selector, n, start, session).Committed? && Acyclic(HoldGraph(s))
    ensures AddTask(s, c, selector, n, start, session) == Committed(u)
    ensures Acyclic(HoldGraph(u)) <==> !AddingKnots(s, n)
  {
    var x := NextTask(s);
    u := AddGrown(s, c, selector, n, start, session);
    GrownKnots(s, u, {x}, n.parent, EdgesFrom(x, n.deps));
    AddingIsBack(s, n, x);
  }

  lemma DecomposedEdge(s: State, parent: nat, o: Outline, base: nat, i: nat, d: nat)
    requires ValidFor(s, parent, o, base) && i < |o.children| && d in s.tasks
    ensures (base + i, d) in WantedEdges(o, base, AllNodes(s, o, base)) <==> TaskNumber(d) in o.children[i].deps
  {
    ExistingTarget(s, parent, o, base, i, d);
    assert base + i in Range(base, |o.children|) && InRange(base, |o.children|, base + i);
    assert Wanted(o, base, base + i, d) <==> d in Targets(o, base, o.children[i].deps);
  }

  lemma BackByDecomposing(s: State, parent: nat, o: Outline, base: nat)
    requires ValidFor(s, parent, o, base) && DecomposingKnots(s, parent, o)
    ensures EdgeBack(s, WantedEdges(o, base, AllNodes(s, o, base)), parent)
  {
    var i, d :| 0 <= i < |o.children| && TaskNumber(d) in o.children[i].deps && d in s.tasks
                && Live(s.tasks[d].status) && Reach(HoldGraph(s), d, parent);
    DecomposedEdge(s, parent, o, base, i, d);
    var e: Edge := (base + i, d);
    assert e in WantedEdges(o, base, AllNodes(s, o, base)) && Reach(HoldGraph(s), e.1, parent);
  }

  lemma DecomposingByBack(s: State, parent: nat, o: Outline, base: nat)
    requires ValidFor(s, parent, o, base) && EdgeBack(s, WantedEdges(o, base, AllNodes(s, o, base)), parent)
    ensures DecomposingKnots(s, parent, o)
  {
    var e :| e in WantedEdges(o, base, AllNodes(s, o, base)) && e.1 in s.tasks && Live(s.tasks[e.1].status)
             && Reach(HoldGraph(s), e.1, parent);
    assert Wanted(o, base, e.0, e.1);
    assert e == (base + (e.0 - base), e.1);
    DecomposedEdge(s, parent, o, base, e.0 - base, e.1);
  }

  lemma DecomposeKnots(s: State, c: Caller, parent: nat, o: Outline, startReady: bool, session: Option<string>)
    returns (u: State)
    requires Inv(s) && Decompose(s, c, parent, o, startReady, session).Committed? && Acyclic(HoldGraph(s))
    ensures Decompose(s, c, parent, o, startReady, session) == Committed(u)
    ensures Acyclic(HoldGraph(u)) <==> !DecomposingKnots(s, parent, o)
  {
    u := DecomposeGrown(s, c, parent, o, startReady, session);
    DecomposedKnots(s, u, parent, o, NextTask(s));
  }

  lemma DecomposedKnots(s: State, u: State, parent: nat, o: Outline, base: nat)
    requires Inv(s) && Acyclic(HoldGraph(s)) && ValidFor(s, parent, o, base)
    requires Grown(s, u, Range(base, |o.children|), Some(parent), WantedEdges(o, base, AllNodes(s, o, base)))
    ensures Acyclic(HoldGraph(u)) <==> !DecomposingKnots(s, parent, o)
  {
    GrownKnots(s, u, Range(base, |o.children|), Some(parent), WantedEdges(o, base, AllNodes(s, o, base)));
    if DecomposingKnots(s, parent, o) { BackByDecomposing(s, parent, o, base); }
    if EdgeBack(s, WantedEdges(o, base, AllNodes(s, o, base)), parent) { DecomposingByBack(s, parent, o, base); }
  }

  lemma ParentIsLive(s: State, x: nat)
    requires Rows(s) && x in s.tasks && Live(s.tasks[x].status) && s.tasks[x].parent.Some?
    ensures s.tasks[x].parent.value in s.tasks && Live(s.tasks[s.tasks[x].parent.value].status)
  {
    assert ParentOk(s, s.tasks[x]);
  }

  lemma EditParentLive(s: State, c: Caller, x: nat, edit: TaskEdit, why: Option<string>, visit: seq<nat>)
    requires Rows(s) && Edit(s, c, x, edit, why, visit).Committed?
    ensures var p := if edit.parent.Some? then edit.parent.value else s.tasks[x].parent;
            p.Some? && Live(s.tasks[x].status) ==> p.value in s.tasks && Live(s.tasks[p.value].status)
  {
    if edit.parent.None? && Live(s.tasks[x].status) && s.tasks[x].parent.Some? { ParentIsLive(s, x); }
  }

  lemma EditReparents(s: State, c: Caller, x: nat, edit: TaskEdit, why: Option<string>, visit: seq<nat>)
    returns (u: State)
    requires Edit(s, c, x, edit, why, visit).Committed?
    ensures Edit(s, c, x, edit, why, visit) == Committed(u) && Reparented(s, u, x)
    ensures u.tasks[x].parent == if edit.parent.Some? then edit.parent.value else s.tasks[x].parent
  {
    u := Edit(s, c, x, edit, why, visit).state;
    EditedShape(s, c, x, edit, why, visit);
  }

  /** A task that is held already does not hold its parent. */
  lemma NotHeldBack(s: State, x: nat)
    requires Rows(s) && x in s.tasks && Live(s.tasks[x].status) && s.tasks[x].parent.Some? && Acyclic(HoldGraph(s))
    ensures !Reach(HoldGraph(s), x, s.tasks[x].parent.value)
  {
    var p := s.tasks[x].parent.value;
    ParentIsLive(s, x);
    assert Holds(s, p, x);
    if Reach(HoldGraph(s), x, p) { EdgeOnReachIsCycle(HoldGraph(s), p, x); }
  }

  lemma EditKnots(s: State, c: Caller, x: nat, edit: TaskEdit, why: Option<string>, visit: seq<nat>)
    returns (u: State)
    requires Inv(s) && Edit(s, c, x, edit, why, visit).Committed? && Acyclic(HoldGraph(s))
    ensures Edit(s, c, x, edit, why, visit) == Committed(u)
    ensures Acyclic(HoldGraph(u)) <==> !EditingKnots(s, x, edit)
  {
    u := EditReparents(s, c, x, edit, why, visit);
    EditParentLive(s, c, x, edit, why, visit);
    ReparentedKnots(s, u, x);
    if edit.parent.None? && s.tasks[x].parent.Some? && Live(s.tasks[x].status) { NotHeldBack(s, x); }
  }

  lemma ReopenAs(s: State, c: Caller, x: nat, why: Option<string>) returns (u: State)
    requires Rows(s) && Reopen(s, c, x, why).Committed?
    ensures Reopen(s, c, x, why) == Committed(u) && x in s.tasks
    ensures if Closed(s.tasks[x].status) then Reopened(s, u, x) else LetsGo(s, u)
  {
    u := Reopen(s, c, x, why).state;
    assert RowOk(s, s.tasks[x]);
  }

  lemma ReopenKnots(s: State, c: Caller, x: nat, why: Option<string>) returns (u: State)
    requires Inv(s) && Reopen(s, c, x, why).Committed? && Acyclic(HoldGraph(s))
    ensures Reopen(s, c, x, why) == Committed(u) && x in s.tasks
    ensures Acyclic(HoldGraph(u)) <==> !(Closed(s.tasks[x].status) && ReopeningKnots(s, x))
  {
    u := ReopenAs(s, c, x, why);
    if Closed(s.tasks[x].status) {
      ReopenedKnots(s, u, x);
    } else {
      LetsGoKnotsNothing(s, u);
    }
  }

  lemma ReplaceKnots(s: State, c: Caller, x: nat, into: Option<nat>, why: Option<string>) returns (u: State)
    requires Inv(s) && into.Some? && Retire(s, c, x, into, why).Committed? && Acyclic(HoldGraph(s))
    ensures Retire(s, c, x, into, why) == Committed(u)
    ensures Acyclic(HoldGraph(u)) <==> !ReplacingKnots(s, x, into.value)
  {
    assert into == Some(into.value);
    u := Retire(s, c, x, into, why).state;
    RetiresAsStated(s, c, x, into.value, why);
    RetireKnots(s, u, x, into.value);
  }

  lemma AlikeLetsGo(s: State, u: State)
    requires Alike(s, u)
    ensures LetsGo(s, u)
  {
  }

  lemma StartLetsGo(s: State, c: Caller, x: nat, why: Option<string>, session: Option<string>)
    requires Rows(s) && Start(s, c, x, why, session).Committed?
    ensures LetsGo(s, Start(s, c, x, why, session).state)
  {
    assert RowOk(s, s.tasks[x]);
    var u := StartLive(s, c, x, why, session);
    AlikeLetsGo(s, u);
  }

  lemma CompleteLetsGo(s: State, c: Caller, x: nat, result: Option<string>)
    requires Rows(s) && Complete(s, c, x, result).Committed?
    ensures LetsGo(s, Complete(s, c, x, result).state)
  {
    assert RowOk(s, s.tasks[x]);
  }

  lemma TerminateLetsGo(s: State, c: Caller, x: nat, to: Status, why: Option<string>)
    requires Rows(s) && (to.Retired? || to.Rejected?) && Terminate(s, c, x, to, None, why).Committed?
    ensures LetsGo(s, Terminate(s, c, x, to, None, why).state)
  {
    assert RowOk(s, s.tasks[x]);
  }

  lemma StatusLetsGo(s: State, c: Caller, a: Action)
    requires Rows(s) && (a.DoStart? || a.DoComplete? || a.DoReject? || (a.DoRetire? && a.into.None?))
    requires PerformStatus(s, c, a).Committed?
    ensures LetsGo(s, PerformStatus(s, c, a).state)
  {
    match a
    case DoStart(x, why, session) => StartLetsGo(s, c, x, why, session);
    case DoComplete(x, result) => CompleteLetsGo(s, c, x, result);
    case DoRetire(x, _, why) => TerminateLetsGo(s, c, x, Retired, why);
    case DoReject(x, why) => TerminateLetsGo(s, c, x, Rejected, why);
  }

  lemma EasingKnotsNothing(s: State, c: Caller, a: Action) returns (u: State)
    requires Rows(s) && (a.DoStart? || a.DoComplete? || a.DoReject? || (a.DoRetire? && a.into.None?))
    requires PerformStatus(s, c, a).Committed? && Acyclic(HoldGraph(s))
    ensures PerformStatus(s, c, a) == Committed(u) && Acyclic(HoldGraph(u))
  {
    u := PerformStatus(s, c, a).state;
    StatusLetsGo(s, c, a);
    LetsGoKnotsNothing(s, u);
  }

  lemma TiesByReopening(s: State, a: Action, u: State)
    requires a.DoReopen? && a.x in s.tasks
    requires Acyclic(HoldGraph(u)) <==> !(Closed(s.tasks[a.x].status) && ReopeningKnots(s, a.x))
    ensures Acyclic(HoldGraph(u)) <==> !TiesKnot(s, a)
  {
  }

  lemma TiesByReplacing(s: State, a: Action, u: State)
    requires a.DoRetire? && a.into.Some? && (Acyclic(HoldGraph(u)) <==> !ReplacingKnots(s, a.x, a.into.value))
    ensures Acyclic(HoldGraph(u)) <==> !TiesKnot(s, a)
  {
  }

  lemma ReopeningCall(s: State, c: Caller, a: Action) returns (u: State)
    requires Inv(s) && a.DoReopen? && PerformStatus(s, c, a).Committed? && Acyclic(HoldGraph(s))
    ensures PerformStatus(s, c, a) == Committed(u) && (Acyclic(HoldGraph(u)) <==> !TiesKnot(s, a))
  {
    u := ReopenKnots(s, c, a.x, a.why);
    TiesByReopening(s, a, u);
  }

  lemma ReplacingCall(s: State, c: Caller, a: Action) returns (u: State)
    requires Inv(s) && a.DoRetire? && a.into.Some? && PerformStatus(s, c, a).Committed? && Acyclic(HoldGraph(s))
    ensures PerformStatus(s, c, a) == Committed(u) && (Acyclic(HoldGraph(u)) <==> !TiesKnot(s, a))
  {
    u := ReplaceKnots(s, c, a.x, a.into, a.why);
    TiesByReplacing(s, a, u);
  }

  lemma EasingCall(s: State, c: Caller, a: Action) returns (u: State)
    requires Inv(s) && (a.DoStart? || a.DoComplete? || a.DoReject? || (a.DoRetire? && a.into.None?))
    requires PerformStatus(s, c, a).Committed? && Acyclic(HoldGraph(s))
    ensures PerformStatus(s, c, a) == Committed(u) && (Acyclic(HoldGraph(u)) <==> !TiesKnot(s, a))
  {
    u := EasingKnotsNothing(s, c, a);
  }

  lemma StatusKnots(s: State, c: Caller, a: Action) returns (u: State)
    requires Inv(s) && StatusAction(a) && Acyclic(HoldGraph(s)) && PerformStatus(s, c, a).Committed?
    ensures PerformStatus(s, c, a) == Committed(u) && (Acyclic(HoldGraph(u)) <==> !TiesKnot(s, a))
  {
    if a.DoReopen? {
      u := ReopeningCall(s, c, a);
    } else if a.DoRetire? && a.into.Some? {
      u := ReplacingCall(s, c, a);
    } else {
      u := EasingCall(s, c, a);
    }
  }

  lemma AddingCall(s: State, c: Caller, a: Action) returns (u: State)
    requires Inv(s) && a.DoAdd? && PerformDefinition(s, c, a).Committed? && Acyclic(HoldGraph(s))
    ensures PerformDefinition(s, c, a) == Committed(u) && (Acyclic(HoldGraph(u)) <==> !TiesKnot(s, a))
  {
    u := AddKnots(s, c, a.selector, a.creation, a.start, a.session);
  }

  lemma EditingCall(s: State, c: Caller, a: Action) returns (u: State)
    requires Inv(s) && a.DoEdit? && PerformDefinition(s, c, a).Committed? && Acyclic(HoldGraph(s))
    ensures PerformDefinition(s, c, a) == Committed(u) && (Acyclic(HoldGraph(u)) <==> !TiesKnot(s, a))
  {
    u := EditKnots(s, c, a.x, a.edit, a.why, a.visit);
  }

  lemma TiesByDecomposing(s: State, a: Action, u: State)
    requires a.DoDecompose? && (Acyclic(HoldGraph(u)) <==> !DecomposingKnots(s, a.x, a.outline))
    ensures Acyclic(HoldGraph(u)) <==> !TiesKnot(s, a)
  {
  }

  lemma DecomposingCall(s: State, c: Caller, a: Action) returns (u: State)
    requires Inv(s) && a.DoDecompose? && PerformDefinition(s, c, a).Committed? && Acyclic(HoldGraph(s))
    ensures PerformDefinition(s, c, a) == Committed(u) && (Acyclic(HoldGraph(u)) <==> !TiesKnot(s, a))
  {
    u := DecomposeKnots(s, c, a.x, a.outline, a.startReady, a.session);
    TiesByDecomposing(s, a, u);
  }

  lemma DefinitionKnots(s: State, c: Caller, a: Action) returns (u: State)
    requires Inv(s) && DefinitionAction(a) && PerformDefinition(s, c, a).Committed? && Acyclic(HoldGraph(s))
    ensures PerformDefinition(s, c, a) == Committed(u) && (Acyclic(HoldGraph(u)) <==> !TiesKnot(s, a))
  {
    if a.DoAdd? {
      u := AddingCall(s, c, a);
    } else if a.DoEdit? {
      u := EditingCall(s, c, a);
    } else {
      u := DecomposingCall(s, c, a);
    }
  }

  lemma MoveLetsGo(s: State, c: Caller, sequences: seq<nat>, slug: string, why: Option<string>)
    requires MovePlan(s, c, sequences, slug, why).Committed?
    ensures LetsGo(s, MovePlan(s, c, sequences, slug, why).state)
  {
    RelocateIsRehomed(s, c, Sorted(sequences), PlanOfSlug(s, slug), Given(why));
  }

  lemma LinkKnots(s: State, c: Caller, a: Action)
    requires LinkAction(a) && PerformLink(s, c, a).Committed? && Acyclic(HoldGraph(s))
    ensures Acyclic(HoldGraph(PerformLink(s, c, a).state)) <==> !TiesKnot(s, a)
  {
    match a
    case DoAddDep(x, on, why) => AddDepKnots(s, c, x, on, why);
    case DoRemoveDep(x, on, why) => LetsGoKnotsNothing(s, RemoveDep(s, c, x, on, why).state);
    case DoMovePlan(sequences, slug, why) =>
      MoveLetsGo(s, c, sequences, slug, why);
      LetsGoKnotsNothing(s, MovePlan(s, c, sequences, slug, why).state);
  }

  lemma GatesLetGo(s: State, u: State, x: nat)
    requires x in s.tasks && u.deps == s.deps && exists gates :: u.tasks == s.tasks[x := s.tasks[x].(gates := gates)]
    ensures LetsGo(s, u)
  {
  }

  lemma GateLetsGo(s: State, c: Caller, a: Action)
    requires GateAction(a) && PerformGate(s, c, a).Committed?
    ensures LetsGo(s, PerformGate(s, c, a).state)
  {
    GatesLetGo(s, PerformGate(s, c, a).state, a.x);
  }

  lemma PlanLetsGo(s: State, c: Caller, a: Action)
    requires PlanAction(a) && PerformPlan(s, c, a).Committed?
    ensures LetsGo(s, PerformPlan(s, c, a).state)
  {
  }

  /** Which calls keep a planner free of hold loops, call by call. */
  lemma KnotsExactly(s: State, call: Call)
    requires Inv(s) && Acyclic(HoldGraph(s)) && Perform(s, call).Committed?
    ensures Acyclic(HoldGraph(Step(s, call))) <==> !TiesKnot(s, call.action)
  {
    var c, a := call.caller, call.action;
    if StatusAction(a) {
      var u := StatusKnots(s, c, a);
    } else if DefinitionAction(a) {
      var u := DefinitionKnots(s, c, a);
    } else if LinkAction(a) {
      LinkKnots(s, c, a);
    } else if GateAction(a) {
      GateLetsGo(s, c, a);
      LetsGoKnotsNothing(s, PerformGate(s, c, a).state);
    } else {
      PlanLetsGo(s, c, a);
      LetsGoKnotsNothing(s, PerformPlan(s, c, a).state);
    }
  }
}
