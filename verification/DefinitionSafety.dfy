/** Every accepted creation, dependency change, edit and plan move keeps the invariants. */
module DefinitionSafety {
  import opened Basics
  import opened Graphs
  import opened Records
  import opened Waiting
  import opened Lifecycle
  import opened Definition
  import opened Invariants
  import opened LifecycleSafety

  // ---- creation and dependencies ----

  lemma NewRow(s: State, x: nat, t: Task)
    requires Rows(s) && x !in s.tasks && x > 0
    requires RowOk(s, t) && ParentOk(s, t) && t.replacement.None?
    ensures Rows(Put(s, x, t))
  {
    var u := Put(s, x, t);
    forall y | y in u.tasks
      ensures y > 0 && RowOk(u, u.tasks[y]) && ParentOk(u, u.tasks[y]) && ReplacementOk(u, u.tasks[y])
    {
      if y != x {
        assert RowOk(s, s.tasks[y]) && ParentOk(s, s.tasks[y]) && ReplacementOk(s, s.tasks[y]);
      }
    }
  }

  /** A new task is a leaf of the wait graph and a source of the parent graph. */
  lemma NewForests(s: State, x: nat, t: Task)
    requires Inv(s) && x !in s.tasks && ParentOk(s, t) && t.replacement.None?
    ensures Forests(Put(s, x, t)) && DepsOk(Put(s, x, t))
  {
    var u := Put(s, x, t);
    forall e | e in Waits(u) ensures (e in Waits(s) || e.1 == x) && e.0 != x {
      if e in ChildWaits(u) && e.1 != x { assert ParentOk(s, s.tasks[e.1]); }
    }
    IntoSinkAcyclic(Waits(s), Waits(u), x);
    forall e | e in Parents(u) ensures (e in Parents(s) || e.0 == x) && e.1 != x {
      if e.0 != x { assert ParentOk(s, s.tasks[e.0]); }
    }
    FromSourceAcyclic(Parents(s), Parents(u), x);
    assert Replacements(u) <= Replacements(s);
    AcyclicSubset(Replacements(u), Replacements(s));
  }

  lemma CreateRowSafe(s: State, c: Caller, plan: nat, n: Creation)
    requires Inv(s) && CreateRow(s, c, plan, n).Committed?
    ensures Inv(CreateRow(s, c, plan, n).state)
  {
    var x := NextTask(s);
    var t := Task(plan, n.parent, None, Trim(n.title), n.intent, n.kind, None, Proposed, n.priority, None, []);
    TrimTwice(n.title);
    NewRow(s, x, t);
    NewForests(s, x, t);
    var after := CreateRow(s, c, plan, n).state;
    InvLogged(Put(s, x, t), after.log[|s.log|]);
  }

  lemma AddDepSafe(s: State, c: Caller, x: nat, on: nat, why: Option<string>)
    requires Inv(s) && AddDep(s, c, x, on, why).Committed?
    ensures Inv(AddDep(s, c, x, on, why).state)
  {
    var linked := s.(deps := s.deps + {(x, on)});
    AddEdgeAcyclic(Waits(s), x, on);
    assert Waits(linked) == Waits(s) + {(x, on)};
    assert Parents(linked) == Parents(s) && Replacements(linked) == Replacements(s);
    SameRows(s, linked);
    InvLogged(linked, AddDep(s, c, x, on, why).state.log[|s.log|]);
  }

  lemma SameRows(s: State, u: State)
    requires Rows(s) && u.tasks == s.tasks && u.plans == s.plans
    ensures Rows(u)
  {
    forall x | x in u.tasks
      ensures x > 0 && RowOk(u, u.tasks[x]) && ParentOk(u, u.tasks[x]) && ReplacementOk(u, u.tasks[x])
    {
      assert RowOk(s, s.tasks[x]) && ParentOk(s, s.tasks[x]) && ReplacementOk(s, s.tasks[x]);
    }
  }

  lemma {:induction false} AddDepsSafe(s: State, c: Caller, x: nat, deps: seq<nat>, why: Option<string>)
    requires Inv(s) && AddDeps(s, c, x, deps, why).Committed?
    ensures Inv(AddDeps(s, c, x, deps, why).state)
    decreases |deps|
  {
    if deps != [] {
      AddDepSafe(s, c, x, deps[0], why);
      AddDepsSafe(AddDep(s, c, x, deps[0], why).state, c, x, deps[1..], why);
    }
  }

  lemma AddTaskSafe(s: State, c: Caller, selector: PlanSelector, n: Creation, start: bool, session: Option<string>)
    requires Inv(s) && AddTask(s, c, selector, n, start, session).Committed?
    ensures Inv(AddTask(s, c, selector, n, start, session).state)
  {
    var plan := SelectedPlan(s, selector, n.parent);
    CreateRowSafe(s, c, plan, n);
    AddDepsSafe(CreateRow(s, c, plan, n).state, c, NextTask(s), n.deps, n.why);
    if start {
      StartSafe(Create(s, c, plan, n).state, c, NextTask(s), n.why, session);
    }
  }

  lemma RemoveDepSafe(s: State, c: Caller, x: nat, on: nat, why: Option<string>)
    requires Inv(s) && RemoveDep(s, c, x, on, why).Committed?
    ensures Inv(RemoveDep(s, c, x, on, why).state)
  {
    var cut := s.(deps := s.deps - {(x, on)});
    SameRows(s, cut);
    ForestsShrink(s, cut);
    InvLogged(cut, RemoveDep(s, c, x, on, why).state.log[|s.log|]);
  }

  // ---- relocation ----

  /** The rows after tasks in `moved` joined `plan`. */
  ghost function Rehomed(s: State, moved: set<nat>, plan: nat): State {
    s.(tasks := map y | y in s.tasks :: if y in moved then s.tasks[y].(plan := plan) else s.tasks[y])
  }

  ghost function SetOf(order: seq<nat>): set<nat> { set y | y in order }

  /** Relocating one by one changes exactly the plans of the tasks named, and only appends to the log. */
  lemma {:induction false} RelocateIsRehomed(s: State, c: Caller, order: seq<nat>, plan: nat, why: Option<string>)
    ensures Relocate(s, c, order, plan, why).(log := s.log) == Rehomed(s, SetOf(order), plan)
    ensures s.log <= Relocate(s, c, order, plan, why).log
    decreases |order|
  {
    if order == [] {
      assert Rehomed(s, {}, plan).tasks == s.tasks;
    } else {
      var rest := order[1..];
      var s1 := if order[0] in s.tasks then RelocateOne(s, c, order[0], plan, why) else s;
      RelocateIsRehomed(s1, c, rest, plan, why);
      assert SetOf(order) == {order[0]} + SetOf(rest);
      assert Rehomed(s1, SetOf(rest), plan).tasks == Rehomed(s, SetOf(order), plan).tasks;
    }
  }

  lemma InvIgnoresLog(s: State, u: State)
    requires Inv(s) && u.plans == s.plans && u.tasks == s.tasks && u.deps == s.deps
    ensures Inv(u)
  {
    SameRows(s, u);
    SameGraphs(s, u);
  }

  lemma RehomedGraphs(s: State, moved: set<nat>, plan: nat)
    requires Inv(s)
    ensures Forests(Rehomed(s, moved, plan)) && DepsOk(Rehomed(s, moved, plan))
    ensures Parents(Rehomed(s, moved, plan)) == Parents(s)
    ensures Replacements(Rehomed(s, moved, plan)) == Replacements(s)
    ensures Waits(Rehomed(s, moved, plan)) == Waits(s)
  {
    SameGraphs(s, Rehomed(s, moved, plan));
  }

  lemma RehomedRow(s: State, moved: set<nat>, plan: nat, y: nat)
    requires Rows(s) && y in s.tasks && plan < |s.plans| && s.plans[plan].status.PlanActive?
    requires s.tasks[y].parent.Some? ==> (y in moved <==> s.tasks[y].parent.value in moved)
    requires s.tasks[y].replacement.Some? ==> (y in moved <==> s.tasks[y].replacement.value in moved)
    ensures var u := Rehomed(s, moved, plan);
            y > 0 && RowOk(u, u.tasks[y]) && ParentOk(u, u.tasks[y]) && ReplacementOk(u, u.tasks[y])
  {
    assert RowOk(s, s.tasks[y]) && ParentOk(s, s.tasks[y]) && ReplacementOk(s, s.tasks[y]);
  }

  lemma MovePlanSafe(s: State, c: Caller, sequences: seq<nat>, slug: string, why: Option<string>)
    requires Inv(s) && MovePlan(s, c, sequences, slug, why).Committed?
    ensures Inv(MovePlan(s, c, sequences, slug, why).state)
  {
    var selected := set x | x in sequences;
    var plan := PlanOfSlug(s, slug);
    SortedSameSet(sequences);
    RelocateIsRehomed(s, c, Sorted(sequences), plan, Given(why));
    LinkClosedMoveSafe(s, selected, plan);
    InvIgnoresLog(Rehomed(s, selected, plan), MovePlan(s, c, sequences, slug, why).state);
  }

  /** Moving a link-closed set of tasks into an active plan keeps everything. */
  lemma LinkClosedMoveSafe(s: State, selected: set<nat>, plan: nat)
    requires Inv(s) && plan < |s.plans| && s.plans[plan].status.PlanActive? && LinkClosed(s, selected)
    ensures Inv(Rehomed(s, selected, plan))
  {
    var u := Rehomed(s, selected, plan);
    forall y | y in u.tasks
      ensures y > 0 && RowOk(u, u.tasks[y]) && ParentOk(u, u.tasks[y]) && ReplacementOk(u, u.tasks[y])
    {
      if s.tasks[y].parent.Some? { assert (y, s.tasks[y].parent.value) in PlanBound(s); }
      if s.tasks[y].replacement.Some? { assert (y, s.tasks[y].replacement.value) in PlanBound(s); }
      RehomedRow(s, selected, plan, y);
    }
    RehomedGraphs(s, selected, plan);
  }

  lemma {:induction false} InsertSameSet(x: nat, s: seq<nat>)
    ensures forall y :: y in Insert(x, s) <==> y == x || y in s
    decreases |s|
  {
    if !(s == [] || x <= s[0]) {
      InsertSameSet(x, s[1..]);
    }
  }

  lemma {:induction false} SortedSameSet(s: seq<nat>)
    ensures SetOf(Sorted(s)) == SetOf(s)
    ensures forall y :: y in Sorted(s) <==> y in s
    decreases |s|
  {
    if s != [] {
      SortedSameSet(s[1..]);
      InsertSameSet(s[0], Sorted(s[1..]));
    }
  }

  // ---- editing ----

  /** Every task outside the moving subtree keeps its parent outside it, every one inside keeps it inside. */
  lemma SubtreeClosed(s: State, x: nat, visit: seq<nat>, y: nat)
    requires Inv(s) && x in s.tasks && Visits(s, x, visit)
    requires y in s.tasks && y != x && s.tasks[y].parent.Some?
    ensures var p := s.tasks[y].parent.value;
            y in visit <==> (p == x || p in visit)
  {
    var p := s.tasks[y].parent.value;
    assert ParentOk(s, s.tasks[y]) && (y, p) in Parents(s);
    if y in visit {
      assert Below(s, x, y);
      var n := ReachFirstHop(Parents(s), y, x);
      assert n == p;
      assert p != x ==> Below(s, x, p);
    }
    if p == x {
      ReachEdge(Parents(s), y, x);
      assert Below(s, x, y);
    } else if p in visit {
      assert Below(s, x, p);
      ReachStep(Parents(s), y, p, x);
      assert Below(s, x, y);
    }
  }

  /** The rows around an edited task: `base` has the subtree already in its new plan. */
  ghost function EditBase(s: State, x: nat, edit: TaskEdit, visit: seq<nat>): State
    requires x in s.tasks
  {
    var row := EditedRow(s, x, edit);
    if row.plan != s.tasks[x].plan then Rehomed(s, {x} + SetOf(visit), row.plan) else s
  }

  lemma EditedStateIsBase(s: State, c: Caller, x: nat, edit: TaskEdit, why: Option<string>, visit: seq<nat>)
    requires x in s.tasks
    ensures EditedState(s, c, x, edit, why, visit).(log := s.log)
            == Put(EditBase(s, x, edit, visit), x, EditedRow(s, x, edit))
  {
    var row := EditedRow(s, x, edit);
    RelocateIsRehomed(s, c, visit, row.plan, Given(why));
    assert Put(Rehomed(s, SetOf(visit), row.plan), x, row).tasks
        == Put(Rehomed(s, {x} + SetOf(visit), row.plan), x, row).tasks;
  }

  /** What the parent checks of an edit establish. */
  ghost predicate EditAdmitted(s: State, x: nat, edit: TaskEdit, visit: seq<nat>)
    requires x in s.tasks
  {
    && (edit.title.Some? ==> ValidTitle(edit.title.value))
    && (edit.parent.Some? && edit.parent.value.Some? ==> ParentRefusal(s, x, edit.parent.value.value, visit).None?)
  }

  lemma EditedRowOk(s: State, x: nat, edit: TaskEdit, visit: seq<nat>)
    requires Inv(s) && x in s.tasks && EditAdmitted(s, x, edit, visit)
    requires var row := EditedRow(s, x, edit);
             row.status.Done? && RequiresResult(row.kind) ==> HasResult(row.result)
    ensures RowOk(s, EditedRow(s, x, edit))
  {
    assert RowOk(s, s.tasks[x]);
    if edit.title.Some? { TrimTwice(edit.title.value); }
    var row := EditedRow(s, x, edit);
    if row.plan != s.tasks[x].plan {
      assert s.plans[row.plan].status.PlanActive?;
    }
  }

  /** A parent link in the rehomed tables, for a row that keeps or changes its parent. */
  lemma ParentHolds(s: State, u: State, x: nat, row: Task)
    requires x in s.tasks && u.tasks.Keys == s.tasks.Keys && row.parent != Some(x)
    requires forall y :: y in s.tasks ==> u.tasks[y].status == s.tasks[y].status
    requires row.parent.Some? ==>
               && row.parent.value in s.tasks && u.tasks[row.parent.value].plan == row.plan
               && (Live(row.status) ==> Live(s.tasks[row.parent.value].status))
    ensures ParentOk(Put(u, x, row), row)
  {
  }

  /** A task that moves to another plan with its subtree leaves its new parent where it is. */
  lemma NewParentStays(s: State, x: nat, edit: TaskEdit, visit: seq<nat>)
    requires x in s.tasks && EditAdmitted(s, x, edit, visit) && edit.parent.Some? && edit.parent.value.Some?
    ensures var row, p := EditedRow(s, x, edit), edit.parent.value.value;
            && p in s.tasks && p != x && EditBase(s, x, edit, visit).tasks[p].plan == row.plan
            && (Live(row.status) ==> Live(s.tasks[p].status))
  {
  }

  /** The new parent's plan is the row's, and the parent itself is not moved along. */
  lemma EditedParent(s: State, x: nat, edit: TaskEdit, visit: seq<nat>)
    requires Inv(s) && x in s.tasks && EditAdmitted(s, x, edit, visit)
    ensures var u := Put(EditBase(s, x, edit, visit), x, EditedRow(s, x, edit));
            ParentOk(u, u.tasks[x])
  {
    var row := EditedRow(s, x, edit);
    assert ParentOk(s, s.tasks[x]);
    NoSelfLoops(s, x);
    if edit.parent.Some? && edit.parent.value.Some? { NewParentStays(s, x, edit, visit); }
    ParentHolds(s, EditBase(s, x, edit, visit), x, row);
  }

  /** What a cross-plan edit has checked about the subtree it takes along. */
  ghost predicate Movable(s: State, x: nat, plan: nat, visit: seq<nat>) {
    && plan < |s.plans| && s.plans[plan].status.PlanActive?
    && Visits(s, x, visit) && ReplacementsStay(s, {x} + SetOf(visit))
  }

  lemma AdmittedMovable(s: State, x: nat, edit: TaskEdit, visit: seq<nat>)
    requires x in s.tasks && EditAdmitted(s, x, edit, visit)
    requires EditedRow(s, x, edit).plan != s.tasks[x].plan
    ensures Movable(s, x, EditedRow(s, x, edit).plan, visit)
  {
  }

  lemma StayTogether(s: State, members: set<nat>, y: nat)
    requires ReplacementsStay(s, members) && y in s.tasks && s.tasks[y].replacement.Some?
    ensures y in members <==> s.tasks[y].replacement.value in members
  {
    assert (y, s.tasks[y].replacement.value) in Replacements(s);
  }

  lemma EditedReplacement(s: State, x: nat, edit: TaskEdit, visit: seq<nat>)
    requires Inv(s) && x in s.tasks
    requires EditedRow(s, x, edit).plan != s.tasks[x].plan ==> Movable(s, x, EditedRow(s, x, edit).plan, visit)
    ensures var u := Put(EditBase(s, x, edit, visit), x, EditedRow(s, x, edit));
            ReplacementOk(u, u.tasks[x])
  {
    assert ReplacementOk(s, s.tasks[x]);
    NoSelfLoops(s, x);
    var row := EditedRow(s, x, edit);
    if s.tasks[x].replacement.Some? && row.plan != s.tasks[x].plan {
      StayTogether(s, {x} + SetOf(visit), x);
    }
  }

  /** Rows other than x only see x's plan, status and replacement. */
  lemma OtherStays(s: State, x: nat, row: Task, y: nat)
    requires x in s.tasks && y in s.tasks && x != y
    requires row.plan == s.tasks[x].plan && row.status == s.tasks[x].status && row.replacement == s.tasks[x].replacement
    requires ParentOk(s, s.tasks[y]) && ReplacementOk(s, s.tasks[y])
    ensures ParentOk(Put(s, x, row), s.tasks[y]) && ReplacementOk(Put(s, x, row), s.tasks[y])
  {
  }

  /** Every task but the edited one keeps sound links when the subtree moves. */
  lemma MovedRowOther(s: State, x: nat, plan: nat, visit: seq<nat>, y: nat)
    requires Inv(s) && x in s.tasks && y in s.tasks && y != x && Movable(s, x, plan, visit)
    ensures var u := Rehomed(s, {x} + SetOf(visit), plan);
            y > 0 && RowOk(u, u.tasks[y]) && ParentOk(u, u.tasks[y]) && ReplacementOk(u, u.tasks[y])
  {
    var moved := {x} + SetOf(visit);
    if s.tasks[y].parent.Some? { ParentMovesAlong(s, x, visit, y); }
    if s.tasks[y].replacement.Some? { StayTogether(s, moved, y); }
    RehomedRow(s, moved, plan, y);
  }

  lemma ParentMovesAlong(s: State, x: nat, visit: seq<nat>, y: nat)
    requires Inv(s) && x in s.tasks && Visits(s, x, visit)
    requires y in s.tasks && y != x && s.tasks[y].parent.Some?
    ensures y in {x} + SetOf(visit) <==> s.tasks[y].parent.value in {x} + SetOf(visit)
  {
    SubtreeClosed(s, x, visit, y);
  }

  lemma EditBaseRow(s: State, x: nat, edit: TaskEdit, visit: seq<nat>, y: nat)
    requires Inv(s) && x in s.tasks && y in s.tasks && y != x
    requires EditedRow(s, x, edit).plan != s.tasks[x].plan ==> Movable(s, x, EditedRow(s, x, edit).plan, visit)
    ensures var u := EditBase(s, x, edit, visit);
            y > 0 && RowOk(u, u.tasks[y]) && ParentOk(u, u.tasks[y]) && ReplacementOk(u, u.tasks[y])
  {
    if EditedRow(s, x, edit).plan != s.tasks[x].plan {
      MovedRowOther(s, x, EditedRow(s, x, edit).plan, visit, y);
    } else {
      assert RowOk(s, s.tasks[y]) && ParentOk(s, s.tasks[y]) && ReplacementOk(s, s.tasks[y]);
    }
  }

  lemma EditedOther(s: State, x: nat, edit: TaskEdit, visit: seq<nat>, y: nat)
    requires Inv(s) && x in s.tasks && y in s.tasks && y != x
    requires EditedRow(s, x, edit).plan != s.tasks[x].plan ==> Movable(s, x, EditedRow(s, x, edit).plan, visit)
    ensures var u := Put(EditBase(s, x, edit, visit), x, EditedRow(s, x, edit));
            y > 0 && RowOk(u, u.tasks[y]) && ParentOk(u, u.tasks[y]) && ReplacementOk(u, u.tasks[y])
  {
    EditBaseRow(s, x, edit, visit, y);
    OtherStays(EditBase(s, x, edit, visit), x, EditedRow(s, x, edit), y);
  }

  /** Moving one wait edge to a new parent keeps the graph acyclic when the task does not wait for that parent. */
  lemma EditedWaits(s: State, u: State, x: nat)
    requires Inv(s) && x in s.tasks && u.tasks.Keys == s.tasks.Keys && u.deps == s.deps
    requires forall y :: y in s.tasks && y != x ==>
               u.tasks[y].parent == s.tasks[y].parent && u.tasks[y].status == s.tasks[y].status
    requires u.tasks[x].status == s.tasks[x].status
    requires LinkRefusal(s, u, x).None?
    ensures Acyclic(Waits(u))
  {
    var parent := u.tasks[x].parent;
    if parent == s.tasks[x].parent || parent.None? || !Live(s.tasks[x].status) {
      assert Waits(u) <= Waits(s);
      AcyclicSubset(Waits(u), Waits(s));
    } else {
      var g := Waits(u) - {(parent.value, x)};
      assert g <= Waits(s);
      AcyclicSubset(g, Waits(s));
      AddEdgeAcyclic(g, parent.value, x);
      if Reach(g, x, parent.value) { ReachMono(g, Waits(u), x, parent.value); }
      AcyclicSubset(Waits(u), g + {(parent.value, x)});
    }
  }

  /** Everything but x's own parent is as it was, as far as the graphs can see. */
  lemma EditedShape(s: State, c: Caller, x: nat, edit: TaskEdit, why: Option<string>, visit: seq<nat>)
    requires x in s.tasks
    ensures var u := EditedState(s, c, x, edit, why, visit);
            && u.tasks.Keys == s.tasks.Keys && u.deps == s.deps && u.plans == s.plans
            && (forall y :: y in s.tasks && y != x ==> u.tasks[y].parent == s.tasks[y].parent)
            && (forall y :: y in s.tasks ==>
                  u.tasks[y].status == s.tasks[y].status && u.tasks[y].replacement == s.tasks[y].replacement)
  {
    EditedStateIsBase(s, c, x, edit, why, visit);
  }

  lemma ShapeParents(s: State, u: State, x: nat)
    requires Acyclic(Parents(s)) && x in s.tasks && u.tasks.Keys == s.tasks.Keys
    requires forall y :: y in s.tasks && y != x ==> u.tasks[y].parent == s.tasks[y].parent
    requires LinkRefusal(s, u, x).None?
    ensures Acyclic(Parents(u))
  {
    if u.tasks[x].parent == s.tasks[x].parent { assert Parents(u) == Parents(s); }
  }

  lemma ShapeForests(s: State, u: State, x: nat)
    requires Inv(s) && x in s.tasks && u.tasks.Keys == s.tasks.Keys && u.deps == s.deps
    requires forall y :: y in s.tasks && y != x ==> u.tasks[y].parent == s.tasks[y].parent
    requires forall y :: y in s.tasks ==>
               u.tasks[y].status == s.tasks[y].status && u.tasks[y].replacement == s.tasks[y].replacement
    requires LinkRefusal(s, u, x).None?
    ensures Forests(u)
  {
    EditedWaits(s, u, x);
    ShapeParents(s, u, x);
    assert Replacements(u) == Replacements(s);
  }

  lemma EditedForests(s: State, c: Caller, x: nat, edit: TaskEdit, why: Option<string>, visit: seq<nat>)
    requires Inv(s) && x in s.tasks
    requires LinkRefusal(s, EditedState(s, c, x, edit, why, visit), x).None?
    ensures Forests(EditedState(s, c, x, edit, why, visit)) && DepsOk(EditedState(s, c, x, edit, why, visit))
  {
    EditedShape(s, c, x, edit, why, visit);
    ShapeForests(s, EditedState(s, c, x, edit, why, visit), x);
  }

  lemma EditSafe(s: State, c: Caller, x: nat, edit: TaskEdit, why: Option<string>, visit: seq<nat>)
    requires Inv(s) && Edit(s, c, x, edit, why, visit).Committed?
    ensures Inv(Edit(s, c, x, edit, why, visit).state)
  {
    var after := EditedState(s, c, x, edit, why, visit);
    EditedStateIsBase(s, c, x, edit, why, visit);
    var u := Put(EditBase(s, x, edit, visit), x, EditedRow(s, x, edit));
    EditedRowOk(s, x, edit, visit);
    if EditedRow(s, x, edit).plan != s.tasks[x].plan { AdmittedMovable(s, x, edit, visit); }
    forall y | y in u.tasks
      ensures y > 0 && RowOk(u, u.tasks[y]) && ParentOk(u, u.tasks[y]) && ReplacementOk(u, u.tasks[y])
    {
      if y == x { EditedParent(s, x, edit, visit); EditedReplacement(s, x, edit, visit); } else { EditedOther(s, x, edit, visit, y); }
    }
    EditedForests(s, c, x, edit, why, visit);
    SameRows(u, after);
    InvIgnoresLog(after, Edit(s, c, x, edit, why, visit).state);
  }

  lemma {:induction false} InsertDistinct(x: nat, s: seq<nat>)
    requires Distinct(s) && x !in s
    ensures Distinct(Insert(x, s))
    decreases |s|
  {
    if !(s == [] || x <= s[0]) {
      InsertDistinct(x, s[1..]);
      InsertSameSet(x, s[1..]);
      assert s[0] !in s[1..];
    }
  }

  lemma {:induction false} SortedDistinct(s: seq<nat>)
    requires Distinct(s)
    ensures Distinct(Sorted(s))
    decreases |s|
  {
    if s != [] {
      SortedDistinct(s[1..]);
      SortedSameSet(s[1..]);
      assert s[0] !in s[1..];
      InsertDistinct(s[0], Sorted(s[1..]));
    }
  }

  lemma EditCommits(s: State, c: Caller, x: nat, edit: TaskEdit, why: Option<string>, visit: seq<nat>)
    requires Edit(s, c, x, edit, why, visit).Committed?
    ensures x in s.tasks
    ensures var after := EditedState(s, c, x, edit, why, visit);
            && x in after.tasks && after.tasks[x] == EditedRow(s, x, edit) && EditedRow(s, x, edit) != s.tasks[x]
            && Edit(s, c, x, edit, why, visit) ==
                 Committed(Logged(after, OnTask(after, c, x, Given(why), Revise(s, s.tasks[x], EditedRow(s, x, edit)))))
  {
  }

  lemma MovePlanAdmits(s: State, c: Caller, sequences: seq<nat>, slug: string, why: Option<string>)
    requires MovePlan(s, c, sequences, slug, why).Committed?
    ensures var plan := PlanOfSlug(s, slug);
            && sequences != [] && Distinct(sequences) && plan < |s.plans| && LinkClosed(s, SetOf(sequences))
            && (forall x :: x in sequences ==> x in s.tasks && s.tasks[x].plan != plan)
            && MovePlan(s, c, sequences, slug, why) == Committed(Relocate(s, c, Sorted(sequences), plan, Given(why)))
  {
  }

  lemma {:induction false} ListedOnce(S: set<nat>) returns (order: seq<nat>)
    ensures Distinct(order) && forall y :: y in order <==> y in S
    decreases |S|
  {
    order := [];
    if S != {} {
      var y :| y in S;
      var rest := ListedOnce(S - {y});
      order := [y] + rest;
    }
  }

  /** A subtree can always be walked, so for every cross-plan edit there is a visit that decides it on its merits. */
  lemma SomeVisit(s: State, x: nat) returns (visit: seq<nat>)
    ensures Visits(s, x, visit)
  {
    visit := ListedOnce(set y | y in s.tasks && Below(s, x, y));
  }

  /** Which visit it is changes neither whether the edit commits nor the tables it leaves. */
  lemma VisitsAgree(s: State, c: Caller, x: nat, edit: TaskEdit, why: Option<string>, v: seq<nat>, w: seq<nat>)
    requires Visits(s, x, v) && Visits(s, x, w)
    ensures Edit(s, c, x, edit, why, v).Committed? <==> Edit(s, c, x, edit, why, w).Committed?
    ensures Edit(s, c, x, edit, why, v).Committed? ==>
              Edit(s, c, x, edit, why, v).state.(log := s.log) == Edit(s, c, x, edit, why, w).state.(log := s.log)
  {
    assert SetOf(v) == SetOf(w);
    if x in s.tasks {
      EditedStateIsBase(s, c, x, edit, why, v);
      EditedStateIsBase(s, c, x, edit, why, w);
      SameLinkRefusal(s, EditedState(s, c, x, edit, why, v), EditedState(s, c, x, edit, why, w), x);
    }
  }

  lemma SameLinkRefusal(s: State, u: State, v: State, x: nat)
    requires x in s.tasks && x in u.tasks && u.tasks == v.tasks && u.deps == v.deps
    ensures LinkRefusal(s, u, x) == LinkRefusal(s, v, x)
  {
    assert Parents(u) == Parents(v) && Waits(u) == Waits(v);
  }
}
