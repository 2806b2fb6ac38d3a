/** In every run the log accounts for every stored task, and every recorded revision is valid. */
module HistoryRuns {
  import opened Basics
  import opened Graphs
  import opened Records
  import opened Waiting
  import opened Lifecycle
  import opened Definition
  import opened DefinitionSafety
  import opened GatesAndPlans
  import opened GatesAndPlansSafety
  import opened Outlines
  import opened OutlineSoundness
  import opened Invariants
  import opened LifecycleSafety
  import opened History
  import opened Runs

  /** One row changes and one event tells it. */
  lemma RowHistory(s: State, x: nat, t: Task, e: Event)
    requires HistoryOk(s) && x in s.tasks && e.entity != PlanEntity && e.task == Some(x) && !e.payload.Created?
    requires var u := Logged(Put(s, x, t), e);
             e.plan == Some(SlugOf(u, x)) && Tells(s, u, x, e) && Recorded(u, e)
    ensures HistoryOk(Logged(Put(s, x, t), e))
  {
    var u := Logged(Put(s, x, t), e);
    forall y | y in s.tasks && y != x ensures SameView(s, u, y) { }
    OneTaskHistory(s, u, x, e);
  }

  // ---- lifecycle ----

  lemma TransitionHistory(s: State, c: Caller, x: nat, to: Status, why: Option<string>, result: Option<string>,
                          replacement: Option<nat>, pickup: Option<Pickup>)
    requires HistoryOk(s) && x in s.tasks
    ensures HistoryOk(Transition(s, c, x, to, why, result, replacement, pickup))
  {
    var t := s.tasks[x];
    var moved := t.(status := to, result := result, replacement := replacement, pickup := pickup);
    var u := Transition(s, c, x, to, why, result, replacement, pickup);
    RowHistory(s, x, moved, u.log[|s.log|]);
  }

  lemma PickupHistory(s: State, c: Caller, x: nat, why: Option<string>, session: Option<string>)
    requires HistoryOk(s) && x in s.tasks
    ensures HistoryOk(RecordPickup(s, c, x, why, session))
  {
    var u := RecordPickup(s, c, x, why, session);
    if u != s {
      RowHistory(s, x, u.tasks[x], u.log[|s.log|]);
    }
  }

  lemma StartHistory(s: State, c: Caller, x: nat, why: Option<string>, session: Option<string>)
    requires HistoryOk(s) && Start(s, c, x, why, session).Committed?
    ensures HistoryOk(Start(s, c, x, why, session).state)
  {
    if s.tasks[x].status.InProgress? {
      PickupHistory(s, c, x, why, session);
    } else {
      TransitionHistory(s, c, x, InProgress, why, None, None, Some(Pickup(session, c.at, c.owner)));
    }
  }

  // ---- creation, dependencies ----

  lemma CreateRowHistory(s: State, c: Caller, plan: nat, n: Creation)
    requires HistoryOk(s) && Inv(s) && CreateRow(s, c, plan, n).Committed?
    ensures HistoryOk(CreateRow(s, c, plan, n).state)
  {
    var x := NextTask(s);
    var t := Task(plan, n.parent, None, Trim(n.title), n.intent, n.kind, None, Proposed, n.priority, None, []);
    var u := CreateRow(s, c, plan, n).state;
    forall on: nat ensures (x, on) !in s.deps { var e: Edge := (x, on); assert e in s.deps ==> e.0 in s.tasks; }
    NewTaskHistory(s, u, x, t, u.log[|s.log|]);
  }

  lemma DepHistory(s: State, u: State, c: Caller, x: nat, e: Event)
    requires HistoryOk(s) && x in s.tasks && u.plans == s.plans && u.tasks == s.tasks && u.log == s.log + [e]
    requires e.entity == DepEntity && e.task == Some(x) && e.plan == Some(SlugOf(u, x))
    requires e.payload.DepAdded? || e.payload.DepRemoved?
    requires Tells(s, u, x, e) && forall d :: d in s.deps && d.0 != x <==> d in u.deps && d.0 != x
    ensures HistoryOk(u)
  {
    forall y | y in s.tasks && y != x ensures SameView(s, u, y) {
      forall on: nat ensures (y, on) in s.deps <==> (y, on) in u.deps { var d: Edge := (y, on); }
    }
    OneTaskHistory(s, u, x, e);
  }

  lemma AddDepHistory(s: State, c: Caller, x: nat, on: nat, why: Option<string>)
    requires HistoryOk(s) && AddDep(s, c, x, on, why).Committed?
    ensures HistoryOk(AddDep(s, c, x, on, why).state)
  {
    var u := AddDep(s, c, x, on, why).state;
    DepHistory(s, u, c, x, u.log[|s.log|]);
  }

  lemma RemoveDepHistory(s: State, c: Caller, x: nat, on: nat, why: Option<string>)
    requires HistoryOk(s) && RemoveDep(s, c, x, on, why).Committed?
    ensures HistoryOk(RemoveDep(s, c, x, on, why).state)
  {
    var u := RemoveDep(s, c, x, on, why).state;
    DepHistory(s, u, c, x, u.log[|s.log|]);
  }

  lemma {:induction false} AddDepsHistory(s: State, c: Caller, x: nat, deps: seq<nat>, why: Option<string>)
    requires HistoryOk(s) && AddDeps(s, c, x, deps, why).Committed?
    ensures HistoryOk(AddDeps(s, c, x, deps, why).state)
    decreases |deps|
  {
    if deps != [] {
      AddDepHistory(s, c, x, deps[0], why);
      AddDepsHistory(AddDep(s, c, x, deps[0], why).state, c, x, deps[1..], why);
    }
  }

  lemma AddTaskHistory(s: State, c: Caller, selector: PlanSelector, n: Creation, start: bool, session: Option<string>)
    requires HistoryOk(s) && Inv(s) && AddTask(s, c, selector, n, start, session).Committed?
    ensures HistoryOk(AddTask(s, c, selector, n, start, session).state)
  {
    var plan := SelectedPlan(s, selector, n.parent);
    CreateRowHistory(s, c, plan, n);
    AddDepsHistory(CreateRow(s, c, plan, n).state, c, NextTask(s), n.deps, n.why);
    if start {
      StartHistory(Create(s, c, plan, n).state, c, NextTask(s), n.why, session);
    }
  }

  // ---- plans of tasks ----

  lemma PlanRevisionValid(before: string, after: string)
    requires before != after && !Blank(before) && !Blank(after)
    ensures ValidRevision(PlanRevision(before, after))
  {
    var p := PlanRevision(before, after);
    assert p.changes.Keys == {PlanField};
  }

  lemma RelocateOneHistory(s: State, c: Caller, x: nat, plan: nat, why: Option<string>)
    requires HistoryOk(s) && PlansOk(s) && x in s.tasks && s.tasks[x].plan < |s.plans| && plan < |s.plans|
    requires s.tasks[x].plan != plan
    ensures HistoryOk(RelocateOne(s, c, x, plan, why))
  {
    var u := RelocateOne(s, c, x, plan, why);
    PlanRevisionValid(SlugOf(s, x), SlugAt(s, plan));
    RowHistory(s, x, s.tasks[x].(plan := plan), u.log[|s.log|]);
  }

  /** Each task moves once, from another plan. */
  lemma {:induction false} RelocateHistory(s: State, c: Caller, order: seq<nat>, plan: nat, why: Option<string>)
    requires HistoryOk(s) && PlansOk(s) && plan < |s.plans| && Distinct(order)
    requires forall x :: x in order ==> x in s.tasks && s.tasks[x].plan < |s.plans| && s.tasks[x].plan != plan
    ensures HistoryOk(Relocate(s, c, order, plan, why))
    decreases |order|
  {
    if order != [] {
      RelocateOneHistory(s, c, order[0], plan, why);
      var u := RelocateOne(s, c, order[0], plan, why);
      var rest := order[1..];
      forall x | x in rest ensures x in u.tasks && u.tasks[x].plan < |u.plans| && u.tasks[x].plan != plan {
        var k :| 0 <= k < |rest| && rest[k] == x;
        assert order[k + 1] == x;
      }
      RelocateHistory(u, c, rest, plan, why);
    }
  }

  lemma MovePlanHistory(s: State, c: Caller, sequences: seq<nat>, slug: string, why: Option<string>)
    requires HistoryOk(s) && PlansOk(s) && Rows(s) && MovePlan(s, c, sequences, slug, why).Committed?
    ensures HistoryOk(MovePlan(s, c, sequences, slug, why).state)
  {
    MovePlanAdmits(s, c, sequences, slug, why);
    SortedDistinct(sequences);
    SortedSameSet(sequences);
    forall x | x in Sorted(sequences) ensures x in s.tasks && s.tasks[x].plan < |s.plans| {
      assert RowOk(s, s.tasks[x]);
    }
    RelocateHistory(s, c, Sorted(sequences), PlanOfSlug(s, slug), Given(why));
  }

  // ---- edits ----

  /** A task below x in the parent forest shares its plan. */
  lemma {:induction false} BelowSharesPlan(s: State, w: seq<nat>)
    requires Rows(s) && Walk(Parents(s), w) && w[0] in s.tasks && w[|w| - 1] in s.tasks
    ensures s.tasks[w[0]].plan == s.tasks[w[|w| - 1]].plan
    decreases |w|
  {
    if |w| > 1 {
      assert (w[0], w[1]) in Parents(s) && ParentOk(s, s.tasks[w[0]]);
      assert Walk(Parents(s), w[1..]);
      BelowSharesPlan(s, w[1..]);
    }
  }

  lemma SubtreeHistory(s: State, c: Caller, x: nat, plan: nat, why: Option<string>, visit: seq<nat>)
    requires HistoryOk(s) && Inv(s) && x in s.tasks && plan != s.tasks[x].plan && plan < |s.plans|
    requires Visits(s, x, visit)
    ensures HistoryOk(Relocate(s, c, visit, plan, why))
  {
    forall y | y in visit ensures y in s.tasks && s.tasks[y].plan < |s.plans| && s.tasks[y].plan != plan {
      assert Below(s, x, y);
      var w :| Connects(Parents(s), w, y, x);
      BelowSharesPlan(s, w);
      assert RowOk(s, s.tasks[y]);
    }
    RelocateHistory(s, c, visit, plan, why);
  }

  lemma EditHistoryBase(s: State, c: Caller, x: nat, edit: TaskEdit, why: Option<string>, visit: seq<nat>)
    requires HistoryOk(s) && Inv(s) && Edit(s, c, x, edit, why, visit).Committed?
    ensures var row := EditedRow(s, x, edit);
            var m := if row.plan != s.tasks[x].plan then Relocate(s, c, visit, row.plan, Given(why)) else s;
            HistoryOk(m) && x in m.tasks && m.tasks[x] == s.tasks[x] && m.plans == s.plans && m.deps == s.deps
            && m.tasks.Keys == s.tasks.Keys
  {
    var row := EditedRow(s, x, edit);
    if row.plan != s.tasks[x].plan {
      AdmittedMovable(s, x, edit, visit);
      SubtreeHistory(s, c, x, row.plan, Given(why), visit);
      RelocateIsRehomed(s, c, visit, row.plan, Given(why));
      assert !Below(s, x, x);
    }
  }

  lemma EditedFieldsValid(s: State, c: Caller, x: nat, edit: TaskEdit, why: Option<string>, visit: seq<nat>)
    requires Inv(s) && Edit(s, c, x, edit, why, visit).Committed?
    ensures FieldsValid(s, s.tasks[x]) && FieldsValid(s, EditedRow(s, x, edit))
  {
    assert RowOk(s, s.tasks[x]) && ParentOk(s, s.tasks[x]);
    var row := EditedRow(s, x, edit);
    EditedRowOk(s, x, edit, visit);
    if row.parent.Some? { assert row.parent.value in s.tasks; }
  }

  lemma EveryField(f: Field)
    ensures f in FIELDS
  {
    match f
    case TitleField => assert FIELDS[0] == f;
    case IntentField => assert FIELDS[1] == f;
    case KindField => assert FIELDS[2] == f;
    case PlanField => assert FIELDS[3] == f;
    case ParentField => assert FIELDS[4] == f;
    case PriorityField => assert FIELDS[5] == f;
  }

  /** The edit's own event tells every field that changed. */
  lemma RevisionTells(s: State, m: State, x: nat, row: Task, e: Event)
    requires x in s.tasks && x in m.tasks && m.tasks[x] == s.tasks[x] && m.plans == s.plans && m.deps == s.deps
    requires row == s.tasks[x].(title := row.title, intent := row.intent, kind := row.kind, plan := row.plan,
                                parent := row.parent, priority := row.priority)
    requires e.payload == Revise(s, s.tasks[x], row)
    ensures Tells(m, Logged(Put(m, x, row), e), x, e)
  {
    var u := Logged(Put(m, x, row), e);
    forall a
      ensures if Told(e, a).None? then Current(u, x, a) == Current(m, x, a)
              else Told(e, a).value == (Current(m, x, a), Current(u, x, a))
    {
      if a.OfField? {
        EveryField(a.field);
        assert FieldValue(m, m.tasks[x], a.field) == FieldValue(s, s.tasks[x], a.field);
        assert FieldValue(u, row, a.field) == FieldValue(s, row, a.field);
      }
    }
  }

  lemma EditHistory(s: State, c: Caller, x: nat, edit: TaskEdit, why: Option<string>, visit: seq<nat>)
    requires HistoryOk(s) && Inv(s) && Edit(s, c, x, edit, why, visit).Committed?
    ensures HistoryOk(Edit(s, c, x, edit, why, visit).state)
  {
    EditCommits(s, c, x, edit, why, visit);
    EditHistoryBase(s, c, x, edit, why, visit);
    EditedFieldsValid(s, c, x, edit, why, visit);
    var row := EditedRow(s, x, edit);
    var m := if row.plan != s.tasks[x].plan then Relocate(s, c, visit, row.plan, Given(why)) else s;
    EditedRowHistory(s, m, c, x, row, Given(why));
  }

  lemma EditedRowHistory(s: State, m: State, c: Caller, x: nat, row: Task, why: Option<string>)
    requires PlansOk(s) && HistoryOk(m) && x in s.tasks && x in m.tasks && m.tasks[x] == s.tasks[x]
    requires m.plans == s.plans && m.deps == s.deps && row != s.tasks[x]
    requires FieldsValid(s, s.tasks[x]) && FieldsValid(s, row)
    requires row == s.tasks[x].(title := row.title, intent := row.intent, kind := row.kind, plan := row.plan,
                                parent := row.parent, priority := row.priority)
    ensures var after := Put(m, x, row); HistoryOk(Logged(after, OnTask(after, c, x, why, Revise(s, s.tasks[x], row))))
  {
    var e := OnTask(Put(m, x, row), c, x, why, Revise(s, s.tasks[x], row));
    RevisionValid(s, s.tasks[x], row);
    RevisionTells(s, m, x, row, e);
    RowHistory(m, x, row, e);
  }

  // ---- gates ----

  /** A gate list changes at one name, as one event tells. */
  lemma GateHistory(s: State, x: nat, gates: seq<Gate>, e: Event, name: string, before: Option<GateStatus>,
                    after: Option<GateStatus>)
    requires HistoryOk(s) && x in s.tasks && e.entity != PlanEntity && e.task == Some(x)
    requires e.payload.GateCreated? || e.payload.GateSettled? || e.payload.GateReopened? || e.payload.GateRemoved?
    requires e.plan == Some(SlugOf(s, x))
    requires forall a :: Told(e, a) ==
               if a == OfGate(name) then Some((GateIs(before), GateIs(after))) else None
    requires GateStatusOf(s.tasks[x].gates, name) == before
    requires forall other :: GateStatusOf(gates, other) ==
               if other == name then after else GateStatusOf(s.tasks[x].gates, other)
    ensures HistoryOk(Logged(WithGates(s, x, gates), e))
  {
    RowHistory(s, x, s.tasks[x].(gates := gates), e);
  }

  lemma AddGateHistory(s: State, c: Caller, x: nat, name: string, kind: GateKind, requirement: string)
    requires HistoryOk(s) && AddGate(s, c, x, name, kind, requirement).Committed?
    ensures HistoryOk(AddGate(s, c, x, name, kind, requirement).state)
  {
    var gate := Gate(Trim(name), kind, Trim(requirement), Open, None, None, None, None);
    var u := AddGate(s, c, x, name, kind, requirement).state;
    var gates := s.tasks[x].gates + [gate];
    forall other
      ensures GateStatusOf(gates, other) ==
              if other == Trim(name) then Some(Open) else GateStatusOf(s.tasks[x].gates, other)
    {
      AppendedStatus(s.tasks[x].gates, gate, other);
    }
    GateHistory(s, x, gates, u.log[|s.log|], Trim(name), None, Some(Open));
  }

  lemma SwappedStatuses(gates: seq<Gate>, name: string, g: Gate)
    requires g.name == name && GateStatusOf(gates, name).Some?
    ensures forall other :: GateStatusOf(Replaced(gates, name, g), other) ==
              if other == name then Some(g.status) else GateStatusOf(gates, other)
  {
    forall other
      ensures GateStatusOf(Replaced(gates, name, g), other) ==
              if other == name then Some(g.status) else GateStatusOf(gates, other)
    {
      ReplacedStatus(gates, g, other);
    }
  }

  lemma SettleGateHistory(s: State, c: Caller, x: nat, name: string, to: GateStatus, evidence: Option<string>,
                          digest: Option<string>, note: Option<string>, why: Option<string>, wellFormed: bool)
    requires HistoryOk(s) && SettleGate(s, c, x, name, to, evidence, digest, note, why, wellFormed).Committed?
    ensures HistoryOk(SettleGate(s, c, x, name, to, evidence, digest, note, why, wellFormed).state)
  {
    var gate := FindGate(s.tasks[x].gates, name).value.(
                  status := to, evidence := evidence, digest := digest,
                  note := if to.Waived? then why else note, resolvedAt := Some(c.at));
    var u := SettleGate(s, c, x, name, to, evidence, digest, note, why, wellFormed).state;
    SwappedStatuses(s.tasks[x].gates, name, gate);
    GateHistory(s, x, Replaced(s.tasks[x].gates, name, gate), u.log[|s.log|], name, Some(Open), Some(to));
  }

  lemma RemoveGateHistory(s: State, c: Caller, x: nat, name: string, why: string)
    requires HistoryOk(s) && RemoveGate(s, c, x, name, why).Committed?
    ensures HistoryOk(RemoveGate(s, c, x, name, why).state)
  {
    var gates := s.tasks[x].gates;
    var u := RemoveGate(s, c, x, name, why).state;
    forall other
      ensures GateStatusOf(Removed(gates, name), other) == if other == name then None else GateStatusOf(gates, other)
    {
      RemovedStatus(gates, name, other);
    }
    GateHistory(s, x, Removed(gates, name), u.log[|s.log|], name, Some(Open), None);
  }

  lemma ReopenGateHistory(s: State, c: Caller, x: nat, name: string, why: Option<string>)
    requires HistoryOk(s) && ReopenGate(s, c, x, name, why).Committed?
    ensures HistoryOk(ReopenGate(s, c, x, name, why).state)
  {
    var old_gate := FindGate(s.tasks[x].gates, name).value;
    var open := old_gate.(status := Open, evidence := None, digest := None, note := None, resolvedAt := None);
    var u := ReopenGate(s, c, x, name, why).state;
    SwappedStatuses(s.tasks[x].gates, name, open);
    GateHistory(s, x, Replaced(s.tasks[x].gates, name, open), u.log[|s.log|], name, Some(old_gate.status), Some(Open));
  }

  // ---- plans, reviews, notes ----

  lemma AddPlanHistory(s: State, c: Caller, slug: string, title: string, intent: string)
    requires HistoryOk(s) && Rows(s) && AddPlan(s, c, slug, title, intent).Committed?
    ensures HistoryOk(AddPlan(s, c, slug, title, intent).state)
  {
    var u := AddPlan(s, c, slug, title, intent).state;
    forall x | x in s.tasks ensures SlugOf(u, x) == SlugOf(s, x) { assert RowOk(s, s.tasks[x]); }
    PlanEventHistory(s, u, u.log[|s.log|]);
  }

  lemma EditPlanHistory(s: State, c: Caller, slug: string, title: Option<string>, intent: Option<string>,
                        why: Option<string>)
    requires HistoryOk(s) && EditPlan(s, c, slug, title, intent, why).Committed?
    ensures HistoryOk(EditPlan(s, c, slug, title, intent, why).state)
  {
    var u := EditPlan(s, c, slug, title, intent, why).state;
    PlanEventHistory(s, u, u.log[|s.log|]);
  }

  lemma SetPlanHistory(s: State, c: Caller, slug: string, status: PlanStatus, why: Option<string>)
    requires HistoryOk(s) && SetPlanStatus(s, c, slug, status, why).Committed?
    ensures HistoryOk(SetPlanStatus(s, c, slug, status, why).state)
  {
    var u := SetPlanStatus(s, c, slug, status, why).state;
    PlanEventHistory(s, u, u.log[|s.log|]);
  }

  /** An event on a task that changes no row. */
  lemma RemarkHistory(s: State, x: nat, e: Event)
    requires HistoryOk(s) && x in s.tasks && e.entity == TaskEntity && e.task == Some(x) && e.plan == Some(SlugOf(s, x))
    requires e.payload.Reviewed? || e.payload.Noted?
    ensures HistoryOk(Logged(s, e))
  {
    assert Put(s, x, s.tasks[x]).tasks == s.tasks;
    RowHistory(s, x, s.tasks[x], e);
  }

  lemma ReviewHistory(s: State, c: Caller, x: nat, target: ReviewTarget, verdict: Verdict, why: string)
    requires HistoryOk(s) && ReviewTask(s, c, x, target, verdict, why).Committed?
    ensures HistoryOk(ReviewTask(s, c, x, target, verdict, why).state)
  {
    RemarkHistory(s, x, OnTask(s, c, x, Some(why), Reviewed(target, verdict)));
  }

  lemma NoteHistory(s: State, c: Caller, about: Option<nat>, text: string)
    requires HistoryOk(s) && AddNote(s, c, about, text).Committed?
    ensures HistoryOk(AddNote(s, c, about, text).state)
  {
    var u := AddNote(s, c, about, text).state;
    if about.None? {
      PlanEventHistory(s, u, u.log[|s.log|]);
    } else {
      RemarkHistory(s, about.value, u.log[|s.log|]);
    }
  }

  // ---- decomposition ----

  lemma MakeChildrenHistory(s: State, c: Caller, plan: nat, parent: nat, o: Outline)
    requires HistoryOk(s) && Inv(s) && MakeChildren(s, c, plan, parent, o).Committed?
    ensures HistoryOk(MakeChildren(s, c, plan, parent, o).state)
  {
    var step: (State, nat) -> Outcome := (u: State, i: nat) => MakeChild(u, c, plan, parent, o, i);
    var keeps := (u: State) => HistoryOk(u) && Inv(u);
    forall u, j: nat | keeps(u) && step(u, j).Committed? ensures keeps(step(u, j).state) {
      if j < |o.children| {
        CreateRowSafe(u, c, plan, ChildOf(o, j, parent));
        CreateRowHistory(u, c, plan, ChildOf(o, j, parent));
      }
    }
    StepsKeep(step, keeps, s, 0, |o.children|);
  }

  lemma LinkChildrenHistory(s: State, c: Caller, base: nat, o: Outline)
    requires HistoryOk(s) && LinkChildren(s, c, base, o).Committed?
    ensures HistoryOk(LinkChildren(s, c, base, o).state)
  {
    var step: (State, nat) -> Outcome := (u: State, i: nat) => LinkChild(u, c, base, o, i);
    var keeps := (u: State) => HistoryOk(u);
    forall u, j: nat | keeps(u) && step(u, j).Committed? ensures keeps(step(u, j).state) {
      if j < |o.children| { AddDepsHistory(u, c, base + j, Targets(o, base, o.children[j].deps), WhyFor(o, j)); }
    }
    StepsKeep(step, keeps, s, 0, |o.children|);
  }

  lemma StartChildrenHistory(before: State, s: State, c: Caller, base: nat, o: Outline, session: Option<string>)
    requires HistoryOk(s) && StartChildren(before, s, c, base, o, session).Committed?
    ensures HistoryOk(StartChildren(before, s, c, base, o, session).state)
  {
    var step: (State, nat) -> Outcome := (u: State, i: nat) => StartChild(before, u, c, base, o, session, i);
    var keeps := (u: State) => HistoryOk(u);
    forall u, j: nat | keeps(u) && step(u, j).Committed? ensures keeps(step(u, j).state) {
      if j < |o.children| && Ready(before, o, j) { StartHistory(u, c, base + j, WhyFor(o, j), session); }
    }
    StepsKeep(step, keeps, s, 0, |o.children|);
  }

  lemma ApplyHistory(s: State, c: Caller, parent: nat, o: Outline, startReady: bool, session: Option<string>)
    requires HistoryOk(s) && Inv(s) && parent in s.tasks && Apply(s, c, parent, o, startReady, session).Committed?
    ensures HistoryOk(Apply(s, c, parent, o, startReady, session).state)
  {
    var made := MakeChildren(s, c, s.tasks[parent].plan, parent, o);
    MakeChildrenHistory(s, c, s.tasks[parent].plan, parent, o);
    var linked := LinkChildren(made.state, c, NextTask(s), o);
    LinkChildrenHistory(made.state, c, NextTask(s), o);
    if startReady {
      StartChildrenHistory(s, linked.state, c, NextTask(s), o, session);
    }
  }

  // ---- every run ----

  lemma CompleteHistory(s: State, c: Caller, x: nat, result: Option<string>)
    requires HistoryOk(s) && Complete(s, c, x, result).Committed?
    ensures HistoryOk(Complete(s, c, x, result).state)
  {
    TransitionHistory(s, c, x, Done, Given(result), Given(result), None, None);
  }

  lemma ReopenHistory(s: State, c: Caller, x: nat, why: Option<string>)
    requires HistoryOk(s) && Reopen(s, c, x, why).Committed?
    ensures HistoryOk(Reopen(s, c, x, why).state)
  {
    TransitionHistory(s, c, x, Proposed, Given(why), None, None, None);
  }

  lemma TerminateHistory(s: State, c: Caller, x: nat, to: Status, into: Option<nat>, why: Option<string>)
    requires HistoryOk(s) && (to.Retired? || (to.Rejected? && into.None?))
    requires Terminate(s, c, x, to, into, why).Committed?
    ensures HistoryOk(Terminate(s, c, x, to, into, why).state)
  {
    TransitionHistory(s, c, x, to, Given(why), Given(why), into, None);
  }

  lemma StatusStepHistory(s: State, c: Caller, a: Action)
    requires HistoryOk(s) && StatusAction(a) && PerformStatus(s, c, a).Committed?
    ensures HistoryOk(PerformStatus(s, c, a).state)
  {
    match a
    case DoStart(x, why, session) => StartHistory(s, c, x, why, session);
    case DoComplete(x, result) => CompleteHistory(s, c, x, result);
    case DoReopen(x, why) => ReopenHistory(s, c, x, why);
    case DoRetire(x, into, why) => TerminateHistory(s, c, x, Retired, into, why);
    case DoReject(x, why) => TerminateHistory(s, c, x, Rejected, None, why);
  }

  lemma DecomposeHistory(s: State, c: Caller, x: nat, o: Outline, startReady: bool, session: Option<string>)
    requires HistoryOk(s) && Inv(s) && Decompose(s, c, x, o, startReady, session).Committed?
    ensures HistoryOk(Decompose(s, c, x, o, startReady, session).state)
  {
    ApplyHistory(s, c, x, o, startReady, session);
  }

  lemma DefinitionStepHistory(s: State, c: Caller, a: Action)
    requires HistoryOk(s) && Inv(s) && DefinitionAction(a) && PerformDefinition(s, c, a).Committed?
    ensures HistoryOk(PerformDefinition(s, c, a).state)
  {
    match a
    case DoAdd(selector, n, start, session) => AddTaskHistory(s, c, selector, n, start, session);
    case DoEdit(x, edit, why, visit) => EditHistory(s, c, x, edit, why, visit);
    case DoDecompose(x, o, startReady, session) => DecomposeHistory(s, c, x, o, startReady, session);
  }

  lemma LinkStepHistory(s: State, c: Caller, a: Action)
    requires HistoryOk(s) && PlansOk(s) && Rows(s) && LinkAction(a) && PerformLink(s, c, a).Committed?
    ensures HistoryOk(PerformLink(s, c, a).state)
  {
    match a
    case DoAddDep(x, on, why) => AddDepHistory(s, c, x, on, why);
    case DoRemoveDep(x, on, why) => RemoveDepHistory(s, c, x, on, why);
    case DoMovePlan(sequences, slug, why) => MovePlanHistory(s, c, sequences, slug, why);
  }

  lemma GateStepHistory(s: State, c: Caller, a: Action)
    requires HistoryOk(s) && GateAction(a) && PerformGate(s, c, a).Committed?
    ensures HistoryOk(PerformGate(s, c, a).state)
  {
    match a
    case DoAddGate(x, name, kind, requirement) => AddGateHistory(s, c, x, name, kind, requirement);
    case DoResolveGate(x, name, evidence, digest, note, ok) =>
      SettleGateHistory(s, c, x, name, Resolved, Some(evidence), digest, note, None, ok);
    case DoWaiveGate(x, name, reason) => SettleGateHistory(s, c, x, name, Waived, None, None, None, Some(reason), true);
    case DoRemoveGate(x, name, reason) => RemoveGateHistory(s, c, x, name, reason);
    case DoReopenGate(x, name, why) => ReopenGateHistory(s, c, x, name, why);
  }

  lemma PlanStepHistory(s: State, c: Caller, a: Action)
    requires HistoryOk(s) && Rows(s) && PlanAction(a) && PerformPlan(s, c, a).Committed?
    ensures HistoryOk(PerformPlan(s, c, a).state)
  {
    match a
    case DoAddPlan(slug, title, intent) => AddPlanHistory(s, c, slug, title, intent);
    case DoEditPlan(slug, title, intent, why) => EditPlanHistory(s, c, slug, title, intent, why);
    case DoSetPlan(slug, status, why) => SetPlanHistory(s, c, slug, status, why);
    case DoReview(x, target, verdict, reason) => ReviewHistory(s, c, x, target, verdict, reason);
    case DoNote(about, text) => NoteHistory(s, c, about, text);
  }

  lemma StepHistory(s: State, call: Call)
    requires HistoryOk(s) && Inv(s)
    ensures HistoryOk(Step(s, call))
  {
    var c, a := call.caller, call.action;
    if Perform(s, call).Committed? {
      if StatusAction(a) { StatusStepHistory(s, c, a); }
      else if DefinitionAction(a) { DefinitionStepHistory(s, c, a); }
      else if LinkAction(a) { LinkStepHistory(s, c, a); }
      else if GateAction(a) { GateStepHistory(s, c, a); }
      else { PlanStepHistory(s, c, a); }
    }
  }

  lemma {:induction false} RunHistory(calls: seq<Call>)
    ensures HistoryOk(After(EMPTY, calls)) && Inv(After(EMPTY, calls))
    decreases |calls|
  {
    EmptyInv();
    if calls != [] {
      RunHistory(calls[..|calls| - 1]);
      StepHistory(After(EMPTY, calls[..|calls| - 1]), calls[|calls| - 1]);
      StepSafe(After(EMPTY, calls[..|calls| - 1]), calls[|calls| - 1]);
    }
  }
}
