/** Creating tasks, editing their definition and dependencies, and moving them between plans. */
module Definition {
  import opened Basics
  import opened Graphs
  import opened Records
  import opened Waiting
  import opened Lifecycle

  // ---- creation ----

  datatype Creation = Creation(title: string, intent: string, kind: Kind, parent: Option<nat>, deps: seq<nat>,
                               priority: Priority, why: Option<string>)

  /** One more than the largest task number in use. */
  ghost function NextTask(s: State): (n: nat)
    ensures n !in s.tasks && n > 0
    ensures forall x :: x in s.tasks ==> x < n
  {
    MaxOf(s.tasks.Keys) + 1
  }

  ghost function CreateRow(s: State, c: Caller, plan: nat, n: Creation): Outcome {
    if !Assignable(n.kind) then Refused(UnassignableKind)
    else if !ValidTitle(n.title) then Refused(InvalidTitle)
    else if plan >= |s.plans| then Refused(NoPlan)
    else if Over(s.plans[plan].status) then Refused(PlanIsOver)
    else if n.parent.Some? && n.parent.value !in s.tasks then Refused(NoTask(n.parent.value))
    else if n.parent.Some? && s.tasks[n.parent.value].plan != plan then Refused(ParentElsewhere)
    else if n.parent.Some? && Closed(s.tasks[n.parent.value].status) then Refused(ParentIsClosed)
    else
      var x := NextTask(s);
      var t := Task(plan, n.parent, None, Trim(n.title), n.intent, n.kind, None, Proposed, n.priority, None, []);
      var created := Put(s, x, t);
      Committed(Logged(created, OnTask(created, c, x, n.why, Created(Trim(n.title), n.kind))))
  }

  ghost function AddDeps(s: State, c: Caller, x: nat, deps: seq<nat>, why: Option<string>): Outcome
    decreases |deps|
  {
    if deps == [] then Committed(s)
    else
      var first := AddDep(s, c, x, deps[0], why);
      if first.Refused? then first else AddDeps(first.state, c, x, deps[1..], why)
  }

  /** A new task with its dependencies; any refusal undoes the whole creation. */
  ghost function Create(s: State, c: Caller, plan: nat, n: Creation): Outcome {
    var row := CreateRow(s, c, plan, n);
    if row.Refused? then row else AddDeps(row.state, c, NextTask(s), n.deps, n.why)
  }

  /** The plan a new task joins: a given plan, else its parent's, else the single active one. */
  datatype PlanSelector = ById(plan: nat) | BySlug(slug: string) | ByActivity

  ghost function PlanOfSlug(s: State, slug: string): (p: nat)
    ensures p <= |s.plans|
    ensures p < |s.plans| ==> s.plans[p].slug == slug
    ensures p == |s.plans| ==> forall i :: 0 <= i < |s.plans| ==> s.plans[i].slug != slug
  {
    if i :| 0 <= i < |s.plans| && s.plans[i].slug == slug then i else |s.plans|
  }

  ghost predicate OnlyActive(s: State, p: nat) {
    && p < |s.plans| && s.plans[p].status.PlanActive?
    && forall i :: 0 <= i < |s.plans| && i != p ==> !s.plans[i].status.PlanActive?
  }

  ghost function SelectedPlan(s: State, selector: PlanSelector, parent: Option<nat>): nat {
    match selector
    case ById(plan) => plan
    case BySlug(slug) => PlanOfSlug(s, slug)
    case ByActivity =>
      if parent.Some? then (if parent.value in s.tasks then s.tasks[parent.value].plan else |s.plans|)
      else if p: nat :| OnlyActive(s, p) then p else |s.plans|
  }

  ghost function AddTask(s: State, c: Caller, selector: PlanSelector, n: Creation, start: bool,
                         session: Option<string>): Outcome {
    var created := Create(s, c, SelectedPlan(s, selector, n.parent), n);
    if created.Refused? || !start then created
    else Start(created.state, c, NextTask(s), n.why, session)
  }

  // ---- dependencies ----

  function WithDep(s: State, c: Caller, x: nat, on: nat, why: Option<string>): State {
    var linked := s.(deps := s.deps + {(x, on)});
    Logged(linked, Stamped(linked, c, DepEntity, x, None, why, DepAdded(on)))
  }

  ghost function AddDep(s: State, c: Caller, x: nat, on: nat, why: Option<string>): Outcome {
    if x !in s.tasks then Refused(NoTask(x))
    else if on !in s.tasks then Refused(NoTask(on))
    else if x == on then Refused(SelfDependency)
    else if Closed(s.tasks[x].status) then Refused(AlreadyClosed)
    else if s.tasks[on].status.Retired? || s.tasks[on].status.Rejected? then Refused(DependencyClosed)
    else if (x, on) in s.deps then Refused(DependencyExists)
    else if Reach(s.deps, on, x) then Refused(DependencyCycle)
    else if Reach(Waits(s), on, x) then Refused(WouldDeadlock)
    else Committed(WithDep(s, c, x, on, why))
  }

  ghost function RemoveDep(s: State, c: Caller, x: nat, on: nat, why: Option<string>): Outcome {
    if why.Some? && Blank(why.value) then Refused(BlankText)
    else if x !in s.tasks then Refused(NoTask(x))
    else if on !in s.tasks then Refused(NoTask(on))
    else if (x, on) !in s.deps then Refused(NoDependency)
    else
      var cut := s.(deps := s.deps - {(x, on)});
      Committed(Logged(cut, Stamped(cut, c, DepEntity, x, None, why, DepRemoved(on))))
  }

  // ---- definition fields ----

  function FieldValue(s: State, t: Task, f: Field): Value {
    match f
    case TitleField => Text(t.title)
    case IntentField => Text(t.intent)
    case KindField => KindName(t.kind)
    case PlanField => Text(SlugAt(s, t.plan))
    case ParentField => if t.parent.None? then Null else Number(t.parent.value)
    case PriorityField => Level(t.priority)
  }

  const FIELDS: seq<Field> := [TitleField, IntentField, KindField, PlanField, ParentField, PriorityField]

  function ChangedFields(s: State, t: Task, u: Task, fields: seq<Field>): (r: seq<Field>)
    ensures forall f :: f in r <==> f in fields && FieldValue(s, t, f) != FieldValue(s, u, f)
    ensures |r| <= |fields|
  {
    if fields == [] then []
    else
      var rest := ChangedFields(s, t, u, fields[1..]);
      if FieldValue(s, t, fields[0]) != FieldValue(s, u, fields[0]) then [fields[0]] + rest else rest
  }

  /** The revision an edit from row t to row u records: the fields that differ, before and after. */
  function Revise(s: State, t: Task, u: Task): Payload {
    var fields := ChangedFields(s, t, u, FIELDS);
    Edited(fields, map f | f in fields :: Revision(FieldValue(s, t, f), FieldValue(s, u, f)))
  }

  predicate ValidValue(f: Field, v: Value) {
    match f
    case TitleField => v.Text? && !Blank(v.text)
    case IntentField => v.Text?
    case KindField => v.KindName?
    case PlanField => v.Text? && !Blank(v.text)
    case ParentField => v.Null? || (v.Number? && v.number > 0)
    case PriorityField => v.Level?
  }

  /** What the payload validator accepts: distinct fields, exactly the changed ones, each really changed. */
  predicate ValidRevision(p: Payload) {
    && p.Edited?
    && p.fields != [] && |p.fields| == |p.changes|
    && Distinct(p.fields)
    && (forall f :: f in p.changes ==> f in p.fields)
    && (forall f :: f in p.changes ==>
          && p.changes[f].before != p.changes[f].after
          && ValidValue(f, p.changes[f].before) && ValidValue(f, p.changes[f].after))
  }

  // ---- relocation ----

  /** Move tasks into a plan one after the other, recording one plan revision each. */
  function Relocate(s: State, c: Caller, order: seq<nat>, plan: nat, why: Option<string>): State
    decreases |order|
  {
    if order == [] then s
    else if order[0] !in s.tasks then Relocate(s, c, order[1..], plan, why)
    else Relocate(RelocateOne(s, c, order[0], plan, why), c, order[1..], plan, why)
  }

  function PlanRevision(before: string, after: string): Payload {
    Edited([PlanField], map[PlanField := Revision(Text(before), Text(after))])
  }

  function RelocateOne(s: State, c: Caller, x: nat, plan: nat, why: Option<string>): State
    requires x in s.tasks
  {
    var moved := Put(s, x, s.tasks[x].(plan := plan));
    Logged(moved, OnTask(moved, c, x, why, PlanRevision(SlugOf(s, x), SlugAt(s, plan))))
  }

  /** Links that must stay within one plan. */
  ghost function PlanBound(s: State): Graph { Parents(s) + Replacements(s) }

  /** No plan-bound link leaves the selection or enters it. */
  ghost predicate LinkClosed(s: State, selected: set<nat>) {
    forall e :: e in PlanBound(s) ==> (e.0 in selected <==> e.1 in selected)
  }

  function Insert(x: nat, s: seq<nat>): seq<nat> {
    if s == [] || x <= s[0] then [x] + s else [s[0]] + Insert(x, s[1..])
  }

  function Sorted(s: seq<nat>): seq<nat> {
    if s == [] then [] else Insert(s[0], Sorted(s[1..]))
  }

  /** The first of the given numbers that names no task. */
  function FirstMissing(s: State, sequences: seq<nat>): (missing: Option<nat>)
    ensures missing.None? <==> forall x :: x in sequences ==> x in s.tasks
    ensures missing.Some? ==> missing.value in sequences && missing.value !in s.tasks
  {
    if sequences == [] then None
    else if sequences[0] !in s.tasks then Some(sequences[0])
    else FirstMissing(s, sequences[1..])
  }

  ghost function MovePlan(s: State, c: Caller, sequences: seq<nat>, slug: string, why: Option<string>): Outcome {
    var selected := set x | x in sequences;
    var plan := PlanOfSlug(s, slug);
    if sequences == [] then Refused(NoSelection)
    else if !Distinct(sequences) then Refused(RepeatedSelection)
    else if plan == |s.plans| then Refused(NoPlan)
    else if !s.plans[plan].status.PlanActive? then Refused(PlanNotActive)
    else if FirstMissing(s, sequences).Some? then Refused(NoTask(FirstMissing(s, sequences).value))
    else if exists x :: x in sequences && s.tasks[x].plan == plan then Refused(AlreadyThere)
    else if !LinkClosed(s, selected) then Refused(SplitsLinks)
    else Committed(Relocate(s, c, Sorted(sequences), plan, Given(why)))
  }

  // ---- editing ----

  datatype TaskEdit = TaskEdit(title: Option<string>, intent: Option<string>, parent: Option<Option<nat>>,
                               kind: Option<Kind>, priority: Option<Priority>)

  /** Strict descendants: tasks from which following parents leads to x. */
  ghost predicate Below(s: State, x: nat, y: nat) {
    y in s.tasks && y != x && Reach(Parents(s), y, x)
  }

  /** The order in which the descendant walk meets the subtree: every strict descendant once. */
  ghost predicate Visits(s: State, x: nat, visit: seq<nat>) {
    && Distinct(visit)
    && forall y :: y in visit <==> Below(s, x, y)
  }

  /** A replacement link with exactly one end in the moving subtree would cross plans. */
  ghost predicate ReplacementsStay(s: State, members: set<nat>) {
    forall e :: e in Replacements(s) ==> (e.0 in members <==> e.1 in members)
  }

  /** The row after the edit; a parent in another plan takes the task along. */
  function EditedRow(s: State, x: nat, edit: TaskEdit): Task
    requires x in s.tasks
  {
    var t := s.tasks[x];
    var moved := if edit.parent.Some? && edit.parent.value.Some? && edit.parent.value.value in s.tasks
                 then t.(plan := s.tasks[edit.parent.value.value].plan) else t;
    moved.(title := if edit.title.Some? then Trim(edit.title.value) else t.title,
           intent := if edit.intent.Some? then edit.intent.value else t.intent,
           kind := if edit.kind.Some? then edit.kind.value else t.kind,
           parent := if edit.parent.Some? then edit.parent.value else t.parent,
           priority := if edit.priority.Some? then edit.priority.value else t.priority)
  }

  /** The state in which the edit's cycle and wait checks run: subtree moved, row changed, edit not yet logged. */
  function EditedState(s: State, c: Caller, x: nat, edit: TaskEdit, why: Option<string>, visit: seq<nat>): State
    requires x in s.tasks
  {
    var row := EditedRow(s, x, edit);
    var moved := if row.plan != s.tasks[x].plan then Relocate(s, c, visit, row.plan, Given(why)) else s;
    Put(moved, x, row)
  }

  ghost function SubtreeRefusal(s: State, x: nat, plan: nat, visit: seq<nat>): Option<Refusal> {
    if plan >= |s.plans| || !s.plans[plan].status.PlanActive? then Some(PlanNotActive)
    else if !Visits(s, x, visit) then Some(ImpossibleVisit)
    else if !ReplacementsStay(s, {x} + set y | y in visit) then Some(ReplacementCrossesPlans)
    else None
  }

  /** Refusals of the new parent before anything is written. */
  ghost function ParentRefusal(s: State, x: nat, parent: nat, visit: seq<nat>): Option<Refusal>
    requires x in s.tasks
  {
    if parent !in s.tasks then Some(NoTask(parent))
    else if parent == x then Some(OwnParent)
    else if s.tasks[parent].plan != s.tasks[x].plan && SubtreeRefusal(s, x, s.tasks[parent].plan, visit).Some?
    then SubtreeRefusal(s, x, s.tasks[parent].plan, visit)
    else if Live(s.tasks[x].status) && Closed(s.tasks[parent].status) then Some(ParentIsClosed)
    else None
  }

  /** Refusals found once the parent link is written: a parent cycle or a wait loop. */
  ghost function LinkRefusal(s: State, after: State, x: nat): Option<Refusal>
    requires x in s.tasks && x in after.tasks
  {
    var parent := after.tasks[x].parent;
    if parent == s.tasks[x].parent then None
    else if !Acyclic(Parents(after)) then Some(ParentCycle)
    else if parent.Some? && Live(s.tasks[x].status) && Reach(Waits(after), x, parent.value)
    then Some(WouldDeadlock)
    else None
  }

  ghost function Edit(s: State, c: Caller, x: nat, edit: TaskEdit, why: Option<string>, visit: seq<nat>): Outcome {
    if edit == TaskEdit(None, None, None, None, None) then Refused(NothingToEdit)
    else if edit.kind.Some? && !Assignable(edit.kind.value) then Refused(UnassignableKind)
    else if x !in s.tasks then Refused(NoTask(x))
    else if edit.title.Some? && !ValidTitle(edit.title.value) then Refused(InvalidTitle)
    else if edit.parent.Some? && edit.parent.value.Some? && ParentRefusal(s, x, edit.parent.value.value, visit).Some?
    then Refused(ParentRefusal(s, x, edit.parent.value.value, visit).value)
    else
      var after := EditedState(s, c, x, edit, why, visit);
      var row := after.tasks[x];
      if LinkRefusal(s, after, x).Some? then Refused(LinkRefusal(s, after, x).value)
      else if row == s.tasks[x] then Refused(NoChanges)
      else if row.status.Done? && RequiresResult(row.kind) && !HasResult(row.result) then Refused(ResultRequired)
      else Committed(Logged(after, OnTask(after, c, x, Given(why), Revise(s, s.tasks[x], row))))
  }
}
