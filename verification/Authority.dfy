/** The stored authority and its mutations: each runs as one transaction that commits or leaves everything as it was. */
module Authorities {
  import opened Basics
  import opened Graphs
  import opened Records
  import opened Review
  import opened Waiting
  import opened Invariants
  import Lifecycle
  import Definition
  import GatesAndPlans
  import Runs
  import Outlines
  import OutlineChecks
  import opened Dumps
  import opened ImportRules
  import opened PlanMoves
  import opened Queries
  import opened Imports
  import opened Storage
  import opened DefinitionSafety
  import opened TaskGraph

  /** A mutation answers as its step does: refused and nothing changed, or committed. */
  ghost predicate Answers(step: Outcome, refusal: Option<Refusal>, before: State, after: State) {
    if refusal.Some? then step == Refused(refusal.value) && after == before else step == Committed(after)
  }

  class Authority {
    var plans: seq<Plan>
    var tasks: map<nat, Task>
    var deps: set<Edge>
    var log: seq<Event>

    function Snapshot(): State
      reads this
    {
      State(plans, tasks, deps, log)
    }

    ghost predicate Valid()
      reads this
    {
      Storable(Snapshot())
    }

    constructor ()
      ensures Valid() && Snapshot() == EMPTY
    {
      plans, tasks, deps, log := [], map[], {}, [];
      new;
      EmptyStorable();
    }

    /** Put a whole state in place: the saved one when the transaction is given up, or a finished one. */
    method Restore(saved: State)
      modifies this
      ensures Snapshot() == saved
    {
      plans, tasks, deps, log := saved.plans, saved.tasks, saved.deps, saved.log;
    }

    /** Append one event. */
    method Record(e: Event)
      requires Valid()
      modifies this`log
      ensures Valid() && Snapshot() == Logged(old(Snapshot()), e)
    {
      StorableLogged(Snapshot(), e);
      log := log + [e];
    }

    // ---- lifecycle ----

    /** Set status, result, replacement and pickup together and record the change. */
    method TransitionTask(c: Caller, x: nat, to: Status, why: Option<string>, result: Option<string>,
                          replacement: Option<nat>, pickup: Option<Pickup>)
      requires Valid() && x in tasks && (replacement.Some? ==> replacement.value in tasks)
      modifies this
      ensures Valid()
      ensures Snapshot() == Lifecycle.Transition(old(Snapshot()), c, x, to, why, result, replacement, pickup)
    {
      var t := tasks[x];
      var moved := t.(status := to, result := result, replacement := replacement, pickup := pickup);
      StorablePut(Snapshot(), x, moved);
      tasks := tasks[x := moved];
      Record(OnTask(Snapshot(), c, x, why, StatusChanged(t.status, to, result, t.pickup, pickup, replacement)));
    }

    /** Take over an in-progress task; the same identified session again changes nothing. */
    method RecordPickup(c: Caller, x: nat, why: Option<string>, session: Option<string>)
      requires Valid() && x in tasks
      modifies this
      ensures Valid() && Snapshot() == Lifecycle.RecordPickup(old(Snapshot()), c, x, why, session)
    {
      var t := tasks[x];
      if session.Some? && t.pickup.Some? && t.pickup.value.session == session { return; }
      var pickup := Pickup(session, c.at, c.owner);
      var held := t.(pickup := Some(pickup));
      StorableRows(Snapshot(), Put(Snapshot(), x, held));
      tasks := tasks[x := held];
      Record(OnTask(Snapshot(), c, x, why, PickedUp(t.pickup, pickup)));
    }

    method StartTask(c: Caller, x: nat, why: Option<string>, session: Option<string>) returns (refusal: Option<Refusal>)
      requires Valid()
      modifies this
      ensures Valid()
      ensures Answers(Lifecycle.Start(old(Snapshot()), c, x, why, session), refusal, old(Snapshot()), Snapshot())
    {
      if session.Some? && !ValidSession(session.value) { return Some(InvalidSession); }
      if x !in tasks { return Some(NoTask(x)); }
      if tasks[x].status.InProgress? {
        RecordPickup(c, x, why, session);
        return None;
      }
      if Closed(tasks[x].status) { return Some(AlreadyClosed); }
      if Lifecycle.PlanStatusOf(Snapshot(), x) != PlanActive { return Some(PlanNotActive); }
      var external := HasOpenExternal(tasks[x]);
      var disputed := DisputedResults(Snapshot(), x);
      if external || disputed != [] { return Some(NotReady); }
      TransitionTask(c, x, InProgress, why, None, None, Some(Pickup(session, c.at, c.owner)));
      return None;
    }

    method CompleteTask(c: Caller, x: nat, result: Option<string>) returns (refusal: Option<Refusal>)
      requires Valid()
      modifies this
      ensures Valid()
      ensures Answers(Lifecycle.Complete(old(Snapshot()), c, x, result), refusal, old(Snapshot()), Snapshot())
    {
      if x !in tasks { return Some(NoTask(x)); }
      var t := tasks[x];
      if Closed(t.status) { return Some(AlreadyClosed); }
      if t.status.Proposed? && Lifecycle.PlanStatusOf(Snapshot(), x) != PlanActive { return Some(PlanNotActive); }
      var open, external, disputed := EntryBlockers(Snapshot(), x);
      OpenDepsOrSettled(Snapshot(), x);
      if open != [] || external || disputed != [] { return Some(Unfinished); }
      var gated := HasOpenGate(t);
      if gated { return Some(OpenGates); }
      var children := UnfinishedChildren(Snapshot(), x);
      if children != [] { return Some(LiveChildren); }
      if RequiresResult(t.kind) && Given(result).None? { return Some(ResultRequired); }
      TransitionTask(c, x, Done, Given(result), Given(result), None, None);
      return None;
    }

    method ReopenTask(c: Caller, x: nat, why: Option<string>) returns (refusal: Option<Refusal>)
      requires Valid()
      modifies this
      ensures Valid()
      ensures Answers(Lifecycle.Reopen(old(Snapshot()), c, x, why), refusal, old(Snapshot()), Snapshot())
    {
      if x !in tasks { return Some(NoTask(x)); }
      var t := tasks[x];
      if t.status.Proposed? { return Some(AlreadyLive); }
      if !t.status.InProgress? {
        if Over(Lifecycle.PlanStatusOf(Snapshot(), x)) { return Some(PlanIsOver); }
        if t.parent.Some? {
          if t.parent.value !in tasks || Closed(tasks[t.parent.value].status) { return Some(ParentIsClosed); }
          var chain := WaitsFor(Snapshot(), x, t.parent.value);
          if chain.Some? { return Some(WouldDeadlock); }
        }
        var dependents := CompletedDependents(Snapshot(), x);
        if dependents != [] { return Some(SupportsCompleted); }
      }
      TransitionTask(c, x, Proposed, Given(why), None, None, None);
      return None;
    }

    /** Retire, optionally into a replacement, or reject; the replacement links are checked once written. */
    method TerminateTask(c: Caller, x: nat, to: Status, into: Option<nat>, why: Option<string>)
      returns (refusal: Option<Refusal>)
      requires Valid() && (to.Retired? || (to.Rejected? && into.None?))
      modifies this
      ensures Valid()
      ensures Answers(Lifecycle.Terminate(old(Snapshot()), c, x, to, into, why), refusal, old(Snapshot()), Snapshot())
    {
      if Given(why).None? && into.None? { return Some(ReasonRequired); }
      if x !in tasks { return Some(NoTask(x)); }
      if Closed(tasks[x].status) { return Some(AlreadyClosed); }
      var dependents := CompletedDependents(Snapshot(), x);
      if dependents != [] { return Some(SupportsCompleted); }
      var children := UnfinishedChildren(Snapshot(), x);
      if children != [] { return Some(LiveChildren); }
      var inbound := InboundReplacements(Snapshot(), x);
      if inbound != [] && into.None? { return Some(IsReplacement); }
      if into.Some? {
        if into.value == x { return Some(SelfReplacement); }
        if into.value !in tasks { return Some(NoTask(into.value)); }
        if tasks[into.value].plan != tasks[x].plan { return Some(ReplacementElsewhere); }
        if tasks[into.value].status.Retired? || tasks[into.value].status.Rejected? { return Some(ReplacementClosed); }
      }
      var saved := Snapshot();
      TransitionTask(c, x, to, Given(why), Given(why), into, None);
      var links := set y | y in tasks && tasks[y].replacement.Some? :: (y, tasks[y].replacement.value);
      assert links == Replacements(Snapshot());
      var straight := NoCycle(Snapshot(), links);
      if !straight {
        Restore(saved);
        return Some(ReplacementCycle);
      }
      return None;
    }

    // ---- dependencies ----

    /** One dependency edge: no self edge, no repeat, no dependency cycle, no wait loop. */
    method AddEdge(c: Caller, x: nat, on: nat, why: Option<string>) returns (refusal: Option<Refusal>)
      requires Valid()
      modifies this
      ensures Valid()
      ensures Answers(Definition.AddDep(old(Snapshot()), c, x, on, why), refusal, old(Snapshot()), Snapshot())
    {
      if x !in tasks { return Some(NoTask(x)); }
      if on !in tasks { return Some(NoTask(on)); }
      if x == on { return Some(SelfDependency); }
      if Closed(tasks[x].status) { return Some(AlreadyClosed); }
      if tasks[on].status.Retired? || tasks[on].status.Rejected? { return Some(DependencyClosed); }
      if (x, on) in deps { return Some(DependencyExists); }
      var cyclic := DependsOn(deps, on, x);
      if cyclic { return Some(DependencyCycle); }
      var chain := WaitsFor(Snapshot(), on, x);
      if chain.Some? { return Some(WouldDeadlock); }
      StorableDeps(Snapshot(), deps + {(x, on)});
      deps := deps + {(x, on)};
      Record(Stamped(Snapshot(), c, DepEntity, x, None, why, DepAdded(on)));
      return None;
    }

    method AddDependency(c: Caller, x: nat, on: nat, why: Option<string>) returns (refusal: Option<Refusal>)
      requires Valid()
      modifies this
      ensures Valid()
      ensures Answers(Runs.AddDepWithReason(old(Snapshot()), c, x, on, why), refusal, old(Snapshot()), Snapshot())
    {
      if why.Some? && Blank(why.value) { return Some(BlankText); }
      refusal := AddEdge(c, x, on, why);
    }

    method RemoveDependency(c: Caller, x: nat, on: nat, why: Option<string>) returns (refusal: Option<Refusal>)
      requires Valid()
      modifies this
      ensures Valid()
      ensures Answers(Definition.RemoveDep(old(Snapshot()), c, x, on, why), refusal, old(Snapshot()), Snapshot())
    {
      if why.Some? && Blank(why.value) { return Some(BlankText); }
      if x !in tasks { return Some(NoTask(x)); }
      if on !in tasks { return Some(NoTask(on)); }
      if (x, on) !in deps { return Some(NoDependency); }
      StorableDeps(Snapshot(), deps - {(x, on)});
      deps := deps - {(x, on)};
      Record(Stamped(Snapshot(), c, DepEntity, x, None, why, DepRemoved(on)));
      return None;
    }

    /** Edges in order until one is refused; the caller rolls back. */
    method AddEdges(c: Caller, x: nat, on: seq<nat>, why: Option<string>) returns (refusal: Option<Refusal>)
      requires Valid()
      modifies this
      ensures Valid()
      ensures var step := Definition.AddDeps(old(Snapshot()), c, x, on, why);
              if refusal.Some? then step == Refused(refusal.value) else step == Committed(Snapshot())
    {
      for i := 0 to |on|
        invariant Valid()
        invariant Definition.AddDeps(old(Snapshot()), c, x, on, why) == Definition.AddDeps(Snapshot(), c, x, on[i..], why)
      {
        assert on[i..][0] == on[i] && on[i..][1..] == on[i + 1..];
        refusal := AddEdge(c, x, on[i], why);
        if refusal.Some? { return; }
      }
      return None;
    }

    // ---- creation ----

    method ChoosePlan(selector: Definition.PlanSelector, parent: Option<nat>) returns (plan: nat)
      requires Valid()
      ensures plan == Definition.SelectedPlan(Snapshot(), selector, parent)
    {
      match selector {
        case ById(id) => return id;
        case BySlug(slug) =>
          SlugIsFirst(Snapshot(), slug);
          return FirstPlan(plans, slug);
        case ByActivity =>
          if parent.Some? {
            return if parent.value in tasks then tasks[parent.value].plan else |plans|;
          }
          plan := SoleActive(Snapshot());
      }
    }

    /** Insert the row of a new task under the next number. */
    method CreateTask(c: Caller, plan: nat, n: Definition.Creation) returns (refusal: Option<Refusal>, x: nat)
      requires Valid()
      modifies this
      ensures Valid() && x == Definition.NextTask(old(Snapshot()))
      ensures Answers(Definition.CreateRow(old(Snapshot()), c, plan, n), refusal, old(Snapshot()), Snapshot())
    {
      var largest := Largest(tasks.Keys);
      x := largest + 1;
      if !Assignable(n.kind) { return Some(UnassignableKind), x; }
      if !ValidTitle(n.title) { return Some(InvalidTitle), x; }
      if plan >= |plans| { return Some(NoPlan), x; }
      if Over(plans[plan].status) { return Some(PlanIsOver), x; }
      if n.parent.Some? {
        if n.parent.value !in tasks { return Some(NoTask(n.parent.value)), x; }
        if tasks[n.parent.value].plan != plan { return Some(ParentElsewhere), x; }
        if Closed(tasks[n.parent.value].status) { return Some(ParentIsClosed), x; }
      }
      var t := Task(plan, n.parent, None, Trim(n.title), n.intent, n.kind, None, Proposed, n.priority, None, []);
      StorableNew(Snapshot(), x, t);
      tasks := tasks[x := t];
      Record(OnTask(Snapshot(), c, x, n.why, Created(Trim(n.title), n.kind)));
      return None, x;
    }

    /** Create a task with its dependencies and, when asked, start it; a later refusal undoes the creation. */
    method AddTask(c: Caller, selector: Definition.PlanSelector, n: Definition.Creation, start: bool,
                   session: Option<string>)
      returns (refusal: Option<Refusal>)
      requires Valid()
      modifies this
      ensures Valid()
      ensures Answers(Definition.AddTask(old(Snapshot()), c, selector, n, start, session), refusal,
                      old(Snapshot()), Snapshot())
    {
      var saved := Snapshot();
      var plan := ChoosePlan(selector, n.parent);
      var x;
      refusal, x := CreateTask(c, plan, n);
      if refusal.Some? { return; }
      refusal := AddEdges(c, x, n.deps, n.why);
      if refusal.None? && start {
        refusal := StartTask(c, x, n.why, session);
      }
      if refusal.Some? {
        Restore(saved);
      }
    }

    // ---- moving between plans ----

    /** Move rows, all of them first, then record one plan revision each. */
    method MoveRows(c: Caller, order: seq<nat>, plan: nat, why: Option<string>)
      requires Valid() && Distinct(order) && forall x :: x in order ==> x in tasks
      modifies this
      ensures Valid() && Snapshot() == Definition.Relocate(old(Snapshot()), c, order, plan, why)
    {
      var before := Snapshot();
      RelocateInTwoPasses(before, c, order, plan, why);
      NothingMoved(before, order, plan);
      for i := 0 to |order|
        invariant Snapshot() == Rehomed(before, SetOf(order[..i]), plan)
      {
        MoveOne(before, order, plan, i);
        tasks := tasks[order[i] := tasks[order[i]].(plan := plan)];
      }
      TakeAll(order);
      RehomedStorable(before, SetOf(order), plan);
      RecordMoves(c, before, order, plan, why);
    }

    /** One plan revision per moved row. */
    method RecordMoves(c: Caller, before: State, order: seq<nat>, plan: nat, why: Option<string>)
      requires Valid() && Snapshot() == Rehomed(before, SetOf(order), plan) && forall x :: x in order ==> x in before.tasks
      modifies this`log
      ensures Valid()
      ensures Snapshot() == Rehomed(before, SetOf(order), plan).(log := before.log + MoveEvents(before, c, order, plan, why))
    {
      ghost var events := MoveEvents(before, c, order, plan, why);
      for i := 0 to |order|
        invariant Valid() && plans == before.plans && tasks == Rehomed(before, SetOf(order), plan).tasks && deps == before.deps
        invariant log == before.log + events[..i]
      {
        TakeNext(events, i);
        Record(OnTask(Snapshot(), c, order[i], why,
                      Definition.PlanRevision(SlugOf(before, order[i]), SlugAt(before, plan))));
      }
      TakeAll(events);
    }

    /** Move a selection that no parent or replacement link leaves. */
    method MovePlan(c: Caller, sequences: seq<nat>, slug: string, why: Option<string>) returns (refusal: Option<Refusal>)
      requires Valid()
      modifies this
      ensures Valid()
      ensures Answers(Definition.MovePlan(old(Snapshot()), c, sequences, slug, why), refusal, old(Snapshot()), Snapshot())
    {
      if sequences == [] { return Some(NoSelection); }
      var selected := set x | x in sequences;
      if !Distinct(sequences) { return Some(RepeatedSelection); }
      SlugIsFirst(Snapshot(), slug);
      var plan := FirstPlan(plans, slug);
      if plan == |plans| { return Some(NoPlan); }
      if !plans[plan].status.PlanActive? { return Some(PlanNotActive); }
      var missing := Definition.FirstMissing(Snapshot(), sequences);
      if missing.Some? { return Some(NoTask(missing.value)); }
      if exists x :: x in sequences && tasks[x].plan == plan { return Some(AlreadyThere); }
      var related := BoundClosure(Snapshot(), sequences);
      if related - selected != {} { return Some(SplitsLinks); }
      SortedOnce(sequences);
      MoveRows(c, Definition.Sorted(sequences), plan, Given(why));
      return None;
    }

    // ---- editing ----

    /** Refusals of a new parent found before anything is written, and the subtree that moves with the task. */
    method CheckParent(x: nat, parent: nat) returns (refusal: Option<Refusal>, descendants: seq<nat>)
      requires Valid() && x in tasks
      ensures refusal == Definition.ParentRefusal(Snapshot(), x, parent, descendants)
      ensures refusal != Some(ImpossibleVisit)
      ensures refusal.None? && parent in tasks && tasks[parent].plan != tasks[x].plan ==>
                Definition.Visits(Snapshot(), x, descendants)
    {
      descendants := [];
      if parent !in tasks { return Some(NoTask(parent)), descendants; }
      if parent == x { return Some(OwnParent), descendants; }
      if tasks[parent].plan != tasks[x].plan {
        var plan := tasks[parent].plan;
        if plan >= |plans| || !plans[plan].status.PlanActive? { return Some(PlanNotActive), descendants; }
        descendants := Descendants(tasks, x, Snapshot());
        var members := {x} + set y | y in descendants;
        var stays := NoLinkCrosses(Snapshot(), members);
        if !stays { return Some(ReplacementCrossesPlans), descendants; }
      }
      if Live(tasks[x].status) && Closed(tasks[parent].status) { return Some(ParentIsClosed), descendants; }
      return None, descendants;
    }

    /** The parent forest and the wait loops are checked once the row is written. */
    method CheckLinks(before: State, x: nat) returns (refusal: Option<Refusal>)
      requires LinkedWithin(Snapshot()) && x in before.tasks && x in tasks
      ensures refusal == Definition.LinkRefusal(before, Snapshot(), x) && refusal != Some(ImpossibleVisit)
    {
      var parent := tasks[x].parent;
      if parent == before.tasks[x].parent { return None; }
      var links := set y | y in tasks && tasks[y].parent.Some? :: (y, tasks[y].parent.value);
      assert links == Parents(Snapshot());
      var forest := NoCycle(Snapshot(), links);
      if !forest { return Some(ParentCycle); }
      if parent.Some? && Live(before.tasks[x].status) {
        var chain := WaitsFor(Snapshot(), x, parent.value);
        if chain.Some? { return Some(WouldDeadlock); }
      }
      return None;
    }

    /** Write the edited row, moving its subtree first when the new parent lives in another plan. */
    method WriteEdit(c: Caller, x: nat, edit: Definition.TaskEdit, why: Option<string>, descendants: seq<nat>)
      requires Valid() && x in tasks
      requires edit.parent.Some? && edit.parent.value.Some? ==> edit.parent.value.value in tasks
      requires Definition.EditedRow(Snapshot(), x, edit).plan != tasks[x].plan ==>
                 Definition.Visits(Snapshot(), x, descendants)
      modifies this
      ensures Snapshot() == Definition.EditedState(old(Snapshot()), c, x, edit, why, descendants)
      ensures LinkedWithin(Snapshot()) && (Acyclic(Parents(Snapshot())) ==> Valid())
      ensures x in tasks && tasks[x] == Definition.EditedRow(old(Snapshot()), x, edit)
      ensures SameForestBut(old(Snapshot()), Snapshot(), x)
    {
      EditedShape(Snapshot(), c, x, edit, why, descendants);
      var row := Definition.EditedRow(Snapshot(), x, edit);
      if row.plan != tasks[x].plan {
        RelocateIsRehomed(Snapshot(), c, descendants, row.plan, Given(why));
        MoveRows(c, descendants, row.plan, Given(why));
      }
      StorableEdited(Snapshot(), x, row);
      tasks := tasks[x := row];
    }

    method EditTask(c: Caller, x: nat, edit: Definition.TaskEdit, why: Option<string>)
      returns (refusal: Option<Refusal>, descendants: seq<nat>)
      requires Valid()
      modifies this
      ensures Valid()
      ensures Answers(Definition.Edit(old(Snapshot()), c, x, edit, why, descendants), refusal, old(Snapshot()), Snapshot())
      ensures refusal != Some(ImpossibleVisit)
    {
      descendants := [];
      if edit == Definition.TaskEdit(None, None, None, None, None) { return Some(NothingToEdit), descendants; }
      if edit.kind.Some? && !Assignable(edit.kind.value) { return Some(UnassignableKind), descendants; }
      if x !in tasks { return Some(NoTask(x)), descendants; }
      if edit.title.Some? && !ValidTitle(edit.title.value) { return Some(InvalidTitle), descendants; }
      if edit.parent.Some? && edit.parent.value.Some? {
        refusal, descendants := CheckParent(x, edit.parent.value.value);
        if refusal.Some? { return; }
      }
      var before := Snapshot();
      WriteEdit(c, x, edit, why, descendants);
      refusal := CheckLinks(before, x);
      if refusal.None? && tasks[x] == before.tasks[x] { refusal := Some(NoChanges); }
      if refusal.None? && tasks[x].status.Done? && RequiresResult(tasks[x].kind) && !HasResult(tasks[x].result) {
        refusal := Some(ResultRequired);
      }
      if refusal.Some? {
        Restore(before);
        return;
      }
      ForestKept(before, Snapshot(), x);
      Record(OnTask(Snapshot(), c, x, Given(why), Definition.Revise(before, before.tasks[x], tasks[x])));
    }

    // ---- decomposition ----

    /** One row per child, numbered in outline order. */
    method MakeRows(c: Caller, plan: nat, parent: nat, o: Outlines.Outline)
      returns (refusal: Option<Refusal>, numbers: seq<nat>)
      requires Valid()
      modifies this
      ensures Valid()
      ensures Leads(Outlines.MakeChildren(old(Snapshot()), c, plan, parent, o), refusal, Snapshot())
      ensures refusal.None? ==> Consecutive(numbers, Definition.NextTask(old(Snapshot())), |o.children|)
    {
      ghost var step: (State, nat) -> Outcome := (u: State, i: nat) => Outlines.MakeChild(u, c, plan, parent, o, i);
      ghost var base := Definition.NextTask(Snapshot());
      numbers := [];
      for i := 0 to |o.children|
        invariant Valid() && Consecutive(numbers, base, i) && Definition.NextTask(Snapshot()) == base + i
        invariant StepsReach(step, old(Snapshot()), Snapshot(), i, |o.children|)
      {
        ghost var before := Snapshot();
        var x;
        refusal, x := CreateTask(c, plan, Outlines.ChildOf(o, i, parent));
        StepTaken(step, old(Snapshot()), before, Snapshot(), i, |o.children|, refusal);
        if refusal.Some? { return; }
        RowCreated(before, Snapshot(), c, plan, Outlines.ChildOf(o, i, parent));
        numbers := numbers + [x];
      }
      return None, numbers;
    }

    /** One child's dependencies. */
    method LinkRow(c: Caller, o: Outlines.Outline, all: seq<seq<OutlineChecks.Resolved>>, numbers: seq<nat>,
                   ghost base: nat, i: nat)
      returns (refusal: Option<Refusal>)
      requires Valid() && OutlineChecks.Targeted(o, all, numbers, base) && i < |o.children|
      modifies this
      ensures Valid() && Leads(Outlines.LinkChild(old(Snapshot()), c, base, o, i), refusal, Snapshot())
    {
      refusal := AddEdges(c, numbers[i], OutlineChecks.TargetsOf(numbers, all[i]), Outlines.WhyFor(o, i));
    }

    /** Each child's dependencies, in outline order. */
    method LinkRows(c: Caller, o: Outlines.Outline, all: seq<seq<OutlineChecks.Resolved>>, numbers: seq<nat>,
                    ghost base: nat)
      returns (refusal: Option<Refusal>)
      requires Valid() && OutlineChecks.Targeted(o, all, numbers, base)
      modifies this
      ensures Valid()
      ensures Leads(Outlines.LinkChildren(old(Snapshot()), c, base, o), refusal, Snapshot())
    {
      ghost var step: (State, nat) -> Outcome := (u: State, i: nat) => Outlines.LinkChild(u, c, base, o, i);
      for i := 0 to |o.children|
        invariant Valid() && StepsReach(step, old(Snapshot()), Snapshot(), i, |o.children|)
      {
        ghost var now := Snapshot();
        refusal := LinkRow(c, o, all, numbers, base, i);
        StepTaken(step, old(Snapshot()), now, Snapshot(), i, |o.children|, refusal);
        if refusal.Some? { return; }
      }
      refusal := None;
      AllTaken(step, old(Snapshot()), Snapshot(), |o.children|);
    }

    /** Start the children that were ready before anything was created. */
    method StartRows(c: Caller, o: Outlines.Outline, ghost before: State, ready: seq<bool>, numbers: seq<nat>,
                     ghost base: nat, session: Option<string>)
      returns (refusal: Option<Refusal>)
      requires Valid() && Consecutive(numbers, base, |o.children|)
      requires |ready| == |o.children| && forall i :: 0 <= i < |ready| ==> ready[i] == Outlines.Ready(before, o, i)
      modifies this
      ensures Valid()
      ensures Leads(Outlines.StartChildren(before, old(Snapshot()), c, base, o, session), refusal, Snapshot())
    {
      ghost var step: (State, nat) -> Outcome := (u: State, i: nat) => Outlines.StartChild(before, u, c, base, o, session, i);
      for i := 0 to |o.children|
        invariant Valid() && StepsReach(step, old(Snapshot()), Snapshot(), i, |o.children|)
      {
        ghost var now := Snapshot();
        refusal := None;
        if ready[i] { refusal := StartTask(c, numbers[i], Outlines.WhyFor(o, i), session); }
        StepTaken(step, old(Snapshot()), now, Snapshot(), i, |o.children|, refusal);
        if refusal.Some? { return; }
      }
      return None;
    }

    /** Validate against one snapshot, then create, link and start; any refusal undoes all of it. */
    method DecomposeTask(c: Caller, parent: nat, o: Outlines.Outline, startReady: bool, session: Option<string>)
      returns (refusal: Option<Refusal>)
      requires Valid()
      modifies this
      ensures Valid()
      ensures Answers(Outlines.Decompose(old(Snapshot()), c, parent, o, startReady, session), refusal,
                      old(Snapshot()), Snapshot())
    {
      if parent !in tasks { return Some(NoTask(parent)); }
      if Over(Lifecycle.PlanStatusOf(Snapshot(), parent)) { return Some(PlanIsOver); }
      if Closed(tasks[parent].status) { return Some(ParentIsClosed); }
      if |o.children| == 0 || |o.children| > Outlines.MAX_CHILDREN { return Some(InvalidOutline); }
      var before := Snapshot();
      var ok, keys, all := OutlineChecks.Validate(before, parent, o, startReady);
      if !ok { return Some(InvalidOutline); }
      refusal := Apply(c, parent, o, startReady, session, keys, all);
      if refusal.Some? { Restore(before); }
    }

    method Apply(c: Caller, parent: nat, o: Outlines.Outline, startReady: bool, session: Option<string>,
                 keys: map<string, nat>, all: seq<seq<OutlineChecks.Resolved>>)
      returns (refusal: Option<Refusal>)
      requires Valid() && parent in tasks
      requires Outlines.KeysValid(o) && OutlineChecks.KeyTable(o, keys, |o.children|)
      requires OutlineChecks.ResolvedOutline(Snapshot(), o, keys, all, |o.children|)
      modifies this
      ensures Valid()
      ensures Leads(Outlines.Apply(old(Snapshot()), c, parent, o, startReady, session), refusal, Snapshot())
    {
      var before := Snapshot();
      ghost var base := Definition.NextTask(before);
      var ready := OutlineChecks.ReadyChildren(before, o, keys, all);
      var numbers;
      refusal, numbers := MakeRows(c, tasks[parent].plan, parent, o);
      if refusal.Some? { return; }
      OutlineChecks.AllTargeted(before, o, keys, all, numbers, base);
      refusal := LinkRows(c, o, all, numbers, base);
      if refusal.Some? || !startReady { return; }
      refusal := StartRows(c, o, before, ready, numbers, base, session);
    }

    // ---- every mutation as one call ----

    method ExecuteStatus(c: Caller, a: Runs.Action) returns (refusal: Option<Refusal>)
      requires Valid() && Runs.StatusAction(a)
      modifies this
      ensures Valid() && Answers(Runs.PerformStatus(old(Snapshot()), c, a), refusal, old(Snapshot()), Snapshot())
    {
      match a {
        case DoStart(x, why, session) => refusal := StartTask(c, x, why, session);
        case DoComplete(x, result) => refusal := CompleteTask(c, x, result);
        case DoReopen(x, why) => refusal := ReopenTask(c, x, why);
        case DoRetire(x, into, why) => refusal := TerminateTask(c, x, Retired, into, why);
        case DoReject(x, why) => refusal := TerminateTask(c, x, Rejected, None, why);
      }
    }

    /** A reparent reports the order in which it met the subtree, which the call then carries. */
    method ExecuteDefinition(c: Caller, a: Runs.Action) returns (refusal: Option<Refusal>, done: Runs.Action)
      requires Valid() && Runs.DefinitionAction(a)
      modifies this
      ensures Valid() && SameAction(a, done) && Runs.DefinitionAction(done)
      ensures Answers(Runs.PerformDefinition(old(Snapshot()), c, done), refusal, old(Snapshot()), Snapshot())
    {
      done := a;
      match a {
        case DoAdd(selector, n, start, session) => refusal := AddTask(c, selector, n, start, session);
        case DoEdit(x, edit, why, _) =>
          var visit;
          refusal, visit := EditTask(c, x, edit, why);
          done := Runs.DoEdit(x, edit, why, visit);
        case DoDecompose(x, o, startReady, session) => refusal := DecomposeTask(c, x, o, startReady, session);
      }
    }

    method ExecuteLink(c: Caller, a: Runs.Action) returns (refusal: Option<Refusal>)
      requires Valid() && Runs.LinkAction(a)
      modifies this
      ensures Valid() && Answers(Runs.PerformLink(old(Snapshot()), c, a), refusal, old(Snapshot()), Snapshot())
    {
      match a {
        case DoAddDep(x, on, why) => refusal := AddDependency(c, x, on, why);
        case DoRemoveDep(x, on, why) => refusal := RemoveDependency(c, x, on, why);
        case DoMovePlan(sequences, slug, why) => refusal := MovePlan(c, sequences, slug, why);
      }
    }

    method ExecuteGate(c: Caller, a: Runs.Action) returns (refusal: Option<Refusal>)
      requires Valid() && Runs.GateAction(a)
      modifies this
      ensures Valid() && Answers(Runs.PerformGate(old(Snapshot()), c, a), refusal, old(Snapshot()), Snapshot())
    {
      match a {
        case DoAddGate(x, name, kind, requirement) => refusal := AddGate(c, x, name, kind, requirement);
        case DoResolveGate(x, name, evidence, digest, note, ok) =>
          refusal := SettleGate(c, x, name, Resolved, Some(evidence), digest, note, None, ok);
        case DoWaiveGate(x, name, reason) => refusal := WaiveGate(c, x, name, reason);
        case DoRemoveGate(x, name, reason) => refusal := RemoveGate(c, x, name, reason);
        case DoReopenGate(x, name, why) => refusal := ReopenGate(c, x, name, why);
      }
    }

    method ExecutePlan(c: Caller, a: Runs.Action) returns (refusal: Option<Refusal>)
      requires Valid() && Runs.PlanAction(a)
      modifies this
      ensures Valid() && Answers(Runs.PerformPlan(old(Snapshot()), c, a), refusal, old(Snapshot()), Snapshot())
    {
      match a {
        case DoAddPlan(slug, title, intent) => refusal := AddPlan(c, slug, title, intent);
        case DoEditPlan(slug, title, intent, why) => refusal := EditPlan(c, slug, title, intent, why);
        case DoSetPlan(slug, status, why) => refusal := SetPlanStatus(c, slug, status, why);
        case DoReview(x, target, verdict, reason) => refusal := ReviewTask(c, x, target, verdict, reason);
        case DoNote(about, text) => refusal := AddNote(c, about, text);
      }
    }

    /** Whatever the call, the stored tables move exactly as the run's step says, and a refused call leaves them alone. */
    method Execute(call: Runs.Call) returns (refusal: Option<Refusal>, done: Runs.Call)
      requires Valid()
      modifies this
      ensures Valid() && done.caller == call.caller && SameAction(call.action, done.action)
      ensures Answers(Runs.Perform(old(Snapshot()), done), refusal, old(Snapshot()), Snapshot())
      ensures Snapshot() == Runs.Step(old(Snapshot()), done)
    {
      var c, a := call.caller, call.action;
      done := call;
      if Runs.StatusAction(a) {
        refusal := ExecuteStatus(c, a);
      } else if Runs.DefinitionAction(a) {
        var same;
        refusal, same := ExecuteDefinition(c, a);
        done := Runs.Call(c, same);
      } else if Runs.LinkAction(a) {
        refusal := ExecuteLink(c, a);
      } else if Runs.GateAction(a) {
        refusal := ExecuteGate(c, a);
      } else {
        refusal := ExecutePlan(c, a);
      }
    }

    /** Serving calls one after the other from a new authority is a run. */
    method Serve(calls: seq<Runs.Call>) returns (done: seq<Runs.Call>)
      requires Snapshot() == EMPTY
      modifies this
      ensures |done| == |calls|
      ensures forall i :: 0 <= i < |calls| ==> done[i].caller == calls[i].caller && SameAction(calls[i].action, done[i].action)
      ensures Snapshot() == Runs.After(EMPTY, done) && Inv(Snapshot())
    {
      EmptyStorable();
      done := [];
      for i := 0 to |calls|
        invariant Valid() && |done| == i && Snapshot() == Runs.After(EMPTY, done)
        invariant forall k :: 0 <= k < i ==> done[k].caller == calls[k].caller && SameAction(calls[k].action, done[k].action)
      {
        var refusal, performed := Execute(calls[i]);
        Runs.OneMoreCall(EMPTY, done, performed);
        done := done + [performed];
      }
      EmptyInv();
      Runs.RunSafe(EMPTY, done);
    }

    // ---- import ----

    method ImportDump(syntax: Syntax, c: Caller, d: Dump) returns (refusal: Option<Refusal>)
      requires Valid()
      modifies this
      ensures Valid()
      ensures Answers(ImportOutcome(syntax, old(Snapshot()), c, d), refusal, old(Snapshot()), Snapshot())
    {
      var outcome := Import(syntax, Snapshot(), c, d);
      if outcome.Refused? { return Some(outcome.why); }
      ImportStorable(syntax, Snapshot(), c, d);
      Restore(outcome.state);
      return None;
    }

    // ---- gates ----

    method SetGates(x: nat, gates: seq<Gate>)
      requires Valid() && x in tasks
      modifies this`tasks
      ensures Valid() && Snapshot() == GatesAndPlans.WithGates(old(Snapshot()), x, gates)
    {
      GatesStorable(Snapshot(), x, gates);
      tasks := tasks[x := tasks[x].(gates := gates)];
    }

    method AddGate(c: Caller, x: nat, name: string, kind: GateKind, requirement: string) returns (refusal: Option<Refusal>)
      requires Valid()
      modifies this
      ensures Valid()
      ensures Answers(GatesAndPlans.AddGate(old(Snapshot()), c, x, name, kind, requirement), refusal,
                      old(Snapshot()), Snapshot())
    {
      if Blank(name) || Blank(requirement) { return Some(BlankText); }
      if x !in tasks { return Some(NoTask(x)); }
      if Closed(tasks[x].status) { return Some(AlreadyClosed); }
      if FindGate(tasks[x].gates, Trim(name)).Some? { return Some(GateExists); }
      var gate := Gate(Trim(name), kind, Trim(requirement), Open, None, None, None, None);
      SetGates(x, tasks[x].gates + [gate]);
      Record(Stamped(Snapshot(), c, GateEntity, x, Some(Trim(name)), None, GateCreated(kind)));
      return None;
    }

    /** Resolve an open gate with evidence, or waive it with a reason. */
    method SettleGate(c: Caller, x: nat, name: string, to: GateStatus, evidence: Option<string>, digest: Option<string>,
                      note: Option<string>, why: Option<string>, wellFormed: bool)
      returns (refusal: Option<Refusal>)
      requires Valid()
      modifies this
      ensures Valid()
      ensures Answers(GatesAndPlans.SettleGate(old(Snapshot()), c, x, name, to, evidence, digest, note, why, wellFormed),
                      refusal, old(Snapshot()), Snapshot())
    {
      if x !in tasks { return Some(NoTask(x)); }
      var found := FindGate(tasks[x].gates, name);
      if found.None? || !found.value.status.Open? { return Some(NoGate); }
      if !wellFormed { return Some(InvalidEvidence); }
      var gate := found.value.(status := to, evidence := evidence, digest := digest,
                               note := if to.Waived? then why else note, resolvedAt := Some(c.at));
      SetGates(x, GatesAndPlans.Replaced(tasks[x].gates, name, gate));
      Record(Stamped(Snapshot(), c, GateEntity, x, Some(name), why, GateSettled(to, evidence)));
      return None;
    }

    method WaiveGate(c: Caller, x: nat, name: string, why: string) returns (refusal: Option<Refusal>)
      requires Valid()
      modifies this
      ensures Valid()
      ensures Answers(GatesAndPlans.WaiveGate(old(Snapshot()), c, x, name, why), refusal, old(Snapshot()), Snapshot())
    {
      if Blank(why) { return Some(ReasonRequired); }
      refusal := SettleGate(c, x, name, Waived, None, None, None, Some(why), true);
    }

    method RemoveGate(c: Caller, x: nat, name: string, why: string) returns (refusal: Option<Refusal>)
      requires Valid()
      modifies this
      ensures Valid()
      ensures Answers(GatesAndPlans.RemoveGate(old(Snapshot()), c, x, name, why), refusal, old(Snapshot()), Snapshot())
    {
      if Blank(why) { return Some(ReasonRequired); }
      if x !in tasks { return Some(NoTask(x)); }
      var found := FindGate(tasks[x].gates, name);
      if found.None? || !found.value.status.Open? { return Some(NoGate); }
      SetGates(x, GatesAndPlans.Removed(tasks[x].gates, name));
      Record(OnTask(Snapshot(), c, x, Some(why), GateRemoved(name, found.value.kind, found.value.requirement)));
      return None;
    }

    method ReopenGate(c: Caller, x: nat, name: string, why: Option<string>) returns (refusal: Option<Refusal>)
      requires Valid()
      modifies this
      ensures Valid()
      ensures Answers(GatesAndPlans.ReopenGate(old(Snapshot()), c, x, name, why), refusal, old(Snapshot()), Snapshot())
    {
      if x !in tasks { return Some(NoTask(x)); }
      if Closed(tasks[x].status) { return Some(AlreadyClosed); }
      var found := FindGate(tasks[x].gates, name);
      if found.None? { return Some(NoGate); }
      if found.value.status.Open? { return Some(GateAlreadyOpen); }
      var open := found.value.(status := Open, evidence := None, digest := None, note := None, resolvedAt := None);
      SetGates(x, GatesAndPlans.Replaced(tasks[x].gates, name, open));
      Record(Stamped(Snapshot(), c, GateEntity, x, Some(name), Given(why), GateReopened(found.value.status)));
      return None;
    }

    // ---- plans ----

    method AddPlan(c: Caller, slug: string, title: string, intent: string) returns (refusal: Option<Refusal>)
      requires Valid()
      modifies this
      ensures Valid()
      ensures Answers(GatesAndPlans.AddPlan(old(Snapshot()), c, slug, title, intent), refusal, old(Snapshot()), Snapshot())
    {
      if Blank(slug) || Blank(title) { return Some(BlankText); }
      SlugIsFirst(Snapshot(), Trim(slug));
      if FirstPlan(plans, Trim(slug)) < |plans| { return Some(SlugTaken); }
      var plan := Plan(Trim(slug), Trim(title), intent, PlanActive);
      StorablePlans(Snapshot(), plans + [plan]);
      plans := plans + [plan];
      Record(GatesAndPlans.PlanEvent(c, Trim(slug), None, PlanCreated(Trim(slug))));
      return None;
    }

    /** Overwrite a plan row that keeps its slug. */
    method SetPlan(p: nat, plan: Plan)
      requires Valid() && p < |plans| && plan.slug == plans[p].slug
      modifies this`plans
      ensures Valid() && Snapshot() == old(Snapshot()).(plans := old(plans)[p := plan])
    {
      StorablePlans(Snapshot(), plans[p := plan]);
      plans := plans[p := plan];
    }

    method EditPlan(c: Caller, slug: string, title: Option<string>, intent: Option<string>, why: Option<string>)
      returns (refusal: Option<Refusal>)
      requires Valid()
      modifies this
      ensures Valid()
      ensures Answers(GatesAndPlans.EditPlan(old(Snapshot()), c, slug, title, intent, why), refusal,
                      old(Snapshot()), Snapshot())
    {
      SlugIsFirst(Snapshot(), slug);
      var p := FirstPlan(plans, slug);
      if title.None? && intent.None? { return Some(NothingToEdit); }
      if p == |plans| { return Some(NoPlan); }
      if title.Some? && Blank(title.value) { return Some(BlankText); }
      SetPlan(p, plans[p].(title := if title.Some? then Trim(title.value) else plans[p].title,
                           intent := if intent.Some? then intent.value else plans[p].intent));
      Record(GatesAndPlans.PlanEvent(c, slug, Given(why), PlanEdited));
      return None;
    }

    method SetPlanStatus(c: Caller, slug: string, status: PlanStatus, why: Option<string>) returns (refusal: Option<Refusal>)
      requires Valid()
      modifies this
      ensures Valid()
      ensures Answers(GatesAndPlans.SetPlanStatus(old(Snapshot()), c, slug, status, why), refusal,
                      old(Snapshot()), Snapshot())
    {
      SlugIsFirst(Snapshot(), slug);
      var p := FirstPlan(plans, slug);
      if p == |plans| { return Some(NoPlan); }
      if status.PlanDone? {
        var live := InOrder(set x | x in tasks && tasks[x].plan == p && Live(tasks[x].status));
        if live != [] {
          assert live[0] in live;
          return Some(PlanHasLiveTasks);
        }
        forall x | x in tasks && tasks[x].plan == p ensures Closed(tasks[x].status) { assert x !in live; }
      }
      SetPlan(p, plans[p].(status := status));
      Record(GatesAndPlans.PlanEvent(c, slug, Given(why), PlanStatusSet(status)));
      return None;
    }

    // ---- reviews, notes ----

    method ReviewTask(c: Caller, x: nat, target: ReviewTarget, verdict: Verdict, why: string)
      returns (refusal: Option<Refusal>)
      requires Valid()
      modifies this
      ensures Valid()
      ensures Answers(GatesAndPlans.ReviewTask(old(Snapshot()), c, x, target, verdict, why), refusal,
                      old(Snapshot()), Snapshot())
    {
      if Blank(why) { return Some(ReasonRequired); }
      if x !in tasks { return Some(NoTask(x)); }
      var claimant;
      if target.OfFiling? {
        claimant := FindFiler(log, x);
      } else {
        if !tasks[x].status.Done? { return Some(NotDone); }
        claimant := FindCompleter(log, x);
      }
      if claimant.Some? && SameAuthor(c.author, claimant.value) { return Some(SelfReview); }
      Record(OnTask(Snapshot(), c, x, Some(why), Reviewed(target, verdict)));
      return None;
    }

    method AddNote(c: Caller, about: Option<nat>, text: string) returns (refusal: Option<Refusal>)
      requires Valid()
      modifies this
      ensures Valid()
      ensures Answers(GatesAndPlans.AddNote(old(Snapshot()), c, about, text), refusal, old(Snapshot()), Snapshot())
    {
      if about.None? {
        Record(Event(c.at, c.author, PlanEntity, None, None, None, Some(text), Noted));
        return None;
      }
      if about.value !in tasks { return Some(NoTask(about.value)); }
      Record(OnTask(Snapshot(), c, about.value, Some(text), Noted));
      return None;
    }
  }

  lemma GatesStorable(s: State, x: nat, gates: seq<Gate>)
    requires Storable(s) && x in s.tasks
    ensures Storable(GatesAndPlans.WithGates(s, x, gates))
  {
    StorableRows(s, GatesAndPlans.WithGates(s, x, gates));
  }

  lemma OnlyOne(s: State, active: seq<nat>, p: nat)
    requires Increasing(active) && forall q: nat :: q in active <==> q < |s.plans| && s.plans[q].status.PlanActive?
    requires Definition.OnlyActive(s, p)
    ensures |active| == 1
  {
    assert p in active;
    forall k | 0 <= k < |active| ensures active[k] == p { assert active[k] in active; }
    assert active[0] == p && active[|active| - 1] == p;
  }

  /** The only active plan; past the end when there is none or more than one. */
  method SoleActive(s: State) returns (plan: nat)
    ensures plan == Definition.SelectedPlan(s, Definition.ByActivity, None)
  {
    var active: seq<nat> := [];
    for i := 0 to |s.plans|
      invariant Increasing(active) && forall p: nat :: p in active <==> p < i && s.plans[p].status.PlanActive?
    {
      if s.plans[i].status.PlanActive? {
        IncreasingNext(active, i);
        active := active + [i];
      }
    }
    forall p: nat | Definition.OnlyActive(s, p) ensures |active| == 1 { OnlyOne(s, active, p); }
    if |active| == 1 {
      assert active[0] in active;
      assert Definition.OnlyActive(s, active[0]);
      return active[0];
    }
    return |s.plans|;
  }

  // ---- relocation ----

  lemma NothingMoved(s: State, order: seq<nat>, plan: nat)
    ensures Rehomed(s, SetOf(order[..0]), plan) == s
  {
    assert Rehomed(s, SetOf(order[..0]), plan).tasks == s.tasks;
  }

  lemma MoveOne(s: State, order: seq<nat>, plan: nat, i: nat)
    requires i < |order| && order[i] in s.tasks
    ensures var u, x := Rehomed(s, SetOf(order[..i]), plan), order[i];
            x in u.tasks && Put(u, x, u.tasks[x].(plan := plan)) == Rehomed(s, SetOf(order[..i + 1]), plan)
  {
    var u, x := Rehomed(s, SetOf(order[..i]), plan), order[i];
    TakeNext(order, i);
    assert Put(u, x, u.tasks[x].(plan := plan)).tasks == Rehomed(s, SetOf(order[..i + 1]), plan).tasks;
  }

  lemma RehomedStorable(s: State, moved: set<nat>, plan: nat)
    requires Storable(s)
    ensures Storable(Rehomed(s, moved, plan))
  {
    StorableRows(s, Rehomed(s, moved, plan));
  }

  lemma SortedOnce(sequences: seq<nat>)
    requires Distinct(sequences)
    ensures Distinct(Definition.Sorted(sequences)) && forall x :: x in Definition.Sorted(sequences) <==> x in sequences
  {
    SortedSameSet(sequences);
    SortedDistinct(sequences);
  }

  /** The selection and all its plan-bound links connect it to: it needs no more exactly when it is link-closed. */
  method BoundClosure(s: State, sequences: seq<nat>) returns (closure: set<nat>)
    ensures closure - (set x | x in sequences) == {} <==> Definition.LinkClosed(s, set x | x in sequences)
  {
    var links := (set x | x in s.tasks && s.tasks[x].parent.Some? :: (x, s.tasks[x].parent.value))
               + (set x | x in s.tasks && s.tasks[x].replacement.Some? :: (x, s.tasks[x].replacement.value));
    assert links == Definition.PlanBound(s);
    var edges := PairsInOrder(links);
    closure := Closure(sequences, edges);
    assert EdgeSet(edges) == Definition.PlanBound(s);
    NothingMissing(s, sequences);
    var more := closure - set x | x in sequences;
    if more == {} {
      forall x: nat ensures !Missing(s, sequences, x) { assert x in more <==> Missing(s, sequences, x); }
    } else {
      var x :| x in more;
      assert Missing(s, sequences, x);
    }
  }

  /** No replacement link has exactly one end among the members. */
  method NoLinkCrosses(s: State, members: set<nat>) returns (ok: bool)
    ensures ok == Definition.ReplacementsStay(s, members)
  {
    var links := set x | x in s.tasks && s.tasks[x].replacement.Some? :: (x, s.tasks[x].replacement.value);
    assert links == Replacements(s);
    var crossing := set e | e in links && (e.0 in members) != (e.1 in members);
    if crossing != {} {
      var e :| e in crossing;
      assert e in Replacements(s);
      return false;
    }
    forall e | e in Replacements(s) ensures e.0 in members <==> e.1 in members { assert e !in crossing; }
    return true;
  }

  /** Only x may have another parent. */
  ghost predicate SameForestBut(before: State, after: State, x: nat) {
    && after.tasks.Keys == before.tasks.Keys && after.plans == before.plans
    && forall y :: y in before.tasks && y != x ==> after.tasks[y].parent == before.tasks[y].parent
  }

  /** An edit that passes its link checks leaves a forest: unchanged links, or checked ones. */
  lemma ForestKept(before: State, after: State, x: nat)
    requires Storable(before) && LinkedWithin(after) && x in before.tasks && SameForestBut(before, after, x)
    requires Definition.LinkRefusal(before, after, x).None?
    ensures Storable(after)
  {
    if after.tasks[x].parent == before.tasks[x].parent { assert Parents(after) == Parents(before); }
  }

  // ---- decomposition and import ----

  /** A step that may stop part way: refused, or committed here. */
  ghost predicate Leads(step: Outcome, refusal: Option<Refusal>, after: State) {
    if refusal.Some? then step == Refused(refusal.value) else step == Committed(after)
  }

  /** The first i steps led here, and what remains decides the outcome. */
  ghost predicate StepsReach(step: (State, nat) -> Outcome, start: State, now: State, i: nat, n: nat) {
    Outlines.Steps(step, start, 0, n) == Outlines.Steps(step, now, i, n)
  }

  lemma StepTaken(step: (State, nat) -> Outcome, start: State, now: State, next: State, i: nat, n: nat,
                  refusal: Option<Refusal>)
    requires i < n && StepsReach(step, start, now, i, n) && Leads(step(now, i), refusal, next)
    ensures if refusal.Some? then Outlines.Steps(step, start, 0, n) == Refused(refusal.value)
            else StepsReach(step, start, next, i + 1, n)
  {
  }

  lemma AllTaken(step: (State, nat) -> Outcome, start: State, now: State, n: nat)
    requires StepsReach(step, start, now, n, n)
    ensures Outlines.Steps(step, start, 0, n) == Committed(now)
  {
  }

  predicate Consecutive(numbers: seq<nat>, base: nat, n: nat) {
    |numbers| == n && forall i :: 0 <= i < n ==> numbers[i] == base + i
  }

  lemma RowCreated(s: State, u: State, c: Caller, plan: nat, n: Definition.Creation)
    requires Definition.CreateRow(s, c, plan, n) == Committed(u)
    ensures Definition.NextTask(u) == Definition.NextTask(s) + 1
  {
    assert u.tasks.Keys == s.tasks.Keys + {Definition.NextTask(s)};
    assert Definition.NextTask(s) in u.tasks.Keys && MaxOf(u.tasks.Keys) in u.tasks.Keys;
  }

  lemma ImportStorable(syntax: Syntax, t: State, c: Caller, d: Dump)
    requires Storable(t) && Accepts(syntax, t, d)
    ensures Storable(ImportedState(t, c, d))
  {
    var r, u := Restored(t, d), ImportedState(t, c, d);
    RestoredIsLinked(t, d);
    SameGraphs(r, u);
    WithPlansDistinct(t.plans, d.plans);
  }

  lemma {:induction false} WithPlansDistinct(stored: seq<Plan>, plans: seq<Plan>)
    requires DistinctSlugs(stored) && DistinctSlugs(plans)
    ensures DistinctSlugs(WithPlans(stored, plans))
    decreases |plans|
  {
    if plans != [] {
      var rest, p := plans[..|plans| - 1], plans[|plans| - 1];
      WithPlansDistinct(stored, rest);
      WithPlansLists(stored, rest);
      var before := WithPlans(stored, rest);
      if !ListsSlug(stored, p.slug) {
        assert !ListsSlug(rest, p.slug);
        forall i | 0 <= i < |before| ensures before[i].slug != p.slug { assert !ListsSlug(before, p.slug); }
      }
    }
  }

  /** The same action, up to the subtree order a reparent reports. */
  predicate SameAction(a: Runs.Action, b: Runs.Action) {
    if a.DoEdit? then b.DoEdit? && b == a.(visit := b.visit) else b == a
  }
}
