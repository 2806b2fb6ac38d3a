/** The log is append-only and every change is logged, so the log's head pins the whole authority along a run. */
module Snapshots {
  import opened Basics
  import opened Graphs
  import opened Records
  import opened Waiting
  import opened Lifecycle
  import opened Definition
  import opened DefinitionSafety
  import opened GatesAndPlans
  import opened Outlines
  import opened Invariants
  import opened OutlineSoundness
  import opened Runs
  import opened HistoryRuns

  ghost predicate KnownSlug(s: State, slug: string) {
    exists i :: 0 <= i < |s.plans| && s.plans[i].slug == slug
  }

  /** Status changes the lifecycle allows. */
  predicate LegalChange(from: Status, to: Status) {
    match to
    case Proposed => !from.Proposed?
    case InProgress => from.Proposed?
    case _ => Live(from)
  }

  /** What every recorded event looks like; only a review records a verdict. */
  ghost predicate Shaped(s: State, e: Event, review: bool) {
    && (e.payload.Reviewed? ==> review)
    && (if e.entity.PlanEntity? then e.task.None? && (e.plan.Some? ==> KnownSlug(s, e.plan.value))
        else e.task.Some? && e.plan.Some?)
    && (e.entity.GateEntity? ==> e.gate.Some?)
    && (e.payload.Created? || e.payload.StatusChanged? || e.payload.Reviewed? || e.payload.Edited? ==> e.entity.TaskEntity?)
    && (e.payload.StatusChanged? ==> LegalChange(e.payload.from, e.payload.to))
    && (e.payload.Edited? && PlanField in e.payload.changes && e.payload.changes[PlanField].before.Text? ==>
          KnownSlug(s, e.payload.changes[PlanField].before.text))
  }

  /** History is kept, new events are well shaped and carry the caller's authorship and time, plan slugs persist,
      and only a longer log changes anything. */
  ghost predicate Appended(s: State, u: State, c: Caller, review: bool) {
    && s.log <= u.log && (u.log == s.log ==> u == s)
    && (forall slug :: KnownSlug(s, slug) ==> KnownSlug(u, slug))
    && (forall i :: |s.log| <= i < |u.log| ==> Shaped(u, u.log[i], review) && By(u.log[i], c))
  }

  predicate By(e: Event, c: Caller) { e.author == c.author && e.at == c.at }

  lemma ShapedLater(s: State, u: State, e: Event, review: bool)
    requires Shaped(s, e, review) && forall slug :: KnownSlug(s, slug) ==> KnownSlug(u, slug)
    ensures Shaped(u, e, review)
  {
  }

  lemma AppendedTrans(s: State, u: State, v: State, c: Caller, review: bool)
    requires Appended(s, u, c, review) && Appended(u, v, c, review)
    ensures Appended(s, v, c, review)
  {
    forall i | |s.log| <= i < |v.log| ensures Shaped(v, v.log[i], review) && By(v.log[i], c) {
      if i < |u.log| {
        assert v.log[i] == u.log[i];
        ShapedLater(u, v, u.log[i], review);
      }
    }
  }

  lemma OneMore(s: State, u: State, c: Caller, e: Event, review: bool)
    requires u.log == s.log + [e] && By(e, c)
    requires forall slug :: KnownSlug(s, slug) ==> KnownSlug(u, slug)
    requires Shaped(u, e, review)
    ensures Appended(s, u, c, review)
  {
  }

  lemma SameSlugs(s: State, u: State)
    requires u.plans == s.plans
    ensures forall slug :: KnownSlug(s, slug) ==> KnownSlug(u, slug)
  {
  }

  /** One more event about a task, with the plans left alone. */
  lemma OneMoreOnTask(s: State, u: State, c: Caller, review: bool)
    requires u.plans == s.plans && |u.log| == |s.log| + 1 && s.log == u.log[..|s.log|]
    requires By(u.log[|s.log|], c) && Shaped(u, u.log[|s.log|], review)
    ensures Appended(s, u, c, review)
  {
    SameSlugs(s, u);
    assert u.log == s.log + [u.log[|s.log|]];
    OneMore(s, u, c, u.log[|s.log|], review);
  }

  lemma AddDepAppends(s: State, c: Caller, x: nat, on: nat, why: Option<string>)
    requires AddDep(s, c, x, on, why).Committed?
    ensures Appended(s, AddDep(s, c, x, on, why).state, c, false)
  {
    OneMoreOnTask(s, AddDep(s, c, x, on, why).state, c, false);
  }

  lemma {:induction false} AddDepsAppend(s: State, c: Caller, x: nat, deps: seq<nat>, why: Option<string>)
    requires AddDeps(s, c, x, deps, why).Committed?
    ensures Appended(s, AddDeps(s, c, x, deps, why).state, c, false)
    decreases |deps|
  {
    if deps != [] {
      var u := AddDep(s, c, x, deps[0], why).state;
      AddDepAppends(s, c, x, deps[0], why);
      AddDepsAppend(u, c, x, deps[1..], why);
      AppendedTrans(s, u, AddDeps(u, c, x, deps[1..], why).state, c, false);
    }
  }

  lemma StartAppends(s: State, c: Caller, x: nat, why: Option<string>, session: Option<string>)
    requires Start(s, c, x, why, session).Committed?
    ensures Appended(s, Start(s, c, x, why, session).state, c, false)
  {
    var u := Start(s, c, x, why, session).state;
    if u != s { OneMoreOnTask(s, u, c, false); }
  }

  lemma CreateRowAppends(s: State, c: Caller, plan: nat, n: Creation)
    requires CreateRow(s, c, plan, n).Committed?
    ensures Appended(s, CreateRow(s, c, plan, n).state, c, false)
  {
    OneMoreOnTask(s, CreateRow(s, c, plan, n).state, c, false);
  }

  lemma AddTaskAppends(s: State, c: Caller, selector: PlanSelector, n: Creation, start: bool, session: Option<string>)
    requires AddTask(s, c, selector, n, start, session).Committed?
    ensures Appended(s, AddTask(s, c, selector, n, start, session).state, c, false)
  {
    var plan := SelectedPlan(s, selector, n.parent);
    var row, created := CreateRow(s, c, plan, n).state, Create(s, c, plan, n).state;
    CreateRowAppends(s, c, plan, n);
    AddDepsAppend(row, c, NextTask(s), n.deps, n.why);
    AppendedTrans(s, row, created, c, false);
    if start {
      StartAppends(created, c, NextTask(s), n.why, session);
      AppendedTrans(s, created, AddTask(s, c, selector, n, start, session).state, c, false);
    }
  }

  /** Every task belongs to a stored plan. */
  ghost predicate Homed(s: State) { forall x :: x in s.tasks ==> s.tasks[x].plan < |s.plans| }

  lemma InvHomed(s: State)
    requires Rows(s)
    ensures Homed(s)
  {
    forall x | x in s.tasks ensures s.tasks[x].plan < |s.plans| { assert RowOk(s, s.tasks[x]); }
  }

  lemma {:induction false} RelocateAppends(s: State, c: Caller, order: seq<nat>, plan: nat, why: Option<string>)
    requires Homed(s) && plan < |s.plans|
    ensures Appended(s, Relocate(s, c, order, plan, why), c, false)
    decreases |order|
  {
    if order != [] {
      var x, rest := order[0], order[1..];
      if x in s.tasks {
        var u := RelocateOne(s, c, x, plan, why);
        assert u.plans[s.tasks[x].plan].slug == SlugOf(s, x);
        OneMoreOnTask(s, u, c, false);
        RelocateAppends(u, c, rest, plan, why);
        AppendedTrans(s, u, Relocate(u, c, rest, plan, why), c, false);
      } else {
        RelocateAppends(s, c, rest, plan, why);
      }
    }
  }

  lemma MovePlanAppends(s: State, c: Caller, sequences: seq<nat>, slug: string, why: Option<string>)
    requires Homed(s) && MovePlan(s, c, sequences, slug, why).Committed?
    ensures Appended(s, MovePlan(s, c, sequences, slug, why).state, c, false)
  {
    RelocateAppends(s, c, Sorted(sequences), PlanOfSlug(s, slug), Given(why));
  }

  lemma EditedStateAppends(s: State, m: State, c: Caller, x: nat, row: Task, why: Option<string>)
    requires Homed(s) && x in s.tasks && x in m.tasks && m.plans == s.plans && Appended(s, m, c, false)
    ensures var after := Put(m, x, row);
            Appended(s, Logged(after, OnTask(after, c, x, why, Revise(s, s.tasks[x], row))), c, false)
  {
    var after := Put(m, x, row);
    var u := Logged(after, OnTask(after, c, x, why, Revise(s, s.tasks[x], row)));
    assert u.plans[s.tasks[x].plan].slug == SlugOf(s, x);
    OneMoreOnTask(m, u, c, false);
    AppendedTrans(s, m, u, c, false);
  }

  lemma EditAppends(s: State, c: Caller, x: nat, edit: TaskEdit, why: Option<string>, visit: seq<nat>)
    requires Homed(s) && Edit(s, c, x, edit, why, visit).Committed?
    ensures Appended(s, Edit(s, c, x, edit, why, visit).state, c, false)
  {
    EditCommits(s, c, x, edit, why, visit);
    var row := EditedRow(s, x, edit);
    var m := s;
    if row.plan != s.tasks[x].plan {
      m := Relocate(s, c, visit, row.plan, Given(why));
      RelocateAppends(s, c, visit, row.plan, Given(why));
      RelocateIsRehomed(s, c, visit, row.plan, Given(why));
    }
    EditedStateAppends(s, m, c, x, row, Given(why));
  }

  lemma StepsAppend(step: (State, nat) -> Outcome, s: State, n: nat, c: Caller)
    requires Steps(step, s, 0, n).Committed?
    requires forall u, j: nat :: step(u, j).Committed? ==> Appended(u, step(u, j).state, c, false)
    ensures Appended(s, Steps(step, s, 0, n).state, c, false)
  {
    var keeps := (u: State) => Appended(s, u, c, false);
    forall u, j: nat | keeps(u) && step(u, j).Committed? ensures keeps(step(u, j).state) {
      AppendedTrans(s, u, step(u, j).state, c, false);
    }
    StepsKeep(step, keeps, s, 0, n);
  }

  lemma MakingAppends(s: State, c: Caller, plan: nat, parent: nat, o: Outline)
    requires MakeChildren(s, c, plan, parent, o).Committed?
    ensures Appended(s, MakeChildren(s, c, plan, parent, o).state, c, false)
  {
    var step: (State, nat) -> Outcome := (u: State, i: nat) => MakeChild(u, c, plan, parent, o, i);
    forall u, j: nat | step(u, j).Committed? ensures Appended(u, step(u, j).state, c, false) {
      if j < |o.children| { CreateRowAppends(u, c, plan, ChildOf(o, j, parent)); }
    }
    StepsAppend(step, s, |o.children|, c);
  }

  lemma LinkingAppends(s: State, c: Caller, base: nat, o: Outline)
    requires LinkChildren(s, c, base, o).Committed?
    ensures Appended(s, LinkChildren(s, c, base, o).state, c, false)
  {
    var step: (State, nat) -> Outcome := (u: State, i: nat) => LinkChild(u, c, base, o, i);
    forall u, j: nat | step(u, j).Committed? ensures Appended(u, step(u, j).state, c, false) {
      if j < |o.children| { AddDepsAppend(u, c, base + j, Targets(o, base, o.children[j].deps), WhyFor(o, j)); }
    }
    StepsAppend(step, s, |o.children|, c);
  }

  lemma StartChildAppends(before: State, u: State, c: Caller, base: nat, o: Outline, session: Option<string>, j: nat)
    requires StartChild(before, u, c, base, o, session, j).Committed?
    ensures Appended(u, StartChild(before, u, c, base, o, session, j).state, c, false)
  {
    if j < |o.children| && Ready(before, o, j) { StartAppends(u, c, base + j, WhyFor(o, j), session); }
  }

  lemma StartingAppends(before: State, s: State, c: Caller, base: nat, o: Outline, session: Option<string>)
    requires StartChildren(before, s, c, base, o, session).Committed?
    ensures Appended(s, StartChildren(before, s, c, base, o, session).state, c, false)
  {
    var step: (State, nat) -> Outcome := (u: State, i: nat) => StartChild(before, u, c, base, o, session, i);
    forall u, j: nat | step(u, j).Committed? ensures Appended(u, step(u, j).state, c, false) {
      StartChildAppends(before, u, c, base, o, session, j);
    }
    StepsAppend(step, s, |o.children|, c);
  }

  lemma ApplyAppends(s: State, c: Caller, parent: nat, o: Outline, startReady: bool, session: Option<string>)
    requires parent in s.tasks && Apply(s, c, parent, o, startReady, session).Committed?
    ensures Appended(s, Apply(s, c, parent, o, startReady, session).state, c, false)
  {
    var plan, base := s.tasks[parent].plan, NextTask(s);
    MakingAppends(s, c, plan, parent, o);
    var made := MakeChildren(s, c, plan, parent, o).state;
    LinkingAppends(made, c, base, o);
    var linked := LinkChildren(made, c, base, o).state;
    AppendedTrans(s, made, linked, c, false);
    if startReady {
      StartingAppends(s, linked, c, base, o, session);
      AppendedTrans(s, linked, StartChildren(s, linked, c, base, o, session).state, c, false);
    }
  }

  lemma StatusAppends(s: State, c: Caller, a: Action)
    requires StatusAction(a) && PerformStatus(s, c, a).Committed?
    ensures Appended(s, PerformStatus(s, c, a).state, c, false)
  {
    var u := PerformStatus(s, c, a).state;
    if u != s { OneMoreOnTask(s, u, c, false); }
  }

  lemma DefinitionAppends(s: State, c: Caller, a: Action)
    requires Homed(s) && DefinitionAction(a) && PerformDefinition(s, c, a).Committed?
    ensures Appended(s, PerformDefinition(s, c, a).state, c, false)
  {
    match a
    case DoAdd(selector, n, start, session) => AddTaskAppends(s, c, selector, n, start, session);
    case DoEdit(x, edit, why, visit) => EditAppends(s, c, x, edit, why, visit);
    case DoDecompose(x, o, startReady, session) => ApplyAppends(s, c, x, o, startReady, session);
  }

  lemma LinkAppends(s: State, c: Caller, a: Action)
    requires Homed(s) && LinkAction(a) && PerformLink(s, c, a).Committed?
    ensures Appended(s, PerformLink(s, c, a).state, c, false)
  {
    match a
    case DoAddDep(x, on, why) => AddDepAppends(s, c, x, on, why);
    case DoRemoveDep(x, on, why) => OneMoreOnTask(s, RemoveDep(s, c, x, on, why).state, c, false);
    case DoMovePlan(sequences, slug, why) => MovePlanAppends(s, c, sequences, slug, why);
  }

  lemma GateAppends(s: State, c: Caller, a: Action)
    requires GateAction(a) && PerformGate(s, c, a).Committed?
    ensures Appended(s, PerformGate(s, c, a).state, c, false)
  {
    OneMoreOnTask(s, PerformGate(s, c, a).state, c, false);
  }

  lemma PlanSlugsKept(s: State, u: State)
    requires |u.plans| >= |s.plans| && forall i :: 0 <= i < |s.plans| ==> u.plans[i].slug == s.plans[i].slug
    ensures forall slug :: KnownSlug(s, slug) ==> KnownSlug(u, slug)
  {
    forall slug | KnownSlug(s, slug) ensures KnownSlug(u, slug) {
      var i :| 0 <= i < |s.plans| && s.plans[i].slug == slug;
      assert u.plans[i].slug == slug;
    }
  }

  lemma PlanChangeAppends(s: State, c: Caller, a: Action)
    requires PerformPlanChange(a) && PerformPlan(s, c, a).Committed?
    ensures Appended(s, PerformPlan(s, c, a).state, c, false)
  {
    var u := PerformPlan(s, c, a).state;
    PlanSlugsKept(s, u);
    if a.DoAddPlan? {
      assert u.plans[|s.plans|].slug == Trim(a.slug);
    } else {
      assert u.plans[PlanOfSlug(s, a.slug)].slug == a.slug;
    }
    OneMore(s, u, c, u.log[|s.log|], false);
  }

  predicate PerformPlanChange(a: Action) { a.DoAddPlan? || a.DoEditPlan? || a.DoSetPlan? }

  lemma RemarkAppends(s: State, c: Caller, a: Action)
    requires (a.DoReview? || a.DoNote?) && PerformPlan(s, c, a).Committed?
    ensures Appended(s, PerformPlan(s, c, a).state, c, a.DoReview?)
  {
    OneMoreOnTask(s, PerformPlan(s, c, a).state, c, a.DoReview?);
  }

  /** No mutation rewrites history, and none changes anything without recording it under its caller's name. */
  lemma EveryChangeIsLogged(s: State, call: Call)
    requires Homed(s)
    ensures Appended(s, Step(s, call), call.caller, call.action.DoReview?)
  {
    var c, a := call.caller, call.action;
    if Perform(s, call).Committed? {
      if StatusAction(a) { StatusAppends(s, c, a); }
      else if DefinitionAction(a) { DefinitionAppends(s, c, a); }
      else if LinkAction(a) { LinkAppends(s, c, a); }
      else if GateAction(a) { GateAppends(s, c, a); }
      else if PerformPlanChange(a) { PlanChangeAppends(s, c, a); }
      else { RemarkAppends(s, c, a); }
    }
  }

  /** From any sound state and through any run the log only grows, and an unchanged log means an unchanged authority. */
  lemma {:induction false} HeadPinsTheAuthority(s: State, calls: seq<Call>)
    requires Inv(s)
    ensures s.log <= After(s, calls).log
    ensures After(s, calls).log == s.log <==> After(s, calls) == s
    decreases |calls|
  {
    if calls != [] {
      var n := |calls| - 1;
      HeadPinsTheAuthority(s, calls[..n]);
      RunSafe(s, calls[..n]);
      InvHomed(After(s, calls[..n]));
      EveryChangeIsLogged(After(s, calls[..n]), calls[n]);
    }
  }

  /** Every event of every run is well shaped. */
  ghost predicate ShapedLog(s: State) { forall i :: 0 <= i < |s.log| ==> Shaped(s, s.log[i], true) }

  lemma AppendedShapes(s: State, u: State, c: Caller, review: bool)
    requires ShapedLog(s) && Appended(s, u, c, review)
    ensures ShapedLog(u)
  {
    forall i | 0 <= i < |u.log| ensures Shaped(u, u.log[i], true) {
      if i < |s.log| {
        assert u.log[i] == s.log[i];
        ShapedLater(s, u, s.log[i], true);
      } else {
        assert Shaped(u, u.log[i], review);
      }
    }
  }

  lemma {:induction false} RunShapes(calls: seq<Call>)
    ensures ShapedLog(After(EMPTY, calls))
    decreases |calls|
  {
    if calls != [] {
      var n := |calls| - 1;
      var s := After(EMPTY, calls[..n]);
      RunShapes(calls[..n]);
      EmptyInv();
      RunSafe(EMPTY, calls[..n]);
      InvHomed(s);
      EveryChangeIsLogged(s, calls[n]);
      AppendedShapes(s, Step(s, calls[n]), calls[n].caller, calls[n].action.DoReview?);
    }
  }
}
