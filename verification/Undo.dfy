/** What one mutation undoes of another, and exactly when it may. */
module Undo {
  import opened Basics
  import opened Graphs
  import opened Records
  import opened Waiting
  import opened Lifecycle
  import opened LifecycleSafety
  import opened Definition
  import opened DefinitionSafety
  import opened GatesAndPlans
  import opened GatesAndPlansSafety
  import opened Invariants

  /** Same plans, tasks and dependencies; only history differs. */
  predicate SameTables(s: State, u: State) { s.plans == u.plans && s.tasks == u.tasks && s.deps == u.deps }

  // ---- status ----

  /** Any reopened task stands as a proposed one without result, pickup or replacement; nothing else changes. */
  lemma ReopenedTables(s: State, u: State, c: Caller, x: nat, why: Option<string>, t: Task)
    requires Reopen(u, c, x, why).Committed?
    requires x in s.tasks && u.plans == s.plans && u.deps == s.deps
    requires u.tasks == s.tasks[x := t.(parent := s.tasks[x].parent)] && x in u.tasks
    requires t == s.tasks[x].(status := t.status, result := t.result, replacement := t.replacement, pickup := t.pickup)
    ensures SameTables(Reopen(u, c, x, why).state,
                       Put(s, x, s.tasks[x].(status := Proposed, result := None, replacement := None, pickup := None)))
  {
  }

  /** Starting a proposed task can always be taken back, which leaves it as it was but for a result it should not carry. */
  lemma StartThenReopen(s: State, c: Caller, x: nat, why: Option<string>, session: Option<string>, back: Option<string>)
    requires Inv(s) && Start(s, c, x, why, session).Committed? && s.tasks[x].status.Proposed?
    ensures var u := Start(s, c, x, why, session).state;
            && Reopen(u, c, x, back).Committed?
            && SameTables(Reopen(u, c, x, back).state, Put(s, x, s.tasks[x].(result := None)))
  {
    assert RowOk(s, s.tasks[x]);
    var u := Start(s, c, x, why, session).state;
    ReopenedTables(s, u, c, x, back, u.tasks[x]);
  }

  /** Closing a child never makes it wait for its parent. */
  lemma ParentStillWaits(s: State, u: State, x: nat, p: nat)
    requires Acyclic(Waits(s)) && x in s.tasks && Live(s.tasks[x].status) && s.tasks[x].parent == Some(p)
    requires u.deps == s.deps && u.tasks.Keys == s.tasks.Keys && Closed(u.tasks[x].status)
    requires forall y :: y in s.tasks && y != x ==> u.tasks[y] == s.tasks[y]
    ensures !Reach(Waits(u), x, p)
  {
    assert (p, x) in Waits(s);
    forall e | e in ChildWaits(u) ensures e in ChildWaits(s) { }
    if Reach(Waits(u), x, p) {
      ReachMono(Waits(u), Waits(s), x, p);
      EdgeOnReachIsCycle(Waits(s), p, x);
    }
  }

  lemma ClosedHasNoDoneDependent(s: State, u: State, x: nat)
    requires Inv(s) && x in s.tasks && Live(s.tasks[x].status) && u.deps == s.deps && u.tasks.Keys == s.tasks.Keys
    requires forall y :: y in s.tasks && y != x ==> u.tasks[y] == s.tasks[y]
    ensures NoDoneDependent(u, x)
  {
    NoSelfLoops(s, x);
    LiveHasNoDoneDependent(s, x);
    forall d | d in u.tasks ensures !DoneDependent(u, x, d) {
      if d == x { assert (x, x) !in s.deps; } else { assert !DoneDependent(s, x, d); }
    }
  }

  lemma ReopenWhen(u: State, c: Caller, x: nat, back: Option<string>)
    requires x in u.tasks && Closed(u.tasks[x].status) && NoDoneDependent(u, x)
    requires var p := u.tasks[x].parent;
             p.Some? ==> p.value in u.tasks && Live(u.tasks[p.value].status) && !Reach(Waits(u), x, p.value)
    ensures Reopen(u, c, x, back).Committed? <==> !Over(PlanStatusOf(u, x))
  {
  }

  /** A live task just closed may be reopened exactly when its plan is not retired. */
  lemma ClosedMayReopen(s: State, u: State, c: Caller, x: nat, back: Option<string>)
    requires Inv(s) && x in s.tasks && Live(s.tasks[x].status)
    requires u.plans == s.plans && u.deps == s.deps && u.tasks.Keys == s.tasks.Keys
    requires Closed(u.tasks[x].status) && u.tasks[x].parent == s.tasks[x].parent && u.tasks[x].plan == s.tasks[x].plan
    requires forall y :: y in s.tasks && y != x ==> u.tasks[y] == s.tasks[y]
    ensures Reopen(u, c, x, back).Committed? <==> !PlanStatusOf(s, x).PlanRetired?
  {
    var t := s.tasks[x];
    assert RowOk(s, t) && ParentOk(s, t);
    NoSelfLoops(s, x);
    ClosedHasNoDoneDependent(s, u, x);
    if t.parent.Some? { ParentStillWaits(s, u, x, t.parent.value); }
    ReopenWhen(u, c, x, back);
  }

  /** Completing can be taken back exactly when the plan is not retired; the task then stands proposed, without result. */
  lemma CompleteThenReopen(s: State, c: Caller, x: nat, result: Option<string>, back: Option<string>)
    requires Inv(s) && Complete(s, c, x, result).Committed?
    ensures var u := Complete(s, c, x, result).state;
            && (Reopen(u, c, x, back).Committed? <==> !PlanStatusOf(s, x).PlanRetired?)
            && (Reopen(u, c, x, back).Committed? ==>
                  SameTables(Reopen(u, c, x, back).state,
                             Put(s, x, s.tasks[x].(status := Proposed, result := None, pickup := None))))
  {
    var u := Complete(s, c, x, result).state;
    assert RowOk(s, s.tasks[x]);
    ClosedMayReopen(s, u, c, x, back);
    if Reopen(u, c, x, back).Committed? { ReopenedTables(s, u, c, x, back, u.tasks[x]); }
  }

  lemma TerminatedRow(s: State, c: Caller, x: nat, to: Status, into: Option<nat>, why: Option<string>) returns (u: State)
    requires (to.Retired? || (to.Rejected? && into.None?)) && Terminate(s, c, x, to, into, why).Committed?
    ensures Terminate(s, c, x, to, into, why) == Committed(u) && x in s.tasks && Live(s.tasks[x].status)
    ensures u.plans == s.plans && u.deps == s.deps && x in u.tasks && u.tasks == s.tasks[x := u.tasks[x]]
    ensures var t := u.tasks[x];
            && Closed(t.status)
            && t == s.tasks[x].(status := t.status, result := t.result, replacement := t.replacement, pickup := t.pickup)
  {
    u := Terminate(s, c, x, to, into, why).state;
  }

  /** So can retiring, into a replacement or not, and rejecting. */
  lemma TerminateThenReopen(s: State, c: Caller, x: nat, to: Status, into: Option<nat>, why: Option<string>,
                            back: Option<string>)
    requires Inv(s) && (to.Retired? || (to.Rejected? && into.None?)) && Terminate(s, c, x, to, into, why).Committed?
    ensures var u := Terminate(s, c, x, to, into, why).state;
            && (Reopen(u, c, x, back).Committed? <==> !PlanStatusOf(s, x).PlanRetired?)
            && (Reopen(u, c, x, back).Committed? ==>
                  SameTables(Reopen(u, c, x, back).state,
                             Put(s, x, s.tasks[x].(status := Proposed, result := None, pickup := None))))
  {
    var u := TerminatedRow(s, c, x, to, into, why);
    assert RowOk(s, s.tasks[x]);
    ClosedMayReopen(s, u, c, x, back);
    if Reopen(u, c, x, back).Committed? { ReopenedTables(s, u, c, x, back, u.tasks[x]); }
  }

  // ---- dependencies ----

  /** An added dependency can always be removed again, without a trace in the tables. */
  lemma AddThenRemoveDep(s: State, c: Caller, x: nat, on: nat, why: Option<string>)
    requires AddDep(s, c, x, on, why).Committed?
    ensures var u := AddDep(s, c, x, on, why).state;
            RemoveDep(u, c, x, on, None).Committed? && SameTables(s, RemoveDep(u, c, x, on, None).state)
  {
    assert s.deps + {(x, on)} - {(x, on)} == s.deps;
  }

  /** A removed dependency can be restored exactly when the dependent is live and the prerequisite was not retired or
      rejected: putting a stored edge back never closes a cycle. */
  lemma RemoveThenAddDep(s: State, c: Caller, x: nat, on: nat, why: Option<string>)
    requires Inv(s) && RemoveDep(s, c, x, on, None).Committed?
    ensures var u := RemoveDep(s, c, x, on, None).state;
            && (AddDep(u, c, x, on, why).Committed? <==>
                Live(s.tasks[x].status) && !s.tasks[on].status.Retired? && !s.tasks[on].status.Rejected?)
            && (AddDep(u, c, x, on, why).Committed? ==> SameTables(s, AddDep(u, c, x, on, why).state))
  {
    var u := RemoveDep(s, c, x, on, None).state;
    NoSelfLoops(s, x);
    assert u.deps + {(x, on)} == s.deps && (x, on) in Waits(s);
    assert ChildWaits(u) == ChildWaits(s);
    if Reach(Waits(u), on, x) {
      ReachMono(Waits(u), Waits(s), on, x);
      EdgeOnReachIsCycle(Waits(s), x, on);
    }
    if Reach(u.deps, on, x) { ReachMono(u.deps, Waits(u), on, x); }
  }

  // ---- gates ----

  lemma {:induction false} RemovedAppended(gates: seq<Gate>, gate: Gate)
    requires FindGate(gates, gate.name).None?
    ensures Removed(gates + [gate], gate.name) == gates
    ensures FindGate(gates + [gate], gate.name) == Some(gate)
    decreases |gates|
  {
    if gates == [] {
      assert gates + [gate] == [gate];
      assert [gate][1..] == [];
    } else {
      assert (gates + [gate])[1..] == gates[1..] + [gate] && gates[0] in gates;
      RemovedAppended(gates[1..], gate);
    }
  }

  /** A gate added and removed again leaves no trace in the tables. */
  lemma AddThenRemoveGate(s: State, c: Caller, x: nat, name: string, kind: GateKind, requirement: string, why: string)
    requires AddGate(s, c, x, name, kind, requirement).Committed? && !Blank(why)
    ensures var u := AddGate(s, c, x, name, kind, requirement).state;
            && RemoveGate(u, c, x, Trim(name), why).Committed?
            && SameTables(s, RemoveGate(u, c, x, Trim(name), why).state)
  {
    var gate := Gate(Trim(name), kind, Trim(requirement), Open, None, None, None, None);
    RemovedAppended(s.tasks[x].gates, gate);
    var u := AddGate(s, c, x, name, kind, requirement).state;
    assert u.tasks[x].gates == s.tasks[x].gates + [gate];
    assert Put(u, x, s.tasks[x]).tasks == s.tasks;
  }

  // ---- plans ----

  lemma RehomedBack(s: State, moved: set<nat>, from: nat, to: nat)
    requires forall x :: x in moved ==> x in s.tasks && s.tasks[x].plan == from
    ensures Rehomed(Rehomed(s, moved, to), moved, from).tasks == s.tasks
  {
  }

  /** When a selection of another plan's tasks may move into a plan. */
  lemma MoveCommits(u: State, c: Caller, sequences: seq<nat>, slug: string, why: Option<string>, plan: nat)
    requires sequences != [] && Distinct(sequences) && PlanOfSlug(u, slug) == plan < |u.plans|
    requires forall x :: x in sequences ==> x in u.tasks && u.tasks[x].plan != plan
    requires LinkClosed(u, SetOf(sequences))
    ensures MovePlan(u, c, sequences, slug, why) ==
            if u.plans[plan].status.PlanActive? then Committed(Relocate(u, c, Sorted(sequences), plan, Given(why)))
            else Refused(PlanNotActive)
  {
  }

  /** Tasks moved out of one plan can be moved back exactly when that plan is active, and then nothing has changed. */
  lemma MoveThereAndBack(s: State, c: Caller, sequences: seq<nat>, slug: string, why: Option<string>, home: nat)
    requires PlansOk(s) && MovePlan(s, c, sequences, slug, why).Committed? && home < |s.plans|
    requires forall x :: x in sequences ==> x in s.tasks && s.tasks[x].plan == home
    ensures var u := MovePlan(s, c, sequences, slug, why).state;
            var back := MovePlan(u, c, sequences, s.plans[home].slug, why);
            && (back.Committed? <==> s.plans[home].status.PlanActive?)
            && (back.Committed? ==> SameTables(s, back.state))
  {
    var u, selected := MovePlan(s, c, sequences, slug, why).state, SetOf(sequences);
    var there := PlanOfSlug(s, slug);
    MovePlanAdmits(s, c, sequences, slug, why);
    MovedTogether(s, u, c, sequences, there, why);
    HomeSlug(s, u, home);
    assert sequences[0] in sequences;
    MoveCommits(u, c, sequences, s.plans[home].slug, why, home);
    RelocateIsRehomed(u, c, Sorted(sequences), home, Given(why));
    SortedSameSet(sequences);
    RehomedBack(s, selected, home, there);
  }

  lemma MovedTogether(s: State, u: State, c: Caller, sequences: seq<nat>, there: nat, why: Option<string>)
    requires u == Relocate(s, c, Sorted(sequences), there, Given(why)) && LinkClosed(s, SetOf(sequences))
    ensures u.tasks == Rehomed(s, SetOf(sequences), there).tasks && u.plans == s.plans && u.deps == s.deps
    ensures LinkClosed(u, SetOf(sequences))
  {
    SortedSameSet(sequences);
    RelocateIsRehomed(s, c, Sorted(sequences), there, Given(why));
    StillLinkClosed(s, u, SetOf(sequences), there);
  }

  lemma HomeSlug(s: State, u: State, home: nat)
    requires PlansOk(s) && u.plans == s.plans && home < |s.plans|
    ensures PlanOfSlug(u, s.plans[home].slug) == home
  {
    assert PlanOfSlug(u, s.plans[home].slug) <= |s.plans|;
  }

  lemma StillLinkClosed(s: State, u: State, selected: set<nat>, plan: nat)
    requires LinkClosed(s, selected) && u.tasks == Rehomed(s, selected, plan).tasks
    ensures LinkClosed(u, selected)
  {
    assert PlanBound(u) == PlanBound(s);
  }
}
