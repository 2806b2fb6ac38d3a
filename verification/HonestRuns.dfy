/** Runs by well-formed callers leave nothing import would refuse to read, so their exports round-trip. */
module HonestRuns {
  import opened Basics
  import opened Graphs
  import opened Records
  import opened Waiting
  import opened Lifecycle
  import opened LifecycleSafety
  import opened Definition
  import opened DefinitionSafety
  import opened GatesAndPlans
  import opened GatesAndPlansSafety
  import opened Outlines
  import opened OutlineSoundness
  import opened Invariants
  import opened Settlement
  import opened HistoryRuns
  import opened Runs
  import opened Snapshots
  import opened Dumps
  import opened Exports
  import opened ImportRules
  import opened Transfer
  import opened RoundTrip

  /** The clock and the authorship of a call are well formed. */
  predicate HonestCaller(syntax: Syntax, c: Caller) {
    AuthorOk(syntax, c.author) && !Blank(c.at) && syntax.time(c.at) && Trim(c.at) == c.at
  }

  /** And a gate resolution reports the outcome of its syntax checks truthfully. */
  predicate Honest(syntax: Syntax, call: Call) {
    HonestCaller(syntax, call.caller) &&
    (call.action.DoResolveGate? && call.action.wellFormed ==>
       syntax.locator(call.action.evidence) && (call.action.digest.Some? ==> ValidDigest(call.action.digest.value)))
  }

  /** Plan titles, gates and pickups read back. */
  ghost predicate Readable(syntax: Syntax, s: State) {
    && (forall p :: p in s.plans ==> !Blank(p.title))
    && (forall x :: x in s.tasks ==> RowTexts(syntax, s.tasks[x]))
  }

  lemma OneRow(syntax: Syntax, s: State, x: nat, t: Task)
    requires Readable(syntax, s) && RowTexts(syntax, t)
    ensures Readable(syntax, Put(s, x, t))
  {
  }

  /** Rows that keep gates, status and pickup stay readable. */
  lemma SameTexts(syntax: Syntax, s: State, u: State)
    requires Readable(syntax, s) && u.plans == s.plans
    requires forall x :: x in u.tasks ==>
               && x in s.tasks && u.tasks[x].gates == s.tasks[x].gates && u.tasks[x].status == s.tasks[x].status
               && u.tasks[x].pickup == s.tasks[x].pickup
    ensures Readable(syntax, u)
  {
    forall x | x in u.tasks ensures RowTexts(syntax, u.tasks[x]) { assert RowTexts(syntax, s.tasks[x]); }
  }

  // ---- lifecycle ----

  lemma TransitionTexts(syntax: Syntax, s: State, c: Caller, x: nat, to: Status, why: Option<string>,
                        result: Option<string>, replacement: Option<nat>, pickup: Option<Pickup>)
    requires Readable(syntax, s) && x in s.tasks && PickupOk(syntax, to, pickup)
    ensures Readable(syntax, Transition(s, c, x, to, why, result, replacement, pickup))
  {
    var t := s.tasks[x].(status := to, result := result, replacement := replacement, pickup := pickup);
    assert RowTexts(syntax, s.tasks[x]);
    OneRow(syntax, s, x, t);
  }

  lemma StartTexts(syntax: Syntax, s: State, c: Caller, x: nat, why: Option<string>, session: Option<string>)
    requires Readable(syntax, s) && HonestCaller(syntax, c) && Start(s, c, x, why, session).Committed?
    ensures Readable(syntax, Start(s, c, x, why, session).state)
  {
    var pickup := Pickup(session, c.at, c.owner);
    if s.tasks[x].status.InProgress? {
      assert RowTexts(syntax, s.tasks[x]);
      OneRow(syntax, s, x, s.tasks[x].(pickup := Some(pickup)));
    } else {
      TransitionTexts(syntax, s, c, x, InProgress, why, None, None, Some(pickup));
    }
  }

  lemma CompleteTexts(syntax: Syntax, s: State, c: Caller, x: nat, result: Option<string>)
    requires Readable(syntax, s) && Complete(s, c, x, result).Committed?
    ensures Readable(syntax, Complete(s, c, x, result).state)
  {
    TransitionTexts(syntax, s, c, x, Done, Given(result), Given(result), None, None);
  }

  lemma ReopenTexts(syntax: Syntax, s: State, c: Caller, x: nat, why: Option<string>)
    requires Readable(syntax, s) && Reopen(s, c, x, why).Committed?
    ensures Readable(syntax, Reopen(s, c, x, why).state)
  {
    TransitionTexts(syntax, s, c, x, Proposed, Given(why), None, None, None);
  }

  lemma TerminateTexts(syntax: Syntax, s: State, c: Caller, x: nat, to: Status, into: Option<nat>, why: Option<string>)
    requires to.Retired? || (to.Rejected? && into.None?)
    requires Readable(syntax, s) && Terminate(s, c, x, to, into, why).Committed?
    ensures Readable(syntax, Terminate(s, c, x, to, into, why).state)
  {
    TransitionTexts(syntax, s, c, x, to, Given(why), Given(why), into, None);
  }

  lemma StatusTexts(syntax: Syntax, s: State, c: Caller, a: Action)
    requires Readable(syntax, s) && HonestCaller(syntax, c) && StatusAction(a) && PerformStatus(s, c, a).Committed?
    ensures Readable(syntax, PerformStatus(s, c, a).state)
  {
    match a
    case DoStart(x, why, session) => StartTexts(syntax, s, c, x, why, session);
    case DoComplete(x, result) => CompleteTexts(syntax, s, c, x, result);
    case DoReopen(x, why) => ReopenTexts(syntax, s, c, x, why);
    case DoRetire(x, into, why) => TerminateTexts(syntax, s, c, x, Retired, into, why);
    case DoReject(x, why) => TerminateTexts(syntax, s, c, x, Rejected, None, why);
  }

  // ---- definition ----

  lemma CreateRowTexts(syntax: Syntax, s: State, c: Caller, plan: nat, n: Creation)
    requires Readable(syntax, s) && CreateRow(s, c, plan, n).Committed?
    ensures Readable(syntax, CreateRow(s, c, plan, n).state)
  {
    OneRow(syntax, s, NextTask(s), CreateRow(s, c, plan, n).state.tasks[NextTask(s)]);
  }

  lemma {:induction false} AddDepsRows(s: State, c: Caller, x: nat, deps: seq<nat>, why: Option<string>)
    requires AddDeps(s, c, x, deps, why).Committed?
    ensures AddDeps(s, c, x, deps, why).state.tasks == s.tasks && AddDeps(s, c, x, deps, why).state.plans == s.plans
    decreases |deps|
  {
    if deps != [] { AddDepsRows(AddDep(s, c, x, deps[0], why).state, c, x, deps[1..], why); }
  }

  lemma AddTaskTexts(syntax: Syntax, s: State, c: Caller, selector: PlanSelector, n: Creation, start: bool,
                     session: Option<string>)
    requires Readable(syntax, s) && HonestCaller(syntax, c)
    requires AddTask(s, c, selector, n, start, session).Committed?
    ensures Readable(syntax, AddTask(s, c, selector, n, start, session).state)
  {
    var plan := SelectedPlan(s, selector, n.parent);
    var row := CreateRow(s, c, plan, n).state;
    CreateRowTexts(syntax, s, c, plan, n);
    AddDepsRows(row, c, NextTask(s), n.deps, n.why);
    if start { StartTexts(syntax, Create(s, c, plan, n).state, c, NextTask(s), n.why, session); }
  }

  lemma RelocateTexts(syntax: Syntax, s: State, c: Caller, order: seq<nat>, plan: nat, why: Option<string>)
    requires Readable(syntax, s)
    ensures Readable(syntax, Relocate(s, c, order, plan, why))
    ensures Relocate(s, c, order, plan, why).tasks.Keys == s.tasks.Keys
  {
    RelocateIsRehomed(s, c, order, plan, why);
    SameTexts(syntax, s, Rehomed(s, SetOf(order), plan));
  }

  lemma EditTexts(syntax: Syntax, s: State, c: Caller, x: nat, edit: TaskEdit, why: Option<string>, visit: seq<nat>)
    requires Readable(syntax, s) && Edit(s, c, x, edit, why, visit).Committed?
    ensures Readable(syntax, Edit(s, c, x, edit, why, visit).state)
  {
    var row := EditedRow(s, x, edit);
    EditCommits(s, c, x, edit, why, visit);
    var m := s;
    if row.plan != s.tasks[x].plan {
      m := Relocate(s, c, visit, row.plan, Given(why));
      RelocateTexts(syntax, s, c, visit, row.plan, Given(why));
    }
    assert RowTexts(syntax, s.tasks[x]);
    OneRow(syntax, m, x, row);
  }

  lemma StepsTexts(syntax: Syntax, step: (State, nat) -> Outcome, s: State, n: nat)
    requires Readable(syntax, s) && Steps(step, s, 0, n).Committed?
    requires forall u, j: nat :: step(u, j).Committed? && Readable(syntax, u) ==> Readable(syntax, step(u, j).state)
    ensures Readable(syntax, Steps(step, s, 0, n).state)
  {
    var keeps := (u: State) => Readable(syntax, u);
    forall u, j: nat | keeps(u) && step(u, j).Committed? ensures keeps(step(u, j).state) { }
    StepsKeep(step, keeps, s, 0, n);
  }

  lemma MakingTexts(syntax: Syntax, s: State, c: Caller, plan: nat, parent: nat, o: Outline)
    requires Readable(syntax, s) && MakeChildren(s, c, plan, parent, o).Committed?
    ensures Readable(syntax, MakeChildren(s, c, plan, parent, o).state)
  {
    var step: (State, nat) -> Outcome := (u: State, i: nat) => MakeChild(u, c, plan, parent, o, i);
    forall u, j: nat | step(u, j).Committed? && Readable(syntax, u) ensures Readable(syntax, step(u, j).state) {
      if j < |o.children| { CreateRowTexts(syntax, u, c, plan, ChildOf(o, j, parent)); }
    }
    StepsTexts(syntax, step, s, |o.children|);
  }

  lemma LinkingTexts(syntax: Syntax, s: State, c: Caller, base: nat, o: Outline)
    requires Readable(syntax, s) && LinkChildren(s, c, base, o).Committed?
    ensures Readable(syntax, LinkChildren(s, c, base, o).state)
  {
    var step: (State, nat) -> Outcome := (u: State, i: nat) => LinkChild(u, c, base, o, i);
    forall u, j: nat | step(u, j).Committed? && Readable(syntax, u) ensures Readable(syntax, step(u, j).state) {
      if j < |o.children| { AddDepsRows(u, c, base + j, Targets(o, base, o.children[j].deps), WhyFor(o, j)); }
    }
    StepsTexts(syntax, step, s, |o.children|);
  }

  lemma StartChildTexts(syntax: Syntax, before: State, u: State, c: Caller, base: nat, o: Outline, session: Option<string>,
                        j: nat)
    requires Readable(syntax, u) && HonestCaller(syntax, c) && StartChild(before, u, c, base, o, session, j).Committed?
    ensures Readable(syntax, StartChild(before, u, c, base, o, session, j).state)
  {
    if j < |o.children| && Ready(before, o, j) { StartTexts(syntax, u, c, base + j, WhyFor(o, j), session); }
  }

  lemma StartingTexts(syntax: Syntax, before: State, s: State, c: Caller, base: nat, o: Outline, session: Option<string>)
    requires Readable(syntax, s) && HonestCaller(syntax, c) && StartChildren(before, s, c, base, o, session).Committed?
    ensures Readable(syntax, StartChildren(before, s, c, base, o, session).state)
  {
    var step: (State, nat) -> Outcome := (u: State, i: nat) => StartChild(before, u, c, base, o, session, i);
    forall u, j: nat | step(u, j).Committed? && Readable(syntax, u) ensures Readable(syntax, step(u, j).state) {
      StartChildTexts(syntax, before, u, c, base, o, session, j);
    }
    StepsTexts(syntax, step, s, |o.children|);
  }

  lemma ApplyTexts(syntax: Syntax, s: State, c: Caller, parent: nat, o: Outline, startReady: bool, session: Option<string>)
    requires Readable(syntax, s) && HonestCaller(syntax, c)
    requires parent in s.tasks && Apply(s, c, parent, o, startReady, session).Committed?
    ensures Readable(syntax, Apply(s, c, parent, o, startReady, session).state)
  {
    var plan, base := s.tasks[parent].plan, NextTask(s);
    MakingTexts(syntax, s, c, plan, parent, o);
    var made := MakeChildren(s, c, plan, parent, o).state;
    LinkingTexts(syntax, made, c, base, o);
    var linked := LinkChildren(made, c, base, o).state;
    if startReady { StartingTexts(syntax, s, linked, c, base, o, session); }
  }

  lemma AddDepTexts(syntax: Syntax, s: State, c: Caller, x: nat, on: nat, why: Option<string>)
    requires Readable(syntax, s) && AddDep(s, c, x, on, why).Committed?
    ensures Readable(syntax, AddDep(s, c, x, on, why).state)
  {
    SameTexts(syntax, s, AddDep(s, c, x, on, why).state);
  }

  lemma RemoveDepTexts(syntax: Syntax, s: State, c: Caller, x: nat, on: nat, why: Option<string>)
    requires Readable(syntax, s) && RemoveDep(s, c, x, on, why).Committed?
    ensures Readable(syntax, RemoveDep(s, c, x, on, why).state)
  {
    SameTexts(syntax, s, RemoveDep(s, c, x, on, why).state);
  }

  lemma MovePlanTexts(syntax: Syntax, s: State, c: Caller, sequences: seq<nat>, slug: string, why: Option<string>)
    requires Readable(syntax, s) && MovePlan(s, c, sequences, slug, why).Committed?
    ensures Readable(syntax, MovePlan(s, c, sequences, slug, why).state)
  {
    RelocateTexts(syntax, s, c, Sorted(sequences), PlanOfSlug(s, slug), Given(why));
  }

  lemma DefinitionTexts(syntax: Syntax, s: State, c: Caller, a: Action)
    requires Readable(syntax, s) && HonestCaller(syntax, c)
    requires DefinitionAction(a) && PerformDefinition(s, c, a).Committed?
    ensures Readable(syntax, PerformDefinition(s, c, a).state)
  {
    match a
    case DoAdd(selector, n, start, session) => AddTaskTexts(syntax, s, c, selector, n, start, session);
    case DoEdit(x, edit, why, visit) => EditTexts(syntax, s, c, x, edit, why, visit);
    case DoDecompose(x, o, startReady, session) => ApplyTexts(syntax, s, c, x, o, startReady, session);
  }

  lemma LinkTexts(syntax: Syntax, s: State, c: Caller, a: Action)
    requires Readable(syntax, s) && LinkAction(a) && PerformLink(s, c, a).Committed?
    ensures Readable(syntax, PerformLink(s, c, a).state)
  {
    match a
    case DoAddDep(x, on, why) => AddDepTexts(syntax, s, c, x, on, why);
    case DoRemoveDep(x, on, why) => RemoveDepTexts(syntax, s, c, x, on, why);
    case DoMovePlan(sequences, slug, why) => MovePlanTexts(syntax, s, c, sequences, slug, why);
  }

  // ---- gates ----

  /** A gate list in which at most one gate is new. */
  lemma GatesTexts(syntax: Syntax, s: State, x: nat, gates: seq<Gate>, made: Gate)
    requires Readable(syntax, s) && x in s.tasks && GateStands(syntax, made)
    requires forall g :: g in gates ==> g == made || g in s.tasks[x].gates
    ensures Readable(syntax, WithGates(s, x, gates))
  {
    assert RowTexts(syntax, s.tasks[x]);
    OneRow(syntax, s, x, s.tasks[x].(gates := gates));
  }

  lemma {:induction false} ReplacedFrom(gates: seq<Gate>, name: string, g: Gate)
    ensures forall h :: h in Replaced(gates, name, g) ==> h == g || h in gates
    decreases |gates|
  {
    if gates != [] { ReplacedFrom(gates[1..], name, g); }
  }

  lemma {:induction false} RemovedFrom(gates: seq<Gate>, name: string)
    ensures forall h :: h in Removed(gates, name) ==> h in gates
    decreases |gates|
  {
    if gates != [] { RemovedFrom(gates[1..], name); }
  }

  lemma AddGateTexts(syntax: Syntax, s: State, c: Caller, x: nat, name: string, kind: GateKind, requirement: string)
    requires Readable(syntax, s) && AddGate(s, c, x, name, kind, requirement).Committed?
    ensures Readable(syntax, AddGate(s, c, x, name, kind, requirement).state)
  {
    TrimTwice(name);
    TrimTwice(requirement);
    var gate := Gate(Trim(name), kind, Trim(requirement), Open, None, None, None, None);
    GatesTexts(syntax, s, x, s.tasks[x].gates + [gate], gate);
  }

  lemma SettleGateTexts(syntax: Syntax, s: State, c: Caller, x: nat, name: string, to: GateStatus, evidence: Option<string>,
                        digest: Option<string>, note: Option<string>, why: Option<string>, wellFormed: bool)
    requires Readable(syntax, s) && HonestCaller(syntax, c)
    requires SettleGate(s, c, x, name, to, evidence, digest, note, why, wellFormed).Committed?
    requires to.Resolved? ==> evidence.Some? && syntax.locator(evidence.value) && (digest.Some? ==> ValidDigest(digest.value))
    requires to.Waived? ==> evidence.None? && digest.None? && why.Some? && !Blank(why.value)
    requires !to.Open?
    ensures Readable(syntax, SettleGate(s, c, x, name, to, evidence, digest, note, why, wellFormed).state)
  {
    var was := FindGate(s.tasks[x].gates, name).value;
    var gate := was.(status := to, evidence := evidence, digest := digest,
                     note := if to.Waived? then why else note, resolvedAt := Some(c.at));
    assert RowTexts(syntax, s.tasks[x]) && GateStands(syntax, was);
    ReplacedFrom(s.tasks[x].gates, name, gate);
    GatesTexts(syntax, s, x, Replaced(s.tasks[x].gates, name, gate), gate);
  }

  lemma ReopenGateTexts(syntax: Syntax, s: State, c: Caller, x: nat, name: string, why: Option<string>)
    requires Readable(syntax, s) && ReopenGate(s, c, x, name, why).Committed?
    ensures Readable(syntax, ReopenGate(s, c, x, name, why).state)
  {
    var was := FindGate(s.tasks[x].gates, name).value;
    var open := was.(status := Open, evidence := None, digest := None, note := None, resolvedAt := None);
    assert RowTexts(syntax, s.tasks[x]) && GateStands(syntax, was);
    ReplacedFrom(s.tasks[x].gates, name, open);
    GatesTexts(syntax, s, x, Replaced(s.tasks[x].gates, name, open), open);
  }

  lemma RemoveGateTexts(syntax: Syntax, s: State, c: Caller, x: nat, name: string, why: string)
    requires Readable(syntax, s) && RemoveGate(s, c, x, name, why).Committed?
    ensures Readable(syntax, RemoveGate(s, c, x, name, why).state)
  {
    var was := FindGate(s.tasks[x].gates, name).value;
    assert RowTexts(syntax, s.tasks[x]) && GateStands(syntax, was);
    RemovedFrom(s.tasks[x].gates, name);
    GatesTexts(syntax, s, x, Removed(s.tasks[x].gates, name), was);
  }

  lemma GateTexts(syntax: Syntax, s: State, c: Caller, a: Action)
    requires Readable(syntax, s) && Honest(syntax, Call(c, a)) && GateAction(a) && PerformGate(s, c, a).Committed?
    ensures Readable(syntax, PerformGate(s, c, a).state)
  {
    match a
    case DoAddGate(x, name, kind, requirement) => AddGateTexts(syntax, s, c, x, name, kind, requirement);
    case DoResolveGate(x, name, evidence, digest, note, ok) =>
      SettleGateTexts(syntax, s, c, x, name, Resolved, Some(evidence), digest, note, None, ok);
    case DoWaiveGate(x, name, reason) =>
      SettleGateTexts(syntax, s, c, x, name, Waived, None, None, None, Some(reason), true);
    case DoRemoveGate(x, name, reason) => RemoveGateTexts(syntax, s, c, x, name, reason);
    case DoReopenGate(x, name, why) => ReopenGateTexts(syntax, s, c, x, name, why);
  }

  // ---- plans ----

  lemma PlanTexts(syntax: Syntax, s: State, c: Caller, a: Action)
    requires Readable(syntax, s) && PlanAction(a) && PerformPlan(s, c, a).Committed?
    ensures Readable(syntax, PerformPlan(s, c, a).state)
  {
    var u := PerformPlan(s, c, a).state;
    assert u.tasks == s.tasks;
    if a.DoAddPlan? {
      TrimTwice(a.planTitle);
    } else if a.DoEditPlan? && a.newTitle.Some? {
      TrimTwice(a.newTitle.value);
    }
    if a.DoEditPlan? || a.DoSetPlan? {
      assert s.plans[PlanOfSlug(s, a.slug)] in s.plans;
    }
  }

  // ---- every run ----

  lemma EventsReadable(syntax: Syntax, s: State, u: State, c: Caller, review: bool)
    requires HonestCaller(syntax, c) && Appended(s, u, c, review)
    requires forall e :: e in s.log ==> EventTexts(syntax, e)
    ensures forall e :: e in u.log ==> EventTexts(syntax, e)
  {
    forall e | e in u.log ensures EventTexts(syntax, e) {
      var i :| 0 <= i < |u.log| && u.log[i] == e;
      if i < |s.log| { assert s.log[i] == e; } else { assert By(u.log[i], c); }
    }
  }

  lemma StepReadable(syntax: Syntax, s: State, call: Call)
    requires Readable(syntax, s) && Honest(syntax, call)
    ensures Readable(syntax, Step(s, call))
  {
    var c, a := call.caller, call.action;
    if Perform(s, call).Committed? {
      if StatusAction(a) { StatusTexts(syntax, s, c, a); }
      else if DefinitionAction(a) { DefinitionTexts(syntax, s, c, a); }
      else if LinkAction(a) { LinkTexts(syntax, s, c, a); }
      else if GateAction(a) { GateTexts(syntax, s, c, a); }
      else { PlanTexts(syntax, s, c, a); }
    }
  }

  lemma StepTexts(syntax: Syntax, s: State, call: Call)
    requires TextsOk(syntax, s) && Homed(s) && Honest(syntax, call)
    ensures TextsOk(syntax, Step(s, call))
  {
    StepReadable(syntax, s, call);
    EveryChangeIsLogged(s, call);
    EventsReadable(syntax, s, Step(s, call), call.caller, call.action.DoReview?);
  }

  /** Every run of honest calls reaches an authority whose exports import can read. */
  lemma {:induction false} RunSound(syntax: Syntax, calls: seq<Call>)
    requires forall i :: 0 <= i < |calls| ==> Honest(syntax, calls[i])
    ensures Sound(syntax, After(EMPTY, calls))
    decreases |calls|
  {
    RunHistory(calls);
    RunShapes(calls);
    if calls != [] {
      var n := |calls| - 1;
      RunSound(syntax, calls[..n]);
      InvHomed(After(EMPTY, calls[..n]));
      StepTexts(syntax, After(EMPTY, calls[..n]), calls[n]);
    }
  }

  /** Whatever an honest run builds, its whole export is accepted by an empty authority exactly when every done task's
      prerequisites are settled, and then restores the same authority with one import event behind its log. */
  lemma RunsRoundTrip(syntax: Syntax, calls: seq<Call>, c: Caller, d: Dump)
    requires forall i :: 0 <= i < |calls| ==> Honest(syntax, calls[i])
    requires IsExport(After(EMPTY, calls), None, d)
    ensures var s := After(EMPTY, calls);
            && !CannotExport(s, None)
            && ImportOutcome(syntax, EMPTY, c, d) ==
               if AllSettled(s) then Committed(s.(log := s.log + [ImportEvent(c, d)])) else Refused(InvalidDump)
  {
    RunSound(syntax, calls);
    ExportRefusesExactly(syntax, After(EMPTY, calls), None);
    FullRoundTrip(syntax, After(EMPTY, calls), c, d);
  }

  /** The plan history check accepts the log of every run, whole or cut to one plan, honest or not. */
  lemma RunsAccountForPlans(calls: seq<Call>, plan: Option<string>, d: Dump)
    requires IsExport(After(EMPTY, calls), plan, d)
    ensures PlanHistoryOk(d)
  {
    RunHistory(calls);
    RunShapes(calls);
    DumpHistoryAccounted(After(EMPTY, calls), plan, d);
  }

  /** Exporting the restored authority again gives the same dump with the import event behind its events. */
  lemma RunsReexport(syntax: Syntax, calls: seq<Call>, c: Caller, d: Dump, again: Dump)
    requires forall i :: 0 <= i < |calls| ==> Honest(syntax, calls[i])
    requires IsExport(After(EMPTY, calls), None, d) && ImportOutcome(syntax, EMPTY, c, d).Committed?
    requires IsExport(ImportOutcome(syntax, EMPTY, c, d).state, None, again)
    ensures again == d.(events := d.events + [ImportEvent(c, d)])
  {
    RunsRoundTrip(syntax, calls, c, d);
    RunSound(syntax, calls);
    ReexportAddsOneEvent(syntax, After(EMPTY, calls), c, d, again);
  }

  /** One plan of what an honest run builds exports exactly when no task of it depends on another plan, and then an
      empty authority accepts it exactly when its own done tasks' prerequisites are settled. */
  lemma RunsExportOnePlan(syntax: Syntax, calls: seq<Call>, slug: string, d: Dump)
    requires forall i :: 0 <= i < |calls| ==> Honest(syntax, calls[i])
    ensures var s := After(EMPTY, calls);
            && (CannotExport(s, Some(slug)) <==> exists x :: Chosen(s, Some(slug), x) && Crosses(s, x))
            && (!CannotExport(s, Some(slug)) && IsExport(s, Some(slug), d) ==>
                  (Accepts(syntax, EMPTY, d) <==> SelectionSettled(s, Some(slug))))
  {
    var s := After(EMPTY, calls);
    RunSound(syntax, calls);
    ExportRefusesExactly(syntax, s, Some(slug));
    if !CannotExport(s, Some(slug)) && IsExport(s, Some(slug), d) { ImportAcceptsExactly(syntax, s, Some(slug), d); }
  }
}
