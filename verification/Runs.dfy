/** Runs of the planner: every mutation as one call, and what every run from an empty authority keeps. */
module Runs {
  import opened Basics
  import opened Graphs
  import opened Records
  import opened Review
  import opened Waiting
  import opened Lifecycle
  import opened Definition
  import opened GatesAndPlans
  import opened Outlines
  import opened Invariants
  import opened LifecycleSafety
  import opened DefinitionSafety
  import opened GatesAndPlansSafety
  import opened OutlineSoundness

  /** One mutation. `visit` is the order in which a cross-plan reparent met the subtree. */
  datatype Action =
    | DoAddPlan(slug: string, planTitle: string, planIntent: string)
    | DoEditPlan(slug: string, newTitle: Option<string>, newIntent: Option<string>, why: Option<string>)
    | DoSetPlan(slug: string, planStatus: PlanStatus, why: Option<string>)
    | DoAdd(selector: PlanSelector, creation: Creation, start: bool, session: Option<string>)
    | DoEdit(x: nat, edit: TaskEdit, why: Option<string>, visit: seq<nat>)
    | DoAddDep(x: nat, on: nat, why: Option<string>)
    | DoRemoveDep(x: nat, on: nat, why: Option<string>)
    | DoStart(x: nat, why: Option<string>, session: Option<string>)
    | DoComplete(x: nat, result: Option<string>)
    | DoReopen(x: nat, why: Option<string>)
    | DoRetire(x: nat, into: Option<nat>, why: Option<string>)
    | DoReject(x: nat, why: Option<string>)
    | DoAddGate(x: nat, name: string, kind: GateKind, requirement: string)
    | DoResolveGate(x: nat, name: string, evidence: string, digest: Option<string>, note: Option<string>, wellFormed: bool)
    | DoWaiveGate(x: nat, name: string, reason: string)
    | DoRemoveGate(x: nat, name: string, reason: string)
    | DoReopenGate(x: nat, name: string, why: Option<string>)
    | DoMovePlan(sequences: seq<nat>, slug: string, why: Option<string>)
    | DoDecompose(x: nat, outline: Outline, startReady: bool, session: Option<string>)
    | DoReview(x: nat, target: ReviewTarget, verdict: Verdict, reason: string)
    | DoNote(about: Option<nat>, text: string)

  datatype Call = Call(caller: Caller, action: Action)

  /** `optional_reason`: a reason that is given must be nonblank. */
  ghost function AddDepWithReason(s: State, c: Caller, x: nat, on: nat, why: Option<string>): Outcome {
    if why.Some? && Blank(why.value) then Refused(BlankText) else AddDep(s, c, x, on, why)
  }

  predicate StatusAction(a: Action) { a.DoStart? || a.DoComplete? || a.DoReopen? || a.DoRetire? || a.DoReject? }

  predicate DefinitionAction(a: Action) { a.DoAdd? || a.DoEdit? || a.DoDecompose? }

  predicate LinkAction(a: Action) { a.DoAddDep? || a.DoRemoveDep? || a.DoMovePlan? }

  predicate GateAction(a: Action) {
    a.DoAddGate? || a.DoResolveGate? || a.DoWaiveGate? || a.DoRemoveGate? || a.DoReopenGate?
  }

  predicate PlanAction(a: Action) { a.DoAddPlan? || a.DoEditPlan? || a.DoSetPlan? || a.DoReview? || a.DoNote? }

  ghost function PerformStatus(s: State, c: Caller, a: Action): Outcome
    requires StatusAction(a)
  {
    match a
    case DoStart(x, why, session) => Start(s, c, x, why, session)
    case DoComplete(x, result) => Complete(s, c, x, result)
    case DoReopen(x, why) => Reopen(s, c, x, why)
    case DoRetire(x, into, why) => Retire(s, c, x, into, why)
    case DoReject(x, why) => Reject(s, c, x, why)
  }

  ghost function PerformDefinition(s: State, c: Caller, a: Action): Outcome
    requires DefinitionAction(a)
  {
    match a
    case DoAdd(selector, n, start, session) => AddTask(s, c, selector, n, start, session)
    case DoEdit(x, edit, why, visit) => Edit(s, c, x, edit, why, visit)
    case DoDecompose(x, outline, startReady, session) => Decompose(s, c, x, outline, startReady, session)
  }

  ghost function PerformLink(s: State, c: Caller, a: Action): Outcome
    requires LinkAction(a)
  {
    match a
    case DoAddDep(x, on, why) => AddDepWithReason(s, c, x, on, why)
    case DoRemoveDep(x, on, why) => RemoveDep(s, c, x, on, why)
    case DoMovePlan(sequences, slug, why) => MovePlan(s, c, sequences, slug, why)
  }

  ghost function PerformGate(s: State, c: Caller, a: Action): Outcome
    requires GateAction(a)
  {
    match a
    case DoAddGate(x, name, kind, requirement) => AddGate(s, c, x, name, kind, requirement)
    case DoResolveGate(x, name, evidence, digest, note, ok) => ResolveGate(s, c, x, name, evidence, digest, note, ok)
    case DoWaiveGate(x, name, reason) => WaiveGate(s, c, x, name, reason)
    case DoRemoveGate(x, name, reason) => RemoveGate(s, c, x, name, reason)
    case DoReopenGate(x, name, why) => ReopenGate(s, c, x, name, why)
  }

  ghost function PerformPlan(s: State, c: Caller, a: Action): Outcome
    requires PlanAction(a)
  {
    match a
    case DoAddPlan(slug, title, intent) => AddPlan(s, c, slug, title, intent)
    case DoEditPlan(slug, title, intent, why) => EditPlan(s, c, slug, title, intent, why)
    case DoSetPlan(slug, status, why) => SetPlanStatus(s, c, slug, status, why)
    case DoReview(x, target, verdict, reason) => ReviewTask(s, c, x, target, verdict, reason)
    case DoNote(about, text) => AddNote(s, c, about, text)
  }

  ghost function Perform(s: State, call: Call): Outcome {
    var c, a := call.caller, call.action;
    if StatusAction(a) then PerformStatus(s, c, a)
    else if DefinitionAction(a) then PerformDefinition(s, c, a)
    else if LinkAction(a) then PerformLink(s, c, a)
    else if GateAction(a) then PerformGate(s, c, a)
    else PerformPlan(s, c, a)
  }

  /** Gate calls change the gates of their task and nothing else in the tables. */
  lemma GateCallRow(s: State, c: Caller, a: Action)
    requires GateAction(a) && PerformGate(s, c, a).Committed?
    ensures var u := PerformGate(s, c, a).state;
            && u.plans == s.plans && u.deps == s.deps && a.x in s.tasks
            && exists gates :: u.tasks == s.tasks[a.x := s.tasks[a.x].(gates := gates)]
  {
    assert exists gates :: PerformGate(s, c, a).state.tasks == s.tasks[a.x := s.tasks[a.x].(gates := gates)] by {
      assert PerformGate(s, c, a).state.tasks ==
             s.tasks[a.x := s.tasks[a.x].(gates := PerformGate(s, c, a).state.tasks[a.x].gates)];
    }
  }

  /** A refused call leaves the authority as it was. */
  ghost function Step(s: State, call: Call): State {
    var outcome := Perform(s, call);
    if outcome.Committed? then outcome.state else s
  }

  ghost function After(s: State, calls: seq<Call>): State
    decreases |calls|
  {
    if calls == [] then s else Step(After(s, calls[..|calls| - 1]), calls[|calls| - 1])
  }

  lemma OneMoreCall(s: State, calls: seq<Call>, call: Call)
    ensures After(s, calls + [call]) == Step(After(s, calls), call)
  {
    assert (calls + [call])[..|calls|] == calls;
  }

  lemma StatusStepSafe(s: State, c: Caller, a: Action)
    requires Inv(s) && StatusAction(a) && PerformStatus(s, c, a).Committed?
    ensures Inv(PerformStatus(s, c, a).state)
  {
    match a
    case DoStart(x, why, session) => StartSafe(s, c, x, why, session);
    case DoComplete(x, result) => CompleteSafe(s, c, x, result);
    case DoReopen(x, why) => ReopenSafe(s, c, x, why);
    case DoRetire(x, into, why) => TerminateSafe(s, c, x, Retired, into, why);
    case DoReject(x, why) => TerminateSafe(s, c, x, Rejected, None, why);
  }

  lemma DefinitionStepSafe(s: State, c: Caller, a: Action)
    requires Inv(s) && DefinitionAction(a) && PerformDefinition(s, c, a).Committed?
    ensures Inv(PerformDefinition(s, c, a).state)
  {
    match a
    case DoAdd(selector, n, start, session) => AddTaskSafe(s, c, selector, n, start, session);
    case DoEdit(x, edit, why, visit) => EditSafe(s, c, x, edit, why, visit);
    case DoDecompose(x, outline, startReady, session) => DecomposeSafe(s, c, x, outline, startReady, session);
  }

  lemma LinkStepSafe(s: State, c: Caller, a: Action)
    requires Inv(s) && LinkAction(a) && PerformLink(s, c, a).Committed?
    ensures Inv(PerformLink(s, c, a).state)
  {
    match a
    case DoAddDep(x, on, why) => AddDepSafe(s, c, x, on, why);
    case DoRemoveDep(x, on, why) => RemoveDepSafe(s, c, x, on, why);
    case DoMovePlan(sequences, slug, why) => MovePlanSafe(s, c, sequences, slug, why);
  }

  lemma GateStepSafe(s: State, c: Caller, a: Action)
    requires Inv(s) && GateAction(a) && PerformGate(s, c, a).Committed?
    ensures Inv(PerformGate(s, c, a).state)
  {
    match a
    case DoAddGate(x, name, kind, requirement) => AddGateSafe(s, c, x, name, kind, requirement);
    case DoResolveGate(x, name, evidence, digest, note, ok) =>
      SettleGateSafe(s, c, x, name, Resolved, Some(evidence), digest, note, None, ok);
    case DoWaiveGate(x, name, reason) => SettleGateSafe(s, c, x, name, Waived, None, None, None, Some(reason), true);
    case DoRemoveGate(x, name, reason) => RemoveGateSafe(s, c, x, name, reason);
    case DoReopenGate(x, name, why) => ReopenGateSafe(s, c, x, name, why);
  }

  lemma PlanStepSafe(s: State, c: Caller, a: Action)
    requires Inv(s) && PlanAction(a) && PerformPlan(s, c, a).Committed?
    ensures Inv(PerformPlan(s, c, a).state)
  {
    match a
    case DoAddPlan(slug, title, intent) => AddPlanSafe(s, c, slug, title, intent);
    case DoEditPlan(slug, title, intent, why) => EditPlanSafe(s, c, slug, title, intent, why);
    case DoSetPlan(slug, status, why) => SetPlanStatusSafe(s, c, slug, status, why);
    case DoReview(_, _, _, _) => InvLogged(s, PerformPlan(s, c, a).state.log[|s.log|]);
    case DoNote(_, _) => InvLogged(s, PerformPlan(s, c, a).state.log[|s.log|]);
  }

  lemma StepSafe(s: State, call: Call)
    requires Inv(s)
    ensures Inv(Step(s, call))
  {
    var c, a := call.caller, call.action;
    if Perform(s, call).Committed? {
      if StatusAction(a) { StatusStepSafe(s, c, a); }
      else if DefinitionAction(a) { DefinitionStepSafe(s, c, a); }
      else if LinkAction(a) { LinkStepSafe(s, c, a); }
      else if GateAction(a) { GateStepSafe(s, c, a); }
      else { PlanStepSafe(s, c, a); }
    }
  }

  lemma {:induction false} RunSafe(s: State, calls: seq<Call>)
    requires Inv(s)
    ensures Inv(After(s, calls))
    decreases |calls|
  {
    if calls != [] {
      RunSafe(s, calls[..|calls| - 1]);
      StepSafe(After(s, calls[..|calls| - 1]), calls[|calls| - 1]);
    }
  }

  // ---- what that means for every run from an empty authority ----

  /** No run ever lets the wait graph close a loop. */
  lemma WaitGraphStaysAcyclic(calls: seq<Call>)
    ensures Acyclic(Waits(After(EMPTY, calls)))
  {
    EmptyInv();
    RunSafe(EMPTY, calls);
  }

  /** Parent and replacement links never cross plans, and neither ever forms a cycle. */
  lemma PlansStayConfined(calls: seq<Call>, x: nat)
    requires x in After(EMPTY, calls).tasks
    ensures var s := After(EMPTY, calls);
            var t := s.tasks[x];
            && (t.parent.Some? ==> t.parent.value in s.tasks && s.tasks[t.parent.value].plan == t.plan)
            && (t.replacement.Some? ==> t.replacement.value in s.tasks && s.tasks[t.replacement.value].plan == t.plan)
            && Acyclic(Parents(s)) && Acyclic(Replacements(s))
  {
    EmptyInv();
    RunSafe(EMPTY, calls);
    var s := After(EMPTY, calls);
    assert ParentOk(s, s.tasks[x]) && ReplacementOk(s, s.tasks[x]);
  }

  /** Closed tasks hold nothing open. */
  lemma ClosedTasksHoldNothing(calls: seq<Call>, x: nat)
    requires x in After(EMPTY, calls).tasks
    ensures var s := After(EMPTY, calls);
            var t := s.tasks[x];
            && (Closed(t.status) ==> NoLiveChild(s, x))
            && (t.status.Done? ==> !OpenGate(t) && (RequiresResult(t.kind) ==> HasResult(t.result)))
            && (t.status.Done? ==> forall d :: (x, d) in s.deps ==> d in s.tasks && DoneOrRetired(s.tasks[d]))
            && (Live(t.status) ==> t.plan < |s.plans| && !s.plans[t.plan].status.PlanDone?)
            && (t.pickup.Some? ==> t.status.InProgress?)
  {
    EmptyInv();
    RunSafe(EMPTY, calls);
    var s := After(EMPTY, calls);
    var t := s.tasks[x];
    assert RowOk(s, t);
    forall child | child in s.tasks && Closed(t.status) ensures !LiveChild(s, x, child) {
      assert ParentOk(s, s.tasks[child]);
    }
  }
}
