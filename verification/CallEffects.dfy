/** Every call at once: exactly when it commits after a run, and exactly what it then does. */
module CallEffects {
  import opened Basics
  import opened Graphs
  import opened Records
  import opened Waiting
  import opened Lifecycle
  import opened GatesAndPlans
  import opened Definition
  import opened DefinitionSafety
  import opened Outlines
  import opened OutlineStart
  import opened Invariants
  import opened HistoryRuns
  import opened Runs
  import opened StatusEffects
  import opened EditEffects
  import opened LinkEffects
  import opened CreationEffects
  import opened OutlineEffects
  import opened GateEffects

  // ---- what each call does ----

  ghost predicate StatusEffect(s: State, u: State, c: Caller, a: Action)
    requires StatusAction(a)
  {
    match a
    case DoStart(x, why, session) => StartedBy(s, u, c, x, why, session)
    case DoComplete(x, result) => CompletedBy(s, u, c, x, result)
    case DoReopen(x, why) => ReopenedBy(s, u, c, x, why)
    case DoRetire(x, into, why) => RetiredBy(s, u, c, x, into, why)
    case DoReject(x, why) => RejectedBy(s, u, c, x, why)
  }

  ghost predicate DefinitionEffect(s: State, u: State, c: Caller, a: Action)
    requires DefinitionAction(a)
  {
    match a
    case DoAdd(selector, n, start, session) =>
      exists x, plan :: TaskAdded(s, u, c, selector, n, start, session, x, plan)
    case DoEdit(x, edit, why, visit) => EditDone(s, u, c, x, edit, why, visit)
    case DoDecompose(x, o, startReady, session) =>
      exists base :: FirstNumber(s, base) && Decomposed(s, u, c, x, o, base, startReady, session)
  }

  ghost predicate LinkEffect(s: State, u: State, c: Caller, a: Action)
    requires LinkAction(a)
  {
    match a
    case DoAddDep(x, on, why) => u.deps == s.deps + {(x, on)} && LinkTold(s, u, c, x, why, DepAdded(on))
    case DoRemoveDep(x, on, why) => u.deps == s.deps - {(x, on)} && LinkTold(s, u, c, x, why, DepRemoved(on))
    case DoMovePlan(sequences, slug, why) =>
      exists plan, order :: && 0 <= plan < |s.plans| && s.plans[plan].slug == slug
                            && MovedBy(s, u, c, sequences, plan, why, order)
  }

  ghost predicate GateEffect(s: State, u: State, c: Caller, a: Action)
    requires GateAction(a)
  {
    match a
    case DoAddGate(x, name, kind, requirement) => GateAdded(s, u, c, x, name, kind, requirement)
    case DoResolveGate(x, name, evidence, digest, note, _) =>
      exists i :: GateSettledAt(s, u, c, x, name, i, Resolved, Some(evidence), digest, note, None)
    case DoWaiveGate(x, name, reason) =>
      exists i :: GateSettledAt(s, u, c, x, name, i, Waived, None, None, Some(reason), Some(reason))
    case DoRemoveGate(x, name, reason) => exists i :: GateRemovedAt(s, u, c, x, name, i, reason)
    case DoReopenGate(x, name, why) => exists i :: GateReopenedAt(s, u, c, x, name, i, why)
  }

  ghost predicate PlanEffect(s: State, u: State, c: Caller, a: Action)
    requires PlanAction(a)
  {
    match a
    case DoAddPlan(slug, title, intent) => PlanAdded(s, u, c, slug, title, intent)
    case DoEditPlan(slug, title, intent, why) => PlanEditedBy(s, u, c, slug, title, intent, why)
    case DoSetPlan(slug, status, why) => PlanSetBy(s, u, c, slug, status, why)
    case DoReview(x, target, verdict, reason) =>
      u.(log := s.log) == s && TellsOf(s, u, c, x, Some(reason), Reviewed(target, verdict))
    case DoNote(about, text) => NotedBy(s, u, c, about, text)
  }

  ghost predicate Effect(s: State, u: State, call: Call) {
    var c, a := call.caller, call.action;
    if StatusAction(a) then StatusEffect(s, u, c, a)
    else if DefinitionAction(a) then DefinitionEffect(s, u, c, a)
    else if LinkAction(a) then LinkEffect(s, u, c, a)
    else if GateAction(a) then GateEffect(s, u, c, a)
    else PlanEffect(s, u, c, a)
  }

  lemma StatusTakesEffect(s: State, c: Caller, a: Action)
    requires Rows(s) && StatusAction(a) && PerformStatus(s, c, a).Committed?
    ensures StatusEffect(s, PerformStatus(s, c, a).state, c, a)
  {
    match a
    case DoStart(x, why, session) => StartWrites(s, c, x, why, session);
    case DoComplete(x, result) => CompleteWrites(s, c, x, result);
    case DoReopen(x, why) => ReopenWrites(s, c, x, why);
    case DoRetire(x, into, why) => RetireWrites(s, c, x, into, why);
    case DoReject(x, why) => RejectWrites(s, c, x, why);
  }

  lemma DefinitionTakesEffect(s: State, c: Caller, a: Action)
    requires Inv(s) && DefinitionAction(a) && PerformDefinition(s, c, a).Committed?
    ensures DefinitionEffect(s, PerformDefinition(s, c, a).state, c, a)
  {
    match a
    case DoAdd(selector, n, start, session) => var x, plan := AddTaskWrites(s, c, selector, n, start, session);
    case DoEdit(x, edit, why, visit) => EditWrites(s, c, x, edit, why, visit);
    case DoDecompose(x, o, startReady, session) => var base := DecomposeWrites(s, c, x, o, startReady, session);
  }

  lemma LinkTakesEffect(s: State, c: Caller, a: Action)
    requires Rows(s) && LinkAction(a) && PerformLink(s, c, a).Committed?
    ensures LinkEffect(s, PerformLink(s, c, a).state, c, a)
  {
    match a
    case DoAddDep(x, on, why) => AddDepWrites(s, c, x, on, why);
    case DoRemoveDep(x, on, why) => RemoveDepWrites(s, c, x, on, why);
    case DoMovePlan(sequences, slug, why) => var order, plan := MovePlanWrites(s, c, sequences, slug, why);
  }

  lemma GateTakesEffect(s: State, c: Caller, a: Action)
    requires Rows(s) && GateAction(a) && PerformGate(s, c, a).Committed?
    ensures GateEffect(s, PerformGate(s, c, a).state, c, a)
  {
    match a
    case DoAddGate(x, name, kind, requirement) => AddGateWrites(s, c, x, name, kind, requirement);
    case DoResolveGate(x, name, evidence, digest, note, ok) =>
      var i := ResolveWrites(s, c, x, name, evidence, digest, note, ok);
    case DoWaiveGate(x, name, reason) => var i := WaiveWrites(s, c, x, name, reason);
    case DoRemoveGate(x, name, reason) => var i := RemoveGateWrites(s, c, x, name, reason);
    case DoReopenGate(x, name, why) => var i := ReopenGateWrites(s, c, x, name, why);
  }

  lemma PlanTakesEffect(s: State, c: Caller, a: Action)
    requires PlansOk(s) && Rows(s) && PlanAction(a) && PerformPlan(s, c, a).Committed?
    ensures PlanEffect(s, PerformPlan(s, c, a).state, c, a)
  {
    match a
    case DoAddPlan(slug, title, intent) => AddPlanExactly(s, c, slug, title, intent);
    case DoEditPlan(slug, title, intent, why) => EditPlanExactly(s, c, slug, title, intent, why);
    case DoSetPlan(slug, status, why) => SetPlanExactly(s, c, slug, status, why);
    case DoReview(x, target, verdict, reason) => ReviewWrites(s, c, x, target, verdict, reason);
    case DoNote(about, text) => NoteExactly(s, c, about, text);
  }

  /** From any sound state, a call that commits does exactly what its kind says to plans, rows, dependencies and log; a
      call that is refused does nothing. */
  lemma CallTakesEffect(s: State, call: Call)
    requires Inv(s)
    ensures if Perform(s, call).Committed? then Effect(s, Step(s, call), call) else Step(s, call) == s
  {
    var c, a := call.caller, call.action;
    if Perform(s, call).Committed? {
      if StatusAction(a) { StatusTakesEffect(s, c, a); }
      else if DefinitionAction(a) { DefinitionTakesEffect(s, c, a); }
      else if LinkAction(a) { LinkTakesEffect(s, c, a); }
      else if GateAction(a) { GateTakesEffect(s, c, a); }
      else { PlanTakesEffect(s, c, a); }
    }
  }

  // ---- when each call commits ----

  ghost predicate StatusAdmits(s: State, a: Action)
    requires StatusAction(a)
  {
    match a
    case DoStart(x, _, session) => MayStart(s, x, session)
    case DoComplete(x, result) => Completable(s, x, result) && !BuildsOnDisputed(s, x)
    case DoReopen(x, _) => MayReopen(s, x)
    case DoRetire(x, into, why) => MayRetire(s, x, into, why)
    case DoReject(x, why) => MayReject(s, x, why)
  }

  ghost predicate DefinitionAdmits(s: State, a: Action)
    requires DefinitionAction(a)
  {
    match a
    case DoAdd(selector, n, start, session) => exists plan :: MayAdd(s, selector, n, start, session, plan)
    case DoEdit(x, edit, _, _) => MayEdit(s, x, edit)
    case DoDecompose(x, o, startReady, session) => MayDecompose(s, x, o, startReady, session)
  }

  ghost predicate LinkAdmits(s: State, a: Action)
    requires LinkAction(a)
  {
    match a
    case DoAddDep(x, on, why) => MayLink(s, x, on, why)
    case DoRemoveDep(x, on, why) => (why.Some? ==> Trim(why.value) != "") && (x, on) in s.deps
    case DoMovePlan(sequences, slug, _) => exists plan :: MayMove(s, sequences, slug, plan)
  }

  ghost predicate GateAdmits(s: State, a: Action)
    requires GateAction(a)
  {
    match a
    case DoAddGate(x, name, _, requirement) =>
      Trim(name) != "" && Trim(requirement) != "" && LiveTaskOf(s, x) && forall i :: !GateAt(s, x, i, Trim(name))
    case DoResolveGate(x, name, _, _, _, ok) => ok && exists i :: OpenGateAt(s, x, i, name)
    case DoWaiveGate(x, name, reason) => Trim(reason) != "" && exists i :: OpenGateAt(s, x, i, name)
    case DoRemoveGate(x, name, reason) => Trim(reason) != "" && exists i :: OpenGateAt(s, x, i, name)
    case DoReopenGate(x, name, _) => LiveTaskOf(s, x) && exists i :: SettledGateAt(s, x, i, name)
  }

  ghost predicate PlanAdmits(s: State, c: Caller, a: Action)
    requires PlanAction(a)
  {
    match a
    case DoAddPlan(slug, title, _) => Trim(slug) != "" && Trim(title) != "" && NoSuchPlan(s, Trim(slug))
    case DoEditPlan(slug, title, intent, _) =>
      (title.Some? || intent.Some?) && !NoSuchPlan(s, slug) && (title.Some? ==> Trim(title.value) != "")
    case DoSetPlan(slug, status, _) => !NoSuchPlan(s, slug) && (status == PlanDone ==> PlanFinished(s, slug))
    case DoReview(x, target, _, reason) => MayReview(s, c, x, target, reason)
    case DoNote(about, _) => about.Some? ==> about.value in s.tasks
  }

  ghost predicate Admits(s: State, call: Call) {
    var c, a := call.caller, call.action;
    if StatusAction(a) then StatusAdmits(s, a)
    else if DefinitionAction(a) then DefinitionAdmits(s, a)
    else if LinkAction(a) then LinkAdmits(s, a)
    else if GateAction(a) then GateAdmits(s, a)
    else PlanAdmits(s, c, a)
  }

  lemma StatusExactly(calls: seq<Call>, c: Caller, a: Action)
    requires StatusAction(a)
    ensures PerformStatus(After(EMPTY, calls), c, a).Committed? <==> StatusAdmits(After(EMPTY, calls), a)
  {
    var s := After(EMPTY, calls);
    RunHistory(calls);
    match a
    case DoStart(x, why, session) => StartExactly(calls, c, x, why, session);
    case DoComplete(x, result) => CompleteExactly(calls, c, x, result);
    case DoReopen(x, why) => ReopenExactly(s, c, x, why);
    case DoRetire(x, into, why) => RetireExactly(s, c, x, into, why);
    case DoReject(x, why) => RejectExactly(s, c, x, why);
  }

  lemma DefinitionExactly(s: State, c: Caller, a: Action)
    requires Inv(s) && DisputesLogged(s) && DefinitionAction(a) && (a.DoEdit? ==> Visits(s, a.x, a.visit))
    ensures PerformDefinition(s, c, a).Committed? <==> DefinitionAdmits(s, a)
  {
    match a
    case DoAdd(selector, n, start, session) => AddTaskExactly(s, c, selector, n, start, session);
    case DoEdit(x, edit, why, visit) => EditExactly(s, c, x, edit, why, visit);
    case DoDecompose(x, o, startReady, session) => DecomposeCommitsExactly(s, c, x, o, startReady, session);
  }

  lemma LinkExactly(s: State, c: Caller, a: Action)
    requires Inv(s) && LinkAction(a)
    ensures PerformLink(s, c, a).Committed? <==> LinkAdmits(s, a)
  {
    match a
    case DoAddDep(x, on, why) => AddDepExactly(s, c, x, on, why);
    case DoRemoveDep(x, on, why) => RemoveDepExactly(s, c, x, on, why);
    case DoMovePlan(sequences, slug, why) => MovePlanExactly(s, c, sequences, slug, why);
  }

  lemma GateExactly(s: State, c: Caller, a: Action)
    requires Rows(s) && GateAction(a)
    ensures PerformGate(s, c, a).Committed? <==> GateAdmits(s, a)
  {
    match a
    case DoAddGate(x, name, kind, requirement) => AddGateExactly(s, c, x, name, kind, requirement);
    case DoResolveGate(x, name, evidence, digest, note, ok) =>
      ResolveExactly(s, c, x, name, evidence, digest, note, ok);
    case DoWaiveGate(x, name, reason) => WaiveExactly(s, c, x, name, reason);
    case DoRemoveGate(x, name, reason) => RemoveGateExactly(s, c, x, name, reason);
    case DoReopenGate(x, name, why) => ReopenGateExactly(s, c, x, name, why);
  }

  lemma PlanExactly(s: State, c: Caller, a: Action)
    requires PlansOk(s) && Rows(s) && PlanAction(a)
    ensures PerformPlan(s, c, a).Committed? <==> PlanAdmits(s, c, a)
  {
    match a
    case DoAddPlan(slug, title, intent) => AddPlanExactly(s, c, slug, title, intent);
    case DoEditPlan(slug, title, intent, why) => EditPlanExactly(s, c, slug, title, intent, why);
    case DoSetPlan(slug, status, why) => SetPlanExactly(s, c, slug, status, why);
    case DoReview(x, target, verdict, reason) => ReviewExactly(s, c, x, target, verdict, reason);
    case DoNote(about, text) => NoteExactly(s, c, about, text);
  }

  /** After any run a call commits exactly when what its kind asks is so. A reparent carries some order in which its
      subtree can be met; which one it is does not matter. */
  lemma CallCommitsExactly(calls: seq<Call>, call: Call)
    requires call.action.DoEdit? ==> Visits(After(EMPTY, calls), call.action.x, call.action.visit)
    ensures Perform(After(EMPTY, calls), call).Committed? <==> Admits(After(EMPTY, calls), call)
  {
    var s, c, a := After(EMPTY, calls), call.caller, call.action;
    RunHistory(calls);
    RunsLogDisputes(calls);
    if StatusAction(a) { StatusExactly(calls, c, a); }
    else if DefinitionAction(a) { DefinitionExactly(s, c, a); }
    else if LinkAction(a) { LinkExactly(s, c, a); }
    else if GateAction(a) { GateExactly(s, c, a); }
    else { PlanExactly(s, c, a); }
  }
}
