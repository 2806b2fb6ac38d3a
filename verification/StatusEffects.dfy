/** When each lifecycle call commits, with disputes read from the log, and exactly what it then stores. */
module StatusEffects {
  import opened Basics
  import opened Graphs
  import opened Records
  import opened Review
  import opened Waiting
  import opened Lifecycle
  import opened LifecycleSafety
  import opened GatesAndPlans
  import opened Invariants
  import opened Settlement
  import opened HistoryRuns
  import opened ReviewRuns
  import opened Runs

  // ---- one row, one event ----

  /** Nothing but the row of x differs in the tables. */
  predicate OnlyRow(s: State, u: State, x: nat) {
    && x in s.tasks && x in u.tasks && u.plans == s.plans && u.deps == s.deps && u.tasks.Keys == s.tasks.Keys
    && forall y :: y in s.tasks && y != x ==> u.tasks[y] == s.tasks[y]
  }

  /** What a task is stays as it was; only how far it got may differ. */
  predicate SameWork(t: Task, v: Task) {
    && v.plan == t.plan && v.parent == t.parent && v.title == t.title && v.intent == t.intent
    && v.kind == t.kind && v.priority == t.priority && v.gates == t.gates
  }

  /** One event about the task was appended, in the caller's name. */
  predicate TellsOf(s: State, u: State, c: Caller, x: nat, why: Option<string>, payload: Payload) {
    && x in s.tasks && s.tasks[x].plan < |s.plans|
    && u.log == s.log + [Event(c.at, c.author, TaskEntity, Some(s.plans[s.tasks[x].plan].slug), Some(x), None, why,
        payload)]
  }

  // ---- disputes ----

  /** Since its last completion the last word on the result is a dispute by someone other than its completer. */
  ghost predicate DisputedInLog(log: seq<Event>, r: nat) { exists i: nat :: JudgedByOther(log, r, Disputes, i) }

  /** A done dependency or done child whose result stands disputed. */
  ghost predicate BuildsOnDisputed(s: State, x: nat) {
    exists r :: r in s.tasks && s.tasks[r].status.Done? && ((x, r) in s.deps || s.tasks[r].parent == Some(x))
                && DisputedInLog(s.log, r)
  }

  lemma DisputeInLog(calls: seq<Call>, r: nat)
    requires r in After(EMPTY, calls).tasks && After(EMPTY, calls).tasks[r].status.Done?
    ensures ResultDisputed(After(EMPTY, calls), r) <==> DisputedInLog(After(EMPTY, calls).log, r)
  {
    ResultVerdictsComeFromOthers(calls, r, Disputes);
  }

  /** For done tasks the review fold and the log agree about disputes. */
  ghost predicate DisputesLogged(s: State) {
    forall r :: r in s.tasks && s.tasks[r].status.Done? ==> (ResultDisputed(s, r) <==> DisputedInLog(s.log, r))
  }

  lemma RunsLogDisputes(calls: seq<Call>)
    ensures DisputesLogged(After(EMPTY, calls))
  {
    var s := After(EMPTY, calls);
    forall r | r in s.tasks && s.tasks[r].status.Done? ensures ResultDisputed(s, r) <==> DisputedInLog(s.log, r) {
      DisputeInLog(calls, r);
    }
  }

  /** After every run the review fold holds work back exactly when the log shows such a dispute. */
  lemma DisputesAreInTheLog(calls: seq<Call>, x: nat)
    ensures var s := After(EMPTY, calls); Undisputed(s, x) <==> !BuildsOnDisputed(s, x)
  {
    RunsLogDisputes(calls);
  }

  // ---- start ----

  predicate HeldOutside(t: Task) { exists gate :: gate in t.gates && gate.status.Open? && gate.kind == ExternalGate }

  predicate InActivePlan(s: State, x: nat) {
    x in s.tasks && s.tasks[x].plan < |s.plans| && s.plans[s.tasks[x].plan].status == PlanActive
  }

  /** What a start asks: work in progress, or a proposed task in an active plan that no open external gate holds and that
      builds on no disputed result; and a well-formed session, if one is given. */
  ghost predicate MayStart(s: State, x: nat, session: Option<string>) {
    && (session.Some? ==> ValidSession(session.value))
    && x in s.tasks
    && (s.tasks[x].status == InProgress
        || (s.tasks[x].status == Proposed && InActivePlan(s, x) && !HeldOutside(s.tasks[x]) && !BuildsOnDisputed(s, x)))
  }

  lemma StartExactly(calls: seq<Call>, c: Caller, x: nat, why: Option<string>, session: Option<string>)
    ensures Start(After(EMPTY, calls), c, x, why, session).Committed? <==> MayStart(After(EMPTY, calls), x, session)
  {
    DisputesAreInTheLog(calls, x);
  }

  /** The same identified session again leaves no trace; any other start leaves the task in progress, picked up by
      this caller, and says so. */
  predicate StartedBy(s: State, u: State, c: Caller, x: nat, why: Option<string>, session: Option<string>) {
    x in s.tasks && var t, mine := s.tasks[x], Pickup(session, c.at, c.owner);
    if t.pickup.Some? && session.Some? && t.pickup.value.session == session then u == s
    else
      && OnlyRow(s, u, x) && SameWork(t, u.tasks[x]) && u.tasks[x].replacement == t.replacement
      && u.tasks[x].status == InProgress && u.tasks[x].pickup == Some(mine)
      && u.tasks[x].result == (if t.status == InProgress then t.result else None)
      && TellsOf(s, u, c, x, why, if t.status == InProgress then PickedUp(t.pickup, mine)
                                  else StatusChanged(Proposed, InProgress, None, None, Some(mine), None))
  }

  lemma StartWrites(s: State, c: Caller, x: nat, why: Option<string>, session: Option<string>)
    requires Rows(s) && Start(s, c, x, why, session).Committed?
    ensures StartedBy(s, Start(s, c, x, why, session).state, c, x, why, session)
  {
    assert RowOk(s, s.tasks[x]);
  }

  // ---- completion ----

  lemma NothingUnfinishedUnder(s: State, x: nat)
    ensures NoLiveChild(s, x) <==>
            forall y :: y in s.tasks && s.tasks[y].parent == Some(x) ==> s.tasks[y].status !in {Proposed, InProgress}
  {
    if forall y :: y in s.tasks && s.tasks[y].parent == Some(x) ==> s.tasks[y].status !in {Proposed, InProgress} {
      forall y | y in s.tasks ensures !LiveChild(s, x, y) { }
    }
    if NoLiveChild(s, x) {
      forall y | y in s.tasks && s.tasks[y].parent == Some(x) ensures s.tasks[y].status !in {Proposed, InProgress} {
        assert !LiveChild(s, x, y);
      }
    }
  }

  /** What completion asks besides that nothing beneath is disputed: a live task, in an active plan or already started,
      with settled prerequisites, no open gate, no unfinished child, and a result where its kind needs one. */
  ghost predicate Completable(s: State, x: nat, result: Option<string>) {
    && x in s.tasks
    && (s.tasks[x].status == InProgress || (s.tasks[x].status == Proposed && InActivePlan(s, x)))
    && (forall d :: (x, d) in s.deps ==> Settled(s, d))
    && (forall gate :: gate in s.tasks[x].gates ==> gate.status != Open)
    && (forall y :: y in s.tasks && s.tasks[y].parent == Some(x) ==> s.tasks[y].status !in {Proposed, InProgress})
    && (s.tasks[x].kind in {Probe, Decision, Bug} ==> result.Some? && Trim(result.value) != "")
  }

  lemma CompleteWhen(s: State, c: Caller, x: nat, result: Option<string>)
    ensures Complete(s, c, x, result).Committed? <==> Completable(s, x, result) && Undisputed(s, x)
  {
    NothingUnfinishedUnder(s, x);
  }

  /** Completion commits exactly then: a completable task is refused exactly when it builds on a disputed result. */
  lemma CompleteExactly(calls: seq<Call>, c: Caller, x: nat, result: Option<string>)
    ensures var s := After(EMPTY, calls);
            Complete(s, c, x, result).Committed? <==> Completable(s, x, result) && !BuildsOnDisputed(s, x)
  {
    DisputesAreInTheLog(calls, x);
    CompleteWhen(After(EMPTY, calls), c, x, result);
  }

  /** The trimmed text of a rationale or result; nothing for none or a blank one. */
  predicate IsGiven(given: Option<string>, stored: Option<string>) {
    if given.Some? && Trim(given.value) != "" then stored == Some(Trim(given.value)) else stored == None
  }

  /** The task is done, carries the trimmed result given, and nothing else of it but its pickup differs. */
  predicate CompletedBy(s: State, u: State, c: Caller, x: nat, result: Option<string>) {
    && OnlyRow(s, u, x) && SameWork(s.tasks[x], u.tasks[x])
    && u.tasks[x].status == Done && IsGiven(result, u.tasks[x].result)
    && u.tasks[x].replacement == None && u.tasks[x].pickup == None
    && TellsOf(s, u, c, x, u.tasks[x].result,
               StatusChanged(s.tasks[x].status, Done, u.tasks[x].result, s.tasks[x].pickup, None, None))
  }

  lemma CompleteWrites(s: State, c: Caller, x: nat, result: Option<string>)
    requires Rows(s) && Complete(s, c, x, result).Committed?
    ensures CompletedBy(s, Complete(s, c, x, result).state, c, x, result)
  {
    assert RowOk(s, s.tasks[x]);
  }

  // ---- retirement and rejection ----

  /** No done task depends on it and no unfinished task lies under it. */
  predicate NothingRestsOn(s: State, x: nat) {
    forall y :: y in s.tasks ==>
      && ((y, x) in s.deps ==> s.tasks[y].status != Done)
      && (s.tasks[y].parent == Some(x) ==> s.tasks[y].status !in {Proposed, InProgress})
  }

  lemma RestsOn(s: State, x: nat)
    ensures NothingRestsOn(s, x) <==> NoDoneDependent(s, x) && NoLiveChild(s, x)
  {
    if NothingRestsOn(s, x) {
      forall y | y in s.tasks ensures !DoneDependent(s, x, y) && !LiveChild(s, x, y) { }
    }
    if NoDoneDependent(s, x) && NoLiveChild(s, x) {
      forall y | y in s.tasks
        ensures (y, x) in s.deps ==> s.tasks[y].status != Done
        ensures s.tasks[y].parent == Some(x) ==> s.tasks[y].status !in {Proposed, InProgress}
      {
        assert !DoneDependent(s, x, y) && !LiveChild(s, x, y);
      }
    }
  }

  predicate NonBlank(text: Option<string>) { text.Some? && Trim(text.value) != "" }

  predicate LiveTaskOf(s: State, x: nat) { x in s.tasks && s.tasks[x].status in {Proposed, InProgress} }

  /** A task that may stand in for x: another one of its plan, live or done. */
  predicate StandsIn(s: State, x: nat, r: nat) {
    && x in s.tasks && r in s.tasks && r != x && s.tasks[r].plan == s.tasks[x].plan
    && s.tasks[r].status in {Proposed, InProgress, Done}
  }

  predicate ReplacesSome(s: State, x: nat) { exists y :: y in s.tasks && s.tasks[y].replacement == Some(x) }

  lemma TerminateWhen(s: State, c: Caller, x: nat, to: Status, into: Option<nat>, why: Option<string>)
    requires Inv(s) && (to.Retired? || (to.Rejected? && into.None?))
    ensures Terminate(s, c, x, to, into, why).Committed? <==>
            && (Given(why).Some? || into.Some?) && x in s.tasks && Live(s.tasks[x].status)
            && NoDoneDependent(s, x) && NoLiveChild(s, x)
            && (NoInboundReplacement(s, x) || into.Some?) && ReplacementRefusal(s, x, into).None?
  {
    ReplacementCycleNeverFires(s, c, x, to, into, why);
  }

  lemma Substitutes(s: State, x: nat, into: Option<nat>)
    requires x in s.tasks
    ensures ReplacementRefusal(s, x, into).None? <==> (into.Some? ==> StandsIn(s, x, into.value))
  {
  }

  /** Rejecting needs a reason and a live task that nothing done or unfinished rests on and that replaces no other. */
  ghost predicate MayReject(s: State, x: nat, why: Option<string>) {
    NonBlank(why) && LiveTaskOf(s, x) && NothingRestsOn(s, x) && !ReplacesSome(s, x)
  }

  lemma RejectExactly(s: State, c: Caller, x: nat, why: Option<string>)
    requires Inv(s)
    ensures Reject(s, c, x, why).Committed? <==> MayReject(s, x, why)
  {
    RestsOn(s, x);
    TerminateWhen(s, c, x, Rejected, None, why);
  }

  /** So does retiring without a replacement; with one, the reason is optional and the task may replace others. */
  ghost predicate MayRetire(s: State, x: nat, into: Option<nat>, why: Option<string>) {
    && LiveTaskOf(s, x) && NothingRestsOn(s, x)
    && (if into.Some? then StandsIn(s, x, into.value) else NonBlank(why) && !ReplacesSome(s, x))
  }

  lemma RetireExactly(s: State, c: Caller, x: nat, into: Option<nat>, why: Option<string>)
    requires Inv(s)
    ensures Retire(s, c, x, into, why).Committed? <==> MayRetire(s, x, into, why)
  {
    RestsOn(s, x);
    if x in s.tasks { Substitutes(s, x, into); }
    TerminateWhen(s, c, x, Retired, into, why);
  }

  /** The row and event a retirement or rejection leaves. */
  predicate Terminated(s: State, u: State, c: Caller, x: nat, to: Status, into: Option<nat>, why: Option<string>) {
    && OnlyRow(s, u, x) && SameWork(s.tasks[x], u.tasks[x])
    && u.tasks[x].status == to && u.tasks[x].replacement == into && u.tasks[x].pickup == None
    && IsGiven(why, u.tasks[x].result)
    && TellsOf(s, u, c, x, u.tasks[x].result,
               StatusChanged(s.tasks[x].status, to, u.tasks[x].result, s.tasks[x].pickup, None, into))
  }

  lemma TerminateWrites(s: State, c: Caller, x: nat, to: Status, into: Option<nat>, why: Option<string>)
    returns (u: State)
    requires Rows(s) && (to.Retired? || (to.Rejected? && into.None?)) && Terminate(s, c, x, to, into, why).Committed?
    ensures Terminate(s, c, x, to, into, why) == Committed(u) && Terminated(s, u, c, x, to, into, why)
    ensures into.None? ==> u.tasks[x].result.Some?
  {
    assert RowOk(s, s.tasks[x]);
    u := Terminate(s, c, x, to, into, why).state;
  }

  /** A rejected task keeps its reason and never counts as settled: whatever depends on it keeps an open dependency. */
  ghost predicate RejectedBy(s: State, u: State, c: Caller, x: nat, why: Option<string>) {
    && Terminated(s, u, c, x, Rejected, None, why) && u.tasks[x].result.Some? && !Settled(u, x)
    && forall y :: (y, x) in s.deps ==> OpenDep(u, y, x)
  }

  lemma RejectWrites(s: State, c: Caller, x: nat, why: Option<string>)
    requires Rows(s) && Reject(s, c, x, why).Committed?
    ensures RejectedBy(s, Reject(s, c, x, why).state, c, x, why)
  {
    var u := TerminateWrites(s, c, x, Rejected, None, why);
    SettledUnfold(u, x);
  }

  /** A retired task without replacement counts as settled, one with a replacement exactly when that does. */
  ghost predicate RetiredBy(s: State, u: State, c: Caller, x: nat, into: Option<nat>, why: Option<string>) {
    && Terminated(s, u, c, x, Retired, into, why)
    && (Settled(u, x) <==> into.None? || Settled(u, into.value))
  }

  lemma RetireWrites(s: State, c: Caller, x: nat, into: Option<nat>, why: Option<string>)
    requires Rows(s) && Retire(s, c, x, into, why).Committed?
    ensures RetiredBy(s, Retire(s, c, x, into, why).state, c, x, into, why)
  {
    var u := TerminateWrites(s, c, x, Retired, into, why);
    SettledUnfold(u, x);
  }

  // ---- reopening ----

  /** The tables with x proposed, as far as waiting is concerned. */
  function Revived(s: State, x: nat): State
    requires x in s.tasks
  {
    s.(tasks := s.tasks[x := s.tasks[x].(status := Proposed)])
  }

  lemma RevivedEdges(s: State, x: nat, p: nat)
    requires x in s.tasks && Closed(s.tasks[x].status)
    ensures s.tasks[x].parent == Some(p) ==> Waits(Revived(s, x)) == Waits(s) + {(p, x)}
    ensures s.tasks[x].parent == None ==> Waits(Revived(s, x)) == Waits(s)
  {
    var u := Revived(s, x);
    forall e: Edge
      ensures e in ChildWaits(u) <==> e in ChildWaits(s) || (e.1 == x && s.tasks[x].parent == Some(e.0))
    {
    }
  }

  lemma RevivedWaits(s: State, x: nat)
    requires Acyclic(Waits(s)) && x in s.tasks && Closed(s.tasks[x].status)
    ensures Acyclic(Waits(Revived(s, x))) <==> !(s.tasks[x].parent.Some? && Reach(Waits(s), x, s.tasks[x].parent.value))
  {
    var p := if s.tasks[x].parent.Some? then s.tasks[x].parent.value else 0;
    RevivedEdges(s, x, p);
    AddEdgeAcyclic(Waits(s), p, x);
  }

  lemma SupportsNothingDone(s: State, x: nat)
    ensures NoDoneDependent(s, x) <==> forall y :: y in s.tasks && (y, x) in s.deps ==> s.tasks[y].status != Done
  {
    if forall y :: y in s.tasks && (y, x) in s.deps ==> s.tasks[y].status != Done {
      forall y | y in s.tasks ensures !DoneDependent(s, x, y) { }
    }
    if NoDoneDependent(s, x) {
      forall y | y in s.tasks && (y, x) in s.deps ensures s.tasks[y].status != Done { assert !DoneDependent(s, x, y); }
    }
  }

  /** What reopening asks of a closed task's surroundings: its plan is not over, its parent, if any, is live, and no done
      task depends on it. */
  predicate Revivable(s: State, x: nat) {
    && x in s.tasks && s.tasks[x].status in {Done, Retired, Rejected}
    && s.tasks[x].plan < |s.plans| && s.plans[s.tasks[x].plan].status in {PlanActive, PlanPaused}
    && (s.tasks[x].parent.Some? ==> LiveTaskOf(s, s.tasks[x].parent.value))
    && (forall y :: y in s.tasks && (y, x) in s.deps ==> s.tasks[y].status != Done)
  }

  lemma ReopenWhen(s: State, c: Caller, x: nat, why: Option<string>)
    requires x in s.tasks && Closed(s.tasks[x].status)
    ensures Reopen(s, c, x, why).Committed? <==>
            && !Over(PlanStatusOf(s, x))
            && (s.tasks[x].parent.Some? ==>
                  s.tasks[x].parent.value in s.tasks && Live(s.tasks[s.tasks[x].parent.value].status))
            && !(s.tasks[x].parent.Some? && Reach(Waits(s), x, s.tasks[x].parent.value))
            && NoDoneDependent(s, x)
  {
  }

  lemma RevivableIs(s: State, x: nat)
    requires x in s.tasks && Closed(s.tasks[x].status)
    ensures Revivable(s, x) <==>
            && !Over(PlanStatusOf(s, x))
            && (s.tasks[x].parent.Some? ==>
                  s.tasks[x].parent.value in s.tasks && Live(s.tasks[s.tasks[x].parent.value].status))
            && NoDoneDependent(s, x)
  {
    SupportsNothingDone(s, x);
  }

  /** Work in progress can always be put back; a closed task reopens exactly when its surroundings allow it and the
      waits stay free of loops. */
  ghost predicate MayReopen(s: State, x: nat) {
    x in s.tasks && (s.tasks[x].status == InProgress || (Revivable(s, x) && Acyclic(Waits(Revived(s, x)))))
  }

  lemma ReopenExactly(s: State, c: Caller, x: nat, why: Option<string>)
    requires Acyclic(Waits(s))
    ensures Reopen(s, c, x, why).Committed? <==> MayReopen(s, x)
  {
    if x in s.tasks && Closed(s.tasks[x].status) {
      ReopenWhen(s, c, x, why);
      RevivedWaits(s, x);
      RevivableIs(s, x);
    }
  }

  /** The task is proposed again, with no result, replacement or pickup. */
  predicate ReopenedBy(s: State, u: State, c: Caller, x: nat, why: Option<string>) {
    && OnlyRow(s, u, x) && SameWork(s.tasks[x], u.tasks[x])
    && u.tasks[x].status == Proposed && u.tasks[x].result == None
    && u.tasks[x].replacement == None && u.tasks[x].pickup == None
    && |u.log| > |s.log| && IsGiven(why, u.log[|s.log|].why)
    && TellsOf(s, u, c, x, u.log[|s.log|].why, StatusChanged(s.tasks[x].status, Proposed, None, s.tasks[x].pickup,
        None, None))
  }

  lemma ReopenWrites(s: State, c: Caller, x: nat, why: Option<string>)
    requires Rows(s) && Reopen(s, c, x, why).Committed?
    ensures ReopenedBy(s, Reopen(s, c, x, why).state, c, x, why)
  {
    assert RowOk(s, s.tasks[x]);
  }
}
