/** Finishing everything by actual calls: waive gates, confirm disputed results, activate plans, complete. */
module Finishing {
  import opened Basics
  import opened Graphs
  import opened Records
  import opened Review
  import opened ReviewFacts
  import opened Waiting
  import opened Lifecycle
  import opened LifecycleSafety
  import opened Definition
  import opened GatesAndPlans
  import opened GatesAndPlansSafety
  import opened Invariants
  import opened Settlement
  import opened Deadlock
  import opened Runs
  import opened Stepping

  /** Calls that add no work and drop none. */
  predicate Finishes(a: Action) { a.DoWaiveGate? || a.DoReview? || a.DoSetPlan? || a.DoStart? || a.DoComplete? }

  ghost predicate AllFinish(calls: seq<Call>) { forall i :: 0 <= i < |calls| ==> Finishes(calls[i].action) }

  ghost predicate AllClosed(s: State) { forall x :: x in s.tasks ==> Closed(s.tasks[x].status) }

  // ---- states that look alike to the hold graph ----

  predicate AlikeRow(t: Task, w: Task) {
    && w.parent == t.parent && w.replacement == t.replacement
    && (w.status == t.status || (Live(w.status) && Live(t.status)))
  }

  ghost predicate Alike(s: State, u: State) {
    u.tasks.Keys == s.tasks.Keys && u.deps == s.deps && forall x :: x in s.tasks ==> AlikeRow(s.tasks[x], u.tasks[x])
  }

  lemma AlikeSettled(s: State, u: State, d: nat)
    requires Alike(s, u)
    ensures Settled(s, d) <==> Settled(u, d)
    ensures forall y :: LeadsTo(s, d, y) <==> LeadsTo(u, d, y)
  {
    forall y ensures LeadsTo(s, d, y) <==> LeadsTo(u, d, y) { SameChains(s, u, d, y); }
    forall y ensures SettledHere(s, y) <==> SettledHere(u, y) { }
  }

  lemma AlikeHolds(s: State, u: State)
    requires Alike(s, u)
    ensures HoldGraph(s) == HoldGraph(u) && (LiveOnRejected(s) <==> LiveOnRejected(u)) && LiveTasks(s) == LiveTasks(u)
  {
    forall e: Edge ensures e in HoldGraph(s) <==> e in HoldGraph(u) {
      forall d ensures LeadsTo(s, d, e.1) <==> LeadsTo(u, d, e.1) { AlikeSettled(s, u, d); }
    }
  }

  lemma AlikeUnheld(s: State, u: State, x: nat)
    requires Alike(s, u)
    ensures Unheld(s, x) <==> Unheld(u, x)
  {
    forall d ensures Settled(s, d) <==> Settled(u, d) { AlikeSettled(s, u, d); }
    forall child | child in s.tasks ensures LiveChild(s, x, child) <==> LiveChild(u, x, child) { }
  }

  lemma AlikeTrans(s: State, u: State, v: State)
    requires Alike(s, u) && Alike(u, v)
    ensures Alike(s, v)
  {
  }

  lemma AlikeMarkDone(s: State, u: State, x: nat)
    requires Alike(s, u) && x in s.tasks
    ensures Alike(MarkDone(s, x), MarkDone(u, x))
  {
  }

  // ---- single calls as steps ----

  lemma FinishJoin(a: seq<Call>, b: seq<Call>)
    requires AllFinish(a) && AllFinish(b)
    ensures AllFinish(a + b)
  {
  }

  lemma FinishFirst(call: Call, rest: seq<Call>)
    requires Finishes(call.action) && AllFinish(rest)
    ensures AllFinish([call] + rest)
  {
    FinishJoin([call], rest);
  }

  lemma StepOfWaive(s: State, c: Caller, x: nat, name: string, why: string)
    requires WaiveGate(s, c, x, name, why).Committed?
    ensures Step(s, Call(c, DoWaiveGate(x, name, why))) == WaiveGate(s, c, x, name, why).state
  {
  }

  lemma StepOfPlan(s: State, c: Caller, slug: string, status: PlanStatus)
    requires SetPlanStatus(s, c, slug, status, None).Committed?
    ensures Step(s, Call(c, DoSetPlan(slug, status, None))) == SetPlanStatus(s, c, slug, status, None).state
  {
  }

  lemma StepOfComplete(s: State, c: Caller, x: nat, result: Option<string>)
    requires Complete(s, c, x, result).Committed?
    ensures Step(s, Call(c, DoComplete(x, result))) == Complete(s, c, x, result).state
  {
  }

  // ---- clearing what completion checks ----

  /** What stays of a task while it is made ready: all but its gates. */
  ghost predicate SameBut(s: State, u: State, x: nat) {
    && Alike(s, u) && x in s.tasks && u.tasks[x] == s.tasks[x].(gates := u.tasks[x].gates)
  }

  lemma SameButTrans(s: State, u: State, v: State, x: nat)
    requires SameBut(s, u, x) && SameBut(u, v, x)
    ensures SameBut(s, v, x)
  {
    AlikeTrans(s, u, v);
  }

  lemma GatesAlike(s: State, u: State, x: nat)
    requires x in s.tasks && u.deps == s.deps
    requires exists gates :: u.tasks == s.tasks[x := s.tasks[x].(gates := gates)]
    ensures SameBut(s, u, x)
  {
  }

  lemma PlanSet(step: (State, Call) -> State, s: State, c: Caller, slug: string, p: nat) returns (u: State)
    requires IsStep(step) && Inv(s) && PlanOfSlug(s, slug) == p < |s.plans|
    ensures step(s, Call(c, DoSetPlan(slug, PlanActive, None))) == u && Inv(u)
    ensures u.tasks == s.tasks && u.deps == s.deps
    ensures |u.plans| == |s.plans| && u.plans[p].status.PlanActive?
  {
    u := SetPlanStatus(s, c, slug, PlanActive, None).state;
    SetPlanStatusSafe(s, c, slug, PlanActive, None);
    StepOfPlan(s, c, slug, PlanActive);
  }

  lemma Activate(step: (State, Call) -> State, s: State, c: Caller, x: nat) returns (call: Call, u: State)
    requires IsStep(step) && Inv(s) && x in s.tasks
    ensures Finishes(call.action) && step(s, call) == u && Inv(u)
    ensures u.tasks == s.tasks && u.deps == s.deps && PlanStatusOf(u, x).PlanActive?
  {
    assert RowOk(s, s.tasks[x]);
    var p := s.tasks[x].plan;
    var slug := s.plans[p].slug;
    assert PlanOfSlug(s, slug) == p;
    call := Call(c, DoSetPlan(slug, PlanActive, None));
    u := PlanSet(step, s, c, slug, p);
  }

  /** An open gate is the one its name finds. */
  lemma FoundByName(gates: seq<Gate>, i: nat)
    requires UniqueGates(gates) && i < |gates|
    ensures FindGate(gates, gates[i].name) == Some(gates[i])
  {
    var found := FindGate(gates, gates[i].name);
    assert gates[i] in gates;
    var k :| 0 <= k < |gates| && gates[k] == found.value;
    assert !(k < i) && !(i < k);
  }

  lemma GateWaived(step: (State, Call) -> State, s: State, c: Caller, x: nat, name: string) returns (u: State)
    requires IsStep(step) && Inv(s) && HasOpenGate(s, x, name)
    ensures step(s, Call(c, DoWaiveGate(x, name, "w"))) == u && Inv(u)
    ensures var g := FindGate(s.tasks[x].gates, name).value.(
                       status := Waived, evidence := None, digest := None, note := Some("w"), resolvedAt := Some(c.at));
            && u.plans == s.plans && u.deps == s.deps
            && u.tasks == s.tasks[x := s.tasks[x].(gates := Replaced(s.tasks[x].gates, name, g))]
  {
    assert Trim("w") == "w";
    u := WaiveGate(s, c, x, name, "w").state;
    SettleGateSafe(s, c, x, name, Waived, None, None, None, Some("w"), true);
    StepOfWaive(s, c, x, name, "w");
  }

  /** The first i gates are settled. */
  predicate WaivedBelow(t: Task, i: nat) { i <= |t.gates| && forall k :: 0 <= k < i ==> !t.gates[k].status.Open? }

  lemma WaivedAll(t: Task)
    requires WaivedBelow(t, |t.gates|)
    ensures !OpenGate(t)
  {
  }

  lemma WaivedAlready(t: Task, i: nat)
    requires WaivedBelow(t, i) && i < |t.gates| && !t.gates[i].status.Open?
    ensures WaivedBelow(t, i + 1)
  {
  }

  lemma GateSettled(t: Task, i: nat, g: Gate)
    requires UniqueGates(t.gates) && i < |t.gates| && g.name == t.gates[i].name && !g.status.Open?
    ensures var gates := Replaced(t.gates, g.name, g);
            |gates| == |t.gates| && (WaivedBelow(t, i) ==> WaivedBelow(t.(gates := gates), i + 1))
  {
    ReplacedGates(t.gates, g.name, g);
  }

  lemma WaiveOne(step: (State, Call) -> State, s: State, c: Caller, x: nat, i: nat) returns (call: Call, u: State)
    requires IsStep(step) && Inv(s) && x in s.tasks && i < |s.tasks[x].gates| && s.tasks[x].gates[i].status.Open?
    ensures Finishes(call.action) && step(s, call) == u && Inv(u) && u.plans == s.plans && SameBut(s, u, x)
    ensures |u.tasks[x].gates| == |s.tasks[x].gates|
    ensures WaivedBelow(s.tasks[x], i) ==> WaivedBelow(u.tasks[x], i + 1)
  {
    var gates := s.tasks[x].gates;
    assert RowOk(s, s.tasks[x]);
    FoundByName(gates, i);
    call := Call(c, DoWaiveGate(x, gates[i].name, "w"));
    u := GateWaived(step, s, c, x, gates[i].name);
    GatesAlike(s, u, x);
    GateSettled(s.tasks[x], i, gates[i].(status := Waived, evidence := None, digest := None, note := Some("w"),
                                         resolvedAt := Some(c.at)));
  }

  lemma {:induction false} WaiveFrom(step: (State, Call) -> State, s: State, c: Caller, x: nat, i: nat)
    returns (calls: seq<Call>, u: State)
    requires IsStep(step) && Inv(s) && x in s.tasks && WaivedBelow(s.tasks[x], i)
    ensures AllFinish(calls) && Run(step, s, calls) == u
    ensures Inv(u) && u.plans == s.plans && SameBut(s, u, x) && !OpenGate(u.tasks[x])
    decreases |s.tasks[x].gates| - i
  {
    if i == |s.tasks[x].gates| {
      calls, u := [], s;
      WaivedAll(s.tasks[x]);
    } else if !s.tasks[x].gates[i].status.Open? {
      WaivedAlready(s.tasks[x], i);
      calls, u := WaiveFrom(step, s, c, x, i + 1);
    } else {
      var call, next := WaiveOne(step, s, c, x, i);
      var rest;
      rest, u := WaiveFrom(step, next, c, x, i + 1);
      RunFirst(step, s, call, rest);
      FinishFirst(call, rest);
      SameButTrans(s, next, u, x);
      calls := [call] + rest;
    }
  }

  /** Someone other than the completer. */
  function Stranger(completer: Option<Author>): (a: Author)
    ensures completer.Some? ==> !SameAuthor(a, completer.value)
  {
    var a := Author(if completer.Some? then completer.value.actor + "x" else "x", None, None, None);
    assert completer.Some? ==> |a.actor| == |completer.value.actor| + 1;
    a
  }

  lemma ConfirmedClaims(before: Claims, filer: Option<Author>, e: Event)
    requires e.payload == Reviewed(OfResult, Confirms)
    ensures var r := FoldEvent(before, filer, e).result; r.Some? ==> r.value.1.state.Confirmed?
  {
  }

  lemma ConfirmedHere(s: State, e: Event, r: nat)
    requires r in s.tasks && TaskEventOf(e, r) && e.payload == Reviewed(OfResult, Confirms)
    ensures !ResultDisputed(Logged(s, e), r)
  {
    ClaimsSnoc(s.log, e, r);
    var filer := Filer(s.log, r);
    ConfirmedClaims(Fold(s.log, r, filer), filer, e);
    assert Logged(s, e).log == s.log + [e];
  }

  lemma SameFoldSameDispute(s: State, u: State, y: nat)
    requires y in s.tasks && u.tasks == s.tasks && Fold(u.log, y, Filer(u.log, y)) == Fold(s.log, y, Filer(s.log, y))
    ensures ResultDisputed(u, y) <==> ResultDisputed(s, y)
  {
  }

  lemma NotConfirmedHere(s: State, e: Event, y: nat)
    requires y in s.tasks && !TaskEventOf(e, y)
    ensures ResultDisputed(Logged(s, e), y) <==> ResultDisputed(s, y)
  {
    ClaimsSnoc(s.log, e, y);
    SameFoldSameDispute(s, Logged(s, e), y);
  }

  /** A confirmation ends the dispute of that result and of no other. */
  lemma Confirmed(s: State, e: Event, r: nat)
    requires r in s.tasks && TaskEventOf(e, r) && e.payload == Reviewed(OfResult, Confirms)
    ensures forall y :: y in s.tasks ==> (ResultDisputed(Logged(s, e), y) <==> ResultDisputed(s, y) && y != r)
  {
    ConfirmedHere(s, e, r);
    forall y | y in s.tasks && y != r ensures ResultDisputed(Logged(s, e), y) <==> ResultDisputed(s, y) {
      NotConfirmedHere(s, e, y);
    }
  }

  lemma DisputesAfter(s: State, e: Event, x: nat, r: nat)
    requires DisputedFor(s, x, r) && TaskEventOf(e, r) && e.payload == Reviewed(OfResult, Confirms)
    ensures Disputes(Logged(s, e), x) == Disputes(s, x) - {r}
  {
    Confirmed(s, e, r);
  }

  lemma ResultConfirmed(step: (State, Call) -> State, s: State, c: Caller, r: nat) returns (e: Event)
    requires IsStep(step) && r in s.tasks && s.tasks[r].status.Done?
    requires var completer := Completer(s.log, r); completer.Some? ==> !SameAuthor(c.author, completer.value)
    ensures step(s, Call(c, DoReview(r, OfResult, Confirms, "v"))) == Logged(s, e)
    ensures TaskEventOf(e, r) && e.payload == Reviewed(OfResult, Confirms)
  {
    assert Trim("v") == "v";
    e := OnTask(s, c, r, Some("v"), Reviewed(OfResult, Confirms));
    assert Step(s, Call(c, DoReview(r, OfResult, Confirms, "v"))) == Logged(s, e);
  }

  lemma ConfirmOne(step: (State, Call) -> State, s: State, x: nat, r: nat) returns (call: Call, u: State)
    requires IsStep(step) && Inv(s) && DisputedFor(s, x, r)
    ensures Finishes(call.action) && step(s, call) == u && Inv(u)
    ensures u.plans == s.plans && u.tasks == s.tasks && u.deps == s.deps && Disputes(u, x) == Disputes(s, x) - {r}
  {
    var c := Caller(Stranger(Completer(s.log, r)), "", None);
    call := Call(c, DoReview(r, OfResult, Confirms, "v"));
    var e := ResultConfirmed(step, s, c, r);
    u := Logged(s, e);
    InvLogged(s, e);
    DisputesAfter(s, e, x, r);
  }

  ghost function Disputes(s: State, x: nat): (d: set<nat>)
    ensures forall r :: r in d <==> DisputedFor(s, x, r)
  {
    set r | r in s.tasks && DisputedFor(s, x, r)
  }

  lemma {:induction false} ConfirmAll(step: (State, Call) -> State, s: State, x: nat)
    returns (calls: seq<Call>, u: State)
    requires IsStep(step) && Inv(s)
    ensures AllFinish(calls) && Run(step, s, calls) == u
    ensures Inv(u) && u.plans == s.plans && u.tasks == s.tasks && u.deps == s.deps && Undisputed(u, x)
    decreases Disputes(s, x)
  {
    if Disputes(s, x) == {} {
      calls, u := [], s;
    } else {
      var r :| r in Disputes(s, x);
      var call, next := ConfirmOne(step, s, x, r);
      var rest;
      rest, u := ConfirmAll(step, next, x);
      RunFirst(step, s, call, rest);
      FinishFirst(call, rest);
      calls := [call] + rest;
    }
  }

  /** Active plan, no open gate, no dispute: what completion checks besides what the hold graph knows. */
  ghost predicate Cleared(s: State, x: nat) {
    Unheld(s, x) && PlanStatusOf(s, x).PlanActive? && !OpenGate(s.tasks[x]) && Undisputed(s, x)
  }

  lemma ClearedCommits(s: State, c: Caller, x: nat)
    requires Cleared(s, x)
    ensures Complete(s, c, x, Some("r")).Committed?
  {
    assert Trim("r") == "r";
  }

  lemma CompleteCleared(step: (State, Call) -> State, s: State, c: Caller, x: nat) returns (u: State)
    requires IsStep(step) && Inv(s) && Cleared(s, x)
    ensures step(s, Call(c, DoComplete(x, Some("r")))) == u && Inv(u) && Alike(MarkDone(s, x), u)
  {
    ClearedCommits(s, c, x);
    u := Complete(s, c, x, Some("r")).state;
    CompleteSafe(s, c, x, Some("r"));
    CompletedAlike(s, c, x, Some("r"));
    StepOfComplete(s, c, x, Some("r"));
  }

  lemma ClearTask(step: (State, Call) -> State, s: State, c: Caller, x: nat) returns (calls: seq<Call>, u: State)
    requires IsStep(step) && Inv(s) && Unheld(s, x)
    ensures AllFinish(calls) && Run(step, s, calls) == u && Inv(u) && Alike(s, u) && Cleared(u, x)
  {
    var activate, s1 := Activate(step, s, c, x);
    var waive, s2 := WaiveFrom(step, s1, c, x, 0);
    var confirm;
    confirm, u := ConfirmAll(step, s2, x);
    AlikeReady(s, s1, s2, u, x);
    RunFirst(step, s, activate, waive + confirm);
    RunJoin(step, s1, waive, confirm);
    FinishJoin(waive, confirm);
    FinishFirst(activate, waive + confirm);
    calls := [activate] + (waive + confirm);
  }

  /** A task nothing holds can be finished by calls that change no other task's part in the hold graph. */
  lemma FinishOne(step: (State, Call) -> State, s: State, c: Caller, x: nat) returns (calls: seq<Call>, u: State)
    requires IsStep(step) && Inv(s) && Unheld(s, x)
    ensures AllFinish(calls) && Run(step, s, calls) == u && Inv(u) && Alike(MarkDone(s, x), u)
  {
    var clear, ready := ClearTask(step, s, c, x);
    u := CompleteCleared(step, ready, c, x);
    AlikeMarkDone(s, ready, x);
    AlikeTrans(MarkDone(s, x), MarkDone(ready, x), u);
    var complete := Call(c, DoComplete(x, Some("r")));
    RunLast(step, s, clear, complete);
    FinishJoin(clear, [complete]);
    calls := clear + [complete];
  }

  lemma AlikeReady(s: State, s1: State, s2: State, s3: State, x: nat)
    requires Unheld(s, x) && s1.tasks == s.tasks && s1.deps == s.deps && PlanStatusOf(s1, x).PlanActive?
    requires SameBut(s1, s2, x) && s2.plans == s1.plans
    requires s3.plans == s2.plans && s3.tasks == s2.tasks && s3.deps == s2.deps
    ensures Alike(s, s3) && Unheld(s3, x) && PlanStatusOf(s3, x).PlanActive?
  {
    AlikeUnheld(s, s3, x);
  }

  // ---- everything ----

  lemma {:induction false} FinishAll(step: (State, Call) -> State, s: State, c: Caller) returns (calls: seq<Call>)
    requires IsStep(step) && Inv(s) && Drainable(s)
    ensures AllFinish(calls) && AllClosed(Run(step, s, calls))
    decreases LiveTasks(s)
  {
    if LiveTasks(s) == {} {
      calls := [];
      forall x | x in s.tasks ensures Closed(s.tasks[x].status) { assert x !in LiveTasks(s); }
    } else {
      var one, u := FinishNext(step, s, c);
      var rest := FinishAll(step, u, c);
      RunJoin(step, s, one, rest);
      FinishJoin(one, rest);
      calls := one + rest;
    }
  }

  lemma FinishNext(step: (State, Call) -> State, s: State, c: Caller) returns (calls: seq<Call>, u: State)
    requires IsStep(step) && Inv(s) && Drainable(s) && LiveTasks(s) != {}
    ensures AllFinish(calls) && Run(step, s, calls) == u && Inv(u) && Drainable(u) && LiveTasks(u) < LiveTasks(s)
  {
    InvLinks(s);
    var x := NextToFinish(s);
    calls, u := FinishOne(step, s, c, x);
    AlikeHolds(MarkDone(s, x), u);
    OneLess(s, x);
  }

  lemma OneLess(s: State, x: nat)
    requires x in LiveTasks(s)
    ensures LiveTasks(MarkDone(s, x)) < LiveTasks(s)
  {
    assert LiveTasks(MarkDone(s, x)) == LiveTasks(s) - {x};
  }

  /** One such call leads to a drainable state only from a drainable one. */
  lemma DrainableBefore(s: State, call: Call)
    requires Inv(s) && Finishes(call.action) && Drainable(Step(s, call))
    ensures Drainable(s)
  {
    var u := Step(s, call);
    if Perform(s, call).Committed? && call.action.DoComplete? {
      var x := call.action.x;
      CompletedAlike(s, call.caller, x, call.action.result);
      AlikeHolds(MarkDone(s, x), u);
      InvLinks(s);
      DrainableWithout(s, x);
    } else {
      OtherFinishAlike(s, call);
      AlikeHolds(s, u);
    }
  }

  lemma CompletedAlike(s: State, c: Caller, x: nat, result: Option<string>)
    requires Inv(s) && Complete(s, c, x, result).Committed?
    ensures Unheld(s, x) && Alike(MarkDone(s, x), Complete(s, c, x, result).state)
  {
    assert RowOk(s, s.tasks[x]);
  }

  lemma AlikeItself(s: State)
    ensures Alike(s, s)
  {
  }

  /** Which step an admitted call other than a completion takes. */
  lemma OtherFinishes(s: State, call: Call) returns (u: State)
    requires Finishes(call.action) && !call.action.DoComplete? && Perform(s, call).Committed?
    ensures Step(s, call) == u
    ensures var c, a := call.caller, call.action;
            || (a.DoStart? && PerformStatus(s, c, a) == Committed(u))
            || (a.DoWaiveGate? && PerformGate(s, c, a) == Committed(u))
            || ((a.DoSetPlan? || a.DoReview?) && PerformPlan(s, c, a) == Committed(u))
  {
    u := Step(s, call);
  }

  lemma OtherFinishAlike(s: State, call: Call)
    requires Inv(s) && Finishes(call.action) && (call.action.DoComplete? ==> Perform(s, call).Refused?)
    ensures Alike(s, Step(s, call))
  {
    var c, a := call.caller, call.action;
    if Perform(s, call).Refused? {
      AlikeItself(s);
    } else {
      var u := OtherFinishes(s, call);
      if a.DoStart? {
        StartAlike(s, c, a);
      } else if a.DoWaiveGate? {
        WaiveAlike(s, c, a);
      } else {
        PlanAlike(s, c, a);
      }
    }
  }

  lemma PlanAlike(s: State, c: Caller, a: Action)
    requires (a.DoSetPlan? || a.DoReview?) && PerformPlan(s, c, a).Committed?
    ensures Alike(s, PerformPlan(s, c, a).state)
  {
  }

  lemma StartAlike(s: State, c: Caller, a: Action)
    requires Rows(s) && a.DoStart? && PerformStatus(s, c, a).Committed?
    ensures Alike(s, PerformStatus(s, c, a).state)
  {
    assert RowOk(s, s.tasks[a.x]);
  }

  lemma WaiveAlike(s: State, c: Caller, a: Action)
    requires a.DoWaiveGate? && PerformGate(s, c, a).Committed?
    ensures Alike(s, PerformGate(s, c, a).state)
  {
  }

  lemma {:induction false} FinishedWasDrainable(s: State, calls: seq<Call>)
    requires Inv(s) && AllFinish(calls) && AllClosed(After(s, calls))
    ensures Drainable(s)
    decreases |calls|
  {
    if calls == [] {
      assert HoldGraph(s) == {};
      RankAcyclic({}, map[]);
    } else {
      var rest := calls[1..];
      assert calls == [calls[0]] + rest;
      FirstThenRest(s, calls[0], rest);
      StepSafe(s, calls[0]);
      FinishedWasDrainable(Step(s, calls[0]), rest);
      DrainableBefore(s, calls[0]);
    }
  }

  /** From a sound state, some sequence of waivers, reviews, plan activations, starts and completions closes every task
      exactly when the hold graph is acyclic and no live task depends on a rejected one. */
  lemma FinishableExactly(s: State, c: Caller)
    requires Inv(s)
    ensures (exists calls :: AllFinish(calls) && AllClosed(After(s, calls))) <==> Drainable(s)
  {
    if Drainable(s) {
      var step := (u: State, call: Call) => Step(u, call);
      var calls := FinishAll(step, s, c);
      RunIsAfter(step, s, calls);
      assert AllFinish(calls) && AllClosed(After(s, calls));
    }
    if calls :| AllFinish(calls) && AllClosed(After(s, calls)) {
      FinishedWasDrainable(s, calls);
    }
  }
}
