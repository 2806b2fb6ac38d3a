/** When a task is created, exactly, and what the creation stores and records. */
module CreationEffects {
  import opened Basics
  import opened Graphs
  import opened Records
  import opened Waiting
  import opened Lifecycle
  import opened Definition
  import opened DefinitionSafety
  import opened Invariants
  import opened OutlineSoundness
  import opened HoldGrowth
  import opened HoldCalls
  import opened LinkEffects
  import opened Review
  import opened OutlineStart
  import opened Runs
  import opened StatusEffects
  import opened HistoryRuns

  // ---- numbers and plans ----

  /** The first number above every stored one. */
  predicate FirstNumber(s: State, x: nat) {
    x > 0 && (forall y :: y in s.tasks ==> y < x) && (x > 1 ==> x - 1 in s.tasks)
  }

  lemma NextIsFirst(s: State)
    ensures FirstNumber(s, NextTask(s))
  {
    if NextTask(s) > 1 { assert NextTask(s) - 1 in s.tasks.Keys; }
  }

  /** The plan asked for: by position, by slug, the parent's, or the only active one. */
  predicate Selects(s: State, selector: PlanSelector, parent: Option<nat>, p: nat) {
    p < |s.plans| &&
    match selector
    case ById(plan) => p == plan
    case BySlug(slug) => s.plans[p].slug == slug
    case ByActivity =>
      if parent.Some? then parent.value in s.tasks && s.tasks[parent.value].plan == p
      else
        && s.plans[p].status == PlanActive
        && forall q :: 0 <= q < |s.plans| && q != p ==> s.plans[q].status != PlanActive
  }

  lemma SelectedExactly(s: State, selector: PlanSelector, parent: Option<nat>, p: nat)
    requires PlansOk(s)
    ensures Selects(s, selector, parent, p) <==> p < |s.plans| && SelectedPlan(s, selector, parent) == p
  {
    if selector.ByActivity? && parent.None? {
      if Selects(s, selector, parent, p) { assert OnlyActive(s, p); }
    }
  }

  // ---- when ----

  /** What creation asks of the new task's plan and parent. */
  predicate MayJoin(s: State, plan: nat, parent: Option<nat>) {
    && plan < |s.plans| && s.plans[plan].status in {PlanActive, PlanPaused}
    && (parent.Some? ==> parent.value in s.tasks && s.tasks[parent.value].plan == plan
                         && s.tasks[parent.value].status in {Proposed, InProgress})
  }

  /** Prerequisites named once each, viable, and none of them waiting for the parent. */
  ghost predicate MayDepend(s: State, deps: seq<nat>, parent: Option<nat>) {
    && Distinct(deps) && (forall d :: d in deps ==> LinkEffects.Viable(s, d))
    && (parent.Some? ==> forall d :: d in deps ==> !Reach(Waits(s), d, parent.value))
  }

  lemma {:induction false} AddDepsAdmit(s: State, c: Caller, x: nat, deps: seq<nat>, why: Option<string>)
    requires AddDeps(s, c, x, deps, why).Committed?
    ensures Distinct(deps)
    ensures forall d :: d in deps ==> LinkEffects.Viable(s, d) && (x, d) !in s.deps && !Reach(Waits(s), d, x)
    decreases |deps|
  {
    if deps != [] {
      var u, rest := AddDep(s, c, x, deps[0], why).state, deps[1..];
      AddDepsAdmit(u, c, x, rest, why);
      assert Waits(s) <= Waits(u) by { assert ChildWaits(u) == ChildWaits(s); }
      forall d | d in rest
        ensures LinkEffects.Viable(s, d) && (x, d) !in s.deps && !Reach(Waits(s), d, x) && d != deps[0]
      {
        if Reach(Waits(s), d, x) { ReachMono(Waits(s), Waits(u), d, x); }
      }
      assert deps == [deps[0]] + rest;
    }
  }

  /** A fresh task waits for nothing, and only its parent waits for it. */
  lemma RowWaits(s: State, c: Caller, plan: nat, n: Creation) returns (row: State)
    requires Rows(s) && CreateRow(s, c, plan, n).Committed?
    ensures CreateRow(s, c, plan, n) == Committed(row)
    ensures forall e :: e in Waits(row) <==> e in Waits(s) || (n.parent == Some(e.0) && e.1 == NextTask(s))
  {
    row := CreateRow(s, c, plan, n).state;
    var x := NextTask(s);
    forall e: Edge ensures e in ChildWaits(row) <==> e in ChildWaits(s) || (n.parent == Some(e.0) && e.1 == x) { }
  }

  lemma NoWaitTouches(s: State, x: nat, e: Edge)
    requires Rows(s) && DepsOk(s) && x !in s.tasks && e in Waits(s)
    ensures e.0 != x && e.1 != x
  {
    if e in ChildWaits(s) { assert ParentOk(s, s.tasks[e.1]); }
  }

  /** The new task with all its prerequisites closes no wait loop exactly when none of them waits for the parent. */
  lemma NewTaskWaits(s: State, x: nat, parent: Option<nat>, deps: seq<nat>, h: Graph)
    requires Rows(s) && DepsOk(s) && Acyclic(Waits(s)) && x !in s.tasks && forall d :: d in deps ==> d in s.tasks
    requires parent.Some? ==> parent.value in s.tasks
    requires forall e :: e in h <==> e in Waits(s) || (parent == Some(e.0) && e.1 == x) || (e.0 == x && e.1 in deps)
    requires parent.Some? ==> forall d :: d in deps ==> !Reach(Waits(s), d, parent.value)
    ensures Acyclic(h)
  {
    var sources := if parent.Some? then {parent.value} else {};
    forall e | e in Waits(s) ensures e.0 != x && e.1 != x { NoWaitTouches(s, x, e); }
    assert Inside(h, {x}) == {};
    RankAcyclic({}, map[]);
    assert SetIn(Waits(s), h, {x}, sources);
    SetInAcyclic(Waits(s), h, {x}, sources);
  }

  lemma LinksAdmitted(s: State, row: State, c: Caller, x: nat, n: Creation)
    requires Rows(s) && DepsOk(s) && Acyclic(Waits(s)) && x !in s.tasks && row.deps == s.deps && Quiet(s, row)
    requires x in row.tasks && Live(row.tasks[x].status) && (n.parent.Some? ==> n.parent.value in s.tasks)
    requires forall y :: y in s.tasks ==> y in row.tasks && row.tasks[y] == s.tasks[y]
    requires forall e :: e in Waits(row) <==> e in Waits(s) || (n.parent == Some(e.0) && e.1 == x)
    requires MayDepend(s, n.deps, n.parent)
    ensures AddDeps(row, c, x, n.deps, n.why).Committed?
  {
    var g := Waits(row) + EdgesFrom(x, n.deps);
    NewTaskWaits(s, x, n.parent, n.deps, g);
    forall t | t in n.deps ensures Linkable(row, x, t) && (x, t) in g {
      var e: Edge := (x, t);
      assert e in s.deps ==> e.0 in s.tasks;
    }
    var v := LinkOne(s, row, c, x, n.deps, n.why, g);
  }

  lemma RowExactly(s: State, c: Caller, plan: nat, n: Creation)
    ensures CreateRow(s, c, plan, n).Committed? <==>
            n.kind != Work && 1 <= |Trim(n.title)| <= 160 && MayJoin(s, plan, n.parent)
  {
  }

  lemma DepsExactly(s: State, c: Caller, plan: nat, n: Creation)
    requires Inv(s) && CreateRow(s, c, plan, n).Committed?
    ensures AddDeps(CreateRow(s, c, plan, n).state, c, NextTask(s), n.deps, n.why).Committed? <==>
            MayDepend(s, n.deps, n.parent)
  {
    var x := NextTask(s);
    var row := RowWaits(s, c, plan, n);
    if AddDeps(row, c, x, n.deps, n.why).Committed? {
      AddDepsAdmit(row, c, x, n.deps, n.why);
      Admitted(s, row, c, plan, n);
    }
    if MayDepend(s, n.deps, n.parent) { LinksAdmitted(s, row, c, x, n); }
  }

  /** A task is created with all its prerequisites exactly when its kind, title, plan, parent and prerequisites are
      usable; one unusable prerequisite undoes all of it. */
  lemma CreateExactly(s: State, c: Caller, plan: nat, n: Creation)
    requires Inv(s)
    ensures Create(s, c, plan, n).Committed? <==>
            n.kind != Work && 1 <= |Trim(n.title)| <= 160 && MayJoin(s, plan, n.parent)
              && MayDepend(s, n.deps, n.parent)
  {
    RowExactly(s, c, plan, n);
    if CreateRow(s, c, plan, n).Committed? { DepsExactly(s, c, plan, n); }
  }

  lemma Admitted(s: State, row: State, c: Caller, plan: nat, n: Creation)
    requires Rows(s) && CreateRow(s, c, plan, n) == Committed(row) && Distinct(n.deps)
    requires forall d :: d in n.deps ==> LinkEffects.Viable(row, d) && !Reach(Waits(row), d, NextTask(s))
    requires forall e :: e in Waits(row) <==> e in Waits(s) || (n.parent == Some(e.0) && e.1 == NextTask(s))
    ensures MayDepend(s, n.deps, n.parent)
  {
    var x := NextTask(s);
    ReachSelf(Waits(row), x);
    forall d | d in n.deps
      ensures LinkEffects.Viable(s, d) && (n.parent.Some? ==> !Reach(Waits(s), d, n.parent.value))
    {
      assert d != x;
      if n.parent.Some? && Reach(Waits(s), d, n.parent.value) {
        var p := n.parent.value;
        ReachMono(Waits(s), Waits(row), d, p);
        ReachEdge(Waits(row), p, x);
        ReachTrans(Waits(row), d, p, x);
      }
    }
  }

  // ---- what is stored ----

  /** A row as created: what was asked for, and nothing begun. */
  predicate CreatedRow(v: Task, plan: nat, parent: Option<nat>, title: string, intent: string, kind: Kind,
                       priority: Priority) {
    && v.plan == plan && v.parent == parent && v.title == Trim(title) && v.intent == intent && v.kind == kind
    && v.priority == priority && v.replacement == None && v.result == None && v.gates == []
  }

  /** Proposed and picked up by nobody, or started by this caller. */
  predicate Begun(v: Task, started: bool, c: Caller, session: Option<string>) {
    if started then v.status == InProgress && v.pickup == Some(Pickup(session, c.at, c.owner))
    else v.status == Proposed && v.pickup == None
  }

  /** An event of this caller about task x, which belongs to the plan with that slug. */
  predicate SaidOf(e: Event, c: Caller, entity: Entity, slug: string, x: nat, why: Option<string>, payload: Payload) {
    e == Event(c.at, c.author, entity, Some(slug), Some(x), None, why, payload)
  }

  lemma RowWrites(s: State, c: Caller, plan: nat, n: Creation) returns (u: State)
    requires CreateRow(s, c, plan, n).Committed?
    ensures CreateRow(s, c, plan, n) == Committed(u) && plan < |s.plans|
    ensures u.plans == s.plans && u.deps == s.deps && u.tasks == s.tasks[NextTask(s) := u.tasks[NextTask(s)]]
    ensures NextTask(s) in u.tasks && CreatedRow(u.tasks[NextTask(s)], plan, n.parent, n.title, n.intent, n.kind,
        n.priority)
    ensures Begun(u.tasks[NextTask(s)], false, c, None)
    ensures |u.log| == |s.log| + 1 && s.log <= u.log
    ensures SaidOf(u.log[|s.log|], c, TaskEntity, s.plans[plan].slug, NextTask(s), n.why, Created(Trim(n.title),
        n.kind))
  {
    u := CreateRow(s, c, plan, n).state;
  }

  /** From position `at` on, the log tells of these dependencies one after the other. */
  predicate DepsTold(log: seq<Event>, at: nat, c: Caller, slug: string, x: nat, why: Option<string>, deps: seq<nat>) {
    && at + |deps| <= |log|
    && forall i :: 0 <= i < |deps| ==> SaidOf(log[at + i], c, DepEntity, slug, x, why, DepAdded(deps[i]))
  }

  lemma DepsToldFirst(log: seq<Event>, at: nat, c: Caller, slug: string, x: nat, why: Option<string>, deps: seq<nat>)
    requires deps != [] && DepsTold(log, at + 1, c, slug, x, why, deps[1..])
    requires SaidOf(log[at], c, DepEntity, slug, x, why, DepAdded(deps[0]))
    ensures DepsTold(log, at, c, slug, x, why, deps)
  {
    forall i | 0 <= i < |deps| ensures SaidOf(log[at + i], c, DepEntity, slug, x, why, DepAdded(deps[i])) {
      if i > 0 { assert SaidOf(log[at + 1 + (i - 1)], c, DepEntity, slug, x, why, DepAdded(deps[1..][i - 1])); }
    }
  }

  lemma OneDepTold(s: State, c: Caller, x: nat, on: nat, why: Option<string>) returns (u: State)
    requires AddDep(s, c, x, on, why).Committed? && s.tasks[x].plan < |s.plans|
    ensures AddDep(s, c, x, on, why) == Committed(u) && u.plans == s.plans && u.tasks == s.tasks
    ensures |u.log| == |s.log| + 1 && s.log <= u.log
    ensures SaidOf(u.log[|s.log|], c, DepEntity, s.plans[s.tasks[x].plan].slug, x, why, DepAdded(on))
  {
    u := AddDep(s, c, x, on, why).state;
  }

  lemma {:induction false} DepsLog(s: State, c: Caller, x: nat, deps: seq<nat>, why: Option<string>) returns (u: State)
    requires AddDeps(s, c, x, deps, why).Committed? && x in s.tasks && s.tasks[x].plan < |s.plans|
    ensures AddDeps(s, c, x, deps, why) == Committed(u) && u.plans == s.plans
    ensures |u.log| == |s.log| + |deps| && s.log <= u.log
    ensures DepsTold(u.log, |s.log|, c, s.plans[s.tasks[x].plan].slug, x, why, deps)
    decreases |deps|
  {
    if deps == [] {
      u := s;
    } else {
      var v := OneDepTold(s, c, x, deps[0], why);
      u := DepsLog(v, c, x, deps[1..], why);
      assert u.log[|s.log|] == v.log[|s.log|];
      DepsToldFirst(u.log, |s.log|, c, s.plans[s.tasks[x].plan].slug, x, why, deps);
    }
  }

  lemma DepsWrite(s: State, c: Caller, x: nat, deps: seq<nat>, why: Option<string>) returns (u: State)
    requires AddDeps(s, c, x, deps, why).Committed? && x in s.tasks && s.tasks[x].plan < |s.plans|
    ensures AddDeps(s, c, x, deps, why) == Committed(u)
    ensures u.plans == s.plans && u.tasks == s.tasks
    ensures forall e :: e in u.deps <==> e in s.deps || (e.0 == x && e.1 in deps)
    ensures |u.log| == |s.log| + |deps| && s.log <= u.log
    ensures DepsTold(u.log, |s.log|, c, s.plans[s.tasks[x].plan].slug, x, why, deps)
  {
    u := DepsLog(s, c, x, deps, why);
    var v := AddDepsLinks(s, c, x, deps, why);
  }

  lemma StartNew(s: State, c: Caller, x: nat, why: Option<string>, session: Option<string>) returns (u: State)
    requires Start(s, c, x, why, session).Committed? && x in s.tasks && s.tasks[x].status == Proposed
    requires s.tasks[x].result == None && s.tasks[x].replacement == None && s.tasks[x].plan < |s.plans|
    ensures Start(s, c, x, why, session) == Committed(u)
    ensures u.plans == s.plans && u.deps == s.deps
    ensures var mine := Some(Pickup(session, c.at, c.owner));
            && u.tasks == s.tasks[x := s.tasks[x].(status := InProgress, pickup := mine)]
            && u.log == s.log + [u.log[|u.log| - 1]]
            && SaidOf(u.log[|u.log| - 1], c, TaskEntity, s.plans[s.tasks[x].plan].slug, x, why,
                      StatusChanged(Proposed, InProgress, None, s.tasks[x].pickup, mine, None))
  {
    u := Start(s, c, x, why, session).state;
  }

  /** The log after a creation: the creation, its prerequisites in the order given, and the start, if asked for. */
  predicate CreationTold(s: State, u: State, c: Caller, x: nat, n: Creation, slug: string, start: bool,
                         session: Option<string>) {
    var k := |s.log| + 1 + |n.deps|;
    && |u.log| == k + (if start then 1 else 0) && s.log <= u.log
    && SaidOf(u.log[|s.log|], c, TaskEntity, slug, x, n.why, Created(Trim(n.title), n.kind))
    && DepsTold(u.log, |s.log| + 1, c, slug, x, n.why, n.deps)
    && (start ==> SaidOf(u.log[k], c, TaskEntity, slug, x, n.why,
                         StatusChanged(Proposed, InProgress, None, None, Some(Pickup(session, c.at, c.owner)), None)))
  }

  lemma CreateWrites(s: State, c: Caller, plan: nat, n: Creation) returns (u: State)
    requires Create(s, c, plan, n).Committed?
    ensures Create(s, c, plan, n) == Committed(u) && plan < |s.plans|
    ensures var x := NextTask(s);
            && u.plans == s.plans && x in u.tasks && u.tasks == s.tasks[x := u.tasks[x]]
            && CreatedRow(u.tasks[x], plan, n.parent, n.title, n.intent, n.kind, n.priority)
            && Begun(u.tasks[x], false, c, None)
            && (forall e :: e in u.deps <==> e in s.deps || (e.0 == x && e.1 in n.deps))
            && CreationTold(s, u, c, x, n, s.plans[plan].slug, false, None)
  {
    var x := NextTask(s);
    var row := RowWrites(s, c, plan, n);
    u := DepsWrite(row, c, x, n.deps, n.why);
    assert u.log[|s.log|] == row.log[|s.log|];
  }

  /** A new task takes the next number and the plan asked for, carries what was asked for, depends on exactly the tasks
      named, and is started by this caller if that was asked; no other task, plan or edge changes. */
  ghost predicate TaskAdded(s: State, u: State, c: Caller, selector: PlanSelector, n: Creation, start: bool,
                            session: Option<string>, x: nat, plan: nat)
  {
    && FirstNumber(s, x) && Selects(s, selector, n.parent, plan)
    && u.plans == s.plans && x in u.tasks && u.tasks == s.tasks[x := u.tasks[x]]
    && CreatedRow(u.tasks[x], plan, n.parent, n.title, n.intent, n.kind, n.priority)
    && Begun(u.tasks[x], start, c, session)
    && (forall e :: e in u.deps <==> e in s.deps || (e.0 == x && e.1 in n.deps))
    && CreationTold(s, u, c, x, n, s.plans[plan].slug, start, session)
  }

  lemma AddTaskWrites(s: State, c: Caller, selector: PlanSelector, n: Creation, start: bool, session: Option<string>)
    returns (x: nat, plan: nat)
    requires PlansOk(s) && AddTask(s, c, selector, n, start, session).Committed?
    ensures TaskAdded(s, AddTask(s, c, selector, n, start, session).state, c, selector, n, start, session, x, plan)
  {
    x, plan := NextTask(s), SelectedPlan(s, selector, n.parent);
    NextIsFirst(s);
    SelectedExactly(s, selector, n.parent, plan);
    var u := CreateWrites(s, c, plan, n);
    if start {
      var v := StartNew(u, c, x, n.why, session);
      assert v.tasks[x] == u.tasks[x].(status := InProgress, pickup := Some(Pickup(session, c.at, c.owner)));
      ToldLater(s, u, v, c, x, n, s.plans[plan].slug, session);
    }
  }

  lemma ToldLater(s: State, u: State, v: State, c: Caller, x: nat, n: Creation, slug: string, session: Option<string>)
    requires CreationTold(s, u, c, x, n, slug, false, None) && v.log != [] && v.log == u.log + [v.log[|v.log| - 1]]
    requires SaidOf(v.log[|v.log| - 1], c, TaskEntity, slug, x, n.why,
                    StatusChanged(Proposed, InProgress, None, None, Some(Pickup(session, c.at, c.owner)), None))
    ensures CreationTold(s, v, c, x, n, slug, true, session)
  {
    forall i | 0 <= i < |u.log| ensures v.log[i] == u.log[i] { }
  }

  // ---- creating and starting in one call ----

  lemma ToldIsQuiet(s: State, u: State, c: Caller, x: nat, n: Creation, slug: string)
    requires x !in s.tasks && CreationTold(s, u, c, x, n, slug, false, None)
    ensures Quiet(s, u)
  {
    forall i, y | |s.log| <= i < |u.log| && y in s.tasks ensures !About(u.log[i], y) {
      if i > |s.log| {
        assert SaidOf(u.log[|s.log| + 1 + (i - |s.log| - 1)], c, DepEntity, slug, x, n.why,
            DepAdded(n.deps[i - |s.log| - 1]));
      }
    }
  }

  /** A prerequisite that is done while its result stands disputed. */
  ghost predicate DisputedAmong(s: State, deps: seq<nat>) {
    exists d :: d in deps && d in s.tasks && s.tasks[d].status == Done && DisputedInLog(s.log, d)
  }

  lemma NewTaskUndisputed(s: State, u: State, x: nat, parent: Option<nat>, deps: seq<nat>)
    requires Rows(s) && DisputesLogged(s) && x !in s.tasks && Quiet(s, u) && x in u.tasks
             && u.tasks == s.tasks[x := u.tasks[x]]
    requires u.tasks[x].parent == parent && u.tasks[x].status == Proposed && (parent.Some? ==> parent.value in s.tasks)
    requires forall e :: e in u.deps <==> e in s.deps || (e.0 == x && e.1 in deps)
    requires forall d: nat :: (x, d) !in s.deps
    ensures Undisputed(u, x) <==> !DisputedAmong(s, deps)
  {
    forall r | r in s.tasks ensures ResultDisputed(u, r) <==> ResultDisputed(s, r) { QuietResults(s, u, r); }
    forall r | r in s.tasks
      ensures DisputedFor(u, x, r) <==> s.tasks[r].status == Done && r in deps && ResultDisputed(s, r)
    {
      assert ParentOk(s, s.tasks[r]);
    }
  }

  lemma StartNewExactly(s: State, u: State, c: Caller, x: nat, why: Option<string>, session: Option<string>)
    requires x in u.tasks && Begun(u.tasks[x], false, c, None) && u.tasks[x].gates == [] && u.tasks[x].plan < |u.plans|
    ensures Start(u, c, x, why, session).Committed? <==>
            && (session.Some? ==> ValidSession(session.value)) && u.plans[u.tasks[x].plan].status == PlanActive
                 && Undisputed(u, x)
  {
  }

  /** What creating with an immediate start asks besides. */
  ghost predicate MayBegin(s: State, plan: nat, deps: seq<nat>, session: Option<string>) {
    && (session.Some? ==> ValidSession(session.value))
    && plan < |s.plans| && s.plans[plan].status == PlanActive && !DisputedAmong(s, deps)
  }

  lemma StartedCreation(s: State, c: Caller, plan: nat, n: Creation, session: Option<string>)
    requires Inv(s) && DisputesLogged(s) && Create(s, c, plan, n).Committed?
    ensures Start(Create(s, c, plan, n).state, c, NextTask(s), n.why, session).Committed? <==>
            MayBegin(s, plan, n.deps, session)
  {
    var x := NextTask(s);
    var u := CreateWrites(s, c, plan, n);
    ToldIsQuiet(s, u, c, x, n, s.plans[plan].slug);
    forall d: nat ensures (x, d) !in s.deps {
      var e: Edge := (x, d);
      assert e in s.deps ==> e.0 in s.tasks;
    }
    CreateExactly(s, c, plan, n);
    NewTaskUndisputed(s, u, x, n.parent, n.deps);
    StartNewExactly(s, u, c, x, n.why, session);
  }

  /** Into this plan the task can be added, and started if that is asked. */
  ghost predicate MayAdd(s: State, selector: PlanSelector, n: Creation, start: bool, session: Option<string>,
                         plan: nat) {
    && Selects(s, selector, n.parent, plan)
    && n.kind != Work && 1 <= |Trim(n.title)| <= 160
    && MayJoin(s, plan, n.parent) && MayDepend(s, n.deps, n.parent)
    && (start ==> MayBegin(s, plan, n.deps, session))
  }

  /** A task is added, and started if asked for, exactly when some plan is selected, the creation is sound, and a start
      asked for can be made; otherwise nothing of it remains. */
  lemma AddTaskExactly(s: State, c: Caller, selector: PlanSelector, n: Creation, start: bool, session: Option<string>)
    requires Inv(s) && DisputesLogged(s)
    ensures AddTask(s, c, selector, n, start, session).Committed? <==>
            exists plan :: MayAdd(s, selector, n, start, session, plan)
  {
    var p := SelectedPlan(s, selector, n.parent);
    CreateExactly(s, c, p, n);
    if Create(s, c, p, n).Committed? { StartedCreation(s, c, p, n, session); }
    SelectedExactly(s, selector, n.parent, p);
    if AddTask(s, c, selector, n, start, session).Committed? { assert MayAdd(s, selector, n, start, session, p); }
    if plan :| MayAdd(s, selector, n, start, session, plan) { SelectedExactly(s, selector, n.parent, plan); }
  }
}
