/** When a validated decomposition is refused: only when a ready child cannot start. */
module OutlineStart {
  import opened Basics
  import opened Graphs
  import opened Records
  import opened Review
  import opened ReviewFacts
  import opened Waiting
  import opened Lifecycle
  import opened Definition
  import opened Outlines
  import opened Invariants
  import opened OutlineSoundness

  /** A ready child builds on a done task whose result is disputed. */
  ghost predicate BuildsOnDispute(s: State, o: Outline, i: nat)
    requires i < |o.children|
  {
    exists d :: d in s.tasks && TaskNumber(d) in o.children[i].deps && ResultDisputed(s, d)
  }

  ghost predicate CannotStart(s: State, o: Outline, session: Option<string>, i: nat)
    requires i < |o.children|
  {
    Ready(s, o, i) && ((session.Some? && !ValidSession(session.value)) || BuildsOnDispute(s, o, i))
  }

  /** u is the linked state with some of the first i children started. */
  ghost predicate Starting(s: State, u: State, parent: nat, o: Outline, base: nat, i: nat)
    requires parent in s.tasks
  {
    && Snapshot(s, base) && KeysValid(o) && DepsValid(s, parent, o)
    && u.plans == s.plans && u.tasks.Keys == s.tasks.Keys + Range(base, |o.children|)
    && (forall x :: x in s.tasks ==> u.tasks[x] == s.tasks[x])
    && (forall x :: x in Range(base, |o.children|) ==> Live(u.tasks[x].status))
    && (forall x :: x in Range(base, |o.children|) && x >= base + i ==>
          NewChild(u.tasks[x], parent, s.tasks[parent].plan))
    && u.deps == s.deps + WantedEdges(o, base, u.tasks.Keys)
    && Quiet(s, u)
  }

  lemma QuietResults(s: State, u: State, r: nat)
    requires Quiet(s, u) && r in s.tasks && r in u.tasks && u.tasks[r] == s.tasks[r]
    ensures ResultDisputed(u, r) <==> ResultDisputed(s, r)
  {
    var more := u.log[|s.log|..];
    assert u.log == s.log + more;
    forall i | 0 <= i < |more| ensures !TaskEventOf(more[i], r) {
      assert more[i] == u.log[|s.log| + i];
    }
    OthersDoNotCount(s.log, more, r, Filer(s.log, r));
  }

  /** An existing task is a target of child i exactly when the outline lists its number. */
  lemma ExistingTarget(s: State, parent: nat, o: Outline, base: nat, i: nat, r: nat)
    requires Snapshot(s, base) && KeysValid(o) && DepsValid(s, parent, o) && i < |o.children| && r < base
    ensures r in Targets(o, base, o.children[i].deps) <==> TaskNumber(r) in o.children[i].deps
  {
    var deps := o.children[i].deps;
    var targets := Targets(o, base, deps);
    if r in targets {
      var k :| 0 <= k < |targets| && targets[k] == r;
      RefTarget(s, parent, o, base, i, deps[k]);
    }
    if TaskNumber(r) in deps {
      var k :| 0 <= k < |deps| && deps[k] == TaskNumber(r);
      assert targets[k] == r;
    }
  }

  lemma ParentsAreOld(s: State, r: nat)
    requires Rows(s) && r in s.tasks
    ensures s.tasks[r].parent.Some? ==> s.tasks[r].parent.value in s.tasks
  {
    assert ParentOk(s, s.tasks[r]);
  }

  lemma ChildDispute(s: State, u: State, parent: nat, o: Outline, base: nat, i: nat, r: nat)
    requires parent in s.tasks && Rows(s) && i < |o.children| && Starting(s, u, parent, o, base, i)
    requires r in u.tasks
    ensures DisputedFor(u, base + i, r) <==>
            (r in s.tasks && s.tasks[r].status.Done? && TaskNumber(r) in o.children[i].deps && ResultDisputed(s, r))
  {
    var x := base + i;
    assert x in Range(base, |o.children|);
    if r in s.tasks {
      QuietResults(s, u, r);
      ParentsAreOld(s, r);
      ExistingTarget(s, parent, o, base, i, r);
      ChildEdges(s, u, parent, o, base, i, r);
    } else {
      assert r in Range(base, |o.children|);
    }
  }

  lemma ChildEdges(s: State, u: State, parent: nat, o: Outline, base: nat, i: nat, r: nat)
    requires parent in s.tasks && i < |o.children| && Starting(s, u, parent, o, base, i) && r in s.tasks
    ensures (base + i, r) in u.deps <==> r in Targets(o, base, o.children[i].deps)
  {
    var x := base + i;
    assert x in Range(base, |o.children|) && InRange(base, |o.children|, x);
    assert (x, r) in s.deps ==> (x, r) in Waits(s);
    assert (x, r) in WantedEdges(o, base, u.tasks.Keys) <==> Wanted(o, base, x, r);
  }

  lemma ChildUndisputed(s: State, u: State, parent: nat, o: Outline, base: nat, i: nat)
    requires parent in s.tasks && Rows(s) && i < |o.children| && Starting(s, u, parent, o, base, i)
    requires Ready(s, o, i)
    ensures Undisputed(u, base + i) <==> !BuildsOnDispute(s, o, i)
  {
    if d :| d in s.tasks && TaskNumber(d) in o.children[i].deps && ResultDisputed(s, d) {
      ChildDispute(s, u, parent, o, base, i, d);
      assert d in u.tasks;
    } else {
      forall r | r in u.tasks ensures !DisputedFor(u, base + i, r) {
        ChildDispute(s, u, parent, o, base, i, r);
      }
    }
  }

  /** A start is refused only for its session, its plan, an open external gate or a disputed result. */
  lemma StartWhen(u: State, c: Caller, x: nat, why: Option<string>, session: Option<string>)
    requires x in u.tasks && u.tasks[x].status.Proposed? && PlanStatusOf(u, x).PlanActive? && !OpenExternal(u.tasks[x])
    ensures Start(u, c, x, why, session).Committed? <==> (session.Some? ==> ValidSession(session.value)) && Undisputed(u, x)
  {
  }

  /** The child whose turn it is to start is as it was created. */
  lemma NextIsNew(s: State, u: State, parent: nat, o: Outline, base: nat, i: nat)
    requires parent in s.tasks && i < |o.children| && Starting(s, u, parent, o, base, i)
    ensures var x := base + i;
            && x in u.tasks && NewChild(u.tasks[x], parent, s.tasks[parent].plan)
            && PlanStatusOf(u, x) == PlanStatusOf(s, parent) && !OpenExternal(u.tasks[x])
  {
    assert base + i in Range(base, |o.children|);
    assert NewChild(u.tasks[base + i], parent, s.tasks[parent].plan);
  }

  lemma StartOne(s: State, u: State, c: Caller, parent: nat, o: Outline, base: nat, session: Option<string>, i: nat)
    requires parent in s.tasks && Rows(s) && i < |o.children| && Starting(s, u, parent, o, base, i)
    requires PlanStatusOf(s, parent).PlanActive? && Ready(s, o, i)
    ensures Start(u, c, base + i, WhyFor(o, i), session).Committed? <==> !CannotStart(s, o, session, i)
  {
    NextIsNew(s, u, parent, o, base, i);
    ChildUndisputed(s, u, parent, o, base, i);
    StartWhen(u, c, base + i, WhyFor(o, i), session);
  }

  lemma StartedNext(s: State, u: State, v: State, parent: nat, o: Outline, base: nat, i: nat, t: Task, e: Event)
    requires parent in s.tasks && i < |o.children| && Starting(s, u, parent, o, base, i)
    requires v == Logged(Put(u, base + i, t), e) && Live(t.status) && e.task == Some(base + i)
    ensures Starting(s, v, parent, o, base, i + 1)
  {
    assert base + i in Range(base, |o.children|);
    QuietNext(s, u, v, e);
    assert v.tasks.Keys == u.tasks.Keys;
  }

  /** The started state: one row changed, one event about it. */
  lemma StartedRow(u: State, c: Caller, x: nat, why: Option<string>, session: Option<string>)
    returns (v: State, t: Task, e: Event)
    requires x in u.tasks && u.tasks[x].status.Proposed? && Start(u, c, x, why, session).Committed?
    ensures Start(u, c, x, why, session) == Committed(v)
    ensures v == Logged(Put(u, x, t), e) && Live(t.status) && e.task == Some(x)
  {
    v := Start(u, c, x, why, session).state;
    t, e := v.tasks[x], v.log[|u.log|];
  }

  lemma StartKeeps(s: State, u: State, c: Caller, parent: nat, o: Outline, base: nat, session: Option<string>, i: nat)
    requires parent in s.tasks && i < |o.children| && Starting(s, u, parent, o, base, i)
    requires Start(u, c, base + i, WhyFor(o, i), session).Committed?
    ensures Starting(s, Start(u, c, base + i, WhyFor(o, i), session).state, parent, o, base, i + 1)
  {
    var x := base + i;
    NextIsNew(s, u, parent, o, base, i);
    var v, t, e := StartedRow(u, c, x, WhyFor(o, i), session);
    StartedNext(s, u, v, parent, o, base, i, t, e);
  }

  lemma StartingSkip(s: State, u: State, parent: nat, o: Outline, base: nat, i: nat)
    requires parent in s.tasks && Starting(s, u, parent, o, base, i)
    ensures Starting(s, u, parent, o, base, i + 1)
  {
  }

  /** When each step refuses exactly at its stuck indices, the run refuses exactly when one is stuck. */
  lemma {:induction false} StepsExact(step: (State, nat) -> Outcome, inv: (State, nat) -> bool, stuck: nat -> bool,
                                      s: State, i: nat, n: nat)
    requires inv(s, i)
    requires forall u, j: nat :: inv(u, j) && j < n ==>
               && (step(u, j).Committed? <==> !stuck(j))
               && (step(u, j).Committed? ==> inv(step(u, j).state, j + 1))
    ensures Steps(step, s, i, n).Committed? <==> forall j :: i <= j < n ==> !stuck(j)
    decreases n - i
  {
    if i < n {
      var next := step(s, i);
      if next.Committed? {
        StepsExact(step, inv, stuck, next.state, i + 1, n);
      }
    }
  }

  lemma StartChildExact(s: State, u: State, c: Caller, parent: nat, o: Outline, base: nat, session: Option<string>, i: nat)
    requires parent in s.tasks && Rows(s) && i < |o.children| && Starting(s, u, parent, o, base, i)
    requires PlanStatusOf(s, parent).PlanActive?
    ensures StartChild(s, u, c, base, o, session, i).Committed? <==> !CannotStart(s, o, session, i)
    ensures StartChild(s, u, c, base, o, session, i).Committed? ==>
              Starting(s, StartChild(s, u, c, base, o, session, i).state, parent, o, base, i + 1)
  {
    if Ready(s, o, i) {
      StartOne(s, u, c, parent, o, base, session, i);
      if Start(u, c, base + i, WhyFor(o, i), session).Committed? {
        StartKeeps(s, u, c, parent, o, base, session, i);
      }
    } else {
      StartingSkip(s, u, parent, o, base, i);
    }
  }

  ghost predicate Stuck(s: State, o: Outline, session: Option<string>, i: nat) {
    i < |o.children| && CannotStart(s, o, session, i)
  }

  lemma EachStartExact(s: State, c: Caller, parent: nat, o: Outline, base: nat, session: Option<string>)
    requires parent in s.tasks && Rows(s) && PlanStatusOf(s, parent).PlanActive?
    ensures forall v, j: nat :: Starting(s, v, parent, o, base, j) && j < |o.children| ==>
              && (StartChild(s, v, c, base, o, session, j).Committed? <==> !Stuck(s, o, session, j))
              && (StartChild(s, v, c, base, o, session, j).Committed? ==>
                    Starting(s, StartChild(s, v, c, base, o, session, j).state, parent, o, base, j + 1))
  {
    forall v, j: nat | Starting(s, v, parent, o, base, j) && j < |o.children|
      ensures StartChild(s, v, c, base, o, session, j).Committed? <==> !Stuck(s, o, session, j)
      ensures StartChild(s, v, c, base, o, session, j).Committed? ==>
                Starting(s, StartChild(s, v, c, base, o, session, j).state, parent, o, base, j + 1)
    {
      StartChildExact(s, v, c, parent, o, base, session, j);
    }
  }

  lemma StartSteps(s: State, u: State, c: Caller, parent: nat, o: Outline, base: nat, session: Option<string>)
    requires parent in s.tasks && Rows(s) && Starting(s, u, parent, o, base, 0)
    requires PlanStatusOf(s, parent).PlanActive?
    ensures StartChildren(s, u, c, base, o, session).Committed? <==>
            forall j :: 0 <= j < |o.children| ==> !Stuck(s, o, session, j)
  {
    var step: (State, nat) -> Outcome := (v: State, i: nat) => StartChild(s, v, c, base, o, session, i);
    var inv: (State, nat) -> bool := (v: State, i: nat) => Starting(s, v, parent, o, base, i);
    var stuck: nat -> bool := (i: nat) => Stuck(s, o, session, i);
    EachStartExact(s, c, parent, o, base, session);
    StepsExact(step, inv, stuck, u, 0, |o.children|);
    assert forall j: nat :: stuck(j) <==> Stuck(s, o, session, j);
  }

  lemma StartAll(s: State, u: State, c: Caller, parent: nat, o: Outline, base: nat, session: Option<string>)
    requires parent in s.tasks && Rows(s) && Starting(s, u, parent, o, base, 0)
    requires PlanStatusOf(s, parent).PlanActive?
    ensures StartChildren(s, u, c, base, o, session).Committed? <==>
            forall j :: 0 <= j < |o.children| ==> !CannotStart(s, o, session, j)
  {
    StartSteps(s, u, c, parent, o, base, session);
    assert forall j: nat :: j < |o.children| ==> (Stuck(s, o, session, j) <==> CannotStart(s, o, session, j));
  }

  lemma LinkedIsStarting(s: State, made: State, v: State, parent: nat, o: Outline, base: nat)
    requires Ready2Link(s, made, parent, o, base) && Linked(s, made, v, o, base, |o.children|)
    ensures Starting(s, v, parent, o, base, 0)
  {
    assert EarlierEdges(o, base, made.tasks.Keys, |o.children|) == WantedEdges(o, base, made.tasks.Keys);
    forall x | x in Range(base, |o.children|) ensures Live(v.tasks[x].status) {
      assert NewChild(made.tasks[x], parent, s.tasks[parent].plan);
    }
  }

  /** Creating every child and adding every edge of a validated outline never trips a later check. */
  lemma ApplicationCommits(s: State, c: Caller, parent: nat, o: Outline, startReady: bool)
    requires Inv(s) && parent in s.tasks && Live(s.tasks[parent].status) && !Over(PlanStatusOf(s, parent))
    requires OutlineValid(s, parent, o, startReady)
    ensures var made := MakeChildren(s, c, s.tasks[parent].plan, parent, o);
            && made.Committed?
            && var linked := LinkChildren(made.state, c, NextTask(s), o);
               linked.Committed? && Starting(s, linked.state, parent, o, NextTask(s), 0)
  {
    var base := NextTask(s);
    InvSnapshot(s);
    assert RowOk(s, s.tasks[parent]);
    FullGraphAcyclic(s, parent, o, base);
    MakeAll(s, c, parent, o, base);
    var made := MakeChildren(s, c, s.tasks[parent].plan, parent, o).state;
    LinkAll(s, made, c, parent, o, base);
    LinkedIsStarting(s, made, LinkChildren(made, c, base, o).state, parent, o, base);
  }

  /** Without start-ready a validated outline is never refused; with it, exactly when some ready child
      builds on a disputed result or the session name is malformed. */
  lemma DecomposeExact(s: State, c: Caller, parent: nat, o: Outline, startReady: bool, session: Option<string>)
    requires Inv(s) && parent in s.tasks && Live(s.tasks[parent].status) && !Over(PlanStatusOf(s, parent))
    requires 1 <= |o.children| <= MAX_CHILDREN && OutlineValid(s, parent, o, startReady)
    ensures Decompose(s, c, parent, o, startReady, session).Committed? <==>
            !(startReady && exists i :: 0 <= i < |o.children| && CannotStart(s, o, session, i))
  {
    ApplicationCommits(s, c, parent, o, startReady);
    if startReady {
      var made := MakeChildren(s, c, s.tasks[parent].plan, parent, o).state;
      var linked := LinkChildren(made, c, NextTask(s), o).state;
      StartAll(s, linked, c, parent, o, NextTask(s), session);
    }
  }
}
