/** One snapshot check answers every later check: a validated outline is never refused while it is applied,
    except when a ready child cannot start. */
module OutlineSoundness {
  import opened Basics
  import opened Graphs
  import opened Records
  import opened Review
  import opened Waiting
  import opened Lifecycle
  import opened Definition
  import opened Outlines
  import opened Invariants
  import opened LifecycleSafety
  import opened DefinitionSafety

  // ---- every accepted decomposition keeps the invariants ----

  /** A property every accepted step keeps holds after all of them. */
  lemma {:induction false} StepsKeep(step: (State, nat) -> Outcome, keeps: State -> bool, s: State, i: nat, n: nat)
    requires keeps(s) && Steps(step, s, i, n).Committed?
    requires forall u, j: nat :: keeps(u) && step(u, j).Committed? ==> keeps(step(u, j).state)
    ensures keeps(Steps(step, s, i, n).state)
    decreases n - i
  {
    if i < n {
      StepsKeep(step, keeps, step(s, i).state, i + 1, n);
    }
  }

  lemma MakeChildrenSafe(s: State, c: Caller, plan: nat, parent: nat, o: Outline)
    requires Inv(s) && MakeChildren(s, c, plan, parent, o).Committed?
    ensures Inv(MakeChildren(s, c, plan, parent, o).state)
  {
    var step: (State, nat) -> Outcome := (u: State, i: nat) => MakeChild(u, c, plan, parent, o, i);
    var keeps := (u: State) => Inv(u);
    forall u, j: nat | keeps(u) && step(u, j).Committed? ensures keeps(step(u, j).state) {
      if j < |o.children| { CreateRowSafe(u, c, plan, ChildOf(o, j, parent)); }
    }
    StepsKeep(step, keeps, s, 0, |o.children|);
  }

  lemma LinkChildrenSafe(s: State, c: Caller, base: nat, o: Outline)
    requires Inv(s) && LinkChildren(s, c, base, o).Committed?
    ensures Inv(LinkChildren(s, c, base, o).state)
  {
    var step: (State, nat) -> Outcome := (u: State, i: nat) => LinkChild(u, c, base, o, i);
    var keeps := (u: State) => Inv(u);
    forall u, j: nat | keeps(u) && step(u, j).Committed? ensures keeps(step(u, j).state) {
      if j < |o.children| { AddDepsSafe(u, c, base + j, Targets(o, base, o.children[j].deps), WhyFor(o, j)); }
    }
    StepsKeep(step, keeps, s, 0, |o.children|);
  }

  lemma StartChildrenSafe(before: State, s: State, c: Caller, base: nat, o: Outline, session: Option<string>)
    requires Inv(s) && StartChildren(before, s, c, base, o, session).Committed?
    ensures Inv(StartChildren(before, s, c, base, o, session).state)
  {
    var step: (State, nat) -> Outcome := (u: State, i: nat) => StartChild(before, u, c, base, o, session, i);
    var keeps := (u: State) => Inv(u);
    forall u, j: nat | keeps(u) && step(u, j).Committed? ensures keeps(step(u, j).state) {
      if j < |o.children| && Ready(before, o, j) { StartSafe(u, c, base + j, WhyFor(o, j), session); }
    }
    StepsKeep(step, keeps, s, 0, |o.children|);
  }

  lemma ApplySafe(s: State, c: Caller, parent: nat, o: Outline, startReady: bool, session: Option<string>)
    requires Inv(s) && parent in s.tasks && Apply(s, c, parent, o, startReady, session).Committed?
    ensures Inv(Apply(s, c, parent, o, startReady, session).state)
  {
    var made := MakeChildren(s, c, s.tasks[parent].plan, parent, o);
    MakeChildrenSafe(s, c, s.tasks[parent].plan, parent, o);
    var linked := LinkChildren(made.state, c, NextTask(s), o);
    LinkChildrenSafe(made.state, c, NextTask(s), o);
    if startReady {
      StartChildrenSafe(s, linked.state, c, NextTask(s), o, session);
    }
  }

  lemma DecomposeSafe(s: State, c: Caller, parent: nat, o: Outline, startReady: bool, session: Option<string>)
    requires Inv(s) && Decompose(s, c, parent, o, startReady, session).Committed?
    ensures Inv(Decompose(s, c, parent, o, startReady, session).state)
  {
    ApplySafe(s, c, parent, o, startReady, session);
  }

  // ---- the full graph a validated outline leads to ----

  predicate InRange(base: nat, k: nat, x: nat) { base <= x < base + k }

  ghost function Range(base: nat, k: nat): (r: set<nat>)
    ensures forall x :: x in r <==> base <= x < base + k
  {
    set x | base <= x < base + k && InRange(base, k, x)
  }

  /** The edges the outline asks for, between task numbers. */
  ghost predicate Wanted(o: Outline, base: nat, x: nat, y: nat) {
    InRange(base, |o.children|, x) && y in Targets(o, base, o.children[x - base].deps)
  }

  ghost function WantedEdges(o: Outline, base: nat, nodes: set<nat>): (g: Graph)
    ensures forall e :: e in g <==> e.0 in nodes && e.1 in nodes && Wanted(o, base, e.0, e.1)
  {
    set x, y | x in nodes && y in nodes && Wanted(o, base, x, y) :: (x, y)
  }

  ghost function NewWaits(o: Outline, base: nat, parent: nat): (g: Graph)
    ensures forall e :: e in g <==> e.0 == parent && InRange(base, |o.children|, e.1)
  {
    set x | x in Range(base, |o.children|) :: (parent, x)
  }

  ghost function AllNodes(s: State, o: Outline, base: nat): set<nat> {
    s.tasks.Keys + Range(base, |o.children|)
  }

  /** Old waits, the parent's wait for each child, and every edge of the outline. */
  ghost function FullGraph(s: State, parent: nat, o: Outline, base: nat): Graph {
    Waits(s) + NewWaits(o, base, parent) + WantedEdges(o, base, AllNodes(s, o, base))
  }

  /** What the graph argument needs to know about the snapshot. */
  ghost predicate Snapshot(s: State, base: nat) {
    && (forall x :: x in s.tasks ==> x < base)
    && (forall e :: e in Waits(s) ==> e.0 in s.tasks && e.1 in s.tasks)
  }

  lemma InvSnapshot(s: State)
    requires Inv(s)
    ensures Snapshot(s, NextTask(s)) && Acyclic(Waits(s))
  {
    forall e | e in Waits(s) ensures e.0 in s.tasks && e.1 in s.tasks {
      if e in ChildWaits(s) { assert ParentOk(s, s.tasks[e.1]); }
    }
  }

  /** An existing task an outline may depend on. */
  ghost predicate Viable(s: State, parent: nat, y: nat) {
    y in s.tasks && !s.tasks[y].status.Retired? && !s.tasks[y].status.Rejected? && !Reach(Waits(s), y, parent)
  }

  /** What an accepted outline says about one wanted edge. */
  lemma WantedKinds(s: State, parent: nat, o: Outline, base: nat, x: nat, y: nat)
    requires KeysValid(o) && DepsValid(s, parent, o) && Wanted(o, base, x, y)
    ensures || (InRange(base, |o.children|, y) && y != x && (x - base, y - base) in SiblingGraph(o))
            || Viable(s, parent, y)
  {
    var i := x - base;
    var deps := o.children[i].deps;
    var k :| 0 <= k < |deps| && Targets(o, base, deps)[k] == y;
    assert RefValid(s, parent, o, i, deps[k]);
    if deps[k].Key? {
      var j :| HasKey(o, deps[k].key, j) && j != i;
      var j' := KeyIndex(o, deps[k].key);
      assert HasKey(o, deps[k].key, j');
      assert j == j';
      assert SiblingDep(o, i, j);
    }
  }

  /** Ancestors of the parent in the wait graph, then the children, then everything else: edges only go down. */
  ghost function Layer(s: State, parent: nat, base: nat, x: nat): nat {
    if x >= base then 1 else if Reach(Waits(s), x, parent) then 0 else 2
  }

  ghost predicate SiblingEdge(o: Outline, base: nat, e: Edge) {
    e.0 >= base && e.1 >= base && (e.0 - base, e.1 - base) in SiblingGraph(o)
  }

  lemma WaitLayers(s: State, parent: nat, base: nat, e: Edge)
    requires Snapshot(s, base) && e in Waits(s)
    ensures Layer(s, parent, base, e.0) <= Layer(s, parent, base, e.1)
    ensures e.0 < base && e.1 < base
  {
    assert (e.0, e.1) == e;
    if Reach(Waits(s), e.1, parent) { ReachStep(Waits(s), e.0, e.1, parent); }
  }

  lemma NewWaitLayers(s: State, parent: nat, o: Outline, base: nat, e: Edge)
    requires Snapshot(s, base) && parent in s.tasks && e in NewWaits(o, base, parent)
    ensures Layer(s, parent, base, e.0) == 0 && Layer(s, parent, base, e.1) == 1
    ensures e.0 in AllNodes(s, o, base) && e.1 in AllNodes(s, o, base)
  {
    ReachSelf(Waits(s), parent);
  }

  lemma WantedLayers(s: State, parent: nat, o: Outline, base: nat, e: Edge)
    requires Snapshot(s, base) && KeysValid(o) && DepsValid(s, parent, o) && Wanted(o, base, e.0, e.1)
    ensures Layer(s, parent, base, e.0) == 1
    ensures SiblingEdge(o, base, e) || Layer(s, parent, base, e.1) == 2
    ensures SiblingEdge(o, base, e) ==> Layer(s, parent, base, e.1) == 1
  {
    WantedKinds(s, parent, o, base, e.0, e.1);
  }

  lemma EdgeLayers(s: State, parent: nat, o: Outline, base: nat, e: Edge)
    requires Snapshot(s, base) && parent in s.tasks && KeysValid(o) && DepsValid(s, parent, o)
    requires e in FullGraph(s, parent, o, base)
    ensures Layer(s, parent, base, e.0) <= Layer(s, parent, base, e.1)
    ensures e.0 in AllNodes(s, o, base) && e.1 in AllNodes(s, o, base)
    ensures Layer(s, parent, base, e.0) == Layer(s, parent, base, e.1) ==> e in Waits(s) || SiblingEdge(o, base, e)
  {
    if e in Waits(s) {
      WaitLayers(s, parent, base, e);
    } else if e in NewWaits(o, base, parent) {
      NewWaitLayers(s, parent, o, base, e);
    } else {
      WantedLayers(s, parent, o, base, e);
    }
  }

  lemma FullGraphAcyclic(s: State, parent: nat, o: Outline, base: nat)
    requires Snapshot(s, base) && parent in s.tasks && KeysValid(o) && DepsValid(s, parent, o)
    requires Acyclic(SiblingGraph(o)) && Acyclic(Waits(s))
    ensures Acyclic(FullGraph(s, parent, o, base))
  {
    var g := FullGraph(s, parent, o, base);
    var layer := map x | x in AllNodes(s, o, base) :: Layer(s, parent, base, x);
    forall e | e in g ensures e.0 in layer && e.1 in layer && layer[e.0] <= layer[e.1] {
      EdgeLayers(s, parent, o, base, e);
    }
    forall w ensures !ClosedWalk(g, w) {
      if ClosedWalk(g, w) {
        ClosedWalkOneLayer(g, layer, w);
        OneLayerNoCycle(s, parent, o, base, w);
      }
    }
  }

  /** Within one layer every hop is an old wait, or every hop is a sibling edge. */
  lemma OneLayerNoCycle(s: State, parent: nat, o: Outline, base: nat, w: seq<nat>)
    requires Snapshot(s, base) && parent in s.tasks && KeysValid(o) && DepsValid(s, parent, o)
    requires ClosedWalk(FullGraph(s, parent, o, base), w)
    requires forall i :: 0 <= i < |w| ==> Layer(s, parent, base, w[i]) == Layer(s, parent, base, w[0])
    ensures !Acyclic(SiblingGraph(o)) || !Acyclic(Waits(s))
  {
    forall i | 0 < i < |w|
      ensures (w[i - 1], w[i]) in Waits(s) || SiblingEdge(o, base, (w[i - 1], w[i]))
    {
      assert (w[i - 1], w[i]) in FullGraph(s, parent, o, base);
      EdgeLayers(s, parent, o, base, (w[i - 1], w[i]));
      assert Layer(s, parent, base, w[i - 1]) == Layer(s, parent, base, w[i]);
    }
    if w[0] >= base {
      AllSiblings(s, o, parent, base, w);
    } else {
      AllOld(s, o, parent, base, w);
    }
  }

  lemma AllSiblings(s: State, o: Outline, parent: nat, base: nat, w: seq<nat>)
    requires Snapshot(s, base) && |w| >= 2 && w[0] == w[|w| - 1] && w[0] >= base
    requires forall i :: 0 < i < |w| ==> (w[i - 1], w[i]) in Waits(s) || SiblingEdge(o, base, (w[i - 1], w[i]))
    requires forall i :: 0 <= i < |w| ==> Layer(s, parent, base, w[i]) == Layer(s, parent, base, w[0])
    ensures !Acyclic(SiblingGraph(o))
  {
    forall i | 0 <= i < |w| ensures w[i] >= base {
      assert Layer(s, parent, base, w[i]) == 1;
    }
    var v := seq(|w|, i requires 0 <= i < |w| => w[i] - base);
    forall i | 0 < i < |v| ensures (v[i - 1], v[i]) in SiblingGraph(o) {
      assert (w[i - 1], w[i]) !in Waits(s);
    }
    assert ClosedWalk(SiblingGraph(o), v);
  }

  lemma AllOld(s: State, o: Outline, parent: nat, base: nat, w: seq<nat>)
    requires Snapshot(s, base) && |w| >= 2 && w[0] == w[|w| - 1] && w[0] < base
    requires forall i :: 0 < i < |w| ==> (w[i - 1], w[i]) in Waits(s) || SiblingEdge(o, base, (w[i - 1], w[i]))
    requires forall i :: 0 <= i < |w| ==> Layer(s, parent, base, w[i]) == Layer(s, parent, base, w[0])
    ensures !Acyclic(Waits(s))
  {
    forall i | 0 <= i < |w| ensures w[i] < base {
      assert Layer(s, parent, base, w[i]) != 1;
    }
    forall i | 0 < i < |w| ensures (w[i - 1], w[i]) in Waits(s) {
      assert !SiblingEdge(o, base, (w[i - 1], w[i]));
    }
    assert ClosedWalk(Waits(s), w);
  }

  // ---- creation never refuses ----

  predicate NewChild(t: Task, parent: nat, plan: nat) {
    t.status.Proposed? && t.parent == Some(parent) && t.plan == plan && t.gates == [] && t.replacement.None?
  }

  /** u is s with the first k children created, numbered from base. */
  ghost predicate Made(s: State, u: State, parent: nat, plan: nat, base: nat, k: nat) {
    && u.plans == s.plans && u.deps == s.deps
    && u.tasks.Keys == s.tasks.Keys + Range(base, k)
    && (forall x :: x in s.tasks ==> u.tasks[x] == s.tasks[x])
    && (forall x :: x in Range(base, k) ==> NewChild(u.tasks[x], parent, plan))
    && Quiet(s, u)
  }

  /** The log only grew, and only by events about tasks s does not have. */
  ghost predicate Quiet(s: State, u: State) {
    && |s.log| <= |u.log| && u.log[..|s.log|] == s.log
    && forall i, x :: |s.log| <= i < |u.log| && x in s.tasks ==> !About(u.log[i], x)
  }

  lemma QuietNext(s: State, u: State, v: State, e: Event)
    requires Quiet(s, u) && v.log == u.log + [e] && forall x :: x in s.tasks ==> !About(e, x)
    ensures Quiet(s, v)
  {
    assert v.log[..|s.log|] == u.log[..|s.log|];
  }

  lemma NextAfterMade(s: State, u: State, parent: nat, plan: nat, base: nat, k: nat)
    requires base == NextTask(s) && Made(s, u, parent, plan, base, k)
    ensures NextTask(u) == base + k
  {
    var m := MaxOf(u.tasks.Keys);
    if k > 0 {
      assert base + k - 1 in u.tasks.Keys;
    } else {
      assert u.tasks.Keys == s.tasks.Keys;
    }
  }

  lemma MakeOneCommits(s: State, u: State, c: Caller, parent: nat, o: Outline, base: nat, k: nat)
    requires parent in s.tasks && k < |o.children|
    requires Made(s, u, parent, s.tasks[parent].plan, base, k)
    requires Live(s.tasks[parent].status) && s.tasks[parent].plan < |s.plans|
    requires !Over(PlanStatusOf(s, parent)) && EntriesValid(s, parent, o)
    ensures CreateRow(u, c, s.tasks[parent].plan, ChildOf(o, k, parent)).Committed?
  {
    assert ValidTitle(o.children[k].title);
  }

  lemma MakeOne(s: State, u: State, c: Caller, parent: nat, plan: nat, n: Creation, base: nat, k: nat)
    requires base == NextTask(s) && Made(s, u, parent, plan, base, k)
    requires n.parent == Some(parent) && CreateRow(u, c, plan, n).Committed?
    ensures Made(s, CreateRow(u, c, plan, n).state, parent, plan, base, k + 1)
  {
    NextAfterMade(s, u, parent, plan, base, k);
    var v := CreateRow(u, c, plan, n).state;
    var t := Task(plan, n.parent, None, Trim(n.title), n.intent, n.kind, None, Proposed, n.priority, None, []);
    MadeRow(s, u, v, parent, plan, base, k, t, v.log[|u.log|]);
  }

  lemma MadeRow(s: State, u: State, v: State, parent: nat, plan: nat, base: nat, k: nat, t: Task, e: Event)
    requires Made(s, u, parent, plan, base, k) && (forall x :: x in s.tasks ==> x < base)
    requires v == Logged(Put(u, base + k, t), e) && NewChild(t, parent, plan) && e.task == Some(base + k)
    ensures Made(s, v, parent, plan, base, k + 1)
  {
    assert Range(base, k + 1) == Range(base, k) + {base + k};
    QuietNext(s, u, v, e);
    forall x | x in Range(base, k + 1) ensures NewChild(v.tasks[x], parent, plan) {
      if x != base + k { assert x in Range(base, k); }
    }
  }

  /** Steps that always go through reach the invariant of the last index. */
  lemma {:induction false} StepsRun(step: (State, nat) -> Outcome, inv: (State, nat) -> bool, s: State, i: nat, n: nat)
    requires i <= n && inv(s, i)
    requires forall u, j: nat :: inv(u, j) && j < n ==> step(u, j).Committed? && inv(step(u, j).state, j + 1)
    ensures Steps(step, s, i, n).Committed? && inv(Steps(step, s, i, n).state, n)
    decreases n - i
  {
    if i < n {
      StepsRun(step, inv, step(s, i).state, i + 1, n);
    }
  }

  lemma MakeAll(s: State, c: Caller, parent: nat, o: Outline, base: nat)
    requires base == NextTask(s) && parent in s.tasks
    requires Live(s.tasks[parent].status) && s.tasks[parent].plan < |s.plans|
    requires !Over(PlanStatusOf(s, parent)) && EntriesValid(s, parent, o)
    ensures var made := MakeChildren(s, c, s.tasks[parent].plan, parent, o);
            made.Committed? && Made(s, made.state, parent, s.tasks[parent].plan, base, |o.children|)
  {
    var plan := s.tasks[parent].plan;
    var step: (State, nat) -> Outcome := (u: State, i: nat) => MakeChild(u, c, plan, parent, o, i);
    var inv: (State, nat) -> bool := (u: State, i: nat) => Made(s, u, parent, plan, base, i);
    forall u, j: nat | inv(u, j) && j < |o.children|
      ensures step(u, j).Committed? && inv(step(u, j).state, j + 1)
    {
      MakeOneCommits(s, u, c, parent, o, base, j);
      MakeOne(s, u, c, parent, plan, ChildOf(o, j, parent), base, j);
    }
    assert Range(base, 0) == {};
    assert s.log[..|s.log|] == s.log;
    StepsRun(step, inv, s, 0, |o.children|);
  }

  // ---- linking never refuses ----

  ghost function EdgesFrom(x: nat, targets: seq<nat>): (g: Graph)
    ensures forall e :: e in g <==> e.0 == x && e.1 in targets
  {
    set t | t in targets :: (x, t)
  }

  ghost predicate Linkable(u: State, x: nat, t: nat) {
    t in u.tasks && (x, t) !in u.deps && !u.tasks[t].status.Retired? && !u.tasks[t].status.Rejected?
  }

  /** v is u with more edges and more history. */
  ghost predicate Extends(s: State, u: State, v: State, added: Graph) {
    v.plans == u.plans && v.tasks == u.tasks && v.deps == u.deps + added && (Quiet(s, u) ==> Quiet(s, v))
  }

  lemma NoPathBack(u: State, x: nat, on: nat, g: Graph)
    requires Acyclic(g) && Waits(u) <= g && (x, on) in g
    ensures !Reach(Waits(u), on, x) && !Reach(u.deps, on, x) && x != on
  {
    if Reach(u.deps, on, x) { ReachMono(u.deps, Waits(u), on, x); }
    if Reach(Waits(u), on, x) {
      ReachMono(Waits(u), g, on, x);
      EdgeOnReachIsCycle(g, x, on);
    }
    if x == on { ReachSelf(g, x); EdgeOnReachIsCycle(g, x, on); }
  }

  lemma LinkHead(s: State, u: State, c: Caller, x: nat, on: nat, why: Option<string>, g: Graph)
    requires x in u.tasks && x !in s.tasks && Live(u.tasks[x].status) && Linkable(u, x, on)
    requires Acyclic(g) && Waits(u) <= g && (x, on) in g
    ensures AddDep(u, c, x, on, why) == Committed(WithDep(u, c, x, on, why))
    ensures Extends(s, u, WithDep(u, c, x, on, why), {(x, on)})
    ensures Waits(WithDep(u, c, x, on, why)) == Waits(u) + {(x, on)}
  {
    NoPathBack(u, x, on, g);
    var v := WithDep(u, c, x, on, why);
    assert ChildWaits(v) == ChildWaits(u);
    if Quiet(s, u) { QuietNext(s, u, v, v.log[|u.log|]); }
  }

  /** A new live task x whose targets are viable, and a graph that holds every wait and all its edges. */
  ghost predicate AllLinkable(s: State, u: State, x: nat, targets: seq<nat>, g: Graph) {
    && x in u.tasks && x !in s.tasks && Live(u.tasks[x].status) && Distinct(targets)
    && (forall t :: t in targets ==> Linkable(u, x, t) && (x, t) in g)
    && Waits(u) <= g
  }

  /** New edges none of which closes a cycle even when all of them are present are added without refusal. */
  lemma {:induction false} LinkOne(s: State, u: State, c: Caller, x: nat, targets: seq<nat>, why: Option<string>, g: Graph)
    returns (v: State)
    requires AllLinkable(s, u, x, targets, g) && Acyclic(g)
    ensures AddDeps(u, c, x, targets, why) == Committed(v)
    ensures Extends(s, u, v, EdgesFrom(x, targets))
    decreases |targets|
  {
    if targets == [] {
      assert EdgesFrom(x, targets) == {};
      v := u;
    } else {
      var on, rest := targets[0], targets[1..];
      assert EdgesFrom(x, targets) == {(x, on)} + EdgesFrom(x, rest);
      LinkHead(s, u, c, x, on, why, g);
      var u1 := WithDep(u, c, x, on, why);
      forall t | t in rest ensures Linkable(u1, x, t) && (x, t) in g {
        assert Linkable(u, x, t);
        var k :| 0 <= k < |rest| && rest[k] == t;
        assert targets[k + 1] == t;
      }
      v := LinkOne(s, u1, c, x, rest, why, g);
    }
  }

  /** v has every row of `made`, and the edges of the first i children. */
  ghost predicate Linked(s: State, made: State, v: State, o: Outline, base: nat, i: nat) {
    && v.plans == made.plans && v.tasks == made.tasks && Quiet(s, v)
    && v.deps == made.deps + EarlierEdges(o, base, made.tasks.Keys, i)
  }

  ghost function EarlierEdges(o: Outline, base: nat, nodes: set<nat>, i: nat): (g: Graph)
    ensures forall e :: e in g <==> e in WantedEdges(o, base, nodes) && e.0 < base + i
  {
    set e | e in WantedEdges(o, base, nodes) && e.0 < base + i
  }

  /** A valid reference can be read back from the task number it names. */
  lemma RefTarget(s: State, parent: nat, o: Outline, base: nat, i: nat, d: DepRef)
    requires Snapshot(s, base) && KeysValid(o) && RefValid(s, parent, o, i, d)
    ensures var t := Target(o, base, d);
            && (d.Key? ==> base <= t < base + |o.children| && d == Key(o.children[t - base].key))
            && (d.TaskNumber? ==> t < base && d == TaskNumber(t))
            && !d.OtherValue?
  {
    if d.Key? {
      var j :| HasKey(o, d.key, j) && j != i;
      assert HasKey(o, d.key, KeyIndex(o, d.key));
    }
  }

  lemma DistinctTargets(s: State, parent: nat, o: Outline, base: nat, i: nat)
    requires Snapshot(s, base) && i < |o.children| && KeysValid(o) && DepsValid(s, parent, o)
    ensures Distinct(Targets(o, base, o.children[i].deps))
  {
    var deps := o.children[i].deps;
    forall k, l | 0 <= k < l < |deps| ensures Target(o, base, deps[k]) != Target(o, base, deps[l]) {
      RefTarget(s, parent, o, base, i, deps[k]);
      RefTarget(s, parent, o, base, i, deps[l]);
      assert deps[k] != deps[l];
    }
  }

  /** What the application phase knows after every child exists. */
  ghost predicate Ready2Link(s: State, made: State, parent: nat, o: Outline, base: nat) {
    && Snapshot(s, base) && parent in s.tasks && KeysValid(o) && DepsValid(s, parent, o)
    && Made(s, made, parent, s.tasks[parent].plan, base, |o.children|)
  }

  lemma MadeTargets(s: State, made: State, parent: nat, o: Outline, base: nat, i: nat, t: nat)
    requires Ready2Link(s, made, parent, o, base) && i < |o.children|
    requires t in Targets(o, base, o.children[i].deps)
    ensures t in made.tasks && !made.tasks[t].status.Retired? && !made.tasks[t].status.Rejected?
    ensures (base + i, t) in WantedEdges(o, base, made.tasks.Keys)
  {
    assert Wanted(o, base, base + i, t);
    WantedKinds(s, parent, o, base, base + i, t);
    if InRange(base, |o.children|, t) {
      assert t in Range(base, |o.children|);
      assert NewChild(made.tasks[t], parent, s.tasks[parent].plan);
    }
    assert base + i in Range(base, |o.children|);
  }

  lemma WaitsMade(s: State, made: State, parent: nat, o: Outline, base: nat)
    requires Ready2Link(s, made, parent, o, base)
    ensures ChildWaits(made) <= Waits(s) + NewWaits(o, base, parent)
    ensures made.tasks.Keys == AllNodes(s, o, base)
  {
    forall e | e in ChildWaits(made) ensures e in Waits(s) + NewWaits(o, base, parent) {
      if e.1 in s.tasks {
        assert e in ChildWaits(s);
      } else {
        assert e.1 in Range(base, |o.children|);
        assert NewChild(made.tasks[e.1], parent, s.tasks[parent].plan);
      }
    }
  }

  lemma LinkedWaits(s: State, made: State, v: State, parent: nat, o: Outline, base: nat, i: nat)
    requires Ready2Link(s, made, parent, o, base) && Linked(s, made, v, o, base, i)
    ensures Waits(v) <= FullGraph(s, parent, o, base)
  {
    WaitsMade(s, made, parent, o, base);
    assert ChildWaits(v) == ChildWaits(made);
  }

  /** Every target of the child is viable and its edge belongs to the final graph. */
  lemma TargetsLinkable(s: State, made: State, v: State, parent: nat, o: Outline, base: nat, i: nat)
    requires Ready2Link(s, made, parent, o, base) && Linked(s, made, v, o, base, i) && i < |o.children|
    ensures forall t :: t in Targets(o, base, o.children[i].deps) ==>
              Linkable(v, base + i, t) && (base + i, t) in FullGraph(s, parent, o, base)
  {
    var x := base + i;
    assert x in Range(base, |o.children|);
    assert NewChild(made.tasks[x], parent, s.tasks[parent].plan);
    WaitsMade(s, made, parent, o, base);
    forall t | t in Targets(o, base, o.children[i].deps)
      ensures Linkable(v, x, t) && (x, t) in FullGraph(s, parent, o, base)
    {
      MadeTargets(s, made, parent, o, base, i, t);
      NotYetLinked(s, made, v, parent, o, base, i, t);
    }
  }

  lemma ChildLinkable(s: State, made: State, v: State, parent: nat, o: Outline, base: nat, i: nat)
    requires Ready2Link(s, made, parent, o, base) && Linked(s, made, v, o, base, i) && i < |o.children|
    ensures AllLinkable(s, v, base + i, Targets(o, base, o.children[i].deps), FullGraph(s, parent, o, base))
  {
    assert base + i in Range(base, |o.children|);
    assert NewChild(made.tasks[base + i], parent, s.tasks[parent].plan);
    DistinctTargets(s, parent, o, base, i);
    LinkedWaits(s, made, v, parent, o, base, i);
    TargetsLinkable(s, made, v, parent, o, base, i);
  }

  lemma NotYetLinked(s: State, made: State, v: State, parent: nat, o: Outline, base: nat, i: nat, t: nat)
    requires Ready2Link(s, made, parent, o, base) && Linked(s, made, v, o, base, i)
    ensures (base + i, t) !in v.deps
  {
    assert (base + i, t) in s.deps ==> (base + i, t) in Waits(s);
  }

  lemma LinkedNext(s: State, made: State, v: State, after: State, parent: nat, o: Outline, base: nat, i: nat)
    requires Ready2Link(s, made, parent, o, base) && Linked(s, made, v, o, base, i) && i < |o.children|
    requires Extends(s, v, after, EdgesFrom(base + i, Targets(o, base, o.children[i].deps)))
    ensures Linked(s, made, after, o, base, i + 1)
  {
    var targets := Targets(o, base, o.children[i].deps);
    forall e | e in EdgesFrom(base + i, targets) ensures e in WantedEdges(o, base, made.tasks.Keys) {
      MadeTargets(s, made, parent, o, base, i, e.1);
    }
    assert EarlierEdges(o, base, made.tasks.Keys, i + 1)
        == EarlierEdges(o, base, made.tasks.Keys, i) + EdgesFrom(base + i, targets);
  }

  /** A child whose edges all fit is linked. */
  lemma LinkFitting(s: State, u: State, c: Caller, o: Outline, base: nat, j: nat, g: Graph) returns (v: State)
    requires j < |o.children| && Acyclic(g)
    requires AllLinkable(s, u, base + j, Targets(o, base, o.children[j].deps), g)
    ensures LinkChild(u, c, base, o, j) == Committed(v)
    ensures Extends(s, u, v, EdgesFrom(base + j, Targets(o, base, o.children[j].deps)))
  {
    v := LinkOne(s, u, c, base + j, Targets(o, base, o.children[j].deps), WhyFor(o, j), g);
  }

  lemma LinkOneChild(s: State, made: State, u: State, c: Caller, parent: nat, o: Outline, base: nat, j: nat)
    returns (v: State)
    requires Ready2Link(s, made, parent, o, base) && Acyclic(FullGraph(s, parent, o, base))
    requires Linked(s, made, u, o, base, j) && j < |o.children|
    ensures LinkChild(u, c, base, o, j) == Committed(v) && Linked(s, made, v, o, base, j + 1)
  {
    ChildLinkable(s, made, u, parent, o, base, j);
    v := LinkFitting(s, u, c, o, base, j, FullGraph(s, parent, o, base));
    LinkedNext(s, made, u, v, parent, o, base, j);
  }

  lemma LinkAll(s: State, made: State, c: Caller, parent: nat, o: Outline, base: nat)
    requires Ready2Link(s, made, parent, o, base) && Acyclic(FullGraph(s, parent, o, base))
    ensures var linked := LinkChildren(made, c, base, o);
            linked.Committed? && Linked(s, made, linked.state, o, base, |o.children|)
  {
    var step: (State, nat) -> Outcome := (u: State, i: nat) => LinkChild(u, c, base, o, i);
    var inv: (State, nat) -> bool := (u: State, i: nat) => Linked(s, made, u, o, base, i);
    forall u, j: nat | inv(u, j) && j < |o.children|
      ensures step(u, j).Committed? && inv(step(u, j).state, j + 1)
    {
      var v := LinkOneChild(s, made, u, c, parent, o, base, j);
    }
    assert EarlierEdges(o, base, made.tasks.Keys, 0) == {};
    StepsRun(step, inv, made, 0, |o.children|);
  }
}
