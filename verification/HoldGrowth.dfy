/** What creation, reopening and a new parent do to an acyclic hold graph. */
module HoldGrowth {
  import opened Basics
  import opened Graphs
  import opened Records
  import opened Waiting
  import opened Invariants
  import opened Settlement
  import opened Deadlock
  import opened HoldChanges
  import opened Finishing

  // ---- nodes set into an acyclic graph ----

  ghost function Inside(g: Graph, N: set<nat>): (h: Graph)
    ensures forall e :: e in h <==> e in g && e.0 in N && e.1 in N
  {
    set e | e in g && e.0 in N && e.1 in N
  }

  /** h is g with the nodes N set in: every source points at all of them, and an edge of g is lost only at a source. */
  ghost predicate SetIn(g: Graph, h: Graph, N: set<nat>, sources: set<nat>) {
    && Acyclic(g) && Acyclic(Inside(h, N))
    && (forall e :: e in g ==> e.0 !in N && e.1 !in N)
    && (forall e :: e in h && e.0 !in N && e.1 !in N ==> e in g)
    && (forall e :: e in g && e !in h ==> e.0 in sources)
    && (forall e :: e in h && e.0 !in N && e.1 in N ==> e.0 in sources)
    && (forall a, n :: a in sources && n in N ==> a !in N && (a, n) in h)
  }

  /** From a target of N some path of g leads to a source of N. */
  ghost predicate LeadsBack(g: Graph, h: Graph, N: set<nat>, sources: set<nat>) {
    exists e, a :: e in h && e.0 in N && e.1 !in N && a in sources && Reach(g, e.1, a)
  }

  lemma BackBy(g: Graph, h: Graph, N: set<nat>, sources: set<nat>, n: nat, b: nat, a: nat)
    requires (n, b) in h && n in N && b !in N && a in sources && Reach(g, b, a)
    ensures LeadsBack(g, h, N, sources)
  {
    var e: Edge := (n, b);
    assert e in h && e.0 in N && e.1 !in N && Reach(g, e.1, a);
  }

  /** Along a walk of g to a source, some source is reached in h. */
  lemma {:induction false} SourceReached(g: Graph, h: Graph, N: set<nat>, sources: set<nat>, w: seq<nat>)
    returns (a: nat)
    requires SetIn(g, h, N, sources) && Walk(g, w) && w[|w| - 1] in sources
    ensures a in sources && Reach(h, w[0], a)
    decreases |w|
  {
    if w[0] in sources {
      a := w[0];
      ReachSelf(h, a);
    } else {
      assert (w[0], w[1]) in g && Walk(g, w[1..]);
      a := SourceReached(g, h, N, sources, w[1..]);
      ReachStep(h, w[0], w[1], a);
    }
  }

  /** The first return of a walk of h to N passes a source. */
  lemma {:induction false} ReturnsBySource(g: Graph, h: Graph, N: set<nat>, sources: set<nat>, w: seq<nat>)
    returns (a: nat)
    requires SetIn(g, h, N, sources) && Walk(h, w) && w[0] !in N && w[|w| - 1] in N
    ensures a in sources && Reach(g, w[0], a)
    decreases |w|
  {
    assert (w[0], w[1]) in h;
    if w[1] in N {
      a := w[0];
      ReachSelf(g, a);
    } else {
      assert Walk(h, w[1..]);
      a := ReturnsBySource(g, h, N, sources, w[1..]);
      ReachStep(g, w[0], w[1], a);
    }
  }

  /** A walk that starts in N and ends outside leaves N along some edge. */
  lemma {:induction false} Leaves(h: Graph, N: set<nat>, w: seq<nat>) returns (i: nat)
    requires |w| > 0 && w[0] in N && w[|w| - 1] !in N
    ensures 0 < i < |w| && w[i - 1] in N && w[i] !in N
    decreases |w|
  {
    if w[1] !in N {
      i := 1;
    } else {
      i := Leaves(h, N, w[1..]);
      i := i + 1;
    }
  }

  /** A closed walk through a node of N and through one outside comes back to N over a source. */
  lemma MixedCycle(g: Graph, h: Graph, N: set<nat>, sources: set<nat>, n: nat, b: nat)
    requires SetIn(g, h, N, sources) && n in N && b !in N && Reach(h, n, b) && Reach(h, b, n)
    ensures LeadsBack(g, h, N, sources)
  {
    var w :| Connects(h, w, n, b);
    var i := Leaves(h, N, w);
    assert Connects(h, w[i..], w[i], b) by { assert Walk(h, w[i..]); }
    ReachTrans(h, w[i], b, n);
    var v :| Connects(h, v, w[i], n);
    var a := ReturnsBySource(g, h, N, sources, v);
    var e: Edge := (w[i - 1], w[i]);
    assert e in h && e.0 in N && e.1 !in N && Reach(g, e.1, a);
  }

  lemma OnCycle(h: Graph, w: seq<nat>, i: nat, j: nat)
    requires ClosedWalk(h, w) && i < |w| && j < |w|
    ensures Reach(h, w[i], w[j])
  {
    assert Connects(h, w[i..], w[i], w[0]) by { assert Walk(h, w[i..]); }
    assert Connects(h, w[..j + 1], w[0], w[j]) by { assert Walk(h, w[..j + 1]); }
    ReachTrans(h, w[i], w[0], w[j]);
  }

  /** Nodes set into an acyclic graph close a cycle exactly when what they point at leads back to a source. */
  lemma SetInAcyclic(g: Graph, h: Graph, N: set<nat>, sources: set<nat>)
    requires SetIn(g, h, N, sources)
    ensures Acyclic(h) <==> !LeadsBack(g, h, N, sources)
  {
    if e, b :| e in h && e.0 in N && e.1 !in N && b in sources && Reach(g, e.1, b) {
      var w :| Connects(g, w, e.1, b);
      var a := SourceReached(g, h, N, sources, w);
      ReachEdge(h, a, e.0);
      ReachTrans(h, e.1, a, e.0);
      assert (e.0, e.1) == e;
      EdgeOnReachIsCycle(h, e.0, e.1);
    }
    if w :| ClosedWalk(h, w) {
      if i :| 0 <= i < |w| && w[i] in N {
        if j :| 0 <= j < |w| && w[j] !in N {
          OnCycle(h, w, i, j);
          OnCycle(h, w, j, i);
          MixedCycle(g, h, N, sources, w[i], w[j]);
        } else {
          forall k | 0 < k < |w| ensures (w[k - 1], w[k]) in Inside(h, N) { }
          assert ClosedWalk(Inside(h, N), w);
        }
      } else {
        forall k | 0 < k < |w| ensures (w[k - 1], w[k]) in g { assert (w[k - 1], w[k]) in h; }
        assert ClosedWalk(g, w);
      }
    }
  }

  // ---- new tasks ----

  lemma HoldsByDepending(s: State, a: nat, b: nat)
    ensures Holds(s, a, b) <==> a in s.tasks && b in s.tasks && Live(s.tasks[a].status) && Live(s.tasks[b].status)
                                && (s.tasks[b].parent == Some(a) || DependsThrough(s, a, b))
  {
  }

  /** u is s with the live tasks N created under p, and their edges. */
  ghost predicate Grown(s: State, u: State, N: set<nat>, p: Option<nat>, edges: Graph) {
    && u.tasks.Keys == s.tasks.Keys + N && N !! s.tasks.Keys && u.deps == s.deps + edges
    && (forall x :: x in s.tasks ==> AlikeRow(s.tasks[x], u.tasks[x]))
    && (forall x :: x in N ==> Live(u.tasks[x].status) && u.tasks[x].replacement.None? && u.tasks[x].parent == p)
    && (p.Some? ==> p.value in s.tasks && Live(s.tasks[p.value].status))
    && (forall e :: e in edges ==> e.0 in N && e.1 in u.tasks && !u.tasks[e.1].status.Retired?)
    && Acyclic(Inside(edges, N))
  }

  lemma OldChains(s: State, u: State, N: set<nat>, p: Option<nat>, edges: Graph, d: nat, y: nat)
    requires LinksOk(s) && Grown(s, u, N, p, edges)
    ensures d in s.tasks ==> (LeadsTo(u, d, y) <==> LeadsTo(s, d, y))
    ensures d in u.tasks && !u.tasks[d].status.Retired? ==> (LeadsTo(u, d, y) <==> d == y)
  {
    if d in s.tasks {
      if LeadsTo(s, d, y) {
        var w :| Follows(s, w) && w[0] == d && w[|w| - 1] == y;
        assert Follows(u, w);
      }
      if LeadsTo(u, d, y) {
        var w :| Follows(u, w) && w[0] == d && w[|w| - 1] == y;
        OldWalk(s, u, N, p, edges, w);
      }
    }
    if d in u.tasks {
      LeadsToSelf(u, d);
      if LeadsTo(u, d, y) { LeadsToUnfold(u, d, y); }
    }
  }

  lemma {:induction false} OldWalk(s: State, u: State, N: set<nat>, p: Option<nat>, edges: Graph, w: seq<nat>)
    requires LinksOk(s) && Grown(s, u, N, p, edges) && Follows(u, w) && w[0] in s.tasks
    ensures LeadsTo(s, w[0], w[|w| - 1])
    decreases |w|
  {
    LeadsToSelf(s, w[0]);
    if |w| > 1 {
      assert RetiredInto(u, w[0], w[1]) && LinkOk(s, s.tasks[w[0]]);
      var v := w[1..];
      forall i | 0 < i < |v| ensures RetiredInto(u, v[i - 1], v[i]) { assert v[i - 1] == w[i] && v[i] == w[i + 1]; }
      assert Follows(u, v);
      OldWalk(s, u, N, p, edges, v);
      LeadsToStep(s, w[0], w[1], w[|w| - 1]);
    }
  }

  lemma GrownDepends(s: State, u: State, N: set<nat>, p: Option<nat>, edges: Graph, a: nat, b: nat)
    requires LinksOk(s) && Grown(s, u, N, p, edges)
    ensures DependsThrough(u, a, b) <==> DependsThrough(s, a, b) || (a, b) in edges
  {
    forall d ensures (a, d) in u.deps && LeadsTo(u, d, b) <==>
                     ((a, d) in s.deps && LeadsTo(s, d, b)) || ((a, d) in edges && d == b)
    {
      OldChains(s, u, N, p, edges, d, b);
    }
    if (a, b) in edges { assert (a, b) in u.deps && LeadsTo(u, b, b); }
  }

  /** The parent of a new task is p, and no old task has a new parent. */
  lemma GrownParents(s: State, u: State, N: set<nat>, p: Option<nat>, edges: Graph, a: nat, b: nat)
    requires Rows(s) && Grown(s, u, N, p, edges) && b in u.tasks
    ensures u.tasks[b].parent == Some(a) <==> if b in N then p == Some(a) else s.tasks[b].parent == Some(a)
    ensures b !in N && u.tasks[b].parent == Some(a) ==> a in s.tasks
  {
    if b in s.tasks { assert ParentOk(s, s.tasks[b]); }
  }

  lemma GrownHolds(s: State, u: State, N: set<nat>, p: Option<nat>, edges: Graph, e: Edge)
    requires Inv(s) && Grown(s, u, N, p, edges)
    ensures e in HoldGraph(u) <==>
            || e in HoldGraph(s)
            || (e.1 in N && p == Some(e.0))
            || (e in edges && Live(u.tasks[e.1].status))
  {
    InvLinks(s);
    GrownDepends(s, u, N, p, edges, e.0, e.1);
    if e.1 in u.tasks { GrownParents(s, u, N, p, edges, e.0, e.1); }
    HoldsByDepending(s, e.0, e.1);
    HoldsByDepending(u, e.0, e.1);
  }

  function Sources(p: Option<nat>): set<nat> { if p.Some? then {p.value} else {} }

  lemma GrownSetIn(s: State, u: State, N: set<nat>, p: Option<nat>, edges: Graph)
    requires Inv(s) && Grown(s, u, N, p, edges) && Acyclic(HoldGraph(s))
    ensures SetIn(HoldGraph(s), HoldGraph(u), N, Sources(p))
    ensures forall e :: e in HoldGraph(u) && e.0 in N && e.1 !in N <==>
                        e in edges && e.1 in s.tasks && Live(s.tasks[e.1].status)
  {
    var g, h := HoldGraph(s), HoldGraph(u);
    forall e: Edge
      ensures e in h <==> e in g || (e.1 in N && p == Some(e.0)) || (e in edges && Live(u.tasks[e.1].status))
    {
      GrownHolds(s, u, N, p, edges, e);
    }
    AcyclicSubset(Inside(h, N), Inside(edges, N));
  }

  /** One of the edges ends at a live task that p holds. */
  ghost predicate EdgeBack(s: State, edges: Graph, p: nat) {
    exists e :: e in edges && e.1 in s.tasks && Live(s.tasks[e.1].status) && Reach(HoldGraph(s), e.1, p)
  }

  /** New tasks under p tie a knot exactly when one of them depends on a live task that p holds. */
  lemma GrownKnots(s: State, u: State, N: set<nat>, p: Option<nat>, edges: Graph)
    requires Inv(s) && Grown(s, u, N, p, edges) && Acyclic(HoldGraph(s))
    ensures Acyclic(HoldGraph(u)) <==>
            !(p.Some? && EdgeBack(s, edges, p.value))
  {
    GrownSetIn(s, u, N, p, edges);
    SetInAcyclic(HoldGraph(s), HoldGraph(u), N, Sources(p));
  }

  // ---- reopening ----

  /** The tables after the closed task x is live again. */
  ghost predicate Reopened(s: State, u: State, x: nat) {
    && x in s.tasks && Closed(s.tasks[x].status) && u.tasks.Keys == s.tasks.Keys && u.deps == s.deps
    && Live(u.tasks[x].status) && u.tasks[x].parent == s.tasks[x].parent
    && forall y :: y in s.tasks && y != x ==> u.tasks[y] == s.tasks[y]
  }

  /** Chains that went through x now end there; the others are as they were. */
  lemma ReopenedChains(s: State, u: State, x: nat, d: nat, y: nat)
    requires Reopened(s, u, x)
    ensures LeadsTo(u, d, y) ==> LeadsTo(s, d, y)
    ensures LeadsTo(s, d, x) ==> LeadsTo(u, d, x)
    ensures LeadsTo(s, d, y) ==> LeadsTo(u, d, y) || LeadsTo(s, d, x)
  {
    if LeadsTo(u, d, y) {
      var w :| Follows(u, w) && w[0] == d && w[|w| - 1] == y;
      forall i | 0 < i < |w| ensures RetiredInto(s, w[i - 1], w[i]) { assert RetiredInto(u, w[i - 1], w[i]); }
      assert Follows(s, w);
    }
    if LeadsTo(s, d, x) {
      var w :| Follows(s, w) && w[0] == d && w[|w| - 1] == x;
      ReopenedEndsChain(s, u, x, w);
    }
    if LeadsTo(s, d, y) && !LeadsTo(s, d, x) {
      var w :| Follows(s, w) && w[0] == d && w[|w| - 1] == y;
      forall i | 0 <= i < |w| ensures w[i] != x { LeadsToPrefix(s, w, i); }
      forall i | 0 < i < |w| ensures RetiredInto(u, w[i - 1], w[i]) { assert RetiredInto(s, w[i - 1], w[i]); }
      assert Follows(u, w);
    }
  }

  /** Live tasks that would wait for x: its parent, and those that depend on it, if only through a chain. */
  ghost function WouldWait(s: State, x: nat): (sources: set<nat>)
    requires x in s.tasks
    ensures forall a :: a in sources <==>
              a in s.tasks && Live(s.tasks[a].status) && (s.tasks[x].parent == Some(a) || DependsThrough(s, a, x))
  {
    set a | a in s.tasks && Live(s.tasks[a].status) && (s.tasks[x].parent == Some(a) || DependsThrough(s, a, x))
  }

  /** Some live task that x depends on waits for one that would wait for x; or x depends on itself through a chain. */
  ghost predicate ReopeningKnots(s: State, x: nat)
    requires x in s.tasks
  {
    || DependsThrough(s, x, x)
    || exists a, b :: a in WouldWait(s, x) && b in s.tasks && Live(s.tasks[b].status) && DependsThrough(s, x, b)
                      && Reach(HoldGraph(s), b, a)
  }

  lemma ReopenedDepends(s: State, u: State, x: nat, a: nat, y: nat)
    requires Reopened(s, u, x)
    ensures DependsThrough(u, a, y) ==> DependsThrough(s, a, y)
    ensures DependsThrough(s, a, x) ==> DependsThrough(u, a, x)
    ensures DependsThrough(s, a, y) ==> DependsThrough(u, a, y) || DependsThrough(s, a, x)
  {
    forall d ensures LeadsTo(u, d, y) ==> LeadsTo(s, d, y)
             ensures LeadsTo(s, d, x) ==> LeadsTo(u, d, x)
             ensures LeadsTo(s, d, y) ==> LeadsTo(u, d, y) || LeadsTo(s, d, x)
    {
      ReopenedChains(s, u, x, d, y);
    }
  }

  lemma ReopenedEdge(s: State, u: State, x: nat, e: Edge)
    requires Reopened(s, u, x)
    ensures e.0 != x && e.1 != x ==> (e in HoldGraph(u) ==> e in HoldGraph(s))
    ensures e in HoldGraph(s) ==> e.0 != x && e.1 != x && (e in HoldGraph(u) || e.0 in WouldWait(s, x))
    ensures e.0 != x && e.1 == x ==> (e in HoldGraph(u) <==> e.0 in WouldWait(s, x))
  {
    HoldsByDepending(s, e.0, e.1);
    HoldsByDepending(u, e.0, e.1);
    ReopenedDepends(s, u, x, e.0, e.1);
  }

  lemma NoChildOfClosed(s: State, x: nat, b: nat)
    requires Inv(s) && x in s.tasks && Closed(s.tasks[x].status) && b in s.tasks && (b == x || Live(s.tasks[b].status))
    ensures s.tasks[b].parent != Some(x)
  {
    NoSelfLoops(s, x);
    assert ParentOk(s, s.tasks[b]);
  }

  lemma ReopenedSelf(s: State, u: State, x: nat)
    requires Inv(s) && Reopened(s, u, x)
    ensures (x, x) in HoldGraph(u) <==> DependsThrough(s, x, x)
  {
    NoChildOfClosed(s, x, x);
    HoldsByDepending(u, x, x);
    ReopenedDepends(s, u, x, x, x);
  }

  lemma ReopenedEdgeFrom(s: State, u: State, x: nat, b: nat)
    requires Inv(s) && Reopened(s, u, x) && b != x && (x, b) in HoldGraph(u)
    ensures b in s.tasks && Live(s.tasks[b].status) && DependsThrough(s, x, b)
  {
    HoldsByDepending(u, x, b);
    NoChildOfClosed(s, x, b);
    ReopenedDepends(s, u, x, x, b);
  }

  lemma ReopenedEdgeTo(s: State, u: State, x: nat, b: nat)
    requires Reopened(s, u, x) && b in s.tasks && Live(s.tasks[b].status)
    requires DependsThrough(s, x, b) && !DependsThrough(s, x, x)
    ensures (x, b) in HoldGraph(u)
  {
    HoldsByDepending(u, x, b);
    ReopenedDepends(s, u, x, x, b);
  }

  lemma ReopenedSetIn(s: State, u: State, x: nat)
    requires Reopened(s, u, x) && Acyclic(HoldGraph(s)) && (x, x) !in HoldGraph(u)
    ensures SetIn(HoldGraph(s), HoldGraph(u), {x}, WouldWait(s, x))
  {
    forall e: Edge
      ensures e.0 != x && e.1 != x ==> (e in HoldGraph(u) ==> e in HoldGraph(s))
      ensures e in HoldGraph(s) ==> e.0 != x && e.1 != x && (e in HoldGraph(u) || e.0 in WouldWait(s, x))
      ensures e.0 != x && e.1 == x ==> (e in HoldGraph(u) <==> e.0 in WouldWait(s, x))
    {
      ReopenedEdge(s, u, x, e);
    }
    assert Inside(HoldGraph(u), {x}) == {};
    RankAcyclic({}, map[]);
  }

  lemma ReopenedBack(s: State, u: State, x: nat)
    requires Inv(s) && Reopened(s, u, x) && LeadsBack(HoldGraph(s), HoldGraph(u), {x}, WouldWait(s, x))
    ensures ReopeningKnots(s, x)
  {
    var e, a :| e in HoldGraph(u) && e.0 in {x} && e.1 !in {x} && a in WouldWait(s, x) && Reach(HoldGraph(s), e.1, a);
    assert e == (x, e.1);
    ReopenedEdgeFrom(s, u, x, e.1);
  }

  lemma ReopeningKnotsBack(s: State, u: State, x: nat)
    requires Reopened(s, u, x) && ReopeningKnots(s, x) && !DependsThrough(s, x, x)
    ensures LeadsBack(HoldGraph(s), HoldGraph(u), {x}, WouldWait(s, x))
  {
    var a, b :| a in WouldWait(s, x) && b in s.tasks && Live(s.tasks[b].status) && DependsThrough(s, x, b)
                && Reach(HoldGraph(s), b, a);
    ReopenedEdgeTo(s, u, x, b);
    BackBy(HoldGraph(s), HoldGraph(u), {x}, WouldWait(s, x), x, b, a);
  }

  lemma ReopenedKnots(s: State, u: State, x: nat)
    requires Inv(s) && Reopened(s, u, x) && Acyclic(HoldGraph(s))
    ensures Acyclic(HoldGraph(u)) <==> !ReopeningKnots(s, x)
  {
    var h := HoldGraph(u);
    ReopenedSelf(s, u, x);
    if DependsThrough(s, x, x) {
      ReachSelf(h, x);
      EdgeOnReachIsCycle(h, x, x);
    } else {
      ReopenedSetIn(s, u, x);
      SetInAcyclic(HoldGraph(s), h, {x}, WouldWait(s, x));
      if ReopeningKnots(s, x) { ReopeningKnotsBack(s, u, x); }
      if !Acyclic(h) { ReopenedBack(s, u, x); }
    }
  }

  // ---- a new parent ----

  /** Only the parent of x changes. */
  ghost predicate Reparented(s: State, u: State, x: nat) {
    && x in s.tasks && u.tasks.Keys == s.tasks.Keys && u.deps == s.deps
    && (forall y :: y in s.tasks ==>
          u.tasks[y].status == s.tasks[y].status && u.tasks[y].replacement == s.tasks[y].replacement)
    && (forall y :: y in s.tasks && y != x ==> u.tasks[y].parent == s.tasks[y].parent)
  }

  lemma ReparentedEdge(s: State, u: State, x: nat, e: Edge)
    requires Reparented(s, u, x)
    ensures e.1 != x ==> (e in HoldGraph(u) <==> e in HoldGraph(s))
    ensures e in HoldGraph(u) ==> e in HoldGraph(s) || (e.1 == x && u.tasks[x].parent == Some(e.0))
  {
    forall d ensures LeadsTo(s, d, e.1) <==> LeadsTo(u, d, e.1) { SameChains(s, u, d, e.1); }
  }

  /** A walk from x along an acyclic graph never comes back to x. */
  lemma NeverBack(g: Graph, h: Graph, x: nat, p: nat)
    requires Acyclic(g) && Reach(g, x, p) && forall e :: e in g && e.1 != x ==> e in h
    ensures Reach(h, x, p)
  {
    var w :| Connects(g, w, x, p);
    forall i | 0 < i < |w| ensures (w[i - 1], w[i]) in h {
      if w[i] == x { RepeatIsCycle(g, w, 0, i); }
    }
    assert Connects(h, w, x, p);
  }

  lemma ReparentedKnots(s: State, u: State, x: nat)
    requires Reparented(s, u, x) && Acyclic(HoldGraph(s))
    requires var p := u.tasks[x].parent;
             p.Some? && Live(s.tasks[x].status) ==> p.value in s.tasks && Live(s.tasks[p.value].status)
    ensures var p := u.tasks[x].parent;
            Acyclic(HoldGraph(u)) <==> !(p.Some? && Live(s.tasks[x].status) && Reach(HoldGraph(s), x, p.value))
  {
    var g, h, p := HoldGraph(s), HoldGraph(u), u.tasks[x].parent;
    forall e: Edge
      ensures e.1 != x ==> (e in h <==> e in g)
      ensures e in h ==> e in g || (e.1 == x && p == Some(e.0))
    {
      ReparentedEdge(s, u, x, e);
    }
    if p.Some? && Live(s.tasks[x].status) {
      assert Holds(u, p.value, x);
      if Reach(g, x, p.value) {
        NeverBack(g, h, x, p.value);
        EdgeOnReachIsCycle(h, p.value, x);
      } else {
        AddEdgeAcyclic(g, p.value, x);
        AcyclicSubset(h, g + {(p.value, x)});
      }
    } else {
      AcyclicSubset(h, g);
    }
  }

  // ---- calls that only let go ----

  /** The same links; at most fewer edges and fewer live tasks. */
  ghost predicate LetsGo(s: State, u: State) {
    && u.tasks.Keys == s.tasks.Keys && u.deps <= s.deps
    && forall y :: y in s.tasks ==>
         && (Live(u.tasks[y].status) ==> Live(s.tasks[y].status) && u.tasks[y].parent == s.tasks[y].parent)
         && u.tasks[y].replacement == s.tasks[y].replacement
         && (u.tasks[y].replacement.Some? ==> (u.tasks[y].status.Retired? <==> s.tasks[y].status.Retired?))
  }

  lemma LetsGoKnotsNothing(s: State, u: State)
    requires LetsGo(s, u) && Acyclic(HoldGraph(s))
    ensures Acyclic(HoldGraph(u))
  {
    forall d, y ensures LeadsTo(s, d, y) <==> LeadsTo(u, d, y) { SameChains(s, u, d, y); }
    forall e: Edge ensures e in HoldGraph(u) ==> e in HoldGraph(s) { }
    AcyclicSubset(HoldGraph(u), HoldGraph(s));
  }
}
