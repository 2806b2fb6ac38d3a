/** Exactly when adding a dependency, or retiring into a replacement, ties a knot in the hold graph. */
module HoldChanges {
  import opened Basics
  import opened Graphs
  import opened Records
  import opened Waiting
  import opened Lifecycle
  import opened Definition
  import opened Invariants
  import opened Settlement
  import opened Deadlock

  // ---- edges into one node ----

  ghost function Fan(g: Graph, sources: set<nat>, r: nat): (h: Graph)
    ensures forall e :: e in h <==> e in g || (e.0 in sources && e.1 == r)
  {
    g + set a | a in sources :: (a, r)
  }

  lemma {:induction false} WalkPastFan(g: Graph, sources: set<nat>, r: nat, w: seq<nat>)
    requires Walk(Fan(g, sources, r), w)
    ensures Reach(g, w[0], w[|w| - 1]) || Reach(g, r, w[|w| - 1])
    decreases |w|
  {
    if |w| == 1 {
      ReachSelf(g, w[0]);
    } else {
      assert (w[0], w[1]) in Fan(g, sources, r);
      assert Walk(Fan(g, sources, r), w[1..]);
      WalkPastFan(g, sources, r, w[1..]);
      if (w[0], w[1]) in g && Reach(g, w[1], w[|w| - 1]) { ReachStep(g, w[0], w[1], w[|w| - 1]); }
    }
  }

  lemma ReachPastFan(g: Graph, sources: set<nat>, r: nat, b: nat)
    requires Reach(Fan(g, sources, r), r, b)
    ensures Reach(g, r, b)
  {
    var w :| Connects(Fan(g, sources, r), w, r, b);
    WalkPastFan(g, sources, r, w);
  }

  /** Edges into one node close a cycle exactly when that node reaches one of their sources. */
  lemma FanAcyclic(g: Graph, sources: set<nat>, r: nat)
    requires Acyclic(g)
    ensures Acyclic(Fan(g, sources, r)) <==> forall a :: a in sources ==> !Reach(g, r, a)
  {
    var h := Fan(g, sources, r);
    forall a | a in sources && Reach(g, r, a) ensures !Acyclic(h) {
      ReachMono(g, h, r, a);
      EdgeOnReachIsCycle(h, a, r);
    }
    if !Acyclic(h) {
      var w :| ClosedWalk(h, w);
      CycleThroughFan(g, sources, r, w);
    }
  }

  lemma CycleThroughFan(g: Graph, sources: set<nat>, r: nat, w: seq<nat>)
    requires Acyclic(g) && ClosedWalk(Fan(g, sources, r), w)
    ensures exists a :: a in sources && Reach(g, r, a)
  {
    var h := Fan(g, sources, r);
    if i :| 0 < i < |w| && (w[i - 1], w[i]) !in g {
      var a := w[i - 1];
      assert (w[i - 1], w[i]) in h && a in sources && w[i] == r;
      assert Connects(h, w[i..], r, w[0]) by { assert Walk(h, w[i..]); }
      assert Connects(h, w[..i], w[0], a) by { assert Walk(h, w[..i]); }
      ReachTrans(h, r, w[0], a);
      ReachPastFan(g, sources, r, a);
    } else {
      assert ClosedWalk(g, w);
    }
  }

  // ---- adding a dependency ----

  lemma AddedHolds(s: State, u: State, x: nat, on: nat, a: nat, b: nat)
    requires x in s.tasks && Live(s.tasks[x].status) && on in s.tasks && !s.tasks[on].status.Retired?
    requires u.tasks == s.tasks && u.deps == s.deps + {(x, on)}
    ensures Holds(u, a, b) <==> Holds(s, a, b) || (a == x && b == on && Live(s.tasks[on].status))
  {
    forall d, y ensures LeadsTo(s, d, y) <==> LeadsTo(u, d, y) { SameChains(s, u, d, y); }
    LeadsToSelf(u, on);
    if LeadsTo(u, on, b) { LeadsToUnfold(u, on, b); }
  }

  /** A dependency on a live task keeps the hold graph acyclic exactly when that task is not held by the dependent;
      the admission check asks this of the wait graph, which does not follow replacements. */
  lemma AddDepKnots(s: State, c: Caller, x: nat, on: nat, why: Option<string>)
    requires AddDep(s, c, x, on, why).Committed? && Acyclic(HoldGraph(s))
    ensures Acyclic(HoldGraph(AddDep(s, c, x, on, why).state)) <==>
            !(Live(s.tasks[on].status) && Reach(HoldGraph(s), on, x))
  {
    var u := WithDep(s, c, x, on, why);
    var g := HoldGraph(s);
    forall e: Edge ensures e in HoldGraph(u) <==> e in g || (e.0 == x && e.1 == on && Live(s.tasks[on].status)) {
      AddedHolds(s, u, x, on, e.0, e.1);
    }
    if Live(s.tasks[on].status) {
      assert HoldGraph(u) == g + {(x, on)};
      AddEdgeAcyclic(g, x, on);
    } else {
      assert HoldGraph(u) == g;
    }
  }

  // ---- retiring into a replacement ----

  /** Live tasks that wait for x through a dependency. */
  ghost function HeldBy(s: State, x: nat): (held: set<nat>)
    ensures forall a :: a in held <==> a in s.tasks && Live(s.tasks[a].status) && a != x && DependsThrough(s, a, x)
  {
    set a | a in s.tasks && Live(s.tasks[a].status) && a != x && DependsThrough(s, a, x)
  }

  ghost predicate DependsThrough(s: State, a: nat, x: nat) { exists d :: (a, d) in s.deps && LeadsTo(s, d, x) }

  ghost function Without(g: Graph, x: nat): (h: Graph)
    ensures forall e :: e in h <==> e in g && e.0 != x && e.1 != x
  {
    set e | e in g && e.0 != x && e.1 != x
  }

  /** The tables after x, so far live and no replacement, is retired into r. */
  ghost predicate RetiresInto(s: State, u: State, x: nat, r: nat) {
    && x in s.tasks && r in s.tasks && x != r && Live(s.tasks[x].status) && s.tasks[x].replacement.None?
    && !s.tasks[r].status.Retired?
    && u.deps == s.deps && u.tasks.Keys == s.tasks.Keys && RetiredInto(u, x, r)
    && u.tasks[x].parent == s.tasks[x].parent
    && forall y :: y in s.tasks && y != x ==> u.tasks[y] == s.tasks[y]
  }

  /** Chains that ended at x now go on to r; the others are as they were. */
  lemma {:induction false} ChainsTo(s: State, u: State, x: nat, r: nat, w: seq<nat>)
    requires RetiresInto(s, u, x, r) && Follows(s, w)
    ensures LeadsTo(u, w[0], if w[|w| - 1] == x then r else w[|w| - 1])
    decreases |w|
  {
    if |w| == 1 {
      LeadsToSelf(u, w[0]);
      LeadsToSelf(u, r);
      if w[0] == x { LeadsToStep(u, x, r, r); }
    } else {
      assert RetiredInto(s, w[0], w[1]);
      var v := w[1..];
      forall i | 0 < i < |v| ensures RetiredInto(s, v[i - 1], v[i]) { assert v[i - 1] == w[i] && v[i] == w[i + 1]; }
      assert Follows(s, v);
      ChainsTo(s, u, x, r, v);
      assert RetiredInto(u, w[0], w[1]);
      LeadsToStep(u, w[0], w[1], if w[|w| - 1] == x then r else w[|w| - 1]);
    }
  }

  lemma {:induction false} ChainsFrom(s: State, u: State, x: nat, r: nat, w: seq<nat>)
    requires RetiresInto(s, u, x, r) && Follows(u, w) && w[|w| - 1] != x
    ensures LeadsTo(s, w[0], w[|w| - 1]) || (w[|w| - 1] == r && LeadsTo(s, w[0], x))
    decreases |w|
  {
    if |w| == 1 {
      LeadsToSelf(s, w[0]);
    } else {
      assert RetiredInto(u, w[0], w[1]);
      var v := w[1..];
      forall i | 0 < i < |v| ensures RetiredInto(u, v[i - 1], v[i]) { assert v[i - 1] == w[i] && v[i] == w[i + 1]; }
      assert Follows(u, v);
      if w[0] == x {
        LeadsToSelf(s, x);
        LeadsToUnfold(u, r, w[|w| - 1]) by { assert LeadsTo(u, r, w[|w| - 1]); }
      } else {
        ChainsFrom(s, u, x, r, v);
        var y := if LeadsTo(s, w[1], w[|w| - 1]) then w[|w| - 1] else x;
        LeadsToStep(s, w[0], w[1], y);
      }
    }
  }

  lemma ChainsMoved(s: State, u: State, x: nat, r: nat, d: nat, y: nat)
    requires RetiresInto(s, u, x, r) && y != x
    ensures LeadsTo(u, d, y) <==> LeadsTo(s, d, y) || (y == r && LeadsTo(s, d, x))
  {
    if LeadsTo(u, d, y) {
      var w :| Follows(u, w) && w[0] == d && w[|w| - 1] == y;
      ChainsFrom(s, u, x, r, w);
    }
    if LeadsTo(s, d, y) {
      var w :| Follows(s, w) && w[0] == d && w[|w| - 1] == y;
      ChainsTo(s, u, x, r, w);
    }
    if LeadsTo(s, d, x) {
      var w :| Follows(s, w) && w[0] == d && w[|w| - 1] == x;
      ChainsTo(s, u, x, r, w);
    }
  }

  lemma RetiredHolds(s: State, u: State, x: nat, r: nat, e: Edge)
    requires RetiresInto(s, u, x, r)
    ensures e in HoldGraph(u) <==>
            e in Without(HoldGraph(s), x) || (Live(s.tasks[r].status) && e.0 in HeldBy(s, x) && e.1 == r)
  {
    forall d | e.1 != x ensures LeadsTo(u, d, e.1) <==> LeadsTo(s, d, e.1) || (e.1 == r && LeadsTo(s, d, x)) {
      ChainsMoved(s, u, x, r, d, e.1);
    }
  }

  /** Walks between other tasks cannot pass through x when a walk from x back to the target would close a cycle. */
  lemma {:induction false} WalkAround(g: Graph, x: nat, w: seq<nat>)
    requires Acyclic(g) && Walk(g, w) && w[0] != x && (w[|w| - 1], x) in g
    ensures Walk(Without(g, x), w)
  {
    forall i | 0 <= i < |w| ensures w[i] != x {
      if w[i] == x {
        assert Connects(g, w[i..], x, w[|w| - 1]) by { assert Walk(g, w[i..]); }
        EdgeOnReachIsCycle(g, w[|w| - 1], x);
      }
    }
    forall i | 0 < i < |w| ensures (w[i - 1], w[i]) in Without(g, x) { assert (w[i - 1], w[i]) in g; }
  }

  lemma ReachAround(g: Graph, x: nat, r: nat, a: nat)
    requires Acyclic(g) && r != x && (a, x) in g
    ensures Reach(Without(g, x), r, a) <==> Reach(g, r, a)
  {
    if Reach(g, r, a) {
      var w :| Connects(g, w, r, a);
      WalkAround(g, x, w);
      assert Connects(Without(g, x), w, r, a);
    }
    if Reach(Without(g, x), r, a) { ReachMono(Without(g, x), g, r, a); }
  }

  /** Retiring x into r keeps the hold graph acyclic exactly when r, if live, does not wait for a task that waits for x
      through a dependency, nor is one. */
  lemma RetireKnots(s: State, u: State, x: nat, r: nat)
    requires RetiresInto(s, u, x, r) && Acyclic(HoldGraph(s))
    ensures Acyclic(HoldGraph(u)) <==>
            (Live(s.tasks[r].status) ==> forall a :: a in HeldBy(s, x) ==> !Reach(HoldGraph(s), r, a))
  {
    var g := HoldGraph(s);
    var h := Without(g, x);
    AcyclicSubset(h, g);
    forall e: Edge
      ensures e in HoldGraph(u) <==> e in h || (Live(s.tasks[r].status) && e.0 in HeldBy(s, x) && e.1 == r)
    {
      RetiredHolds(s, u, x, r, e);
    }
    if Live(s.tasks[r].status) {
      assert HoldGraph(u) == Fan(h, HeldBy(s, x), r);
      FanAcyclic(h, HeldBy(s, x), r);
      forall a | a in HeldBy(s, x) ensures Reach(h, r, a) <==> Reach(g, r, a) { ReachAround(g, x, r, a); }
    } else {
      assert HoldGraph(u) == h;
    }
  }

  lemma RetiresAsStated(s: State, c: Caller, x: nat, r: nat, why: Option<string>)
    requires Inv(s) && Retire(s, c, x, Some(r), why).Committed?
    ensures RetiresInto(s, Retire(s, c, x, Some(r), why).state, x, r)
  {
    assert RowOk(s, s.tasks[x]);
  }
}
