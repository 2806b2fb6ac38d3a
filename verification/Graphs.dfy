/** Finite directed graphs over task numbers: walks, reachability, acyclicity.

    Every admission rule of the planner is stated over these notions, and the
    search loops in TaskGraph are proved against them. */
module Graphs {

  type Edge = (nat, nat)
  type Graph = set<Edge>

  /** A nonempty node sequence in which every hop is an edge. */
  ghost predicate Walk(g: Graph, w: seq<nat>) {
    && |w| > 0
    && forall i :: 0 < i < |w| ==> (w[i - 1], w[i]) in g
  }

  ghost predicate Connects(g: Graph, w: seq<nat>, a: nat, b: nat) {
    Walk(g, w) && w[0] == a && w[|w| - 1] == b
  }

  /** b can be reached from a; every node reaches itself by the empty walk. */
  ghost predicate Reach(g: Graph, a: nat, b: nat) {
    exists w :: Connects(g, w, a, b)
  }

  /** A walk with at least one hop that ends where it starts. */
  ghost predicate ClosedWalk(g: Graph, w: seq<nat>) {
    |w| >= 2 && Walk(g, w) && w[0] == w[|w| - 1]
  }

  ghost predicate Acyclic(g: Graph) {
    forall w :: !ClosedWalk(g, w)
  }

  lemma JoinWalks(g: Graph, v: seq<nat>, w: seq<nat>)
    requires Walk(g, v) && Walk(g, w) && v[|v| - 1] == w[0]
    ensures Connects(g, v + w[1..], v[0], w[|w| - 1])
    ensures |v + w[1..]| == |v| + |w| - 1
  {
    var u := v + w[1..];
    forall i | 0 < i < |u| ensures (u[i - 1], u[i]) in g {
      if i >= |v| {
        assert u[i] == w[i - |v| + 1];
        assert u[i - 1] == w[i - |v|];
      }
    }
  }

  lemma ReachSelf(g: Graph, a: nat)
    ensures Reach(g, a, a)
  {
    assert Connects(g, [a], a, a);
  }

  lemma ReachEdge(g: Graph, a: nat, b: nat)
    requires (a, b) in g
    ensures Reach(g, a, b)
  {
    assert Connects(g, [a, b], a, b);
  }

  lemma ReachTrans(g: Graph, a: nat, b: nat, c: nat)
    requires Reach(g, a, b) && Reach(g, b, c)
    ensures Reach(g, a, c)
  {
    var v :| Connects(g, v, a, b);
    var w :| Connects(g, w, b, c);
    JoinWalks(g, v, w);
  }

  lemma ReachStep(g: Graph, a: nat, b: nat, c: nat)
    requires (a, b) in g && Reach(g, b, c)
    ensures Reach(g, a, c)
  {
    ReachEdge(g, a, b);
    ReachTrans(g, a, b, c);
  }

  lemma ReachMono(g: Graph, h: Graph, a: nat, b: nat)
    requires g <= h && Reach(g, a, b)
    ensures Reach(h, a, b)
  {
    var w :| Connects(g, w, a, b);
    assert Connects(h, w, a, b);
  }

  /** A node with a first hop: reaching anything else starts along an edge. */
  lemma ReachFirstHop(g: Graph, a: nat, b: nat) returns (n: nat)
    requires Reach(g, a, b) && a != b
    ensures (a, n) in g && Reach(g, n, b)
  {
    var w :| Connects(g, w, a, b);
    n := w[1];
    assert (w[0], w[1]) in g;
    assert Connects(g, w[1..], n, b);
  }

  lemma EdgeOnReachIsCycle(g: Graph, a: nat, b: nat)
    requires (a, b) in g && Reach(g, b, a)
    ensures !Acyclic(g)
  {
    var w :| Connects(g, w, b, a);
    JoinWalks(g, [a, b], w);
    assert ClosedWalk(g, [a, b] + w[1..]);
  }

  /** A closed walk gives an edge whose head reaches its tail. */
  lemma CycleHasEdge(g: Graph, w: seq<nat>)
    requires ClosedWalk(g, w)
    ensures (w[0], w[1]) in g && Reach(g, w[1], w[0])
  {
    assert Connects(g, w[1..], w[1], w[0]);
  }

  lemma AcyclicSubset(g: Graph, h: Graph)
    requires Acyclic(h) && g <= h
    ensures Acyclic(g)
  {
    forall w ensures !ClosedWalk(g, w) {
      if ClosedWalk(g, w) { assert ClosedWalk(h, w); }
    }
  }

  /** Reaching c in the graph with one extra edge either avoids it or splits at it. */
  lemma {:induction false} WalkOverEdge(g: Graph, a: nat, b: nat, w: seq<nat>)
    requires Walk(g + {(a, b)}, w)
    ensures || Reach(g, w[0], w[|w| - 1])
            || (Reach(g, w[0], a) && Reach(g, b, w[|w| - 1]))
    decreases |w|
  {
    var last := w[|w| - 1];
    if |w| == 1 {
      ReachSelf(g, w[0]);
    } else {
      var rest := w[1..];
      assert rest[|rest| - 1] == last;
      WalkOverEdge(g, a, b, rest);
      assert (w[0], w[1]) in g + {(a, b)};
      if (w[0], w[1]) in g {
        if Reach(g, rest[0], last) { ReachStep(g, w[0], w[1], last); }
        else { ReachStep(g, w[0], w[1], a); }
      } else {
        ReachSelf(g, a);
      }
    }
  }

  /** The admission rule for a new edge (a, b): it keeps the graph acyclic
      exactly when b does not already reach a. */
  lemma AddEdgeAcyclic(g: Graph, a: nat, b: nat)
    requires Acyclic(g)
    ensures Acyclic(g + {(a, b)}) <==> !Reach(g, b, a)
  {
    var h := g + {(a, b)};
    if Reach(g, b, a) {
      ReachMono(g, h, b, a);
      EdgeOnReachIsCycle(h, a, b);
    } else {
      forall w ensures !ClosedWalk(h, w) {
        if ClosedWalk(h, w) {
          CycleHasEdge(h, w);
          var rest := w[1..];
          WalkOverEdge(g, a, b, rest);
          if (w[0], w[1]) in g {
            if Reach(g, w[1], w[0]) {
              EdgeOnReachIsCycle(g, w[0], w[1]);
            } else {
              ReachStep(g, w[0], w[1], a);
              ReachTrans(g, b, w[0], a);
            }
          }
        }
      }
    }
  }

  /** A rank that strictly falls along every edge rules out cycles. */
  lemma RankAcyclic(g: Graph, rank: map<nat, int>)
    requires forall e :: e in g ==> e.0 in rank && e.1 in rank && rank[e.1] < rank[e.0]
    ensures Acyclic(g)
  {
    forall w ensures !ClosedWalk(g, w) {
      if ClosedWalk(g, w) {
        RankFalls(g, rank, w);
      }
    }
  }

  lemma {:induction false} RankFalls(g: Graph, rank: map<nat, int>, w: seq<nat>)
    requires forall e :: e in g ==> e.0 in rank && e.1 in rank && rank[e.1] < rank[e.0]
    requires Walk(g, w) && |w| >= 2
    ensures w[0] in rank && w[|w| - 1] in rank && rank[w[|w| - 1]] < rank[w[0]]
    decreases |w|
  {
    assert (w[0], w[1]) in g;
    if |w| > 2 {
      assert Walk(g, w[1..]);
      RankFalls(g, rank, w[1..]);
    }
  }

  /** Layers that never fall along edges are constant around a closed walk. */
  lemma {:induction false} LayersRise(g: Graph, layer: map<nat, nat>, w: seq<nat>, i: nat, j: nat)
    requires forall e :: e in g ==> e.0 in layer && e.1 in layer && layer[e.0] <= layer[e.1]
    requires Walk(g, w) && |w| >= 2 && i <= j < |w|
    ensures w[i] in layer && w[j] in layer && layer[w[i]] <= layer[w[j]]
    decreases j - i
  {
    if i < j {
      LayersRise(g, layer, w, i, j - 1);
      assert (w[j - 1], w[j]) in g;
    } else if i > 0 {
      assert (w[i - 1], w[i]) in g;
    } else {
      assert (w[0], w[1]) in g;
    }
  }

  lemma ClosedWalkOneLayer(g: Graph, layer: map<nat, nat>, w: seq<nat>)
    requires forall e :: e in g ==> e.0 in layer && e.1 in layer && layer[e.0] <= layer[e.1]
    requires ClosedWalk(g, w)
    ensures forall i :: 0 <= i < |w| ==> w[i] in layer && w[0] in layer && layer[w[i]] == layer[w[0]]
  {
    forall i | 0 <= i < |w| ensures w[i] in layer && w[0] in layer && layer[w[i]] == layer[w[0]] {
      LayersRise(g, layer, w, 0, i);
      LayersRise(g, layer, w, i, |w| - 1);
    }
  }

  /** A repeated node inside a walk cuts out a closed walk. */
  lemma RepeatIsCycle(g: Graph, w: seq<nat>, i: nat, j: nat)
    requires Walk(g, w) && i < j < |w| && w[i] == w[j]
    ensures !Acyclic(g)
  {
    var c := w[i..j + 1];
    forall k | 0 < k < |c| ensures (c[k - 1], c[k]) in g {
      assert c[k - 1] == w[i + k - 1] && c[k] == w[i + k];
      assert (w[i + k - 1], w[i + k]) in g;
    }
    assert ClosedWalk(g, c);
  }

  lemma {:induction false} DistinctBound(w: seq<nat>, S: set<nat>)
    requires forall i :: 0 <= i < |w| ==> w[i] in S
    requires forall i, j :: 0 <= i < j < |w| ==> w[i] != w[j]
    ensures |w| <= |S|
    decreases |w|
  {
    if |w| > 0 {
      var n := |w| - 1;
      var T := S - {w[n]};
      assert forall i :: 0 <= i < n ==> w[..n][i] in T;
      DistinctBound(w[..n], T);
    }
  }

  ghost predicate HasNext(g: Graph, S: set<nat>, x: nat) {
    exists y :: y in S && (x, y) in g
  }

  /** A nonempty finite set in which every node has a successor contains a cycle. */
  lemma NoSinkIsCycle(g: Graph, S: set<nat>)
    requires S != {}
    requires forall x :: x in S ==> HasNext(g, S, x)
    ensures !Acyclic(g)
  {
    var x :| x in S;
    var w := LongWalk(g, S, x, |S|);
    if forall i, j :: 0 <= i < j < |w| ==> w[i] != w[j] {
      DistinctBound(w, S);
    } else {
      var i, j :| 0 <= i < j < |w| && w[i] == w[j];
      RepeatIsCycle(g, w, i, j);
    }
  }

  lemma {:induction false} LongWalk(g: Graph, S: set<nat>, x: nat, n: nat) returns (w: seq<nat>)
    requires x in S
    requires forall x :: x in S ==> HasNext(g, S, x)
    ensures Walk(g, w) && w[0] == x && |w| == n + 1 && forall i :: 0 <= i < |w| ==> w[i] in S
    decreases n
  {
    if n == 0 {
      w := [x];
    } else {
      var y :| y in S && (x, y) in g;
      var rest := LongWalk(g, S, y, n - 1);
      w := [x] + rest;
    }
  }

  /** An acyclic graph on a nonempty finite node set has a node with no successor there. */
  lemma SinkExists(g: Graph, S: set<nat>) returns (x: nat)
    requires Acyclic(g) && S != {}
    ensures x in S && forall y :: y in S ==> (x, y) !in g
  {
    if forall x :: x in S ==> HasNext(g, S, x) {
      NoSinkIsCycle(g, S);
    }
    x :| x in S && !HasNext(g, S, x);
  }

  /** Every node of a closed walk has a hop leaving it and a hop entering it. */
  lemma HopOut(g: Graph, w: seq<nat>, i: nat) returns (y: nat)
    requires ClosedWalk(g, w) && i < |w|
    ensures (w[i], y) in g
  {
    y := if i + 1 < |w| then w[i + 1] else w[1];
  }

  lemma HopIn(g: Graph, w: seq<nat>, i: nat) returns (y: nat)
    requires ClosedWalk(g, w) && i < |w|
    ensures (y, w[i]) in g
  {
    y := if i > 0 then w[i - 1] else w[|w| - 2];
  }

  /** Edges into a node that has no successor never close a cycle. */
  lemma IntoSinkAcyclic(g: Graph, h: Graph, x: nat)
    requires Acyclic(g)
    requires forall e :: e in h ==> e in g || e.1 == x
    requires forall e :: e in h ==> e.0 != x
    ensures Acyclic(h)
  {
    forall w ensures !ClosedWalk(h, w) {
      if ClosedWalk(h, w) {
        forall i | 0 < i < |w| ensures (w[i - 1], w[i]) in g {
          assert (w[i - 1], w[i]) in h;
          var next := HopOut(h, w, i);
          assert w[i] != x;
        }
        assert ClosedWalk(g, w);
      }
    }
  }

  /** A fresh node with no edge into it cannot lie on a cycle. */
  lemma FromSourceAcyclic(g: Graph, h: Graph, x: nat)
    requires Acyclic(g)
    requires forall e :: e in h ==> e in g || e.0 == x
    requires forall e :: e in h ==> e.1 != x
    ensures Acyclic(h)
  {
    forall w ensures !ClosedWalk(h, w) {
      if ClosedWalk(h, w) {
        forall i | 0 < i < |w| ensures (w[i - 1], w[i]) in g {
          assert (w[i - 1], w[i]) in h;
          var prev := HopIn(h, w, i - 1);
          assert w[i - 1] != x;
        }
        assert ClosedWalk(g, w);
      }
    }
  }

  /** A set closed under successors keeps every walk that enters it. */
  lemma {:induction false} WalkStays(g: Graph, S: set<nat>, w: seq<nat>)
    requires Walk(g, w) && w[0] in S
    requires forall e :: e in g && e.0 in S ==> e.1 in S
    ensures forall i :: 0 <= i < |w| ==> w[i] in S
    decreases |w|
  {
    if |w| > 1 {
      assert (w[0], w[1]) in g;
      assert Walk(g, w[1..]);
      WalkStays(g, S, w[1..]);
      forall i | 0 <= i < |w| ensures w[i] in S {
        if i > 0 { assert w[i] == w[1..][i - 1]; }
      }
    }
  }

  /** A node map that carries edges of g to edges of h carries cycles too. */
  lemma MapAcyclic(g: Graph, h: Graph, f: map<nat, nat>)
    requires Acyclic(h)
    requires forall e :: e in g ==> e.0 in f && e.1 in f && (f[e.0], f[e.1]) in h
    ensures Acyclic(g)
  {
    forall w ensures !ClosedWalk(g, w) {
      if ClosedWalk(g, w) {
        var v := MapWalk(g, h, f, w);
      }
    }
  }

  lemma MapWalk(g: Graph, h: Graph, f: map<nat, nat>, w: seq<nat>) returns (v: seq<nat>)
    requires ClosedWalk(g, w)
    requires forall e :: e in g ==> e.0 in f && e.1 in f && (f[e.0], f[e.1]) in h
    ensures |v| == |w| && forall i :: 0 <= i < |w| ==> w[i] in f && v[i] == f[w[i]]
    ensures ClosedWalk(h, v)
  {
    forall i | 0 <= i < |w| ensures w[i] in f {
      var y := HopOut(g, w, i);
    }
    v := seq(|w|, i requires 0 <= i < |w| => f[w[i]]);
    forall i | 0 < i < |v| ensures (v[i - 1], v[i]) in h {
      assert (w[i - 1], w[i]) in g;
    }
  }
}
