/** Cycle checks over stored rows, and the report of every wait loop. */
module LoopReport {
  import opened Basics
  import opened Graphs
  import opened FirstCycleSearch
  import opened TaskGraph

  // ---- adjacency lists over task positions ----

  /** `adjacency` is graph g with every task replaced by its position in `nodes`. */
  ghost predicate Indexes(adjacency: seq<seq<nat>>, nodes: seq<nat>, g: Graph) {
    && WellFormed(adjacency) && |adjacency| == |nodes| && Distinct(nodes)
    && (forall e :: e in g ==> e.0 in nodes && e.1 in nodes)
    && forall i, j :: 0 <= i < |nodes| && 0 <= j < |nodes| ==>
         ((i, j) in IndexGraph(adjacency) <==> (nodes[i], nodes[j]) in g)
  }

  ghost function At(nodes: seq<nat>, x: nat): (i: nat)
    requires x in nodes
    ensures i < |nodes| && nodes[i] == x
  {
    var i :| 0 <= i < |nodes| && nodes[i] == x;
    i
  }

  lemma IndexEdgeBounds(adjacency: seq<seq<nat>>, e: Edge)
    requires WellFormed(adjacency) && e in IndexGraph(adjacency)
    ensures e.0 < |adjacency| && e.1 < |adjacency|
  {
  }

  lemma IndexesAcyclic(adjacency: seq<seq<nat>>, nodes: seq<nat>, g: Graph)
    requires Indexes(adjacency, nodes, g)
    ensures Acyclic(IndexGraph(adjacency)) <==> Acyclic(g)
  {
    var h := IndexGraph(adjacency);
    if Acyclic(h) {
      var back := map x | x in nodes :: At(nodes, x);
      MapAcyclic(g, h, back);
    }
    if Acyclic(g) {
      var out := map i | 0 <= i < |nodes| :: nodes[i];
      forall e | e in h ensures e.0 in out && e.1 in out && (out[e.0], out[e.1]) in g {
        IndexEdgeBounds(adjacency, e);
        assert (e.0, e.1) == e;
      }
      MapAcyclic(h, g, out);
    }
  }

  lemma PushEdge(adjacency: seq<seq<nat>>, from: nat, to: nat)
    requires from < |adjacency|
    ensures IndexGraph(adjacency[from := adjacency[from] + [to]]) == IndexGraph(adjacency) + {(from, to)}
  {
    var after := adjacency[from := adjacency[from] + [to]];
    forall e | e in IndexGraph(adjacency) + {(from, to)} ensures e in IndexGraph(after) {
      if e == (from, to) {
        assert after[from][|adjacency[from]|] == to;
      } else {
        var i, k :| 0 <= i < |adjacency| && 0 <= k < |adjacency[i]| && e == (i, adjacency[i][k]);
        assert after[i][k] == adjacency[i][k];
      }
    }
    forall e | e in IndexGraph(after) ensures e in IndexGraph(adjacency) + {(from, to)} {
      var i, k :| 0 <= i < |after| && 0 <= k < |after[i]| && e == (i, after[i][k]);
      if i != from || k < |adjacency[from]| {
        assert after[i][k] == adjacency[i][k];
      }
    }
  }

  function Without(targets: seq<nat>, to: nat): (r: seq<nat>)
    ensures forall x :: x in r <==> x in targets && x != to
  {
    if targets == [] then []
    else if targets[0] == to then Without(targets[1..], to)
    else [targets[0]] + Without(targets[1..], to)
  }

  lemma DropEdge(adjacency: seq<seq<nat>>, from: nat, to: nat)
    requires from < |adjacency|
    ensures IndexGraph(adjacency[from := Without(adjacency[from], to)]) == IndexGraph(adjacency) - {(from, to)}
  {
    var after := adjacency[from := Without(adjacency[from], to)];
    forall e ensures e in IndexGraph(after) <==> e in IndexGraph(adjacency) - {(from, to)} {
      InIndexGraph(adjacency, e);
      InIndexGraph(after, e);
    }
  }

  lemma InIndexGraph(adjacency: seq<seq<nat>>, e: Edge)
    ensures e in IndexGraph(adjacency) <==> e.0 < |adjacency| && e.1 in adjacency[e.0]
  {
    if e.0 < |adjacency| && e.1 in adjacency[e.0] {
      var k :| 0 <= k < |adjacency[e.0]| && adjacency[e.0][k] == e.1;
    }
  }

  /** The rows whose two ends are both known tasks. */
  ghost function Known(rows: seq<Edge>, nodes: seq<nat>): Graph {
    set e | e in rows && e.0 in nodes && e.1 in nodes
  }

  /** Position of a task; the source keeps a hash map from task to position. */
  method PositionOf(nodes: seq<nat>, x: nat) returns (at: Option<nat>)
    ensures at.None? <==> x !in nodes
    ensures at.Some? ==> at.value < |nodes| && nodes[at.value] == x
  {
    var i := 0;
    while i < |nodes|
      invariant 0 <= i <= |nodes|
      invariant x !in nodes[..i]
    {
      if nodes[i] == x {
        return Some(i);
      }
      i := i + 1;
    }
    assert nodes[..i] == nodes;
    return None;
  }

  lemma IndexesPush(adjacency: seq<seq<nat>>, nodes: seq<nat>, g: Graph, from: nat, to: nat)
    requires Indexes(adjacency, nodes, g) && from < |nodes| && to < |nodes|
    ensures Indexes(adjacency[from := adjacency[from] + [to]], nodes, g + {(nodes[from], nodes[to])})
  {
    PushEdge(adjacency, from, to);
  }

  lemma IndexesDrop(adjacency: seq<seq<nat>>, nodes: seq<nat>, g: Graph, from: nat, to: nat)
    requires Indexes(adjacency, nodes, g) && from < |nodes| && to < |nodes|
    ensures Indexes(adjacency[from := Without(adjacency[from], to)], nodes, g - {(nodes[from], nodes[to])})
  {
    DropEdge(adjacency, from, to);
    var after := adjacency[from := Without(adjacency[from], to)];
    forall i, k | 0 <= i < |after| && 0 <= k < |after[i]| ensures after[i][k] < |after| {
      assert after[i][k] in after[i];
    }
  }

  lemma IndexesEmpty(nodes: seq<nat>)
    requires Distinct(nodes)
    ensures Indexes(seq(|nodes|, _ => []), nodes, {})
  {
  }

  method BuildAdjacency(nodes: seq<nat>, rows: seq<Edge>) returns (adjacency: seq<seq<nat>>)
    requires Distinct(nodes)
    ensures Indexes(adjacency, nodes, Known(rows, nodes))
  {
    adjacency := seq(|nodes|, _ => []);
    IndexesEmpty(nodes);
    var k := 0;
    assert Known(rows[..0], nodes) == {};
    while k < |rows|
      invariant 0 <= k <= |rows|
      invariant Indexes(adjacency, nodes, Known(rows[..k], nodes))
    {
      var from := PositionOf(nodes, rows[k].0);
      var to := PositionOf(nodes, rows[k].1);
      TakeNext(rows, k);
      KnownNext(rows[..k], rows[k], nodes);
      if from.Some? && to.Some? {
        IndexesPush(adjacency, nodes, Known(rows[..k], nodes), from.value, to.value);
        adjacency := adjacency[from.value := adjacency[from.value] + [to.value]];
      }
      k := k + 1;
    }
    TakeAll(rows);
  }

  lemma KnownNext(rows: seq<Edge>, row: Edge, nodes: seq<nat>)
    ensures Known(rows + [row], nodes) ==
            Known(rows, nodes) + if row.0 in nodes && row.1 in nodes then {row} else {}
  {
  }

  function Named(nodes: seq<nat>, cycle: seq<nat>): (c: seq<nat>)
    requires forall i :: 0 <= i < |cycle| ==> cycle[i] < |nodes|
    ensures |c| == |cycle| && forall i :: 0 <= i < |cycle| ==> c[i] == nodes[cycle[i]]
  {
    seq(|cycle|, i requires 0 <= i < |cycle| => nodes[cycle[i]])
  }

  lemma NamedCycle(adjacency: seq<seq<nat>>, nodes: seq<nat>, g: Graph, cycle: seq<nat>)
    requires Indexes(adjacency, nodes, g) && SimpleCycle(IndexGraph(adjacency), cycle)
    ensures forall i :: 0 <= i < |cycle| ==> cycle[i] < |nodes|
    ensures SimpleCycle(g, Named(nodes, cycle))
  {
    forall i | 0 <= i < |cycle| ensures cycle[i] < |nodes| {
      var y := HopOut(IndexGraph(adjacency), cycle, i);
      IndexEdgeBounds(adjacency, (cycle[i], y));
    }
    var c := Named(nodes, cycle);
    forall i | 0 < i < |c| ensures (c[i - 1], c[i]) in g {
      assert (cycle[i - 1], cycle[i]) in IndexGraph(adjacency);
    }
  }

  /** A cycle among the stored rows, in task numbers; None exactly when the rows form no cycle. */
  method FindCycle(tasks: seq<nat>, rows: seq<Edge>) returns (cycle: Option<seq<nat>>)
    requires Distinct(tasks)
    ensures cycle.None? <==> Acyclic(Known(rows, tasks))
    ensures cycle.Some? ==> SimpleCycle(Known(rows, tasks), cycle.value)
  {
    var adjacency := BuildAdjacency(tasks, rows);
    var found := FirstCycle(adjacency);
    IndexesAcyclic(adjacency, tasks, Known(rows, tasks));
    match found {
      case None => cycle := None;
      case Some(positions) =>
        NamedCycle(adjacency, tasks, Known(rows, tasks), positions);
        cycle := Some(Named(tasks, positions));
    }
  }

  // ---- the loop report ----

  datatype Loop = Loop(start: nat, steps: seq<WaitStep>)

  /** The last hop of a loop, which the report removes before it searches on. */
  ghost function Closing(l: Loop): Edge {
    (if l.steps == [] then l.start else ChainEnd(l.start, l.steps[..|l.steps| - 1]), ChainEnd(l.start, l.steps))
  }

  /** Each hop names a dependency whenever one is stored between its two tasks. */
  ghost predicate PrefersDependency(edges: Edges, from: nat, steps: seq<WaitStep>)
    decreases |steps|
  {
    steps == [] ||
    (&& (steps[0].edge.Dependency? <==> Stored(edges, from, WaitStep(Dependency, steps[0].seqno)))
     && PrefersDependency(edges, steps[0].seqno, steps[1..]))
  }

  ghost predicate RealLoop(edges: Edges, l: Loop) {
    && l.steps != [] && ChainEnd(l.start, l.steps) == l.start
    && ValidChain(edges, l.start, l.steps) && PrefersDependency(edges, l.start, l.steps)
  }

  ghost function ClosingEdges(loops: seq<Loop>): Graph {
    set i | 0 <= i < |loops| :: Closing(loops[i])
  }

  /** A dependency is named ahead of a child edge between the same tasks. */
  function EdgeKind(edges: Edges, from: nat, to: nat): WaitEdge {
    if Stored(edges, from, WaitStep(Dependency, to)) then Dependency else Child
  }

  lemma EdgeKindStored(edges: Edges, from: nat, to: nat)
    requires (from, to) in GraphOf(edges)
    ensures Stored(edges, from, WaitStep(EdgeKind(edges, from, to), to))
  {
    StoredIsEdge(edges, from, to);
    var step :| Stored(edges, from, step) && step.seqno == to;
    if step.edge.Child? { assert step == WaitStep(Child, to); } else { assert step == WaitStep(Dependency, to); }
  }

  /** The chain a node walk stands for, with preferred edge kinds. */
  function Hops(edges: Edges, w: seq<nat>): (steps: seq<WaitStep>)
    requires |w| > 0
    ensures |steps| == |w| - 1
    ensures forall i :: 0 <= i < |steps| ==> steps[i].seqno == w[i + 1]
    decreases |w|
  {
    if |w| == 1 then [] else [WaitStep(EdgeKind(edges, w[0], w[1]), w[1])] + Hops(edges, w[1..])
  }

  lemma {:induction false} HopsAreReal(edges: Edges, w: seq<nat>)
    requires Walk(GraphOf(edges), w)
    ensures ValidChain(edges, w[0], Hops(edges, w)) && PrefersDependency(edges, w[0], Hops(edges, w))
    decreases |w|
  {
    if |w| > 1 {
      assert (w[0], w[1]) in GraphOf(edges);
      EdgeKindStored(edges, w[0], w[1]);
      assert Walk(GraphOf(edges), w[1..]);
      HopsAreReal(edges, w[1..]);
      assert Hops(edges, w)[1..] == Hops(edges, w[1..]);
    }
  }

  lemma CycleIsLoop(edges: Edges, g: Graph, c: seq<nat>)
    requires g <= GraphOf(edges) && ClosedWalk(g, c)
    ensures RealLoop(edges, Loop(c[0], Hops(edges, c)))
    ensures Closing(Loop(c[0], Hops(edges, c))) == (c[|c| - 2], c[|c| - 1])
    ensures Closing(Loop(c[0], Hops(edges, c))) in g
  {
    assert Walk(GraphOf(edges), c);
    HopsAreReal(edges, c);
    assert (c[|c| - 2], c[|c| - 1]) in g;
  }

  /** Every stored edge as a row, and every task on one. */
  method Rows(edges: Edges) returns (rows: seq<Edge>, nodes: seq<nat>)
    ensures forall e :: e in rows <==> e in GraphOf(edges)
    ensures Distinct(nodes)
    ensures Known(rows, nodes) == GraphOf(edges)
  {
    rows := [];
    var all := GraphEdges(edges);
    var left := all;

    while left != {}
      invariant left <= all
      invariant forall e :: e in rows <==> e in all - left
      decreases left
    {
      var e :| e in left;
      rows := rows + [e];
      left := left - {e};
    }
    nodes := [];
    var ends := set e | e in all :: e.0;
    ends := ends + set e | e in all :: e.1;
    ghost var every := ends;
    while ends != {}
      invariant ends <= every && Distinct(nodes)
      invariant forall x :: x in nodes <==> x in every - ends
      decreases ends
    {
      var x :| x in ends;
      assert x !in nodes;
      nodes := nodes + [x];
      ends := ends - {x};
    }
  }

  function GraphEdges(edges: Edges): (g: Graph)
    ensures g == GraphOf(edges)
  {
    set u, i | u in edges && 0 <= i < |edges[u]| :: (u, edges[u][i].seqno)
  }

  /** What the report guarantees of the loops collected so far. */
  ghost predicate GoodLoops(edges: Edges, loops: seq<Loop>) {
    && (forall i :: 0 <= i < |loops| ==> RealLoop(edges, loops[i]))
    && (forall i, j :: 0 <= i < j < |loops| ==> Closing(loops[i]) != Closing(loops[j]))
    && (loops != [] ==> !Acyclic(GraphOf(edges)))
  }

  lemma ClosingNext(loops: seq<Loop>, l: Loop)
    ensures ClosingEdges(loops + [l]) == ClosingEdges(loops) + {Closing(l)}
  {
    var longer := loops + [l];
    forall e | e in ClosingEdges(loops) + {Closing(l)} ensures e in ClosingEdges(longer) {
      if e == Closing(l) {
        assert longer[|loops|] == l;
      } else {
        var i :| 0 <= i < |loops| && Closing(loops[i]) == e;
        assert longer[i] == loops[i];
      }
    }
  }

  /** A cycle left after removing the reported closing edges is one more loop. */
  lemma CycleIsReported(edges: Edges, loops: seq<Loop>, c: seq<nat>)
    requires GoodLoops(edges, loops) && ClosedWalk(GraphOf(edges) - ClosingEdges(loops), c)
    ensures GoodLoops(edges, loops + [Loop(c[0], Hops(edges, c))])
    ensures Closing(Loop(c[0], Hops(edges, c))) == (c[|c| - 2], c[|c| - 1])
    ensures Closing(Loop(c[0], Hops(edges, c))) in GraphOf(edges) - ClosingEdges(loops)
  {
    var l := Loop(c[0], Hops(edges, c));
    CycleIsLoop(edges, GraphOf(edges) - ClosingEdges(loops), c);
    assert ClosedWalk(GraphOf(edges), c);
    forall i | 0 <= i < |loops| ensures Closing(loops[i]) != Closing(l) {
      assert Closing(loops[i]) in ClosingEdges(loops);
    }
  }

  /** Every loop that needs its own repair: real loops with distinct closing
      edges whose removal leaves nothing cyclic, and none exactly when there is none. */
  method Loops(edges: Edges) returns (loops: seq<Loop>)
    ensures forall i :: 0 <= i < |loops| ==> RealLoop(edges, loops[i])
    ensures forall i, j :: 0 <= i < j < |loops| ==> Closing(loops[i]) != Closing(loops[j])
    ensures Acyclic(GraphOf(edges) - ClosingEdges(loops))
    ensures loops == [] <==> Acyclic(GraphOf(edges))
  {
    var rows, nodes := Rows(edges);
    ghost var g := GraphOf(edges);
    var adjacency := BuildAdjacency(nodes, rows);
    loops := [];
    assert g - ClosingEdges(loops) == g;
    var found := FirstCycle(adjacency);
    while found.Some?
      invariant GoodLoops(edges, loops)
      invariant Indexes(adjacency, nodes, g - ClosingEdges(loops))
      invariant found.None? <==> Acyclic(IndexGraph(adjacency))
      invariant found.Some? ==> SimpleCycle(IndexGraph(adjacency), found.value)
      decreases g - ClosingEdges(loops)
    {
      adjacency, loops := Report(edges, adjacency, nodes, loops, found.value);
      found := FirstCycle(adjacency);
    }
    IndexesAcyclic(adjacency, nodes, g - ClosingEdges(loops));
    if loops == [] {
      assert g - ClosingEdges(loops) == g;
    }
  }

  /** Report one cycle and remove its closing edge from the lists. */
  method Report(edges: Edges, adjacency0: seq<seq<nat>>, nodes: seq<nat>, loops0: seq<Loop>, cycle: seq<nat>)
    returns (adjacency: seq<seq<nat>>, loops: seq<Loop>)
    requires GoodLoops(edges, loops0)
    requires Indexes(adjacency0, nodes, GraphOf(edges) - ClosingEdges(loops0))
    requires SimpleCycle(IndexGraph(adjacency0), cycle)
    ensures GoodLoops(edges, loops)
    ensures Indexes(adjacency, nodes, GraphOf(edges) - ClosingEdges(loops))
    ensures GraphOf(edges) - ClosingEdges(loops) < GraphOf(edges) - ClosingEdges(loops0)
  {
    ghost var g := GraphOf(edges) - ClosingEdges(loops0);
    NamedCycle(adjacency0, nodes, g, cycle);
    var c := Named(nodes, cycle);
    CycleIsReported(edges, loops0, c);
    var closingFrom, closingTo := cycle[|cycle| - 2], cycle[|cycle| - 1];
    IndexesDrop(adjacency0, nodes, g, closingFrom, closingTo);
    adjacency := adjacency0[closingFrom := Without(adjacency0[closingFrom], closingTo)];
    loops := loops0 + [Loop(c[0], Hops(edges, c))];
    ClosingNext(loops0, Loop(c[0], Hops(edges, c)));
    assert GraphOf(edges) - ClosingEdges(loops) == g - {(nodes[closingFrom], nodes[closingTo])};
  }
}
