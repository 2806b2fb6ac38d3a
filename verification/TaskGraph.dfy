/** Wait graph searches: the shortest wait chain and the loop report. */
module TaskGraph {
  import opened Basics
  import opened Graphs
  import opened FirstCycleSearch

  /** Why one task waits for the next. */
  datatype WaitEdge = Dependency | Child

  /** One hop of a wait chain: the waiting task finishes only after `seqno`. */
  datatype WaitStep = WaitStep(edge: WaitEdge, seqno: nat)

  type Edges = map<nat, seq<WaitStep>>

  ghost function GraphOf(edges: Edges): Graph {
    set u, i | u in edges && 0 <= i < |edges[u]| :: (u, edges[u][i].seqno)
  }

  predicate Stored(edges: Edges, u: nat, step: WaitStep) {
    u in edges && step in edges[u]
  }

  lemma StoredIsEdge(edges: Edges, u: nat, v: nat)
    ensures (u, v) in GraphOf(edges) <==> exists step :: Stored(edges, u, step) && step.seqno == v
  {
    if (u, v) in GraphOf(edges) {
      var i :| u in edges && 0 <= i < |edges[u]| && edges[u][i].seqno == v;
      assert Stored(edges, u, edges[u][i]);
    }
  }

  /** The last task of a chain, `from` itself when the chain is empty. */
  function ChainEnd(from: nat, steps: seq<WaitStep>): nat {
    if steps == [] then from else steps[|steps| - 1].seqno
  }

  /** Every hop of the chain is a stored edge. */
  ghost predicate ValidChain(edges: Edges, from: nat, steps: seq<WaitStep>)
    decreases |steps|
  {
    steps == [] || (Stored(edges, from, steps[0]) && ValidChain(edges, steps[0].seqno, steps[1..]))
  }

  // ---- shortest chain ----

  type Reached = map<nat, Option<(nat, WaitEdge)>>

  /** Predecessors record real edges and lie one hop closer to the start. */
  ghost predicate Predecessors(edges: Edges, from: nat, reached: Reached, dist: map<nat, nat>) {
    && reached.Keys == dist.Keys
    && from in reached && reached[from].None? && dist[from] == 0
    && forall v :: v in reached ==> FromPredecessor(edges, reached, dist, v)
  }

  ghost predicate FromPredecessor(edges: Edges, reached: Reached, dist: map<nat, nat>, v: nat)
    requires v in reached && reached.Keys == dist.Keys
  {
    reached[v].Some? ==>
      var (u, edge) := reached[v].value;
      u in reached && Stored(edges, u, WaitStep(edge, v)) && dist[v] == dist[u] + 1
  }

  ghost predicate OnlyStartHasNone(from: nat, reached: Reached) {
    forall v :: v in reached && v != from ==> reached[v].Some?
  }

  /** The queue holds what is reached but not processed, nearest first, within one hop. */
  ghost predicate Queued(reached: Reached, dist: map<nat, nat>, processed: set<nat>, queue: seq<nat>)
    requires reached.Keys == dist.Keys
  {
    && (forall i :: 0 <= i < |queue| ==> queue[i] in dist && queue[i] !in processed)
    && (forall v :: v in reached ==> v in processed || v in queue)
    && (forall i, j :: 0 <= i < j < |queue| ==>
          queue[i] != queue[j] && dist[queue[i]] <= dist[queue[j]] <= dist[queue[0]] + 1)
    && (forall u :: u in processed ==> u in dist && (|queue| > 0 ==> dist[u] <= dist[queue[0]]))
  }

  ghost predicate Near(dist: map<nat, nat>, u: nat, v: nat) {
    u in dist && v in dist && dist[v] <= dist[u] + 1
  }

  /** Every edge out of a processed task leads to a task reached at most one hop later. */
  ghost predicate Expanded(edges: Edges, dist: map<nat, nat>, processed: set<nat>) {
    forall e :: e in GraphOf(edges) && e.0 in processed ==> Near(dist, e.0, e.1)
  }

  ghost predicate Searching(edges: Edges, from: nat, reached: Reached, dist: map<nat, nat>,
                            processed: set<nat>, queue: seq<nat>) {
    && Predecessors(edges, from, reached, dist)
    && OnlyStartHasNone(from, reached)
    && Queued(reached, dist, processed, queue)
    && Expanded(edges, dist, processed)
  }

  lemma DiscoverPredecessor(edges: Edges, from: nat, reached: Reached, dist: map<nat, nat>, u: nat, step: WaitStep)
    requires Predecessors(edges, from, reached, dist) && OnlyStartHasNone(from, reached)
    requires u in reached && Stored(edges, u, step) && step.seqno !in reached
    ensures Predecessors(edges, from, reached[step.seqno := Some((u, step.edge))], dist[step.seqno := dist[u] + 1])
    ensures OnlyStartHasNone(from, reached[step.seqno := Some((u, step.edge))])
  {
    assert WaitStep(step.edge, step.seqno) == step;
    var reached' := reached[step.seqno := Some((u, step.edge))];
    var dist' := dist[step.seqno := dist[u] + 1];
    forall v | v in reached' ensures FromPredecessor(edges, reached', dist', v) {
      if v != step.seqno { assert FromPredecessor(edges, reached, dist, v); }
    }
  }

  lemma DiscoverQueued(reached: Reached, dist: map<nat, nat>, processed: set<nat>, queue: seq<nat>, v: nat,
                       origin: Option<(nat, WaitEdge)>)
    requires reached.Keys == dist.Keys && |queue| > 0
    requires Queued(reached, dist, processed, queue) && v !in reached
    ensures queue[0] in dist
    ensures Queued(reached[v := origin], dist[v := dist[queue[0]] + 1], processed, queue + [v])
  {
    var longer := queue + [v];
    assert longer[|queue|] == v;
    forall x | x in reached[v := origin] ensures x in processed || x in longer {
      if x != v && x in queue {
        var i :| 0 <= i < |queue| && queue[i] == x;
        assert longer[i] == x;
      }
    }
  }

  lemma DiscoverExpanded(edges: Edges, dist: map<nat, nat>, processed: set<nat>, v: nat, d: nat)
    requires Expanded(edges, dist, processed) && v !in dist
    ensures Expanded(edges, dist[v := d], processed)
  {
    forall e | e in GraphOf(edges) && e.0 in processed ensures Near(dist[v := d], e.0, e.1) {
      assert Near(dist, e.0, e.1);
    }
  }

  lemma Discover(edges: Edges, from: nat, reached: Reached, dist: map<nat, nat>, processed: set<nat>,
                 queue: seq<nat>, step: WaitStep)
    requires |queue| > 0 && Searching(edges, from, reached, dist, processed, queue)
    requires Stored(edges, queue[0], step) && step.seqno !in reached
    ensures queue[0] in dist
    ensures Searching(edges, from, reached[step.seqno := Some((queue[0], step.edge))],
                      dist[step.seqno := dist[queue[0]] + 1], processed, queue + [step.seqno])
  {
    DiscoverPredecessor(edges, from, reached, dist, queue[0], step);
    DiscoverQueued(reached, dist, processed, queue, step.seqno, Some((queue[0], step.edge)));
    DiscoverExpanded(edges, dist, processed, step.seqno, dist[queue[0]] + 1);
  }

  lemma Processed(edges: Edges, from: nat, reached: Reached, dist: map<nat, nat>, processed: set<nat>,
                  queue: seq<nat>)
    requires |queue| > 0 && Searching(edges, from, reached, dist, processed, queue)
    requires forall e :: e in GraphOf(edges) && e.0 == queue[0] ==> Near(dist, e.0, e.1)
    ensures Searching(edges, from, reached, dist, processed + {queue[0]}, queue[1..])
  {
    var rest := queue[1..];
    forall v | v in reached ensures v in processed + {queue[0]} || v in rest {
      if v in queue {
        var i :| 0 <= i < |queue| && queue[i] == v;
        if i > 0 { assert rest[i - 1] == v; }
      }
    }
  }

  /** When a task comes off the queue no walk to it is shorter than its distance. */
  lemma {:induction false} Nearest(edges: Edges, from: nat, reached: Reached, dist: map<nat, nat>,
                                   processed: set<nat>, queue: seq<nat>, w: seq<nat>)
    requires |queue| > 0 && Searching(edges, from, reached, dist, processed, queue)
    requires Walk(GraphOf(edges), w) && w[0] == from
    ensures w[|w| - 1] !in processed ==> dist[queue[0]] <= |w| - 1
    ensures w[|w| - 1] in processed ==> dist[w[|w| - 1]] <= |w| - 1 || dist[queue[0]] <= |w| - 1
    decreases |w|
  {
    var n := |w| - 1;
    if n == 0 {
      if from !in processed { assert from in queue; }
    } else {
      var v := w[..n];
      assert Walk(GraphOf(edges), v);
      Nearest(edges, from, reached, dist, processed, queue, v);
      assert (w[n - 1], w[n]) in GraphOf(edges);
      if v[n - 1] in processed {
        assert Near(dist, w[n - 1], w[n]);
        if w[n] !in processed {
          assert w[n] in queue;
        }
      }
    }
  }

  lemma NotReached(edges: Edges, from: nat, target: nat, reached: Reached, dist: map<nat, nat>, processed: set<nat>)
    requires Searching(edges, from, reached, dist, processed, []) && target !in processed
    ensures !Reach(GraphOf(edges), from, target)
  {
    if Reach(GraphOf(edges), from, target) {
      var w :| Connects(GraphOf(edges), w, from, target);
      forall e | e in GraphOf(edges) && e.0 in processed ensures e.1 in processed {
        assert Near(dist, e.0, e.1);
      }
      WalkStays(GraphOf(edges), processed, w);
    }
  }

  function Reverse<T>(s: seq<T>): seq<T> {
    if s == [] then [] else [s[|s| - 1]] + Reverse(s[..|s| - 1])
  }

  lemma ReverseSnoc<T>(s: seq<T>, x: T)
    ensures Reverse(s + [x]) == [x] + Reverse(s)
    ensures Reverse(s + [x])[1..] == Reverse(s)
  {
    assert (s + [x])[..|s|] == s;
  }

  /** Follow predecessors back to the start; the reversed steps are a valid chain of that length. */
  method WalkBack(edges: Edges, from: nat, target: nat, reached: Reached, ghost dist: map<nat, nat>)
    returns (chain: seq<WaitStep>)
    requires Predecessors(edges, from, reached, dist) && OnlyStartHasNone(from, reached)
    requires target in reached
    ensures ValidChain(edges, from, chain) && ChainEnd(from, chain) == target && |chain| == dist[target]
  {
    var steps: seq<WaitStep> := [];
    var current := target;
    while reached[current].Some?
      invariant current in reached
      invariant ValidChain(edges, current, Reverse(steps)) && ChainEnd(current, Reverse(steps)) == target
      invariant |Reverse(steps)| + dist[current] == dist[target]
      decreases dist[current]
    {
      assert FromPredecessor(edges, reached, dist, current);
      var (previous, edge) := reached[current].value;
      ReverseSnoc(steps, WaitStep(edge, current));
      steps := steps + [WaitStep(edge, current)];
      current := previous;
    }
    chain := Reverse(steps);
  }

  /** Distances once assigned never change. */
  ghost predicate Keeps(before: map<nat, nat>, after: map<nat, nat>) {
    forall v :: v in before ==> v in after && after[v] == before[v]
  }

  /** One step of the task at the front: its end is reached, at most one hop further out. */
  method Visit(edges: Edges, from: nat, step: WaitStep, reached0: Reached, queue0: seq<nat>,
               ghost dist0: map<nat, nat>, ghost processed: set<nat>)
    returns (reached: Reached, queue: seq<nat>, ghost dist: map<nat, nat>)
    requires |queue0| > 0 && Searching(edges, from, reached0, dist0, processed, queue0)
    requires Stored(edges, queue0[0], step)
    ensures Searching(edges, from, reached, dist, processed, queue)
    ensures |queue| > 0 && queue[0] == queue0[0]
    ensures Near(dist, queue0[0], step.seqno)
    ensures Keeps(dist0, dist)
  {
    reached, queue, dist := reached0, queue0, dist0;
    if step.seqno !in reached {
      Discover(edges, from, reached, dist, processed, queue, step);
      reached := reached[step.seqno := Some((queue[0], step.edge))];
      dist := dist[step.seqno := dist[queue[0]] + 1];
      queue := queue + [step.seqno];
    } else {
      AlreadyNear(edges, from, reached, dist, processed, queue, step.seqno);
    }
  }

  ghost predicate AllNear(dist: map<nat, nat>, u: nat, steps: seq<WaitStep>) {
    forall step :: step in steps ==> Near(dist, u, step.seqno)
  }

  lemma AllNearGrows(before: map<nat, nat>, after: map<nat, nat>, u: nat, steps: seq<WaitStep>, step: WaitStep)
    requires AllNear(before, u, steps) && Keeps(before, after) && Near(after, u, step.seqno)
    ensures AllNear(after, u, steps + [step])
  {
    forall x | x in steps + [step] ensures Near(after, u, x.seqno) {
      if x in steps { assert Near(before, u, x.seqno); }
    }
  }

  /** Take in the unreached successors of the task at the front, then drop it from the queue. */
  method Expand(edges: Edges, from: nat, reached0: Reached, queue0: seq<nat>,
                ghost dist0: map<nat, nat>, ghost processed: set<nat>)
    returns (reached: Reached, queue: seq<nat>, ghost dist: map<nat, nat>)
    requires |queue0| > 0 && Searching(edges, from, reached0, dist0, processed, queue0)
    ensures Searching(edges, from, reached, dist, processed + {queue0[0]}, queue)
  {
    reached, queue, dist := reached0, queue0, dist0;
    var current := queue[0];
    var steps := if current in edges then edges[current] else [];
    var i := 0;
    while i < |steps|
      invariant 0 <= i <= |steps|
      invariant |queue| > 0 && queue[0] == current
      invariant Searching(edges, from, reached, dist, processed, queue)
      invariant AllNear(dist, current, steps[..i])
    {
      ghost var before := dist;
      assert Stored(edges, current, steps[i]);
      reached, queue, dist := Visit(edges, from, steps[i], reached, queue, dist, processed);
      AllNearGrows(before, dist, current, steps[..i], steps[i]);
      TakeNext(steps, i);
      i := i + 1;
    }
    TakeAll(steps);
    AllNearIsExpanded(edges, dist, current, steps);
    Processed(edges, from, reached, dist, processed, queue);
    queue := queue[1..];
  }

  lemma AllNearIsExpanded(edges: Edges, dist: map<nat, nat>, u: nat, steps: seq<WaitStep>)
    requires steps == if u in edges then edges[u] else []
    requires AllNear(dist, u, steps)
    ensures forall e :: e in GraphOf(edges) && e.0 == u ==> Near(dist, e.0, e.1)
  {
    forall e | e in GraphOf(edges) && e.0 == u ensures Near(dist, e.0, e.1) {
      StoredIsEdge(edges, e.0, e.1);
    }
  }

  lemma AlreadyNear(edges: Edges, from: nat, reached: Reached, dist: map<nat, nat>, processed: set<nat>,
                    queue: seq<nat>, v: nat)
    requires |queue| > 0 && Searching(edges, from, reached, dist, processed, queue) && v in reached
    ensures Near(dist, queue[0], v)
  {
    if v in queue {
      var i :| 0 <= i < |queue| && queue[i] == v;
    }
  }

  ghost function Nodes(edges: Edges, from: nat): set<nat> {
    {from} + (set e | e in GraphOf(edges) :: e.1)
  }

  lemma ReachedAreNodes(edges: Edges, from: nat, reached: Reached, dist: map<nat, nat>, v: nat)
    requires Predecessors(edges, from, reached, dist) && OnlyStartHasNone(from, reached) && v in reached
    ensures v in Nodes(edges, from)
  {
    if v != from {
      assert FromPredecessor(edges, reached, dist, v);
      var (u, edge) := reached[v].value;
      StoredIsEdge(edges, u, v);
      assert (u, v) in GraphOf(edges);
    }
  }

  /** The shortest chain by which `from` finishes only after `target`, or None when it does not wait for it. */
  method Chain(edges: Edges, from: nat, target: nat) returns (chain: Option<seq<WaitStep>>)
    ensures chain.Some? <==> Reach(GraphOf(edges), from, target)
    ensures chain.Some? ==> ValidChain(edges, from, chain.value) && ChainEnd(from, chain.value) == target
    ensures chain.Some? ==> forall w :: Connects(GraphOf(edges), w, from, target) ==> |chain.value| <= |w| - 1
    ensures chain.Some? ==> (chain.value == [] <==> from == target)
  {
    var reached: Reached := map[from := None];
    var queue := [from];
    ghost var dist: map<nat, nat> := map[from := 0];
    ghost var processed: set<nat> := {};
    while |queue| > 0
      invariant Searching(edges, from, reached, dist, processed, queue)
      invariant target !in processed
      decreases Nodes(edges, from) - processed
    {
      var current := queue[0];
      if current == target {
        var steps := WalkBack(edges, from, target, reached, dist);
        ChainReaches(edges, from, steps);
        forall w | Connects(GraphOf(edges), w, from, target) ensures |steps| <= |w| - 1 {
          Nearest(edges, from, reached, dist, processed, queue, w);
        }
        if from == target { assert Connects(GraphOf(edges), [from], from, target); }
        return Some(steps);
      }
      ReachedAreNodes(edges, from, reached, dist, current);
      reached, queue, dist := Expand(edges, from, reached, queue, dist, processed);
      processed := processed + {current};
    }
    NotReached(edges, from, target, reached, dist, processed);
    return None;
  }

  lemma {:induction false} ChainReaches(edges: Edges, from: nat, steps: seq<WaitStep>)
    requires ValidChain(edges, from, steps)
    ensures Reach(GraphOf(edges), from, ChainEnd(from, steps))
    decreases |steps|
  {
    if steps == [] {
      ReachSelf(GraphOf(edges), from);
    } else {
      ChainReaches(edges, steps[0].seqno, steps[1..]);
      StoredIsEdge(edges, from, steps[0].seqno);
      ReachStep(GraphOf(edges), from, steps[0].seqno, ChainEnd(from, steps));
    }
  }

  /** The tasks a chain goes through after its start. */
  function Seqnos(steps: seq<WaitStep>): (r: seq<nat>)
    ensures |r| == |steps| && forall i :: 0 <= i < |steps| ==> r[i] == steps[i].seqno
  {
    seq(|steps|, i requires 0 <= i < |steps| => steps[i].seqno)
  }

  /** A valid chain is a walk over stored edges. */
  lemma {:induction false} ChainIsWalk(edges: Edges, from: nat, steps: seq<WaitStep>)
    requires ValidChain(edges, from, steps)
    ensures Connects(GraphOf(edges), [from] + Seqnos(steps), from, ChainEnd(from, steps))
    decreases |steps|
  {
    if steps != [] {
      var rest := steps[1..];
      ChainIsWalk(edges, steps[0].seqno, rest);
      StoredIsEdge(edges, from, steps[0].seqno);
      var w, v := [from] + Seqnos(steps), [steps[0].seqno] + Seqnos(rest);
      assert w == [from] + v;
      forall i | 0 < i < |w| ensures (w[i - 1], w[i]) in GraphOf(edges) {
        if i > 1 { assert w[i - 1] == v[i - 2] && w[i] == v[i - 1]; }
      }
    }
  }
}
