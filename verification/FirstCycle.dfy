/** The iterative depth-first cycle search shared by every cycle check. */
module FirstCycleSearch {
  import opened Basics
  import opened Graphs

  datatype Mark = Unvisited | OnPath | Finished

  /** A node on the current path and its next edge position. */
  datatype Frame = Frame(node: nat, next: nat)

  predicate WellFormed(adjacency: seq<seq<nat>>) {
    forall i, k :: 0 <= i < |adjacency| && 0 <= k < |adjacency[i]| ==> adjacency[i][k] < |adjacency|
  }

  /** The edges an adjacency list stands for. */
  ghost function IndexGraph(adjacency: seq<seq<nat>>): Graph {
    set i, k | 0 <= i < |adjacency| && 0 <= k < |adjacency[i]| :: (i, adjacency[i][k])
  }

  /** A closed walk that repeats no node except its end. */
  ghost predicate SimpleCycle(g: Graph, c: seq<nat>) {
    ClosedWalk(g, c) && Distinct(c[..|c| - 1])
  }

  // ---- what the search keeps ----

  ghost predicate Frames(adjacency: seq<seq<nat>>, path: seq<Frame>) {
    && (forall k :: 0 <= k < |path| ==>
          path[k].node < |adjacency| && path[k].next <= |adjacency[path[k].node]|)
    && (forall k, l :: 0 <= k < l < |path| ==> path[k].node != path[l].node)
  }

  ghost predicate Link(adjacency: seq<seq<nat>>, path: seq<Frame>, k: nat)
    requires Frames(adjacency, path) && k + 1 < |path|
  {
    path[k].next > 0 && adjacency[path[k].node][path[k].next - 1] == path[k + 1].node
  }

  /** Each frame's last taken edge leads to the next frame. */
  ghost predicate Linked(adjacency: seq<seq<nat>>, path: seq<Frame>)
    requires Frames(adjacency, path)
  {
    forall k :: 0 <= k < |path| - 1 ==> Link(adjacency, path, k)
  }

  ghost predicate Marked(marks: seq<Mark>, path: seq<Frame>) {
    && (forall k :: 0 <= k < |path| ==> path[k].node < |marks| && marks[path[k].node] == OnPath)
    && (forall v :: 0 <= v < |marks| && marks[v] == OnPath ==>
          exists k :: 0 <= k < |path| && path[k].node == v)
  }

  /** Every edge already taken leads to a finished node, except the one to the next frame. */
  ghost predicate Explored(adjacency: seq<seq<nat>>, marks: seq<Mark>, path: seq<Frame>)
    requires WellFormed(adjacency) && |marks| == |adjacency| && Frames(adjacency, path)
  {
    forall k, j :: 0 <= k < |path| && 0 <= j < path[k].next ==>
      marks[adjacency[path[k].node][j]] == Finished || (k + 1 < |path| && j == path[k].next - 1)
  }

  /** Finished nodes lead only to nodes that finished earlier. */
  ghost predicate Ranked(adjacency: seq<seq<nat>>, marks: seq<Mark>, rank: map<nat, int>, clock: int)
    requires WellFormed(adjacency) && |marks| == |adjacency|
  {
    && (forall v :: 0 <= v < |marks| && marks[v] == Finished ==> v in rank && rank[v] < clock)
    && (forall v, j :: 0 <= v < |marks| && marks[v] == Finished && 0 <= j < |adjacency[v]| ==>
          marks[adjacency[v][j]] == Finished && rank[adjacency[v][j]] < rank[v])
  }

  lemma AllFinishedAcyclic(adjacency: seq<seq<nat>>, marks: seq<Mark>, rank: map<nat, int>, clock: int)
    requires WellFormed(adjacency) && |marks| == |adjacency|
    requires Ranked(adjacency, marks, rank, clock)
    requires forall v :: 0 <= v < |marks| ==> marks[v] == Finished
    ensures Acyclic(IndexGraph(adjacency))
  {
    var g := IndexGraph(adjacency);
    forall e | e in g ensures e.0 in rank && e.1 in rank && rank[e.1] < rank[e.0] {
      var i, k :| 0 <= i < |adjacency| && 0 <= k < |adjacency[i]| && e == (i, adjacency[i][k]);
    }
    RankAcyclic(g, rank);
  }

  lemma FinishKeepsRanked(adjacency: seq<seq<nat>>, marks: seq<Mark>, rank: map<nat, int>, clock: int, v: nat)
    requires WellFormed(adjacency) && |marks| == |adjacency| && v < |marks|
    requires Ranked(adjacency, marks, rank, clock) && marks[v] == OnPath
    requires forall j :: 0 <= j < |adjacency[v]| ==> marks[adjacency[v][j]] == Finished
    ensures Ranked(adjacency, marks[v := Finished], rank[v := clock], clock + 1)
  {
  }

  /** The nodes from `start` on, closed at `target`, form the reported cycle. */
  lemma PathCloses(adjacency: seq<seq<nat>>, path: seq<Frame>, start: nat, cycle: seq<nat>)
    requires WellFormed(adjacency) && Frames(adjacency, path) && Linked(adjacency, path)
    requires start < |path|
    requires path[|path| - 1].next > 0
    requires adjacency[path[|path| - 1].node][path[|path| - 1].next - 1] == path[start].node
    requires |cycle| == |path| - start + 1 && cycle[|path| - start] == path[start].node
    requires forall k :: 0 <= k < |path| - start ==> cycle[k] == path[start + k].node
    ensures SimpleCycle(IndexGraph(adjacency), cycle)
  {
    var g := IndexGraph(adjacency);
    forall i | 0 < i < |cycle| ensures (cycle[i - 1], cycle[i]) in g {
      var k := start + i - 1;
      var frame := path[k];
      assert cycle[i - 1] == frame.node;
      if i < |cycle| - 1 {
        assert Link(adjacency, path, k);
        assert cycle[i] == path[k + 1].node;
      }
      assert cycle[i] == adjacency[frame.node][frame.next - 1];
    }
  }

  /** Where the first frame of `target` stands: the source's position lookup, which always succeeds. */
  method Position(path: seq<Frame>, target: nat) returns (start: nat)
    requires exists k :: 0 <= k < |path| && path[k].node == target
    ensures start < |path| && path[start].node == target
    ensures forall k :: 0 <= k < start ==> path[k].node != target
  {
    start := 0;
    while path[start].node != target
      invariant start < |path|
      decreases |path| - start
      invariant forall k :: 0 <= k < start ==> path[k].node != target
    {
      start := start + 1;
    }
  }

  ghost function Advanced(path: seq<Frame>): seq<Frame>
    requires |path| > 0
  {
    var top := path[|path| - 1];
    path[|path| - 1 := Frame(top.node, top.next + 1)]
  }

  lemma PopMarked(marks: seq<Mark>, path: seq<Frame>)
    requires |path| > 0 && Marked(marks, path)
    requires forall k, l :: 0 <= k < l < |path| ==> path[k].node != path[l].node
    ensures Marked(marks[path[|path| - 1].node := Finished], path[..|path| - 1])
  {
    var rest := path[..|path| - 1];
    var after := marks[path[|path| - 1].node := Finished];
    forall v | 0 <= v < |after| && after[v] == OnPath
      ensures exists k :: 0 <= k < |rest| && rest[k].node == v
    {
      var k :| 0 <= k < |path| && path[k].node == v;
      assert rest[k].node == v;
    }
  }

  lemma PopExplored(adjacency: seq<seq<nat>>, marks: seq<Mark>, path: seq<Frame>)
    requires WellFormed(adjacency) && |marks| == |adjacency| && |path| > 0
    requires Frames(adjacency, path) && Linked(adjacency, path)
    requires Explored(adjacency, marks, path)
    ensures Explored(adjacency, marks[path[|path| - 1].node := Finished], path[..|path| - 1])
  {
    var node := path[|path| - 1].node;
    var rest := path[..|path| - 1];
    var after := marks[node := Finished];
    forall k, j | 0 <= k < |rest| && 0 <= j < rest[k].next
      ensures after[adjacency[rest[k].node][j]] == Finished || (k + 1 < |rest| && j == rest[k].next - 1)
    {
      assert rest[k] == path[k];
      if k == |rest| - 1 && j == rest[k].next - 1 {
        assert Link(adjacency, path, k);
      }
    }
  }

  lemma AdvanceExplored(adjacency: seq<seq<nat>>, marks: seq<Mark>, path: seq<Frame>)
    requires WellFormed(adjacency) && |marks| == |adjacency| && |path| > 0
    requires Frames(adjacency, path) && Explored(adjacency, marks, path)
    requires path[|path| - 1].next < |adjacency[path[|path| - 1].node]|
    requires marks[adjacency[path[|path| - 1].node][path[|path| - 1].next]] == Finished
    ensures Explored(adjacency, marks, Advanced(path))
  {
  }

  lemma PushFrames(adjacency: seq<seq<nat>>, path: seq<Frame>, target: nat)
    requires WellFormed(adjacency) && |path| > 0
    requires Frames(adjacency, path) && Linked(adjacency, path)
    requires path[|path| - 1].next < |adjacency[path[|path| - 1].node]|
    requires target == adjacency[path[|path| - 1].node][path[|path| - 1].next]
    requires forall k :: 0 <= k < |path| ==> path[k].node != target
    ensures Frames(adjacency, Advanced(path) + [Frame(target, 0)])
    ensures Linked(adjacency, Advanced(path) + [Frame(target, 0)])
  {
    var longer := Advanced(path) + [Frame(target, 0)];
    forall k | 0 <= k < |longer| - 1 ensures Link(adjacency, longer, k) {
      if k + 1 < |path| {
        assert Link(adjacency, path, k);
        assert longer[k] == path[k] && longer[k + 1].node == path[k + 1].node;
      }
    }
  }

  lemma AdvanceLinked(adjacency: seq<seq<nat>>, path: seq<Frame>)
    requires |path| > 0 && Frames(adjacency, path) && Linked(adjacency, path)
    requires path[|path| - 1].next < |adjacency[path[|path| - 1].node]|
    ensures Frames(adjacency, Advanced(path)) && Linked(adjacency, Advanced(path))
  {
    var next := Advanced(path);
    forall k | 0 <= k < |next| - 1 ensures Link(adjacency, next, k) {
      assert Link(adjacency, path, k);
      assert next[k] == path[k] && next[k + 1].node == path[k + 1].node;
    }
  }

  lemma PopLinked(adjacency: seq<seq<nat>>, path: seq<Frame>)
    requires |path| > 0 && Frames(adjacency, path) && Linked(adjacency, path)
    ensures Frames(adjacency, path[..|path| - 1]) && Linked(adjacency, path[..|path| - 1])
  {
    var rest := path[..|path| - 1];
    forall k | 0 <= k < |rest| - 1 ensures Link(adjacency, rest, k) {
      assert Link(adjacency, path, k);
      assert rest[k] == path[k] && rest[k + 1] == path[k + 1];
    }
  }

  lemma PushMarked(marks: seq<Mark>, path: seq<Frame>, target: nat)
    requires |path| > 0 && Marked(marks, path) && target < |marks| && marks[target] == Unvisited
    ensures Marked(marks[target := OnPath], Advanced(path) + [Frame(target, 0)])
  {
    var longer := Advanced(path) + [Frame(target, 0)];
    var after := marks[target := OnPath];
    assert forall k :: 0 <= k < |path| ==> longer[k].node == path[k].node;
    forall v | 0 <= v < |after| && after[v] == OnPath
      ensures exists k :: 0 <= k < |longer| && longer[k].node == v
    {
      if v == target {
        assert longer[|path|].node == v;
      } else {
        var k :| 0 <= k < |path| && path[k].node == v;
        assert longer[k].node == v;
      }
    }
  }

  lemma PushExplored(adjacency: seq<seq<nat>>, marks: seq<Mark>, path: seq<Frame>, target: nat)
    requires WellFormed(adjacency) && |marks| == |adjacency| && |path| > 0
    requires Frames(adjacency, path) && Explored(adjacency, marks, path)
    requires Frames(adjacency, Advanced(path) + [Frame(target, 0)])
    requires target < |marks| && marks[target] == Unvisited
    ensures Explored(adjacency, marks[target := OnPath], Advanced(path) + [Frame(target, 0)])
  {
    var longer := Advanced(path) + [Frame(target, 0)];
    var after := marks[target := OnPath];
    forall k, j | 0 <= k < |longer| && 0 <= j < longer[k].next
      ensures after[adjacency[longer[k].node][j]] == Finished || (k + 1 < |longer| && j == longer[k].next - 1)
    {
      assert k < |path| && longer[k].node == path[k].node;
    }
  }

  lemma AdvanceMarked(marks: seq<Mark>, path: seq<Frame>)
    requires |path| > 0 && Marked(marks, path)
    ensures Marked(marks, Advanced(path))
  {
    var next := Advanced(path);
    forall v | 0 <= v < |marks| && marks[v] == OnPath
      ensures exists k :: 0 <= k < |next| && next[k].node == v
    {
      var k :| 0 <= k < |path| && path[k].node == v;
      assert next[k].node == v;
    }
  }

  /** Everything the search knows between two steps. */
  ghost predicate Searching(adjacency: seq<seq<nat>>, marks: seq<Mark>, path: seq<Frame>,
                            rank: map<nat, int>, clock: int) {
    && WellFormed(adjacency) && |marks| == |adjacency|
    && Frames(adjacency, path) && Linked(adjacency, path)
    && Marked(marks, path) && Explored(adjacency, marks, path)
    && Ranked(adjacency, marks, rank, clock)
  }

  ghost function UnvisitedNodes(marks: seq<Mark>): set<nat> {
    set v | 0 <= v < |marks| && marks[v] == Unvisited
  }

  /** Finished nodes stay finished, visited nodes stay visited. */
  ghost predicate Progress(before: seq<Mark>, after: seq<Mark>) {
    && |before| == |after|
    && forall v :: 0 <= v < |before| ==>
         && (before[v] == Finished ==> after[v] == Finished)
         && (before[v] != Unvisited ==> after[v] != Unvisited)
  }

  /** What remains to be done: nodes to visit, then frames, then edges of the top frame. */
  ghost function EdgesLeft(adjacency: seq<seq<nat>>, path: seq<Frame>): int {
    if |path| > 0 && path[|path| - 1].node < |adjacency|
    then |adjacency[path[|path| - 1].node]| - path[|path| - 1].next else 0
  }

  /** One turn keeps the root, loses no mark, and leaves less to do. */
  ghost predicate Advances(adjacency: seq<seq<nat>>, before: seq<Mark>, after: seq<Mark>, path: seq<Frame>,
                           rest: seq<Frame>)
    requires |path| > 0 && path[0].node < |before|
  {
    && Progress(before, after)
    && (|rest| > 0 ==> rest[0].node == path[0].node)
    && (|rest| == 0 ==> after == before[path[0].node := Finished])
    && (|| UnvisitedNodes(after) < UnvisitedNodes(before)
        || (UnvisitedNodes(after) <= UnvisitedNodes(before) &&
            (|rest| < |path| || (|rest| == |path| && EdgesLeft(adjacency, rest) < EdgesLeft(adjacency, path)))))
  }

  lemma PopStep(adjacency: seq<seq<nat>>, marks: seq<Mark>, path: seq<Frame>, rank: map<nat, int>, clock: int)
    requires |path| > 0 && Searching(adjacency, marks, path, rank, clock)
    requires path[|path| - 1].next >= |adjacency[path[|path| - 1].node]|
    ensures var node := path[|path| - 1].node;
            && Searching(adjacency, marks[node := Finished], path[..|path| - 1], rank[node := clock], clock + 1)
            && Advances(adjacency, marks, marks[node := Finished], path, path[..|path| - 1])
  {
    PopLinked(adjacency, path);
    PopMarked(marks, path);
    PopExplored(adjacency, marks, path);
    FinishKeepsRanked(adjacency, marks, rank, clock, path[|path| - 1].node);
  }

  lemma SkipStep(adjacency: seq<seq<nat>>, marks: seq<Mark>, path: seq<Frame>, rank: map<nat, int>, clock: int)
    requires |path| > 0 && Searching(adjacency, marks, path, rank, clock)
    requires path[|path| - 1].next < |adjacency[path[|path| - 1].node]|
    requires marks[adjacency[path[|path| - 1].node][path[|path| - 1].next]] == Finished
    ensures Searching(adjacency, marks, Advanced(path), rank, clock)
    ensures Advances(adjacency, marks, marks, path, Advanced(path))
  {
    AdvanceLinked(adjacency, path);
    AdvanceExplored(adjacency, marks, path);
    AdvanceMarked(marks, path);
  }

  lemma PushStep(adjacency: seq<seq<nat>>, marks: seq<Mark>, path: seq<Frame>, rank: map<nat, int>, clock: int,
                 target: nat)
    requires |path| > 0 && Searching(adjacency, marks, path, rank, clock)
    requires path[|path| - 1].next < |adjacency[path[|path| - 1].node]|
    requires target == adjacency[path[|path| - 1].node][path[|path| - 1].next]
    requires marks[target] == Unvisited
    ensures Searching(adjacency, marks[target := OnPath], Advanced(path) + [Frame(target, 0)], rank, clock)
    ensures Advances(adjacency, marks, marks[target := OnPath], path, Advanced(path) + [Frame(target, 0)])
  {
    assert target in UnvisitedNodes(marks) && target !in UnvisitedNodes(marks[target := OnPath]);
    PushFrames(adjacency, path, target);
    PushMarked(marks, path, target);
    PushExplored(adjacency, marks, path, target);
  }

  lemma StartStep(adjacency: seq<seq<nat>>, marks: seq<Mark>, rank: map<nat, int>, clock: int, root: nat)
    requires WellFormed(adjacency) && |marks| == |adjacency| && root < |marks|
    requires Ranked(adjacency, marks, rank, clock)
    requires marks[root] == Unvisited && forall v :: 0 <= v < |marks| ==> marks[v] != OnPath
    ensures Searching(adjacency, marks[root := OnPath], [Frame(root, 0)], rank, clock)
  {
    assert [Frame(root, 0)][0].node == root;
  }

  /** The part of the path from the repeated node on, closed by that node. */
  method CloseCycle(adjacency: seq<seq<nat>>, path: seq<Frame>, target: nat) returns (cycle: seq<nat>)
    requires WellFormed(adjacency) && Frames(adjacency, path) && Linked(adjacency, path)
    requires |path| > 0 && path[|path| - 1].next > 0
    requires adjacency[path[|path| - 1].node][path[|path| - 1].next - 1] == target
    requires exists k :: 0 <= k < |path| && path[k].node == target
    ensures SimpleCycle(IndexGraph(adjacency), cycle)
  {
    var start := Position(path, target);
    cycle := [];
    var k := start;
    while k < |path|
      invariant start <= k <= |path|
      invariant |cycle| == k - start
      invariant forall i :: 0 <= i < k - start ==> cycle[i] == path[start + i].node
    {
      cycle := cycle + [path[k].node];
      k := k + 1;
    }
    cycle := cycle + [target];
    PathCloses(adjacency, path, start, cycle);
  }

  method SetMark(state: array<Mark>, v: nat, m: Mark)
    requires v < state.Length
    modifies state
    ensures state[..] == old(state[..])[v := m]
  {
    state[v] := m;
  }

  /** The top frame has no edge left: its node is finished. */
  method FinishTop(adjacency: seq<seq<nat>>, state: array<Mark>, path: seq<Frame>, ghost rank: map<nat, int>, ghost clock: int)
    returns (rest: seq<Frame>)
    requires state.Length == |adjacency| && |path| > 0
    requires Searching(adjacency, state[..], path, rank, clock)
    requires path[|path| - 1].next >= |adjacency[path[|path| - 1].node]|
    modifies state
    ensures Searching(adjacency, state[..], rest, rank[path[|path| - 1].node := clock], clock + 1)
    ensures Advances(adjacency, old(state[..]), state[..], path, rest)
  {
    PopStep(adjacency, state[..], path, rank, clock);
    SetMark(state, path[|path| - 1].node, Finished);
    rest := path[..|path| - 1];
  }

  /** The next edge of the top frame leads to an unvisited node: it joins the path. */
  method Descend(adjacency: seq<seq<nat>>, state: array<Mark>, path: seq<Frame>, target: nat,
                 ghost rank: map<nat, int>, ghost clock: int)
    returns (rest: seq<Frame>)
    requires state.Length == |adjacency| && |path| > 0
    requires Searching(adjacency, state[..], path, rank, clock)
    requires path[|path| - 1].next < |adjacency[path[|path| - 1].node]|
    requires target == adjacency[path[|path| - 1].node][path[|path| - 1].next] && state[target] == Unvisited
    modifies state
    ensures Searching(adjacency, state[..], rest, rank, clock)
    ensures Advances(adjacency, old(state[..]), state[..], path, rest)
  {
    PushStep(adjacency, state[..], path, rank, clock, target);
    SetMark(state, target, OnPath);
    var top := path[|path| - 1];
    rest := path[|path| - 1 := Frame(top.node, top.next + 1)] + [Frame(target, 0)];
  }

  /** The next edge of the top frame leads to a finished node: only the edge position moves. */
  method Skip(adjacency: seq<seq<nat>>, ghost marks: seq<Mark>, path: seq<Frame>, ghost rank: map<nat, int>,
              ghost clock: int)
    returns (rest: seq<Frame>)
    requires |path| > 0 && Searching(adjacency, marks, path, rank, clock)
    requires path[|path| - 1].next < |adjacency[path[|path| - 1].node]|
    requires marks[adjacency[path[|path| - 1].node][path[|path| - 1].next]] == Finished
    ensures Searching(adjacency, marks, rest, rank, clock)
    ensures Advances(adjacency, marks, marks, path, rest)
  {
    SkipStep(adjacency, marks, path, rank, clock);
    var top := path[|path| - 1];
    rest := path[|path| - 1 := Frame(top.node, top.next + 1)];
  }

  /** The next edge of the top frame leads back to the path: the cycle is found. */
  method Close(adjacency: seq<seq<nat>>, ghost marks: seq<Mark>, path: seq<Frame>, target: nat)
    returns (cycle: seq<nat>)
    requires |marks| == |adjacency| && |path| > 0 && WellFormed(adjacency)
    requires Frames(adjacency, path) && Linked(adjacency, path) && Marked(marks, path)
    requires path[|path| - 1].next < |adjacency[path[|path| - 1].node]|
    requires target == adjacency[path[|path| - 1].node][path[|path| - 1].next] && marks[target] == OnPath
    ensures SimpleCycle(IndexGraph(adjacency), cycle)
  {
    AdvanceLinked(adjacency, path);
    AdvanceMarked(marks, path);
    var top := path[|path| - 1];
    cycle := CloseCycle(adjacency, path[|path| - 1 := Frame(top.node, top.next + 1)], target);
  }

  /** One turn of the search loop: finish the top frame, report a cycle, or follow its next edge. */
  method Turn(adjacency: seq<seq<nat>>, state: array<Mark>, path: seq<Frame>, ghost rank0: map<nat, int>, ghost clock0: int)
    returns (found: Option<seq<nat>>, rest: seq<Frame>, ghost rank: map<nat, int>, ghost clock: int)
    requires state.Length == |adjacency| && |path| > 0
    requires Searching(adjacency, state[..], path, rank0, clock0)
    modifies state
    ensures found.Some? ==> SimpleCycle(IndexGraph(adjacency), found.value)
    ensures found.None? ==> Searching(adjacency, state[..], rest, rank, clock)
    ensures found.None? ==> Advances(adjacency, old(state[..]), state[..], path, rest)
  {
    rank, clock := rank0, clock0;
    found, rest := None, path;
    var top := |path| - 1;
    var node, next := path[top].node, path[top].next;
    if next >= |adjacency[node]| {
      rest := FinishTop(adjacency, state, path, rank0, clock0);
      rank, clock := rank0[node := clock0], clock0 + 1;
      return;
    }
    var target := adjacency[node][next];
    if state[target] == Unvisited {
      rest := Descend(adjacency, state, path, target, rank0, clock0);
    } else if state[target] == OnPath {
      var cycle := Close(adjacency, state[..], path, target);
      found := Some(cycle);
    } else {
      rest := Skip(adjacency, state[..], path, rank0, clock0);
    }
  }

  /** One depth-first search from an unvisited root: a simple cycle, or every node it met finished. */
  method SearchFrom(adjacency: seq<seq<nat>>, state: array<Mark>, root: nat, ghost rank0: map<nat, int>, ghost clock0: int)
    returns (found: Option<seq<nat>>, ghost rank: map<nat, int>, ghost clock: int)
    requires WellFormed(adjacency) && state.Length == |adjacency| && root < state.Length
    requires forall v :: 0 <= v < state.Length ==> state[v] != OnPath
    requires Ranked(adjacency, state[..], rank0, clock0) && state[root] == Unvisited
    modifies state
    ensures found.Some? ==> SimpleCycle(IndexGraph(adjacency), found.value)
    ensures found.None? ==>
              && Ranked(adjacency, state[..], rank, clock)
              && state[root] == Finished
              && (forall v :: 0 <= v < state.Length ==> state[v] != OnPath)
              && Progress(old(state[..]), state[..])
  {
    rank, clock := rank0, clock0;
    var path := [Frame(root, 0)];
    StartStep(adjacency, state[..], rank, clock, root);
    state[root] := OnPath;
    while |path| > 0
      invariant Searching(adjacency, state[..], path, rank, clock)
      invariant Progress(old(state[..]), state[..])
      invariant |path| > 0 ==> path[0].node == root
      invariant |path| == 0 ==> state[root] == Finished
      decreases UnvisitedNodes(state[..]), |path|, EdgesLeft(adjacency, path)
    {
      found, path, rank, clock := Turn(adjacency, state, path, rank, clock);
      if found.Some? {
        return;
      }
    }
    found := None;
  }

  /** Finds no cycle exactly when there is none, and otherwise returns a simple one. */
  method FirstCycle(adjacency: seq<seq<nat>>) returns (found: Option<seq<nat>>)
    requires WellFormed(adjacency)
    ensures found.None? <==> Acyclic(IndexGraph(adjacency))
    ensures found.Some? ==> SimpleCycle(IndexGraph(adjacency), found.value)
  {
    var n := |adjacency|;
    var state := new Mark[n](_ => Unvisited);
    ghost var rank: map<nat, int> := map[];
    ghost var clock := 0;
    var root := 0;
    while root < n
      invariant root <= n
      invariant forall v :: 0 <= v < n ==> state[v] != OnPath
      invariant forall v :: 0 <= v < root ==> state[v] == Finished
      invariant Ranked(adjacency, state[..], rank, clock)
    {
      if state[root] == Unvisited {
        found, rank, clock := SearchFrom(adjacency, state, root, rank, clock);
        if found.Some? {
          return;
        }
      }
      root := root + 1;
    }
    AllFinishedAcyclic(adjacency, state[..], rank, clock);
    found := None;
  }
}
