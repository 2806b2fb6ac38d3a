/** The worklists of relocation: the closure of a selection over plan-bound links, and the subtree of a task. */
module PlanMoves {
  import opened Basics
  import opened Graphs
  import opened Records
  import opened Waiting
  import opened Definition
  import opened Invariants

  // ---- the closure of a selection ----

  type Adjacency = map<nat, seq<nat>>

  predicate Neighbor(adjacency: Adjacency, a: nat, b: nat) { a in adjacency && b in adjacency[a] }

  /** An undirected link between two tasks. */
  predicate Linked(edges: seq<Edge>, a: nat, b: nat) { (a, b) in edges || (b, a) in edges }

  ghost function Undirected(g: Graph): (u: Graph)
    ensures forall e :: e in u <==> e in g || (e.1, e.0) in g
  {
    g + set e | e in g :: (e.1, e.0)
  }

  function WithNeighbor(adjacency: Adjacency, a: nat, b: nat): (r: Adjacency)
    ensures forall x, y :: Neighbor(r, x, y) <==> Neighbor(adjacency, x, y) || (x == a && y == b)
  {
    adjacency[a := (if a in adjacency then adjacency[a] else []) + [b]]
  }

  lemma LinkedNext(edges: seq<Edge>, i: nat)
    requires i < |edges|
    ensures forall a: nat, b: nat :: Linked(edges[..i + 1], a, b) <==>
              Linked(edges[..i], a, b) || (a, b) == edges[i] || (b, a) == edges[i]
  {
    TakeNext(edges, i);
  }

  /** Both directions of every edge, edge by edge. */
  method BothWays(edges: seq<Edge>) returns (adjacency: Adjacency)
    ensures forall a, b :: Neighbor(adjacency, a, b) <==> Linked(edges, a, b)
  {
    adjacency := map[];
    for i := 0 to |edges|
      invariant forall a, b :: Neighbor(adjacency, a, b) <==> Linked(edges[..i], a, b)
    {
      LinkedNext(edges, i);
      adjacency := WithNeighbor(adjacency, edges[i].0, edges[i].1);
      adjacency := WithNeighbor(adjacency, edges[i].1, edges[i].0);
    }
    TakeAll(edges);
  }

  ghost predicate FromSelection(g: Graph, starts: seq<nat>, x: nat) {
    exists start :: start in starts && Reach(g, start, x)
  }

  /** Found tasks are reachable, and those no longer pending have all their neighbors found. */
  ghost predicate Spreading(g: Graph, starts: seq<nat>, found: set<nat>, pending: seq<nat>) {
    && (forall x :: x in starts ==> x in found)
    && (forall x :: x in pending ==> x in found)
    && (forall x :: x in found ==> FromSelection(g, starts, x))
    && (forall e :: e in g && e.0 in found && e.0 !in pending ==> e.1 in found)
  }

  lemma SpreadOut(g: Graph, starts: seq<nat>, found: set<nat>)
    requires Spreading(g, starts, found, [])
    ensures forall x :: x in found <==> FromSelection(g, starts, x)
  {
    forall x | FromSelection(g, starts, x) ensures x in found {
      var start :| start in starts && Reach(g, start, x);
      var w :| Connects(g, w, start, x);
      WalkStays(g, found, w);
    }
  }

  /** All neighbors of one popped task join the closure. */
  method Absorb(neighbors: seq<nat>, current: nat, found0: set<nat>, pending0: seq<nat>,
                ghost g: Graph, ghost starts: seq<nat>, ghost all: set<nat>)
    returns (found: set<nat>, pending: seq<nat>)
    requires forall b :: b in neighbors <==> (current, b) in g
    requires current in found0 && Spreading(g, starts, found0, pending0 + [current])
    requires found0 <= all && forall e :: e in g ==> e.1 in all
    ensures Spreading(g, starts, found, pending) && found0 <= found <= all
    ensures found == found0 ==> pending == pending0
  {
    found, pending := found0, pending0;
    for i := 0 to |neighbors|
      invariant found0 <= found <= all && (found == found0 ==> pending == pending0)
      invariant forall b :: b in neighbors[..i] ==> b in found
      invariant Spreading(g, starts, found, pending + [current])
    {
      var next := neighbors[i];
      assert (current, next) in g;
      if next !in found {
        FoundNext(g, starts, found, pending, current, next);
        found := found + {next};
        pending := pending + [next];
      }
    }
  }

  lemma FoundNext(g: Graph, starts: seq<nat>, found: set<nat>, pending: seq<nat>, current: nat, next: nat)
    requires Spreading(g, starts, found, pending + [current]) && (current, next) in g && next !in found
    ensures Spreading(g, starts, found + {next}, pending + [next] + [current])
  {
    assert current in pending + [current];
    assert FromSelection(g, starts, current);
    var start :| start in starts && Reach(g, start, current);
    ReachEdge(g, current, next);
    ReachTrans(g, start, current, next);
    assert FromSelection(g, starts, next);
    forall x | x in pending + [current] ensures x in pending + [next] + [current] { }
    forall e | e in g && e.0 in found + {next} && e.0 !in pending + [next] + [current] ensures e.1 in found {
      assert next in pending + [next] + [current];
    }
  }

  ghost predicate Adjoins(adjacency: Adjacency, g: Graph) {
    forall a: nat, b: nat :: Neighbor(adjacency, a, b) <==> (a, b) in g
  }

  /** Pop one task and let its new neighbors join. */
  method Pop(adjacency: Adjacency, closure0: set<nat>, pending0: seq<nat>,
             ghost g: Graph, ghost sequences: seq<nat>, ghost all: set<nat>)
    returns (closure: set<nat>, pending: seq<nat>)
    requires Adjoins(adjacency, g) && pending0 != [] && Spreading(g, sequences, closure0, pending0)
    requires closure0 <= all && forall e :: e in g ==> e.1 in all
    ensures Spreading(g, sequences, closure, pending) && closure <= all
    ensures |all - closure| < |all - closure0| || (closure == closure0 && |pending| < |pending0|)
  {
    var current := pending0[|pending0| - 1];
    LastPending(pending0);
    closure, pending := Absorb(NeighborsOf(adjacency, current), current, closure0, pending0[..|pending0| - 1],
                               g, sequences, all);
    if closure != closure0 {
      SubsetShrinks(all, closure0, closure);
    }
  }

  method Spread(sequences: seq<nat>, adjacency: Adjacency, ghost g: Graph) returns (closure: set<nat>)
    requires Adjoins(adjacency, g)
    ensures forall x :: x in closure <==> FromSelection(g, sequences, x)
  {
    closure := set x | x in sequences;
    var pending := sequences;
    ghost var all := Reachable(g, sequences);
    SelectionSpreading(g, sequences);
    while pending != []
      invariant Spreading(g, sequences, closure, pending) && closure <= all
      decreases |all - closure|, |pending|
    {
      closure, pending := Pop(adjacency, closure, pending, g, sequences, all);
    }
    SpreadOut(g, sequences, closure);
  }

  /** The selection and everything its plan-bound links connect it to. */
  method Closure(sequences: seq<nat>, edges: seq<Edge>) returns (closure: set<nat>)
    ensures forall x :: x in closure <==> FromSelection(Undirected(EdgeSet(edges)), sequences, x)
  {
    var adjacency := BothWays(edges);
    ghost var g := Undirected(EdgeSet(edges));
    forall a: nat, b: nat ensures Neighbor(adjacency, a, b) <==> (a, b) in g { var e: Edge := (a, b); }
    closure := Spread(sequences, adjacency, g);
  }

  ghost function EdgeSet(edges: seq<Edge>): (g: Graph)
    ensures forall e :: e in g <==> e in edges
  {
    set e | e in edges
  }

  ghost function Reachable(g: Graph, sequences: seq<nat>): (all: set<nat>)
    ensures forall x :: x in sequences ==> x in all
    ensures forall e :: e in g ==> e.1 in all
  {
    (set x | x in sequences) + (set e | e in g :: e.1)
  }

  function NeighborsOf(adjacency: Adjacency, a: nat): (r: seq<nat>)
    ensures forall b :: b in r <==> Neighbor(adjacency, a, b)
  {
    if a in adjacency then adjacency[a] else []
  }

  lemma LastPending(pending: seq<nat>)
    requires pending != []
    ensures pending[..|pending| - 1] + [pending[|pending| - 1]] == pending
  {
  }

  lemma SelectionSpreading(g: Graph, sequences: seq<nat>)
    ensures Spreading(g, sequences, (set x | x in sequences), sequences)
  {
    forall x | x in sequences ensures FromSelection(g, sequences, x) { ReachSelf(g, x); }
  }

  lemma SubsetShrinks(all: set<nat>, before: set<nat>, after: set<nat>)
    requires before < after <= all
    ensures |all - after| < |all - before|
  {
    var x :| x in after && x !in before;
    var rest := (all - before) - {x};
    assert all - after <= rest;
    SubsetSize(all - after, rest);
  }

  lemma {:induction false} SubsetSize(a: set<nat>, b: set<nat>)
    requires a <= b
    ensures |a| <= |b|
    decreases |a|
  {
    if a != {} {
      var x :| x in a;
      SubsetSize(a - {x}, b - {x});
    }
  }

  /** What move-plan reports as missing from the selection. */
  ghost predicate Missing(s: State, sequences: seq<nat>, x: nat) {
    x !in sequences && FromSelection(Undirected(PlanBound(s)), sequences, x)
  }

  /** The closure refuses exactly the selections that split a link. */
  lemma NothingMissing(s: State, sequences: seq<nat>)
    ensures LinkClosed(s, set x | x in sequences) <==> forall x :: !Missing(s, sequences, x)
  {
    var g, selected := Undirected(PlanBound(s)), set x | x in sequences;
    if LinkClosed(s, selected) {
      forall x | FromSelection(g, sequences, x) ensures x in sequences {
        var start :| start in sequences && Reach(g, start, x);
        var w :| Connects(g, w, start, x);
        forall e | e in g && e.0 in selected ensures e.1 in selected { assert e in PlanBound(s) || (e.1, e.0) in PlanBound(s); }
        WalkStays(g, selected, w);
      }
    }
    if forall x :: !Missing(s, sequences, x) {
      forall e | e in PlanBound(s) ensures e.0 in selected <==> e.1 in selected {
        assert e in g && (e.1, e.0) in g;
        if e.0 in sequences { JoinedIsMissing(s, sequences, e.0, e.1); }
        if e.1 in sequences { JoinedIsMissing(s, sequences, e.1, e.0); }
      }
    }
  }

  lemma JoinedIsMissing(s: State, sequences: seq<nat>, a: nat, b: nat)
    requires a in sequences && (a, b) in Undirected(PlanBound(s))
    ensures b in sequences || Missing(s, sequences, b)
  {
    ReachEdge(Undirected(PlanBound(s)), a, b);
    assert FromSelection(Undirected(PlanBound(s)), sequences, b);
  }

  /** Supplying the reported tasks suffices, and no link-closed selection does with less. */
  lemma ClosureIsLeast(s: State, sequences: seq<nat>, closure: set<nat>)
    requires forall x :: x in closure <==> FromSelection(Undirected(PlanBound(s)), sequences, x)
    ensures LinkClosed(s, closure)
    ensures forall wider: set<nat> :: LinkClosed(s, wider) && (forall x :: x in sequences ==> x in wider) ==> closure <= wider
  {
    var g := Undirected(PlanBound(s));
    forall e | e in PlanBound(s) ensures e.0 in closure <==> e.1 in closure {
      assert e in g && (e.1, e.0) in g;
      if e.0 in closure { SelectionSpreads(g, sequences, e.0, e.1); }
      if e.1 in closure { SelectionSpreads(g, sequences, e.1, e.0); }
    }
    forall wider: set<nat> | LinkClosed(s, wider) && (forall x :: x in sequences ==> x in wider) ensures closure <= wider {
      forall x | x in closure ensures x in wider {
        var start :| start in sequences && Reach(g, start, x);
        var w :| Connects(g, w, start, x);
        forall e | e in g && e.0 in wider ensures e.1 in wider { assert e in PlanBound(s) || (e.1, e.0) in PlanBound(s); }
        WalkStays(g, wider, w);
      }
    }
  }

  lemma SelectionSpreads(g: Graph, starts: seq<nat>, a: nat, b: nat)
    requires FromSelection(g, starts, a) && (a, b) in g
    ensures FromSelection(g, starts, b)
  {
    var start :| start in starts && Reach(g, start, a);
    ReachEdge(g, a, b);
    ReachTrans(g, start, a, b);
  }

  // ---- the subtree of a task ----

  predicate Increasing(s: seq<nat>) { forall i, j :: 0 <= i < j < |s| ==> s[i] < s[j] }

  lemma IncreasingNext(s: seq<nat>, x: nat)
    requires Increasing(s) && forall y :: y in s ==> y < x
    ensures Increasing(s + [x])
  {
    forall i, j | 0 <= i < j < |s + [x]| ensures (s + [x])[i] < (s + [x])[j] {
      if j == |s| { assert s[i] in s; }
    }
  }

  /** An increasing sequence is determined by its members. */
  lemma {:induction false} SameOrder(a: seq<nat>, b: seq<nat>)
    requires Increasing(a) && Increasing(b) && forall x :: x in a <==> x in b
    ensures a == b
    decreases |a|
  {
    assert b != [] ==> b[0] in b;
    if a != [] {
      assert a[0] in a && a[0] in b && b[0] in b && b[0] in a;
      forall x ensures x in a[1..] <==> x in b[1..] {
        assert x in a <==> x == a[0] || x in a[1..];
        assert x in b <==> x == b[0] || x in b[1..];
        if x in a[1..] { assert x != a[0]; }
        if x in b[1..] { assert x != b[0]; }
      }
      SameOrder(a[1..], b[1..]);
    }
  }

  ghost predicate Ordering(numbers: set<nat>, order: seq<nat>, rest: set<nat>) {
    && Increasing(order) && rest <= numbers
    && (forall x :: x in order <==> x in numbers && x !in rest)
    && (forall x :: x in order ==> forall y :: y in rest ==> x < y)
  }

  lemma OrderNext(numbers: set<nat>, order: seq<nat>, rest: set<nat>, x: nat)
    requires Ordering(numbers, order, rest) && IsLeast(rest, x)
    ensures Ordering(numbers, order + [x], rest - {x})
  {
    IncreasingNext(order, x);
    forall y ensures y in order + [x] <==> y in numbers && y !in rest - {x} { }
  }

  /** Every number of a set, in increasing order. */
  method InOrder(numbers: set<nat>) returns (order: seq<nat>)
    ensures Increasing(order) && forall x :: x in order <==> x in numbers
  {
    order := [];
    var rest := numbers;
    while rest != {}
      invariant Ordering(numbers, order, rest)
      decreases |rest|
    {
      ghost var least := LeastExists(rest);
      var x :| IsLeast(rest, x);
      OrderNext(numbers, order, rest, x);
      order := order + [x];
      rest := rest - {x};
    }
  }

  predicate IsLeast(numbers: set<nat>, x: nat) { x in numbers && forall y :: y in numbers ==> x <= y }

  lemma {:induction false} LeastExists(numbers: set<nat>) returns (least: nat)
    requires numbers != {}
    ensures IsLeast(numbers, least)
    decreases |numbers|
  {
    var x :| x in numbers;
    var rest := numbers - {x};
    least := x;
    if rest != {} {
      var z := LeastExists(rest);
      if z < x { least := z; }
    }
    assert numbers == rest + {x};
  }

  predicate ChildOf(tasks: map<nat, Task>, x: nat, y: nat) { y in tasks && tasks[y].parent == Some(x) }

  /** The rows whose parent is x, by number. */
  method ChildRows(tasks: map<nat, Task>, x: nat) returns (children: seq<nat>)
    ensures Increasing(children) && forall y :: y in children <==> ChildOf(tasks, x, y)
  {
    children := InOrder(set y | y in tasks && tasks[y].parent == Some(x));
  }

  /** The walk so far: every task met is the root or met once below it; the expanded ones have all their children met. */
  ghost predicate Walking(s: State, x: nat, met: seq<nat>, pending: seq<nat>, expanded: set<nat>) {
    && Distinct(met) && Distinct(pending)
    && (forall y :: y in met ==> Below(s, x, y) && s.tasks[y].parent.Some? && s.tasks[y].parent.value in expanded)
    && (forall y :: y in pending ==> (y == x || y in met) && y !in expanded)
    && (forall y :: y in expanded ==> y in s.tasks && (y == x || y in met))
    && (forall y :: y == x || y in met ==> y in expanded || y in pending)
    && (forall y, p :: p in expanded && ChildOf(s.tasks, p, y) ==> y in met)
  }

  lemma ChildIsBelow(s: State, x: nat, p: nat, y: nat)
    requires Acyclic(Parents(s)) && (p == x || Below(s, x, p)) && ChildOf(s.tasks, p, y)
    ensures Below(s, x, y)
  {
    assert (y, p) in Parents(s);
    ReachSelf(Parents(s), x);
    if y == x { EdgeOnReachIsCycle(Parents(s), x, p); }
    ReachStep(Parents(s), y, p, x);
  }

  /** Meeting everything once: nothing pending means the whole subtree is met. */
  lemma {:induction false} MetAll(s: State, x: nat, met: seq<nat>, expanded: set<nat>, w: seq<nat>)
    requires Walking(s, x, met, [], expanded) && Walk(Parents(s), w) && w[|w| - 1] == x
    ensures w[0] == x || w[0] in met
    decreases |w|
  {
    if |w| > 1 {
      assert (w[0], w[1]) in Parents(s);
      assert Walk(Parents(s), w[1..]);
      MetAll(s, x, met, expanded, w[1..]);
      assert ChildOf(s.tasks, w[1], w[0]);
    }
  }

  lemma WalkDone(s: State, x: nat, met: seq<nat>, expanded: set<nat>)
    requires Walking(s, x, met, [], expanded)
    ensures Visits(s, x, met)
  {
    forall y | Below(s, x, y) ensures y in met {
      var w :| Connects(Parents(s), w, y, x);
      MetAll(s, x, met, expanded, w);
    }
  }

  /** Children of the popped task are new: their parent was not expanded before. */
  lemma ChildIsNew(s: State, x: nat, met: seq<nat>, pending: seq<nat>, expanded: set<nat>, p: nat, y: nat)
    requires Walking(s, x, met, pending, expanded) && p !in expanded && ChildOf(s.tasks, p, y)
    ensures y !in met
  {
  }

  /** The state after a popped task's children are met and pushed. */
  lemma Expanded(s: State, x: nat, met: seq<nat>, pending: seq<nat>, expanded: set<nat>, p: nat, children: seq<nat>)
    requires Acyclic(Parents(s)) && p in s.tasks
    requires Walking(s, x, met, pending + [p], expanded)
    requires Increasing(children) && forall y :: y in children <==> ChildOf(s.tasks, p, y)
    ensures p !in expanded
    ensures Walking(s, x, met + children, pending + children, expanded + {p})
  {
    var was := pending + [p];
    assert was[|pending|] == p && p in was;
    assert forall y :: y in pending ==> y in was;
    forall y | y in children ensures y !in met && Below(s, x, y) && y != x && y !in expanded && y != p && y !in pending {
      ChildIsNew(s, x, met, was, expanded, p, y);
      ChildIsBelow(s, x, p, y);
      ReachSelf(Parents(s), p);
      if y == p { EdgeOnReachIsCycle(Parents(s), p, p); }
    }
    DistinctJoin(met, children);
    DistinctInit(pending, p);
    DistinctJoin(pending, children);
    forall y | y == x || y in met + children ensures y in expanded + {p} || y in pending + children {
      if y == x || y in met { assert y in expanded || y in was; }
    }
  }

  lemma DistinctInit(a: seq<nat>, x: nat)
    requires Distinct(a + [x])
    ensures Distinct(a) && x !in a
  {
    assert forall i :: 0 <= i < |a| ==> (a + [x])[i] == a[i];
    assert (a + [x])[|a|] == x;
  }

  lemma DistinctJoin(a: seq<nat>, b: seq<nat>)
    requires Increasing(b) && forall y :: y in b ==> y !in a
    requires Distinct(a)
    ensures Distinct(a + b)
  {
    forall i, j | 0 <= i < j < |a + b| ensures (a + b)[i] != (a + b)[j] {
      if j >= |a| {
        assert (a + b)[j] in b;
      }
    }
  }

  /** Collects the strict descendants of x with a stack and no memory of what it saw:
      it ends because the parent links form a forest. */
  method Descendants(tasks: map<nat, Task>, x: nat, ghost s: State) returns (descendants: seq<nat>)
    requires tasks == s.tasks && x in tasks && Acyclic(Parents(s))
    ensures Visits(s, x, descendants)
  {
    descendants := [];
    var pending := [x];
    ghost var expanded: set<nat> := {};
    while pending != []
      invariant Walking(s, x, descendants, pending, expanded)
      decreases |s.tasks.Keys - expanded|
    {
      var current := pending[|pending| - 1];
      var rest := pending[..|pending| - 1];
      assert rest + [current] == pending && current in pending;
      var children := ChildRows(tasks, current);
      Expanded(s, x, descendants, rest, expanded, current, children);
      SubsetShrinks(s.tasks.Keys, expanded, expanded + {current});
      pending := rest + children;
      descendants := descendants + children;
      expanded := expanded + {current};
    }
    WalkDone(s, x, descendants, expanded);
  }
}
