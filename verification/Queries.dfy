/** The reads that guard mutations: settled prerequisites, open dependencies, dependency search, ancestry and wait-graph loading. */
module Queries {
  import opened Basics
  import opened Graphs
  import opened Records
  import opened Review
  import opened ReviewFacts
  import opened GatesAndPlans
  import opened Waiting
  import opened TaskGraph
  import opened PlanMoves

  // ---- settled prerequisites ----

  /** Every task seen so far is retired into one that is also seen, or into the next. */
  ghost predicate Followed(s: State, seen: set<nat>, next: nat) {
    forall z :: z in seen ==>
      && z in s.tasks && s.tasks[z].status.Retired? && s.tasks[z].replacement.Some?
      && (s.tasks[z].replacement.value in seen || s.tasks[z].replacement.value == next)
  }

  /** A chain that comes back on itself settles nothing. */
  lemma {:induction false} LoopSettlesNothing(s: State, seen: set<nat>, w: seq<nat>)
    requires Waiting.Follows(s, w) && Followed(s, seen, w[0]) && w[0] in seen
    ensures w[|w| - 1] in seen && !SettledHere(s, w[|w| - 1])
    decreases |w|
  {
    if |w| > 1 {
      assert RetiredInto(s, w[0], w[1]);
      var v := w[1..];
      forall i | 0 < i < |v| ensures RetiredInto(s, v[i - 1], v[i]) { assert v[i - 1] == w[i] && v[i] == w[i + 1]; }
      assert Waiting.Follows(s, v);
      LoopSettlesNothing(s, seen, v);
    }
  }

  lemma LoopIsUnsettled(s: State, seen: set<nat>, next: nat)
    requires Followed(s, seen, next) && next in seen
    ensures !Settled(s, next)
  {
    if Settled(s, next) {
      var y :| LeadsTo(s, next, y) && SettledHere(s, y);
      var w :| Waiting.Follows(s, w) && w[0] == next && w[|w| - 1] == y;
      LoopSettlesNothing(s, seen, w);
    }
  }

  /** Follow replacement links, remembering what was seen: settled exactly when the chain ends settled,
      in every state, broken and circular chains included. */
  method PrerequisiteSettled(s: State, x: nat) returns (settled: bool)
    ensures settled == Settled(s, x)
  {
    var seen: set<nat> := {};
    var next := x;
    while next !in seen
      invariant Followed(s, seen, next)
      invariant Settled(s, x) <==> Settled(s, next)
      decreases |s.tasks.Keys - seen|
    {
      SettledUnfold(s, next);
      if next !in s.tasks { return false; }
      var t := s.tasks[next];
      SubsetShrinks(s.tasks.Keys, seen, seen + {next});
      seen := seen + {next};
      if t.status.Done? || (t.status.Retired? && t.replacement.None?) {
        return true;
      } else if t.status.Retired? {
        next := t.replacement.value;
      } else {
        return false;
      }
    }
    LoopIsUnsettled(s, seen, next);
    return false;
  }

  /** The dependencies that still hold a task, by number. */
  method OpenDeps(s: State, x: nat) returns (open: seq<nat>)
    ensures Increasing(open) && forall d :: d in open <==> d in s.tasks && OpenDep(s, x, d)
  {
    var candidates := InOrder(set e | e in s.deps && e.0 == x && e.1 in s.tasks && !s.tasks[e.1].status.Done? :: e.1);
    forall d: nat ensures d in candidates <==> (x, d) in s.deps && d in s.tasks && !s.tasks[d].status.Done? {
      var e: Edge := (x, d);
      if e in s.deps && d in s.tasks && !s.tasks[d].status.Done? { assert e.1 in candidates; }
    }
    open := [];
    for i := 0 to |candidates|
      invariant Increasing(open)
      invariant forall d :: d in open <==> d in candidates[..i] && !Settled(s, d)
      invariant forall d :: d in open ==> forall k :: i <= k < |candidates| ==> d < candidates[k]
    {
      var settled := PrerequisiteSettled(s, candidates[i]);
      TakeNext(candidates, i);
      if !settled {
        IncreasingNext(open, candidates[i]);
        open := open + [candidates[i]];
      }
    }
    TakeAll(candidates);
    forall d ensures d in open <==> d in s.tasks && OpenDep(s, x, d) { SettledUnfold(s, d); }
  }

  // ---- dependency search ----

  /** Seen tasks' dependencies are seen or waiting on the stack, and everything on it is reachable. */
  ghost predicate Descending(deps: Graph, from: nat, target: nat, seen: set<nat>, stack: seq<nat>) {
    && (from in seen || from in stack) && target !in seen
    && (forall x :: x in stack ==> Reach(deps, from, x))
    && (forall x :: x in seen ==> Reach(deps, from, x))
    && (forall e :: e in deps && e.0 in seen ==> e.1 in seen || e.1 in stack)
  }

  lemma Exhausted(deps: Graph, from: nat, target: nat, seen: set<nat>)
    requires Descending(deps, from, target, seen, [])
    ensures !Reach(deps, from, target)
  {
    if Reach(deps, from, target) {
      var w :| Connects(deps, w, from, target);
      WalkStays(deps, seen, w);
    }
  }

  lemma Descend(deps: Graph, from: nat, target: nat, seen: set<nat>, rest: seq<nat>, current: nat, next: seq<nat>)
    requires Descending(deps, from, target, seen, rest + [current]) && current != target
    requires forall b :: b in next <==> (current, b) in deps
    ensures Descending(deps, from, target, seen + {current}, rest + next)
  {
    var was := rest + [current];
    assert current in was && forall x :: x in was <==> x in rest || x == current;
    forall b | b in next ensures Reach(deps, from, b) {
      ReachEdge(deps, current, b);
      ReachTrans(deps, from, current, b);
    }
    forall e | e in deps && e.0 in seen + {current} ensures e.1 in seen + {current} || e.1 in rest + next {
      if e.0 == current { assert (current, e.1) == e; }
    }
  }

  lemma Dropped(deps: Graph, from: nat, target: nat, seen: set<nat>, rest: seq<nat>, current: nat)
    requires Descending(deps, from, target, seen, rest + [current]) && current in seen
    ensures Descending(deps, from, target, seen, rest)
  {
    var was := rest + [current];
    assert forall x :: x in was <==> x in rest || x == current;
  }

  method DependenciesOf(deps: set<Edge>, x: nat) returns (next: seq<nat>)
    ensures forall b :: b in next <==> (x, b) in deps
  {
    next := InOrder(set e | e in deps && e.0 == x :: e.1);
    forall b: nat ensures b in next <==> (x, b) in deps {
      var e: Edge := (x, b);
      if e in deps { assert e.1 in next; }
    }
  }

  ghost function Ends(deps: Graph, from: nat): (all: set<nat>)
    ensures from in all && forall e :: e in deps ==> e.1 in all
  {
    {from} + set e | e in deps :: e.1
  }

  /** Whether `target` is among what `from` depends on, by depth-first search with a stack. */
  method DependsOn(deps: set<Edge>, from: nat, target: nat) returns (found: bool)
    ensures found <==> Reach(deps, from, target)
  {
    var stack := [from];
    var seen: set<nat> := {};
    ghost var all := Ends(deps, from);
    ReachSelf(deps, from);
    while stack != []
      invariant Descending(deps, from, target, seen, stack)
      invariant seen <= all && forall x :: x in stack ==> x in all
      decreases |all - seen|, |stack|
    {
      var current, rest := stack[|stack| - 1], stack[..|stack| - 1];
      LastPending(stack);
      if current == target { return true; }
      if current in seen {
        Dropped(deps, from, target, seen, rest, current);
        stack := rest;
      } else {
        var next := DependenciesOf(deps, current);
        Descend(deps, from, target, seen, rest, current, next);
        assert forall b :: b in next ==> (current, b) in deps;
        SubsetShrinks(all, seen, seen + {current});
        seen := seen + {current};
        stack := rest + next;
      }
    }
    Exhausted(deps, from, target, seen);
    return false;
  }

  // ---- ancestry ----

  /** From a root down to the parent of x, each the parent of the next. */
  ghost predicate Ancestry(s: State, x: nat, path: seq<nat>) {
    && x in s.tasks && (forall i :: 0 <= i < |path| ==> path[i] in s.tasks)
    && (if path == [] then s.tasks[x].parent.None?
        else s.tasks[x].parent == Some(path[|path| - 1]) && s.tasks[path[0]].parent.None?)
    && (forall i :: 0 < i < |path| ==> ChildOf(s.tasks, path[i - 1], path[i]))
  }

  /** Climbed so far: a chain of parents from x, nearest first, with `next` the parent of its last. */
  ghost predicate Climbing(s: State, x: nat, climbed: seq<nat>, next: Option<nat>) {
    && x in s.tasks && (forall i :: 0 <= i < |climbed| ==> climbed[i] in s.tasks)
    && (climbed != [] ==> s.tasks[x].parent == Some(climbed[0]))
    && (forall i :: 0 < i < |climbed| ==> ChildOf(s.tasks, climbed[i], climbed[i - 1]))
    && next == s.tasks[if climbed == [] then x else climbed[|climbed| - 1]].parent
  }

  function Backwards<T>(s: seq<T>): (r: seq<T>)
    ensures |r| == |s| && forall i :: 0 <= i < |s| ==> r[i] == s[|s| - 1 - i]
  {
    seq(|s|, i requires 0 <= i < |s| => s[|s| - 1 - i])
  }

  lemma ClimbedAll(s: State, x: nat, climbed: seq<nat>)
    requires Climbing(s, x, climbed, None)
    ensures Ancestry(s, x, Backwards(climbed))
  {
    var path := Backwards(climbed);
    forall i | 0 < i < |path| ensures ChildOf(s.tasks, path[i - 1], path[i]) {
      var k := |climbed| - i;
      assert ChildOf(s.tasks, climbed[k], climbed[k - 1]);
    }
  }

  /** The climb follows the one path there is. */
  lemma {:induction false} ClimbsAncestry(s: State, x: nat, climbed: seq<nat>, next: Option<nat>, path: seq<nat>)
    requires Climbing(s, x, climbed, next) && Ancestry(s, x, path)
    ensures |climbed| <= |path| && climbed == Backwards(path)[..|climbed|]
    ensures next == if |climbed| < |path| then Some(path[|path| - 1 - |climbed|]) else None
    decreases |climbed|
  {
    var n := |climbed| - 1;
    if n >= 0 {
      var below := climbed[..n];
      var from := if n == 0 then x else climbed[n - 1];
      assert n > 0 ==> ChildOf(s.tasks, climbed[n], climbed[n - 1]);
      assert Climbing(s, x, below, s.tasks[from].parent);
      ClimbsAncestry(s, x, below, s.tasks[from].parent, path);
      assert climbed == below + [climbed[n]];
      var k := |path| - 1 - n;
      assert climbed[n] == path[k];
      assert k > 0 ==> ChildOf(s.tasks, path[k - 1], path[k]);
    }
  }

  lemma AncestryAbove(s: State, x: nat, path: seq<nat>, k: nat)
    requires Ancestry(s, x, path) && k < |path|
    ensures Ancestry(s, path[k], path[..k])
  {
    var above := path[..k];
    if k > 0 { assert ChildOf(s.tasks, path[k - 1], path[k]); }
    forall i | 0 < i < |above| ensures ChildOf(s.tasks, above[i - 1], above[i]) {
      assert ChildOf(s.tasks, path[i - 1], path[i]);
    }
  }

  /** All paths to the root are equally long. */
  lemma {:induction false} OneDepth(s: State, x: nat, p: seq<nat>, q: seq<nat>)
    requires Ancestry(s, x, p) && Ancestry(s, x, q)
    ensures |p| == |q|
    decreases |p|
  {
    if p != [] && q != [] {
      AncestryAbove(s, x, p, |p| - 1);
      AncestryAbove(s, x, q, |q| - 1);
      OneDepth(s, p[|p| - 1], p[..|p| - 1], q[..|q| - 1]);
    }
  }

  /** A climb that meets a task again never reaches a root. */
  lemma NoLoopBelowRoot(s: State, x: nat, climbed: seq<nat>, next: nat, path: seq<nat>)
    requires Climbing(s, x, climbed, Some(next)) && (next == x || next in climbed)
    ensures !Ancestry(s, x, path)
  {
    if Ancestry(s, x, path) {
      ClimbsAncestry(s, x, climbed, Some(next), path);
      var k := |path| - 1 - |climbed|;
      AncestryAbove(s, x, path, k);
      var i := if next == x then -1 else var j :| 0 <= j < |climbed| && climbed[j] == next; j;
      if i == -1 {
        OneDepth(s, x, path, path[..k]);
      } else {
        AncestryAbove(s, x, path, |path| - 1 - i);
        OneDepth(s, next, path[..|path| - 1 - i], path[..k]);
      }
    }
  }

  /** The handles of a task's ancestors from the root down; none when a parent is missing or the links loop. */
  method TaskAncestry(s: State, x: nat) returns (path: Option<seq<nat>>)
    requires x in s.tasks
    ensures path.Some? ==> Ancestry(s, x, path.value)
    ensures path.None? <==> forall p :: !Ancestry(s, x, p)
  {
    var climbed: seq<nat> := [];
    var seen := {x};
    var next := s.tasks[x].parent;
    while next.Some?
      invariant Climbing(s, x, climbed, next)
      invariant seen <= s.tasks.Keys && forall y :: y in seen <==> y == x || y in climbed
      decreases |s.tasks.Keys - seen|
    {
      var parent := next.value;
      if parent in seen {
        forall p ensures !Ancestry(s, x, p) { NoLoopBelowRoot(s, x, climbed, parent, p); }
        return None;
      }
      if parent !in s.tasks {
        forall p ensures !Ancestry(s, x, p) {
          if Ancestry(s, x, p) { ClimbsAncestry(s, x, climbed, next, p); }
        }
        return None;
      }
      SubsetShrinks(s.tasks.Keys, seen, seen + {parent});
      seen := seen + {parent};
      climbed := climbed + [parent];
      next := s.tasks[parent].parent;
    }
    ClimbedAll(s, x, climbed);
    return Some(Backwards(climbed));
  }

  // ---- loading the wait graph ----

  /** The rows of a join, ordered by their first and then their second task. */
  method PairsInOrder(pairs: set<Edge>) returns (rows: seq<Edge>)
    ensures forall e :: e in rows <==> e in pairs
  {
    rows := [];
    var firsts := InOrder(set e | e in pairs :: e.0);
    for i := 0 to |firsts|
      invariant forall e :: e in rows <==> e in pairs && e.0 in firsts[..i]
    {
      TakeNext(firsts, i);
      var seconds := DependenciesOf(pairs, firsts[i]);
      for j := 0 to |seconds|
        invariant forall e :: e in rows <==> e in pairs && (e.0 in firsts[..i] || (e.0 == firsts[i] && e.1 in seconds[..j]))
      {
        TakeNext(seconds, j);
        assert (firsts[i], seconds[j]) in pairs;
        rows := rows + [(firsts[i], seconds[j])];
      }
      TakeAll(seconds);
      forall e | e in pairs && e.0 == firsts[i] ensures e.1 in seconds { assert (firsts[i], e.1) == e; }
    }
    TakeAll(firsts);
    forall e | e in pairs ensures e.0 in firsts { }
  }

  function WithStep(edges: Edges, u: nat, step: WaitStep): (r: Edges)
    ensures forall v, t :: Stored(r, v, t) <==> Stored(edges, v, t) || (v == u && t == step)
  {
    edges[u := (if u in edges then edges[u] else []) + [step]]
  }

  /** Append one wait step per row. */
  method AddRows(edges0: Edges, rows: seq<Edge>, kind: WaitEdge) returns (edges: Edges)
    ensures forall u: nat, step :: Stored(edges, u, step) <==>
              Stored(edges0, u, step) || (step.edge == kind && (u, step.seqno) in rows)
  {
    edges := edges0;
    for i := 0 to |rows|
      invariant forall u: nat, step :: Stored(edges, u, step) <==>
                  Stored(edges0, u, step) || (step.edge == kind && (u, step.seqno) in rows[..i])
    {
      TakeNext(rows, i);
      edges := WithStep(edges, rows[i].0, WaitStep(kind, rows[i].1));
    }
    TakeAll(rows);
  }

  /** Dependencies between existing tasks; between unfinished ones when `unfinished` asks for those. */
  ghost predicate LoadedDep(s: State, unfinished: bool, u: nat, v: nat) {
    && (u, v) in s.deps && u in s.tasks && v in s.tasks
    && (unfinished ==> Live(s.tasks[u].status) && Live(s.tasks[v].status))
  }

  /** What the loaded steps must be: dependencies first, then unfinished children of existing parents. */
  ghost predicate Loaded(s: State, unfinished: bool, edges: Edges) {
    forall u: nat, step :: Stored(edges, u, step) <==>
      match step.edge
      case Dependency => LoadedDep(s, unfinished, u, step.seqno)
      case Child => u in s.tasks && LiveChild(s, u, step.seqno)
  }

  method LoadWith(s: State, unfinished: bool) returns (edges: Edges)
    ensures Loaded(s, unfinished, edges)
  {
    var deps := set e | e in s.deps && e.0 in s.tasks && e.1 in s.tasks
                        && (unfinished ==> Live(s.tasks[e.0].status) && Live(s.tasks[e.1].status));
    var children := set x | x in s.tasks && Live(s.tasks[x].status) && s.tasks[x].parent.Some?
                            && s.tasks[x].parent.value in s.tasks :: (s.tasks[x].parent.value, x);
    var rows := PairsInOrder(deps);
    edges := AddRows(map[], rows, Dependency);
    forall u: nat, v: nat ensures (u, v) in rows <==> LoadedDep(s, unfinished, u, v) { var e: Edge := (u, v); }
    var kids := PairsInOrder(children);
    forall u: nat, v: nat ensures (u, v) in kids <==> u in s.tasks && LiveChild(s, u, v) { var e: Edge := (u, v); }
    edges := AddRows(edges, kids, Child);
  }

  /** Where every link joins existing tasks, the loaded graph is the wait graph. */
  lemma LoadedIsWaits(s: State, edges: Edges)
    requires Loaded(s, false, edges)
    requires forall e :: e in s.deps ==> e.0 in s.tasks && e.1 in s.tasks
    requires forall e :: e in Parents(s) ==> e.1 in s.tasks
    ensures GraphOf(edges) == Waits(s)
  {
    forall e ensures e in GraphOf(edges) <==> e in Waits(s) {
      StoredIsEdge(edges, e.0, e.1);
      if e in Waits(s) {
        if e in s.deps {
          assert Stored(edges, e.0, WaitStep(Dependency, e.1));
        } else {
          assert (e.1, e.0) in Parents(s);
          assert Stored(edges, e.0, WaitStep(Child, e.1));
        }
      }
    }
  }

  /** Every stored wait edge, dependencies and unfinished children. */
  method WaitEdges(s: State) returns (edges: Edges)
    requires LinkedWithin(s)
    ensures GraphOf(edges) == Waits(s)
  {
    edges := LoadWith(s, false);
    LoadedIsWaits(s, edges);
  }

  /** Whether `from` finishes only after `target`. */
  method WaitsFor(s: State, from: nat, target: nat) returns (chain: Option<seq<WaitStep>>)
    requires LinkedWithin(s)
    ensures chain.Some? <==> Reach(Waits(s), from, target)
    ensures chain.Some? ==> Connects(Waits(s), [from] + Seqnos(chain.value), from, target)
    ensures chain.Some? ==> forall w :: Connects(Waits(s), w, from, target) ==> |chain.value| <= |w| - 1
  {
    var edges := WaitEdges(s);
    chain := Chain(edges, from, target);
    if chain.Some? { ChainIsWalk(edges, from, chain.value); }
  }

  // ---- rows by number ----

  /** Unfinished children, by number. */
  method UnfinishedChildren(s: State, x: nat) returns (children: seq<nat>)
    ensures children == [] <==> NoLiveChild(s, x)
    ensures Increasing(children) && forall y :: y in children <==> LiveChild(s, x, y)
  {
    children := InOrder(set y | y in s.tasks && s.tasks[y].parent == Some(x) && Live(s.tasks[y].status));
    forall y ensures y in children <==> LiveChild(s, x, y) { }
    if children != [] { assert LiveChild(s, x, children[0]); }
  }

  method InboundReplacements(s: State, x: nat) returns (sources: seq<nat>)
    ensures sources == [] <==> NoInboundReplacement(s, x)
    ensures Increasing(sources) && forall y :: y in sources <==> y in s.tasks && s.tasks[y].replacement == Some(x)
  {
    sources := InOrder(set y | y in s.tasks && s.tasks[y].replacement == Some(x));
    forall y | y in s.tasks && s.tasks[y].replacement == Some(x) ensures sources != [] { assert y in sources; }
    if sources != [] { assert sources[0] in sources; }
  }

  method CompletedDependents(s: State, x: nat) returns (dependents: seq<nat>)
    ensures dependents == [] <==> NoDoneDependent(s, x)
    ensures Increasing(dependents) && forall y :: y in dependents <==> DoneDependent(s, x, y)
  {
    dependents := InOrder(set y | y in s.tasks && s.tasks[y].status.Done? && (y, x) in s.deps);
    forall y ensures y in dependents <==> DoneDependent(s, x, y) { }
    if dependents != [] { assert DoneDependent(s, x, dependents[0]); }
  }

  // ---- reviews ----

  /** The author of the first creation event of a task. */
  method FindFiler(log: seq<Event>, x: nat) returns (filer: Option<Author>)
    ensures filer == Filer(log, x)
  {
    for i := 0 to |log|
      invariant Filer(log, x) == Filer(log[i..], x)
    {
      assert log[i..][0] == log[i] && log[i..][1..] == log[i + 1..];
      if TaskEventOf(log[i], x) && log[i].payload.Created? { return Some(log[i].author); }
    }
    return None;
  }

  /** The author of its latest completion. */
  method FindCompleter(log: seq<Event>, x: nat) returns (completer: Option<Author>)
    ensures completer == Completer(log, x)
  {
    var i := |log|;
    TakeAll(log);
    while i > 0
      invariant 0 <= i <= |log| && Completer(log, x) == Completer(log[..i], x)
    {
      assert log[..i][i - 1] == log[i - 1] && log[..i][..i - 1] == log[..i - 1];
      i := i - 1;
      if TaskEventOf(log[i], x) && log[i].payload.StatusChanged? && log[i].payload.to.Done? { return Some(log[i].author); }
    }
    return None;
  }

  /** A task's claims, event by event. */
  method ReviewOf(s: State, x: nat) returns (claims: Claims)
    requires x in s.tasks
    ensures claims == TaskReview(s, x)
  {
    var filer := FindFiler(s.log, x);
    claims := InitialClaims(filer);
    for i := 0 to |s.log|
      invariant claims == Fold(s.log[..i], x, filer)
    {
      TakeNext(s.log, i);
      FoldSnoc(s.log[..i], s.log[i], x, filer);
      if TaskEventOf(s.log[i], x) { claims := FoldEvent(claims, filer, s.log[i]); }
    }
    TakeAll(s.log);
    if !s.tasks[x].status.Done? { claims := claims.(result := None); }
  }

  /** Done dependencies and children whose result is disputed. */
  method DisputedResults(s: State, x: nat) returns (disputed: seq<nat>)
    ensures disputed == [] <==> Undisputed(s, x)
    ensures Increasing(disputed) && forall y :: y in disputed <==> DisputedFor(s, x, y)
  {
    var related := InOrder(set y | y in s.tasks && s.tasks[y].status.Done?
                                   && ((x, y) in s.deps || s.tasks[y].parent == Some(x)));
    disputed := [];
    for i := 0 to |related|
      invariant Increasing(disputed)
      invariant forall y :: y in disputed <==> y in related[..i] && DisputedFor(s, x, y)
      invariant forall y :: y in disputed ==> forall k :: i <= k < |related| ==> y < related[k]
    {
      TakeNext(related, i);
      assert related[i] in related;
      var review := ReviewOf(s, related[i]);
      if review.result.Some? && review.result.value.1.state.Disputed? {
        IncreasingNext(disputed, related[i]);
        disputed := disputed + [related[i]];
      }
    }
    TakeAll(related);
    if disputed != [] { assert DisputedFor(s, x, disputed[0]); }
  }

  /** Whether a gate list holds an open external gate. */
  method HasOpenExternal(t: Task) returns (open: bool)
    ensures open == OpenExternal(t)
  {
    for i := 0 to |t.gates|
      invariant forall k :: 0 <= k < i ==> !(t.gates[k].status.Open? && t.gates[k].kind.ExternalGate?)
    {
      if t.gates[i].status.Open? && t.gates[i].kind.ExternalGate? { return true; }
    }
    return false;
  }

  method HasOpenGate(t: Task) returns (open: bool)
    ensures open == OpenGate(t)
  {
    for i := 0 to |t.gates|
      invariant forall k :: 0 <= k < i ==> !t.gates[k].status.Open?
    {
      if t.gates[i].status.Open? { return true; }
    }
    return false;
  }

  /** What keeps a task from being entered: open dependencies, open external gates, disputed results. */
  method EntryBlockers(s: State, x: nat) returns (deps: seq<nat>, external: bool, disputed: seq<nat>)
    requires x in s.tasks
    ensures Increasing(deps) && forall d :: d in deps <==> d in s.tasks && OpenDep(s, x, d)
    ensures external == OpenExternal(s.tasks[x])
    ensures Increasing(disputed) && forall r :: r in disputed <==> DisputedFor(s, x, r)
    ensures deps == [] <==> forall d :: d in s.tasks ==> !OpenDep(s, x, d)
    ensures disputed == [] <==> Undisputed(s, x)
  {
    deps := OpenDeps(s, x);
    if deps != [] { assert deps[0] in deps; }
    external := HasOpenExternal(s.tasks[x]);
    disputed := DisputedResults(s, x);
  }

  /** Open dependencies among stored tasks are all there are. */
  lemma OpenDepsOrSettled(s: State, x: nat)
    requires LinkedWithin(s)
    ensures DepsSettled(s, x) <==> forall d :: d in s.tasks ==> !OpenDep(s, x, d)
  {
    if forall d :: d in s.tasks ==> !OpenDep(s, x, d) {
      forall d: nat | (x, d) in s.deps ensures Settled(s, d) {
        var e: Edge := (x, d);
        assert !OpenDep(s, x, d);
      }
    }
  }
}
