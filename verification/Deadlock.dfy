/** When the live tasks can all be finished, and when some of them never can. */
module Deadlock {
  import opened Basics
  import opened Graphs
  import opened Records
  import opened Waiting
  import opened Lifecycle
  import opened Invariants
  import opened Settlement

  /** Nothing in the graph holds x back from completion. */
  ghost predicate Unheld(s: State, x: nat) {
    x in s.tasks && Live(s.tasks[x].status) && DepsSettled(s, x) && NoLiveChild(s, x)
  }

  /** What completion waits for: a live child, or the live task a dependency's replacement chain ends at. */
  ghost predicate Holds(s: State, x: nat, y: nat) {
    && x in s.tasks && y in s.tasks && Live(s.tasks[x].status) && Live(s.tasks[y].status)
    && (s.tasks[y].parent == Some(x) || exists d :: (x, d) in s.deps && LeadsTo(s, d, y))
  }

  ghost function HoldGraph(s: State): (g: Graph)
    ensures forall e :: e in g <==> Holds(s, e.0, e.1)
  {
    set x, y | x in s.tasks && y in s.tasks && Holds(s, x, y) :: (x, y)
  }

  /** A live task depends on a rejected one, which never settles. */
  ghost predicate LiveOnRejected(s: State) {
    exists e :: e in s.deps && e.0 in s.tasks && e.1 in s.tasks
                && Live(s.tasks[e.0].status) && s.tasks[e.1].status.Rejected?
  }

  /** An unsettled dependency of a live task ends at a live task, or is itself rejected. */
  lemma OpenDepHolds(s: State, x: nat, d: nat)
    requires LinksOk(s) && x in s.tasks && Live(s.tasks[x].status) && OpenDep(s, x, d)
    ensures d in s.tasks
    ensures s.tasks[d].status.Rejected? || exists y :: Holds(s, x, y)
  {
    assert (x, d) in s.deps;
    var y := ChainsEnd(s, d);
    EndDecides(s, d, y);
    assert LinkOk(s, s.tasks[d]);
    if Live(s.tasks[y].status) { assert Holds(s, x, y); }
  }

  lemma HeldByNothing(s: State, x: nat)
    requires LinksOk(s) && x in s.tasks && Live(s.tasks[x].status)
    requires !LiveOnRejected(s) && forall y :: !Holds(s, x, y)
    ensures Unheld(s, x)
  {
    forall d | (x, d) in s.deps ensures Settled(s, d) {
      var e: Edge := (x, d);
      assert e in s.deps;
      if !Settled(s, d) {
        OpenDepHolds(s, x, d);
      }
    }
    forall child | child in s.tasks ensures !LiveChild(s, x, child) {
      assert !Holds(s, x, child);
    }
  }

  lemma UnheldHoldsNothing(s: State, x: nat)
    requires Unheld(s, x)
    ensures forall y :: !Holds(s, x, y)
    ensures forall d :: (x, d) in s.deps && d in s.tasks ==> !s.tasks[d].status.Rejected?
  {
    forall y ensures !Holds(s, x, y) {
      if Holds(s, x, y) {
        assert !LiveChild(s, x, y);
        var d :| (x, d) in s.deps && LeadsTo(s, d, y);
        EndDecides(s, d, y);
      }
    }
    forall d | (x, d) in s.deps && d in s.tasks ensures !s.tasks[d].status.Rejected? {
      SettledUnfold(s, d);
    }
  }

  // ---- finishing one task ----

  /** Completion as the graph sees it. */
  function MarkDone(s: State, x: nat): State
    requires x in s.tasks
  {
    Put(s, x, s.tasks[x].(status := Done))
  }

  lemma SameChains(s: State, u: State, d: nat, y: nat)
    requires s.tasks.Keys == u.tasks.Keys
    requires forall a, b :: RetiredInto(s, a, b) <==> RetiredInto(u, a, b)
    ensures LeadsTo(s, d, y) <==> LeadsTo(u, d, y)
  {
    if LeadsTo(s, d, y) {
      var w :| Follows(s, w) && w[0] == d && w[|w| - 1] == y;
      assert Follows(u, w);
    }
    if LeadsTo(u, d, y) {
      var w :| Follows(u, w) && w[0] == d && w[|w| - 1] == y;
      assert Follows(s, w);
    }
  }

  lemma MarkDoneLinks(s: State, x: nat)
    requires LinksOk(s) && x in s.tasks && Live(s.tasks[x].status)
    ensures LinksOk(MarkDone(s, x))
  {
    var u := MarkDone(s, x);
    assert LinkOk(s, s.tasks[x]);
    assert Replacements(u) == Replacements(s);
    forall y | y in u.tasks ensures LinkOk(u, u.tasks[y]) {
      assert LinkOk(s, s.tasks[y]);
    }
  }

  /** Finishing x removes x from the hold graph and changes nothing else. */
  lemma MarkDoneHolds(s: State, x: nat, a: nat, b: nat)
    requires LinksOk(s) && x in s.tasks && Live(s.tasks[x].status)
    ensures Holds(MarkDone(s, x), a, b) <==> Holds(s, a, b) && a != x && b != x
  {
    var u := MarkDone(s, x);
    assert LinkOk(s, s.tasks[x]);
    if d :| (a, d) in s.deps && LeadsTo(s, d, b) { SameChains(s, u, d, b); }
    if d :| (a, d) in u.deps && LeadsTo(u, d, b) { SameChains(s, u, d, b); }
  }

  // ---- draining the authority ----

  /** Completing the tasks in this order finishes every live task, each one unheld when its turn comes. */
  ghost predicate Drains(s: State, order: seq<nat>)
    decreases |order|
  {
    if order == [] then forall x :: x in s.tasks ==> Closed(s.tasks[x].status)
    else Unheld(s, order[0]) && Drains(MarkDone(s, order[0]), order[1..])
  }

  ghost function LiveTasks(s: State): set<nat> {
    set x | x in s.tasks && Live(s.tasks[x].status)
  }

  /** No hold loop, and no live task depends on a rejected one. */
  ghost predicate Drainable(s: State) { Acyclic(HoldGraph(s)) && !LiveOnRejected(s) }

  /** In a drainable state some live task is held by nothing, and finishing it leaves a drainable state. */
  lemma NextToFinish(s: State) returns (x: nat)
    requires LinksOk(s) && Drainable(s) && LiveTasks(s) != {}
    ensures Unheld(s, x) && LinksOk(MarkDone(s, x)) && Drainable(MarkDone(s, x))
  {
    x := SinkExists(HoldGraph(s), LiveTasks(s));
    forall y: nat ensures !Holds(s, x, y) {
      assert Holds(s, x, y) <==> (x, y) in HoldGraph(s);
    }
    HeldByNothing(s, x);
    var u := MarkDone(s, x);
    MarkDoneLinks(s, x);
    forall e | e in HoldGraph(u) ensures e in HoldGraph(s) { MarkDoneHolds(s, x, e.0, e.1); }
    AcyclicSubset(HoldGraph(u), HoldGraph(s));
  }

  lemma {:induction false} DrainOrder(s: State) returns (order: seq<nat>)
    requires LinksOk(s) && Drainable(s)
    ensures Drains(s, order)
    decreases LiveTasks(s)
  {
    if LiveTasks(s) == {} {
      order := [];
      forall x | x in s.tasks ensures Closed(s.tasks[x].status) {
        assert x !in LiveTasks(s);
      }
    } else {
      var x := NextToFinish(s);
      assert LiveTasks(MarkDone(s, x)) == LiveTasks(s) - {x};
      var rest := DrainOrder(MarkDone(s, x));
      order := [x] + rest;
    }
  }

  /** A task held by nothing closes no hold loop. */
  lemma DrainableWithout(s: State, x: nat)
    requires LinksOk(s) && Unheld(s, x) && Drainable(MarkDone(s, x))
    ensures Drainable(s)
  {
    var u := MarkDone(s, x);
    UnheldHoldsNothing(s, x);
    forall e | e in HoldGraph(s) ensures e.0 != x && (e in HoldGraph(u) || e.1 == x) {
      MarkDoneHolds(s, x, e.0, e.1);
    }
    IntoSinkAcyclic(HoldGraph(u), HoldGraph(s), x);
    forall e | e in s.deps && e.0 in s.tasks && e.1 in s.tasks && Live(s.tasks[e.0].status)
      ensures !s.tasks[e.1].status.Rejected?
    {
      if e.0 == x { assert (x, e.1) in s.deps; } else { assert e in u.deps; }
    }
  }

  lemma {:induction false} DrainedWasAcyclic(s: State, order: seq<nat>)
    requires LinksOk(s) && Drains(s, order)
    ensures Drainable(s)
    decreases |order|
  {
    if order == [] {
      assert HoldGraph(s) == {};
      RankAcyclic({}, map[]);
    } else {
      MarkDoneLinks(s, order[0]);
      DrainedWasAcyclic(MarkDone(s, order[0]), order[1..]);
      DrainableWithout(s, order[0]);
    }
  }

  /** All live tasks can be finished in some order exactly when no hold loop exists
      and no live task depends on a rejected one. */
  lemma DrainExact(s: State)
    requires Inv(s)
    ensures (exists order :: Drains(s, order)) <==> Drainable(s)
  {
    InvLinks(s);
    if Drainable(s) {
      var order := DrainOrder(s);
      assert Drains(s, order);
    }
    if exists order :: Drains(s, order) {
      var order :| Drains(s, order);
      DrainedWasAcyclic(s, order);
    }
  }

  /** No live task depends on a rejected task or on one retired into a replacement. */
  ghost predicate PlainDependencies(s: State) {
    forall e :: e in s.deps && e.0 in s.tasks && e.1 in s.tasks && Live(s.tasks[e.0].status) ==>
      !s.tasks[e.1].status.Rejected? && s.tasks[e.1].replacement.None?
  }

  /** Deadlock freedom: with plain dependencies every run's live tasks can all be finished,
      so while any is live some live task has no open dependency and no unfinished child. */
  lemma DeadlockFree(s: State)
    requires Inv(s) && PlainDependencies(s)
    ensures exists order :: Drains(s, order)
    ensures LiveTasks(s) != {} ==> exists x :: Unheld(s, x)
  {
    forall e | e in HoldGraph(s) ensures e in Waits(s) {
      assert (e.0, e.1) == e;
      if s.tasks[e.1].parent != Some(e.0) {
        var d :| (e.0, d) in s.deps && LeadsTo(s, d, e.1);
        LeadsToUnfold(s, d, e.1);
        assert d == e.1;
      }
    }
    AcyclicSubset(HoldGraph(s), Waits(s));
    DrainExact(s);
    var order :| Drains(s, order);
    if LiveTasks(s) != {} {
      var x :| x in LiveTasks(s);
      assert order != [];
      assert Unheld(s, order[0]);
    }
  }
}
