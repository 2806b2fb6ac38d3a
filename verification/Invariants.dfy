/** What every run of the planner keeps, and the row and graph lemmas the operations share. */
module Invariants {
  import opened Basics
  import opened Graphs
  import opened Records
  import opened Waiting

  ghost predicate PlansOk(s: State) {
    && (forall i :: 0 <= i < |s.plans| ==> !Blank(s.plans[i].slug))
    && (forall i, j :: 0 <= i < j < |s.plans| ==> s.plans[i].slug != s.plans[j].slug)
  }

  predicate UniqueGates(gates: seq<Gate>) {
    forall i, j :: 0 <= i < j < |gates| ==> gates[i].name != gates[j].name
  }

  /** A row on its own: a done task holds nothing open and carries the result its kind needs. */
  ghost predicate RowOk(s: State, t: Task) {
    && t.plan < |s.plans|
    && ValidTitle(t.title)
    && UniqueGates(t.gates)
    && (t.status.Done? ==> !OpenGate(t) && (RequiresResult(t.kind) ==> HasResult(t.result)))
    && (t.pickup.Some? ==> t.status.InProgress?)
    && (t.replacement.Some? ==> t.status.Retired?)
    && (Live(t.status) ==> !s.plans[t.plan].status.PlanDone?)
  }

  /** Parents share the child's plan, and a live child's parent is live. */
  ghost predicate ParentOk(s: State, t: Task) {
    t.parent.Some? ==>
      && t.parent.value in s.tasks
      && s.tasks[t.parent.value].plan == t.plan
      && (Live(t.status) ==> Live(s.tasks[t.parent.value].status))
  }

  /** A replacement chain may go on through its next task: live, done, or retired into another. */
  predicate ChainGoesOn(t: Task) {
    !t.status.Rejected? && (t.status.Retired? ==> t.replacement.Some?)
  }

  ghost predicate ReplacementOk(s: State, t: Task) {
    t.replacement.Some? ==>
      && t.replacement.value in s.tasks
      && s.tasks[t.replacement.value].plan == t.plan
      && ChainGoesOn(s.tasks[t.replacement.value])
  }

  ghost predicate Rows(s: State) {
    forall x :: x in s.tasks ==>
      x > 0 && RowOk(s, s.tasks[x]) && ParentOk(s, s.tasks[x]) && ReplacementOk(s, s.tasks[x])
  }

  predicate DoneOrRetired(t: Task) { t.status.Done? || t.status.Retired? }

  /** Dependencies join existing tasks, and a done task's are done or retired. */
  ghost predicate DepsOk(s: State) {
    forall e :: e in s.deps ==>
      e.0 in s.tasks && e.1 in s.tasks && (s.tasks[e.0].status.Done? ==> DoneOrRetired(s.tasks[e.1]))
  }

  ghost predicate Forests(s: State) {
    Acyclic(Waits(s)) && Acyclic(Parents(s)) && Acyclic(Replacements(s))
  }

  ghost predicate Inv(s: State) {
    PlansOk(s) && Rows(s) && DepsOk(s) && Forests(s)
  }

  lemma EmptyInv()
    ensures Inv(EMPTY)
  {
    assert Waits(EMPTY) == {} && Parents(EMPTY) == {} && Replacements(EMPTY) == {};
    RankAcyclic({}, map[]);
  }

  lemma InvLogged(s: State, e: Event)
    requires Inv(s)
    ensures Inv(Logged(s, e))
  {
    SameGraphs(s, Logged(s, e));
  }

  /** The stored graphs depend only on parents, replacements, liveness and dependencies. */
  lemma SameGraphs(s: State, u: State)
    requires s.deps == u.deps && s.tasks.Keys == u.tasks.Keys
    requires forall x :: x in s.tasks ==>
               && s.tasks[x].parent == u.tasks[x].parent && s.tasks[x].replacement == u.tasks[x].replacement
               && (Live(s.tasks[x].status) <==> Live(u.tasks[x].status))
    ensures Waits(s) == Waits(u) && Parents(s) == Parents(u) && Replacements(s) == Replacements(u)
  {
  }

  // ---- one row changes ----

  /** No task that names x as parent or replacement objects to x's new row. */
  ghost predicate Welcomed(s: State, x: nat, t: Task) {
    && (forall y :: y in s.tasks && s.tasks[y].parent == Some(x) ==>
          t.plan == s.tasks[y].plan && (Live(s.tasks[y].status) ==> Live(t.status)))
    && (forall y :: y in s.tasks && s.tasks[y].replacement == Some(x) ==>
          t.plan == s.tasks[y].plan && ChainGoesOn(t))
  }

  lemma PutOther(s: State, x: nat, t: Task, y: nat)
    requires x in s.tasks && y in s.tasks && x != y && Welcomed(s, x, t)
    requires ParentOk(s, s.tasks[y]) && ReplacementOk(s, s.tasks[y])
    ensures ParentOk(Put(s, x, t), s.tasks[y]) && ReplacementOk(Put(s, x, t), s.tasks[y])
  {
  }

  lemma PutSelf(s: State, x: nat, t: Task)
    requires x in s.tasks && t.parent != Some(x) && t.replacement != Some(x)
    requires RowOk(s, t) && ParentOk(s, t) && ReplacementOk(s, t)
    ensures RowOk(Put(s, x, t), t) && ParentOk(Put(s, x, t), t) && ReplacementOk(Put(s, x, t), t)
  {
  }

  lemma PutRows(s: State, x: nat, t: Task)
    requires Rows(s) && x in s.tasks && x > 0 && Welcomed(s, x, t)
    requires t.parent != Some(x) && t.replacement != Some(x)
    requires RowOk(s, t) && ParentOk(s, t) && ReplacementOk(s, t)
    ensures Rows(Put(s, x, t))
  {
    var u := Put(s, x, t);
    PutSelf(s, x, t);
    forall y | y in u.tasks
      ensures y > 0 && RowOk(u, u.tasks[y]) && ParentOk(u, u.tasks[y]) && ReplacementOk(u, u.tasks[y])
    {
      if y != x {
        PutOther(s, x, t, y);
        assert RowOk(s, s.tasks[y]);
      }
    }
  }

  lemma PutDeps(s: State, x: nat, t: Task)
    requires DepsOk(s) && x in s.tasks
    requires t.status.Done? ==> forall d :: (x, d) in s.deps ==> d != x && d in s.tasks && DoneOrRetired(s.tasks[d])
    requires !DoneOrRetired(t) ==> NoDoneDependent(s, x)
    ensures DepsOk(Put(s, x, t))
  {
    forall e | e in s.deps && e.0 != x && e.1 == x && s.tasks[e.0].status.Done? ensures DoneOrRetired(t) {
      assert (e.0, e.1) == e && (DoneDependent(s, x, e.0) || true);
    }
    forall e | e in s.deps && e.0 == x && t.status.Done? ensures e.1 != x && DoneOrRetired(s.tasks[e.1]) {
      assert (x, e.1) == e;
    }
  }

  lemma PutParents(s: State, x: nat, t: Task)
    requires x in s.tasks && t.parent == s.tasks[x].parent
    ensures Parents(Put(s, x, t)) == Parents(s)
  {
  }

  lemma PutReplacements(s: State, x: nat, t: Task)
    requires x in s.tasks
    ensures t.replacement == s.tasks[x].replacement ==> Replacements(Put(s, x, t)) == Replacements(s)
    ensures t.replacement.None? ==> Replacements(Put(s, x, t)) <= Replacements(s)
  {
  }

  /** Closing a task, or changing a live one, only removes waits. */
  lemma PutWaitsShrink(s: State, x: nat, t: Task)
    requires x in s.tasks && t.parent == s.tasks[x].parent
    requires Live(t.status) ==> Live(s.tasks[x].status)
    ensures Waits(Put(s, x, t)) <= Waits(s)
  {
  }

  /** Reviving a closed task adds at most the wait of its parent for it. */
  lemma PutWaitsGrow(s: State, x: nat, t: Task)
    requires x in s.tasks && t.parent == s.tasks[x].parent
    ensures t.parent.Some? ==> Waits(Put(s, x, t)) <= Waits(s) + {(t.parent.value, x)}
    ensures t.parent.None? ==> Waits(Put(s, x, t)) <= Waits(s)
  {
  }

  lemma ForestsShrink(s: State, u: State)
    requires Forests(s)
    requires Waits(u) <= Waits(s) && Parents(u) <= Parents(s) && Replacements(u) <= Replacements(s)
    ensures Forests(u)
  {
    AcyclicSubset(Waits(u), Waits(s));
    AcyclicSubset(Parents(u), Parents(s));
    AcyclicSubset(Replacements(u), Replacements(s));
  }

  lemma NoSelfLoops(s: State, x: nat)
    requires Inv(s) && x in s.tasks
    ensures s.tasks[x].parent != Some(x) && s.tasks[x].replacement != Some(x) && (x, x) !in s.deps
  {
    ReachSelf(Parents(s), x); ReachSelf(Replacements(s), x); ReachSelf(Waits(s), x);
    if s.tasks[x].parent == Some(x) { EdgeOnReachIsCycle(Parents(s), x, x); }
    if s.tasks[x].replacement == Some(x) { EdgeOnReachIsCycle(Replacements(s), x, x); }
    if (x, x) in s.deps { EdgeOnReachIsCycle(Waits(s), x, x); }
  }
}
