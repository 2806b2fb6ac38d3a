/** Restoring a dump inside one transaction: everything is checked, and nothing is kept when a check fails. */
module Imports {
  import opened Basics
  import opened Graphs
  import opened Records
  import opened Review
  import opened Waiting
  import opened Invariants
  import opened LoopReport
  import opened PlanMoves
  import opened Queries
  import opened Dumps
  import opened Exports
  import opened ImportRules

  // ---- plans ----

  lemma WithPlansNext(stored: seq<Plan>, plans: seq<Plan>, i: nat)
    requires i < |plans|
    ensures WithPlans(stored, plans[..i + 1]) ==
            if ListsSlug(stored, plans[i].slug) then WithPlans(stored, plans[..i])
            else WithPlans(stored, plans[..i]) + [plans[i]]
  {
    assert plans[..i + 1][..i] == plans[..i];
  }

  /** Plans stored so far: the existing ones first, then new slugs from the dump. */
  lemma {:induction false} WithPlansLists(stored: seq<Plan>, plans: seq<Plan>)
    ensures stored <= WithPlans(stored, plans)
    ensures forall slug :: ListsSlug(WithPlans(stored, plans), slug) <==> ListsSlug(stored, slug) || ListsSlug(plans, slug)
    decreases |plans|
  {
    if plans != [] {
      var rest, p := plans[..|plans| - 1], plans[|plans| - 1];
      WithPlansLists(stored, rest);
      forall slug ensures ListsSlug(plans, slug) <==> ListsSlug(rest, slug) || p.slug == slug { SlugSnoc(rest, p, slug); assert rest + [p] == plans; }
      forall slug ensures ListsSlug(WithPlans(stored, rest) + [p], slug) <==> ListsSlug(WithPlans(stored, rest), slug) || p.slug == slug {
        SlugSnoc(WithPlans(stored, rest), p, slug);
      }
    }
  }

  lemma SlugSnoc(plans: seq<Plan>, p: Plan, slug: string)
    ensures ListsSlug(plans + [p], slug) <==> ListsSlug(plans, slug) || p.slug == slug
  {
    assert (plans + [p])[|plans|] == p;
    if ListsSlug(plans, slug) {
      var k :| 0 <= k < |plans| && plans[k].slug == slug;
      assert (plans + [p])[k].slug == slug;
    }
  }

  lemma {:induction false} FirstInPrefix(stored: seq<Plan>, longer: seq<Plan>, slug: string)
    requires stored <= longer && ListsSlug(stored, slug)
    ensures FirstPlan(longer, slug) == FirstPlan(stored, slug) < |stored|
  {
    var a, b := FirstPlan(stored, slug), FirstPlan(longer, slug);
    assert longer[a] == stored[a];
  }

  /** Insert the plans that are new and compare the others with what is stored. */
  method ImportPlans(stored: seq<Plan>, plans: seq<Plan>) returns (ok: bool, all: seq<Plan>)
    ensures ok == PlansFit(stored, plans)
    ensures ok ==> all == WithPlans(stored, plans)
  {
    all := stored;
    if !DistinctSlugs(plans) { return false, all; }
    for i := 0 to |plans|
      invariant all == WithPlans(stored, plans[..i])
      invariant forall k :: 0 <= k < i ==> PlanFits(stored, plans[k])
    {
      var p := plans[i];
      LookedUp(stored, plans, i);
      var at := FirstPlan(all, p.slug);
      if Blank(p.slug) || Blank(p.title) || (at < |all| && all[at] != p) {
        assert p in plans && !PlanFits(stored, p);
        return false, all;
      }
      if at == |all| { all := all + [p]; }
    }
    TakeAll(plans);
    return true, all;
  }

  /** Looking a slug up among the plans stored so far finds exactly the plan stored before the import. */
  lemma LookedUp(stored: seq<Plan>, plans: seq<Plan>, i: nat)
    requires DistinctSlugs(plans) && i < |plans|
    ensures var all, slug := WithPlans(stored, plans[..i]), plans[i].slug;
            var at, was := FirstPlan(all, slug), FirstPlan(stored, slug);
            && (at < |all| <==> was < |stored|)
            && (at < |all| ==> was < |stored| && all[at] == stored[was])
            && (PlanFits(stored, plans[i]) <==>
                !Blank(slug) && !Blank(plans[i].title) && (at < |all| ==> all[at] == plans[i]))
            && WithPlans(stored, plans[..i + 1]) == if at == |all| then all + [plans[i]] else all
  {
    var all, slug := WithPlans(stored, plans[..i]), plans[i].slug;
    WithPlansNext(stored, plans, i);
    WithPlansLists(stored, plans[..i]);
    assert !ListsSlug(plans[..i], slug);
    if ListsSlug(stored, slug) { FirstInPrefix(stored, all, slug); }
  }

  // ---- numbers ----

  method CheckExplicit(stored: map<nat, Task>, tasks: seq<TaskDump>) returns (ok: bool, used: set<nat>)
    ensures ok == ExplicitNumbersFit(stored, tasks)
    ensures ok ==> used == NumbersOf(tasks)
  {
    used := {};
    for i := 0 to |tasks|
      invariant forall x :: x in used <==> Dumped(tasks[..i], x)
      invariant forall k :: 0 <= k < i && tasks[k].seqno.Some? ==> tasks[k].seqno.value > 0
      invariant forall k, j :: 0 <= k < j < i && tasks[k].seqno.Some? ==> tasks[j].seqno != tasks[k].seqno
    {
      DumpedNext(tasks, i);
      if tasks[i].seqno.Some? {
        var x := tasks[i].seqno.value;
        if x == 0 { return false, used; }
        if x in used {
          RepeatedNumber(tasks, i);
          return false, used;
        }
        used := used + {x};
      }
    }
    TakeAll(tasks);
    ok := used !! stored.Keys;
    if ok {
      forall k | 0 <= k < |tasks| && tasks[k].seqno.Some? ensures tasks[k].seqno.value !in stored {
        assert Dumped(tasks, tasks[k].seqno.value);
      }
    } else {
      var x :| x in used && x in stored;
      assert Dumped(tasks, x);
    }
  }

  lemma DumpedNext(tasks: seq<TaskDump>, i: nat)
    requires i < |tasks|
    ensures forall x: nat :: Dumped(tasks[..i + 1], x) <==> Dumped(tasks[..i], x) || tasks[i].seqno == Some(x)
    ensures forall k :: 0 <= k < i && tasks[k].seqno.Some? ==> Dumped(tasks[..i], tasks[k].seqno.value)
  {
    var before, after := tasks[..i], tasks[..i + 1];
    assert after[i] == tasks[i];
    forall x: nat | Dumped(before, x) ensures Dumped(after, x) {
      var k :| 0 <= k < i && before[k].seqno == Some(x);
      assert after[k].seqno == Some(x);
    }
    forall k | 0 <= k < i && tasks[k].seqno.Some? ensures Dumped(before, tasks[k].seqno.value) {
      assert before[k] == tasks[k];
    }
  }

  lemma RepeatedNumber(tasks: seq<TaskDump>, i: nat)
    requires i < |tasks| && tasks[i].seqno.Some? && Dumped(tasks[..i], tasks[i].seqno.value)
    ensures exists k :: 0 <= k < i && tasks[k].seqno.Some? && tasks[i].seqno == tasks[k].seqno
  {
    var k :| 0 <= k < |tasks[..i]| && tasks[..i][k].seqno == tasks[i].seqno;
    assert tasks[k].seqno == tasks[i].seqno;
  }

  /** The largest number in use, 0 when there is none. */
  method Largest(numbers: set<nat>) returns (largest: nat)
    ensures largest == MaxOf(numbers)
  {
    var order := InOrder(numbers);
    if order == [] {
      forall x ensures x !in numbers { assert x in order <==> x in numbers; }
      return 0;
    }
    largest := order[|order| - 1];
    assert largest in order && MaxOf(numbers) in order;
  }

  /** The first number from `from` on that is not in use. */
  method NextUnused(used: set<nat>, from: nat) returns (next: nat)
    ensures next >= from && next !in used && forall k :: from <= k < next ==> k in used
  {
    next := from;
    while next in used
      invariant next >= from && forall k :: from <= k < next ==> k in used
      decreases MaxOf(used) + 1 - next
    {
      next := next + 1;
    }
  }

  /** The first i numbers are assigned and the rest count up from `next`. */
  ghost predicate Assigning(tasks: seq<TaskDump>, first: nat, i: nat, numbers: seq<nat>, next: nat)
    requires i <= |tasks|
  {
    |numbers| == i && Assign(tasks, first) == numbers + Assign(tasks[i..], next)
  }

  lemma AssignStep(tasks: seq<TaskDump>, first: nat, i: nat, numbers: seq<nat>, next: nat)
    requires i < |tasks| && Assigning(tasks, first, i, numbers, next)
    ensures if tasks[i].seqno.Some? then Assigning(tasks, first, i + 1, numbers + [tasks[i].seqno.value], next)
            else Assigning(tasks, first, i + 1, numbers + [next], next + 1)
  {
    assert tasks[i..][0] == tasks[i] && tasks[i..][1..] == tasks[i + 1..];
  }

  lemma AssignEnds(tasks: seq<TaskDump>, first: nat, numbers: seq<nat>, next: nat)
    ensures Assigning(tasks, first, 0, [], first)
    ensures Assigning(tasks, first, |tasks|, numbers, next) ==> numbers == Assign(tasks, first)
  {
    assert tasks[0..] == tasks && tasks[|tasks|..] == [];
  }

  /** An explicit number, or the first one that is free. */
  method AssignOne(task: TaskDump, used0: set<nat>, next0: nat) returns (n: nat, used: set<nat>, next: nat)
    requires forall x :: x in used0 ==> x < next0
    ensures n == if task.seqno.Some? then task.seqno.value else next0
    ensures next == if task.seqno.Some? then next0 else next0 + 1
    ensures forall x :: x in used ==> x < next
  {
    used, next := used0, next0;
    if task.seqno.Some? {
      n := task.seqno.value;
    } else {
      n := NextUnused(used, next);
      assert n > next ==> next in used;
      used := used + {n};
      next := n + 1;
    }
  }

  /** Used numbers stay below the next free one. */
  method AssignNumbers(tasks: seq<TaskDump>, used0: set<nat>, first: nat) returns (numbers: seq<nat>)
    requires forall x :: x in used0 ==> x < first
    ensures numbers == Assign(tasks, first)
  {
    numbers := [];
    var used, next := used0, first;
    AssignEnds(tasks, first, numbers, next);
    for i := 0 to |tasks|
      invariant forall x :: x in used ==> x < next
      invariant Assigning(tasks, first, i, numbers, next)
    {
      AssignStep(tasks, first, i, numbers, next);
      var n;
      n, used, next := AssignOne(tasks[i], used, next);
      numbers := numbers + [n];
    }
    AssignEnds(tasks, first, numbers, next);
  }

  // ---- rows ----

  lemma InsertRow(rows: map<nat, Task>, stored: map<nat, Task>, plans: seq<Plan>, tasks: seq<TaskDump>,
                  numbers: seq<nat>, n: nat)
    requires |numbers| == |tasks| && n < |tasks| && Distinct(numbers) && numbers[n] !in stored
    requires Inserted(rows, stored, plans, tasks, numbers, n, 0)
    ensures Inserted(rows[numbers[n] := RowAt(plans, tasks[n], false)], stored, plans, tasks, numbers, n + 1, 0)
  {
    TakeNext(numbers, n);
    assert forall k :: 0 <= k < n ==> numbers[k] != numbers[n];
  }

  lemma LinkRow(rows: map<nat, Task>, stored: map<nat, Task>, plans: seq<Plan>, tasks: seq<TaskDump>,
                numbers: seq<nat>, k: nat)
    requires |numbers| == |tasks| && k < |tasks| && Distinct(numbers) && numbers[k] !in stored
    requires Inserted(rows, stored, plans, tasks, numbers, |tasks|, k)
    ensures numbers[k] in rows && rows[numbers[k]] == RowAt(plans, tasks[k], false)
    ensures Inserted(rows[numbers[k] := RowAt(plans, tasks[k], true)], stored, plans, tasks, numbers, |tasks|, k + 1)
  {
    TakeAll(numbers);
    assert numbers[k] in numbers;
    assert forall j :: 0 <= j < |numbers| && j != k ==> numbers[j] != numbers[k] by {
      forall j | 0 <= j < |numbers| && j != k ensures numbers[j] != numbers[k] {
        if j < k { assert numbers[j] != numbers[k]; } else { assert numbers[k] != numbers[j]; }
      }
    }
  }

  /** First pass: create tasks with their gates, links still unset. */
  method InsertRows(syntax: Syntax, stored: map<nat, Task>, plans: seq<Plan>, tasks: seq<TaskDump>, numbers: seq<nat>)
    returns (ok: bool, rows: map<nat, Task>)
    requires |numbers| == |tasks| && Distinct(numbers) && forall k :: 0 <= k < |numbers| ==> numbers[k] !in stored
    ensures ok == forall td :: td in tasks ==> RowFits(syntax, plans, td)
    ensures ok ==> Inserted(rows, stored, plans, tasks, numbers, |tasks|, 0)
  {
    rows := stored;
    for i := 0 to |tasks|
      invariant forall k :: 0 <= k < i ==> RowFits(syntax, plans, tasks[k])
      invariant Inserted(rows, stored, plans, tasks, numbers, i, 0)
    {
      if !RowFits(syntax, plans, tasks[i]) { return false, rows; }
      InsertRow(rows, stored, plans, tasks, numbers, i);
      rows := rows[numbers[i] := RowAt(plans, tasks[i], false)];
    }
    return true, rows;
  }

  // ---- links ----

  /** Reachability from imported tasks stays on imported edges: stored edges start at stored tasks. */
  lemma ReachOnNewEdges(old_deps: Graph, added: Graph, stored: set<nat>, from: nat, target: nat)
    requires forall e :: e in old_deps ==> e.0 in stored
    requires from !in stored && forall e :: e in added ==> e.1 !in stored
    ensures Reach(old_deps + added, from, target) <==> Reach(added, from, target)
  {
    if Reach(old_deps + added, from, target) {
      var w :| Connects(old_deps + added, w, from, target);
      NewWalk(old_deps, added, stored, w);
      assert Connects(added, w, from, target);
    }
    if Reach(added, from, target) { ReachMono(added, old_deps + added, from, target); }
  }

  lemma {:induction false} NewWalk(old_deps: Graph, added: Graph, stored: set<nat>, w: seq<nat>)
    requires forall e :: e in old_deps ==> e.0 in stored
    requires forall e :: e in added ==> e.1 !in stored
    requires Walk(old_deps + added, w) && w[0] !in stored
    ensures Walk(added, w)
    decreases |w|
  {
    if |w| > 1 {
      assert (w[0], w[1]) in old_deps + added;
      var v := w[1..];
      assert Walk(old_deps + added, v);
      NewWalk(old_deps, added, stored, v);
      forall i | 0 < i < |w| ensures (w[i - 1], w[i]) in added {
        if i > 1 { assert (v[i - 2], v[i - 1]) in added; }
      }
    }
  }

  /** One task's dependencies, each checked against what is stored so far. */
  method AddEdges(old_deps: set<Edge>, ghost added0: Graph, ghost stored: set<nat>, deps0: set<Edge>, x: nat, on: seq<nat>,
                  numbers: seq<nat>)
    returns (ok: bool, deps: set<Edge>)
    requires deps0 == old_deps + added0 && Acyclic(added0)
    requires forall e :: e in old_deps ==> e.0 in stored
    requires forall e :: e in added0 ==> e.1 !in stored && e.0 != x
    requires x !in stored && forall y :: y in numbers ==> y !in stored
    ensures ok <==> (forall d :: d in on ==> d in numbers) && Distinct(on) && Acyclic(added0 + EdgesOf(x, on))
    ensures ok ==> deps == old_deps + (added0 + EdgesOf(x, on))
  {
    deps := deps0;
    ghost var added := added0;
    assert EdgesOf(x, on[..0]) == {};
    for i := 0 to |on|
      invariant forall k :: 0 <= k < i ==> on[k] in numbers
      invariant Distinct(on[..i])
      invariant added == added0 + EdgesOf(x, on[..i]) && deps == old_deps + added && Acyclic(added)
    {
      var d := on[i];
      NextEdge(x, on, i);
      if d !in numbers { return false, deps; }
      if d == x {
        SelfEdgeCycle(added0, x, on, i);
        return false, deps;
      }
      if (x, d) in deps {
        RepeatedEdge(old_deps, added0, stored, x, on, i);
        return false, deps;
      }
      assert forall e :: e in added ==> e.1 !in stored by {
        forall e | e in added ensures e.1 !in stored {
          if e !in added0 { assert e.1 in on[..i]; var k :| 0 <= k < i && on[k] == e.1; }
        }
      }
      ReachOnNewEdges(old_deps, added, stored, d, x);
      AddEdgeAcyclic(added, x, d);
      var loops := DependsOn(deps, d, x);
      if loops {
        LargerCycle(added0, x, on, i);
        return false, deps;
      }
      added := added + {(x, d)};
      deps := deps + {(x, d)};
    }
    TakeAll(on);
    return true, deps;
  }

  lemma NextEdge(x: nat, on: seq<nat>, i: nat)
    requires i < |on|
    ensures EdgesOf(x, on[..i + 1]) == EdgesOf(x, on[..i]) + {(x, on[i])}
    ensures EdgesOf(x, on[..i + 1]) <= EdgesOf(x, on)
    ensures Distinct(on[..i]) && on[i] !in on[..i] ==> Distinct(on[..i + 1])
    ensures on[i] in on[..i] ==> !Distinct(on)
  {
    TakeNext(on, i);
  }

  lemma SelfEdgeCycle(added0: Graph, x: nat, on: seq<nat>, i: nat)
    requires i < |on| && on[i] == x
    ensures !Acyclic(added0 + EdgesOf(x, on))
  {
    var g := added0 + EdgesOf(x, on);
    assert (x, x) in g;
    ReachSelf(g, x);
    EdgeOnReachIsCycle(g, x, x);
  }

  lemma RepeatedEdge(old_deps: Graph, added0: Graph, stored: set<nat>, x: nat, on: seq<nat>, i: nat)
    requires i < |on| && x !in stored && (x, on[i]) in old_deps + (added0 + EdgesOf(x, on[..i]))
    requires forall e :: e in old_deps ==> e.0 in stored
    requires forall e :: e in added0 ==> e.0 != x
    ensures !Distinct(on)
  {
    var e: Edge := (x, on[i]);
    assert e in EdgesOf(x, on[..i]);
    NextEdge(x, on, i);
  }

  lemma LargerCycle(added0: Graph, x: nat, on: seq<nat>, i: nat)
    requires i < |on| && !Acyclic(added0 + EdgesOf(x, on[..i]) + {(x, on[i])})
    ensures !Acyclic(added0 + EdgesOf(x, on))
  {
    NextEdge(x, on, i);
    var part, whole := added0 + EdgesOf(x, on[..i]) + {(x, on[i])}, added0 + EdgesOf(x, on);
    if Acyclic(whole) { AcyclicSubset(part, whole); }
  }

  lemma DumpEdgesNext(tasks: seq<TaskDump>, numbers: seq<nat>, k: nat)
    requires |numbers| == |tasks| && k < |tasks|
    ensures DumpEdges(tasks[..k + 1], numbers[..k + 1]) ==
            DumpEdges(tasks[..k], numbers[..k]) + EdgesOf(numbers[k], tasks[k].deps)
  {
    assert tasks[..k + 1][..k] == tasks[..k] && numbers[..k + 1][..k] == numbers[..k];
  }

  lemma {:induction false} DumpEdgesWithin(tasks: seq<TaskDump>, numbers: seq<nat>, k: nat, n: nat)
    requires |numbers| == |tasks| && k <= n <= |tasks|
    ensures DumpEdges(tasks[..k], numbers[..k]) <= DumpEdges(tasks[..n], numbers[..n])
    decreases n
  {
    if k < n {
      DumpEdgesWithin(tasks, numbers, k, n - 1);
      DumpEdgesNext(tasks, numbers, n - 1);
    }
  }

  /** Imported edges start at the rows linked so far and end at imported tasks. */
  lemma {:induction false} DumpEdgeEnds(tasks: seq<TaskDump>, numbers: seq<nat>, k: nat)
    requires |numbers| == |tasks| && k <= |tasks|
    requires forall j :: 0 <= j < k ==> LinksFit(tasks, numbers, j)
    ensures forall e :: e in DumpEdges(tasks[..k], numbers[..k]) ==> e.0 in numbers[..k] && e.1 in numbers
    decreases k
  {
    if k > 0 {
      DumpEdgeEnds(tasks, numbers, k - 1);
      DumpEdgesNext(tasks, numbers, k - 1);
      TakeNext(numbers, k - 1);
      assert LinksFit(tasks, numbers, k - 1);
    }
  }

  /** A cycle among the edges restored so far is a cycle among all of them. */
  lemma EdgesCut(tasks: seq<TaskDump>, numbers: seq<nat>, k: nat)
    requires |numbers| == |tasks| && k < |tasks|
    ensures Acyclic(DumpEdges(tasks, numbers)) ==> Acyclic(DumpEdges(tasks[..k + 1], numbers[..k + 1]))
  {
    DumpEdgesWithin(tasks, numbers, k + 1, |tasks|);
    TakeAll(tasks);
    TakeAll(numbers);
    if Acyclic(DumpEdges(tasks, numbers)) {
      AcyclicSubset(DumpEdges(tasks[..k + 1], numbers[..k + 1]), DumpEdges(tasks, numbers));
    }
  }

  /** Parent, replacement and dependencies of one row. */
  method LinkOne(t: State, tasks: seq<TaskDump>, numbers: seq<nat>, k: nat, deps0: set<Edge>)
    returns (ok: bool, deps: set<Edge>)
    requires |numbers| == |tasks| && k < |tasks| && Distinct(numbers) && LinkedWithin(t)
    requires forall x :: x in numbers ==> x !in t.tasks
    requires forall j :: 0 <= j < k ==> LinksFit(tasks, numbers, j)
    requires deps0 == t.deps + DumpEdges(tasks[..k], numbers[..k]) && Acyclic(DumpEdges(tasks[..k], numbers[..k]))
    ensures ok <==> LinksFit(tasks, numbers, k) && Acyclic(DumpEdges(tasks[..k + 1], numbers[..k + 1]))
    ensures ok ==> deps == t.deps + DumpEdges(tasks[..k + 1], numbers[..k + 1])
  {
    deps := deps0;
    var td := tasks[k];
    if td.parent.Some? && !SamePlan(tasks, numbers, td.parent.value, td.plan) { return false, deps; }
    if td.replacement.Some? {
      if !td.status.Retired? || td.replacement.value == numbers[k]
         || !SamePlan(tasks, numbers, td.replacement.value, td.plan)
      {
        return false, deps;
      }
    }
    ghost var added := DumpEdges(tasks[..k], numbers[..k]);
    DumpEdgeEnds(tasks, numbers, k);
    DumpEdgesNext(tasks, numbers, k);
    assert numbers[k] in numbers && numbers[k] !in numbers[..k];
    ok, deps := AddEdges(t.deps, added, t.tasks.Keys, deps0, numbers[k], td.deps, numbers);
  }

  /** The first k rows have their links, and their edges are stored. */
  ghost predicate LinkedSoFar(t: State, plans: seq<Plan>, tasks: seq<TaskDump>, numbers: seq<nat>, k: nat,
                              rows: map<nat, Task>, deps: Graph)
    requires |numbers| == |tasks| && k <= |tasks|
  {
    && (forall j :: 0 <= j < k ==> LinksFit(tasks, numbers, j))
    && deps == t.deps + DumpEdges(tasks[..k], numbers[..k]) && Acyclic(DumpEdges(tasks[..k], numbers[..k]))
    && Inserted(rows, t.tasks, plans, tasks, numbers, |tasks|, k)
  }

  /** Second pass: parents, replacements and dependencies by the assigned numbers. */
  method LinkRows(t: State, plans: seq<Plan>, tasks: seq<TaskDump>, numbers: seq<nat>, rows0: map<nat, Task>)
    returns (ok: bool, rows: map<nat, Task>, deps: set<Edge>)
    requires |numbers| == |tasks| && Distinct(numbers) && LinkedWithin(t)
    requires forall x :: x in numbers ==> x !in t.tasks
    requires Inserted(rows0, t.tasks, plans, tasks, numbers, |tasks|, 0)
    ensures ok <==> (forall k :: 0 <= k < |tasks| ==> LinksFit(tasks, numbers, k)) && Acyclic(DumpEdges(tasks, numbers))
    ensures ok ==> rows == RowsWith(t.tasks, plans, tasks, numbers) && deps == t.deps + DumpEdges(tasks, numbers)
  {
    rows, deps := rows0, t.deps;
    NoEdgesYet(tasks, numbers);
    for k := 0 to |tasks|
      invariant LinkedSoFar(t, plans, tasks, numbers, k, rows, deps)
    {
      ok, deps := LinkOne(t, tasks, numbers, k, deps);
      EdgesCut(tasks, numbers, k);
      if !ok { return false, rows, deps; }
      LinkRow(rows, t.tasks, plans, tasks, numbers, k);
      rows := rows[numbers[k] := rows[numbers[k]].(parent := tasks[k].parent, replacement := tasks[k].replacement)];
    }
    ok := true;
    AllLinked(t, plans, tasks, numbers, rows, deps);
  }

  lemma AllLinked(t: State, plans: seq<Plan>, tasks: seq<TaskDump>, numbers: seq<nat>, rows: map<nat, Task>, deps: Graph)
    requires |numbers| == |tasks| && Distinct(numbers) && LinkedSoFar(t, plans, tasks, numbers, |tasks|, rows, deps)
    ensures forall k :: 0 <= k < |tasks| ==> LinksFit(tasks, numbers, k)
    ensures Acyclic(DumpEdges(tasks, numbers)) && deps == t.deps + DumpEdges(tasks, numbers)
    ensures rows == RowsWith(t.tasks, plans, tasks, numbers)
  {
    TakeAll(tasks);
    TakeAll(numbers);
    InsertedIsRowsWith(rows, t.tasks, plans, tasks, numbers);
  }

  lemma NoEdgesYet(tasks: seq<TaskDump>, numbers: seq<nat>)
    requires |numbers| == |tasks|
    ensures DumpEdges(tasks[..0], numbers[..0]) == {} && Acyclic(DumpEdges(tasks[..0], numbers[..0]))
  {
    RankAcyclic({}, map[]);
  }

  // ---- the whole authority ----

  lemma IncreasingIsDistinct(order: seq<nat>)
    requires Increasing(order)
    ensures Distinct(order)
  {
  }

  /** No cycle among stored links, by the depth-first search over all tasks. */
  method NoCycle(s: State, links: set<Edge>) returns (ok: bool)
    requires forall e :: e in links ==> e.0 in s.tasks && e.1 in s.tasks
    ensures ok == Acyclic(links)
  {
    var nodes := InOrder(s.tasks.Keys);
    var rows := PairsInOrder(links);
    IncreasingIsDistinct(nodes);
    assert Known(rows, nodes) == links;
    var cycle := FindCycle(nodes, rows);
    return cycle.None?;
  }

  method CheckChains(s: State) returns (ok: bool)
    ensures ok == ChainsGoOn(s)
  {
    var tasks := InOrder(s.tasks.Keys);
    for i := 0 to |tasks|
      invariant forall k :: 0 <= k < i ==> !LeadsNowhere(s, tasks[k])
    {
      if LeadsNowhere(s, tasks[i]) { return false; }
    }
    forall x | x in s.tasks ensures !LeadsNowhere(s, x) { assert x in tasks; }
    return true;
  }

  predicate LeadsNowhere(s: State, x: nat) {
    x in s.tasks && s.tasks[x].replacement.Some? && s.tasks[x].replacement.value in s.tasks
    && !ChainGoesOn(s.tasks[s.tasks[x].replacement.value])
  }

  method CheckDone(s: State) returns (ok: bool)
    ensures ok <==> forall x :: x in s.tasks ==> DoneFreely(s, x)
  {
    var tasks := InOrder(s.tasks.Keys);
    for i := 0 to |tasks|
      invariant forall k :: 0 <= k < i ==> DoneFreely(s, tasks[k])
    {
      var x := tasks[i];
      assert x in tasks;
      if s.tasks[x].status.Done? {
        var deps, external, disputed := EntryBlockers(s, x);
        var children := UnfinishedChildren(s, x);
        if deps != [] || external || disputed != [] || children != [] { return false; }
      }
    }
    forall x | x in s.tasks ensures DoneFreely(s, x) { assert x in tasks; }
    return true;
  }

  method CheckWhole(u: State) returns (ok: bool)
    requires LinkedWithin(u)
    ensures ok == WholeFits(u)
  {
    var parents := set x | x in u.tasks && u.tasks[x].parent.Some? :: (x, u.tasks[x].parent.value);
    assert parents == Parents(u);
    var forest := NoCycle(u, parents);
    if !forest { return false; }
    var replacements := set x | x in u.tasks && u.tasks[x].replacement.Some? :: (x, u.tasks[x].replacement.value);
    assert replacements == Replacements(u);
    var straight := NoCycle(u, replacements);
    if !straight { return false; }
    var goOn := CheckChains(u);
    if !goOn { return false; }
    ok := CheckDone(u);
  }

  /** After both passes every link joins stored tasks again. */
  lemma RestoredIsLinked(t: State, d: Dump)
    requires LinkedWithin(t) && ExplicitNumbersFit(t.tasks, d.tasks)
    requires forall k :: 0 <= k < |d.tasks| ==> LinksFit(d.tasks, Numbers(t, d), k)
    ensures LinkedWithin(Restored(t, d))
  {
    var u, numbers := Restored(t, d), Numbers(t, d);
    NumbersFit(t, d);
    DumpEdgeEnds(d.tasks, numbers, |d.tasks|);
    TakeAll(d.tasks);
    TakeAll(numbers);
    forall e | e in Parents(u) || e in Replacements(u) ensures e.1 in u.tasks {
      if e.0 in t.tasks {
        assert e in Parents(t) || e in Replacements(t);
      } else {
        assert LinksFit(d.tasks, numbers, IndexOf(numbers, e.0));
      }
    }
  }

  // ---- events ----

  method RestoreEvents(syntax: Syntax, d: Dump, numbers: seq<nat>) returns (ok: bool, restored: seq<Event>)
    ensures ok <==> forall e :: e in d.events ==> EventFits(syntax, d, numbers, e)
    ensures ok ==> restored == TrimmedEvents(d.events)
  {
    restored := [];
    for i := 0 to |d.events|
      invariant forall k :: 0 <= k < i ==> EventFits(syntax, d, numbers, d.events[k])
      invariant restored == TrimmedEvents(d.events)[..i]
    {
      if !EventFits(syntax, d, numbers, d.events[i]) { return false, restored; }
      restored := restored + [d.events[i].(at := Trim(d.events[i].at))];
    }
    return true, restored;
  }

  /** Numbers for every task, and the plans stored. */
  method Prepare(t: State, d: Dump) returns (ok: bool, plans: seq<Plan>, numbers: seq<nat>)
    ensures ok <==> PlansFit(t.plans, d.plans) && ExplicitNumbersFit(t.tasks, d.tasks)
    ensures ok ==> plans == WithPlans(t.plans, d.plans) && numbers == Numbers(t, d)
  {
    numbers := [];
    ok, plans := ImportPlans(t.plans, d.plans);
    if !ok { return; }
    var used;
    ok, used := CheckExplicit(t.tasks, d.tasks);
    if !ok { return; }
    var largest := Largest(t.tasks.Keys + used);
    numbers := AssignNumbers(d.tasks, used, largest + 1);
  }

  /** Both passes over the dumped tasks. */
  method RestoreTables(syntax: Syntax, t: State, d: Dump) returns (ok: bool, u: State, numbers: seq<nat>)
    requires LinkedWithin(t)
    ensures ok == TablesFit(syntax, t, d)
    ensures ok ==> u == Restored(t, d) && numbers == Numbers(t, d)
  {
    u := t;
    var plans;
    ok, plans, numbers := Prepare(t, d);
    if !ok { return; }
    NumbersFit(t, d);
    var unlinked, rows, deps;
    ok, unlinked := InsertRows(syntax, t.tasks, plans, d.tasks, numbers);
    if !ok { return; }
    ok, rows, deps := LinkRows(t, plans, d.tasks, numbers, unlinked);
    if !ok { return; }
    u := State(plans, rows, deps, t.log);
  }

  /** Import commits exactly the accepted dumps, whole, and otherwise changes nothing. */
  method Import(syntax: Syntax, t: State, c: Caller, d: Dump) returns (outcome: Outcome)
    requires LinkedWithin(t)
    ensures outcome == ImportOutcome(syntax, t, c, d)
  {
    var tablesOk, u, numbers := RestoreTables(syntax, t, d);
    if !tablesOk { return Refused(InvalidDump); }
    RestoredIsLinked(t, d);
    var wholeOk := CheckWhole(u);
    if !wholeOk { return Refused(InvalidDump); }
    var historyOk := ValidatePlanHistory(d);
    if !historyOk { return Refused(InvalidDump); }
    var eventsOk, restored := RestoreEvents(syntax, d, numbers);
    if !eventsOk { return Refused(InvalidDump); }
    return Committed(u.(log := t.log + restored + [ImportEvent(c, d)]));
  }
}
