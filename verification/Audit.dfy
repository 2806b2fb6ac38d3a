/** The structural audit: what it reports holds, and what runs without import can make it report. */
module Audits {
  import opened Basics
  import opened Graphs
  import opened Records
  import opened Review
  import opened Waiting
  import opened Invariants
  import opened TaskGraph
  import opened LoopReport
  import opened PlanMoves
  import opened Queries
  import opened Imports
  import opened Settlement
  import opened StuckLoops
  import opened Storage
  import opened FirstCycleSearch
  import Runs

  datatype Finding =
    | GateStillOpen(x: nat, gate: string)
    | NoResult(x: nat)
    | PrerequisiteOpen(x: nat, on: nat)
    | ChildStillLive(x: nat, child: nat)
    | PlanDoneTooEarly(plan: nat)
    | ParentAcrossPlans(x: nat, parent: nat)
    | ReplacementMissing(x: nat)
    | ReplacementNotRetired(x: nat, into: nat)
    | ReplacementAcrossPlans(x: nat, into: nat)
    | ReplacementDeadEnd(x: nat, into: nat)
    | RejectedPrerequisite(x: nat, on: nat)
    | DependenciesLoop(path: seq<nat>)
    | ParentsLoop(path: seq<nat>)
    | ReplacementsLoop(path: seq<nat>)
    | NoneCanFinish(stuck: Loop)

  /** SQL's trim removes spaces only. */
  predicate SqlBlank(text: string) { forall c :: c in text ==> c == ' ' }

  predicate Is(s: State, x: nat, status: Status) { x in s.tasks && s.tasks[x].status == status }

  /** What each finding claims of the stored rows. */
  ghost predicate Holds(s: State, f: Finding) {
    match f
    case GateStillOpen(x, name) => Is(s, x, Done) && exists g :: g in s.tasks[x].gates && g.status.Open? && g.name == name
    case NoResult(x) =>
      Is(s, x, Done) && RequiresResult(s.tasks[x].kind)
      && (s.tasks[x].result.Some? ==> SqlBlank(s.tasks[x].result.value))
    case PrerequisiteOpen(x, on) => Is(s, x, Done) && on in s.tasks && OpenDep(s, x, on)
    case ChildStillLive(x, child) => Is(s, x, Done) && LiveChild(s, x, child)
    case PlanDoneTooEarly(p) =>
      p < |s.plans| && s.plans[p].status.PlanDone? && exists x :: LiveTask(s, x) && s.tasks[x].plan == p
    case ParentAcrossPlans(x, parent) => (x, parent) in Parents(s) && parent in s.tasks && s.tasks[parent].plan != s.tasks[x].plan
    case ReplacementMissing(x) => x in s.tasks && s.tasks[x].replacement.Some? && s.tasks[x].replacement.value !in s.tasks
    case ReplacementNotRetired(x, into) => (x, into) in Replacements(s) && into in s.tasks && !s.tasks[x].status.Retired?
    case ReplacementAcrossPlans(x, into) => (x, into) in Replacements(s) && into in s.tasks && s.tasks[into].plan != s.tasks[x].plan
    case ReplacementDeadEnd(x, into) => (x, into) in Replacements(s) && into in s.tasks && !ChainGoesOn(s.tasks[into])
    case RejectedPrerequisite(x, on) => (x, on) in s.deps && LiveTask(s, x) && Is(s, on, Rejected)
    case DependenciesLoop(path) => ClosedWalk(s.deps, path)
    case ParentsLoop(path) => ClosedWalk(Parents(s), path)
    case ReplacementsLoop(path) => ClosedWalk(Replacements(s), path)
    case NoneCanFinish(stuck) => StuckLoop(s, LoopWalk(stuck))
  }

  /** The tasks of a reported loop, from its start round to it again. */
  function LoopWalk(l: Loop): seq<nat> { [l.start] + Seqnos(l.steps) }

  predicate OfClosed(f: Finding) {
    f.GateStillOpen? || f.NoResult? || f.PrerequisiteOpen? || f.ChildStillLive? || f.PlanDoneTooEarly?
  }

  predicate OfLinks(f: Finding) {
    || f.ParentAcrossPlans? || f.ReplacementMissing? || f.ReplacementNotRetired? || f.ReplacementAcrossPlans?
    || f.ReplacementDeadEnd? || f.RejectedPrerequisite?
  }

  /** Append the rows of one query, in whatever order the database returns them. */
  method Push(findings0: seq<Finding>, rows: set<Finding>) returns (findings: seq<Finding>)
    ensures forall f :: f in findings <==> f in findings0 || f in rows
  {
    findings := findings0;
    var left := rows;
    while left != {}
      invariant left <= rows && forall f :: f in findings <==> f in findings0 || (f in rows && f !in left)
      decreases |left|
    {
      var f :| f in left;
      findings := findings + [f];
      left := left - {f};
    }
  }

  /** Every done task against every dependency that is not done; settled ones are skipped. */
  method OpenPrerequisites(s: State) returns (rows: set<Finding>)
    ensures forall f :: f in rows <==> f.PrerequisiteOpen? && Holds(s, f)
  {
    rows := {};
    var candidates := set e | e in s.deps && Is(s, e.0, Done) && e.1 in s.tasks && !s.tasks[e.1].status.Done?;
    var left := candidates;
    while left != {}
      invariant left <= candidates
      invariant forall f :: f in rows <==> f.PrerequisiteOpen? && (f.x, f.on) in candidates - left && !Settled(s, f.on)
      decreases |left|
    {
      var e :| e in left;
      var settled := PrerequisiteSettled(s, e.1);
      if !settled { rows := rows + {PrerequisiteOpen(e.0, e.1)}; }
      left := left - {e};
    }
    forall f: Finding | f.PrerequisiteOpen? ensures Holds(s, f) <==> (f.x, f.on) in candidates && !Settled(s, f.on) {
      SettledUnfold(s, f.on);
      var e: Edge := (f.x, f.on);
      assert e in candidates <==> e in s.deps && Is(s, f.x, Done) && f.on in s.tasks && !s.tasks[f.on].status.Done?;
    }
  }

  /** Done tasks that hold something open or lack their result, and done plans with live tasks. */
  method ClosedFindings(s: State) returns (findings: seq<Finding>)
    ensures forall f :: f in findings <==> Holds(s, f) && OfClosed(f)
  {
    findings := Push([], set x, g | x in s.tasks && s.tasks[x].status.Done? && g in s.tasks[x].gates && g.status.Open? ::
                             GateStillOpen(x, g.name));
    findings := Push(findings, set x | x in s.tasks && s.tasks[x].status.Done? && RequiresResult(s.tasks[x].kind)
                                       && (s.tasks[x].result.Some? ==> SqlBlank(s.tasks[x].result.value)) :: NoResult(x));
    var open := OpenPrerequisites(s);
    findings := Push(findings, open);
    findings := Push(findings, set y | y in s.tasks && Live(s.tasks[y].status) && s.tasks[y].parent.Some?
                                       && Is(s, s.tasks[y].parent.value, Done) :: ChildStillLive(s.tasks[y].parent.value, y));
    findings := Push(findings, set x | x in s.tasks && Live(s.tasks[x].status) && s.tasks[x].plan < |s.plans|
                                       && s.plans[s.tasks[x].plan].status.PlanDone? :: PlanDoneTooEarly(s.tasks[x].plan));
  }

  predicate OfReplacements(f: Finding) {
    f.ReplacementMissing? || f.ReplacementNotRetired? || f.ReplacementAcrossPlans? || f.ReplacementDeadEnd?
  }

  /** Replacement links that lead nowhere, cross plans, stop, or hang on tasks that should not carry them. */
  method ReplacementFindings(s: State, findings0: seq<Finding>) returns (findings: seq<Finding>)
    ensures forall f :: f in findings <==> f in findings0 || (Holds(s, f) && OfReplacements(f))
  {
    var linked := set x | x in s.tasks && s.tasks[x].replacement.Some? && s.tasks[x].replacement.value in s.tasks;
    findings := Push(findings0, set x | x in s.tasks && s.tasks[x].replacement.Some?
                                        && s.tasks[x].replacement.value !in s.tasks :: ReplacementMissing(x));
    findings := Push(findings, set x | x in linked && !s.tasks[x].status.Retired? ::
                                 ReplacementNotRetired(x, s.tasks[x].replacement.value));
    findings := Push(findings, set x | x in linked && s.tasks[s.tasks[x].replacement.value].plan != s.tasks[x].plan ::
                                 ReplacementAcrossPlans(x, s.tasks[x].replacement.value));
    findings := Push(findings, set x | x in linked && !ChainGoesOn(s.tasks[s.tasks[x].replacement.value]) ::
                                 ReplacementDeadEnd(x, s.tasks[x].replacement.value));
  }

  /** Parents in another plan, unsound replacement links, and live work on rejected work. */
  method LinkFindings(s: State, findings0: seq<Finding>) returns (findings: seq<Finding>)
    ensures forall f :: f in findings <==> f in findings0 || (Holds(s, f) && OfLinks(f))
  {
    findings := Push(findings0, set x | x in s.tasks && s.tasks[x].parent.Some? && s.tasks[x].parent.value in s.tasks
                                        && s.tasks[s.tasks[x].parent.value].plan != s.tasks[x].plan ::
                                  ParentAcrossPlans(x, s.tasks[x].parent.value));
    findings := ReplacementFindings(s, findings);
    findings := Push(findings, set e | e in s.deps && LiveTask(s, e.0) && Is(s, e.1, Rejected) ::
                                 RejectedPrerequisite(e.0, e.1));
  }

  // ---- loops ----

  function CycleRows(dependency: Option<seq<nat>>, parent: Option<seq<nat>>, replacement: Option<seq<nat>>): seq<Finding> {
    (if dependency.Some? then [DependenciesLoop(dependency.value)] else [])
    + (if parent.Some? then [ParentsLoop(parent.value)] else [])
    + (if replacement.Some? then [ReplacementsLoop(replacement.value)] else [])
  }

  lemma CycleRowsHold(s: State, dependency: Option<seq<nat>>, parent: Option<seq<nat>>, replacement: Option<seq<nat>>)
    requires dependency.Some? ==> ClosedWalk(s.deps, dependency.value)
    requires parent.Some? ==> ClosedWalk(Parents(s), parent.value)
    requires replacement.Some? ==> ClosedWalk(Replacements(s), replacement.value)
    ensures var rows := CycleRows(dependency, parent, replacement);
            && (forall f :: f in rows ==> Holds(s, f) && !OfClosed(f) && !OfLinks(f))
            && (rows == [] <==> dependency.None? && parent.None? && replacement.None?)
  {
  }

  /** One cycle of each stored relation that has one. */
  method CycleFindings(s: State, findings0: seq<Finding>) returns (findings: seq<Finding>)
    requires LinkedWithin(s)
    ensures findings0 <= findings && forall f :: f in findings[|findings0|..] ==> Holds(s, f) && !OfClosed(f) && !OfLinks(f)
    ensures findings == findings0 <==> Acyclic(s.deps) && Acyclic(Parents(s)) && Acyclic(Replacements(s))
  {
    var parents := set x | x in s.tasks && s.tasks[x].parent.Some? :: (x, s.tasks[x].parent.value);
    var replacements := set x | x in s.tasks && s.tasks[x].replacement.Some? :: (x, s.tasks[x].replacement.value);
    assert parents == Parents(s) && replacements == Replacements(s);
    var dependency := CycleOf(s, s.deps);
    var parent := CycleOf(s, parents);
    var replacement := CycleOf(s, replacements);
    CycleRowsHold(s, dependency, parent, replacement);
    findings := findings0 + CycleRows(dependency, parent, replacement);
  }

  method CycleOf(s: State, links: set<Edge>) returns (cycle: Option<seq<nat>>)
    requires forall e :: e in links ==> e.0 in s.tasks && e.1 in s.tasks
    ensures cycle.None? <==> Acyclic(links)
    ensures cycle.Some? ==> ClosedWalk(links, cycle.value)
  {
    var nodes := InOrder(s.tasks.Keys);
    var rows := PairsInOrder(links);
    IncreasingIsDistinct(nodes);
    assert Known(rows, nodes) == links;
    cycle := FindCycle(nodes, rows);
  }

  // ---- loops none of whose tasks can finish ----

  lemma LoadedUnfinished(s: State, edges: Edges)
    requires Loaded(s, true, edges) && LinkedWithin(s)
    ensures GraphOf(edges) == UnfinishedWaits(s)
  {
    forall e ensures e in GraphOf(edges) <==> e in UnfinishedWaits(s) {
      StoredIsEdge(edges, e.0, e.1);
      if e in UnfinishedWaits(s) {
        if e in ChildWaits(s) {
          assert (e.1, e.0) in Parents(s);
          assert Stored(edges, e.0, WaitStep(Child, e.1));
        } else {
          assert Stored(edges, e.0, WaitStep(Dependency, e.1));
        }
      }
    }
  }

  predicate OnlyDependencies(l: Loop) { forall step :: step in l.steps ==> step.edge.Dependency? }

  /** Only the waits between unfinished tasks: a loop through a finished one already moved on. */
  method UnfinishedEdges(s: State) returns (edges: Edges)
    requires LinkedWithin(s)
    ensures Loaded(s, true, edges) && GraphOf(edges) == UnfinishedWaits(s)
  {
    edges := LoadWith(s, true);
    LoadedUnfinished(s, edges);
  }

  /** Loops of dependencies alone are left to the dependency cycle. */
  method PushStuck(s: State, edges: Edges, loops: seq<Loop>, findings0: seq<Finding>) returns (findings: seq<Finding>)
    requires GraphOf(edges) == UnfinishedWaits(s) && forall i :: 0 <= i < |loops| ==> RealLoop(edges, loops[i])
    ensures findings0 <= findings && forall f :: f in findings[|findings0|..] ==> Holds(s, f) && f.NoneCanFinish?
    ensures findings == findings0 <==> forall k :: 0 <= k < |loops| ==> OnlyDependencies(loops[k])
  {
    findings := findings0;
    for i := 0 to |loops|
      invariant findings0 <= findings && forall f :: f in findings[|findings0|..] ==> Holds(s, f) && f.NoneCanFinish?
      invariant findings == findings0 <==> forall k :: 0 <= k < i ==> OnlyDependencies(loops[k])
    {
      if !OnlyDependencies(loops[i]) {
        LoopIsStuck(s, edges, loops[i]);
        findings := findings + [NoneCanFinish(loops[i])];
      }
    }
  }

  /** Every loop reported over the unfinished wait graph is one whose tasks stay unfinished. */
  method DeadlockFindings(s: State, findings0: seq<Finding>) returns (findings: seq<Finding>)
    requires LinkedWithin(s)
    ensures findings0 <= findings && forall f :: f in findings[|findings0|..] ==> Holds(s, f) && f.NoneCanFinish?
    ensures Acyclic(UnfinishedWaits(s)) ==> findings == findings0
    ensures findings == findings0 && Acyclic(s.deps) ==> Acyclic(UnfinishedWaits(s))
  {
    var edges := UnfinishedEdges(s);
    var loops := Loops(edges);
    findings := PushStuck(s, edges, loops, findings0);
    if loops != [] && OnlyDependencies(loops[0]) { DependencyLoopIsCycle(s, edges, loops[0]); }
  }

  lemma LoopIsStuck(s: State, edges: Edges, l: Loop)
    requires GraphOf(edges) == UnfinishedWaits(s) && RealLoop(edges, l)
    ensures StuckLoop(s, LoopWalk(l))
  {
    ChainIsWalk(edges, l.start, l.steps);
    LoopTasksAreLive(s, LoopWalk(l));
  }

  lemma DependencyLoopIsCycle(s: State, edges: Edges, l: Loop)
    requires Loaded(s, true, edges) && RealLoop(edges, l) && OnlyDependencies(l)
    ensures !Acyclic(s.deps)
  {
    DependencyChain(s, edges, l.start, l.steps);
    assert ClosedWalk(s.deps, LoopWalk(l));
  }

  lemma {:induction false} DependencyChain(s: State, edges: Edges, from: nat, steps: seq<WaitStep>)
    requires Loaded(s, true, edges) && ValidChain(edges, from, steps) && forall step :: step in steps ==> step.edge.Dependency?
    ensures Connects(s.deps, [from] + Seqnos(steps), from, TaskGraph.ChainEnd(from, steps))
    decreases |steps|
  {
    if steps != [] {
      var rest := steps[1..];
      assert steps[0] in steps && Stored(edges, from, steps[0]);
      DependencyChain(s, edges, steps[0].seqno, rest);
      var w, v := [from] + Seqnos(steps), [steps[0].seqno] + Seqnos(rest);
      assert w == [from] + v;
      forall i | 0 < i < |w| ensures (w[i - 1], w[i]) in s.deps {
        if i > 1 { assert w[i - 1] == v[i - 2] && w[i] == v[i - 1]; }
      }
    }
  }

  // ---- the audit ----

  /** The structural findings: nothing is reported that does not hold, no broken row goes unreported, and a loop in
      any stored relation, or among unfinished waits, is reported. */
  method Audit(s: State) returns (findings: seq<Finding>)
    requires LinkedWithin(s)
    ensures forall f :: f in findings ==> Holds(s, f)
    ensures forall f :: OfClosed(f) || OfLinks(f) ==> (f in findings <==> Holds(s, f))
    ensures (forall f :: f in findings ==> OfClosed(f) || OfLinks(f)) <==>
            Acyclic(s.deps) && Acyclic(Parents(s)) && Acyclic(Replacements(s)) && Acyclic(UnfinishedWaits(s))
  {
    findings := ClosedFindings(s);
    findings := LinkFindings(s, findings);
    ghost var rows := findings;
    findings := CycleFindings(s, findings);
    ghost var cycles := findings;
    findings := DeadlockFindings(s, findings);
    assert forall f :: f in findings <==> f in cycles || f in findings[|cycles|..] by { Split(cycles, findings); }
    assert forall f :: f in cycles <==> f in rows || f in cycles[|rows|..] by { Split(rows, cycles); }
    if findings != cycles { assert findings[|cycles|] in findings[|cycles|..]; }
    if cycles != rows { assert cycles[|rows|] in cycles[|rows|..]; }
  }

  lemma Split<T>(a: seq<T>, b: seq<T>)
    requires a <= b
    ensures forall x :: x in b <==> x in a || x in b[|a|..]
  {
    assert b == a + b[|a|..];
  }

  // ---- what runs without import can make the audit report ----

  lemma SoundRow(s: State, f: Finding)
    requires Inv(s) && (OfClosed(f) || OfLinks(f)) && !f.PrerequisiteOpen? && !f.RejectedPrerequisite?
    ensures !Holds(s, f)
  {
    match f
    case GateStillOpen(x, name) => assert x in s.tasks ==> RowOk(s, s.tasks[x]);
    case NoResult(x) =>
      assert x in s.tasks ==> RowOk(s, s.tasks[x]);
      if x in s.tasks && s.tasks[x].result.Some? && SqlBlank(s.tasks[x].result.value) {
        SpacesAreBlank(s.tasks[x].result.value);
      }
    case ChildStillLive(x, child) => assert child in s.tasks ==> ParentOk(s, s.tasks[child]);
    case PlanDoneTooEarly(p) => assert forall x :: x in s.tasks ==> RowOk(s, s.tasks[x]);
    case ParentAcrossPlans(x, parent) => assert x in s.tasks ==> ParentOk(s, s.tasks[x]);
    case ReplacementMissing(x) => assert x in s.tasks ==> ReplacementOk(s, s.tasks[x]);
    case ReplacementNotRetired(x, into) => assert x in s.tasks ==> RowOk(s, s.tasks[x]);
    case ReplacementAcrossPlans(x, into) => assert x in s.tasks ==> ReplacementOk(s, s.tasks[x]);
    case ReplacementDeadEnd(x, into) => assert x in s.tasks ==> ReplacementOk(s, s.tasks[x]);
  }

  lemma {:induction false} SpacesAreBlank(text: string)
    requires SqlBlank(text)
    ensures Blank(text)
    decreases |text|
  {
    if text != "" {
      assert text[0] in text && forall c :: c in text[1..] ==> c in text;
      SpacesAreBlank(text[1..]);
    }
  }

  /** In every run without import the structural audit can report only two kinds of finding: live work that depends
      on rejected work, and done work whose prerequisite was unsettled by a reopening. */
  lemma RunsAuditClean(calls: seq<Runs.Call>, f: Finding)
    requires Holds(Runs.After(EMPTY, calls), f)
    ensures f.PrerequisiteOpen? || f.RejectedPrerequisite?
    ensures f.PrerequisiteOpen? ==> !AllSettled(Runs.After(EMPTY, calls))
  {
    var s := Runs.After(EMPTY, calls);
    EmptyInv();
    Runs.RunSafe(EMPTY, calls);
    AcyclicSubset(s.deps, Waits(s));
    AcyclicSubset(UnfinishedWaits(s), Waits(s));
    if f.PrerequisiteOpen? {
      var e: Edge := (f.x, f.on);
      assert e in s.deps && !Settled(s, e.1);
    } else if !f.RejectedPrerequisite? && (OfClosed(f) || OfLinks(f)) {
      SoundRow(s, f);
    }
  }
}
