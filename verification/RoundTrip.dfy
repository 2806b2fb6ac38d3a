/** A whole export comes back as the same authority plus one import event, and exports again unchanged. */
module RoundTrip {
  import opened Basics
  import opened Graphs
  import opened Records
  import opened Waiting
  import opened Invariants
  import opened Definition
  import opened Lifecycle
  import opened Settlement
  import opened PlanMoves
  import opened Snapshots
  import opened Dumps
  import opened Exports
  import opened ImportRules
  import opened Imports
  import opened TransferHistory
  import opened TransferState
  import opened Transfer
  import opened Witnesses

  // ---- whole exports ----

  lemma {:induction false} AllWanted(plans: seq<Plan>)
    ensures WantedPlans(plans, None) == plans
    decreases |plans|
  {
    if plans != [] {
      AllWanted(plans[..|plans| - 1]);
      assert plans[..|plans| - 1] + [plans[|plans| - 1]] == plans;
    }
  }

  lemma StoredIsListed(plans: seq<Plan>, p: Plan)
    ensures p in plans ==> ListsSlug(plans, p.slug)
  {
  }

  /** History names no plan beyond the stored ones. */
  lemma NothingHistorical(s: State, d: Dump)
    requires IsExport(s, None, d) && WantedPlans(s.plans, None) == s.plans
    ensures |d.plans| <= |s.plans|
  {
    if |d.plans| > |s.plans| {
      var p := d.plans[|s.plans|];
      StoredIsListed(s.plans, p);
    }
  }

  lemma WholePlans(s: State, d: Dump)
    requires IsExport(s, None, d)
    ensures d.plans == s.plans
  {
    AllWanted(s.plans);
    NothingHistorical(s, d);
    TakeAll(d.plans);
  }

  lemma FirstIsStored(s: State, p: nat)
    requires PlansOk(s) && p < |s.plans|
    ensures FirstPlan(s.plans, s.plans[p].slug) == p
  {
    var q := FirstPlan(s.plans, s.plans[p].slug);
    assert ListsSlug(s.plans, s.plans[p].slug);
  }

  ghost predicate SameEntry(a: map<nat, Task>, b: map<nat, Task>, x: nat) {
    (x in a <==> x in b) && (x in a ==> a[x] == b[x])
  }

  lemma SameEntries(a: map<nat, Task>, b: map<nat, Task>)
    requires forall x: nat :: SameEntry(a, b, x)
    ensures a == b
  {
    forall x: nat ensures x in a <==> x in b { assert SameEntry(a, b, x); }
    forall x | x in a ensures a[x] == b[x] { assert SameEntry(a, b, x); }
  }

  lemma WholeRow(syntax: Syntax, s: State, d: Dump, x: nat)
    requires Sound(syntax, s) && IsExport(s, None, d)
    ensures SameEntry(Restored(EMPTY, d).tasks, s.tasks, x)
  {
    RestoredRow(syntax, s, None, d, x);
    WholePlans(s, d);
    if x in s.tasks {
      StoredSlug(s, x);
      FirstIsStored(s, s.tasks[x].plan);
    }
  }

  lemma WholeRows(syntax: Syntax, s: State, d: Dump)
    requires Sound(syntax, s) && IsExport(s, None, d)
    ensures Restored(EMPTY, d).tasks == s.tasks
  {
    var rows := Restored(EMPTY, d).tasks;
    forall x: nat ensures SameEntry(rows, s.tasks, x) { WholeRow(syntax, s, d, x); }
    SameEntries(rows, s.tasks);
  }

  lemma WholeDeps(syntax: Syntax, s: State, d: Dump)
    requires Sound(syntax, s) && IsExport(s, None, d)
    ensures Restored(EMPTY, d).deps == s.deps
  {
    var u := Restored(EMPTY, d);
    forall e: Edge ensures e in u.deps <==> e in s.deps {
      DumpEdgesExact(s, None, d, e);
      if e in s.deps { StoredSlug(s, e.0); }
    }
  }

  lemma EventsUntouched(syntax: Syntax, events: seq<Event>)
    requires forall e :: e in events ==> EventTexts(syntax, e)
    ensures TrimmedEvents(events) == events
  {
    forall i | 0 <= i < |events| ensures events[i].(at := Trim(events[i].at)) == events[i] {
      assert events[i] in events && EventTexts(syntax, events[i]);
    }
  }

  lemma WholeEvents(syntax: Syntax, s: State, d: Dump)
    requires Sound(syntax, s) && IsExport(s, None, d)
    ensures d.events == s.log
  {
    AllWanted(s.plans);
    forall e | e in s.log ensures Keeps(NumbersOf(d.tasks), SlugsOf(s.plans), e) {
      LoggedIs(s, e);
      if e.task.Some? {
        StoredSlug(s, e.task.value);
        assert Dumped(d.tasks, e.task.value);
      } else if e.plan.Some? {
        KnownIsListed(s, e.plan.value);
      }
    }
    KeptTwice(s.log, NumbersOf(d.tasks), SlugsOf(s.plans));
  }

  lemma SelectionIsAll(s: State)
    requires Rows(s)
    ensures SelectionSettled(s, None) <==> AllSettled(s)
  {
    if SelectionSettled(s, None) {
      forall e | e in s.deps && e.0 in s.tasks && s.tasks[e.0].status.Done? ensures Settled(s, e.1) {
        StoredSlug(s, e.0);
        assert SettledFor(s, e.0) && (e.0, e.1) == e;
      }
    }
    if AllSettled(s) {
      forall x | Chosen(s, None, x) ensures SettledFor(s, x) {
        forall d: nat | s.tasks[x].status.Done? && (x, d) in s.deps ensures Settled(s, d) { var e: Edge := (x, d); }
      }
    }
  }

  lemma WholeAccepted(syntax: Syntax, s: State, d: Dump)
    requires Sound(syntax, s) && IsExport(s, None, d)
    ensures Accepts(syntax, EMPTY, d) <==> AllSettled(s)
  {
    ExportRefusesExactly(syntax, s, None);
    ImportAcceptsExactly(syntax, s, None, d);
    SelectionIsAll(s);
  }

  lemma WholeRestored(syntax: Syntax, s: State, d: Dump)
    requires Sound(syntax, s) && IsExport(s, None, d)
    ensures Restored(EMPTY, d) == s.(log := [])
  {
    AllPlansAreNew(d.plans);
    WholePlans(s, d);
    WholeRows(syntax, s, d);
    WholeDeps(syntax, s, d);
  }

  lemma WholeImported(syntax: Syntax, s: State, c: Caller, d: Dump)
    requires Sound(syntax, s) && IsExport(s, None, d)
    ensures ImportedState(EMPTY, c, d) == s.(log := s.log + [ImportEvent(c, d)])
  {
    WholeRestored(syntax, s, d);
    WholeEvents(syntax, s, d);
    EventsUntouched(syntax, s.log);
    assert [] + s.log == s.log;
  }

  /** A whole export imported into an empty authority gives back the same plans, tasks, links, gates and events with one
      trailing import event exactly when every done task's prerequisites are settled; otherwise it is refused. */
  lemma FullRoundTrip(syntax: Syntax, s: State, c: Caller, d: Dump)
    requires Sound(syntax, s) && IsExport(s, None, d)
    ensures ImportOutcome(syntax, EMPTY, c, d) ==
            if AllSettled(s) then Committed(s.(log := s.log + [ImportEvent(c, d)])) else Refused(InvalidDump)
  {
    WholeAccepted(syntax, s, d);
    WholeImported(syntax, s, c, d);
  }

  // ---- exporting again ----

  /** Two faithful listings of the same tasks agree row by row. */
  ghost predicate SameTasks(s: State, t: State, a: seq<TaskDump>, b: seq<TaskDump>) {
    && Faithful(s, a) && Faithful(t, b)
    && (forall x :: Dumped(a, x) <==> Dumped(b, x))
    && (forall x, y :: Dumped(a, x) && Dumped(a, y) ==> (Earlier(s, x, y) <==> Earlier(t, x, y)))
    && (forall x, p, q :: Dumped(a, x) && DumpsRow(s, x, p) && DumpsRow(t, x, q) ==> SameRow(p, q))
  }

  /** Equal but for the listing of dependencies, which holds the same numbers. */
  ghost predicate SameRow(p: TaskDump, q: TaskDump) {
    p.(deps := q.deps) == q && forall on :: on in p.deps <==> on in q.deps
  }

  lemma FirstRow(s: State, a: seq<TaskDump>, x: nat)
    requires Faithful(s, a) && Dumped(a, x)
    ensures a[0].seqno.Some? && (a[0].seqno.value == x || Earlier(s, a[0].seqno.value, x))
  {
    var k :| 0 <= k < |a| && a[k].seqno == Some(x);
  }

  lemma DumpedRest(s: State, a: seq<TaskDump>, x: nat)
    requires Faithful(s, a) && a != []
    ensures Dumped(a, x) <==> a[0].seqno == Some(x) || Dumped(a[1..], x)
    ensures Dumped(a[1..], x) ==> a[0].seqno != Some(x)
    ensures Faithful(s, a[1..])
  {
    if Dumped(a, x) {
      var k :| 0 <= k < |a| && a[k].seqno == Some(x);
      if k > 0 { assert a[1..][k - 1].seqno == Some(x); }
    }
    if Dumped(a[1..], x) {
      var k :| 0 <= k < |a[1..]| && a[1..][k].seqno == Some(x);
      assert a[k + 1].seqno == Some(x);
      assert Earlier(s, a[0].seqno.value, a[k + 1].seqno.value);
    }
  }

  lemma {:induction false} ListingsAgree(s: State, t: State, a: seq<TaskDump>, b: seq<TaskDump>)
    requires SameTasks(s, t, a, b)
    ensures a == b
    decreases |a|
  {
    if a == [] {
      if b != [] { assert b[0].seqno.Some? && Dumped(b, b[0].seqno.value); }
    } else {
      var x := a[0].seqno.value;
      assert Dumped(a, x) && Dumped(b, x);
      FirstRow(t, b, x);
      var y := b[0].seqno.value;
      assert Dumped(b, y) && Dumped(a, y);
      FirstRow(s, a, y);
      assert x == y;
      assert DumpsRow(s, x, a[0]) && DumpsRow(t, x, b[0]);
      SameOrder(a[0].deps, b[0].deps);
      forall z: nat ensures Dumped(a[1..], z) <==> Dumped(b[1..], z) {
        DumpedRest(s, a, z);
        DumpedRest(t, b, z);
      }
      forall z: nat | Dumped(a[1..], z) ensures Dumped(a, z) { DumpedRest(s, a, z); }
      DumpedRest(s, a, x);
      DumpedRest(t, b, x);
      ListingsAgree(s, t, a[1..], b[1..]);
    }
  }

  /** An authority that grew only by an import event exports the same tasks, and the same events with that one behind. */
  lemma ReexportAddsOneEvent(syntax: Syntax, s: State, c: Caller, d: Dump, again: Dump)
    requires Sound(syntax, s) && IsExport(s, None, d)
    requires IsExport(s.(log := s.log + [ImportEvent(c, d)]), None, again)
    ensures again == d.(events := d.events + [ImportEvent(c, d)])
  {
    var t := s.(log := s.log + [ImportEvent(c, d)]);
    WholePlans(s, d);
    WholePlans(t, again);
    WholeEvents(syntax, s, d);
    ReexportedTasks(s, t, d, again);
    var numbers, slugs := NumbersOf(again.tasks), SlugsOf(WantedPlans(t.plans, None));
    KeptLast(s.log, ImportEvent(c, d), numbers, slugs);
    assert d.events == KeptEvents(s.log, numbers, slugs);
  }

  lemma SameEdgesSameTasks(s: State, t: State, a: seq<TaskDump>, b: seq<TaskDump>)
    requires s.tasks == t.tasks && s.deps == t.deps && s.plans == t.plans
    requires Faithful(s, a) && Faithful(t, b) && forall x :: Dumped(a, x) <==> Dumped(b, x)
    ensures SameTasks(s, t, a, b)
  {
  }

  lemma ReexportedTasks(s: State, t: State, d: Dump, again: Dump)
    requires s.tasks == t.tasks && s.deps == t.deps && s.plans == t.plans
    requires IsExport(s, None, d) && IsExport(t, None, again)
    ensures again.tasks == d.tasks
  {
    forall x: nat ensures Dumped(d.tasks, x) <==> Dumped(again.tasks, x) { assert Chosen(s, None, x) <==> Chosen(t, None, x); }
    SameEdgesSameTasks(s, t, d.tasks, again.tasks);
    ListingsAgree(s, t, d.tasks, again.tasks);
  }

  // ---- what any accepted import leaves, and what it does not check ----

  /** Whatever was stored and whatever the dump, an accepted import leaves sound replacement chains, acyclic
      parents, settled prerequisites under every done task, and no unfinished work under one. */
  lemma ImportLeaves(syntax: Syntax, t: State, c: Caller, d: Dump, x: nat)
    requires LinkedWithin(t) && ImportOutcome(syntax, t, c, d).Committed?
    requires x in ImportedState(t, c, d).tasks
    ensures var u := ImportedState(t, c, d);
            && Acyclic(Parents(u)) && Acyclic(Replacements(u)) && ChainsGoOn(u) && LinkedWithin(u)
            && (u.tasks[x].status.Done? ==> NoLiveChild(u, x) && forall on: nat :: (x, on) in u.deps ==> Settled(u, on))
  {
    var r, u := Restored(t, d), ImportedState(t, c, d);
    RestoredIsLinked(t, d);
    SameGraphs(r, u);
    assert LinkedWithin(u);
    assert DoneFreely(r, x);
    if u.tasks[x].status.Done? {
      forall on: nat | (x, on) in u.deps ensures Settled(u, on) {
        var e: Edge := (x, on);
        assert e in r.deps && !OpenDep(r, x, on);
        LogDoesNotSettle(r, u, on);
      }
      forall child | child in u.tasks ensures !LiveChild(u, x, child) { assert !LiveChild(r, x, child); }
    }
  }

  lemma LogDoesNotSettle(r: State, u: State, x: nat)
    requires u.tasks == r.tasks && Settled(r, x)
    ensures Settled(u, x)
  {
    var y :| LeadsTo(r, x, y) && SettledHere(r, y);
    var w :| Follows(r, w) && w[0] == x && w[|w| - 1] == y;
    forall i | 0 < i < |w| ensures RetiredInto(u, w[i - 1], w[i]) { assert RetiredInto(r, w[i - 1], w[i]); }
    assert Follows(u, w);
    assert LeadsTo(u, x, y) && SettledHere(u, y);
  }

  // ---- import does not look for wait loops ----

  function DumpedTask(x: nat, parent: Option<nat>, deps: seq<nat>): TaskDump {
    TaskDump(Some(x), "p", "t", "", Feature, None, Proposed, Next, parent, None, None, deps, [])
  }

  /** 2 is an unfinished child of 1 and depends on it. */
  const LOOPING := Dump([ACTIVE_PLAN], [DumpedTask(1, None, []), DumpedTask(2, Some(1), [1])], [])

  lemma LoopingNumbers()
    ensures ExplicitNumbersFit(map[], LOOPING.tasks) && Numbers(EMPTY, LOOPING) == [1, 2]
  {
    var tasks := LOOPING.tasks;
    NumbersFit(EMPTY, LOOPING);
    assert tasks[0].seqno == Some(1) && tasks[1].seqno == Some(2);
  }

  lemma LoopingEdges()
    ensures DumpEdges(LOOPING.tasks, [1, 2]) == {(2, 1)} && Acyclic({(2, 1)})
  {
    var tasks := LOOPING.tasks;
    DumpEdgesAre(tasks, [1, 2]);
    forall e: Edge ensures e in DumpEdges(tasks, [1, 2]) <==> e == (2, 1) {
      if e == (2, 1) { assert [1, 2][1] == e.0 && e.1 in tasks[1].deps; }
    }
    RankAcyclic({(2, 1)}, map[2 := 1, 1 := 0]);
  }

  lemma LoopingRows(syntax: Syntax)
    ensures PlansFit([], LOOPING.plans) && WithPlans([], LOOPING.plans) == LOOPING.plans
    ensures forall td :: td in LOOPING.tasks ==> RowFits(syntax, LOOPING.plans, td)
  {
    assert Trim("t") == "t" && Trim("p") == "p";
    assert ListsSlug([ACTIVE_PLAN], "p") by { assert [ACTIVE_PLAN][0].slug == "p"; }
    AllPlansAreNew([ACTIVE_PLAN]);
  }

  lemma LoopingLinks()
    ensures LinksFit(LOOPING.tasks, [1, 2], 0) && LinksFit(LOOPING.tasks, [1, 2], 1)
  {
    assert IndexOf([1, 2], 1) == 0;
    assert SamePlan(LOOPING.tasks, [1, 2], 1, "p");
  }

  lemma LoopingTables(syntax: Syntax)
    ensures TablesFit(syntax, EMPTY, LOOPING)
  {
    LoopingNumbers();
    LoopingEdges();
    LoopingRows(syntax);
    LoopingLinks();
  }

  lemma LoopingLinksStored()
    ensures var r := Restored(EMPTY, LOOPING);
            && r.tasks.Keys == {1, 2} && r.deps == {(2, 1)}
            && r.tasks[1].parent == None && r.tasks[2].parent == Some(1)
            && r.tasks[1].replacement == None && r.tasks[2].replacement == None
            && r.tasks[1].status.Proposed? && r.tasks[2].status.Proposed?
  {
    LoopingNumbers();
    LoopingEdges();
    assert IndexOf([1, 2], 1) == 0 && IndexOf([1, 2], 2) == 1;
  }

  lemma OneChildFits(r: State)
    requires r.tasks.Keys == {1, 2} && r.tasks[1].parent == None && r.tasks[2].parent == Some(1)
    requires r.tasks[1].replacement == None && r.tasks[2].replacement == None
    requires r.tasks[1].status.Proposed? && r.tasks[2].status.Proposed?
    ensures WholeFits(r)
  {
    assert Parents(r) == {(2, 1)} && Replacements(r) == {};
    RankAcyclic({}, map[]);
    RankAcyclic({(2, 1)}, map[1 := 0, 2 := 1]);
  }

  lemma LoopingWhole()
    ensures WholeFits(Restored(EMPTY, LOOPING))
  {
    LoopingLinksStored();
    OneChildFits(Restored(EMPTY, LOOPING));
  }

  /** Import accepts work whose parent waits for it while it waits for the parent: only mutations check for wait loops. */
  lemma ImportSkipsTheWaitCheck(syntax: Syntax, c: Caller)
    ensures ImportOutcome(syntax, EMPTY, c, LOOPING).Committed?
    ensures !Acyclic(Waits(ImportOutcome(syntax, EMPTY, c, LOOPING).state))
  {
    LoopingTables(syntax);
    LoopingWhole();
    LoopingLinksStored();
    var u := ImportedState(EMPTY, c, LOOPING);
    assert (2, 1) in Waits(u) && (1, 2) in Waits(u);
    ReachEdge(Waits(u), 1, 2);
    EdgeOnReachIsCycle(Waits(u), 2, 1);
  }
}
