/** Export and import round trips: what a sound authority exports, an empty one imports, unchanged. */
module Transfer {
  import opened Basics
  import opened Graphs
  import opened Records
  import opened Waiting
  import opened Invariants
  import opened Definition
  import opened History
  import opened Snapshots
  import opened PlanMoves
  import opened Dumps
  import opened Exports
  import opened ImportRules
  import opened Imports
  import opened Settlement
  import opened TransferHistory
  import opened TransferState

  // ---- sound authorities ----

  predicate GateStands(syntax: Syntax, g: Gate) { GateOk(syntax, g) && TrimmedGate(g) == g }

  predicate RowTexts(syntax: Syntax, t: Task) {
    && (forall g :: g in t.gates ==> GateStands(syntax, g))
    && PickupOk(syntax, t.status, t.pickup)
  }

  predicate EventTexts(syntax: Syntax, e: Event) {
    AuthorOk(syntax, e.author) && !Blank(e.at) && syntax.time(e.at) && Trim(e.at) == e.at
  }

  /** Stored texts have the syntax import demands. */
  ghost predicate TextsOk(syntax: Syntax, s: State) {
    && (forall p :: p in s.plans ==> !Blank(p.title))
    && (forall x :: x in s.tasks ==> RowTexts(syntax, s.tasks[x]))
    && (forall e :: e in s.log ==> EventTexts(syntax, e))
  }

  ghost predicate Sound(syntax: Syntax, s: State) {
    Inv(s) && HistoryOk(s) && ShapedLog(s) && TextsOk(syntax, s)
  }

  lemma LoggedIs(s: State, e: Event)
    requires e in s.log
    ensures HistoryOk(s) ==> Recorded(s, e)
    ensures ShapedLog(s) ==> Shaped(s, e, true)
  {
    var i :| 0 <= i < |s.log| && s.log[i] == e;
    assert HistoryOk(s) ==> Recorded(s, s.log[i]);
    assert ShapedLog(s) ==> Shaped(s, s.log[i], true);
  }

  lemma StoredSlug(s: State, x: nat)
    requires Rows(s) && x in s.tasks
    ensures s.tasks[x].plan < |s.plans| && s.plans[s.tasks[x].plan].slug == SlugOf(s, x) && KnownSlug(s, SlugOf(s, x))
  {
    assert RowOk(s, s.tasks[x]);
  }

  lemma KnownIsListed(s: State, slug: string)
    ensures KnownSlug(s, slug) <==> ListsSlug(s.plans, slug)
  {
  }

  // ---- what can be exported ----

  lemma NoBrokenLink(s: State, x: nat)
    requires Rows(s)
    ensures !BrokenLink(s, x)
  {
    if x in s.tasks { assert ReplacementOk(s, s.tasks[x]); }
  }

  lemma NothingUnbound(s: State, numbers: set<nat>, slugs: set<string>, e: Event)
    requires HistoryOk(s) && ShapedLog(s) && e in s.log
    ensures !Unbound(s, numbers, slugs, e)
  {
    LoggedIs(s, e);
  }

  lemma {:induction false} HistoricalFrom(events: seq<Event>, slug: string)
    requires slug in HistoricalPlans(events)
    ensures exists i :: 0 <= i < |events| && slug in PlansNamed(events[i])
    decreases |events|
  {
    var e, rest := events[|events| - 1], events[..|events| - 1];
    if slug in PlansNamed(e) {
      assert slug in PlansNamed(events[|events| - 1]);
    } else {
      HistoricalFrom(rest, slug);
      var i :| 0 <= i < |rest| && slug in PlansNamed(rest[i]);
      assert slug in PlansNamed(events[i]);
    }
  }

  /** Every plan the kept history names is stored. */
  lemma NamedPlansAreStored(s: State, numbers: set<nat>, slugs: set<string>, slug: string)
    requires HistoryOk(s) && ShapedLog(s) && Rows(s)
    requires slug in HistoricalPlans(KeptEvents(s.log, numbers, slugs))
    ensures ListsSlug(s.plans, slug)
  {
    var events := KeptEvents(s.log, numbers, slugs);
    HistoricalFrom(events, slug);
    var i :| 0 <= i < |events| && slug in PlansNamed(events[i]);
    var e := events[i];
    KeptAreLogged(s.log, numbers, slugs);
    assert e in events && e in s.log && Keeps(numbers, slugs, e);
    LoggedIs(s, e);
    var x := e.task.value;
    StoredSlug(s, x);
    if About(e, x) { KeptPlans(s, Dump([], [], events), numbers, slugs, x, i); }
    KnownIsListed(s, slug);
  }

  /** A sound authority exports whole; one of its plans exports alone exactly when no task of it depends on another plan. */
  lemma ExportRefusesExactly(syntax: Syntax, s: State, plan: Option<string>)
    requires Sound(syntax, s)
    ensures CannotExport(s, plan) <==> plan.Some? && exists x :: Chosen(s, plan, x) && Crosses(s, x)
  {
    var numbers, slugs := ChosenNumbers(s, plan), SlugsOf(WantedPlans(s.plans, plan));
    forall x ensures !BrokenLink(s, x) { NoBrokenLink(s, x); }
    forall i | 0 <= i < |s.log| ensures !Unbound(s, numbers, slugs, s.log[i]) { NothingUnbound(s, numbers, slugs, s.log[i]); }
    forall slug | slug in HistoricalPlans(KeptEvents(s.log, numbers, slugs)) ensures ListsSlug(s.plans, slug) {
      NamedPlansAreStored(s, numbers, slugs, slug);
    }
    forall x | Chosen(s, plan, x) && plan.Some? && Crosses(s, x) ensures CannotExport(s, plan) { assert Refuses(s, plan, x); }
    if exists x :: Refuses(s, plan, x) {
      var x :| Refuses(s, plan, x);
      assert Chosen(s, plan, x) && Crosses(s, x);
    }
  }

  // ---- the dump's plans and numbers ----

  lemma {:induction false} WantedDistinct(plans: seq<Plan>, plan: Option<string>)
    requires DistinctSlugs(plans)
    ensures DistinctSlugs(WantedPlans(plans, plan))
    decreases |plans|
  {
    if plans != [] {
      var p, rest := plans[|plans| - 1], plans[..|plans| - 1];
      WantedDistinct(rest, plan);
      WantedAreStored(rest, plan);
      var wanted := WantedPlans(rest, plan);
      forall i | 0 <= i < |wanted| ensures wanted[i].slug != p.slug {
        assert wanted[i] in rest;
        var j :| 0 <= j < |rest| && rest[j] == wanted[i];
        assert plans[j].slug != plans[|plans| - 1].slug;
      }
    }
  }

  lemma DumpPlansFit(syntax: Syntax, s: State, plan: Option<string>, d: Dump)
    requires Sound(syntax, s) && IsExport(s, plan, d)
    ensures PlansFit([], d.plans)
    ensures forall p :: p in d.plans ==> p in s.plans
  {
    var wanted := WantedPlans(s.plans, plan);
    WantedDistinct(s.plans, plan);
    WantedAreStored(s.plans, plan);
    forall i, j | 0 <= i < j < |d.plans| ensures d.plans[i].slug != d.plans[j].slug {
      if j < |wanted| {
        assert wanted[i] == d.plans[i] && wanted[j] == d.plans[j];
      } else if i < |wanted| {
        assert wanted[i] == d.plans[i];
        assert ListsSlug(wanted, d.plans[i].slug);
      }
    }
    forall p | p in d.plans ensures p in s.plans && PlanFits([], p) {
      var i :| 0 <= i < |d.plans| && d.plans[i] == p;
      if i < |wanted| { assert wanted[i] == p; }
      var j :| 0 <= j < |s.plans| && s.plans[j] == p;
    }
  }

  lemma {:induction false} AllPlansAreNew(plans: seq<Plan>)
    ensures WithPlans([], plans) == plans
    decreases |plans|
  {
    if plans != [] {
      AllPlansAreNew(plans[..|plans| - 1]);
      assert plans[..|plans| - 1] + [plans[|plans| - 1]] == plans;
    }
  }

  lemma DumpNumbersFit(s: State, d: Dump)
    requires Rows(s) && Faithful(s, d.tasks)
    ensures ExplicitNumbersFit(map[], d.tasks)
    ensures forall k :: 0 <= k < |d.tasks| ==> d.tasks[k].seqno == Some(Numbers(EMPTY, d)[k])
    ensures Distinct(Numbers(EMPTY, d))
    ensures forall x :: x in Numbers(EMPTY, d) <==> Dumped(d.tasks, x)
  {
    forall i | 0 <= i < |d.tasks| ensures d.tasks[i].seqno.Some? && d.tasks[i].seqno.value > 0 {
      assert DumpsRow(s, d.tasks[i].seqno.value, d.tasks[i]);
    }
    forall i, j | 0 <= i < j < |d.tasks| ensures d.tasks[j].seqno != d.tasks[i].seqno {
      assert Earlier(s, d.tasks[i].seqno.value, d.tasks[j].seqno.value);
    }
    NumbersFit(EMPTY, d);
    var numbers := Numbers(EMPTY, d);
    forall x: nat ensures x in numbers <==> Dumped(d.tasks, x) {
      if x in numbers { var k :| 0 <= k < |numbers| && numbers[k] == x; assert d.tasks[k].seqno == Some(x); }
      if Dumped(d.tasks, x) { var k :| 0 <= k < |d.tasks| && d.tasks[k].seqno == Some(x); assert numbers[k] == x; }
    }
  }

  // ---- the dump's rows and links ----

  lemma ChosenIsListed(s: State, plan: Option<string>, d: Dump, x: nat)
    requires Rows(s) && IsExport(s, plan, d) && Chosen(s, plan, x)
    ensures ListsSlug(d.plans, SlugOf(s, x)) && SlugOf(s, x) in SlugsOf(WantedPlans(s.plans, plan))
  {
    var wanted := WantedPlans(s.plans, plan);
    StoredSlug(s, x);
    WantedAreStored(s.plans, plan);
    var p := s.plans[s.tasks[x].plan];
    assert p in s.plans && p in wanted;
    var i :| 0 <= i < |wanted| && wanted[i] == p;
    assert d.plans[i] == p;
  }

  lemma DumpRowFits(syntax: Syntax, s: State, plan: Option<string>, d: Dump, x: nat, td: TaskDump)
    requires Sound(syntax, s) && IsExport(s, plan, d) && Chosen(s, plan, x) && DumpsRow(s, x, td)
    ensures RowFits(syntax, d.plans, td)
  {
    assert RowOk(s, s.tasks[x]) && RowTexts(syntax, s.tasks[x]);
    ChosenIsListed(s, plan, d, x);
    if td.status.Done? {
      forall gate | gate in td.gates ensures !gate.status.Open? { }
    }
    forall gate | gate in td.gates ensures GateOk(syntax, gate) { assert GateStands(syntax, gate); }
  }

  /** A task of the selection's plan is itself selected. */
  lemma SamePlanChosen(s: State, plan: Option<string>, d: Dump, x: nat, y: nat)
    requires Rows(s) && IsExport(s, plan, d) && Chosen(s, plan, x) && y in s.tasks
    requires plan.Some? ==> s.tasks[y].plan == s.tasks[x].plan
    ensures Chosen(s, plan, y) && y in Numbers(EMPTY, d)
  {
    assert RowOk(s, s.tasks[y]);
    DumpNumbersFit(s, d);
    assert Dumped(d.tasks, y);
  }

  lemma DumpedPlan(s: State, plan: Option<string>, d: Dump, y: nat)
    requires Rows(s) && IsExport(s, plan, d) && y in Numbers(EMPTY, d)
    ensures y in s.tasks && SamePlan(d.tasks, Numbers(EMPTY, d), y, SlugAt(s, s.tasks[y].plan))
  {
    DumpNumbersFit(s, d);
    var k := IndexOf(Numbers(EMPTY, d), y);
    assert DumpsRow(s, d.tasks[k].seqno.value, d.tasks[k]);
  }

  lemma DumpLinksFit(s: State, plan: Option<string>, d: Dump, k: nat)
    requires Inv(s) && IsExport(s, plan, d) && k < |d.tasks|
    requires plan.Some? ==> forall x :: Chosen(s, plan, x) ==> !Crosses(s, x)
    ensures LinksFit(d.tasks, Numbers(EMPTY, d), k)
  {
    var td, numbers := d.tasks[k], Numbers(EMPTY, d);
    DumpNumbersFit(s, d);
    var x := numbers[k];
    assert td.seqno == Some(x) && DumpsRow(s, td.seqno.value, td);
    assert Dumped(d.tasks, x);
    assert ParentOk(s, s.tasks[x]) && ReplacementOk(s, s.tasks[x]) && RowOk(s, s.tasks[x]);
    NoSelfLoops(s, x);
    if td.parent.Some? {
      SamePlanChosen(s, plan, d, x, td.parent.value);
      DumpedPlan(s, plan, d, td.parent.value);
    }
    if td.replacement.Some? {
      SamePlanChosen(s, plan, d, x, td.replacement.value);
      DumpedPlan(s, plan, d, td.replacement.value);
    }
    forall on | on in td.deps ensures on in numbers {
      if plan.Some? { assert !CrossesTo(s, x, on); }
      SamePlanChosen(s, plan, d, x, on);
    }
  }

  lemma {:induction false} DumpEdgesAre(tasks: seq<TaskDump>, numbers: seq<nat>)
    requires |numbers| == |tasks|
    ensures forall e :: e in DumpEdges(tasks, numbers) <==> exists k :: 0 <= k < |tasks| && numbers[k] == e.0 && e.1 in tasks[k].deps
    decreases |tasks|
  {
    if tasks != [] {
      var n := |tasks| - 1;
      DumpEdgesAre(tasks[..n], numbers[..n]);
      forall e ensures e in DumpEdges(tasks, numbers) <==> exists k :: 0 <= k < |tasks| && numbers[k] == e.0 && e.1 in tasks[k].deps {
        if e in DumpEdges(tasks[..n], numbers[..n]) {
          var k :| 0 <= k < n && numbers[..n][k] == e.0 && e.1 in tasks[..n][k].deps;
          assert numbers[k] == e.0 && e.1 in tasks[k].deps;
        }
        if k :| 0 <= k < |tasks| && numbers[k] == e.0 && e.1 in tasks[k].deps {
          if k < n { assert numbers[..n][k] == e.0 && e.1 in tasks[..n][k].deps; }
        }
      }
    }
  }

  /** The dump carries exactly the dependencies of the selected tasks. */
  lemma DumpEdgesExact(s: State, plan: Option<string>, d: Dump, e: Edge)
    requires Inv(s) && IsExport(s, plan, d)
    ensures e in DumpEdges(d.tasks, Numbers(EMPTY, d)) <==> e in s.deps && Chosen(s, plan, e.0)
  {
    var numbers := Numbers(EMPTY, d);
    DumpNumbersFit(s, d);
    DumpEdgesAre(d.tasks, numbers);
    if e in DumpEdges(d.tasks, numbers) {
      var k :| 0 <= k < |d.tasks| && numbers[k] == e.0 && e.1 in d.tasks[k].deps;
      assert d.tasks[k].seqno == Some(e.0) && DumpsRow(s, d.tasks[k].seqno.value, d.tasks[k]);
      assert Dumped(d.tasks, e.0) && (e.0, e.1) == e;
    }
    if e in s.deps && Chosen(s, plan, e.0) {
      assert Dumped(d.tasks, e.0);
      var k :| 0 <= k < |d.tasks| && d.tasks[k].seqno == Some(e.0);
      assert DumpsRow(s, d.tasks[k].seqno.value, d.tasks[k]) && (e.0, e.1) == e;
      assert numbers[k] == e.0 && e.1 in d.tasks[k].deps;
    }
  }

  // ---- the state an import restores ----

  lemma GatesUntouched(syntax: Syntax, gates: seq<Gate>)
    requires forall g :: g in gates ==> GateStands(syntax, g)
    ensures TrimmedGates(gates) == gates
  {
    forall i | 0 <= i < |gates| ensures TrimmedGate(gates[i]) == gates[i] { assert GateStands(syntax, gates[i]); }
  }

  /** A dumped row restores the row it was written from, at its plan's new position. */
  lemma RowRestores(syntax: Syntax, s: State, plans: seq<Plan>, x: nat, td: TaskDump)
    requires Rows(s) && TextsOk(syntax, s) && DumpsRow(s, x, td)
    ensures RowAt(plans, td, true) == s.tasks[x].(plan := FirstPlan(plans, SlugOf(s, x)))
  {
    assert ParentOk(s, s.tasks[x]) && RowTexts(syntax, s.tasks[x]);
    GatesUntouched(syntax, s.tasks[x].gates);
  }

  lemma RestoredRow(syntax: Syntax, s: State, plan: Option<string>, d: Dump, x: nat)
    requires Sound(syntax, s) && IsExport(s, plan, d)
    ensures var u := Restored(EMPTY, d);
            && (x in u.tasks <==> Chosen(s, plan, x))
            && (x in u.tasks ==> u.tasks[x] == s.tasks[x].(plan := FirstPlan(d.plans, SlugOf(s, x))))
  {
    var u, numbers := Restored(EMPTY, d), Numbers(EMPTY, d);
    DumpNumbersFit(s, d);
    AllPlansAreNew(d.plans);
    assert x in u.tasks <==> Dumped(d.tasks, x);
    if x in u.tasks {
      var td := d.tasks[IndexOf(numbers, x)];
      assert td.seqno == Some(x) && u.tasks[x] == RowAt(d.plans, td, true);
      RowRestores(syntax, s, d.plans, x, td);
    }
  }

  lemma RestoredIsPart(syntax: Syntax, s: State, plan: Option<string>, d: Dump)
    requires Sound(syntax, s) && IsExport(s, plan, d)
    requires plan.Some? ==> forall x :: Chosen(s, plan, x) ==> !Crosses(s, x)
    ensures Part(s, Restored(EMPTY, d))
    ensures forall x :: x in Restored(EMPTY, d).tasks <==> Chosen(s, plan, x)
  {
    var u := Restored(EMPTY, d);
    forall x: nat ensures x in u.tasks <==> Chosen(s, plan, x) { RestoredRow(syntax, s, plan, d, x); }
    forall x | x in u.tasks
      ensures x in s.tasks && u.tasks[x] == s.tasks[x].(plan := u.tasks[x].plan) && LinksInside(u, x)
    {
      RestoredRow(syntax, s, plan, d, x);
      assert ParentOk(s, s.tasks[x]) && ReplacementOk(s, s.tasks[x]);
      if s.tasks[x].parent.Some? { SamePlanChosen(s, plan, d, x, s.tasks[x].parent.value); }
      if s.tasks[x].replacement.Some? { SamePlanChosen(s, plan, d, x, s.tasks[x].replacement.value); }
    }
    forall e: Edge ensures e in u.deps <==> e in s.deps && e.0 in u.tasks { DumpEdgesExact(s, plan, d, e); }
    forall e | e in u.deps ensures e.1 in u.tasks {
      DumpEdgesExact(s, plan, d, e);
      if plan.Some? { assert (e.0, e.1) == e && !CrossesTo(s, e.0, e.1); }
      SamePlanChosen(s, plan, d, e.0, e.1);
    }
  }

  // ---- the dump's history ----

  lemma DumpedFinalPlan(s: State, plan: Option<string>, d: Dump, x: nat)
    requires Rows(s) && IsExport(s, plan, d) && Dumped(d.tasks, x)
    ensures x in FinalPlans(d.tasks) && FinalPlans(d.tasks)[x] == SlugOf(s, x) && x in s.tasks
  {
    DumpNumbersFit(s, d);
    var k :| 0 <= k < |d.tasks| && d.tasks[k].seqno == Some(x);
    assert DumpsRow(s, d.tasks[k].seqno.value, d.tasks[k]);
    FinalPlansExact(d.tasks, k);
  }

  /** The plan a kept event names is written into the dump. */
  lemma NamedPlanIsListed(s: State, plan: Option<string>, d: Dump, i: nat, slug: string)
    requires IsExport(s, plan, d) && i < |d.events| && slug in PlansNamed(d.events[i])
    ensures ListsSlug(d.plans, slug)
  {
    HistoricalHas(d.events, i, slug);
  }

  lemma {:induction false} HistoricalHas(events: seq<Event>, i: nat, slug: string)
    requires i < |events| && slug in PlansNamed(events[i])
    ensures slug in HistoricalPlans(events)
    decreases |events|
  {
    if i < |events| - 1 { HistoricalHas(events[..|events| - 1], i, slug); }
  }

  lemma DumpedEvent(s: State, plan: Option<string>, d: Dump, i: nat)
    requires HistoryOk(s) && ShapedLog(s) && IsExport(s, plan, d) && i < |d.events|
    ensures var e := d.events[i];
            && e in s.log && Recorded(s, e) && Shaped(s, e, true)
            && Keeps(NumbersOf(d.tasks), SlugsOf(WantedPlans(s.plans, plan)), e)
  {
    KeptAreLogged(s.log, NumbersOf(d.tasks), SlugsOf(WantedPlans(s.plans, plan)));
    assert d.events[i] in d.events;
    LoggedIs(s, d.events[i]);
  }

  lemma DumpEventAccounted(s: State, plan: Option<string>, d: Dump, i: nat)
    requires Inv(s) && HistoryOk(s) && ShapedLog(s) && IsExport(s, plan, d) && i < |d.events|
    ensures PlanAccounted(d, FinalPlans(d.tasks), i)
  {
    var e := d.events[i];
    DumpedEvent(s, plan, d, i);
    if e.entity != PlanEntity {
      var x := e.task.value;
      DumpedFinalPlan(s, plan, d, x);
      StoredSlug(s, x);
      KeptPlans(s, d, NumbersOf(d.tasks), SlugsOf(WantedPlans(s.plans, plan)), x, i);
      assert About(e, x);
      if e.payload.Edited? && PlanField in e.payload.changes {
        assert ChangesPlan(e, x);
        NamedPlanIsListed(s, plan, d, i, e.payload.changes[PlanField].before.text);
      }
    }
  }

  lemma DumpEventFits(syntax: Syntax, s: State, plan: Option<string>, d: Dump, i: nat)
    requires Sound(syntax, s) && IsExport(s, plan, d) && i < |d.events|
    ensures EventFits(syntax, d, Numbers(EMPTY, d), d.events[i])
  {
    var e, wanted := d.events[i], WantedPlans(s.plans, plan);
    DumpedEvent(s, plan, d, i);
    DumpNumbersFit(s, d);
    assert EventTexts(syntax, e);
    if e.entity.PlanEntity? && e.plan.Some? {
      assert ListsSlug(wanted, e.plan.value);
      var k :| 0 <= k < |wanted| && wanted[k].slug == e.plan.value;
      assert d.plans[k] == wanted[k];
    }
  }

  // ---- round trips ----

  /** Every done task the dump carries has only settled prerequisites. */
  ghost predicate SelectionSettled(s: State, plan: Option<string>) {
    forall x :: Chosen(s, plan, x) ==> SettledFor(s, x)
  }

  lemma DumpTablesFit(syntax: Syntax, s: State, plan: Option<string>, d: Dump)
    requires Sound(syntax, s) && IsExport(s, plan, d)
    requires plan.Some? ==> forall x :: Chosen(s, plan, x) ==> !Crosses(s, x)
    ensures TablesFit(syntax, EMPTY, d)
  {
    DumpPlansFit(syntax, s, plan, d);
    AllPlansAreNew(d.plans);
    DumpNumbersFit(s, d);
    forall td | td in d.tasks ensures RowFits(syntax, d.plans, td) {
      var k :| 0 <= k < |d.tasks| && d.tasks[k] == td;
      assert Dumped(d.tasks, d.tasks[k].seqno.value);
      DumpRowFits(syntax, s, plan, d, td.seqno.value, td);
    }
    forall k | 0 <= k < |d.tasks| ensures LinksFit(d.tasks, Numbers(EMPTY, d), k) { DumpLinksFit(s, plan, d, k); }
    var edges := DumpEdges(d.tasks, Numbers(EMPTY, d));
    forall e | e in edges ensures e in s.deps { DumpEdgesExact(s, plan, d, e); }
    AcyclicSubset(edges, Waits(s));
  }

  /** The events of any sound state's export account for the plan of every task they name. */
  lemma DumpHistoryAccounted(s: State, plan: Option<string>, d: Dump)
    requires Inv(s) && HistoryOk(s) && ShapedLog(s) && IsExport(s, plan, d)
    ensures PlanHistoryOk(d)
  {
    forall i | 0 <= i < |d.events| ensures PlanAccounted(d, FinalPlans(d.tasks), i) {
      DumpEventAccounted(s, plan, d, i);
    }
  }

  lemma DumpEventsFit(syntax: Syntax, s: State, plan: Option<string>, d: Dump)
    requires Sound(syntax, s) && IsExport(s, plan, d)
    ensures forall e :: e in d.events ==> EventFits(syntax, d, Numbers(EMPTY, d), e)
  {
    forall e | e in d.events ensures EventFits(syntax, d, Numbers(EMPTY, d), e) {
      var i :| 0 <= i < |d.events| && d.events[i] == e;
      DumpEventFits(syntax, s, plan, d, i);
    }
  }

  lemma DumpWholeFits(syntax: Syntax, s: State, plan: Option<string>, d: Dump)
    requires Sound(syntax, s) && IsExport(s, plan, d)
    requires plan.Some? ==> forall x :: Chosen(s, plan, x) ==> !Crosses(s, x)
    ensures WholeFits(Restored(EMPTY, d)) <==> SelectionSettled(s, plan)
  {
    var u := Restored(EMPTY, d);
    RestoredIsPart(syntax, s, plan, d);
    PartFits(s, u);
    if forall x :: x in u.tasks ==> SettledFor(s, x) {
      forall x | Chosen(s, plan, x) ensures SettledFor(s, x) { assert x in u.tasks; }
    }
  }

  /** An export of a sound authority, whole or of one plan, is accepted by an empty authority exactly when every
      done task it carries has only settled prerequisites. */
  lemma ImportAcceptsExactly(syntax: Syntax, s: State, plan: Option<string>, d: Dump)
    requires Sound(syntax, s) && !CannotExport(s, plan) && IsExport(s, plan, d)
    ensures Accepts(syntax, EMPTY, d) <==> SelectionSettled(s, plan)
  {
    ExportRefusesExactly(syntax, s, plan);
    DumpTablesFit(syntax, s, plan, d);
    DumpWholeFits(syntax, s, plan, d);
    DumpHistoryAccounted(s, plan, d);
    DumpEventsFit(syntax, s, plan, d);
  }
}
