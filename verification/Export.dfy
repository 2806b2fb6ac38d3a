/** Writing the authority, or one plan of it, as a dump. */
module Exports {
  import opened Basics
  import opened Graphs
  import opened Records
  import opened Waiting
  import opened Invariants
  import opened PlanMoves
  import opened Queries
  import opened Dumps

  /** Tasks the export writes: all, or those of the wanted plan. */
  predicate Chosen(s: State, plan: Option<string>, x: nat) {
    x in s.tasks && s.tasks[x].plan < |s.plans| && (plan.Some? ==> s.plans[s.tasks[x].plan].slug == plan.value)
  }

  predicate Wanted(plan: Option<string>, slug: string) { plan.Some? ==> slug == plan.value }

  function WantedPlans(plans: seq<Plan>, plan: Option<string>): seq<Plan> {
    if plans == [] then []
    else
      var p, rest := plans[|plans| - 1], WantedPlans(plans[..|plans| - 1], plan);
      if Wanted(plan, p.slug) then rest + [p] else rest
  }

  // ---- tasks ----

  /** A row as the dump carries it, with its dependencies by number. */
  ghost predicate DumpsRow(s: State, x: nat, td: TaskDump) {
    && x in s.tasks
    && var t := s.tasks[x];
    && td == TaskDump(Some(x), SlugAt(s, t.plan), t.title, t.intent, t.kind, t.result, t.status, t.priority,
                      (if t.parent.Some? && t.parent.value in s.tasks then t.parent else None),
                      t.replacement, t.pickup, td.deps, t.gates)
    && Increasing(td.deps) && forall on :: on in td.deps <==> (x, on) in s.deps && on in s.tasks
  }

  /** A replacement that is missing, or where the chain does not go on, cannot be exported. */
  predicate BrokenLink(s: State, x: nat) {
    x in s.tasks && s.tasks[x].replacement.Some?
    && var r := s.tasks[x].replacement.value; r !in s.tasks || !ChainGoesOn(s.tasks[r])
  }

  /** A one-plan dump cannot carry an edge into another plan. */
  ghost predicate Crosses(s: State, x: nat) {
    exists on: nat :: CrossesTo(s, x, on)
  }

  predicate CrossesTo(s: State, x: nat, on: nat) {
    x in s.tasks && on in s.tasks && (x, on) in s.deps && s.tasks[on].plan != s.tasks[x].plan
  }

  method ExportTask(s: State, plan: Option<string>, x: nat) returns (td: Option<TaskDump>)
    requires x in s.tasks
    ensures td.None? <==> BrokenLink(s, x) || (plan.Some? && Crosses(s, x))
    ensures td.Some? ==> DumpsRow(s, x, td.value)
  {
    var t := s.tasks[x];
    if t.replacement.Some? && (t.replacement.value !in s.tasks || !ChainGoesOn(s.tasks[t.replacement.value])) {
      return None;
    }
    var deps := InOrder(set e | e in s.deps && e.0 == x && e.1 in s.tasks :: e.1);
    forall on: nat ensures on in deps <==> (x, on) in s.deps && on in s.tasks {
      var e: Edge := (x, on);
      if e in s.deps && on in s.tasks { assert e.1 in deps; }
    }
    if plan.Some? {
      for i := 0 to |deps|
        invariant forall k :: 0 <= k < i ==> s.tasks[deps[k]].plan == t.plan
      {
        assert deps[i] in deps;
        if s.tasks[deps[i]].plan != t.plan {
          assert CrossesTo(s, x, deps[i]);
          return None;
        }
      }
      assert forall on: nat :: CrossesTo(s, x, on) ==> on in deps;
    }
    td := Some(TaskDump(Some(x), SlugAt(s, t.plan), t.title, t.intent, t.kind, t.result, t.status, t.priority,
                        if t.parent.Some? && t.parent.value in s.tasks then t.parent else None,
                        t.replacement, t.pickup, deps, t.gates));
  }

  /** Plan by plan, then by number. */
  predicate Earlier(s: State, a: nat, b: nat) {
    a in s.tasks && b in s.tasks
    && (s.tasks[a].plan < s.tasks[b].plan || (s.tasks[a].plan == s.tasks[b].plan && a < b))
  }

  /** The dumped rows are faithful and ordered. */
  ghost predicate Faithful(s: State, tasks: seq<TaskDump>) {
    && (forall k :: 0 <= k < |tasks| ==> tasks[k].seqno.Some? && DumpsRow(s, tasks[k].seqno.value, tasks[k]))
    && (forall i, j :: 0 <= i < j < |tasks| ==>
          tasks[i].seqno.Some? && tasks[j].seqno.Some? && Earlier(s, tasks[i].seqno.value, tasks[j].seqno.value))
  }

  predicate Dumped(tasks: seq<TaskDump>, x: nat) {
    exists k :: 0 <= k < |tasks| && tasks[k].seqno == Some(x)
  }

  ghost predicate Refuses(s: State, plan: Option<string>, x: nat) {
    Chosen(s, plan, x) && (BrokenLink(s, x) || (plan.Some? && Crosses(s, x)))
  }

  lemma FaithfulNext(s: State, tasks: seq<TaskDump>, x: nat, td: TaskDump)
    requires Faithful(s, tasks) && DumpsRow(s, x, td)
    requires forall y :: Dumped(tasks, y) ==> Earlier(s, y, x)
    ensures Faithful(s, tasks + [td])
    ensures forall y :: Dumped(tasks + [td], y) <==> Dumped(tasks, y) || y == x
  {
    var all := tasks + [td];
    forall i, j | 0 <= i < j < |all|
      ensures all[i].seqno.Some? && all[j].seqno.Some? && Earlier(s, all[i].seqno.value, all[j].seqno.value)
    {
      if j == |tasks| { assert Dumped(tasks, tasks[i].seqno.value); }
    }
    forall y ensures Dumped(all, y) <==> Dumped(tasks, y) || y == x {
      assert all[|tasks|] == td;
      if Dumped(tasks, y) {
        var k :| 0 <= k < |tasks| && tasks[k].seqno == Some(y);
        assert all[k].seqno == Some(y);
      }
    }
  }

  predicate OfPlan(s: State, p: nat, x: nat) { x in s.tasks && s.tasks[x].plan == p }

  /** Exported so far: the tasks of the wanted plans below p. */
  ghost predicate DumpedBelow(s: State, plan: Option<string>, p: nat, tasks: seq<TaskDump>) {
    Faithful(s, tasks) && forall x :: Dumped(tasks, x) <==> Chosen(s, plan, x) && s.tasks[x].plan < p
  }

  /** The tasks of one plan, by number. */
  method ExportPlan(s: State, plan: Option<string>, p: nat, tasks0: seq<TaskDump>)
    returns (ok: bool, tasks: seq<TaskDump>)
    requires p < |s.plans| && Wanted(plan, s.plans[p].slug) && DumpedBelow(s, plan, p, tasks0)
    ensures ok ==> DumpedBelow(s, plan, p + 1, tasks) && forall x :: OfPlan(s, p, x) ==> !Refuses(s, plan, x)
    ensures !ok ==> exists x :: Refuses(s, plan, x)
  {
    tasks := tasks0;
    var rows := InOrder(set x | x in s.tasks && s.tasks[x].plan == p);
    for i := 0 to |rows|
      invariant Faithful(s, tasks)
      invariant forall x :: Dumped(tasks, x) <==> (Chosen(s, plan, x) && s.tasks[x].plan < p) || x in rows[..i]
      invariant forall x :: x in rows[..i] ==> !Refuses(s, plan, x)
    {
      TakeNext(rows, i);
      assert rows[i] in rows && OfPlan(s, p, rows[i]);
      var td := ExportTask(s, plan, rows[i]);
      if td.None? {
        assert Refuses(s, plan, rows[i]);
        return false, tasks;
      }
      forall y | Dumped(tasks, y) ensures Earlier(s, y, rows[i]) {
        if y in rows[..i] { assert y in rows; }
      }
      FaithfulNext(s, tasks, rows[i], td.value);
      tasks := tasks + [td.value];
    }
    TakeAll(rows);
    return true, tasks;
  }

  method ExportTasks(s: State, plan: Option<string>) returns (ok: bool, plans: seq<Plan>, tasks: seq<TaskDump>)
    ensures ok <==> forall x :: !Refuses(s, plan, x)
    ensures ok ==> plans == WantedPlans(s.plans, plan) && Faithful(s, tasks)
    ensures ok ==> forall x :: Dumped(tasks, x) <==> Chosen(s, plan, x)
  {
    plans, tasks := [], [];
    for p := 0 to |s.plans|
      invariant plans == WantedPlans(s.plans[..p], plan)
      invariant DumpedBelow(s, plan, p, tasks)
      invariant forall x :: x in s.tasks && s.tasks[x].plan < p ==> !Refuses(s, plan, x)
    {
      assert s.plans[..p + 1][..p] == s.plans[..p];
      if plan.None? || plan.value == s.plans[p].slug {
        plans := plans + [s.plans[p]];
        var whole;
        whole, tasks := ExportPlan(s, plan, p, tasks);
        if !whole { return false, plans, tasks; }
        forall x | x in s.tasks && s.tasks[x].plan < p + 1 ensures !Refuses(s, plan, x) {
          if s.tasks[x].plan == p { assert OfPlan(s, p, x); }
        }
      }
    }
    TakeAll(s.plans);
    forall x ensures Dumped(tasks, x) <==> Chosen(s, plan, x) { }
    return true, plans, tasks;
  }

  // ---- events ----

  /** Task events of dumped tasks; other events unless they name a plan that is not dumped. */
  predicate Keeps(numbers: set<nat>, slugs: set<string>, e: Event) {
    if e.task.Some? then e.task.value in numbers else e.plan.Some? ==> e.plan.value in slugs
  }

  function KeptEvents(log: seq<Event>, numbers: set<nat>, slugs: set<string>): seq<Event> {
    if log == [] then []
    else
      var e, rest := log[|log| - 1], KeptEvents(log[..|log| - 1], numbers, slugs);
      if Keeps(numbers, slugs, e) then rest + [e] else rest
  }

  /** Events an export stops at: about a missing task, or kept without the references import binds. */
  predicate Unbound(s: State, numbers: set<nat>, slugs: set<string>, e: Event) {
    || (e.task.Some? && e.task.value !in s.tasks)
    || (Keeps(numbers, slugs, e)
        && ((e.entity != PlanEntity && (e.plan.None? || e.task.None?)) || (e.entity.GateEntity? && e.gate.None?)))
  }

  /** Plans a kept task event names: its own, and the one a plan change left. */
  function PlansNamed(e: Event): set<string> {
    if e.task.None? then {}
    else
      (if e.plan.Some? then {e.plan.value} else {})
      + (if e.payload.Edited? && PlanField in e.payload.changes && e.payload.changes[PlanField].before.Text?
         then {e.payload.changes[PlanField].before.text} else {})
  }

  function HistoricalPlans(events: seq<Event>): set<string> {
    if events == [] then {} else HistoricalPlans(events[..|events| - 1]) + PlansNamed(events[|events| - 1])
  }

  lemma KeptNext(log: seq<Event>, numbers: set<nat>, slugs: set<string>, i: nat)
    requires i < |log|
    ensures KeptEvents(log[..i + 1], numbers, slugs) ==
            KeptEvents(log[..i], numbers, slugs) + if Keeps(numbers, slugs, log[i]) then [log[i]] else []
  {
    assert log[..i + 1][..i] == log[..i];
  }

  lemma HistoricalNext(events: seq<Event>, e: Event)
    ensures HistoricalPlans(events + [e]) == HistoricalPlans(events) + PlansNamed(e)
  {
    assert (events + [e])[..|events|] == events;
  }

  method ExportEvents(s: State, numbers: set<nat>, slugs: set<string>)
    returns (ok: bool, events: seq<Event>, historical: set<string>)
    ensures ok <==> forall i :: 0 <= i < |s.log| ==> !Unbound(s, numbers, slugs, s.log[i])
    ensures ok ==> events == KeptEvents(s.log, numbers, slugs) && historical == HistoricalPlans(events)
  {
    events, historical := [], {};
    for i := 0 to |s.log|
      invariant forall k :: 0 <= k < i ==> !Unbound(s, numbers, slugs, s.log[k])
      invariant events == KeptEvents(s.log[..i], numbers, slugs) && historical == HistoricalPlans(events)
    {
      KeptNext(s.log, numbers, slugs, i);
      var e := s.log[i];
      if Unbound(s, numbers, slugs, e) { return false, events, historical; }
      if Keeps(numbers, slugs, e) {
        HistoricalNext(events, e);
        historical := historical + PlansNamed(e);
        events := events + [e];
      }
    }
    TakeAll(s.log);
    return true, events, historical;
  }

  // ---- the dump ----

  function SlugsOf(plans: seq<Plan>): (slugs: set<string>)
    ensures forall slug :: slug in slugs <==> ListsSlug(plans, slug)
  {
    set i | 0 <= i < |plans| :: plans[i].slug
  }

  function NumbersOf(tasks: seq<TaskDump>): (numbers: set<nat>)
    ensures forall x :: x in numbers <==> Dumped(tasks, x)
  {
    set k | 0 <= k < |tasks| && tasks[k].seqno.Some? :: tasks[k].seqno.value
  }

  /** Definitions of plans that only history names follow the wanted ones, each once, as stored. */
  ghost predicate WithHistoricalPlans(s: State, wanted: seq<Plan>, historical: set<string>, plans: seq<Plan>) {
    && wanted <= plans
    && (forall k :: |wanted| <= k < |plans| ==>
          plans[k] in s.plans && plans[k].slug in historical && plans[k].slug !in SlugsOf(wanted))
    && (forall i, j :: |wanted| <= i < j < |plans| ==> plans[i].slug != plans[j].slug)
    && (forall slug :: slug in historical ==> ListsSlug(plans, slug))
  }

  ghost predicate IsExport(s: State, plan: Option<string>, d: Dump) {
    && Faithful(s, d.tasks) && (forall x :: Dumped(d.tasks, x) <==> Chosen(s, plan, x))
    && var wanted := WantedPlans(s.plans, plan);
    && d.events == KeptEvents(s.log, NumbersOf(d.tasks), SlugsOf(wanted))
    && WithHistoricalPlans(s, wanted, HistoricalPlans(d.events), d.plans)
  }

  ghost function ChosenNumbers(s: State, plan: Option<string>): set<nat> { set x | x in s.tasks && Chosen(s, plan, x) }

  ghost predicate CannotExport(s: State, plan: Option<string>) {
    || (exists x :: Refuses(s, plan, x))
    || var numbers := ChosenNumbers(s, plan);
       var slugs := SlugsOf(WantedPlans(s.plans, plan));
       || (exists i :: 0 <= i < |s.log| && Unbound(s, numbers, slugs, s.log[i]))
       || (exists slug :: slug in HistoricalPlans(KeptEvents(s.log, numbers, slugs)) && !ListsSlug(s.plans, slug))
  }

  lemma AddDefinition(s: State, wanted: seq<Plan>, done: set<string>, plans: seq<Plan>, p: Plan)
    requires WithHistoricalPlans(s, wanted, done, plans) && p in s.plans && p.slug !in done && !ListsSlug(wanted, p.slug)
    ensures WithHistoricalPlans(s, wanted, done + {p.slug}, plans + [p])
  {
    var all := plans + [p];
    assert all[|plans|] == p;
    forall slug | slug in done ensures ListsSlug(all, slug) {
      assert ListsSlug(plans, slug);
      var k :| 0 <= k < |plans| && plans[k].slug == slug;
      assert all[k].slug == slug;
    }
    assert ListsSlug(all, p.slug);
  }

  method AddHistorical(s: State, wanted: seq<Plan>, historical: set<string>) returns (ok: bool, plans: seq<Plan>)
    ensures ok <==> forall slug :: slug in historical && !ListsSlug(wanted, slug) ==> ListsSlug(s.plans, slug)
    ensures ok ==> WithHistoricalPlans(s, wanted, historical, plans)
  {
    plans := wanted;
    var selected := SlugsOf(wanted);
    var left := historical - selected;
    while left != {}
      invariant left <= historical - selected
      invariant WithHistoricalPlans(s, wanted, historical - left, plans)
      invariant forall slug :: slug in historical - left && !ListsSlug(wanted, slug) ==> ListsSlug(s.plans, slug)
      decreases |left|
    {
      var slug :| slug in left;
      var p := FirstPlan(s.plans, slug);
      if p == |s.plans| { return false, plans; }
      AddDefinition(s, wanted, historical - left, plans, s.plans[p]);
      assert historical - (left - {slug}) == (historical - left) + {slug};
      plans := plans + [s.plans[p]];
      left := left - {slug};
    }
    assert historical - left == historical;
    return true, plans;
  }

  lemma {:induction false} WantedAreStored(plans: seq<Plan>, plan: Option<string>)
    ensures forall p :: p in WantedPlans(plans, plan) <==> p in plans && Wanted(plan, p.slug)
    decreases |plans|
  {
    if plans != [] {
      WantedAreStored(plans[..|plans| - 1], plan);
      var p, rest := plans[|plans| - 1], plans[..|plans| - 1];
      assert forall q :: q in plans <==> q in rest || q == p;
    }
  }

  /** Export refuses exactly when some chosen task, event or named plan cannot be carried. */
  method Export(s: State, plan: Option<string>) returns (d: Option<Dump>)
    ensures d.None? <==> CannotExport(s, plan)
    ensures d.Some? ==> IsExport(s, plan, d.value)
  {
    var rowsOk, wanted, tasks := ExportTasks(s, plan);
    if !rowsOk { return None; }
    var numbers, slugs := NumbersOf(tasks), SlugsOf(wanted);
    assert numbers == ChosenNumbers(s, plan) by {
      forall x ensures x in numbers <==> Chosen(s, plan, x) { assert Dumped(tasks, x) <==> Chosen(s, plan, x); }
    }
    var eventsOk, events, historical := ExportEvents(s, numbers, slugs);
    if !eventsOk { return None; }
    var plansOk, plans := AddHistorical(s, wanted, historical);
    WantedListed(s, plan);
    if !plansOk { return None; }
    return Some(Dump(plans, tasks, events));
  }

  lemma WantedListed(s: State, plan: Option<string>)
    ensures forall slug :: ListsSlug(WantedPlans(s.plans, plan), slug) ==> ListsSlug(s.plans, slug)
  {
    WantedAreStored(s.plans, plan);
    var wanted := WantedPlans(s.plans, plan);
    forall slug | ListsSlug(wanted, slug) ensures ListsSlug(s.plans, slug) {
      var k :| 0 <= k < |wanted| && wanted[k].slug == slug;
      assert wanted[k] in s.plans;
    }
  }
}
