/** Dump documents, and the check that a dump's events account for every task's plan. */
module Dumps {
  import opened Basics
  import opened Graphs
  import opened Records
  import opened Definition

  /** A task as a dump carries it: links by number, its plan by slug. */
  datatype TaskDump = TaskDump(seqno: Option<nat>, plan: string, title: string, intent: string, kind: Kind,
                               result: Option<string>, status: Status, priority: Priority, parent: Option<nat>,
                               replacement: Option<nat>, pickup: Option<Pickup>, deps: seq<nat>, gates: seq<Gate>)

  datatype Dump = Dump(plans: seq<Plan>, tasks: seq<TaskDump>, events: seq<Event>)

  // ---- plan history ----

  predicate ChangesPlan(e: Event, x: nat) {
    e.entity != PlanEntity && e.task == Some(x) && e.payload.Edited? && PlanField in e.payload.changes
  }

  /** The plan task x belonged to before event i, given the one it ends in: the `before` of its next plan change. */
  function PlanBefore(events: seq<Event>, x: nat, i: nat, last: string): string
    requires i <= |events|
    decreases |events| - i
  {
    if i == |events| then last
    else if ChangesPlan(events[i], x) && events[i].payload.changes[PlanField].before.Text?
    then events[i].payload.changes[PlanField].before.text
    else PlanBefore(events, x, i + 1, last)
  }

  predicate ListsSlug(plans: seq<Plan>, slug: string) {
    exists i :: 0 <= i < |plans| && plans[i].slug == slug
  }

  /** Where a slug is stored; past the end when it is not. */
  function FirstPlan(plans: seq<Plan>, slug: string): (p: nat)
    ensures p <= |plans| && forall k :: 0 <= k < p ==> plans[k].slug != slug
    ensures p < |plans| ==> plans[p].slug == slug
    ensures p < |plans| <==> ListsSlug(plans, slug)
  {
    if plans == [] then 0
    else if plans[0].slug == slug then 0
    else
      var q := FirstPlan(plans[1..], slug);
      assert forall k :: 0 < k < |plans| ==> plans[k] == plans[1..][k - 1];
      1 + q
  }

  /** An event names its task's plan of that moment, and a plan change leads from a listed plan to that one. */
  predicate PlanAccounted(d: Dump, final: map<nat, string>, i: nat)
    requires i < |d.events|
  {
    var e := d.events[i];
    e.entity != PlanEntity ==>
      e.task.Some? && e.task.value in final &&
      var now := PlanBefore(d.events, e.task.value, i + 1, final[e.task.value]);
      && e.plan == Some(now)
      && (e.payload.Edited? && PlanField in e.payload.changes ==>
            && e.entity.TaskEntity? && ValidRevision(e.payload)
            && var change := e.payload.changes[PlanField];
            change.before.Text? && change.after == Text(now) && ListsSlug(d.plans, change.before.text))
  }

  /** The plans the dump's numbered tasks end in; a later row of the same number would win. */
  function FinalPlans(tasks: seq<TaskDump>): map<nat, string> {
    if tasks == [] then map[]
    else
      var td, rest := tasks[|tasks| - 1], FinalPlans(tasks[..|tasks| - 1]);
      if td.seqno.Some? then rest[td.seqno.value := td.plan] else rest
  }

  predicate PlanHistoryOk(d: Dump) {
    forall i :: 0 <= i < |d.events| ==> PlanAccounted(d, FinalPlans(d.tasks), i)
  }

  method CollectFinalPlans(tasks: seq<TaskDump>) returns (final: map<nat, string>)
    ensures final == FinalPlans(tasks)
  {
    final := map[];
    for i := 0 to |tasks|
      invariant final == FinalPlans(tasks[..i])
    {
      assert tasks[..i + 1][..i] == tasks[..i];
      if tasks[i].seqno.Some? { final := final[tasks[i].seqno.value := tasks[i].plan]; }
    }
    TakeAll(tasks);
  }

  method HasSlug(plans: seq<Plan>, slug: string) returns (found: bool)
    ensures found == ListsSlug(plans, slug)
  {
    for i := 0 to |plans|
      invariant forall k :: 0 <= k < i ==> plans[k].slug != slug
    {
      if plans[i].slug == slug { return true; }
    }
    return false;
  }

  /** Reading the events backwards, `expected` is every task's plan at that point. */
  ghost predicate Expecting(d: Dump, i: nat, expected: map<nat, string>)
    requires i <= |d.events|
  {
    var final := FinalPlans(d.tasks);
    expected.Keys == final.Keys && forall x :: x in final ==> expected[x] == PlanBefore(d.events, x, i, final[x])
  }

  /** One event, read backwards. */
  method ReadEvent(d: Dump, i: nat, expected0: map<nat, string>) returns (ok: bool, expected: map<nat, string>)
    requires i < |d.events| && Expecting(d, i + 1, expected0)
    ensures ok == PlanAccounted(d, FinalPlans(d.tasks), i)
    ensures ok ==> Expecting(d, i, expected)
  {
    var e := d.events[i];
    expected := expected0;
    if e.entity == PlanEntity { return true, expected; }
    if e.task.None? || e.task.value !in expected { return false, expected; }
    var x, now := e.task.value, expected[e.task.value];
    if e.plan != Some(now) { return false, expected; }
    if e.payload.Edited? && PlanField in e.payload.changes {
      var change := e.payload.changes[PlanField];
      if e.entity != TaskEntity || !ValidRevision(e.payload) || !change.before.Text? {
        return false, expected;
      }
      var known := HasSlug(d.plans, change.before.text);
      if change.after != Text(now) || !known { return false, expected; }
      expected := expected[x := change.before.text];
    }
    return true, expected;
  }

  /** Walk the events from the last to the first, undoing plan changes. */
  method ValidatePlanHistory(d: Dump) returns (ok: bool)
    ensures ok == PlanHistoryOk(d)
  {
    var expected := CollectFinalPlans(d.tasks);
    var i := |d.events|;
    while i > 0
      invariant 0 <= i <= |d.events| && Expecting(d, i, expected)
      invariant forall k :: i <= k < |d.events| ==> PlanAccounted(d, FinalPlans(d.tasks), k)
    {
      i := i - 1;
      var accounted;
      accounted, expected := ReadEvent(d, i, expected);
      if !accounted { return false; }
    }
    return true;
  }
}
