/** Moving one plan through a dump: what comes back is exactly that plan's tasks, links and history. */
module PartTransfer {
  import opened Basics
  import opened Graphs
  import opened Records
  import opened Waiting
  import opened Invariants
  import opened Dumps
  import opened Exports
  import opened ImportRules
  import opened TransferState
  import opened TransferHistory
  import opened Transfer
  import opened RoundTrip
  import opened Runs
  import opened HonestRuns

  predicate InPlan(s: State, slug: string, x: nat) {
    x in s.tasks && s.tasks[x].plan < |s.plans| && s.plans[s.tasks[x].plan].slug == slug
  }

  /** Events of the plan: about one of its tasks, or about no task and no other plan. */
  predicate OfThePlan(s: State, slug: string, e: Event) {
    if e.task.Some? then InPlan(s, slug, e.task.value) else e.plan == None || e.plan == Some(slug)
  }

  /** `part` holds the events of `log` at the rising positions `at`, which are exactly those that `wanted` wants. */
  ghost predicate Picked(log: seq<Event>, part: seq<Event>, at: seq<nat>, wanted: Event -> bool) {
    && |part| == |at| && (forall i, j :: 0 <= i < j < |at| ==> at[i] < at[j])
    && (forall i :: 0 <= i < |at| ==> at[i] < |log| && part[i] == log[at[i]])
    && (forall k :: 0 <= k < |log| ==> (k in at <==> wanted(log[k])))
  }

  lemma PickedNext(log: seq<Event>, part: seq<Event>, at: seq<nat>, wanted: Event -> bool, e: Event)
    requires Picked(log, part, at, wanted)
    ensures if wanted(e) then Picked(log + [e], part + [e], at + [|log|], wanted) else Picked(log + [e], part, at, wanted)
  {
    var all := log + [e];
    assert all[|log|] == e && forall k :: 0 <= k < |log| ==> all[k] == log[k];
    assert forall i :: 0 <= i < |at| ==> at[i] != |log|;
    assert forall k :: k in at + [|log|] <==> k in at || k == |log|;
  }

  lemma {:induction false} KeptPicked(log: seq<Event>, numbers: set<nat>, slugs: set<string>, wanted: Event -> bool)
    returns (at: seq<nat>)
    requires forall e :: wanted(e) == Keeps(numbers, slugs, e)
    ensures Picked(log, KeptEvents(log, numbers, slugs), at, wanted)
    decreases |log|
  {
    if log == [] {
      at := [];
    } else {
      var n := |log| - 1;
      at := KeptPicked(log[..n], numbers, slugs, wanted);
      PickedNext(log[..n], KeptEvents(log[..n], numbers, slugs), at, wanted, log[n]);
      assert log == log[..n] + [log[n]];
      if wanted(log[n]) { at := at + [n]; }
    }
  }

  lemma OnePlanWanted(s: State, slug: string, d: Dump)
    requires IsExport(s, Some(slug), d) && ListsSlug(s.plans, slug)
    ensures SlugsOf(WantedPlans(s.plans, Some(slug))) == {slug}
    ensures forall e :: Keeps(NumbersOf(d.tasks), {slug}, e) <==> OfThePlan(s, slug, e)
  {
    var wanted := WantedPlans(s.plans, Some(slug));
    WantedAreStored(s.plans, Some(slug));
    var k :| 0 <= k < |s.plans| && s.plans[k].slug == slug;
    assert s.plans[k] in wanted;
    forall name ensures ListsSlug(wanted, name) <==> name == slug {
      if ListsSlug(wanted, name) {
        var i :| 0 <= i < |wanted| && wanted[i].slug == name;
        assert wanted[i] in wanted;
      }
      var i :| 0 <= i < |wanted| && wanted[i] == s.plans[k];
      assert ListsSlug(wanted, slug);
    }
    forall x: nat ensures x in NumbersOf(d.tasks) <==> InPlan(s, slug, x) {
      assert Dumped(d.tasks, x) <==> Chosen(s, Some(slug), x);
    }
  }

  /** A row brought back: as it was, in a plan of the same slug. */
  predicate SameElsewhere(s: State, u: State, x: nat) {
    && x in s.tasks && x in u.tasks && s.tasks[x].plan < |s.plans| && u.tasks[x].plan < |u.plans|
    && u.plans[u.tasks[x].plan].slug == s.plans[s.tasks[x].plan].slug
    && u.tasks[x] == s.tasks[x].(plan := u.tasks[x].plan)
  }

  lemma PlanIsCarried(s: State, slug: string, d: Dump)
    requires IsExport(s, Some(slug), d) && ListsSlug(s.plans, slug)
    ensures ListsSlug(d.plans, slug) && Restored(EMPTY, d).plans == d.plans
  {
    var wanted := WantedPlans(s.plans, Some(slug));
    var historical := HistoricalPlans(d.events);
    var carried := d.plans;
    assert WithHistoricalPlans(s, wanted, historical, carried);
    WantedAreStored(s.plans, Some(slug));
    AllPlansAreNew(carried);
    var k :| 0 <= k < |s.plans| && s.plans[k].slug == slug;
    assert s.plans[k] in wanted;
    var i :| 0 <= i < |wanted| && wanted[i] == s.plans[k];
    assert carried[i] == wanted[i];
  }

  lemma PlanComesBack(syntax: Syntax, s: State, slug: string, d: Dump, x: nat)
    requires Sound(syntax, s) && IsExport(s, Some(slug), d) && InPlan(s, slug, x)
    ensures SameElsewhere(s, Restored(EMPTY, d), x)
  {
    PlanIsCarried(s, slug, d);
    RestoredRow(syntax, s, Some(slug), d, x);
    var carried := d.plans;
    assert SlugOf(s, x) == slug && ListsSlug(carried, slug);
    assert FirstPlan(carried, slug) < |carried| && carried[FirstPlan(carried, slug)].slug == slug;
  }

  /** Exactly the plan's tasks, every field of them, and the dependencies between them. */
  ghost predicate TablesOfPlan(s: State, u: State, slug: string) {
    && (forall x :: x in u.tasks <==> InPlan(s, slug, x))
    && (forall x :: x in u.tasks ==> SameElsewhere(s, u, x))
    && (forall e :: e in u.deps <==> e in s.deps && InPlan(s, slug, e.0))
    && (forall e :: e in u.deps ==> InPlan(s, slug, e.1))
  }

  /** Exactly the plan's events, in their order and at the positions `at`, and one that tells of the import. */
  ghost predicate HistoryOfPlan(s: State, u: State, slug: string, at: seq<nat>) {
    && |u.log| > 0 && Picked(s.log, u.log[..|u.log| - 1], at, e => OfThePlan(s, slug, e))
    && u.log[|u.log| - 1].payload.Imported?
  }

  lemma TablesComeBack(syntax: Syntax, s: State, slug: string, d: Dump)
    requires Sound(syntax, s) && !CannotExport(s, Some(slug)) && IsExport(s, Some(slug), d)
    ensures TablesOfPlan(s, Restored(EMPTY, d), slug)
  {
    var u := Restored(EMPTY, d);
    ExportRefusesExactly(syntax, s, Some(slug));
    RestoredIsPart(syntax, s, Some(slug), d);
    forall x: nat ensures x in u.tasks <==> InPlan(s, slug, x) { assert x in u.tasks <==> Chosen(s, Some(slug), x); }
    forall x | x in u.tasks ensures SameElsewhere(s, u, x) { PlanComesBack(syntax, s, slug, d, x); }
  }

  lemma HistoryComesBack(syntax: Syntax, s: State, slug: string, c: Caller, d: Dump) returns (at: seq<nat>)
    requires Sound(syntax, s) && ListsSlug(s.plans, slug) && IsExport(s, Some(slug), d)
    ensures HistoryOfPlan(s, ImportedState(EMPTY, c, d), slug, at)
  {
    var u := ImportedState(EMPTY, c, d);
    OnePlanWanted(s, slug, d);
    KeptTexts(syntax, s, d, slug);
    at := KeptPicked(s.log, NumbersOf(d.tasks), {slug}, e => OfThePlan(s, slug, e));
    assert u.log == d.events + [ImportEvent(c, d)];
    assert u.log[..|u.log| - 1] == d.events;
  }

  /** Importing one exported plan of what an honest run built into an empty authority restores exactly the plan: its
      tasks with every field, their dependencies, and its events in their order with one that tells of the import. */
  lemma RunsRestoreOnePlan(syntax: Syntax, calls: seq<Call>, slug: string, c: Caller, d: Dump) returns (u: State, at: seq<nat>)
    requires forall i :: 0 <= i < |calls| ==> Honest(syntax, calls[i])
    requires var s := After(EMPTY, calls);
             ListsSlug(s.plans, slug) && !CannotExport(s, Some(slug)) && IsExport(s, Some(slug), d)
    requires ImportOutcome(syntax, EMPTY, c, d).Committed?
    ensures ImportOutcome(syntax, EMPTY, c, d) == Committed(u)
    ensures TablesOfPlan(After(EMPTY, calls), u, slug) && HistoryOfPlan(After(EMPTY, calls), u, slug, at)
  {
    var s := After(EMPTY, calls);
    RunSound(syntax, calls);
    TablesComeBack(syntax, s, slug, d);
    at := HistoryComesBack(syntax, s, slug, c, d);
    u := ImportedState(EMPTY, c, d);
    OnlyLogDiffers(s, Restored(EMPTY, d), u, slug);
  }

  lemma OnlyLogDiffers(s: State, r: State, u: State, slug: string)
    requires TablesOfPlan(s, r, slug) && u.tasks == r.tasks && u.deps == r.deps && u.plans == r.plans
    ensures TablesOfPlan(s, u, slug)
  {
    forall x | x in u.tasks ensures SameElsewhere(s, u, x) { assert SameElsewhere(s, r, x); }
  }

  lemma KeptTexts(syntax: Syntax, s: State, d: Dump, slug: string)
    requires Sound(syntax, s) && IsExport(s, Some(slug), d)
    ensures TrimmedEvents(d.events) == d.events
  {
    var numbers, slugs := NumbersOf(d.tasks), SlugsOf(WantedPlans(s.plans, Some(slug)));
    KeptAreLogged(s.log, numbers, slugs);
    forall e | e in d.events ensures EventTexts(syntax, e) {
      assert e in s.log;
      var i :| 0 <= i < |s.log| && s.log[i] == e;
    }
    EventsUntouched(syntax, d.events);
  }
}
