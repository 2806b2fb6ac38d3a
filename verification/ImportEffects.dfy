/** What an accepted import adds to whatever was stored, said over the stored tables and the dump alone. */
module ImportEffects {
  import opened Basics
  import opened Graphs
  import opened Records
  import opened Review
  import opened Dumps
  import opened Exports
  import opened ImportRules

  // ---- numbers ----

  /** How many of the first k tasks carry no number of their own. */
  function Unnumbered(tasks: seq<TaskDump>, k: nat): nat
    requires k <= |tasks|
  {
    if k == 0 then 0 else Unnumbered(tasks, k - 1) + if tasks[k - 1].seqno.None? then 1 else 0
  }

  /** The first number above every stored and every explicit one. */
  ghost predicate FirstAbove(t: State, d: Dump, first: nat) {
    && first > 0 && (forall x: nat :: x in t.tasks || Dumped(d.tasks, x) ==> x < first)
    && (first > 1 ==> first - 1 in t.tasks || Dumped(d.tasks, first - 1))
  }

  /** Every dumped task has its own number, which no stored task has: its explicit one, or the next of those that count
      up from `first`. */
  ghost predicate Numbered(t: State, d: Dump, numbers: seq<nat>, first: nat) {
    && |numbers| == |d.tasks| && Distinct(numbers) && FirstAbove(t, d, first)
    && forall k :: 0 <= k < |numbers| ==>
         && numbers[k] > 0 && numbers[k] !in t.tasks
         && numbers[k] == if d.tasks[k].seqno.Some? then d.tasks[k].seqno.value else first + Unnumbered(d.tasks, k)
  }

  lemma {:induction false} UnnumberedRest(tasks: seq<TaskDump>, k: nat)
    requires 0 < k <= |tasks|
    ensures Unnumbered(tasks, k) == Unnumbered(tasks[1..], k - 1) + if tasks[0].seqno.None? then 1 else 0
    decreases k
  {
    if k > 1 { UnnumberedRest(tasks, k - 1); }
  }

  lemma {:induction false} AssignedAt(tasks: seq<TaskDump>, next: nat, k: nat)
    requires k < |tasks|
    ensures Assign(tasks, next)[k] == if tasks[k].seqno.Some? then tasks[k].seqno.value else next + Unnumbered(tasks, k)
    decreases |tasks|
  {
    if k > 0 {
      AssignedAt(tasks[1..], if tasks[0].seqno.Some? then next else next + 1, k - 1);
      UnnumberedRest(tasks, k);
    }
  }

  lemma FirstAsSaid(t: State, d: Dump)
    ensures FirstAbove(t, d, FirstFree(t.tasks, d.tasks))
  {
    var taken := t.tasks.Keys + NumbersOf(d.tasks);
    forall x: nat | x in t.tasks || Dumped(d.tasks, x) ensures x < FirstFree(t.tasks, d.tasks) { assert x in taken; }
    if taken != {} { assert MaxOf(taken) in taken; }
  }

  lemma NumbersAsSaid(t: State, d: Dump)
    requires ExplicitNumbersFit(t.tasks, d.tasks)
    ensures Numbered(t, d, Numbers(t, d), FirstFree(t.tasks, d.tasks))
  {
    NumbersFit(t, d);
    FirstAsSaid(t, d);
    forall k | 0 <= k < |d.tasks| { AssignedAt(d.tasks, FirstFree(t.tasks, d.tasks), k); }
  }

  // ---- plans ----

  predicate StoredSlug(plans: seq<Plan>, slug: string) { exists i :: 0 <= i < |plans| && plans[i].slug == slug }

  /** The stored plans come first, unchanged; behind them the dump's new plans in the dump's order: those at `added`. */
  predicate PlansAdded(stored: seq<Plan>, dumped: seq<Plan>, plans: seq<Plan>, added: seq<nat>) {
    && |plans| == |stored| + |added| && stored <= plans
    && (forall i :: 0 <= i < |added| ==> added[i] < |dumped| && plans[|stored| + i] == dumped[added[i]])
    && (forall i, j :: 0 <= i < j < |added| ==> added[i] < added[j])
    && (forall k :: 0 <= k < |dumped| ==> (k in added <==> !StoredSlug(stored, dumped[k].slug)))
  }

  lemma OnePlanMore(stored: seq<Plan>, dumped: seq<Plan>, plans: seq<Plan>, added: seq<nat>, p: Plan)
    requires PlansAdded(stored, dumped, plans, added)
    ensures StoredSlug(stored, p.slug) ==> PlansAdded(stored, dumped + [p], plans, added)
    ensures !StoredSlug(stored, p.slug) ==> PlansAdded(stored, dumped + [p], plans + [p], added + [|dumped|])
  {
    assert forall i :: 0 <= i < |added| ==> added[i] != |dumped|;
    assert (dumped + [p])[|dumped|] == p && forall k :: 0 <= k < |dumped| ==> (dumped + [p])[k] == dumped[k];
    var more := added + [|dumped|];
    assert forall k :: k in more <==> k in added || k == |dumped|;
  }

  lemma {:induction false} PlansAsSaid(stored: seq<Plan>, dumped: seq<Plan>) returns (added: seq<nat>)
    ensures PlansAdded(stored, dumped, WithPlans(stored, dumped), added)
    decreases |dumped|
  {
    if dumped == [] {
      added := [];
    } else {
      var n := |dumped| - 1;
      added := PlansAsSaid(stored, dumped[..n]);
      OnePlanMore(stored, dumped[..n], WithPlans(stored, dumped[..n]), added, dumped[n]);
      assert dumped == dumped[..n] + [dumped[n]];
      if !StoredSlug(stored, dumped[n].slug) { added := added + [n]; }
    }
  }

  // ---- rows and edges ----

  /** The stored row of a dumped task: every field as dumped, its plan found by slug, gate times trimmed. */
  predicate RowRestored(v: Task, td: TaskDump, plans: seq<Plan>) {
    && v.plan < |plans| && plans[v.plan].slug == td.plan
    && v.parent == td.parent && v.replacement == td.replacement && v.title == td.title && v.intent == td.intent
    && v.kind == td.kind && v.result == td.result && v.status == td.status && v.priority == td.priority
    && v.pickup == td.pickup && |v.gates| == |td.gates|
    && forall i :: 0 <= i < |v.gates| ==> GateRestored(v.gates[i], td.gates[i])
  }

  predicate GateRestored(v: Gate, g: Gate) {
    && v.name == g.name && v.kind == g.kind && v.requirement == g.requirement && v.status == g.status
    && v.evidence == g.evidence && v.digest == g.digest && v.note == g.note
    && v.resolvedAt == if g.resolvedAt.Some? then Some(Trim(g.resolvedAt.value)) else None
  }

  /** Every stored row as it was, and one row per dumped task. */
  ghost predicate RowsAdded(t: State, u: State, d: Dump, numbers: seq<nat>) {
    && |numbers| == |d.tasks|
    && (forall x :: x in u.tasks <==> x in t.tasks || x in numbers)
    && (forall x :: x in t.tasks ==> x in u.tasks && u.tasks[x] == t.tasks[x])
    && (forall k :: 0 <= k < |numbers| ==>
         numbers[k] in u.tasks && RowRestored(u.tasks[numbers[k]], d.tasks[k], u.plans))
  }

  /** Dumped task k depends on the task numbered `on`. */
  predicate EdgeDumped(d: Dump, numbers: seq<nat>, k: nat, x: nat, on: nat) {
    k < |d.tasks| && k < |numbers| && numbers[k] == x && on in d.tasks[k].deps
  }

  /** Every stored edge, and exactly those of the dumped tasks. */
  ghost predicate EdgesAdded(t: State, u: State, d: Dump, numbers: seq<nat>) {
    forall x: nat, on: nat :: (x, on) in u.deps <==> (x, on) in t.deps || exists k :: EdgeDumped(d, numbers, k, x, on)
  }

  lemma {:induction false} EdgesAsSaid(d: Dump, tasks: seq<TaskDump>, numbers: seq<nat>, x: nat, on: nat)
    requires |numbers| == |tasks|
    ensures (x, on) in DumpEdges(tasks, numbers) <==>
            exists k :: EdgeDumped(Dump(d.plans, tasks, d.events), numbers, k, x, on)
    decreases |tasks|
  {
    var whole := Dump(d.plans, tasks, d.events);
    if tasks == [] {
      forall k ensures !EdgeDumped(whole, numbers, k, x, on) { }
    } else {
      var n := |tasks| - 1;
      var part := Dump(d.plans, tasks[..n], d.events);
      EdgesAsSaid(d, tasks[..n], numbers[..n], x, on);
      forall k ensures EdgeDumped(whole, numbers, k, x, on) <==>
                       || EdgeDumped(part, numbers[..n], k, x, on)
                       || (k == n && numbers[n] == x && on in tasks[n].deps) { }
      if numbers[n] == x && on in tasks[n].deps { assert EdgeDumped(whole, numbers, n, x, on); }
      if k :| EdgeDumped(part, numbers[..n], k, x, on) { assert EdgeDumped(whole, numbers, k, x, on); }
    }
  }

  // ---- history ----

  /** The stored history, then the dump's in order with trimmed times, then one event that tells of the import. */
  predicate HistoryAdded(t: State, u: State, c: Caller, d: Dump) {
    && |u.log| == |t.log| + |d.events| + 1 && t.log <= u.log
    && (forall i :: 0 <= i < |d.events| ==> u.log[|t.log| + i] == d.events[i].(at := Trim(d.events[i].at)))
    && var told := u.log[|u.log| - 1];
       && told == Event(c.at, c.author, PlanEntity, None, None, None, None, told.payload)
       && told.payload.Imported? && told.payload.tasks == |d.tasks| && told.payload.events == |d.events|
       && told.payload.edges == DependencyCount(d.tasks)
  }

  function DependencyCount(tasks: seq<TaskDump>): nat {
    if tasks == [] then 0 else |tasks[0].deps| + DependencyCount(tasks[1..])
  }

  lemma {:induction false} CountedFromFront(tasks: seq<TaskDump>)
    ensures EdgeCount(tasks) == DependencyCount(tasks)
    decreases |tasks|
  {
    if |tasks| > 1 {
      var n := |tasks| - 1;
      CountedFromFront(tasks[1..]);
      CountedFromFront(tasks[..n]);
      CountedFromFront(tasks[1..][..n - 1]);
      assert tasks[1..][..n - 1] == tasks[..n][1..];
    }
  }

  lemma HistoryAsSaid(t: State, c: Caller, d: Dump)
    ensures HistoryAdded(t, ImportedState(t, c, d), c, d)
  {
    CountedFromFront(d.tasks);
    var u := ImportedState(t, c, d);
    forall i | 0 <= i < |d.events| ensures u.log[|t.log| + i] == d.events[i].(at := Trim(d.events[i].at)) {
      assert u.log[|t.log| + i] == TrimmedEvents(d.events)[i];
    }
  }

  lemma PlanOfRow(syntax: Syntax, t: State, d: Dump, k: nat)
    requires TablesFit(syntax, t, d) && k < |d.tasks|
    ensures var u, x := Restored(t, d), Numbers(t, d)[k];
            x in u.tasks && u.tasks[x] == RowAt(u.plans, d.tasks[k], true) && u.tasks[x].plan < |u.plans|
  {
    var u, numbers := Restored(t, d), Numbers(t, d);
    NumbersFit(t, d);
    assert numbers[k] in numbers && IndexOf(numbers, numbers[k]) == k;
    assert d.tasks[k] in d.tasks && RowFits(syntax, u.plans, d.tasks[k]);
  }

  lemma RowIsRestored(plans: seq<Plan>, td: TaskDump)
    requires FirstPlan(plans, td.plan) < |plans|
    ensures RowRestored(RowAt(plans, td, true), td, plans)
  {
  }

  lemma RowsAsSaid(syntax: Syntax, t: State, d: Dump)
    requires TablesFit(syntax, t, d)
    ensures RowsAdded(t, Restored(t, d), d, Numbers(t, d))
  {
    var u, numbers := Restored(t, d), Numbers(t, d);
    NumbersFit(t, d);
    forall k | 0 <= k < |numbers|
      ensures numbers[k] in u.tasks && RowRestored(u.tasks[numbers[k]], d.tasks[k], u.plans)
    {
      PlanOfRow(syntax, t, d, k);
      RowIsRestored(u.plans, d.tasks[k]);
    }
  }

  lemma EdgesAdd(t: State, d: Dump)
    ensures EdgesAdded(t, Restored(t, d), d, Numbers(t, d))
  {
    var u, numbers := Restored(t, d), Numbers(t, d);
    forall x: nat, on: nat
      ensures (x, on) in u.deps <==> (x, on) in t.deps || exists k :: EdgeDumped(d, numbers, k, x, on)
    {
      EdgesAsSaid(d, d.tasks, numbers, x, on);
    }
  }

  /** Whatever was stored and whatever the dump, an accepted import keeps every stored plan, task, edge and event, adds
      exactly the dump's new plans, its tasks under their numbers with every field, and its edges, and appends its
      events and one that tells of the import. */
  lemma ImportAddsExactly(syntax: Syntax, t: State, c: Caller, d: Dump)
    returns (u: State, numbers: seq<nat>, first: nat, added: seq<nat>)
    requires ImportOutcome(syntax, t, c, d).Committed?
    ensures ImportOutcome(syntax, t, c, d) == Committed(u)
    ensures PlansAdded(t.plans, d.plans, u.plans, added) && Numbered(t, d, numbers, first)
    ensures RowsAdded(t, u, d, numbers) && EdgesAdded(t, u, d, numbers) && HistoryAdded(t, u, c, d)
  {
    u, numbers, first := ImportedState(t, c, d), Numbers(t, d), FirstFree(t.tasks, d.tasks);
    added := PlansAsSaid(t.plans, d.plans);
    NumbersAsSaid(t, d);
    RowsAsSaid(syntax, t, d);
    EdgesAdd(t, d);
    HistoryAsSaid(t, c, d);
    OnlyLogDiffers(t, Restored(t, d), u, d, numbers);
  }

  lemma OnlyLogDiffers(t: State, r: State, u: State, d: Dump, numbers: seq<nat>)
    requires RowsAdded(t, r, d, numbers) && EdgesAdded(t, r, d, numbers)
    requires u.tasks == r.tasks && u.deps == r.deps && u.plans == r.plans
    ensures RowsAdded(t, u, d, numbers) && EdgesAdded(t, u, d, numbers)
  {
  }

  // ---- what the added rows are like ----

  /** An open gate carries no outcome, a resolved one its evidence, a waived one its reason; settled ones their time. */
  predicate GateCoherent(g: Gate) {
    && Trim(g.name) != "" && Trim(g.requirement) != ""
    && (g.status == Open ==> g.evidence == None && g.digest == None && g.resolvedAt == None)
    && (g.status == Resolved ==> g.evidence.Some? && g.resolvedAt.Some?)
    && (g.status == Waived ==>
         g.note.Some? && Trim(g.note.value) != "" && g.evidence == None && g.digest == None && g.resolvedAt.Some?)
  }

  /** A row as sound as one the planner makes itself, with links that stay in the dump and in the plan. */
  predicate RowSound(u: State, numbers: seq<nat>, x: nat) {
    x in u.tasks && var v := u.tasks[x];
    && 1 <= |Trim(v.title)| <= 160 && v.plan < |u.plans|
    && (forall i, j :: 0 <= i < j < |v.gates| ==> v.gates[i].name != v.gates[j].name)
    && (forall gate :: gate in v.gates ==> GateCoherent(gate))
    && (v.status == Done ==> forall gate :: gate in v.gates ==> gate.status != Open)
    && (v.status == Done && v.kind in {Probe, Decision, Bug} ==> v.result.Some? && Trim(v.result.value) != "")
    && (v.pickup.Some? ==> v.status == InProgress)
    && (v.parent.Some? ==>
         v.parent.value in numbers && v.parent.value in u.tasks && u.tasks[v.parent.value].plan == v.plan)
    && (v.replacement.Some? ==> && v.status == Retired && v.replacement.value != x && v.replacement.value in numbers
                                && v.replacement.value in u.tasks && u.tasks[v.replacement.value].plan == v.plan)
  }

  lemma GateStaysCoherent(syntax: Syntax, v: Gate, g: Gate)
    requires GateOk(syntax, g) && GateRestored(v, g)
    ensures GateCoherent(v)
  {
  }

  lemma LinkOfRow(syntax: Syntax, t: State, d: Dump, k: nat, y: nat)
    requires TablesFit(syntax, t, d) && k < |d.tasks| && SamePlan(d.tasks, Numbers(t, d), y, d.tasks[k].plan)
    ensures var u := Restored(t, d);
            y in Numbers(t, d) && y in u.tasks && u.tasks[y].plan == FirstPlan(u.plans, d.tasks[k].plan)
  {
    PlanOfRow(syntax, t, d, IndexOf(Numbers(t, d), y));
  }

  lemma GatesOfRow(syntax: Syntax, t: State, d: Dump, k: nat)
    requires TablesFit(syntax, t, d) && k < |d.tasks|
    ensures var gates := RowAt(Restored(t, d).plans, d.tasks[k], true).gates;
            && (forall i, j :: 0 <= i < j < |gates| ==> gates[i].name != gates[j].name)
            && (forall gate :: gate in gates ==> GateCoherent(gate))
            && (d.tasks[k].status == Done ==> forall gate :: gate in gates ==> gate.status != Open)
  {
    var td, plans := d.tasks[k], Restored(t, d).plans;
    assert td in d.tasks && RowFits(syntax, plans, td);
    var gates := RowAt(plans, td, true).gates;
    forall gate | gate in gates ensures GateCoherent(gate) && (td.status == Done ==> gate.status != Open) {
      var i :| 0 <= i < |gates| && gates[i] == gate;
      assert td.gates[i] in td.gates;
      GateStaysCoherent(syntax, gate, td.gates[i]);
    }
  }

  /** Whoever is named as an author has a name, and a session, model and model source that read as such. */
  predicate AuthorReads(syntax: Syntax, a: Author) {
    && Trim(a.actor) != "" && (a.session.Some? ==> ValidSession(a.session.value))
    && (a.model.Some? ==> syntax.model(a.model.value))
    && (a.modelSource.Some? ==> a.modelSource.value in {"flag", "environment", "runtime"})
  }

  /** Every event an accepted import adds reads, and is about an added task, or names a plan of the dump or none. */
  lemma AddedEventsAreBound(syntax: Syntax, t: State, d: Dump, i: nat)
    requires Accepts(syntax, t, d) && i < |d.events|
    ensures var e := d.events[i];
            && AuthorReads(syntax, e.author) && Trim(e.at) != "" && syntax.time(Trim(e.at))
            && (if e.entity == PlanEntity then e.plan.Some? ==> StoredSlug(d.plans, e.plan.value)
                else e.task.Some? && e.task.value in Numbers(t, d) && e.plan.Some?)
            && (e.entity == GateEntity ==> e.gate.Some?)
  {
    assert d.events[i] in d.events && EventFits(syntax, d, Numbers(t, d), d.events[i]);
  }

  /** A dump's plans have slugs and titles, no slug twice, and where a plan of that slug is stored it is the same plan. */
  lemma AddedPlansAgree(syntax: Syntax, t: State, d: Dump, k: nat)
    requires Accepts(syntax, t, d) && k < |d.plans|
    ensures Trim(d.plans[k].slug) != "" && Trim(d.plans[k].title) != ""
    ensures forall j :: 0 <= j < |d.plans| && j != k ==> d.plans[j].slug != d.plans[k].slug
    ensures StoredSlug(t.plans, d.plans[k].slug) ==> d.plans[k] in t.plans
  {
    assert d.plans[k] in d.plans && PlanFits(t.plans, d.plans[k]);
    assert forall i, j :: 0 <= i < j < |d.plans| ==> d.plans[i].slug != d.plans[j].slug;
    if StoredSlug(t.plans, d.plans[k].slug) { assert ListsSlug(t.plans, d.plans[k].slug); }
  }

  /** The texts of an added row read: its pickup, and the outcomes of its gates. */
  lemma AddedTextsRead(syntax: Syntax, t: State, d: Dump, k: nat)
    requires Accepts(syntax, t, d) && k < |d.tasks|
    ensures var td := d.tasks[k];
            && (td.pickup.Some? ==> syntax.time(td.pickup.value.at)
                                    && (td.pickup.value.session.Some? ==> ValidSession(td.pickup.value.session.value)))
            && forall gate :: gate in td.gates && gate.status != Open ==>
                 && gate.resolvedAt.Some? && syntax.time(Trim(gate.resolvedAt.value))
                 && (gate.status == Resolved ==> && gate.evidence.Some? && syntax.locator(gate.evidence.value)
                                                 && (gate.digest.Some? ==> ValidDigest(gate.digest.value)))
  {
    assert d.tasks[k] in d.tasks && RowFits(syntax, WithPlans(t.plans, d.plans), d.tasks[k]);
    forall gate | gate in d.tasks[k].gates ensures GateOk(syntax, gate) { }
  }

  /** Whatever the dump, every row an accepted import adds is as sound as one the planner makes itself, and its
      dependencies stay in the dump. */
  lemma AddedRowsAreSound(syntax: Syntax, t: State, d: Dump, k: nat)
    requires TablesFit(syntax, t, d) && k < |d.tasks|
    ensures RowSound(Restored(t, d), Numbers(t, d), Numbers(t, d)[k])
    ensures forall on :: on in d.tasks[k].deps ==> on in Numbers(t, d)
  {
    var u, td := Restored(t, d), d.tasks[k];
    PlanOfRow(syntax, t, d, k);
    GatesOfRow(syntax, t, d, k);
    assert td in d.tasks && RowFits(syntax, u.plans, td) && LinksFit(d.tasks, Numbers(t, d), k);
    if td.parent.Some? { LinkOfRow(syntax, t, d, k, td.parent.value); }
    if td.replacement.Some? { LinkOfRow(syntax, t, d, k, td.replacement.value); }
  }
}
