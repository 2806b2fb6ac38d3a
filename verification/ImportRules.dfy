/** What an import accepts, and the state it leaves. */
module ImportRules {
  import opened Basics
  import opened Graphs
  import opened Records
  import opened Review
  import opened Waiting
  import opened Invariants
  import opened Definition
  import opened Dumps
  import opened Exports

  /** Syntax checks the model leaves open: RFC 3339 times, evidence locators and model identifiers. */
  datatype Syntax = Syntax(time: string -> bool, locator: string -> bool, model: string -> bool)

  // ---- texts ----

  predicate ValidDigest(digest: string) {
    |digest| == 64 && forall c :: c in digest ==> '0' <= c <= '9' || 'a' <= c <= 'f'
  }

  predicate AuthorOk(syntax: Syntax, a: Author) {
    && !Blank(a.actor)
    && (a.session.Some? ==> ValidSession(a.session.value))
    && (a.model.Some? ==> syntax.model(a.model.value))
    && (a.modelSource.Some? ==> a.modelSource.value in ["flag", "environment", "runtime"])
  }

  /** An open gate carries no outcome, a resolved one its evidence, a waived one its reason. */
  predicate GateOk(syntax: Syntax, g: Gate) {
    && !Blank(g.name) && !Blank(g.requirement)
    && match g.status
       case Open => g.evidence.None? && g.digest.None? && g.resolvedAt.None?
       case Resolved =>
         && g.evidence.Some? && syntax.locator(g.evidence.value)
         && (g.digest.Some? ==> ValidDigest(g.digest.value))
         && g.resolvedAt.Some? && syntax.time(Trim(g.resolvedAt.value))
       case Waived =>
         && g.note.Some? && !Blank(g.note.value) && g.evidence.None? && g.digest.None?
         && g.resolvedAt.Some? && syntax.time(Trim(g.resolvedAt.value))
  }

  predicate PickupOk(syntax: Syntax, status: Status, pickup: Option<Pickup>) {
    pickup.Some? ==>
      && status.InProgress?
      && (pickup.value.session.Some? ==> ValidSession(pickup.value.session.value))
      && syntax.time(pickup.value.at)
  }

  // ---- plans ----

  /** A plan definition is usable when it is new or agrees with the stored one. */
  predicate PlanFits(stored: seq<Plan>, p: Plan) {
    && !Blank(p.slug) && !Blank(p.title)
    && var at := FirstPlan(stored, p.slug); at < |stored| ==> stored[at] == p
  }

  predicate DistinctSlugs(plans: seq<Plan>) {
    forall i, j :: 0 <= i < j < |plans| ==> plans[i].slug != plans[j].slug
  }

  predicate PlansFit(stored: seq<Plan>, plans: seq<Plan>) {
    DistinctSlugs(plans) && forall p :: p in plans ==> PlanFits(stored, p)
  }

  /** New definitions are stored behind the existing ones. */
  function WithPlans(stored: seq<Plan>, plans: seq<Plan>): seq<Plan> {
    if plans == [] then stored
    else
      var p, rest := plans[|plans| - 1], WithPlans(stored, plans[..|plans| - 1]);
      if ListsSlug(stored, p.slug) then rest else rest + [p]
  }

  // ---- numbers ----

  /** Explicit numbers are stable; omitted ones count up from `next`. */
  function Assign(tasks: seq<TaskDump>, next: nat): (numbers: seq<nat>)
    ensures |numbers| == |tasks|
  {
    if tasks == [] then []
    else if tasks[0].seqno.Some? then [tasks[0].seqno.value] + Assign(tasks[1..], next)
    else [next] + Assign(tasks[1..], next + 1)
  }

  predicate ExplicitNumbersFit(stored: map<nat, Task>, tasks: seq<TaskDump>) {
    && (forall i :: 0 <= i < |tasks| && tasks[i].seqno.Some? ==>
          tasks[i].seqno.value > 0 && tasks[i].seqno.value !in stored)
    && (forall i, j :: 0 <= i < j < |tasks| && tasks[i].seqno.Some? ==> tasks[j].seqno != tasks[i].seqno)
  }

  /** One above every stored and every explicit number. */
  ghost function FirstFree(stored: map<nat, Task>, tasks: seq<TaskDump>): nat {
    MaxOf(stored.Keys + NumbersOf(tasks)) + 1
  }

  ghost function Numbers(t: State, d: Dump): seq<nat> { Assign(d.tasks, FirstFree(t.tasks, d.tasks)) }

  // ---- rows ----

  predicate RowFits(syntax: Syntax, plans: seq<Plan>, td: TaskDump) {
    && ValidTitle(td.title) && ListsSlug(plans, td.plan)
    && (td.status.Done? ==> forall gate :: gate in td.gates ==> !gate.status.Open?)
    && (td.status.Done? && RequiresResult(td.kind) ==> HasResult(td.result))
    && PickupOk(syntax, td.status, td.pickup)
    && (forall gate :: gate in td.gates ==> GateOk(syntax, gate))
    && UniqueGates(td.gates)
  }

  function TrimmedGate(g: Gate): Gate {
    g.(resolvedAt := if g.resolvedAt.Some? then Some(Trim(g.resolvedAt.value)) else None)
  }

  function TrimmedGates(gates: seq<Gate>): (r: seq<Gate>)
    ensures |r| == |gates| && forall i :: 0 <= i < |gates| ==> r[i] == TrimmedGate(gates[i])
  {
    seq(|gates|, i requires 0 <= i < |gates| => TrimmedGate(gates[i]))
  }

  function RowAt(plans: seq<Plan>, td: TaskDump, linked: bool): Task {
    Task(FirstPlan(plans, td.plan), if linked then td.parent else None, if linked then td.replacement else None,
         td.title, td.intent, td.kind, td.result, td.status, td.priority, td.pickup, TrimmedGates(td.gates))
  }

  /** The table after the first n rows are inserted and the first `linked` of them have their links. */
  ghost predicate Inserted(rows: map<nat, Task>, stored: map<nat, Task>, plans: seq<Plan>, tasks: seq<TaskDump>,
                           numbers: seq<nat>, n: nat, linked: nat)
    requires |numbers| == |tasks| && n <= |tasks|
  {
    && (forall x :: x in rows <==> x in stored || x in numbers[..n])
    && (forall x :: x in stored ==> x in rows && rows[x] == stored[x])
    && (forall k :: 0 <= k < n ==> numbers[k] in rows && rows[numbers[k]] == RowAt(plans, tasks[k], k < linked))
  }

  function IndexOf(numbers: seq<nat>, x: nat): (k: nat)
    ensures k <= |numbers| && (k < |numbers| <==> x in numbers) && (k < |numbers| ==> numbers[k] == x)
  {
    if numbers == [] then 0
    else if numbers[0] == x then 0
    else
      var k := IndexOf(numbers[1..], x);
      assert x in numbers[1..] <==> x in numbers;
      1 + k
  }

  ghost function RowsWith(stored: map<nat, Task>, plans: seq<Plan>, tasks: seq<TaskDump>, numbers: seq<nat>): map<nat, Task>
    requires |numbers| == |tasks|
  {
    map x | x in stored.Keys + Members(numbers) ::
      if x in stored then stored[x] else RowAt(plans, tasks[IndexOf(numbers, x)], true)
  }

  ghost function Members(numbers: seq<nat>): (m: set<nat>)
    ensures forall x :: x in m <==> x in numbers
  {
    set x | x in numbers
  }

  /** The insertions determine the table. */
  lemma InsertedIsRowsWith(rows: map<nat, Task>, stored: map<nat, Task>, plans: seq<Plan>, tasks: seq<TaskDump>, numbers: seq<nat>)
    requires |numbers| == |tasks| && Distinct(numbers)
    requires Inserted(rows, stored, plans, tasks, numbers, |tasks|, |tasks|)
    ensures rows == RowsWith(stored, plans, tasks, numbers)
  {
    TakeAll(numbers);
    var whole := RowsWith(stored, plans, tasks, numbers);
    forall x | x in rows ensures x in whole && rows[x] == whole[x] {
      if x !in stored { assert rows[numbers[IndexOf(numbers, x)]] == RowAt(plans, tasks[IndexOf(numbers, x)], true); }
    }
  }

  // ---- links ----

  function EdgesOf(x: nat, deps: seq<nat>): (g: Graph)
    ensures forall e :: e in g <==> e.0 == x && e.1 in deps
  {
    set on | on in deps :: (x, on)
  }

  function DumpEdges(tasks: seq<TaskDump>, numbers: seq<nat>): Graph
    requires |numbers| == |tasks|
  {
    if tasks == [] then {}
    else
      var n := |tasks| - 1;
      DumpEdges(tasks[..n], numbers[..n]) + EdgesOf(numbers[n], tasks[n].deps)
  }

  function EdgeCount(tasks: seq<TaskDump>): nat {
    if tasks == [] then 0 else EdgeCount(tasks[..|tasks| - 1]) + |tasks[|tasks| - 1].deps|
  }

  predicate SamePlan(tasks: seq<TaskDump>, numbers: seq<nat>, x: nat, plan: string)
    requires |numbers| == |tasks|
  {
    x in numbers && tasks[IndexOf(numbers, x)].plan == plan
  }

  /** References stay within the dump; parents and replacements within the plan. */
  predicate LinksFit(tasks: seq<TaskDump>, numbers: seq<nat>, k: nat)
    requires |numbers| == |tasks| && k < |tasks|
  {
    var td := tasks[k];
    && (td.parent.Some? ==> SamePlan(tasks, numbers, td.parent.value, td.plan))
    && (td.replacement.Some? ==>
          td.status.Retired? && td.replacement.value != numbers[k] && SamePlan(tasks, numbers, td.replacement.value, td.plan))
    && (forall on :: on in td.deps ==> on in numbers) && Distinct(td.deps)
  }

  // ---- the whole authority afterwards ----

  /** Tasks, links and plans as imported, before any event is restored. */
  ghost function Restored(t: State, d: Dump): State {
    var plans := WithPlans(t.plans, d.plans);
    State(plans, RowsWith(t.tasks, plans, d.tasks, Numbers(t, d)), t.deps + DumpEdges(d.tasks, Numbers(t, d)), t.log)
  }

  /** No replacement leads to a rejected task or to one retired for good. */
  ghost predicate ChainsGoOn(s: State) {
    forall x :: x in s.tasks && s.tasks[x].replacement.Some? && s.tasks[x].replacement.value in s.tasks ==>
      ChainGoesOn(s.tasks[s.tasks[x].replacement.value])
  }

  /** Nothing holds a done task: no open prerequisite, external gate or disputed result, and no unfinished child. */
  ghost predicate DoneFreely(s: State, x: nat) {
    x in s.tasks && s.tasks[x].status.Done? ==>
      && (forall d :: d in s.tasks ==> !OpenDep(s, x, d))
      && !OpenExternal(s.tasks[x]) && Undisputed(s, x) && NoLiveChild(s, x)
  }

  ghost predicate WholeFits(u: State) {
    Acyclic(Parents(u)) && Acyclic(Replacements(u)) && ChainsGoOn(u) && forall x :: x in u.tasks ==> DoneFreely(u, x)
  }

  // ---- events ----

  predicate EventFits(syntax: Syntax, d: Dump, numbers: seq<nat>, e: Event) {
    && AuthorOk(syntax, e.author) && !Blank(e.at) && syntax.time(Trim(e.at))
    && (if e.entity.PlanEntity? then e.plan.Some? ==> ListsSlug(d.plans, e.plan.value)
        else e.task.Some? && e.task.value in numbers && e.plan.Some?)
    && (e.entity.GateEntity? ==> e.gate.Some?)
  }

  function TrimmedEvents(events: seq<Event>): (r: seq<Event>)
    ensures |r| == |events| && forall i :: 0 <= i < |events| ==> r[i] == events[i].(at := Trim(events[i].at))
  {
    seq(|events|, i requires 0 <= i < |events| => events[i].(at := Trim(events[i].at)))
  }

  function ImportEvent(c: Caller, d: Dump): Event {
    Event(c.at, c.author, PlanEntity, None, None, None, None, Imported(|d.tasks|, EdgeCount(d.tasks), |d.events|))
  }

  // ---- acceptance ----

  /** Plans, numbers, rows and links are usable, each on its own. */
  ghost predicate TablesFit(syntax: Syntax, t: State, d: Dump) {
    && PlansFit(t.plans, d.plans)
    && ExplicitNumbersFit(t.tasks, d.tasks)
    && (forall td :: td in d.tasks ==> RowFits(syntax, WithPlans(t.plans, d.plans), td))
    && (forall k :: 0 <= k < |d.tasks| ==> LinksFit(d.tasks, Numbers(t, d), k))
    && Acyclic(DumpEdges(d.tasks, Numbers(t, d)))
  }

  ghost predicate Accepts(syntax: Syntax, t: State, d: Dump) {
    && TablesFit(syntax, t, d)
    && WholeFits(Restored(t, d))
    && PlanHistoryOk(d)
    && forall e :: e in d.events ==> EventFits(syntax, d, Numbers(t, d), e)
  }

  ghost function ImportedState(t: State, c: Caller, d: Dump): State {
    Restored(t, d).(log := t.log + TrimmedEvents(d.events) + [ImportEvent(c, d)])
  }

  ghost function ImportOutcome(syntax: Syntax, t: State, c: Caller, d: Dump): Outcome {
    if Accepts(syntax, t, d) then Committed(ImportedState(t, c, d)) else Refused(InvalidDump)
  }

  // ---- the numbers ----

  lemma {:induction false} AssignedNumbers(stored: map<nat, Task>, tasks: seq<TaskDump>, next: nat)
    requires ExplicitNumbersFit(stored, tasks)
    requires forall x: nat :: x in stored || Dumped(tasks, x) ==> x < next
    ensures var numbers := Assign(tasks, next);
            && Distinct(numbers)
            && (forall k :: 0 <= k < |tasks| ==>
                  && numbers[k] !in stored
                  && (if tasks[k].seqno.Some? then tasks[k].seqno == Some(numbers[k]) else numbers[k] >= next))
    decreases |tasks|
  {
    if tasks != [] {
      var rest := tasks[1..];
      assert forall i :: 0 <= i < |rest| ==> rest[i] == tasks[i + 1];
      forall x: nat | Dumped(rest, x) ensures Dumped(tasks, x) {
        var k :| 0 <= k < |rest| && rest[k].seqno == Some(x);
        assert tasks[k + 1].seqno == Some(x);
      }
      var later := if tasks[0].seqno.Some? then next else next + 1;
      AssignedNumbers(stored, rest, later);
      var first, others := Assign(tasks, next)[0], Assign(rest, later);
      forall k | 0 <= k < |others| ensures others[k] != first {
        if tasks[0].seqno.Some? { assert Dumped(tasks, first); }
        if rest[k].seqno.Some? { assert Dumped(rest, others[k]); }
      }
    }
  }

  /** Every dumped task gets its own number, the explicit ones unchanged, and none collides with a stored task. */
  lemma NumbersFit(t: State, d: Dump)
    requires ExplicitNumbersFit(t.tasks, d.tasks)
    ensures var numbers := Numbers(t, d);
            && Distinct(numbers)
            && (forall k :: 0 <= k < |d.tasks| ==>
                  && numbers[k] !in t.tasks && numbers[k] > 0
                  && (d.tasks[k].seqno.Some? ==> d.tasks[k].seqno == Some(numbers[k])))
  {
    AssignedNumbers(t.tasks, d.tasks, FirstFree(t.tasks, d.tasks));
  }
}
