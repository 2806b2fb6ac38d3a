/** What the database itself guarantees of stored tables, and that every write keeps it. */
module Storage {
  import opened Basics
  import opened Graphs
  import opened Records
  import opened Waiting
  import opened Lifecycle
  import opened Definition
  import opened DefinitionSafety
  import opened Dumps
  import opened ImportRules
  import opened Imports
  import opened Invariants

  /** Links join stored tasks, plan slugs are unique, and parents form a forest. */
  ghost predicate Storable(s: State) {
    LinkedWithin(s) && DistinctSlugs(s.plans) && Acyclic(Parents(s))
  }

  lemma EmptyStorable()
    ensures Storable(EMPTY)
  {
    assert Parents(EMPTY) == {} && Replacements(EMPTY) == {};
    RankAcyclic({}, map[]);
  }

  lemma StorableLogged(s: State, e: Event)
    requires Storable(s)
    ensures Storable(Logged(s, e))
  {
    SameGraphs(s, Logged(s, e));
  }

  /** A row that keeps its parent and replaces nothing, or a stored task. */
  lemma StorablePut(s: State, x: nat, t: Task)
    requires Storable(s) && x in s.tasks && t.parent == s.tasks[x].parent
    requires t.replacement.Some? ==> t.replacement.value in s.tasks
    ensures Storable(Put(s, x, t))
  {
    var u := Put(s, x, t);
    PutParents(s, x, t);
    forall e | e in Replacements(u) ensures e.1 in u.tasks {
      if e.0 != x { assert e in Replacements(s); }
    }
  }

  /** A new row under a stored parent. */
  lemma StorableNew(s: State, x: nat, t: Task)
    requires Storable(s) && x !in s.tasks && t.replacement.None?
    requires t.parent.Some? ==> t.parent.value in s.tasks
    ensures Storable(Put(s, x, t))
  {
    var u := Put(s, x, t);
    forall e | e in Parents(u) ensures e.1 in s.tasks && (e in Parents(s) || e.0 == x) {
      if e.0 != x { assert e in Parents(s); }
    }
    forall e | e in Replacements(u) ensures e.1 in s.tasks { assert e in Replacements(s); }
    FromSourceAcyclic(Parents(s), Parents(u), x);
  }

  /** Rows that keep their links. */
  lemma StorableRows(s: State, u: State)
    requires Storable(s) && u.plans == s.plans && u.deps == s.deps && u.tasks.Keys == s.tasks.Keys
    requires forall x :: x in s.tasks ==>
               u.tasks[x].parent == s.tasks[x].parent && u.tasks[x].replacement == s.tasks[x].replacement
    ensures Storable(u)
  {
    assert Parents(u) == Parents(s) && Replacements(u) == Replacements(s);
  }

  lemma StorableDeps(s: State, deps: Graph)
    requires Storable(s) && forall e :: e in deps ==> e.0 in s.tasks && e.1 in s.tasks
    ensures Storable(s.(deps := deps))
  {
    assert Parents(s.(deps := deps)) == Parents(s) && Replacements(s.(deps := deps)) == Replacements(s);
  }

  lemma StorablePlans(s: State, plans: seq<Plan>)
    requires Storable(s) && DistinctSlugs(plans)
    ensures Storable(s.(plans := plans))
  {
    assert Parents(s.(plans := plans)) == Parents(s) && Replacements(s.(plans := plans)) == Replacements(s);
  }

  /** A new parent link is kept only once the forest is checked. */
  lemma StorableEdited(s: State, x: nat, t: Task)
    requires Storable(s) && x in s.tasks && t.replacement == s.tasks[x].replacement
    requires t.parent.Some? ==> t.parent.value in s.tasks
    ensures LinkedWithin(Put(s, x, t))
    ensures Acyclic(Parents(Put(s, x, t))) ==> Storable(Put(s, x, t))
  {
    var u := Put(s, x, t);
    PutReplacements(s, x, t);
    forall e | e in Parents(u) ensures e.1 in s.tasks {
      if e.0 != x { assert e in Parents(s); }
    }
  }

  lemma SlugIsFirst(s: State, slug: string)
    requires DistinctSlugs(s.plans)
    ensures PlanOfSlug(s, slug) == FirstPlan(s.plans, slug)
  {
    var p, q := PlanOfSlug(s, slug), FirstPlan(s.plans, slug);
    assert p < |s.plans| ==> ListsSlug(s.plans, slug);
  }

  // ---- relocation, all rows first and all events after ----

  /** What relocating one task records. */
  function MoveEvent(s: State, c: Caller, x: nat, plan: nat, why: Option<string>): Event {
    Event(c.at, c.author, TaskEntity, Some(SlugAt(s, plan)), Some(x), None, why,
          PlanRevision(SlugOf(s, x), SlugAt(s, plan)))
  }

  function MoveEvents(s: State, c: Caller, order: seq<nat>, plan: nat, why: Option<string>): (r: seq<Event>)
    ensures |r| == |order| && forall i :: 0 <= i < |order| ==> r[i] == MoveEvent(s, c, order[i], plan, why)
  {
    seq(|order|, i requires 0 <= i < |order| => MoveEvent(s, c, order[i], plan, why))
  }

  lemma MoveEventsRest(s: State, c: Caller, order: seq<nat>, plan: nat, why: Option<string>)
    requires Distinct(order) && order != [] && order[0] in s.tasks
    ensures var u := RelocateOne(s, c, order[0], plan, why);
            MoveEvents(s, c, order, plan, why) == [MoveEvent(s, c, order[0], plan, why)] + MoveEvents(u, c, order[1..], plan, why)
  {
    var rest := order[1..];
    var u := RelocateOne(s, c, order[0], plan, why);
    forall k | 0 <= k < |rest| ensures MoveEvent(u, c, rest[k], plan, why) == MoveEvent(s, c, order[k + 1], plan, why) {
      assert order[0] != order[k + 1];
    }
  }

  lemma Regroup(log: seq<Event>, e: Event, more: seq<Event>)
    ensures log + [e] + more == log + ([e] + more)
  {
  }

  lemma {:induction false} RelocateLog(s: State, c: Caller, order: seq<nat>, plan: nat, why: Option<string>)
    requires Distinct(order) && forall x :: x in order ==> x in s.tasks
    ensures Relocate(s, c, order, plan, why).log == s.log + MoveEvents(s, c, order, plan, why)
    decreases |order|
  {
    if order == [] {
      assert s.log + [] == s.log;
    } else {
      var rest, u := order[1..], RelocateOne(s, c, order[0], plan, why);
      forall y | y in rest ensures y in u.tasks { assert y in order; }
      assert Distinct(rest);
      RelocateLog(u, c, rest, plan, why);
      MoveEventsRest(s, c, order, plan, why);
      Regroup(s.log, MoveEvent(s, c, order[0], plan, why), MoveEvents(u, c, rest, plan, why));
    }
  }

  /** Moving rows one after the other records what moving them all first and recording after does. */
  lemma RelocateInTwoPasses(s: State, c: Caller, order: seq<nat>, plan: nat, why: Option<string>)
    requires Distinct(order) && forall x :: x in order ==> x in s.tasks
    ensures Relocate(s, c, order, plan, why)
            == Rehomed(s, SetOf(order), plan).(log := s.log + MoveEvents(s, c, order, plan, why))
  {
    RelocateIsRehomed(s, c, order, plan, why);
    RelocateLog(s, c, order, plan, why);
  }
}
