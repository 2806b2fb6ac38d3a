/** What an edit sets, what it leaves alone, what it records, and exactly when it goes through. */
module EditEffects {
  import opened Basics
  import opened Graphs
  import opened Records
  import opened Waiting
  import opened Lifecycle
  import opened Definition
  import opened DefinitionSafety
  import opened Invariants
  import opened Storage

  // ---- what is written ----

  /** A given value replaces the old one; without one the old one stays. */
  predicate Takes<T(==)>(given: Option<T>, before: T, after: T) {
    after == if given.Some? then given.value else before
  }

  function TrimmedTitle(title: Option<string>): Option<string> {
    if title.Some? then Some(Trim(title.value)) else None
  }

  /** Every field the edit gives has that value, every other one is unchanged, and the plan is the new parent's. */
  predicate RowEdited(s: State, t: Task, v: Task, edit: TaskEdit) {
    && Takes(TrimmedTitle(edit.title), t.title, v.title) && Takes(edit.intent, t.intent, v.intent)
    && Takes(edit.kind, t.kind, v.kind) && Takes(edit.priority, t.priority, v.priority)
    && Takes(edit.parent, t.parent, v.parent)
    && (if edit.parent.Some? && edit.parent.value.Some?
        then edit.parent.value.value in s.tasks && v.plan == s.tasks[edit.parent.value.value].plan else v.plan == t.plan)
    && v.status == t.status && v.result == t.result && v.gates == t.gates
    && v.replacement == t.replacement && v.pickup == t.pickup
  }

  /** Of the other tasks exactly the strict descendants move, exactly when x does, and nothing else of them changes. */
  ghost predicate OthersFollow(s: State, u: State, x: nat) {
    && x in s.tasks && u.tasks.Keys == s.tasks.Keys
    && forall y :: y in s.tasks && y != x ==>
         u.tasks[y] == if Below(s, x, y) && u.tasks[x].plan != s.tasks[x].plan
                       then s.tasks[y].(plan := u.tasks[x].plan) else s.tasks[y]
  }

  lemma EditWritesRow(s: State, c: Caller, x: nat, edit: TaskEdit, why: Option<string>, visit: seq<nat>)
    returns (u: State)
    requires Edit(s, c, x, edit, why, visit).Committed?
    ensures Edit(s, c, x, edit, why, visit) == Committed(u) && x in s.tasks && u.tasks.Keys == s.tasks.Keys
    ensures RowEdited(s, s.tasks[x], u.tasks[x], edit)
  {
    u := Edit(s, c, x, edit, why, visit).state;
    EditedShape(s, c, x, edit, why, visit);
  }

  lemma MovedSubtreeVisited(s: State, c: Caller, x: nat, edit: TaskEdit, why: Option<string>, visit: seq<nat>)
    requires Edit(s, c, x, edit, why, visit).Committed? && EditedRow(s, x, edit).plan != s.tasks[x].plan
    ensures Visits(s, x, visit)
  {
  }

  lemma EditMovesSubtree(s: State, c: Caller, x: nat, edit: TaskEdit, why: Option<string>, visit: seq<nat>)
    requires Edit(s, c, x, edit, why, visit).Committed?
    ensures var u := Edit(s, c, x, edit, why, visit).state;
            u.plans == s.plans && u.deps == s.deps && OthersFollow(s, u, x)
  {
    EditCommits(s, c, x, edit, why, visit);
    var row := EditedRow(s, x, edit);
    EditedStateIsBase(s, c, x, edit, why, visit);
    var base := EditBase(s, x, edit, visit);
    if row.plan != s.tasks[x].plan {
      MovedSubtreeVisited(s, c, x, edit, why, visit);
      forall y | y in s.tasks && y != x
        ensures base.tasks[y] == if Below(s, x, y) then s.tasks[y].(plan := row.plan) else s.tasks[y]
      {
        assert y in visit <==> Below(s, x, y);
      }
    }
  }

  // ---- what is recorded ----

  predicate FieldRecorded(p: Payload, f: Field, before: Value, after: Value) {
    && p.Edited? && (f in p.fields <==> before != after) && (f in p.changes <==> before != after)
    && (before != after ==> p.changes[f] == Revision(before, after))
  }

  function ParentValue(parent: Option<nat>): Value { if parent.None? then Null else Number(parent.value) }

  /** The revision names exactly the fields that differ, each with its value before and after. */
  predicate RevisionExact(s: State, t: Task, v: Task, p: Payload) {
    && t.plan < |s.plans| && v.plan < |s.plans|
    && FieldRecorded(p, TitleField, Text(t.title), Text(v.title))
    && FieldRecorded(p, IntentField, Text(t.intent), Text(v.intent))
    && FieldRecorded(p, KindField, KindName(t.kind), KindName(v.kind))
    && FieldRecorded(p, PlanField, Text(s.plans[t.plan].slug), Text(s.plans[v.plan].slug))
    && FieldRecorded(p, ParentField, ParentValue(t.parent), ParentValue(v.parent))
    && FieldRecorded(p, PriorityField, Level(t.priority), Level(v.priority))
  }

  lemma EveryField(f: Field)
    ensures f in FIELDS
  {
    match f
    case TitleField => assert FIELDS[0] == f;
    case IntentField => assert FIELDS[1] == f;
    case KindField => assert FIELDS[2] == f;
    case PlanField => assert FIELDS[3] == f;
    case ParentField => assert FIELDS[4] == f;
    case PriorityField => assert FIELDS[5] == f;
  }

  lemma FieldRevised(s: State, t: Task, v: Task, f: Field)
    ensures FieldRecorded(Revise(s, t, v), f, FieldValue(s, t, f), FieldValue(s, v, f))
  {
    EveryField(f);
  }

  lemma RevisesExactly(s: State, t: Task, v: Task)
    requires t.plan < |s.plans| && v.plan < |s.plans|
    ensures RevisionExact(s, t, v, Revise(s, t, v))
  {
    FieldRevised(s, t, v, TitleField);
    FieldRevised(s, t, v, IntentField);
    FieldRevised(s, t, v, KindField);
    FieldRevised(s, t, v, PlanField);
    FieldRevised(s, t, v, ParentField);
    FieldRevised(s, t, v, PriorityField);
  }

  /** The event that tells of a task's move into another plan. */
  predicate MoveTold(s: State, e: Event, c: Caller, y: nat, plan: nat, why: Option<string>) {
    && y in s.tasks && s.tasks[y].plan < |s.plans| && plan < |s.plans|
    && e == Event(c.at, c.author, TaskEntity, Some(s.plans[plan].slug), Some(y), None, Given(why),
                  Edited([PlanField], map[PlanField := Revision(Text(s.plans[s.tasks[y].plan].slug),
                      Text(s.plans[plan].slug))]))
  }

  /** Exactly the new log: one plan revision per moved descendant, in visiting order, then the edit itself. */
  ghost predicate EditTold(s: State, u: State, c: Caller, x: nat, why: Option<string>, visit: seq<nat>)
    requires x in s.tasks && x in u.tasks && u.tasks[x].plan < |s.plans|
  {
    var moves := if u.tasks[x].plan != s.tasks[x].plan then visit else [];
    var slug := s.plans[u.tasks[x].plan].slug;
    && |u.log| == |s.log| + |moves| + 1 && s.log <= u.log
    && (forall k :: 0 <= k < |moves| ==> MoveTold(s, u.log[|s.log| + k], c, moves[k], u.tasks[x].plan, why))
    && var e := u.log[|u.log| - 1];
       && e == Event(c.at, c.author, TaskEntity, Some(slug), Some(x), None, Given(why), e.payload)
       && RevisionExact(s, s.tasks[x], u.tasks[x], e.payload)
  }

  lemma LogParts(log: seq<Event>, more: seq<Event>, last: Event)
    ensures var all := log + more + [last];
            && |all| == |log| + |more| + 1 && log <= all && all[|all| - 1] == last
            && forall k :: 0 <= k < |more| ==> all[|log| + k] == more[k]
  {
  }

  lemma MovesTold(s: State, c: Caller, moves: seq<nat>, plan: nat, why: Option<string>, k: nat)
    requires k < |moves| && plan < |s.plans|
    requires forall y :: y in moves ==> y in s.tasks && s.tasks[y].plan < |s.plans|
    ensures MoveTold(s, MoveEvents(s, c, moves, plan, Given(why))[k], c, moves[k], plan, why)
  {
    assert moves[k] in moves;
  }

  lemma ToldBy(s: State, u: State, c: Caller, x: nat, why: Option<string>, visit: seq<nat>, told: seq<Event>,
               last: Event)
    requires x in s.tasks && x in u.tasks && u.tasks[x].plan < |s.plans|
             && RevisionExact(s, s.tasks[x], u.tasks[x], last.payload)
    requires var moves := if u.tasks[x].plan != s.tasks[x].plan then visit else [];
             |told| == |moves| && forall k :: 0 <= k < |moves| ==>
               MoveTold(s, told[k], c, moves[k], u.tasks[x].plan, why)
    requires last == Event(c.at, c.author, TaskEntity, Some(s.plans[u.tasks[x].plan].slug), Some(x), None,
        Given(why), last.payload)
    requires u.log == s.log + told + [last]
    ensures EditTold(s, u, c, x, why, visit)
  {
    LogParts(s.log, told, last);
  }

  lemma EditedLog(s: State, c: Caller, x: nat, edit: TaskEdit, why: Option<string>, visit: seq<nat>)
    requires Rows(s) && x in s.tasks
    requires EditedRow(s, x, edit).plan != s.tasks[x].plan ==> Visits(s, x, visit)
    ensures var row := EditedRow(s, x, edit);
            var moves := if row.plan != s.tasks[x].plan then visit else [];
            && EditedState(s, c, x, edit, why, visit).log == s.log + MoveEvents(s, c, moves, row.plan, Given(why))
            && forall y :: y in moves ==> y in s.tasks && s.tasks[y].plan < |s.plans|
  {
    var row := EditedRow(s, x, edit);
    if row.plan != s.tasks[x].plan {
      forall y | y in visit ensures y in s.tasks && s.tasks[y].plan < |s.plans| {
        assert Below(s, x, y) && RowOk(s, s.tasks[y]);
      }
      RelocateLog(s, c, visit, row.plan, Given(why));
    }
  }

  lemma EditedPlan(s: State, c: Caller, x: nat, edit: TaskEdit, why: Option<string>, visit: seq<nat>)
    requires Rows(s) && Edit(s, c, x, edit, why, visit).Committed?
    ensures x in s.tasks && s.tasks[x].plan < |s.plans| && EditedRow(s, x, edit).plan < |s.plans|
  {
    EditCommits(s, c, x, edit, why, visit);
    assert RowOk(s, s.tasks[x]);
    if edit.parent.Some? && edit.parent.value.Some? && edit.parent.value.value in s.tasks {
      assert RowOk(s, s.tasks[edit.parent.value.value]);
    }
  }

  lemma EditLog(s: State, c: Caller, x: nat, edit: TaskEdit, why: Option<string>, visit: seq<nat>)
    requires Rows(s) && Edit(s, c, x, edit, why, visit).Committed?
    ensures var u := Edit(s, c, x, edit, why, visit).state;
            && x in s.tasks && x in u.tasks && u.tasks[x].plan < |s.plans| && EditTold(s, u, c, x, why, visit)
  {
    EditCommits(s, c, x, edit, why, visit);
    EditedPlan(s, c, x, edit, why, visit);
    EditedShape(s, c, x, edit, why, visit);
    var row, after := EditedRow(s, x, edit), EditedState(s, c, x, edit, why, visit);
    if row.plan != s.tasks[x].plan { MovedSubtreeVisited(s, c, x, edit, why, visit); }
    EditedLog(s, c, x, edit, why, visit);
    RevisesExactly(s, s.tasks[x], row);
    LoggedEdit(s, after, c, x, row, why, visit);
  }

  lemma LoggedEdit(s: State, after: State, c: Caller, x: nat, row: Task, why: Option<string>, visit: seq<nat>)
    requires x in s.tasks && x in after.tasks && after.tasks[x] == row && after.plans == s.plans
    requires row.plan < |s.plans| && RevisionExact(s, s.tasks[x], row, Revise(s, s.tasks[x], row))
    requires var moves := if row.plan != s.tasks[x].plan then visit else [];
             && after.log == s.log + MoveEvents(s, c, moves, row.plan, Given(why))
             && forall y :: y in moves ==> y in s.tasks && s.tasks[y].plan < |s.plans|
    ensures EditTold(s, Logged(after, OnTask(after, c, x, Given(why), Revise(s, s.tasks[x], row))), c, x, why, visit)
  {
    var moves := if row.plan != s.tasks[x].plan then visit else [];
    var last := OnTask(after, c, x, Given(why), Revise(s, s.tasks[x], row));
    var told := MoveEvents(s, c, moves, row.plan, Given(why));
    forall k | 0 <= k < |moves| ensures MoveTold(s, told[k], c, moves[k], row.plan, why) {
      MovesTold(s, c, moves, row.plan, why, k);
    }
    ToldBy(s, Logged(after, last), c, x, why, visit, told, last);
  }

  /** All an edit does: the row, the subtree that follows it, and what is recorded. */
  ghost predicate EditDone(s: State, u: State, c: Caller, x: nat, edit: TaskEdit, why: Option<string>,
                           visit: seq<nat>) {
    && x in s.tasks && x in u.tasks && u.tasks[x].plan < |s.plans| && u.plans == s.plans && u.deps == s.deps
    && RowEdited(s, s.tasks[x], u.tasks[x], edit) && OthersFollow(s, u, x) && EditTold(s, u, c, x, why, visit)
  }

  lemma EditWrites(s: State, c: Caller, x: nat, edit: TaskEdit, why: Option<string>, visit: seq<nat>)
    requires Rows(s) && Edit(s, c, x, edit, why, visit).Committed?
    ensures EditDone(s, Edit(s, c, x, edit, why, visit).state, c, x, edit, why, visit)
  {
    var u := EditWritesRow(s, c, x, edit, why, visit);
    EditMovesSubtree(s, c, x, edit, why, visit);
    EditLog(s, c, x, edit, why, visit);
  }

  // ---- when it goes through ----

  /** x hung under another parent, as far as the graphs are concerned. */
  function Under(s: State, x: nat, parent: Option<nat>): State
    requires x in s.tasks
  {
    s.(tasks := s.tasks[x := s.tasks[x].(parent := parent)])
  }

  /** Every value the edit gives is the stored one. */
  predicate ChangesNothing(t: Task, edit: TaskEdit) {
    && (edit.title.Some? ==> Trim(edit.title.value) == t.title) && (edit.intent.Some? ==> edit.intent.value == t.intent)
    && (edit.kind.Some? ==> edit.kind.value == t.kind) && (edit.priority.Some? ==> edit.priority.value == t.priority)
    && (edit.parent.Some? ==> edit.parent.value == t.parent)
  }

  ghost predicate InSubtree(s: State, x: nat, y: nat) { y == x || Below(s, x, y) }

  /** No replacement link has exactly one end in the subtree of x. */
  ghost predicate NoLinkLeaves(s: State, x: nat) {
    forall y, r :: y in s.tasks && s.tasks[y].replacement == Some(r) ==> (InSubtree(s, x, y) <==> InSubtree(s, x, r))
  }

  /** A task p may take x under it: p exists, is not x and is live if x is; across plans p's plan is active and no
      replacement link leaves the subtree. */
  ghost predicate MayAdopt(s: State, x: nat, p: nat) {
    && x in s.tasks && p in s.tasks && p != x
    && (s.tasks[x].status in {Proposed, InProgress} ==> s.tasks[p].status in {Proposed, InProgress})
    && (s.tasks[p].plan != s.tasks[x].plan ==>
          && s.tasks[p].plan < |s.plans| && s.plans[s.tasks[p].plan].status == PlanActive
          && NoLinkLeaves(s, x))
  }

  /** All that is asked of an edit besides that it changes something and keeps results where they are needed. */
  ghost predicate EditSound(s: State, x: nat, edit: TaskEdit) {
    && x in s.tasks
    && (edit.title.Some? || edit.intent.Some? || edit.parent.Some? || edit.kind.Some? || edit.priority.Some?)
    && (edit.kind.Some? ==> edit.kind.value != Work)
    && (edit.title.Some? ==> 1 <= |Trim(edit.title.value)| <= 160)
    && (edit.parent.Some? && edit.parent.value.Some? ==> MayAdopt(s, x, edit.parent.value.value))
    && (edit.parent.Some? ==>
          Acyclic(Parents(Under(s, x, edit.parent.value))) && Acyclic(Waits(Under(s, x, edit.parent.value))))
  }

  /** A done task of a kind that needs a result has one. */
  predicate ResultKept(t: Task, edit: TaskEdit) {
    t.status == Done && (if edit.kind.Some? then edit.kind.value else t.kind) in {Probe, Decision, Bug} ==>
      t.result.Some? && Trim(t.result.value) != ""
  }

  lemma SameLinkGraphs(s: State, u: State)
    requires u.tasks.Keys == s.tasks.Keys && u.deps == s.deps
    requires forall y :: y in s.tasks ==>
               u.tasks[y].parent == s.tasks[y].parent && u.tasks[y].status == s.tasks[y].status
    ensures Parents(u) == Parents(s) && Waits(u) == Waits(s)
  {
    assert Parents(u) == Parents(s) && ChildWaits(u) == ChildWaits(s);
  }

  /** The cycle and wait checks together ask that both graphs stay free of loops. */
  lemma LinkChecksExactly(s: State, after: State, x: nat)
    requires Inv(s) && x in s.tasks && after.tasks.Keys == s.tasks.Keys && after.deps == s.deps
    requires forall y :: y in s.tasks && y != x ==> after.tasks[y].parent == s.tasks[y].parent
    requires forall y :: y in s.tasks ==> after.tasks[y].status == s.tasks[y].status
    ensures LinkRefusal(s, after, x).None? <==> Acyclic(Parents(after)) && Acyclic(Waits(after))
  {
    var p := after.tasks[x].parent;
    if p == s.tasks[x].parent {
      SameLinkGraphs(s, after);
    } else if LinkRefusal(s, after, x).None? {
      EditedWaits(s, after, x);
    } else if Acyclic(Parents(after)) {
      assert (p.value, x) in Waits(after);
      EdgeOnReachIsCycle(Waits(after), p.value, x);
    }
  }

  lemma StaysExactly(s: State, x: nat, members: set<nat>)
    requires forall y :: y in members <==> InSubtree(s, x, y)
    ensures ReplacementsStay(s, members) <==> NoLinkLeaves(s, x)
  {
    if ReplacementsStay(s, members) {
      forall y, r | y in s.tasks && s.tasks[y].replacement == Some(r)
        ensures InSubtree(s, x, y) <==> InSubtree(s, x, r)
      {
        var e: Edge := (y, r);
        assert e in Replacements(s) && (e.0 in members <==> e.1 in members);
      }
    }
  }

  lemma AdoptsExactly(s: State, x: nat, p: nat, visit: seq<nat>)
    requires x in s.tasks && Visits(s, x, visit) && (p in s.tasks ==> s.tasks[p].plan < |s.plans|)
    ensures ParentRefusal(s, x, p, visit).None? <==> MayAdopt(s, x, p)
  {
    var members := {x} + set y | y in visit;
    assert forall y :: y in members <==> InSubtree(s, x, y);
    StaysExactly(s, x, members);
  }

  lemma UnderAfter(s: State, after: State, x: nat, parent: Option<nat>)
    requires x in s.tasks && after.tasks.Keys == s.tasks.Keys && after.deps == s.deps && after.tasks[x].parent == parent
    requires forall y :: y in s.tasks && y != x ==> after.tasks[y].parent == s.tasks[y].parent
    requires forall y :: y in s.tasks ==> after.tasks[y].status == s.tasks[y].status
    ensures Parents(after) == Parents(Under(s, x, parent)) && Waits(after) == Waits(Under(s, x, parent))
  {
    SameLinkGraphs(Under(s, x, parent), after);
  }

  lemma LinksExactly(s: State, c: Caller, x: nat, edit: TaskEdit, why: Option<string>, visit: seq<nat>)
    requires Inv(s) && x in s.tasks
    ensures var after := EditedState(s, c, x, edit, why, visit);
            && x in after.tasks
            && (LinkRefusal(s, after, x).None? <==>
                (edit.parent.Some? ==>
                   Acyclic(Parents(Under(s, x, edit.parent.value))) && Acyclic(Waits(Under(s, x, edit.parent.value)))))
  {
    var after := EditedState(s, c, x, edit, why, visit);
    EditedShape(s, c, x, edit, why, visit);
    if edit.parent.Some? {
      LinkChecksExactly(s, after, x);
      UnderAfter(s, after, x, edit.parent.value);
    }
  }

  lemma UnchangedExactly(s: State, x: nat, edit: TaskEdit)
    requires Inv(s) && x in s.tasks
    requires edit.parent.Some? && edit.parent.value.Some? ==> edit.parent.value.value in s.tasks
    ensures EditedRow(s, x, edit) == s.tasks[x] <==> ChangesNothing(s.tasks[x], edit)
  {
    assert ParentOk(s, s.tasks[x]);
  }

  /** The guards in order; the visiting order never decides. */
  lemma EditWhen(s: State, c: Caller, x: nat, edit: TaskEdit, why: Option<string>, visit: seq<nat>)
    requires x in s.tasks
    ensures var e := Edit(s, c, x, edit, why, visit);
            var after := EditedState(s, c, x, edit, why, visit);
            var sound := && edit != TaskEdit(None, None, None, None, None)
                         && (edit.kind.Some? ==> Assignable(edit.kind.value))
                         && (edit.title.Some? ==> ValidTitle(edit.title.value))
                         && (edit.parent.Some? && edit.parent.value.Some? ==>
                               ParentRefusal(s, x, edit.parent.value.value, visit).None?)
                         && x in after.tasks && LinkRefusal(s, after, x).None?;
            && (e == Refused(NoChanges) <==> sound && EditedRow(s, x, edit) == s.tasks[x])
            && (e.Committed? <==> sound && EditedRow(s, x, edit) != s.tasks[x] && ResultKept(s.tasks[x], edit))
  {
  }

  /** An edit goes through exactly when it is sound, changes something and keeps results where they are needed. */
  ghost predicate MayEdit(s: State, x: nat, edit: TaskEdit) {
    EditSound(s, x, edit) && !ChangesNothing(s.tasks[x], edit) && ResultKept(s.tasks[x], edit)
  }

  /** A sound edit is refused for changing nothing exactly when every value it gives is the stored one. */
  lemma EditExactly(s: State, c: Caller, x: nat, edit: TaskEdit, why: Option<string>, visit: seq<nat>)
    requires Inv(s) && Visits(s, x, visit)
    ensures Edit(s, c, x, edit, why, visit).Committed? <==> MayEdit(s, x, edit)
    ensures Edit(s, c, x, edit, why, visit) == Refused(NoChanges) <==>
            EditSound(s, x, edit) && ChangesNothing(s.tasks[x], edit)
  {
    if x in s.tasks {
      EditWhen(s, c, x, edit, why, visit);
      LinksExactly(s, c, x, edit, why, visit);
      if edit.parent.Some? && edit.parent.value.Some? {
        var p := edit.parent.value.value;
        if p in s.tasks { assert RowOk(s, s.tasks[p]); }
        AdoptsExactly(s, x, p, visit);
      }
      if edit.parent.Some? && edit.parent.value.Some? ==> edit.parent.value.value in s.tasks {
        UnchangedExactly(s, x, edit);
      }
    }
  }
}
