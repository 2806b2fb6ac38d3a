/** The event log as an account of the stored rows: every recorded change starts where the last one ended. */
module History {
  import opened Basics
  import opened Graphs
  import opened Records
  import opened Definition
  import opened GatesAndPlans
  import opened Invariants
  import opened GatesAndPlansSafety

  /** Something a task's history keeps track of. */
  datatype Aspect = OfField(field: Field) | OfStatus | OfPickup | OfDependency(on: nat) | OfGate(name: string)

  datatype Fact = FieldIs(value: Value) | StatusIs(status: Status) | PickupIs(pickup: Option<Pickup>)
                | DependsIs(depends: bool) | GateIs(gate: Option<GateStatus>)

  function GateStatusOf(gates: seq<Gate>, name: string): Option<GateStatus> {
    var g := FindGate(gates, name);
    if g.Some? then Some(g.value.status) else None
  }

  /** The stored value of an aspect. */
  function Current(s: State, x: nat, a: Aspect): Fact
    requires x in s.tasks
  {
    var t := s.tasks[x];
    match a
    case OfField(f) => FieldIs(FieldValue(s, t, f))
    case OfStatus => StatusIs(t.status)
    case OfPickup => PickupIs(t.pickup)
    case OfDependency(on) => DependsIs((x, on) in s.deps)
    case OfGate(name) => GateIs(GateStatusOf(t.gates, name))
  }

  /** The change an event records to an aspect of its task: before and after. */
  function Told(e: Event, a: Aspect): Option<(Fact, Fact)> {
    match (a, e.payload)
    case (OfField(f), Edited(_, changes)) =>
      if f in changes then Some((FieldIs(changes[f].before), FieldIs(changes[f].after))) else None
    case (OfStatus, StatusChanged(from, to, _, _, _, _)) => Some((StatusIs(from), StatusIs(to)))
    case (OfPickup, StatusChanged(_, _, _, before, after, _)) => Some((PickupIs(before), PickupIs(after)))
    case (OfPickup, PickedUp(before, after)) => Some((PickupIs(before), PickupIs(Some(after))))
    case (OfDependency(on), DepAdded(d)) => if d == on then Some((DependsIs(false), DependsIs(true))) else None
    case (OfDependency(on), DepRemoved(d)) => if d == on then Some((DependsIs(true), DependsIs(false))) else None
    case (OfGate(name), GateCreated(_)) =>
      if e.gate == Some(name) then Some((GateIs(None), GateIs(Some(Open)))) else None
    case (OfGate(name), GateSettled(to, _)) =>
      if e.gate == Some(name) then Some((GateIs(Some(Open)), GateIs(Some(to)))) else None
    case (OfGate(name), GateReopened(from)) =>
      if e.gate == Some(name) then Some((GateIs(Some(from)), GateIs(Some(Open)))) else None
    case (OfGate(name), GateRemoved(removed, _, _)) =>
      if removed == name then Some((GateIs(Some(Open)), GateIs(None))) else None
    case _ => None
  }

  /** What a creation event says about the value an aspect starts with. */
  predicate Begins(e: Event, a: Aspect, v: Fact)
    requires e.payload.Created?
  {
    match a
    case OfField(f) =>
      && (f.TitleField? ==> v == FieldIs(Text(e.payload.title)))
      && (f.KindField? ==> v == FieldIs(KindName(e.payload.kind)))
    case OfStatus => v == StatusIs(Proposed)
    case OfPickup => v == PickupIs(None)
    case OfDependency(_) => v == DependsIs(false)
    case OfGate(_) => v == GateIs(None)
  }

  predicate Mentions(log: seq<Event>, x: nat) { exists i :: 0 <= i < |log| && About(log[i], x) }

  /** Every event about a task carries the slug of the plan it belonged to. */
  predicate StampOk(e: Event, a: Aspect, v: Fact) {
    a == OfField(PlanField) ==> e.plan.Some? && v == FieldIs(Text(e.plan.value))
  }

  /** Reading the log backwards from value v: each change ends at the value known so far, and the
      task's first event creates it. */
  ghost predicate Traces(log: seq<Event>, x: nat, a: Aspect, v: Fact)
    decreases |log|
  {
    if log == [] then false
    else
      var e, rest := log[|log| - 1], log[..|log| - 1];
      if !About(e, x) then Traces(rest, x, a, v)
      else
        && StampOk(e, a, v)
        && if e.payload.Created? then Begins(e, a, v) && !Mentions(rest, x)
           else if Told(e, a).None? then Traces(rest, x, a, v)
           else Told(e, a).value.1 == v && Traces(rest, x, a, Told(e, a).value.0)
  }

  ghost predicate Traced(s: State, x: nat)
    requires x in s.tasks
  {
    forall a :: Traces(s.log, x, a, Current(s, x, a))
  }

  ghost predicate Recorded(s: State, e: Event) {
    && (e.entity != PlanEntity ==> e.task.Some? && e.task.value in s.tasks)
    && (e.payload.Edited? ==> ValidRevision(e.payload))
  }

  /** The log accounts for every stored row, names only stored tasks and records only valid revisions. */
  ghost predicate HistoryOk(s: State) {
    && (forall x :: x in s.tasks ==> Traced(s, x))
    && (forall i :: 0 <= i < |s.log| ==> Recorded(s, s.log[i]))
  }

  // ---- one more event ----

  lemma TracesSnoc(log: seq<Event>, e: Event, x: nat, a: Aspect, v: Fact)
    ensures !About(e, x) ==> (Traces(log + [e], x, a, v) <==> Traces(log, x, a, v))
    ensures About(e, x) && e.payload.Created? ==>
              (Traces(log + [e], x, a, v) <==> StampOk(e, a, v) && Begins(e, a, v) && !Mentions(log, x))
    ensures About(e, x) && !e.payload.Created? && Told(e, a).None? ==>
              (Traces(log + [e], x, a, v) <==> StampOk(e, a, v) && Traces(log, x, a, v))
    ensures About(e, x) && !e.payload.Created? && Told(e, a).Some? ==>
              (Traces(log + [e], x, a, v) <==>
               StampOk(e, a, v) && Told(e, a).value.1 == v && Traces(log, x, a, Told(e, a).value.0))
  {
    assert (log + [e])[..|log|] == log;
  }

  /** Task y looks the same in both states, whatever the aspect. */
  ghost predicate SameView(s: State, u: State, y: nat) {
    && y in s.tasks && y in u.tasks && u.tasks[y] == s.tasks[y] && SlugOf(u, y) == SlugOf(s, y)
    && forall on :: (y, on) in s.deps <==> (y, on) in u.deps
  }

  lemma SameViewTraced(s: State, u: State, y: nat, e: Event)
    requires SameView(s, u, y) && Traced(s, y) && u.log == s.log + [e] && !About(e, y)
    ensures Traced(u, y)
  {
    forall a ensures Traces(u.log, y, a, Current(u, y, a)) {
      assert Traces(s.log, y, a, Current(s, y, a));
      TracesSnoc(s.log, e, y, a, Current(u, y, a));
      assert Current(u, y, a) == Current(s, y, a);
    }
  }

  lemma RecordedGrows(s: State, u: State, e: Event)
    requires (forall i :: 0 <= i < |s.log| ==> Recorded(s, s.log[i])) && u.log == s.log + [e]
    requires s.tasks.Keys <= u.tasks.Keys && Recorded(u, e)
    ensures forall i :: 0 <= i < |u.log| ==> Recorded(u, u.log[i])
  {
    forall i | 0 <= i < |u.log| ensures Recorded(u, u.log[i]) {
      if i < |s.log| { assert Recorded(s, s.log[i]); }
    }
  }

  /** The event says, of each aspect of x, exactly what changed. */
  ghost predicate Tells(s: State, u: State, x: nat, e: Event)
    requires x in s.tasks && x in u.tasks
  {
    forall a :: if Told(e, a).None? then Current(u, x, a) == Current(s, x, a)
                else Told(e, a).value == (Current(s, x, a), Current(u, x, a))
  }

  lemma ToldTraced(s: State, u: State, x: nat, e: Event)
    requires x in s.tasks && x in u.tasks && Traced(s, x) && Tells(s, u, x, e)
    requires u.log == s.log + [e] && About(e, x) && !e.payload.Created? && e.plan == Some(SlugOf(u, x))
    ensures Traced(u, x)
  {
    forall a ensures Traces(u.log, x, a, Current(u, x, a)) {
      assert Traces(s.log, x, a, Current(s, x, a));
      TracesSnoc(s.log, e, x, a, Current(u, x, a));
    }
  }

  /** A change to one task, told by one event, keeps the account complete. */
  lemma OneTaskHistory(s: State, u: State, x: nat, e: Event)
    requires HistoryOk(s) && x in s.tasks && u.tasks.Keys == s.tasks.Keys
    requires u.log == s.log + [e] && e.entity != PlanEntity && e.task == Some(x)
    requires !e.payload.Created? && e.plan == Some(SlugOf(u, x))
    requires Tells(s, u, x, e) && Recorded(u, e)
    requires forall y :: y in s.tasks && y != x ==> SameView(s, u, y)
    ensures HistoryOk(u)
  {
    ToldTraced(s, u, x, e);
    forall y | y in u.tasks ensures Traced(u, y) {
      if y != x { SameViewTraced(s, u, y, e); }
    }
    RecordedGrows(s, u, e);
  }

  /** A new task begins with its creation event. */
  lemma NewTaskHistory(s: State, u: State, x: nat, t: Task, e: Event)
    requires HistoryOk(s) && x !in s.tasks && u == Logged(Put(s, x, t), e)
    requires e.entity == TaskEntity && e.task == Some(x) && e.plan == Some(SlugOf(u, x))
    requires e.payload == Created(t.title, t.kind)
    requires t.status.Proposed? && t.pickup.None? && t.gates == [] && forall on :: (x, on) !in s.deps
    ensures HistoryOk(u)
  {
    forall i | 0 <= i < |s.log| ensures !About(s.log[i], x) {
      assert Recorded(s, s.log[i]);
    }
    forall a ensures Traces(u.log, x, a, Current(u, x, a)) {
      TracesSnoc(s.log, e, x, a, Current(u, x, a));
    }
    forall y | y in u.tasks ensures Traced(u, y) {
      if y != x {
        assert SameView(s, u, y);
        SameViewTraced(s, u, y, e);
      }
    }
    RecordedGrows(s, u, e);
  }

  /** An event that is about no task. */
  lemma PlanEventHistory(s: State, u: State, e: Event)
    requires HistoryOk(s) && u.log == s.log + [e] && e.entity == PlanEntity && !e.payload.Edited?
    requires u.tasks == s.tasks && u.deps == s.deps
    requires forall x :: x in s.tasks ==> SlugOf(u, x) == SlugOf(s, x)
    ensures HistoryOk(u)
  {
    forall y | y in u.tasks ensures Traced(u, y) {
      assert SameView(s, u, y);
      SameViewTraced(s, u, y, e);
    }
    RecordedGrows(s, u, e);
  }

  // ---- gate lists ----

  lemma {:induction false} AppendedStatus(gates: seq<Gate>, g: Gate, name: string)
    ensures GateStatusOf(gates + [g], name) ==
            if GateStatusOf(gates, name).Some? then GateStatusOf(gates, name)
            else if g.name == name then Some(g.status) else None
    decreases |gates|
  {
    if gates == [] {
      assert gates + [g] == [g];
    } else {
      assert (gates + [g])[1..] == gates[1..] + [g];
      AppendedStatus(gates[1..], g, name);
    }
  }

  lemma {:induction false} ReplacedStatus(gates: seq<Gate>, g: Gate, name: string)
    ensures GateStatusOf(Replaced(gates, g.name, g), name) ==
            if name == g.name && GateStatusOf(gates, name).Some? then Some(g.status) else GateStatusOf(gates, name)
    decreases |gates|
  {
    if gates != [] {
      assert Replaced(gates, g.name, g)[1..] == Replaced(gates[1..], g.name, g);
      ReplacedStatus(gates[1..], g, name);
    }
  }

  lemma {:induction false} RemovedStatus(gates: seq<Gate>, removed: string, name: string)
    ensures GateStatusOf(Removed(gates, removed), name) == if name == removed then None else GateStatusOf(gates, name)
    decreases |gates|
  {
    if gates != [] {
      RemovedStatus(gates[1..], removed, name);
      if gates[0].name != removed {
        assert Removed(gates, removed)[1..] == Removed(gates[1..], removed);
      }
    }
  }

  // ---- revisions ----

  lemma {:induction false} ChangedFieldsDistinct(s: State, t: Task, u: Task, fields: seq<Field>)
    requires Distinct(fields)
    ensures Distinct(ChangedFields(s, t, u, fields))
    decreases |fields|
  {
    if fields != [] {
      assert Distinct(fields[1..]);
      ChangedFieldsDistinct(s, t, u, fields[1..]);
      forall f | f in ChangedFields(s, t, u, fields[1..]) ensures f != fields[0] {
        var k :| 0 <= k < |fields[1..]| && fields[1..][k] == f;
        assert fields[k + 1] == f;
      }
    }
  }

  lemma {:induction false} DistinctSize<T>(s: seq<T>)
    requires Distinct(s)
    ensures |set x | x in s| == |s|
    decreases |s|
  {
    if s != [] {
      var n := |s| - 1;
      DistinctSize(s[..n]);
      assert (set x | x in s) == (set x | x in s[..n]) + {s[n]};
      assert s[n] !in s[..n];
    }
  }

  /** Rows that differ in a definition field differ in a recorded value. */
  lemma SomeFieldChanged(s: State, t: Task, u: Task)
    requires PlansOk(s) && t.plan < |s.plans| && u.plan < |s.plans| && t != u
    requires u == t.(title := u.title, intent := u.intent, kind := u.kind, plan := u.plan, parent := u.parent,
                     priority := u.priority)
    ensures ChangedFields(s, t, u, FIELDS) != []
  {
    var changed := ChangedFields(s, t, u, FIELDS);
    assert TitleField in FIELDS && IntentField in FIELDS && KindField in FIELDS
        && PlanField in FIELDS && ParentField in FIELDS && PriorityField in FIELDS;
    if t.title != u.title { assert TitleField in changed; }
    else if t.intent != u.intent { assert IntentField in changed; }
    else if t.kind != u.kind { assert KindField in changed; }
    else if t.plan != u.plan { assert PlanField in changed; }
    else if t.parent != u.parent { assert ParentField in changed; }
    else { assert PriorityField in changed; }
  }

  predicate FieldsValid(s: State, t: Task) {
    && t.plan < |s.plans| && !Blank(s.plans[t.plan].slug) && !Blank(t.title)
    && (t.parent.Some? ==> t.parent.value > 0)
  }

  lemma RevisionChanges(s: State, t: Task, u: Task)
    requires FieldsValid(s, t) && FieldsValid(s, u)
    ensures var p := Revise(s, t, u);
            forall f :: f in p.changes ==>
              && p.changes[f].before != p.changes[f].after
              && ValidValue(f, p.changes[f].before) && ValidValue(f, p.changes[f].after)
  {
    var p := Revise(s, t, u);
    forall f | f in p.changes
      ensures p.changes[f].before != p.changes[f].after
      ensures ValidValue(f, p.changes[f].before) && ValidValue(f, p.changes[f].after)
    {
      assert f in p.fields;
      assert ValidValue(f, FieldValue(s, t, f)) && ValidValue(f, FieldValue(s, u, f));
    }
  }

  lemma FieldsDistinct()
    ensures Distinct(FIELDS)
  {
  }

  /** Every recorded revision passes the payload validator. */
  lemma RevisionValid(s: State, t: Task, u: Task)
    requires PlansOk(s) && FieldsValid(s, t) && FieldsValid(s, u) && t != u
    requires u == t.(title := u.title, intent := u.intent, kind := u.kind, plan := u.plan, parent := u.parent,
                     priority := u.priority)
    ensures ValidRevision(Revise(s, t, u))
  {
    var p := Revise(s, t, u);
    SomeFieldChanged(s, t, u);
    FieldsDistinct();
    ChangedFieldsDistinct(s, t, u, FIELDS);
    DistinctSize(p.fields);
    assert p.changes.Keys == set f | f in p.fields;
    RevisionChanges(s, t, u);
  }
}
