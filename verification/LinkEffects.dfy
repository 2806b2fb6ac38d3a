/** When dependencies change and plans are moved, exactly, and what is then stored and recorded. */
module LinkEffects {
  import opened Basics
  import opened Graphs
  import opened Records
  import opened Waiting
  import opened Lifecycle
  import opened Definition
  import opened DefinitionSafety
  import opened Invariants
  import opened Storage
  import opened Runs
  import opened EditEffects

  // ---- dependencies ----

  /** The tables with one more dependency. */
  function Depending(s: State, x: nat, on: nat): State { s.(deps := s.deps + {(x, on)}) }

  predicate Viable(s: State, on: nat) { on in s.tasks && s.tasks[on].status in {Proposed, InProgress, Done} }

  /** Only dependencies differ in the tables, and one event about x tells of it. */
  predicate LinkTold(s: State, u: State, c: Caller, x: nat, why: Option<string>, payload: Payload) {
    && u.plans == s.plans && u.tasks == s.tasks && x in s.tasks && s.tasks[x].plan < |s.plans|
    && u.log == s.log + [Event(c.at, c.author, DepEntity, Some(s.plans[s.tasks[x].plan].slug), Some(x), None, why,
        payload)]
  }

  lemma EdgeCycles(s: State, x: nat, on: nat)
    requires Acyclic(Waits(s))
    ensures Acyclic(Waits(Depending(s, x, on))) <==> !Reach(Waits(s), on, x)
    ensures Reach(s.deps, on, x) || x == on ==> Reach(Waits(s), on, x)
  {
    assert Waits(Depending(s, x, on)) == Waits(s) + {(x, on)};
    AddEdgeAcyclic(Waits(s), x, on);
    if Reach(s.deps, on, x) { ReachMono(s.deps, Waits(s), on, x); }
    if x == on { ReachSelf(Waits(s), x); }
  }

  /** A dependency needs a live dependent, a live or done prerequisite, and waits that stay free of loops; it must be new,
      and its reason, if one is given, must say something. */
  ghost predicate MayLink(s: State, x: nat, on: nat, why: Option<string>) {
    && (why.Some? ==> Trim(why.value) != "")
    && x in s.tasks && s.tasks[x].status in {Proposed, InProgress} && Viable(s, on)
    && (x, on) !in s.deps && Acyclic(Waits(Depending(s, x, on)))
  }

  lemma AddDepExactly(s: State, c: Caller, x: nat, on: nat, why: Option<string>)
    requires Acyclic(Waits(s))
    ensures AddDepWithReason(s, c, x, on, why).Committed? <==> MayLink(s, x, on, why)
  {
    EdgeCycles(s, x, on);
  }

  lemma AddDepWrites(s: State, c: Caller, x: nat, on: nat, why: Option<string>)
    requires Rows(s) && AddDepWithReason(s, c, x, on, why).Committed?
    ensures var u := AddDepWithReason(s, c, x, on, why).state;
            u.deps == s.deps + {(x, on)} && LinkTold(s, u, c, x, why, DepAdded(on))
  {
    assert RowOk(s, s.tasks[x]);
  }

  lemma RemoveDepExactly(s: State, c: Caller, x: nat, on: nat, why: Option<string>)
    requires DepsOk(s)
    ensures RemoveDep(s, c, x, on, why).Committed? <==> (why.Some? ==> Trim(why.value) != "") && (x, on) in s.deps
  {
    var e: Edge := (x, on);
    assert e in s.deps ==> e.0 in s.tasks && e.1 in s.tasks;
  }

  lemma RemoveDepWrites(s: State, c: Caller, x: nat, on: nat, why: Option<string>)
    requires Rows(s) && RemoveDep(s, c, x, on, why).Committed?
    ensures var u := RemoveDep(s, c, x, on, why).state;
            u.deps == s.deps - {(x, on)} && LinkTold(s, u, c, x, why, DepRemoved(on))
  {
    assert RowOk(s, s.tasks[x]);
  }

  // ---- plan moves ----

  /** The tables once the selection is in the plan. */
  function Moved(s: State, selected: set<nat>, plan: nat): State {
    s.(tasks := map y | y in s.tasks :: if y in selected then s.tasks[y].(plan := plan) else s.tasks[y])
  }

  predicate JoinsPlans(s: State, x: nat, y: nat) {
    x in s.tasks && y in s.tasks && s.tasks[x].plan != s.tasks[y].plan
  }

  /** No parent or replacement link joins two plans. */
  ghost predicate Confined(s: State) {
    forall x, y :: x in s.tasks && (s.tasks[x].parent == Some(y) || s.tasks[x].replacement == Some(y)) ==>
      !JoinsPlans(s, x, y)
  }

  lemma BoundLink(s: State, x: nat, y: nat)
    requires Rows(s) && x in s.tasks && (s.tasks[x].parent == Some(y) || s.tasks[x].replacement == Some(y))
    ensures y in s.tasks && s.tasks[y].plan == s.tasks[x].plan
    ensures (x, y) in PlanBound(s)
  {
    assert ParentOk(s, s.tasks[x]) && ReplacementOk(s, s.tasks[x]);
  }

  /** For tasks that are not there yet, keeping linked tasks together is the same as crossing no plans afterwards. */
  lemma ClosedIsConfined(s: State, selected: set<nat>, plan: nat)
    requires Rows(s) && forall x :: x in selected ==> x in s.tasks && s.tasks[x].plan != plan
    ensures LinkClosed(s, selected) <==> Confined(Moved(s, selected, plan))
  {
    var u := Moved(s, selected, plan);
    if LinkClosed(s, selected) {
      forall x, y | x in u.tasks && (u.tasks[x].parent == Some(y) || u.tasks[x].replacement == Some(y))
        ensures !JoinsPlans(u, x, y)
      {
        BoundLink(s, x, y);
        var e: Edge := (x, y);
        assert e in PlanBound(s) && (e.0 in selected <==> e.1 in selected);
      }
    }
    if Confined(u) {
      forall e | e in PlanBound(s) ensures e.0 in selected <==> e.1 in selected {
        BoundLink(s, e.0, e.1);
        assert u.tasks[e.0].parent == Some(e.1) || u.tasks[e.0].replacement == Some(e.1);
        assert !JoinsPlans(u, e.0, e.1);
      }
    }
  }

  /** A selection moves exactly when it names stored tasks once each, none of them there already, the plan is active,
      and afterwards no parent or replacement link joins two plans. */
  ghost predicate MayMove(s: State, sequences: seq<nat>, slug: string, plan: nat) {
    && plan < |s.plans| && s.plans[plan].slug == slug && s.plans[plan].status == PlanActive
    && sequences != [] && Distinct(sequences)
    && (forall x :: x in sequences ==> x in s.tasks && s.tasks[x].plan != plan)
    && Confined(Moved(s, SetOf(sequences), plan))
  }

  lemma MoveWhen(s: State, c: Caller, sequences: seq<nat>, slug: string, why: Option<string>)
    ensures var p := PlanOfSlug(s, slug);
            MovePlan(s, c, sequences, slug, why).Committed? <==>
            && p < |s.plans| && s.plans[p].status == PlanActive && sequences != [] && Distinct(sequences)
            && (forall x :: x in sequences ==> x in s.tasks && s.tasks[x].plan != p)
            && LinkClosed(s, SetOf(sequences))
  {
    assert SetOf(sequences) == set x | x in sequences;
  }

  lemma MovePlanExactly(s: State, c: Caller, sequences: seq<nat>, slug: string, why: Option<string>)
    requires PlansOk(s) && Rows(s)
    ensures MovePlan(s, c, sequences, slug, why).Committed? <==> exists plan :: MayMove(s, sequences, slug, plan)
  {
    var p := PlanOfSlug(s, slug);
    MoveWhen(s, c, sequences, slug, why);
    if forall x :: x in sequences ==> x in s.tasks && s.tasks[x].plan != p { ClosedIsConfined(s, SetOf(sequences), p); }
    if MovePlan(s, c, sequences, slug, why).Committed? { assert MayMove(s, sequences, slug, p); }
    if plan :| MayMove(s, sequences, slug, plan) { assert plan == p; }
  }

  predicate Rises(s: seq<nat>) { forall i, j :: 0 <= i < j < |s| ==> s[i] < s[j] }

  lemma {:induction false} InsertRises(x: nat, s: seq<nat>)
    requires Rises(s) && x !in s
    ensures Rises(Insert(x, s)) && |Insert(x, s)| == |s| + 1
    decreases |s|
  {
    if s != [] && x > s[0] {
      var rest := s[1..];
      assert forall k :: 0 <= k < |rest| ==> rest[k] == s[k + 1];
      InsertRises(x, rest);
      InsertSameSet(x, rest);
      var more := Insert(x, rest);
      forall k | 0 <= k < |more| ensures more[k] > s[0] { assert more[k] in more; }
    }
  }

  lemma {:induction false} SortedRises(s: seq<nat>)
    requires Distinct(s)
    ensures Rises(Sorted(s)) && |Sorted(s)| == |s|
    decreases |s|
  {
    if s != [] {
      var rest := s[1..];
      assert forall k :: 0 <= k < |rest| ==> rest[k] == s[k + 1];
      SortedRises(rest);
      SortedSameSet(rest);
      InsertRises(s[0], Sorted(rest));
    }
  }

  /** Exactly the selected tasks are in the plan afterwards, and each of them says so, once and in increasing order. */
  ghost predicate MovedBy(s: State, u: State, c: Caller, sequences: seq<nat>, plan: nat, why: Option<string>,
                          order: seq<nat>) {
    && u.(log := s.log) == Moved(s, SetOf(sequences), plan)
    && |order| == |sequences| && (forall x :: x in order <==> x in sequences) && Rises(order)
    && |u.log| == |s.log| + |order| && s.log <= u.log
    && forall k :: 0 <= k < |order| ==> MoveTold(s, u.log[|s.log| + k], c, order[k], plan, why)
  }

  lemma MovePlanWrites(s: State, c: Caller, sequences: seq<nat>, slug: string, why: Option<string>)
    returns (order: seq<nat>, plan: nat)
    requires Rows(s) && MovePlan(s, c, sequences, slug, why).Committed?
    ensures plan < |s.plans| && s.plans[plan].slug == slug
    ensures MovedBy(s, MovePlan(s, c, sequences, slug, why).state, c, sequences, plan, why, order)
  {
    MovePlanAdmits(s, c, sequences, slug, why);
    plan := PlanOfSlug(s, slug);
    order := Sorted(sequences);
    SortedSameSet(sequences);
    SortedRises(sequences);
    assert SetOf(order) == SetOf(sequences);
    forall x | x in order ensures x in s.tasks && s.tasks[x].plan < |s.plans| { assert RowOk(s, s.tasks[x]); }
    RelocateInTwoPasses(s, c, order, plan, Given(why));
    forall k | 0 <= k < |order|
      ensures MoveTold(s, MoveEvents(s, c, order, plan, Given(why))[k], c, order[k], plan, why)
    {
      MovesTold(s, c, order, plan, why, k);
    }
  }
}
