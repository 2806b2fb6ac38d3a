/** Every accepted gate, plan, review and note step keeps the invariants. */
module GatesAndPlansSafety {
  import opened Basics
  import opened Graphs
  import opened Records
  import opened Waiting
  import opened Definition
  import opened GatesAndPlans
  import opened Invariants
  import opened LifecycleSafety
  import opened DefinitionSafety

  // ---- gate lists ----

  lemma {:induction false} ReplacedGates(gates: seq<Gate>, name: string, g: Gate)
    requires g.name == name && UniqueGates(gates)
    ensures |Replaced(gates, name, g)| == |gates|
    ensures forall i :: 0 <= i < |gates| ==>
              Replaced(gates, name, g)[i] == if gates[i].name == name then g else gates[i]
    decreases |gates|
  {
    if gates != [] {
      assert forall i, j :: 0 <= i < j < |gates[1..]| ==> gates[1..][i].name != gates[1..][j].name;
      ReplacedGates(gates[1..], name, g);
    }
  }

  lemma {:induction false} RemovedGates(gates: seq<Gate>, name: string)
    requires UniqueGates(gates)
    ensures UniqueGates(Removed(gates, name))
    ensures forall g :: g in Removed(gates, name) <==> g in gates && g.name != name
    decreases |gates|
  {
    if gates != [] {
      var tail := gates[1..];
      assert forall i, j :: 0 <= i < j < |tail| ==> tail[i].name != tail[j].name;
      RemovedGates(tail, name);
      assert forall g :: g in gates <==> g == gates[0] || g in tail;
      forall g | g in Removed(tail, name) ensures g.name != gates[0].name {
        var j :| 0 <= j < |tail| && tail[j] == g;
        assert gates[j + 1] == g;
      }
    }
  }

  lemma GatesRow(s: State, x: nat, gates: seq<Gate>, y: nat)
    requires Rows(s) && x in s.tasks && y in s.tasks && UniqueGates(gates)
    requires s.tasks[x].status.Done? ==> forall g :: g in gates ==> !g.status.Open?
    ensures var u := WithGates(s, x, gates);
            y > 0 && RowOk(u, u.tasks[y]) && ParentOk(u, u.tasks[y]) && ReplacementOk(u, u.tasks[y])
  {
    assert RowOk(s, s.tasks[y]) && ParentOk(s, s.tasks[y]) && ReplacementOk(s, s.tasks[y]);
  }

  /** Only a task's gates change. */
  lemma GatesSafe(s: State, x: nat, gates: seq<Gate>)
    requires Inv(s) && x in s.tasks && UniqueGates(gates)
    requires s.tasks[x].status.Done? ==> forall g :: g in gates ==> !g.status.Open?
    ensures Inv(WithGates(s, x, gates))
  {
    var u := WithGates(s, x, gates);
    forall y | y in u.tasks
      ensures y > 0 && RowOk(u, u.tasks[y]) && ParentOk(u, u.tasks[y]) && ReplacementOk(u, u.tasks[y])
    {
      GatesRow(s, x, gates, y);
    }
    SameGraphs(s, u);
  }

  lemma AddGateSafe(s: State, c: Caller, x: nat, name: string, kind: GateKind, requirement: string)
    requires Inv(s) && AddGate(s, c, x, name, kind, requirement).Committed?
    ensures Inv(AddGate(s, c, x, name, kind, requirement).state)
  {
    var t := s.tasks[x];
    assert RowOk(s, t);
    var gates := t.gates + [Gate(Trim(name), kind, Trim(requirement), Open, None, None, None, None)];
    forall i, j | 0 <= i < j < |gates| ensures gates[i].name != gates[j].name {
      assert gates[i] in t.gates;
    }
    GatesSafe(s, x, gates);
    InvLogged(WithGates(s, x, gates), AddGate(s, c, x, name, kind, requirement).state.log[|s.log|]);
  }

  lemma SwapGateSafe(s: State, x: nat, name: string, g: Gate)
    requires Inv(s) && x in s.tasks && g.name == name
    requires s.tasks[x].status.Done? ==> !g.status.Open?
    ensures Inv(WithGates(s, x, Replaced(s.tasks[x].gates, name, g)))
  {
    var t := s.tasks[x];
    assert RowOk(s, t);
    var gates := Replaced(t.gates, name, g);
    ReplacedGates(t.gates, name, g);
    forall h | h in gates && t.status.Done? ensures !h.status.Open? {
      var i :| 0 <= i < |gates| && gates[i] == h;
      assert t.gates[i] in t.gates;
    }
    GatesSafe(s, x, gates);
  }

  lemma SettleGateSafe(s: State, c: Caller, x: nat, name: string, to: GateStatus, evidence: Option<string>,
                       digest: Option<string>, note: Option<string>, why: Option<string>, wellFormed: bool)
    requires to != Open
    requires Inv(s) && SettleGate(s, c, x, name, to, evidence, digest, note, why, wellFormed).Committed?
    ensures Inv(SettleGate(s, c, x, name, to, evidence, digest, note, why, wellFormed).state)
  {
    var gate := FindGate(s.tasks[x].gates, name).value.(
                  status := to, evidence := evidence, digest := digest,
                  note := if to.Waived? then why else note, resolvedAt := Some(c.at));
    SwapGateSafe(s, x, name, gate);
    var after := SettleGate(s, c, x, name, to, evidence, digest, note, why, wellFormed).state;
    InvLogged(WithGates(s, x, Replaced(s.tasks[x].gates, name, gate)), after.log[|s.log|]);
  }

  lemma RemoveGateSafe(s: State, c: Caller, x: nat, name: string, why: string)
    requires Inv(s) && RemoveGate(s, c, x, name, why).Committed?
    ensures Inv(RemoveGate(s, c, x, name, why).state)
  {
    var t := s.tasks[x];
    assert RowOk(s, t);
    RemovedGates(t.gates, name);
    GatesSafe(s, x, Removed(t.gates, name));
    InvLogged(WithGates(s, x, Removed(t.gates, name)), RemoveGate(s, c, x, name, why).state.log[|s.log|]);
  }

  lemma ReopenGateSafe(s: State, c: Caller, x: nat, name: string, why: Option<string>)
    requires Inv(s) && ReopenGate(s, c, x, name, why).Committed?
    ensures Inv(ReopenGate(s, c, x, name, why).state)
  {
    var open := FindGate(s.tasks[x].gates, name).value.(
                  status := Open, evidence := None, digest := None, note := None, resolvedAt := None);
    SwapGateSafe(s, x, name, open);
    var after := ReopenGate(s, c, x, name, why).state;
    InvLogged(WithGates(s, x, Replaced(s.tasks[x].gates, name, open)), after.log[|s.log|]);
  }

  // ---- plans ----

  lemma PlansSafe(s: State, plans: seq<Plan>)
    requires Inv(s) && PlansOk(s.(plans := plans)) && |plans| >= |s.plans|
    requires forall x :: x in s.tasks && Live(s.tasks[x].status) && s.tasks[x].plan < |s.plans| ==>
               !plans[s.tasks[x].plan].status.PlanDone?
    ensures Inv(s.(plans := plans))
  {
    var u := s.(plans := plans);
    forall y | y in u.tasks
      ensures y > 0 && RowOk(u, u.tasks[y]) && ParentOk(u, u.tasks[y]) && ReplacementOk(u, u.tasks[y])
    {
      assert RowOk(s, s.tasks[y]) && ParentOk(s, s.tasks[y]) && ReplacementOk(s, s.tasks[y]);
    }
    SameGraphs(s, u);
  }

  lemma LiveTasksKeepPlans(s: State, x: nat)
    requires Inv(s) && x in s.tasks
    ensures s.tasks[x].plan < |s.plans| && (Live(s.tasks[x].status) ==> !s.plans[s.tasks[x].plan].status.PlanDone?)
  {
    assert RowOk(s, s.tasks[x]);
  }

  lemma AddPlanSafe(s: State, c: Caller, slug: string, title: string, intent: string)
    requires Inv(s) && AddPlan(s, c, slug, title, intent).Committed?
    ensures Inv(AddPlan(s, c, slug, title, intent).state)
  {
    var plans := s.plans + [Plan(Trim(slug), Trim(title), intent, PlanActive)];
    TrimTwice(slug);
    forall x | x in s.tasks ensures s.tasks[x].plan < |s.plans|
        && (Live(s.tasks[x].status) ==> !plans[s.tasks[x].plan].status.PlanDone?) {
      LiveTasksKeepPlans(s, x);
    }
    PlansSafe(s, plans);
    InvLogged(s.(plans := plans), AddPlan(s, c, slug, title, intent).state.log[|s.log|]);
  }

  lemma EditPlanSafe(s: State, c: Caller, slug: string, title: Option<string>, intent: Option<string>,
                     why: Option<string>)
    requires Inv(s) && EditPlan(s, c, slug, title, intent, why).Committed?
    ensures Inv(EditPlan(s, c, slug, title, intent, why).state)
  {
    var after := EditPlan(s, c, slug, title, intent, why).state;
    forall x | x in s.tasks ensures s.tasks[x].plan < |s.plans|
        && (Live(s.tasks[x].status) ==> !after.plans[s.tasks[x].plan].status.PlanDone?) {
      LiveTasksKeepPlans(s, x);
    }
    PlansSafe(s, after.plans);
    InvLogged(s.(plans := after.plans), after.log[|s.log|]);
  }

  lemma SetPlanStatusSafe(s: State, c: Caller, slug: string, status: PlanStatus, why: Option<string>)
    requires Inv(s) && SetPlanStatus(s, c, slug, status, why).Committed?
    ensures Inv(SetPlanStatus(s, c, slug, status, why).state)
  {
    var after := SetPlanStatus(s, c, slug, status, why).state;
    forall x | x in s.tasks ensures s.tasks[x].plan < |s.plans|
        && (Live(s.tasks[x].status) ==> !after.plans[s.tasks[x].plan].status.PlanDone?) {
      LiveTasksKeepPlans(s, x);
    }
    PlansSafe(s, after.plans);
    InvLogged(s.(plans := after.plans), after.log[|s.log|]);
  }
}
