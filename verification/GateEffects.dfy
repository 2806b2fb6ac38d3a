/** When gate, plan, review and note calls commit, exactly, and what they then store and record. */
module GateEffects {
  import opened Basics
  import opened Graphs
  import opened Records
  import opened Review
  import opened Waiting
  import opened Definition
  import opened GatesAndPlans
  import opened Invariants
  import opened HistoryRuns
  import opened ReviewRuns
  import opened Runs
  import opened StatusEffects

  // ---- gates ----

  /** The gate at position i has that name. */
  predicate GateAt(s: State, x: nat, i: nat, name: string) {
    x in s.tasks && i < |s.tasks[x].gates| && s.tasks[x].gates[i].name == name
  }

  predicate OpenGateAt(s: State, x: nat, i: nat, name: string) {
    GateAt(s, x, i, name) && s.tasks[x].gates[i].status == Open
  }

  predicate SettledGateAt(s: State, x: nat, i: nat, name: string) {
    GateAt(s, x, i, name) && s.tasks[x].gates[i].status != Open
  }

  predicate NamesApart(gates: seq<Gate>) { forall i, j :: 0 <= i < j < |gates| ==> gates[i].name != gates[j].name }

  lemma {:induction false} FoundAt(gates: seq<Gate>, i: nat)
    requires NamesApart(gates) && i < |gates|
    ensures FindGate(gates, gates[i].name) == Some(gates[i])
    decreases |gates|
  {
    if i > 0 { FoundAt(gates[1..], i - 1); }
  }

  lemma {:induction false} ReplacedAt(gates: seq<Gate>, i: nat, g: Gate)
    requires NamesApart(gates) && i < |gates|
    ensures Replaced(gates, gates[i].name, g) == gates[i := g]
    decreases |gates|
  {
    if i == 0 {
      NotReplaced(gates[1..], gates[0].name, g);
      assert gates == [gates[0]] + gates[1..];
    } else {
      ReplacedAt(gates[1..], i - 1, g);
    }
  }

  lemma {:induction false} NotReplaced(gates: seq<Gate>, name: string, g: Gate)
    requires forall k :: 0 <= k < |gates| ==> gates[k].name != name
    ensures Replaced(gates, name, g) == gates && Removed(gates, name) == gates
    decreases |gates|
  {
    if gates != [] { NotReplaced(gates[1..], name, g); }
  }

  lemma {:induction false} RemovedAt(gates: seq<Gate>, i: nat)
    requires NamesApart(gates) && i < |gates|
    ensures Removed(gates, gates[i].name) == gates[..i] + gates[i + 1..]
    decreases |gates|
  {
    if i == 0 {
      NotReplaced(gates[1..], gates[0].name, gates[0]);
    } else {
      RemovedAt(gates[1..], i - 1);
      assert gates[..i] == [gates[0]] + gates[1..][..i - 1];
    }
  }

  lemma GatePosition(s: State, x: nat, name: string) returns (i: nat)
    requires Rows(s) && x in s.tasks
    ensures NamesApart(s.tasks[x].gates)
    ensures if FindGate(s.tasks[x].gates, name).Some?
            then GateAt(s, x, i, name) && FindGate(s.tasks[x].gates, name).value == s.tasks[x].gates[i]
            else forall k :: !GateAt(s, x, k, name)
  {
    assert RowOk(s, s.tasks[x]);
    var gates := s.tasks[x].gates;
    i := 0;
    if FindGate(gates, name).Some? {
      var g := FindGate(gates, name).value;
      i :| 0 <= i < |gates| && gates[i] == g;
    } else {
      forall k: nat ensures !GateAt(s, x, k, name) {
        if k < |gates| { assert gates[k] in gates; }
      }
    }
  }

  /** Nothing but the gates of x differs in the tables. */
  predicate OnlyGates(s: State, u: State, x: nat, gates: seq<Gate>) {
    && x in s.tasks && u.plans == s.plans && u.deps == s.deps
    && u.tasks == s.tasks[x := s.tasks[x].(gates := gates)]
  }

  predicate GateTold(s: State, u: State, c: Caller, x: nat, name: string, why: Option<string>, payload: Payload) {
    && x in s.tasks && s.tasks[x].plan < |s.plans|
    && u.log == s.log + [Event(c.at, c.author, GateEntity, Some(s.plans[s.tasks[x].plan].slug), Some(x), Some(name),
        why, payload)]
  }

  /** A gate is added exactly to a live task that has none of that name, with a name and a requirement. */
  lemma AddGateExactly(s: State, c: Caller, x: nat, name: string, kind: GateKind, requirement: string)
    requires Rows(s)
    ensures AddGate(s, c, x, name, kind, requirement).Committed? <==>
            && Trim(name) != "" && Trim(requirement) != "" && LiveTaskOf(s, x)
            && forall i :: !GateAt(s, x, i, Trim(name))
  {
    if x in s.tasks { var i := GatePosition(s, x, Trim(name)); }
  }

  /** The new gate is open, without outcome, and stored last. */
  predicate GateAdded(s: State, u: State, c: Caller, x: nat, name: string, kind: GateKind, requirement: string) {
    && x in s.tasks
    && var gate := Gate(Trim(name), kind, Trim(requirement), Open, None, None, None, None);
       OnlyGates(s, u, x, s.tasks[x].gates + [gate]) && GateTold(s, u, c, x, Trim(name), None, GateCreated(kind))
  }

  lemma AddGateWrites(s: State, c: Caller, x: nat, name: string, kind: GateKind, requirement: string)
    requires Rows(s) && AddGate(s, c, x, name, kind, requirement).Committed?
    ensures GateAdded(s, AddGate(s, c, x, name, kind, requirement).state, c, x, name, kind, requirement)
  {
    assert RowOk(s, s.tasks[x]);
  }

  lemma OpenExactly(s: State, x: nat, name: string)
    requires Rows(s)
    ensures HasOpenGate(s, x, name) <==> exists i :: OpenGateAt(s, x, i, name)
  {
    if x in s.tasks {
      var i := GatePosition(s, x, name);
      if k :| OpenGateAt(s, x, k, name) { FoundAt(s.tasks[x].gates, k); }
      if HasOpenGate(s, x, name) { assert OpenGateAt(s, x, i, name); }
    }
  }

  /** A gate is resolved exactly when it is open and the evidence is well formed. */
  lemma ResolveExactly(s: State, c: Caller, x: nat, name: string, evidence: string, digest: Option<string>,
                       note: Option<string>, wellFormed: bool)
    requires Rows(s)
    ensures ResolveGate(s, c, x, name, evidence, digest, note, wellFormed).Committed? <==>
            wellFormed && exists i :: OpenGateAt(s, x, i, name)
  {
    OpenExactly(s, x, name);
  }

  /** A gate is waived exactly when it is open and a reason is given. */
  lemma WaiveExactly(s: State, c: Caller, x: nat, name: string, why: string)
    requires Rows(s)
    ensures WaiveGate(s, c, x, name, why).Committed? <==> Trim(why) != "" && exists i :: OpenGateAt(s, x, i, name)
  {
    OpenExactly(s, x, name);
  }

  /** The open gate of that name, at position i, keeps its kind and requirement and carries the outcome; no other gate
      changes. */
  predicate GateSettledAt(s: State, u: State, c: Caller, x: nat, name: string, i: nat, to: GateStatus,
                          evidence: Option<string>,
                          digest: Option<string>, note: Option<string>, why: Option<string>)
  {
    && OpenGateAt(s, x, i, name)
    && var was := s.tasks[x].gates[i];
       var gate := Gate(name, was.kind, was.requirement, to, evidence, digest, note, Some(c.at));
       OnlyGates(s, u, x, s.tasks[x].gates[i := gate]) && GateTold(s, u, c, x, name, why, GateSettled(to, evidence))
  }

  lemma SettleWrites(s: State, c: Caller, x: nat, name: string, to: GateStatus, evidence: Option<string>,
                     digest: Option<string>, note: Option<string>, why: Option<string>) returns (i: nat)
    requires Rows(s) && SettleGate(s, c, x, name, to, evidence, digest, note, why, true).Committed?
    ensures GateSettledAt(s, SettleGate(s, c, x, name, to, evidence, digest, note, why, true).state, c, x, name, i, to,
                          evidence, digest, if to == Waived then why else note, why)
  {
    assert RowOk(s, s.tasks[x]);
    i := GatePosition(s, x, name);
    var was := s.tasks[x].gates[i];
    ReplacedAt(s.tasks[x].gates, i, Gate(name, was.kind, was.requirement, to, evidence, digest,
                                         if to == Waived then why else note, Some(c.at)));
  }

  lemma ResolveWrites(s: State, c: Caller, x: nat, name: string, evidence: string, digest: Option<string>,
                      note: Option<string>, wellFormed: bool) returns (i: nat)
    requires Rows(s) && ResolveGate(s, c, x, name, evidence, digest, note, wellFormed).Committed?
    ensures GateSettledAt(s, ResolveGate(s, c, x, name, evidence, digest, note, wellFormed).state, c, x, name, i,
        Resolved,
                          Some(evidence), digest, note, None)
  {
    i := SettleWrites(s, c, x, name, Resolved, Some(evidence), digest, note, None);
  }

  /** A waived gate has the reason as its note. */
  lemma WaiveWrites(s: State, c: Caller, x: nat, name: string, why: string) returns (i: nat)
    requires Rows(s) && WaiveGate(s, c, x, name, why).Committed?
    ensures GateSettledAt(s, WaiveGate(s, c, x, name, why).state, c, x, name, i, Waived, None, None, Some(why),
        Some(why))
  {
    i := SettleWrites(s, c, x, name, Waived, None, None, None, Some(why));
  }

  /** An open gate is removed exactly with a reason, and the others keep their order. */
  lemma RemoveGateExactly(s: State, c: Caller, x: nat, name: string, why: string)
    requires Rows(s)
    ensures RemoveGate(s, c, x, name, why).Committed? <==> Trim(why) != "" && exists i :: OpenGateAt(s, x, i, name)
  {
    OpenExactly(s, x, name);
  }

  /** The open gate of that name is gone and the others keep their order. */
  predicate GateRemovedAt(s: State, u: State, c: Caller, x: nat, name: string, i: nat, why: string) {
    && OpenGateAt(s, x, i, name)
    && var gates := s.tasks[x].gates;
       && OnlyGates(s, u, x, gates[..i] + gates[i + 1..])
       && TellsOf(s, u, c, x, Some(why), GateRemoved(name, gates[i].kind, gates[i].requirement))
  }

  lemma RemoveGateWrites(s: State, c: Caller, x: nat, name: string, why: string) returns (i: nat)
    requires Rows(s) && RemoveGate(s, c, x, name, why).Committed?
    ensures GateRemovedAt(s, RemoveGate(s, c, x, name, why).state, c, x, name, i, why)
  {
    assert RowOk(s, s.tasks[x]);
    i := GatePosition(s, x, name);
    RemovedAt(s.tasks[x].gates, i);
  }

  /** A settled gate of a live task can be reopened, and then nothing of its outcome is left. */
  lemma ReopenGateExactly(s: State, c: Caller, x: nat, name: string, why: Option<string>)
    requires Rows(s)
    ensures ReopenGate(s, c, x, name, why).Committed? <==>
            LiveTaskOf(s, x) && exists i :: SettledGateAt(s, x, i, name)
  {
    if x in s.tasks {
      var i := GatePosition(s, x, name);
      if k :| SettledGateAt(s, x, k, name) { FoundAt(s.tasks[x].gates, k); }
      if FindGate(s.tasks[x].gates, name).Some? && !OpenGateAt(s, x, i, name) { assert SettledGateAt(s, x, i, name); }
    }
  }

  /** The gate is open again, and nothing of its outcome is left. */
  predicate GateReopenedAt(s: State, u: State, c: Caller, x: nat, name: string, i: nat, why: Option<string>) {
    && SettledGateAt(s, x, i, name)
    && var was := s.tasks[x].gates[i];
       var gate := Gate(name, was.kind, was.requirement, Open, None, None, None, None);
       && OnlyGates(s, u, x, s.tasks[x].gates[i := gate])
       && |u.log| > |s.log| && IsGiven(why, u.log[|s.log|].why)
       && GateTold(s, u, c, x, name, u.log[|s.log|].why, GateReopened(was.status))
  }

  lemma ReopenGateWrites(s: State, c: Caller, x: nat, name: string, why: Option<string>) returns (i: nat)
    requires Rows(s) && ReopenGate(s, c, x, name, why).Committed?
    ensures GateReopenedAt(s, ReopenGate(s, c, x, name, why).state, c, x, name, i, why)
  {
    assert RowOk(s, s.tasks[x]);
    i := GatePosition(s, x, name);
    var was := s.tasks[x].gates[i];
    ReplacedAt(s.tasks[x].gates, i, Gate(name, was.kind, was.requirement, Open, None, None, None, None));
  }

  // ---- plans ----

  predicate NoSuchPlan(s: State, slug: string) { forall p :: 0 <= p < |s.plans| ==> s.plans[p].slug != slug }

  predicate PlanTold(s: State, u: State, c: Caller, slug: string, why: Option<string>, payload: Payload) {
    && u.tasks == s.tasks && u.deps == s.deps
    && u.log == s.log + [Event(c.at, c.author, PlanEntity, Some(slug), None, None, why, payload)]
  }

  /** The new plan is active and stored last. */
  predicate PlanAdded(s: State, u: State, c: Caller, slug: string, title: string, intent: string) {
    && u.plans == s.plans + [Plan(Trim(slug), Trim(title), intent, PlanActive)]
    && PlanTold(s, u, c, Trim(slug), None, PlanCreated(Trim(slug)))
  }

  /** A plan is added exactly with a title and a slug no plan has. */
  lemma AddPlanExactly(s: State, c: Caller, slug: string, title: string, intent: string)
    ensures AddPlan(s, c, slug, title, intent).Committed? <==>
            Trim(slug) != "" && Trim(title) != "" && NoSuchPlan(s, Trim(slug))
    ensures AddPlan(s, c, slug, title, intent).Committed? ==>
              PlanAdded(s, AddPlan(s, c, slug, title, intent).state, c, slug, title, intent)
  {
  }

  /** The plan of that slug takes the title and intent given and keeps what is not given; no other plan changes. */
  predicate PlanEditedBy(s: State, u: State, c: Caller, slug: string, title: Option<string>, intent: Option<string>,
                         why: Option<string>)
  {
    && |u.plans| == |s.plans| && |u.log| > |s.log| && IsGiven(why, u.log[|s.log|].why)
    && PlanTold(s, u, c, slug, u.log[|s.log|].why, PlanEdited)
    && forall p :: 0 <= p < |s.plans| ==>
         u.plans[p] == if s.plans[p].slug != slug then s.plans[p]
                       else Plan(slug, if title.Some? then Trim(title.value) else s.plans[p].title,
                                 if intent.Some? then intent.value else s.plans[p].intent, s.plans[p].status)
  }

  lemma EditPlanExactly(s: State, c: Caller, slug: string, title: Option<string>, intent: Option<string>,
                        why: Option<string>)
    requires PlansOk(s)
    ensures EditPlan(s, c, slug, title, intent, why).Committed? <==>
            (title.Some? || intent.Some?) && !NoSuchPlan(s, slug) && (title.Some? ==> Trim(title.value) != "")
    ensures EditPlan(s, c, slug, title, intent, why).Committed? ==>
              PlanEditedBy(s, EditPlan(s, c, slug, title, intent, why).state, c, slug, title, intent, why)
  {
  }

  /** Only the status of the plan of that slug differs. */
  predicate PlanSetBy(s: State, u: State, c: Caller, slug: string, status: PlanStatus, why: Option<string>) {
    && |u.plans| == |s.plans| && |u.log| > |s.log| && IsGiven(why, u.log[|s.log|].why)
    && PlanTold(s, u, c, slug, u.log[|s.log|].why, PlanStatusSet(status))
    && forall p :: 0 <= p < |s.plans| ==>
         u.plans[p] == if s.plans[p].slug == slug then s.plans[p].(status := status) else s.plans[p]
  }

  /** None of the plan's tasks is unfinished. */
  predicate PlanFinished(s: State, slug: string) {
    forall x :: x in s.tasks && s.tasks[x].status in {Proposed, InProgress} ==>
      !(s.tasks[x].plan < |s.plans| && s.plans[s.tasks[x].plan].slug == slug)
  }

  /** A plan becomes done exactly when none of its tasks is unfinished, and anything else always. */
  lemma SetPlanExactly(s: State, c: Caller, slug: string, status: PlanStatus, why: Option<string>)
    requires PlansOk(s)
    ensures SetPlanStatus(s, c, slug, status, why).Committed? <==>
            !NoSuchPlan(s, slug) && (status == PlanDone ==> PlanFinished(s, slug))
    ensures SetPlanStatus(s, c, slug, status, why).Committed? ==>
              PlanSetBy(s, SetPlanStatus(s, c, slug, status, why).state, c, slug, status, why)
  {
  }

  // ---- reviews and notes ----

  /** Two authors count as one: by session when both have one, otherwise by name. */
  predicate SamePerson(a: Author, b: Author) {
    || (a.session.Some? && b.session.Some? && a.session.value == b.session.value)
    || ((a.session.None? || b.session.None?) && a.actor == b.actor)
  }

  /** Event i makes the claim: the task's first creation, or its latest completion. */
  ghost predicate ClaimMadeAt(log: seq<Event>, target: ReviewTarget, x: nat, i: nat) {
    && i < |log| && log[i].entity == TaskEntity && log[i].task == Some(x)
    && if target == OfFiling
       then log[i].payload.Created? && forall j :: 0 <= j < i ==> !CreatesTask(log[j], x)
       else CompletesTask(log[i], x) && forall j :: i < j < |log| ==> !CompletesTask(log[j], x)
  }

  predicate CreatesTask(e: Event, x: nat) { e.entity == TaskEntity && e.task == Some(x) && e.payload.Created? }

  predicate CompletesTask(e: Event, x: nat) {
    e.entity == TaskEntity && e.task == Some(x) && e.payload.StatusChanged? && e.payload.to == Done
  }

  lemma {:induction false} FilerAt(log: seq<Event>, x: nat) returns (i: nat)
    ensures Filer(log, x).Some? ==> ClaimMadeAt(log, OfFiling, x, i) && log[i].author == Filer(log, x).value
    ensures Filer(log, x).None? ==> forall j :: 0 <= j < |log| ==> !CreatesTask(log[j], x)
    decreases |log|
  {
    i := 0;
    if log != [] && !CreatesTask(log[0], x) {
      var k := FilerAt(log[1..], x);
      i := k + 1;
      forall j | 0 < j < |log| ensures log[j] == log[1..][j - 1] { }
    }
  }

  lemma {:induction false} CompleterAt(log: seq<Event>, x: nat) returns (i: nat)
    ensures Completer(log, x).Some? ==> ClaimMadeAt(log, OfResult, x, i) && log[i].author == Completer(log, x).value
    ensures Completer(log, x).None? ==> forall j :: 0 <= j < |log| ==> !CompletesTask(log[j], x)
    decreases |log|
  {
    i := 0;
    if log != [] {
      var n := |log| - 1;
      if CompletesTask(log[n], x) {
        i := n;
      } else {
        i := CompleterAt(log[..n], x);
      }
    }
  }

  lemma OneClaim(log: seq<Event>, target: ReviewTarget, x: nat, i: nat, j: nat)
    requires ClaimMadeAt(log, target, x, i) && ClaimMadeAt(log, target, x, j)
    ensures i == j
  {
    assert CreatesTask(log[i], x) || CompletesTask(log[i], x);
    assert CreatesTask(log[j], x) || CompletesTask(log[j], x);
  }

  /** A review needs a reason, a task there is, a result only while it stands, and someone other than the author of the
      claim: the one who filed the task first, or completed it last. */
  ghost predicate MayReview(s: State, c: Caller, x: nat, target: ReviewTarget, why: string) {
    && Trim(why) != "" && x in s.tasks && (target == OfResult ==> s.tasks[x].status == Done)
    && forall i: nat :: ClaimMadeAt(s.log, target, x, i) ==> !SamePerson(c.author, s.log[i].author)
  }

  lemma ReviewExactly(s: State, c: Caller, x: nat, target: ReviewTarget, verdict: Verdict, why: string)
    ensures ReviewTask(s, c, x, target, verdict, why).Committed? <==> MayReview(s, c, x, target, why)
  {
    var k, claimant;
    if target.OfFiling? {
      k := FilerAt(s.log, x);
      claimant := Filer(s.log, x);
    } else {
      k := CompleterAt(s.log, x);
      claimant := Completer(s.log, x);
    }
    forall i: nat | ClaimMadeAt(s.log, target, x, i) ensures claimant == Some(s.log[i].author) {
      assert CreatesTask(s.log[i], x) || CompletesTask(s.log[i], x);
      if claimant.Some? { OneClaim(s.log, target, x, i, k); }
    }
  }

  lemma ReviewWrites(s: State, c: Caller, x: nat, target: ReviewTarget, verdict: Verdict, why: string)
    requires Rows(s) && ReviewTask(s, c, x, target, verdict, why).Committed?
    ensures var u := ReviewTask(s, c, x, target, verdict, why).state;
            u.(log := s.log) == s && TellsOf(s, u, c, x, Some(why), Reviewed(target, verdict))
  {
    assert RowOk(s, s.tasks[x]);
  }

  /** Nothing but the log differs: one note, about the task if one is named. */
  predicate NotedBy(s: State, u: State, c: Caller, about: Option<nat>, text: string) {
    && u.(log := s.log) == s
    && if about.Some? then TellsOf(s, u, c, about.value, Some(text), Noted)
       else u.log == s.log + [Event(c.at, c.author, PlanEntity, None, None, None, Some(text), Noted)]
  }

  /** A note is recorded about any task there is, or about none. */
  lemma NoteExactly(s: State, c: Caller, about: Option<nat>, text: string)
    requires Rows(s)
    ensures AddNote(s, c, about, text).Committed? <==> (about.Some? ==> about.value in s.tasks)
    ensures AddNote(s, c, about, text).Committed? ==> NotedBy(s, AddNote(s, c, about, text).state, c, about, text)
  {
    if about.Some? && about.value in s.tasks { assert RowOk(s, s.tasks[about.value]); }
  }
}
