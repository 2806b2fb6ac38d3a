/** Gate, plan, review and note steps. */
module GatesAndPlans {
  import opened Basics
  import opened Records
  import opened Review
  import opened Waiting
  import opened Definition

  // ---- gates ----

  function WithGates(s: State, x: nat, gates: seq<Gate>): State
    requires x in s.tasks
  {
    Put(s, x, s.tasks[x].(gates := gates))
  }

  function Replaced(gates: seq<Gate>, name: string, g: Gate): seq<Gate> {
    if gates == [] then []
    else [if gates[0].name == name then g else gates[0]] + Replaced(gates[1..], name, g)
  }

  function Removed(gates: seq<Gate>, name: string): seq<Gate> {
    if gates == [] then []
    else if gates[0].name == name then Removed(gates[1..], name)
    else [gates[0]] + Removed(gates[1..], name)
  }

  function AddGate(s: State, c: Caller, x: nat, name: string, kind: GateKind, requirement: string): Outcome {
    if Blank(name) || Blank(requirement) then Refused(BlankText)
    else if x !in s.tasks then Refused(NoTask(x))
    else if Closed(s.tasks[x].status) then Refused(AlreadyClosed)
    else if FindGate(s.tasks[x].gates, Trim(name)).Some? then Refused(GateExists)
    else
      var gate := Gate(Trim(name), kind, Trim(requirement), Open, None, None, None, None);
      var added := WithGates(s, x, s.tasks[x].gates + [gate]);
      Committed(Logged(added, Stamped(added, c, GateEntity, x, Some(Trim(name)), None, GateCreated(kind))))
  }

  predicate HasOpenGate(s: State, x: nat, name: string) {
    x in s.tasks && var g := FindGate(s.tasks[x].gates, name); g.Some? && g.value.status.Open?
  }

  /** Resolve with evidence, or waive with a reason; `wellFormed` is the outcome of locator and digest syntax checks. */
  function SettleGate(s: State, c: Caller, x: nat, name: string, to: GateStatus, evidence: Option<string>,
                      digest: Option<string>, note: Option<string>, why: Option<string>, wellFormed: bool): Outcome {
    if x !in s.tasks then Refused(NoTask(x))
    else if !HasOpenGate(s, x, name) then Refused(NoGate)
    else if !wellFormed then Refused(InvalidEvidence)
    else
      var gate := FindGate(s.tasks[x].gates, name).value.(
                    status := to, evidence := evidence, digest := digest,
                    note := if to.Waived? then why else note, resolvedAt := Some(c.at));
      var settled := WithGates(s, x, Replaced(s.tasks[x].gates, name, gate));
      Committed(Logged(settled, Stamped(settled, c, GateEntity, x, Some(name), why, GateSettled(to, evidence))))
  }

  function ResolveGate(s: State, c: Caller, x: nat, name: string, evidence: string, digest: Option<string>,
                       note: Option<string>, wellFormed: bool): Outcome {
    SettleGate(s, c, x, name, Resolved, Some(evidence), digest, note, None, wellFormed)
  }

  function WaiveGate(s: State, c: Caller, x: nat, name: string, why: string): Outcome {
    if Blank(why) then Refused(ReasonRequired)
    else SettleGate(s, c, x, name, Waived, None, None, None, Some(why), true)
  }

  function RemoveGate(s: State, c: Caller, x: nat, name: string, why: string): Outcome {
    if Blank(why) then Refused(ReasonRequired)
    else if x !in s.tasks then Refused(NoTask(x))
    else if !HasOpenGate(s, x, name) then Refused(NoGate)
    else
      var gate := FindGate(s.tasks[x].gates, name).value;
      var removed := WithGates(s, x, Removed(s.tasks[x].gates, name));
      Committed(Logged(removed, OnTask(removed, c, x, Some(why), GateRemoved(name, gate.kind, gate.requirement))))
  }

  function ReopenGate(s: State, c: Caller, x: nat, name: string, why: Option<string>): Outcome {
    if x !in s.tasks then Refused(NoTask(x))
    else if Closed(s.tasks[x].status) then Refused(AlreadyClosed)
    else if FindGate(s.tasks[x].gates, name).None? then Refused(NoGate)
    else
      var gate := FindGate(s.tasks[x].gates, name).value;
      if gate.status.Open? then Refused(GateAlreadyOpen)
      else
        var open := gate.(status := Open, evidence := None, digest := None, note := None, resolvedAt := None);
        var reopened := WithGates(s, x, Replaced(s.tasks[x].gates, name, open));
        Committed(Logged(reopened, Stamped(reopened, c, GateEntity, x, Some(name), Given(why), GateReopened(gate.status))))
  }

  // ---- plans ----

  function PlanEvent(c: Caller, slug: string, why: Option<string>, payload: Payload): Event {
    Event(c.at, c.author, PlanEntity, Some(slug), None, None, why, payload)
  }

  ghost function AddPlan(s: State, c: Caller, slug: string, title: string, intent: string): Outcome {
    if Blank(slug) || Blank(title) then Refused(BlankText)
    else if PlanOfSlug(s, Trim(slug)) < |s.plans| then Refused(SlugTaken)
    else
      var added := s.(plans := s.plans + [Plan(Trim(slug), Trim(title), intent, PlanActive)]);
      Committed(Logged(added, PlanEvent(c, Trim(slug), None, PlanCreated(Trim(slug)))))
  }

  ghost function EditPlan(s: State, c: Caller, slug: string, title: Option<string>, intent: Option<string>,
                          why: Option<string>): Outcome {
    var p := PlanOfSlug(s, slug);
    if title.None? && intent.None? then Refused(NothingToEdit)
    else if p == |s.plans| then Refused(NoPlan)
    else if title.Some? && Blank(title.value) then Refused(BlankText)
    else
      var plan := s.plans[p].(title := if title.Some? then Trim(title.value) else s.plans[p].title,
                              intent := if intent.Some? then intent.value else s.plans[p].intent);
      Committed(Logged(s.(plans := s.plans[p := plan]), PlanEvent(c, slug, Given(why), PlanEdited)))
  }

  ghost predicate NoLiveTaskIn(s: State, p: nat) {
    forall x :: x in s.tasks && s.tasks[x].plan == p ==> Closed(s.tasks[x].status)
  }

  ghost function SetPlanStatus(s: State, c: Caller, slug: string, status: PlanStatus, why: Option<string>): Outcome {
    var p := PlanOfSlug(s, slug);
    if p == |s.plans| then Refused(NoPlan)
    else if status.PlanDone? && !NoLiveTaskIn(s, p) then Refused(PlanHasLiveTasks)
    else
      Committed(Logged(s.(plans := s.plans[p := s.plans[p].(status := status)]),
                       PlanEvent(c, slug, Given(why), PlanStatusSet(status))))
  }

  // ---- reviews and notes ----

  /** The author of the latest completion of x. */
  function Completer(log: seq<Event>, x: nat): Option<Author> {
    if log == [] then None
    else
      var e := log[|log| - 1];
      if TaskEventOf(e, x) && e.payload.StatusChanged? && e.payload.to.Done? then Some(e.author)
      else Completer(log[..|log| - 1], x)
  }

  /** A review must come from a different author than the claim. */
  function ReviewTask(s: State, c: Caller, x: nat, target: ReviewTarget, verdict: Verdict, why: string): Outcome {
    if Blank(why) then Refused(ReasonRequired)
    else if x !in s.tasks then Refused(NoTask(x))
    else if target.OfResult? && !s.tasks[x].status.Done? then Refused(NotDone)
    else
      var claimant := if target.OfFiling? then Filer(s.log, x) else Completer(s.log, x);
      if claimant.Some? && SameAuthor(c.author, claimant.value) then Refused(SelfReview)
      else Committed(Logged(s, OnTask(s, c, x, Some(why), Reviewed(target, verdict))))
  }

  function AddNote(s: State, c: Caller, x: Option<nat>, text: string): Outcome {
    if x.None? then Committed(Logged(s, Event(c.at, c.author, PlanEntity, None, None, None, Some(text), Noted)))
    else if x.value !in s.tasks then Refused(NoTask(x.value))
    else Committed(Logged(s, OnTask(s, c, x.value, Some(text), Noted)))
  }
}
