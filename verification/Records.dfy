/** The stored authority: plans, tasks, dependency edges, gates and the event log.

    Tasks are identified by their number, plans by their position in creation
    order (neither is ever deleted), and a task's gates are kept in creation
    order. Times, digests and evidence locators are opaque strings. */
module Records {
  import opened Basics
  import opened Graphs

  // ---- text ----

  /** Unicode White_Space, what trimming removes. */
  predicate White(c: char) {
    var u := c as int;
    || 9 <= u <= 13 || u == 0x20 || u == 0x85 || u == 0xA0 || u == 0x1680
    || 0x2000 <= u <= 0x200A || u == 0x2028 || u == 0x2029 || u == 0x202F
    || u == 0x205F || u == 0x3000
  }

  function TrimStart(s: string): string {
    if s != "" && White(s[0]) then TrimStart(s[1..]) else s
  }

  function TrimEnd(s: string): string {
    if s != "" && White(s[|s| - 1]) then TrimEnd(s[..|s| - 1]) else s
  }

  function Trim(s: string): string { TrimEnd(TrimStart(s)) }

  predicate Blank(s: string) { Trim(s) == "" }

  /** An optional rationale: trimmed when given, absent when blank. */
  function Given(why: Option<string>): Option<string> {
    if why.Some? && !Blank(why.value) then Some(Trim(why.value)) else None
  }

  // ---- rows ----

  datatype Status = Proposed | InProgress | Done | Retired | Rejected

  predicate Live(status: Status) { status.Proposed? || status.InProgress? }

  predicate Closed(status: Status) { !Live(status) }

  datatype Kind = Goal | Feature | Change | Bug | Probe | Decision | Release | Work

  /** `Work` survives only on records older than typed kinds. */
  predicate Assignable(kind: Kind) { kind != Work }

  predicate RequiresResult(kind: Kind) { kind.Probe? || kind.Decision? || kind.Bug? }

  datatype Priority = Now | Next | Later

  datatype PlanStatus = PlanActive | PlanPaused | PlanDone | PlanRetired

  predicate Over(status: PlanStatus) { status.PlanDone? || status.PlanRetired? }

  datatype Plan = Plan(slug: string, title: string, intent: string, status: PlanStatus)

  datatype Pickup = Pickup(session: Option<string>, at: string, owner: Option<string>)

  datatype GateKind = TestGate | BenchmarkGate | ReviewGate | CaptureGate | FixtureGate | BuildGate
                    | DocGate | ExternalGate | OtherGate

  datatype GateStatus = Open | Resolved | Waived

  datatype Gate = Gate(name: string, kind: GateKind, requirement: string, status: GateStatus,
                       evidence: Option<string>, digest: Option<string>, note: Option<string>,
                       resolvedAt: Option<string>)

  datatype Task = Task(plan: nat, parent: Option<nat>, replacement: Option<nat>, title: string,
                       intent: string, kind: Kind, result: Option<string>, status: Status,
                       priority: Priority, pickup: Option<Pickup>, gates: seq<Gate>)

  const MAX_TITLE := 160

  predicate ValidTitle(title: string) { !Blank(title) && |Trim(title)| <= MAX_TITLE }

  predicate HasResult(result: Option<string>) { result.Some? && !Blank(result.value) }

  function FindGate(gates: seq<Gate>, name: string): (g: Option<Gate>)
    ensures g.Some? ==> g.value in gates && g.value.name == name
    ensures g.None? <==> forall gate :: gate in gates ==> gate.name != name
  {
    if gates == [] then None
    else if gates[0].name == name then Some(gates[0])
    else FindGate(gates[1..], name)
  }

  /** 1 to 128 ASCII letters, digits, '.', '_', ':' or '-', starting with a letter or digit. */
  predicate ValidSession(session: string) {
    && 1 <= |session| <= 128
    && (forall c :: c in session ==> Alphanumeric(c) || c == '.' || c == '_' || c == ':' || c == '-')
    && Alphanumeric(session[0])
  }

  predicate Alphanumeric(c: char) {
    '0' <= c <= '9' || 'a' <= c <= 'z' || 'A' <= c <= 'Z'
  }

  // ---- history ----

  datatype Author = Author(actor: string, session: Option<string>, model: Option<string>,
                           modelSource: Option<string>)

  /** Who mutates, when, and which process they run in: inputs of every mutation. */
  datatype Caller = Caller(author: Author, at: string, owner: Option<string>)

  datatype Entity = PlanEntity | TaskEntity | DepEntity | GateEntity

  datatype Field = TitleField | IntentField | KindField | PlanField | ParentField | PriorityField

  datatype Value = Null | Text(text: string) | Number(number: int) | KindName(kind: Kind) | Level(level: Priority)

  datatype Revision = Revision(before: Value, after: Value)

  datatype ReviewTarget = OfFiling | OfResult

  datatype Verdict = Confirms | Disputes

  datatype Payload =
    | Created(title: string, kind: Kind)
    | StatusChanged(from: Status, to: Status, result: Option<string>, previousPickup: Option<Pickup>,
                    pickup: Option<Pickup>, replacement: Option<nat>)
    | PickedUp(before: Option<Pickup>, after: Pickup)
    | Edited(fields: seq<Field>, changes: map<Field, Revision>)
    | DepAdded(on: nat)
    | DepRemoved(on: nat)
    | GateCreated(gateKind: GateKind)
    | GateSettled(settled: GateStatus, evidence: Option<string>)
    | GateReopened(settledAs: GateStatus)
    | GateRemoved(name: string, removedKind: GateKind, requirement: string)
    | Reviewed(target: ReviewTarget, verdict: Verdict)
    | Noted
    | PlanCreated(slug: string)
    | PlanEdited
    | PlanStatusSet(planStatus: PlanStatus)
    | Imported(tasks: nat, edges: nat, events: nat)

  /** Task, dependency and gate events carry the task's number and its plan's slug at record time. */
  datatype Event = Event(at: string, author: Author, entity: Entity, plan: Option<string>,
                         task: Option<nat>, gate: Option<string>, why: Option<string>, payload: Payload)

  datatype State = State(plans: seq<Plan>, tasks: map<nat, Task>, deps: Graph, log: seq<Event>)

  const EMPTY := State([], map[], {}, [])

  // ---- elementary updates ----

  function SlugAt(s: State, plan: nat): string {
    if plan < |s.plans| then s.plans[plan].slug else ""
  }

  function SlugOf(s: State, x: nat): string {
    if x in s.tasks then SlugAt(s, s.tasks[x].plan) else ""
  }

  function Put(s: State, x: nat, t: Task): State { s.(tasks := s.tasks[x := t]) }

  function Logged(s: State, e: Event): State { s.(log := s.log + [e]) }

  /** An event about task x, stamped with the plan x belongs to now. */
  function Stamped(s: State, c: Caller, entity: Entity, x: nat, gate: Option<string>, why: Option<string>,
                   payload: Payload): Event {
    Event(c.at, c.author, entity, Some(SlugOf(s, x)), Some(x), gate, why, payload)
  }

  function OnTask(s: State, c: Caller, x: nat, why: Option<string>, payload: Payload): Event {
    Stamped(s, c, TaskEntity, x, None, why, payload)
  }

  /** Whether an event belongs to the history of task x. */
  predicate About(e: Event, x: nat) { e.entity != PlanEntity && e.task == Some(x) }

  // ---- refusals ----

  datatype Refusal =
    | NoTask(task: nat) | NoPlan | PlanNotActive | PlanIsOver | PlanHasLiveTasks | SlugTaken | BlankText
    | InvalidSession | UnassignableKind | InvalidTitle
    | AlreadyClosed | AlreadyLive | NotReady | Unfinished | OpenGates | LiveChildren | ResultRequired
    | ReasonRequired | ParentIsClosed | WouldDeadlock | SupportsCompleted | IsReplacement
    | SelfReplacement | ReplacementElsewhere | ReplacementClosed | ReplacementCycle
    | ParentElsewhere | OwnParent | ParentCycle | NothingToEdit | NoChanges
    | SelfDependency | DependencyClosed | DependencyExists | DependencyCycle | NoDependency
    | GateExists | NoGate | GateAlreadyOpen | InvalidEvidence
    | NoSelection | RepeatedSelection | AlreadyThere | SplitsLinks | ReplacementCrossesPlans
    | NotDone | SelfReview | InvalidOutline | ImpossibleVisit | InvalidDump

  /** A mutation either refuses, leaving the authority as it was, or commits a new state. */
  datatype Outcome = Refused(why: Refusal) | Committed(state: State)
}
