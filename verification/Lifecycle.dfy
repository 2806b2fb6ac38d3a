/** Task transitions as steps from one state to the next: start, complete, reopen, retire, reject. */
module Lifecycle {
  import opened Basics
  import opened Graphs
  import opened Records
  import opened Waiting

  function Transition(s: State, c: Caller, x: nat, to: Status, why: Option<string>, result: Option<string>,
                      replacement: Option<nat>, pickup: Option<Pickup>): State
    requires x in s.tasks
  {
    var t := s.tasks[x];
    var moved := Put(s, x, t.(status := to, result := result, replacement := replacement, pickup := pickup));
    Logged(moved, OnTask(moved, c, x, why, StatusChanged(t.status, to, result, t.pickup, pickup, replacement)))
  }

  function PlanStatusOf(s: State, x: nat): PlanStatus
    requires x in s.tasks
  {
    if s.tasks[x].plan < |s.plans| then s.plans[s.tasks[x].plan].status else PlanRetired
  }

  /** Starting an in-progress task records its pickup; the same identified session again is eventless. */
  function RecordPickup(s: State, c: Caller, x: nat, why: Option<string>, session: Option<string>): State
    requires x in s.tasks
  {
    var t := s.tasks[x];
    if session.Some? && t.pickup.Some? && t.pickup.value.session == session then s
    else
      var pickup := Pickup(session, c.at, c.owner);
      var held := Put(s, x, t.(pickup := Some(pickup)));
      Logged(held, OnTask(held, c, x, why, PickedUp(t.pickup, pickup)))
  }

  /** External gates and disputed results hold a start; open dependencies hold only completion. */
  ghost function Start(s: State, c: Caller, x: nat, why: Option<string>, session: Option<string>): Outcome {
    if session.Some? && !ValidSession(session.value) then Refused(InvalidSession)
    else if x !in s.tasks then Refused(NoTask(x))
    else if s.tasks[x].status.InProgress? then Committed(RecordPickup(s, c, x, why, session))
    else if Closed(s.tasks[x].status) then Refused(AlreadyClosed)
    else if PlanStatusOf(s, x) != PlanActive then Refused(PlanNotActive)
    else if OpenExternal(s.tasks[x]) || !Undisputed(s, x) then Refused(NotReady)
    else Committed(Transition(s, c, x, InProgress, why, None, None, Some(Pickup(session, c.at, c.owner))))
  }

  ghost function Complete(s: State, c: Caller, x: nat, result: Option<string>): Outcome {
    if x !in s.tasks then Refused(NoTask(x))
    else if Closed(s.tasks[x].status) then Refused(AlreadyClosed)
    else if s.tasks[x].status.Proposed? && PlanStatusOf(s, x) != PlanActive then Refused(PlanNotActive)
    else if !DepsSettled(s, x) || OpenExternal(s.tasks[x]) || !Undisputed(s, x) then Refused(Unfinished)
    else if OpenGate(s.tasks[x]) then Refused(OpenGates)
    else if !NoLiveChild(s, x) then Refused(LiveChildren)
    else if RequiresResult(s.tasks[x].kind) && Given(result).None? then Refused(ResultRequired)
    else Committed(Transition(s, c, x, Done, Given(result), Given(result), None, None))
  }

  ghost function Reopen(s: State, c: Caller, x: nat, why: Option<string>): Outcome {
    if x !in s.tasks then Refused(NoTask(x))
    else
      var t := s.tasks[x];
      var reopened := Transition(s, c, x, Proposed, Given(why), None, None, None);
      if t.status.InProgress? then Committed(reopened)
      else if t.status.Proposed? then Refused(AlreadyLive)
      else if Over(PlanStatusOf(s, x)) then Refused(PlanIsOver)
      else if t.parent.Some? && (t.parent.value !in s.tasks || Closed(s.tasks[t.parent.value].status))
      then Refused(ParentIsClosed)
      else if t.parent.Some? && Reach(Waits(s), x, t.parent.value) then Refused(WouldDeadlock)
      else if !NoDoneDependent(s, x) then Refused(SupportsCompleted)
      else Committed(reopened)
  }

  /** The replacement must be another live or done task of the same plan. */
  ghost function ReplacementRefusal(s: State, x: nat, into: Option<nat>): Option<Refusal>
    requires x in s.tasks
  {
    if into.None? then None
    else if into.value == x then Some(SelfReplacement)
    else if into.value !in s.tasks then Some(NoTask(into.value))
    else if s.tasks[into.value].plan != s.tasks[x].plan then Some(ReplacementElsewhere)
    else if s.tasks[into.value].status.Retired? || s.tasks[into.value].status.Rejected?
    then Some(ReplacementClosed)
    else None
  }

  /** Retirement (optionally into a replacement) and rejection. */
  ghost function Terminate(s: State, c: Caller, x: nat, to: Status, into: Option<nat>, why: Option<string>): Outcome
    requires to.Retired? || (to.Rejected? && into.None?)
  {
    if Given(why).None? && into.None? then Refused(ReasonRequired)
    else if x !in s.tasks then Refused(NoTask(x))
    else if Closed(s.tasks[x].status) then Refused(AlreadyClosed)
    else if !NoDoneDependent(s, x) then Refused(SupportsCompleted)
    else if !NoLiveChild(s, x) then Refused(LiveChildren)
    else if !NoInboundReplacement(s, x) && into.None? then Refused(IsReplacement)
    else if ReplacementRefusal(s, x, into).Some? then Refused(ReplacementRefusal(s, x, into).value)
    else
      var closed := Transition(s, c, x, to, Given(why), Given(why), into, None);
      if !Acyclic(Replacements(closed)) then Refused(ReplacementCycle) else Committed(closed)
  }

  ghost function Retire(s: State, c: Caller, x: nat, into: Option<nat>, why: Option<string>): Outcome {
    Terminate(s, c, x, Retired, into, why)
  }

  ghost function Reject(s: State, c: Caller, x: nat, why: Option<string>): Outcome {
    Terminate(s, c, x, Rejected, None, why)
  }
}
