/** What a clean structural audit says of the stored rows, and of nothing less. */
module AuditFacts {
  import opened Basics
  import opened Graphs
  import opened Records
  import opened Waiting
  import opened Invariants
  import opened Audits
  import opened StuckLoops

  /** A done task holds nothing open, has the result its kind needs, and has nothing unfinished before or under it. */
  ghost predicate DoneClean(s: State, x: nat) {
    x in s.tasks && s.tasks[x].status == Done ==>
      && (forall gate :: gate in s.tasks[x].gates ==> gate.status != Open)
      && (s.tasks[x].kind in {Probe, Decision, Bug} ==>
            s.tasks[x].result.Some? && exists c :: c in s.tasks[x].result.value && c != ' ')
      && (forall d :: (x, d) in s.deps ==> Settled(s, d))
      && (forall y :: y in s.tasks && s.tasks[y].parent == Some(x) ==> s.tasks[y].status !in {Proposed, InProgress})
  }

  /** A task's parent and replacement share its plan; only retired tasks are replaced, and never by a dead end; live work
      is in no done plan and on no rejected prerequisite. */
  ghost predicate LinksClean(s: State, x: nat) {
    x in s.tasks ==>
      && (s.tasks[x].parent.Some? && s.tasks[x].parent.value in s.tasks ==>
            s.tasks[s.tasks[x].parent.value].plan == s.tasks[x].plan)
      && (s.tasks[x].replacement.Some? ==> ReplacedCleanly(s, x, s.tasks[x].replacement.value))
      && (s.tasks[x].status in {Proposed, InProgress} ==>
            && !(s.tasks[x].plan < |s.plans| && s.plans[s.tasks[x].plan].status == PlanDone)
            && forall d :: (x, d) in s.deps && d in s.tasks ==> s.tasks[d].status != Rejected)
  }

  predicate ReplacedCleanly(s: State, x: nat, r: nat) {
    && x in s.tasks && s.tasks[x].status == Retired && r in s.tasks && s.tasks[r].plan == s.tasks[x].plan
    && s.tasks[r].status != Rejected && (s.tasks[r].status == Retired ==> s.tasks[r].replacement.Some?)
  }

  ghost predicate RowsClean(s: State) { forall x: nat :: DoneClean(s, x) && LinksClean(s, x) }

  ghost predicate NoFinding(s: State) { forall f :: OfClosed(f) || OfLinks(f) ==> !Holds(s, f) }

  lemma NoFindingDone(s: State, x: nat)
    requires LinkedWithin(s) && NoFinding(s)
    ensures DoneClean(s, x)
  {
    if x in s.tasks && s.tasks[x].status == Done {
      var t := s.tasks[x];
      forall gate | gate in t.gates ensures gate.status != Open { assert !Holds(s, GateStillOpen(x, gate.name)); }
      assert !Holds(s, NoResult(x));
      forall d: nat | (x, d) in s.deps ensures Settled(s, d) {
        var e: Edge := (x, d);
        assert e in s.deps;
        assert !Holds(s, PrerequisiteOpen(x, d));
      }
      forall y | y in s.tasks && s.tasks[y].parent == Some(x) ensures s.tasks[y].status !in {Proposed, InProgress} {
        assert !Holds(s, ChildStillLive(x, y));
      }
    }
  }

  lemma NoFindingLinks(s: State, x: nat)
    requires LinkedWithin(s) && NoFinding(s)
    ensures LinksClean(s, x)
  {
    if x in s.tasks {
      var t := s.tasks[x];
      if t.parent.Some? { assert !Holds(s, ParentAcrossPlans(x, t.parent.value)); }
      if t.replacement.Some? {
        var r := t.replacement.value;
        assert !Holds(s, ReplacementMissing(x));
        assert !Holds(s, ReplacementNotRetired(x, r)) && !Holds(s, ReplacementAcrossPlans(x, r))
               && !Holds(s, ReplacementDeadEnd(x, r));
      }
      assert !Holds(s, PlanDoneTooEarly(t.plan));
      forall d: nat | (x, d) in s.deps && d in s.tasks && t.status in {Proposed, InProgress}
        ensures s.tasks[d].status != Rejected
      {
        assert !Holds(s, RejectedPrerequisite(x, d));
      }
    }
  }

  lemma CleanHasNone(s: State, f: Finding)
    requires RowsClean(s) && (OfClosed(f) || OfLinks(f))
    ensures !Holds(s, f)
  {
    match f
    case GateStillOpen(x, _) => assert DoneClean(s, x);
    case NoResult(x) => assert DoneClean(s, x);
    case PrerequisiteOpen(x, _) => assert DoneClean(s, x);
    case ChildStillLive(x, _) => assert DoneClean(s, x);
    case PlanDoneTooEarly(p) =>
      forall x: nat ensures !(LiveTask(s, x) && s.tasks[x].plan == p < |s.plans| && s.plans[p].status.PlanDone?) {
        assert LinksClean(s, x);
      }
    case ParentAcrossPlans(x, _) => assert LinksClean(s, x);
    case ReplacementMissing(x) => assert LinksClean(s, x);
    case ReplacementNotRetired(x, _) => assert LinksClean(s, x);
    case ReplacementAcrossPlans(x, _) => assert LinksClean(s, x);
    case ReplacementDeadEnd(x, _) => assert LinksClean(s, x);
    case RejectedPrerequisite(x, _) => assert LinksClean(s, x);
  }

  /** The audit has nothing to say of the rows exactly when every row is clean: its findings together are the row
      invariants, no more and no less. */
  lemma CleanExactly(s: State)
    requires LinkedWithin(s)
    ensures NoFinding(s) <==> RowsClean(s)
  {
    if NoFinding(s) {
      forall x: nat ensures DoneClean(s, x) && LinksClean(s, x) {
        NoFindingDone(s, x);
        NoFindingLinks(s, x);
      }
    }
    if RowsClean(s) {
      forall f | OfClosed(f) || OfLinks(f) ensures !Holds(s, f) { CleanHasNone(s, f); }
    }
  }
}
