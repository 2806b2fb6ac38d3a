/** Every accepted transition keeps the invariants. */
module LifecycleSafety {
  import opened Basics
  import opened Graphs
  import opened Records
  import opened Waiting
  import opened Lifecycle
  import opened Invariants

  lemma SettledIsClosed(s: State, d: nat)
    requires Settled(s, d)
    ensures d in s.tasks && DoneOrRetired(s.tasks[d])
  {
    SettledUnfold(s, d);
  }

  lemma NoLiveChildWelcomes(s: State, x: nat, t: Task)
    requires Inv(s) && x in s.tasks && t.plan == s.tasks[x].plan
    requires Live(t.status) || NoLiveChild(s, x)
    requires NoInboundReplacement(s, x) || ChainGoesOn(t)
    ensures Welcomed(s, x, t)
  {
    forall y | y in s.tasks && s.tasks[y].parent == Some(x)
      ensures t.plan == s.tasks[y].plan && (Live(s.tasks[y].status) ==> Live(t.status))
    {
      assert ParentOk(s, s.tasks[y]);
      assert LiveChild(s, x, y) <==> Live(s.tasks[y].status);
    }
    forall y | y in s.tasks && s.tasks[y].replacement == Some(x)
      ensures t.plan == s.tasks[y].plan && ChainGoesOn(t)
    {
      assert ReplacementOk(s, s.tasks[y]);
    }
  }

  /** One row moves to a new status: what the guards must have established. */
  lemma MovedRow(s: State, x: nat, t: Task)
    requires Inv(s) && x in s.tasks
    requires t.parent == s.tasks[x].parent && t.plan == s.tasks[x].plan
    requires RowOk(s, t) && ParentOk(s, t) && ReplacementOk(s, t) && t.replacement != Some(x)
    requires Live(t.status) || NoLiveChild(s, x)
    requires NoInboundReplacement(s, x) || ChainGoesOn(t)
    requires DoneOrRetired(t) || NoDoneDependent(s, x)
    requires t.status.Done? ==> forall d :: (x, d) in s.deps ==> d in s.tasks && DoneOrRetired(s.tasks[d])
    ensures Rows(Put(s, x, t)) && DepsOk(Put(s, x, t)) && PlansOk(Put(s, x, t))
    ensures Acyclic(Parents(Put(s, x, t)))
  {
    NoSelfLoops(s, x);
    NoLiveChildWelcomes(s, x, t);
    assert RowOk(s, s.tasks[x]);
    PutRows(s, x, t);
    PutDeps(s, x, t);
    PutParents(s, x, t);
  }

  /** A live row keeps its waits or loses them. */
  lemma LiveRowMoves(s: State, x: nat, t: Task)
    requires Inv(s) && x in s.tasks && Live(s.tasks[x].status)
    requires t.parent == s.tasks[x].parent && t.plan == s.tasks[x].plan
    requires RowOk(s, t) && t.replacement.None?
    requires Live(t.status) || NoLiveChild(s, x)
    requires NoInboundReplacement(s, x) || ChainGoesOn(t)
    requires DoneOrRetired(t) || NoDoneDependent(s, x)
    requires t.status.Done? ==> forall d :: (x, d) in s.deps ==> d in s.tasks && DoneOrRetired(s.tasks[d])
    ensures Inv(Put(s, x, t))
  {
    assert ParentOk(s, s.tasks[x]);
    MovedRow(s, x, t);
    PutWaitsShrink(s, x, t);
    PutReplacements(s, x, t);
    PutParents(s, x, t);
    ForestsShrink(s, Put(s, x, t));
  }

  lemma LiveHasNoDoneDependent(s: State, x: nat)
    requires Inv(s) && x in s.tasks && (Live(s.tasks[x].status) || s.tasks[x].status.Rejected?)
    ensures NoDoneDependent(s, x)
  {
  }

  lemma StartSafe(s: State, c: Caller, x: nat, why: Option<string>, session: Option<string>)
    requires Inv(s) && Start(s, c, x, why, session).Committed?
    ensures Inv(Start(s, c, x, why, session).state)
  {
    var t := s.tasks[x];
    assert RowOk(s, t);
    LiveHasNoDoneDependent(s, x);
    var u := if t.status.InProgress? then t.(pickup := Some(Pickup(session, c.at, c.owner)))
             else t.(status := InProgress, result := None, replacement := None,
                     pickup := Some(Pickup(session, c.at, c.owner)));
    LiveRowMoves(s, x, u);
    var after := Start(s, c, x, why, session).state;
    if after != s {
      InvLogged(Put(s, x, u), after.log[|s.log|]);
    }
  }

  lemma CompleteSafe(s: State, c: Caller, x: nat, result: Option<string>)
    requires Inv(s) && Complete(s, c, x, result).Committed?
    ensures Inv(Complete(s, c, x, result).state)
  {
    var t := s.tasks[x];
    assert RowOk(s, t);
    var u := t.(status := Done, result := Given(result), replacement := None, pickup := None);
    GivenIsResult(result);
    forall d | (x, d) in s.deps ensures d in s.tasks && DoneOrRetired(s.tasks[d]) {
      SettledIsClosed(s, d);
    }
    LiveRowMoves(s, x, u);
    var after := Complete(s, c, x, result).state;
    InvLogged(Put(s, x, u), after.log[|s.log|]);
  }

  /** A live task with a rejected or plain retired disposition, or retired into r. */
  lemma TerminateSafe(s: State, c: Caller, x: nat, to: Status, into: Option<nat>, why: Option<string>)
    requires to.Retired? || (to.Rejected? && into.None?)
    requires Inv(s) && Terminate(s, c, x, to, into, why).Committed?
    ensures Inv(Terminate(s, c, x, to, into, why).state)
  {
    var t := s.tasks[x];
    assert RowOk(s, t) && ParentOk(s, t);
    var u := t.(status := to, result := Given(why), replacement := into, pickup := None);
    MovedRow(s, x, u);
    PutWaitsShrink(s, x, u);
    AcyclicSubset(Waits(Put(s, x, u)), Waits(s));
    var after := Terminate(s, c, x, to, into, why).state;
    SameGraphs(Put(s, x, u), after);
    InvLogged(Put(s, x, u), after.log[|s.log|]);
  }

  lemma ReopenSafe(s: State, c: Caller, x: nat, why: Option<string>)
    requires Inv(s) && Reopen(s, c, x, why).Committed?
    ensures Inv(Reopen(s, c, x, why).state)
  {
    var t := s.tasks[x];
    assert RowOk(s, t) && ParentOk(s, t);
    var u := t.(status := Proposed, result := None, replacement := None, pickup := None);
    if t.status.InProgress? {
      LiveHasNoDoneDependent(s, x);
      LiveRowMoves(s, x, u);
    } else {
      MovedRow(s, x, u);
      PutWaitsGrow(s, x, u);
      PutReplacements(s, x, u);
      AcyclicSubset(Replacements(Put(s, x, u)), Replacements(s));
      if t.parent.Some? {
        AddEdgeAcyclic(Waits(s), t.parent.value, x);
        AcyclicSubset(Waits(Put(s, x, u)), Waits(s) + {(t.parent.value, x)});
      } else {
        AcyclicSubset(Waits(Put(s, x, u)), Waits(s));
      }
    }
    var after := Reopen(s, c, x, why).state;
    InvLogged(Put(s, x, u), after.log[|s.log|]);
  }

  lemma {:induction false} TrimStartClean(s: string)
    ensures TrimStart(s) != "" ==> !White(TrimStart(s)[0])
    decreases |s|
  {
    if s != "" && White(s[0]) { TrimStartClean(s[1..]); }
  }

  lemma {:induction false} TrimEndClean(s: string)
    ensures TrimEnd(s) != "" ==> !White(TrimEnd(s)[|TrimEnd(s)| - 1]) && TrimEnd(s)[0] == s[0]
    ensures |TrimEnd(s)| <= |s|
    decreases |s|
  {
    if s != "" && White(s[|s| - 1]) { TrimEndClean(s[..|s| - 1]); }
  }

  /** Trimming twice is trimming once, so a stored text stays what it is. */
  lemma TrimTwice(s: string)
    ensures Trim(Trim(s)) == Trim(s)
  {
    TrimStartClean(s);
    TrimEndClean(TrimStart(s));
  }

  lemma GivenIsResult(result: Option<string>)
    ensures Given(result).Some? ==> HasResult(Given(result))
  {
    if Given(result).Some? { TrimTwice(result.value); }
  }

  /** A replacement that is not itself retired ends every chain, so pointing x at it closes none. */
  lemma PointAtEndAcyclic(s: State, x: nat, r: nat)
    requires Inv(s) && x in s.tasks && r in s.tasks && x != r && !s.tasks[r].status.Retired?
    ensures Acyclic(Replacements(s) + {(x, r)})
  {
    var g := Replacements(s);
    assert RowOk(s, s.tasks[r]);
    if Reach(g, r, x) {
      var n := ReachFirstHop(g, r, x);
    }
    AddEdgeAcyclic(g, x, r);
  }

  /** The check fires only after every other one passed, on the links as written. */
  lemma CycleRefusal(s: State, c: Caller, x: nat, to: Status, into: Option<nat>, why: Option<string>)
    requires to.Retired? || (to.Rejected? && into.None?)
    requires Terminate(s, c, x, to, into, why) == Refused(ReplacementCycle)
    ensures x in s.tasks && Live(s.tasks[x].status) && ReplacementRefusal(s, x, into).None?
    ensures !Acyclic(Replacements(Transition(s, c, x, to, Given(why), Given(why), into, None)))
  {
  }

  lemma ClosedReplacements(s: State, c: Caller, x: nat, to: Status, into: Option<nat>, why: Option<string>)
    requires x in s.tasks && s.tasks[x].replacement.None?
    ensures var closed := Transition(s, c, x, to, Given(why), Given(why), into, None);
            && (into.Some? ==> Replacements(closed) <= Replacements(s) + {(x, into.value)})
            && (into.None? ==> Replacements(closed) <= Replacements(s))
  {
  }

  /** On states reached without import the replacement cycle check never fires. */
  lemma ReplacementCycleNeverFires(s: State, c: Caller, x: nat, to: Status, into: Option<nat>, why: Option<string>)
    requires to.Retired? || (to.Rejected? && into.None?)
    requires Inv(s)
    ensures Terminate(s, c, x, to, into, why) != Refused(ReplacementCycle)
  {
    if Terminate(s, c, x, to, into, why) == Refused(ReplacementCycle) {
      CycleRefusal(s, c, x, to, into, why);
      assert RowOk(s, s.tasks[x]);
      ClosedReplacements(s, c, x, to, into, why);
      var links := Replacements(Transition(s, c, x, to, Given(why), Given(why), into, None));
      if into.Some? {
        PointAtEndAcyclic(s, x, into.value);
        AcyclicSubset(links, Replacements(s) + {(x, into.value)});
      } else {
        AcyclicSubset(links, Replacements(s));
      }
    }
  }
}
