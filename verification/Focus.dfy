/** What finishing a task unlocks: the count the ranking uses, and what completion really settles. */
module Focus {
  import opened Basics
  import opened Graphs
  import opened Records
  import opened Waiting
  import opened Lifecycle
  import opened Invariants
  import opened Settlement
  import opened PlanMoves
  import opened Queries

  /** A proposed direct dependent without children or open external gates. */
  predicate Entry(s: State, x: nat, y: nat) {
    && y in s.tasks && (y, x) in s.deps && s.tasks[y].status.Proposed? && !OpenExternal(s.tasks[y])
    && forall child :: child in s.tasks ==> s.tasks[child].parent != Some(y)
  }

  /** Counted: no open dependency but this task itself. */
  ghost predicate Counted(s: State, x: nat, y: nat) {
    Entry(s, x, y) && forall d :: d in s.tasks && OpenDep(s, y, d) ==> d == x
  }

  ghost function Unlocked(s: State, x: nat): (u: set<nat>)
    ensures forall y :: y in u <==> Counted(s, x, y)
  {
    set y | y in s.tasks && Counted(s, x, y)
  }

  method ImmediateUnlockCount(s: State, x: nat) returns (count: nat)
    ensures count == |Unlocked(s, x)|
  {
    var dependents := InOrder(set y | y in s.tasks && Entry(s, x, y));
    ghost var unlocked: set<nat> := {};
    count := 0;
    for i := 0 to |dependents|
      invariant count == |unlocked|
      invariant forall y :: y in unlocked <==> y in dependents[..i] && Counted(s, x, y)
      invariant forall y :: y in unlocked ==> forall k :: i <= k < |dependents| ==> y < dependents[k]
    {
      TakeNext(dependents, i);
      assert dependents[i] in dependents;
      var open := OpenDeps(s, dependents[i]);
      if forall other :: other in open ==> other == x {
        count := count + 1;
        unlocked := unlocked + {dependents[i]};
      }
    }
    TakeAll(dependents);
    assert unlocked == Unlocked(s, x);
  }

  // ---- what completion settles ----

  lemma CompletedRow(s: State, c: Caller, x: nat, result: Option<string>)
    requires Complete(s, c, x, result).Committed?
    ensures var u := Complete(s, c, x, result).state;
            && x in s.tasks && Live(s.tasks[x].status) && u.deps == s.deps && u.tasks.Keys == s.tasks.Keys
            && u.tasks[x].status.Done? && forall y :: y in s.tasks && y != x ==> u.tasks[y] == s.tasks[y]
  {
  }

  /** A chain that runs into x ends there both before and after x is finished. */
  lemma ChainToCompleted(s: State, u: State, x: nat, w: seq<nat>)
    requires Follows(s, w) && w[|w| - 1] == x && Live(s.tasks[x].status)
    requires u.tasks.Keys == s.tasks.Keys && u.tasks[x].status.Done?
    requires forall y :: y in s.tasks && y != x ==> u.tasks[y] == s.tasks[y]
    ensures Settled(u, w[0])
  {
    forall i | 0 < i < |w| ensures RetiredInto(u, w[i - 1], w[i]) { assert RetiredInto(s, w[i - 1], w[i]); }
    assert Follows(u, w) && LeadsTo(u, w[0], x) && SettledHere(u, x);
  }

  lemma {:induction false} ChainBack(s: State, u: State, x: nat, w: seq<nat>)
    requires Follows(u, w) && x in s.tasks && u.tasks.Keys == s.tasks.Keys && u.tasks[x].status.Done?
    requires forall y :: y in s.tasks && y != x ==> u.tasks[y] == s.tasks[y]
    ensures Follows(s, w)
  {
    forall i | 0 < i < |w| ensures RetiredInto(s, w[i - 1], w[i]) { assert RetiredInto(u, w[i - 1], w[i]); }
  }

  /** Finishing x settles exactly the prerequisites whose replacement chain leads to it. */
  lemma CompletionSettles(s: State, c: Caller, x: nat, result: Option<string>, d: nat)
    requires Complete(s, c, x, result).Committed?
    ensures Settled(Complete(s, c, x, result).state, d) <==> Settled(s, d) || LeadsTo(s, d, x)
  {
    var u := Complete(s, c, x, result).state;
    CompletedRow(s, c, x, result);
    if LeadsTo(s, d, x) {
      var w :| Follows(s, w) && w[0] == d && w[|w| - 1] == x;
      ChainToCompleted(s, u, x, w);
    }
    if Settled(s, d) { SettledSurvives(s, u, d); }
    if Settled(u, d) {
      var y :| LeadsTo(u, d, y) && SettledHere(u, y);
      var w :| Follows(u, w) && w[0] == d && w[|w| - 1] == y;
      ChainBack(s, u, x, w);
      assert LeadsTo(s, d, y);
    }
  }

  /** A prerequisite other than x that nevertheless waits for it, through replacement links. */
  ghost predicate HeldThrough(s: State, x: nat, y: nat) {
    exists d :: d in s.tasks && OpenDep(s, y, d) && d != x && LeadsTo(s, d, x)
  }

  /** Every counted task has all prerequisites settled once x is finished. The count misses, among the direct
      dependents it considers, exactly those that also wait for x through a replacement chain: it compares open
      dependencies with x by identity. */
  lemma UnlockedExactly(s: State, c: Caller, x: nat, result: Option<string>, y: nat)
    requires LinkedWithin(s) && Complete(s, c, x, result).Committed? && Entry(s, x, y)
    ensures DepsSettled(Complete(s, c, x, result).state, y) <==>
            forall d :: d in s.tasks && OpenDep(s, y, d) ==> LeadsTo(s, d, x)
    ensures Counted(s, x, y) <==> DepsSettled(Complete(s, c, x, result).state, y) && !HeldThrough(s, x, y)
  {
    var u := Complete(s, c, x, result).state;
    CompletedRow(s, c, x, result);
    LeadsToSelf(s, x);
    forall d ensures Settled(u, d) <==> Settled(s, d) || LeadsTo(s, d, x) { CompletionSettles(s, c, x, result, d); }
    if DepsSettled(u, y) {
      forall d | d in s.tasks && OpenDep(s, y, d) ensures LeadsTo(s, d, x) { assert (y, d) in u.deps; }
    }
    if forall d :: d in s.tasks && OpenDep(s, y, d) ==> LeadsTo(s, d, x) {
      forall d: nat | (y, d) in u.deps ensures Settled(u, d) {
        var e: Edge := (y, d);
        assert OpenDep(s, y, d) || Settled(s, d);
      }
    }
  }

  /** A task is counted exactly when it is a proposed, childless, direct dependent that no open external gate holds, all
      of its prerequisites are settled once x is finished, and none of them waits for x through a replacement chain. */
  lemma CountedExactly(s: State, c: Caller, x: nat, result: Option<string>, y: nat)
    requires LinkedWithin(s) && Complete(s, c, x, result).Committed?
    ensures Counted(s, x, y) <==>
            && y in s.tasks && (y, x) in s.deps && s.tasks[y].status == Proposed
            && (forall gate :: gate in s.tasks[y].gates && gate.kind == ExternalGate ==> gate.status != Open)
            && (forall z :: z in s.tasks ==> s.tasks[z].parent != Some(y))
            && (forall d :: (y, d) in s.deps ==> Settled(Complete(s, c, x, result).state, d))
            && !HeldThrough(s, x, y)
  {
    CompletedRow(s, c, x, result);
    if Entry(s, x, y) { UnlockedExactly(s, c, x, result, y); }
  }
}
