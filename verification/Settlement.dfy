/** Replacement chains, settled prerequisites, and what each mutation does to them. */
module Settlement {
  import opened Basics
  import opened Graphs
  import opened Records
  import opened Waiting
  import opened Lifecycle
  import opened Invariants

  // ---- chains ----

  /** The stored link goes no further: the task is not retired into another. */
  predicate ChainEnd(s: State, y: nat) {
    y in s.tasks && !(s.tasks[y].status.Retired? && s.tasks[y].replacement.Some?)
  }

  lemma LeadsToAppend(s: State, x: nat, y: nat, r: nat)
    requires LeadsTo(s, x, y) && RetiredInto(s, y, r) && r in s.tasks
    ensures LeadsTo(s, x, r)
  {
    var w :| Follows(s, w) && w[0] == x && w[|w| - 1] == y;
    var v := w + [r];
    forall i | 0 < i < |v| ensures RetiredInto(s, v[i - 1], v[i]) {
      if i < |w| { assert v[i - 1] == w[i - 1] && v[i] == w[i]; }
    }
    assert Follows(s, v);
  }

  /** Links are sound: only retired tasks carry one, and it leads on, never around. */
  ghost predicate LinksOk(s: State) {
    && (forall x :: x in s.tasks ==> LinkOk(s, s.tasks[x]))
    && (forall e :: e in s.deps ==> e.0 in s.tasks && e.1 in s.tasks)
    && Acyclic(Replacements(s))
  }

  ghost predicate LinkOk(s: State, t: Task) {
    t.replacement.Some? ==>
      t.status.Retired? && t.replacement.value in s.tasks && ChainGoesOn(s.tasks[t.replacement.value])
  }

  lemma InvLinks(s: State)
    requires Inv(s)
    ensures LinksOk(s)
  {
    forall x | x in s.tasks ensures LinkOk(s, s.tasks[x]) {
      assert RowOk(s, s.tasks[x]) && ReplacementOk(s, s.tasks[x]);
    }
  }

  /** In every state a run reaches, following replacement links from a task ends,
      and a chain of at least one link ends at a live or done task. */
  lemma ChainsEnd(s: State, x: nat) returns (y: nat)
    requires LinksOk(s) && x in s.tasks
    ensures LeadsTo(s, x, y) && ChainEnd(s, y)
    ensures s.tasks[x].replacement.Some? ==> Live(s.tasks[y].status) || s.tasks[y].status.Done?
    ensures s.tasks[x].replacement.None? ==> y == x
  {
    LeadsToSelf(s, x);
    assert LinkOk(s, s.tasks[x]);
    if ChainEnd(s, x) {
      y := x;
    } else {
      var S := set z | z in s.tasks && LeadsTo(s, x, z) && !ChainEnd(s, z);
      assert x in S;
      var last := SinkExists(Replacements(s), S);
      y := s.tasks[last].replacement.value;
      assert LinkOk(s, s.tasks[last]) && (last, y) in Replacements(s);
      LeadsToAppend(s, x, last, y);
    }
  }

  /** Chains are deterministic: at most one end. */
  lemma {:induction false} OneEnd(s: State, w: seq<nat>, z: nat)
    requires Follows(s, w) && ChainEnd(s, w[|w| - 1]) && LeadsTo(s, w[0], z) && ChainEnd(s, z)
    ensures z == w[|w| - 1]
    decreases |w|
  {
    LeadsToUnfold(s, w[0], z);
    if |w| > 1 {
      assert RetiredInto(s, w[0], w[1]);
      var v := w[1..];
      forall i | 0 < i < |v| ensures RetiredInto(s, v[i - 1], v[i]) {
        assert v[i - 1] == w[i] && v[i] == w[i + 1];
      }
      assert Follows(s, v);
      OneEnd(s, v, z);
    }
  }

  lemma EndDecides(s: State, x: nat, y: nat)
    requires LeadsTo(s, x, y) && ChainEnd(s, y)
    ensures Settled(s, x) <==> SettledHere(s, y)
  {
    var w :| Follows(s, w) && w[0] == x && w[|w| - 1] == y;
    if Settled(s, x) {
      var z :| LeadsTo(s, x, z) && SettledHere(s, z);
      OneEnd(s, w, z);
    }
  }

  /** Any predicate that obeys the plain recursion over replacement links is settlement. */
  ghost predicate ObeysRecursion(s: State, p: nat -> bool) {
    forall x :: x in s.tasks ==>
      (p(x) <==> if s.tasks[x].status.Retired? && s.tasks[x].replacement.Some?
                 then p(s.tasks[x].replacement.value) else SettledHere(s, x))
  }

  lemma {:induction false} RecursionAlongChain(s: State, p: nat -> bool, w: seq<nat>)
    requires ObeysRecursion(s, p) && Follows(s, w) && ChainEnd(s, w[|w| - 1])
    ensures p(w[0]) <==> SettledHere(s, w[|w| - 1])
    decreases |w|
  {
    if |w| > 1 {
      assert RetiredInto(s, w[0], w[1]);
      var v := w[1..];
      forall i | 0 < i < |v| ensures RetiredInto(s, v[i - 1], v[i]) {
        assert v[i - 1] == w[i] && v[i] == w[i + 1];
      }
      assert Follows(s, v);
      RecursionAlongChain(s, p, v);
    }
  }

  lemma SettledIsTheRecursion(s: State, p: nat -> bool, x: nat)
    requires LinksOk(s) && ObeysRecursion(s, p) && x in s.tasks
    ensures p(x) <==> Settled(s, x)
  {
    var y := ChainsEnd(s, x);
    EndDecides(s, x, y);
    var w :| Follows(s, w) && w[0] == x && w[|w| - 1] == y;
    RecursionAlongChain(s, p, w);
  }

  // ---- done tasks and their prerequisites ----

  /** Every done task's prerequisites are settled. */
  ghost predicate AllSettled(s: State) {
    forall e :: e in s.deps && e.0 in s.tasks && s.tasks[e.0].status.Done? ==> Settled(s, e.1)
  }

  /** Closed rows keep their status and link; done tasks gain no prerequisites. */
  ghost predicate Gentle(s: State, u: State) {
    && (forall y :: y in s.tasks && Closed(s.tasks[y].status) ==>
          y in u.tasks && u.tasks[y].status == s.tasks[y].status && u.tasks[y].replacement == s.tasks[y].replacement)
    && (forall e :: e in u.deps && e.0 in u.tasks && u.tasks[e.0].status.Done? ==>
          e in s.deps && e.0 in s.tasks && s.tasks[e.0].status.Done?)
  }

  ghost predicate ClosedKept(s: State, u: State, w: seq<nat>) {
    forall i :: 0 <= i < |w| ==>
      && w[i] in s.tasks && w[i] in u.tasks
      && u.tasks[w[i]].status == s.tasks[w[i]].status && u.tasks[w[i]].replacement == s.tasks[w[i]].replacement
  }

  /** A settled chain survives as long as none of its rows changes. */
  lemma ChainSurvives(s: State, u: State, w: seq<nat>)
    requires Follows(s, w) && SettledHere(s, w[|w| - 1]) && ClosedKept(s, u, w)
    ensures Settled(u, w[0])
  {
    forall i | 0 < i < |w| ensures RetiredInto(u, w[i - 1], w[i]) {
      assert RetiredInto(s, w[i - 1], w[i]);
    }
    assert Follows(u, w);
    assert LeadsTo(u, w[0], w[|w| - 1]);
  }

  lemma SettledChainIsClosed(s: State, w: seq<nat>, i: nat)
    requires Follows(s, w) && SettledHere(s, w[|w| - 1]) && i < |w|
    ensures Closed(s.tasks[w[i]].status)
  {
    if i + 1 < |w| { assert RetiredInto(s, w[i], w[i + 1]); }
  }

  lemma SettledSurvives(s: State, u: State, d: nat)
    requires Settled(s, d)
    requires forall y :: y in s.tasks && Closed(s.tasks[y].status) ==>
               y in u.tasks && u.tasks[y].status == s.tasks[y].status && u.tasks[y].replacement == s.tasks[y].replacement
    ensures Settled(u, d)
  {
    var y :| LeadsTo(s, d, y) && SettledHere(s, y);
    var w :| Follows(s, w) && w[0] == d && w[|w| - 1] == y;
    forall i | 0 <= i < |w| ensures Closed(s.tasks[w[i]].status) {
      SettledChainIsClosed(s, w, i);
    }
    ChainSurvives(s, u, w);
  }

  lemma GentleKeepsSettled(s: State, u: State)
    requires AllSettled(s) && Gentle(s, u)
    ensures AllSettled(u)
  {
    forall e | e in u.deps && e.0 in u.tasks && u.tasks[e.0].status.Done? ensures Settled(u, e.1) {
      SettledSurvives(s, u, e.1);
    }
  }

  lemma GentleTrans(s: State, u: State, v: State)
    requires Gentle(s, u) && Gentle(u, v)
    ensures Gentle(s, v)
  {
  }

  lemma CompleteKeepsSettled(s: State, c: Caller, x: nat, result: Option<string>)
    requires AllSettled(s) && Complete(s, c, x, result).Committed?
    ensures AllSettled(Complete(s, c, x, result).state)
  {
    var u := Complete(s, c, x, result).state;
    forall e | e in u.deps && e.0 in u.tasks && u.tasks[e.0].status.Done? ensures Settled(u, e.1) {
      if e.0 == x { assert (x, e.1) in s.deps; }
      SettledSurvives(s, u, e.1);
    }
  }

  // ---- reopening, the one mutation that can unsettle a done task ----

  /** Another done task depends on a retired one whose replacement chain reaches x. */
  ghost predicate HeldThroughChain(s: State, x: nat) {
    exists e :: e in s.deps && e.0 != x && e.0 in s.tasks && s.tasks[e.0].status.Done?
                && e.1 in s.tasks && s.tasks[e.1].status.Retired? && LeadsTo(s, e.1, x)
  }

  /** After x is reopened a chain that reached it ends there, unsettled. */
  lemma {:induction false} ReopenedEndsChain(s: State, u: State, x: nat, w: seq<nat>)
    requires Follows(s, w) && w[|w| - 1] == x && x in u.tasks && Live(u.tasks[x].status)
    requires forall y :: y in s.tasks && y != x ==> y in u.tasks && u.tasks[y] == s.tasks[y]
    ensures LeadsTo(u, w[0], x) && !Settled(u, w[0])
    decreases |w|
  {
    if w[0] == x {
      LeadsToSelf(u, x);
      SettledUnfold(u, x);
    } else {
      assert RetiredInto(s, w[0], w[1]);
      var v := w[1..];
      forall i | 0 < i < |v| ensures RetiredInto(s, v[i - 1], v[i]) {
        assert v[i - 1] == w[i] && v[i] == w[i + 1];
      }
      assert Follows(s, v);
      ReopenedEndsChain(s, u, x, v);
      LeadsToStep(u, w[0], w[1], x);
      SettledUnfold(u, w[0]);
    }
  }

  lemma LeadsToPrefix(s: State, w: seq<nat>, i: nat)
    requires Follows(s, w) && i < |w|
    ensures LeadsTo(s, w[0], w[i])
  {
    var v := w[..i + 1];
    assert Follows(s, v) && v[0] == w[0] && v[|v| - 1] == w[i];
  }

  lemma ChainAvoids(s: State, u: State, d: nat, x: nat)
    requires Settled(s, d) && !LeadsTo(s, d, x)
    requires forall y :: y in s.tasks && y != x ==> y in u.tasks && u.tasks[y] == s.tasks[y]
    ensures Settled(u, d)
  {
    var y :| LeadsTo(s, d, y) && SettledHere(s, y);
    var w :| Follows(s, w) && w[0] == d && w[|w| - 1] == y;
    forall i | 0 <= i < |w| ensures w[i] != x {
      LeadsToPrefix(s, w, i);
    }
    ChainSurvives(s, u, w);
  }

  lemma ReopenedHasNoDoneDependent(s: State, c: Caller, x: nat, why: Option<string>)
    requires Inv(s) && Reopen(s, c, x, why).Committed?
    ensures x in s.tasks && NoDoneDependent(s, x)
  {
  }

  lemma NotReached(s: State, x: nat, e: Edge)
    requires AllSettled(s) && NoDoneDependent(s, x) && !HeldThroughChain(s, x)
    requires e in s.deps && e.0 != x && e.0 in s.tasks && s.tasks[e.0].status.Done?
    ensures Settled(s, e.1) && !LeadsTo(s, e.1, x)
  {
    SettledUnfold(s, e.1);
    assert (e.0, e.1) == e && !DoneDependent(s, x, e.0);
    if LeadsTo(s, e.1, x) {
      LeadsToUnfold(s, e.1, x);
    }
  }

  lemma ReopenedRows(s: State, c: Caller, x: nat, why: Option<string>)
    requires Reopen(s, c, x, why).Committed?
    ensures var u := Reopen(s, c, x, why).state;
            && x in u.tasks && u.tasks[x].status.Proposed? && u.deps == s.deps && u.tasks.Keys == s.tasks.Keys
            && forall y :: y in s.tasks && y != x ==> y in u.tasks && u.tasks[y] == s.tasks[y]
  {
  }

  lemma HeldIsUnsettled(s: State, u: State, x: nat)
    requires HeldThroughChain(s, x) && x in u.tasks && u.tasks[x].status.Proposed? && u.deps == s.deps
    requires forall y :: y in s.tasks && y != x ==> y in u.tasks && u.tasks[y] == s.tasks[y]
    ensures !AllSettled(u)
  {
    var e :| e in s.deps && e.0 != x && e.0 in s.tasks && s.tasks[e.0].status.Done?
             && e.1 in s.tasks && s.tasks[e.1].status.Retired? && LeadsTo(s, e.1, x);
    var w :| Follows(s, w) && w[0] == e.1 && w[|w| - 1] == x;
    ReopenedEndsChain(s, u, x, w);
    assert e in u.deps && u.tasks[e.0].status.Done? && !Settled(u, e.1);
  }

  /** Reopening x keeps every done task settled exactly when no other done task
      reaches x through a retired prerequisite: the guard looks only at direct dependents. */
  lemma ReopenSettlesExactly(s: State, c: Caller, x: nat, why: Option<string>)
    requires AllSettled(s) && Reopen(s, c, x, why).Committed?
    requires Inv(s)
    ensures AllSettled(Reopen(s, c, x, why).state) <==> !HeldThroughChain(s, x)
  {
    var u := Reopen(s, c, x, why).state;
    ReopenedRows(s, c, x, why);
    ReopenedHasNoDoneDependent(s, c, x, why);
    if HeldThroughChain(s, x) {
      HeldIsUnsettled(s, u, x);
    } else {
      forall e | e in u.deps && e.0 in u.tasks && u.tasks[e.0].status.Done? ensures Settled(u, e.1) {
        NotReached(s, x, e);
        ChainAvoids(s, u, e.1, x);
      }
    }
  }
}
