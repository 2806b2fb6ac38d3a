/** A self-contained part of a sound authority passes import's whole-graph checks exactly when its done tasks are settled. */
module TransferState {
  import opened Basics
  import opened Graphs
  import opened Records
  import opened Review
  import opened Waiting
  import opened Invariants
  import opened Settlement
  import opened ImportRules

  /** u holds some tasks of s with all their links and gates, possibly under other plan positions, and no history. */
  ghost predicate Part(s: State, u: State) {
    && u.log == []
    && (forall x :: x in u.tasks ==> x in s.tasks && u.tasks[x] == s.tasks[x].(plan := u.tasks[x].plan))
    && (forall e :: e in u.deps <==> e in s.deps && e.0 in u.tasks)
    && (forall e :: e in u.deps ==> e.1 in u.tasks)
    && (forall x :: x in u.tasks ==> LinksInside(u, x))
  }

  predicate LinksInside(u: State, x: nat)
    requires x in u.tasks
  {
    && (u.tasks[x].parent.Some? ==> u.tasks[x].parent.value in u.tasks)
    && (u.tasks[x].replacement.Some? ==> u.tasks[x].replacement.value in u.tasks)
  }

  lemma {:induction false} ChainInside(s: State, u: State, w: seq<nat>)
    requires Part(s, u) && Follows(s, w) && w[0] in u.tasks
    ensures Follows(u, w)
    decreases |w|
  {
    if |w| > 1 {
      assert RetiredInto(s, w[0], w[1]) && LinksInside(u, w[0]);
      assert RetiredInto(u, w[0], w[1]);
      var v := w[1..];
      forall i | 0 < i < |v| ensures RetiredInto(s, v[i - 1], v[i]) { assert v[i - 1] == w[i] && v[i] == w[i + 1]; }
      assert Follows(s, v);
      ChainInside(s, u, v);
      forall i | 0 < i < |w| ensures RetiredInto(u, w[i - 1], w[i]) {
        if i > 1 { assert RetiredInto(u, v[i - 2], v[i - 1]); }
      }
    }
  }

  lemma ChainOutside(s: State, u: State, w: seq<nat>)
    requires Part(s, u) && Follows(u, w)
    ensures Follows(s, w)
  {
    forall i | 0 < i < |w| ensures RetiredInto(s, w[i - 1], w[i]) { assert RetiredInto(u, w[i - 1], w[i]); }
  }

  /** Replacement chains stay inside, so settlement is the same. */
  lemma PartSettled(s: State, u: State, x: nat)
    requires Part(s, u) && x in u.tasks
    ensures Settled(u, x) <==> Settled(s, x)
  {
    if Settled(s, x) {
      var y :| LeadsTo(s, x, y) && SettledHere(s, y);
      var w :| Follows(s, w) && w[0] == x && w[|w| - 1] == y;
      ChainInside(s, u, w);
      assert LeadsTo(u, x, y) && SettledHere(u, y);
    }
    if Settled(u, x) {
      var y :| LeadsTo(u, x, y) && SettledHere(u, y);
      var w :| Follows(u, w) && w[0] == x && w[|w| - 1] == y;
      ChainOutside(s, u, w);
      assert LeadsTo(s, x, y) && SettledHere(s, y);
    }
  }

  lemma PartForests(s: State, u: State)
    requires Part(s, u) && Forests(s)
    ensures Acyclic(Parents(u)) && Acyclic(Replacements(u))
  {
    AcyclicSubset(Parents(u), Parents(s));
    AcyclicSubset(Replacements(u), Replacements(s));
  }

  lemma PartChains(s: State, u: State)
    requires Part(s, u) && Rows(s)
    ensures ChainsGoOn(u)
  {
    forall x | x in u.tasks && u.tasks[x].replacement.Some? && u.tasks[x].replacement.value in u.tasks
      ensures ChainGoesOn(u.tasks[u.tasks[x].replacement.value])
    {
      assert ReplacementOk(s, s.tasks[x]);
    }
  }

  /** Without history no result is disputed. */
  lemma NothingDisputed(u: State, x: nat)
    requires u.log == []
    ensures Undisputed(u, x)
  {
    forall r | r in u.tasks ensures !ResultDisputed(u, r) {
      assert Fold(u.log, r, Filer(u.log, r)).result.None?;
    }
  }

  lemma PartChildren(s: State, u: State, x: nat)
    requires Part(s, u) && Rows(s) && x in u.tasks && u.tasks[x].status.Done?
    ensures NoLiveChild(u, x) && !OpenExternal(u.tasks[x])
  {
    assert RowOk(s, s.tasks[x]);
    forall child | child in u.tasks ensures !LiveChild(u, x, child) {
      assert ParentOk(s, s.tasks[child]);
    }
  }

  /** Done task x has only settled prerequisites. */
  ghost predicate SettledFor(s: State, x: nat) {
    x in s.tasks && s.tasks[x].status.Done? ==> forall d: nat :: (x, d) in s.deps ==> Settled(s, d)
  }

  lemma PartDone(s: State, u: State, x: nat)
    requires Part(s, u) && Rows(s) && x in u.tasks
    ensures DoneFreely(u, x) <==> SettledFor(s, x)
  {
    NothingDisputed(u, x);
    if u.tasks[x].status.Done? {
      PartChildren(s, u, x);
      if DoneFreely(u, x) {
        forall d: nat | (x, d) in s.deps ensures Settled(s, d) {
          var e: Edge := (x, d);
          assert e in u.deps && !OpenDep(u, x, d);
          PartSettled(s, u, d);
        }
      }
      if SettledFor(s, x) {
        forall d | d in u.tasks ensures !OpenDep(u, x, d) {
          var e: Edge := (x, d);
          PartSettled(s, u, d);
        }
      }
    }
  }

  /** The whole-graph checks on a part come down to its done tasks' prerequisites. */
  lemma PartFits(s: State, u: State)
    requires Part(s, u) && Inv(s)
    ensures WholeFits(u) <==> forall x :: x in u.tasks ==> SettledFor(s, x)
  {
    PartForests(s, u);
    PartChains(s, u);
    forall x | x in u.tasks ensures DoneFreely(u, x) <==> SettledFor(s, x) { PartDone(s, u, x); }
  }
}
