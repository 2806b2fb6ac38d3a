/** What a task waits for: the wait graph, settled prerequisites and entry blockers. */
module Waiting {
  import opened Basics
  import opened Graphs
  import opened Records
  import opened Review

  // ---- the stored graphs ----

  ghost function Parents(s: State): (g: Graph)
    ensures forall e :: e in g <==> e.0 in s.tasks && s.tasks[e.0].parent == Some(e.1)
  {
    set x | x in s.tasks && s.tasks[x].parent.Some? :: (x, s.tasks[x].parent.value)
  }

  ghost function Replacements(s: State): (g: Graph)
    ensures forall e :: e in g <==> e.0 in s.tasks && s.tasks[e.0].replacement == Some(e.1)
  {
    set x | x in s.tasks && s.tasks[x].replacement.Some? :: (x, s.tasks[x].replacement.value)
  }

  /** A parent finishes only after each unfinished child. */
  ghost function ChildWaits(s: State): (g: Graph)
    ensures forall e :: e in g <==> e.1 in s.tasks && s.tasks[e.1].parent == Some(e.0) && Live(s.tasks[e.1].status)
  {
    set x | x in s.tasks && s.tasks[x].parent.Some? && Live(s.tasks[x].status) :: (s.tasks[x].parent.value, x)
  }

  ghost function Waits(s: State): Graph { s.deps + ChildWaits(s) }

  /** Links join stored tasks, as foreign keys require. */
  ghost predicate LinkedWithin(s: State) {
    && (forall e :: e in s.deps ==> e.0 in s.tasks && e.1 in s.tasks)
    && (forall e :: e in Parents(s) ==> e.1 in s.tasks)
    && (forall e :: e in Replacements(s) ==> e.1 in s.tasks)
  }

  // ---- settled prerequisites ----

  /** Each task but the last is retired into the next one. */
  ghost predicate Follows(s: State, w: seq<nat>) {
    && |w| > 0
    && (forall i :: 0 <= i < |w| ==> w[i] in s.tasks)
    && (forall i :: 0 < i < |w| ==> RetiredInto(s, w[i - 1], w[i]))
  }

  predicate RetiredInto(s: State, x: nat, r: nat) {
    x in s.tasks && s.tasks[x].status.Retired? && s.tasks[x].replacement == Some(r)
  }

  /** Done, or retired as no longer worth doing. */
  predicate SettledHere(s: State, x: nat) {
    x in s.tasks && (s.tasks[x].status.Done? || (s.tasks[x].status.Retired? && s.tasks[x].replacement.None?))
  }

  ghost predicate LeadsTo(s: State, x: nat, y: nat) {
    exists w :: Follows(s, w) && w[0] == x && w[|w| - 1] == y
  }

  /** A prerequisite no longer holds its dependents when its replacement chain ends settled. */
  ghost predicate Settled(s: State, x: nat) {
    exists y :: LeadsTo(s, x, y) && SettledHere(s, y)
  }

  lemma LeadsToSelf(s: State, x: nat)
    requires x in s.tasks
    ensures LeadsTo(s, x, x)
  {
    var w := [x];
    assert Follows(s, w);
  }

  lemma LeadsToStep(s: State, x: nat, r: nat, y: nat)
    requires RetiredInto(s, x, r) && LeadsTo(s, r, y)
    ensures LeadsTo(s, x, y)
  {
    var w :| Follows(s, w) && w[0] == r && w[|w| - 1] == y;
    var v := [x] + w;
    forall i | 0 < i < |v| ensures RetiredInto(s, v[i - 1], v[i]) {
      if i > 1 { assert v[i - 1] == w[i - 2] && v[i] == w[i - 1]; }
    }
    assert Follows(s, v);
  }

  /** A chain is where it starts or takes the one step the stored link allows. */
  lemma LeadsToUnfold(s: State, x: nat, y: nat)
    requires LeadsTo(s, x, y)
    ensures x in s.tasks && y in s.tasks
    ensures x == y || (s.tasks[x].status.Retired? && s.tasks[x].replacement.Some?
                       && LeadsTo(s, s.tasks[x].replacement.value, y))
  {
    var w :| Follows(s, w) && w[0] == x && w[|w| - 1] == y;
    if |w| > 1 {
      assert RetiredInto(s, w[0], w[1]);
      var v := w[1..];
      forall i | 0 < i < |v| ensures RetiredInto(s, v[i - 1], v[i]) {
        assert v[i - 1] == w[i] && v[i] == w[i + 1];
      }
      assert Follows(s, v);
    }
  }

  /** The plain recursive reading of settlement holds in every state, broken chains included. */
  lemma SettledUnfold(s: State, x: nat)
    ensures Settled(s, x) <==>
            || SettledHere(s, x)
            || (x in s.tasks && s.tasks[x].status.Retired? && s.tasks[x].replacement.Some?
                && Settled(s, s.tasks[x].replacement.value))
  {
    if Settled(s, x) {
      var y :| LeadsTo(s, x, y) && SettledHere(s, y);
      LeadsToUnfold(s, x, y);
    }
    if SettledHere(s, x) {
      LeadsToSelf(s, x);
    } else if x in s.tasks && s.tasks[x].status.Retired? && s.tasks[x].replacement.Some? {
      var r := s.tasks[x].replacement.value;
      if Settled(s, r) {
        var y :| LeadsTo(s, r, y) && SettledHere(s, y);
        LeadsToStep(s, x, r, y);
      }
    }
  }

  // ---- blockers ----

  ghost predicate OpenDep(s: State, x: nat, d: nat) { (x, d) in s.deps && !Settled(s, d) }

  ghost predicate DepsSettled(s: State, x: nat) {
    forall d :: (x, d) in s.deps ==> Settled(s, d)
  }

  predicate LiveChild(s: State, x: nat, child: nat) {
    child in s.tasks && s.tasks[child].parent == Some(x) && Live(s.tasks[child].status)
  }

  ghost predicate NoLiveChild(s: State, x: nat) {
    forall child :: child in s.tasks ==> !LiveChild(s, x, child)
  }

  predicate OpenGate(t: Task) { exists gate :: gate in t.gates && gate.status.Open? }

  predicate OpenExternal(t: Task) { exists gate :: gate in t.gates && gate.status.Open? && gate.kind.ExternalGate? }

  /** A done dependency or done child of x whose result is disputed. */
  predicate DisputedFor(s: State, x: nat, r: nat) {
    r in s.tasks && s.tasks[r].status.Done? && ((x, r) in s.deps || s.tasks[r].parent == Some(x))
    && ResultDisputed(s, r)
  }

  ghost predicate Undisputed(s: State, x: nat) {
    forall r :: r in s.tasks ==> !DisputedFor(s, x, r)
  }

  predicate DoneDependent(s: State, x: nat, d: nat) {
    d in s.tasks && s.tasks[d].status.Done? && (d, x) in s.deps
  }

  ghost predicate NoDoneDependent(s: State, x: nat) {
    forall d :: d in s.tasks ==> !DoneDependent(s, x, d)
  }

  ghost predicate NoInboundReplacement(s: State, x: nat) {
    forall y :: y in s.tasks ==> s.tasks[y].replacement != Some(x)
  }
}
