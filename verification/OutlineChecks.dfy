/** The validation phase of decomposition: every problem is looked for against one snapshot. */
module OutlineChecks {
  import opened Basics
  import opened Graphs
  import opened Records
  import opened Waiting
  import opened Lifecycle
  import opened FirstCycleSearch
  import opened TaskGraph
  import opened Outlines
  import opened PlanMoves
  import opened Queries

  /** Each key names its child, once the keys are known to differ. */
  ghost predicate KeyTable(o: Outline, keys: map<string, nat>, n: nat)
    requires n <= |o.children|
  {
    && (forall key :: key in keys ==> keys[key] < n && o.children[keys[key]].key == key)
    && (forall j :: 0 <= j < n ==> o.children[j].key in keys)
  }

  ghost predicate KeysSoFar(o: Outline, n: nat)
    requires n <= |o.children|
  {
    && (forall k :: 0 <= k < n ==> ValidKey(o.children[k].key) && !ReadsAsHandle(o.children[k].key))
    && (forall k, j :: 0 <= k < j < n ==> o.children[k].key != o.children[j].key)
  }

  lemma OneMoreKey(o: Outline, keys: map<string, nat>, i: nat)
    requires i < |o.children|
    ensures var key := o.children[i].key;
            KeysSoFar(o, i + 1) ==> KeysSoFar(o, i) && ValidKey(key) && !ReadsAsHandle(key)
    ensures KeysSoFar(o, i) && KeyTable(o, keys, i) ==>
              (KeysSoFar(o, i + 1) <==>
               ValidKey(o.children[i].key) && !ReadsAsHandle(o.children[i].key) && o.children[i].key !in keys)
  {
  }

  method CheckKeys(o: Outline) returns (ok: bool, keys: map<string, nat>)
    ensures ok == KeysValid(o)
    ensures forall key :: key in keys ==> keys[key] < |o.children|
    ensures ok ==> KeyTable(o, keys, |o.children|)
  {
    ok, keys := true, map[];
    for i := 0 to |o.children|
      invariant forall key :: key in keys ==> keys[key] < i
      invariant ok ==> KeyTable(o, keys, i)
      invariant ok <==> KeysSoFar(o, i)
    {
      var key := o.children[i].key;
      OneMoreKey(o, keys, i);
      if !ValidKey(key) || ReadsAsHandle(key) {
        ok := false;
      } else {
        if key in keys { ok := false; }
        keys := keys[key := i];
      }
    }
  }

  /** Titles, kinds and rationales of the entries; titles differ from live children's and from each other. */
  method CheckEntries(s: State, parent: nat, o: Outline) returns (ok: bool)
    ensures ok == EntriesValid(s, parent, o)
  {
    var live := set x | x in s.tasks && LiveChild(s, parent, x) :: TitleIdentity(s.tasks[x].title);
    var titles: set<string> := {};
    ok := !(o.why.Some? && Blank(o.why.value));
    for i := 0 to |o.children|
      invariant ok ==> forall title :: title in titles <==> exists k :: 0 <= k < i && TitleIdentity(o.children[k].title) == title
      invariant ok <==> EntriesSoFar(s, parent, o, i)
    {
      var entry := o.children[i];
      var identity := TitleIdentity(entry.title);
      TitleTaken(s, parent, entry.title, live);
      if !ValidTitle(entry.title) || identity in live || identity in titles || !Assignable(entry.kind)
         || (entry.why.Some? && Blank(entry.why.value))
      {
        ok := false;
      }
      titles := titles + {identity};
    }
  }

  lemma TitleTaken(s: State, parent: nat, title: string, live: set<string>)
    requires live == set x | x in s.tasks && LiveChild(s, parent, x) :: TitleIdentity(s.tasks[x].title)
    ensures TitleIdentity(title) in live <==> !TitleFree(s, parent, title)
  {
  }

  ghost predicate EntryValid(s: State, parent: nat, entry: Entry) {
    && ValidTitle(entry.title) && TitleFree(s, parent, entry.title) && Assignable(entry.kind)
    && (entry.why.Some? ==> !Blank(entry.why.value))
  }

  ghost predicate EntriesSoFar(s: State, parent: nat, o: Outline, n: nat)
    requires n <= |o.children|
  {
    && (o.why.Some? ==> !Blank(o.why.value))
    && (forall i :: 0 <= i < n ==> EntryValid(s, parent, o.children[i]))
    && (forall i, j :: 0 <= i < j < n ==> TitleIdentity(o.children[i].title) != TitleIdentity(o.children[j].title))
  }

  // ---- dependencies ----

  /** What a dependency resolves to. */
  datatype Resolved = Sibling(target: nat) | Existing(number: nat)

  ghost predicate ResolvesTo(s: State, o: Outline, keys: map<string, nat>, d: DepRef, r: Resolved) {
    match d
    case Key(key) => key in keys && r == Sibling(keys[key])
    case TaskNumber(n) => n > 0 && r == Existing(n) && n in s.tasks
    case OtherValue => false
  }

  /** One dependency of child i: a sibling, or an existing viable task that does not wait for the parent. */
  method Resolve(s: State, parent: nat, o: Outline, keys: map<string, nat>, edges: Edges, i: nat, d: DepRef)
    returns (r: Option<Resolved>)
    requires i < |o.children| && KeyTable(o, keys, |o.children|) && KeysValid(o)
    requires GraphOf(edges) == Waits(s)
    ensures r.Some? <==> RefValid(s, parent, o, i, d)
    ensures r.Some? ==> ResolvesTo(s, o, keys, d, r.value)
  {
    match d {
      case Key(key) =>
        KeyNamed(o, keys, key);
        if key !in keys || keys[key] == i { return None; }
        assert HasKey(o, key, keys[key]);
        return Some(Sibling(keys[key]));
      case TaskNumber(n) =>
        if n <= 0 || n !in s.tasks { return None; }
        var t := s.tasks[n];
        if t.status.Retired? || t.status.Rejected? { return None; }
        var chain := Chain(edges, n, parent);
        if chain.Some? { return None; }
        return Some(Existing(n));
      case OtherValue =>
        return None;
    }
  }

  lemma KeyNamed(o: Outline, keys: map<string, nat>, key: string)
    requires KeyTable(o, keys, |o.children|) && KeysValid(o)
    ensures forall j :: HasKey(o, key, j) <==> key in keys && j == keys[key]
  {
    forall j: nat | HasKey(o, key, j) ensures key in keys && j == keys[key] {
      var k := keys[key];
    }
  }

  /** The dependencies of one child, resolved in order; repeats are problems. */
  ghost predicate ResolvedAll(s: State, o: Outline, keys: map<string, nat>, deps: seq<DepRef>, resolved: seq<Resolved>) {
    |resolved| == |deps| && forall k :: 0 <= k < |deps| ==> ResolvesTo(s, o, keys, deps[k], resolved[k])
  }

  lemma ResolvedRepeats(s: State, o: Outline, keys: map<string, nat>, deps: seq<DepRef>, resolved: seq<Resolved>, i: nat,
                        r: Resolved)
    requires KeyTable(o, keys, |o.children|) && i < |deps|
    requires ResolvedAll(s, o, keys, deps[..i], resolved) && ResolvesTo(s, o, keys, deps[i], r)
    ensures r in resolved <==> deps[i] in deps[..i]
  {
    if r in resolved {
      var k :| 0 <= k < i && resolved[k] == r;
      assert ResolvesTo(s, o, keys, deps[..i][k], resolved[k]);
      assert deps[..i][k] == deps[i];
    }
    if deps[i] in deps[..i] {
      var k :| 0 <= k < i && deps[..i][k] == deps[i];
      assert ResolvesTo(s, o, keys, deps[..i][k], resolved[k]);
      assert resolved[k] == r;
    }
  }

  ghost predicate ChildDepsValid(s: State, parent: nat, o: Outline, i: nat)
    requires i < |o.children|
  {
    && Distinct(o.children[i].deps)
    && forall k :: 0 <= k < |o.children[i].deps| ==> RefValid(s, parent, o, i, o.children[i].deps[k])
  }

  method ResolveChild(s: State, parent: nat, o: Outline, keys: map<string, nat>, edges: Edges, i: nat)
    returns (ok: bool, resolved: seq<Resolved>)
    requires i < |o.children| && KeyTable(o, keys, |o.children|) && KeysValid(o)
    requires GraphOf(edges) == Waits(s)
    ensures ok == ChildDepsValid(s, parent, o, i)
    ensures ok ==> ResolvedAll(s, o, keys, o.children[i].deps, resolved)
  {
    var deps := o.children[i].deps;
    resolved := [];
    for k := 0 to |deps|
      invariant ResolvedAll(s, o, keys, deps[..k], resolved) && Distinct(deps[..k])
      invariant forall j :: 0 <= j < k ==> RefValid(s, parent, o, i, deps[j])
    {
      var r := Resolve(s, parent, o, keys, edges, i, deps[k]);
      if r.None? { return false, resolved; }
      ResolvedRepeats(s, o, keys, deps, resolved, k, r.value);
      TakeNext(deps, k);
      if r.value in resolved {
        RepeatIsNotDistinct(deps, k);
        return false, resolved;
      }
      resolved := resolved + [r.value];
    }
    TakeAll(deps);
    return true, resolved;
  }

  lemma RepeatIsNotDistinct(deps: seq<DepRef>, k: nat)
    requires k < |deps| && deps[k] in deps[..k]
    ensures !Distinct(deps)
  {
    var j :| 0 <= j < k && deps[..k][j] == deps[k];
    assert deps[j] == deps[k];
  }

  /** The resolved dependencies of every child so far. */
  ghost predicate ResolvedOutline(s: State, o: Outline, keys: map<string, nat>, all: seq<seq<Resolved>>, n: nat)
    requires n <= |o.children|
  {
    |all| == n && forall i :: 0 <= i < n ==> ResolvedAll(s, o, keys, o.children[i].deps, all[i])
  }

  lemma EachChildValid(s: State, parent: nat, o: Outline)
    ensures DepsValid(s, parent, o) <==> forall i :: 0 <= i < |o.children| ==> ChildDepsValid(s, parent, o, i)
  {
    if DepsValid(s, parent, o) {
      forall i | 0 <= i < |o.children| ensures ChildDepsValid(s, parent, o, i) { }
    }
    if forall i :: 0 <= i < |o.children| ==> ChildDepsValid(s, parent, o, i) {
      forall i | 0 <= i < |o.children|
        ensures Distinct(o.children[i].deps)
        ensures forall k :: 0 <= k < |o.children[i].deps| ==> RefValid(s, parent, o, i, o.children[i].deps[k])
      {
        assert ChildDepsValid(s, parent, o, i);
      }
    }
  }

  method ResolveOutline(s: State, parent: nat, o: Outline, keys: map<string, nat>)
    returns (ok: bool, all: seq<seq<Resolved>>)
    requires LinkedWithin(s) && KeyTable(o, keys, |o.children|) && KeysValid(o)
    ensures ok == DepsValid(s, parent, o)
    ensures ok ==> ResolvedOutline(s, o, keys, all, |o.children|)
  {
    var edges := WaitEdges(s);
    all := [];
    for i := 0 to |o.children|
      invariant ResolvedOutline(s, o, keys, all, i)
      invariant forall j :: 0 <= j < i ==> ChildDepsValid(s, parent, o, j)
    {
      var fine, resolved := ResolveChild(s, parent, o, keys, edges, i);
      if !fine {
        EachChildValid(s, parent, o);
        return false, all;
      }
      all := all + [resolved];
    }
    EachChildValid(s, parent, o);
    return true, all;
  }

  // ---- sibling order ----

  function SiblingsIn(resolved: seq<Resolved>): (r: seq<nat>)
    ensures forall j :: j in r <==> Sibling(j) in resolved
  {
    if resolved == [] then []
    else
      var n := |resolved| - 1;
      assert resolved == resolved[..n] + [resolved[n]];
      SiblingsIn(resolved[..n]) + if resolved[n].Sibling? then [resolved[n].target] else []
  }

  lemma SiblingEdges(s: State, o: Outline, keys: map<string, nat>, all: seq<seq<Resolved>>, adjacency: seq<seq<nat>>)
    requires KeyTable(o, keys, |o.children|) && KeysValid(o)
    requires ResolvedOutline(s, o, keys, all, |o.children|)
    requires |adjacency| == |all| && forall i :: 0 <= i < |all| ==> adjacency[i] == SiblingsIn(all[i])
    ensures WellFormed(adjacency)
    ensures IndexGraph(adjacency) == SiblingGraph(o)
  {
    forall i, j: nat | 0 <= i < |adjacency| ensures j in adjacency[i] <==> j < |o.children| && SiblingDep(o, i, j) {
      SiblingTargets(s, o, keys, all[i], i, j);
    }
    forall i, k | 0 <= i < |adjacency| && 0 <= k < |adjacency[i]| ensures adjacency[i][k] < |adjacency| {
      assert adjacency[i][k] in adjacency[i];
    }
    forall e ensures e in IndexGraph(adjacency) <==> e in SiblingGraph(o) { }
  }

  lemma SiblingTargets(s: State, o: Outline, keys: map<string, nat>, resolved: seq<Resolved>, i: nat, j: nat)
    requires KeyTable(o, keys, |o.children|) && KeysValid(o) && i < |o.children|
    requires ResolvedAll(s, o, keys, o.children[i].deps, resolved)
    ensures j in SiblingsIn(resolved) <==> j < |o.children| && SiblingDep(o, i, j)
  {
    var deps := o.children[i].deps;
    if j in SiblingsIn(resolved) {
      var k :| 0 <= k < |resolved| && resolved[k] == Sibling(j);
      assert ResolvesTo(s, o, keys, deps[k], resolved[k]);
      assert deps[k] == Key(o.children[j].key);
    }
    if j < |o.children| && SiblingDep(o, i, j) {
      var key := o.children[j].key;
      var k :| 0 <= k < |deps| && deps[k] == Key(key);
      KeyNamed(o, keys, key);
      assert HasKey(o, key, j);
      assert ResolvesTo(s, o, keys, deps[k], resolved[k]);
    }
  }

  method SiblingLists(all: seq<seq<Resolved>>) returns (adjacency: seq<seq<nat>>)
    ensures |adjacency| == |all| && forall i :: 0 <= i < |all| ==> adjacency[i] == SiblingsIn(all[i])
  {
    adjacency := [];
    for i := 0 to |all|
      invariant |adjacency| == i && forall k :: 0 <= k < i ==> adjacency[k] == SiblingsIn(all[k])
    {
      adjacency := adjacency + [SiblingsIn(all[i])];
    }
  }

  method SiblingsAcyclic(s: State, o: Outline, keys: map<string, nat>, all: seq<seq<Resolved>>) returns (ok: bool)
    requires KeyTable(o, keys, |o.children|) && KeysValid(o)
    requires ResolvedOutline(s, o, keys, all, |o.children|)
    ensures ok == Acyclic(SiblingGraph(o))
  {
    var adjacency := SiblingLists(all);
    SiblingEdges(s, o, keys, all, adjacency);
    var cycle := FirstCycle(adjacency);
    return cycle.None?;
  }

  // ---- readiness ----

  lemma ReadyWhen(s: State, o: Outline, keys: map<string, nat>, resolved: seq<Resolved>, i: nat)
    requires i < |o.children| && ResolvedAll(s, o, keys, o.children[i].deps, resolved)
    ensures Ready(s, o, i) <==>
            forall k :: 0 <= k < |resolved| ==>
              resolved[k].Existing? && resolved[k].number in s.tasks && s.tasks[resolved[k].number].status.Done?
  {
    var deps := o.children[i].deps;
    forall k | 0 <= k < |deps|
      ensures (deps[k].TaskNumber? && deps[k].number >= 0 && deps[k].number in s.tasks && s.tasks[deps[k].number].status.Done?)
              <==> (resolved[k].Existing? && resolved[k].number in s.tasks && s.tasks[resolved[k].number].status.Done?)
    {
      assert ResolvesTo(s, o, keys, deps[k], resolved[k]);
    }
    if Ready(s, o, i) {
      forall k | 0 <= k < |resolved| ensures resolved[k].Existing? && resolved[k].number in s.tasks
                                             && s.tasks[resolved[k].number].status.Done? {
        assert deps[k] in deps;
      }
    }
  }

  /** A child is ready when every dependency is an existing done task. */
  method ReadyChildren(s: State, o: Outline, ghost keys: map<string, nat>, all: seq<seq<Resolved>>) returns (ready: seq<bool>)
    requires ResolvedOutline(s, o, keys, all, |o.children|)
    ensures |ready| == |o.children| && forall i :: 0 <= i < |ready| ==> ready[i] == Ready(s, o, i)
  {
    ready := [];
    for i := 0 to |all|
      invariant |ready| == i && forall j :: 0 <= j < i ==> ready[j] == Ready(s, o, j)
    {
      var satisfied := true;
      for k := 0 to |all[i]|
        invariant satisfied <==> forall j :: 0 <= j < k ==>
                    all[i][j].Existing? && all[i][j].number in s.tasks && s.tasks[all[i][j].number].status.Done?
      {
        var r := all[i][k];
        satisfied := satisfied && r.Existing? && r.number in s.tasks && s.tasks[r.number].status.Done?;
      }
      ReadyWhen(s, o, keys, all[i], i);
      ready := ready + [satisfied];
    }
  }

  // ---- the whole phase ----

  /** Every problem in the entries refuses the outline; otherwise each dependency is resolved. */
  method Validate(s: State, parent: nat, o: Outline, startReady: bool)
    returns (ok: bool, keys: map<string, nat>, all: seq<seq<Resolved>>)
    requires LinkedWithin(s) && parent in s.tasks
    ensures ok == OutlineValid(s, parent, o, startReady)
    ensures ok ==> KeysValid(o) && KeyTable(o, keys, |o.children|) && ResolvedOutline(s, o, keys, all, |o.children|)
  {
    all := [];
    ok, keys := CheckKeys(o);
    if !ok { return; }
    ok := CheckEntries(s, parent, o);
    if !ok { return; }
    ok, all := ResolveOutline(s, parent, o, keys);
    if !ok { return; }
    ok := SiblingsAcyclic(s, o, keys, all);
    if startReady && PlanStatusOf(s, parent) != PlanActive { ok := false; }
  }

  // ---- targets ----

  function TargetOf(numbers: seq<nat>, r: Resolved): nat {
    match r
    case Sibling(target) => if target < |numbers| then numbers[target] else 0
    case Existing(number) => number
  }

  function TargetsOf(numbers: seq<nat>, resolved: seq<Resolved>): (r: seq<nat>)
    ensures |r| == |resolved| && forall k :: 0 <= k < |resolved| ==> r[k] == TargetOf(numbers, resolved[k])
  {
    seq(|resolved|, k requires 0 <= k < |resolved| => TargetOf(numbers, resolved[k]))
  }

  /** Siblings resolve to the numbers their rows were given. */
  lemma TargetsAre(s: State, o: Outline, keys: map<string, nat>, deps: seq<DepRef>, resolved: seq<Resolved>,
                   numbers: seq<nat>, base: nat)
    requires KeysValid(o) && KeyTable(o, keys, |o.children|) && ResolvedAll(s, o, keys, deps, resolved)
    requires |numbers| == |o.children| && forall i :: 0 <= i < |numbers| ==> numbers[i] == base + i
    ensures TargetsOf(numbers, resolved) == Targets(o, base, deps)
  {
    forall k | 0 <= k < |deps| ensures TargetOf(numbers, resolved[k]) == Target(o, base, deps[k]) {
      assert ResolvesTo(s, o, keys, deps[k], resolved[k]);
      if deps[k].Key? {
        var key := deps[k].key;
        KeyNamed(o, keys, key);
        assert HasKey(o, key, keys[key]);
      }
    }
  }

  /** Each child has its number, and its resolved dependencies name its targets. */
  ghost predicate Targeted(o: Outline, all: seq<seq<Resolved>>, numbers: seq<nat>, base: nat) {
    && |all| == |numbers| == |o.children|
    && forall i :: 0 <= i < |numbers| ==>
         numbers[i] == base + i && TargetsOf(numbers, all[i]) == Targets(o, base, o.children[i].deps)
  }

  lemma AllTargeted(s: State, o: Outline, keys: map<string, nat>, all: seq<seq<Resolved>>, numbers: seq<nat>, base: nat)
    requires KeysValid(o) && KeyTable(o, keys, |o.children|) && ResolvedOutline(s, o, keys, all, |o.children|)
    requires |numbers| == |o.children| && forall i :: 0 <= i < |numbers| ==> numbers[i] == base + i
    ensures Targeted(o, all, numbers, base)
  {
    forall i | 0 <= i < |numbers| ensures TargetsOf(numbers, all[i]) == Targets(o, base, o.children[i].deps) {
      TargetsAre(s, o, keys, o.children[i].deps, all[i], numbers, base);
    }
  }
}
