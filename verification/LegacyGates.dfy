/** The two conversions of legacy blockers into external gates: the schema migration and the dump converter. */
module LegacyGates {
  import opened Basics
  import opened Records
  import opened Invariants

  datatype Blocker = Blocker(name: string, condition: string, status: GateStatus, evidence: Option<string>,
                             digest: Option<string>, note: Option<string>, resolvedAt: Option<string>)

  const PREFIX := "blocker-"

  function AsGate(b: Blocker, name: string): Gate {
    Gate(name, ExternalGate, b.condition, b.status, b.evidence, b.digest, b.note, b.resolvedAt)
  }

  predicate Taken(gates: seq<Gate>, name: string) {
    exists i :: 0 <= i < |gates| && gates[i].name == name
  }

  predicate Named(blockers: seq<Blocker>, name: string) {
    exists i :: 0 <= i < |blockers| && blockers[i].name == name
  }

  /** The database keeps a task's blocker names apart, as it does its gate names. */
  predicate UniqueBlockers(blockers: seq<Blocker>) {
    forall i, j :: 0 <= i < j < |blockers| ==> blockers[i].name != blockers[j].name
  }

  // ---- the migration: one statement over all rows ----

  /** Some blocker shares a gate's name while its prefixed name is taken by a gate or another blocker. */
  predicate SqlRefuses(gates: seq<Gate>, blockers: seq<Blocker>) {
    exists i :: 0 <= i < |blockers| && Unrenamable(gates, blockers, blockers[i].name)
  }

  predicate Unrenamable(gates: seq<Gate>, blockers: seq<Blocker>, name: string) {
    Taken(gates, name) && (Taken(gates, PREFIX + name) || Named(blockers, PREFIX + name))
  }

  function SqlName(gates: seq<Gate>, name: string): string {
    if Taken(gates, name) then PREFIX + name else name
  }

  /** The gates the first n blockers become. */
  function SqlGates(gates: seq<Gate>, blockers: seq<Blocker>, n: nat): (r: seq<Gate>)
    requires n <= |blockers|
    ensures |r| == n && forall i :: 0 <= i < n ==> r[i] == AsGate(blockers[i], SqlName(gates, blockers[i].name))
  {
    seq(n, i requires 0 <= i < n => AsGate(blockers[i], SqlName(gates, blockers[i].name)))
  }

  function SqlConvert(gates: seq<Gate>, blockers: seq<Blocker>): seq<Gate> {
    gates + SqlGates(gates, blockers, |blockers|)
  }

  // ---- the dump converter: blocker by blocker ----

  function JsonStep(gates: seq<Gate>, b: Blocker): Option<seq<Gate>> {
    if !Taken(gates, b.name) then Some(gates + [AsGate(b, b.name)])
    else if Taken(gates, PREFIX + b.name) then None
    else Some(gates + [AsGate(b, PREFIX + b.name)])
  }

  function JsonFold(gates: seq<Gate>, blockers: seq<Blocker>): Option<seq<Gate>>
    decreases |blockers|
  {
    if blockers == [] then Some(gates)
    else
      var next := JsonStep(gates, blockers[0]);
      if next.None? then None else JsonFold(next.value, blockers[1..])
  }

  method IsTaken(gates: seq<Gate>, name: string) returns (taken: bool)
    ensures taken == Taken(gates, name)
  {
    for i := 0 to |gates|
      invariant forall k :: 0 <= k < i ==> gates[k].name != name
    {
      if gates[i].name == name { return true; }
    }
    return false;
  }

  method JsonConvert(gates: seq<Gate>, blockers: seq<Blocker>) returns (r: Option<seq<Gate>>)
    ensures r == JsonFold(gates, blockers)
  {
    var converted := gates;
    for i := 0 to |blockers|
      invariant JsonFold(gates, blockers) == JsonFold(converted, blockers[i..])
    {
      assert blockers[i..][0] == blockers[i] && blockers[i..][1..] == blockers[i + 1..];
      var name := blockers[i].name;
      var taken := IsTaken(converted, name);
      if taken {
        name := PREFIX + name;
        taken := IsTaken(converted, name);
        if taken { return None; }
      }
      converted := converted + [AsGate(blockers[i], name)];
    }
    return Some(converted);
  }

  // ---- what each promises ----

  lemma TakenSnoc(gates: seq<Gate>, g: Gate, name: string)
    ensures Taken(gates + [g], name) <==> Taken(gates, name) || g.name == name
  {
    assert (gates + [g])[|gates|] == g;
    if Taken(gates, name) {
      var i :| 0 <= i < |gates| && gates[i].name == name;
      assert (gates + [g])[i].name == name;
    }
  }

  /** Whatever the converter accepts keeps the gates it started from, adds one gate per blocker and repeats no name. */
  lemma {:induction false} JsonKeepsNamesApart(gates: seq<Gate>, blockers: seq<Blocker>)
    requires UniqueGates(gates) && JsonFold(gates, blockers).Some?
    ensures UniqueGates(JsonFold(gates, blockers).value)
    ensures |JsonFold(gates, blockers).value| == |gates| + |blockers|
    ensures gates <= JsonFold(gates, blockers).value
    decreases |blockers|
  {
    if blockers != [] {
      var next := JsonStep(gates, blockers[0]).value;
      var g := next[|gates|];
      forall i | 0 <= i < |gates| ensures gates[i].name != g.name { assert Taken(gates, gates[i].name); }
      assert UniqueGates(next);
      JsonKeepsNamesApart(next, blockers[1..]);
    }
  }

  /** The gate a blocker becomes: external, with the blocker's condition and outcome. */
  predicate CarriesBlocker(g: Gate, b: Blocker) {
    && g.kind == ExternalGate && g.requirement == b.condition && g.status == b.status && g.evidence == b.evidence
    && g.digest == b.digest && g.note == b.note && g.resolvedAt == b.resolvedAt
  }

  /** Behind the gates there were, one gate per blocker, under the blocker's name unless an earlier gate has it, then
      under the prefixed one. */
  predicate AddedInTurn(gates: seq<Gate>, blockers: seq<Blocker>, r: seq<Gate>) {
    && |r| == |gates| + |blockers| && gates <= r
    && forall i :: 0 <= i < |blockers| ==>
         && CarriesBlocker(r[|gates| + i], blockers[i])
         && r[|gates| + i].name == if Taken(r[..|gates| + i], blockers[i].name) then "blocker-" + blockers[i].name
                                   else blockers[i].name
  }

  lemma AddedFirst(gates: seq<Gate>, blockers: seq<Blocker>, r: seq<Gate>)
    requires blockers != [] && JsonStep(gates, blockers[0]).Some?
    requires AddedInTurn(JsonStep(gates, blockers[0]).value, blockers[1..], r)
    ensures AddedInTurn(gates, blockers, r)
  {
    var next := JsonStep(gates, blockers[0]).value;
    assert next[..|gates|] == gates && r[..|gates|] == gates;
    forall i | 0 <= i < |blockers|
      ensures CarriesBlocker(r[|gates| + i], blockers[i])
      ensures r[|gates| + i].name == if Taken(r[..|gates| + i], blockers[i].name) then "blocker-" + blockers[i].name
                                     else blockers[i].name
    {
      if i == 0 {
        assert r[|gates|] == next[|gates|];
      } else {
        assert r[|next| + (i - 1)] == r[|gates| + i] && blockers[1..][i - 1] == blockers[i];
      }
    }
  }

  /** What the converter accepts it converts in turn. */
  lemma {:induction false} JsonAddsInTurn(gates: seq<Gate>, blockers: seq<Blocker>)
    requires JsonFold(gates, blockers).Some?
    ensures AddedInTurn(gates, blockers, JsonFold(gates, blockers).value)
    decreases |blockers|
  {
    if blockers != [] {
      JsonAddsInTurn(JsonStep(gates, blockers[0]).value, blockers[1..]);
      AddedFirst(gates, blockers, JsonFold(gates, blockers).value);
    }
  }

  /** It refuses exactly at a blocker whose name and prefixed name are both taken by the gates converted before it. */
  lemma {:induction false} JsonRefusesExactly(gates: seq<Gate>, blockers: seq<Blocker>) returns (i: nat, r: seq<Gate>)
    requires JsonFold(gates, blockers).None?
    ensures i < |blockers| && JsonFold(gates, blockers[..i]) == Some(r)
    ensures Taken(r, blockers[i].name) && Taken(r, "blocker-" + blockers[i].name)
    decreases |blockers|
  {
    var next := JsonStep(gates, blockers[0]);
    if next.None? {
      i, r := 0, gates;
    } else {
      var k;
      k, r := JsonRefusesExactly(next.value, blockers[1..]);
      i := k + 1;
      assert blockers[..i] == [blockers[0]] + blockers[1..][..k];
    }
  }

  lemma PrefixInjective(a: string, b: string)
    ensures PREFIX + a == PREFIX + b ==> a == b
    ensures |PREFIX + a| == |a| + 8
  {
    assert |PREFIX| == 8;
    if PREFIX + a == PREFIX + b {
      assert (PREFIX + a)[8..] == a && (PREFIX + b)[8..] == b;
    }
  }

  lemma SqlNameClash(gates: seq<Gate>, blockers: seq<Blocker>, i: nat, j: nat)
    requires UniqueBlockers(blockers) && i < |blockers| && j < |blockers| && i != j
    requires SqlName(gates, blockers[i].name) == SqlName(gates, blockers[j].name)
    ensures SqlRefuses(gates, blockers)
  {
    var a, b := blockers[i].name, blockers[j].name;
    PrefixInjective(a, b);
    assert a != b by { if i < j { assert a != b; } else { assert b != a; } }
    assert Named(blockers, a) && Named(blockers, b);
    if Taken(gates, a) {
      assert Unrenamable(gates, blockers, blockers[i].name);
    } else {
      assert Unrenamable(gates, blockers, blockers[j].name);
    }
  }

  lemma SqlNameIsNoGate(gates: seq<Gate>, blockers: seq<Blocker>, i: nat)
    requires i < |blockers| && !SqlRefuses(gates, blockers)
    ensures !Taken(gates, SqlName(gates, blockers[i].name))
  {
    assert !Unrenamable(gates, blockers, blockers[i].name);
  }

  /** The migration's refusal is exact: it migrates precisely when no two of the names it would assign coincide. */
  lemma SqlRefusesExactly(gates: seq<Gate>, blockers: seq<Blocker>)
    requires UniqueGates(gates) && UniqueBlockers(blockers)
    ensures UniqueGates(SqlConvert(gates, blockers)) <==> !SqlRefuses(gates, blockers)
  {
    var all := SqlConvert(gates, blockers);
    var n := |gates|;
    if !SqlRefuses(gates, blockers) {
      forall i, j | 0 <= i < j < |all| ensures all[i].name != all[j].name {
        if j >= n {
          SqlNameIsNoGate(gates, blockers, j - n);
          if i < n {
            assert Taken(gates, gates[i].name);
          } else if all[i].name == all[j].name {
            SqlNameClash(gates, blockers, i - n, j - n);
          }
        }
      }
    } else {
      var i :| 0 <= i < |blockers| && Unrenamable(gates, blockers, blockers[i].name);
      SqlRepeats(gates, blockers, i);
    }
  }

  lemma NameTwice(all: seq<Gate>, a: nat, b: nat)
    requires a < |all| && b < |all| && a != b && all[a].name == all[b].name
    ensures !UniqueGates(all)
  {
    var lo, hi := if a < b then a else b, if a < b then b else a;
    assert all[lo].name == all[hi].name;
  }

  /** The migration's gates one by one: the stored ones, then one per blocker. */
  lemma SqlAt(gates: seq<Gate>, blockers: seq<Blocker>, k: nat)
    ensures k < |gates| ==> k < |SqlConvert(gates, blockers)| && SqlConvert(gates, blockers)[k] == gates[k]
    ensures k < |blockers| ==>
              && |gates| + k < |SqlConvert(gates, blockers)|
              && SqlConvert(gates, blockers)[|gates| + k].name == SqlName(gates, blockers[k].name)
  {
  }

  lemma SqlRepeatsGate(gates: seq<Gate>, blockers: seq<Blocker>, i: nat, k: nat)
    requires i < |blockers| && k < |gates| && SqlName(gates, blockers[i].name) == gates[k].name
    ensures !UniqueGates(SqlConvert(gates, blockers))
  {
    SqlAt(gates, blockers, i);
    SqlAt(gates, blockers, k);
    NameTwice(SqlConvert(gates, blockers), k, |gates| + i);
  }

  lemma SqlRepeatsName(gates: seq<Gate>, blockers: seq<Blocker>, i: nat, k: nat)
    requires i < |blockers| && k < |blockers| && i != k && SqlName(gates, blockers[i].name) == SqlName(gates, blockers[k].name)
    ensures !UniqueGates(SqlConvert(gates, blockers))
  {
    SqlAt(gates, blockers, i);
    SqlAt(gates, blockers, k);
    NameTwice(SqlConvert(gates, blockers), |gates| + k, |gates| + i);
  }

  lemma SqlRepeats(gates: seq<Gate>, blockers: seq<Blocker>, i: nat)
    requires i < |blockers| && Unrenamable(gates, blockers, blockers[i].name)
    ensures !UniqueGates(SqlConvert(gates, blockers))
  {
    var renamed := PREFIX + blockers[i].name;
    if Taken(gates, renamed) {
      var k :| 0 <= k < |gates| && gates[k].name == renamed;
      SqlRepeatsGate(gates, blockers, i, k);
    } else {
      var k :| 0 <= k < |blockers| && blockers[k].name == renamed;
      PrefixInjective(blockers[i].name, "");
      SqlRepeatsName(gates, blockers, i, k);
    }
  }

  /** Whenever the migration accepts, the converter accepts too and assigns the same gates in the same order. */
  lemma {:induction false} SameGates(gates: seq<Gate>, blockers: seq<Blocker>, i: nat)
    requires UniqueGates(gates) && UniqueBlockers(blockers) && !SqlRefuses(gates, blockers) && i <= |blockers|
    ensures JsonFold(gates + SqlGates(gates, blockers, i), blockers[i..]) == Some(SqlConvert(gates, blockers))
    decreases |blockers| - i
  {
    if i < |blockers| {
      var sofar := gates + SqlGates(gates, blockers, i);
      SameStep(gates, blockers, i);
      assert blockers[i..][0] == blockers[i] && blockers[i..][1..] == blockers[i + 1..];
      SameGates(gates, blockers, i + 1);
    }
  }

  lemma SameStep(gates: seq<Gate>, blockers: seq<Blocker>, i: nat)
    requires UniqueGates(gates) && UniqueBlockers(blockers) && !SqlRefuses(gates, blockers) && i < |blockers|
    ensures JsonStep(gates + SqlGates(gates, blockers, i), blockers[i]) == Some(gates + SqlGates(gates, blockers, i + 1))
  {
    var name, all := blockers[i].name, SqlConvert(gates, blockers);
    var sofar := gates + SqlGates(gates, blockers, i);
    SqlRefusesExactly(gates, blockers);
    assert gates + SqlGates(gates, blockers, i + 1) == sofar + [AsGate(blockers[i], SqlName(gates, name))];
    forall k | 0 <= k < |sofar| ensures sofar[k].name != SqlName(gates, name) {
      assert all[k] == sofar[k] && all[|gates| + i].name == SqlName(gates, name);
    }
    if Taken(gates, name) {
      var k :| 0 <= k < |gates| && gates[k].name == name;
      assert sofar[k].name == name;
    }
  }

  /** The migration accepts exactly when the converter accepts and assigns the migration's names. */
  lemma ConversionsAgreeExactly(gates: seq<Gate>, blockers: seq<Blocker>)
    requires UniqueGates(gates) && UniqueBlockers(blockers)
    ensures !SqlRefuses(gates, blockers) <==> JsonFold(gates, blockers) == Some(SqlConvert(gates, blockers))
  {
    if !SqlRefuses(gates, blockers) {
      SameGates(gates, blockers, 0);
      assert gates + SqlGates(gates, blockers, 0) == gates && blockers[0..] == blockers;
    }
    if JsonFold(gates, blockers) == Some(SqlConvert(gates, blockers)) {
      JsonKeepsNamesApart(gates, blockers);
      SqlRefusesExactly(gates, blockers);
    }
  }

  // ---- the converse fails ----

  function Plain(name: string): Blocker { Blocker(name, "c", Open, None, None, None, None) }

  const TAKEN_X := [Gate("x", TestGate, "r", Open, None, None, None, None)]

  /** With a gate 'x', the migration refuses blockers 'x' and 'blocker-x' in either order, but the
      converter accepts one order and refuses the other. */
  lemma ConverterDependsOnOrder()
    ensures SqlRefuses(TAKEN_X, [Plain("x"), Plain("blocker-x")])
    ensures SqlRefuses(TAKEN_X, [Plain("blocker-x"), Plain("x")])
    ensures JsonFold(TAKEN_X, [Plain("x"), Plain("blocker-x")]).Some?
    ensures JsonFold(TAKEN_X, [Plain("blocker-x"), Plain("x")]).None?
  {
    var one, two := [Plain("x"), Plain("blocker-x")], [Plain("blocker-x"), Plain("x")];
    assert PREFIX + "x" == "blocker-x" && TAKEN_X[0].name == "x";
    assert one[1].name == "blocker-x" && two[0].name == "blocker-x";
    assert Unrenamable(TAKEN_X, one, one[0].name) && Unrenamable(TAKEN_X, two, two[1].name);
    var g := AsGate(one[0], "blocker-x");
    TakenSnoc(TAKEN_X, g, "blocker-x");
    TakenSnoc(TAKEN_X, g, PREFIX + "blocker-x");
    assert one[1..] == [Plain("blocker-x")] && two[1..] == [Plain("x")];
    assert JsonStep(TAKEN_X, one[0]) == Some(TAKEN_X + [g]);
    assert [Plain("blocker-x")][1..] == [];
    assert JsonFold(TAKEN_X + [g], one[1..]).Some?;
    var h := AsGate(two[0], "blocker-x");
    TakenSnoc(TAKEN_X, h, "x");
    TakenSnoc(TAKEN_X, h, "blocker-x");
    assert JsonStep(TAKEN_X, two[0]) == Some(TAKEN_X + [h]);
    assert JsonStep(TAKEN_X + [h], Plain("x")).None?;
  }
}
