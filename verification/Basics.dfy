/** Options, and the finite-collection helpers the rest of the model shares. */
module Basics {

  datatype Option<+T> = None | Some(value: T)

  /** The largest member of a set of task numbers, 0 when there is none. */
  ghost function MaxOf(S: set<nat>): (m: nat)
    ensures forall x :: x in S ==> x <= m
    ensures S != {} ==> m in S
    ensures S == {} ==> m == 0
  {
    if S == {} then 0 else
      var x :| x in S;
      assert S == S - {x} + {x};
      var m := MaxOf(S - {x});
      if x > m then x else m
  }

  predicate Distinct<T(==)>(s: seq<T>) {
    forall i, j :: 0 <= i < j < |s| ==> s[i] != s[j]
  }

  lemma TakeNext<T>(s: seq<T>, i: nat)
    requires i < |s|
    ensures s[..i + 1] == s[..i] + [s[i]]
  {
  }

  lemma TakeAll<T>(s: seq<T>)
    ensures s[..|s|] == s
  {
  }

  lemma DropFirst<T>(x: T, s: seq<T>, k: nat)
    requires 0 < k <= |s| + 1
    ensures ([x] + s)[k..] == s[k - 1..]
  {
  }
}
