/** Runs taken apart, over an abstract step so that what one call does stays out of sight. */
module Stepping {
  import opened Records
  import opened Runs

  lemma {:induction false} AfterJoin(s: State, a: seq<Call>, b: seq<Call>)
    ensures After(s, a + b) == After(After(s, a), b)
    decreases |b|
  {
    if b == [] {
      assert a + b == a;
    } else {
      var n := |b| - 1;
      assert a + b == (a + b[..n]) + [b[n]] && b[..n] + [b[n]] == b;
      AfterJoin(s, a, b[..n]);
      OneMoreCall(s, a + b[..n], b[n]);
      OneMoreCall(After(s, a), b[..n], b[n]);
    }
  }

  lemma FirstThenRest(s: State, call: Call, rest: seq<Call>)
    ensures After(s, [call] + rest) == After(Step(s, call), rest)
  {
    AfterJoin(s, [call], rest);
    OneMoreCall(s, [], call);
    assert [] + [call] == [call];
  }

  /** A run by a given step, first call first. */
  ghost function Run(step: (State, Call) -> State, s: State, calls: seq<Call>): State
    decreases |calls|
  {
    if calls == [] then s else Run(step, step(s, calls[0]), calls[1..])
  }

  /** The step of the planner's own runs. */
  ghost predicate IsStep(step: (State, Call) -> State) {
    forall s, call {:trigger Step(s, call)} :: step(s, call) == Step(s, call)
  }

  lemma {:induction false} RunIsAfter(step: (State, Call) -> State, s: State, calls: seq<Call>)
    requires IsStep(step)
    ensures Run(step, s, calls) == After(s, calls)
    decreases |calls|
  {
    if calls != [] {
      assert calls == [calls[0]] + calls[1..];
      FirstThenRest(s, calls[0], calls[1..]);
      assert step(s, calls[0]) == Step(s, calls[0]);
      RunIsAfter(step, step(s, calls[0]), calls[1..]);
    }
  }

  lemma RunFirst(step: (State, Call) -> State, s: State, call: Call, rest: seq<Call>)
    ensures Run(step, s, [call] + rest) == Run(step, step(s, call), rest)
  {
    assert ([call] + rest)[1..] == rest;
  }

  lemma {:induction false} RunJoin(step: (State, Call) -> State, s: State, a: seq<Call>, b: seq<Call>)
    ensures Run(step, s, a + b) == Run(step, Run(step, s, a), b)
    decreases |a|
  {
    if a == [] {
      assert a + b == b;
    } else {
      assert (a + b)[1..] == a[1..] + b;
      RunJoin(step, step(s, a[0]), a[1..], b);
    }
  }

  lemma RunLast(step: (State, Call) -> State, s: State, calls: seq<Call>, last: Call)
    ensures Run(step, s, calls + [last]) == step(Run(step, s, calls), last)
  {
    RunJoin(step, s, calls, [last]);
    RunFirst(step, Run(step, s, calls), last, []);
    assert [last] + [] == [last];
  }
}
