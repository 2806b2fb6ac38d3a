/** The events an export keeps still account for the dumped tasks. */
module TransferHistory {
  import opened Basics
  import opened Graphs
  import opened Records
  import opened Definition
  import opened Invariants
  import opened History
  import opened Snapshots
  import opened Dumps
  import opened Exports

  // ---- keeping events ----

  lemma {:induction false} KeptMentions(log: seq<Event>, numbers: set<nat>, slugs: set<string>, x: nat)
    requires x in numbers
    ensures Mentions(KeptEvents(log, numbers, slugs), x) <==> Mentions(log, x)
    decreases |log|
  {
    if log != [] {
      var e, rest := log[|log| - 1], log[..|log| - 1];
      var kept := KeptEvents(rest, numbers, slugs);
      KeptMentions(rest, numbers, slugs, x);
      MentionsSnoc(rest, e, x);
      MentionsSnoc(kept, e, x);
      assert rest + [e] == log;
    }
  }

  lemma MentionsSnoc(log: seq<Event>, e: Event, x: nat)
    ensures Mentions(log + [e], x) <==> Mentions(log, x) || About(e, x)
  {
    var all := log + [e];
    assert all[|log|] == e;
    if Mentions(log, x) {
      var i :| 0 <= i < |log| && About(log[i], x);
      assert About(all[i], x);
    }
  }

  /** Two logs that agree on x still do after one more event about it. */
  lemma AgreeingLogs(rest: seq<Event>, kept: seq<Event>, e: Event, x: nat, a: Aspect, v: Fact)
    requires Traces(kept, x, a, v) <==> Traces(rest, x, a, v)
    requires Told(e, a).Some? ==> (Traces(kept, x, a, Told(e, a).value.0) <==> Traces(rest, x, a, Told(e, a).value.0))
    requires Mentions(kept, x) <==> Mentions(rest, x)
    requires About(e, x)
    ensures Traces(kept + [e], x, a, v) <==> Traces(rest + [e], x, a, v)
  {
    TracesSnoc(rest, e, x, a, v);
    TracesSnoc(kept, e, x, a, v);
  }

  lemma KeptLast(rest: seq<Event>, e: Event, numbers: set<nat>, slugs: set<string>)
    ensures KeptEvents(rest + [e], numbers, slugs) ==
            KeptEvents(rest, numbers, slugs) + if Keeps(numbers, slugs, e) then [e] else []
  {
    assert (rest + [e])[..|rest|] == rest;
  }

  /** Dropping other tasks' events leaves a task's account as it was. */
  lemma {:induction false} KeptTraces(log: seq<Event>, numbers: set<nat>, slugs: set<string>, x: nat, a: Aspect, v: Fact)
    requires x in numbers
    ensures Traces(KeptEvents(log, numbers, slugs), x, a, v) <==> Traces(log, x, a, v)
    decreases |log|
  {
    if log != [] {
      var e, rest := log[|log| - 1], log[..|log| - 1];
      var kept := KeptEvents(rest, numbers, slugs);
      assert rest + [e] == log;
      KeptLast(rest, e, numbers, slugs);
      KeptTraces(rest, numbers, slugs, x, a, v);
      if About(e, x) {
        KeptMentions(rest, numbers, slugs, x);
        if Told(e, a).Some? { KeptTraces(rest, numbers, slugs, x, a, Told(e, a).value.0); }
        AgreeingLogs(rest, kept, e, x, a, v);
      } else {
        TracesSnoc(rest, e, x, a, v);
        TracesSnoc(kept, e, x, a, v);
        assert kept + [] == kept;
      }
    }
  }

  lemma {:induction false} KeptAreLogged(log: seq<Event>, numbers: set<nat>, slugs: set<string>)
    ensures forall e :: e in KeptEvents(log, numbers, slugs) <==> e in log && Keeps(numbers, slugs, e)
    decreases |log|
  {
    if log != [] {
      var e, rest := log[|log| - 1], log[..|log| - 1];
      KeptAreLogged(rest, numbers, slugs);
      assert forall f :: f in log <==> f in rest || f == e;
    }
  }

  lemma {:induction false} KeptTwice(log: seq<Event>, numbers: set<nat>, slugs: set<string>)
    requires forall e :: e in log ==> Keeps(numbers, slugs, e)
    ensures KeptEvents(log, numbers, slugs) == log
    decreases |log|
  {
    if log != [] {
      var e, rest := log[|log| - 1], log[..|log| - 1];
      assert forall f :: f in rest ==> f in log;
      KeptTwice(rest, numbers, slugs);
      assert rest + [e] == log;
    }
  }

  // ---- a task's plan through its history ----

  /** Before event i the task belonged to the plan the later events imply, or was not yet created. */
  ghost predicate PlanKnown(events: seq<Event>, x: nat, i: nat, last: string)
    requires i <= |events|
  {
    || Traces(events[..i], x, OfField(PlanField), FieldIs(Text(PlanBefore(events, x, i, last))))
    || !Mentions(events[..i], x)
  }

  ghost predicate RevisionsValid(events: seq<Event>) {
    forall i :: 0 <= i < |events| && events[i].payload.Edited? ==> ValidRevision(events[i].payload)
  }

  /** The stamp of an event about x, and its plan change if it makes one. */
  predicate StampedRight(e: Event, x: nat, now: string) {
    About(e, x) ==>
      && e.plan == Some(now)
      && (ChangesPlan(e, x) ==>
            e.payload.changes[PlanField].after == Text(now) && e.payload.changes[PlanField].before.Text?)
  }

  lemma PlanStep(events: seq<Event>, x: nat, i: nat, last: string)
    requires i < |events| && PlanKnown(events, x, i + 1, last) && RevisionsValid(events)
    ensures PlanKnown(events, x, i, last)
    ensures StampedRight(events[i], x, PlanBefore(events, x, i + 1, last))
  {
    var e, a, now := events[i], OfField(PlanField), PlanBefore(events, x, i + 1, last);
    var longer, rest := events[..i + 1], events[..i];
    assert longer[..|longer| - 1] == rest && longer[|longer| - 1] == e;
    assert longer == rest + [e];
    MentionsSnoc(rest, e, x);
    if ChangesPlan(e, x) {
      assert ValidRevision(e.payload) && ValidValue(PlanField, e.payload.changes[PlanField].before);
    }
    TracesSnoc(rest, e, x, a, FieldIs(Text(now)));
    if About(e, x) {
      assert Traces(longer, x, a, FieldIs(Text(now)));
    }
  }

  /** The whole log accounts for x, or never mentions it. */
  ghost predicate EndsIn(events: seq<Event>, x: nat, last: string) {
    Traces(events, x, OfField(PlanField), FieldIs(Text(last))) || !Mentions(events, x)
  }

  lemma PlanAtEnd(events: seq<Event>, x: nat, last: string)
    requires EndsIn(events, x, last)
    ensures PlanKnown(events, x, |events|, last)
  {
    TakeAll(events);
  }

  lemma {:induction false} PlanThroughout(events: seq<Event>, x: nat, i: nat, last: string)
    requires i <= |events| && RevisionsValid(events) && EndsIn(events, x, last)
    ensures PlanKnown(events, x, i, last)
    decreases |events| - i
  {
    if i == |events| {
      PlanAtEnd(events, x, last);
    } else {
      PlanThroughout(events, x, i + 1, last);
      PlanStep(events, x, i, last);
    }
  }

  /** Every plan a task ever belonged to is a stored one. */
  lemma {:induction false} PlansAreKnown(s: State, events: seq<Event>, x: nat, i: nat, last: string)
    requires i <= |events| && KnownSlug(s, last)
    requires forall e :: e in events ==> Shaped(s, e, true)
    ensures KnownSlug(s, PlanBefore(events, x, i, last))
    decreases |events| - i
  {
    if i < |events| {
      assert events[i] in events;
      PlansAreKnown(s, events, x, i + 1, last);
    }
  }

  // ---- the dump's plan history ----

  lemma {:induction false} FinalPlansExact(tasks: seq<TaskDump>, k: nat)
    requires k < |tasks| && tasks[k].seqno.Some?
    requires forall i, j :: 0 <= i < j < |tasks| ==> tasks[j].seqno != tasks[i].seqno
    ensures tasks[k].seqno.value in FinalPlans(tasks) && FinalPlans(tasks)[tasks[k].seqno.value] == tasks[k].plan
    decreases |tasks|
  {
    if k < |tasks| - 1 { FinalPlansExact(tasks[..|tasks| - 1], k); }
  }

  /** The task's part of a sound state's log, restricted to the dump, accounts for its plan. */
  lemma KeptPlans(s: State, d: Dump, numbers: set<nat>, slugs: set<string>, x: nat, i: nat)
    requires HistoryOk(s) && ShapedLog(s) && d.events == KeptEvents(s.log, numbers, slugs)
    requires x in numbers && x in s.tasks && KnownSlug(s, SlugOf(s, x)) && i < |d.events|
    ensures StampedRight(d.events[i], x, PlanBefore(d.events, x, i + 1, SlugOf(s, x)))
    ensures KnownSlug(s, PlanBefore(d.events, x, i + 1, SlugOf(s, x)))
  {
    var a := OfField(PlanField);
    KeptAreLogged(s.log, numbers, slugs);
    assert Traces(s.log, x, a, Current(s, x, a));
    KeptTraces(s.log, numbers, slugs, x, a, Current(s, x, a));
    forall k | 0 <= k < |d.events| && d.events[k].payload.Edited? ensures ValidRevision(d.events[k].payload) {
      assert d.events[k] in s.log;
      var j :| 0 <= j < |s.log| && s.log[j] == d.events[k];
      assert Recorded(s, s.log[j]);
    }
    PlanThroughout(d.events, x, i + 1, SlugOf(s, x));
    PlanStep(d.events, x, i, SlugOf(s, x));
    forall e | e in d.events ensures Shaped(s, e, true) {
      var j :| 0 <= j < |s.log| && s.log[j] == e;
    }
    PlansAreKnown(s, d.events, x, i + 1, SlugOf(s, x));
  }
}
