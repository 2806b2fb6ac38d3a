/** What reviews mean in every run: whose claim a result is, who gave each verdict, and when a verdict stands. */
module ReviewRuns {
  import opened Basics
  import opened Graphs
  import opened Records
  import opened Review
  import opened ReviewFacts
  import opened Waiting
  import opened GatesAndPlans
  import opened Invariants
  import opened History
  import opened HistoryRuns
  import opened Runs
  import opened Snapshots

  /** Task events change statuses only as the lifecycle allows. */
  ghost predicate Legal(log: seq<Event>) {
    forall i :: 0 <= i < |log| ==> LegalEvent(log[i])
  }

  predicate LegalEvent(e: Event) {
    && (e.payload.Created? || e.payload.StatusChanged? || e.payload.Reviewed? || e.payload.Edited? ==> e.entity.TaskEntity?)
    && (e.payload.StatusChanged? ==> LegalChange(e.payload.from, e.payload.to))
  }

  lemma ShapedIsLegal(s: State)
    requires ShapedLog(s)
    ensures Legal(s.log)
  {
    forall i | 0 <= i < |s.log| ensures LegalEvent(s.log[i]) { assert Shaped(s, s.log[i], true); }
  }

  lemma SplitLast(log: seq<Event>)
    requires log != []
    ensures log == log[..|log| - 1] + [log[|log| - 1]]
  {
  }

  // ---- the result claim ----

  lemma Untouched(log: seq<Event>, x: nat, filer: Option<Author>)
    requires !Mentions(log, x)
    ensures Fold(log, x, filer) == InitialClaims(filer) && Filer(log, x) == None
  {
    forall i | 0 <= i < |log| ensures !TaskEventOf(log[i], x) { assert !About(log[i], x); }
    OthersDoNotCount([], log, x, filer);
    assert [] + log == log;
  }

  /** The result claim is there exactly while the task is done, and belongs to the last completer. */
  ghost predicate ClaimMatches(log: seq<Event>, x: nat, filer: Option<Author>, status: Status) {
    var result := Fold(log, x, filer).result;
    && (result.Some? <==> status.Done?)
    && (result.Some? ==> Completer(log, x) == Some(result.value.0))
    && Filer(log, x).Some?
  }

  lemma {:induction false} ResultFollowsStatus(log: seq<Event>, x: nat, filer: Option<Author>, status: Status)
    requires Legal(log) && Traces(log, x, OfStatus, StatusIs(status))
    ensures ClaimMatches(log, x, filer, status)
    decreases |log|
  {
    var e, rest := log[|log| - 1], log[..|log| - 1];
    SplitLast(log);
    FilerSnoc(rest, e, x);
    assert LegalEvent(e);
    assert Legal(rest);
    if About(e, x) && e.payload.Created? {
      Untouched(rest, x, filer);
    } else if About(e, x) && e.payload.StatusChanged? {
      ResultFollowsStatus(rest, x, filer, e.payload.from);
    } else {
      ResultFollowsStatus(rest, x, filer, status);
    }
  }

  // ---- standing verdicts ----

  /** Events that settle a filing's review state whatever it was. */
  predicate DecidesFiling(e: Event, x: nat, filer: Option<Author>) {
    TaskEventOf(e, x) &&
    ((e.payload.Reviewed? && e.payload.target.OfFiling?) || (RewritesDefinition(e.payload) && ByOther(filer, e.author)))
  }

  ghost predicate LastOnFiling(log: seq<Event>, x: nat, filer: Option<Author>, i: nat) {
    i < |log| && DecidesFiling(log[i], x, filer) && forall j :: i < j < |log| ==> !DecidesFiling(log[j], x, filer)
  }

  ghost predicate FilingVerdict(log: seq<Event>, x: nat, filer: Option<Author>, v: Verdict, reviewer: Option<string>) {
    exists i: nat :: LastOnFiling(log, x, filer, i) && log[i].payload == Reviewed(OfFiling, v) && log[i].author.model == reviewer
  }

  lemma LastFilingSnoc(log: seq<Event>, e: Event, x: nat, filer: Option<Author>, i: nat)
    ensures LastOnFiling(log + [e], x, filer, i) <==>
            if DecidesFiling(e, x, filer) then i == |log| else LastOnFiling(log, x, filer, i)
  {
    var all := log + [e];
    assert all[|log|] == e;
    if LastOnFiling(log, x, filer, i) && !DecidesFiling(e, x, filer) {
      forall j | i < j < |all| ensures !DecidesFiling(all[j], x, filer) {
        if j < |log| { assert all[j] == log[j]; }
      }
      assert all[i] == log[i];
    }
    if LastOnFiling(all, x, filer, i) && !DecidesFiling(e, x, filer) {
      forall j | i < j < |log| ensures !DecidesFiling(log[j], x, filer) { assert all[j] == log[j]; }
      assert all[i] == log[i];
    }
  }

  lemma FilingVerdictSnoc(log: seq<Event>, e: Event, x: nat, filer: Option<Author>, v: Verdict, reviewer: Option<string>)
    ensures FilingVerdict(log + [e], x, filer, v, reviewer) <==>
            if DecidesFiling(e, x, filer) then e.payload == Reviewed(OfFiling, v) && e.author.model == reviewer
            else FilingVerdict(log, x, filer, v, reviewer)
  {
    var all := log + [e];
    if FilingVerdict(all, x, filer, v, reviewer) {
      var i: nat :| LastOnFiling(all, x, filer, i) && all[i].payload == Reviewed(OfFiling, v) && all[i].author.model == reviewer;
      LastFilingSnoc(log, e, x, filer, i);
    }
    if DecidesFiling(e, x, filer) {
      LastFilingSnoc(log, e, x, filer, |log|);
      assert all[|log|] == e;
    } else if FilingVerdict(log, x, filer, v, reviewer) {
      var i: nat :| LastOnFiling(log, x, filer, i) && log[i].payload == Reviewed(OfFiling, v) && log[i].author.model == reviewer;
      LastFilingSnoc(log, e, x, filer, i);
      assert all[i] == log[i];
    }
  }

  /** A filing is confirmed or disputed exactly when the last event that settles it is a review with that verdict:
      only a later filing review, or a title or intent rewrite by another author, ends a standing verdict. */
  lemma {:induction false} FilingStands(log: seq<Event>, x: nat, filer: Option<Author>, v: Verdict, reviewer: Option<string>)
    ensures var filing := Fold(log, x, filer).filing;
            filing.state == VerdictState(v) && filing.reviewerModel == reviewer <==> FilingVerdict(log, x, filer, v, reviewer)
    decreases |log|
  {
    if log != [] {
      var e, rest := log[|log| - 1], log[..|log| - 1];
      SplitLast(log);
      FilingStands(rest, x, filer, v, reviewer);
      FilingVerdictSnoc(rest, e, x, filer, v, reviewer);
    }
  }

  /** Events that settle a result's review state while the task is done. */
  predicate DecidesResult(e: Event, x: nat) {
    TaskEventOf(e, x) && (e.payload.StatusChanged? || (e.payload.Reviewed? && e.payload.target.OfResult?))
  }

  ghost predicate LastOnResult(log: seq<Event>, x: nat, i: nat) {
    i < |log| && DecidesResult(log[i], x) && forall j :: i < j < |log| ==> !DecidesResult(log[j], x)
  }

  lemma LastResultSnoc(log: seq<Event>, e: Event, x: nat, i: nat)
    ensures LastOnResult(log + [e], x, i) <==> if DecidesResult(e, x) then i == |log| else LastOnResult(log, x, i)
  {
    var all := log + [e];
    assert all[|log|] == e;
    if LastOnResult(log, x, i) && !DecidesResult(e, x) {
      forall j | i < j < |all| ensures !DecidesResult(all[j], x) {
        if j < |log| { assert all[j] == log[j]; }
      }
      assert all[i] == log[i];
    }
    if LastOnResult(all, x, i) && !DecidesResult(e, x) {
      forall j | i < j < |log| ensures !DecidesResult(log[j], x) { assert all[j] == log[j]; }
      assert all[i] == log[i];
    }
  }

  ghost predicate ResultVerdict(log: seq<Event>, x: nat, v: Verdict, reviewer: Option<string>) {
    exists i: nat :: LastOnResult(log, x, i) && log[i].payload == Reviewed(OfResult, v) && log[i].author.model == reviewer
  }

  lemma ResultVerdictSnoc(log: seq<Event>, e: Event, x: nat, v: Verdict, reviewer: Option<string>)
    ensures ResultVerdict(log + [e], x, v, reviewer) <==>
            if DecidesResult(e, x) then e.payload == Reviewed(OfResult, v) && e.author.model == reviewer
            else ResultVerdict(log, x, v, reviewer)
  {
    var all := log + [e];
    if ResultVerdict(all, x, v, reviewer) {
      var i: nat :| LastOnResult(all, x, i) && all[i].payload == Reviewed(OfResult, v) && all[i].author.model == reviewer;
      LastResultSnoc(log, e, x, i);
    }
    if DecidesResult(e, x) {
      LastResultSnoc(log, e, x, |log|);
      assert all[|log|] == e;
    } else if ResultVerdict(log, x, v, reviewer) {
      var i: nat :| LastOnResult(log, x, i) && log[i].payload == Reviewed(OfResult, v) && log[i].author.model == reviewer;
      LastResultSnoc(log, e, x, i);
      assert all[i] == log[i];
    }
  }

  /** A done task's result is confirmed or disputed exactly when, since its completion, the last review of the result says so. */
  lemma {:induction false} ResultStands(log: seq<Event>, x: nat, filer: Option<Author>, v: Verdict, reviewer: Option<string>)
    requires Legal(log) && Traces(log, x, OfStatus, StatusIs(Done))
    ensures var result := Fold(log, x, filer).result;
            result.Some? &&
            (result.value.1.state == VerdictState(v) && result.value.1.reviewerModel == reviewer
             <==> ResultVerdict(log, x, v, reviewer))
    decreases |log|
  {
    var e, rest := log[|log| - 1], log[..|log| - 1];
    SplitLast(log);
    ResultFollowsStatus(log, x, filer, Done);
    ResultVerdictSnoc(rest, e, x, v, reviewer);
    assert LegalEvent(e);
    if !(About(e, x) && e.payload.StatusChanged?) {
      assert Legal(rest);
      ResultStands(rest, x, filer, v, reviewer);
    }
  }

  // ---- reviewers are never the claim's author ----

  /** The author a review of this kind must differ from, at that point of the log. */
  function ClaimantAt(log: seq<Event>, target: ReviewTarget, x: nat): Option<Author> {
    if target.OfFiling? then Filer(log, x) else Completer(log, x)
  }

  ghost predicate OtherAuthor(log: seq<Event>, i: nat)
    requires i < |log| && log[i].payload.Reviewed?
  {
    log[i].task.Some? &&
    var claimant := ClaimantAt(log[..i], log[i].payload.target, log[i].task.value);
    claimant.Some? && !SameAuthor(log[i].author, claimant.value)
  }

  ghost predicate ReviewersApart(log: seq<Event>) {
    forall i :: 0 <= i < |log| && log[i].payload.Reviewed? ==> OtherAuthor(log, i)
  }

  lemma ApartGrows(log: seq<Event>, longer: seq<Event>)
    requires ReviewersApart(log) && log <= longer
    requires forall i :: |log| <= i < |longer| && longer[i].payload.Reviewed? ==> OtherAuthor(longer, i)
    ensures ReviewersApart(longer)
  {
    forall i | 0 <= i < |longer| && longer[i].payload.Reviewed? ensures OtherAuthor(longer, i) {
      if i < |log| {
        assert OtherAuthor(log, i);
        assert longer[..i] == log[..i] && longer[i] == log[i];
      }
    }
  }

  lemma ClaimOf(s: State, x: nat)
    requires HistoryOk(s) && ShapedLog(s) && x in s.tasks
    ensures ClaimMatches(s.log, x, Filer(s.log, x), s.tasks[x].status)
  {
    ShapedIsLegal(s);
    assert Traces(s.log, x, OfStatus, Current(s, x, OfStatus));
    ResultFollowsStatus(s.log, x, Filer(s.log, x), s.tasks[x].status);
  }

  lemma ReviewKeepsApart(s: State, c: Caller, x: nat, target: ReviewTarget, verdict: Verdict, why: string)
    requires HistoryOk(s) && ShapedLog(s) && ReviewersApart(s.log)
    requires ReviewTask(s, c, x, target, verdict, why).Committed?
    ensures ReviewersApart(ReviewTask(s, c, x, target, verdict, why).state.log)
  {
    var u := ReviewTask(s, c, x, target, verdict, why).state;
    ClaimOf(s, x);
    assert u.log[..|s.log|] == s.log;
    ApartGrows(s.log, u.log);
  }

  lemma NoVerdictAdded(s: State, u: State, c: Caller)
    requires ReviewersApart(s.log) && Appended(s, u, c, false)
    ensures ReviewersApart(u.log)
  {
    forall i | |s.log| <= i < |u.log| ensures !u.log[i].payload.Reviewed? { assert Shaped(u, u.log[i], false); }
    ApartGrows(s.log, u.log);
  }

  lemma StepKeepsApart(s: State, call: Call)
    requires Homed(s) && HistoryOk(s) && ShapedLog(s) && ReviewersApart(s.log)
    ensures ReviewersApart(Step(s, call).log)
  {
    EveryChangeIsLogged(s, call);
    var a := call.action;
    if !a.DoReview? {
      NoVerdictAdded(s, Step(s, call), call.caller);
    } else if Perform(s, call).Committed? {
      ReviewKeepsApart(s, call.caller, a.x, a.target, a.verdict, a.reason);
    }
  }

  lemma {:induction false} RunKeepsApart(calls: seq<Call>)
    ensures ReviewersApart(After(EMPTY, calls).log)
    decreases |calls|
  {
    if calls != [] {
      var n := |calls| - 1;
      RunKeepsApart(calls[..n]);
      RunHistory(calls[..n]);
      RunShapes(calls[..n]);
      InvHomed(After(EMPTY, calls[..n]));
      StepKeepsApart(After(EMPTY, calls[..n]), calls[n]);
    }
  }

  // ---- what every run shows ----

  lemma {:induction false} CompleterKept(log: seq<Event>, x: nat, i: nat)
    requires i <= |log| && forall j :: i <= j < |log| ==> !(TaskEventOf(log[j], x) && log[j].payload.StatusChanged?)
    ensures Completer(log, x) == Completer(log[..i], x)
    decreases |log|
  {
    if i < |log| {
      var rest := log[..|log| - 1];
      CompleterKept(rest, x, i);
      assert rest[..i] == log[..i];
    } else {
      TakeAll(log);
    }
  }

  lemma {:induction false} FilerKept(log: seq<Event>, x: nat, i: nat)
    requires i <= |log| && Filer(log[..i], x).Some?
    ensures Filer(log, x) == Filer(log[..i], x)
    decreases |log|
  {
    if i < |log| {
      var rest := log[..|log| - 1];
      assert rest[..i] == log[..i];
      FilerKept(rest, x, i);
      SplitLast(log);
      FilerSnoc(rest, log[|log| - 1], x);
    } else {
      TakeAll(log);
    }
  }

  /** A filing verdict was given by someone other than the filer, and nothing has ended it since. */
  ghost predicate FiledByOther(log: seq<Event>, x: nat, v: Verdict, i: nat) {
    var filer := Filer(log, x);
    filer.Some? && LastOnFiling(log, x, filer, i) && log[i].payload == Reviewed(OfFiling, v)
    && !SameAuthor(log[i].author, filer.value)
  }

  /** A result verdict was given after the last completion by someone other than its author. */
  ghost predicate JudgedByOther(log: seq<Event>, x: nat, v: Verdict, i: nat) {
    var completer := Completer(log, x);
    completer.Some? && LastOnResult(log, x, i) && log[i].payload == Reviewed(OfResult, v)
    && !SameAuthor(log[i].author, completer.value)
  }

  lemma FilingWordByOther(log: seq<Event>, x: nat, v: Verdict, i: nat)
    requires ReviewersApart(log) && LastOnFiling(log, x, Filer(log, x), i) && log[i].payload == Reviewed(OfFiling, v)
    ensures FiledByOther(log, x, v, i)
  {
    assert OtherAuthor(log, i);
    FilerKept(log, x, i);
  }

  lemma FilingVerdictExact(log: seq<Event>, x: nat, v: Verdict)
    requires ReviewersApart(log)
    ensures Fold(log, x, Filer(log, x)).filing.state == VerdictState(v) <==> exists i: nat :: FiledByOther(log, x, v, i)
  {
    var filer := Filer(log, x);
    var filing := Fold(log, x, filer).filing;
    FilingStands(log, x, filer, v, filing.reviewerModel);
    if FilingVerdict(log, x, filer, v, filing.reviewerModel) {
      var i: nat :| LastOnFiling(log, x, filer, i) && log[i].payload == Reviewed(OfFiling, v);
      FilingWordByOther(log, x, v, i);
    }
    if i: nat :| FiledByOther(log, x, v, i) {
      FilingStands(log, x, filer, v, log[i].author.model);
    }
  }

  lemma ResultWordByOther(log: seq<Event>, x: nat, v: Verdict, i: nat)
    requires ReviewersApart(log) && LastOnResult(log, x, i) && log[i].payload == Reviewed(OfResult, v)
    ensures JudgedByOther(log, x, v, i)
  {
    assert OtherAuthor(log, i);
    CompleterKept(log, x, i);
  }

  lemma ResultVerdictExact(log: seq<Event>, x: nat, v: Verdict)
    requires ReviewersApart(log) && Legal(log) && Traces(log, x, OfStatus, StatusIs(Done))
    ensures var result := Fold(log, x, Filer(log, x)).result;
            result.Some? && (result.value.1.state == VerdictState(v) <==> exists i: nat :: JudgedByOther(log, x, v, i))
  {
    var filer := Filer(log, x);
    ResultFollowsStatus(log, x, filer, Done);
    var claim := Fold(log, x, filer).result.value.1;
    ResultStands(log, x, filer, v, claim.reviewerModel);
    if ResultVerdict(log, x, v, claim.reviewerModel) {
      var i: nat :| LastOnResult(log, x, i) && log[i].payload == Reviewed(OfResult, v);
      ResultWordByOther(log, x, v, i);
    }
    if i: nat :| JudgedByOther(log, x, v, i) {
      ResultStands(log, x, filer, v, log[i].author.model);
    }
  }

  lemma RunReviewFacts(calls: seq<Call>, x: nat)
    requires x in After(EMPTY, calls).tasks
    ensures var s := After(EMPTY, calls);
            && ReviewersApart(s.log) && Legal(s.log)
            && Traces(s.log, x, OfStatus, StatusIs(s.tasks[x].status))
            && ClaimMatches(s.log, x, Filer(s.log, x), s.tasks[x].status)
  {
    var s := After(EMPTY, calls);
    RunHistory(calls);
    RunShapes(calls);
    RunKeepsApart(calls);
    ShapedIsLegal(s);
    ClaimOf(s, x);
    assert Traces(s.log, x, OfStatus, Current(s, x, OfStatus));
  }

  /** In every run the result claim shows exactly while the task is done and belongs to its last completer. */
  lemma ResultBelongsToCompleter(calls: seq<Call>, x: nat)
    requires x in After(EMPTY, calls).tasks
    ensures var s := After(EMPTY, calls);
            var result := TaskReview(s, x).result;
            && (result.Some? <==> s.tasks[x].status.Done?)
            && (result.Some? ==> Completer(s.log, x) == Some(result.value.0))
  {
    RunReviewFacts(calls, x);
  }

  /** In every run a filing is confirmed or disputed exactly when the last word on it is such a verdict by someone
      other than the filer. */
  lemma FilingVerdictsComeFromOthers(calls: seq<Call>, x: nat, v: Verdict)
    requires x in After(EMPTY, calls).tasks
    ensures var s := After(EMPTY, calls);
            TaskReview(s, x).filing.state == VerdictState(v) <==> exists i: nat :: FiledByOther(s.log, x, v, i)
  {
    RunReviewFacts(calls, x);
    FilingVerdictExact(After(EMPTY, calls).log, x, v);
  }

  /** In every run a done task's result is confirmed or disputed exactly when the last word on it since its completion
      is such a verdict by someone other than the completer. */
  lemma ResultVerdictsComeFromOthers(calls: seq<Call>, x: nat, v: Verdict)
    requires x in After(EMPTY, calls).tasks && After(EMPTY, calls).tasks[x].status.Done?
    ensures var s := After(EMPTY, calls);
            var result := TaskReview(s, x).result;
            result.Some? && (result.value.1.state == VerdictState(v) <==> exists i: nat :: JudgedByOther(s.log, x, v, i))
  {
    RunReviewFacts(calls, x);
    ResultVerdictExact(After(EMPTY, calls).log, x, v);
  }
}
