/** Every state a review can show, read from the log: when a filing is unreviewed or engaged, and whose models it names. */
module ReviewEffects {
  import opened Basics
  import opened Records
  import opened Review
  import opened ReviewFacts
  import opened ReviewRuns
  import opened Runs
  import opened GatesAndPlans
  import opened PlanMoves
  import opened Inventory
  import opened StatusEffects

  /** Someone other than the filer started the task. */
  predicate TakenUp(e: Event, x: nat, filer: Option<Author>) {
    && TaskEventOf(e, x) && e.payload.StatusChanged? && e.payload.to == InProgress
    && (filer.Some? ==> !SameAuthor(e.author, filer.value))
  }

  ghost predicate FirstTakenUp(log: seq<Event>, x: nat, filer: Option<Author>, i: nat) {
    i < |log| && TakenUp(log[i], x, filer) && forall j :: 0 <= j < i ==> !TakenUp(log[j], x, filer)
  }

  ghost predicate Undecided(log: seq<Event>, x: nat, filer: Option<Author>) {
    forall j :: 0 <= j < |log| ==> !DecidesFiling(log[j], x, filer)
  }

  /** The event the filing's state rests on: the last that settles it, or else the first start by another. */
  ghost predicate RestsOn(log: seq<Event>, x: nat, filer: Option<Author>, i: nat) {
    LastOnFiling(log, x, filer, i) || (Undecided(log, x, filer) && FirstTakenUp(log, x, filer, i))
  }

  lemma RestsOnSnoc(log: seq<Event>, e: Event, x: nat, filer: Option<Author>, i: nat)
    ensures DecidesFiling(e, x, filer) ==> (RestsOn(log + [e], x, filer, i) <==> i == |log|)
    ensures !DecidesFiling(e, x, filer) ==>
              (RestsOn(log + [e], x, filer, i) <==>
               || RestsOn(log, x, filer, i)
               || (&& i == |log| && TakenUp(e, x, filer) && Undecided(log, x, filer)
                   && forall j :: 0 <= j < |log| ==> !TakenUp(log[j], x, filer)))
  {
    var all := log + [e];
    LastFilingSnoc(log, e, x, filer, i);
    assert all[|log|] == e && forall j :: 0 <= j < |log| ==> all[j] == log[j];
    if DecidesFiling(e, x, filer) { assert !Undecided(all, x, filer); }
    if !DecidesFiling(e, x, filer) {
      assert Undecided(all, x, filer) <==> Undecided(log, x, filer) by {
        if Undecided(all, x, filer) {
          forall j | 0 <= j < |log| ensures !DecidesFiling(log[j], x, filer) { assert all[j] == log[j]; }
        }
      }
      assert FirstTakenUp(all, x, filer, i) <==>
             || FirstTakenUp(log, x, filer, i)
             || (i == |log| && TakenUp(e, x, filer) && forall j :: 0 <= j < |log| ==> !TakenUp(log[j], x, filer)) by {
        if FirstTakenUp(all, x, filer, i) {
          forall j | 0 <= j < i ensures !TakenUp(log[j], x, filer) { assert all[j] == log[j]; }
        }
      }
    }
  }

  /** Whether two named models are the same; unknown when one is not named. */
  function ModelsAgree(a: Option<string>, b: Option<string>): Option<bool> {
    if a.Some? && b.Some? then Some(NormalizedModel(a.value) == NormalizedModel(b.value)) else None
  }

  /** A claim names its author's model, is legacy when that author's model source is unknown, and compares models. */
  predicate ClaimOfAuthor(claim: Claim, author: Option<Author>) {
    && claim.authorModel == (if author.Some? then author.value.model else None)
    && claim.legacy == (author.None? || author.value.modelSource.None?)
    && claim.sameModel == ModelsAgree(claim.authorModel, claim.reviewerModel)
  }

  /** What the deciding event makes of a filing. */
  predicate StateAfter(e: Event, state: ReviewState) {
    match e.payload
    case Reviewed(_, v) => state == if v == Confirms then Confirmed else Disputed
    case _ => state == Engaged
  }

  /** A filing is unreviewed exactly until someone else starts the task, rewrites its definition or reviews it. From then
      on its state, reviewer and model comparison are those of the last review or rewrite, or else of the first such
      start: a verdict after a review, engaged otherwise. */
  lemma {:induction false} FilingStateExactly(log: seq<Event>, x: nat, filer: Option<Author>) returns (at: Option<nat>)
    ensures var filing := Fold(log, x, filer).filing;
            && ClaimOfAuthor(filing, filer)
            && (at.Some? ==> RestsOn(log, x, filer, at.value) && StateAfter(log[at.value], filing.state)
                             && filing.reviewerModel == log[at.value].author.model)
            && (at.None? ==> filing.state == Unreviewed && filing.reviewerModel == None
                             && Undecided(log, x, filer) && forall j :: 0 <= j < |log| ==> !TakenUp(log[j], x, filer))
    decreases |log|
  {
    if log == [] {
      at := None;
    } else {
      var n := |log| - 1;
      var e, rest := log[n], log[..n];
      SplitLast(log);
      at := FilingStateExactly(rest, x, filer);
      FoldSnoc(rest, e, x, filer);
      if DecidesFiling(e, x, filer) {
        RestsOnSnoc(rest, e, x, filer, n);
        at := Some(n);
      } else if at.None? && TakenUp(e, x, filer) {
        RestsOnSnoc(rest, e, x, filer, n);
        at := Some(n);
      } else if at.Some? {
        RestsOnSnoc(rest, e, x, filer, at.value);
        StillResting(Fold(rest, x, filer), filer, e, x, rest[at.value]);
      }
    }
  }

  /** Later events that settle nothing leave a filing that is no longer unreviewed as it is. */
  lemma StillResting(before: Claims, filer: Option<Author>, e: Event, x: nat, decider: Event)
    requires TaskEventOf(e, x) ==> !DecidesFiling(e, x, filer)
    requires StateAfter(decider, before.filing.state)
    ensures TaskEventOf(e, x) ==> FoldEvent(before, filer, e).filing == before.filing
  {
  }

  /** A result claim is unreviewed, confirmed or disputed, and names its author's model. */
  lemma {:induction false} ResultBookkeeping(log: seq<Event>, x: nat, filer: Option<Author>)
    ensures var result := Fold(log, x, filer).result;
            result.Some? ==>
              && ClaimOfAuthor(result.value.1, Some(result.value.0)) && result.value.1.state != Engaged
              && (result.value.1.state == Unreviewed ==> result.value.1.reviewerModel == None)
    decreases |log|
  {
    if log != [] { ResultBookkeeping(log[..|log| - 1], x, filer); }
  }

  // ---- what still needs a check ----

  /** Nobody but the filer has started, rewritten or reviewed the task. */
  ghost predicate Unattended(log: seq<Event>, x: nat) {
    var filer := Filer(log, x);
    Undecided(log, x, filer) && forall j :: 0 <= j < |log| ==> !TakenUp(log[j], x, filer)
  }

  /** The last completion came from an author whose model source is known. */
  ghost predicate CompletedBySourced(log: seq<Event>, x: nat) {
    Completer(log, x).Some? && Completer(log, x).value.modelSource.Some?
  }

  /** A live task nobody else attended to, or whose filing stands disputed; or a done task, completed by an author of
      known model source, whose result nobody else has confirmed since. */
  ghost predicate WantsReview(s: State, x: nat)
    requires x in s.tasks
  {
    || (s.tasks[x].status in {Proposed, InProgress}
        && (Unattended(s.log, x) || exists i: nat :: FiledByOther(s.log, x, Disputes, i)))
    || (s.tasks[x].status == Done
        && CompletedBySourced(s.log, x) && !exists i: nat :: JudgedByOther(s.log, x, Confirms, i))
  }

  lemma LiveWantsReview(calls: seq<Call>, x: nat)
    requires x in After(EMPTY, calls).tasks
    ensures var s := After(EMPTY, calls);
            StillOpen(TaskReview(s, x).filing.state) <==>
            Unattended(s.log, x) || exists i: nat :: FiledByOther(s.log, x, Disputes, i)
  {
    var s := After(EMPTY, calls);
    FilingVerdictsComeFromOthers(calls, x, Disputes);
    var at := FilingStateExactly(s.log, x, Filer(s.log, x));
    if at.Some? {
      assert RestsOn(s.log, x, Filer(s.log, x), at.value);
      assert !Unattended(s.log, x);
    }
  }

  lemma DoneWantsReview(calls: seq<Call>, x: nat)
    requires x in After(EMPTY, calls).tasks && After(EMPTY, calls).tasks[x].status.Done?
    ensures NeedsReview(After(EMPTY, calls), x) <==> WantsReview(After(EMPTY, calls), x)
  {
    var s := After(EMPTY, calls);
    ResultVerdictsComeFromOthers(calls, x, Confirms);
    ResultBelongsToCompleter(calls, x);
    ResultBookkeeping(s.log, x, Filer(s.log, x));
  }

  /** After every run a task is listed as unreviewed exactly when it wants a review by the log. */
  lemma NeedsReviewExactly(calls: seq<Call>, x: nat)
    requires x in After(EMPTY, calls).tasks
    ensures NeedsReview(After(EMPTY, calls), x) <==> WantsReview(After(EMPTY, calls), x)
  {
    if After(EMPTY, calls).tasks[x].status.Done? { DoneWantsReview(calls, x); } else { LiveWantsReview(calls, x); }
  }

  /** The status and kind asked for, if any. */
  predicate Matches(filter: Filter, t: Task) {
    && (filter.status == Some(StatusFilter.Unfinished) ==> t.status in {Proposed, InProgress})
    && (filter.status.Some? && filter.status.value.Exactly? ==> t.status == filter.status.value.status)
    && (filter.kind.Some? ==> t.kind == filter.kind.value)
  }

  lemma FitsExactly(filter: Filter, t: Task)
    ensures Fits(filter, t) <==> Matches(filter, t)
  {
  }

  /** After every run a listing shows exactly the tasks with the status or kind asked for, and of those, when only
      unreviewed work is asked for, the ones that want a review. */
  lemma ListedExactly(calls: seq<Call>, filter: Filter, x: nat)
    ensures var s := After(EMPTY, calls);
            Listed(s, filter, x) <==>
            x in s.tasks && Matches(filter, s.tasks[x]) && (filter.unreviewed ==> WantsReview(s, x))
  {
    var s := After(EMPTY, calls);
    if x in s.tasks {
      NeedsReviewExactly(calls, x);
      FitsExactly(filter, s.tasks[x]);
    }
  }
}
