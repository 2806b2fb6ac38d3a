/** How the review fold grows with the log. */
module ReviewFacts {
  import opened Basics
  import opened Records
  import opened Review

  lemma {:induction false} FilerSnoc(log: seq<Event>, e: Event, x: nat)
    ensures Filer(log + [e], x) ==
            if Filer(log, x).Some? then Filer(log, x)
            else if TaskEventOf(e, x) && e.payload.Created? then Some(e.author) else None
    decreases |log|
  {
    if log == [] {
      assert (log + [e])[1..] == [];
    } else {
      assert (log + [e])[1..] == log[1..] + [e];
      FilerSnoc(log[1..], e, x);
    }
  }

  lemma FoldSnoc(log: seq<Event>, e: Event, x: nat, filer: Option<Author>)
    ensures Fold(log + [e], x, filer) ==
            if TaskEventOf(e, x) then FoldEvent(Fold(log, x, filer), filer, e) else Fold(log, x, filer)
  {
    assert (log + [e])[..|log|] == log;
  }

  /** A task's claims after one more event that does not create it. */
  lemma ClaimsSnoc(log: seq<Event>, e: Event, x: nat)
    requires TaskEventOf(e, x) ==> !e.payload.Created?
    ensures Fold(log + [e], x, Filer(log + [e], x)) ==
            if TaskEventOf(e, x) then FoldEvent(Fold(log, x, Filer(log, x)), Filer(log, x), e)
            else Fold(log, x, Filer(log, x))
  {
    FilerSnoc(log, e, x);
    FoldSnoc(log, e, x, Filer(log, x));
  }

  lemma LastApart(log: seq<Event>, more: seq<Event>)
    requires more != []
    ensures log + more == (log + more[..|more| - 1]) + [more[|more| - 1]]
  {
  }

  /** Events about other tasks leave a task's review alone. */
  lemma {:induction false} OthersDoNotCount(log: seq<Event>, more: seq<Event>, x: nat, filer: Option<Author>)
    requires forall i :: 0 <= i < |more| ==> !TaskEventOf(more[i], x)
    ensures Filer(log + more, x) == Filer(log, x)
    ensures Fold(log + more, x, filer) == Fold(log, x, filer)
    decreases |more|
  {
    if more == [] {
      assert log + more == log;
    } else {
      var n := |more| - 1;
      OthersDoNotCount(log, more[..n], x, filer);
      LastApart(log, more);
      FilerSnoc(log + more[..n], more[n], x);
      FoldSnoc(log + more[..n], more[n], x, filer);
    }
  }

  // ---- model names ----

  /** The same character in any case, or a dot and a dash between two digits. */
  predicate AlikeAt(a: string, b: string, i: nat)
    requires i < |a| && i < |b|
  {
    || Lower(a[i]) == Lower(b[i])
    || ((a[i] == '.' || a[i] == '-') && (b[i] == '.' || b[i] == '-') && BetweenDigits(a, i))
  }

  predicate AlikeModels(a: string, b: string) {
    |a| == |b| && forall i :: 0 <= i < |a| ==> AlikeAt(a, b, i)
  }

  lemma DigitsStay(a: string, b: string, i: nat)
    requires i < |a| == |b| && (NormalizedModel(a)[i] == NormalizedModel(b)[i] || AlikeAt(a, b, i))
    ensures Digit(a[i]) <==> Digit(b[i])
  {
  }

  /** Two names count as one model exactly when they differ only in letter case and in dots against dashes
      between digits. */
  lemma SameModelExactly(a: string, b: string)
    ensures NormalizedModel(a) == NormalizedModel(b) <==> AlikeModels(a, b)
  {
    var m, n := NormalizedModel(a), NormalizedModel(b);
    if |a| == |b| {
      if m == n || AlikeModels(a, b) {
        forall i | 0 <= i < |a| ensures Digit(a[i]) <==> Digit(b[i]) { DigitsStay(a, b, i); }
        forall i | 0 <= i < |a| ensures BetweenDigits(a, i) <==> BetweenDigits(b, i) { }
      }
      if m == n {
        forall i | 0 <= i < |a| ensures AlikeAt(a, b, i) { assert m[i] == n[i]; }
      }
      if AlikeModels(a, b) {
        forall i | 0 <= i < |a| ensures m[i] == n[i] { assert AlikeAt(a, b, i); }
      }
    } else {
      assert |m| != |n|;
    }
  }

  /** Normalizing a normalized name changes nothing. */
  lemma NormalizedOnce(model: string)
    ensures NormalizedModel(NormalizedModel(model)) == NormalizedModel(model)
  {
    var m := NormalizedModel(model);
    forall i | 0 <= i < |m| ensures Digit(m[i]) <==> Digit(model[i]) { }
    forall i | 0 <= i < |m| ensures !DotBetweenDigits(m, i) { }
    forall i | 0 <= i < |m| ensures NormalizedModel(m)[i] == m[i] { }
  }
}
