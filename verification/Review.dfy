/** Review state of a task's two claims, derived from the event log and never stored. */
module Review {
  import opened Basics
  import opened Records

  datatype ReviewState = Unreviewed | Engaged | Confirmed | Disputed

  datatype Claim = Claim(state: ReviewState, authorModel: Option<string>, reviewerModel: Option<string>,
                         sameModel: Option<bool>, legacy: bool)

  /** The filing claim, and the result claim with its author once there is one. */
  datatype Claims = Claims(filing: Claim, result: Option<(Author, Claim)>)

  function Lower(c: char): char {
    if 'A' <= c <= 'Z' then (c as int + 32) as char else c
  }

  predicate Digit(c: char) { '0' <= c <= '9' }

  /** Lowercased, with '.' between two digits written '-'. */
  function NormalizedModel(model: string): string {
    seq(|model|, i requires 0 <= i < |model| => if DotBetweenDigits(model, i) then '-' else Lower(model[i]))
  }

  predicate BetweenDigits(model: string, i: nat)
    requires i < |model|
  {
    0 < i && i + 1 < |model| && Digit(model[i - 1]) && Digit(model[i + 1])
  }

  predicate DotBetweenDigits(model: string, i: nat)
    requires i < |model|
  {
    model[i] == '.' && BetweenDigits(model, i)
  }

  /** Compared by session when both are known, otherwise by actor label. */
  predicate SameAuthor(a: Author, b: Author) {
    if a.session.Some? && b.session.Some? then a.session == b.session else a.actor == b.actor
  }

  predicate ByOther(filer: Option<Author>, a: Author) {
    filer.Some? ==> !SameAuthor(a, filer.value)
  }

  function FreshClaim(a: Author): Claim {
    Claim(Unreviewed, a.model, None, None, a.modelSource.None?)
  }

  function WithReviewer(claim: Claim, state: ReviewState, reviewer: Author): Claim {
    claim.(state := state, reviewerModel := reviewer.model,
           sameModel := if claim.authorModel.Some? && reviewer.model.Some?
                        then Some(NormalizedModel(claim.authorModel.value) == NormalizedModel(reviewer.model.value))
                        else None)
  }

  predicate TaskEventOf(e: Event, x: nat) { e.entity == TaskEntity && e.task == Some(x) }

  /** The author of the first creation event of x; none for a task imported without history. */
  function Filer(log: seq<Event>, x: nat): Option<Author> {
    if log == [] then None
    else if TaskEventOf(log[0], x) && log[0].payload.Created? then Some(log[0].author)
    else Filer(log[1..], x)
  }

  predicate RewritesDefinition(p: Payload) {
    p.Edited? && (TitleField in p.fields || IntentField in p.fields)
  }

  function VerdictState(v: Verdict): ReviewState {
    match v case Confirms => Confirmed case Disputes => Disputed
  }

  function InitialClaims(filer: Option<Author>): Claims {
    Claims(if filer.Some? then FreshClaim(filer.value) else Claim(Unreviewed, None, None, None, true), None)
  }

  /** What one event of the task does to its claims. */
  function FoldEvent(claims: Claims, filer: Option<Author>, e: Event): Claims {
    match e.payload
    case StatusChanged(_, to, _, _, _, _) =>
      if to.InProgress? && ByOther(filer, e.author) then
        if claims.filing.state.Unreviewed?
        then claims.(filing := WithReviewer(claims.filing, Engaged, e.author)) else claims
      else if to.Done? then claims.(result := Some((e.author, FreshClaim(e.author))))
      else if Live(to) then claims.(result := None)
      else claims
    case Edited(_, _) =>
      if RewritesDefinition(e.payload) && ByOther(filer, e.author)
      then claims.(filing := WithReviewer(claims.filing, Engaged, e.author)) else claims
    case Reviewed(target, verdict) =>
      if target.OfFiling? then claims.(filing := WithReviewer(claims.filing, VerdictState(verdict), e.author))
      else if claims.result.Some? then
        var (author, claim) := claims.result.value;
        claims.(result := Some((author, WithReviewer(claim, VerdictState(verdict), e.author))))
      else claims
    case _ => claims
  }

  function Fold(log: seq<Event>, x: nat, filer: Option<Author>): Claims {
    if log == [] then InitialClaims(filer)
    else
      var before := Fold(log[..|log| - 1], x, filer);
      var e := log[|log| - 1];
      if TaskEventOf(e, x) then FoldEvent(before, filer, e) else before
  }

  /** The claims of a task: its result claim shows only while the task is done. */
  function TaskReview(s: State, x: nat): Claims
    requires x in s.tasks
  {
    var claims := Fold(s.log, x, Filer(s.log, x));
    if s.tasks[x].status.Done? then claims else claims.(result := None)
  }

  predicate ResultDisputed(s: State, x: nat)
    requires x in s.tasks
  {
    var r := TaskReview(s, x).result;
    r.Some? && r.value.1.state.Disputed?
  }

  predicate StillOpen(state: ReviewState) { state.Unreviewed? || state.Disputed? }

  /** An open filing, or a done result since authorship was required, that still needs someone else's check. */
  predicate NeedsReview(s: State, x: nat)
    requires x in s.tasks
  {
    var review := TaskReview(s, x);
    if Live(s.tasks[x].status) then StillOpen(review.filing.state)
    else s.tasks[x].status.Done? && review.result.Some? && StillOpen(review.result.value.1.state)
         && !review.result.value.1.legacy
  }
}
