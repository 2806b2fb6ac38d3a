/** Whole-authority task listings page by page, with cursors bound to their filters and to one authority state. */
module Inventory {
  import opened Basics
  import opened Records
  import opened Review
  import opened PlanMoves

  datatype StatusFilter = Exactly(status: Status) | Unfinished

  datatype Filter = Filter(status: Option<StatusFilter>, kind: Option<Kind>, unreviewed: bool)

  /** The digests of filters and history stand for what they digest: they are taken as injective. */
  datatype Token = Token(seqno: nat, filter: Filter, snapshot: seq<Event>)

  datatype Listing = Listing(tasks: seq<nat>, total: nat, remaining: nat, next: Option<Token>)

  const MAX_INVENTORY_PAGE := 500

  predicate Fits(filter: Filter, t: Task) {
    && (filter.status.Some? ==>
          match filter.status.value
          case Exactly(status) => t.status == status
          case Unfinished => Live(t.status))
    && (filter.kind.Some? ==> t.kind == filter.kind.value)
  }

  predicate Listed(s: State, filter: Filter, x: nat) {
    x in s.tasks && Fits(filter, s.tasks[x]) && (filter.unreviewed ==> NeedsReview(s, x))
  }

  /** Tasks a listing starting after number `after` shows. */
  ghost predicate Lists(s: State, filter: Filter, after: nat, order: seq<nat>) {
    Increasing(order) && forall x: nat :: x in order <==> Listed(s, filter, x) && x > after
  }

  /** Refused for a limit out of range or a cursor of other filters or another authority state. */
  predicate Admitted(s: State, filter: Filter, limit: nat, cursor: Option<Token>) {
    && 1 <= limit <= MAX_INVENTORY_PAGE
    && (cursor.Some? ==> cursor.value.seqno > 0 && cursor.value.filter == filter && cursor.value.snapshot == s.log)
  }

  function StartOf(cursor: Option<Token>): nat { if cursor.Some? then cursor.value.seqno else 0 }

  /** A page is the next `limit` listed tasks, and continues exactly when tasks remain. */
  ghost predicate PageOf(s: State, filter: Filter, limit: nat, after: nat, all: seq<nat>, page: Listing) {
    Lists(s, filter, after, all) &&
    var n := if |all| < limit then |all| else limit;
    && page.tasks == all[..n]
    && page.remaining == |all| - n
    && page.next == if n > 0 && page.remaining > 0 then Some(Token(all[n - 1], filter, s.log)) else None
  }

  /** Select by the stored fields, then keep the tasks that still need review. */
  method Select(s: State, filter: Filter) returns (selected: seq<nat>)
    ensures Increasing(selected) && forall x :: x in selected <==> Listed(s, filter, x)
  {
    selected := InOrder(set x | x in s.tasks && Fits(filter, s.tasks[x]));
    if filter.unreviewed {
      var kept: seq<nat> := [];
      for i := 0 to |selected|
        invariant Increasing(kept)
        invariant forall x :: x in kept <==> x in selected[..i] && Listed(s, filter, x)
        invariant forall x :: x in kept ==> forall k :: i <= k < |selected| ==> x < selected[k]
      {
        assert selected[i] in selected;
        if NeedsReview(s, selected[i]) {
          IncreasingNext(kept, selected[i]);
          kept := kept + [selected[i]];
        }
      }
      TakeAll(selected);
      selected := kept;
    }
  }

  /** The part of an increasing sequence above a bound. */
  method Above(order: seq<nat>, after: nat) returns (following: seq<nat>)
    requires Increasing(order)
    ensures Increasing(following) && forall x :: x in following <==> x in order && x > after
  {
    var i := 0;
    while i < |order| && order[i] <= after
      invariant 0 <= i <= |order|
      invariant forall k :: 0 <= k < i ==> order[k] <= after
    {
      i := i + 1;
    }
    following := order[i..];
    forall x ensures x in following <==> x in order && x > after {
      if x in order && x > after {
        var k :| 0 <= k < |order| && order[k] == x;
        assert following[k - i] == x;
      }
    }
  }

  method TaskInventory(s: State, filter: Filter, limit: nat, cursor: Option<Token>)
    returns (page: Option<Listing>, ghost listed: seq<nat>, ghost all: seq<nat>)
    ensures page.Some? <==> Admitted(s, filter, limit, cursor)
    ensures page.Some? ==> PageOf(s, filter, limit, StartOf(cursor), all, page.value)
    ensures page.Some? ==>
              page.value.total == |listed| && Increasing(listed) && forall x :: x in listed <==> Listed(s, filter, x)
  {
    listed, all := [], [];
    if !(1 <= limit <= MAX_INVENTORY_PAGE) { return None, listed, all; }
    if cursor.Some? && !(cursor.value.seqno > 0 && cursor.value.filter == filter && cursor.value.snapshot == s.log) {
      return None, listed, all;
    }
    var selected := Select(s, filter);
    var following := Above(selected, StartOf(cursor));
    var n := if |following| < limit then |following| else limit;
    var tasks := following[..n];
    var remaining := |following| - n;
    var next := if n > 0 && remaining > 0 then Some(Token(tasks[n - 1], filter, s.log)) else None;
    return Some(Listing(tasks, |selected|, remaining, next)), selected, following;
  }

  // ---- following the cursors ----

  function Shown(pages: seq<Listing>): seq<nat> {
    if pages == [] then [] else pages[0].tasks + Shown(pages[1..])
  }

  /** Page after page of one authority state, each at the cursor of the one before, until none continues. */
  ghost predicate Followed(s: State, filter: Filter, limit: nat, after: nat, pages: seq<Listing>)
    decreases |pages|
  {
    pages != [] && (exists all :: PageOf(s, filter, limit, after, all, pages[0])) &&
    match pages[0].next
    case None => |pages| == 1
    case Some(token) => Followed(s, filter, limit, token.seqno, pages[1..])
  }

  /** Following the cursors shows every listed task exactly once, in order. */
  lemma {:induction false} PagesShowAll(s: State, filter: Filter, limit: nat, after: nat, pages: seq<Listing>)
    requires limit > 0 && Followed(s, filter, limit, after, pages)
    ensures Lists(s, filter, after, Shown(pages))
    decreases |pages|
  {
    var all :| PageOf(s, filter, limit, after, all, pages[0]);
    if pages[0].next.None? {
      assert Shown(pages[1..]) == [];
      assert Shown(pages) == all;
    } else {
      var n := limit;
      PagesShowAll(s, filter, limit, all[n - 1], pages[1..]);
      RestAbove(s, filter, after, all, n);
      SameOrder(Shown(pages[1..]), all[n..]);
      assert Shown(pages) == all;
    }
  }

  lemma RestAbove(s: State, filter: Filter, after: nat, all: seq<nat>, n: nat)
    requires Lists(s, filter, after, all) && 0 < n <= |all|
    ensures Lists(s, filter, all[n - 1], all[n..])
  {
    assert all[n - 1] in all;
    forall x ensures x in all[n..] <==> Listed(s, filter, x) && x > all[n - 1] {
      if Listed(s, filter, x) && x > all[n - 1] {
        assert x in all;
        var k :| 0 <= k < |all| && all[k] == x;
        assert all[n..][k - n] == x;
      }
    }
  }
}
