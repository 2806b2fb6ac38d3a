/** Event cursors and log pages: every matching event appears exactly once however the log grows meanwhile. */
module EventPages {
  import opened Basics
  import opened Records

  /** A stored event and its identity; identities grow with the log and are never reused. */
  datatype Row = Row(id: nat, event: Event)

  type Log = seq<Row>

  ghost predicate ValidLog(log: Log) {
    && (forall i :: 0 <= i < |log| ==> log[i].id > 0)
    && (forall i, j :: 0 <= i < j < |log| ==> log[i].id < log[j].id)
  }

  /** Appends are the only change a log ever sees. */
  ghost predicate Extends(log: Log, longer: Log) { ValidLog(log) && ValidLog(longer) && log <= longer }

  // ---- cursors ----

  /** A position and the digest of the history up to it. The digest stands for that history: it is taken as injective. */
  datatype Cursor = Cursor(id: nat, prefix: Log)

  function UpTo(log: Log, id: nat): Log {
    if log == [] || log[0].id > id then [] else [log[0]] + UpTo(log[1..], id)
  }

  ghost function CursorAt(log: Log, id: nat): Option<Cursor> {
    if exists i :: 0 <= i < |log| && log[i].id == id then Some(Cursor(id, UpTo(log, id))) else None
  }

  /** Hash the rows up to a position, in order; the position itself must be a row. */
  method EventCursor(log: Log, id: nat) returns (cursor: Option<Cursor>)
    requires ValidLog(log)
    ensures cursor == CursorAt(log, id)
  {
    if id == 0 { return None; }
    var hashed: Log := [];
    var last: Option<nat> := None;
    var i := 0;
    while i < |log| && log[i].id <= id
      invariant 0 <= i <= |log| && hashed == log[..i]
      invariant last == if i == 0 then None else Some(log[i - 1].id)
      invariant forall k :: 0 <= k < i ==> log[k].id <= id
    {
      last := Some(log[i].id);
      hashed := hashed + [log[i]];
      i := i + 1;
    }
    UpToIsPrefix(log, id, i);
    if last != Some(id) { return None; }
    return Some(Cursor(id, hashed));
  }

  lemma {:induction false} UpToIsPrefix(log: Log, id: nat, i: nat)
    requires i <= |log| && forall k :: 0 <= k < i ==> log[k].id <= id
    requires i == |log| || log[i].id > id
    ensures UpTo(log, id) == log[..i]
    decreases i
  {
    if i > 0 {
      UpToIsPrefix(log[1..], id, i - 1);
      assert log[..i] == [log[0]] + log[1..][..i - 1];
    }
  }

  /** A token is accepted when the history it was made from is the history here. */
  ghost predicate Accepted(log: Log, cursor: Cursor) { CursorAt(log, cursor.id) == Some(cursor) }

  lemma Position(log: Log, id: nat) returns (i: nat)
    requires ValidLog(log) && CursorAt(log, id).Some?
    ensures i < |log| && log[i].id == id && UpTo(log, id) == log[..i + 1]
  {
    i :| 0 <= i < |log| && log[i].id == id;
    UpToIsPrefix(log, id, i + 1);
  }

  /** A cursor belongs to a log exactly when the log starts with the history the cursor was made from. */
  lemma AcceptedExactly(log: Log, here: Log, id: nat)
    requires ValidLog(log) && ValidLog(here) && CursorAt(log, id).Some?
    ensures Accepted(here, CursorAt(log, id).value) <==> UpTo(log, id) <= here
  {
    var i := Position(log, id);
    var cursor := CursorAt(log, id).value;
    if Accepted(here, cursor) {
      var j := Position(here, id);
    }
    if log[..i + 1] <= here {
      assert here[i] == log[..i + 1][i];
      UpToIsPrefix(here, id, i + 1);
      assert here[..i + 1] == log[..i + 1];
    }
  }

  /** Appends never invalidate a cursor. */
  lemma CursorSurvivesAppends(log: Log, longer: Log, cursor: Cursor)
    requires Extends(log, longer) && Accepted(log, cursor)
    ensures Accepted(longer, cursor)
  {
    AcceptedExactly(log, longer, cursor.id);
    var i := Position(log, cursor.id);
  }

  // ---- pages ----

  const MAX_EVENT_PAGE := 500

  predicate Matches(row: Row, task: Option<nat>) {
    task.Some? ==> row.event.task == task && !row.event.entity.PlanEntity?
  }

  /** Matching rows before a position, newest first. */
  function Older(log: Log, task: Option<nat>, before: Option<nat>): seq<Row>
    decreases |log|
  {
    if log == [] then []
    else
      var row, rest := log[|log| - 1], Older(log[..|log| - 1], task, before);
      if Matches(row, task) && (before.Some? ==> row.id < before.value) then [row] + rest else rest
  }

  /** Matching rows after a position, oldest first. */
  function Newer(log: Log, task: Option<nat>, after: nat): seq<Row> {
    if log == [] then []
    else
      var rest := Newer(log[1..], task, after);
      if Matches(log[0], task) && log[0].id > after then [log[0]] + rest else rest
  }

  datatype Bound = Latest | Before(cursor: Cursor) | After(cursor: Cursor)

  datatype Page = Page(events: seq<Row>, truncated: bool, continuation: Option<Cursor>)

  ghost function Rows(log: Log, task: Option<nat>, bound: Bound): seq<Row> {
    match bound
    case Latest => Older(log, task, None)
    case Before(cursor) => Older(log, task, Some(cursor.id))
    case After(cursor) => Newer(log, task, cursor.id)
  }

  /** One page, or none for a limit out of range or a cursor of another history. */
  ghost function EventLog(log: Log, task: Option<nat>, limit: nat, bound: Bound): Option<Page> {
    if !(1 <= limit <= MAX_EVENT_PAGE) then None
    else if !bound.Latest? && !Accepted(log, bound.cursor) then None
    else
      var rows := Rows(log, task, bound);
      if |rows| > limit then Some(Page(rows[..limit], true, CursorAt(log, rows[limit - 1].id)))
      else
        var at := if rows == [] then None else CursorAt(log, rows[|rows| - 1].id);
        Some(Page(rows, false, if bound.After? then (if at.Some? then at else Some(bound.cursor)) else None))
  }

  // ---- what lies past a page ----

  lemma ShorterLog(log: Log)
    requires ValidLog(log) && log != []
    ensures ValidLog(log[1..]) && ValidLog(log[..|log| - 1])
  {
  }

  /** A listing holds exactly the matching rows, each once, newest first. */
  lemma {:induction false} OlderIds(log: Log, task: Option<nat>, before: Option<nat>)
    requires ValidLog(log)
    ensures var rows := Older(log, task, before);
            && (forall row :: row in rows <==>
                  row in log && Matches(row, task) && (before.Some? ==> row.id < before.value))
            && (forall i, j :: 0 <= i < j < |rows| ==> rows[i].id > rows[j].id)
    decreases |log|
  {
    if log != [] {
      ShorterLog(log);
      var row, rest := log[|log| - 1], log[..|log| - 1];
      OlderIds(rest, task, before);
      assert forall r :: r in log <==> r in rest || r == row;
      forall j | 0 <= j < |Older(rest, task, before)| ensures Older(rest, task, before)[j].id < row.id {
        assert Older(rest, task, before)[j] in rest;
      }
    }
  }

  /** Bounds above the whole log do not bind. */
  lemma {:induction false} FreeBound(log: Log, task: Option<nat>, before: nat)
    requires forall i :: 0 <= i < |log| ==> log[i].id < before
    ensures Older(log, task, Some(before)) == Older(log, task, None)
    decreases |log|
  {
    if log != [] { FreeBound(log[..|log| - 1], task, before); }
  }

  /** Restarting before the k-th row of a listing continues it there. */
  lemma {:induction false} ContinueOlder(log: Log, task: Option<nat>, before: Option<nat>, k: nat)
    requires ValidLog(log) && 0 < k <= |Older(log, task, before)|
    ensures Older(log, task, Some(Older(log, task, before)[k - 1].id)) == Older(log, task, before)[k..]
    decreases |log|
  {
    if log != [] {
      var n := |log| - 1;
      var last, rest := log[n], log[..n];
      ShorterLog(log);
      var row := OlderRow(log, task, before, k - 1);
      if !(Matches(last, task) && (before.Some? ==> last.id < before.value)) {
        ContinueOlder(rest, task, before, k);
        var same := OlderRow(rest, task, before, k - 1);
      } else if k == 1 {
        FreeBound(rest, task, last.id);
        if before.Some? { FreeBound(rest, task, before.value); }
      } else {
        ContinueOlder(rest, task, before, k - 1);
        var same := OlderRow(rest, task, before, k - 2);
        DropFirst(last, Older(rest, task, before), k);
      }
    }
  }

  lemma OlderRow(log: Log, task: Option<nat>, before: Option<nat>, k: nat) returns (row: Row)
    requires ValidLog(log) && k < |Older(log, task, before)|
    ensures row == Older(log, task, before)[k] && row in log && (before.Some? ==> row.id < before.value)
  {
    OlderIds(log, task, before);
    row := Older(log, task, before)[k];
    assert row in Older(log, task, before);
  }

  /** Rows appended later lie after every earlier position. */
  lemma {:induction false} AppendsAreNotOlder(log: Log, longer: Log, task: Option<nat>, before: nat)
    requires Extends(log, longer) && exists i :: 0 <= i < |log| && log[i].id >= before
    ensures Older(longer, task, Some(before)) == Older(log, task, Some(before))
    decreases |longer|
  {
    if |longer| > |log| {
      var i :| 0 <= i < |log| && log[i].id >= before;
      assert longer[i] == log[i];
      ShorterLog(longer);
      AppendsAreNotOlder(log, longer[..|longer| - 1], task, before);
    } else {
      assert longer == log;
    }
  }

  /** A forward listing holds exactly the matching rows, each once, oldest first. */
  lemma {:induction false} NewerIds(log: Log, task: Option<nat>, after: nat)
    requires ValidLog(log)
    ensures var rows := Newer(log, task, after);
            && (forall row :: row in rows <==> row in log && Matches(row, task) && row.id > after)
            && (forall i, j :: 0 <= i < j < |rows| ==> rows[i].id < rows[j].id)
    decreases |log|
  {
    if log != [] {
      ShorterLog(log);
      var row, rest := log[0], log[1..];
      NewerIds(rest, task, after);
      assert forall r :: r in log <==> r in rest || r == row;
      forall j | 0 <= j < |Newer(rest, task, after)| ensures Newer(rest, task, after)[j].id > row.id {
        assert Newer(rest, task, after)[j] in rest;
      }
    }
  }

  lemma {:induction false} NoneBelow(log: Log, task: Option<nat>, low: nat, high: nat)
    requires low <= high && forall i :: 0 <= i < |log| ==> log[i].id > high
    ensures Newer(log, task, low) == Newer(log, task, high)
    decreases |log|
  {
    if log != [] { NoneBelow(log[1..], task, low, high); }
  }

  lemma NewerRow(log: Log, task: Option<nat>, after: nat, k: nat) returns (row: Row)
    requires ValidLog(log) && k < |Newer(log, task, after)|
    ensures row == Newer(log, task, after)[k] && row in log && row.id > after
  {
    NewerIds(log, task, after);
    row := Newer(log, task, after)[k];
    assert row in Newer(log, task, after);
  }

  lemma {:induction false} ContinueNewer(log: Log, task: Option<nat>, after: nat, k: nat)
    requires ValidLog(log) && 0 < k <= |Newer(log, task, after)|
    ensures Newer(log, task, Newer(log, task, after)[k - 1].id) == Newer(log, task, after)[k..]
    decreases |log|
  {
    if log != [] {
      var first, rest := log[0], log[1..];
      ShorterLog(log);
      var row := NewerRow(log, task, after, k - 1);
      if !(Matches(first, task) && first.id > after) {
        ContinueNewer(rest, task, after, k);
        var same := NewerRow(rest, task, after, k - 1);
      } else if k == 1 {
        NoneBelow(rest, task, after, first.id);
      } else {
        ContinueNewer(rest, task, after, k - 1);
        var same := NewerRow(rest, task, after, k - 2);
        DropFirst(first, Newer(rest, task, after), k);
      }
    }
  }

  // ---- one page ----

  /** The cursor was made at one of these rows, from exactly the rows up to it. */
  predicate MadeHere(log: Log, cursor: Cursor) {
    exists i :: 0 <= i < |log| && log[i].id == cursor.id && cursor.prefix == log[..i + 1]
  }

  lemma AcceptedIsMadeHere(log: Log, cursor: Cursor)
    requires ValidLog(log)
    ensures Accepted(log, cursor) <==> MadeHere(log, cursor)
  {
    if CursorAt(log, cursor.id).Some? { var i := Position(log, cursor.id); }
    if i :| 0 <= i < |log| && log[i].id == cursor.id && cursor.prefix == log[..i + 1] { var j := Position(log, cursor.id); }
  }

  /** The rows a fetch is about, all of them, in its order: newest first, or oldest first after a cursor. */
  ghost predicate RowsInOrder(log: Log, task: Option<nat>, bound: Bound, rows: seq<Row>) {
    && (forall row :: row in rows <==>
          && row in log && (task.Some? ==> row.event.task == task && row.event.entity != PlanEntity)
          && (bound.Before? ==> row.id < bound.cursor.id) && (bound.After? ==> row.id > bound.cursor.id))
    && (forall i, j :: 0 <= i < j < |rows| ==> if bound.After? then rows[i].id < rows[j].id else rows[i].id > rows[j].id)
  }

  lemma RowsAreInOrder(log: Log, task: Option<nat>, bound: Bound)
    requires ValidLog(log)
    ensures RowsInOrder(log, task, bound, Rows(log, task, bound))
  {
    match bound
    case Latest => OlderIds(log, task, None);
    case Before(cursor) => OlderIds(log, task, Some(cursor.id));
    case After(cursor) => NewerIds(log, task, cursor.id);
  }

  /** A page is refused exactly for a limit out of range or a cursor made from another history. Otherwise it holds the
      first `limit` of the rows asked for, says whether any are left, and continues at its last row: when some are left,
      or always after a cursor, then from that cursor itself if nothing has followed it. */
  lemma EventLogExactly(log: Log, task: Option<nat>, limit: nat, bound: Bound) returns (rows: seq<Row>)
    requires ValidLog(log)
    ensures RowsInOrder(log, task, bound, rows)
    ensures EventLog(log, task, limit, bound).Some? <==>
            1 <= limit <= 500 && (bound.Latest? || MadeHere(log, bound.cursor))
    ensures EventLog(log, task, limit, bound).Some? ==>
              PageShows(log, bound, limit, rows, EventLog(log, task, limit, bound).value)
  {
    rows := Rows(log, task, bound);
    RowsAreInOrder(log, task, bound);
    if !bound.Latest? { AcceptedIsMadeHere(log, bound.cursor); }
    if EventLog(log, task, limit, bound).Some? { PageIs(log, task, limit, bound, rows); }
  }

  ghost predicate PageShows(log: Log, bound: Bound, limit: nat, rows: seq<Row>, page: Page) {
    && page.events <= rows && |page.events| == (if |rows| < limit then |rows| else limit)
    && (page.truncated <==> |rows| > limit)
    && (page.continuation.Some? <==> page.truncated || bound.After?)
    && (page.continuation.Some? ==>
          if page.events == [] then bound.After? && page.continuation.value == bound.cursor
          else page.continuation.value.id == page.events[|page.events| - 1].id && MadeHere(log, page.continuation.value))
  }

  lemma CursorMade(log: Log, row: Row)
    requires ValidLog(log) && row in log
    ensures CursorAt(log, row.id).Some? && CursorAt(log, row.id).value.id == row.id && MadeHere(log, CursorAt(log, row.id).value)
  {
    AcceptedIsMadeHere(log, CursorAt(log, row.id).value);
  }

  lemma PageIs(log: Log, task: Option<nat>, limit: nat, bound: Bound, rows: seq<Row>)
    requires ValidLog(log) && EventLog(log, task, limit, bound).Some? && rows == Rows(log, task, bound)
    requires RowsInOrder(log, task, bound, rows)
    ensures PageShows(log, bound, limit, rows, EventLog(log, task, limit, bound).value)
  {
    if |rows| > limit {
      assert rows[limit - 1] in rows;
      CursorMade(log, rows[limit - 1]);
    } else if rows != [] {
      assert rows[|rows| - 1] in rows;
      CursorMade(log, rows[|rows| - 1]);
    }
  }

  // ---- following the cursors back through history ----

  function Joined(pages: seq<Page>): seq<Row> {
    if pages == [] then [] else pages[0].events + Joined(pages[1..])
  }

  /** Each page starts where the one before it ended; the log may grow between any two fetches. */
  ghost predicate FollowedBack(logs: seq<Log>, task: Option<nat>, limit: nat, pages: seq<Page>, bound: Bound) {
    && |logs| == |pages| > 0
    && (forall i :: 0 <= i < |logs| - 1 ==> Extends(logs[i], logs[i + 1]))
    && EventLog(logs[0], task, limit, bound) == Some(pages[0])
    && (forall i :: 0 < i < |pages| ==> FetchedAfter(logs[i], task, limit, pages[i - 1], pages[i]))
    && !pages[|pages| - 1].truncated
  }

  ghost predicate FetchedAfter(log: Log, task: Option<nat>, limit: nat, previous: Page, page: Page) {
    && previous.truncated && previous.continuation.Some?
    && EventLog(log, task, limit, Before(previous.continuation.value)) == Some(page)
  }

  /** A truncated page continues: its cursor is accepted by every later log and lists exactly the rest,
      which is shorter, so following cursors ends. */
  lemma PageContinues(log: Log, longer: Log, task: Option<nat>, limit: nat, bound: Bound)
    requires ValidLog(log) && Extends(log, longer) && !bound.After?
    requires EventLog(log, task, limit, bound).Some? && EventLog(log, task, limit, bound).value.truncated
    ensures var page := EventLog(log, task, limit, bound).value;
            && page.continuation.Some?
            && EventLog(longer, task, limit, Before(page.continuation.value)).Some?
            && Rows(longer, task, Before(page.continuation.value)) == Rows(log, task, bound)[limit..]
            && 0 < limit < |Rows(log, task, bound)|
  {
    var page, rows := EventLog(log, task, limit, bound).value, Rows(log, task, bound);
    var before := if bound.Latest? then None else Some(bound.cursor.id);
    OlderIds(log, task, before);
    ContinueOlder(log, task, before, limit);
    assert rows[limit - 1] in log;
    CursorSurvivesAppends(log, longer, page.continuation.value);
    AppendsAreNotOlder(log, longer, task, rows[limit - 1].id);
  }

  /** Following the cursors yields every matching event of the first fetch's log exactly once, newest first,
      whatever is appended between the fetches. */
  lemma {:induction false} PagesCoverTheLog(logs: seq<Log>, task: Option<nat>, limit: nat, pages: seq<Page>, bound: Bound)
    requires FollowedBack(logs, task, limit, pages, bound) && ValidLog(logs[0]) && !bound.After?
    ensures Joined(pages) == Rows(logs[0], task, bound)
    decreases |pages|
  {
    var rows := Rows(logs[0], task, bound);
    if |pages| == 1 {
      assert Joined(pages[1..]) == [];
    } else {
      assert Extends(logs[0], logs[0 + 1]);
      assert FetchedAfter(logs[1], task, limit, pages[0], pages[1]);
      PageContinues(logs[0], logs[1], task, limit, bound);
      var next := Before(pages[0].continuation.value);
      assert EventLog(logs[1..][0], task, limit, next) == Some(pages[1..][0]);
      TailFollowed(logs, task, limit, pages);
      PagesCoverTheLog(logs[1..], task, limit, pages[1..], next);
      assert rows == rows[..limit] + rows[limit..];
    }
  }

  lemma TailFollowed(logs: seq<Log>, task: Option<nat>, limit: nat, pages: seq<Page>)
    requires |logs| == |pages| > 1
    requires forall i :: 0 <= i < |logs| - 1 ==> Extends(logs[i], logs[i + 1])
    requires forall i :: 0 < i < |pages| ==> FetchedAfter(logs[i], task, limit, pages[i - 1], pages[i])
    ensures forall i :: 0 <= i < |logs[1..]| - 1 ==> Extends(logs[1..][i], logs[1..][i + 1])
    ensures forall i :: 0 < i < |pages[1..]| ==>
              FetchedAfter(logs[1..][i], task, limit, pages[1..][i - 1], pages[1..][i])
  {
    forall i | 0 <= i < |logs[1..]| - 1 ensures Extends(logs[1..][i], logs[1..][i + 1]) {
      assert Extends(logs[i + 1], logs[i + 1 + 1]);
    }
    forall i | 0 < i < |pages[1..]| ensures FetchedAfter(logs[1..][i], task, limit, pages[1..][i - 1], pages[1..][i]) {
      assert FetchedAfter(logs[i + 1], task, limit, pages[i + 1 - 1], pages[i + 1]);
    }
  }

  // ---- following new events ----

  /** The first k rows of a forward listing end at a cursor from which a longer log lists exactly what followed. */
  lemma ForwardCursor(log: Log, longer: Log, task: Option<nat>, after: nat, k: nat)
    requires Extends(log, longer) && 0 < k <= |Newer(log, task, after)|
    ensures var rows := Newer(log, task, after);
            var at := CursorAt(log, rows[k - 1].id);
            at.Some? && Accepted(longer, at.value) && Newer(longer, task, after) == rows[..k] + Newer(longer, task, at.value.id)
  {
    var rows, all := Newer(log, task, after), Newer(longer, task, after);
    NewerIds(log, task, after);
    NewerPrefix(log, longer, task, after);
    assert rows[k - 1] in log;
    CursorSurvivesAppends(log, longer, CursorAt(log, rows[k - 1].id).value);
    ContinueNewer(longer, task, after, k);
    assert all[k - 1] == rows[k - 1] && all == all[..k] + all[k..];
  }

  /** A page after a cursor always continues, even when nothing followed yet: the next fetch, from a log
      that may have grown, lists exactly what this page left out. */
  lemma TailContinues(log: Log, longer: Log, task: Option<nat>, limit: nat, cursor: Cursor)
    requires Extends(log, longer) && 1 <= limit <= MAX_EVENT_PAGE && Accepted(log, cursor)
    ensures var page := EventLog(log, task, limit, After(cursor)).value;
            && page.continuation.Some? && Accepted(longer, page.continuation.value)
            && Newer(longer, task, cursor.id) == page.events + Newer(longer, task, page.continuation.value.id)
  {
    var rows := Newer(log, task, cursor.id);
    CursorSurvivesAppends(log, longer, cursor);
    if |rows| > limit {
      ForwardCursor(log, longer, task, cursor.id, limit);
    } else if rows != [] {
      ForwardCursor(log, longer, task, cursor.id, |rows|);
      TakeAll(rows);
    }
  }

  /** Appends extend a forward listing at its end. */
  lemma {:induction false} NewerPrefix(log: Log, longer: Log, task: Option<nat>, after: nat)
    requires log <= longer
    ensures Newer(log, task, after) <= Newer(longer, task, after)
    decreases |log|
  {
    if log != [] {
      assert log[1..] <= longer[1..];
      NewerPrefix(log[1..], longer[1..], task, after);
    }
  }
}
