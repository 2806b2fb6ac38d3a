/** One-call decomposition: an outline validated against one snapshot, then applied step by step. */
module Outlines {
  import opened Basics
  import opened Graphs
  import opened Records
  import opened Review
  import opened Waiting
  import opened Lifecycle
  import opened Definition

  /** A dependency as written: a sibling key, an existing task number, or some other JSON value. */
  datatype DepRef = Key(key: string) | TaskNumber(number: int) | OtherValue

  datatype Entry = Entry(key: string, title: string, intent: string, why: Option<string>, kind: Kind,
                         priority: Priority, deps: seq<DepRef>)

  datatype Outline = Outline(why: Option<string>, children: seq<Entry>)

  const MAX_KEY := 64
  const MAX_CHILDREN := 256

  predicate Letter(c: char) { 'a' <= c <= 'z' || 'A' <= c <= 'Z' }

  predicate ValidKey(key: string) {
    && 1 <= |key| <= MAX_KEY && Letter(key[0])
    && forall c :: c in key ==> Alphanumeric(c) || c == '-' || c == '_'
  }

  predicate KindLetter(c: char) {
    Lower(c) in {'g', 'f', 'c', 'b', 'p', 'd', 'r', 'w'}
  }

  function Decimal(digits: string): nat {
    if digits == "" then 0
    else 10 * Decimal(digits[..|digits| - 1]) +
         if Digit(digits[|digits| - 1]) then digits[|digits| - 1] as int - '0' as int else 0
  }

  /** A key that starts with a letter reads as a handle such as `F-12` when a task could have that handle. */
  predicate ReadsAsHandle(key: string) {
    && |key| >= 3 && KindLetter(key[0]) && key[1] == '-' && key[2] != '0'
    && (forall c :: c in key[2..] ==> Digit(c))
    && Decimal(key[2..]) < 0x8000_0000_0000_0000
  }

  function Lowered(s: string): string {
    seq(|s|, i requires 0 <= i < |s| => Lower(s[i]))
  }

  /** Titles compare trimmed and case-insensitively. */
  function TitleIdentity(title: string): string { Lowered(Trim(title)) }

  // ---- validation ----

  ghost predicate KeysValid(o: Outline) {
    && (forall i :: 0 <= i < |o.children| ==> ValidKey(o.children[i].key) && !ReadsAsHandle(o.children[i].key))
    && (forall i, j :: 0 <= i < j < |o.children| ==> o.children[i].key != o.children[j].key)
  }

  ghost predicate TitleFree(s: State, parent: nat, title: string) {
    forall x :: x in s.tasks && LiveChild(s, parent, x) ==> TitleIdentity(s.tasks[x].title) != TitleIdentity(title)
  }

  ghost predicate EntriesValid(s: State, parent: nat, o: Outline) {
    && (o.why.Some? ==> !Blank(o.why.value))
    && (forall i :: 0 <= i < |o.children| ==>
          var entry := o.children[i];
          && ValidTitle(entry.title) && TitleFree(s, parent, entry.title) && Assignable(entry.kind)
          && (entry.why.Some? ==> !Blank(entry.why.value)))
    && (forall i, j :: 0 <= i < j < |o.children| ==>
          TitleIdentity(o.children[i].title) != TitleIdentity(o.children[j].title))
  }

  ghost predicate HasKey(o: Outline, key: string, j: nat) {
    j < |o.children| && o.children[j].key == key
  }

  /** A sibling by key, or an existing task that is viable and does not wait for the parent. */
  ghost predicate RefValid(s: State, parent: nat, o: Outline, i: nat, d: DepRef) {
    match d
    case Key(key) => exists j :: HasKey(o, key, j) && j != i
    case TaskNumber(n) =>
      && n > 0 && n in s.tasks
      && !s.tasks[n].status.Retired? && !s.tasks[n].status.Rejected?
      && !Reach(Waits(s), n, parent)
    case OtherValue => false
  }

  ghost predicate DepsValid(s: State, parent: nat, o: Outline) {
    forall i :: 0 <= i < |o.children| ==>
      && Distinct(o.children[i].deps)
      && forall k :: 0 <= k < |o.children[i].deps| ==> RefValid(s, parent, o, i, o.children[i].deps[k])
  }

  ghost predicate SiblingDep(o: Outline, i: nat, j: nat) {
    i < |o.children| && j < |o.children| && Key(o.children[j].key) in o.children[i].deps
  }

  ghost function SiblingGraph(o: Outline): Graph {
    set i, j | 0 <= i < |o.children| && 0 <= j < |o.children| && SiblingDep(o, i, j) :: (i, j)
  }

  /** Everything the validation phase checks, against the state before anything is created. */
  ghost predicate OutlineValid(s: State, parent: nat, o: Outline, startReady: bool)
    requires parent in s.tasks
  {
    && KeysValid(o) && EntriesValid(s, parent, o) && DepsValid(s, parent, o)
    && Acyclic(SiblingGraph(o))
    && (startReady ==> PlanStatusOf(s, parent).PlanActive?)
  }

  // ---- application ----

  function WhyFor(o: Outline, i: nat): Option<string>
    requires i < |o.children|
  {
    if o.children[i].why.Some? then o.children[i].why else o.why
  }

  function ChildOf(o: Outline, i: nat, parent: nat): Creation
    requires i < |o.children|
  {
    var entry := o.children[i];
    Creation(entry.title, entry.intent, entry.kind, Some(parent), [], entry.priority, WhyFor(o, i))
  }

  /** Run a step for each index in turn, stopping at the first refusal. */
  ghost function Steps(step: (State, nat) -> Outcome, s: State, i: nat, n: nat): Outcome
    decreases n - i
  {
    if i >= n then Committed(s)
    else
      var next := step(s, i);
      if next.Refused? then next else Steps(step, next.state, i + 1, n)
  }

  ghost function MakeChild(s: State, c: Caller, plan: nat, parent: nat, o: Outline, i: nat): Outcome {
    if i < |o.children| then CreateRow(s, c, plan, ChildOf(o, i, parent)) else Committed(s)
  }

  ghost function MakeChildren(s: State, c: Caller, plan: nat, parent: nat, o: Outline): Outcome {
    Steps((u: State, i: nat) => MakeChild(u, c, plan, parent, o, i), s, 0, |o.children|)
  }

  ghost function KeyIndex(o: Outline, key: string): nat {
    if j: nat :| HasKey(o, key, j) then j else 0
  }

  /** The task a dependency names once children are numbered from `base`. */
  ghost function Target(o: Outline, base: nat, d: DepRef): nat {
    match d
    case Key(key) => base + KeyIndex(o, key)
    case TaskNumber(n) => if n >= 0 then n else 0
    case OtherValue => 0
  }

  ghost function Targets(o: Outline, base: nat, deps: seq<DepRef>): (r: seq<nat>)
    ensures |r| == |deps|
    ensures forall k :: 0 <= k < |deps| ==> r[k] == Target(o, base, deps[k])
  {
    seq(|deps|, k requires 0 <= k < |deps| => Target(o, base, deps[k]))
  }

  ghost function LinkChild(s: State, c: Caller, base: nat, o: Outline, i: nat): Outcome {
    if i < |o.children| then AddDeps(s, c, base + i, Targets(o, base, o.children[i].deps), WhyFor(o, i))
    else Committed(s)
  }

  ghost function LinkChildren(s: State, c: Caller, base: nat, o: Outline): Outcome {
    Steps((u: State, i: nat) => LinkChild(u, c, base, o, i), s, 0, |o.children|)
  }

  /** Ready: every dependency is an existing done task. */
  ghost predicate Ready(s: State, o: Outline, i: nat)
    requires i < |o.children|
  {
    forall d :: d in o.children[i].deps ==>
      d.TaskNumber? && d.number >= 0 && d.number in s.tasks && s.tasks[d.number].status.Done?
  }

  /** Start child i when it was ready before anything was created; otherwise leave it proposed. */
  ghost function StartChild(before: State, s: State, c: Caller, base: nat, o: Outline, session: Option<string>,
                            i: nat): Outcome {
    if i < |o.children| && Ready(before, o, i) then Start(s, c, base + i, WhyFor(o, i), session) else Committed(s)
  }

  ghost function StartChildren(before: State, s: State, c: Caller, base: nat, o: Outline, session: Option<string>): Outcome {
    Steps((u: State, i: nat) => StartChild(before, u, c, base, o, session, i), s, 0, |o.children|)
  }

  /** Create the children, add their edges, start the ready ones; any refusal undoes all of it. */
  ghost function Apply(s: State, c: Caller, parent: nat, o: Outline, startReady: bool, session: Option<string>): Outcome
    requires parent in s.tasks
  {
    var made := MakeChildren(s, c, s.tasks[parent].plan, parent, o);
    if made.Refused? then made
    else
      var linked := LinkChildren(made.state, c, NextTask(s), o);
      if linked.Refused? || !startReady then linked
      else StartChildren(s, linked.state, c, NextTask(s), o, session)
  }

  ghost function Decompose(s: State, c: Caller, parent: nat, o: Outline, startReady: bool, session: Option<string>): Outcome {
    if parent !in s.tasks then Refused(NoTask(parent))
    else if Over(PlanStatusOf(s, parent)) then Refused(PlanIsOver)
    else if Closed(s.tasks[parent].status) then Refused(ParentIsClosed)
    else if |o.children| == 0 || |o.children| > MAX_CHILDREN then Refused(InvalidOutline)
    else if !OutlineValid(s, parent, o, startReady) then Refused(InvalidOutline)
    else Apply(s, c, parent, o, startReady, session)
  }
}
