/** What a decomposition stores: every child as its entry says, exactly the edges the entries name, nothing else. */
module OutlineEffects {
  import opened Basics
  import opened Graphs
  import opened Records
  import opened Waiting
  import opened Lifecycle
  import opened Definition
  import opened Outlines
  import opened Invariants
  import opened OutlineSoundness
  import opened OutlineStart
  import opened CreationEffects
  import opened Review
  import opened StatusEffects

  // ---- entries ----

  /** The reason a child's events carry: its own, else the outline's. */
  predicate Reason(o: Outline, i: nat, why: Option<string>) {
    i < |o.children| && why == if o.children[i].why.Some? then o.children[i].why else o.why
  }

  /** Entry i names task y: by its number, or as the sibling numbered y. */
  predicate Names(o: Outline, base: nat, i: nat, y: nat) {
    i < |o.children| &&
    (TaskNumber(y) in o.children[i].deps
     || (base <= y < base + |o.children| && Key(o.children[y - base].key) in o.children[i].deps))
  }

  /** Every dependency of entry i is an existing done task. */
  predicate WhollyDone(s: State, o: Outline, i: nat) {
    i < |o.children| &&
    forall d :: d in o.children[i].deps ==>
      d.TaskNumber? && d.number >= 0 && d.number in s.tasks && s.tasks[d.number].status == Done
  }

  // ---- the rows ----

  /** The task numbered base + i is the child of entry i, in progress if started and proposed otherwise. */
  predicate ChildStands(u: State, c: Caller, parent: nat, plan: nat, o: Outline, base: nat, session: Option<string>,
                        i: nat, started: bool)
  {
    && i < |o.children| && base + i in u.tasks
    && var entry, v := o.children[i], u.tasks[base + i];
       && CreatedRow(v, plan, Some(parent), entry.title, entry.intent, entry.kind, entry.priority)
       && Begun(v, started, c, session)
  }

  /** Appended events are about children, for their entry's reason. */
  ghost predicate ToldFor(s: State, u: State, c: Caller, o: Outline, base: nat) {
    s.log <= u.log && forall k :: |s.log| <= k < |u.log| ==> ToldOfChild(u.log[k], c, o, base)
  }

  ghost predicate ToldOfChild(e: Event, c: Caller, o: Outline, base: nat) {
    && e.author == c.author && e.at == c.at
    && exists i :: 0 <= i < |o.children| && e.task == Some(base + i) && Reason(o, i, e.why)
  }

  lemma ToldNext(s: State, u: State, v: State, c: Caller, o: Outline, base: nat, i: nat)
    requires ToldFor(s, u, c, o, base) && u.log <= v.log && i < |o.children|
    requires forall k :: |u.log| <= k < |v.log| ==>
               v.log[k].author == c.author && v.log[k].at == c.at && v.log[k].task == Some(base + i)
                 && Reason(o, i, v.log[k].why)
    ensures ToldFor(s, v, c, o, base)
  {
    forall k | |s.log| <= k < |v.log| ensures ToldOfChild(v.log[k], c, o, base) {
      if k < |u.log| { assert v.log[k] == u.log[k]; }
    }
  }

  /** A property of the state and the index holds after all steps when each accepted one carries it on. */
  lemma {:induction false} StepsCarry(step: (State, nat) -> Outcome, keeps: (State, nat) -> bool, s: State, i: nat,
                                      n: nat)
    requires i <= n && keeps(s, i) && Steps(step, s, i, n).Committed?
    requires forall u, j: nat :: keeps(u, j) && j < n && step(u, j).Committed? ==> keeps(step(u, j).state, j + 1)
    ensures keeps(Steps(step, s, i, n).state, n)
    decreases n - i
  {
    if i < n { StepsCarry(step, keeps, step(s, i).state, i + 1, n); }
  }

  // ---- creating ----

  /** s with the first k children, each as its entry says. */
  ghost predicate MadeAs(s: State, u: State, c: Caller, parent: nat, plan: nat, o: Outline, base: nat, k: nat) {
    && u.plans == s.plans && u.deps == s.deps && k <= |o.children| && plan < |s.plans|
    && NextTask(u) == base + k
    && (forall y :: y in u.tasks <==> y in s.tasks || base <= y < base + k)
    && (forall y :: y in s.tasks ==> y < base && u.tasks[y] == s.tasks[y])
    && (forall i :: 0 <= i < k ==> ChildStands(u, c, parent, plan, o, base, None, i, false))
    && ToldFor(s, u, c, o, base)
  }

  lemma NextBy(u: State, n: nat)
    requires n > 0 && (forall y :: y in u.tasks ==> y < n) && (n > 1 ==> n - 1 in u.tasks)
    ensures NextTask(u) == n
  {
    NextIsFirst(u);
    var m := NextTask(u);
    if m < n { assert n - 1 in u.tasks; }
    if m > n { assert m - 1 in u.tasks; }
  }

  lemma MakeCarries(s: State, u: State, c: Caller, parent: nat, plan: nat, o: Outline, base: nat, j: nat)
    requires MadeAs(s, u, c, parent, plan, o, base, j) && j < |o.children|
    requires MakeChild(u, c, plan, parent, o, j).Committed?
    ensures MadeAs(s, MakeChild(u, c, plan, parent, o, j).state, c, parent, plan, o, base, j + 1)
  {
    var v := RowWrites(u, c, plan, ChildOf(o, j, parent));
    NextBy(v, base + j + 1);
    forall i | 0 <= i < j + 1 ensures ChildStands(v, c, parent, plan, o, base, None, i, false) {
      if i < j { assert ChildStands(u, c, parent, plan, o, base, None, i, false); }
    }
    ToldNext(s, u, v, c, o, base, j);
  }

  lemma MadeChildren(s: State, c: Caller, parent: nat, o: Outline)
    requires parent in s.tasks && s.tasks[parent].plan < |s.plans|
    requires MakeChildren(s, c, s.tasks[parent].plan, parent, o).Committed?
    ensures MadeAs(s, MakeChildren(s, c, s.tasks[parent].plan, parent, o).state, c, parent, s.tasks[parent].plan, o,
                   NextTask(s), |o.children|)
  {
    var plan, base := s.tasks[parent].plan, NextTask(s);
    var step: (State, nat) -> Outcome := (u: State, i: nat) => MakeChild(u, c, plan, parent, o, i);
    var keeps: (State, nat) -> bool := (u: State, i: nat) => MadeAs(s, u, c, parent, plan, o, base, i);
    forall u, j: nat | keeps(u, j) && j < |o.children| && step(u, j).Committed? ensures keeps(step(u, j).state, j + 1) {
      MakeCarries(s, u, c, parent, plan, o, base, j);
    }
    StepsCarry(step, keeps, s, 0, |o.children|);
  }

  // ---- linking ----

  /** An edge of one of the first k children. */
  ghost predicate EarlyEdge(o: Outline, base: nat, k: nat, e: Edge) {
    base <= e.0 < base + k <= base + |o.children| && e.1 in Targets(o, base, o.children[e.0 - base].deps)
  }

  ghost predicate LinkedAs(s: State, made: State, v: State, c: Caller, o: Outline, base: nat, k: nat) {
    && v.plans == made.plans && v.tasks == made.tasks && k <= |o.children|
    && (forall e :: e in v.deps <==> e in made.deps || EarlyEdge(o, base, k, e))
    && ToldFor(s, v, c, o, base)
  }

  lemma LinkCarries(s: State, made: State, u: State, c: Caller, o: Outline, base: nat, j: nat)
    requires LinkedAs(s, made, u, c, o, base, j) && j < |o.children| && LinkChild(u, c, base, o, j).Committed?
    requires base + j in made.tasks && made.tasks[base + j].plan < |made.plans|
    ensures LinkedAs(s, made, LinkChild(u, c, base, o, j).state, c, o, base, j + 1)
  {
    var targets := Targets(o, base, o.children[j].deps);
    var v := DepsWrite(u, c, base + j, targets, WhyFor(o, j));
    var slug := made.plans[made.tasks[base + j].plan].slug;
    forall k | |u.log| <= k < |v.log|
      ensures v.log[k].author == c.author && v.log[k].at == c.at && v.log[k].task == Some(base + j)
              && Reason(o, j, v.log[k].why)
    {
      assert SaidOf(v.log[|u.log| + (k - |u.log|)], c, DepEntity, slug, base + j, WhyFor(o, j),
          DepAdded(targets[k - |u.log|]));
    }
    ToldNext(s, u, v, c, o, base, j);
  }

  lemma LinkedChildren(s: State, made: State, c: Caller, parent: nat, o: Outline, base: nat)
    requires parent in s.tasks && MadeAs(s, made, c, parent, s.tasks[parent].plan, o, base, |o.children|)
    requires LinkChildren(made, c, base, o).Committed?
    ensures LinkedAs(s, made, LinkChildren(made, c, base, o).state, c, o, base, |o.children|)
  {
    var step: (State, nat) -> Outcome := (u: State, i: nat) => LinkChild(u, c, base, o, i);
    var keeps: (State, nat) -> bool := (u: State, i: nat) => LinkedAs(s, made, u, c, o, base, i);
    forall u, j: nat | keeps(u, j) && j < |o.children| && step(u, j).Committed? ensures keeps(step(u, j).state, j + 1) {
      assert ChildStands(made, c, parent, s.tasks[parent].plan, o, base, None, j, false);
      LinkCarries(s, made, u, c, o, base, j);
    }
    StepsCarry(step, keeps, made, 0, |o.children|);
  }

  // ---- starting ----

  predicate ReadyBelow(s: State, o: Outline, k: nat, i: nat) { i < k && WhollyDone(s, o, i) }

  /** Of the first k children exactly the wholly ready are started. */
  ghost predicate StartedAs(s: State, linked: State, v: State, c: Caller, parent: nat, plan: nat, o: Outline, base: nat,
                            session: Option<string>, k: nat) {
    && v.plans == linked.plans && v.deps == linked.deps && v.tasks.Keys == linked.tasks.Keys && k <= |o.children|
    && (forall y :: y in s.tasks ==> y in v.tasks && v.tasks[y] == s.tasks[y])
    && (forall i :: 0 <= i < |o.children| ==>
          ChildStands(v, c, parent, plan, o, base, session, i, ReadyBelow(s, o, k, i)))
    && ToldFor(s, v, c, o, base)
  }

  lemma StartCarries(s: State, linked: State, u: State, c: Caller, parent: nat, plan: nat, o: Outline, base: nat,
                     session: Option<string>, j: nat)
    requires StartedAs(s, linked, u, c, parent, plan, o, base, session, j) && j < |o.children| && plan < |linked.plans|
    requires StartChild(s, u, c, base, o, session, j).Committed? && forall y :: y in s.tasks ==> y < base
    ensures StartedAs(s, linked, StartChild(s, u, c, base, o, session, j).state, c, parent, plan, o, base, session,
        j + 1)
  {
    assert ChildStands(u, c, parent, plan, o, base, session, j, ReadyBelow(s, o, j, j));
    assert Ready(s, o, j) <==> WhollyDone(s, o, j);
    var v := u;
    if Ready(s, o, j) {
      v := StartNew(u, c, base + j, WhyFor(o, j), session);
      ToldNext(s, u, v, c, o, base, j);
    }
    var n := j + 1;
    forall i | 0 <= i < |o.children|
      ensures ChildStands(v, c, parent, plan, o, base, session, i, ReadyBelow(s, o, n, i))
    {
      assert ChildStands(u, c, parent, plan, o, base, session, i, ReadyBelow(s, o, j, i));
    }
  }

  lemma StartedChildren(s: State, linked: State, c: Caller, parent: nat, plan: nat, o: Outline, base: nat,
                        session: Option<string>)
    requires StartedAs(s, linked, linked, c, parent, plan, o, base, session, 0) && plan < |linked.plans|
    requires StartChildren(s, linked, c, base, o, session).Committed? && forall y :: y in s.tasks ==> y < base
    ensures StartedAs(s, linked, StartChildren(s, linked, c, base, o, session).state, c, parent, plan, o, base,
        session, |o.children|)
  {
    var step: (State, nat) -> Outcome := (u: State, i: nat) => StartChild(s, u, c, base, o, session, i);
    var keeps: (State, nat) -> bool := (u: State, i: nat) => StartedAs(s, linked, u, c, parent, plan, o, base,
        session, i);
    forall u, j: nat | keeps(u, j) && j < |o.children| && step(u, j).Committed? ensures keeps(step(u, j).state, j + 1) {
      StartCarries(s, linked, u, c, parent, plan, o, base, session, j);
    }
    StepsCarry(step, keeps, linked, 0, |o.children|);
  }

  // ---- the whole decomposition ----

  /** Targets are what the entries name. */
  lemma TargetsNamed(s: State, parent: nat, o: Outline, base: nat, i: nat, y: nat)
    requires Snapshot(s, base) && KeysValid(o) && DepsValid(s, parent, o) && i < |o.children|
    ensures y in Targets(o, base, o.children[i].deps) <==> Names(o, base, i, y)
  {
    var deps := o.children[i].deps;
    var targets := Targets(o, base, deps);
    if y in targets {
      var k :| 0 <= k < |targets| && targets[k] == y;
      RefTarget(s, parent, o, base, i, deps[k]);
    }
    if Names(o, base, i, y) { NamedIsTarget(s, parent, o, base, i, y); }
  }

  lemma NamedIsTarget(s: State, parent: nat, o: Outline, base: nat, i: nat, y: nat)
    requires Snapshot(s, base) && KeysValid(o) && DepsValid(s, parent, o) && Names(o, base, i, y)
    ensures y in Targets(o, base, o.children[i].deps)
  {
    var deps := o.children[i].deps;
    var d := if TaskNumber(y) in deps then TaskNumber(y) else Key(o.children[y - base].key);
    var k :| 0 <= k < |deps| && deps[k] == d;
    RefTarget(s, parent, o, base, i, d);
    assert Targets(o, base, deps)[k] == Target(o, base, d);
  }

  predicate StartsReady(s: State, o: Outline, startReady: bool, i: nat) { startReady && WhollyDone(s, o, i) }

  /** s decomposed: a new child per entry, the edges the entries name, and nothing else in the tables. */
  ghost predicate Decomposed(s: State, u: State, c: Caller, parent: nat, o: Outline, base: nat, startReady: bool,
                             session: Option<string>)
  {
    && parent in s.tasks && u.plans == s.plans
    && (forall y :: y in u.tasks <==> y in s.tasks || base <= y < base + |o.children|)
    && (forall y :: y in s.tasks ==> u.tasks[y] == s.tasks[y])
    && (forall i :: 0 <= i < |o.children| ==>
          ChildStands(u, c, parent, s.tasks[parent].plan, o, base, session, i, StartsReady(s, o, startReady, i)))
    && (forall e :: e in u.deps <==>
          e in s.deps || (base <= e.0 < base + |o.children| && Names(o, base, e.0 - base, e.1)))
    && ToldFor(s, u, c, o, base)
  }

  lemma LinkedIsDecomposed(s: State, made: State, v: State, c: Caller, parent: nat, o: Outline, base: nat,
                           session: Option<string>)
    requires parent in s.tasks && MadeAs(s, made, c, parent, s.tasks[parent].plan, o, base, |o.children|)
    requires LinkedAs(s, made, v, c, o, base, |o.children|)
    requires Snapshot(s, base) && KeysValid(o) && DepsValid(s, parent, o)
    ensures Decomposed(s, v, c, parent, o, base, false, session)
    ensures StartedAs(s, v, v, c, parent, s.tasks[parent].plan, o, base, session, 0)
  {
    forall e
      ensures e in v.deps <==> e in s.deps || (base <= e.0 < base + |o.children| && Names(o, base, e.0 - base, e.1))
    {
      if base <= e.0 < base + |o.children| { TargetsNamed(s, parent, o, base, e.0 - base, e.1); }
    }
    forall i | 0 <= i < |o.children|
      ensures ChildStands(v, c, parent, s.tasks[parent].plan, o, base, session, i, false)
    {
      assert ChildStands(made, c, parent, s.tasks[parent].plan, o, base, None, i, false);
    }
  }

  lemma StartedIsDecomposed(s: State, linked: State, u: State, c: Caller, parent: nat, o: Outline, base: nat,
                            session: Option<string>)
    requires parent in s.tasks && Decomposed(s, linked, c, parent, o, base, false, session)
    requires StartedAs(s, linked, u, c, parent, s.tasks[parent].plan, o, base, session, |o.children|)
    ensures Decomposed(s, u, c, parent, o, base, true, session)
  {
    forall i | 0 <= i < |o.children|
      ensures ChildStands(u, c, parent, s.tasks[parent].plan, o, base, session, i, StartsReady(s, o, true, i))
    {
      assert ChildStands(u, c, parent, s.tasks[parent].plan, o, base, session, i, ReadyBelow(s, o, |o.children|, i));
    }
    forall y ensures y in u.tasks <==> y in s.tasks || base <= y < base + |o.children| { assert y in u.tasks.Keys <==> y in linked.tasks.Keys; }
  }

  lemma ValidOutline(s: State, c: Caller, parent: nat, o: Outline, startReady: bool, session: Option<string>)
    requires Inv(s) && Decompose(s, c, parent, o, startReady, session).Committed?
    ensures parent in s.tasks && s.tasks[parent].plan < |s.plans|
    ensures Snapshot(s, NextTask(s)) && KeysValid(o) && DepsValid(s, parent, o)
    ensures Decompose(s, c, parent, o, startReady, session) == Apply(s, c, parent, o, startReady, session)
  {
    InvSnapshot(s);
    assert RowOk(s, s.tasks[parent]);
  }

  /** A decomposition that goes through leaves, for every entry, a new child numbered on from the last task, with the
      entry's title, intent, kind and priority, in the parent's plan; in progress exactly when starting was asked for
      and everything the entry names is an existing done task. The new edges are exactly those the entries name, and no
      other task, plan or edge changes. */
  lemma DecomposeWrites(s: State, c: Caller, parent: nat, o: Outline, startReady: bool, session: Option<string>)
    returns (base: nat)
    requires Inv(s) && Decompose(s, c, parent, o, startReady, session).Committed?
    ensures FirstNumber(s, base)
    ensures Decomposed(s, Decompose(s, c, parent, o, startReady, session).state, c, parent, o, base, startReady,
        session)
  {
    base := NextTask(s);
    NextIsFirst(s);
    ValidOutline(s, c, parent, o, startReady, session);
    var made := MakeChildren(s, c, s.tasks[parent].plan, parent, o);
    MadeChildren(s, c, parent, o);
    var linked := LinkChildren(made.state, c, base, o);
    LinkedChildren(s, made.state, c, parent, o, base);
    LinkedIsDecomposed(s, made.state, linked.state, c, parent, o, base, session);
    if startReady {
      StartedChildren(s, linked.state, c, parent, s.tasks[parent].plan, o, base, session);
      StartedIsDecomposed(s, linked.state, StartChildren(s, linked.state, c, base, o, session).state, c, parent, o,
          base, session);
    }
  }

  /** A child to be started cannot be: the session is malformed, or something it names is done on a disputed result. */
  ghost predicate HeldUp(s: State, o: Outline, session: Option<string>, i: nat) {
    && WhollyDone(s, o, i)
    && ((session.Some? && !ValidSession(session.value))
        || exists d :: d in s.tasks && TaskNumber(d) in o.children[i].deps && DisputedInLog(s.log, d))
  }

  lemma HeldUpExactly(s: State, o: Outline, session: Option<string>, i: nat)
    requires DisputesLogged(s) && i < |o.children|
    ensures CannotStart(s, o, session, i) <==> HeldUp(s, o, session, i)
  {
    if WhollyDone(s, o, i) {
      forall d | d in s.tasks && TaskNumber(d) in o.children[i].deps
        ensures ResultDisputed(s, d) <==> DisputedInLog(s.log, d)
      {
        assert s.tasks[TaskNumber(d).number].status == Done;
      }
    }
  }

  /** A decomposition goes through exactly when the plan is not over, the parent is live, there are 1 to 256 entries,
      they are valid, and no child to be started is held up. */
  ghost predicate MayDecompose(s: State, parent: nat, o: Outline, startReady: bool, session: Option<string>) {
    && parent in s.tasks && s.tasks[parent].status in {Proposed, InProgress}
    && s.tasks[parent].plan < |s.plans| && s.plans[s.tasks[parent].plan].status in {PlanActive, PlanPaused}
    && 1 <= |o.children| <= 256 && OutlineValid(s, parent, o, startReady)
    && !(startReady && exists i :: 0 <= i < |o.children| && HeldUp(s, o, session, i))
  }

  lemma DecomposeCommitsExactly(s: State, c: Caller, parent: nat, o: Outline, startReady: bool, session: Option<string>)
    requires Inv(s) && DisputesLogged(s)
    ensures Decompose(s, c, parent, o, startReady, session).Committed? <==>
            MayDecompose(s, parent, o, startReady, session)
  {
    forall i | 0 <= i < |o.children| ensures CannotStart(s, o, session, i) <==> HeldUp(s, o, session, i) {
      HeldUpExactly(s, o, session, i);
    }
    if && parent in s.tasks && Live(s.tasks[parent].status) && !Over(PlanStatusOf(s, parent))
       && 1 <= |o.children| <= MAX_CHILDREN && OutlineValid(s, parent, o, startReady) {
      DecomposeExact(s, c, parent, o, startReady, session);
    }
  }

  /** No new child shares its title, up to case and surrounding white space, with another one or with an unfinished
      child the parent had, and every reason given says something. */
  lemma NewTitlesAreNew(s: State, c: Caller, parent: nat, o: Outline, startReady: bool, session: Option<string>, i: nat)
    requires Inv(s) && Decompose(s, c, parent, o, startReady, session).Committed? && i < |o.children|
    ensures forall j :: 0 <= j < |o.children| && j != i ==>
              Lowered(Trim(o.children[j].title)) != Lowered(Trim(o.children[i].title))
    ensures forall y :: y in s.tasks && s.tasks[y].parent == Some(parent) && s.tasks[y].status in {Proposed, InProgress} ==>
              Lowered(Trim(s.tasks[y].title)) != Lowered(Trim(o.children[i].title))
    ensures o.children[i].why.Some? ==> Trim(o.children[i].why.value) != ""
    ensures o.why.Some? ==> Trim(o.why.value) != ""
  {
    assert TitleFree(s, parent, o.children[i].title);
    forall y | y in s.tasks && s.tasks[y].parent == Some(parent) && s.tasks[y].status in {Proposed, InProgress}
      ensures Lowered(Trim(s.tasks[y].title)) != Lowered(Trim(o.children[i].title))
    {
      assert LiveChild(s, parent, y);
    }
    forall j | 0 <= j < |o.children| && j != i
      ensures Lowered(Trim(o.children[j].title)) != Lowered(Trim(o.children[i].title))
    {
      assert TitleIdentity(o.children[j].title) != TitleIdentity(o.children[i].title);
    }
  }

  /** What a task could be called by: a kind's letter, a dash, and its number without leading zeros. */
  predicate IsHandle(name: string, letter: char, digits: string) {
    && name == [letter, '-'] + digits && Lower(letter) in "gfcbpdrw"
    && digits != "" && digits[0] != '0' && (forall c :: c in digits ==> '0' <= c <= '9')
       && Decimal(digits) < 0x8000_0000_0000_0000
  }

  /** Keys are usable exactly when each is 1 to 64 letters, digits, dashes and underscores that start with a letter, none
      could name a task, and no two are the same. */
  lemma KeysExactly(o: Outline)
    ensures KeysValid(o) <==>
            && (forall i :: 0 <= i < |o.children| ==>
                  var key := o.children[i].key;
                  && 1 <= |key| <= 64 && ('a' <= key[0] <= 'z' || 'A' <= key[0] <= 'Z')
                  && (forall c :: c in key ==>
                    'a' <= c <= 'z' || 'A' <= c <= 'Z' || '0' <= c <= '9' || c == '-' || c == '_')
                  && forall letter, digits :: !IsHandle(key, letter, digits))
            && (forall i, j :: 0 <= i < |o.children| && 0 <= j < |o.children| && i != j ==>
                 o.children[i].key != o.children[j].key)
  {
    forall i | 0 <= i < |o.children|
      ensures ReadsAsHandle(o.children[i].key) <==> exists letter, digits :: IsHandle(o.children[i].key, letter, digits)
    {
      HandleExactly(o.children[i].key);
    }
  }

  lemma HandleExactly(key: string)
    ensures ReadsAsHandle(key) <==> exists letter, digits :: IsHandle(key, letter, digits)
  {
    if ReadsAsHandle(key) {
      assert key == [key[0], '-'] + key[2..];
      assert IsHandle(key, key[0], key[2..]);
    }
    if letter, digits :| IsHandle(key, letter, digits) { assert key[2..] == digits; }
  }
}
