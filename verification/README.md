# Planner authority: model and proofs

Papertiger keeps a task plan in one transactional authority: tasks in a parent
forest, dependency edges between them, replacement links on retired tasks,
gates, plans, and an append-only event log. Every mutation is one transaction
that commits or leaves everything as it was. This project models that
authority, proves what every sequence of mutations keeps, and proves the graph
searches, the batch decomposition, the log, and the export/import format that
rest on it.

`dafny verify dfyconfig.toml` checks everything.

## How it is built

- **Tables as values, mutations as steps.** `Records.State` holds plans, tasks
  by number, dependency edges and the log. Each mutation is a step from a state
  to `Refused(why)` or `Committed(state)` (`Lifecycle`, `Definition`,
  `GatesAndPlans`, `Outlines`), and a run is a sequence of calls (`Runs.After`).
  Plans are identified by their position in creation order, tasks by number, a
  task's gates are kept in creation order.
- **The stored authority as a class.** `Authorities.Authority` has the tables
  as fields and one method per mutation, with the searches, loops, writes and
  rollbacks of the source. Each method is proved to answer exactly as its step
  says, and `Serve` proves that serving calls is a run. So what is proved of runs
  holds of the class.
- **Graph searches in place.** The cycle finder, the wait-chain search, the
  loop reporter, the dependency search, the relocation closure, the descendant
  walk and the replacement-chain walk are loops over arrays, stacks, queues and
  seen-sets, proved against reachability.

## Main results

1. *Wait-graph safety.* From an empty authority no run lets dependencies and
   waits for unfinished children close a loop; parents, replacements and plans
   stay consistent and closed tasks hold nothing open (`Runs`). Import skips the
   wait check, and a two-task dump shows it (`RoundTrip.ImportSkipsTheWaitCheck`).
2. *Deadlock freedom.* From any sound state, some sequence of calls that only
   waive, review, activate, start and complete closes every task exactly when the
   hold graph is acyclic and nothing live depends on rejected work
   (`Finishing.FinishableExactly`); without replacement detours some live task is
   always free (`Deadlock`). The guards ask the wait graph, which does not follow
   replacement links as settlement does: `HoldCalls.KnotsExactly` states for every
   call exactly when it ties a hold loop, and a run that retires d into a task that
   depends on d shows an admitted one (`Witnesses.ReplacementCanDeadlock`).
3. *Decomposition.* A validated outline is never refused while its children are
   created and linked: one snapshot answers every later wait check. With
   start-ready it is refused exactly when a ready child would build on a disputed
   result or the given session name is malformed; the source's comment only
   speaks of problems in the entries (`OutlineStart.DecomposeExact`).
4. *Settled prerequisites.* Every mutation keeps every done task's
   prerequisites settled, except reopening a task that another done task reaches
   through a retired prerequisite; the guard looks at direct dependents only.
   The condition is exact, with a run from the empty authority that fails it
   (`SettlementRuns`, `Witnesses.ReopenCanUnsettle`). The structural audit can report only this and live work on
   rejected work after import-free runs (`Audits.RunsAuditClean`).
5. *Log.* For every task and every field, status, pickup, dependency and gate,
   reading the log backwards from the stored value each change ends where the
   next begins, back to the creation event (`History`, `HistoryRuns`); the log only
   grows, and an unchanged log means an unchanged authority (`Snapshots`).
6. *Transfer.* A whole export of what any run of well-formed callers built is
   accepted by an empty authority exactly when every done task is settled, and
   then restores the same authority with one import event behind its log
   (`HonestRuns.RunsRoundTrip`); exporting again gives the same dump with that
   event behind it. A one-plan export is refused exactly when a task of it depends
   on another plan, and otherwise imports under the same condition
   (`HonestRuns.RunsExportOnePlan`).
7. *Reviews.* In every run a result claim shows exactly while its task is done
   and belongs to the last completer, and a filing or result is confirmed or
   disputed exactly when the last word on it is such a verdict by someone else
   (`ReviewRuns`).
8. *Paging.* Following cursors yields every matching event once, in order, even
   while the log grows; inventory pages show every listed task once
   (`EventPages`, `Inventory`).
9. *Legacy gates.* The schema migration accepts a task's blockers exactly when
   the dump converter accepts them and assigns the migration's names; the
   converter alone depends on their order (`LegacyGates`).
10. *What undoes what.* Reopening undoes a start always and a close exactly
   when the plan is not retired; a removed dependency can be restored exactly
   when its ends still allow one; moving there and back changes nothing (`Undo`).
11. *What every call does.* After any run a call commits exactly when what its kind
   asks is so, said over the stored rows and the log (`CallEffects.CallCommitsExactly`);
   and from any sound state a committed call changes exactly the rows,
   dependencies, plans and events its kind says, a refused one nothing
   (`CallEffects.CallTakesEffect`). None of these statements names the step they are
   about. The hardest: a decomposition leaves one child per entry with the entry's
   own fields and exactly the edges the entries name
   (`OutlineEffects.DecomposeWrites`); an edit sets exactly the fields it gives,
   takes exactly the subtree to another plan and records exactly what differs
   (`EditEffects.EditWrites`); completion is held back exactly by disputes in the
   log (`StatusEffects.CompleteExactly`); a rejected task never settles
   (`StatusEffects.RejectWrites`).
12. *What an import adds.* Whatever was stored, an accepted import keeps every
   stored plan, task, edge and event and adds exactly the dump's
   (`ImportEffects.ImportAddsExactly`), with rows as sound as the planner's own
   (`ImportEffects.AddedRowsAreSound`). One exported plan of a run comes back as
   exactly its tasks, edges and events (`PartTransfer.RunsRestoreOnePlan`).

Where a comment in the source and its code disagree the model follows the code:
besides decomposition above, the unlock count of `src/focus.rs` says a counted
task is ready once no other prerequisite holds it, but it compares open
dependencies by identity and so misses tasks that wait for the same work through
a replacement chain (`Focus.UnlockedExactly` states exactly which, and
`Witnesses.UnlockIsMissed` is a run that leaves such a task).

## Model

| member | source | states |
|---|---|---|
| FirstCycleSearch.FirstCycle | src/task_graph.rs:246-288 | the frame-stack search terminates, returns nothing exactly when the graph is acyclic, and otherwise a closed walk of real edges that repeats no node |
| FirstCycleSearch.Position | src/task_graph.rs:270-276 | a node marked as on the path always has a frame, so the search's expectation never fails |
| TaskGraph.Chain | src/task_graph.rs:83-105 | a chain is found exactly when the target is reachable, every hop is stored, none is shorter, and it is empty exactly for a task and itself |
| TaskGraph.WalkBack | src/task_graph.rs:95-104 | following predecessors back terminates and gives a stored chain of the recorded distance |
| LoopReport.Loops | src/task_graph.rs:110-157 | only real loops are reported, closing edges are distinct, removing them leaves the graph acyclic, and nothing is reported exactly for an acyclic graph |
| LoopReport.HopsAreReal | src/task_graph.rs:110-172 | every reported hop is stored, and is named a dependency whenever a dependency is stored |
| LoopReport.FindCycle | src/audit.rs:22-48 | over tasks and link rows, none exactly when links between known tasks are acyclic, otherwise a simple cycle of them by task number |
| Queries.LoadWith | src/task_graph.rs:48-80 | the loaded steps are exactly the dependencies between stored tasks (unfinished ones on request) and the waits of stored parents for unfinished children |
| Queries.LoadedIsWaits | src/task_graph.rs:33-36 | where links join stored tasks the loaded graph is the wait graph |
| Queries.WaitsFor | src/task_graph.rs:174-182 | a chain is returned exactly when one task finishes only after the other; it leads from one to the other over stored waits, and none is shorter |
| Queries.PrerequisiteSettled | src/task_context.rs:256-282 | following replacement links with a seen set answers settlement in every state, circular and broken chains included |
| Queries.OpenDeps | src/task_context.rs:237-254 | exactly the stored dependencies that are not settled, by number |
| Queries.TaskAncestry | src/task_context.rs:59-82 | the ancestors from the root down; it fails exactly when the task's own chain of parents loops or breaks |
| Queries.DependsOn | src/task_definition.rs:608-630 | the stack search of dependencies finds the task exactly when it is reachable |
| Queries.EntryBlockers | src/focus.rs:34-67 | exactly the unsettled dependencies, whether an external gate is open, and exactly the disputed results a task builds on |
| Queries.ReviewOf | src/review.rs:231-300 | the loop over a task's events computes its claims |
| Queries.FindFiler | src/review.rs:234-240 | the author of the first creation event |
| Queries.FindCompleter | src/review.rs:357-366 | the author of the latest completion |
| Waiting.SettledUnfold | src/task_context.rs:256-282 | settlement by chains equals the plain recursive reading in every state |
| Settlement.ChainsEnd | src/lifecycle.rs:354-424 | in sound states following replacements ends, and a chain of at least one link ends at live or done work |
| Settlement.SettledIsTheRecursion | src/task_context.rs:259-282 | any predicate that obeys the recursion without a seen set is settlement |
| Settlement.EndDecides | src/task_context.rs:259-282 | a prerequisite is settled exactly when its chain's only end is |
| Settlement.ReopenSettlesExactly | src/lifecycle.rs:247-258 | reopening keeps done tasks settled exactly when no other done task reaches the task through a retired prerequisite |
| Witnesses.ReopenCanUnsettle | src/lifecycle.rs:517-528 | eight calls from the empty authority after which an admitted reopening unsettles a done task |
| SettlementRuns.SettlementKept | src/lifecycle.rs:193-272 | for every call, settlement of done tasks survives exactly unless the call is such a reopening |
| LifecycleSafety.StartSafe | src/lifecycle.rs:25-101 | starting keeps every invariant |
| LifecycleSafety.CompleteSafe | src/lifecycle.rs:122-190 | completing keeps every invariant: nothing open, no live child, the result its kind needs |
| LifecycleSafety.ReopenSafe | src/lifecycle.rs:193-272 | reopening keeps every invariant, the acyclic wait graph included |
| LifecycleSafety.TerminateSafe | src/lifecycle.rs:289-435 | retiring, into a replacement or not, and rejecting keep every invariant |
| LifecycleSafety.ReplacementCycleNeverFires | src/lifecycle.rs:408-424 | the cycle check after a retirement never refuses in states that runs reach |
| StatusEffects.DisputesAreInTheLog | src/focus.rs:50-63 | after any run a task is held back by disputes exactly when a done dependency or done child of it was disputed by someone other than its completer, with no later word, since its last completion |
| StatusEffects.StartExactly | src/lifecycle.rs:25-101 | a start commits exactly on work in progress, or on a proposed task of an active plan without open external gate or dispute beneath it, with a well-formed session if any |
| StatusEffects.StartWrites | src/lifecycle.rs:25-101 | the same session again leaves no trace; any other start leaves the task in progress, picked up by the caller, and one event; no other row changes |
| StatusEffects.CompleteExactly | src/lifecycle.rs:122-190 | a completion commits exactly on a live, started or plan-active task with settled prerequisites, no open gate, no unfinished child, the result its kind needs, and no disputed result beneath it |
| StatusEffects.CompleteWrites | src/lifecycle.rs:122-190 | the task is done with the trimmed result given and no pickup, one event says so, and no other row changes |
| StatusEffects.RejectExactly | src/lifecycle.rs:289-435 | a rejection commits exactly with a reason, on a live task that nothing done depends on, nothing unfinished lies under and no replacement names |
| StatusEffects.RejectWrites | src/lifecycle.rs:400-435 | the task stands rejected with its trimmed reason and no replacement, is not settled, and every dependent keeps an open dependency; no other row changes |
| StatusEffects.RetireExactly | src/lifecycle.rs:289-435 | so does a retirement, except that a live or done replacement in the same plan stands in for the reason and lifts the last condition |
| StatusEffects.RetireWrites | src/lifecycle.rs:400-435 | the task stands retired into the replacement given; it is settled without one, and otherwise exactly when the replacement is; no other row changes |
| StatusEffects.ReopenExactly | src/lifecycle.rs:193-272 | a reopening commits exactly on work in progress, or on a closed task of an open plan with a live parent, if any, on which no done task depends, when the waits stay acyclic |
| StatusEffects.ReopenWrites | src/lifecycle.rs:193-272 | the task is proposed again without result, replacement or pickup, one event says so, and no other row changes |
| DefinitionSafety.AddDepSafe | src/task_definition.rs:575-658 | an admitted dependency keeps every invariant, the acyclic wait graph included |
| DefinitionSafety.AddTaskSafe | src/task_definition.rs:69-183 | creating a task with dependencies and an optional start keeps every invariant |
| DefinitionSafety.MovePlanSafe | src/plan_move.rs:12-75 | moving a link-closed selection keeps every invariant |
| DefinitionSafety.EditSafe | src/task_definition.rs:277-488 | editing, also across plans with the whole subtree, keeps every invariant |
| DefinitionSafety.RelocateIsRehomed | src/plan_move.rs:163-194 | relocation changes exactly the plans of the named tasks, and the old log is a prefix of the new |
| DefinitionSafety.SomeVisit | src/plan_move.rs:83-135 | for every task there is an order in which the walk can meet its subtree, so no edit fails for lack of one |
| DefinitionSafety.VisitsAgree | src/plan_move.rs:83-135 | which order it is changes neither whether an edit commits nor the tables it leaves |
| EditEffects.EditWrites | src/task_definition.rs:277-488 | each field given is stored, title trimmed, each other field stays; a parent in another plan takes exactly the task and its strict descendants along; the events tell each move and a revision of exactly the fields that differ |
| EditEffects.EditExactly | src/task_definition.rs:277-488 | an edit commits exactly when its values and its parent are admissible, a done task keeps the result its kind needs, and something changes; a sound one is refused for changing nothing exactly when every value given is the stored one |
| LinkEffects.AddDepExactly | src/task_definition.rs:575-658 | a dependency is admitted exactly from a live task to another live or done one, if new and if the waits stay acyclic |
| LinkEffects.AddDepWrites | src/task_definition.rs:575-658 | exactly that edge is added, with one event |
| LinkEffects.RemoveDepExactly | src/task_definition.rs:660-690 | a removal commits exactly on a stored edge with a reason that says something, if one is given |
| LinkEffects.RemoveDepWrites | src/task_definition.rs:660-690 | exactly that edge goes, with one event |
| LinkEffects.MovePlanExactly | src/plan_move.rs:12-75 | a selection moves exactly when it names stored tasks once each, none already there, the plan is active, and no parent or replacement link would join two plans |
| LinkEffects.MovePlanWrites | src/plan_move.rs:163-194 | exactly the selected tasks are in the plan afterwards, and each says so once, in increasing order |
| CreationEffects.CreateExactly | src/task_definition.rs:107-183 | a creation commits exactly with a usable title and kind, an open plan, a live parent of that plan, if any, and distinct viable prerequisites that do not wait for the parent |
| CreationEffects.AddTaskExactly | src/task_definition.rs:69-183 | adding a task commits exactly when its plan is selected, it may be created and, if it is to start, it may begin |
| CreationEffects.AddTaskWrites | src/task_definition.rs:69-183 | the first free number carries a row with exactly the given fields, its edges are exactly the given ones, it is in progress exactly when asked, and nothing else changes; the events tell creation, edges and start in order |
| GatesAndPlansSafety.SettleGateSafe | src/gates.rs:195-237 | resolving and waiving keep every invariant |
| GatesAndPlansSafety.ReopenGateSafe | src/gates.rs:142-193 | a gate reopens only on a live task, so done tasks keep no open gate |
| GatesAndPlansSafety.SetPlanStatusSafe | src/plans.rs:174-215 | no plan becomes done with live tasks, and every invariant is kept |
| GateEffects.AddGateExactly | src/gates.rs:11-66 | a gate is added exactly with a name and requirement, to a live task that has no gate of that name |
| GateEffects.ResolveWrites | src/gates.rs:195-237 | exactly the open gate of that name carries evidence, digest, note and time afterwards, and one event says so |
| GateEffects.WaiveWrites | src/gates.rs:90-105 | exactly the open gate of that name is waived for the reason given |
| GateEffects.RemoveGateWrites | src/gates.rs:107-140 | exactly the open gate of that name is gone and the others keep their order |
| GateEffects.ReopenGateExactly | src/gates.rs:142-193 | a gate is reopened exactly when it is settled and its task is live |
| GateEffects.ReopenGateWrites | src/gates.rs:142-193 | exactly that gate is open again with nothing of its outcome left |
| GateEffects.AddPlanExactly | src/plans.rs:101-129 | a plan is added exactly with a title and a slug no plan has, active and last |
| GateEffects.EditPlanExactly | src/plans.rs:131-172 | an edit gives exactly the plan of that slug the title and intent it names |
| GateEffects.SetPlanExactly | src/plans.rs:174-215 | a plan becomes done exactly when none of its tasks is unfinished, anything else always, and only its status changes |
| GateEffects.NoteExactly | src/events.rs:9-19 | a note is recorded about any stored task, or about none, and changes nothing else |
| Runs.RunSafe | src/lifecycle.rs:122-273 | every run keeps every invariant |
| Runs.WaitGraphStaysAcyclic | src/task_definition.rs:632-641 | from an empty authority no run closes a wait loop |
| Runs.PlansStayConfined | src/lifecycle.rs:383-389 | parent and replacement links never cross plans and never form cycles |
| Runs.ClosedTasksHoldNothing | src/task_definition.rs:376-385 | closed tasks have no live child, done ones no open gate, missing result or unfinished prerequisite, pickups only on work in progress |
| Deadlock.DrainExact | src/task_context.rs:238-282 | the live tasks can be finished one after the other exactly when the hold graph is acyclic and nothing live depends on rejected work |
| Deadlock.DeadlockFree | src/task_graph.rs:48-78 | in sound states without replacement detours, if anything is live some live task has no open dependency and no unfinished child |
| Finishing.FinishableExactly | src/lifecycle.rs:122-190 | some sequence of waivers, reviews, plan activations, starts and completions closes every task exactly when the hold graph is acyclic and nothing live depends on rejected work |
| Witnesses.ReplacementCanDeadlock | src/lifecycle.rs:354-424 | a run after which everything can be finished, and an admitted retirement into a dependent after which one task is live and nothing can finish |
| HoldCalls.KnotsExactly | src/task_definition.rs:632-641 | from a sound state without hold loops, each call leaves one exactly under its stated condition on what holds what: adding, decomposing, reparenting, linking, reopening and retiring into a replacement can, no other call does |
| HoldGrowth.GrownKnots | src/task_outline.rs:351-424 | new tasks under a parent tie a hold loop exactly when one depends on a live task that the parent holds |
| HoldGrowth.ReopenedKnots | src/lifecycle.rs:193-272 | a reopened task does exactly when a live task it depends on, if only through replacements, waits for one that would wait for it |
| HoldChanges.RetireKnots | src/lifecycle.rs:354-424 | a task retired into a live one does exactly when the replacement waits for, or is, a task held through it |
| HoldChanges.AddDepKnots | src/task_definition.rs:575-658 | an admitted dependency on a live task does exactly when that task is held by the dependent |
| StuckLoops.LoopNeverFinishes | src/task_graph.rs:38-46 | in any state, imported or not, the tasks of an unfinished wait loop stay unfinished until an edge goes, a task moves, or one is retired or rejected |
| StuckLoops.LoopRefusesCompletion | src/lifecycle.rs:135-166 | completing any task of the loop is refused |
| Audits.Audit | src/audit.rs:422-755 | nothing is reported that does not hold, no broken row is missed, and a loop in any stored relation or among unfinished waits is reported |
| Audits.OpenPrerequisites | src/audit.rs:515-530 | exactly the done tasks with an unsettled dependency |
| Audits.DeadlockFindings | src/audit.rs:693-714 | every loop reported over the unfinished wait graph is one whose tasks stay unfinished |
| Audits.RunsAuditClean | src/audit.rs:86-816 | after import-free runs the structural audit can only report unsettled prerequisites of done tasks and live work on rejected work |
| AuditFacts.CleanExactly | src/audit.rs:422-755 | the audit finds nothing in the rows exactly when each row is clean by a statement over the row itself |
| OutlineChecks.Validate | src/task_outline.rs:252-472 | the validation phase accepts exactly the valid outlines and resolves every dependency |
| OutlineChecks.CheckKeys | src/task_outline.rs:263-284 | keys are valid, distinct and no handles, exactly when the loop finds no problem |
| OutlineChecks.SiblingsAcyclic | src/task_outline.rs:425-449 | sibling dependencies are acyclic exactly when the cycle search finds none |
| OutlineChecks.ReadyChildren | src/task_outline.rs:451-471 | a child is ready exactly when all its dependencies are existing done tasks |
| OutlineSoundness.DecomposeSafe | src/task_outline.rs:208-533 | decomposition keeps every invariant |
| OutlineSoundness.FullGraphAcyclic | src/task_outline.rs:351-424 | the final wait graph of a validated outline is acyclic, by one check against the snapshot |
| OutlineSoundness.LinkAll | src/task_outline.rs:491-508 | adding every edge of a validated outline in order is never refused |
| OutlineStart.ApplicationCommits | src/task_outline.rs:474-508 | without start-ready a validated outline is never refused later |
| OutlineStart.DecomposeExact | src/task_outline.rs:509-533 | with start-ready a validated outline is refused exactly when a ready child's session is malformed or it builds on a disputed result |
| OutlineEffects.DecomposeWrites | src/task_outline.rs:474-533 | for every entry a child numbered on from the last task, with the entry's trimmed title, intent, kind and priority, in progress exactly when starting was asked for and all it names is existing done work; the new edges are exactly those the entries name, and nothing else changes |
| OutlineEffects.DecomposeCommitsExactly | src/task_outline.rs:208-533 | a decomposition commits exactly on a live parent of an open plan with 1 to 256 valid entries, none of which is to start on a disputed result or under a malformed session |
| OutlineEffects.NewTitlesAreNew | src/task_outline.rs:291-350 | no new child shares its title, up to case and surrounding space, with another one or with an unfinished child of the parent |
| OutlineEffects.KeysExactly | src/task_outline.rs:263-284 | keys are usable exactly when each is 1 to 64 letters, digits, dashes and underscores after a letter, none reads as a handle, and no two are the same |
| PlanMoves.Closure | src/plan_move.rs:46-61 | the worklist computes exactly what undirected links connect to the selection |
| PlanMoves.NothingMissing | src/plan_move.rs:62-73 | nothing is reported missing exactly when no link leaves the selection |
| PlanMoves.ClosureIsLeast | src/plan_move.rs:62-73 | supplying the reported tasks suffices and no link-closed selection does with less |
| PlanMoves.Descendants | src/plan_move.rs:90-107 | the stack walk ends because parents form a forest and meets every strict descendant once |
| History.RevisionValid | src/task_definition.rs:186-275 | every recorded revision passes the payload validator: distinct, exactly the changed fields, valid values |
| HistoryRuns.RunHistory | src/events.rs:21-72 | in every run, each recorded change of a task's fields, status, pickup, dependencies and gates starts where the last one ended, from its creation to the stored value |
| HistoryRuns.EditHistory | src/task_definition.rs:277-488 | an edit, also across plans, keeps the log a complete account |
| HistoryRuns.MovePlanHistory | src/plan_move.rs:163-194 | relocation records every plan change with its source and destination |
| Dumps.ValidatePlanHistory | src/plan_move.rs:196-252 | the backward loop accepts exactly the dumps in which every event names its task's plan of that moment and every plan change connects listed plans |
| HonestRuns.RunsAccountForPlans | src/plan_move.rs:196-252 | it accepts the log of every run, whole or cut to one plan |
| Snapshots.EveryChangeIsLogged | src/events.rs:21-72 | a mutation appends well-formed events in its caller's name, keeps history, and changes nothing without an event |
| Snapshots.HeadPinsTheAuthority | src/inventory.rs:96-98 | along any run an unchanged log means an unchanged authority |
| Snapshots.RunShapes | src/transfer.rs:430-440 | every event of every run carries the references transfer needs and changes status only as the lifecycle allows |
| ReviewFacts.SameModelExactly | src/review.rs:121-144 | two model names count as one exactly when they agree up to ASCII case and up to a dot against a dash between digits |
| ReviewFacts.NormalizedOnce | src/review.rs:121-144 | normalizing a model name twice changes nothing more |
| ReviewRuns.ResultBelongsToCompleter | src/review.rs:231-300 | in every run the result claim shows exactly while the task is done and belongs to its last completer |
| ReviewRuns.FilingVerdictsComeFromOthers | src/review.rs:327-403 | a filing is confirmed or disputed exactly when the last word on it is that verdict by someone other than the filer |
| ReviewRuns.ResultVerdictsComeFromOthers | src/review.rs:327-403 | a done task's result is confirmed or disputed exactly when the last word since its completion is that verdict by someone other than the completer |
| ReviewRuns.FilingStands | src/review.rs:262-290 | a standing verdict ends only with a later filing review or a title or intent rewrite by another author |
| ReviewFacts.OthersDoNotCount | src/review.rs:161-193 | events about other tasks leave a review alone |
| ReviewEffects.FilingStateExactly | src/review.rs:231-300 | a filing is unreviewed exactly until someone else starts, rewrites or reviews the task; then its state, reviewer model and comparison are those of the last review or rewrite, or else of the first such start |
| ReviewEffects.ResultBookkeeping | src/review.rs:199-217 | a result claim is never merely engaged, names its author's model, and no reviewer while unreviewed |
| ReviewEffects.NeedsReviewExactly | src/review.rs:305-315 | after any run, live work needs review exactly when nobody else attended to it or its filing stands disputed, done work exactly when its sourced completer's result is not confirmed |
| ReviewEffects.ListedExactly | src/inventory.rs:115-204 | after any run a listing shows exactly the tasks of the asked status and kind that, if asked for, need review by the log |
| GateEffects.ReviewExactly | src/review.rs:327-403 | a review commits exactly with a reason, on a result only while it stands, and never by the author who made the claim: the same session where both have one, otherwise the same name |
| GateEffects.ReviewWrites | src/review.rs:327-403 | it changes nothing but the log, by one event |
| EventPages.EventCursor | src/read_model.rs:384-413 | hashing up to a row gives the cursor of that position, and none for a missing row |
| EventPages.AcceptedExactly | src/read_model.rs:424-461 | a cursor is accepted exactly where the log starts with the history it was made from |
| EventPages.CursorSurvivesAppends | src/read_model.rs:424-461 | appends never invalidate a cursor |
| EventPages.OlderIds | src/read_model.rs:493-521 | a listing holds exactly the matching rows, each once, newest first |
| EventPages.PagesCoverTheLog | src/read_model.rs:463-550 | following continuations yields every matching event once and in order although the log grows between fetches |
| EventPages.PageContinues | src/read_model.rs:523-534 | a truncated page's cursor is accepted later and lists exactly the shorter rest |
| EventPages.TailContinues | src/read_model.rs:523-534 | a page after a cursor always continues and the next lists exactly what it left out |
| EventPages.EventLogExactly | src/read_model.rs:463-550 | a fetch is refused exactly for a limit out of range or a cursor made from another history; otherwise it holds the first rows in order up to the limit, says whether any are left, and continues at its last row |
| Inventory.TaskInventory | src/inventory.rs:115-204 | a page is refused exactly for a bad limit or a cursor of other filters or another authority state, and otherwise holds the next listed tasks |
| Inventory.PagesShowAll | src/inventory.rs:162-190 | following inventory cursors shows every listed task once, in order |
| LegacyGates.JsonConvert | src/transfer.rs:78-143 | the loop converts blocker by blocker against the gates so far |
| LegacyGates.JsonKeepsNamesApart | src/transfer.rs:91-113 | whatever it accepts keeps the existing gates and repeats no name |
| LegacyGates.JsonAddsInTurn | src/transfer.rs:91-136 | each blocker becomes an external gate with its condition and outcome, prefixed exactly when an earlier gate has its name |
| LegacyGates.JsonRefusesExactly | src/transfer.rs:97-113 | a refusal stands at a blocker whose name and prefixed name are both taken by the gates converted before it |
| LegacyGates.SqlRefusesExactly | src/schema.rs:318-356 | the migration refuses exactly when two of the names it would assign coincide |
| LegacyGates.ConversionsAgreeExactly | src/schema.rs:318-356 | the migration accepts exactly when the converter accepts and assigns the migration's gates |
| LegacyGates.ConverterDependsOnOrder | src/transfer.rs:91-113 | blockers the migration refuses that the converter accepts in one order only |
| Exports.Export | src/transfer.rs:233-488 | refuses exactly what cannot be carried, and otherwise writes every chosen row, kept event and named plan |
| Exports.ExportTask | src/transfer.rs:259-345 | a row is written faithfully, or refused for a broken replacement or an edge into another plan |
| Transfer.ExportRefusesExactly | src/transfer.rs:315-324 | a sound authority exports whole, and one plan alone exactly when no task of it depends on another plan |
| Imports.Import | src/transfer.rs:490-1088 | commits exactly the accepted dumps, with the tables and log that `ImportEffects.ImportAddsExactly` states over the stored state and the dump; otherwise changes nothing |
| Imports.AssignNumbers | src/transfer.rs:566-583 | explicit numbers stay, omitted ones count up from the first free number |
| Imports.CheckWhole | src/transfer.rs:860-935 | the whole-authority checks pass exactly when parents and replacements are acyclic, chains go on and nothing holds a done task |
| Imports.AddEdges | src/transfer.rs:850-858 | a task's edges are restored exactly when they stay in the dump, repeat nothing and close no cycle |
| ImportRules.NumbersFit | src/transfer.rs:541-583 | every dumped task gets its own positive number and none collides with a stored task |
| TransferState.PartFits | src/transfer.rs:909-935 | a self-contained part of a sound authority passes the whole-graph checks exactly when its done tasks are settled |
| Transfer.ImportAcceptsExactly | src/transfer.rs:490-1088 | an export, whole or of one plan, is accepted by an empty authority exactly when every done task it carries is settled |
| RoundTrip.FullRoundTrip | src/transfer.rs:490-1088 | a whole export comes back as the same plans, tasks, links, gates and events with one import event, exactly when every done task is settled |
| RoundTrip.ReexportAddsOneEvent | src/transfer.rs:233-488 | exporting again gives the same dump with that one event behind |
| RoundTrip.ImportLeaves | src/transfer.rs:860-935 | whatever was stored, an accepted import leaves acyclic parents and replacements, chains that go on, and done tasks settled and without live children |
| ImportEffects.ImportAddsExactly | src/transfer.rs:490-1088 | whatever was stored, an accepted import keeps every plan, task, edge and event and adds exactly the dump's new plans, rows with every field, edges, and events in order with trimmed times, then one import event |
| ImportEffects.AddedRowsAreSound | src/transfer.rs:620-858 | every added row has a title, coherent uniquely named gates, none open when done, the result its kind needs, a pickup only in progress, and links that stay in the dump and in its plan |
| ImportEffects.AddedEventsAreBound | src/transfer.rs:942-1007 | every added event has an author and time that read, and is about an added task, or names a plan of the dump or none |
| ImportEffects.AddedPlansAgree | src/transfer.rs:500-533 | a dump repeats no slug, and a dumped plan whose slug is stored has the stored definition |
| RoundTrip.ImportSkipsTheWaitCheck | src/task_definition.rs:632-641 | import accepts a dump whose tasks wait for each other |
| HonestRuns.RunsRoundTrip | src/transfer.rs:490-1088 | whatever a run of well-formed callers builds exports, and its import restores it exactly when every done task is settled |
| HonestRuns.RunsReexport | src/transfer.rs:233-488 | importing and exporting again what such a run built gives its dump with one import event behind |
| HonestRuns.RunsExportOnePlan | src/transfer.rs:315-324 | one plan of it exports exactly when no task of the plan depends on another plan, and is then accepted exactly when its own done tasks are settled |
| PartTransfer.RunsRestoreOnePlan | src/transfer.rs:490-1088 | an accepted import of one exported plan of such a run leaves exactly the plan's tasks with every field, the edges between them, and its events in order with one import event behind |
| HonestRuns.RunSound | src/transfer.rs:620-790 | every such run leaves only texts, gates and pickups that import can read |
| Focus.ImmediateUnlockCount | src/focus.rs:257-294 | counts exactly the direct dependents no other open dependency holds |
| Focus.UnlockedExactly | src/focus.rs:284-292 | counted tasks have all prerequisites settled once the task is finished; missed are exactly those that wait for it through a replacement chain |
| Focus.CountedExactly | src/focus.rs:257-294 | a task is counted exactly when it is a proposed childless direct dependent without open external gate whose prerequisites are all settled once the task is finished, none through a replacement chain |
| Witnesses.UnlockIsMissed | src/focus.rs:284-292 | a run that leaves such a task: finishing 3 frees 1, and 1 is not counted |
| Focus.CompletionSettles | src/task_context.rs:256-282 | finishing a task settles exactly the prerequisites whose chain leads to it |
| Undo.StartThenReopen | src/lifecycle.rs:193-272 | a start can always be taken back |
| Undo.CompleteThenReopen | src/lifecycle.rs:193-272 | a completion can be taken back exactly when the plan is not retired |
| Undo.TerminateThenReopen | src/lifecycle.rs:193-272 | so can a retirement and a rejection |
| Undo.RemoveThenAddDep | src/task_definition.rs:575-658 | a removed edge can be restored exactly when the dependent is live and the prerequisite viable: it closes no cycle |
| Undo.AddThenRemoveDep | src/task_definition.rs:660-690 | an added edge can always be removed, without a trace in the tables |
| Undo.AddThenRemoveGate | src/gates.rs:107-140 | an added gate can always be removed, without a trace in the tables |
| Undo.MoveThereAndBack | src/plan_move.rs:12-75 | moved tasks can be moved back exactly when their plan is active, and then nothing has changed |
| Authorities.Authority.StartTask | src/lifecycle.rs:25-101 | commits exactly under `StatusEffects.StartExactly` and leaves what `StatusEffects.StartWrites` states |
| Authorities.Authority.CompleteTask | src/lifecycle.rs:122-190 | commits exactly under `StatusEffects.CompleteExactly`, disputes included, and then leaves what `StatusEffects.CompleteWrites` states |
| Authorities.Authority.ReopenTask | src/lifecycle.rs:193-272 | commits exactly under `StatusEffects.ReopenExactly` and leaves what `StatusEffects.ReopenWrites` states |
| Authorities.Authority.TerminateTask | src/lifecycle.rs:289-435 | commits exactly under `StatusEffects.RejectExactly` or `RetireExactly`, leaves what `RejectWrites` or `RetireWrites` states, and rolls back on a replacement cycle |
| Authorities.Authority.TransitionTask | src/lifecycle.rs:437-489 | status, result, replacement and pickup change together with one event |
| Authorities.Authority.RecordPickup | src/pickup.rs:161-202 | takes over work in progress; the same identified session again changes nothing |
| Authorities.Authority.AddTask | src/task_definition.rs:69-183 | creates, links and starts, or undoes all of it |
| Authorities.Authority.AddEdge | src/task_definition.rs:575-658 | answers as the dependency step |
| Authorities.Authority.RemoveDependency | src/task_definition.rs:660-690 | answers as the removal step |
| Authorities.Authority.EditTask | src/task_definition.rs:277-488 | commits exactly under `EditEffects.EditExactly`, leaves what `EditEffects.EditWrites` states, and rolls a subtree move back when the new parent is refused |
| Authorities.Authority.MoveRows | src/plan_move.rs:163-194 | moving all rows before recording equals moving and recording them one by one |
| Authorities.Authority.MovePlan | src/plan_move.rs:12-75 | answers as the move step, refusing by the closure |
| Authorities.Authority.DecomposeTask | src/task_outline.rs:208-533 | validates, creates, links, starts, or undoes all of it: what `OutlineEffects.DecomposeWrites` states, exactly under `OutlineEffects.DecomposeCommitsExactly` |
| Authorities.Authority.AddGate | src/gates.rs:11-66 | answers as the gate step |
| Authorities.Authority.SettleGate | src/gates.rs:195-237 | answers as the resolve or waive step |
| Authorities.Authority.RemoveGate | src/gates.rs:107-140 | answers as the gate removal step |
| Authorities.Authority.ReopenGate | src/gates.rs:142-193 | answers as the gate reopening step |
| Authorities.Authority.AddPlan | src/plans.rs:101-129 | answers as the plan creation step and keeps slugs unique |
| Authorities.Authority.EditPlan | src/plans.rs:131-172 | answers as the plan edit step |
| Authorities.Authority.SetPlanStatus | src/plans.rs:174-215 | answers as the plan status step |
| Authorities.Authority.ReviewTask | src/review.rs:327-403 | answers as the review step: never by the claim's own author |
| Authorities.Authority.AddNote | src/events.rs:9-19 | answers as the note step |
| Authorities.Authority.ImportDump | src/transfer.rs:490-1088 | the stored authority moves as the import outcome: everything stored stays and `ImportEffects.ImportAddsExactly` says what is added |
| Authorities.Authority.Execute | src/lifecycle.rs:12-23 | whatever the call, the tables move exactly as the run's step says |
| CallEffects.CallCommitsExactly | src/lifecycle.rs:12-23 | after any run, any call commits exactly when what its kind asks of rows, links and log is so |
| CallEffects.CallTakesEffect | src/lifecycle.rs:12-23 | from any sound state, any committed call does exactly what its kind says to plans, rows, edges and log, and a refused one nothing |
| Authorities.Authority.Serve | src/lifecycle.rs:12-23 | serving calls from a new authority is a run, so every invariant holds afterwards |

## Left out

- SQLite itself: connections, locking, write guards, schema DDL. A transaction is commit or unchanged; foreign keys, unique plan slugs and unique gate names are what `Storage.Storable` and the row checks assume of stored tables.
- Row order where a query does not order its rows: the model leaves it open, and `DoEdit` carries the order in which a reparent met the subtree.
- Tags, commit associations, external references, Mise projections and history quarantine.
- Times, evidence locators and model identifiers are opaque texts; their syntax checks are parameters (`ImportRules.Syntax`, the `wellFormed` input of a gate resolution). Digest syntax is modelled.
- SHA-256: a cursor carries the history or filter it digests, so digests are injective.
- JSON parsing and document shape: enumerated values are typed, numbers are natural, and the legacy `intent_source`, `result_source` and `meaning_source` fields are absent. An integral float in an outline is the integer it denotes.
- 64-bit limits of task numbers.
- Authorship resolution and process observation: the caller's author, clock and owner are inputs of every mutation.
- Title identity and model names lowercase ASCII letters only.
- The legacy priority number and the removal of legacy source fields in the two conversions: their branches are the same in both.
- Focus ranking, ready queues, search, handles, messages and refusal texts; the order in which a one-plan export lists plans that only history names.
- Exports.Export: does not state the order of historical plan definitions, because import reads them by slug.
- Dumps.ValidatePlanHistory: covers the import check; the audit reuses it over a projection of the stored tables.
