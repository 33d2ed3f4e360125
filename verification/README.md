# RainEngine: a verified model of the session ledger, the scheduler and the advance machine

RainEngine drives an agent session through an append-only ledger. Every advance rebuilds what it needs from that
ledger: which tool graph is unfinished, how many steps the current trigger has used, whether a policy overlay is in
force, whether an approval was already decided. This project models that machinery in Dafny and proves what holds of
every run, with a failed append or a crash possible at every single append.

| file | models |
|---|---|
| `Ledger.dfy` | the records, and a store whose appends may fail or be the last thing the process does |
| `Evaluation.dfy` | the reference for a batch of dependent calls: evaluation in rounds, and the recursive specification |
| `ToolGraphs.dfy` | what the ledger says about one graph, which checkpoint may follow which, schedule independence |
| `Batches.dfy` | the graph a batch of calls is executed as, and what its calls ask for, told without any graph |
| `Scheduler.dfy` | `execute_planned_calls` and everything it calls, as methods over the store |
| `CrashResume.dfy` | whole runs of one batch: any number of interrupted calls, each resuming from the ledger |
| `Overlays.dfy` | self-improvement: overlays as a stack hidden in a two-pass scan, tuning, the climb of the step limit |
| `Projections.dfy` | the current segment, the active trigger, step counts, look-ups by key and by resume token |
| `FailureStreak.dfy` | the windowing loop behind the consecutive-failure limit |
| `ActiveGraphs.dfy` | the graph a continuation resumes |
| `Sessions.dfy` | the rules of every run, the further rules of graphs, and approvals, segments and idempotency over whole sessions |
| `GraphIds.dfy` | which graph a batch ends up in, whose calls have run, and when a graph id is taken |
| `GraphIdCases.dfy` | lawful ledgers on which a batch ends up in another graph than its own |
| `Advances.dfy` | what an advance relies on, keeps and achieves |
| `Engine.dfy` | the class `AgentEngine` with its advances |
| `Runtime.dfy` | the loops that drive requests to their outcomes |
| `Neighbors.dfy` | the bounded breadth-first search over relationships |
| `Leases.dfy` | the in-memory lease store under every interleaving of its critical sections |
| `AgentStates.dfy` | the agent state replayed from kernel events |
| `Planner.dfy` | the research planner and the task numbering of a whole session |

How the pieces fit. The methods of `Scheduler` and `AgentEngine` have the shape of the code: loops over mutable maps, a
store they append to, an early return after every append that fails. Their contracts come in three layers.

- `Orderly` holds in every run: whatever the provider answers, whatever its calls are named, in whatever order
  executions are joined and wherever the process stops. `Runtime.ServeSession` proves it of every ledger reached by any
  requests from an empty session. The step bound of the driving loop, single resolution of approvals, rejection, the
  approval gate, idempotency keys, segments and the overlay stack rest on this layer alone.
- `GraphsKept` adds the rules of graphs and checkpoints. An advance keeps it as long as the batches of the session keep
  apart (`Sessions.Clean`): the calls of one batch have distinct ids, and the step of a decision was not used by a graph
  since the last outcome. The second part takes care of itself in a segment without an approval
  (`Sessions.NextStepUnused`). The order of attempts and the single terminal checkpoint are proved of such graphs.
- `AllConform` says that every executed call ended with its own outcome under one host, that is, one behaviour of the
  skills. An advance with that host keeps it (`Advances.Tidy`), so in a session served by one host every graph at rest
  holds the statuses its batch evaluates to (`Runtime.ServeSession`): schedule independence, crash and resume are
  consequences for whole sessions, not only for one batch. `GraphIds.RanAsAsked` says it of the calls themselves: each
  started only after the calls it lists had succeeded, and acyclic calls ended by a recursive rule that knows no graph.

What an advance does with its limits and with self-improvement is stated over the ledger it found. `Advances.Limited`
and `Advances.StreakStops` tie the step count, and the failure streak with its reading as latest decisions whose every
call failed, to the stop reason or to what was decided. `Advances.Tunes` ties the tunings to the outcome, and
`Overlays.RollbackIff`, `TuningIff` and `AppliedRaises` say by stop reason what that means for the limits of later
advances.

What is assumed: trigger and overlay identifiers are fresh; the set of skills that need an approval is fixed; one
advance runs at a time per session; there are no execution-plan records; a skill does not panic. For the determinism
results only, each node of a batch is given the outcome it has whenever it is executed (`SkillEnv`). The in-memory store
numbers and pushes a record in two steps; an append is one step here. With a `reliable` store no append fails and the
process does not stop.

Where the code and its descriptions part ways, the model follows the code:

- A batch takes over a recorded graph of the same step with the same call ids, whoever recorded it and whatever skills
  it names (rain-engine-core/src/engine.rs:2367-2396). Providers number the calls of an answer when the model gives no
  ids (rain-engine-provider-gemini/src/lib.rs:302-304, rain-engine-openai/src/lib.rs:163-165), so a batch can find the
  finished graph of another trigger: then it executes nothing and has no result, even if its calls are the very same
  (`GraphIdCases.RepeatedCallNeverRuns`), and an approved call never runs, under this delivery or any other
  (`GraphIdCases.ApprovedCallNeverRuns`). `GraphIds.Performed` and `Advances.Answered` say exactly when a batch gets a
  graph of its own and runs: when no recorded graph of its step has exactly its call ids. The calls of an approval
  delivered again have run exactly when there is no such graph or it comes from an earlier delivery.
- Step numbers restart after an approval resume, so a later batch of the same trigger can get the id of an earlier graph
  (`GraphIdCases.ResumeReusesId`). That happens exactly when the count of the segment stands at the suspended step and
  the approved calls got a graph of their own, or at the step after it and the resumed decision's calls did
  (`GraphIds.NextIdTakenIff`); `Advances.NextIdTakenByGuards` puts both in terms of the look-ups made when the calls
  were approved and decided. The batch is then executed but not recorded, and its checkpoints go under the other graph
  (the last clause of `Engine.AgentEngine.ExecuteFresh`).
- The context of a continuation lacks the checkpoints of the graph it just resumed, so a batch with the same step and
  call ids would be executed again (`Advances.ResumedLooksUnfinished`); by `Sessions.StepUsedOnlyByResume` the step can
  only be the same after an approval.
- An overlay is applied to the base policy, never to the policy in force, so it replaces its predecessor, while the
  policy projected in the tuning record shows both; and a rollback record projects the policy it rolls back.
  `Overlays.ProjectionExact` says exactly when the record of a tuning is right. While every tuning of the run started
  from one base policy, the record of a rollback never is (`Overlays.RollbackNeverProjects`), and that of an applied
  overlay is right exactly when no overlay was in force or the new one patches the same limit
  (`Overlays.ProjectionInRun`).
- Results of calls resumed after an approval stand before the first decision of their segment and are counted into
  that decision's window, which hides its failure (`FailureStreak.StrayHidesFailure`). `FailureStreak.WindowsExactIff`
  says exactly when the windows are right.
- A planner event that fails to be appended is skipped and the next one is appended, so the task numbers of a session
  can have a hole for good. `Planner.NumberedIffPrefixes` says exactly when they have none.
- A planned task that depends on a later task of the plan loses that dependency and may start at once
  (`Planner.DependenciesKept`); one that depends on itself blocks itself for ever (`Planner.AcyclicIffNoSelf`).

## Model

| member | source | states |
|---|---|---|
| Ledger.LedgerStore.Append | rain-engine-core/src/memory.rs:366-388 | an append keeps every earlier record; unless it reports success the record may or may not be there; a reliable store always succeeds |
| Evaluation.FinishesIffAcyclic | rain-engine-core/src/engine.rs:1412-1475 | every call is settled whatever the skills return if and only if the dependencies are declared and acyclic |
| Evaluation.SpecAt | rain-engine-core/src/engine.rs:1520-1567 | on acyclic calls the evaluation in rounds agrees with the recursive rule: skipped if some dependency did not succeed, else the call's own outcome |
| Evaluation.RoundsSettle | rain-engine-core/src/engine.rs:1412-1475 | after as many rounds as there are calls nothing more is blocked or ready, also with cycles |
| Evaluation.SettledIsAll | rain-engine-core/src/engine.rs:1412-1475 | statuses settled in any order that no unsettled call can extend are those of the evaluation |
| ToolGraphs.StartedAfterDependencies | rain-engine-core/src/engine.rs:1726-1736 | every Started checkpoint is preceded by a Succeeded checkpoint of each dependency |
| ToolGraphs.NothingAfterTerminal | rain-engine-core/src/engine.rs:1434-1474 | a call has at most one terminal checkpoint, and none of its checkpoints follows it |
| ToolGraphs.AttemptsInOrder | rain-engine-core/src/engine.rs:2438-2450 | the Started attempts of a call read 1, 2, ..., k, across resumes, and k is the count a resumed call rebuilds |
| ToolGraphs.SettledIsSound | rain-engine-core/src/engine.rs:1412-1475 | whatever a lawful ledger has settled so far, the evaluation in rounds settles the same way |
| ToolGraphs.ScheduleIndependence | rain-engine-core/src/engine.rs:1393-1475 | a lawful ledger at rest holds exactly the statuses of the evaluation, whatever priorities, caps, join order and interruptions produced it, on any graph |
| ToolGraphs.AcyclicRunsMeetSpec | rain-engine-core/src/engine.rs:1393-1475 | on an acyclic graph every node is settled at rest, each as the recursive specification says |
| ToolGraphs.StuckNodesWait | rain-engine-core/src/engine.rs:2452-2478 | at rest each unfinished node has a dependency that is itself unfinished or undeclared |
| ToolGraphs.RestIsFinal | rain-engine-core/src/engine.rs:1412-1475 | whatever lawful records follow, a graph at rest keeps its statuses and stays at rest |
| ToolGraphs.FinalStatus | rain-engine-core/src/engine.rs:2492-2498 | a result leads to Succeeded exactly when it is Ok, to TimedOut exactly when it is a timeout, and to Failed for every other error |
| Batches.MatchingGraph | rain-engine-core/src/engine.rs:2367-2396 | a graph is reused only if it is recorded with this step and exactly these call ids, and always if one is |
| Batches.MatchingIsLatest | rain-engine-core/src/engine.rs:2367-2396 | of several matching graphs the latest is reused |
| Batches.NodeOfCall | rain-engine-core/src/engine.rs:2398-2424 | for distinct call ids each call's node has that call's skill, payload, priority and dependencies, and its position as order |
| Batches.DepsOfCalls | rain-engine-core/src/engine.rs:2398-2424 | the graph of a batch declares exactly the ids of its calls, each with the dependencies that call lists, so every result about graphs speaks of the calls |
| Batches.CallStatusIsSpec | rain-engine-core/src/engine.rs:1520-1567 | on acyclic calls the recursive specification of the graph is the rule over the calls: skipped if a call it depends on did not succeed, else what its own result leads to |
| Batches.LawfulStarts | rain-engine-core/src/engine.rs:1726-1736 | in every lawful ledger of a batch a call starts only after a Succeeded checkpoint of each id in its own dependency list |
| Batches.LawfulSettles | rain-engine-core/src/engine.rs:1412-1475 | a lawful ledger at rest has settled each acyclic call as the rule over the calls says |
| Scheduler.LatestToolStatuses | rain-engine-core/src/engine.rs:2426-2436 | the rebuilt map holds exactly the status of each call's latest checkpoint in this graph |
| Scheduler.StartedAttemptCounts | rain-engine-core/src/engine.rs:2438-2450 | the rebuilt map holds exactly the highest Started attempt of each call in this graph |
| Scheduler.ReadyNodesExact | rain-engine-core/src/engine.rs:2452-2478 | a node is offered exactly when it is unfinished and all its dependencies succeeded |
| Scheduler.SortedInOrder | rain-engine-core/src/engine.rs:2464-2477 | ready nodes come by descending priority, then ascending order, then call id, none lost or doubled |
| Scheduler.IdOrderMeans | rain-engine-core/src/engine.rs:2464-2477 | call ids are compared lexicographically: at the first difference the smaller one ends or has the smaller character |
| Scheduler.AppendToolCheckpoint | rain-engine-core/src/engine.rs:1494-1518 | a checkpoint keeps the ledger lawful and, once stored, changes the final status and attempt of its own call only |
| Scheduler.RecordGraph | rain-engine-core/src/engine.rs:1377-1391 | a graph whose id is not in use is recorded with its nodes queued: nothing settled, nothing attempted, nothing started |
| Scheduler.SkipBlockedNodes | rain-engine-core/src/engine.rs:1520-1567 | one pass leaves strictly fewer calls unsettled, or leaves everything as it was with no unfinished node blocked; it starts nothing |
| Scheduler.PrepareNode | rain-engine-core/src/engine.rs:1569-1772 | a refused node fails with the first failing check's error and is not started; any other is started with exactly the next attempt number and stays unsettled |
| Scheduler.StartWave | rain-engine-core/src/engine.rs:1434-1450 | every node of the wave ends up in flight or settled, and whatever is started was of the wave chosen when it began |
| Scheduler.JoinWave | rain-engine-core/src/engine.rs:1452-1474 | joined in any order, every execution in flight is settled with the status of its result |
| Scheduler.RunToRest | rain-engine-core/src/engine.rs:1412-1475 | the loop terminates on every graph, cyclic ones and repeated call ids included, with the unsettled call ids as measure; a sound call leaves the graph at rest |
| Scheduler.InGraphOrder | rain-engine-core/src/engine.rs:1477-1486 | the results collected in any order come out in graph order, one per node settled during the call |
| Scheduler.ExecutePlannedCalls | rain-engine-core/src/engine.rs:1347-1492 | gated calls without an override change nothing and are all returned as pending, with exactly the gated skill names; on every input only records of this batch are appended, and a reliable store excludes errors; with distinct call ids and an up-to-date context each checkpoint is allowed, calls start only in waves of the highest-ranked ready nodes, at no point are more than the cap in flight, the graph ends at rest and the results are those of the nodes settled during the call; a batch with a graph of its own starts each call only after the calls it lists succeeded, and settles acyclic calls by the recursive rule over the calls |
| Scheduler.TrailLawful | rain-engine-core/src/engine.rs:1347-1492 | a lawful graph stays lawful through an execution call, to its end or not |
| Scheduler.CapInWave | rain-engine-core/src/engine.rs:1404-1408 | while checkpoints are written for the calls of one wave only, no prefix of the ledger has more calls started and unsettled than the cap |
| Scheduler.WaveSizeIs | rain-engine-core/src/engine.rs:1404-1408 | the cap is the smaller of the two limits, and 1 if one of them is 0 |
| CrashResume.RunKeeps | rain-engine-core/src/engine.rs:1393-1475 | a run interrupted any number of times leaves a lawful ledger in which every executed node ended with its own outcome |
| CrashResume.RunsAgree | rain-engine-core/src/engine.rs:1393-1475 | two runs of one batch that came to rest agree on every status, whatever interrupted and resumed them: crash and resume change nothing |
| CrashResume.AcyclicRun | rain-engine-core/src/engine.rs:1393-1475 | on an acyclic batch the interrupted run ends with every node settled as the recursive specification says |
| CrashResume.FinishedStaysPut | rain-engine-core/src/engine.rs:1412-1475 | a further call on a finished batch writes no checkpoint |
| CrashResume.ResultPositions | rain-engine-core/src/engine.rs:1477-1486 | the results returned are those of exactly the nodes settled during the call, once each, in graph order |
| CrashResume.AllFailedMeans | rain-engine-core/src/engine.rs:1487-1491 | a call reports that all failed exactly when no node succeeded during it |
| Overlays.PatchPolicy | rain-engine-core/src/types.rs:985-1004 | an applied overlay leaves every limit it does not patch, makes every limit it patches the patch or 1, whichever is larger, and touches nothing else; any other overlay changes nothing |
| Overlays.ActiveIsTop | rain-engine-core/src/types.rs:1420-1444 | in every run of self-improvement the two-pass scan finds the top of the stack on which applying pushes and rolling back pops |
| Overlays.StackStep | rain-engine-core/src/engine.rs:2207-2247 | a rollback always names the overlay on top of the stack, and removes it |
| Overlays.RollbackRestores | rain-engine-core/src/engine.rs:2207-2247 | rolling an overlay back restores the effective policy in force before it was applied, whatever was applied and rolled back in between |
| Overlays.NeverActiveAgain | rain-engine-core/src/types.rs:1420-1444 | an overlay that was ever rolled back is never active again |
| Overlays.NextTuningAllowed | rain-engine-core/src/engine.rs:1932-1960 | every tuning that self-improvement appends keeps the run lawful: rollbacks name the active overlay, proposals carry a fresh id |
| Overlays.RollbackIff | rain-engine-core/src/engine.rs:2207-2229 | an outcome rolls back if and only if self-improvement acts on it, rollback is enabled, an overlay is in force and the stop reason is a provider failure, a missed deadline or an abort |
| Overlays.TuningIff | rain-engine-core/src/engine.rs:2249-2357 | otherwise there is no tuning unless a timed-out provider, the step limit or the deadline asks for more, or an abort mentions a cost; one that mentions a cost is refused, one in automatic mode applied, any other proposed |
| Overlays.AppliedRaises | rain-engine-core/src/engine.rs:2249-2357 | after an applied tuning the limit its stop reason names, and only that one, is raised above the base policy's: strictly above the limit in force before, to the least integer not below the guarded percentage increase |
| Overlays.ProjectionExact | rain-engine-core/src/engine.rs:2207-2357 | the policy projected in the next tuning record, rollbacks included, is the one in force afterwards if and only if an applied overlay patches every limit on which the policy in force differs from the base, or a rollback leaves every limit as it was |
| Overlays.StepLimitForgotten | rain-engine-core/src/types.rs:1914-1919 | a raised step limit is lost when a deadline overlay follows, although its record projects both |
| Overlays.RollbackMisprojects | rain-engine-core/src/engine.rs:2230-2246 | the record of a rollback projects the raised step limit it takes back |
| Overlays.RollbackNeverProjects | rain-engine-core/src/engine.rs:2230-2246 | in a run over one base policy every rollback record projects some limit higher than the policy of later advances has it |
| Overlays.ProjectionInRun | rain-engine-core/src/engine.rs:2207-2357 | in a run over one base policy the record of a tuning projects the policy of later advances if and only if it is no rollback and, when its overlay was applied over another one in force, patches what that one patched |
| Overlays.ActiveAfter | rain-engine-core/src/types.rs:1420-1444 | the overlay active after a tuning is the one it applied, the one beneath the active one after a rollback, and otherwise the same |
| Overlays.IncreaseBounds | rain-engine-core/src/engine.rs:2359-2365 | an increase by 1 to 200 percent adds at least one and at most triples max(1, value) |
| Overlays.ClimbBounds | rain-engine-core/src/engine.rs:2249-2357 | k successive step-limit tunings strictly raise the effective limit, to at least the old one plus k and at most 3^k times max(1, old one) |
| Advances.EffectiveIsTop | rain-engine-core/src/types.rs:1914-1919 | in every run each limit in force is the patch of the overlay on top of the stack, at least 1, or the base policy's limit, and nothing else differs from the base |
| Projections.FindPendingByToken | rain-engine-core/src/memory.rs:498-522 | the loop returns the latest pending record of the token that no later resolution closed |
| Projections.PendingIff | rain-engine-core/src/memory.rs:498-521 | a pending record is found under its token if and only if it is the last one recorded under it and was not resolved since |
| Projections.OutcomeByKeyWitness | rain-engine-core/src/memory.rs:478-496 | a key has an outcome if and only if one was recorded under it, and the one found is recorded and carries that key |
| Projections.OutcomeByKeyLatest | rain-engine-core/src/memory.rs:478-496 | the outcome found is the latest one recorded with that key |
| Projections.CountOutcomesExact | rain-engine-core/src/engine.rs:2200-2205 | the observations counted are the positions of the ledger that hold an outcome |
| Projections.ActiveTriggerAppend | rain-engine-core/src/types.rs:1588-1601 | an outcome clears the active trigger, the first trigger after it becomes active and stays so |
| Projections.StepCountAppend | rain-engine-core/src/types.rs:1603-1621 | an outcome resets the step count, a decision or a deliberation adds one, nothing else changes it |
| FailureStreak.CutWindows | rain-engine-core/src/types.rs:1623-1660 | the loop computes the windows of `CodeWindows` |
| FailureStreak.CurrentConsecutiveToolFailureSteps | rain-engine-core/src/types.rs:1623-1675 | the loops count the failing windows at the end |
| FailureStreak.CodeWindowsExact | rain-engine-core/src/types.rs:1623-1660 | the loop makes one window per decision, holding the stray results before the decision and then the decision's own |
| FailureStreak.WindowsExactIff | rain-engine-core/src/types.rs:1623-1660 | the windows are the decisions' own results if and only if no result outside an open decision is followed by a decision |
| FailureStreak.StreakIsLongestRun | rain-engine-core/src/types.rs:1623-1675 | without strays the streak is the longest run of latest decisions that each called at least one skill and got exactly one result per call, each an error |
| FailureStreak.StreakReaches | rain-engine-core/src/types.rs:1623-1675 | without strays the streak reaches a limit if and only if that many latest decisions failed so |
| FailureStreak.StreakAtMostSteps | rain-engine-core/src/types.rs:1623-1675 | on every ledger the streak is at most the step count |
| FailureStreak.StrayHidesFailure | rain-engine-core/src/types.rs:1623-1675 | a failed step after an approval resume is not counted, because the resumed call's result falls into its window |
| ActiveGraphs.ActiveIffUnfinished | rain-engine-core/src/types.rs:1551-1586 | although it only compares counts, the scan returns the last graph since the last outcome exactly when one of its nodes has no terminal checkpoint |
| ActiveGraphs.RebuiltFindsGraph | rain-engine-core/src/engine.rs:643-663 | looking up the calls rebuilt from the active graph finds that same graph |
| ActiveGraphs.CallsRebuilt | rain-engine-core/src/engine.rs:643-660 | rebuilding the calls of a batch from its graph gives the very calls |
| Advances.RebuiltRecorded | rain-engine-core/src/engine.rs:643-660 | planning the calls rebuilt from any recorded graph gives that graph back |
| GraphIds.OwnsNextIdIff | rain-engine-core/src/engine.rs:2367-2424 | the graph a continuation's batch ends up in shares its id with another exactly when the batch is novel and the count stands at the suspended step with a graph of the approved calls, or at the step after it with one of the resumed decision's calls |
| GraphIds.NextIdTaken | rain-engine-core/src/types.rs:1603-1621 | the id a continuation would use next is taken only if its trigger delivered an approval and the step count has reached the suspended step or the one after it |
| GraphIds.NextIdTakenIff | rain-engine-core/src/engine.rs:546-581 | with one approval to answer, the next id is taken if and only if the count stands at the suspended step and the approved calls got a graph of their own, or at the step after it and the resumed decision's calls did |
| Advances.NextIdTakenByGuards | rain-engine-core/src/engine.rs:496-581 | after a delivered approval and a resumed decision were carried out, the same in terms of the look-ups: whether a graph had the ids of the approved calls on delivery, and of the decision's calls when decided |
| GraphIds.OthersStayLawful | rain-engine-core/src/engine.rs:1377-1391 | a batch that goes under another graph's id harms no third graph |
| GraphIds.RanOnlyIfNovel | rain-engine-core/src/engine.rs:2367-2396 | a batch that finds a recorded graph with its step and call ids never gets a graph of its own, now or later |
| GraphIds.RunByTrail | rain-engine-core/src/engine.rs:1377-1491 | an execution by the rules leaves the batch with a graph of its own at rest if and only if it was novel, brings the graph found to rest otherwise, and runs nothing and gives no results when that graph was at rest |
| GraphIds.ApprovalRanOnlyIfOwn | rain-engine-core/src/engine.rs:496-520 | approved calls whose step and call ids are those of a graph no delivery of the approval planned never run while no further delivery comes |
| GraphIds.RanStays | rain-engine-core/src/engine.rs:1412-1475 | calls that have run stay run in every later ledger that keeps the rules of graphs |
| GraphIds.RanAsAsked | rain-engine-core/src/engine.rs:1412-1475 | calls that have run in a session served by one host started only after the calls they list had succeeded, and acyclic ones ended by the recursive rule over the calls |
| GraphIdCases.RepeatedCallNeverRuns | rain-engine-core/src/engine.rs:2367-2396 | a call decided again by a later trigger, at the same step and under the same id, finds the finished graph of the first run: nothing runs and there is no result, now or later |
| GraphIdCases.RepeatedCallLawful | rain-engine-core/src/engine.rs:719-882 | the ledger of that case obeys every rule, and its batches keep apart |
| GraphIdCases.ApprovedCallNeverRuns | rain-engine-core/src/engine.rs:496-520 | when an earlier trigger ran a call under the same step and call id, of another skill or the same, the approval of the suspended call finds that finished graph, and the call never runs under this or any other delivery |
| GraphIdCases.SharedCallIdLawful | rain-engine-core/src/engine.rs:719-882 | the ledger of that case obeys every rule, and its batches keep apart |
| GraphIdCases.ResumeReusesId | rain-engine-core/src/engine.rs:546-581 | after a resume of calls suspended at step 0, the next continuation's batch gets the id of the resumed decision's graph |
| GraphIdCases.ResumedAtZeroLawful | rain-engine-core/src/engine.rs:426-581 | the ledger of that case obeys every rule |
| Sessions.GraphIdUnique | rain-engine-core/src/engine.rs:1377-1391 | in such a session a graph id is recorded once |
| Sessions.GraphsLawful | rain-engine-core/src/engine.rs:1347-1492 | every graph of a session whose graphs kept to the rules is lawful on its own, so the results about one batch apply to it |
| Sessions.BatchKeepsOrder | rain-engine-core/src/engine.rs:1347-1492 | executing a batch, whatever its calls are named and wherever it is cut short, keeps the rules of every run |
| Sessions.TrailKeepsGraphs | rain-engine-core/src/engine.rs:1347-1492 | executing a batch by the rules keeps the rules of graphs |
| Sessions.StepUsedOnlyByResume | rain-engine-core/src/types.rs:1603-1621 | the next step was used since the last outcome only if an approval of this segment resumed this step or the one before it |
| Sessions.NextStepUnused | rain-engine-core/src/types.rs:1603-1621 | in a segment without an approval the next step is unused, so the next graph id is free |
| Sessions.CleanWithoutApprovals | rain-engine-core/src/engine.rs:849-853 | in a session without approvals distinct call ids per batch are enough for batches to keep apart |
| Sessions.ResolvedOnce | rain-engine-core/src/engine.rs:426-494 | a resume token issued once is resolved at most once, however often and with whatever decisions its approval is delivered |
| Sessions.FirstDecisionGoverns | rain-engine-core/src/engine.rs:443-466 | the first recorded decision for the token stays the decision as the ledger grows |
| Sessions.RejectedNeverStarts | rain-engine-core/src/engine.rs:496-537 | once rejected, no pending call ever gets a checkpoint, in any continuation of the session |
| Sessions.ApprovedNeverRepeats | rain-engine-core/src/engine.rs:2367-2396 | a pending call with a terminal checkpoint gets no further one, however often the approval is delivered again |
| Sessions.OneGraphPerBatch | rain-engine-core/src/engine.rs:2367-2396 | a step has at most one graph with the same call ids, so a pending record becomes at most one graph |
| Sessions.GatedNeedsApproval | rain-engine-core/src/engine.rs:1354-1375 | every checkpoint of a skill that needs an approval is preceded by an approved resolution of a pending record containing the call, on every path, continuations with the override included |
| Sessions.KeyUsedOnce | rain-engine-core/src/engine.rs:259-273 | no two outcomes share an idempotency key |
| Sessions.SegmentExact | rain-engine-core/src/types.rs:1588-1601 | when each trigger is driven to its outcome before the next, the records between two outcomes hold exactly one trigger, whose id and key the closing outcome carries |
| Engine.AgentEngine.RunSelfImprovement | rain-engine-core/src/engine.rs:1864-1978 | the session stays lawful, only lessons and tunings are appended, and the tunings grow by exactly the one the outcome calls for (`Overlays.RollbackIff`, `TuningIff`, `AppliedRaises`), or by nothing if it is cut short |
| Engine.AgentEngine.Finish | rain-engine-core/src/engine.rs:1797-1854 | the outcome comes first, under the trigger's id and key, only lessons and the one tuning it calls for follow it; with a reliable store it is recorded and no trigger waits |
| Engine.AgentEngine.Suspend | rain-engine-core/src/engine.rs:1299-1336 | the calls are recorded as pending under the token, and the advance ends Suspended with that token |
| Engine.AgentEngine.ExecuteFresh | rain-engine-core/src/engine.rs:1072-1124 | calls wait for an approval, leaving the ledger alone, exactly when one of them needs it; otherwise they have run to rest in a graph of their own if and only if no recorded graph of the step had exactly their ids; a graph found in their place is brought to rest, and if it was at rest nothing runs and there are no results; when the new graph's id is taken, the batch is not recorded and runs to rest under the other graph's id |
| Engine.AgentEngine.ExecuteAction | rain-engine-core/src/engine.rs:884-1170 | which actions end the advance, with what stop reason, step count, token and key; called skills were performed and their results kept when it goes on, and calls that must wait are all recorded as pending under the token it returns |
| Engine.AgentEngine.PolicyOutcome | rain-engine-core/src/engine.rs:1172-1257 | at the step limit or the failure limit, checked in that order, nothing is decided and, unless cancelled or late, the advance ends with MaxStepsReached or PolicyAborted and the steps so far; below both only a cost ends it, and then the outcome says so |
| Engine.AgentEngine.PerformSingleStep | rain-engine-core/src/engine.rs:719-882 | whatever the provider answers, a step that ends without an outcome was within the step and failure limits, recorded a decision during this very step and performed what it called, in a graph of its own exactly when it was novel; at either limit nothing is decided or executed and the limit's own stop reason is reported; results come after the decision, and the tunings grow by the one the outcome calls for |
| Engine.AgentEngine.ResolveApproval | rain-engine-core/src/engine.rs:432-494 | an open token is resolved with the delivered decision; an already resolved one is answered with the first recorded decision and changes nothing; an unknown one is answered with nothing |
| Engine.AgentEngine.SettleApproval | rain-engine-core/src/engine.rs:496-545 | approved calls run in a graph of their own if and only if no recorded graph of the suspended step had exactly their ids, and have run under some delivery if and only if that graph came from one; a graph found at rest runs nothing and counts as all failed; rejected calls each have a permission error for a result; results are kept, and all failed is reported exactly when every one of them is an error |
| Engine.AgentEngine.SettleAndStep | rain-engine-core/src/engine.rs:496-581 | the step after a settlement is the one after the suspended step, and the streak it starts from counts one more exactly when every settled result is an error |
| Engine.AgentEngine.AdvanceApproval | rain-engine-core/src/engine.rs:426-581 | with a reliable store the approval is answered, first delivery or not: resolved, its calls refused, or run under the conditions of the settlement; an unknown token changes nothing but the outcome; otherwise the step limit applies to the step after the suspended one and the failure limit to the streak plus one if every settled result is an error, and an advance without an outcome carried out a decision of its own |
| Engine.AgentEngine.HandleTrigger | rain-engine-core/src/engine.rs:350-581 | the step count, the failure streak and the effective policy the advance works with are those of the ledger the trigger was recorded in |
| Engine.AgentEngine.AdvanceTrigger | rain-engine-core/src/engine.rs:255-581 | if an outcome was recorded under the key, a recorded outcome with that key is returned and the ledger unchanged; otherwise only this trigger is recorded, and for all answers of the provider: when as many latest decisions as the failure limit failed, or the step limit is reached, nothing is decided and the advance does not go on, else one that goes on carried out a decision of its own; a reliable store excludes errors, answers approvals, ends the approval of an unknown token as aborted, and records the outcome |
| Engine.AgentEngine.ExecuteActive | rain-engine-core/src/engine.rs:643-667 | what is unfinished of the graph is executed within the caps of the policy and brought to rest |
| Engine.AgentEngine.ResumeGraph | rain-engine-core/src/engine.rs:643-675 | the unfinished graph of an interrupted advance is brought to rest and the results of the calls settled are kept, nothing is decided, and the context stays good for the graphs of earlier segments |
| Engine.AgentEngine.AdvanceContinue | rain-engine-core/src/engine.rs:583-709 | without an active trigger, so after every outcome, nothing changes; otherwise the unfinished graph is at rest; when as many latest decisions as the failure limit each got one failed result per call, or the step limit is reached, nothing is decided and the advance does not go on, reporting that limit unless cancelled or late; one that goes on carried out a decision of its own; the tunings grow by exactly the one the outcome calls for |
| Engine.AgentEngine.Advance | rain-engine-core/src/engine.rs:238-243 | every request keeps the session orderly, however it ends and whatever the provider answers, and adds at most the one tuning some outcome calls for; while the batches keep apart it keeps the rules of graphs, and every executed call of every recorded graph ends with its own outcome under the request's host if all did before |
| Advances.ResumedLooksUnfinished | rain-engine-core/src/engine.rs:661-683 | after a resume the context shows a call just settled as unfinished, and a batch with the step and call ids of its graph finds that graph |
| Runtime.RunUntilTerminalTrace | rain-engine-runtime/src/lib.rs:1567-1588 | the driving loop ends within the effective step limit plus one advances, on every answer of the provider; with a reliable store it ends with an outcome, replayed or recorded, after which no trigger waits |
| Runtime.ServeSession | rain-engine-core/src/engine.rs:238-243 | from an empty session, any requests in any order with any answers, each cut short anywhere, lead to orderly ledgers only, and to lawful ones as far as the batches keep apart; served by one host, every graph at rest then holds the statuses its batch evaluates to; under one base policy, each tuning is the one an outcome called for over it, so the results about runs of tunings apply |
| Runtime.SessionsAgree | rain-engine-core/src/engine.rs:1393-1475 | two sessions under like hosts that hold one batch at rest agree on all its statuses |
| Runtime.DriveSession | rain-engine-runtime/src/lib.rs:1567-1588 | with a reliable store, driving each trigger to its outcome before the next makes every trigger arrive when none waits |
| Neighbors.GraphNeighbors | rain-engine-memory/src/lib.rs:99-140 | the search terminates and returns, once per key and as the earliest edge of that key, exactly the edges with an endpoint at undirected shortest distance below the hop bound |
| Neighbors.SameKeyMeans | rain-engine-memory/src/lib.rs:99-140 | two edges have the same key exactly when they agree on both endpoints and the relation |
| Leases.CoordinationStore.ClaimTrigger | rain-engine-core/src/coordination.rs:107-124 | a claim is granted exactly when the key has no entry, and then adds one |
| Leases.CoordinationStore.RenewClaim | rain-engine-core/src/coordination.rs:133-145 | a renewal changes the expiry of an entry with this id, if there is one, and nothing else |
| Leases.CoordinationStore.ReleaseClaim | rain-engine-core/src/coordination.rs:150-157 | a release removes an entry with this id, if there is one, and nothing else |
| Leases.CoordinationStore.PruneExpired | rain-engine-core/src/coordination.rs:86-91 | pruning removes exactly the entries that are not later than the clock |
| Leases.LeaseExcludes | rain-engine-core/src/coordination.rs:101-158 | in every interleaving of critical sections a granted claim that is not released and outlives every prune keeps its key, with the expiry last renewed, and no other claim on the key is granted |
| Leases.HeldIffUndisturbed | rain-engine-core/src/coordination.rs:101-158 | a claim is held if and only if it was neither released nor met by a prune after its expiry |
| Leases.StaleIdHarmless | rain-engine-core/src/coordination.rs:127-158 | renewing or releasing with an id that lost its key alters nothing, the successor's claim included |
| AgentStates.AgentState | rain-engine-core/src/types.rs:1677-1792 | the loop computes the fold of one transition per event |
| AgentStates.IdsInFirstSeenOrder | rain-engine-core/src/types.rs:2194-2205 | goal, task, artifact and resource ids are exactly the created ones, distinct, in the order they were first seen |
| AgentStates.TaskStatusExact | rain-engine-core/src/types.rs:1691-1730 | a task is known exactly when it was planned; it is Done exactly when the last event about it is its completion or a plan with that status, and likewise Failed, Blocked, Abandoned, WaitingHuman and Running; Pending or Ready exactly when the last event is a plan with that status |
| AgentStates.TaskExact | rain-engine-core/src/types.rs:1691-1730 | a known task has the content and dependencies of its last plan, the status its last event leaves it with, and the assignee of the last claim since that plan, or the plan's own |
| AgentStates.PendingWakeIff | rain-engine-core/src/types.rs:1737-1747 | a wake is pending if and only if it is the last one scheduled and no later completion carries its id |
| Planner.Plan | rain-engine-cognition/src/research_planner.rs:139-166 | the loops with the id map emit the goal and one task per planned task, blocked by the latest earlier tasks its dependencies name |
| Planner.PlanShape | rain-engine-cognition/src/research_planner.rs:121-170 | a plan becomes its goal, then one task per planned task, numbered on from the goals and tasks there are, unassigned, Blocked exactly when something blocks it and Ready otherwise |
| Planner.PlansIffIdle | rain-engine-cognition/src/research_planner.rs:39-60 | a plan becomes events exactly when no task is Pending, Ready, Running, Blocked or waiting for a human |
| Planner.DecimalValue | rain-engine-cognition/src/research_planner.rs:121-150 | the numerals in names stand for their numbers, without leading zeros |
| Planner.AcyclicIffNoSelf | rain-engine-cognition/src/research_planner.rs:139-149 | every dependency of a plan points to an earlier task of the same plan if and only if no planned task lists its own id |
| Planner.DependenciesKept | rain-engine-cognition/src/research_planner.rs:144-162 | a task keeps all its dependencies exactly when each names a task planned no later, and is Ready exactly when none does |
| Planner.NumberedIffPrefixes | rain-engine-core/src/engine.rs:334-348 | the projected task ids of a session are task-1 to task-n, in order, if and only if what was recorded of each plan is a prefix of it; a hole is never filled |
| Planner.SessionAcyclic | rain-engine-cognition/src/research_planner.rs:139-166 | over a whole session, lost appends included, every task waits for lower-numbered tasks only |

## Left out

- Execution plans: the model has no plan records, and a decision always comes from the provider.
- The state projection cache: every advance reads the ledger. The cached copy lacks records written during execution.
- Durability of tool results: they are appended after the whole batch, so the crash theorems speak of checkpoints and executions, not of result records.
- Retries inside one execution: `run_prepared_call` is the one output the skill returns in the end.
- `results_by_call`: it is filled but never read, so the scheduler model does not carry it.
- Store read errors: a trigger is recorded before the session is loaded, and an advance that then cannot load it reports a storage failure. A failing look-up of the idempotency key is ignored and the request is processed anew, so `Sessions.KeyUsedOnce` presumes that this look-up does not fail.
- Panicking skills: a panic ends the whole execution call with an error, which even a reliable store does not exclude; here every execution returns an output.
- Clocks, cost and cancellation: whether a limit of this kind is hit is a free choice of each step.
- Kernel events, intents, usage, cache, reflection, performance and preference records: one kind of record that nothing below reads back; `AgentStates` models kernel events on their own.
- Free text: of an outcome's detail only whether it mentions a timeout or a cost is kept, and skill arguments, retry policy and the dry-run flag are one opaque payload.
- Schema validation, scopes, the native-execution policy and the circuit breaker: one finding each per call, in the order the code checks them.
- Floating point: percentages are real numbers, so rounding and the saturation of the casts are not modelled.
- Integer widths: limits and counters are unbounded.
- The shadow task that may elevate a proposed overlay: no record kind of it is part of this model.
- Sequence numbers under concurrent appends, the SQL stores, Redis and Valkey, whose renewal is a read followed by a separate write.
- The scratchpad of the coordination store: it shares only the prune with the leases.
- Leases.CoordinationStore.ClaimTrigger: covers the locked section only; that a prune comes first is not needed, since the lease theorems hold for any interleaving of sections.
- Planner.Plan: takes the decoded plan as input; prompting the model and cutting JSON out of its answer are not modelled.
- GraphIdCases.ResumeReusesId: one family of ledgers, suspended at step 0; the same happens at any suspended step once the segment has counted that far.
- `semantic_search`, `exact_replay`, `recent_working_set`, HTTP routes, channels, provider adapters, WebAssembly execution, macros and blob storage.
