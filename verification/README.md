# Verified model of the Ryuk workflow engine

Ryuk runs inference tasks as durable workflows. This project models the parts of it that coordinate work and proves, in
Dafny, what they are supposed to guarantee over every input, every reachable state and every interleaving:

- **Dependency graphs** (`Graphs.dfy`, `GraphLog.dfy`). Construction with its peeling loop, the ten node states, the
  transition function with its fixpoint sweep, and the ordered, logged persistence of a transition.
- **The fenced graph store** (`GraphTables.dfy`, `GraphRuns.dfy`, `GraphStore.dfy`, `GraphEffects.dfy`). Claim, complete,
  validate, cancel and recover as atomic steps over node rows, artifacts and the event log; executors, a canceller and
  recovery interleave freely and read arbitrary clocks.
- **The single-task store** (`WorkflowTables.dfy`, `WorkflowRuns.dfy`, `Recovery.dfy`, `WorkflowStore.dfy`,
  `WorkflowEffects.dfy`). The lifecycle with its dispatch journal, crash recovery and startup recovery.
- **Executors and dispatchers** (`Executors.dfy`, `GraphExecutors.dfy`, `GraphWork.dfy`, `Dispatchers.dfy`). Any number of
  workers running the executors' programs against one store, a graph's workers together with their router calls on its
  one budget, and the bounded dispatcher that launches them.
- **Lease timestamps** (`Timestamps.dfy`, `Text.dfy`). ISO text order against chronological order.
- **Routing** (`Capabilities.dfy`, `Runtime.dfy`, `Ranking.dfy`, `RankingEffects.dfy`, `Router.dfy`, `Budgets.dfy`,
  `SharedBudget.dfy`). Eligibility, the scored ranking and its preference guarantee, the retry and failover loop, and
  budgets shared by concurrent calls.
- **Context fitting** (`Context.dfy`, `ContextProperties.dfy`), **admission windows** (`Admission.dfy`) and the **Newcombe
  paired interval** (`Newcombe.dfy`, `NewcombeMeaning.dfy`).

## How it is built

Code that updates things in place is a class or a method with a loop, proved against functions or relations on values; the
properties are lemmas about those. The modules named Effects and Meaning state what those functions amount to in rows,
scores and numbers. A store call is one atomic step because the source runs it in one immediate transaction. A run is any
sequence of such steps. Identifiers generated at random are fresh numbers, SHA-256 of canonical JSON is an injective
constructor, time is an integer count of microseconds, and each clock reading, engine answer and validation verdict is an
arbitrary parameter. Every lemma switches automatic induction off, so each inductive step is written out.
`dafny verify dfyconfig.toml` checks everything.

Four results are sharper than the prose in the source suggests:

- The preference guarantee of the ranking has no slack at all. `Ranking.TieIsReached` exhibits a tie at 95 points, so the
  guarantee rests on preferred deployments being enumerated first.
- The admission quota is per window, not per minute. `Admission.SpanWithinOneQuota` shows that a 60-second span keeps one
  quota unless a window opens inside it, `Admission.SpanWithinTwiceQuota` that it never exceeds twice the quota, and
  `Admission.TwiceQuotaIsReached` that every opening inside a span can double it, under every policy;
  `Admission.OneQuotaExactly` puts the two directions together.
- The evidence check of reconciliation can never fail on a reachable row (`WorkflowRuns.EvidenceNeverFails`), nor can the
  write-ordering loop of a graph transition stall (`GraphLog.OrderChanges`): both defensive branches are dead.
- `claim_graph_node` writes RUNNING without calling the transition function; `GraphTables.ClaimIsTransition` shows that it
  coincides with it.

## Model

| member | source | states |
|---|---|---|
| `Graphs.RequireAcyclic` | backend/workflows/graph.py:100-111 | the peeling loop accepts exactly the dependency relations that admit a strictly increasing rank |
| `Graphs.Construct` | backend/workflows/graph.py:45-111 | construction succeeds exactly for canonical submissions whose dependencies admit a rank, and keeps ids and dependencies |
| `Graphs.AscendingExactly` | backend/workflows/graph.py:91-94 | unique ids in canonical sorted order are exactly the strictly ascending ones |
| `Graphs.CanonicalMeans` | backend/workflows/graph.py:45-98 | the construction checks pass exactly for 1 to 100 nodes with strictly ascending, well-formed ids, each with strictly ascending, well-formed dependencies on other nodes of the submission |
| `Graphs.CycleHasNoRank` | backend/workflows/graph.py:104-110 | a nonempty set in which every node waits on a member admits no rank |
| `Graphs.InitialIsValid` | backend/workflows/graph.py:141-151 | the initial state satisfies the state invariant |
| `Graphs.RefreshWaitingNodes` | backend/workflows/graph.py:245-260 | the sweep terminates in a state that settles every blocked node by its final dependencies and touches nothing else |
| `Graphs.ClosureUnique` | backend/workflows/graph.py:245-260 | there is only one such state, so the node order of the sweep does not matter |
| `Graphs.NextIsValid` | backend/workflows/graph.py:178-243 | every allowed transition of a valid state yields a valid state, so the constructor never raises inside a transition |
| `Graphs.QuietTransition` | backend/workflows/graph.py:230-243 | a target that is not terminal has no derived changes, so skipping the sweep there is right |
| `Graphs.Transition` | backend/workflows/graph.py:230-243 | refused exactly for an unknown node or a forbidden target; otherwise the valid closure of the update |
| `GraphEffects.AllowedIsTable` | backend/workflows/graph.py:154-170 | the explicit transitions are the twelve pairs of the table and no other |
| `Graphs.SuccessReleases` | backend/workflows/graph.py:245-260 | success readies exactly the blocked nodes whose dependencies have now all succeeded, and changes nothing else |
| `Graphs.FailureSkips` | backend/workflows/graph.py:245-260 | any other terminal target skips exactly the blocked descendants |
| `Graphs.ScheduledAncestorsSucceeded` | backend/workflows/graph.py:190-213 | every transitive ancestor of a node past BLOCKED and not SKIPPED has succeeded |
| `Graphs.SkippedHasCause` | backend/workflows/graph.py:190-213 | every skipped node has a failed, rejected or cancelled transitive ancestor |
| `Graphs.UnfinishedHasActive` | backend/workflows/graph.py:190-228 | a blocked node has a transitive ancestor that can move |
| `Graphs.NoDeadlock` | backend/workflows/graph.py:226-228 | in every valid state that is not terminal some node is READY, RUNNING, AWAITING_VALIDATION or UNCERTAIN |
| `Graphs.RunIsBounded` | backend/workflows/graph.py:154-170 | every run of an N-node graph has at most 4N explicit transitions and keeps every state valid |
| `Graphs.ResultGateAgrees` | backend/workflows/store.py:951-964 | all sinks succeeded if and only if the aggregate status is succeeded |
| `GraphLog.OrderChanges` | backend/workflows/store.py:480-503 | the ordering loop never stalls and emits exactly the changed nodes once each, trigger first, dependencies before dependents |
| `GraphLog.ReplayEvents` | backend/workflows/store.py:504-520 | replaying appended events overwrites exactly their nodes |
| `GraphLog.TransitionReplays` | backend/workflows/store.py:469-520 | if the log replays to the table before a transition, it does so after it |
| `GraphTables.ClaimIsTransition` | backend/workflows/store.py:662-712 | the row and event a claim writes directly are the transition of the node to RUNNING |
| `GraphTables.StepKeepsInv` | backend/workflows/store.py:662-942 | every step keeps states valid, the log equal to the table, and each row's fence, lease and artifact as its state demands |
| `GraphRuns.RunKeepsInv` | backend/workflows/store.py:662-1023 | the invariant holds after every interleaving |
| `GraphRuns.RunEndures` | backend/workflows/store.py:662-1023 | over every run a scheduled node stays scheduled, a terminal row never changes, and an accepted artifact is never altered |
| `GraphRuns.SucceededOwnsAccepted` | backend/workflows/store.py:737-854 | a node has succeeded exactly when it owns an accepted artifact, and it owns at most one artifact |
| `GraphRuns.ReleasedKeepsDependencies` | backend/workflows/store.py:856-894 | a released node reads the same accepted dependency artifacts before and after any run |
| `GraphRuns.ClaimantFindsDependencies` | backend/workflows/graph_executor.py:67-81 | after a claim, whatever cancels or recovers meanwhile, the executor finds an accepted artifact for each dependency |
| `GraphRuns.NodeClaimedOnce` | backend/workflows/store.py:662-712 | after a claim of a node no other claim of it is granted in any run, so a node listed twice runs once |
| `GraphRuns.ResultsHaveEvidence` | backend/workflows/store.py:944-985 | once the result gate opens, every sink has its accepted and validated artifact |
| `GraphRuns.CancelOutcome` | backend/workflows/store.py:910-942 | after cancellation each node is terminal, uncertain, or blocked behind an uncertain ancestor; all terminal if none was uncertain; no lease is held |
| `GraphRuns.CancelledHolderRefused` | backend/workflows/store.py:714-735 | a holder at the time of cancellation is refused after every later run, its node staying cancelled |
| `GraphRuns.CancelledForGood` | backend/workflows/store.py:910-942 | after cancellation and any later run no lease is held, nothing can be claimed and nothing can be validated |
| `GraphStore.LogReproducesTable` | backend/workflows/store.py:313-520 | from creation on, after every interleaving, the whole log replays to the node table |
| `GraphStore.ClosureAbsorbs` | backend/workflows/store.py:910-942 | settling, cancelling one more live node and settling again equals cancelling both and settling once |
| `GraphStore.CreatedHasInv` | backend/workflows/store.py:313-397 | what creation writes satisfies the store invariant |
| `GraphStore.Store.constructor` | backend/workflows/store.py:313-397 | creation writes one row and one event per node with the initial states |
| `GraphStore.Store.BindBudget` | backend/workflows/store.py:547-585 | the first binding sets the deadline, later ones leave it alone |
| `GraphStore.Store.TransitionNode` | backend/workflows/store.py:469-520 | refused without a write, or the closure is stored and logged in a legal write order |
| `GraphStore.Store.ClaimNode` | backend/workflows/store.py:662-712 | granted exactly for a READY node under a bound, unexpired budget; returns the new fence |
| `GraphStore.Store.CompleteNode` | backend/workflows/store.py:737-782 | granted exactly to the live lease holder; stores one artifact and moves the node |
| `GraphStore.Store.ValidateNode` | backend/workflows/store.py:807-854 | succeeds exactly for an awaiting node or a stored report under the same policy; judges an awaiting node once, returns a stored report unchanged, changes nothing otherwise |
| `GraphStore.Store.FenceNode` | backend/workflows/store.py:932-939 | the move and the fencing update together are one move to the fenced row |
| `GraphStore.Store.CancelLive` | backend/workflows/store.py:916-939 | the node-by-node loop attempts only allowed transitions and ends in the single closure of cancelling every live node |
| `GraphStore.Store.CancelGraph` | backend/workflows/store.py:910-942 | cancellation equals one closure over all live nodes and keeps the invariant |
| `GraphStore.Store.RecoverNodes` | backend/workflows/store.py:987-1023 | succeeds exactly when the limit is valid and not exceeded, and then fences exactly the expired running nodes as uncertain; the two refusals are told apart and change nothing |
| `GraphStore.Store.FenceExpired` | backend/workflows/store.py:1002-1014 | the recovery loop fences the listed rows and no others |
| `GraphEffects.ClaimCondition` | backend/workflows/store.py:662-700 | a claim is granted exactly for a READY node under a bound, unexpired deadline, to a well-formed owner for 1 to 3600 seconds |
| `GraphEffects.ClaimGrantsLease` | backend/workflows/store.py:700-735 | the claimed node runs under the next fence for that owner, and only that owner, that fence and an instant before the lease ends are let through afterwards |
| `GraphEffects.HolderWhileLive` | backend/workflows/store.py:714-735 | the holder is let through exactly while its lease is live |
| `GraphEffects.CompletionEffect` | backend/workflows/store.py:737-782 | only a live holder completes; the node then awaits validation on success and fails otherwise, with the content filed as its artifact, not yet accepted |
| `GraphEffects.DependenciesMean` | backend/workflows/store.py:856-894 | the dependency read succeeds exactly when every dependency has succeeded with an accepted artifact, and returns each dependency's own |
| `GraphEffects.RecoveryEffect` | backend/workflows/store.py:987-1023 | recovery takes exactly the running nodes whose lease is over, with the fence raised and owner and lease cleared; a node with a live lease keeps its row |
| `GraphEffects.CancellationEffect` | backend/workflows/store.py:910-942 | exactly the READY, RUNNING and AWAITING_VALIDATION nodes are cancelled and fenced; of the others only waiting ones change, and only to SKIPPED |
| `GraphEffects.VerdictIsTheJudges` | backend/workflows/store.py:807-854 | the node succeeds and its artifact is accepted exactly when the validator accepts the stored content under the given policy, and is rejected otherwise |
| `GraphEffects.JudgedOnce` | backend/workflows/store.py:807-854 | in every reachable store exactly the awaiting nodes are judged, and a stored report answers exactly the validations under its own policy |
| `GraphEffects.VerdictsAreHonest` | backend/workflows/store.py:807-854 | from creation on, over every interleaving, a judged node has succeeded exactly when the validator accepts its stored content under the reported policy |
| `WorkflowRuns.ApplyKeepsInv` | backend/workflows/store.py:1064-1367 | every call keeps the invariant that ties row, journal, artifact, report and event history together |
| `WorkflowRuns.RunKeepsInv` | backend/workflows/store.py:1064-1367 | the invariant holds after every interleaving with arbitrary clock readings |
| `WorkflowRuns.ExactlyOnce` | backend/workflows/store.py:1064-1367 | each workflow's events strictly advance (one claim, one dispatch, one outcome, one validation), it owns at most one artifact, and it has succeeded exactly when its report accepts |
| `WorkflowRuns.ClaimedOnceOnly` | backend/workflows/store.py:1064-1092 | once a workflow has left READY no claim of it is granted after any run |
| `WorkflowRuns.CreateMeans` | backend/workflows/store.py:246-269 | when a creation succeeds, conflicts or is refused, and what it leaves alone; a tenant's key names at most one workflow |
| `WorkflowRuns.CreateIsIdempotent` | backend/workflows/store.py:246-269 | after a successful creation and any run of calls, the same creation returns the same workflow, one with another request conflicts, and neither changes anything |
| `WorkflowRuns.ReportMatches` | backend/workflows/store.py:1306-1315 | a stored report always names the stored artifact and its digest, so a replayed validation can only conflict over the policy |
| `WorkflowRuns.EvidenceNeverFails` | backend/workflows/store.py:1194-1206 | in every reachable uncertain row with an outcome, journal fence + 1 equals the row fence and the digest matches |
| `WorkflowRuns.RecoveryAgreesWithCompletion` | backend/workflows/store.py:1142-1274 | after a recorded outcome, completion by the holder and expiry plus reconciliation reach the same state, result and artifact |
| `WorkflowRuns.CompletionMustMatchRecord` | backend/workflows/store.py:1211-1239 | a completion is granted only with the recorded outcome |
| `Recovery.StartupRefines` | backend/workflows/store.py:1369-1456 | startup recovery equals per-tenant expiry followed by reconciliation of each uncertain row: same tables, same history per workflow, scanned = reconciled + unresolved |
| `Recovery.StartupIdempotent` | backend/workflows/store.py:1369-1456 | repeating it at the same instant changes nothing and reports nothing expired or reconciled |
| `Recovery.StartupExhausts` | backend/workflows/store.py:1369-1456 | afterwards nothing is expired, nothing can be reconciled, and no new candidate appeared |
| `Recovery.StartupReportIsTrue` | backend/workflows/store.py:1395-1456 | each reconciled workflow is in the reported state, and each unresolved one is uncertain for want of an outcome, never for invalid evidence |
| `Recovery.StartupReportIsComplete` | backend/workflows/store.py:1369-1456 | every scanned workflow is listed, as reconciled or as unresolved, the two lists together are as long as the scan, and the expired ones are exactly the candidates that were running |
| `Recovery.SelectInOrder` | backend/workflows/store.py:1354-1381 | what a recovery query returns is in row order |
| `Recovery.StartupIsRun` | backend/workflows/store.py:1351-1456 | startup recovery and `recover_expired` are runs of single-row calls, so what holds over every run holds across them |
| `Recovery.StartupKeepsInv` | backend/workflows/store.py:1369-1456 | it keeps the store invariant |
| `WorkflowStore.Store.constructor` | backend/workflows/store.py:35-60 | an empty store satisfies the invariant |
| `WorkflowStore.Store.CreateWorkflow` | backend/workflows/store.py:222-269 | returns the one workflow that has the key and the request, conflicts exactly when the key stands for another request, refuses exactly malformed identifiers |
| `WorkflowStore.Store.ClaimWorkflow` | backend/workflows/store.py:1064-1092 | granted exactly for a READY row of the tenant; the fence rises by one |
| `WorkflowStore.Store.LeaseHeld` | backend/workflows/store.py:1094-1114 | true exactly for the owner and fence of a running row before its lease ends |
| `WorkflowStore.Store.Dispatch` | backend/workflows/store.py:1116-1140 | granted exactly to the holder of an undispatched row |
| `WorkflowStore.Store.Record` | backend/workflows/store.py:1142-1179 | writes the outcome once and afterwards accepts only the same outcome |
| `WorkflowStore.Store.Commit` | backend/workflows/store.py:1241-1274 | stores artifact, result, state and event together |
| `WorkflowStore.Store.CompleteWorkflow` | backend/workflows/store.py:1211-1239 | granted exactly to the holder whose result matches the journal, if there is one |
| `WorkflowStore.Store.ReconcileUncertain` | backend/workflows/store.py:1181-1209 | commits the recorded outcome of an uncertain row and reports the resulting state |
| `WorkflowStore.Store.ValidateWorkflow` | backend/workflows/store.py:1276-1328 | succeeds exactly for an awaiting workflow or a stored report under the policy in force; judges once, returns a stored report unchanged, and refuses a policy other than the bound one |
| `WorkflowStore.Store.CancelWorkflow` | backend/workflows/store.py:1330-1349 | fences a live row as cancelled; true exactly when the row is then cancelled |
| `WorkflowStore.Store.RecoverExpiredRows` | backend/workflows/store.py:1351-1367 | fences exactly the tenant's expired rows and counts them |
| `WorkflowStore.Store.SettleRows` | backend/workflows/store.py:1395-1447 | the reconciliation loop sorts each scanned row into reconciled, with its state, or unresolved, with its reason |
| `WorkflowStore.Store.RecoverStartup` | backend/workflows/store.py:1369-1456 | the bounded transaction computes exactly the specified recovery, or changes nothing when the limit is invalid or exceeded |
| `WorkflowEffects.ClaimGrantsLease` | backend/workflows/store.py:1064-1114 | a claim is granted exactly for a READY row of the tenant, a well-formed owner and 1 to 3600 seconds; afterwards exactly that owner, under the next fence and before now + lease, is let through |
| `WorkflowEffects.HolderWhileLive` | backend/workflows/store.py:1094-1114 | the holder is let through exactly while its lease is live |
| `WorkflowEffects.LeaseTextDecides` | backend/workflows/store.py:1094-1114 | the lease instants of the tables stand for the stored texts: a lease is live exactly when the check on its text accepts it, and over exactly when the text comparison of recovery selects it |
| `WorkflowEffects.DispatchEffect` | backend/workflows/store.py:1116-1140 | a dispatch is granted exactly to a live holder of a workflow without a journal row, and only opens that row |
| `WorkflowEffects.RecordEffect` | backend/workflows/store.py:1142-1179 | an outcome is accepted exactly from a live holder that dispatched under its fence, as a JSON object, and once recorded only the same object and verdict again |
| `WorkflowEffects.CompleteEffect` | backend/workflows/store.py:1211-1274 | a completion is granted exactly to a live holder with a JSON object that equals the recorded outcome, if there is a journal row; the workflow then awaits validation on success and fails otherwise |
| `WorkflowEffects.EvidenceCondition` | backend/workflows/store.py:1194-1206 | evidence is trusted exactly when it was recorded for the tenant one fence ago, as an object under its own digest with a verdict of zero or one |
| `WorkflowEffects.ReconcileEffect` | backend/workflows/store.py:1181-1209 | an uncertain workflow with a recorded outcome gets exactly that content and verdict committed; without one, or in another state, nothing changes |
| `WorkflowEffects.SelectedMeans` | backend/workflows/store.py:1354-1381 | recovery selects exactly the running rows whose lease is over, of the tenant or at startup of all, and startup the uncertain rows besides |
| `WorkflowEffects.RecoverExpiredEffect` | backend/workflows/store.py:1351-1367 | exactly the selected rows become UNCERTAIN with the fence raised and owner and lease cleared; every other row stays as it is |
| `WorkflowEffects.LiveLeaseSpared` | backend/workflows/store.py:1351-1456 | a row with a live lease is unchanged and unreported after `recover_expired` and after startup recovery |
| `WorkflowEffects.OverdueLeaseTaken` | backend/workflows/store.py:1351-1456 | a running row whose lease is over is fenced and counted by both, so its holder is refused |
| `WorkflowEffects.CancelEffect` | backend/workflows/store.py:1330-1349 | cancelling takes exactly a READY, RUNNING or AWAITING_VALIDATION row of the tenant from its holder and touches no other table |
| `WorkflowEffects.VerdictIsTheJudges` | backend/workflows/store.py:1276-1328 | an awaiting workflow becomes SUCCEEDED exactly when the validator accepts its stored content under the policy in force, and REJECTED otherwise; the bound policy is in force, else the one the call names, and a call that names another is refused |
| `WorkflowEffects.OnlyAwaitingIsJudged` | backend/workflows/store.py:1316-1317 | a workflow of another tenant or in another state is left alone |
| `WorkflowEffects.ReplayCondition` | backend/workflows/store.py:1306-1315 | a stored report answers exactly the validations whose policy in force is its own |
| `WorkflowEffects.VerdictsAreHonest` | backend/workflows/store.py:1276-1328 | over every interleaving from an empty store, a judged workflow has succeeded exactly when the validator accepts its stored content under the reported policy |
| `Executors.EngineCalledOnce` | backend/workflows/executor.py:60-82 | among any number of workers launched for one workflow, at most one is granted its claim and at most one calls the engine |
| `Executors.ReportedPayloadIsTheResult` | backend/workflows/executor.py:83-114 | what a worker recorded, and nothing else, becomes the workflow's result, whoever commits it |
| `Executors.StepKeepsPool` | backend/workflows/executor.py:43-114 | every worker step and every foreign store call keeps the workers' claims, calls and outcomes consistent with the store |
| `Executors.UndisturbedWorkerFinishes` | backend/workflows/executor.py:43-114 | four undisturbed steps of a worker whose claim is granted and whose calls come before its lease ends commit exactly the engine's payload, awaiting validation on success and failed otherwise |
| `GraphExecutors.RouterCalledOnce` | backend/workflows/graph_executor.py:67-87 | among any number of workers launched for one node, at most one is granted its claim and at most one calls the router |
| `GraphExecutors.FiledPayloadIsTheArtifact` | backend/workflows/graph_executor.py:78-129 | a granted worker always finds its dependencies' accepted artifacts and what it read stays what they hold; what it filed is the node's artifact for good, and a succeeded node's is accepted |
| `GraphExecutors.StepKeepsPool` | backend/workflows/graph_executor.py:56-129 | every worker step and every foreign store call keeps the workers' claims, inputs and payloads consistent with the store |
| `GraphExecutors.UndisturbedWorkerFinishes` | backend/workflows/graph_executor.py:56-129 | four undisturbed steps of a worker whose claim is granted and which files before its lease ends leave the payload as the node's artifact, judged: FAILED, SUCCEEDED or REJECTED as the payload and the validator say |
| `GraphWork.GraphKeepsItsBudget` | backend/workflows/graph_executor.py:67-129 | over every interleaving of a graph's workers, their router calls, cancellation and recovery: no node accounts for two router calls, all attempts of all nodes stay within max_attempts and all tokens within the cap, and each worker filed what its own call ended with |
| `GraphWork.StepKeepsWork` | backend/workflows/graph_executor.py:56-129 | every step keeps each router call tied to the one worker that made it, and the budget row to what the calls took |
| `Dispatchers.ListReadyIsClaimable` | backend/workflows/store.py:1025-1037 | the listing is bounded, repeats nothing, holds only READY rows, and omits one only when full |
| `Dispatchers.ListReadyInOrder` | backend/workflows/store.py:1025-1037 | the listing keeps the row order and passes over no READY row |
| `Dispatchers.OwnersDiffer` | backend/workflows/dispatcher.py:170-171 | no two executions of a dispatcher claim under the same owner |
| `Dispatchers.OwnerIsIdentifier` | backend/workflows/dispatcher.py:170-171 | an owner is the prefix, a colon and the decimal number, and a valid identifier, so no claim is refused for its owner |
| `Dispatchers.OpenDispatcher` | backend/workflows/dispatcher.py:35-79 | a dispatcher exactly for a canonical prefix and a concurrency of 1 to 64, with nothing dispatched |
| `Dispatchers.LocalDispatcher.Accounting` | backend/workflows/dispatcher.py:132-178 | dispatched = completed + conflicts + failures + in flight, and those in flight fit the slots |
| `Dispatchers.LocalDispatcher.StartService` | backend/workflows/dispatcher.py:93-101 | starts only once |
| `Dispatchers.LocalDispatcher.RequestStop` | backend/workflows/dispatcher.py:103-114 | stops at once when new, otherwise asks the coordinator to stop |
| `Dispatchers.LocalDispatcher.Reap` | backend/workflows/dispatcher.py:158-159 | forgets exactly the ended executions |
| `Dispatchers.LocalDispatcher.Intake` | backend/workflows/dispatcher.py:163-179 | one turn launches one execution per listed workflow, never beyond the concurrency limit |
| `Dispatchers.LocalDispatcher.EndExecution` | backend/workflows/dispatcher.py:132-156 | each ending is counted once, in the right counter |
| `Dispatchers.LocalDispatcher.RecordFailure` | backend/workflows/dispatcher.py:154-156 | the recent failures are the last hundred |
| `Dispatchers.RecentIsEnd` | backend/workflows/dispatcher.py:154-156 | the recent failures are all of up to a hundred, and the last hundred of more |
| `Dispatchers.LocalDispatcher.Drain` | backend/workflows/dispatcher.py:193-198 | once everything in flight has ended, every dispatch is accounted for and the dispatcher is stopped |
| `Timestamps.IsoOrderIsTime` | backend/workflows/store.py:209-213 | text order of UTC isoformat strings is chronological order, although the fraction is absent or six digits |
| `Timestamps.IsoRoundTrip` | backend/workflows/store.py:1108-1114 | reading back a stored timestamp gives the time that was written |
| `Timestamps.LeaseDichotomy` | backend/workflows/store.py:1094-1114 | at every instant a running row's lease is either still accepted or selected by recovery, never both and never neither |
| `Timestamps.TextTestsAreTimeTests` | backend/workflows/store.py:1094-1114 | the check on a stored lease accepts exactly before its instant, and the text comparison of recovery selects exactly from it on |
| `Timestamps.IsoSpells` | backend/workflows/store.py:209-213 | each part of the text is the number of its field, in its place, with a fraction exactly when the microseconds are not zero |
| `Timestamps.CalendarSteps` | backend/workflows/store.py:209-213 | one microsecond, second, minute, hour or day later on the calendar is that much later in time, across the ends of months and years |
| `Timestamps.MonthLengths` | backend/workflows/store.py:209-213 | the months of every year have their Gregorian lengths |
| `Outcomes.IdentifierMeans` | backend/workflows/store.py:204-206 | an identifier is accepted exactly when it is not empty and stripping it changes nothing |
| `Capabilities.EvaluateCapabilities` | backend/inference/capabilities.py:101-157 | one rejection with its reason for each failed requirement, in the order of examination, and none exactly when the deployment is eligible |
| `Capabilities.ExplainedIs` | backend/inference/capabilities.py:101-157 | the list of rejections is empty exactly when no requirement fails, and otherwise lists each failed one with its reason |
| `Capabilities.EligibleMeans` | backend/inference/capabilities.py:101-213 | a deployment is eligible exactly when each thing the task requires is promised by a claim that has not run out |
| `Capabilities.ReasonsMean` | backend/inference/capabilities.py:101-213 | which reason is given: unknown without a lasting claim, mismatch for a model, insufficient for context, unsupported otherwise |
| `Runtime.WindowSlides` | backend/inference/runtime.py:95-97 | truncating after each attempt keeps exactly the last twenty outcomes |
| `Runtime.RateInUnit` | backend/inference/runtime.py:98-124 | the recent failure rate lies in [0, 1] |
| `Runtime.WindowIsEnd` | backend/inference/runtime.py:95-97 | the window is all of a history of up to twenty outcomes and the last twenty of a longer one |
| `Runtime.FailuresAreCounted` | backend/inference/runtime.py:98-124 | the failures of a window are its failed outcomes |
| `Runtime.RoutableMeans` | backend/inference/runtime.py:60-71 | routable exactly when fresh, up, ready, accepting and not exhausted |
| `Runtime.ProbeRoutes` | backend/inference/runtime.py:175-200 | a probed deployment is routable exactly when the probe ended without an error, the engine answered yes, and the observation has not run out |
| `Runtime.AttemptRoutes` | backend/inference/runtime.py:98-133 | an exhausted or unavailable deployment leaves routing, a success restores admission and capacity, any other failure changes nothing |
| `Runtime.RuntimeStateStore.constructor` | backend/inference/runtime.py:75-82 | every listed deployment starts unobserved |
| `Runtime.RuntimeStateStore.RecordAttempt` | backend/inference/runtime.py:93-133 | the summary describes exactly the last twenty outcomes; admission, capacity and liveness follow the outcome |
| `Runtime.RuntimeStateStore.Observe` | backend/inference/runtime.py:175-200 | a probe replaces the observation and keeps the attempt summary |
| `Ranking.ScoreCandidate` | backend/inference/policy.py:79-135 | nine named components in order, each with its own value, whose sum is the score |
| `Ranking.ScoreBounds` | backend/inference/policy.py:79-143 | without context headroom a preferred score lies in 90..185 and any other in -10..85 |
| `Ranking.PreferredScoresAtLeast` | backend/inference/policy.py:79-143 | an eligible preferred candidate never scores below an eligible other one |
| `Ranking.TieIsReached` | backend/inference/policy.py:79-143 | the two can tie |
| `RankingEffects.CostCounts` | backend/inference/policy.py:107-114 | low cost is worth 5 points more than medium, medium 5 more than high, unknown the same as high |
| `RankingEffects.LatencyCounts` | backend/inference/policy.py:115-122 | low latency is worth 5 points more than medium, medium 5 more than high, unknown the same as high |
| `RankingEffects.SuitabilityCounts` | backend/inference/policy.py:123-129 | suitability counts one for one, and only the one for the kind of the task |
| `RankingEffects.PreferenceCounts` | backend/inference/policy.py:85-93 | naming an engine gives exactly its deployments 100 points, whatever the case of the letters |
| `RankingEffects.ContextCounts` | backend/inference/policy.py:138-143 | a required context gives 10 points with twice the room and 5 with less; without a requirement or a claim, none |
| `RankingEffects.RuntimeCounts` | backend/inference/policy.py:95-105 | routable is worth 20 points, fresh 5, capacity 10, an observation without any of them nothing |
| `RankingEffects.ReliabilityCounts` | backend/inference/policy.py:100-103 | reliability is 20 times the share of successes, rounded to the nearest integer, to the even one of two |
| `RankingEffects.LowerRateNeverCosts` | backend/inference/policy.py:100-103 | a lower failure rate never lowers the total |
| `RankingEffects.NothingScoresNothing` | backend/inference/policy.py:79-143 | a deployment with nothing to its credit scores 0 |
| `RankingEffects.ViewMeans` | backend/inference/router.py:393-406 | what the ranking is told of a deployment is what the runtime store holds at the readings made; nothing without a store |
| `Ranking.RankCandidates` | backend/inference/policy.py:62-76 | every candidate once, by descending score and then by registration index |
| `Ranking.StoreStatesOk` | backend/inference/runtime.py:93-133 | the runtime store only ever hands the ranking rates in [0, 1] |
| `Ranking.RankedPreferredFirst` | backend/inference/router.py:393-417 | the ranking of a preferred-first shortlist is preferred-first |
| `Ranking.ShortlistIs` | backend/inference/router.py:353-374 | the shortlist holds exactly the eligible deployments, preferred ones first |
| `Ranking.ShortlistInOrder` | backend/inference/router.py:353-391 | among preferred deployments, and among the others, the shortlist keeps the order of registration |
| `Ranking.TieGoesToRegistration` | backend/inference/policy.py:62-76 | of two deployments with equal totals, both preferred or both not, the one registered first comes first |
| `RankingEffects.BetterComesFirst` | backend/inference/policy.py:62-143 | of two candidates alike apart from cost, or apart from latency, the cheaper or faster one is ranked first; of two alike altogether, the earlier one |
| `Ranking.OrderedDeployments` | backend/inference/router.py:348-423 | a permutation of the eligible deployments in which each one of the preferred engine precedes every other; refused exactly for an unknown engine or when none is eligible |
| `Budgets.OpenBudget` | backend/workflows/budget.py:11-24 | a budget exactly for a positive time and valid limits, with nothing used |
| `Budgets.WorkflowBudget.RemainingSeconds` | backend/workflows/budget.py:34-35 | the time left, never negative |
| `Budgets.WorkflowBudget.ReserveAttempt` | backend/workflows/budget.py:37-42 | granted exactly while time and attempts remain, and counts one attempt |
| `Budgets.WorkflowBudget.RecordOutputTokens` | backend/workflows/budget.py:44-54 | recorded exactly when the sum stays within the cap; a negative count is refused; otherwise nothing changes |
| `Budgets.GraphBudget.BindGraphBudget` | backend/workflows/store.py:547-604 | invalid limits are refused, other limits conflict, and binding again never resets a counter |
| `Budgets.GraphBudget.ReserveGraphAttempt` | backend/workflows/store.py:614-634 | as for the in-memory budget, on the durable row |
| `Budgets.GraphBudget.RecordGraphOutputTokens` | backend/workflows/store.py:636-660 | as for the in-memory budget, on the durable row; a negative count is refused |
| `Budgets.BudgetMeans` | backend/workflows/budget.py:34-54 | an attempt is granted exactly before the deadline and below the attempt limit; tokens are recorded exactly when the sum stays within the cap; a refusal changes nothing |
| `Router.AdvanceKeepsOk` | backend/inference/router.py:176-342 | each step keeps the attempts a legal trace and the loop's variables in agreement with it |
| `Router.AdvanceBalances` | backend/inference/router.py:215-326 | each step takes from the budget exactly what the call's own record grows by |
| `Router.PassEnds` | backend/inference/router.py:176-337 | one pass over the loop body leaves with an exit exactly when the observations for that exit were made: which deployment, what the engine did, what the clocks and the budget said |
| `Router.PassTries` | backend/inference/router.py:176-326 | a pass records one attempt exactly when one was granted, with the next number, the deployment at its place and what the engine answered; it moves on by one place exactly when that place was passed over or failed with OTHER_DEPLOYMENT, so a SAME_DEPLOYMENT failure leaves it where it is |
| `Router.RemainingIsSmaller` | backend/inference/router.py:192-200 | the time left is the smaller of the call's own and its budget's |
| `Router.BackoffSchedule` | backend/inference/router.py:459-476 | the n-th failure waits the n-th delay, later ones the last; the call gives up exactly when that takes at least the time left |
| `Router.FirstReasonDecides` | backend/inference/router.py:176-342 | the first pass that shows a reason to leave is the last one and its exit is the call's; in particular a usable deployment whose execution succeeds within the budget is returned |
| `Router.NoEngineExactly` | backend/inference/router.py:181-214 | "no available engine" is raised exactly when every deployment was passed over: circuit open, unroutable or unavailable |
| `Router.ScriptDecides` | backend/inference/router.py:176-342 | the outside behaviour determines the number of passes and the exit |
| `Router.PlayedBalances` | backend/inference/router.py:215-326 | over a whole call the budget moves by exactly the attempts made and the tokens returned |
| `Router.PlayedJustified` | backend/inference/router.py:181-297 | every deployment a call has left behind was passed over or failed with OTHER_DEPLOYMENT |
| `Router.RetriedInPlace` | backend/inference/router.py:291-297 | after a SAME_DEPLOYMENT failure the next attempt is on the same deployment, unless that was passed over since |
| `Router.TryDeployments` | backend/inference/router.py:171-342 | for every behaviour of clocks, engines and runtime states the loop does, pass by pass, what that behaviour calls for, and ends within deployments + max_attempts passes |
| `Router.Backoff` | backend/inference/router.py:459-476 | gives up exactly when the scheduled delay would outlast the deadline |
| `Router.TraceFollowsRanking` | backend/inference/router.py:168-180 | attempts follow the ranked order, so no preferred deployment is tried after another engine's |
| `Router.GenerateTask` | backend/inference/router.py:159-342 | the exit is the one the observed behaviour calls for, with the reason for each kind of exit; attempts are numbered 1..n, in ranked order, on the same deployment after a SAME_DEPLOYMENT failure unless that was passed over since, never back after an OTHER_DEPLOYMENT failure, retryable failures before the last; every deployment left behind was passed over or failed over; provenance is the last attempt's; the budget's counter rises by exactly n |
| `SharedBudget.NextKeepsBalance` | backend/workflows/graph_budget.py:46-50 | in every interleaving the durable counters equal what all calls together have taken, and never decrease |
| `SharedBudget.SharedBudgetHolds` | backend/workflows/store.py:614-660 | all attempts of all calls sharing a graph budget stay within max_attempts, all recorded tokens within the cap |
| `SharedBudget.EveryCallEnds` | backend/inference/router.py:176-342 | whatever other calls do, a call ends within 3 (deployments + max_attempts) + 1 of its own steps |
| `Context.DeduplicateOptional` | backend/context/preparation.py:37-65 | keeps required segments and the class winners, and names each duplicate's winner |
| `Context.BestIsBest` | backend/context/preparation.py:40-46 | the winner of a class has its best priority and is the first to have it |
| `Context.PrepareContext` | backend/context/preparation.py:85-160 | the drop loop computes exactly the specified preparation, errors included |
| `ContextProperties.OneSurvivorPerClass` | backend/context/preparation.py:37-65 | each duplicate class keeps exactly one survivor, of best priority |
| `ContextProperties.UniqueSurvives` | backend/context/preparation.py:37-52 | an optional segment that no other optional one equals in role, trust and content survives |
| `ContextProperties.SurvivorsDiffer` | backend/context/preparation.py:37-52 | two optional survivors differ in role, trust or content |
| `ContextProperties.DuplicateNamesWinner` | backend/context/preparation.py:53-65 | each duplicate is listed under its own id and revision and names a survivor with the same role, trust and content and at least its priority |
| `ContextProperties.ChatIsTheSegments` | backend/context/preparation.py:68-74 | the counted messages are the segments' roles and contents in order |
| `ContextProperties.DropOrderSorted` | backend/context/preparation.py:115-120 | lower priority is dropped first, the later source first on a tie |
| `ContextProperties.PreparedDropsShortestPrefix` | backend/context/preparation.py:105-160 | the shortest prefix of the drop order that fits is dropped, and the total never exceeds max_context_tokens |
| `ContextProperties.OverflowExactly` | backend/context/preparation.py:139-140 | overflow is raised exactly when no prefix fits |
| `ContextProperties.RefusedAtOnce` | backend/context/preparation.py:85-103 | no segments, repeated ids and no required segment are refused, exactly and in this order |
| `ContextProperties.OverflowReports` | backend/context/preparation.py:139-140 | an overflow reports what is needed after every optional source is dropped, against what the profile leaves for input |
| `ContextProperties.OverBudgetNames` | backend/context/preparation.py:127-137 | a source dropped for room is listed under its own id and revision |
| `ContextProperties.PreparedPartitions` | backend/context/preparation.py:98-160 | included and excluded partition the sources, and input order is kept |
| `ContextProperties.PreparedKeepsRequired` | backend/context/preparation.py:98-160 | every required source is included |
| `ContextProperties.PreparationIdempotent` | backend/context/preparation.py:85-160 | preparing the included segments again includes all of them at the same count |
| `Admission.AdmissionController.constructor` | backend/control/admission.py:39-42 | no tenant has used anything |
| `Admission.AdmissionController.Admit` | backend/control/admission.py:49-71 | granted exactly within the three quotas of the current window; a refused request may still open a window |
| `Admission.AdmissionController.Release` | backend/control/admission.py:73-77 | lowers the concurrent count, never below zero |
| `Admission.AdmissionPermit.constructor` | backend/control/api.py:52-56 | a new permit is live |
| `Admission.AdmissionPermit.Release` | backend/control/api.py:58-61 | only the first release reaches the controller |
| `Admission.AdmitRequest` | backend/control/api.py:144-147 | a permit exactly when the controller admits |
| `Admission.ConcurrencyIsLivePermits` | backend/control/admission.py:49-77 | after every run a tenant's concurrent count equals its live permits and stays within its limit |
| `Admission.AdmittedExactly` | backend/control/admission.py:49-71 | after every run a request is admitted exactly when the tenant is known, the estimate not negative, a permit free, and the grants of the current window leave room for one request and its tokens; the window is the last one unless sixty seconds have passed since it opened |
| `Admission.SpanWithinTwiceQuota` | backend/control/admission.py:49-71 | any 60-second span of any run with a monotone clock admits at most twice the request and token quotas |
| `Admission.SpanWithinOneQuota` | backend/control/admission.py:57-61 | any 60-second span of any run stays within one request and one token quota, unless it holds a grant of a window that opened inside it |
| `Admission.TwiceQuotaIsReached` | backend/control/admission.py:49-71 | for every policy and every opening time inside a span, a run with no other opening in it admits exactly twice both quotas |
| `Admission.OneQuotaExactly` | backend/control/admission.py:57-61 | runs whose windows open at a given instant and a minute before it all keep one quota in a span exactly when that instant is not inside it |
| `Newcombe.WilsonBrackets` | scripts/model_allocation_statistics.py:36-43 | the observed rate lies between its Wilson bounds |
| `NewcombeMeaning.WilsonSolvesScoreEquation` | scripts/model_allocation_statistics.py:36-43 | the two Wilson bounds are exactly the solutions x of (p - x)^2 = z^2 x (1 - x) / n |
| `Newcombe.DeterminantBound` | scripts/model_allocation_statistics.py:79-80 | (eh - fg) squared is at most the product of the marginals |
| `Newcombe.CorrelationInUnit` | scripts/model_allocation_statistics.py:79-86 | the corrected correlation lies in [-1, 1] |
| `NewcombeMeaning.CorrelationMeans` | scripts/model_allocation_statistics.py:79-86 | the determinant over the root of the marginal product, lowered by half the pairs but not below zero where it is positive; zero exactly when a margin is empty or that numerator is zero |
| `Newcombe.RadicandsNonneg` | scripts/model_allocation_statistics.py:88-101 | neither radicand is ever negative |
| `Newcombe.IntervalBrackets` | scripts/model_allocation_statistics.py:46-112 | -1 <= lower <= difference <= upper <= 1 for all nonnegative cells with positive total, and an error exactly otherwise |
| `NewcombeMeaning.IntervalMeans` | scripts/model_allocation_statistics.py:46-112 | each bound lies at its distance from the observed difference, clipped to [-1, 1]; the squared distance is a^2 - 2 rho a b + b^2 for the Wilson gaps a and b on that side, at the two-sided quantile of the confidence |
| `Newcombe.SwapNegates` | scripts/model_allocation_statistics.py:46-112 | swapping the arms negates and swaps the interval |
| `Newcombe.NoninferiorBothWays` | scripts/model_allocation_statistics.py:115-130 | the gate answers exactly for a margin in [0, 1); passing it bounds the observed loss, and passing it both ways is the same as an interval inside the margins |

## Left out

- SQLite, PostgreSQL and Redis plumbing, schema creation and migrations, including the rewrite of rows older than schema version 3: a store call is modelled as one atomic step.
- HTTP routes, middleware, logging, configuration, API keys, secrets and audit records.
- HTTP engine adapters and the vLLM worker: an engine call is an arbitrary outcome (success with an optional token count, typed failure, timeout, cancellation).
- The public `transition_graph_node` call: it can move nodes without owners or artifacts, so it is outside the lease and artifact invariants; consequently no modelled step resolves an UNCERTAIN graph node.
- Several graphs in one store: the graph half models the rows of one graph of one tenant. Calls on another graph do not touch them, but startup recovery scans the nodes of all graphs in one transaction under one limit, so another graph's expired nodes can make it refuse this graph's too.
- Prompt construction from dependency artifacts, packet contents, result payload fields and the JSON text of stored values.
- Exact floating-point behaviour: rates, scores before rounding, time spans and the interval use real numbers.
- Untyped exceptions that escape the router, and cancellation of tasks inside the dispatchers.
- `select_deployment`, `select_engine` and the legacy `generate` path of the router: first match in a list, with no state.
- The two dispatchers share their code apart from what they list and call; only the single-task one is modelled.
- Engine names are lower-cased over ASCII letters only.
- GraphStore.Store.BindBudget: keeps only the deadline that claims read; limits, conflicts and counters are modelled in the `Budgets` module.
- Ranking.OrderedDeployments: the text of explanations and of public rejections is not modelled.
- Router.GenerateTask: attempt ids, durations and start times are not modelled; what the loop records in the runtime store is not fed back to later routability readings, which are arbitrary instead.
- Dispatchers.OpenDispatcher: poll interval, lease length and preferred engine, and their checks, are not modelled.
- GraphStore.Store.constructor: the idempotency lookup of graph creation and the budget row it may insert are not modelled.
- Newcombe.IntervalBrackets: the checks of argument types and of finite confidence have no counterpart over the reals.
