# Canary deploys: a verified model

This project models the canary deploy saga of TemporalOps and the multi-service release around it, against a Kubernetes
cluster and an audit database whose calls can fail, lose their replies, or die half-way and be retried. `dafny verify
dfyconfig.toml` checks all of it.

## Layers

| file | what it holds |
|---|---|
| Types | the deploy request, results, signals, activities and their reports |
| Cluster | Deployments, API calls with their possible replies, attempts and retries; the client code as a class |
| Activities | the calls of each activity in order, the traffic split, the bake and policy verdicts; the activity code as methods |
| Audit | the table with its unique index, queries, the rows around an execution; the store and the interceptor as classes and methods |
| Workflow | the canary workflow as a function of its history, and the invariant of every reachable state |
| WorkflowLaws | the saga, the approval gate, promotion safety and the order of results, over every history |
| WorkflowResults | result, phase and schedule of every run told from its recorded results and first signal; what ends each wait; cancellation |
| WorkflowCode | the workflow code itself, with the saga as a mutable stack, proved to do on any history what Workflow says |
| Durability | a server that keeps the history, and workers that die |
| Deploy, DeployLaws | one deploy as a step machine: workflow, attempts, cluster and audit table under arbitrary events |
| Safety | which writes have landed, by the replies alone; capacity along every run and when exactly it dips; restoration |
| Rollback, Stranded | when exactly a rollback restores, an assumption that suffices, and runs that show what happens without it, or dip |
| Outcomes | what a deploy's result says about the cluster |
| Trail | what the audit table says about a run |
| Release, Orchestrator | interleaved children on one world; the release code; what its aggregate says about the cluster |
| Timing, Slowest | retry budgets, a clock on the machine that never sticks, the time bound and a run that reaches it |
| Retries | how often each activity is tried, how long an attempt lasts and the next one waits, in numbers; what an attempt of the policy check and of the bake leads to |

## What the environment may do

- Every API call succeeds, fails without effect, or takes effect and loses its reply. An attempt may die before any call, between
  calls, after its last call, or return without the server hearing of it. Attempts of one activity never overlap those of a later
  one.
- Workflow tasks bring results, signals, the timer and a cancellation in any combination. The code runs once per workflow task, so
  a signal that arrives together with the timer wins, as the selector looks at it first. A cancellation fails the activity being
  waited for and makes later ones fail unscheduled, except compensations and alerts, which run disconnected; at the gate it acts
  like the timer. A timer with no time to wait is ready at once, so such a gate only takes a signal that is already there.
- A write to the audit log is accepted, refused, or carried out behind an error.
- Children of a release take turns in any order. Their service names are distinct, so that their workflow ids and Deployments are.
- Claims about replica counts assume a target of at least 1 and counts that fit 32 bits, as promotion does not clamp its target the
  way the traffic shift does. Time bounds assume no queueing delay.

## Properties that need their condition

- A rollback whose compensations complete gives the replica counts back only if no scaling by an unreported step has landed, because
  a compensation is registered only after its step succeeded. `Rollback.RestoredExactlyWhen` gives the condition both ways in terms of the replies,
  `Rollback.AcknowledgedRunsRestore` an assumption on the environment that implies it where the scale-up was reported,
  `Stranded.StrandedCanary` and `Stranded.StrandedStable` runs without it.
- A rollback never gives stable's image back. If a patch by an attempt of Promote has landed, stable ends on the new image, even in a
  run in which nothing is lost and every compensation completes (`Stranded.StrandedImage`). The same lemmas say so both ways:
  the service is wholly back if and only if its counts are and no patch of stable has landed, or the image was the new one already. The canary's image, which no replica runs then, is not part of this.
- During a rollback the two Deployments together can drop to half the target, since the canary is dropped before stable is raised.
  `Safety.CapacityDipsExactlyWhen` says when, both ways and in terms of the replies; `Stranded.UnwindingDips` is a run in which
  nothing fails and they do.
- ARCHITECTURE.md gives the audit key as workflow, run, activity and phase. The index of the code also has the attempt, and so does
  this model.

## Model

| member | source | states |
|---|---|---|
| Cluster.NamesNeverCollide | internal/activities/k8s_client.go:57-58 | no stable Deployment of any service is a canary Deployment of any, and each kind determines its service |
| Cluster.Kubernetes.SetImage | internal/activities/k8s_client.go:86-101 | an absolute write: the image after it, for every reply, and whether it reports success |
| Cluster.Kubernetes.ScaleDeployment | internal/activities/k8s_client.go:65-82 | writes only on a difference; the cluster, the record of writes and the reported success for every reply |
| Cluster.Kubernetes.Tick | internal/activities/health.go:45-49 | a second of the bake, or the end of the activity's context |
| Cluster.Kubernetes.DeploymentStatus | internal/activities/k8s_client.go:147-161 | reads ready and desired counts, or fails with zeros |
| Cluster.ToInt32 | internal/activities/scale.go:35 | Go's conversion: congruent, in range, and the identity in range |
| Cluster.AttemptIsPrefix | internal/activities/promote.go:21-32 | an attempt that stops anywhere leaves exactly the effects of a prefix of its calls, all of them if it completes |
| Cluster.RetriesConverge | internal/activities/k8s_client.go:60-101 | any attempts cut off anywhere, then a completed one, end in the cluster of a single clean execution |
| Cluster.RetriesWriteOnce | internal/activities/k8s_client.go:60-82 | over all attempts each Deployment is scaled at most once, and never if it was at its target |
| Activities.OneScaleEachActivity | internal/activities/promote.go:21-32 | no activity scales one Deployment twice |
| Activities.ActivityConverges | internal/activities/traffic.go:29-70 | both for the calls of every activity |
| Activities.RoundedShareOfQuotient | internal/activities/traffic.go:34-53 | rounding the floating-point quotient, with any error below 1/200 that leaves halves exact, equals the integer formula |
| Activities.SplitIsFair | internal/activities/traffic.go:34-53 | for weights 0 to 100 the two parts are non-negative and add up to the clamped total; the canary's is within half a replica of its share, unless raised to 1 |
| Activities.SplitIsMonotone | internal/activities/traffic.go:34-53 | a larger weight never gives the canary fewer replicas |
| Activities.SplitAtHalf | internal/workflows/canary.go:133 | at the workflow's weight of 50 the canary takes the larger half, stable the smaller |
| Activities.ShiftCounts | internal/activities/traffic.go:34-47 | the clamping and rounding code computes that split |
| Activities.BakeVerdict | internal/activities/health.go:55-81 | healthy iff at least one poll, all polls succeed, and the last sees a desired count above zero that is ready; earlier samples do not matter |
| Activities.SimulateBake | internal/activities/health.go:42-53 | the injected failure waits out every second of the bake, and fails exactly if its context ends before |
| Activities.RunHealthCheck | internal/activities/health.go:38-82 | a bake completes iff each of its seconds got a good answer, and has used exactly those; healthy iff there was one and the last second's sample saw every replica ready; an injected failure is unhealthy |
| Activities.BakeIsAttempt | internal/activities/health.go:42-81 | the activity makes one call for each second of the bake; its success and verdict are those of the bake code, injected failure or not |
| Activities.PolicyIsThreeWay | internal/activities/policy.go:36-58 | admitted iff the dry run is clean; denied iff its status is none of the infrastructure's; any of the seven other categories, or a missing Deployment, is an error; these are error and verdict of the activity's call |
| Activities.RunScaleCanary | internal/activities/scale.go:27-43 | image, count, read, each after the one before succeeded, for every reply |
| Activities.RunScaleDownCanary | internal/activities/scale.go:48-51 | the canary's count set to zero, for every reply |
| Activities.RunShiftTraffic | internal/activities/traffic.go:29-54 | canary before stable, or the injected failure before either, for every reply and weight |
| Activities.RunShiftTrafficBack | internal/activities/traffic.go:59-70 | canary to zero before stable to the clamped target, for every reply |
| Activities.RunPromote | internal/activities/promote.go:21-32 | stable's image, stable's count, canary to zero, each after the one before succeeded, for every reply |
| Audit.TableIsFirstOccurrences | internal/audit/store.go:51-93 | over any sequence of records the table is the first occurrence of every key in call order, with no key twice |
| Audit.RerecordingIsIgnored | internal/audit/store.go:74-93 | recording again what is recorded, in any order and with any payload, changes nothing |
| Audit.QueryOfInsert | internal/audit/store.go:95-119 | a query sees an insertion exactly if it is its own workflow's, and as an insertion |
| Audit.QueriesOnlyGrow | internal/audit/store.go:95-119 | an earlier query result is a prefix of every later one |
| Audit.Store.Record | internal/audit/store.go:51-93 | a row is added unless one with its workflow, run, activity, attempt and phase is there; the table afterwards and the reported success, a zero timestamp filled in, whether the statement is accepted, refused, or carried out behind an error |
| Audit.Store.QueryByWorkflow | internal/audit/store.go:96-119 | the loop returns the workflow's rows in insertion order; nothing if the query or a scan fails, and the rows so far with the error if it is cut off |
| Audit.Default.SetDefault | internal/audit/store.go:126 | sets the process-wide store, possibly to none |
| Audit.Default.Record | internal/audit/store.go:130-135 | a no-op without a store, else a record in it |
| Audit.Default.RecordApproval | internal/activities/audit_activity.go:24-37 | one approval row with decision, actor and detail for this attempt |
| Audit.ExecuteActivity | internal/audit/interceptor.go:37-65 | start row, the activity with its own row, end row, all with the activity's type; the end row's status is what the activity returned, whatever becomes of the writes and whichever store the activity uses |
| WorkflowResults.ResultTellsLog | internal/workflows/canary.go:58-198 | status, reason and actor of every run that is over, cancelled or not, from its recorded results and first signal: each failed step has its own reason and rolls back, only the gate times out |
| WorkflowResults.ReplayTold | internal/workflows/canary.go:63-186 | at every point of every run: the status query's phase, the result so far and what is scheduled, from the recorded results |
| WorkflowResults.ScheduleTellsLog | internal/workflows/canary.go:75-221 | a finished run scheduled its forward part as far as the results let it, the inverses of the reported steps in reverse, and an alert with its status and reason unless it promoted |
| WorkflowResults.TimeoutHasCause | internal/workflows/canary.go:226-245 | a run times out only by its timer, by a cancellation, or for want of time to wait |
| WorkflowResults.TimeoutMeansSilence | internal/workflows/canary.go:226-245 | when a run times out no signal has ever arrived, not even together with the timer |
| WorkflowResults.WaitsEnd | internal/workflows/canary.go:202-245 | the gate is left on a signal, as its first one says, or without one on the timer or a cancellation, and on nothing else; a forward activity on its report or a cancellation; a compensation or an alert on its report only |
| WorkflowResults.CancelledRunsUnwind | internal/workflows/saga.go:28-45 | once cancelled, a run is unwinding, alerting or over |
| WorkflowResults.AutoRuns | internal/workflows/canary.go:150-153 | with auto-promotion no run awaits approval or times out, and every decision recorded is automatic |
| Workflow.Reachable | internal/workflows/canary.go:58-188 | after any history: what was scheduled is the forward order followed by the unwinding, and stack, answers, decision and status fit it |
| WorkflowLaws.StackHoldsInverses | internal/workflows/canary.go:101-144 | the saga holds the inverses of the steps that reported success, in order |
| WorkflowLaws.LifoCompensation | internal/workflows/saga.go:24-45 | a finished run compensated exactly the reported steps in reverse, each once, whatever the compensations returned; other runs none |
| WorkflowLaws.EachActivityOnce | internal/workflows/canary.go:58-188 | no run schedules an activity twice |
| WorkflowLaws.GateIsDecidedOnce | internal/workflows/canary.go:150-170 | at every point the recorded decision and actor are those of the first signal ever sent, or of the timer, or automatic |
| WorkflowLaws.GateOutcome | internal/workflows/canary.go:150-198 | a finished run ended for one cause: timeout without actor, or the first signal, approving or rejecting, with its sender as actor |
| WorkflowLaws.GateNeedsTimeout | internal/workflows/canary.go:226-245 | the code waits at the gate only if the timeout is positive |
| WorkflowLaws.OnlyFirstSignalMatters | internal/workflows/canary.go:226-245 | histories that differ only in later signals give the same run; with auto-promotion no signal matters |
| WorkflowLaws.PromotionIsCleared | internal/workflows/canary.go:75-181 | Promote is scheduled only after admission, scale-up, a healthy bake, the shift, and an automatic decision or an approving first signal |
| WorkflowLaws.TaskMoves | internal/workflows/canary.go:75-187 | each point of the forward path is entered only from the ones before it and on the result it needs; the unwinding and the end are never left |
| WorkflowLaws.HistoryOnlyAdds | internal/workflows/canary.go:58-188 | a longer history extends schedule, answers and stack, and changes nothing once the run is over |
| WorkflowLaws.StatusIsFinal | internal/workflows/canary.go:192-198 | a result once set never changes, through compensations and alert |
| WorkflowLaws.AnswersInOrder | internal/workflows/canary.go:58-188 | one activity at a time: the recorded results are those of the scheduled activities in order |
| WorkflowLaws.FinishedRollback | internal/workflows/saga.go:33-45 | a finished rollback has a completed report for every compensation it registered, if none failed |
| WorkflowCode.Context.WaitForApproval | internal/workflows/canary.go:226-245 | the selector loop resolves as the gate does: first buffered or arriving signal, else timer, which is ready at once without a positive timeout |
| WorkflowCode.Saga.constructor | internal/workflows/saga.go:20 | a new saga is empty |
| WorkflowCode.Saga.Register | internal/workflows/saga.go:24-26 | pushes one compensation |
| WorkflowCode.Saga.Compensate | internal/workflows/saga.go:33-45 | for a stack of any length: runs its reverse, each once, whatever each reports |
| WorkflowCode.SendAlert | internal/workflows/canary.go:202-210 | the alert is scheduled disconnected and its outcome ignored |
| WorkflowCode.UnwindSaga | internal/workflows/canary.go:192-198 | status and reason, then the whole stack, then the alert, then the result |
| WorkflowCode.Deploy | internal/workflows/canary.go:58-104 | policy gate, its error and its rejection with an alert, then the rest; the reached state after what it consumed |
| WorkflowCode.ScaleAndBake | internal/workflows/canary.go:93-126 | scale-up and bake, the registration between them, and the three ways to unwind, each reason with its status |
| WorkflowCode.Shift | internal/workflows/canary.go:128-170 | the shift, its registration, and the decision: automatic, by signal or by timer |
| WorkflowCode.Decide | internal/workflows/canary.go:150-181 | records the decision, ignores whether that worked, and unwinds or promotes by it |
| WorkflowCode.FinishPromotion | internal/workflows/canary.go:172-187 | promotes, or unwinds if that fails |
| WorkflowCode.CanaryDeployWorkflow | internal/workflows/canary.go:58-188 | run from the start on any history, the code schedules, answers, stacks, reports as phase and returns what the state function says; the returned status and reason are those of the first step that failed |
| Durability.CrashesAreInvisible | internal/workflows/canary.go:58-188 | after any crashes the recorded schedule, and the state a new worker reaches, are those of the uninterrupted run, and replay never disagrees with the record |
| Durability.NothingIsScheduledTwice | internal/workflows/canary.go:58-188 | crashes and replays only add activities not scheduled before; none with a recorded result runs again |
| Deploy.RunReplays | internal/workflows/canary.go:58-188 | the workflow inside the step machine is the replay of the workflow tasks the run gave rise to |
| Deploy.AttemptAgrees | internal/activities/audit_activity.go:24-37 | an undisturbed attempt of any activity in the step machine has the code's effect on cluster and table, its success and its verdict |
| Deploy.ExecutionAgrees | internal/audit/interceptor.go:37-65 | a whole attempt leaves the table exactly as the interceptor around the code does, whatever becomes of calls and writes, and is remembered as failed iff the interceptor sees an error |
| Retries.MailArrives | internal/workflows/canary.go:226-245 | a signal, the timer or a cancellation sent to a run reaches the workflow whole, at any time |
| Retries.FailuresAreCounted | internal/workflows/canary.go:252-305 | four tries of the policy check, two of the bake, three of a record or an alert, five of all else: an attempt that is heard to succeed is the result, any other leads to the next, and the last to a failure |
| Retries.WaitsInSeconds | internal/workflows/canary.go:252-305 | at every moment of every run: attempts are cut off after 30, bake + 30, 15 or 60 seconds; retries wait 1, 2, 4, or 2, or 1, 2, or 2, 4, 8, 16; the gate waits for its timeout |
| Retries.PolicyAttempt | internal/activities/policy.go:36-58 | in a run: admission leads to the scale-up, a denial to a rejection, any other error to another attempt, and the fourth to a failed deploy |
| Retries.BakeAttempt | internal/activities/health.go:38-82 | in a run: a good answer for every second, then the last sample decides between shift and rollback; anything else is a failed attempt, and the second one a rollback |
| Safety.CapacityIsKept | internal/activities/traffic.go:34-69 | from the baseline, at every point of every run, desired replicas together are at least the target before the unwinding, and at least half of it ever after |
| Safety.CapacityDipsExactlyWhen | internal/activities/traffic.go:59-70 | the two ask for less than the target iff stable's lowering landed with no raise since and a compensation's drop of the canary landed; then the run is unwinding and they ask for half |
| Stranded.UnwindingDips | internal/activities/traffic.go:59-70 | for every such request and baseline a run in which nothing fails, the gate times out, and the two ask for half the target between the writes of the compensation |
| Safety.ClusterIsWhatLanded | internal/activities/k8s_client.go:65-101 | at every point of every run from the baseline, image and count of both Deployments are what the replies have let land |
| Safety.Restoration | internal/workflows/canary.go:192-198 | with the scale-up reported and all compensations completed: canary at zero; stable at target iff the shift was reported or its lowering of stable never landed; stable on the new image iff a patch of Promote landed, else on its own |
| Rollback.BackExactlyWhen | internal/workflows/canary.go:192-198 | at any point, whatever compensations reported: the service is back iff the canary's last landed count is zero, stable was raised since it was lowered, and no patch of stable landed |
| Rollback.RestoredExactlyWhen | internal/workflows/canary.go:96-144 | with all compensations completed the counts are back iff no reply had let a scaling by an unreported step land, and the service is wholly back iff no patch of stable had landed either |
| Rollback.AcknowledgedRunsRestore | internal/workflows/canary.go:101-198 | if failed calls are not applied and no success is lost, a rollback after a reported scale-up gives the counts back, after any partial attempts; stable is wholly back iff none of them had patched it |
| Stranded.StrandedCanary | internal/workflows/canary.go:93-104 | for every sized request a run in which ScaleCanary fails at its last read leaves the canary scaled, with nothing lost |
| Stranded.StrandedStable | internal/workflows/canary.go:128-138 | for every such request a run in which the shift dies after its writes leaves stable at half its target |
| Stranded.StrandedImage | internal/workflows/canary.go:172-181 | for every such request a run in which Promote fails after its patch: nothing is lost, every compensation completes, the counts are back, and stable is wholly on the new image |
| Outcomes.ResultTellsCluster | internal/workflows/canary.go:75-187 | Promoted means the new image at the target and no canary; PolicyRejected or an error means nothing changed |
| Outcomes.NoBakeNoShift | internal/workflows/canary.go:112-126 | without canary replicas or without a bake no run shifts traffic or promotes |
| Trail.RowsBracketExecutions | internal/audit/interceptor.go:37-65 | at most one row per attempt and phase; an end row says failed iff that execution returned an error, and has its start row before it iff that write was accepted |
| Orchestrator.ReleaseIsAudited | internal/audit/interceptor.go:37-65 | in a release, what a query for one child shows is all its rows that were carried out, bracketed and approved in the same way, whatever the other children write between |
| Trail.StartsLogged | internal/audit/interceptor.go:49-51 | if start writes are accepted, every execution that returned has its start row |
| Trail.RowsAreAccepted | internal/audit/store.go:76-93 | of a new run the table has the start, approval and end rows that were carried out, every one and no other |
| Trail.ReportedApprovalIsThere | internal/workflows/canary.go:215-221 | if the recording of the decision was reported as completed, an approval row of the run is in the table |
| Trail.ApprovalRowsTellOutcome | internal/workflows/canary.go:150-181 | all approval rows of a run carry its one decision and its result's actor, fit its status, and precede every row of Promote |
| Release.ChildIdsDiffer | internal/workflows/orchestrator.go:53 | ids within a release differ exactly when services do |
| Release.ChildrenDoNotInterfere | internal/workflows/orchestrator.go:47-69 | under any interleaving each child's run, Deployments and audit rows are those of running alone on its own events |
| Orchestrator.Children.ExecuteChildWorkflow | internal/workflows/orchestrator.go:66-68 | starts a child and returns its future without waiting |
| Orchestrator.Children.Get | internal/workflows/orchestrator.go:74-76 | resolves to the earliest report of that child, whatever order the children end in; blocks iff there is none |
| Orchestrator.NamesArePartition | internal/workflows/orchestrator.go:84-92 | the two lists are the results split by status in order; the second is empty iff all promoted |
| Orchestrator.ReleaseOrchestratorWorkflow | internal/workflows/orchestrator.go:33-96 | starts one child per service, named after release and service, with its request and auto-promotion on; returns iff all have ended, one entry per service in input order, with the two lists and AllPromoted |
| Orchestrator.FanIn | internal/workflows/orchestrator.go:71-95 | the collecting loop: a failed child becomes a rollback of its own service |
| Orchestrator.ChildrenAreAutomatic | internal/workflows/orchestrator.go:47-69 | whatever the requests say and however the children interleave, no child ever awaits approval or times out, and every decision it records is automatic |
| Orchestrator.RowsAreAutomatic | internal/workflows/orchestrator.go:47-82 | no row of the result is a timeout, and a promoted one names the release as its approver |
| Orchestrator.ReleaseTellsCluster | internal/workflows/orchestrator.go:33-96 | every row is that of the deploy alone and true of the shared cluster: promoted means fully rolled out, rejected or failed means untouched; rolled back or timed out means counts back iff no scaling by an unreported step landed, and wholly back iff no patch of stable landed either |
| Orchestrator.ReleaseRestores | internal/workflows/orchestrator.go:47-69 | a service whose own failed calls are not applied and successes not lost gets its counts back by its rollback after a reported scale-up, and is wholly back iff no patch of stable landed, whatever the others do |
| Orchestrator.ReleaseKeepsCapacity | internal/workflows/orchestrator.go:47-69 | the capacity bounds for every service of a release at every moment |
| Timing.BackoffsAreGeometric | internal/workflows/canary.go:252-277 | closed form of a capped doubling sum, for any first interval, cap and number |
| Timing.BudgetIsSum | internal/workflows/canary.go:252-305 | an activity takes at most its attempts cut off and the backoffs between: 4 × 30 + 1 + 2 + 4, 2 × (bake + 30) + 2, 3 × 15 + 1 + 2, or 5 × 60 + 2 + 4 + 8 + 16 seconds |
| Timing.BudgetInSeconds | internal/workflows/canary.go:252-305 | 127, 330, twice the bake plus 62, and 48 seconds |
| Timing.EndsInTime | internal/workflows/canary.go:58-305 | for every request, no run is still going after 1935 seconds, twice the bake and the approval timeout |
| Timing.ClockNeverSticks | internal/workflows/canary.go:58-305 | from every reachable state some moments, each deadline running out, lead to the end of the run and then to any time |
| Slowest.BoundIsReached | internal/workflows/canary.go:150-198 | for every request that can reach the gate some run is still going at exactly that time |

## Left out

- Temporal server and SDK: task queues, heartbeats, history encoding and timer commands; only results, signals, the timer, cancellation and retry counts are modelled.
- Attempts that outlive their activity: what a second attempt does while an old one still runs is decided by Temporal, not by this code.
- Two services of one name in a release: the second child's start is refused or attached by Temporal.
- Cancellation of the release itself, which Temporal passes to the children; a child's own cancellation is modelled.
- The Kubernetes client, its configuration and JSON patches: a cluster is a map from Deployment names to image and count.
- scaleDeployment's read and write are one call: no other writer comes between them, as children write disjoint Deployments.
- Cluster.Kubernetes.DeploymentStatus: does not model the default of 1 for a Deployment without a replica count, as the API server fills the count in before it stores one; nor its refusal of negative counts.
- Readiness of pods: each poll's ready count is arbitrary.
- Conversion of a rounded float beyond 32 bits, which Go leaves to the implementation; integer conversions are modelled.
- Totals so large that their product with the weight is inexact in a float64: the quotient is assumed within 1/200 of the exact one, with integers and halves exact.
- Fractions of a second in the approval timeout, which is a whole number of seconds here.
- Children that are terminated, time out or cannot be started: the code records them as rollbacks of their service as well, and then it need not be untouched. A failed child is here one whose policy check failed.
- SQLite itself, and timestamp formats: the table is a sequence, time a number.
- Error and reason texts are categories; logging, metrics and the body of Alert are left out.
- EndsInTime: assumes no queueing delay. A bake of -30 seconds or less gives a timeout that Temporal refuses; here such an attempt is cut off as it begins.
- CapacityIsKept: counts desired replicas; how many pods are ready is up to the cluster.
- The starter and worker commands, configuration, the hello workflow and activity.
