# Verified model of the Shopware operator

The operator keeps a shop running on Kubernetes: it sets a store up, deploys it, migrates it to new
images, runs commands against it and moves media files between S3 and disk. This project models the
parts of it that are hard to get right and proves what they are for.

| files | what they model |
|---|---|
| `WorkerPool`, `Download`, `Upload` | the goroutine protocol behind bucket download and upload, as a step relation over producer, workers and main; every `select` is a choice |
| `StoreModel`, `StoreResources`, `StoreStates`, `StoreManager` | one reconcile of a Store: the resource phase as a plan of API operations executed until one fails, the status phase, and the imperative managers proved against both |
| `Lifecycle`, `ImageSafety`, `MigrationLicense`, `RunOrder`, `QueueDiscovery`, `Availability`, `Progress`, `RoundRuns` | all runs of the lifecycle: reconciles one API operation at a time, between them spec edits, job and replica changes, deletions, API errors, lost status writes and restarts |
| `ChangeDetection` | the two separately written change detectors and the apply between them |
| `QueueCache` | the queue statistics cache: double-checked locking with a time to live |
| `JobVerdict` | the verdict on a job container |
| `TriggerRecorder`, `ConditionLog`, `StoreExec`, `Env` | bounded logs and folds, each against an unbounded specification |

`Wrappers`, `Sequences` and `Sorting` hold shared helpers. `dafny verify dfyconfig.toml` checks everything.

## How to read it

- A protocol is a `State`, an `Action` or `Event`, and a step function. A run is a sequence of
  actions, and the main theorems quantify over all of them.
- The resource phase is specified as `Plan` (what is done, in order) and `Execute` (what becomes of
  it when API calls fail). `StoreManager.StoreStateManager` is the operator's own imperative form;
  its methods are proved equal to `Execute` of `Plan` and to `NextStatus`, and
  `Progress.ReconcileIsARun` shows that such a reconcile is one of the runs of `Lifecycle`, where the
  safety theorems live.
- Where a property fails, there is a concrete run or input and the exact condition for all inputs:

| what can go wrong | concrete case | exact condition |
|---|---|---|
| an upload reports success too early | `Upload.CanceledWalkIsSwallowed` | `Upload.NilIsCompleteExactly` |
| a finished execution runs again | `StoreExec.KeptExecutionRunsAgain` | `StoreExec.StaysFinishedExactly` |
| a reported change is never written | `ChangeDetection.SucceededJobIsNeverReplaced` | `ChangeDetection.DetectorsAgreeExactly` |
| the order of pods decides between running and success | `JobVerdict.SuccessDependsOnOrder` | `JobVerdict.OrderMattersExactly` |
| a new image is rolled out without a migration | `RoundRuns.UnmigratedRollout` | `MigrationLicense.UnmigratedExactly` |
| a job that has succeeded is replaced | `ChangeDetection.SucceededJobIsReplaced` | `ChangeDetection.JobIsKeptExactly` |
| a store that is not Ready never gets Ready | `RoundRuns.NamelessQueueBlocks` | `RoundRuns.RecoversExactly` |

## Assumptions

- Cancelling a context cancels the contexts derived from it in the same step. Listings and directory
  walks are finite, the listing channel is eventually closed, and callbacks return.
- Reads see the operator's own writes. Hashes and generated names are free of collisions, so an
  applied object is its desired content, and a migration job is named by the tag it starts from.
- Users edit specs, and deployments and jobs may disappear, but nobody else edits the content of
  the operator's jobs, deployments or its CronJob.
- The storefront container has no image override (`StorefrontDeploymentContainer.Image` is empty);
  the ready handler compares the deployed image with the base image
  (`internal/manager/ready/ready.go:48`). Worker labels are not overridden.
- Annotations are values; the map sharing of `internal/util/annotations.go:11-17` is not modelled.
- The queue cache reads a monotonic clock.
- A patch makes the stored object the desired one; defaulting by the API server is not modelled.

## Where code and comment differ

The comment in `EnsureObjectWithHash` (`internal/k8s/utils.go:656-659`) says that a job without a
success is deleted and created again. The code looks at the status of the desired object, which a
freshly built job never has, so a succeeded job that differs is replaced too. The model follows the
code: `ChangeDetection.SucceededJobIsReplaced` states the case and `ChangeDetection.JobIsKeptExactly`
the exact condition under which a stored job is left alone.

## Model

| member | source | states |
|---|---|---|
| WorkerPool.WorkerStepConserves | internal/util/s3.go:484-509 | no worker step loses or duplicates an item: an item is buffered, in one worker's hands, succeeded or lost |
| WorkerPool.NilVerdict | internal/util/s3.go:511-523 | if all workers have exited and no error is returned, the channel was closed, the context is live and every item that entered the pool has succeeded |
| WorkerPool.WorkerStepKeepsHonest | internal/util/s3.go:498-505 | a Canceled error reaches the error channel only if the outer context was cancelled |
| WorkerPool.SomeWorkerAction | internal/util/s3.go:489-507 | a worker that has not exited can move unless the channel is empty, open and not cancelled |
| Download.RunKeepsInv | internal/util/s3.go:411-524 | the pool, conservation, lister, channel and main invariants hold in every reachable state |
| Download.NilMeansEverythingDownloaded | internal/util/s3.go:411-466 | under every interleaving nil means the listing ended without error and the callback succeeded exactly once on each listed object |
| Download.BoundedConcurrency | internal/util/s3.go:420-424 | there are max(1, batchCount) workers, and never more callbacks in flight nor items buffered |
| Download.FailureCancels | internal/util/s3.go:498-505 | once a callback's error is reported and its reporter has gone on, the workers are cancelled |
| Download.RootCauseIsReported | internal/util/s3.go:430-465 | with a live caller, a non-nil result is a genuine listing or callback error and never a cancellation the pool caused itself |
| Download.Terminates | internal/util/s3.go:424-524 | a run has a bounded number of steps, because a measure over undelivered, buffered and held items and program counters drops |
| Download.NeverStuck | internal/util/s3.go:448-452 | every reachable state that has not returned has an enabled step other than a cancellation by the caller, also with the lister blocked on a full channel after an inner cancel |
| Download.ReportsExactlyOnce | internal/util/s3.go:427-446 | the lister sends on its capacity-1 channel at most once, and exactly once before the call returns |
| Upload.RunKeepsInv | internal/util/s3.go:267-366 | conservation and the walker, channel and main invariants hold in every reachable state |
| Upload.NilMeansUploaded | internal/util/s3.go:281-365 | nil means each file the walk yielded was uploaded exactly once and uploadedCount = fileCount = their number; the walk ended, or stopped at an error that counts as Canceled |
| Upload.NilMeansEverythingUploaded | internal/util/s3.go:338-365 | unless the first walk error is Canceled, nil accounts for the whole directory, so the fall-through of a cancelled walk under a live context is not taken |
| Upload.HealthyUploadReturnsNil | internal/util/s3.go:334-365 | if every entry is readable, no upload fails and the caller does not cancel, the result on every run is nil |
| Upload.ErrorsAreExplained | internal/util/s3.go:334-354 | on every run an error is a callback's, the cancellation of a context, or the walk's own error or cancellation wrapped as such |
| Upload.CanceledWalkIsSwallowed | internal/util/s3.go:345-354 | for each directory whose first walk error is Canceled there is a run that returns nil with an incomplete upload |
| Upload.NilIsCompleteExactly | internal/util/s3.go:301-354 | nil always means complete if and only if the first walk error, if any, is not Canceled |
| Upload.Terminates | internal/util/s3.go:281-338 | a run has a bounded number of steps |
| Upload.NeverStuck | internal/util/s3.go:281-338 | every reachable state that has not returned has an enabled step other than a cancellation by the caller |
| QueueCache.RunKeepsInv | internal/metrics/queue_handler.go:116-152 | slots, requests and the fetch log stay consistent for any number of threads and stores |
| QueueCache.AtMostOneFetch | internal/metrics/queue_handler.go:129-136 | at most one fetch per store is in progress |
| QueueCache.FetchOnlyWhenStale | internal/metrics/queue_handler.go:125-136 | a fetch starts only when the store has no entry younger than the time to live |
| QueueCache.AnswersAreSound | internal/metrics/queue_handler.go:116-152 | an answer is an entry of that store that was younger than the time to live at a time between arrival and now, a fetch of that store started after arrival, or the reconciled fallback after the request's own fetch failed |
| QueueCache.EntriesWereFetched | internal/metrics/queue_handler.go:136-149 | every stored entry holds what a fetch for its store returned, stamped with a time after the end of that fetch |
| QueueCache.NotConnected | internal/metrics/queue_handler.go:117-119 | without a connection no slot is ever created |
| QueueCache.FetchRateIsBounded | internal/metrics/queue_handler.go:37-40 | successful fetches of a store lie a time to live apart, so waiters at an expiry share one |
| QueueCache.RequestGetsOn | internal/metrics/queue_handler.go:129-152 | as long as a request has no answer, it or the holder of the lock it waits for has an enabled step |
| QueueCache.RequestsAreShort | internal/metrics/queue_handler.go:116-152 | a request answers after at most ten steps of its own under every interleaving |
| ConditionLog.ConditionsList.AddCondition | api/v1/store_status.go:82-103 | the list after the call is the specified one: newest of equal types replaced, otherwise appended and cut |
| ConditionLog.ConditionsList.GetLastCondition | api/v1/store_status.go:105-110 | the newest condition, or an empty one |
| ConditionLog.CollapseAppend | api/v1/execstatus.go:25-45 | collapsing runs of equal types commutes with appending |
| ConditionLog.RecordedIsCollapsedTail | api/v1/store_status.go:82-103 | after any history the list is the last six entries of the collapsed history |
| ConditionLog.RecordedShape | api/v1/store_status.go:82-110 | at most six entries, adjacent types differ, the last entry is the newest |
| TriggerRecorder.Recorder.Add | internal/trigger/recorder.go:90-106 | the maps stay what the history calls for; a missing time is stamped |
| TriggerRecorder.Recorder.Drain | internal/trigger/recorder.go:108-144 | returns the cause that the history of calls determines, and clears the key |
| TriggerRecorder.Recorder.Forget | internal/trigger/recorder.go:146-157 | removes all traces of the key and nothing else |
| TriggerRecorder.Recorder.Finish | internal/trigger/recorder.go:159-176 | leaves a retry after an error, a requeue with its delay, or none |
| TriggerRecorder.KeysAreIndependent | internal/trigger/recorder.go:90-176 | erasing the calls on other keys changes no answer for a key |
| TriggerRecorder.AddsPileUp | internal/trigger/recorder.go:90-106 | until a Drain or Forget of the key, whatever else is called, adds append to what is pending |
| TriggerRecorder.LastFinishSchedules | internal/trigger/recorder.go:159-176 | the scheduled requeue is that of the latest Finish since the last reset |
| TriggerRecorder.DrainReturnsLatestEvents | internal/trigger/recorder.go:108-144 | counted from the last Drain or Forget: the last twenty events added since, else the requeue of the latest Finish since, due its delay after it was scheduled, else startup after a Forget and resync after a Drain |
| TriggerRecorder.FirstDrainReturnsLatestEvents | internal/trigger/recorder.go:82-144 | the same from the creation of the recorder on, with startup as the last case |
| TriggerRecorder.NotFoundLeavesNothing | internal/controller/store_controller.go:207-233 | a not-found reconcile leaves no entry for its key unless an event arrives after Forget |
| JobVerdict.ScanPod | internal/job/util.go:67-101 | one pod either decides at once or adds its non-zero exits |
| JobVerdict.IsJobContainerDone | internal/job/util.go:32-136 | the result is the specified verdict on what the pods show; errors exactly for a nil job or unlistable pods |
| JobVerdict.FailureExactly | internal/job/util.go:46-135 | failure iff no pod seen is pending, unterminated or Completed, Succeeded is not positive, and a non-zero exit or Failed > 0 exists |
| JobVerdict.VerdictExactly | internal/job/util.go:46-136 | in terms of pods and container statuses, exactly when a job is a success, running or a failure, and with which exit code |
| StoreModel.NewJobIsRunning | internal/job/util.go:127-135 | a job without pods and counts, as just created, is running |
| JobVerdict.FailureIgnoresOrder | internal/job/util.go:66-125 | the failure verdict does not depend on pod order, and no reordering turns success into failure |
| JobVerdict.UndecidedIgnoresOrder | internal/job/util.go:106-135 | when no pod decides early, order changes neither running nor the presence of errors |
| JobVerdict.SuccessDependsOnOrder | internal/job/util.go:66-99 | two lists of the same pods, one reported as success and one as running |
| JobVerdict.OrderMattersExactly | internal/job/util.go:66-135 | no reordering changes running, success or failure iff there are no two pods of which one has completed the container and the other is pending or has not terminated it |
| Env.MergeEnv | internal/util/env.go:11-29 | in place: the first base entry of a name gets the last source value, unmatched source entries are appended in order |
| Env.MergeIsMapOverride | internal/util/env.go:7-29 | without repeated names the merge is map override with base order kept |
| Env.MergeIsDistinct | internal/util/env.go:11-29 | the merge of lists without repeated names repeats none and appends exactly the new names |
| Env.MergedEntry | internal/util/env.go:13-22 | with repeated names: the first base entry of a name gets the last source entry of that name, all others stay |
| Env.AppendedEntries | internal/util/env.go:23-28 | what is appended are the unmatched source entries, as often as the source has them |
| Env.AppendedInOrder | internal/util/env.go:23-28 | and in the order of the source |
| Env.GetEnv | api/v1/store_env.go:732-743 | the operator list with overrides at the first index of a name, then each new name once with its last value |
| Env.OverriddenByGetEnv | api/v1/store_env.go:732-743 | at the operator's indices: the last extra at the first entry of a name, everything else unchanged |
| Env.AddedByGetEnv | api/v1/store_env.go:732-743 | a name only the extras have gets one entry behind the operator's, with the last value |
| Env.OverriddenOperatorEnvs | api/v1/store_env.go:750-763 | pairs the first operator entry with the last extra, in first-seen order |
| Env.OverridesAreTheCommonNames | api/v1/store_env.go:750-763 | the listed names are exactly those in both lists, each once |
| Env.OverridesAreEffective | api/v1/store_env.go:732-763 | the listed extra is the entry that GetEnv puts at that operator index |
| ChangeDetection.DiffKeys | internal/k8s/utils.go:524-538 | the differing keys, each exactly once, in sorted order |
| ChangeDetection.ReportIsDetermined | internal/k8s/utils.go:524-538 | the two maps determine the reported list, whatever order the maps are iterated in |
| Sorting.Sort | internal/k8s/utils.go:536-537 | a sorted permutation of the list |
| Sorting.SortedIsUnique | internal/k8s/utils.go:536-537 | there is only one |
| ChangeDetection.Cluster.ChangedMetaKeys | internal/k8s/utils.go:494-506 | the differing labels and then the differing annotations, apart from the ignored ones; empty iff they agree |
| ChangeDetection.Cluster.DetectObjectChange | internal/k8s/utils.go:449-522 | exactly when each of the five answers is given, and the keys reported with changed metadata |
| ChangeDetection.Cluster.EnsureObjectWithHash | internal/k8s/utils.go:547-708 | stored object and verdict for every combination of failing calls; other objects untouched |
| ChangeDetection.Cluster.ApplyIfChanged | internal/manager/base/resources.go:190-205 | detect then ensure: an up-to-date object is not touched, success leaves it up to date |
| ChangeDetection.ComparisonsAgree | internal/k8s/utils.go:508-616 | the comparison on the prepared object and the one on the bare desired object agree |
| ChangeDetection.DetectorsAgreeExactly | internal/k8s/utils.go:449-661 | a change is reported exactly when a write would follow, except for a differing job handed in as succeeded |
| ChangeDetection.SucceededJobIsNeverReplaced | internal/k8s/utils.go:658-661 | a concrete such job: the change is reported and no apply writes |
| ChangeDetection.JobIsKeptExactly | internal/k8s/utils.go:658-686 | with every call succeeding, a stored job is left alone iff it is up to date or the desired job counts a success |
| ChangeDetection.SucceededJobIsReplaced | internal/k8s/utils.go:656-686 | a stored job that has succeeded and is not up to date is replaced by a new one |
| ChangeDetection.ApplyConverges | internal/k8s/utils.go:554-708 | after a successful ensure a second detect reports none and a second ensure writes nothing |
| ChangeDetection.ApplyStoresDesired | internal/k8s/utils.go:582-708 | a successful apply of a change stores the desired object for every kind: content, labels, annotations, the hash of the content, and the revision of a live Deployment |
| ChangeDetection.SameMetaExactly | internal/k8s/utils.go:494-506 | which labels and annotations have to agree, spelled out |
| ChangeDetection.HashStaysHonest | internal/k8s/utils.go:566-708 | over any run of applies of changing objects, the hash annotation of an object the operator created is the hash of its content |
| ChangeDetection.NoChangeMeansNoDifference | internal/k8s/utils.go:449-538 | on such runs, with a collision-free hash, no reported change means equal content and metadata |
| ChangeDetection.FailedApplyExactly | internal/k8s/utils.go:589-706 | which calls an apply needs, and what it leaves behind if one of them fails |
| ChangeDetection.FailureIsDetectedAgain | internal/k8s/utils.go:613-708 | after a failed ensure the change is still reported |
| ChangeDetection.RevisionIsIgnored | internal/k8s/utils.go:499-506 | the revision annotation neither causes a report nor a write |
| ChangeDetection.RevisionIsKept | internal/k8s/utils.go:601-611 | an applied Deployment keeps its revision annotation |
| ChangeDetection.UpToDateForGood | internal/k8s/utils.go:494-616 | over any run of applies and new revisions an up-to-date object is never written again; only the cluster's revision moves |
| ChangeDetection.OneSuccessSettles | internal/k8s/utils.go:554-708 | after any history one successful apply settles the object for every later run |
| StoreExec.StoreExecFinishedAt | internal/controller/storeexec_controller.go:187-199 | the latest recorded transition of a finished execution |
| StoreExec.Controller.ReconcileCleanup | internal/controller/storeexec_controller.go:161-185 | deletes only a finished execution whose period has passed, and stops the reconcile whenever one applies |
| StoreExec.Controller.ReconcileStatus | internal/controller/storeexec_status.go:24-158 | the written status is the specified one, or the old one if the write is lost |
| StoreExec.Controller.Reconcile | internal/controller/storeexec_controller.go:38-131 | cleanup, job and status in order, for every combination of failing calls |
| StoreExec.FreshExecutionSettles | internal/controller/storeexec_status.go:51-149 | on every run a fresh one-shot execution that is done or failed carries its transition time |
| StoreExec.NextStateExactly | internal/controller/storeexec_status.go:24-80 | the next state of an unfinished execution for every combination of answers |
| StoreExec.FinishesExactly | internal/controller/storeexec_status.go:134-149 | an unfinished execution turns Done iff a written reconcile of a found store read its job as done with exit code 0, and Error iff with another |
| StoreExec.FinishIsNoted | internal/controller/storeexec_status.go:134-149 | the newest condition then names the state and the time |
| StoreExec.FinishedWasRead | internal/controller/storeexec_status.go:99-158 | on every run a Done execution goes back to a reconcile that read a success, one in Error to a failure |
| StoreExec.JobAppliedExactly | internal/controller/storeexec_controller.go:95-159 | when the command job is applied, what becomes of it, and when one is created |
| StoreExec.FinishedStaysFinished | internal/controller/storeexec_controller.go:63-126 | no later reconcile changes its status or creates a job |
| StoreExec.DeletedOnlyAfterPeriod | internal/controller/storeexec_controller.go:161-217 | it is deleted no earlier than transition time plus the period of its state |
| StoreExec.DeletedExactlyWhenDue | internal/controller/storeexec_controller.go:161-217 | a reconcile deletes an execution iff it is a finished one-shot execution not being deleted, with a positive period that has passed, and the calls succeed |
| StoreExec.LatestIsLast | internal/controller/storeexec_controller.go:187-199 | the recorded transition is that of the last condition that has one |
| StoreExec.FinishedResetExactly | internal/controller/storeexec_status.go:51-71 | without such periods a reconcile that writes resets a finished execution iff the store cannot be read |
| StoreExec.KeptExecutionRunsAgain | internal/controller/storeexec_status.go:51-71 | for every finished one-shot execution without cleanup a run that creates a job again |
| StoreExec.StaysFinishedExactly | internal/controller/storeexec_controller.go:63-126 | on every run its status stays and no job is created iff it is not being deleted and the period for its state is positive |
| StoreModel.EveryQueueHasOneWorker | internal/deployment/worker.go:27-62 | the queues consumed by the generated workers are the known ones, each by one worker only, and without KEDA scaling there is at most one worker |
| StoreModel.ConditionIsDecided | internal/deployment/util.go:45-120 | exactly when a deployment is Running, Scaling or Failing; the last two branches are never reached |
| StoreModel.SingleQueueKeepsItsName | internal/deployment/worker.go:181-185 | a single queue gives the same deployment name with and without KEDA scaling |
| StoreResources.DeploymentPass | internal/manager/base/resources.go:181-212 | after a successful pass all generated deployments are applied, and without a queue error the deployments with worker labels are exactly the named ones; with one nothing is deleted |
| StoreResources.AppliedRunsSpec | internal/manager/base/resources.go:186-188 | an applied deployment has the image, configuration and labels of the spec and the replicas for its role |
| StoreResources.RefusedLeaves | internal/k8s/utils.go:547-708 | a refused operation changes nothing |
| StoreResources.FailureOnlyRemoves | internal/k8s/utils.go:658-689 | an operation that does not succeed can only take away a job or obsolete workers |
| StoreResources.OperatorFinishesNoJob | internal/k8s/utils.go:658-689 | no operation gives a job its verdict; a job it creates is running |
| StoreResources.EnsureAllApplies | internal/manager/base/resources.go:190-205 | the listed deployments are applied and no other object changes |
| StoreStates.WorstIsMaximal | internal/deployment/worker.go:143-178 | the aggregate is the worst state among the workers |
| StoreStates.RunningMeans | internal/manager/base/base.go:40-71 | all running, or available, iff the queue names are valid and every generated deployment is |
| StoreStates.RunningExactly | internal/manager/base/base.go:40-71 | all running, or available, in terms of the cluster: every generated deployment exists, can be read and is not down, or not beyond its deadline |
| StoreStates.QueueRefreshedExactly | internal/manager/queue.go:16-58 | the queues are refreshed exactly in Ready with a connection and the admin up, and how |
| StoreStates.FailedStatsKeepTransports | internal/manager/queue.go:30-50 | a failed statistics call keeps the transports |
| StoreStates.DiscoveryDoesNotDemote | internal/manager/status.go:66-69 | newly reported queues do not influence the state decided in the same phase |
| StoreManager.StoreStateManager.WorkerDeployments | internal/deployment/worker.go:27-62 | an error iff a queue name is empty, otherwise the names of the worker deployments |
| StoreManager.StoreStateManager.CleanupObsoleteWorkerDeployments | internal/deployment/worker.go:64-98 | deletes the labelled deployments that are not desired; succeeds iff the names are valid, the listing succeeds and no obsolete one is undeletable |
| StoreManager.StoreStateManager.DeleteUndesired | internal/deployment/worker.go:87-97 | deletes only listed and undesired objects, all of them exactly if none is undeletable |
| StoreManager.StoreStateManager.ReconcileDeployment | internal/manager/base/resources.go:175-215 | executes the deployment operations in order until one fails; the cleanup succeeds iff its listing does and nothing to be deleted is undeletable |
| StoreManager.StoreStateManager.ReconcileSetupJob | internal/manager/base/resources.go:295-317 | the setup job is applied, kept or lost half way |
| StoreManager.StoreStateManager.ReconcileMigrationJob | internal/manager/base/resources.go:319-341 | the same for the migration job of the current tag |
| StoreManager.StoreStateManager.ReconcileScheduledTask | internal/manager/base/resources.go:343-365 | the CronJob follows the suspend flag of the spec copy |
| StoreManager.StoreStateManager.MigrationResources | internal/manager/migration/migration.go:105-124 | the migration job, then the CronJob suspended whatever the spec says |
| StoreManager.StoreStateManager.InitializingResources | internal/manager/initializing/initializing.go:46-59 | the deployments, then the scaled objects |
| StoreManager.StoreStateManager.ReadyResources | internal/manager/ready/ready.go:68-107 | the migration job alone while the image differs, otherwise everything in order |
| StoreManager.StoreStateManager.ReconcileResources | internal/manager/manager.go:87-144 | executes the plan for the state until an operation fails |
| StoreManager.StoreStateManager.GetWorkerDeploymentCondition | internal/deployment/worker.go:100-179 | the worst worker state, an error for invalid names |
| StoreManager.StoreStateManager.AllDeploymentsRunning | internal/manager/base/base.go:52-59 | true iff admin, workers and storefront are running |
| StoreManager.StoreStateManager.AllDeploymentsAvailable | internal/manager/base/base.go:61-71 | true iff each of them is running or scaling |
| StoreManager.StoreStateManager.WaitHandler | internal/manager/wait/wait.go:26-65 | Setup iff checks are disabled, or the store is waiting and every enabled check passes |
| StoreManager.StoreStateManager.SetupHandler | internal/manager/setup/setup.go:23-81 | Initializing iff the setup job is seen done without errors, SetupError iff it is seen done with errors |
| StoreManager.StoreStateManager.MigrationHandler | internal/manager/migration/migration.go:25-92 | Initializing iff the migration job of the tag is seen done without errors, and only then the tag moves to the spec image |
| StoreManager.StoreStateManager.InitializingHandler | internal/manager/initializing/initializing.go:21-44 | the tag follows the spec; Ready iff all deployments run |
| StoreManager.StoreStateManager.ReadyHandler | internal/manager/ready/ready.go:24-66 | Migration iff the deployed image is read and differs from the spec; Ready iff it cannot be read, or agrees and all deployments are available; the tag follows it |
| StoreManager.StoreStateManager.ReconcileState | internal/manager/manager.go:57-75 | dispatch by state; an unregistered state is kept and reported |
| StoreManager.StoreStateManager.UpdateQueueState | internal/manager/queue.go:16-58 | queue state replaced on success, amended on failure, untouched otherwise |
| StoreManager.StoreStateManager.ReconcileStatus | internal/manager/status.go:25-151 | state with the old queues first, queues after it, then the write |
| StoreManager.StoreStateManager.Reconcile | internal/controller/store_controller.go:248-260 | a status phase follows only a successful resource phase; stored status and cluster after both; for a store that was new once, the tag is the deployed image in Ready and the migration states |
| StoreManager.AllAnswered | internal/manager/manager.go:87-117 | if every call succeeds, the phase is the execution in which every operation succeeds |
| Progress.UndisturbedPhase | internal/manager/manager.go:87-117 | performing the plan step by step without interference is executing it |
| Progress.ReconcileIsARun | internal/controller/store_controller.go:248-260 | a whole reconcile is one of the runs that the safety theorems quantify over |
| ImageSafety.RunKeepsImage | internal/manager/initializing/initializing.go:34-49 | the image invariant holds in every state of every run, also while a reconcile is in flight |
| ImageSafety.ImageSafety | internal/manager/ready/ready.go:37-84 | in Ready, Migration and MigrationError the tag is the deployed storefront image whenever that exists, and no event changes that image |
| ImageSafety.ImageChangesExactly | internal/manager/initializing/initializing.go:46-50 | over all runs and states, the storefront image changes in a step iff a reconcile in Initializing with valid queue names applies the storefront successfully and its spec has another image |
| MigrationLicense.UnmigratedExactly | internal/manager/initializing/initializing.go:34-49 | over all runs, a step changes the storefront image without a migration from the deployed to the applied one iff it is such a step and no migration has finished since the last application, or the spec asks for another image than the one migrated to |
| MigrationLicense.MigratedIsBacked | internal/manager/migration/migration.go:71-82 | otherwise a job built for exactly that pair of images was seen done with exit code 0 |
| MigrationLicense.RunKeepsLicense | internal/manager/migration/migration.go:71-82 | from the end of a migration to the next application of the storefront the store is Initializing with the new tag and the old image |
| ImageSafety.MigrationEvidence | internal/manager/migration/migration.go:38-82 | a store leaves its migration states only for Initializing, after a job built from the spec read and the previous tag was seen done with exit code 0; the new tag is the image of that spec |
| RunOrder.NothingDeployedBeforeSetup | internal/manager/setup/setup.go:58-72 | until a reconcile has seen the setup job done with exit code 0, no generated deployment appears |
| RunOrder.ScheduledTaskStaysSuspended | internal/manager/ready/ready.go:73-99 | after a completed migration resource phase the CronJob stays suspended until a Ready phase with a matching image has passed its deployment step |
| RunOrder.WhoTouchesCron | internal/manager/migration/migration.go:112-120 | the CronJob is written only suspended in a migration state, or after the deployment step of a matching Ready plan |
| QueueDiscovery.NeverDemotedAsNotFound | internal/manager/base/base.go:61-71 | after the resource phase of a Ready store in which no deployment went away, it is demoted iff the image can be looked up and, with a matching image, a generated deployment failed or cannot be read, all of them being there; otherwise iff the storefront is missing |
| QueueDiscovery.FailedStatsAreRecorded | internal/manager/queue.go:30-50 | a failed statistics call on a Ready store with a running admin keeps the transports and records the error |
| QueueDiscovery.FailedStatsBlockCleanup | internal/manager/base/resources.go:207-212 | from then on, on every run on which the statistics calls fail, the transports stay, no reconcile has a cleanup in its plan, and no operation takes away a deployment |
| Availability.ReadySawItsDeployments | internal/manager/initializing/initializing.go:34-43 | on every run a store becomes Ready only from Initializing, by a reconcile that saw every generated deployment exist, readable and up |
| Availability.MissingDemotes | internal/manager/ready/ready.go:37-62 | a Ready store with the image of its spec is demoted when one of its deployments is gone |
| Availability.MissingKeepsInitializing | internal/manager/initializing/initializing.go:36-38 | a store in Initializing does not get Ready while one is gone |
| Availability.NoSuccessNoProgress | internal/manager/setup/setup.go:58-72 | as long as the cluster lets no job succeed, a new store stays before its initialization on every run |
| Progress.SettledIsLeftAlone | internal/manager/base/resources.go:190-212 | a Ready plan changes nothing in a settled cluster, whatever the API answers |
| Progress.ReadyPhaseSettles | internal/manager/ready/ready.go:83-104 | a completed Ready phase settles the cluster |
| Progress.SetupPhase | internal/manager/setup/setup.go:83-95 | a completed setup phase leaves the setup job of the spec and touches nothing else |
| Progress.MigrationPhase | internal/manager/migration/migration.go:105-124 | a completed migration phase leaves the migration job from the tag to the spec image and the CronJob suspended |
| Progress.ReadyStartsMigration | internal/manager/ready/ready.go:73-81 | in Ready with another image in the spec the migration job is started ahead and nothing else is touched |
| Progress.RoundMakesProgress | internal/manager/manager.go:57-75 | a good reconcile strictly lowers the distance to Ready, or stays Ready |
| Progress.ReadyInTime | internal/controller/store_controller.go:248-260 | after as many good reconciles as its distance a store is Ready with the image of its spec, and stays so |
| Progress.FourRoundsSuffice | internal/manager/wait/wait.go:26-65 | four good reconciles take an empty store to Ready |
| RoundRuns.GoodRoundIsARun | internal/controller/store_controller.go:248-260 | a good round is a lifecycle run: begin, the operations, job and replica moves, decision, write |
| RoundRuns.GoodRoundsAreARun | internal/controller/store_controller.go:200-285 | so is any sequence of good rounds, which makes the bounds above statements about runs |
| RoundRuns.ReadyIsReachable | internal/manager/manager.go:57-75 | from every registered state with valid queue names there is a run to Ready with the image of the spec |
| RoundRuns.RecoversExactly | internal/deployment/worker.go:41-47 | on any run with any spec edits, a store that is not Ready becomes Ready iff its state is registered and no stored queue name is empty |
| RoundRuns.NamelessQueueBlocks | internal/manager/queue.go:52-56 | from every new store a run leads to a state that never gets Ready: one nameless queue reported, then a new image |
| Progress.ReadyIsFixed | internal/manager/ready/ready.go:48-65 | after a good round in Ready, the next reconcile changes no object, even if its calls fail, and no status field, for every good reading whose statistics are the stored ones |
| Progress.InitializingSkipsMigration | internal/manager/initializing/initializing.go:34-49 | a good round in Initializing deploys the image of the spec, which changes the storefront iff it ran another one, and creates no migration job |
| RoundRuns.UnmigratedRollout | internal/manager/initializing/initializing.go:34-49 | for every new store and every edited image a run that replaces the running image up to Ready without any migration job |

## Left out

- Object builders: containers, probes, labels, ingress and route rules are one `config` value of the spec.
- Ingress, HTTPRoute, PDB, secrets, services, scaled objects and HPA are calls that succeed or fail and touch nothing modelled.
- Conditions, messages, events, metrics and requeue intervals of the Store handlers; the condition list itself is modelled in `ConditionLog`.
- A Store with a deletion timestamp, and status conflicts beyond "the write is stored or lost".
- The service checks of the wait state are boolean answers; so are job reads, pod lists and the reads of deployments.
- The reads of one status phase see the cluster at one moment.
- Within one undisturbed resource phase, repeated identical operations (possible only if a queue is listed twice) get the same answer; the step-by-step runs have no such restriction.
- progressDeadlineExceeded is a flag of the deployment status; aggregated ready counts are not modelled.
- QueueCache.FetchRateIsBounded: counts successful fetches, because a failed fetch stores nothing and each waiter then tries on its own.
- Pod hashing, which covers the whole object, and the polling loop that waits for a deleted job; the job is gone or not.
- Root-cause reporting of `uploadBucket`: a walk error cancels the workers, and their Canceled error is returned first.
- `os.Stat` of the source path, logging thresholds and the width of the 64-bit upload counters.
- `emptyBucketAsync` and the older `downloadBucket`: neither promises what its name suggests under failures.
- StoreExec with a cron schedule: creating its CronJob; such executions are never cleaned up and take the same status steps.
- The nil receiver of the trigger recorder, its predicates, and the formatting of durations.
- `operatorEnv` is an arbitrary list, since it repeats a name in one configuration.
- Snapshots, debug instances, the webhook, the CLI, and all I/O with MySQL, S3, NATS and Prometheus.
