# Verification of the shell-operator core

The shell-operator turns Kubernetes and cron events into hook runs on named queues. This project models
its scheduling core in Dafny 4.11 and proves what the core is relied on for.

`dafny verify dfyconfig.toml` checks everything.

## What is modelled

* **Queues and the worker.** `TaskQueue.dfy` is the queue as a class whose methods shift and rebuild the
  slice, with the combine step and the handler of hook runs on top. `WorkerMachine.dfy` is the same
  worker as a step machine: the worker's separately locked steps (take the head, scan, filter, call the
  handler, append tail tasks, remove, push head tasks, sleep) interleave freely with arrivals from the
  event goroutine and with the clock. Two ghost records, the ledger of everything ever queued and the
  log of handler calls, make the statements about whole runs possible. `WorkerLedger.dfy`,
  `WorkerCalls.dfy`, `WorkerSerial.dfy`, `WorkerMerging.dfy` and `MainQueueOrder.dfy` hold the theorems;
  `AcrossQueues.dfy` has the main queue beside any number of others.
* **Group compaction** (`BindingContexts.dfy`): the look-ahead loop of the operator and the overwrite loop
  of the test library, against one specification.
* **Back-off** (`Backoff.dfy`) in integer nanoseconds with 64-bit wrap-around; the random addend is an
  argument.
* **Object cache** (`ResourceInformer.dfy`): the cache, the checksum suppression, the pause flag and the
  emitted stream. The jq filter with its checksum is an arbitrary partial function.
* **Monitors** (`Monitor.dfy`): informers per namespace, the informer of namespaces with its callbacks, and the
  tree of cancellable contexts; and the event stream of a whole monitor (`MonitorStream.dfy`).
* **Grouped metrics**: `Vault.dfy` has the collectors, the vault and the batch sender as classes,
  `Metrics.dfy` what they do to values, `MetricGroups.dfy` the theorems about one group, `MetricOrder.dfy`
  those about the order of several, `LabelValues.dfy` and `PlainMetrics.dfy` the hashing of label values.
* **Schedules** (`ScheduleManager.dfy`), **hook configuration** (`HookConfig.dfy`), **snapshots**
  (`Snapshots.dfy`), **event routing** (`EventRouting.dfy`) and the **state controller** of the test
  library (`StateController.dfy`).

Parameters stand for what comes from outside: the hash function, the sorting of label names, the cron
parser, fresh UUIDs, hook exit codes, the random addend, rejections by the cluster, failures to create
informers, and every order in which Go may walk a map.

### Where the code differs from its comments and documentation

* A group batch always expires its group first, so `shell-operator/METRICS.md:142-147` shows a counter of 2
  where the code gives 1 (`MetricGroups.CounterRestarts`).
* `shell-operator/METRICS.md:46-61` shows operations without a group as `{"action":…,"value":…}`.
  `SendBatch` validates them and applies the groups, and then returns an error, because operations without a
  group need the `add` or `set` field (`Vaults.MetricStorage.SendBatch`, and `Metrics.DocumentedFormIsRefused` for
  the documented form).
* `shell-operator/pkg/kube_events_manager/monitor.go:269` says that Stop stops all informers. It stops those
  of dynamic namespaces; static informers and the informer of namespaces wait on the context the monitor was
  created with, and every monitor has one or the other (`Monitors.StopNeverStopsAll`).
* Objects of a namespace that appears later are cached but not reported, and those of a namespace that
  disappears are dropped but not reported (`MonitorStream.MonitorCompleteExactly`, and
  `MonitorStream.NamespaceWithOneObject` for a namespace with one object).
* A hook sees its Synchronization before its Events on the main queue only. When it has a kubernetes binding on
  another queue, and some binding that is run on Synchronization, it can succeed on an Event before it is
  synchronized (`AcrossQueues.NeverLateExactly`).
* The order in which Go walks the groups of a batch can show in the metrics: in shared metrics, and when two
  groups give a new metric different label names or types (`MetricOrder.OneResultExactly`).
* `shell-operator/pkg/schedule_manager/schedule_manager.go:54` says that Add starts the scheduled function.
  It does not when the crontab's ids had run out before (`ScheduleManagers.WantedAlwaysFiresExactly`).
* HeadTasks end up reversed at the head of the queue (`TaskQueues.TaskQueue.HandleResult`).
* Ambiguous binding names are refused in explicit include lists only, not in those that a group adds
  (`HookConfigs.AcceptedWithAmbiguousName`), and snapshots are looked up by the first binding of a name, so
  that bindings of accepted configurations can miss theirs (`Snapshots.AcceptedMissesSnapshots`).

## Model

| member | source | states |
|---|---|---|
| `BindingContexts.CompactLookahead` | shell-operator/pkg/shell-operator/operator.go:546-562 | the look-ahead loop returns the specified compaction of every list |
| `BindingContexts.CompactInPlace` | shell-operator/test/hook/context/generator.go:27-46 | the overwriting loop returns the same compaction, so the two implementations agree on every input |
| `BindingContexts.CompactAbsorb` | shell-operator/pkg/shell-operator/operator.go:526-564 | compacting an already compacted list with newcomers equals compacting all original contexts once |
| `BindingContexts.CompactFixpoint` | shell-operator/pkg/shell-operator/operator.go:546-562 | a list is left alone exactly when no two neighbours share a non-empty group |
| `BindingContexts.CompactKeepsLastOfEachRun` | shell-operator/pkg/shell-operator/operator.go:546-562 | however a list is cut into maximal runs of one group, compaction gives the last context of each run |
| `BindingContexts.RunsExist` | shell-operator/pkg/shell-operator/operator.go:546-562 | every list can be cut into such runs, ungrouped contexts each being a run |
| `BindingContexts.CompactKeepsOrder` | shell-operator/pkg/shell-operator/operator.go:546-562 | a list in which no Event comes before a Synchronization stays so |
| `Backoff.DelayRange` | shell-operator/pkg/utils/exponential_backoff/delay.go:27-60 | for initial delays of 0 to 32s every delay lies between the initial delay and 32s and is 32s from retry 6 on |
| `Backoff.DelaysAre` | shell-operator/pkg/utils/exponential_backoff/delay.go:27-60 | every delay in nanoseconds: 1, 2, 4, 8 and 16 seconds and the random part are added, cut off to 100 ms and capped at 32 seconds, which is the delay from retry 6 on |
| `Backoff.NextRetryWaitsLonger` | shell-operator/pkg/utils/exponential_backoff/delay.go:38-60 | a later retry never waits less than an earlier one, for all random addends |
| `Backoff.NeverShrinksExactly` | shell-operator/pkg/utils/exponential_backoff/delay.go:27-60 | among all 64-bit initial delays this holds for exactly those from 0 to 32s |
| `Tasks.ScanIsPrefix` | shell-operator/pkg/shell-operator/operator.go:488-517 | the tasks collected are a stretch right behind the head, without gaps |
| `Tasks.DeleteMiddle` | shell-operator/pkg/shell-operator/operator.go:526-544 | under distinct ids, filtering by id removes exactly that stretch |
| `TaskQueues.TaskQueue.AddFirst` | shell-operator/pkg/task/queue/task_queue.go:138-144 | the item is put before all others |
| `TaskQueues.TaskQueue.AddLast` | shell-operator/pkg/task/queue/task_queue.go:173-179 | the item is put behind all others |
| `TaskQueues.TaskQueue.GetFirst` | shell-operator/pkg/task/queue/task_queue.go:162-170 | the head, or nil on an empty queue |
| `TaskQueues.TaskQueue.RemoveFirst` | shell-operator/pkg/task/queue/task_queue.go:147-159 | the head is returned and the rest stays |
| `TaskQueues.TaskQueue.Remove` | shell-operator/pkg/task/queue/task_queue.go:280-299 | the first item with the id is cut out, or nothing changes; nil slots are allowed behind it, in front of it the search panics |
| `TaskQueues.TaskQueue.AddAfter` | shell-operator/pkg/task/queue/task_queue.go:225-248 | the item follows the first one with the id, and nil slots behind that are kept; without one it is lost and a nil slot is left |
| `TaskQueues.TaskQueue.AddBefore` | shell-operator/pkg/task/queue/task_queue.go:251-277 | the same before the first one with the id |
| `TaskQueues.TaskQueue.Filter` | shell-operator/pkg/task/queue/task_queue.go:471-487 | exactly the accepted items remain, in order |
| `TaskQueues.TaskQueue.AddAllAfter` | shell-operator/pkg/task/queue/task_queue.go:361-365 | pushing after-tasks from the last to the first leaves them in order behind the head |
| `TaskQueues.TaskQueue.AddAllLast` | shell-operator/pkg/task/queue/task_queue.go:366-368 | tail tasks end up behind everything, in order |
| `TaskQueues.TaskQueue.AddAllFirst` | shell-operator/pkg/task/queue/task_queue.go:370-373 | pushing head tasks one by one leaves them reversed |
| `TaskQueues.TaskQueue.ReplaceHead` | shell-operator/pkg/task/queue/task_queue.go:359-374 | the whole replacement of the head after a success, composed of the four slice operations |
| `TaskQueues.TaskQueue.HandleResult` | shell-operator/pkg/task/queue/task_queue.go:345-392 | success turns [t]+rest into reverse(head tasks) + after tasks + rest + tail tasks; failure counts and keeps the queue |
| `TaskQueues.NextSleepDelay` | shell-operator/pkg/task/queue/task_queue.go:354-395 | the sleep before the next round in nanoseconds: what the handler asked for, or else a table over failures, 25 ms for a repeat, and none after a success |
| `TaskQueues.ScanTasks` | shell-operator/pkg/shell-operator/operator.go:488-517 | iterating with the closure collects exactly the absorbable stretch |
| `TaskQueues.JoinContexts` | shell-operator/pkg/shell-operator/operator.go:526-536 | the contexts of the head and of all collected tasks, in queue order |
| `TaskQueues.MarkTasks` | shell-operator/pkg/shell-operator/operator.go:526-536 | an id is marked for deletion exactly when a collected task has it |
| `TaskQueues.CombineBindingContextForHook` | shell-operator/pkg/shell-operator/operator.go:479-567 | nothing changes without absorbable tasks or queue, otherwise they leave the queue and the compacted contexts are returned |
| `TaskQueues.CombineIntoHead` | shell-operator/pkg/shell-operator/operator.go:422-429 | on a queue with distinct ids the result is the combine step of the worker machine |
| `TaskQueues.TaskHandleHookRun` | shell-operator/pkg/shell-operator/operator.go:398-476 | a v1 hook gets all contexts of the longest stretch of its own tasks at the head of the queue, compacted, and the stretch is merged into the head; what the hook was given stays in the task for a retry, and the status is a failure only when failing is not allowed |
| `Tasks.CombinedAbsorbs` | shell-operator/pkg/shell-operator/operator.go:488-544 | combining takes every task behind the head up to the first one without metadata, of another hook or of another kind, and no other |
| `WorkerMerging.HeadTakesUp` | shell-operator/pkg/shell-operator/operator.go:422-429 | when the worker takes a task up it goes on with the longest stretch for a run of a v1 hook in its own queue, and with the task alone otherwise |
| `WorkerMerging.StretchIsCalledTogether` | shell-operator/pkg/shell-operator/operator.go:422-429 | every start with such a stretch has a run in which the hook is called once with all of its tasks |
| `WorkerLedger.RemoveShape` | shell-operator/pkg/task/queue/task_queue.go:369-371 | removing the finished task by its id takes away exactly the head, whatever has arrived meanwhile, and records its block as finished |
| `WorkerLedger.FoldedAbsorbs` | shell-operator/pkg/shell-operator/operator.go:424-428 | absorbing again after a failed run equals absorbing everything at once |
| `WorkerLedger.ExtendBlock` | shell-operator/pkg/shell-operator/operator.go:526-564 | the merged head still carries the single compaction of everything it stands for |
| `WorkerLedger.FilterShape` | shell-operator/pkg/shell-operator/operator.go:537-544 | after the filter the queue is the head with merged contexts and everything behind the scanned stretch |
| `WorkerLedger.StepKeepsInv` | shell-operator/pkg/task/queue/task_queue.go:316-398 | every step of worker and environment keeps the structural invariant |
| `WorkerLedger.LedgerBalances` | shell-operator/pkg/task/queue/task_queue.go:316-398 | in every run each task ever queued is finished, absorbed by a task of its hook, or still queued, and only one of these |
| `WorkerLedger.ServedInArrivalOrder` | shell-operator/pkg/task/queue/task_queue.go:359-374 | without head tasks, finished and remaining tasks with merged ones unfolded are the arrivals in order |
| `WorkerCalls.HeadBlocksQueue` | shell-operator/pkg/task/queue/task_queue.go:341-395 | until a call of a task succeeds no other task is handled, and afterwards it is never handled again |
| `WorkerCalls.HookSeesAllAbsorbed` | shell-operator/pkg/shell-operator/operator.go:422-429 | each call gets the original contexts of all merged tasks compacted once, however many failures came between |
| `WorkerCalls.DelayIsRespected` | shell-operator/pkg/task/queue/task_queue.go:403-453 | the handler is not called again before the chosen delay has passed |
| `WorkerCalls.EmptyQueueIsPolled` | shell-operator/pkg/task/queue/task_queue.go:403-453 | on an empty queue the worker does not look again before three seconds have passed, and then may |
| `WorkerCalls.RetriesBackOff` | shell-operator/pkg/task/queue/task_queue.go:354-358 | over consecutive failures of one task delays start at 5s or more, never shrink, and are 32s from the seventh on |
| `WorkerCalls.HookServesInArrivalOrder` | shell-operator/pkg/task/queue/task_queue.go:359-374 | without head tasks successful calls take the tasks strictly in order of arrival |
| `WorkerSerial.StepIsSerial` | shell-operator/pkg/task/queue/task_queue.go:359-374 | each step is one serial operation, or none, on the committed queue |
| `WorkerSerial.InterleavingsAreSerial` | shell-operator/pkg/task/queue/task_queue.go:316-398 | whenever no combine or replacement is half done, the queue is what some serial order of whole operations yields |
| `WorkerSerial.ArrivalsSurviveFilter` | shell-operator/pkg/shell-operator/operator.go:488-544 | tasks appended between the scan and the filter are never deleted |
| `MainQueueOrder.AddStartupTasks` | shell-operator/pkg/shell-operator/operator.go:569-594 | one startup run per hook, in the given order |
| `MainQueueOrder.AddEnableTasks` | shell-operator/pkg/shell-operator/operator.go:596-627 | monitors before schedules, each only when the hook has such bindings, and the queue stays ordered |
| `MainQueueOrder.PrepopulateMainQueue` | shell-operator/pkg/shell-operator/operator.go:569-628 | the main queue starts with the startup hooks in order, each with its onStartup context, and then the enabling of each hook's bindings; every task is given but for its id |
| `MainQueueOrder.MergeKeepsOrder` | shell-operator/pkg/shell-operator/operator.go:479-567 | merging the first tasks of an ordered queue keeps it ordered, contexts included |
| `MainQueueOrder.StepKeepsMain` | shell-operator/pkg/shell-operator/operator.go:328-395 | every step under the operator's handlers keeps the order of the main queue, with event tasks arriving at any moment, also while monitors are being enabled |
| `MainQueueOrder.SynchronizationPrecedesEvents` | shell-operator/pkg/shell-operator/operator.go:328-395 | in every reachable state startup precedes the rest and no Event of a hook precedes its Synchronization or its enabling; once a hook succeeded on an Event of this queue, the worker of this queue never calls it with a Synchronization |
| `AcrossQueues.StepKeepsFree` | shell-operator/pkg/task/queue/task_queue.go:316-398 | a queue without contexts of one kind for a hook gets them from new tasks only, never by merging or retrying |
| `AcrossQueues.MainStepKeepsOnMain` | shell-operator/pkg/shell-operator/operator.go:328-395 | steps of the main worker never bring a late Synchronization for a hook whose kubernetes bindings are all on the main queue |
| `AcrossQueues.OtherStepKeepsOnMain` | shell-operator/pkg/shell-operator/manager_events_handler.go:86-99 | nor do steps of the worker of any other queue |
| `AcrossQueues.MainStepKeepsUnsynchronized` | shell-operator/pkg/hook/controller/kubernetes_bindings_controller.go:94-102 | a hook of version 0, or without any binding run on Synchronization, is never called with one by the main worker |
| `AcrossQueues.OtherStepKeepsUnsynchronized` | shell-operator/pkg/shell-operator/manager_events_handler.go:86-99 | nor by the worker of any other queue |
| `AcrossQueues.LateOnOther` | shell-operator/pkg/shell-operator/operator.go:343-357 | for any other hook there is a run in which it succeeds on an Event first and is called with the Synchronization afterwards |
| `AcrossQueues.NeverLateExactly` | shell-operator/pkg/shell-operator/operator.go:343-357 | over all runs of the workers of all queues, a hook is never called with a Synchronization after succeeding on an Event, exactly when no binding of it is run on Synchronization or all its kubernetes bindings are on the main queue |
| `ResourceInformers.ResourceInformer.ShouldFireEvent` | shell-operator/pkg/kube_events_manager/resource_informer.go:383-390 | true exactly for the configured event types |
| `ResourceInformers.ResourceInformer.LoadExistedObjects` | shell-operator/pkg/kube_events_manager/resource_informer.go:180-242 | the listed objects are cached, the last of each id, each with the filter's own checksum, result and kept flag, or none when listing fails or one cannot be filtered |
| `ResourceInformers.ResourceInformer.HandleWatchEvent` | shell-operator/pkg/kube_events_manager/resource_informer.go:260-352 | cache and emitted events after one watch event, in every branch; what is cached, also when the event is suppressed, and what is emitted has the filter's own checksum, result and kept flag |
| `ResourceInformers.ResourceInformer.PauseHandleEvents` | shell-operator/pkg/kube_events_manager/resource_informer.go:412-415 | only the stop flag changes |
| `ResourceInformers.RunAgrees` | shell-operator/pkg/kube_events_manager/resource_informer.go:260-352 | with all event types, replaying the stream on the snapshot gives the cache after every input sequence |
| `ResourceInformers.CacheIsLastForm` | shell-operator/pkg/kube_events_manager/resource_informer.go:260-352 | after any run each object is cached as the filter's form of its last event that passed the filter before handling was stopped, or not at all when that was a delete; without such an event it is cached as it was listed |
| `ResourceInformers.StreamCompleteExactly` | shell-operator/pkg/kube_events_manager/resource_informer.go:260-352 | the stream is complete for all caches and inputs exactly when all three types are configured |
| `ResourceInformers.FollowsInformerExactly` | shell-operator/pkg/kube_events_manager/resource_informer.go:260-352 | over what a shared informer delivers, Added for unknown and Modified and Deleted for known objects: a hook can follow the cache exactly when Added and Deleted are configured, and Modified unless the filter shows no change of an object, or nothing passes the filter |
| `ResourceInformers.EmittedExactly` | shell-operator/pkg/kube_events_manager/resource_informer.go:280-350 | an event is emitted exactly when handling is not paused, its type is configured and it changes what is known, or deletes |
| `ResourceInformers.RelistIsSilent` | shell-operator/pkg/kube_events_manager/resource_informer.go:280-305 | re-delivering every listed, unchanged object as Added changes and emits nothing |
| `MonitorStream.StepExactly` | shell-operator/pkg/kube_events_manager/monitor.go:121-189 | one watch event or namespace callback keeps hook and monitor in step exactly when it does not add or drop cached objects silently |
| `MonitorStream.MonitorCompleteExactly` | shell-operator/pkg/kube_events_manager/monitor.go:121-189 | with all event types, snapshot and events give the monitor's caches all along any run, exactly when every namespace added later brings no objects and every one deleted has none left |
| `MonitorStream.NamespaceWithOneObject` | shell-operator/pkg/kube_events_manager/monitor.go:121-163 | the instance of a namespace that appears with one object, which the monitor then holds and the hook does not know |
| `MonitorStream.RedeliveryIsSilent` | shell-operator/pkg/kube_events_manager/resource_informer.go:180-242 | re-delivering the objects of a namespace that was added later tells the hook nothing |
| `Monitors.Monitor.CreateInformers` | shell-operator/pkg/kube_events_manager/monitor.go:92-193 | static informers for the configured namespaces, or an informer of namespaces and informers for those listed; fails exactly when creating a static one, the selector or the listing does |
| `Monitors.StaticInformersFor` | shell-operator/pkg/kube_events_manager/monitor.go:92-120 | each object name is watched in the named namespaces, in all at once when none is named, and nowhere at first with a label selector |
| `Monitors.Monitor.OnNamespaceAdded` | shell-operator/pkg/kube_events_manager/monitor.go:121-163 | a new namespace gets a context of its own and informers under it, none when creating them failed; known and static ones are ignored |
| `Monitors.Monitor.OnNamespaceDeleted` | shell-operator/pkg/kube_events_manager/monitor.go:164-188 | its context is cancelled and both maps forget it, unless it is static |
| `Monitors.Monitor.Start` | shell-operator/pkg/kube_events_manager/monitor.go:248-267 | every dynamic namespace gets a context of its own below the monitor's new one and its informers wait on that; static informers and the informer of namespaces keep theirs |
| `Monitors.Monitor.Stop` | shell-operator/pkg/kube_events_manager/monitor.go:269-275 | only the monitor's current context is cancelled |
| `Monitors.CallbacksFollowNamespaces` | shell-operator/pkg/kube_events_manager/monitor.go:121-189 | after any callbacks, before or after Stop, both maps have exactly the keys of the plain set fold of the callbacks |
| `Monitors.LiveContexts` | shell-operator/pkg/kube_events_manager/monitor.go:121-189 | every live namespace context belongs to a namespace in that set, and conversely, until Stop; none is live afterwards |
| `Monitors.StopReaches` | shell-operator/pkg/kube_events_manager/monitor.go:269-275 | from Stop on, whatever the callbacks do, informers of dynamic namespaces are stopped, later ones included, and static ones and the informer of namespaces are not |
| `Monitors.StopNeverStopsAll` | shell-operator/pkg/kube_events_manager/monitor.go:269-275 | no started monitor is stopped entirely: a static informer or the informer of namespaces goes on |
| `LabelEncoding.LabelValues` | shell-operator/pkg/utils/labels/labels.go:41-47 | one value for each label name, empty when the label is missing |
| `LabelEncoding.HashLabelValues` | shell-operator/pkg/metric_storage/vault/collector.go:194-203 | the hasher is fed every value and a terminator behind it |
| `LabelEncoding.EncodeInjective` | shell-operator/pkg/metric_storage/vault/collector.go:194-203 | lists of values without the byte 255 are encoded differently |
| `LabelEncoding.UniquelyEncodedExactly` | shell-operator/pkg/metric_storage/vault/collector.go:194-203 | values differ from all others of the collector exactly when there is one label at most or no value has the byte 255 |
| `PlainMetrics.CollectorRuns` | shell-operator/pkg/metric_storage/vault/collector.go:59-155 | the calls of a collector, whatever labels they have, are a run of steps on the values of its own label names |
| `PlainMetrics.CollectorIsPlainMapExactly` | shell-operator/pkg/metric_storage/vault/collector.go:59-155 | over all Adds, Sets and expirations a collector reports what a map keyed by label values would, exactly when the hash tells the values in use apart |
| `PlainMetrics.CleanValuesToldApart` | shell-operator/pkg/metric_storage/vault/collector.go:196-203 | values without the byte 255 are told apart by a hash that is injective on its inputs |
| `PlainMetrics.SeparatorSharesCell` | shell-operator/pkg/metric_storage/vault/collector.go:196-203 | other values with the byte 255 share their cell, whatever the hash |
| `Vaults.ConstCollector.Add` | shell-operator/pkg/metric_storage/vault/collector.go:59-79 | the cell of the label values grows by the whole part of the value modulo 2^64 and keeps its first group, or is created with the whole part |
| `Metrics.WholePartIsAdded` | shell-operator/pkg/metric_storage/vault/collector.go:68-76 | the amount counted is the largest integer not above the value, below 2^64, and nothing for a negative fraction |
| `Vaults.ConstCollector.Set` | shell-operator/pkg/metric_storage/vault/collector.go:137-155 | the cell gets the new level and keeps its first group, or is created |
| `Vaults.ConstCollector.ExpireGroupMetrics` | shell-operator/pkg/metric_storage/vault/collector.go:107-116 | deleting while walking the map removes exactly the group's cells |
| `Vaults.GroupedVault.ExpireGroupMetrics` | shell-operator/pkg/metric_storage/vault/vault.go:26-32 | every collector loses exactly the group's cells |
| `Vaults.GroupedVault.GetOrCreateCollector` | shell-operator/pkg/metric_storage/vault/vault.go:34-66 | a missing collector is created, one of the other kind is an error |
| `Vaults.GroupedVault.CounterAdd` | shell-operator/pkg/metric_storage/vault/vault.go:68-75 | the vault after an Add; other collectors are unchanged |
| `Vaults.GroupedVault.GaugeSet` | shell-operator/pkg/metric_storage/vault/vault.go:77-84 | the vault after a Set; other collectors are unchanged |
| `Vaults.MetricStorage.ApplyGroupOperations` | shell-operator/pkg/metric_storage/metric_storage.go:383-401 | the group is expired and its operations are applied in order |
| `Vaults.MetricStorage.SendBatchV0` | shell-operator/pkg/metric_storage/metric_storage.go:309-328 | calls up to the first operation without 'add' and 'set', success exactly without one |
| `Vaults.MetricStorage.ApplyGroups` | shell-operator/pkg/metric_storage/metric_storage.go:355-358 | the walk over the map applies every group once, in some order |
| `Vaults.MetricStorage.SendBatch` | shell-operator/pkg/metric_storage/metric_storage.go:330-367 | invalid batches change nothing; valid ones apply every group in some order and then the ungrouped operations |
| `Metrics.DocumentedFormIsRefused` | shell-operator/pkg/metric_storage/metric_storage.go:309-328 | an operation without a group that has an action and a value only is valid, and makes `SendBatch` fail |
| `Vaults.ValidateOperations` | shell-operator/pkg/metric_storage/operation/operation.go:97-146 | accepts exactly the batches of valid operations |
| `Vaults.ValidateMetricOperation` | shell-operator/pkg/metric_storage/operation/operation.go:109-146 | no message is collected exactly for the valid operations |
| `Vaults.GroupOperations` | shell-operator/pkg/metric_storage/metric_storage.go:340-353 | each group gets its operations in order, and so do the ungrouped ones |
| `MetricGroups.GroupAt` | shell-operator/pkg/metric_storage/metric_storage.go:383-401 | a batch acts on each cell of the vault on its own |
| `MetricGroups.GroupIsRebuilt` | shell-operator/pkg/metric_storage/metric_storage.go:383-401 | own and unowned metrics hold the sum or last level of the operations after the last expire, or are gone; metrics of other groups stay and count on; a new one has the labels of the first operation that hits it |
| `MetricGroups.CounterRestarts` | shell-operator/pkg/metric_storage/metric_storage.go:383-401 | adding to a metric of the own group leaves the whole part of what was added, whatever was counted before: 1 where the documentation shows 2 |
| `MetricGroups.AddsUp` | shell-operator/pkg/metric_storage/metric_storage.go:383-401 | adding twice in one batch leaves twice the whole part, modulo 2^64 |
| `MetricGroups.LastLevelStays` | shell-operator/pkg/metric_storage/metric_storage.go:383-401 | setting a gauge of the own group leaves the level and the group |
| `MetricGroups.TwiceIsOnceExactly` | shell-operator/pkg/metric_storage/metric_storage.go:383-401 | applying a batch twice equals applying it once exactly when it adds nothing, modulo 2^64, to counters of other groups |
| `MetricOrder.OrderIsIrrelevant` | shell-operator/pkg/metric_storage/metric_storage.go:355-358 | all orders of walking the groups give the same vault when no metric is shared and every new name gets one signature |
| `MetricOrder.CellCommutesExactly` | shell-operator/pkg/metric_storage/vault/collector.go:59-155 | the order of two groups matters for a cell exactly as told by its owner, by who writes it, and by the sums and last levels written |
| `MetricOrder.PairOrderIrrelevantExactly` | shell-operator/pkg/metric_storage/metric_storage.go:355-358 | with one signature per new name, two groups give the same vault in both orders exactly when that holds for every cell |
| `MetricOrder.SharedMetricDependsOnOrder` | shell-operator/pkg/metric_storage/vault/collector.go:66-78 | an instance where it does matter: two groups that both leave something in a new cell |
| `MetricOrder.CellAgrees` | shell-operator/pkg/metric_storage/metric_storage.go:355-358 | any two orders of any number of groups agree on a cell: with an owner in the batch when each other group commutes with the owner, otherwise when every two groups commute |
| `MetricOrder.PairTells` | shell-operator/pkg/metric_storage/metric_storage.go:355-358 | one such pair that does not commute makes two orders of all groups end in different vaults |
| `MetricOrder.SecondSignatureTells` | shell-operator/pkg/metric_storage/vault/vault.go:34-66 | two groups that would create a new collector with different label names or types make the result depend on the order |
| `MetricOrder.OneResultExactly` | shell-operator/pkg/metric_storage/metric_storage.go:355-358 | for any number of groups the vault is the same in every order exactly when every new name gets one signature and the order does not matter for any cell |
| `ScheduleManagers.ScheduleManager.Add` | shell-operator/pkg/schedule_manager/schedule_manager.go:57-86 | the call is recorded and the invariant of entries and jobs is kept |
| `ScheduleManagers.ScheduleManager.Remove` | shell-operator/pkg/schedule_manager/schedule_manager.go:88-110 | the same for Remove, which keeps an emptied entry |
| `ScheduleManagers.JobsAreFiringCrontabs` | shell-operator/pkg/schedule_manager/schedule_manager.go:57-110 | no crontab has two jobs, and it has one exactly when it was added and its ids have never run out since |
| `ScheduleManagers.WantedAlwaysFiresExactly` | shell-operator/pkg/schedule_manager/schedule_manager.go:105-109 | a crontab fires whenever some id wants it, exactly when no Add ever found its ids run out |
| `ScheduleManagers.EmptiedIsDead` | shell-operator/pkg/schedule_manager/schedule_manager.go:105-109 | once the ids have run out no later calls schedule the crontab again |
| `StateControllers.StateController.WriteObjects` | shell-operator/test/hook/context/state.go:56-80 | creates and updates reach the merged state, or stop at a rejection with controller and cluster in agreement |
| `StateControllers.StateController.DeleteObsolete` | shell-operator/test/hook/context/state.go:82-93 | exactly the objects without manifest are deleted, in any order |
| `StateControllers.StateController.ChangeState` | shell-operator/test/hook/context/state.go:46-95 | controller and cluster always agree; success is both being the target with added + changed + removed events, and a rejection leaves each object in its old or new state |
| `StateControllers.TargetKeepsDistinct` | shell-operator/test/hook/context/state.go:54-59 | with distinct ids the target has every manifest |
| `HookConfigs.MergeArrays` | shell-operator/pkg/hook/hook_config.go:389-407 | the first list, then the elements of the second that are new, each once and in order |
| `HookConfigs.CheckIncludeSnapshots` | shell-operator/pkg/hook/hook_config.go:555-577 | succeeds exactly when each name is the name of one binding |
| `HookConfigs.HookConfig.CheckSchedule` | shell-operator/pkg/hook/hook_config.go:499-514 | succeeds exactly when the crontab parses and the include list is unambiguous |
| `HookConfigs.HookConfig.ConvertScheduleBindings` | shell-operator/pkg/hook/hook_config.go:336-353 | succeeds exactly when all schedules are acceptable, and then converts each |
| `HookConfigs.ConvertKubernetesBinding` | shell-operator/pkg/hook/hook_config.go:296-328 | one binding: the name and the queue have defaults, execution on Synchronization is off only for "false", waiting only for "false" on a named queue |
| `HookConfigs.ConvertScheduleV1` | shell-operator/pkg/hook/hook_config.go:465-489 | one schedule binding with its defaults |
| `HookConfigs.HookConfig.GroupSnapshots` | shell-operator/pkg/hook/hook_config.go:355-367 | exactly the non-empty groups, each with the names of its bindings in order |
| `HookConfigs.HookConfig.CloseGroups` | shell-operator/pkg/hook/hook_config.go:368-384 | every binding of a group gets the closed include list, all others are unchanged |
| `HookConfigs.HookConfig.ConvertAndCheckV1` | shell-operator/pkg/hook/hook_config.go:258-387 | succeeds exactly on acceptable configurations, and then gives every binding with its name, queue, group, flags and ids as configured or by default, and closed include lists |
| `HookConfigs.IncludesAreClosed` | shell-operator/pkg/hook/hook_config.go:355-387 | explicit names stay a prefix, the group's bindings are included, nothing is added twice, every name exists |
| `HookConfigs.AcceptedIncludes` | shell-operator/pkg/hook/hook_config.go:258-387 | that for the kubernetes bindings of every accepted configuration, explicit names matching one binding |
| `HookConfigs.AcceptedScheduleIncludes` | shell-operator/pkg/hook/hook_config.go:336-387 | that for its schedule bindings |
| `HookConfigs.UnambiguousExactly` | shell-operator/pkg/hook/hook_config.go:355-387 | the whole list matches one binding per name exactly when the names in the group do |
| `HookConfigs.AcceptedWithAmbiguousName` | shell-operator/pkg/hook/hook_config.go:355-387 | two bindings without names, one of them in a group, are accepted and have an include list with an ambiguous name |
| `Snapshots.SnapshotsFrom` | shell-operator/pkg/hook/controller/kubernetes_bindings_controller.go:168-185 | one entry per name, with the objects of the last binding of the name that has a monitor |
| `Snapshots.KubernetesSnapshotsFor` | shell-operator/pkg/hook/controller/hook_controller.go:192-214 | snapshots for the include list of the first binding of the name |
| `Snapshots.UpdateSnapshots` | shell-operator/pkg/hook/controller/hook_controller.go:216-229 | every context keeps its content and gets those snapshots |
| `Snapshots.ContextsGetTheirLists` | shell-operator/pkg/hook/controller/hook_controller.go:192-214 | kubernetes contexts have snapshots for the list of the first kubernetes binding of their name, crontab contexts for that of the first schedule, others none |
| `Snapshots.AllGetTheirOwnExactly` | shell-operator/pkg/hook/controller/hook_controller.go:192-229 | all bindings get the snapshots they include exactly when bindings of one name include the same |
| `Snapshots.ConfiguredGetTheirOwnExactly` | shell-operator/pkg/hook/controller/hook_controller.go:192-229 | for the bindings of any configuration: exactly when those of one name have the same explicit names and group members together |
| `Snapshots.AcceptedMissesSnapshots` | shell-operator/pkg/hook/controller/hook_controller.go:192-229 | in the accepted configuration with two unnamed bindings the second one gets no snapshots although it includes one |
| `Snapshots.AllSchedulesGetTheirOwnExactly` | shell-operator/pkg/hook/controller/hook_controller.go:203-210 | all schedule bindings get the snapshots they include exactly when those of one name include the same |
| `Snapshots.UniqueNameSnapshot` | shell-operator/pkg/hook/controller/kubernetes_bindings_controller.go:168-185 | under a name used once the snapshot is the monitor's list of objects |
| `EventRouting.HookController.EnableKubernetesBindings` | shell-operator/pkg/hook/controller/kubernetes_bindings_controller.go:75-109 | on success every binding is linked to its monitor and the bindings to run first are returned, none for version 0; earlier links stay |
| `EventRouting.HookController.StartMonitors` | shell-operator/pkg/hook/controller/kubernetes_bindings_controller.go:112-116 | exactly the monitors of the linked bindings are started |
| `EventRouting.TaskHandleEnableKubernetesBindings` | shell-operator/pkg/shell-operator/operator.go:328-395 | succeeds exactly when all monitors can be added; then they are started before it returns one run per binding that wants it, in order, each on the main queue with one Synchronization context that holds the existing objects, and nothing that the main queue order does not allow |
| `EventRouting.ConvertKubeEventToBindingContext` | shell-operator/pkg/hook/controller/kubernetes_bindings_controller.go:188-225 | the loop gives one context for a Synchronization and one for each watch event of an Event |
| `EventRouting.SynchronizationTaskFields` | shell-operator/pkg/shell-operator/operator.go:349-361 | a first run has the binding's name, group and allowFailure, the main queue, and one Synchronization context with the objects which exist |
| `EventRouting.ConfiguredRunsAreHandedOver` | shell-operator/pkg/hook/hook_config.go:311-315 | from the configuration to the runs: a hook of version 1 is run first for exactly the bindings not marked "false", in their order, with their names, groups and objects |
| `EventRouting.HookController.CanHandleKubeEvent` | shell-operator/pkg/hook/controller/kubernetes_bindings_controller.go:126-133 | true exactly for events of monitors that the hook has registered |
| `EventRouting.HookController.HandleScheduleEvent` | shell-operator/pkg/hook/controller/schedule_bindings_controller.go:70-95 | each enabled binding of the crontab once, in any order |
| `EventRouting.HookController.EnableScheduleBindings` | shell-operator/pkg/hook/controller/schedule_bindings_controller.go:97-109 | every binding is linked and added to the schedule manager |
| `EventRouting.HookController.DisableScheduleBindings` | shell-operator/pkg/hook/controller/schedule_bindings_controller.go:111-116 | every binding is unlinked and removed from the schedule manager |
| `EventRouting.HookManager.HandleKubeEvent` | shell-operator/pkg/hook/hook_manager.go:231-245 | one task for each hook that registered the monitor, in the order of hooks |
| `EventRouting.EventTasksFields` | shell-operator/pkg/shell-operator/operator.go:222-246 | every task of an Event has a context for each watch event, with the event's objects and the binding's name and group, and the binding's allowFailure and queue |
| `EventRouting.HookManager.HandleScheduleEvent` | shell-operator/pkg/hook/hook_manager.go:247-259 | the tasks correspond one to one to the enabled bindings of the crontab |
| `EventRouting.ScheduleTasksFields` | shell-operator/pkg/shell-operator/operator.go:247-273 | every task of a crontab has one context without objects, and the name, group, allowFailure and queue of its binding |
| `EventRouting.OneTaskPerKubeEvent` | shell-operator/pkg/hook/hook_manager.go:231-245 | an event of a registered monitor gives exactly one task, for that hook and for the queue of the binding, and for an Event a context with its objects for each watch event |
| `EventRouting.TaskQueueSet.InitAndStartHookQueues` | shell-operator/pkg/shell-operator/operator.go:631-653 | every queue named in a binding exists, and existing queues keep their contents |
| `EventRouting.TaskQueueSet.AddTasks` | shell-operator/pkg/shell-operator/manager_events_handler.go:86-99 | each existing queue is extended by exactly its tasks, in order |
| `EventRouting.EachInItsQueue` | shell-operator/pkg/shell-operator/manager_events_handler.go:86-99 | distribution neither loses nor duplicates: a task is in the part of its own queue only |
| `EventRouting.KubeTaskQueues` | shell-operator/pkg/shell-operator/operator.go:222-246 | the task of a kubernetes event names a queue of the configuration |
| `EventRouting.ScheduleTaskQueues` | shell-operator/pkg/shell-operator/operator.go:247-273 | the tasks of a schedule event name queues of the configuration |
| `EventRouting.EventTasksAreEventTasks` | shell-operator/pkg/shell-operator/operator.go:222-273 | event tasks, whenever they are made, are the arrivals that the order of the main queue is proved for |
| `EventRouting.ManagerEventsHandler.HandleEvent` | shell-operator/pkg/shell-operator/manager_events_handler.go:65-102 | one round of the event loop: all tasks of the event reach their queues, which exist |
| `EventRouting.ManagerEventsHandler.Start` | shell-operator/pkg/shell-operator/manager_events_handler.go:65-102 | over any rounds of events, with bindings being enabled in between, no task is dropped and every queue keeps the order of arrival |
| `EventRouting.RegisteredEventIsQueued` | shell-operator/pkg/shell-operator/manager_events_handler.go:65-102 | in any round after a hook has registered a monitor, an event of it makes exactly one task, for this hook and with the objects of the event |
| `EventRouting.Operate` | shell-operator/pkg/shell-operator/operator.go:277-295 | from any loaded configurations on, with the queues created first, every task made names an existing queue and each queue gets exactly its tasks in order |

## Left out

- Helm, Kustomize and Argo manifests, shell scripts, logs and documentation: no algorithms.
- Kubernetes client, shared informers, cron parser, jq, Prometheus registry, YAML and OpenAPI validation: foreign libraries, represented by arbitrary functions or free choices.
- Hook processes, temporary files, HTTP servers, logging, metric timing, command line: a hook run is a free outcome.
- FNV and MD5: the hash and the checksum are arbitrary functions, and injectivity is an explicit hypothesis where it is used.
- Rendering of binding contexts as JSON and textual dumps of queues: formatting.
- Data races on unlocked fields: locked operations are atomic steps; AddAfter and AddBefore, which take no lock, are treated sequentially, and no handler of the operator returns after-tasks.
- RemoveLast, GetLast, Get, Length, IsEmpty and removal of whole queues: easy members on top of the same slice.
- The worker's status texts and the add and remove callbacks of the queue: they do not influence scheduling.
- Sorting of startup hooks: the order is taken as given, because sort.Slice is not stable.
- CheckOnKubernetesEventV1 (syntax of apiVersion and selectors): its outcome is a field of the configuration.
- Version 0 hook configurations and their conversion: a subset of version 1 without groups and includes.
- Gauges are real numbers, and a float64 outside the range of uint64 is converted by an arbitrary function.
- Prometheus vectors of metrics without a group: only the sequence of calls is recorded.
- SetInitialState of the state controller: a loop of creations without reconciliation.
- `Vaults.GroupedVault.GetOrCreateCollector`: registration with the Prometheus registry always succeeds, so its error is not returned.
- `EventRouting.TaskQueueSet.AddTasks`: queues are held as lists of tasks inside the set instead of separate queue objects; their workers are the subject of the worker machine.
- `StateControllers.StateController.ChangeState`: with repeated ids only the number of accepted cluster operations is stated for the returned count.
