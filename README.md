# k8s-lab control plane, modelled in Dafny

k8s-lab is a Kubernetes control plane that shards a list of jobs across a
pool of workers. A swarm resource names a statefulset and the jobs it runs.
The swarm pool controller keeps one worker pool per swarm. It watches the
statefulset's pods and its replica count. On every size change it
rebalances the jobs over the workers and marks workers for refresh.

The pieces modelled here are these:

- **Partitioner** (`Partition`): the pool-config balancer. It slices the
  job list into per-worker entries keyed `setName-i` and stores them with a
  version. On downscale it trims the surplus entries.
- **Worker and pool** (`Worker`, `Pool`):
  - A worker moves between `WaitingAssignation`, `NeedsRefresh` and
    `Syncing`.
  - The pool registers workers by name.
  - On a resize the pool bumps its version, rebalances, and marks the
    lowest-index workers for refresh.
- **Job-set algebra** (`Config`): the difference and equality of job lists
  and of versioned workload maps.
- **Work queue and retry loop** (`Queue`, `Retry`, `Runner`, `Consumer`,
  `KeyController`, `OperatorController`):
  - The in-memory fake queue stands in for the rate-limited workqueue.
  - The retry rule shared by the runner, the consumer and the key-based
    controller: on success the item is forgotten. On failure it is re-added
    while it has been added fewer than 5 times, and forgotten after that.
  - The informer key routing: a stored object is set or handled, a
    vanished key is removed or deleted.
- **Event dispatch and filtering** (`Processor`, `ExpectedSize`,
  `Middleware`, `Selector`, `Informer`, `Cache`):
  - The event processor's created/updated/deleted dispatch.
  - The statefulset handler that derives an expected size.
  - The `app`-label filter and validator.
  - The client-go key functions the controllers use.
- **Swarm orchestration**:
  - `SelectorStore`: statefulset to swarm binding.
  - `SizeTracker`: the statefulset handler that forwards replica changes
    only.
  - `PodHandler` and `PodState`: pod readiness and the statefulset ordinal
    of a pod.
  - `SwarmEvent`, `SwarmController`: the swarm commands and their
    controller.
  - `Manager`: the pool per swarm.
  - `SwarmProvider`: lister lookups and the pod filter.
  - `CrdProvider`, `SwarmApi`: the swarm resource and its conversion to and
    from workloads.
- **Two registries**: the config reloader's watch set (`ConfigReloader`)
  and the fake worker's first-assignment latch (`FakeWorker`).

Classes keep the source's mutable state: the queue, the pool, the balancer
state, the stores and the handlers. Each method's contract states its new
state, often through a specification function on values. Examples are
`Queue.Added` and `Queue.Removed` for the queue, and `Retry.Rounds` for a
whole worker loop. Lemmas then prove what the system promises about those
functions.

Collaborators are fields or parameters of function type. These include the
listers, the indexers, the API clients, and handlers whose code is not
part of this model. Several call sites in the swarm pool controller call
operations that the shown definitions do not have. These calls are modelled
as such answers too:
- `Pool.UpdateSize(ctx, size)` and `Dump`, called from `manager.go`.
- `selectorStore.Register` and `newProcessSwarm`, called from
  `controller.go`.
- `selector.IsRegistered`, called from the statefulset handler.

The balancer's evidently intended behaviour is a partition: the per-worker
slices are disjoint and cover the job list. The pool controller's
`state_test.go` only checks slice lengths (5 each for 15 jobs over 3
workers, all jobs for a single worker), which the as-written code meets
when the count divides evenly. The code starts slice `i` at `i * size`,
where `size` is that worker's own share. The model follows the code. When
the job count is not a multiple of the worker count, later slices
overlap and the last jobs go to nobody. See "## Findings".

The event processor passes the new object first to `Updated`
(`Updated(ctx, newObj, oldObj)`). `ResourceHandler` declares its parameters
as `(old, new)`, but every handler shown reads them as `(new, old)`. The
model keeps the order of the call (`Processor.Callback.Updated(first,
second)`).

## Model

| member | source | states |
|---|---|---|
| Partition.State.constructor | services/pool-config-controller/internal/app/state.go:18-24 | a new balancer holds the given jobs and set name, no assignments and version 0 |
| Partition.State.BalanceWorkload | services/pool-config-controller/internal/app/state.go:27-69 | always returns nil; with 0 workers the map is emptied and the version is kept; with a negative count the map is emptied and the version set; with `w > 0` workers the keys are exactly `setName-0 .. setName-(w-1)`, the version is the given one, and worker `i` holds the as-written slice `i` of the unchanged job list |
| Partition.State.CleanAssignations | services/pool-config-controller/internal/app/state.go:92-97 | keeps exactly the entries of workers `0 .. min(max(t,0), size)-1`, unchanged, and the version |
| Partition.DeleteWorkers | services/pool-config-controller/internal/app/state.go:92-97 | the trimming loop: the surviving keys are those of the first `min(max(t,0), n)` workers and their values are untouched |
| Partition.AssignWorkers | services/pool-config-controller/internal/app/state.go:40-59 | the assignment loop: every worker `i < w` is stored under `setName-i` with its slice, and the key set is that of the first `max(w, n)` workers |
| Partition.ShareBounds | services/pool-config-controller/internal/app/state.go:46-54 | the start and end the loop computes are the as-written bounds, with `start <= end <= len(jobs)` |
| Partition.State.Workload | services/pool-config-controller/internal/app/state.go:80-90 | succeeds exactly when an entry `setName-i` exists, returns that entry, and otherwise errors with "Workloads not found on index i" |
| Partition.State.WorkloadFound | services/pool-config-controller/internal/app/state.go:80-90 | `Workload(i)` succeeds exactly for `0 <= i < size` |
| Partition.State.Size | services/pool-config-controller/internal/app/state.go:99-104 | the size is the number of workers whose keys are stored |
| Partition.AsWrittenSlice | services/pool-config-controller/internal/app/state.go:38-54 | worker `i` of `w` receives `n/w + (1 if i < n%w)` jobs |
| Partition.PartSizesClose | services/pool-config-controller/internal/app/state.go:38-49 | the shares differ by at most one, and earlier workers get no fewer jobs |
| Partition.SumOfSizesTotal | services/pool-config-controller/internal/app/state.go:38-49 | the shares sum to the number of jobs |
| Partition.SumOfSizesPrefix | services/pool-config-controller/internal/app/state.go:38-49 | the first `k` shares sum to `k*(n/w) + min(k, n%w)` |
| Partition.AsWrittenBoundsOrdered | services/pool-config-controller/internal/app/state.go:50-54 | each as-written slice ends `size` after its start and within the job list |
| Partition.AsWrittenPrefixCover | services/pool-config-controller/internal/app/state.go:50-56 | when `n % w == 0`, or for the first `n % w` workers, the slices laid end to end are exactly a prefix of the job list, in order |
| Partition.AsWrittenExactCover | services/pool-config-controller/internal/app/state.go:50-56 | when `n % w == 0` the slices are disjoint and cover the job list in order, as in the 15-over-3 test |
| Partition.AsWrittenMissesLastJob | services/pool-config-controller/internal/app/state.go:50-53 | when `0 < w < n` and `n % w > 0`, every slice ends before the last job |
| Partition.AsWrittenNineOverTwo | services/pool-config-controller/internal/app/state.go:50-53 | 9 jobs over 2 workers give slices `[0,5)` and `[4,8)`, and the ninth job is in neither |
| Partition.BalancedStart | services/pool-config-controller/internal/app/state.go:50-53 | the corrected start of slice `i` is the sum of the earlier shares, and the slice fits |
| Partition.BalancedSlice | services/pool-config-controller/internal/app/state.go:38-54 | a corrected slice has the worker's share as its length |
| Partition.BalancedCover | services/pool-config-controller/internal/app/state.go:40-59 | the first `k` corrected slices laid end to end are the prefix of the jobs up to the `k`-th start |
| Partition.BalancedCoverAll | services/pool-config-controller/internal/app/state.go:40-59 | the corrected slices are disjoint and cover the whole job list in order, for every `w > 0` |
| Partition.BalancedAgreesOnPrefix | services/pool-config-controller/internal/app/state.go:50-53 | the corrected and as-written slices agree when `n % w == 0` and for the first `n % w` workers |
| Partition.WorkerKeyInjective | services/pool-config-controller/internal/app/state.go:41 | distinct worker indices give distinct `setName-i` keys |
| Partition.DownscaleThreeToTwo | services/pool-controller/internal/app/state_test.go:181-217 | after balancing over 3 and then 2 workers, workers 0 and 1 resolve to their slices, worker 2 is an error, the size is 2 and the version 2 |
| Worker.Worker.constructor | services/pool-controller/internal/app/worker.go:19-27 | a new worker has the given name, IP and index, version 0, and waits for assignment |
| Worker.Worker.NeedsRefresh | services/pool-controller/internal/app/worker.go:30-35 | true exactly in state `NeedsRefresh` |
| Worker.Worker.MarkToRefresh | services/pool-controller/internal/app/worker.go:38-43 | from any state the worker needs refresh; name, IP, index and version are constants |
| Worker.Worker.MarkRefreshed | services/pool-controller/internal/app/worker.go:46-51 | from any state the worker is syncing, with no guard on the prior state |
| Worker.Lifecycle | services/pool-controller/internal/app/worker.go:19-51 | a new worker does not need refresh, does after `MarkToRefresh`, and is syncing and no longer needs refresh after `MarkRefreshed`, its identity unchanged |
| Worker.Swap | services/pool-controller/internal/app/worker.go:66-68 | the array afterwards is the old one with exactly positions `i` and `j` exchanged |
| Worker.SwappedPermutes | services/pool-controller/internal/app/worker.go:66-68 | a swap keeps the same workers with the same multiplicities |
| Worker.SortByIndex | services/pool-controller/internal/app/worker.go:55-68 | sorting the worker list under `Less` orders it by ascending index, is a permutation, and keeps distinct workers distinct |
| Worker.InsertByIndex | services/pool-controller/internal/app/worker.go:61-68 | one insertion step extends the sorted prefix by one, as a permutation |
| Pool.Pool.constructor | services/swarm-pool-controller/internal/app/pool.go:50-64 | a new pool has no workers, the given version and balancer, expected size 0, and is under variation |
| Pool.Pool.Size | services/swarm-pool-controller/internal/app/pool.go:66-70 | the size is the expected size |
| Pool.Pool.Worker | services/swarm-pool-controller/internal/app/pool.go:204-214 | succeeds exactly for a registered name and returns that worker, else errors "no worker name found" |
| Pool.Pool.AddWorkerIfNotExists | services/swarm-pool-controller/internal/app/pool.go:119-133 | returns false and changes nothing if the name exists; otherwise inserts exactly one new waiting worker with that index and name and returns true; the IP is not stored; version, size and variation flag unchanged |
| Pool.Pool.RemoveWorkerByName | services/swarm-pool-controller/internal/app/pool.go:136-142 | deletes the name whether or not it was registered, nothing else changes |
| Pool.Pool.GetAllWorkers | services/swarm-pool-controller/internal/app/pool.go:194-202 | returns every registered worker exactly once, sorted by ascending index |
| Pool.ListWorkers | services/swarm-pool-controller/internal/app/pool.go:194-201 | the workers listed from the registry are distinct and are exactly the registered ones |
| Pool.Pool.UpdateSize | services/swarm-pool-controller/internal/app/pool.go:73-116 | the registry never changes; the same size changes nothing else; a new size sets the expected size and the variation flag, bumps the version by one, and rebalances over the new size at that version, worker `i` holding the as-written slice `i` of the unchanged job list; from previous size 0 nothing is marked; otherwise exactly `min(new, prev, registered)` workers, lowest index first, need refresh and no other worker changes |
| Pool.Pool.Resize | services/swarm-pool-controller/internal/app/pool.go:81-90 | the bookkeeping and rebalance of an effective size change: the balancer's resulting keys and version, and worker `i` holding the as-written slice `i` of the unchanged job list |
| Pool.Pool.RefreshLowest | services/swarm-pool-controller/internal/app/pool.go:100-113 | exactly `min(new, prev, registered)` workers, the lowest indices, are marked and the others keep their state |
| Pool.MarkFirst | services/swarm-pool-controller/internal/app/pool.go:100-113 | marking the first `total` workers of a sorted list marks exactly the `total` lowest-index ones |
| Pool.Pool.Conciliate | services/swarm-pool-controller/internal/app/pool.go:149-178 | the variation flag is cleared unless the size is 0; registry, version and size unchanged |
| Pool.ListsWorkersByIndex | services/swarm-pool-controller/internal/app/pool_test.go:16-56 | three workers added out of order are listed lowest index first |
| Pool.ScaleUpMarksOnlyRegistered | services/swarm-pool-controller/internal/app/pool_test.go:74-107 | scaling 1 to 2 marks worker 0 and leaves the later-added worker 1 waiting |
| Pool.ScaleDownMarksLowestIndex | services/swarm-pool-controller/internal/app/pool_test.go:109-137 | scaling down marks the lowest-index worker |
| Config.Excluded | pkg/config/config.go:103-119 | an element is in the result exactly when it is in the first list and not in the second |
| Config.ExcludedEmpty | pkg/config/config.go:98-100 | the difference is empty exactly when every element of the first list occurs in the second |
| Config.Workload.Difference | pkg/config/config.go:103-119 | `excluded` is the jobs of the receiver missing from the argument, `included` the jobs of the argument missing from the receiver, each in its own list's order |
| Config.ToMap | pkg/config/config.go:121-127 | yields exactly the set of jobs |
| Config.JobsEquals | pkg/config/config.go:129-141 | holds exactly when the lengths match and every element of the first list occurs in the second |
| Config.JobsEqualsAsymmetric | pkg/config/config.go:129-141 | the test is one-sided: `[a a]` passes against `[a b]` but not the other way |
| Config.Workload.Equals | pkg/config/config.go:89-101 | false for nil; otherwise true exactly when the lengths match and each list's jobs occur in the other |
| Config.EquivalentSymmetric | pkg/config/config.go:89-101 | workload equality is symmetric |
| Config.PermutationEquivalent | pkg/config/config.go:89-101 | a permutation of a job list is equal to it in both directions |
| Config.EquivalentIgnoresRepetitions | pkg/config/config.go:89-101 | equality does not count repetitions: `[a a b]` equals `[a b b]` |
| Config.Workloads.Equals | pkg/config/config.go:66-87 | false for nil; otherwise true exactly when the versions match and every receiver key is in the argument with an equal workload |
| Config.CoversReflexive | pkg/config/config.go:66-87 | a workload map equals itself |
| Config.CoversIgnoresExtraWorkers | pkg/config/config.go:76-86 | extra keys in the argument are ignored, so equality is not symmetric |
| Queue.FakeQueue.constructor | pkg/operator/consumer_test.go:174-182 | a new queue is empty, not shut down, with no counts |
| Queue.FakeQueue.Add | pkg/operator/consumer_test.go:184-189 | appends a new element at the back, indexes it for the item and counts one more add |
| Queue.FakeQueue.Len | pkg/operator/consumer_test.go:191-195 | the number of list elements |
| Queue.FakeQueue.Get | pkg/operator/consumer_test.go:197-208 | the front item without removing it, or nil on an empty queue, with the shutdown flag |
| Queue.FakeQueue.Done | pkg/operator/consumer_test.go:210-222 | removes only the element indexed for the item and un-indexes it; no change if the item is not indexed |
| Queue.FakeQueue.ShutDown | pkg/operator/consumer_test.go:224-226 | only the shutdown flag is set |
| Queue.FakeQueue.AddAfter | pkg/operator/consumer_test.go:235-237 | the same as `Add` |
| Queue.FakeQueue.AddRateLimited | pkg/operator/consumer_test.go:239-241 | the same as `Add` |
| Queue.FakeQueue.Forget | pkg/operator/consumer_test.go:243-247 | `Done` plus one more forget count |
| Queue.AddedWellFormed | pkg/operator/consumer_test.go:184-189 | an add keeps the queue well formed and leaves the earlier elements in place |
| Queue.RemovedWellFormed | pkg/operator/consumer_test.go:210-222 | `Done` keeps the queue well formed, removes one element for an indexed item and changes nothing otherwise |
| Queue.ForgotWellFormed | pkg/operator/consumer_test.go:243-247 | `Forget` keeps the queue well formed and removes what `Done` removes |
| Queue.AddedAppends | pkg/operator/consumer_test.go:184-189 | adding a new item appends it to the queued items |
| Queue.RemovedPops | pkg/operator/consumer_test.go:197-222 | `Done` on the front item pops it: the queued items are the old ones minus the first |
| Queue.CountersCountCalls | pkg/operator/consumer_test.go:249-263 | after any sequence of calls, `NumRequeues` is the number of adds of the item and the forgotten count the number of forgets, never reset |
| Queue.ReplayWellFormed | pkg/operator/consumer_test.go:184-247 | any sequence of add, done and forget calls keeps the queue well formed |
| Queue.DrainInOrder | pkg/operator/consumer_test.go:265-313 | five distinct items added come back first in, first out; the length is 2 after three get/done pairs and 0 after five, and the queue then reports shutdown |
| Retry.Rounds | pkg/operator/runner.go:53-56 | a worker loop of `n` rounds handles at most `n` items and does nothing on a shut-down or empty queue |
| Retry.SuccessForgets | pkg/operator/runner.go:76-80 | success forgets the item once, does not re-add it, and un-indexes it |
| Retry.FailureRequeues | pkg/operator/runner.go:82-86 | a failure with fewer than 5 adds re-adds the item once and does not forget it |
| Retry.FailureAtLimitDrops | pkg/operator/runner.go:88-92 | a failure with 5 or more adds forgets the item and does not re-add it |
| Retry.SkipOnlyDone | pkg/operator/consumer.go:61-67 | an unhandled item is only marked done: no forget, no re-add |
| Retry.SettledWellFormed | pkg/operator/runner.go:64-92 | settling an item keeps the queue well formed |
| Retry.RoundsSplit | pkg/operator/runner.go:53-56 | running `m` rounds and then `n - m` more is running `n` rounds |
| Retry.FailingItem | pkg/operator/runner_test.go:31-49 | an always-failing item is handled in every round, ends with 5 adds and `n - 4` forgets, and stays queued |
| Retry.SucceedingItem | pkg/operator/runner_test.go:11-29 | a succeeding item is handled once, forgotten once and leaves the queue empty |
| Runner.Runner.constructor | pkg/operator/runner.go:30-35 | an empty queue and no handler |
| Runner.Runner.Process | pkg/operator/runner.go:38-40 | only adds the item to the queue |
| Runner.Runner.ProcessNextItem | pkg/operator/runner.go:58-93 | returns false exactly on shutdown (and on a missing handler), changing nothing; otherwise the front item is handled and the queue settles it by the retry rule |
| Runner.Runner.Worker | pkg/operator/runner.go:53-56 | the worker loop leaves the queue as `Rounds` says and handles the items it lists |
| Runner.Runner.Run | pkg/operator/runner.go:43-51 | sets the handler, runs the worker rounds, then shuts the queue down |
| Runner.RetriesFailingItem | pkg/operator/runner_test.go:31-49 | a failing handler is called at least 5 times; the item ends with 5 adds and one forget per extra round |
| Runner.HandlesSucceedingItemOnce | pkg/operator/runner_test.go:11-29 | a succeeding handler is called exactly once and the item forgotten once |
| Consumer.Consumer.constructor | pkg/operator/consumer.go:29-35 | keeps the processor and the queue |
| Consumer.Consumer.HandleError | pkg/operator/consumer.go:80-91 | re-adds below 5 adds, forgets at or above |
| Consumer.Consumer.ProcessNextItem | pkg/operator/consumer.go:55-78 | returns false exactly on shutdown, changing nothing; a non-event is only marked done; an event is processed and settled by the retry rule |
| Consumer.Consumer.RunWorker | pkg/operator/consumer.go:50-53 | the worker loop leaves the queue as `Rounds` says |
| Consumer.Consumer.Run | pkg/operator/consumer.go:38-47 | runs the worker rounds, then shuts the queue down |
| Consumer.FailingEventRetried | pkg/operator/consumer_test.go:62-94 | a failing event is handled every round; 5 adds and one forget per round beyond the fourth |
| Consumer.SucceedingEventForgotten | pkg/operator/consumer_test.go:14-37 | a succeeding event is handled once and forgotten once |
| Consumer.NonEventOnlyDone | pkg/operator/consumer.go:61-67 | a queued non-event is taken, not handled, neither forgotten nor re-added |
| Informer.Route | pkg/operator/controller/controller.go:120-141 | a lookup error is reported; an absent key leads to its namespace and name exactly when it splits; a stored value leads to the object exactly when it is a `runtime.Object` |
| Informer.StoredObjectNeverDeleted | services/swarm-pool-controller/internal/infra/k8s/controller_test.go:99-126 | a key whose object is stored always leads to that object, never to a deletion |
| Informer.VanishedObjectDeleted | pkg/operator/controller/controller.go:126-133 | a vanished object's key leads to the deletion of its namespace and name |
| Cache.MetaNamespaceKeyFunc | pkg/operator/controller/controller.go:143-152 | a key exists exactly for an object with metadata, and it is `namespace/name` |
| Cache.DeletionHandlingMetaNamespaceKeyFunc | pkg/operator/controller.go:93-102 | a tombstone yields its stored key; anything else the plain key |
| Cache.SplitMetaNamespaceKey | pkg/operator/controller/controller.go:126-130 | a key splits exactly when it has at most one slash, into parts without slashes |
| Cache.SplitKeyRoundTrip | pkg/operator/controller/controller.go:126-133 | splitting an object's key gives back its namespace and name |
| Cache.SplitRejectsDeepKeys | pkg/operator/controller/controller.go:126-130 | a key with two slashes does not split |
| KeyController.Handle | pkg/operator/controller/controller.go:120-141 | a routing failure is an error without status cause; a stored object goes to `Set`, a vanished key to `Remove` |
| KeyController.Classify | pkg/operator/controller/controller.go:97-105 | success exactly for nil or an error carrying the namespace-terminating cause |
| KeyController.RoutingFailureRetried | pkg/operator/controller/controller.go:107-117 | a key that cannot be routed counts as a failure |
| KeyController.TerminatingNamespaceForgiven | pkg/operator/controller/controller.go:102-105 | a namespace-terminating error forgets the key like success, without re-adding it |
| KeyController.DeletedObjectRemoved | pkg/operator/controller/controller.go:55-63 | a deleted object's queued key leads to `Remove` of its namespace and name |
| KeyController.Controller.constructor | pkg/operator/controller/controller.go:34-67 | a new queue, the given indexer and handler |
| KeyController.Controller.Enqueue | pkg/operator/controller/controller.go:143-152 | adds the object's key; a key error adds nothing |
| KeyController.Controller.OnAdd | pkg/operator/controller/controller.go:44-46 | enqueues the object's key |
| KeyController.Controller.OnUpdate | pkg/operator/controller/controller.go:47-54 | enqueues the new object's key |
| KeyController.Controller.OnDelete | pkg/operator/controller/controller.go:55-63 | queues the deletion-handling key directly |
| KeyController.Controller.ProcessNextItem | pkg/operator/controller/controller.go:88-118 | returns false exactly on shutdown, changing nothing; otherwise the key is handled and settled by the retry rule, a namespace-terminating error counting as success |
| KeyController.Controller.Worker | pkg/operator/controller/controller.go:83-86 | the worker loop leaves the queue as `Rounds` says |
| KeyController.Controller.Run | pkg/operator/controller/controller.go:69-81 | without cache sync nothing is handled; otherwise the worker rounds run; the queue is shut down either way |
| OperatorController.Handle | pkg/operator/controller.go:69-91 | a routing failure is an error; a stored object goes to `Handle`, a vanished key to `Delete` |
| OperatorController.EveryErrorRetried | pkg/operator/controller.go:69-91 | every error of `handle` counts as a failure for the runner |
| OperatorController.DeletedObjectDeleted | pkg/operator/controller.go:49-51 | a deleted object's key leads to `Delete` of its namespace and name |
| OperatorController.Controller.constructor | pkg/operator/controller.go:27-55 | keeps the indexer, the handler and the runner |
| OperatorController.Controller.Enqueue | pkg/operator/controller.go:93-102 | hands the key to the runner; a key error enqueues nothing |
| OperatorController.Controller.OnAdd | pkg/operator/controller.go:36-38 | enqueues the object's key |
| OperatorController.Controller.OnUpdate | pkg/operator/controller.go:39-48 | enqueues the new object's key |
| OperatorController.Controller.OnDelete | pkg/operator/controller.go:49-51 | enqueues the deletion-handling key |
| OperatorController.Controller.Run | pkg/operator/controller.go:57-67 | without cache sync the runner is not started; otherwise the runner runs `handle` |
| Processor.Handle | pkg/operator/processor.go:76-102 | a lookup error is returned and fires nothing; otherwise exactly one callback fires and the result is nil: `Deleted` of the object (or the old object) for an absent key, `Created` or `Updated(new, old)` for a present one |
| ExpectedSize.UpdateSizesFromNewObject | pkg/operator/statefulset/handler.go:36-39 | an update sizes from the new statefulset's replicas |
| ExpectedSize.VanishedCreationSizesZero | pkg/operator/statefulset/handler.go:42-47 | a vanished statefulset sets the expected size 0 |
| ExpectedSize.OneSizeCallPerEvent | pkg/operator/statefulset/handler.go:28-47 | each event makes exactly one size call: the replicas when stored, 0 when not |
| Selector.AppLabel | pkg/operator/selector.go:50-63 | the value of the `app` label exactly when the object has metadata and the label; no label is `ErrNoAppLabelFound` |
| Selector.HasWatchedLabel | pkg/operator/selector.go:41-48 | whether the `app` label equals the watched one; an error exactly when there is no label |
| Selector.ValidatePassesWatched | pkg/operator/selector.go:23-39 | validation passes exactly when the `app` label is the watched one |
| Selector.ValidateRefusesUnlabelled | pkg/operator/selector.go:23-29 | an object without an `app` label is refused |
| Selector.ValidateNamesOtherLabel | pkg/operator/selector.go:30-36 | a different label is refused with an error naming it |
| Selector.NopValidate | pkg/operator/selector.go:65-73 | always passes |
| Middleware.MatchedIffValid | pkg/operator/selector_middleware.go:63-95 | the middleware's match agrees with `Validate` and with the label being the watched one |
| Middleware.Add | pkg/operator/selector_middleware.go:26-35 | forwards the same object exactly when it is an object with the watched label |
| Middleware.Update | pkg/operator/selector_middleware.go:37-50 | forwards `(old, new)` exactly when both are objects and the old one has the watched label |
| Middleware.Delete | pkg/operator/selector_middleware.go:52-61 | forwards the same object exactly when it is an object with the watched label |
| Middleware.UpdateFollowsOldLabel | pkg/operator/selector_middleware.go:37-50 | only the old object's label decides an update |
| SelectorStore.Key | services/swarm-pool-controller/internal/infra/k8s/statefulset/selector_store.go:79-81 | the key is the namespace, a slash, and the name |
| SelectorStore.KeyInjective | services/swarm-pool-controller/internal/infra/k8s/statefulset/selector_store.go:79-81 | distinct namespace/name pairs give distinct keys when namespaces have no slash |
| SelectorStore.Store.constructor | services/swarm-pool-controller/internal/infra/k8s/statefulset/selector_store.go:27-31 | an empty store |
| SelectorStore.Store.EnsureRegister | services/swarm-pool-controller/internal/infra/k8s/statefulset/selector_store.go:33-44 | first writer wins: an existing key changes nothing; a new key stores the selector and swarm |
| SelectorStore.Store.UnRegister | services/swarm-pool-controller/internal/infra/k8s/statefulset/selector_store.go:46-52 | removes the key whether or not it is there |
| SelectorStore.Store.Matches | services/swarm-pool-controller/internal/infra/k8s/statefulset/selector_store.go:54-65 | false for an unregistered key; otherwise the stored selector's answer |
| SelectorStore.Store.SwarmName | services/swarm-pool-controller/internal/infra/k8s/statefulset/selector_store.go:67-77 | `(name, true)` exactly when registered, else `("", false)` |
| SelectorStore.Store.Len | services/swarm-pool-controller/internal/infra/k8s/statefulset/selector_store.go:83-87 | the number of registered keys |
| SelectorStore.RegisterTwiceThenUnregister | services/swarm-pool-controller/internal/infra/k8s/statefulset/selector_store_test.go:11-54 | registering grows the store by one, re-registering keeps it and the first owner, unregistering restores the size |
| SizeTracker.Variation | services/swarm-pool-controller/internal/infra/k8s/statefulset/handler.go:60-73 | a variation exactly when the replicas differ from the last size (0 when none), and the new size is always recorded |
| SizeTracker.VariationIdempotent | services/swarm-pool-controller/internal/infra/k8s/statefulset/handler.go:60-73 | a repeated size is no variation and leaves the table unchanged |
| SizeTracker.FirstEmptySightingSilent | services/swarm-pool-controller/internal/infra/k8s/statefulset/handler.go:60-73 | a first sighting with 0 replicas is no variation |
| SizeTracker.Handler.constructor | services/swarm-pool-controller/internal/infra/k8s/statefulset/handler.go:25-31 | an empty last-size table |
| SizeTracker.Handler.HasLastSizeVariation | services/swarm-pool-controller/internal/infra/k8s/statefulset/handler.go:60-73 | answers and records as `Variation` |
| SizeTracker.Handler.Handle | services/swarm-pool-controller/internal/infra/k8s/statefulset/handler.go:33-47 | an unmatched statefulset returns nil and records nothing; otherwise the size is recorded, and the pool size is updated, with its error returned, exactly on a variation |
| SizeTracker.Handler.Delete | services/swarm-pool-controller/internal/infra/k8s/statefulset/handler.go:49-58 | unregistered: nothing happens; registered: size 0 is sent and the last size cleared even if that call fails |
| SizeTracker.Handler.CleanLastSize | services/swarm-pool-controller/internal/infra/k8s/statefulset/handler.go:75-80 | removes the statefulset's last size |
| SizeTracker.RepeatedSizeForwardedOnce | services/swarm-pool-controller/internal/infra/k8s/statefulset/handler.go:33-73 | handling the same statefulset twice forwards at most the first sighting |
| PodState.ReadyPodIsConjunction | pkg/operator/pod/state.go:13-44 | a pod is ready exactly when not host-networked, with an IP, scheduled and running |
| PodState.IsReady | pkg/operator/pod/state.go:46-54 | true exactly when some condition is `Ready` with status `True` |
| PodState.IsTerminated | pkg/operator/pod/state.go:60-67 | true exactly when some container status is terminated |
| PodState.StatefulSetIndex | pkg/operator/pod/state.go:69-79 | a name without `-` is a bad pod name; a parsed ordinal is a non-negative int64 |
| PodState.OrdinalRoundTrip | pkg/operator/pod/state.go:69-79 | the name `prefix-i` yields ordinal `i` |
| PodHandler.Handler.constructor | services/swarm-pool-controller/internal/infra/k8s/pod/handler.go:28-32 | keeps the pool |
| PodHandler.Handler.Created | services/swarm-pool-controller/internal/infra/k8s/pod/handler.go:35-53 | a ready pod with an ordinal is registered if new, waiting, with its name and ordinal as index; otherwise the pool is untouched |
| PodHandler.Handler.Updated | services/swarm-pool-controller/internal/infra/k8s/pod/handler.go:56-78 | a pod being deleted or with a terminated container is removed; otherwise as `Created`: a new joining pod is registered, waiting, with its name and ordinal as index, and no other key changes |
| PodHandler.Handler.Deleted | services/swarm-pool-controller/internal/infra/k8s/pod/handler.go:81-86 | the pod's worker is removed |
| PodHandler.StatefulSetPodJoins | services/swarm-pool-controller/internal/infra/k8s/pod/handler_test.go:9-27 | a ready pod named `set-i` joins with index `i` |
| Manager.ConvertJobs | services/swarm-pool-controller/internal/app/manager.go:34-37 | the jobs converted one by one, in order |
| Manager.Manager.constructor | services/swarm-pool-controller/internal/app/manager.go:20-26 | no pools |
| Manager.Manager.Process | services/swarm-pool-controller/internal/app/manager.go:28-40 | a fresh pool with the version and converted jobs replaces the one under `ns/name`; no other key changes |
| Manager.Manager.UpdateSize | services/swarm-pool-controller/internal/app/manager.go:42-66 | an unregistered key is an error with version 0; the pool's error is returned as is |
| Manager.UpdateSizeSucceeds | services/swarm-pool-controller/internal/app/manager.go:42-66 | succeeds exactly when registered and the pool, lookup and dump succeed, and then returns the pool's version |
| Manager.Manager.Delete | services/swarm-pool-controller/internal/app/manager.go:68-79 | removes the key if present, no-op otherwise |
| Manager.ProcessResizeDelete | services/swarm-pool-controller/internal/app/manager.go:28-79 | a processed swarm resizes cleanly when its collaborators do; once deleted it is unregistered |
| SwarmEvent.ActionsDistinct | services/swarm-pool-controller/internal/app/event.go:5-8 | the four actions differ |
| SwarmEvent.Event.Type | services/swarm-pool-controller/internal/app/event.go:14-65 | each event reports its own action, and the action tells the kind |
| SwarmEvent.SameActionSameKind | services/swarm-pool-controller/internal/app/event.go:14-65 | two events report the same action exactly when they are of the same kind |
| SwarmController.Controller.constructor | services/swarm-pool-controller/internal/app/controller.go:37-45 | keeps its collaborators |
| SwarmController.Controller.Create | services/swarm-pool-controller/internal/app/controller.go:48-51 | enqueues a process-swarm command and returns nil |
| SwarmController.Controller.Update | services/swarm-pool-controller/internal/app/controller.go:54-57 | enqueues a process-swarm command and returns nil |
| SwarmController.Controller.UpdatePoolSize | services/swarm-pool-controller/internal/app/controller.go:60-63 | enqueues a size event and returns nil |
| SwarmController.Controller.Delete | services/swarm-pool-controller/internal/app/controller.go:66-69 | enqueues a delete event and returns nil |
| SwarmController.Controller.Handle | services/swarm-pool-controller/internal/app/controller.go:75-87 | routes process, size and delete to their steps; any other event is "action not handled" and changes nothing |
| SwarmController.Controller.Process | services/swarm-pool-controller/internal/app/controller.go:90-120 | stops at the first failing lookup, registration or pod listing without touching the manager; otherwise stores the swarm's pool and then updates it to the statefulset's replicas |
| SwarmController.PlanSucceeds | services/swarm-pool-controller/internal/app/controller.go:90-113 | the steps before the manager succeed exactly when the swarm, its statefulset, the registration and the pod listing all do |
| SwarmController.Controller.UpdatePool | services/swarm-pool-controller/internal/app/controller.go:122-140 | an unknown owner fails before the manager; a manager error skips the swarm update; success needs both |
| SwarmController.Controller.PoolOutcome | services/swarm-pool-controller/internal/app/controller.go:122-140 | the errors `updatePool` reports, step by step |
| SwarmController.Controller.DeleteSwarm | services/swarm-pool-controller/internal/app/controller.go:142-146 | un-registers the selector, drops the pool, returns nil |
| SwarmController.Controller.UpdateSwarm | services/swarm-pool-controller/internal/app/controller.go:148-167 | succeeds exactly when the lookup and the update do, sending the revised swarm |
| SwarmController.Revised | services/swarm-pool-controller/internal/app/controller.go:157-160 | only the spec's size and version change |
| SwarmProvider.Provider.constructor | services/swarm-pool-controller/internal/app/provider.go:22-28 | keeps the listers |
| SwarmProvider.Provider.PodNamesFromSelector | services/swarm-pool-controller/internal/app/provider.go:29-48 | a conversion or list error is returned; otherwise the names of the serving pods |
| SwarmProvider.ServingNamesExact | services/swarm-pool-controller/internal/app/provider.go:40-46 | a name is listed exactly when some pod that is neither terminated nor being deleted carries it |
| SwarmProvider.AllServingAllNamed | services/swarm-pool-controller/internal/app/provider.go:40-46 | when every pod serves, every name is listed in order |
| SwarmProvider.Provider.LookupStatefulSet | services/swarm-pool-controller/internal/app/provider.go:50-56 | the lister's statefulset exactly when it has one |
| SwarmProvider.Provider.StatefulSetFromSwarmName | services/swarm-pool-controller/internal/app/provider.go:58-72 | the statefulset the swarm names, in the swarm's namespace, or an error |
| SwarmProvider.Provider.LookupSwarm | services/swarm-pool-controller/internal/app/provider.go:74-81 | the lister's swarm exactly when it has one, else its error wrapped |
| SwarmProvider.Provider.SwarmNameFromStatefulSetName | services/swarm-pool-controller/internal/app/provider.go:83-96 | a list error, the first owning swarm's name, or a not-found error |
| SwarmProvider.FirstOwnerIsFirst | services/swarm-pool-controller/internal/app/provider.go:89-95 | an owner is found exactly when some swarm names the statefulset, and it is the first such |
| SwarmApi.JobsToAlpha | services/swarm-pool-controller/internal/infra/k8s/crd/provider.go:142-147 | each job converted, in order |
| SwarmApi.JobsFromAlpha | services/swarm-pool-controller/internal/infra/k8s/crd/provider.go:149-154 | each job's name, in order |
| SwarmApi.JobsRoundTrip | services/swarm-pool-controller/internal/infra/k8s/crd/provider.go:142-154 | converting to the resource's jobs and back is the identity |
| SwarmApi.AlphaRoundTrip | services/swarm-pool-controller/internal/infra/k8s/crd/provider.go:142-154 | converting from the resource's jobs and back is the identity |
| CrdProvider.Middleware.Set | services/swarm-pool-controller/internal/infra/k8s/crd/provider.go:30-39 | calls prev then next only if prev succeeded; fails with the first error |
| CrdProvider.MemberOf | services/swarm-pool-controller/internal/infra/k8s/crd/provider.go:73-81 | a member carries the workload's name and converted jobs |
| CrdProvider.BuildMembers | services/swarm-pool-controller/internal/infra/k8s/crd/provider.go:73-81 | one running member per workload, with its name and jobs |
| CrdProvider.Decode | services/swarm-pool-controller/internal/infra/k8s/crd/provider.go:128-140 | copies the version |
| CrdProvider.DecodeOfLists | services/swarm-pool-controller/internal/infra/k8s/crd/provider.go:71-81 | decoding the members `Set` builds recovers the workload map |
| CrdProvider.Initial | services/swarm-pool-controller/internal/infra/k8s/crd/provider.go:113-126 | the initial swarm has the name and namespace, no members, version 0 |
| CrdProvider.Provider.constructor | services/swarm-pool-controller/internal/infra/k8s/crd/provider.go:49-55 | keeps namespace, swarm name and client |
| CrdProvider.Provider.Base | services/swarm-pool-controller/internal/infra/k8s/crd/provider.go:59-69 | the fetched swarm; on any API status error the initial swarm as created, or "unable to initialize CRD, error" with the create error; on any other fetch error "unable to get swarm map" with its text |
| CrdProvider.Provider.Set | services/swarm-pool-controller/internal/infra/k8s/crd/provider.go:58-96 | sends the base swarm with only version, size and members changed; members list the workloads; the update's error is returned wrapped |
| CrdProvider.Provider.Get | services/swarm-pool-controller/internal/infra/k8s/crd/provider.go:99-110 | a fetch error is wrapped; otherwise the decoded workloads with the swarm's version |
| CrdProvider.GetAfterSet | services/swarm-pool-controller/internal/infra/k8s/crd/provider.go:58-110 | getting a swarm as `Set` wrote it returns the assignment |
| ConfigReloader.Entry.String | services/config-reloader-controller/internal/app/app.go:30-32 | the key is the namespace, a slash, and the configmap name |
| ConfigReloader.KeyIgnoresPool | services/config-reloader-controller/internal/app/app.go:30-32 | the key ignores the pool type and name |
| ConfigReloader.App.constructor | services/config-reloader-controller/internal/app/app.go:34-43 | nothing watched |
| ConfigReloader.App.Watch | services/config-reloader-controller/internal/app/app.go:45-59 | adds the entry's key; the set only grows and re-watching changes nothing |
| ConfigReloader.App.IsRegistered | services/config-reloader-controller/internal/app/app.go:61-68 | true exactly when a key for that namespace and configmap is watched |
| ConfigReloader.WatchRegisters | services/config-reloader-controller/internal/app/app_test.go:12-25 | after watching, the configmap is registered, and earlier registrations stay |
| FakeWorker.App.constructor | services/fake-worker/internal/app/app.go:14-16 | no workload |
| FakeWorker.App.Assign | services/fake-worker/internal/app/app.go:18-32 | the first call stores the workload; later calls keep it; always nil |
| FakeWorker.FirstAssignmentSticks | services/fake-worker/internal/app/app.go:18-32 | after any later assignments the first workload is still held |

## Left out

- Logging, `log.Fatal`, and `utilruntime.HandleError` are left out, since they have no effect on state. Messages of returned errors are modelled.
- Mutexes and atomics are left out: every operation is modelled as atomic.
- Worker rounds stand in for `wait.Until` tickers, goroutines and `Run`'s wait for the context. The exponential backoff of the rate limiter, the handler timeout context and the informers' cache sync (a `synced` flag) are left out too.
- client-go's workqueue is not part of this model. The fake queue of the operator tests stands in for it, for every controller.
- Queue.FakeQueue.Get: `Get` on an empty queue that is not shut down blocks in Go. The model returns nil with the flag; every `ProcessNextItem` requires a non-empty or shut-down queue.
- Queue.FakeQueue.ShutDownWithDrain does nothing and `ShuttingDown` only reads the flag, as in the source; they carry no contract of their own.
- FakeWorker.App.Run and Terminate do nothing in the source; they are methods that may change nothing, with no contract of their own.
- Runner.Runner.ProcessNextItem: a missing handler makes Go call `log.Fatal`. The model returns false with the queue unchanged.
- client-go's `MetaNamespaceKeyFunc`, `DeletionHandlingMetaNamespaceKeyFunc` and `SplitMetaNamespaceKey` are not in the repository. `Cache` writes them out after client-go's documented behaviour.
- The Go type assertions of handlers (a pod, a statefulset, an event) are typed parameters. The panic of the swarm controller's `handle` on a value that is not an `Event` cannot occur in the model.
- SwarmController.Controller.Run is left out. The runner takes a handler that only answers, while the swarm controller's `handle` changes the manager and the store; `Handle` models one round.
- Manager.Manager.UpdateSize: `Pool.UpdateSize(ctx, size)` and `Dump` do not exist on the shown pool. They are answers of function type, so a resize through the manager does not change the stored pool.
- `selectorStore.Register`, `newProcessSwarm`, `newWorkerPool` and `selector.IsRegistered` are answers or parameters of the same kind: `SizeTracker.Handler.Delete` takes `registered`.
- The statefulset handler's `processSwarm`/`newProcessSwarm` naming mismatch is resolved as a `ProcessSwarm` command.
- `labels.Selector` is a predicate on label sets, and `metav1.LabelSelector` keeps only `MatchLabels`. Converting one into the other is a collaborator.
- Go map iteration order: `toMap`, `geAllWorkers` and `Provider.Set`'s member loop visit keys in some order. The model fixes one order and proves what holds for any.
- Worker.Worker: the `version` and `delegated` fields are never set by the shown code; version stays 0 and `delegated` is left out.
- Pool.Pool.Conciliate: the restart goroutine and the commented-out `requestRestart` are left out.
- `CreatedAt` timestamps take the time as a parameter. `TypeMeta`, `ObjectMeta` fields other than namespace, name, labels and deletion timestamp, and `time.Now` events are left out.
- `ErrNoAppLabelFound` is declared twice in the source with the same text; it is one constant here.
- The swarm pool controller's own pod predicates duplicate `pkg/operator/pod/state.go`. The model uses `PodState` for both.
- `App.key` of the config reloader is unused in the source and left out.
- Pool.Pool.AddWorkerIfNotExists: the swarm pool's worker has no IP field and the IP argument is only logged. The model reuses the pool controller's worker type and stores an empty address in its `ip` field, which no contract reads.
- Cache: the error texts simplify client-go's formats. "object has no meta" omits the `: %v` rendering of the Go error, and `%q` quoting is plain double quotes without Go's escaping.
- Nil pointers where Go would panic are not expressible. Workload map values are plain `Workload` values, so a nil `*Workload` in the argument of `Workloads.Equals` (config.go:81, which panics at config.go:95) cannot occur. Replicas are a plain integer, so the nil dereferences of `*ss.Spec.Replicas` (the statefulset handlers and the swarm controller's `process`) cannot occur either.
- Go's `int` widths: job counts, sizes and versions are unbounded; only pod ordinals are bounded, to int64, as `strconv.ParseInt` bounds them.

## Findings

| source | as written | input that shows it | evidently intended | confidence | as-written member | corrected member |
|---|---|---|---|---|---|---|
| services/pool-config-controller/internal/app/state.go:50-53 | slice `i` starts at `i * size`, where `size` is worker `i`'s own share | 9 jobs over 2 workers: worker 0 gets `[0,5)`, worker 1 gets `[4,8)`; job 4 is given twice and job 8 to nobody | slice `i` starts at the sum of the earlier shares, so the slices are disjoint and cover the list | not executed | Partition.AsWrittenNineOverTwo | Partition.BalancedCoverAll |
