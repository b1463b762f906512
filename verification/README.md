# Verified model of the shutilspy workflow engine

This project models, in Dafny, the parts of shutilspy whose correctness does not show in any single
function: the DAG scheduler and its multi-worker executor, the hand-written concurrency primitives under
it, the life of contexts, and a few self-contained algorithms. Code that changes state is modelled by
classes and loops and proved equal to specification functions; what those functions guarantee is proved
about every input, every run or every reachable state.

| files | contents |
|---|---|
| Graph, Dag, DagScript | task graphs, `build`, memoised closures, bypass sets |
| TaskState, Masks, Routing | ready sets, mask walkers, router and bypass schedules |
| Executor, ExecutorRuns, ExecutorRounds, ExecutorEnds, ExecutorLoop | the worker loops with routers as a transition system, its runs, their rounds, how they end, and the loop object |
| LockThreads, RWSpec, SmartLock, RWLock | the read-write locks and the specification both refine |
| Runs | finite runs of the locks and the queue |
| AioQueue | the queue shared by threads and coroutines |
| Bands, ContextQueue, TaskQueue | priority queues as bands of stacks and FIFOs |
| Lifecycle, LifecycleScript | the tree of contexts, cascading destruction, the runtime counter, scripts of calls |
| LruCache | recency meaning of the LRU cache |
| Options, Clock, Limiter, RateLimiter | optional values; token bucket and fixed window over real time |
| Param, ParamExact, ParamShape, ParamLoops | dataclass encoding and type-directed decoding |
| ImageSize | the JPEG marker scan |

How concurrency is modelled: every critical section is one step; a thread or coroutine is running, parked
or woken, and a woken one looks at its guard again when it runs. Statements quantify over every finite run.
The lock, queue and executor objects carry one method per critical section, and a `Drive` or `Run` method
performs any schedule on the object. What a call should answer is also said without the transition system, of
the places of the threads or of the history of the calls (`StepAsMeant`), and every step is proved to do that.

Where code and documentation disagree, the code is modelled:

- `AsyncRouterTask` looks its mask up in a cache that nothing fills (shutils/dag/task.py:705-710), so the mask
  is always computed.
- `TaskPriority.LIFO_HIGH` is served first in, first out (`TaskQueues.SameAsStackIff`).
- `RateLimiter` documents a maximum of calls per period; an interval of that length can hold twice as many
  (`RateLimiters.LimitKeptIff`, `RateLimiters.TwoBurstsFitInOnePeriod`, `RateLimiters.AtMostTwice`).
- `dict_to_dataclass` documents type coercion; a mismatch outside a union yields the type object instead
  (`ParamShape.ScalarGives`, `ParamExact.EarlierListArmSpoilsValue`).
- `context_queue_timeout` may be None; then `run` can wait for ever once two workers share a queue
  (`ExecutorEnds.FinishesIff`).
- A second `build` makes the sink depend on itself (`Dags.RebuildLoopsSink`).

Inputs of the outside world are parameters: clock readings are arbitrary (monotone where stated) reals, a
waiting worker is handed any queued context (the executor object hands out the first), set iteration is in any
order, a user task returns the context it was given, a router picks any of its children, at least one.

## Model

| member | source | states |
|---|---|---|
| Dags.DAG.AddUpstream | shutils/dag/task.py:120-127 | one edge is added to both edge sets at once, nothing else changes |
| Dags.DAG.AddTask | shutils/dag/dag.py:24-39 | exactly the asked edges and nodes appear; the task becomes a start task only when it has no dependencies, and a rootless task is always a start task |
| Dags.DAG.Build | shutils/dag/dag.py:41-65 | fails exactly without start tasks and then changes nothing; otherwise adds the source edges, then the sink edges, and records the end tasks |
| Dags.BuildIffAcyclic | shutils/dag/dag.py:41-65 | after `build` every task lies between source and sink on an acyclic graph if and only if the user's graph had no cycle |
| Dags.BuildStepConnects | shutils/dag/dag.py:50-58 | `build` leaves no user task without an upstream or without a downstream task |
| Dags.RebuildLoopsSink | shutils/dag/dag.py:54-58 | a second `build` of a built graph makes the sink its own upstream |
| Dags.DAG.CollectDownstream | shutils/dag/dag.py:67-85 | the recursion terminates for any iteration order and any graph; every entry made holds exactly the proper descendants of its task |
| Dags.DAG.CollectUpstream | shutils/dag/dag.py:87-105 | the same for proper ancestors |
| Dags.CollectedIff | shutils/dag/dag.py:71-85 | on any graph, built or not: a finished closure map has an entry for a task if and only if every way down from it ends at the collector's end, so not on a cycle and not at another leaf |
| Dags.CoversAllIffAcyclic | shutils/dag/dag.py:71-85 | the closure map covers every task if and only if the graph is acyclic and has no other leaf |
| DagScripts.BuiltIffGood | shutils/dag/dag.py:41-65 | for any sequence of add_task calls, `build` leaves a graph with each task between source and sink and no cycle if and only if every dependency was itself added, source and sink were not, and the described graph has no cycle |
| DagScripts.EdgesMeant | shutils/dag/dag.py:24-65 | the edges of the built graph are those the calls asked for, one from the source to every start task and one to the sink from every task that nobody depends on, and no others |
| DagScripts.BuildDag | shutils/dag/dag.py:18-65 | a DAG from its constructor through any add_task calls and `build`: refused exactly without start tasks; its edges are exactly those meant, built or refused; fresh and fully registered; ready for all queries exactly under the condition above |
| Dags.DAG.GetAllDownstreamTasks | shutils/dag/dag.py:107-125 | before or after `build`, on any graph: the union of the proper descendants (plus the tasks if asked); the KeyError (None) occurs exactly for an unknown task or one from which some way down does not end at the sink; the memo stays right |
| Dags.DAG.GetAllUpstreamTasks | shutils/dag/dag.py:127-145 | the same for ancestors and the source |
| Dags.DAG.GetBypassTasks | shutils/dag/dag.py:147-159 | registered tasks that are neither given, nor below, nor above a given task; the KeyError exactly for a task without a place in both closure maps |
| Graphs.AncIsDescOfReverse | shutils/dag/dag.py:87-105 | ancestors are the descendants in the reversed graph, so both collectors meet one specification |
| TaskStates.TaskState.Complete | shutils/dag/task_state.py:91-103 | `_complete` with its loop over the downstream tasks in any order equals the one-step specification; the skip flag swallows one call |
| TaskStates.AvailableIsReady | shutils/dag/task_state.py:91-103 | after any sequence of completions the available set is exactly the uncompleted tasks that have upstream tasks and have all of them completed |
| TaskStates.OrderIrrelevant | shutils/dag/task_state.py:91-103 | two sequences of completions from the empty state give the same state if they complete the same tasks, in any order and with repetitions |
| TaskStates.SomethingAvailable | shutils/dag/task_state.py:99-103 | on a built graph, with the source completed and the sink not, some task is available |
| Masks.MaskCommon | shutils/dag/utils.py:128-148 | the breadth-first walk, on any graph, yields every proper descendant (and the given tasks if asked) exactly once and nothing else |
| Masks.MaskDownstream | shutils/dag/utils.py:185-196 | the masked tasks, and they alone, become completed; the available set stays exact |
| Masks.MaskUpstream | shutils/dag/utils.py:151-164 | the same walk upstream |
| Routing.ResolveRoutes | shutils/dag/task.py:687-703 | the router refuses exactly when some answer is an unknown name or not one of its children |
| Routing.MaskIs | shutils/dag/task.py:707-713 | the mask is everything below the router except what it picked and what is below that |
| Routing.RouterCall | shutils/dag/task.py:681-715 | a refused answer destroys the context and completes nothing; otherwise completed are what was, and everything below the router that is neither picked nor below a picked task |
| Routing.MaskSparesSinkIff | shutils/dag/task.py:708-710 | the mask spares the sink if and only if the router picked at least one child |
| Routing.SchedulableIff | shutils/dag/task_state.py:91-103 | whatever was completed, masked or stamped before, on any built graph: a context whose sink is not completed can be scheduled to the sink if and only if no path from source to sink consists of uncompleted tasks only |
| Routing.RoutedSchedules | shutils/dag/task.py:707-715 | after a router picked a non-empty set, in a context already masked or stamped in any way that can be scheduled: every later one-task-at-a-time schedule runs each task at most once and, of all tasks below the router, only picked ones and those below them; it has run by the time it reaches the sink every task with an uncompleted path to it, and can always be continued to the sink (batches: the executor rows below) |
| Routing.RouterSchedules | shutils/dag/task.py:707-715 | in a context nothing else has masked, those tasks include all picked tasks and their descendants |
| Routing.SinkSurvivesRouters | shutils/dag/task.py:707-715 | however many routers run, interleaved with other tasks in any order: if each picks at least one child, the sink is never masked and can still be scheduled |
| Routing.AvailableAntichainIff | shutils/dag/executor.py:274-287 | in any state, tasks available together are unordered if and only if no completed task is below an available one and directly above another |
| Routing.AvailableIsAntichain | shutils/dag/executor.py:274-287 | if no task was completed before its upstream tasks, that is, nothing was masked, tasks available together are never below one another |
| Routing.RoutedBatchIsOrdered | shutils/dag/executor.py:274-287 | behind a router they can be: a router picks a child, and then that child and a task above it are available in one batch; if the upper task is a router, it can mask the lower one in that batch. Such graphs exist on any eight tasks |
| Routing.BatchSparedIff | shutils/dag/task.py:707-715 | in any state, a router masks no task of its own batch if and only if no task it masks that was completed early leads to an available task other than those it keeps |
| Routing.ReadyRouterSparesBatch | shutils/dag/task.py:707-715 | where nothing was masked before, a router masks no task of its own batch |
| Routing.StampedSchedulableIff | shutils/dag/executor.py:388-396 | a fresh context stamped with any tasks that ran and their bypass tasks can be scheduled to the sink if and only if every path from source to sink meets one of them |
| Routing.BypassSchedulableIff | shutils/dag/executor.py:388-396 | if the tasks that ran are unordered, that is so if and only if no edge goes from an ancestor to a descendant of them |
| Routing.CrossingBlocks | shutils/dag/executor.py:388-396 | with an edge from an ancestor that has no running task above it to a descendant that has none below it, no schedule at all reaches the sink |
| Routing.BypassIff | shutils/dag/dag.py:147-159 | a task is bypassed by tasks that ran if and only if it is neither above nor below nor equal to any of them |
| Routing.StampBypass | shutils/dag/executor.py:390-396 | a new context completes, beside what it has, exactly the tasks that are neither above nor below nor equal to any running task it has completed |
| ExecutorLoop.Executor.CheckGetContext | shutils/dag/executor.py:243-250 | a worker waits for a context while the counter is positive and otherwise leaves |
| ExecutorLoop.Executor.GetContext | shutils/dag/executor.py:264-278 | a destroyed context is skipped, one without available tasks is destroyed, any other becomes a batch |
| ExecutorLoop.Executor.FinishTask | shutils/dag/executor.py:225-231 | a router masks with the DAG's closures what it did not pick; then the task is completed on the context it was given |
| ExecutorLoop.Executor.PutBack | shutils/dag/executor.py:313-322 | the OutputContext is kept, the context goes back to the queue |
| ExecutorLoop.Start | shutils/dag/executor.py:155-159 | source completed on each input in its own task state, counter at the number of inputs, inputs queued in order: the object is in the initial state of the transition system |
| ExecutorLoop.Executor.Perform | shutils/dag/executor.py:258-335 | every section of the worker loop, on the task states, contexts, counter, queue and output lists, is the step of the transition system |
| ExecutorLoop.Serve | shutils/dag/executor.py:258-335 | the worker loops take every step of the schedule that can be taken, in its order, and no other; a schedule that is a run is performed whole |
| ExecutorLoop.Run | shutils/dag/executor.py:133-172 | under any schedule of any number of workers and any picks of the routers: the result is what the steps of the schedule lead to, and it is finished exactly when all workers have left then; if so, the joined outputs are the inputs, each once; a single worker's outputs are the inputs in their order |
| ExecutorLoop.SomeScheduleFinishes | shutils/dag/executor.py:133-172 | with context_queue_timeout set, with one worker, or without inputs: every schedule can be continued to one under which `run` returns, and then with one output for every input |
| Executors.StepInv | shutils/dag/executor.py:258-335 | each atomic step of any worker keeps the executor's invariant |
| ExecutorRuns.OnePlace | shutils/dag/executor.py:258-335 | in every interleaving each context is queued once, or held by exactly one worker, or emitted once; it is queued after it was emitted only if it is destroyed and something was masked on it |
| ExecutorRuns.OnceAndInOrder | shutils/dag/executor.py:280-296 | each task starts and returns at most once per context, and only after each of its upstream tasks was done or masked on that context |
| ExecutorRuns.MaskedStaysOut | shutils/dag/executor.py:258-335 | a masked task that no batch under way is about to start is never started again, whatever the workers do and the routers pick |
| ExecutorRuns.StopOnlyWhenNoneLive | shutils/dag/executor.py:243-250 | a worker leaves through StopContext only when no context is live and everything still queued was emitted |
| ExecutorRuns.AllOutputs | shutils/dag/executor.py:162-172 | when all workers have left, each input has yielded exactly one OutputContext, and on it every task was started and done from which a path of never-masked tasks leads to the sink |
| ExecutorRuns.AllTasks | shutils/dag/executor.py:162-172 | without routers every task was started and done on every input |
| ExecutorRuns.RunBound | shutils/dag/executor.py:258-335 | any run does at most 4 * (tasks - 1) + 2 steps of work per input and one per worker, whatever the routers pick; all else is polling |
| ExecutorRuns.OneWorkerInOrder | shutils/dag/executor.py:313-322 | a single worker finishes each context before it begins the next: at all times the outputs are the first inputs in order |
| ExecutorRounds.InflightBounded | shutils/dag/executor.py:283-285 | a batch never runs more than task_worker_num tasks at once |
| ExecutorRounds.RunTogether | shutils/dag/executor.py:280-288 | within that number, any tasks a batch has yet to start can run together |
| ExecutorRounds.LevelIff | shutils/dag/task_state.py:91-103 | a task is of level n if and only if no path from the source to it has more than n edges |
| ExecutorRounds.LevelByLevel | shutils/dag/executor.py:274-335 | without routers a context goes through the graph level by level: no task starts before every task is done whose longest path from the source is shorter |
| ExecutorEnds.SomeoneWorks | shutils/dag/executor.py:258-335 | unless the executor is stuck, at most one poll separates it from a step of work, gets being served in the order of the queue (see the end for swallowed wakeups) |
| ExecutorEnds.StuckIff | shutils/dag/executor.py:243-250 | no step is possible if and only if all workers have left, or context_queue_timeout is None, the queue is empty and every worker that has not left waits for a context |
| ExecutorEnds.CanFinish | shutils/dag/executor.py:258-335 | with context_queue_timeout set, with one worker, or without inputs, all workers can come to their end from any state their runs reach |
| ExecutorEnds.AllBusy | shutils/dag/executor.py:161-167 | with as many inputs as workers all workers can be busy at once, each with a context of its own |
| ExecutorEnds.StuckWithoutTimeouts | shutils/dag/executor.py:88-90 | for any graph, any inputs and two workers or more there is a run without timeouts after which all outputs are there, one worker waits for ever and the others have left |
| ExecutorEnds.FinishesIff | shutils/dag/executor.py:88-90 | every reachable state can come to its end if and only if context_queue_timeout is set, there is at most one worker, or there are no inputs |
| LockThreads.WakeAllCounts | shutils/dag/lib/smart_lock.py:499-500 | notify_all moves every parked thread to woken and no other thread anywhere |
| RWSpec.SpecStepExclusive | shutils/dag/lib/smart_lock.py:366-381 | the specification both locks refine: many readers or one writer |
| SmartLock.StepInv | shutils/dag/lib/smart_lock.py:481-522 | each critical section keeps the counters equal to the threads they count and the guard of every parked thread true |
| SmartLock.MutualExclusionNoLostWakeup | shutils/dag/lib/smart_lock.py:481-522 | in every interleaving the reader count is the number of read holders, a writer holds alone, and the wait guard of every still-parked thread is true |
| SmartLock.NeverStuck | shutils/dag/lib/smart_lock.py:489-522 | if a thread is parked, some thread holds the lock or is about to run |
| SmartLock.WriterPriority | shutils/dag/lib/smart_lock.py:481-494 | while a blocking writer waits, no step raises the reader count |
| SmartLock.CanDrain | shutils/dag/lib/smart_lock.py:481-522 | from every reachable state all threads, parked ones included, can get the lock and leave |
| SmartLock.InterruptKeepsInvIff | shutils/dag/lib/smart_lock.py:509-517 | an exception out of a writer's wait keeps the guards of parked threads true if and only if no reader is parked behind this writer alone |
| SmartLock.InterruptCanStrandAReader | shutils/dag/lib/smart_lock.py:509-517 | the other case is reached from the unused lock in five steps, and then a reader is parked on a free lock with nobody left to wake it |
| SmartLock.Refines | shutils/dag/lib/smart_lock.py:481-522 | each critical section is one move of the many-readers-or-one-writer specification, or none |
| SmartLock.StepAsMeant | shutils/dag/lib/smart_lock.py:481-522 | said of the places of the threads alone: a try to read enters exactly when nobody writes or waits to write, a try to write exactly when nobody holds the lock, a reader passes its guard exactly when no writer holds or waits, a writer exactly when nobody holds; who does not enter parks, and the last to leave wakes all; each critical section does just that |
| SmartLock.RunsAsMeant | shutils/dag/lib/smart_lock.py:481-522 | and so does every run |
| SmartLock.SmartRWLock.TryAcquireRead | shutils/dag/lib/smart_lock.py:481-487 | the answer is True exactly when no thread writes or waits to write, and then the thread reads |
| SmartLock.SmartRWLock.TryAcquireWrite | shutils/dag/lib/smart_lock.py:502-507 | the answer is True exactly when no thread reads or writes, and then the thread writes |
| SmartLock.SmartRWLock.BlockingAcquireRead | shutils/dag/lib/smart_lock.py:489-494 | the wait loop on the object's fields: enter or park |
| SmartLock.SmartRWLock.ReleaseReadLock | shutils/dag/lib/smart_lock.py:496-500 | the last reader wakes everybody |
| SmartLock.SmartRWLock.BlockingAcquireWrite | shutils/dag/lib/smart_lock.py:509-517 | the waiting count rises before the wait and falls on entering |
| SmartLock.SmartRWLock.ReleaseWriteLock | shutils/dag/lib/smart_lock.py:519-522 | the writer leaves and wakes everybody |
| SmartLock.Drive | shutils/dag/lib/smart_lock.py:481-522 | the lock object under any schedule: the threads stand where they are meant to after every step, every call answers whether its thread then holds the lock, and the fields are those of the transition system |
| RWLocks.StepInv | shutils/rwlock.py:59-75 | each critical section keeps the invariant; the mutex is held between steps exactly by the writer |
| RWLocks.MutualExclusionNoLostWakeup | shutils/rwlock.py:59-75 | the reader count is 0 throughout a write hold, there is one writer at most, and a parked un-notified writer still has a live reader |
| RWLocks.ReadersCanLeave | shutils/rwlock.py:63-67 | releasing a read hold never blocks on the mutex |
| RWLocks.CanDrain | shutils/rwlock.py:124-144 | from every reachable state all threads or coroutines can get the lock and leave |
| RWLocks.ReadersCanStarveAWriter | shutils/rwlock.py:59-72 | there is no writer priority: for every length there is a run in which readers enter and leave in turn while one writer stays parked after every step |
| RWLocks.Refines | shutils/rwlock.py:59-75 | it refines the same specification as the writer-priority lock |
| RWLocks.StepAsMeant | shutils/rwlock.py:59-75 | said of the places of the threads alone: a step that needs the mutex is possible exactly when nobody writes, a writer enters exactly when nobody reads and parks otherwise, the last reader wakes all; each critical section does just that |
| RWLocks.RunsAsMeant | shutils/rwlock.py:59-75 | and so does every run |
| RWLocks.RWLock.AcquireWriteLock | shutils/rwlock.py:69-72 | one turn of the wait loop: hold the mutex and write, or give it up and park |
| RWLocks.RWLock.ReleaseReadLock | shutils/rwlock.py:63-67 | the last reader notifies all |
| RWLocks.Drive | shutils/rwlock.py:59-75 | the lock object under any schedule: the threads stand where they are meant to, and every call answers whether its thread then holds the lock |
| AioQueues.StepInv | shutils/dag/lib/aio_queue.py:167-237 | each critical section of threads and coroutines keeps the queue's invariant |
| AioQueues.NothingLostNoWakeupLost | shutils/dag/lib/aio_queue.py:101-109 | in every cancellation-free run: got plus queued items are the items put (in order for the FIFO queue), a positive maxsize is never exceeded, parked getters imply at least as many woken getters as items, and parked putters at least as many woken putters as free slots |
| AioQueues.WokenInTurn | shutils/dag/lib/aio_queue.py:101-109 | waiters are woken in the order of their arrival, all coroutines before any thread |
| AioQueues.Pick | shutils/dag/lib/aio_queue.py:127-146 | the FIFO queue hands out its oldest item, the priority queue one that no queued item is less than |
| AioQueues.SettledMeans | shutils/dag/lib/aio_queue.py:260-309 | with nobody woken, a parked getter means an empty queue and a parked putter a full one, never both |
| AioQueues.ResumesEnd | shutils/dag/lib/aio_queue.py:198-224 | woken waiters come to rest after boundedly many turns in whatever order they run |
| AioQueues.Settle | shutils/dag/lib/aio_queue.py:167-193 | they can always come to rest, and then every waiter still parked has a reason to be |
| AioQueues.StrandedIff | shutils/dag/lib/aio_queue.py:229-237 | join loses a wakeup exactly when the last task_done finds two or more coroutines joining; joining threads are all woken |
| AioQueues.JoinersCanBeStranded | shutils/dag/lib/aio_queue.py:229-237 | four calls on a new queue of either kind lead there |
| AioQueues.TaskDoneRefusedIff | shutils/dag/lib/aio_queue.py:229-234 | task_done is refused exactly when it was accepted as often as items were put |
| AioQueues.StepAsMeant | shutils/dag/lib/aio_queue.py:151-309 | said of what was put, handed out and declared done alone, without the queue's fields: when a get, put, join or task_done goes through, parks or is refused, which item a get hands out, and that a put which goes through adds its item |
| AioQueues.AioQueue.Call | shutils/dag/lib/aio_queue.py:151-309 | each critical section of the object answers and does that |
| AioQueues.AioQueue.TakeOrPark | shutils/dag/lib/aio_queue.py:198-224 | one turn of get on the object's fields |
| AioQueues.AioQueue.AddOrPark | shutils/dag/lib/aio_queue.py:260-276 | one turn of put on the object's fields; the item joins what was put exactly when the call finishes |
| AioQueues.AioQueue.MarkDone | shutils/dag/lib/aio_queue.py:229-237 | the unfinished count falls, and reaching zero wakes the joiners |
| AioQueues.Drive | shutils/dag/lib/aio_queue.py:119-131 | under any schedule every call is answered as meant; the items of the finished puts are those handed out and those still queued, for the FIFO queue in the order of the puts |
| Bands.LeastIsFirst | shutils/dag/lib/aio_queue.py:142-146 | whichever least entry the heap pops, it is the first item of the bands: keys are unique |
| Bands.GetServes | shutils/dag/context_queue.py:83-99 | for any history of different items, a get is answered with nothing exactly when nothing waits, and otherwise with the item waiting at the highest priority, of several the oldest, or on a stack the newest; a put answers nothing |
| ContextQueues.ContextQueue.Insert | shutils/dag/context_queue.py:83-93 | the item goes in front of its band on the stack and behind it on the FIFOs |
| ContextQueues.ContextQueue.Advance | shutils/dag/context_queue.py:94-97 | the stack's sequence numbers fall, the others rise, and stay unused |
| ContextQueues.ContextQueue.TryGet | shutils/dag/context_queue.py:79-81 | get answers as the bands would |
| ContextQueues.Drive | shutils/dag/context_queue.py:83-99 | every interleaving of puts and gets is answered as one stack, then one FIFO, then another FIFO would |
| TaskQueues.TaskPriorityQueue.Insert | shutils/dag/task_queue.py:77-87 | the reserved number puts the item behind its band |
| TaskQueues.Drive | shutils/dag/task_queue.py:77-100 | every interleaving is answered as three FIFO bands would |
| TaskQueues.SameAsStackIff | shutils/dag/task_queue.py:25-30 | for any history with distinct items, the queue, whose band LIFO_HIGH is a FIFO, answers as one with a stack there if and only if no get finds two or more items in that band |
| Lifecycles.Create | shutils/dag/context.py:35-60 | a new context enters the counter and its parent's list and count, and all counts stay right |
| Lifecycles.Kill | shutils/dag/context.py:147-152 | marking, counting out and leaving the parent keep all counts right; the parent's lock is not among those held |
| Lifecycles.Destroy | shutils/dag/context.py:138-157 | the recursion terminates, keeps all counts right, leaves nothing alive below a destroyed context, reaches only the subtree and, going up, the parent, and never requests a parent lock already held |
| Lifecycles.DestroyContext | shutils/dag/context.py:138-157 | exactly the subtree dies and, going up, the parent if it has no other live child |
| Lifecycles.UnderParent | shutils/dag/context.py:153-157 | destroying a parent whose children are all marked reaches nothing but the parent and the subtree of the one child being destroyed |
| Lifecycles.SubtreeDead | shutils/dag/context.py:155-157 | between calls everything under a destroyed context is destroyed |
| Lifecycles.CounterZeroIff | shutils/dag/runtime.py:44-63 | the counter is 0 if and only if no context of the runtime is live |
| Lifecycles.Complete | shutils/dag/context.py:208-212 | on the context and each of its ancestors the task joins the completed ones unless the skip flag was set, which is cleared; availability stays exact; no other context changes |
| Lifecycles.ValidMeans | shutils/dag/context.py:138-157 | between calls the counter is the number of live contexts, each child count the number of live children, and subtrees of destroyed contexts are dead |
| LifecycleScripts.CounterIs | shutils/dag/runtime.py:44-63 | the counter is the number of live contexts that it counts, in the forest of the script |
| LifecycleScripts.DestroyAt | shutils/dag/context.py:138-157 | on the objects, destroying a context makes dead what dies in the forest: everything below it and, going up, the parent whose other children are all dead, and so on |
| LifecycleScripts.CompleteAt | shutils/dag/context.py:208-212 | on the objects, a completion reaches the context and those above it, as in the forest |
| LifecycleScripts.Drive | shutils/dag/context.py:138-212 | any script of create, create_child, destory and complete leaves the contexts as the forest says, parents, deaths and progress, and the counter at the number of live contexts it counts |
| LruCaches.GetFindsIff | shutils/cache.py:297-310 | get finds a key if and only if it was set and fewer than max_size distinct other keys were set or hit since its last set or hit; what it finds is the last value set |
| LruCaches.AliveIffKept | shutils/cache.py:342-345 | that distance condition says exactly that the key is among the max_size most recent |
| LruCaches.TakeRenewed | shutils/cache.py:319-323 | moving a key to the recent end and evicting the oldest commute |
| LruCaches.HistoryAgrees | shutils/cache.py:297-324 | after every history the cache holds the most recent keys with their last values |
| LruCaches.NeverOverfull | shutils/cache.py:342-345 | never more than max_size entries |
| LruCaches.UsedKeySurvives | shutils/cache.py:297-310 | a key that was set or found stays with its last value as long as fewer than max_size different other keys are asked for or set |
| LruCaches.UnusedKeyGoes | shutils/cache.py:342-345 | a key nobody asks for or sets is gone after max_size different other keys were set |
| LruCaches.LRUCache.Lookup | shutils/cache.py:297-310 | the object's get answers what the history means |
| LruCaches.LRUCache.Store | shutils/cache.py:312-324 | the object's set follows the history |
| LruCaches.LRUCache.Cleanup | shutils/cache.py:342-345 | the eviction loop leaves exactly the most recent entries |
| Limiters.GrantBound | shutils/dag/lib/limiter.py:255-266 | for any trace, timestamps in any order, the grants from one update to a granted call number at most capacity plus rate times the time between |
| Limiters.WithinOnePeriod | shutils/dag/lib/limiter.py:91-97 | hence at most twice the limit within one period |
| Limiters.RefusedCallCanBreakTheBound | shutils/dag/lib/limiter.py:256-261 | with out-of-order readings the bound fails at a refused call |
| Limiters.BoundAfterLastGrant | shutils/dag/lib/limiter.py:255-266 | the bound holds at any call, granted or not, whose reading is not before that of the last granted call; the other readings may be in any order |
| Limiters.MonotoneBound | shutils/dag/lib/limiter.py:255-266 | with readings in order it holds from any call to any other |
| Limiters.BurstIff | shutils/dag/lib/limiter.py:255-266 | of calls that come at once exactly as many are granted as the refilled bucket holds whole tokens |
| Limiters.BurstAfterIdle | shutils/dag/lib/limiter.py:255-266 | after a period without calls the next `limit` calls at once are granted, and not one more |
| Limiters.BurstWhenNew | shutils/dag/lib/limiter.py:91-97 | so with a new limiter |
| Limiters.Balance | shutils/dag/lib/limiter.py:255-266 | while no token is lost at the brim, the grants are exactly the tokens that were there and were earned less those left; so up to a refused call fewer than one token is left unused |
| Limiters.WaitIsExact | shutils/dag/lib/limiter.py:246-253 | a lone caller is granted if and only if it waits at least the computed time |
| Limiters.Limiter.TryAcquireAt | shutils/dag/lib/limiter.py:255-266 | one attempt on the object's fields |
| Limiters.Limiter.Acquire | shutils/dag/lib/limiter.py:129-149 | a call that can be granted is, without sleeping; with limit at least 1, no competitor and no timeout it succeeds after one sleep at most; it gives up only after the timeout and without a whole token; with limit 0 it never succeeds and, without a timeout, raises ZeroDivisionError |
| RateLimiters.GrantsExactly | shutils/rate_limiter.py:51-70 | the exact number of grants in any stretch of calls shorter than the period: what is left of the window up to the first call that refills, and a fresh window from there |
| RateLimiters.LimitKeptIff | shutils/rate_limiter.py:15-21 | the documented limit of calls per period is kept there if and only if those two numbers fit the limit together |
| RateLimiters.AtMostTwice | shutils/rate_limiter.py:51-70 | any half-open interval as long as the period holds at most 2 * calls grants |
| RateLimiters.OneWindow | shutils/rate_limiter.py:58-70 | a stretch without refill holds at most calls grants |
| RateLimiters.TwoBurstsFitInOnePeriod | shutils/rate_limiter.py:15-21 | for every limit and period a new limiter can grant 2 * calls within half a period |
| RateLimiters.RefusalIsHonest | shutils/rate_limiter.py:66-68 | every refusal returns a wait in (0, period], and a lone caller that sleeps it is granted |
| RateLimiters.EarlierIsRefused | shutils/rate_limiter.py:58-68 | and one that comes back earlier is refused again |
| RateLimiters.RateLimiter.Cal | shutils/rate_limiter.py:51-70 | one call on the object's fields |
| RateLimiters.Wrapped | shutils/rate_limiter.py:139-152 | the decorator's loop: with sleep_and_retry the function is called after one sleep at most, otherwise it is called exactly when granted |
| Params.DecodeEncode | shutils/param.py:164-246 | decoding an encoded value gives it back with omitted fields at their defaults, for every well-typed value over nested dataclasses, enums, scalars, lists, dictionaries, fixed tuples, and unions in which no earlier arm accepts the encoding strictly |
| Params.DataTrip | shutils/param.py:239-246 | a dataclass round-trips if each shown field does and each omitted one has a default |
| Params.MappingTrip | shutils/param.py:204-210 | a dictionary round-trips with its keys and their order |
| Params.EnumTrip | shutils/param.py:225-226 | an enum member is found again by its value |
| Params.FindField | shutils/param.py:146-155 | in the encoded instance a field is found under its name unless it was omitted |
| Params.DecodesIff | shutils/param.py:177-237 | for every type and value, decoding succeeds if and only if the value's shape fits the type: scalars take anything unless asked strictly, containers look at the shape alone, a union needs one arm |
| ParamExact.RoundTripsIff | shutils/param.py:164-246 | for every type and encodable value, the value survives encoding and decoding if and only if it is of the type, where a union means its first arm that takes the encoding strictly |
| ParamExact.UnionTripsIff | shutils/param.py:186-197 | through a union a value survives if and only if it is of the first arm whose shape takes its encoding strictly |
| ParamExact.FirstContainerDecides | shutils/param.py:198-224 | when the first arm of a union is a list, tuple or dictionary of scalars, a container of that kind survives if and only if all its parts are instances for that arm |
| Params.UnionRaisesIff | shutils/param.py:186-197 | a union raises if and only if no arm takes the value even without strictness; one scalar arm is enough for it never to raise |
| Params.StrictAgrees | shutils/param.py:229-237 | what is accepted strictly is decoded to the same value otherwise |
| ParamExact.EarlierListArmSpoilsValue | shutils/param.py:198-203 | a union of list[int] and list[str], in this order, turns every list of strings into a list of type objects; only the empty one survives |
| ParamShape.ScalarGives | shutils/param.py:229-237 | at a scalar type a value is kept if and only if it is an instance, a bool being one of int too; any other raises strictly and otherwise becomes its own type object: that of its built-in type, enum or class |
| ParamShape.EnumGives | shutils/param.py:225-226 | at an enum a value gives the first member with an equal value |
| Params.UnionGives | shutils/param.py:186-197 | a union answers as the first arm that takes the value strictly, and if none does as the first that takes it at all |
| ParamShape.EncodedKeys | shutils/param.py:146-155 | an encoded instance has exactly one key for each field that is not hidden and, if those are skipped, has no underscore in front, in the order of the class, over the encoding of the field's value |
| ParamShape.EncodedIsFlat | shutils/param.py:113-156 | no instance, enum member, Hide or type object is left anywhere in an encoding, if enum values are scalars |
| ParamShape.DecodedConforms | shutils/param.py:177-246 | whatever the data, the decoder raises or makes a value of the type down to its scalars, where only type objects can stand instead, and fields, where defaults can |
| ParamShape.LaterKeysWin | shutils/param.py:204-210 | a decoded dictionary has under every key the decoded value of the last entry whose key decodes to it |
| ParamShape.PutThenFind | shutils/param.py:209-210 | assigning to a key changes the value under every equal key and under no other |
| ParamShape.FromOtherData | shutils/param.py:241-246 | data other than a dictionary makes an instance exactly when all fields have defaults and no field name occurs in it as an item or substring |
| ParamLoops.AsDict | shutils/param.py:113-161 | the recursive loops compute the encoding, and refuse what is not a dataclass |
| ParamLoops.ProcessValue | shutils/param.py:177-237 | the decoder's branches and loops, with swallowed exceptions in unions, compute the decoding |
| ParamLoops.DictToDataclass | shutils/param.py:239-246 | the loop over the fields, with defaults for missing ones |
| ImageSizes.WellFormedIsMeasured | shutils/imagesize.py:110-124 | SOI, any length-carrying segments that are not frame headers with any number of fill bytes, then a frame header (sections B.1.1 and B.2.2 of ITU-T T.81): the scan returns that header's width and height |
| ImageSizes.PlainFile | shutils/imagesize.py:110-124 | byte for byte: a header behind SOI is measured for each of the thirteen frame markers of table B.1 of ITU-T T.81, whatever length it declares, and for no other marker whose segment fills the file |
| ImageSizes.RoundAdvances | shutils/imagesize.py:115-121 | each round nets at least one byte, even when a declared length of 0 or 1 seeks backwards |
| ImageSizes.FoundInFile | shutils/imagesize.py:115-126 | on any bytes the scan ends in the ValueError or in dimensions that stand in the file behind a frame marker |
| ImageSizes.StandaloneJumps | shutils/imagesize.py:115-121 | in a file of any size, behind a marker without a length field the scan reads the next two bytes as one and jumps by that much |
| ImageSizes.MeasuredIff | shutils/imagesize.py:110-126 | in a file of fewer than 0xFF00 bytes the frame header's size is returned if and only if no marker before it lacks a length field; otherwise the scan ends in the ValueError |
| ImageSizes.FindMarker | shutils/imagesize.py:116-121 | the inner loop over fill bytes and the reads behind it |
| ImageSizes.Get | shutils/imagesize.py:86-126 | the marker loop on the file terminates on every input and returns what the scan finds; the file is closed |

## Left out

- `TaskExecutor` and `ServeExecutor`: they enqueue tasks again on every pass and misread a pair as a list; the exactly-once results are about `Executor` only.
- Executor runs with live child contexts: the loops at shutils/dag/executor.py:361-364 and 382-385 do not advance; child contexts appear in the lifecycle part only.
- Executors.AfterTask: a router masks and is completed in one step; nothing reads the task state of a context while a batch runs on it. A router that picks nothing or an unknown task is treated on its own (`Routing.RouterCall`, `Routing.MaskSparesSinkIff`).
- Executor features beside the main path: retries, throttling, freezing, failing tasks, `parallel_num`, loop and stream tasks, new contexts (routers of the executor pass their context on), an exit because all workers are idle. The bypass of new contexts is treated on its own, for contexts that completed at least one running task.
- The executor is assumed to own its runtime counter: it counts the distinct input contexts and nothing else.
- Executors.StepInv: a step takes any queued context, of which the order the context queue keeps is one case, and the outputs of all workers are one list; the executor object of `ExecutorLoop` takes the first of its queue and keeps one list for each worker.
- ExecutorEnds.SomeoneWorks: any waiting worker can be handed an item. In the program a get that has timed out can swallow the wakeup it was given (shutils/dag/lib/aio_queue.py:311-317), and then another waiter must time out before the item is taken.
- Dags.DAG.AddTask: a task added after the first closure query leaves the memo stale, as in the program; the closure results are for graphs whose memo is fresh.
- Dags.DAG.AddUpstream: the edge sets that task objects carry are two maps of the DAG object, by task id; one task object in several DAGs is not modelled.
- Queue cancellation and timed waits; an exception in a reader's wait; an exception in the asyncio lock's wait, which only gives the mutex back.
- `heapq` and `deque` are taken as "pop removes a least element" and as sequences; condition variables and futures as parked and woken waiters.
- AioQueues.AioQueue.JoinOrPark: coroutines that join together can be stranded, and `AioQueues.StrandedIff` says exactly when.
- ContextQueues.ContextQueue.TryGet: a get on an empty queue answers None where the program parks the caller until a put.
- Lifecycles.Destroy: calls are sequential; the asyncio version takes a read lock where the threaded one takes the write lock and otherwise does the same. Two destructions of one context that overlap in time are not modelled.
- Lifecycles.Create: no child is created under a destroyed parent; the program allows it, and then a live context hangs under a dead one.
- LruCaches.LRUCache.constructor: max_size is at least 0; a negative one makes the program's constructor raise KeyError. Deletion, clearing and persistence are not part of the history; key hashing is taken as injective.
- Limiters.Limiter.Acquire: no competitor takes tokens between the attempts; the concurrency and resource-pool strategies are not modelled. The checks for a positive period and a non-negative limit are preconditions of the constructor.
- RateLimiters.Wrapped: no other caller; the constructor's checks are a precondition.
- Floating point is replaced by real numbers.
- Params.DecodeEncode: dictionary keys are scalars or enum members and enum values are scalars; forward references, sets, `Any`, variable-length tuples, subclasses of dataclasses, enums that are also strings or integers, and the JSON text itself are not modelled.
- ParamExact.RoundTripsIff: TNone is NoneType, as unions carry it; a field annotated with a bare `None`, or `list[None]`, makes the decoder raise TypeError (shutils/param.py:225) and is not modelled. Otherwise for the same values, and for instances that belong to their classes and dictionaries without equal keys.
- ImageSizes.MeasuredIff: in a file of 0xFF00 bytes or more the scan may land anywhere behind a marker without a length field; `ImageSizes.StandaloneJumps` says where.
- The other image formats, `getDPI`, the wait-time metrics and strategy choice of the locks, thread and process pools, generators, service tasks, the visualizer, configuration and reflection helpers: they read fixed fields out of headers, keep statistics, or hand calls on to libraries.
