# Verified model of the GExecutor task queues

GExecutor hands tasks from thread to thread through `GTaskQ`: a deque behind a mutex, paired with a
non-blocking pipe. A producer pushes a task and reserves notification bytes under the lock, writes
them outside it, and retakes the lock to record bytes it could not write. A worker woken by its pipe
reads bytes and, for each one, dequeues and executes exactly one task, using the task before testing
it for null. `DeferredTask` runs a function on one queue and posts a callback or an errback to
another. This project states that protocol as a transition system, proves what every run of it
keeps, and proves that the code of the library, as a thread executes it between arbitrary steps of
all other threads, takes exactly the steps of the protocol.

## How the project is laid out

- `Sums.dfy`: sums and flattenings over sequences, with which every total and history is expressed.
- `Tasks.dfy`, `Protocol.dfy`: deferred tasks; queues, threads, steps and runs. Any number of queues
  with any pipe capacities, any number of producers and workers, any number of workers per queue.
  One step is one critical section, one system call, or one boundary of user code. User code may
  enqueue anything at any time, also while a task runs.
- `Accounting.dfy`: the inductive invariant (tokens, FIFO, counters) and "a byte implies a task".
- `Flow.dfy`: each task object is in one place; one conservation law for arbitrary weights.
- `SetOnce.dfy`, `Resubmission.dfy`: the assertion in `set_exec_task_q`, with the exact condition
  under which it fails.
- `Progress.dfy`: a rank that every step but a submission lowers; where runs stop.
- `Delivery.dfy`, `Order.dfy`: at-most-once delivery at every moment, exactly-once delivery with the
  right hook at the end; order through two stages.
- `Stranding.dfy`: notifications given up, when, and with what effect, as coded and as the comment
  intends.
- `SelfFeeding.dfy`: an executor, of any number of workers, whose tasks answer to its own queue.
- `ShuttingDown.dfy`: shutdown during a drain.
- `Examples.dfy`: concrete runs that show where the promises fail.
- `Refinement.dfy`, `Traces.dfy`, `GTaskQ.dfy`, `Executor.dfy`: the imperative code. Class `GTaskQ`
  holds the fields the source updates; the methods of class `Process` are `NotifyQ`, `EnqueueGTask`,
  `DequeueGTask`, `Execute` and `taskq_cb` with the source's loops, for both policies. Between two
  atomic actions each calls `Yield`, after which all other threads may have taken any run of steps.
  A user function may itself enqueue any number of tasks on any queues before it ends.
- `Registry.dfy`: the locked executor registry, as an object and as interleaved actions.

`Init` describes a start state; `CanRun` and `After` a run and its end. `AsCoded` and `Intended` are
two policies for one line of `EnqueueGTask` (see below). `Terminal` is a state in which only
submissions and shutdowns can still happen; `SettledAt` adds that a given queue has a worker and
misses no notification, given up or, as intended, outstanding. `FreshRun` is a run in which callers
submit each object at most once, and none that the library made; a `Process` with `once` has such
callers, one without has any.

## Where code and documentation differ

- The comment at `src/gexecutor/gtaskq.cc:167` says a shortfall is added back to the outstanding
  notifications; line 169 adds it to the limit instead. The model follows the code; `Intended` is the
  comment. As coded, from every notification given up on, one more task is always left waiting: later
  enqueues may push earlier ones out of the queue, but when the system stops the last ones enqueued
  stay, as many as notifications were given up (`StrandedForever`, `LastOnesStrand`). On reliable
  pipes a call gives its byte up if and only if the pipe is full at every attempt it makes
  (`GivesUpIff`), and a run gives something up if and only if some last attempt finds it full
  (`LostIff`). That takes more waiting tasks than the pipe has room for bytes (`WithinCapacity`), and
  one more can be enough (`OverfullQueueStrands`). As intended, later enqueues announce the backlog
  again (`BacklogAnnouncedIff`).
- `README.md:28` of the library says the errback also covers a failing callback. It does not:
  response tasks have no hooks (`HookChoice`; `CallbackFailureIsSwallowed` is such a run).
- Shutting down an id that is not registered registers null under it, and `CreateAsyncExecutor` then
  returns null for it, until a synchronous executor overwrites it (`CreateReturnsNullIff`).
- The set-once assertion holds for callers that submit each object at most once
  (`FreshRunsAreSafe`). For any callers, once nothing waits any more, it has failed if and only if
  some object was submitted again (`SetOnceIffFresh`; `TaskThatResubmitsItself` is such a run).

## Assumptions

`Initialize` is called once on every queue before use. `CreateSyncExecutor`
(`src/gexecutor/gexecutor_service.cc:54-64`) does not do so for the queue it makes, and neither does
`GSyncExecutor`; the results here hold for its queue only if somebody does. Only `taskq_cb` dequeues;
the pipe is byte-granular; `read` finds nothing only when the pipe is empty; `EnqueueGTask` does not
throw and the reply queue of a task with hooks is not null; user functions end, and submit finitely
often. A write of at most `cfg.pipeBuf` bytes is atomic (POSIX.1-2017, System Interfaces, write());
otherwise it may fail or be partial in any way at any time. Under `cfg.reliable` a write that fits
the pipe succeeds in full, and `ReadNow` gets all it can; only `SelfFeeding`, the examples,
`WriteSucceedsIff`, `WithinCapacity`, `GivesUpIff`, `CallGivesUpIff` and `LostIff` use it.

## Model

| member | source | states |
|---|---|---|
| Accounting.ReachableIsAccounted | src/gexecutor/gtaskq.cc:149-200 | In every reachable state each deque is the FIFO of what was enqueued and not dequeued, `num_enqueue_ - num_dequeue_` is its length, and its length is the sum of bytes in flight, in the pipe, read and unspent, outstanding, and the growth of the limit; no null task was used |
| Accounting.StepKeepsInv | src/gexecutor/gtaskq.cc:83-200 | Every step of every thread keeps the invariant, for both policies |
| Accounting.ByteImpliesTask | src/gexecutor/gasync_executor.cc:88-96 | A worker holding n unspent bytes has at least n tasks waiting in its queue, however many workers share the pipe |
| Accounting.DequeueFindsTask | src/gexecutor/gasync_executor.cc:88-92 | In every reachable state, a worker that comes to dequeue, which it does for a byte only, finds its queue not empty |
| Accounting.NullUsedIff | src/gexecutor/gasync_executor.cc:89-92 | From any state and over any run: a null task has been used if and only if some dequeue found its queue empty |
| Accounting.ReadIff | src/gexecutor/gasync_executor.cc:78 | A worker at the top of its loop may read k bytes if and only if there are that many and k is between 1 and the 4096 of its buffer |
| Accounting.TokenMove | src/gexecutor/gtaskq.cc:156-170 | A step changes the uncovered tasks of a queue by exactly what it changes the bytes held by the thread that takes it |
| Accounting.FifoMove | src/gexecutor/gtaskq.cc:156-189 | A step adds to the back of a deque what it logs as enqueued and takes from the front what it logs as dequeued |
| Accounting.RequestFits | src/gexecutor/gtaskq.cc:83-95 | A reservation asks for at least one byte, never for more than the 4096-byte buffer, and as coded for exactly one |
| Flow.Conservation | src/gexecutor/deferred_task.h:97-119 | Over every run, for every weight of tasks: what was made for a queue has finished there, is running there, waits there, or is about to be posted there |
| SetOnce.FreshRunsAreSafe | src/gexecutor/gtaskq.h:50-53 | Over every run in which callers submit each object at most once, the set-once assertion never fails and no null task is used |
| SetOnce.FrontIsUnclaimed | src/gexecutor/gtaskq.cc:183-193 | If callers submit each object at most once, the task at the front of any queue has a null `exec_task_q_` |
| SetOnce.ExecOkKeeps | src/gexecutor/gtaskq.h:50-53 | For any callers: the assertion has failed if and only if some object was dequeued twice |
| Resubmission.AssertionFailsIff | src/gexecutor/gtaskq.h:50-53 | For any callers, at every moment: the assertion has failed if and only if some object was brought in at least twice more often than copies of it still wait |
| Resubmission.SetOnceIffFresh | src/gexecutor/gtaskq.h:50-53 | Over every run of any callers after which nothing waits: the assertion has failed if and only if an object was submitted that had been submitted before or that the library had made |
| Resubmission.ResubmissionFails | src/gexecutor/gtaskq.cc:190-193 | One queue at a time: submitting to it an object that was dequeued anywhere makes the assertion fail by the time the system stops, if that queue is served and gave nothing up, whatever waits elsewhere |
| Examples.TaskThatResubmitsItself | src/gexecutor/gtaskq.h:50-53 | A concrete run from a start state, one queue and one worker whose task enqueues itself again, after which the assertion has failed |
| Progress.RankStep | src/gexecutor/gasync_executor.cc:77-97 | Every step but a submission lowers the rank, and a submission raises it by a bounded amount |
| Progress.RunsAreBounded | src/gexecutor/gasync_executor.cc:77-97 | The length of a run is bounded by its start and its number of submissions |
| Progress.Settles | src/gexecutor/gasync_executor.cc:77-97 | From every reachable state the system can run on without submissions until it stops |
| Progress.NoLostWakeup | src/gexecutor/gtaskq.cc:149-174 | When the system has stopped, a queue with a worker has an empty pipe and holds exactly as many tasks as notifications were given up (as intended: are outstanding); with none given up everything enqueued was dequeued in order |
| Progress.WaitingTaskHasStep | src/gexecutor/gasync_executor.cc:77-97 | While a task waits in a served queue and nothing was given up there, a worker of that queue or a thread holding bytes for it has a step |
| Delivery.ExactlyOnceDelivery | src/gexecutor/deferred_task.h:139-164 | Under every interleaving of callers that submit each object at most once, in both variants, a submitted task finishes once, on its queue, after its submission; then the response chosen by outcome and hooks finishes once, on the reply queue, after it; nothing follows the response. Only those two queues need to be served and lossless |
| Delivery.AtMostOnceDelivery | src/gexecutor/deferred_task.h:139-164 | If callers submit each object at most once, at every moment, whatever was given up or shut down: no object finishes twice, no two events make the same response, and a response finishes, if at all, after its task, on the queue that asked for it, and makes no response |
| Delivery.HookChoice | src/gexecutor/deferred_task.h:97-119 | For every task that finishes in any run of callers that submit each object at most once: its response calls the errback, with the code, if and only if the function threw and an errback is set, and the callback, with the result, if and only if it returned and a callback is set; a response is answered by nothing, however it ends |
| Examples.CallbackFailureIsSwallowed | src/gexecutor/deferred_task.h:103-104 | A concrete run in which one task with both hooks is submitted, its callback throws, and nothing is left to run |
| Delivery.OnlySubmissionsAndRepliesRun | src/gexecutor/deferred_task.h:139-164 | If callers submit each object at most once, whatever finishes was submitted to that queue earlier or is the reply to a task that finished earlier and named that queue |
| Delivery.RunningHome | src/gexecutor/deferred_task.h:103-105 | If callers submit each object at most once, the `exec_task_q_` a running task uses as reply address is the queue its worker serves |
| Order.OrderPreserved | src/gexecutor/gasync_executor.cc:88-96 | With one worker per stage, the trace of hooks run is the submission trace mapped through the outcomes and filtered to the matching hook, in order |
| Order.StagesInOrder | src/gexecutor/deferred_task.h:139-164 | At every moment of such a run, what the second stage has done and still has to do is the expected work for what the first stage has finished, in order |
| Stranding.StrandedCount | src/gexecutor/gtaskq.cc:165-172 | With nothing in flight, the tasks left number exactly the growth of the limit, which is the number of notifications given up |
| Stranding.StrandedForever | src/gexecutor/gtaskq.cc:165-172 | From then on, in every run, at least that many tasks wait and the limit never shrinks |
| Stranding.LastOnesStrand | src/gexecutor/gtaskq.cc:165-172 | When the system has stopped, the tasks left in a served queue are the last ones enqueued, as many as notifications were given up, and all before them were dequeued in order |
| Stranding.WriteSucceedsIff | src/gexecutor/gtaskq.cc:114-140 | On reliable pipes a write sends its byte if and only if the pipe is not full |
| Stranding.WithinCapacity | src/gexecutor/gtaskq.cc:106-146 | On reliable pipes, while the deque is never longer than the pipe has room for bytes, every write for it sends its byte and nothing is given up, whatever all threads do |
| Stranding.GivesUpIff | src/gexecutor/gtaskq.cc:106-146 | On reliable pipes, a thread that has made its attempts to send a byte has given it up if and only if the pipe was full at every one of them, whatever others did in between; it has then made all it had left, or one failed hard |
| Stranding.CallGivesUpIff | src/gexecutor/gtaskq.cc:149-174 | The same from the push on: a call of `EnqueueGTask` gives its byte up if and only if the pipe was full at every attempt, of which it made exactly three unless one failed hard |
| Stranding.LostIff | src/gexecutor/gtaskq.cc:165-172 | Over every run on reliable pipes, something was given up on a queue, or is about to be recorded as such, if and only if its pipe was full at a last or hard-failing attempt of some thread |
| Examples.OverfullQueueStrands | src/gexecutor/gtaskq.cc:165-172 | For every pipe capacity c, a run on reliable pipes with c + 1 submissions, each of its own object, that stops with a task left in a served queue |
| Stranding.ShortfallIsWhole | src/gexecutor/gtaskq.cc:106-146 | In both variants: when n bytes are few enough for an atomic write, attempts to send them end with all sent or all n given up, however they go and whatever others do |
| Stranding.OneByteRequests | src/gexecutor/gtaskq.cc:83-95 | As coded, nothing is ever outstanding, the limit is at least 4096, and every request and shortfall is one byte |
| Stranding.RequestsFitBuffer | src/gexecutor/gtaskq.cc:47-58 | In both variants no write asks for more bytes than the notification buffer holds |
| Stranding.BytesNeverExceedTasks | src/gexecutor/gtaskq.cc:98-147 | Over every run, bytes sent never exceed tasks enqueued, and dequeues never exceed bytes sent; the difference is in flight, outstanding or given up |
| Stranding.BacklogShrinks | src/gexecutor/gtaskq.cc:83-95 | As intended, while nothing more is given up every enqueue announces up to 4095 of the backlog, under any interleaving |
| Stranding.BacklogAnnouncedIff | src/gexecutor/gtaskq.cc:166-170 | As intended, a backlog b is fully announced again if and only if ceil(b/4095) such enqueues have happened; and with no announcement on its way, that is when every task ever enqueued has had its byte sent |
| SelfFeeding.DrainIsSafe | src/gexecutor/gasync_executor.cc:77-97 | Any number of workers whose tasks answer to their own queue, on reliable pipes and with room for what they hold: pipe bytes, unspent bytes and responses under way stay within the pipe, no write fails and no notification is given up; executions plus remaining weight never grow |
| SelfFeeding.SelfFeedingDrains | src/gexecutor/deferred_task.h:103-105 | Such a drain makes at most twice as many executions as there were tasks and leaves the limit alone; pipe and queue are empty when the last worker leaves `taskq_cb`, and when the system stops |
| SelfFeeding.LoneWorkerDrains | src/gexecutor/gasync_executor.cc:77-97 | With one worker and no other producer, `taskq_cb` returns only with pipe and queue both empty |
| SelfFeeding.LoadStep | src/gexecutor/deferred_task.h:47-51 | With weight 2 for a task with a hook and 1 otherwise, the remaining weight falls with every execution and rises with no step |
| ShuttingDown.ShutdownCommutes | src/gexecutor/gasync_executor.cc:36-44 | Shutdown commutes with every other step but a wake-up of that worker, so a drain under way goes on as it would have |
| ShuttingDown.LeavesWithNothing | src/gexecutor/gasync_executor.cc:77-97 | A worker gets out of `taskq_cb` only by finding the pipe empty, with no unspent byte and nothing running |
| ShuttingDown.LeftBehind | src/gexecutor/gasync_executor.cc:36-44 | With all workers out of their callbacks, the tasks left are exactly bytes in the pipe, in flight, outstanding and given up |
| ShuttingDown.StopsOutsideCallbacks | src/gexecutor/gasync_executor.cc:77-97 | The system does not stop before every worker, shut down or not, has left its callback with nothing unspent |
| TaskQueue.GTaskQ.constructor | src/gexecutor/gtaskq.cc:47-51 | The initial counters |
| TaskQueue.GTaskQ.NumNotifnToWrite | src/gexecutor/gtaskq.cc:83-95 | Reserves what is outstanding up to the limit; nothing is lost between reserved and outstanding |
| TaskQueue.GTaskQ.PushLocked | src/gexecutor/gtaskq.cc:156-163 | The first critical section of `EnqueueGTask` is the protocol's push |
| TaskQueue.GTaskQ.CreditLocked | src/gexecutor/gtaskq.cc:168-170 | The second adds the shortfall to the limit, or in the intended variant to what is outstanding |
| TaskQueue.GTaskQ.PopLocked | src/gexecutor/gtaskq.cc:183-189 | Takes the front task, or null from an empty queue |
| Traces.AllOrNothing | src/gexecutor/gtaskq.cc:98-147 | Whatever attempts `NotifyQ` makes for a request of at most PIPE_BUF bytes, on a pipe with the atomicity POSIX.1-2017 requires, it delivers all or nothing, and nothing if and only if no attempt sent anything |
| Executor.Process.NotifyQ | src/gexecutor/gtaskq.cc:98-147 | For every request, every sequence of write outcomes, partial ones included, and every interleaving: three attempts, fewer only when done or on a hard error; the count returned is what was delivered and at most what was asked; all or nothing for requests of at most PIPE_BUF bytes; its steps are exactly those writes |
| Executor.Process.EnqueueGTask | src/gexecutor/gtaskq.cc:149-174 | For any caller, in both variants: it asks for what the push reserves; its steps are one push, the writes, and a credit exactly if they fell short, of the whole request if that is at most PIPE_BUF; the thread is then where it was |
| Executor.Process.DequeueGTask | src/gexecutor/gtaskq.cc:176-200 | Called for a byte, it returns a task, with its `exec_task_q_` set to this queue; with callers that submit each object at most once, the field was null when the call began, and the assertion has not failed |
| Executor.Process.MakeReply | src/gexecutor/deferred_task.h:139-164 | The response object made for each outcome and choice of hooks |
| Executor.Process.UserFunction | src/gexecutor/deferred_task.h:141 | A call of the task's function: it makes any complete enqueues it likes, ends with some outcome, and is on record once, with that outcome |
| Executor.Process.Execute | src/gexecutor/deferred_task.h:97-119 | It calls the function of the given task exactly once and answers the outcome of that call; its steps are whatever complete enqueues the user function makes, one return, and, if there is a response, one complete enqueue on the reply queue |
| Executor.Process.ReadNow | src/gexecutor/gasync_executor.cc:77-87 | The worker claims the bytes it gets, at most 4096, on a reliable pipe all there are up to that; with none it leaves |
| Executor.Process.TaskqCb | src/gexecutor/gasync_executor.cc:59-99 | Under every interleaving, with user functions that enqueue too, finitely often, it ends; the dequeued task is never null when used; no read exceeds 4096 bytes; every byte read is spent on one dequeue and one call of a user function; the functions called are those that return, in order and with those outcomes; it leaves with nothing in hand |
| Executor.Process.constructor | src/gexecutor/gtaskq.cc:47-51 | New queues and idle threads are a start state of the protocol |
| Registry.ShutdownAtMostOnce | src/gexecutor/gexecutor_service_base.cc:42-54 | Under every interleaving no executor is shut down twice by `ShutdownExecutor`, and none that was is still registered |
| Registry.ShutdownHistory | src/gexecutor/gexecutor_service_base.cc:42-54 | Over every history the executors that have been shut down are exactly those of its Shutdown calls, in order |
| Registry.TakenIsShutDown | src/gexecutor/gexecutor_service_base.cc:44-52 | An executor that `ShutdownExecutor` takes out is bound nowhere ever after, and shut down if and only if its Shutdown call has happened; until then it is still to be shut down |
| Registry.ShutDownIffTaken | src/gexecutor/gexecutor_service_base.cc:42-54 | Over every history an executor is shut down, or about to be, if and only if `ShutdownExecutor` took it out at some point; creating and overwriting shut nothing down |
| Registry.LiveMap | src/gexecutor/gexecutor_service_base.cc:56-65 | Lookup agrees with the map without null bindings; overwrite and erase act on it as such; get-or-create does if and only if the id has no null binding |
| Registry.CreateReturnsNullIff | src/gexecutor/gexecutor_service.cc:39-44 | Over every history of calls: `CreateAsyncExecutor` returns null if and only if at some point the id was shut down with nothing bound to it and no synchronous executor was created under it since |
| Registry.CreateAsyncIsStable | src/gexecutor/gexecutor_service.cc:30-52 | Two calls on one id with no shutdown or overwrite of it in between return the same |
| Registry.NullBindingSticks | src/gexecutor/gexecutor_service_base.cc:44-47 | After a shutdown of an unregistered id, creating asynchronously under it returns null until a synchronous executor overwrites it |
| Registry.GExecutorService.ShutdownExecutor | src/gexecutor/gexecutor_service_base.cc:42-54 | Takes the executor out under the lock and makes exactly its Shutdown call after it, whatever other callers do in between; returns -1 and shuts nothing down if there is none |
| Registry.GExecutorService.CreateAsyncExecutor | src/gexecutor/gexecutor_service.cc:30-52 | Get or create; shuts nothing down |
| Registry.GExecutorService.CreateSyncExecutor | src/gexecutor/gexecutor_service.cc:54-64 | Overwrite; the executor it replaces is not shut down |
| Registry.GExecutorService.Gexecutor | src/gexecutor/gexecutor_service_base.cc:56-65 | Lookup without inserting |

## Left out

- Executor.Process.NotifyQ: does not model the abort at `assert(0)`; a hard error returns its code, as with assertions compiled out. With them in, the process ends there.
- Executor.Process.DequeueGTask: sets `exec_task_q_` in the same atomic action as the pop, not just after it; in fresh runs no other thread can reach that object in between.
- The code an errback receives is `-errno` at the moment of the catch; here it comes with the exception.
- Tasks are held by value with the hooks they have when submitted: `set_callback` and `set_errback` after submission are not modelled. What aliasing there is (one object submitted twice) shows in `exec_task_q_`, a map from object identities in `Process`; that the allocator may use a freed address again is not modelled.
- Shutdown is a step of the protocol, not a method: the libevent read event is one Boolean per worker.
- Counters are unbounded integers; the 64-bit counters of the source would need 2^63 enqueues to wrap.
- `set_executor`, with which `taskq_cb` tells a task its executor before running it: the protocol never reads it back.
- A read event that arrives only as a timeout returns at once and is not a step; the disabled timer path is not modelled.
- libevent, threads and file descriptors; the `asio` executors, which wire the same queue differently; the sample servers; logging and the unused rate counters.
- The loops that erase from a container while iterating over it when everything is destroyed: their C++ meaning is undefined.
- Registry: executors are identified by number. Their `Initialize`, inside the lock in one case and before it in the other, and the queues made for them are not modelled.
