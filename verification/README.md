# tokio-stream-util: the schedulers behind its streams

This project models the scheduling core of the crate and proves what it relies on.
The crate stacks three schedulers, and the modules follow them from the bottom up.

* **The ready-to-run queue** (`ReadyQueue`): an intrusive queue with many producers and
  one consumer, as a machine whose steps are the single atomic operations, and as a class
  with the source's own control flow in which the other threads interfere between any two
  shared accesses.
* **The set of futures** (`TaskSet`, `TaskSetProofs`, `TaskSetRuns`, `FuturesUnordered`,
  `AllList`, `ConcurrentLink`): wakers, pushes and the polling owner over that queue,
  with the `queued` and `woken` flags, `release_task`, `Drop`, and the linked list of all
  tasks, both as heap objects and under concurrent linking.
* **Flow control** (`PollState`, `FlattenMachine`, `Flatten`): the five-bit word of
  `FlattenUnordered`, the composition of that word with the set of inner streams, and
  `poll_next` with the items that pass through it.
* **Order** (`FuturesOrdered`, `OrderedRuns`, `TryBuffered`): submission order restored over
  any completion order.
* **Two buffering machines** (`AsyncRead`, `Chunking`) on scripted sources (`Source`).

`Types` and `Maps` hold what several modules share.

`dafny verify dfyconfig.toml` checks everything.

## How to read it

* Every atomic operation is one step of a sequentially consistent interleaving. The
  theorems over runs hold for every interleaving of any number of threads.
* A producer is named after the task it enqueues. That nobody else enqueues that task at
  the same time is `CanBegin`, which `TaskSetProofs.AssertionsHold` proves from the
  `queued` flag.
* The methods called `Interfere` stand for any number of steps of the other threads. All
  that a caller learns from them is a relation `Rely`; `OthersObeyRely` proves that each
  step of the machine by another thread obeys it, and `RelyComposes` that any number of
  steps does. In `Flatten.FlattenUnordered.PollNext` the need bits that the wakers set
  during the poll are inputs, any that `WakersObeyInterfere` allows.
* `AtomicWaker` is an atomic `register` and an atomic take. A notification is a take
  followed by a call, with anything in between.
* A source stream is a finite script of answers, and pending for ever after it.
  `Stream` may go on after its end, `FusedStream` does not.
* A future is a finite script of answers, and pending for ever after it; the set keeps a
  `log` of its polls and what they answered. `FuturesUnordered.FuturesUnordered` is the set
  that `FuturesOrdered` and `FlattenUnordered` are built on (`FuturesOrdered.InProgress`,
  `Flatten.Bucket`), so what they prove holds under the interference that the set allows.
* Each poll has a number, and a waker is that of the poll that registered it. "The caller"
  is always the latest one.

## Where the code differs from what one would expect

* An empty set of futures can answer `Pending` (src/futures_unordered/mod.rs:427-432), so
  "`Ready(None)` exactly when empty" fails for `FuturesUnordered` and `FuturesOrdered`.
  `TaskSetRuns.EmptySetCanBePending` and `OrderedRuns.EmptyQueueCanBePending` are runs that
  show it. `TaskSetProofs.EmptySetAnswers` says exactly when, and
  `TaskSetProofs.QuietEmptySetEnds` that it does not happen if no enqueue is in flight when
  the poll begins; `FuturesOrdered.FuturesOrdered.PollNext` and
  `TryBuffered.TryBuffered.PollNext` carry both up. The documentation promises
  `Ready(None)` for a new queue (src/futures_ordered.rs:151-153); there it holds.
* The thread that enqueued a task need not be the one that wakes the caller for it:
  another thread may hold the caller's waker (`TaskSetRuns.EnqueuerNeedNotOweTheWake`).
  The wake-up theorems therefore speak of some thread, and prove that there is one.
* `try_buffered(n)` is documented to buffer up to `n` futures
  (src/try_stream/ext/mod.rs:833), but the length is read once, before the fill loop.
  `TryBuffered.MaxIsNotKept` is an input that breaks the bound, `TryBuffered.MaxIsKeptIff`
  the exact condition under which one poll keeps it.
* `TryChunksError` is documented to contain the items collected before the error
  (src/try_stream/ext/try_chunks.rs:216-218). It never contains any: the items come out as
  a chunk of their own first (`Chunking.OutputShape`). The buffer of `TryChunks` is empty
  between polls, so that `TryChunks` and `TryReadyChunks` are one and the same function,
  `Chunking.Step`.

## Model

| member | source | states |
|---|---|---|
| `ReadyQueue.EveryRunIsFifo` | src/futures_unordered/ready_to_run_queue.rs:33-87 | In every state of every interleaving of any number of producers with the consumer: the nodes from tail to head have no duplicates (so the stub is there at most once), each adjacent pair is linked or has exactly one producer about to link it, and what was handed out followed by what is still in the chain is the order of the head swaps: FIFO, nothing lost, nothing twice. |
| `ReadyQueue.PendingStoresStayInChain` | src/futures_unordered/ready_to_run_queue.rs:42-43 | A link store still to come targets a node in the chain whose link is null, and no other store targets it: never a node that was handed out. |
| `ReadyQueue.EmptyMeaning` | src/futures_unordered/ready_to_run_queue.rs:53-59 | `Empty` is answered if and only if the chain is the stub alone, or the stub's successor has a producer between its swap and its store. |
| `ReadyQueue.InconsistentMeaning` | src/futures_unordered/ready_to_run_queue.rs:72-85 | `Inconsistent` is answered only if the tail has a successor whose link had not been stored when the consumer read it; at the second place that store is still missing. |
| `ReadyQueue.DataMeaning` | src/futures_unordered/ready_to_run_queue.rs:66-70 | A task handed out is the next one in swap order, is not the stub, and may be enqueued afresh. |
| `ReadyQueue.NoProducerNoInconsistent` | src/futures_unordered/ready_to_run_queue.rs:51-87 | While the consumer alone takes steps, with no link store outstanding, no step answers `Inconsistent`. |
| `ReadyQueue.QuietDequeue` | src/futures_unordered/ready_to_run_queue.rs:51-87 | With no producer active, `dequeue` hands out the first remaining task, or answers `Empty` if and only if there is none. |
| `ReadyQueue.DrainsCompletely` | src/futures_unordered/ready_to_run_queue.rs:94-113 | Repeated `dequeue` with no producer active gives every remaining task once, in order, then `Empty`. |
| `ReadyQueue.OthersObeyRely` | src/futures_unordered/ready_to_run_queue.rs:33-87 | What a step of any other thread leaves alone for a producer, and for the consumer. |
| `ReadyQueue.ReadyToRunQueue.Enqueue` | src/futures_unordered/ready_to_run_queue.rs:33-45 | In the source's own form under interference: the task is in the swap order after the call, at a place after everything that was there before. |
| `ReadyQueue.ReadyToRunQueue.TryDequeue` | src/futures_unordered/ready_to_run_queue.rs:51-87 | In the source's own form under interference: `Data` is the next task in swap order and the history grows by it alone, `Empty` and `Inconsistent` mean what they are said to mean, and without interference it is the machine's `Dequeue`. |
| `ReadyQueue.ReadyToRunQueue.DequeueLastNode` | src/futures_unordered/ready_to_run_queue.rs:72-86 | The re-insertion of the stub: from a null link on, it hands out the tail or answers `Inconsistent`, and never `Empty`. |
| `ReadyQueue.ReadyToRunQueue.Drop` | src/futures_unordered/ready_to_run_queue.rs:94-113 | Frees exactly the remaining tasks, in order; the abort is unreachable. |
| `TaskSetProofs.SingleOwnership` | src/futures_unordered/mod.rs:246-288 | In every state of every run exactly one of the list, the poll in progress, and (once released while queued) the ready queue holds the set's reference to a task, or it was given up exactly once; a task released to the ready queue is in it; no task is in it twice. |
| `TaskSetProofs.AssertionsHold` | src/futures_unordered/mod.rs:439-472 | `assert!(prev)` holds, a task with a future was linked, one without had been unlinked, a task released after its poll is unlinked, and a wake that wins the `queued` flag finds the task alive and nowhere in the queue. |
| `TaskSetProofs.WakesReachTheQueue` | src/futures_unordered/task.rs:56-81 | A live task that was pushed or whose waker fired, and whose flag has not been cleared since, is in the chain, or some thread is enqueueing it, or the owner has just dequeued it. |
| `TaskSetProofs.WakeReachesTheQueue` | src/futures_unordered/task.rs:56-81 | A wake that finds the set still there is not dropped: once the thread has done its swap, the task, while alive, is in the queue or on its way in until the owner takes it. |
| `TaskSetProofs.PushReachesTheQueue` | src/futures_unordered/mod.rs:172-176 | From its push until the owner takes it, a live task is in the ready queue or on its way in. |
| `TaskSetProofs.PendingWakesTheCaller` | src/futures_unordered/mod.rs:407-424 | After `Pending` and until the next poll, whatever is pushed meanwhile: a task that was in the set then, is alive, and was woken or is queued implies that the waker of that very poll has been called, or a thread has taken it and is about to, or it is registered and a thread is on its way to take it. |
| `TaskSetProofs.WaitedStays` | src/futures_unordered/mod.rs:151-177 | Pushes and wakes neither take a task from those the latest caller waits for nor register another waker. |
| `TaskSetProofs.EndedMeansEmpty` | src/futures_unordered/mod.rs:414-420 | When a poll answers that the set has ended, no task has a future left. |
| `TaskSetProofs.EmptySetAnswers` | src/futures_unordered/mod.rs:411-434 | A poll begun on an empty set answers `Pending` if and only if some `dequeue` in it was `Inconsistent`, and the end otherwise; each such `Inconsistent` had a link store outstanding when the consumer read. |
| `TaskSetProofs.QuietEmptySetEnds` | src/futures_unordered/mod.rs:411-421 | With no enqueue in flight when the poll begins, an empty set answers that it has ended, whatever the other threads do during the poll. |
| `TaskSetProofs.QuietStep` | src/futures_unordered/task.rs:76-80 | On an empty set with no enqueue in flight no step but a push begins one: every task has its flag set for good. |
| `TaskSetRuns.EmptySetCanBePending` | src/futures_unordered/mod.rs:427-432 | Some run pushes two futures, finishes both in that order, and then has a poll, begun with no future left, that answers `Pending` at a half-linked task. |
| `TaskSetRuns.EnqueuerNeedNotOweTheWake` | src/futures_unordered/task.rs:76-80 | Some reachable state after `Pending` has a live task in the queue whose own producer is done, the caller not yet notified, and the caller's waker in the hands of the producer of another task. |
| `TaskSetProofs.PollTerminates` | src/futures_unordered/mod.rs:398-555 | The owner's steps within one call are bounded by a measure of the state at its start, however wakers re-enqueue tasks. |
| `TaskSetProofs.OthersKeepMeasure` | src/futures_unordered/mod.rs:246-288 | No step of another thread raises that measure: a released task is never enqueued again. |
| `TaskSetProofs.OwnerLowersMeasure` | src/futures_unordered/mod.rs:410-552 | Every step of the owner lowers it. |
| `TaskSetProofs.PollBudget` | src/futures_unordered/mod.rs:399-403 | One call polls at most as many children as the set held when it began. |
| `TaskSetProofs.YieldBudget` | src/futures_unordered/mod.rs:534-549 | In one call at most two child polls end with the child woken meanwhile, and the call goes on only while fewer than two did. |
| `TaskSetProofs.WokenSinceReset` | src/futures_unordered/mod.rs:522-540 | A task is found woken after its poll if and only if some thread has marked it since the flag was reset. |
| `TaskSetProofs.TeardownFreesTheReleased` | src/futures_unordered/mod.rs:576-612 | With the set dropped and every waker done, draining the queue frees exactly the tasks whose reference it owns, those not dropped before; none has a future. |
| `FuturesUnordered.OthersObeyRely` | src/futures_unordered/task.rs:56-81 | What a step of any waker leaves alone while the owner polls or a thread pushes: the list, every ownership, which futures are alive, the termination measure, who waits for what, and that an empty set stays without enqueues. |
| `FuturesUnordered.FuturesUnordered.Push` | src/futures_unordered/mod.rs:151-177 | In the source's own form under interference: when the call returns the new task is in the list and in the ready queue, the other futures are untouched, and neither the caller's registration nor what it waits for is lost. |
| `FuturesUnordered.FuturesUnordered.PollNext` | src/futures_unordered/mod.rs:398-555 | In the source's own form under interference, terminating: at most `len` futures of the list are polled, each poll takes the next answer of its future's script, and all of them are pending but for the one whose output is answered in that very call; that task is off the list; `Pending` keeps the list, and is answered only if the queue was found empty, or with the caller notified at a half-linked task, after as many polls as the set held futures, or after two futures yielded; a live queued task then has a notification of this very poll behind it; `Ready(None)` only on an empty set; on an empty set, `Ready(None)` unless the queue is half-linked, and always if no enqueue was in flight at the start. |
| `FuturesUnordered.FuturesUnordered.PollTask` | src/futures_unordered/mod.rs:466-552 | Polling one live task once: it was linked and flagged; an output is given if and only if the next answer of its script is ready, and is that answer; otherwise the task is linked again with its script advanced by exactly that answer; the budget is not exceeded. |
| `FuturesUnordered.FuturesUnordered.FinishTask` | src/futures_unordered/mod.rs:531-553 | What is done with the answer: a ready one releases the task and ends the call with the output; a pending one links the task again, and ends the call, with the caller notified, if and only if the second future yielded or the budget is used up. |
| `FuturesUnordered.CallKeepsOutputs` | src/futures_unordered/mod.rs:531-553 | Polls that play the scripts in this way give the first output that the task's future comes to, and leave every other future what it comes to. |
| `FuturesUnordered.FuturesUnordered.ReleaseTask` | src/futures_unordered/mod.rs:246-288 | The reference goes to the ready queue if and only if the flag was set. |
| `FuturesUnordered.FuturesUnordered.Dequeue` | src/futures_unordered/mod.rs:411-434 | Each answer of the queue and what the owner does with it, under interference. |
| `AllList.TaskList.Link` | src/futures_unordered/mod.rs:291-325 | The task is the new head of a well-formed doubly linked list; an exact length at the head stays exact. |
| `AllList.TaskList.Unlink` | src/futures_unordered/mod.rs:331-363 | Exactly that task leaves, the others keep their order and links, and the length at the head does not underflow and stays exact if it was. |
| `AllList.TaskList.Len` | src/futures_unordered/mod.rs:133-136 | The length read at the head is the number of tasks. |
| `AllList.TaskList.DropAll` | src/futures_unordered/mod.rs:593-597 | Every task is unlinked once, front first, without underflow, even on a list whose cached lengths an `IntoIter` left too large. |
| `AllList.IntoIter.Next` | src/futures_unordered/iter.rs:43-68 | Takes the tasks from the front in order and leaves a well-formed list whose cached lengths still cover it. |
| `AllList.IterPinMut.Next` | src/futures_unordered/iter.rs:80-97 | Visits each task once, in list order; its count does not underflow. |
| `ConcurrentLink.LenIsTheLengthAtTheLoad` | src/futures_unordered/mod.rs:229-241 | A thread that loads the head and waits for that node to be published reads the number of tasks there were at the load, whatever is linked meanwhile. |
| `ConcurrentLink.IteratorVisitsTheListAtTheLoad` | src/futures_unordered/iter.rs:123-140 | A shared iterator follows exactly the tasks that were linked at its load, in order, whatever is linked meanwhile. |
| `ConcurrentLink.ListGrowsAtTheHead` | src/futures_unordered/mod.rs:299-299 | Concurrent linking only puts tasks in front. |
| `ConcurrentLink.SomeoneCanStep` | src/futures_unordered/task.rs:101-112 | No cyclic waiting on pending links: while some node is being linked, some linking thread can take its next step. |
| `ConcurrentLink.OldestCanStep` | src/futures_unordered/task.rs:101-112 | The oldest of them is never blocked. |
| `ConcurrentLink.RestIsWellFormed` | src/futures_unordered/mod.rs:291-325 | Once all linking threads are done the list is doubly linked in swap order, each cached length covers the rest, and the head's is exact. |
| `PollState.Exclusion` | src/flatten_unordered.rs:108-180 | In every state of every run at most one of POLLING, WAKING and WOKEN is set; WAKING exactly while one waker is in its critical section, POLLING exactly while the poller polls. |
| `PollState.CellAccessIsSafe` | src/flatten_unordered.rs:267-281 | No waker reads an inner-waker cell while the poller may write it, what it reads is the latest caller's waker, and the assertion in `stop_waking` holds. |
| `PollState.BitsAreConserved` | src/flatten_unordered.rs:128-180 | A need bit set by a waker stays set, even if set during a poll, until a `start_polling` takes the word. |
| `PollState.BitsReachThePoller` | src/flatten_unordered.rs:108-122 | That `start_polling` returns the bit. |
| `PollState.StartPollingSucceeds` | src/flatten_unordered.rs:108-122 | `start_polling` fails if and only if a waker is in its critical section, and then changes nothing. |
| `PollState.NeedHasAWakeUp` | src/flatten_unordered.rs:611-619 | Whenever POLLING is not set after a poll, absent a panic, a need bit without WOKEN or WAKING can only be NEED_TO_POLL_STREAM, and only if that poll ended with the bucket at its limit. |
| `PollState.WokenMeansCalled` | src/flatten_unordered.rs:617-636 | After `Pending`, WOKEN means that the caller's waker was called or a thread is about to. |
| `PollState.LeaveWakesIffWoken` | src/flatten_unordered.rs:166-180 | `stop_polling` sets WOKEN, and the poll calls its own waker before a `Pending`, if and only if the poll asks for the bucket again, or for the base stream below the limit, or a waker has set a need bit meanwhile. |
| `FlattenMachine.NoReadyInnerStreamForgotten` | src/flatten_unordered.rs:534-624 | Across both layers, in every state outside a poll: a live task in the bucket's ready queue implies NEED_TO_POLL_INNER_STREAMS, or that some thread holds the bucket's waker and has yet to set it, or that it is registered and a thread is on its way to take it. |
| `FlattenMachine.ReadyInnerStreamWakesTheCaller` | src/flatten_unordered.rs:611-636 | End to end: after `Pending` such a task implies that the caller was woken or that some thread is on its way to it. |
| `FlattenMachine.NeedHasAWakeUp` | src/flatten_unordered.rs:611-619 | The same of the whole stream: between polls a need bit without WOKEN or WAKING can only be NEED_TO_POLL_STREAM, with the bucket at its limit now. |
| `FlattenMachine.NeedWakesTheCaller` | src/flatten_unordered.rs:617-636 | After `Pending`, a need bit other than that one means that the caller's waker was called, or a thread is about to call it. |
| `FlattenMachine.LimitIsKept` | src/flatten_unordered.rs:486-491 | With limit n there are never more than n inner streams, counting the one in the poller's hands. |
| `Flatten.PollStreamFut` | src/flatten_unordered.rs:324-340 | One poll of an inner stream gives its next answer, and neither loses nor adds an item of it. |
| `Flatten.Bucket.PollNext` | src/flatten_unordered.rs:589-608 | The set of `PollStreamFut`s over the real set of futures, polled exactly once: an item is the next one of its stream, an ended stream had none left, and the other streams keep theirs; no future polled was ready but the one that is answered. |
| `Flatten.AsFutureIsFaithful` | src/flatten_unordered.rs:324-340 | The script of an inner stream's future answers what `PollStreamFut::poll` answers, poll by poll. |
| `Flatten.FlattenUnordered.PollNext` | src/flatten_unordered.rs:513-637 | Keeps conservation (`Conserved`) and the limit; yields at most one item and overwrites none; takes the base's answers in order and does not poll it after its end. Progress: what the word asked for is done, the base polled unless at its end or the bucket at its limit, the bucket polled once unless an item was returned at once; it goes on until the base or the bucket has just been pending, or the word still asks for it; NEED_TO_POLL_STREAM is left only by a returned item, by the limit or by a waker, NEED_TO_POLL_INNER_STREAMS only by a returned item, an ended inner stream or a waker. `Ready(None)` if and only if base and bucket are exhausted and no item came out, and then every inner stream and every item returned at once has come out whole, each origin in its own order; a `Pending` wakes the caller if and only if the word says WOKEN, which is if and only if a waker came during the poll, or a need bit is left that asks for the bucket, or for the base stream below the limit. |
| `Flatten.WakersObeyInterfere` | src/flatten_unordered.rs:128-156 | What the wakers do to the word during a poll: every step of the word's machine by another thread sets some need bits and changes nothing else. |
| `Flatten.FlattenUnordered.FillBucket` | src/flatten_unordered.rs:534-587 | The base is polled unless at its end or the bucket at its limit; the loop stops only when the base has just been pending, at its end, or with NEED_TO_POLL_STREAM recorded, and that only with an item to be returned at once or at the limit; such an item defers the poll of the bucket. |
| `Flatten.FlattenUnordered.PollBucket` | src/flatten_unordered.rs:589-608 | The bucket is polled exactly once; an item's stream goes back into it, an ended one leaves it, and both record NEED_TO_POLL_INNER_STREAMS, which nothing else does. |
| `Flatten.FlattenUnordered.TakeStep` | src/flatten_unordered.rs:554-574 | `Return` and `Continue`: the need to poll the inner streams moves to the next poll or stays in this one, and is never dropped; an item asks for another poll of the base, a stream goes into the bucket. |
| `Flatten.OutputIsAnInterleaving` | src/flatten_unordered.rs:513-637 | Every item that came out has one of the origins, and the lengths of what came out of each origin add up to the whole output. |
| `Flatten.BaseErrorsAreReturned` | src/try_stream/ext/try_flatten_unordered.rs:346-388 | With the controller of `TryFlattenUnordered` the items returned at once are exactly the base errors, converted, in order. |
| `Flatten.InnerStreamsArePut` | src/try_stream/ext/try_flatten_unordered.rs:346-388 | With that controller the streams put into the bucket are exactly the `Ok` streams among the base items, in order and unchanged. |
| `Flatten.TryFlattenDelivers` | src/try_stream/ext/try_flatten_unordered.rs:346-388 | At the end of `TryFlattenUnordered` every item of every inner stream has come out in its own order, and every base error, converted. |
| `FuturesOrdered.PushBackRefines` | src/futures_ordered.rs:252-259 | On the deque of outputs still to come, `push_back` appends. |
| `FuturesOrdered.PushFrontRefines` | src/futures_ordered.rs:268-275 | `push_front` prepends. |
| `FuturesOrdered.StoreRefines` | src/futures_ordered.rs:304-306 | An early result moves into the heap and the deque stays as it is. |
| `FuturesOrdered.TakeFromProgressRefines` | src/futures_ordered.rs:301-303 | The future with the outgoing index carries the front of the deque. |
| `FuturesOrdered.TopDecides` | src/futures_ordered.rs:114-119 | Under the reversed order the heap's top is the next output if and only if the heap holds it at all. |
| `FuturesOrdered.NothingLeft` | src/futures_ordered.rs:309-309 | With nothing in progress and the next output not in the heap, the deque and the heap are empty. |
| `FuturesOrdered.LenIsDequeLength` | src/futures_ordered.rs:214-216 | The indices in progress and in the heap are each integer from outgoing to incoming once, so that `len` is the deque's length. |
| `FuturesOrdered.InProgress.PollNext` | src/futures_unordered/mod.rs:398-555 | The set of futures in progress, over the real set of futures: hands out one output of those it holds, that of the one future that was ready, or has polled the set and found every future it polled pending; empty, it ends unless half-linked, and always if nothing is in flight or was ever pushed. |
| `FuturesOrdered.FuturesOrdered.PollNext` | src/futures_ordered.rs:287-312 | Yields the front of the deque whatever order the futures complete in, at once if it is in the heap; every future that was ready in the call is the answer or is kept in the heap; otherwise leaves the deque alone, and is `Pending` only if the next output is not in the heap and the set below was polled and was pending; `Ready(None)` only on an empty deque; on an empty deque, `Pending` if and only if the set below is half-linked, which it is not if no enqueue was in flight at the start, or nothing was ever pushed. |
| `OrderedRuns.EmptyQueueCanBePending` | src/futures_ordered.rs:298-310 | Some run pushes two futures, yields both, and then polls the set below with nothing left in the queue, which is half-linked and answers `Pending`. |
| `FuturesOrdered.FuturesOrdered.Len` | src/futures_ordered.rs:214-216 | The deque's length. |
| `FuturesOrdered.FuturesOrdered.IsEmpty` | src/futures_ordered.rs:219-221 | Whether the deque is empty. |
| `TryBuffered.TryBuffered.FillQueue` | src/try_stream/ext/try_buffered.rs:114-130 | Takes exactly the futures the source gives in a row, in order, and stops at its next other answer, which it gives back as it is; the rest of the source is left; the errors among all the answers taken are those reported before and the one it stops at. |
| `TryBuffered.TryBuffered.PollNext` | src/try_stream/ext/try_buffered.rs:109-144 | Results come in source order and none is lost: over all polls, the outputs of the futures taken from the source are those yielded followed by those outstanding, and the source errors taken are those reported, in order. A source error is answered in the poll that takes it and overtakes the results; with futures outstanding it is `Pending` only if the set below was polled and was pending; with nothing outstanding it answers `Ready(None)` if and only if the source has ended and the set below is not half-linked, and `Pending` before the end only if the source has just answered `Pending`. |
| `TryBuffered.MaxIsNotKept` | src/try_stream/ext/try_buffered.rs:111-120 | An input with bound 1 after which two futures are held. |
| `TryBuffered.MaxIsKeptIff` | src/try_stream/ext/try_buffered.rs:111-130 | One poll keeps the bound if and only if the queue is full, the source has ended, or it has no more futures in a row than there is room. |
| `AsyncRead.ByteStreamFidelity` | src/try_stream/ext/into_async_read.rs:45-182 | For any chunking, pending pattern, buffer sizes and mix of operations: the bytes delivered followed by those still to come are the bytes of the chunks before the first error or end. |
| `AsyncRead.DeliveredIsAPrefix` | src/try_stream/ext/into_async_read.rs:45-182 | From a fresh reader the bytes delivered are a prefix of them. |
| `AsyncRead.EmptyMeansEof` | src/try_stream/ext/into_async_read.rs:45-161 | An empty successful answer to a request with room is given if and only if the reader is at end of file and the call did not report an error. |
| `AsyncRead.EofIsPermanent` | src/try_stream/ext/into_async_read.rs:93-95 | After it no operation changes anything or polls the source. |
| `AsyncRead.SourceDecides` | src/try_stream/ext/into_async_read.rs:69-92 | A read or a view is pending, or answers an error, if and only if no chunk is at hand and the first answer of the source that is not an empty chunk is pending, or that error; it reaches the end of file if and only if that answer is the end or an error. |
| `AsyncRead.ErrorsAreReported` | src/try_stream/ext/into_async_read.rs:45-182 | Over any mix of operations the errors reported and the one still to come are the one the source gives before its end: none is swallowed, none is made up. |
| `AsyncRead.EofMeansAllDelivered` | src/try_stream/ext/into_async_read.rs:45-182 | At the end of file all bytes before the first error or end have come out, and that error has been reported. |
| `AsyncRead.FillBufShows` | src/try_stream/ext/into_async_read.rs:127-161 | A view delivers nothing and shows the head of what is still to come: all that is unread of the chunk at hand, and nothing only at the end of file. |
| `AsyncRead.ReadFits` | src/try_stream/ext/into_async_read.rs:54-68 | A successful read delivers as many of the bytes that a view would show as fit. |
| `AsyncRead.TakeDrops` | src/try_stream/ext/into_async_read.rs:163-182 | A `consume` of n drops exactly the next n bytes. |
| `AsyncRead.IntoAsyncRead.PollRead` | src/try_stream/ext/into_async_read.rs:45-98 | Delivers the next unread bytes that fit, passing over empty chunks; pending, errors and the end as the source gives them. |
| `AsyncRead.IntoAsyncRead.PollFillBuf` | src/try_stream/ext/into_async_read.rs:127-161 | Shows all unread bytes and keeps them; the unreachable branch is unreachable. |
| `AsyncRead.IntoAsyncRead.Consume` | src/try_stream/ext/into_async_read.rs:163-182 | Drops exactly that many unread bytes; a chunk with none left is dropped. |
| `Chunking.TryChunks.PollNext` | src/try_stream/ext/try_chunks.rs:115-171 | Is the reference step: the run of successful items up to the capacity, with a stashed error first; nothing stays buffered. |
| `Chunking.TryReadyChunks.PollNext` | src/try_stream/ext/try_ready_chunks.rs:77-137 | Is the same reference step. |
| `Chunking.FlatteningUndoesChunking` | src/try_stream/ext/try_chunks.rs:115-171 | For any script and number of polls, the chunks replaced by their items, errors in place, followed by a stashed error, are the values the source gave. |
| `Chunking.OutputShape` | src/try_stream/ext/try_chunks.rs:115-171 | Chunks have between 1 and `cap` items, errors carry none, and `Pending` and the end hold nothing back. |
| `Chunking.StepExactly` | src/try_stream/ext/try_chunks.rs:115-171 | `Pending`, the end and a bare error are answered if and only if the first answer of the source is that; a chunk is the longest run of items from there up to the capacity; the stash holds exactly the error that cut a run short; the source counts as ended if and only if the last answer taken is the end. |
| `Chunking.NothingIsStranded` | src/try_stream/ext/try_chunks.rs:185-189 | Once the source has ended everything it gave has come out. |
| `Source.FusedStream.PollNext` | src/try_stream/ext/into_stream/fused.rs:79-95 | Polls the source once before its end and not at all after it; after the first end it answers the end for ever. |

## Left out

- Weak memory orderings: each atomic operation is one step of a sequentially consistent interleaving.
- `Pin`, projections, raw wakers, `Send` and `Sync`, `Debug`, accessors, `size_hint`: no behaviour of the schedulers.
- Reference counts are ownership: who holds the set's reference to a task, and that the queue lives while the set or a waker inside `wake_by_ref` holds it.
- TaskSet: pushes do not overlap a poll (that needs exclusive access), and the list of all tasks is a set there; its links are in `AllList` and `ConcurrentLink`, which are not composed with it.
- TaskSet: the `is_terminated` flag, which stays set when an empty set is polled again and answers `Pending`, is not modelled apart from the answer that sets it.
- FuturesUnordered.FuturesUnordered.Push: the caller alone pushes, as `FuturesOrdered` and `FlattenUnordered` do; pushes that overlap one another are runs of `TaskSet`.
- FuturesOrdered.BinaryHeap: a set with a greatest element; the heap's array is not part of this model.
- FuturesOrdered.State: unbounded indices, so overflow of the `i64` indices is not modelled.
- Flatten.FlattenUnordered.PollNext: starts where a `start_polling` has succeeded; the retry loop around it is the step `EEnter` of `PollState`, which may fail any number of times.
- FlattenMachine: the effects of a panic; `PollState` has the reset of the word, nothing else of unwinding is modelled.
- AllList.IntoIter.Next: the reference counts of the tasks whose futures `IntoIter` moves out, which bypass `release_task`.
- AsyncRead.IntoAsyncRead.Consume: amounts out of range, which the source rejects in debug builds only, are excluded.
- `AsyncWrite` and `Sink` forwarding, `try_forward`: thin delegation.
- `TryBufferUnordered`: the fill loop of `TryBuffered` over a `FuturesUnordered`.
- `try_flatten`: it drops an inner stream at its first error although its documentation says that streams are exhausted, so what it should do is unclear.
- Per-item adapters (`map_ok`, `and_then`, `try_filter`, `try_unfold` and so on): they would add easy members only.
