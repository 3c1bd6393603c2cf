# FIFO queue over a singly linked list

This project models the queue of `queue.c` as sequential code. The queue is a singly linked list of nodes with `head` and `tail` pointers. Each node carries an opaque item. The queue keeps three counters:

- `size`: the current length;
- `visited_count`: the number of removals ever made;
- `current_turn`: bumped on every removal and never read.

The process-wide singleton becomes one instance of the class `FifoQueue.Queue`. Its operations are methods that update the fields and relink `Node.next` in place.

Ghost state makes the list's meaning explicit:

- `contents`: the items from head to tail;
- `spine`: the nodes the queue owns, in list order;
- `enqueued` and `dequeued`: the history of items inserted and removed.

`Valid()` ties these to the concrete list:

- the nodes are distinct;
- each node links to the next, and the last one to null;
- head and tail are the ends of the spine, and both are null exactly when it is empty;
- `size` is the length of the list;
- `visited_count` and `current_turn` both count the removals;
- every item ever enqueued has either been removed (in order) or is still pending (in order).

The module `QueueScript` gives a pure reference semantics of sequential use (`Step`, `Run`). It proves FIFO order and the counter laws about that semantics. It proves that running an action script on the linked-list queue (`Replay`) produces exactly the observations of the reference semantics. It then proves that the single-threaded test of `queue_test.c:33-69` passes:

- every dequeue returns the expected address;
- `visited()` then equals its index;
- the first `tryDequeue` afterwards yields the 19th address;
- the second `tryDequeue` fails.

The files:

- `wrappers.dfy`: `Option`.
- `queue.dfy`: `Node`, `Queue`, the chain predicate and the walk of `destroyQueue`.
- `script.dfy`: the reference semantics, the replay and the test script.

## Model

| member | source | states |
|---|---|---|
| FifoQueue.Node.constructor | queue.c:57-63 | a new node holds the item and has no successor |
| FifoQueue.Queue.Shape | queue.c:15-23 | in every valid state: head is null iff tail is null iff size is 0; tail.next is null; the head carries the first pending item; size + visited_count equals the number of items ever enqueued |
| FifoQueue.Queue.constructor | queue.c:29-37 | initQueue gives head = tail = null, size = visited_count = current_turn = 0, no pending items, and a valid queue |
| FifoQueue.Queue.Enqueue | queue.c:56-77 | contents become old contents + [item]; size grows by 1; the new tail is a fresh node holding item with next null; a non-empty queue's old tail now links to it; an empty queue's head becomes that node, otherwise head is unchanged; removal counters unchanged; validity preserved |
| FifoQueue.Queue.Unlink | queue.c:87-97 | on a non-empty queue: returns the old head item; contents become old contents[1..]; head moves to the old head's successor and tail becomes null exactly when the list empties; the node leaves the spine; size drops by 1; visited_count and current_turn each grow by 1; validity preserved |
| FifoQueue.Queue.Dequeue | queue.c:80-101 | the same as Unlink, for a caller that finds the queue non-empty |
| FifoQueue.Queue.TryDequeue | queue.c:104-126 | None exactly when the queue was empty, and then no field of the queue changes; otherwise Some of the old head item, with the same new state as Dequeue |
| FifoQueue.Queue.Visited | queue.c:129-131 | returns the number of items removed so far, equal to the number enqueued minus those still pending |
| FifoQueue.Queue.Size | queue.c:134-136 | returns the number of pending items, equal to the number enqueued minus the number removed |
| FifoQueue.FreeChain | queue.c:42-47 | walking a null-terminated chain from its first node, following next until null, visits and releases exactly the chain's nodes, each once, in list order (and terminates) |
| FifoQueue.Queue.Destroy | queue.c:40-53 | the released nodes are exactly the old spine; head and tail become null with nothing pending; size, visited_count and current_turn keep their old values, so the full invariant holds afterwards exactly when the queue was already empty |
| QueueScript.RunIsFifo | queue.c:67-93 | for any sequential script: the removed items followed by those still pending equal the initially pending items followed by everything put, so items leave in put order and each at most once |
| QueueScript.RunCounts | queue.c:95-97 | for any sequential script: the k-th removal reports visited() = initial + k + 1, the number of removals equals the growth of visited, and pending + visited grows by exactly one per put |
| QueueScript.Perform | queue_test.c:47-59 | one call on the linked-list queue (enqueue, dequeue then visited, or tryDequeue then visited) moves its abstract state and reports exactly as one step of the reference semantics |
| QueueScript.Replay | queue_test.c:37-67 | running a script on a freshly initialised queue (and destroying it at the end) yields exactly the observations of the reference semantics |
| QueueScript.PassesEveryDequeue | queue_test.c:52-58 | the in-loop checks pass iff every dequeue at position i with action -k returned the k-th address with visited() = k |
| QueueScript.RunAppend | queue_test.c:46-60 | running two scripts one after the other is running their concatenation |
| QueueScript.TestLoop | queue_test.c:38-60 | the 37 scripted actions never block, pass every in-loop check and leave only the 19th address pending with 18 removals made |
| QueueScript.ScriptPasses | queue_test.c:61-65 | after a passing loop that leaves only the 19th address pending, the first tryDequeue returns that address and the second fails |
| QueueScript.SingleThreadedTest | queue_test.c:33-69 | the whole single-threaded script never blocks and passes all its checks in the reference semantics |
| QueueScript.RunSingleThreadedTest | queue_test.c:33-69 | the single-threaded script run on the linked-list queue passes all its checks |

## Left out

- Mutex and condition variable (`mtx_*`, `cnd_*`): the model is sequential, one caller at a time. Concurrency is not modelled.
- Atomicity of `visited_count` and `size`: they are plain fields.
- `malloc` failure, `perror` and `exit` in enqueue: allocation is Dafny's `new`, which does not fail.
- `free`: a freed node is dropped from the ghost `spine`. `FreeChain` returns the nodes it releases, in order.
- Counters are unbounded `nat`: the wrap-around of `size_t` after 2^64 operations is not modelled.
- FifoQueue.Queue.Dequeue: the blocking wait on the condition variable is replaced by the requirement that the queue be non-empty. A single thread can only get past the wait in that case.
- FifoQueue.Queue.TryDequeue: the `bool` result and the `*item` out-parameter are combined into an `Option`. On failure the caller's slot is untouched, so nothing is returned.
- FifoQueue.Queue.Destroy: as in queue.c, `size`, `visited_count` and `current_turn` are not reset. The method does not promise a valid queue afterwards unless the queue was already empty.
- Fairness among blocked readers: the order test (queue_test.c:13-14, 255-281) expects blocked readers to be served in the order they started waiting. Nothing in queue.c does this, and `current_turn` is only incremented (queue.c:97, 122). The model tracks `current_turn` as a counter.
- The multi-threaded tests of `queue_test.c` (reader starvation, write-first, order) depend on thread scheduling and are not modelled. The `printf` output of the single-threaded test is not modelled either.
- The check that `visited()` is 0 right after `initQueue` (queue_test.c:42-45) is stated by `FifoQueue.Queue.constructor` rather than observed by `Replay`.
- QueueScript.Replay: the calls to `dequeue` and `tryDequeue` at queue_test.c:54, 63 and 65 sit inside `assert(...)`. The replay takes those asserts as executed, that is, a build without `NDEBUG`. With `NDEBUG` defined no removal happens, and the test stops at queue_test.c:55 with `visited()` still 0.
