# SimplePubSub in Dafny

A model of `SimplePubSub` and `SimplePubSubIterator` from graphql-core's
`pyutils` package. This is the in-process publish/subscribe pair used to mock an
event source in subscription tests.

- **The hub** keeps a set of registered subscribers. `emit` schedules one delivery of
  the event to each of them and reports whether there was anyone to deliver to.
- **An iterator** is one subscriber's stream. It keeps a `listening` flag and two FIFO
  queues: waiting futures handed out by `__anext__`, and values already pushed but not
  yet pulled.
- **`push_value`** transforms the event, then hands the result to the oldest waiter or
  buffers it.
- **`__anext__`** returns the oldest buffered value, or queues a fresh future.
- **`aclose`** (through `empty_queue`) stops listening, deregisters the stream, cancels
  every waiting future and drops the buffer.

There are two files:

- `stream_spec.dfy`, module `StreamSpec`. It holds one iterator's state as a value
  (`StreamState`) and the effect of each iterator operation as a function of that
  value. It also proves the properties of those functions:
  - the invariants every operation keeps;
  - the cases of each operation;
  - first-in first-out matching of pulls and deliveries over any interleaving;
  - what closing does to every future handed out.
- `simple_pub_sub.dfy`, module `PubSub`. It holds the hub and the iterator as classes
  whose methods change their fields in place. It has the same loops as the source: the
  loop of `emit` over the subscriber set, and the two draining loops of `empty_queue`.
  Each method's `ensures` ties the new state to the matching `StreamSpec` function of
  the old state.

Some pieces of the source are represented differently in the model:

- **Futures** are numbered. The iterator records the state of every future it handed
  out: `Pending`, `Resolved(v)` or `Cancelled`.
  - `__anext__` returns the future itself: `Item.Waiter(id)`.
  - A buffered value comes back as `Item.Value(v)`.
  - The end of iteration (`StopAsyncIteration`) is `Item.EndOfStream`.
- **A transform** is a function to `Try<V>`: it returns a value or raises.
- **A registered callback** is a bound `push_value` in the source. The model identifies
  it with its iterator.
- **`emit`** produces the delivery tasks it schedules (`Delivery`) and changes nothing.
- **The event loop** that later runs those tasks is `RunTasks`.

Where the code and its description disagree, the model follows the code:

- When the transform raises inside `push_value`, the exception escapes before either
  queue is touched. The waiting future stays pending and is not failed.
- `push_value` has no `listening` guard. A delivery whose task was scheduled before
  `aclose` but runs after it lands in the buffer of the closed iterator, and no later
  pull can retrieve it (`StreamSpec.LateDeliveryIsStranded`).

## Model

| member | source | states |
|---|---|---|
| StreamSpec.InitialInvariant | src/graphql/pyutils/simple_pub_sub.py:39-45 | A fresh iterator is listening, has both queues empty and no pending future, so it satisfies the invariant. |
| StreamSpec.Deliver | src/graphql/pyutils/simple_pub_sub.py:75-78 | Handing a value to the queues keeps the future book-keeping, "never both queues non-empty" and "a closed stream has no waiter". It leaves `listening` alone and raises buffered-minus-waiting by exactly one. |
| StreamSpec.DeliverCases | src/graphql/pyutils/simple_pub_sub.py:75-78 | With no waiter, the value goes to the back of the buffer and nothing else changes. Otherwise only the oldest waiter is resolved with the value and dequeued; the buffer and every other future are unchanged. |
| StreamSpec.PushStep | src/graphql/pyutils/simple_pub_sub.py:73-78 | `push_value` as a whole keeps the stream invariant and never changes `listening`. |
| StreamSpec.PushValueDelivers | src/graphql/pyutils/simple_pub_sub.py:74 | The value delivered is the raw event without a transform and `transform(event)` with one. When the transform raises, the state is unchanged. |
| StreamSpec.Pull | src/graphql/pyutils/simple_pub_sub.py:50-58 | `__anext__` keeps the invariant and `listening`. On a listening stream it lowers buffered-minus-waiting by one. A future it hands out is new and pending. |
| StreamSpec.PullCases | src/graphql/pyutils/simple_pub_sub.py:51-58 | A closed stream ends iteration and changes nothing. Otherwise the oldest buffered value is returned and removed, or, with an empty buffer, one new pending future is queued at the back. |
| StreamSpec.CancelAllEffect | src/graphql/pyutils/simple_pub_sub.py:67-69 | Cancelling the queued futures one by one cancels exactly the pending ones among them, keeps every other future, and adds or drops no future. |
| StreamSpec.Shutdown | src/graphql/pyutils/simple_pub_sub.py:64-71 | After `empty_queue` the stream satisfies the invariant and has no pending future. |
| StreamSpec.ShutdownCancelsEveryWaiter | src/graphql/pyutils/simple_pub_sub.py:64-71 | After `empty_queue` the stream is not listening and both queues are empty. Every queued future is cancelled, every other future keeps its state, and none is left pending. |
| StreamSpec.Close | src/graphql/pyutils/simple_pub_sub.py:60-62 | After `aclose` the stream is not listening and its future book-keeping is intact. |
| StreamSpec.CloseIsIdempotent | src/graphql/pyutils/simple_pub_sub.py:60-62 | `aclose` is one-way and idempotent, is a no-op on a stream that is not listening, and every later pull ends iteration without changing the stream. |
| StreamSpec.LateDeliveryIsStranded | src/graphql/pyutils/simple_pub_sub.py:73-78 | A delivery that runs after close is buffered in the closed stream, and neither a pull nor a second close touches it. |
| StreamSpec.Run | src/graphql/pyutils/simple_pub_sub.py:50-58 | Any interleaving of pulls and deliveries on a new stream keeps the invariant and keeps it listening. |
| StreamSpec.FifoMatching | src/graphql/pyutils/simple_pub_sub.py:54-57 | Over any interleaving of pulls and deliveries, the j-th pull receives the j-th delivered value, directly or through its future. Undelivered values stay buffered in order, and unserved pulls stay queued in order. No two pulls share a future. |
| StreamSpec.WaitersServedInOrder | src/graphql/pyutils/simple_pub_sub.py:75-78 | Two futures queued before two deliveries are resolved with those values in order, and both queues end empty. |
| StreamSpec.BufferedValuesInOrder | src/graphql/pyutils/simple_pub_sub.py:54-55 | Two values delivered before any pull are returned by the next two pulls in order. |
| StreamSpec.CloseAfterRun | src/graphql/pyutils/simple_pub_sub.py:60-71 | Closing after any run cancels exactly the pulls no delivery has reached, keeps the result of every served pull, and leaves no future pending. |
| PubSub.DistinctTargetsCount | src/graphql/pyutils/simple_pub_sub.py:26 | Distinct tasks have as many targets as there are tasks, so the tasks of one emit reach each subscriber exactly once. |
| PubSub.SimplePubSub.constructor | src/graphql/pyutils/simple_pub_sub.py:21-22 | A new hub has no subscribers. |
| PubSub.SimplePubSub.Emit | src/graphql/pyutils/simple_pub_sub.py:24-30 | `emit` returns true exactly when a subscriber is registered. It schedules exactly one task per registered subscriber, all carrying the event, and changes nothing. |
| PubSub.SimplePubSub.GetSubscriber | src/graphql/pyutils/simple_pub_sub.py:32-35 | A new iterator is created with the given transform, listening with both queues empty. It is added to the hub's subscribers, and no other subscriber is added or removed. |
| PubSub.SimplePubSubIterator.constructor | src/graphql/pyutils/simple_pub_sub.py:39-45 | The iterator starts in the initial state and registers itself, and nothing else, with its hub. |
| PubSub.SimplePubSubIterator.Next | src/graphql/pyutils/simple_pub_sub.py:50-58 | The new state and the returned item are those of `StreamSpec.Pull`, and the stream and hub invariants are kept. |
| PubSub.SimplePubSubIterator.PushValue | src/graphql/pyutils/simple_pub_sub.py:73-78 | It reports a raise exactly when the transform raises, and the new state is that of `StreamSpec.PushStep`. |
| PubSub.SimplePubSubIterator.EmptyQueue | src/graphql/pyutils/simple_pub_sub.py:64-71 | `listening` is cleared first. When the iterator is not registered, KeyError is raised and nothing else changes. Otherwise the iterator is deregistered, only itself, and the new state is `StreamSpec.Shutdown` of the old one. |
| PubSub.SimplePubSubIterator.CancelWaiters | src/graphql/pyutils/simple_pub_sub.py:67-69 | The first loop empties the waiter queue and cancels its futures front to back. |
| PubSub.SimplePubSubIterator.DropBuffered | src/graphql/pyutils/simple_pub_sub.py:70-71 | The second loop empties the buffer. |
| PubSub.SimplePubSubIterator.Close | src/graphql/pyutils/simple_pub_sub.py:60-62 | `aclose` never raises on a consistent hub. The new state is `StreamSpec.Close` of the old one, and the iterator is off the hub's set while every other subscriber stays. |
| PubSub.RunTasks | src/graphql/pyutils/simple_pub_sub.py:27-29 | Running the scheduled tasks applies `push_value` of its event once to each target. |
| PubSub.FanOut | src/graphql/pyutils/simple_pub_sub.py:24-35 | With two subscribers on a new hub, one emitted event, once its tasks have run, is the next item pulled from each. |

## Left out

- Scheduling is not modelled. `emit` calls each callback and passes the returned coroutine to `create_task`; the model produces the list of scheduled deliveries instead. `RunTasks` runs them one after another with nothing in between, where the event loop could run other code between tasks.
- The `isawaitable` check in `emit` is dropped, because every subscriber the source registers is a coroutine function. A plain callable registered by other code is not modelled.
- The `await sleep(0)` in `__anext__` is omitted. While it is pending, another task may close the iterator; `__anext__` would then queue a future, or take a value, on a closed iterator. The model makes the listening check and the rest of `__anext__` one atomic step.
- `__aiter__` and the AsyncIterator protocol plumbing are left out: they return the iterator itself and have no state logic.
- Consumers cancelling their own futures, and the `InvalidStateError` that `set_result` would then raise, are not modelled. Futures change state only through the iterator.
- Exceptions from unretrieved tasks are not modelled, because reporting them is the event loop's business.
- The exception payload of a transform that raises is not modelled: `Try.Raised` only records that it raised.
- Asyncio queues and futures are not objects in the model. Queues are `seq` fields; futures are numbered entries of a map.
- Values are untyped in the source (`Any`); the model is generic in their type `V`.
- `src/graphql/language/__init__.py` is not part of this model. It only re-exports names.
