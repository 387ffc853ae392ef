# Verified models of the concurrency, chat, buffer and coroutine components

Dafny models of the stateful protocols in this C++ learning repository, with proofs of what they
guarantee. `dafny verify dfyconfig.toml` checks everything.

Two shapes recur. A protocol between threads is a machine: `Exec` does one atomic operation (or,
where a mutex is held throughout, one critical section), `Run` folds it over an arbitrary schedule,
and theorems hold of every run, for any number of threads. Beside each machine stands a class with the source's fields,
whose methods change them in place and are proved to do exactly what the machine does; its `Drive`
takes the object through any schedule. Sequential code is a class with methods and loops, proved
against functions whose own properties are lemmas.

| module | file | what is modelled |
|---|---|---|
| `LockFreeStack` | multithread/lock_free_stack.h | compare-exchange push and pop with counter-gated deletion |
| `InterruptibleWait` | multithread/interruptible_thread.h | `set` against `wait` and the timed waits |
| `CspChannel` | multithread/csp_customer_productor.h | bounded channel with two condition variables |
| `TwoLockQueue` | multithread/thread_safe_queue.h | queue with a lock for each end |
| `ChatMessages`, `ChatReader` | asio_test/chat/chat_message.hpp, chat_server.cpp, chat_client.cpp | wire format, framing reader |
| `ChatRoom`, `ChatServer` | asio_test/chat/chat_server.cpp, chat_client.cpp | room, broadcast, replay, write pump |
| `SocketStreambuf` | include/asio/basic_socket_streambuf.hpp | put and get areas over a socket |
| `Generators` | coroutine/tsequencegenerator/sequencegenerator.h | resumable generators, `map`, `flat_map` |
| `AlignedStorage`, `HandlerOwnership` | include/asio/any_completion_handler.hpp | aligned allocation; ownership of a type-erased handler |
| `TaskPromise`, `TaskCallbacks` | coroutine/task/task.h | completion against callback registration and `getResult`; callbacks that throw |
| `RangeSplitting` | multithread/dichotomy_traversal.h, parallel_traversal.h, paraller_find.h | splitting a range among tasks |
| `Counting` | (none) | how many threads are in a given position |

## What the proofs found

The models follow the code. Where the code does not do what its name or comments promise, the exact
condition is proved.

- Lock-free stack: `push` drops its argument, so every pop returns `T{}`
  (`PopsReturnDefault`, `PopReturnsPushedIffDefault`). `append_to_delay_node_list` reads through a
  null list; the model records each such read and carries on with the node retained
  (`NullReadsExact`: one for each popper that finds the counter different from one).
- Two-lock queue: first-in first-out shifted by one, as the file's comment at lines 91-93 admits
  (`ShiftedFifo`, `FifoIff`). `push` notifies without the head lock, and a wakeup is lost exactly
  when a waiter falls asleep on a snapshot that the tail has outrun (`LostIff`,
  `NoStaleSleepNoLoss`, `PushBeforeSleepIsMissed`).
- Channel: `receive` waits for a message only, so its `return false` is unreachable, and after
  `close` a receiver can return if and only if a message is left (`ReceiveNeverReturnsFalse`,
  `ReceiverGetsOutIff`, `DrainedForEver`).
- Interruptible wait: the untimed wait loses no interrupt (`NoInterruptLost`); the timed ones miss
  the notification exactly when they fall asleep after it (`TimedLostIff`) and are rescued by their
  timeout.
- Stream buffer: a flush leaves the put area whole when the socket takes only a part of it, so those
  bytes go out twice, and this is the only way to lose conservation (`ConservedIff`,
  `FailedFlushRepeats`).
- Task promise: the wait in `getResult` is not in a loop and fails on a spurious wakeup (`EmptyReadIff`).
  A callback that throws makes the coroutine complete a second time, with that exception and from
  the beginning of the list; every callback is called exactly once if and only if none lets an
  exception out, the last one excepted when the coroutine itself failed
  (`TaskCallbacks.ExactlyOnceIff`, `ThrowingFinallyRunsTwice`).
- Aligned allocation: for sizes that overflow only in the last addition the offset is written
  behind the block (`AllocationOutcome`, `OverrunOccurs`).
- Chunked traversal and search divide by zero when the hardware reports no threads
  (`ParallelTraversal`, `ParallelFind`).

## Assumptions

- Atomic operations are sequentially consistent.
- A socket and the clock are a finite script of outcomes; an exhausted script means expired.
- All handlers of a chat process run one at a time.
- The frame of a finished generator stays observably done, although `final_suspend` does not suspend.
- The notification of `notify_one` goes to any one sleeper, chosen by the schedule; threads woken
  compete with threads that arrive, and may wake spuriously.

## Model

| member | source | states |
|---|---|---|
| LockFreeStack.RunKeepsInv | multithread/lock_free_stack.h:20-76 | the full invariant holds in every reachable state, for any threads and with addresses reused by `new` |
| LockFreeStack.NoUseAfterDelete | multithread/lock_free_stack.h:20-69 | in every run no step reads, writes or deletes a node that is not allocated, and the node each thread touches next is allocated |
| LockFreeStack.DeletedNodeIsUnreachable | multithread/lock_free_stack.h:44-50 | a node about to be deleted is off the list, held by no other thread, and no other thread's next step can obtain it |
| LockFreeStack.UnpublishedIsPrivate | multithread/lock_free_stack.h:20-25 | a node whose push has not succeeded is allocated, off the list, and unknown to every other thread |
| LockFreeStack.Linearizable | multithread/lock_free_stack.h:20-41 | the effects of all operations are a legal LIFO history and the list in memory is that stack, without repetition; every completed call of every thread has exactly one effect of its own between its beginning and its return, and the answer, node included, that the sequential stack gives there; pushed nodes are popped ones plus those left; the counter is the number of threads inside its window |
| LockFreeStack.LegalConserves | multithread/lock_free_stack.h:20-41 | in any legal history each push of a node is matched by at most one pop of it, and the rest is the stack |
| LockFreeStack.EachCallOnce | multithread/lock_free_stack.h:20-61 | in every run the history of a thread is at the point where its locals are: outside a call, inside one without effect, or past its one effect |
| LockFreeStack.CallsAreTriples | multithread/lock_free_stack.h:20-61 | such a history consists of triples of a call, its fitting effect and its right answer, and then of the call under way |
| LockFreeStack.FailureMeansProgress | multithread/lock_free_stack.h:20-36 | lock-freedom: in every run, when a compare-exchange of a push or a pop cannot succeed any more, another thread's push or pop has taken effect since the head was read |
| LockFreeStack.LeftAloneFinishes | multithread/lock_free_stack.h:20-61 | in every reachable state, however stale what it has read, a thread left alone is out of `push` within four of its own operations and out of `pop` within eleven, spurious failures apart |
| LockFreeStack.ExchangeOrReload | multithread/lock_free_stack.h:22-24 | a compare-exchange of push takes effect, or makes the current head the next expected value |
| LockFreeStack.FastPathFreesAll | multithread/lock_free_stack.h:44-69 | the only popper frees its node and every node of the delay list, whatever is on it, and no other |
| LockFreeStack.PurgeFreesAll | multithread/lock_free_stack.h:63-69 | delete_delay_nodes frees exactly the list that it is given |
| LockFreeStack.AppendDropsFirst | multithread/lock_free_stack.h:71-76 | append_to_delay_node_list drops the first node of the delay list and adds none; of an empty list it reads through null |
| LockFreeStack.PopsReturnDefault | multithread/lock_free_stack.h:20-41 | every value any pop of any run returns is `T{}` |
| LockFreeStack.PopReturnsPushedIffDefault | multithread/lock_free_stack.h:20-41 | from any reachable state without poppers, push then pop returns the pushed value if and only if it is `T{}`, and leaves memory and list as they were |
| LockFreeStack.NullReadsExact | multithread/lock_free_stack.h:44-76 | reads through the null delay list, made or about to be made, are exactly the failed tests of the counter at lines 45 and 50 |
| LockFreeStack.SerialPopsAreClean | multithread/lock_free_stack.h:44-76 | while the counter never exceeds one, the null list is never read |
| LockFreeStack.OverlappingPopsReadNull | multithread/lock_free_stack.h:44-76 | in every reachable state with a node on the list, two overlapping pops read the null list |
| LockFreeStack.Stack.constructor | multithread/lock_free_stack.h:15-16 | a new stack is the machine's initial state |
| LockFreeStack.Stack.Begin | multithread/lock_free_stack.h:20-29 | allocating the node of a push, or counting a popper in, is the machine's step |
| LockFreeStack.Stack.Push | multithread/lock_free_stack.h:20-25 | each atomic operation of `push` has exactly the machine's effect on fields, memory and locals |
| LockFreeStack.Stack.Pop | multithread/lock_free_stack.h:27-41 | each atomic operation of `pop` has exactly the machine's effect |
| LockFreeStack.Stack.TryRecycle | multithread/lock_free_stack.h:44-61 | each atomic operation of `try_recycle` has exactly the machine's effect |
| LockFreeStack.Stack.DeleteNode | multithread/lock_free_stack.h:47-47 | frees an allocated node and records a fault for any other |
| LockFreeStack.Stack.AppendToDelayNodeList | multithread/lock_free_stack.h:71-76 | reads through the head of the delay list whatever it is, and replaces it by its successor |
| LockFreeStack.Stack.Drive | multithread/lock_free_stack.h:20-76 | under any schedule the object goes through the machine's run, so every theorem above is about the object |
| InterruptibleWait.RunKeepsInv | multithread/interruptible_thread.h:32-89 | registration, both mutexes, the sleeping queue and the pending setters agree in every reachable state |
| InterruptibleWait.NoInterruptLost | multithread/interruptible_thread.h:32-89 | whenever the flag is set and the untimed wait sleeps un-notified, some `set` is between its store and its notification |
| InterruptibleWait.NotifiesOnlyActiveWaits | multithread/interruptible_thread.h:32-55 | a condition variable is registered only while its wait is under way, and never two at once |
| InterruptibleWait.ExitsClean | multithread/interruptible_thread.h:57-89 | after every normal or throwing exit the caller's lock is held, `cv_mtx_` is not, and nothing is registered or asleep |
| InterruptibleWait.FlagIsSticky | multithread/interruptible_thread.h:32-45 | once set, the flag is set in every later state |
| InterruptibleWait.InterruptWins | multithread/interruptible_thread.h:57-162 | under any interleaving of setters, peers, timeouts and spurious wakeups, a wait interrupted before its last test of the flag ends only by throwing |
| InterruptibleWait.InterruptCanAlwaysLand | multithread/interruptible_thread.h:32-162 | no deadlock: from every reachable state with such a wait, whoever holds the locks and however many calls of `set` are half done, some schedule ends the wait by throwing, for the untimed wait without a spurious wakeup |
| InterruptibleWait.ThrowsOnlyIfInterrupted | multithread/interruptible_thread.h:32-162 | in every run the flag is set exactly when a call of `set` has stored, and a wait throws, or is about to, only then |
| InterruptibleWait.NotificationIsDelivered | multithread/interruptible_thread.h:57-162 | uninterrupted and notified, with the locks in no other hands, a sleeping thread returns normally within seven of its own steps |
| InterruptibleWait.PeerNotifies | multithread/interruptible_thread.h:57-162 | a notify_all by any other thread is such a notification |
| InterruptibleWait.ReturnsOnlyWithReason | multithread/interruptible_thread.h:57-162 | between the call of a wait and its normal return the thread has slept, or its predicate has been found true |
| InterruptibleWait.SleepsUntilWoken | multithread/interruptible_thread.h:57-162 | a thread that goes to sleep stays asleep through any run without a notification, timeout or spurious wakeup |
| InterruptibleWait.LocksBothOrNeither | multithread/interruptible_thread.h:80-82 | with both locks free either order of taking them gets both; a thread that has one and finds the other busy is left with neither |
| InterruptibleWait.UntimedWaitGetsToSleep | multithread/interruptible_thread.h:57-89 | an uninterrupted, undisturbed call of the untimed wait ends up asleep, registered, with both locks free |
| InterruptibleWait.MutexOwnerCanMove | multithread/interruptible_thread.h:75-82 | the owner of `cv_mtx_`, waiter or setter, always has an enabled step that changes its position |
| InterruptibleWait.InterruptIsDelivered | multithread/interruptible_thread.h:57-89 | a bound for a thread left alone: with the flag set, no setter pending and the locks in no other hands, it reaches the throwing exit within nine of its own steps |
| InterruptibleWait.StepsToExit | multithread/interruptible_thread.h:57-89 | a bound on those steps by the waiter's distance from the exit |
| InterruptibleWait.ApproachesExit | multithread/interruptible_thread.h:57-89 | each such step strictly shortens that distance and keeps the conditions, or is the throwing exit |
| InterruptibleWait.TimedWaitMissesNotification | multithread/interruptible_thread.h:144-162 | from every reachable state just before a timed sleep, a whole `set` then the sleep leave the thread asleep, un-notified, with the flag set and no setter pending |
| InterruptibleWait.TimedLostIff | multithread/interruptible_thread.h:32-162 | exactly when a timed wait is left to its timeout: a reachable step loses the notification if and only if it is the one that falls asleep, with the flag set and no setter before its notification |
| InterruptibleWait.TimedWaitGetsThere | multithread/interruptible_thread.h:144-162 | such a state is reachable: the first timed wait gets there undisturbed |
| InterruptibleWait.InterruptFlag.constructor | multithread/interruptible_thread.h:29-30 | a new flag object is the machine's initial state |
| InterruptibleWait.InterruptFlag.Set | multithread/interruptible_thread.h:32-41 | each operation of `set` has exactly the machine's effect on flag, mutex, sleeper and setter |
| InterruptibleWait.InterruptFlag.Wait | multithread/interruptible_thread.h:57-89 | each operation of `wait` has exactly the machine's effect |
| InterruptibleWait.InterruptFlag.LockBoth | multithread/interruptible_thread.h:80-82 | `std::lock` takes one lock, tries the other and backs off when it is busy |
| InterruptibleWait.InterruptFlag.TimedWait | multithread/interruptible_thread.h:144-162 | each operation of both timed overloads has exactly the machine's effect |
| InterruptibleWait.InterruptFlag.Drive | multithread/interruptible_thread.h:32-162 | under any schedule the objects go through the machine's run |
| CspChannel.RunKeepsInv | multithread/csp_customer_productor.h:25-65 | conservation and the counts that rule out a lost wakeup hold in every reachable state, spurious wakeups and barging included |
| CspChannel.FifoAndBounded | multithread/csp_customer_productor.h:25-52 | received values then the queue are the accepted sends in order, and the queue never exceeds the capacity; what is accepted is what was passed in by SendsAreWhatWasAsked |
| CspChannel.SendsAreWhatWasAsked | multithread/csp_customer_productor.h:25-37 | for any threads and schedule: each thread's calls of `send` return in order with the values passed to them, apart from the one under way, and what the channel has accepted is the values of the calls that returned true |
| CspChannel.TurnsAreTaken | multithread/csp_customer_productor.h:25-65 | in every reachable state, a caller that gets the mutex returns at once, and with what result, exactly when there is room, a message or a closed channel, and sleeps otherwise; close leaves nobody asleep |
| CspChannel.NoReceiverWakeupLost | multithread/csp_customer_productor.h:25-52 | while a receiver sleeps, queued messages do not outnumber notified receivers; a message implies one on its way |
| CspChannel.NoSenderWakeupLost | multithread/csp_customer_productor.h:25-52 | while a sender sleeps the channel is open and free slots do not outnumber notified senders; a free slot implies one on its way |
| CspChannel.NeverBothStuck | multithread/csp_customer_productor.h:25-52 | with capacity, a sender and a receiver both asleep imply a notified thread |
| CspChannel.ClosedAcceptsNothing | multithread/csp_customer_productor.h:25-37 | from any closed state no schedule accepts a send or reopens the channel |
| CspChannel.DrainedForEver | multithread/csp_customer_productor.h:39-57 | once `received_all_message` holds it holds for ever, everything accepted has been received, and a thread inside `receive` stays inside |
| CspChannel.ReceiverGetsOutIff | multithread/csp_customer_productor.h:39-52 | on a closed channel, in every reachable state, some schedule takes a thread out of `receive` if and only if a message is left; the thread is then awake and leaves with that message the next time it gets the mutex |
| CspChannel.ReceiverTrapIsReached | multithread/csp_customer_productor.h:39-65 | the trap occurs: a receiver that slept in `receive` is woken by close, inside it, on a channel without a message |
| CspChannel.ReceiveNeverReturnsFalse | multithread/csp_customer_productor.h:41-45 | the `return false` of `receive` is reached in no run |
| CspChannel.SendRefusedIffClosed | multithread/csp_customer_productor.h:25-37 | no run refuses a send before close; after it no sender sleeps, and each still inside is refused as soon as it gets the mutex |
| CspChannel.Channel.constructor | multithread/csp_customer_productor.h:18-19 | a new channel is the machine's initial state |
| CspChannel.Channel.Send | multithread/csp_customer_productor.h:25-37 | the critical section of `send` has exactly the machine's effect, notification included |
| CspChannel.Channel.Receive | multithread/csp_customer_productor.h:39-52 | the critical section of `receive` has exactly the machine's effect; what it hands out and the new queue are the old queue |
| CspChannel.Channel.CloseChannel | multithread/csp_customer_productor.h:59-65 | closes and wakes every sleeper |
| CspChannel.Channel.Drive | multithread/csp_customer_productor.h:25-65 | under any schedule the object goes through the machine's run |
| TwoLockQueue.RunKeepsInv | multithread/thread_safe_queue.h:22-75 | head, tail snapshot and tail are ordered along the chain and both locks have the owners they should, in every reachable state, half-done pushes included |
| TwoLockQueue.ShiftedFifo | multithread/thread_safe_queue.h:22-69 | pop k returns the value of push k - 1, the first the constructor's unwritten node; pops never pass completed pushes; no unwritten link is followed |
| TwoLockQueue.FifoIff | multithread/thread_safe_queue.h:22-69 | a pop returns what a FIFO queue would exactly when it is not the first and two neighbouring values are equal |
| TwoLockQueue.Contents | multithread/thread_safe_queue.h:22-69 | the chain from head to tail holds the next values to come out, in order |
| TwoLockQueue.DataRaceFree | multithread/thread_safe_queue.h:27-75 | no two threads are ever about to access one location with one of them writing, across the two locks |
| TwoLockQueue.TailOwnerCanMove | multithread/thread_safe_queue.h:27-75 | the owner of the tail lock always has an enabled step |
| TwoLockQueue.HeadOwnerCanMove | multithread/thread_safe_queue.h:36-69 | the owner of the head lock has an enabled step whenever the tail lock is free |
| TwoLockQueue.HeadStandsStill | multithread/thread_safe_queue.h:42-75 | while a thread holds the head lock no other step moves the head or takes an element, and the tail never goes back |
| TwoLockQueue.EmptyAnswerWasRight | multithread/thread_safe_queue.h:36-60 | a pop about to report an empty queue has seen head and tail equal, and `empty` is about to answer yes exactly if it has, at an earlier state of the run since which it has had the head lock |
| TwoLockQueue.CallsAreKept | multithread/thread_safe_queue.h:27-69 | for any threads and schedule: each thread's values enter the queue in the order in which it passed them to `push`, and its pops return, in the order of its calls, exactly what it has taken from the queue |
| TwoLockQueue.WaitAndPopFinds | multithread/thread_safe_queue.h:62-69 | wait_and_pop never returns without an element |
| TwoLockQueue.EveryEmptyIsAnswered | multithread/thread_safe_queue.h:36-40 | each call of `empty` is answered once |
| TwoLockQueue.LeftAloneFinishes | multithread/thread_safe_queue.h:27-75 | from every reachable state a thread not kept from a lock is through with its call, or asleep in wait_and_pop, within eight operations |
| TwoLockQueue.LostIff | multithread/thread_safe_queue.h:27-75 | exactly when a wakeup is lost: a step from a reachable state without loss leaves a sleeper over more elements than wakeups on their way if and only if it falls asleep on a snapshot that the tail has passed by more than those wakeups |
| TwoLockQueue.NoStaleSleepNoLoss | multithread/thread_safe_queue.h:27-75 | in any run in which nobody falls asleep on a stale snapshot, elements under a sleeper never outnumber woken waiters still looking plus pushers about to notify |
| TwoLockQueue.PushBeforeSleepIsMissed | multithread/thread_safe_queue.h:27-69 | from every reachable state in which a waiter has found the queue empty and nobody sleeps, a whole push then the sleep leave it asleep over an element |
| TwoLockQueue.WaiterGetsThere | multithread/thread_safe_queue.h:62-75 | such a state occurs: a waiter that comes to a new queue |
| TwoLockQueue.Queue.constructor | multithread/thread_safe_queue.h:22-23 | a new queue is the machine's initial state, one node serving as both ends |
| TwoLockQueue.Queue.Push | multithread/thread_safe_queue.h:27-34 | each operation of `push` has exactly the machine's effect |
| TwoLockQueue.Queue.GetTail | multithread/thread_safe_queue.h:72-75 | each operation of `get_tail` has exactly the machine's effect |
| TwoLockQueue.Queue.TakeNext | multithread/thread_safe_queue.h:42-69 | each operation of the three pops has exactly the machine's effect, and what it hands out is what is recorded |
| TwoLockQueue.Queue.TestEmpty | multithread/thread_safe_queue.h:36-40 | each operation of `empty` has exactly the machine's effect |
| TwoLockQueue.Queue.Drive | multithread/thread_safe_queue.h:22-75 | under any schedule a new queue goes through the machine's run |
| ChatMessages.HeaderRoundTrip | asio_test/chat/chat_message.hpp:43-58 | every length of at most four digits is read back from its `%4d` header |
| ChatMessages.HeaderValueBound | asio_test/chat/chat_message.hpp:43-52 | four header bytes of any content spell a number strictly between -10000 and 10000, so `atoi` never overflows |
| ChatMessages.AtoiExact | asio_test/chat/chat_message.hpp:43-52 | `atoi` on any string: white space skipped, one sign taken, digits counted up to the first byte that is none, zero without digits |
| ChatMessages.AtoiOfNumber | asio_test/chat/chat_message.hpp:43-52 | the digits of a number, with a sign and anything around them, are read as it or its negative |
| ChatMessages.CStringEnds | asio_test/chat/chat_message.hpp:44-45 | what is copied of the header is the bytes before the first zero byte |
| ChatMessages.AcceptsUnsigned | asio_test/chat/chat_message.hpp:46-51 | a header is accepted exactly when its number, converted to unsigned, is at most 256 |
| ChatMessages.AcceptsEncodedIff | asio_test/chat/chat_message.hpp:43-58 | an encoded length is accepted exactly up to 256 |
| ChatMessages.ChatMessage.DecodeHeader | asio_test/chat/chat_message.hpp:43-52 | for any four bytes: accepted exactly when they spell 0 to 256, which becomes the length; otherwise the length is 0 |
| ChatMessages.ChatMessage.EncodeHeader | asio_test/chat/chat_message.hpp:54-58 | afterwards the header decodes to the length and the body is untouched |
| ChatMessages.ChatMessage.Compose | asio_test/chat/chat_client.cpp:115-118 | for a line of any length the buffer holds its first 256 bytes under a header that decodes to their number |
| ChatMessages.ChatMessage.Fill | asio_test/chat/chat_server.cpp:73-87 | a completed read replaces exactly the bytes it covers |
| ChatReader.ParseAppend | asio_test/chat/chat_server.cpp:71-98 | reading a stream in two parts, at any cut, is reading it whole |
| ChatReader.ParseFrame | asio_test/chat/chat_server.cpp:71-98 | a frame in front of any bytes is read as its message, then those bytes |
| ChatReader.StreamRoundTrip | asio_test/chat/chat_server.cpp:71-98 | any list of well-formed messages followed by anything is read as those messages, then as that |
| ChatReader.CutStream | asio_test/chat/chat_server.cpp:71-98 | a stream cut inside a frame is read as the messages before it, with the part left over and no error |
| ChatReader.RefusedHeaderEnds | asio_test/chat/chat_server.cpp:71-83 | a header that is not accepted ends the stream, after exactly the messages before it |
| ChatReader.ParsedAreWellFormed | asio_test/chat/chat_server.cpp:71-98 | whatever bytes arrive, every message read can be forwarded and decoded again |
| ChatReader.ChunkingRoundTrip | asio_test/chat/chat_server.cpp:71-98 | any chunking of encoded messages is read as exactly those messages |
| ChatReader.ReadAll | asio_test/chat/chat_server.cpp:71-98 | the reader object fed any chunks delivers the messages of their concatenation |
| ChatReader.Reader.Feed | asio_test/chat/chat_server.cpp:71-98 | after any chunk, messages delivered, state and left-over bytes are what all bytes so far mean |
| ChatReader.Reader.Drain | asio_test/chat/chat_client.cpp:50-75 | the header and body loop completes every read that can complete |
| ChatReader.Reader.ReadHeader | asio_test/chat/chat_server.cpp:71-83 | an accepted header is kept in the buffer and loses no byte; a refused one ends the stream as the specification says |
| ChatReader.Reader.ReadBody | asio_test/chat/chat_server.cpp:85-98 | hands on exactly the first message of the undelivered bytes and leaves the rest |
| ChatRoom.RunKeepsRoom | asio_test/chat/chat_server.cpp:21-115 | every session and the replay list agree with the history in every run |
| ChatRoom.BroadcastExact | asio_test/chat/chat_server.cpp:24-45 | a session has been enqueued exactly the history from a hundred messages before it joined up to now or to its leaving; the replay list is the last hundred |
| ChatRoom.AHundredMessages | asio_test/chat/chat_server.cpp:35-49 | what is remembered is the last hundred messages, and a session that joins is given the history from there on |
| ChatRoom.SessionsFollow | asio_test/chat/chat_server.cpp:24-115 | every session is where the events alone put it: in the room exactly from its acceptance to its first failed read or write, with the bytes that arrived while it was reading, each message in them handled once, and one message sent for each completed write |
| ChatRoom.HistoryOnlyGrows | asio_test/chat/chat_server.cpp:35-45 | under every run the old history is a prefix of the new one and no session is forgotten |
| ChatRoom.PumpExact | asio_test/chat/chat_server.cpp:63-69 | of all asynchronous writes started, never more than one is under way; exactly one is when the deque is non-empty and no write has failed, and it carries the front; sent plus queued is everything enqueued, in order |
| ChatRoom.EndToEnd | asio_test/chat/chat_server.cpp:21-115 | the bytes on a connection, wherever in the frame under way they end, are read at the other end as exactly the session's part of the history: the messages sent, and the one under way exactly when its whole frame has been carried |
| ChatRoom.AuthorsExact | asio_test/chat/chat_server.cpp:71-98 | the part of the history that came from a session is what the bytes that arrived on it mean, in order, as far as it has been handled |
| ChatRoom.ClientToRoom | asio_test/chat/chat_client.cpp:23-91 | whatever room and client do, and however the client's bytes are delayed and cut up, the history holds from its session exactly the first messages passed to `write`, in order, and its reader has not failed |
| ChatRoom.ClientKeepsOk | asio_test/chat/chat_client.cpp:23-91 | every step of a client keeps the pump's invariant, and enqueued plus posted is everything written |
| ChatRoom.ClientFollows | asio_test/chat/chat_client.cpp:23-91 | a client is where the events alone put it: written is what was passed to `write`, one message is enqueued for each handler that runs and one sent for each write that completes |
| ChatRoom.PrefixIsRead | asio_test/chat/chat_server.cpp:71-98 | any beginning of a stream of well-formed messages is read as a beginning of the messages, without a failure |
| ChatRoom.EnqueueKeepsPump | asio_test/chat/chat_server.cpp:63-69 | delivering starts a write only when none is under way |
| ChatRoom.WriteDoneKeepsPump | asio_test/chat/chat_server.cpp:100-115 | a completed write, good or bad, keeps the pump's invariant and what was enqueued |
| ChatRoom.EnqueueAllKeepsPump | asio_test/chat/chat_server.cpp:24-29 | the replay on joining enqueues exactly the replayed messages, in order |
| ChatRoom.BodyReadKeepsRoom | asio_test/chat/chat_server.cpp:35-45 | delivering the message a session has read keeps the invariant of the room and of every session, present or gone |
| ChatRoom.ExecKeepsRoom | asio_test/chat/chat_server.cpp:58-115 | every handler keeps the invariant |
| ChatServer.ChatSession.Deliver | asio_test/chat/chat_server.cpp:63-69 | a write is started only when none is under way, and the session changes as the pump's specification says |
| ChatServer.ChatSession.WriteCompleted | asio_test/chat/chat_server.cpp:103-114 | the handler of a write changes the pump as specified |
| ChatServer.ChatRoomObject.Accept | asio_test/chat/chat_server.cpp:133-143 | a new session with a reader of its own, started |
| ChatServer.ChatRoomObject.Start | asio_test/chat/chat_server.cpp:58-61 | starting a session joins it and replays the recent messages |
| ChatServer.ChatRoomObject.Arrive | asio_test/chat/chat_server.cpp:71-98 | bytes go through the session's own reader and leave the others alone |
| ChatServer.ChatRoomObject.Handle | asio_test/chat/chat_server.cpp:58-115 | whichever handler runs next does to the objects what the specification does to the room, and keeps every invariant |
| ChatServer.ChatRoomObject.Replay | asio_test/chat/chat_server.cpp:24-29 | the loop over the recent messages enqueues all of them in order |
| ChatServer.ChatRoomObject.Leave | asio_test/chat/chat_server.cpp:31-33 | the session is removed, and leaving twice changes nothing more |
| ChatServer.ChatRoomObject.Deliver | asio_test/chat/chat_server.cpp:35-45 | remembering, trimming and handing out do to the objects what the specification does to the room |
| ChatServer.ChatRoomObject.HandOut | asio_test/chat/chat_server.cpp:41-43 | every participant gets the message once, whatever the order of the set, and nobody else does |
| ChatServer.ChatRoomObject.Remember | asio_test/chat/chat_server.cpp:36-39 | the trim loop leaves the last hundred messages |
| ChatServer.ChatRoomObject.BodyRead | asio_test/chat/chat_server.cpp:85-93 | the next message of the session's reader goes to the whole room |
| ChatServer.ChatRoomObject.ReadFailed | asio_test/chat/chat_server.cpp:76-82 | a failed read or refused header makes the session leave |
| ChatServer.ChatRoomObject.Written | asio_test/chat/chat_server.cpp:100-115 | a completed write moves the pump on, a failed one makes the session leave |
| ChatServer.ChatClient.Write | asio_test/chat/chat_client.cpp:23-33 | posting keeps caller order: enqueued plus posted is everything written |
| ChatServer.ChatClient.RunPosted | asio_test/chat/chat_client.cpp:25-32 | the posted handler enqueues the oldest posted message, and starts a write only when none is under way |
| ChatServer.ChatClient.WriteCompleted | asio_test/chat/chat_client.cpp:77-91 | the handler of a write moves the pump on and keeps the caller's order |
| SocketStreambuf.Flush | include/asio/basic_socket_streambuf.hpp:449-482 | never more than was asked goes out, and the loop succeeds exactly when all of it has |
| SocketStreambuf.FlushSendsWhatFits | include/asio/basic_socket_streambuf.hpp:449-482 | however sends are split and blocked, the bytes sent are the smaller of what is there and what the socket takes before its first failure |
| SocketStreambuf.FlushUses | include/asio/basic_socket_streambuf.hpp:449-482 | the loop uses up the shortest part of the script in which the socket takes everything, if there is one, and otherwise all of it up to the first attempt that stops it |
| SocketStreambuf.ConservedIff | include/asio/basic_socket_streambuf.hpp:427-517 | for any operations and script, wire plus put area are the characters written, in order, if and only if no operation flushes while the socket would take only a part of the put area; the surplus is exactly what those flushes sent |
| SocketStreambuf.RepeatsWhenCutShort | include/asio/basic_socket_streambuf.hpp:427-504 | an operation repeats bytes exactly when it cuts short a flush, and then as many as the socket takes |
| SocketStreambuf.SuccessConserves | include/asio/basic_socket_streambuf.hpp:427-517 | without a failure, wire plus put area are exactly the characters put, whatever was split or blocked |
| SocketStreambuf.SyncEmptiesOrKeeps | include/asio/basic_socket_streambuf.hpp:501-504 | a successful sync empties the put area onto the wire; a failed one keeps it whole and sends a prefix of it |
| SocketStreambuf.SucceedsIff | include/asio/basic_socket_streambuf.hpp:427-517 | each operation reports success exactly when the buffer's state and what the socket is going to take allow it |
| SocketStreambuf.WrittenIsAccepted | include/asio/basic_socket_streambuf.hpp:427-499 | the characters that count as written are those whose put reported success, in order |
| SocketStreambuf.UnbufferedIff | include/asio/basic_socket_streambuf.hpp:506-517 | output is unbuffered exactly from the first switch that finds nothing pending; from then on a successful put is on the wire at once and the put area stays empty |
| SocketStreambuf.FailedFlushRepeats | include/asio/basic_socket_streambuf.hpp:427-499 | a concrete run in which a byte is sent twice |
| SocketStreambuf.RefillExact | include/asio/basic_socket_streambuf.hpp:382-423 | the first thing that is not a successful wait decides a refill: bytes, up to 504 of them with the others left to the socket; or nothing, for an end of the stream, an error, the expiry, a failed wait or an exhausted script |
| SocketStreambuf.RefillConserves | include/asio/basic_socket_streambuf.hpp:382-423 | input conservation: what a refill gets and what the socket still has are what the socket had |
| SocketStreambuf.Streambuf.constructor | include/asio/basic_socket_streambuf.hpp:525-535 | both areas start empty, with eight put-back cells |
| SocketStreambuf.Streambuf.SendAll | include/asio/basic_socket_streambuf.hpp:449-482 | the loop sends the prefix that its specification counts, and nothing else |
| SocketStreambuf.Streambuf.OverflowChar | include/asio/basic_socket_streambuf.hpp:427-499 | the buffer, the wire and the result change as specified, in buffered and unbuffered mode |
| SocketStreambuf.Streambuf.SputcChar | include/asio/basic_socket_streambuf.hpp:427-499 | a character is stored while there is room and overflows otherwise |
| SocketStreambuf.Streambuf.SyncOut | include/asio/basic_socket_streambuf.hpp:501-504 | sync is an overflow without a character |
| SocketStreambuf.Streambuf.Setbuf | include/asio/basic_socket_streambuf.hpp:506-517 | null arguments with nothing pending switch to unbuffered output; anything else is refused and changes nothing |
| SocketStreambuf.Streambuf.Drive | include/asio/basic_socket_streambuf.hpp:427-517 | any operations take the object through the specified run |
| SocketStreambuf.Streambuf.Underflow | include/asio/basic_socket_streambuf.hpp:373-425 | refills an exhausted get area with what the socket gives and returns its first byte, and leaves a non-exhausted one alone; taken bytes, get area and what the socket still has stay what the socket had at first |
| SocketStreambuf.Streambuf.Receive | include/asio/basic_socket_streambuf.hpp:382-423 | the receive loop gets what its specification says from the script |
| SocketStreambuf.Streambuf.Sbumpc | include/asio/basic_socket_streambuf.hpp:373-425 | the reader takes each received byte once, in order; end of file only with nothing left over |
| SocketStreambuf.Streambuf.PutBackCandidate | include/asio/basic_socket_streambuf.hpp:400-405 | right after a refill the put-back cell holds a zero byte, otherwise the character read last |
| Generators.Resume | coroutine/tsequencegenerator/sequencegenerator.h:98-131 | running a frame to its next suspension keeps the stream; it ends done exactly when the stream is empty, and otherwise has a value ready |
| Generators.ResumeFlat | coroutine/tsequencegenerator/sequencegenerator.h:119-131 | the nested loops of `flat_map` do so through any run of empty inner generators, and terminate |
| Generators.HasNext | coroutine/tsequencegenerator/sequencegenerator.h:143-161 | true exactly when the stream is not empty, and the stream is unchanged |
| Generators.Next | coroutine/tsequencegenerator/sequencegenerator.h:133-141 | returns the head of the stream and leaves its tail; throws exactly when it is empty |
| Generators.Start | coroutine/tsequencegenerator/sequencegenerator.h:14-17 | calling the coroutine runs it to its first value and keeps the stream |
| Generators.StreamSame | coroutine/tsequencegenerator/sequencegenerator.h:76-131 | what a generator will give does not depend on the bound of its nesting |
| Generators.ReturnsPrefix | coroutine/tsequencegenerator/sequencegenerator.h:133-161 | under any schedule of `hasNext` and `next`, values returned plus what is left are the stream; an exception means all were returned |
| Generators.DrainsAll | coroutine/tsequencegenerator/sequencegenerator.h:133-161 | n calls of `next` return the first n values, without an exception |
| Generators.HasNextIdempotent | coroutine/tsequencegenerator/sequencegenerator.h:143-161 | asking again changes nothing |
| Generators.MapRefinesLists | coroutine/tsequencegenerator/sequencegenerator.h:98-117 | draining `map(f)` gives the list map of what the source still had, and leaves nothing |
| Generators.FlatMapRefinesLists | coroutine/tsequencegenerator/sequencegenerator.h:119-131 | draining `flat_map(f)` gives the concatenation of the streams of the generators f makes, and leaves nothing |
| Generators.FromListGivesList | coroutine/tsequencegenerator/sequencegenerator.h:76-82 | draining `from_list` gives the list |
| Generators.MapAppliesLazily | coroutine/tsequencegenerator/sequencegenerator.h:98-117 | after any schedule f has been applied once per value returned, and once more exactly if a value is waiting |
| Generators.Generator.constructor | coroutine/tsequencegenerator/sequencegenerator.h:14-17 | a new generator has run to its first value |
| Generators.Generator.ResumeHandle | coroutine/tsequencegenerator/sequencegenerator.h:76-117 | resuming the object changes promise and frame as specified |
| Generators.Generator.ResumeFlatMap | coroutine/tsequencegenerator/sequencegenerator.h:119-131 | the loops of `flat_map` change the object as specified, and terminate |
| Generators.Generator.HasNextValue | coroutine/tsequencegenerator/sequencegenerator.h:143-161 | the object's `hasNext` changes and answers as specified |
| Generators.Generator.NextValue | coroutine/tsequencegenerator/sequencegenerator.h:133-141 | the object's `next` changes and answers as specified |
| Generators.Generator.Drain | coroutine/tsequencegenerator/sequencegenerator.h:133-161 | a caller's loop collects exactly the stream and leaves nothing |
| AlignedStorage.AllocationOutcome | include/asio/any_completion_handler.hpp:131-156 | for every base, size and alignment: throws exactly when size + align - 1 wraps; otherwise the result is aligned within the block; payload and offset fit the block exactly when the whole sum does not wrap |
| AlignedStorage.StdAlignIsLeast | include/asio/any_completion_handler.hpp:145-146 | std::align in any space finds the lowest aligned address at which the size fits, if there is one |
| AlignedStorage.OverrunOccurs | include/asio/any_completion_handler.hpp:140-149 | the overrun occurs: eight bytes short of the whole range, the block asked for has no bytes at all and the allocation still goes ahead |
| AlignedStorage.DecodeEncode | include/asio/any_completion_handler.hpp:148-171 | an offset survives being written and read back as bytes |
| AlignedStorage.OffsetRecovered | include/asio/any_completion_handler.hpp:169-174 | the bytes behind a placed payload give back the distance to the base, and size and alignment the block's byte count |
| AlignedStorage.TrailerFrame | include/asio/any_completion_handler.hpp:131-176 | whatever is written inside another block, this block's hidden offset stays |
| AlignedStorage.LivePayloadsDisjoint | include/asio/any_completion_handler.hpp:131-156 | payloads with their offsets lie inside their own blocks and do not meet |
| AlignedStorage.Arena.Allocate | include/asio/any_completion_handler.hpp:131-156 | exactly when it throws, when it overruns and when it succeeds; then aligned, new, inside its block, with every other live allocation intact |
| AlignedStorage.Arena.CopyIn | include/asio/any_completion_handler.hpp:149-149 | memcpy to an address writes those bytes there and no others |
| AlignedStorage.Arena.CopyOut | include/asio/any_completion_handler.hpp:169-170 | memcpy from an address reads the bytes there |
| AlignedStorage.Arena.WritePayload | include/asio/any_completion_handler.hpp:131-176 | any write inside a live payload keeps every hidden offset |
| AlignedStorage.Arena.Deallocate | include/asio/any_completion_handler.hpp:158-176 | gives back exactly the base and byte count that the allocator gave, and nothing for a null pointer |
| HandlerOwnership.RunKeepsInv | include/asio/any_completion_handler.hpp:90-191 | ownership, tables and the life of every target are right in every run |
| HandlerOwnership.SingleOwner | include/asio/any_completion_handler.hpp:655-756 | no two wrappers share a target, each target is alive with the table of its own type, and nothing released is used |
| HandlerOwnership.LifeOfEveryTarget | include/asio/any_completion_handler.hpp:90-191 | each target is created once, released once if and only if no wrapper points at it any more, invoked at most once, and released before it is invoked |
| HandlerOwnership.RunIsAsIntended | include/asio/any_completion_handler.hpp:639-756 | for any program of constructions, moves, assignments, swaps, calls and destructions, every wrapper has the target, and the handlers have run in the order, of a machine that only maps wrappers to targets |
| HandlerOwnership.MisuseIsAFault | include/asio/any_completion_handler.hpp:108-191 | releasing or calling a target that is not alive, or through a wrong table, is always counted |
| HandlerOwnership.NothingLeaks | include/asio/any_completion_handler.hpp:698-703 | with the last wrapper gone nothing is allocated |
| HandlerOwnership.CalledOnce | include/asio/any_completion_handler.hpp:745-756 | a call releases then runs the target and leaves the wrapper without one; a second call only throws; a call throws exactly when there is no target |
| HandlerOwnership.AssignKeepsInv | include/asio/any_completion_handler.hpp:683-689 | move assignment keeps the invariant, and self-assignment changes nothing |
| HandlerOwnership.AssignEffect | include/asio/any_completion_handler.hpp:683-689 | the target's old handler is released unless it is its own source, and the source is left empty |
| HandlerOwnership.SwapKeepsInv | include/asio/any_completion_handler.hpp:717-722 | swapping, also with itself, keeps the invariant |
| HandlerOwnership.ExecKeepsInv | include/asio/any_completion_handler.hpp:639-756 | every operation on wrappers keeps the invariant |
| HandlerOwnership.AnyCompletionHandler.constructor | include/asio/any_completion_handler.hpp:639-651 | an empty wrapper has neither table nor target |
| HandlerOwnership.AnyCompletionHandler.MoveFrom | include/asio/any_completion_handler.hpp:671-677 | the new wrapper has what the source had, and the source is empty |
| HandlerOwnership.AnyCompletionHandler.SwapWith | include/asio/any_completion_handler.hpp:718-722 | tables and targets change places, also when both are one object |
| HandlerOwnership.AnyCompletionHandler.MoveAssignFrom | include/asio/any_completion_handler.hpp:683-689 | takes the source's target, and gives up its own former one unless it is the source |
| HandlerOwnership.AnyCompletionHandler.AssignNull | include/asio/any_completion_handler.hpp:692-696 | the wrapper becomes empty and gives up its target |
| HandlerOwnership.Storage.ConstructHandler | include/asio/any_completion_handler.hpp:90-106 | a new target and a new wrapper that owns it |
| HandlerOwnership.Storage.MoveAssignTo | include/asio/any_completion_handler.hpp:683-689 | the objects change as the specification of move assignment says, aliased or not |
| HandlerOwnership.Storage.AssignNullTo | include/asio/any_completion_handler.hpp:692-696 | the wrapper becomes empty and its target is released |
| HandlerOwnership.Storage.SwapBoth | include/asio/any_completion_handler.hpp:718-722 | the objects change as the specification of swap says |
| HandlerOwnership.Storage.CallHandler | include/asio/any_completion_handler.hpp:745-756 | runs the target the wrapper had, if any, and leaves the wrapper without one |
| HandlerOwnership.Storage.DestroyHandler | include/asio/any_completion_handler.hpp:698-703 | the destructor releases the wrapper's target, if any |
| TaskPromise.RunKeepsInv | coroutine/task/task.h:158-208 | in every reachable state each callback is in exactly one place: with its registrar, on the list, or run |
| TaskPromise.AtMostOnce | coroutine/task/task.h:184-208 | no callback runs twice in any run, and all are given the one result |
| TaskPromise.ResultIsTheCompletion | coroutine/task/task.h:158-197 | in every run the result is what the coroutine first completed with, from when it is stored and for ever; every getResult that finds a result reads this one, and every callback is given it |
| TaskPromise.CallsAreWhatWasAsked | coroutine/task/task.h:174-197 | registrations are kept with their kinds in order, and every call of getResult reads exactly once |
| TaskPromise.LeftAloneFinishes | coroutine/task/task.h:174-197 | from every reachable state a thread not kept from the mutex is through with its call, or asleep in getResult, within four operations |
| TaskPromise.ExactlyOnce | coroutine/task/task.h:184-208 | after the completion, a callback whose registration is over has run exactly once |
| TaskPromise.EarlyFirstInOrder | coroutine/task/task.h:184-208 | callbacks registered before the completion run first and in registration order |
| TaskPromise.VisibleResultMeansNothingPending | coroutine/task/task.h:158-208 | whenever the mutex is free and there is a result, the list is empty and all early callbacks have run |
| TaskPromise.NoGetterLeftAsleep | coroutine/task/task.h:174-182 | with the mutex free, a thread sleeps in `getResult` only while there is no result |
| TaskPromise.EmptyReadIff | coroutine/task/task.h:174-182 | a read in getResult records the promise's result, and finds none exactly after a spurious wakeup before the completion |
| TaskPromise.SpuriousReadIsReached | coroutine/task/task.h:174-182 | the failing read occurs: a run from the start with one spurious wakeup |
| TaskPromise.UserCalledExactly | coroutine/task/task.h:79-100 | `finally` calls the user's function exactly once, `catching` exactly once for an exception and not at all for a value |
| TaskPromise.CompletionFinishes | coroutine/task/task.h:158-208 | a completion that has begun and is not kept from the mutex finishes in a known number of its own steps |
| TaskPromise.CompletionCanFinish | coroutine/task/task.h:158-208 | no deadlock: from every reachable state with a completion begun, whoever has the mutex, a schedule of at most ten steps more than pending callbacks finishes it |
| TaskPromise.Promise.constructor | coroutine/task/task.h:210-214 | a new promise is the machine's initial state |
| TaskPromise.Promise.CompleteStep | coroutine/task/task.h:158-172 | each operation of the completion has exactly the machine's effect |
| TaskPromise.Promise.OnCompleted | coroutine/task/task.h:184-197 | each operation of a registration has exactly the machine's effect |
| TaskPromise.Promise.GetResultStep | coroutine/task/task.h:174-182 | each operation of `getResult` has exactly the machine's effect |
| TaskPromise.Promise.Drive | coroutine/task/task.h:158-208 | under any schedule the object goes through the machine's run |
| TaskCallbacks.ExactlyOnceIff | coroutine/task/task.h:158-208 | for any list, result and exceptions thrown: every callback is called exactly once if and only if none lets an exception out of its wrapper, the last one excepted when the coroutine itself failed |
| TaskCallbacks.PassEnds | coroutine/task/task.h:200-208 | a pass over the list ends at the first callback that lets an exception out, with that exception, and otherwise at the end of the list |
| TaskCallbacks.WhatEscapes | coroutine/task/task.h:79-100 | what leaves a callback, by kind, result and exception: what the user's function throws when it is called, and a coroutine's exception that is no std::exception |
| TaskCallbacks.ClearedIff | coroutine/task/task.h:200-208 | the list is cleared, and no exception reaches the resumer, exactly when no callback lets one out on the final result; otherwise the list is left whole |
| TaskCallbacks.ValueKeptIff | coroutine/task/task.h:158-172 | a value returned stays the result if and only if no callback lets an exception out on being given it |
| TaskCallbacks.ThrowingFinallyRunsTwice | coroutine/task/task.h:96-100 | the smallest failure: a `finally` function that throws is called twice |
| TaskCallbacks.CompletionCore.constructor | coroutine/task/task.h:210-214 | no result, the callbacks registered so far |
| TaskCallbacks.CompletionCore.CallWrapper | coroutine/task/task.h:79-100 | the try and catch of the wrappers let out exactly that |
| TaskCallbacks.CompletionCore.NotifyCallbacks | coroutine/task/task.h:200-208 | the loop calls, in order and with the one result, exactly the callbacks of the specified pass, lets out what that lets out, and clears the list only if that is nothing |
| TaskCallbacks.CompletionCore.ReturnValue | coroutine/task/task.h:158-164 | the value is stored whatever the callbacks throw, and they are called as specified |
| TaskCallbacks.CompletionCore.UnhandledException | coroutine/task/task.h:166-172 | the exception is stored whatever the callbacks throw, and they are called as specified |
| TaskCallbacks.CompletionCore.FinishBody | coroutine/task/task.h:158-172 | what leaves return_value completes the coroutine again; result, list, calls and exception let out are those of the specification |
| RangeSplitting.TraceVisitsEachOnce | multithread/dichotomy_traversal.h:9-25 | under any interleaving of the halves the function is applied once at every position of the range and nowhere else |
| RangeSplitting.TraceAgreesWithForEach | multithread/dichotomy_traversal.h:9-25 | with commuting effects every interleaving ends in the state of `std::for_each` |
| RangeSplitting.AnySchedule | multithread/dichotomy_traversal.h:9-25 | every schedule that interleaves the tasks step by step and ends applies the function in one of those orders |
| RangeSplitting.ScheduleAgreesWithForEach | multithread/dichotomy_traversal.h:9-25 | with commuting effects every such schedule ends in the state of `std::for_each` |
| RangeSplitting.ForkMerges | multithread/dichotomy_traversal.h:20-24 | a fork does what its two halves do, interleaved as the schedule says |
| RangeSplitting.MergeKeepsElements | multithread/dichotomy_traversal.h:20-24 | running two halves side by side loses and adds nothing |
| RangeSplitting.LeavesAreBalanced | multithread/dichotomy_traversal.h:9-25 | from 13 elements on every sequential piece has 13 to 25, there is one more of them than tasks a, and 13(a+1) <= n <= 25(a+1) |
| RangeSplitting.Accumulator.ForEach | multithread/dichotomy_traversal.h:16-18 | applies the function at each position in order |
| RangeSplitting.Accumulator.DichotomyTraversal | multithread/dichotomy_traversal.h:9-25 | the recursion, each first half run eagerly or deferred, performs one of the allowed interleavings, folds the function over it and starts the stated number of tasks |
| RangeSplitting.ChunksAreBalanced | multithread/parallel_traversal.h:22-23 | when the thread count is the needed one and at least two, chunks have 13 to 25 elements |
| RangeSplitting.ParallelTraversal | multithread/parallel_traversal.h:16-45 | divides by zero exactly for a non-empty range and no hardware threads; otherwise the result is that of `std::for_each`, and the chunks tile the range, alike but for the remainder in the last |
| RangeSplitting.Finding.FindMatchType | multithread/paraller_find.h:15-25 | finds the first match of its piece, sets the promise once if there is one, and does nothing once something has been found |
| RangeSplitting.ParallelFind | multithread/paraller_find.h:13-56 | same answer as a linear scan; the promise is set once if there is a match and never otherwise |

## Left out

Weaker than the source, or assumed:

- LockFreeStack.NoUseAfterDelete: the read through the null delay list is undefined behaviour; the model records it and goes on as if the call had returned, so what follows such a read in the real program is not covered.
- LockFreeStack.Linearizable: memory orders are taken as sequentially consistent; `delete_delay_nodes` is modelled but never gets a node, because the delay list is always empty.
- InterruptibleWait.InterruptCanAlwaysLand: states that a delivering schedule exists; that the scheduler picks one is not stated, as no fairness is assumed. The one millisecond of the timed waits is a timeout that may happen at any moment.
- CspChannel.RunKeepsInv: no fairness is assumed, so that a notified thread eventually gets the mutex is not stated.
- ChatRoom.EndToEnd: transport is assumed to deliver bytes in order; a session's pump after its failed write is what stays in the deque.
- SocketStreambuf.ConservedIff: socket, poll and clock are a finite script.
- Generators.FlatMapRefinesLists: all element types are one type; the nesting of `flat_map` has an ordinal bound, as every well-founded generator has; generators moved into a frame and the callers' handles are values, so aliasing and the destruction of frames are not modelled.
- Generators.Start: a moved-from generator handle, for which `hasNext` is false, is not modelled.
- AlignedStorage.Arena.Allocate: stops where the source would write behind the block; the block that leaks when allocation throws is not tracked.
- HandlerOwnership.LifeOfEveryTarget: handlers whose constructors or calls throw are not modelled.
- TaskPromise.ExactlyOnce: in the machine with several threads callbacks do not throw; what happens to the list when they do is `TaskCallbacks.ExactlyOnceIff`, while the mutex is held. Callbacks do not call back into the same promise.
- TaskPromise.UserCalledExactly: in that machine every exception derives from std::exception, the only kind that `catching` catches (line 88 of task.h); other kinds are in `TaskCallbacks`.
- TaskPromise.CompletionCanFinish: states that a finishing schedule exists; no fairness is assumed.
- TwoLockQueue.ShiftedFifo: nodes are never freed, as in the source, and named in order of allocation; reading the unwritten first datum is an explicit `Unset`.
- RangeSplitting.Accumulator.DichotomyTraversal: runs the two halves of each call one after the other; step-by-step interleavings are those of `RangeSplitting.AnySchedule`.

Not modelled:

- The constructor of `interruptible_thread`, which waits on the future before it starts the thread, and the future overload of `interruptible_wait`; predicates that themselves wait.
- `Task::then`, which calls `get_or_throw`, not part of `Result`; `await_resume` on the same promise; the missing return value of `unhandled_exception`.
- Moving, connecting and closing a socket stream buffer.
- The promises' scheduling hooks, cancellation slots, executors and comparison operators of `any_completion_handler`; the other headers under include/asio.
- `Generator::from` with an initializer list or a parameter pack: `from_list` again.
- The TCP, UDP, HTTP, echo and timer programs, console output, sleeps and `main` functions: input and output only.
- The weak-ordering demonstrations, spin lock, singleton, lock-based stack, array, optional and functional helpers: finite or easy.
