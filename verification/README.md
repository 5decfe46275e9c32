# KendyNet: the concurrent core, modelled and proved

KendyNet is a Go network library. Its difficult parts are small concurrent protocols on hand-made
linked structures: a blocking priority queue and the event loop on top of it, the hand-off of a send
lock, the decision who runs a close callback, a goroutine pool, a re-entrant event slot, the books of
an RPC client and server, a cancellable timer, and a sliding receive buffer that cuts frames out of a
byte stream. This project models them in Dafny and proves what they are for.

Two styles are used, following the code.

- **Protocols** are state machines. Every region under a lock, every atomic operation, every
  notification and every I/O completion is one step of one thread; a run is any interleaving of any
  number of threads (`Runs.dfy`). A theorem about "every reachable state" is a lemma about every
  position of every run. Where a theorem speaks of the calls that were made it takes the run together
  with its steps, so that what was asked for, in which order, and with what answer is read off the calls
  and not off anything the machine writes down.
- **Objects updated in place** (rings, chains, wait lists, buffers, the receiver, the leveled queue,
  the pool, the double-buffered send queue) are classes with a `Valid()` invariant and methods whose
  postconditions tie the new contents to the old ones.

| File | Subject |
|---|---|
| `BlockingQueue.dfy`, `QueuePosts.dfy` | `PriorityQueue`: its wake-ups; its calls and what they put in |
| `EventQueue.dfy`, `EventLiveness.dfy` | `EventQueue.Run`: what it executes, and that it returns |
| `PriorityList.dfy`, `LeveledQueue.dfy`, `Ring.dfy` | the reference order, and the array of rings that refines it |
| `CondQueue.dfy`, `CondSpots.dfy`, `CondTracking.dfy`, `CondInvariant.dfy` | the condition variable with timeouts and the blocking send queue on top of it: the steps, who waits where, what every step keeps |
| `CondStranding.dfy`, `StrandedAdder.dfy`, `CondLiveness.dfy` | which runs strand nobody, a run that does, and that operations come to an end |
| `RingRace.dfy`, `RingSeen.dfy`, `RingFate.dfy`, `RingFront.dfy`, `RingStranding.dfy`, `RingFailures.dfy` | the ring a broadcast carried away, line by line, while waiters on it time out: how the queue sees it, when it can panic, who can be stranded, and how |
| `WaitList.dfy`, `SendQueue.dfy` | the ring of waiters; the send queue's two buffers |
| `SendProtocol.dfy`, `SendLiveness.dfy` | `sendLock`, the buffers behind it, and that everything gets sent |
| `CloseProtocol.dfy`, `CloseTiming.dfy` | `ioCount`, `fdoclose`, `doCloseOnce`; what is in flight when the callback runs |
| `Bytes.dfy`, `Frames.dfy`, `PowerOfTwo.dfy`, `Receiver.dfy` | buffer and reader, framing, buffer sizes, `PBReceiver` |
| `HandlerList.dfy`, `HandlerSlot.dfy`, `HandlerOrder.dfy`, `EventRegistry.dfy` | the event slot: its list, its pending operations, the order of its calls, its versions |
| `GoPool.dfy`, `PoolLiveness.dfy` | the goroutine pool, and that every task gets run |
| `CallChain.dfy`, `RpcClient.dfy`, `RpcHistory.dfy`, `RpcServer.dfy` | pending calls and what becomes of them; one-shot replyers |
| `Timer.dfy`, `TimerHistory.dfy` | the timer's status word and the runtime timers behind it; what its user sees |
| `BufferPool.dfy` | size classes and calibration |
| `Runs.dfy`, `Sequences.dfy`, `Sums.dfy`, `Optional.dfy` | induction over runs; taking an element out of a sequence; sums over one; a value that may be missing |

## What the code does not keep

Some properties one would expect turn out to be false of the code. The code is modelled as it is; for
each there is a run or an input that shows the failure, and a theorem that says exactly when the
property holds.

- A waiter can be stranded, and a broadcast can panic. `broadcast` works the wait list it carried away off
  without the lock of the condition variable, while waiters on it that time out take themselves off
  under that lock. As long as no waiter has got past the test of its own removal, a panic is possible if
  and only if a waiter still linked can time out or has (`PanicsExactly` of `RingFate`): by a nil link, or
  because its channel is closed twice (`UnreadTimeoutGoesWrong`, `EveryRingCanFail`). And a given waiter
  can be left asleep for good, with room in the queue and even after `Close`, if and only if such a waiter
  is in front of it, other than the one directly in front while that is being popped (`StrandsExactly`;
  runs in `TimeoutStrandsAnother`, `CloseDoesNotWakeIt`, and `RacedPop` on the linked nodes). Where
  timeouts strike only waiters still on the wait list nobody is stranded and nothing panics
  (`CarefulRunsStrandNobody`), and so where nobody asks for a timeout (`UntimedRunsAreCareful`).
- Bytes can be lost or replaced. A completer that takes `sendLock` again after another task was started
  finds that task's buffer in `sendContext.b`: a retry after a timeout works on the wrong buffer
  (`StaleRetryLoses`), and without any timeout or error the next batch is encoded into a buffer that has
  gone back to the pool (`FreedBufferGarbles`). It happens in no other hold
  (`SpoiledOnlyByCompleters`), and exactly then (`OwnBufferExactly`, `BytesConserved`,
  `RetryIsRightExactly`, `FillIsRightExactly`).
- The close callback can be run while an operation begun before `Close` is in flight: a thread that has
  brought the count to zero may look at the flag only after another operation was begun and `Close` raised
  the flag (`CallbackBeforeDone`). It happens exactly if an operation was begun since the thread that runs
  the callback saw none in flight (`InFlightAtCallback`).
- A response, timeout or failed send that meets a disconnect can dereference a nil pointer: because the
  channel has no entry at that moment (`ResponseDuringDisconnect`; `PanicsExactly`), or because the loop
  of the disconnect has already read a link to the call (`ResponseForCapturedCall`; `DoomedExactly`). In
  all other cases it is harmless (`HarmlessResponse`; `CallPartition`, `DisconnectSettlesAll`).
- `EventHandler.Remove` misses a handle whose registration is still pending (`PendingRemoveIsMissed`;
  `RemoveMissesExactly`).
- A cancelled repeating timer can be left armed, to fire once in vain: by a `Cancel` that lost its
  compare-and-swap and stores Removed over Waiting (`LostCancelLeavesItArmed`), or because a call has
  stored its runtime timer over a later one (`LateStoreLeavesItArmed`). `LeftArmedExactly` says when.
- A `Cancel` of a repeating timer whose first callback has returned panics if neither `newTimer` nor the
  callback's goroutine has stored a runtime timer yet (`CancelBeforeStorePanics`; `PanicsExactly` of
  `Timer`).
- Tasks still queued when the goroutine pool is closed never run (`TaskLeftBehind`; `SettledIsDone`,
  `QueueFrozenByClose`).
- A frame that `Encode` accepts may be refused by `Decode`: one limits the data, the other the data
  plus the 4-byte type id (`LimitMismatch`; `RoundTrip`, `EncodedDecodes`).
- A header that announces 1 to 3 payload bytes makes `Decode` panic if the type id read behind it is
  registered (`ShortFramePanics`; `PanicsExactly` of `Frames`); and `Encode` reports an unregistered type
  but still writes a frame, with id 0 (`ReportedYetWritten`).
- `sizeofPow2` stops at shifts of 16 and so misses the power of two for some sizes above 2^32
  (`NotAPowerOfTwo`; `SizeofPow2Least`). The result is still large enough.

## Model

| member | source | states |
|---|---|---|
| `BlockingQueue.NoLostWakeup` | event/priorityQueue.go:139-238 | in every reachable state, with any number of adders, getters, resizes and a close: a getter that sleeps has a signal or a woken getter for every queued element; an adder that sleeps faces a full queue or a broadcast under way; after close every sleeper has the closing broadcast still to come |
| `BlockingQueue.NobodyLeftBehind` | event/priorityQueue.go:139-238 | from every reachable state, every schedule that only finishes operations already begun reaches a point where the only sleepers are getters of an open empty queue or adders to an open full one |
| `BlockingQueue.TakesOldestOfHighest` | event/priorityQueue.go:191-222 | over every run, what leaves the queue is strictly before everything left in it (priority, then arrival); nothing is accepted after close; accepted elements are those queued plus those taken, as multisets |
| `BlockingQueue.StepKeepsInv` | event/priorityQueue.go:139-238 | every step keeps the counters equal to the threads they count, the wake-up promises, the order of the queue and the conservation of its elements |
| `BlockingQueue.StepEffect` | event/priorityQueue.go:139-222 | only a get removes, and it removes the head; an add inserts at most one element, clamped and stamped, and none once closed; signals, broadcasts, close and resize leave the contents alone |
| `BlockingQueue.AcceptsExactly` | event/priorityQueue.go:139-189 | a step accepts one element exactly when it adds to an open queue that is not full, or ignores the limit; every other step accepts none |
| `QueuePosts.AcceptsWhatWasAsked` | event/priorityQueue.go:139-189 | over every run given with its steps: what was accepted is, in order, the clamped priority and the payload of the calls that succeeded, where a call that slept in between counts with the request it was made with, not with what the queue remembers; and every sleeper inside `Add` will push the request of its latest call |
| `QueuePosts.SleepsExactly` | event/priorityQueue.go:139-212 | an `Add` goes to sleep exactly when the queue is open and full, a `Get` exactly when it is open and empty; otherwise they return, with a signal or a broadcast on the way exactly when there is something new for somebody registered as waiting; `AddNoWait` never sleeps |
| `QueuePosts.SettingsExactly` | event/priorityQueue.go:214-238 | over every run given with its steps: the limit is the last positive one set, and the queue is closed only after `Close` has been called, and is once that call has passed the lock |
| `BlockingQueue.SettledIsRight` | event/priorityQueue.go:191-222 | when nothing already begun can move, a sleeping getter faces an open empty queue, a sleeping adder an open full one, and both kinds never sleep together |
| `BlockingQueue.InternalStepDescends` | event/priorityQueue.go:165-222 | finishing an operation already begun strictly descends in a well-founded order, so that no schedule of wake-ups goes on forever |
| `BlockingQueue.CanFinish` | event/priorityQueue.go:165-238 | in every state that is not settled some operation already begun can take a step |
| `BlockingQueue.ResizeKeepsWakeups` | event/priorityQueue.go:224-238 | enlarging or shrinking the queue loses no wake-up |
| `BlockingQueue.CloseWakeKeepsWakeups` | event/priorityQueue.go:214-222 | neither closing broadcast loses a wake-up, though they are sent one after the other outside the lock |
| `BlockingQueue.InsertOrdered` | event/priorityQueue.go:95-108 | stable insertion of the newest element keeps the strict order by priority and arrival |
| `BlockingQueue.PushConserves` | event/priorityQueue.go:95-108 | a push adds its element to queue and history and disturbs no other |
| `BlockingQueue.TakeConserves` | event/priorityQueue.go:110-125 | a pop moves the head from the queue to the taken elements and nothing else |
| `PriorityList.Clamp` | event/priorityQueue.go:95-100 | a priority inside the range is kept, a negative one becomes 0, one too large the highest level |
| `PriorityList.InsertAddsOne` | event/priorityQueue.go:95-108 | insertion adds exactly one element to the multiset |
| `LeveledQueue.Pq.Push` | event/priorityQueue.go:95-108 | the array of rings with its `high` cursor, read as one list, becomes the stable insertion of the clamped element into the old list; `count` and `high` stay right |
| `LeveledQueue.Pq.Pop` | event/priorityQueue.go:110-125 | pops exactly the head of the reference list, or reports that there is none; `count` is the total, levels above `high` are empty, level `high` is not unless nothing is left |
| `LeveledQueue.Pq.LowerHigh` | event/priorityQueue.go:120-122 | the cursor comes to rest on the highest non-empty level, or on 0 |
| `LeveledQueue.Pq.constructor` | event/priorityQueue.go:85-93 | an empty queue of the given number of levels, at least one |
| `LeveledQueue.AppendIsInsert` | event/priorityQueue.go:102-107 | appending to one level is a stable insertion into the list of all levels |
| `LeveledQueue.HighIsHead` | event/priorityQueue.go:110-125 | with every level above `high` empty, the head of level `high` is the head of the list of all levels, and removing one removes the other |
| `LeveledQueue.ListingByPriority` | event/priorityQueue.go:76-80 | the list of all levels is in descending order of priority |
| `Ring.Ring.Push` | event/priorityQueue.go:44-54 | the circular list with a tail pointer gains the element at its end |
| `Ring.Ring.Pop` | event/priorityQueue.go:56-70 | it loses its oldest element, also when that was the only one; an empty ring is left alone |
| `Ring.Ring.Empty` | event/priorityQueue.go:72-74 | a nil tail means no elements |
| `EventQueue.DrainBeforeExit` | event/eventQueue.go:63-98 | over every run given with its steps, when `Run` has returned the queue is closed and empty, and what was executed is, as a multiset, the clamped priorities and the payloads of the posts that succeeded, each exactly once, and nothing else |
| `EventLiveness.LoopEnds` | event/eventQueue.go:81-98 | from every reachable state with a closed queue, every schedule in which `Run` and the operations already begun go on reaches a point where `Run` has returned and everything accepted has been executed |
| `EventLiveness.InternalStepDescends` | event/eventQueue.go:81-98 | with a closed queue every step of `Run` or of an operation already begun strictly descends in a well-founded order |
| `EventLiveness.CanFinish` | event/eventQueue.go:81-98 | with a closed queue and `Run` under way such a step exists until `Run` has returned |
| `EventQueue.ExecutesOldestOfHighest` | event/eventQueue.go:81-98 | what is executed is, in order, what was taken, and each element taken was the oldest of the highest non-empty priority at that moment |
| `EventQueue.NothingAfterExit` | event/eventQueue.go:63-98 | after `Run` has returned no post succeeds and nothing more is executed, at any later point of the run |
| `EventQueue.StepKeepsInv` | event/eventQueue.go:81-98 | every step keeps: taken elements are those executed plus the one in hand, and `Run` decides to return only on a closed empty queue |
| `EventQueue.StampedOnce` | event/eventQueue.go:63-75 | elements numbered in order of acceptance are pairwise distinct, so a multiset counts executions |
| `CondStranding.CarefulRunsStrandNobody` | socket/sendqueue.go:97-266 | over every run whose timeouts strike only waiters on their wait list: nothing panics, no sleeper is ever stranded, every one is on its wait list or in the hands of a thread that will wake it in its turn, and at rest every sleeper sleeps rightly |
| `CondInvariant.NoSleeperForgotten` | socket/sendqueue.go:97-266 | in every reachable state every sleeper is on its wait list, in the hands of exactly one thread, or stranded; if it is on the list and the queue has items, has room or is closed, somebody who will look or broadcast is on the way; getters are never on a ring that a timeout has struck and never stranded |
| `CondStranding.UntimedRunsAreCareful` | socket/sendqueue.go:193-231 | where nobody asks for a timeout no timeout strikes, so nobody is stranded |
| `CondStranding.ShakyExactly` | socket/sendqueue.go:121-157 | a carried-away ring ceases to be worked off in order if and only if a waiter on it times out |
| `CondStranding.OnlyShakyGoesWrong` | socket/sendqueue.go:147-157 | only the holder of such a ring strands anybody, and then only those left on it, and only it panics |
| `RingStranding.StrandsExactly` | socket/sendqueue.go:56-157 | line by line, at every point of a run in which no waiter has got past the test of its own removal, and for every waiter asleep: a continuation leaves it asleep with its channel open and the broadcast done if and only if a waiter in front of it is still linked and can time out or has, other than the one directly in front while that is being popped |
| `RingFate.PanicsExactly` | socket/sendqueue.go:56-157 | at every such point a panic is possible, by a nil link or a channel closed twice, if and only if a waiter that can time out or has is still linked |
| `RingFate.NobodyStrandedWithout` | socket/sendqueue.go:56-157 | if there is none, whatever happens nothing panics, and when the broadcast is done every channel has been closed |
| `RingFate.StrandedForGood` | socket/sendqueue.go:56-157 | a waiter that asked for no timeout and is asleep with its channel open when the broadcast is done stays so |
| `RingFront.SavedStep` | socket/sendqueue.go:56-157 | every line, of the broadcaster or of any waiter, keeps a waiter with no danger in front of it from being passed by: the nodes in front of it stay as they were, also while the waiter directly in front is being popped and takes itself off at the same time |
| `RingFront.FarRemove` | socket/sendqueue.go:67-77 | a removal behind a waiter changes no link between the nodes in front of it, nor where the head points |
| `RingFailures.UnreadTimeoutGoesWrong` | socket/sendqueue.go:56-157 | at every such point, for a waiter that can time out or has and of which nothing has been read: its channel can be closed twice; and whoever is behind the next waiter can be stranded by a link written back to a waiter already popped |
| `RingFailures.EveryRingCanFail` | socket/sendqueue.go:56-157 | on every ring as broadcast finds it: whoever is behind a waiter that may time out can be stranded, and the channel of that waiter, unless it is the first, can be closed twice |
| `RingRace.UntouchedRingIsWorkedOff` | socket/sendqueue.go:56-157 | as long as no waiter takes itself off, the channels are closed in order, none twice, nothing panics, and in the end all are closed |
| `RingRace.StepEffect` | socket/sendqueue.go:56-157 | whatever state the ring is in, a line closes at most one channel, which was open, only the broadcaster closes, and nobody wakes whose channel is open |
| `RingSeen.StepAsSeen` | socket/sendqueue.go:56-157 | whatever state the ring is in, a waiter leaves the set of those asleep on an open channel only by its timeout or by having its channel closed, one at a time, and none comes back |
| `RingSeen.UnstruckRing` | socket/sendqueue.go:56-157 | as long as no timeout strikes a waiter asleep on an open channel, those are the waiters from some waiter on, none is left when the broadcast is done, and nothing panics |
| `StrandedAdder.TimeoutStrandsAnother` | socket/sendqueue.go:108-157 | a run of three adders and a consumer at whose end the queue is open, empty and at rest, and an adder that asked for no timeout sleeps on a ring nobody holds |
| `StrandedAdder.CloseDoesNotWakeIt` | socket/sendqueue.go:252-266 | the same run followed by a close that has done all it does: the adder still sleeps |
| `CondInvariant.NoGhostWaiters` | socket/sendqueue.go:108-136 | a wait that ended, by a wake-up or a timeout, is on no wait list and not among those a notifier has still to wake |
| `CondInvariant.SettledIsRight` | socket/sendqueue.go:193-250 | when nothing can move but a timeout, a sleeping getter faces an open empty queue and a sleeping adder that is not stranded an open full one |
| `CondInvariant.StepKeepsInv` | socket/sendqueue.go:97-282 | every step, whatever becomes of a ring that a timeout has struck, keeps each sleeper in one place, the waiter counters exact and the promises to those on the wait lists |
| `CondQueue.StepEffect` | socket/sendqueue.go:176-282 | an item is accepted exactly by an add to an open queue with room that has not timed out, a get takes all there is, and nothing else changes the length; `Close` closes and the limit is the one set last |
| `CondQueue.SleepsExactly` | socket/sendqueue.go:176-250 | an add with a wait sleeps exactly when the queue is open and full and it has not timed out, one without a wait never; a get exactly when the queue is open and empty; notifications are sent exactly when somebody waits |
| `CondInvariant.NothingExcluded` | socket/sendqueue.go:121-157 | timeouts of timed waits and deliveries of wake-ups are never excluded by the model's own conditions |
| `CondLiveness.NobodyElseLeftBehind` | socket/sendqueue.go:97-282 | from every reachable state every schedule without new calls that does not panic settles, whatever timeouts strike and whatever becomes of the rings they strike, and then the only sleepers are getters of an open empty queue, adders to an open full one, and the stranded |
| `CondLiveness.InternalStepDescends` | socket/sendqueue.go:97-250 | every step that is neither a new call nor a panic, a timeout included, strictly descends in a well-founded order |
| `CondLiveness.CanFinish` | socket/sendqueue.go:97-250 | in every reachable state that is not settled some operation already begun can take a step |
| `WaitList.WaitList.PushWait` | socket/sendqueue.go:41-54 | the new waiter comes last on the doubly linked ring |
| `WaitList.WaitList.PopWait` | socket/sendqueue.go:56-65 | the oldest waiter's channel, whose node leaves the ring; nothing if there is none |
| `WaitList.WaitList.RemoveWait` | socket/sendqueue.go:67-77 | a waiter leaves the ring from any position; one no longer on it is left alone, so removing twice is removing once |
| `WaitList.WaitList.RacedPop` | socket/sendqueue.go:56-77 | on the nodes: when the next waiter times out between the reads and the writes of a pop, the head is left pointing to a node without links and without a channel, the following pop takes that for the end, and the channels of all others are out of reach |
| `SendQueue.SendQueue.Add` | socket/sendqueue.go:171-191 | accepted, at the end, exactly when open and below `fullSize`; refused otherwise with nothing changed |
| `SendQueue.SendQueue.Append` | socket/sendqueue.go:183-183 | append writes in place while there is room and moves to new storage otherwise, and the contents grow by the item either way |
| `SendQueue.SendQueue.Get` | socket/sendqueue.go:233-250 | the whole list becomes the batch and the storage handed in becomes the empty list |
| `SendQueue.SendQueue.Close` | socket/sendqueue.go:252-266 | only the first caller closes; every caller learns what is left |
| `SendQueue.Session.Offer` | socket/sendqueue.go:171-191 | for a consumer that hands back its last slice: a producer never touches the batch the consumer works on, and batches plus list remain the accepted items in order |
| `SendQueue.Session.Fetch` | socket/sendqueue.go:233-250 | the concatenated batches equal everything accepted so far, in order, and batch and list share no storage |
| `SendQueue.Session.Overwrite` | socket/aio/aiosocket.go:284-299 | the consumer may clear its batch without touching what producers append |
| `SendQueue.Session.Close` | socket/sendqueue.go:252-266 | closing keeps every accepted item |
| `SendProtocol.NoStrandedSend` | socket/aio/aiosocket.go:276-307 | in every interleaving at most one activity holds `sendLock`, the lock is taken exactly when one does, and while nobody has closed the socket a non-empty queue has a live holder, a sender about to try for the lock, or a completer about to look again |
| `SendProtocol.AcceptsExactly` | socket/aio/aiosocket.go:370-398 | over every run given with its steps: a `Send` is accepted exactly when the queue is open and below its limit, which never changes, and what was accepted is the items of those calls, in order |
| `SendProtocol.ClosedExactly` | socket/aio/aiosocket.go:439-567 | queue and socket are closed exactly once that has been asked for, by the user or after a failure |
| `SendProtocol.LockMovesExactly` | socket/aio/aiosocket.go:370-472 | the lock is taken by a compare-and-swap that finds it free and given up exactly by a holder that has seen the queue empty; that one looks again, and tries again exactly when it sees more |
| `SendProtocol.FreesExactly` | socket/aio/aiosocket.go:399-472 | as long as nobody gives up, a buffer goes back to the pool exactly when the activity that has it comes to rest |
| `SendProtocol.GivesUpExactly` | socket/aio/aiosocket.go:399-457 | a holder gives up exactly on a refused submission, an error, a timeout without a callback or on a closed socket, and a retry on a closed socket |
| `SendProtocol.SettledIsSent` | socket/aio/aiosocket.go:370-472 | when an open socket comes to rest its queue is empty and, unless bytes were spoiled, the wire carries the encodings of all accepted items in order |
| `SendLiveness.EverythingGetsSent` | socket/aio/aiosocket.go:276-472 | from every reachable state in which nothing was spoiled, every schedule of the operations already begun whose timeouts have written something and that spoils nothing settles; and if the socket is open then, the queue is empty and the wire carries the encodings of all accepted items in order |
| `SendLiveness.StepDescends` | socket/aio/aiosocket.go:276-472 | every such step strictly descends in a well-founded order |
| `SendLiveness.CanFinish` | socket/aio/aiosocket.go:276-472 | in every state that is not settled such a step exists, unless a retry is about to spoil bytes |
| `SendProtocol.BytesConserved` | socket/aio/aiosocket.go:399-472 | over every run in which no completer takes the lock again after another task was started, with or without an error callback, through partial sends, retries and failed encodes: bytes written, then those in hand, then the encodings of queued items, are the encodings of the accepted items in order; no buffer is shared or used after it was freed; and at rest all is written |
| `SendProtocol.SpoiledOnlyByCompleters` | socket/aio/aiosocket.go:399-457 | over every interleaving the same balance holds until a holder of the lock drops or replaces bytes, and no hold that `Send` took does |
| `SendProtocol.OwnBufferExactly` | socket/aio/aiosocket.go:276-281 | a completer about to take the lock again will go on with a buffer of its own if and only if no task was started since it gave the lock up; otherwise the buffer in `sendContext.b` has been freed or is another activity's |
| `SendProtocol.FillIsRightExactly` | socket/aio/aiosocket.go:283-300 | a batch is encoded as it should be, whatever freed buffers hold, if and only if the buffer has not been freed |
| `SendProtocol.RetryIsRightExactly` | socket/aio/aiosocket.go:439-457 | a timed-out write is retried with exactly the unsent bytes, whatever freed buffers hold, if and only if `sendContext.b` is the buffer that was being sent and it has not been freed |
| `SendProtocol.StaleRetryLoses` | socket/aio/aiosocket.go:399-457 | a run of two senders at the end of which the open socket is at rest and an accepted byte is neither written nor queued |
| `SendProtocol.FreedBufferGarbles` | socket/aio/aiosocket.go:399-437 | a run of two senders without an error callback, a timeout or an error at the end of which the open socket is at rest and something else was written than what was accepted |
| `SendProtocol.Fill` | socket/aio/aiosocket.go:286-299 | the encoding loop appends the encodings of the items that encode, in order, and nothing of those that fail |
| `SendProtocol.StepKeepsInv` | socket/aio/aiosocket.go:276-472 | every step keeps exclusivity, the no-stranding promise, the privacy of the buffer in a hold taken by `Send`, and byte conservation until bytes are spoiled |
| `SendProtocol.OwnerBalances` | socket/aio/aiosocket.go:276-307 | whatever the holder does (fetch, encode, partial or full write, failure), written plus in hand plus queued stays the same, unless it spoils bytes |
| `SendProtocol.OwnerKeepsBuffer` | socket/aio/aiosocket.go:276-281 | a holder whose buffer is the one in `sendContext.b` and not freed keeps that buffer through partial sends and retries and spoils nothing |
| `CloseProtocol.CloseNotifiedOnce` | socket/aio/aiosocket.go:511-567 | in every interleaving the close callback runs at most once and only with the winning `Close`'s reason; and once `Close` has finished, `ioCount` is 0 and nobody is inside `ioDone`, it has run |
| `CloseProtocol.NotifiesFirstReason` | socket/socketBase.go:183-249 | over every run given with its steps: the callback has not been called, or once, with the reason of the first call of `Close`; and it has been called if there was such a call, every operation begun is done and no thread is inside `Close` or `ioDone` |
| `CloseTiming.InFlightAtCallback` | socket/socketBase.go:183-249 | when a thread runs the callback, as many operations are in flight as were begun and not done since that thread, by its own decrement or load, saw none; so none are, unless one was begun since |
| `CloseTiming.HasSeenNone` | socket/socketBase.go:183-249 | whoever is on the way to the callback has itself seen the count at zero |
| `CloseTiming.CallbackBeforeDone` | socket/socketBase.go:183-249 | a run in which the callback is run while an operation begun before `Close` was called is in flight |
| `CloseProtocol.NeverTwice` | socket/socketBase.go:183-249 | once run, the callback is not run again and the winning reason does not change at any later point of the run |
| `CloseProtocol.StepKeepsInv` | socket/socketBase.go:183-249 | every step keeps: the reason is published before the flag, one thread at most is about to call back, and a raised flag with a zero count always leaves somebody who will try |
| `CloseProtocol.MoveHandsOver` | socket/socketBase.go:187-195 | the duties to raise the flag, to try and to call back stay with the thread that moves or have been met |
| `Bytes.PutUint32` | buffer/buffer.go:44-48 | four bytes whose big-endian value is the number |
| `Bytes.Uint32Injective` | buffer/buffer.go:268-276 | four bytes are recovered from their big-endian value |
| `Bytes.Buffer.AppendUint32` | buffer/buffer.go:106-111 | the buffer grows by the big-endian digits |
| `Bytes.Buffer.SetLen` | buffer/buffer.go:157-162 | keeps a prefix; a longer length changes nothing |
| `Bytes.Buffer.DropFirstNBytes` | buffer/buffer.go:165-175 | after the in-place copy exactly the bytes behind the first n are left; a count outside the buffer changes nothing |
| `Bytes.Reader.GetUint32` | buffer/buffer.go:268-276 | reads big-endian and advances, or returns 0 without moving when fewer than four bytes are left |
| `Bytes.Reader.GetBytes` | buffer/buffer.go:360-367 | the next bytes, cut to what is left; a negative size is a slice-bounds panic |
| `Frames.Encode` | example/pb/pb.go:50-86 | the buffer grows by exactly one frame or, for a failed marshal or too long data, not at all; an unregistered type is reported and yet written with id 0 |
| `Frames.EncodesExactly` | example/pb/pb.go:50-86 | each error is reported exactly for its cause, a data error before a missing registration, and without an error one frame is appended, eight bytes longer than the data |
| `Frames.Decode` | example/pb/pb.go:88-132 | the answer for a window of a buffer is that of the bytes in it, in all cases: header missing, too large, empty, incomplete, unregistered, slice-bounds panic, bad body, message |
| `Frames.AsksExactly` | example/pb/pb.go:88-132 | `Decode` asks for the header exactly when it is not all there, and for the whole frame, header included, exactly when the announced size is within the limit, not zero and not all there; a size above the limit is refused at once, however few bytes have come, and so is an empty frame |
| `Frames.CutsExactly` | example/pb/pb.go:88-132 | of a complete frame within the limit exactly that frame is cut off, and its body unmarshalled under the id in front of it; an unregistered id, and nothing else, is refused as such |
| `Frames.RoundTrip` | example/pb/pb.go:50-132 | decoding a frame in front of any bytes gives back the message and its size if and only if data plus id fit the limit and the 32-bit size field |
| `Frames.LimitMismatch` | example/pb/pb.go:67-101 | an input that encodes without error under a limit and whose frame is refused under the same limit |
| `Frames.EncodedDecodes` | example/pb/pb.go:50-132 | what `Encode` appends for a message it accepts, in front of any bytes, decodes to that message if and only if data plus id fit the limit and the 32-bit size field |
| `Frames.PanicsExactly` | example/pb/pb.go:88-132 | `Decode` panics if and only if a complete frame announces 1 to 3 bytes within the limit and the type id read behind the header, 0 if fewer than four bytes follow, is registered |
| `Frames.ShortFramePanics` | example/pb/pb.go:112-122 | two inputs that make `Decode` panic, one of them of five bytes |
| `Frames.ReportedYetWritten` | example/pb/pb.go:50-86 | `Encode` writes bytes although it reports an error if and only if the type is unregistered and the data within the limit |
| `Frames.DecodedStable` | example/pb/pb.go:88-132 | more bytes never change a complete message nor revive refused ones |
| `Frames.ParseResumes` | example/pb/pb.go:88-132 | parsing a stream in two parts gives what parsing it at once gives |
| `Frames.ParseInvertsEncode` | example/pb/pb.go:50-132 | parsing the frames of any sequence of messages gives back the messages, in order, with nothing left over |
| `PowerOfTwo.IsPow2Exact` | example/codec/pb.go:9-11 | the bit test accepts exactly the powers of two |
| `PowerOfTwo.SizeofPow2Least` | example/codec/pb.go:13-24 | the result holds the size and exceeds no power of two that does; it is a power of two if and only if the size is one or size - 1 has no 32 zero bits in a row under its leading bit, which up to 2^32 is always so |
| `PowerOfTwo.NotAPowerOfTwo` | example/codec/pb.go:13-24 | sizes 2^n + 1 with n at least 32 do not get a power of two |
| `PowerOfTwo.FilledExactly` | example/codec/pb.go:17-23 | j assignments set every bit under the leading one if and only if no 2^j positions there are all zero |
| `PowerOfTwo.SmearedLow` | example/codec/pb.go:18-22 | after j assignments the low bit tells whether any of the low 2^j bits was set |
| `Receiver.PbReceiver.Unpack` | example/codec/pb.go:65-90 | takes the first complete message off the unread bytes, or leaves them as they are with room for more; once the header of the pending frame is there, with room for the size it announces plus the header; the buffer is replaced only if it is too short for that, by one of the next size of `sizeofPow2` |
| `Receiver.PbReceiver.MakeRoom` | example/codec/pb.go:65-90 | room for a frame of a given size, in place exactly if the buffer is long enough, with the unread bytes kept |
| `Receiver.PbReceiver.Compact` | example/codec/pb.go:77-86 | moving the unread bytes to the front, in place or into a larger buffer, keeps them |
| `Receiver.PbReceiver.Receive` | example/codec/pb.go:57-63 | a read into the offered room appends its bytes to the unread ones |
| `Receiver.PbReceiver.Advance` | example/codec/pb.go:65-90 | each call takes the parse of the unread bytes one message further, or has room for more, or has stopped |
| `Receiver.PbReceiver.Drain` | socket/aio/aiosocket.go:253-267 | the delivery loop delivers exactly the messages complete in the unread bytes and keeps the rest |
| `Receiver.PbReceiver.OnRecvComplete` | socket/aio/aiosocket.go:252-267 | a completed read delivers what the unread bytes and the new ones together say |
| `Receiver.PbReceiver.Pump` | example/codec/pb.go:57-90 | however a byte stream is cut into reads that fit the offered buffer, what is delivered, and how it ends, is what the whole stream says |
| `Receiver.Deliver` | example/codec/pb.go:43-90 | chunk independence end to end: a new receiver fed the frames of any messages, in any cutting, delivers exactly those messages in order |
| `HandlerOrder.Linearizable` | event/eventHandler.go:189-223 | over every interleaving given with its steps, calls made by handlers included: the invocations so far are the first of those to be made for the operations in the order they came in, each emit calling the handlers whose registration came in before it and stands, once each, in the order of their registrations; and whenever nobody emits nothing is pending, all these invocations have been made and the list is the handlers whose registration stands |
| `HandlerOrder.CallsInOrder` | event/eventHandler.go:181-187 | of two calls of one emit the earlier is of the handler whose registration came in earlier |
| `HandlerOrder.ListIsStanding` | event/eventHandler.go:181-210 | the list of the sequential machine is the registrations with nothing behind them that takes the handler out, in order of arrival |
| `HandlerOrder.EmitEnds` | event/eventHandler.go:225-289 | from every reachable state, every schedule in which handlers return and no new call comes in reaches a point where nobody emits, with all invocations made that were to be made |
| `HandlerOrder.InternalStepDescends` | event/eventHandler.go:225-289 | every step of the emitting goroutine strictly descends in a well-founded order and leaves what came in alone |
| `HandlerOrder.CanFinish` | event/eventHandler.go:225-289 | while somebody emits such a step exists |
| `HandlerSlot.FollowsSequential` | event/eventHandler.go:189-223 | over every interleaving the concurrent slot follows the sequential machine that applies the operations in the order they arrived |
| `HandlerSlot.EmitAdvances` | event/eventHandler.go:271-282 | each return of a handler takes the emit one handler further through the list at its start, with once-handlers unlinked on the way, or completes it |
| `HandlerSlot.OnceMeansOnce` | event/eventHandler.go:271-282 | in every run, under re-entrant emits, a once-handler is invoked at most once |
| `HandlerSlot.AtMostOnce` | event/eventHandler.go:181-210 | a handle is in the list at most once, and for a once-handler list and invocations together mention it at most once |
| `HandlerSlot.RemoveTwice` | event/eventHandler.go:202-223 | removing a handle twice is removing it once |
| `HandlerSlot.RemoveMissesExactly` | event/eventHandler.go:103-111 | at every point of every run, after `EventHandler.Remove` the handle will still be in the list once all pending operations are done, if and only if its registration is pending with no removal of it behind and, for a once-handler, no emit behind |
| `HandlerSlot.ListExactly` | event/eventHandler.go:181-223 | the list holds exactly the handles registered with nothing behind the registration that takes them out again |
| `HandlerSlot.PendingRemoveIsMissed` | event/eventHandler.go:103-111 | a run in which a handle registered during an emit and removed before it ends will be in the list nevertheless |
| `HandlerSlot.StepKeepsInv` | event/eventHandler.go:189-289 | every step keeps the pending ring equal to the operations not yet taken up, and the list and invocations equal to the sequential machine's at that point of the emit |
| `HandlerList.Slot.DoRegister` | event/eventHandler.go:181-187 | the handle comes last in the doubly linked list, which stays well formed, and carries the slot's version |
| `HandlerList.Slot.DoRemove` | event/eventHandler.go:202-210 | a registered handle leaves the well-formed list from any position; one that is not registered is left alone |
| `HandlerList.Unlink` | event/eventHandler.go:204-207 | taking a handle out from between its neighbours leaves the rest linked both ways |
| `EventRegistry.ClearedHandleIsInert` | event/eventHandler.go:77-111 | from the moment a handle's slot is cleared or the handle removed, in every later state of the run removing it changes nothing, whatever new slots the event gets |
| `EventRegistry.FindsLive` | event/eventHandler.go:77-151 | over every run given with its steps: an emit of an event finds exactly the handles registered for it since it was last cleared and not removed since, in order, whatever handles of cleared events are removed meanwhile |
| `EventRegistry.BecomesStale` | event/eventHandler.go:103-151 | clearing an event makes all its handles stale, removing a handle makes it stale, and no removal touches any slot but the handle's own |
| `EventRegistry.StaleStays` | event/eventHandler.go:77-93 | a stale handle never becomes current again, because versions are not reused |
| `GoPool.WorkConserved` | gopool/gopool.go:130-242 | in every reachable state an accepted task is in exactly one place, and while the pool is open one waits in the queue only if no routine is idle and all of `MaxRoutineCount` are busy |
| `GoPool.CountsRespectOptions` | gopool/gopool.go:166-242 | before close, idle plus busy routines are `routineCount`, which respects the maximum, or the reserve when there is no maximum; and routines idle only up to the reserve |
| `GoPool.SubmitExactly` | gopool/gopool.go:198-242 | in every reachable state: an idle routine gets the task; else, with all of a maximum busy, it is queued behind the others or refused at the limit; without a maximum and with the reserve of routines reached it runs on its own; and otherwise, only then, a routine is started |
| `GoPool.AskExactly` | gopool/gopool.go:166-196 | in every reachable state a routine done with a task ends once the pool is closed; else takes the task accepted first of those queued; else ends if routines exceed the reserve, and waits otherwise |
| `GoPool.MaximumHolds` | gopool/gopool.go:214-242 | under a maximum no task ever runs outside the counted routines, and before close at most that many routines are at work |
| `GoPool.CloseExactly` | gopool/gopool.go:244-253 | closing tells exactly the idle routines, each once, and leaves the tasks alone; from then on no routine waits |
| `GoPool.FinishedOnlyByReturning` | gopool/gopool.go:18-33 | a task is finished exactly by the return of the routine that carries it or of the goroutine of its own, and stays so |
| `PoolLiveness.EveryTaskRuns` | gopool/gopool.go:18-253 | from every reachable state, every schedule in which tasks return and routines go on reaches a point where nobody works, and by then every accepted task has finished, except, where the pool was closed, those in the queue |
| `PoolLiveness.InternalStepDescends` | gopool/gopool.go:130-253 | every step that is neither a new task nor a close strictly descends in a well-founded order |
| `PoolLiveness.CanFinish` | gopool/gopool.go:130-253 | while somebody works such a step exists |
| `GoPool.RefusedExactly` | gopool/gopool.go:214-242 | in every reachable state the queue respects `MaxQueueSize`, and a task is refused if and only if the pool is closed, or all of `MaxRoutineCount` are busy and the queue is at its limit |
| `GoPool.ClosesEachIdleOnce` | gopool/gopool.go:244-253 | no channel is closed twice, and none whose routine was handed a task |
| `GoPool.SettledIsDone` | gopool/gopool.go:18-33 | when no routine works, every accepted task has finished except exactly those left in the queue by a close |
| `GoPool.QueueFrozenByClose` | gopool/gopool.go:166-170 | after close the task queue never changes, so what was queued then never runs |
| `GoPool.TaskLeftBehind` | gopool/gopool.go:166-253 | a run with one routine at whose end nobody works and an accepted task is still in the queue of the closed pool |
| `GoPool.StepKeepsInv` | gopool/gopool.go:166-253 | every step keeps the places of tasks, the idle ring, the closed channels and the accounts |
| `GoPool.NothingExcluded` | gopool/gopool.go:166-242 | the conditions that make steps well defined hold in every reachable state |
| `GoPool.Pool.GoLocked` | gopool/gopool.go:198-242 | on linked rings, under the lock: the decision and the new state are those the machine uses |
| `GoPool.Pool.PutRoutine` | gopool/gopool.go:166-196 | likewise for a routine that comes back: the next task, an exit, or a place in the idle ring |
| `GoPool.Pool.DrainIdle` | gopool/gopool.go:249-251 | the loop takes every idle routine off the ring, each once, in order |
| `GoPool.Pool.Close` | gopool/gopool.go:244-253 | closes the channels of exactly the idle routines, and none on a second call |
| `RpcClient.CallPartition` | rpc/client.go:80-212 | in every state reached without a panic, removals during a disconnect included: an issued number is pending and indexed, or answered by exactly one handler invocation, or retracted, or never was a call; no channel entry is empty; each pending call is chained in exactly one place, under its channel or in a chain a disconnect took |
| `RpcHistory.FirstEventDecides` | rpc/client.go:80-212 | over every run given with its steps and without a panic: what becomes of a call is decided by the first response, timeout, failed send or disconnect that reaches it, and later ones change nothing; its handler is invoked once unless that was a failed send, and never before |
| `RpcHistory.DisconnectTakesExactly` | rpc/client.go:133-139 | a disconnect takes exactly the pending calls made on its channel and not taken by an earlier one, and touches no other call |
| `RpcHistory.LateIsHarmless` | rpc/client.go:102-131 | what arrives for a number that is not pending changes nothing |
| `RpcClient.IndexesAgree` | rpc/client.go:71-116 | with every disconnect done the map by number and the chains by channel describe the same calls |
| `RpcClient.SettlesPending` | rpc/client.go:80-131 | a response, timeout or failed send settles a pending call, wherever it is chained, with the outcome that belongs to the event, if and only if its channel has an entry; else it panics |
| `RpcClient.PanicsExactly` | rpc/client.go:102-158 | a step panics if and only if it removes, by number, a call that a disconnect took and whose channel has no entry at that moment, or it is the step of a disconnect's loop that has followed a nil link |
| `RpcClient.DoomedExactly` | rpc/client.go:141-157 | a disconnect's loop comes to follow a nil link if and only if the call it will go to by a link already read is removed by number; nothing else does it and nothing undoes it |
| `RpcClient.LoopGoesOn` | rpc/client.go:141-157 | the loop's own step is always possible, has less to do afterwards, and panics only on the way to a nil link |
| `RpcClient.DisconnectSettlesAll` | rpc/client.go:133-158 | once the loop of a disconnect has finished, every call it took has been settled, by the loop or by number meanwhile, and each answered one had its handler invoked once |
| `RpcClient.ResponseDuringDisconnect` | rpc/client.go:102-139 | a run in which a response between the two halves of a disconnect finds no entry |
| `RpcClient.HarmlessResponse` | rpc/client.go:102-158 | a run in which a response during a disconnect is harmless, a new call having made a new entry: both calls are answered once and the loop ends |
| `RpcClient.ResponseForCapturedCall` | rpc/client.go:102-158 | a run in which the response is for the call whose link the loop has read, and the loop panics |
| `RpcClient.StepKeepsInv` | rpc/client.go:80-212 | every step keeps both indexes, the chains being drained, the positions of their loops and the record of invocations consistent |
| `CallChain.ChannelCalls.Add` | rpc/client.go:52-60 | the call comes first in the ring, though the sentinel's back link is not kept up |
| `CallChain.ChannelCalls.Remove` | rpc/client.go:62-69 | a call leaves the ring from any position |
| `CallChain.ChannelCalls.Empty` | rpc/client.go:48-50 | the test on the sentinel tells whether any call is left |
| `RpcServer.RepliesAccounted` | rpc/server.go:20-48 | in every reachable state a request has caused at most one response, none if it wants none or was dropped; when no reply is in progress exactly one if it wants one and was replied to, and `pendingCount` is the number of requests not yet answered |
| `RpcServer.AnsweredExactly` | rpc/server.go:20-48 | over every run given with its steps, when no reply is in progress: a request has had one response if it came in wanting one and the first call for it was a `Reply`, and none otherwise; `pendingCount` is the number of requests for which there was no call yet |
| `RpcServer.StepKeepsInv` | rpc/server.go:20-164 | every step keeps `pendingCount` equal to unanswered requests plus answers in progress, and every missing response in the hands of one thread |
| `Timer.TimerSafe` | timer/timer.go:25-69 | in every interleaving of firings, cancels and resets callbacks never overlap, a one-shot callback starts at most once, and never if a `Cancel` returned true |
| `TimerHistory.RunsOnceUnlessCancelled` | timer/timer.go:25-61 | over every run given with its steps, a one-shot timer at rest has run its callback exactly once if no `Cancel` was answered with true, and not at all if one was |
| `TimerHistory.CancelWinsExactly` | timer/timer.go:53-61 | a `Cancel` that returns true found no callback running; one of a one-shot timer returns true if and only if it is the first and no callback has begun |
| `TimerHistory.ResetsExactly` | timer/timer.go:63-69 | `ResetFireTime` acts exactly on a one-shot timer whose callback has not begun and that nobody has tried to cancel, and then arms the runtime timer in t and nothing else |
| `Timer.NoStartAfterCancel` | timer/timer.go:25-61 | once any `Cancel` has returned, no callback starts at any later point of the run |
| `Timer.AliveUntilCancelled` | timer/timer.go:25-51 | until a `Cancel` begins, a runtime timer is armed or a goroutine is on its way to the callback, in it, or about to arm the next one, unless it is a one-shot timer whose callback has run |
| `Timer.RemovedIsDisarmed` | timer/timer.go:32-61 | whatever runtime timer of a removed repeating timer is armed, somebody will yet stop it, or it is a later one than the one in t; with nobody at work only a later one than the one in t is; unless a `Cancel` that lost its compare-and-swap stored Removed over Waiting |
| `Timer.LeftArmedExactly` | timer/timer.go:53-61 | with nobody else at work, a `Cancel` of a repeating timer that won its compare-and-swap leaves it armed if and only if the armed runtime timer is a later one than the one in t; one that lost it stops nothing, and leaves the timer armed whenever the status is Waiting again |
| `Timer.PanicsExactly` | timer/timer.go:53-93 | a step panics if and only if a `Cancel` that won its compare-and-swap loads t before anything was stored there, which takes a repeating timer whose callback has started before `newTimer` returned |
| `Timer.LostCancelLeavesItArmed` | timer/timer.go:25-61 | a run that ends at rest with a returned `Cancel` and an armed runtime timer |
| `Timer.LateStoreLeavesItArmed` | timer/timer.go:32-61 | a run that ends so although the `Cancel` won its compare-and-swap |
| `Timer.CancelBeforeStorePanics` | timer/timer.go:25-93 | a run that ends in that panic: the first callback has returned, `newTimer` has not stored the runtime timer, and a `Cancel` loads it |
| `Timer.StepKeepsInv` | timer/timer.go:25-69 | every step keeps the status word consistent with the callback running, the callbacks started and the cancels returned, and somebody in charge of the runtime timer that is armed |
| `BufferPool.Index` | buffer/pool.go:140-152 | the least class that holds n bytes, the last one if none does; 0 for sizes up to 64 |
| `BufferPool.Calibrate` | buffer/pool.go:82-119 | the default size is that of a most used class; the maximum is the largest size among the most used classes up to the first with which more than 95 percent of the calls are reached, no more, and the classes up to it account for at least 95 percent |
| `BufferPool.CoveredPermutes` | buffer/pool.go:97-113 | the calls covered by the classes up to a size do not depend on the order of the table |
| `BufferPool.SortedTable` | buffer/pool.go:97-100 | in the sorted table every entry is a class and the first is a most used one |
| `BufferPool.Put` | buffer/pool.go:68-80 | exactly the least class that holds the buffer is counted, calibration is due above the threshold, and the buffer is kept unless it exceeds the maximum |

## Left out

- Pooled nodes and contexts (`sync.Pool`) are fresh objects; recycling of list items, waiters and call contexts is not modelled, so a waiter that times out cannot meet a node already reused by another.
- The local cache of free list items in gopool/gopool.go is not modelled, only the task ring and its count.
- SendProtocol: buffers taken from the pool are fresh, and a freed buffer may hold anything at any moment; what a socket that goes on using a freed buffer does to its new owner is not modelled. The transport reports true byte counts and completes without error only after writing everything.
- SendLiveness.EverythingGetsSent: a timeout that has written nothing may be retried for ever; such schedules are left out.
- SendProtocol.FreesExactly: the buffer of a holder that gives up is freed as well; it is not followed, since that holder never gives the lock back.
- SendProtocol: `sendOverChan`, `CloseWrite`, `SendWithTimeout` and `DirectSend` are not modelled.
- CloseProtocol: the delayed `CloseWrite` and `ShutdownRead` inside `Close` are not modelled; they do not touch the words the protocol uses. ioDone is called once per addIO.
- CondQueue: a ring that a timeout has struck may wake any of those left, end early or panic; which of these the lines of the code can do is in RingStranding, RingFate and RingFailures, and that they can do nothing else to those left in RingSeen. The two levels are not composed into one machine.
- RingStranding.StrandsExactly, RingFate.PanicsExactly: speak of points before any waiter has got past the test of its own removal. The four reads of that test are one step, and so is the reading of a channel; nodes are fresh.
- CondQueue: works on the length of the list; its contents are in `SendQueue.Session`.
- SendQueue.SendQueue.Get: states what happens once its wait is over; the wait is in CondQueue.
- HandlerSlot, RpcClient, RpcServer, EventQueue and Timer are step machines on values, because the interleavings are the point; their linked lists are classes of their own (HandlerList, CallChain, Ring), and the two maps of the RPC client are maps.
- HandlerSlot: callbacks return; panics are recovered by the library and count as returning. `EmitToEventQueue` is a post of `Emit`.
- EventRegistry: a registration takes effect at once; pending registrations are in HandlerSlot.
- RpcClient: a send may fail, and a response or timeout arrive, at any moment for any number; a panic ends the run; codecs and channels are not modelled, and sequence numbers do not wrap at 2^64.
- RpcServer: counts calls of `reply`; a response that cannot be encoded or sent is counted as sent. `pendingCount` does not wrap.
- Timer: loading the runtime timer from t and stopping or resetting it is one step; durations are not modelled, an armed runtime timer may fire at any moment.
- BufferPool.Calibrate: the result of sort.Sort is a parameter, required to be some descending permutation; 0.95 of the count is taken exactly instead of in floating point; the counters are read and reset as one.
- Frames: protobuf and the type registry are parameters of a codec; the round trip assumes that unmarshal inverts marshal on the message at hand.
- PowerOfTwo: sizes are natural numbers, without the overflow of Go's int above 2^62.
- GoPool: tasks return and are not nil.
- The 16- and 64-bit appends and getters of buffer/buffer.go and the Check variants of the getters would only repeat the 32-bit ones.
- The send loop of socket/streamSocket.go, websocket sessions, connectors, listeners, goaio and deadlines are not modelled.
- util (heap, flags, notifier, hooks), golog, the SOCKS5 demo, the benchmarks and example/aio/aio_sharebuffer.go are not modelled.
