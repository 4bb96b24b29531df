# What the librabbit queues, transports and codecs guarantee

librabbit (namespace `pump`) is a callback network library built on its own lock-free containers. This project models
its concurrent protocols and its sequential cores in Dafny and proves what they promise their callers.

The concurrent parts (queues, semaphore, send protocol, timers) are state machines. One step is one atomic operation,
queue operation or system call of one thread. A run is any list of steps, so a statement about all runs is a statement
about all interleavings. Memory is sequentially consistent. Answers of the operating system are arguments of the
steps, and fields marked `History` record what happened, for the statements alone. The sequential parts are classes
and methods over arrays and fields, proved against functions of what went in.

| file | what it covers |
|---|---|
| `M2mQueue`, `M2mAlone`, `M2mProducers` | the growable lock-free ring queue, undisturbed operations on it, and how many producers it stands |
| `O2oQueue`, `O2oAlone`, `PowerOfTwo` | the single-producer single-consumer queue of ring blocks, undisturbed operations on it, and its masks |
| `LightSemaphore`, `BlockingQueue` | the semaphore with a user-space counter, and the blocking queue over it and an abstract queue |
| `BlockingThreads`, `BlockingM2m`, `BlockingO2o`, `BlockingCases` | the blocking queue over either real queue, as refinements of that, and a run that is none |
| `TcpSend`, `TcpStop`, `TcpDrain`, `TcpCases`, `TcpHang` | sending on and stopping a TCP transport, what a stop announces, that nothing accepted gets stuck, the runs in which it goes wrong, and when the end is never announced |
| `TimerProtocol`, `TimerEarly`, `TimerRepeat`, `DeadlineMap` | a timer's life across threads and the engine's loop, when its callback can come, starts and repetition, and the engine's map of deadlines |
| `Sha1Spec`, `Sha1Transform`, `Sha1Stream`, `Sha1Example` | SHA-1 against FIPS 180-4, and its example worked through |
| `ChunkedBody`, `ChunkedStream` | the incremental body parser against section 7.1 of RFC 9112 |
| `IoBuffer` | the growing byte buffer |
| `Base64`, `Base64Codec`, `Base64Example` | base 64 against section 4 of RFC 4648, and test vectors of its section 10 |
| `HeapSort` | heap sort, and the split of quick sort |
| `Modular`, `Counting`, `Wrappers` | arithmetic, counting and option helpers |

## What turned out false, and when it is true

- Growable queue: the exchange of `head_` compares the pointer only. If `head_` goes once round the ring and comes
  back between the loads and the exchange, the exchange succeeds on stale reads and `head_` reaches `tail_`. The
  invariant survives an exchange if and only if what was read is still true at that moment (`M2mQueue.ClaimIffFresh`),
  in particular if `head_` has not moved. For a queue of any size, with one consumer, some run brings `head_` to
  `tail_` if and only if there are two producers or more (`M2mProducers.HeadReachesTailIff`); with one, every run is as
  it should be (`M2mProducers.OneProducerFifo`).
- Growable queue with several consumers: `ready` has no lap number, so a flag that a slow pop has yet to reset can be
  taken for a published node (`M2mAlone.StaleReadyIsPopped`). The invariant survives an exchange of `tail_` if and only
  if the node is published (`M2mQueue.PopIffPublished`). With one consumer, as the library uses the queue, nothing
  needs to be supposed about `tail_`.
- Blocking queue over the growable queue: with two dequeuers a stale flag of that kind makes a dequeue return a value
  returned before, tokens and all (`BlockingCases.TwoDequeuersReturnOneValue`). A step of the inner pop keeps the
  invariant if and only if its exchange of `tail_` is fresh in the sense above (`BlockingM2m.PopKeepsIff`). With one
  dequeuer, or over the single-producer queue, nothing of the kind is supposed (`BlockingM2m.OneDequeuer`,
  `BlockingO2o.EveryRun`).
- Send token: lines 317 and 432 of `tcp_transport.cpp` compare the old pending size with a second read of the volatile
  `last_send_iob_size_`. Reading it first is right in all runs. Reading it behind the `fetch_sub` lets a send come in
  between, take the token and store the size of its own buffer; if that is smaller, the poller goes on as if it had the
  token, and the pop or an assertion of `__send_once` fails without any fault. A comparison is right if and only if it
  is not the case that nothing was left and the size read is smaller (`TcpSend.CompareIff`), and sending a list of
  buffers can end in that failure if and only if one of them is shorter than the one before it (`TcpCases.AbortsIff`).
- Graceful stop: the poller leaves the send event through the exchange to `stopped` (`tcp_transport.cpp:354`) also when
  a send and a `stop` came in between, so `stopped_cb` can run and the socket be shut down with accepted bytes unsent,
  pending (`TcpCases.StopCanCutOff`) or not even counted yet (`TcpCases.StopCanCutOffUncounted`). Everything accepted
  is on the wire at that exchange if and only if nothing is pending and no send stands between pushing its buffer and
  counting it or, while a buffer just sent is yet to be subtracted, nothing is listed (`TcpSend.StoppedWithAllIff`).
  Once a graceful stop has waited for the sends under way, that can still happen if and only if bytes are pending while
  the poller stands at that exchange or is about to come there from a comparison that found nothing left
  (`TcpStop.GracefulCutsOffIff`); the event a stop posts itself never comes too early (`TcpStop.EventMeansAllSent`).
- Stop of a disconnecting transport: the comment in lines 127-130 promises `stopped_cb`. It can fail to come: when the
  reader has found the peer gone and a `stop` gets in before its next exchange, nobody looks again
  (`TcpHang.LateStopCanHang`). Nor does it come when a graceful stop waits for a send whose socket fails
  (`TcpHang.GracefulStopCanHang`). It never comes if and only if nobody is on the way to it, which is read off the
  state (`TcpHang.NeverStopsIff`).
- Timers: the engine reads the clock (`engine.cpp:116` or 125) before it empties its queue of new timers (129-138), so
  a timer started in between gets a deadline counted from before its start and its callback can come early
  (`TimerEarly.CallbackCanBeEarly`). Some interleaving makes the callback of an armed timer early if and only if a
  timeout has not passed since its start and it has been queued with a reading older than that, or is still in the
  queue of new timers or on its way into it, the engine is emptying that queue with such a reading, and there are fewer
  timers in front of it than the engine still takes in this round (`TimerEarly.EarlyIff`). Everywhere else in its loop
  the engine reads the clock again first.
- Chunked bodies: a feed that ends inside a chunk's number takes the digits there are for all of it
  (`ChunkedStream.CutNumberFails`). One feed leaves the parser where it should be if and only if it does not end there
  (`ChunkedStream.Feed`).
- Base 64: the decoded length computed beforehand is right if and only if there is no more padding than belongs there
  (`Base64.LengthIsTrueIff`).

## Model

| member | source | states |
|---|---|---|
| M2mQueue.InitList | include/pump/toolkit/freelock_m2m_queue.h:223-264 | initialisation links every node into one cycle, head first and tail last; capacity is the least number of whole blocks that holds the size asked for |
| M2mQueue.InitOk | include/pump/toolkit/freelock_m2m_queue.h:223-264 | a queue just made satisfies the invariant, for any numbers of producers and consumers |
| M2mQueue.StepKeeps | include/pump/toolkit/freelock_m2m_queue.h:117-202 | every atomic step of every thread keeps the invariant (one cycle, claimed nodes in claim order, published nodes hold their claim's value, others have an owner still writing), an exchange of `head_` or `tail_` that succeeds if what was read before it is still true |
| M2mQueue.SpliceRing | include/pump/toolkit/freelock_m2m_queue.h:286-294 | splicing in a block leaves one cycle through every node, and the nodes up to the head where they were |
| M2mQueue.RingIsWhole | include/pump/toolkit/freelock_m2m_queue.h:223-300 | in every state of a run each node is on the ring exactly once, and `capacity_` is its length less a block for every extension still finishing |
| M2mQueue.CapacityKeeps | include/pump/toolkit/freelock_m2m_queue.h:279-299 | `capacity_` and the ring stay in step through every operation of an extension |
| M2mQueue.ClaimIffFresh | include/pump/toolkit/freelock_m2m_queue.h:129-136 | a successful exchange of `head_` keeps the invariant if and only if the reads before it still hold |
| M2mQueue.UnmovedIsFresh | include/pump/toolkit/freelock_m2m_queue.h:129-136 | they still hold whenever `head_` has not moved since its load |
| M2mQueue.PopIffPublished | include/pump/toolkit/freelock_m2m_queue.h:173-186 | a successful exchange of `tail_` keeps the invariant if and only if it moves to the next node and that node is published |
| M2mQueue.Fifo | include/pump/toolkit/freelock_m2m_queue.h:117-202 | one consumer, any number of producers, any interleaving and any extensions: the values popped are a prefix of the values in claim order, none lost or repeated, and `tail_` is never `head_` |
| M2mQueue.UnmovedRunIsFresh | include/pump/toolkit/freelock_m2m_queue.h:129-136 | runs in which no exchange succeeds on a `head_` that moved away and came back are all covered by Fifo |
| M2mQueue.ManyConsumers | include/pump/toolkit/freelock_m2m_queue.h:164-202 | any number of consumers, every run in which the exchanges that succeed meet the conditions of ClaimIffFresh and PopIffPublished: each claimed value is returned by exactly the pop that claimed it |
| M2mQueue.UnmovedRunIsAdmissible | include/pump/toolkit/freelock_m2m_queue.h:129-186 | so do all runs in which no exchange succeeds on a pointer that moved away and came back and no flag read is left over from an unfinished pop |
| M2mQueue.FalseIffUnpublished | include/pump/toolkit/freelock_m2m_queue.h:165-178 | one consumer: a pop gives up if and only if the next node is not published, and a value claimed but not published has a push still under way |
| M2mQueue.ClaimedNodeIsUnready | include/pump/toolkit/freelock_m2m_queue.h:144-156 | when no pop is in the middle of taking a value, a claimed node is free to be written at once |
| M2mQueue.QuietContents | include/pump/toolkit/freelock_m2m_queue.h:117-202 | once no push is under way, every value claimed and not popped lies ready in its node, in claim order |
| M2mAlone.PushAppends | include/pump/toolkit/freelock_m2m_queue.h:117-159 | a push that nobody disturbs appends its value, full queue or not |
| M2mAlone.PopReturnsOldest | include/pump/toolkit/freelock_m2m_queue.h:165-202 | a pop that nobody disturbs returns the oldest value, or false if and only if there is none |
| M2mAlone.UndisturbedGrow | include/pump/toolkit/freelock_m2m_queue.h:269-300 | a push on a full queue grows it by one block and loses nothing |
| M2mProducers.OneProducerFifo | include/pump/toolkit/freelock_m2m_queue.h:117-202 | with one producer and one consumer Fifo holds of every run, without any condition |
| M2mProducers.HeadReachesTailIff | include/pump/toolkit/freelock_m2m_queue.h:129-136 | a queue of any size with one consumer has a run that brings `head_` to `tail_`, through a reused pointer, if and only if it has two producers or more |
| M2mAlone.StaleReadyIsPopped | include/pump/toolkit/freelock_m2m_queue.h:173-199 | counterexample: with two consumers a pop returns another value than the one claimed in its turn |
| O2oQueue.StepKeeps | include/pump/toolkit/freelock_o2o_queue.h:128-281 | every access of either thread keeps the invariant: blocks in one ring, cached indices conservative, slots between the indices hold what was put there |
| O2oQueue.StepRefines | include/pump/toolkit/freelock_o2o_queue.h:128-281 | every step appends one value to the abstract queue, takes its first one, or leaves it alone |
| O2oQueue.Fifo | include/pump/toolkit/freelock_o2o_queue.h:128-281 | in every interleaving what was pushed is what was popped followed by what the blocks hold, and `capacity_` counts the slots |
| O2oQueue.ReadFinds | include/pump/toolkit/freelock_o2o_queue.h:240-281 | the read that follows finds the oldest value also after moving to a block without looking |
| O2oQueue.RoomIsThere | include/pump/toolkit/freelock_o2o_queue.h:128-150 | the producer's test of a cached head finds room if and only if there is room behind what it knows |
| O2oQueue.ItemIsThere | include/pump/toolkit/freelock_o2o_queue.h:215-240 | the consumer's test finds an item if and only if one has been put in since |
| O2oQueue.LookSeesEmptiness | include/pump/toolkit/freelock_o2o_queue.h:215-240 | what the consumer sees when it loads the tail is whether the abstract queue is empty |
| O2oQueue.FalseMeansEmpty | include/pump/toolkit/freelock_o2o_queue.h:215-281 | a pop returns false only if the queue was empty at a moment within it |
| O2oAlone.PushAppends | include/pump/toolkit/freelock_o2o_queue.h:128-209 | a push that the consumer does not disturb, wherever it stands, finishes, appends its value, and raises `capacity_` by one block if and only if the tail block is full and the next one is the head block |
| O2oAlone.PopTakesOldest | include/pump/toolkit/freelock_o2o_queue.h:215-281 | a pop that the producer does not disturb, wherever it stands, finishes, takes the oldest value, and takes none if and only if there is none |
| O2oQueue.InitOk | include/pump/toolkit/freelock_o2o_queue.h:308-344 | a queue just made satisfies the invariant and is empty |
| PowerOfTwo.CeilToPowerOfTwo | src/utils.cpp:79-90 | the least power of two not below the argument |
| PowerOfTwo.MaskIsRemainder | include/pump/toolkit/freelock_o2o_queue.h:78-80 | on 32-bit words, masking with what CeilToPowerOfTwo gives less one is the remainder by it |
| PowerOfTwo.NextIndex | include/pump/toolkit/freelock_o2o_queue.h:134 | the masked successor of an index is the wrapped one that O2oQueue computes with a remainder |
| LightSemaphore.StepKeeps | include/pump/toolkit/semaphore.h:159-259 | every operation of every thread keeps both balances below |
| LightSemaphore.Conservation | include/pump/toolkit/semaphore.h:159-259 | initial count plus signalled equals successful waits plus tokens in the counter, kernel permits and permits owed; a negative counter counts the waiters without a permit |
| LightSemaphore.NoLostWakeUp | include/pump/toolkit/semaphore.h:230-258 | a timed-out waiter always has a way out: a negative counter, or a permit there or owed |
| LightSemaphore.TimedOutLeaves | include/pump/toolkit/semaphore.h:240-258 | two undisturbed steps of its retry loop end the wait unless the permit is still owed |
| LightSemaphore.SignalReleases | include/pump/toolkit/semaphore.h:190-197 | a signal owes a permit for every waiter for whom none is there or owed, as far as its count goes, and no more |
| LightSemaphore.TakesAlone | include/pump/toolkit/semaphore.h:159-185 | a wait of any kind that nobody disturbs while the counter is positive returns true and lowers it by one |
| LightSemaphore.FalseMeansNoToken | include/pump/toolkit/semaphore.h:159-259 | a wait comes to return false only at a step that finds the counter at most 0: a load of `try_wait()`, or a timed-out waiter's exchange on a negative counter, which it raises |
| LightSemaphore.StaysInWait | include/pump/toolkit/semaphore.h:176-259 | in all runs `wait()` without a timeout never returns false |
| LightSemaphore.TimesOutAlone | include/pump/toolkit/semaphore.h:183-259 | a timed wait that finds no token, is not signalled and times out returns false and leaves the counter as it was |
| LightSemaphore.WakesAlone | include/pump/toolkit/semaphore.h:233-239 | a sleeper for whom a permit is there takes it at its next step and returns true |
| LightSemaphore.SignalAlone | include/pump/toolkit/semaphore.h:190-197 | a signal that nobody disturbs returns with the counter raised by its count and the permits by what the waiters lack, as far as the count goes |
| LightSemaphore.QuietCount | include/pump/toolkit/semaphore.h:159-259 | when nobody waits and no permit is out, the counter is exactly the tokens signalled and not taken |
| BlockingQueue.StepKeeps | include/pump/toolkit/freelock_queue.h:48-106 | over a queue that pops what has been published in claim order: every step keeps tokens and their holders covered by completed pushes, and the record of the dequeues right |
| BlockingQueue.TokensAreCovered | include/pump/toolkit/freelock_queue.h:48-106 | completed pushes cover every element popped and every thread that holds a token and has yet to pop |
| BlockingQueue.SpinOnlyBehindAPush | include/pump/toolkit/freelock_queue.h:70-75 | the loop around the inner pop spins only while an element is claimed and its push not finished |
| BlockingQueue.DequeuesShareOut | include/pump/toolkit/freelock_queue.h:69-106 | over every run the dequeues share out the positions popped: none to one that returned false, which `dequeue()` without a timeout never does, one to each that returned true, each position to one dequeue, in order for each thread |
| BlockingQueue.EveryValueHasAToken | include/pump/toolkit/freelock_queue.h:48-106 | in every run each published value is popped or has its token: with a thread, in the counter, among the permits, or still to be signalled |
| BlockingQueue.QuietTokens | include/pump/toolkit/freelock_queue.h:48-106 | between operations the semaphore's counter is the number of values left, all of them published |
| BlockingQueue.EnqueueAlone | include/pump/toolkit/freelock_queue.h:48-60 | an undisturbed enqueue that nobody waits for adds its value and a token |
| BlockingQueue.DequeueAlone | include/pump/toolkit/freelock_queue.h:69-106 | an undisturbed dequeue of any kind, with a token and the oldest value there, takes both and returns true |
| BlockingM2m.StepRefines | include/pump/toolkit/freelock_queue.h:48-106 | over the growable queue every step, with any number of enqueuers and dequeuers, is one of BlockingQueue or none, an exchange that succeeds being fresh |
| BlockingM2m.PopKeepsIff | include/pump/toolkit/freelock_queue.h:70-75 | an exchange of `tail_` within a dequeue keeps the invariant if and only if it is fresh |
| BlockingM2m.EveryRun | include/pump/toolkit/freelock_queue.h:48-106 | in every such run a dequeue that returned true took one position and returned the value claimed there, one that returned false took none, no position goes to two, and between operations the counter is the number of values left |
| BlockingM2m.OneDequeuer | include/pump/toolkit/freelock_queue.h:48-106 | with one dequeuer, any number of enqueuers and any timeouts, the same without any condition on `tail_`, and the values returned are a prefix of the values in claim order |
| BlockingM2m.SpinsOnlyBehindAPush | include/pump/toolkit/freelock_queue.h:70-75 | the only dequeuer's inner pop fails if and only if the oldest value left, which its token says there is, is still being pushed |
| BlockingO2o.StepRefines | include/pump/toolkit/freelock_queue.h:48-106 | over the single-producer queue every step is one or two of BlockingQueue, or none |
| BlockingO2o.EveryRun | include/pump/toolkit/freelock_queue.h:48-106 | in every interleaving a dequeue that returned false took nothing, one that returned true took one value in turn, the values taken are a prefix of those pushed, and between operations the counter is the number of values left |
| BlockingO2o.NeverSpins | include/pump/toolkit/freelock_queue.h:70-75 | over the single-producer queue the loop around the inner pop never goes round |
| BlockingCases.TwoDequeuersReturnOneValue | include/pump/toolkit/freelock_queue.h:69-76 | counterexample: over the growable queue with two dequeuers one returns a value that was not claimed in its position |
| TcpSend.StepKeeps | src/transport/tcp_transport.cpp:109-453 | every step of sender, poller, stopper and reader keeps the token, the sizes and the wire in order, a comparison of lines 317 and 432 if it comes out right |
| TcpSend.EveryRun | src/transport/tcp_transport.cpp:312-453 | all runs that read the right operand first, and all others in which the comparisons come out right, faults included: bytes on the wire are a prefix of the buffers in send order, `sent_cb` follows that order, no pop or assertion fails, and sender, armed tracker and poller never own the last buffer together, none of them when nothing is pending, and one of them when something is, but for faults |
| TcpSend.SizeFirstIsRight | src/transport/tcp_transport.cpp:312-320 | with the right operand read first the comparisons come out right in all runs |
| TcpSend.CompareIff | src/transport/tcp_transport.cpp:312-320 | a comparison keeps the invariant if and only if it is right, which fails just when the right operand is read second, nothing was left, and the size read is smaller than the size subtracted |
| TcpSend.OneCallback | src/transport/base_transport.cpp:28-57 | in all runs whatever, at most one of `disconnected_cb` and `stopped_cb` runs, and once |
| TcpCases.GrowingIsRight | src/transport/tcp_transport.cpp:312-320 | while no buffer sent is shorter than the one before it, all comparisons come out right |
| TcpCases.AbortsIff | src/transport/tcp_transport.cpp:416-441 | with the right operand read second, sending these buffers can make `__send_once` fail if and only if one is shorter than the one before it, and then also without faults |
| TcpSend.PopOk | src/transport/tcp_transport.cpp:416-421 | whoever rightly is about to pop, with something pending, finds the list non-empty and no last buffer |
| TcpSend.WriteOk | src/transport/flow/flow_tcp.cpp:48-70 | a write of any length leaves wire and remaining buffers adding up to what was accepted |
| TcpSend.SubtractOk | src/transport/tcp_transport.cpp:443-453 | `pending_send_size_` is the sum of the counted buffers whose completion is not subtracted yet, so more is pending if and only if a counted buffer is listed |
| TcpSend.Outstanding | src/transport/tcp_transport.cpp:384-453 | what is not on the wire is exactly the rest of the last buffer and the listed ones |
| TcpSend.AllOnWireIff | src/transport/tcp_transport.cpp:384-453 | everything accepted is on the wire if and only if nothing is pending and no listed buffer is uncounted or, while a buffer is sent but not subtracted, nothing is listed |
| TcpSend.DrainedForGood | src/transport/tcp_transport.cpp:109-132 | once `stop` has seen no operation pending, no send is in its body and none accepts a byte again |
| TcpSend.StopIsAhead | src/transport/tcp_transport.cpp:109-132 | without faults and wrong comparisons, after `stop` has returned `stopped_cb` has run or somebody is about to run it |
| TcpSend.StopFinishes | src/transport/base_transport.cpp:28-57 | without faults and wrong comparisons, once nobody has anything left to do after `stop`, `stopped_cb` has run exactly once and `disconnected_cb` never |
| TcpSend.StoppedWithAllIff | src/transport/tcp_transport.cpp:348-354 | whoever stops and however far `stop` has got, `stopped_cb` comes with everything accepted on the wire if and only if AllOnWireIff's condition holds at the exchange |
| TcpStop.EventMeansAllSent | src/transport/tcp_transport.cpp:109-153 | in all runs without faults and wrong comparisons a disconnected event is queued or handled only if the stop that won has posted it, which was forced or has everything accepted on the wire; a forced stop that has returned has posted it |
| TcpStop.ForcedStopPosts | src/transport/tcp_transport.cpp:134-147 | a forced stop that has waited for the sends posts its event whatever is pending |
| TcpStop.IdleStopPosts | src/transport/tcp_transport.cpp:118-120 | a graceful stop that finds nothing pending posts it |
| TcpStop.PendingStopPostsNone | src/transport/tcp_transport.cpp:118-123 | a graceful stop that finds bytes pending posts none, and in all runs from there without faults and wrong comparisons none is ever queued |
| TcpStop.StopIsAsAsked | src/transport/tcp_transport.cpp:109-153 | the stop that wins stays the graceful or forced one it was called as, in all runs |
| TcpStop.GracefulCutsOffIff | src/transport/tcp_transport.cpp:109-132 | once a graceful stop has waited for the sends, `stopped_cb` can come with accepted bytes unsent, without a fault or wrong comparison, if and only if bytes are pending while the poller is at line 354 or about to come there from a comparison that found nothing left |
| TcpDrain.EverythingCanBeSent | src/transport/tcp_transport.cpp:312-453 | at any moment of a run without faults and wrong comparisons, while started: everything accepted, and the buffer of a send under way, can still be put on the wire and reported with nobody else doing anything |
| TcpDrain.NewSendCanBeSent | src/transport/tcp_transport.cpp:230-259 | a send that begins then, whatever is pending, is accepted and its buffer can be sent behind the others |
| TcpHang.DisconnectIsAhead | src/transport/base_transport.cpp:28-48 | in all runs whatever, while the state is disconnecting somebody is about to announce it |
| TcpHang.NeverStopsIff | src/transport/base_transport.cpp:28-57 | in runs whose comparisons come out right, faults included: from a stopping state `stopped_cb` never comes, whatever happens, if and only if the poller waits, no event is queued, the tracker is not armed, and neither the sender nor the stop has anything to do that leads to one of these |
| TcpHang.LateStopCanHang | src/transport/tcp_transport.cpp:127-131 | counterexample: a stop that turns disconnecting into stopping behind the reader's back, after which `stopped_cb` never comes |
| TcpHang.GracefulStopCanHang | src/transport/tcp_transport.cpp:118-123 | counterexample: a graceful stop that waits for a send whose socket fails, after which `stopped_cb` never comes |
| TcpCases.StopCanCutOff | src/transport/tcp_transport.cpp:348-354 | counterexample: a graceful stop without any fault that cuts off accepted bytes, in either order of evaluation |
| TcpCases.StopCanCutOffUncounted | src/transport/tcp_transport.cpp:348-354 | counterexample: the same with nothing pending, as the buffer is pushed and not counted yet |
| TimerProtocol.StepKeeps | src/time/timer.cpp:55-101 | every step of starters, stopper, engine and worker keeps the invariant |
| TimerProtocol.EveryRun | src/service.cpp:127-141 | all runs: at most one entry for a timer in queue, map and triggered lists together and at most one holder; every callback uses an arming of its own; by the readings of the engine each comes a timeout after its queueing and a timeout after the one before |
| TimerProtocol.AfterStop | src/time/timer.cpp:55-71 | after `stop` no start succeeds, and a callback runs only if it was won before, and then once |
| TimerEarly.ArmedCanFire | src/time/engine.cpp:61-89 | wherever an armed timer is, while the engine runs it can still come to its callback, within a timeout and without anybody stopping anything: no interleaving loses it |
| TimerEarly.CanFireIff | src/time/engine.cpp:92-174 | the callback of an armed timer can come by a given time, with or without a stop on the way, if and only if that is not past and a timeout after the reading it is queued with or, if it is still to be queued, the least the engine can queue it with from where it is in its loop |
| TimerEarly.EarlyIff | src/time/engine.cpp:92-149 | some interleaving makes the callback of an armed timer early if and only if that reading is older than its start and a timeout has not passed since its start |
| TimerEarly.OnTimeElsewhere | src/time/engine.cpp:98-126 | in every run: while the engine is anywhere else in its loop than behind a reading and emptying the queue, a timer that is not queued yet cannot be early |
| TimerEarly.CallbackCanBeEarly | src/time/engine.cpp:115-138 | counterexample, for every timeout: a callback less than a timeout after the start |
| TimerEarly.NotEarlyIf | src/time/engine.cpp:115-138 | a callback that has run was not early if the reading it was queued with was not older than its start |
| TimerRepeat.StartAlone | src/time/engine.cpp:61-74 | an undisturbed start arms and queues a timer that has not been started or has finished, and changes nothing for any other or after the engine has stopped |
| TimerRepeat.TimeoutAlone | src/time/timer.cpp:59-71 | an undisturbed `handle_timeout` of an armed timer runs its callback; a one-shot timer has then finished, a repeated one is armed and queued again, or gets no callback if the engine has stopped; one that is not armed is left alone |
| TimerRepeat.CallsPerStart | src/time/timer.cpp:59-87 | over every run: no more callbacks than armings; a one-shot timer is armed exactly by its successful starts; of the starts of a repeated timer one at most succeeds |
| TimerRepeat.NeverForgotten | src/time/timer.cpp:59-71 | over every run: a repeated timer never finishes, and one that has been started and not stopped, under a running engine, is armed with something standing for the arming, or claimed by the worker that is about to arm it again |
| TimerRepeat.RepeatsForever | src/time/engine.cpp:76-89 | from any such state any number of callbacks can still come without anybody stopping anything, n of them within n timeouts |
| TimerRepeat.ObserveFinds | src/time/engine.cpp:151-174 | a pass takes from the map exactly what is due by its reading and finds the least deadline left or, if none is, the end of the interval |
| DeadlineMap.Engine.QueueTimer | src/time/engine.cpp:176-178 | a timer is filed behind those of the same deadline |
| DeadlineMap.Engine.Observe | src/time/engine.cpp:151-174 | a pass appends what is due and sets the next wake-up to the least deadline left, if any |
| DeadlineMap.HandedOutOnce | src/time/engine.cpp:151-178 | over any run of queueing and observing, the pass that hands out a timer is exactly the first one whose clock has reached its deadline; each pass goes by deadline, then by order of queueing, without repetition |
| DeadlineMap.NextWakeUp | src/time/engine.cpp:164-167 | the first key of the map is the least deadline of the timers still waiting |
| DeadlineMap.MapHoldsWaiting | src/time/engine.cpp:151-178 | the map holds exactly the timers queued and not yet due at any pass, each under its deadline |
| Sha1Transform.Blk | src/codec/sha1.cpp:35-39 | the word written over the oldest of sixteen is the next word of the 80-word schedule, and the window stays right |
| Sha1Transform.Blk0 | src/codec/sha1.cpp:24-33 | the byte swap in place makes the schedule's big-endian word |
| Sha1Transform.TurnIsRound | src/codec/sha1.cpp:41-59 | the five macros with their own forms of the functions are the rounds of section 6.1.2 of FIPS 180-4 |
| Sha1Transform.Transform | src/codec/sha1.cpp:66-178 | eighty rounds with renamed registers over sixteen words compress a block as section 6.1.2 says |
| Sha1Stream.CounterAdds | src/codec/sha1.cpp:207-211 | two words and the carry seen by wrapping count the bits modulo 2^64 |
| Sha1Stream.Context.Feed | src/codec/sha1.cpp:212-223 | state and live buffer bytes are those of the whole message, however it was cut |
| Sha1Stream.Context.Update | src/codec/sha1.cpp:200-224 | the context after any sequence of updates depends on their concatenation only |
| Sha1Stream.Context.Final | src/codec/sha1.cpp:228-275 | the digest of everything given, padded as in section 5.1.1 of FIPS 180-4, and a wiped context; the zero-fill loop ends |
| Sha1Stream.Hash | src/codec/sha1.cpp:277-287 | byte by byte gives the digest of the message |
| Sha1Stream.LengthBytes | src/codec/sha1.cpp:255-258 | the eight bytes appended are the bit length, most significant byte first |
| Sha1Spec.AbsorbConcat | src/codec/sha1.cpp:200-224 | whole blocks may be hashed in pieces |
| Sha1Example.DigestOfAbc | src/codec/sha1.cpp:228-287 | the digest of "abc" is A9993E36 4706816A BA3E2571 7850C26C 9CD0D89D, through padding, schedule and all eighty rounds |
| Sha1Example.InitialBytes | src/codec/sha1.cpp:188-196 | the initial state is the bytes 01 23 .. EF FE .. 10 F0 E1 D2 C3, read as little-endian words |
| Sha1Example.RoundConstants | src/codec/sha1.cpp:41-59 | the four constants are the integer parts of 2^30 times the square roots of 2, 3, 5 and 10 |
| ChunkedBody.Parsed | src/proto/http/body.cpp:74-159 | for all bytes: data and outstanding chunk bytes add up to `expected_size_`, so the assertion holds, and consumption stays in range |
| ChunkedBody.Body.ParseByChunk | src/proto/http/body.cpp:74-159 | the loop computes that parse |
| ChunkedBody.Body.ParseByLength | src/proto/http/body.cpp:59-72 | takes bytes up to the expected size and finishes exactly there |
| ChunkedBody.Body.Serialize | src/proto/http/body.cpp:31-49 | what is appended, and its size |
| ChunkedStream.Feed | src/proto/http/body.cpp:74-159 | one feed of a well-formed stream is consumed as far as it should be, with the right data, if and only if it does not end inside a chunk's number |
| ChunkedStream.ReachWire | src/proto/http/body.cpp:74-159 | what is consumed and what is left make up the stream, and the end is reached if and only if all of it is there |
| ChunkedStream.AnyCut | src/proto/http/connection.cpp:197-228 | any split of a stream but inside a number, unconsumed bytes fed again, yields the chunks concatenated and leaves what follows alone |
| ChunkedStream.CutNumberFails | src/proto/http/body.cpp:83-106 | counterexample: a number cut in two |
| ChunkedStream.SerializedIsRead | src/proto/http/body.cpp:31-49 | a serialized body ended by an empty one is read back if and only if it is shorter than a megabyte, and refused otherwise |
| ChunkedStream.DigitReads | src/utils.cpp:36-45 | a character is read as d if it is the d-th of 0-9a-f or of 0-9A-F, and as 0 if it is in neither |
| ChunkedStream.SpelledIsRead | src/proto/http/body.cpp:83-106 | a number spelled in digits of either case is read as that number, and nothing else is |
| ChunkedStream.HexSpells | src/proto/http/body.cpp:31-49 | the digits written for a number spell it, and so do the same digits in upper case |
| ChunkedStream.TenBytes | src/proto/http/body.cpp:74-159 | the stream "A", "0123456789", "0" and its forms "a" and "0A" are read as those ten bytes and finished |
| IoBuffer.GrownFits | src/toolkit/buffer.cpp:108-125 | the new size always holds the old array's used part and the new bytes |
| IoBuffer.Buffer.MakeRoom | src/toolkit/buffer.cpp:93-125 | compaction and reallocation keep every byte and make room, and the array grows only when the bytes fit in no other way |
| IoBuffer.Buffer.Write | src/toolkit/buffer.cpp:84-132 | appends to what was written; the read position moves only with the bytes |
| IoBuffer.Buffer.Fill | src/toolkit/buffer.cpp:134-182 | the same for one byte repeated |
| IoBuffer.Buffer.Read | src/toolkit/buffer.cpp:184-202 | gives the next bytes in the order written, or fails and changes nothing |
| IoBuffer.Buffer.Shift | src/toolkit/buffer.cpp:204-217 | passes over bytes, or gives back bytes passed before, exactly as many as asked for, or fails and changes nothing |
| IoBuffer.Buffer.ThereAndBack | src/toolkit/buffer.cpp:204-217 | forward and back again is the identity |
| IoBuffer.Buffer.ResetByCopy | src/toolkit/buffer.cpp:219-231 | starts over with these bytes |
| IoBuffer.Buffer.ResetByReference | src/toolkit/buffer.cpp:233-249 | starts over on the caller's array |
| HeapSort.Sort | include/pump/toolkit/sort.h:196-203 | the first entries in order, a permutation, the others untouched, for every array |
| HeapSort.BuildMaxHeap | include/pump/toolkit/sort.h:184-189 | establishes the heap, root 0 and its one child included |
| HeapSort.MaxHeapify | include/pump/toolkit/sort.h:157-177 | computes the sift-down, which ends |
| HeapSort.SiftMakesHeap | include/pump/toolkit/sort.h:157-177 | sifting down restores a heap broken at one entry |
| HeapSort.SiftRearranges | include/pump/toolkit/sort.h:157-177 | sifting only rearranges, and only below its limit |
| HeapSort.MedianPos | include/pump/toolkit/sort.h:101-126 | the first entry ends up between the entries not larger and those not smaller |
| Base64.MasksAreDivisions | src/codec/base64.cpp:136-147 | the masks and shifts are the divisions and remainders the model writes |
| Base64.CutToSextets | src/codec/base64.cpp:136-141 | four masked pieces are the sextets of the 24-bit group |
| Base64.CutToBytes | src/codec/base64.cpp:143-147 | three masked pieces are the bytes of the 24-bit group |
| Base64.LookupLetter | src/codec/base64.cpp:149-161 | looking up a letter gives back its value, and no letter is the padding |
| Base64Example.TableOfTheStandard | src/codec/base64.cpp:6-7 | the letters are the table of section 4 of RFC 4648, in its order |
| Base64Example.VectorF | src/codec/base64.cpp:26-67 | "f" is encoded as "Zg==" |
| Base64Example.VectorFo | src/codec/base64.cpp:26-67 | "fo" is encoded as "Zm8=" |
| Base64Example.VectorFoobar | src/codec/base64.cpp:26-67 | "foobar" is encoded as "Zm9vYmFy" |
| Base64.RoundTrip | src/codec/base64.cpp:14-79 | decoding an encoding gives the bytes back, and both lengths computed beforehand are the true ones |
| Base64.LengthIsTrueIff | src/codec/base64.cpp:69-79 | letters and padding: the length is true if and only if there is no more padding than belongs there |
| Base64Codec.Encode | src/codec/base64.cpp:26-67 | the loop writes the encoding of section 4 of RFC 4648 and fills its output exactly |
| Base64Codec.Decode | src/codec/base64.cpp:85-134 | the loop writes what the letters before the first padding decode to, and zeros behind it |
| Base64Codec.ThereAndBack | src/codec/base64.cpp:26-134 | what one writes the other reads, for any bytes but none |

## Left out

- Weak memory orders: every atomic operation is sequentially consistent.
- Imperative form of the concurrent files: freelock_m2m_queue.h, freelock_o2o_queue.h, semaphore.h, freelock_queue.h,
  tcp_transport.cpp, base_transport.cpp, flow_tcp.cpp and timer.cpp are transition systems over values, because their
  promises are about interleavings of several threads; sequential updates inside one step stand for the fields' stores.
- M2mQueue.Fifo: holds for runs in which every successful exchange of `head_` finds its reads still true; the exact
  condition is ClaimIffFresh, and the failing runs are those of HeadReachesTailIff.
- M2mQueue.ManyConsumers: supposes in addition that every successful exchange of `tail_` moves it to the next node and
  that node is published; the exact condition is PopIffPublished and the failing run StaleReadyIsPopped.
- BlockingM2m.EveryRun: the same two conditions on the inner queue; the failing run is TwoDequeuersReturnOneValue.
- BlockingM2m.OneDequeuer: the condition on `head_` alone, as in Fifo.
- Order of evaluation in line 129 of freelock_m2m_queue.h, where `next` and `tail_` are read in one comparison: left
  to right.
- Allocation failure in every file, block sizes below 2, and destructors, that of the block queue among them.
- TimerProtocol.EveryRun: a timer whose last owner lets go while an entry waits is not followed further, and the
  engine and the worker are not started again once stopped.
- DeadlineMap.Engine.QueueTimer: deadlines are unbounded, without the wrap of 64 bits.
- How long the engine waits: engine.cpp:121-122 passes microseconds where the queue takes nanoseconds, so it wakes up
  earlier than it means to; in the model the wait may run out at any moment, and no run that TimerEarly builds has it
  run out.
- TimerEarly.EarlyIff: for an engine that has not been stopped, with the other timers and the threads that start them
  as they come.
- TcpSend.EveryRun: one sending thread at a time per transport, and no wrap of the 32-bit sizes; runs in which a
  comparison comes out wrong are excluded, by CompareIff's exact condition, and AbortsIff says when there are any.
- TcpSend.StopIsAhead: runs without socket faults and disconnects, and without wrong comparisons; NeverStopsIff says
  when `stopped_cb` fails to come in the others.
- TcpDrain.EverythingCanBeSent: says that the bytes can be sent, by a socket that takes them; nothing is said about how
  long a real one takes.
- Starting a transport, asynchronous reads, a transport without `sent_cb`, and a caller that changes a buffer it has
  handed over.
- The poller's pop of events that "never fails" (poller.cpp:166-201): its counter can run ahead of a claimed and
  unpublished node.
- PowerOfTwo.CeilToPowerOfTwo: unsigned words, where the source shifts a signed 32-bit one.
- The semaphore's kernel object and clock: a permit counter, and a timed wait that may time out at any moment.
- Sha1Stream.Context.Update: at most 2^31 - 1 bytes in one call, as the size is a signed 32-bit number.
- Sha1Transform.Transform: the little-endian branch, as a loop of sixteen times five rounds for the eighty lines.
- ChunkedBody.Parsed: sizes are unbounded, without the wrap of `expected_size_` at 32 bits.
- ChunkedStream.AnyCut: chunk extensions and trailers, which the parser does not know.
- IoBuffer.Buffer.Write: the size of the array, where a write grows it, has to fit a signed 32-bit number; reference
  counts and caller-owned arrays changed from outside are left out.
- Base64Codec.Decode: supposes a string that is not all padding and whose computed length is enough, outside of which
  the source leaves its buffers.
- `insert_sort` and `quick_sort` itself, whose guard reads in front of the range; bubble and select sort.
- TLS, UDP, acceptors, dialers and the handshaker: the same send protocol, or plumbing around it.
- WebSocket frames, and URI and header parsing with regular expressions.
- `freelock_arr_queue` and `spin_mutex`.
